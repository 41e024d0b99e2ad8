/** The pay-per-use segment: the check-ins of non-members and visitors, the price and time of
    day read from each of them, the per-player spend table, the high-value conversion targets
    and the conversion revenue model. */
module PayPerUse {
  import opened Common
  import opened Sorting

  /** A row of the check-in report, reduced to the columns the segment analysis reads. */
  datatype Checkin = Checkin(
    membership: Cell,
    price: Cell,
    eventName: Cell,
    player: Cell,
    firstName: Cell,
    lastName: Cell,
    rating: Cell)

  // ---------------------------------------------------------------- price

  /** The leading run of non-whitespace characters. */
  function Word(s: string): (r: string)
    ensures r <= s
    ensures forall i :: 0 <= i < |r| ==> !IsSpace(r[i])
    ensures |r| < |s| ==> IsSpace(s[|r|])
  {
    if |s| > 0 && !IsSpace(s[0]) then [s[0]] + Word(s[1..]) else []
  }

  /** `s.split()[0]`: the first whitespace-separated token; None where Python raises IndexError. */
  function FirstToken(s: string): (r: Option<string>)
    ensures r.None? <==> forall i :: 0 <= i < |s| ==> IsSpace(s[i])
    ensures r.Some? ==> |r.value| > 0 && forall i :: 0 <= i < |r.value| ==> !IsSpace(r.value[i])
  {
    var t := StripLeft(s);
    if t == [] then None else Some(Word(t))
  }

  /** `parse_price`: the first token of the text between the first and the second '$', as a float;
      0.0 for NaN, for a value without '$' and whenever the token is missing or does not parse. */
  function ParsePrice(c: Cell): real
  {
    if c.Text? then PriceText(c.s) else 0.0
  }

  /** `parse_price` on a string: `split('$')[1]` is the text between the first and the second '$'. */
  function PriceText(s: string): real
  {
    match After(s, "$")
    case None => 0.0
    case Some(rest) => PriceSegment(Before(rest, "$"))
  }

  /** `.strip().split()[0]`, then `float`. */
  function PriceSegment(seg: string): real
  {
    match FirstToken(Strip(seg))
    case None => 0.0
    case Some(tok) => FloatOrZero(tok)
  }

  /** `float(amount)`, with the `except` branch's 0.0. */
  function FloatOrZero(tok: string): real
  {
    match ParseReal(tok)
    case None => 0.0
    case Some(v) => v
  }

  /** No '$' at all means no occurrence for `IndexOf` to find. */
  lemma NoDollar(s: string)
    requires '$' !in s
    ensures IndexOf(s, "$").None?
  {
    forall k | 0 <= k < |s| ensures !MatchAt(s, "$", k) {
      assert s[k..k + 1][0] == s[k];
    }
  }

  /** The three fallbacks: NaN, a value that is not text (its `str` has no '$'), and text without '$'. */
  lemma PriceFallbacks(c: Cell)
    ensures c.Missing? ==> ParsePrice(c) == 0.0
    ensures c.Num? ==> ParsePrice(c) == 0.0
    ensures c.Text? && '$' !in c.s ==> ParsePrice(c) == 0.0
  {
    if c.Text? && '$' !in c.s {
      NoDollar(c.s);
    }
  }

  /** Whitespace in front of a non-whitespace start is what `StripLeft` removes. */
  lemma {:induction false} StripLeftSpaces(ws: string, t: string)
    requires forall i :: 0 <= i < |ws| ==> IsSpace(ws[i])
    requires t == [] || !IsSpace(t[0])
    ensures StripLeft(ws + t) == t
    decreases |ws|
  {
    if ws != [] {
      assert (ws + t)[1..] == ws[1..] + t;
      StripLeftSpaces(ws[1..], t);
    } else {
      assert ws + t == t;
    }
  }

  /** `StripRight` never reaches into a part that ends in non-whitespace. */
  lemma {:induction false} StripRightAppend(a: string, b: string)
    requires a != [] && !IsSpace(a[|a| - 1])
    ensures StripRight(a + b) == a + StripRight(b)
    decreases |b|
  {
    if b == [] {
      assert a + b == a;
    } else {
      var ab := a + b;
      assert ab[..|ab| - 1] == a + b[..|b| - 1];
      assert ab[|ab| - 1] == b[|b| - 1];
      StripRightAppend(a, b[..|b| - 1]);
    }
  }

  /** A token followed by whitespace (or nothing) is the word at the front. */
  lemma {:induction false} WordOf(tok: string, rest: string)
    requires forall i :: 0 <= i < |tok| ==> !IsSpace(tok[i])
    requires rest == [] || IsSpace(rest[0])
    ensures Word(tok + rest) == tok
    decreases |tok|
  {
    if tok == [] {
      assert tok + rest == rest;
    } else {
      assert (tok + rest)[1..] == tok[1..] + rest;
      WordOf(tok[1..], rest);
    }
  }

  /** Text after a first '$' is what `After` returns. */
  lemma AfterFirstDollar(pre: string, rest: string)
    requires '$' !in pre
    ensures After(pre + "$" + rest, "$") == Some(rest)
  {
    var s := pre + "$" + rest;
    forall j | 0 <= j < |pre| ensures !MatchAt(s, "$", j) {
      assert s[j..j + 1][0] == pre[j];
    }
    assert s[|pre|..|pre| + 1] == "$";
    IndexOfFirst(s, "$", |pre|);
    assert s[|pre| + 1..] == rest;
  }

  /** Cutting at the next '$' keeps a leading part that has none. */
  lemma CutAtDollar(head: string, post: string)
    requires '$' !in head
    ensures |Before(head + post, "$")| >= |head|
    ensures Before(head + post, "$")[..|head|] == head
    ensures Before(head + post, "$")[|head|..] <= post
  {
    var rest := head + post;
    var seg := Before(rest, "$");
    forall j | 0 <= j < |head| ensures !MatchAt(rest, "$", j) {
      assert rest[j..j + 1][0] == rest[j] == head[j];
    }
    assert seg[..|head|] == rest[..|head|];
    assert rest[|head|..] == post;
  }

  /** Stripped and split, whitespace + token + (whitespace-led rest) yields the token. */
  lemma TokenOfSegment(ws: string, tok: string, post: string)
    requires forall i :: 0 <= i < |ws| ==> IsSpace(ws[i])
    requires tok != [] && forall i :: 0 <= i < |tok| ==> !IsSpace(tok[i])
    requires post == [] || IsSpace(post[0])
    ensures FirstToken(Strip(ws + tok + post)) == Some(tok)
  {
    assert ws + tok + post == ws + (tok + post);
    StripLeftSpaces(ws, tok + post);
    StripRightAppend(tok, post);
    var p2 := StripRight(post);
    assert p2 == [] || IsSpace(p2[0]) by {
      if p2 != [] {
        assert p2[0] == post[0];
      }
    }
    assert StripLeft(tok + p2) == tok + p2;
    WordOf(tok, p2);
  }

  /** Where the first '$' is followed by optional whitespace, a token without whitespace or '$',
      and then whitespace or the end, `parse_price` is the float value of that token (0.0 if it
      is not a number). */
  lemma PriceOfToken(pre: string, ws: string, tok: string, post: string)
    requires '$' !in pre
    requires forall i :: 0 <= i < |ws| ==> IsSpace(ws[i])
    requires tok != [] && '$' !in tok && forall i :: 0 <= i < |tok| ==> !IsSpace(tok[i])
    requires post == [] || IsSpace(post[0])
    ensures ParsePrice(Text(pre + "$" + ws + tok + post)) == FloatOrZero(tok)
  {
    var head := ws + tok;
    assert pre + "$" + ws + tok + post == pre + "$" + (head + post);
    AfterFirstDollar(pre, head + post);
    forall i | 0 <= i < |head| ensures head[i] != '$' {
      if i < |ws| {
        assert head[i] == ws[i];
      } else {
        assert head[i] == tok[i - |ws|];
      }
    }
    CutAtDollar(head, post);
    var seg := Before(head + post, "$");
    var post' := seg[|head|..];
    assert seg == ws + tok + post';
    assert post' == [] || IsSpace(post'[0]) by {
      if post' != [] {
        assert post'[0] == post[0];
      }
    }
    TokenOfSegment(ws, tok, post');
    assert PriceSegment(seg) == FloatOrZero(tok);
    assert PriceText(pre + "$" + (head + post)) == PriceSegment(seg);
  }

  /** The drop-in form of the report, "(Drop-in)  $16.00": the amount is read as a decimal. */
  lemma DropInPrice(tag: string, ip: string, fp: string)
    requires '$' !in tag
    requires IsDigits(ip) && AllDigits(fp)
    ensures ParsePrice(Text(tag + "$" + ip + "." + fp)) == DecimalValue(ip, fp)
  {
    var tok := ip + "." + fp;
    assert tag + "$" + ip + "." + fp == tag + "$" + "" + tok + "";
    forall i | 0 <= i < |tok| ensures !IsSpace(tok[i]) && tok[i] != '$' {
      if i < |ip| {
        assert tok[i] == ip[i];
      } else if i > |ip| {
        assert tok[i] == fp[i - |ip| - 1];
      }
    }
    PriceOfToken(tag, "", tok, "");
    ParseRealDecimal(ip, fp);
  }

  // ---------------------------------------------------------------- time of day

  /** The four labels `parse_time_of_day` returns. */
  datatype TimeOfDay = Morning | Evening | Midday | Unknown

  function LabelText(t: TimeOfDay): string
  {
    match t
    case Morning => "morning"
    case Evening => "evening"
    case Midday => "midday"
    case Unknown => "unknown"
  }

  predicate MorningWord(s: string)
  {
    Contains(s, "morning") || Contains(s, "7:00 am") || Contains(s, "8:00 am")
  }

  predicate EveningWord(s: string)
  {
    Contains(s, "evening") || Contains(s, "7:00 pm") || Contains(s, "8:00 pm")
  }

  predicate MiddayWord(s: string)
  {
    Contains(s, "midday") || Contains(s, "mid-day") || Contains(s, "11:00 am") || Contains(s, "12:00 pm")
  }

  /** The hours of the fallback lists. */
  predicate EveningHour(s: string)
  {
    Contains(s, "5:00 pm") || Contains(s, "6:00 pm") || Contains(s, "7:00 pm") ||
    Contains(s, "8:00 pm") || Contains(s, "9:00 pm")
  }

  predicate MorningHour(s: string)
  {
    Contains(s, "7:00 am") || Contains(s, "8:00 am") || Contains(s, "9:00 am") || Contains(s, "10:00 am")
  }

  predicate MiddayHour(s: string)
  {
    Contains(s, "11:00 am") || Contains(s, "12:00 pm") || Contains(s, "1:00 pm") ||
    Contains(s, "2:00 pm") || Contains(s, "3:00 pm") || Contains(s, "4:00 pm")
  }

  /** The keyword cascade on a lower-cased event name. */
  function ClassifyEvent(low: string): TimeOfDay
  {
    if MorningWord(low) then Morning
    else if EveningWord(low) then Evening
    else if MiddayWord(low) then Midday
    else if EveningHour(low) then Evening
    else if MorningHour(low) then Morning
    else if MiddayHour(low) then Midday
    else Unknown
  }

  /** `parse_time_of_day`. A number's `str` holds none of the keywords, so only text can match. */
  function ParseTimeOfDay(c: Cell): (r: TimeOfDay)
    ensures !c.Text? ==> r == Unknown
  {
    if c.Text? then ClassifyEvent(Lower(c.s)) else Unknown
  }

  /** Morning keywords win over everything, evening words over the midday ones. */
  lemma TimePriority(s: string)
    ensures Contains(Lower(s), "morning") ==> ParseTimeOfDay(Text(s)) == Morning
    ensures Contains(Lower(s), "evening") && !MorningWord(Lower(s)) ==> ParseTimeOfDay(Text(s)) == Evening
    ensures MiddayWord(Lower(s)) && !MorningWord(Lower(s)) && !EveningWord(Lower(s)) ==>
      ParseTimeOfDay(Text(s)) == Midday
  {
  }

  /** The label ignores letter case. */
  lemma TimeIgnoresCase(s: string)
    ensures ParseTimeOfDay(Text(Lower(s))) == ParseTimeOfDay(Text(s))
  {
    LowerIdempotent(s);
  }

  /** "unknown" is returned exactly for NaN, for non-text and for names with none of the keywords. */
  lemma UnknownIff(c: Cell)
    ensures ParseTimeOfDay(c) == Unknown <==>
      !c.Text? ||
      var low := Lower(c.s);
      !MorningWord(low) && !EveningWord(low) && !MiddayWord(low) &&
      !EveningHour(low) && !MorningHour(low) && !MiddayHour(low)
  {
  }

  /** A character of the pattern that the text lacks rules the pattern out. */
  lemma AbsentChar(s: string, pat: string, i: nat)
    requires i < |pat| && pat[i] !in s
    ensures !Contains(s, pat)
  {
    forall j | 0 <= j && j + |pat| <= |s| ensures !MatchAt(s, pat, j) {
      assert s[j..j + |pat|][i] == s[j + i];
    }
    ContainsIff(s, pat);
  }

  /** A name without the letters o, e, i, a and the digits 2, 7, 8 has none of the primary keywords. */
  lemma NoPrimaryWord(s: string)
    requires 'o' !in s && 'e' !in s && 'i' !in s && 'a' !in s && '2' !in s && '7' !in s && '8' !in s
    ensures !MorningWord(s) && !EveningWord(s) && !MiddayWord(s)
  {
    AbsentChar(s, "morning", 1);
    AbsentChar(s, "7:00 am", 0);
    AbsentChar(s, "8:00 am", 0);
    AbsentChar(s, "evening", 0);
    AbsentChar(s, "7:00 pm", 0);
    AbsentChar(s, "8:00 pm", 0);
    AbsentChar(s, "midday", 1);
    AbsentChar(s, "mid-day", 1);
    AbsentChar(s, "11:00 am", 6);
    AbsentChar(s, "12:00 pm", 1);
  }

  /** A name without the digits 5 to 9 and the letter a has none of the evening or morning hours. */
  lemma NoEarlierHour(s: string)
    requires '5' !in s && '6' !in s && '7' !in s && '8' !in s && '9' !in s && 'a' !in s
    ensures !EveningHour(s) && !MorningHour(s)
  {
    AbsentChar(s, "5:00 pm", 0);
    AbsentChar(s, "6:00 pm", 0);
    AbsentChar(s, "7:00 pm", 0);
    AbsentChar(s, "8:00 pm", 0);
    AbsentChar(s, "9:00 pm", 0);
    AbsentChar(s, "7:00 am", 0);
    AbsentChar(s, "8:00 am", 0);
    AbsentChar(s, "9:00 am", 0);
    AbsentChar(s, "10:00 am", 6);
  }

  /** The characters of "11:00 pm" that the keyword tests look for. */
  lemma ElevenPmText(s: string)
    requires s == "11:00 pm"
    ensures Lower(s) == s
    ensures 'o' !in s && 'e' !in s && 'i' !in s && 'a' !in s && '2' !in s
    ensures '5' !in s && '6' !in s && '7' !in s && '8' !in s && '9' !in s
    ensures MatchAt(s, "1:00 pm", 1)
  {
    assert s[1..8] == "1:00 pm";
  }

  /** The hour tests are substring tests: "11:00 pm" contains "1:00 pm" and so reads as midday. */
  lemma ElevenPmReadsAsMidday(s: string)
    requires s == "11:00 pm"
    ensures ParseTimeOfDay(Text(s)) == Midday
  {
    ElevenPmText(s);
    NoPrimaryWord(s);
    NoEarlierHour(s);
    ContainsIff(s, "1:00 pm");
    assert MiddayHour(Lower(s));
  }

  // ---------------------------------------------------------------- the segment

  /** `Membership Name` contains "Non-Member/Visitor", ignoring case; NaN does not match. */
  predicate IsNonMember(c: Checkin)
  {
    c.membership.Text? && Contains(Lower(c.membership.s), "non-member/visitor")
  }

  /** The filtered frame `non_members`, in report order. */
  function NonMembers(df: seq<Checkin>): (r: seq<Checkin>)
    ensures forall k :: 0 <= k < |r| ==> IsNonMember(r[k]) && r[k] in df
    ensures forall k :: 0 <= k < |df| && IsNonMember(df[k]) ==> df[k] in r
  {
    Filter(df, IsNonMember)
  }

  /** The membership test ignores letter case. */
  lemma NonMemberIgnoresCase(c: Checkin, s: string)
    requires c.membership == Text(s)
    ensures IsNonMember(c) <==> IsNonMember(c.(membership := Text(Lower(s))))
  {
    LowerIdempotent(s);
  }

  /** The `price_numeric` column. */
  function Prices(rows: seq<Checkin>): (r: seq<real>)
    ensures |r| == |rows|
  {
    seq(|rows|, k requires 0 <= k < |rows| => ParsePrice(rows[k].price))
  }

  /** The `time_of_day` column. */
  function TimesOfDay(rows: seq<Checkin>): (r: seq<TimeOfDay>)
    ensures |r| == |rows|
  {
    seq(|rows|, k requires 0 <= k < |rows| => ParseTimeOfDay(rows[k].eventName))
  }

  /** `time_of_day.value_counts()`, one count per label. */
  datatype TimeCounts = TimeCounts(morning: nat, evening: nat, midday: nat, unknown: nat)

  function CountTimes(ts: seq<TimeOfDay>): (r: TimeCounts)
    ensures r.morning == multiset(ts)[Morning] && r.evening == multiset(ts)[Evening]
    ensures r.midday == multiset(ts)[Midday] && r.unknown == multiset(ts)[Unknown]
    ensures r.morning + r.evening + r.midday + r.unknown == |ts|
  {
    if ts == [] then TimeCounts(0, 0, 0, 0)
    else
      var c := CountTimes(ts[..|ts| - 1]);
      assert ts == ts[..|ts| - 1] + [ts[|ts| - 1]];
      match ts[|ts| - 1]
      case Morning => c.(morning := c.morning + 1)
      case Evening => c.(evening := c.evening + 1)
      case Midday => c.(midday := c.midday + 1)
      case Unknown => c.(unknown := c.unknown + 1)
  }

  predicate HasPlayer(rows: seq<Checkin>, x: Cell)
  {
    exists k :: 0 <= k < |rows| && rows[k].player == x
  }

  lemma HasPlayerStep(rows: seq<Checkin>)
    requires rows != []
    ensures forall x :: HasPlayer(rows, x) <==>
      (HasPlayer(rows[..|rows| - 1], x) || rows[|rows| - 1].player == x)
  {
    var init := rows[..|rows| - 1];
    assert forall k :: 0 <= k < |init| ==> init[k] == rows[k];
  }

  /** The groups of `groupby('Player _#')`, which are also what `nunique` counts: the present
      player ids, each once, in order of first appearance. */
  function Players(rows: seq<Checkin>): (r: seq<Cell>)
    ensures |r| <= |rows|
    ensures forall i, j :: 0 <= i < j < |r| ==> r[i] != r[j]
    ensures forall x :: x in r <==> x != Missing && HasPlayer(rows, x)
  {
    if rows == [] then []
    else
      var init := Players(rows[..|rows| - 1]);
      var last := rows[|rows| - 1].player;
      HasPlayerStep(rows);
      if last != Missing && last !in init then init + [last] else init
  }

  /** `price_numeric` summed over one player's check-ins. */
  function GroupTotal(rows: seq<Checkin>, prices: seq<real>, p: Cell): real
    requires |prices| == |rows|
  {
    if rows == [] then 0.0
    else
      GroupTotal(rows[..|rows| - 1], prices[..|prices| - 1], p) +
        (if rows[|rows| - 1].player == p then prices[|prices| - 1] else 0.0)
  }

  /** `'Event Name': 'count'`: the player's check-ins whose event name is present. */
  function GroupVisits(rows: seq<Checkin>, p: Cell): (r: nat)
    ensures r <= |rows|
  {
    if rows == [] then 0
    else
      var last := rows[|rows| - 1];
      GroupVisits(rows[..|rows| - 1], p) + (if last.player == p && last.eventName != Missing then 1 else 0)
  }

  /** `'first'`: the first present value of a column among the player's check-ins, NaN if none. */
  function GroupFirst(rows: seq<Checkin>, p: Cell, field: Checkin -> Cell): Cell
  {
    if rows == [] then Missing
    else if rows[0].player == p && field(rows[0]) != Missing then field(rows[0])
    else GroupFirst(rows[1..], p, field)
  }

  /** `'first'` is the value of the earliest of the player's check-ins that has one. */
  lemma {:induction false} GroupFirstIsFirst(rows: seq<Checkin>, p: Cell, field: Checkin -> Cell)
    ensures GroupFirst(rows, p, field) == Missing <==>
      forall k :: 0 <= k < |rows| && rows[k].player == p ==> field(rows[k]) == Missing
    ensures GroupFirst(rows, p, field) != Missing ==>
      exists k :: 0 <= k < |rows| && rows[k].player == p && field(rows[k]) == GroupFirst(rows, p, field) &&
        forall j :: 0 <= j < k && rows[j].player == p ==> field(rows[j]) == Missing
  {
    if rows != [] {
      var tail := rows[1..];
      GroupFirstIsFirst(tail, p, field);
      assert forall k :: 1 <= k < |rows| ==> rows[k] == tail[k - 1];
      if !(rows[0].player == p && field(rows[0]) != Missing) && GroupFirst(tail, p, field) != Missing {
        var k :| 0 <= k < |tail| && tail[k].player == p && field(tail[k]) == GroupFirst(tail, p, field) &&
          forall j :: 0 <= j < k && tail[j].player == p ==> field(tail[j]) == Missing;
        assert rows[k + 1] == tail[k];
      }
    }
  }

  /** A row of `player_spend`, with the `Monthly_Spend_Est` column. */
  datatype PlayerSpend = PlayerSpend(
    player: Cell,
    totalSpend: real,
    firstName: Cell,
    lastName: Cell,
    visits: nat,
    rating: Cell,
    monthlySpend: real)

  function FirstNameOf(c: Checkin): Cell { c.firstName }
  function LastNameOf(c: Checkin): Cell { c.lastName }
  function RatingOf(c: Checkin): Cell { c.rating }

  /** The data covers about four months. */
  const MonthsCovered: real := 4.0

  function SpendRow(rows: seq<Checkin>, prices: seq<real>, p: Cell): PlayerSpend
    requires |prices| == |rows|
  {
    var total := GroupTotal(rows, prices, p);
    PlayerSpend(p, total, GroupFirst(rows, p, FirstNameOf), GroupFirst(rows, p, LastNameOf),
      GroupVisits(rows, p), GroupFirst(rows, p, RatingOf), total / MonthsCovered)
  }

  function SpendRows(ids: seq<Cell>, rows: seq<Checkin>, prices: seq<real>): (r: seq<PlayerSpend>)
    requires |prices| == |rows|
    ensures |r| == |ids|
    ensures forall k :: 0 <= k < |ids| ==> r[k] == SpendRow(rows, prices, ids[k])
  {
    if ids == [] then []
    else SpendRows(ids[..|ids| - 1], rows, prices) + [SpendRow(rows, prices, ids[|ids| - 1])]
  }

  /** `player_spend`: one row per player. */
  function SpendTable(rows: seq<Checkin>, prices: seq<real>): seq<PlayerSpend>
    requires |prices| == |rows|
  {
    SpendRows(Players(rows), rows, prices)
  }

  /** The table has one row per player: its players are distinct, each is a present player of the
      check-ins, every such player has a row, and the monthly estimate is the total over four. */
  lemma SpendTableRows(rows: seq<Checkin>, prices: seq<real>)
    requires |prices| == |rows|
    ensures |SpendTable(rows, prices)| <= |rows|
    ensures forall i, j :: 0 <= i < j < |SpendTable(rows, prices)| ==>
      SpendTable(rows, prices)[i].player != SpendTable(rows, prices)[j].player
    ensures forall k :: 0 <= k < |SpendTable(rows, prices)| ==>
      SpendTable(rows, prices)[k].player != Missing && HasPlayer(rows, SpendTable(rows, prices)[k].player)
    ensures forall x :: x != Missing && HasPlayer(rows, x) ==>
      exists k :: 0 <= k < |SpendTable(rows, prices)| && SpendTable(rows, prices)[k].player == x
    ensures forall k :: 0 <= k < |SpendTable(rows, prices)| ==>
      SpendTable(rows, prices)[k].monthlySpend * 4.0 == SpendTable(rows, prices)[k].totalSpend
  {
    var ids := Players(rows);
    var t := SpendTable(rows, prices);
    assert forall k :: 0 <= k < |t| ==> t[k].player == ids[k] && ids[k] in ids;
    forall x | x != Missing && HasPlayer(rows, x) ensures exists k :: 0 <= k < |t| && t[k].player == x {
      var k :| 0 <= k < |ids| && ids[k] == x;
      assert t[k].player == x;
    }
  }

  function SpendSum(t: seq<PlayerSpend>): real
  {
    if t == [] then 0.0 else SpendSum(t[..|t| - 1]) + t[|t| - 1].totalSpend
  }

  /** The prices of the check-ins that have a player. */
  function PresentTotal(rows: seq<Checkin>, prices: seq<real>): real
    requires |prices| == |rows|
  {
    if rows == [] then 0.0
    else
      PresentTotal(rows[..|rows| - 1], prices[..|prices| - 1]) +
        (if rows[|rows| - 1].player != Missing then prices[|prices| - 1] else 0.0)
  }

  /** A player who has no check-ins has spent nothing. */
  lemma {:induction false} GroupTotalAbsent(rows: seq<Checkin>, prices: seq<real>, p: Cell)
    requires |prices| == |rows| && !HasPlayer(rows, p)
    ensures GroupTotal(rows, prices, p) == 0.0
  {
    if rows != [] {
      HasPlayerStep(rows);
      GroupTotalAbsent(rows[..|rows| - 1], prices[..|prices| - 1], p);
    }
  }

  /** The group totals of the given players, added up. */
  function GroupTotals(ids: seq<Cell>, rows: seq<Checkin>, prices: seq<real>): real
    requires |prices| == |rows|
  {
    if ids == [] then 0.0
    else GroupTotals(ids[..|ids| - 1], rows, prices) + GroupTotal(rows, prices, ids[|ids| - 1])
  }

  /** The table's spend column adds up to the group totals of its players. */
  lemma {:induction false} SpendSumTotals(ids: seq<Cell>, rows: seq<Checkin>, prices: seq<real>)
    requires |prices| == |rows|
    ensures SpendSum(SpendRows(ids, rows, prices)) == GroupTotals(ids, rows, prices)
  {
    if ids != [] {
      var t := SpendRows(ids, rows, prices);
      assert t[..|t| - 1] == SpendRows(ids[..|ids| - 1], rows, prices);
      SpendSumTotals(ids[..|ids| - 1], rows, prices);
    }
  }

  /** Adding a check-in adds its price to the one group (if any) it belongs to. */
  lemma {:induction false} TotalsStep(ids: seq<Cell>, rows: seq<Checkin>, prices: seq<real>)
    requires |prices| == |rows| && rows != []
    requires forall i, j :: 0 <= i < j < |ids| ==> ids[i] != ids[j]
    ensures GroupTotals(ids, rows, prices) ==
      GroupTotals(ids, rows[..|rows| - 1], prices[..|prices| - 1]) +
        (if rows[|rows| - 1].player in ids then prices[|prices| - 1] else 0.0)
  {
    if ids != [] {
      var init := ids[..|ids| - 1];
      var q := ids[|ids| - 1];
      assert forall i, j :: 0 <= i < j < |init| ==> init[i] == ids[i] && init[j] == ids[j];
      TotalsStep(init, rows, prices);
      assert ids == init + [q];
      assert rows[|rows| - 1].player in ids <==> rows[|rows| - 1].player in init || rows[|rows| - 1].player == q;
      assert q !in init;
    }
  }

  /** Grouping loses and duplicates nothing: the players' totals add up to the prices of all the
      check-ins that have a player (pandas drops the rows without one from the groups). */
  lemma SpendConserved(rows: seq<Checkin>, prices: seq<real>)
    requires |prices| == |rows|
    ensures SpendSum(SpendTable(rows, prices)) == PresentTotal(rows, prices)
  {
    SpendSumTotals(Players(rows), rows, prices);
    PlayerTotals(rows, prices);
  }

  /** The group totals of all the players are the prices of the check-ins that have one. */
  lemma {:induction false} PlayerTotals(rows: seq<Checkin>, prices: seq<real>)
    requires |prices| == |rows|
    ensures GroupTotals(Players(rows), rows, prices) == PresentTotal(rows, prices)
  {
    if rows != [] {
      var init, ip := rows[..|rows| - 1], prices[..|prices| - 1];
      var last := rows[|rows| - 1].player;
      var ids := Players(init);
      PlayerTotals(init, ip);
      HasPlayerStep(rows);
      if last != Missing && last !in ids {
        var all := ids + [last];
        assert Players(rows) == all;
        assert forall i, j :: 0 <= i < j < |all| ==> all[i] != all[j];
        TotalsStep(ids, rows, prices);
        assert all[..|all| - 1] == ids;
        assert !HasPlayer(init, last);
        GroupTotalAbsent(init, ip, last);
      } else {
        assert Players(rows) == ids;
        TotalsStep(ids, rows, prices);
      }
    }
  }

  /** `Monthly_Spend_Est > 80`. */
  predicate IsHighValue(p: PlayerSpend) { p.monthlySpend > 80.0 }

  /** The key of `sort_values('Monthly_Spend_Est', ascending=False)`. */
  function DescendingSpend(p: PlayerSpend): real { -p.monthlySpend }

  /** `high_value`. */
  function HighValue(t: seq<PlayerSpend>): seq<PlayerSpend>
  {
    SortBy(Filter(t, IsHighValue), DescendingSpend)
  }

  /** The high-value targets are exactly the players of the table spending more than $80 a month,
      each as often as in the table, biggest spender first. */
  lemma HighValueTargets(t: seq<PlayerSpend>)
    ensures multiset(HighValue(t)) == multiset(Filter(t, IsHighValue))
    ensures forall p :: p in HighValue(t) <==> p in t && p.monthlySpend > 80.0
    ensures forall i, j :: 0 <= i < j < |HighValue(t)| ==> HighValue(t)[i].monthlySpend >= HighValue(t)[j].monthlySpend
  {
    var f := Filter(t, IsHighValue);
    var h := HighValue(t);
    forall p ensures p in h <==> p in f {
      assert p in h <==> p in multiset(h);
      assert p in f <==> p in multiset(f);
    }
    forall i, j | 0 <= i < j < |h| ensures h[i].monthlySpend >= h[j].monthlySpend {
      assert DescendingSpend(h[i]) <= DescendingSpend(h[j]);
    }
  }

  /** On a table row the $80-a-month bar is a total spend above $320. */
  lemma HighValueThreshold(rows: seq<Checkin>, prices: seq<real>, k: nat)
    requires |prices| == |rows| && k < |SpendTable(rows, prices)|
    ensures IsHighValue(SpendTable(rows, prices)[k]) <==> SpendTable(rows, prices)[k].totalSpend > 320.0
  {
  }

  /** `avg_visits_per_player`, 0 when there are no players. */
  function AvgVisits(total: nat, unique: nat): (r: real)
    ensures unique == 0 ==> r == 0.0
    ensures unique > 0 ==> r * unique as real == total as real
  {
    if unique > 0 then total as real / unique as real else 0.0
  }

  /** Each player has at least one check-in, so a non-empty segment averages at least one visit. */
  lemma AvgVisitsAtLeastOne(rows: seq<Checkin>)
    requires |Players(rows)| > 0
    ensures AvgVisits(|rows|, |Players(rows)|) >= 1.0
  {
    var u := |Players(rows)| as real;
    DivBounds(|rows| as real, 1.0, |rows| as real, u);
  }

  const ConversionRate: real := 0.20
  const MembershipPrice: real := 99.0
  const DurationMonths: real := 12.0

  /** `annual_revenue`: a fifth of the players converting to a $99 membership for twelve months. */
  function AnnualRevenue(uniquePlayers: nat): (r: real)
    ensures r == uniquePlayers as real * 237.6
  {
    uniquePlayers as real * ConversionRate * MembershipPrice * DurationMonths
  }

  /** The revenue of two disjoint groups of players adds up, and grows with the players. */
  lemma RevenueAdds(a: nat, b: nat)
    ensures AnnualRevenue(a + b) == AnnualRevenue(a) + AnnualRevenue(b)
    ensures AnnualRevenue(a) <= AnnualRevenue(a + b)
  {
  }

  /** What `analyze_pay_per_use_segment` computes, apart from the printed-only statistics. */
  datatype Segment = Segment(
    uniquePlayers: nat,
    totalCheckins: nat,
    avgVisits: real,
    timeDist: TimeCounts,
    spend: seq<PlayerSpend>,
    highValue: seq<PlayerSpend>,
    revenue: real)

  function SegmentOf(df: seq<Checkin>): Segment
  {
    var rows := NonMembers(df);
    var unique := |Players(rows)|;
    var spend := SpendTable(rows, Prices(rows));
    Segment(unique, |rows|, AvgVisits(|rows|, unique), CountTimes(TimesOfDay(rows)), spend,
      HighValue(spend), AnnualRevenue(unique))
  }

  /** The `non_members` frame, to which the two derived columns are added in place. */
  class NonMemberFrame {
    const rows: seq<Checkin>
    var priceNumeric: seq<real>
    var timeOfDay: seq<TimeOfDay>

    /** `df[...].copy()` of the non-member rows. */
    constructor (df: seq<Checkin>)
      ensures rows == NonMembers(df) && priceNumeric == [] && timeOfDay == []
    {
      rows := NonMembers(df);
      priceNumeric := [];
      timeOfDay := [];
    }

    /** `non_members['price_numeric'] = non_members['Price'].apply(parse_price)`. */
    method AddPriceColumn()
      modifies this
      ensures priceNumeric == Prices(rows) && timeOfDay == old(timeOfDay)
    {
      var col: seq<real> := [];
      var i := 0;
      while i < |rows|
        invariant 0 <= i <= |rows| && |col| == i
        invariant forall k :: 0 <= k < i ==> col[k] == ParsePrice(rows[k].price)
      {
        col := col + [ParsePrice(rows[i].price)];
        i := i + 1;
      }
      priceNumeric := col;
    }

    /** `non_members['time_of_day'] = non_members['Event Name'].apply(parse_time_of_day)`. */
    method AddTimeOfDayColumn()
      modifies this
      ensures timeOfDay == TimesOfDay(rows) && priceNumeric == old(priceNumeric)
    {
      var col: seq<TimeOfDay> := [];
      var i := 0;
      while i < |rows|
        invariant 0 <= i <= |rows| && |col| == i
        invariant forall k :: 0 <= k < i ==> col[k] == ParseTimeOfDay(rows[k].eventName)
      {
        col := col + [ParseTimeOfDay(rows[i].eventName)];
        i := i + 1;
      }
      timeOfDay := col;
    }
  }

  /** `analyze_pay_per_use_segment`. */
  method AnalyzeSegment(df: seq<Checkin>) returns (s: Segment)
    ensures s == SegmentOf(df)
  {
    var frame := new NonMemberFrame(df);
    frame.AddPriceColumn();
    frame.AddTimeOfDayColumn();
    var unique := |Players(frame.rows)|;
    var total := |frame.rows|;
    var spend := SpendTable(frame.rows, frame.priceNumeric);
    s := Segment(unique, total, AvgVisits(total, unique), CountTimes(frame.timeOfDay), spend,
      HighValue(spend), AnnualRevenue(unique));
  }
}
