/** Per-customer behavioural features of the segmentation analysis: the time-of-day and
    day-of-week shares of a customer's visits, the partner ids mined from the free-text
    `Members` field, event, engagement and spending ratios, the membership-tier code and
    the skill (DUPR) rating. */
module Features {
  import opened Common

  // ---------------------------------------------------------------- records

  /** A reservation row. `start` is in minutes since 1970-01-01 00:00 (None is NaT). */
  datatype Visit = Visit(
    playerId: Option<string>,
    playerName: Option<string>,
    start: Option<int>,
    members: Option<string>,
    membersCount: Option<real>,
    guestsListed: bool,
    isEvent: Option<string>,
    eventName: Option<string>,
    reservationType: Option<string>,
    paymentStatus: Option<string>)

  /** A row of the members export. */
  datatype MemberRow = MemberRow(
    memberId: Option<string>,
    membership: Option<string>,
    totalPaid: Cell,
    singles: Cell,
    doubles: Cell)

  /** A row of the transactions export. */
  datatype Transaction = Transaction(memberId: Option<string>, total: Option<real>)

  /** A row of the check-ins export. */
  datatype Checkin = Checkin(playerId: Option<string>, status: Option<string>)

  /** The four loaded data frames. */
  datatype Tables = Tables(
    reservations: seq<Visit>,
    transactions: seq<Transaction>,
    checkins: seq<Checkin>,
    members: seq<MemberRow>)

  // ---------------------------------------------------------------- calendar

  /** `.dt.hour` of a timestamp. */
  function HourOf(m: int): (h: int)
    ensures 0 <= h < 24
  {
    (m / 60) % 24
  }

  /** `.dt.dayofweek` of a timestamp, Monday = 0; 1970-01-01 was a Thursday. */
  function DayOfWeek(m: int): (d: int)
    ensures 0 <= d < 7
  {
    (m / 1440 + 3) % 7
  }

  /** `Series.between(lo, hi)` on the hour: false on NaT. */
  predicate HourBetween(v: Visit, lo: int, hi: int)
  {
    v.start.Some? && lo <= HourOf(v.start.value) <= hi
  }

  predicate IsMorning(v: Visit) { HourBetween(v, 6, 11) }
  predicate IsAfternoon(v: Visit) { HourBetween(v, 12, 16) }
  predicate IsEvening(v: Visit) { HourBetween(v, 17, 21) }

  /** `dayofweek.between(0, 4)`. */
  predicate IsWeekday(v: Visit) { v.start.Some? && DayOfWeek(v.start.value) <= 4 }

  /** `(dow == 5) | (dow == 6)`: false on NaT. */
  predicate IsWeekend(v: Visit) { v.start.Some? && DayOfWeek(v.start.value) >= 5 }

  // ---------------------------------------------------------------- visit tests

  predicate IsSolo(v: Visit) { v.membersCount == Some(1.0) }
  predicate HasGuests(v: Visit) { v.guestsListed }
  predicate IsEventVisit(v: Visit) { v.isEvent == Some("TRUE") }

  /** A missing text cell reads as the empty string (`fillna('')`). */
  function TextOr(c: Option<string>): string
  {
    if c.Some? then c.value else ""
  }

  /** The lower-cased event name of a visit. */
  function EventText(v: Visit): string { Lower(TextOr(v.eventName)) }

  predicate IsDrillEvent(v: Visit)
  {
    IsEventVisit(v) && (Contains(EventText(v), "drill") || Contains(EventText(v), "skill"))
  }

  predicate IsSocialEvent(v: Visit)
  {
    IsEventVisit(v) &&
    (Contains(EventText(v), "social") || Contains(EventText(v), "mixer") || Contains(EventText(v), "open play"))
  }

  predicate IsCompetitiveEvent(v: Visit)
  {
    IsEventVisit(v) &&
    (Contains(EventText(v), "tournament") || Contains(EventText(v), "advanced") || Contains(EventText(v), "expert"))
  }

  /** The case-insensitive pattern `Doubles.*Add Players Now`: "doubles", then "add players now"
      later on the same line (the regex dot does not cross a newline). */
  predicate OrganizedText(s: string)
  {
    exists i :: 0 <= i <= |s| - 7 && MatchAt(s, "doubles", i) &&
      Contains(Before(s[i + 7..], "\n"), "add players now")
  }

  predicate IsOrganized(v: Visit) { OrganizedText(Lower(TextOr(v.reservationType))) }
  predicate IsDropIn(v: Visit) { Contains(Lower(TextOr(v.reservationType)), "drop") }
  predicate IsPaid(v: Visit) { v.paymentStatus == Some("Paid") || v.paymentStatus == Some("Partially Paid") }

  // ---------------------------------------------------------------- partner ids

  /** `re.findall(r'#(\d+)', s)`: each `#` directly followed by digits yields the whole digit run,
      and scanning resumes after it. */
  function PartnerIds(s: string): (r: seq<string>)
    ensures forall k :: 0 <= k < |r| ==> IsDigits(r[k])
    decreases |s|
  {
    if |s| < 2 then []
    else if s[0] == '#' && IsDigit(s[1]) then
      var d := DigitRun(s[1..]);
      [d] + PartnerIds(s[1 + |d|..])
    else PartnerIds(s[1..])
  }

  /** A `#` at position `i` starts the id `x`. */
  predicate PartnerAt(s: string, i: int, x: string)
  {
    0 <= i < |s| - 1 && s[i] == '#' && IsDigit(s[i + 1]) && x == DigitRun(s[i + 1..])
  }

  lemma PartnerAtShift(s: string, k: nat, i: int, x: string)
    requires k <= i && k <= |s|
    ensures PartnerAt(s, i, x) <==> PartnerAt(s[k..], i - k, x)
  {
    if k <= i < |s| - 1 {
      assert s[k..][i - k + 1..] == s[i + 1..];
    }
  }

  /** At a `#` followed by the digit run `d`, the id `d` is extracted and the scan resumes at `t`. */
  lemma PartnerIdsIffAtHash(s: string, x: string, d: string, t: string)
    requires |s| >= 2 && s[0] == '#' && IsDigit(s[1])
    requires d == DigitRun(s[1..]) && t == s[1 + |d|..]
    requires x in PartnerIds(t) <==> exists i :: PartnerAt(t, i, x)
    ensures x in PartnerIds(s) <==> exists i :: PartnerAt(s, i, x)
  {
    assert PartnerIds(s) == [d] + PartnerIds(t);
    assert |d| >= 1 by { assert s[1..][0] == s[1]; }
    if x in PartnerIds(s) {
      HashIdFound(s, x, d, t);
    }
    if exists i :: PartnerAt(s, i, x) {
      var i :| PartnerAt(s, i, x);
      HashIdExtracted(s, x, d, t, i);
    }
  }

  lemma HashIdFound(s: string, x: string, d: string, t: string)
    requires |s| >= 2 && s[0] == '#' && |d| >= 1
    requires d == DigitRun(s[1..]) && t == s[1 + |d|..]
    requires x in PartnerIds(t) ==> exists i :: PartnerAt(t, i, x)
    requires x == d || x in PartnerIds(t)
    ensures exists i :: PartnerAt(s, i, x)
  {
    if x == d {
      assert PartnerAt(s, 0, x);
    } else {
      var j :| PartnerAt(t, j, x);
      PartnerAtShift(s, 1 + |d|, j + 1 + |d|, x);
    }
  }

  lemma HashIdExtracted(s: string, x: string, d: string, t: string, i: int)
    requires |s| >= 2 && s[0] == '#' && |d| >= 1
    requires d == DigitRun(s[1..]) && t == s[1 + |d|..]
    requires (exists j :: PartnerAt(t, j, x)) ==> x in PartnerIds(t)
    requires PartnerAt(s, i, x)
    ensures x == d || x in PartnerIds(t)
  {
    if i == 0 {
    } else if i <= |d| {
      assert s[i] == d[i - 1];
    } else {
      PartnerAtShift(s, 1 + |d|, i, x);
    }
  }

  /** The step of `PartnerIdsIff` past a character that starts no id. */
  lemma PartnerIdsIffSkip(s: string, x: string)
    requires |s| >= 2 && !(s[0] == '#' && IsDigit(s[1]))
    requires x in PartnerIds(s[1..]) <==> exists i :: PartnerAt(s[1..], i, x)
    ensures x in PartnerIds(s) <==> exists i :: PartnerAt(s, i, x)
  {
    var t := s[1..];
    if x in PartnerIds(s) {
      var j :| PartnerAt(t, j, x);
      PartnerAtShift(s, 1, j + 1, x);
    }
    if exists i :: PartnerAt(s, i, x) {
      var i :| PartnerAt(s, i, x);
      assert i != 0;
      PartnerAtShift(s, 1, i, x);
    }
  }

  /** The extracted ids are exactly the digit runs that follow a `#`. */
  lemma {:induction false} PartnerIdsIff(s: string, x: string)
    ensures x in PartnerIds(s) <==> exists i :: PartnerAt(s, i, x)
    decreases |s|
  {
    if |s| < 2 {
    } else if s[0] == '#' && IsDigit(s[1]) {
      var d := DigitRun(s[1..]);
      PartnerIdsIff(s[1 + |d|..], x);
      PartnerIdsIffAtHash(s, x, d, s[1 + |d|..]);
    } else {
      PartnerIdsIff(s[1..], x);
      PartnerIdsIffSkip(s, x);
    }
  }

  /** Text without `#` contributes no ids, whatever follows it. */
  lemma {:induction false} PartnerIdsSkip(a: string, b: string)
    requires '#' !in a
    ensures PartnerIds(a + b) == PartnerIds(b)
    decreases |a|
  {
    if a != [] {
      assert a[0] in a;
      assert (a + b)[0] == a[0];
      PartnerIdsSkip(a[1..], b);
      if |a + b| >= 2 {
        assert (a + b)[1..] == a[1..] + b;
        assert PartnerIds(a + b) == PartnerIds(a[1..] + b);
      } else {
        assert a[1..] + b == [];
      }
    } else {
      assert a + b == b;
    }
  }

  /** One rendered `Members` entry: `Name (#ID)`. */
  function Entry(name: string, id: string): string
  {
    name + " (#" + id + ")"
  }

  /** The `Members` field as the booking system writes it: entries joined by ", ". */
  function RenderMembers(names: seq<string>, ids: seq<string>): string
    requires |names| == |ids|
  {
    if names == [] then ""
    else if |names| == 1 then Entry(names[0], ids[0])
    else Entry(names[0], ids[0]) + ", " + RenderMembers(names[1..], ids[1..])
  }

  /** An entry starts, after its `#`-free name, with `#` and its id. */
  lemma EntryIds(name: string, id: string, rest: string)
    requires '#' !in name && IsDigits(id)
    ensures PartnerIds(Entry(name, id) + rest) == [id] + PartnerIds(")" + rest)
  {
    var s := Entry(name, id) + rest;
    var open := name + " (";
    assert s == open + ("#" + id + ")" + rest);
    assert '#' !in open by {
      assert forall i :: 0 <= i < |open| ==> open[i] == (if i < |name| then name[i] else " ("[i - |name|]);
    }
    PartnerIdsSkip(open, "#" + id + ")" + rest);
    IdAfterHash(id, ")" + rest);
    assert "#" + id + ")" + rest == "#" + id + (")" + rest);
  }

  /** A `#` followed by digits and then a non-digit yields those digits as the next id. */
  lemma IdAfterHash(id: string, tail: string)
    requires IsDigits(id) && |tail| > 0 && !IsDigit(tail[0])
    ensures PartnerIds("#" + id + tail) == [id] + PartnerIds(tail)
  {
    var u := ['#'] + (id + tail);
    assert "#" + id + tail == u;
    assert u[0] == '#' && u[1] == id[0];
    assert u[1..] == id + tail;
    DigitRunOfDigits(id, tail);
    assert u[1 + |id|..] == tail;
    assert PartnerIds(u) == [DigitRun(u[1..])] + PartnerIds(u[1 + |DigitRun(u[1..])|..]);
  }

  /** Extraction recovers, in order, the ids of a rendered `Members` field whose names hold no `#`. */
  lemma {:induction false} PartnerIdsOfRendered(names: seq<string>, ids: seq<string>)
    requires |names| == |ids|
    requires forall k :: 0 <= k < |names| ==> '#' !in names[k] && IsDigits(ids[k])
    ensures PartnerIds(RenderMembers(names, ids)) == ids
    decreases |names|
  {
    if |names| == 1 {
      EntryIds(names[0], ids[0], "");
      assert Entry(names[0], ids[0]) + "" == Entry(names[0], ids[0]);
      assert PartnerIds(")") == [];
    } else if |names| > 1 {
      var rest := RenderMembers(names[1..], ids[1..]);
      EntryIds(names[0], ids[0], ", " + rest);
      assert Entry(names[0], ids[0]) + ", " + rest == Entry(names[0], ids[0]) + (", " + rest);
      PartnerIdsSkip("), ", rest);
      assert ")" + (", " + rest) == "), " + rest;
      PartnerIdsOfRendered(names[1..], ids[1..]);
      assert [ids[0]] + ids[1..] == ids;
    }
  }

  /** The partner ids of one visit, minus the customer's own id (`Members` NaN contributes none). */
  function VisitPartners(v: Visit, id: string): set<string>
  {
    if v.members.None? then {} else set x | x in PartnerIds(v.members.value) && x != id
  }

  /** `unique_partners`: the ids mined from all visits' `Members`, minus the customer's own. */
  function PartnerSet(vs: seq<Visit>, id: string): set<string>
  {
    if vs == [] then {} else PartnerSet(vs[..|vs| - 1], id) + VisitPartners(vs[|vs| - 1], id)
  }

  /** A partner is any id after a `#` in some present `Members` entry, except the customer's own. */
  lemma {:induction false} PartnerSetIff(vs: seq<Visit>, id: string, x: string)
    ensures x in PartnerSet(vs, id) <==>
      x != id && exists k, i :: 0 <= k < |vs| && vs[k].members.Some? && PartnerAt(vs[k].members.value, i, x)
    decreases |vs|
  {
    if vs != [] {
      var n := |vs| - 1;
      var init := vs[..n];
      PartnerSetIff(init, id, x);
      if vs[n].members.Some? {
        PartnerIdsIff(vs[n].members.value, x);
      }
      if x != id && exists k, i :: 0 <= k < |vs| && vs[k].members.Some? && PartnerAt(vs[k].members.value, i, x) {
        var k, i :| 0 <= k < |vs| && vs[k].members.Some? && PartnerAt(vs[k].members.value, i, x);
        if k < n {
          assert init[k] == vs[k];
        }
      }
      if x in PartnerSet(init, id) {
        var k, i :| 0 <= k < |init| && init[k].members.Some? && PartnerAt(init[k].members.value, i, x);
        assert vs[k] == init[k];
      }
    }
  }

  /** The partner loop: adds each non-null `Members` entry's ids, other than the customer's own, to a set. */
  method CollectPartners(vs: seq<Visit>, id: string) returns (partners: set<string>)
    ensures partners == PartnerSet(vs, id)
  {
    partners := {};
    var i := 0;
    while i < |vs|
      invariant 0 <= i <= |vs|
      invariant partners == PartnerSet(vs[..i], id)
    {
      if vs[i].members.Some? {
        var ids := PartnerIds(vs[i].members.value);
        partners := partners + (set x | x in ids && x != id);
      }
      assert vs[..i + 1][..i] == vs[..i];
      i := i + 1;
    }
    assert vs[..i] == vs;
  }

  // ---------------------------------------------------------------- tier and rating

  /** `_encode_membership_tier`: keyword tests on the lower-cased membership, founder first. */
  function EncodeMembershipTier(membership: Option<string>): (r: nat)
    ensures r <= 5
    ensures membership.None? <==> r == 0
    ensures membership.Some? && Contains(Lower(membership.value), "founder") ==> r == 5
  {
    if membership.None? then 0
    else
      var m := Lower(membership.value);
      if Contains(m, "founder") then 5
      else if Contains(m, "fanatic") || Contains(m, "annual") then 4
      else if Contains(m, "fight club") || Contains(m, "family") then 3
      else if Contains(m, "individual") || Contains(m, "membership") then 2
      else if Contains(m, "coach") || Contains(m, "employee") then 2
      else 1
  }

  /** A membership with none of the nine keywords (a non-member or visitor) encodes as 1, and only such a one does. */
  lemma UnmatchedTierIsOne(s: string)
    ensures EncodeMembershipTier(Some(s)) == 1 <==>
      var m := Lower(s);
      !Contains(m, "founder") && !Contains(m, "fanatic") && !Contains(m, "annual") &&
      !Contains(m, "fight club") && !Contains(m, "family") && !Contains(m, "individual") &&
      !Contains(m, "membership") && !Contains(m, "coach") && !Contains(m, "employee")
  {
  }

  /** The tier ignores letter case. */
  lemma TierIgnoresCase(s: string)
    ensures EncodeMembershipTier(Some(Lower(s))) == EncodeMembershipTier(Some(s))
  {
    LowerIdempotent(s);
  }

  /** `pd.notna(x) and x != ''`. */
  predicate Given(c: Cell)
  {
    c.Num? || (c.Text? && c.s != "")
  }

  /** `float(x)` for a given cell, where a failed conversion is the caught exception, `None`. */
  function FloatOfCell(c: Cell): Option<real>
  {
    match c
    case Missing => None
    case Num(n) => Some(n)
    case Text(t) => ParseReal(t)
  }

  /** `_parse_dupr`: doubles if given, else singles if given, else 0.0; a conversion that fails
      yields 0.0 without consulting the other rating. */
  function ParseDupr(singles: Cell, doubles: Cell): (r: real)
    ensures Given(doubles) && FloatOfCell(doubles).Some? ==> r == FloatOfCell(doubles).value
    ensures !Given(doubles) && Given(singles) && FloatOfCell(singles).Some? ==> r == FloatOfCell(singles).value
    ensures !Given(doubles) && !Given(singles) ==> r == 0.0
    ensures Given(doubles) && FloatOfCell(doubles).None? ==> r == 0.0
    ensures !Given(doubles) && Given(singles) && FloatOfCell(singles).None? ==> r == 0.0
  {
    var chosen := if Given(doubles) then Some(doubles) else if Given(singles) then Some(singles) else None;
    if chosen.None? then 0.0
    else
      var f := FloatOfCell(chosen.value);
      if f.Some? then f.value else 0.0
  }

  /** Doubles wins over singles: only the doubles cell matters once it is given. */
  lemma DuprIgnoresSinglesWhenDoublesGiven(s1: Cell, s2: Cell, doubles: Cell)
    requires Given(doubles)
    ensures ParseDupr(s1, doubles) == ParseDupr(s2, doubles)
  {
  }

  /** A textual rating such as "3.75" is read as its decimal value. */
  lemma DuprOfDecimalText(singles: Cell, ip: string, fp: string)
    requires IsDigits(ip) && AllDigits(fp)
    ensures ParseDupr(singles, Text(ip + "." + fp)) == DecimalValue(ip, fp)
  {
    ParseRealDecimal(ip, fp);
  }

  // ---------------------------------------------------------------- the feature record

  /** Temporal patterns: time-of-day and day-of-week shares of the visits. */
  datatype Temporal = Temporal(
    pctMorning: real, pctAfternoon: real, pctEvening: real, pctWeekday: real, pctWeekend: real)

  /** Social patterns; `avgPartySize` is None where pandas yields NaN. */
  datatype Social = Social(
    uniquePartners: nat, partnerVarietyRate: real, avgPartySize: Option<real>,
    soloRate: real, guestBookingRate: real)

  /** Event participation. */
  datatype EventStats = EventStats(
    participationRate: real, totalEvents: nat, drills: nat, social: nat, competitive: nat)

  /** Engagement metrics. */
  datatype Engagement = Engagement(
    bookingsPerMonth: real, totalBookings: nat, checkInRate: real, hasCheckinData: nat)

  /** Willingness-to-pay indicators; `avgTransaction` is None where pandas yields NaN. */
  datatype Spending = Spending(
    totalSpend: real, avgTransaction: Option<real>, spendPerBooking: real,
    membershipTier: nat, totalPaid: Cell, duprLevel: real)

  /** Reservation-type and payment preferences. */
  datatype BookingStyle = BookingStyle(organizedRate: real, dropinRate: real, paymentRate: real)

  /** The columns `_extract_member_features` produces (the two std-based consistency scores aside). */
  datatype Features = Features(
    memberId: string,
    temporal: Temporal,
    social: Social,
    events: EventStats,
    engagement: Engagement,
    spending: Spending,
    style: BookingStyle)

  predicate ReservationOf(id: string, v: Visit) { v.playerId == Some(id) }

  /** The customer's reservations, in table order. */
  function MemberVisits(t: Tables, id: string): (r: seq<Visit>)
    ensures forall k :: 0 <= k < |r| ==> r[k].playerId == Some(id)
    ensures forall v :: v in t.reservations && ReservationOf(id, v) ==> v in r
    ensures |r| == CountIf(t.reservations, v => ReservationOf(id, v))
  {
    Filter(t.reservations, v => ReservationOf(id, v))
  }

  function TemporalOf(vs: seq<Visit>): Temporal
    requires |vs| > 0
  {
    var n := |vs|;
    Temporal(
      Ratio(CountIf(vs, IsMorning), n), Ratio(CountIf(vs, IsAfternoon), n),
      Ratio(CountIf(vs, IsEvening), n), Ratio(CountIf(vs, IsWeekday), n),
      Ratio(CountIf(vs, IsWeekend), n))
  }

  /** The `Members Count` column of a set of visits. */
  function PartySizes(vs: seq<Visit>): (r: seq<Option<real>>)
    ensures |r| == |vs| && forall k :: 0 <= k < |vs| ==> r[k] == vs[k].membersCount
  {
    seq(|vs|, k requires 0 <= k < |vs| => vs[k].membersCount)
  }

  /** The social block, given the customer's partner set. */
  function SocialOf(vs: seq<Visit>, partners: set<string>): Social
    requires |vs| > 0
  {
    Social(
      |partners|, |partners| as real / |vs| as real, MeanPresent(PartySizes(vs)),
      Ratio(CountIf(vs, IsSolo), |vs|), Ratio(CountIf(vs, HasGuests), |vs|))
  }

  function EventsOf(vs: seq<Visit>): EventStats
    requires |vs| > 0
  {
    EventStats(
      Ratio(CountIf(vs, IsEventVisit), |vs|), CountIf(vs, IsEventVisit),
      CountIf(vs, IsDrillEvent), CountIf(vs, IsSocialEvent), CountIf(vs, IsCompetitiveEvent))
  }

  function Stamps(vs: seq<Visit>): (r: seq<int>)
    ensures |r| <= |vs|
  {
    if vs == [] then []
    else Stamps(vs[..|vs| - 1]) + (if vs[|vs| - 1].start.Some? then [vs[|vs| - 1].start.value] else [])
  }

  /** `(max - min).days + 1` over the parsed timestamps, None when every timestamp is NaT. */
  function DateRange(vs: seq<Visit>): (r: Option<int>)
    ensures r.Some? ==> r.value >= 1
  {
    var st := Stamps(vs);
    if st == [] then None else Some((MaxOf(st) - MinOf(st)) / 1440 + 1)
  }

  /** `bookings_per_month`: visits per day of the active range, times 30; 0 when the range is NaN. */
  function BookingsPerMonth(vs: seq<Visit>): (r: real)
    ensures r >= 0.0
  {
    var dr := DateRange(vs);
    if dr.None? then 0.0 else Ratio(|vs|, dr.value) * 30.0
  }

  predicate CheckinOf(id: string, c: Checkin) { c.playerId == Some(id) }
  predicate CheckedIn(c: Checkin) { c.status == Some("Checked-In") }
  predicate TransactionOf(id: string, x: Transaction) { x.memberId == Some(id) }
  predicate MemberRowOf(id: string, m: MemberRow) { m.memberId == Some(id) }

  function EngagementOf(vs: seq<Visit>, checkins: seq<Checkin>): Engagement
  {
    Engagement(
      BookingsPerMonth(vs), |vs|,
      if checkins == [] then 0.0 else Ratio(CountIf(checkins, CheckedIn), |checkins|),
      if checkins == [] then 0 else 1)
  }

  function Totals(xs: seq<Transaction>): (r: seq<Option<real>>)
    ensures |r| == |xs| && forall k :: 0 <= k < |xs| ==> r[k] == xs[k].total
  {
    seq(|xs|, k requires 0 <= k < |xs| => xs[k].total)
  }

  /** The spending block: a customer without transactions spends 0, one without a members row has tier 0. */
  function SpendingOf(vs: seq<Visit>, txns: seq<Transaction>, info: seq<MemberRow>): Spending
    requires |vs| > 0
  {
    var total := if txns == [] then 0.0 else Sum(Present(Totals(txns)));
    Spending(
      total,
      if txns == [] then Some(0.0) else MeanPresent(Totals(txns)),
      total / |vs| as real,
      if info == [] then 0 else EncodeMembershipTier(info[0].membership),
      if info == [] then Num(0.0) else info[0].totalPaid,
      if info == [] then 0.0 else ParseDupr(info[0].singles, info[0].doubles))
  }

  function StyleOf(vs: seq<Visit>): BookingStyle
    requires |vs| > 0
  {
    BookingStyle(
      Ratio(CountIf(vs, IsOrganized), |vs|), Ratio(CountIf(vs, IsDropIn), |vs|),
      Ratio(CountIf(vs, IsPaid), |vs|))
  }

  /** The specification of `_extract_member_features`: None for a customer without reservations. */
  function MemberFeatures(t: Tables, id: string): (r: Option<Features>)
    ensures r.None? <==> MemberVisits(t, id) == []
    ensures r.Some? ==> r.value.memberId == id && r.value.engagement.totalBookings == |MemberVisits(t, id)|
  {
    var vs := MemberVisits(t, id);
    if vs == [] then None
    else
      Some(Features(
        id, TemporalOf(vs), SocialOf(vs, PartnerSet(vs, id)), EventsOf(vs),
        EngagementOf(vs, Filter(t.checkins, c => CheckinOf(id, c))),
        SpendingOf(vs, Filter(t.transactions, x => TransactionOf(id, x)), Filter(t.members, m => MemberRowOf(id, m))),
        StyleOf(vs)))
  }

  /** `_extract_member_features`, with its partner loop. */
  method ExtractMemberFeatures(t: Tables, id: string) returns (r: Option<Features>)
    ensures r == MemberFeatures(t, id)
  {
    var vs := MemberVisits(t, id);
    if vs == [] {
      return None;
    }
    var partners := CollectPartners(vs, id);
    r := Some(Features(
      id, TemporalOf(vs), SocialOf(vs, partners), EventsOf(vs),
      EngagementOf(vs, Filter(t.checkins, c => CheckinOf(id, c))),
      SpendingOf(vs, Filter(t.transactions, x => TransactionOf(id, x)), Filter(t.members, m => MemberRowOf(id, m))),
      StyleOf(vs)));
  }

  // ---------------------------------------------------------------- properties

  lemma {:induction false} DayPartsDisjoint(vs: seq<Visit>)
    ensures CountIf(vs, IsMorning) + CountIf(vs, IsAfternoon) + CountIf(vs, IsEvening) <= |vs|
  {
    if vs != [] {
      DayPartsDisjoint(vs[..|vs| - 1]);
    }
  }

  /** The morning, afternoon and evening shares are disjoint and so add up to at most 1. */
  lemma DayShares(vs: seq<Visit>)
    requires |vs| > 0
    ensures var f := TemporalOf(vs);
      0.0 <= f.pctMorning && 0.0 <= f.pctAfternoon && 0.0 <= f.pctEvening &&
      f.pctMorning + f.pctAfternoon + f.pctEvening <= 1.0
  {
    DayPartsDisjoint(vs);
    var n := |vs|;
    var a, b, c := CountIf(vs, IsMorning), CountIf(vs, IsAfternoon), CountIf(vs, IsEvening);
    RatioAdd(a, b, n);
    RatioAdd(a + b, c, n);
  }

  /** Weekday and weekend together count exactly the visits with a parsed timestamp. */
  lemma {:induction false} WeekCoverage(vs: seq<Visit>)
    ensures CountIf(vs, IsWeekday) + CountIf(vs, IsWeekend) <= |vs|
    ensures CountIf(vs, IsWeekday) + CountIf(vs, IsWeekend) == |vs| <==> forall k :: 0 <= k < |vs| ==> vs[k].start.Some?
  {
    if vs != [] {
      var init := vs[..|vs| - 1];
      WeekCoverage(init);
      assert forall k :: 0 <= k < |init| ==> vs[k] == init[k];
    }
  }

  /** Weekday and weekend shares lie in [0, 1] and sum to 1 exactly when every timestamp parsed. */
  lemma WeekShares(vs: seq<Visit>)
    requires |vs| > 0
    ensures var f := TemporalOf(vs);
      0.0 <= f.pctWeekday <= 1.0 && 0.0 <= f.pctWeekend <= 1.0 &&
      (f.pctWeekday + f.pctWeekend == 1.0 <==> forall k :: 0 <= k < |vs| ==> vs[k].start.Some?)
  {
    WeekCoverage(vs);
    var n := |vs|;
    var a, b := CountIf(vs, IsWeekday), CountIf(vs, IsWeekend);
    RatioAdd(a, b, n);
  }

  lemma {:induction false} CountIfImplies<T>(s: seq<T>, p: T -> bool, q: T -> bool)
    requires forall x :: p(x) ==> q(x)
    ensures CountIf(s, p) <= CountIf(s, q)
  {
    if s != [] {
      CountIfImplies(s[..|s| - 1], p, q);
    }
  }

  /** Every rate that counts visits of a kind is a share in [0, 1], and each event kind counts only events. */
  lemma RatesAreShares(vs: seq<Visit>, partners: set<string>)
    requires |vs| > 0
    ensures var s, e, y := SocialOf(vs, partners), EventsOf(vs), StyleOf(vs);
      && 0.0 <= s.soloRate <= 1.0 && 0.0 <= s.guestBookingRate <= 1.0
      && 0.0 <= e.participationRate <= 1.0
      && 0.0 <= y.organizedRate <= 1.0 && 0.0 <= y.dropinRate <= 1.0 && 0.0 <= y.paymentRate <= 1.0
      && e.drills <= e.totalEvents && e.social <= e.totalEvents
      && e.competitive <= e.totalEvents && e.totalEvents <= |vs|
  {
    CountIfImplies(vs, IsDrillEvent, IsEventVisit);
    CountIfImplies(vs, IsSocialEvent, IsEventVisit);
    CountIfImplies(vs, IsCompetitiveEvent, IsEventVisit);
  }

  /** The check-in rate is a share, and 0 exactly when there is no check-in or none says Checked-In. */
  lemma CheckInRateShare(vs: seq<Visit>, checkins: seq<Checkin>)
    ensures 0.0 <= EngagementOf(vs, checkins).checkInRate <= 1.0
    ensures EngagementOf(vs, checkins).checkInRate == 0.0 <==> CountIf(checkins, CheckedIn) == 0
    ensures EngagementOf(vs, checkins).hasCheckinData == 1 <==> checkins != []
  {
  }

  /** The customer's features carry `unique_partners` as the size of the partner set, and
      `partner_variety_rate` as that size per visit. */
  lemma PartnerFeatures(t: Tables, id: string)
    requires MemberFeatures(t, id).Some?
    ensures var f := MemberFeatures(t, id).value;
      var vs := MemberVisits(t, id);
      f.social.uniquePartners == |PartnerSet(vs, id)| &&
      f.social.partnerVarietyRate == |PartnerSet(vs, id)| as real / |vs| as real &&
      id !in PartnerSet(vs, id)
  {
    var vs := MemberVisits(t, id);
    PartnerSetIff(vs, id, id);
  }

  /** A customer whose visits all fall on one calendar day books 30 times a month per visit. */
  lemma SameDayBookingRate(vs: seq<Visit>, day: int)
    requires |vs| > 0
    requires forall k :: 0 <= k < |vs| ==> vs[k].start.Some? && vs[k].start.value / 1440 == day
    ensures BookingsPerMonth(vs) == |vs| as real * 30.0
  {
    var st := Stamps(vs);
    StampsNonEmpty(vs);
    var hi, lo := MaxOf(st), MinOf(st);
    assert hi >= lo by { assert st[0] <= hi && lo <= st[0]; }
    StampsDay(vs, day);
    assert hi / 1440 == day && lo / 1440 == day;
    assert day * 1440 <= lo && hi < day * 1440 + 1440;
    assert (hi - lo) / 1440 == 0;
    assert DateRange(vs) == Some(1);
  }

  lemma {:induction false} StampsDay(vs: seq<Visit>, day: int)
    requires forall k :: 0 <= k < |vs| ==> vs[k].start.Some? && vs[k].start.value / 1440 == day
    ensures forall k :: 0 <= k < |Stamps(vs)| ==> Stamps(vs)[k] / 1440 == day
  {
    if vs != [] {
      var init := vs[..|vs| - 1];
      assert forall k :: 0 <= k < |init| ==> init[k] == vs[k];
      StampsDay(init, day);
    }
  }

  lemma {:induction false} StampsNonEmpty(vs: seq<Visit>)
    requires |vs| > 0 && vs[|vs| - 1].start.Some?
    ensures |Stamps(vs)| > 0
  {
  }

  /** The customers of `engineer_features`: present ids in order of first appearance, without repeats. */
  predicate Listed(vs: seq<Visit>, x: string)
  {
    exists k :: 0 <= k < |vs| && vs[k].playerId == Some(x)
  }

  lemma ListedStep(vs: seq<Visit>)
    requires vs != []
    ensures forall x :: Listed(vs, x) <==> (Listed(vs[..|vs| - 1], x) || vs[|vs| - 1].playerId == Some(x))
  {
    var init := vs[..|vs| - 1];
    assert forall k :: 0 <= k < |init| ==> init[k] == vs[k];
  }

  /** `reservations['Player _#'].dropna().unique()`. */
  function DistinctIds(vs: seq<Visit>): (r: seq<string>)
    ensures forall i, j :: 0 <= i < j < |r| ==> r[i] != r[j]
    ensures forall x :: x in r <==> Listed(vs, x)
  {
    if vs == [] then []
    else
      var init := DistinctIds(vs[..|vs| - 1]);
      var last := vs[|vs| - 1];
      ListedStep(vs);
      if last.playerId.Some? && last.playerId.value !in init then init + [last.playerId.value] else init
  }

  /** Every reservation of `y` is preceded by one of `x`: `x` appears first. */
  predicate SeenBefore(vs: seq<Visit>, x: string, y: string)
  {
    forall kj :: 0 <= kj < |vs| && vs[kj].playerId == Some(y) ==>
      exists ki :: 0 <= ki < kj && vs[ki].playerId == Some(x)
  }

  /** `unique()` keeps the order of first appearance. */
  lemma {:induction false} DistinctIdsOrder(vs: seq<Visit>)
    ensures forall i, j :: 0 <= i < j < |DistinctIds(vs)| ==> SeenBefore(vs, DistinctIds(vs)[i], DistinctIds(vs)[j])
  {
    if vs != [] {
      var n := |vs| - 1;
      var init := vs[..n];
      var ri := DistinctIds(init);
      var r := DistinctIds(vs);
      DistinctIdsOrder(init);
      assert forall a, b :: 0 <= a < b < |ri| ==> SeenBefore(init, ri[a], ri[b]);
      assert forall k :: 0 <= k < n ==> init[k] == vs[k];
      assert r[..|ri|] == ri;
      forall i, j, kj | 0 <= i < j < |r| && 0 <= kj < |vs| && vs[kj].playerId == Some(r[j])
        ensures exists ki :: 0 <= ki < kj && vs[ki].playerId == Some(r[i])
      {
        assert r[i] == ri[i] && ri[i] in ri;
        if j < |ri| {
          assert r[j] == ri[j] && ri[j] in ri;
          var k := kj;
          if kj == n {
            k :| 0 <= k < n && init[k].playerId == Some(ri[j]);
          }
          assert init[k].playerId == Some(ri[j]);
          assert SeenBefore(init, ri[i], ri[j]);
          var ki :| 0 <= ki < k && init[ki].playerId == Some(ri[i]);
          assert vs[ki] == init[ki];
        } else {
          assert r[j] !in ri;
          assert forall k :: 0 <= k < n ==> vs[k].playerId != Some(r[j]);
          var ki :| 0 <= ki < n && init[ki].playerId == Some(ri[i]);
          assert vs[ki] == init[ki];
        }
      }
    }
  }

  /** Every listed customer has a feature row: `_extract_member_features` never returns None there. */
  lemma ListedHasFeatures(t: Tables, id: string)
    requires Listed(t.reservations, id)
    ensures MemberFeatures(t, id).Some?
  {
    var k :| 0 <= k < |t.reservations| && t.reservations[k].playerId == Some(id);
    assert t.reservations[k] in MemberVisits(t, id);
  }
}
