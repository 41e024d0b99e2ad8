/** The weekday daytime ("shadow market") utilisation analysis: time slots are parsed to
    hours, weekday date columns between 9 AM and 4 PM are grouped by (day, hour), the
    averages are ranked, and the empty capacity is turned into a revenue estimate. */
module ShadowMarket {
  import opened Common
  import opened Sorting

  // ---------------------------------------------------------------- time slots

  /** The 24-hour clock hour of a 12-hour clock hour and its period marker. */
  function To24(h: int, period: string): int
  {
    if period == "PM" && h != 12 then h + 12
    else if period == "AM" && h == 12 then 0
    else h
  }

  /** The 12-hour conversion: 12 AM is midnight, 12 PM is noon, other PM hours move by 12,
      other AM hours stay; a clock hour 1..12 lands in 0..23. */
  lemma To24Conversion(h: int, period: string)
    requires 1 <= h <= 12 && (period == "AM" || period == "PM")
    ensures 0 <= To24(h, period) <= 23
    ensures period == "AM" ==> To24(h, period) == (if h == 12 then 0 else h)
    ensures period == "PM" ==> To24(h, period) == (if h == 12 then 12 else h + 12)
    ensures To24(h, period) < 12 <==> period == "AM"
  {
  }

  /** The start time `"H:MM AM"`: exactly one space, the hour before the first colon. */
  function ParseStart(start: string): Option<int>
  {
    match IndexOf(start, " ")
    case None => None
    case Some(k) =>
      var hourText, period := start[..k], start[k + 1..];
      if ' ' in period then None
      else
        match ParseInt(Before(hourText, ":"))
        case None => None
        case Some(h) => Some(To24(h, period))
  }

  /** `parse_time_slot`: the start hour of a slot such as `"9:00 AM - 10:00 AM"`; None for a
      cell that is not text or a start time that does not split into hour and period. */
  function ParseTimeSlot(c: Cell): (r: Option<int>)
    ensures r.Some? ==> c.Text?
  {
    match c
    case Text(s) => ParseStart(Strip(Before(s, " - ")))
    case _ => None
  }

  /** The only space in the start time `hd:mins period` sits right before the period. */
  lemma StartSpace(hd: string, mins: string, period: string)
    requires IsDigits(hd) && AllDigits(mins)
    requires period == "AM" || period == "PM"
    ensures var start := hd + ":" + mins + " " + period;
      |start| == |hd| + |mins| + 4 &&
      forall j :: 0 <= j < |start| && j != |hd| + 1 + |mins| ==> start[j] != ' ' && start[j] != '-'
  {
    var start := hd + ":" + mins + " " + period;
    var p := |hd| + 1 + |mins|;
    forall j | 0 <= j < |start| && j != p
      ensures start[j] != ' ' && start[j] != '-'
    {
      if j < |hd| {
        assert start[j] == hd[j];
      } else if j == |hd| {
        assert start[j] == ':';
      } else if j < p {
        assert start[j] == mins[j - |hd| - 1];
      } else {
        assert start[j] == period[j - p - 1];
      }
    }
  }

  /** The separator `" - "` first occurs right after the start time. */
  lemma SlotSeparator(hd: string, mins: string, period: string, tail: string)
    requires IsDigits(hd) && AllDigits(mins)
    requires period == "AM" || period == "PM"
    ensures Before(hd + ":" + mins + " " + period + " - " + tail, " - ") == hd + ":" + mins + " " + period
  {
    var start := hd + ":" + mins + " " + period;
    var s := start + " - " + tail;
    var p := |hd| + 1 + |mins|;
    StartSpace(hd, mins, period);
    assert s[..|start|] == start;
    assert s[p + 1] == period[0];
    assert s[|start|..|start| + 3] == " - ";
    assert MatchAt(s, " - ", |start|);
    forall j | 0 <= j < |start| ensures !MatchAt(s, " - ", j) {
      if j == p {
        assert s[j + 1] != '-';
        assert s[j..j + 3][1] == s[j + 1];
      } else {
        assert s[j] == start[j];
        assert s[j..j + 3][0] == s[j];
      }
    }
    IndexOfFirst(s, " - ", |start|);
  }

  /** The start time splits at its one space into `hd:mins` and the period. */
  lemma StartSplit(hd: string, mins: string, period: string)
    requires IsDigits(hd) && AllDigits(mins)
    requires period == "AM" || period == "PM"
    ensures IndexOf(hd + ":" + mins + " " + period, " ") == Some(|hd| + 1 + |mins|)
  {
    var start := hd + ":" + mins + " " + period;
    var p := |hd| + 1 + |mins|;
    StartSpace(hd, mins, period);
    assert start[p..p + 1] == " ";
    assert MatchAt(start, " ", p);
    forall j | 0 <= j < p ensures !MatchAt(start, " ", j) {
      assert start[j..j + 1][0] == start[j];
    }
    IndexOfFirst(start, " ", p);
  }

  /** The hour of `hd:mins` is the digit string before the colon. */
  lemma HourBeforeColon(hd: string, mins: string)
    requires IsDigits(hd)
    ensures Before(hd + ":" + mins, ":") == hd
  {
    var hm := hd + ":" + mins;
    assert hm[|hd|..|hd| + 1] == ":";
    assert MatchAt(hm, ":", |hd|);
    forall j | 0 <= j < |hd| ensures !MatchAt(hm, ":", j) {
      assert hm[j..j + 1][0] == hm[j] == hd[j];
    }
    IndexOfFirst(hm, ":", |hd|);
  }

  /** A start time `hd:mins AM` or `hd:mins PM` gives the 24-hour form of `hd`. */
  lemma WellFormedStart(hd: string, mins: string, period: string)
    requires IsDigits(hd) && AllDigits(mins)
    requires period == "AM" || period == "PM"
    ensures ParseStart(hd + ":" + mins + " " + period) == Some(To24(DigitsValue(hd), period))
  {
    var start := hd + ":" + mins + " " + period;
    var p := |hd| + 1 + |mins|;
    StartSplit(hd, mins, period);
    assert start[..p] == hd + ":" + mins;
    assert start[p + 1..] == period;
    assert ' ' !in period;
    HourBeforeColon(hd, mins);
    ParseIntDigits(hd);
  }

  /** A well-formed slot parses to the 24-hour form of its start hour, whatever follows. */
  lemma WellFormedSlot(hd: string, mins: string, period: string, tail: string)
    requires IsDigits(hd) && AllDigits(mins)
    requires period == "AM" || period == "PM"
    ensures ParseTimeSlot(Text(hd + ":" + mins + " " + period + " - " + tail)) == Some(To24(DigitsValue(hd), period))
  {
    var start := hd + ":" + mins + " " + period;
    SlotSeparator(hd, mins, period, tail);
    assert start[0] == hd[0] && start[|start| - 1] == period[1];
    StripNoop(start);
    WellFormedStart(hd, mins, period);
  }

  /** `s.find(" ")` finds a space only where there is one. */
  lemma FoundSpace(s: string)
    ensures IndexOf(s, " ").Some? ==> ' ' in s
  {
    if IndexOf(s, " ").Some? {
      var k := IndexOf(s, " ").value;
      assert s[k..k + 1] == " ";
      assert s[k] == ' ';
    }
  }

  /** A start time without a space cannot be split into hour and period. */
  lemma SlotWithoutPeriod(s: string)
    requires ' ' !in Strip(Before(s, " - "))
    ensures ParseTimeSlot(Text(s)).None?
  {
    FoundSpace(Strip(Before(s, " - ")));
  }

  /** A start time whose hour part has no space splits right after that part. */
  lemma FirstSpaceAt(hd: string, period: string)
    requires ' ' !in hd
    ensures IndexOf(hd + " " + period, " ") == Some(|hd|)
  {
    var start := hd + " " + period;
    assert start[|hd|..|hd| + 1] == " ";
    assert MatchAt(start, " ", |hd|);
    forall j | 0 <= j < |hd| ensures !MatchAt(start, " ", j) {
      assert start[j..j + 1][0] == start[j] == hd[j];
    }
    IndexOfFirst(start, " ", |hd|);
  }

  /** Two or more spaces in the start time: the split into hour and period fails. */
  lemma StartWithExtraSpace(hd: string, period: string)
    requires ' ' !in hd && ' ' in period
    ensures ParseStart(hd + " " + period) == None
  {
    var start := hd + " " + period;
    FirstSpaceAt(hd, period);
    assert start[|hd| + 1..] == period;
  }

  /** An hour text that is not an integer: the conversion fails. */
  lemma UnparsableHour(hd: string, period: string)
    requires ' ' !in hd
    requires ParseInt(Before(hd, ":")).None?
    ensures ParseStart(hd + " " + period) == None
  {
    var start := hd + " " + period;
    FirstSpaceAt(hd, period);
    assert start[..|hd|] == hd;
  }

  /** A slot whose start time has an extra space or an unreadable hour has no start hour. */
  lemma SlotWithMalformedStart(s: string, hd: string, period: string)
    requires Strip(Before(s, " - ")) == hd + " " + period
    requires ' ' !in hd
    requires ' ' in period || ParseInt(Before(hd, ":")).None?
    ensures ParseTimeSlot(Text(s)).None?
  {
    if ' ' in period {
      StartWithExtraSpace(hd, period);
    } else {
      UnparsableHour(hd, period);
    }
  }

  // ---------------------------------------------------------------- the grid

  /** One row of the utilisation export: the time slot and the cells by date column. */
  datatype SlotRow = SlotRow(slot: Cell, cells: map<string, Cell>)

  /** The export: the column headers after the time-slot column, and the rows. */
  datatype Grid = Grid(headers: seq<string>, rows: seq<SlotRow>)

  /** A day of the week, 0 = Monday. */
  type Weekday = d: int | 0 <= d <= 6

  /** The cell of a row in a column (a missing column reads as NaN). */
  function CellAt(row: SlotRow, col: string): Cell
  {
    if col in row.cells then row.cells[col] else Missing
  }

  /** The columns that are dates: every header except the dropped total and the added hour. */
  predicate IsDateColumn(col: string)
  {
    col != "Total" && col != "time_slot" && col != "hour"
  }

  function DateColumns(headers: seq<string>): seq<string>
  {
    Filter(headers, IsDateColumn)
  }

  /** The hour window 9 AM - 4 PM: start hours 9..15 (`between(9, 15)`, false on NaN). */
  predicate InShadowHours(row: SlotRow)
  {
    match ParseTimeSlot(row.slot)
    case None => false
    case Some(h) => 9 <= h <= 15
  }

  function ShadowRows(rows: seq<SlotRow>): seq<SlotRow>
  {
    Filter(rows, InShadowHours)
  }

  /** The parsed start hour of a row (rows outside the window are never asked). */
  function SlotHour(row: SlotRow): int
  {
    match ParseTimeSlot(row.slot)
    case None => 0
    case Some(h) => h
  }

  /** A date column is aggregated when its date parses and falls on Monday..Friday. */
  predicate IsWeekdayColumn(dayOf: string -> Option<Weekday>, col: string)
  {
    dayOf(col).Some? && dayOf(col).value < 5
  }

  // ---------------------------------------------------------------- cell values

  /** A utilisation cell: NaN or empty is 0; text loses its '%' and spaces and is parsed,
      0 when it does not parse; a number is read as it is. */
  function Utilization(c: Cell): real
  {
    match c
    case Missing => 0.0
    case Num(x) => x
    case Text(s) =>
      if s == "" then 0.0
      else
        match ParseReal(Strip(ReplaceAll(ReplaceAll(s, "%", ""), " ", "")))
        case None => 0.0
        case Some(v) => v
  }

  /** A percentage cell `"ip.fp %"` reads as the decimal `ip.fp`. */
  lemma PercentCell(ip: string, fp: string)
    requires IsDigits(ip) && AllDigits(fp)
    ensures Utilization(Text(ip + "." + fp + " %")) == DecimalValue(ip, fp)
  {
    var x := ip + "." + fp;
    assert '%' !in x && ' ' !in x by {
      forall j | 0 <= j < |x| ensures x[j] != '%' && x[j] != ' ' {
        if j < |ip| { assert x[j] == ip[j]; }
        else if j > |ip| { assert x[j] == fp[j - |ip| - 1]; }
      }
    }
    assert x + " %" == (x + [' ']) + ['%'] + [];
    DeleteBetween(x + [' '], [], '%');
    assert x + " " == x + [' '] + [];
    DeleteBetween(x, [], ' ');
    assert x[0] == ip[0] && (x[|x| - 1] == '.' || IsDigit(x[|x| - 1]));
    StripNoop(x);
    ParseRealDecimal(ip, fp);
  }

  /** Text that is not a number counts as 0 utilisation. */
  lemma UnparsableCellIsZero(s: string)
    requires ParseReal(Strip(ReplaceAll(ReplaceAll(s, "%", ""), " ", ""))).None?
    ensures Utilization(Text(s)) == 0.0
  {
  }

  // ---------------------------------------------------------------- observations

  /** (day, hour) */
  type Key = (int, int)

  /** One processed cell: its bucket key and its utilisation. */
  datatype Obs = Obs(key: Key, value: real)

  function ObsOf(row: SlotRow, col: string, day: int): Obs
  {
    Obs((day, SlotHour(row)), Utilization(CellAt(row, col)))
  }

  /** `ObsOf` for one column and day, as a function of the row. */
  function CellObs(col: string, day: int): SlotRow -> Obs
  {
    row => ObsOf(row, col, day)
  }

  /** The observations of a sequence of rows, row by row. */
  function MapObs(rows: seq<SlotRow>, f: SlotRow -> Obs): (r: seq<Obs>)
    ensures |r| == |rows|
  {
    if rows == [] then [] else MapObs(rows[..|rows| - 1], f) + [f(rows[|rows| - 1])]
  }

  /** The cells of one weekday column, row by row. */
  function ColumnObs(rows: seq<SlotRow>, col: string, day: int): (r: seq<Obs>)
    ensures |r| == |rows|
  {
    MapObs(rows, CellObs(col, day))
  }

  /** What one date column contributes: nothing for a weekend or unparseable date. */
  function ColumnPart(rows: seq<SlotRow>, col: string, dayOf: string -> Option<Weekday>): seq<Obs>
  {
    if IsWeekdayColumn(dayOf, col) then ColumnObs(rows, col, dayOf(col).value) else []
  }

  /** Every processed cell, in the order of the nested loops (columns outside, rows inside). */
  function Observations(cols: seq<string>, rows: seq<SlotRow>, dayOf: string -> Option<Weekday>): seq<Obs>
  {
    if cols == [] then []
    else Observations(cols[..|cols| - 1], rows, dayOf) + ColumnPart(rows, cols[|cols| - 1], dayOf)
  }

  function GridObservations(g: Grid, dayOf: string -> Option<Weekday>): seq<Obs>
  {
    Observations(DateColumns(g.headers), ShadowRows(g.rows), dayOf)
  }

  /** `all_values`. */
  function Values(obs: seq<Obs>): (r: seq<real>)
    ensures |r| == |obs|
  {
    if obs == [] then [] else Values(obs[..|obs| - 1]) + [obs[|obs| - 1].value]
  }

  /** The list stored under one key. */
  function Bucket(obs: seq<Obs>, k: Key): seq<real>
  {
    if obs == [] then []
    else Bucket(obs[..|obs| - 1], k) + (if obs[|obs| - 1].key == k then [obs[|obs| - 1].value] else [])
  }

  /** The keys of the dictionary, in insertion order. */
  function Keys(obs: seq<Obs>): seq<Key>
  {
    if obs == [] then []
    else
      var ks := Keys(obs[..|obs| - 1]);
      ks + (if obs[|obs| - 1].key in ks then [] else [obs[|obs| - 1].key])
  }

  /** The keys are distinct, and a key is stored exactly when its list is non-empty. */
  lemma {:induction false} KeysExact(obs: seq<Obs>)
    ensures forall i, j :: 0 <= i < j < |Keys(obs)| ==> Keys(obs)[i] != Keys(obs)[j]
    ensures forall k :: k in Keys(obs) <==> |Bucket(obs, k)| > 0
  {
    if obs != [] {
      KeysExact(obs[..|obs| - 1]);
    }
  }

  /** Every stored key names a weekday and an hour of the window. */
  lemma {:induction false} KeysInWindow(cols: seq<string>, rows: seq<SlotRow>, dayOf: string -> Option<Weekday>)
    requires forall i :: 0 <= i < |rows| ==> InShadowHours(rows[i])
    ensures forall k :: k in Keys(Observations(cols, rows, dayOf)) ==> 0 <= k.0 <= 4 && 9 <= k.1 <= 15
  {
    if cols != [] {
      var init := cols[..|cols| - 1];
      KeysInWindow(init, rows, dayOf);
      var col := cols[|cols| - 1];
      var a, b := Observations(init, rows, dayOf), ColumnPart(rows, col, dayOf);
      assert Observations(cols, rows, dayOf) == a + b;
      ObsWindow(rows, col, dayOf);
      KeysAppend(a, b);
    }
  }

  lemma ObsWindow(rows: seq<SlotRow>, col: string, dayOf: string -> Option<Weekday>)
    requires forall i :: 0 <= i < |rows| ==> InShadowHours(rows[i])
    ensures forall i :: 0 <= i < |ColumnPart(rows, col, dayOf)| ==>
      var k := ColumnPart(rows, col, dayOf)[i].key; 0 <= k.0 <= 4 && 9 <= k.1 <= 15
  {
    if IsWeekdayColumn(dayOf, col) {
      ColumnWindow(rows, col, dayOf(col).value);
    }
  }

  lemma ColumnWindow(rows: seq<SlotRow>, col: string, day: int)
    requires 0 <= day <= 4
    requires forall i :: 0 <= i < |rows| ==> InShadowHours(rows[i])
    ensures forall i :: 0 <= i < |rows| ==> var k := ColumnObs(rows, col, day)[i].key; 0 <= k.0 <= 4 && 9 <= k.1 <= 15
  {
    MapObsAt(rows, CellObs(col, day));
    forall i | 0 <= i < |rows| ensures 9 <= SlotHour(rows[i]) <= 15 {
      ShadowHour(rows[i]);
    }
  }

  lemma ShadowHour(row: SlotRow)
    requires InShadowHours(row)
    ensures 9 <= SlotHour(row) <= 15
  {
  }

  lemma {:induction false} MapObsAt(rows: seq<SlotRow>, f: SlotRow -> Obs)
    ensures forall i :: 0 <= i < |rows| ==> MapObs(rows, f)[i] == f(rows[i])
  {
    if rows != [] {
      MapObsAt(rows[..|rows| - 1], f);
    }
  }

  /** The keys of a concatenation come from its parts. */
  lemma {:induction false} KeysAppend(a: seq<Obs>, b: seq<Obs>)
    ensures forall k :: k in Keys(a + b) ==> k in Keys(a) || exists i :: 0 <= i < |b| && b[i].key == k
    decreases |b|
  {
    if b == [] {
      assert a + b == a;
    } else {
      var b' := b[..|b| - 1];
      assert (a + b)[..|a + b| - 1] == a + b';
      KeysAppend(a, b');
      forall k | k in Keys(a + b) ensures k in Keys(a) || exists i :: 0 <= i < |b| && b[i].key == k {
        if k !in Keys(a + b') {
          assert b[|b| - 1].key == k;
        } else if k !in Keys(a) {
          var i :| 0 <= i < |b'| && b'[i].key == k;
          assert b[i].key == k;
        }
      }
    }
  }

  /** Each weekday column contributes one cell per row of the window. */
  function WeekdayColumns(cols: seq<string>, dayOf: string -> Option<Weekday>): nat
  {
    if cols == [] then 0
    else WeekdayColumns(cols[..|cols| - 1], dayOf) + (if IsWeekdayColumn(dayOf, cols[|cols| - 1]) then 1 else 0)
  }

  lemma ColumnPartSize(rows: seq<SlotRow>, col: string, dayOf: string -> Option<Weekday>)
    ensures |ColumnPart(rows, col, dayOf)| == if IsWeekdayColumn(dayOf, col) then |rows| else 0
  {
  }

  lemma {:induction false} ObservationsEmpty(cols: seq<string>, rows: seq<SlotRow>, dayOf: string -> Option<Weekday>)
    ensures Observations(cols, rows, dayOf) == [] <==> WeekdayColumns(cols, dayOf) == 0 || rows == []
  {
    if cols != [] {
      var init := cols[..|cols| - 1];
      ObservationsEmpty(init, rows, dayOf);
      ColumnPartSize(rows, cols[|cols| - 1], dayOf);
    }
  }

  /** The dictionary's lists partition `all_values`: their lengths add up to its length. */
  function BucketSizes(obs: seq<Obs>, ks: seq<Key>): nat
  {
    if ks == [] then 0 else BucketSizes(obs, ks[..|ks| - 1]) + |Bucket(obs, ks[|ks| - 1])|
  }

  lemma {:induction false} BucketSizesStep(obs: seq<Obs>, o: Obs, ks: seq<Key>)
    requires forall i, j :: 0 <= i < j < |ks| ==> ks[i] != ks[j]
    ensures BucketSizes(obs + [o], ks) == BucketSizes(obs, ks) + (if o.key in ks then 1 else 0)
  {
    assert (obs + [o])[..|obs|] == obs;
    if ks != [] {
      var init := ks[..|ks| - 1];
      BucketSizesStep(obs, o, init);
      assert o.key in ks <==> o.key in init || o.key == ks[|ks| - 1];
    }
  }

  lemma {:induction false} BucketsPartition(obs: seq<Obs>)
    ensures BucketSizes(obs, Keys(obs)) == |Values(obs)|
  {
    if obs != [] {
      var init := obs[..|obs| - 1];
      var o := obs[|obs| - 1];
      assert obs == init + [o];
      BucketsPartition(init);
      KeysExact(init);
      var ks := Keys(init);
      BucketSizesStep(init, o, ks);
      if o.key !in ks {
        var ks' := ks + [o.key];
        assert Keys(obs) == ks';
        assert ks'[..|ks|] == ks;
        NoBucketOutside(init, o.key);
        assert Bucket(obs, o.key) == [o.value];
        assert BucketSizes(obs, ks') == BucketSizes(obs, ks) + 1;
      } else {
        assert Keys(obs) == ks;
      }
    }
  }

  lemma NoBucketOutside(obs: seq<Obs>, k: Key)
    requires k !in Keys(obs)
    ensures Bucket(obs, k) == []
  {
    KeysExact(obs);
  }

  // ---------------------------------------------------------------- averages and ranking

  /** One entry of `avg_utilization_by_day_hour`. */
  datatype Window = Window(key: Key, avg: real)

  function AvgOf(w: Window): real { w.avg }

  /** The average of every stored key, in insertion order. */
  function Averages(obs: seq<Obs>): (r: seq<Window>)
    ensures |r| == |Keys(obs)|
    ensures forall i :: 0 <= i < |r| ==> r[i].key == Keys(obs)[i] && |Bucket(obs, r[i].key)| > 0
  {
    KeysExact(obs);
    var ks := Keys(obs);
    seq(|ks|, i requires 0 <= i < |ks| => Window(ks[i], Mean(Bucket(obs, ks[i]))))
  }

  /** `sorted(..., key=avg)[:10]`. */
  function Lowest(ws: seq<Window>): seq<Window>
  {
    var sorted := SortBy(ws, AvgOf);
    sorted[..if |sorted| < 10 then |sorted| else 10]
  }

  /** The ranking keeps at most ten windows, ascending, all taken from the averages, and no
      window left out is quieter than one kept. */
  lemma LowestWindows(ws: seq<Window>)
    ensures |Lowest(ws)| == if |ws| < 10 then |ws| else 10
    ensures SortedBy(Lowest(ws), AvgOf)
    ensures forall i :: 0 <= i < |Lowest(ws)| ==> Lowest(ws)[i] in ws
    ensures forall w :: w in ws && w !in Lowest(ws) ==>
      forall i :: 0 <= i < |Lowest(ws)| ==> Lowest(ws)[i].avg <= w.avg
  {
    var n := if |ws| < 10 then |ws| else 10;
    assert Lowest(ws) == SortBy(ws, AvgOf)[..n];
    SortedPrefix(ws, AvgOf, n);
    forall w | w in ws && w !in SortBy(ws, AvgOf)[..n]
      ensures forall i :: 0 <= i < n ==> AvgOf(SortBy(ws, AvgOf)[i]) <= AvgOf(w)
    {
      SortedPrefixSmallest(ws, AvgOf, n, w);
    }
  }

  /** When every cell lies within bounds, so does every average. */
  lemma AveragesBounded(obs: seq<Obs>, lo: real, hi: real)
    requires forall i :: 0 <= i < |obs| ==> lo <= obs[i].value <= hi
    ensures forall i :: 0 <= i < |Averages(obs)| ==> lo <= Averages(obs)[i].avg <= hi
  {
    var ws := Averages(obs);
    forall i | 0 <= i < |ws| ensures lo <= ws[i].avg <= hi {
      var k := ws[i].key;
      BucketBounded(obs, k, lo, hi);
      MeanBounds(Bucket(obs, k), lo, hi);
    }
  }

  lemma {:induction false} BucketBounded(obs: seq<Obs>, k: Key, lo: real, hi: real)
    requires forall i :: 0 <= i < |obs| ==> lo <= obs[i].value <= hi
    ensures forall i :: 0 <= i < |Bucket(obs, k)| ==> lo <= Bucket(obs, k)[i] <= hi
  {
    if obs != [] {
      BucketBounded(obs[..|obs| - 1], k, lo, hi);
    }
  }

  // ---------------------------------------------------------------- capacity

  /** 7 courts x 7 hours x 5 weekdays. */
  const WeeklyCapacity: real := 245.0
  const FillShare: real := 0.3
  const RevenuePerCourtHour: real := 30.0
  const WeeksPerYear: real := 52.0

  datatype Capacity = Capacity(emptyCourtHours: real, fillable: real, weekly: real, annual: real)

  function CapacityFor(overallAvg: real): Capacity
  {
    var empty := WeeklyCapacity * ((100.0 - overallAvg) / 100.0);
    var fillable := empty * FillShare;
    var weekly := fillable * RevenuePerCourtHour;
    Capacity(empty, fillable, weekly, weekly * WeeksPerYear)
  }

  /** The annual opportunity is 1146.6 per point of empty utilisation; a utilisation within
      0..100 leaves between 0 and 245 empty court-hours, and a quieter club is worth more. */
  lemma CapacityArithmetic(avg: real, other: real)
    ensures CapacityFor(avg).annual == (100.0 - avg) * 1146.6
    ensures CapacityFor(avg).fillable == CapacityFor(avg).emptyCourtHours * 0.3
    ensures 0.0 <= avg <= 100.0 ==> 0.0 <= CapacityFor(avg).emptyCourtHours <= 245.0
    ensures avg <= other ==> CapacityFor(other).annual <= CapacityFor(avg).annual
  {
  }

  // ---------------------------------------------------------------- the analysis

  datatype ShadowResult = ShadowResult(
    averages: seq<Window>,
    lowest: seq<Window>,
    overallAvg: Option<real>,
    capacity: Option<Capacity>)

  /** `analyze_shadow_market` (without the median). The mean of no values is NaN, which the
      capacity figures inherit: both are None then. */
  function Analysis(g: Grid, dayOf: string -> Option<Weekday>): (r: ShadowResult)
    ensures r.overallAvg.None? <==> GridObservations(g, dayOf) == []
    ensures r.capacity.None? <==> r.overallAvg.None?
  {
    var obs := GridObservations(g, dayOf);
    var ws := Averages(obs);
    var overall := if obs == [] then None else Some(Mean(Values(obs)));
    ShadowResult(ws, Lowest(ws), overall,
      if overall.None? then None else Some(CapacityFor(overall.value)))
  }

  /** Every averaged window is a weekday hour of 9 AM - 4 PM, and the windows are distinct. */
  lemma AnalysisWindows(g: Grid, dayOf: string -> Option<Weekday>)
    ensures var ws := Analysis(g, dayOf).averages;
      (forall i :: 0 <= i < |ws| ==> 0 <= ws[i].key.0 <= 4 && 9 <= ws[i].key.1 <= 15) &&
      (forall i, j :: 0 <= i < j < |ws| ==> ws[i].key != ws[j].key)
  {
    var rows := ShadowRows(g.rows);
    KeysInWindow(DateColumns(g.headers), rows, dayOf);
    KeysExact(GridObservations(g, dayOf));
  }

  /** There is no observation, hence no average, exactly when no weekday column or no
      slot of the window exists. */
  lemma NoObservations(g: Grid, dayOf: string -> Option<Weekday>)
    ensures GridObservations(g, dayOf) == [] <==>
      WeekdayColumns(DateColumns(g.headers), dayOf) == 0 || ShadowRows(g.rows) == []
  {
    ObservationsEmpty(DateColumns(g.headers), ShadowRows(g.rows), dayOf);
  }

  // ---------------------------------------------------------------- the loops

  /** The dictionary of lists and `all_values` hold exactly what the observations so far say. */
  ghost predicate Represents(keys: seq<Key>, buckets: map<Key, seq<real>>, all: seq<real>, seen: seq<Obs>)
  {
    && keys == Keys(seen)
    && all == Values(seen)
    && (forall k :: k in buckets <==> k in keys)
    && (forall k :: k in buckets ==> buckets[k] == Bucket(seen, k))
  }

  /** Storing one cell under its key. */
  method Record(keys: seq<Key>, buckets: map<Key, seq<real>>, all: seq<real>, ghost seen: seq<Obs>, o: Obs)
    returns (keys': seq<Key>, buckets': map<Key, seq<real>>, all': seq<real>)
    requires Represents(keys, buckets, all, seen)
    ensures Represents(keys', buckets', all', seen + [o])
  {
    ObsStep(seen, o);
    var stored := if o.key in buckets then buckets[o.key] else [];
    if o.key !in buckets {
      keys' := keys + [o.key];
      NoBucketOutside(seen, o.key);
    } else {
      keys' := keys;
    }
    buckets' := buckets[o.key := stored + [o.value]];
    all' := all + [o.value];
  }

  /** What one more observation does to the keys, the lists and `all_values`. */
  lemma ObsStep(seen: seq<Obs>, o: Obs)
    ensures Keys(seen + [o]) == Keys(seen) + (if o.key in Keys(seen) then [] else [o.key])
    ensures Values(seen + [o]) == Values(seen) + [o.value]
    ensures forall k :: Bucket(seen + [o], k) == Bucket(seen, k) + (if o.key == k then [o.value] else [])
  {
    assert (seen + [o])[..|seen|] == seen;
  }

  /** The inner loop over the rows of the window for one weekday column; `cell` parses the
      column's cell of a row into its observation. */
  method AccumulateColumn(keys: seq<Key>, buckets: map<Key, seq<real>>, all: seq<real>, ghost seen: seq<Obs>,
                          rows: seq<SlotRow>, cell: SlotRow -> Obs)
    returns (keys': seq<Key>, buckets': map<Key, seq<real>>, all': seq<real>)
    requires Represents(keys, buckets, all, seen)
    ensures Represents(keys', buckets', all', seen + MapObs(rows, cell))
  {
    keys', buckets', all' := keys, buckets, all;
    ghost var cur := seen;
    var r := 0;
    while r < |rows|
      invariant 0 <= r <= |rows|
      invariant cur == seen + MapObs(rows[..r], cell)
      invariant Represents(keys', buckets', all', cur)
    {
      var o := cell(rows[r]);
      ghost var next := cur + [o];
      keys', buckets', all' := Record(keys', buckets', all', cur, o);
      cur := next;
      assert rows[..r + 1][..r] == rows[..r];
      r := r + 1;
    }
    assert rows[..r] == rows;
  }

  /** One more date column adds its cells, or nothing when it is not a weekday. */
  lemma ObservationsStep(cols: seq<string>, c: nat, rows: seq<SlotRow>, dayOf: string -> Option<Weekday>)
    requires c < |cols|
    ensures var day := dayOf(cols[c]);
      Observations(cols[..c + 1], rows, dayOf) ==
        Observations(cols[..c], rows, dayOf) +
        (if day.Some? && day.value < 5 then MapObs(rows, CellObs(cols[c], day.value)) else [])
  {
    assert cols[..c + 1][..c] == cols[..c];
  }

  /** The nested loops of `analyze_shadow_market` filling the dictionary and `all_values`. */
  method Accumulate(cols: seq<string>, rows: seq<SlotRow>, dayOf: string -> Option<Weekday>)
    returns (keys: seq<Key>, buckets: map<Key, seq<real>>, all: seq<real>)
    ensures Represents(keys, buckets, all, Observations(cols, rows, dayOf))
  {
    keys, buckets, all := [], map[], [];
    ghost var seen: seq<Obs> := [];
    var c := 0;
    while c < |cols|
      invariant 0 <= c <= |cols|
      invariant seen == Observations(cols[..c], rows, dayOf)
      invariant Represents(keys, buckets, all, seen)
    {
      var col := cols[c];
      ObservationsStep(cols, c, rows, dayOf);
      var day := dayOf(col);
      if day.Some? && day.value < 5 {
        keys, buckets, all := AccumulateColumn(keys, buckets, all, seen, rows, CellObs(col, day.value));
        seen := seen + MapObs(rows, CellObs(col, day.value));
      } else {
        assert seen + [] == seen;
      }
      c := c + 1;
    }
    assert cols[..c] == cols;
  }

  /** The loop computing `avg_utilization_by_day_hour`. */
  method AverageBuckets(keys: seq<Key>, buckets: map<Key, seq<real>>) returns (ws: seq<Window>)
    requires forall i :: 0 <= i < |keys| ==> keys[i] in buckets && |buckets[keys[i]]| > 0
    ensures |ws| == |keys|
    ensures forall i :: 0 <= i < |ws| ==> ws[i] == Window(keys[i], Mean(buckets[keys[i]]))
  {
    ws := [];
    var i := 0;
    while i < |keys|
      invariant 0 <= i <= |keys| && |ws| == i
      invariant forall j :: 0 <= j < i ==> ws[j] == Window(keys[j], Mean(buckets[keys[j]]))
    {
      ws := ws + [Window(keys[i], Mean(buckets[keys[i]]))];
      i := i + 1;
    }
  }

  /** `analyze_shadow_market`, loop by loop. */
  method AnalyzeShadowMarket(g: Grid, dayOf: string -> Option<Weekday>) returns (r: ShadowResult)
    ensures r == Analysis(g, dayOf)
  {
    var rows := ShadowRows(g.rows);
    var keys, buckets, all := Accumulate(DateColumns(g.headers), rows, dayOf);
    ghost var obs := GridObservations(g, dayOf);
    KeysExact(obs);
    var ws := AverageBuckets(keys, buckets);
    assert ws == Averages(obs);
    var overall: Option<real> := None;
    if |all| > 0 {
      overall := Some(Mean(all));
    }
    var capacity: Option<Capacity> := None;
    if overall.Some? {
      capacity := Some(CapacityFor(overall.value));
    }
    r := ShadowResult(ws, Lowest(ws), overall, capacity);
  }
}
