/** Context-switch detection: a customer's visits are split into morning against evening
    and weekday against weekend, each side is summarised, and an axis is reported when
    the two summaries diverge. */
module ContextSwitch {
  import opened Common
  import opened Features

  /** `_summarize_context_pattern`'s record; `avgPartySize` is None where pandas yields NaN. */
  datatype ContextPattern = ContextPattern(
    nBookings: nat,
    avgPartySize: Option<real>,
    hasGuests: bool,
    nUniquePartners: nat,
    eventRate: real)

  /** One divergent axis of a customer. */
  datatype ContextEvidence = ContextEvidence(
    dimension: string,
    contextA: string,
    contextB: string,
    patternA: ContextPattern,
    patternB: ContextPattern)

  /** An entry of the switcher list; the name is the first reservation's `Player Name`. */
  datatype Switcher = Switcher(
    memberId: string,
    memberName: Option<string>,
    totalBookings: nat,
    contexts: seq<ContextEvidence>)

  function Abs(x: real): (r: real)
    ensures r >= 0.0 && (r == x || r == -x)
  {
    if x < 0.0 then -x else x
  }

  /** The specification of `_summarize_context_pattern` on one side's bookings. */
  function Summary(bookings: seq<Visit>, id: string): (p: ContextPattern)
    ensures p.nBookings == |bookings|
    ensures p.nUniquePartners == |PartnerSet(bookings, id)|
    ensures p.hasGuests <==> exists k :: 0 <= k < |bookings| && bookings[k].guestsListed
    ensures 0.0 <= p.eventRate <= 1.0
  {
    CountIfPositive(bookings, HasGuests);
    ContextPattern(
      |bookings|,
      MeanPresent(PartySizes(bookings)),
      CountIf(bookings, HasGuests) > 0,
      |PartnerSet(bookings, id)|,
      if |bookings| > 0 then Ratio(CountIf(bookings, IsEventVisit), |bookings|) else 0.0)
  }

  /** A count is positive exactly when some element satisfies the condition. */
  lemma {:induction false} CountIfPositive<T>(s: seq<T>, p: T -> bool)
    ensures CountIf(s, p) > 0 <==> exists k :: 0 <= k < |s| && p(s[k])
  {
    if s != [] {
      var init := s[..|s| - 1];
      CountIfPositive(init, p);
      assert forall k :: 0 <= k < |init| ==> init[k] == s[k];
    }
  }

  /** `_summarize_context_pattern`, with its partner loop. */
  method SummarizeContextPattern(bookings: seq<Visit>, id: string) returns (p: ContextPattern)
    ensures p == Summary(bookings, id)
  {
    var partners := CollectPartners(bookings, id);
    p := ContextPattern(
      |bookings|,
      MeanPresent(PartySizes(bookings)),
      CountIf(bookings, HasGuests) > 0,
      |partners|,
      if |bookings| > 0 then Ratio(CountIf(bookings, IsEventVisit), |bookings|) else 0.0);
  }

  /** `_patterns_differ`: three comparisons, each returning early. A NaN party size makes
      its comparison false. */
  function PatternsDiffer(a: ContextPattern, b: ContextPattern, threshold: real): bool
  {
    if a.avgPartySize.Some? && b.avgPartySize.Some? &&
       Abs(a.avgPartySize.value - b.avgPartySize.value) > 1.0 then true
    else if Abs(a.nUniquePartners as real - b.nUniquePartners as real) > 3.0 then true
    else if Abs(a.eventRate - b.eventRate) > threshold then true
    else false
  }

  /** The default threshold of `_patterns_differ`. */
  const EventThreshold: real := 0.3

  /** Two patterns differ exactly when one of the three gaps exceeds its bound. */
  lemma PatternsDifferIff(a: ContextPattern, b: ContextPattern, threshold: real)
    ensures PatternsDiffer(a, b, threshold) <==>
      (a.avgPartySize.Some? && b.avgPartySize.Some? &&
        (a.avgPartySize.value > b.avgPartySize.value + 1.0 || b.avgPartySize.value > a.avgPartySize.value + 1.0))
      || a.nUniquePartners > b.nUniquePartners + 3 || b.nUniquePartners > a.nUniquePartners + 3
      || a.eventRate > b.eventRate + threshold || b.eventRate > a.eventRate + threshold
  {
  }

  /** The divergence test does not depend on which side is called A. */
  lemma PatternsDifferSymmetric(a: ContextPattern, b: ContextPattern, threshold: real)
    ensures PatternsDiffer(a, b, threshold) == PatternsDiffer(b, a, threshold)
  {
    PatternsDifferIff(a, b, threshold);
    PatternsDifferIff(b, a, threshold);
  }

  /** A pattern never differs from itself under a non-negative threshold. */
  lemma PatternsDifferIrreflexive(a: ContextPattern, threshold: real)
    requires threshold >= 0.0
    ensures !PatternsDiffer(a, a, threshold)
  {
  }

  /** `~dayofweek.between(0, 4)`: the weekend side also takes the visits whose timestamp is NaT. */
  predicate NotWeekday(v: Visit) { !IsWeekday(v) }

  /** One axis qualifies when both sides have at least two visits and their summaries differ. */
  predicate AxisDiffers(sideA: seq<Visit>, sideB: seq<Visit>, id: string)
  {
    |sideA| >= 2 && |sideB| >= 2 && PatternsDiffer(Summary(sideA, id), Summary(sideB, id), EventThreshold)
  }

  function Evidence(dimension: string, a: string, b: string, sideA: seq<Visit>, sideB: seq<Visit>, id: string): ContextEvidence
  {
    ContextEvidence(dimension, a, b, Summary(sideA, id), Summary(sideB, id))
  }

  /** The evidence one axis contributes: a single entry when it diverges, none otherwise. */
  function AxisContext(dimension: string, a: string, b: string, sideA: seq<Visit>, sideB: seq<Visit>, id: string): (r: seq<ContextEvidence>)
    ensures |r| <= 1
    ensures |r| == 1 <==> AxisDiffers(sideA, sideB, id)
  {
    if AxisDiffers(sideA, sideB, id) then [Evidence(dimension, a, b, sideA, sideB, id)] else []
  }

  /** The qualifying axes of a customer's visits: time of day first, then day of week. */
  function Contexts(vs: seq<Visit>, id: string): (r: seq<ContextEvidence>)
    ensures |r| <= 2
  {
    AxisContext("time_of_day", "morning", "evening", Filter(vs, IsMorning), Filter(vs, IsEvening), id) +
    AxisContext("day_of_week", "weekday", "weekend", Filter(vs, IsWeekday), Filter(vs, NotWeekday), id)
  }

  /** The entry `identify_context_switchers` emits for one customer, if any. */
  function SwitcherFor(t: Tables, id: string, minBookings: int): (s: Option<Switcher>)
    ensures s.Some? ==> s.value.memberId == id
  {
    var vs := MemberVisits(t, id);
    if |vs| < minBookings then None
    else
      var contexts := Contexts(vs, id);
      if contexts == [] then None
      else Some(Switcher(id, vs[0].playerName, |vs|, contexts))
  }

  /** A customer is emitted exactly when they have enough visits and one axis diverges;
      the entry then lists the diverging axes in the order time of day, day of week. */
  lemma SwitcherEmission(t: Tables, id: string, minBookings: int)
    ensures var vs := MemberVisits(t, id);
      var timeAxis := AxisDiffers(Filter(vs, IsMorning), Filter(vs, IsEvening), id);
      var dayAxis := AxisDiffers(Filter(vs, IsWeekday), Filter(vs, NotWeekday), id);
      var s := SwitcherFor(t, id, minBookings);
      && (s.Some? <==> |vs| >= minBookings && (timeAxis || dayAxis))
      && (s.Some? ==>
        && s.value.memberId == id && s.value.totalBookings == |vs| && |vs| >= minBookings
        && s.value.contexts == Contexts(vs, id))
  {
  }

  /** The axes are listed time of day first, and both sides of a listed axis hold at least two
      visits whose summaries differ. */
  lemma ContextsOrder(vs: seq<Visit>, id: string)
    ensures var timeAxis := AxisDiffers(Filter(vs, IsMorning), Filter(vs, IsEvening), id);
      var dayAxis := AxisDiffers(Filter(vs, IsWeekday), Filter(vs, NotWeekday), id);
      var r := Contexts(vs, id);
      && |r| == (if timeAxis then 1 else 0) + (if dayAxis then 1 else 0)
      && (timeAxis ==> r[0].dimension == "time_of_day")
      && (dayAxis ==> r[|r| - 1].dimension == "day_of_week")
      && (timeAxis || dayAxis ==> |vs| >= 2)
  {
    var morning := Filter(vs, IsMorning);
    var weekday := Filter(vs, IsWeekday);
    var ta := AxisContext("time_of_day", "morning", "evening", morning, Filter(vs, IsEvening), id);
    var da := AxisContext("day_of_week", "weekday", "weekend", weekday, Filter(vs, NotWeekday), id);
    assert Contexts(vs, id) == ta + da;
    if |morning| >= 2 {
      CountIfLe(vs, IsMorning);
    }
    if |weekday| >= 2 {
      CountIfLe(vs, IsWeekday);
    }
  }

  lemma CountIfLe<T>(s: seq<T>, p: T -> bool)
    ensures |Filter(s, p)| <= |s|
  {
  }

  /** The evidence of an axis records summaries of exactly the two sides it compares. */
  lemma EvidenceSides(vs: seq<Visit>, id: string, k: nat)
    requires k < |Contexts(vs, id)|
    ensures var e := Contexts(vs, id)[k];
      e.patternA.nBookings >= 2 && e.patternB.nBookings >= 2 &&
      PatternsDiffer(e.patternA, e.patternB, EventThreshold)
  {
    var byTime := AxisContext("time_of_day", "morning", "evening", Filter(vs, IsMorning), Filter(vs, IsEvening), id);
    var byDay := AxisContext("day_of_week", "weekday", "weekend", Filter(vs, IsWeekday), Filter(vs, NotWeekday), id);
    assert Contexts(vs, id) == byTime + byDay;
    if k < |byTime| {
      AxisEvidence("time_of_day", "morning", "evening", Filter(vs, IsMorning), Filter(vs, IsEvening), id);
      assert Contexts(vs, id)[k] == byTime[k];
    } else {
      AxisEvidence("day_of_week", "weekday", "weekend", Filter(vs, IsWeekday), Filter(vs, NotWeekday), id);
      assert Contexts(vs, id)[k] == byDay[k - |byTime|];
    }
  }

  lemma AxisEvidence(dimension: string, a: string, b: string, sideA: seq<Visit>, sideB: seq<Visit>, id: string)
    ensures forall e :: e in AxisContext(dimension, a, b, sideA, sideB, id) ==>
      e.patternA.nBookings >= 2 && e.patternB.nBookings >= 2 &&
      PatternsDiffer(e.patternA, e.patternB, EventThreshold)
  {
  }

  /** The switcher list over the active customers, in their order. */
  function Switchers(t: Tables, ids: seq<string>, minBookings: int): seq<Switcher>
  {
    Emitted(ids, SwitcherOf(t, minBookings))
  }

  /** `SwitcherFor` as a function value. */
  function SwitcherOf(t: Tables, minBookings: int): string -> Option<Switcher>
  {
    id => SwitcherFor(t, id, minBookings)
  }

  /** The entries an emission function yields over a sequence of ids, in order. */
  function Emitted(ids: seq<string>, f: string -> Option<Switcher>): seq<Switcher>
  {
    if ids == [] then []
    else
      var s := f(ids[|ids| - 1]);
      Emitted(ids[..|ids| - 1], f) + (if s.Some? then [s.value] else [])
  }

  /** The ids an emission function yields an entry for. */
  function Emits(f: string -> Option<Switcher>): string -> bool
  {
    id => f(id).Some?
  }

  /** The emission test as a condition on ids. */
  function Qualifies(t: Tables, minBookings: int): string -> bool
  {
    Emits(SwitcherOf(t, minBookings))
  }

  function SwitcherIds(sws: seq<Switcher>): (r: seq<string>)
    ensures |r| == |sws| && forall k :: 0 <= k < |sws| ==> r[k] == sws[k].memberId
  {
    seq(|sws|, k requires 0 <= k < |sws| => sws[k].memberId)
  }

  /** The listed members are exactly the qualifying active members, in input order. */
  lemma SwitchersAreQualifyingIds(t: Tables, ids: seq<string>, minBookings: int)
    ensures SwitcherIds(Switchers(t, ids, minBookings)) == Filter(ids, Qualifies(t, minBookings))
  {
    var f := SwitcherOf(t, minBookings);
    forall id | f(id).Some? ensures f(id).value.memberId == id {
    }
    EmittedIds(ids, f);
  }

  /** An emission function whose entries carry their own id lists exactly the ids it emits for. */
  lemma {:induction false} EmittedIds(ids: seq<string>, f: string -> Option<Switcher>)
    requires forall id :: f(id).Some? ==> f(id).value.memberId == id
    ensures SwitcherIds(Emitted(ids, f)) == Filter(ids, Emits(f))
  {
    if ids != [] {
      var q := Emits(f);
      var init, last := ids[..|ids| - 1], ids[|ids| - 1];
      var s := f(last);
      var rest := Emitted(init, f);
      var tail := if s.Some? then [s.value] else [];
      var lastIds := if q(last) then [last] else [];
      assert Emitted(ids, f) == rest + tail;
      assert SwitcherIds(rest + tail) == SwitcherIds(rest) + SwitcherIds(tail);
      assert SwitcherIds(tail) == lastIds;
      assert Filter(ids, q) == Filter(init, q) + lastIds;
      EmittedIds(init, f);
    }
  }

  /** One axis of `identify_context_switchers`: summarise both sides when each has two visits. */
  method CompareAxis(dimension: string, a: string, b: string, sideA: seq<Visit>, sideB: seq<Visit>, id: string)
    returns (r: seq<ContextEvidence>)
    ensures r == AxisContext(dimension, a, b, sideA, sideB, id)
  {
    r := [];
    if |sideA| >= 2 && |sideB| >= 2 {
      var pa := SummarizeContextPattern(sideA, id);
      var pb := SummarizeContextPattern(sideB, id);
      if PatternsDiffer(pa, pb, EventThreshold) {
        r := [ContextEvidence(dimension, a, b, pa, pb)];
      }
    }
  }

  /** The per-customer step of `identify_context_switchers`. */
  method DetectSwitcher(t: Tables, id: string, minBookings: int) returns (s: Option<Switcher>)
    ensures s == SwitcherFor(t, id, minBookings)
  {
    var vs := MemberVisits(t, id);
    if |vs| < minBookings {
      return None;
    }
    var byTime := CompareAxis("time_of_day", "morning", "evening", Filter(vs, IsMorning), Filter(vs, IsEvening), id);
    var byDay := CompareAxis("day_of_week", "weekday", "weekend", Filter(vs, IsWeekday), Filter(vs, NotWeekday), id);
    var contexts := byTime + byDay;
    if contexts == [] {
      return None;
    }
    s := Some(Switcher(id, vs[0].playerName, |vs|, contexts));
  }

  /** The loop of `identify_context_switchers` over the active customers. */
  method DetectSwitchers(t: Tables, ids: seq<string>, minBookings: int) returns (found: seq<Switcher>)
    ensures found == Switchers(t, ids, minBookings)
  {
    found := [];
    var i := 0;
    while i < |ids|
      invariant 0 <= i <= |ids|
      invariant found == Switchers(t, ids[..i], minBookings)
    {
      var s := DetectSwitcher(t, ids[i], minBookings);
      SwitchersStep(t, ids, minBookings, i);
      found := found + (if s.Some? then [s.value] else []);
      i := i + 1;
    }
    assert ids[..i] == ids;
  }

  lemma SwitchersStep(t: Tables, ids: seq<string>, minBookings: int, i: nat)
    requires i < |ids|
    ensures var s := SwitcherFor(t, ids[i], minBookings);
      Switchers(t, ids[..i + 1], minBookings) == Switchers(t, ids[..i], minBookings) + (if s.Some? then [s.value] else [])
  {
    EmittedStep(ids, SwitcherOf(t, minBookings), i);
  }

  lemma EmittedStep(ids: seq<string>, f: string -> Option<Switcher>, i: nat)
    requires i < |ids|
    ensures Emitted(ids[..i + 1], f) == Emitted(ids[..i], f) + (if f(ids[i]).Some? then [f(ids[i]).value] else [])
  {
    assert ids[..i + 1][..i] == ids[..i];
  }
}
