/** The Jobs-to-be-Done classifier of the segmentation analysis: nine boolean
    predicates derived from a segment's feature means, and an ordered,
    first-match-wins rule cascade that maps them to one of five archetypes. */
module Jtbd {
  import opened Common

  datatype Archetype =
    | ConsistentExercisers
    | SocialConnectors
    | SkillImprovers
    | CompetitivePlayers
    | CasualExplorers

  datatype Confidence = High | Medium

  /** The nine descriptive fields of a JTBD statement. */
  datatype Details = Details(
    jobPerformer: string,
    verb: string,
    jobObject: string,
    context: string,
    desiredOutcome: string,
    metric: string,
    constraints: string,
    emotionalSocial: string,
    timeDimension: string)

  /** A hypothesis: the archetype's name, its JTBD statement and a confidence. */
  datatype Hypothesis = Hypothesis(name: string, details: Details, confidence: Confidence)

  /** The nine patterns read off a segment's behavioural signature. */
  datatype Predicates = Predicates(
    isMorning: bool,
    isEvening: bool,
    isWeekday: bool,
    highPartnerVariety: bool,
    highEvents: bool,
    highDrills: bool,
    highSocial: bool,
    highFrequency: bool,
    highSpend: bool)

  /** A behavioural signature: feature name to the segment's mean of that feature. */
  type Signature = map<string, real>

  /** `sig.get(name, {}).get('mean', 0)`: a feature absent from the signature reads as 0. */
  function MeanOf(sig: Signature, name: string): real
  {
    if name in sig then sig[name] else 0.0
  }

  /** The predicate derivation of `generate_jtbd_hypotheses`: strict thresholds on means. */
  function DerivePredicates(sig: Signature): (p: Predicates)
    ensures p.isMorning <==> MeanOf(sig, "pct_morning") > 0.5
    ensures p.isEvening <==> MeanOf(sig, "pct_evening") > 0.5
    ensures p.isWeekday <==> MeanOf(sig, "pct_weekday") > 0.6
    ensures p.highPartnerVariety <==> MeanOf(sig, "partner_variety_rate") > 0.3
    ensures p.highEvents <==> MeanOf(sig, "event_participation_rate") > 0.3
    ensures p.highDrills <==> MeanOf(sig, "drills_events") > 2.0
    ensures p.highSocial <==> MeanOf(sig, "social_events") > 2.0
    ensures p.highFrequency <==> MeanOf(sig, "bookings_per_month") > 8.0
    ensures p.highSpend <==> MeanOf(sig, "spend_per_booking") > 20.0
  {
    Predicates(
      isMorning := MeanOf(sig, "pct_morning") > 0.5,
      isEvening := MeanOf(sig, "pct_evening") > 0.5,
      isWeekday := MeanOf(sig, "pct_weekday") > 0.6,
      highPartnerVariety := MeanOf(sig, "partner_variety_rate") > 0.3,
      highEvents := MeanOf(sig, "event_participation_rate") > 0.3,
      highDrills := MeanOf(sig, "drills_events") > 2.0,
      highSocial := MeanOf(sig, "social_events") > 2.0,
      highFrequency := MeanOf(sig, "bookings_per_month") > 8.0,
      highSpend := MeanOf(sig, "spend_per_booking") > 20.0)
  }

  /** Every predicate is an upward-closed threshold: raising means never switches one off. */
  lemma DeriveMonotone(lo: Signature, hi: Signature)
    requires forall name :: MeanOf(lo, name) <= MeanOf(hi, name)
    ensures var p, q := DerivePredicates(lo), DerivePredicates(hi);
      && (p.isMorning ==> q.isMorning) && (p.isEvening ==> q.isEvening)
      && (p.isWeekday ==> q.isWeekday) && (p.highPartnerVariety ==> q.highPartnerVariety)
      && (p.highEvents ==> q.highEvents) && (p.highDrills ==> q.highDrills)
      && (p.highSocial ==> q.highSocial) && (p.highFrequency ==> q.highFrequency)
      && (p.highSpend ==> q.highSpend)
  {
    assert MeanOf(lo, "pct_morning") <= MeanOf(hi, "pct_morning");
    assert MeanOf(lo, "pct_evening") <= MeanOf(hi, "pct_evening");
    assert MeanOf(lo, "pct_weekday") <= MeanOf(hi, "pct_weekday");
    assert MeanOf(lo, "partner_variety_rate") <= MeanOf(hi, "partner_variety_rate");
    assert MeanOf(lo, "event_participation_rate") <= MeanOf(hi, "event_participation_rate");
    assert MeanOf(lo, "drills_events") <= MeanOf(hi, "drills_events");
    assert MeanOf(lo, "social_events") <= MeanOf(hi, "social_events");
    assert MeanOf(lo, "bookings_per_month") <= MeanOf(hi, "bookings_per_month");
    assert MeanOf(lo, "spend_per_booking") <= MeanOf(hi, "spend_per_booking");
  }

  // ---------------------------------------------------------------- the cascade

  /** The branch order of `_classify_jtbd`; the first branch whose condition holds wins. */
  function Cascade(p: Predicates): Archetype
  {
    if p.isMorning && p.isWeekday && p.highFrequency && !p.highPartnerVariety then
      ConsistentExercisers
    else if (p.isEvening || !p.isWeekday) && p.highPartnerVariety && p.highSpend then
      SocialConnectors
    else if p.highDrills && p.highEvents && !p.highSocial then
      SkillImprovers
    else if p.highFrequency && !p.highPartnerVariety && p.highEvents then
      CompetitivePlayers
    else
      CasualExplorers
  }

  /** The `jtbd_name` of each archetype. */
  function ArchetypeName(a: Archetype): string
  {
    match a
    case ConsistentExercisers => "Consistent Exercisers"
    case SocialConnectors => "Social Connectors"
    case SkillImprovers => "Skill Improvers"
    case CompetitivePlayers => "Competitive Players"
    case CasualExplorers => "Casual Explorers"
  }

  /** The confidence each rule of the cascade attaches to its hypothesis. */
  function ArchetypeConfidence(a: Archetype): Confidence
  {
    match a
    case ConsistentExercisers => High
    case SocialConnectors => High
    case SkillImprovers => High
    case CompetitivePlayers => Medium
    case CasualExplorers => Medium
  }

  /** The descriptive fields `_classify_jtbd` fills in for each archetype. */
  function DetailsFor(a: Archetype): Details
  {
    match a
    case ConsistentExercisers => Details(
      "Busy professionals and retirees",
      "maintain",
      "physical fitness routine",
      "when fitting exercise into a busy schedule",
      "stay healthy and energized without disrupting daily commitments",
      "consistency of attendance and feeling physically strong",
      "limited time windows (early morning), need reliable court availability",
      "feel disciplined and accomplished, not seeking heavy social interaction",
      "regular weekday mornings, 3-5x per week")
    case SocialConnectors => Details(
      "Social individuals seeking community",
      "build and maintain",
      "friendships and social connections",
      "when looking for fun social activities with diverse groups",
      "feel part of a vibrant community and make lasting friendships",
      "number of new people met, quality of social interactions, having plans to meet again",
      "need variety in playing partners, want welcoming atmosphere",
      "feel welcomed, energized, and socially fulfilled",
      "evenings and weekends when social energy is high")
    case SkillImprovers => Details(
      "Competitive individuals focused on mastery",
      "improve",
      "pickleball skills and competitive standing",
      "when seeking to advance their game systematically",
      "see measurable skill progression and win more games",
      "DUPR rating improvement, tournament results, coach feedback",
      "need structured instruction, quality coaching, appropriate skill-level partners",
      "feel challenged but not overwhelmed, recognized for improvement",
      "consistent weekly drills and practice sessions")
    case CompetitivePlayers => Details(
      "Serious pickleball players",
      "compete and win",
      "matches against worthy opponents",
      "when seeking competitive challenge and testing skills",
      "win competitive matches and build strong playing partnerships",
      "win rate, tournament results, strength of opponents",
      "need high-quality competition, consistent partners, peak-time courts",
      "feel respected as a skilled player, enjoy competitive thrill",
      "regular games with consistent partners, tournament participation")
    case CasualExplorers => Details(
      "Occasional players testing the waters",
      "explore and try",
      "pickleball as a potential hobby",
      "when looking for new activities or occasional recreation",
      "have fun without commitment, decide if pickleball is for them",
      "enjoyment level, ease of getting started, welcoming atmosphere",
      "uncertain about long-term commitment, price-sensitive, need beginner-friendly options",
      "feel welcome as a beginner, not judged for skill level",
      "sporadic, typically weekends or special occasions")
  }

  /** The record `_classify_jtbd` returns for each archetype. */
  function HypothesisFor(a: Archetype): (h: Hypothesis)
    ensures h.name == ArchetypeName(a) && h.confidence == ArchetypeConfidence(a)
  {
    Hypothesis(ArchetypeName(a), DetailsFor(a), ArchetypeConfidence(a))
  }

  /** `_classify_jtbd`: the hypothesis of the first matching rule. */
  function Classify(p: Predicates): (h: Hypothesis)
    ensures h == HypothesisFor(Cascade(p))
  {
    HypothesisFor(Cascade(p))
  }

  // ---------------------------------------------------------------- properties

  /** Rule 1 wins over every later rule, in particular when Social Connector's conditions hold too. */
  lemma Rule1HasPriority(p: Predicates)
    requires p.isMorning && p.isWeekday && p.highFrequency && !p.highPartnerVariety
    ensures Classify(p).name == "Consistent Exercisers"
  {
  }

  /** The fallback is returned exactly when none of rules 1 to 4 matches. */
  lemma CasualExactlyWhenNoRuleMatches(p: Predicates)
    ensures Classify(p).name == "Casual Explorers" <==>
      && !(p.isMorning && p.isWeekday && p.highFrequency && !p.highPartnerVariety)
      && !((p.isEvening || !p.isWeekday) && p.highPartnerVariety && p.highSpend)
      && !(p.highDrills && p.highEvents && !p.highSocial)
      && !(p.highFrequency && !p.highPartnerVariety && p.highEvents)
  {
  }

  /** Rules 1 to 3 carry high confidence, rules 4 and 5 medium. */
  lemma ConfidenceByArchetype(a: Archetype)
    ensures ArchetypeConfidence(a) == High <==>
      a == ConsistentExercisers || a == SocialConnectors || a == SkillImprovers
  {
  }

  /** The length of each archetype name; the five lengths differ. */
  function NameLength(a: Archetype): (n: nat)
    ensures n == |ArchetypeName(a)|
  {
    match a
    case ConsistentExercisers => 21
    case SocialConnectors => 17
    case SkillImprovers => 15
    case CompetitivePlayers => 19
    case CasualExplorers => 16
  }

  /** The hypothesis name identifies the archetype. */
  lemma NamesDistinct(a: Archetype, b: Archetype)
    ensures HypothesisFor(a).name == HypothesisFor(b).name ==> a == b
  {
    if ArchetypeName(a) == ArchetypeName(b) {
      assert NameLength(a) == NameLength(b);
    }
  }

  /** A signature with no features at all classifies as the fallback archetype. */
  lemma EmptySignatureIsCasual()
    ensures Classify(DerivePredicates(map[])).name == "Casual Explorers"
  {
  }

  /** At the level of means: a weekday-morning, high-frequency, low-variety segment is a
      Consistent Exerciser segment whatever its spend, events and evening share. */
  lemma MorningRoutineSignature(sig: Signature)
    requires MeanOf(sig, "pct_morning") > 0.5 && MeanOf(sig, "pct_weekday") > 0.6
    requires MeanOf(sig, "bookings_per_month") > 8.0
    requires MeanOf(sig, "partner_variety_rate") <= 0.3
    ensures Classify(DerivePredicates(sig)).name == "Consistent Exercisers"
  {
  }

  // ---------------------------------------------------------------- decision table

  /** The cascade written as an explicit ordered table of (condition, archetype) rows. */
  function Rules(): seq<(Predicates -> bool, Archetype)>
  {
    [ ((p: Predicates) => p.isMorning && p.isWeekday && p.highFrequency && !p.highPartnerVariety,
       ConsistentExercisers),
      ((p: Predicates) => (p.isEvening || !p.isWeekday) && p.highPartnerVariety && p.highSpend,
       SocialConnectors),
      ((p: Predicates) => p.highDrills && p.highEvents && !p.highSocial,
       SkillImprovers),
      ((p: Predicates) => p.highFrequency && !p.highPartnerVariety && p.highEvents,
       CompetitivePlayers) ]
  }

  /** The archetype of the first row at or after `i` whose condition holds, or the fallback. */
  function FirstMatchFrom(rules: seq<(Predicates -> bool, Archetype)>, i: nat, p: Predicates, fallback: Archetype): Archetype
    requires i <= |rules|
    decreases |rules| - i
  {
    if i == |rules| then fallback
    else if rules[i].0(p) then rules[i].1
    else FirstMatchFrom(rules, i + 1, p, fallback)
  }

  /** The scan from `i` stops at the first row that holds, and falls back when none does. */
  lemma {:induction false} FirstMatchFromIsFirst(rules: seq<(Predicates -> bool, Archetype)>, i: nat, p: Predicates, fallback: Archetype)
    requires i <= |rules|
    ensures var a := FirstMatchFrom(rules, i, p, fallback);
      && ((exists k :: i <= k < |rules| && rules[k].0(p)) ==>
        exists k :: i <= k < |rules| && rules[k].0(p) && a == rules[k].1 &&
          forall j :: i <= j < k ==> !rules[j].0(p))
      && ((forall k :: i <= k < |rules| ==> !rules[k].0(p)) ==> a == fallback)
    decreases |rules| - i
  {
    if i < |rules| && !rules[i].0(p) {
      FirstMatchFromIsFirst(rules, i + 1, p, fallback);
    }
  }

  /** The archetype of the first row whose condition holds, or the fallback. */
  function FirstMatch(rules: seq<(Predicates -> bool, Archetype)>, p: Predicates, fallback: Archetype): (a: Archetype)
    ensures (exists i :: 0 <= i < |rules| && rules[i].0(p)) ==>
      exists i :: 0 <= i < |rules| && rules[i].0(p) && a == rules[i].1 &&
        forall j :: 0 <= j < i ==> !rules[j].0(p)
    ensures (forall i :: 0 <= i < |rules| ==> !rules[i].0(p)) ==> a == fallback
  {
    FirstMatchFromIsFirst(rules, 0, p, fallback);
    FirstMatchFrom(rules, 0, p, fallback)
  }

  /** The cascade and the decision table agree on every input. */
  lemma CascadeIsFirstMatch(p: Predicates)
    ensures Cascade(p) == FirstMatch(Rules(), p, CasualExplorers)
  {
    var r: seq<(Predicates -> bool, Archetype)> := Rules();
    assert |r| == 4;
    assert r[0].0(p) == (p.isMorning && p.isWeekday && p.highFrequency && !p.highPartnerVariety);
    assert r[1].0(p) == ((p.isEvening || !p.isWeekday) && p.highPartnerVariety && p.highSpend);
    assert r[2].0(p) == (p.highDrills && p.highEvents && !p.highSocial);
    assert r[3].0(p) == (p.highFrequency && !p.highPartnerVariety && p.highEvents);
    var c := CasualExplorers;
    assert FirstMatchFrom(r, 4, p, c) == c;
    assert FirstMatchFrom(r, 3, p, c) == if r[3].0(p) then r[3].1 else c;
    assert FirstMatchFrom(r, 2, p, c) == if r[2].0(p) then r[2].1 else FirstMatchFrom(r, 3, p, c);
    assert FirstMatchFrom(r, 1, p, c) == if r[1].0(p) then r[1].1 else FirstMatchFrom(r, 2, p, c);
    assert FirstMatchFrom(r, 0, p, c) == if r[0].0(p) then r[0].1 else FirstMatchFrom(r, 1, p, c);
    assert FirstMatch(r, p, c) == FirstMatchFrom(r, 0, p, c);
  }
}
