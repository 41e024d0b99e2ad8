/** Segmentation around the clustering library: the choice of the cluster count, and the
    profile of each discovered segment (size, share, member sample and the mean
    behavioural signature the JTBD classifier reads). The clustering algorithm and its
    score are parameters. */
module Segmentation {
  import opened Common
  import opened Features
  import opened Jtbd

  // ---------------------------------------------------------------- choosing k

  /** The distinct labels of a clustering. */
  function LabelSet(labels: seq<int>): set<int>
  {
    set l | l in labels
  }

  /** `len(set(labels)) > 1`: the silhouette score needs at least two clusters. */
  predicate Scoreable(labels: seq<int>)
  {
    |LabelSet(labels)| > 1
  }

  /** A clustering is scoreable exactly when two customers got different labels. */
  lemma ScoreableIff(labels: seq<int>)
    ensures Scoreable(labels) <==> exists i, j :: 0 <= i < |labels| && 0 <= j < |labels| && labels[i] != labels[j]
  {
    var s := LabelSet(labels);
    if !exists i, j :: 0 <= i < |labels| && 0 <= j < |labels| && labels[i] != labels[j] {
      if labels == [] {
        assert s == {};
      } else {
        assert forall l :: l in s <==> l == labels[0];
        assert s == {labels[0]};
      }
    }
    if exists i, j :: 0 <= i < |labels| && 0 <= j < |labels| && labels[i] != labels[j] {
      var i, j :| 0 <= i < |labels| && 0 <= j < |labels| && labels[i] != labels[j];
      assert {labels[i], labels[j]} <= s;
      assert |{labels[i], labels[j]}| == 2;
      SubsetCard({labels[i], labels[j]}, s);
    }
  }

  lemma SubsetCard(a: set<int>, b: set<int>)
    requires a <= b
    ensures |a| <= |b|
  {
    assert b == a + (b - a);
  }

  /** The selection loop of `cluster_customers` over k = lo..hi with the clustering
      `labelsOf(k)` and its score `score(k)`. The best score starts at -1 and only a strictly
      greater score replaces it, so ties keep the earlier k; None when no k is chosen. */
  method SelectBestK(lo: int, hi: int, labelsOf: int -> seq<int>, score: int -> real)
    returns (bestK: Option<int>, bestScore: real)
    ensures bestK.None? <==> forall k :: lo <= k <= hi && Scoreable(labelsOf(k)) ==> score(k) <= -1.0
    ensures bestK.None? ==> bestScore == -1.0
    ensures bestK.Some? ==>
      && lo <= bestK.value <= hi && Scoreable(labelsOf(bestK.value))
      && bestScore == score(bestK.value) && bestScore > -1.0
      && (forall k :: lo <= k <= hi && Scoreable(labelsOf(k)) ==> score(k) <= bestScore)
      && (forall k :: lo <= k < bestK.value && Scoreable(labelsOf(k)) ==> score(k) < bestScore)
  {
    bestK := None;
    bestScore := -1.0;
    var k := lo;
    while k <= hi
      invariant lo <= k && (k == lo || k <= hi + 1)
      invariant bestK.None? ==> bestScore == -1.0
      invariant forall j :: lo <= j < k && Scoreable(labelsOf(j)) ==> score(j) <= bestScore
      invariant bestK.None? ==> forall j :: lo <= j < k && Scoreable(labelsOf(j)) ==> score(j) <= -1.0
      invariant bestK.Some? ==>
        && lo <= bestK.value < k && Scoreable(labelsOf(bestK.value))
        && bestScore == score(bestK.value) && bestScore > -1.0
        && (forall j :: lo <= j < bestK.value && Scoreable(labelsOf(j)) ==> score(j) < bestScore)
      decreases hi - k + 1
    {
      var labels := labelsOf(k);
      if |LabelSet(labels)| > 1 {
        var s := score(k);
        if s > bestScore {
          bestScore := s;
          bestK := Some(k);
        }
      }
      k := k + 1;
    }
  }

  // ---------------------------------------------------------------- segment ids

  /** Inserts `x` into a strictly increasing sequence, unless it is already there. */
  function InsertUnique(x: int, s: seq<int>): (r: seq<int>)
    requires forall i, j :: 0 <= i < j < |s| ==> s[i] < s[j]
    ensures forall i, j :: 0 <= i < j < |r| ==> r[i] < r[j]
    ensures forall y :: y in r <==> y == x || y in s
  {
    if s == [] then [x]
    else if x < s[0] then [x] + s
    else if x == s[0] then s
    else
      var tail := s[1..];
      assert forall i, j :: 0 <= i < j < |tail| ==> tail[i] == s[i + 1] && tail[j] == s[j + 1];
      var rest := InsertUnique(x, tail);
      assert forall j :: 0 <= j < |tail| ==> s[0] < tail[j];
      assert forall i :: 0 <= i < |rest| ==> s[0] < rest[i] by {
        forall i | 0 <= i < |rest| ensures s[0] < rest[i] {
          assert rest[i] in rest;
          if rest[i] != x {
            var j :| 0 <= j < |tail| && tail[j] == rest[i];
          }
        }
      }
      [s[0]] + rest
  }

  /** `sorted(segment.unique())`: the labels in increasing order, each once. */
  function SegmentIds(labels: seq<int>): (r: seq<int>)
    ensures forall i, j :: 0 <= i < j < |r| ==> r[i] < r[j]
    ensures forall y :: y in r <==> y in labels
  {
    if labels == [] then []
    else
      var init := labels[..|labels| - 1];
      assert labels == init + [labels[|labels| - 1]];
      InsertUnique(labels[|labels| - 1], SegmentIds(init))
  }

  // ---------------------------------------------------------------- profiles

  /** The feature names whose segment means form the behavioural signature. */
  const KeyFeatures: seq<string> := [
    "pct_morning", "pct_afternoon", "pct_evening",
    "pct_weekday", "pct_weekend",
    "partner_variety_rate", "event_participation_rate",
    "bookings_per_month", "spend_per_booking",
    "membership_tier", "dupr_level",
    "organized_bookings_rate", "drills_events", "social_events"]

  /** A customer's value of one key feature. */
  function FeatureValue(f: Features, name: string): real
  {
    if name == "pct_morning" then f.temporal.pctMorning
    else if name == "pct_afternoon" then f.temporal.pctAfternoon
    else if name == "pct_evening" then f.temporal.pctEvening
    else if name == "pct_weekday" then f.temporal.pctWeekday
    else if name == "pct_weekend" then f.temporal.pctWeekend
    else if name == "partner_variety_rate" then f.social.partnerVarietyRate
    else if name == "event_participation_rate" then f.events.participationRate
    else if name == "bookings_per_month" then f.engagement.bookingsPerMonth
    else if name == "spend_per_booking" then f.spending.spendPerBooking
    else if name == "membership_tier" then f.spending.membershipTier as real
    else if name == "dupr_level" then f.spending.duprLevel
    else if name == "organized_bookings_rate" then f.style.organizedRate
    else if name == "drills_events" then f.events.drills as real
    else if name == "social_events" then f.events.social as real
    else 0.0
  }

  function Column(fs: seq<Features>, name: string): (r: seq<real>)
    ensures |r| == |fs| && forall k :: 0 <= k < |fs| ==> r[k] == FeatureValue(fs[k], name)
  {
    seq(|fs|, k requires 0 <= k < |fs| => FeatureValue(fs[k], name))
  }

  /** The `mean` entry of each key feature over a non-empty segment. */
  function SignatureOf(seg: seq<Features>): (sig: Signature)
    requires |seg| > 0
    ensures forall name :: name in sig <==> name in KeyFeatures
    ensures forall name :: name in sig ==> sig[name] == Mean(Column(seg, name))
  {
    map name | name in KeyFeatures :: Mean(Column(seg, name))
  }

  /** The customers labelled `sid`, in table order. */
  function Segment(fs: seq<Features>, labels: seq<int>, sid: int): (r: seq<Features>)
    requires |fs| == |labels|
    ensures |r| == CountLabel(labels, sid)
  {
    if fs == [] then []
    else
      var n := |fs| - 1;
      Segment(fs[..n], labels[..n], sid) + (if labels[n] == sid then [fs[n]] else [])
  }

  /** A segment holds exactly the customers with its label. */
  lemma SegmentMembers(fs: seq<Features>, labels: seq<int>, sid: int, x: Features)
    requires |fs| == |labels|
    ensures x in Segment(fs, labels, sid) <==> exists k :: 0 <= k < |fs| && labels[k] == sid && fs[k] == x
  {
    if x in Segment(fs, labels, sid) {
      SegmentSound(fs, labels, sid, x);
    }
    if exists k :: 0 <= k < |fs| && labels[k] == sid && fs[k] == x {
      var k :| 0 <= k < |fs| && labels[k] == sid && fs[k] == x;
      SegmentComplete(fs, labels, sid, k);
    }
  }

  lemma {:induction false} SegmentSound(fs: seq<Features>, labels: seq<int>, sid: int, x: Features)
    requires |fs| == |labels| && x in Segment(fs, labels, sid)
    ensures exists k :: 0 <= k < |fs| && labels[k] == sid && fs[k] == x
  {
    var n := |fs| - 1;
    if x in Segment(fs[..n], labels[..n], sid) {
      SegmentSound(fs[..n], labels[..n], sid, x);
      var k :| 0 <= k < n && labels[..n][k] == sid && fs[..n][k] == x;
      assert labels[k] == sid && fs[k] == x;
    } else {
      assert labels[n] == sid && fs[n] == x;
    }
  }

  lemma {:induction false} SegmentComplete(fs: seq<Features>, labels: seq<int>, sid: int, k: nat)
    requires |fs| == |labels| && k < |fs| && labels[k] == sid
    ensures fs[k] in Segment(fs, labels, sid)
  {
    var n := |fs| - 1;
    if k < n {
      assert fs[..n][k] == fs[k] && labels[..n][k] == labels[k];
      SegmentComplete(fs[..n], labels[..n], sid, k);
    }
  }

  /** How often a label occurs. */
  function CountLabel(labels: seq<int>, sid: int): (r: nat)
    ensures r <= |labels|
    ensures r > 0 <==> sid in labels
  {
    if labels == [] then 0
    else
      var init := labels[..|labels| - 1];
      assert labels == init + [labels[|labels| - 1]];
      CountLabel(init, sid) + (if labels[|labels| - 1] == sid then 1 else 0)
  }

  function MemberIds(fs: seq<Features>): (r: seq<string>)
    ensures |r| == |fs| && forall k :: 0 <= k < |fs| ==> r[k] == fs[k].memberId
  {
    seq(|fs|, k requires 0 <= k < |fs| => fs[k].memberId)
  }

  /** A segment profile; `hypothesis` is None until the hypothesis step runs. */
  datatype Profile = Profile(
    segmentId: int,
    size: nat,
    pctOfTotal: real,
    memberIds: seq<string>,
    signature: Signature,
    hypothesis: Option<Hypothesis>,
    confidence: Confidence)

  /** The profile `profile_segments` builds for one occurring label. */
  function ProfileFor(fs: seq<Features>, labels: seq<int>, sid: int): (p: Profile)
    requires |fs| == |labels| && sid in labels
    ensures p.segmentId == sid && p.size == CountLabel(labels, sid) && p.size > 0
    ensures |p.memberIds| == if p.size < 10 then p.size else 10
    ensures p.pctOfTotal == p.size as real / |fs| as real * 100.0
    ensures forall name :: name in p.signature <==> name in KeyFeatures
  {
    var seg := Segment(fs, labels, sid);
    var ids := MemberIds(seg);
    Profile(sid, |seg|, Ratio(|seg|, |fs|) * 100.0,
      ids[..if |ids| < 10 then |ids| else 10], SignatureOf(seg), None, Medium)
  }

  /** The profiles of the given labels, in order. */
  function ProfilesOf(fs: seq<Features>, labels: seq<int>, ids: seq<int>): (r: seq<Profile>)
    requires |fs| == |labels| && forall k :: 0 <= k < |ids| ==> ids[k] in labels
    ensures |r| == |ids| && forall k :: 0 <= k < |ids| ==> r[k] == ProfileFor(fs, labels, ids[k])
  {
    if ids == [] then []
    else ProfilesOf(fs, labels, ids[..|ids| - 1]) + [ProfileFor(fs, labels, ids[|ids| - 1])]
  }

  /** `profile_segments`: one profile per label, in increasing label order. */
  function Profiles(fs: seq<Features>, labels: seq<int>): seq<Profile>
    requires |fs| == |labels|
  {
    ProfilesOf(fs, labels, SegmentIds(labels))
  }

  /** Each member sample lists the first customers of its segment. */
  lemma MemberSampleBelongs(fs: seq<Features>, labels: seq<int>, sid: int, k: nat)
    requires |fs| == |labels| && sid in labels
    requires k < |ProfileFor(fs, labels, sid).memberIds|
    ensures ProfileFor(fs, labels, sid).memberIds[k] == Segment(fs, labels, sid)[k].memberId
  {
  }

  // ---------------------------------------------------------------- the partition

  function SizesSum(ps: seq<Profile>): nat
  {
    if ps == [] then 0 else SizesSum(ps[..|ps| - 1]) + ps[|ps| - 1].size
  }

  /** The occurrences of all labels in `ds`. */
  function TotalCount(labels: seq<int>, ds: seq<int>): nat
  {
    if ds == [] then 0 else TotalCount(labels, ds[..|ds| - 1]) + CountLabel(labels, ds[|ds| - 1])
  }

  /** Dropping the last label removes exactly one occurrence when that label is listed in `ds`. */
  lemma {:induction false} TotalCountStep(labels: seq<int>, ds: seq<int>)
    requires labels != []
    requires forall i, j :: 0 <= i < j < |ds| ==> ds[i] != ds[j]
    ensures TotalCount(labels, ds) ==
      TotalCount(labels[..|labels| - 1], ds) + (if labels[|labels| - 1] in ds then 1 else 0)
  {
    if ds != [] {
      var init := ds[..|ds| - 1];
      TotalCountStep(labels, init);
      var last := labels[|labels| - 1];
      assert last in ds <==> last in init || last == ds[|ds| - 1];
      if last == ds[|ds| - 1] {
        assert last !in init;
      }
    }
  }

  /** Counting every label of a list that covers them all, each once, counts every position once. */
  lemma {:induction false} TotalCountCovers(labels: seq<int>, ds: seq<int>)
    requires forall i, j :: 0 <= i < j < |ds| ==> ds[i] != ds[j]
    requires forall l :: l in labels ==> l in ds
    ensures TotalCount(labels, ds) == |labels|
  {
    if labels == [] {
      TotalCountEmpty(ds);
    } else {
      var init := labels[..|labels| - 1];
      assert labels == init + [labels[|labels| - 1]];
      TotalCountStep(labels, ds);
      TotalCountCovers(init, ds);
    }
  }

  lemma {:induction false} TotalCountEmpty(ds: seq<int>)
    ensures TotalCount([], ds) == 0
  {
    if ds != [] {
      TotalCountEmpty(ds[..|ds| - 1]);
    }
  }

  lemma {:induction false} SizesSumOf(fs: seq<Features>, labels: seq<int>, ids: seq<int>)
    requires |fs| == |labels| && forall k :: 0 <= k < |ids| ==> ids[k] in labels
    ensures SizesSum(ProfilesOf(fs, labels, ids)) == TotalCount(labels, ids)
  {
    if ids != [] {
      var init := ids[..|ids| - 1];
      SizesSumOf(fs, labels, init);
      assert ProfilesOf(fs, labels, ids)[..|ids| - 1] == ProfilesOf(fs, labels, init);
    }
  }

  /** The segments partition the customers: the profile sizes add up to the customer count. */
  lemma ProfilesPartition(fs: seq<Features>, labels: seq<int>)
    requires |fs| == |labels|
    ensures SizesSum(Profiles(fs, labels)) == |fs|
  {
    var ids := SegmentIds(labels);
    SizesSumOf(fs, labels, ids);
    TotalCountCovers(labels, ids);
  }

  // ---------------------------------------------------------------- hypotheses

  /** `generate_jtbd_hypotheses` for one profile: classify its signature. */
  function WithHypothesis(p: Profile): (q: Profile)
    ensures q.hypothesis.Some? && q.hypothesis.value == Classify(DerivePredicates(p.signature))
    ensures q.(hypothesis := p.hypothesis) == p
  {
    p.(hypothesis := Some(Classify(DerivePredicates(p.signature))))
  }
}
