/** The analysis object of the segmentation script: the loaded tables and the results that
    each step stores on it in turn (features, segment labels, segment profiles with their
    hypotheses, and the context switchers). */
module Analysis {
  import opened Common
  import opened Features
  import opened Jtbd
  import opened ContextSwitch
  import opened Segmentation

  /** The rows `rowOf` yields for the given customers, skipping those it yields none for. */
  function Rows(ids: seq<string>, rowOf: string -> Option<Features>): seq<Features>
  {
    if ids == [] then []
    else
      var f := rowOf(ids[|ids| - 1]);
      Rows(ids[..|ids| - 1], rowOf) + (if f.Some? then [f.value] else [])
  }

  /** One more customer adds their row, if any. */
  lemma RowsStep(ids: seq<string>, i: nat, rowOf: string -> Option<Features>)
    requires i < |ids|
    ensures Rows(ids[..i + 1], rowOf) ==
      Rows(ids[..i], rowOf) + (if rowOf(ids[i]).Some? then [rowOf(ids[i]).value] else [])
  {
    assert ids[..i + 1][..i] == ids[..i];
  }

  /** The feature row of one customer, as a function value. */
  function RowOf(t: Tables): string -> Option<Features>
  {
    id => MemberFeatures(t, id)
  }

  /** `engineer_features`: one row per customer of the reservations, in order of first appearance. */
  function AllFeatures(t: Tables): seq<Features>
  {
    Rows(DistinctIds(t.reservations), RowOf(t))
  }

  /** When every customer yields a row, none is skipped: row k belongs to the k-th id. */
  lemma {:induction false} RowsAligned(ids: seq<string>, rowOf: string -> Option<Features>)
    requires forall k :: 0 <= k < |ids| ==> rowOf(ids[k]).Some?
    ensures |Rows(ids, rowOf)| == |ids|
    ensures forall k :: 0 <= k < |ids| ==> Rows(ids, rowOf)[k] == rowOf(ids[k]).value
  {
    if ids != [] {
      var init := ids[..|ids| - 1];
      assert forall k :: 0 <= k < |init| ==> init[k] == ids[k];
      RowsAligned(init, rowOf);
    }
  }

  /** Every customer id of the reservations gets exactly one feature row, carrying that id. */
  lemma AllFeaturesCoverCustomers(t: Tables)
    ensures var ids := DistinctIds(t.reservations);
      |AllFeatures(t)| == |ids| &&
      forall k :: 0 <= k < |ids| ==> AllFeatures(t)[k].memberId == ids[k]
  {
    var ids := DistinctIds(t.reservations);
    forall k | 0 <= k < |ids|
      ensures RowOf(t)(ids[k]).Some? && RowOf(t)(ids[k]).value.memberId == ids[k]
    {
      ListedHasFeatures(t, ids[k]);
    }
    RowsAligned(ids, RowOf(t));
  }

  /** `customer_features[total_bookings >= min_bookings]['member_id']`. */
  function ActiveIds(fs: seq<Features>, minBookings: int): (r: seq<string>)
    ensures |r| <= |fs|
    ensures forall x :: x in r <==>
      exists k :: 0 <= k < |fs| && fs[k].memberId == x && fs[k].engagement.totalBookings >= minBookings
  {
    if fs == [] then []
    else
      var last := fs[|fs| - 1];
      assert forall k :: 0 <= k < |fs| - 1 ==> fs[..|fs| - 1][k] == fs[k];
      ActiveIds(fs[..|fs| - 1], minBookings) +
        (if last.engagement.totalBookings >= minBookings then [last.memberId] else [])
  }

  class Analyzer {
    const tables: Tables
    var customerFeatures: seq<Features>
    var segmentLabels: seq<int>
    var segments: seq<Profile>
    var contextSwitchers: seq<Switcher>

    constructor (t: Tables)
      ensures tables == t
      ensures customerFeatures == [] && segmentLabels == [] && segments == [] && contextSwitchers == []
    {
      tables := t;
      customerFeatures := [];
      segmentLabels := [];
      segments := [];
      contextSwitchers := [];
    }

    /** `engineer_features`. */
    method EngineerFeatures()
      modifies this
      ensures customerFeatures == AllFeatures(tables)
      ensures segmentLabels == old(segmentLabels) && segments == old(segments)
      ensures contextSwitchers == old(contextSwitchers)
    {
      var ids := DistinctIds(tables.reservations);
      var rows: seq<Features> := [];
      var i := 0;
      while i < |ids|
        invariant 0 <= i <= |ids|
        invariant rows == Rows(ids[..i], RowOf(tables))
        invariant unchanged(this)
      {
        var f := ExtractMemberFeatures(tables, ids[i]);
        RowsStep(ids, i, RowOf(tables));
        assert f == RowOf(tables)(ids[i]);
        if f.Some? {
          rows := rows + [f.value];
        }
        i := i + 1;
      }
      assert ids[..i] == ids;
      customerFeatures := rows;
    }

    /** The k-means part of `cluster_customers`: keep the labels of the best k. When no k is
        chosen the script stops with an error; the model then leaves the state as it was. */
    method ClusterCustomers(lo: int, hi: int, labelsOf: int -> seq<int>, score: int -> real)
      returns (chosen: Option<int>, bestScore: real)
      requires forall k :: |labelsOf(k)| == |customerFeatures|
      modifies this
      ensures chosen.None? ==> segmentLabels == old(segmentLabels)
      ensures chosen.None? <==> forall k :: lo <= k <= hi && Scoreable(labelsOf(k)) ==> score(k) <= -1.0
      ensures chosen.Some? ==>
        && segmentLabels == labelsOf(chosen.value)
        && lo <= chosen.value <= hi && bestScore == score(chosen.value)
        && (forall k :: lo <= k <= hi && Scoreable(labelsOf(k)) ==> score(k) <= bestScore)
        && (forall k :: lo <= k < chosen.value && Scoreable(labelsOf(k)) ==> score(k) < bestScore)
      ensures |segmentLabels| == |customerFeatures| || segmentLabels == old(segmentLabels)
      ensures customerFeatures == old(customerFeatures) && segments == old(segments)
      ensures contextSwitchers == old(contextSwitchers)
    {
      chosen, bestScore := SelectBestK(lo, hi, labelsOf, score);
      if chosen.Some? {
        segmentLabels := labelsOf(chosen.value);
      }
    }

    /** `profile_segments`. */
    method ProfileSegments()
      requires |segmentLabels| == |customerFeatures|
      modifies this
      ensures customerFeatures == old(customerFeatures) && segmentLabels == old(segmentLabels)
      ensures contextSwitchers == old(contextSwitchers)
      ensures segments == Profiles(customerFeatures, segmentLabels)
    {
      var ids := SegmentIds(segmentLabels);
      var profiles: seq<Profile> := [];
      var i := 0;
      while i < |ids|
        invariant 0 <= i <= |ids| && |profiles| == i
        invariant forall k :: 0 <= k < i ==> profiles[k] == ProfileFor(customerFeatures, segmentLabels, ids[k])
        invariant unchanged(this)
      {
        profiles := profiles + [ProfileFor(customerFeatures, segmentLabels, ids[i])];
        i := i + 1;
      }
      ghost var expected := ProfilesOf(customerFeatures, segmentLabels, ids);
      assert forall k :: 0 <= k < |ids| ==> expected[k] == profiles[k];
      assert profiles == expected;
      segments := profiles;
    }

    /** `generate_jtbd_hypotheses`: each profile is given the hypothesis of its signature, in place. */
    method GenerateJtbdHypotheses()
      modifies this
      ensures |segments| == |old(segments)|
      ensures forall k :: 0 <= k < |segments| ==> segments[k] == WithHypothesis(old(segments)[k])
      ensures customerFeatures == old(customerFeatures) && segmentLabels == old(segmentLabels)
      ensures contextSwitchers == old(contextSwitchers)
    {
      var i := 0;
      while i < |segments|
        invariant 0 <= i <= |segments| && |segments| == |old(segments)|
        invariant forall k :: 0 <= k < i ==> segments[k] == WithHypothesis(old(segments)[k])
        invariant forall k :: i <= k < |segments| ==> segments[k] == old(segments)[k]
        invariant customerFeatures == old(customerFeatures) && segmentLabels == old(segmentLabels)
        invariant contextSwitchers == old(contextSwitchers)
      {
        segments := segments[i := WithHypothesis(segments[i])];
        i := i + 1;
      }
    }

    /** `identify_context_switchers`. */
    method IdentifyContextSwitchers(minBookings: int)
      modifies this
      ensures contextSwitchers == Switchers(tables, ActiveIds(customerFeatures, minBookings), minBookings)
      ensures customerFeatures == old(customerFeatures) && segmentLabels == old(segmentLabels)
      ensures segments == old(segments)
    {
      var active := ActiveIds(customerFeatures, minBookings);
      contextSwitchers := DetectSwitchers(tables, active, minBookings);
    }
  }

  /** After the hypothesis step every profile carries the hypothesis its own signature selects. */
  lemma HypothesesFollowSignatures(before: seq<Profile>, after: seq<Profile>, k: nat)
    requires |after| == |before| && k < |after|
    requires forall j :: 0 <= j < |after| ==> after[j] == WithHypothesis(before[j])
    ensures after[k].hypothesis == Some(Classify(DerivePredicates(before[k].signature)))
    ensures after[k].signature == before[k].signature && after[k].size == before[k].size
  {
  }
}
