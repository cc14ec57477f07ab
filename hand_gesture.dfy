/** The hand-openness heuristic: an upright hand is "open" when at least three
    of its four non-thumb fingers have their tip above (smaller image y than)
    their middle (PIP) joint. */
module HandGesture {

  /** The detector reports 21 anatomical landmarks per hand. */
  const NumLandmarks: nat := 21

  /** The normalised y-coordinates of one hand's landmarks, indexed by the
      detector's anatomical numbering (index fingertip = 8). Only `<` is ever
      applied to them. */
  type LandmarkYs = ys: seq<real> | |ys| == NumLandmarks witness seq(NumLandmarks, _ => 0.0)

  /** (tip, pip) landmark indices of the index, middle, ring and pinky fingers. */
  const Fingers: seq<(nat, nat)> := [(8, 6), (12, 10), (16, 14), (20, 18)]

  /** The landmarks the classifier reads; the thumb (1-4) is not among them. */
  const TrackedLandmarks: set<nat> := {6, 8, 10, 12, 14, 16, 18, 20}

  /** Minimum number of extended fingers for an open hand. */
  const OpenThreshold: nat := 3

  /** Finger `f` is extended when its tip lies strictly above its pip joint. */
  predicate Extended(ys: LandmarkYs, f: nat)
    requires f < |Fingers|
  {
    ys[Fingers[f].0] < ys[Fingers[f].1]
  }

  /** Number of extended fingers among the first `n` of `Fingers`. */
  function CountExtended(ys: LandmarkYs, n: nat): (c: nat)
    requires n <= |Fingers|
    ensures c <= n
  {
    if n == 0 then 0
    else CountExtended(ys, n - 1) + (if Extended(ys, n - 1) then 1 else 0)
  }

  /** The classifier's answer, as a specification. */
  predicate HandOpen(ys: LandmarkYs) {
    CountExtended(ys, |Fingers|) >= OpenThreshold
  }

  /** The set of extended fingers: an independent description of what is counted. */
  function ExtendedFingers(ys: LandmarkYs): set<nat> {
    set f | 0 <= f < |Fingers| && Extended(ys, f)
  }

  /** The counting loop of the classifier. */
  method IsHandOpen(ys: LandmarkYs) returns (open: bool)
    ensures open == HandOpen(ys)
  {
    var openFingers := 0;
    var i := 0;
    while i < |Fingers|
      invariant 0 <= i <= |Fingers|
      invariant openFingers == CountExtended(ys, i)
    {
      var (tip, pip) := Fingers[i];
      if ys[tip] < ys[pip] {
        openFingers := openFingers + 1;
      }
      i := i + 1;
    }
    open := openFingers >= OpenThreshold;
  }

  /** The running count is the size of the set of extended fingers seen so far. */
  lemma {:induction false} CountIsCardinality(ys: LandmarkYs, n: nat)
    requires n <= |Fingers|
    ensures CountExtended(ys, n) == |set f | 0 <= f < n && Extended(ys, f)|
  {
    var upto := set f | 0 <= f < n && Extended(ys, f);
    if n > 0 {
      CountIsCardinality(ys, n - 1);
      var below := set f | 0 <= f < n - 1 && Extended(ys, f);
      if Extended(ys, n - 1) {
        assert upto == below + {n - 1};
      } else {
        assert upto == below;
      }
    } else {
      assert upto == {};
    }
  }

  /** Open iff at least three of the four fingers are in the extended set. */
  lemma OpenIffAtLeastThreeExtended(ys: LandmarkYs)
    ensures HandOpen(ys) <==> |ExtendedFingers(ys)| >= 3
  {
    CountIsCardinality(ys, |Fingers|);
  }

  /** Open iff no two distinct fingers are both bent. */
  lemma OpenIffAtMostOneBent(ys: LandmarkYs)
    ensures HandOpen(ys) <==>
      forall f, g :: 0 <= f < g < |Fingers| ==> Extended(ys, f) || Extended(ys, g)
  {
    var e0, e1, e2, e3 :=
      if Extended(ys, 0) then 1 else 0, if Extended(ys, 1) then 1 else 0,
      if Extended(ys, 2) then 1 else 0, if Extended(ys, 3) then 1 else 0;
    assert CountExtended(ys, 2) == e0 + e1;
    assert CountExtended(ys, 4) == e0 + e1 + e2 + e3;
  }

  /** The classifier reads only the eight tracked landmarks: two landmark sets
      that agree on them (whatever the thumb, wrist or other joints do) get the
      same answer. */
  lemma {:induction false} OnlyTrackedLandmarksMatter(ys: LandmarkYs, zs: LandmarkYs)
    requires forall i :: i in TrackedLandmarks ==> ys[i] == zs[i]
    ensures HandOpen(ys) == HandOpen(zs)
  {
    CountAgrees(ys, zs, |Fingers|);
  }

  lemma {:induction false} CountAgrees(ys: LandmarkYs, zs: LandmarkYs, n: nat)
    requires n <= |Fingers|
    requires forall i :: i in TrackedLandmarks ==> ys[i] == zs[i]
    ensures CountExtended(ys, n) == CountExtended(zs, n)
  {
    if n > 0 {
      CountAgrees(ys, zs, n - 1);
      assert Fingers[n - 1].0 in TrackedLandmarks && Fingers[n - 1].1 in TrackedLandmarks;
    }
  }

  /** A finger whose tip is level with its pip joint is not extended. */
  lemma LevelFingerNotExtended(ys: LandmarkYs, f: nat)
    requires f < |Fingers|
    requires ys[Fingers[f].0] == ys[Fingers[f].1]
    ensures !Extended(ys, f)
  {
  }

  /** The boundary: exactly three extended fingers already make an open hand,
      exactly two do not. */
  lemma ThresholdBoundary(ys: LandmarkYs)
    ensures |ExtendedFingers(ys)| == 3 ==> HandOpen(ys)
    ensures |ExtendedFingers(ys)| == 2 ==> !HandOpen(ys)
  {
    OpenIffAtLeastThreeExtended(ys);
  }
}
