/** How a pose rater turns its checks into the number on its `Score: N/100`
    line. Each scored check carries a weight and the cue its failure shows;
    the score is the total weight of the checks that passed, that is, of the
    checks whose cue is absent. Two raters then cap the total at full marks. */
module Scores {
  import opened Report

  const FullMarks := 100

  /** No check passed. */
  predicate NonePassed(checks: seq<Check>) {
    forall i | 0 <= i < |checks| :: !checks[i].passed
  }

  /** Every weight is worth something. */
  predicate Positive(weights: seq<nat>) {
    forall i | 0 <= i < |weights| :: weights[i] > 0
  }

  /** The sum of a weight list. */
  function Total(weights: seq<nat>): nat
    decreases |weights|
  {
    if weights == [] then 0 else weights[0] + Total(weights[1..])
  }

  /** The points earned: `score += w` for every check that holds, starting
      from zero. */
  function Points(checks: seq<Check>, weights: seq<nat>): (r: nat)
    requires |weights| == |checks|
    ensures r <= Total(weights)
    decreases |checks|
  {
    if checks == [] then 0
    else (if checks[0].passed then weights[0] else 0) + Points(checks[1..], weights[1..])
  }

  /** The points of a single check. */
  lemma PointsOfOne(a: Check, wa: nat)
    ensures Points([a], [wa]) == if a.passed then wa else 0
  {
    assert [a][1..] == [] && [wa][1..] == [];
  }

  /** The points of two checks: each one's weight when it passes. */
  lemma PointsOfTwo(a: Check, b: Check, wa: nat, wb: nat)
    ensures Points([a, b], [wa, wb]) == (if a.passed then wa else 0) + (if b.passed then wb else 0)
  {
    assert [a, b][1..] == [b] && [wa, wb][1..] == [wb];
    PointsOfOne(b, wb);
  }

  /** The points of three checks: each one's weight when it passes. */
  lemma PointsOfThree(a: Check, b: Check, c: Check, wa: nat, wb: nat, wc: nat)
    ensures Points([a, b, c], [wa, wb, wc])
         == (if a.passed then wa else 0) + (if b.passed then wb else 0) + (if c.passed then wc else 0)
  {
    assert [a, b, c][1..] == [b, c] && [wa, wb, wc][1..] == [wb, wc];
    PointsOfTwo(b, c, wb, wc);
  }

  /** Points of two check lists scored one after the other add up. */
  lemma {:induction false} PointsAppend(a: seq<Check>, wa: seq<nat>, b: seq<Check>, wb: seq<nat>)
    requires |wa| == |a| && |wb| == |b|
    ensures Points(a + b, wa + wb) == Points(a, wa) + Points(b, wb)
    decreases |a|
  {
    if a != [] {
      assert (a + b)[1..] == a[1..] + b;
      assert (wa + wb)[1..] == wa[1..] + wb;
      PointsAppend(a[1..], wa[1..], b, wb);
    } else {
      assert a + b == b && wa + wb == wb;
    }
  }

  /** `min(100, score)`. */
  function Capped(points: nat): (r: nat)
    ensures r <= FullMarks && r <= points
    ensures r == points || r == FullMarks
  {
    if points < FullMarks then points else FullMarks
  }

  /** With positive weights, the full total is earned exactly when every
      check passes, and nothing exactly when none does. */
  lemma {:induction false} PointsExtremes(checks: seq<Check>, weights: seq<nat>)
    requires |weights| == |checks|
    requires Positive(weights)
    ensures Points(checks, weights) == Total(weights) <==> AllPassed(checks)
    ensures Points(checks, weights) == 0 <==> NonePassed(checks)
    decreases |checks|
  {
    if checks != [] {
      assert Positive(weights[1..]) by {
        forall i | 0 <= i < |weights[1..]| ensures weights[1..][i] > 0 {
          assert weights[1..][i] == weights[i + 1];
        }
      }
      PointsExtremes(checks[1..], weights[1..]);
      if AllPassed(checks[1..]) && checks[0].passed {
        forall i | 0 <= i < |checks| ensures checks[i].passed {
          if i > 0 { assert checks[i] == checks[1..][i - 1]; }
        }
      }
      if NonePassed(checks[1..]) && !checks[0].passed {
        forall i | 0 <= i < |checks| ensures !checks[i].passed {
          if i > 0 { assert checks[i] == checks[1..][i - 1]; }
        }
      }
      if !AllPassed(checks[1..]) {
        var i :| 0 <= i < |checks[1..]| && !checks[1..][i].passed;
        assert checks[i + 1] == checks[1..][i];
      }
      if !NonePassed(checks[1..]) {
        var i :| 0 <= i < |checks[1..]| && checks[1..][i].passed;
        assert checks[i + 1] == checks[1..][i];
      }
    }
  }

  /** A failed check, the one whose cue is shown, forfeits its whole weight. */
  lemma {:induction false} FailedCheckForfeits(checks: seq<Check>, weights: seq<nat>, i: nat)
    requires |weights| == |checks| && i < |checks|
    requires !checks[i].passed
    ensures Points(checks, weights) + weights[i] <= Total(weights)
    decreases |checks|
  {
    if i > 0 {
      assert checks[1..][i - 1] == checks[i];
      assert weights[1..][i - 1] == weights[i];
      FailedCheckForfeits(checks[1..], weights[1..], i - 1);
    }
  }

  /** A cue on screen means points lost: when a check's cue is shown and no
      other check carries it, that check failed and forfeits its weight. */
  lemma ShownCueForfeits(checks: seq<Check>, weights: seq<nat>, i: nat)
    requires |weights| == |checks| && i < |checks|
    requires forall j | 0 <= j < |checks| && j != i :: checks[j].cue != checks[i].cue
    requires checks[i].cue in Cues(checks)
    ensures Points(checks, weights) + weights[i] <= Total(weights)
  {
    CueShown(checks, i);
    FailedCheckForfeits(checks, weights, i);
  }
}
