/** The vacuum pose rater: two nested thresholds on the vertical distance
    from the shoulder midpoint down to the hip midpoint. */
module VacuumPoseRater {
  import opened Wrappers
  import opened Geometry
  import opened Landmarks
  import opened Report
  import opened Scores

  const Header := "Mode: Pose - Vacuum"
  const NoPerson := "No person detected."
  const RibcageCue := "Lift ribcage by expanding chest upward."
  const StomachCue := "Pull stomach in tightly to emphasize vacuum."
  const Praise := "Classic vacuum! Hold steady."

  datatype Features = Features(
    torsoDrop: real,      // hip midpoint y minus shoulder midpoint y
    height: real)

  /** Reads the shoulder and hip heights and the frame height,
      as at src/pose_coach/poses/vacuum.py:20-29. */
  function Measure(f: Frame): Features {
    var b := f.body;
    Features(Mid(b.leftHip, b.rightHip).y - Mid(b.leftShoulder, b.rightShoulder).y, f.height)
  }

  predicate RibcageLift(m: Features) {
    m.torsoDrop > 0.3 * m.height
  }

  predicate StomachDrawIn(m: Features) {
    m.torsoDrop > 0.35 * m.height
  }

  /** The weight of each check of `Checks`, in order. */
  const Weights: seq<nat> := [50, 50]

  /** Weights 50 and 50. */
  function Score(m: Features): (s: nat)
    ensures s == Points(Checks(m), Weights)
    ensures s <= 100
    ensures s >= AcclaimScore <==> RibcageLift(m) && StomachDrawIn(m)
    ensures s == 0 <==> !RibcageLift(m) && !StomachDrawIn(m)
  {
    (if RibcageLift(m) then 50 else 0) + (if StomachDrawIn(m) then 50 else 0)
  }

  function Checks(m: Features): seq<Check> {
    [Check(RibcageLift(m), RibcageCue), Check(StomachDrawIn(m), StomachCue)]
  }

  /** The lines of a frame with a person. */
  function Lines(m: Features): (r: seq<string>)
    ensures |r| >= 2 && r[0] == Header && r[1] == ScoreLine(Score(m))
    ensures RibcageCue in Feedback(r) <==> !RibcageLift(m)
    ensures StomachCue in Feedback(r) <==> !StomachDrawIn(m)
    ensures Praise in Feedback(r) <==> Score(m) >= AcclaimScore
    ensures Praise in Feedback(r) <==> RibcageLift(m) && StomachDrawIn(m)
    ensures Praise in Feedback(r) ==> Feedback(r) == [Praise]
    ensures Feedback(r) == When(!RibcageLift(m), RibcageCue) + When(!StomachDrawIn(m), StomachCue) + When(RibcageLift(m) && StomachDrawIn(m), Praise)
  {
    var cs := Checks(m);
    var tail := Acclaim(Score(m), Praise);
    assert cs[0].passed && cs[1].passed ==> AllPassed(cs);
    assert tail == Closing(cs, Praise);
    CueShownInLines(Header, ScoreLine(Score(m)), cs, tail, 0);
    CueShownInLines(Header, ScoreLine(Score(m)), cs, tail, 1);
    ClosingOfTwo(Header, ScoreLine(Score(m)), cs[0], cs[1], Praise);
    ClosingShownInLines(Header, ScoreLine(Score(m)), cs, Praise);
    Report.Lines(Header, ScoreLine(Score(m)), cs, tail)
  }

  /** `VacuumPoseRater.update`: the rater keeps no state. */
  function Rate(frame: Option<Frame>): (r: seq<string>)
    ensures frame.None? ==> r == [Header, NoPerson]
    ensures frame.Some? ==> r == Lines(Measure(frame.value))
  {
    match frame
    case None => [Header, NoPerson]
    case Some(f) => Lines(Measure(f))
  }

  /** On a frame of non-negative height the stomach threshold is the
      stricter one: it alone decides the closing line, the score takes only
      the values 0, 50 and 100, and the ribcage cue never appears without
      the stomach cue. */
  lemma StomachDecides(m: Features)
    requires m.height >= 0.0
    ensures StomachDrawIn(m) ==> RibcageLift(m)
    ensures Score(m) == 0 || Score(m) == 50 || Score(m) == 100
    ensures Praise in Feedback(Lines(m)) <==> StomachDrawIn(m)
    ensures RibcageCue in Feedback(Lines(m)) ==> StomachCue in Feedback(Lines(m))
  {
  }
}
