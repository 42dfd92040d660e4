/** The quarter turns rater: level shoulders, level hips, upright torso. */
module QuarterTurnsRater {
  import opened Wrappers
  import opened Geometry
  import opened Landmarks
  import opened Report
  import opened Scores

  const Header := "Mode: Pose - Quarter Turns"
  const NoPerson := "No person detected."
  const ShouldersCue := "Level your shoulders."
  const HipsCue := "Square and level hips."
  const UprightCue := "Stand tall; avoid leaning."
  const Praise := "Clean quarter turn. Hold steady."

  /** Only coordinates and the frame size are read. */
  datatype Features = Features(body: Body, height: real, width: real)

  /** Reads the shoulder and hip coordinates and the frame size,
      as at src/pose_coach/poses/quarter_turns.py:20-27. */
  function Measure(f: Frame): Features {
    Features(f.body, f.height, f.width)
  }

  predicate ShouldersLevel(m: Features) {
    Abs(m.body.leftShoulder.y - m.body.rightShoulder.y) < 0.05 * m.height
  }

  predicate HipsLevel(m: Features) {
    Abs(m.body.leftHip.y - m.body.rightHip.y) < 0.05 * m.height
  }

  /** The shoulder midpoint is nearly above the hip midpoint. */
  predicate Upright(m: Features) {
    Abs(Mid(m.body.leftShoulder, m.body.rightShoulder).x - Mid(m.body.leftHip, m.body.rightHip).x) < 0.06 * m.width
  }

  /** The weight of each check of `Checks`, in order. */
  const Weights: seq<nat> := [35, 35, 30]

  /** Weights 35, 35 and 30: any failed check costs at least 30 points. */
  function Score(m: Features): (s: nat)
    ensures s == Points(Checks(m), Weights)
    ensures s <= 100
    ensures s >= AcclaimScore <==> ShouldersLevel(m) && HipsLevel(m) && Upright(m)
    ensures s == 0 <==> !ShouldersLevel(m) && !HipsLevel(m) && !Upright(m)
  {
    PointsOfThree(Checks(m)[0], Checks(m)[1], Checks(m)[2], Weights[0], Weights[1], Weights[2]);
    (if ShouldersLevel(m) then 35 else 0) + (if HipsLevel(m) then 35 else 0) + (if Upright(m) then 30 else 0)
  }

  function Checks(m: Features): seq<Check> {
    [Check(ShouldersLevel(m), ShouldersCue), Check(HipsLevel(m), HipsCue), Check(Upright(m), UprightCue)]
  }

  /** The lines of a frame with a person. */
  function Lines(m: Features): (r: seq<string>)
    ensures |r| >= 2 && r[0] == Header && r[1] == ScoreLine(Score(m))
    ensures ShouldersCue in Feedback(r) <==> !ShouldersLevel(m)
    ensures HipsCue in Feedback(r) <==> !HipsLevel(m)
    ensures UprightCue in Feedback(r) <==> !Upright(m)
    ensures Praise in Feedback(r) <==> Score(m) >= AcclaimScore
    ensures Praise in Feedback(r) <==> ShouldersLevel(m) && HipsLevel(m) && Upright(m)
    ensures Praise in Feedback(r) ==> Feedback(r) == [Praise]
    ensures Feedback(r) == When(!ShouldersLevel(m), ShouldersCue) + When(!HipsLevel(m), HipsCue) + When(!Upright(m), UprightCue) + When(ShouldersLevel(m) && HipsLevel(m) && Upright(m), Praise)
  {
    var cs := Checks(m);
    var tail := Acclaim(Score(m), Praise);
    assert cs[0].passed && cs[1].passed && cs[2].passed ==> AllPassed(cs);
    assert tail == Closing(cs, Praise);
    CueShownInLines(Header, ScoreLine(Score(m)), cs, tail, 0);
    CueShownInLines(Header, ScoreLine(Score(m)), cs, tail, 1);
    CueShownInLines(Header, ScoreLine(Score(m)), cs, tail, 2);
    ClosingOfThree(Header, ScoreLine(Score(m)), cs[0], cs[1], cs[2], Praise);
    ClosingShownInLines(Header, ScoreLine(Score(m)), cs, Praise);
    Report.Lines(Header, ScoreLine(Score(m)), cs, tail)
  }

  /** `QuarterTurnsRater.update`: the rater keeps no state. */
  function Rate(frame: Option<Frame>): (r: seq<string>)
    ensures frame.None? ==> r == [Header, NoPerson]
    ensures frame.Some? ==> r == Lines(Measure(frame.value))
  {
    match frame
    case None => [Header, NoPerson]
    case Some(f) => Lines(Measure(f))
  }
}
