/** The side triceps rater: one arm extended, elbows close to the torso. */
module SideTricepsRater {
  import opened Wrappers
  import opened Geometry
  import opened Landmarks
  import opened Report
  import opened Scores

  const Header := "Mode: Pose - Side Triceps"
  const NoPerson := "No person detected."
  const ExtendCue := "Extend the arm to showcase triceps definition."
  const ElbowCue := "Keep elbow close to torso for a tight pose."
  const Praise := "Sharp side triceps! Hold steady."

  datatype Features = Features(
    leftAngle: real,      // shoulder-elbow-wrist, left arm
    rightAngle: real,
    elbowOffset: Distance,  // horizontal distance of the elbow midpoint from the shoulder midpoint
    width: real)

  /** Reads both elbow angles, the elbow and shoulder positions and the frame width,
      as at src/pose_coach/poses/side_triceps.py:25-37. */
  function Measure(f: Frame, g: Oracle): Features {
    var b := f.body;
    Features(
      g.angleAt(b.leftShoulder, b.leftElbow, b.leftWrist),
      g.angleAt(b.rightShoulder, b.rightElbow, b.rightWrist),
      Abs(Mid(b.leftElbow, b.rightElbow).x - Mid(b.leftShoulder, b.rightShoulder).x),
      f.width)
  }

  /** Either arm is enough. */
  predicate Extended(m: Features) {
    m.leftAngle > 150.0 || m.rightAngle > 150.0
  }

  predicate ElbowNearTorso(m: Features) {
    m.elbowOffset < 0.12 * m.width
  }

  /** The weight of each check of `Checks`, in order. */
  const Weights: seq<nat> := [60, 40]

  /** Weights 60 and 40. */
  function Score(m: Features): (s: nat)
    ensures s == Points(Checks(m), Weights)
    ensures s <= 100
    ensures s >= AcclaimScore <==> Extended(m) && ElbowNearTorso(m)
    ensures s == 0 <==> !Extended(m) && !ElbowNearTorso(m)
  {
    (if Extended(m) then 60 else 0) + (if ElbowNearTorso(m) then 40 else 0)
  }

  function Checks(m: Features): seq<Check> {
    [Check(Extended(m), ExtendCue), Check(ElbowNearTorso(m), ElbowCue)]
  }

  /** The lines of a frame with a person. */
  function Lines(m: Features): (r: seq<string>)
    ensures |r| >= 2 && r[0] == Header && r[1] == ScoreLine(Score(m))
    ensures ExtendCue in Feedback(r) <==> m.leftAngle <= 150.0 && m.rightAngle <= 150.0
    ensures ElbowCue in Feedback(r) <==> !ElbowNearTorso(m)
    ensures Praise in Feedback(r) <==> Score(m) >= AcclaimScore
    ensures Praise in Feedback(r) <==> Extended(m) && ElbowNearTorso(m)
    ensures Praise in Feedback(r) ==> Feedback(r) == [Praise]
    ensures Feedback(r) == When(!Extended(m), ExtendCue) + When(!ElbowNearTorso(m), ElbowCue) + When(Extended(m) && ElbowNearTorso(m), Praise)
  {
    var cs := Checks(m);
    var tail := Acclaim(Score(m), Praise);
    assert cs[0].passed && cs[1].passed ==> AllPassed(cs);
    assert tail == Closing(cs, Praise);
    CueShownInLines(Header, ScoreLine(Score(m)), cs, tail, 0);
    CueShownInLines(Header, ScoreLine(Score(m)), cs, tail, 1);
    ClosingOfTwo(Header, ScoreLine(Score(m)), cs[0], cs[1], Praise);
    ClosingShownInLines(Header, ScoreLine(Score(m)), cs, Praise);
    Report.Lines(Header, ScoreLine(Score(m)), cs, tail)
  }

  /** `SideTricepsRater.update`: the rater keeps no state. */
  function Rate(frame: Option<Frame>, g: Oracle): (r: seq<string>)
    ensures frame.None? ==> r == [Header, NoPerson]
    ensures frame.Some? ==> r == Lines(Measure(frame.value, g))
  {
    match frame
    case None => [Header, NoPerson]
    case Some(f) => Lines(Measure(f, g))
  }
}
