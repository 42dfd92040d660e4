/** The moon pose rater: a side bend of the torso and one arm reaching
    above the other. */
module MoonPoseRater {
  import opened Wrappers
  import opened Geometry
  import opened Landmarks
  import opened Report
  import opened Scores

  const Header := "Mode: Pose - Moon Pose"
  const NoPerson := "No person detected."
  const TiltCue := "Add a side bend to highlight obliques."
  const ReachCue := "Reach with the upper arm to elongate the line."
  const Praise := "Beautiful moon pose! Hold the line."

  /** Only coordinates and the frame size are read. */
  datatype Features = Features(body: Body, height: real, width: real)

  /** Reads the shoulder, wrist and hip coordinates and the frame size,
      as at src/pose_coach/poses/moon_pose.py:22-30. */
  function Measure(f: Frame): Features {
    Features(f.body, f.height, f.width)
  }

  /** The shoulder midpoint is well off the hip midpoint horizontally. */
  predicate TorsoTilt(m: Features) {
    Abs(Mid(m.body.leftShoulder, m.body.rightShoulder).x - Mid(m.body.leftHip, m.body.rightHip).x) > 0.08 * m.width
  }

  predicate ArmReach(m: Features) {
    Abs(m.body.leftWrist.y - m.body.rightWrist.y) > 0.15 * m.height
  }

  /** The weight of each check of `Checks`, in order. */
  const Weights: seq<nat> := [50, 50]

  /** Weights 50 and 50. */
  function Score(m: Features): (s: nat)
    ensures s == Points(Checks(m), Weights)
    ensures s <= 100
    ensures s >= AcclaimScore <==> TorsoTilt(m) && ArmReach(m)
    ensures s == 0 <==> !TorsoTilt(m) && !ArmReach(m)
  {
    (if TorsoTilt(m) then 50 else 0) + (if ArmReach(m) then 50 else 0)
  }

  function Checks(m: Features): seq<Check> {
    [Check(TorsoTilt(m), TiltCue), Check(ArmReach(m), ReachCue)]
  }

  /** The lines of a frame with a person. */
  function Lines(m: Features): (r: seq<string>)
    ensures |r| >= 2 && r[0] == Header && r[1] == ScoreLine(Score(m))
    ensures TiltCue in Feedback(r) <==> !TorsoTilt(m)
    ensures ReachCue in Feedback(r) <==> !ArmReach(m)
    ensures Praise in Feedback(r) <==> Score(m) >= AcclaimScore
    ensures Praise in Feedback(r) <==> TorsoTilt(m) && ArmReach(m)
    ensures Praise in Feedback(r) ==> Feedback(r) == [Praise]
    ensures Feedback(r) == When(!TorsoTilt(m), TiltCue) + When(!ArmReach(m), ReachCue) + When(TorsoTilt(m) && ArmReach(m), Praise)
  {
    var cs := Checks(m);
    var tail := Acclaim(Score(m), Praise);
    assert cs[0].passed && cs[1].passed ==> AllPassed(cs);
    assert tail == Closing(cs, Praise);
    CueShownInLines(Header, ScoreLine(Score(m)), cs, tail, 0);
    CueShownInLines(Header, ScoreLine(Score(m)), cs, tail, 1);
    ClosingOfTwo(Header, ScoreLine(Score(m)), cs[0], cs[1], Praise);
    ClosingShownInLines(Header, ScoreLine(Score(m)), cs, Praise);
    Report.Lines(Header, ScoreLine(Score(m)), cs, tail)
  }

  /** `MoonPoseRater.update`: the rater keeps no state. */
  function Rate(frame: Option<Frame>): (r: seq<string>)
    ensures frame.None? ==> r == [Header, NoPerson]
    ensures frame.Some? ==> r == Lines(Measure(frame.value))
  {
    match frame
    case None => [Header, NoPerson]
    case Some(f) => Lines(Measure(f))
  }

  /** The upright stance that the quarter turns rater rewards can never
      show a moon pose tilt: the bands do not overlap on a frame of
      non-negative width. */
  lemma UprightIsNotTilted(m: Features)
    requires m.width >= 0.0
    requires Abs(Mid(m.body.leftShoulder, m.body.rightShoulder).x - Mid(m.body.leftHip, m.body.rightHip).x) < 0.06 * m.width
    ensures TiltCue in Feedback(Lines(m))
  {
  }
}
