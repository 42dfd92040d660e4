/** The side chest rater: both arms flexed, chest lifted above the hips. */
module SideChestRater {
  import opened Wrappers
  import opened Geometry
  import opened Landmarks
  import opened Report
  import opened Scores

  const Header := "Mode: Pose - Side Chest"
  const NoPerson := "No person detected."
  const FlexCue := "Flex arms to frame the chest (~90-110\U{00B0})."
  const ChestCue := "Lift chest and retract scapula."
  const Praise := "Classic side chest! Hold and smile."

  datatype Features = Features(
    leftAngle: real,      // shoulder-elbow-wrist, left arm
    rightAngle: real,
    shoulderY: real,      // shoulder midpoint height
    hipY: real,           // hip midpoint height
    height: real)

  /** Reads both elbow angles, the shoulder and hip heights and the frame height,
      as at src/pose_coach/poses/side_chest.py:25-37. */
  function Measure(f: Frame, g: Oracle): Features {
    var b := f.body;
    Features(
      g.angleAt(b.leftShoulder, b.leftElbow, b.leftWrist),
      g.angleAt(b.rightShoulder, b.rightElbow, b.rightWrist),
      Mid(b.leftShoulder, b.rightShoulder).y,
      Mid(b.leftHip, b.rightHip).y,
      f.height)
  }

  predicate ArmsFlexed(m: Features) {
    70.0 <= m.leftAngle <= 120.0 && 70.0 <= m.rightAngle <= 120.0
  }

  predicate ChestUp(m: Features) {
    m.shoulderY < m.hipY - 0.08 * m.height
  }

  /** The weight of each check of `Checks`, in order. */
  const Weights: seq<nat> := [60, 40]

  /** Weights 60 and 40. */
  function Score(m: Features): (s: nat)
    ensures s == Points(Checks(m), Weights)
    ensures s <= 100
    ensures s >= AcclaimScore <==> ArmsFlexed(m) && ChestUp(m)
    ensures s == 0 <==> !ArmsFlexed(m) && !ChestUp(m)
  {
    (if ArmsFlexed(m) then 60 else 0) + (if ChestUp(m) then 40 else 0)
  }

  function Checks(m: Features): seq<Check> {
    [Check(ArmsFlexed(m), FlexCue), Check(ChestUp(m), ChestCue)]
  }

  /** The lines of a frame with a person. */
  function Lines(m: Features): (r: seq<string>)
    ensures |r| >= 2 && r[0] == Header && r[1] == ScoreLine(Score(m))
    ensures FlexCue in Feedback(r) <==> !ArmsFlexed(m)
    ensures ChestCue in Feedback(r) <==> !ChestUp(m)
    ensures Praise in Feedback(r) <==> Score(m) >= AcclaimScore
    ensures Praise in Feedback(r) <==> ArmsFlexed(m) && ChestUp(m)
    ensures Praise in Feedback(r) ==> Feedback(r) == [Praise]
    ensures Feedback(r) == When(!ArmsFlexed(m), FlexCue) + When(!ChestUp(m), ChestCue) + When(ArmsFlexed(m) && ChestUp(m), Praise)
  {
    var cs := Checks(m);
    var tail := Acclaim(Score(m), Praise);
    assert cs[0].passed && cs[1].passed ==> AllPassed(cs);
    assert tail == Closing(cs, Praise);
    CueShownInLines(Header, ScoreLine(Score(m)), cs, tail, 0);
    CueShownInLines(Header, ScoreLine(Score(m)), cs, tail, 1);
    ClosingOfTwo(Header, ScoreLine(Score(m)), cs[0], cs[1], Praise);
    ClosingShownInLines(Header, ScoreLine(Score(m)), cs, Praise);
    Report.Lines(Header, ScoreLine(Score(m)), cs, tail)
  }

  /** `SideChestRater.update`: the rater keeps no state. */
  function Rate(frame: Option<Frame>, g: Oracle): (r: seq<string>)
    ensures frame.None? ==> r == [Header, NoPerson]
    ensures frame.Some? ==> r == Lines(Measure(frame.value, g))
  {
    match frame
    case None => [Header, NoPerson]
    case Some(f) => Lines(Measure(f, g))
  }
}
