/** The Arnold pose rater: one arm overhead with the other flexed, level
    shoulders and flared elbows. */
module ArnoldPoseRater {
  import opened Wrappers
  import opened Geometry
  import opened Landmarks
  import opened Report
  import opened Scores

  const Header := "Mode: Pose - Arnold"
  const NoPerson := "No person detected. Step back and ensure upper body in frame."
  const ArmsCue := "Lift one arm overhead; flex the other across torso (~90-110\U{00B0})."
  const ShouldersCue := "Keep shoulders level for a clean look."
  const ElbowsCue := "Flare elbows slightly to enhance silhouette."
  const Praise := "Iconic! Great Arnold pose."

  datatype Features = Features(
    body: Body,
    leftAngle: real,      // shoulder-elbow-wrist, left arm
    rightAngle: real,
    leftTorso: real)      // left shoulder-to-hip length

  /** Reads both elbow angles and the left shoulder-to-hip length, beside the joints,
      as at src/pose_coach/poses/arnold_pose.py:25-58. */
  function Measure(f: Frame, g: Oracle): Features {
    var b := f.body;
    Features(
      b,
      g.angleAt(b.leftShoulder, b.leftElbow, b.leftWrist),
      g.angleAt(b.rightShoulder, b.rightElbow, b.rightWrist),
      g.norm(Sub(b.leftShoulder, b.leftHip)))
  }

  /** Elbow above the shoulder and wrist above the elbow (image y grows downward). */
  predicate LeftOverhead(m: Features) {
    m.body.leftElbow.y < m.body.leftShoulder.y && m.body.leftWrist.y < m.body.leftElbow.y
  }

  predicate RightOverhead(m: Features) {
    m.body.rightElbow.y < m.body.rightShoulder.y && m.body.rightWrist.y < m.body.rightElbow.y
  }

  predicate LeftFlexed(m: Features) {
    70.0 <= m.leftAngle <= 120.0
  }

  predicate RightFlexed(m: Features) {
    70.0 <= m.rightAngle <= 120.0
  }

  /** One arm overhead and the other one flexed, either way round. */
  predicate Configured(m: Features) {
    (LeftOverhead(m) && RightFlexed(m)) || (RightOverhead(m) && LeftFlexed(m))
  }

  /** A single arm that is both overhead and flexed. */
  predicate SameArm(m: Features) {
    (LeftOverhead(m) && LeftFlexed(m)) || (RightOverhead(m) && RightFlexed(m))
  }

  predicate ShouldersLevel(m: Features) {
    Abs(m.body.leftShoulder.y - m.body.rightShoulder.y) < 0.1 * m.leftTorso
  }

  /** Shoulder width plus the small epsilon that keeps it positive. */
  function TorsoWidth(m: Features): real {
    Abs(m.body.rightShoulder.x - m.body.leftShoulder.x) + Epsilon
  }

  predicate ElbowsOut(m: Features) {
    Abs(m.body.leftElbow.x - m.body.leftShoulder.x) > 0.3 * TorsoWidth(m)
    && Abs(m.body.rightElbow.x - m.body.rightShoulder.x) > 0.3 * TorsoWidth(m)
  }

  /** The points of the arm configuration: 70 for it, raised to at least 40
      for a same-arm attempt. */
  function Base(m: Features): (b: nat)
    ensures b == 70 <==> Configured(m)
    ensures b == 40 <==> !Configured(m) && SameArm(m)
    ensures b == 0 <==> !Configured(m) && !SameArm(m)
  {
    var base := if Configured(m) then 70 else 0;
    if SameArm(m) && base < 40 then 40 else base
  }

  /** The checks worth a bonus, each carrying the cue its failure shows. */
  function Bonus(m: Features): seq<Check> {
    [Check(ShouldersLevel(m), ShouldersCue), Check(ElbowsOut(m), ElbowsCue)]
  }

  /** The weight of each check of `Bonus`, in order. */
  const BonusWeights: seq<nat> := [15, 15]

  /** 70 for the configuration, at least 40 for a same-arm attempt, 15 each
      for level shoulders and flared elbows, capped at 100. */
  function Score(m: Features): (s: nat)
    ensures s == Capped(Base(m) + Points(Bonus(m), BonusWeights))
    ensures s <= 100
    ensures s >= AcclaimScore <==> Configured(m) && ShouldersLevel(m) && ElbowsOut(m)
    ensures !Configured(m) ==> s <= 70
    ensures !Configured(m) && !SameArm(m) ==> s <= 30
    ensures Configured(m) ==> s >= 70
    ensures SameArm(m) ==> s >= 40
  {
    var base := if Configured(m) then 70 else 0;
    var base := if SameArm(m) && base < 40 then 40 else base;
    var raw := base + (if ShouldersLevel(m) then 15 else 0) + (if ElbowsOut(m) then 15 else 0);
    if raw < 100 then raw else 100
  }

  function Checks(m: Features): seq<Check> {
    [Check(Configured(m), ArmsCue), Check(ShouldersLevel(m), ShouldersCue), Check(ElbowsOut(m), ElbowsCue)]
  }

  /** The lines of a frame with a person. */
  function Lines(m: Features): (r: seq<string>)
    ensures |r| >= 2 && r[0] == Header && r[1] == ScoreLine(Score(m))
    ensures ArmsCue in Feedback(r) <==> !Configured(m)
    ensures ShouldersCue in Feedback(r) <==> !ShouldersLevel(m)
    ensures ElbowsCue in Feedback(r) <==> !ElbowsOut(m)
    ensures Praise in Feedback(r) <==> Score(m) >= AcclaimScore
    ensures Praise in Feedback(r) <==> Configured(m) && ShouldersLevel(m) && ElbowsOut(m)
    ensures Praise in Feedback(r) ==> Feedback(r) == [Praise]
    ensures Feedback(r) == When(!Configured(m), ArmsCue) + When(!ShouldersLevel(m), ShouldersCue) + When(!ElbowsOut(m), ElbowsCue) + When(Configured(m) && ShouldersLevel(m) && ElbowsOut(m), Praise)
  {
    var cs := Checks(m);
    var tail := Acclaim(Score(m), Praise);
    assert cs[0].passed && cs[1].passed && cs[2].passed ==> AllPassed(cs);
    assert tail == Closing(cs, Praise);
    CueShownInLines(Header, ScoreLine(Score(m)), cs, tail, 0);
    CueShownInLines(Header, ScoreLine(Score(m)), cs, tail, 1);
    CueShownInLines(Header, ScoreLine(Score(m)), cs, tail, 2);
    ClosingOfThree(Header, ScoreLine(Score(m)), cs[0], cs[1], cs[2], Praise);
    ClosingShownInLines(Header, ScoreLine(Score(m)), cs, Praise);
    Report.Lines(Header, ScoreLine(Score(m)), cs, tail)
  }

  /** `ArnoldPoseRater.update`: the rater keeps no state. */
  function Rate(frame: Option<Frame>, g: Oracle): (r: seq<string>)
    ensures frame.None? ==> r == [Header, NoPerson]
    ensures frame.Some? ==> r == Lines(Measure(frame.value, g))
  {
    match frame
    case None => [Header, NoPerson]
    case Some(f) => Lines(Measure(f, g))
  }

  /** An arm that is overhead and flexed at once, with everything else in
      place, is worth exactly 70. */
  lemma SameArmAttempt(m: Features)
    requires SameArm(m) && !Configured(m) && ShouldersLevel(m) && ElbowsOut(m)
    ensures Score(m) == 70
    ensures ArmsCue in Feedback(Lines(m))
  {
  }
}
