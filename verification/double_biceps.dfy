/** The double biceps rater: elbow height and flexion on each arm plus the
    left/right spread symmetry. Its weights add up to more than 100 and the
    score is capped, and its closing line asks for every check rather than
    for a score threshold. */
module DoubleBicepsRater {
  import opened Wrappers
  import opened Geometry
  import opened Landmarks
  import opened Report
  import opened Scores

  const Header := "Mode: Pose - Double Biceps"
  const NoPerson := "No person detected. Step back and ensure upper body in frame."
  const LevelCue := "Lift elbows to shoulder height."
  /** The degree sign of this cue is stored as two characters, a UTF-8
      encoding read back as Latin-1; it is kept that way. */
  const FlexCue := "Flex elbows ~90-110\U{00C2}\U{00B0} and squeeze biceps."
  const SymmetryCue := "Match left/right spread for symmetry."
  const Praise := "Great pose! Hold and breathe."

  datatype Features = Features(
    leftAngle: real,      // shoulder-elbow-wrist, left arm
    rightAngle: real,
    leftRise: Distance,   // vertical elbow-to-shoulder distance
    rightRise: Distance,
    leftTorso: real,      // shoulder-to-hip length on the same side
    rightTorso: real,
    leftSpan: Distance,   // horizontal elbow-to-shoulder distance
    rightSpan: Distance)

  /** Reads both elbow angles, both torso lengths and both elbow spans,
      as at src/pose_coach/poses/double_biceps.py:25-45. */
  function Measure(f: Frame, g: Oracle): Features {
    var b := f.body;
    Features(
      g.angleAt(b.leftShoulder, b.leftElbow, b.leftWrist),
      g.angleAt(b.rightShoulder, b.rightElbow, b.rightWrist),
      Abs(b.leftElbow.y - b.leftShoulder.y), Abs(b.rightElbow.y - b.rightShoulder.y),
      g.norm(Sub(b.leftShoulder, b.leftHip)), g.norm(Sub(b.rightShoulder, b.rightHip)),
      Abs(b.leftElbow.x - b.leftShoulder.x), Abs(b.rightElbow.x - b.rightShoulder.x))
  }

  predicate LeftLevel(m: Features) {
    m.leftRise < 0.12 * m.leftTorso
  }

  predicate RightLevel(m: Features) {
    m.rightRise < 0.12 * m.rightTorso
  }

  predicate LeftFlexed(m: Features) {
    70.0 <= m.leftAngle <= 120.0
  }

  predicate RightFlexed(m: Features) {
    70.0 <= m.rightAngle <= 120.0
  }

  /** The spans differ by less than a quarter of their mean, the mean being
      taken as at least one pixel. */
  predicate Symmetric(m: Features) {
    Abs(m.leftSpan - m.rightSpan) / Max(1.0, (m.leftSpan + m.rightSpan) / 2.0) < 0.25
  }

  /** The scored checks: each arm's level and flexion on its own, sharing
      the cue of the check they feed. */
  function Scored(m: Features): seq<Check> {
    [Check(LeftLevel(m), LevelCue), Check(RightLevel(m), LevelCue),
     Check(LeftFlexed(m), FlexCue), Check(RightFlexed(m), FlexCue),
     Check(Symmetric(m), SymmetryCue)]
  }

  /** The weight of each check of `Scored`, in order; they add up to 110. */
  const Weights: seq<nat> := [25, 25, 25, 25, 10]

  /** Each level and flexion check is worth 25 and symmetry 10, capped at 100:
      the four arm checks alone reach full marks. */
  function Score(m: Features): (s: nat)
    ensures s == Capped(Points(Scored(m), Weights))
    ensures s <= 100
    ensures s == 100 <==> LeftLevel(m) && RightLevel(m) && LeftFlexed(m) && RightFlexed(m)
    ensures s >= AcclaimScore <==> s == 100
    ensures s == 0 <==> !LeftLevel(m) && !RightLevel(m) && !LeftFlexed(m) && !RightFlexed(m) && !Symmetric(m)
  {
    PointsAppend(Scored(m)[..2], Weights[..2], Scored(m)[2..], Weights[2..]);
    PointsOfTwo(Scored(m)[0], Scored(m)[1], Weights[0], Weights[1]);
    PointsOfThree(Scored(m)[2], Scored(m)[3], Scored(m)[4], Weights[2], Weights[3], Weights[4]);
    assert Scored(m)[..2] == [Scored(m)[0], Scored(m)[1]] && Weights[..2] == [Weights[0], Weights[1]];
    assert Scored(m)[2..] == [Scored(m)[2], Scored(m)[3], Scored(m)[4]] && Weights[2..] == [Weights[2], Weights[3], Weights[4]];
    assert Scored(m)[..2] + Scored(m)[2..] == Scored(m);
    assert Weights[..2] + Weights[2..] == Weights;
    var raw := (if LeftLevel(m) then 25 else 0) + (if RightLevel(m) then 25 else 0)
      + (if LeftFlexed(m) then 25 else 0) + (if RightFlexed(m) then 25 else 0)
      + (if Symmetric(m) then 10 else 0);
    if raw < 100 then raw else 100
  }

  function Checks(m: Features): seq<Check> {
    [Check(LeftLevel(m) && RightLevel(m), LevelCue),
     Check(LeftFlexed(m) && RightFlexed(m), FlexCue),
     Check(Symmetric(m), SymmetryCue)]
  }

  /** The lines of a frame with a person. */
  function Lines(m: Features): (r: seq<string>)
    ensures |r| >= 2 && r[0] == Header && r[1] == ScoreLine(Score(m))
    ensures LevelCue in Feedback(r) <==> !LeftLevel(m) || !RightLevel(m)
    ensures FlexCue in Feedback(r) <==> !LeftFlexed(m) || !RightFlexed(m)
    ensures SymmetryCue in Feedback(r) <==> !Symmetric(m)
    ensures Praise in Feedback(r) <==> LeftLevel(m) && RightLevel(m) && LeftFlexed(m) && RightFlexed(m) && Symmetric(m)
    ensures Praise in Feedback(r) ==> Feedback(r) == [Praise]
    ensures Feedback(r) == When(!(LeftLevel(m) && RightLevel(m)), LevelCue) + When(!(LeftFlexed(m) && RightFlexed(m)), FlexCue) + When(!Symmetric(m), SymmetryCue) + When(LeftLevel(m) && RightLevel(m) && LeftFlexed(m) && RightFlexed(m) && Symmetric(m), Praise)
  {
    var cs := Checks(m);
    var status := ScoreLine(Score(m));
    var tail := Closing(cs, Praise);
    CueShownInLines(Header, status, cs, tail, 0);
    CueShownInLines(Header, status, cs, tail, 1);
    CueShownInLines(Header, status, cs, tail, 2);
    ClosingOfThree(Header, status, cs[0], cs[1], cs[2], Praise);
    ClosingShownInLines(Header, status, cs, Praise);
    Report.Lines(Header, status, cs, tail)
  }

  /** `DoubleBicepsRater.update`: the rater keeps no state. */
  function Rate(frame: Option<Frame>, g: Oracle): (r: seq<string>)
    ensures frame.None? ==> r == [Header, NoPerson]
    ensures frame.Some? ==> r == Lines(Measure(frame.value, g))
  {
    match frame
    case None => [Header, NoPerson]
    case Some(f) => Lines(Measure(f, g))
  }

  /** Full marks do not earn the closing line: an asymmetric spread scores
      100 and still shows the symmetry cue instead of the praise. */
  lemma FullMarksWithoutPraise(m: Features)
    requires LeftLevel(m) && RightLevel(m) && LeftFlexed(m) && RightFlexed(m) && !Symmetric(m)
    ensures Score(m) == 100
    ensures Praise !in Feedback(Lines(m)) && SymmetryCue in Feedback(Lines(m))
  {
  }

  /** From a perfect pose, dropping one elbow below the shoulder band costs
      25 of the 110 raw points: the score falls from 100 to 85. */
  lemma OneElbowDropped(m: Features)
    requires !LeftLevel(m) && RightLevel(m) && LeftFlexed(m) && RightFlexed(m) && Symmetric(m)
    ensures Score(m) == 85
    ensures LevelCue in Feedback(Lines(m)) && Praise !in Feedback(Lines(m))
  {
  }
}
