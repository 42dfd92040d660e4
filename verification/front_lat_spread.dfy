/** The front lat spread rater: both elbows flared beyond the shoulders and
    held at the same height. */
module FrontLatSpreadRater {
  import opened Wrappers
  import opened Geometry
  import opened Landmarks
  import opened Report
  import opened Scores

  const Header := "Mode: Pose - Front Lat Spread"
  const NoPerson := "No person detected."
  const FlareCue := "Flare elbows to widen lats."
  const LevelCue := "Keep elbows at even height."
  const Praise := "Impressive width! Hold the spread."

  /** Only coordinates and the frame height are read. */
  datatype Features = Features(body: Body, height: real)

  /** Reads the shoulder and elbow coordinates and the frame height,
      as at src/pose_coach/poses/front_lat_spread.py:24-34. */
  function Measure(f: Frame): Features {
    Features(f.body, f.height)
  }

  function ShoulderWidth(m: Features): Distance {
    Abs(m.body.rightShoulder.x - m.body.leftShoulder.x)
  }

  predicate LeftFlare(m: Features) {
    Abs(m.body.leftElbow.x - m.body.leftShoulder.x) > 0.4 * ShoulderWidth(m)
  }

  predicate RightFlare(m: Features) {
    Abs(m.body.rightElbow.x - m.body.rightShoulder.x) > 0.4 * ShoulderWidth(m)
  }

  predicate ElbowsLevel(m: Features) {
    Abs(m.body.leftElbow.y - m.body.rightElbow.y) < 0.08 * m.height
  }

  /** The scored checks: each elbow's flare on its own, sharing one cue. */
  function Scored(m: Features): seq<Check> {
    [Check(LeftFlare(m), FlareCue), Check(RightFlare(m), FlareCue), Check(ElbowsLevel(m), LevelCue)]
  }

  /** The weight of each check of `Scored`, in order. */
  const Weights: seq<nat> := [30, 30, 40]

  /** Weights 30, 30 and 40: any failed check costs at least 30 points. */
  function Score(m: Features): (s: nat)
    ensures s == Points(Scored(m), Weights)
    ensures s <= 100
    ensures s >= AcclaimScore <==> LeftFlare(m) && RightFlare(m) && ElbowsLevel(m)
    ensures s == 0 <==> !LeftFlare(m) && !RightFlare(m) && !ElbowsLevel(m)
  {
    PointsOfThree(Scored(m)[0], Scored(m)[1], Scored(m)[2], Weights[0], Weights[1], Weights[2]);
    (if LeftFlare(m) then 30 else 0) + (if RightFlare(m) then 30 else 0) + (if ElbowsLevel(m) then 40 else 0)
  }

  /** One cue covers either elbow not flaring. */
  function Checks(m: Features): seq<Check> {
    [Check(LeftFlare(m) && RightFlare(m), FlareCue), Check(ElbowsLevel(m), LevelCue)]
  }

  /** The lines of a frame with a person. */
  function Lines(m: Features): (r: seq<string>)
    ensures |r| >= 2 && r[0] == Header && r[1] == ScoreLine(Score(m))
    ensures FlareCue in Feedback(r) <==> !LeftFlare(m) || !RightFlare(m)
    ensures LevelCue in Feedback(r) <==> !ElbowsLevel(m)
    ensures Praise in Feedback(r) <==> Score(m) >= AcclaimScore
    ensures Praise in Feedback(r) <==> LeftFlare(m) && RightFlare(m) && ElbowsLevel(m)
    ensures Praise in Feedback(r) ==> Feedback(r) == [Praise]
    ensures Feedback(r) == When(!(LeftFlare(m) && RightFlare(m)), FlareCue) + When(!ElbowsLevel(m), LevelCue) + When(LeftFlare(m) && RightFlare(m) && ElbowsLevel(m), Praise)
  {
    var cs := Checks(m);
    var tail := Acclaim(Score(m), Praise);
    assert cs[0].passed && cs[1].passed ==> AllPassed(cs);
    assert tail == Closing(cs, Praise);
    CueShownInLines(Header, ScoreLine(Score(m)), cs, tail, 0);
    CueShownInLines(Header, ScoreLine(Score(m)), cs, tail, 1);
    ClosingOfTwo(Header, ScoreLine(Score(m)), cs[0], cs[1], Praise);
    ClosingShownInLines(Header, ScoreLine(Score(m)), cs, Praise);
    Report.Lines(Header, ScoreLine(Score(m)), cs, tail)
  }

  /** `FrontLatSpreadRater.update`: the rater keeps no state. */
  function Rate(frame: Option<Frame>): (r: seq<string>)
    ensures frame.None? ==> r == [Header, NoPerson]
    ensures frame.Some? ==> r == Lines(Measure(frame.value))
  {
    match frame
    case None => [Header, NoPerson]
    case Some(f) => Lines(Measure(f))
  }

  /** With the shoulders at one x coordinate every elbow off that line
      flares. */
  lemma CollapsedShouldersFlare(m: Features)
    requires m.body.leftShoulder.x == m.body.rightShoulder.x
    requires m.body.leftElbow.x != m.body.leftShoulder.x && m.body.rightElbow.x != m.body.rightShoulder.x
    ensures FlareCue !in Feedback(Lines(m))
  {
  }
}
