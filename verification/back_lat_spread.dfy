/** The rear lat spread rater: both elbows flared beyond the shoulders and
    the hips level. */
module RearLatSpreadRater {
  import opened Wrappers
  import opened Geometry
  import opened Landmarks
  import opened Report
  import opened Scores

  const Header := "Mode: Pose - Rear Lat Spread"
  const NoPerson := "No person detected."
  const FlareCue := "Flare elbows and spread the back wide."
  const HipsCue := "Level hips; avoid twisting."
  const Praise := "Great rear spread! Hold tight."

  /** Only coordinates and the frame height are read. */
  datatype Features = Features(body: Body, height: real)

  /** Reads the shoulder, elbow and hip coordinates and the frame height,
      as at src/pose_coach/poses/back_lat_spread.py:22-32. */
  function Measure(f: Frame): Features {
    Features(f.body, f.height)
  }

  function ShoulderWidth(m: Features): Distance {
    Abs(m.body.rightShoulder.x - m.body.leftShoulder.x)
  }

  predicate LeftFlare(m: Features) {
    Abs(m.body.leftElbow.x - m.body.leftShoulder.x) > 0.4 * ShoulderWidth(m)
  }

  predicate RightFlare(m: Features) {
    Abs(m.body.rightElbow.x - m.body.rightShoulder.x) > 0.4 * ShoulderWidth(m)
  }

  predicate HipsLevel(m: Features) {
    Abs(m.body.leftHip.y - m.body.rightHip.y) < 0.05 * m.height
  }

  /** The scored checks: each elbow's flare on its own, sharing one cue. */
  function Scored(m: Features): seq<Check> {
    [Check(LeftFlare(m), FlareCue), Check(RightFlare(m), FlareCue), Check(HipsLevel(m), HipsCue)]
  }

  /** The weight of each check of `Scored`, in order. */
  const Weights: seq<nat> := [30, 30, 40]

  /** Weights 30, 30 and 40: any failed check costs at least 30 points. */
  function Score(m: Features): (s: nat)
    ensures s == Points(Scored(m), Weights)
    ensures s <= 100
    ensures s >= AcclaimScore <==> LeftFlare(m) && RightFlare(m) && HipsLevel(m)
    ensures s == 0 <==> !LeftFlare(m) && !RightFlare(m) && !HipsLevel(m)
  {
    PointsOfThree(Scored(m)[0], Scored(m)[1], Scored(m)[2], Weights[0], Weights[1], Weights[2]);
    (if LeftFlare(m) then 30 else 0) + (if RightFlare(m) then 30 else 0) + (if HipsLevel(m) then 40 else 0)
  }

  /** One cue covers either elbow not flaring. */
  function Checks(m: Features): seq<Check> {
    [Check(LeftFlare(m) && RightFlare(m), FlareCue), Check(HipsLevel(m), HipsCue)]
  }

  /** The lines of a frame with a person. */
  function Lines(m: Features): (r: seq<string>)
    ensures |r| >= 2 && r[0] == Header && r[1] == ScoreLine(Score(m))
    ensures FlareCue in Feedback(r) <==> !LeftFlare(m) || !RightFlare(m)
    ensures HipsCue in Feedback(r) <==> !HipsLevel(m)
    ensures Praise in Feedback(r) <==> Score(m) >= AcclaimScore
    ensures Praise in Feedback(r) <==> LeftFlare(m) && RightFlare(m) && HipsLevel(m)
    ensures Praise in Feedback(r) ==> Feedback(r) == [Praise]
    ensures Feedback(r) == When(!(LeftFlare(m) && RightFlare(m)), FlareCue) + When(!HipsLevel(m), HipsCue) + When(LeftFlare(m) && RightFlare(m) && HipsLevel(m), Praise)
  {
    var cs := Checks(m);
    var tail := Acclaim(Score(m), Praise);
    assert cs[0].passed && cs[1].passed ==> AllPassed(cs);
    assert tail == Closing(cs, Praise);
    CueShownInLines(Header, ScoreLine(Score(m)), cs, tail, 0);
    CueShownInLines(Header, ScoreLine(Score(m)), cs, tail, 1);
    ClosingOfTwo(Header, ScoreLine(Score(m)), cs[0], cs[1], Praise);
    ClosingShownInLines(Header, ScoreLine(Score(m)), cs, Praise);
    Report.Lines(Header, ScoreLine(Score(m)), cs, tail)
  }

  /** `RearLatSpreadRater.update`: the rater keeps no state. */
  function Rate(frame: Option<Frame>): (r: seq<string>)
    ensures frame.None? ==> r == [Header, NoPerson]
    ensures frame.Some? ==> r == Lines(Measure(frame.value))
  {
    match frame
    case None => [Header, NoPerson]
    case Some(f) => Lines(Measure(f))
  }
}
