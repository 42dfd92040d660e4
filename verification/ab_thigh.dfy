/** The abdominals-and-thighs rater: flared elbows, locked knees, level hips. */
module AbdominalsAndThighsRater {
  import opened Wrappers
  import opened Geometry
  import opened Landmarks
  import opened Report
  import opened Scores

  const Header := "Mode: Pose - Abdominals and Thighs"
  const NoPerson := "No person detected."
  const ElbowsCue := "Flare elbows to frame the abs."
  const KneesCue := "Flex quads and lock knees gently."
  const HipsCue := "Square hips to the front."
  const Praise := "Sharp abs and thigh pose! Hold steady."

  /** Only coordinates and the frame height are read. */
  datatype Features = Features(body: Body, height: real)

  /** Reads the shoulder, elbow, hip and knee coordinates and the frame height,
      as at src/pose_coach/poses/ab_thigh.py:25-36. */
  function Measure(f: Frame): Features {
    Features(f.body, f.height)
  }

  function ShoulderWidth(m: Features): Distance {
    Abs(m.body.rightShoulder.x - m.body.leftShoulder.x)
  }

  predicate ElbowsOut(m: Features) {
    Abs(m.body.leftElbow.x - m.body.leftShoulder.x) > 0.2 * ShoulderWidth(m)
    && Abs(m.body.rightElbow.x - m.body.rightShoulder.x) > 0.2 * ShoulderWidth(m)
  }

  predicate KneesLocked(m: Features) {
    Abs(m.body.leftKnee.y - m.body.rightKnee.y) < 0.05 * m.height
  }

  predicate HipsLevel(m: Features) {
    Abs(m.body.leftHip.y - m.body.rightHip.y) < 0.05 * m.height
  }

  /** The weight of each check of `Checks`, in order. */
  const Weights: seq<nat> := [35, 30, 35]

  /** Weights 35, 30 and 35: any failed check costs at least 30 points. */
  function Score(m: Features): (s: nat)
    ensures s == Points(Checks(m), Weights)
    ensures s <= 100
    ensures s >= AcclaimScore <==> ElbowsOut(m) && KneesLocked(m) && HipsLevel(m)
    ensures s == 0 <==> !ElbowsOut(m) && !KneesLocked(m) && !HipsLevel(m)
  {
    PointsOfThree(Checks(m)[0], Checks(m)[1], Checks(m)[2], Weights[0], Weights[1], Weights[2]);
    (if ElbowsOut(m) then 35 else 0) + (if KneesLocked(m) then 30 else 0) + (if HipsLevel(m) then 35 else 0)
  }

  function Checks(m: Features): seq<Check> {
    [Check(ElbowsOut(m), ElbowsCue), Check(KneesLocked(m), KneesCue), Check(HipsLevel(m), HipsCue)]
  }

  /** The lines of a frame with a person. */
  function Lines(m: Features): (r: seq<string>)
    ensures |r| >= 2 && r[0] == Header && r[1] == ScoreLine(Score(m))
    ensures ElbowsCue in Feedback(r) <==> !ElbowsOut(m)
    ensures KneesCue in Feedback(r) <==> !KneesLocked(m)
    ensures HipsCue in Feedback(r) <==> !HipsLevel(m)
    ensures Praise in Feedback(r) <==> Score(m) >= AcclaimScore
    ensures Praise in Feedback(r) <==> ElbowsOut(m) && KneesLocked(m) && HipsLevel(m)
    ensures Praise in Feedback(r) ==> Feedback(r) == [Praise]
    ensures Feedback(r) == When(!ElbowsOut(m), ElbowsCue) + When(!KneesLocked(m), KneesCue) + When(!HipsLevel(m), HipsCue) + When(ElbowsOut(m) && KneesLocked(m) && HipsLevel(m), Praise)
  {
    var cs := Checks(m);
    var tail := Acclaim(Score(m), Praise);
    assert cs[0].passed && cs[1].passed && cs[2].passed ==> AllPassed(cs);
    assert tail == Closing(cs, Praise);
    CueShownInLines(Header, ScoreLine(Score(m)), cs, tail, 0);
    CueShownInLines(Header, ScoreLine(Score(m)), cs, tail, 1);
    CueShownInLines(Header, ScoreLine(Score(m)), cs, tail, 2);
    ClosingOfThree(Header, ScoreLine(Score(m)), cs[0], cs[1], cs[2], Praise);
    ClosingShownInLines(Header, ScoreLine(Score(m)), cs, Praise);
    Report.Lines(Header, ScoreLine(Score(m)), cs, tail)
  }

  /** `AbdominalsAndThighsRater.update`: the rater keeps no state. */
  function Rate(frame: Option<Frame>): (r: seq<string>)
    ensures frame.None? ==> r == [Header, NoPerson]
    ensures frame.Some? ==> r == Lines(Measure(frame.value))
  {
    match frame
    case None => [Header, NoPerson]
    case Some(f) => Lines(Measure(f))
  }
}
