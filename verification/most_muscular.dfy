/** The most muscular rater: elbows pulled in toward the shoulder centre,
    shoulders rolled forward. */
module MostMuscularRater {
  import opened Wrappers
  import opened Geometry
  import opened Landmarks
  import opened Report
  import opened Scores

  const Header := "Mode: Pose - Most Muscular"
  const NoPerson := "No person detected."
  const ElbowsCue := "Bring elbows in to crunch the chest and traps."
  const LeanCue := "Lean slightly forward and contract hard."
  const Praise := "Beast mode! Hold the most muscular."

  /** Only coordinates and the frame height are read. */
  datatype Features = Features(body: Body, height: real)

  /** Reads the shoulder and elbow coordinates and the frame height,
      as at src/pose_coach/poses/most_muscular.py:20-27. */
  function Measure(f: Frame): Features {
    Features(f.body, f.height)
  }

  function ShoulderWidth(m: Features): Distance {
    Abs(m.body.rightShoulder.x - m.body.leftShoulder.x)
  }

  /** Both elbows within a fifth of the shoulder width of the shoulder centre. */
  predicate ElbowsIn(m: Features) {
    var cx := Mid(m.body.leftShoulder, m.body.rightShoulder).x;
    Abs(m.body.leftElbow.x - cx) < 0.2 * ShoulderWidth(m)
    && Abs(m.body.rightElbow.x - cx) < 0.2 * ShoulderWidth(m)
  }

  /** The shoulder midpoint sits less than 5% of the frame below the higher
      shoulder. */
  predicate ShouldersForward(m: Features) {
    Mid(m.body.leftShoulder, m.body.rightShoulder).y
      < Min(m.body.leftShoulder.y, m.body.rightShoulder.y) + 0.05 * m.height
  }

  /** The weight of each check of `Checks`, in order. */
  const Weights: seq<nat> := [60, 40]

  /** Weights 60 and 40. */
  function Score(m: Features): (s: nat)
    ensures s == Points(Checks(m), Weights)
    ensures s <= 100
    ensures s >= AcclaimScore <==> ElbowsIn(m) && ShouldersForward(m)
    ensures s == 0 <==> !ElbowsIn(m) && !ShouldersForward(m)
  {
    (if ElbowsIn(m) then 60 else 0) + (if ShouldersForward(m) then 40 else 0)
  }

  function Checks(m: Features): seq<Check> {
    [Check(ElbowsIn(m), ElbowsCue), Check(ShouldersForward(m), LeanCue)]
  }

  /** The lines of a frame with a person. */
  function Lines(m: Features): (r: seq<string>)
    ensures |r| >= 2 && r[0] == Header && r[1] == ScoreLine(Score(m))
    ensures ElbowsCue in Feedback(r) <==> !ElbowsIn(m)
    ensures LeanCue in Feedback(r) <==> !ShouldersForward(m)
    ensures Praise in Feedback(r) <==> Score(m) >= AcclaimScore
    ensures Praise in Feedback(r) <==> ElbowsIn(m) && ShouldersForward(m)
    ensures Praise in Feedback(r) ==> Feedback(r) == [Praise]
    ensures Feedback(r) == When(!ElbowsIn(m), ElbowsCue) + When(!ShouldersForward(m), LeanCue) + When(ElbowsIn(m) && ShouldersForward(m), Praise)
  {
    var cs := Checks(m);
    var tail := Acclaim(Score(m), Praise);
    assert cs[0].passed && cs[1].passed ==> AllPassed(cs);
    assert tail == Closing(cs, Praise);
    CueShownInLines(Header, ScoreLine(Score(m)), cs, tail, 0);
    CueShownInLines(Header, ScoreLine(Score(m)), cs, tail, 1);
    ClosingOfTwo(Header, ScoreLine(Score(m)), cs[0], cs[1], Praise);
    ClosingShownInLines(Header, ScoreLine(Score(m)), cs, Praise);
    Report.Lines(Header, ScoreLine(Score(m)), cs, tail)
  }

  /** `MostMuscularRater.update`: the rater keeps no state. */
  function Rate(frame: Option<Frame>): (r: seq<string>)
    ensures frame.None? ==> r == [Header, NoPerson]
    ensures frame.Some? ==> r == Lines(Measure(frame.value))
  {
    match frame
    case None => [Header, NoPerson]
    case Some(f) => Lines(Measure(f))
  }

  /** The "forward" test never looks at depth: it holds exactly when the two
      shoulders differ in height by less than a tenth of the frame. */
  lemma ForwardMeansLevelShoulders(m: Features)
    ensures ShouldersForward(m) <==> Abs(m.body.leftShoulder.y - m.body.rightShoulder.y) < 0.1 * m.height
  {
  }
}
