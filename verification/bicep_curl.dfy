/** The bicep curl coach: one arm, chosen by elbow visibility, counted on the
    way up. */
module BicepCurlCoach {
  import opened Wrappers
  import opened Geometry
  import opened Landmarks
  import opened Phases
  import opened Report

  const Header := "Mode: Exercise - Bicep Curl"
  const NoPerson := "No person detected. Step back and ensure full body in frame."
  const ElbowCue := "Keep your elbow close; avoid drifting forward/back."
  const ShoulderCue := "Avoid swinging shoulders; isolate the biceps."
  const RangeCue := "Use full range: extend at bottom and squeeze at top."
  const Praise := "Great form! Keep it up."

  /** A new coach: arm extended, nothing counted. */
  function Init(): Counter {
    Counter(Down, 0)
  }

  /** Arm fully curled. */
  predicate AtTop(elbowAngle: real) {
    elbowAngle < 50.0
  }

  /** Arm fully extended. */
  predicate AtBottom(elbowAngle: real) {
    elbowAngle > 150.0
  }

  /** The phase machine: a repetition is counted on reaching the top. */
  function Step(c: Counter, elbowAngle: real): (r: Counter)
    ensures c.phase == Down ==> (r.phase == Up <==> elbowAngle < 50.0)
    ensures c.phase == Up ==> (r.phase == Down <==> elbowAngle > 150.0)
    ensures r.reps == if c.phase == Down && elbowAngle < 50.0 then c.reps + 1 else c.reps
    ensures 50.0 <= elbowAngle <= 150.0 ==> r == c
  {
    Advance(c, AtTop(elbowAngle), AtBottom(elbowAngle), Up)
  }

  /** What one frame shows of the chosen arm. */
  datatype Features = Features(
    side: Side,
    elbowAngle: real,     // shoulder-elbow-wrist
    shoulderAngle: real,  // hip-shoulder-elbow
    elbowDrift: real,     // horizontal elbow-to-shoulder distance
    upperArm: real)       // upper-arm length plus the 1e-6 guard

  /** Reads the chosen arm's shoulder, elbow, wrist and hip, and its elbow and shoulder angles,
      as at src/pose_coach/exercises/bicep_curl.py:36-56. */
  function Measure(f: Frame, g: Oracle): Features {
    var side := ChooseSide(f);
    var a := ArmOf(f.body, side);
    Features(
      side,
      g.angleAt(a.shoulder, a.elbow, a.wrist),
      g.angleAt(a.hip, a.shoulder, a.elbow),
      Abs(a.elbow.x - a.shoulder.x),
      g.norm(Sub(a.shoulder, a.elbow)) + Epsilon)
  }

  predicate ElbowStable(m: Features) {
    m.elbowDrift < 0.6 * m.upperArm
  }

  predicate ShoulderStable(m: Features) {
    m.shoulderAngle < 70.0
  }

  /** Full range of motion: the arm is at one end of its travel. */
  predicate RangeOk(m: Features) {
    AtTop(m.elbowAngle) || AtBottom(m.elbowAngle)
  }

  function Checks(m: Features): seq<Check> {
    [Check(ElbowStable(m), ElbowCue), Check(ShoulderStable(m), ShoulderCue), Check(RangeOk(m), RangeCue)]
  }

  function Status(side: Side, c: Counter): string {
    "Side: " + SideName(side) + " | Reps: " + Text.Decimal(c.reps) + " | Phase: " + PhaseName(c.phase)
  }

  /** The lines shown after the counter has been advanced to `c`. */
  function Lines(m: Features, c: Counter): (r: seq<string>)
    ensures |r| >= 2 && r[0] == Header && r[1] == Status(m.side, c)
    ensures ElbowCue in Feedback(r) <==> !ElbowStable(m)
    ensures ShoulderCue in Feedback(r) <==> !ShoulderStable(m)
    ensures RangeCue in Feedback(r) <==> !RangeOk(m)
    ensures Praise in Feedback(r) <==> ElbowStable(m) && ShoulderStable(m) && RangeOk(m)
    ensures Praise in Feedback(r) ==> Feedback(r) == [Praise]
    ensures Feedback(r) == When(!ElbowStable(m), ElbowCue) + When(!ShoulderStable(m), ShoulderCue) + When(!RangeOk(m), RangeCue) + When(ElbowStable(m) && ShoulderStable(m) && RangeOk(m), Praise)
  {
    var cs := Checks(m);
    var status := Status(m.side, c);
    var tail := Closing(cs, Praise);
    CueShownInLines(Header, status, cs, tail, 0);
    CueShownInLines(Header, status, cs, tail, 1);
    CueShownInLines(Header, status, cs, tail, 2);
    ClosingOfThree(Header, status, cs[0], cs[1], cs[2], Praise);
    ClosingShownInLines(Header, status, cs, Praise);
    Report.Lines(Header, status, cs, tail)
  }

  /** `BicepCurlCoach.update` */
  function Update(c: Counter, frame: Option<Frame>, g: Oracle): (r: Outcome<Counter>)
    ensures frame.None? ==> r.state == c && r.lines == [Header, NoPerson, RepsLine(c.reps)]
    ensures frame.Some? ==> r.state == Step(c, Measure(frame.value, g).elbowAngle)
    ensures frame.Some? ==> r.lines == Lines(Measure(frame.value, g), r.state)
  {
    match frame
    case None => Outcome(c, [Header, NoPerson, RepsLine(c.reps)])
    case Some(f) =>
      var m := Measure(f, g);
      var next := Step(c, m.elbowAngle);
      Outcome(next, Lines(m, next))
  }

  /** The range cue and the phase machine agree: whenever the range check
      fails the elbow angle is in the dead zone and the frame changes nothing. */
  lemma RangeCueMeansNoTransition(c: Counter, m: Features)
    ensures !RangeOk(m) <==> 50.0 <= m.elbowAngle <= 150.0
    ensures !RangeOk(m) ==> Step(c, m.elbowAngle) == c
  {
  }

  /** The curl traced frame by frame: extended (~180 degrees), curled
      (~19 degrees), extended again. */
  lemma CurlScenario()
    ensures Step(Init(), 180.0) == Counter(Down, 0)
    ensures Step(Step(Init(), 180.0), 19.0) == Counter(Up, 1)
    ensures Step(Step(Step(Init(), 180.0), 19.0), 180.0) == Counter(Down, 1)
  {
  }
}
