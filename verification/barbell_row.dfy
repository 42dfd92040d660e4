/** The barbell row coach: one side, chosen by elbow visibility, counted when
    the bar reaches the body. */
module BarbellRowCoach {
  import opened Wrappers
  import opened Geometry
  import opened Landmarks
  import opened Phases
  import opened Report

  const Header := "Mode: Exercise - Barbell Row"
  const NoPerson := "No person detected. Step back and ensure full body in frame."
  const HingeCue := "Hinge more at the hips; keep torso ~30-45\U{00B0} to the floor."
  const SpineCue := "Keep spine neutral; avoid twisting or rounding."
  const WristCue := "Pull elbows back; keep wrist under elbow for a straight path."
  const Praise := "Nice rows! Strong positioning."

  /** A new coach: bar down, nothing counted. */
  function Init(): Counter {
    Counter(Down, 0)
  }

  predicate BarUp(elbowAngle: real) {
    elbowAngle < 70.0
  }

  predicate BarDown(elbowAngle: real) {
    elbowAngle > 140.0
  }

  /** The phase machine: a repetition is counted when the bar comes up. */
  function Step(c: Counter, elbowAngle: real): (r: Counter)
    ensures c.phase == Down ==> (r.phase == Up <==> elbowAngle < 70.0)
    ensures c.phase == Up ==> (r.phase == Down <==> elbowAngle > 140.0)
    ensures r.reps == if c.phase == Down && elbowAngle < 70.0 then c.reps + 1 else c.reps
    ensures 70.0 <= elbowAngle <= 140.0 ==> r == c
  {
    Advance(c, BarUp(elbowAngle), BarDown(elbowAngle), Up)
  }

  /** What one frame shows of the chosen side. */
  datatype Features = Features(
    torsoAngle: real,     // shoulder-to-hip vector against the horizontal
    shoulderRise: real,   // vertical distance between the two shoulders
    shoulderRun: Distance, // horizontal distance between the two shoulders
    elbowAngle: real,     // shoulder-elbow-wrist
    wristOffset: real,    // horizontal wrist-to-elbow distance
    upperArm: real)       // elbow-to-shoulder length

  /** Reads the chosen side's joints, the torso angle against the horizontal and the elbow angle,
      as at src/pose_coach/exercises/barbell_row.py:37-64. */
  function Measure(f: Frame, g: Oracle): Features {
    var a := ArmOf(f.body, ChooseSide(f));
    Features(
      g.angleBetween(Sub(a.hip, a.shoulder), Horizontal),
      Abs(a.otherShoulder.y - a.shoulder.y),
      Abs(a.otherShoulder.x - a.shoulder.x),
      g.angleAt(a.shoulder, a.elbow, a.wrist),
      Abs(a.wrist.x - a.elbow.x),
      g.norm(Sub(a.elbow, a.shoulder)))
  }

  predicate HipHingeOk(m: Features) {
    20.0 <= m.torsoAngle <= 60.0
  }

  /** The shoulder line's slope, guarded against a zero run. */
  function ShoulderSlope(m: Features): real {
    m.shoulderRise / (m.shoulderRun + Epsilon)
  }

  predicate NeutralSpine(m: Features) {
    ShoulderSlope(m) < 0.4
  }

  predicate WristUnderElbow(m: Features) {
    m.wristOffset < 0.4 * m.upperArm
  }

  /** The slope test never divides by zero, and it is the same as comparing
      the rise with 0.4 times the guarded run. */
  lemma NeutralSpineWithoutDivision(m: Features)
    ensures m.shoulderRun + Epsilon > 0.0
    ensures NeutralSpine(m) <==> m.shoulderRise < 0.4 * (m.shoulderRun + Epsilon)
  {
    QuotientBelow(m.shoulderRise, m.shoulderRun + Epsilon, 0.4);
  }

  function Checks(m: Features): seq<Check> {
    [Check(HipHingeOk(m), HingeCue), Check(NeutralSpine(m), SpineCue), Check(WristUnderElbow(m), WristCue)]
  }

  /** The lines shown after the counter has been advanced to `c`. */
  function Lines(m: Features, c: Counter): (r: seq<string>)
    ensures |r| >= 2 && r[0] == Header && r[1] == StatusLine(c.reps, PhaseName(c.phase))
    ensures HingeCue in Feedback(r) <==> !HipHingeOk(m)
    ensures SpineCue in Feedback(r) <==> !NeutralSpine(m)
    ensures WristCue in Feedback(r) <==> !WristUnderElbow(m)
    ensures Praise in Feedback(r) <==> HipHingeOk(m) && NeutralSpine(m) && WristUnderElbow(m)
    ensures Praise in Feedback(r) ==> Feedback(r) == [Praise]
    ensures Feedback(r) == When(!HipHingeOk(m), HingeCue) + When(!NeutralSpine(m), SpineCue) + When(!WristUnderElbow(m), WristCue) + When(HipHingeOk(m) && NeutralSpine(m) && WristUnderElbow(m), Praise)
  {
    var cs := Checks(m);
    var status := StatusLine(c.reps, PhaseName(c.phase));
    var tail := Closing(cs, Praise);
    CueShownInLines(Header, status, cs, tail, 0);
    CueShownInLines(Header, status, cs, tail, 1);
    CueShownInLines(Header, status, cs, tail, 2);
    ClosingOfThree(Header, status, cs[0], cs[1], cs[2], Praise);
    ClosingShownInLines(Header, status, cs, Praise);
    Report.Lines(Header, status, cs, tail)
  }

  /** `BarbellRowCoach.update` */
  function Update(c: Counter, frame: Option<Frame>, g: Oracle): (r: Outcome<Counter>)
    ensures frame.None? ==> r.state == c && r.lines == [Header, NoPerson, RepsLine(c.reps)]
    ensures frame.Some? ==> r.state == Step(c, Measure(frame.value, g).elbowAngle)
    ensures frame.Some? ==> r.lines == Lines(Measure(frame.value, g), r.state)
  {
    match frame
    case None => Outcome(c, [Header, NoPerson, RepsLine(c.reps)])
    case Some(f) =>
      var m := Measure(f, g);
      var next := Step(c, m.elbowAngle);
      Outcome(next, Lines(m, next))
  }

  /** The side whose joints are read follows the elbow confidences. */
  lemma MeasuresChosenSide(f: Frame, g: Oracle)
    ensures ElbowVisibility(f, Left) >= ElbowVisibility(f, Right) ==>
      Measure(f, g).elbowAngle == g.angleAt(f.body.leftShoulder, f.body.leftElbow, f.body.leftWrist)
    ensures ElbowVisibility(f, Left) < ElbowVisibility(f, Right) ==>
      Measure(f, g).elbowAngle == g.angleAt(f.body.rightShoulder, f.body.rightElbow, f.body.rightWrist)
  {
  }
}
