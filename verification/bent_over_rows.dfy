/** The bent-over row coach: both arms averaged, counted when the elbows
    reach the top. */
module BentOverRowCoach {
  import opened Wrappers
  import opened Geometry
  import opened Landmarks
  import opened Phases
  import opened Report

  const Header := "Mode: Exercise - Bent-over Row"
  const NoPerson := "No person detected."
  const HingeCue := "Hinge more at hips; torso ~30-45\U{00B0} to floor."
  const WristCue := "Keep bar under elbows; pull to lower ribs."
  const Praise := "Strong rows. Squeeze lats at top."

  /** A new coach: arms hanging, nothing counted. */
  function Init(): Counter {
    Counter(Down, 0)
  }

  predicate AtTop(elbowAngle: real) {
    elbowAngle < 70.0
  }

  predicate AtBottom(elbowAngle: real) {
    elbowAngle > 140.0
  }

  /** The phase machine: a repetition is counted on reaching the top. */
  function Step(c: Counter, elbowAngle: real): (r: Counter)
    ensures c.phase == Down ==> (r.phase == Up <==> elbowAngle < 70.0)
    ensures c.phase == Up ==> (r.phase == Down <==> elbowAngle > 140.0)
    ensures r.reps == if c.phase == Down && elbowAngle < 70.0 then c.reps + 1 else c.reps
    ensures 70.0 <= elbowAngle <= 140.0 ==> r == c
  {
    Advance(c, AtTop(elbowAngle), AtBottom(elbowAngle), Up)
  }

  datatype Features = Features(
    torsoAngle: real,     // shoulder-to-hip vector against the horizontal
    elbowAngle: real,     // shoulder-elbow-wrist, on the midpoints
    wristOffset: real,    // horizontal wrist-to-elbow distance
    upperArm: real)       // elbow-to-shoulder length

  /** Reads the midpoint joints, the torso angle against the horizontal and the elbow angle,
      as at src/pose_coach/exercises/bent_over_rows.py:30-48. */
  function Measure(f: Frame, g: Oracle): Features {
    var b := f.body;
    var shoulder := Mid(b.leftShoulder, b.rightShoulder);
    var elbow := Mid(b.leftElbow, b.rightElbow);
    var wrist := Mid(b.leftWrist, b.rightWrist);
    var hip := Mid(b.leftHip, b.rightHip);
    Features(
      g.angleBetween(Sub(hip, shoulder), Horizontal),
      g.angleAt(shoulder, elbow, wrist),
      Abs(wrist.x - elbow.x),
      g.norm(Sub(elbow, shoulder)))
  }

  /** The hinge band is inclusive at both ends. */
  predicate HingeOk(m: Features) {
    20.0 <= m.torsoAngle <= 60.0
  }

  predicate WristUnderElbow(m: Features) {
    m.wristOffset < 0.4 * m.upperArm
  }

  function Checks(m: Features): seq<Check> {
    [Check(HingeOk(m), HingeCue), Check(WristUnderElbow(m), WristCue)]
  }

  /** The lines shown after the counter has been advanced to `c`. */
  function Lines(m: Features, c: Counter): (r: seq<string>)
    ensures |r| >= 2 && r[0] == Header && r[1] == StatusLine(c.reps, PhaseName(c.phase))
    ensures HingeCue in Feedback(r) <==> !(20.0 <= m.torsoAngle <= 60.0)
    ensures WristCue in Feedback(r) <==> !WristUnderElbow(m)
    ensures Praise in Feedback(r) <==> HingeOk(m) && WristUnderElbow(m)
    ensures Praise in Feedback(r) ==> Feedback(r) == [Praise]
    ensures Feedback(r) == When(!HingeOk(m), HingeCue) + When(!WristUnderElbow(m), WristCue) + When(HingeOk(m) && WristUnderElbow(m), Praise)
  {
    var cs := Checks(m);
    var status := StatusLine(c.reps, PhaseName(c.phase));
    var tail := Closing(cs, Praise);
    CueShownInLines(Header, status, cs, tail, 0);
    CueShownInLines(Header, status, cs, tail, 1);
    ClosingOfTwo(Header, status, cs[0], cs[1], Praise);
    ClosingShownInLines(Header, status, cs, Praise);
    Report.Lines(Header, status, cs, tail)
  }

  /** `BentOverRowCoach.update` */
  function Update(c: Counter, frame: Option<Frame>, g: Oracle): (r: Outcome<Counter>)
    ensures frame.None? ==> r.state == c && r.lines == [Header, NoPerson, RepsLine(c.reps)]
    ensures frame.Some? ==> r.state == Step(c, Measure(frame.value, g).elbowAngle)
    ensures frame.Some? ==> r.lines == Lines(Measure(frame.value, g), r.state)
  {
    match frame
    case None => Outcome(c, [Header, NoPerson, RepsLine(c.reps)])
    case Some(f) =>
      var m := Measure(f, g);
      var next := Step(c, m.elbowAngle);
      Outcome(next, Lines(m, next))
  }
}
