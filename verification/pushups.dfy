/** The push-up coach: both arms averaged, counted at lockout. The last line
    is always the same reminder. */
module PushupCoach {
  import opened Wrappers
  import opened Geometry
  import opened Landmarks
  import opened Phases
  import opened Report

  const Header := "Mode: Exercise - Pushup"
  const NoPerson := "No person detected."
  const CoreCue := "Engage core; keep a straight line from shoulders to ankles."
  const Reminder := "Chest to ~90\U{00B0} elbow bend; full lockout at top."

  /** A new coach: arms locked out, nothing counted. */
  function Init(): Counter {
    Counter(Up, 0)
  }

  predicate AtBottom(elbowAngle: real) {
    elbowAngle < 80.0
  }

  predicate AtTop(elbowAngle: real) {
    elbowAngle > 150.0
  }

  /** The phase machine: a repetition is counted on pressing back up. */
  function Step(c: Counter, elbowAngle: real): (r: Counter)
    ensures c.phase == Up ==> (r.phase == Down <==> elbowAngle < 80.0)
    ensures c.phase == Down ==> (r.phase == Up <==> elbowAngle > 150.0)
    ensures r.reps == if c.phase == Down && elbowAngle > 150.0 then c.reps + 1 else c.reps
    ensures 80.0 <= elbowAngle <= 150.0 ==> r == c
  {
    Advance(c, AtTop(elbowAngle), AtBottom(elbowAngle), Up)
  }

  datatype Features = Features(
    elbowAngle: real,     // shoulder-elbow-wrist on the midpoints
    hipDrop: real,        // hip y minus shoulder y
    height: real)

  /** Reads the midpoint joints, the elbow angle and the hip and shoulder heights,
      as at src/pose_coach/exercises/pushups.py:30-45. */
  function Measure(f: Frame, g: Oracle): Features {
    var b := f.body;
    var shoulder := Mid(b.leftShoulder, b.rightShoulder);
    var elbow := Mid(b.leftElbow, b.rightElbow);
    var wrist := Mid(b.leftWrist, b.rightWrist);
    var hip := Mid(b.leftHip, b.rightHip);
    Features(g.angleAt(shoulder, elbow, wrist), hip.y - shoulder.y, f.height)
  }

  predicate HipsSagging(m: Features) {
    m.hipDrop > 0.08 * m.height
  }

  function Checks(m: Features): seq<Check> {
    [Check(!HipsSagging(m), CoreCue)]
  }

  /** The lines shown after the counter has been advanced to `c`. */
  function Lines(m: Features, c: Counter): (r: seq<string>)
    ensures |r| >= 3 && r[0] == Header && r[1] == StatusLine(c.reps, PhaseName(c.phase))
    ensures CoreCue in Feedback(r) <==> HipsSagging(m)
    ensures Feedback(r) == if HipsSagging(m) then [CoreCue, Reminder] else [Reminder]
  {
    var cs := Checks(m);
    var status := StatusLine(c.reps, PhaseName(c.phase));
    CueShownInLines(Header, status, cs, [Reminder], 0);
    Report.Lines(Header, status, cs, [Reminder])
  }

  /** `PushupCoach.update` */
  function Update(c: Counter, frame: Option<Frame>, g: Oracle): (r: Outcome<Counter>)
    ensures frame.None? ==> r.state == c && r.lines == [Header, NoPerson, RepsLine(c.reps)]
    ensures frame.Some? ==> r.state == Step(c, Measure(frame.value, g).elbowAngle)
    ensures frame.Some? ==> r.lines == Lines(Measure(frame.value, g), r.state)
  {
    match frame
    case None => Outcome(c, [Header, NoPerson, RepsLine(c.reps)])
    case Some(f) =>
      var m := Measure(f, g);
      var next := Step(c, m.elbowAngle);
      Outcome(next, Lines(m, next))
  }
}
