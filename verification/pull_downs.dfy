/** The lat pull-down coach: both arms averaged, counted when the bar
    reaches the bottom. The reminder line comes before the only cue. */
module PullDownCoach {
  import opened Wrappers
  import opened Geometry
  import opened Landmarks
  import opened Phases
  import opened Report

  const Header := "Mode: Exercise - Pull-down"
  const NoPerson := "No person detected."
  const Reminder := "Pull elbows down and back; avoid shrugging."
  const GripCue := "Consider a slightly wider grip for lat engagement."

  /** A new coach: arms extended overhead, nothing counted. */
  function Init(): Counter {
    Counter(Up, 0)
  }

  predicate AtBottom(elbowAngle: real) {
    elbowAngle < 70.0
  }

  predicate AtTop(elbowAngle: real) {
    elbowAngle > 150.0
  }

  /** The phase machine: unlike the pressing coaches, a repetition is
      counted on entering the bottom. */
  function Step(c: Counter, elbowAngle: real): (r: Counter)
    ensures c.phase == Up ==> (r.phase == Down <==> elbowAngle < 70.0)
    ensures c.phase == Down ==> (r.phase == Up <==> elbowAngle > 150.0)
    ensures r.reps == if c.phase == Up && elbowAngle < 70.0 then c.reps + 1 else c.reps
    ensures 70.0 <= elbowAngle <= 150.0 ==> r == c
  {
    Advance(c, AtTop(elbowAngle), AtBottom(elbowAngle), Down)
  }

  datatype Features = Features(
    elbowAngle: real,     // shoulder-elbow-wrist on the midpoints
    gripWidth: real,      // horizontal wrist-to-wrist distance
    shoulderWidth: real)  // horizontal shoulder-to-shoulder distance

  /** Reads the midpoint elbow angle, the wrist spread and the shoulder width,
      as at src/pose_coach/exercises/pull_downs.py:28-40. */
  function Measure(f: Frame, g: Oracle): Features {
    var b := f.body;
    var shoulder := Mid(b.leftShoulder, b.rightShoulder);
    var elbow := Mid(b.leftElbow, b.rightElbow);
    var wrist := Mid(b.leftWrist, b.rightWrist);
    Features(
      g.angleAt(shoulder, elbow, wrist),
      Abs(b.leftWrist.x - b.rightWrist.x),
      Abs(b.rightShoulder.x - b.leftShoulder.x))
  }

  predicate WideGrip(m: Features) {
    m.gripWidth > 0.6 * m.shoulderWidth
  }

  /** The lines shown after the counter has been advanced to `c`: the
      reminder always, then the grip cue for a narrow grip. */
  function Lines(m: Features, c: Counter): (r: seq<string>)
    ensures |r| >= 3 && r[0] == Header && r[1] == StatusLine(c.reps, PhaseName(c.phase)) && r[2] == Reminder
    ensures GripCue in Feedback(r) <==> !WideGrip(m)
    ensures |r| == if WideGrip(m) then 3 else 4
    ensures Feedback(r) == [Reminder] + When(!WideGrip(m), GripCue)
  {
    var cs := [Check(WideGrip(m), GripCue)];
    CueShown(cs, 0);
    CuesOfOne(cs[0]);
    assert |GripCue| != |Reminder|;
    var r := [Header, StatusLine(c.reps, PhaseName(c.phase)), Reminder] + Cues(cs);
    assert Feedback(r) == [Reminder] + Cues(cs);
    assert GripCue in Feedback(r) <==> GripCue == Reminder || GripCue in Cues(cs);
    r
  }

  /** `PullDownCoach.update` */
  function Update(c: Counter, frame: Option<Frame>, g: Oracle): (r: Outcome<Counter>)
    ensures frame.None? ==> r.state == c && r.lines == [Header, NoPerson, RepsLine(c.reps)]
    ensures frame.Some? ==> r.state == Step(c, Measure(frame.value, g).elbowAngle)
    ensures frame.Some? ==> r.lines == Lines(Measure(frame.value, g), r.state)
  {
    match frame
    case None => Outcome(c, [Header, NoPerson, RepsLine(c.reps)])
    case Some(f) =>
      var m := Measure(f, g);
      var next := Step(c, m.elbowAngle);
      Outcome(next, Lines(m, next))
  }
}
