/** The bench press coach: both arms averaged, counted at lockout. The
    reminder line comes before the only cue. */
module BenchPressCoach {
  import opened Wrappers
  import opened Geometry
  import opened Landmarks
  import opened Phases
  import opened Report

  const Header := "Mode: Exercise - Bench Press"
  const NoPerson := "No person detected."
  const Reminder := "Touch mid-chest; press to full lockout."
  const BarCue := "Keep bar path over mid-chest, not too high or low."

  /** A new coach: bar locked out, nothing counted. */
  function Init(): Counter {
    Counter(Up, 0)
  }

  predicate AtBottom(elbowAngle: real) {
    elbowAngle < 80.0
  }

  predicate AtTop(elbowAngle: real) {
    elbowAngle > 150.0
  }

  /** The phase machine: a repetition is counted on pressing back up. */
  function Step(c: Counter, elbowAngle: real): (r: Counter)
    ensures c.phase == Up ==> (r.phase == Down <==> elbowAngle < 80.0)
    ensures c.phase == Down ==> (r.phase == Up <==> elbowAngle > 150.0)
    ensures r.reps == if c.phase == Down && elbowAngle > 150.0 then c.reps + 1 else c.reps
    ensures 80.0 <= elbowAngle <= 150.0 ==> r == c
  {
    Advance(c, AtTop(elbowAngle), AtBottom(elbowAngle), Up)
  }

  datatype Features = Features(
    elbowAngle: real,     // shoulder-elbow-wrist on the midpoints
    barOffset: real,      // vertical wrist-to-shoulder distance
    height: real)

  /** Reads the midpoint elbow angle and the wrist and shoulder heights,
      as at src/pose_coach/exercises/bench_press.py:28-40. */
  function Measure(f: Frame, g: Oracle): Features {
    var b := f.body;
    var shoulder := Mid(b.leftShoulder, b.rightShoulder);
    var elbow := Mid(b.leftElbow, b.rightElbow);
    var wrist := Mid(b.leftWrist, b.rightWrist);
    Features(g.angleAt(shoulder, elbow, wrist), Abs(wrist.y - shoulder.y), f.height)
  }

  predicate BarOverMidChest(m: Features) {
    m.barOffset < 0.2 * m.height
  }

  /** The lines shown after the counter has been advanced to `c`: the
      reminder always, then the bar-path cue when the bar strays. */
  function Lines(m: Features, c: Counter): (r: seq<string>)
    ensures |r| >= 3 && r[0] == Header && r[1] == StatusLine(c.reps, PhaseName(c.phase)) && r[2] == Reminder
    ensures BarCue in Feedback(r) <==> !BarOverMidChest(m)
    ensures |r| == if BarOverMidChest(m) then 3 else 4
    ensures Feedback(r) == [Reminder] + When(!BarOverMidChest(m), BarCue)
  {
    var cs := [Check(BarOverMidChest(m), BarCue)];
    CueShown(cs, 0);
    CuesOfOne(cs[0]);
    assert |BarCue| != |Reminder|;
    var r := [Header, StatusLine(c.reps, PhaseName(c.phase)), Reminder] + Cues(cs);
    assert Feedback(r) == [Reminder] + Cues(cs);
    assert BarCue in Feedback(r) <==> BarCue == Reminder || BarCue in Cues(cs);
    r
  }

  /** `BenchPressCoach.update` */
  function Update(c: Counter, frame: Option<Frame>, g: Oracle): (r: Outcome<Counter>)
    ensures frame.None? ==> r.state == c && r.lines == [Header, NoPerson, RepsLine(c.reps)]
    ensures frame.Some? ==> r.state == Step(c, Measure(frame.value, g).elbowAngle)
    ensures frame.Some? ==> r.lines == Lines(Measure(frame.value, g), r.state)
  {
    match frame
    case None => Outcome(c, [Header, NoPerson, RepsLine(c.reps)])
    case Some(f) =>
      var m := Measure(f, g);
      var next := Step(c, m.elbowAngle);
      Outcome(next, Lines(m, next))
  }
}
