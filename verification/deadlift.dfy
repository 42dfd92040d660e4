/** The deadlift coach: the back's angle from vertical and the hip height
    drive the phase; counted at lockout. The last line is always the same
    reminder. */
module DeadliftCoach {
  import opened Wrappers
  import opened Geometry
  import opened Landmarks
  import opened Phases
  import opened Report

  const Header := "Mode: Exercise - Deadlift"
  const NoPerson := "No person detected. Ensure full body in frame."
  const BackCue := "Keep back flat; brace core and pack lats."
  const HipCue := "Hips and shoulders should rise together."
  const Reminder := "Keep the bar close; push the floor away."

  /** A new coach: bar on the floor, nothing counted. */
  function Init(): Counter {
    Counter(Down, 0)
  }

  datatype Features = Features(
    backAngle: real,      // hip-to-shoulder vector against the upward vertical
    hipY: real,
    kneeY: real,
    shoulderY: real)

  /** Reads the midpoint joints, the back angle against the upward vertical and the hip and knee heights,
      as at src/pose_coach/exercises/deadlift.py:28-42. */
  function Measure(f: Frame, g: Oracle): Features {
    var b := f.body;
    var shoulder := Mid(b.leftShoulder, b.rightShoulder);
    var hip := Mid(b.leftHip, b.rightHip);
    var knee := Mid(b.leftKnee, b.rightKnee);
    Features(g.angleBetween(Sub(shoulder, hip), VerticalUp), hip.y, knee.y, shoulder.y)
  }

  /** Lockout: back near vertical with the hips above the knees. */
  predicate AtTop(m: Features) {
    m.backAngle < 15.0 && m.hipY < m.kneeY
  }

  predicate AtBottom(m: Features) {
    m.backAngle > 45.0
  }

  /** The phase machine: a repetition is counted at lockout. */
  function Step(c: Counter, m: Features): (r: Counter)
    ensures c.phase == Down ==> (r.phase == Up <==> m.backAngle < 15.0 && m.hipY < m.kneeY)
    ensures c.phase == Up ==> (r.phase == Down <==> m.backAngle > 45.0)
    ensures r.reps == if c.phase == Down && AtTop(m) then c.reps + 1 else c.reps
    ensures 15.0 <= m.backAngle <= 45.0 ==> r == c
  {
    Advance(c, AtTop(m), AtBottom(m), Up)
  }

  function Checks(m: Features): seq<Check> {
    [Check(m.backAngle <= 35.0, BackCue), Check(m.hipY <= m.shoulderY, HipCue)]
  }

  /** The lines shown after the counter has been advanced to `c`. */
  function Lines(m: Features, c: Counter): (r: seq<string>)
    ensures |r| >= 3 && r[0] == Header && r[1] == StatusLine(c.reps, PhaseName(c.phase))
    ensures BackCue in Feedback(r) <==> m.backAngle > 35.0
    ensures HipCue in Feedback(r) <==> m.hipY > m.shoulderY
    ensures r[|r| - 1] == Reminder
    ensures m.backAngle <= 35.0 && m.hipY <= m.shoulderY ==> Feedback(r) == [Reminder]
    ensures Feedback(r) == When(m.backAngle > 35.0, BackCue) + When(m.hipY > m.shoulderY, HipCue) + [Reminder]
  {
    var cs := Checks(m);
    var status := StatusLine(c.reps, PhaseName(c.phase));
    CueShownInLines(Header, status, cs, [Reminder], 0);
    CueShownInLines(Header, status, cs, [Reminder], 1);
    FeedbackOfLines(Header, status, cs, [Reminder]);
    CuesOfTwo(cs[0], cs[1]);
    NoCuesIffAllPassed(cs);
    Report.Lines(Header, status, cs, [Reminder])
  }

  /** `DeadliftCoach.update` */
  function Update(c: Counter, frame: Option<Frame>, g: Oracle): (r: Outcome<Counter>)
    ensures frame.None? ==> r.state == c && r.lines == [Header, NoPerson, RepsLine(c.reps)]
    ensures frame.Some? ==> r.state == Step(c, Measure(frame.value, g))
    ensures frame.Some? ==> r.lines == Lines(Measure(frame.value, g), r.state)
  {
    match frame
    case None => Outcome(c, [Header, NoPerson, RepsLine(c.reps)])
    case Some(f) =>
      var m := Measure(f, g);
      var next := Step(c, m);
      Outcome(next, Lines(m, next))
  }

  /** The frame that leaves the top always carries the flat-back cue. */
  lemma DescentShowsBackCue(c: Counter, m: Features)
    requires c.phase == Up
    ensures Step(c, m).phase == Down ==> BackCue in Feedback(Lines(m, Step(c, m)))
  {
  }
}
