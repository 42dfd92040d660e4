/** The Romanian deadlift coach: both sides averaged, the torso's angle to
    the horizontal drives the phase, counted on the return to the top. */
module RDLCoach {
  import opened Wrappers
  import opened Geometry
  import opened Landmarks
  import opened Phases
  import opened Report

  const Header := "Mode: Exercise - Romanian Deadlift"
  const NoPerson := "No person detected. Ensure full body in frame."
  const HingeCue := "Hinge at hips; push hips back and keep back flat."
  const KneeCue := "Keep a slight knee bend; avoid squatting the weight."
  const Praise := "Good hinge. Keep bar close to legs."

  /** A new coach: standing, nothing counted. */
  function Init(): Counter {
    Counter(Up, 0)
  }

  predicate AtBottom(torsoAngle: real) {
    torsoAngle > 50.0
  }

  predicate AtTop(torsoAngle: real) {
    torsoAngle < 20.0
  }

  /** The phase machine on the torso's angle from the horizontal: a
      repetition is counted on standing back up. */
  function Step(c: Counter, torsoAngle: real): (r: Counter)
    ensures c.phase == Up ==> (r.phase == Down <==> torsoAngle > 50.0)
    ensures c.phase == Down ==> (r.phase == Up <==> torsoAngle < 20.0)
    ensures r.reps == if c.phase == Down && torsoAngle < 20.0 then c.reps + 1 else c.reps
    ensures 20.0 <= torsoAngle <= 50.0 ==> r == c
  {
    Advance(c, AtTop(torsoAngle), AtBottom(torsoAngle), Up)
  }

  datatype Features = Features(
    torsoAngle: real,     // hip-to-shoulder vector against the horizontal
    thighAngle: real)     // hip-to-knee vector against the downward vertical

  /** Reads the midpoint joints, the torso angle against the horizontal and the thigh angle against the downward vertical,
      as at src/pose_coach/exercises/rdl.py:28-42. */
  function Measure(f: Frame, g: Oracle): Features {
    var b := f.body;
    var shoulder := Mid(b.leftShoulder, b.rightShoulder);
    var hip := Mid(b.leftHip, b.rightHip);
    var knee := Mid(b.leftKnee, b.rightKnee);
    Features(g.angleBetween(Sub(shoulder, hip), Horizontal), g.angleBetween(Sub(knee, hip), VerticalDown))
  }

  predicate HipHingeOk(m: Features) {
    20.0 <= m.torsoAngle <= 70.0
  }

  predicate KneeBendSmall(m: Features) {
    m.thighAngle < 25.0
  }

  function Checks(m: Features): seq<Check> {
    [Check(HipHingeOk(m), HingeCue), Check(KneeBendSmall(m), KneeCue)]
  }

  /** The lines shown after the counter has been advanced to `c`. */
  function Lines(m: Features, c: Counter): (r: seq<string>)
    ensures |r| >= 2 && r[0] == Header && r[1] == StatusLine(c.reps, PhaseName(c.phase))
    ensures HingeCue in Feedback(r) <==> !(20.0 <= m.torsoAngle <= 70.0)
    ensures KneeCue in Feedback(r) <==> m.thighAngle >= 25.0
    ensures Praise in Feedback(r) <==> HipHingeOk(m) && KneeBendSmall(m)
    ensures Praise in Feedback(r) ==> Feedback(r) == [Praise]
    ensures Feedback(r) == When(!HipHingeOk(m), HingeCue) + When(!KneeBendSmall(m), KneeCue) + When(HipHingeOk(m) && KneeBendSmall(m), Praise)
  {
    var cs := Checks(m);
    var status := StatusLine(c.reps, PhaseName(c.phase));
    var tail := Closing(cs, Praise);
    CueShownInLines(Header, status, cs, tail, 0);
    CueShownInLines(Header, status, cs, tail, 1);
    ClosingOfTwo(Header, status, cs[0], cs[1], Praise);
    ClosingShownInLines(Header, status, cs, Praise);
    Report.Lines(Header, status, cs, tail)
  }

  /** `RDLCoach.update` */
  function Update(c: Counter, frame: Option<Frame>, g: Oracle): (r: Outcome<Counter>)
    ensures frame.None? ==> r.state == c && r.lines == [Header, NoPerson, RepsLine(c.reps)]
    ensures frame.Some? ==> r.state == Step(c, Measure(frame.value, g).torsoAngle)
    ensures frame.Some? ==> r.lines == Lines(Measure(frame.value, g), r.state)
  {
    match frame
    case None => Outcome(c, [Header, NoPerson, RepsLine(c.reps)])
    case Some(f) =>
      var m := Measure(f, g);
      var next := Step(c, m.torsoAngle);
      Outcome(next, Lines(m, next))
  }

  /** The top of the movement lies outside the hinge band: the frame that
      counts a repetition always shows the hinge cue. */
  lemma CountingFrameShowsHingeCue(c: Counter, m: Features)
    ensures Step(c, m.torsoAngle).reps > c.reps ==> HingeCue in Feedback(Lines(m, Step(c, m.torsoAngle)))
  {
  }
}
