/** The squat coach: both sides averaged, counted on the return to the top. */
module SquatCoach {
  import opened Wrappers
  import opened Geometry
  import opened Landmarks
  import opened Phases
  import opened Report

  const Header := "Mode: Exercise - Squat"
  const NoPerson := "No person detected. Ensure full body in frame."
  const DepthCue := "Sit deeper: hip crease below knee."
  const KneeCue := "Avoid knees collapsing; keep tracking over toes."
  const TorsoCue := "Keep chest up; avoid excessive forward lean."
  const Praise := "Solid squat! Drive through heels."

  /** A new coach: standing, nothing counted. */
  function Init(): Counter {
    Counter(Up, 0)
  }

  /** The joints of one frame, each the midpoint of its left and right joint. */
  datatype Joints = Joints(hip: Point, knee: Point, ankle: Point, shoulder: Point)

  /** The midpoints of the hips, knees, ankles and shoulders, as at
      src/pose_coach/exercises/squats.py:30-42. */
  function Midpoints(b: Body): Joints {
    Joints(
      Mid(b.leftHip, b.rightHip),
      Mid(b.leftKnee, b.rightKnee),
      Mid(b.leftAnkle, b.rightAnkle),
      Mid(b.leftShoulder, b.rightShoulder))
  }

  datatype Features = Features(
    hipDepth: real,       // hip y minus knee y; positive when the hip is below the knee
    kneeAngle: real,      // hip-knee-ankle
    torsoAngle: real)     // hip-to-shoulder vector against the upward vertical

  /** Reads the knee angle, hip depth and torso angle of the midpoint joints,
      as at src/pose_coach/exercises/squats.py:44-47. */
  function Measure(f: Frame, g: Oracle): Features {
    var j := Midpoints(f.body);
    Features(j.hip.y - j.knee.y, g.angleAt(j.hip, j.knee, j.ankle), g.angleBetween(Sub(j.shoulder, j.hip), VerticalUp))
  }

  predicate DepthOk(m: Features) {
    m.hipDepth > 0.0
  }

  predicate KneeOk(m: Features) {
    m.kneeAngle > 90.0
  }

  predicate TorsoOk(m: Features) {
    m.torsoAngle < 35.0
  }

  predicate AtBottom(m: Features) {
    DepthOk(m) && m.kneeAngle < 100.0
  }

  predicate AtTop(m: Features) {
    m.kneeAngle > 160.0
  }

  /** The phase machine: going down needs both depth and a bent knee; a
      repetition is counted on standing back up. */
  function Step(c: Counter, m: Features): (r: Counter)
    ensures c.phase == Up ==> (r.phase == Down <==> m.hipDepth > 0.0 && m.kneeAngle < 100.0)
    ensures c.phase == Down ==> (r.phase == Up <==> m.kneeAngle > 160.0)
    ensures r.reps == if c.phase == Down && m.kneeAngle > 160.0 then c.reps + 1 else c.reps
    ensures m.hipDepth <= 0.0 && m.kneeAngle <= 160.0 ==> r == c
  {
    Advance(c, AtTop(m), AtBottom(m), Up)
  }

  function Checks(m: Features): seq<Check> {
    [Check(DepthOk(m), DepthCue), Check(KneeOk(m), KneeCue), Check(TorsoOk(m), TorsoCue)]
  }

  /** The lines shown after the counter has been advanced to `c`. */
  function Lines(m: Features, c: Counter): (r: seq<string>)
    ensures |r| >= 2 && r[0] == Header && r[1] == StatusLine(c.reps, PhaseName(c.phase))
    ensures DepthCue in Feedback(r) <==> !DepthOk(m)
    ensures KneeCue in Feedback(r) <==> !KneeOk(m)
    ensures TorsoCue in Feedback(r) <==> !TorsoOk(m)
    ensures Praise in Feedback(r) <==> DepthOk(m) && KneeOk(m) && TorsoOk(m)
    ensures Praise in Feedback(r) ==> Feedback(r) == [Praise]
    ensures Feedback(r) == When(!DepthOk(m), DepthCue) + When(!KneeOk(m), KneeCue) + When(!TorsoOk(m), TorsoCue) + When(DepthOk(m) && KneeOk(m) && TorsoOk(m), Praise)
  {
    var cs := Checks(m);
    var status := StatusLine(c.reps, PhaseName(c.phase));
    var tail := Closing(cs, Praise);
    CueShownInLines(Header, status, cs, tail, 0);
    CueShownInLines(Header, status, cs, tail, 1);
    CueShownInLines(Header, status, cs, tail, 2);
    ClosingOfThree(Header, status, cs[0], cs[1], cs[2], Praise);
    ClosingShownInLines(Header, status, cs, Praise);
    Report.Lines(Header, status, cs, tail)
  }

  /** `SquatCoach.update` */
  function Update(c: Counter, frame: Option<Frame>, g: Oracle): (r: Outcome<Counter>)
    ensures frame.None? ==> r.state == c && r.lines == [Header, NoPerson, RepsLine(c.reps)]
    ensures frame.Some? ==> r.state == Step(c, Measure(frame.value, g))
    ensures frame.Some? ==> r.lines == Lines(Measure(frame.value, g), r.state)
  {
    match frame
    case None => Outcome(c, [Header, NoPerson, RepsLine(c.reps)])
    case Some(f) =>
      var m := Measure(f, g);
      var next := Step(c, m);
      Outcome(next, Lines(m, next))
  }

  /** A frame that takes the squatter down always passes the depth check, and
      one with the depth cue can never take the squatter down. */
  lemma DepthCueBlocksDescent(c: Counter, m: Features)
    requires c.phase == Up
    ensures Step(c, m).phase == Down ==> DepthCue !in Feedback(Lines(m, Step(c, m)))
    ensures DepthCue in Feedback(Lines(m, Step(c, m))) ==> Step(c, m) == c
  {
  }
}
