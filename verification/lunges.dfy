/** The lunge coach: the front leg is the one with the longer stride,
    counted on the return to the top. */
module LungeCoach {
  import opened Wrappers
  import opened Geometry
  import opened Landmarks
  import opened Phases
  import opened Report

  const Header := "Mode: Exercise - Lunge"
  const NoPerson := "No person detected. Ensure full body in frame."
  const ShinCue := "Keep front shin vertical; knee over ankle, not past toes."
  const DepthCue := "Lower until front thigh approaches parallel."
  const Praise := "Nice lunge. Control the descent."

  /** A new coach: standing, nothing counted. */
  function Init(): Counter {
    Counter(Up, 0)
  }

  /** Horizontal knee-to-hip distance of one leg. */
  function Stride(b: Body, s: Side): Distance {
    match s
    case Left => Abs(b.leftKnee.x - b.leftHip.x)
    case Right => Abs(b.rightKnee.x - b.rightHip.x)
  }

  /** The front leg: left only when its stride is strictly longer, so a tie
      picks the right leg. */
  function FrontSide(b: Body): (s: Side)
    ensures s == Left <==> Stride(b, Left) > Stride(b, Right)
    ensures Stride(b, Left) == Stride(b, Right) ==> s == Right
  {
    if Stride(b, Left) > Stride(b, Right) then Left else Right
  }

  datatype Leg = Leg(hip: Point, knee: Point, ankle: Point)

  function LegOf(b: Body, s: Side): Leg {
    match s
    case Left => Leg(b.leftHip, b.leftKnee, b.leftAnkle)
    case Right => Leg(b.rightHip, b.rightKnee, b.rightAnkle)
  }

  predicate AtBottom(kneeAngle: real) {
    kneeAngle < 110.0
  }

  predicate AtTop(kneeAngle: real) {
    kneeAngle > 160.0
  }

  /** The phase machine: a repetition is counted on standing back up. */
  function Step(c: Counter, kneeAngle: real): (r: Counter)
    ensures c.phase == Up ==> (r.phase == Down <==> kneeAngle < 110.0)
    ensures c.phase == Down ==> (r.phase == Up <==> kneeAngle > 160.0)
    ensures r.reps == if c.phase == Down && kneeAngle > 160.0 then c.reps + 1 else c.reps
    ensures 110.0 <= kneeAngle <= 160.0 ==> r == c
  {
    Advance(c, AtTop(kneeAngle), AtBottom(kneeAngle), Up)
  }

  datatype Features = Features(
    kneeAngle: real,      // hip-knee-ankle of the front leg
    shinOffset: real,     // horizontal knee-to-ankle distance
    legLength: real)      // hip-to-ankle length

  /** Reads the front leg's hip, knee and ankle, its knee angle and its leg length,
      as at src/pose_coach/exercises/lunges.py:28-46. */
  function Measure(f: Frame, g: Oracle): Features {
    var leg := LegOf(f.body, FrontSide(f.body));
    Features(
      g.angleAt(leg.hip, leg.knee, leg.ankle),
      Abs(leg.knee.x - leg.ankle.x),
      g.norm(Sub(leg.hip, leg.ankle)))
  }

  predicate VerticalShin(m: Features) {
    m.shinOffset < 0.2 * m.legLength
  }

  predicate DepthOk(m: Features) {
    AtBottom(m.kneeAngle)
  }

  function Checks(m: Features): seq<Check> {
    [Check(VerticalShin(m), ShinCue), Check(DepthOk(m), DepthCue)]
  }

  /** The lines shown after the counter has been advanced to `c`. */
  function Lines(m: Features, c: Counter): (r: seq<string>)
    ensures |r| >= 2 && r[0] == Header && r[1] == StatusLine(c.reps, PhaseName(c.phase))
    ensures ShinCue in Feedback(r) <==> !VerticalShin(m)
    ensures DepthCue in Feedback(r) <==> m.kneeAngle >= 110.0
    ensures Praise in Feedback(r) <==> VerticalShin(m) && DepthOk(m)
    ensures Praise in Feedback(r) ==> Feedback(r) == [Praise]
    ensures Feedback(r) == When(!VerticalShin(m), ShinCue) + When(!DepthOk(m), DepthCue) + When(VerticalShin(m) && DepthOk(m), Praise)
  {
    var cs := Checks(m);
    var status := StatusLine(c.reps, PhaseName(c.phase));
    var tail := Closing(cs, Praise);
    CueShownInLines(Header, status, cs, tail, 0);
    CueShownInLines(Header, status, cs, tail, 1);
    ClosingOfTwo(Header, status, cs[0], cs[1], Praise);
    ClosingShownInLines(Header, status, cs, Praise);
    Report.Lines(Header, status, cs, tail)
  }

  /** `LungeCoach.update` */
  function Update(c: Counter, frame: Option<Frame>, g: Oracle): (r: Outcome<Counter>)
    ensures frame.None? ==> r.state == c && r.lines == [Header, NoPerson, RepsLine(c.reps)]
    ensures frame.Some? ==> r.state == Step(c, Measure(frame.value, g).kneeAngle)
    ensures frame.Some? ==> r.lines == Lines(Measure(frame.value, g), r.state)
  {
    match frame
    case None => Outcome(c, [Header, NoPerson, RepsLine(c.reps)])
    case Some(f) =>
      var m := Measure(f, g);
      var next := Step(c, m.kneeAngle);
      Outcome(next, Lines(m, next))
  }

  /** Praise is only ever shown at the bottom of the lunge: a frame deep
      enough to pass the depth check leaves the machine in `down`. */
  lemma PraiseOnlyAtBottom(c: Counter, m: Features)
    ensures Praise in Feedback(Lines(m, Step(c, m.kneeAngle))) ==> Step(c, m.kneeAngle).phase == Down
  {
  }
}
