/** The lateral raise coach: elbow heights relative to the shoulders, scaled
    by the frame height, counted when both arms reach shoulder height. */
module LateralRaiseCoach {
  import opened Wrappers
  import opened Geometry
  import opened Landmarks
  import opened Phases
  import opened Report

  const Header := "Mode: Exercise - Lateral Raise"
  const NoPerson := "No person detected."
  const HeightCue := "Raise to shoulder height; control the top."
  const ElbowCue := "Keep a slight elbow bend; lead with elbows, not wrists."
  const Praise := "Great raises! Slow on the way down."

  /** A new coach: arms down, nothing counted. */
  function Init(): Counter {
    Counter(Down, 0)
  }

  datatype Features = Features(
    leftLift: real,       // left elbow y minus left shoulder y (positive: elbow below)
    rightLift: real,
    leftForearm: real,    // vertical left elbow-to-wrist distance
    rightForearm: real,
    height: real)         // frame height in pixels

  /** Reads the elbow, shoulder and wrist heights of both arms and the frame height,
      as at src/pose_coach/exercises/lateral_raises.py:28-41. */
  function Measure(f: Frame): Features {
    var b := f.body;
    Features(
      b.leftElbow.y - b.leftShoulder.y,
      b.rightElbow.y - b.rightShoulder.y,
      Abs(b.leftElbow.y - b.leftWrist.y),
      Abs(b.rightElbow.y - b.rightWrist.y),
      f.height)
  }

  predicate LeftHeightOk(m: Features) {
    Abs(m.leftLift) < 0.08 * m.height
  }

  predicate RightHeightOk(m: Features) {
    Abs(m.rightLift) < 0.08 * m.height
  }

  predicate ElbowSoft(m: Features) {
    m.leftForearm < 0.15 * m.height && m.rightForearm < 0.15 * m.height
  }

  /** Both elbows within the shoulder band. */
  predicate UpPhase(m: Features) {
    LeftHeightOk(m) && RightHeightOk(m)
  }

  /** Both elbows clearly below the shoulders. */
  predicate DownPhase(m: Features) {
    m.leftLift > 0.12 * m.height && m.rightLift > 0.12 * m.height
  }

  /** The phase machine: a repetition is counted on reaching the top. */
  function Step(c: Counter, m: Features): (r: Counter)
    ensures c.phase == Down ==> (r.phase == Up <==> UpPhase(m))
    ensures c.phase == Up ==> (r.phase == Down <==> DownPhase(m))
    ensures r.reps == if c.phase == Down && UpPhase(m) then c.reps + 1 else c.reps
    ensures !UpPhase(m) && !DownPhase(m) ==> r == c
  {
    Advance(c, UpPhase(m), DownPhase(m), Up)
  }

  /** On a frame of non-negative height the two bands are disjoint, so a
      single frame never satisfies both the top and the bottom test. */
  lemma PhasesDisjoint(m: Features)
    requires m.height >= 0.0
    ensures !(UpPhase(m) && DownPhase(m))
  {
  }

  function Checks(m: Features): seq<Check> {
    [Check(UpPhase(m), HeightCue), Check(ElbowSoft(m), ElbowCue)]
  }

  /** The lines shown after the counter has been advanced to `c`; one cue
      covers either arm being out of the band. */
  function Lines(m: Features, c: Counter): (r: seq<string>)
    ensures |r| >= 2 && r[0] == Header && r[1] == StatusLine(c.reps, PhaseName(c.phase))
    ensures HeightCue in Feedback(r) <==> !LeftHeightOk(m) || !RightHeightOk(m)
    ensures ElbowCue in Feedback(r) <==> !ElbowSoft(m)
    ensures Praise in Feedback(r) <==> LeftHeightOk(m) && RightHeightOk(m) && ElbowSoft(m)
    ensures Praise in Feedback(r) ==> Feedback(r) == [Praise]
    ensures Feedback(r) == When(!UpPhase(m), HeightCue) + When(!ElbowSoft(m), ElbowCue) + When(UpPhase(m) && ElbowSoft(m), Praise)
  {
    var cs := Checks(m);
    var status := StatusLine(c.reps, PhaseName(c.phase));
    var tail := Closing(cs, Praise);
    CueShownInLines(Header, status, cs, tail, 0);
    CueShownInLines(Header, status, cs, tail, 1);
    ClosingOfTwo(Header, status, cs[0], cs[1], Praise);
    ClosingShownInLines(Header, status, cs, Praise);
    Report.Lines(Header, status, cs, tail)
  }

  /** `LateralRaiseCoach.update` */
  function Update(c: Counter, frame: Option<Frame>): (r: Outcome<Counter>)
    ensures frame.None? ==> r.state == c && r.lines == [Header, NoPerson, RepsLine(c.reps)]
    ensures frame.Some? ==> r.state == Step(c, Measure(frame.value))
    ensures frame.Some? ==> r.lines == Lines(Measure(frame.value), r.state)
  {
    match frame
    case None => Outcome(c, [Header, NoPerson, RepsLine(c.reps)])
    case Some(f) =>
      var m := Measure(f);
      var next := Step(c, m);
      Outcome(next, Lines(m, next))
  }

  /** The frame that counts a repetition never shows the height cue. */
  lemma CountingFrameAtShoulderHeight(c: Counter, m: Features)
    ensures Step(c, m).reps > c.reps ==> HeightCue !in Feedback(Lines(m, Step(c, m)))
  {
  }
}
