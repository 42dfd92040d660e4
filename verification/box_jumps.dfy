/** The box jump coach: the ground line is the lowest ankle height seen so
    far (image y grows downward), and a jump is counted on landing. */
module BoxJumpCoach {
  import opened Wrappers
  import opened Geometry
  import opened Landmarks
  import opened Text
  import opened Report

  const Header := "Mode: Exercise - Box Jump"
  const NoPerson := "No person detected."
  const KneeCue := "Absorb landing by bending knees and hips."
  const Reminder := "Land softly on entire foot; avoid stiff knees."

  /** How far above the ground line the ankles must be to count as airborne. */
  const Lift := 8.0
  /** How far above the ground line the knees must be for a soft landing. */
  const KneeClearance := 12.0

  datatype Phase = Ground | Air

  function PhaseName(p: Phase): string {
    match p
    case Ground => "ground"
    case Air => "air"
  }

  datatype Jumper = Jumper(phase: Phase, jumps: nat, groundY: Option<real>)

  /** A new coach: on the ground, no ground line yet. */
  function Init(): Jumper {
    Jumper(Ground, 0, None)
  }

  /** The ground line after seeing ankles at `ankleY`: it only moves down. */
  function Lower(groundY: Option<real>, ankleY: real): (g: real)
    ensures g >= ankleY
    ensures groundY.Some? ==> g >= groundY.value
    ensures g == ankleY || (groundY.Some? && g == groundY.value)
  {
    if groundY.None? || ankleY > groundY.value then ankleY else groundY.value
  }

  predicate Airborne(ankleY: real, groundY: real) {
    ankleY < groundY - Lift
  }

  /** The phase machine: leaving the ground line by more than the lift goes
      `air`; coming back within it lands and counts a jump. */
  function Step(j: Jumper, ankleY: real): (r: Jumper)
    ensures r.groundY == Some(Lower(j.groundY, ankleY))
    ensures r.phase == Air <==> ankleY < Lower(j.groundY, ankleY) - 8.0
    ensures r.jumps == if j.phase == Air && ankleY >= Lower(j.groundY, ankleY) - 8.0 then j.jumps + 1 else j.jumps
  {
    var g := Lower(j.groundY, ankleY);
    var airborne := Airborne(ankleY, g);
    match j.phase
    case Ground => Jumper(if airborne then Air else Ground, j.jumps, Some(g))
    case Air => if airborne then Jumper(Air, j.jumps, Some(g)) else Jumper(Ground, j.jumps + 1, Some(g))
  }

  /** The first frame never leaves the ground: with no earlier line, the
      ankles define it. */
  lemma FirstFrameGrounded(ankleY: real)
    ensures Step(Init(), ankleY) == Jumper(Ground, 0, Some(ankleY))
  {
  }

  /** The machine over the ankle heights of consecutive frames with a person. */
  function Run(j: Jumper, ankles: seq<real>): Jumper
    decreases |ankles|
  {
    if ankles == [] then j else Run(Step(j, ankles[0]), ankles[1..])
  }

  /** After a run the ground line is the lowest of the ankle heights seen
      and the line it started from: no seen ankle lies below it, and it is
      one of them. */
  lemma {:induction false} GroundIsLowestAnkle(j: Jumper, ankles: seq<real>)
    requires j.groundY.Some? || ankles != []
    ensures Run(j, ankles).groundY.Some?
    ensures forall k | 0 <= k < |ankles| :: ankles[k] <= Run(j, ankles).groundY.value
    ensures j.groundY.Some? ==> j.groundY.value <= Run(j, ankles).groundY.value
    ensures (j.groundY.Some? && Run(j, ankles).groundY.value == j.groundY.value)
         || (exists k | 0 <= k < |ankles| :: ankles[k] == Run(j, ankles).groundY.value)
    decreases |ankles|
  {
    if ankles != [] {
      var next := Step(j, ankles[0]);
      var rest := ankles[1..];
      GroundIsLowestAnkle(next, rest);
      var g := Run(j, ankles).groundY.value;
      assert Run(j, ankles) == Run(next, rest);
      forall k | 0 <= k < |ankles|
        ensures ankles[k] <= g
      {
        if k > 0 {
          assert ankles[k] == rest[k - 1];
        }
      }
      if next.groundY.value == g {
        if next.groundY.value != ankles[0] {
          assert j.groundY.Some? && g == j.groundY.value;
        }
      } else {
        var k :| 0 <= k < |rest| && rest[k] == g;
        assert ankles[k + 1] == g;
      }
    }
  }

  /** "Jumps: N | Phase: p" */
  function StatusLine(jumps: nat, phase: Phase): string {
    "Jumps: " + Decimal(jumps) + " | Phase: " + PhaseName(phase)
  }

  /** The lines shown after stepping to `j`, with the ground line `groundY`
      and the knees at `kneeY`: the knee cue unless the knees stay
      clearly above the ground line, then the reminder. */
  function Lines(j: Jumper, groundY: real, kneeY: real): (r: seq<string>)
    ensures |r| >= 3 && r[0] == Header && r[1] == StatusLine(j.jumps, j.phase) && r[|r| - 1] == Reminder
    ensures KneeCue in Feedback(r) <==> kneeY >= groundY - KneeClearance
    ensures |r| == if kneeY < groundY - KneeClearance then 3 else 4
    ensures Feedback(r) == When(kneeY >= groundY - KneeClearance, KneeCue) + [Reminder]
  {
    var cs := [Check(kneeY < groundY - KneeClearance, KneeCue)];
    FeedbackOfLines(Header, StatusLine(j.jumps, j.phase), cs, [Reminder]);
    CuesOfOne(cs[0]);
    CueShownInLines(Header, StatusLine(j.jumps, j.phase), cs, [Reminder], 0);
    Report.Lines(Header, StatusLine(j.jumps, j.phase), cs, [Reminder])
  }

  datatype Features = Features(ankleY: real, kneeY: real)

  /** Mean ankle and knee heights; only y coordinates are read, as at
      src/pose_coach/exercises/box_jumps.py:26-31 and line 43. */
  function Measure(f: Frame): Features {
    var b := f.body;
    Features((b.leftAnkle.y + b.rightAnkle.y) / 2.0, (b.leftKnee.y + b.rightKnee.y) / 2.0)
  }

  /** `BoxJumpCoach.update` */
  function Update(j: Jumper, frame: Option<Frame>): (r: Outcome<Jumper>)
    ensures frame.None? ==> r.state == j && r.lines == [Header, NoPerson, "Jumps: " + Decimal(j.jumps)]
    ensures frame.Some? ==> r.state == Step(j, Measure(frame.value).ankleY)
    ensures frame.Some? ==> r.lines == Lines(r.state, Lower(j.groundY, Measure(frame.value).ankleY), Measure(frame.value).kneeY)
  {
    match frame
    case None => Outcome(j, [Header, NoPerson, "Jumps: " + Decimal(j.jumps)])
    case Some(f) =>
      var m := Measure(f);
      var next := Step(j, m.ankleY);
      Outcome(next, Lines(next, next.groundY.value, m.kneeY))
  }
}
