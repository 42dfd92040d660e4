/** The cable woodchopper coach: a three-stage machine counting a chop when
    the torso is rotated and the hands are far from the shoulders. */
module CableWoodchopperCoach {
  import opened Wrappers
  import opened Geometry
  import opened Landmarks
  import opened Report

  const Header := "Mode: Exercise - Cable Woodchopper"
  const NoPerson := "No person detected."
  const Reminder := "Rotate torso, not just arms; control the chop."

  datatype Stage = Start | Eccentric | Concentric

  function StageName(s: Stage): string {
    match s
    case Start => "start"
    case Eccentric => "eccentric"
    case Concentric => "concentric"
  }

  datatype Chop = Chop(stage: Stage, reps: nat)

  /** A new coach: no chop seen yet. */
  function Init(): Chop {
    Chop(Start, 0)
  }

  datatype Features = Features(
    rotation: real,       // hip-to-shoulder vector against the upward vertical
    handsDistance: real,  // shoulder midpoint to hands midpoint
    width: real)          // frame width in pixels

  /** Reads the torso rotation against the upward vertical, the hands' distance from the shoulders and the frame width,
      as at src/pose_coach/exercises/cable_woodchoppers.py:28-45. */
  function Measure(f: Frame, g: Oracle): Features {
    var b := f.body;
    var shoulder := Mid(b.leftShoulder, b.rightShoulder);
    var hip := Mid(b.leftHip, b.rightHip);
    var hands := Mid(b.leftWrist, b.rightWrist);
    Features(g.angleBetween(Sub(shoulder, hip), VerticalUp), g.norm(Sub(hands, shoulder)), f.width)
  }

  predicate BigRotation(m: Features) {
    m.rotation > 25.0
  }

  predicate HandsFar(m: Features) {
    m.handsDistance > 0.25 * m.width
  }

  /** The stage machine: a rotated, extended frame enters `concentric` and
      counts a chop; losing the rotation falls back to `eccentric`. */
  function Step(c: Chop, m: Features): (r: Chop)
    ensures r.stage == Concentric <==> BigRotation(m) && (HandsFar(m) || c.stage == Concentric)
    ensures r.reps == if c.stage != Concentric && BigRotation(m) && HandsFar(m) then c.reps + 1 else c.reps
    ensures r.stage == Start <==> c.stage == Start && !(BigRotation(m) && HandsFar(m))
  {
    match c.stage
    case Start | Eccentric => if BigRotation(m) && HandsFar(m) then Chop(Concentric, c.reps + 1) else c
    case Concentric => if !BigRotation(m) then Chop(Eccentric, c.reps) else c
  }

  /** Three lines on every frame with a person. */
  function Lines(c: Chop): (r: seq<string>)
    ensures |r| == 3 && r[0] == Header && r[2] == Reminder
    ensures r[1] == StatusLine(c.reps, StageName(c.stage))
  {
    [Header, StatusLine(c.reps, StageName(c.stage)), Reminder]
  }

  /** `CableWoodchopperCoach.update` */
  function Update(c: Chop, frame: Option<Frame>, g: Oracle): (r: Outcome<Chop>)
    ensures frame.None? ==> r.state == c && r.lines == [Header, NoPerson, RepsLine(c.reps)]
    ensures frame.Some? ==> r.state == Step(c, Measure(frame.value, g))
    ensures frame.Some? ==> r.lines == Lines(r.state)
  {
    match frame
    case None => Outcome(c, [Header, NoPerson, RepsLine(c.reps)])
    case Some(f) =>
      var next := Step(c, Measure(f, g));
      Outcome(next, Lines(next))
  }

  /** Holding the rotation never counts twice: a frame that stays in
      `concentric` adds nothing. */
  lemma OneChopPerRotation(c: Chop, m: Features)
    requires c.stage == Concentric
    ensures Step(c, m).reps == c.reps
  {
  }
}
