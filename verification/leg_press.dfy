/** The leg press coach: a three-stage machine that starts in `start`, so the
    first bottom reached is counted even without a lockout before it. */
module LegPressCoach {
  import opened Wrappers
  import opened Geometry
  import opened Landmarks
  import opened Report

  const Header := "Mode: Exercise - Leg Press"
  const NoPerson := "No person detected. Ensure lower body in frame."
  const TrackCue := "Track knees over toes; avoid valgus collapse."
  const GoodTracking := "Good knee tracking."
  const Reminder := "Control ROM: full extension without locking, deep enough at bottom."

  datatype Stage = Start | Up | Down

  function StageName(s: Stage): string {
    match s
    case Start => "start"
    case Up => "up"
    case Down => "down"
  }

  datatype Press = Press(stage: Stage, reps: nat)

  /** A new coach: no stage reached yet, nothing counted. */
  function Init(): Press {
    Press(Start, 0)
  }

  predicate AtBottom(kneeAngle: real) {
    kneeAngle < 90.0
  }

  predicate AtTop(kneeAngle: real) {
    kneeAngle > 160.0
  }

  /** The stage machine: lockout moves to `up` from `start` or `down`; the
      bottom moves to `down` from `start` or `up` and counts a repetition. */
  function Step(p: Press, kneeAngle: real): (r: Press)
    ensures r.stage == Up <==> kneeAngle > 160.0 || (p.stage == Up && kneeAngle >= 90.0)
    ensures r.stage == Down <==> kneeAngle < 90.0 || (p.stage == Down && kneeAngle <= 160.0)
    ensures r.reps == if p.stage != Down && kneeAngle < 90.0 then p.reps + 1 else p.reps
    ensures r.stage == Start ==> p.stage == Start
    ensures 90.0 <= kneeAngle <= 160.0 ==> r == p
  {
    match p.stage
    case Start =>
      if AtTop(kneeAngle) then Press(Up, p.reps)
      else if AtBottom(kneeAngle) then Press(Down, p.reps + 1)
      else p
    case Down => if AtTop(kneeAngle) then Press(Up, p.reps) else p
    case Up => if AtBottom(kneeAngle) then Press(Down, p.reps + 1) else p
  }

  /** The machine over the knee angles of consecutive frames with a person. */
  function Run(p: Press, angles: seq<real>): Press
    decreases |angles|
  {
    if angles == [] then p else Run(Step(p, angles[0]), angles[1..])
  }

  /** `start` is left for good on the first frame at either end of the
      range, and a run that is still in `start` saw no such frame and
      counted nothing. */
  lemma {:induction false} StartNeverReentered(p: Press, angles: seq<real>)
    ensures Run(p, angles).stage == Start ==> p.stage == Start && Run(p, angles).reps == p.reps
    ensures Run(p, angles).stage == Start ==> forall k | 0 <= k < |angles| :: 90.0 <= angles[k] <= 160.0
    decreases |angles|
  {
    if angles != [] {
      StartNeverReentered(Step(p, angles[0]), angles[1..]);
      if Run(p, angles).stage == Start {
        forall k | 0 <= k < |angles|
          ensures 90.0 <= angles[k] <= 160.0
        {
          if k > 0 {
            assert angles[k] == angles[1..][k - 1];
          }
        }
      }
    }
  }

  datatype Features = Features(
    kneeAngle: real,      // hip-knee-ankle on the midpoints
    leftKneeOffset: real, // horizontal left knee-to-hip distance
    leftAnkleOffset: real,
    rightKneeOffset: real,
    rightAnkleOffset: real)

  /** Reads the knee angle of the midpoint joints and each leg's knee and ankle offsets from its hip,
      as at src/pose_coach/exercises/leg_press.py:28-40. */
  function Measure(f: Frame, g: Oracle): Features {
    var b := f.body;
    var hip := Mid(b.leftHip, b.rightHip);
    var knee := Mid(b.leftKnee, b.rightKnee);
    var ankle := Mid(b.leftAnkle, b.rightAnkle);
    Features(
      g.angleAt(hip, knee, ankle),
      Abs(b.leftKnee.x - b.leftHip.x), Abs(b.leftAnkle.x - b.leftHip.x),
      Abs(b.rightKnee.x - b.rightHip.x), Abs(b.rightAnkle.x - b.rightHip.x))
  }

  /** Either knee sits well inside its ankle's line. */
  predicate KneesIn(m: Features) {
    m.leftKneeOffset < m.leftAnkleOffset * 0.7 || m.rightKneeOffset < m.rightAnkleOffset * 0.7
  }

  /** Four lines whatever the frame shows: the tracking line is either the
      valgus cue or the approval, never both. */
  function Lines(m: Features, p: Press): (r: seq<string>)
    ensures |r| == 4 && r[0] == Header && r[1] == StatusLine(p.reps, StageName(p.stage)) && r[3] == Reminder
    ensures r[2] == TrackCue <==> KneesIn(m)
    ensures r[2] == GoodTracking <==> !KneesIn(m)
  {
    assert |TrackCue| != |GoodTracking|;
    [Header, StatusLine(p.reps, StageName(p.stage)), if KneesIn(m) then TrackCue else GoodTracking, Reminder]
  }

  /** `LegPressCoach.update` */
  function Update(p: Press, frame: Option<Frame>, g: Oracle): (r: Outcome<Press>)
    ensures frame.None? ==> r.state == p && r.lines == [Header, NoPerson, RepsLine(p.reps)]
    ensures frame.Some? ==> r.state == Step(p, Measure(frame.value, g).kneeAngle)
    ensures frame.Some? ==> r.lines == Lines(Measure(frame.value, g), r.state)
  {
    match frame
    case None => Outcome(p, [Header, NoPerson, RepsLine(p.reps)])
    case Some(f) =>
      var m := Measure(f, g);
      var next := Step(p, m.kneeAngle);
      Outcome(next, Lines(m, next))
  }
}
