/** The calf raise coach: the rise is measured against the ankle height of
    the first frame with a person, which is kept for the whole session. */
module CalfRaiseCoach {
  import opened Wrappers
  import opened Geometry
  import opened Landmarks
  import opened Phases
  import opened Report

  const Header := "Mode: Exercise - Calf Raise"
  const NoPerson := "No person detected. Ensure lower body in frame."
  const Reminder := "Go up on toes fully; pause and lower slowly."

  datatype Raiser = Raiser(counter: Counter, baselineY: Option<real>)

  /** A new coach: heels down, no baseline yet. */
  function Init(): Raiser {
    Raiser(Counter(Down, 0), None)
  }

  /** The baseline is taken once and never replaced. */
  function Baseline(baselineY: Option<real>, ankleY: real): (b: real)
    ensures baselineY.Some? ==> b == baselineY.value
    ensures baselineY.None? ==> b == ankleY
  {
    if baselineY.None? then ankleY else baselineY.value
  }

  /** The phase machine on the rise above the baseline: a repetition is
      counted on reaching the top. */
  function Step(s: Raiser, ankleY: real): (r: Raiser)
    ensures r.baselineY == Some(Baseline(s.baselineY, ankleY))
    ensures s.counter.phase == Down ==> (r.counter.phase == Up <==> Baseline(s.baselineY, ankleY) - ankleY > 12.0)
    ensures s.counter.phase == Up ==> (r.counter.phase == Down <==> Baseline(s.baselineY, ankleY) - ankleY < 4.0)
    ensures r.counter.reps == if s.counter.phase == Down && Baseline(s.baselineY, ankleY) - ankleY > 12.0
                              then s.counter.reps + 1 else s.counter.reps
    ensures 4.0 <= Baseline(s.baselineY, ankleY) - ankleY <= 12.0 ==> r.counter == s.counter
  {
    var b := Baseline(s.baselineY, ankleY);
    var rise := b - ankleY;
    Raiser(Advance(s.counter, rise > 12.0, rise < 4.0, Up), Some(b))
  }

  /** The first frame has no rise, so it never counts. */
  lemma FirstFrameCountsNothing(ankleY: real)
    ensures Step(Init(), ankleY) == Raiser(Counter(Down, 0), Some(ankleY))
  {
  }

  /** The ankle height of the first frame with a person, if any. */
  function FirstSeen(ankles: seq<Option<real>>): Option<real>
    decreases |ankles|
  {
    if ankles == [] then None
    else if ankles[0].Some? then ankles[0]
    else FirstSeen(ankles[1..])
  }

  /** The machine over consecutive frames; `None` is a frame with no person,
      which leaves the state alone. */
  function Run(s: Raiser, ankles: seq<Option<real>>): Raiser
    decreases |ankles|
  {
    if ankles == [] then s
    else Run(if ankles[0].Some? then Step(s, ankles[0].value) else s, ankles[1..])
  }

  /** The baseline never ratchets: after any run it is the one already
      held, or else the first ankle height seen. */
  lemma {:induction false} BaselineIsFirstSeen(s: Raiser, ankles: seq<Option<real>>)
    ensures s.baselineY.Some? ==> Run(s, ankles).baselineY == s.baselineY
    ensures s.baselineY.None? ==> Run(s, ankles).baselineY == FirstSeen(ankles)
    decreases |ankles|
  {
    if ankles != [] {
      var next := if ankles[0].Some? then Step(s, ankles[0].value) else s;
      BaselineIsFirstSeen(next, ankles[1..]);
    }
  }

  /** Three lines on every frame with a person. */
  function Lines(c: Counter): (r: seq<string>)
    ensures |r| == 3 && r[0] == Header && r[2] == Reminder
    ensures r[1] == StatusLine(c.reps, PhaseName(c.phase))
  {
    [Header, StatusLine(c.reps, PhaseName(c.phase)), Reminder]
  }

  /** Mean ankle height; only y coordinates are read, as at
      src/pose_coach/exercises/calf_raises.py:24-26. */
  function AnkleY(f: Frame): real {
    (f.body.leftAnkle.y + f.body.rightAnkle.y) / 2.0
  }

  /** `CalfRaiseCoach.update` */
  function Update(s: Raiser, frame: Option<Frame>): (r: Outcome<Raiser>)
    ensures frame.None? ==> r.state == s && r.lines == [Header, NoPerson, RepsLine(s.counter.reps)]
    ensures frame.Some? ==> r.state == Step(s, AnkleY(frame.value))
    ensures frame.Some? ==> r.lines == Lines(r.state.counter)
  {
    match frame
    case None => Outcome(s, [Header, NoPerson, RepsLine(s.counter.reps)])
    case Some(f) =>
      var next := Step(s, AnkleY(f));
      Outcome(next, Lines(next.counter))
  }
}
