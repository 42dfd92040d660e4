/** The two-phase hysteresis counter behind most coaches: a phase that is
    `"down"` or `"up"`, a repetition count, and two disjoint triggers with a
    dead zone between them. Exactly one of the two transitions counts. */
module Phases {

  datatype Phase = Down | Up

  /** The phase as the coaches print it. */
  function PhaseName(p: Phase): string {
    match p
    case Down => "down"
    case Up => "up"
  }

  datatype Counter = Counter(phase: Phase, reps: nat)

  /** One frame: `Down` moves to `Up` when `rise` holds, `Up` moves to `Down`
      when `fall` holds, and entering the phase `counted` adds one repetition. */
  function Advance(c: Counter, rise: bool, fall: bool, counted: Phase): (r: Counter)
    ensures c.phase == Down ==> (r.phase == Up <==> rise)
    ensures c.phase == Up ==> (r.phase == Down <==> fall)
    ensures r.reps == if r.phase != c.phase && r.phase == counted then c.reps + 1 else c.reps
  {
    if c.phase == Down && rise then Counter(Up, if counted == Up then c.reps + 1 else c.reps)
    else if c.phase == Up && fall then Counter(Down, if counted == Down then c.reps + 1 else c.reps)
    else c
  }

  /** The triggers one frame presents to the counter. */
  datatype Signal = Signal(rise: bool, fall: bool)

  /** Frames delivered in capture order. */
  function Run(c: Counter, signals: seq<Signal>, counted: Phase): Counter
    decreases |signals|
  {
    if signals == [] then c
    else Run(Advance(c, signals[0].rise, signals[0].fall, counted), signals[1..], counted)
  }

  /** How many of those frames changed the phase. */
  function Changes(c: Counter, signals: seq<Signal>, counted: Phase): nat
    decreases |signals|
  {
    if signals == [] then 0
    else
      var next := Advance(c, signals[0].rise, signals[0].fall, counted);
      (if next.phase != c.phase then 1 else 0) + Changes(next, signals[1..], counted)
  }

  /** The count never decreases and grows by at most one per frame. */
  lemma {:induction false} RunMonotone(c: Counter, signals: seq<Signal>, counted: Phase)
    ensures c.reps <= Run(c, signals, counted).reps <= c.reps + |signals|
    decreases |signals|
  {
    if signals != [] {
      RunMonotone(Advance(c, signals[0].rise, signals[0].fall, counted), signals[1..], counted);
    }
  }

  /** Frames inside the dead zone leave phase and count untouched. */
  lemma {:induction false} DeadZoneRun(c: Counter, signals: seq<Signal>, counted: Phase)
    requires forall k | 0 <= k < |signals| :: !signals[k].rise && !signals[k].fall
    ensures Run(c, signals, counted) == c
    decreases |signals|
  {
    if signals != [] {
      assert !signals[0].rise && !signals[0].fall;
      DeadZoneRun(c, signals[1..], counted);
    }
  }

  /** Hysteresis: a repetition needs a full cycle, so the count grows by at
      most half the phase changes (plus one when starting outside `counted`). */
  lemma {:induction false} OneRepPerCycle(c: Counter, signals: seq<Signal>, counted: Phase)
    ensures Run(c, signals, counted).reps >= c.reps
    ensures 2 * (Run(c, signals, counted).reps - c.reps)
            <= Changes(c, signals, counted) + (if c.phase == counted then 0 else 1)
    decreases |signals|
  {
    if signals != [] {
      var next := Advance(c, signals[0].rise, signals[0].fall, counted);
      OneRepPerCycle(next, signals[1..], counted);
    }
  }
}
