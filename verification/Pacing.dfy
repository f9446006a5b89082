/** The simulator's pacing loop in exact arithmetic: any clock that does not go back, sleeps that never end early. */
module Pacing {
  function Ceil(x: real): int { -((-x).Floor) }
  function Max(a: int, b: int): int { if a < b then b else a }
  function MaxReal(a: real, b: real): real { if a < b then b else a }
  function MinReal(a: real, b: real): real { if a < b then a else b }

  const EPSILON: real := 0.000000001

  datatype Plan = Plan(started: real, seconds: int, rate: int)

  predicate ValidPlan(p: Plan) { 1 <= p.seconds <= 86400 && 1 <= p.rate <= 2000 }
  function Deadline(p: Plan): real { p.started + p.seconds as real }
  function Interval(p: Plan): real
    requires p.rate > 0
  {
    1.0 / p.rate as real
  }

  /** The clock as one attempt reads it: before the sleep, at the deadline check, as started_op, and after the operation. */
  datatype Readings = Readings(now: real, checked: real, start: real, done: real)

  datatype State = State(slot: int, nextTick: real, skipped: int, starts: seq<real>, now: real)

  function Begin(p: Plan): State { State(0, p.started, 0, [], p.started) }

  predicate Open(p: Plan, s: State, r: Readings) { r.now < Deadline(p) && s.slot < p.seconds * p.rate }

  /** The clock never goes back, and a sleep lasts at least as long as asked for. */
  predicate Physical(p: Plan, s: State, r: Readings) {
    s.now <= r.now && r.now <= r.checked <= r.start <= r.done
    && (r.now < s.nextTick ==> r.checked >= MinReal(s.nextTick, Deadline(p)))
  }

  function NextSlot(p: Plan, slot: int, done: real): (next: int)
    ensures next > slot
  {
    Max(slot + 1, Ceil((done - p.started) * p.rate as real - EPSILON))
  }

  /** The next slot is the first after this one that was not yet due when the operation ended: missed slots are skipped, no other. */
  lemma NextSlotExactly(p: Plan, slot: int, done: real)
    ensures var next, due := NextSlot(p, slot, done), (done - p.started) * p.rate as real - 0.000000001;
      next >= slot + 1 && next as real >= due && (next > slot + 1 ==> (next - 1) as real < due)
  {
  }

  /** One round that gets past the deadline check. */
  function Attempt(p: Plan, s: State, r: Readings): State
    requires p.rate > 0
  {
    var next := NextSlot(p, s.slot, r.done);
    State(next, MaxReal(p.started + next as real * Interval(p), r.start + Interval(p)),
          s.skipped + (next - (s.slot + 1)), s.starts + [r.start], r.done)
  }

  /** A run: rounds while the loop is open and the check passes. */
  predicate Admitted(p: Plan, s: State, r: Readings) { Open(p, s, r) && Physical(p, s, r) && r.checked < Deadline(p) }

  ghost predicate Rounds(p: Plan, s: State, rs: seq<Readings>)
    requires p.rate > 0
    decreases |rs|
  {
    rs == [] || (Admitted(p, s, rs[0]) && Rounds(p, Attempt(p, s, rs[0]), rs[1..]))
  }

  function After(p: Plan, s: State, rs: seq<Readings>): State
    requires p.rate > 0
    decreases |rs|
  {
    if rs == [] then s else After(p, Attempt(p, s, rs[0]), rs[1..])
  }

  /** How long a round asks to sleep. */
  function Wait(p: Plan, s: State, now: real): real { if now < s.nextTick then MinReal(s.nextTick, Deadline(p)) - now else 0.0 }

  function Waits(p: Plan, s: State, rs: seq<Readings>): real
    requires p.rate > 0
    decreases |rs|
  {
    if rs == [] then 0.0 else Wait(p, s, rs[0].now) + Waits(p, Attempt(p, s, rs[0]), rs[1..])
  }

  /** Why no further attempt is made: the window is over before or after the wait, or the slots are used up. */
  ghost predicate Over(p: Plan, s: State, now: real, checked: real) {
    now >= Deadline(p) || s.slot >= p.seconds * p.rate || checked >= Deadline(p)
  }

  // ---- the invariant ----

  ghost predicate Spaced(p: Plan, starts: seq<real>)
    requires p.rate > 0
  {
    forall i :: 0 <= i < |starts| - 1 ==> starts[i + 1] >= starts[i] + Interval(p)
  }

  ghost predicate Paced(p: Plan, s: State)
    requires p.rate > 0
  {
    && s.slot >= 0 && s.skipped >= 0 && |s.starts| + s.skipped == s.slot
    && |s.starts| <= p.seconds * p.rate
    && Spaced(p, s.starts)
    && (s.starts != [] ==> s.nextTick >= s.starts[|s.starts| - 1] + Interval(p) && s.now >= s.starts[|s.starts| - 1])
    && (forall i :: 0 <= i < |s.starts| - 1 ==> s.starts[i] < Deadline(p))
  }

  lemma {:induction false} AttemptPaced(p: Plan, s: State, r: Readings)
    requires ValidPlan(p) && Paced(p, s) && Admitted(p, s, r)
    ensures Paced(p, Attempt(p, s, r))
  {
    hide Ceil;
    var s' := Attempt(p, s, r);
    var n := |s.starts|;
    if n > 0 {
      assert r.start >= s.nextTick;
      assert s.starts[n - 1] < Deadline(p);
    }
    forall i | 0 <= i < |s'.starts| - 1 ensures s'.starts[i + 1] >= s'.starts[i] + Interval(p) {
      if i < n - 1 { assert s'.starts[i] == s.starts[i] && s'.starts[i + 1] == s.starts[i + 1]; }
    }
  }

  lemma {:induction false} RoundsPaced(p: Plan, s: State, rs: seq<Readings>)
    requires ValidPlan(p) && Paced(p, s) && Rounds(p, s, rs)
    ensures Paced(p, After(p, s, rs)) && |After(p, s, rs).starts| == |s.starts| + |rs|
    decreases |rs|
  {
    if rs != [] {
      AttemptPaced(p, s, rs[0]);
      hide Paced, Admitted;
      RoundsPaced(p, Attempt(p, s, rs[0]), rs[1..]);
    }
  }

  /**
   * For any readings of a clock that never goes back, with sleeps that never end early and operations of any
   * length: starts are at least an interval apart, there are at most seconds * rate of them, attempts and
   * skipped slots add up to the slot number, and no attempt but the last can have started at or after the deadline.
   */
  lemma {:induction false} PacingHolds(p: Plan, rs: seq<Readings>)
    requires ValidPlan(p) && Rounds(p, Begin(p), rs)
    ensures var s := After(p, Begin(p), rs);
      && |s.starts| == |rs| <= p.seconds * p.rate && |s.starts| + s.skipped == s.slot
      && Spaced(p, s.starts) && forall i :: 0 <= i < |rs| - 1 ==> s.starts[i] < Deadline(p)
  {
    assert Paced(p, Begin(p));
    hide After, Rounds;
    RoundsPaced(p, Begin(p), rs);
  }

  /** No attempt starts ahead of its schedule slot. */
  lemma {:induction false} NeverEarly(p: Plan, s: State, r: Readings, r': Readings)
    requires ValidPlan(p) && Admitted(p, s, r) && Admitted(p, Attempt(p, s, r), r')
    ensures r'.start >= p.started + Attempt(p, s, r).slot as real * Interval(p)
  {
    hide Ceil, NextSlot, Interval;
  }

  // ---- the deadline ----

  /** started_op is a second look at the clock: these are the runs in which it comes at most gap after the deadline check. */
  predicate Within(rs: seq<Readings>, gap: real) { forall i :: 0 <= i < |rs| ==> rs[i].start - rs[i].checked <= gap }

  predicate OnTime(starts: seq<real>, limit: real) { forall i :: 0 <= i < |starts| ==> starts[i] < limit }

  /** Every recorded start is its round's second look, and every round's first look was before the deadline. */
  lemma {:induction false} StartsAreReadings(p: Plan, s: State, rs: seq<Readings>)
    requires p.rate > 0 && Rounds(p, s, rs)
    ensures After(p, s, rs).starts == s.starts + seq(|rs|, i requires 0 <= i < |rs| => rs[i].start)
    ensures forall i :: 0 <= i < |rs| ==> rs[i].checked < Deadline(p) && rs[i].checked <= rs[i].start
    decreases |rs|
  {
    if rs != [] {
      StartsAreReadings(p, Attempt(p, s, rs[0]), rs[1..]);
      hide NextSlot, Interval;
      forall i | 0 <= i < |rs| ensures rs[i].checked < Deadline(p) && rs[i].checked <= rs[i].start {
        if i > 0 { assert rs[i] == rs[1..][i - 1]; }
      }
    }
  }

  /** A start can be late, and then it is the last one: the clock crossed the deadline between that round's two looks. */
  lemma {:induction false} LateExactly(p: Plan, rs: seq<Readings>)
    requires ValidPlan(p) && Rounds(p, Begin(p), rs)
    ensures OnTime(After(p, Begin(p), rs).starts, Deadline(p)) <==> rs == [] || rs[|rs| - 1].start < Deadline(p)
    ensures rs != [] ==> rs[|rs| - 1].checked < Deadline(p)
  {
    StartsAreReadings(p, Begin(p), rs);
    PacingHolds(p, rs);
    hide Rounds, After, Deadline;
    var starts := After(p, Begin(p), rs).starts;
    assert |starts| == |rs| && forall i :: 0 <= i < |rs| ==> starts[i] == rs[i].start;
  }

  /** With the two looks at most gap apart, no start is later than that after the deadline. */
  lemma {:induction false} StartsBounded(p: Plan, rs: seq<Readings>, gap: real)
    requires p.rate > 0 && Rounds(p, Begin(p), rs) && Within(rs, gap)
    ensures OnTime(After(p, Begin(p), rs).starts, Deadline(p) + gap)
  {
    StartsAreReadings(p, Begin(p), rs);
    hide Rounds, After, Deadline;
  }

  ghost predicate AlwaysOnTime(p: Plan, gap: real)
    requires p.rate > 0
  {
    forall rs :: Rounds(p, Begin(p), rs) && Within(rs, gap) ==> OnTime(After(p, Begin(p), rs).starts, Deadline(p))
  }

  /** No attempt of any run starts at or after the deadline if and only if no time passes between the two looks. */
  lemma {:induction false} OnTimeExactly(p: Plan, gap: real)
    requires ValidPlan(p)
    ensures AlwaysOnTime(p, gap) <==> gap <= 0.0
  {
    if gap <= 0.0 {
      hide Rounds, After, Deadline;
      forall rs | Rounds(p, Begin(p), rs) && Within(rs, gap) ensures OnTime(After(p, Begin(p), rs).starts, Deadline(p)) {
        StartsBounded(p, rs, gap);
      }
    } else {
      LateStart(p, gap);
      hide Rounds, After, Deadline;
      var rs := [LateRound(p, gap)];
      assert Rounds(p, Begin(p), rs) && Within(rs, gap) && After(p, Begin(p), rs).starts[0] == Deadline(p);
    }
  }

  function LateRound(p: Plan, gap: real): Readings {
    Readings(p.started, Deadline(p) - MinReal(gap, 0.5), Deadline(p), Deadline(p))
  }

  /** However little time the second look takes, some run starts its attempt at the deadline itself. */
  lemma {:induction false} LateStart(p: Plan, gap: real)
    requires ValidPlan(p) && gap > 0.0
    ensures var rs := [LateRound(p, gap)];
      Rounds(p, Begin(p), rs) && Within(rs, gap) && After(p, Begin(p), rs).starts == [Deadline(p)]
  {
    var r := LateRound(p, gap);
    assert Deadline(p) >= p.started + 1.0;
    assert p.seconds * p.rate > 0;
    assert Admitted(p, Begin(p), r);
    hide Admitted, NextSlot, Interval;
    OneRound(p, Begin(p), r);
  }

  lemma {:induction false} OneRound(p: Plan, s: State, r: Readings)
    requires p.rate > 0 && Admitted(p, s, r)
    ensures Rounds(p, s, [r]) && After(p, s, [r]) == Attempt(p, s, r)
  {
    hide Admitted, Attempt;
    assert [r][1..] == [];
    assert Rounds(p, Attempt(p, s, r), []);
  }

  // ---- the loop ----

  predicate NotBefore(time: real, t: real) { t >= time }

  class Clock {
    var time: real
    /** All sleep asked for so far. */
    var asked: real

    constructor ()
      ensures asked == 0.0
    {
      time, asked := 0.0, 0.0;
    }

    /** time.monotonic() */
    method Read() returns (t: real)
      modifies this`time
      ensures t == time >= old(time)
    {
      assert NotBefore(time, time);
      t :| NotBefore(time, t) && t >= time;
      time := t;
    }

    method Sleep(seconds: real)
      modifies this
      ensures time >= old(time) && time >= old(time) + seconds && asked == old(asked) + seconds
    {
      asked := asked + seconds;
      var end := MaxReal(time, time + seconds);
      assert NotBefore(end, end);
      var t :| NotBefore(end, t) && t >= end;
      time := t;
    }
  }

  /**
   * The loop. It ends only when the window is over or the slots are used up, and sleeps only for the waits of its
   * rounds and what is left of the window at the end.
   */
  method Run(clock: Clock, seconds: int, rate: int)
      returns (p: Plan, s: State, slept: real, ghost rounds: seq<Readings>, ghost now: real, ghost checked: real, ghost last: real)
    requires 1 <= seconds <= 86400 && 1 <= rate <= 2000
    modifies clock
    ensures p == Plan(p.started, seconds, rate) && Rounds(p, Begin(p), rounds) && s == After(p, Begin(p), rounds)
    ensures clock.time >= Deadline(p)
    ensures s.now <= now <= checked <= last && Over(p, s, now, checked)
    ensures slept == clock.asked - old(clock.asked)
    ensures slept == Waits(p, Begin(p), rounds) + (if now < Deadline(p) && s.slot < seconds * rate then Wait(p, s, now) else 0.0)
      + (if last < Deadline(p) then Deadline(p) - last else 0.0)
  {
    hide Rounds, After, NextSlot, Interval, Admitted, Physical, Deadline, Waits, MaxReal, Attempt;
    var started := clock.Read();
    p := Plan(started, seconds, rate);
    var deadline, slots := Deadline(p), seconds * rate;
    s := Begin(p);
    slept, rounds := 0.0, [];
    NoRounds(p);
    while true
      invariant p.rate > 0 && Rounds(p, Begin(p), rounds) && s == After(p, Begin(p), rounds)
      invariant s.now <= clock.time && slept == clock.asked - old(clock.asked) == Waits(p, Begin(p), rounds)
      decreases slots - s.slot
    {
      var read := clock.Read();
      now, checked := read, read;
      if read >= deadline || s.slot >= slots { break; }
      if read < s.nextTick {
        var delay := MinReal(s.nextTick, deadline) - read;
        clock.Sleep(delay);
        slept := slept + delay;
      }
      var again := clock.Read();
      checked := again;
      if again >= deadline { break; }
      var start := clock.Read();
      // The SQL operation takes as long as it takes.
      var done := clock.Read();
      ghost var r := Readings(read, again, start, done);
      RoundAdmitted(p, s, r);
      RoundsAppend(p, Begin(p), rounds, r);
      rounds := rounds + [r];
      var next := NextSlot(p, s.slot, done);
      AttemptIs(p, s, r, next);
      s := State(next, MaxReal(p.started + next as real * Interval(p), start + Interval(p)),
                 s.skipped + (next - (s.slot + 1)), s.starts + [start], done);
    }
    var end := clock.Read();
    last := end;
    if deadline - end > 0.0 {
      clock.Sleep(deadline - end);
      slept := slept + (deadline - end);
    }
  }

  lemma AttemptIs(p: Plan, s: State, r: Readings, next: int)
    requires p.rate > 0 && next == NextSlot(p, s.slot, r.done)
    ensures Attempt(p, s, r) == State(next, MaxReal(p.started + next as real * Interval(p), r.start + Interval(p)),
      s.skipped + (next - (s.slot + 1)), s.starts + [r.start], r.done)
  {
    hide NextSlot, Interval;
  }

  lemma RoundAdmitted(p: Plan, s: State, r: Readings)
    requires s.now <= r.now < Deadline(p) && s.slot < p.seconds * p.rate
    requires r.now <= r.checked <= r.start <= r.done && r.checked < Deadline(p)
    requires r.now < s.nextTick ==> r.checked >= MinReal(s.nextTick, Deadline(p))
    ensures Admitted(p, s, r)
  {
  }

  lemma NoRounds(p: Plan)
    requires p.rate > 0
    ensures Rounds(p, Begin(p), []) && After(p, Begin(p), []) == Begin(p) && Waits(p, Begin(p), []) == 0.0
  {
  }

  lemma {:induction false} RoundsAppend(p: Plan, s: State, rs: seq<Readings>, r: Readings)
    requires p.rate > 0 && Rounds(p, s, rs) && Admitted(p, After(p, s, rs), r)
    ensures Rounds(p, s, rs + [r]) && After(p, s, rs + [r]) == Attempt(p, After(p, s, rs), r)
    ensures Waits(p, s, rs + [r]) == Waits(p, s, rs) + Wait(p, After(p, s, rs), r.now)
    decreases |rs|
  {
    hide Admitted, Attempt, Wait;
    if rs == [] {
      assert rs + [r] == [r] && [r][1..] == [];
      assert Rounds(p, Attempt(p, s, r), []) && Waits(p, Attempt(p, s, r), []) == 0.0;
    } else {
      RoundsAppend(p, Attempt(p, s, rs[0]), rs[1..], r);
      assert (rs + [r])[1..] == rs[1..] + [r];
    }
  }
}
