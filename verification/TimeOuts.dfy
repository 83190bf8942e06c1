/** tasks.c: the timeout of a blocking call, kept across retries with a 32-bit tick count
    (`vTaskSetTimeOutState`, `xTaskCheckForTimeOut`), and the periodic delay (`vTaskDelayUntil`). */
module TimeOuts {
  import opened Kernels

  // ----- timeouts

  /** A `TimeOut_t` and the caller's remaining ticks. */
  datatype Timeout = Timeout(overflows: nat, entered: nat, ticks: nat)

  /** `vTaskSetTimeOutState` at the unbounded tick `now`. */
  function Restart(t: Timeout, now: nat): Timeout {
    t.(overflows := now / WORD, entered := now % WORD)
  }

  /** Subtraction of tick counts, which wraps. */
  function Since(tick: nat, entered: nat): (d: nat)
    requires tick < WORD && entered < WORD
    ensures d < WORD
  {
    if entered <= tick then tick - entered else tick + WORD - entered
  }

  /** `xTaskCheckForTimeOut` at the unbounded tick `now`: whether the call has timed out, and the
      adjusted timeout if it has not. */
  function Check(t: Timeout, now: nat): (bool, Timeout)
    requires t.entered < WORD
  {
    if t.ticks == MAX_DELAY then (false, t)
    else if now / WORD != t.overflows && now % WORD >= t.entered then (true, t)
    else if Since(now % WORD, t.entered) < t.ticks then
      (false, Restart(t.(ticks := t.ticks - Since(now % WORD, t.entered)), now))
    else (true, t)
  }

  class TimeoutState {
    var overflowCount: nat
    var timeOnEntering: nat
    var ticksToWait: nat

    function Value(): Timeout
      reads this
    {
      Timeout(overflowCount, timeOnEntering, ticksToWait)
    }

    constructor (ticks: nat, overflows: nat, tick: nat)
      requires tick < WORD
      ensures Value() == Restart(Timeout(0, 0, ticks), overflows * WORD + tick)
    {
      overflowCount, timeOnEntering, ticksToWait := overflows, tick, ticks;
      new;
      TickParts(overflows, tick);
    }

    /** `xTaskCheckForTimeOut`, with the scheduler's overflow and tick counts. */
    method CheckForTimeOut(overflows: nat, tick: nat) returns (timedOut: bool)
      requires tick < WORD && timeOnEntering < WORD
      modifies this
      ensures (timedOut, Value()) == Check(old(Value()), overflows * WORD + tick)
    {
      TickParts(overflows, tick);
      if ticksToWait == MAX_DELAY {
        timedOut := false;
      } else if overflows != overflowCount && tick >= timeOnEntering {
        timedOut := true;
      } else if Since(tick, timeOnEntering) < ticksToWait {
        ticksToWait := ticksToWait - Since(tick, timeOnEntering);
        overflowCount := overflows;
        timeOnEntering := tick;
        timedOut := false;
      } else {
        timedOut := true;
      }
    }
  }

  lemma TickParts(overflows: nat, tick: nat)
    requires tick < WORD
    ensures (overflows * WORD + tick) / WORD == overflows && (overflows * WORD + tick) % WORD == tick
  {
  }

  /** The elapsed time modulo the word, from the two tick counts. */
  lemma SinceIsElapsed(start: nat, now: nat)
    requires start <= now
    ensures Since(now % WORD, start % WORD) == (now - start) % WORD
  {
    var d := now / WORD - start / WORD;
    assert now - start == d * WORD + now % WORD - start % WORD;
    if start % WORD <= now % WORD {
      TickParts(d, now % WORD - start % WORD);
    } else {
      TickParts(d - 1, now % WORD + WORD - start % WORD);
    }
  }

  /** One check, for any time between: it is wrong about whether the whole wait has passed exactly
      when more than a word's worth of ticks has gone by, the tick count is short of where it was,
      and the excess is less than the wait. */
  lemma CheckIsWrongExactly(t: Timeout, start: nat, now: nat)
    requires t == Restart(t, start) && start <= now && t.ticks < MAX_DELAY
    ensures (Check(t, now).0 <==> t.ticks <= now - start) <==>
            !(WORD <= now - start && now % WORD < start % WORD && (now - start) % WORD < t.ticks)
  {
    SinceIsElapsed(start, now);
    if now - start < WORD {
      if now / WORD != start / WORD {
        assert now % WORD < start % WORD by { NextEpoch(start, now); }
      }
    } else {
      assert now / WORD != start / WORD;
    }
  }

  lemma NextEpoch(start: nat, now: nat)
    requires start <= now < start + WORD && now / WORD != start / WORD
    ensures now / WORD == start / WORD + 1 && now % WORD < start % WORD
  {
  }

  /** A case where the check is wrong: 2^32 + 5 ticks after entry, a wait of 10 ticks is reported as
      still running. */
  lemma CheckCanBeWrong()
    ensures var start := WORD - 1;
            var now := start + WORD + 5;
            !Check(Timeout(start / WORD, start % WORD, 10), now).0 && 10 <= now - start
  {
    assert (WORD - 1) / WORD == 0 && (WORD - 1) % WORD == WORD - 1;
    TickParts(2, 4);
    assert WORD - 1 + WORD + 5 == 2 * WORD + 4;
  }

  /** A check made within 2^32 ticks is right, and what is left adds up. */
  lemma CheckInTime(t: Timeout, start: nat, now: nat)
    requires t == Restart(t, start) && start <= now <= start + WORD && t.ticks < MAX_DELAY && t.entered < WORD
    ensures var r := Check(t, now);
            && (r.0 <==> t.ticks <= now - start)
            && (!r.0 ==> r.1.ticks + (now - start) == t.ticks && r.1 == Restart(r.1, now))
  {
    SinceIsElapsed(start, now);
    CheckIsWrongExactly(t, start, now);
    if now == start + WORD {
      assert now % WORD == start % WORD;
    }
  }

  /** Whatever time has gone by: a call that has timed out keeps what it had, and one that has not counts from
      now on, with less or as much left to wait. */
  lemma CheckRestarts(t: Timeout, now: nat)
    requires t.entered < WORD
    ensures var r := Check(t, now);
            && (r.0 ==> r.1 == t)
            && (!r.0 && t.ticks != MAX_DELAY ==> r.1 == Restart(r.1, now) && 0 < r.1.ticks <= t.ticks)
  {
  }

  /** Checks at the given times, until one times out. */
  function Retry(t: Timeout, times: seq<nat>): (r: (bool, Timeout))
    requires t.entered < WORD
    ensures r.1.entered < WORD
  {
    if times == [] then (false, t)
    else
      var r := Retry(t, times[..|times| - 1]);
      if r.0 then r else Check(r.1, times[|times| - 1])
  }

  /** The time of the last check, or of the call. */
  function Latest(start: nat, times: seq<nat>): nat {
    if times == [] then start else times[|times| - 1]
  }

  /** The checks come in order, no more than 2^32 ticks apart. */
  predicate Paced(start: nat, times: seq<nat>) {
    times == [] ||
    (var init := times[..|times| - 1];
     Paced(start, init) && Latest(start, init) <= times[|times| - 1] <= Latest(start, init) + WORD)
  }

  /** A finite wait is exact over all retries: while the call goes on, what remains and what has
      elapsed add up to the wait asked for; the call has timed out at the last check exactly when
      the whole wait has passed by then. */
  lemma {:induction false} TimedBlockingIsExact(t: Timeout, start: nat, times: seq<nat>)
    requires t == Restart(t, start) && t.ticks < MAX_DELAY && Paced(start, times) && times != []
    ensures var last := times[|times| - 1];
            var r := Retry(t, times);
            && start <= last
            && (r.0 <==> t.ticks <= last - start)
            && (!r.0 ==> r.1.ticks + (last - start) == t.ticks && r.1 == Restart(r.1, last))
    decreases |times|
  {
    assert t.entered < WORD;
    hide Check, Restart;
    var init := times[..|times| - 1];
    var last := times[|times| - 1];
    var before := Latest(start, init);
    if init == [] {
      assert Retry(t, init) == (false, t);
    } else {
      TimedBlockingIsExact(t, start, init);
    }
    var m := Retry(t, init);
    if !m.0 {
      CheckInTime(m.1, before, last);
    }
  }

  /** A call that waits for ever never times out and is never adjusted. */
  lemma {:induction false} MaxDelayNeverTimesOut(t: Timeout, times: seq<nat>)
    requires t.entered < WORD && t.ticks == MAX_DELAY
    ensures Retry(t, times) == (false, t)
    decreases |times|
  {
    if times != [] {
      MaxDelayNeverTimesOut(t, times[..|times| - 1]);
    }
  }

  // ----- the periodic delay

  /** `vTaskDelayUntil`: whether to block, from the previous wake time, the increment and the tick
      count, all 32 bits wide. */
  predicate ShouldDelay(previous: nat, increment: nat, tick: nat) {
    var wake := (previous + increment) % WORD;
    if tick < previous then
      wake < previous && wake > tick
    else
      wake < previous || wake > tick
  }

  /** In unbounded time: the call blocks exactly when the next wake time is still to come, and then
      for exactly the time that is left. */
  lemma DelaysUntilWakeTime(wake: nat, increment: nat, now: nat)
    requires wake <= now < wake + WORD && 1 <= increment < WORD
    ensures ShouldDelay(wake % WORD, increment, now % WORD) <==> now < wake + increment
    ensures (wake % WORD + increment) % WORD == (wake + increment) % WORD
    ensures now < wake + increment ==>
              1 <= wake + increment - now < WORD
              && (now % WORD + (wake + increment - now)) % WORD == (wake + increment) % WORD
  {
    var e := wake / WORD;
    var p := wake % WORD;
    var n := now - e * WORD;
    assert wake == e * WORD + p;
    Reduce(e, p + increment);
    Reduce(e, n);
    if now < wake + increment {
      Reduce(now / WORD, now % WORD + (wake + increment - now));
      assert now == now / WORD * WORD + now % WORD;
    }
  }

  /** Reduction of a value within two words of an epoch. */
  lemma Reduce(e: nat, m: nat)
    requires m < 2 * WORD
    ensures (e * WORD + m) % WORD == m % WORD == if m < WORD then m else m - WORD
  {
    if m < WORD {
      TickParts(e, m);
      TickParts(0, m);
    } else {
      TickParts(e + 1, m - WORD);
      TickParts(1, m - WORD);
    }
  }

  /** What the caller's variable holds after `n` calls. */
  function Stored(first: nat, increment: nat, n: nat): nat {
    if n == 0 then first % WORD else (Stored(first, increment, n - 1) + increment) % WORD
  }

  /** No drift: whatever the times of the calls, and whether or not they block, the stored wake time
      after `n` calls is that of `first + n * increment`. */
  lemma {:induction false} NoDrift(first: nat, increment: nat, n: nat)
    requires increment < WORD
    ensures Stored(first, increment, n) == (first + n * increment) % WORD
    decreases n
  {
    if n != 0 {
      NoDrift(first, increment, n - 1);
      var w := first + (n - 1) * increment;
      assert first + n * increment == w + increment;
      Reduce(w / WORD, w % WORD + increment);
      assert w + increment == w / WORD * WORD + (w % WORD + increment);
    }
  }

  /** The `n`-th call, made at any tick from the previous deadline on and less than 2^32 ticks after
      it, blocks exactly until `first + n * increment`. */
  lemma DeadlinesFormAGrid(first: nat, increment: nat, n: nat, now: nat)
    requires 1 <= n && 1 <= increment < WORD
    requires first + (n - 1) * increment <= now < first + (n - 1) * increment + WORD
    ensures ShouldDelay(Stored(first, increment, n - 1), increment, now % WORD) <==> now < first + n * increment
    ensures now < first + n * increment ==>
              (now % WORD + (first + n * increment - now)) % WORD == Stored(first, increment, n)
  {
    NoDrift(first, increment, n - 1);
    NoDrift(first, increment, n);
    var wake := first + (n - 1) * increment;
    assert first + n * increment == wake + increment;
    DelaysUntilWakeTime(wake, increment, now);
  }
}
