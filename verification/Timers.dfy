/** timers.c: where a started timer goes, decided by comparing wrapped tick counts, and the expiry of
    what is left in the current list when the tick count wraps. */
module Timers {
  import opened ListValues
  import opened Kernels

  datatype Timer = Timer(period: nat, autoReload: bool)

  datatype Verdict = ProcessNow | ToCurrent | ToOverflow

  /** Subtraction of tick counts, which wraps. */
  function Ago(now: nat, command: nat): nat
    requires command < WORD
  {
    (now + WORD - command) % WORD
  }

  /** The decision of `prvInsertTimerInActiveList`. */
  function Classify(next: nat, now: nat, command: nat, period: nat): Verdict
    requires command < WORD
  {
    if next <= now then
      if Ago(now, command) >= period then ProcessNow else ToOverflow
    else
      if now < command && next >= command then ProcessNow else ToCurrent
  }

  /** `x` as an epoch and a tick count. */
  lemma Parts(x: nat)
    ensures x == x / WORD * WORD + x % WORD && x % WORD < WORD
  {
  }

  lemma PartsOf(e: nat, m: nat)
    requires m < WORD
    ensures (e * WORD + m) / WORD == e && (e * WORD + m) % WORD == m
  {
  }

  /** In unbounded time: a command given at `command` and handled less than 2^32 ticks later, at
      `now`, is processed at once exactly when the timer has expired by then; otherwise the timer goes
      into the list of the epoch its expiry falls in. */
  lemma ClassifiesUnboundedTime(command: nat, now: nat, period: nat)
    requires command <= now < command + WORD && 1 <= period < WORD
    ensures var expiry := command + period;
            var verdict := Classify(expiry % WORD, now % WORD, command % WORD, period);
            && (verdict == ProcessNow <==> expiry <= now)
            && (verdict == ToCurrent <==> now < expiry && expiry / WORD == now / WORD)
            && (verdict == ToOverflow <==> now < expiry && expiry / WORD == now / WORD + 1)
  {
    var e := command / WORD;
    var c := command % WORD;
    Parts(command);
    var n := now - e * WORD;
    var x := c + period;
    if n < WORD {
      PartsOf(e, n);
      PartsOf(0, n - c);
    } else {
      PartsOf(e + 1, n - WORD);
      PartsOf(0, n - c);
    }
    if x < WORD {
      PartsOf(e, x);
    } else {
      PartsOf(e + 1, x - WORD);
    }
    AgoIsElapsed(e, c, n);
  }

  lemma AgoIsElapsed(e: nat, c: nat, n: nat)
    requires c <= n < c + WORD && c < WORD
    ensures Ago((e * WORD + n) % WORD, c) == n - c
  {
    if n < WORD {
      PartsOf(e, n);
      PartsOf(1, n - c);
    } else {
      PartsOf(e + 1, n - WORD);
      PartsOf(0, n - c);
    }
  }

  // ----- the lists

  datatype Entry = Entry(timer: nat, value: nat)

  function ValuesOf(list: seq<Entry>): (r: seq<nat>)
    ensures |r| == |list|
    ensures forall i {:trigger r[i]} :: 0 <= i < |r| ==> r[i] == list[i].value
  {
    seq(|list|, i requires 0 <= i < |list| => list[i].value)
  }

  /** `vListInsert` */
  function Inserted(list: seq<Entry>, x: Entry): seq<Entry> {
    InsertAt(list, FirstGreater(ValuesOf(list), x.value), x)
  }

  /** A timer goes behind those that expire no later than it does, and in front of all others. */
  lemma InsertedBehindEqual(list: seq<Entry>, x: Entry)
    requires Sorted(ValuesOf(list))
    ensures exists k: nat :: k <= |list| && Inserted(list, x) == list[..k] + [x] + list[k..]
                             && (forall i :: 0 <= i < k ==> list[i].value <= x.value)
                             && (forall i :: k <= i < |list| ==> x.value < list[i].value)
  {
    var values := ValuesOf(list);
    var k := FirstGreater(values, x.value);
    InsertKeepsSorted(values, x.value);
    forall i | 0 <= i < k ensures list[i].value <= x.value {
      assert values[i] <= x.value;
    }
    forall i | k <= i < |list| ensures x.value < list[i].value {
      assert x.value < values[i];
    }
    assert Inserted(list, x) == list[..k] + [x] + list[k..];
  }

  ghost predicate OnceEach(list: seq<Entry>) {
    forall i, j :: 0 <= i < j < |list| ==> list[i].timer != list[j].timer
  }

  ghost predicate Known(list: seq<Entry>, timers: map<nat, Timer>) {
    forall x :: x in list ==> x.value < WORD && x.timer in timers && 1 <= timers[x.timer].period < WORD
  }

  ghost predicate WellFormed(list: seq<Entry>, timers: map<nat, Timer>) {
    Sorted(ValuesOf(list)) && OnceEach(list) && Known(list, timers)
  }

  /** The tick counts, within one epoch, at which a timer that next expires at `value` expires. */
  function Expiries(value: nat, timer: Timer): (r: seq<nat>)
    requires value < WORD && 1 <= timer.period
    ensures r != [] && r[0] == value
    decreases WORD - value
  {
    if timer.autoReload && value + timer.period < WORD then [value] + Expiries(value + timer.period, timer) else [value]
  }

  /** They are the multiples of the period, and the next one falls in the next epoch; a one-shot timer expires
      once. */
  lemma {:induction false} ExpiriesAreMultiples(value: nat, timer: Timer, k: nat)
    requires value < WORD && 1 <= timer.period && k < |Expiries(value, timer)|
    ensures Expiries(value, timer)[k] == value + k * timer.period < WORD
    ensures timer.autoReload ==> WORD <= value + |Expiries(value, timer)| * timer.period
    ensures !timer.autoReload ==> |Expiries(value, timer)| == 1
    decreases WORD - value
  {
    if timer.autoReload && value + timer.period < WORD {
      var rest := Expiries(value + timer.period, timer);
      ExpiriesAreMultiples(value + timer.period, timer, if k == 0 then 0 else k - 1);
      assert value + timer.period + |rest| * timer.period == value + (|rest| + 1) * timer.period;
      if k != 0 {
        assert value + timer.period + (k - 1) * timer.period == value + k * timer.period;
      }
    }
  }

  function TimesOf(log: seq<Entry>, t: nat): seq<nat> {
    if log == [] then []
    else TimesOf(log[..|log| - 1], t) + (if log[|log| - 1].timer == t then [log[|log| - 1].value] else [])
  }

  lemma TimesOfAppend(log: seq<Entry>, x: Entry, t: nat)
    ensures TimesOf(log + [x], t) == TimesOf(log, t) + (if x.timer == t then [x.value] else [])
  {
    assert (log + [x])[..|log|] == log;
  }

  ghost predicate Pending(x: Entry, list: seq<Entry>, timers: map<nat, Timer>, t: nat) {
    x in list && x.timer == t && x.value < WORD && t in timers && 1 <= timers[t].period
  }

  /** What is still to come from a timer in the list. */
  ghost function Coming(list: seq<Entry>, timers: map<nat, Timer>, t: nat): seq<nat> {
    if exists x :: Pending(x, list, timers, t) then
      var x :| Pending(x, list, timers, t);
      Expiries(x.value, timers[t])
    else []
  }

  lemma ComingOf(list: seq<Entry>, timers: map<nat, Timer>, x: Entry)
    requires WellFormed(list, timers) && x in list
    ensures x.timer in timers && 1 <= timers[x.timer].period < WORD && x.value < WORD
    ensures Coming(list, timers, x.timer) == Expiries(x.value, timers[x.timer])
  {
    assert Pending(x, list, timers, x.timer);
  }

  lemma ComingNone(list: seq<Entry>, timers: map<nat, Timer>, t: nat)
    requires forall x :: x in list ==> x.timer != t
    ensures Coming(list, timers, t) == []
  {
  }

  /** The work left in a list, which every pass of the loop reduces. */
  function Work(list: seq<Entry>): nat {
    if list == [] then 0 else (if list[0].value < WORD then WORD - list[0].value else 0) + Work(list[1..])
  }

  lemma {:induction false} WorkInserted(list: seq<Entry>, k: nat, x: Entry)
    requires k <= |list|
    ensures Work(InsertAt(list, k, x)) == Work(list) + if x.value < WORD then WORD - x.value else 0
    decreases k
  {
    if k == 0 {
      assert InsertAt(list, 0, x)[1..] == list;
    } else {
      assert InsertAt(list, k, x)[1..] == InsertAt(list[1..], k - 1, x);
      WorkInserted(list[1..], k - 1, x);
    }
  }

  lemma ValuesInserted(list: seq<Entry>, k: nat, x: Entry)
    requires k <= |list|
    ensures ValuesOf(InsertAt(list, k, x)) == InsertAt(ValuesOf(list), k, x.value)
  {
  }

  lemma InsertedWellFormed(list: seq<Entry>, timers: map<nat, Timer>, x: Entry)
    requires WellFormed(list, timers) && x.value < WORD && x.timer in timers && 1 <= timers[x.timer].period < WORD
    requires forall y :: y in list ==> y.timer != x.timer
    ensures WellFormed(Inserted(list, x), timers)
    ensures forall y :: y in Inserted(list, x) <==> y == x || y in list
    ensures Work(Inserted(list, x)) == Work(list) + (WORD - x.value)
  {
    hide Sorted, InsertAt, FirstGreater, OnceEach, ValuesOf;
    var k := FirstGreater(ValuesOf(list), x.value);
    InsertKeepsSorted(ValuesOf(list), x.value);
    ValuesInserted(list, k, x);
    WorkInserted(list, k, x);
    InsertAtMembers(list, k, x);
    InsertedOnce(list, k, x);
  }

  lemma InsertedOnce(list: seq<Entry>, k: nat, x: Entry)
    requires OnceEach(list) && k <= |list| && forall y :: y in list ==> y.timer != x.timer
    ensures OnceEach(InsertAt(list, k, x))
  {
    hide InsertAt;
    var r := InsertAt(list, k, x);
    forall i, j | 0 <= i < j < |r| ensures r[i].timer != r[j].timer {
      if i == k {
        assert r[j] in list;
      } else if j == k {
        assert r[i] in list;
      }
    }
  }

  lemma TailWellFormed(list: seq<Entry>, timers: map<nat, Timer>)
    requires WellFormed(list, timers) && list != []
    ensures WellFormed(list[1..], timers)
    ensures forall y :: y in list <==> y == list[0] || y in list[1..]
    ensures forall y :: y in list[1..] ==> y.timer != list[0].timer && list[0].value <= y.value
    ensures Work(list[1..]) == Work(list) - (WORD - list[0].value)
  {
    assert ValuesOf(list[1..]) == ValuesOf(list)[1..];
    assert list == [list[0]] + list[1..];
    forall y | y in list[1..] ensures y.timer != list[0].timer && list[0].value <= y.value {
      var i :| 0 <= i < |list| - 1 && list[1..][i] == y;
      assert ValuesOf(list)[0] <= ValuesOf(list)[i + 1];
    }
  }

  // ----- the switch

  /** One pass of `prvSwitchTimerLists`: the head expires; if its next expiry is in the same epoch it
      goes back into the list, otherwise (for an auto-reload timer) a restart command is sent with the
      time of this expiry. */
  datatype Pass = Pass(current: seq<Entry>, fired: seq<Entry>, commands: seq<Entry>)

  function SwitchOne(p: Pass, timers: map<nat, Timer>): Pass
    requires p.current != [] && p.current[0].timer in timers
  {
    var x := p.current[0];
    var timer := timers[x.timer];
    var reload := (x.value + timer.period) % WORD;
    Pass(
      if timer.autoReload && reload > x.value then Inserted(p.current[1..], Entry(x.timer, reload)) else p.current[1..],
      p.fired + [x],
      if timer.autoReload && reload <= x.value then p.commands + [x] else p.commands)
  }

  /** The expiries of every timer so far, followed by those to come, are the ones it is due; what has
      expired came in order; a timer's command carries its last expiry. */
  ghost predicate Accounted(p: Pass, start: seq<Entry>, timers: map<nat, Timer>) {
    && WellFormed(p.current, timers)
    && (forall t {:trigger TimesOf(p.fired, t)} :: TimesOf(p.fired, t) + Coming(p.current, timers, t) == Coming(start, timers, t))
    && Sorted(ValuesOf(p.fired))
    && (forall x, y :: x in p.fired && y in p.current ==> x.value <= y.value)
    && (forall t {:trigger TimesOf(p.commands, t)} :: TimesOf(p.commands, t) ==
          if Coming(p.current, timers, t) == [] && Coming(start, timers, t) != [] && t in timers && timers[t].autoReload
          then [Coming(start, timers, t)[|Coming(start, timers, t)| - 1]] else [])
  }

  lemma ReloadWraps(value: nat, period: nat)
    requires value < WORD && 1 <= period < WORD
    ensures (value + period) % WORD > value <==> value + period < WORD
    ensures value + period < WORD ==> (value + period) % WORD == value + period
  {
    if value + period < WORD {
      PartsOf(0, value + period);
    } else {
      PartsOf(1, value + period - WORD);
    }
  }

  /** What one pass does to the timer at the head. */
  lemma HeadPasses(p: Pass, timers: map<nat, Timer>)
    requires WellFormed(p.current, timers) && p.current != []
    ensures p.current[0].timer in timers
    ensures var x := p.current[0];
            var r := SwitchOne(p, timers);
            && x.value < WORD
            && WellFormed(r.current, timers) && Work(r.current) < Work(p.current)
            && Coming(p.current, timers, x.timer) == [x.value] + Coming(r.current, timers, x.timer)
            && (forall y :: y in r.current ==> x.value <= y.value)
            && (timers[x.timer].autoReload && (x.value + timers[x.timer].period) % WORD <= x.value
                <==> Coming(r.current, timers, x.timer) == [] && timers[x.timer].autoReload)
  {
    hide WellFormed, Inserted, Coming, Work;
    var x := p.current[0];
    ComingOf(p.current, timers, x);
    var timer := timers[x.timer];
    TailWellFormed(p.current, timers);
    ReloadWraps(x.value, timer.period);
    if timer.autoReload && x.value + timer.period < WORD {
      var y := Entry(x.timer, x.value + timer.period);
      InsertedWellFormed(p.current[1..], timers, y);
      ComingOf(Inserted(p.current[1..], y), timers, y);
    } else {
      ComingNone(p.current[1..], timers, x.timer);
    }
  }

  /** And to all others. */
  lemma OthersPass(p: Pass, timers: map<nat, Timer>, t: nat)
    requires WellFormed(p.current, timers) && p.current != [] && t != p.current[0].timer
    ensures p.current[0].timer in timers && WellFormed(SwitchOne(p, timers).current, timers)
    ensures Coming(SwitchOne(p, timers).current, timers, t) == Coming(p.current, timers, t)
  {
    hide WellFormed, Inserted, Coming, Work;
    HeadPasses(p, timers);
    TailWellFormed(p.current, timers);
    var x := p.current[0];
    ComingOf(p.current, timers, x);
    var r := SwitchOne(p, timers);
    ReloadWraps(x.value, timers[x.timer].period);
    if timers[x.timer].autoReload && x.value + timers[x.timer].period < WORD {
      InsertedWellFormed(p.current[1..], timers, Entry(x.timer, x.value + timers[x.timer].period));
    }
    assert forall y: Entry :: y.timer == t ==> (y in r.current <==> y in p.current);
    if y :| y in p.current && y.timer == t {
      ComingOf(p.current, timers, y);
      ComingOf(r.current, timers, y);
    } else {
      ComingNone(p.current, timers, t);
      ComingNone(r.current, timers, t);
    }
  }

  lemma SortedAppend(values: seq<nat>, v: nat)
    requires Sorted(values) && forall i :: 0 <= i < |values| ==> values[i] <= v
    ensures Sorted(values + [v])
  {
  }

  /** What one pass writes to the logs. */
  lemma SwitchLogs(p: Pass, timers: map<nat, Timer>)
    requires p.current != [] && p.current[0].timer in timers
    ensures SwitchOne(p, timers).fired == p.fired + [p.current[0]]
  {
    hide Inserted;
  }

  lemma FiredSorted(p: Pass, x: Entry)
    requires Sorted(ValuesOf(p.fired)) && forall y :: y in p.fired ==> y.value <= x.value
    ensures Sorted(ValuesOf(p.fired + [x]))
  {
    forall i | 0 <= i < |p.fired| ensures ValuesOf(p.fired)[i] <= x.value {
      assert p.fired[i] in p.fired;
    }
    SortedAppend(ValuesOf(p.fired), x.value);
    assert ValuesOf(p.fired + [x]) == ValuesOf(p.fired) + [x.value];
    hide Sorted;
  }

  lemma FiredAccounted(p: Pass, start: seq<Entry>, timers: map<nat, Timer>, t: nat)
    requires Accounted(p, start, timers) && p.current != [] && p.current[0].timer in timers
    ensures var r := SwitchOne(p, timers); TimesOf(r.fired, t) + Coming(r.current, timers, t) == Coming(start, timers, t)
  {
    hide WellFormed, Inserted, Coming, TimesOf, Work, SwitchOne, Sorted;
    var x := p.current[0];
    var r := SwitchOne(p, timers);
    SwitchLogs(p, timers);
    TimesOfAppend(p.fired, x, t);
    assert TimesOf(p.fired, t) + Coming(p.current, timers, t) == Coming(start, timers, t);
    if t != x.timer {
      OthersPass(p, timers, t);
    } else {
      HeadPasses(p, timers);
      assert TimesOf(p.fired, t) + ([x.value] + Coming(r.current, timers, t)) == TimesOf(p.fired, t) + [x.value] + Coming(r.current, timers, t);
    }
  }

  lemma CommandsAccounted(p: Pass, start: seq<Entry>, timers: map<nat, Timer>, t: nat)
    requires Accounted(p, start, timers) && p.current != [] && p.current[0].timer in timers
    ensures var r := SwitchOne(p, timers);
            TimesOf(r.commands, t) ==
            if Coming(r.current, timers, t) == [] && Coming(start, timers, t) != [] && t in timers && timers[t].autoReload
            then [Coming(start, timers, t)[|Coming(start, timers, t)| - 1]] else []
  {
    hide WellFormed, Inserted, Coming, TimesOf, Work, Sorted;
    var x := p.current[0];
    HeadPasses(p, timers);
    TimesOfAppend(p.commands, x, t);
    TimesOfAppend(p.fired, x, t);
    FiredAccounted(p, start, timers, t);
    if t != x.timer {
      OthersPass(p, timers, t);
    }
  }

  lemma PassAccounted(p: Pass, start: seq<Entry>, timers: map<nat, Timer>)
    requires Accounted(p, start, timers) && p.current != []
    ensures p.current[0].timer in timers
    ensures Accounted(SwitchOne(p, timers), start, timers) && Work(SwitchOne(p, timers).current) < Work(p.current)
  {
    hide WellFormed, Inserted, Coming, TimesOf, Work, SwitchOne, Sorted, ValuesOf;
    HeadPasses(p, timers);
    var x := p.current[0];
    var r := SwitchOne(p, timers);
    SwitchLogs(p, timers);
    forall t ensures TimesOf(r.fired, t) + Coming(r.current, timers, t) == Coming(start, timers, t) {
      FiredAccounted(p, start, timers, t);
    }
    forall t ensures TimesOf(r.commands, t) ==
                     if Coming(r.current, timers, t) == [] && Coming(start, timers, t) != [] && t in timers && timers[t].autoReload
                     then [Coming(start, timers, t)[|Coming(start, timers, t)| - 1]] else [] {
      CommandsAccounted(p, start, timers, t);
    }
    FiredSorted(p, x);
  }

  class TimerLists {
    var current: seq<Entry>
    var overflow: seq<Entry>
    var timers: map<nat, Timer>

    /** `prvInsertTimerInActiveList` */
    method InsertTimerInActiveList(t: nat, next: nat, now: nat, command: nat) returns (processNow: bool)
      requires t in timers && command < WORD
      modifies `current, `overflow
      ensures var verdict := Classify(next, now, command, timers[t].period);
              && processNow == verdict.ProcessNow?
              && current == (if verdict.ToCurrent? then Inserted(old(current), Entry(t, next)) else old(current))
              && overflow == (if verdict.ToOverflow? then Inserted(old(overflow), Entry(t, next)) else old(overflow))
    {
      processNow := false;
      if next <= now {
        if Ago(now, command) >= timers[t].period {
          processNow := true;
        } else {
          overflow := Inserted(overflow, Entry(t, next));
        }
      } else {
        if now < command && next >= command {
          processNow := true;
        } else {
          current := Inserted(current, Entry(t, next));
        }
      }
    }

    /** One pass of the loop of `prvSwitchTimerLists`. */
    method ExpireHead(fired: seq<Entry>, commands: seq<Entry>) returns (fired': seq<Entry>, commands': seq<Entry>)
      requires current != [] && current[0].timer in timers
      modifies `current
      ensures Pass(current, fired', commands') == SwitchOne(Pass(old(current), fired, commands), timers)
    {
      hide Inserted;
      var x := current[0];
      current := current[1..];
      fired', commands' := fired + [x], commands;
      if timers[x.timer].autoReload {
        var reload := (x.value + timers[x.timer].period) % WORD;
        if reload > x.value {
          current := Inserted(current, Entry(x.timer, reload));
        } else {
          commands' := commands + [x];
        }
      }
    }

    /** `prvSwitchTimerLists`: every expiry that fell in the epoch just ended is acted on, in order of
        time and once; every auto-reload timer is sent one restart command, with its last expiry. */
    method SwitchTimerLists() returns (fired: seq<Entry>, commands: seq<Entry>)
      requires WellFormed(current, timers)
      modifies `current, `overflow
      ensures current == old(overflow) && overflow == []
      ensures Sorted(ValuesOf(fired))
      ensures forall t :: TimesOf(fired, t) == Coming(old(current), timers, t)
      ensures forall t :: TimesOf(commands, t) ==
                var due := Coming(old(current), timers, t);
                if due != [] && t in timers && timers[t].autoReload then [due[|due| - 1]] else []
    {
      hide Accounted, SwitchOne, WellFormed, Coming, TimesOf, Work;
      fired, commands := [], [];
      ghost var start := current;
      StartAccounted(start, timers);
      while current != []
        invariant overflow == old(overflow)
        invariant Accounted(Pass(current, fired, commands), start, timers)
        decreases Work(current)
      {
        PassAccounted(Pass(current, fired, commands), start, timers);
        fired, commands := ExpireHead(fired, commands);
      }
      AllExpired(Pass(current, fired, commands), start, timers);
      current, overflow := overflow, current;
    }
  }

  lemma AllExpired(p: Pass, start: seq<Entry>, timers: map<nat, Timer>)
    requires Accounted(p, start, timers) && p.current == []
    ensures Sorted(ValuesOf(p.fired))
    ensures forall t :: TimesOf(p.fired, t) == Coming(start, timers, t)
    ensures forall t :: TimesOf(p.commands, t) ==
              var due := Coming(start, timers, t);
              if due != [] && t in timers && timers[t].autoReload then [due[|due| - 1]] else []
  {
    hide WellFormed, TimesOf;
    forall t ensures TimesOf(p.fired, t) == Coming(start, timers, t)
             ensures Coming(p.current, timers, t) == [] {
      ComingNone(p.current, timers, t);
      assert TimesOf(p.fired, t) + Coming(p.current, timers, t) == Coming(start, timers, t);
    }
  }

  lemma StartAccounted(start: seq<Entry>, timers: map<nat, Timer>)
    requires WellFormed(start, timers)
    ensures Accounted(Pass(start, [], []), start, timers)
  {
    hide Coming, Inserted;
    forall t ensures TimesOf([], t) + Coming(start, timers, t) == Coming(start, timers, t) {
      assert [] + Coming(start, timers, t) == Coming(start, timers, t);
    }
  }
}
