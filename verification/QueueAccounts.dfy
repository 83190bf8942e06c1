/** queue.c: what the steps of the protocol do, told from what is seen of them. Over every run the messages
    put into a queue are those taken out and those still in it; who is woken, how many, and in which
    order; and how a call ends. */
module QueueAccounts {
  import opened ListValues
  import opened QueueProtocol

  // ----- what goes in and out

  /** The call finds room, or a message. */
  predicate CanGo(q: Queue, call: Call) {
    match call
    case Send(overwrite) => q.messages < q.length || overwrite
    case Receive => q.messages != 0
    case Peek => q.messages != 0
  }

  /** A task or an interrupt gets a message in. */
  predicate Sends(q: Queue, step: Step) {
    || (step.DoAttempt? && step.t in q.calls && q.calls[step.t].call.Send? && CanGo(q, q.calls[step.t].call))
    || (step.DoSendFromISR? && (q.messages < q.length || step.overwrite))
  }

  /** Such a message is one more, unless it takes the place of the one the queue holds. */
  predicate Puts(q: Queue, step: Step) {
    Sends(q, step) && (q.messages == 0 || (if step.DoAttempt? then !q.calls[step.t].call.overwrite else !step.overwrite))
  }

  /** A task or an interrupt takes a message out. */
  predicate Takes(q: Queue, step: Step) {
    && q.messages != 0
    && (step.DoReceiveFromISR? || (step.DoAttempt? && step.t in q.calls && q.calls[step.t].call.Receive?))
  }

  predicate Peeks(q: Queue, step: Step) {
    q.messages != 0 && step.DoAttempt? && step.t in q.calls && q.calls[step.t].call.Peek?
  }

  /** The messages put in, and those taken out, in the course of a run. */
  function Put(run: Run): nat
    requires Legal(run)
  {
    match run
    case Start(_, _) => 0
    case Then(before, step) => Put(before) + if Puts(After(before), step) then 1 else 0
  }

  function Taken(run: Run): nat
    requires Legal(run)
  {
    match run
    case Start(_, _) => 0
    case Then(before, step) => Taken(before) + if Takes(After(before), step) then 1 else 0
  }

  lemma AttemptBalance(q: Queue, t: Task, blocks: bool)
    requires Enabled(q, DoAttempt(t, blocks))
    ensures var r := Attempt(q, t, blocks);
            && r.messages + (if Takes(q, DoAttempt(t, blocks)) then 1 else 0)
               == q.messages + (if Puts(q, DoAttempt(t, blocks)) then 1 else 0)
            && r.length == q.length
  {
    hide WakeReceiver, WakeSender;
    WakeFrames(q, t);
  }

  /** Waking changes no count. */
  lemma WakeFrames(q: Queue, t: Task)
    ensures forall r: Queue :: WakeReceiver(r).messages == r.messages && WakeReceiver(r).length == r.length
    ensures forall r: Queue :: WakeSender(r).messages == r.messages && WakeSender(r).length == r.length
  {
  }

  lemma StepBalance(q: Queue, step: Step)
    requires Enabled(q, step)
    ensures var r := Next(q, step);
            && r.messages + (if Takes(q, step) then 1 else 0) == q.messages + (if Puts(q, step) then 1 else 0)
            && r.length == q.length
  {
    hide Attempt, Inserted, Removed, WakeReceivers, WakeSenders;
    if step.DoAttempt? {
      AttemptBalance(q, step.t, step.blocks);
    }
  }

  /** Conservation, over every run of tasks and interrupts: the messages put in are those taken out and those
      the queue holds. */
  lemma {:induction false} MessagesBalance(run: Run)
    requires Legal(run)
    ensures Put(run) == Taken(run) + After(run).messages
    ensures After(run).messages <= After(run).length
  {
    hide Enabled, Next, Puts, Takes, Inv;
    RunInv(run);
    RoomBound(After(run));
    match run
    case Start(_, _) =>
    case Then(before, step) =>
      MessagesBalance(before);
      StepBalance(After(before), step);
  }

  lemma RoomBound(q: Queue)
    requires Inv(q)
    ensures q.messages <= q.length
  {
    hide Lists, Locks, Recorded, NoLostWakeup;
  }

  // ----- who is woken

  function RecordedBy(lock: int): nat {
    if lock <= 0 then 0 else lock
  }

  function Fewer(m: nat, n: nat): nat {
    if m < n then m else n
  }

  /** How many receivers a step wakes: one for a message put in or left by a peek, but none while the queue is
      locked; and on unlocking one for each message recorded, as long as there are any. */
  function WokenRx(q: Queue, step: Step): (k: nat)
    ensures k <= |q.waitRx|
  {
    Fewer(|q.waitRx|,
          if step.DoUnlockTx? then RecordedBy(q.txLock)
          else if Peeks(q, step) || (Sends(q, step) && (step.DoAttempt? || q.txLock == UNLOCKED)) then 1
          else 0)
  }

  /** And senders: one for each message taken out. */
  function WokenTx(q: Queue, step: Step): (k: nat)
    ensures k <= |q.waitTx|
  {
    Fewer(|q.waitTx|,
          if step.DoUnlockRx? then RecordedBy(q.rxLock)
          else if Takes(q, step) && (step.DoAttempt? || q.rxLock == UNLOCKED) then 1
          else 0)
  }

  function Members(list: seq<Task>): set<Task> {
    set t | t in list
  }

  lemma HeadMembers(list: seq<Task>, k: nat)
    requires 0 < k <= |list|
    ensures list[1..][k - 1..] == list[k..]
    ensures Members(list[..k]) == {list[0]} + Members(list[1..][..k - 1])
  {
    assert list[..k] == [list[0]] + list[1..][..k - 1];
  }

  /** The tasks at the head of a list leave it and count as woken. */
  ghost predicate Leave(wait: seq<Task>, woken: set<Task>, k: nat, wait': seq<Task>, woken': set<Task>)
    requires k <= |wait|
  {
    wait' == wait[k..] && woken' == woken + Members(wait[..k])
  }

  lemma LeaveOne(wait: seq<Task>, woken: set<Task>)
    ensures Leave(wait, woken, 0, wait, woken)
    ensures wait != [] ==> Leave(wait, woken, 1, wait[1..], woken + {wait[0]})
  {
    assert wait[..0] == [] && wait[0..] == wait;
    if wait != [] {
      assert wait[..1] == [wait[0]];
    }
  }

  lemma LeaveTwice(wait: seq<Task>, woken: set<Task>, k: nat, wait1: seq<Task>, woken1: set<Task>, wait2: seq<Task>, woken2: set<Task>)
    requires 0 < k <= |wait| && wait1 == wait[1..] && woken1 == woken + {wait[0]}
    requires Leave(wait1, woken1, k - 1, wait2, woken2)
    ensures Leave(wait, woken, k, wait2, woken2)
  {
    HeadMembers(wait, k);
  }

  lemma {:induction false} WakeReceiversAre(q: Queue, n: nat)
    ensures var r := WakeReceivers(q, n); Leave(q.waitRx, q.wokenRx, Fewer(|q.waitRx|, n), r.waitRx, r.wokenRx)
    decreases n
  {
    hide Leave;
    LeaveOne(q.waitRx, q.wokenRx);
    if n != 0 && q.waitRx != [] {
      var m := WakeReceiver(q);
      var r := WakeReceivers(m, n - 1);
      WakeReceiversAre(m, n - 1);
      LeaveTwice(q.waitRx, q.wokenRx, Fewer(|q.waitRx|, n), m.waitRx, m.wokenRx, r.waitRx, r.wokenRx);
    }
  }

  lemma {:induction false} WakeSendersAre(q: Queue, n: nat)
    ensures var r := WakeSenders(q, n); Leave(q.waitTx, q.wokenTx, Fewer(|q.waitTx|, n), r.waitTx, r.wokenTx)
    decreases n
  {
    hide Leave;
    LeaveOne(q.waitTx, q.wokenTx);
    if n != 0 && q.waitTx != [] {
      var m := WakeSender(q);
      var r := WakeSenders(m, n - 1);
      WakeSendersAre(m, n - 1);
      LeaveTwice(q.waitTx, q.wokenTx, Fewer(|q.waitTx|, n), m.waitTx, m.wokenTx, r.waitTx, r.wokenTx);
    }
  }

  lemma AttemptWakes(q: Queue, t: Task, blocks: bool)
    requires Enabled(q, DoAttempt(t, blocks))
    ensures var step := DoAttempt(t, blocks);
            var r := Next(q, step);
            && Leave(q.waitRx, q.wokenRx - {t}, WokenRx(q, step), r.waitRx, r.wokenRx)
            && Leave(q.waitTx, q.wokenTx - {t}, WokenTx(q, step), r.waitTx, r.wokenTx)
  {
    hide Leave, WakeReceiver, WakeSender;
    LeaveOne(q.waitRx, q.wokenRx - {t});
    LeaveOne(q.waitTx, q.wokenTx - {t});
    var r := Runs(q, t);
    match q.calls[t].call
    case Send(overwrite) => WakesOne(Filled(r, overwrite));
    case Receive =>
      if 0 < r.messages {
        WakesOne(r.(messages := r.messages - 1));
      }
    case Peek => WakesOne(r);
  }

  lemma WakesOne(q: Queue)
    ensures var r := WakeReceiver(q); r == q.(waitRx := r.waitRx, wokenRx := r.wokenRx)
    ensures Leave(q.waitRx, q.wokenRx, Fewer(|q.waitRx|, 1), WakeReceiver(q).waitRx, WakeReceiver(q).wokenRx)
    ensures var r := WakeSender(q); r == q.(waitTx := r.waitTx, wokenTx := r.wokenTx)
    ensures Leave(q.waitTx, q.wokenTx, Fewer(|q.waitTx|, 1), WakeSender(q).waitTx, WakeSender(q).wokenTx)
  {
    hide Leave;
    LeaveOne(q.waitRx, q.wokenRx);
    LeaveOne(q.waitTx, q.wokenTx);
  }

  lemma InterruptWakes(q: Queue, step: Step)
    requires step.DoSendFromISR? || step.DoReceiveFromISR?
    ensures var r := if step.DoSendFromISR? then SendFromISR(q, step.overwrite) else ReceiveFromISR(q);
            && Leave(q.waitRx, q.wokenRx, WokenRx(q, step), r.waitRx, r.wokenRx)
            && Leave(q.waitTx, q.wokenTx, WokenTx(q, step), r.waitTx, r.wokenTx)
            && r.txLock == (if Sends(q, step) && q.txLock != UNLOCKED then q.txLock + 1 else q.txLock)
            && r.rxLock == (if Takes(q, step) && q.rxLock != UNLOCKED then q.rxLock + 1 else q.rxLock)
  {
    hide Leave;
    LeaveOne(q.waitRx, q.wokenRx);
    LeaveOne(q.waitTx, q.wokenTx);
  }

  lemma UnlockWakes(q: Queue, step: Step)
    requires Enabled(q, step) && (step.DoUnlockTx? || step.DoUnlockRx?)
    ensures var r := Next(q, step);
            && Leave(q.waitRx, q.wokenRx, WokenRx(q, step), r.waitRx, r.wokenRx)
            && Leave(q.waitTx, q.wokenTx, WokenTx(q, step), r.waitTx, r.wokenTx)
            && r.txLock == (if step.DoUnlockTx? then UNLOCKED else q.txLock)
            && r.rxLock == (if step.DoUnlockRx? then UNLOCKED else q.rxLock)
  {
    hide Leave, WakeReceivers, WakeSenders;
    WakeReceiversAre(q, RecordedBy(q.txLock));
    WakeSendersAre(q, RecordedBy(q.rxLock));
    LeaveOne(q.waitRx, q.wokenRx);
    LeaveOne(q.waitTx, q.wokenTx);
  }

  /** Every step but joining an event list and timing out: exactly so many tasks are woken as there is
      something for, from the head of the list; while the queue is locked nobody is, and the lock
      records it instead. */
  lemma StepWakes(q: Queue, step: Step)
    requires Enabled(q, step) && !step.DoPlace? && !step.DoTimeout?
    ensures var r := Next(q, step);
            var ran := if step.DoAttempt? then {step.t} else {};
            && Leave(q.waitRx, q.wokenRx - ran, WokenRx(q, step), r.waitRx, r.wokenRx)
            && Leave(q.waitTx, q.wokenTx - ran, WokenTx(q, step), r.waitTx, r.wokenTx)
            && (step.DoSendFromISR? ==> r.txLock == if Sends(q, step) && q.txLock != UNLOCKED then q.txLock + 1 else q.txLock)
            && (step.DoReceiveFromISR? ==> r.rxLock == if Takes(q, step) && q.rxLock != UNLOCKED then q.rxLock + 1 else q.rxLock)
  {
    hide Attempt, SendFromISR, ReceiveFromISR, WakeReceivers, WakeSenders, Leave;
    assert q.wokenRx - {} == q.wokenRx && q.wokenTx - {} == q.wokenTx;
    if step.DoAttempt? {
      AttemptWakes(q, step.t, step.blocks);
    } else if step.DoSendFromISR? || step.DoReceiveFromISR? {
      InterruptWakes(q, step);
    } else if step.DoUnlockTx? || step.DoUnlockRx? {
      UnlockWakes(q, step);
    } else {
      LeaveOne(q.waitRx, q.wokenRx);
      LeaveOne(q.waitTx, q.wokenTx);
    }
  }

  /** A task joins the event list of its kind, behind all that are at least as urgent; nobody is woken. */
  lemma PlaceJoins(q: Queue, t: Task)
    requires Enabled(q, DoPlace(t))
    ensures var r := Next(q, DoPlace(t));
            && r.wokenRx == q.wokenRx && r.wokenTx == q.wokenTx && r.messages == q.messages
            && (if q.calls[t].call.Send? then r.waitRx == q.waitRx && Joins(q, q.waitTx, t, r.waitTx)
                else r.waitTx == q.waitTx && Joins(q, q.waitRx, t, r.waitRx))
  {
    hide Joins, Inserted;
    InsertedJoins(q, q.waitTx, t);
    InsertedJoins(q, q.waitRx, t);
  }

  /** `r` is `list` with `t` in it, after everything at most its value and before everything greater. */
  ghost predicate Joins(q: Queue, list: seq<Task>, t: Task, r: seq<Task>) {
    exists k {:trigger InsertAt(list, k, t)} ::
      0 <= k <= |list| && r == InsertAt(list, k, t)
      && (forall i :: 0 <= i < k ==> Value(q, list[i]) <= Value(q, t))
      && (k < |list| ==> Value(q, t) < Value(q, list[k]))
  }

  lemma InsertedJoins(q: Queue, list: seq<Task>, t: Task)
    ensures Joins(q, list, t, Inserted(q, list, t))
  {
    hide InsertAt, Value;
    var k := FirstGreater(Values(q, list), Value(q, t));
    assert InsertAt(list, k, t) == Inserted(q, list, t);
    forall i | 0 <= i < k ensures Value(q, list[i]) <= Value(q, t) {
      assert Values(q, list)[i] == Value(q, list[i]);
    }
  }

  /** A timeout takes the task off its list; nobody is woken, and the others stay in order. */
  lemma TimeoutLeaves(q: Queue, t: Task)
    requires Enabled(q, DoTimeout(t))
    ensures var r := Next(q, DoTimeout(t));
            && r == q.(waitRx := r.waitRx, waitTx := r.waitTx)
            && Without(q.waitRx, t, r.waitRx) && Without(q.waitTx, t, r.waitTx)
  {
    hide Without, Removed;
    WithoutRemoved(q.waitRx, t);
    WithoutRemoved(q.waitTx, t);
  }

  /** `r` is `list` without one occurrence of `t`, if it has one. */
  ghost predicate Without(list: seq<Task>, t: Task, r: seq<Task>) {
    if t in list then exists k {:trigger RemoveAt(list, k)} :: 0 <= k < |list| && list[k] == t && r == RemoveAt(list, k)
    else r == list
  }

  lemma WithoutRemoved(list: seq<Task>, t: Task)
    ensures Without(list, t, Removed(list, t))
  {
    if t in list {
      assert Removed(list, t) == RemoveAt(list, IndexOf(list, t));
    }
  }

  /** Over every run, whoever a step wakes is at least as urgent as whoever it leaves waiting. */
  lemma WokenMostUrgent(run: Run, step: Step, t: Task, u: Task)
    requires Legal(run) && Enabled(After(run), step) && !step.DoPlace? && !step.DoTimeout?
    ensures var q := After(run);
            var r := Next(q, step);
            && (t in q.waitRx && t !in r.waitRx && u in r.waitRx ==> Value(q, t) <= Value(q, u))
            && (t in q.waitTx && t !in r.waitTx && u in r.waitTx ==> Value(q, t) <= Value(q, u))
  {
    hide Legal, After, Enabled, Next, WokenRx, WokenTx;
    var q := After(run);
    MostUrgentFirst(run);
    StepWakes(q, step);
    HeadsFirst(q, q.waitRx, WokenRx(q, step), t, u);
    HeadsFirst(q, q.waitTx, WokenTx(q, step), t, u);
  }

  lemma HeadsFirst(q: Queue, list: seq<Task>, k: nat, t: Task, u: Task)
    requires Sorted(Values(q, list)) && k <= |list|
    ensures t in list && t !in list[k..] && u in list[k..] ==> Value(q, t) <= Value(q, u)
  {
    if t in list && t !in list[k..] && u in list[k..] {
      var i :| 0 <= i < |list| && list[i] == t;
      var j :| 0 <= j < |list| - k && list[k..][j] == u;
      forall m | k <= m < |list| ensures list[m] in list[k..] {
        assert list[k..][m - k] == list[m];
      }
      assert Values(q, list)[i] <= Values(q, list)[k + j];
    }
  }

  // ----- how a call ends

  /** An attempt ends the call exactly when it can go, or will not wait; otherwise it changes nothing but
      that the call goes on to wait. */
  lemma AttemptEnds(q: Queue, t: Task, blocks: bool)
    requires Enabled(q, DoAttempt(t, blocks))
    ensures var call := q.calls[t].call;
            var r := Next(q, DoAttempt(t, blocks));
            && (t !in r.calls <==> CanGo(q, call) || !blocks)
            && (t in r.calls ==> r.calls[t] == Progress(call, Entering))
            && (!CanGo(q, call) ==> r.messages == q.messages && r.waitRx == q.waitRx && r.waitTx == q.waitTx)
            && (forall u :: u != t ==> (u in r.calls <==> u in q.calls) && (u in q.calls ==> r.calls[u] == q.calls[u]))
  {
    hide WakeReceiver, WakeSender;
    WakeReceiverFrame(Filled(Runs(q, t), true));
    WakeReceiverFrame(Filled(Runs(q, t), false));
    WakeReceiverFrame(Runs(q, t));
    if q.messages != 0 {
      WakeSenderFrame(Runs(q, t).(messages := q.messages - 1));
    }
  }

  /** Once in the lock, a call joins the event list exactly if the queue is still full, or empty; else it
      tries again. */
  lemma WaitsOrRetries(q: Queue, t: Task)
    requires Inv(q) && Enabled(q, DoCheckQueue(t))
    ensures Next(q, DoCheckQueue(t)).calls[t].phase == if CanGo(q, q.calls[t].call) then Deciding(WillRetry) else Blocking
  {
    hide Lists, Locks, Recorded, NoLostWakeup;
  }

  /** And it gives up exactly when its time has run out. */
  lemma GivesUp(q: Queue, t: Task, expired: bool)
    requires Enabled(q, DoCheckTimeOut(t, expired))
    ensures Next(q, DoCheckTimeOut(t, expired)).calls[t].phase == if expired then Deciding(WillFail) else InTime
  {
  }

  /** A call that will fail: its time has run out. */
  predicate Fails(q: Queue, t: Task) {
    && t in q.calls
    && (q.calls[t].phase.Deciding? || q.calls[t].phase.HalfUnlocked? || q.calls[t].phase.Released?)
    && q.calls[t].phase.outcome.WillFail?
  }

  /** A call ends by going through, by not being willing to wait, or by its time having run out; and nothing
      else makes it fail. */
  lemma CallsEnd(q: Queue, step: Step, t: Task)
    requires Enabled(q, step) && t in q.calls
    ensures var r := Next(q, step);
            && (t !in r.calls <==>
                  || (step.DoAttempt? && step.t == t && (CanGo(q, q.calls[t].call) || !step.blocks))
                  || (step.DoResumeAll? && step.t == t && Fails(q, t)))
            && (t in r.calls ==> (Fails(r, t) <==> Fails(q, t) || step == DoCheckTimeOut(t, true)))
            && (t in r.calls ==> r.calls[t].call == q.calls[t].call)
  {
    hide Attempt, WakeReceivers, WakeSenders, Inserted, Removed, CanGo;
    if step.DoAttempt? {
      AttemptEnds(q, step.t, step.blocks);
    }
  }
}
