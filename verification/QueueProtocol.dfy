/** queue.c: the protocol by which tasks block on a queue while interrupts may change its contents
    but not its event lists. No wake-up is lost in any interleaving. */
module QueueProtocol {
  import opened ListValues

  type Task = nat

  datatype Call = Send(overwrite: bool) | Receive | Peek

  /** What the task that holds the lock does after releasing it. */
  datatype Outcome = WillWait | WillRetry | WillFail

  /** How far a call has come. From `Entered` to `Released` the task has the scheduler suspended. */
  datatype Phase =
    | Attempting
    | Entering | Entered | Locked | InTime | Blocking
    | Deciding(outcome: Outcome) | HalfUnlocked(outcome: Outcome) | Released(outcome: Outcome)
    | Waiting

  datatype Progress = Progress(call: Call, phase: Phase)

  datatype Option<T> = None | Some(value: T)

  const UNLOCKED: int := -1

  datatype Queue = Queue(
    length: nat,
    messages: nat,
    rxLock: int,
    txLock: int,
    waitRx: seq<Task>,
    waitTx: seq<Task>,
    /** Tasks taken off an event list by a wake-up that have not run since. */
    wokenRx: set<Task>,
    wokenTx: set<Task>,
    /** The event item value of each task, by which event lists are sorted. */
    value: map<Task, nat>,
    calls: map<Task, Progress>,
    /** The task that has the scheduler suspended. */
    holder: Option<Task>)

  function Value(q: Queue, t: Task): nat {
    if t in q.value then q.value[t] else 0
  }

  function Values(q: Queue, list: seq<Task>): (r: seq<nat>)
    ensures |r| == |list|
    ensures forall i {:trigger r[i]} :: 0 <= i < |r| ==> r[i] == Value(q, list[i])
  {
    seq(|list|, i requires 0 <= i < |list| => Value(q, list[i]))
  }

  /** `vListInsert` into an event list. */
  function Inserted(q: Queue, list: seq<Task>, t: Task): seq<Task> {
    InsertAt(list, FirstGreater(Values(q, list), Value(q, t)), t)
  }

  // ----- waking

  /** `xTaskRemoveFromEventList` on the receivers, if there is one. */
  function WakeReceiver(q: Queue): Queue {
    if q.waitRx == [] then q else q.(waitRx := q.waitRx[1..], wokenRx := q.wokenRx + {q.waitRx[0]})
  }

  function WakeSender(q: Queue): Queue {
    if q.waitTx == [] then q else q.(waitTx := q.waitTx[1..], wokenTx := q.wokenTx + {q.waitTx[0]})
  }

  function WakeReceivers(q: Queue, n: nat): (r: Queue)
    ensures r == q.(waitRx := r.waitRx, wokenRx := r.wokenRx)
    decreases n
  {
    if n == 0 || q.waitRx == [] then q else WakeReceivers(WakeReceiver(q), n - 1)
  }

  function WakeSenders(q: Queue, n: nat): (r: Queue)
    ensures r == q.(waitTx := r.waitTx, wokenTx := r.wokenTx)
    decreases n
  {
    if n == 0 || q.waitTx == [] then q else WakeSenders(WakeSender(q), n - 1)
  }

  function Count(lock: int): nat {
    if 0 < lock then lock else 0
  }

  // ----- the critical sections

  predicate HasRoom(q: Queue, overwrite: bool) {
    q.messages < q.length || overwrite
  }

  /** The count after an item has been copied in: an overwrite of a queue that holds one leaves one. */
  function Filled(q: Queue, overwrite: bool): Queue {
    q.(messages := if overwrite && 0 < q.messages then q.messages else q.messages + 1)
  }

  function Set(q: Queue, t: Task, p: Progress): Queue {
    q.(calls := q.calls[t := p])
  }

  function Finish(q: Queue, t: Task): Queue {
    q.(calls := q.calls - {t})
  }

  /** The task has run since it was woken. */
  function Runs(q: Queue, t: Task): Queue {
    q.(wokenRx := q.wokenRx - {t}, wokenTx := q.wokenTx - {t})
  }

  /** The first critical section of a call, with or without the will to block. */
  function Attempt(q: Queue, t: Task, blocks: bool): Queue
    requires t in q.calls
  {
    var call := q.calls[t].call;
    var r := Runs(q, t);
    match call
    case Send(overwrite) =>
      if HasRoom(r, overwrite) then Finish(WakeReceiver(Filled(r, overwrite)), t)
      else if blocks then Set(r, t, Progress(call, Entering)) else Finish(r, t)
    case Receive =>
      if 0 < r.messages then Finish(WakeSender(r.(messages := r.messages - 1)), t)
      else if blocks then Set(r, t, Progress(call, Entering)) else Finish(r, t)
    case Peek =>
      if 0 < r.messages then Finish(WakeReceiver(r), t)
      else if blocks then Set(r, t, Progress(call, Entering)) else Finish(r, t)
  }

  /** `prvLockQueue` */
  function Lock(q: Queue): Queue {
    q.(rxLock := if q.rxLock == UNLOCKED then 0 else q.rxLock, txLock := if q.txLock == UNLOCKED then 0 else q.txLock)
  }

  /** Whether the call still cannot go ahead: `prvIsQueueFull` or `prvIsQueueEmpty`. */
  predicate MustWait(q: Queue, call: Call) {
    if call.Send? then q.messages == q.length else q.messages == 0
  }

  /** `vTaskPlaceOnEventList` */
  function Place(q: Queue, t: Task, call: Call): Queue {
    if call.Send? then q.(waitTx := Inserted(q, q.waitTx, t)) else q.(waitRx := Inserted(q, q.waitRx, t))
  }

  /** The first critical section of `prvUnlockQueue`. */
  function UnlockTx(q: Queue): Queue {
    WakeReceivers(q, Count(q.txLock)).(txLock := UNLOCKED)
  }

  /** The second. */
  function UnlockRx(q: Queue): Queue {
    WakeSenders(q, Count(q.rxLock)).(rxLock := UNLOCKED)
  }

  /** `xQueueGenericSendFromISR` */
  function SendFromISR(q: Queue, overwrite: bool): Queue {
    if HasRoom(q, overwrite) then
      var r := Filled(q, overwrite);
      if r.txLock == UNLOCKED then WakeReceiver(r) else r.(txLock := r.txLock + 1)
    else q
  }

  /** `xQueueReceiveFromISR` */
  function ReceiveFromISR(q: Queue): Queue {
    if 0 < q.messages then
      var r := q.(messages := q.messages - 1);
      if r.rxLock == UNLOCKED then WakeSender(r) else r.(rxLock := r.rxLock + 1)
    else q
  }

  function Removed(list: seq<Task>, t: Task): seq<Task> {
    if t in list then RemoveAt(list, IndexOf(list, t)) else list
  }

  // ----- the step machine

  datatype Step =
    | DoCall(t: Task, call: Call)
    | DoAttempt(t: Task, blocks: bool)
    | DoSuspendAll(t: Task)
    | DoLock(t: Task)
    | DoCheckTimeOut(t: Task, expired: bool)
    | DoCheckQueue(t: Task)
    | DoPlace(t: Task)
    | DoUnlockTx(t: Task)
    | DoUnlockRx(t: Task)
    | DoResumeAll(t: Task)
    | DoTimeout(t: Task)
    | DoSendFromISR(overwrite: bool)
    | DoReceiveFromISR

  predicate In(q: Queue, t: Task, phase: Phase) {
    t in q.calls && q.calls[t].phase == phase
  }

  /** When each step can happen. Tasks run only while no other task has the scheduler suspended;
      interrupts can come at any time. A waiting task runs once it is on no event list. An
      overwriting send is made only to a queue of length one. */
  predicate Enabled(q: Queue, step: Step) {
    match step
    case DoCall(t, call) => q.holder == None && t !in q.calls && (call.Send? && call.overwrite ==> q.length == 1)
    case DoAttempt(t, _) =>
      q.holder == None && (In(q, t, Attempting) || (In(q, t, Waiting) && t !in q.waitRx && t !in q.waitTx))
    case DoSuspendAll(t) => q.holder == None && In(q, t, Entering)
    case DoLock(t) => In(q, t, Entered)
    case DoCheckTimeOut(t, _) => In(q, t, Locked)
    case DoCheckQueue(t) => In(q, t, InTime)
    case DoPlace(t) => In(q, t, Blocking)
    case DoUnlockTx(t) => t in q.calls && q.calls[t].phase.Deciding?
    case DoUnlockRx(t) => t in q.calls && q.calls[t].phase.HalfUnlocked?
    case DoResumeAll(t) => t in q.calls && q.calls[t].phase.Released?
    case DoTimeout(t) => q.holder == None && In(q, t, Waiting) && (t in q.waitRx || t in q.waitTx)
    case DoSendFromISR(overwrite) => overwrite ==> q.length == 1
    case DoReceiveFromISR => true
  }

  function Goes(q: Queue, t: Task, phase: Phase): Queue
    requires t in q.calls
  {
    Set(q, t, Progress(q.calls[t].call, phase))
  }

  function Next(q: Queue, step: Step): Queue
    requires Enabled(q, step)
  {
    match step
    case DoCall(t, call) => Set(q, t, Progress(call, Attempting))
    case DoAttempt(t, blocks) => Attempt(q, t, blocks)
    case DoSuspendAll(t) => Goes(q, t, Entered).(holder := Some(t))
    case DoLock(t) => Goes(Lock(q), t, Locked)
    case DoCheckTimeOut(t, expired) => Goes(q, t, if expired then Deciding(WillFail) else InTime)
    case DoCheckQueue(t) => Goes(q, t, if MustWait(q, q.calls[t].call) then Blocking else Deciding(WillRetry))
    case DoPlace(t) => Goes(Place(q, t, q.calls[t].call), t, Deciding(WillWait))
    case DoUnlockTx(t) => Goes(UnlockTx(q), t, HalfUnlocked(q.calls[t].phase.outcome))
    case DoUnlockRx(t) => Goes(UnlockRx(q), t, Released(q.calls[t].phase.outcome))
    case DoResumeAll(t) =>
      (match q.calls[t].phase.outcome
       case WillWait => Goes(q, t, Waiting)
       case WillRetry => Goes(q, t, Attempting)
       case WillFail => Finish(q, t)).(holder := None)
    case DoTimeout(t) => q.(waitRx := Removed(q.waitRx, t), waitTx := Removed(q.waitTx, t))
    case DoSendFromISR(overwrite) => SendFromISR(q, overwrite)
    case DoReceiveFromISR => ReceiveFromISR(q)
  }

  // ----- the invariant

  /** The task has the scheduler suspended. */
  predicate Holds(p: Phase) {
    p.Entered? || p.Locked? || p.InTime? || p.Blocking? || p.Deciding? || p.HalfUnlocked? || p.Released?
  }

  predicate HasTxLock(p: Phase) {
    p.Locked? || p.InTime? || p.Blocking? || p.Deciding?
  }

  predicate HasRxLock(p: Phase) {
    HasTxLock(p) || p.HalfUnlocked?
  }

  /** The task has been put on an event list by its present call. */
  predicate Placed(p: Phase) {
    p.Waiting? || (p.Deciding? && p.outcome.WillWait?) || (p.HalfUnlocked? && p.outcome.WillWait?) || (p.Released? && p.outcome.WillWait?)
  }

  ghost predicate Lists(q: Queue) {
    && Distinct(q.waitRx) && Distinct(q.waitTx)
    && (forall t {:trigger t in q.waitRx} {:trigger t in q.wokenRx} ::
          t in q.waitRx || t in q.wokenRx ==> t in q.calls && !q.calls[t].call.Send? && Placed(q.calls[t].phase))
    && (forall t {:trigger t in q.waitTx} {:trigger t in q.wokenTx} ::
          t in q.waitTx || t in q.wokenTx ==> t in q.calls && q.calls[t].call.Send? && Placed(q.calls[t].phase))
    && (forall t :: t in q.waitRx ==> t !in q.wokenRx)
    && (forall t :: t in q.waitTx ==> t !in q.wokenTx)
  }

  ghost predicate Locks(q: Queue) {
    && (forall t :: t in q.calls ==> (Holds(q.calls[t].phase) <==> q.holder == Some(t)))
    && (q.holder.Some? ==> q.holder.value in q.calls)
    && UNLOCKED <= q.txLock && UNLOCKED <= q.rxLock
    && (q.txLock != UNLOCKED <==> q.holder.Some? && HasTxLock(q.calls[q.holder.value].phase))
    && (q.rxLock != UNLOCKED <==> q.holder.Some? && HasRxLock(q.calls[q.holder.value].phase))
  }

  ghost predicate Counts(q: Queue) {
    && 0 < q.length && q.messages <= q.length
    && (forall t :: t in q.calls && q.calls[t].call.Send? && q.calls[t].call.overwrite ==>
          q.length == 1 && q.calls[t].phase == Attempting)
  }

  /** Between finding the queue empty (or full) and joining the event list, whatever an interrupt
      sends (or receives) is recorded in the lock. */
  ghost predicate Recorded(q: Queue) {
    forall t :: In(q, t, Blocking) ==>
      if q.calls[t].call.Send? then q.length - q.messages <= q.rxLock else q.messages <= q.txLock
  }

  /** The property itself: while a receiver waits, every message is spoken for by a receiver that has
      been woken but has not run yet, or by a send the lock has recorded; and so for senders. */
  ghost predicate NoLostWakeup(q: Queue) {
    && (q.waitRx != [] ==> q.messages <= |q.wokenRx| + Count(q.txLock))
    && (q.waitTx != [] ==> q.length - q.messages <= |q.wokenTx| + Count(q.rxLock))
  }

  ghost predicate Inv(q: Queue) {
    Lists(q) && Locks(q) && Counts(q) && Recorded(q) && NoLostWakeup(q)
  }

  // ----- every step keeps it

  lemma WakeReceiverLists(q: Queue)
    requires Lists(q)
    ensures Lists(WakeReceiver(q))
    ensures q.waitRx != [] ==> |WakeReceiver(q).wokenRx| == |q.wokenRx| + 1
  {
    if q.waitRx != [] {
      HeadLeaves(q.waitRx);
      hide Distinct;
    }
  }

  /** A list without its head. */
  lemma HeadLeaves(list: seq<Task>)
    requires Distinct(list) && list != []
    ensures list[0] in list && Distinct(list[1..])
    ensures forall t :: t in list[1..] <==> t in list && t != list[0]
  {
    assert list == [list[0]] + list[1..];
  }

  lemma WakeSenderLists(q: Queue)
    requires Lists(q)
    ensures Lists(WakeSender(q))
    ensures q.waitTx != [] ==> |WakeSender(q).wokenTx| == |q.wokenTx| + 1
  {
    if q.waitTx != [] {
      HeadLeaves(q.waitTx);
      hide Distinct;
    }
  }

  /** The loops of `prvUnlockQueue` wake one task for each recorded operation, as long as there are
      any to wake. */
  lemma {:induction false} WakeReceiversLists(q: Queue, n: nat)
    requires Lists(q)
    ensures var r := WakeReceivers(q, n); Lists(r) && (r.waitRx != [] ==> |r.wokenRx| == |q.wokenRx| + n && q.waitRx != [])
    decreases n
  {
    if n != 0 && q.waitRx != [] {
      WakeReceiverLists(q);
      hide Lists, WakeReceiver;
      WakeReceiversLists(WakeReceiver(q), n - 1);
    }
  }

  lemma {:induction false} WakeSendersLists(q: Queue, n: nat)
    requires Lists(q)
    ensures var r := WakeSenders(q, n); Lists(r) && (r.waitTx != [] ==> |r.wokenTx| == |q.wokenTx| + n && q.waitTx != [])
    decreases n
  {
    if n != 0 && q.waitTx != [] {
      WakeSenderLists(q);
      hide Lists, WakeSender;
      WakeSendersLists(WakeSender(q), n - 1);
    }
  }

  /** The fields the event lists depend on. */
  lemma ListsFrame(q: Queue, r: Queue, t: Task)
    requires Lists(q) && r.waitRx == q.waitRx && r.waitTx == q.waitTx && r.wokenRx == q.wokenRx && r.wokenTx == q.wokenTx
    requires r.calls - {t} == q.calls - {t}
    requires t in q.calls && Placed(q.calls[t].phase) ==>
               (t in r.calls && r.calls[t].call == q.calls[t].call && Placed(r.calls[t].phase))
               || (t !in q.waitRx && t !in q.waitTx && t !in q.wokenRx && t !in q.wokenTx)
    ensures Lists(r)
  {
    forall u | u != t && u in q.calls ensures u in r.calls && r.calls[u] == q.calls[u] {
      assert u in q.calls - {t} && (q.calls - {t})[u] == q.calls[u];
      assert u in r.calls - {t} && (r.calls - {t})[u] == q.calls[u];
    }
  }

  lemma RunsLists(q: Queue, t: Task)
    requires Lists(q)
    ensures Lists(Runs(q, t))
    ensures |q.wokenRx| - (if t in q.wokenRx then 1 else 0) == |Runs(q, t).wokenRx|
    ensures |q.wokenTx| - (if t in q.wokenTx then 1 else 0) == |Runs(q, t).wokenTx|
  {
  }

  /** A task on no event list and not counted as woken. */
  ghost predicate Free(q: Queue, t: Task) {
    t !in q.waitRx && t !in q.waitTx && t !in q.wokenRx && t !in q.wokenTx
  }

  lemma FreeLists(q: Queue, t: Task, p: Progress)
    requires Lists(q) && Free(q, t)
    ensures Lists(Finish(q, t)) && Lists(Set(q, t, p))
  {
    assert Finish(q, t).calls - {t} == q.calls - {t} && Set(q, t, p).calls - {t} == q.calls - {t};
    ListsFrame(q, Finish(q, t), t);
    ListsFrame(q, Set(q, t, p), t);
  }

  /** A task that is free joins the event list of its kind. */
  lemma JoinedLists(q: Queue, t: Task, rx: seq<Task>, tx: seq<Task>)
    requires Lists(q) && Free(q, t) && t in q.calls && Placed(q.calls[t].phase)
    requires Distinct(rx) && (forall u :: u in rx <==> u == t || u in q.waitRx)
    requires Distinct(tx) && (forall u :: u in tx <==> u == t || u in q.waitTx)
    ensures Lists(if q.calls[t].call.Send? then q.(waitTx := tx) else q.(waitRx := rx))
  {
    hide Distinct;
  }

  lemma PlaceLists(q: Queue, t: Task)
    requires Lists(q) && In(q, t, Blocking)
    ensures Lists(Goes(Place(q, t, q.calls[t].call), t, Deciding(WillWait)))
    ensures forall u :: u in Inserted(q, q.waitRx, t) <==> u == t || u in q.waitRx
    ensures forall u :: u in Inserted(q, q.waitTx, t) <==> u == t || u in q.waitTx
  {
    hide InsertAt, FirstGreater, Distinct;
    InsertAtMembers(q.waitRx, FirstGreater(Values(q, q.waitRx), Value(q, t)), t);
    InsertAtMembers(q.waitTx, FirstGreater(Values(q, q.waitTx), Value(q, t)), t);
    assert Free(q, t);
    var r := Goes(q, t, Deciding(WillWait));
    FreeLists(q, t, Progress(q.calls[t].call, Deciding(WillWait)));
    hide Inserted;
    JoinedLists(r, t, Inserted(q, q.waitRx, t), Inserted(q, q.waitTx, t));
    hide Lists;
  }

  lemma RemovedMembers(list: seq<Task>, t: Task)
    requires Distinct(list)
    ensures Distinct(Removed(list, t)) && forall u :: u in Removed(list, t) <==> u in list && u != t
  {
    if t in list {
      RemoveAtMembers(list, IndexOf(list, t));
    }
  }

  lemma TimeoutLists(q: Queue, t: Task)
    requires Lists(q)
    ensures Lists(q.(waitRx := Removed(q.waitRx, t), waitTx := Removed(q.waitTx, t)))
    ensures (q.waitRx == [] ==> Removed(q.waitRx, t) == []) && (q.waitTx == [] ==> Removed(q.waitTx, t) == [])
  {
    RemovedMembers(q.waitRx, t);
    RemovedMembers(q.waitTx, t);
    hide Removed, Distinct;
  }

  lemma WakeFree(q: Queue, t: Task)
    requires Free(q, t)
    ensures Free(WakeReceiver(q), t) && Free(WakeSender(q), t)
  {
  }

  lemma MessagesLists(q: Queue, n: nat)
    requires Lists(q)
    ensures Lists(q.(messages := n))
  {
  }

  lemma RunsFree(q: Queue, t: Task)
    requires Lists(q) && t in q.calls && (q.calls[t].phase == Attempting || (t !in q.waitRx && t !in q.waitTx))
    ensures Lists(Runs(q, t)) && Free(Runs(q, t), t)
    ensures Runs(q, t) == q.(wokenRx := Runs(q, t).wokenRx, wokenTx := Runs(q, t).wokenTx)
    ensures t in q.wokenRx ==> !q.calls[t].call.Send?
    ensures t in q.wokenTx ==> q.calls[t].call.Send? && q.calls[t].phase != Attempting
  {
  }

  lemma AttemptLists(q: Queue, t: Task, blocks: bool)
    requires Lists(q) && Enabled(q, DoAttempt(t, blocks))
    ensures Lists(Attempt(q, t, blocks))
  {
    hide Lists, Free, Runs, WakeReceiver, WakeSender;
    RunsFree(q, t);
    var r := Runs(q, t);
    var call := q.calls[t].call;
    var p := Progress(call, Entering);
    FreeLists(r, t, p);
    WakeFree(r, t);
    if call.Send? {
      var r1 := Filled(r, call.overwrite);
      MessagesLists(r, r1.messages);
      WakeReceiverLists(r1);
      SameFree(r, r1, t);
      WakeFree(r1, t);
      FreeLists(WakeReceiver(r1), t, p);
    } else if call.Receive? && 0 < r.messages {
      var r1 := r.(messages := r.messages - 1);
      MessagesLists(r, r1.messages);
      WakeSenderLists(r1);
      SameFree(r, r1, t);
      WakeFree(r1, t);
      FreeLists(WakeSender(r1), t, p);
    } else {
      WakeReceiverLists(r);
      FreeLists(WakeReceiver(r), t, p);
    }
  }

  lemma SameFree(q: Queue, r: Queue, t: Task)
    requires Free(q, t) && r == q.(messages := r.messages)
    ensures Free(r, t)
  {
  }

  lemma WakeReceiverFrame(q: Queue)
    ensures var r := WakeReceiver(q); r == q.(waitRx := r.waitRx, wokenRx := r.wokenRx) && (q.waitRx == [] ==> r == q)
  {
  }

  lemma WakeSenderFrame(q: Queue)
    ensures var r := WakeSender(q); r == q.(waitTx := r.waitTx, wokenTx := r.wokenTx) && (q.waitTx == [] ==> r == q)
  {
  }

  lemma CallCounts(q: Queue, t: Task)
    requires Counts(q) && t in q.calls
    ensures q.messages <= q.length
    ensures q.calls[t].call.Send? && q.calls[t].call.overwrite ==> q.length == 1 && q.calls[t].phase == Attempting
  {
  }

  /** While no task has the scheduler suspended the locks are off. */
  lemma IdleLocks(q: Queue, r: Queue, t: Task)
    requires Locks(q) && q.holder == None && r.holder == None && r.txLock == q.txLock && r.rxLock == q.rxLock
    requires forall u :: u in r.calls ==> (u in q.calls && r.calls[u] == q.calls[u]) || (u == t && !Holds(r.calls[u].phase))
    ensures Locks(r) && Recorded(r) && r.txLock == r.rxLock == UNLOCKED
  {
    hide HasTxLock, HasRxLock;
  }

  lemma AttemptFrame(q: Queue, t: Task, blocks: bool)
    requires t in q.calls && Counts(q)
    ensures var r := Attempt(q, t, blocks);
            && r.length == q.length && r.txLock == q.txLock && r.rxLock == q.rxLock && r.holder == q.holder
            && r.messages <= r.length
            && (r.calls == q.calls - {t}
                || (r.calls == q.calls[t := Progress(q.calls[t].call, Entering)] && !(q.calls[t].call.Send? && q.calls[t].call.overwrite)))
  {
    hide WakeReceiver, WakeSender;
    CallCounts(q, t);
    var r := Runs(q, t);
    var call := q.calls[t].call;
    if call.Send? {
      WakeReceiverFrame(Filled(r, call.overwrite));
    } else if call.Receive? {
      if 0 < r.messages {
        WakeSenderFrame(r.(messages := r.messages - 1));
      }
    } else {
      WakeReceiverFrame(r);
    }
    hide Counts;
  }

  lemma AttemptLocks(q: Queue, t: Task, blocks: bool)
    requires Locks(q) && Counts(q) && Enabled(q, DoAttempt(t, blocks))
    ensures Locks(Attempt(q, t, blocks)) && Recorded(Attempt(q, t, blocks)) && Counts(Attempt(q, t, blocks))
  {
    hide Attempt, Locks, Recorded;
    AttemptFrame(q, t, blocks);
    IdleLocks(q, Attempt(q, t, blocks), t);
  }

  /** A message added wakes a receiver. */
  lemma SendLosesNothing(q: Queue, overwrite: bool)
    requires Lists(q) && NoLostWakeup(q) && HasRoom(q, overwrite)
    requires q.messages <= q.length && (overwrite ==> q.length == 1)
    ensures NoLostWakeup(WakeReceiver(Filled(q, overwrite)))
  {
    hide Lists;
    MessagesLists(q, Filled(q, overwrite).messages);
    WakeReceiverLists(Filled(q, overwrite));
  }

  /** A slot freed wakes a sender. */
  lemma ReceiveLosesNothing(q: Queue)
    requires Lists(q) && NoLostWakeup(q) && 0 < q.messages <= q.length
    ensures NoLostWakeup(WakeSender(q.(messages := q.messages - 1)))
  {
    hide Lists;
    MessagesLists(q, q.messages - 1);
    WakeSenderLists(q.(messages := q.messages - 1));
  }

  /** A woken task that runs takes what it was woken for or passes the wake-up on. */
  lemma AttemptLosesNothing(q: Queue, t: Task, blocks: bool)
    requires Inv(q) && Enabled(q, DoAttempt(t, blocks))
    ensures NoLostWakeup(Attempt(q, t, blocks))
  {
    hide Lists, Locks, Recorded;
    RunsLists(q, t);
    RunsFree(q, t);
    if q.calls[t].call.Send? {
      WokenSenderRuns(q, t, blocks);
    } else {
      WokenReceiverRuns(q, t, blocks);
    }
  }

  lemma WokenSenderRuns(q: Queue, t: Task, blocks: bool)
    requires NoLostWakeup(q) && Counts(q) && Lists(q) && t in q.calls && q.calls[t].call.Send?
    requires t !in q.wokenRx && (t in q.wokenTx ==> !q.calls[t].call.overwrite)
    ensures NoLostWakeup(Attempt(q, t, blocks))
  {
    RunsLists(q, t);
    hide Lists;
    var overwrite := q.calls[t].call.overwrite;
    var r := Runs(q, t);
    if HasRoom(q, overwrite) {
      MessagesLists(r, Filled(r, overwrite).messages);
      WakeReceiverLists(Filled(r, overwrite));
      hide WakeReceiver;
      WakeReceiverFrame(Filled(r, overwrite));
    }
  }

  lemma WokenReceiverRuns(q: Queue, t: Task, blocks: bool)
    requires NoLostWakeup(q) && Counts(q) && Lists(q) && t in q.calls && !q.calls[t].call.Send?
    requires t !in q.wokenTx
    ensures NoLostWakeup(Attempt(q, t, blocks))
  {
    hide Lists, WakeSender, WakeReceiver;
    if q.messages == 0 {
      NothingToTake(q, t, blocks);
    } else if q.calls[t].call.Receive? {
      TakesMessage(q, t, blocks);
    } else {
      PassesOn(q, t, blocks);
    }
  }

  lemma NothingToTake(q: Queue, t: Task, blocks: bool)
    requires NoLostWakeup(q) && Counts(q) && Lists(q) && t in q.calls && !q.calls[t].call.Send?
    requires t !in q.wokenTx && q.messages == 0
    ensures NoLostWakeup(Attempt(q, t, blocks))
  {
    RunsLists(q, t);
    hide Lists;
  }

  lemma TakesMessage(q: Queue, t: Task, blocks: bool)
    requires NoLostWakeup(q) && Counts(q) && Lists(q) && t in q.calls && q.calls[t].call.Receive?
    requires t !in q.wokenTx && 0 < q.messages
    ensures NoLostWakeup(Attempt(q, t, blocks))
  {
    hide Lists, WakeSender, Counts;
    RunsLists(q, t);
    var r := Runs(q, t).(messages := q.messages - 1);
    MessagesLists(Runs(q, t), r.messages);
    WakeSenderLists(r);
    WakeSenderFrame(r);
  }

  lemma PassesOn(q: Queue, t: Task, blocks: bool)
    requires NoLostWakeup(q) && Counts(q) && Lists(q) && t in q.calls && q.calls[t].call.Peek?
    requires t !in q.wokenTx && 0 < q.messages
    ensures NoLostWakeup(Attempt(q, t, blocks))
  {
    hide Lists, WakeReceiver, Counts;
    RunsLists(q, t);
    WakeReceiverLists(Runs(q, t));
    WakeReceiverFrame(Runs(q, t));
  }

  lemma AttemptInv(q: Queue, t: Task, blocks: bool)
    requires Inv(q) && Enabled(q, DoAttempt(t, blocks))
    ensures Inv(Attempt(q, t, blocks))
  {
    hide Lists, Locks, Counts, Recorded, NoLostWakeup, Attempt;
    AttemptLists(q, t, blocks);
    AttemptLocks(q, t, blocks);
    AttemptLosesNothing(q, t, blocks);
  }

  /** The locks after a task has changed phase. */
  lemma LocksPhase(q: Queue, r: Queue, t: Task, p: Progress)
    requires Locks(q) && r.calls == q.calls[t := p] && (q.holder == None || q.holder == Some(t))
    requires (Holds(p.phase) <==> r.holder == Some(t)) && (r.holder == None || r.holder == Some(t))
    requires UNLOCKED <= r.txLock && UNLOCKED <= r.rxLock
    requires r.txLock != UNLOCKED <==> HasTxLock(p.phase)
    requires r.rxLock != UNLOCKED <==> HasRxLock(p.phase)
    ensures Locks(r)
  {
  }

  lemma CountsPhase(q: Queue, r: Queue, t: Task, p: Progress)
    requires Counts(q) && r.calls == q.calls[t := p] && r.length == q.length && r.messages <= r.length
    requires p.call.Send? && p.call.overwrite ==> q.length == 1 && p.phase == Attempting
    ensures Counts(r)
  {
  }

  /** Only the task that holds the lock can be about to join an event list. */
  lemma NobodyBlocking(q: Queue, t: Task)
    requires Locks(q) && (q.holder == None || (q.holder == Some(t) && t in q.calls && q.calls[t].phase != Blocking))
    ensures Recorded(q)
  {
    hide HasTxLock, HasRxLock;
  }

  lemma OneBlocking(q: Queue, t: Task)
    requires Locks(q) && q.holder == Some(t) && t in q.calls
    requires if q.calls[t].call.Send? then q.length - q.messages <= q.rxLock else q.messages <= q.txLock
    ensures Recorded(q)
  {
    hide HasTxLock, HasRxLock;
  }

  lemma PhaseLocks(q: Queue, r: Queue, t: Task, phase: Phase)
    requires Locks(q) && t in q.calls && r == Goes(q, t, phase).(holder := r.holder)
    requires (q.holder == r.holder == Some(t) && Holds(q.calls[t].phase) && Holds(phase)
              && (HasTxLock(q.calls[t].phase) <==> HasTxLock(phase)) && (HasRxLock(q.calls[t].phase) <==> HasRxLock(phase)))
             || (q.holder == None && r.holder == Some(t) && phase == Entered)
             || (q.holder == Some(t) && r.holder == None && q.calls[t].phase.Released? && !Holds(phase))
    ensures Locks(r) && (phase.Blocking? ==> r.holder == Some(t) && q.rxLock != UNLOCKED && q.txLock != UNLOCKED)
    ensures UNLOCKED <= q.txLock && UNLOCKED <= q.rxLock
  {
    LocksPhase(q, r, t, Progress(q.calls[t].call, phase));
  }

  lemma BlockingRecorded(q: Queue, r: Queue, t: Task)
    requires Locks(r) && t in q.calls && r == Goes(q, t, Blocking).(holder := r.holder) && r.holder == Some(t)
    requires MustWait(q, q.calls[t].call) && 0 <= q.rxLock && 0 <= q.txLock
    ensures Recorded(r)
  {
    hide Locks;
    OneBlocking(r, t);
  }

  /** A change of one task's phase that leaves everything else alone. */
  lemma PhaseInv(q: Queue, r: Queue, t: Task, phase: Phase)
    requires Inv(q) && t in q.calls && r == Goes(q, t, phase).(holder := r.holder)
    requires Placed(q.calls[t].phase) ==> Placed(phase)
    requires !phase.Blocking? || MustWait(q, q.calls[t].call)
    requires phase != Attempting ==> q.calls[t].phase != Attempting
    requires (q.holder == r.holder == Some(t) && Holds(q.calls[t].phase) && Holds(phase)
              && (HasTxLock(q.calls[t].phase) <==> HasTxLock(phase)) && (HasRxLock(q.calls[t].phase) <==> HasRxLock(phase)))
             || (q.holder == None && r.holder == Some(t) && phase == Entered)
             || (q.holder == Some(t) && r.holder == None && q.calls[t].phase.Released? && !Holds(phase))
    ensures Inv(r)
  {
    hide Lists, Locks, Counts, Recorded, Holds, HasTxLock, HasRxLock;
    assert r.calls - {t} == q.calls - {t};
    ListsFrame(q, r, t);
    var p := Progress(q.calls[t].call, phase);
    PhaseLocks(q, r, t, phase);
    CountsPhase(q, r, t, p) by { CallCounts(q, t); }
    if phase.Blocking? {
      BlockingRecorded(q, r, t);
    } else {
      NobodyBlocking(r, t);
    }
  }

  /** A send the lock has recorded. */
  lemma RecordedSend(q: Queue, overwrite: bool)
    requires Locks(q) && Recorded(q) && NoLostWakeup(q) && q.messages <= q.length && q.txLock != UNLOCKED
    ensures var r := Filled(q, overwrite); var s := r.(txLock := r.txLock + 1); Recorded(s) && NoLostWakeup(s)
  {
    hide HasTxLock, HasRxLock, Holds;
  }

  lemma SendFromISRInv(q: Queue, overwrite: bool)
    requires Inv(q) && Enabled(q, DoSendFromISR(overwrite))
    ensures Inv(SendFromISR(q, overwrite))
  {
    hide Lists, WakeReceiver;
    if HasRoom(q, overwrite) {
      var r := Filled(q, overwrite);
      MessagesLists(q, r.messages);
      WakeReceiverFrame(r);
      if q.txLock == UNLOCKED {
        WakeReceiverLists(r);
        SendLosesNothing(q, overwrite);
      } else {
        LockLists(r, r.rxLock, r.txLock + 1);
        RecordedSend(q, overwrite);
        hide Recorded, NoLostWakeup;
      }
    }
  }

  lemma LockLists(q: Queue, rx: int, tx: int)
    requires Lists(q)
    ensures Lists(q.(rxLock := rx, txLock := tx))
  {
  }

  lemma ReceiveFromISRInv(q: Queue)
    requires Inv(q)
    ensures Inv(ReceiveFromISR(q))
  {
    hide Lists, WakeSender;
    if 0 < q.messages {
      var r := q.(messages := q.messages - 1);
      MessagesLists(q, r.messages);
      WakeSenderFrame(r);
      if q.rxLock == UNLOCKED {
        WakeSenderLists(r);
        ReceiveLosesNothing(q);
      } else {
        assert Lists(r.(rxLock := r.rxLock + 1)) by { LockLists(r, r.rxLock + 1, r.txLock); }
      }
    }
  }

  lemma PhaseLists(q: Queue, t: Task, phase: Phase)
    requires Lists(q) && t in q.calls
    requires Placed(q.calls[t].phase) ==> Placed(phase)
    ensures Lists(Goes(q, t, phase))
  {
    assert Goes(q, t, phase).calls - {t} == q.calls - {t};
    ListsFrame(q, Goes(q, t, phase), t);
  }

  lemma LockInv(q: Queue, t: Task)
    requires Inv(q) && Enabled(q, DoLock(t))
    ensures Inv(Next(q, DoLock(t)))
  {
    hide Lists;
    LockLists(q, Lock(q).rxLock, Lock(q).txLock);
    PhaseLists(Lock(q), t, Locked);
  }

  /** A task joins the event list only while the lock records what interrupts do. */
  lemma PlaceInv(q: Queue, t: Task)
    requires Inv(q) && Enabled(q, DoPlace(t))
    ensures Inv(Next(q, DoPlace(t)))
  {
    hide Lists, Inserted;
    PlaceLists(q, t);
  }

  lemma HolderPhase(q: Queue, t: Task)
    requires Locks(q) && t in q.calls
    ensures Holds(q.calls[t].phase) <==> q.holder == Some(t)
    ensures q.calls[t].phase.Deciding? || q.calls[t].phase.HalfUnlocked? || q.calls[t].phase.Released? ==> q.holder == Some(t)
  {
  }

  /** What the end of an unlocking leaves of the locks. */
  lemma UnlockedLocks(q: Queue, r: Queue, t: Task, phase: Phase)
    requires Locks(q) && Counts(q) && t in q.calls && q.holder == r.holder == Some(t)
    requires r.calls == q.calls[t := Progress(q.calls[t].call, phase)] && r.length == q.length && r.messages == q.messages
    requires (q.calls[t].phase.Deciding? && phase.HalfUnlocked? && r.txLock == UNLOCKED && r.rxLock == q.rxLock)
             || (q.calls[t].phase.HalfUnlocked? && phase.Released? && r.rxLock == UNLOCKED && r.txLock == q.txLock)
    ensures Locks(r) && Counts(r)
  {
    LocksPhase(q, r, t, Progress(q.calls[t].call, phase));
    CallCounts(q, t);
    CountsPhase(q, r, t, Progress(q.calls[t].call, phase));
  }

  /** Releasing the transmit lock wakes a receiver for every send it recorded. */
  lemma UnlockTxInv(q: Queue, t: Task)
    requires Inv(q) && Enabled(q, DoUnlockTx(t))
    ensures Inv(Next(q, DoUnlockTx(t)))
  {
    hide Lists, Locks, Counts, Recorded, WakeReceivers, Holds, HasTxLock, HasRxLock;
    HolderPhase(q, t);
    WakeReceiversLists(q, Count(q.txLock));
    var w := WakeReceivers(q, Count(q.txLock));
    LockLists(w, q.rxLock, UNLOCKED);
    var phase := HalfUnlocked(q.calls[t].phase.outcome);
    PhaseLists(UnlockTx(q), t, phase);
    UnlockedLocks(q, Goes(UnlockTx(q), t, phase), t, phase);
    NobodyBlocking(Goes(UnlockTx(q), t, phase), t);
  }

  lemma UnlockRxInv(q: Queue, t: Task)
    requires Inv(q) && Enabled(q, DoUnlockRx(t))
    ensures Inv(Next(q, DoUnlockRx(t)))
  {
    hide Lists, Locks, Counts, Recorded, WakeSenders, Holds, HasTxLock, HasRxLock;
    HolderPhase(q, t);
    WakeSendersLists(q, Count(q.rxLock));
    var w := WakeSenders(q, Count(q.rxLock));
    LockLists(w, UNLOCKED, q.txLock);
    var phase := Released(q.calls[t].phase.outcome);
    PhaseLists(UnlockRx(q), t, phase);
    UnlockedLocks(q, Goes(UnlockRx(q), t, phase), t, phase);
    NobodyBlocking(Goes(UnlockRx(q), t, phase), t);
  }

  lemma TimeoutInv(q: Queue, t: Task)
    requires Inv(q)
    ensures Inv(q.(waitRx := Removed(q.waitRx, t), waitTx := Removed(q.waitTx, t)))
  {
    hide Lists, Removed;
    TimeoutLists(q, t);
  }

  lemma CallBounds(q: Queue)
    requires Counts(q)
    ensures q.messages <= q.length
  {
  }

  lemma CallInv(q: Queue, t: Task, call: Call)
    requires Inv(q) && Enabled(q, DoCall(t, call))
    ensures Inv(Set(q, t, Progress(call, Attempting)))
  {
    hide Lists, Locks, Counts;
    var p := Progress(call, Attempting);
    var r := Set(q, t, p);
    assert r.calls - {t} == q.calls - {t};
    ListsFrame(q, r, t);
    IdleLocks(q, r, t);
    CountsPhase(q, r, t, p) by { CallBounds(q); }
  }

  /** The call has given up. */
  lemma FailInv(q: Queue, t: Task)
    requires Inv(q) && t in q.calls && q.calls[t].phase == Released(WillFail)
    ensures Inv(Finish(q, t).(holder := None))
  {
    hide Lists;
    var r := Finish(q, t).(holder := None);
    assert r.calls - {t} == q.calls - {t};
    ListsFrame(q, r, t);
    FinishedLocks(q, r, t);
    hide Locks, Recorded;
  }

  lemma FinishedLocks(q: Queue, r: Queue, t: Task)
    requires Locks(q) && q.holder == Some(t) && t in q.calls && q.calls[t].phase.Released?
    requires r.calls == q.calls - {t} && r.holder == None && r.txLock == q.txLock && r.rxLock == q.rxLock
    ensures Locks(r) && Recorded(r)
  {
    hide HasTxLock, HasRxLock;
    NotLocking(q.calls[t].phase);
  }

  lemma NotLocking(p: Phase)
    requires p.Released?
    ensures !HasTxLock(p) && !HasRxLock(p)
  {
  }

  lemma ResumeInv(q: Queue, t: Task)
    requires Inv(q) && Enabled(q, DoResumeAll(t))
    ensures Inv(Next(q, DoResumeAll(t)))
  {
    match q.calls[t].phase.outcome
    case WillWait => PhaseInv(q, Next(q, DoResumeAll(t)), t, Waiting) by { HolderPhase(q, t); }
    case WillRetry => PhaseInv(q, Next(q, DoResumeAll(t)), t, Attempting) by { HolderPhase(q, t); }
    case WillFail => FailInv(q, t);
  }

  lemma HoldsLock(q: Queue, t: Task)
    requires Inv(q) && t in q.calls && Holds(q.calls[t].phase)
    ensures q.holder == Some(t)
  {
    HolderPhase(q, t);
    hide Lists, Locks;
  }

  lemma {:induction false} StepInv(q: Queue, step: Step)
    requires Inv(q) && Enabled(q, step)
    ensures Inv(Next(q, step))
  {
    hide Inv, Attempt, SendFromISR, ReceiveFromISR, Removed, UnlockTx, UnlockRx, Place, Lock;
    match step
    case DoCall(t, call) => CallInv(q, t, call);
    case DoAttempt(t, blocks) => AttemptInv(q, t, blocks);
    case DoSuspendAll(t) => PhaseInv(q, Next(q, step), t, Entered);
    case DoLock(t) => LockInv(q, t);
    case DoCheckTimeOut(t, expired) => HoldsLock(q, t); PhaseInv(q, Next(q, step), t, if expired then Deciding(WillFail) else InTime);
    case DoCheckQueue(t) =>
      HoldsLock(q, t);
      PhaseInv(q, Next(q, step), t, if MustWait(q, q.calls[t].call) then Blocking else Deciding(WillRetry));
    case DoPlace(t) => PlaceInv(q, t);
    case DoUnlockTx(t) => UnlockTxInv(q, t);
    case DoUnlockRx(t) => UnlockRxInv(q, t);
    case DoResumeAll(t) => ResumeInv(q, t);
    case DoTimeout(t) => TimeoutInv(q, t);
    case DoSendFromISR(overwrite) => SendFromISRInv(q, overwrite);
    case DoReceiveFromISR => ReceiveFromISRInv(q);
  }

  // ----- runs

  function Fresh(length: nat, value: map<Task, nat>): Queue {
    Queue(length, 0, UNLOCKED, UNLOCKED, [], [], {}, {}, value, map[], None)
  }

  datatype Run = Start(length: nat, value: map<Task, nat>) | Then(before: Run, step: Step)

  predicate Legal(run: Run)
    decreases run, 0
  {
    match run
    case Start(length, _) => 0 < length
    case Then(before, step) => Legal(before) && Enabled(After(before), step)
  }

  function After(run: Run): Queue
    requires Legal(run)
    decreases run, 1
  {
    match run
    case Start(length, value) => Fresh(length, value)
    case Then(before, step) => Next(After(before), step)
  }

  lemma {:induction false} RunInv(run: Run)
    requires Legal(run)
    ensures Inv(After(run))
  {
    match run
    case Start(_, _) =>
    case Then(before, step) =>
      hide Inv, Enabled, Next;
      RunInv(before);
      StepInv(After(before), step);
  }

  /** No lost wake-up, in every interleaving of sends, receives, peeks, interrupts, timeouts, locks
      and unlocks. In particular, once the lock is off and every woken task has run, a receiver
      waits only on an empty queue and a sender only on a full one. */
  lemma {:induction false} NoWakeupIsLost(run: Run)
    requires Legal(run)
    ensures var q := After(run);
            && (q.waitRx != [] ==> q.messages <= |q.wokenRx| + Count(q.txLock))
            && (q.waitTx != [] ==> q.length - q.messages <= |q.wokenTx| + Count(q.rxLock))
            && (q.holder == None && q.wokenRx == {} && q.waitRx != [] ==> q.messages == 0)
            && (q.holder == None && q.wokenTx == {} && q.waitTx != [] ==> q.messages == q.length)
  {
    RunInv(run);
    hide Lists, Legal, After;
  }

  // ----- who is woken first

  /** The event lists are in the order of their items' values, lowest value (highest priority) first. */
  ghost predicate Ordered(q: Queue) {
    Sorted(Values(q, q.waitRx)) && Sorted(Values(q, q.waitTx))
  }

  lemma InsertedOrdered(q: Queue, list: seq<Task>, t: Task)
    requires Sorted(Values(q, list))
    ensures Sorted(Values(q, Inserted(q, list, t)))
  {
    var values := Values(q, list);
    InsertKeepsSorted(values, Value(q, t));
    assert Values(q, Inserted(q, list, t)) == InsertAt(values, FirstGreater(values, Value(q, t)), Value(q, t));
  }

  lemma RemovedOrdered(q: Queue, list: seq<Task>, t: Task)
    requires Sorted(Values(q, list))
    ensures Sorted(Values(q, Removed(list, t)))
  {
    if t in list {
      var k := IndexOf(list, t);
      RemoveKeepsSorted(Values(q, list), k);
      assert Values(q, RemoveAt(list, k)) == RemoveAt(Values(q, list), k);
    }
  }

  lemma TailOrdered(q: Queue, list: seq<Task>)
    requires Sorted(Values(q, list)) && list != []
    ensures Sorted(Values(q, list[1..])) && forall t :: t in list ==> Value(q, list[0]) <= Value(q, t)
  {
    assert Values(q, list[1..]) == Values(q, list)[1..];
    forall t | t in list ensures Value(q, list[0]) <= Value(q, t) {
      var i :| 0 <= i < |list| && list[i] == t;
      assert Values(q, list)[0] <= Values(q, list)[i];
    }
  }

  lemma WakeOrdered(q: Queue)
    requires Ordered(q)
    ensures Ordered(WakeReceiver(q)) && Ordered(WakeSender(q))
    ensures WakeReceiver(q).value == q.value && WakeSender(q).value == q.value
  {
    if q.waitRx != [] {
      TailOrdered(q, q.waitRx);
      SameValues(q, WakeReceiver(q), q.waitRx[1..]);
    }
    if q.waitTx != [] {
      TailOrdered(q, q.waitTx);
      SameValues(q, WakeSender(q), q.waitTx[1..]);
    }
    SameValues(q, WakeReceiver(q), q.waitTx);
    SameValues(q, WakeSender(q), q.waitRx);
  }

  lemma SameValues(q: Queue, r: Queue, list: seq<Task>)
    requires r.value == q.value
    ensures Values(r, list) == Values(q, list)
  {
  }

  lemma {:induction false} WakeAllOrdered(q: Queue, n: nat)
    requires Ordered(q)
    ensures Ordered(WakeReceivers(q, n)) && Ordered(WakeSenders(q, n))
    decreases n
  {
    hide Ordered, WakeReceiver, WakeSender;
    if n != 0 {
      WakeOrdered(q);
      WakeAllOrdered(WakeReceiver(q), n - 1);
      WakeAllOrdered(WakeSender(q), n - 1);
    }
  }

  lemma SameOrder(q: Queue, r: Queue)
    requires Ordered(q) && r.value == q.value && r.waitRx == q.waitRx && r.waitTx == q.waitTx
    ensures Ordered(r)
  {
    SameValues(q, r, q.waitRx);
    SameValues(q, r, q.waitTx);
  }

  lemma NextIs(q: Queue, step: Step)
    requires Enabled(q, step)
    ensures step.DoAttempt? ==> Next(q, step) == Attempt(q, step.t, step.blocks)
    ensures step.DoTimeout? ==> Next(q, step) == q.(waitRx := Removed(q.waitRx, step.t), waitTx := Removed(q.waitTx, step.t))
    ensures step.DoSendFromISR? ==> Next(q, step) == SendFromISR(q, step.overwrite)
    ensures step.DoReceiveFromISR? ==> Next(q, step) == ReceiveFromISR(q)
  {
    hide Attempt, Removed, SendFromISR, ReceiveFromISR;
  }

  lemma AttemptOrdered(q: Queue, t: Task, blocks: bool)
    requires Ordered(q) && t in q.calls
    ensures Ordered(Attempt(q, t, blocks))
  {
    hide Ordered, WakeReceiver, WakeSender;
    var call := q.calls[t].call;
    var r := Runs(q, t);
    SameOrder(q, r);
    var m := if call.Send? then Filled(r, call.overwrite) else if call.Receive? && 0 < r.messages then r.(messages := r.messages - 1) else r;
    SameOrder(r, m);
    WakeOrdered(m);
    var w := if call.Receive? then WakeSender(m) else WakeReceiver(m);
    SameOrder(w, Finish(w, t));
    SameOrder(r, Set(r, t, Progress(call, Entering)));
    SameOrder(r, Finish(r, t));
  }

  lemma InterruptOrdered(q: Queue, overwrite: bool)
    requires Ordered(q)
    ensures Ordered(SendFromISR(q, overwrite)) && Ordered(ReceiveFromISR(q))
  {
    hide Ordered, WakeReceiver, WakeSender;
    var r := Filled(q, overwrite);
    SameOrder(q, r);
    WakeOrdered(r);
    SameOrder(r, r.(txLock := r.txLock + 1));
    if 0 < q.messages {
      var s := q.(messages := q.messages - 1);
      SameOrder(q, s);
      WakeOrdered(s);
      SameOrder(s, s.(rxLock := s.rxLock + 1));
    }
  }

  lemma UnlockOrdered(q: Queue, step: Step)
    requires Ordered(q) && Enabled(q, step) && (step.DoUnlockTx? || step.DoUnlockRx?)
    ensures Ordered(Next(q, step))
  {
    hide Ordered, WakeReceivers, WakeSenders;
    if step.DoUnlockTx? {
      WakeAllOrdered(q, Count(q.txLock));
      SameOrder(WakeReceivers(q, Count(q.txLock)), Next(q, step));
    } else {
      WakeAllOrdered(q, Count(q.rxLock));
      SameOrder(WakeSenders(q, Count(q.rxLock)), Next(q, step));
    }
  }

  lemma QuietOrdered(q: Queue, step: Step)
    requires Ordered(q) && Enabled(q, step)
    requires step.DoCall? || step.DoSuspendAll? || step.DoLock? || step.DoCheckTimeOut? || step.DoCheckQueue? || step.DoResumeAll?
    ensures Ordered(Next(q, step))
  {
    hide Ordered;
    SameOrder(q, Next(q, step));
  }

  lemma PlaceOrdered(q: Queue, t: Task)
    requires Ordered(q) && Enabled(q, DoPlace(t))
    ensures Ordered(Next(q, DoPlace(t)))
  {
    InsertedOrdered(q, q.waitRx, t);
    InsertedOrdered(q, q.waitTx, t);
    var r := Next(q, DoPlace(t));
    hide Inserted, Values;
    SameValues(q, r, r.waitRx);
    SameValues(q, r, r.waitTx);
  }

  lemma TimeoutOrdered(q: Queue, t: Task)
    requires Ordered(q)
    ensures Ordered(q.(waitRx := Removed(q.waitRx, t), waitTx := Removed(q.waitTx, t)))
  {
    RemovedOrdered(q, q.waitRx, t);
    RemovedOrdered(q, q.waitTx, t);
    var r := q.(waitRx := Removed(q.waitRx, t), waitTx := Removed(q.waitTx, t));
    hide Removed, Values;
    SameValues(q, r, r.waitRx);
    SameValues(q, r, r.waitTx);
  }

  lemma StepOrdered(q: Queue, step: Step)
    requires Ordered(q) && Enabled(q, step)
    ensures Ordered(Next(q, step))
  {
    hide Ordered, Next, Attempt, SendFromISR, ReceiveFromISR, UnlockTx, UnlockRx;
    match step
    case DoAttempt(t, blocks) => AttemptOrdered(q, t, blocks); NextIs(q, step);
    case DoPlace(t) => PlaceOrdered(q, t);
    case DoUnlockTx(t) => UnlockOrdered(q, step);
    case DoUnlockRx(t) => UnlockOrdered(q, step);
    case DoTimeout(t) => TimeoutOrdered(q, t); NextIs(q, step);
    case DoSendFromISR(overwrite) => InterruptOrdered(q, overwrite); NextIs(q, step);
    case DoReceiveFromISR => InterruptOrdered(q, false); NextIs(q, step);
    case _ => QuietOrdered(q, step);
  }

  /** Whoever is woken, in any interleaving, has the highest priority of those waiting (priorities
      not changing meanwhile). */
  lemma {:induction false} MostUrgentFirst(run: Run)
    requires Legal(run)
    ensures var q := After(run);
            && Ordered(q)
            && (q.waitRx != [] ==> forall t :: t in q.waitRx ==> Value(q, q.waitRx[0]) <= Value(q, t))
            && (q.waitTx != [] ==> forall t :: t in q.waitTx ==> Value(q, q.waitTx[0]) <= Value(q, t))
  {
    match run
    case Start(_, _) =>
    case Then(before, step) =>
      MostUrgentFirst(before);
      StepOrdered(After(before), step);
      var q := After(run);
      hide Enabled, Next, Sorted;
      if q.waitRx != [] {
        TailOrdered(q, q.waitRx);
      }
      if q.waitTx != [] {
        TailOrdered(q, q.waitTx);
      }
  }

  // ----- the queue's critical sections in place

  class QueueState {
    const length: nat
    var messages: nat
    var rxLock: int
    var txLock: int
    var waitRx: seq<Task>
    var waitTx: seq<Task>
    ghost var wokenRx: set<Task>
    ghost var wokenTx: set<Task>
    ghost var value: map<Task, nat>
    ghost var calls: map<Task, Progress>
    ghost var holder: Option<Task>

    ghost function State(): Queue
      reads this
    {
      Queue(length, messages, rxLock, txLock, waitRx, waitTx, wokenRx, wokenTx, value, calls, holder)
    }

    /** `xTaskRemoveFromEventList` on a list that is not empty. */
    method RemoveReceiver()
      requires waitRx != []
      modifies `waitRx, `wokenRx
      ensures State() == WakeReceiver(old(State()))
    {
      wokenRx := wokenRx + {waitRx[0]};
      waitRx := waitRx[1..];
    }

    method RemoveSender()
      requires waitTx != []
      modifies `waitTx, `wokenTx
      ensures State() == WakeSender(old(State()))
    {
      wokenTx := wokenTx + {waitTx[0]};
      waitTx := waitTx[1..];
    }

    /** `prvLockQueue` */
    method LockQueue()
      modifies `rxLock, `txLock
      ensures State() == Lock(old(State()))
    {
      if rxLock == UNLOCKED {
        rxLock := 0;
      }
      if txLock == UNLOCKED {
        txLock := 0;
      }
    }

    /** `prvUnlockQueue` for a queue that is in no set: two critical sections, each with a loop that
        stops when nobody is left to wake. */
    method UnlockQueue()
      modifies `rxLock, `txLock, `waitRx, `waitTx, `wokenRx, `wokenTx
      ensures State() == UnlockRx(UnlockTx(old(State())))
    {
      UnlockTransmit();
      UnlockReceive();
    }

    method UnlockTransmit()
      modifies `txLock, `waitRx, `wokenRx
      ensures State() == UnlockTx(old(State()))
    {
      ghost var q, s := State(), State();
      while txLock > 0
        invariant s == q.(waitRx := waitRx, wokenRx := wokenRx)
        invariant WakeReceivers(q, Count(q.txLock)) == WakeReceivers(s, Count(txLock))
      {
        if waitRx != [] {
          RemoveReceiver();
          s := WakeReceiver(s);
        } else {
          break;
        }
        txLock := txLock - 1;
      }
      txLock := UNLOCKED;
    }

    method UnlockReceive()
      modifies `rxLock, `waitTx, `wokenTx
      ensures State() == UnlockRx(old(State()))
    {
      ghost var q, s := State(), State();
      while rxLock > 0
        invariant s == q.(waitTx := waitTx, wokenTx := wokenTx)
        invariant WakeSenders(q, Count(q.rxLock)) == WakeSenders(s, Count(rxLock))
      {
        if waitTx != [] {
          RemoveSender();
          s := WakeSender(s);
          rxLock := rxLock - 1;
        } else {
          break;
        }
      }
      rxLock := UNLOCKED;
    }

    /** The effect of a send by a task, in its critical section, on the count and the event lists. */
    method SendByTask(overwrite: bool) returns (sent: bool)
      modifies `messages, `waitRx, `wokenRx
      ensures sent == (old(messages) < length || overwrite)
      ensures messages == old(messages) + if sent && !(overwrite && 0 < old(messages)) then 1 else 0
      ensures State() == if sent then WakeReceiver(Filled(old(State()), overwrite)) else old(State())
    {
      if messages < length || overwrite {
        if !(overwrite && messages > 0) {
          messages := messages + 1;
        }
        if waitRx != [] {
          RemoveReceiver();
        }
        sent := true;
      } else {
        sent := false;
      }
    }

    /** The effect of a receive or a peek by a task, in its critical section. */
    method ReceiveByTask(peek: bool) returns (received: bool)
      modifies `messages, `waitRx, `wokenRx, `waitTx, `wokenTx
      ensures received == (0 < old(messages))
      ensures messages == old(messages) - if received && !peek then 1 else 0
      ensures var q := old(State());
              State() == if !received then q else if peek then WakeReceiver(q) else WakeSender(q.(messages := q.messages - 1))
    {
      if messages > 0 {
        if !peek {
          messages := messages - 1;
          if waitTx != [] {
            RemoveSender();
          }
        } else {
          if waitRx != [] {
            RemoveReceiver();
          }
        }
        received := true;
      } else {
        received := false;
      }
    }

    /** The effect of `xQueueGenericSendFromISR` on the count and the event lists. */
    method SendInISR(overwrite: bool) returns (sent: bool)
      modifies `messages, `txLock, `waitRx, `wokenRx
      ensures State() == SendFromISR(old(State()), overwrite) && sent == (old(messages) < length || overwrite)
      ensures messages == old(messages) + if sent && !(overwrite && 0 < old(messages)) then 1 else 0
      ensures old(txLock) != UNLOCKED ==> waitRx == old(waitRx) && txLock == old(txLock) + if sent then 1 else 0
    {
      if messages < length || overwrite {
        if !(overwrite && messages > 0) {
          messages := messages + 1;
        }
        if txLock == UNLOCKED {
          if waitRx != [] {
            RemoveReceiver();
          }
        } else {
          txLock := txLock + 1;
        }
        sent := true;
      } else {
        sent := false;
      }
    }

    /** The effect of `xQueueReceiveFromISR`. */
    method ReceiveInISR() returns (received: bool)
      modifies `messages, `rxLock, `waitTx, `wokenTx
      ensures State() == ReceiveFromISR(old(State())) && received == (0 < old(messages))
      ensures messages == old(messages) - if received then 1 else 0
      ensures old(rxLock) != UNLOCKED ==> waitTx == old(waitTx) && rxLock == old(rxLock) + if received then 1 else 0
    {
      if messages > 0 {
        messages := messages - 1;
        if rxLock == UNLOCKED {
          if waitTx != [] {
            RemoveSender();
          }
        } else {
          rxLock := rxLock + 1;
        }
        received := true;
      } else {
        received := false;
      }
    }
  }
}
