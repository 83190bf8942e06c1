/** tasks.c: the state of the scheduler and what each critical section, interrupt service routine
    or tick does to it, as functions on values. Class `Scheduler` carries the same operations
    out in place. */
module Kernels {
  import opened ListValues
  import opened ItemLists

  const WORD: nat := 0x1_0000_0000
  const MAX_DELAY: nat := 0xFFFF_FFFF
  const PRIORITIES: nat := 10
  /** Marks an event item value that is not a priority (`taskEVENT_LIST_ITEM_VALUE_IN_USE`). */
  const VALUE_IN_USE: nat := 0x8000_0000

  datatype Kernel = Kernel(
    ls: Lists,
    priority: map<Task, nat>,
    basePriority: map<Task, nat>,
    current: Task,
    idle: Task,
    started: bool,
    suspendDepth: nat,
    delayed: ListId,
    overflow: ListId,
    tick: nat,
    overflows: nat,
    unblockTime: nat,
    pendedTicks: nat,
    /** History: the tick interrupts taken so far. */
    interrupts: nat,
    /** `uxTopReadyPriority` as the port-optimised selection uses it: a bitmap. */
    readyBits: set<nat>,
    /** `uxTopReadyPriority` as the generic selection uses it: an upper bound. */
    topReady: nat,
    taskCount: nat,
    deletedCount: nat,
    yieldPending: bool,
    /** A context switch has been requested: a yield, or pdTRUE returned to an interrupt. */
    switchRequested: bool,
    /** The tasks that have created a task and have not yet compared priorities with it, and the
        `uxPriority` they passed. */
    creating: map<Task, nat>)

  function Priority(s: Kernel, t: Task): nat {
    if t in s.priority then s.priority[t] else 0
  }

  /** The list holding a task's state item. */
  predicate StateIn(s: Kernel, t: Task, p: ListId) {
    In(s.ls, StateItem(t), p)
  }

  predicate IsReady(s: Kernel, t: Task) {
    StateItem(t) in s.ls.container && s.ls.container[StateItem(t)].Ready?
  }

  /** Unbounded time: the number of ticks processed. */
  function Now(s: Kernel): nat {
    s.overflows * WORD + s.tick
  }

  // ----- moving the items of one task

  /** `uxListRemove` on the state item, with `taskRESET_READY_PRIORITY`: the bit of a ready list
      that becomes empty is cleared. */
  function Detach(s: Kernel, t: Task): Kernel {
    var ls := Without(s.ls, StateItem(t));
    var bits := if IsReady(s, t) && Items(ls, s.ls.container[StateItem(t)]) == [] then
                  s.readyBits - {s.ls.container[StateItem(t)].priority}
                else
                  s.readyBits;
    s.(ls := ls, readyBits := bits)
  }

  /** `prvAddTaskToReadyList` */
  function AttachReady(s: Kernel, t: Task): Kernel {
    var p := Priority(s, t);
    s.(ls := AddLast(s.ls, Ready(p), StateItem(t)),
       readyBits := s.readyBits + {p},
       topReady := if s.topReady < p then p else s.topReady)
  }

  function AttachTo(s: Kernel, t: Task, p: ListId): Kernel {
    s.(ls := AddLast(s.ls, p, StateItem(t)))
  }

  /** `prvAddCurrentTaskToDelayedList` */
  function AttachDelayed(s: Kernel, t: Task, wake: nat): Kernel {
    var ls := SetValue(s.ls, StateItem(t), wake);
    if wake < s.tick then
      s.(ls := AddSorted(ls, s.overflow, StateItem(t)))
    else
      s.(ls := AddSorted(ls, s.delayed, StateItem(t)),
         unblockTime := if wake < s.unblockTime then wake else s.unblockTime)
  }

  function DetachEvent(s: Kernel, t: Task): Kernel {
    s.(ls := Without(s.ls, EventItem(t)))
  }

  /** Detach from wherever the task is, then make it ready. */
  function MakeReady(s: Kernel, t: Task): Kernel {
    AttachReady(Detach(DetachEvent(s, t), t), t)
  }

  /** `prvResetNextTaskUnblockTime` */
  function ResetUnblockTime(s: Kernel): Kernel {
    s.(unblockTime := if Items(s.ls, s.delayed) == [] then MAX_DELAY else Key(s.ls.value, Items(s.ls, s.delayed)[0]))
  }

  function Yield(s: Kernel): Kernel {
    s.(switchRequested := true)
  }

  function YieldIf(s: Kernel, required: bool): Kernel {
    if required then Yield(s) else s
  }

  function PendIf(s: Kernel, required: bool): Kernel {
    if required then s.(yieldPending := true) else s
  }

  // ----- creation, deletion, suspension, priorities

  function EmptyLists(): Lists {
    Lists(
      (map p: nat | p < PRIORITIES :: Ready(p) := Empty())
        + map[DelayedA := Empty(), DelayedB := Empty(), Suspended := Empty(), Terminated := Empty(), PendingReady := Empty()],
      map[], map[])
  }

  function Clamp(p: nat): nat {
    if p >= PRIORITIES then PRIORITIES - 1 else p
  }

  /** `xTaskGenericCreate` for the first task, which initialises the lists. */
  function Boot(t: Task, p: nat): Kernel {
    AttachReady(
      Kernel(SetValue(EmptyLists(), EventItem(t), PRIORITIES - Clamp(p)), map[t := Clamp(p)], map[t := Clamp(p)],
             t, t, false, 0, DelayedA, DelayedB, 0, 0, MAX_DELAY, 0, 0, {}, 0, 1, 0, false, false, map[]),
      t)
  }

  /** The critical section of `xTaskGenericCreate`. */
  function Create(s: Kernel, t: Task, p: nat): Kernel {
    var s1 := s.(taskCount := s.taskCount + 1,
                 priority := s.priority[t := Clamp(p)],
                 basePriority := s.basePriority[t := Clamp(p)],
                 ls := SetValue(s.ls, EventItem(t), PRIORITIES - Clamp(p)),
                 current := if !s.started && Priority(s, s.current) <= p then t else s.current,
                 creating := if s.started then s.creating[s.current := p] else s.creating);
    AttachReady(s1, t)
  }

  /** What comes after it: the running creator yields to a new task of higher priority. */
  function EndCreate(s: Kernel): Kernel {
    if s.current in s.creating then
      YieldIf(s.(creating := s.creating - {s.current}), Priority(s, s.current) < s.creating[s.current])
    else
      s
  }

  /** `vTaskStartScheduler`: creates the idle task and zeroes the tick count. */
  function Start(s: Kernel, idle: Task): Kernel {
    Create(s, idle, 0).(idle := idle, started := true, tick := 0)
  }

  /** The first critical section of `vTaskDelete`. */
  function Delete(s: Kernel, t: Task): Kernel {
    var s1 := AttachTo(DetachEvent(Detach(s, t), t), t, Terminated);
    s1.(deletedCount := s1.deletedCount + 1)
  }

  /** How `vTaskDelete` and `vTaskSuspend` end: a yield, or a critical section of their own. */
  function EndRemoval(s: Kernel, t: Task): Kernel {
    if t == s.current then Yield(s) else ResetUnblockTime(s)
  }

  /** One pass of `prvCheckTasksWaitingTermination`: the idle task frees a deleted task. */
  function Reap(s: Kernel): Kernel {
    if Items(s.ls, Terminated) == [] || s.taskCount == 0 || s.deletedCount == 0 then s
    else
      var t := Items(s.ls, Terminated)[0].task;
      Detach(s, t).(taskCount := s.taskCount - 1, deletedCount := s.deletedCount - 1,
                    priority := s.priority - {t}, basePriority := s.basePriority - {t},
                    creating := s.creating - {t})
  }

  /** The first critical section of `vTaskSuspend`. */
  function Suspend(s: Kernel, t: Task): Kernel {
    AttachTo(DetachEvent(Detach(s, t), t), t, Suspended)
  }

  /** `prvTaskIsTaskSuspended` */
  predicate IsSuspended(s: Kernel, t: Task) {
    StateIn(s, t, Suspended) && EventItem(t) !in s.ls.container
  }

  /** `vTaskResume` */
  function Resume(s: Kernel, t: Task): Kernel {
    if t != s.current && IsSuspended(s, t) then
      YieldIf(AttachReady(Detach(s, t), t), Priority(s, t) >= Priority(s, s.current))
    else
      s
  }

  /** `xTaskResumeFromISR` */
  function ResumeFromISR(s: Kernel, t: Task): Kernel {
    if IsSuspended(s, t) then
      if s.suspendDepth == 0 then
        YieldIf(AttachReady(Detach(s, t), t), Priority(s, t) >= Priority(s, s.current))
      else
        s.(ls := AddLast(s.ls, PendingReady, EventItem(t)))
    else
      s
  }

  /** The event item value follows the priority unless it is in use for something else. */
  function FollowPriority(s: Kernel, t: Task, p: nat): Kernel {
    if Key(s.ls.value, EventItem(t)) < VALUE_IN_USE && p <= PRIORITIES then
      s.(ls := SetValue(s.ls, EventItem(t), PRIORITIES - p))
    else
      s
  }

  /** Moves a ready task whose priority has changed from its old list to its new one. */
  function Requeue(s: Kernel, t: Task, was: nat): Kernel {
    if StateIn(s, t, Ready(was)) then AttachReady(Detach(s, t), t) else s
  }

  /** `vTaskPrioritySet` */
  function SetPriority(s: Kernel, t: Task, p: nat): Kernel {
    var base := if t in s.basePriority then s.basePriority[t] else 0;
    var used := Priority(s, t);
    var new_ := Clamp(p);
    if base == new_ then s
    else
      var yield_ := if new_ > base then t != s.current && new_ >= Priority(s, s.current) else t == s.current;
      var s1 := s.(priority := if base == used then s.priority[t := new_] else s.priority,
                   basePriority := s.basePriority[t := new_]);
      YieldIf(Requeue(FollowPriority(s1, t, new_), t, used), yield_)
  }

  /** `vTaskPriorityInherit`: the running task blocks on a mutex held by `t`. */
  function Inherit(s: Kernel, t: Task): Kernel {
    var p := Priority(s, s.current);
    if Priority(s, t) < p then
      Requeue(FollowPriority(s, t, p).(priority := s.priority[t := p]), t, Priority(s, t))
    else
      s
  }

  /** `vTaskPriorityDisinherit`: the running task gives a mutex back. */
  function Disinherit(s: Kernel): Kernel {
    var t := s.current;
    var base := if t in s.basePriority then s.basePriority[t] else 0;
    if Priority(s, t) != base then
      AttachReady(FollowPriority(Detach(s, t).(priority := s.priority[t := base]), t, base), t)
    else
      s
  }

  // ----- blocking and waking

  /** The body of `vTaskDelay` and `vTaskDelayUntil`, run with the scheduler suspended. */
  function DelayFor(s: Kernel, ticks: nat): Kernel {
    AttachDelayed(Detach(s, s.current), s.current, (s.tick + ticks) % WORD)
  }

  /** What both blocking calls do to the state item: `portMAX_DELAY` blocks with no deadline. */
  function Block(s: Kernel, ticks: nat): Kernel {
    if ticks == MAX_DELAY then
      AttachTo(Detach(s, s.current), s.current, Suspended)
    else
      AttachDelayed(Detach(s, s.current), s.current, (s.tick + ticks) % WORD)
  }

  /** `vTaskPlaceOnEventList` */
  function PlaceOnEvent(s: Kernel, e: nat, ticks: nat): Kernel {
    Block(s.(ls := AddSorted(s.ls, Event(e), EventItem(s.current))), ticks)
  }

  /** `vTaskPlaceOnUnorderedEventList` */
  function PlaceOnUnordered(s: Kernel, e: nat, v: nat, ticks: nat): Kernel {
    var ls := SetValue(s.ls, EventItem(s.current), v + VALUE_IN_USE);
    Block(s.(ls := AddLast(ls, Event(e), EventItem(s.current))), ticks)
  }

  /** `xTaskRemoveFromEventList`: the head waiter is woken, or, while the scheduler is suspended,
      held in the pending-ready list. */
  function RemoveFromEvent(s: Kernel, e: nat): Kernel {
    if Items(s.ls, Event(e)) == [] then s
    else
      var t := Items(s.ls, Event(e))[0].task;
      var s1 := if s.suspendDepth == 0 then
                  MakeReady(s, t)
                else
                  s.(ls := AddLast(Without(s.ls, EventItem(t)), PendingReady, EventItem(t)));
      PendIf(s1, Priority(s, t) > Priority(s, s.current))
  }

  /** `xTaskRemoveFromUnorderedEventList` */
  function RemoveFromUnordered(s: Kernel, t: Task, v: nat): Kernel {
    PendIf(MakeReady(s.(ls := SetValue(s.ls, EventItem(t), v + VALUE_IN_USE)), t),
           Priority(s, t) > Priority(s, s.current))
  }

  /** `uxTaskResetEventItemValue` */
  function ResetEventValue(s: Kernel): Kernel {
    s.(ls := SetValue(s.ls, EventItem(s.current), if Priority(s, s.current) <= PRIORITIES then PRIORITIES - Priority(s, s.current) else 0))
  }

  // ----- ticks and the suspended scheduler

  /** `taskSWITCH_DELAYED_LISTS` */
  function SwitchLists(s: Kernel): Kernel {
    ResetUnblockTime(s.(delayed := s.overflow, overflow := s.delayed, overflows := s.overflows + 1))
  }

  /** How many tasks the scan of `xTaskIncrementTick` wakes: those at the head of the delayed list
      whose time has come. */
  function ExpiredCount(keys: seq<nat>, tick: nat): (n: nat)
    ensures n <= |keys|
    ensures forall i :: 0 <= i < n ==> keys[i] <= tick
    ensures n < |keys| ==> tick < keys[n]
  {
    if keys == [] || tick < keys[0] then 0 else 1 + ExpiredCount(keys[1..], tick)
  }

  /** Wakes the first `n` tasks of the delayed list, in order. */
  function Wake(s: Kernel, n: nat): Kernel
    decreases n
  {
    if n == 0 || Items(s.ls, s.delayed) == [] then s
    else Wake(MakeReady(s, Items(s.ls, s.delayed)[0].task), n - 1)
  }

  /** The scan of the delayed list in `xTaskIncrementTick`. */
  function Expire(s: Kernel): Kernel {
    ResetUnblockTime(Wake(s, ExpiredCount(Keys(s.ls.value, Items(s.ls, s.delayed)), s.tick)))
  }

  /** Whether one of the first `n` delayed tasks has at least the running task's priority. */
  predicate WakesRival(s: Kernel, n: nat) {
    exists i :: 0 <= i < n && i < |Items(s.ls, s.delayed)|
                && Priority(s, Items(s.ls, s.delayed)[i].task) >= Priority(s, s.current)
  }

  /** The tick count advanced, and the lists switched when it wraps to zero. */
  function Advanced(s: Kernel): Kernel {
    var s1 := s.(tick := (s.tick + 1) % WORD);
    if s1.tick == 0 then SwitchLists(s1) else s1
  }

  function ProcessTick(s: Kernel): Kernel {
    var s1 := Advanced(s);
    if s1.tick >= s1.unblockTime then Expire(s1) else s1
  }

  /** What `xTaskIncrementTick` returns when it processes a tick. */
  predicate TickSwitches(s: Kernel) {
    var s1 := Advanced(s);
    || (s1.tick >= s1.unblockTime && WakesRival(s1, ExpiredCount(Keys(s1.ls.value, Items(s1.ls, s1.delayed)), s1.tick)))
    || |Items(ProcessTick(s).ls, Ready(Priority(s, s.current)))| > 1
    || s.yieldPending
  }

  /** The tick interrupt: `xTaskIncrementTick` and the switch its result requests. */
  function TickInterrupt(s: Kernel): Kernel {
    if s.suspendDepth == 0 then
      YieldIf(ProcessTick(s), TickSwitches(s)).(interrupts := s.interrupts + 1)
    else
      YieldIf(s.(pendedTicks := s.pendedTicks + 1), s.yieldPending).(interrupts := s.interrupts + 1)
  }

  /** `vTaskSuspendAll` */
  function SuspendAll(s: Kernel): Kernel {
    s.(suspendDepth := s.suspendDepth + 1)
  }

  /** Moves the head of the pending-ready list to its ready list. */
  function ReleaseHead(s: Kernel): Kernel {
    if Items(s.ls, PendingReady) == [] then s
    else
      var t := Items(s.ls, PendingReady)[0].task;
      PendIf(MakeReady(s, t), Priority(s, t) >= Priority(s, s.current))
  }

  function ReleasePending(s: Kernel, n: nat): Kernel
    decreases n
  {
    if n == 0 then s else ReleasePending(ReleaseHead(s), n - 1)
  }

  /** One pass of the loop of `xTaskResumeAll` over the pended ticks. */
  function CatchUpOne(s: Kernel): Kernel {
    PendIf(ProcessTick(s), TickSwitches(s)).(pendedTicks := if s.pendedTicks == 0 then 0 else s.pendedTicks - 1)
  }

  function CatchUp(s: Kernel, n: nat): Kernel
    decreases n
  {
    if n == 0 then s else CatchUp(CatchUpOne(s), n - 1)
  }

  /** `xTaskResumeAll` */
  function ResumeAll(s: Kernel): Kernel {
    if s.suspendDepth == 0 then s
    else
      var s1 := s.(suspendDepth := s.suspendDepth - 1);
      if s1.suspendDepth != 0 then s1
      else
        var s2 := ReleasePending(s1, |Items(s1.ls, PendingReady)|);
        var s3 := CatchUp(s2, s2.pendedTicks);
        YieldIf(s3, s3.yieldPending)
  }

  // ----- selecting the running task

  /** `portGET_HIGHEST_PRIORITY`: the highest bit set. */
  function Highest(bits: set<nat>, p: nat): (h: nat)
    ensures h <= p
    ensures (exists q :: q in bits && q <= p) ==> h in bits
    ensures forall q :: q in bits && q <= p ==> q <= h
  {
    if p in bits || p == 0 then p else Highest(bits, p - 1)
  }

  /** `vTaskSwitchContext` */
  function SwitchContext(s: Kernel): Kernel {
    if s.suspendDepth != 0 then
      s.(yieldPending := true, switchRequested := false)
    else
      var p := Highest(s.readyBits, PRIORITIES - 1);
      var ls := AdvanceList(s.ls, Ready(p));
      var l := List(ls, Ready(p));
      s.(yieldPending := false, switchRequested := false, topReady := p, ls := ls,
         current := if 0 < l.index then Entry(l).task else s.current)
  }

  // ----- the step machine

  datatype Step =
    | DoCreate(t: Task, p: nat) | DoEndCreate | DoStart(t: Task)
    | DoDelete(t: Task) | DoResetUnblockTime | DoReap
    | DoSuspend(t: Task) | DoResume(t: Task) | DoResumeFromISR(t: Task)
    | DoSetPriority(t: Task, p: nat) | DoInherit(t: Task) | DoDisinherit
    | DoDelay(ticks: nat)
    | DoPlaceOnEvent(e: nat, ticks: nat) | DoPlaceOnUnordered(e: nat, v: nat, ticks: nat)
    | DoRemoveFromEvent(e: nat) | DoRemoveFromUnordered(t: Task, v: nat)
    | DoResetEventValue | DoMissedYield | DoYield
    | DoTick | DoSuspendAll | DoResumeAll | DoSwitchContext
    | DoCreateEventList(e: nat)

  function Next(s: Kernel, step: Step): Kernel {
    match step
    case DoCreate(t, p) => Create(s, t, p)
    case DoEndCreate => EndCreate(s)
    case DoStart(t) => Start(s, t)
    case DoDelete(t) => Delete(s, t)
    case DoResetUnblockTime => ResetUnblockTime(s)
    case DoReap => Reap(s)
    case DoSuspend(t) => Suspend(s, t)
    case DoResume(t) => Resume(s, t)
    case DoResumeFromISR(t) => ResumeFromISR(s, t)
    case DoSetPriority(t, p) => SetPriority(s, t, p)
    case DoInherit(t) => Inherit(s, t)
    case DoDisinherit => Disinherit(s)
    case DoDelay(ticks) => DelayFor(s, ticks)
    case DoPlaceOnEvent(e, ticks) => PlaceOnEvent(s, e, ticks)
    case DoPlaceOnUnordered(e, v, ticks) => PlaceOnUnordered(s, e, v, ticks)
    case DoRemoveFromEvent(e) => RemoveFromEvent(s, e)
    case DoRemoveFromUnordered(t, v) => RemoveFromUnordered(s, t, v)
    case DoResetEventValue => ResetEventValue(s)
    case DoMissedYield => s.(yieldPending := true)
    case DoYield => Yield(s)
    case DoTick => TickInterrupt(s)
    case DoSuspendAll => SuspendAll(s)
    case DoResumeAll => ResumeAll(s)
    case DoSwitchContext => SwitchContext(s)
    case DoCreateEventList(e) => s.(ls := AddEmpty(s.ls, Event(e)))
  }

  /** A handle whose task has not been deleted. */
  predicate Live(s: Kernel, t: Task) {
    t in s.priority && !StateIn(s, t, Terminated)
  }

  /** The running task can block: it is in a ready list and is not the idle task, which must
      never block. */
  predicate MayBlock(s: Kernel) {
    IsReady(s, s.current) && s.current != s.idle
  }

  /** When the source allows each step. Before the scheduler is started tasks are only created;
      handles of deleted tasks are not used again; the idle task never blocks, is never
      suspended or deleted, and alone frees deleted tasks; blocking is done with the scheduler
      suspended and for at least one tick; a mutex is given by its running holder; a task ends one
      creation before it begins another or gives a mutex. Deletion and suspension end with
      `DoYield` or `DoResetUnblockTime`. */
  predicate Enabled(s: Kernel, step: Step) {
    match step
    case DoCreate(t, _) => t !in s.priority && (s.started ==> s.current !in s.creating)
    case DoEndCreate => s.started && s.current in s.creating
    case DoStart(t) => !s.started && t !in s.priority
    case DoDelete(t) => s.started && Live(s, t) && t != s.idle && (t == s.current ==> s.suspendDepth == 0)
    case DoResetUnblockTime => s.started
    case DoReap => s.started && s.current == s.idle && Items(s.ls, Terminated) != []
    case DoSuspend(t) => s.started && Live(s, t) && t != s.idle && (t == s.current ==> s.suspendDepth == 0)
    case DoResume(t) => s.started && Live(s, t)
    case DoResumeFromISR(t) => s.started && Live(s, t)
    case DoSetPriority(t, _) => s.started && Live(s, t)
    case DoInherit(t) => s.started && Live(s, t)
    case DoDisinherit => s.started && IsReady(s, s.current) && s.current !in s.creating
    case DoDelay(ticks) => s.started && MayBlock(s) && s.suspendDepth != 0 && 1 <= ticks < WORD
    case DoPlaceOnEvent(e, ticks) =>
      s.started && MayBlock(s) && s.suspendDepth != 0 && 1 <= ticks < WORD && Event(e) in s.ls.contents
    case DoPlaceOnUnordered(e, v, ticks) =>
      s.started && MayBlock(s) && s.suspendDepth != 0 && 1 <= ticks < WORD && Event(e) in s.ls.contents && v < VALUE_IN_USE
    case DoRemoveFromEvent(e) => s.started && Items(s.ls, Event(e)) != []
    case DoRemoveFromUnordered(t, v) =>
      s.started && s.suspendDepth != 0 && EventItem(t) in s.ls.container
      && s.ls.container[EventItem(t)].Event? && v < VALUE_IN_USE
    case DoResetEventValue => s.started
    case DoMissedYield => s.started
    case DoYield => s.started
    case DoTick => s.started
    case DoSuspendAll => s.started
    case DoResumeAll => s.started && s.suspendDepth != 0
    case DoSwitchContext => s.started
    case DoCreateEventList(e) => Event(e) !in s.ls.contents
  }
}
