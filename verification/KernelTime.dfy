/** A delayed task becomes ready on exactly the tick it asked for, however often the 32-bit tick
    count wraps in between. */
module KernelTime {
  import opened ListValues
  import opened ItemLists
  import opened Kernels
  import opened KernelInvariants
  import opened KernelSteps
  import opened KernelTicks
  import opened KernelRuns

  predicate Timed(s: Kernel, t: Task) {
    StateIn(s, t, s.delayed) || StateIn(s, t, s.overflow)
  }

  /** An interrupt has woken the task while the scheduler was suspended. */
  predicate Pending(s: Kernel, t: Task) {
    In(s.ls, EventItem(t), PendingReady)
  }

  /** The unbounded tick a timed task waits for: its item value belongs to the present epoch or,
      in the overflow list, to the next. */
  function Deadline(s: Kernel, t: Task): nat {
    (if StateIn(s, t, s.delayed) then s.overflows else s.overflows + 1) * WORD + Key(s.ls.value, StateItem(t))
  }

  /** The steps that end a wait before its time. */
  predicate Wakes(s: Kernel, step: Step, t: Task) {
    match step
    case DoDelete(u) => u == t
    case DoSuspend(u) => u == t
    case DoRemoveFromEvent(e) => Items(s.ls, Event(e)) != [] && Items(s.ls, Event(e))[0].task == t
    case DoRemoveFromUnordered(u, _) => u == t
    case _ => false
  }

  /** The step passes `t` by: its state item stays where it is, with its value, and time stands still. */
  predicate Keeps(s: Kernel, r: Kernel, t: Task) {
    && (StateItem(t) in s.ls.container <==> StateItem(t) in r.ls.container)
    && (StateItem(t) in s.ls.container ==> r.ls.container[StateItem(t)] == s.ls.container[StateItem(t)])
    && Key(r.ls.value, StateItem(t)) == Key(s.ls.value, StateItem(t))
    && (Pending(r, t) ==> Pending(s, t))
    && r.tick == s.tick && r.overflows == s.overflows && r.delayed == s.delayed && r.overflow == s.overflow
  }

  // ----- what is done to one task passes the others by

  lemma WithoutKeeps(s: Kernel, x: Item, t: Task)
    requires x != StateItem(t)
    ensures Keeps(s, s.(ls := Without(s.ls, x)), t)
  {
  }

  lemma KeepsTwice(s: Kernel, s1: Kernel, r: Kernel, t: Task)
    requires Keeps(s, s1, t) && Keeps(s1, r, t)
    ensures Keeps(s, r, t)
  {
  }

  lemma FlaggedKeeps(s: Kernel, r: Kernel, required: bool, t: Task)
    requires Keeps(s, r, t)
    ensures Keeps(s, PendIf(r, required), t) && Keeps(s, YieldIf(r, required), t)
  {
  }

  lemma DetachKeeps(s: Kernel, u: Task, t: Task)
    requires u != t
    ensures Keeps(s, Detach(s, u), t)
  {
    hide Items, Keeps;
    WithoutKeeps(s, StateItem(u), t);
    KeepsLists(s, Detach(s, u), Without(s.ls, StateItem(u)), t);
  }

  lemma KeepsLists(s: Kernel, r: Kernel, ls: Lists, t: Task)
    requires Keeps(s, s.(ls := ls), t) && r == s.(ls := ls, readyBits := r.readyBits)
    ensures Keeps(s, r, t)
  {
  }

  lemma AddKeeps(s: Kernel, p: ListId, x: Item, t: Task)
    requires x != StateItem(t) && (x == EventItem(t) ==> p != PendingReady)
    ensures Keeps(s, s.(ls := AddLast(s.ls, p, x)), t) && Keeps(s, s.(ls := AddSorted(s.ls, p, x)), t)
  {
    AddLastFrame(s.ls, p, x);
    AddSortedFrame(s.ls, p, x);
    hide AddLast, AddSorted;
  }

  lemma AttachReadyKeeps(s: Kernel, u: Task, t: Task)
    requires u != t
    ensures Keeps(s, AttachReady(s, u), t)
  {
    AddLastFrame(s.ls, Ready(Priority(s, u)), StateItem(u));
    hide AddLast;
  }

  lemma AttachDelayedKeeps(s: Kernel, u: Task, wake: nat, t: Task)
    requires u != t
    ensures Keeps(s, AttachDelayed(s, u, wake), t)
  {
    AttachDelayedFrame(s, u, wake);
    hide AttachDelayed;
  }

  lemma SetValueKeeps(s: Kernel, u: Task, v: nat, t: Task)
    ensures Keeps(s, s.(ls := SetValue(s.ls, EventItem(u), v)), t)
  {
  }

  lemma MakeReadyKeeps(s: Kernel, u: Task, t: Task)
    requires u != t
    ensures Keeps(s, MakeReady(s, u), t)
  {
    hide Keeps, Detach, AttachReady, DetachEvent;
    var s1 := DetachEvent(s, u);
    var s2 := Detach(s1, u);
    DetachEventKeeps(s, u, t);
    DetachKeeps(s1, u, t);
    AttachReadyKeeps(s2, u, t);
    KeepsTwice(s, s1, s2, t);
    KeepsTwice(s, s2, AttachReady(s2, u), t);
  }

  lemma DetachEventKeeps(s: Kernel, u: Task, t: Task)
    ensures Keeps(s, DetachEvent(s, u), t)
  {
    hide Keeps;
    WithoutKeeps(s, EventItem(u), t);
  }

  lemma RetireKeeps(s: Kernel, u: Task, p: ListId, t: Task)
    requires u != t
    ensures Keeps(s, AttachTo(DetachEvent(Detach(s, u), u), u, p), t)
  {
    hide Detach, DetachEvent, AddLast;
    DetachKeeps(s, u, t);
    DetachEventKeeps(Detach(s, u), u, t);
    AddKeeps(DetachEvent(Detach(s, u), u), p, StateItem(u), t);
  }

  lemma RequeueKeeps(s: Kernel, u: Task, was: nat, t: Task)
    requires u != t || Timed(s, t)
    requires !s.delayed.Ready? && !s.overflow.Ready?
    ensures Keeps(s, Requeue(s, u, was), t)
  {
    hide Detach, AttachReady;
    if u != t {
      DetachKeeps(s, u, t);
      AttachReadyKeeps(Detach(s, u), u, t);
    }
  }

  lemma FollowPriorityKeeps(s: Kernel, u: Task, p: nat, t: Task)
    ensures Keeps(s, FollowPriority(s, u, p), t)
  {
    hide SetValue;
    if p <= PRIORITIES {
      SetValueKeeps(s, u, PRIORITIES - p, t);
    }
  }

  lemma BlockKeeps(s: Kernel, ticks: nat, t: Task)
    requires s.current != t
    ensures Keeps(s, Block(s, ticks), t) && Keeps(s, DelayFor(s, ticks), t)
  {
    hide Detach, AttachDelayed, AddLast;
    DetachKeeps(s, s.current, t);
    var s1 := Detach(s, s.current);
    DetachFrame(s, s.current);
    AddKeeps(s1, Suspended, StateItem(s.current), t);
    AttachDelayedKeeps(s1, s.current, (s.tick + ticks) % WORD, t);
  }

  lemma RemoveFromEventKeeps(s: Kernel, e: nat, t: Task)
    requires Items(s.ls, Event(e)) != [] ==> Items(s.ls, Event(e))[0].task != t
    ensures Keeps(s, RemoveFromEvent(s, e), t)
  {
    hide Keeps, MakeReady, AddLast, Without, PendIf;
    SameKeeps(s, t);
    if Items(s.ls, Event(e)) != [] {
      var u := Items(s.ls, Event(e))[0].task;
      var required := Priority(s, u) > Priority(s, s.current);
      if s.suspendDepth == 0 {
        MakeReadyKeeps(s, u, t);
        FlaggedKeeps(s, MakeReady(s, u), required, t);
      } else {
        var s1 := DetachEvent(s, u);
        DetachEventKeeps(s, u, t);
        AddKeeps(s1, PendingReady, EventItem(u), t);
        var s2 := s1.(ls := AddLast(s1.ls, PendingReady, EventItem(u)));
        KeepsTwice(s, s1, s2, t);
        FlaggedKeeps(s, s2, required, t);
      }
    }
  }

  lemma PlaceKeeps(s: Kernel, e: nat, v: nat, ticks: nat, t: Task)
    requires s.current != t
    ensures Keeps(s, PlaceOnEvent(s, e, ticks), t) && Keeps(s, PlaceOnUnordered(s, e, v, ticks), t)
  {
    hide Block, AddLast, AddSorted;
    AddKeeps(s, Event(e), EventItem(s.current), t);
    BlockKeeps(s.(ls := AddSorted(s.ls, Event(e), EventItem(s.current))), ticks, t);
    var s1 := s.(ls := SetValue(s.ls, EventItem(s.current), v + VALUE_IN_USE));
    SetValueKeeps(s, s.current, v + VALUE_IN_USE, t);
    AddKeeps(s1, Event(e), EventItem(s.current), t);
    BlockKeeps(s1.(ls := AddLast(s1.ls, Event(e), EventItem(s.current))), ticks, t);
  }

  lemma TimedFacts(s: Kernel, t: Task)
    requires Good(s, {}, 1) && Timed(s, t)
    ensures t in s.priority && !IsReady(s, t) && !StateIn(s, t, Suspended) && !StateIn(s, t, Terminated)
    ensures !s.delayed.Ready? && !s.overflow.Ready?
  {
    hide Bits, WakeOrder, CacheSound, Consistent;
    assert StateItem(t).task in s.priority;
  }

  /** Every step but a tick and the end of a suspension. */
  lemma StepKeeps(s: Kernel, step: Step, t: Task)
    requires Inv(s) && Enabled(s, step) && Timed(s, t) && !Wakes(s, step, t)
    requires !step.DoTick? && !step.DoResumeAll?
    ensures Keeps(s, Next(s, step), t)
  {
    hide Inv, Enabled, Wakes, Next, Keeps, Timed;
    if step.DoCreate? || step.DoStart? || step.DoDelete? || step.DoReap? || step.DoSuspend? || step.DoResume?
       || step.DoResumeFromISR? || step.DoSetPriority? || step.DoInherit? || step.DoDisinherit? {
      TaskStepKeeps(s, step, t);
    } else if step.DoDelay? || step.DoPlaceOnEvent? || step.DoPlaceOnUnordered? {
      BlockStepKeeps(s, step, t);
    } else if step.DoRemoveFromEvent? || step.DoRemoveFromUnordered? || step.DoResetEventValue? {
      EventStepKeeps(s, step, t);
    } else {
      QuietStepKeeps(s, step, t);
    }
  }

  lemma TaskStepKeeps(s: Kernel, step: Step, t: Task)
    requires Inv(s) && Enabled(s, step) && Timed(s, t) && !Wakes(s, step, t)
    requires step.DoCreate? || step.DoStart? || step.DoDelete? || step.DoReap? || step.DoSuspend? || step.DoResume?
             || step.DoResumeFromISR? || step.DoSetPriority? || step.DoInherit? || step.DoDisinherit?
    ensures Keeps(s, Next(s, step), t)
  {
    hide Inv, Good, Items, Create, Delete, Reap, Suspend, Resume, ResumeFromISR, SetPriority, Inherit, Disinherit, Keeps;
    InvIsGood(s);
    TimedFacts(s, t);
    match step
    case DoCreate(u, p) => CreateKeeps(s, u, p, t);
    case DoStart(u) => StartKeeps(s, u, t);
    case DoDelete(u) => DeleteKeeps(s, u, t);
    case DoReap => ReapKeeps(s, t);
    case DoSuspend(u) => SuspendKeeps(s, u, t);
    case DoResume(u) => ResumeKeeps(s, u, t);
    case DoResumeFromISR(u) => ResumeFromISRKeeps(s, u, t);
    case DoSetPriority(u, p) => SetPriorityKeeps(s, u, p, t);
    case DoInherit(u) => InheritKeeps(s, u, t);
    case DoDisinherit => hide Timed; DisinheritKeeps(s, t);
  }

  lemma EventStepKeeps(s: Kernel, step: Step, t: Task)
    requires Inv(s) && Enabled(s, step) && Timed(s, t) && !Wakes(s, step, t)
    requires step.DoRemoveFromEvent? || step.DoRemoveFromUnordered? || step.DoResetEventValue?
    ensures Keeps(s, Next(s, step), t)
  {
    hide Inv, Enabled, RemoveFromEvent, RemoveFromUnordered, SetValue, Keeps, Timed;
    match step
    case DoRemoveFromEvent(e) => RemoveFromEventKeeps(s, e, t);
    case DoRemoveFromUnordered(u, v) => RemoveFromUnorderedKeeps(s, u, v, t);
    case DoResetEventValue =>
      SetValueKeeps(s, s.current, if Priority(s, s.current) <= PRIORITIES then PRIORITIES - Priority(s, s.current) else 0, t);
  }

  lemma BlockStepKeeps(s: Kernel, step: Step, t: Task)
    requires Inv(s) && Enabled(s, step) && Timed(s, t)
    requires step.DoDelay? || step.DoPlaceOnEvent? || step.DoPlaceOnUnordered?
    ensures Keeps(s, Next(s, step), t)
  {
    hide Inv, DelayFor, PlaceOnEvent, PlaceOnUnordered, Keeps, Timed;
    NotRunning(s, t);
    match step
    case DoDelay(ticks) => BlockKeeps(s, ticks, t);
    case DoPlaceOnEvent(e, ticks) => PlaceKeeps(s, e, 0, ticks, t);
    case DoPlaceOnUnordered(e, v, ticks) => PlaceKeeps(s, e, v, ticks, t);
  }

  lemma NotRunning(s: Kernel, t: Task)
    requires Inv(s) && Timed(s, t)
    ensures IsReady(s, s.current) ==> s.current != t
  {
    hide Inv, Good;
    InvIsGood(s);
    TimedFacts(s, t);
  }

  lemma EndingKeeps(s: Kernel, t: Task)
    ensures Keeps(s, EndCreate(s), t) && Keeps(s, ResetUnblockTime(s), t)
  {
    hide Keeps, Items, Key;
    FlagsKeep(s, EndCreate(s), t);
    FlagsKeep(s, ResetUnblockTime(s), t);
  }

  lemma EmptyElsewhere(ls: Lists, p: ListId)
    ensures AddEmpty(ls, p).container == ls.container && AddEmpty(ls, p).value == ls.value
  {
  }

  lemma QuietStepKeeps(s: Kernel, step: Step, t: Task)
    requires step.DoMissedYield? || step.DoYield? || step.DoSuspendAll? || step.DoSwitchContext? || step.DoCreateEventList?
             || step.DoEndCreate? || step.DoResetUnblockTime?
    ensures Keeps(s, Next(s, step), t)
  {
    hide Keeps, SwitchContext, EndCreate, ResetUnblockTime, AddEmpty, Items;
    match step
    case DoSwitchContext => SwitchKeeps(s, t);
    case DoCreateEventList(e) => FlagsKeep(s, s.(ls := AddEmpty(s.ls, Event(e))), t) by { EmptyElsewhere(s.ls, Event(e)); }
    case DoEndCreate => EndingKeeps(s, t);
    case DoResetUnblockTime => EndingKeeps(s, t);
    case DoMissedYield => FlagsKeep(s, s.(yieldPending := true), t);
    case DoYield => FlagsKeep(s, Yield(s), t);
    case DoSuspendAll => FlagsKeep(s, SuspendAll(s), t);
  }

  lemma FlagsKeep(s: Kernel, r: Kernel, t: Task)
    requires r.ls.container == s.ls.container && r.ls.value == s.ls.value
    requires r.tick == s.tick && r.overflows == s.overflows && r.delayed == s.delayed && r.overflow == s.overflow
    ensures Keeps(s, r, t)
  {
  }

  lemma DeleteKeeps(s: Kernel, u: Task, t: Task)
    requires u != t
    ensures Keeps(s, Delete(s, u), t)
  {
    hide Detach, DetachEvent, AttachTo;
    RetireKeeps(s, u, Terminated, t);
  }

  lemma SuspendKeeps(s: Kernel, u: Task, t: Task)
    requires u != t
    ensures Keeps(s, Suspend(s, u), t)
  {
    hide Detach, DetachEvent, AttachTo;
    RetireKeeps(s, u, Suspended, t);
  }

  lemma RemoveFromUnorderedKeeps(s: Kernel, u: Task, v: nat, t: Task)
    requires u != t
    ensures Keeps(s, RemoveFromUnordered(s, u, v), t)
  {
    hide MakeReady, SetValue;
    SetValueKeeps(s, u, v + VALUE_IN_USE, t);
    MakeReadyKeeps(s.(ls := SetValue(s.ls, EventItem(u), v + VALUE_IN_USE)), u, t);
  }

  lemma CreateKeeps(s: Kernel, u: Task, p: nat, t: Task)
    requires u != t
    ensures Keeps(s, Create(s, u, p), t)
  {
    CreateIs(s, u, p);
    hide Create, AttachReady, SetValue;
    SetValueKeeps(s, u, PRIORITIES - Clamp(p), t);
    var s1 := s.(priority := s.priority[u := Clamp(p)],
                 basePriority := s.basePriority[u := Clamp(p)],
                 ls := SetValue(s.ls, EventItem(u), PRIORITIES - Clamp(p)));
    var s2 := Counted(s, s1, u, p);
    AttachReadyKeeps(s2, u, t);
  }

  lemma StartKeeps(s: Kernel, u: Task, t: Task)
    requires Inv(s) && u != t && !s.started
    ensures Keeps(s, Start(s, u), t)
  {
    hide Create, Good, Items;
    CreateKeeps(s, u, 0, t);
    assert s.tick == 0;
  }

  lemma ReapKeeps(s: Kernel, t: Task)
    requires Inv(s) && Timed(s, t)
    ensures Keeps(s, Reap(s), t)
  {
    TimedFacts(s, t);
    hide Good, Detach;
    if Items(s.ls, Terminated) != [] {
      HeadFacts(s, Terminated, 1);
      DetachKeeps(s, Items(s.ls, Terminated)[0].task, t);
    }
  }

  lemma ReadiedKeeps(s: Kernel, u: Task, t: Task)
    requires u != t
    ensures Keeps(s, AttachReady(Detach(s, u), u), t) && Keeps(s, Yield(AttachReady(Detach(s, u), u)), t)
  {
    hide Detach, AttachReady;
    DetachKeeps(s, u, t);
    AttachReadyKeeps(Detach(s, u), u, t);
  }

  lemma SameKeeps(s: Kernel, t: Task)
    ensures Keeps(s, s, t)
  {
  }

  lemma ResumeKeeps(s: Kernel, u: Task, t: Task)
    requires !StateIn(s, t, Suspended)
    ensures Keeps(s, Resume(s, u), t)
  {
    hide Detach, AttachReady, AddLast, Keeps;
    SameKeeps(s, t);
    if u != t {
      ReadiedKeeps(s, u, t);
    }
  }

  lemma ResumeFromISRKeeps(s: Kernel, u: Task, t: Task)
    requires !StateIn(s, t, Suspended)
    ensures Keeps(s, ResumeFromISR(s, u), t)
  {
    hide Detach, AttachReady, AddLast, Keeps;
    SameKeeps(s, t);
    if u != t {
      ReadiedKeeps(s, u, t);
      AddKeeps(s, PendingReady, EventItem(u), t);
    }
  }

  lemma SetPriorityKeeps(s: Kernel, u: Task, p: nat, t: Task)
    requires Inv(s) && Timed(s, t) && u in s.priority
    ensures Keeps(s, SetPriority(s, u, p), t)
  {
    hide Inv, Good, FollowPriority, Requeue, SetPriority;
    InvIsGood(s);
    TimedFacts(s, t);
    BasesBounded(s);
    var q := if s.basePriority[u] == Priority(s, u) then Clamp(p) else Priority(s, u);
    var s1 := s.(priority := s.priority[u := q], basePriority := s.basePriority[u := Clamp(p)]);
    var s2 := FollowPriority(s1, u, Clamp(p));
    FollowPriorityKeeps(s1, u, Clamp(p), t);
    RequeueKeeps(s2, u, Priority(s, u), t);
    SetPriorityIs(s, u, p, Requeue(s2, u, Priority(s, u)));
  }

  lemma InheritKeeps(s: Kernel, u: Task, t: Task)
    requires Inv(s) && Timed(s, t)
    ensures Keeps(s, Inherit(s, u), t)
  {
    hide Inv, Good, FollowPriority, Requeue, Keeps;
    InvIsGood(s);
    TimedFacts(s, t);
    SameKeeps(s, t);
    var h := Priority(s, s.current);
    var s1 := FollowPriority(s, u, h);
    var s2 := s1.(priority := s.priority[u := h]);
    FollowPriorityKeeps(s, u, h, t);
    FollowPriorityFrame(s, u, h);
    FlagsKeep(s1, s2, t);
    KeepsTwice(s, s1, s2, t);
    RequeueKeeps(s2, u, Priority(s, u), t);
    KeepsTwice(s, s2, Requeue(s2, u, Priority(s, u)), t);
  }

  lemma DisinheritKeeps(s: Kernel, t: Task)
    requires s.current != t
    ensures Keeps(s, Disinherit(s), t)
  {
    hide Detach, AttachReady, FollowPriority;
    var u := s.current;
    var base := if u in s.basePriority then s.basePriority[u] else 0;
    DetachKeeps(s, u, t);
    var s1 := Detach(s, u).(priority := s.priority[u := base]);
    FollowPriorityKeeps(s1, u, base, t);
    AttachReadyKeeps(FollowPriority(s1, u, base), u, t);
  }

  lemma SwitchKeeps(s: Kernel, t: Task)
    ensures Keeps(s, SwitchContext(s), t)
  {
    hide Highest, AdvanceList, List;
    AdvanceKeeps(s.ls, Ready(Highest(s.readyBits, PRIORITIES - 1)));
  }

  lemma AdvanceKeeps(ls: Lists, p: ListId)
    ensures AdvanceList(ls, p).container == ls.container && AdvanceList(ls, p).value == ls.value
    ensures Items(AdvanceList(ls, p), PendingReady) == Items(ls, PendingReady)
  {
  }

  // ----- ticks

  lemma NotDelayedAtSwitch(s: Kernel, t: Task)
    requires Good(s, {}, 1) && Items(s.ls, s.delayed) == []
    ensures !StateIn(s, t, s.delayed) && s.delayed != s.overflow
  {
    hide Placement, Bits, Clock;
    MembersMatch(s.ls);
    hide Consistent;
  }

  /** Switching the lists at the wrap leaves every deadline where it was. */
  lemma AdvancedDeadline(s: Kernel, t: Task)
    requires Good(s, {}, 1) && Timed(s, t)
    ensures Timed(Advanced(s), t) && Deadline(Advanced(s), t) == Deadline(s, t)
  {
    hide Placement, Bits, SortedList, CacheSound, Consistent;
    if s.tick + 1 == WORD {
      DelayedListEmptyAtSwitch(s);
      NotDelayedAtSwitch(s, t);
    }
  }

  /** A tick readies a timed task exactly when it is the task's deadline. */
  lemma TickMeetsDeadline(s: Kernel, t: Task)
    requires Good(s, {}, 1) && Timed(s, t)
    ensures Deadline(s, t) == Now(s) + 1 ==> IsReady(ProcessTick(s), t)
    ensures Deadline(s, t) != Now(s) + 1 ==> Timed(ProcessTick(s), t) && Deadline(ProcessTick(s), t) == Deadline(s, t)
    ensures Now(s) < Deadline(s, t)
    ensures Pending(ProcessTick(s), t) ==> Pending(s, t)
  {
    AdvancedDeadline(s, t);
    AdvancedGood(s);
    ProcessTickGood(s);
    FutureDeadline(s, t);
    var s1 := Advanced(s);
    var r := ProcessTick(s);
    TickedDeadline(s1, r, t);
    hide Good, ProcessTick, Advanced, Ticked, Timed, Deadline;
  }

  lemma FutureDeadline(s: Kernel, t: Task)
    requires Good(s, {}, 1) && Timed(s, t)
    ensures Now(s) < Deadline(s, t) < Now(s) + WORD
  {
    hide Placement, Bits, SortedList, Consistent;
  }

  /** What a tick does to one task. */
  lemma TickedPlace(s: Kernel, r: Kernel, t: Task, n: nat)
    requires Ticked(s, r, n) && StateItem(t) in s.ls.container
    ensures n <= |Items(s.ls, s.delayed)| && StateItem(t) in r.ls.container
    ensures r.ls.container[StateItem(t)] ==
            if StateItem(t) in Items(s.ls, s.delayed)[..n] then Ready(Priority(s, t)) else s.ls.container[StateItem(t)]
    ensures r.ls.value == s.ls.value && Now(r) == Now(s) && r.delayed == s.delayed && r.overflow == s.overflow && r.overflows == s.overflows
    ensures Pending(r, t) ==> Pending(s, t)
  {
    hide Items;
  }

  /** The scan finds a task of the delayed list exactly on the tick its value names. */
  lemma DueAtDeadline(s: Kernel, t: Task)
    requires Good(s, {}, 0) && StateIn(s, t, s.delayed)
    ensures StateItem(t) in Items(s.ls, s.delayed)[..Due(s)] <==> Key(s.ls.value, StateItem(t)) == s.tick
    ensures s.tick <= Key(s.ls.value, StateItem(t)) < WORD
  {
    var x := StateItem(t);
    ListFacts(s, s.delayed, 0, x);
    var i := IndexOf(Items(s.ls, s.delayed), x);
    DueExactly(s, i);
    InOrder(s, x);
    hide Good, Due, Items;
    assert i < Due(s) <==> x in Items(s.ls, s.delayed)[..Due(s)];
  }

  lemma InOrder(s: Kernel, x: Item)
    requires Good(s, {}, 0) && In(s.ls, x, s.delayed)
    ensures s.tick <= Key(s.ls.value, x) < WORD
  {
    hide Shape, Placement, Bits, SortedList, CacheSound;
  }

  lemma NotDue(s: Kernel, t: Task)
    requires Good(s, {}, 0) && StateIn(s, t, s.overflow) && s.delayed != s.overflow
    ensures StateItem(t) !in Items(s.ls, s.delayed)[..Due(s)]
    ensures Key(s.ls.value, StateItem(t)) < s.tick
  {
    ListFacts(s, s.delayed, 0, StateItem(t));
    hide Shape, Placement, Bits, SortedList, CacheSound, Due, Items;
  }

  lemma TickedDeadline(s: Kernel, r: Kernel, t: Task)
    requires Good(s, {}, 0) && Timed(s, t) && Ticked(s, r, Due(s))
    ensures Deadline(s, t) == Now(s) ==> IsReady(r, t)
    ensures Deadline(s, t) != Now(s) ==> Timed(r, t) && Deadline(r, t) == Deadline(s, t)
    ensures Pending(r, t) ==> Pending(s, t)
  {
    hide Good, Due, Items, Ticked;
    var n := Due(s);
    TickRange(s);
    TickedPlace(s, r, t, n);
    if StateIn(s, t, s.delayed) {
      DueAtDeadline(s, t);
    } else {
      NotDue(s, t);
    }
  }

  lemma TickRange(s: Kernel)
    requires Good(s, {}, 0)
    ensures s.tick < WORD && s.delayed != s.overflow
  {
  }

  // ----- the end of a suspension

  lemma ReleaseHeadKeeps(s: Kernel, t: Task)
    requires Inv(s) && !Pending(s, t)
    ensures Keeps(s, ReleaseHead(s), t)
  {
    hide Good, MakeReady;
    if Items(s.ls, PendingReady) != [] {
      HeadFacts(s, PendingReady, 1);
      MakeReadyKeeps(s, Items(s.ls, PendingReady)[0].task, t);
    }
  }

  lemma {:induction false} ReleasePendingKeeps(s: Kernel, n: nat, t: Task)
    requires Inv(s) && !Pending(s, t)
    ensures Keeps(s, ReleasePending(s, n), t)
    decreases n
  {
    hide Inv, ReleaseHead;
    if n != 0 {
      ReleaseHeadInv(s);
      ReleaseHeadKeeps(s, t);
      ReleasePendingKeeps(ReleaseHead(s), n - 1, t);
    }
  }

  lemma SameTimes(s: Kernel, r: Kernel, t: Task)
    requires r.ls == s.ls && r.tick == s.tick && r.overflows == s.overflows && r.delayed == s.delayed && r.overflow == s.overflow
    ensures (Timed(r, t) <==> Timed(s, t)) && (IsReady(r, t) <==> IsReady(s, t)) && (Pending(r, t) <==> Pending(s, t))
    ensures Now(r) == Now(s) && Deadline(r, t) == Deadline(s, t)
  {
  }

  lemma ReadyAfterTick(s: Kernel, t: Task)
    requires Good(s, {}, 1)
    ensures IsReady(s, t) ==> IsReady(ProcessTick(s), t)
  {
    hide Good, ProcessTick, Items;
    ProcessTickFrame(s);
  }

  lemma CatchUpOneMeetsDeadline(s: Kernel, t: Task)
    requires Inv(s)
    ensures Timed(s, t) && Deadline(s, t) == Now(s) + 1 ==> IsReady(CatchUpOne(s), t)
    ensures Timed(s, t) && Deadline(s, t) != Now(s) + 1 ==> Timed(CatchUpOne(s), t) && Deadline(CatchUpOne(s), t) == Deadline(s, t)
    ensures Timed(s, t) ==> Now(s) < Deadline(s, t) && (Pending(CatchUpOne(s), t) ==> Pending(s, t))
    ensures IsReady(s, t) ==> IsReady(CatchUpOne(s), t)
    ensures Now(CatchUpOne(s)) == Now(s) + 1
  {
    hide Inv, Good, ProcessTick, Ticked, TickSwitches, Timed, Deadline, Pending, Now, IsReady;
    InvIsGood(s);
    ProcessTickGood(s);
    ReadyAfterTick(s, t);
    SameTimes(ProcessTick(s), CatchUpOne(s), t);
    if Timed(s, t) {
      TickMeetsDeadline(s, t);
    }
  }

  lemma {:induction false} CatchUpReady(s: Kernel, n: nat, t: Task)
    requires Inv(s) && s.started && n <= s.pendedTicks && IsReady(s, t)
    ensures IsReady(CatchUp(s, n), t)
    decreases n
  {
    hide Inv, CatchUpOne, IsReady;
    if n != 0 {
      CatchUpOneInv(s);
      CatchUpOneMeetsDeadline(s, t);
      CatchUpReady(CatchUpOne(s), n - 1, t);
    }
  }

  /** The deferred ticks are processed one by one: each task is readied by the one it waits for. */
  lemma {:induction false} CatchUpMeetsDeadline(s: Kernel, n: nat, t: Task)
    requires Inv(s) && s.started && n <= s.pendedTicks && Timed(s, t)
    ensures Deadline(s, t) <= Now(s) + n ==> IsReady(CatchUp(s, n), t)
    ensures Now(s) + n < Deadline(s, t) ==> Timed(CatchUp(s, n), t) && Deadline(CatchUp(s, n), t) == Deadline(s, t)
    ensures Now(s) + n < Deadline(s, t) && Pending(CatchUp(s, n), t) ==> Pending(s, t)
    decreases n
  {
    hide Inv, CatchUpOne, IsReady, Timed, Deadline, Now, Pending;
    CatchUpOneMeetsDeadline(s, t);
    if n == 0 {
      assert CatchUp(s, n) == s;
    } else {
      var m := CatchUpOne(s);
      CatchUpOneInv(s);
      assert CatchUp(s, n) == CatchUp(m, n - 1);
      if Deadline(s, t) == Now(s) + 1 {
        CatchUpReady(m, n - 1, t);
      } else {
        CatchUpMeetsDeadline(m, n - 1, t);
      }
    }
  }

  lemma {:induction false} CatchUpTime(s: Kernel, n: nat)
    requires Inv(s) && s.started && n <= s.pendedTicks
    ensures Now(CatchUp(s, n)) == Now(s) + n
    decreases n
  {
    hide Inv, CatchUpOne, IsReady, Now;
    if n != 0 {
      CatchUpOneInv(s);
      CatchUpOneMeetsDeadline(s, 0);
      CatchUpTime(CatchUpOne(s), n - 1);
    }
  }

  /** What a step does to a waiting task that it does not wake. */
  predicate Waits(s: Kernel, r: Kernel, t: Task) {
    && (Now(r) < Deadline(s, t) ==> Timed(r, t) && Deadline(r, t) == Deadline(s, t) && !Pending(r, t))
    && (Deadline(s, t) <= Now(r) ==> IsReady(r, t))
  }

  lemma ResumeAllMeetsDeadline(s: Kernel, t: Task)
    requires Inv(s) && s.started && Timed(s, t) && !Pending(s, t)
    ensures Waits(s, ResumeAll(s), t)
  {
    hide Good, ReleasePending, CatchUp, Items, Inv, Timed, Deadline, Pending, Now, IsReady;
    FutureDeadline(s, t) by { InvIsGood(s); }
    if s.suspendDepth != 0 {
      var s1 := s.(suspendDepth := s.suspendDepth - 1);
      InvFlags(s, s1);
      SameTimes(s, s1, t);
      if s1.suspendDepth == 0 {
        ReleasedMeetsDeadline(s1, t);
        var s2 := ReleasePending(s1, |Items(s1.ls, PendingReady)|);
        SameTimes(CatchUp(s2, s2.pendedTicks), ResumeAll(s), t);
      }
    }
  }

  lemma ReleasedMeetsDeadline(s: Kernel, t: Task)
    requires Inv(s) && s.started && Timed(s, t) && !Pending(s, t)
    ensures var s2 := ReleasePending(s, |Items(s.ls, PendingReady)|);
            Waits(s, CatchUp(s2, s2.pendedTicks), t)
  {
    hide Good, ReleasePending, CatchUp, Items, Inv;
    FutureDeadline(s, t) by { InvIsGood(s); }
    var n := |Items(s.ls, PendingReady)|;
    ReleasePendingInv(s, n);
    ReleasePendingKeeps(s, n, t);
    var s2 := ReleasePending(s, n);
    CatchUpMeetsDeadline(s2, s2.pendedTicks, t);
    CatchUpTime(s2, s2.pendedTicks);
  }

  lemma NextTick(s: Kernel)
    ensures Next(s, DoTick) == TickInterrupt(s) && Next(s, DoResumeAll) == ResumeAll(s)
  {
    hide TickInterrupt, ResumeAll;
  }

  lemma TickStepMeetsDeadline(s: Kernel, t: Task)
    requires Inv(s) && Timed(s, t) && !Pending(s, t)
    ensures Waits(s, TickInterrupt(s), t)
  {
    hide Good, ProcessTick, TickSwitches, Ticked;
    TickMeetsDeadline(s, t);
    TickTime(s);
  }

  /** Every step: a task whose wait it does not cut short either goes on waiting for the same
      deadline, or the deadline has come and the task is ready. */
  lemma StepMeetsDeadline(s: Kernel, step: Step, t: Task)
    requires Inv(s) && Enabled(s, step) && Timed(s, t) && !Pending(s, t) && !Wakes(s, step, t)
    ensures Waits(s, Next(s, step), t)
  {
    hide Good, Inv, TickInterrupt, ResumeAll, Next, Wakes;
    InvIsGood(s);
    FutureDeadline(s, t);
    if step.DoTick? {
      TickStepMeetsDeadline(s, t);
      assert Next(s, step) == TickInterrupt(s) by { NextTick(s); }
    } else if step.DoResumeAll? {
      ResumeAllMeetsDeadline(s, t);
      assert Next(s, step) == ResumeAll(s) by { NextTick(s); }
    } else {
      StepKeeps(s, step, t);
    }
  }

  // ----- runs

  lemma MovesLeaveAccounts()
    ensures forall s: Kernel, t: Task :: Detach(s, t).pendedTicks == s.pendedTicks && Detach(s, t).interrupts == s.interrupts
    ensures forall s: Kernel, t: Task :: AttachReady(s, t).pendedTicks == s.pendedTicks && AttachReady(s, t).interrupts == s.interrupts
    ensures forall s: Kernel, t: Task, v: nat ::
              AttachDelayed(s, t, v).pendedTicks == s.pendedTicks && AttachDelayed(s, t, v).interrupts == s.interrupts
    ensures forall s: Kernel, t: Task, p: nat ::
              FollowPriority(s, t, p).pendedTicks == s.pendedTicks && FollowPriority(s, t, p).interrupts == s.interrupts
  {
    hide Without, AddLast, AddSorted, SetValue, Items, Key;
  }

  /** Only the tick interrupt and the end of a suspension touch the tick accounts. */
  lemma TickAccounts(s: Kernel, step: Step)
    requires !step.DoTick? && !step.DoResumeAll?
    ensures Next(s, step).pendedTicks == s.pendedTicks && Next(s, step).interrupts == s.interrupts
  {
    hide Next;
    if step.DoSetPriority? || step.DoInherit? || step.DoDisinherit? {
      PriorityStepAccounts(s, step);
    } else if step.DoCreate? || step.DoStart? || step.DoReap? {
      TaskStepAccounts(s, step);
    } else {
      StepSpares(s, step);
    }
  }

  lemma TaskStepAccounts(s: Kernel, step: Step)
    requires step.DoCreate? || step.DoStart? || step.DoReap?
    ensures Next(s, step).pendedTicks == s.pendedTicks && Next(s, step).interrupts == s.interrupts
  {
    hide Without, AddLast, SetValue, Items, Key, Detach, AttachReady;
    MovesLeaveAccounts();
  }

  lemma SetPriorityAccounts(s: Kernel, t: Task, p: nat)
    ensures SetPriority(s, t, p).pendedTicks == s.pendedTicks && SetPriority(s, t, p).interrupts == s.interrupts
  {
    hide Without, AddLast, AddSorted, SetValue, Items, Key, Detach, AttachReady, AttachDelayed, FollowPriority, IsReady;
    MovesLeaveAccounts();
  }

  lemma InheritAccounts(s: Kernel, t: Task)
    ensures Inherit(s, t).pendedTicks == s.pendedTicks && Inherit(s, t).interrupts == s.interrupts
  {
    hide Without, AddLast, AddSorted, SetValue, Items, Key, Detach, AttachReady, AttachDelayed, FollowPriority, IsReady;
    MovesLeaveAccounts();
  }

  lemma DisinheritAccounts(s: Kernel)
    ensures Disinherit(s).pendedTicks == s.pendedTicks && Disinherit(s).interrupts == s.interrupts
  {
    hide Without, AddLast, AddSorted, SetValue, Items, Key, Detach, AttachReady, AttachDelayed, FollowPriority, IsReady;
    MovesLeaveAccounts();
  }

  lemma PriorityStepAccounts(s: Kernel, step: Step)
    requires step.DoSetPriority? || step.DoInherit? || step.DoDisinherit?
    ensures Next(s, step).pendedTicks == s.pendedTicks && Next(s, step).interrupts == s.interrupts
  {
    hide SetPriority, Inherit, Disinherit;
    match step
    case DoSetPriority(t, p) => SetPriorityAccounts(s, t, p);
    case DoInherit(t) => InheritAccounts(s, t);
    case DoDisinherit => DisinheritAccounts(s);
  }

  lemma Accounts(s: Kernel)
    requires Inv(s)
    ensures Now(s) + s.pendedTicks == s.interrupts
  {
    hide Good, Items;
  }

  lemma TickTime(s: Kernel)
    requires Inv(s)
    ensures Now(TickInterrupt(s)) == if s.suspendDepth == 0 then Now(s) + 1 else Now(s)
  {
    hide Good, ProcessTick, TickSwitches, Ticked, Items;
    ProcessTickGood(s);
  }

  lemma TimeAdvances(s: Kernel, step: Step)
    requires Inv(s) && Enabled(s, step)
    ensures Now(s) <= Now(Next(s, step))
  {
    hide Good, ProcessTick, TickSwitches, Ticked, ReleasePending, CatchUp, Items, Inv;
    StepInv(s, step);
    if step.DoTick? {
      TickTime(s);
    } else if step.DoResumeAll? {
      if s.suspendDepth == 1 {
        var s1 := s.(suspendDepth := 0);
        InvFlags(s, s1);
        var n := |Items(s1.ls, PendingReady)|;
        ReleasePendingInv(s1, n);
        var s2 := ReleasePending(s1, n);
        CatchUpTime(s2, s2.pendedTicks);
        ReleasePendingTime(s1, n);
      }
    } else {
      hide Next;
      TickAccounts(s, step);
      Accounts(s);
      Accounts(Next(s, step));
    }
  }

  lemma {:induction false} ReleasePendingTime(s: Kernel, n: nat)
    ensures Now(ReleasePending(s, n)) == Now(s)
    decreases n
  {
    hide MakeReady, Items;
    if n != 0 {
      if Items(s.ls, PendingReady) != [] {
        MakeReadyFrame(s, Items(s.ls, PendingReady)[0].task);
      }
      ReleasePendingTime(ReleaseHead(s), n - 1);
    }
  }

  /** No step of the run ends the task's wait early. */
  predicate Undisturbed(s: Kernel, steps: seq<Step>, t: Task) {
    steps == [] ||
    (Undisturbed(s, steps[..|steps| - 1], t) && !Wakes(After(s, steps[..|steps| - 1]), steps[|steps| - 1], t))
  }

  /** Over any run in which nothing else wakes it, the task waits until unbounded time reaches its
      deadline and is ready after the step that processes that very tick. */
  lemma {:induction false} ReadyAtDeadline(s: Kernel, steps: seq<Step>, t: Task)
    requires Inv(s) && Legal(s, steps) && Timed(s, t) && !Pending(s, t) && Undisturbed(s, steps, t)
    requires steps != [] ==> Now(After(s, steps[..|steps| - 1])) < Deadline(s, t)
    ensures Waits(s, After(s, steps), t)
    decreases |steps|
  {
    hide Inv, Good, Next, Timed, Deadline, Pending, Wakes, Enabled, Now;
    InvIsGood(s);
    FutureDeadline(s, t);
    if steps != [] {
      var init := steps[..|steps| - 1];
      RunInv(s, init);
      if init != [] {
        RunInv(s, init[..|init| - 1]);
        TimeAdvances(After(s, init[..|init| - 1]), init[|init| - 1]);
      }
      ReadyAtDeadline(s, init, t);
      StepMeetsDeadline(After(s, init), steps[|steps| - 1], t);
    }
  }

  lemma AttachedDeadline(s: Kernel, t: Task, ticks: nat)
    requires s.tick < WORD && 1 <= ticks < WORD && s.delayed != s.overflow
    ensures var r := AttachDelayed(s, t, (s.tick + ticks) % WORD);
            && Timed(r, t) && Deadline(r, t) == Now(s) + ticks && Now(r) == Now(s) && (Pending(r, t) ==> Pending(s, t))
  {
    hide AttachDelayed;
    AttachDelayedFrame(s, t, (s.tick + ticks) % WORD);
  }

  /** Blocking for `ticks` ticks sets the deadline that many ticks ahead, across the wrap or not. */
  lemma DelaySetsDeadline(s: Kernel, ticks: nat)
    requires Inv(s) && Enabled(s, DoDelay(ticks))
    ensures var r := DelayFor(s, ticks);
            && Timed(r, s.current) && Deadline(r, s.current) == Now(s) + ticks && Now(r) == Now(s) && !Pending(r, s.current)
  {
    hide Inv, Good, Items, Detach, AttachDelayed, Timed, Deadline;
    InvParts(s);
    var t := s.current;
    TaskFacts(s, t, 1);
    DetachGood(s, t, {}, 1);
    DetachFrame(s, t);
    TickBound(s);
    AttachedDeadline(Detach(s, t), t, ticks);
  }

  lemma TickBound(s: Kernel)
    requires Good(s, {}, 1)
    ensures s.tick < WORD && s.delayed != s.overflow
    ensures (s.delayed.DelayedA? || s.delayed.DelayedB?) && (s.overflow.DelayedA? || s.overflow.DelayedB?)
  {
  }

  /** Waiting for an event with a timeout does the same. */
  lemma TimeoutSetsDeadline(s: Kernel, e: nat, ticks: nat)
    requires Inv(s) && Enabled(s, DoPlaceOnEvent(e, ticks)) && ticks != MAX_DELAY
    ensures var r := PlaceOnEvent(s, e, ticks);
            && Timed(r, s.current) && Deadline(r, s.current) == Now(s) + ticks && Now(r) == Now(s) && !Pending(r, s.current)
  {
    hide Inv, Good, Items, Detach, AttachDelayed, AddSorted, Timed, Deadline;
    InvParts(s);
    var t := s.current;
    TaskFacts(s, t, 1);
    AddEventSortedGood(s, t, Event(e), {}, 1);
    AddedItem(s.ls, Event(e), EventItem(t));
    var s1 := s.(ls := AddSorted(s.ls, Event(e), EventItem(t)));
    assert {} + {t} == {t};
    DetachGood(s1, t, {t}, 1);
    DetachFrame(s1, t);
    TickBound(s);
    AttachedDeadline(Detach(s1, t), t, ticks);
  }

  /** `vTaskDelay` over all runs: a task delayed `ticks` ticks at tick T, and not woken by anything
      else, is still blocked while fewer than T + `ticks` ticks have been processed and is ready
      after the step that processes tick T + `ticks`. */
  lemma DelayIsExact(s: Kernel, ticks: nat, steps: seq<Step>)
    requires Inv(s) && Enabled(s, DoDelay(ticks))
    requires var s0 := DelayFor(s, ticks);
             && Legal(s0, steps) && Undisturbed(s0, steps, s.current)
             && (steps != [] ==> Now(After(s0, steps[..|steps| - 1])) < Now(s) + ticks)
    ensures var r := After(DelayFor(s, ticks), steps);
            && (Now(r) < Now(s) + ticks ==> Timed(r, s.current))
            && (Now(s) + ticks <= Now(r) ==> IsReady(r, s.current))
  {
    hide Inv, Legal, Undisturbed, Timed, Deadline, Pending, After, Now, DelayFor;
    DelaySetsDeadline(s, ticks);
    DelayForInv(s, ticks);
    ReadyAtDeadline(DelayFor(s, ticks), steps, s.current);
  }

  // ----- no tick is lost

  /** The tick interrupts of a run. */
  function Ticks(steps: seq<Step>): nat {
    if steps == [] then 0 else Ticks(steps[..|steps| - 1]) + if steps[|steps| - 1].DoTick? then 1 else 0
  }

  lemma {:induction false} ReleasePendingInterrupts(s: Kernel, n: nat)
    ensures ReleasePending(s, n).interrupts == s.interrupts
    decreases n
  {
    hide MakeReady, Items;
    if n != 0 {
      if Items(s.ls, PendingReady) != [] {
        MakeReadyFrame(s, Items(s.ls, PendingReady)[0].task);
      }
      ReleasePendingInterrupts(ReleaseHead(s), n - 1);
    }
  }

  lemma {:induction false} CatchUpInterrupts(s: Kernel, n: nat)
    requires Inv(s) && s.started && n <= s.pendedTicks
    ensures CatchUp(s, n).interrupts == s.interrupts
    decreases n
  {
    hide Good, ProcessTick, TickSwitches, Items;
    if n != 0 {
      CatchUpOneInv(s);
      ProcessTickFrame(s);
      CatchUpInterrupts(CatchUpOne(s), n - 1);
    }
  }

  lemma ResumeAllInterrupts(s: Kernel)
    requires Inv(s) && s.started
    ensures ResumeAll(s).interrupts == s.interrupts
  {
    hide Inv, ReleasePending, CatchUp, Items;
    if s.suspendDepth == 1 {
      var s1 := s.(suspendDepth := 0);
      InvFlags(s, s1);
      var n := |Items(s1.ls, PendingReady)|;
      ReleasePendingInv(s1, n);
      ReleasePendingInterrupts(s1, n);
      CatchUpInterrupts(ReleasePending(s1, n), s.pendedTicks);
    }
  }

  lemma TickInterrupts(s: Kernel)
    ensures TickInterrupt(s).interrupts == s.interrupts + 1
  {
    hide ProcessTick, TickSwitches;
  }

  /** Over every run: the ticks processed, in unbounded time, and those deferred while the scheduler
      was suspended add up to the tick interrupts taken; and at every tick at which the lists are
      switched the delayed list is empty. */
  lemma {:induction false} NoTickIsLost(t: Task, p: nat, steps: seq<Step>)
    requires Legal(Boot(t, p), steps)
    ensures var s := After(Boot(t, p), steps);
            && Now(s) + s.pendedTicks == s.interrupts == Ticks(steps)
            && (Advanced(s).overflows != s.overflows ==> Items(s.ls, s.delayed) == [])
    decreases |steps|
  {
    hide Inv, Good, Enabled, Next, Boot, Now, Advanced, Items, TickInterrupt, ResumeAll;
    var s := After(Boot(t, p), steps);
    ReachableInv(t, p, steps);
    Accounts(s);
    InvIsGood(s);
    if Advanced(s).overflows != s.overflows {
      DelayedListEmptyAtSwitch(s);
    }
    if steps == [] {
      BootInterrupts(t, p);
    } else {
      var init := steps[..|steps| - 1];
      var last := steps[|steps| - 1];
      var before := After(Boot(t, p), init);
      NoTickIsLost(t, p, init);
      ReachableInv(t, p, init);
      NextTick(before);
      if last.DoTick? {
        TickInterrupts(before);
      } else if last.DoResumeAll? {
        ResumeAllInterrupts(before) by { EnabledStarted(before, last); }
      } else {
        TickAccounts(before, last);
      }
    }
  }

  lemma BootInterrupts(t: Task, p: nat)
    ensures Boot(t, p).interrupts == 0
  {
    hide EmptyLists;
  }

  lemma EnabledStarted(s: Kernel, step: Step)
    requires Enabled(s, step) && step.DoResumeAll?
    ensures s.started
  {
  }

  /** Over every run, the cached unblock time never hides an expired task: it is no later than the
      head of the delayed list, so the guarded scan of every tick readies the same tasks as a scan
      without the guard would. */
  lemma CacheHidesNothing(t: Task, p: nat, steps: seq<Step>)
    requires Legal(Boot(t, p), steps)
    ensures var s := After(Boot(t, p), steps);
            && (Items(s.ls, s.delayed) != [] ==> s.unblockTime <= Key(s.ls.value, Items(s.ls, s.delayed)[0]))
            && ProcessTick(s).(unblockTime := 0) == Expire(Advanced(s)).(unblockTime := 0)
  {
    hide Inv, Good, After, Legal, Boot, ProcessTick, Expire, Advanced, Items;
    ReachableInv(t, p, steps);
    var s := After(Boot(t, p), steps);
    InvIsGood(s);
    GuardedScanIsUnguarded(s);
    HeadCached(s);
  }

  lemma HeadCached(s: Kernel)
    requires Good(s, {}, 1)
    ensures Items(s.ls, s.delayed) != [] ==> s.unblockTime <= Key(s.ls.value, Items(s.ls, s.delayed)[0])
  {
    hide Placement, Bits, WakeOrder, Consistent;
  }
}
