/** The running task: unless a switch has been asked for, no ready task has a higher priority. */
module KernelPriority {
  import opened ListValues
  import opened ItemLists
  import opened Kernels
  import opened KernelInvariants
  import opened KernelSteps
  import opened KernelTicks
  import opened KernelRuns

  /** The running task has at least the priority of `t`, or has just created a task of at least that
      priority and is about to compare its own. */
  predicate Outranks(s: Kernel, t: Task) {
    || Priority(s, t) <= Priority(s, s.current)
    || (s.started && s.current in s.creating && Priority(s, t) <= s.creating[s.current])
  }

  /** A switch has been requested or is pending, or the running task has at least the priority of
      every ready task, or is about to find out that it has not. */
  ghost predicate NoRival(s: Kernel) {
    s.switchRequested || s.yieldPending || forall t :: IsReady(s, t) ==> Outranks(s, t)
  }

  /** No mutex has lent any task another's priority. */
  predicate NoMutex(s: Kernel) {
    s.priority == s.basePriority
  }

  /** A step that changes the standing of one task only. */
  lemma OneMoves(s: Kernel, r: Kernel, u: Task)
    requires NoRival(s) && r.current == s.current && r.started == s.started
    requires s.current in s.creating ==> s.current in r.creating && r.creating[s.current] == s.creating[s.current]
    requires (s.switchRequested ==> r.switchRequested) && (s.yieldPending ==> r.yieldPending)
    requires forall t {:trigger IsReady(r, t)} :: t != u && IsReady(r, t) ==> IsReady(s, t) && Priority(r, t) == Priority(s, t)
    requires Priority(s, s.current) <= Priority(r, r.current) || r.switchRequested || r.yieldPending
    requires IsReady(r, u) ==> Outranks(r, u) || r.switchRequested || r.yieldPending
    ensures NoRival(r)
  {
    hide IsReady, Priority;
  }

  lemma CreateNoRival(s: Kernel, t: Task, p: nat)
    requires Inv(s) && NoRival(s) && Enabled(s, DoCreate(t, p))
    ensures NoRival(Create(s, t, p))
  {
    hide Good, AttachReady, Create;
    CurrentFacts(s);
    var s1 := s.(priority := s.priority[t := Clamp(p)],
                 basePriority := s.basePriority[t := Clamp(p)],
                 ls := SetValue(s.ls, EventItem(t), PRIORITIES - Clamp(p)));
    var s2 := Counted(s, s1, t, p);
    NewTaskGood(s, t, Clamp(p));
    GoodFrame(s1, s2, {t}, 1);
    AttachReadyGood(s2, t, {t}, 1);
    AttachReadyFrame(s2, t);
    CreateIs(s, t, p);
    var r := Create(s, t, p);
    forall u | IsReady(r, u) && !s.switchRequested && !s.yieldPending ensures Outranks(r, u) {
      if u != t {
        assert IsReady(s, u);
      }
    }
  }

  /** The comparison a creator owes is enough: it yields if it is outranked after all. */
  lemma EndCreateNoRival(s: Kernel)
    requires NoRival(s) && Enabled(s, DoEndCreate)
    ensures NoRival(EndCreate(s))
  {
    var r := EndCreate(s);
    assert forall t :: IsReady(r, t) <==> IsReady(s, t);
  }

  lemma CurrentFacts(s: Kernel)
    requires Inv(s)
    ensures s.current in s.priority && Priority(s, s.current) < PRIORITIES && Good(s, {}, 1)
    ensures s.basePriority.Keys == s.priority.Keys
  {
    hide Placement, Bits, WakeOrder, CacheSound, Consistent, Items;
  }

  lemma RetireNoRival(s: Kernel, t: Task)
    requires Inv(s) && NoRival(s) && Live(s, t)
    ensures NoRival(Delete(s, t)) && NoRival(Suspend(s, t))
  {
    hide Good, AttachTo, DetachEvent, Detach, Items;
    RetireGood(s, t, Terminated);
    RetireGood(s, t, Suspended);
    hide Inv;
    OneMoves(s, Delete(s, t), t);
    OneMoves(s, Suspend(s, t), t);
  }

  lemma ReapNoRival(s: Kernel)
    requires Inv(s) && NoRival(s) && Enabled(s, DoReap)
    ensures NoRival(Reap(s))
  {
    hide Good, Detach;
    HeadFacts(s, Terminated, 1);
    var t := Items(s.ls, Terminated)[0].task;
    DetachGood(s, t, {}, 1);
    DetachFrame(s, t);
    ReaderFacts(s);
    OneMoves(s, Reap(s), t);
  }

  lemma ReaderFacts(s: Kernel)
    requires Inv(s) && s.started
    ensures StateItem(s.idle) in s.ls.container && s.ls.container[StateItem(s.idle)].Ready?
  {
    hide Good;
  }

  lemma ReadiedNoRival(s: Kernel, t: Task)
    requires Inv(s) && NoRival(s) && Live(s, t) && EventItem(t) !in s.ls.container
    ensures NoRival(YieldIf(AttachReady(Detach(s, t), t), Priority(s, t) >= Priority(s, s.current)))
  {
    hide Inv, Good, AttachReady, Detach, Items, Moved, NoRival;
    InvParts(s);
    RequeueGood(s, t);
    ReattachedFrame(s, t);
    OneMoves(s, YieldIf(AttachReady(Detach(s, t), t), Priority(s, t) >= Priority(s, s.current)), t);
  }

  lemma ResumeNoRival(s: Kernel, t: Task)
    requires Inv(s) && NoRival(s) && Live(s, t)
    ensures NoRival(Resume(s, t)) && NoRival(ResumeFromISR(s, t))
  {
    hide Inv, NoRival, AttachReady, Detach, AddLast, YieldIf;
    if IsSuspended(s, t) {
      ReadiedNoRival(s, t);
      AddedItem(s.ls, PendingReady, EventItem(t));
      SamePlacesNoRival(s, s.(ls := AddLast(s.ls, PendingReady, EventItem(t))));
    }
  }

  lemma SamePlacesNoRival(s: Kernel, r: Kernel)
    requires NoRival(s) && r == s.(ls := r.ls, yieldPending := r.yieldPending) && (s.yieldPending ==> r.yieldPending)
    requires forall t {:trigger StateItem(t)} :: StateItem(t) in r.ls.container ==>
               StateItem(t) in s.ls.container && r.ls.container[StateItem(t)] == s.ls.container[StateItem(t)]
    ensures NoRival(r)
  {
    assert forall t :: IsReady(r, t) ==> IsReady(s, t);
  }

  lemma SetPriorityNoRival(s: Kernel, t: Task, p: nat)
    requires Inv(s) && NoMutex(s) && NoRival(s) && Enabled(s, DoSetPriority(t, p))
    ensures NoMutex(SetPriority(s, t, p)) && NoRival(SetPriority(s, t, p))
  {
    hide Good, FollowPriority, Requeue, Items;
    TaskFacts(s, t, 1);
    CurrentFacts(s);
    BasesBounded(s);
    var base := s.basePriority[t := Clamp(p)];
    ReprioritisedGood(s, t, Clamp(p), base, Clamp(p));
    if SetPriority(s, t, p) != s {
      OneMoves(s, SetPriority(s, t, p), t);
    }
  }

  lemma BlockNoRival(s: Kernel, s1: Kernel, ticks: nat)
    requires Inv(s) && NoRival(s) && IsReady(s, s.current) && 1 <= ticks < WORD
    requires s1 == s.(ls := s1.ls) && (Good(s1, {s.current}, 1) || Good(s1, {}, 1))
    requires s1.ls.container - {EventItem(s.current)} == s.ls.container - {EventItem(s.current)}
    ensures NoRival(Block(s1, ticks))
  {
    hide Inv, Good, Block, Items, NoRival;
    InvParts(s);
    var t := s.current;
    TaskFacts(s, t, 1);
    OthersStay(s.ls.container, s1.ls.container, EventItem(t));
    OthersStay(s1.ls.container, s.ls.container, EventItem(t));
    if Good(s1, {t}, 1) {
      BlockGood(s1, ticks, {t});
    } else {
      BlockGood(s1, ticks, {});
    }
    OneMoves(s, Block(s1, ticks), t);
  }

  lemma PlaceNoRival(s: Kernel, e: nat, v: nat, ticks: nat)
    requires Inv(s) && NoRival(s) && Enabled(s, DoPlaceOnUnordered(e, v, ticks))
    ensures NoRival(PlaceOnEvent(s, e, ticks)) && NoRival(PlaceOnUnordered(s, e, v, ticks))
  {
    hide Good, Block, AddLast, AddSorted, Items;
    var t := s.current;
    TaskFacts(s, t, 1);
    assert {} + {t} == {t};
    AddEventSortedGood(s, t, Event(e), {}, 1);
    AddSortedFrame(s.ls, Event(e), EventItem(t));
    BlockNoRival(s, s.(ls := AddSorted(s.ls, Event(e), EventItem(t))), ticks);
    var s1 := s.(ls := SetValue(s.ls, EventItem(t), v + VALUE_IN_USE));
    SetValueGood(s, EventItem(t), v + VALUE_IN_USE, {}, 1);
    AddEventLastGood(s1, t, Event(e), {}, 1);
    AddLastFrame(s1.ls, Event(e), EventItem(t));
    BlockNoRival(s, s1.(ls := AddLast(s1.ls, Event(e), EventItem(t))), ticks);
  }

  lemma DelayNoRival(s: Kernel, ticks: nat)
    requires Inv(s) && NoRival(s) && Enabled(s, DoDelay(ticks))
    ensures NoRival(DelayFor(s, ticks))
  {
    hide Good, DelayFor, Items;
    TaskFacts(s, s.current, 1);
    DelayForGood(s, ticks, {});
    OneMoves(s, DelayFor(s, ticks), s.current);
  }

  /** Making one task ready leaves the standing of the others alone. */
  lemma MakeReadyMoves(s: Kernel, r: Kernel, t: Task)
    requires Inv(s) && NoRival(s) && t in s.priority && !StateIn(s, t, Terminated)
    requires var m := MakeReady(s, t); r == m.(yieldPending := r.yieldPending)
    requires s.yieldPending ==> r.yieldPending
    requires r.yieldPending || Priority(s, t) <= Priority(s, s.current)
    ensures NoRival(r)
  {
    hide Good, MakeReady, Items;
    TaskFacts(s, t, 1);
    MakeReadyGood(s, t, 1);
    MakeReadyFrame(s, t);
    OneMoves(s, r, t);
  }

  lemma HeldElsewhere(s: Kernel, t: Task)
    requires Good(s, {}, 1)
    ensures var r := AddLast(Without(s.ls, EventItem(t)), PendingReady, EventItem(t));
            forall u {:trigger StateItem(u)} :: StateItem(u) in r.container ==>
              StateItem(u) in s.ls.container && r.container[StateItem(u)] == s.ls.container[StateItem(u)]
  {
    hide Good, AddLast, Without, Items;
    DetachEventGood(s, t, {}, 1);
    AddedItem(Without(s.ls, EventItem(t)), PendingReady, EventItem(t));
  }

  lemma RemoveFromEventNoRival(s: Kernel, e: nat)
    requires Inv(s) && NoRival(s) && Enabled(s, DoRemoveFromEvent(e))
    ensures NoRival(RemoveFromEvent(s, e))
  {
    hide Inv, Good, MakeReady, AddLast, Without, NoRival, Items;
    InvIsGood(s);
    HeadFacts(s, Event(e), 1);
    var t := Items(s.ls, Event(e))[0].task;
    WaiterFacts(s, t);
    if s.suspendDepth == 0 {
      MakeReadyFrame(s, t);
      MakeReadyMoves(s, RemoveFromEvent(s, e), t);
    } else {
      HeldElsewhere(s, t);
      SamePlacesNoRival(s, RemoveFromEvent(s, e));
    }
  }

  lemma RemoveFromUnorderedNoRival(s: Kernel, t: Task, v: nat)
    requires Inv(s) && NoRival(s) && Enabled(s, DoRemoveFromUnordered(t, v))
    ensures NoRival(RemoveFromUnordered(s, t, v))
  {
    hide Good, MakeReady, Items;
    WaiterFacts(s, t);
    SetEventValueInv(s, t, v + VALUE_IN_USE);
    var s1 := s.(ls := SetValue(s.ls, EventItem(t), v + VALUE_IN_USE));
    OneMoves(s, s1, t);
    MakeReadyFrame(s1, t);
    hide Inv, NoRival;
    MakeReadyMoves(s1, RemoveFromUnordered(s, t, v), t);
  }

  // ----- ticks

  /** A tick that readies a task of at least the running task's priority says so. */
  lemma TickReports(s: Kernel, t: Task)
    requires Good(s, {}, 1) && IsReady(ProcessTick(s), t) && !IsReady(s, t) && !TickSwitches(s)
    ensures Priority(s, t) < Priority(s, s.current)
  {
    hide Good, Items, Due, Wake, Keys, WakesRival, Advanced;
    AdvancedGood(s);
    var s1 := Advanced(s);
    if s1.tick >= s1.unblockTime {
      ExpireGood(s1);
      TickedReports(s1, Expire(s1), t);
    }
  }

  lemma TickedReports(s: Kernel, r: Kernel, t: Task)
    requires Ticked(s, r, Due(s)) && IsReady(r, t) && !IsReady(s, t) && Good(s, {}, 0)
    requires !WakesRival(s, ExpiredCount(Keys(s.ls.value, Items(s.ls, s.delayed)), s.tick))
    ensures Priority(s, t) < Priority(s, s.current)
  {
    hide Good, Items;
    assert StateItem(t) in Items(s.ls, s.delayed)[..Due(s)];
    var i :| 0 <= i < Due(s) && Items(s.ls, s.delayed)[i] == StateItem(t);
  }

  lemma TickNoRival(s: Kernel, r: Kernel)
    requires Inv(s) && NoRival(s)
    requires r == ProcessTick(s).(pendedTicks := r.pendedTicks, interrupts := r.interrupts,
                                  switchRequested := r.switchRequested, yieldPending := r.yieldPending)
    requires (s.switchRequested ==> r.switchRequested) && (s.yieldPending ==> r.yieldPending)
    requires TickSwitches(s) ==> r.switchRequested || r.yieldPending
    ensures NoRival(r)
  {
    hide Good, ProcessTick, TickSwitches, Items;
    ProcessTickFrame(s);
    forall t | IsReady(r, t) && !r.switchRequested && !r.yieldPending ensures Outranks(r, t) {
      if !IsReady(s, t) {
        TickReports(s, t);
      }
    }
  }

  lemma ReleaseHeadNoRival(s: Kernel)
    requires Inv(s) && NoRival(s)
    ensures NoRival(ReleaseHead(s))
  {
    hide Good, MakeReady;
    if Items(s.ls, PendingReady) != [] {
      HeadFacts(s, PendingReady, 1);
      var t := Items(s.ls, PendingReady)[0].task;
      WaiterFacts(s, t);
      MakeReadyFrame(s, t);
      MakeReadyMoves(s, ReleaseHead(s), t);
    }
  }

  lemma {:induction false} ReleasePendingNoRival(s: Kernel, n: nat)
    requires Inv(s) && NoRival(s)
    ensures NoRival(ReleasePending(s, n))
    decreases n
  {
    hide Inv, NoRival, ReleaseHead;
    if n != 0 {
      ReleaseHeadInv(s);
      ReleaseHeadNoRival(s);
      ReleasePendingNoRival(ReleaseHead(s), n - 1);
    }
  }

  lemma CatchUpOneNoRival(s: Kernel)
    requires Inv(s) && NoRival(s)
    ensures NoRival(CatchUpOne(s))
  {
    hide Good, ProcessTick, TickSwitches, Items, NoRival;
    ProcessTickFrame(s);
    TickNoRival(s, CatchUpOne(s));
  }

  lemma {:induction false} CatchUpNoRival(s: Kernel, n: nat)
    requires Inv(s) && s.started && n <= s.pendedTicks && NoRival(s)
    ensures NoRival(CatchUp(s, n))
    decreases n
  {
    hide Inv, NoRival, CatchUpOne;
    if n != 0 {
      CatchUpOneInv(s);
      CatchUpOneNoRival(s);
      CatchUpNoRival(CatchUpOne(s), n - 1);
    }
  }

  lemma FlagsNoRival(s: Kernel, r: Kernel)
    requires NoRival(s)
    requires r == s.(switchRequested := r.switchRequested, yieldPending := r.yieldPending, suspendDepth := r.suspendDepth,
                     pendedTicks := r.pendedTicks, interrupts := r.interrupts)
    requires (s.switchRequested ==> r.switchRequested) && (s.yieldPending ==> r.yieldPending)
    ensures NoRival(r)
  {
    assert forall t :: IsReady(r, t) ==> IsReady(s, t);
  }

  lemma ResumeAllNoRival(s: Kernel)
    requires Inv(s) && s.started && NoRival(s)
    ensures NoRival(ResumeAll(s))
  {
    hide Inv, NoRival, ReleasePending, CatchUp, Items;
    if s.suspendDepth != 0 {
      var s1 := s.(suspendDepth := s.suspendDepth - 1);
      InvFlags(s, s1);
      FlagsNoRival(s, s1);
      if s1.suspendDepth == 0 {
        var n := |Items(s1.ls, PendingReady)|;
        ReleasePendingInv(s1, n);
        ReleasePendingNoRival(s1, n);
        var s2 := ReleasePending(s1, n);
        CatchUpNoRival(s2, s2.pendedTicks);
        FlagsNoRival(CatchUp(s2, s2.pendedTicks), ResumeAll(s));
      }
    }
  }

  lemma TickInterruptNoRival(s: Kernel)
    requires Inv(s) && NoRival(s)
    ensures NoRival(TickInterrupt(s))
  {
    hide Good, ProcessTick, TickSwitches, Items, NoRival;
    if s.suspendDepth == 0 {
      ProcessTickFrame(s);
      TickNoRival(s, TickInterrupt(s));
    } else {
      FlagsNoRival(s, TickInterrupt(s));
    }
  }

  // ----- runs

  lemma TaskStepNoRival(s: Kernel, step: Step)
    requires Inv(s) && NoMutex(s) && NoRival(s) && Enabled(s, step) && IsTaskStep(step) && !step.DoInherit? && !step.DoDisinherit?
    ensures NoRival(Next(s, step))
  {
    hide Inv, NoRival, NoMutex, Create, EndCreate, ResetUnblockTime, Start, Delete, Reap, Suspend, Resume, ResumeFromISR, SetPriority;
    match step
    case DoCreate(t, p) => CreateNoRival(s, t, p);
    case DoEndCreate => EndCreateNoRival(s);
    case DoStart(t) => StartNoRival(s, t);
    case DoDelete(t) => RetireNoRival(s, t);
    case DoResetUnblockTime => ResetNoRival(s);
    case DoReap => ReapNoRival(s);
    case DoSuspend(t) => RetireNoRival(s, t);
    case DoResume(t) => ResumeNoRival(s, t);
    case DoResumeFromISR(t) => ResumeNoRival(s, t);
    case DoSetPriority(t, p) => SetPriorityNoRival(s, t, p);
  }

  lemma BlockStepNoRival(s: Kernel, step: Step)
    requires Inv(s) && NoRival(s) && Enabled(s, step) && IsBlockStep(step)
    ensures NoRival(Next(s, step))
  {
    hide Inv, NoRival, DelayFor, PlaceOnEvent, PlaceOnUnordered, RemoveFromEvent, RemoveFromUnordered, SetValue;
    match step
    case DoDelay(ticks) => DelayNoRival(s, ticks);
    case DoPlaceOnEvent(e, ticks) => PlaceNoRival(s, e, 0, ticks);
    case DoPlaceOnUnordered(e, v, ticks) => PlaceNoRival(s, e, v, ticks);
    case DoRemoveFromEvent(e) => RemoveFromEventNoRival(s, e);
    case DoRemoveFromUnordered(t, v) => RemoveFromUnorderedNoRival(s, t, v);
    case DoResetEventValue => ResetNoRival(s);
  }

  lemma KernelStepNoRival(s: Kernel, step: Step)
    requires Inv(s) && NoRival(s) && Enabled(s, step) && !IsTaskStep(step) && !IsBlockStep(step)
    ensures NoRival(Next(s, step))
  {
    hide Inv, NoRival, TickInterrupt, ResumeAll, SwitchContext, AddEmpty;
    match step
    case DoTick => TickInterruptNoRival(s);
    case DoSuspendAll => FlagsNoRival(s, SuspendAll(s));
    case DoResumeAll => ResumeAllNoRival(s);
    case DoSwitchContext => SwitchContextNoRival(s);
    case DoCreateEventList(e) => EmptyNoRival(s, e);
    case DoMissedYield => FlagsNoRival(s, s.(yieldPending := true));
    case DoYield => FlagsNoRival(s, Yield(s));
  }

  lemma EmptyNoRival(s: Kernel, e: nat)
    requires NoRival(s)
    ensures NoRival(s.(ls := AddEmpty(s.ls, Event(e))))
  {
    hide NoRival;
    SamePlacesNoRival(s, s.(ls := AddEmpty(s.ls, Event(e))));
  }

  /** Every step other than the two of priority inheritance keeps the running task unrivalled. */
  lemma StepNoRival(s: Kernel, step: Step)
    requires Inv(s) && NoMutex(s) && NoRival(s) && Enabled(s, step) && !step.DoInherit? && !step.DoDisinherit?
    ensures NoRival(Next(s, step))
  {
    hide Inv, NoRival, NoMutex, Next, Enabled;
    if IsTaskStep(step) {
      TaskStepNoRival(s, step);
    } else if IsBlockStep(step) {
      BlockStepNoRival(s, step);
    } else {
      KernelStepNoRival(s, step);
    }
  }

  lemma ResetNoRival(s: Kernel)
    requires NoRival(s)
    ensures NoRival(ResetUnblockTime(s)) && NoRival(ResetEventValue(s))
  {
    assert forall t :: IsReady(ResetUnblockTime(s), t) <==> IsReady(s, t);
    assert forall t :: IsReady(ResetEventValue(s), t) <==> IsReady(s, t);
  }

  lemma StartNoRival(s: Kernel, t: Task)
    requires Inv(s) && NoRival(s) && Enabled(s, DoStart(t))
    ensures NoRival(Start(s, t))
  {
    hide Good, Create, Items;
    CreateNoRival(s, t, 0);
    assert forall u :: IsReady(Start(s, t), u) ==> IsReady(Create(s, t, 0), u);
    assert forall u :: Outranks(Create(s, t, 0), u) ==> Outranks(Start(s, t), u);
  }

  lemma SwitchContextNoRival(s: Kernel)
    requires Inv(s) && s.started
    ensures NoRival(SwitchContext(s))
  {
    hide Inv, Highest, AdvanceList;
    if s.suspendDepth == 0 {
      SelectedIsHighest(s);
    }
  }

  lemma StepNoMutex(s: Kernel, step: Step)
    requires Inv(s) && NoMutex(s) && Enabled(s, step) && !step.DoInherit? && !step.DoDisinherit?
    ensures NoMutex(Next(s, step))
  {
    hide Inv, Next;
    if step.DoSetPriority? {
      SetPriorityNoMutex(s, step.t, step.p);
      NextSetPriority(s, step.t, step.p);
    } else if step.DoTick? || step.DoResumeAll? {
      TickNoMutex(s, step);
    } else if step.DoCreate? || step.DoStart? || step.DoReap? {
      TaskStepNoMutex(s, step);
    } else {
      StepSpares(s, step);
    }
  }

  lemma NextSetPriority(s: Kernel, t: Task, p: nat)
    ensures Next(s, DoSetPriority(t, p)) == SetPriority(s, t, p)
  {
    hide SetPriority;
  }

  lemma TaskStepNoMutex(s: Kernel, step: Step)
    requires NoMutex(s) && (step.DoCreate? || step.DoStart? || step.DoReap?)
    ensures NoMutex(Next(s, step))
  {
    hide Without, AddLast, SetValue, Items, Detach, IsReady;
    if step.DoReap? && Items(s.ls, Terminated) != [] {
      DetachFrame(s, Items(s.ls, Terminated)[0].task);
    }
  }

  lemma SetPriorityNoMutex(s: Kernel, t: Task, p: nat)
    requires Inv(s) && NoMutex(s) && Enabled(s, DoSetPriority(t, p))
    ensures NoMutex(SetPriority(s, t, p))
  {
    hide Inv, Good, FollowPriority, Requeue, Items, Clamp, Moved;
    InvParts(s);
    TaskFacts(s, t, 1);
    BasesBounded(s);
    ClampBounded(p);
    ReprioritisedGood(s, t, Clamp(p), s.basePriority[t := Clamp(p)], Clamp(p));
  }

  lemma TickNoMutex(s: Kernel, step: Step)
    requires Inv(s) && NoMutex(s) && Enabled(s, step) && (step.DoTick? || step.DoResumeAll?)
    ensures NoMutex(Next(s, step))
  {
    hide Inv, Good, ProcessTick, TickSwitches, Items, ReleasePending, CatchUp;
    InvIsGood(s);
    if step.DoTick? {
      ProcessTickFrame(s);
    } else if s.suspendDepth == 1 {
      var s1 := s.(suspendDepth := 0);
      InvFlags(s, s1);
      var n := |Items(s1.ls, PendingReady)|;
      ReleasePendingNoMutex(s1, n);
      ReleasePendingInv(s1, n);
      CatchUpNoMutex(ReleasePending(s1, n), s.pendedTicks);
    }
  }

  lemma {:induction false} ReleasePendingNoMutex(s: Kernel, n: nat)
    requires NoMutex(s)
    ensures NoMutex(ReleasePending(s, n))
    decreases n
  {
    hide MakeReady, Items;
    if n != 0 {
      if Items(s.ls, PendingReady) != [] {
        MakeReadyFrame(s, Items(s.ls, PendingReady)[0].task);
      }
      ReleasePendingNoMutex(ReleaseHead(s), n - 1);
    }
  }

  lemma {:induction false} CatchUpNoMutex(s: Kernel, n: nat)
    requires Inv(s) && s.started && n <= s.pendedTicks && NoMutex(s)
    ensures NoMutex(CatchUp(s, n))
    decreases n
  {
    hide Good, ProcessTick, TickSwitches, Items;
    if n != 0 {
      CatchUpOneInv(s);
      ProcessTickFrame(s);
      CatchUpNoMutex(CatchUpOne(s), n - 1);
    }
  }

  predicate WithoutMutexes(steps: seq<Step>) {
    forall i :: 0 <= i < |steps| ==> !steps[i].DoInherit? && !steps[i].DoDisinherit?
  }

  lemma {:induction false} RunNoRival(t: Task, p: nat, steps: seq<Step>)
    requires Legal(Boot(t, p), steps) && WithoutMutexes(steps)
    ensures NoMutex(After(Boot(t, p), steps)) && NoRival(After(Boot(t, p), steps))
    decreases |steps|
  {
    hide Inv, Enabled, Next, NoRival, Boot, NoMutex;
    if steps == [] {
      BootNoRival(t, p);
    } else {
      var init := steps[..|steps| - 1];
      RunNoRival(t, p, init);
      ReachableInv(t, p, init);
      StepNoRival(After(Boot(t, p), init), steps[|steps| - 1]);
      StepNoMutex(After(Boot(t, p), init), steps[|steps| - 1]);
    }
  }

  /** Over every run without mutexes: either a switch has been requested, or the running task has at
      least the priority of every ready task, or it is about to end a creation and will then yield. */
  lemma RunningTaskIsHighest(t: Task, p: nat, steps: seq<Step>, u: Task)
    requires Legal(Boot(t, p), steps) && WithoutMutexes(steps) && IsReady(After(Boot(t, p), steps), u)
    ensures var s := After(Boot(t, p), steps);
            || s.switchRequested || s.yieldPending || Priority(s, u) <= Priority(s, s.current)
            || (Enabled(s, DoEndCreate) && EndCreate(s).switchRequested)
  {
    RunNoRival(t, p, steps);
    hide Legal, After, Boot, NoMutex;
  }

  lemma BootNoRival(t: Task, p: nat)
    ensures NoMutex(Boot(t, p)) && NoRival(Boot(t, p))
  {
    hide EmptyLists;
    assert EmptyLists().container == map[] by { EmptyListsGood(map[]); }
  }
}
