/** Ticks while the scheduler is suspended, selection, and runs: every reachable state of the
    scheduler has the invariant. */
module KernelRuns {
  import opened ListValues
  import opened ItemLists
  import opened Kernels
  import opened KernelInvariants
  import opened KernelSteps
  import opened KernelTicks

  lemma InvIsGood(s: Kernel)
    requires Inv(s)
    ensures Good(s, {}, 1)
  {
  }

  // ----- the remaining steps

  lemma ProcessTickFrame(s: Kernel)
    requires Good(s, {}, 1)
    ensures var r := ProcessTick(s);
            && r == s.(ls := r.ls, readyBits := r.readyBits, topReady := r.topReady, unblockTime := r.unblockTime, tick := r.tick,
                       overflows := r.overflows, delayed := r.delayed, overflow := r.overflow)
            && Items(r.ls, Terminated) == Items(s.ls, Terminated)
            && forall t :: IsReady(s, t) ==> IsReady(r, t)
  {
    hide Good, ProcessTick, Items, Due;
    ProcessTickGood(s);
    AdvancedGood(s);
  }

  lemma ProcessTickInv(s: Kernel, r: Kernel)
    requires Inv(s) && s.started
    requires r == ProcessTick(s).(pendedTicks := r.pendedTicks, interrupts := r.interrupts,
                                  switchRequested := r.switchRequested, yieldPending := r.yieldPending)
    requires r.interrupts - r.pendedTicks == s.interrupts - s.pendedTicks + 1
    ensures Inv(r)
  {
    hide Good, ProcessTick, Items;
    ProcessTickGood(s);
    ProcessTickFrame(s);
    GoodFrame(ProcessTick(s), r, {}, 1);
  }

  lemma TickInterruptInv(s: Kernel)
    requires Inv(s) && s.started
    ensures Inv(TickInterrupt(s))
  {
    hide Good, ProcessTick, TickSwitches, Items;
    if s.suspendDepth == 0 {
      ProcessTickFrame(s);
      ProcessTickInv(s, TickInterrupt(s));
    } else {
      GoodFrame(s, TickInterrupt(s), {}, 1);
    }
  }

  lemma ReleaseHeadInv(s: Kernel)
    requires Inv(s)
    ensures Inv(ReleaseHead(s))
    ensures var r := ReleaseHead(s); r.started == s.started && r.pendedTicks == s.pendedTicks
  {
    hide Good, MakeReady;
    if Items(s.ls, PendingReady) != [] {
      HeadFacts(s, PendingReady, 1);
      var t := Items(s.ls, PendingReady)[0].task;
      WaiterFacts(s, t);
      MakeReadyInv(s, t);
      MakeReadyFrame(s, t);
      hide Inv;
      InvFlags(MakeReady(s, t), ReleaseHead(s));
    }
  }

  lemma {:induction false} ReleasePendingInv(s: Kernel, n: nat)
    requires Inv(s)
    ensures Inv(ReleasePending(s, n))
    ensures var r := ReleasePending(s, n); r.started == s.started && r.pendedTicks == s.pendedTicks
    decreases n
  {
    hide Inv, ReleaseHead;
    if n != 0 {
      ReleaseHeadInv(s);
      ReleasePendingInv(ReleaseHead(s), n - 1);
    }
  }

  lemma CatchUpOneInv(s: Kernel)
    requires Inv(s) && s.started && 0 < s.pendedTicks
    ensures Inv(CatchUpOne(s)) && CatchUpOne(s).started && CatchUpOne(s).pendedTicks == s.pendedTicks - 1
  {
    hide Good, ProcessTick, TickSwitches, Items;
    ProcessTickFrame(s);
    ProcessTickInv(s, CatchUpOne(s));
  }

  lemma {:induction false} CatchUpInv(s: Kernel, n: nat)
    requires Inv(s) && s.started && n <= s.pendedTicks
    ensures Inv(CatchUp(s, n)) && CatchUp(s, n).started && CatchUp(s, n).pendedTicks == s.pendedTicks - n
    decreases n
  {
    hide Inv, CatchUpOne;
    if n != 0 {
      CatchUpOneInv(s);
      CatchUpInv(CatchUpOne(s), n - 1);
    }
  }

  lemma ResumeAllInv(s: Kernel)
    requires Inv(s) && s.started
    ensures Inv(ResumeAll(s))
  {
    hide Inv, ReleasePending, CatchUp, Items;
    if s.suspendDepth != 0 {
      var s1 := s.(suspendDepth := s.suspendDepth - 1);
      InvFlags(s, s1);
      if s1.suspendDepth == 0 {
        var n := |Items(s1.ls, PendingReady)|;
        ReleasePendingInv(s1, n);
        var s2 := ReleasePending(s1, n);
        CatchUpInv(s2, s2.pendedTicks);
        InvFlags(CatchUp(s2, s2.pendedTicks), ResumeAll(s));
      }
    }
  }

  // ----- selecting a task

  // ----- what the steps leave alone

  /** The tick accounts and the priorities are the same. */
  predicate Spares(s: Kernel, r: Kernel) {
    r.pendedTicks == s.pendedTicks && r.interrupts == s.interrupts && r.priority == s.priority && r.basePriority == s.basePriority
  }

  lemma RetireSpares(s: Kernel, t: Task)
    ensures Spares(s, Delete(s, t)) && Spares(s, Suspend(s, t))
  {
    hide AttachTo, DetachEvent, Detach;
    RetireFrame(s, t, Terminated);
    RetireFrame(s, t, Suspended);
  }

  lemma ResumeSpares(s: Kernel, t: Task)
    ensures Spares(s, Resume(s, t)) && Spares(s, ResumeFromISR(s, t))
  {
    hide AttachReady, Detach, AddLast, Moved, IsSuspended;
    ReattachedFrame(s, t);
  }

  lemma BlockSpares(s: Kernel, ticks: nat)
    ensures Spares(s, Block(s, ticks)) && Spares(s, DelayFor(s, ticks))
  {
    hide Detach, AttachDelayed, AddLast;
    DetachFrame(s, s.current);
    AttachDelayedFrame(Detach(s, s.current), s.current, (s.tick + ticks) % WORD);
  }

  lemma PlaceSpares(s: Kernel, e: nat, v: nat, ticks: nat)
    ensures Spares(s, PlaceOnEvent(s, e, ticks)) && Spares(s, PlaceOnUnordered(s, e, v, ticks))
  {
    hide Block, AddLast, AddSorted, SetValue;
    BlockSpares(s.(ls := AddSorted(s.ls, Event(e), EventItem(s.current))), ticks);
    var ls := SetValue(s.ls, EventItem(s.current), v + VALUE_IN_USE);
    BlockSpares(s.(ls := AddLast(ls, Event(e), EventItem(s.current))), ticks);
  }

  lemma RemoveFromEventSpares(s: Kernel, e: nat)
    ensures Spares(s, RemoveFromEvent(s, e))
  {
    hide MakeReady, AddLast, Without, Items, Priority;
    if Items(s.ls, Event(e)) != [] {
      MakeReadyFrame(s, Items(s.ls, Event(e))[0].task);
    }
  }

  lemma RemoveFromUnorderedSpares(s: Kernel, t: Task, v: nat)
    ensures Spares(s, RemoveFromUnordered(s, t, v))
  {
    hide MakeReady, SetValue, Priority;
    MakeReadyFrame(s.(ls := SetValue(s.ls, EventItem(t), v + VALUE_IN_USE)), t);
  }

  lemma EndingSpares(s: Kernel)
    ensures Spares(s, EndCreate(s)) && Spares(s, ResetUnblockTime(s)) && Spares(s, ResetEventValue(s)) && Spares(s, SwitchContext(s))
  {
    hide Items, Key, SetValue, Highest, AdvanceList, List, Priority;
  }

  lemma StepSpares(s: Kernel, step: Step)
    requires !step.DoCreate? && !step.DoStart? && !step.DoReap? && !step.DoTick? && !step.DoResumeAll?
    requires !step.DoSetPriority? && !step.DoInherit? && !step.DoDisinherit?
    ensures Spares(s, Next(s, step))
  {
    hide Spares, Delete, Suspend, Resume, ResumeFromISR, DelayFor, PlaceOnEvent, PlaceOnUnordered, RemoveFromEvent,
      RemoveFromUnordered, EndCreate, ResetUnblockTime, ResetEventValue, SwitchContext, AddEmpty;
    match step
    case DoDelete(t) => RetireSpares(s, t);
    case DoSuspend(t) => RetireSpares(s, t);
    case DoResume(t) => ResumeSpares(s, t);
    case DoResumeFromISR(t) => ResumeSpares(s, t);
    case DoDelay(ticks) => BlockSpares(s, ticks);
    case DoPlaceOnEvent(e, ticks) => PlaceSpares(s, e, 0, ticks);
    case DoPlaceOnUnordered(e, v, ticks) => PlaceSpares(s, e, v, ticks);
    case DoRemoveFromEvent(e) => RemoveFromEventSpares(s, e);
    case DoRemoveFromUnordered(t, v) => RemoveFromUnorderedSpares(s, t, v);
    case _ => QuietStepSpares(s, step);
  }

  lemma QuietStepSpares(s: Kernel, step: Step)
    requires step.DoEndCreate? || step.DoResetUnblockTime? || step.DoResetEventValue? || step.DoSwitchContext?
             || step.DoMissedYield? || step.DoYield? || step.DoSuspendAll? || step.DoCreateEventList?
    ensures Spares(s, Next(s, step))
  {
    hide EndCreate, ResetUnblockTime, ResetEventValue, SwitchContext, AddEmpty;
    EndingSpares(s);
  }

  lemma AdvanceItems(l: ItemList)
    requires 0 < |l.items|
    ensures Advance(l).items == l.items && Advance(l).index <= |l.items|
  {
  }

  lemma MovedCursor(ls: Lists, p: ListId, l: ItemList)
    requires Consistent(ls) && p in ls.contents && l.items == ls.contents[p].items
    ensures var r := ls.(contents := ls.contents[p := l]);
            Consistent(r) && forall q :: Items(r, q) == Items(ls, q)
  {
    hide Distinct;
    var r := ls.(contents := ls.contents[p := l]);
    assert forall q :: Items(r, q) == Items(ls, q);
  }

  /** Moving a cursor changes nothing the invariant looks at. */
  lemma AdvanceFrame(ls: Lists, p: ListId)
    requires Consistent(ls)
    ensures var r := AdvanceList(ls, p);
            && Consistent(r) && r.container == ls.container && r.value == ls.value && r.contents.Keys == ls.contents.Keys
            && forall q :: Items(r, q) == Items(ls, q)
  {
    hide Distinct;
    if Items(ls, p) != [] {
      AdvanceItems(List(ls, p));
      hide Advance;
      MovedCursor(ls, p, Advance(List(ls, p)));
      hide Consistent;
    }
  }

  lemma AdvanceBits(ls: Lists, r: Lists, readyBits: set<nat>, was: nat, top: nat)
    requires Bits(ls.contents, readyBits, was) && r.contents.Keys == ls.contents.Keys && forall q :: Items(r, q) == Items(ls, q)
    requires (forall q :: q in readyBits ==> q <= top) && top < PRIORITIES
    ensures Bits(r.contents, readyBits, top)
  {
    assert forall q :: q in ls.contents ==> r.contents[q].items == Items(r, q) && ls.contents[q].items == Items(ls, q);
    hide Items;
  }

  lemma AdvanceClock(ls: Lists, r: Lists, d: ListId, o: ListId, tick: nat, unblockTime: nat)
    requires WakeOrder(ls, d, o, tick, 1) && CacheSound(ls, d, unblockTime)
    requires r.value == ls.value && r.container == ls.container && forall q :: Items(r, q) == Items(ls, q)
    ensures WakeOrder(r, d, o, tick, 1) && CacheSound(r, d, unblockTime)
  {
    hide Items, Keys, Sorted;
  }

  lemma AdvanceGood(s: Kernel, p: ListId, top: nat)
    requires Good(s, {}, 1) && (forall q :: q in s.readyBits ==> q <= top) && top < PRIORITIES
    ensures Good(s.(ls := AdvanceList(s.ls, p), topReady := top), {}, 1)
    ensures Items(AdvanceList(s.ls, p), Terminated) == Items(s.ls, Terminated)
  {
    hide Placement, Consistent, AdvanceList, WakeOrder, CacheSound, Bits;
    AdvanceFrame(s.ls, p);
    var r := AdvanceList(s.ls, p);
    ShapeStays(s, s.(ls := r, topReady := top));
    AdvanceBits(s.ls, r, s.readyBits, s.topReady, top);
    AdvanceClock(s.ls, r, s.delayed, s.overflow, s.tick, s.unblockTime);
    hide Shape, Items;
  }

  /** The bitmap's highest bit is the highest priority that any ready task has. */
  lemma HighestReady(s: Kernel)
    requires Inv(s) && s.started
    ensures var p := Highest(s.readyBits, PRIORITIES - 1);
            && Items(s.ls, Ready(p)) != [] && p < PRIORITIES
            && (forall q :: q in s.readyBits ==> q <= p)
            && (forall t :: IsReady(s, t) ==> Priority(s, t) <= p)
  {
    hide WakeOrder, CacheSound;
    ReadyBit(s, s.idle);
    forall t | IsReady(s, t) ensures Priority(s, t) in s.readyBits {
      ReadyBit(s, t);
    }
  }

  lemma ReadyBit(s: Kernel, t: Task)
    requires Good(s, {}, 1) && IsReady(s, t)
    ensures StateIn(s, t, Ready(Priority(s, t))) && Priority(s, t) in s.readyBits && Priority(s, t) < PRIORITIES
    ensures StateItem(t) in Items(s.ls, Ready(Priority(s, t)))
  {
    hide WakeOrder, CacheSound;
    var p := s.ls.container[StateItem(t)];
    assert StateItem(t).task in s.priority;
    assert StateItem(t) in s.ls.contents[p].items;
  }

  lemma AdvanceEntry(ls: Lists, p: ListId)
    requires Items(ls, p) != []
    ensures var l := List(AdvanceList(ls, p), p); 0 < l.index && Entry(l) in Items(ls, p)
    ensures AdvanceList(ls, p).container == ls.container
  {
  }

  /** The selected task: ready, with the highest priority of all. */
  lemma SelectedIsHighest(s: Kernel)
    requires Inv(s) && s.started && s.suspendDepth == 0
    ensures var r := SwitchContext(s);
            && r.current in s.priority && IsReady(r, r.current)
            && Priority(r, r.current) == Highest(s.readyBits, PRIORITIES - 1)
            && (forall t :: IsReady(r, t) ==> Priority(r, t) <= Priority(r, r.current))
            && r == s.(yieldPending := false, switchRequested := false, ls := r.ls, topReady := r.topReady, current := r.current)
            && r.ls.container == s.ls.container
  {
    hide Inv, Highest, AdvanceList;
    HighestReady(s);
    var p := Highest(s.readyBits, PRIORITIES - 1);
    AdvanceEntry(s.ls, Ready(p));
    ReadyMember(s, p, Entry(List(AdvanceList(s.ls, Ready(p)), Ready(p))));
    var r := SwitchContext(s);
    forall t | IsReady(r, t) ensures Priority(r, t) <= Priority(r, r.current) {
      assert IsReady(s, t);
    }
  }

  lemma ReadyMember(s: Kernel, p: nat, x: Item)
    requires Inv(s) && x in Items(s.ls, Ready(p))
    ensures x == StateItem(x.task) && In(s.ls, x, Ready(p)) && x.task in s.priority && Priority(s, x.task) == p
  {
    ListFacts(s, Ready(p), 1, x);
    hide Bits, WakeOrder, CacheSound, Consistent;
  }

  lemma SwitchContextInv(s: Kernel)
    requires Inv(s) && s.started
    ensures Inv(SwitchContext(s))
  {
    hide Good, Items, AdvanceList, Highest;
    if s.suspendDepth != 0 {
      InvFlags(s, SwitchContext(s));
    } else {
      HighestReady(s);
      SelectedIsHighest(s);
      var p := Highest(s.readyBits, PRIORITIES - 1);
      AdvanceGood(s, Ready(p), p);
      GoodFrame(s.(ls := AdvanceList(s.ls, Ready(p)), topReady := p), SwitchContext(s), {}, 1);
    }
  }

  lemma AddEmptyParts(ls: Lists, p: ListId)
    requires Consistent(ls) && p !in ls.contents
    ensures var r := AddEmpty(ls, p);
            && Consistent(r) && r.container == ls.container && r.value == ls.value
            && r.contents.Keys == ls.contents.Keys + {p} && forall q :: Items(r, q) == Items(ls, q)
  {
    assert Valid(Empty<Item>());
    hide Distinct;
    var r := AddEmpty(ls, p);
    assert forall q :: Items(r, q) == Items(ls, q);
  }

  lemma AddEmptyGood(s: Kernel, p: ListId)
    requires Good(s, {}, 1) && p !in s.ls.contents && p.Event?
    ensures Good(s.(ls := AddEmpty(s.ls, p)), {}, 1) && Items(AddEmpty(s.ls, p), Terminated) == Items(s.ls, Terminated)
  {
    hide Placement, Consistent, WakeOrder, CacheSound, Bits, AddEmpty;
    AddEmptyParts(s.ls, p);
    var r := AddEmpty(s.ls, p);
    AddEmptyBits(s.ls, p, s.readyBits, s.topReady);
    AdvanceClock(s.ls, r, s.delayed, s.overflow, s.tick, s.unblockTime);
    assert forall q :: q in r.contents <==> q == p || q in s.ls.contents;
    hide Items;
  }

  lemma AddEmptyBits(ls: Lists, p: ListId, readyBits: set<nat>, top: nat)
    requires Bits(ls.contents, readyBits, top) && p !in ls.contents && p.Event?
    ensures Bits(AddEmpty(ls, p).contents, readyBits, top)
  {
  }

  lemma CreateEventListInv(s: Kernel, e: nat)
    requires Inv(s) && Event(e) !in s.ls.contents
    ensures Inv(s.(ls := AddEmpty(s.ls, Event(e))))
  {
    hide Inv, Good, Items;
    InvParts(s);
    AddEmptyGood(s, Event(e));
    InvFromMoved(s, s.(ls := AddEmpty(s.ls, Event(e))));
  }

  // ----- runs

  predicate IsTaskStep(step: Step) {
    step.DoCreate? || step.DoEndCreate? || step.DoStart? || step.DoDelete? || step.DoResetUnblockTime? || step.DoReap?
    || step.DoSuspend? || step.DoResume? || step.DoResumeFromISR? || step.DoSetPriority? || step.DoInherit? || step.DoDisinherit?
  }

  lemma TaskStepInv(s: Kernel, step: Step)
    requires Inv(s) && Enabled(s, step) && IsTaskStep(step)
    ensures Inv(Next(s, step))
  {
    hide Inv, Create, EndCreate, ResetUnblockTime, Start, Delete, Reap, Suspend, Resume, ResumeFromISR, SetPriority, Inherit, Disinherit;
    match step
    case DoCreate(t, p) => CreateInv(s, t, p);
    case DoEndCreate => EndCreateInv(s);
    case DoStart(t) => StartInv(s, t);
    case DoDelete(t) => DeleteInv(s, t);
    case DoResetUnblockTime => ResetUnblockTimeInv(s);
    case DoReap => ReapInv(s);
    case DoSuspend(t) => SuspendInv(s, t);
    case DoResume(t) => ResumeInv(s, t);
    case DoResumeFromISR(t) => ResumeFromISRInv(s, t);
    case DoSetPriority(t, p) => SetPriorityInv(s, t, p);
    case DoInherit(t) => InheritInv(s, t);
    case DoDisinherit => DisinheritInv(s);
  }

  predicate IsBlockStep(step: Step) {
    step.DoDelay? || step.DoPlaceOnEvent? || step.DoPlaceOnUnordered? || step.DoRemoveFromEvent? || step.DoRemoveFromUnordered?
    || step.DoResetEventValue?
  }

  lemma BlockStepInv(s: Kernel, step: Step)
    requires Inv(s) && Enabled(s, step) && IsBlockStep(step)
    ensures Inv(Next(s, step))
  {
    hide Inv, DelayFor, PlaceOnEvent, PlaceOnUnordered, RemoveFromEvent, RemoveFromUnordered;
    match step
    case DoDelay(ticks) => DelayForInv(s, ticks);
    case DoPlaceOnEvent(e, ticks) => PlaceOnEventInv(s, e, ticks);
    case DoPlaceOnUnordered(e, v, ticks) => PlaceOnUnorderedInv(s, e, v, ticks);
    case DoRemoveFromEvent(e) => RemoveFromEventInv(s, e);
    case DoRemoveFromUnordered(t, v) => RemoveFromUnorderedInv(s, t, v);
    case DoResetEventValue =>
      SetEventValueInv(s, s.current, if Priority(s, s.current) <= PRIORITIES then PRIORITIES - Priority(s, s.current) else 0);
  }

  lemma KernelStepInv(s: Kernel, step: Step)
    requires Inv(s) && Enabled(s, step) && !IsTaskStep(step) && !IsBlockStep(step)
    ensures Inv(Next(s, step))
  {
    hide Inv, TickInterrupt, ResumeAll, SwitchContext;
    match step
    case DoMissedYield => InvFlags(s, Next(s, step));
    case DoYield => InvFlags(s, Next(s, step));
    case DoTick => TickInterruptInv(s);
    case DoSuspendAll => InvFlags(s, Next(s, step));
    case DoResumeAll => ResumeAllInv(s);
    case DoSwitchContext => SwitchContextInv(s);
    case DoCreateEventList(e) => CreateEventListInv(s, e);
  }

  lemma StepInv(s: Kernel, step: Step)
    requires Inv(s) && Enabled(s, step)
    ensures Inv(Next(s, step))
  {
    hide Inv, Next, Enabled;
    if IsTaskStep(step) {
      TaskStepInv(s, step);
    } else if IsBlockStep(step) {
      BlockStepInv(s, step);
    } else {
      KernelStepInv(s, step);
    }
  }

  lemma EmptyAre(value: map<Item, nat>)
    ensures var ls := EmptyLists().(value := value);
            && ls.container == map[] && (forall p :: p in ls.contents ==> ls.contents[p] == Empty())
            && (forall p: nat {:trigger Ready(p)} :: Ready(p) in ls.contents <==> p < PRIORITIES)
            && (forall p :: Items(ls, p) == [])
  {
  }

  lemma NothingSorted(ls: Lists, p: ListId)
    requires Items(ls, p) == []
    ensures SortedList(ls, p)
  {
  }

  lemma NothingListed(ls: Lists)
    requires ls.container == map[] && forall p :: p in ls.contents ==> ls.contents[p] == Empty()
    ensures Consistent(ls) && Bits(ls.contents, {}, 0)
  {
  }

  lemma NothingDelayed(ls: Lists)
    requires ls.container == map[] && forall p :: Items(ls, p) == []
    ensures WakeOrder(ls, DelayedA, DelayedB, 0, 1) && CacheSound(ls, DelayedA, MAX_DELAY)
  {
    NothingSorted(ls, DelayedA);
    NothingSorted(ls, DelayedB);
    hide SortedList;
  }

  lemma EmptyListsGood(value: map<Item, nat>)
    ensures var ls := EmptyLists().(value := value);
            && Consistent(ls) && ls.container == map[]
            && (forall p: nat {:trigger Ready(p)} :: Ready(p) in ls.contents <==> p < PRIORITIES)
            && (forall p :: Items(ls, p) == [])
            && Bits(ls.contents, {}, 0) && WakeOrder(ls, DelayedA, DelayedB, 0, 1) && CacheSound(ls, DelayedA, MAX_DELAY)
  {
    var ls := EmptyLists().(value := value);
    EmptyAre(value);
    hide EmptyLists, Consistent, Bits, WakeOrder, CacheSound, Items;
    NothingListed(ls);
    NothingDelayed(ls);
  }

  lemma OthersExist(value: map<Item, nat>)
    ensures var ls := EmptyLists().(value := value);
            DelayedA in ls.contents && DelayedB in ls.contents && Suspended in ls.contents && Terminated in ls.contents && PendingReady in ls.contents
  {
  }

  lemma NothingPlaced(priority: map<Task, nat>, moving: set<Task>)
    requires priority.Keys == moving
    ensures Placement(map[], priority, moving)
  {
  }

  lemma UnplacedGood(s: Kernel, t: Task)
    requires exists value :: s.ls == EmptyLists().(value := value)
    requires s.priority.Keys == s.basePriority.Keys == {t} && s.priority[t] < PRIORITIES && s.basePriority[t] < PRIORITIES
    requires s.delayed == DelayedA && s.overflow == DelayedB && s.tick == 0 && s.unblockTime == MAX_DELAY
    requires s.readyBits == {} && s.topReady == 0
    ensures Good(s, {t}, 1) && StateItem(t) !in s.ls.container && EventItem(t) !in s.ls.container && Items(s.ls, Terminated) == []
  {
    hide Bits, WakeOrder, CacheSound, Consistent, EmptyLists, Items, Placement;
    var value :| s.ls == EmptyLists().(value := value);
    EmptyListsGood(value);
    OthersExist(value);
    NothingPlaced(s.priority, {t});
  }

  lemma BootInv(t: Task, p: nat)
    ensures Inv(Boot(t, p)) && !Boot(t, p).started
  {
    hide Good, AttachReady, EmptyLists;
    var s0 := Kernel(SetValue(EmptyLists(), EventItem(t), PRIORITIES - Clamp(p)), map[t := Clamp(p)], map[t := Clamp(p)],
                     t, t, false, 0, DelayedA, DelayedB, 0, 0, MAX_DELAY, 0, 0, {}, 0, 1, 0, false, false, map[]);
    assert s0.ls == EmptyLists().(value := s0.ls.value);
    UnplacedGood(s0, t);
    assert {t} - {t} == {};
    AttachReadyGood(s0, t, {t}, 1);
    AttachReadyFrame(s0, t);
    assert Boot(t, p) == AttachReady(s0, t);
  }

  /** The state after a run, and whether the run is one the source allows. */
  function After(s: Kernel, steps: seq<Step>): Kernel {
    if steps == [] then s else Next(After(s, steps[..|steps| - 1]), steps[|steps| - 1])
  }

  predicate Legal(s: Kernel, steps: seq<Step>) {
    steps == [] || (Legal(s, steps[..|steps| - 1]) && Enabled(After(s, steps[..|steps| - 1]), steps[|steps| - 1]))
  }

  lemma {:induction false} RunInv(s: Kernel, steps: seq<Step>)
    requires Inv(s) && Legal(s, steps)
    ensures Inv(After(s, steps))
  {
    hide Inv, Enabled, Next;
    if steps != [] {
      RunInv(s, steps[..|steps| - 1]);
      StepInv(After(s, steps[..|steps| - 1]), steps[|steps| - 1]);
    }
  }

  /** Every state that any interleaving of task calls, interrupts and ticks can reach. */
  lemma ReachableInv(t: Task, p: nat, steps: seq<Step>)
    requires Legal(Boot(t, p), steps)
    ensures Inv(After(Boot(t, p), steps))
  {
    BootInv(t, p);
    RunInv(Boot(t, p), steps);
  }
}
