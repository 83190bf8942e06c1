/** Blocking and waking undo one another, a suspended scheduler delivers the wake-ups it has held,
    and event item values follow priorities. */
module KernelEvents {
  import opened ListValues
  import opened ItemLists
  import opened Kernels
  import opened KernelInvariants
  import opened KernelSteps
  import opened KernelTicks
  import opened KernelRuns
  import opened KernelTime
  import opened KernelPriority

  // ----- suspending and resuming

  /** A suspended task is suspended for good, whatever it was waiting for before, until it is resumed;
      then it is ready, and on no event list. */
  lemma ResumeUndoesSuspend(s: Kernel, t: Task)
    requires Inv(s) && Enabled(s, DoSuspend(t)) && t != s.current
    ensures var r := Suspend(s, t);
            && IsSuspended(r, t) && !IsReady(r, t) && !Timed(r, t)
            && StateIn(Resume(r, t), t, Ready(Priority(s, t))) && EventItem(t) !in Resume(r, t).ls.container
  {
    hide Good, AttachTo, DetachEvent, Detach, AttachReady, Items;
    RetireGood(s, t, Suspended);
    TickBound(s);
    var r := Suspend(s, t);
    SuspendInv(s, t);
    RequeueGood(r, t);
  }

  // ----- waiting for an event

  /** Blocking moves the running task's state item and nothing else. */
  lemma BlockElsewhere(s: Kernel, ticks: nat, p: ListId)
    requires !In(s.ls, StateItem(s.current), p) && p != s.delayed && p != s.overflow && p != Suspended
    ensures Items(Block(s, ticks).ls, p) == Items(s.ls, p)
  {
    hide Without, AddSorted, AddLast, SetValue, Detach;
    DetachElsewhere(s, s.current, p);
    DetachFrame(s, s.current);
    var s1 := Detach(s, s.current);
    AttachDelayedElsewhere(s1, s.current, (s.tick + ticks) % WORD, p);
    AddLastFrame(s1.ls, Suspended, StateItem(s.current));
  }

  lemma BlockPlace(s: Kernel, ticks: nat)
    ensures StateItem(s.current) in Block(s, ticks).ls.container
    ensures Block(s, ticks).ls.container[StateItem(s.current)] ==
            if ticks == MAX_DELAY then Suspended else if (s.tick + ticks) % WORD < s.tick then s.overflow else s.delayed
  {
    hide Detach, AttachDelayed, AddLast;
    DetachFrame(s, s.current);
    AttachDelayedFrame(Detach(s, s.current), s.current, (s.tick + ticks) % WORD);
    AddLastFrame(Detach(s, s.current).ls, Suspended, StateItem(s.current));
  }

  lemma DetachElsewhere(s: Kernel, t: Task, p: ListId)
    requires !In(s.ls, StateItem(t), p)
    ensures Items(Detach(s, t).ls, p) == Items(s.ls, p)
  {
  }

  lemma AddSortedElsewhere(ls: Lists, p: ListId, x: Item, q: ListId)
    requires p != q
    ensures Items(AddSorted(ls, p, x), q) == Items(ls, q)
  {
    hide FirstGreater, Keys, InsertBefore;
  }

  lemma AttachDelayedLists(s: Kernel, t: Task, wake: nat)
    ensures AttachDelayed(s, t, wake).ls ==
            AddSorted(SetValue(s.ls, StateItem(t), wake), if wake < s.tick then s.overflow else s.delayed, StateItem(t))
  {
    hide AddSorted, SetValue;
  }

  lemma AttachDelayedElsewhere(s: Kernel, t: Task, wake: nat, p: ListId)
    requires p != s.delayed && p != s.overflow
    ensures Items(AttachDelayed(s, t, wake).ls, p) == Items(s.ls, p)
  {
    var ls := SetValue(s.ls, StateItem(t), wake);
    assert Items(ls, p) == Items(s.ls, p);
    hide AddSorted, Items, SetValue, AttachDelayed;
    AttachDelayedLists(s, t, wake);
    AddSortedElsewhere(ls, if wake < s.tick then s.overflow else s.delayed, StateItem(t), p);
  }

  /** The running task waits: its event item is in the event list, at the place its value gives it, and
      it is no longer ready. */
  lemma WaitingForEvent(s: Kernel, e: nat, ticks: nat)
    requires Inv(s) && Enabled(s, DoPlaceOnEvent(e, ticks))
    ensures var r := PlaceOnEvent(s, e, ticks);
            && In(r.ls, EventItem(s.current), Event(e)) && !IsReady(r, s.current)
            && Items(r.ls, Event(e)) == Items(AddSorted(s.ls, Event(e), EventItem(s.current)), Event(e))
            && (ticks == MAX_DELAY <==> StateIn(r, s.current, Suspended))
            && (ticks != MAX_DELAY ==> Timed(r, s.current) && Deadline(r, s.current) == Now(s) + ticks)
  {
    hide Inv, Good, AddSorted, Block, Items, Deadline, Timed;
    InvParts(s);
    if ticks != MAX_DELAY {
      TimeoutSetsDeadline(s, e, ticks);
    }
    var t := s.current;
    TaskFacts(s, t, 1);
    AddEventSortedGood(s, t, Event(e), {}, 1);
    AddedItem(s.ls, Event(e), EventItem(t));
    assert {} + {t} == {t};
    var s1 := s.(ls := AddSorted(s.ls, Event(e), EventItem(t)));
    TickBound(s);
    BlockGood(s1, ticks, {t});
    BlockPlace(s1, ticks);
    BlockElsewhere(s1, ticks, Event(e));
  }

  /** Nobody else's event item is touched. */
  ghost predicate OthersWait(s: Kernel, r: Kernel, t: Task) {
    forall u {:trigger EventItem(u)} :: u != t ==>
      (EventItem(u) in r.ls.container <==> EventItem(u) in s.ls.container)
      && (EventItem(u) in s.ls.container ==> r.ls.container[EventItem(u)] == s.ls.container[EventItem(u)])
  }

  /** The head waiter is woken at once. */
  lemma HeadIsWoken(s: Kernel, e: nat)
    requires Inv(s) && Items(s.ls, Event(e)) != [] && s.suspendDepth == 0
    ensures var t := Items(s.ls, Event(e))[0].task;
            var r := RemoveFromEvent(s, e);
            && StateIn(r, t, Ready(Priority(s, t))) && EventItem(t) !in r.ls.container
            && OthersWait(s, r, t)
            && (Priority(s, t) > Priority(s, s.current) ==> r.yieldPending)
  {
    hide Good, MakeReady, AddLast, Without, Items;
    HeadFacts(s, Event(e), 1);
    var t := Items(s.ls, Event(e))[0].task;
    WaiterFacts(s, t);
    hide Inv;
    MakeReadyGood(s, t, 1);
    MakeReadyFrame(s, t);
  }

  /** While the scheduler is suspended it is held in the pending-ready list. */
  lemma HeadIsHeld(s: Kernel, e: nat)
    requires Inv(s) && Items(s.ls, Event(e)) != [] && s.suspendDepth != 0
    ensures var t := Items(s.ls, Event(e))[0].task;
            var r := RemoveFromEvent(s, e);
            && Pending(r, t) && OthersWait(s, r, t)
            && (Priority(s, t) > Priority(s, s.current) ==> r.yieldPending)
  {
    hide Good, MakeReady, AddLast, Without, Items;
    HeadFacts(s, Event(e), 1);
    var t := Items(s.ls, Event(e))[0].task;
    WaiterFacts(s, t);
    hide Inv;
    DetachEventGood(s, t, {}, 1);
    AddLastFrame(DetachEvent(s, t).ls, PendingReady, EventItem(t));
  }

  // ----- wake-ups held while the scheduler is suspended

  lemma ReadiedPlaces(s: Kernel, r: Kernel, t: Task)
    requires r.ls.container == (s.ls.container - {EventItem(t)})[StateItem(t) := Ready(Priority(s, t))]
    ensures forall u :: Pending(s, u) ==> Pending(r, u) || IsReady(r, u)
    ensures forall u :: IsReady(s, u) ==> IsReady(r, u)
  {
    hide Priority;
  }

  lemma ReleaseHeadDelivers(s: Kernel)
    requires Inv(s) && Items(s.ls, PendingReady) != []
    ensures var r := ReleaseHead(s);
            && |Items(r.ls, PendingReady)| == |Items(s.ls, PendingReady)| - 1
            && (forall t :: Pending(s, t) ==> Pending(r, t) || IsReady(r, t))
            && (forall t :: IsReady(s, t) ==> IsReady(r, t))
  {
    hide Inv, Good, Items, MakeReady;
    InvIsGood(s);
    HeadFacts(s, PendingReady, 1);
    var t := Items(s.ls, PendingReady)[0].task;
    PendingShrinks(s, t);
    WaiterFacts(s, t);
    MakeReadyGood(s, t, 1);
    var r := ReleaseHead(s);
    ReadiedPlaces(s, r, t);
  }

  lemma PendingShrinks(s: Kernel, t: Task)
    requires Inv(s) && In(s.ls, EventItem(t), PendingReady)
    ensures |Items(MakeReady(s, t).ls, PendingReady)| == |Items(s.ls, PendingReady)| - 1
  {
    hide Inv, Good, Consistent, Without, AddLast;
    InvConsistent(s);
    InvIsGood(s);
    WaiterFacts(s, t);
    WithoutConsistent(s.ls, EventItem(t));
    var ls := Without(s.ls, EventItem(t));
    assert StateItem(t) in ls.container && ls.container[StateItem(t)] == s.ls.container[StateItem(t)];
    WithoutConsistent(ls, StateItem(t));
    AddLastFrame(Without(ls, StateItem(t)), Ready(Priority(s, t)), StateItem(t));
  }

  lemma InvConsistent(s: Kernel)
    requires Inv(s)
    ensures Consistent(s.ls)
  {
    hide Placement, Bits, WakeOrder, CacheSound, Consistent;
  }

  lemma {:induction false} ReleasePendingDelivers(s: Kernel, n: nat)
    requires Inv(s) && n == |Items(s.ls, PendingReady)|
    ensures var r := ReleasePending(s, n);
            && Items(r.ls, PendingReady) == []
            && (forall t :: Pending(s, t) || IsReady(s, t) ==> IsReady(r, t))
    decreases n
  {
    hide Inv, ReleaseHead, Items, IsReady;
    if n == 0 {
      NonePending(s);
    } else {
      ReleaseHeadInv(s);
      ReleaseHeadDelivers(s);
      ReleasePendingDelivers(ReleaseHead(s), n - 1);
    }
  }

  lemma NonePending(s: Kernel)
    requires Inv(s) && Items(s.ls, PendingReady) == []
    ensures forall t :: !Pending(s, t)
  {
    InvConsistent(s);
    hide Inv;
    MembersMatch(s.ls);
    forall t ensures !Pending(s, t) {
      assert In(s.ls, EventItem(t), PendingReady) ==> EventItem(t) in Items(s.ls, PendingReady);
    }
  }

  lemma {:induction false} CatchUpKeepsReady(s: Kernel, n: nat)
    requires Inv(s) && s.started && n <= s.pendedTicks
    ensures forall t :: IsReady(s, t) ==> IsReady(CatchUp(s, n), t)
    decreases n
  {
    forall t | IsReady(s, t) ensures IsReady(CatchUp(s, n), t) {
      hide Inv, IsReady, CatchUp;
      CatchUpReady(s, n, t);
    }
  }

  /** When the last suspension ends, every task woken by an interrupt meanwhile is ready, and stays so
      through the deferred ticks; no tick is left deferred. */
  lemma ResumeAllDelivers(s: Kernel, t: Task)
    requires Inv(s) && s.started && s.suspendDepth == 1 && Pending(s, t)
    ensures IsReady(ResumeAll(s), t) && ResumeAll(s).pendedTicks == 0
  {
    hide Inv, ReleasePending, CatchUp, Items;
    var s1 := s.(suspendDepth := 0);
    InvFlags(s, s1);
    var n := |Items(s1.ls, PendingReady)|;
    assert Pending(s1, t);
    ReleasePendingDelivers(s1, n);
    ReleasePendingInv(s1, n);
    var s2 := ReleasePending(s1, n);
    CatchUpInv(s2, s2.pendedTicks);
    CatchUpKeepsReady(s2, s2.pendedTicks);
  }

  // ----- event item values

  /** Unless it is in use for something else, a task's event item value is its priority, in reverse. */
  ghost predicate ValuesFollow(s: Kernel) {
    forall t :: t in s.priority && Key(s.ls.value, EventItem(t)) < VALUE_IN_USE ==>
      Key(s.ls.value, EventItem(t)) == PRIORITIES - s.priority[t]
  }

  /** The operations that move items write no event item's value. */
  lemma MovesLeaveValues()
    ensures forall s: Kernel, t: Task :: Detach(s, t).ls.value == s.ls.value && DetachEvent(s, t).ls.value == s.ls.value
    ensures forall s: Kernel, t: Task :: AttachReady(s, t).ls.value == s.ls.value
    ensures forall s: Kernel, t: Task, wake: nat :: AttachDelayed(s, t, wake).ls.value == s.ls.value[StateItem(t) := wake]
    ensures forall ls: Lists, p: ListId, x: Item :: AddLast(ls, p, x).value == ls.value && AddSorted(ls, p, x).value == ls.value
    ensures forall ls: Lists, x: Item :: Without(ls, x).value == ls.value
  {
  }

  lemma SameFollow(s: Kernel, r: Kernel)
    requires ValuesFollow(s)
    requires forall t {:trigger t in r.priority} :: t in r.priority ==> t in s.priority && r.priority[t] == s.priority[t]
    requires forall t {:trigger EventItem(t)} :: Key(r.ls.value, EventItem(t)) == Key(s.ls.value, EventItem(t))
    ensures ValuesFollow(r)
  {
    hide Key;
  }

  predicate WritesNoValue(step: Step) {
    step.DoDelete? || step.DoReap? || step.DoSuspend? || step.DoResume? || step.DoResumeFromISR? || step.DoDelay?
    || step.DoPlaceOnEvent? || step.DoRemoveFromEvent? || step.DoMissedYield? || step.DoYield? || step.DoSuspendAll?
    || step.DoSwitchContext? || step.DoCreateEventList? || step.DoEndCreate? || step.DoResetUnblockTime?
  }

  lemma QuietFollow(s: Kernel, step: Step)
    requires ValuesFollow(s) && WritesNoValue(step)
    ensures ValuesFollow(Next(s, step))
  {
    hide Next, WritesNoValue, Key;
    QuietFrame(s, step);
    SameFollow(s, Next(s, step));
  }

  /** No priority and no event item value is written. */
  ghost predicate Unwritten(s: Kernel, r: Kernel) {
    && (forall t {:trigger t in r.priority} :: t in r.priority ==> t in s.priority && r.priority[t] == s.priority[t])
    && (forall t {:trigger EventItem(t)} :: Key(r.ls.value, EventItem(t)) == Key(s.ls.value, EventItem(t)))
  }

  lemma QuietFrame(s: Kernel, step: Step)
    requires WritesNoValue(step)
    ensures Unwritten(s, Next(s, step))
  {
    hide Key, Next, Spares;
    if step.DoReap? {
      ReapUnwritten(s);
    } else {
      StepSpares(s, step);
      QuietValues(s, step);
      SparedUnwritten(s, Next(s, step));
    }
  }

  ghost predicate SameValues(s: Kernel, r: Kernel) {
    forall t {:trigger EventItem(t)} :: Key(r.ls.value, EventItem(t)) == Key(s.ls.value, EventItem(t))
  }

  lemma SparedUnwritten(s: Kernel, r: Kernel)
    requires Spares(s, r) && SameValues(s, r)
    ensures Unwritten(s, r)
  {
    hide Key;
  }

  lemma ReapUnwritten(s: Kernel)
    ensures Unwritten(s, Next(s, DoReap))
  {
    hide Detach, Items, Key;
    if Items(s.ls, Terminated) != [] {
      DetachValue(s, Items(s.ls, Terminated)[0].task);
      DetachFrame(s, Items(s.ls, Terminated)[0].task);
    }
  }

  /** Removals write no value. */
  lemma DetachValue(s: Kernel, t: Task)
    ensures Detach(s, t).ls.value == s.ls.value && DetachEvent(s, t).ls.value == s.ls.value
  {
    hide Items;
  }

  lemma RetireValue(s: Kernel, t: Task)
    ensures SameValues(s, Delete(s, t)) && SameValues(s, Suspend(s, t))
  {
    hide Detach, DetachEvent, AddLast;
    DetachValue(s, t);
    DetachValue(Detach(s, t), t);
    AddedItem(DetachEvent(Detach(s, t), t).ls, Terminated, StateItem(t));
    AddedItem(DetachEvent(Detach(s, t), t).ls, Suspended, StateItem(t));
  }

  lemma ReattachedValue(s: Kernel, t: Task)
    ensures AttachReady(Detach(s, t), t).ls.value == s.ls.value
  {
    hide Detach, AddLast;
    DetachValue(s, t);
    AddedItem(Detach(s, t).ls, Ready(Priority(Detach(s, t), t)), StateItem(t));
  }

  lemma UnchangedValues(s: Kernel, r: Kernel)
    requires r.ls.value == s.ls.value
    ensures SameValues(s, r)
  {
    hide Key;
  }

  lemma ResumeValue(s: Kernel, t: Task)
    ensures SameValues(s, Resume(s, t))
  {
    hide Detach, AttachReady, IsSuspended, SameValues, Priority;
    ReattachedValue(s, t);
    UnchangedValues(s, Resume(s, t));
  }

  lemma ResumeFromISRValue(s: Kernel, t: Task)
    ensures SameValues(s, ResumeFromISR(s, t))
  {
    hide Detach, AttachReady, AddLast, IsSuspended, SameValues, Priority;
    ReattachedValue(s, t);
    AddedItem(s.ls, PendingReady, EventItem(t));
    UnchangedValues(s, ResumeFromISR(s, t));
  }

  lemma RemoveFromEventValue(s: Kernel, e: nat)
    ensures SameValues(s, RemoveFromEvent(s, e))
  {
    hide MakeReady, AddLast, Without, Items;
    if Items(s.ls, Event(e)) != [] {
      var t := Items(s.ls, Event(e))[0].task;
      MakeReadyValues(s, t);
      DetachValue(s, t);
      AddedItem(Without(s.ls, EventItem(t)), PendingReady, EventItem(t));
    }
  }

  lemma BlockIsDelay(s: Kernel, ticks: nat)
    requires ticks != MAX_DELAY
    ensures Block(s, ticks) == DelayFor(s, ticks)
  {
    hide Detach, AttachDelayed;
  }

  lemma DelayedValues(s: Kernel, ticks: nat)
    ensures SameValues(s, DelayFor(s, ticks))
  {
    hide Detach, AttachDelayed;
    DetachValue(s, s.current);
    AttachDelayedFrame(Detach(s, s.current), s.current, (s.tick + ticks) % WORD);
    var r := DelayFor(s, ticks);
    assert r.ls.value == s.ls.value[StateItem(s.current) := (Detach(s, s.current).tick + ticks) % WORD] by { DetachFrame(s, s.current); }
  }

  /** Blocking writes the value of a state item only. */
  lemma BlockValues(s: Kernel, ticks: nat)
    ensures SameValues(s, Block(s, ticks)) && SameValues(s, DelayFor(s, ticks))
  {
    hide SameValues, DelayFor;
    var s1 := Detach(s, s.current);
    if ticks == MAX_DELAY {
      WrittenNowhere(s, AttachTo(s1, s.current, Suspended)) by {
        hide Detach, AddLast;
        DetachValue(s, s.current);
        AddedItem(s1.ls, Suspended, StateItem(s.current));
      }
      hide Detach, AttachTo;
    } else {
      hide Detach, AttachDelayed;
      assert Block(s, ticks) == DelayFor(s, ticks) by { BlockIsDelay(s, ticks); }
    }
    DelayedValues(s, ticks);
  }

  lemma PlaceValues(s: Kernel, e: nat, ticks: nat)
    ensures SameValues(s, PlaceOnEvent(s, e, ticks))
  {
    hide Block, AddSorted, Key;
    AddedItem(s.ls, Event(e), EventItem(s.current));
    BlockValues(s.(ls := AddSorted(s.ls, Event(e), EventItem(s.current))), ticks);
  }

  lemma EndingValue(s: Kernel)
    ensures SameValues(s, EndCreate(s)) && SameValues(s, ResetUnblockTime(s)) && SameValues(s, SwitchContext(s))
  {
    hide Items, Key, Highest, List, Priority;
  }

  lemma WrittenNowhere(s: Kernel, r: Kernel)
    requires r.ls.value == s.ls.value
    ensures SameValues(s, r)
  {
  }

  lemma QuietFlags(s: Kernel, step: Step)
    requires step.DoSwitchContext? || step.DoEndCreate? || step.DoResetUnblockTime? || step.DoMissedYield? || step.DoYield?
             || step.DoSuspendAll? || step.DoCreateEventList?
    ensures SameValues(s, Next(s, step))
  {
    hide SameValues, SwitchContext, EndCreate, ResetUnblockTime;
    match step
    case DoMissedYield => WrittenNowhere(s, s.(yieldPending := true));
    case DoYield => WrittenNowhere(s, Yield(s));
    case DoSuspendAll => WrittenNowhere(s, SuspendAll(s));
    case DoCreateEventList(e) => WrittenNowhere(s, s.(ls := AddEmpty(s.ls, Event(e))));
    case _ => EndingValue(s);
  }

  lemma QuietValues(s: Kernel, step: Step)
    requires WritesNoValue(step) && !step.DoReap?
    ensures SameValues(s, Next(s, step))
  {
    hide SameValues, Delete, Suspend, Resume, ResumeFromISR, DelayFor, PlaceOnEvent, RemoveFromEvent, SwitchContext, EndCreate,
      ResetUnblockTime;
    match step
    case DoDelete(t) => RetireValue(s, t);
    case DoSuspend(t) => RetireValue(s, t);
    case DoResume(t) => ResumeValue(s, t);
    case DoResumeFromISR(t) => ResumeFromISRValue(s, t);
    case DoDelay(ticks) => BlockValues(s, ticks);
    case DoPlaceOnEvent(e, ticks) => PlaceValues(s, e, ticks);
    case DoRemoveFromEvent(e) => RemoveFromEventValue(s, e);
    case _ =>
      hide Next;
      QuietFlags(s, step);
  }

  lemma MovesLeavePriorities()
    ensures forall s: Kernel, t: Task :: Detach(s, t).priority == s.priority && DetachEvent(s, t).priority == s.priority
    ensures forall s: Kernel, t: Task :: AttachReady(s, t).priority == s.priority
    ensures forall s: Kernel, t: Task, wake: nat :: AttachDelayed(s, t, wake).priority == s.priority
    ensures forall s: Kernel, t: Task :: Detach(s, t).current == s.current
  {
    hide Without, AddLast, AddSorted, Items, SetValue;
  }

  lemma CreateFollows(s: Kernel, t: Task, p: nat)
    requires ValuesFollow(s)
    ensures ValuesFollow(Create(s, t, p))
  {
    hide AttachReady;
    MovesLeaveValues();
    MovesLeavePriorities();
  }

  lemma StartFollows(s: Kernel, t: Task)
    requires ValuesFollow(s)
    ensures ValuesFollow(Start(s, t))
  {
    CreateFollows(s, t, 0);
    hide Create, ValuesFollow, Key;
    SameFollow(Create(s, t, 0), Start(s, t));
  }

  lemma FollowPriorityFollows(s: Kernel, t: Task, p: nat, q: nat)
    requires t in s.priority && s.priority[t] == p == q && q <= PRIORITIES
    requires forall u :: u in s.priority && u != t && Key(s.ls.value, EventItem(u)) < VALUE_IN_USE ==>
               Key(s.ls.value, EventItem(u)) == PRIORITIES - s.priority[u]
    ensures ValuesFollow(FollowPriority(s, t, q))
  {
  }

  lemma SetPriorityFollows(s: Kernel, t: Task, p: nat)
    requires Inv(s) && NoMutex(s) && ValuesFollow(s) && Enabled(s, DoSetPriority(t, p))
    ensures ValuesFollow(SetPriority(s, t, p))
  {
    hide Good, FollowPriority, Requeue, Key;
    TaskFacts(s, t, 1);
    var s1 := s.(priority := s.priority[t := Clamp(p)], basePriority := s.basePriority[t := Clamp(p)]);
    FollowPriorityFollows(s1, t, Clamp(p), Clamp(p));
    var s2 := FollowPriority(s1, t, Clamp(p));
    var r := Requeue(s2, t, Priority(s, t));
    RequeueValues(s2, t, Priority(s, t));
    SetPriorityIs(s, t, p, r);
    hide SetPriority, Inv;
    SameFollow(s2, r);
    SameFollow(r, Yield(r));
  }

  lemma RequeueValues(s: Kernel, t: Task, was: nat)
    ensures Requeue(s, t, was).ls.value == s.ls.value && Requeue(s, t, was).priority == s.priority
  {
    hide Detach, AttachReady;
    MovesLeaveValues();
    MovesLeavePriorities();
  }

  lemma PlacedFollows(s: Kernel, e: nat, v: nat, ticks: nat)
    requires ValuesFollow(s)
    ensures ValuesFollow(PlaceOnUnordered(s, e, v, ticks))
  {
    hide Detach, AttachDelayed, AddLast, AddSorted, AttachReady, DetachEvent;
    MovesLeaveValues();
    MovesLeavePriorities();
  }

  lemma WokenFollows(s: Kernel, t: Task, v: nat)
    requires ValuesFollow(s)
    ensures ValuesFollow(RemoveFromUnordered(s, t, v))
  {
    hide Detach, AttachDelayed, AddLast, AddSorted, AttachReady, DetachEvent;
    MovesLeaveValues();
    MovesLeavePriorities();
  }

  lemma ResetEventValueFollows(s: Kernel)
    requires Inv(s) && ValuesFollow(s)
    ensures ValuesFollow(ResetEventValue(s))
  {
    CurrentFacts(s);
    hide Inv;
  }

  lemma {:induction false} ReleasePendingFollows(s: Kernel, n: nat)
    requires ValuesFollow(s)
    ensures ValuesFollow(ReleasePending(s, n))
    decreases n
  {
    hide MakeReady, Items, ValuesFollow, Key;
    if n != 0 {
      if Items(s.ls, PendingReady) != [] {
        var t := Items(s.ls, PendingReady)[0].task;
        MakeReadyFrame(s, t);
        MakeReadyValues(s, t);
      }
      SameFollow(s, ReleaseHead(s));
      ReleasePendingFollows(ReleaseHead(s), n - 1);
    }
  }

  lemma ProcessTickFollows(s: Kernel, r: Kernel)
    requires Inv(s) && ValuesFollow(s)
    requires r.ls == ProcessTick(s).ls && r.priority == ProcessTick(s).priority
    ensures ValuesFollow(r)
  {
    hide Good, ProcessTick, Items, ValuesFollow, Key, Advanced, Due, Woken;
    ProcessTickFrame(s);
    ProcessTickGood(s);
    AdvancedGood(s);
    SameFollow(s, r);
  }

  lemma {:induction false} CatchUpFollows(s: Kernel, n: nat)
    requires Inv(s) && s.started && n <= s.pendedTicks && ValuesFollow(s)
    ensures ValuesFollow(CatchUp(s, n))
    decreases n
  {
    hide Inv, ProcessTick, TickSwitches, ValuesFollow;
    if n != 0 {
      CatchUpOneInv(s);
      ProcessTickFollows(s, CatchUpOne(s));
      CatchUpFollows(CatchUpOne(s), n - 1);
    }
  }

  lemma ResumeAllFollows(s: Kernel)
    requires Inv(s) && s.started && ValuesFollow(s)
    ensures ValuesFollow(ResumeAll(s))
  {
    hide Inv, ReleasePending, CatchUp, Items, ValuesFollow, Key;
    if s.suspendDepth == 1 {
      var s1 := s.(suspendDepth := 0);
      InvFlags(s, s1);
      SameFollow(s, s1);
      var n := |Items(s1.ls, PendingReady)|;
      ReleasePendingFollows(s1, n);
      ReleasePendingInv(s1, n);
      var s2 := ReleasePending(s1, n);
      CatchUpFollows(s2, s2.pendedTicks);
      SameFollow(CatchUp(s2, s2.pendedTicks), ResumeAll(s));
    } else {
      SameFollow(s, ResumeAll(s));
    }
  }

  lemma TickFollows(s: Kernel)
    requires Inv(s) && ValuesFollow(s)
    ensures ValuesFollow(TickInterrupt(s))
  {
    hide Inv, ProcessTick, TickSwitches, ValuesFollow, Key;
    if s.suspendDepth == 0 {
      ProcessTickFollows(s, TickInterrupt(s));
    } else {
      SameFollow(s, TickInterrupt(s));
    }
  }

  lemma StepFollows(s: Kernel, step: Step)
    requires Inv(s) && NoMutex(s) && ValuesFollow(s) && Enabled(s, step) && !step.DoInherit? && !step.DoDisinherit?
    ensures ValuesFollow(Next(s, step))
  {
    hide Inv, ValuesFollow, NoMutex, Next, Enabled;
    if WritesNoValue(step) {
      QuietFollow(s, step);
    } else {
      WritingStepFollows(s, step);
    }
  }

  lemma WritingStepFollows(s: Kernel, step: Step)
    requires Inv(s) && NoMutex(s) && ValuesFollow(s) && Enabled(s, step) && !step.DoInherit? && !step.DoDisinherit? && !WritesNoValue(step)
    ensures ValuesFollow(Next(s, step))
  {
    hide Inv, ValuesFollow, NoMutex, Create, Start, SetPriority, PlaceOnUnordered, RemoveFromUnordered, ResetEventValue, TickInterrupt, ResumeAll;
    match step
    case DoCreate(t, p) => CreateFollows(s, t, p);
    case DoStart(t) => StartFollows(s, t);
    case DoSetPriority(t, p) => SetPriorityFollows(s, t, p);
    case DoPlaceOnUnordered(e, v, ticks) => PlacedFollows(s, e, v, ticks);
    case DoRemoveFromUnordered(t, v) => WokenFollows(s, t, v);
    case DoResetEventValue => ResetEventValueFollows(s);
    case DoTick => TickFollows(s);
    case DoResumeAll => ResumeAllFollows(s);
  }

  /** Over every run without mutexes: the value by which event lists are sorted is the task's priority
      in reverse, unless an event group is using it. */
  lemma {:induction false} EventValuesFollowPriorities(t: Task, p: nat, steps: seq<Step>)
    requires Legal(Boot(t, p), steps) && WithoutMutexes(steps)
    ensures ValuesFollow(After(Boot(t, p), steps))
    decreases |steps|
  {
    hide Inv, Enabled, Next, ValuesFollow, Boot, NoMutex;
    if steps == [] {
      BootFollows(t, p);
    } else {
      var init := steps[..|steps| - 1];
      EventValuesFollowPriorities(t, p, init);
      ReachableInv(t, p, init);
      RunNoRival(t, p, init);
      StepFollows(After(Boot(t, p), init), steps[|steps| - 1]);
    }
  }

  lemma BootFollows(t: Task, p: nat)
    ensures ValuesFollow(Boot(t, p))
  {
    hide AttachReady, EmptyLists;
    MovesLeaveValues();
    MovesLeavePriorities();
  }
}
