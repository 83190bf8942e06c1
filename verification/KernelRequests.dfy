/** When the scheduler asks for a switch at a tick or at the end of a suspension, what a switch does, and how
    suspensions nest. */
module KernelRequests {
  import opened ListValues
  import opened ItemLists
  import opened Kernels
  import opened KernelInvariants
  import opened KernelSteps
  import opened KernelTicks
  import opened KernelRuns
  import opened KernelTime
  import opened KernelPriority
  import opened KernelSelection
  import opened KernelEvents
  import opened KernelMoves
  import opened KernelEffects
  import opened KernelSharing

  /** One of the tasks has at least the priority of the running one. */
  predicate Rivals(s: Kernel, tasks: set<Task>) {
    exists t :: t in tasks && Priority(s, s.current) <= Priority(s, t)
  }

  /** Some ready list holds more than the running task's share of its priority. */
  predicate Shared(s: Kernel) {
    1 < |Items(s.ls, Ready(Priority(s, s.current)))|
  }

  lemma DueIsScanned(s: Kernel, t: Task)
    requires Good(s, {}, 1) && t in DueTasks(s, 1)
    ensures var s1 := Advanced(s);
            exists i :: 0 <= i < Due(s1) && i < |Items(s1.ls, s1.delayed)| && Items(s1.ls, s1.delayed)[i].task == t
  {
    hide Good, Items, Due, Advanced, Deadline, Timed;
    AdvancedGood(s);
    AdvancedDeadline(s, t);
    FutureDeadline(s, t);
    var s1 := Advanced(s);
    DueNow(s1, t);
    DueAtDeadline(s1, t);
    var i :| 0 <= i < |Items(s1.ls, s1.delayed)[..Due(s1)]| && Items(s1.ls, s1.delayed)[..Due(s1)][i] == StateItem(t);
    assert Items(s1.ls, s1.delayed)[i].task == t;
  }

  lemma DueNow(s: Kernel, t: Task)
    requires Good(s, {}, 0) && Timed(s, t) && Deadline(s, t) == Now(s)
    ensures StateIn(s, t, s.delayed) && Key(s.ls.value, StateItem(t)) == s.tick
  {
    hide Shape, Placement, Bits, SortedList, CacheSound;
  }

  /** The scan finds a rival exactly if one of the tasks due now is one. */
  lemma ScanFindsRivals(s: Kernel)
    requires Good(s, {}, 1)
    ensures var s1 := Advanced(s);
            (s1.tick >= s1.unblockTime && WakesRival(s1, Due(s1))) <==> Rivals(s, DueTasks(s, 1))
  {
    hide Good, Items, Due, Advanced, DueTasks;
    AdvancedGood(s);
    var s1 := Advanced(s);
    GuardedScanIsUnguarded(s);
    if t :| t in DueTasks(s, 1) && Priority(s, s.current) <= Priority(s, t) {
      DueIsScanned(s, t);
      var i :| 0 <= i < Due(s1) && i < |Items(s1.ls, s1.delayed)| && Items(s1.ls, s1.delayed)[i].task == t;
    }
    if WakesRival(s1, Due(s1)) {
      var i :| 0 <= i < Due(s1) && i < |Items(s1.ls, s1.delayed)| && Priority(s1, Items(s1.ls, s1.delayed)[i].task) >= Priority(s1, s1.current);
      ScannedIsDue(s, i);
    }
  }

  /** A processed tick calls for a switch exactly if a task whose deadline it is has at least the running
      priority, if some other task is ready at that priority, or if a yield is pending. */
  lemma TickCallsForSwitch(s: Kernel)
    requires Good(s, {}, 1)
    ensures TickSwitches(s) <==> Rivals(s, DueTasks(s, 1)) || Shared(ProcessTick(s)) || s.yieldPending
  {
    hide Good, ProcessTick, DueTasks, Rivals, Items;
    ScanFindsRivals(s);
    ProcessTickFrame(s);
    TickSwitchesIs(s);
  }

  lemma TickSwitchesIs(s: Kernel)
    ensures var s1 := Advanced(s);
            TickSwitches(s) <==> (s1.tick >= s1.unblockTime && WakesRival(s1, Due(s1)))
                                 || |Items(ProcessTick(s).ls, Ready(Priority(s, s.current)))| > 1 || s.yieldPending
  {
    hide Advanced, ProcessTick, Items, WakesRival, Key;
  }

  /** The tick interrupt. While the scheduler is suspended the tick is only counted, and a switch is asked for
      only if a yield is pending. */
  lemma TickAsksExactly(s: Kernel)
    requires Inv(s) && s.started
    ensures var r := TickInterrupt(s);
            if s.suspendDepth == 0 then
              r.switchRequested <==> s.switchRequested || s.yieldPending || Rivals(s, DueTasks(s, 1)) || Shared(r)
            else
              && (r.switchRequested <==> s.switchRequested || s.yieldPending)
              && r == s.(pendedTicks := s.pendedTicks + 1, interrupts := s.interrupts + 1, switchRequested := r.switchRequested)
  {
    hide Inv, Good, ProcessTick, DueTasks, Rivals, Items, TickSwitches;
    InvIsGood(s);
    TickCallsForSwitch(s);
    ProcessTickFrame(s);
  }

  // ----- the end of a suspension

  lemma QueuedGrows(l: ItemList, r: ItemList, items: seq<Item>)
    requires QueuedAt(l, r, items)
    ensures |l.items| <= |r.items|
  {
    UpcomingLength(l);
    UpcomingLength(r);
    hide Upcoming;
    assert |Upcoming(l)| == |Front(l)| + |Back(l)| && |Upcoming(r)| == |Front(r)| + |Back(r)|;
  }

  lemma SharedGrows(s: Kernel)
    requires Good(s, {}, 1)
    ensures Shared(s) ==> Shared(ProcessTick(s))
  {
    hide Good, ProcessTick, QueuedAt, Due, OfPriority;
    TickQueues(s);
    ProcessTickFrame(s);
    var s1 := Advanced(s);
    var p := Priority(s, s.current);
    QueuedGrows(List(s.ls, Ready(p)), List(ProcessTick(s).ls, Ready(p)), OfPriority(s.priority, Items(s1.ls, s1.delayed)[..Due(s1)], p));
  }

  /** Only what a tick concerns differs. */
  predicate SameStanding(s: Kernel, r: Kernel) {
    r == s.(ls := r.ls, readyBits := r.readyBits, topReady := r.topReady, unblockTime := r.unblockTime, tick := r.tick,
            overflows := r.overflows, delayed := r.delayed, overflow := r.overflow, pendedTicks := r.pendedTicks,
            yieldPending := r.yieldPending)
  }

  lemma CatchUpOneAsks(s: Kernel)
    requires Inv(s)
    ensures var r := CatchUpOne(s);
            && SameStanding(s, r) && (Shared(s) ==> Shared(r))
            && (r.yieldPending <==> s.yieldPending || Rivals(s, DueTasks(s, 1)) || Shared(r))
  {
    hide Inv, Good, ProcessTick, DueTasks, Rivals, Items, TickSwitches;
    InvIsGood(s);
    TickCallsForSwitch(s);
    SharedGrows(s);
    ProcessTickFrame(s);
  }

  lemma DueSooner(s: Kernel, n: nat, t: Task)
    requires Inv(s) && CatchUpOne(s).priority == s.priority && t in DueTasks(s, n) && 0 < n
    ensures t in DueTasks(s, 1) || t in DueTasks(CatchUpOne(s), n - 1)
  {
    hide Inv, CatchUpOne, Timed, Deadline, Now;
    CatchUpOneMeetsDeadline(s, t);
  }

  lemma DueLater(s: Kernel, n: nat)
    requires Inv(s) && s.started && 0 < n <= s.pendedTicks
    ensures DueTasks(s, n) == DueTasks(s, 1) + DueTasks(CatchUpOne(s), n - 1)
  {
    hide Inv, CatchUpOne, DueTasks, Rivals, Shared;
    LaterDue(s, n);
    CatchUpOneAsks(s);
    forall t | t in DueTasks(s, n) ensures t in DueTasks(s, 1) + DueTasks(CatchUpOne(s), n - 1) {
      DueSooner(s, n, t);
    }
  }

  lemma RivalsSplit(s: Kernel, a: set<Task>, b: set<Task>)
    ensures Rivals(s, a + b) <==> Rivals(s, a) || Rivals(s, b)
  {
    hide Priority;
  }

  lemma SameRivals(s: Kernel, r: Kernel, tasks: set<Task>)
    requires r.priority == s.priority && r.current == s.current
    ensures Rivals(s, tasks) <==> Rivals(r, tasks)
  {
  }

  lemma {:induction false} CatchUpAsks(s: Kernel, n: nat)
    requires Inv(s) && s.started && n <= s.pendedTicks
    ensures var r := CatchUp(s, n);
            && SameStanding(s, r) && (Shared(s) ==> Shared(r))
            && (r.yieldPending <==> s.yieldPending || Rivals(s, DueTasks(s, n)) || (0 < n && Shared(r)))
    decreases n
  {
    hide Inv, CatchUpOne, Shared, Rivals, DueTasks;
    if n == 0 {
      NoneDueYet(s);
    } else {
      var s1 := CatchUpOne(s);
      CatchUpOneAsks(s);
      CatchUpOneInv(s);
      CatchUpAsks(s1, n - 1);
      DueLater(s, n);
      RivalsSplit(s, DueTasks(s, 1), DueTasks(s1, n - 1));
      SameRivals(s, s1, DueTasks(s1, n - 1));
    }
  }

  lemma NoneDueYet(s: Kernel)
    requires Inv(s)
    ensures !Rivals(s, DueTasks(s, 0))
  {
    InvIsGood(s);
    hide Inv, Good, Deadline, Timed, Now;
    forall t | t in DueTasks(s, 0) ensures false {
      FutureDeadline(s, t);
    }
  }

  lemma ReleaseHeadAsks(s: Kernel)
    requires Inv(s) && Items(s.ls, PendingReady) != []
    ensures var t := Items(s.ls, PendingReady)[0].task;
            var r := ReleaseHead(s);
            && SameStanding(s, r) && HeldTasks(s) == {t} + HeldTasks(r)
            && (r.yieldPending <==> s.yieldPending || Priority(s, s.current) <= Priority(s, t))
  {
    hide Inv, MakeReady, Items, Pending, Priority;
    var t := Items(s.ls, PendingReady)[0].task;
    MakeReadyFrame(s, t);
    HeadIsHeldThere(s);
    HeldAreTasks(s, t);
    FewerPending(s);
    var r := ReleaseHead(s);
    forall u | u in HeldTasks(s) ensures u in {t} + HeldTasks(r) {
      if u != t {
        StillHeld(s, t, u);
      }
    }
    RankStays(s, MakeReady(s, t), MakeReady(s, t), t);
    RankStays(s, MakeReady(s, t), MakeReady(s, t), s.current);
  }

  lemma StillHeld(s: Kernel, t: Task, u: Task)
    requires Pending(s, u) && u != t
    ensures Pending(MakeReady(s, t), u) && MakeReady(s, t).priority == s.priority
    ensures forall r: Kernel :: r.ls == MakeReady(s, t).ls ==> Pending(r, u)
  {
    MakeReadyLeaves(s, t, {t});
    MakeReadyFrame(s, t);
    hide MakeReady, ListMoves;
    assert EventItem(u).task !in {t};
  }

  lemma OneRival(s: Kernel, t: Task)
    ensures Rivals(s, {t}) <==> Priority(s, s.current) <= Priority(s, t)
  {
    assert t in {t};
    hide Priority;
  }

  lemma {:induction false} ReleaseAsks(s: Kernel, n: nat)
    requires Inv(s) && n == |Items(s.ls, PendingReady)|
    ensures var r := ReleasePending(s, n);
            SameStanding(s, r) && (r.yieldPending <==> s.yieldPending || Rivals(s, HeldTasks(s)))
    decreases n
  {
    hide Inv, ReleaseHead, Rivals, HeldTasks, Items, Priority;
    if n == 0 {
      NoneHeld(s);
    } else {
      var t := Items(s.ls, PendingReady)[0].task;
      var s1 := ReleaseHead(s);
      ReleaseHeadAsks(s);
      ReleaseHeadInv(s);
      ReleaseHeadQueues(s);
      ReleaseAsks(s1, n - 1);
      RivalsSplit(s, {t}, HeldTasks(s1));
      OneRival(s, t);
      SameRivals(s, s1, HeldTasks(s1));
    }
  }

  lemma NoneHeld(s: Kernel)
    requires Inv(s) && Items(s.ls, PendingReady) == []
    ensures !Rivals(s, HeldTasks(s))
  {
    NonePending(s);
    hide Inv, Priority, Pending;
  }

  lemma DueStays(s: Kernel, n: nat, t: Task)
    requires Inv(s) && t in DueTasks(s, s.pendedTicks) && !Pending(s, t)
    ensures t in DueTasks(ReleasePending(s, n), ReleasePending(s, n).pendedTicks)
  {
    hide Inv, ReleasePending, Pending;
    ReleasePendingInv(s, n);
    ReleasePendingRanks(s, n);
    ReleasePendingKeeps(s, n, t);
  }

  lemma DueWhenReleased(s: Kernel, n: nat)
    requires Inv(s)
    ensures var s2 := ReleasePending(s, n);
            HeldTasks(s) + DueTasks(s2, s2.pendedTicks) == HeldTasks(s) + DueTasks(s, s.pendedTicks)
  {
    hide Inv, ReleasePending, DueTasks;
    StillDue(s, n);
    var s2 := ReleasePending(s, n);
    forall t | t in DueTasks(s, s.pendedTicks) ensures t in HeldTasks(s) + DueTasks(s2, s2.pendedTicks) {
      if Pending(s, t) {
        HeldAreTasks(s, t);
      } else {
        DueStays(s, n, t);
      }
    }
  }

  /** When the last suspension ends, a switch is asked for exactly if a yield was pending, if a task that was
      held, or whose deadline passed meanwhile, has at least the running priority, or if a tick was deferred
      and another task is ready at the running priority. The end of an inner suspension does nothing. */
  lemma ResumeAllAsksExactly(s: Kernel)
    requires Inv(s) && s.started && s.suspendDepth != 0
    ensures var r := ResumeAll(s);
            if s.suspendDepth == 1 then
              && (r.switchRequested <==> s.switchRequested || s.yieldPending
                                         || Rivals(s, HeldTasks(s) + DueTasks(s, s.pendedTicks)) || (0 < s.pendedTicks && Shared(r)))
              && SameStanding(s.(suspendDepth := 0, switchRequested := r.switchRequested), r)
            else r == s.(suspendDepth := s.suspendDepth - 1)
  {
    hide Inv, ReleasePending, CatchUp, Items, Rivals, HeldTasks, DueTasks;
    if s.suspendDepth == 1 {
      var s1 := s.(suspendDepth := 0);
      InvFlags(s, s1);
      SameDue(s, s1);
      var n := |Items(s1.ls, PendingReady)|;
      var s2 := ReleasePending(s1, n);
      ReleaseAsks(s1, n);
      ReleasePendingInv(s1, n);
      CatchUpAsks(s2, s2.pendedTicks);
      DueWhenReleased(s1, n);
      RivalsSplit(s1, HeldTasks(s1), DueTasks(s2, s2.pendedTicks));
      SameRivals(s1, s2, DueTasks(s2, s2.pendedTicks));
      SameRivals(s, s1, HeldTasks(s) + DueTasks(s, s.pendedTicks));
    }
  }

  // ----- switching

  /** A switch runs whoever is next in turn at the highest priority that has a ready task, and that task's turn
      is then the last; while the scheduler is suspended it is put off. */
  lemma SwitchTakesNext(s: Kernel)
    requires Inv(s) && s.started
    ensures var r := SwitchContext(s);
            if s.suspendDepth != 0 then r == s.(yieldPending := true, switchRequested := false)
            else
              var l := List(s.ls, Ready(Top(s)));
              && l.items != []
              && StateItem(r.current) == Upcoming(l)[0]
              && Upcoming(List(r.ls, Ready(Top(s)))) == Upcoming(l)[1..] + [Upcoming(l)[0]]
              && (forall p :: p != Ready(Top(s)) ==> List(r.ls, p) == List(s.ls, p))
              && r == s.(ls := s.ls.(contents := r.ls.contents), current := r.current, topReady := Top(s),
                         yieldPending := false, switchRequested := false)
  {
    hide Inv, Highest, Upcoming, Advance;
    if s.suspendDepth == 0 {
      OneSwitch(s);
      UpcomingLength(List(s.ls, Ready(Top(s))));
      AdvanceTakesTurn(List(s.ls, Ready(Top(s))));
    }
  }

  /** A request for a switch, now or at the next opportunity, and the beginning of a suspension leave everything
      else as it is. */
  lemma RequestsOnly(s: Kernel)
    ensures Next(s, DoYield).switchRequested && Next(s, DoYield) == s.(switchRequested := true)
    ensures Next(s, DoMissedYield).yieldPending && Next(s, DoMissedYield) == s.(yieldPending := true)
    ensures Next(s, DoSuspendAll) == s.(suspendDepth := s.suspendDepth + 1)
  {
  }

  /** A new event list is empty and its cursor rests; the other lists are untouched. */
  lemma NewListIsEmpty(s: Kernel, e: nat)
    ensures var r := Next(s, DoCreateEventList(e));
            && Event(e) in r.ls.contents && Items(r.ls, Event(e)) == [] && List(r.ls, Event(e)).index == 0
            && (forall q :: q != Event(e) ==> List(r.ls, q) == List(s.ls, q))
            && r == s.(ls := s.ls.(contents := r.ls.contents))
  {
    NewListIs(s, e);
    hide Next;
  }

  lemma NewListIs(s: Kernel, e: nat)
    ensures Next(s, DoCreateEventList(e)) == s.(ls := AddEmpty(s.ls, Event(e)))
  {
    hide AddEmpty;
  }

  // ----- nesting

  function Suspensions(steps: seq<Step>): int {
    if steps == [] then 0
    else
      Suspensions(steps[..|steps| - 1])
      + (if steps[|steps| - 1].DoSuspendAll? then 1 else 0) - (if steps[|steps| - 1].DoResumeAll? then 1 else 0)
  }

  predicate SameRun(s: Kernel, r: Kernel) {
    r.current == s.current && r.suspendDepth == s.suspendDepth && r.started == s.started && r.idle == s.idle
  }

  lemma TaskStepKeepsRunning(s: Kernel, step: Step)
    requires Inv(s) && Enabled(s, step) && IsTaskStep(step) && !step.DoCreate? && !step.DoStart?
    ensures SameRun(s, Next(s, step))
  {
    if step.DoSetPriority? || step.DoInherit? || step.DoDisinherit? {
      RankStepKeepsRunning(s, step);
    } else {
      MoveStepKeepsRunning(s, step);
    }
  }

  lemma MoveStepKeepsRunning(s: Kernel, step: Step)
    requires Inv(s) && Enabled(s, step)
    requires step.DoEndCreate? || step.DoResetUnblockTime? || step.DoDelete? || step.DoReap? || step.DoSuspend? || step.DoResume?
             || step.DoResumeFromISR?
    ensures SameRun(s, Next(s, step))
  {
    hide Inv, Delete, Reap, Suspend, Resume, ResumeFromISR, EndCreate, ResetUnblockTime, Joined, Readied, IsSuspended, Items,
      Priority, Live;
    match step
    case DoEndCreate => EndingRuns(s);
    case DoResetUnblockTime => EndingRuns(s);
    case DoDelete(t) => DeleteTerminates(s, t);
    case DoReap => ReapFrees(s);
    case DoSuspend(t) => SuspendRetires(s, t);
    case DoResume(t) => ResumeReadies(s, t);
    case DoResumeFromISR(t) => ResumeFromISRReadies(s, t);
  }

  lemma RankStepKeepsRunning(s: Kernel, step: Step)
    requires Inv(s) && Enabled(s, step) && (step.DoSetPriority? || step.DoInherit? || step.DoDisinherit?)
    ensures SameRun(s, Next(s, step))
  {
    hide Inv, SetPriority, Inherit, Disinherit, Joined, Requeued, ValueFollows, Overtakes, Priority;
    match step
    case DoSetPriority(t, p) =>
      HasBase(s, t);
      SetPriorityTakesEffect(s, t, p);
    case DoInherit(t) => InheritTakesEffect(s, t);
    case DoDisinherit =>
      HasBase(s, s.current) by { CurrentFacts(s); }
      DisinheritTakesEffect(s);
  }

  lemma HasBase(s: Kernel, t: Task)
    requires Inv(s) && t in s.priority
    ensures t in s.basePriority
  {
    InvIsGood(s);
    hide Inv, Good;
    TaskFacts(s, t, 1);
  }

  lemma EndingRuns(s: Kernel)
    ensures SameRun(s, EndCreate(s)) && SameRun(s, ResetUnblockTime(s))
  {
    hide Items, Key, Priority;
  }

  lemma EventStepKeepsRunning(s: Kernel, step: Step)
    requires Inv(s) && Enabled(s, step)
    requires step.DoDelay? || step.DoPlaceOnEvent? || step.DoPlaceOnUnordered? || step.DoRemoveFromEvent? || step.DoRemoveFromUnordered?
             || step.DoResetEventValue? || step.DoCreateEventList?
    ensures SameRun(s, Next(s, step))
  {
    hide Inv, DelayFor, PlaceOnEvent, PlaceOnUnordered, RemoveFromEvent, RemoveFromUnordered, ResetEventValue, AddEmpty, MayBlock,
      TimedFor, BlockedFor, Joined, Readied, InOrderOf, Items, Priority, Key;
    match step
    case DoDelay(ticks) => DelayBlocks(s, ticks);
    case DoPlaceOnEvent(e, ticks) => PlaceOnEventWaits(s, e, ticks);
    case DoPlaceOnUnordered(e, v, ticks) => PlaceOnUnorderedWaits(s, e, v, ticks);
    case DoRemoveFromEvent(e) => RemoveFromEventWakes(s, e);
    case DoRemoveFromUnordered(t, v) => RemoveFromUnorderedWakes(s, t, v);
    case DoResetEventValue => ResetEventValueReads(s);
    case DoCreateEventList(e) =>
  }

  lemma TickKeepsRunning(s: Kernel)
    requires Inv(s)
    ensures SameRun(s, TickInterrupt(s))
  {
    hide Inv, Good, ProcessTick, TickSwitches, Items;
    InvIsGood(s);
    ProcessTickFrame(s);
  }

  /** A step leaves the running task alone unless it is a switch or comes before the start, and the depth of
      suspension unless it begins or ends one. */
  lemma StepKeepsRunning(s: Kernel, step: Step)
    requires Inv(s) && Enabled(s, step)
    ensures s.started && !step.DoSwitchContext? ==> Next(s, step).current == s.current
    ensures Next(s, step).suspendDepth ==
            s.suspendDepth + (if step.DoSuspendAll? then 1 else 0) - (if step.DoResumeAll? then 1 else 0)
    ensures s.started ==> Next(s, step).started && Next(s, step).idle == s.idle
  {
    hide Inv, Enabled, Next, IsTaskStep;
    if step.DoCreate? || step.DoStart? || step.DoTick? || step.DoResumeAll? || step.DoSwitchContext? {
      ChangingStep(s, step);
    } else if step.DoDelay? || step.DoPlaceOnEvent? || step.DoPlaceOnUnordered? || step.DoRemoveFromEvent?
              || step.DoRemoveFromUnordered? || step.DoResetEventValue? || step.DoCreateEventList? {
      EventStepKeepsRunning(s, step);
    } else if step.DoMissedYield? || step.DoYield? || step.DoSuspendAll? {
      FlagStepRuns(s, step);
    } else {
      TaskSteps(step);
      TaskStepKeepsRunning(s, step);
    }
  }

  lemma FlagStepRuns(s: Kernel, step: Step)
    requires step.DoMissedYield? || step.DoYield? || step.DoSuspendAll?
    ensures Next(s, step).current == s.current && Next(s, step).started == s.started && Next(s, step).idle == s.idle
    ensures Next(s, step).suspendDepth == s.suspendDepth + if step.DoSuspendAll? then 1 else 0
  {
  }

  lemma ChangingStep(s: Kernel, step: Step)
    requires Inv(s) && Enabled(s, step)
    requires step.DoCreate? || step.DoStart? || step.DoTick? || step.DoResumeAll? || step.DoSwitchContext?
    ensures s.started && !step.DoSwitchContext? ==> Next(s, step).current == s.current
    ensures Next(s, step).suspendDepth == s.suspendDepth - if step.DoResumeAll? then 1 else 0
    ensures s.started ==> Next(s, step).started && Next(s, step).idle == s.idle
  {
    hide Inv, TickInterrupt, ResumeAll, SwitchContext, Create, Start, Rivals, Shared, Readied, HeldTasks, DueTasks, Key, Priority;
    match step
    case DoCreate(t, p) => CreateMakesReady(s, t, p);
    case DoStart(t) => StartRuns(s, t);
    case DoTick => TickKeepsRunning(s);
    case DoResumeAll => ResumeAllAsksExactly(s);
    case DoSwitchContext => SwitchRuns(s);
  }

  lemma TaskSteps(step: Step)
    requires step.DoEndCreate? || step.DoDelete? || step.DoResetUnblockTime? || step.DoReap? || step.DoSuspend? || step.DoResume?
             || step.DoResumeFromISR? || step.DoSetPriority? || step.DoInherit? || step.DoDisinherit?
    ensures IsTaskStep(step)
  {
  }

  lemma StartRuns(s: Kernel, t: Task)
    requires Inv(s) && Enabled(s, DoStart(t))
    ensures Start(s, t).suspendDepth == s.suspendDepth && !s.started
  {
    hide Inv, Create, Readied;
    CreateMakesReady(s, t, 0);
  }

  lemma SwitchRuns(s: Kernel)
    ensures SwitchContext(s).suspendDepth == s.suspendDepth && SwitchContext(s).started == s.started && SwitchContext(s).idle == s.idle
  {
    hide Highest, AdvanceList, List;
  }

  /** Over every run the scheduler is suspended as many times as suspensions have begun and not ended. */
  lemma {:induction false} SuspensionsNest(b: Task, p: nat, steps: seq<Step>)
    requires Legal(Boot(b, p), steps)
    ensures After(Boot(b, p), steps).suspendDepth == Suspensions(steps)
    decreases |steps|
  {
    hide Inv, Enabled, Next, Boot;
    if steps == [] {
      BootRuns(b, p);
    } else {
      var init := steps[..|steps| - 1];
      SuspensionsNest(b, p, init);
      ReachableInv(b, p, init);
      StepKeepsRunning(After(Boot(b, p), init), steps[|steps| - 1]);
    }
  }

  lemma BootRuns(b: Task, p: nat)
    ensures Boot(b, p).suspendDepth == 0
  {
    hide SetValue, AddLast, Priority;
  }
}
