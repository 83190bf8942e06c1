/** What the operations of class `Scheduler` find and leave, as facts about the state of the kernel. */
module SchedulerFacts {
  import opened ListValues
  import opened ItemLists
  import opened Kernels
  import opened KernelInvariants
  import opened KernelSteps
  import opened KernelTicks
  import opened KernelRuns
  import opened KernelReport
  import opened KernelPriority
  import opened KernelSelection
  import opened KernelTime
  import opened TimeOuts

  /** The state before the first task is in a list. */
  function Blank(t: Task, p: nat): Kernel {
    Kernel(EmptyLists(), map[t := Clamp(p)], map[t := Clamp(p)], t, t, false, 0, DelayedA, DelayedB, 0, 0, MAX_DELAY, 0, 0,
           {}, 0, 1, 0, false, false, map[])
  }

  lemma BootIs(t: Task, p: nat)
    ensures Clamp(p) < PRIORITIES && EmptyLists().container == map[]
    ensures var s := Blank(t, p); Boot(t, p) == AttachReady(s.(ls := SetValue(s.ls, EventItem(t), PRIORITIES - Clamp(p))), t)
  {
    hide AttachReady, SetValue;
  }

  lemma WalkedNowhere(s: Kernel)
    ensures Walked(s, s) && Reported(s, [], [])
  {
  }

  lemma WalkedOn(s: Kernel, m: Kernel, r: Kernel)
    requires Walked(s, m) && Walked(m, r)
    ensures Walked(s, r)
  {
  }

  lemma WalkedNames(s: Kernel, r: Kernel)
    requires Walked(s, r)
    ensures StateLists(r) == StateLists(s) && r.delayed == s.delayed && r.overflow == s.overflow
  {
  }

  lemma NextList(s: Kernel, lists: seq<ListId>, k: nat)
    requires Inv(s) && k < |lists|
    requires lists == StateLists(s)
    ensures IsStateList(lists[k]) && lists[k] !in lists[..k] && lists[..k + 1] == lists[..k] + [lists[k]]
  {
    hide Inv, StateLists, IsStateList;
    ListNames(s);
    AllListsListed(s, lists[k]);
    assert lists[k] in lists;
  }

  lemma SameStates(s: Kernel, r: Kernel)
    requires Walked(s, r)
    ensures forall t :: StateOf(r, t) == StateOf(s, t)
    ensures r.taskCount == s.taskCount && r.priority == s.priority && r.basePriority == s.basePriority && r.current == s.current
  {
  }

  lemma WalkedList(s: Kernel, p: ListId)
    requires Inv(s)
    ensures Walked(s, s.(ls := WalkedThrough(s.ls, p)))
  {
    hide Inv, AdvanceBy;
  }

  lemma SameReady(s: Kernel, r: Kernel, t: Task)
    requires r.ls == s.ls
    ensures IsReady(s, t) == IsReady(r, t)
  {
  }

  /** When the suspension ends with a yield pending, the switch is requested. */
  lemma ResumeAllRequests(s: Kernel)
    requires Inv(s) && s.started && s.suspendDepth == 1
    ensures var r := Kernels.ResumeAll(s); r.suspendDepth == 0 && (r.yieldPending ==> r.switchRequested)
  {
    hide Inv, ReleasePending, CatchUp, Items;
    var s1 := s.(suspendDepth := 0);
    InvFlags(s, s1);
    ReleasePendingDepth(s1, |Items(s1.ls, PendingReady)|);
    var s2 := ReleasePending(s1, |Items(s1.ls, PendingReady)|);
    ReleasePendingInv(s1, |Items(s1.ls, PendingReady)|);
    CatchUpDepth(s2, s2.pendedTicks);
  }

  lemma {:induction false} ReleasePendingDepth(s: Kernel, n: nat)
    ensures ReleasePending(s, n).suspendDepth == s.suspendDepth
    decreases n
  {
    hide MakeReady, Items;
    if n != 0 {
      if Items(s.ls, PendingReady) != [] {
        MakeReadyFrame(s, Items(s.ls, PendingReady)[0].task);
      }
      ReleasePendingDepth(ReleaseHead(s), n - 1);
    }
  }

  lemma {:induction false} CatchUpDepth(s: Kernel, n: nat)
    requires Inv(s) && s.started && n <= s.pendedTicks
    ensures CatchUp(s, n).suspendDepth == s.suspendDepth
    decreases n
  {
    hide Good, ProcessTick, TickSwitches, Items;
    if n != 0 {
      CatchUpOneInv(s);
      ProcessTickFrame(s);
      CatchUpDepth(CatchUpOne(s), n - 1);
    }
  }

  lemma WokenHead(s: Kernel, e: nat)
    requires Inv(s) && Items(s.ls, Event(e)) != []
    ensures Event(e) in s.ls.contents
    ensures var t := Items(s.ls, Event(e))[0].task;
            && Items(s.ls, Event(e))[0] == EventItem(t)
            && EventItem(t) in s.ls.container && StateItem(t) in s.ls.container && t in s.priority && s.priority[t] < PRIORITIES
            && MakeReady(s, t) == AttachReady(s.(ls := Without(Without(s.ls, EventItem(t)), StateItem(t))), t)
  {
    hide Good, AttachReady, Without;
    HeadFacts(s, Event(e), 1);
    WokenWaiter(s, Items(s.ls, Event(e))[0].task);
  }

  lemma WokenWaiter(s: Kernel, t: Task)
    requires Inv(s) && EventItem(t) in s.ls.container
    ensures t in s.priority && s.priority[t] < PRIORITIES && StateItem(t) in s.ls.container
    ensures MakeReady(s, t) == AttachReady(s.(ls := Without(Without(s.ls, EventItem(t)), StateItem(t))), t)
  {
    hide Good, AttachReady, Without;
    WaiterFacts(s, t);
    TaskFacts(s, t, 1);
    DetachEventGood(s, t, {}, 1);
    DetachFromDelayed(DetachEvent(s, t), t);
  }

  lemma DeletedHead(s: Kernel)
    requires Inv(s) && Items(s.ls, Terminated) != []
    ensures 0 < s.deletedCount && 0 < s.taskCount
    ensures var t := Items(s.ls, Terminated)[0].task;
            && Items(s.ls, Terminated)[0] == StateItem(t) && StateItem(t) in s.ls.container
            && Reap(s) == s.(ls := Without(s.ls, StateItem(t)), taskCount := s.taskCount - 1, deletedCount := s.deletedCount - 1,
                             priority := s.priority - {t}, basePriority := s.basePriority - {t}, creating := s.creating - {t})
  {
    hide Good, Without, Detach;
    HeadFacts(s, Terminated, 1);
    DetachFromDelayed(s, Items(s.ls, Terminated)[0].task);
    assert |s.priority.Keys| == |s.priority|;
  }

  lemma CreatorWaits(s: Kernel, t: Task, p: nat)
    ensures var r := Kernels.Create(s, t, p);
            r.started == s.started && (s.started ==> r.current == s.current && r.creating == s.creating[s.current := p])
  {
    hide AttachReady, SetValue, Kernels.Create;
    CreateIs(s, t, p);
    AttachReadyFrame(Counted(s, s.(priority := s.priority[t := Clamp(p)], basePriority := s.basePriority[t := Clamp(p)],
                                   ls := SetValue(s.ls, EventItem(t), PRIORITIES - Clamp(p))), t, p), t);
  }

  lemma EndRemovalInv(s: Kernel, t: Task)
    requires Inv(s)
    ensures Inv(EndRemoval(s, t))
  {
    hide Inv;
    ResetUnblockTimeInv(s);
    InvFlags(s, Yield(s));
  }

  lemma Removable(s: Kernel, t: Task)
    requires Inv(s) && t in s.priority
    ensures var p := Priority(s, t);
            && p == s.priority[t] < PRIORITIES && t in s.basePriority && s.basePriority[t] < PRIORITIES
            && (IsReady(s, t) ==> StateIn(s, t, Ready(p)) && StateItem(t) in Items(s.ls, Ready(p)))
            && (Items(s.ls, Ready(p)) == [] ==> p !in s.readyBits)
            && (StateIn(s, t, Ready(p)) ==> IsReady(s, t))
            && s.current in s.priority && StateItem(t) in s.ls.container
  {
    BitsFacts(s);
    CurrentFacts(s);
    BasesBounded(s);
    hide Good, Items;
    if IsReady(s, t) {
      ReadyBit(s, t);
    }
    TaskFacts(s, t, 1);
  }

  lemma EqualItems(a: Lists, b: Lists, p: ListId)
    requires a.contents == b.contents
    ensures Items(a, p) == Items(b, p)
  {
  }

  /** Items of different lists can be removed in either order. */
  lemma WithoutCommutes(ls: Lists, x: Item, y: Item)
    requires Consistent(ls) && x in ls.container && y in ls.container && ls.container[x] != ls.container[y]
    ensures Without(Without(ls, x), y) == Without(Without(ls, y), x)
  {
    hide Consistent, Without;
    WithoutConsistent(ls, x);
    WithoutConsistent(ls, y);
    WithoutTwice(ls, x, y);
    WithoutTwice(ls, y, x);
    var p, q := ls.container[x], ls.container[y];
    var l := Remove(ls.contents[p], IndexOf(ls.contents[p].items, x));
    var m := Remove(ls.contents[q], IndexOf(ls.contents[q].items, y));
    assert ls.contents[p := l][q := m] == ls.contents[q := m][p := l];
    assert ls.container - {x} - {y} == ls.container - {y} - {x};
  }

  lemma WithoutTwice(ls: Lists, x: Item, y: Item)
    requires Consistent(ls) && x in ls.container && y in ls.container && ls.container[x] != ls.container[y]
    ensures ls.container[x] in ls.contents && x in ls.contents[ls.container[x]].items
    ensures ls.container[y] in ls.contents && y in ls.contents[ls.container[y]].items
    ensures var p, q := ls.container[x], ls.container[y];
            Without(Without(ls, x), y) ==
            ls.(contents := ls.contents[p := Remove(ls.contents[p], IndexOf(ls.contents[p].items, x))]
                                       [q := Remove(ls.contents[q], IndexOf(ls.contents[q].items, y))],
                container := ls.container - {x} - {y})
  {
    hide Consistent, Without, Remove;
    WithoutConsistent(ls, x);
    WithoutIs(ls, x);
    WithoutIs(Without(ls, x), y);
    WithoutIs(ls, y);
  }

  lemma WithoutIs(ls: Lists, x: Item)
    requires Consistent(ls) && x in ls.container
    ensures var p := ls.container[x];
            && p in ls.contents && x in ls.contents[p].items
            && Without(ls, x) == ls.(contents := ls.contents[p := Remove(ls.contents[p], IndexOf(ls.contents[p].items, x))],
                                     container := ls.container - {x})
  {
  }

  /** The head of the delayed list can leave its two lists in either order. */
  lemma UnblockedHead(s: Kernel)
    requires Good(s, {}, 0) && Items(s.ls, s.delayed) != []
    ensures var x := Items(s.ls, s.delayed)[0];
            && x.task in s.priority
            && x == StateItem(x.task) && x in s.ls.container && s.priority[x.task] < PRIORITIES
            && MakeReady(s, x.task) == AttachReady(s.(ls := Without(Without(s.ls, x), EventItem(x.task))), x.task)
            && (EventItem(x.task) !in Without(s.ls, x).container ==> Without(Without(s.ls, x), EventItem(x.task)) == Without(s.ls, x))
  {
    var x := Items(s.ls, s.delayed)[0];
    var y := EventItem(x.task);
    DelayedHead(s);
    hide Good, Items, AttachReady, Without;
    DetachFromDelayed(DetachEvent(s, x.task), x.task);
    if y in s.ls.container {
      WithoutCommutes(s.ls, x, y);
    } else {
      WithoutAbsent(s.ls, y);
      WithoutAbsent(Without(s.ls, x), y);
    }
    if y !in Without(s.ls, x).container {
      WithoutAbsent(Without(s.ls, x), y);
    }
  }

  lemma DelayedHead(s: Kernel)
    requires Good(s, {}, 0) && Items(s.ls, s.delayed) != []
    ensures var x := Items(s.ls, s.delayed)[0];
            var y := EventItem(x.task);
            && x == StateItem(x.task) && In(s.ls, x, s.delayed) && x.task in s.priority && s.priority[x.task] < PRIORITIES
            && Consistent(s.ls) && !s.delayed.Ready?
            && (y in s.ls.container ==> s.ls.container[y] != s.delayed)
            && y !in (s.ls.container - {x}) - {y} && Without(s.ls, x).container == s.ls.container - {x}
            && !IsReady(DetachEvent(s, x.task), x.task)
  {
    hide Good, Without, DetachEvent, Items;
    GoodShape(s);
    ShapeFacts(s);
    HeadFacts(s, s.delayed, 0);
    var x := Items(s.ls, s.delayed)[0];
    TaskFacts(s, x.task, 0);
    hide Shape, Consistent;
    WithoutConsistent(s.ls, x);
    DetachEventGood(s, x.task, {}, 0);
  }

  lemma GoodShape(s: Kernel)
    requires Good(s, {}, 0)
    ensures Shape(s)
  {
  }

  lemma DetachFromDelayed(s: Kernel, t: Task)
    requires !IsReady(s, t)
    ensures Detach(s, t) == s.(ls := Without(s.ls, StateItem(t)))
  {
    hide Without, Items;
  }

  /** The head of the pending-ready list: a task that is not in a ready list. */
  lemma ReleasedHead(s: Kernel)
    requires Inv(s) && Items(s.ls, PendingReady) != []
    ensures var t := Items(s.ls, PendingReady)[0].task;
            && Items(s.ls, PendingReady)[0] == EventItem(t) && In(s.ls, EventItem(t), PendingReady)
  {
    hide Good;
    HeadFacts(s, PendingReady, 1);
  }

  lemma ReleaseHeadShortens(s: Kernel)
    requires Inv(s) && Items(s.ls, PendingReady) != []
    ensures |Items(ReleaseHead(s).ls, PendingReady)| == |Items(s.ls, PendingReady)| - 1
    ensures var r := ReleaseHead(s); r.suspendDepth == s.suspendDepth && r.started == s.started && r.pendedTicks == s.pendedTicks
  {
    hide Good, Consistent, Without, AttachReady, Inv, MakeReady, Items, Priority;
    var t := Items(s.ls, PendingReady)[0].task;
    ReleasedHead(s);
    WokenWaiter(s, t);
    MakeReadyFrame(s, t);
    WokenLeaves(s, t);
  }

  /** A task woken from the pending-ready list is one less there. */
  lemma WokenLeaves(s: Kernel, t: Task)
    requires Inv(s) && In(s.ls, EventItem(t), PendingReady) && StateItem(t) in s.ls.container
    ensures var r := AttachReady(s.(ls := Without(Without(s.ls, EventItem(t)), StateItem(t))), t);
            |Items(r.ls, PendingReady)| == |Items(s.ls, PendingReady)| - 1
  {
    hide Consistent, Without, AddLast, Inv;
    ConsistentLists(s);
    WaiterIsBlocked(s, t);
    WithoutConsistent(s.ls, EventItem(t));
    var ls := Without(s.ls, EventItem(t));
    WithoutConsistent(ls, StateItem(t));
    AddLastFrame(Without(ls, StateItem(t)), Ready(Priority(s, t)), StateItem(t));
  }

  lemma WaiterIsBlocked(s: Kernel, t: Task)
    requires Inv(s) && EventItem(t) in s.ls.container
    ensures StateItem(t) in s.ls.container && s.ls.container[StateItem(t)] != PendingReady
  {
    hide Inv;
    InvIsGood(s);
    hide Good;
    WaiterFacts(s, t);
  }

  lemma ConsistentLists(s: Kernel)
    requires Inv(s)
    ensures Consistent(s.ls)
  {
    hide Placement, Bits, WakeOrder, CacheSound, Consistent;
  }

  lemma RivalStep(s: Kernel, k: nat)
    requires k < |Items(s.ls, s.delayed)|
    ensures WakesRival(s, k + 1) <==> WakesRival(s, k) || Priority(s, Items(s.ls, s.delayed)[k].task) >= Priority(s, s.current)
  {
    if Priority(s, Items(s.ls, s.delayed)[k].task) >= Priority(s, s.current) {
      assert 0 <= k < k + 1;
    }
  }

  /** Clearing the bit of an empty ready list the task was not in changes nothing. */
  lemma DetachedBits(s: Kernel, t: Task, p: nat)
    requires StateItem(t) in s.ls.container
    requires IsReady(s, t) ==> StateIn(s, t, Ready(p))
    requires Items(s.ls, Ready(p)) == [] ==> p !in s.readyBits
    ensures var ls := Without(s.ls, StateItem(t));
            Detach(s, t) == s.(ls := ls, readyBits :=
              if Items(ls, s.ls.container[StateItem(t)]) == [] && Items(ls, Ready(p)) == [] then s.readyBits - {p} else s.readyBits)
  {
    hide Remove, IndexOf;
    if !IsReady(s, t) && Items(Without(s.ls, StateItem(t)), Ready(p)) == [] {
      assert s.readyBits - {p} == s.readyBits;
    }
  }

  lemma PriorityBounded(s: Kernel, t: Task)
    requires Good(s, {}, 1)
    ensures Priority(s, t) < PRIORITIES
  {
    hide Shape, Placement, Bits, Clock;
  }

  lemma ExpireIsTicked(s: Kernel)
    requires Good(s, {}, 0)
    ensures var r := Expire(s); r == s.(ls := r.ls, readyBits := r.readyBits, topReady := r.topReady, unblockTime := r.unblockTime)
  {
    hide Good;
    ExpireGood(s);
    hide Expire, Wake;
  }

  // ----- the scan

  /** After `k` passes of the scan: the first `k` tasks of the delayed list are in their ready lists. */
  ghost predicate Scanned(s: Kernel, r: Kernel, k: nat) {
    && k <= Due(s) <= |Items(s.ls, s.delayed)|
    && r == s.(ls := r.ls, readyBits := r.readyBits, topReady := r.topReady)
    && Wake(s, Due(s)) == Wake(r, Due(s) - k)
    && Items(r.ls, s.delayed) == Items(s.ls, s.delayed)[k..] && r.ls.value == s.ls.value
  }

  lemma ScanBegins(s: Kernel)
    ensures Scanned(s, s, 0) && !WakesRival(s, 0)
  {
    hide Items, Keys, Wake;
  }

  /** The head of the delayed list has to be woken by now. */
  predicate HeadDue(s: Kernel) {
    Items(s.ls, s.delayed) != [] && Key(s.ls.value, Items(s.ls, s.delayed)[0]) <= s.tick
  }

  lemma HeadCases(s: Kernel)
    ensures Items(s.ls, s.delayed) == [] ==> !HeadDue(s) && ResetUnblockTime(s).unblockTime == MAX_DELAY
    ensures Items(s.ls, s.delayed) != [] ==>
              var key := Key(s.ls.value, Items(s.ls, s.delayed)[0]);
              (HeadDue(s) <==> key <= s.tick) && ResetUnblockTime(s).unblockTime == key
  {
  }

  /** The scan ends, and sets the unblock time, exactly when all that are due have left the list. */
  lemma ScanEnds(s: Kernel, r: Kernel, k: nat)
    requires Good(s, {}, 0) && Scanned(s, r, k)
    ensures HeadDue(r) <==> k < Due(s)
    ensures !HeadDue(r) ==> Expire(s) == ResetUnblockTime(r) == r.(unblockTime := ResetUnblockTime(r).unblockTime)
    ensures HeadDue(r) ==> Items(r.ls, r.delayed) != []
  {
    hide Good, Items, Key, Keys, ExpiredCount;
    if Items(r.ls, r.delayed) != [] {
      DueExactly(s, k);
    }
  }

  /** One more pass, on the task that was at the head. */
  lemma ScanGoesOn(s: Kernel, r: Kernel, k: nat)
    requires Good(r, {}, 0) && Scanned(s, r, k) && k < Due(s)
    ensures Items(r.ls, r.delayed) != []
    ensures var t := Items(r.ls, r.delayed)[0].task;
            var r' := MakeReady(r, t);
            && Good(r', {}, 0) && Scanned(s, r', k + 1)
            && (WakesRival(s, k + 1) <==> WakesRival(s, k) || Priority(r', t) >= Priority(r', r'.current))
  {
    hide Good, Items, Keys, Key, ExpiredCount, MakeReady, WakesRival;
    MakeHeadGood(r);
    RivalStep(s, k);
    assert Items(s.ls, s.delayed)[k..][1..] == Items(s.ls, s.delayed)[k + 1..];
  }

  // ----- what the operations find

  lemma Newcomer(s: Kernel, t: Task)
    requires Inv(s) && t !in s.priority
    ensures StateItem(t) !in s.ls.container && EventItem(t) !in s.ls.container && t != s.current
  {
    hide Shape, Bits, Clock;
  }

  /** Creation: the task initialised, then counted, then made ready. */
  lemma CreatedIs(s: Kernel, t: Task, p: nat)
    requires s.current != t
    ensures var s1 := s.(priority := s.priority[t := Clamp(p)], basePriority := s.basePriority[t := Clamp(p)],
                         ls := SetValue(s.ls, EventItem(t), PRIORITIES - Clamp(p)));
            var s2 := Counted(s1, s1, t, p);
            && Kernels.Create(s, t, p) == AttachReady(s2, t)
            && s2.priority == s1.priority && s2.ls == s1.ls
  {
    hide AttachReady, SetValue;
    CreateIs(s, t, p);
  }

  lemma WithoutAbsentEvent(ls: Lists, t: Task)
    ensures EventItem(t) !in ls.container ==> Without(ls, EventItem(t)) == ls && ls.container - {EventItem(t)} == ls.container
  {
    if EventItem(t) !in ls.container {
      WithoutAbsent(ls, EventItem(t));
    }
  }

  lemma AttachedFrames(s: Kernel, t: Task)
    ensures var r := AttachReady(Detach(s, t), t);
            r == s.(ls := r.ls, readyBits := r.readyBits, topReady := r.topReady)
  {
    hide AttachReady, Detach;
    DetachFrame(s, t);
    AttachReadyFrame(Detach(s, t), t);
  }

  /** An inherited priority is kept, the base priority is set whatever. */
  function Rewritten(s: Kernel, t: Task, p: nat): Kernel {
    var base := if t in s.basePriority then s.basePriority[t] else 0;
    s.(priority := if base == Priority(s, t) then s.priority[t := p] else s.priority, basePriority := s.basePriority[t := p])
  }

  lemma RewrittenFrame(s: Kernel, t: Task, p: nat)
    ensures var r := Rewritten(s, t, p); r.ls == s.ls && r.readyBits == s.readyBits
  {
  }

  /** What changing a priority does, apart from the switch. */
  function Reprioritised(s: Kernel, t: Task, p: nat): Kernel {
    Requeue(FollowPriority(Rewritten(s, t, p), t, p), t, Priority(s, t))
  }

  lemma PrioritySetIs(s: Kernel, t: Task, p: nat)
    requires t in s.basePriority
    ensures SetPriority(s, t, p) ==
            if s.basePriority[t] == Clamp(p) then s
            else YieldIf(Reprioritised(s, t, Clamp(p)),
                         if Clamp(p) > s.basePriority[t] then t != s.current && Clamp(p) >= Priority(s, s.current) else t == s.current)
  {
    hide FollowPriority, Requeue;
  }

  lemma SamePriorities(s: Kernel, r: Kernel, t: Task)
    requires r.priority == s.priority && r.current == s.current
    ensures Priority(r, t) == Priority(s, t) && Priority(r, r.current) == Priority(s, s.current)
  {
  }

  /** The running task can leave its ready list and join an event list. */
  lemma Blockable(s: Kernel)
    requires Inv(s) && IsReady(s, s.current)
    ensures s.current in s.priority && StateIn(s, s.current, Ready(s.priority[s.current])) && EventItem(s.current) !in s.ls.container
  {
    hide Inv;
    InvParts(s);
    CurrentFacts(s);
    hide Good;
    TaskFacts(s, s.current, 1);
  }

  lemma DelayForDepth(s: Kernel, ticks: nat)
    ensures var r := DelayFor(s, ticks); r.suspendDepth == s.suspendDepth && r.started == s.started
  {
    hide Detach, AddSorted, SetValue;
    DetachFrame(s, s.current);
  }

  lemma SinceLands(wake: nat, tick: nat)
    requires wake < WORD && tick < WORD && wake != tick
    ensures 1 <= Since(wake, tick) < WORD && (tick + Since(wake, tick)) % WORD == wake
  {
  }

  /** List `p` after a walk: its cursor is one past a full round. */
  function WalkedThrough(ls: Lists, p: ListId): Lists {
    if Items(ls, p) == [] then ls
    else ls.(contents := ls.contents[p := AdvanceBy(List(ls, p), |Items(ls, p)| + 1)])
  }

  /** `report` has a status for each task of list `p`, the i-th for the one its cursor visits `i + 2`
      advances on. */
  ghost predicate ReportsList(s: Kernel, p: ListId, report: seq<TaskStatus>, state: TaskState) {
    && |report| == |Items(s.ls, p)|
    && forall i {:trigger report[i]} :: 0 <= i < |report| ==>
         report[i] == Status(s.ls, s.priority, s.basePriority, Visit(List(s.ls, p), i + 2).task, state)
  }

  lemma NoWalk(s: Kernel, p: ListId, state: TaskState)
    requires |Items(s.ls, p)| == 0
    ensures s == s.(ls := WalkedThrough(s.ls, p)) && ReportsList(s, p, [], state)
  {
  }

  /** A walk of list `p` that has come `|report|` tasks past the first: what it has reported so far. */
  ghost predicate ReportedSoFar(s: Kernel, r: Kernel, p: ListId, first: Item, report: seq<TaskStatus>, state: TaskState) {
    && Items(s.ls, p) != [] && ListValues.Valid(List(s.ls, p)) && p in s.ls.contents
    && first == Visit(List(s.ls, p), 1) && |report| <= |Items(s.ls, p)|
    && r == s.(ls := s.ls.(contents := s.ls.contents[p := AdvanceBy(List(s.ls, p), |report| + 1)]))
    && forall i {:trigger report[i]} :: 0 <= i < |report| ==>
         report[i] == Status(s.ls, s.priority, s.basePriority, Visit(List(s.ls, p), i + 2).task, state)
  }

  lemma WalkBegins(s: Kernel, p: ListId, state: TaskState)
    requires p in s.ls.contents && Items(s.ls, p) != [] && ListValues.Valid(List(s.ls, p))
    ensures var r := s.(ls := AdvanceList(s.ls, p));
            && 0 < List(r.ls, p).index
            && ReportedSoFar(s, r, p, Entry(List(r.ls, p)), [], state)
  {
    hide Status;
    assert AdvanceBy(List(s.ls, p), 0) == List(s.ls, p);
  }

  lemma WalkGoesOn(s: Kernel, r: Kernel, p: ListId, first: Item, report: seq<TaskStatus>, state: TaskState)
    requires ReportedSoFar(s, r, p, first, report, state) && |report| < |Items(s.ls, p)|
    ensures Items(r.ls, p) != []
    ensures var r' := r.(ls := AdvanceList(r.ls, p));
            && 0 < List(r'.ls, p).index
            && var next := Entry(List(r'.ls, p));
               && ReportedSoFar(s, r', p, first, report + [Status(r'.ls, r'.priority, r'.basePriority, next.task, state)], state)
               && (next == first <==> |report| + 1 == |Items(s.ls, p)|)
  {
    hide AdvanceBy, AdvanceList, Advance, Status;
    var k := |report| + 1;
    var l := List(s.ls, p);
    WalkSteps(s.ls, r.ls, p, k);
    WalkReturns(l, k + 1);
    var r' := r.(ls := AdvanceList(r.ls, p));
    var status := Status(r'.ls, r'.priority, r'.basePriority, Visit(l, k + 1).task, state);
    SameStatus(s.ls, r'.ls, s.priority, s.basePriority, Visit(l, k + 1).task, state);
    OneMoreStatus(s, p, report, status, state);
  }

  lemma OneMoreStatus(s: Kernel, p: ListId, report: seq<TaskStatus>, status: TaskStatus, state: TaskState)
    requires Items(s.ls, p) != []
    requires forall i {:trigger report[i]} :: 0 <= i < |report| ==>
               report[i] == Status(s.ls, s.priority, s.basePriority, Visit(List(s.ls, p), i + 2).task, state)
    requires status == Status(s.ls, s.priority, s.basePriority, Visit(List(s.ls, p), |report| + 2).task, state)
    ensures var more := report + [status];
            forall i {:trigger more[i]} :: 0 <= i < |more| ==>
              more[i] == Status(s.ls, s.priority, s.basePriority, Visit(List(s.ls, p), i + 2).task, state)
  {
    hide Status, Visit;
  }

  /** One more advance. */
  lemma WalkSteps(ls: Lists, r: Lists, p: ListId, k: nat)
    requires p in ls.contents && Items(ls, p) != [] && ListValues.Valid(List(ls, p))
    requires r == ls.(contents := ls.contents[p := AdvanceBy(List(ls, p), k)])
    ensures Items(r, p) != [] && AdvanceList(r, p) == ls.(contents := ls.contents[p := AdvanceBy(List(ls, p), k + 1)])
    ensures List(AdvanceList(r, p), p) == AdvanceBy(List(ls, p), k + 1)
  {
    hide Advance;
  }

  lemma SameStatus(a: Lists, b: Lists, priority: map<Task, nat>, basePriority: map<Task, nat>, t: Task, state: TaskState)
    requires a.container == b.container
    ensures Status(a, priority, basePriority, t, state) == Status(b, priority, basePriority, t, state)
  {
  }

  lemma WalkEnds(s: Kernel, r: Kernel, p: ListId, first: Item, report: seq<TaskStatus>, state: TaskState)
    requires ReportedSoFar(s, r, p, first, report, state) && |report| == |Items(s.ls, p)|
    ensures r == s.(ls := WalkedThrough(s.ls, p)) && ReportsList(s, p, report, state)
  {
    hide Status, AdvanceBy;
  }

  lemma LastLists(s: Kernel)
    ensures var r := StateLists(s);
            r[PRIORITIES] == s.delayed && r[PRIORITIES + 1] == s.overflow && r[PRIORITIES + 2] == Terminated && r[PRIORITIES + 3] == Suspended
  {
  }

  lemma CatchUpOneFrame(s: Kernel)
    requires Inv(s) && 0 < s.pendedTicks
    ensures var r := CatchUpOne(s);
            r.started == s.started && r.suspendDepth == s.suspendDepth && r.pendedTicks == s.pendedTicks - 1
  {
    hide Good, ProcessTick, TickSwitches;
    InvIsGood(s);
    ProcessTickFrame(s);
  }

  // ----- the steps

  lemma EnabledFacts(s: Kernel, step: Step)
    requires Enabled(s, step)
    ensures step.DoCreate? ==> step.t !in s.priority
    ensures step.DoEndCreate? ==> s.current in s.creating
    ensures step.DoResume? || step.DoResumeFromISR? ==> Live(s, step.t)
    ensures step.DoReap? ==> Items(s.ls, Terminated) != []
    ensures step.DoRemoveFromEvent? ==> Items(s.ls, Event(step.e)) != []
    ensures !step.DoCreate? && !step.DoStart? && !step.DoCreateEventList? ==> s.started
    ensures step.DoResumeAll? ==> s.suspendDepth != 0
  {
  }

  lemma ResetEventValueIs(s: Kernel)
    requires s.current in s.priority && s.priority[s.current] < PRIORITIES
    ensures ResetEventValue(s) == s.(ls := SetValue(s.ls, EventItem(s.current), PRIORITIES - s.priority[s.current]))
  {
    hide SetValue;
  }

  lemma TickIsWord(s: Kernel)
    requires Inv(s)
    ensures s.tick < WORD
  {
  }
}
