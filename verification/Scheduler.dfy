/** tasks.c as it is written: file-level variables and linked lists updated in place, with the loops
    over the delayed list, the pending-ready list and the deferred ticks. Each operation is proved to
    do what the functions of module `Kernels` say, to the state that the linked lists stand for. */
module Schedulers {
  import opened ListValues
  import opened ItemLists
  import opened Kernels
  import opened KernelInvariants
  import opened KernelSteps
  import opened KernelTicks
  import opened KernelRuns
  import opened KernelReport
  import opened KernelPriority
  import opened KernelSelection
  import opened KernelTime
  import opened TimeOuts
  import opened TaskLists
  import opened SchedulerFacts
  import ListHeaps

  class Scheduler {
    const heap: ListHeap
    /** What the linked structures in `heap` stand for. */
    ghost var ls: Lists
    var priority: map<Task, nat>
    var basePriority: map<Task, nat>
    var current: Task
    var idle: Task
    var started: bool
    var suspendDepth: nat
    var delayed: ListId
    var overflow: ListId
    var tick: nat
    var overflows: nat
    var unblockTime: nat
    var pendedTicks: nat
    ghost var interrupts: nat
    var readyBits: set<nat>
    var topReady: nat
    var taskCount: nat
    var deletedCount: nat
    var yieldPending: bool
    var switchRequested: bool
    var creating: map<Task, nat>

    ghost function State(): Kernel
      reads this
    {
      Kernel(ls, priority, basePriority, current, idle, started, suspendDepth, delayed, overflow, tick, overflows,
             unblockTime, pendedTicks, interrupts, readyBits, topReady, taskCount, deletedCount, yieldPending, switchRequested,
             creating)
    }

    /** The linked structures stand for `ls`. */
    ghost predicate Joined()
      reads `ls, heap, heap.repr
    {
      heap.Valid() && Same(heap.Value(), ls) && Paired(heap.nodes)
    }

    /** The structures stand for `ls`, the lists that are always there are there, and the structures
        share nothing with the scheduler's own variables. */
    ghost predicate Linked()
      reads `ls, `delayed, `overflow, heap, heap.repr
    {
      && this !in heap.repr && heap !in heap.repr && Joined()
      && HasLists(heap.lists) && delayed in heap.lists && overflow in heap.lists
    }

    ghost predicate Valid()
      reads this, heap, heap.repr
    {
      Linked() && Inv(State())
    }

    lemma Fields()
      ensures var s := State();
              && s.ls == ls && s.priority == priority && s.basePriority == basePriority && s.current == current && s.idle == idle
              && s.started == started && s.suspendDepth == suspendDepth && s.delayed == delayed && s.overflow == overflow
              && s.tick == tick && s.unblockTime == unblockTime && s.pendedTicks == pendedTicks && s.readyBits == readyBits
              && s.topReady == topReady && s.taskCount == taskCount && s.deletedCount == deletedCount
              && s.yieldPending == yieldPending && s.switchRequested == switchRequested && s.creating == creating
    {
    }

    /** The priority in a task's control block. */
    function PriorityOf(t: Task): (p: nat)
      reads `priority
      ensures t in priority ==> p == priority[t]
    {
      if t in priority then priority[t] else 0
    }

    // ----- the lists

    /** The items of `x`'s task have nodes. */
    lemma Pair(x: Item)
      requires Linked() && x in ls.container
      ensures StateItem(x.task) in heap.nodes && EventItem(x.task) in heap.nodes
    {
      heap.Known();
    }

    lemma PairOf(x: Item)
      requires Linked() && x in heap.nodes
      ensures StateItem(x.task) in heap.nodes && EventItem(x.task) in heap.nodes
    {
      hide ListHeap.Valid, ListHeap.Value, Same;
    }

    lemma Listed(p: ListId)
      requires Linked()
      ensures p in heap.lists <==> p in ls.contents
    {
      heap.Known();
    }

    /** `vListInsertEnd` */
    method Append(p: ListId, x: Item)
      requires Linked() && p in heap.lists && x in heap.nodes && x !in ls.container
      modifies `ls, heap.repr
      ensures Linked() && unchanged(heap)
      ensures State() == old(State()).(ls := AddLast(old(State()).ls, p, x))
      ensures ls.container == old(ls.container)[x := p]
    {
      hide ListHeap.Valid, ListHeap.Value, HasLists, Paired, InsertEnd, Same;
      assert x !in heap.Value().container by { SameContainers(heap.Value(), ls); }
      heap.HomeIs(x);
      heap.Footprint(p, x);
      SameAddLast(heap.Value(), ls, p, x);
      heap.AddLast(p, x);
      ls := AddLast(ls, p, x);
    }

    /** `vListInsert` */
    method InsertSorted(p: ListId, x: Item)
      requires Linked() && p in heap.lists && x in heap.nodes && x !in ls.container
      modifies `ls, heap.repr
      ensures Linked() && unchanged(heap)
      ensures State() == old(State()).(ls := AddSorted(old(State()).ls, p, x))
      ensures ls.container == old(ls.container)[x := p]
    {
      hide ListHeap.Valid, ListHeap.Value, HasLists, Paired, InsertBefore, FirstGreater, Keys, Same;
      assert x !in heap.Value().container by { SameContainers(heap.Value(), ls); }
      heap.HomeIs(x);
      heap.Footprint(p, x);
      SameAddSorted(heap.Value(), ls, p, x);
      heap.AddSorted(p, x);
      ls := AddSorted(ls, p, x);
    }

    /** `uxListRemove`, which returns the number of items left. */
    method TakeOut(x: Item) returns (left: nat)
      requires Linked() && x in ls.container
      modifies `ls, heap.repr
      ensures Linked() && unchanged(heap)
      ensures State() == old(State()).(ls := Without(old(State()).ls, x))
      ensures ls.container == old(ls.container) - {x}
      ensures left == |Items(ls, old(ls.container[x]))|
    {
      hide ListHeap.Valid, ListHeap.Value, HasLists, Paired, Same, Without;
      Pair(x);
      SameContainers(heap.Value(), ls);
      heap.HomeIs(x);
      heap.Footprint(ls.container[x], x);
      SameWithout(heap.Value(), ls, x);
      left := heap.Without(x);
      ls := Without(ls, x);
      SameContainers(heap.Value(), ls);
      SameItems(heap.Value(), ls);
    }

    /** `listSET_LIST_ITEM_VALUE` */
    method PutValue(x: Item, v: nat)
      requires Linked() && x in heap.nodes && v <= MAX_DELAY
      modifies `ls, heap.repr
      ensures Linked() && unchanged(heap)
      ensures State() == old(State()).(ls := SetValue(old(State()).ls, x, v))
      ensures ls.container == old(ls.container) && ls.contents == old(ls.contents)
    {
      hide ListHeap.Valid, ListHeap.Value, HasLists, Paired, Same;
      heap.NodeInRepr(x);
      SameSetValue(heap.Value(), ls, x, v);
      heap.SetValue(x, v);
      ls := SetValue(ls, x, v);
    }

    /** `listGET_OWNER_OF_NEXT_ENTRY` */
    method NextOwner(p: ListId) returns (x: Item)
      requires Linked() && p in heap.lists && Items(ls, p) != []
      modifies `ls, heap.repr
      ensures Linked() && unchanged(heap)
      ensures State() == old(State()).(ls := AdvanceList(old(State()).ls, p))
      ensures 0 < List(ls, p).index && x == Entry(List(ls, p)) && x in heap.nodes
      ensures ls.container == old(ls.container)
    {
      hide ListHeap.Valid, ListHeap.Value, HasLists, Paired, Same, Advance;
      SameItems(heap.Value(), ls);
      ghost var y := heap.First(p);
      heap.Footprint(p, y);
      SameAdvance(heap.Value(), ls, p);
      x := heap.Next(p);
      ls := AdvanceList(ls, p);
      SameItems(heap.Value(), ls);
    }

    /** `listCURRENT_LIST_LENGTH` */
    method LengthOf(p: ListId) returns (n: nat)
      requires Linked() && p in heap.lists
      ensures n == |Items(ls, p)|
    {
      hide ListHeap.Valid, ListHeap.Value, HasLists, Paired, Same;
      SameItems(heap.Value(), ls);
      n := heap.Length(p);
    }

    /** `listGET_OWNER_OF_HEAD_ENTRY` */
    method HeadOf(p: ListId) returns (x: Item)
      requires Linked() && p in heap.lists && Items(ls, p) != []
      ensures x == Items(ls, p)[0] && x in heap.nodes
    {
      hide ListHeap.Valid, ListHeap.Value, HasLists, Paired, Same;
      SameItems(heap.Value(), ls);
      ghost var y := heap.First(p);
      x := heap.Head(p);
    }

    /** `listGET_LIST_ITEM_VALUE` */
    method ValueOf(x: Item) returns (v: nat)
      requires Linked() && x in heap.nodes
      ensures v == Key(ls.value, x)
    {
      hide ListHeap.Valid, ListHeap.Value, HasLists, Paired;
      v := heap.ItemValue(x);
      assert Key(heap.Value().value, x) == Key(ls.value, x);
    }

    /** `listIS_CONTAINED_WITHIN` */
    method IsIn(p: ListId, x: Item) returns (b: bool)
      requires Linked() && p in heap.lists && x in heap.nodes
      ensures b == In(ls, x, p)
    {
      hide ListHeap.Valid, ListHeap.Value, HasLists, Paired, Same;
      SameContainers(heap.Value(), ls);
      b := heap.IsWithin(p, x);
    }

    /** Whether `listLIST_ITEM_CONTAINER` is not null. */
    method IsSomewhere(x: Item) returns (b: bool)
      requires Linked() && x in heap.nodes
      ensures b <==> x in ls.container
    {
      hide ListHeap.Valid, ListHeap.Value, HasLists, Paired, Same;
      SameContainers(heap.Value(), ls);
      b := heap.IsHoused(x);
    }

    // ----- the variables

    /** A context switch is asked for. */
    method RequestSwitch()
      requires Linked()
      modifies `switchRequested
      ensures Linked() && State() == Yield(old(State()))
    {
      hide Joined, HasLists;
      switchRequested := true;
    }

    /** `xYieldPending` is set. */
    method PendYield()
      requires Linked()
      modifies `yieldPending
      ensures Linked() && State() == old(State()).(yieldPending := true)
    {
      hide Joined, HasLists;
      yieldPending := true;
    }

    /** Whether a task has at least the priority of the running task. */
    method Rivals(t: Task) returns (b: bool)
      ensures b == (Priority(State(), t) >= Priority(State(), State().current))
    {
      b := PriorityOf(t) >= PriorityOf(current);
    }

    /** `taskRECORD_READY_PRIORITY` */
    method RecordReady(p: nat)
      requires Linked()
      modifies `readyBits, `topReady
      ensures Linked()
      ensures var s := old(State());
              State() == s.(readyBits := s.readyBits + {p}, topReady := if s.topReady < p then p else s.topReady)
    {
      hide Joined, HasLists;
      readyBits := readyBits + {p};
      if p > topReady {
        topReady := p;
      }
    }

    /** `portRESET_READY_PRIORITY` */
    method ClearBit(p: nat)
      requires Linked()
      modifies `readyBits
      ensures Linked() && State() == old(State()).(readyBits := old(State()).readyBits - {p})
    {
      hide Joined, HasLists;
      readyBits := readyBits - {p};
    }

    /** `uxPriority` of a task is written. */
    method PutPriority(t: Task, p: nat)
      requires Linked()
      modifies `priority
      ensures Linked() && State() == old(State()).(priority := old(State()).priority[t := p])
    {
      hide Joined, HasLists;
      priority := priority[t := p];
    }

    /** `uxBasePriority` of a task is written. */
    method PutBasePriority(t: Task, p: nat)
      requires Linked()
      modifies `basePriority
      ensures Linked() && State() == old(State()).(basePriority := old(State()).basePriority[t := p])
    {
      hide Joined, HasLists;
      basePriority := basePriority[t := p];
    }

    // ----- the macros

    /** `uxListRemove` on a state item, and `taskRESET_READY_PRIORITY( p )` when it empties its list. */
    method RemoveState(t: Task, p: nat)
      requires Linked() && StateItem(t) in ls.container && p < PRIORITIES
      requires IsReady(State(), t) ==> StateIn(State(), t, Ready(p))
      requires Items(ls, Ready(p)) == [] ==> p !in readyBits
      modifies `ls, `readyBits, heap.repr
      ensures Linked() && unchanged(heap) && State() == Detach(old(State()), t)
      ensures ls.container == old(ls.container) - {StateItem(t)}
    {
      hide State, Joined, Detach, Without, Items;
      Fields();
      DetachedBits(State(), t, p);
      var left := TakeOut(StateItem(t));
      Fields();
      if left == 0 {
        var length := LengthOf(Ready(p));
        if length == 0 {
          ClearBit(p);
        }
      }
      Fields();
    }

    /** `prvAddTaskToReadyList` */
    method AddToReadyList(t: Task)
      requires Linked() && t in priority && priority[t] < PRIORITIES
      requires StateItem(t) in heap.nodes && StateItem(t) !in ls.container
      modifies `ls, `readyBits, `topReady, heap.repr
      ensures Linked() && unchanged(heap) && State() == AttachReady(old(State()), t)
    {
      hide State, Joined, AddLast;
      Fields();
      var p := priority[t];
      RecordReady(p);
      Fields();
      Append(Ready(p), StateItem(t));
    }

    /** `prvResetNextTaskUnblockTime` */
    method ResetNextUnblockTime()
      requires Linked()
      modifies `unblockTime
      ensures Linked() && State() == ResetUnblockTime(old(State()))
    {
      hide Joined, HasLists, Items, Key;
      var length := LengthOf(delayed);
      if length == 0 {
        unblockTime := MAX_DELAY;
      } else {
        var x := HeadOf(delayed);
        unblockTime := ValueOf(x);
      }
    }

    /** The running task's state item goes into a delayed list. */
    method InsertCurrent(p: ListId, wake: nat)
      requires Linked() && p in heap.lists && wake < WORD
      requires StateItem(current) in heap.nodes && StateItem(current) !in ls.container
      modifies `ls, heap.repr
      ensures Linked() && unchanged(heap)
      ensures var s := old(State()); State() == s.(ls := AddSorted(SetValue(s.ls, StateItem(s.current), wake), p, StateItem(s.current)))
    {
      hide State, Joined, HasLists, AddSorted, SetValue;
      Fields();
      PutValue(StateItem(current), wake);
      Fields();
      InsertSorted(p, StateItem(current));
    }

    method LowerUnblockTime(wake: nat)
      requires Linked()
      modifies `unblockTime
      ensures Linked()
      ensures var s := old(State()); State() == s.(unblockTime := if wake < s.unblockTime then wake else s.unblockTime)
    {
      hide Joined, HasLists;
      if wake < unblockTime {
        unblockTime := wake;
      }
    }

    /** `prvAddCurrentTaskToDelayedList` */
    method AddCurrentToDelayedList(wake: nat)
      requires Linked() && wake < WORD && StateItem(current) in heap.nodes && StateItem(current) !in ls.container
      modifies `ls, `unblockTime, heap.repr
      ensures Linked() && unchanged(heap) && State() == AttachDelayed(old(State()), old(State()).current, wake)
    {
      hide State, Joined, HasLists, AddSorted, SetValue;
      Fields();
      if wake < tick {
        InsertCurrent(overflow, wake);
      } else {
        InsertCurrent(delayed, wake);
        LowerUnblockTime(wake);
      }
    }

    // ----- ticks

    /** One pass of the scan of `xTaskIncrementTick`: the task at the head of the delayed list
        leaves it, and any event list, for its ready list. */
    method UnblockHead() returns (t: Task)
      requires Linked() && Good(State(), {}, 0) && Items(ls, delayed) != []
      modifies `ls, `readyBits, `topReady, heap.repr
      ensures Linked() && unchanged(heap)
      ensures t == old(Items(ls, delayed))[0].task && State() == MakeReady(old(State()), t)
    {
      hide State, Joined, HasLists, Good, Items, MakeReady, AttachReady, Without;
      Fields();
      UnblockedHead(State());
      var x := HeadOf(delayed);
      t := x.task;
      Pair(x);
      var _ := TakeOut(x);
      Fields();
      var waits := IsSomewhere(EventItem(t));
      if waits {
        var _ := TakeOut(EventItem(t));
        Fields();
      }
      StandingReady();
      AddToReadyList(t);
    }

    lemma StandingReady()
      requires Linked()
      ensures forall p: nat {:trigger Ready(p)} :: p < PRIORITIES ==> Ready(p) in heap.lists
    {
      hide Joined;
    }

    lemma Standing()
      requires Linked()
      ensures Suspended in heap.lists && Terminated in heap.lists && PendingReady in heap.lists
    {
      hide Joined;
    }

    method SetUnblockTime(v: nat)
      requires Linked()
      modifies `unblockTime
      ensures Linked() && State() == old(State()).(unblockTime := v)
    {
      hide Joined, HasLists;
      unblockTime := v;
    }

    /** Whether the head of the delayed list is due, and the next unblock time if it is not. */
    method HeadIsDue() returns (due: bool, next: nat)
      requires Linked()
      ensures due == HeadDue(State())
      ensures !due ==> next == ResetUnblockTime(State()).unblockTime
    {
      hide State, Joined, HasLists, Key, Items, HeadDue, ResetUnblockTime;
      Fields();
      HeadCases(State());
      var length := LengthOf(delayed);
      if length == 0 {
        return false, MAX_DELAY;
      }
      var x := HeadOf(delayed);
      next := ValueOf(x);
      due := tick >= next;
    }

    /** The scan of the delayed list: `xTaskIncrementTick` from its inner loop on. */
    method Scan() returns (switch: bool)
      requires Linked() && Good(State(), {}, 0)
      modifies `ls, `readyBits, `topReady, `unblockTime, heap.repr
      ensures Linked() && unchanged(heap)
      ensures State() == Expire(old(State()))
      ensures switch == WakesRival(old(State()), Due(old(State())))
    {
      hide State, Joined, HasLists, Good, Items, MakeReady, Key, Keys, ExpiredCount, WakesRival, Due, Scanned, Expire, Priority, HeadDue, ResetUnblockTime;
      ghost var s := State();
      switch := false;
      ScanBegins(s);
      ghost var k := 0;
      while true
        invariant k <= Due(s) && Linked() && unchanged(heap) && Good(State(), {}, 0)
        invariant Scanned(s, State(), k) && switch == WakesRival(s, k)
        decreases Due(s) - k
      {
        Fields();
        ScanEnds(s, State(), k);
        var due, next := HeadIsDue();
        if !due {
          SetUnblockTime(next);
          break;
        }
        ScanGoesOn(s, State(), k);
        var t := UnblockHead();
        var rival := Rivals(t);
        if rival {
          switch := true;
        }
        k := k + 1;
      }
    }

    /** `taskSWITCH_DELAYED_LISTS` */
    method SwitchDelayedLists()
      requires Linked()
      modifies `unblockTime, `overflows, `delayed, `overflow
      ensures Linked() && State() == SwitchLists(old(State()))
    {
      hide State, Joined, HasLists, ResetUnblockTime;
      SwapLists();
      ResetNextUnblockTime();
    }

    method SwapLists()
      requires Linked()
      modifies `overflows, `delayed, `overflow
      ensures Linked()
      ensures var s := old(State()); State() == s.(delayed := s.overflow, overflow := s.delayed, overflows := s.overflows + 1)
    {
      hide Joined, HasLists;
      delayed, overflow := overflow, delayed;
      overflows := overflows + 1;
    }

    /** The tick count advanced; the two lists are switched when it wraps. */
    method AdvanceTick()
      requires Linked()
      modifies `unblockTime, `tick, `overflows, `delayed, `overflow
      ensures Linked() && State() == Advanced(old(State()))
    {
      hide Joined, HasLists, SwitchLists;
      tick := (tick + 1) % WORD;
      if tick == 0 {
        SwitchDelayedLists();
      }
    }

    method PendTick()
      requires Linked()
      modifies `pendedTicks
      ensures Linked() && State() == old(State()).(pendedTicks := old(State()).pendedTicks + 1)
    {
      hide Joined, HasLists;
      pendedTicks := pendedTicks + 1;
    }

    /** `xTaskIncrementTick` while the scheduler is not suspended. */
    method ProcessOneTick() returns (switch: bool)
      requires Linked() && Good(State(), {}, 1)
      modifies `ls, `readyBits, `topReady, `unblockTime, `tick, `overflows, `delayed, `overflow, heap.repr
      ensures Linked() && unchanged(heap) && State() == ProcessTick(old(State()))
      ensures switch || old(State()).yieldPending <==> TickSwitches(old(State()))
    {
      hide State, Joined, HasLists, Good, Items, Key, Keys, ExpiredCount, WakesRival, Wake, Advanced, Expire;
      switch := false;
      ghost var s := State();
      AdvancedGood(s);
      AdvanceTick();
      Fields();
      ExpireIsTicked(State());
      PriorityBounded(s, s.current);
      if tick >= unblockTime {
        switch := Scan();
        Fields();
      }
      StandingReady();
      var length := LengthOf(Ready(PriorityOf(current)));
      if length > 1 {
        switch := true;
      }
    }

    /** `xTaskIncrementTick` */
    method IncrementTick() returns (switch: bool)
      requires Linked() && Good(State(), {}, 1)
      modifies `ls, `readyBits, `topReady, `unblockTime, `tick, `overflows, `delayed, `overflow, `pendedTicks, heap.repr
      ensures Linked() && unchanged(heap)
      ensures old(suspendDepth) == 0 ==> State() == ProcessTick(old(State())) && switch == TickSwitches(old(State()))
      ensures old(suspendDepth) != 0 ==>
                State() == old(State()).(pendedTicks := old(State()).pendedTicks + 1) && switch == old(State()).yieldPending
    {
      hide State, Joined, HasLists, Good, ProcessTick, TickSwitches;
      switch := false;
      Fields();
      ProcessTickFrame(State());
      if suspendDepth == 0 {
        switch := ProcessOneTick();
      } else {
        PendTick();
      }
      Fields();
      if yieldPending {
        switch := true;
      }
    }

    ghost method CountInterrupt()
      requires Linked()
      modifies `interrupts
      ensures Linked() && State() == old(State()).(interrupts := old(State()).interrupts + 1)
    {
      hide Joined, HasLists;
      interrupts := interrupts + 1;
    }

    /** The tick interrupt. */
    method TickHandler()
      requires Valid() && started
      modifies this, heap.repr
      ensures Valid() && unchanged(heap) && State() == TickInterrupt(old(State()))
    {
      hide State, Joined, HasLists, Inv, Good, ProcessTick, TickSwitches, Items;
      Fields();
      TickInterruptInv(State());
      InvIsGood(State());
      ProcessTickFrame(State());
      var switch := IncrementTick();
      CountInterrupt();
      if switch {
        RequestSwitch();
      }
    }

    // ----- the suspended scheduler

    /** `vTaskSuspendAll` */
    method SuspendScheduler()
      requires Valid()
      modifies `suspendDepth
      ensures Valid() && State() == SuspendAll(old(State()))
    {
      hide Joined, HasLists, Inv;
      suspendDepth := suspendDepth + 1;
      InvFlags(old(State()), State());
    }

    /** One level of suspension ends. */
    method LowerDepth()
      requires Valid() && suspendDepth != 0
      modifies `suspendDepth
      ensures Valid() && State() == old(State()).(suspendDepth := old(State()).suspendDepth - 1)
    {
      hide Joined, HasLists, Inv;
      suspendDepth := suspendDepth - 1;
      InvFlags(old(State()), State());
    }

    /** One pass of the first loop of `xTaskResumeAll`. */
    method ReleaseOne()
      requires Valid() && Items(ls, PendingReady) != []
      modifies `ls, `readyBits, `topReady, `yieldPending, heap.repr
      ensures Valid() && unchanged(heap) && State() == ReleaseHead(old(State()))
    {
      hide State, Joined, HasLists, Inv, Items, Without, AttachReady, MakeReady, Priority;
      Fields();
      Standing();
      ReleaseHeadInv(State());
      ReleasedHead(State());
      var x := HeadOf(PendingReady);
      var t := x.task;
      ghost var s := State();
      MakeReadyFrame(s, t);
      WakeWaiter(t);
      SamePriorities(s, State(), t);
      var rival := Rivals(t);
      if rival {
        PendYield();
      }
    }

    /** `xTaskResumeAll` */
    method ResumeAll() returns (alreadyYielded: bool)
      requires Valid() && started && suspendDepth != 0
      modifies this, heap.repr
      ensures Valid() && unchanged(heap) && State() == Kernels.ResumeAll(old(State()))
      ensures alreadyYielded <==> suspendDepth == 0 && yieldPending
    {
      hide State, Joined, HasLists, Inv, Items, ReleasePending, CatchUp;
      Fields();
      alreadyYielded := false;
      ResumeAllInv(State());
      LowerDepth();
      Fields();
      if suspendDepth == 0 {
        ReleaseAll();
        Fields();
        CatchUpAll();
        Fields();
        if yieldPending {
          alreadyYielded := true;
          RequestSwitch();
        }
      }
      Fields();
    }

    /** The first loop of `xTaskResumeAll`: the pending-ready list is emptied. */
    method ReleaseAll()
      requires Valid() && started && suspendDepth == 0
      modifies this, heap.repr
      ensures Valid() && unchanged(heap) && started && suspendDepth == 0
      ensures State() == ReleasePending(old(State()), |Items(old(State()).ls, PendingReady)|)
    {
      hide State, Joined, HasLists, Inv, Items, ReleaseHead;
      ghost var s := State();
      Fields();
      Standing();
      var length := LengthOf(PendingReady);
      while length != 0
        invariant Valid() && unchanged(heap) && started && suspendDepth == 0 && length == |Items(ls, PendingReady)|
        invariant ReleasePending(s, |Items(s.ls, PendingReady)|) == ReleasePending(State(), |Items(State().ls, PendingReady)|)
        decreases length
      {
        Fields();
        ReleaseHeadShortens(State());
        ReleaseOne();
        Fields();
        Standing();
        length := LengthOf(PendingReady);
      }
      Fields();
    }

    /** The second loop of `xTaskResumeAll`: the pended ticks are processed. */
    method CatchUpAll()
      requires Valid() && started && suspendDepth == 0
      modifies this, heap.repr
      ensures Valid() && unchanged(heap) && started && suspendDepth == 0
      ensures State() == CatchUp(old(State()), old(State()).pendedTicks)
    {
      hide State, Joined, HasLists, Inv, Items, CatchUpOne;
      ghost var s := State();
      Fields();
      while pendedTicks > 0
        invariant Valid() && unchanged(heap) && started && suspendDepth == 0
        invariant CatchUp(s, s.pendedTicks) == CatchUp(State(), pendedTicks)
      {
        Fields();
        CatchUpOneFrame(State());
        ProcessDeferred();
        Fields();
      }
    }

    /** One pass of the second loop of `xTaskResumeAll`. */
    method ProcessDeferred()
      requires Valid() && started && suspendDepth == 0 && 0 < pendedTicks
      modifies this, heap.repr
      ensures Valid() && unchanged(heap) && State() == CatchUpOne(old(State()))
    {
      hide State, Joined, HasLists, Inv, Good, ProcessTick, TickSwitches, Items;
      Fields();
      CatchUpOneInv(State());
      InvIsGood(State());
      ProcessTickFrame(State());
      var switch := IncrementTick();
      Fields();
      if switch {
        PendYield();
        Fields();
      }
      DropTick();
    }

    method DropTick()
      requires Linked() && 0 < pendedTicks
      modifies `pendedTicks
      ensures Linked() && State() == old(State()).(pendedTicks := old(State()).pendedTicks - 1)
    {
      hide Joined, HasLists;
      pendedTicks := pendedTicks - 1;
    }

    // ----- selecting a task

    method Choose(t: Task, top: nat)
      requires Linked()
      modifies `current, `topReady
      ensures Linked() && State() == old(State()).(current := t, topReady := top)
    {
      hide Joined, HasLists;
      current, topReady := t, top;
    }

    /** `listGET_OWNER_OF_NEXT_ENTRY` on the ready list of priority `top`. */
    method RunNext(top: nat)
      requires Linked() && top < PRIORITIES && Items(ls, Ready(top)) != []
      modifies `ls, `current, `topReady, heap.repr
      ensures Linked() && unchanged(heap)
      ensures var s := old(State());
              var l := List(AdvanceList(s.ls, Ready(top)), Ready(top));
              0 < l.index && State() == s.(ls := AdvanceList(s.ls, Ready(top)), topReady := top, current := Entry(l).task)
    {
      hide State, Joined, HasLists, AdvanceList, Items;
      StandingReady();
      Fields();
      var x := NextOwner(Ready(top));
      Fields();
      Choose(x.task, top);
    }

    /** A switch begins: nothing is requested any more, or it has to wait for the suspension to end. */
    method NoteSwitch(pending: bool)
      requires Linked()
      modifies `yieldPending, `switchRequested
      ensures Linked() && State() == old(State()).(yieldPending := pending, switchRequested := false)
    {
      hide Joined, HasLists;
      yieldPending, switchRequested := pending, false;
    }

    /** `vTaskSwitchContext` with the port-optimised `taskSELECT_HIGHEST_PRIORITY_TASK`. */
    method SwitchTask()
      requires Valid() && started
      modifies `ls, `current, `topReady, `yieldPending, `switchRequested, heap.repr
      ensures Valid() && unchanged(heap) && State() == SwitchContext(old(State()))
    {
      hide State, Joined, HasLists, Inv, Highest, AdvanceList, Items;
      Fields();
      SwitchContextInv(State());
      HighestReady(State());
      if suspendDepth != 0 {
        NoteSwitch(true);
      } else {
        NoteSwitch(false);
        Fields();
        RunNext(Highest(readyBits, PRIORITIES - 1));
      }
    }

    /** The generic selection: from the recorded upper bound down to the first ready list that is not
        empty. It finds one before the priority runs out, and the one it finds is the highest bit of
        the port-optimised bitmap. */
    method GenericScan() returns (top: nat)
      requires Valid() && started
      ensures top == Highest(readyBits, PRIORITIES - 1)
      ensures Items(ls, Ready(top)) != []
      ensures forall t :: IsReady(State(), t) ==> Priority(State(), t) <= top
    {
      hide State, Joined, HasLists, Inv, Items;
      Fields();
      StandingReady();
      HighestReady(State());
      BitsFacts(State());
      top := topReady;
      var length := LengthOf(Ready(top));
      while length == 0
        invariant top < PRIORITIES && length == |Items(ls, Ready(top))|
        invariant forall q :: q in readyBits ==> q <= top
        decreases top
      {
        assert 0 < top;
        top := top - 1;
        length := LengthOf(Ready(top));
      }
    }

    /** `vTaskSwitchContext` with the generic `taskSELECT_HIGHEST_PRIORITY_TASK`, which never looks
        at the bitmap. Both select the same task. */
    method SwitchTaskGeneric()
      requires Valid() && started
      modifies `ls, `current, `topReady, `yieldPending, `switchRequested, heap.repr
      ensures Valid() && unchanged(heap) && State() == SwitchContext(old(State()))
    {
      hide State, Joined, HasLists, Inv, Highest, AdvanceList, Items, IsReady, Priority;
      Fields();
      SwitchContextInv(State());
      HighestReady(State());
      if suspendDepth != 0 {
        NoteSwitch(true);
      } else {
        var top := GenericScan();
        NoteSwitch(false);
        Fields();
        RunNext(top);
      }
    }

    // ----- the creation of tasks

    /** `vListInitialiseItem` */
    method MakeItem(x: Item)
      requires this !in heap.repr && heap !in heap.repr && heap.Valid() && Same(heap.Value(), ls) && x !in heap.nodes
      modifies heap
      ensures this !in heap.repr && heap !in heap.repr && heap.Valid() && Same(heap.Value(), ls)
      ensures fresh(heap.repr - old(heap.repr)) && heap.lists == old(heap.lists) && heap.nodes.Keys == old(heap.nodes.Keys) + {x}
    {
      hide State, ListHeap.Valid, ListHeap.Value, Same, SetValue;
      heap.Known();
      SameNewItem(heap.Value(), ls, x);
      heap.NewItem(x, 0);
    }

    /** Both items of a control block. The memory of a task that has been freed is used again for a
        task of the same handle. */
    method MakeItems(t: Task)
      requires Linked()
      modifies heap
      ensures Linked() && fresh(heap.repr - old(heap.repr)) && heap.lists == old(heap.lists)
      ensures StateItem(t) in heap.nodes && EventItem(t) in heap.nodes
    {
      hide State, ListHeap.Valid, ListHeap.Value, HasLists, Same;
      if StateItem(t) !in heap.nodes {
        MakeItem(StateItem(t));
        MakeItem(EventItem(t));
      }
    }

    /** `prvInitialiseTCBVariables` */
    method InitialiseTask(t: Task, p: nat)
      requires Linked()
      modifies `ls, `priority, `basePriority, heap, heap.repr
      ensures Linked() && fresh(heap.repr - old(heap.repr)) && heap.lists == old(heap.lists)
      ensures StateItem(t) in heap.nodes && ls.container == old(ls.container)
      ensures var s := old(State());
              State() == s.(priority := s.priority[t := Clamp(p)], basePriority := s.basePriority[t := Clamp(p)],
                            ls := SetValue(s.ls, EventItem(t), PRIORITIES - Clamp(p)))
    {
      hide State, Joined, HasLists, SetValue;
      var clamped := if p >= PRIORITIES then PRIORITIES - 1 else p;
      MakeItems(t);
      PutPriority(t, clamped);
      PutBasePriority(t, clamped);
      PutValue(EventItem(t), PRIORITIES - clamped);
    }

    /** The accounts of `xTaskGenericCreate`. */
    method CountTask(t: Task, p: nat)
      requires Linked()
      modifies `taskCount, `current, `creating
      ensures Linked() && State() == Counted(old(State()), old(State()), t, p)
    {
      hide Joined, HasLists;
      taskCount := taskCount + 1;
      if started {
        creating := creating[current := p];
      } else if PriorityOf(current) <= p {
        current := t;
      }
    }

    /** The critical section of `xTaskGenericCreate`, after the memory has been allocated. */
    method AddTask(t: Task, p: nat)
      requires Valid() && t !in priority
      modifies `ls, `priority, `basePriority, `taskCount, `current, `readyBits, `topReady, `creating, heap, heap.repr
      ensures Valid() && fresh(heap.repr - old(heap.repr)) && State() == Kernels.Create(old(State()), t, p)
    {
      hide State, Joined, HasLists, Inv, AttachReady, Kernels.Create, SetValue, Items, Counted;
      Fields();
      CreateInv(State(), t, p);
      Newcomer(State(), t);
      CreatedIs(State(), t, p);
      InitialiseTask(t, p);
      CountTask(t, p);
      Fields();
      AddToReadyList(t);
    }

    method EndCreating()
      requires Linked()
      modifies `creating
      ensures Linked() && State() == old(State()).(creating := old(State()).creating - {old(State()).current})
    {
      hide Joined, HasLists;
      creating := creating - {current};
    }

    /** How `xTaskGenericCreate` ends: the running task compares its priority with that of the task it
        has created. */
    method FinishCreate()
      requires Valid() && current in creating
      modifies `creating, `switchRequested
      ensures Valid() && State() == EndCreate(old(State()))
    {
      hide State, Joined, HasLists, Inv, Priority;
      Fields();
      ghost var s := State();
      EndCreateInv(s);
      var p := creating[current];
      EndCreating();
      SamePriorities(s, State(), s.current);
      var lower := Below(p);
      if lower {
        RequestSwitch();
      }
    }

    /** Whether the running task's priority is below `p`. */
    method Below(p: nat) returns (b: bool)
      ensures b == (Priority(State(), State().current) < p)
    {
      b := PriorityOf(current) < p;
    }

    /** `xTaskGenericCreate` */
    method Create(t: Task, p: nat)
      requires Valid() && Enabled(State(), DoCreate(t, p))
      modifies `ls, `priority, `basePriority, `taskCount, `current, `readyBits, `topReady, `switchRequested, `creating,
               heap, heap.repr
      ensures Valid() && fresh(heap.repr - old(heap.repr))
      ensures var s := Kernels.Create(old(State()), t, p); State() == if old(started) then EndCreate(s) else s
    {
      hide State, Joined, HasLists, Inv, Kernels.Create, EndCreate;
      Fields();
      CreatorWaits(State(), t, p);
      AddTask(t, p);
      Fields();
      if started {
        FinishCreate();
      }
    }

    /** The lists and the first task: the first call of `xTaskGenericCreate`. */
    constructor (t: Task, p: nat)
      ensures Valid() && State() == Boot(t, p) && fresh(heap) && fresh(heap.repr)
    {
      hide Inv, ListHeap.Valid, ListHeap.Value, EmptyLists, Clamp, Same, HasLists, AttachReady, SetValue, Boot;
      var h := MakeLists();
      heap := h;
      ls := EmptyLists();
      var clamped := Clamp(p);
      priority, basePriority, current, idle := map[t := clamped], map[t := clamped], t, t;
      started, suspendDepth, delayed, overflow, tick, overflows, unblockTime := false, 0, DelayedA, DelayedB, 0, 0, MAX_DELAY;
      pendedTicks, interrupts, readyBits, topReady, taskCount, deletedCount := 0, 0, {}, 0, 1, 0;
      yieldPending, switchRequested, creating := false, false, map[];
      new;
      SameAsItself(ls);
      StandingLists(heap.lists);
      assert State() == Blank(t, p);
      BootIs(t, p);
      BootInv(t, p);
      Fields();
      FirstTask(t, clamped);
    }

    /** The first task's items are made and it joins its ready list. */
    method FirstTask(t: Task, p: nat)
      requires Linked() && p < PRIORITIES && t in priority && priority[t] == p && StateItem(t) !in ls.container
      modifies `ls, `readyBits, `topReady, heap, heap.repr
      ensures Linked() && fresh(heap.repr - old(heap.repr))
      ensures var s := old(State()); State() == AttachReady(s.(ls := SetValue(s.ls, EventItem(t), PRIORITIES - p)), t)
    {
      hide State, Joined, HasLists, AttachReady, SetValue;
      Fields();
      MakeItems(t);
      PutValue(EventItem(t), PRIORITIES - p);
      Fields();
      AddToReadyList(t);
    }

    method Run(idle: Task)
      requires Linked()
      modifies `idle, `started, `tick
      ensures Linked() && State() == old(State()).(idle := idle, started := true, tick := 0)
    {
      hide Joined, HasLists;
      this.idle, started, tick := idle, true, 0;
    }

    /** `vTaskStartScheduler` */
    method StartScheduler(idle: Task)
      requires Valid() && Enabled(State(), DoStart(idle))
      modifies this, heap, heap.repr
      ensures Valid() && fresh(heap.repr - old(heap.repr)) && State() == Start(old(State()), idle)
    {
      hide State, Joined, HasLists, Inv, Kernels.Create;
      Fields();
      StartInv(State(), idle);
      AddTask(idle, 0);
      Run(idle);
    }

    /** A new ring, for list `p`. */
    method MakeRing(p: ListId)
      requires Linked() && p !in heap.lists
      modifies heap
      ensures this !in heap.repr && heap !in heap.repr && heap.Valid() && Same(heap.Value(), AddEmpty(ls, p))
      ensures fresh(heap.repr - old(heap.repr)) && heap.nodes == old(heap.nodes) && heap.lists.Keys == old(heap.lists.Keys) + {p}
    {
      hide ListHeap.Valid, ListHeap.Value, Same, Paired, HasLists, AddEmpty;
      SameAddEmpty(heap.Value(), ls, p);
      heap.NewList(p);
    }

    /** `vListInitialise` */
    method MakeList(p: ListId)
      requires Linked() && p !in ls.contents
      modifies `ls, heap
      ensures Linked() && fresh(heap.repr - old(heap.repr)) && State() == old(State()).(ls := AddEmpty(old(State()).ls, p))
    {
      hide ListHeap.Valid, ListHeap.Value, Same, Paired, AddEmpty;
      Listed(p);
      MakeRing(p);
      ls := AddEmpty(ls, p);
    }

    /** The event list of a new queue or event group. */
    method NewEventList(e: nat)
      requires Valid() && Enabled(State(), DoCreateEventList(e))
      modifies `ls, heap
      ensures Valid() && fresh(heap.repr - old(heap.repr))
      ensures State() == old(State()).(ls := AddEmpty(old(State()).ls, Event(e)))
    {
      hide State, Joined, HasLists, Inv, AddEmpty;
      Fields();
      CreateEventListInv(State(), e);
      MakeList(Event(e));
    }

    // ----- the other operations

    /** Removal of the event item from whatever list it may be in. */
    method RemoveEvent(t: Task)
      requires Linked() && EventItem(t) in heap.nodes
      modifies `ls, heap.repr
      ensures Linked() && unchanged(heap) && State() == DetachEvent(old(State()), t)
      ensures ls.container == old(ls.container) - {EventItem(t)}
    {
      hide State, Joined, HasLists, Without;
      Fields();
      WithoutAbsentEvent(ls, t);
      var waits := IsSomewhere(EventItem(t));
      if waits {
        var _ := TakeOut(EventItem(t));
      }
    }

    /** What deletion and suspension do to the two items of a task. */
    method Retire(t: Task, p: ListId)
      requires Linked() && t in priority && priority[t] < PRIORITIES && StateItem(t) in ls.container && p in heap.lists
      requires IsReady(State(), t) ==> StateIn(State(), t, Ready(priority[t]))
      requires Items(ls, Ready(priority[t])) == [] ==> priority[t] !in readyBits
      modifies `ls, `readyBits, heap.repr
      ensures Linked() && unchanged(heap)
      ensures State() == AttachTo(DetachEvent(Detach(old(State()), t), t), t, p)
    {
      hide State, Joined, HasLists, Detach, DetachEvent, AddLast, Items, IsReady;
      Pair(StateItem(t));
      RemoveState(t, priority[t]);
      RemoveEvent(t);
      Append(p, StateItem(t));
    }

    method CountDeleted()
      requires Linked()
      modifies `deletedCount
      ensures Linked() && State() == old(State()).(deletedCount := old(State()).deletedCount + 1)
    {
      hide Joined, HasLists;
      deletedCount := deletedCount + 1;
    }

    /** The first critical section of `vTaskDelete`. */
    method DeleteTask(t: Task)
      requires Valid() && Enabled(State(), DoDelete(t))
      modifies `ls, `readyBits, `deletedCount, heap.repr
      ensures Valid() && unchanged(heap) && State() == Kernels.Delete(old(State()), t)
    {
      hide State, Joined, HasLists, Inv, Detach, DetachEvent, AttachTo, Items, StateIn, IsReady;
      Fields();
      Standing();
      DeleteInv(State(), t);
      Removable(State(), t);
      Retire(t, Terminated);
      CountDeleted();
    }

    /** How deletion and suspension end: a switch, if the running task is meant, or a critical section of
        its own. */
    method FinishRemoval(t: Task)
      requires Valid()
      modifies `unblockTime, `switchRequested
      ensures Valid() && State() == EndRemoval(old(State()), t)
    {
      hide State, Joined, HasLists, Inv, ResetUnblockTime;
      Fields();
      EndRemovalInv(State(), t);
      if t == current {
        RequestSwitch();
      } else {
        ResetNextUnblockTime();
      }
    }

    /** `vTaskDelete` */
    method Delete(t: Task)
      requires Valid() && Enabled(State(), DoDelete(t))
      modifies `ls, `readyBits, `deletedCount, `unblockTime, `switchRequested, heap.repr
      ensures Valid() && unchanged(heap) && State() == EndRemoval(Kernels.Delete(old(State()), t), t)
    {
      hide State, Joined, HasLists, Inv, Kernels.Delete, EndRemoval;
      DeleteTask(t);
      FinishRemoval(t);
    }

    /** The first critical section of `vTaskSuspend`. */
    method SuspendTask(t: Task)
      requires Valid() && Enabled(State(), DoSuspend(t))
      modifies `ls, `readyBits, heap.repr
      ensures Valid() && unchanged(heap) && State() == Kernels.Suspend(old(State()), t)
    {
      hide State, Joined, HasLists, Inv, Detach, DetachEvent, AttachTo, Items, StateIn, IsReady;
      Fields();
      Standing();
      SuspendInv(State(), t);
      Removable(State(), t);
      Retire(t, Suspended);
    }

    /** `vTaskSuspend` */
    method Suspend(t: Task)
      requires Valid() && Enabled(State(), DoSuspend(t))
      modifies `ls, `readyBits, `unblockTime, `switchRequested, heap.repr
      ensures Valid() && unchanged(heap) && State() == EndRemoval(Kernels.Suspend(old(State()), t), t)
    {
      hide State, Joined, HasLists, Inv, Kernels.Suspend, EndRemoval;
      SuspendTask(t);
      FinishRemoval(t);
    }

    /** `prvTaskIsTaskSuspended` */
    method IsTaskSuspended(t: Task) returns (b: bool)
      requires Valid() && t in priority
      ensures b == IsSuspended(State(), t)
      ensures StateItem(t) in heap.nodes && EventItem(t) in heap.nodes
    {
      hide State, Joined, HasLists, Inv;
      Fields();
      Standing();
      Removable(State(), t);
      Pair(StateItem(t));
      b := IsIn(Suspended, StateItem(t));
      if b {
        var waits := IsSomewhere(EventItem(t));
        b := !waits;
      }
    }

    /** A suspended task goes to its ready list. */
    method Unsuspend(t: Task)
      requires Valid() && t in priority && IsSuspended(State(), t)
      modifies `ls, `readyBits, `topReady, heap.repr
      ensures Linked() && unchanged(heap) && State() == AttachReady(Detach(old(State()), t), t)
    {
      hide State, Joined, HasLists, Inv, Without, AttachReady, Items;
      Fields();
      Removable(State(), t);
      Pair(StateItem(t));
      DetachFromDelayed(State(), t);
      var _ := TakeOut(StateItem(t));
      Fields();
      AddToReadyList(t);
    }

    /** `vTaskResume` */
    method Resume(t: Task)
      requires Valid() && Live(State(), t)
      modifies `ls, `readyBits, `topReady, `switchRequested, heap.repr
      ensures Valid() && unchanged(heap) && State() == Kernels.Resume(old(State()), t)
    {
      hide State, Joined, HasLists, Inv, Detach, AttachReady, Items, IsSuspended, Priority;
      Fields();
      ghost var s := State();
      ResumeInv(s, t);
      if t != current {
        var suspended := IsTaskSuspended(t);
        if suspended {
          AttachedFrames(State(), t);
          Unsuspend(t);
          SamePriorities(s, State(), t);
          Fields();
          var rival := Rivals(t);
          if rival {
            RequestSwitch();
          }
        }
      }
    }

    /** `xTaskResumeFromISR` */
    method ResumeFromISR(t: Task)
      requires Valid() && Live(State(), t)
      modifies `ls, `readyBits, `topReady, `switchRequested, heap.repr
      ensures Valid() && unchanged(heap) && State() == Kernels.ResumeFromISR(old(State()), t)
    {
      hide State, Joined, HasLists, Inv, Detach, AttachReady, AddLast, Items, Priority;
      Fields();
      ResumeFromISRInv(State(), t);
      var suspended := IsTaskSuspended(t);
      if suspended {
        if suspendDepth == 0 {
          var yieldRequired := Rivals(t);
          Unsuspend(t);
          if yieldRequired {
            RequestSwitch();
          }
        } else {
          Standing();
          Append(PendingReady, EventItem(t));
        }
      }
    }

    /** The rewriting of the event item value when a priority changes. */
    method SetEventPriority(t: Task, p: nat)
      requires Linked() && EventItem(t) in heap.nodes && p <= PRIORITIES
      modifies `ls, heap.repr
      ensures Linked() && unchanged(heap) && State() == FollowPriority(old(State()), t, p)
      ensures ls.container == old(ls.container) && ls.contents == old(ls.contents)
    {
      hide State, Joined, HasLists, SetValue, Key;
      Fields();
      var v := ValueOf(EventItem(t));
      if v < VALUE_IN_USE {
        PutValue(EventItem(t), PRIORITIES - p);
      }
    }

    /** A task found in the ready list of its old priority moves to that of its new one. */
    method MoveReady(t: Task, was: nat)
      requires Linked() && t in priority && priority[t] < PRIORITIES && was < PRIORITIES && StateItem(t) in heap.nodes
      requires Items(ls, Ready(was)) == [] ==> was !in readyBits
      modifies `ls, `readyBits, `topReady, heap.repr
      ensures Linked() && unchanged(heap) && State() == Requeue(old(State()), t, was)
    {
      hide State, Joined, HasLists, AttachReady, Detach, Items;
      Fields();
      StandingReady();
      DetachFrame(State(), t);
      var ready := IsIn(Ready(was), StateItem(t));
      if ready {
        RemoveState(t, was);
        Fields();
        AddToReadyList(t);
      }
    }

    /** The two priorities as `vTaskPrioritySet` writes them. */
    method WritePriorities(t: Task, p: nat)
      requires Linked() && t in priority && t in basePriority
      modifies `priority, `basePriority
      ensures Linked() && t in priority && (priority[t] == p || priority[t] == old(priority[t]))
      ensures State() == Rewritten(old(State()), t, p)
    {
      hide State, Joined, HasLists;
      Fields();
      if basePriority[t] == priority[t] {
        PutPriority(t, p);
      }
      PutBasePriority(t, p);
      Fields();
    }

    /** The changes `vTaskPrioritySet` makes: an inherited priority is kept, the base priority is set
        whatever. */
    method Reprioritise(t: Task, p: nat)
      requires Linked() && t in priority && t in basePriority && p < PRIORITIES && priority[t] < PRIORITIES
      requires StateItem(t) in heap.nodes && EventItem(t) in heap.nodes
      requires Items(ls, Ready(priority[t])) == [] ==> priority[t] !in readyBits
      modifies `ls, `readyBits, `topReady, `priority, `basePriority, heap.repr
      ensures Linked() && unchanged(heap)
      ensures State() == Reprioritised(old(State()), t, p)
    {
      hide State, Joined, HasLists, FollowPriority, Requeue, Items, Rewritten;
      Fields();
      var used := priority[t];
      RewrittenFrame(State(), t, p);
      WritePriorities(t, p);
      Fields();
      FollowPriorityFrame(State(), t, p);
      SetEventPriority(t, p);
      Fields();
      EqualItems(old(ls), ls, Ready(used));
      MoveReady(t, used);
    }

    /** `vTaskPrioritySet` */
    method PrioritySet(t: Task, p: nat)
      requires Valid() && Enabled(State(), DoSetPriority(t, p))
      modifies `ls, `readyBits, `topReady, `priority, `basePriority, `switchRequested, heap.repr
      ensures Valid() && unchanged(heap) && State() == SetPriority(old(State()), t, p)
    {
      hide State, Joined, HasLists, Inv, Reprioritised, Items, SetPriority;
      Fields();
      SetPriorityInv(State(), t, p);
      Removable(State(), t);
      PrioritySetIs(State(), t, p);
      Removable(State(), current);
      Pair(StateItem(t));
      var newPriority := if p >= PRIORITIES then PRIORITIES - 1 else p;
      var base := basePriority[t];
      if base != newPriority {
        var yieldRequired := if newPriority > base then t != current && newPriority >= priority[current] else t == current;
        Reprioritise(t, newPriority);
        if yieldRequired {
          RequestSwitch();
        }
      }
    }

    /** `vTaskPriorityInherit`, when the mutex has a holder. */
    method PriorityInherit(t: Task)
      requires Valid() && Enabled(State(), DoInherit(t))
      modifies `ls, `readyBits, `topReady, `priority, heap.repr
      ensures Valid() && unchanged(heap) && State() == Inherit(old(State()), t)
    {
      hide State, Joined, HasLists, Inv, FollowPriority, Requeue, Items;
      Fields();
      InheritInv(State(), t);
      Removable(State(), t);
      Removable(State(), current);
      Pair(StateItem(t));
      var p := priority[current];
      if priority[t] < p {
        FollowPriorityFrame(State(), t, p);
        SetEventPriority(t, p);
        Fields();
        EqualItems(old(ls), ls, Ready(priority[t]));
        var was := priority[t];
        PutPriority(t, p);
        Fields();
        MoveReady(t, was);
      }
    }

    /** A priority and the event item value that follows it. */
    method Rebase(t: Task, p: nat)
      requires Linked() && EventItem(t) in heap.nodes && p <= PRIORITIES
      modifies `ls, `priority, heap.repr
      ensures Linked() && unchanged(heap) && ls.container == old(ls.container)
      ensures var s := old(State()).(priority := old(State()).priority[t := p]);
              State() == FollowPriority(s, t, p) && FollowPriority(s, t, p) == s.(ls := State().ls)
    {
      hide State, Joined, HasLists, FollowPriority;
      PutPriority(t, p);
      FollowPriorityFrame(State(), t, p);
      SetEventPriority(t, p);
    }

    /** A task that has left its ready list joins that of another priority. */
    method ReturnTo(t: Task, p: nat)
      requires Linked() && p < PRIORITIES && StateItem(t) in heap.nodes && EventItem(t) in heap.nodes && StateItem(t) !in ls.container
      modifies `ls, `readyBits, `topReady, `priority, heap.repr
      ensures Linked() && unchanged(heap)
      ensures var s := old(State()); State() == AttachReady(FollowPriority(s.(priority := s.priority[t := p]), t, p), t)
    {
      hide State, Joined, HasLists, FollowPriority, AttachReady;
      Rebase(t, p);
      Fields();
      AddToReadyList(t);
    }

    /** `vTaskPriorityDisinherit`, called by the running holder. */
    method PriorityDisinherit()
      requires Valid() && Enabled(State(), DoDisinherit)
      modifies `ls, `readyBits, `topReady, `priority, heap.repr
      ensures Valid() && unchanged(heap) && State() == Disinherit(old(State()))
    {
      hide State, Joined, HasLists, Inv, FollowPriority, Detach, AttachReady, Items;
      Fields();
      DisinheritInv(State());
      CurrentFacts(State());
      Removable(State(), current);
      Pair(StateItem(current));
      var base := basePriority[current];
      if priority[current] != base {
        DetachFrame(State(), current);
        RemoveState(current, priority[current]);
        Fields();
        ReturnTo(current, base);
      }
    }

    // ----- blocking and waking

    /** The running task leaves its ready list: `uxListRemove` and `portRESET_READY_PRIORITY`. */
    method LeaveReady()
      requires Linked() && current in priority && StateIn(State(), current, Ready(priority[current]))
      modifies `ls, `readyBits, heap.repr
      ensures Linked() && unchanged(heap) && State() == Detach(old(State()), old(State()).current)
      ensures ls.container == old(ls.container) - {StateItem(current)}
    {
      hide State, Joined, HasLists, Without, Items;
      Fields();
      var left := TakeOut(StateItem(current));
      Fields();
      if left == 0 {
        ClearBit(priority[current]);
        Fields();
      }
    }

    /** What both blocking calls do once the event item is in its list. */
    method BlockCurrent(ticks: nat)
      requires Linked() && current in priority && StateIn(State(), current, Ready(priority[current]))
      modifies `ls, `readyBits, `unblockTime, heap.repr
      ensures Linked() && unchanged(heap) && State() == Block(old(State()), ticks)
    {
      hide State, Joined, HasLists, Detach, AttachDelayed, AddLast, Items;
      Fields();
      Standing();
      Pair(StateItem(current));
      DetachFrame(State(), current);
      LeaveReady();
      Fields();
      if ticks == MAX_DELAY {
        Append(Suspended, StateItem(current));
      } else {
        var wake := (tick + ticks) % WORD;
        AddCurrentToDelayedList(wake);
      }
    }

    /** `vTaskPlaceOnEventList` */
    method PlaceOnEventList(e: nat, ticks: nat)
      requires Valid() && Enabled(State(), DoPlaceOnEvent(e, ticks))
      modifies `ls, `readyBits, `unblockTime, heap.repr
      ensures Valid() && unchanged(heap) && State() == PlaceOnEvent(old(State()), e, ticks)
    {
      hide State, Joined, HasLists, Inv, Block, AddSorted, Items;
      Fields();
      Listed(Event(e));
      PlaceOnEventInv(State(), e, ticks);
      Blockable(State());
      Pair(StateItem(current));
      InsertSorted(Event(e), EventItem(current));
      Fields();
      BlockCurrent(ticks);
    }

    /** `vTaskPlaceOnUnorderedEventList` */
    method PlaceOnUnorderedEventList(e: nat, v: nat, ticks: nat)
      requires Valid() && Enabled(State(), DoPlaceOnUnordered(e, v, ticks))
      modifies `ls, `readyBits, `unblockTime, heap.repr
      ensures Valid() && unchanged(heap) && State() == PlaceOnUnordered(old(State()), e, v, ticks)
    {
      hide State, Joined, HasLists, Inv, Block, AddLast, SetValue, Items;
      Fields();
      Listed(Event(e));
      PlaceOnUnorderedInv(State(), e, v, ticks);
      Blockable(State());
      Pair(StateItem(current));
      PutValue(EventItem(current), v + VALUE_IN_USE);
      Fields();
      Append(Event(e), EventItem(current));
      Fields();
      BlockCurrent(ticks);
    }

    /** The body of `vTaskDelay` and, when it blocks, of `vTaskDelayUntil`, run with the scheduler
        suspended. */
    method DelayCurrentUntil(wake: nat, ghost ticks: nat)
      requires Valid() && Enabled(State(), DoDelay(ticks)) && wake == (tick + ticks) % WORD
      modifies `ls, `readyBits, `unblockTime, heap.repr
      ensures Valid() && unchanged(heap) && State() == DelayFor(old(State()), ticks)
    {
      hide State, Joined, HasLists, Inv, Items, Detach, AttachDelayed;
      Fields();
      DelayForInv(State(), ticks);
      Blockable(State());
      Pair(StateItem(current));
      DetachFrame(State(), current);
      LeaveReady();
      Fields();
      AddCurrentToDelayedList(wake);
    }

    /** `vTaskDelay`: a switch is forced unless ending the suspension has already requested one. */
    method Delay(ticks: nat)
      requires Valid() && started && suspendDepth == 0 && MayBlock(State()) && ticks < WORD
      modifies this, heap.repr
      ensures Valid() && unchanged(heap)
      ensures State() == Yield(if ticks == 0 then old(State()) else Kernels.ResumeAll(DelayFor(SuspendAll(old(State())), ticks)))
    {
      hide State, Joined, HasLists, Inv, Items, Kernels.ResumeAll, DelayFor, IsReady;
      Fields();
      if ticks > 0 {
        SuspendScheduler();
        Fields();
        SameReady(old(State()), State(), current);
        DelayCurrentUntil((tick + ticks) % WORD, ticks);
        DelayForDepth(SuspendAll(old(State())), ticks);
        Fields();
        ResumeAndYield();
      } else {
        InvFlags(State(), Yield(State()));
        RequestSwitch();
      }
    }

    /** `vTaskDelayUntil`: `previous` is the caller's previous wake time, and `wake` what is stored in
        its place. */
    method DelayUntil(previous: nat, increment: nat) returns (wake: nat)
      requires Valid() && started && suspendDepth == 0 && MayBlock(State())
      requires previous < WORD && 1 <= increment < WORD
      modifies this, heap.repr
      ensures Valid() && unchanged(heap) && wake == (previous + increment) % WORD
      ensures var s := SuspendAll(old(State()));
              State() == Yield(Kernels.ResumeAll(
                if ShouldDelay(previous, increment, s.tick) then DelayFor(s, Since(wake, s.tick)) else s))
    {
      hide State, Joined, HasLists, Inv, Items, Kernels.ResumeAll, DelayFor, IsReady;
      Fields();
      SuspendScheduler();
      Fields();
      TickIsWord(State());
      wake := (previous + increment) % WORD;
      var shouldDelay := false;
      if tick < previous {
        if wake < previous && wake > tick {
          shouldDelay := true;
        }
      } else {
        if wake < previous || wake > tick {
          shouldDelay := true;
        }
      }
      if shouldDelay {
        SameReady(old(State()), State(), current);
        SinceLands(wake, tick);
        DelayCurrentUntil(wake, Since(wake, tick));
        DelayForDepth(SuspendAll(old(State())), Since(wake, old(State()).tick));
        Fields();
      }
      ResumeAndYield();
    }

    /** How the delays end: a switch, unless ending the suspension has asked for one already. */
    method ResumeAndYield()
      requires Valid() && started && suspendDepth == 1
      modifies this, heap.repr
      ensures Valid() && unchanged(heap) && State() == Yield(Kernels.ResumeAll(old(State())))
    {
      hide State, Joined, HasLists, Inv, Items, Kernels.ResumeAll;
      Fields();
      ResumeAllRequests(State());
      var alreadyYielded := ResumeAll();
      Fields();
      InvFlags(State(), Yield(State()));
      if !alreadyYielded {
        RequestSwitch();
      }
    }

    /** A woken task's state item moves to its ready list. */
    method ReadyWoken(t: Task)
      requires Linked() && t in priority && priority[t] < PRIORITIES && StateItem(t) in ls.container
      modifies `ls, `readyBits, `topReady, heap.repr
      ensures Linked() && unchanged(heap)
      ensures var s := old(State()); State() == AttachReady(s.(ls := Without(s.ls, StateItem(t))), t)
    {
      hide State, Joined, HasLists, Without, AttachReady;
      Fields();
      Pair(StateItem(t));
      var _ := TakeOut(StateItem(t));
      Fields();
      AddToReadyList(t);
    }

    /** A waiting task leaves its event list and its blocked list for its ready list. */
    method WakeWaiter(t: Task)
      requires Valid() && EventItem(t) in ls.container
      modifies `ls, `readyBits, `topReady, heap.repr
      ensures Linked() && unchanged(heap) && State() == MakeReady(old(State()), t)
    {
      hide State, Joined, HasLists, Inv, Without, AttachReady, MakeReady;
      Fields();
      WokenWaiter(State(), t);
      var _ := TakeOut(EventItem(t));
      Fields();
      ReadyWoken(t);
    }

    /** The comparison that ends a wake-up. */
    method ReportWoken(t: Task) returns (woken: bool)
      requires Linked()
      modifies `yieldPending
      ensures Linked() && woken == (Priority(old(State()), t) > Priority(old(State()), old(State()).current))
      ensures State() == PendIf(old(State()), woken)
    {
      hide State, Joined, HasLists;
      Fields();
      woken := PriorityOf(t) > PriorityOf(current);
      if woken {
        PendYield();
      }
    }

    /** A waiting task leaves its event list and is made ready or, while the scheduler is suspended,
        held in the pending-ready list. */
    method WakeOrHold(t: Task)
      requires Linked() && EventItem(t) in ls.container && StateItem(t) in ls.container && t in priority && priority[t] < PRIORITIES
      modifies `ls, `readyBits, `topReady, heap.repr
      ensures Linked() && unchanged(heap)
      ensures var s := old(State()); var ls := Without(s.ls, EventItem(t));
              State() == if s.suspendDepth == 0 then AttachReady(s.(ls := Without(ls, StateItem(t))), t)
                         else s.(ls := AddLast(ls, PendingReady, EventItem(t)))
    {
      hide State, Joined, HasLists, Without, AttachReady, AddLast;
      Fields();
      Pair(EventItem(t));
      var _ := TakeOut(EventItem(t));
      Fields();
      if suspendDepth == 0 {
        ReadyWoken(t);
      } else {
        Standing();
        Append(PendingReady, EventItem(t));
      }
    }

    /** `xTaskRemoveFromEventList` */
    method RemoveFromEventList(e: nat) returns (woken: bool)
      requires Valid() && started && Items(ls, Event(e)) != []
      modifies `ls, `readyBits, `topReady, `yieldPending, heap.repr
      ensures Valid() && unchanged(heap) && State() == RemoveFromEvent(old(State()), e)
      ensures var s := old(State()); woken == (Priority(s, Items(old(ls), Event(e))[0].task) > Priority(s, s.current))
    {
      hide State, Joined, HasLists, Inv, Without, AttachReady, AddLast, MakeReady, Items, Priority;
      Fields();
      ghost var s := State();
      RemoveFromEventInv(s, e);
      WokenHead(s, e);
      MakeReadyFrame(s, Items(ls, Event(e))[0].task);
      Listed(Event(e));
      var x := HeadOf(Event(e));
      var t := x.task;
      WakeOrHold(t);
      SamePriorities(s, State(), t);
      woken := ReportWoken(t);
    }

    /** `xTaskRemoveFromUnorderedEventList` */
    method RemoveFromUnorderedEventList(t: Task, v: nat) returns (woken: bool)
      requires Valid() && Enabled(State(), DoRemoveFromUnordered(t, v))
      modifies `ls, `readyBits, `topReady, `yieldPending, heap.repr
      ensures Valid() && unchanged(heap) && State() == RemoveFromUnordered(old(State()), t, v)
    {
      hide State, Joined, HasLists, Inv, Items, SetValue, MakeReady, Priority;
      Fields();
      ghost var s := State();
      Pair(EventItem(t));
      RemoveFromUnorderedInv(s, t, v);
      SetEventValueInv(s, t, v + VALUE_IN_USE);
      MakeReadyFrame(s.(ls := SetValue(s.ls, EventItem(t), v + VALUE_IN_USE)), t);
      PutValue(EventItem(t), v + VALUE_IN_USE);
      Fields();
      WakeWaiter(t);
      SamePriorities(s, State(), t);
      woken := ReportWoken(t);
    }

    /** `uxTaskResetEventItemValue` */
    method ResetEventItemValue() returns (v: nat)
      requires Valid()
      modifies `ls, heap.repr
      ensures Valid() && unchanged(heap) && State() == ResetEventValue(old(State()))
      ensures var s := old(State()); v == Key(s.ls.value, EventItem(s.current))
    {
      hide State, Joined, HasLists, Inv, SetValue, Key, ResetEventValue, Items, IsReady, StateIn;
      Fields();
      CurrentFacts(State());
      Removable(State(), current);
      ResetEventValueIs(State());
      Pair(StateItem(current));
      SetEventValueInv(State(), current, PRIORITIES - priority[current]);
      v := ValueOf(EventItem(current));
      PutValue(EventItem(current), PRIORITIES - priority[current]);
    }

    /** One pass of `prvCheckTasksWaitingTermination`. */
    method FreeDeleted()
      requires Valid() && Enabled(State(), DoReap)
      modifies `ls, `readyBits, `taskCount, `deletedCount, `priority, `basePriority, `creating, heap.repr
      ensures Valid() && unchanged(heap) && State() == Reap(old(State()))
    {
      hide State, Joined, HasLists, Inv, Without, Items, Reap, Enabled;
      Fields();
      Standing();
      EnabledFacts(State(), DoReap);
      ReapInv(State());
      DeletedHead(State());
      var x := HeadOf(Terminated);
      var t := x.task;
      var _ := TakeOut(StateItem(t));
      Uncount();
      Forget(t);
    }

    /** The accounts of a deleted task are closed. */
    method Uncount()
      requires Linked() && 0 < State().taskCount && 0 < State().deletedCount
      modifies `taskCount, `deletedCount
      ensures Linked()
      ensures State() == old(State()).(taskCount := old(State()).taskCount - 1, deletedCount := old(State()).deletedCount - 1)
    {
      hide Joined, HasLists;
      taskCount := taskCount - 1;
      deletedCount := deletedCount - 1;
    }

    /** `prvDeleteTCB` */
    method Forget(t: Task)
      requires Linked()
      modifies `priority, `basePriority, `creating
      ensures Linked()
      ensures var s := old(State());
              State() == s.(priority := s.priority - {t}, basePriority := s.basePriority - {t}, creating := s.creating - {t})
    {
      hide Joined, HasLists;
      priority := priority - {t};
      basePriority := basePriority - {t};
      creating := creating - {t};
    }

    // ----- every step

    /** Creation and the start. */
    method PerformCreation(step: Step)
      requires Valid() && Enabled(State(), step) && (step.DoCreate? || step.DoEndCreate? || step.DoStart?)
      modifies this, heap, heap.repr
      ensures Linked() && fresh(heap.repr - old(heap.repr)) && State() == Next(old(State()), step)
    {
      hide State, Joined, HasLists, Inv, Enabled, Kernels.Create, EndCreate, Start;
      Fields();
      EnabledFacts(State(), step);
      match step
      case DoCreate(t, p) => AddTask(t, p);
      case DoEndCreate => FinishCreate();
      case DoStart(t) => StartScheduler(t);
    }

    /** Deletion, suspension and priorities. */
    method PerformTaskStep(step: Step)
      requires Valid() && Enabled(State(), step) && IsTaskStep(step) && !step.DoCreate? && !step.DoEndCreate? && !step.DoStart?
      modifies this, heap.repr
      ensures Linked() && unchanged(heap) && State() == Next(old(State()), step)
    {
      hide State, Joined, HasLists, Inv, Enabled, Live, Kernels.Delete, ResetUnblockTime, Reap, Kernels.Suspend,
        Kernels.Resume, Kernels.ResumeFromISR, SetPriority, Inherit, Disinherit;
      EnabledFacts(State(), step);
      match step
      case DoDelete(t) => DeleteTask(t);
      case DoResetUnblockTime => ResetNextUnblockTime();
      case DoReap => FreeDeleted();
      case DoSuspend(t) => SuspendTask(t);
      case DoResume(t) => Resume(t);
      case DoResumeFromISR(t) => ResumeFromISR(t);
      case DoSetPriority(t, p) => PrioritySet(t, p);
      case DoInherit(t) => PriorityInherit(t);
      case DoDisinherit => PriorityDisinherit();
    }

    /** Blocking and waking. */
    method PerformBlockStep(step: Step)
      requires Valid() && Enabled(State(), step) && IsBlockStep(step)
      modifies this, heap.repr
      ensures Linked() && unchanged(heap) && State() == Next(old(State()), step)
    {
      hide State, Joined, HasLists, Inv, Enabled, DelayFor, PlaceOnEvent, PlaceOnUnordered, RemoveFromEvent, RemoveFromUnordered,
        ResetEventValue, Items;
      Fields();
      EnabledFacts(State(), step);
      match step
      case DoDelay(ticks) => DelayCurrentUntil((tick + ticks) % WORD, ticks);
      case DoPlaceOnEvent(e, ticks) => PlaceOnEventList(e, ticks);
      case DoPlaceOnUnordered(e, v, ticks) => PlaceOnUnorderedEventList(e, v, ticks);
      case DoRemoveFromEvent(e) => var _ := RemoveFromEventList(e);
      case DoRemoveFromUnordered(t, v) => var _ := RemoveFromUnorderedEventList(t, v);
      case DoResetEventValue => var _ := ResetEventItemValue();
    }

    /** Ticks, suspension, the switch and new event lists. */
    method PerformKernelStep(step: Step)
      requires Valid() && Enabled(State(), step) && !IsTaskStep(step) && !IsBlockStep(step)
      modifies this, heap, heap.repr
      ensures Linked() && fresh(heap.repr - old(heap.repr)) && State() == Next(old(State()), step)
    {
      hide State, Joined, HasLists, Inv, Enabled, TickInterrupt, Kernels.ResumeAll, SwitchContext, AddEmpty;
      Fields();
      EnabledFacts(State(), step);
      match step
      case DoMissedYield => PendYield();
      case DoYield => RequestSwitch();
      case DoTick => TickHandler();
      case DoSuspendAll => SuspendScheduler();
      case DoResumeAll => var _ := ResumeAll();
      case DoSwitchContext => SwitchTask();
      case DoCreateEventList(e) => NewEventList(e);
    }

    /** Every step the source can take, in any state of any run, is carried out in place, on the linked
        lists, as the step machine says. */
    method Perform(step: Step)
      requires Valid() && Enabled(State(), step)
      modifies this, heap, heap.repr
      ensures Valid() && fresh(heap.repr - old(heap.repr)) && State() == Next(old(State()), step)
    {
      hide State, Joined, HasLists, Inv, Enabled, Next;
      StepInv(State(), step);
      if step.DoCreate? || step.DoEndCreate? || step.DoStart? {
        PerformCreation(step);
      } else if IsTaskStep(step) {
        PerformTaskStep(step);
      } else if IsBlockStep(step) {
        PerformBlockStep(step);
      } else {
        PerformKernelStep(step);
      }
    }

    // ----- the report

    /** What is reported of one task. */
    method StatusOf(t: Task, state: TaskState) returns (status: TaskStatus)
      requires Linked() && EventItem(t) in heap.nodes
      ensures status == Status(ls, priority, basePriority, t, state)
    {
      hide State, Joined, HasLists;
      var waits := IsSomewhere(EventItem(t));
      status := TaskStatus(t, if state == Dormant && waits then Blocked else state, PriorityOf(t),
                           if t in basePriority then basePriority[t] else 0);
    }

    /** The next task on a walk, and what is reported of it. */
    method NextStatus(p: ListId, state: TaskState) returns (next: Item, status: TaskStatus)
      requires Linked() && p in heap.lists && Items(ls, p) != []
      modifies `ls, heap.repr
      ensures Linked() && unchanged(heap)
      ensures var s := old(State()); var r := s.(ls := AdvanceList(s.ls, p));
              && State() == r && 0 < List(r.ls, p).index && next == Entry(List(r.ls, p))
              && status == Status(r.ls, r.priority, r.basePriority, next.task, state)
    {
      hide State, Joined, HasLists, AdvanceList, Status, Items;
      next := NextOwner(p);
      Fields();
      PairOf(next);
      status := StatusOf(next.task, state);
    }

    /** `prvListTaskWithinSingleList`: a first advance, then one status for each advance until the
        walk comes back to the first task. */
    method ListWithin(p: ListId, state: TaskState) returns (report: seq<TaskStatus>)
      requires Linked() && p in heap.lists && ListValues.Valid(List(ls, p))
      modifies `ls, heap.repr
      ensures Linked() && unchanged(heap)
      ensures State() == old(State()).(ls := WalkedThrough(old(State()).ls, p))
      ensures ReportsList(old(State()), p, report, state)
    {
      hide State, Joined, HasLists, AdvanceList, Status, Items, ReportedSoFar, WalkedThrough, ReportsList;
      report := [];
      ghost var s := State();
      Fields();
      var length := LengthOf(p);
      if length == 0 {
        NoWalk(s, p, state);
        return;
      }
      Listed(p);
      WalkBegins(s, p, state);
      var first := NextOwner(p);
      Fields();
      var more := true;
      while more
        invariant Linked() && unchanged(heap) && ReportedSoFar(s, State(), p, first, report, state)
        invariant |report| <= |Items(s.ls, p)| && (more <==> |report| < |Items(s.ls, p)|)
        decreases |Items(s.ls, p)| - |report|
      {
        WalkGoesOn(s, State(), p, first, report, state);
        Fields();
        var next, status := NextStatus(p, state);
        report := report + [status];
        more := next != first;
      }
      WalkEnds(s, State(), p, first, report, state);
    }

    /** `prvListTaskWithinSingleList`, its results appended to the report. */
    method AppendList(p: ListId, report: seq<TaskStatus>, ghost lists: seq<ListId>) returns (longer: seq<TaskStatus>)
      requires Valid() && IsStateList(p) && p in heap.lists && p !in lists && Reported(State(), report, lists)
      modifies `ls, heap.repr
      ensures Valid() && unchanged(heap) && Walked(old(State()), State())
      ensures Reported(State(), longer, lists + [p])
    {
      hide State, Joined, HasLists, Inv, WalkedThrough, Reported, Walked;
      ghost var s := State();
      Fields();
      ValidList(s, p);
      var more := ListWithin(p, ListState(p));
      ReportedMore(s, report, lists, p, more);
      longer := report + more;
      WalkedList(s, p);
      WalkedInv(s, State());
      WalkedReported(s, State(), longer, lists + [p]);
    }

    /** The body of `uxTaskGetSystemState`, run with the scheduler suspended: a status for every
        task, provided the caller's array can hold them. */
    method GetSystemState(arraySize: nat) returns (report: seq<TaskStatus>)
      requires Valid()
      modifies `ls, heap.repr
      ensures Valid() && unchanged(heap) && Walked(old(State()), State())
      ensures arraySize < taskCount ==> report == [] && State() == old(State())
      ensures arraySize >= taskCount ==>
                && |report| == taskCount && Distinct(TasksOf(report))
                && (forall t :: t in TasksOf(report) <==> t in priority)
                && (forall i :: 0 <= i < |report| ==>
                      var t := report[i].task;
                      && t in priority && report[i].priority == priority[t]
                      && t in basePriority && report[i].basePriority == basePriority[t]
                      && (t != current ==> report[i].state == StateOf(old(State()), t)))
    {
      hide State, Joined, HasLists, Inv, Reported, Walked, StateOf;
      report := [];
      ghost var s := State();
      Fields();
      WalkedNowhere(s);
      if arraySize >= taskCount {
        ghost var lists := StateLists(s);
        ListNames(s);
        report := AppendReady(lists);
        ghost var m := State();
        WalkedNames(s, m);
        report := AppendRest(report, lists);
        WalkedOn(s, m, State());
        WalkedNames(m, State());
        ReportIsComplete(State(), report);
        SameStates(s, State());
        Fields();
      }
    }

    /** The ready tasks, from the highest priority down. */
    method AppendReady(ghost lists: seq<ListId>) returns (report: seq<TaskStatus>)
      requires Valid() && lists == StateLists(State())
      modifies `ls, heap.repr
      ensures Valid() && unchanged(heap) && Walked(old(State()), State())
      ensures Reported(State(), report, lists[..PRIORITIES])
    {
      hide State, Joined, HasLists, Inv, Reported, Walked, StateLists;
      report := [];
      ghost var s := State();
      WalkedNowhere(s);
      ListNames(s);
      StandingReady();
      var queue: nat := PRIORITIES;
      while queue > 0
        invariant queue <= PRIORITIES && |lists| == PRIORITIES + 4 && lists == StateLists(State())
        invariant Valid() && unchanged(heap) && Walked(s, State())
        invariant Reported(State(), report, lists[..PRIORITIES - queue])
      {
        queue := queue - 1;
        ghost var before := State();
        NextList(before, lists, PRIORITIES - 1 - queue);
        report := AppendList(Ready(queue), report, lists[..PRIORITIES - 1 - queue]);
        WalkedOn(s, before, State());
        WalkedNames(before, State());
      }
    }

    /** The blocked, deleted and suspended tasks. */
    method AppendRest(report: seq<TaskStatus>, ghost lists: seq<ListId>) returns (longer: seq<TaskStatus>)
      requires Valid() && lists == StateLists(State()) && Reported(State(), report, lists[..PRIORITIES])
      modifies `ls, heap.repr
      ensures Valid() && unchanged(heap) && Walked(old(State()), State())
      ensures Reported(State(), longer, lists)
    {
      hide State, Joined, HasLists, Inv, Reported, Walked, StateLists;
      ghost var s := State();
      Fields();
      Standing();
      ListNames(s);
      LastLists(s);
      NextList(s, lists, PRIORITIES);
      longer := AppendList(delayed, report, lists[..PRIORITIES]);
      ghost var s1 := State();
      WalkedNames(s, s1);
      NextList(s1, lists, PRIORITIES + 1);
      longer := AppendList(overflow, longer, lists[..PRIORITIES + 1]);
      ghost var s2 := State();
      WalkedOn(s, s1, s2);
      WalkedNames(s1, s2);
      NextList(s2, lists, PRIORITIES + 2);
      longer := AppendList(Terminated, longer, lists[..PRIORITIES + 2]);
      ghost var s3 := State();
      WalkedOn(s, s2, s3);
      WalkedNames(s2, s3);
      NextList(s3, lists, PRIORITIES + 3);
      longer := AppendList(Suspended, longer, lists[..PRIORITIES + 3]);
      WalkedOn(s, s3, State());
      assert lists[..PRIORITIES + 4] == lists;
    }
  }

  lemma NowParts(s: Kernel)
    requires s.tick < WORD
    ensures Now(s) % WORD == s.tick
  {
    TickParts(s.overflows, s.tick);
  }

  lemma MayBlockTicks(s: Kernel, ticks: nat)
    requires s.started && MayBlock(s) && s.suspendDepth != 0 && 1 <= ticks < WORD
    ensures Enabled(s, DoDelay(ticks))
  {
  }

  /** A blocking call of `vTaskDelayUntil` waits for what is left of the grid point. */
  lemma GridStep(wake: nat, increment: nat, now: nat)
    requires wake <= now < wake + WORD && 1 <= increment < WORD && ShouldDelay(wake % WORD, increment, now % WORD)
    ensures now < wake + increment
    ensures 1 <= Since((wake % WORD + increment) % WORD, now % WORD) == wake + increment - now < WORD
  {
    DelaysUntilWakeTime(wake, increment, now);
    SinceIsElapsed(now, wake + increment);
    hide Since, ShouldDelay;
    SmallMod(wake + increment - now);
  }

  lemma SmallMod(d: nat)
    requires d < WORD
    ensures d % WORD == d
  {
  }

  /** A periodic task wakes on the grid: a call that blocks, at tick `now` of unbounded time, sets
      the deadline at exactly `wake + increment`, whatever the tick count did in between. */
  lemma PeriodicDeadline(s: Kernel, wake: nat, increment: nat)
    requires Inv(s) && s.started && MayBlock(s) && s.suspendDepth != 0
    requires wake <= Now(s) < wake + WORD && 1 <= increment < WORD
    requires ShouldDelay(wake % WORD, increment, s.tick)
    ensures var stored := (wake % WORD + increment) % WORD;
            var r := DelayFor(s, Since(stored, s.tick));
            && Now(s) < wake + increment
            && Timed(r, s.current) && Deadline(r, s.current) == wake + increment
  {
    hide *;
    TickIsWord(s);
    NowParts(s);
    GridStep(wake, increment, Now(s));
    MayBlockTicks(s, wake + increment - Now(s));
    DelaySetsDeadline(s, wake + increment - Now(s));
  }
}
