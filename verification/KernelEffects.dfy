/** What each step of the scheduler does to the tasks it is about: which lists they are in afterwards, when
    their turn comes, what wakes them, and when it asks for a switch. Module `KernelMoves` says that nobody
    else is touched. */
module KernelEffects {
  import opened ListValues
  import opened ItemLists
  import opened Kernels
  import opened KernelInvariants
  import opened KernelSteps
  import opened KernelTicks
  import opened KernelRuns
  import opened KernelTime
  import opened KernelPriority
  import opened KernelEvents
  import opened KernelMoves

  // ----- places in a list

  /** The cursor will come to `x` after everybody but the one who is having its turn. */
  predicate AtBack(l: ItemList, x: Item) {
    var turns := Upcoming(l);
    if l.index == 0 then turns != [] && turns[|turns| - 1] == x else 2 <= |turns| && turns[|turns| - 2] == x
  }

  predicate Joined(ls: Lists, x: Item, p: ListId) {
    In(ls, x, p) && AtBack(List(ls, p), x)
  }

  /** `x` is behind every item in front of it that has no greater value, up to the first greater one. */
  ghost predicate InOrderOf(ls: Lists, x: Item, p: ListId) {
    In(ls, x, p) && exists k: nat :: IsPlace(ls, x, p, k)
  }

  predicate IsPlace(ls: Lists, x: Item, p: ListId, k: nat) {
    && k < |Items(ls, p)| && Items(ls, p)[k] == x
    && (forall i :: 0 <= i < k ==> Key(ls.value, Items(ls, p)[i]) <= Key(ls.value, x))
    && (k + 1 < |Items(ls, p)| ==> Key(ls.value, x) < Key(ls.value, Items(ls, p)[k + 1]))
  }

  lemma InsertEndAtBack(l: ItemList, x: Item)
    ensures AtBack(InsertEnd(l, x), x)
  {
    InsertEndKeepsTurns(l, x);
    UpcomingLength(l);
    hide Upcoming;
  }

  lemma AddLastJoins(ls: Lists, p: ListId, x: Item)
    ensures Joined(AddLast(ls, p, x), x, p)
  {
    InsertEndAtBack(List(ls, p), x);
    hide AtBack, InsertEnd;
  }

  /** Where the cursor rests on the end marker, the back is the end of the list. */
  lemma BackIsLast(l: ItemList, x: Item)
    requires l.index == 0
    ensures AtBack(l, x) <==> l.items != [] && l.items[|l.items| - 1] == x
  {
    assert Upcoming(l) == l.items;
  }

  lemma AddSortedInOrder(ls: Lists, p: ListId, x: Item)
    ensures InOrderOf(AddSorted(ls, p, x), x, p)
  {
    hide Keys;
    var items := Items(ls, p);
    var k := FirstGreater(Keys(ls.value, items), Key(ls.value, x));
    var r := AddSorted(ls, p, x);
    assert Items(r, p) == InsertAt(items, k, x);
    hide FirstGreater, AddSorted, InsertAt;
    AddedItem(ls, p, x);
    forall i | 0 <= i < k ensures Key(r.value, Items(r, p)[i]) <= Key(r.value, x) {
      assert Keys(ls.value, items)[i] == Key(ls.value, items[i]);
    }
    if k + 1 < |Items(r, p)| {
      assert Keys(ls.value, items)[k] == Key(ls.value, items[k]);
    }
    assert IsPlace(r, x, p, k);
  }

  // ----- creation and deletion

  /** The limit on priorities: a priority above the highest becomes the highest, and no other changes. */
  lemma ClampLimits(p: nat)
    ensures Clamp(p) == p <==> p < PRIORITIES
    ensures PRIORITIES <= p ==> Clamp(p) == PRIORITIES - 1
  {
  }

  /** A task becomes ready: it is in the ready list of its priority, behind the others, and waits for nothing. */
  predicate Readied(s: Kernel, t: Task) {
    && Joined(s.ls, StateItem(t), Ready(Priority(s, t))) && EventItem(t) !in s.ls.container && Priority(s, t) <= s.topReady
  }

  lemma AttachReadyJoins(s: Kernel, t: Task)
    ensures var r := AttachReady(s, t);
            && Joined(r.ls, StateItem(t), Ready(Priority(s, t))) && r.topReady == (if s.topReady < Priority(s, t) then Priority(s, t) else s.topReady)
            && r.ls.value == s.ls.value && r.ls.container == s.ls.container[StateItem(t) := Ready(Priority(s, t))]
            && r == s.(ls := r.ls, readyBits := r.readyBits, topReady := r.topReady)
  {
    hide Joined, AddLast;
    AddLastJoins(s.ls, Ready(Priority(s, t)), StateItem(t));
    AddLastFrame(s.ls, Ready(Priority(s, t)), StateItem(t));
  }

  /** The first task of all runs alone: it is the one that is ready, with the priority asked for up to the
      highest, and every list but its own is empty. */
  lemma BootRunsFirst(t: Task, p: nat)
    ensures var s := Boot(t, p);
            && Readied(s, t) && Priority(s, t) == (if p < PRIORITIES then p else PRIORITIES - 1)
            && s.priority == map[t := Priority(s, t)] == s.basePriority && s.current == t && s.taskCount == 1
            && Key(s.ls.value, EventItem(t)) == PRIORITIES - Priority(s, t)
            && s.ls.container == map[StateItem(t) := Ready(Priority(s, t))]
            && (forall q :: q != Ready(Priority(s, t)) ==> Items(s.ls, q) == [])
            && !s.started && s.suspendDepth == 0 && Now(s) == 0 && s.unblockTime == MAX_DELAY
            && !s.switchRequested && !s.yieldPending && s.creating == map[]
  {
    hide Joined;
    var ls := SetValue(EmptyLists(), EventItem(t), PRIORITIES - Clamp(p));
    AddLastJoins(ls, Ready(Clamp(p)), StateItem(t));
    AddLastFrame(ls, Ready(Clamp(p)), StateItem(t));
    hide AddLast;
  }

  /** A new task is ready, behind those of its priority, with the priority asked for up to the highest;
      before the scheduler is started it is the one to run if no earlier one outranks it. */
  lemma CreateMakesReady(s: Kernel, t: Task, p: nat)
    requires Inv(s) && t !in s.priority
    ensures var r := Create(s, t, p);
            && Readied(r, t)
            && Priority(r, t) == (if p < PRIORITIES then p else PRIORITIES - 1)
            && t in r.basePriority && r.basePriority[t] == Priority(r, t)
            && Key(r.ls.value, EventItem(t)) == PRIORITIES - Priority(r, t)
            && r.current == (if s.started || p < Priority(s, s.current) then s.current else t)
            && (s.started ==> r.creating == s.creating[s.current := p])
            && (!s.started ==> r.creating == s.creating)
            && r == s.(ls := r.ls, priority := r.priority, basePriority := r.basePriority, readyBits := r.readyBits,
                       topReady := r.topReady, taskCount := s.taskCount + 1, current := r.current, creating := r.creating)
  {
    hide Inv, AttachReady, Joined;
    InvParts(s);
    NewTaskGood(s, t, Clamp(p));
    var s1 := s.(priority := s.priority[t := Clamp(p)],
                 basePriority := s.basePriority[t := Clamp(p)],
                 ls := SetValue(s.ls, EventItem(t), PRIORITIES - Clamp(p)));
    var s2 := Counted(s, s1, t, p);
    CreateIs(s, t, p);
    AttachReadyJoins(s2, t);
  }

  /** When a task that creates another has compared priorities, it yields exactly to a higher one. */
  lemma EndCreateYields(s: Kernel)
    requires s.current in s.creating
    ensures var r := EndCreate(s);
            && (r.switchRequested <==> s.switchRequested || Priority(s, s.current) < s.creating[s.current])
            && r == s.(creating := s.creating - {s.current}, switchRequested := r.switchRequested)
  {
  }

  /** The idle task has the lowest priority and is ready when the scheduler starts, at tick zero. */
  lemma StartMakesIdle(s: Kernel, t: Task)
    requires Inv(s) && Enabled(s, DoStart(t))
    ensures var r := Start(s, t);
            && r.started && r.idle == t && r.tick == 0 && Readied(r, t) && Priority(r, t) == 0
            && r.current == (if 0 < Priority(s, s.current) then s.current else t)
  {
    hide Inv, Create, Joined;
    CreateMakesReady(s, t, 0);
  }

  lemma AttachToJoins(s: Kernel, t: Task, p: ListId)
    ensures var r := AttachTo(s, t, p);
            Joined(r.ls, StateItem(t), p) && r.ls.value == s.ls.value && r == s.(ls := r.ls)
  {
    hide Joined, AddLast;
    AddLastJoins(s.ls, p, StateItem(t));
    AddLastFrame(s.ls, p, StateItem(t));
  }

  /** A task taken off both its lists for the suspended or the termination list. */
  lemma RetiredJoins(s: Kernel, t: Task, p: ListId)
    requires Inv(s) && t in s.priority && (p == Suspended || p == Terminated)
    ensures var r := AttachTo(DetachEvent(Detach(s, t), t), t, p);
            && Joined(r.ls, StateItem(t), p) && EventItem(t) !in r.ls.container && r.ls.value == s.ls.value
            && r == s.(ls := r.ls, readyBits := r.readyBits)
  {
    hide Inv, Good, AttachTo, DetachEvent, Detach, Joined, Items;
    InvParts(s);
    RetireGood(s, t, p);
    AttachToJoins(DetachEvent(Detach(s, t), t), t, p);
    DetachValue(s, t);
    DetachValue(Detach(s, t), t);
  }

  /** A deleted task waits for the idle task, last, on no other list; it is counted. */
  lemma DeleteTerminates(s: Kernel, t: Task)
    requires Inv(s) && Enabled(s, DoDelete(t))
    ensures var r := Delete(s, t);
            && Joined(r.ls, StateItem(t), Terminated) && EventItem(t) !in r.ls.container
            && r == s.(ls := r.ls, readyBits := r.readyBits, deletedCount := s.deletedCount + 1)
  {
    hide Inv, AttachTo, DetachEvent, Detach, Joined;
    RetiredJoins(s, t, Terminated);
  }

  /** A suspended task is in the suspended list, last, and on no other. */
  lemma SuspendRetires(s: Kernel, t: Task)
    requires Inv(s) && Enabled(s, DoSuspend(t))
    ensures var r := Suspend(s, t);
            && Joined(r.ls, StateItem(t), Suspended) && IsSuspended(r, t) && !IsReady(r, t)
            && r == s.(ls := r.ls, readyBits := r.readyBits)
  {
    hide Inv, AttachTo, DetachEvent, Detach, AtBack, List;
    RetiredJoins(s, t, Suspended);
  }

  /** The cached unblock time is the least wake time in the delayed list, or the latest time of all. */
  ghost predicate CachesLeast(s: Kernel) {
    if Items(s.ls, s.delayed) == [] then s.unblockTime == MAX_DELAY
    else
      && (forall x :: x in Items(s.ls, s.delayed) ==> s.unblockTime <= Key(s.ls.value, x))
      && (exists x :: x in Items(s.ls, s.delayed) && s.unblockTime == Key(s.ls.value, x))
  }

  lemma ResetCachesLeast(s: Kernel, slack: nat)
    requires Good(s, {}, slack)
    ensures CachesLeast(ResetUnblockTime(s)) && ResetUnblockTime(s) == s.(unblockTime := ResetUnblockTime(s).unblockTime)
  {
    hide Good, Items, Key;
    forall x | x in Items(s.ls, s.delayed) ensures Key(s.ls.value, Items(s.ls, s.delayed)[0]) <= Key(s.ls.value, x) {
      HeadIsLeast(s, x, slack);
    }
    if Items(s.ls, s.delayed) != [] {
      assert Items(s.ls, s.delayed)[0] in Items(s.ls, s.delayed);
    }
  }

  lemma HeadIsLeast(s: Kernel, x: Item, slack: nat)
    requires Good(s, {}, slack) && x in Items(s.ls, s.delayed)
    ensures Key(s.ls.value, Items(s.ls, s.delayed)[0]) <= Key(s.ls.value, x)
  {
    DelayedSorted(s, slack);
    hide Good, Items;
    var keys := Keys(s.ls.value, Items(s.ls, s.delayed));
    var i :| 0 <= i < |Items(s.ls, s.delayed)| && Items(s.ls, s.delayed)[i] == x;
    assert keys[0] <= keys[i];
  }

  lemma DelayedSorted(s: Kernel, slack: nat)
    requires Good(s, {}, slack)
    ensures Sorted(Keys(s.ls.value, Items(s.ls, s.delayed)))
  {
    hide Placement, Bits, CacheSound, Consistent, Sorted;
  }

  /** Who deletes or suspends itself asks for a switch; otherwise the cached unblock time is made exact,
      in case the task was the next to wake. */
  lemma EndRemovalYields(s: Kernel, t: Task)
    requires Inv(s)
    ensures var r := EndRemoval(s, t);
            && (t == s.current ==> r.switchRequested && r == s.(switchRequested := true))
            && (t != s.current ==> CachesLeast(r) && r == s.(unblockTime := r.unblockTime))
  {
    hide CachesLeast, Inv, Good;
    InvIsGood(s);
    ResetCachesLeast(s, 1);
    hide ResetUnblockTime;
  }

  /** The idle task frees the task that was deleted first. */
  lemma ReapFrees(s: Kernel)
    requires Inv(s) && Items(s.ls, Terminated) != []
    ensures var t := Items(s.ls, Terminated)[0].task;
            var r := Reap(s);
            && StateItem(t) !in r.ls.container && EventItem(t) !in r.ls.container && t !in r.priority && t !in r.basePriority
            && Items(r.ls, Terminated) == Items(s.ls, Terminated)[1..]
            && r == s.(ls := r.ls, readyBits := r.readyBits, priority := s.priority - {t}, basePriority := s.basePriority - {t},
                       taskCount := s.taskCount - 1, deletedCount := s.deletedCount - 1, creating := s.creating - {t})
  {
    hide Good, Detach, Items;
    InvParts(s);
    HeadFacts(s, Terminated, 1);
    var t := Items(s.ls, Terminated)[0].task;
    TaskFacts(s, t, 1);
    ReapCounts(s);
    hide Inv;
    ReapedGood(s, t);
    HeadDetached(s, Terminated);
  }

  lemma ReapCounts(s: Kernel)
    requires Inv(s) && Items(s.ls, Terminated) != []
    ensures 0 < s.deletedCount && 0 < s.taskCount
  {
    hide Good;
    InvParts(s);
    HeadFacts(s, Terminated, 1);
    assert s.priority.Keys != {};
  }

  lemma HeadDetached(s: Kernel, p: ListId)
    requires Inv(s) && IsStateList(p) && Items(s.ls, p) != []
    ensures Items(Detach(s, Items(s.ls, p)[0].task).ls, p) == Items(s.ls, p)[1..]
  {
    InvConsistent(s);
    InvParts(s);
    HeadFacts(s, p, 1);
    hide Inv, Good;
    WithoutHead(s.ls, p);
    hide Without;
  }

  // ----- resuming

  /** A task that is resumed is ready, behind those of its priority; a switch is asked for if it has at
      least the running priority. One that is not really suspended is left alone. */
  lemma ResumeReadies(s: Kernel, t: Task)
    requires Inv(s) && Enabled(s, DoResume(t))
    ensures var r := Resume(s, t);
            if IsSuspended(s, t) && t != s.current then
              && Readied(r, t)
              && (r.switchRequested <==> s.switchRequested || Priority(s, t) >= Priority(s, s.current))
              && r == s.(ls := r.ls, readyBits := r.readyBits, topReady := r.topReady, switchRequested := r.switchRequested)
            else r == s
  {
    hide Inv, Detach, AttachReady, Joined;
    DetachFrame(s, t);
    DetachEventItem(s, t);
    AttachReadyJoins(Detach(s, t), t);
  }

  lemma DetachEventItem(s: Kernel, t: Task)
    ensures EventItem(t) in Detach(s, t).ls.container <==> EventItem(t) in s.ls.container
  {
    hide Items, Remove;
  }

  /** From an interrupt the same, at once or, while the scheduler is suspended, when the suspension ends:
      until then the task is held, behind those held before it. */
  lemma ResumeFromISRReadies(s: Kernel, t: Task)
    requires Inv(s) && Enabled(s, DoResumeFromISR(t))
    ensures var r := ResumeFromISR(s, t);
            if !IsSuspended(s, t) then r == s
            else if s.suspendDepth == 0 then
              && Readied(r, t)
              && (r.switchRequested <==> s.switchRequested || Priority(s, t) >= Priority(s, s.current))
              && r == s.(ls := r.ls, readyBits := r.readyBits, topReady := r.topReady, switchRequested := r.switchRequested)
            else
              && Joined(r.ls, EventItem(t), PendingReady) && Pending(r, t) && StateIn(r, t, Suspended)
              && r == s.(ls := r.ls)
  {
    hide Inv, Detach, AttachReady, Joined, AddLast;
    DetachFrame(s, t);
    DetachEventItem(s, t);
    AttachReadyJoins(Detach(s, t), t);
    AddLastJoins(s.ls, PendingReady, EventItem(t));
    AddLastFrame(s.ls, PendingReady, EventItem(t));
  }

  /** What a suspension took away an interrupt gives back, with or without a delay. */
  lemma ResumeFromISRUndoesSuspend(s: Kernel, t: Task)
    requires Inv(s) && Enabled(s, DoSuspend(t)) && s.suspendDepth <= 1
    ensures var r := ResumeFromISR(Suspend(s, t), t);
            if s.suspendDepth == 0 then IsReady(r, t) && Readied(r, t)
            else !IsReady(r, t) && IsReady(ResumeAll(r), t)
  {
    hide Inv, Suspend, ResumeFromISR, ResumeAll, Joined, IsReady;
    SuspendRetires(s, t);
    SuspendInv(s, t);
    var m := Suspend(s, t);
    StillLive(s, t);
    ResumeFromISRReadies(m, t);
    ResumeFromISRInv(m, t);
    var r := ResumeFromISR(m, t);
    ReadyOrNot(r, t);
    if s.suspendDepth == 1 {
      ResumeAllDelivers(r, t);
    }
  }

  lemma ReadyOrNot(s: Kernel, t: Task)
    ensures Readied(s, t) ==> IsReady(s, t)
    ensures StateIn(s, t, Suspended) ==> !IsReady(s, t)
  {
    hide AtBack, List;
  }

  lemma StillLive(s: Kernel, t: Task)
    requires Inv(s) && Enabled(s, DoSuspend(t))
    ensures Enabled(Suspend(s, t), DoResumeFromISR(t)) && Live(Suspend(s, t), t) && Suspend(s, t).started
  {
    hide Inv, AttachTo, DetachEvent, Detach, AtBack, List;
    RetiredJoins(s, t, Suspended);
  }

  // ----- priorities

  /** The event item value of a task that gets priority `p`, unless it is in use for something else. */
  predicate ValueFollows(s: Kernel, r: Kernel, t: Task, p: nat) {
    Key(r.ls.value, EventItem(t)) ==
      if Key(s.ls.value, EventItem(t)) < VALUE_IN_USE && p <= PRIORITIES then PRIORITIES - p else Key(s.ls.value, EventItem(t))
  }

  lemma FollowsValue(s: Kernel, t: Task, p: nat)
    ensures var r := FollowPriority(s, t, p);
            ValueFollows(s, r, t, p) && r == s.(ls := r.ls) && r.ls.container == s.ls.container && r.ls.contents == s.ls.contents
  {
  }

  /** A ready task goes to the back of the ready list of its new priority; any other stays where it is. */
  predicate Requeued(s: Kernel, r: Kernel, t: Task, was: nat) {
    if StateIn(s, t, Ready(was)) then
      Joined(r.ls, StateItem(t), Ready(Priority(r, t))) && r.ls.container == s.ls.container[StateItem(t) := Ready(Priority(r, t))]
    else
      r.ls.container == s.ls.container
  }

  lemma RequeueJoins(s: Kernel, t: Task, was: nat)
    requires Consistent(s.ls)
    ensures var r := Requeue(s, t, was);
            && Requeued(s, r, t, was) && r.ls.value == s.ls.value
            && r == s.(ls := r.ls, readyBits := r.readyBits, topReady := r.topReady)
  {
    hide Detach, AttachReady, Joined, Consistent;
    DetachFrame(s, t);
    DetachValue(s, t);
    AttachReadyJoins(Detach(s, t), t);
    if StateIn(s, t, Ready(was)) {
      DetachedContainer(s, t);
      PutBack(s.ls.container, StateItem(t), Ready(Priority(s, t)));
    }
  }

  lemma DetachedContainer(s: Kernel, t: Task)
    requires Consistent(s.ls) && StateItem(t) in s.ls.container
    ensures Detach(s, t).ls.container == s.ls.container - {StateItem(t)}
  {
    WithoutConsistent(s.ls, StateItem(t));
    hide Without, Consistent;
  }

  /** The change of priority concerns the choice of the running task. */
  predicate Overtakes(s: Kernel, t: Task, base: nat, p: nat) {
    if base < p then t != s.current && Priority(s, s.current) <= p else t == s.current
  }

  /** A new base priority, up to the highest. The priority in use changes with it unless it is inherited; a
      switch is asked for if the task now reaches the running one, or is the running one and was lowered. */
  lemma SetPriorityTakesEffect(s: Kernel, t: Task, p: nat)
    requires Inv(s) && Enabled(s, DoSetPriority(t, p)) && t in s.basePriority
    ensures var r := SetPriority(s, t, p);
            var limited := if p < PRIORITIES then p else PRIORITIES - 1;
            var base := s.basePriority[t];
            if limited == base then r == s
            else
              && r.basePriority == s.basePriority[t := limited]
              && Priority(r, t) == (if Priority(s, t) == base then limited else Priority(s, t))
              && ValueFollows(s, r, t, limited) && Requeued(s, r, t, Priority(s, t))
              && (r.switchRequested <==> s.switchRequested || Overtakes(s, t, base, limited))
              && r == s.(ls := r.ls, priority := r.priority, basePriority := r.basePriority, readyBits := r.readyBits,
                         topReady := r.topReady, switchRequested := r.switchRequested)
  {
    hide Inv, FollowPriority, Requeue, Requeued, ValueFollows, SetPriority, Overtakes;
    var base := s.basePriority[t];
    var s1 := s.(priority := if base == Priority(s, t) then s.priority[t := Clamp(p)] else s.priority,
                 basePriority := s.basePriority[t := Clamp(p)]);
    var s2 := FollowPriority(s1, t, Clamp(p));
    var s3 := Requeue(s2, t, Priority(s, t));
    SetPriorityDone(s, t, p);
    InvConsistent(s);
    FollowsValue(s1, t, Clamp(p));
    SameConsistent(s.ls, s2.ls);
    RequeueJoins(s2, t, Priority(s, t));
    ReprioritisedParts(s, s1, s2, s3, t, Clamp(p));
    YieldedParts(s, s3, Yield(s3), t, Priority(s, t), Clamp(p));
  }

  lemma SetPriorityDone(s: Kernel, t: Task, p: nat)
    requires t in s.basePriority
    ensures var base := s.basePriority[t];
            var s1 := s.(priority := if base == Priority(s, t) then s.priority[t := Clamp(p)] else s.priority,
                         basePriority := s.basePriority[t := Clamp(p)]);
            var s3 := Requeue(FollowPriority(s1, t, Clamp(p)), t, Priority(s, t));
            SetPriority(s, t, p) ==
            if Clamp(p) == base then s else if Overtakes(s, t, base, Clamp(p)) then Yield(s3) else s3
  {
    hide FollowPriority, Requeue;
  }

  lemma SameConsistent(a: Lists, b: Lists)
    requires Consistent(a) && b.container == a.container && b.contents == a.contents
    ensures Consistent(b)
  {
  }

  lemma ReprioritisedParts(s: Kernel, s1: Kernel, s2: Kernel, s3: Kernel, t: Task, p: nat)
    requires s1.ls == s.ls && ValueFollows(s1, s2, t, p) && s2.ls.container == s1.ls.container
    requires s3.ls.value == s2.ls.value && Requeued(s2, s3, t, Priority(s, t))
    ensures ValueFollows(s, s3, t, p) && Requeued(s, s3, t, Priority(s, t))
  {
    hide Joined, Key;
  }

  lemma YieldedParts(s: Kernel, a: Kernel, b: Kernel, t: Task, was: nat, p: nat)
    requires b.ls == a.ls && b.priority == a.priority
    ensures ValueFollows(s, a, t, p) <==> ValueFollows(s, b, t, p)
    ensures Requeued(s, a, t, was) <==> Requeued(s, b, t, was)
  {
    hide Joined, Key;
  }

  /** The holder of a mutex takes the running task's priority if that is higher, and its base priority stays. */
  lemma InheritTakesEffect(s: Kernel, t: Task)
    requires Inv(s) && Enabled(s, DoInherit(t))
    ensures var r := Inherit(s, t);
            var p := Priority(s, s.current);
            if p <= Priority(s, t) then r == s
            else
              && r.priority == s.priority[t := p] && ValueFollows(s, r, t, p) && Requeued(s, r, t, Priority(s, t))
              && r == s.(ls := r.ls, priority := r.priority, readyBits := r.readyBits, topReady := r.topReady)
  {
    hide Inv, FollowPriority, Requeue, Requeued, ValueFollows;
    var p := Priority(s, s.current);
    var s1 := FollowPriority(s, t, p);
    var s2 := s1.(priority := s.priority[t := p]);
    InvConsistent(s);
    FollowsValue(s, t, p);
    SameConsistent(s.ls, s2.ls);
    RequeueJoins(s2, t, Priority(s, t));
    var r := Requeue(s2, t, Priority(s, t));
    LentParts(s, s1, s2, r, t, p);
  }

  lemma LentParts(s: Kernel, s1: Kernel, s2: Kernel, r: Kernel, t: Task, p: nat)
    requires ValueFollows(s, s1, t, p) && s2.ls == s1.ls && s1.ls.container == s.ls.container
    requires r.ls.value == s2.ls.value && Requeued(s2, r, t, Priority(s, t))
    ensures ValueFollows(s, r, t, p) && Requeued(s, r, t, Priority(s, t))
  {
    hide Joined, Key;
  }

  /** Giving a mutex back takes the running task to its base priority, behind those of that priority. */
  lemma DisinheritTakesEffect(s: Kernel)
    requires Inv(s) && Enabled(s, DoDisinherit) && s.current in s.basePriority
    ensures var r := Disinherit(s);
            var t := s.current;
            var base := s.basePriority[t];
            if Priority(s, t) == base then r == s
            else
              && r.priority == s.priority[t := base] && ValueFollows(s, r, t, base)
              && Joined(r.ls, StateItem(t), Ready(base)) && r.ls.container == s.ls.container[StateItem(t) := Ready(base)]
              && r == s.(ls := r.ls, priority := r.priority, readyBits := r.readyBits, topReady := r.topReady)
  {
    hide Inv, Detach, AttachReady, FollowPriority, ValueFollows, Joined;
    var t := s.current;
    var base := s.basePriority[t];
    var s1 := Detach(s, t);
    var s2 := s1.(priority := s.priority[t := base]);
    var s3 := FollowPriority(s2, t, base);
    InvConsistent(s);
    DetachFrame(s, t);
    DetachValue(s, t);
    DetachedContainer(s, t);
    FollowsValue(s2, t, base);
    AttachReadyJoins(s3, t);
    PutBack(s.ls.container, StateItem(t), Ready(base));
    GivenParts(s, s1, s2, s3, AttachReady(s3, t), t, base);
  }

  lemma GivenParts(s: Kernel, s1: Kernel, s2: Kernel, s3: Kernel, r: Kernel, t: Task, p: nat)
    requires s1.ls.value == s.ls.value && s2.ls == s1.ls && ValueFollows(s2, s3, t, p) && r.ls.value == s3.ls.value
    ensures ValueFollows(s, r, t, p)
  {
    hide Key;
  }

  // ----- blocking

  /** Blocked for `ticks` ticks: in a delayed list, in the order of the wake times, with the deadline that many
      ticks ahead. The cached unblock time follows if the wake time is in the present epoch and the least. */
  ghost predicate TimedFor(s: Kernel, r: Kernel, t: Task, ticks: nat) {
    && Timed(r, t) && Deadline(r, t) == Now(s) + ticks && !IsReady(r, t) && !StateIn(r, t, Suspended)
    && InOrderOf(r.ls, StateItem(t), if s.tick + ticks < WORD then s.delayed else s.overflow)
    && r.unblockTime == if s.tick + ticks < WORD && s.tick + ticks < s.unblockTime then s.tick + ticks else s.unblockTime
  }

  /** The same, or with no deadline at all: last in the suspended list. */
  ghost predicate BlockedFor(s: Kernel, r: Kernel, t: Task, ticks: nat) {
    if ticks == MAX_DELAY then
      !IsReady(r, t) && !Timed(r, t) && Joined(r.ls, StateItem(t), Suspended) && r.unblockTime == s.unblockTime
    else TimedFor(s, r, t, ticks)
  }

  lemma DelayedInOrder(s: Kernel, t: Task, wake: nat)
    ensures InOrderOf(AttachDelayed(s, t, wake).ls, StateItem(t), if wake < s.tick then s.overflow else s.delayed)
    ensures AttachDelayed(s, t, wake).unblockTime == if s.tick <= wake < s.unblockTime then wake else s.unblockTime
  {
    hide InOrderOf, AddSorted, SetValue;
    AddSortedInOrder(SetValue(s.ls, StateItem(t), wake), if wake < s.tick then s.overflow else s.delayed, StateItem(t));
  }

  lemma Wrapped(tick: nat, ticks: nat)
    requires tick < WORD && 1 <= ticks < WORD
    ensures (tick + ticks) % WORD == if tick + ticks < WORD then tick + ticks else tick + ticks - WORD
    ensures (tick + ticks) % WORD < tick <==> WORD <= tick + ticks
  {
  }

  lemma DelayForBlocks(s: Kernel, ticks: nat)
    requires s.tick < WORD && 1 <= ticks < WORD && s.delayed != s.overflow
    requires (s.delayed.DelayedA? || s.delayed.DelayedB?) && (s.overflow.DelayedA? || s.overflow.DelayedB?)
    ensures TimedFor(s, DelayFor(s, ticks), s.current, ticks)
  {
    hide Detach, AttachDelayed, InOrderOf, Deadline;
    var t := s.current;
    var s1 := Detach(s, t);
    DetachFrame(s, t);
    Wrapped(s.tick, ticks);
    AttachDelayedFrame(s1, t, (s.tick + ticks) % WORD);
    AttachedDeadline(s1, t, ticks);
    DelayedInOrder(s1, t, (s.tick + ticks) % WORD);
  }

  lemma BlockBlocks(s: Kernel, ticks: nat)
    requires s.tick < WORD && 1 <= ticks < WORD && s.delayed != s.overflow
    requires (s.delayed.DelayedA? || s.delayed.DelayedB?) && (s.overflow.DelayedA? || s.overflow.DelayedB?)
    ensures BlockedFor(s, Block(s, ticks), s.current, ticks)
  {
    hide Detach, AttachDelayed, AttachTo, AtBack, List, TimedFor;
    var t := s.current;
    DetachFrame(s, t);
    AttachToJoins(Detach(s, t), t, Suspended);
    DelayForBlocks(s, ticks);
    if ticks != MAX_DELAY {
      BlockIsDelay(s, ticks);
    }
  }

  /** A delay blocks the running task, and no length of it means forever. */
  lemma DelayBlocks(s: Kernel, ticks: nat)
    requires Inv(s) && Enabled(s, DoDelay(ticks))
    ensures var r := DelayFor(s, ticks);
            TimedFor(s, r, s.current, ticks) && r == s.(ls := r.ls, readyBits := r.readyBits, unblockTime := r.unblockTime)
  {
    hide Inv, Good, DelayFor, TimedFor, Items;
    InvParts(s);
    TickBound(s);
    TaskFacts(s, s.current, 1);
    DelayForBlocks(s, ticks);
    DelayForGood(s, ticks, {});
  }

  // ----- waiting for an event

  lemma WithoutElsewhere(ls: Lists, x: Item, p: ListId)
    requires !In(ls, x, p)
    ensures List(Without(ls, x), p) == List(ls, p)
    ensures forall y: Item :: y != x ==> (In(Without(ls, x), y, p) <==> In(ls, y, p))
  {
    hide Remove;
  }

  /** Blocking leaves the event lists and the event items alone. */
  lemma BlockLeavesEvent(s: Kernel, ticks: nat, e: nat)
    requires !In(s.ls, StateItem(s.current), Event(e)) && !s.delayed.Event? && !s.overflow.Event?
    ensures var r := Block(s, ticks);
            && List(r.ls, Event(e)) == List(s.ls, Event(e))
            && (In(r.ls, EventItem(s.current), Event(e)) <==> In(s.ls, EventItem(s.current), Event(e)))
            && r == s.(ls := r.ls, readyBits := r.readyBits, unblockTime := r.unblockTime)
  {
    hide Without, AddSorted, AddLast, SetValue, Items, List;
    var t := s.current;
    var s1 := Detach(s, t);
    WithoutElsewhere(s.ls, StateItem(t), Event(e));
    DetachFrame(s, t);
    var wake := (s.tick + ticks) % WORD;
    var p := if wake < s.tick then s.overflow else s.delayed;
    AttachDelayedLists(s1, t, wake);
    AddSortedFrame(SetValue(s1.ls, StateItem(t), wake), p, StateItem(t));
    AddLastFrame(s1.ls, Suspended, StateItem(t));
    ValueElsewhereList(s1.ls, StateItem(t), wake, Event(e));
  }

  lemma ValueElsewhereList(ls: Lists, x: Item, v: nat, p: ListId)
    ensures List(SetValue(ls, x, v), p) == List(ls, p) && SetValue(ls, x, v).container == ls.container
  {
  }

  /** The keys of event items are not touched by blocking. */
  lemma BlockKeepsKeys(s: Kernel, ticks: nat, t: Task)
    ensures Key(Block(s, ticks).ls.value, EventItem(t)) == Key(s.ls.value, EventItem(t))
  {
    BlockValues(s, ticks);
    hide Block;
  }

  lemma SameOrder(a: Lists, b: Lists, x: Item, p: ListId)
    requires InOrderOf(a, x, p) && List(b, p) == List(a, p) && In(b, x, p) && (forall y :: y in Items(a, p) ==> Key(b.value, y) == Key(a.value, y))
    ensures InOrderOf(b, x, p)
  {
    hide Key;
    var k: nat :| IsPlace(a, x, p, k);
    assert IsPlace(b, x, p, k);
  }

  /** The running task, about to block. */
  lemma BlockerFacts(s: Kernel, e: nat)
    requires Inv(s) && IsReady(s, s.current)
    ensures !In(s.ls, StateItem(s.current), Event(e)) && !s.delayed.Event? && !s.overflow.Event?
    ensures s.tick < WORD && s.delayed != s.overflow
    ensures (s.delayed.DelayedA? || s.delayed.DelayedB?) && (s.overflow.DelayedA? || s.overflow.DelayedB?)
    ensures EventItem(s.current) !in s.ls.container && s.current in s.priority
  {
    hide Inv, Good;
    InvIsGood(s);
    TickBound(s);
    CurrentFacts(s);
    NotWaiting(s, s.current);
  }

  lemma NotWaiting(s: Kernel, t: Task)
    requires Good(s, {}, 1) && t in s.priority && IsReady(s, t)
    ensures EventItem(t) !in s.ls.container
  {
    hide Good;
    TaskFacts(s, t, 1);
  }

  lemma EventListItems(s: Kernel, e: nat, t: Task)
    requires Inv(s)
    ensures forall y :: y in Items(AddSorted(s.ls, Event(e), EventItem(t)), Event(e)) ==> y.EventItem?
  {
    InvParts(s);
    hide Inv;
    var items := Items(s.ls, Event(e));
    forall y | y in items ensures y.EventItem? {
      EventListMember(s, e, y);
    }
    var k := FirstGreater(Keys(s.ls.value, items), Key(s.ls.value, EventItem(t)));
    InsertAtMembers(items, k, EventItem(t));
    hide Good, FirstGreater, InsertAt, Keys;
  }

  lemma EventListMember(s: Kernel, e: nat, y: Item)
    requires Good(s, {}, 1) && y in Items(s.ls, Event(e))
    ensures y.EventItem?
  {
    hide Bits, Clock, Priorities;
    assert y in s.ls.contents[Event(e)].items;
    PlacementTyped(s.ls.container, s.priority, {}, y);
    hide Placement;
  }

  lemma SameBlocked(s: Kernel, s1: Kernel, r: Kernel, ticks: nat)
    requires s1 == s.(ls := s1.ls) && BlockedFor(s1, r, s.current, ticks)
    ensures BlockedFor(s, r, s.current, ticks)
  {
    hide Joined, InOrderOf, Timed, Deadline;
  }

  /** The running task waits in an ordered event list, at the place its value gives it, for so many ticks. */
  lemma PlaceOnEventWaits(s: Kernel, e: nat, ticks: nat)
    requires Inv(s) && Enabled(s, DoPlaceOnEvent(e, ticks))
    ensures var r := PlaceOnEvent(s, e, ticks);
            && BlockedFor(s, r, s.current, ticks) && InOrderOf(r.ls, EventItem(s.current), Event(e))
            && Key(r.ls.value, EventItem(s.current)) == Key(s.ls.value, EventItem(s.current))
            && r == s.(ls := r.ls, readyBits := r.readyBits, unblockTime := r.unblockTime)
  {
    hide Inv, Good, Block, BlockedFor, AddSorted, IsPlace, Items, List, Key;
    BlockerFacts(s, e);
    var t := s.current;
    var s1 := s.(ls := AddSorted(s.ls, Event(e), EventItem(t)));
    AddSortedInOrder(s.ls, Event(e), EventItem(t));
    AddSortedFrame(s.ls, Event(e), EventItem(t));
    BlockLeavesEvent(s1, ticks, e);
    EventListItems(s, e, t);
    forall y | y in Items(s1.ls, Event(e)) ensures Key(Block(s1, ticks).ls.value, y) == Key(s1.ls.value, y) {
      BlockKeepsKeys(s1, ticks, y.task);
    }
    BlockKeepsKeys(s1, ticks, t);
    SameOrder(s1.ls, Block(s1, ticks).ls, EventItem(t), Event(e));
    BlockBlocks(s1, ticks);
    SameBlocked(s, s1, Block(s1, ticks), ticks);
  }

  /** The running task waits in an unordered event list, behind those that wait already and with the value
      given to it, for so many ticks. */
  lemma PlaceOnUnorderedWaits(s: Kernel, e: nat, v: nat, ticks: nat)
    requires Inv(s) && Enabled(s, DoPlaceOnUnordered(e, v, ticks))
    ensures var r := PlaceOnUnordered(s, e, v, ticks);
            && BlockedFor(s, r, s.current, ticks) && Joined(r.ls, EventItem(s.current), Event(e))
            && Key(r.ls.value, EventItem(s.current)) == v + VALUE_IN_USE
            && r == s.(ls := r.ls, readyBits := r.readyBits, unblockTime := r.unblockTime)
  {
    hide Inv, Good, Block, BlockedFor, AddLast, AtBack, Items, List, Key;
    BlockerFacts(s, e);
    var t := s.current;
    var ls := SetValue(s.ls, EventItem(t), v + VALUE_IN_USE);
    var s1 := s.(ls := AddLast(ls, Event(e), EventItem(t)));
    AddLastJoins(ls, Event(e), EventItem(t));
    AddLastFrame(ls, Event(e), EventItem(t));
    BlockLeavesEvent(s1, ticks, e);
    BlockKeepsKeys(s1, ticks, t);
    WrittenKey(s.ls, EventItem(t), v + VALUE_IN_USE);
    SameKey(ls, s1.ls, EventItem(t));
    BlockBlocks(s1, ticks);
    SameBlocked(s, s1, Block(s1, ticks), ticks);
  }

  lemma WrittenKey(ls: Lists, x: Item, v: nat)
    ensures Key(SetValue(ls, x, v).value, x) == v
  {
  }

  lemma SameKey(a: Lists, b: Lists, x: Item)
    requires b.value == a.value
    ensures Key(b.value, x) == Key(a.value, x)
  {
  }

  /** Over every run that gets there: a task that waits on an event group for `ticks` ticks is suspended if
      that means forever and has its deadline otherwise, and it is the last of those that wait. */
  lemma GroupWait(b: Task, p: nat, steps: seq<Step>, e: nat, v: nat, ticks: nat)
    requires Legal(Boot(b, p), steps) && Enabled(After(Boot(b, p), steps), DoPlaceOnUnordered(e, v, ticks))
    ensures var s := After(Boot(b, p), steps);
            var r := Next(s, DoPlaceOnUnordered(e, v, ticks));
            && !IsReady(r, s.current)
            && (StateIn(r, s.current, Suspended) <==> ticks == MAX_DELAY)
            && (ticks != MAX_DELAY ==> Timed(r, s.current) && Deadline(r, s.current) == Now(s) + ticks)
            && Items(r.ls, Event(e)) != [] && Items(r.ls, Event(e))[|Items(r.ls, Event(e))| - 1] == EventItem(s.current)
            && Key(r.ls.value, EventItem(s.current)) == v + VALUE_IN_USE
  {
    hide Legal, After, Inv, Boot, Enabled, PlaceOnUnordered, AtBack, IsPlace;
    ReachableInv(b, p, steps);
    CursorsRest(b, p, steps);
    var s := After(Boot(b, p), steps);
    PlaceOnUnorderedWaits(s, e, v, ticks);
    StepAtRest(s, DoPlaceOnUnordered(e, v, ticks));
    var r := PlaceOnUnordered(s, e, v, ticks);
    BackIsLast(List(r.ls, Event(e)), EventItem(s.current));
  }

  lemma NotHeld(s: Kernel, t: Task, e: nat)
    requires Joined(s.ls, EventItem(t), Event(e)) || InOrderOf(s.ls, EventItem(t), Event(e))
    ensures !Pending(s, t)
  {
    hide AtBack, List, IsPlace;
  }

  lemma TimedOnly(s: Kernel, r: Kernel, ticks: nat)
    requires BlockedFor(s, r, s.current, ticks) && ticks != MAX_DELAY
    ensures Timed(r, s.current) && Deadline(r, s.current) == Now(s) + ticks
  {
    hide InOrderOf, Timed, Deadline, Now;
  }

  /** A wait with a timeout, on a queue or an event group, is as exact as a delay: over every run in which
      nothing else wakes the task, it waits until its deadline and is ready after the tick that is its
      deadline. */
  lemma TimeoutIsExact(s: Kernel, step: Step, ticks: nat, steps: seq<Step>)
    requires Inv(s) && Enabled(s, step) && ticks != MAX_DELAY
    requires (step.DoPlaceOnEvent? || step.DoPlaceOnUnordered?) && step.ticks == ticks
    requires var s0 := Next(s, step);
             && Legal(s0, steps) && Undisturbed(s0, steps, s.current)
             && (steps != [] ==> Now(After(s0, steps[..|steps| - 1])) < Now(s) + ticks)
    ensures var r := After(Next(s, step), steps);
            && (Now(r) < Now(s) + ticks ==> Timed(r, s.current))
            && (Now(s) + ticks <= Now(r) ==> IsReady(r, s.current))
  {
    hide Inv, Legal, Undisturbed, Timed, Deadline, Pending, After, Now, PlaceOnEvent, PlaceOnUnordered, Enabled, InOrderOf, Joined, BlockedFor;
    if step.DoPlaceOnEvent? {
      PlaceOnEventWaits(s, step.e, ticks);
    } else {
      PlaceOnUnorderedWaits(s, step.e, step.v, ticks);
    }
    StepInv(s, step);
    NotHeld(Next(s, step), s.current, step.e);
    TimedOnly(s, Next(s, step), ticks);
    ReadyAtDeadline(Next(s, step), steps, s.current);
  }

  // ----- waking

  lemma MakeReadyReadies(s: Kernel, t: Task)
    requires Good(s, {}, 1) && t in s.priority && StateItem(t) in s.ls.container
    ensures var r := MakeReady(s, t);
            Readied(r, t) && r.ls.value == s.ls.value && r == s.(ls := r.ls, readyBits := r.readyBits, topReady := r.topReady)
  {
    hide Good, DetachEvent, Detach, AttachReady, AtBack, List;
    var s1 := DetachEvent(s, t);
    var s2 := Detach(s1, t);
    DetachFrame(s1, t);
    MakeReadyFrame(s, t);
    MakeReadyValues(s, t);
    MakeReadyGood(s, t, 1);
    AttachReadyJoins(s2, t);
    EventFrame(s, t);
  }

  lemma EventFrame(s: Kernel, t: Task)
    ensures DetachEvent(s, t) == s.(ls := DetachEvent(s, t).ls)
  {
    hide Without;
  }

  lemma HoldJoins(s: Kernel, t: Task)
    ensures var ls := AddLast(Without(s.ls, EventItem(t)), PendingReady, EventItem(t));
            Joined(ls, EventItem(t), PendingReady) && ls.value == s.ls.value
  {
    hide Joined, AddLast, Without;
    AddLastJoins(Without(s.ls, EventItem(t)), PendingReady, EventItem(t));
    AddLastFrame(Without(s.ls, EventItem(t)), PendingReady, EventItem(t));
    DetachValue(s, t);
  }

  lemma WaitingHead(s: Kernel, e: nat)
    requires Inv(s) && Items(s.ls, Event(e)) != []
    ensures var t := Items(s.ls, Event(e))[0].task; t in s.priority && StateItem(t) in s.ls.container && Good(s, {}, 1)
  {
    hide Inv, Good, Items;
    InvParts(s);
    HeadFacts(s, Event(e), 1);
    WaiterFacts(s, Items(s.ls, Event(e))[0].task);
  }

  /** The first of those that wait in an event list is taken off it and made ready or, while the scheduler is
      suspended, held, behind those held before it. The caller is told to yield exactly to a higher priority. */
  lemma RemoveFromEventWakes(s: Kernel, e: nat)
    requires Inv(s) && Items(s.ls, Event(e)) != []
    ensures var t := Items(s.ls, Event(e))[0].task;
            var r := RemoveFromEvent(s, e);
            && (s.suspendDepth == 0 ==> Readied(r, t))
            && (s.suspendDepth != 0 ==> Joined(r.ls, EventItem(t), PendingReady) && r.readyBits == s.readyBits && r.topReady == s.topReady)
            && r.ls.value == s.ls.value
            && (r.yieldPending <==> s.yieldPending || Priority(s, s.current) < Priority(s, t))
            && r == s.(ls := r.ls, readyBits := r.readyBits, topReady := r.topReady, yieldPending := r.yieldPending)
  {
    hide Inv, Good, MakeReady, AddLast, Without, Items, Joined, Priority;
    WaitingHead(s, e);
    var t := Items(s.ls, Event(e))[0].task;
    MakeReadyReadies(s, t);
    HoldJoins(s, t);
    RankStays(s, MakeReady(s, t), RemoveFromEvent(s, e), t);
  }

  lemma RankStays(s: Kernel, m: Kernel, r: Kernel, t: Task)
    requires m.priority == s.priority && r.priority == m.priority
    ensures Priority(r, t) == Priority(m, t) == Priority(s, t)
  {
  }

  /** A task that waits in an unordered list is taken off it with the value given for it, and made ready. */
  lemma RemoveFromUnorderedWakes(s: Kernel, t: Task, v: nat)
    requires Inv(s) && Enabled(s, DoRemoveFromUnordered(t, v))
    ensures var r := RemoveFromUnordered(s, t, v);
            && Readied(r, t) && Key(r.ls.value, EventItem(t)) == v + VALUE_IN_USE
            && (r.yieldPending <==> s.yieldPending || Priority(s, s.current) < Priority(s, t))
            && r == s.(ls := r.ls, readyBits := r.readyBits, topReady := r.topReady, yieldPending := r.yieldPending)
  {
    hide Good, MakeReady, SetValue, AtBack, List, Key;
    WaiterFacts(s, t);
    hide Inv;
    var s1 := s.(ls := SetValue(s.ls, EventItem(t), v + VALUE_IN_USE));
    SetEventValueInv(s, t, v + VALUE_IN_USE);
    InvParts(s1);
    ValueElsewhereList(s.ls, EventItem(t), v + VALUE_IN_USE, Suspended);
    MakeReadyReadies(s1, t);
    WrittenKey(s.ls, EventItem(t), v + VALUE_IN_USE);
    SameKey(s1.ls, MakeReady(s1, t).ls, EventItem(t));
  }

  /** What was delivered to a task it reads once: taking it back writes the task's priority, reversed. */
  lemma ResetEventValueReads(s: Kernel)
    requires Inv(s)
    ensures var r := ResetEventValue(s);
            Key(r.ls.value, EventItem(s.current)) == PRIORITIES - Priority(s, s.current) && r == s.(ls := r.ls)
            && r.ls.contents == s.ls.contents && r.ls.container == s.ls.container
  {
    CurrentFacts(s);
    InvParts(s);
    hide Inv;
    TaskFacts(s, s.current, 1);
  }

  // ----- the order in which tasks are readied

  /** The turns before and after the place where the next task will join. */
  function Front(l: ItemList): seq<Item> {
    var turns := Upcoming(l);
    if l.index == 0 || turns == [] then turns else turns[..|turns| - 1]
  }

  function Back(l: ItemList): seq<Item> {
    var turns := Upcoming(l);
    if l.index == 0 || turns == [] then [] else turns[|turns| - 1..]
  }

  /** The state items of those tasks of a list that have priority `p`. */
  function OfPriority(priority: map<Task, nat>, items: seq<Item>, p: nat): seq<Item> {
    if items == [] then []
    else
      (if items[0].task in priority && priority[items[0].task] == p then [StateItem(items[0].task)] else [])
      + OfPriority(priority, items[1..], p)
  }

  /** The tasks of `items` have joined the ready lists of their priorities, in order, behind the others. */
  ghost predicate QueuedUp(s: Kernel, r: Kernel, items: seq<Item>) {
    && r.priority == s.priority
    && forall p: nat :: QueuedAt(List(s.ls, Ready(p)), List(r.ls, Ready(p)), OfPriority(s.priority, items, p))
  }

  predicate QueuedAt(l: ItemList, r: ItemList, items: seq<Item>) {
    && Front(r) == Front(l) + items && Back(r) == Back(l)
    && (r.index == 0 <==> l.index == 0)
  }

  lemma QueuedTwice(l: ItemList, m: ItemList, r: ItemList, a: seq<Item>, b: seq<Item>)
    requires QueuedAt(l, m, a) && QueuedAt(m, r, b)
    ensures QueuedAt(l, r, a + b)
  {
    hide Front, Back;
    assert (Front(l) + a) + b == Front(l) + (a + b);
  }

  lemma NoneQueued(l: ItemList)
    ensures QueuedAt(l, l, [])
  {
    hide Front, Back;
    assert Front(l) + [] == Front(l);
  }

  lemma InsertEndQueues(l: ItemList, x: Item)
    ensures QueuedAt(l, InsertEnd(l, x), [x])
  {
    InsertEndKeepsTurns(l, x);
    UpcomingLength(l);
    hide Upcoming;
  }

  lemma OfPriorityHead(priority: map<Task, nat>, items: seq<Item>, p: nat)
    requires items != []
    ensures OfPriority(priority, items, p) == OfPriority(priority, [items[0]], p) + OfPriority(priority, items[1..], p)
    ensures OfPriority(priority, [], p) == []
  {
  }

  lemma OneOfPriority(priority: map<Task, nat>, x: Item, p: nat)
    requires x.task in priority
    ensures OfPriority(priority, [x], p) == if priority[x.task] == p then [StateItem(x.task)] else []
  {
  }

  lemma MakeReadyQueues(s: Kernel, x: Item)
    requires x.task in s.priority && !IsReady(s, x.task)
    requires EventItem(x.task) in s.ls.container ==> !s.ls.container[EventItem(x.task)].Ready?
    ensures QueuedUp(s, MakeReady(s, x.task), [x])
  {
    hide QueuedAt, InsertEnd, Without, OfPriority;
    var t := x.task;
    var ls1 := Without(s.ls, EventItem(t));
    var ls2 := Without(ls1, StateItem(t));
    var r := MakeReady(s, t);
    MakeReadyFrame(s, t);
    MakeReadyLists(s, t);
    forall p: nat ensures QueuedAt(List(s.ls, Ready(p)), List(r.ls, Ready(p)), OfPriority(s.priority, [x], p)) {
      WithoutElsewhere(s.ls, EventItem(t), Ready(p));
      WithoutElsewhere(ls1, StateItem(t), Ready(p));
      OneOfPriority(s.priority, x, p);
      NoneQueued(List(s.ls, Ready(p)));
      InsertEndQueues(List(s.ls, Ready(p)), StateItem(t));
    }
  }

  lemma MakeReadyLists(s: Kernel, t: Task)
    ensures MakeReady(s, t).ls == AddLast(Without(Without(s.ls, EventItem(t)), StateItem(t)), Ready(Priority(s, t)), StateItem(t))
  {
    hide Without, AddLast, Items;
  }

  lemma QueuedMore(s: Kernel, m: Kernel, r: Kernel, items: seq<Item>)
    requires items != [] && QueuedUp(s, m, [items[0]]) && QueuedUp(m, r, items[1..])
    ensures QueuedUp(s, r, items)
  {
    hide QueuedAt, OfPriority, List;
    forall p: nat ensures QueuedAt(List(s.ls, Ready(p)), List(r.ls, Ready(p)), OfPriority(s.priority, items, p)) {
      QueuedTwice(List(s.ls, Ready(p)), List(m.ls, Ready(p)), List(r.ls, Ready(p)),
                  OfPriority(s.priority, [items[0]], p), OfPriority(s.priority, items[1..], p));
      OfPriorityHead(s.priority, items, p);
    }
  }

  lemma NobodyQueued(s: Kernel, r: Kernel)
    requires r.priority == s.priority && forall p: nat :: List(r.ls, Ready(p)) == List(s.ls, Ready(p))
    ensures QueuedUp(s, r, [])
  {
    hide QueuedAt, List;
    forall p: nat ensures QueuedAt(List(s.ls, Ready(p)), List(r.ls, Ready(p)), OfPriority(s.priority, [], p)) {
      NoneQueued(List(s.ls, Ready(p)));
    }
  }

  lemma {:induction false} WakeQueues(s: Kernel, n: nat)
    requires Good(s, {}, 0) && n <= |Items(s.ls, s.delayed)|
    ensures QueuedUp(s, Wake(s, n), Items(s.ls, s.delayed)[..n])
    decreases n
  {
    hide Good, QueuedUp, MakeReady, Items;
    var items := Items(s.ls, s.delayed);
    if n == 0 {
      NobodyQueued(s, s);
      assert items[..0] == [];
    } else {
      var x := items[0];
      MakeHeadGood(s);
      SleeperFacts(s);
      MakeReadyQueues(s, x);
      WakeQueues(MakeReady(s, x.task), n - 1);
      assert items[..n][1..] == items[1..][..n - 1] && items[..n][0] == x;
      QueuedMore(s, MakeReady(s, x.task), Wake(MakeReady(s, x.task), n - 1), items[..n]);
    }
  }

  lemma SleeperFacts(s: Kernel)
    requires Good(s, {}, 0) && Items(s.ls, s.delayed) != []
    ensures var t := Items(s.ls, s.delayed)[0].task;
            && t in s.priority && !IsReady(s, t)
            && (EventItem(t) in s.ls.container ==> !s.ls.container[EventItem(t)].Ready?)
  {
    ListFacts(s, s.delayed, 0, Items(s.ls, s.delayed)[0]);
    hide Good, Items;
    var t := Items(s.ls, s.delayed)[0].task;
    TaskFacts(s, t, 0);
  }

  /** A processed tick readies those whose time has come in the order of the delayed list, behind all that are
      ready already. */
  lemma TickQueues(s: Kernel)
    requires Good(s, {}, 1)
    ensures var s1 := Advanced(s);
            QueuedUp(s, ProcessTick(s), Items(s1.ls, s1.delayed)[..Due(s1)])
  {
    hide Good, QueuedUp, Items, Due, Advanced, Wake;
    AdvancedGood(s);
    var s1 := Advanced(s);
    WakeQueues(s1, Due(s1));
    ExpireIs(s1);
    if s1.tick < s1.unblockTime {
      GuardHidesNothing(s1);
      assert Items(s1.ls, s1.delayed)[..0] == [];
      NobodyQueued(s, s1);
    } else {
      SameQueued(s, s1, Wake(s1, Due(s1)), Expire(s1), Items(s1.ls, s1.delayed)[..Due(s1)]);
    }
  }

  /** A tick that scans the delayed list, or switches the lists, leaves the cached unblock time exact; any other
      leaves it as it is. */
  lemma TickCachesLeast(s: Kernel)
    requires Good(s, {}, 1)
    ensures var s1 := Advanced(s);
            var r := ProcessTick(s);
            && (s1.overflows != s.overflows ==> CachesLeast(s1))
            && (s1.overflows == s.overflows ==> s1.unblockTime == s.unblockTime)
            && (s1.tick >= s1.unblockTime ==> CachesLeast(r))
            && (s1.tick < s1.unblockTime ==> r.unblockTime == s1.unblockTime && r.ls == s.ls)
  {
    hide Good, CachesLeast, Due, Wake, ResetUnblockTime;
    AdvancedGood(s);
    var s1 := Advanced(s);
    if s1.overflows != s.overflows {
      SwitchedCache(s);
    } else {
      NotSwitched(s);
    }
    WakeGood(s1, Due(s1));
    ResetCachesLeast(Wake(s1, Due(s1)), 0);
    ExpireIs(s1);
  }

  lemma SwitchedCache(s: Kernel)
    requires Good(s, {}, 1) && Advanced(s).overflows != s.overflows
    ensures CachesLeast(Advanced(s))
  {
    AdvancedGood(s);
    hide Good, CachesLeast;
    ResetCachesLeast(Advanced(s), 0);
    CacheIsReset(s);
  }

  lemma NotSwitched(s: Kernel)
    requires Advanced(s).overflows == s.overflows
    ensures Advanced(s).unblockTime == s.unblockTime
  {
    hide Items, Key;
  }

  lemma CacheIsReset(s: Kernel)
    requires Advanced(s).overflows != s.overflows
    ensures ResetUnblockTime(Advanced(s)) == Advanced(s)
  {
    hide Items, Key;
  }

  lemma SameQueued(s: Kernel, s1: Kernel, r: Kernel, r': Kernel, items: seq<Item>)
    requires s1.ls == s.ls && s1.priority == s.priority && r'.ls == r.ls && r'.priority == r.priority
    requires QueuedUp(s1, r, items)
    ensures QueuedUp(s, r', items)
  {
    hide QueuedAt, OfPriority, List;
  }

  /** The end of a suspension readies those held in the order in which they were held. */
  lemma {:induction false} ReleaseQueues(s: Kernel, n: nat)
    requires Inv(s) && n <= |Items(s.ls, PendingReady)|
    ensures QueuedUp(s, ReleasePending(s, n), Items(s.ls, PendingReady)[..n])
    ensures Items(ReleasePending(s, n).ls, PendingReady) == Items(s.ls, PendingReady)[n..]
    decreases n
  {
    hide Inv, QueuedUp, ReleaseHead, Items;
    var items := Items(s.ls, PendingReady);
    if n == 0 {
      NobodyQueued(s, s);
      assert items[..0] == [] && items[0..] == items;
    } else {
      var s1 := ReleaseHead(s);
      ReleaseHeadInv(s);
      ReleaseHeadQueues(s);
      ReleaseQueues(s1, n - 1);
      assert items[..n][1..] == items[1..][..n - 1] && items[..n][0] == items[0] && items[1..][n - 1..] == items[n..];
      QueuedMore(s, s1, ReleasePending(s1, n - 1), items[..n]);
    }
  }

  lemma ReleaseHeadQueues(s: Kernel)
    requires Inv(s) && Items(s.ls, PendingReady) != []
    ensures QueuedUp(s, ReleaseHead(s), [Items(s.ls, PendingReady)[0]])
    ensures Items(ReleaseHead(s).ls, PendingReady) == Items(s.ls, PendingReady)[1..]
  {
    hide Inv, Good, QueuedUp, MakeReady, Items, ReleaseHead;
    InvIsGood(s);
    HeadFacts(s, PendingReady, 1);
    var x := Items(s.ls, PendingReady)[0];
    WaiterFacts(s, x.task);
    ReleaseHeadIs(s);
    MakeReadyQueues(s, x);
    SameQueued(s, s, MakeReady(s, x.task), ReleaseHead(s), [x]);
    HeldShrinks(s);
  }

  lemma HeldShrinks(s: Kernel)
    requires Inv(s) && Items(s.ls, PendingReady) != []
    ensures Items(MakeReady(s, Items(s.ls, PendingReady)[0].task).ls, PendingReady) == Items(s.ls, PendingReady)[1..]
  {
    hide Inv, Good, Consistent, Without, AddLast;
    InvConsistent(s);
    InvIsGood(s);
    HeadFacts(s, PendingReady, 1);
    var x := Items(s.ls, PendingReady)[0];
    WithoutHead(s.ls, PendingReady);
    WaiterFacts(s, x.task);
    WithoutElsewhere(Without(s.ls, x), StateItem(x.task), PendingReady) by { WithoutElsewhere(s.ls, x, Suspended); WithoutConsistent(s.ls, x); }
    MakeReadyLists(s, x.task);
    AddLastFrame(Without(Without(s.ls, x), StateItem(x.task)), Ready(Priority(s, x.task)), StateItem(x.task));
  }
}
