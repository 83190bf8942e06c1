/** Every step of the scheduler keeps its invariant. */
module KernelSteps {
  import opened ListValues
  import opened ItemLists
  import opened Kernels
  import opened KernelInvariants

  /** What the invariant says of one task. */
  lemma TaskFacts(s: Kernel, t: Task, slack: nat)
    requires Good(s, {}, slack) && t in s.priority
    ensures StateItem(t) in s.ls.container && IsStateList(s.ls.container[StateItem(t)])
    ensures EventItem(t) in s.ls.container ==> IsBlockedList(s.ls.container[StateItem(t)]) && IsEventList(s.ls.container[EventItem(t)])
    ensures IsReady(s, t) ==> StateIn(s, t, Ready(Priority(s, t)))
    ensures Priority(s, t) < PRIORITIES && t in s.basePriority && s.basePriority[t] < PRIORITIES
    ensures s.tick < WORD && Suspended in s.ls.contents && PendingReady in s.ls.contents
    ensures !IsEventList(s.delayed) && !IsEventList(s.overflow)
  {
    hide Bits, WakeOrder, CacheSound, Consistent;
    if EventItem(t) in s.ls.container {
      PlacementTyped(s.ls.container, s.priority, {}, EventItem(t));
    }
  }

  /** What it says of the first item of a list. */
  lemma HeadFacts(s: Kernel, p: ListId, slack: nat)
    requires Good(s, {}, slack) && Items(s.ls, p) != []
    ensures var x := Items(s.ls, p)[0];
            && In(s.ls, x, p) && x.task in s.priority && p in s.ls.contents
            && (IsStateList(p) ==> x.StateItem?) && (IsEventList(p) ==> x.EventItem?)
  {
    hide Bits, Clock, Priorities;
    assert Items(s.ls, p)[0] in s.ls.contents[p].items;
    PlacementTyped(s.ls.container, s.priority, {}, Items(s.ls, p)[0]);
    hide Placement;
  }

  /** The parts of the state the list invariant does not look at. */
  lemma GoodFrame(s: Kernel, r: Kernel, moving: set<Task>, slack: nat)
    requires Good(s, moving, slack)
    requires r.ls == s.ls && r.priority == s.priority && r.basePriority == s.basePriority
    requires r.delayed == s.delayed && r.overflow == s.overflow && r.tick == s.tick && r.unblockTime == s.unblockTime
    requires r.readyBits == s.readyBits && r.topReady == s.topReady
    ensures Good(r, moving, slack)
  {
  }

  lemma InvParts(s: Kernel)
    requires Inv(s)
    ensures Good(s, {}, 1) && Counts(s)
  {
  }

  /** The invariant from its parts, when a step leaves the time alone. */
  lemma InvFrom(s: Kernel, r: Kernel)
    requires Inv(s) && Good(r, {}, 1) && Counts(r) && r.started == s.started
    requires r.tick == s.tick && r.overflows == s.overflows && r.pendedTicks == s.pendedTicks && r.interrupts == s.interrupts
    ensures Inv(r)
  {
  }

  /** Only the lists, the priorities, the cached unblock time and the requests for a switch differ. */
  ghost predicate Moved(s: Kernel, r: Kernel) {
    r == s.(ls := r.ls, priority := r.priority, basePriority := r.basePriority, readyBits := r.readyBits,
            topReady := r.topReady, unblockTime := r.unblockTime, switchRequested := r.switchRequested,
            yieldPending := r.yieldPending)
  }

  /** The same when the only counts at stake are unchanged: no task appears or disappears, and none
      leaves the ready lists. */
  lemma InvFromMoved(s: Kernel, r: Kernel)
    requires Inv(s) && Good(r, {}, 1) && Moved(s, r)
    requires r.priority.Keys == s.priority.Keys && Items(r.ls, Terminated) == Items(s.ls, Terminated)
    requires s.started && IsReady(s, s.idle) ==> IsReady(r, s.idle)
    ensures Inv(r)
  {
    hide Good, Items;
    assert |r.priority| == |r.priority.Keys| && |s.priority| == |s.priority.Keys|;
  }

  lemma YieldInv(s: Kernel, required: bool)
    requires Inv(s)
    ensures Inv(YieldIf(s, required)) && YieldIf(s, required).ls == s.ls
  {
    hide Good, Items;
    GoodFrame(s, YieldIf(s, required), {}, 1);
  }

  lemma ResetUnblockTimeGood(s: Kernel, moving: set<Task>, slack: nat)
    requires Good(s, moving, slack)
    ensures Good(ResetUnblockTime(s), moving, slack)
  {
    if Items(s.ls, s.delayed) != [] {
      assert Items(s.ls, s.delayed)[0] in s.ls.contents[s.delayed].items;
      assert In(s.ls, Items(s.ls, s.delayed)[0], s.delayed);
    }
    hide SortedList;
  }

  // ----- creation, deletion, suspension, priorities

  lemma NewTaskGood(s: Kernel, t: Task, p: nat)
    requires Good(s, {}, 1) && t !in s.priority && p < PRIORITIES
    ensures Good(s.(priority := s.priority[t := p], basePriority := s.basePriority[t := p],
                    ls := SetValue(s.ls, EventItem(t), PRIORITIES - p)), {t}, 1)
    ensures StateItem(t) !in s.ls.container && EventItem(t) !in s.ls.container
    ensures var ls := SetValue(s.ls, EventItem(t), PRIORITIES - p);
            ls.container == s.ls.container && Items(ls, Terminated) == Items(s.ls, Terminated)
  {
    hide Placement, Bits, WakeOrder, CacheSound;
    PlacementNew(s.ls.container, s.priority, t, p);
    SetValueClock(s.ls, EventItem(t), PRIORITIES - p, s.delayed, s.overflow, s.tick, 1, s.unblockTime);
  }

  /** What creation does besides making the task: it is counted, may become the first to run, and its
      creator, once tasks run, has yet to compare priorities. */
  function Counted(s: Kernel, s1: Kernel, t: Task, p: nat): Kernel {
    s1.(taskCount := s.taskCount + 1,
        current := if !s.started && Priority(s, s.current) <= p then t else s.current,
        creating := if s.started then s.creating[s.current := p] else s.creating)
  }

  lemma CreateInv(s: Kernel, t: Task, p: nat)
    requires Inv(s) && t !in s.priority
    ensures Inv(Create(s, t, p)) && IsReady(Create(s, t, p), t)
  {
    hide Good, AttachReady, Items;
    var s1 := s.(priority := s.priority[t := Clamp(p)],
                 basePriority := s.basePriority[t := Clamp(p)],
                 ls := SetValue(s.ls, EventItem(t), PRIORITIES - Clamp(p)));
    var s2 := Counted(s, s1, t, p);
    NewTaskGood(s, t, Clamp(p));
    GoodFrame(s1, s2, {t}, 1);
    AttachReadyGood(s2, t, {t}, 1);
    assert {t} - {t} == {};
    var r := AttachReady(s2, t);
    AttachReadyFrame(s2, t);
    CreateIs(s, t, p);
    assert s1.priority.Keys == s.priority.Keys + {t};
    InvFrom(s, Create(s, t, p));
  }

  lemma CreateIs(s: Kernel, t: Task, p: nat)
    ensures var s1 := s.(priority := s.priority[t := Clamp(p)],
                         basePriority := s.basePriority[t := Clamp(p)],
                         ls := SetValue(s.ls, EventItem(t), PRIORITIES - Clamp(p)));
            var s2 := Counted(s, s1, t, p);
            Create(s, t, p) == AttachReady(s2, t)
  {
    hide AttachReady, SetValue;
  }

  lemma StartInv(s: Kernel, t: Task)
    requires Inv(s) && Enabled(s, DoStart(t))
    ensures Inv(Start(s, t))
  {
    hide Good;
    CreateInv(s, t, 0);
    GoodFrame(Create(s, t, 0), Start(s, t), {}, 1);
  }

  /** Moving a task out of every list but the one it joins, as deletion and suspension do. */
  lemma RetireGood(s: Kernel, t: Task, p: ListId)
    requires Good(s, {}, 1) && t in s.priority && (p == Suspended || p == Terminated)
    ensures var r := AttachTo(DetachEvent(Detach(s, t), t), t, p);
            && Good(r, {}, 1)
            && (!StateIn(s, t, Terminated) ==> |Items(r.ls, Terminated)| == |Items(s.ls, Terminated)| + if p == Terminated then 1 else 0)
            && r.ls.container == (s.ls.container - {StateItem(t), EventItem(t)})[StateItem(t) := p]
            && r == s.(ls := r.ls, readyBits := r.readyBits)
  {
    hide Good, Detach, DetachEvent, AttachTo, Items;
    TaskFacts(s, t, 1);
    var s1 := Detach(s, t);
    assert {} + {t} == {t} && {t} - {t} == {};
    DetachGood(s, t, {}, 1);
    var s2 := DetachEvent(s1, t);
    DetachEventGood(s1, t, {t}, 1);
    MinusTwo(s.ls.container, StateItem(t), EventItem(t));
    RetireFrame(s, t, p);
    AttachToGood(s2, t, p, {t}, 1);
  }

  lemma RetireFrame(s: Kernel, t: Task, p: ListId)
    ensures var s2 := DetachEvent(Detach(s, t), t);
            var r := AttachTo(s2, t, p);
            && s2.priority == s.priority && r == s.(ls := r.ls, readyBits := r.readyBits)
            && r.ls.container == s2.ls.container[StateItem(t) := p]
  {
    hide Without, InsertEnd;
  }

  lemma MinusTwo(container: map<Item, ListId>, x: Item, y: Item)
    ensures container - {x} - {y} == container - {x, y}
  {
  }

  lemma DeleteInv(s: Kernel, t: Task)
    requires Inv(s) && Enabled(s, DoDelete(t))
    ensures Inv(Delete(s, t))
  {
    hide Good, AttachTo, DetachEvent, Detach;
    RetireGood(s, t, Terminated);
    var s3 := AttachTo(DetachEvent(Detach(s, t), t), t, Terminated);
    GoodFrame(s3, Delete(s, t), {}, 1);
    InvFrom(s, Delete(s, t));
  }

  lemma SuspendInv(s: Kernel, t: Task)
    requires Inv(s) && Enabled(s, DoSuspend(t))
    ensures Inv(Suspend(s, t))
  {
    hide Good, AttachTo, DetachEvent, Detach;
    RetireGood(s, t, Suspended);
    InvFrom(s, Suspend(s, t));
  }

  lemma ResetUnblockTimeInv(s: Kernel)
    requires Inv(s)
    ensures Inv(ResetUnblockTime(s))
  {
    hide Good, Items;
    ResetUnblockTimeGood(s, {}, 1);
    InvFrom(s, ResetUnblockTime(s));
  }

  lemma CreatingInv(s: Kernel, creating: map<Task, nat>)
    requires Inv(s)
    ensures Inv(s.(creating := creating))
  {
    hide Good, Items;
    GoodFrame(s, s.(creating := creating), {}, 1);
  }

  lemma EndCreateInv(s: Kernel)
    requires Inv(s)
    ensures Inv(EndCreate(s))
  {
    hide Inv;
    CreatingInv(s, s.creating - {s.current});
    if s.current in s.creating {
      YieldInv(s.(creating := s.creating - {s.current}), Priority(s, s.current) < s.creating[s.current]);
    }
  }

  lemma ForgetGood(s: Kernel, t: Task)
    requires Good(s, {t}, 1) && StateItem(t) !in s.ls.container && EventItem(t) !in s.ls.container
    ensures Good(s.(priority := s.priority - {t}, basePriority := s.basePriority - {t}), {}, 1)
  {
    hide Placement, Bits, WakeOrder, CacheSound, Consistent;
    PlacementForgotten(s.ls.container, s.priority, t);
  }

  lemma ReapedGood(s: Kernel, t: Task)
    requires Good(s, {}, 1) && t in s.priority && EventItem(t) !in s.ls.container && StateIn(s, t, Terminated)
    requires 0 < s.deletedCount && 0 < s.taskCount
    ensures var r := Detach(s, t).(taskCount := s.taskCount - 1, deletedCount := s.deletedCount - 1,
                                   priority := s.priority - {t}, basePriority := s.basePriority - {t},
                                   creating := s.creating - {t});
            && Good(r, {}, 1) && |Items(r.ls, Terminated)| == |Items(s.ls, Terminated)| - 1
            && r.ls.container == s.ls.container - {StateItem(t)}
            && |r.priority| == |s.priority| - 1
            && r == s.(ls := r.ls, readyBits := r.readyBits, taskCount := r.taskCount, deletedCount := r.deletedCount,
                       priority := r.priority, basePriority := r.basePriority, creating := r.creating)
  {
    hide Good, Items, Detach;
    var s1 := Detach(s, t);
    assert {} + {t} == {t};
    DetachGood(s, t, {}, 1);
    DetachLength(s, t, {});
    DetachFrame(s, t);
    ForgetGood(s1, t);
    GoodFrame(s1.(priority := s.priority - {t}, basePriority := s.basePriority - {t}),
              s1.(taskCount := s.taskCount - 1, deletedCount := s.deletedCount - 1,
                  priority := s.priority - {t}, basePriority := s.basePriority - {t}, creating := s.creating - {t}), {}, 1);
    assert s.priority.Keys == (s.priority - {t}).Keys + {t};
  }

  lemma ReapInv(s: Kernel)
    requires Inv(s) && Enabled(s, DoReap)
    ensures Inv(Reap(s))
  {
    hide Inv, Good, Items, Detach;
    InvParts(s);
    HeadFacts(s, Terminated, 1);
    var t := Items(s.ls, Terminated)[0].task;
    TaskFacts(s, t, 1);
    TaskFacts(s, s.idle, 1);
    ReapedGood(s, t);
    if Reap(s) != s {
      InvFrom(s, Reap(s));
    }
  }

  lemma DetachLength(s: Kernel, t: Task, moving: set<Task>)
    requires Good(s, moving, 1) && StateItem(t) in s.ls.container
    ensures var p := s.ls.container[StateItem(t)]; |Items(Detach(s, t).ls, p)| == |Items(s.ls, p)| - 1
  {
    hide Placement, Bits, WakeOrder, CacheSound;
    WithoutConsistent(s.ls, StateItem(t));
  }

  lemma PutBack(container: map<Item, ListId>, x: Item, p: ListId)
    ensures (container - {x})[x := p] == container[x := p]
  {
  }

  /** A suspended or ready task is moved to the ready list of its priority. */
  lemma RequeueGood(s: Kernel, t: Task)
    requires Good(s, {}, 1) && t in s.priority && EventItem(t) !in s.ls.container && !StateIn(s, t, Terminated)
    ensures Good(AttachReady(Detach(s, t), t), {}, 1)
    ensures AttachReady(Detach(s, t), t).ls.container == s.ls.container[StateItem(t) := Ready(Priority(s, t))]
    ensures Items(AttachReady(Detach(s, t), t).ls, Terminated) == Items(s.ls, Terminated)
  {
    hide Good, Detach, AttachReady, Items;
    TaskFacts(s, t, 1);
    DetachFrame(s, t);
    assert {} + {t} == {t} && {t} - {t} == {};
    DetachGood(s, t, {}, 1);
    AttachReadyGood(Detach(s, t), t, {t}, 1);
    PutBack(s.ls.container, StateItem(t), Ready(Priority(s, t)));
  }

  lemma RequeuedInv(s: Kernel, t: Task, required: bool)
    requires Inv(s) && Live(s, t) && EventItem(t) !in s.ls.container
    ensures Inv(YieldIf(AttachReady(Detach(s, t), t), required))
  {
    hide Inv, Good, Moved, AttachReady, Detach, Items, YieldIf;
    InvParts(s);
    RequeueGood(s, t);
    ReattachedFrame(s, t);
    var r := AttachReady(Detach(s, t), t);
    InvFromMoved(s, r);
    YieldInv(r, required);
  }

  lemma PendedInv(s: Kernel, t: Task)
    requires Inv(s) && Live(s, t) && IsSuspended(s, t)
    ensures Inv(s.(ls := AddLast(s.ls, PendingReady, EventItem(t))))
  {
    hide Inv, Good, AddLast, Items;
    InvParts(s);
    TaskFacts(s, t, 1);
    AddEventLastGood(s, t, PendingReady, {}, 1);
    AddedParts(s.ls, PendingReady, EventItem(t));
    InvFromMoved(s, s.(ls := AddLast(s.ls, PendingReady, EventItem(t))));
  }

  lemma ResumeInv(s: Kernel, t: Task)
    requires Inv(s) && Live(s, t)
    ensures Inv(Resume(s, t))
  {
    hide Inv, Good, AttachReady, Detach, Items, YieldIf;
    if IsSuspended(s, t) {
      RequeuedInv(s, t, Priority(s, t) >= Priority(s, s.current));
    }
  }

  /** `AttachReady` and `Detach` leave everything but the lists and the ready priorities alone. */
  lemma ReattachedFrame(s: Kernel, t: Task)
    ensures var r := AttachReady(Detach(s, t), t);
            r == s.(ls := r.ls, readyBits := r.readyBits, topReady := r.topReady) && Moved(s, r)
  {
    hide AddLast, Without, Items;
  }

  lemma ResumeFromISRInv(s: Kernel, t: Task)
    requires Inv(s) && Live(s, t)
    ensures Inv(ResumeFromISR(s, t))
  {
    hide Inv, Good, AttachReady, Detach, Items, AddLast, YieldIf;
    if IsSuspended(s, t) {
      if s.suspendDepth == 0 {
        RequeuedInv(s, t, Priority(s, t) >= Priority(s, s.current));
      } else {
        PendedInv(s, t);
      }
    }
  }

  lemma FollowPriorityGood(s: Kernel, t: Task, p: nat, moving: set<Task>)
    requires Good(s, moving, 1) && t in s.priority
    ensures Good(FollowPriority(s, t, p), moving, 1)
  {
    hide Good;
    if FollowPriority(s, t, p) != s {
      NotDelayed(s, t, moving, 1);
      SetValueGood(s, EventItem(t), PRIORITIES - p, moving, 1);
    }
  }

  lemma FollowPriorityFrame(s: Kernel, t: Task, p: nat)
    ensures var r := FollowPriority(s, t, p);
            r == s.(ls := r.ls) && r.ls.container == s.ls.container && r.ls.contents == s.ls.contents
  {
  }

  lemma HasPlace(container: map<Item, ListId>, priority: map<Task, nat>, t: Task)
    requires Placement(container, priority, {}) && t in priority
    ensures StateItem(t) in container
  {
  }

  lemma NewPriorityFrame(s: Kernel, r: Kernel)
    requires r == s.(priority := r.priority, basePriority := r.basePriority)
    ensures Shape(s) ==> Shape(r)
    ensures Clock(s, 1) ==> Clock(r, 1)
  {
    hide Consistent, WakeOrder, CacheSound;
  }

  lemma NewPriorityGood(s: Kernel, t: Task, p: nat, base: map<Task, nat>)
    requires Good(s, {}, 1) && t in s.priority && p < PRIORITIES
    requires base.Keys == s.basePriority.Keys && forall u :: u in base ==> base[u] < PRIORITIES
    ensures Good(s.(priority := s.priority[t := p], basePriority := base), {t}, 1)
    ensures !IsReady(s, t) ==> Good(s.(priority := s.priority[t := p], basePriority := base), {}, 1)
  {
    hide Placement, Bits, Shape, Clock;
    PlacementReprioritised(s.ls.container, s.priority, {}, t, p);
    assert {} + {t} == {t};
    var r := s.(priority := s.priority[t := p], basePriority := base);
    NewPriorityFrame(s, r);
    if !IsReady(s, t) {
      HasPlace(s.ls.container, s.priority, t);
    }
  }

  lemma SameContents(a: Lists, b: Lists)
    requires a.contents == b.contents
    ensures forall p :: Items(a, p) == Items(b, p)
  {
  }

  /** A ready task, whose priority has changed, is taken off its list and put on that of its new one. */
  lemma RequeuedGood(s: Kernel, t: Task)
    requires Good(s, {t}, 1) && t in s.priority && StateItem(t) in s.ls.container && EventItem(t) !in s.ls.container
    requires !StateIn(s, t, Terminated)
    ensures var r := AttachReady(Detach(s, t), t);
            && Good(r, {}, 1) && r == s.(ls := r.ls, readyBits := r.readyBits, topReady := r.topReady)
            && r.ls.container == s.ls.container[StateItem(t) := Ready(Priority(s, t))]
            && Items(r.ls, Terminated) == Items(s.ls, Terminated)
  {
    hide Good, AttachReady, Detach, Items;
    assert {t} + {t} == {t} && {t} - {t} == {};
    DetachGood(s, t, {t}, 1);
    DetachFrame(s, t);
    AttachReadyGood(Detach(s, t), t, {t}, 1);
    ReattachedFrame(s, t);
    PutBack(s.ls.container, StateItem(t), Ready(Priority(s, t)));
  }

  /** A task given a new priority, and moved to its new ready list if it is in one. */
  lemma ReprioritisedGood(s: Kernel, t: Task, p: nat, base: map<Task, nat>, q: nat)
    requires Good(s, {}, 1) && t in s.priority && p < PRIORITIES
    requires base.Keys == s.basePriority.Keys && forall u :: u in base ==> base[u] < PRIORITIES
    ensures var s1 := s.(priority := s.priority[t := p], basePriority := base);
            var r := Requeue(FollowPriority(s1, t, q), t, Priority(s, t));
            && Good(r, {}, 1) && r == s1.(ls := r.ls, readyBits := r.readyBits, topReady := r.topReady) && Moved(s, r)
            && r.ls.container == (if IsReady(s, t) then s.ls.container[StateItem(t) := Ready(p)] else s.ls.container)
            && Items(r.ls, Terminated) == Items(s.ls, Terminated)
  {
    hide Good, FollowPriority, AttachReady, Detach, Items;
    var s1 := s.(priority := s.priority[t := p], basePriority := base);
    var s2 := FollowPriority(s1, t, q);
    TaskFacts(s, t, 1);
    NewPriorityGood(s, t, p, base);
    FollowPriorityFrame(s1, t, q);
    SameContents(s1.ls, s2.ls);
    if IsReady(s, t) {
      FollowPriorityGood(s1, t, q, {t});
      RequeuedGood(s2, t);
    } else {
      FollowPriorityGood(s1, t, q, {});
    }
  }

  lemma DetachFrame(s: Kernel, t: Task)
    ensures var r := Detach(s, t); r == s.(ls := r.ls, readyBits := r.readyBits)
  {
    hide Without, Items;
  }

  lemma ClampBounded(p: nat)
    ensures Clamp(p) < PRIORITIES
  {
  }

  lemma YieldsIf(s: Kernel)
    ensures YieldIf(s, true) == Yield(s)
  {
  }

  lemma ReprioritisedInv(s: Kernel, t: Task, q: nat, b: nat)
    requires Inv(s) && t in s.priority && q < PRIORITIES && b < PRIORITIES
    ensures Inv(Requeue(FollowPriority(s.(priority := s.priority[t := q], basePriority := s.basePriority[t := b]), t, b), t, Priority(s, t)))
  {
    hide Inv, Good, Moved, FollowPriority, Requeue, Items, Counts;
    InvParts(s);
    BasesBounded(s);
    TaskFacts(s, t, 1);
    var base := s.basePriority[t := b];
    ReprioritisedGood(s, t, q, base, b);
    var r := Requeue(FollowPriority(s.(priority := s.priority[t := q], basePriority := base), t, b), t, Priority(s, t));
    InvFromMoved(s, r);
  }

  lemma SetPriorityInv(s: Kernel, t: Task, p: nat)
    requires Inv(s) && Enabled(s, DoSetPriority(t, p))
    ensures Inv(SetPriority(s, t, p))
  {
    hide Inv, Good, FollowPriority, Requeue, Clamp, SetPriority, YieldIf;
    InvParts(s);
    TaskFacts(s, t, 1);
    ClampBounded(p);
    var q := if s.basePriority[t] == Priority(s, t) then Clamp(p) else Priority(s, t);
    ReprioritisedInv(s, t, q, Clamp(p));
    var s1 := s.(priority := s.priority[t := q], basePriority := s.basePriority[t := Clamp(p)]);
    var r := Requeue(FollowPriority(s1, t, Clamp(p)), t, Priority(s, t));
    SetPriorityIs(s, t, p, r);
    YieldInv(r, true);
    YieldsIf(r);
  }

  lemma SetPriorityIs(s: Kernel, t: Task, p: nat, r: Kernel)
    requires t in s.priority && t in s.basePriority
    requires var q := if s.basePriority[t] == Priority(s, t) then Clamp(p) else Priority(s, t);
             var s1 := s.(priority := s.priority[t := q], basePriority := s.basePriority[t := Clamp(p)]);
             r == Requeue(FollowPriority(s1, t, Clamp(p)), t, Priority(s, t))
    ensures SetPriority(s, t, p) == s || SetPriority(s, t, p) == r || SetPriority(s, t, p) == Yield(r)
  {
    hide FollowPriority, Requeue;
    assert s.priority[t := s.priority[t]] == s.priority;
  }

  lemma BasesBounded(s: Kernel)
    requires Good(s, {}, 1)
    ensures s.basePriority.Keys == s.priority.Keys && forall u :: u in s.basePriority ==> s.basePriority[u] < PRIORITIES
  {
  }

  lemma InheritInv(s: Kernel, t: Task)
    requires Inv(s) && Enabled(s, DoInherit(t))
    ensures Inv(Inherit(s, t))
  {
    hide Inv, Good, Moved, FollowPriority, Requeue, Items;
    InvParts(s);
    TaskFacts(s, t, 1);
    TaskFacts(s, s.current, 1);
    BasesBounded(s);
    var p := Priority(s, s.current);
    assert s.priority[t := p].Keys == s.priority.Keys;
    ReprioritisedGood(s, t, p, s.basePriority, p);
    FollowPriorityCommutes(s, t, p);
    if Inherit(s, t) != s {
      InvFromMoved(s, Inherit(s, t));
    }
  }

  lemma FollowPriorityCommutes(s: Kernel, t: Task, p: nat)
    ensures FollowPriority(s, t, p).(priority := s.priority[t := p]) == FollowPriority(s.(priority := s.priority[t := p]), t, p)
  {
    hide SetValue, Key;
    var s1 := s.(priority := s.priority[t := p]);
    assert s1.ls == s.ls;
  }

  /** The running task, taken off its ready list, is given its base priority and put back. */
  lemma DisinheritedGood(s: Kernel, base: nat)
    requires Good(s, {}, 1) && s.current in s.priority && IsReady(s, s.current) && base < PRIORITIES
    ensures var t := s.current;
            var r := AttachReady(FollowPriority(Detach(s, t).(priority := s.priority[t := base]), t, base), t);
            && Good(r, {}, 1) && Moved(s, r) && r.priority == s.priority[t := base]
            && r.ls.container == s.ls.container[StateItem(t) := Ready(base)]
            && Items(r.ls, Terminated) == Items(s.ls, Terminated)
  {
    hide Good, FollowPriority, AttachReady, Detach, Items;
    var t := s.current;
    TaskFacts(s, t, 1);
    assert {} + {t} == {t} && {t} + {t} == {t} && {t} - {t} == {};
    DetachGood(s, t, {}, 1);
    DetachFrame(s, t);
    var s1 := Detach(s, t);
    var s2 := s1.(priority := s.priority[t := base]);
    NewPriorityMoving(s1, t, base);
    var s3 := FollowPriority(s2, t, base);
    FollowPriorityGood(s2, t, base, {t});
    FollowPriorityFrame(s2, t, base);
    AttachReadyGood(s3, t, {t}, 1);
    AttachReadyFrame(s3, t);
    assert Items(s3.ls, Terminated) == Items(s1.ls, Terminated) by { SameContents(s1.ls, s3.ls); }
  }

  lemma DisinheritInv(s: Kernel)
    requires Inv(s) && Enabled(s, DoDisinherit)
    ensures Inv(Disinherit(s))
  {
    hide Inv, Good, Moved, FollowPriority, AttachReady, Detach, Items;
    InvParts(s);
    TaskFacts(s, s.current, 1);
    DisinheritedGood(s, s.basePriority[s.current]);
    if Disinherit(s) != s {
      InvFromMoved(s, Disinherit(s));
    }
  }

  lemma AttachReadyFrame(s: Kernel, t: Task)
    ensures var r := AttachReady(s, t); r == s.(ls := r.ls, readyBits := r.readyBits, topReady := r.topReady)
  {
    hide AddLast;
  }

  lemma NewPriorityMoving(s: Kernel, t: Task, p: nat)
    requires Good(s, {t}, 1) && t in s.priority && p < PRIORITIES
    ensures Good(s.(priority := s.priority[t := p]), {t}, 1)
  {
    hide Placement, Bits, Shape, Clock;
    PlacementReprioritised(s.ls.container, s.priority, {t}, t, p);
    assert {t} + {t} == {t};
    NewPriorityFrame(s, s.(priority := s.priority[t := p]));
  }
}
