/** Choosing the task to run, in both forms the source offers, and what giving a mutex does to the
    choice. */
module KernelSelection {
  import opened ListValues
  import opened ItemLists
  import opened Kernels
  import opened KernelInvariants
  import opened KernelSteps
  import opened KernelTicks
  import opened KernelRuns
  import opened KernelPriority
  import opened KernelEvents

  /** In every reachable state the bitmap has bit `p` set exactly when ready list `p` is not empty,
      and every task in that list has priority `p`. */
  lemma ReadyListsMatchBitmap(t: Task, p: nat, steps: seq<Step>, q: nat, x: Item)
    requires Legal(Boot(t, p), steps)
    ensures var s := After(Boot(t, p), steps);
            && (q in s.readyBits <==> Items(s.ls, Ready(q)) != [])
            && (q in s.readyBits ==> q <= s.topReady) && s.topReady < PRIORITIES
            && (x in Items(s.ls, Ready(q)) ==> x.StateItem? && x.task in s.priority && s.priority[x.task] == q)
  {
    hide Legal, After, Boot;
    ReachableInv(t, p, steps);
    var s := After(Boot(t, p), steps);
    if x in Items(s.ls, Ready(q)) {
      ReadyMember(s, q, x);
    }
    hide Placement, WakeOrder, CacheSound;
  }

  lemma BitsFacts(s: Kernel)
    requires Inv(s)
    ensures s.topReady < PRIORITIES && forall q :: q in s.readyBits ==> q <= s.topReady
    ensures forall q: nat {:trigger Items(s.ls, Ready(q))} :: q in s.readyBits <==> Items(s.ls, Ready(q)) != []
  {
    hide Placement, WakeOrder, CacheSound;
  }

  /** A task's own priority, without what it inherits. */
  function Base(s: Kernel, t: Task): nat {
    if t in s.basePriority then s.basePriority[t] else 0
  }

  lemma LoweredRival(s: Kernel)
    requires Inv(s) && Enabled(s, DoDisinherit) && NoRival(s) && !s.switchRequested && !s.yieldPending
    requires Priority(s, s.current) != Base(s, s.current)
    ensures NoRival(Disinherit(s)) <==>
            forall q :: Base(s, s.current) < q && q in s.readyBits ==>
              q == Priority(s, s.current) && |Items(s.ls, Ready(q))| == 1
  {
    hide Inv, Items, NoRival, Disinherit, IsReady;
    var base := Base(s, s.current);
    if q :| base < q && q in s.readyBits && (q != Priority(s, s.current) || |Items(s.ls, Ready(q))| != 1) {
      RivalLeft(s, q);
    } else {
      NoneLeft(s);
    }
  }

  lemma GiverFacts(s: Kernel)
    requires Enabled(s, DoDisinherit)
    ensures IsReady(s, s.current) && s.current !in s.creating
  {
    hide IsReady;
  }

  lemma NotAbove(s: Kernel, r: Kernel, u: Task)
    requires r.priority == s.priority[s.current := Base(s, s.current)] && r.current == s.current && r.creating == s.creating
    requires u != s.current && Base(s, s.current) < Priority(s, u) && s.current !in s.creating
    ensures !Outranks(r, u)
  {
    hide Base;
  }

  lemma IsRival(s: Kernel, t: Task)
    requires IsReady(s, t) && !Outranks(s, t) && !s.switchRequested && !s.yieldPending
    ensures !NoRival(s)
  {
  }

  /** Another task above the base priority is a rival from then on. */
  lemma RivalLeft(s: Kernel, q: nat)
    requires Inv(s) && Enabled(s, DoDisinherit) && !s.switchRequested && !s.yieldPending
    requires Priority(s, s.current) != Base(s, s.current) && Base(s, s.current) < q && q in s.readyBits
    requires q != Priority(s, s.current) || |Items(s.ls, Ready(q))| != 1
    ensures !NoRival(Disinherit(s))
  {
    hide Inv, Good, Items, Disinherit, IsReady, NoRival, Enabled, Outranks;
    GiverFacts(s);
    CurrentFacts(s);
    DisinheritMoves(s);
    DisinheritAsks(s);
    var u := Another(s, q, s.current);
    NotAbove(s, Disinherit(s), u);
    IsRival(Disinherit(s), u);
  }

  lemma NotOutranked(s: Kernel, r: Kernel, u: Task)
    requires Inv(s) && IsReady(s, s.current) && IsReady(s, u) && s.current in s.priority && r.current == s.current
    requires r.priority == s.priority[s.current := Base(s, s.current)]
    requires forall q :: Base(s, s.current) < q && q in s.readyBits ==> q == Priority(s, s.current) && |Items(s.ls, Ready(q))| == 1
    ensures Outranks(r, u)
  {
    hide Inv, Items, IsReady, Base;
    if u != s.current {
      AloneAbove(s, u);
    }
  }

  lemma NoneLeft(s: Kernel)
    requires Inv(s) && Enabled(s, DoDisinherit) && Priority(s, s.current) != Base(s, s.current)
    requires forall q :: Base(s, s.current) < q && q in s.readyBits ==> q == Priority(s, s.current) && |Items(s.ls, Ready(q))| == 1
    ensures NoRival(Disinherit(s))
  {
    hide Inv, Good, Items, Disinherit, IsReady, Enabled, Outranks;
    GiverFacts(s);
    CurrentFacts(s);
    DisinheritMoves(s);
    var r := Disinherit(s);
    forall u | IsReady(r, u) ensures Outranks(r, u) {
      NotOutranked(s, r, u);
    }
  }

  lemma OnlyOne(items: seq<Item>, x: Item, y: Item)
    requires |items| == 1 && x in items && y in items
    ensures x == y
  {
  }

  lemma AloneAbove(s: Kernel, u: Task)
    requires Inv(s) && IsReady(s, s.current) && IsReady(s, u) && u != s.current
    requires forall q :: Base(s, s.current) < q && q in s.readyBits ==> q == Priority(s, s.current) && |Items(s.ls, Ready(q))| == 1
    ensures Priority(s, u) <= Base(s, s.current)
  {
    hide Inv, Items, IsReady;
    InvIsGood(s);
    ReadyBit(s, u);
    ReadyBit(s, s.current);
    if Base(s, s.current) < Priority(s, u) {
      OnlyOne(Items(s.ls, Ready(Priority(s, u))), StateItem(u), StateItem(s.current));
    }
  }

  /** Giving a mutex asks for no switch, so it leaves the running task unrivalled exactly when a
      switch is under way already or the ready lists above its base priority held nobody but the
      task itself. */
  lemma DisinheritRival(s: Kernel)
    requires Inv(s) && Enabled(s, DoDisinherit) && NoRival(s)
    ensures NoRival(Disinherit(s)) <==>
            || s.switchRequested || s.yieldPending
            || forall q :: Base(s, s.current) < q && q in s.readyBits ==>
                 q == Priority(s, s.current) && |Items(s.ls, Ready(q))| == 1
  {
    hide Inv, Good, Items, Disinherit, IsReady;
    CurrentFacts(s);
    DisinheritAsks(s);
    if !s.switchRequested && !s.yieldPending {
      if Priority(s, s.current) != Base(s, s.current) {
        LoweredRival(s);
      } else {
        NobodyAbove(s);
      }
    }
  }

  /** While the running task has no rival and no switch is under way, no higher list is occupied. */
  lemma NobodyAbove(s: Kernel)
    requires Inv(s) && IsReady(s, s.current) && NoRival(s) && !s.switchRequested && !s.yieldPending && s.current !in s.creating
    ensures forall q :: q in s.readyBits ==> q <= Priority(s, s.current)
  {
    hide Inv, Items;
    forall q | q in s.readyBits ensures q <= Priority(s, s.current) {
      if q > Priority(s, s.current) {
        var u := Another(s, q, s.current);
      }
    }
  }

  /** It neither asks for a switch nor withdraws a request. */
  lemma DisinheritAsks(s: Kernel)
    requires s.current in s.basePriority
    ensures var r := Disinherit(s);
            && r.switchRequested == s.switchRequested && r.yieldPending == s.yieldPending && r.creating == s.creating
            && (Priority(s, s.current) == s.basePriority[s.current] ==> r == s)
  {
    hide Detach, AttachReady, FollowPriority;
    var t := s.current;
    var base := s.basePriority[t];
    DetachFrame(s, t);
    FollowPriorityFrame(Detach(s, t).(priority := s.priority[t := base]), t, base);
    AttachReadyFrame(FollowPriority(Detach(s, t).(priority := s.priority[t := base]), t, base), t);
  }

  /** Some other task of an occupied ready list. */
  lemma Another(s: Kernel, q: nat, t: Task) returns (u: Task)
    requires Inv(s) && q in s.readyBits && IsReady(s, t)
    requires q != Priority(s, t) || |Items(s.ls, Ready(q))| != 1
    ensures u != t && IsReady(s, u) && Priority(s, u) == q
  {
    BitsFacts(s);
    var items := Items(s.ls, Ready(q));
    assert items != [];
    ListFacts(s, Ready(q), 1, items[0]);
    hide Good, Items;
    ReadyMember(s, q, items[0]);
    ReadyBit(s, t);
    u := items[0].task;
    if u == t {
      ReadyMember(s, q, items[1]);
      u := items[1].task;
    }
  }

  /** A ready task that changes lists leaves the same tasks ready. */
  lemma ReadySame(s: Kernel, r: Kernel, t: Task, p: nat)
    requires IsReady(s, t) && r.ls.container == s.ls.container[StateItem(t) := Ready(p)]
    ensures forall u {:trigger IsReady(r, u)} {:trigger IsReady(s, u)} :: IsReady(r, u) <==> IsReady(s, u)
  {
  }

  lemma DisinheritMoves(s: Kernel)
    requires Inv(s) && Enabled(s, DoDisinherit) && Priority(s, s.current) != Base(s, s.current)
    ensures var r := Disinherit(s);
            && r.current == s.current && r.switchRequested == s.switchRequested && r.yieldPending == s.yieldPending
            && r.priority == s.priority[s.current := Base(s, s.current)]
            && (forall u {:trigger IsReady(r, u)} {:trigger IsReady(s, u)} :: IsReady(r, u) <==> IsReady(s, u))
  {
    hide Inv, Good, FollowPriority, AttachReady, Detach, Items, Disinherit, IsReady;
    InvParts(s);
    var t := s.current;
    TaskFacts(s, t, 1);
    DisinheritedGood(s, Base(s, t));
    FollowsDetach(s, t, Base(s, t));
    DisinheritAsks(s);
    ReadySame(s, Disinherit(s), t, Base(s, t));
  }

  lemma FollowsDetach(s: Kernel, t: Task, base: nat)
    requires t == s.current && t in s.basePriority && s.basePriority[t] == base && Priority(s, t) != base
    ensures Disinherit(s) == AttachReady(FollowPriority(Detach(s, t).(priority := s.priority[t := base]), t, base), t)
  {
    hide FollowPriority, AttachReady, Detach;
  }

  /** Blocking on a mutex lends its holder the running task's priority if that is higher, and nothing
      else: nobody becomes ready or stops being so, and what the holder was given of its own stays. */
  lemma InheritLends(s: Kernel, t: Task)
    requires Inv(s) && s.started && Live(s, t)
    ensures var r := Inherit(s, t);
            var lent := if Priority(s, t) < Priority(s, s.current) then Priority(s, s.current) else Priority(s, t);
            && r.priority == s.priority[t := lent] && r.basePriority == s.basePriority && r.current == s.current
            && (forall u {:trigger IsReady(r, u)} {:trigger IsReady(s, u)} :: IsReady(r, u) <==> IsReady(s, u))
            && (IsReady(s, t) ==> StateIn(r, t, Ready(lent)))
  {
    hide Inv, Good, Inherit, Items;
    InvIsGood(s);
    CurrentFacts(s);
    InheritUnasked(s, t);
    if Priority(s, t) < Priority(s, s.current) {
      InheritMoves(s, t);
    } else {
      assert s.priority[t := Priority(s, t)] == s.priority;
      if IsReady(s, t) {
        ReadyBit(s, t);
      }
    }
  }

  lemma InheritUnasked(s: Kernel, t: Task)
    ensures Priority(s, s.current) <= Priority(s, t) ==> Inherit(s, t) == s
  {
  }

  lemma InheritMoves(s: Kernel, t: Task)
    requires Inv(s) && Live(s, t) && Priority(s, t) < Priority(s, s.current)
    ensures var r := Inherit(s, t);
            && r.priority == s.priority[t := Priority(s, s.current)] && r.basePriority == s.basePriority && r.current == s.current
            && r.ls.container ==
               if IsReady(s, t) then s.ls.container[StateItem(t) := Ready(Priority(s, s.current))] else s.ls.container
  {
    hide Good, FollowPriority, Requeue, Items;
    TaskFacts(s, t, 1);
    CurrentFacts(s);
    BasesBounded(s);
    ReprioritisedGood(s, t, Priority(s, s.current), s.basePriority, Priority(s, s.current));
    FollowPriorityCommutes(s, t, Priority(s, s.current));
    hide Inv;
  }

  /** Giving it back takes exactly that away: the holder has its own priority again, in the ready list
      of that priority. */
  lemma DisinheritReturns(s: Kernel)
    requires Inv(s) && s.started && IsReady(s, s.current) && s.current !in s.creating
    ensures var r := Disinherit(s);
            && r.priority == s.priority[s.current := Base(s, s.current)] && r.basePriority == s.basePriority
            && (forall u {:trigger IsReady(r, u)} {:trigger IsReady(s, u)} :: IsReady(r, u) <==> IsReady(s, u))
            && StateIn(r, s.current, Ready(Base(s, s.current)))
  {
    hide Inv, Good, Items, Disinherit;
    InvIsGood(s);
    DisinheritInv(s);
    InvIsGood(Disinherit(s));
    CurrentFacts(s);
    DisinheritAsks(s);
    DisinheritBases(s);
    if Priority(s, s.current) != Base(s, s.current) {
      DisinheritMoves(s);
    } else {
      assert s.priority[s.current := Base(s, s.current)] == s.priority;
    }
    ReadyBit(Disinherit(s), s.current);
  }

  lemma DisinheritBases(s: Kernel)
    ensures Disinherit(s).basePriority == s.basePriority
  {
    hide Without, AddLast, SetValue, Items;
  }

  // ----- a run in which giving a mutex leaves a rival

  /** Who exists with what priority, who is ready, who runs, how deep the scheduler is suspended, that
      nothing is put off, that there is a list for those who wait for the mutex, and, if `calm`, that
      nothing asks for a switch. */
  ghost predicate Standing(s: Kernel, priority: map<Task, nat>, base: map<Task, nat>, ready: set<Task>, current: Task, depth: nat, calm: bool) {
    && s.priority == priority && s.basePriority == base && s.current == current && s.suspendDepth == depth
    && s.creating == map[] && s.pendedTicks == 0
    && (forall t {:trigger IsReady(s, t)} :: IsReady(s, t) <==> t in ready)
    && (forall t {:trigger EventItem(t)} :: EventItem(t) in s.ls.container ==> s.ls.container[EventItem(t)].Event?)
    && Event(0) in s.ls.contents
    && (calm ==> !s.switchRequested && !s.yieldPending)
  }

  /** No move takes a list away. */
  lemma MovesKeepLists()
    ensures forall s: Kernel, t: Task :: s.ls.contents.Keys <= AttachReady(s, t).ls.contents.Keys
    ensures forall s: Kernel, t: Task :: s.ls.contents.Keys <= Detach(s, t).ls.contents.Keys
    ensures forall s: Kernel, t: Task :: s.ls.contents.Keys <= DetachEvent(s, t).ls.contents.Keys
    ensures forall s: Kernel, t: Task, p: ListId :: s.ls.contents.Keys <= AttachTo(s, t, p).ls.contents.Keys
    ensures forall s: Kernel, t: Task, p: nat :: s.ls.contents.Keys <= FollowPriority(s, t, p).ls.contents.Keys
    ensures forall ls: Lists, p: ListId, x: Item :: ls.contents.Keys <= AddSorted(ls, p, x).contents.Keys
    ensures forall ls: Lists, p: ListId :: ls.contents.Keys <= AdvanceList(ls, p).contents.Keys
    ensures forall ls: Lists, x: Item, v: nat :: ls.contents.Keys <= SetValue(ls, x, v).contents.Keys
  {
    hide Items, Keys, Key, FirstGreater;
  }

  lemma BlockKeepsLists(s: Kernel, ticks: nat)
    ensures s.ls.contents.Keys <= Block(s, ticks).ls.contents.Keys
  {
    MovesKeepLists();
    hide Detach, AttachTo, AddSorted, SetValue;
  }

  lemma RequeueKeepsLists(s: Kernel, t: Task, was: nat)
    ensures s.ls.contents.Keys <= Requeue(s, t, was).ls.contents.Keys
  {
    MovesKeepLists();
    hide Detach, AttachReady;
  }

  /** A step that changes nothing a `Standing` speaks of but the depth and the requests. */
  lemma StillStanding(s: Kernel, r: Kernel, priority: map<Task, nat>, base: map<Task, nat>, ready: set<Task>, current: Task, depth: nat)
    requires Standing(s, priority, base, ready, current, depth, false)
    requires r.priority == s.priority && r.basePriority == s.basePriority && r.current == s.current
    requires r.creating == s.creating && r.pendedTicks == s.pendedTicks && r.ls.container == s.ls.container
    requires s.ls.contents.Keys <= r.ls.contents.Keys
    ensures Standing(r, priority, base, ready, current, r.suspendDepth, !r.switchRequested && !r.yieldPending)
  {
    assert forall t :: IsReady(r, t) <==> IsReady(s, t);
  }

  /** The whole of `xTaskGenericCreate`. */
  function Created(s: Kernel, t: Task, p: nat): Kernel {
    if s.started then EndCreate(Create(s, t, p)) else Create(s, t, p)
  }

  lemma CreatedPlaces(s: Kernel, t: Task, p: nat)
    requires Inv(s) && t !in s.priority
    ensures Create(s, t, p).ls.container == s.ls.container[StateItem(t) := Ready(Clamp(p))]
    ensures s.ls.contents.Keys <= Create(s, t, p).ls.contents.Keys
  {
    hide Inv, Good, AttachReady, Create, Items, Clamp;
    InvIsGood(s);
    ClampBounded(p);
    var s1 := s.(priority := s.priority[t := Clamp(p)],
                 basePriority := s.basePriority[t := Clamp(p)],
                 ls := SetValue(s.ls, EventItem(t), PRIORITIES - Clamp(p)));
    var s2 := Counted(s, s1, t, p);
    NewTaskGood(s, t, Clamp(p));
    GoodFrame(s1, s2, {t}, 1);
    AttachReadyGood(s2, t, {t}, 1);
    CreateIs(s, t, p);
    MovesKeepLists();
  }

  lemma CreatedRest(s: Kernel, t: Task, p: nat)
    ensures var r := Create(s, t, p);
            && r == s.(ls := r.ls, readyBits := r.readyBits, topReady := r.topReady, taskCount := r.taskCount, current := r.current,
                       creating := r.creating, priority := s.priority[t := Clamp(p)], basePriority := s.basePriority[t := Clamp(p)])
            && r.current == (if !s.started && Priority(s, s.current) <= p then t else s.current)
            && r.creating == (if s.started then s.creating[s.current := p] else s.creating)
  {
    hide AddLast, SetValue, Clamp;
  }

  lemma CreatedReady(s: Kernel, r: Kernel, t: Task, u: Task)
    requires exists p: nat {:trigger Ready(p)} :: r.ls.container == s.ls.container[StateItem(t) := Ready(p)]
    ensures IsReady(r, u) <==> u == t || IsReady(s, u)
  {
  }

  lemma CreateStanding(s: Kernel, t: Task, p: nat, priority: map<Task, nat>, base: map<Task, nat>, ready: set<Task>, current: Task, calm: bool)
    requires Inv(s) && Standing(s, priority, base, ready, current, 0, calm) && t !in s.priority
    ensures var r := Created(s, t, p);
            && r.started == s.started && r.idle == s.idle
            && Standing(r, priority[t := Clamp(p)], base[t := Clamp(p)], ready + {t},
                        if !s.started && Priority(s, current) <= p then t else current, 0,
                        calm && (s.started ==> Priority(s, current) >= p))
    ensures s.started ==> s.current in Create(s, t, p).creating && Create(s, t, p).current == s.current && Create(s, t, p).started
  {
    hide Inv, Create, IsReady;
    CreatedPlaces(s, t, p);
    CreatedRest(s, t, p);
    var r := Created(s, t, p);
    assert map[s.current := p] - {s.current} == map[];
    forall u ensures IsReady(r, u) <==> u in ready + {t} {
      assert IsReady(s, u) <==> u in ready;
      CreatedReady(s, r, t, u);
    }
  }

  lemma StartStanding(s: Kernel, t: Task, priority: map<Task, nat>, base: map<Task, nat>, ready: set<Task>, current: Task)
    requires Inv(s) && Standing(s, priority, base, ready, current, 0, true) && t !in s.priority && !s.started && 0 < Priority(s, current)
    ensures Standing(Start(s, t), priority[t := 0], base[t := 0], ready + {t}, current, 0, true) && Start(s, t).started && Start(s, t).idle == t
  {
    hide Inv, Create;
    CreateStanding(s, t, 0, priority, base, ready, current, true);
    StillStanding(Create(s, t, 0), Start(s, t), priority[t := 0], base[t := 0], ready + {t}, current, 0);
  }

  /** A switch when one ready task stands above all others. */
  lemma SwitchStanding(s: Kernel, priority: map<Task, nat>, base: map<Task, nat>, ready: set<Task>, current: Task, t: Task)
    requires Inv(s) && s.started && Standing(s, priority, base, ready, current, 0, false)
    requires t in ready && t in priority && (forall u :: u in ready && u != t ==> u in priority && priority[u] < priority[t])
    ensures Standing(SwitchContext(s), priority, base, ready, t, 0, true) && SwitchContext(s).started && SwitchContext(s).idle == s.idle
    ensures SwitchContext(s).ls.container == s.ls.container
  {
    hide Inv, AdvanceList;
    SelectedIsHighest(s);
    MovesKeepLists();
    var r := SwitchContext(s);
    assert s.ls.contents.Keys <= r.ls.contents.Keys;
    hide SwitchContext;
    assert forall u :: IsReady(r, u) <==> IsReady(s, u);
    assert IsReady(r, t);
  }

  lemma SuspendStanding(s: Kernel, t: Task, priority: map<Task, nat>, base: map<Task, nat>, ready: set<Task>, current: Task)
    requires Inv(s) && Standing(s, priority, base, ready, current, 0, true) && Live(s, t)
    ensures Standing(Suspend(s, t), priority, base, ready - {t}, current, 0, true)
    ensures Suspend(s, t).started == s.started && Suspend(s, t).idle == s.idle
  {
    hide Inv, Good, AttachTo, DetachEvent, Detach;
    InvIsGood(s);
    RetireGood(s, t, Suspended);
    MovesKeepLists();
    var r := Suspend(s, t);
    forall u ensures IsReady(r, u) <==> u in ready - {t} {
      assert IsReady(s, u) <==> u in ready;
    }
  }

  lemma InheritStanding(s: Kernel, t: Task, priority: map<Task, nat>, base: map<Task, nat>, ready: set<Task>, current: Task)
    requires Inv(s) && Standing(s, priority, base, ready, current, 1, true) && Live(s, t) && Priority(s, t) < Priority(s, current)
    ensures Standing(Inherit(s, t), priority[t := Priority(s, current)], base, ready, current, 1, true)
    ensures Inherit(s, t).started == s.started && Inherit(s, t).idle == s.idle
  {
    hide Good, FollowPriority, Requeue, Items;
    TaskFacts(s, t, 1);
    CurrentFacts(s);
    BasesBounded(s);
    var p := Priority(s, s.current);
    ReprioritisedGood(s, t, p, s.basePriority, p);
    FollowPriorityCommutes(s, t, p);
    hide Inv;
    var r := Inherit(s, t);
    MovesKeepLists();
    RequeueKeepsLists(FollowPriority(s, t, p).(priority := s.priority[t := p]), t, Priority(s, t));
    forall u ensures IsReady(r, u) <==> u in ready {
      assert IsReady(s, u) <==> u in ready;
    }
  }

  /** The running task waits for the mutex for ever. */
  lemma PlaceStanding(s: Kernel, e: nat, priority: map<Task, nat>, base: map<Task, nat>, ready: set<Task>, current: Task)
    requires Inv(s) && Standing(s, priority, base, ready, current, 1, true) && Enabled(s, DoPlaceOnEvent(e, MAX_DELAY))
    ensures var r := PlaceOnEvent(s, e, MAX_DELAY);
            && Standing(r, priority, base, ready - {current}, current, 1, true) && r.started == s.started && r.idle == s.idle
            && StateIn(r, current, Suspended)
  {
    hide Good, AddSorted, Block, Items;
    var t := s.current;
    TaskFacts(s, t, 1);
    AddEventSortedGood(s, t, Event(e), {}, 1);
    AddSortedFrame(s.ls, Event(e), EventItem(t));
    assert {} + {t} == {t};
    var s1 := s.(ls := AddSorted(s.ls, Event(e), EventItem(t)));
    BlockGood(s1, MAX_DELAY, {t});
    BlockPlace(s1, MAX_DELAY);
    MovesKeepLists();
    BlockKeepsLists(s1, MAX_DELAY);
    hide Inv, Enabled;
    PlacedStanding(s, s1, PlaceOnEvent(s, e, MAX_DELAY), e, priority, base, ready, current);
  }

  lemma PlacedStanding(s: Kernel, s1: Kernel, r: Kernel, e: nat, priority: map<Task, nat>, base: map<Task, nat>, ready: set<Task>, current: Task)
    requires Standing(s, priority, base, ready, current, 1, true)
    requires s1 == s.(ls := s1.ls) && s1.ls.container == s.ls.container[EventItem(current) := Event(e)]
    requires r == s1.(ls := r.ls, readyBits := r.readyBits, unblockTime := r.unblockTime)
    requires r.ls.container.Keys == s1.ls.container.Keys && s.ls.contents.Keys <= r.ls.contents.Keys
    requires forall x :: x in s1.ls.container && x != StateItem(current) ==> r.ls.container[x] == s1.ls.container[x]
    requires StateItem(current) in r.ls.container && r.ls.container[StateItem(current)] == Suspended
    ensures Standing(r, priority, base, ready - {current}, current, 1, true)
  {
    forall u ensures IsReady(r, u) <==> u in ready - {current} {
      assert IsReady(s, u) <==> u in ready;
      assert StateItem(u) in r.ls.container <==> StateItem(u) in s1.ls.container;
    }
    forall u | EventItem(u) in r.ls.container ensures r.ls.container[EventItem(u)].Event? {
      assert EventItem(u) in s1.ls.container;
    }
  }

  /** Ending a suspension during which nothing was put off. */
  lemma ResumeStanding(s: Kernel, priority: map<Task, nat>, base: map<Task, nat>, ready: set<Task>, current: Task)
    requires Inv(s) && Standing(s, priority, base, ready, current, 1, true)
    ensures Standing(ResumeAll(s), priority, base, ready, current, 0, true) && ResumeAll(s) == s.(suspendDepth := 0)
  {
    hide Good;
    if Items(s.ls, PendingReady) != [] {
      HeadFacts(s, PendingReady, 1);
      assert false;
    }
    hide Inv;
    StillStanding(s, ResumeAll(s), priority, base, ready, current, 1);
  }

  ghost predicate Reached(steps: seq<Step>, s: Kernel) {
    Legal(Boot(1, 1), steps) && After(Boot(1, 1), steps) == s && Inv(s)
  }

  lemma ReachNext(steps: seq<Step>, s: Kernel, step: Step)
    requires Reached(steps, s) && Enabled(s, step)
    ensures Reached(steps + [step], Next(s, step))
  {
    hide Enabled, Next, Inv, Boot;
    assert (steps + [step])[..|steps + [step]| - 1] == steps;
    StepInv(s, step);
  }

  /** The first task, and the list of the mutex. */
  lemma BootStanding() returns (steps: seq<Step>, s: Kernel)
    ensures Reached(steps, s) && !s.started && Standing(s, map[1 := 1], map[1 := 1], {1}, 1, 0, true)
  {
    BootReady();
    BootReached();
    hide Reached, Boot, Inv;
    ReachNext([], Boot(1, 1), DoCreateEventList(0));
    steps := [] + [DoCreateEventList(0)];
    s := Next(Boot(1, 1), DoCreateEventList(0));
    assert forall t :: IsReady(s, t) <==> IsReady(Boot(1, 1), t);
  }

  lemma BootReached()
    ensures Reached([], Boot(1, 1))
  {
    hide Boot, Inv;
    BootInv(1, 1);
  }

  lemma BootReady()
    ensures var s := Boot(1, 1);
            && s.priority == map[1 := 1] && s.basePriority == map[1 := 1] && s.current == 1 && s.suspendDepth == 0 && !s.started
            && s.creating == map[] && s.pendedTicks == 0 && !s.switchRequested && !s.yieldPending
            && (forall t {:trigger IsReady(s, t)} :: IsReady(s, t) <==> t in {1})
            && (forall t {:trigger EventItem(t)} :: EventItem(t) !in s.ls.container)
            && Event(0) !in s.ls.contents
  {
    hide EmptyLists;
    EmptyListsGood(map[]);
    NoEventLists();
  }

  lemma NoEventLists()
    ensures Event(0) !in EmptyLists().contents
  {
  }

  lemma ReachedInv(steps: seq<Step>, s: Kernel)
    requires Reached(steps, s)
    ensures Inv(s)
  {
  }

  lemma ReadyIsLive(s: Kernel, t: Task)
    requires Inv(s) && IsReady(s, t)
    ensures Live(s, t) && StateItem(t) in s.ls.container && s.ls.container[StateItem(t)].Ready?
  {
    hide Bits, WakeOrder, CacheSound, Consistent, Items;
    assert StateItem(t).task in s.priority;
  }

  /** Where the run stands, once tasks run. */
  ghost predicate At(steps: seq<Step>, s: Kernel, priority: map<Task, nat>, base: map<Task, nat>, ready: set<Task>, current: Task, depth: nat) {
    Reached(steps, s) && s.started && s.idle == 0 && Standing(s, priority, base, ready, current, depth, true)
  }

  lemma StandingFacts(s: Kernel, priority: map<Task, nat>, base: map<Task, nat>, ready: set<Task>, current: Task, depth: nat, calm: bool, t: Task)
    requires Standing(s, priority, base, ready, current, depth, calm)
    ensures s.priority == priority && s.current == current && s.suspendDepth == depth && s.creating == map[]
    ensures (IsReady(s, t) <==> t in ready) && Event(0) in s.ls.contents
  {
  }

  /** The steps that are always allowed. */
  lemma ReachAnyTime(steps: seq<Step>, s: Kernel)
    requires Reached(steps, s) && s.started
    ensures Reached(steps + [DoYield], Yield(s)) && Reached(steps + [DoSwitchContext], SwitchContext(s))
    ensures Reached(steps + [DoSuspendAll], SuspendAll(s)) && Reached(steps + [DoResetUnblockTime], ResetUnblockTime(s))
  {
    hide Reached, SwitchContext, ResetUnblockTime;
    ReachNext(steps, s, DoYield);
    ReachNext(steps, s, DoSwitchContext);
    ReachNext(steps, s, DoSuspendAll);
    ReachNext(steps, s, DoResetUnblockTime);
  }

  /** A whole creation. */
  lemma ReachCreated(steps: seq<Step>, s: Kernel, t: Task, p: nat)
    requires Reached(steps, s) && s.started && t !in s.priority && s.creating == map[]
    ensures Reached(steps + [DoCreate(t, p)] + [DoEndCreate], Created(s, t, p))
  {
    hide Reached, Create, EndCreate;
    CreatedRest(s, t, p);
    ReachNext(steps, s, DoCreate(t, p));
    ReachNext(steps + [DoCreate(t, p)], Create(s, t, p), DoEndCreate);
  }

  /** Task 1, which holds the mutex, and the idle task. */
  lemma OneTask() returns (steps: seq<Step>, s: Kernel)
    ensures At(steps, s, map[1 := 1][0 := 0], map[1 := 1][0 := 0], {1} + {0}, 1, 0)
  {
    hide Reached, Start, IsReady, Inv, Boot, Standing;
    var s0;
    steps, s0 := BootStanding();
    ReachedInv(steps, s0);
    StandingFacts(s0, map[1 := 1], map[1 := 1], {1}, 1, 0, true, 1);
    StartStanding(s0, 0, map[1 := 1], map[1 := 1], {1}, 1);
    ReachNext(steps, s0, DoStart(0));
    s := Start(s0, 0);
    steps := steps + [DoStart(0)];
  }

  /** Task 1 creates task 2 of higher priority, which runs at once. */
  lemma TwoTasks() returns (steps: seq<Step>, s: Kernel)
    ensures At(steps, s, map[0 := 0, 1 := 1, 2 := 2], map[0 := 0, 1 := 1, 2 := 2], {0, 1, 2}, 2, 0)
  {
    hide Reached, Create, Created, SwitchContext, IsReady, Inv, Standing;
    var p := map[1 := 1][0 := 0];
    var ready := {1} + {0} + {2};
    var s1;
    steps, s1 := OneTask();
    ReachedInv(steps, s1);
    StandingFacts(s1, p, p, {1} + {0}, 1, 0, true, 1);
    CreateStanding(s1, 2, 2, p, p, {1} + {0}, 1, true);
    ReachCreated(steps, s1, 2, 2);
    var s2 := Created(s1, 2, 2);
    steps := steps + [DoCreate(2, 2)] + [DoEndCreate];
    ReachedInv(steps, s2);
    var q := p[2 := Clamp(2)];
    SwitchStanding(s2, q, q, ready, 1, 2);
    ReachAnyTime(steps, s2);
    s := SwitchContext(s2);
    steps := steps + [DoSwitchContext];
    assert ready == {0, 1, 2} && q == map[0 := 0, 1 := 1, 2 := 2];
  }

  /** Task 2 asks for the mutex: with the scheduler suspended it lends task 1 its priority. */
  lemma MutexAskedFor() returns (steps: seq<Step>, s: Kernel)
    ensures At(steps, s, map[0 := 0, 1 := 2, 2 := 2], map[0 := 0, 1 := 1, 2 := 2], {0, 1, 2}, 2, 1)
  {
    hide Reached, Inherit, Inv, Standing, IsReady;
    var p, ready := map[0 := 0, 1 := 1, 2 := 2], {0, 1, 2};
    var s0;
    steps, s0 := TwoTasks();
    ReachAnyTime(steps, s0);
    steps := steps + [DoSuspendAll];
    var s1 := SuspendAll(s0);
    StandingFacts(s0, p, p, ready, 2, 0, true, 1);
    StillStanding(s0, s1, p, p, ready, 2, 0) by { Calmer(s0, p, p, ready, 2, 0); }
    Calm(s0, p, p, ready, 2, 0);
    ReachedInv(steps, s1);
    StandingFacts(s1, p, p, ready, 2, 1, true, 1);
    ReadyIsLive(s1, 1);
    InheritStanding(s1, 1, p, p, ready, 2);
    ReachNext(steps, s1, DoInherit(1));
    steps := steps + [DoInherit(1)];
    s := Inherit(s1, 1);
    assert p[1 := 2] == map[0 := 0, 1 := 2, 2 := 2];
  }

  lemma Calmer(s: Kernel, priority: map<Task, nat>, base: map<Task, nat>, ready: set<Task>, current: Task, depth: nat)
    requires Standing(s, priority, base, ready, current, depth, true)
    ensures Standing(s, priority, base, ready, current, depth, false)
  {
  }

  lemma Calm(s: Kernel, priority: map<Task, nat>, base: map<Task, nat>, ready: set<Task>, current: Task, depth: nat)
    requires Standing(s, priority, base, ready, current, depth, true)
    ensures !s.switchRequested && !s.yieldPending
  {
  }

  /** It joins those who wait for the mutex. */
  lemma MutexWaitedFor() returns (steps: seq<Step>, s: Kernel)
    ensures At(steps, s, map[0 := 0, 1 := 2, 2 := 2], map[0 := 0, 1 := 1, 2 := 2], {0, 1}, 2, 1)
    ensures StateIn(s, 2, Suspended)
  {
    hide Reached, PlaceOnEvent, Inv, IsReady, Standing;
    var p, b, ready := map[0 := 0, 1 := 2, 2 := 2], map[0 := 0, 1 := 1, 2 := 2], {0, 1, 2};
    var s0;
    steps, s0 := MutexAskedFor();
    ReachedInv(steps, s0);
    StandingFacts(s0, p, b, ready, 2, 1, true, 2);
    PlaceStanding(s0, 0, p, b, ready, 2);
    ReachNext(steps, s0, DoPlaceOnEvent(0, MAX_DELAY));
    steps := steps + [DoPlaceOnEvent(0, MAX_DELAY)];
    s := PlaceOnEvent(s0, 0, MAX_DELAY);
    assert ready - {2} == {0, 1};
  }

  /** It ends the suspension. */
  lemma MutexWaitBegun() returns (steps: seq<Step>, s: Kernel)
    ensures At(steps, s, map[0 := 0, 1 := 2, 2 := 2], map[0 := 0, 1 := 1, 2 := 2], {0, 1}, 2, 0)
    ensures StateIn(s, 2, Suspended)
  {
    hide Reached, ResumeAll, Inv, IsReady, Standing;
    var p, b := map[0 := 0, 1 := 2, 2 := 2], map[0 := 0, 1 := 1, 2 := 2];
    var s0;
    steps, s0 := MutexWaitedFor();
    ReachedInv(steps, s0);
    StandingFacts(s0, p, b, {0, 1}, 2, 1, true, 2);
    ResumeStanding(s0, p, b, {0, 1}, 2);
    ReachNext(steps, s0, DoResumeAll);
    steps := steps + [DoResumeAll];
    s := ResumeAll(s0);
  }

  /** It yields, and task 1 runs with the inherited priority. */
  lemma HolderRuns() returns (steps: seq<Step>, s: Kernel)
    ensures At(steps, s, map[0 := 0, 1 := 2, 2 := 2], map[0 := 0, 1 := 1, 2 := 2], {0, 1}, 1, 0)
    ensures StateIn(s, 2, Suspended)
  {
    hide Reached, SwitchContext, Inv, IsReady, Standing;
    var p, b := map[0 := 0, 1 := 2, 2 := 2], map[0 := 0, 1 := 1, 2 := 2];
    var s0;
    steps, s0 := MutexWaitBegun();
    ReachAnyTime(steps, s0);
    steps := steps + [DoYield];
    var s1 := Yield(s0);
    StandingFacts(s0, p, b, {0, 1}, 2, 0, true, 2);
    StillStanding(s0, s1, p, b, {0, 1}, 2, 0) by { Calmer(s0, p, b, {0, 1}, 2, 0); }
    ReachedInv(steps, s1);
    SwitchStanding(s1, p, b, {0, 1}, 2, 1);
    ReachAnyTime(steps, s1);
    s := SwitchContext(s1);
    steps := steps + [DoSwitchContext];
  }

  /** Task 1 suspends task 2. */
  lemma WaiterSuspended() returns (steps: seq<Step>, s: Kernel)
    ensures At(steps, s, map[0 := 0, 1 := 2, 2 := 2], map[0 := 0, 1 := 1, 2 := 2], {0, 1}, 1, 0)
  {
    hide Reached, Suspend, Items, Key, Inv, IsReady, Standing;
    var p, b := map[0 := 0, 1 := 2, 2 := 2], map[0 := 0, 1 := 1, 2 := 2];
    var s0;
    steps, s0 := HolderRuns();
    ReachedInv(steps, s0);
    StandingFacts(s0, p, b, {0, 1}, 1, 0, true, 2);
    SuspendStanding(s0, 2, p, b, {0, 1}, 1);
    ReachNext(steps, s0, DoSuspend(2));
    steps := steps + [DoSuspend(2)];
    var s1 := Suspend(s0, 2);
    assert {0, 1} - {2} == {0, 1};
    ReachAnyTime(steps, s1);
    steps := steps + [DoResetUnblockTime];
    s := ResetUnblockTime(s1);
    Calm(s1, p, b, {0, 1}, 1, 0);
    StandingFacts(s1, p, b, {0, 1}, 1, 0, true, 2);
    StillStanding(s1, s, p, b, {0, 1}, 1, 0) by { Calmer(s1, p, b, {0, 1}, 1, 0); }
  }

  /** It creates task 3 with the priority it has inherited. */
  lemma ThirdTask() returns (steps: seq<Step>, s: Kernel)
    ensures At(steps, s, map[0 := 0, 1 := 2, 2 := 2, 3 := 2], map[0 := 0, 1 := 1, 2 := 2, 3 := 2], {0, 1, 3}, 1, 0)
  {
    hide Reached, Create, Created, Inv, IsReady, Standing;
    var p, b := map[0 := 0, 1 := 2, 2 := 2], map[0 := 0, 1 := 1, 2 := 2];
    var s0;
    steps, s0 := WaiterSuspended();
    ReachedInv(steps, s0);
    StandingFacts(s0, p, b, {0, 1}, 1, 0, true, 3);
    CreateStanding(s0, 3, 2, p, b, {0, 1}, 1, true);
    ReachCreated(steps, s0, 3, 2);
    steps := steps + [DoCreate(3, 2)] + [DoEndCreate];
    s := Created(s0, 3, 2);
    assert {0, 1} + {3} == {0, 1, 3};
    assert p[3 := Clamp(2)] == map[0 := 0, 1 := 2, 2 := 2, 3 := 2] && b[3 := Clamp(2)] == map[0 := 0, 1 := 1, 2 := 2, 3 := 2];
  }

  /** A run in which giving a mutex leaves a rival: task 3 waits its turn, ready, at the priority task 1
      has inherited from task 2. Task 1 gives the mutex and outranks task 3 no longer, and nothing asks
      for a switch. */
  lemma MutexGiveLeavesRival() returns (steps: seq<Step>, s: Kernel)
    ensures Reached(steps, s) && s.started && s.suspendDepth == 0 && NoRival(s)
    ensures Reached(steps + [DoDisinherit], Disinherit(s)) && !NoRival(Disinherit(s))
  {
    hide Reached, Disinherit, Inv;
    steps, s := ThirdTask();
    ReachedInv(steps, s);
    assert IsReady(s, 1) && IsReady(s, 3);
    DisinheritMoves(s);
    DisinheritAsks(s);
    ReachNext(steps, s, DoDisinherit);
    assert IsReady(Disinherit(s), 3);
  }
}
