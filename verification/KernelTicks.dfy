/** Blocking, waking and ticks: every such step keeps the invariant, and one processed tick
    wakes exactly the tasks that are due. */
module KernelTicks {
  import opened ListValues
  import opened ItemLists
  import opened Kernels
  import opened KernelInvariants
  import opened KernelSteps

  // ----- blocking

  lemma DetachCurrent(s: Kernel, t: Task, moving: set<Task>)
    requires Good(s, moving, 1) && t in s.priority && StateIn(s, t, Ready(Priority(s, t)))
    ensures Good(Detach(s, t), moving + {t}, 1)
    ensures Detach(s, t).ls.container == s.ls.container - {StateItem(t)}
    ensures Items(Detach(s, t).ls, Terminated) == Items(s.ls, Terminated)
    ensures var r := Detach(s, t); r == s.(ls := r.ls, readyBits := r.readyBits) && r.tick < WORD
  {
    hide Placement, Bits, WakeOrder, CacheSound, Consistent;
    DetachGood(s, t, moving, 1);
    DetachFrame(s, t);
  }

  lemma GoodConsistent(s: Kernel, moving: set<Task>, slack: nat)
    requires Good(s, moving, slack)
    ensures Consistent(s.ls)
  {
    hide Consistent, Placed, Bits, Clock;
  }

  lemma AttachDelayedFrame(s: Kernel, t: Task, wake: nat)
    ensures var r := AttachDelayed(s, t, wake);
            && r == s.(ls := r.ls, unblockTime := r.unblockTime)
            && r.ls.container == s.ls.container[StateItem(t) := if wake < s.tick then s.overflow else s.delayed]
            && r.ls.value == s.ls.value[StateItem(t) := wake]
  {
    hide AddSorted, AddLast;
    var ls := SetValue(s.ls, StateItem(t), wake);
    AddedItem(ls, if wake < s.tick then s.overflow else s.delayed, StateItem(t));
  }

  lemma DelayForGood(s: Kernel, ticks: nat, moving: set<Task>)
    requires Good(s, moving, 1) && s.current in s.priority && StateIn(s, s.current, Ready(Priority(s, s.current)))
    requires 1 <= ticks < WORD
    ensures var r := DelayFor(s, ticks);
            && Good(r, moving - {s.current}, 1)
            && r == s.(ls := r.ls, readyBits := r.readyBits, unblockTime := r.unblockTime)
            && Items(r.ls, Terminated) == Items(s.ls, Terminated)
            && r.ls.container.Keys == s.ls.container.Keys
            && (forall x :: x in s.ls.container && x != StateItem(s.current) ==> r.ls.container[x] == s.ls.container[x])
  {
    hide Good, Items, Detach, AttachDelayed;
    var t := s.current;
    DetachCurrent(s, t, moving);
    var s1 := Detach(s, t);
    var wake := (s.tick + ticks) % WORD;
    AttachDelayedGood(s1, t, wake, moving + {t}, 1);
    AttachDelayedFrame(s1, t, wake);
    assert moving + {t} - {t} == moving - {t};
  }

  lemma BlockGood(s: Kernel, ticks: nat, moving: set<Task>)
    requires Good(s, moving, 1) && s.current in s.priority && StateIn(s, s.current, Ready(Priority(s, s.current)))
    requires 1 <= ticks < WORD
    ensures var r := Block(s, ticks);
            && Good(r, moving - {s.current}, 1)
            && r == s.(ls := r.ls, readyBits := r.readyBits, unblockTime := r.unblockTime)
            && Items(r.ls, Terminated) == Items(s.ls, Terminated)
            && r.ls.container.Keys == s.ls.container.Keys
            && (forall x :: x in s.ls.container && x != StateItem(s.current) ==> r.ls.container[x] == s.ls.container[x])
  {
    hide Good, Detach, AttachDelayed, AddLast;
    if ticks == MAX_DELAY {
      var t := s.current;
      DetachCurrent(s, t, moving);
      var s1 := Detach(s, t);
      AttachToGood(s1, t, Suspended, moving + {t}, 1);
      AddLastFrame(s1.ls, Suspended, StateItem(t));
      assert moving + {t} - {t} == moving - {t};
    } else {
      DelayForGood(s, ticks, moving);
    }
  }

  lemma DelayForInv(s: Kernel, ticks: nat)
    requires Inv(s) && Enabled(s, DoDelay(ticks))
    ensures Inv(DelayFor(s, ticks))
  {
    hide Inv, Good, DelayFor, Items;
    InvParts(s);
    TaskFacts(s, s.current, 1);
    DelayForGood(s, ticks, {});
    assert {} - {s.current} == {};
    InvFromMoved(s, DelayFor(s, ticks));
  }

  lemma TakenAway(container: map<Item, ListId>, x: Item, p: ListId)
    ensures container[x := p] - {x} == container - {x}
  {
  }

  lemma PlaceOnEventInv(s: Kernel, e: nat, ticks: nat)
    requires Inv(s) && Enabled(s, DoPlaceOnEvent(e, ticks))
    ensures Inv(PlaceOnEvent(s, e, ticks))
  {
    hide Inv, Good, Block, AddSorted, Items;
    InvParts(s);
    var t := s.current;
    TaskFacts(s, t, 1);
    AddEventSortedGood(s, t, Event(e), {}, 1);
    assert {} + {t} == {t};
    AddedParts(s.ls, Event(e), EventItem(t));
    TakenAway(s.ls.container, EventItem(t), Event(e));
    BlockedInv(s, s.(ls := AddSorted(s.ls, Event(e), EventItem(t))), ticks);
  }

  lemma AddSortedFrame(ls: Lists, p: ListId, x: Item)
    ensures AddSorted(ls, p, x).container == ls.container[x := p] && AddSorted(ls, p, x).value == ls.value
    ensures forall q :: q != p ==> List(AddSorted(ls, p, x), q) == List(ls, q)
  {
  }

  lemma AddLastFrame(ls: Lists, p: ListId, x: Item)
    ensures AddLast(ls, p, x).container == ls.container[x := p] && AddLast(ls, p, x).value == ls.value
    ensures forall q :: q != p ==> List(AddLast(ls, p, x), q) == List(ls, q)
  {
  }

  /** The running task, its event item in an event list, blocks. */
  lemma BlockedInv(s: Kernel, s1: Kernel, ticks: nat)
    requires Inv(s) && s.started && s.current != s.idle && IsReady(s, s.current) && 1 <= ticks < WORD
    requires s1 == s.(ls := s1.ls) && Good(s1, {s.current}, 1) && Items(s1.ls, Terminated) == Items(s.ls, Terminated)
    requires EventItem(s.current) in s1.ls.container && s1.ls.container - {EventItem(s.current)} == s.ls.container - {EventItem(s.current)}
    ensures Inv(Block(s1, ticks))
  {
    hide Inv, Good, Block, Items;
    InvParts(s);
    var t := s.current;
    TaskFacts(s, t, 1);
    OthersStay(s.ls.container, s1.ls.container, EventItem(t));
    BlockGood(s1, ticks, {t});
    assert {t} - {t} == {};
    InvFromMoved(s, Block(s1, ticks));
  }

  lemma OthersStay(a: map<Item, ListId>, b: map<Item, ListId>, x: Item)
    requires b - {x} == a - {x}
    ensures forall y :: y in a && y != x ==> y in b && b[y] == a[y]
  {
    forall y | y in a && y != x ensures y in b && b[y] == a[y] {
      assert y in a - {x} && (b - {x})[y] == (a - {x})[y];
    }
  }

  lemma PlaceOnUnorderedInv(s: Kernel, e: nat, v: nat, ticks: nat)
    requires Inv(s) && Enabled(s, DoPlaceOnUnordered(e, v, ticks))
    ensures Inv(PlaceOnUnordered(s, e, v, ticks))
  {
    hide Inv, Good, Block, AddLast, Items;
    InvParts(s);
    var t := s.current;
    TaskFacts(s, t, 1);
    var s1 := s.(ls := SetValue(s.ls, EventItem(t), v + VALUE_IN_USE));
    SetValueGood(s, EventItem(t), v + VALUE_IN_USE, {}, 1);
    SameContents(s.ls, s1.ls);
    AddEventLastGood(s1, t, Event(e), {}, 1);
    assert {} + {t} == {t};
    AddedParts(s1.ls, Event(e), EventItem(t));
    TakenAway(s.ls.container, EventItem(t), Event(e));
    BlockedInv(s, s1.(ls := AddLast(s1.ls, Event(e), EventItem(t))), ticks);
  }

  // ----- waking

  lemma MakeReadyFrame(s: Kernel, t: Task)
    ensures var r := MakeReady(s, t); r == s.(ls := r.ls, readyBits := r.readyBits, topReady := r.topReady)
  {
    hide Without, AddLast;
  }

  lemma MakeReadyInv(s: Kernel, t: Task)
    requires Inv(s) && t in s.priority && !StateIn(s, t, Terminated)
    ensures Inv(MakeReady(s, t))
  {
    hide Inv, Good, MakeReady, Items;
    InvParts(s);
    TaskFacts(s, t, 1);
    MakeReadyGood(s, t, 1);
    MakeReadyFrame(s, t);
    InvFromMoved(s, MakeReady(s, t));
  }

  /** Frame of the parts only the selection reads. */
  lemma InvFlags(s: Kernel, r: Kernel)
    requires Inv(s) && r == s.(switchRequested := r.switchRequested, yieldPending := r.yieldPending, suspendDepth := r.suspendDepth)
    ensures Inv(r)
  {
    hide Good, Items;
    GoodFrame(s, r, {}, 1);
  }

  lemma HeldGood(s: Kernel, t: Task)
    requires Good(s, {}, 1) && t in s.priority && EventItem(t) in s.ls.container
    ensures var ls := AddLast(Without(s.ls, EventItem(t)), PendingReady, EventItem(t));
            && Good(s.(ls := ls), {}, 1) && ls.container == s.ls.container[EventItem(t) := PendingReady]
            && Items(ls, Terminated) == Items(s.ls, Terminated)
  {
    hide Good, AddLast, Items, Without;
    TaskFacts(s, t, 1);
    var s1 := DetachEvent(s, t);
    DetachEventGood(s, t, {}, 1);
    TaskFacts(s1, t, 1);
    AddEventLastGood(s1, t, PendingReady, {}, 1);
    AddedParts(s1.ls, PendingReady, EventItem(t));
    PutBack(s.ls.container, EventItem(t), PendingReady);
  }

  lemma HoldPendingInv(s: Kernel, t: Task)
    requires Inv(s) && t in s.priority && EventItem(t) in s.ls.container
    ensures Inv(s.(ls := AddLast(Without(s.ls, EventItem(t)), PendingReady, EventItem(t))))
  {
    hide Inv, Good, AddLast, Items, Without;
    InvParts(s);
    HeldGood(s, t);
    InvFromMoved(s, s.(ls := AddLast(Without(s.ls, EventItem(t)), PendingReady, EventItem(t))));
  }

  lemma RemoveFromEventInv(s: Kernel, e: nat)
    requires Inv(s) && Enabled(s, DoRemoveFromEvent(e))
    ensures Inv(RemoveFromEvent(s, e))
  {
    hide Good, MakeReady, AddLast, Without;
    HeadFacts(s, Event(e), 1);
    var t := Items(s.ls, Event(e))[0].task;
    TaskFacts(s, t, 1);
    MakeReadyInv(s, t);
    HoldPendingInv(s, t);
    hide Inv;
    var s1 := if s.suspendDepth == 0 then MakeReady(s, t) else s.(ls := AddLast(Without(s.ls, EventItem(t)), PendingReady, EventItem(t)));
    InvFlags(s1, s1.(yieldPending := true));
  }

  lemma SetEventValueInv(s: Kernel, t: Task, v: nat)
    requires Inv(s)
    ensures Inv(s.(ls := SetValue(s.ls, EventItem(t), v)))
  {
    hide Inv, Good, Items;
    InvParts(s);
    var r := s.(ls := SetValue(s.ls, EventItem(t), v));
    NotDelayed(s, t, {}, 1);
    SetValueGood(s, EventItem(t), v, {}, 1);
    SameContents(s.ls, r.ls);
    InvFromMoved(s, r);
  }

  lemma WaiterFacts(s: Kernel, t: Task)
    requires Good(s, {}, 1) && EventItem(t) in s.ls.container
    ensures t in s.priority && StateItem(t) in s.ls.container && IsBlockedList(s.ls.container[StateItem(t)])
  {
    hide Bits, WakeOrder, CacheSound, Consistent;
    assert EventItem(t).task in s.priority;
  }

  lemma RemoveFromUnorderedInv(s: Kernel, t: Task, v: nat)
    requires Inv(s) && Enabled(s, DoRemoveFromUnordered(t, v))
    ensures Inv(RemoveFromUnordered(s, t, v))
  {
    hide Good, MakeReady;
    WaiterFacts(s, t);
    var s1 := s.(ls := SetValue(s.ls, EventItem(t), v + VALUE_IN_USE));
    SetEventValueInv(s, t, v + VALUE_IN_USE);
    MakeReadyInv(s1, t);
    hide Inv;
    InvFlags(MakeReady(s1, t), RemoveFromUnordered(s, t, v));
  }

  // ----- one tick

  /** When the tick count wraps the delayed list is empty, as `taskSWITCH_DELAYED_LISTS` asserts. */
  lemma DelayedListEmptyAtSwitch(s: Kernel)
    requires Good(s, {}, 1) && Advanced(s).overflows != s.overflows
    ensures Items(s.ls, s.delayed) == []
  {
    hide Placement, Bits, SortedList, Consistent;
    HeadsMatch(s.ls, s.delayed);
  }

  lemma AdvancedGood(s: Kernel)
    requires Good(s, {}, 1)
    ensures var r := Advanced(s);
            && Good(r, {}, 0)
            && r == s.(tick := r.tick, overflows := r.overflows, delayed := r.delayed, overflow := r.overflow, unblockTime := r.unblockTime)
            && Now(r) == Now(s) + 1
            && {r.delayed, r.overflow} == {s.delayed, s.overflow}
  {
    hide Placement, Bits, SortedList, Consistent;
    if s.tick + 1 == WORD {
      DelayedListEmptyAtSwitch(s);
      assert forall x :: In(s.ls, x, s.delayed) ==> x in Items(s.ls, s.delayed) by { MembersMatch(s.ls); }
      HeadsMatch(s.ls, s.overflow);
    }
  }

  lemma MembersMatch(ls: Lists)
    requires Consistent(ls)
    ensures forall x, p {:trigger In(ls, x, p)} :: In(ls, x, p) ==> x in Items(ls, p)
  {
  }

  lemma HeadsMatch(ls: Lists, p: ListId)
    requires Consistent(ls)
    ensures Items(ls, p) != [] ==> In(ls, Items(ls, p)[0], p)
  {
    if Items(ls, p) != [] {
      assert Items(ls, p)[0] in ls.contents[p].items;
    }
  }

  lemma ListFacts(s: Kernel, p: ListId, slack: nat, x: Item)
    requires Good(s, {}, slack)
    ensures x in Items(s.ls, p) <==> In(s.ls, x, p)
    ensures x in Items(s.ls, p) ==> x.task in s.priority && (IsStateList(p) ==> x.StateItem?)
    ensures Distinct(Items(s.ls, p)) && IsBlockedList(s.delayed)
  {
    if x in Items(s.ls, p) {
      assert x in s.ls.contents[p].items;
    }
  }

  lemma DetachedEventList(s: Kernel, t: Task, p: ListId)
    requires Consistent(s.ls) && (EventItem(t) in s.ls.container ==> s.ls.container[EventItem(t)] != p)
    ensures Consistent(DetachEvent(s, t).ls) && Items(DetachEvent(s, t).ls, p) == Items(s.ls, p)
  {
    hide Consistent, Without;
    if EventItem(t) in s.ls.container {
      WithoutConsistent(s.ls, EventItem(t));
    } else {
      WithoutAbsent(s.ls, EventItem(t));
    }
  }

  lemma AddLastElsewhere(ls: Lists, p: ListId, x: Item, q: ListId)
    requires p != q
    ensures Items(AddLast(ls, p, x), q) == Items(ls, q)
  {
  }

  /** Waking the head of a delayed list takes it out of that list and leaves the rest. */
  lemma MakeHeadReady(s: Kernel, p: ListId)
    requires Good(s, {}, 0) && IsBlockedList(p) && Items(s.ls, p) != []
    ensures Items(MakeReady(s, Items(s.ls, p)[0].task).ls, p) == Items(s.ls, p)[1..]
  {
    hide Good, Consistent, Without, AddLast;
    var x := Items(s.ls, p)[0];
    GoodConsistent(s, {}, 0);
    HeadFacts(s, p, 0);
    TaskFacts(s, x.task, 0);
    var s1 := DetachEvent(s, x.task);
    DetachedEventList(s, x.task, p);
    WithoutHead(s1.ls, p);
    AddLastElsewhere(Without(s1.ls, x), Ready(Priority(s, x.task)), x, p);
  }

  lemma WithoutAbsent(ls: Lists, x: Item)
    requires x !in ls.container
    ensures Without(ls, x) == ls
  {
  }

  /** Waking the first `n` delayed tasks: they leave the list in order, each for the ready list of
      its priority, and every other task stays where it was. */
  lemma {:induction false} WakeGood(s: Kernel, n: nat)
    requires Good(s, {}, 0) && n <= |Items(s.ls, s.delayed)|
    ensures var r := Wake(s, n);
            && Good(r, {}, 0)
            && r == s.(ls := r.ls, readyBits := r.readyBits, topReady := r.topReady)
            && Items(r.ls, s.delayed) == Items(s.ls, s.delayed)[n..]
            && Items(r.ls, Terminated) == Items(s.ls, Terminated)
            && r.ls.value == s.ls.value
            && Woken(s, r, n)
    decreases n
  {
    hide Good, MakeReady, Items, Woken;
    if n == 0 {
      assert Items(s.ls, s.delayed)[0..] == Items(s.ls, s.delayed);
      assert Woken(s, s, 0) by { WokenNone(s); }
    } else {
      var items := Items(s.ls, s.delayed);
      var x := items[0];
      ListFacts(s, s.delayed, 0, x);
      MakeHeadGood(s);
      var s1 := MakeReady(s, x.task);
      assert Items(s1.ls, s.delayed) == items[1..];
      WakeGood(s1, n - 1);
      var r := Wake(s1, n - 1);
      assert items[1..][n - 1..] == items[n..];
      WokenStep(s, s1, r, n);
    }
  }

  /** Where the first `n` tasks of the delayed list, and all others, are afterwards. */
  ghost predicate Woken(s: Kernel, r: Kernel, n: nat)
    requires n <= |Items(s.ls, s.delayed)|
  {
    && (forall t {:trigger StateItem(t)} :: StateItem(t) in s.ls.container <==> StateItem(t) in r.ls.container)
    && (forall t {:trigger StateItem(t)} :: StateItem(t) in s.ls.container ==>
          r.ls.container[StateItem(t)] ==
          if StateItem(t) in Items(s.ls, s.delayed)[..n] then Ready(Priority(s, t)) else s.ls.container[StateItem(t)])
    && (forall t {:trigger EventItem(t)} :: EventItem(t) in r.ls.container ==>
          EventItem(t) in s.ls.container && r.ls.container[EventItem(t)] == s.ls.container[EventItem(t)])
  }

  lemma WokenNone(s: Kernel)
    ensures Woken(s, s, 0)
  {
  }

  lemma WokenStep(s: Kernel, s1: Kernel, r: Kernel, n: nat)
    requires 1 <= n <= |Items(s.ls, s.delayed)| && Distinct(Items(s.ls, s.delayed))
    requires s1.delayed == s.delayed && s1.priority == s.priority && Items(s1.ls, s.delayed) == Items(s.ls, s.delayed)[1..]
    requires var x := Items(s.ls, s.delayed)[0];
             x.StateItem? && x in s.ls.container && s1.ls.container == (s.ls.container - {EventItem(x.task)})[x := Ready(Priority(s, x.task))]
    requires Woken(s1, r, n - 1)
    ensures Woken(s, r, n)
  {
    hide Items;
    var items := Items(s.ls, s.delayed);
    assert items[..n] == [items[0]] + items[1..][..n - 1];
    assert items[0] !in items[1..][..n - 1];
  }

  lemma MakeHeadGood(s: Kernel)
    requires Good(s, {}, 0) && Items(s.ls, s.delayed) != []
    ensures var x := Items(s.ls, s.delayed)[0];
            var r := MakeReady(s, x.task);
            && x == StateItem(x.task)
            && Good(r, {}, 0)
            && r == s.(ls := r.ls, readyBits := r.readyBits, topReady := r.topReady)
            && Items(r.ls, s.delayed) == Items(s.ls, s.delayed)[1..]
            && Items(r.ls, Terminated) == Items(s.ls, Terminated)
            && r.ls.value == s.ls.value
            && r.ls.container == (s.ls.container - {EventItem(x.task)})[x := Ready(Priority(s, x.task))]
  {
    hide Good, MakeReady;
    var x := Items(s.ls, s.delayed)[0];
    ListFacts(s, s.delayed, 0, x);
    TaskFacts(s, x.task, 0);
    MakeReadyGood(s, x.task, 0);
    MakeReadyFrame(s, x.task);
    MakeReadyValues(s, x.task);
    MakeHeadReady(s, s.delayed);
  }

  lemma MakeReadyValues(s: Kernel, t: Task)
    ensures MakeReady(s, t).ls.value == s.ls.value
  {
  }

  /** The number of tasks the scan of the delayed list wakes. */
  function Due(s: Kernel): (n: nat)
    ensures n <= |Items(s.ls, s.delayed)|
  {
    ExpiredCount(Keys(s.ls.value, Items(s.ls, s.delayed)), s.tick)
  }

  /** The scan stops at the right place: what is before it is due at this very tick, and what is
      after it is not due yet. */
  lemma DueExactly(s: Kernel, i: nat)
    requires Good(s, {}, 0) && i < |Items(s.ls, s.delayed)|
    ensures i < Due(s) ==> Key(s.ls.value, Items(s.ls, s.delayed)[i]) == s.tick
    ensures Due(s) <= i ==> s.tick < Key(s.ls.value, Items(s.ls, s.delayed)[i])
  {
    hide Placement, Bits, CacheSound, Consistent;
    ListFacts(s, s.delayed, 0, Items(s.ls, s.delayed)[i]);
    var keys := Keys(s.ls.value, Items(s.ls, s.delayed));
    if Due(s) <= i {
      assert keys[Due(s)] <= keys[i];
    }
  }

  lemma NothingDue(s: Kernel)
    requires Good(s, {}, 0)
    requires forall i {:trigger Items(s.ls, s.delayed)[i]} :: 0 <= i < |Items(s.ls, s.delayed)| ==> s.tick < Key(s.ls.value, Items(s.ls, s.delayed)[i])
    ensures Good(s, {}, 1)
  {
    hide Placement, Bits, CacheSound, SortedList;
    MembersMatch(s.ls);
    hide Consistent;
    forall x | In(s.ls, x, s.delayed) ensures s.tick < Key(s.ls.value, x) {
      assert x in Items(s.ls, s.delayed);
    }
  }

  /** What one processed tick does to the lists. */
  ghost predicate Ticked(s: Kernel, r: Kernel, n: nat)
  {
    && n <= |Items(s.ls, s.delayed)|
    && r == s.(ls := r.ls, readyBits := r.readyBits, topReady := r.topReady, unblockTime := r.unblockTime)
    && Items(r.ls, s.delayed) == Items(s.ls, s.delayed)[n..]
    && Items(r.ls, Terminated) == Items(s.ls, Terminated)
    && r.ls.value == s.ls.value
    && Woken(s, r, n)
  }

  lemma ExpireGood(s: Kernel)
    requires Good(s, {}, 0)
    ensures Good(Expire(s), {}, 1) && Ticked(s, Expire(s), Due(s))
  {
    hide Good, Wake, Woken, Items, Key, ExpiredCount;
    var n := Due(s);
    var r := Wake(s, n);
    WakeGood(s, n);
    assert Items(r.ls, s.delayed) == Items(s.ls, s.delayed)[n..];
    forall i {:trigger Items(r.ls, r.delayed)[i]} | 0 <= i < |Items(r.ls, r.delayed)|
      ensures r.tick < Key(r.ls.value, Items(r.ls, r.delayed)[i]) {
      DueExactly(s, n + i);
    }
    NothingDue(r);
    ResetUnblockTimeGood(r, {}, 1);
    WokenFrame(s, r, ResetUnblockTime(r), n);
  }

  lemma WokenFrame(s: Kernel, r: Kernel, r': Kernel, n: nat)
    requires n <= |Items(s.ls, s.delayed)| && Woken(s, r, n) && r'.ls == r.ls
    ensures Woken(s, r', n)
  {
    hide Items;
  }

  /** While the cached unblock time is in the future, so is every delayed task: the guard of
      `xTaskIncrementTick` hides no expired task. */
  lemma GuardHidesNothing(s: Kernel)
    requires Good(s, {}, 0) && s.tick < s.unblockTime
    ensures Due(s) == 0 && Good(s, {}, 1)
  {
    hide Good, Items;
    CachedHead(s);
    forall i {:trigger Items(s.ls, s.delayed)[i]} | 0 <= i < |Items(s.ls, s.delayed)|
      ensures s.tick < Key(s.ls.value, Items(s.ls, s.delayed)[i]) {
      DueExactly(s, i);
    }
    NothingDue(s);
  }

  lemma CachedHead(s: Kernel)
    requires Good(s, {}, 0)
    ensures Items(s.ls, s.delayed) != [] ==> s.unblockTime <= Key(s.ls.value, Items(s.ls, s.delayed)[0])
    ensures s.tick < s.unblockTime ==> Due(s) == 0
  {
    hide Placement, Bits, WakeOrder, Consistent;
  }

  /** One processed tick keeps the invariant, advances unbounded time by one, and wakes exactly
      the tasks the scan finds. */
  lemma ProcessTickGood(s: Kernel)
    requires Good(s, {}, 1)
    ensures Good(ProcessTick(s), {}, 1)
    ensures Now(ProcessTick(s)) == Now(s) + 1
    ensures Ticked(Advanced(s), ProcessTick(s), Due(Advanced(s)))
  {
    hide Good, Advanced, Expire, Items, Woken, Due;
    AdvancedGood(s);
    var s1 := Advanced(s);
    if s1.tick >= s1.unblockTime {
      ExpireGood(s1);
    } else {
      GuardHidesNothing(s1);
      WokenNone(s1);
      assert Items(s1.ls, s1.delayed)[0..] == Items(s1.ls, s1.delayed);
    }
  }

  /** The guarded scan readies the same tasks as a scan on every tick would, and finds the same
      answer to whether one of them calls for a switch. */
  lemma GuardedScanIsUnguarded(s: Kernel)
    requires Good(s, {}, 1)
    ensures var s1 := Advanced(s);
            && ProcessTick(s).(unblockTime := 0) == Expire(s1).(unblockTime := 0)
            && (s1.tick < s1.unblockTime ==> !WakesRival(s1, Due(s1)))
  {
    hide Good, Items;
    AdvancedGood(s);
    var s1 := Advanced(s);
    if s1.tick < s1.unblockTime {
      GuardHidesNothing(s1);
    }
  }
}
