/** The invariant of the scheduler and its preservation by every step. */
module KernelInvariants {
  import opened ListValues
  import opened ItemLists
  import opened Kernels

  predicate IsStateList(p: ListId) {
    p.Ready? || p.DelayedA? || p.DelayedB? || p.Suspended? || p.Terminated?
  }

  predicate IsBlockedList(p: ListId) {
    p.DelayedA? || p.DelayedB? || p.Suspended?
  }

  predicate IsEventList(p: ListId) {
    p.PendingReady? || p.Event?
  }

  /** The lists that exist. */
  ghost predicate Shape(s: Kernel) {
    && Consistent(s.ls)
    && (forall p: nat {:trigger Ready(p)} :: Ready(p) in s.ls.contents <==> p < PRIORITIES)
    && DelayedA in s.ls.contents && DelayedB in s.ls.contents
    && Suspended in s.ls.contents && Terminated in s.ls.contents && PendingReady in s.ls.contents
    && ((s.delayed == DelayedA && s.overflow == DelayedB) || (s.delayed == DelayedB && s.overflow == DelayedA))
  }

  /** Where the items of the tasks are. The tasks in `moving` are between two lists. */
  ghost predicate Placement(container: map<Item, ListId>, priority: map<Task, nat>, moving: set<Task>) {
    && (forall t {:trigger StateItem(t)} {:trigger t in priority} :: t in priority && t !in moving ==> StateItem(t) in container)
    && (forall x :: x in container ==>
          && x.task in priority
          && (x.StateItem? ==> IsStateList(container[x]))
          && (x.EventItem? ==> IsEventList(container[x])))
    && (forall t {:trigger StateItem(t)} :: StateItem(t) in container && t !in moving && container[StateItem(t)].Ready? ==>
          container[StateItem(t)].priority == priority[t])
    && (forall t {:trigger EventItem(t)} :: EventItem(t) in container && t !in moving ==>
          IsBlockedList(container[StateItem(t)]))
  }

  ghost predicate Priorities(priority: map<Task, nat>, basePriority: map<Task, nat>) {
    && priority.Keys == basePriority.Keys
    && forall t :: t in priority ==> priority[t] < PRIORITIES && basePriority[t] < PRIORITIES
  }

  ghost predicate Placed(s: Kernel, moving: set<Task>) {
    Placement(s.ls.container, s.priority, moving) && Priorities(s.priority, s.basePriority)
  }

  /** The bitmap has bit `p` set exactly when ready list `p` is not empty; the generic selection's
      variable is an upper bound of them, and the number of a ready list. */
  ghost predicate Bits(contents: map<ListId, ItemList>, readyBits: set<nat>, topReady: nat) {
    && (forall p: nat {:trigger p in readyBits} {:trigger Ready(p)} :: p in readyBits <==> Ready(p) in contents && contents[Ready(p)].items != [])
    && (forall p :: p in readyBits ==> p <= topReady)
    && topReady < PRIORITIES
  }

  /** The delayed lists are in wake order. With `slack` 1 every task of the current list wakes after
      the present tick and every task of the overflow list after the next wrap; `slack` 0 is the
      state within a scan, when some are due. */
  ghost predicate WakeOrder(ls: Lists, delayed: ListId, overflow: ListId, tick: nat, slack: nat) {
    && SortedList(ls, delayed) && SortedList(ls, overflow)
    && (forall x :: In(ls, x, delayed) ==> tick + slack <= Key(ls.value, x) < WORD)
    && (forall x :: In(ls, x, overflow) ==> Key(ls.value, x) < tick)
  }

  /** The cached unblock time never hides the head of the delayed list. */
  ghost predicate CacheSound(ls: Lists, delayed: ListId, unblockTime: nat) {
    Items(ls, delayed) != [] ==> unblockTime <= Key(ls.value, Items(ls, delayed)[0])
  }

  ghost predicate Clock(s: Kernel, slack: nat) {
    && s.tick < WORD && s.unblockTime <= MAX_DELAY
    && WakeOrder(s.ls, s.delayed, s.overflow, s.tick, slack)
    && CacheSound(s.ls, s.delayed, s.unblockTime)
  }

  ghost predicate Counts(s: Kernel) {
    && s.taskCount == |s.priority|
    && s.deletedCount == |Items(s.ls, Terminated)|
    && s.current in s.priority
    && (s.started ==> s.idle in s.priority && IsReady(s, s.idle))
  }

  ghost predicate Good(s: Kernel, moving: set<Task>, slack: nat) {
    Shape(s) && Placed(s, moving) && Bits(s.ls.contents, s.readyBits, s.topReady) && Clock(s, slack)
  }

  ghost predicate Inv(s: Kernel) {
    && Good(s, {}, 1) && Counts(s)
    && Now(s) + s.pendedTicks == s.interrupts
    && (!s.started ==> s.pendedTicks == 0 && s.overflows == 0 && s.tick == 0)
  }

  // ----- changes of placement

  lemma PlacementWithout(container: map<Item, ListId>, priority: map<Task, nat>, moving: set<Task>, x: Item)
    requires Placement(container, priority, moving)
    ensures Placement(container - {x}, priority, moving + {x.task})
    ensures x.EventItem? ==> Placement(container - {x}, priority, moving)
  {
  }

  lemma PlacementWithState(container: map<Item, ListId>, priority: map<Task, nat>, moving: set<Task>, t: Task, p: ListId)
    requires Placement(container, priority, moving) && t in priority
    requires IsStateList(p) && (p.Ready? ==> p.priority == priority[t])
    requires EventItem(t) in container ==> IsBlockedList(p)
    ensures Placement(container[StateItem(t) := p], priority, moving - {t})
  {
  }

  lemma PlacementWithEvent(container: map<Item, ListId>, priority: map<Task, nat>, moving: set<Task>, t: Task, p: ListId)
    requires Placement(container, priority, moving) && t in priority && IsEventList(p)
    ensures Placement(container[EventItem(t) := p], priority, moving + {t})
    ensures StateItem(t) in container && IsBlockedList(container[StateItem(t)]) ==>
              Placement(container[EventItem(t) := p], priority, moving)
  {
  }

  lemma PlacementNew(container: map<Item, ListId>, priority: map<Task, nat>, t: Task, p: nat)
    requires Placement(container, priority, {}) && t !in priority
    ensures Placement(container, priority[t := p], {t})
    ensures StateItem(t) !in container && EventItem(t) !in container
  {
  }

  /** A change of priority puts a ready task in the wrong list until it is moved. */
  lemma PlacementReprioritised(container: map<Item, ListId>, priority: map<Task, nat>, moving: set<Task>, t: Task, p: nat)
    requires Placement(container, priority, moving) && t in priority
    ensures Placement(container, priority[t := p], moving + {t})
    ensures StateItem(t) in container && !container[StateItem(t)].Ready? ==> Placement(container, priority[t := p], moving)
  {
  }

  lemma PlacementForgotten(container: map<Item, ListId>, priority: map<Task, nat>, t: Task)
    requires Placement(container, priority, {t}) && StateItem(t) !in container && EventItem(t) !in container
    ensures Placement(container, priority - {t}, {})
  {
  }

  lemma PlacementTyped(container: map<Item, ListId>, priority: map<Task, nat>, moving: set<Task>, x: Item)
    requires Placement(container, priority, moving)
    ensures x in container ==> x.task in priority && if x.StateItem? then IsStateList(container[x]) else IsEventList(container[x])
  {
  }

  // ----- changes of the ready lists

  lemma AddedBits(ls: Lists, readyBits: set<nat>, topReady: nat, p: ListId, x: Item)
    requires Bits(ls.contents, readyBits, topReady)
    ensures !p.Ready? ==> Bits(AddLast(ls, p, x).contents, readyBits, topReady) && Bits(AddSorted(ls, p, x).contents, readyBits, topReady)
    ensures p.Ready? && p.priority < PRIORITIES ==>
              Bits(AddLast(ls, p, x).contents, readyBits + {p.priority}, if topReady < p.priority then p.priority else topReady)
  {
    AddedContents(ls, p, x);
    hide AddLast, AddSorted;
  }

  lemma AddedContents(ls: Lists, p: ListId, x: Item)
    ensures p in AddLast(ls, p, x).contents && AddLast(ls, p, x).contents[p].items != []
    ensures forall q :: q != p ==>
              (q in AddLast(ls, p, x).contents <==> q in ls.contents) && (q in AddSorted(ls, p, x).contents <==> q in ls.contents)
              && (q in ls.contents ==> AddLast(ls, p, x).contents[q] == ls.contents[q] && AddSorted(ls, p, x).contents[q] == ls.contents[q])
  {
    hide FirstGreater, Keys;
  }

  lemma WithoutBits(ls: Lists, readyBits: set<nat>, topReady: nat, x: Item)
    requires Consistent(ls) && Bits(ls.contents, readyBits, topReady) && x in ls.container
    ensures var p := ls.container[x];
            Bits(Without(ls, x).contents, if p.Ready? && Items(Without(ls, x), p) == [] then readyBits - {p.priority} else readyBits, topReady)
  {
    var r := Without(ls, x);
    assert forall q :: q != ls.container[x] ==> Items(r, q) == Items(ls, q);
    assert Items(ls, ls.container[x]) != [];
  }

  // ----- changes of the delayed lists

  lemma WithoutClock(ls: Lists, x: Item, d: ListId, o: ListId, tick: nat, slack: nat, unblockTime: nat)
    requires Consistent(ls) && WakeOrder(ls, d, o, tick, slack) && CacheSound(ls, d, unblockTime) && x in ls.container
    ensures WakeOrder(Without(ls, x), d, o, tick, slack) && CacheSound(Without(ls, x), d, unblockTime)
  {
    WithoutConsistent(ls, x);
    WithoutSorted(ls, x, d);
    WithoutSorted(ls, x, o);
    assert forall y, p :: In(Without(ls, x), y, p) ==> In(ls, y, p);
  }

  lemma AddLastClock(ls: Lists, p: ListId, x: Item, d: ListId, o: ListId, tick: nat, slack: nat, unblockTime: nat)
    requires Consistent(ls) && WakeOrder(ls, d, o, tick, slack) && CacheSound(ls, d, unblockTime)
    requires p in ls.contents && x !in ls.container && p != d && p != o
    ensures WakeOrder(AddLast(ls, p, x), d, o, tick, slack) && CacheSound(AddLast(ls, p, x), d, unblockTime)
  {
    AddLastPlaces(ls, p, x);
    hide Consistent, AddLast, Key, Keys;
  }

  lemma AddLastPlaces(ls: Lists, p: ListId, x: Item)
    ensures var r := AddLast(ls, p, x);
            && r.value == ls.value && Items(r, p) != []
            && (forall q :: q != p ==> Items(r, q) == Items(ls, q))
            && (forall y, q :: In(r, y, q) ==> (y == x && q == p) || In(ls, y, q))
  {
  }

  lemma AddSortedClock(ls: Lists, p: ListId, x: Item, d: ListId, o: ListId, tick: nat, slack: nat, unblockTime: nat)
    requires Consistent(ls) && WakeOrder(ls, d, o, tick, slack) && CacheSound(ls, d, unblockTime)
    requires p in ls.contents && x !in ls.container && d != o
    requires p == d ==> tick + slack <= Key(ls.value, x) < WORD
    requires p == o ==> Key(ls.value, x) < tick
    ensures var r := AddSorted(ls, p, x);
            WakeOrder(r, d, o, tick, slack) && CacheSound(r, d, if p == d && Key(ls.value, x) < unblockTime then Key(ls.value, x) else unblockTime)
  {
    hide Consistent, SortedList, AddSorted, Key;
    var r := AddSorted(ls, p, x);
    AddSortedPlaces(ls, p, x);
    AddSortedOrder(ls, p, x, d);
    AddSortedOrder(ls, p, x, o);
    if p == d {
      AddSortedSorted(ls, p, x);
    }
  }

  lemma AddSortedPlaces(ls: Lists, p: ListId, x: Item)
    ensures var r := AddSorted(ls, p, x);
            && r.value == ls.value && Items(r, p) != []
            && (forall q :: q != p ==> Items(r, q) == Items(ls, q))
            && (forall y, q :: In(r, y, q) ==> (y == x && q == p) || In(ls, y, q))
  {
    hide FirstGreater, Keys;
  }

  lemma AddedItem(ls: Lists, p: ListId, x: Item)
    ensures AddLast(ls, p, x).container == AddSorted(ls, p, x).container == ls.container[x := p]
    ensures AddLast(ls, p, x).value == AddSorted(ls, p, x).value == ls.value
  {
    hide FirstGreater, Keys, InsertEnd, InsertBefore;
  }

  lemma AddedParts(ls: Lists, p: ListId, x: Item)
    ensures AddLast(ls, p, x).container == AddSorted(ls, p, x).container == ls.container[x := p]
    ensures AddLast(ls, p, x).value == AddSorted(ls, p, x).value == ls.value
    ensures AddLast(ls, p, x).contents.Keys == AddSorted(ls, p, x).contents.Keys == ls.contents.Keys + {p}
    ensures forall q :: q != p ==> Items(AddLast(ls, p, x), q) == Items(AddSorted(ls, p, x), q) == Items(ls, q)
  {
    hide FirstGreater, Keys, InsertEnd, InsertBefore;
  }

  lemma AddSortedOrder(ls: Lists, p: ListId, x: Item, q: ListId)
    requires Consistent(ls) && p in ls.contents && x !in ls.container && SortedList(ls, q)
    ensures SortedList(AddSorted(ls, p, x), q)
  {
    if p == q {
      hide SortedList;
      AddSortedSorted(ls, p, x);
    }
  }

  lemma SetValueClock(ls: Lists, x: Item, v: nat, d: ListId, o: ListId, tick: nat, slack: nat, unblockTime: nat)
    requires Consistent(ls) && WakeOrder(ls, d, o, tick, slack) && CacheSound(ls, d, unblockTime)
    requires d in ls.contents && o in ls.contents && !In(ls, x, d) && !In(ls, x, o)
    ensures WakeOrder(SetValue(ls, x, v), d, o, tick, slack) && CacheSound(SetValue(ls, x, v), d, unblockTime)
    ensures Consistent(SetValue(ls, x, v))
  {
    hide Consistent, Keys, Sorted, Items, Distinct;
    var r := SetValue(ls, x, v);
    ValueElsewhere(ls, x, v, d);
    ValueElsewhere(ls, x, v, o);
    assert forall y, p {:trigger In(r, y, p)} :: In(r, y, p) ==> In(ls, y, p);
    assert forall y {:trigger Key(r.value, y)} :: y != x ==> Key(r.value, y) == Key(ls.value, y);
    hide SetValue;
  }

  lemma ValueElsewhere(ls: Lists, x: Item, v: nat, p: ListId)
    requires Consistent(ls) && p in ls.contents && !In(ls, x, p)
    ensures var r := SetValue(ls, x, v);
            && Consistent(r) && Items(r, p) == Items(ls, p)
            && Keys(r.value, Items(r, p)) == Keys(ls.value, Items(ls, p))
            && (Items(r, p) != [] ==> Key(r.value, Items(r, p)[0]) == Key(ls.value, Items(ls, p)[0]))
  {
    var r := SetValue(ls, x, v);
    assert x !in Items(ls, p);
    assert Keys(r.value, Items(ls, p)) == Keys(ls.value, Items(ls, p));
  }

  // ----- the primitives: each keeps the invariant, but for the task it moves

  lemma ShapeFacts(s: Kernel)
    requires Shape(s)
    ensures Consistent(s.ls) && s.delayed != s.overflow && s.delayed in s.ls.contents && s.overflow in s.ls.contents
    ensures IsBlockedList(s.delayed) && s.delayed != Suspended && IsBlockedList(s.overflow) && s.overflow != Suspended
    ensures Suspended in s.ls.contents && Terminated in s.ls.contents && PendingReady in s.ls.contents
  {
    hide Consistent;
  }

  lemma ShapeStays(s: Kernel, r: Kernel)
    requires Shape(s) && Consistent(r.ls) && r.ls.contents.Keys == s.ls.contents.Keys
    requires r.delayed == s.delayed && r.overflow == s.overflow
    ensures Shape(r)
  {
    hide Consistent;
    assert forall p :: p in r.ls.contents <==> p in s.ls.contents;
  }

  lemma DetachGood(s: Kernel, t: Task, moving: set<Task>, slack: nat)
    requires Good(s, moving, slack) && StateItem(t) in s.ls.container
    ensures Good(Detach(s, t), moving + {t}, slack)
    ensures Detach(s, t).ls.container == s.ls.container - {StateItem(t)}
    ensures !StateIn(s, t, Terminated) ==> Items(Detach(s, t).ls, Terminated) == Items(s.ls, Terminated)
  {
    hide Placement, Bits, WakeOrder, CacheSound, Consistent, Without;
    WithoutConsistent(s.ls, StateItem(t));
    PlacementWithout(s.ls.container, s.priority, moving, StateItem(t));
    WithoutBits(s.ls, s.readyBits, s.topReady, StateItem(t));
    WithoutClock(s.ls, StateItem(t), s.delayed, s.overflow, s.tick, slack, s.unblockTime);
  }

  lemma AttachToGood(s: Kernel, t: Task, p: ListId, moving: set<Task>, slack: nat)
    requires Good(s, moving, slack) && t in s.priority && StateItem(t) !in s.ls.container
    requires p == Suspended || (p == Terminated && EventItem(t) !in s.ls.container)
    ensures Good(AttachTo(s, t, p), moving - {t}, slack)
    ensures |Items(AttachTo(s, t, p).ls, Terminated)| == |Items(s.ls, Terminated)| + if p == Terminated then 1 else 0
  {
    hide Shape, Placement, Priorities, Bits, WakeOrder, CacheSound, Consistent, AddLast, AddSorted;
    ShapeFacts(s);
    AddedParts(s.ls, p, StateItem(t));
    AddLastConsistent(s.ls, p, StateItem(t));
    PlacementWithState(s.ls.container, s.priority, moving, t, p);
    AddedBits(s.ls, s.readyBits, s.topReady, p, StateItem(t));
    AddLastClock(s.ls, p, StateItem(t), s.delayed, s.overflow, s.tick, slack, s.unblockTime);
    ShapeStays(s, AttachTo(s, t, p));
  }

  lemma AttachReadyGood(s: Kernel, t: Task, moving: set<Task>, slack: nat)
    requires Good(s, moving, slack) && t in s.priority && StateItem(t) !in s.ls.container && EventItem(t) !in s.ls.container
    ensures Good(AttachReady(s, t), moving - {t}, slack)
    ensures AttachReady(s, t).ls.container == s.ls.container[StateItem(t) := Ready(Priority(s, t))]
    ensures Items(AttachReady(s, t).ls, Terminated) == Items(s.ls, Terminated)
  {
    hide Placement, Bits, WakeOrder, CacheSound, Consistent, AddLast, AddSorted, Items;
    var p := Ready(Priority(s, t));
    AddedParts(s.ls, p, StateItem(t));
    AddLastConsistent(s.ls, p, StateItem(t));
    PlacementWithState(s.ls.container, s.priority, moving, t, p);
    AddedBits(s.ls, s.readyBits, s.topReady, p, StateItem(t));
    AddLastClock(s.ls, p, StateItem(t), s.delayed, s.overflow, s.tick, slack, s.unblockTime);
  }

  lemma SetValueGood(s: Kernel, x: Item, v: nat, moving: set<Task>, slack: nat)
    requires Good(s, moving, slack)
    requires !In(s.ls, x, s.delayed) && !In(s.ls, x, s.overflow)
    ensures Good(s.(ls := SetValue(s.ls, x, v)), moving, slack)
  {
    SetValueClock(s.ls, x, v, s.delayed, s.overflow, s.tick, slack, s.unblockTime);
    hide WakeOrder, CacheSound;
  }

  lemma AttachDelayedGood(s: Kernel, t: Task, wake: nat, moving: set<Task>, slack: nat)
    requires Good(s, moving, slack) && slack <= 1 && t in s.priority && StateItem(t) !in s.ls.container
    requires wake < WORD && wake != s.tick
    ensures Good(AttachDelayed(s, t, wake), moving - {t}, slack)
    ensures Items(AttachDelayed(s, t, wake).ls, Terminated) == Items(s.ls, Terminated)
  {
    hide Good, AddSorted;
    var s1 := s.(ls := SetValue(s.ls, StateItem(t), wake));
    NotDelayed(s, t, moving, slack);
    SetValueGood(s, StateItem(t), wake, moving, slack);
    if wake < s.tick {
      AddOverflowGood(s1, t, moving, slack);
    } else {
      AddDelayedGood(s1, t, moving, slack);
    }
  }

  lemma NotDelayed(s: Kernel, t: Task, moving: set<Task>, slack: nat)
    requires Good(s, moving, slack)
    ensures StateItem(t) !in s.ls.container ==> !In(s.ls, StateItem(t), s.delayed) && !In(s.ls, StateItem(t), s.overflow)
    ensures !In(s.ls, EventItem(t), s.delayed) && !In(s.ls, EventItem(t), s.overflow)
    ensures Terminated in s.ls.contents && s.delayed != Terminated && s.overflow != Terminated && s.delayed != s.overflow
  {
    hide Bits, Clock, Consistent;
  }

  /** A state item joins one of the delayed lists: all but the times. */
  lemma StateAdded(s: Kernel, t: Task, p: ListId, moving: set<Task>, slack: nat)
    requires Good(s, moving, slack) && t in s.priority && StateItem(t) !in s.ls.container && (p == s.delayed || p == s.overflow)
    ensures var ls := AddSorted(s.ls, p, StateItem(t));
            && Shape(s.(ls := ls)) && Placement(ls.container, s.priority, moving - {t}) && Bits(ls.contents, s.readyBits, s.topReady)
            && Items(ls, Terminated) == Items(s.ls, Terminated)
  {
    hide Shape, Placement, Priorities, Bits, Clock, Consistent, AddLast, AddSorted, Items;
    var x := StateItem(t);
    ShapeFacts(s);
    AddedParts(s.ls, p, x);
    AddSortedConsistent(s.ls, p, x);
    PlacementWithState(s.ls.container, s.priority, moving, t, p);
    AddedBits(s.ls, s.readyBits, s.topReady, p, x);
    ShapeStays(s, s.(ls := AddSorted(s.ls, p, x)));
  }

  /** A state item joins one of the delayed lists. */
  lemma AddDelayedGood(s: Kernel, t: Task, moving: set<Task>, slack: nat)
    requires Good(s, moving, slack) && t in s.priority && StateItem(t) !in s.ls.container
    requires s.tick + slack <= Key(s.ls.value, StateItem(t)) < WORD
    ensures var wake := Key(s.ls.value, StateItem(t));
            var r := s.(ls := AddSorted(s.ls, s.delayed, StateItem(t)), unblockTime := if wake < s.unblockTime then wake else s.unblockTime);
            Good(r, moving - {t}, slack) && Items(r.ls, Terminated) == Items(s.ls, Terminated)
  {
    hide Shape, Placement, Priorities, Bits, WakeOrder, CacheSound, Consistent, AddSorted, Key, Items;
    var x, wake := StateItem(t), Key(s.ls.value, StateItem(t));
    ShapeFacts(s);
    StateAdded(s, t, s.delayed, moving, slack);
    AddSortedClock(s.ls, s.delayed, x, s.delayed, s.overflow, s.tick, slack, s.unblockTime);
    var s1 := s.(ls := AddSorted(s.ls, s.delayed, x));
    ShapeFacts(s1);
    ShapeStays(s1, s1.(unblockTime := if wake < s.unblockTime then wake else s.unblockTime));
  }

  lemma AddOverflowGood(s: Kernel, t: Task, moving: set<Task>, slack: nat)
    requires Good(s, moving, slack) && t in s.priority && StateItem(t) !in s.ls.container
    requires Key(s.ls.value, StateItem(t)) < s.tick
    ensures var r := s.(ls := AddSorted(s.ls, s.overflow, StateItem(t)));
            Good(r, moving - {t}, slack) && Items(r.ls, Terminated) == Items(s.ls, Terminated)
  {
    hide Shape, Placement, Priorities, Bits, WakeOrder, CacheSound, Consistent, AddSorted, Key, Items;
    ShapeFacts(s);
    StateAdded(s, t, s.overflow, moving, slack);
    AddSortedClock(s.ls, s.overflow, StateItem(t), s.delayed, s.overflow, s.tick, slack, s.unblockTime);
  }

  lemma DetachEventGood(s: Kernel, t: Task, moving: set<Task>, slack: nat)
    requires Good(s, moving, slack)
    ensures Good(DetachEvent(s, t), moving, slack)
    ensures DetachEvent(s, t).ls.container == s.ls.container - {EventItem(t)}
    ensures Items(DetachEvent(s, t).ls, Terminated) == Items(s.ls, Terminated)
  {
    if EventItem(t) in s.ls.container {
      DetachEventMoves(s, t, moving, slack);
    }
  }

  lemma DetachEventMoves(s: Kernel, t: Task, moving: set<Task>, slack: nat)
    requires Good(s, moving, slack) && EventItem(t) in s.ls.container
    ensures Good(DetachEvent(s, t), moving, slack)
    ensures DetachEvent(s, t).ls.container == s.ls.container - {EventItem(t)}
    ensures Items(DetachEvent(s, t).ls, Terminated) == Items(s.ls, Terminated)
  {
    var x := EventItem(t);
    hide Placement, Bits, WakeOrder, CacheSound, Consistent, Without;
    PlacementTyped(s.ls.container, s.priority, moving, x);
    WithoutConsistent(s.ls, x);
    PlacementWithout(s.ls.container, s.priority, moving, x);
    WithoutBits(s.ls, s.readyBits, s.topReady, x);
    WithoutClock(s.ls, x, s.delayed, s.overflow, s.tick, slack, s.unblockTime);
  }

  /** An event item joins an event list; its task must be, or become, blocked. */
  lemma AddEventSortedGood(s: Kernel, t: Task, p: ListId, moving: set<Task>, slack: nat)
    requires Good(s, moving, slack) && t in s.priority && EventItem(t) !in s.ls.container
    requires p in s.ls.contents && IsEventList(p)
    ensures Good(s.(ls := AddSorted(s.ls, p, EventItem(t))), moving + {t}, slack)
  {
    hide Shape, Placement, Priorities, Bits, WakeOrder, CacheSound, Consistent, AddLast, AddSorted, Items;
    ShapeFacts(s);
    AddedParts(s.ls, p, EventItem(t));
    AddSortedConsistent(s.ls, p, EventItem(t));
    AddSortedClock(s.ls, p, EventItem(t), s.delayed, s.overflow, s.tick, slack, s.unblockTime);
    PlacementWithEvent(s.ls.container, s.priority, moving, t, p);
    AddedBits(s.ls, s.readyBits, s.topReady, p, EventItem(t));
    ShapeStays(s, s.(ls := AddSorted(s.ls, p, EventItem(t))));
  }

  lemma AddEventLastGood(s: Kernel, t: Task, p: ListId, moving: set<Task>, slack: nat)
    requires Good(s, moving, slack) && t in s.priority && EventItem(t) !in s.ls.container
    requires p in s.ls.contents && IsEventList(p)
    ensures Good(s.(ls := AddLast(s.ls, p, EventItem(t))), moving + {t}, slack)
    ensures StateItem(t) in s.ls.container && IsBlockedList(s.ls.container[StateItem(t)]) ==>
              Good(s.(ls := AddLast(s.ls, p, EventItem(t))), moving, slack)
  {
    hide Shape, Placement, Priorities, Bits, WakeOrder, CacheSound, Consistent, AddLast, AddSorted, Items;
    ShapeFacts(s);
    AddedParts(s.ls, p, EventItem(t));
    AddLastConsistent(s.ls, p, EventItem(t));
    AddLastClock(s.ls, p, EventItem(t), s.delayed, s.overflow, s.tick, slack, s.unblockTime);
    PlacementWithEvent(s.ls.container, s.priority, moving, t, p);
    AddedBits(s.ls, s.readyBits, s.topReady, p, EventItem(t));
    ShapeStays(s, s.(ls := AddLast(s.ls, p, EventItem(t))));
  }

  lemma MakeReadyGood(s: Kernel, t: Task, slack: nat)
    requires Good(s, {}, slack) && t in s.priority && StateItem(t) in s.ls.container
    ensures Good(MakeReady(s, t), {}, slack)
    ensures MakeReady(s, t).ls.container == (s.ls.container - {EventItem(t)})[StateItem(t) := Ready(Priority(s, t))]
    ensures !StateIn(s, t, Terminated) ==> Items(MakeReady(s, t).ls, Terminated) == Items(s.ls, Terminated)
  {
    hide Good;
    var s1 := DetachEvent(s, t);
    DetachEventGood(s, t, {}, slack);
    var s2 := Detach(s1, t);
    assert {} + {t} == {t} && {t} - {t} == {};
    DetachGood(s1, t, {}, slack);
    AttachReadyGood(s2, t, {t}, slack);
  }
}
