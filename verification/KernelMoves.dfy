/** What a step of the scheduler leaves alone: everybody but the tasks it is about keep their lists, their
    order in them, their turn, their item values and their priorities. */
module KernelMoves {
  import opened ListValues
  import opened ItemLists
  import opened Kernels
  import opened KernelInvariants
  import opened KernelSteps
  import opened KernelTicks
  import opened KernelRuns
  import opened KernelTime

  /** The items of a list that are not of the tasks in `moved`, in order. */
  function Others(items: seq<Item>, moved: set<Task>): seq<Item> {
    if items == [] then []
    else (if items[0].task in moved then [] else [items[0]]) + Others(items[1..], moved)
  }

  lemma OthersHead(items: seq<Item>, moved: set<Task>)
    ensures items == [] ==> Others(items, moved) == []
    ensures items != [] ==>
              Others(items, moved) == (if items[0].task in moved then [] else [items[0]]) + Others(items[1..], moved)
  {
  }

  lemma {:induction false} OthersConcat(a: seq<Item>, b: seq<Item>, moved: set<Task>)
    ensures Others(a + b, moved) == Others(a, moved) + Others(b, moved)
  {
    hide Others;
    OthersHead(a, moved);
    if a == [] {
      assert a + b == b;
    } else {
      OthersConcat(a[1..], b, moved);
      OthersHead(a + b, moved);
      assert (a + b)[1..] == a[1..] + b;
      Associates(if a[0].task in moved then [] else [a[0]], Others(a[1..], moved), Others(b, moved));
    }
  }

  lemma Associates(a: seq<Item>, b: seq<Item>, c: seq<Item>)
    ensures a + (b + c) == (a + b) + c
  {
  }

  lemma OthersInsert(items: seq<Item>, k: nat, x: Item, moved: set<Task>)
    requires k <= |items| && x.task in moved
    ensures Others(InsertAt(items, k, x), moved) == Others(items, moved)
  {
    hide Others;
    var before, after := items[..k], items[k..];
    OthersConcat(before + [x], after, moved);
    OthersConcat(before, [x], moved);
    OthersConcat(before, after, moved);
    OthersNone(x, moved);
    assert items == before + after;
    assert InsertAt(items, k, x) == (before + [x]) + after;
    assert Others(before, moved) + [] == Others(before, moved);
  }

  lemma OthersNone(x: Item, moved: set<Task>)
    requires x.task in moved
    ensures Others([x], moved) == []
  {
  }

  lemma OthersRemove(items: seq<Item>, k: nat, moved: set<Task>)
    requires k < |items| && items[k].task in moved
    ensures Others(RemoveAt(items, k), moved) == Others(items, moved)
  {
    var rest := RemoveAt(items, k);
    assert items == InsertAt(rest, k, items[k]);
    OthersInsert(rest, k, items[k], moved);
  }

  /** Leaving the moved tasks out, the two lists are the same, also in the order in which the cursor will
      come to their items; and a cursor at rest stays at rest. */
  ghost predicate ListMoves(l: ItemList, r: ItemList, moved: set<Task>) {
    && Others(r.items, moved) == Others(l.items, moved)
    && Others(Upcoming(r), moved) == Others(Upcoming(l), moved)
    && (l.index == 0 ==> r.index == 0)
  }

  ghost predicate ListsMove(ls: Lists, rs: Lists, moved: set<Task>) {
    && (forall p :: ListMoves(List(ls, p), List(rs, p), moved))
    && (forall x: Item :: x.task !in moved ==>
          && (x in rs.container <==> x in ls.container)
          && (x in ls.container ==> rs.container[x] == ls.container[x])
          && Key(rs.value, x) == Key(ls.value, x))
  }

  lemma ListsMoveTwice(ls: Lists, ms: Lists, rs: Lists, moved: set<Task>)
    requires ListsMove(ls, ms, moved) && ListsMove(ms, rs, moved)
    ensures ListsMove(ls, rs, moved)
  {
    hide Upcoming, Others, List, Key;
  }

  lemma SameList(l: ItemList, moved: set<Task>)
    ensures ListMoves(l, l, moved)
  {
  }

  // ----- one list at a time

  lemma InsertEndMoves(l: ItemList, x: Item, moved: set<Task>)
    requires x.task in moved
    ensures ListMoves(l, InsertEnd(l, x), moved)
  {
    hide Upcoming, Others;
    InsertEndKeepsTurns(l, x);
    var k := if l.index == 0 then |l.items| else l.index - 1;
    InsertEndAt(l, x);
    OthersInsert(l.items, k, x, moved);
    OthersInsert(Upcoming(l), if l.index == 0 then |l.items| else |l.items| - 1, x, moved) by { UpcomingLength(l); }
  }

  lemma UpcomingLength(l: ItemList)
    ensures |Upcoming(l)| == |l.items|
  {
  }

  lemma InsertBeforeMoves(l: ItemList, k: nat, x: Item, moved: set<Task>)
    requires k <= |l.items| && x.task in moved
    ensures ListMoves(l, InsertBefore(l, k, x), moved)
  {
    hide Upcoming, Others;
    InsertBeforeKeepsTurns(l, k, x);
    UpcomingLength(l);
    OthersInsert(l.items, k, x, moved);
    OthersInsert(Upcoming(l), if l.index <= k then k - l.index else |l.items| - l.index + k, x, moved);
  }

  lemma RemoveMoves(l: ItemList, k: nat, moved: set<Task>)
    requires k < |l.items| && l.items[k].task in moved
    ensures ListMoves(l, Remove(l, k), moved)
  {
    hide Upcoming, Others;
    RemoveKeepsTurns(l, k);
    UpcomingLength(l);
    OthersRemove(l.items, k, moved);
    OthersRemove(Upcoming(l), if l.index <= k then k - l.index else |l.items| - l.index + k, moved);
  }

  // ----- all the lists

  lemma AddLastMoves(ls: Lists, p: ListId, x: Item, moved: set<Task>)
    requires x.task in moved
    ensures ListsMove(ls, AddLast(ls, p, x), moved)
  {
    hide ListMoves, InsertEnd;
    forall q ensures ListMoves(List(ls, q), List(AddLast(ls, p, x), q), moved) {
      SameList(List(ls, q), moved);
      InsertEndMoves(List(ls, p), x, moved);
    }
  }

  lemma AddSortedMoves(ls: Lists, p: ListId, x: Item, moved: set<Task>)
    requires x.task in moved
    ensures ListsMove(ls, AddSorted(ls, p, x), moved)
  {
    hide ListMoves, InsertBefore, FirstGreater, Keys;
    var k := FirstGreater(Keys(ls.value, List(ls, p).items), Key(ls.value, x));
    forall q ensures ListMoves(List(ls, q), List(AddSorted(ls, p, x), q), moved) {
      SameList(List(ls, q), moved);
      InsertBeforeMoves(List(ls, p), k, x, moved);
    }
  }

  lemma WithoutMoves(ls: Lists, x: Item, moved: set<Task>)
    requires x.task in moved
    ensures ListsMove(ls, Without(ls, x), moved)
  {
    hide ListMoves, Remove, IndexOf;
    forall q ensures ListMoves(List(ls, q), List(Without(ls, x), q), moved) {
      SameList(List(ls, q), moved);
      if x in ls.container && x in Items(ls, ls.container[x]) {
        var l := List(ls, ls.container[x]);
        RemoveMoves(l, IndexOf(l.items, x), moved);
      }
    }
  }

  lemma SetValueMoves(ls: Lists, x: Item, v: nat, moved: set<Task>)
    requires x.task in moved
    ensures ListsMove(ls, SetValue(ls, x, v), moved)
  {
    hide ListMoves;
    forall q ensures ListMoves(List(ls, q), List(SetValue(ls, x, v), q), moved) {
      SameList(List(ls, q), moved);
    }
  }

  lemma NothingMoves(ls: Lists, rs: Lists, moved: set<Task>)
    requires rs.container == ls.container && rs.value == ls.value && forall p :: List(rs, p) == List(ls, p)
    ensures ListsMove(ls, rs, moved)
  {
    hide ListMoves, List;
    forall q ensures ListMoves(List(ls, q), List(rs, q), moved) {
      SameList(List(ls, q), moved);
    }
  }

  // ----- the scheduler

  /** Everybody but the tasks in `moved` is left alone. */
  ghost predicate Leaves(s: Kernel, r: Kernel, moved: set<Task>) {
    && ListsMove(s.ls, r.ls, moved)
    && (forall t: Task :: t !in moved ==> SameRank(s, r, t))
  }

  predicate SameRank(s: Kernel, r: Kernel, t: Task) {
    && (t in r.priority <==> t in s.priority) && (t in s.priority ==> r.priority[t] == s.priority[t])
    && (t in r.basePriority <==> t in s.basePriority) && (t in s.basePriority ==> r.basePriority[t] == s.basePriority[t])
  }

  lemma LeavesTwice(s: Kernel, m: Kernel, r: Kernel, moved: set<Task>)
    requires Leaves(s, m, moved) && Leaves(m, r, moved)
    ensures Leaves(s, r, moved)
  {
    ListsMoveTwice(s.ls, m.ls, r.ls, moved);
    hide ListsMove;
  }

  /** Only the lists differ. */
  lemma ListsLeave(s: Kernel, r: Kernel, moved: set<Task>)
    requires ListsMove(s.ls, r.ls, moved) && r.priority == s.priority && r.basePriority == s.basePriority
    ensures Leaves(s, r, moved)
  {
    hide ListsMove;
  }

  lemma SameListsLeave(s: Kernel, r: Kernel, moved: set<Task>)
    requires r.ls == s.ls && forall t: Task :: t !in moved ==> SameRank(s, r, t)
    ensures Leaves(s, r, moved)
  {
    NothingMoves(s.ls, r.ls, moved);
    hide ListsMove;
  }

  lemma DetachLeaves(s: Kernel, t: Task, moved: set<Task>)
    requires t in moved
    ensures Leaves(s, Detach(s, t), moved) && Leaves(s, DetachEvent(s, t), moved)
  {
    hide ListsMove, Without, Items;
    WithoutMoves(s.ls, StateItem(t), moved);
    WithoutMoves(s.ls, EventItem(t), moved);
    ListsLeave(s, Detach(s, t), moved);
    ListsLeave(s, DetachEvent(s, t), moved);
  }

  lemma AttachLeaves(s: Kernel, t: Task, p: ListId, moved: set<Task>)
    requires t in moved
    ensures Leaves(s, AttachReady(s, t), moved) && Leaves(s, AttachTo(s, t, p), moved)
  {
    hide ListsMove, AddLast;
    AddLastMoves(s.ls, Ready(Priority(s, t)), StateItem(t), moved);
    AddLastMoves(s.ls, p, StateItem(t), moved);
    ListsLeave(s, AttachReady(s, t), moved);
    ListsLeave(s, AttachTo(s, t, p), moved);
  }

  lemma AttachDelayedLeaves(s: Kernel, t: Task, wake: nat, moved: set<Task>)
    requires t in moved
    ensures Leaves(s, AttachDelayed(s, t, wake), moved)
  {
    hide ListsMove, AddSorted, SetValue;
    var ls := SetValue(s.ls, StateItem(t), wake);
    var p := if wake < s.tick then s.overflow else s.delayed;
    SetValueMoves(s.ls, StateItem(t), wake, moved);
    AddSortedMoves(ls, p, StateItem(t), moved);
    ListsMoveTwice(s.ls, ls, AddSorted(ls, p, StateItem(t)), moved);
    ListsLeave(s, AttachDelayed(s, t, wake), moved);
  }

  lemma MakeReadyLeaves(s: Kernel, t: Task, moved: set<Task>)
    requires t in moved
    ensures Leaves(s, MakeReady(s, t), moved)
  {
    hide Leaves, Detach, DetachEvent, AttachReady;
    var s1 := DetachEvent(s, t);
    var s2 := Detach(s1, t);
    DetachLeaves(s, t, moved);
    DetachLeaves(s1, t, moved);
    AttachLeaves(s2, t, Suspended, moved);
    LeavesTwice(s, s1, s2, moved);
    LeavesTwice(s, s2, AttachReady(s2, t), moved);
  }

  lemma ReattachedLeaves(s: Kernel, t: Task, moved: set<Task>)
    requires t in moved
    ensures Leaves(s, AttachReady(Detach(s, t), t), moved)
  {
    hide Leaves, Detach, AttachReady;
    DetachLeaves(s, t, moved);
    AttachLeaves(Detach(s, t), t, Suspended, moved);
    LeavesTwice(s, Detach(s, t), AttachReady(Detach(s, t), t), moved);
  }

  lemma RetiredLeaves(s: Kernel, t: Task, p: ListId, moved: set<Task>)
    requires t in moved
    ensures Leaves(s, AttachTo(DetachEvent(Detach(s, t), t), t, p), moved)
  {
    hide Leaves, Detach, DetachEvent, AttachTo;
    var s1 := Detach(s, t);
    var s2 := DetachEvent(s1, t);
    DetachLeaves(s, t, moved);
    DetachLeaves(s1, t, moved);
    AttachLeaves(s2, t, p, moved);
    LeavesTwice(s, s1, s2, moved);
    LeavesTwice(s, s2, AttachTo(s2, t, p), moved);
  }

  lemma BlockLeaves(s: Kernel, ticks: nat, moved: set<Task>)
    requires s.current in moved
    ensures Leaves(s, Block(s, ticks), moved) && Leaves(s, DelayFor(s, ticks), moved)
  {
    hide Leaves, Detach, AttachDelayed, AttachTo;
    var s1 := Detach(s, s.current);
    DetachLeaves(s, s.current, moved);
    AttachLeaves(s1, s.current, Suspended, moved);
    AttachDelayedLeaves(s1, s.current, (s.tick + ticks) % WORD, moved);
    LeavesTwice(s, s1, AttachTo(s1, s.current, Suspended), moved);
    LeavesTwice(s, s1, AttachDelayed(s1, s.current, (s.tick + ticks) % WORD), moved);
  }

  lemma FollowPriorityLeaves(s: Kernel, t: Task, p: nat, moved: set<Task>)
    requires t in moved
    ensures Leaves(s, FollowPriority(s, t, p), moved)
  {
    hide ListsMove, SetValue, Key;
    NothingMoves(s.ls, s.ls, moved);
    if p <= PRIORITIES {
      SetValueMoves(s.ls, EventItem(t), PRIORITIES - p, moved);
    }
    ListsLeave(s, FollowPriority(s, t, p), moved);
  }

  lemma RequeueLeaves(s: Kernel, t: Task, was: nat, moved: set<Task>)
    requires t in moved
    ensures Leaves(s, Requeue(s, t, was), moved)
  {
    hide Leaves, Detach, AttachReady;
    SameListsLeave(s, s, moved);
    ReattachedLeaves(s, t, moved);
  }

  // ----- the steps

  lemma CreateLeaves(s: Kernel, t: Task, p: nat)
    ensures Leaves(s, Create(s, t, p), {t}) && Leaves(s, Start(s, t), {t})
  {
    CreatedLeaves(s, t, p);
    CreatedLeaves(s, t, 0);
    hide Create, ListsMove;
  }

  lemma CreatedLeaves(s: Kernel, t: Task, p: nat)
    ensures Leaves(s, Create(s, t, p), {t})
  {
    ClampBounded(p);
    hide ListsMove, AttachReady, SetValue, Clamp;
    var s1 := s.(priority := s.priority[t := Clamp(p)],
                 basePriority := s.basePriority[t := Clamp(p)],
                 ls := SetValue(s.ls, EventItem(t), PRIORITIES - Clamp(p)));
    var s2 := Counted(s, s1, t, p);
    SetValueMoves(s.ls, EventItem(t), PRIORITIES - Clamp(p), {t});
    assert Leaves(s, s2, {t});
    CreateIs(s, t, p);
    AttachLeaves(s2, t, Suspended, {t});
    LeavesTwice(s, s2, AttachReady(s2, t), {t});
  }

  lemma RankLeaves(s: Kernel, r: Kernel, t: Task, moved: set<Task>)
    requires t in moved && r.ls == s.ls
    requires r.priority - {t} == s.priority - {t} && r.basePriority - {t} == s.basePriority - {t}
    ensures Leaves(s, r, moved)
  {
    forall u: Task | u !in moved ensures SameRank(s, r, u) {
      assert u in r.priority <==> u in r.priority - {t};
      assert u in s.priority <==> u in s.priority - {t};
      assert u in r.basePriority <==> u in r.basePriority - {t};
      assert u in s.basePriority <==> u in s.basePriority - {t};
      assert u in s.priority ==> r.priority[u] == (r.priority - {t})[u];
      assert u in s.basePriority ==> r.basePriority[u] == (r.basePriority - {t})[u];
    }
    SameListsLeave(s, r, moved);
  }

  lemma RetireLeaves(s: Kernel, t: Task)
    ensures Leaves(s, Delete(s, t), {t}) && Leaves(s, Suspend(s, t), {t})
  {
    hide Leaves, AttachTo, DetachEvent, Detach;
    RetiredLeaves(s, t, Terminated, {t});
    RetiredLeaves(s, t, Suspended, {t});
    var s1 := AttachTo(DetachEvent(Detach(s, t), t), t, Terminated);
    FlagsLeave(s, s1, Delete(s, t), {t});
  }

  lemma FlagsLeave(s: Kernel, m: Kernel, r: Kernel, moved: set<Task>)
    requires Leaves(s, m, moved) && r.ls == m.ls && r.priority == m.priority && r.basePriority == m.basePriority
    ensures Leaves(s, r, moved)
  {
    hide ListsMove;
  }

  lemma ReapLeaves(s: Kernel)
    requires Items(s.ls, Terminated) != []
    ensures Leaves(s, Reap(s), {Items(s.ls, Terminated)[0].task})
  {
    hide Leaves, Detach, Items;
    var t := Items(s.ls, Terminated)[0].task;
    var s1 := Detach(s, t);
    DetachLeaves(s, t, {t});
    var r := Reap(s);
    SameListsLeave(s, s, {t}) by { hide Reap; }
    if r != s {
      RankLeaves(s1, r, t, {t}) by { DetachFrame(s, t); }
      LeavesTwice(s, s1, r, {t});
    }
  }

  lemma ResumeLeaves(s: Kernel, t: Task)
    ensures Leaves(s, Resume(s, t), {t}) && Leaves(s, ResumeFromISR(s, t), {t})
  {
    hide Leaves, AttachReady, Detach, AddLast, IsSuspended;
    var s1 := AttachReady(Detach(s, t), t);
    SameListsLeave(s, s, {t}) by { hide Resume, ResumeFromISR; }
    ReattachedLeaves(s, t, {t});
    FlagsLeave(s, s1, YieldIf(s1, Priority(s, t) >= Priority(s, s.current)), {t});
    HeldLeaves(s, t, {t});
  }

  lemma HeldLeaves(s: Kernel, t: Task, moved: set<Task>)
    requires t in moved
    ensures Leaves(s, s.(ls := AddLast(s.ls, PendingReady, EventItem(t))), moved)
  {
    AddLastMoves(s.ls, PendingReady, EventItem(t), moved);
    hide ListsMove, AddLast;
  }

  lemma NewRankLeaves(s: Kernel, r: Kernel, t: Task, p: nat)
    requires r == s.(priority := r.priority, basePriority := s.basePriority[t := p])
    requires r.priority == s.priority || r.priority == s.priority[t := p]
    ensures Leaves(s, r, {t})
  {
    SameListsLeave(s, r, {t});
    hide ListsMove;
  }

  lemma SetPriorityLeaves(s: Kernel, t: Task, p: nat)
    ensures Leaves(s, SetPriority(s, t, p), {t})
  {
    hide Leaves, FollowPriority, Requeue, Clamp, SetPriority;
    var base := if t in s.basePriority then s.basePriority[t] else 0;
    var used := Priority(s, t);
    var s1 := s.(priority := if base == used then s.priority[t := Clamp(p)] else s.priority, basePriority := s.basePriority[t := Clamp(p)]);
    var s2 := FollowPriority(s1, t, Clamp(p));
    var s3 := Requeue(s2, t, used);
    SameListsLeave(s, s, {t});
    NewRankLeaves(s, s1, t, Clamp(p));
    FollowPriorityLeaves(s1, t, Clamp(p), {t});
    RequeueLeaves(s2, t, used, {t});
    LeavesTwice(s, s1, s2, {t});
    LeavesTwice(s, s2, s3, {t});
    FlagsLeave(s, s3, Yield(s3), {t});
    SetPriorityEnds(s, t, p);
  }

  lemma SetPriorityEnds(s: Kernel, t: Task, p: nat)
    ensures var base := if t in s.basePriority then s.basePriority[t] else 0;
            var used := Priority(s, t);
            var s1 := s.(priority := if base == used then s.priority[t := Clamp(p)] else s.priority,
                         basePriority := s.basePriority[t := Clamp(p)]);
            var s3 := Requeue(FollowPriority(s1, t, Clamp(p)), t, used);
            SetPriority(s, t, p) == s || SetPriority(s, t, p) == s3 || SetPriority(s, t, p) == Yield(s3)
  {
    hide FollowPriority, Requeue, Clamp;
  }

  lemma InheritLeaves(s: Kernel, t: Task)
    ensures Leaves(s, Inherit(s, t), {t})
  {
    hide Leaves, FollowPriority, Requeue;
    var p := Priority(s, s.current);
    var s1 := FollowPriority(s, t, p);
    var s2 := s1.(priority := s.priority[t := p]);
    SameListsLeave(s, s, {t}) by { hide Inherit; }
    FollowPriorityLeaves(s, t, p, {t});
    RankLeaves(s1, s2, t, {t}) by { FollowFrame(s, t, p); }
    RequeueLeaves(s2, t, Priority(s, t), {t});
    LeavesTwice(s, s1, s2, {t});
    LeavesTwice(s, s2, Requeue(s2, t, Priority(s, t)), {t});
  }

  lemma FollowFrame(s: Kernel, t: Task, p: nat)
    ensures FollowPriority(s, t, p).priority == s.priority && FollowPriority(s, t, p).basePriority == s.basePriority
  {
  }

  lemma DisinheritLeaves(s: Kernel)
    ensures Leaves(s, Disinherit(s), {s.current})
  {
    hide Leaves, FollowPriority, Detach, AttachReady;
    var t := s.current;
    var base := if t in s.basePriority then s.basePriority[t] else 0;
    var s1 := Detach(s, t);
    var s2 := s1.(priority := s.priority[t := base]);
    var s3 := FollowPriority(s2, t, base);
    SameListsLeave(s, s, {t}) by { hide Disinherit; }
    DetachLeaves(s, t, {t});
    RankLeaves(s1, s2, t, {t}) by { DetachFrame(s, t); }
    FollowPriorityLeaves(s2, t, base, {t});
    AttachLeaves(s3, t, Suspended, {t});
    LeavesTwice(s, s1, s2, {t});
    LeavesTwice(s, s2, s3, {t});
    LeavesTwice(s, s3, AttachReady(s3, t), {t});
  }

  lemma PlaceLeaves(s: Kernel, e: nat, v: nat, ticks: nat)
    ensures Leaves(s, PlaceOnEvent(s, e, ticks), {s.current}) && Leaves(s, PlaceOnUnordered(s, e, v, ticks), {s.current})
  {
    hide ListsMove, Block, AddSorted, AddLast, SetValue;
    var t := s.current;
    var s1 := s.(ls := AddSorted(s.ls, Event(e), EventItem(t)));
    AddSortedMoves(s.ls, Event(e), EventItem(t), {t});
    ListsLeave(s, s1, {t});
    BlockLeaves(s1, ticks, {t});
    LeavesTwice(s, s1, Block(s1, ticks), {t});
    var ls := SetValue(s.ls, EventItem(t), v + VALUE_IN_USE);
    var s2 := s.(ls := AddLast(ls, Event(e), EventItem(t)));
    SetValueMoves(s.ls, EventItem(t), v + VALUE_IN_USE, {t});
    AddLastMoves(ls, Event(e), EventItem(t), {t});
    ListsMoveTwice(s.ls, ls, s2.ls, {t});
    ListsLeave(s, s2, {t});
    BlockLeaves(s2, ticks, {t});
    LeavesTwice(s, s2, Block(s2, ticks), {t});
  }

  lemma RemoveFromEventLeaves(s: Kernel, e: nat)
    requires Items(s.ls, Event(e)) != []
    ensures Leaves(s, RemoveFromEvent(s, e), {Items(s.ls, Event(e))[0].task})
  {
    hide Leaves, MakeReady, AddLast, Without, Items;
    var t := Items(s.ls, Event(e))[0].task;
    MakeReadyLeaves(s, t, {t});
    var s1 := DetachEvent(s, t);
    var s2 := s1.(ls := AddLast(s1.ls, PendingReady, EventItem(t)));
    DetachLeaves(s, t, {t});
    HeldLeaves(s1, t, {t});
    LeavesTwice(s, s1, s2, {t});
    FlagsLeave(s, if s.suspendDepth == 0 then MakeReady(s, t) else s2, RemoveFromEvent(s, e), {t});
  }

  lemma RemoveFromUnorderedLeaves(s: Kernel, t: Task, v: nat)
    ensures Leaves(s, RemoveFromUnordered(s, t, v), {t})
  {
    hide Leaves, MakeReady, SetValue;
    var s1 := s.(ls := SetValue(s.ls, EventItem(t), v + VALUE_IN_USE));
    ValueLeaves(s, t, v + VALUE_IN_USE, {t});
    MakeReadyLeaves(s1, t, {t});
    LeavesTwice(s, s1, MakeReady(s1, t), {t});
    FlagsLeave(s, MakeReady(s1, t), RemoveFromUnordered(s, t, v), {t});
  }

  lemma ValueLeaves(s: Kernel, t: Task, v: nat, moved: set<Task>)
    requires t in moved
    ensures Leaves(s, s.(ls := SetValue(s.ls, EventItem(t), v)), moved)
  {
    SetValueMoves(s.ls, EventItem(t), v, moved);
    hide ListsMove;
  }

  // ----- ticks

  /** The tasks whose deadline is one of the next `n` ticks. */
  function DueTasks(s: Kernel, n: nat): set<Task> {
    set t | t in s.priority && Timed(s, t) && Deadline(s, t) <= Now(s) + n
  }

  lemma {:induction false} WakeLeaves(s: Kernel, n: nat, moved: set<Task>)
    requires Good(s, {}, 0) && n <= |Items(s.ls, s.delayed)|
    requires forall i :: 0 <= i < n ==> Items(s.ls, s.delayed)[i].task in moved
    ensures Leaves(s, Wake(s, n), moved)
    decreases n
  {
    hide Good, Leaves, MakeReady, Items;
    SameListsLeave(s, s, moved) by { hide Wake; }
    if n != 0 {
      var t := Items(s.ls, s.delayed)[0].task;
      var s1 := MakeReady(s, t);
      MakeHeadGood(s);
      MakeReadyLeaves(s, t, moved);
      WakeLeaves(s1, n - 1, moved);
      LeavesTwice(s, s1, Wake(s1, n - 1), moved);
    }
  }

  /** What the scan finds are tasks whose deadline is the tick that is being processed. */
  lemma ScannedIsDue(s: Kernel, i: nat)
    requires Good(s, {}, 1) && i < Due(Advanced(s))
    ensures Items(Advanced(s).ls, Advanced(s).delayed)[i].task in DueTasks(s, 1)
  {
    hide Good, Items, Due, Advanced, Deadline, Timed;
    AdvancedGood(s);
    var s1 := Advanced(s);
    var x := Items(s1.ls, s1.delayed)[i];
    DueExactly(s1, i);
    ListFacts(s1, s1.delayed, 0, x);
    DeadlineNow(s1, x.task);
    TimedAgain(s, s1, x.task);
    AdvancedDeadline(s, x.task);
  }

  lemma TimedAgain(s: Kernel, s1: Kernel, t: Task)
    requires s1.ls == s.ls && {s1.delayed, s1.overflow} == {s.delayed, s.overflow}
    ensures Timed(s, t) <==> Timed(s1, t)
  {
    assert s.delayed in {s1.delayed, s1.overflow} && s.overflow in {s1.delayed, s1.overflow};
    assert s1.delayed in {s.delayed, s.overflow} && s1.overflow in {s.delayed, s.overflow};
  }

  lemma DeadlineNow(s: Kernel, t: Task)
    requires StateIn(s, t, s.delayed) && Key(s.ls.value, StateItem(t)) == s.tick
    ensures Timed(s, t) && Deadline(s, t) == Now(s)
  {
  }

  lemma ProcessTickLeaves(s: Kernel, moved: set<Task>)
    requires Good(s, {}, 1) && DueTasks(s, 1) <= moved
    ensures Leaves(s, ProcessTick(s), moved)
  {
    hide Good, Leaves, Items, Due, Advanced, Wake, DueTasks;
    AdvancedGood(s);
    var s1 := Advanced(s);
    SameListsLeave(s, s1, moved);
    forall i | 0 <= i < Due(s1) ensures Items(s1.ls, s1.delayed)[i].task in moved {
      ScannedIsDue(s, i);
    }
    if s1.tick >= s1.unblockTime {
      var n := Due(s1);
      WakeLeaves(s1, n, moved);
      ExpireIs(s1);
      FlagsLeave(s1, Wake(s1, n), Expire(s1), moved);
      LeavesTwice(s, s1, Expire(s1), moved);
    }
  }

  lemma ExpireIs(s: Kernel)
    ensures Expire(s) == ResetUnblockTime(Wake(s, Due(s)))
  {
  }

  lemma TickLeaves(s: Kernel)
    requires Inv(s)
    ensures Leaves(s, TickInterrupt(s), if s.suspendDepth == 0 then DueTasks(s, 1) else {})
  {
    hide Good, Leaves, ProcessTick, TickSwitches, DueTasks;
    SameListsLeave(s, s, {}) by { hide TickInterrupt; }
    if s.suspendDepth == 0 {
      ProcessTickLeaves(s, DueTasks(s, 1));
      FlagsLeave(s, ProcessTick(s), TickInterrupt(s), DueTasks(s, 1));
    } else {
      FlagsLeave(s, s, TickInterrupt(s), {});
    }
  }

  // ----- the end of a suspension

  lemma HeadIsHeldThere(s: Kernel)
    requires Inv(s) && Items(s.ls, PendingReady) != []
    ensures Pending(s, Items(s.ls, PendingReady)[0].task)
  {
    hide Inv, Good, Items;
    InvIsGood(s);
    HeadFacts(s, PendingReady, 1);
  }

  lemma ReleaseHeadIs(s: Kernel)
    ensures if Items(s.ls, PendingReady) == [] then ReleaseHead(s) == s
            else var m := MakeReady(s, Items(s.ls, PendingReady)[0].task);
                 ReleaseHead(s) == m.(yieldPending := ReleaseHead(s).yieldPending)
  {
    hide MakeReady, Items;
  }

  lemma ReleaseHeadLeaves(s: Kernel, moved: set<Task>)
    requires Inv(s) && forall t: Task :: Pending(s, t) ==> t in moved
    ensures Leaves(s, ReleaseHead(s), moved)
  {
    hide Inv, Leaves, MakeReady, Items, ReleaseHead, Pending;
    ReleaseHeadIs(s);
    if Items(s.ls, PendingReady) == [] {
      SameListsLeave(s, s, moved);
    } else {
      var t := Items(s.ls, PendingReady)[0].task;
      HeadIsHeldThere(s);
      MakeReadyLeaves(s, t, moved);
      FlagsLeave(s, MakeReady(s, t), ReleaseHead(s), moved);
    }
  }

  lemma {:induction false} ReleasePendingLeaves(s: Kernel, n: nat, moved: set<Task>)
    requires Inv(s) && forall t: Task :: Pending(s, t) ==> t in moved
    ensures Leaves(s, ReleasePending(s, n), moved)
    decreases n
  {
    hide Inv, Leaves, ReleaseHead, Pending;
    SameListsLeave(s, s, moved) by { hide ReleasePending; }
    if n != 0 {
      var s1 := ReleaseHead(s);
      ReleaseHeadInv(s);
      ReleaseHeadLeaves(s, moved);
      FewerPending(s);
      ReleasePendingLeaves(s1, n - 1, moved);
      LeavesTwice(s, s1, ReleasePending(s1, n - 1), moved);
    }
  }

  lemma FewerPending(s: Kernel)
    requires Inv(s)
    ensures forall t: Task :: Pending(ReleaseHead(s), t) ==> Pending(s, t)
  {
    forall t: Task | Pending(ReleaseHead(s), t) ensures Pending(s, t) {
      if !Pending(s, t) {
        ReleaseHeadKeeps(s, t);
      }
    }
  }

  /** Nobody begins to wait for a time when a tick is processed. */
  lemma NobodyTimed(s: Kernel, t: Task)
    requires Good(s, {}, 1) && Timed(ProcessTick(s), t)
    ensures Timed(s, t)
  {
    hide Good, Items, Advanced, ProcessTick, Due;
    AdvancedGood(s);
    ProcessTickGood(s);
    var s1 := Advanced(s);
    DelayedLists(s1);
    TimedAgain(s, s1, t);
  }

  lemma DelayedLists(s: Kernel)
    requires Good(s, {}, 0)
    ensures !s.delayed.Ready? && !s.overflow.Ready?
  {
  }

  lemma {:induction false} CatchUpLeaves(s: Kernel, n: nat, moved: set<Task>)
    requires Inv(s) && s.started && n <= s.pendedTicks && DueTasks(s, n) <= moved
    ensures Leaves(s, CatchUp(s, n), moved)
    decreases n
  {
    hide Inv, Leaves, ProcessTick, TickSwitches, DueTasks;
    SameListsLeave(s, s, moved) by { hide CatchUp; }
    if n != 0 {
      var s1 := CatchUpOne(s);
      CatchUpOneInv(s);
      InvIsGood(s);
      LaterDue(s, n);
      ProcessTickLeaves(s, moved);
      FlagsLeave(s, ProcessTick(s), s1, moved);
      CatchUpLeaves(s1, n - 1, moved);
      LeavesTwice(s, s1, CatchUp(s1, n - 1), moved);
    }
  }

  lemma LaterDue(s: Kernel, n: nat)
    requires Inv(s) && s.started && 0 < n <= s.pendedTicks
    ensures DueTasks(s, 1) <= DueTasks(s, n) && DueTasks(CatchUpOne(s), n - 1) <= DueTasks(s, n)
  {
    hide Inv, Good, ProcessTick, TickSwitches, Timed, Deadline, Now, IsReady;
    InvIsGood(s);
    ProcessTickFrame(s);
    CatchUpOneInv(s);
    var s1 := CatchUpOne(s);
    forall t | t in DueTasks(s1, n - 1) ensures t in DueTasks(s, n) {
      SameTimes(ProcessTick(s), s1, t);
      NobodyTimed(s, t);
      CatchUpOneMeetsDeadline(s, t);
      NotBoth(s1, t);
    }
  }

  lemma NotBoth(s: Kernel, t: Task)
    requires Inv(s) && Timed(s, t)
    ensures !IsReady(s, t)
  {
    InvIsGood(s);
    hide Good;
    TimedFacts(s, t);
  }

  function HeldTasks(s: Kernel): set<Task> {
    set t | t in s.priority && Pending(s, t)
  }

  lemma HeldAreTasks(s: Kernel, t: Task)
    requires Inv(s) && Pending(s, t)
    ensures t in s.priority
  {
    InvIsGood(s);
    hide Inv, Good;
    WaiterFacts(s, t);
  }

  lemma ReleasedLeaves(s: Kernel)
    requires Inv(s)
    ensures Leaves(s, ReleasePending(s, |Items(s.ls, PendingReady)|), HeldTasks(s) + DueTasks(s, s.pendedTicks))
  {
    var moved := HeldTasks(s) + DueTasks(s, s.pendedTicks);
    hide Inv, Leaves, ReleasePending, Items, Timed, Deadline, Now, Pending;
    forall t: Task | Pending(s, t) ensures t in moved {
      HeldAreTasks(s, t);
    }
    ReleasePendingLeaves(s, |Items(s.ls, PendingReady)|, moved);
  }

  lemma StillDue(s: Kernel, n: nat)
    requires Inv(s)
    ensures var s2 := ReleasePending(s, n); DueTasks(s2, s2.pendedTicks) <= HeldTasks(s) + DueTasks(s, s.pendedTicks)
  {
    hide Inv, ReleasePending;
    var s2 := ReleasePending(s, n);
    ReleasePendingInv(s, n);
    ReleasePendingRanks(s, n);
    forall t | t in DueTasks(s2, s2.pendedTicks) ensures t in HeldTasks(s) + DueTasks(s, s.pendedTicks) {
      if !Pending(s, t) {
        ReleasePendingKeeps(s, n, t);
      }
    }
  }

  lemma {:induction false} ReleasePendingRanks(s: Kernel, n: nat)
    ensures ReleasePending(s, n).priority == s.priority
    decreases n
  {
    hide MakeReady, Items;
    if n != 0 {
      if Items(s.ls, PendingReady) != [] {
        MakeReadyFrame(s, Items(s.ls, PendingReady)[0].task);
      }
      ReleasePendingRanks(ReleaseHead(s), n - 1);
    }
  }

  lemma ResumedLeaves(s: Kernel)
    requires Inv(s) && s.started
    ensures var s2 := ReleasePending(s, |Items(s.ls, PendingReady)|);
            Leaves(s, CatchUp(s2, s2.pendedTicks), HeldTasks(s) + DueTasks(s, s.pendedTicks))
  {
    hide Inv, Leaves, ReleasePending, CatchUp, Items, HeldTasks, DueTasks;
    var moved := HeldTasks(s) + DueTasks(s, s.pendedTicks);
    var n := |Items(s.ls, PendingReady)|;
    var s2 := ReleasePending(s, n);
    ReleasedLeaves(s);
    ReleasePendingInv(s, n);
    StillDue(s, n);
    CatchUpLeaves(s2, s2.pendedTicks, moved);
    LeavesTwice(s, s2, CatchUp(s2, s2.pendedTicks), moved);
  }

  lemma SameDue(s: Kernel, r: Kernel)
    requires r == s.(suspendDepth := r.suspendDepth)
    ensures HeldTasks(r) + DueTasks(r, r.pendedTicks) == HeldTasks(s) + DueTasks(s, s.pendedTicks)
  {
  }

  lemma ResumeAllLeaves(s: Kernel)
    requires Inv(s) && s.started
    ensures Leaves(s, ResumeAll(s), if s.suspendDepth == 1 then HeldTasks(s) + DueTasks(s, s.pendedTicks) else {})
  {
    hide Inv, Leaves, ReleasePending, CatchUp, Items, HeldTasks, DueTasks;
    if s.suspendDepth == 1 {
      var moved := HeldTasks(s) + DueTasks(s, s.pendedTicks);
      var s1 := s.(suspendDepth := 0);
      InvFlags(s, s1);
      SameDue(s, s1);
      SameListsLeave(s, s1, moved);
      ResumedLeaves(s1);
      var s2 := ReleasePending(s1, |Items(s1.ls, PendingReady)|);
      var s3 := CatchUp(s2, s2.pendedTicks);
      LeavesTwice(s, s1, s3, moved);
      FlagsLeave(s, s3, ResumeAll(s), moved);
    } else {
      SameListsLeave(s, s, {});
      FlagsLeave(s, s, ResumeAll(s), {});
    }
  }

  /** The tasks a step is about. */
  function Touched(s: Kernel, step: Step): set<Task> {
    match step
    case DoCreate(t, _) => {t}
    case DoStart(t) => {t}
    case DoDelete(t) => {t}
    case DoReap => if Items(s.ls, Terminated) == [] then {} else {Items(s.ls, Terminated)[0].task}
    case DoSuspend(t) => {t}
    case DoResume(t) => {t}
    case DoResumeFromISR(t) => {t}
    case DoSetPriority(t, _) => {t}
    case DoInherit(t) => {t}
    case DoDisinherit => {s.current}
    case DoDelay(_) => {s.current}
    case DoPlaceOnEvent(_, _) => {s.current}
    case DoPlaceOnUnordered(_, _, _) => {s.current}
    case DoRemoveFromEvent(e) => if Items(s.ls, Event(e)) == [] then {} else {Items(s.ls, Event(e))[0].task}
    case DoRemoveFromUnordered(t, _) => {t}
    case DoResetEventValue => {s.current}
    case DoTick => if s.suspendDepth == 0 then DueTasks(s, 1) else {}
    case DoResumeAll => if s.suspendDepth == 1 then HeldTasks(s) + DueTasks(s, s.pendedTicks) else {}
    case _ => {}
  }

  /** Every step but a switch: whoever it is not about keeps its lists, its place among the others in each
      of them, its turn, its item values and its priorities. A tick is about the tasks whose deadline it
      is; the end of the last suspension is about those held and those whose deadline has passed. */
  lemma StepLeaves(s: Kernel, step: Step)
    requires Inv(s) && Enabled(s, step) && !step.DoSwitchContext?
    ensures Leaves(s, Next(s, step), Touched(s, step))
  {
    hide Leaves, Inv, DueTasks, HeldTasks, Items, Enabled, Next;
    EnabledFacts(s, step);
    NextIs(s, step);
    if step.DoTick? {
      TickLeaves(s);
    } else if step.DoResumeAll? {
      ResumeAllLeaves(s);
    } else if step.DoCreate? || step.DoStart? || step.DoDelete? || step.DoReap? || step.DoSuspend? || step.DoResume?
              || step.DoResumeFromISR? || step.DoSetPriority? || step.DoInherit? || step.DoDisinherit? {
      TaskStepLeaves(s, step);
    } else {
      OtherStepLeaves(s, step);
    }
  }

  lemma NextIs(s: Kernel, step: Step)
    ensures step.DoTick? ==> Next(s, step) == TickInterrupt(s)
    ensures step.DoResumeAll? ==> Next(s, step) == ResumeAll(s)
  {
    hide TickInterrupt, ResumeAll;
  }

  lemma EnabledFacts(s: Kernel, step: Step)
    requires Enabled(s, step)
    ensures step.DoReap? ==> Items(s.ls, Terminated) != []
    ensures step.DoRemoveFromEvent? ==> Items(s.ls, Event(step.e)) != []
    ensures step.DoResumeAll? ==> s.started
  {
  }

  lemma TaskStepLeaves(s: Kernel, step: Step)
    requires step.DoCreate? || step.DoStart? || step.DoDelete? || step.DoReap? || step.DoSuspend? || step.DoResume?
             || step.DoResumeFromISR? || step.DoSetPriority? || step.DoInherit? || step.DoDisinherit?
    requires step.DoReap? ==> Items(s.ls, Terminated) != []
    ensures Leaves(s, Next(s, step), Touched(s, step))
  {
    hide Leaves, Items, Create, Start, Delete, Reap, Suspend, Resume, ResumeFromISR, SetPriority, Inherit, Disinherit;
    match step
    case DoCreate(t, p) => CreateLeaves(s, t, p);
    case DoStart(t) => CreateLeaves(s, t, 0);
    case DoDelete(t) => RetireLeaves(s, t);
    case DoReap => ReapLeaves(s);
    case DoSuspend(t) => RetireLeaves(s, t);
    case DoResume(t) => ResumeLeaves(s, t);
    case DoResumeFromISR(t) => ResumeLeaves(s, t);
    case DoSetPriority(t, p) => SetPriorityLeaves(s, t, p);
    case DoInherit(t) => InheritLeaves(s, t);
    case DoDisinherit => DisinheritLeaves(s);
  }

  lemma OtherStepLeaves(s: Kernel, step: Step)
    requires !(step.DoCreate? || step.DoStart? || step.DoDelete? || step.DoReap? || step.DoSuspend? || step.DoResume?
               || step.DoResumeFromISR? || step.DoSetPriority? || step.DoInherit? || step.DoDisinherit?)
    requires !step.DoTick? && !step.DoResumeAll? && !step.DoSwitchContext?
    requires Enabled(s, step) && (step.DoRemoveFromEvent? ==> Items(s.ls, Event(step.e)) != [])
    ensures Leaves(s, Next(s, step), Touched(s, step))
  {
    hide Leaves, Items, DelayFor, PlaceOnEvent, PlaceOnUnordered, RemoveFromEvent, RemoveFromUnordered, SetValue, AddEmpty,
      EndCreate, ResetUnblockTime;
    match step
    case DoDelay(ticks) => BlockLeaves(s, ticks, {s.current});
    case DoPlaceOnEvent(e, ticks) => PlaceLeaves(s, e, 0, ticks);
    case DoPlaceOnUnordered(e, v, ticks) => PlaceLeaves(s, e, v, ticks);
    case DoRemoveFromEvent(e) => RemoveFromEventLeaves(s, e);
    case DoRemoveFromUnordered(t, v) => RemoveFromUnorderedLeaves(s, t, v);
    case DoResetEventValue => ResetEventValueLeaves(s);
    case DoCreateEventList(e) => NewListLeaves(s, e);
    case _ => FlagStepLeaves(s, step);
  }

  lemma ResetEventValueLeaves(s: Kernel)
    ensures Leaves(s, ResetEventValue(s), {s.current})
  {
    hide Leaves, SetValue;
    ValueLeaves(s, s.current, if Priority(s, s.current) <= PRIORITIES then PRIORITIES - Priority(s, s.current) else 0, {s.current});
  }

  lemma NewListLeaves(s: Kernel, e: nat)
    requires Event(e) !in s.ls.contents
    ensures Leaves(s, s.(ls := AddEmpty(s.ls, Event(e))), {})
  {
    hide ListsMove;
    NothingMoves(s.ls, AddEmpty(s.ls, Event(e)), {});
  }

  lemma FlagStepLeaves(s: Kernel, step: Step)
    requires step.DoEndCreate? || step.DoResetUnblockTime? || step.DoMissedYield? || step.DoYield? || step.DoSuspendAll?
    ensures Leaves(s, Next(s, step), {})
  {
    hide Leaves, Items, Key, EndCreate, ResetUnblockTime;
    EndingLists(s);
    SameListsLeave(s, Next(s, step), {});
  }

  lemma EndingLists(s: Kernel)
    ensures EndCreate(s).ls == ResetUnblockTime(s).ls == s.ls
    ensures EndCreate(s).priority == ResetUnblockTime(s).priority == s.priority
    ensures EndCreate(s).basePriority == ResetUnblockTime(s).basePriority == s.basePriority
  {
    hide Items, Key;
  }

  // ----- runs

  /** The cursors of the event lists rest on the end marker. */
  ghost predicate AtRest(s: Kernel) {
    forall p: ListId :: IsEventList(p) ==> List(s.ls, p).index == 0
  }

  lemma StepAtRest(s: Kernel, step: Step)
    requires Inv(s) && Enabled(s, step) && AtRest(s)
    ensures AtRest(Next(s, step))
  {
    hide Inv, Enabled, Next, Upcoming, Others;
    if step.DoSwitchContext? {
      SwitchAtRest(s);
    } else {
      StepLeaves(s, step);
      forall p: ListId | IsEventList(p) ensures List(Next(s, step).ls, p).index == 0 {
        assert ListMoves(List(s.ls, p), List(Next(s, step).ls, p), Touched(s, step));
      }
    }
  }

  lemma SwitchAtRest(s: Kernel)
    ensures forall p: ListId :: !p.Ready? ==> List(SwitchContext(s).ls, p) == List(s.ls, p)
    ensures Next(s, DoSwitchContext) == SwitchContext(s)
  {
    hide Highest, Advance;
  }

  /** Over every run an item put last in an event list is the last of the list. */
  lemma {:induction false} CursorsRest(b: Task, p: nat, steps: seq<Step>)
    requires Legal(Boot(b, p), steps)
    ensures AtRest(After(Boot(b, p), steps))
    decreases |steps|
  {
    hide Inv, Enabled, Next, AtRest, Boot;
    if steps == [] {
      BootAtRest(b, p);
    } else {
      var init := steps[..|steps| - 1];
      CursorsRest(b, p, init);
      ReachableInv(b, p, init);
      StepAtRest(After(Boot(b, p), init), steps[|steps| - 1]);
    }
  }

  lemma BootAtRest(b: Task, p: nat)
    ensures AtRest(Boot(b, p))
  {
    ClampBounded(p);
    hide Clamp, InsertEnd;
  }
}
