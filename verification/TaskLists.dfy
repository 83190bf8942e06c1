/** What the linked structures of the scheduler stand for, and the lists they start with. */
module TaskLists {
  import opened ListValues
  import opened ItemLists
  import opened Kernels
  import ListHeaps

  type ListHeap = ListHeaps.ListHeap

  /** The lists that exist from the start: `prvInitialiseTaskLists` makes them. */
  ghost predicate HasLists(lists: map<ListId, ListHeaps.List>) {
    && (forall p: nat {:trigger Ready(p)} :: p < PRIORITIES ==> Ready(p) in lists)
    && DelayedA in lists && DelayedB in lists && Suspended in lists && Terminated in lists && PendingReady in lists
  }

  /** The two items of a task are allocated together, in its control block. */
  ghost predicate Paired(nodes: map<Item, ListHeaps.ListItem>) {
    forall x :: x in nodes ==> StateItem(x.task) in nodes && EventItem(x.task) in nodes
  }

  /** `a` and `b` are the same lists; the items `b` has given no value have the value zero in `a`. */
  ghost predicate Same(a: Lists, b: Lists) {
    && a.contents == b.contents && a.container == b.container
    && (forall x :: x in b.value ==> x in a.value)
    && forall x {:trigger Key(a.value, x)} {:trigger Key(b.value, x)} :: Key(a.value, x) == Key(b.value, x)
  }

  lemma SameAddLast(a: Lists, b: Lists, p: ListId, x: Item)
    requires Same(a, b)
    ensures Same(AddLast(a, p, x), AddLast(b, p, x))
  {
    hide InsertEnd, Key;
  }

  lemma {:induction false} SameKeys(a: map<Item, nat>, b: map<Item, nat>, items: seq<Item>)
    requires forall x {:trigger Key(a, x)} {:trigger Key(b, x)} :: Key(a, x) == Key(b, x)
    ensures Keys(a, items) == Keys(b, items)
  {
    hide Key;
    assert forall i :: 0 <= i < |items| ==> Keys(a, items)[i] == Keys(b, items)[i];
  }

  lemma SameAddSorted(a: Lists, b: Lists, p: ListId, x: Item)
    requires Same(a, b)
    ensures Same(AddSorted(a, p, x), AddSorted(b, p, x))
  {
    hide InsertBefore, FirstGreater, Key, Keys;
    SameKeys(a.value, b.value, Items(a, p));
  }

  lemma SameWithout(a: Lists, b: Lists, x: Item)
    requires Same(a, b)
    ensures Same(Without(a, x), Without(b, x))
  {
    hide Remove, IndexOf, Key;
  }

  lemma SameSetValue(a: Lists, b: Lists, x: Item, v: nat)
    requires Same(a, b)
    ensures Same(SetValue(a, x, v), SetValue(b, x, v))
  {
    forall y ensures Key(SetValue(a, x, v).value, y) == Key(SetValue(b, x, v).value, y) {
      assert Key(a.value, y) == Key(b.value, y);
    }
  }

  lemma SameAdvance(a: Lists, b: Lists, p: ListId)
    requires Same(a, b)
    ensures Same(AdvanceList(a, p), AdvanceList(b, p))
  {
    hide Advance, Key;
  }

  /** A new item, which has been given no value yet. */
  lemma SameNewItem(a: Lists, b: Lists, x: Item)
    requires Same(a, b) && x !in a.value
    ensures Same(SetValue(a, x, 0), b)
  {
    assert Key(b.value, x) == Key(a.value, x) == 0;
  }

  lemma SameAddEmpty(a: Lists, b: Lists, p: ListId)
    requires Same(a, b)
    ensures Same(AddEmpty(a, p), AddEmpty(b, p))
  {
    hide Key;
  }

  lemma SameContainers(a: Lists, b: Lists)
    requires Same(a, b)
    ensures a.container == b.container && a.contents == b.contents
  {
    hide Key;
  }

  lemma SameAsItself(a: Lists)
    ensures Same(a, a)
  {
  }

  lemma SameItems(a: Lists, b: Lists)
    requires Same(a, b)
    ensures forall p :: Items(a, p) == Items(b, p) && List(a, p) == List(b, p)
  {
    hide Key;
  }

  // ----- the lists that are there from the start

  /** The first `n` ready lists. */
  function ReadyLists(n: nat): map<ListId, ItemList> {
    map p: nat | p < n :: Ready(p) := Empty()
  }

  function OtherLists(ls: Lists): Lists {
    AddEmpty(AddEmpty(AddEmpty(AddEmpty(AddEmpty(ls, DelayedA), DelayedB), Suspended), Terminated), PendingReady)
  }

  lemma NoReadyLists()
    ensures ReadyLists(0) == map[]
  {
  }

  lemma ReadyListsMore(n: nat)
    ensures AddEmpty(Lists(ReadyLists(n), map[], map[]), Ready(n)) == Lists(ReadyLists(n + 1), map[], map[])
  {
    assert ReadyLists(n)[Ready(n) := Empty()] == ReadyLists(n + 1);
  }

  lemma FiveMore<K, V>(m: map<K, V>, a: K, b: K, c: K, d: K, e: K, v: V)
    ensures m[a := v][b := v][c := v][d := v][e := v] == m + map[a := v, b := v, c := v, d := v, e := v]
  {
  }

  lemma AllLists()
    ensures OtherLists(Lists(ReadyLists(PRIORITIES), map[], map[])) == EmptyLists()
  {
    FiveMore(ReadyLists(PRIORITIES), DelayedA, DelayedB, Suspended, Terminated, PendingReady, Empty());
    AllReadyLists();
    hide ReadyLists;
  }

  lemma AllReadyLists()
    ensures ReadyLists(PRIORITIES) == (map p: nat | p < PRIORITIES :: Ready(p) := Empty())
  {
  }

  lemma AllListsExist(heap: ListHeap)
    requires heap.Valid() && heap.Value() == EmptyLists()
    ensures HasLists(heap.lists)
  {
    hide ListHeap.Valid, ListHeap.Value;
    heap.Known();
    assert EmptyLists().contents.Keys == heap.lists.Keys;
  }

  lemma StandingLists(lists: map<ListId, ListHeaps.List>)
    requires HasLists(lists)
    ensures DelayedA in lists && DelayedB in lists
  {
  }

  /** The ready lists, by priority. */
  method MakeReadyLists() returns (heap: ListHeap)
    ensures fresh(heap) && fresh(heap.repr) && heap.Valid() && heap !in heap.repr && heap.nodes == map[]
    ensures heap.Value() == Lists(ReadyLists(PRIORITIES), map[], map[]) && forall q :: q in heap.lists ==> q.Ready?
  {
    hide ListHeap.Valid, ListHeap.Value, ReadyLists, AddEmpty;
    heap := new ListHeaps.ListHeap();
    NoReadyLists();
    var p: nat := 0;
    while p < PRIORITIES
      invariant p <= PRIORITIES && fresh(heap) && fresh(heap.repr) && heap.Valid() && heap !in heap.repr && heap.nodes == map[]
      invariant heap.Value() == Lists(ReadyLists(p), map[], map[])
      invariant forall q :: q in heap.lists ==> q.Ready? && q.priority < p
    {
      heap.NewList(Ready(p));
      ReadyListsMore(p);
      p := p + 1;
    }
  }

  /** The lists of blocked and of deleted tasks. */
  method MakeOtherLists(heap: ListHeap)
    requires heap.Valid() && heap !in heap.repr && forall q :: q in heap.lists ==> q.Ready?
    modifies heap
    ensures heap.Valid() && fresh(heap.repr - old(heap.repr)) && heap.nodes == old(heap.nodes)
    ensures heap.Value() == OtherLists(old(heap.Value()))
  {
    hide ListHeap.Valid, ListHeap.Value, AddEmpty;
    heap.NewList(DelayedA);
    heap.NewList(DelayedB);
    MakeEventLists(heap);
  }

  method MakeEventLists(heap: ListHeap)
    requires heap.Valid() && heap !in heap.repr && Suspended !in heap.lists && Terminated !in heap.lists && PendingReady !in heap.lists
    modifies heap
    ensures heap.Valid() && fresh(heap.repr - old(heap.repr)) && heap.nodes == old(heap.nodes)
    ensures heap.Value() == AddEmpty(AddEmpty(AddEmpty(old(heap.Value()), Suspended), Terminated), PendingReady)
  {
    hide ListHeap.Valid, ListHeap.Value, AddEmpty;
    heap.NewList(Suspended);
    heap.NewList(Terminated);
    heap.NewList(PendingReady);
  }

  /** `prvInitialiseTaskLists` */
  method MakeLists() returns (heap: ListHeap)
    ensures fresh(heap) && fresh(heap.repr) && heap.Valid() && heap !in heap.repr
    ensures heap.Value() == EmptyLists() && heap.nodes == map[] && HasLists(heap.lists)
  {
    hide ListHeap.Valid, ListHeap.Value, EmptyLists, ReadyLists, OtherLists, HasLists;
    heap := MakeReadyLists();
    MakeOtherLists(heap);
    AllLists();
    AllListsExist(heap);
  }
}
