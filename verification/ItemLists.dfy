/** All the lists of the scheduler at once: their contents, the container recorded in each item
    and each item's value. Every operation keeps the two views of membership equal. */
module ItemLists {
  import opened ListValues

  type Task = nat

  /** The two list items of a task control block: `xGenericListItem` and `xEventListItem`. */
  datatype Item = StateItem(task: Task) | EventItem(task: Task)

  datatype ListId =
    | Ready(priority: nat)
    | DelayedA | DelayedB | Suspended | Terminated
    | PendingReady
    | Event(id: nat)

  type ItemList = l: ListValue<Item> | l.index <= |l.items| witness Empty()

  datatype Lists = Lists(
    contents: map<ListId, ItemList>,
    container: map<Item, ListId>,
    value: map<Item, nat>)

  /** Every list is well formed, and an item is in a list exactly when the list is its container. */
  ghost predicate Consistent(ls: Lists) {
    && (forall p :: p in ls.contents ==> Valid(ls.contents[p]))
    && (forall p, x :: p in ls.contents && x in ls.contents[p].items ==> In(ls, x, p))
    && (forall x :: x in ls.container ==> ls.container[x] in ls.contents && x in ls.contents[ls.container[x]].items)
  }

  predicate In(ls: Lists, x: Item, p: ListId) {
    x in ls.container && ls.container[x] == p
  }

  function List(ls: Lists, p: ListId): ItemList {
    if p in ls.contents then ls.contents[p] else Empty()
  }

  function Items(ls: Lists, p: ListId): seq<Item> {
    List(ls, p).items
  }

  function Key(value: map<Item, nat>, x: Item): nat {
    if x in value then value[x] else 0
  }

  function Keys(value: map<Item, nat>, items: seq<Item>): (r: seq<nat>)
    ensures |r| == |items|
    ensures forall i {:trigger r[i]} :: 0 <= i < |r| ==> r[i] == Key(value, items[i])
  {
    if items == [] then [] else [Key(value, items[0])] + Keys(value, items[1..])
  }

  lemma KeysInsert(value: map<Item, nat>, items: seq<Item>, k: nat, x: Item)
    requires k <= |items|
    ensures Keys(value, InsertAt(items, k, x)) == InsertAt(Keys(value, items), k, Key(value, x))
  {
  }

  lemma KeysRemove(value: map<Item, nat>, items: seq<Item>, k: nat)
    requires k < |items|
    ensures Keys(value, RemoveAt(items, k)) == RemoveAt(Keys(value, items), k)
  {
  }

  ghost predicate SortedList(ls: Lists, p: ListId) {
    Sorted(Keys(ls.value, Items(ls, p)))
  }

  function SetValue(ls: Lists, x: Item, v: nat): Lists {
    ls.(value := ls.value[x := v])
  }

  function AddEmpty(ls: Lists, p: ListId): Lists {
    ls.(contents := ls.contents[p := Empty()])
  }

  function AddLast(ls: Lists, p: ListId, x: Item): Lists {
    ls.(contents := ls.contents[p := InsertEnd(List(ls, p), x)], container := ls.container[x := p])
  }

  function AddSorted(ls: Lists, p: ListId, x: Item): Lists {
    var l := List(ls, p);
    var k := FirstGreater(Keys(ls.value, l.items), Key(ls.value, x));
    ls.(contents := ls.contents[p := InsertBefore(l, k, x)], container := ls.container[x := p])
  }

  /** Removal from whatever list the item is in. */
  function Without(ls: Lists, x: Item): Lists {
    if x in ls.container && x in Items(ls, ls.container[x]) then
      var p := ls.container[x];
      var l := List(ls, p);
      ls.(contents := ls.contents[p := Remove(l, IndexOf(l.items, x))], container := ls.container - {x})
    else
      ls
  }

  function AdvanceList(ls: Lists, p: ListId): Lists {
    if Items(ls, p) == [] then ls else ls.(contents := ls.contents[p := Advance(List(ls, p))])
  }

  lemma AddLastConsistent(ls: Lists, p: ListId, x: Item)
    requires Consistent(ls) && p in ls.contents && x !in ls.container
    ensures Consistent(AddLast(ls, p, x)) && Items(AddLast(ls, p, x), p) != []
    ensures |Items(AddLast(ls, p, x), p)| == |Items(ls, p)| + 1
  {
    hide InsertEnd, Valid;
    var l := ls.contents[p];
    assert x !in l.items;
    InsertEndValid(l, x);
    ListGrown(ls, p, InsertEnd(l, x), x);
    hide Consistent;
  }

  /** A list that gains one item which was in no list keeps the two views of membership equal. */
  lemma ListGrown(ls: Lists, p: ListId, l: ItemList, x: Item)
    requires Consistent(ls) && p in ls.contents && x !in ls.container
    requires Valid(l) && forall y :: y in l.items <==> y == x || y in ls.contents[p].items
    ensures Consistent(ls.(contents := ls.contents[p := l], container := ls.container[x := p]))
  {
    hide Valid;
  }

  lemma InsertEndValid(l: ListValue<Item>, x: Item)
    requires Valid(l) && x !in l.items
    ensures var r := InsertEnd(l, x);
            && Valid(r) && r.index <= |r.items| == |l.items| + 1
            && forall y :: y in r.items <==> y == x || y in l.items
  {
    hide Distinct, InsertAt;
    var k := if l.index == 0 then |l.items| else l.index - 1;
    InsertAtMembers(l.items, k, x);
    assert InsertEnd(l, x).items == InsertAt(l.items, k, x) by { InsertEndAt(l, x); }
  }

  lemma InsertEndAt(l: ListValue<Item>, x: Item)
    requires l.index <= |l.items|
    ensures InsertEnd(l, x).items == InsertAt(l.items, if l.index == 0 then |l.items| else l.index - 1, x)
  {
  }

  lemma AddSortedConsistent(ls: Lists, p: ListId, x: Item)
    requires Consistent(ls) && p in ls.contents && x !in ls.container
    ensures Consistent(AddSorted(ls, p, x)) && Items(AddSorted(ls, p, x), p) != []
  {
    var l := ls.contents[p];
    var k := FirstGreater(Keys(ls.value, l.items), Key(ls.value, x));
    assert Valid(l) && x !in l.items;
    InsertAtMembers(l.items, k, x);
    hide Consistent, Distinct, InsertAt, FirstGreater, Keys;
    ListGrown(ls, p, InsertBefore(l, k, x), x);
  }

  lemma AddSortedSorted(ls: Lists, p: ListId, x: Item)
    requires Consistent(ls) && p in ls.contents && x !in ls.container
    requires SortedList(ls, p)
    ensures SortedList(AddSorted(ls, p, x), p)
    ensures var head := Items(AddSorted(ls, p, x), p)[0];
            head == if Items(ls, p) == [] || Key(ls.value, x) < Key(ls.value, Items(ls, p)[0]) then x else Items(ls, p)[0]
  {
    var keys := Keys(ls.value, Items(ls, p));
    InsertKeepsSorted(keys, Key(ls.value, x));
    KeysInsert(ls.value, Items(ls, p), FirstGreater(keys, Key(ls.value, x)), x);
  }

  lemma WithoutConsistent(ls: Lists, x: Item)
    requires Consistent(ls) && x in ls.container
    ensures Consistent(Without(ls, x))
    ensures Without(ls, x).container == ls.container - {x}
    ensures Without(ls, x).contents.Keys == ls.contents.Keys && ls.container[x] in ls.contents
    ensures forall q :: q != ls.container[x] ==> List(Without(ls, x), q) == List(ls, q)
    ensures |Items(Without(ls, x), ls.container[x])| == |Items(ls, ls.container[x])| - 1
  {
    var p := ls.container[x];
    var l := ls.contents[p];
    RemoveAtMembers(l.items, IndexOf(l.items, x));
    hide Distinct, IndexOf, RemoveAt;
    var r := Remove(l, IndexOf(l.items, x));
    ListShrunk(ls, p, r, x);
    hide Consistent;
  }

  /** A list that loses one item keeps the two views of membership equal. */
  lemma ListShrunk(ls: Lists, p: ListId, l: ItemList, x: Item)
    requires Consistent(ls) && In(ls, x, p)
    requires Valid(l) && forall y :: y in l.items <==> y in ls.contents[p].items && y != x
    ensures Consistent(ls.(contents := ls.contents[p := l], container := ls.container - {x}))
  {
    hide Valid;
  }

  lemma WithoutSorted(ls: Lists, x: Item, p: ListId)
    requires Consistent(ls) && x in ls.container
    requires SortedList(ls, p)
    ensures SortedList(Without(ls, x), p)
    ensures var items := Items(Without(ls, x), p);
            items != [] ==> Key(ls.value, Items(ls, p)[0]) <= Key(ls.value, items[0])
  {
    hide Sorted;
    if p == ls.container[x] {
      var items := Items(ls, p);
      KeysRemove(ls.value, items, IndexOf(items, x));
      RemoveKeepsSorted(Keys(ls.value, items), IndexOf(items, x));
      assert Keys(ls.value, items)[0] == Key(ls.value, items[0]);
    }
  }

  /** Removing the first item leaves the rest in order. */
  lemma WithoutHead(ls: Lists, p: ListId)
    requires Consistent(ls) && Items(ls, p) != []
    ensures In(ls, Items(ls, p)[0], p)
    ensures Items(Without(ls, Items(ls, p)[0]), p) == Items(ls, p)[1..]
  {
    assert Items(ls, p)[0] in ls.contents[p].items;
  }
}
