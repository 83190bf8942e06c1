/** list.c: the intrusive, circular, doubly linked list with an end marker and a moving cursor,
    proved to implement the operations of `ListValues`. */
module LinkedLists {
  import opened ListValues

  /** `portMAX_DELAY`: the value of the end marker, and the largest item value. */
  const MAX_DELAY: nat := 0xFFFF_FFFF

  type Tick = v: nat | v <= MAX_DELAY

  class ListItem {
    var value: Tick
    var next: ListItem?
    var previous: ListItem?
    var container: List?

    /** `vListInitialiseItem`, with the value the caller sets afterwards. */
    constructor (value: Tick)
      ensures this.value == value && container == null
    {
      this.value := value;
      next, previous, container := null, null, null;
    }
  }

  /** The positions after and before `i` on a ring of `n` nodes. */
  function After(i: nat, n: nat): nat
  {
    if i + 1 < n then i + 1 else 0
  }

  function Before(i: nat, n: nat): nat
    requires i < n
  {
    if 0 < i then i - 1 else n - 1
  }

  /** Every node but the one at position `but` has the right successor; likewise predecessor. */
  ghost predicate NextLinks(ring: seq<ListItem>, but: int)
    reads ring`next
  {
    forall i {:trigger ring[i].next} :: 0 <= i < |ring| && i != but ==> ring[i].next == ring[After(i, |ring|)]
  }

  ghost predicate PreviousLinks(ring: seq<ListItem>, but: int)
    reads ring`previous
  {
    forall i {:trigger ring[i].previous} :: 0 <= i < |ring| && i != but ==> ring[i].previous == ring[Before(i, |ring|)]
  }

  ghost predicate Contained(ring: seq<ListItem>, but: int, list: List)
    reads ring`container
  {
    forall i {:trigger ring[i].container} :: 1 <= i < |ring| && i != but ==> ring[i].container == list
  }

  ghost function ValuesOf(items: seq<ListItem>): (r: seq<nat>)
    reads items`value
    ensures |r| == |items|
    ensures forall i {:trigger r[i]} :: 0 <= i < |r| ==> r[i] == items[i].value
  {
    if items == [] then [] else [items[0].value] + ValuesOf(items[1..])
  }

  lemma ValuesInsert(items: seq<ListItem>, k: nat, item: ListItem)
    requires k <= |items|
    ensures ValuesOf(InsertAt(items, k, item)) == InsertAt(ValuesOf(items), k, item.value)
  {
  }

  lemma TailInsert(ring: seq<ListItem>, k: nat, item: ListItem)
    requires k < |ring|
    ensures InsertAt(ring, k + 1, item)[1..] == InsertAt(ring[1..], k, item)
  {
  }

  lemma TailRemove(ring: seq<ListItem>, k: nat)
    requires 1 <= k < |ring|
    ensures RemoveAt(ring, k)[1..] == RemoveAt(ring[1..], k - 1)
  {
  }

  // ----- the pointer writes repair the links they break

  lemma InsertNext(ring: seq<ListItem>, k: nat, item: ListItem)
    requires k < |ring| && NextLinks(ring, k)
    requires ring[k].next == item && item.next == ring[After(k, |ring|)]
    ensures NextLinks(InsertAt(ring, k + 1, item), -1)
  {
  }

  lemma InsertPrevious(ring: seq<ListItem>, k: nat, item: ListItem)
    requires k < |ring| && PreviousLinks(ring, After(k, |ring|))
    requires ring[After(k, |ring|)].previous == item && item.previous == ring[k]
    ensures PreviousLinks(InsertAt(ring, k + 1, item), -1)
  {
  }

  lemma InsertContained(ring: seq<ListItem>, k: nat, item: ListItem, list: List)
    requires k < |ring| && Contained(ring, -1, list) && item.container == list
    ensures Contained(InsertAt(ring, k + 1, item), -1, list)
  {
  }

  lemma RemoveNext(ring: seq<ListItem>, k: nat)
    requires 1 <= k < |ring| && NextLinks(ring, k - 1)
    requires ring[k - 1].next == ring[After(k, |ring|)]
    ensures NextLinks(RemoveAt(ring, k), -1)
  {
  }

  lemma RemovePrevious(ring: seq<ListItem>, k: nat)
    requires 1 <= k < |ring| && PreviousLinks(ring, After(k, |ring|))
    requires ring[After(k, |ring|)].previous == ring[k - 1]
    ensures PreviousLinks(RemoveAt(ring, k), -1)
  {
  }

  lemma RemoveContained(ring: seq<ListItem>, k: nat, list: List)
    requires 1 <= k < |ring| && Contained(ring, k, list)
    ensures Contained(RemoveAt(ring, k), -1, list)
  {
  }

  class List {
    const end: ListItem
    var index: ListItem
    var count: nat
    /** The nodes in `next` order, starting at the end marker. */
    ghost var ring: seq<ListItem>
    /** Where the cursor is on the ring. */
    ghost var cursor: nat

    /** `next` and `previous` are inverse on one ring, the cursor is on the ring, and the count
        and the containers agree with membership. */
    ghost predicate Valid()
      reads this, ring
    {
      && 0 < |ring| && ring[0] == end && Distinct(ring)
      && end.value == MAX_DELAY
      && count == |ring| - 1
      && cursor < |ring| && ring[cursor] == index
      && NextLinks(ring, -1) && PreviousLinks(ring, -1)
      && Contained(ring, -1, this)
    }

    ghost function Items(): seq<ListItem>
      reads this
      requires 0 < |ring|
    {
      ring[1..]
    }

    ghost function Values(): (r: seq<nat>)
      reads this, ring`value
      requires 0 < |ring|
    {
      ValuesOf(Items())
    }

    /** The abstract list: the items in ring order and the place of the cursor. */
    ghost function Value(): ListValue<ListItem>
      reads this, ring
      requires Valid()
    {
      ListValue(Items(), cursor)
    }

    lemma Neighbours(k: nat)
      requires Valid() && k < |ring|
      ensures ring[k].next == ring[After(k, |ring|)] && ring[k].previous == ring[Before(k, |ring|)]
    {
    }

    /** `vListInitialise` */
    constructor ()
      ensures Valid() && fresh(end) && ring == [end]
      ensures Value() == Empty()
    {
      var marker := new ListItem(MAX_DELAY);
      end := marker;
      index := marker;
      count := 0;
      ring := [marker];
      cursor := 0;
      new;
      end.next := end;
      end.previous := end;
    }

    /** The writes that end both insertions. */
    method Write(item: ListItem, left: ListItem, right: ListItem)
      requires left != item && right != item
      modifies this`count, item`next, item`previous, item`container, left`next, right`previous
      ensures item.next == right && item.previous == left && item.container == this
      ensures left.next == item && right.previous == item && count == old(count) + 1
    {
      item.next := right;
      item.previous := left;
      left.next := item;
      right.previous := item;
      item.container := this;
      count := count + 1;
    }

    /** What they do to the links: those of the ring with `item` after position `k` are all right. */
    method Relink(item: ListItem, left: ListItem, right: ListItem, ghost k: nat)
      requires Valid() && item !in ring
      requires k < |ring| && left == ring[k] && right == ring[After(k, |ring|)]
      modifies this`count, item`next, item`previous, item`container, left`next, right`previous
      ensures item.container == this && count == old(count) + 1
      ensures var r := InsertAt(ring, k + 1, item); NextLinks(r, -1) && PreviousLinks(r, -1) && Contained(r, -1, this)
    {
      Write(item, left, right);
      hide InsertAt;
      assert NextLinks(ring, k) && PreviousLinks(ring, After(k, |ring|)) && Contained(ring, -1, this);
      hide NextLinks, PreviousLinks, Contained, Distinct;
      InsertNext(ring, k, item);
      InsertPrevious(ring, k, item);
      InsertContained(ring, k, item, this);
    }

    /** What they do to the ring: `item` goes after position `k`. */
    method Link(item: ListItem, left: ListItem, right: ListItem, ghost k: nat)
      requires Valid() && item !in ring
      requires k < |ring| && left == ring[k] && right == ring[After(k, |ring|)]
      modifies this`count, this`ring, this`cursor, item`next, item`previous, item`container, left`next, right`previous
      ensures Valid() && item.container == this
      ensures ring == InsertAt(old(ring), k + 1, item)
      ensures cursor == if old(cursor) <= k then old(cursor) else old(cursor) + 1
    {
      hide NextLinks, PreviousLinks, Contained, Distinct;
      InsertAtMembers(ring, k + 1, item);
      Relink(item, left, right, k);
      ring := InsertAt(ring, k + 1, item);
      cursor := if cursor <= k then cursor else cursor + 1;
    }

    /** `vListInsertEnd`: the new item goes just before the cursor. */
    method InsertEnd(item: ListItem)
      requires Valid() && item !in ring
      modifies this`count, this`ring, this`cursor, ring`next, ring`previous, item`next, item`previous, item`container
      ensures Valid() && item.container == this
      ensures Value() == ListValues.InsertEnd(old(Value()), item)
    {
      hide NextLinks, PreviousLinks, Contained, Distinct, InsertAt;
      ghost var k := Before(cursor, |ring|);
      Neighbours(cursor);
      Link(item, index.previous, index, k);
      TailInsert(old(ring), k, item);
    }

    /** `vListInsert`: sorted insertion. The search stops at the first larger value or, because
        the end marker holds `MAX_DELAY`, at the end marker; a `MAX_DELAY` item is put last
        without a search. */
    method Insert(item: ListItem)
      requires Valid() && item !in ring
      modifies this`count, this`ring, this`cursor, ring`next, ring`previous, item`next, item`previous, item`container
      ensures Valid() && item.container == this
      ensures Value() == InsertBefore(old(Value()), FirstGreater(old(Values()), item.value), item)
      ensures Values() == InsertAt(old(Values()), FirstGreater(old(Values()), item.value), item.value)
      ensures old(Sorted(Values())) ==> Sorted(Values())
    {
      hide NextLinks, PreviousLinks, Contained, Distinct, InsertAt, FirstGreater, Sorted, ValuesOf;
      ghost var values := Values();
      ghost var k := FirstGreater(values, item.value);
      var place := FindPlace(item.value);
      Neighbours(k);
      Link(item, place, place.next, k);
      TailInsert(old(ring), k, item);
      ValuesInsert(old(Items()), k, item);
      assert ValuesOf(old(Items())) == values;
      SortedAfterInsert(values, item.value);
    }

    /** The search of `vListInsert`: the node after which a value goes. */
    method FindPlace(insertion: Tick) returns (place: ListItem)
      requires Valid()
      ensures FirstGreater(Values(), insertion) < |ring| && place == ring[FirstGreater(Values(), insertion)]
    {
      ghost var k: nat;
      if insertion == MAX_DELAY {
        k := |ring| - 1;
        place := end.previous;
      } else {
        k := 0;
        place := end;
        while place.next.value <= insertion
          invariant 0 <= k < |ring| && place == ring[k]
          invariant forall i :: 1 <= i <= k ==> ring[i].value <= insertion
          decreases |ring| - k
        {
          k := k + 1;
          place := place.next;
        }
      }
      FirstGreaterIs(Values(), insertion, k);
    }

    /** The writes of a removal. */
    method Erase(item: ListItem, left: ListItem, right: ListItem)
      requires left != item && right != item && 0 < count
      modifies this`index, this`count, item`container, left`next, right`previous
      ensures left.next == right && right.previous == left && item.container == null
      ensures index == if old(index) == item then left else old(index)
      ensures count == old(count) - 1
    {
      right.previous := left;
      left.next := right;
      if index == item {
        index := left;
      }
      item.container := null;
      count := count - 1;
    }

    /** What they do to the links: those of the ring without position `k` are all right. */
    method Bypass(item: ListItem, left: ListItem, right: ListItem, ghost k: nat)
      requires Valid() && 1 <= k < |ring| && item == ring[k]
      requires left == ring[k - 1] && right == ring[After(k, |ring|)]
      modifies this`index, this`count, item`container, left`next, right`previous
      ensures item.container == null && count == old(count) - 1
      ensures index == if old(index) == item then left else old(index)
      ensures var r := RemoveAt(ring, k); NextLinks(r, -1) && PreviousLinks(r, -1) && Contained(r, -1, this)
    {
      Erase(item, left, right);
      hide RemoveAt;
      assert NextLinks(ring, k - 1) && PreviousLinks(ring, After(k, |ring|)) && Contained(ring, k, this);
      hide NextLinks, PreviousLinks, Contained, Distinct;
      RemoveNext(ring, k);
      RemovePrevious(ring, k);
      RemoveContained(ring, k, this);
    }

    /** What they do to the ring. */
    method Unlink(item: ListItem, left: ListItem, right: ListItem, ghost k: nat)
      requires Valid() && 1 <= k < |ring| && item == ring[k]
      requires left == ring[k - 1] && right == ring[After(k, |ring|)]
      modifies this, item`container, left`next, right`previous
      ensures Valid() && item.container == null
      ensures ring == RemoveAt(old(ring), k)
      ensures cursor == if old(cursor) < k then old(cursor) else old(cursor) - 1
    {
      hide NextLinks, PreviousLinks, Contained;
      RemoveAtMembers(ring, k);
      Bypass(item, left, right, k);
      ring := RemoveAt(ring, k);
      cursor := if cursor < k then cursor else cursor - 1;
    }

    /** `uxListRemove`. The C code finds the list through the item's container; here it is the
        receiver. */
    method Remove(item: ListItem) returns (left: nat)
      requires Valid() && item in ring && item != end
      modifies this, ring`next, ring`previous, item`container
      ensures Valid() && item.container == null
      ensures item in old(Items()) && Value() == ListValues.Remove(old(Value()), IndexOf(old(Items()), item))
      ensures left == |ring| - 1
    {
      hide NextLinks, PreviousLinks, Contained, RemoveAt;
      ghost var k := IndexOf(Items(), item) + 1;
      Neighbours(k);
      Unlink(item, item.previous, item.next, k);
      TailRemove(old(ring), k);
      left := count;
    }

    /** `listGET_OWNER_OF_NEXT_ENTRY`: advances the cursor, skipping the end marker. */
    method NextEntry() returns (item: ListItem)
      requires Valid() && 0 < count
      modifies this`index, this`cursor
      ensures Valid() && Value() == Advance(old(Value())) && item == Entry(Value())
    {
      cursor := if cursor + 1 < |ring| then cursor + 1 else 1;
      index := index.next;
      if index == end {
        index := index.next;
      }
      item := index;
    }
  }

  lemma FirstGreaterIs(values: seq<nat>, v: nat, k: nat)
    requires k <= |values|
    requires forall i :: 0 <= i < k ==> values[i] <= v
    requires k < |values| ==> v < values[k]
    ensures FirstGreater(values, v) == k
  {
  }

  lemma SortedAfterInsert(values: seq<nat>, v: nat)
    ensures Sorted(values) ==> Sorted(InsertAt(values, FirstGreater(values, v), v))
  {
    if Sorted(values) {
      InsertKeepsSorted(values, v);
    }
  }
}
