/** list.c under tasks.c: all the lists of the scheduler side by side, as linked structures that share
    nodes only by handing them over. They implement the operations of `ItemLists`. */
module ListHeaps {
  import opened ListValues
  import opened ItemLists
  import LinkedLists

  type List = LinkedLists.List
  type ListItem = LinkedLists.ListItem

  // ----- nodes and the items they stand for

  type Names = map<ListItem, Item>

  predicate Named(names: Names, s: seq<ListItem>) {
    forall i :: 0 <= i < |s| ==> s[i] in names
  }

  ghost predicate OneToOne(names: Names) {
    forall n, m :: n in names && m in names && names[n] == names[m] ==> n == m
  }

  function NamesOf(names: Names, s: seq<ListItem>): (r: seq<Item>)
    requires Named(names, s)
    ensures |r| == |s| && forall i {:trigger r[i]} :: 0 <= i < |s| ==> r[i] == names[s[i]]
  {
    if s == [] then [] else [names[s[0]]] + NamesOf(names, s[1..])
  }

  /** The list of items that a list of nodes stands for. */
  function Meaning(names: Names, l: ListValue<ListItem>): ListValue<Item>
    requires Named(names, l.items)
  {
    ListValue(NamesOf(names, l.items), l.index)
  }

  lemma MeaningInsertBefore(names: Names, l: ListValue<ListItem>, k: nat, n: ListItem)
    requires Named(names, l.items) && n in names && k <= |l.items| && l.index <= |l.items|
    ensures Named(names, InsertBefore(l, k, n).items)
    ensures Meaning(names, InsertBefore(l, k, n)) == InsertBefore(Meaning(names, l), k, names[n])
  {
    InsertAtMembers(l.items, k, n);
    var r := InsertAt(l.items, k, n);
    assert NamesOf(names, r) == InsertAt(NamesOf(names, l.items), k, names[n]);
  }

  lemma MeaningInsertEnd(names: Names, l: ListValue<ListItem>, n: ListItem)
    requires Named(names, l.items) && n in names && l.index <= |l.items|
    ensures Named(names, ListValues.InsertEnd(l, n).items)
    ensures Meaning(names, ListValues.InsertEnd(l, n)) == ListValues.InsertEnd(Meaning(names, l), names[n])
  {
    var r := ListValues.InsertEnd(l, n);
    assert NamesOf(names, r.items) == ListValues.InsertEnd(Meaning(names, l), names[n]).items;
  }

  lemma InsertEndMembers(l: ListValue<ListItem>, n: ListItem)
    requires l.index <= |l.items|
    ensures forall m :: m in ListValues.InsertEnd(l, n).items <==> m == n || m in l.items
  {
    if l.index != 0 {
      InsertAtMembers(l.items, l.index - 1, n);
    }
  }

  lemma MeaningRemove(names: Names, l: ListValue<ListItem>, k: nat)
    requires Named(names, l.items) && k < |l.items| && l.index <= |l.items|
    ensures Named(names, Remove(l, k).items)
    ensures Meaning(names, Remove(l, k)) == Remove(Meaning(names, l), k)
  {
    var r := RemoveAt(l.items, k);
    assert NamesOf(names, r) == RemoveAt(NamesOf(names, l.items), k);
  }

  lemma {:induction false} IndexOfName(names: Names, s: seq<ListItem>, n: ListItem)
    requires Named(names, s) && OneToOne(names) && n in s && n in names
    ensures names[n] in NamesOf(names, s) && IndexOf(NamesOf(names, s), names[n]) == IndexOf(s, n)
  {
    var i :| 0 <= i < |s| && s[i] == n;
    assert NamesOf(names, s)[i] == names[n];
    if s[0] != n {
      IndexOfName(names, s[1..], n);
    }
  }

  /** The values of nodes are the keys of their items. */
  lemma {:induction false} KeysAreValues(names: Names, s: seq<ListItem>, value: map<Item, nat>)
    requires Named(names, s) && forall n :: n in s ==> names[n] in value && value[names[n]] == n.value
    ensures Keys(value, NamesOf(names, s)) == LinkedLists.ValuesOf(s)
  {
    assert |Keys(value, NamesOf(names, s))| == |LinkedLists.ValuesOf(s)|;
    forall i | 0 <= i < |s| ensures Keys(value, NamesOf(names, s))[i] == LinkedLists.ValuesOf(s)[i] {
      assert s[i] in s;
    }
  }

  /** A list of nodes, and the list of items it stands for. */
  ghost predicate Becomes(names: Names, l: ListValue<ListItem>, v: ItemList) {
    l.index <= |l.items| && Named(names, l.items) && Meaning(names, l) == v
  }

  /** What a list has lost or gained is node `n`. */
  ghost predicate Turns(l: ListValue<ListItem>, was: seq<ListItem>, n: ListItem) {
    && (forall m :: m in l.items ==> m == n || m in was)
    && (forall m :: m in was && m != n ==> m in l.items)
  }

  lemma BecomesInsertEnd(names: Names, l: ListValue<ListItem>, v: ItemList, n: ListItem)
    requires Becomes(names, l, v) && n in names
    ensures var r := ListValues.InsertEnd(l, n);
            && r.index <= |r.items| && ListValues.InsertEnd(v, names[n]).index <= |ListValues.InsertEnd(v, names[n]).items|
            && Becomes(names, r, ListValues.InsertEnd(v, names[n])) && Turns(r, l.items, n) && n in r.items
  {
    hide NamesOf, InsertAt;
    MeaningInsertEnd(names, l, n);
    InsertEndMembers(l, n);
    hide Meaning, Named;
  }

  lemma BecomesInsert(names: Names, l: ListValue<ListItem>, v: ItemList, k: nat, n: ListItem)
    requires Becomes(names, l, v) && n in names && k <= |l.items|
    ensures k <= |v.items|
    ensures var r := InsertBefore(l, k, n);
            && r.index <= |r.items| && InsertBefore(v, k, names[n]).index <= |InsertBefore(v, k, names[n]).items|
            && Becomes(names, r, InsertBefore(v, k, names[n])) && Turns(r, l.items, n) && n in r.items
  {
    hide NamesOf, InsertAt;
    MeaningInsertBefore(names, l, k, n);
    InsertAtMembers(l.items, k, n);
    hide Named;
  }

  lemma BecomesRemove(names: Names, l: ListValue<ListItem>, v: ItemList, n: ListItem)
    requires Becomes(names, l, v) && OneToOne(names) && Distinct(l.items) && n in l.items && n in names
    ensures names[n] in v.items
    ensures var r := Remove(l, IndexOf(l.items, n));
            && var v' := Remove(v, IndexOf(v.items, names[n]));
               v'.index <= |v'.items| == |r.items| && Becomes(names, r, v') && Turns(r, l.items, n)
  {
    hide NamesOf, RemoveAt, IndexOf, Distinct;
    IndexOfName(names, l.items, n);
    MeaningRemove(names, l, IndexOf(l.items, n));
    RemoveAtMembers(l.items, IndexOf(l.items, n));
    hide Named;
  }

  lemma BecomesAdvance(names: Names, l: ListValue<ListItem>, v: ItemList, n: ListItem)
    requires Becomes(names, l, v) && v.items != []
    ensures 0 < |l.items| && 0 < Advance(l).index && Advance(l).items == l.items && Advance(v).index <= |Advance(v).items| && Becomes(names, Advance(l), Advance(v)) && Turns(Advance(l), l.items, n)
    ensures Entry(Advance(l)) in names && names[Entry(Advance(l))] == Entry(Advance(v))
  {
  }

  lemma SameAgain(container: map<Item, ListId>, x: Item, p: ListId)
    requires x in container && container[x] == p
    ensures container[x := p] == container
  {
  }

  lemma MeaningMore(names: Names, n: ListItem, x: Item, l: ListValue<ListItem>)
    requires Named(names, l.items) && n !in names
    ensures Named(names[n := x], l.items) && Meaning(names[n := x], l) == Meaning(names, l)
  {
    assert NamesOf(names[n := x], l.items) == NamesOf(names, l.items);
  }

  // ----- what is in the nodes, as a value

  type RingMap = map<ListId, seq<ListItem>>
  type HomeMap = map<Item, LinkedLists.List?>

  /** The ring and the cursor of each list, and the container and the value of each item. */
  datatype Shape = Shape(rings: RingMap, cursors: map<ListId, nat>, homes: HomeMap, values: map<Item, nat>)

  ghost function RingsOf(lists: map<ListId, List>): RingMap
    reads lists.Values`ring
  {
    map q | q in lists :: lists[q].ring
  }

  ghost function CursorsOf(lists: map<ListId, List>): map<ListId, nat>
    reads lists.Values`cursor
  {
    map q | q in lists :: lists[q].cursor
  }

  ghost function HomesOf(nodes: map<Item, ListItem>): HomeMap
    reads nodes.Values`container
  {
    map y | y in nodes :: nodes[y].container
  }

  ghost function ValuesAt(nodes: map<Item, ListItem>): map<Item, nat>
    reads nodes.Values`value
  {
    map y | y in nodes :: nodes[y].value
  }

  ghost function ShapeOf(lists: map<ListId, List>, nodes: map<Item, ListItem>): Shape
    reads lists.Values`ring, lists.Values`cursor, nodes.Values`container, nodes.Values`value
  {
    Shape(RingsOf(lists), CursorsOf(lists), HomesOf(nodes), ValuesAt(nodes))
  }

  lemma OneMoreNode(lists: map<ListId, List>, nodes: map<Item, ListItem>, x: Item, n: ListItem)
    ensures var s := ShapeOf(lists, nodes);
            ShapeOf(lists, nodes[x := n]) == s.(homes := s.homes[x := n.container], values := s.values[x := n.value])
  {
    assert HomesOf(nodes[x := n]) == HomesOf(nodes)[x := n.container];
    assert ValuesAt(nodes[x := n]) == ValuesAt(nodes)[x := n.value];
  }

  lemma OneMoreRing(lists: map<ListId, List>, nodes: map<Item, ListItem>, p: ListId, l: List)
    ensures var s := ShapeOf(lists, nodes);
            ShapeOf(lists[p := l], nodes) == s.(rings := s.rings[p := l.ring], cursors := s.cursors[p := l.cursor])
  {
    assert RingsOf(lists[p := l]) == RingsOf(lists)[p := l.ring];
    assert CursorsOf(lists[p := l]) == CursorsOf(lists)[p := l.cursor];
  }

  /** Another ring for list `p`, another home and value for item `x`. */
  function Changed(s: Shape, p: ListId, ring: seq<ListItem>, cursor: nat, x: Item, home: LinkedLists.List?, v: nat): Shape {
    Shape(s.rings[p := ring], s.cursors[p := cursor], s.homes[x := home], s.values[x := v])
  }

  lemma ListsSplit(lists: map<ListId, List>, p: ListId)
    requires p in lists
    ensures RingsOf(lists) == RingsOf(lists - {p})[p := lists[p].ring]
    ensures CursorsOf(lists) == CursorsOf(lists - {p})[p := lists[p].cursor]
  {
  }

  lemma NodesSplit(nodes: map<Item, ListItem>, x: Item)
    requires x in nodes
    ensures HomesOf(nodes) == HomesOf(nodes - {x})[x := nodes[x].container]
    ensures ValuesAt(nodes) == ValuesAt(nodes - {x})[x := nodes[x].value]
  {
  }

  lemma ShapeSplits(lists: map<ListId, List>, nodes: map<Item, ListItem>, p: ListId, x: Item)
    requires p in lists && x in nodes
    ensures ShapeOf(lists, nodes) ==
            Changed(ShapeOf(lists - {p}, nodes - {x}), p, lists[p].ring, lists[p].cursor, x, nodes[x].container, nodes[x].value)
  {
    hide RingsOf, CursorsOf, HomesOf, ValuesAt;
    ListsSplit(lists, p);
    NodesSplit(nodes, x);
  }

  lemma UpdatedTwice<K, V>(m: map<K, V>, k: K, v0: V, v: V)
    ensures m[k := v0][k := v] == m[k := v]
  {
  }

  lemma ChangedTwice(s: Shape, p: ListId, r0: seq<ListItem>, c0: nat, x: Item, h0: LinkedLists.List?, v0: nat,
                     r: seq<ListItem>, c: nat, h: LinkedLists.List?, v: nat)
    ensures Changed(Changed(s, p, r0, c0, x, h0, v0), p, r, c, x, h, v) == Changed(s, p, r, c, x, h, v)
  {
    UpdatedTwice(s.rings, p, r0, r);
    UpdatedTwice(s.cursors, p, c0, c);
    UpdatedTwice(s.homes, x, h0, h);
    UpdatedTwice(s.values, x, v0, v);
  }

  /** The maps that give lists and nodes their names are inverse to those that give them their places. */
  ghost predicate Labels(lists: map<ListId, List>, nodes: map<Item, ListItem>, ids: map<List, ListId>, names: Names, repr: set<object>) {
    && (forall p :: p in lists ==> lists[p] in ids && ids[lists[p]] == p && lists[p] in repr)
    && (forall l :: l in ids ==> ids[l] in lists && lists[ids[l]] == l)
    && (forall x :: x in nodes ==> nodes[x] in names && names[nodes[x]] == x && nodes[x] in repr)
    && (forall n :: n in names ==> names[n] in nodes && nodes[names[n]] == n)
  }

  /** The end markers are all different, and are not nodes of items. */
  ghost predicate Ends(lists: map<ListId, List>, names: Names) {
    && (forall q :: q in lists ==> lists[q].end !in names)
    && (forall q, r :: q in lists && r in lists && q != r ==> lists[q].end != lists[r].end)
  }

  /** A ring of its end marker and of nodes of items, with the cursor on it. */
  ghost predicate IsRing(names: Names, repr: set<object>, end: ListItem, ring: seq<ListItem>, cursor: nat) {
    && 0 < |ring| && ring[0] == end && cursor < |ring| && Named(names, ring[1..])
    && Within(ring, repr)
  }

  ghost predicate Within(ring: seq<ListItem>, repr: set<object>) {
    forall i :: 0 <= i < |ring| ==> ring[i] in repr
  }

  ghost predicate Made(lists: map<ListId, List>, names: Names, repr: set<object>, rings: RingMap, cursors: map<ListId, nat>) {
    && rings.Keys == cursors.Keys == lists.Keys
    && forall q :: q in lists ==> IsRing(names, repr, lists[q].end, rings[q], cursors[q])
  }

  /** A node with one of these homes is on the ring of it. */
  ghost predicate Homed(nodes: map<Item, ListItem>, ids: map<List, ListId>, rings: RingMap, homes: HomeMap) {
    && homes.Keys == nodes.Keys
    && (forall y :: y in nodes && homes[y] != null ==> homes[y] in ids && ids[homes[y]] in rings && nodes[y] in rings[ids[homes[y]]])
  }

  ghost predicate Sound(lists: map<ListId, List>, nodes: map<Item, ListItem>, ids: map<List, ListId>, names: Names,
                        repr: set<object>, s: Shape) {
    && Labels(lists, nodes, ids, names, repr) && Ends(lists, names)
    && Made(lists, names, repr, s.rings, s.cursors) && Homed(nodes, ids, s.rings, s.homes)
  }

  ghost predicate Readable(names: Names, rings: RingMap, cursors: map<ListId, nat>) {
    forall q :: q in rings ==> q in cursors && 0 < |rings[q]| && cursors[q] < |rings[q]| && Named(names, rings[q][1..])
  }

  ghost function ContentsOf(names: Names, rings: RingMap, cursors: map<ListId, nat>): map<ListId, ItemList>
    requires Readable(names, rings, cursors)
  {
    map q | q in rings :: Meaning(names, ListValue(rings[q][1..], cursors[q]))
  }

  ghost function Containers(ids: map<List, ListId>, homes: HomeMap): map<Item, ListId> {
    map x | x in homes && homes[x] != null && homes[x] in ids :: ids[homes[x]]
  }

  /** The lists as the scheduler sees them. */
  ghost function View(ids: map<List, ListId>, names: Names, s: Shape): Lists
    requires Readable(names, s.rings, s.cursors)
  {
    Lists(ContentsOf(names, s.rings, s.cursors), Containers(ids, s.homes), s.values)
  }

  lemma SoundIsReadable(lists: map<ListId, List>, nodes: map<Item, ListItem>, ids: map<List, ListId>, names: Names,
                        repr: set<object>, s: Shape)
    requires Sound(lists, nodes, ids, names, repr, s)
    ensures Readable(names, s.rings, s.cursors)
  {
    hide Labels, Ends, Homed, Named;
  }

  // ----- one list relinked around one node

  lemma RingsChanged(lists: map<ListId, List>, names: Names, repr: set<object>, rings: RingMap, cursors: map<ListId, nat>,
                     p: ListId, r: seq<ListItem>, c: nat)
    requires Made(lists, names, repr, rings, cursors) && p in lists && IsRing(names, repr, lists[p].end, r, c)
    ensures Made(lists, names, repr, rings[p := r], cursors[p := c])
  {
    hide IsRing;
  }

  /** The only node whose home changes is on the ring of its new home; a ring loses no other. */
  lemma HomesChanged(nodes: map<Item, ListItem>, ids: map<List, ListId>, names: Names, rings: RingMap, homes: HomeMap,
                     p: ListId, r: seq<ListItem>, x: Item, h: LinkedLists.List?)
    requires Homed(nodes, ids, rings, homes) && p in rings && x in nodes
    requires h == null || (h in ids && ids[h] == p && nodes[x] in r)
    requires forall n :: n in rings[p] && n != nodes[x] ==> n in r
    requires forall y :: y in nodes && y != x ==> nodes[y] != nodes[x]
    ensures Homed(nodes, ids, rings[p := r], homes[x := h])
  {
  }

  lemma ContentsChanged(names: Names, rings: RingMap, cursors: map<ListId, nat>, p: ListId, r: seq<ListItem>, c: nat, v: ItemList)
    requires Readable(names, rings, cursors) && 0 < |r| && c < |r| && Becomes(names, ListValue(r[1..], c), v)
    ensures Readable(names, rings[p := r], cursors[p := c])
    ensures ContentsOf(names, rings[p := r], cursors[p := c]) == ContentsOf(names, rings, cursors)[p := v]
  {
    hide Meaning, Named;
  }

  lemma ContainersChanged(ids: map<List, ListId>, homes: HomeMap, x: Item, h: LinkedLists.List?)
    requires h == null || h in ids
    ensures Containers(ids, homes[x := h]) ==
            if h == null then Containers(ids, homes) - {x} else Containers(ids, homes)[x := ids[h]]
  {
  }

  lemma RingTurns(names: Names, repr: set<object>, end: ListItem, was: seq<ListItem>, c: nat, r: seq<ListItem>, l: ListValue<ListItem>, n: ListItem)
    requires IsRing(names, repr, end, was, c) && r == [end] + l.items && l.index <= |l.items|
    requires Turns(l, was[1..], n) && n in repr && Named(names, l.items)
    ensures IsRing(names, repr, end, r, l.index) && r[1..] == l.items
    ensures forall m :: m in was && m != n ==> m in r
  {
    assert was == [end] + was[1..];
    forall i | 0 <= i < |r| ensures r[i] in repr {
      if r[i] in was {
        var j :| 0 <= j < |was| && was[j] == r[i];
      } else if 0 < i {
        assert l.items[i - 1] == r[i];
      }
    }
  }

  lemma SoundChanged(lists: map<ListId, List>, nodes: map<Item, ListItem>, ids: map<List, ListId>, names: Names,
                     repr: set<object>, s: Shape, p: ListId, l: ListValue<ListItem>, x: Item, h: LinkedLists.List?)
    requires Sound(lists, nodes, ids, names, repr, s) && p in lists && x in nodes && x in s.values && p in s.rings
    requires l.index <= |l.items| && Named(names, l.items) && 0 < |s.rings[p]| && Turns(l, s.rings[p][1..], nodes[x])
    requires h == null || (h == lists[p] && nodes[x] in l.items)
    ensures Sound(lists, nodes, ids, names, repr, Changed(s, p, [lists[p].end] + l.items, l.index, x, h, s.values[x]))
  {
    hide Turns, Named, IsRing;
    NodeLabelled(lists, nodes, ids, names, repr, p, x);
    hide Labels;
    var r := [lists[p].end] + l.items;
    RingTurns(names, repr, lists[p].end, s.rings[p], s.cursors[p], r, l, nodes[x]);
    RingsChanged(lists, names, repr, s.rings, s.cursors, p, r, l.index);
    hide Made;
    HomesChanged(nodes, ids, names, s.rings, s.homes, p, r, x, h);
  }

  lemma ViewChanged(ids: map<List, ListId>, names: Names, s: Shape, p: ListId, end: ListItem, l: ListValue<ListItem>,
                    x: Item, h: LinkedLists.List?, v: ItemList)
    requires Readable(names, s.rings, s.cursors) && x in s.values && Becomes(names, l, v) && (h == null || (h in ids && ids[h] == p))
    ensures var s' := Changed(s, p, [end] + l.items, l.index, x, h, s.values[x]);
            var was := View(ids, names, s);
            && Readable(names, s'.rings, s'.cursors)
            && View(ids, names, s') ==
               Lists(was.contents[p := v], if h == null then was.container - {x} else was.container[x := p], was.value)
  {
    hide Meaning, Named, Readable, ContentsOf, Containers;
    var r := [end] + l.items;
    assert r[1..] == l.items;
    ContentsChanged(names, s.rings, s.cursors, p, r, l.index, v);
    ContainersChanged(ids, s.homes, x, h);
  }

  lemma NodeLabelled(lists: map<ListId, List>, nodes: map<Item, ListItem>, ids: map<List, ListId>, names: Names,
                     repr: set<object>, p: ListId, x: Item)
    requires Labels(lists, nodes, ids, names, repr) && p in lists && x in nodes
    ensures lists[p] in ids && ids[lists[p]] == p && nodes[x] in repr && nodes[x] in names && names[nodes[x]] == x
    ensures forall y :: y in nodes && y != x ==> nodes[y] != nodes[x]
    ensures forall q :: q in lists && q != p ==> lists[q] != lists[p]
  {
  }

  // ----- one more node, and one more list

  lemma LabelsMore(lists: map<ListId, List>, nodes: map<Item, ListItem>, ids: map<List, ListId>, names: Names,
                   repr: set<object>, x: Item, n: ListItem)
    requires Labels(lists, nodes, ids, names, repr) && x !in nodes && n !in repr
    ensures Labels(lists, nodes[x := n], ids, names[n := x], repr + {n}) && n !in names
  {
  }

  lemma EndsMore(lists: map<ListId, List>, names: Names, x: Item, n: ListItem)
    requires Ends(lists, names) && forall q :: q in lists ==> lists[q].end != n
    ensures Ends(lists, names[n := x])
  {
  }

  lemma IsRingMore(names: Names, repr: set<object>, end: ListItem, ring: seq<ListItem>, cursor: nat, x: Item, n: ListItem)
    requires IsRing(names, repr, end, ring, cursor) && n !in names
    ensures IsRing(names[n := x], repr + {n}, end, ring, cursor)
    ensures Meaning(names[n := x], ListValue(ring[1..], cursor)) == Meaning(names, ListValue(ring[1..], cursor))
  {
    MeaningMore(names, n, x, ListValue(ring[1..], cursor));
  }

  lemma MadeMore(lists: map<ListId, List>, names: Names, repr: set<object>, rings: RingMap, cursors: map<ListId, nat>, x: Item, n: ListItem)
    requires Made(lists, names, repr, rings, cursors) && n !in names && Readable(names, rings, cursors)
    ensures Made(lists, names[n := x], repr + {n}, rings, cursors) && Readable(names[n := x], rings, cursors)
    ensures ContentsOf(names[n := x], rings, cursors) == ContentsOf(names, rings, cursors)
  {
    forall q | q in lists
      ensures IsRing(names[n := x], repr + {n}, lists[q].end, rings[q], cursors[q])
      ensures Meaning(names[n := x], ListValue(rings[q][1..], cursors[q])) == Meaning(names, ListValue(rings[q][1..], cursors[q])) {
      IsRingMore(names, repr, lists[q].end, rings[q], cursors[q], x, n);
    }
    hide Meaning, Named;
  }

  lemma HomedMore(nodes: map<Item, ListItem>, ids: map<List, ListId>, rings: RingMap, homes: HomeMap, x: Item, n: ListItem)
    requires Homed(nodes, ids, rings, homes) && x !in nodes
    ensures Homed(nodes[x := n], ids, rings, homes[x := null])
    ensures Containers(ids, homes[x := null]) == Containers(ids, homes)
  {
    hide Containers;
    HomeMore(ids, homes, x);
  }

  lemma HomeMore(ids: map<List, ListId>, homes: HomeMap, x: Item)
    requires x !in homes
    ensures Containers(ids, homes[x := null]) == Containers(ids, homes)
  {
  }

  lemma SoundMore(lists: map<ListId, List>, nodes: map<Item, ListItem>, ids: map<List, ListId>, names: Names,
                  repr: set<object>, s: Shape, x: Item, n: ListItem, v: nat)
    requires Sound(lists, nodes, ids, names, repr, s) && x !in nodes && n !in repr
    requires forall q :: q in lists ==> lists[q].end in repr
    ensures var s' := s.(homes := s.homes[x := null], values := s.values[x := v]);
            && Sound(lists, nodes[x := n], ids, names[n := x], repr + {n}, s')
            && Readable(names, s.rings, s.cursors) && Readable(names[n := x], s.rings, s.cursors)
            && View(ids, names[n := x], s') == ItemLists.SetValue(View(ids, names, s), x, v)
  {
    SoundIsReadable(lists, nodes, ids, names, repr, s);
    LabelsMore(lists, nodes, ids, names, repr, x, n);
    hide Labels, Readable, Ends, Made, Homed, ContentsOf, Containers;
    EndsMore(lists, names, x, n);
    MadeMore(lists, names, repr, s.rings, s.cursors, x, n);
    HomedMore(nodes, ids, s.rings, s.homes, x, n);
  }

  lemma LabelsOneMore(lists: map<ListId, List>, nodes: map<Item, ListItem>, ids: map<List, ListId>, names: Names,
                      repr: set<object>, p: ListId, l: List)
    requires Labels(lists, nodes, ids, names, repr) && p !in lists && l !in repr
    ensures Labels(lists[p := l], nodes, ids[l := p], names, repr + {l, l.end}) && l !in ids
    ensures l.end !in repr ==> l.end !in names
  {
  }

  lemma EndsOneMore(lists: map<ListId, List>, names: Names, p: ListId, l: List)
    requires Ends(lists, names) && p !in lists && l.end !in names && forall q :: q in lists ==> lists[q].end != l.end
    ensures Ends(lists[p := l], names)
  {
  }

  lemma IsRingGrows(names: Names, repr: set<object>, more: set<object>, end: ListItem, ring: seq<ListItem>, cursor: nat)
    requires IsRing(names, repr, end, ring, cursor) && repr <= more
    ensures IsRing(names, more, end, ring, cursor)
  {
  }

  lemma MadeOneMore(lists: map<ListId, List>, names: Names, repr: set<object>, rings: RingMap, cursors: map<ListId, nat>, p: ListId, l: List)
    requires Made(lists, names, repr, rings, cursors) && p !in lists
    ensures Made(lists[p := l], names, repr + {l, l.end}, rings[p := [l.end]], cursors[p := 0])
  {
    assert IsRing(names, repr + {l, l.end}, l.end, [l.end], 0);
    forall q | q in lists ensures IsRing(names, repr + {l, l.end}, lists[q].end, rings[q], cursors[q]) {
      IsRingGrows(names, repr, repr + {l, l.end}, lists[q].end, rings[q], cursors[q]);
    }
    hide IsRing;
  }

  lemma HomedOneMore(nodes: map<Item, ListItem>, ids: map<List, ListId>, rings: RingMap, homes: HomeMap, p: ListId, l: List)
    requires Homed(nodes, ids, rings, homes) && p !in rings && l !in ids
    ensures Homed(nodes, ids[l := p], rings[p := [l.end]], homes)
    ensures Containers(ids[l := p], homes) == Containers(ids, homes)
  {
  }

  lemma SoundOneMore(lists: map<ListId, List>, nodes: map<Item, ListItem>, ids: map<List, ListId>, names: Names,
                     repr: set<object>, s: Shape, p: ListId, l: List)
    requires Sound(lists, nodes, ids, names, repr, s) && p !in lists && p !in s.rings && l !in repr && l.end !in repr
    requires forall q :: q in lists ==> lists[q].end in repr
    ensures var s' := s.(rings := s.rings[p := [l.end]], cursors := s.cursors[p := 0]);
            && Sound(lists[p := l], nodes, ids[l := p], names, repr + {l, l.end}, s')
            && Readable(names, s.rings, s.cursors) && Readable(names, s'.rings, s'.cursors)
            && View(ids[l := p], names, s') == AddEmpty(View(ids, names, s), p)
  {
    SoundIsReadable(lists, nodes, ids, names, repr, s);
    LabelsOneMore(lists, nodes, ids, names, repr, p, l);
    hide Labels, Readable, Ends, Made, Homed, Containers, ContentsOf;
    EndsOneMore(lists, names, p, l);
    MadeOneMore(lists, names, repr, s.rings, s.cursors, p, l);
    HomedOneMore(nodes, ids, s.rings, s.homes, p, l);
    EmptyBecomes(names, l);
    ContentsChanged(names, s.rings, s.cursors, p, [l.end], 0, Empty());
  }

  lemma EmptyBecomes(names: Names, l: List)
    ensures [l.end][1..] == [] && Becomes(names, ListValue([l.end][1..], 0), Empty())
  {
  }

  /** `vListInsert`, without what it says of the values. */
  method InsertSorted(l: List, n: ListItem)
    requires l.Valid() && n !in l.ring
    modifies l`count, l`ring, l`cursor, l.ring`next, l.ring`previous, n`next, n`previous, n`container
    ensures l.Valid() && n.container == l
    ensures l.Value() == old(InsertBefore(l.Value(), FirstGreater(l.Values(), n.value), n))
  {
    l.Insert(n);
  }

  /** The lists of the scheduler, by name, and the items of its tasks; `names` is the owner of each
      node. */
  class ListHeap {
    var lists: map<ListId, List>
    var nodes: map<Item, ListItem>
    var names: Names
    ghost var ids: map<List, ListId>
    ghost var repr: set<object>

    ghost predicate Labelled()
      reads this
    {
      Labels(lists, nodes, ids, names, repr)
    }

    ghost function Now(): Shape
      reads this`lists, this`nodes, lists.Values`ring, lists.Values`cursor, nodes.Values`container, nodes.Values`value
    {
      ShapeOf(lists, nodes)
    }

    /** The rings are well formed, share nothing, and each node is on the ring it says it is on. */
    ghost predicate Valid()
      reads this, repr
    {
      && Labelled() && Sound(lists, nodes, ids, names, repr, Now())
      && forall q :: q in lists ==> Within(lists[q].ring, repr) && lists[q].Valid()
    }

    ghost function Value(): Lists
      reads this, repr
      requires Valid()
    {
      SoundIsReadable(lists, nodes, ids, names, repr, Now());
      View(ids, names, Now())
    }

    constructor ()
      ensures Valid() && repr == {} && lists == map[] && nodes == map[] && Value() == Lists(map[], map[], map[])
    {
      lists, nodes, ids, names, repr := map[], map[], map[], map[], {};
    }

    lemma RingOf(p: ListId)
      requires Valid() && p in lists
      ensures lists[p].Valid() && lists[p].end in repr && lists[p].end !in names
      ensures IsRing(names, repr, lists[p].end, lists[p].ring, lists[p].cursor)
      ensures p in Now().rings && Now().rings[p] == lists[p].ring && Now().cursors[p] == lists[p].cursor
    {
      hide LinkedLists.List.Valid, Labels, Homed;
    }

    lemma InRing(p: ListId, n: ListItem)
      requires Valid() && p in lists && n in lists[p].ring
      ensures n == lists[p].end || (n in lists[p].Items() && n in names && n.container == lists[p])
    {
      RingOf(p);
      hide Labels, Sound;
      var l := lists[p];
      var i :| 0 <= i < |l.ring| && l.ring[i] == n;
      if i != 0 {
        assert l.Items()[i - 1] == n;
      }
    }

    /** A node of one ring is on no other. */
    lemma Apart(p: ListId, q: ListId, n: ListItem)
      requires Valid() && p in lists && q in lists && p != q && n in lists[p].ring
      ensures n !in lists[q].ring && lists[p] != lists[q]
    {
      hide LinkedLists.List.Valid;
      InRing(p, n);
      if n in lists[q].ring {
        InRing(q, n);
      }
    }

    /** List `p` and the node of `x` share nothing with the other lists. */
    lemma Separate(p: ListId, x: Item)
      requires Valid() && p in lists && x in nodes && (nodes[x].container == null || nodes[x].container == lists[p])
      ensures lists[p].Valid() && nodes[x] in repr && nodes[x] in names && names[nodes[x]] == x
      ensures forall y :: y in nodes && y != x ==> nodes[y] != nodes[x]
      ensures forall q :: q in lists && q != p ==> lists[q] != lists[p]
      ensures forall q, i :: q in lists && q != p && 0 <= i < |lists[q].ring| ==>
                lists[q].ring[i] != nodes[x] && lists[q].ring[i] !in lists[p].ring
    {
      NodeLabelled(lists, nodes, ids, names, repr, p, x);
      hide LinkedLists.List.Valid, Labels, Sound;
      forall q, i | q in lists && q != p && 0 <= i < |lists[q].ring|
        ensures lists[q].ring[i] != nodes[x] && lists[q].ring[i] !in lists[p].ring {
        Elsewhere(p, x, q, lists[q].ring[i]);
      }
    }

    lemma Elsewhere(p: ListId, x: Item, q: ListId, n: ListItem)
      requires Valid() && p in lists && x in nodes && (nodes[x].container == null || nodes[x].container == lists[p])
      requires q in lists && q != p && n in lists[q].ring
      ensures n != nodes[x] && n !in lists[p].ring
    {
      NodeLabelled(lists, nodes, ids, names, repr, p, x);
      RingOf(q);
      hide LinkedLists.List.Valid, Labels, Sound;
      InRing(q, n);
      Apart(q, p, n);
    }

    /** A node in no list is on no ring. */
    lemma Loose(p: ListId, x: Item)
      requires Valid() && p in lists && x in nodes && nodes[x].container == null
      ensures nodes[x] !in lists[p].ring
    {
      NodeLabelled(lists, nodes, ids, names, repr, p, x);
      RingOf(p);
      hide LinkedLists.List.Valid, Labels, Sound;
      if nodes[x] in lists[p].ring {
        InRing(p, nodes[x]);
      }
    }

    /** A node in a list is on its ring. */
    lemma OnRing(p: ListId, x: Item)
      requires Valid() && p in lists && x in nodes && nodes[x].container == lists[p]
      ensures lists[p].Valid() && nodes[x] in lists[p].Items() && nodes[x] != lists[p].end
      ensures In(Value(), x, p)
    {
      NodeLabelled(lists, nodes, ids, names, repr, p, x);
      RingOf(p);
      hide LinkedLists.List.Valid, Labels, Made, Ends;
      assert nodes[x] in lists[p].ring;
      InRing(p, nodes[x]);
    }

    lemma Housed(x: Item)
      requires Valid() && x in nodes && nodes[x].container != null
      ensures nodes[x].container in ids && ids[nodes[x].container] in lists && lists[ids[nodes[x].container]] == nodes[x].container
    {
      hide LinkedLists.List.Valid, Made, Ends;
    }

    /** List `p` stands for what the scheduler sees of it. */
    lemma NowAt(p: ListId)
      requires Valid() && p in lists
      ensures lists[p].Valid() && 0 < |lists[p].ring| && p in Value().contents && lists[p].cursor <= |lists[p].Items()|
      ensures lists[p].ring == [lists[p].end] + lists[p].Items() && Distinct(lists[p].Items())
      ensures lists[p].count == |lists[p].Items()|
      ensures Becomes(names, lists[p].Value(), Value().contents[p]) && |Value().contents[p].items| == |lists[p].Items()|
    {
      hide Distinct, LinkedLists.List.Valid;
      RingIs(p);
      RingOf(p);
      hide Labels, Sound, NamesOf, Named;
    }

    lemma RingIs(p: ListId)
      requires p in lists && lists[p].Valid()
      ensures 0 < |lists[p].ring| && lists[p].ring == [lists[p].end] + lists[p].Items()
      ensures lists[p].cursor <= |lists[p].Items()| == lists[p].count
      ensures Distinct(lists[p].Items())
    {
    }

    lemma OneName()
      requires Labelled()
      ensures OneToOne(names)
    {
    }

    // ----- the operations

    /** Whatever has happened to the links, every ring is well formed, and no ring but that of `p`, no
        container but that of `x` and no value differs from `s`. */
    ghost predicate Relinked(p: ListId, x: Item, s: Shape)
      reads this, repr
      requires Labelled()
    {
      && p in lists && x in nodes && x in s.values && p in s.rings && 0 < |s.rings[p]|
      && (forall q :: q in lists && q != p ==> Within(lists[q].ring, repr) && lists[q].Valid())
      && Now() == Changed(s, p, lists[p].ring, lists[p].cursor, x, nodes[x].container, s.values[x])
    }

    lemma KeysNow(p: ListId, x: Item)
      requires Valid() && p in lists && x in nodes
      ensures var s := Now(); p in s.rings && 0 < |s.rings[p]| && s.rings[p] == lists[p].ring && x in s.values && s.values[x] == nodes[x].value
    {
      RingOf(p);
      hide Labels, Sound;
    }

    /** List `p`, relinked around the node of `x`, has become `l`, which stands for `v`. */
    lemma Finish(p: ListId, x: Item, s: Shape, l: ListValue<ListItem>, v: ItemList)
      requires Labelled() && Sound(lists, nodes, ids, names, repr, s) && Relinked(p, x, s)
      requires lists[p].Valid() && lists[p].Value() == l && Becomes(names, l, v) && Turns(l, s.rings[p][1..], nodes[x])
      requires nodes[x].container == null || (nodes[x].container == lists[p] && nodes[x] in l.items)
      ensures Readable(names, s.rings, s.cursors) && Valid()
      ensures var was := View(ids, names, s);
              Value() == Lists(was.contents[p := v], if nodes[x].container == null then was.container - {x} else was.container[x := p], was.value)
    {
      hide LinkedLists.List.Valid, Labels, Turns, Sound, Meaning, Named, ShapeOf, Readable, View, Within;
      RingIs(p);
      NodeLabelled(lists, nodes, ids, names, repr, p, x);
      SoundIsReadable(lists, nodes, ids, names, repr, s);
      SoundChanged(lists, nodes, ids, names, repr, s, p, l, x, nodes[x].container);
      ViewChanged(ids, names, s, p, lists[p].end, l, x, nodes[x].container, v);
      RingInRepr(p, Now());
    }

    lemma RingInRepr(p: ListId, s: Shape)
      requires Labelled() && p in lists && Sound(lists, nodes, ids, names, repr, s) && p in s.rings && s.rings[p] == lists[p].ring
      ensures Within(lists[p].ring, repr)
    {
      hide Labels, Homed, Ends, Named;
    }

    /** The lists and items the scheduler sees are those that have a ring and a node. */
    lemma Known()
      requires Valid()
      ensures Value().contents.Keys == lists.Keys && Value().value.Keys == nodes.Keys
      ensures forall x :: x in Value().container ==> x in nodes
    {
      hide LinkedLists.List.Valid, Labels, Ends, IsRing, Meaning;
    }

    /** An item is in a list exactly when its node has a container. */
    lemma HomeIs(x: Item)
      requires Valid() && x in nodes
      ensures nodes[x].container == null <==> x !in Value().container
      ensures nodes[x].container != null ==>
                var p := Value().container[x]; p in lists && nodes[x].container == lists[p]
    {
      hide LinkedLists.List.Valid, Made, Ends;
    }

    /** What an operation on list `p` and item `x` may change. */
    lemma Footprint(p: ListId, x: Item)
      requires Valid() && p in lists && x in nodes
      ensures lists[p] in repr && nodes[x] in repr && forall n :: n in lists[p].ring ==> n in repr
    {
      hide LinkedLists.List.Valid, Made, Ends, Homed;
    }

    lemma NodeInRepr(x: Item)
      requires Valid() && x in nodes
      ensures nodes[x] in repr
    {
      hide LinkedLists.List.Valid, Made, Ends, Homed;
    }

    /** `vListInsertEnd`, and the lists and nodes it leaves alone. */
    method LinkLast(p: ListId, x: Item)
      requires Valid() && p in lists && x in nodes && nodes[x].container == null
      modifies lists[p], lists[p].ring, nodes[x]
      ensures unchanged(this) && Labelled() && Relinked(p, x, old(Now()))
      ensures lists[p].Valid() && nodes[x].container == lists[p]
      ensures lists[p].Value() == ListValues.InsertEnd(old(lists[p].Value()), nodes[x])
    {
      hide LinkedLists.List.Valid, Labels, Sound, ShapeOf, Changed, Within, Distinct, ListValues.InsertEnd;
      Separate(p, x);
      Loose(p, x);
      KeysNow(p, x);
      ghost var rest := ShapeOf(lists - {p}, nodes - {x});
      ShapeSplits(lists, nodes, p, x);
      lists[p].InsertEnd(nodes[x]);
      ShapeSplits(lists, nodes, p, x);
      ChangedTwice(rest, p, old(lists[p].ring), old(lists[p].cursor), x, null, nodes[x].value,
                   lists[p].ring, lists[p].cursor, nodes[x].container, nodes[x].value);
    }

    /** `vListInsertEnd` */
    method AddLast(p: ListId, x: Item)
      requires Valid() && p in lists && x in nodes && nodes[x].container == null
      modifies lists[p], lists[p].ring, nodes[x]
      ensures unchanged(this) && Valid() && Value() == ItemLists.AddLast(old(Value()), p, x)
    {
      hide LinkedLists.List.Valid, Labels, Sound, Relinked, Turns, Becomes, View, Readable, ListValues.InsertEnd;
      ghost var s, was := Now(), Value();
      Separate(p, x);
      NowAt(p);
      KeysNow(p, x);
      BecomesInsertEnd(names, lists[p].Value(), was.contents[p], nodes[x]);
      ghost var l := ListValues.InsertEnd(lists[p].Value(), nodes[x]);
      LinkLast(p, x);
      Finish(p, x, s, l, ListValues.InsertEnd(was.contents[p], x));
    }

    /** `vListInsert`, and the lists and nodes it leaves alone. */
    method LinkSorted(p: ListId, x: Item)
      requires Valid() && p in lists && x in nodes && nodes[x].container == null
      modifies lists[p], lists[p].ring, nodes[x]
      ensures unchanged(this) && Labelled() && Relinked(p, x, old(Now()))
      ensures lists[p].Valid() && nodes[x].container == lists[p]
      ensures lists[p].Value() == old(InsertBefore(lists[p].Value(), FirstGreater(lists[p].Values(), nodes[x].value), nodes[x]))
    {
      hide LinkedLists.List.Valid, Labels, Sound, ShapeOf, Changed, InsertBefore, FirstGreater, Within, Distinct, LinkedLists.List.Values;
      Separate(p, x);
      Loose(p, x);
      KeysNow(p, x);
      ghost var rest := ShapeOf(lists - {p}, nodes - {x});
      ShapeSplits(lists, nodes, p, x);
      InsertSorted(lists[p], nodes[x]);
      ShapeSplits(lists, nodes, p, x);
      ChangedTwice(rest, p, old(lists[p].ring), old(lists[p].cursor), x, null, nodes[x].value,
                   lists[p].ring, lists[p].cursor, nodes[x].container, nodes[x].value);
    }

    /** `vListInsert` */
    method AddSorted(p: ListId, x: Item)
      requires Valid() && p in lists && x in nodes && nodes[x].container == null
      modifies lists[p], lists[p].ring, nodes[x]
      ensures unchanged(this) && Valid() && Value() == ItemLists.AddSorted(old(Value()), p, x)
    {
      hide LinkedLists.List.Valid, Labels, Sound, Relinked, Turns, Becomes, View, Readable, InsertBefore, FirstGreater, LinkedLists.List.Values;
      ghost var s, was := Now(), Value();
      Separate(p, x);
      NowAt(p);
      KeysNow(p, x);
      PlaceIs(p, x);
      ghost var k := FirstGreater(lists[p].Values(), nodes[x].value);
      BecomesInsert(names, lists[p].Value(), was.contents[p], k, nodes[x]);
      ghost var l := InsertBefore(lists[p].Value(), k, nodes[x]);
      LinkSorted(p, x);
      Finish(p, x, s, l, InsertBefore(was.contents[p], k, x));
    }

    /** The keys of the items are the values of the nodes, so the place is the same. */
    lemma PlaceIs(p: ListId, x: Item)
      requires Valid() && p in lists && x in nodes && 0 < |lists[p].ring|
      ensures FirstGreater(lists[p].Values(), nodes[x].value) <= |lists[p].Items()|
      ensures FirstGreater(lists[p].Values(), nodes[x].value) == FirstGreater(Keys(Value().value, Items(Value(), p)), Key(Value().value, x))
    {
      hide FirstGreater, Labels, Sound, LinkedLists.List.Valid;
      NamesAt(p);
      KeysAreValues(names, lists[p].Items(), Value().value);
    }

    lemma NamesAt(p: ListId)
      requires Valid() && p in lists
      ensures 0 < |lists[p].ring| && Named(names, lists[p].Items()) && Items(Value(), p) == NamesOf(names, lists[p].Items())
      ensures forall n :: n in lists[p].Items() ==> names[n] in Value().value && Value().value[names[n]] == n.value
    {
      RingOf(p);
      NowAt(p);
      hide Sound, LinkedLists.List.Valid, NamesOf;
    }

    /** `uxListRemove`, and the lists and nodes it leaves alone. */
    method Unlink(l: List, x: Item, ghost p: ListId) returns (left: nat)
      requires Valid() && p in lists && l == lists[p] && x in nodes && nodes[x].container == l
      modifies l, l.ring
      ensures unchanged(this) && Labelled() && Relinked(p, x, old(Now()))
      ensures l.Valid() && nodes[x].container == null && left == |l.Items()|
      ensures nodes[x] in old(l.Items()) && l.Value() == Remove(old(l.Value()), IndexOf(old(l.Items()), nodes[x]))
    {
      hide LinkedLists.List.Valid, Labels, Sound, ShapeOf, Changed, Remove, IndexOf, View, Readable, Within, Becomes, Distinct;
      Separate(p, x);
      OnRing(p, x);
      NowAt(p);
      KeysNow(p, x);
      ghost var rest := ShapeOf(lists - {p}, nodes - {x});
      ShapeSplits(lists, nodes, p, x);
      left := l.Remove(nodes[x]);
      ShapeSplits(lists, nodes, p, x);
      ChangedTwice(rest, p, old(lists[p].ring), old(lists[p].cursor), x, l, nodes[x].value,
                   lists[p].ring, lists[p].cursor, nodes[x].container, nodes[x].value);
    }

    /** `uxListRemove`, which finds the list through the item. */
    method Without(x: Item) returns (left: nat)
      requires Valid() && x in nodes && nodes[x].container != null
      modifies nodes[x].container, nodes[x].container.ring
      ensures unchanged(this) && Valid() && Value() == ItemLists.Without(old(Value()), x)
      ensures old(x in Value().container) && left == |Items(Value(), old(Value().container[x]))|
      ensures Value().container == old(Value().container) - {x}
    {
      hide LinkedLists.List.Valid, Labels, Relinked, Turns, Becomes, View, Readable, Remove, IndexOf, Sound;
      ghost var s, was := Now(), Value();
      Housed(x);
      var l: List := nodes[x].container;
      ghost var p := ids[l];
      Separate(p, x);
      OnRing(p, x);
      NowAt(p);
      KeysNow(p, x);
      OneName();
      BecomesRemove(names, l.Value(), was.contents[p], nodes[x]);
      ghost var r := Remove(l.Value(), IndexOf(l.Items(), nodes[x]));
      left := Unlink(l, x, p);
      Finish(p, x, s, r, Remove(was.contents[p], IndexOf(was.contents[p].items, x)));
    }

    /** `listGET_OWNER_OF_NEXT_ENTRY`, and the lists and nodes it leaves alone. */
    method Step(p: ListId, ghost x: Item) returns (n: ListItem)
      requires Valid() && p in lists && x in nodes && nodes[x].container == lists[p] && 0 < |lists[p].Items()|
      modifies lists[p]
      ensures unchanged(this) && Labelled() && Relinked(p, x, old(Now())) && lists[p].Valid()
      ensures nodes[x].container == lists[p] && lists[p].Value() == Advance(old(lists[p].Value())) && n == Entry(lists[p].Value())
    {
      hide LinkedLists.List.Valid, Labels, Sound, ShapeOf, Changed, Advance, Value;
      Separate(p, x);
      NowAt(p);
      KeysNow(p, x);
      ghost var rest := ShapeOf(lists - {p}, nodes - {x});
      ShapeSplits(lists, nodes, p, x);
      n := lists[p].NextEntry();
      ShapeSplits(lists, nodes, p, x);
      ChangedTwice(rest, p, old(lists[p].ring), old(lists[p].cursor), x, nodes[x].container, nodes[x].value,
                   lists[p].ring, lists[p].cursor, nodes[x].container, nodes[x].value);
    }

    /** `listGET_OWNER_OF_NEXT_ENTRY` */
    method Next(p: ListId) returns (owner: Item)
      requires Valid() && p in lists && Items(Value(), p) != []
      modifies lists[p]
      ensures unchanged(this) && Valid() && Value() == AdvanceList(old(Value()), p)
      ensures 0 < ItemLists.List(Value(), p).index && owner == Entry(ItemLists.List(Value(), p)) && owner in nodes
    {
      hide LinkedLists.List.Valid, Labels, Sound, Relinked, Turns, Becomes, View, Readable;
      ghost var s, was := Now(), Value();
      ghost var x := First(p);
      OnRing(p, x);
      NowAt(p);
      KeysNow(p, x);
      BecomesAdvance(names, lists[p].Value(), was.contents[p], nodes[x]);
      ghost var l := Advance(lists[p].Value());
      var n := Step(p, x);
      Finish(p, x, s, l, Advance(was.contents[p]));
      SameAgain(was.container, x, p);
      owner := names[n];
      NameIsNode(n);
    }

    lemma NameIsNode(n: ListItem)
      requires Labelled() && n in names
      ensures names[n] in nodes
    {
    }

    lemma First(p: ListId) returns (x: Item)
      requires Valid() && p in lists && Items(Value(), p) != []
      ensures x in nodes && nodes[x].container == lists[p] && 0 < |lists[p].Items()| && nodes[x] == lists[p].Items()[0]
      ensures x == Items(Value(), p)[0]
    {
      NamesAt(p);
      NowAt(p);
      RingOf(p);
      hide LinkedLists.List.Valid, Sound;
      var n := lists[p].Items()[0];
      assert lists[p].ring[1] == n;
      InRing(p, n);
      x := names[n];
    }

    /** `listGET_OWNER_OF_HEAD_ENTRY` */
    method Head(p: ListId) returns (owner: Item)
      requires Valid() && p in lists && Items(Value(), p) != []
      ensures Items(Value(), p) != [] && owner == Items(Value(), p)[0]
    {
      ghost var x := First(p);
      NowAt(p);
      NamesAt(p);
      hide Labels, Sound, View, Becomes;
      lists[p].Neighbours(0);
      owner := names[lists[p].end.next];
    }

    /** `listCURRENT_LIST_LENGTH` */
    method Length(p: ListId) returns (n: nat)
      requires Valid() && p in lists
      ensures n == |Items(Value(), p)|
    {
      hide LinkedLists.List.Valid, Labels, Sound, View, Becomes;
      NowAt(p);
      n := lists[p].count;
    }

    /** Whether an item is in any list (`listLIST_ITEM_CONTAINER`). */
    method IsHoused(x: Item) returns (b: bool)
      requires Valid() && x in nodes
      ensures b <==> x in Value().container
    {
      HomeIs(x);
      b := nodes[x].container != null;
    }

    /** `listIS_CONTAINED_WITHIN` */
    method IsWithin(p: ListId, x: Item) returns (b: bool)
      requires Valid() && p in lists && x in nodes
      ensures b == In(Value(), x, p)
    {
      hide LinkedLists.List.Valid, Made, Ends;
      b := nodes[x].container == lists[p];
    }

    /** `listGET_LIST_ITEM_VALUE` */
    method ItemValue(x: Item) returns (v: LinkedLists.Tick)
      requires Valid() && x in nodes
      ensures x in Value().value && v == Value().value[x]
    {
      hide LinkedLists.List.Valid, Labels, Sound;
      v := nodes[x].value;
    }

    /** The value of a node is no part of the links. */
    method WriteValue(n: ListItem, v: LinkedLists.Tick)
      requires forall q :: q in lists ==> lists[q].Valid() && lists[q].end != n
      modifies n`value
      ensures n.value == v && forall q :: q in lists ==> lists[q].Valid()
    {
      hide LinkedLists.NextLinks, LinkedLists.PreviousLinks, LinkedLists.Contained, Distinct;
      n.value := v;
    }

    /** `listSET_LIST_ITEM_VALUE`, wherever the item is. */
    method SetValue(x: Item, v: LinkedLists.Tick)
      requires Valid() && x in nodes
      modifies nodes[x]
      ensures unchanged(this) && Valid() && Value() == ItemLists.SetValue(old(Value()), x, v)
    {
      hide LinkedLists.List.Valid, RingsOf, CursorsOf, HomesOf, Containers, Readable, ContentsOf;
      ValueNow(x);
      hide Labels, Made, Homed;
      WriteValue(nodes[x], v);
      assert ValuesAt(nodes) == old(ValuesAt(nodes))[x := v];
    }

    lemma ValueNow(x: Item)
      requires Valid() && x in nodes
      ensures nodes[x] in names && forall y :: y in nodes && y != x ==> nodes[y] != nodes[x]
    {
      hide LinkedLists.List.Valid, Sound;
    }

    lemma EndsInRepr()
      requires Valid()
      ensures Now().rings.Keys == lists.Keys && forall q :: q in lists ==> lists[q].end in repr
    {
      hide LinkedLists.List.Valid, Sound;
      forall q | q in lists ensures lists[q].end in repr {
        RingOf(q);
      }
    }

    /** The node of a new item. */
    method AddNode(x: Item, v: LinkedLists.Tick) returns (n: ListItem)
      requires x !in nodes
      modifies this`nodes, this`names, this`repr
      ensures fresh(n) && nodes == old(nodes)[x := n] && names == old(names)[n := x] && repr == old(repr) + {n}
      ensures Now() == old(Now()).(homes := old(Now()).homes[x := null], values := old(Now()).values[x := v])
    {
      hide ShapeOf;
      n := new LinkedLists.ListItem(v);
      OneMoreNode(lists, nodes, x, n);
      nodes, names, repr := nodes[x := n], names[n := x], repr + {n};
    }

    /** `vListInitialiseItem` for an item of a new task. */
    method NewItem(x: Item, v: LinkedLists.Tick)
      requires Valid() && x !in nodes
      modifies this`nodes, this`names, this`repr
      ensures Valid() && fresh(repr - old(repr)) && Value() == ItemLists.SetValue(old(Value()), x, v)
      ensures nodes.Keys == old(nodes.Keys) + {x}
    {
      hide LinkedLists.List.Valid, Sound, Labels, View, Readable, ShapeOf;
      EndsInRepr();
      ghost var s, was := Now(), Value();
      ghost var nodes0, names0, repr0 := nodes, names, repr;
      var n := AddNode(x, v);
      SoundMore(lists, nodes0, ids, names0, repr0, s, x, n, v);
      SoundIsLabelled();
    }

    lemma SoundIsLabelled()
      requires Sound(lists, nodes, ids, names, repr, Now())
      ensures Labelled()
    {
    }

    /** A new, empty ring. */
    method AddRing(p: ListId) returns (l: List)
      requires p !in lists
      modifies this`lists, this`ids, this`repr
      ensures fresh(l) && fresh(l.end) && lists == old(lists)[p := l] && ids == old(ids)[l := p] && repr == old(repr) + {l, l.end}
      ensures l.Valid() && l.ring == [l.end]
      ensures Now() == old(Now()).(rings := old(Now()).rings[p := [l.end]], cursors := old(Now()).cursors[p := 0])
    {
      hide ShapeOf;
      l := new LinkedLists.List();
      assert l.Value().index == 0;
      hide LinkedLists.List.Valid;
      OneMoreRing(lists, nodes, p, l);
      lists, ids, repr := lists[p := l], ids[l := p], repr + {l, l.end};
    }

    /** `vListInitialise` */
    method NewList(p: ListId)
      requires Valid() && p !in lists
      modifies this`lists, this`ids, this`repr
      ensures Valid() && fresh(repr - old(repr)) && Value() == AddEmpty(old(Value()), p)
      ensures lists.Keys == old(lists.Keys) + {p}
    {
      hide LinkedLists.List.Valid, Sound, Labels, View, Readable, ShapeOf;
      EndsInRepr();
      ghost var s, was := Now(), Value();
      ghost var lists0, ids0, repr0 := lists, ids, repr;
      var l := AddRing(p);
      SoundOneMore(lists0, nodes, ids0, names, repr0, s, p, l);
      SoundIsLabelled();
    }
  }
}
