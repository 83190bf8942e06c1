/** The abstract value of a kernel list: the items between the end marker and itself, in
    `next` order, and the position of the moving cursor (`pxIndex`).

    `index == 0` means the cursor rests on the end marker, `index == k + 1` that it rests on
    `items[k]`. The pointer structure of list.c is proved to implement these operations in
    module `LinkedLists`; the scheduler model is built on them. */
module ListValues {
  datatype ListValue<!T> = ListValue(items: seq<T>, index: nat)

  ghost predicate Distinct<T>(s: seq<T>) {
    forall i, j :: 0 <= i < j < |s| ==> s[i] != s[j]
  }

  ghost predicate Valid<T>(l: ListValue<T>) {
    l.index <= |l.items| && Distinct(l.items)
  }

  function Empty<T>(): ListValue<T> {
    ListValue([], 0)
  }

  /** `s` with `x` put in front of position `k`. */
  function InsertAt<T>(s: seq<T>, k: nat, x: T): (r: seq<T>)
    requires k <= |s|
    ensures |r| == |s| + 1
    ensures forall i {:trigger r[i]} :: 0 <= i < |r| ==> r[i] == if i < k then s[i] else if i == k then x else s[i - 1]
  {
    s[..k] + [x] + s[k..]
  }

  lemma InsertAtMembers<T>(s: seq<T>, k: nat, x: T)
    requires k <= |s|
    ensures forall y :: y in InsertAt(s, k, x) <==> y == x || y in s
    ensures Distinct(s) && x !in s ==> Distinct(InsertAt(s, k, x))
  {
    assert s == s[..k] + s[k..];
  }

  /** `s` without position `k`. */
  function RemoveAt<T>(s: seq<T>, k: nat): (r: seq<T>)
    requires k < |s|
    ensures |r| == |s| - 1
    ensures forall i {:trigger r[i]} :: 0 <= i < |r| ==> r[i] == if i < k then s[i] else s[i + 1]
  {
    s[..k] + s[k + 1..]
  }

  lemma RemoveAtMembers<T>(s: seq<T>, k: nat)
    requires k < |s| && Distinct(s)
    ensures forall y :: y in RemoveAt(s, k) <==> y in s && y != s[k]
    ensures Distinct(RemoveAt(s, k))
  {
    assert s == s[..k] + [s[k]] + s[k + 1..];
  }

  /** Where `x` first occurs in `s`. */
  function IndexOf<T(==)>(s: seq<T>, x: T): (k: nat)
    requires x in s
    ensures k < |s| && s[k] == x
  {
    if s[0] == x then 0 else 1 + IndexOf(s[1..], x)
  }

  /** Insertion immediately before the cursor. */
  function InsertEnd<T>(l: ListValue<T>, x: T): ListValue<T>
    requires l.index <= |l.items|
  {
    if l.index == 0 then
      ListValue(l.items + [x], 0)
    else
      ListValue(InsertAt(l.items, l.index - 1, x), l.index + 1)
  }

  /** Insertion in front of position `k`; the cursor stays on the item it was on. */
  function InsertBefore<T>(l: ListValue<T>, k: nat, x: T): ListValue<T>
    requires l.index <= |l.items| && k <= |l.items|
  {
    ListValue(InsertAt(l.items, k, x), if l.index <= k then l.index else l.index + 1)
  }

  /** Removal of position `k`; a cursor resting there steps back. */
  function Remove<T>(l: ListValue<T>, k: nat): ListValue<T>
    requires l.index <= |l.items| && k < |l.items|
  {
    ListValue(RemoveAt(l.items, k), if l.index <= k then l.index else l.index - 1)
  }

  /** The cursor after one advance, which skips the end marker. */
  function Advance<T>(l: ListValue<T>): ListValue<T>
    requires 0 < |l.items| && l.index <= |l.items|
  {
    l.(index := if l.index < |l.items| then l.index + 1 else 1)
  }

  function Entry<T>(l: ListValue<T>): T
    requires 0 < l.index <= |l.items|
  {
    l.items[l.index - 1]
  }

  /** The first position holding a value greater than `v`, or the end of the list. */
  function FirstGreater(values: seq<nat>, v: nat): (k: nat)
    ensures k <= |values|
    ensures forall i :: 0 <= i < k ==> values[i] <= v
    ensures k < |values| ==> v < values[k]
  {
    if values == [] || v < values[0] then 0 else 1 + FirstGreater(values[1..], v)
  }

  ghost predicate Sorted(values: seq<nat>) {
    forall i, j :: 0 <= i <= j < |values| ==> values[i] <= values[j]
  }

  /** A sorted list stays sorted, and the new item comes after every equal one (`FirstGreater`
      puts only smaller-or-equal values in front): the insertion is stable. */
  lemma InsertKeepsSorted(values: seq<nat>, v: nat)
    requires Sorted(values)
    ensures Sorted(InsertAt(values, FirstGreater(values, v), v))
    ensures forall i :: FirstGreater(values, v) <= i < |values| ==> v < values[i]
  {
    var k := FirstGreater(values, v);
    var r := InsertAt(values, k, v);
  }

  lemma RemoveKeepsSorted(values: seq<nat>, k: nat)
    requires Sorted(values) && k < |values|
    ensures Sorted(RemoveAt(values, k))
    ensures 1 < |values| ==> values[0] <= RemoveAt(values, k)[0]
  {
  }

  // ----- the cursor

  function AdvanceBy<T>(l: ListValue<T>, n: nat): (r: ListValue<T>)
    requires 0 < |l.items| && l.index <= |l.items|
    ensures r.items == l.items && r.index <= |r.items| && (0 < n ==> 0 < r.index)
  {
    if n == 0 then l else Advance(AdvanceBy(l, n - 1))
  }

  /** The entry returned by the `n`-th of a series of advances. */
  function Visit<T>(l: ListValue<T>, n: nat): T
    requires 0 < |l.items| && l.index <= |l.items| && 0 < n
  {
    Entry(AdvanceBy(l, n))
  }

  /** Where the `n`-th advance of a round lands: the items in ring order from the cursor on. */
  function Landing<T>(l: ListValue<T>, n: nat): (k: nat)
    requires l.index <= |l.items| && 1 <= n <= |l.items|
    ensures k < |l.items|
  {
    var start := if l.index == |l.items| then 0 else l.index;
    if start + n - 1 < |l.items| then start + n - 1 else start + n - 1 - |l.items|
  }

  lemma {:induction false} VisitLands<T>(l: ListValue<T>, n: nat)
    requires l.index <= |l.items| && 1 <= n <= |l.items|
    ensures AdvanceBy(l, n).index == Landing(l, n) + 1
    ensures Visit(l, n) == l.items[Landing(l, n)]
  {
    if n == 1 {
      assert AdvanceBy(l, 0) == l;
    } else {
      VisitLands(l, n - 1);
    }
  }

  /** `n` advances over a list of `n` items visit every item exactly once, from whatever
      position the cursor starts. */
  lemma AdvancesVisitEachOnce<T>(l: ListValue<T>, k: nat)
    requires Valid(l) && k < |l.items|
    ensures exists n :: 1 <= n <= |l.items| && Visit(l, n) == l.items[k]
    ensures forall n, m :: 1 <= n < m <= |l.items| ==> Visit(l, n) != Visit(l, m)
  {
    forall n | 1 <= n <= |l.items| ensures Visit(l, n) == l.items[Landing(l, n)] {
      VisitLands(l, n);
    }
    var start := if l.index == |l.items| then 0 else l.index;
    var n := if start <= k then k - start + 1 else k + |l.items| - start + 1;
    assert Landing(l, n) == k;
    assert Visit(l, n) == l.items[k];
  }

  /** After an insertion at the cursor the new item is reached only after all the others, save
      the one (if any) the cursor rests on, which comes right after it. */
  lemma InsertEndIsReachedLast<T>(l: ListValue<T>, x: T, n: nat)
    requires Valid(l) && x !in l.items
    requires 1 <= n <= |l.items| + 1
    ensures Visit(InsertEnd(l, x), n) == x <==> n == if l.index == 0 then |l.items| + 1 else |l.items|
    ensures l.index != 0 ==> Visit(InsertEnd(l, x), |l.items| + 1) == Entry(l)
  {
    var r := InsertEnd(l, x);
    var place := if l.index == 0 then |l.items| else l.index - 1;
    InsertedPlace(l, x);
    VisitLands(r, n);
    VisitLands(r, |l.items| + 1);
    hide InsertEnd, Visit, AdvanceBy, Valid;
    assert Landing(r, n) == place <==> n == if l.index == 0 then |l.items| + 1 else |l.items|;
  }

  /** An insertion at the cursor puts the new item in one place, in front of the item the cursor
      rests on, or else last. */
  lemma InsertedPlace<T>(l: ListValue<T>, x: T)
    requires Valid(l) && x !in l.items
    ensures var r := InsertEnd(l, x);
            var place := if l.index == 0 then |l.items| else l.index - 1;
            && |r.items| == |l.items| + 1 && r.index == (if l.index == 0 then 0 else l.index + 1)
            && (forall k :: 0 <= k < |r.items| ==> (r.items[k] == x <==> k == place))
            && (l.index != 0 ==> r.items[place + 1] == Entry(l))
  {
  }

  // ----- whose turn it is

  /** The items in the order in which further advances come to them. */
  function Upcoming<T>(l: ListValue<T>): (r: seq<T>)
    requires l.index <= |l.items|
    ensures |r| == |l.items|
  {
    l.items[l.index..] + l.items[..l.index]
  }

  lemma UpcomingAt<T>(l: ListValue<T>, j: nat)
    requires l.index <= |l.items| && j < |l.items|
    ensures Upcoming(l)[j] == l.items[if l.index + j < |l.items| then l.index + j else l.index + j - |l.items|]
  {
  }

  /** An advance comes to whoever is next and sends it to the back of the queue. */
  lemma AdvanceTakesTurn<T>(l: ListValue<T>)
    requires 0 < |l.items| && l.index <= |l.items|
    ensures Upcoming(l)[0] == Entry(Advance(l))
    ensures Upcoming(Advance(l)) == Upcoming(l)[1..] + [Upcoming(l)[0]]
  {
    hide Upcoming;
    var r := Advance(l);
    forall j | 0 <= j < |l.items| ensures Upcoming(r)[j] == (Upcoming(l)[1..] + [Upcoming(l)[0]])[j] {
      UpcomingAt(r, j);
      UpcomingAt(l, if j + 1 < |l.items| then j + 1 else 0);
    }
    UpcomingAt(l, 0);
  }

  /** Removal, also of the item the cursor rests on, changes nobody else's turn. */
  lemma RemoveKeepsTurns<T>(l: ListValue<T>, k: nat)
    requires l.index <= |l.items| && k < |l.items|
    ensures var j := if l.index <= k then k - l.index else |l.items| - l.index + k;
            && Upcoming(l)[j] == l.items[k]
            && Upcoming(Remove(l, k)) == RemoveAt(Upcoming(l), j)
  {
    hide Upcoming;
    var j := if l.index <= k then k - l.index else |l.items| - l.index + k;
    var r := Remove(l, k);
    UpcomingAt(l, j);
    forall i | 0 <= i < |l.items| - 1 ensures Upcoming(r)[i] == RemoveAt(Upcoming(l), j)[i] {
      UpcomingAt(r, i);
      UpcomingAt(l, if i < j then i else i + 1);
    }
  }

  /** Insertion at the cursor puts the new item behind everybody but the one that has just had its turn. */
  lemma InsertEndKeepsTurns<T>(l: ListValue<T>, x: T)
    requires l.index <= |l.items|
    ensures Upcoming(InsertEnd(l, x)) == InsertAt(Upcoming(l), if l.index == 0 then |l.items| else |l.items| - 1, x)
  {
    hide Upcoming;
    var r := InsertEnd(l, x);
    var k := if l.index == 0 then |l.items| else |l.items| - 1;
    forall j | 0 <= j < |l.items| + 1 ensures Upcoming(r)[j] == InsertAt(Upcoming(l), k, x)[j] {
      UpcomingAt(r, j);
      if j != k {
        UpcomingAt(l, if j < k then j else j - 1);
      }
    }
  }

  /** Sorted insertion leaves the cursor where it is, and everybody else's turn. */
  lemma InsertBeforeKeepsTurns<T>(l: ListValue<T>, k: nat, x: T)
    requires l.index <= |l.items| && k <= |l.items|
    ensures var j := if l.index <= k then k - l.index else |l.items| - l.index + k;
            Upcoming(InsertBefore(l, k, x)) == InsertAt(Upcoming(l), j, x)
  {
    hide Upcoming;
    var r := InsertBefore(l, k, x);
    var j := if l.index <= k then k - l.index else |l.items| - l.index + k;
    forall i | 0 <= i < |l.items| + 1 ensures Upcoming(r)[i] == InsertAt(Upcoming(l), j, x)[i] {
      UpcomingAt(r, i);
      if i != j {
        UpcomingAt(l, if i < j then i else i - 1);
      }
    }
  }

  lemma InsertBeforeKeepsCursor<T>(l: ListValue<T>, k: nat, x: T)
    requires 0 < l.index <= |l.items| && k <= |l.items|
    ensures InsertBefore(l, k, x).index != 0 && Entry(InsertBefore(l, k, x)) == Entry(l)
  {
  }
}
