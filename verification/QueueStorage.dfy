/** queue.c: the storage area of a queue, a ring of fixed-size items in a byte array, refines a
    bounded sequence of items. */
module QueueStorage {
  type Bytes = seq<bv8>

  datatype Option<T> = None | Some(value: T)

  datatype Position = SendToBack | SendToFront | Overwrite

  // ----- the ring as a value

  /** `length` slots; the next item to read is in the slot after `read`, the next to write at the
      back goes to slot `write`. */
  datatype Ring = Ring(slots: seq<Bytes>, read: nat, write: nat, count: nat)

  predicate WellFormed(r: Ring) {
    && r.read < |r.slots| && r.write < |r.slots| && r.count <= |r.slots|
    && r.write == Wrap(r.read + 1 + r.count, |r.slots|)
  }

  /** Reduction of a position that has run past the end of the ring, at most once round and one more. */
  function Wrap(i: nat, n: nat): (r: nat)
    requires i <= 2 * n && 0 < n
    ensures r < n
  {
    if i < n then i else if i < 2 * n then i - n else 0
  }

  function Contents(r: Ring): (c: seq<Bytes>)
    requires WellFormed(r)
    ensures |c| == r.count
    ensures forall k :: 0 <= k < |c| ==> c[k] == r.slots[Wrap(r.read + 1 + k, |r.slots|)]
  {
    seq(r.count, k requires 0 <= k < r.count => r.slots[Wrap(r.read + 1 + k, |r.slots|)])
  }

  function WriteBack(r: Ring, x: Bytes): Ring
    requires WellFormed(r)
  {
    Ring(r.slots[r.write := x], r.read, if r.write + 1 < |r.slots| then r.write + 1 else 0, r.count + 1)
  }

  function WriteFront(r: Ring, x: Bytes): Ring
    requires WellFormed(r)
  {
    Ring(r.slots[r.read := x], if r.read == 0 then |r.slots| - 1 else r.read - 1, r.write, r.count + 1)
  }

  function ReadFront(r: Ring): Ring
    requires WellFormed(r) && 0 < r.count
  {
    r.(read := if r.read + 1 < |r.slots| then r.read + 1 else 0, count := r.count - 1)
  }

  /** Different items are in different slots, and the next free slot at either end is nobody's. */
  lemma WrapApart(n: nat, i: nat, j: nat)
    requires 0 < n && i < j < i + n && j < 2 * n
    ensures Wrap(i, n) != Wrap(j, n)
  {
  }

  /** A write at the back appends, across the wrap or not. */
  lemma WriteBackAppends(r: Ring, x: Bytes)
    requires WellFormed(r) && r.count < |r.slots|
    ensures WellFormed(WriteBack(r, x)) && Contents(WriteBack(r, x)) == Contents(r) + [x]
  {
    var n := |r.slots|;
    var r' := WriteBack(r, x);
    forall k | 0 <= k < r.count ensures Contents(r')[k] == Contents(r)[k] {
      WrapApart(n, r.read + 1 + k, r.read + 1 + r.count);
    }
  }

  lemma PlaceMovesOn(read: nat, moved: nat, k: nat, n: nat)
    requires read < n && k < n && moved == if read == 0 then n - 1 else read - 1
    ensures Wrap(moved + 1 + (k + 1), n) == Wrap(read + 1 + k, n)
  {
  }

  lemma FrontWellFormed(r: Ring, x: Bytes)
    requires WellFormed(r) && r.count < |r.slots|
    ensures WellFormed(WriteFront(r, x)) && |Contents(WriteFront(r, x))| == r.count + 1
    ensures Wrap(WriteFront(r, x).read + 1, |r.slots|) == r.read
  {
  }

  lemma FrontKept(r: Ring, x: Bytes, k: nat)
    requires WellFormed(r) && k < r.count < |r.slots| && WellFormed(WriteFront(r, x))
    ensures Contents(WriteFront(r, x))[k + 1] == Contents(r)[k]
  {
    PlaceMovesOn(r.read, WriteFront(r, x).read, k, |r.slots|);
    WrapApart(|r.slots|, r.read, r.read + 1 + k);
    hide Wrap;
  }

  /** A write at the front prepends. */
  lemma WriteFrontPrepends(r: Ring, x: Bytes)
    requires WellFormed(r) && r.count < |r.slots|
    ensures WellFormed(WriteFront(r, x)) && Contents(WriteFront(r, x)) == [x] + Contents(r)
  {
    FrontWellFormed(r, x);
    var r' := WriteFront(r, x);
    forall k | 0 <= k < r.count ensures Contents(r')[k + 1] == Contents(r)[k] {
      FrontKept(r, x, k);
    }
    assert Contents(r')[0] == x;
    hide Contents, WriteFront, Wrap;
  }

  /** A read takes the front item. */
  lemma ReadFrontPops(r: Ring)
    requires WellFormed(r) && 0 < r.count
    ensures WellFormed(ReadFront(r)) && Contents(ReadFront(r)) == Contents(r)[1..]
    ensures Contents(r)[0] == r.slots[ReadFront(r).read]
  {
  }

  // ----- the ring in bytes

  /** Where slot `i` starts. */
  function Offset(i: nat, size: nat): nat {
    i * size
  }

  lemma OffsetNext(i: nat, size: nat)
    ensures Offset(i + 1, size) == Offset(i, size) + size
    ensures Offset(0, size) == 0
  {
  }

  lemma OffsetsApart(i: nat, j: nat, size: nat)
    requires i < j
    ensures Offset(i, size) + size <= Offset(j, size)
  {
    assert (j - i - 1) * size >= 0;
    assert j * size == i * size + size + (j - i - 1) * size;
  }

  /** The bytes of slot `i`. */
  function Slot(bytes: Bytes, i: nat, size: nat): Bytes {
    if Offset(i, size) + size <= |bytes| then bytes[Offset(i, size)..Offset(i, size) + size] else []
  }

  /** The slots a byte array holds. */
  function SlotsOf(bytes: Bytes, n: nat, size: nat): (r: seq<Bytes>)
    ensures |r| == n
    ensures forall i :: 0 <= i < n ==> r[i] == Slot(bytes, i, size)
  {
    seq(n, i requires 0 <= i < n => Slot(bytes, i, size))
  }

  /** Overwriting the bytes of one slot changes that slot alone. */
  lemma SlotWritten(bytes: Bytes, n: nat, size: nat, i: nat, x: Bytes)
    requires Offset(n, size) <= |bytes| && i < n && |x| == size
    ensures Offset(i, size) + size <= |bytes|
    ensures SlotsOf(bytes[..Offset(i, size)] + x + bytes[Offset(i, size) + size..], n, size) == SlotsOf(bytes, n, size)[i := x]
  {
    hide Offset;
    OffsetsApart(i, n, size);
    var after := bytes[..Offset(i, size)] + x + bytes[Offset(i, size) + size..];
    forall j | 0 <= j < n ensures SlotsOf(after, n, size)[j] == SlotsOf(bytes, n, size)[i := x][j] {
      OffsetsApart(j, n, size);
      if j < i {
        OffsetsApart(j, i, size);
      } else if i < j {
        OffsetsApart(i, j, size);
      }
    }
  }

  /** What a send does to the sequence a queue stands for. */
  function Sent(contents: seq<Bytes>, item: Bytes, position: Position): seq<Bytes> {
    match position
    case SendToBack => contents + [item]
    case SendToFront => [item] + contents
    case Overwrite => [item]
  }

  /** A use of a queue: an item put in, or the front item taken. */
  datatype Use = Put(item: Bytes, position: Position) | Take

  predicate CanDo(contents: seq<Bytes>, use: Use) {
    use.Take? ==> contents != []
  }

  function Held(uses: seq<Use>): seq<Bytes>
    requires Fits(uses)
    decreases |uses|, 1
  {
    if uses == [] then []
    else
      var before := Held(uses[..|uses| - 1]);
      match uses[|uses| - 1]
      case Put(item, position) => Sent(before, item, position)
      case Take => before[1..]
  }

  predicate Fits(uses: seq<Use>)
    decreases |uses|, 0
  {
    uses == [] || (Fits(uses[..|uses| - 1]) && CanDo(Held(uses[..|uses| - 1]), uses[|uses| - 1]))
  }

  /** The items put in, and those taken out, in order. */
  function PutIn(uses: seq<Use>): seq<Bytes> {
    if uses == [] then []
    else
      var last := uses[|uses| - 1];
      PutIn(uses[..|uses| - 1]) + if last.Put? then [last.item] else []
  }

  function TakenOut(uses: seq<Use>): seq<Bytes>
    requires Fits(uses)
  {
    if uses == [] then []
    else
      var init := uses[..|uses| - 1];
      TakenOut(init) + if uses[|uses| - 1].Take? then [Held(init)[0]] else []
  }

  /** First in, first out: while everything is sent to the back, what has been taken followed by what is held
      is what was put in. */
  lemma {:induction false} FirstInFirstOut(uses: seq<Use>)
    requires Fits(uses) && forall i :: 0 <= i < |uses| && uses[i].Put? ==> uses[i].position == SendToBack
    ensures TakenOut(uses) + Held(uses) == PutIn(uses)
    decreases |uses|
  {
    if uses != [] {
      var init := uses[..|uses| - 1];
      FirstInFirstOut(init);
      var last := uses[|uses| - 1];
      if last.Take? {
        TakesFirst(TakenOut(init), Held(init));
      } else {
        assert last.position == SendToBack;
        GoesLast(TakenOut(init), Held(init), last.item);
      }
    }
  }

  lemma TakesFirst(taken: seq<Bytes>, held: seq<Bytes>)
    requires held != []
    ensures (taken + [held[0]]) + held[1..] == taken + held
  {
  }

  lemma GoesLast(taken: seq<Bytes>, held: seq<Bytes>, item: Bytes)
    ensures (taken + []) + (held + [item]) == (taken + held) + [item]
  {
  }

  /** An item sent to the front is the next to be taken, and then the queue is as it was; one that overwrites
      is the next to be taken, and then nothing is left. */
  lemma FrontIsNext(uses: seq<Use>, item: Bytes)
    requires Fits(uses)
    ensures var urgent := uses + [Put(item, SendToFront), Take];
            Fits(urgent) && TakenOut(urgent) == TakenOut(uses) + [item] && Held(urgent) == Held(uses)
    ensures var newest := uses + [Put(item, Overwrite), Take];
            Fits(newest) && TakenOut(newest) == TakenOut(uses) + [item] && Held(newest) == []
  {
    PutThenTake(uses, item, SendToFront);
    PutThenTake(uses, item, Overwrite);
    assert ([item] + Held(uses))[1..] == Held(uses);
  }

  lemma PutThenTake(uses: seq<Use>, item: Bytes, position: Position)
    requires Fits(uses) && Sent(Held(uses), item, position) != []
    ensures var all := uses + [Put(item, position), Take];
            && Fits(all) && Held(all) == Sent(Held(uses), item, position)[1..]
            && TakenOut(all) == TakenOut(uses) + [Sent(Held(uses), item, position)[0]]
  {
    hide Sent;
    var one := uses + [Put(item, position)];
    var all := uses + [Put(item, position), Take];
    assert one[..|uses|] == uses && all[..|uses| + 1] == one;
    assert Fits(one) && Held(one) == Sent(Held(uses), item, position);
    assert TakenOut(one) == TakenOut(uses) + [];
  }

  class Queue {
    /** `pcHead` and the bytes after it; `pcTail` is the offset `tail`. */
    const storage: array<bv8>
    const length: nat
    const itemSize: nat
    const tail: nat
    /** `pcWriteTo` and `u.pcReadFrom`, as offsets from `pcHead`. */
    var writeTo: nat
    var readFrom: nat
    var messagesWaiting: nat
    /** The slots those offsets are at. */
    ghost var write: nat
    ghost var read: nat

    ghost predicate Valid()
      reads this, storage
    {
      && 0 < length && tail == Offset(length, itemSize) && tail + 1 == storage.Length
      && (itemSize > 0 ==>
            && writeTo == Offset(write, itemSize) && readFrom == Offset(read, itemSize)
            && WellFormed(Slots()))
      && (itemSize == 0 ==> tail == 0 && writeTo == 0 && readFrom == 0)
    }

    ghost function Slots(): Ring
      reads this, storage
    {
      Ring(SlotsOf(storage[..], length, itemSize), read, write, messagesWaiting)
    }

    /** The items in the order they will be received. A semaphore's items have no bytes. */
    ghost function Value(): (v: seq<Bytes>)
      reads this, storage
      requires Valid()
      ensures |v| == messagesWaiting
    {
      if itemSize > 0 then Contents(Slots()) else seq(messagesWaiting, _ => [])
    }

    /** `xQueueGenericCreate`, with the reset of a new queue. */
    constructor (length: nat, itemSize: nat)
      requires 0 < length
      ensures Valid() && this.length == length && this.itemSize == itemSize && Value() == []
      ensures fresh(storage)
    {
      this.length := length;
      this.itemSize := itemSize;
      tail := length * itemSize;
      storage := new bv8[length * itemSize + 1];
      messagesWaiting := 0;
      writeTo := 0;
      readFrom := (length - 1) * itemSize;
      write := 0;
      read := length - 1;
      new;
      OffsetNext(0, itemSize);
    }

    /** `memcpy` into the storage area. */
    method CopyIn(offset: nat, item: Bytes)
      requires offset + |item| <= storage.Length
      modifies storage
      ensures storage[..] == old(storage[..offset]) + item + old(storage[offset + |item|..])
    {
      ghost var was := storage[..];
      var i := 0;
      while i < |item|
        invariant i <= |item|
        invariant forall k :: 0 <= k < storage.Length ==> storage[k] == if offset <= k < offset + i then item[k - offset] else was[k]
      {
        storage[offset + i] := item[i];
        i := i + 1;
      }
    }

    method PutSlot(offset: nat, ghost slot: nat, item: Bytes)
      requires Offset(length, itemSize) < storage.Length && slot < length && offset == Offset(slot, itemSize) && |item| == itemSize
      modifies storage
      ensures SlotsOf(storage[..], length, itemSize) == old(SlotsOf(storage[..], length, itemSize))[slot := item]
    {
      hide Offset, SlotsOf;
      OffsetsApart(slot, length, itemSize);
      SlotWritten(storage[..], length, itemSize, slot, item);
      CopyIn(offset, item);
    }

    /** The back of `prvCopyDataToQueue`: the item goes to the free slot at the back, and the write
        position moves on, from the end of the area to its start. */
    method CopyToBack(item: Bytes)
      requires Valid() && |item| == itemSize && 0 < itemSize && messagesWaiting < length
      modifies storage, `writeTo, `write, `messagesWaiting
      ensures Valid() && Value() == old(Value()) + [item]
    {
      hide Offset, Contents, SlotsOf;
      ghost var ring := Slots();
      WriteBackAppends(ring, item);
      OffsetNext(write, itemSize);
      PutSlot(writeTo, write, item);
      writeTo := writeTo + itemSize;
      write := write + 1;
      if write < length {
        OffsetsApart(write, length, itemSize);
      }
      if writeTo >= tail {
        writeTo := 0;
        write := 0;
      }
      messagesWaiting := messagesWaiting + 1;
      assert Slots() == WriteBack(ring, item);
    }

    /** The front of `prvCopyDataToQueue`: the item goes where the last one was read from, and the
        read position moves back, from the start of the area to its last slot. */
    method CopyToFront(item: Bytes)
      requires Valid() && |item| == itemSize && 0 < itemSize
      modifies storage, `readFrom, `read
      ensures itemSize > 0 && tail == Offset(length, itemSize) && tail + 1 == storage.Length
      ensures readFrom == Offset(read, itemSize) && writeTo == Offset(write, itemSize)
      ensures Slots().(count := messagesWaiting + 1) == WriteFront(old(Slots()), item)
    {
      hide Offset, Contents, SlotsOf;
      OffsetNext(0, itemSize);
      PutSlot(readFrom, read, item);
      if read > 0 {
        OffsetsApart(0, read, itemSize);
        OffsetNext(read - 1, itemSize);
      }
      OffsetNext(length - 1, itemSize);
      if readFrom < itemSize {
        readFrom := tail - itemSize;
        read := length - 1;
      } else {
        readFrom := readFrom - itemSize;
        read := read - 1;
      }
    }

    /** `prvCopyDataToQueue` for a queue that is not a mutex. */
    method CopyTo(item: Bytes, position: Position)
      requires Valid() && |item| == itemSize
      requires position.Overwrite? ==> length == 1
      requires messagesWaiting < length || position.Overwrite?
      modifies this, storage
      ensures Valid()
      ensures 0 < itemSize ==> Value() == Sent(old(Value()), item, position)
      ensures 0 == itemSize ==> Value() == old(Value()) + [item]
    {
      hide Offset, Contents, SlotsOf;
      if itemSize == 0 {
        messagesWaiting := messagesWaiting + 1;
      } else if position.SendToBack? {
        CopyToBack(item);
      } else {
        ghost var ring := Slots();
        CopyToFront(item);
        if position.Overwrite? {
          if messagesWaiting > 0 {
            messagesWaiting := messagesWaiting - 1;
          }
          OverwriteReplaces(ring, item);
        } else {
          WriteFrontPrepends(ring, item);
        }
        messagesWaiting := messagesWaiting + 1;
      }
    }

    /** The read position moves on to the front item, from the end of the area to its start. */
    method AdvanceRead()
      requires Valid()
      modifies `readFrom, `read
      ensures 0 < itemSize ==> readFrom == Offset(read, itemSize) && read == if old(read) + 1 < length then old(read) + 1 else 0
      ensures 0 == itemSize ==> readFrom == 0
    {
      hide Offset, Contents, SlotsOf;
      if itemSize > 0 {
        OffsetNext(read, itemSize);
        OffsetNext(0, itemSize);
        if read + 1 < length {
          OffsetsApart(read + 1, length, itemSize);
        }
      }
      readFrom := readFrom + itemSize;
      read := read + 1;
      if readFrom >= tail {
        readFrom := 0;
        read := 0;
      }
    }

    /** `prvCopyDataFromQueue` for a queue that is not a mutex: the read position moves to the front
        item and its bytes are copied out. The caller adjusts the count. */
    method CopyFrom() returns (item: Bytes)
      requires Valid() && 0 < messagesWaiting
      modifies `readFrom, `read
      ensures item == old(Value())[0]
      ensures 0 < itemSize ==> readFrom == Offset(read, itemSize) && Slots().(count := messagesWaiting - 1) == ReadFront(old(Slots()))
      ensures 0 == itemSize ==> readFrom == 0
    {
      hide Offset, Contents, SlotsOf;
      ghost var ring := Slots();
      AdvanceRead();
      if itemSize > 0 {
        ReadFrontPops(ring);
        OffsetsApart(read, length, itemSize);
        assert ring.slots[read] == Slot(storage[..], read, itemSize);
      }
      item := storage[readFrom..readFrom + itemSize];
    }

    /** The copying part of `xQueueGenericSend`: refused when the queue is full, unless the item is
        to be overwritten. */
    method Send(item: Bytes, position: Position) returns (sent: bool)
      requires Valid() && |item| == itemSize
      requires position.Overwrite? ==> length == 1
      modifies this, storage
      ensures Valid() && sent == (old(messagesWaiting) < length || position.Overwrite?)
      ensures !sent ==> Value() == old(Value())
      ensures sent && 0 < itemSize ==> Value() == Sent(old(Value()), item, position)
      ensures sent && 0 == itemSize ==> Value() == old(Value()) + [item]
      ensures sent ==> (Value() == Sent(old(Value()), item, position) <==> 0 < itemSize || !position.Overwrite? || old(Value()) == [])
    {
      if messagesWaiting < length || position.Overwrite? {
        if itemSize == 0 {
          OverwriteOfSemaphore(Value(), item, position);
        }
        CopyTo(item, position);
        sent := true;
      } else {
        sent := false;
      }
    }

    /** The copying part of `xQueueGenericReceive`: the front item, removed unless it is only peeked
        at, when nothing changes. */
    method Receive(peek: bool) returns (item: Option<Bytes>)
      requires Valid()
      modifies this
      ensures Valid()
      ensures item == if old(Value()) == [] then None else Some(old(Value())[0])
      ensures Value() == if old(Value()) == [] || peek then old(Value()) else old(Value())[1..]
    {
      hide Offset, Contents, SlotsOf;
      if messagesWaiting > 0 {
        var original := readFrom;
        ghost var originalRead := read;
        if itemSize > 0 {
          ReadFrontPops(Slots());
        }
        var bytes := CopyFrom();
        item := Some(bytes);
        if !peek {
          messagesWaiting := messagesWaiting - 1;
        } else {
          readFrom := original;
          read := originalRead;
        }
      } else {
        item := None;
      }
    }
  }

  /** A ring of one slot: writing at the front replaces whatever was there. */
  lemma OverwriteReplaces(r: Ring, x: Bytes)
    requires WellFormed(r) && |r.slots| == 1
    ensures var r' := WriteFront(r, x).(count := 1); WellFormed(r') && Contents(r') == [x]
  {
  }

  /** Overwriting replaces the item of a full queue of length one, unless the items have no bytes:
      then the count passes the length. So a send does what it says, at every position, exactly
      when it is not an overwrite of a full semaphore. */
  lemma OverwriteOfSemaphore(contents: seq<Bytes>, item: Bytes, position: Position)
    requires item == [] && (forall k :: 0 <= k < |contents| ==> contents[k] == [])
    ensures contents + [item] == Sent(contents, item, position) <==> !position.Overwrite? || contents == []
  {
    assert contents + [item] == [item] + contents;
  }

  /** The failing call: an overwrite of a full semaphore, a queue of length one whose items have no bytes,
      is not refused and leaves two messages in it. */
  method OverwriteFullSemaphore() returns (q: Queue)
    ensures fresh(q) && q.Valid() && q.length == 1 && q.itemSize == 0
    ensures q.messagesWaiting == 2 && q.Value() == [[], []]
  {
    q := new Queue(1, 0);
    var first := q.Send([], SendToBack);
    var second := q.Send([], Overwrite);
  }
}
