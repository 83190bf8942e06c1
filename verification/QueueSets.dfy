/** queue.c: queue sets. A set is a queue of the handles of its members; every message in a member is
    accounted for by exactly one handle, recorded send, or selection, so the set never overflows. */
module QueueSets {
  import opened ListValues

  type Handle = nat

  const UNLOCKED: int := -1

  datatype Member = Member(
    length: nat,
    messages: nat,
    txLock: int,
    /** History: handles selected from the set whose message has not been received yet. */
    selected: nat)

  datatype QueueSet = QueueSet(
    length: nat,
    handles: seq<Handle>,
    /** The queues whose `pxQueueSetContainer` is this set. */
    members: seq<Handle>,
    queues: map<Handle, Member>,
    /** The calls of `xQueueRemoveFromSet` that have found the queue to be a member, and those that
        have then found it empty and are about to take it out. */
    asked: multiset<Handle>,
    removing: multiset<Handle>,
    /** History: the room test of `prvNotifyQueueSetContainer` has failed. */
    refused: bool)

  function Queue(s: QueueSet, h: Handle): Member {
    if h in s.queues then s.queues[h] else Member(0, 0, UNLOCKED, 0)
  }

  function Update(s: QueueSet, h: Handle, m: Member): QueueSet {
    s.(queues := s.queues[h := m])
  }

  /** `prvNotifyQueueSetContainer` */
  function Notify(s: QueueSet, h: Handle, front: bool): QueueSet {
    if |s.handles| < s.length then
      s.(handles := if front then [h] + s.handles else s.handles + [h])
    else
      s.(refused := true)
  }

  /** A send by a task, to the back or the front. */
  function Send(s: QueueSet, h: Handle, front: bool): QueueSet {
    var m := Queue(s, h);
    if m.messages < m.length then
      var r := Update(s, h, m.(messages := m.messages + 1));
      if h in s.members then Notify(r, h, front) else r
    else s
  }

  /** A send by an interrupt: while the queue is locked it is only recorded. */
  function SendFromISR(s: QueueSet, h: Handle, front: bool): QueueSet {
    var m := Queue(s, h);
    if m.messages < m.length then
      if m.txLock == UNLOCKED then Send(s, h, front)
      else Update(s, h, m.(messages := m.messages + 1, txLock := m.txLock + 1))
    else s
  }

  function Lock(s: QueueSet, h: Handle): QueueSet {
    var m := Queue(s, h);
    Update(s, h, m.(txLock := if m.txLock == UNLOCKED then 0 else m.txLock))
  }

  /** The transmit loop of `prvUnlockQueue`: a member posts its handle once for each recorded send. */
  function Post(s: QueueSet, h: Handle, n: nat): QueueSet
    decreases n
  {
    if n == 0 then s
    else
      var r := if h in s.members then Notify(s, h, false) else s;
      Post(Update(r, h, Queue(r, h).(txLock := Queue(r, h).txLock - 1)), h, n - 1)
  }

  function Unlock(s: QueueSet, h: Handle): QueueSet {
    var r := Post(s, h, if 0 < Queue(s, h).txLock then Queue(s, h).txLock else 0);
    Update(r, h, Queue(r, h).(txLock := UNLOCKED))
  }

  /** `xQueueAddToSet` */
  function AddToSet(s: QueueSet, h: Handle): QueueSet {
    if h in s.members || Queue(s, h).messages != 0 then s
    else s.(members := s.members + [h])
  }

  /** The first test of `xQueueRemoveFromSet`, made outside any critical section. */
  function AskToRemove(s: QueueSet, h: Handle): QueueSet {
    if h in s.members then s.(asked := s.asked + multiset{h}) else s
  }

  /** The second test, likewise: the queue has to be empty. */
  function CheckEmpty(s: QueueSet, h: Handle): QueueSet {
    var r := s.(asked := s.asked - multiset{h});
    if Queue(s, h).messages == 0 then r.(removing := r.removing + multiset{h}) else r
  }

  /** Its critical section, which tests nothing. */
  function Clear(s: QueueSet, h: Handle): QueueSet {
    var r := s.(removing := s.removing - multiset{h});
    if h in s.members then r.(members := RemoveAt(s.members, IndexOf(s.members, h))) else r
  }

  /** `xQueueSelectFromSet`, when the set is not empty. */
  function Select(s: QueueSet): QueueSet {
    if s.handles == [] then s
    else
      var h := s.handles[0];
      Update(s, h, Queue(s, h).(selected := Queue(s, h).selected + 1)).(handles := s.handles[1..])
  }

  /** A receive from a member, by a task or an interrupt. */
  function Receive(s: QueueSet, h: Handle): QueueSet {
    var m := Queue(s, h);
    if m.messages == 0 then s
    else Update(s, h, m.(messages := m.messages - 1, selected := if h in s.members && 0 < m.selected then m.selected - 1 else m.selected))
  }

  datatype Step =
    | DoCreate(h: Handle, length: nat)
    | DoAdd(h: Handle)
    | DoRemove(h: Handle) | DoCheckEmpty(h: Handle) | DoClear(h: Handle)
    | DoSend(h: Handle, front: bool) | DoSendFromISR(h: Handle, front: bool)
    | DoLock(h: Handle) | DoUnlock(h: Handle)
    | DoSelect | DoReceive(h: Handle)

  function TotalLength(s: QueueSet, members: seq<Handle>): nat {
    if members == [] then 0 else Queue(s, members[0]).length + TotalLength(s, members[1..])
  }

  /** What the documentation asks of the users of a set: its length covers all its members, and a
      member is received from only after it has been selected. A task joins or leaves queues to the
      set, or sends, only while no task has the queue locked; interrupts can come at any time, and so
      can other tasks between the three parts of a removal. */
  predicate Enabled(s: QueueSet, step: Step) {
    match step
    case DoCreate(h, length) => h !in s.queues && 0 < length
    case DoAdd(h) =>
      h in s.queues && Queue(s, h).txLock == UNLOCKED && TotalLength(s, s.members) + Queue(s, h).length <= s.length
    case DoRemove(h) => h in s.queues && Queue(s, h).txLock == UNLOCKED
    case DoCheckEmpty(h) => h in s.asked && Queue(s, h).txLock == UNLOCKED
    case DoClear(h) => h in s.removing && Queue(s, h).txLock == UNLOCKED
    case DoSend(h, _) => h in s.queues && Queue(s, h).txLock == UNLOCKED
    case DoSendFromISR(h, _) => h in s.queues
    case DoLock(h) => h in s.queues
    case DoUnlock(h) => h in s.queues
    case DoSelect => true
    case DoReceive(h) => h in s.queues && (h in s.members ==> 0 < Queue(s, h).selected)
  }

  function Next(s: QueueSet, step: Step): QueueSet {
    match step
    case DoCreate(h, length) => Update(s, h, Member(length, 0, UNLOCKED, 0))
    case DoAdd(h) => AddToSet(s, h)
    case DoRemove(h) => AskToRemove(s, h)
    case DoCheckEmpty(h) => CheckEmpty(s, h)
    case DoClear(h) => Clear(s, h)
    case DoSend(h, front) => Send(s, h, front)
    case DoSendFromISR(h, front) => SendFromISR(s, h, front)
    case DoLock(h) => Lock(s, h)
    case DoUnlock(h) => Unlock(s, h)
    case DoSelect => Select(s)
    case DoReceive(h) => Receive(s, h)
  }

  // ----- counting

  function Occurrences(handles: seq<Handle>, h: Handle): nat {
    multiset(handles)[h]
  }

  function Total(handles: seq<Handle>, members: seq<Handle>): nat {
    if members == [] then 0 else Occurrences(handles, members[0]) + Total(handles, members[1..])
  }

  lemma {:induction false} TotalAfterOneMore(handles: seq<Handle>, h: Handle, members: seq<Handle>)
    requires Distinct(members)
    ensures Total(handles + [h], members) == Total(handles, members) + if h in members then 1 else 0
  {
    if members != [] {
      assert members == [members[0]] + members[1..];
      TotalAfterOneMore(handles, h, members[1..]);
      if h == members[0] {
        assert h !in members[1..];
      }
    }
  }

  lemma {:induction false} TotalOfNone(members: seq<Handle>)
    ensures Total([], members) == 0
  {
    if members != [] {
      TotalOfNone(members[1..]);
    }
  }

  /** The length of the set is the sum, over the members, of how often each occurs in it. */
  lemma {:induction false} TotalIsLength(handles: seq<Handle>, members: seq<Handle>)
    requires Distinct(members) && forall h :: h in handles ==> h in members
    ensures Total(handles, members) == |handles|
  {
    if handles == [] {
      TotalOfNone(members);
    } else {
      var init := handles[..|handles| - 1];
      var last := handles[|handles| - 1];
      assert handles == init + [last];
      TotalIsLength(init, members);
      TotalAfterOneMore(init, last, members);
    }
  }

  lemma {:induction false} TotalBelow(s: QueueSet, members: seq<Handle>)
    requires forall h :: h in members ==> Occurrences(s.handles, h) <= Queue(s, h).length
    ensures Total(s.handles, members) <= TotalLength(s, members)
    ensures (exists h :: h in members && Occurrences(s.handles, h) < Queue(s, h).length) ==>
              Total(s.handles, members) < TotalLength(s, members)
  {
    if members != [] {
      assert members == [members[0]] + members[1..];
      TotalBelow(s, members[1..]);
    }
  }

  // ----- conservation

  function Recorded(m: Member): nat {
    if 0 < m.txLock then m.txLock else 0
  }

  /** Every message of a member is represented once: by a handle in the set, by a send the lock has
      recorded, or by a selection that has not been followed by its receive. */
  ghost predicate Conserved(s: QueueSet) {
    forall h :: h in s.members ==>
      Occurrences(s.handles, h) + Recorded(Queue(s, h)) + Queue(s, h).selected == Queue(s, h).messages
  }

  ghost predicate Sound(s: QueueSet) {
    && Distinct(s.members)
    && (forall h :: h in s.members ==> h in s.queues)
    && (forall h :: h in s.handles ==> h in s.members)
    && (forall h :: h in s.queues ==> s.queues[h].messages <= s.queues[h].length && UNLOCKED <= s.queues[h].txLock)
    && (forall h :: h in s.queues && h !in s.members ==> s.queues[h].selected == 0)
    && TotalLength(s, s.members) <= s.length
    && !s.refused
  }

  ghost predicate Inv(s: QueueSet) {
    Sound(s) && Conserved(s)
  }

  /** The room test never fails: a member about to post has a message no handle stands for. */
  lemma RoomForHandle(s: QueueSet, h: Handle)
    requires Sound(s) && h in s.members
    requires forall g :: g in s.members ==> Occurrences(s.handles, g) <= Queue(s, g).length
    requires Occurrences(s.handles, h) < Queue(s, h).length
    ensures |s.handles| < s.length
  {
    TotalIsLength(s.handles, s.members);
    TotalBelow(s, s.members);
  }

  lemma {:induction false} SameTotalLength(s: QueueSet, r: QueueSet, members: seq<Handle>)
    requires forall h :: h in members ==> Queue(r, h).length == Queue(s, h).length
    ensures TotalLength(r, members) == TotalLength(s, members)
  {
    if members != [] {
      assert members == [members[0]] + members[1..];
      SameTotalLength(s, r, members[1..]);
    }
  }

  /** A change to one queue that keeps its length. */
  lemma UpdateSound(s: QueueSet, h: Handle, m: Member)
    requires Sound(s) && h in s.queues && m.length == Queue(s, h).length && m.messages <= m.length && UNLOCKED <= m.txLock
    requires h in s.members || m.selected == 0
    ensures Sound(Update(s, h, m))
  {
    SameTotalLength(s, Update(s, h, m), s.members);
  }

  lemma QueueFacts(s: QueueSet, h: Handle)
    requires Sound(s) && h in s.queues
    ensures Queue(s, h).messages <= Queue(s, h).length && UNLOCKED <= Queue(s, h).txLock
    ensures h !in s.members ==> Queue(s, h).selected == 0
  {
  }

  /** A member posts its handle on account of a message that nothing else stands for. */
  lemma NotifyInv(s: QueueSet, h: Handle, m: Member, front: bool)
    requires Sound(s) && h in s.members && m.length == Queue(s, h).length && m.messages <= m.length && UNLOCKED <= m.txLock
    requires forall g :: g in s.members && g != h ==>
               Occurrences(s.handles, g) + Recorded(Queue(s, g)) + Queue(s, g).selected == Queue(s, g).messages
    requires Occurrences(s.handles, h) + 1 + Recorded(m) + m.selected == m.messages
    ensures Inv(Notify(Update(s, h, m), h, front)) && |s.handles| < s.length
  {
    var r := Update(s, h, m);
    UpdateSound(s, h, m);
    RoomForHandle(r, h);
    var q := Notify(r, h, front);
    assert multiset(q.handles) == multiset(r.handles) + multiset{h};
    SameTotalLength(r, q, r.members);
  }

  lemma SendInv(s: QueueSet, h: Handle, front: bool)
    requires Inv(s) && h in s.queues && Queue(s, h).txLock == UNLOCKED
    ensures Inv(Send(s, h, front))
  {
    hide Sound;
    QueueFacts(s, h);
    var m := Queue(s, h);
    if m.messages < m.length {
      if h in s.members {
        NotifyInv(s, h, m.(messages := m.messages + 1), front);
      } else {
        UpdateSound(s, h, m.(messages := m.messages + 1));
      }
    }
  }

  lemma {:induction false} PostInv(s: QueueSet, h: Handle, n: nat)
    requires Inv(s) && h in s.queues && n <= Recorded(Queue(s, h))
    ensures var r := Post(s, h, n);
            Inv(r) && h in r.queues && Queue(r, h).txLock == Queue(s, h).txLock - n
    decreases n
  {
    hide Sound;
    QueueFacts(s, h);
    if n != 0 {
      var m := Queue(s, h);
      var less := m.(txLock := m.txLock - 1);
      var r;
      if h in s.members {
        NotifyInv(s, h, less, false);
        r := Notify(Update(s, h, less), h, false);
        assert r == Update(Notify(s, h, false), h, less);
      } else {
        UpdateSound(s, h, less);
        r := Update(s, h, less);
      }
      hide Inv;
      PostInv(r, h, n - 1);
    }
  }

  lemma UnlockInv(s: QueueSet, h: Handle)
    requires Inv(s) && h in s.queues
    ensures Inv(Unlock(s, h))
  {
    var n := Recorded(Queue(s, h));
    PostInv(s, h, n);
    var r := Post(s, h, n);
    UpdateSound(r, h, Queue(r, h).(txLock := UNLOCKED));
  }

  lemma {:induction false} TotalLengthAppend(s: QueueSet, members: seq<Handle>, h: Handle)
    ensures TotalLength(s, members + [h]) == TotalLength(s, members) + Queue(s, h).length
  {
    if members == [] {
      assert members + [h] == [h];
    } else {
      assert (members + [h])[1..] == members[1..] + [h];
      TotalLengthAppend(s, members[1..], h);
    }
  }

  lemma {:induction false} TotalLengthRemove(s: QueueSet, members: seq<Handle>, k: nat)
    requires k < |members|
    ensures TotalLength(s, RemoveAt(members, k)) <= TotalLength(s, members)
    decreases k
  {
    if k == 0 {
      assert RemoveAt(members, 0) == members[1..];
    } else {
      assert RemoveAt(members, k)[1..] == RemoveAt(members[1..], k - 1);
      TotalLengthRemove(s, members[1..], k - 1);
    }
  }

  lemma AddInv(s: QueueSet, h: Handle)
    requires Inv(s) && Enabled(s, DoAdd(h))
    ensures Inv(AddToSet(s, h))
  {
    if h !in s.members && Queue(s, h).messages == 0 {
      var r := AddToSet(s, h);
      TotalLengthAppend(s, s.members, h);
      SameTotalLength(s, r, s.members + [h]);
      assert Occurrences(s.handles, h) == 0;
    }
  }

  lemma TestsInv(s: QueueSet, h: Handle)
    requires Inv(s)
    ensures Inv(AskToRemove(s, h)) && Inv(CheckEmpty(s, h))
  {
    SameTotalLength(s, AskToRemove(s, h), s.members);
    SameTotalLength(s, CheckEmpty(s, h), s.members);
  }

  /** A removal is clean when the queue, if it is still a member, still holds nothing at the time it is
      taken out. */
  predicate Clean(s: QueueSet, h: Handle) {
    h in s.members ==> Queue(s, h).messages == 0
  }

  lemma CleanRemovalInv(s: QueueSet, h: Handle)
    requires Inv(s) && Enabled(s, DoClear(h)) && h in s.members && Queue(s, h).messages == 0
    ensures Inv(Clear(s, h))
  {
    var r := Clear(s, h);
    var k := IndexOf(s.members, h);
    RemoveAtMembers(s.members, k);
    TotalLengthRemove(s, s.members, k);
    SameTotalLength(s, r, r.members);
    hide IndexOf, RemoveAt, Distinct, TotalLength;
    assert Occurrences(s.handles, h) == 0;
  }

  /** Taking a queue out of the set keeps the conservation exactly when the removal is clean: whatever
      the queue holds by then is left behind as a handle of a stranger, or a selection of one. */
  lemma RemovalIsSafeExactly(s: QueueSet, h: Handle)
    requires Inv(s) && Enabled(s, DoClear(h))
    ensures Inv(Clear(s, h)) <==> Clean(s, h)
  {
    var r := Clear(s, h);
    if h !in s.members {
      SameTotalLength(s, r, r.members);
    } else if Clean(s, h) {
      CleanRemovalInv(s, h);
    } else {
      RemoveAtMembers(s.members, IndexOf(s.members, h));
      if Occurrences(s.handles, h) != 0 {
        assert h in r.handles && h !in r.members;
      } else {
        assert Queue(r, h).selected != 0 && h in r.queues && h !in r.members;
      }
    }
  }

  lemma SelectSound(s: QueueSet)
    requires Sound(s) && s.handles != []
    ensures Sound(Select(s)) && s.handles[0] in s.queues && s.handles[0] in s.members
  {
    var h := s.handles[0];
    assert s.handles == [h] + s.handles[1..];
    var m := Queue(s, h).(selected := Queue(s, h).selected + 1);
    UpdateSound(s, h, m);
    SameTotalLength(Update(s, h, m), Select(s), s.members);
  }

  lemma SelectInv(s: QueueSet)
    requires Inv(s)
    ensures Inv(Select(s))
  {
    hide Sound;
    if s.handles != [] {
      SelectSound(s);
      assert s.handles == [s.handles[0]] + s.handles[1..];
      assert multiset(s.handles) == multiset{s.handles[0]} + multiset(s.handles[1..]);
    }
  }

  lemma CreateInv(s: QueueSet, h: Handle, length: nat)
    requires Inv(s) && h !in s.queues
    ensures Inv(Update(s, h, Member(length, 0, UNLOCKED, 0)))
  {
    SameTotalLength(s, Update(s, h, Member(length, 0, UNLOCKED, 0)), s.members);
  }

  /** A send while the queue is locked is recorded. */
  lemma SendFromISRInv(s: QueueSet, h: Handle, front: bool)
    requires Inv(s) && h in s.queues
    ensures Inv(SendFromISR(s, h, front))
  {
    hide Sound;
    QueueFacts(s, h);
    var m := Queue(s, h);
    if m.txLock == UNLOCKED {
      SendInv(s, h, front);
    } else if m.messages < m.length {
      UpdateSound(s, h, m.(messages := m.messages + 1, txLock := m.txLock + 1));
    }
  }

  lemma LockInv(s: QueueSet, h: Handle)
    requires Inv(s) && h in s.queues
    ensures Inv(Lock(s, h))
  {
    hide Sound;
    QueueFacts(s, h);
    UpdateSound(s, h, Queue(Lock(s, h), h));
  }

  lemma ReceiveInv(s: QueueSet, h: Handle)
    requires Inv(s) && Enabled(s, DoReceive(h))
    ensures Inv(Receive(s, h))
  {
    hide Sound;
    QueueFacts(s, h);
    UpdateSound(s, h, Queue(Receive(s, h), h));
  }

  /** Every step keeps the conservation, but for the removal of a queue that has been sent to since it was
      found empty. */
  lemma StepInv(s: QueueSet, step: Step)
    requires Inv(s) && Enabled(s, step)
    ensures Inv(Next(s, step)) <==> (step.DoClear? ==> Clean(s, step.h))
  {
    hide Inv, Send, SendFromISR, Lock, Unlock, AddToSet, AskToRemove, CheckEmpty, Clear, Clean, Select, Receive;
    match step
    case DoCreate(h, length) => CreateInv(s, h, length);
    case DoAdd(h) => AddInv(s, h);
    case DoRemove(h) => TestsInv(s, h);
    case DoCheckEmpty(h) => TestsInv(s, h);
    case DoClear(h) => RemovalIsSafeExactly(s, h);
    case DoSend(h, front) => SendInv(s, h, front);
    case DoSendFromISR(h, front) => SendFromISRInv(s, h, front);
    case DoLock(h) => LockInv(s, h);
    case DoUnlock(h) => UnlockInv(s, h);
    case DoSelect => SelectInv(s);
    case DoReceive(h) => ReceiveInv(s, h);
  }

  // ----- runs

  function Fresh(length: nat): QueueSet {
    QueueSet(length, [], [], map[], multiset{}, multiset{}, false)
  }

  function After(length: nat, steps: seq<Step>): QueueSet {
    if steps == [] then Fresh(length) else Next(After(length, steps[..|steps| - 1]), steps[|steps| - 1])
  }

  predicate Legal(length: nat, steps: seq<Step>) {
    steps == [] ||
    (Legal(length, steps[..|steps| - 1]) && Enabled(After(length, steps[..|steps| - 1]), steps[|steps| - 1]))
  }

  /** The conservation holds in every state of the run. */
  ghost predicate Conserving(length: nat, steps: seq<Step>) {
    Inv(After(length, steps)) && (steps != [] ==> Conserving(length, steps[..|steps| - 1]))
  }

  /** Every removal of the run is clean. */
  predicate CleanRemovals(length: nat, steps: seq<Step>) {
    steps == [] ||
    (CleanRemovals(length, steps[..|steps| - 1])
     && (steps[|steps| - 1].DoClear? ==> Clean(After(length, steps[..|steps| - 1]), steps[|steps| - 1].h)))
  }

  /** Over all runs: every message of a member is represented exactly once, in every state, if and only
      if every removal is clean. */
  lemma {:induction false} HandlesAreConserved(length: nat, steps: seq<Step>)
    requires Legal(length, steps)
    ensures Conserving(length, steps) <==> CleanRemovals(length, steps)
    decreases |steps|
  {
    if steps != [] {
      var init := steps[..|steps| - 1];
      HandlesAreConserved(length, init);
      hide Enabled, Next, Inv, Clean;
      if Conserving(length, init) {
        ConservingNow(length, init);
        StepInv(After(length, init), steps[|steps| - 1]);
      }
    }
  }

  lemma ConservingNow(length: nat, steps: seq<Step>)
    requires Conserving(length, steps)
    ensures Inv(After(length, steps))
  {
  }

  /** And then the set never refuses a handle. In particular this is so in every run without removals. */
  lemma SetNeverRefuses(length: nat, steps: seq<Step>)
    requires Legal(length, steps) && CleanRemovals(length, steps)
    ensures var s := After(length, steps);
            && !s.refused && |s.handles| <= s.length
            && (forall h :: h in s.handles ==> h in s.members)
            && (forall h :: h in s.members ==>
                 Occurrences(s.handles, h) + Recorded(Queue(s, h)) + Queue(s, h).selected == Queue(s, h).messages)
  {
    HandlesAreConserved(length, steps);
    ConservingNow(length, steps);
    var s := After(length, steps);
    hide After, Legal, CleanRemovals, Conserving;
    TotalIsLength(s.handles, s.members);
    TotalBelow(s, s.members);
  }

  // ----- what the users of a set can do about it

  /** Nobody sends to a queue while it is being taken out. */
  predicate Quiet(length: nat, steps: seq<Step>) {
    steps == [] ||
    (Quiet(length, steps[..|steps| - 1])
     && var last := steps[|steps| - 1];
        (last.DoSend? || last.DoSendFromISR?) ==> last.h !in After(length, steps[..|steps| - 1]).removing)
  }

  lemma {:induction false} QuietKeepsEmpty(length: nat, steps: seq<Step>, h: Handle)
    requires Legal(length, steps) && Quiet(length, steps)
    ensures h in After(length, steps).removing ==> Queue(After(length, steps), h).messages == 0
    decreases |steps|
  {
    if steps != [] {
      var init := steps[..|steps| - 1];
      QuietKeepsEmpty(length, init, h);
      QuietStep(After(length, init), steps[|steps| - 1], h);
    }
  }

  /** What unlocking a queue leaves alone. */
  ghost predicate Elsewhere(s: QueueSet, r: QueueSet, h: Handle) {
    && (forall g {:trigger Queue(r, g)} :: g != h ==> Queue(r, g) == Queue(s, g))
    && Queue(r, h).messages == Queue(s, h).messages && Queue(r, h).length == Queue(s, h).length
    && r.removing == s.removing && r.members == s.members
  }

  lemma PostOnce(s: QueueSet, h: Handle, m: Member)
    requires m.messages == Queue(s, h).messages && m.length == Queue(s, h).length
    ensures Elsewhere(s, Update(if h in s.members then Notify(s, h, false) else s, h, m), h)
  {
  }

  lemma {:induction false} PostKeeps(s: QueueSet, h: Handle, n: nat)
    ensures Elsewhere(s, Post(s, h, n), h)
    decreases n
  {
    hide Notify, Update;
    if n != 0 {
      var r := if h in s.members then Notify(s, h, false) else s;
      NotifyKeepsQueues(s, h);
      PostOnce(s, h, Queue(r, h).(txLock := Queue(r, h).txLock - 1));
      PostKeeps(Update(r, h, Queue(r, h).(txLock := Queue(r, h).txLock - 1)), h, n - 1);
    }
  }

  lemma NotifyKeepsQueues(s: QueueSet, h: Handle)
    ensures Queue(Notify(s, h, false), h) == Queue(s, h)
  {
  }

  lemma UnlockKeeps(s: QueueSet, h: Handle)
    ensures Elsewhere(s, Unlock(s, h), h)
  {
    hide Post;
    var n := if 0 < Queue(s, h).txLock then Queue(s, h).txLock else 0;
    PostKeeps(s, h, n);
    var r := Post(s, h, n);
    assert forall g :: g != h ==> Queue(Unlock(s, h), g) == Queue(r, g);
  }

  lemma QuietStep(s: QueueSet, step: Step, h: Handle)
    requires Enabled(s, step)
    requires (step.DoSend? || step.DoSendFromISR?) ==> step.h !in s.removing
    requires h in s.removing ==> Queue(s, h).messages == 0
    ensures h in Next(s, step).removing ==> Queue(Next(s, step), h).messages == 0
  {
    if step.DoSend? || step.DoSendFromISR? {
      hide Notify;
      NotifyKeepsAll();
    } else if step.DoUnlock? {
      hide Unlock;
      UnlockKeeps(s, step.h);
    }
  }

  /** If nobody sends to a queue that is being taken out, every removal is clean, and so the set conserves
      its handles and never refuses one. */
  lemma {:induction false} QuietRemovalsAreClean(length: nat, steps: seq<Step>)
    requires Legal(length, steps) && Quiet(length, steps)
    ensures CleanRemovals(length, steps) && Conserving(length, steps)
    decreases |steps|
  {
    if steps != [] {
      var init := steps[..|steps| - 1];
      QuietRemovalsAreClean(length, init);
      hide Next;
      if steps[|steps| - 1].DoClear? {
        QuietKeepsEmpty(length, init, steps[|steps| - 1].h);
      }
    }
    HandlesAreConserved(length, steps);
  }

  /** A send to the queue: while it is neither locked nor received from, the first one leaves a message. */
  predicate SendsTo(step: Step, h: Handle) {
    (step.DoSend? || step.DoSendFromISR?) && step.h == h
  }

  function From(s: QueueSet, steps: seq<Step>): QueueSet {
    if steps == [] then s else Next(From(s, steps[..|steps| - 1]), steps[|steps| - 1])
  }

  predicate LegalFrom(s: QueueSet, steps: seq<Step>) {
    steps == [] ||
    (LegalFrom(s, steps[..|steps| - 1]) && Enabled(From(s, steps[..|steps| - 1]), steps[|steps| - 1]))
  }

  /** Nothing in between takes the message of `h` away again, hides it in the lock, or takes a queue out. */
  predicate LeavesAlone(step: Step, h: Handle) {
    !step.DoClear? && ((step.DoReceive? || step.DoLock? || step.DoUnlock?) ==> step.h != h)
  }

  lemma {:induction false} MessagesAreSends(s: QueueSet, steps: seq<Step>, h: Handle)
    requires Inv(s) && h in s.members && Queue(s, h).messages == 0 && 0 < Queue(s, h).length && Queue(s, h).txLock == UNLOCKED
    requires LegalFrom(s, steps) && forall k :: 0 <= k < |steps| ==> LeavesAlone(steps[k], h)
    ensures var r := From(s, steps);
            && Inv(r) && h in r.members && 0 < Queue(r, h).length && Queue(r, h).txLock == UNLOCKED
            && (Queue(r, h).messages == 0 <==> forall k :: 0 <= k < |steps| ==> !SendsTo(steps[k], h))
    decreases |steps|
  {
    hide Inv, Queue, Next, Enabled, LeavesAlone, SendsTo;
    if steps != [] {
      var init := steps[..|steps| - 1];
      var last := steps[|steps| - 1];
      MessagesAreSends(s, init, h);
      var m := From(s, init);
      AloneStep(m, last, h);
      assert From(s, steps) == Next(m, last);
      assert steps == init + [last];
      hide From, LegalFrom;
      assert (forall k :: 0 <= k < |steps| ==> !SendsTo(steps[k], h)) <==>
             (forall k :: 0 <= k < |init| ==> !SendsTo(init[k], h)) && !SendsTo(last, h);
    }
  }

  lemma AloneStep(s: QueueSet, step: Step, h: Handle)
    requires Inv(s) && Enabled(s, step) && LeavesAlone(step, h) && h in s.members
    requires 0 < Queue(s, h).length && Queue(s, h).txLock == UNLOCKED
    ensures var r := Next(s, step);
            && Inv(r) && h in r.members && 0 < Queue(r, h).length && Queue(r, h).txLock == UNLOCKED
            && (Queue(r, h).messages == 0 <==> Queue(s, h).messages == 0 && !SendsTo(step, h))
  {
    hide Inv, Enabled, Next, SendsTo;
    StepInv(s, step);
    MemberExists(s, h);
    OneSend(s, step, h);
  }

  lemma NotifyKeepsAll()
    ensures forall q: QueueSet, h: Handle, front: bool :: Notify(q, h, front).queues == q.queues && Notify(q, h, front).members == q.members
  {
  }

  lemma SendToOne(s: QueueSet, step: Step, h: Handle)
    requires Enabled(s, step) && (step.DoSend? || step.DoSendFromISR?) && h in s.members && h in s.queues
    requires 0 < Queue(s, h).length && Queue(s, h).txLock == UNLOCKED
    ensures var r := Next(s, step);
            && h in r.members && Queue(r, h).length == Queue(s, h).length && Queue(r, h).txLock == UNLOCKED
            && (Queue(r, h).messages == 0 <==> Queue(s, h).messages == 0 && !SendsTo(step, h))
  {
    hide Notify;
    NotifyKeepsAll();
  }

  lemma OneSend(s: QueueSet, step: Step, h: Handle)
    requires Enabled(s, step) && LeavesAlone(step, h) && h in s.members && h in s.queues
    requires 0 < Queue(s, h).length && Queue(s, h).txLock == UNLOCKED
    ensures var r := Next(s, step);
            && h in r.members && Queue(r, h).length == Queue(s, h).length && Queue(r, h).txLock == UNLOCKED
            && (Queue(r, h).messages == 0 <==> Queue(s, h).messages == 0 && !SendsTo(step, h))
  {
    if step.DoSend? || step.DoSendFromISR? {
      SendToOne(s, step, h);
    } else if step.DoUnlock? {
      hide Unlock;
      UnlockKeeps(s, step.h);
    }
  }

  /** A removal during which the queue is neither received from nor locked is safe exactly when nobody
      sends to the queue between the test that finds it empty and the critical section. */
  lemma RemovalIsSafeIfNobodySends(s: QueueSet, steps: seq<Step>, h: Handle)
    requires Inv(s) && Enabled(s, DoCheckEmpty(h)) && h in s.members && Queue(s, h).messages == 0 && 0 < Queue(s, h).length
    requires LegalFrom(CheckEmpty(s, h), steps) && forall k :: 0 <= k < |steps| ==> LeavesAlone(steps[k], h)
    ensures var r := From(CheckEmpty(s, h), steps);
            && Enabled(r, DoClear(h))
            && (Inv(Clear(r, h)) <==> forall k :: 0 <= k < |steps| ==> !SendsTo(steps[k], h))
  {
    hide Inv, From, LegalFrom, Clear;
    TestsInv(s, h);
    var m := CheckEmpty(s, h);
    MessagesAreSends(m, steps, h);
    StillRemoving(m, steps, h);
    RemovalIsSafeExactly(From(m, steps), h);
  }

  lemma {:induction false} StillRemoving(s: QueueSet, steps: seq<Step>, h: Handle)
    requires LegalFrom(s, steps) && h in s.removing && forall k :: 0 <= k < |steps| ==> LeavesAlone(steps[k], h)
    ensures h in From(s, steps).removing
    decreases |steps|
  {
    if steps != [] {
      var init := steps[..|steps| - 1];
      var last := steps[|steps| - 1];
      StillRemoving(s, init, h);
      hide From, LegalFrom, Unlock;
      if last.DoUnlock? {
        UnlockKeeps(From(s, init), last.h);
      }
    }
  }

  /** A run in which somebody does: member 1, and the set, have length 1. An interrupt sends to the member
      after it was found empty; it leaves the set with its handle still in it, is received from, joins
      again, and the next message finds the set full. */
  function UncleanRemoval(): seq<Step> {
    [DoCreate(1, 1), DoAdd(1), DoRemove(1), DoCheckEmpty(1), DoSendFromISR(1, false), DoClear(1),
     DoReceive(1), DoAdd(1), DoSend(1, false)]
  }

  /** A set of length 1 and its one queue, of length 1. */
  function Small(handles: seq<Handle>, members: seq<Handle>, messages: nat, asked: multiset<Handle>, removing: multiset<Handle>): QueueSet {
    QueueSet(1, handles, members, map[1 := Member(1, messages, UNLOCKED, 0)], asked, removing, false)
  }

  predicate Does(s: QueueSet, step: Step, r: QueueSet) {
    Enabled(s, step) && Next(s, step) == r
  }

  lemma SmallJoins()
    ensures Does(Fresh(1), DoCreate(1, 1), Small([], [], 0, multiset{}, multiset{}))
    ensures Does(Small([], [], 0, multiset{}, multiset{}), DoAdd(1), Small([], [1], 0, multiset{}, multiset{}))
  {
  }

  lemma SmallIsAsked()
    ensures Does(Small([], [1], 0, multiset{}, multiset{}), DoRemove(1), Small([], [1], 0, multiset{1}, multiset{}))
    ensures Does(Small([], [1], 0, multiset{1}, multiset{}), DoCheckEmpty(1), Small([], [1], 0, multiset{}, multiset{1}))
  {
    assert multiset{1} - multiset{1} == multiset{} && multiset{} + multiset{1} == multiset{1};
  }

  lemma SmallIsSentTo()
    ensures Does(Small([], [1], 0, multiset{}, multiset{1}), DoSendFromISR(1, false), Small([1], [1], 1, multiset{}, multiset{1}))
  {
    assert [] + [1] == [1];
  }

  lemma SmallLeaves()
    ensures Does(Small([1], [1], 1, multiset{}, multiset{1}), DoClear(1), Small([1], [], 1, multiset{}, multiset{}))
  {
    assert IndexOf([1], 1) == 0 && RemoveAt([1], 0) == [];
    assert multiset{1} - multiset{1} == multiset{};
  }

  lemma SmallReturns()
    ensures Does(Small([1], [], 1, multiset{}, multiset{}), DoReceive(1), Small([1], [], 0, multiset{}, multiset{}))
    ensures Does(Small([1], [], 0, multiset{}, multiset{}), DoAdd(1), Small([1], [1], 0, multiset{}, multiset{}))
  {
  }

  lemma SmallIsFull()
    ensures Does(Small([1], [1], 0, multiset{}, multiset{}), DoSend(1, false), Small([1], [1], 1, multiset{}, multiset{}).(refused := true))
  {
  }

  lemma UncleanRemovalRefuses()
    ensures Legal(1, UncleanRemoval()) && After(1, UncleanRemoval()).refused
    ensures !CleanRemovals(1, UncleanRemoval())
  {
    hide Legal, After, CleanRemovals, Does, Small, Fresh;
    var steps := UncleanRemoval();
    SmallJoins();
    SmallIsAsked();
    SmallIsSentTo();
    SmallLeaves();
    SmallReturns();
    SmallIsFull();
    RunStarts(1);
    assert steps[..0] == [];
    var none: multiset<Handle> := multiset{};
    RunGoesOn(1, steps, 0, Small([], [], 0, none, none));
    RunGoesOn(1, steps, 1, Small([], [1], 0, none, none));
    RunGoesOn(1, steps, 2, Small([], [1], 0, multiset{1}, none));
    RunGoesOn(1, steps, 3, Small([], [1], 0, none, multiset{1}));
    RunGoesOn(1, steps, 4, Small([1], [1], 1, none, multiset{1}));
    RunGoesOn(1, steps, 5, Small([1], [], 1, none, none));
    RunGoesOn(1, steps, 6, Small([1], [], 0, none, none));
    RunGoesOn(1, steps, 7, Small([1], [1], 0, none, none));
    RunGoesOn(1, steps, 8, Small([1], [1], 1, none, none).(refused := true));
    assert steps[..9] == steps;
    if CleanRemovals(1, steps) {
      SetNeverRefuses(1, steps);
    }
  }

  lemma RunStarts(length: nat)
    ensures Legal(length, []) && After(length, []) == Fresh(length)
  {
  }

  lemma RunGoesOn(length: nat, steps: seq<Step>, k: nat, r: QueueSet)
    requires k < |steps| && Legal(length, steps[..k]) && Does(After(length, steps[..k]), steps[k], r)
    ensures Legal(length, steps[..k + 1]) && After(length, steps[..k + 1]) == r
  {
    hide Enabled, Next;
    assert steps[..k + 1][..k] == steps[..k];
  }

  // ----- in place

  class SetState {
    const length: nat
    var handles: seq<Handle>
    var members: seq<Handle>
    var queues: map<Handle, Member>
    ghost var asked: multiset<Handle>
    ghost var removing: multiset<Handle>
    ghost var refused: bool

    ghost function State(): QueueSet
      reads this
    {
      QueueSet(length, handles, members, queues, asked, removing, refused)
    }

    /** `prvNotifyQueueSetContainer`. For a member that has an unrepresented message the test for
        room succeeds. */
    method NotifyContainer(h: Handle, front: bool) returns (posted: bool)
      modifies `handles, `refused
      ensures State() == Notify(old(State()), h, front) && posted == (|old(handles)| < length)
    {
      posted := false;
      if |handles| < length {
        handles := if front then [h] + handles else handles + [h];
        posted := true;
      } else {
        refused := true;
      }
    }

    /** The transmit half of `prvUnlockQueue` for a member of a set. */
    method UnlockMember(h: Handle)
      requires Inv(State()) && h in members
      modifies `handles, `queues, `refused
      ensures Inv(State()) && State() == Unlock(old(State()), h)
    {
      hide Inv, Post, Notify, Unlock;
      ghost var s := State();
      MemberExists(s, h);
      UnlockInv(s, h);
      while queues[h].txLock > 0
        invariant Inv(State()) && h in queues && h in members
        invariant Post(s, h, Recorded(Queue(s, h))) == Post(State(), h, Recorded(queues[h]))
        decreases queues[h].txLock
      {
        UnlockOnce(State(), h);
        var posted := NotifyContainer(h, false);
        queues := queues[h := queues[h].(txLock := queues[h].txLock - 1)];
      }
      UnlockEnds(s, State(), h);
      queues := queues[h := queues[h].(txLock := UNLOCKED)];
    }
  }

  lemma UnlockOnce(s: QueueSet, h: Handle)
    requires Inv(s) && h in s.members && h in s.queues && 0 < Queue(s, h).txLock
    ensures var q := Notify(s, h, false);
            var r := Update(q, h, Queue(s, h).(txLock := Queue(s, h).txLock - 1));
            && Inv(r) && q.queues == s.queues && q == s.(handles := q.handles, refused := q.refused)
            && Post(s, h, Recorded(Queue(s, h))) == Post(r, h, Recorded(Queue(r, h)))
  {
    hide Inv;
    PostInv(s, h, 1);
    NotifyKeepsAll();
  }

  lemma UnlockEnds(s: QueueSet, m: QueueSet, h: Handle)
    requires h in m.queues && Queue(m, h).txLock <= 0
    requires Post(s, h, Recorded(Queue(s, h))) == Post(m, h, Recorded(Queue(m, h)))
    ensures Unlock(s, h) == Update(m, h, Queue(m, h).(txLock := UNLOCKED))
  {
  }

  lemma MemberExists(s: QueueSet, h: Handle)
    requires Inv(s) && h in s.members
    ensures h in s.queues
  {
  }
}
