/** event_groups.c: the rendezvous that `xEventGroupSync` promises. Each of several tasks owns some
    bits of one mask; in each round every task sets its own bits and waits for the whole mask. */
module Barrier {
  import opened EventGroups

  /** The tasks are numbered from 0; task `t` owns the bits `own[t]`. */
  predicate Owned(own: seq<EventBits>) {
    && own != []
    && (forall t :: 0 <= t < |own| ==> own[t] != 0 && Plain(own[t]))
    && (forall t, u :: 0 <= t < |own| && 0 <= u < |own| && t != u ==> And(own[t], own[u]) == 0)
  }

  /** The bits of those of the first `k` tasks that are in `inside`. */
  function Union(own: seq<EventBits>, inside: set<Task>, k: nat): EventBits
    requires k <= |own|
  {
    if k == 0 then 0 else Or(Union(own, inside, k - 1), if k - 1 in inside then own[k - 1] else 0)
  }

  function UpTo(n: nat): (r: set<Task>)
    ensures forall t: Task :: t in r <==> t < n
  {
    if n == 0 then {} else UpTo(n - 1) + {n - 1}
  }

  function Everyone(own: seq<EventBits>): set<Task> {
    UpTo(|own|)
  }

  function Mask(own: seq<EventBits>): EventBits {
    Union(own, Everyone(own), |own|)
  }

  datatype Rendezvous = Rendezvous(
    own: seq<EventBits>,
    group: Group,
    /** Histories: the rounds each task has entered and left, what it was given when it last left,
        and the rounds completed. */
    entered: seq<nat>,
    left: seq<nat>,
    seen: seq<EventBits>,
    rounds: nat)

  /** A task calls `xEventGroupSync`: it leaves at once if it completes the rendezvous. */
  function Enter(b: Rendezvous, t: Task): Rendezvous
    requires t < |b.own| && |b.entered| == |b.left| == |b.seen| == |b.own|
  {
    var mask := Mask(b.own);
    var r := b.(group := Sync(b.group, t, b.own[t], mask, true), entered := b.entered[t := b.entered[t] + 1]);
    if Complete(b.group.bits, b.own[t], mask) then
      r.(left := b.left[t := b.left[t] + 1], seen := b.seen[t := Or(b.group.bits, b.own[t])], rounds := b.rounds + 1)
    else r
  }

  /** A woken task runs, and its call returns. */
  function Leave(b: Rendezvous, t: Task): Rendezvous
    requires t < |b.own| && |b.entered| == |b.left| == |b.seen| == |b.own|
  {
    b.(group := Resume(b.group, t), left := b.left[t := b.left[t] + 1], seen := b.seen[t := Returned(b.group, t)])
  }

  datatype Step = DoEnter(t: Task) | DoLeave(t: Task)

  predicate Enabled(b: Rendezvous, step: Step) {
    && |b.entered| == |b.left| == |b.seen| == |b.own|
    && step.t < |b.own|
    && if step.DoEnter? then step.t !in b.group.calls else step.t in b.group.calls && b.group.calls[step.t].Woken?
  }

  function Next(b: Rendezvous, step: Step): Rendezvous
    requires Enabled(b, step)
  {
    if step.DoEnter? then Enter(b, step.t) else Leave(b, step.t)
  }

  // ----- the bits of a set of tasks

  lemma WordFacts(x: EventBits, y: EventBits, o: EventBits)
    ensures And(x, o) == 0 && And(y, o) == 0 ==> And(Or(x, y), o) == 0
    ensures And(x, o) == o || And(y, o) == o ==> And(Or(x, y), o) == o
    ensures And(o, o) == o && And(0, o) == 0
  {
    AndOr(x, y, o);
    OrOfNone();
    OrOfPart(x, o);
    OrOfPart(y, o);
    OrCommutes(And(x, o), And(y, o));
    AndSelf(o);
    hide And, Or;
  }

  lemma AreWords(x: EventBits, y: EventBits)
    ensures And(x, y) == x & y && Or(x, y) == x | y
  {
  }

  lemma Distributes(x: bv32, y: bv32, o: bv32)
    ensures (x | y) & o == (x & o) | (y & o)
  {
  }

  lemma AndOr(x: EventBits, y: EventBits, o: EventBits)
    ensures And(Or(x, y), o) == Or(And(x, o), And(y, o))
  {
    hide And, Or;
    AreWords(x, y);
    AreWords(x, o);
    AreWords(y, o);
    AreWords(x | y, o);
    AreWords(x & o, y & o);
    Distributes(x, y, o);
  }

  lemma OrOfNone()
    ensures Or(0, 0) == 0
  {
  }

  /** Nothing within `o` adds to all of `o`. */
  lemma OrOfPart(x: EventBits, o: EventBits)
    ensures Or(o, And(x, o)) == o
  {
  }

  lemma OrCommutes(x: EventBits, y: EventBits)
    ensures Or(x, y) == Or(y, x)
  {
  }

  lemma AndSelf(o: EventBits)
    ensures And(o, o) == o && And(0, o) == 0
  {
  }

  lemma OrSwaps(x: EventBits, y: EventBits, z: EventBits)
    ensures Or(Or(x, y), z) == Or(Or(x, z), y)
    ensures Or(x, 0) == x
  {
  }

  lemma MissingBits(u: EventBits, m: EventBits, o: EventBits)
    requires And(u, o) == 0 && And(m, o) == o && o != 0
    ensures And(u, m) != m
  {
  }

  lemma MaskCleared(m: EventBits, c: EventBits)
    ensures Minus(Minus(m, c), m) == 0 && And(m, m) == m && Minus(m, 0) == m
  {
  }

  lemma {:induction false} UnionAdds(own: seq<EventBits>, inside: set<Task>, t: Task, k: nat)
    requires k <= |own| && t !in inside && t < |own|
    ensures Union(own, inside + {t}, k) == if t < k then Or(Union(own, inside, k), own[t]) else Union(own, inside, k)
  {
    hide Or;
    if k != 0 {
      UnionAdds(own, inside, t, k - 1);
      OrSwaps(Union(own, inside, k - 1), own[t], if k - 1 in inside then own[k - 1] else 0);
      OrSwaps(Union(own, inside, k - 1), own[t], 0);
    }
  }

  /** The bits of a set of tasks hold a task's bits entirely or not at all. */
  lemma {:induction false} UnionHolds(own: seq<EventBits>, inside: set<Task>, t: Task, k: nat)
    requires Owned(own) && k <= |own| && t < |own|
    ensures And(Union(own, inside, k), own[t]) == if t in inside && t < k then own[t] else 0
  {
    hide And, Or, Plain;
    WordFacts(0, 0, own[t]);
    if k != 0 {
      UnionHolds(own, inside, t, k - 1);
      WordFacts(Union(own, inside, k - 1), if k - 1 in inside then own[k - 1] else 0, own[t]);
    }
  }

  lemma {:induction false} UnionPlain(own: seq<EventBits>, inside: set<Task>, k: nat)
    requires Owned(own) && k <= |own|
    ensures Plain(Union(own, inside, k))
  {
    hide And, Or, Plain;
    PlainBits(own[0], own[0], 0);
    if k != 0 {
      UnionPlain(own, inside, k - 1);
      PlainBits(Union(own, inside, k - 1), if k - 1 in inside then own[k - 1] else 0, 0);
    }
  }

  lemma {:induction false} EmptyUnion(own: seq<EventBits>, k: nat)
    requires k <= |own|
    ensures Union(own, {}, k) == 0
  {
    hide Or;
    if k != 0 {
      EmptyUnion(own, k - 1);
      OrSwaps(0, 0, 0);
    }
  }

  /** The rendezvous is complete exactly when everyone is in it. */
  lemma CompleteWhenAllInside(own: seq<EventBits>, inside: set<Task>)
    requires Owned(own) && inside <= Everyone(own)
    ensures And(Union(own, inside, |own|), Mask(own)) == Mask(own) <==> inside == Everyone(own)
  {
    hide And, Or, Plain;
    var missing := Everyone(own) - inside;
    if missing == {} {
      assert forall t :: t in Everyone(own) ==> t in missing || t in inside;
      MaskCleared(Mask(own), 0);
    } else {
      var t :| t in missing;
      UnionHolds(own, inside, t, |own|);
      UnionHolds(own, Everyone(own), t, |own|);
      MissingBits(Union(own, inside, |own|), Mask(own), own[t]);
    }
  }

  // ----- the invariant

  function Inside(b: Rendezvous): set<Task> {
    set t | 0 <= t < |b.entered| && b.entered[t] == b.rounds + 1
  }

  /** Where one task is: in the round that is being gathered, woken from the last and about to leave
      it, or outside. */
  ghost predicate Standing(b: Rendezvous, t: Task)
    requires t < |b.own| && |b.entered| == |b.left| == |b.seen| == |b.own|
  {
    if t in b.group.calls then
      if b.entered[t] == b.rounds + 1 then
        b.left[t] == b.rounds && b.group.calls[t] == Blocked(Wait(Mask(b.own), true, true))
      else
        b.entered[t] == b.rounds == b.left[t] + 1 && b.group.calls[t] == Woken(Stored(Mask(b.own)))
    else
      b.entered[t] == b.rounds == b.left[t]
  }

  ghost predicate Gathering(b: Rendezvous) {
    && |b.entered| == |b.left| == |b.seen| == |b.own|
    && (forall t :: t in b.group.calls ==> t < |b.own|)
    && (forall t :: 0 <= t < |b.own| ==> Standing(b, t))
    && (forall t {:trigger b.seen[t]} :: 0 <= t < |b.own| && 0 < b.left[t] ==> b.seen[t] == Mask(b.own))
    && b.group.bits == Union(b.own, Inside(b), |b.own|)
  }

  ghost predicate Inv(b: Rendezvous) {
    Owned(b.own) && Listed(b.group) && Gathering(b)
  }

  /** Everybody who waits waits for the whole mask. */
  lemma WaitersWantMask(b: Rendezvous, bits: EventBits, w: Waiter)
    requires Inv(b) && w in b.group.waiting
    ensures w.value == Encoded(Wait(Mask(b.own), true, true))
    ensures Matches(w.value, bits) <==> And(bits, Mask(b.own)) == Mask(b.own)
  {
    hide And, Or, Minus, Matches, Encoded, Mask;
    assert b.group.calls[w.task].Blocked?;
    assert Standing(b, w.task);
    ScanReadsWait(Wait(Mask(b.own), true, true), bits) by { MaskPlain(b.own); }
  }

  lemma MaskPlain(own: seq<EventBits>)
    requires Owned(own)
    ensures Plain(Mask(own)) && Mask(own) != 0
  {
    hide And, Or, Plain;
    UnionPlain(own, Everyone(own), |own|);
    UnionHolds(own, Everyone(own), 0, |own|);
    WordFacts(0, 0, own[0]);
  }

  lemma {:induction false} NoneMatches(list: seq<Waiter>, bits: EventBits)
    requires forall w :: w in list ==> !Matches(w.value, bits)
    ensures Kept(list, bits) == list && Matched(list, bits) == [] && ToClear(list, bits) == 0
  {
    hide And, Or, Minus, Matches, Clears;
    if list != [] {
      assert list == [list[0]] + list[1..];
      NoneMatches(list[1..], bits);
      OrSwaps(0, 0, 0);
    }
  }

  lemma Entering(b: Rendezvous, t: Task)
    requires Inv(b) && t < |b.own| && t !in b.group.calls
    ensures t !in Inside(b) && Inside(b) <= Everyone(b.own)
    ensures Or(b.group.bits, b.own[t]) == Union(b.own, Inside(b) + {t}, |b.own|)
    ensures Complete(b.group.bits, b.own[t], Mask(b.own)) <==> Inside(b) + {t} == Everyone(b.own)
    ensures b.entered[t] == b.rounds == b.left[t]
  {
    hide And, Or, Plain, Mask, Union;
    assert Standing(b, t);
    UnionAdds(b.own, Inside(b), t, |b.own|);
    CompleteWhenAllInside(b.own, Inside(b) + {t});
  }

  /** While the rendezvous is not complete nobody's condition is met. */
  lemma NobodyMet(b: Rendezvous, bits: EventBits)
    requires Inv(b) && And(bits, Mask(b.own)) != Mask(b.own)
    ensures forall w :: w in b.group.waiting ==> !Matches(w.value, bits)
  {
    hide And, Matches, Mask, Inv;
    forall w | w in b.group.waiting ensures !Matches(w.value, bits) {
      WaitersWantMask(b, bits, w);
    }
  }

  lemma BitsListed(g: Group, bits: EventBits)
    requires Listed(g)
    ensures Listed(g.(bits := bits))
  {
  }

  lemma InsideMore(b: Rendezvous, r: Rendezvous, t: Task)
    requires t < |b.entered| && r.entered == b.entered[t := b.entered[t] + 1] && r.rounds == b.rounds == b.entered[t]
    ensures Inside(r) == Inside(b) + {t}
  {
  }

  /** Where the tasks stand when `t` has joined those who wait. */
  lemma EnteredStanding(b: Rendezvous, r: Rendezvous, t: Task, u: Task)
    requires |b.entered| == |b.left| == |b.seen| == |b.own| && t < |b.own| && u < |b.own| && Standing(b, u)
    requires t !in b.group.calls && b.entered[t] == b.rounds == b.left[t]
    requires r == b.(group := r.group, entered := b.entered[t := b.entered[t] + 1])
    requires r.group.calls == b.group.calls[t := Blocked(Wait(Mask(b.own), true, true))]
    ensures Standing(r, u)
  {
    hide Mask, Stored;
  }

  /** A task that is not the last joins those waiting, and nobody is woken. */
  lemma EnterWaits(b: Rendezvous, t: Task)
    requires Inv(b) && t < |b.own| && t !in b.group.calls && !Complete(b.group.bits, b.own[t], Mask(b.own))
    ensures Inv(Enter(b, t))
  {
    hide And, Or, Minus, Matches, Encoded, Mask, Plain, Union, Inside, Standing, Listed;
    Entering(b, t);
    var bits := Or(b.group.bits, b.own[t]);
    NobodyMet(b, bits);
    NoneMatches(b.group.waiting, bits);
    MaskCleared(bits, 0);
    var r := Enter(b, t);
    assert SetBits(b.group, b.own[t]) == b.group.(bits := bits);
    MaskPlain(b.own);
    BitsListed(b.group, bits);
    PlaceListed(b.group.(bits := bits), t, Wait(Mask(b.own), true, true));
    InsideMore(b, r, t);
    forall u | 0 <= u < |b.own| ensures Standing(r, u) {
      EnteredStanding(b, r, t, u);
    }
  }

  lemma PlaceListed(g: Group, t: Task, w: Wait)
    requires Listed(g) && t !in g.calls && Plain(w.mask)
    ensures Listed(Place(g, t, w))
  {
    hide Encoded, Plain;
    var r := Place(g, t, w);
    assert forall v :: v in r.waiting <==> v in g.waiting || v == Waiter(t, Encoded(w));
  }

  lemma Completing(b: Rendezvous, t: Task)
    requires Inv(b) && t < |b.own| && t !in b.group.calls && Complete(b.group.bits, b.own[t], Mask(b.own))
    ensures Or(b.group.bits, b.own[t]) == Mask(b.own)
    ensures Matches(Encoded(Wait(Mask(b.own), true, true)), Mask(b.own))
  {
    Entering(b, t);
    hide And, Or, Minus, Matches, Encoded, Plain, Inv;
    MaskPlain(b.own) by { InvOwned(b); }
    ScanReadsWait(Wait(Mask(b.own), true, true), Mask(b.own));
    MaskCleared(Mask(b.own), 0);
  }

  lemma InvOwned(b: Rendezvous)
    requires Inv(b)
    ensures Owned(b.own)
  {
  }

  /** The last task to arrive wakes everybody, with the full mask, and leaves no bit behind. */
  lemma EnterCompletes(b: Rendezvous, t: Task)
    requires Inv(b) && t < |b.own| && t !in b.group.calls && Complete(b.group.bits, b.own[t], Mask(b.own))
    ensures Inv(Enter(b, t))
  {
    hide And, Or, Minus, Matches, Encoded, Mask, Plain, Union, Stored, Complete;
    Entering(b, t);
    Completing(b, t);
    MaskCleared(Mask(b.own), ToClear(b.group.waiting, Mask(b.own)));
    SetBitsListed(b.group, b.own[t]);
    var r := Enter(b, t);
    EmptyUnion(b.own, |b.own|);
    assert Inside(r) == {} by {
      forall u | 0 <= u < |b.own| ensures r.entered[u] != r.rounds + 1 {
        assert Standing(b, u);
      }
    }
    forall u | 0 <= u < |b.own| ensures Standing(r, u) {
      SetBitsWakes(b.group, b.own[t], u);
      assert Standing(b, u);
      assert u in Everyone(b.own);
    }
    forall u | u in r.group.calls ensures u < |b.own| {
      SetBitsWakes(b.group, b.own[t], u);
    }
  }

  lemma LeaveInv(b: Rendezvous, t: Task)
    requires Inv(b) && Enabled(b, DoLeave(t))
    ensures Inv(Leave(b, t))
  {
    assert Standing(b, t);
    StoredReadsBack(Mask(b.own)) by { MaskPlain(b.own); }
    hide And, Or, Minus, Encoded, Mask, Plain, Union, Stored, Met;
    var r := Leave(b, t);
    assert Inside(r) == Inside(b);
    forall u | 0 <= u < |b.own| ensures Standing(r, u) {
      assert Standing(b, u);
    }
  }

  lemma StepInv(b: Rendezvous, step: Step)
    requires Inv(b) && Enabled(b, step)
    ensures Inv(Next(b, step)) && Next(b, step).own == b.own
  {
    hide Inv, Sync, Complete, Resume, Returned, Mask, Or;
    if step.DoEnter? {
      if Complete(b.group.bits, b.own[step.t], Mask(b.own)) {
        EnterCompletes(b, step.t);
      } else {
        EnterWaits(b, step.t);
      }
    } else {
      LeaveInv(b, step.t);
    }
  }

  // ----- runs

  function Fresh(own: seq<EventBits>): Rendezvous {
    var zeros := seq(|own|, _ => 0);
    Rendezvous(own, Group(0, [], map[]), zeros, zeros, seq(|own|, _ => 0 as bv32), 0)
  }

  datatype Run = Start(own: seq<EventBits>) | Then(before: Run, step: Step)

  predicate Legal(run: Run)
    decreases run, 0
  {
    match run
    case Start(own) => Owned(own)
    case Then(before, step) => Legal(before) && Enabled(After(before), step)
  }

  function After(run: Run): Rendezvous
    requires Legal(run)
    decreases run, 1
  {
    match run
    case Start(own) => Fresh(own)
    case Then(before, step) => Next(After(before), step)
  }

  lemma FreshInv(own: seq<EventBits>)
    requires Owned(own)
    ensures Inv(Fresh(own))
  {
    hide And, Or, Plain, Mask;
    assert Inside(Fresh(own)) == {};
    EmptyUnion(own, |own|);
  }

  lemma {:induction false} RunInv(run: Run)
    requires Legal(run)
    ensures Inv(After(run))
  {
    match run
    case Start(own) => FreshInv(own);
    case Then(before, step) =>
      hide Inv, Enabled, Next;
      RunInv(before);
      StepInv(After(before), step);
  }

  /** Barrier safety, over every run: no task has left more rounds than any other has entered, so none
      leaves a round before all have entered it; whoever has left a round was given the full mask; and
      whenever all tasks have entered the same number of rounds and the round is complete, no bit of
      the mask is set, so the next round begins clear. */
  lemma BarrierIsSafe(run: Run, t: Task, u: Task)
    requires Legal(run)
    requires t < |After(run).own| && u < |After(run).own|
    ensures var b := After(run);
            && |b.entered| == |b.left| == |b.seen| == |b.own|
            && b.left[t] <= b.rounds <= b.entered[u]
            && (0 < b.left[t] ==> b.seen[t] == Mask(b.own))
            && ((forall v :: 0 <= v < |b.own| ==> b.entered[v] == b.rounds) ==> b.group.bits == 0)
  {
    RunInv(run);
    hide Legal, After, And, Or, Plain, Mask;
    var b := After(run);
    assert Standing(b, t);
    assert Standing(b, u);
    if forall v :: 0 <= v < |b.own| ==> b.entered[v] == b.rounds {
      assert Inside(b) == {};
      EmptyUnion(b.own, |b.own|);
    }
  }
}
