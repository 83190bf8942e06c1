/** event_groups.c, seen bit by bit: which bits each call sets and which it takes away, and how the
    standing of each task changes. Over every run these laws fix what is set, who waits and what every
    call returns. */
module EventGroupBits {
  import opened EventGroups

  predicate Single(b: EventBits) {
    b != 0 && b & (b - 1) == 0
  }

  predicate Has(x: EventBits, b: EventBits) {
    x & b != 0
  }

  /** A word has all of a single bit or none of it. */
  lemma AllOrNone(x: EventBits, b: EventBits)
    requires b & (b - 1) == 0
    ensures And(x, b) == 0 || And(x, b) == b
  {
  }

  lemma AndApart(x: EventBits, y: EventBits, b: EventBits)
    ensures And(And(x, y), b) == And(And(x, b), And(y, b))
  {
  }

  lemma KeptPart(x: EventBits, y: EventBits, b: EventBits)
    requires And(y, b) == 0
    ensures And(Minus(x, y), b) == And(x, b)
  {
  }

  lemma LostPart(x: EventBits, y: EventBits, b: EventBits)
    requires And(y, b) == b
    ensures And(Minus(x, y), b) == 0
  {
  }

  lemma AndParts(b: EventBits)
    ensures And(b, b) == b && And(b, 0) == 0 && And(0, b) == 0 && And(0, 0) == 0
  {
  }

  lemma WordBits(x: EventBits, y: EventBits, b: EventBits)
    requires Single(b)
    ensures Has(And(x, y), b) <==> Has(x, b) && Has(y, b)
    ensures Has(Or(x, y), b) <==> Has(x, b) || Has(y, b)
    ensures Has(Minus(x, y), b) <==> Has(x, b) && !Has(y, b)
    ensures !Has(0, b)
  {
    hide And, Or, Minus, Has;
    AllOrNone(x, b);
    AllOrNone(y, b);
    AndApart(x, y, b);
    AndParts(b);
    OrMeets(x, y, b);
    if And(y, b) == 0 {
      KeptPart(x, y, b);
    } else {
      LostPart(x, y, b);
    }
    forall w: EventBits ensures Has(w, b) <==> And(w, b) != 0 {
      HasIsAnd(w, b);
    }
  }

  lemma HasIsAnd(x: EventBits, b: EventBits)
    ensures And(x, b) != 0 <==> Has(x, b)
  {
  }

  lemma LowestBit(x: EventBits)
    requires x != 0
    ensures Single(x & (0 - x)) && Has(x, x & (0 - x))
  {
  }

  lemma NotAll(bits: EventBits, mask: EventBits)
    ensures And(bits, mask) == mask ==> Minus(mask, bits) == 0
    ensures Minus(mask, bits) == 0 ==> And(bits, mask) == mask
  {
    if And(bits, mask) == mask {
      NoneLeft(bits, mask);
    } else if Minus(mask, bits) == 0 {
      AllThere(bits, mask);
    }
  }

  lemma NoneLeft(bits: EventBits, mask: EventBits)
    requires bits & mask == mask
    ensures mask & !bits == 0
  {
  }

  lemma AllThere(bits: EventBits, mask: EventBits)
    requires mask & !bits == 0
    ensures bits & mask == mask
  {
  }

  /** A wait for all bits is met when every bit of the mask is set, a wait for any when one is. */
  lemma MetExactly(bits: EventBits, w: Wait)
    ensures Met(bits, w) <==>
            if w.all then forall b :: Single(b) && Has(w.mask, b) ==> Has(bits, b)
            else exists b :: Single(b) && Has(w.mask, b) && Has(bits, b)
  {
    hide And, Minus, Single, Has;
    var left := if w.all then Minus(w.mask, bits) else And(bits, w.mask);
    NotAll(bits, w.mask);
    forall b | Single(b) ensures Has(left, b) <==> Has(w.mask, b) && (Has(bits, b) <==> !w.all) ensures !Has(0, b) {
      WordBits(w.mask, bits, b);
      WordBits(bits, w.mask, b);
    }
    if left != 0 {
      LowestBit(left);
    }
  }

  // ----- the bits of the group

  /** A waiting task whose condition the bits meet asks for bit `b` to be cleared. */
  ghost predicate Claimed(g: Group, bits: EventBits, b: EventBits) {
    exists t :: t in g.calls && g.calls[t].Blocked? && Met(bits, g.calls[t].wait)
                && g.calls[t].wait.clear && Has(g.calls[t].wait.mask, b)
  }

  /** The wait `w` returns and clears bit `b`. */
  predicate Takes(bits: EventBits, w: Wait, b: EventBits) {
    Met(bits, w) && w.clear && Has(w.mask, b)
  }

  predicate Given(step: Step, b: EventBits) {
    match step
    case DoSetBits(bits) => Has(bits, b)
    case DoSync(_, bits, _, _) => Has(bits, b)
    case _ => false
  }

  /** The step takes bit `b` away, should it be set. */
  ghost predicate Taken(g: Group, step: Step, b: EventBits) {
    match step
    case DoSetBits(bits) => Claimed(g, Or(g.bits, bits), b)
    case DoClearBits(bits) => Has(bits, b)
    case DoWaitBits(_, w, _) => Takes(g.bits, w, b)
    case DoSync(_, bits, mask, _) => Claimed(g, Or(g.bits, bits), b) || (Complete(g.bits, bits, mask) && Has(mask, b))
    case DoTimeout(_) => false
    case DoResume(t) => t in g.calls && g.calls[t].TimedOut? && Takes(g.bits, g.calls[t].wait, b)
  }

  lemma ClaimedByWaiter(g: Group, bits: EventBits, b: EventBits)
    requires Listed(g)
    ensures Claimed(g, bits, b) <==>
            exists w :: w in g.waiting && Matches(w.value, bits) && Clears(w.value) && Has(Minus(w.value, CONTROL), b)
  {
    hide And, Or, Minus, Matches, Clears, Encoded, Met, Plain, Has, OnceEach;
    forall w | w in g.waiting
      ensures Matches(w.value, bits) <==> Met(bits, g.calls[w.task].wait)
      ensures Clears(w.value) <==> g.calls[w.task].wait.clear
      ensures Minus(w.value, CONTROL) == g.calls[w.task].wait.mask {
      ScanReadsWait(g.calls[w.task].wait, bits);
    }
    if Claimed(g, bits, b) {
      var t :| t in g.calls && g.calls[t].Blocked? && Met(bits, g.calls[t].wait)
               && g.calls[t].wait.clear && Has(g.calls[t].wait.mask, b);
      assert Waiter(t, Encoded(g.calls[t].wait)) in g.waiting;
    }
  }

  /** Setting bits: a bit is set afterwards exactly when it was set or is given, and no task that is
      woken asked for it to be cleared. */
  lemma SetBitsBit(g: Group, set_: EventBits, b: EventBits)
    requires Single(b) && Listed(g)
    ensures Has(SetBits(g, set_).bits, b) <==> (Has(g.bits, b) || Has(set_, b)) && !Claimed(g, Or(g.bits, set_), b)
  {
    hide And, Or, Minus, Matches, Clears, Claimed, Single, Has, Listed;
    var bits := Or(g.bits, set_);
    ClearedExactly(g.waiting, bits, b);
    forall x: EventBits ensures And(x, b) != 0 <==> Has(x, b) {
      HasIsAnd(x, b);
    }
    ClaimedByWaiter(g, bits, b);
    WordBits(g.bits, set_, b);
    WordBits(bits, ToClear(g.waiting, bits), b);
  }

  lemma ClearBitsBit(g: Group, clear: EventBits, b: EventBits)
    requires Single(b)
    ensures Has(ClearBits(g, clear).bits, b) <==> Has(g.bits, b) && !Has(clear, b)
  {
    hide And, Or, Minus, Single, Has;
    WordBits(g.bits, clear, b);
  }

  /** Every step, bit by bit: a bit is set afterwards exactly when it was set or is given, and is not
      taken away. A clear takes the bits given to it; a wait that is satisfied, at once, at its timeout
      or by the bits being set, takes the bits of its mask if it clears on exit, and none otherwise; a
      rendezvous that is complete takes its mask; nothing else takes any. */
  lemma StepBits(g: Group, step: Step, b: EventBits)
    requires Inv(g) && Enabled(g, step) && Single(b)
    ensures Has(Next(g, step).bits, b) <==> (Has(g.bits, b) || Given(step, b)) && !Taken(g, step, b)
  {
    hide And, Or, Minus, Met, Complete, Single, Has, Claimed, SetBits, Listed, Unmet, Plain, ClearBits;
    InvIsListed(g);
    match step
    case DoSetBits(bits) => SetBitsBit(g, bits, b);
    case DoClearBits(bits) => ClearBitsBit(g, bits, b);
    case DoWaitBits(t, w, blocks) => ClearBitsBit(g, w.mask, b);
    case DoSync(t, bits, mask, blocks) =>
      SetBitsBit(g, bits, b);
      ClearBitsBit(SetBits(g, bits), mask, b);
    case DoTimeout(t) =>
    case DoResume(t) =>
      match g.calls[t] {
        case Woken(_) =>
        case TimedOut(w) => ClearBitsBit(g, w.mask, b);
      }
  }

  ghost predicate TakenBetween(steps: seq<Step>, i: nat, b: EventBits) {
    exists j :: i <= j < |steps| && Taken(After(steps[..j]), steps[j], b)
  }

  /** Bit `b` was given at some step and has not been taken since. */
  ghost predicate Stands(steps: seq<Step>, b: EventBits) {
    exists i :: 0 <= i < |steps| && Given(steps[i], b) && !TakenBetween(steps, i, b)
  }

  lemma StandsNext(steps: seq<Step>, b: EventBits)
    requires steps != []
    ensures var init := steps[..|steps| - 1];
            var last := steps[|steps| - 1];
            Stands(steps, b) <==> (Stands(init, b) || Given(last, b)) && !Taken(After(init), last, b)
  {
    hide After, Taken, Given;
    var init := steps[..|steps| - 1];
    var last := steps[|steps| - 1];
    assert forall j :: 0 <= j < |init| ==> init[..j] == steps[..j] && init[j] == steps[j];
    assert steps[..|init|] == init;
    forall i: nat | i <= |init| ensures TakenBetween(steps, i, b) <==> TakenBetween(init, i, b) || Taken(After(init), last, b) {
      if TakenBetween(init, i, b) {
        var j :| i <= j < |init| && Taken(After(init[..j]), init[j], b);
        assert Taken(After(steps[..j]), steps[j], b);
      }
      if Taken(After(init), last, b) {
        assert Taken(After(steps[..|init|]), steps[|init|], b);
      }
    }
    if Stands(init, b) && !Taken(After(init), last, b) {
      var i :| 0 <= i < |init| && Given(init[i], b) && !TakenBetween(init, i, b);
      assert Given(steps[i], b) && !TakenBetween(steps, i, b);
    }
    if Given(last, b) && !Taken(After(init), last, b) {
      assert Given(steps[|init|], b) && !TakenBetween(init, |init|, b) && !TakenBetween(steps, |init|, b);
    }
    if Stands(steps, b) {
      var i :| 0 <= i < |steps| && Given(steps[i], b) && !TakenBetween(steps, i, b);
      if i < |init| {
        assert Given(init[i], b) && !TakenBetween(init, i, b);
      }
    }
  }

  /** Over every run from the empty group: a bit is set exactly when some call set it and, from then
      on, nothing has taken it away. */
  lemma {:induction false} BitsAreAccounted(steps: seq<Step>, b: EventBits)
    requires Legal(steps) && Single(b)
    ensures Has(After(steps).bits, b) <==> Stands(steps, b)
  {
    hide Inv, Next, Enabled, Single, Has, Taken, Given, Stands;
    if steps == [] {
      WordBits(0, 0, b);
      NothingStands(b);
    } else {
      var init := steps[..|steps| - 1];
      BitsAreAccounted(init, b);
      RunInv(init);
      StepBits(After(init), steps[|steps| - 1], b);
      StandsNext(steps, b);
    }
  }

  lemma NothingStands(b: EventBits)
    ensures !Stands([], b)
  {
  }

  // ----- the standing of each task

  predicate Sets(step: Step) {
    step.DoSetBits? || step.DoSync?
  }

  /** The bits of the group together with those the step gives. */
  function Joined(g: Group, step: Step): EventBits
    requires Sets(step)
  {
    Or(g.bits, step.bits)
  }

  /** How one step changes the standing of task `t`. */
  predicate Follows(g: Group, step: Step, t: Task, r: Group) {
    if t in g.calls && g.calls[t].Blocked? then
      t in r.calls && r.calls[t] ==
        if step == DoTimeout(t) then TimedOut(g.calls[t].wait)
        else if Sets(step) && Met(Joined(g, step), g.calls[t].wait) then Woken(Stored(Joined(g, step)))
        else g.calls[t]
    else if t in g.calls then
      if step == DoResume(t) then t !in r.calls else t in r.calls && r.calls[t] == g.calls[t]
    else if step.DoWaitBits? && step.t == t && step.blocks && !Met(g.bits, step.wait) then
      t in r.calls && r.calls[t] == Blocked(step.wait)
    else if step.DoSync? && step.t == t && step.blocks && !Complete(g.bits, step.bits, step.mask) then
      t in r.calls && r.calls[t] == Blocked(Wait(step.mask, true, true))
    else
      t !in r.calls
  }

  lemma SetBitsStanding(g: Group, set_: EventBits, t: Task)
    requires Inv(g)
    ensures Follows(g, DoSetBits(set_), t, SetBits(g, set_))
  {
    hide And, Or, Minus, Met, Matches, Clears, Encoded, Plain, Stored, SetBits, Unmet;
    SetBitsWakes(g, set_, t);
    if t in g.calls && g.calls[t].Blocked? {
      ScanReadsWait(g.calls[t].wait, Or(g.bits, set_)) by { MaskIsPlain(g, t); }
    }
  }

  lemma MaskIsPlain(g: Group, t: Task)
    requires Listed(g) && t in g.calls && g.calls[t].Blocked?
    ensures Plain(g.calls[t].wait.mask)
  {
  }

  /** Every step: a task blocks only in a call of its own that is not met at once, is woken exactly by
      the bits that meet its condition or by its own timeout, and its call returns when it runs. */
  lemma StepStanding(g: Group, step: Step, t: Task)
    requires Inv(g) && Enabled(g, step)
    ensures Follows(g, step, t, Next(g, step))
  {
    hide Inv, And, Or, Minus, Met, Plain, Complete, SetBits, Without, Stored, Encoded;
    match step
    case DoSetBits(bits) => SetBitsStanding(g, bits, t);
    case DoClearBits(_) =>
    case DoWaitBits(_, _, _) =>
    case DoSync(_, bits, _, _) => SetBitsStanding(g, bits, t);
    case DoTimeout(_) =>
    case DoResume(_) =>
  }

  ghost predicate WokenAt(steps: seq<Step>, i: nat, t: Task) {
    i < |steps| && Sets(steps[i])
    && var g := After(steps[..i]);
       && t in g.calls && g.calls[t].Blocked? && Met(Joined(g, steps[i]), g.calls[t].wait)
       && !Met(g.bits, g.calls[t].wait)
  }

  function SetAt(steps: seq<Step>, i: nat): EventBits
    requires i < |steps| && Sets(steps[i])
  {
    Joined(After(steps[..i]), steps[i])
  }

  /** Over every run: what a woken task is about to return are the bits that met its condition, as they
      were once set and before any was cleared, whatever has happened since. */
  lemma {:induction false} WokenReturns(steps: seq<Step>, t: Task)
    requires Legal(steps)
    requires t in After(steps).calls && After(steps).calls[t].Woken?
    ensures exists i: nat :: WokenAt(steps, i, t) && Returned(After(steps), t) == SetAt(steps, i)
  {
    hide Inv, Next, Enabled, And, Or, Minus, Met, Stored, Plain, Unmet, Listed;
    if steps != [] {
      var init := steps[..|steps| - 1];
      var last := steps[|steps| - 1];
      RunInv(init);
      StepStanding(After(init), last, t);
      if t in After(init).calls && After(init).calls[t].Blocked? {
        NobodyWaitsInVain(init, t);
        assert WokenAt(steps, |init|, t);
        JoinedIsPlain(After(init), last);
        StoredReadsBack(SetAt(steps, |init|));
      } else {
        WokenReturns(init, t);
        var i: nat :| WokenAt(init, i, t) && Returned(After(init), t) == SetAt(init, i);
        assert steps[..i] == init[..i];
        assert WokenAt(steps, i, t);
      }
    }
  }

  lemma JoinedIsPlain(g: Group, step: Step)
    requires Inv(g) && Enabled(g, step) && Sets(step)
    ensures Plain(Joined(g, step))
  {
    hide And, Or, Minus, Plain, Unmet, Listed;
    PlainBits(g.bits, step.bits, 0);
  }

  /** A call that timed out returns the bits of the moment. */
  lemma TimedOutReturns(steps: seq<Step>, t: Task)
    requires Legal(steps) && t in After(steps).calls && After(steps).calls[t].TimedOut?
    ensures Returned(After(steps), t) == After(steps).bits
  {
    hide After, Legal, Inv, Plain, Minus;
    RunInv(steps);
    InvIsListed(After(steps));
    PlainStays(After(steps).bits);
  }

  lemma PlainStays(bits: EventBits)
    requires Plain(bits)
    ensures Minus(bits, CONTROL) == bits
  {
    assert And(bits, CONTROL) == 0;
    hide Plain;
  }

  // ----- the order of the waiting list

  ghost predicate Before(list: seq<Waiter>, a: Waiter, b: Waiter) {
    exists i, j :: 0 <= i < j < |list| && list[i] == a && list[j] == b
  }

  lemma BeforeStep(list: seq<Waiter>, a: Waiter, b: Waiter)
    requires list != []
    ensures Before(list, a, b) <==> (list[0] == a && b in list[1..]) || Before(list[1..], a, b)
    ensures Before([], a, b) <==> false
  {
    if Before(list[1..], a, b) {
      var i, j :| 0 <= i < j < |list[1..]| && list[1..][i] == a && list[1..][j] == b;
      assert list[i + 1] == a && list[j + 1] == b;
    }
    if list[0] == a && b in list[1..] {
      var j :| 0 <= j < |list[1..]| && list[1..][j] == b;
      assert list[0] == a && list[j + 1] == b;
    }
    if Before(list, a, b) {
      var i, j :| 0 <= i < j < |list| && list[i] == a && list[j] == b;
      assert list[1..][j - 1] == b;
      if 0 < i {
        assert list[1..][i - 1] == a;
      }
    }
  }

  lemma {:induction false} KeptOrder(list: seq<Waiter>, bits: EventBits, a: Waiter, b: Waiter)
    ensures Before(Kept(list, bits), a, b) <==> Before(list, a, b) && !Matches(a.value, bits) && !Matches(b.value, bits)
  {
    hide Matches, Before;
    if list == [] {
      BeforeStep([a], a, b);
    } else {
      KeptOrder(list[1..], bits, a, b);
      KeptMembers(list[1..], bits, a);
      KeptMembers(list[1..], bits, b);
      BeforeStep(list, a, b);
      InBefore(list[1..], a, b);
      if Matches(list[0].value, bits) {
        assert Kept(list, bits) == Kept(list[1..], bits);
      } else {
        assert Kept(list, bits)[1..] == Kept(list[1..], bits);
        BeforeStep(Kept(list, bits), a, b);
      }
    }
  }

  lemma InBefore(list: seq<Waiter>, a: Waiter, b: Waiter)
    ensures Before(list, a, b) ==> a in list && b in list
  {
  }

  lemma {:induction false} WithoutOrder(list: seq<Waiter>, t: Task, a: Waiter, b: Waiter)
    requires OnceEach(list)
    ensures Before(Without(list, t), a, b) <==> Before(list, a, b) && a.task != t && b.task != t
  {
    hide Before;
    if list == [] {
      BeforeStep([a], a, b);
    } else {
      WithoutOrder(list[1..], t, a, b);
      WithoutMembers(list[1..], t);
      BeforeStep(list, a, b);
      InBefore(list[1..], a, b);
      if list[0].task == t {
        assert Without(list, t) == Without(list[1..], t);
      } else {
        assert Without(list, t)[1..] == Without(list[1..], t);
        BeforeStep(Without(list, t), a, b);
      }
    }
  }

  lemma AppendOrder(list: seq<Waiter>, w: Waiter, a: Waiter, b: Waiter)
    ensures Before(list + [w], a, b) <==> Before(list, a, b) || (a in list && b == w)
  {
    var all := list + [w];
    if Before(list, a, b) {
      var i, j :| 0 <= i < j < |list| && list[i] == a && list[j] == b;
      assert all[i] == a && all[j] == b;
    }
    if a in list && b == w {
      var i :| 0 <= i < |list| && list[i] == a;
      assert all[i] == a && all[|list|] == b;
    }
  }

  lemma SetBitsOrder(g: Group, set_: EventBits, a: Waiter, b: Waiter)
    requires a in SetBits(g, set_).waiting && b in SetBits(g, set_).waiting
    ensures Before(SetBits(g, set_).waiting, a, b) <==> Before(g.waiting, a, b)
    ensures a in g.waiting && b in g.waiting
  {
    hide Or, Minus, Matches, Before;
    KeptOrder(g.waiting, Or(g.bits, set_), a, b);
    KeptMembers(g.waiting, Or(g.bits, set_), a);
    KeptMembers(g.waiting, Or(g.bits, set_), b);
  }

  /** Every step: those that wait on keep their order, and whoever starts to wait is behind them. */
  lemma StepOrder(g: Group, step: Step, a: Waiter, b: Waiter)
    requires Inv(g) && Enabled(g, step)
    requires a in Next(g, step).waiting && b in Next(g, step).waiting && a in g.waiting
    ensures Before(Next(g, step).waiting, a, b) <==> Before(g.waiting, a, b) || b !in g.waiting
  {
    hide And, Or, Minus, Met, Matches, Clears, Plain, Complete, Encoded, Stored, Before, Unmet;
    InBefore(g.waiting, a, b);
    match step
    case DoSetBits(bits) => SetBitsOrder(g, bits, a, b);
    case DoClearBits(_) =>
    case DoWaitBits(t, w, _) => AppendOrder(g.waiting, Waiter(t, Encoded(w)), a, b);
    case DoSync(t, bits, mask, _) =>
      if b in SetBits(g, bits).waiting {
        SetBitsOrder(g, bits, a, b);
      }
      AppendOrder(SetBits(g, bits).waiting, Waiter(t, Encoded(Wait(mask, true, true))), a, b);
    case DoTimeout(t) =>
      WithoutOrder(g.waiting, t, a, b);
      WithoutMembers(g.waiting, t);
    case DoResume(_) =>
  }
}
