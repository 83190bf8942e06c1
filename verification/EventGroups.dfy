/** event_groups.c: tasks wait for any or all of a set of event bits; setting bits wakes every task
    whose condition is met, in one scan of the waiting list. */
module EventGroups {
  import opened ListValues

  type Task = nat
  type EventBits = bv32

  const CLEAR_ON_EXIT: bv32 := 0x0100_0000
  const UNBLOCKED: bv32 := 0x0200_0000
  const WAIT_FOR_ALL: bv32 := 0x0400_0000
  const CONTROL: bv32 := 0xff00_0000
  /** `taskEVENT_LIST_ITEM_VALUE_IN_USE`, set in every event item value an event group stores. */
  const IN_USE: bv32 := 0x8000_0000

  // ----- words

  function And(x: bv32, y: bv32): bv32 {
    x & y
  }

  function Or(x: bv32, y: bv32): bv32 {
    x | y
  }

  /** `x & ~y` */
  function Minus(x: bv32, y: bv32): bv32 {
    x & !y
  }

  /** Facts about 32-bit words, used where the operations themselves are hidden. */
  lemma SplitWord(m: bv32, c: bv32)
    requires And(m, CONTROL) == 0 && Minus(c, CONTROL) == 0
    ensures Minus(Or(Or(m, c), IN_USE), CONTROL) == m
    ensures And(Or(Or(m, c), IN_USE), CONTROL) == Or(c, IN_USE)
  {
  }

  lemma Swapped(x: bv32, y: bv32)
    ensures And(x, y) == And(y, x) && Or(x, y) == Or(y, x)
  {
  }

  lemma FewerMeetAll(m: bv32, b: bv32, c: bv32)
    requires And(m, b) != m
    ensures And(m, Minus(b, c)) != m
  {
  }

  lemma FewerMeetAny(m: bv32, b: bv32, c: bv32)
    requires And(m, b) == 0
    ensures And(m, Minus(b, c)) == 0
  {
  }

  lemma OrMeets(x: bv32, y: bv32, b: bv32)
    ensures And(Or(x, y), b) != 0 <==> And(x, b) != 0 || And(y, b) != 0
    ensures And(0, b) == 0
  {
    Distributes(x, y, b);
    OrIsZero(x & b, y & b);
  }

  lemma Distributes(x: bv32, y: bv32, b: bv32)
    ensures (x | y) & b == (x & b) | (y & b)
    ensures 0 & b == 0
  {
  }

  lemma OrIsZero(x: bv32, y: bv32)
    ensures x | y == 0 <==> x == 0 && y == 0
  {
  }

  lemma OrMoves(x: bv32, y: bv32, z: bv32)
    ensures Or(x, Or(y, z)) == Or(Or(x, y), z)
    ensures Or(0, x) == x && Or(x, 0) == x
  {
  }

  lemma ClearedPart(b: bv32, c: bv32, d: bv32)
    ensures And(Minus(b, Minus(b, c)), d) == And(c, And(d, b))
  {
  }

  lemma PlainWords(a: bv32, b: bv32, c: bv32)
    requires And(a, CONTROL) == 0 && And(b, CONTROL) == 0
    ensures And(Minus(Or(a, b), c), CONTROL) == 0 && And(Minus(a, c), CONTROL) == 0 && And(Or(a, b), CONTROL) == 0
    ensures And(0, CONTROL) == 0
  {
  }

  // ----- wait conditions

  /** What a task asks for. */
  datatype Wait = Wait(mask: EventBits, clear: bool, all: bool)

  /** `prvTestWaitCondition` */
  predicate Met(bits: EventBits, w: Wait) {
    if w.all then And(bits, w.mask) == w.mask else And(bits, w.mask) != 0
  }

  predicate Plain(bits: EventBits) {
    And(bits, CONTROL) == 0
  }

  /** The control bits of a call, and the event item value a waiting task has. */
  function Control(w: Wait): EventBits {
    if w.clear then (if w.all then 0x0500_0000 else CLEAR_ON_EXIT) else (if w.all then WAIT_FOR_ALL else 0)
  }

  function Encoded(w: Wait): EventBits {
    Or(Or(w.mask, Control(w)), IN_USE)
  }

  /** The condition in an event item value, as the scan of `xEventGroupSetBits` tests it. */
  predicate Matches(value: EventBits, bits: EventBits) {
    var mask := Minus(value, CONTROL);
    if And(And(value, CONTROL), WAIT_FOR_ALL) == 0 then And(mask, bits) != 0 else And(mask, bits) == mask
  }

  predicate Clears(value: EventBits) {
    And(And(value, CONTROL), CLEAR_ON_EXIT) != 0
  }

  /** What the four control words say. */
  lemma ControlWords()
    ensures Minus(0x0500_0000, CONTROL) == 0 && Minus(CLEAR_ON_EXIT, CONTROL) == 0
    ensures Minus(WAIT_FOR_ALL, CONTROL) == 0 && Minus(0, CONTROL) == 0
    ensures And(Or(0x0500_0000, IN_USE), WAIT_FOR_ALL) != 0 && And(Or(0x0500_0000, IN_USE), CLEAR_ON_EXIT) != 0
    ensures And(Or(CLEAR_ON_EXIT, IN_USE), WAIT_FOR_ALL) == 0 && And(Or(CLEAR_ON_EXIT, IN_USE), CLEAR_ON_EXIT) != 0
    ensures And(Or(WAIT_FOR_ALL, IN_USE), WAIT_FOR_ALL) != 0 && And(Or(WAIT_FOR_ALL, IN_USE), CLEAR_ON_EXIT) == 0
    ensures And(Or(0, IN_USE), WAIT_FOR_ALL) == 0 && And(Or(0, IN_USE), CLEAR_ON_EXIT) == 0
    ensures Or(Or(0, CLEAR_ON_EXIT), WAIT_FOR_ALL) == 0x0500_0000
    ensures Or(0, CLEAR_ON_EXIT) == CLEAR_ON_EXIT && Or(0, WAIT_FOR_ALL) == WAIT_FOR_ALL
  {
  }

  /** The scan reads back exactly what was asked for. */
  lemma ScanReadsWait(w: Wait, bits: EventBits)
    requires Plain(w.mask)
    ensures Matches(Encoded(w), bits) <==> Met(bits, w)
    ensures Clears(Encoded(w)) <==> w.clear
    ensures Minus(Encoded(w), CONTROL) == w.mask
  {
    hide And, Or, Minus;
    ControlWords();
    SplitWord(w.mask, Control(w));
    Swapped(w.mask, bits);
  }

  /** A condition that more bits do not meet, fewer do not meet. */
  lemma FewerBits(value: EventBits, bits: EventBits, cleared: EventBits)
    requires !Matches(value, bits)
    ensures !Matches(value, Minus(bits, cleared))
  {
    hide And, Or, Minus;
    var mask := Minus(value, CONTROL);
    if And(And(value, CONTROL), WAIT_FOR_ALL) == 0 {
      FewerMeetAny(mask, bits, cleared);
    } else {
      FewerMeetAll(mask, bits, cleared);
    }
  }

  // ----- the group

  datatype Waiter = Waiter(task: Task, value: EventBits)

  datatype Status =
    | Blocked(wait: Wait)
    /** Taken off the list by matching bits, or by the timeout, and not yet run. */
    | Woken(value: EventBits)
    | TimedOut(wait: Wait)

  datatype Group = Group(bits: EventBits, waiting: seq<Waiter>, calls: map<Task, Status>)

  function Kept(list: seq<Waiter>, bits: EventBits): seq<Waiter> {
    if list == [] then []
    else (if Matches(list[0].value, bits) then [] else [list[0]]) + Kept(list[1..], bits)
  }

  function Matched(list: seq<Waiter>, bits: EventBits): seq<Waiter> {
    if list == [] then []
    else (if Matches(list[0].value, bits) then [list[0]] else []) + Matched(list[1..], bits)
  }

  /** The union of the masks of those woken that asked for their bits to be cleared. */
  function ToClear(list: seq<Waiter>, bits: EventBits): EventBits {
    if list == [] then 0
    else Or(if Matches(list[0].value, bits) && Clears(list[0].value) then Minus(list[0].value, CONTROL) else 0, ToClear(list[1..], bits))
  }

  /** What `xTaskRemoveFromUnorderedEventList` stores in the event item of a woken task. */
  function Stored(bits: EventBits): EventBits {
    Or(Or(bits, UNBLOCKED), IN_USE)
  }

  function WakeAll(calls: map<Task, Status>, woken: seq<Waiter>, bits: EventBits): map<Task, Status>
    decreases |woken|
  {
    if woken == [] then calls else WakeAll(calls[woken[0].task := Woken(Stored(bits))], woken[1..], bits)
  }

  /** `xEventGroupSetBits` */
  function SetBits(g: Group, set_: EventBits): Group {
    var bits := Or(g.bits, set_);
    Group(Minus(bits, ToClear(g.waiting, bits)), Kept(g.waiting, bits), WakeAll(g.calls, Matched(g.waiting, bits), bits))
  }

  lemma {:induction false} KeptMembers(list: seq<Waiter>, bits: EventBits, w: Waiter)
    ensures w in Kept(list, bits) <==> w in list && !Matches(w.value, bits)
    ensures w in Matched(list, bits) <==> w in list && Matches(w.value, bits)
  {
    hide Matches;
    if list != [] {
      assert list == [list[0]] + list[1..];
      KeptMembers(list[1..], bits, w);
    }
  }

  /** A bit is cleared exactly when some task that is woken waits for it and clears on exit,
      whatever the order of the list. */
  lemma {:induction false} ClearedExactly(list: seq<Waiter>, bits: EventBits, b: EventBits)
    ensures And(ToClear(list, bits), b) != 0 <==>
            exists w :: w in list && Matches(w.value, bits) && Clears(w.value) && And(Minus(w.value, CONTROL), b) != 0
  {
    hide And, Or, Minus, Matches, Clears;
    OrMeets(0, 0, b);
    if list != [] {
      assert list == [list[0]] + list[1..];
      ClearedExactly(list[1..], bits, b);
      var mine := if Matches(list[0].value, bits) && Clears(list[0].value) then Minus(list[0].value, CONTROL) else 0;
      OrMeets(mine, ToClear(list[1..], bits), b);
    }
  }

  /** Every woken task gets the same value: the bits as they were once the new ones were set and
      before any were cleared. No other task's standing changes. */
  lemma {:induction false} WokenWithSameValue(calls: map<Task, Status>, woken: seq<Waiter>, bits: EventBits, t: Task)
    ensures var r := WakeAll(calls, woken, bits);
            if exists w :: w in woken && w.task == t then t in r && r[t] == Woken(Stored(bits))
            else (t in r <==> t in calls) && (t in calls ==> r[t] == calls[t])
    decreases |woken|
  {
    hide Stored;
    if woken != [] {
      assert woken == [woken[0]] + woken[1..];
      WokenWithSameValue(calls[woken[0].task := Woken(Stored(bits))], woken[1..], bits, t);
    }
  }

  // ----- the other calls

  /** `xEventGroupClearBits` */
  function ClearBits(g: Group, clear: EventBits): Group {
    g.(bits := Minus(g.bits, clear))
  }

  /** `vTaskPlaceOnUnorderedEventList` */
  function Place(g: Group, t: Task, w: Wait): Group {
    g.(waiting := g.waiting + [Waiter(t, Encoded(w))], calls := g.calls[t := Blocked(w)])
  }

  /** `xEventGroupWaitBits` up to the point where it blocks or returns. */
  function WaitBits(g: Group, t: Task, w: Wait, blocks: bool): Group {
    if Met(g.bits, w) then (if w.clear then ClearBits(g, w.mask) else g)
    else if blocks then Place(g, t, w)
    else g
  }

  /** Whether a rendezvous is complete once a task has set its bits. */
  predicate Complete(bits: EventBits, set_: EventBits, mask: EventBits) {
    And(Or(bits, set_), mask) == mask
  }

  /** `xEventGroupSync` up to the point where it blocks or returns. */
  function Sync(g: Group, t: Task, set_: EventBits, mask: EventBits, blocks: bool): Group {
    var r := SetBits(g, set_);
    if Complete(g.bits, set_, mask) then ClearBits(r, mask)
    else if blocks then Place(r, t, Wait(mask, true, true))
    else r
  }

  predicate IsWaiting(g: Group, t: Task) {
    exists w :: w in g.waiting && w.task == t
  }

  function Without(list: seq<Waiter>, t: Task): seq<Waiter> {
    if list == [] then [] else (if list[0].task == t then [] else [list[0]]) + Without(list[1..], t)
  }

  /** The tick takes a waiting task off the list. */
  function Timeout(g: Group, t: Task): Group {
    if t in g.calls && g.calls[t].Blocked? then
      g.(waiting := Without(g.waiting, t), calls := g.calls[t := TimedOut(g.calls[t].wait)])
    else g
  }

  /** What a task does when it runs again: it returns the value stored for it, or, timed out, the bits
      of the moment, which it clears if they meet its condition after all. */
  function Resume(g: Group, t: Task): Group {
    if t in g.calls then
      match g.calls[t]
      case Blocked(_) => g
      case Woken(_) => g.(calls := g.calls - {t})
      case TimedOut(w) =>
        var r := if Met(g.bits, w) && w.clear then ClearBits(g, w.mask) else g;
        r.(calls := r.calls - {t})
    else g
  }

  /** The value a call returns when the task runs again. */
  function Returned(g: Group, t: Task): EventBits {
    Minus(if t in g.calls && g.calls[t].Woken? then g.calls[t].value else g.bits, CONTROL)
  }

  datatype Step =
    | DoSetBits(bits: EventBits) | DoClearBits(bits: EventBits)
    | DoWaitBits(t: Task, wait: Wait, blocks: bool)
    | DoSync(t: Task, bits: EventBits, mask: EventBits, blocks: bool)
    | DoTimeout(t: Task) | DoResume(t: Task)

  /** The source asserts that no control bits are given and that some bit is waited for. */
  predicate Enabled(g: Group, step: Step) {
    match step
    case DoSetBits(bits) => Plain(bits)
    case DoClearBits(bits) => Plain(bits)
    case DoWaitBits(t, wait, _) => t !in g.calls && Plain(wait.mask) && wait.mask != 0
    case DoSync(t, bits, mask, _) => t !in g.calls && Plain(mask) && mask != 0 && Plain(bits)
    case DoTimeout(t) => t in g.calls && g.calls[t].Blocked?
    case DoResume(t) => t in g.calls && !g.calls[t].Blocked?
  }

  function Next(g: Group, step: Step): Group {
    match step
    case DoSetBits(bits) => SetBits(g, bits)
    case DoClearBits(bits) => ClearBits(g, bits)
    case DoWaitBits(t, wait, blocks) => WaitBits(g, t, wait, blocks)
    case DoSync(t, bits, mask, blocks) => Sync(g, t, bits, mask, blocks)
    case DoTimeout(t) => Timeout(g, t)
    case DoResume(t) => Resume(g, t)
  }

  // ----- the invariant

  /** No waiting task's condition is met. */
  ghost predicate Unmet(g: Group) {
    forall w :: w in g.waiting ==> !Matches(w.value, g.bits)
  }

  ghost predicate OnceEach(list: seq<Waiter>) {
    forall i, j :: 0 <= i < j < |list| ==> list[i].task != list[j].task
  }

  /** The list holds exactly the blocked tasks, once each, with what they asked for. */
  ghost predicate Listed(g: Group) {
    && OnceEach(g.waiting)
    && (forall w :: w in g.waiting ==>
          w.task in g.calls && g.calls[w.task].Blocked? && w.value == Encoded(g.calls[w.task].wait))
    && (forall t :: t in g.calls && g.calls[t].Blocked? ==>
          Plain(g.calls[t].wait.mask) && Waiter(t, Encoded(g.calls[t].wait)) in g.waiting)
  }

  ghost predicate Inv(g: Group) {
    Unmet(g) && Listed(g) && Plain(g.bits)
  }

  lemma {:induction false} KeptDistinct(list: seq<Waiter>, bits: EventBits)
    requires OnceEach(list)
    ensures OnceEach(Kept(list, bits))
  {
    hide Matches;
    if list != [] {
      KeptDistinct(list[1..], bits);
      forall w: Waiter | w in Kept(list[1..], bits) ensures w.task != list[0].task {
        KeptMembers(list[1..], bits, w);
      }
    }
  }

  /** What setting bits does to one waiting task: it is woken exactly when its condition is met by the
      old bits with the new ones, and then with that value. */
  lemma SetBitsWakes(g: Group, set_: EventBits, t: Task)
    requires Listed(g)
    ensures var bits := Or(g.bits, set_);
            var r := SetBits(g, set_);
            if t in g.calls && g.calls[t].Blocked? && Matches(Encoded(g.calls[t].wait), bits) then
              t in r.calls && r.calls[t] == Woken(Stored(bits)) && !IsWaiting(r, t)
            else
              && (t in r.calls <==> t in g.calls) && (t in g.calls ==> r.calls[t] == g.calls[t])
              && (IsWaiting(r, t) <==> t in g.calls && g.calls[t].Blocked?)
  {
    hide Or, Minus, Matches, Clears, Encoded, Plain, Stored;
    var bits := Or(g.bits, set_);
    var r := SetBits(g, set_);
    WokenWithSameValue(g.calls, Matched(g.waiting, bits), bits, t);
    forall w: Waiter ensures w in Kept(g.waiting, bits) <==> w in g.waiting && !Matches(w.value, bits) {
      KeptMembers(g.waiting, bits, w);
    }
    forall w: Waiter ensures w in Matched(g.waiting, bits) <==> w in g.waiting && Matches(w.value, bits) {
      KeptMembers(g.waiting, bits, w);
    }
    if t in g.calls && g.calls[t].Blocked? {
      var me := Waiter(t, Encoded(g.calls[t].wait));
      assert me in g.waiting && me.task == t;
      if Matches(me.value, bits) {
        assert me in Matched(g.waiting, bits);
      } else {
        assert me in r.waiting;
      }
    }
  }

  lemma SetBitsListed(g: Group, set_: EventBits)
    requires Listed(g)
    ensures Listed(SetBits(g, set_))
  {
    hide And, Or, Minus, Matches, Clears, Encoded, Plain, Stored;
    var bits := Or(g.bits, set_);
    var r := SetBits(g, set_);
    KeptDistinct(g.waiting, bits);
    forall w: Waiter ensures w in r.waiting <==> w in g.waiting && !Matches(w.value, bits) {
      KeptMembers(g.waiting, bits, w);
    }
    forall t ensures (t in r.calls && r.calls[t].Blocked?) <==>
                     (t in g.calls && g.calls[t].Blocked? && !Matches(Encoded(g.calls[t].wait), bits))
             ensures t in r.calls && r.calls[t].Blocked? ==> r.calls[t] == g.calls[t] {
      SetBitsWakes(g, set_, t);
    }
  }

  lemma SetBitsUnmet(g: Group, set_: EventBits)
    ensures Unmet(SetBits(g, set_))
  {
    hide And, Or, Minus, Matches, Clears;
    var bits := Or(g.bits, set_);
    var r := SetBits(g, set_);
    forall w | w in r.waiting ensures !Matches(w.value, r.bits) {
      KeptMembers(g.waiting, bits, w);
      FewerBits(w.value, bits, ToClear(g.waiting, bits));
    }
  }

  lemma PlainBits(a: EventBits, b: EventBits, c: EventBits)
    requires Plain(a) && Plain(b)
    ensures Plain(Minus(Or(a, b), c)) && Plain(Minus(a, c)) && Plain(Or(a, b)) && Plain(0)
  {
    hide And, Or, Minus;
    PlainWords(a, b, c);
  }

  lemma SetBitsInv(g: Group, set_: EventBits)
    requires Inv(g) && Plain(set_)
    ensures Inv(SetBits(g, set_))
  {
    hide And, Or, Minus, Matches, Clears, Encoded, Plain, Unmet, Listed;
    SetBitsListed(g, set_);
    SetBitsUnmet(g, set_);
    PlainBits(g.bits, set_, ToClear(g.waiting, Or(g.bits, set_)));
  }

  lemma ClearBitsInv(g: Group, clear: EventBits)
    requires Inv(g)
    ensures Inv(ClearBits(g, clear))
  {
    hide And, Or, Minus, Matches, Clears, Encoded, Plain;
    PlainBits(g.bits, g.bits, clear);
    forall w | w in g.waiting ensures !Matches(w.value, Minus(g.bits, clear)) {
      FewerBits(w.value, g.bits, clear);
    }
  }

  lemma PlaceInv(g: Group, t: Task, w: Wait)
    requires Inv(g) && t !in g.calls && Plain(w.mask) && !Met(g.bits, w)
    ensures Inv(Place(g, t, w))
  {
    hide And, Or, Minus, Met, Matches, Clears, Encoded, Plain;
    ScanReadsWait(w, g.bits);
    var r := Place(g, t, w);
    assert forall v :: v in r.waiting <==> v in g.waiting || v == Waiter(t, Encoded(w));
  }

  lemma {:induction false} WithoutMembers(list: seq<Waiter>, t: Task)
    requires OnceEach(list)
    ensures forall w :: w in Without(list, t) <==> w in list && w.task != t
    ensures OnceEach(Without(list, t))
  {
    if list != [] {
      assert list == [list[0]] + list[1..];
      WithoutMembers(list[1..], t);
    }
  }

  lemma TimeoutInv(g: Group, t: Task)
    requires Inv(g)
    ensures Inv(Timeout(g, t))
  {
    hide Matches, Encoded, Plain;
    WithoutMembers(g.waiting, t);
  }

  lemma FinishInv(g: Group, t: Task)
    requires Inv(g) && t in g.calls && !g.calls[t].Blocked?
    ensures Inv(g.(calls := g.calls - {t}))
  {
    hide Matches, Encoded, Plain;
  }

  /** A task that finds the rendezvous incomplete and blocks is not one whose condition is met. */
  lemma SyncBlocks(g: Group, t: Task, set_: EventBits, mask: EventBits)
    requires !Complete(g.bits, set_, mask) && t !in g.calls && Listed(g)
    ensures !Met(SetBits(g, set_).bits, Wait(mask, true, true)) && t !in SetBits(g, set_).calls
  {
    hide And, Or, Minus, Matches, Clears, Encoded, Plain;
    var bits := Or(g.bits, set_);
    var clear := ToClear(g.waiting, bits);
    Swapped(mask, bits);
    FewerMeetAll(mask, bits, clear);
    Swapped(mask, Minus(bits, clear));
    SetBitsWakes(g, set_, t);
  }

  lemma StepInv(g: Group, step: Step)
    requires Inv(g) && Enabled(g, step)
    ensures Inv(Next(g, step))
  {
    hide Inv, And, Or, Minus, Met, Plain, Complete, SetBits, Place, Timeout;
    match step
    case DoSetBits(bits) => SetBitsInv(g, bits);
    case DoClearBits(bits) => ClearBitsInv(g, bits);
    case DoWaitBits(t, w, blocks) =>
      ClearBitsInv(g, w.mask);
      if !Met(g.bits, w) {
        PlaceInv(g, t, w);
      }
    case DoSync(t, bits, mask, blocks) =>
      SetBitsInv(g, bits);
      var r := SetBits(g, bits);
      ClearBitsInv(r, mask);
      if !Complete(g.bits, bits, mask) {
        SyncBlocks(g, t, bits, mask) by { InvIsListed(g); }
        PlaceInv(r, t, Wait(mask, true, true));
      }
    case DoTimeout(t) => TimeoutInv(g, t);
    case DoResume(t) =>
      match g.calls[t] {
        case Woken(_) => FinishInv(g, t);
        case TimedOut(w) => ClearBitsInv(g, w.mask); FinishInv(g, t); FinishInv(ClearBits(g, w.mask), t);
      }
  }

  lemma InvIsListed(g: Group)
    requires Inv(g)
    ensures Listed(g) && Unmet(g) && Plain(g.bits)
  {
  }

  // ----- runs

  function After(steps: seq<Step>): Group {
    if steps == [] then Group(0, [], map[]) else Next(After(steps[..|steps| - 1]), steps[|steps| - 1])
  }

  predicate Legal(steps: seq<Step>) {
    steps == [] || (Legal(steps[..|steps| - 1]) && Enabled(After(steps[..|steps| - 1]), steps[|steps| - 1]))
  }

  lemma EmptyInv()
    ensures Inv(Group(0, [], map[]))
  {
  }

  lemma {:induction false} RunInv(steps: seq<Step>)
    requires Legal(steps)
    ensures Inv(After(steps))
  {
    hide Inv, Next, Enabled;
    EmptyInv();
    if steps != [] {
      RunInv(steps[..|steps| - 1]);
      StepInv(After(steps[..|steps| - 1]), steps[|steps| - 1]);
    }
  }

  /** Completeness, over every run of sets, clears, waits, rendezvous and timeouts: nobody waits whose
      condition the event bits meet. */
  lemma NobodyWaitsInVain(steps: seq<Step>, t: Task)
    requires Legal(steps)
    ensures var g := After(steps);
            t in g.calls && g.calls[t].Blocked? ==> !Met(g.bits, g.calls[t].wait) && IsWaiting(g, t)
  {
    hide After, Legal, Met, Matches, Encoded, Plain;
    RunInv(steps);
    var g := After(steps);
    if t in g.calls && g.calls[t].Blocked? {
      ScanReadsWait(g.calls[t].wait, g.bits);
      assert Waiter(t, Encoded(g.calls[t].wait)) in g.waiting;
    }
  }

  /** Setting bits, in any reachable state and whatever the order of the list: a blocked task is woken
      exactly when the old bits with the new ones meet its condition, with exactly those bits. */
  lemma SetBitsWakesExactly(steps: seq<Step>, set_: EventBits, t: Task)
    requires Legal(steps) && Plain(set_)
    requires t in After(steps).calls && After(steps).calls[t].Blocked?
    ensures var g := After(steps);
            var r := SetBits(g, set_);
            t in r.calls &&
            if Met(Or(g.bits, set_), g.calls[t].wait) then
              r.calls[t].Woken? && Returned(r, t) == Or(g.bits, set_) && !IsWaiting(r, t)
            else
              r.calls[t] == g.calls[t] && IsWaiting(r, t)
  {
    hide After, Legal, Met, Matches, Encoded, Plain, And, Or, Minus, SetBits;
    RunInv(steps);
    var g := After(steps);
    ScanReadsWait(g.calls[t].wait, Or(g.bits, set_));
    SetBitsWakes(g, set_, t);
    PlainBits(g.bits, set_, 0);
    StoredReadsBack(Or(g.bits, set_));
  }

  /** What a woken task returns is what was stored, without the control bits. */
  lemma StoredReadsBack(bits: EventBits)
    requires Plain(bits)
    ensures Minus(Stored(bits), CONTROL) == bits
  {
    assert And(bits, CONTROL) == 0;
    hide Plain;
  }

  /** What the event bits become: the old and new ones, less every bit that a woken task waited for
      and asked to have cleared. */
  lemma SetBitsClearsExactly(g: Group, set_: EventBits, b: EventBits)
    ensures var bits := Or(g.bits, set_);
            And(Minus(bits, SetBits(g, set_).bits), b) != 0 <==>
            exists w :: w in g.waiting && Matches(w.value, bits) && Clears(w.value) && And(Minus(w.value, CONTROL), And(b, bits)) != 0
  {
    hide And, Or, Minus, Matches, Clears;
    var bits := Or(g.bits, set_);
    var clear := ToClear(g.waiting, bits);
    ClearedExactly(g.waiting, bits, And(b, bits));
    ClearedPart(bits, clear, b);
  }

  // ----- in place

  class EventGroup {
    var eventBits: EventBits
    var waiting: seq<Waiter>
    ghost var calls: map<Task, Status>

    ghost function State(): Group
      reads this
    {
      Group(eventBits, waiting, calls)
    }

    /** `xEventGroupSetBits` while the scheduler is suspended: one scan of the waiting list, which
        shrinks under it. What the call returns is a read of the bits after the suspension, a step of
        its own. */
    method SetEventBits(set_: EventBits)
      modifies this
      ensures State() == SetBits(old(State()), set_)
    {
      hide And, Or, Minus, Matches, Clears, Stored, RemoveAt, Kept, ToClear;
      ghost var g := State();
      NothingLeft(Or(eventBits, set_));
      eventBits := Or(eventBits, set_);
      var toClear: EventBits := 0;
      OrMoves(ToClear(waiting, eventBits), 0, 0);
      var i := 0;
      ghost var rest := waiting;
      while i < |waiting|
        invariant i <= |waiting| && rest == waiting[i..]
        invariant eventBits == Or(g.bits, set_)
        invariant waiting[..i] + Kept(rest, eventBits) == Kept(g.waiting, eventBits)
        invariant Or(toClear, ToClear(rest, eventBits)) == ToClear(g.waiting, eventBits)
        invariant WakeAll(calls, Matched(rest, eventBits), eventBits) == WakeAll(g.calls, Matched(g.waiting, eventBits), eventBits)
        decreases |rest|
      {
        var w := waiting[i];
        ScanOne(rest, eventBits, toClear);
        if Matches(w.value, eventBits) {
          if Clears(w.value) {
            toClear := Or(toClear, Minus(w.value, CONTROL));
          }
          calls := calls[w.task := Woken(Stored(eventBits))];
          Dropped(waiting, i);
          waiting := RemoveAt(waiting, i);
        } else {
          Passed(waiting, i, Kept(rest[1..], eventBits));
          i := i + 1;
        }
        rest := rest[1..];
      }
      assert waiting[..i] == waiting;
      OrMoves(toClear, 0, 0);
      eventBits := Minus(eventBits, toClear);
    }

    /** `xEventGroupClearBits`: returns the bits as they were. */
    method ClearEventBits(clear: EventBits) returns (before: EventBits)
      modifies `eventBits
      ensures State() == ClearBits(old(State()), clear) && before == old(eventBits)
    {
      hide Minus;
      before := eventBits;
      eventBits := Minus(eventBits, clear);
    }

    /** `xEventGroupWaitBits` until it blocks (`blocked`) or returns `bits`. */
    method WaitForBits(t: Task, w: Wait, blocks: bool) returns (blocked: bool, bits: EventBits)
      modifies this
      ensures State() == WaitBits(old(State()), t, w, blocks)
      ensures blocked <==> blocks && !Met(old(eventBits), w)
      ensures !blocked ==> bits == old(eventBits)
    {
      hide And, Or, Minus, Met;
      bits := eventBits;
      blocked := false;
      if Met(eventBits, w) {
        if w.clear {
          eventBits := Minus(eventBits, w.mask);
        }
      } else if blocks {
        ControlWords();
        var control: EventBits := 0;
        if w.clear {
          control := Or(control, CLEAR_ON_EXIT);
        }
        if w.all {
          control := Or(control, WAIT_FOR_ALL);
        }
        waiting := waiting + [Waiter(t, Or(Or(w.mask, control), IN_USE))];
        calls := calls[t := Blocked(w)];
        blocked := true;
      }
    }

    /** `xEventGroupSync` until it blocks or returns `bits`. */
    method SyncWith(t: Task, set_: EventBits, mask: EventBits, blocks: bool) returns (blocked: bool, bits: EventBits)
      modifies this
      ensures State() == Sync(old(State()), t, set_, mask, blocks)
      ensures blocked <==> blocks && !Complete(old(eventBits), set_, mask)
      ensures Complete(old(eventBits), set_, mask) ==> bits == Or(old(eventBits), set_)
      ensures !blocked && !Complete(old(eventBits), set_, mask) ==> bits == eventBits
    {
      hide And, Or, Minus, SetBits;
      var original := eventBits;
      SetEventBits(set_);
      bits := eventBits;
      blocked := false;
      if And(Or(original, set_), mask) == mask {
        bits := Or(original, set_);
        eventBits := Minus(eventBits, mask);
      } else if blocks {
        ControlWords();
        OrMoves(mask, CLEAR_ON_EXIT, WAIT_FOR_ALL);
        OrMoves(CLEAR_ON_EXIT, 0, 0);
        waiting := waiting + [Waiter(t, Or(Or(Or(mask, CLEAR_ON_EXIT), WAIT_FOR_ALL), IN_USE))];
        calls := calls[t := Blocked(Wait(mask, true, true))];
        blocked := true;
      }
    }
  }

  lemma NothingLeft(bits: EventBits)
    ensures Kept([], bits) == [] && ToClear([], bits) == 0
  {
  }

  lemma Dropped(list: seq<Waiter>, i: nat)
    requires i < |list|
    ensures RemoveAt(list, i)[..i] == list[..i] && RemoveAt(list, i)[i..] == list[i..][1..] && |RemoveAt(list, i)| == |list| - 1
  {
  }

  lemma Passed(list: seq<Waiter>, i: nat, kept: seq<Waiter>)
    requires i < |list|
    ensures list[..i] + ([list[i]] + kept) == list[..i + 1] + kept && list[i + 1..] == list[i..][1..]
  {
  }

  /** One step of the scan. */
  lemma ScanOne(rest: seq<Waiter>, bits: EventBits, toClear: EventBits)
    requires rest != []
    ensures var w := rest[0];
            if Matches(w.value, bits) then
              && Kept(rest, bits) == Kept(rest[1..], bits)
              && Matched(rest, bits)[1..] == Matched(rest[1..], bits) && Matched(rest, bits) != [] && Matched(rest, bits)[0] == w
              && Or(toClear, ToClear(rest, bits)) ==
                 Or(if Clears(w.value) then Or(toClear, Minus(w.value, CONTROL)) else toClear, ToClear(rest[1..], bits))
            else
              && Kept(rest, bits) == [w] + Kept(rest[1..], bits)
              && Matched(rest, bits) == Matched(rest[1..], bits)
              && ToClear(rest, bits) == ToClear(rest[1..], bits)
  {
    hide And, Or, Minus, Matches, Clears;
    OrMoves(toClear, Minus(rest[0].value, CONTROL), ToClear(rest[1..], bits));
    OrMoves(ToClear(rest[1..], bits), 0, 0);
    assert [] + Kept(rest[1..], bits) == Kept(rest[1..], bits);
    assert [] + Matched(rest[1..], bits) == Matched(rest[1..], bits);
  }
}
