/** queue.c: queue sets as their users see them. Handles are selected in the order in which they were posted;
    a queue's messages are those sent to it and not yet received; and queues join and leave the set
    only by being added and taken out. */
module QueueSetOrder {
  import opened ListValues
  import opened QueueSets

  function Fewer(m: nat, n: nat): nat {
    if m < n then m else n
  }

  /** The step gets a message into queue `h`. */
  predicate GetsIn(s: QueueSet, step: Step, h: Handle) {
    (step.DoSend? || step.DoSendFromISR?) && step.h == h && Queue(s, h).messages < Queue(s, h).length
  }

  /** The step takes a message out of queue `h`. */
  predicate TakesOut(s: QueueSet, step: Step, h: Handle) {
    step == DoReceive(h) && Queue(s, h).messages != 0
  }

  /** The step posts to the front of the set. */
  predicate ToFront(step: Step) {
    (step.DoSend? || step.DoSendFromISR?) && step.front
  }

  /** How often the step posts the handle of the queue it is about, given room: once for a message that gets
      into a member, unless an interrupt finds it locked; and on unlocking once for every message
      recorded. */
  function Posts(s: QueueSet, step: Step): nat {
    if (step.DoSend? || step.DoSendFromISR?) && step.h in s.members then
      if GetsIn(s, step, step.h) && (step.DoSend? || Queue(s, step.h).txLock == UNLOCKED) then 1 else 0
    else if step.DoUnlock? && step.h in s.members then
      if Queue(s, step.h).txLock <= 0 then 0 else Queue(s, step.h).txLock
    else 0
  }

  function Room(s: QueueSet): nat {
    if |s.handles| < s.length then s.length - |s.handles| else 0
  }

  /** What the step puts into the set. */
  function Posted(s: QueueSet, step: Step): seq<Handle> {
    var n := Fewer(Posts(s, step), Room(s));
    if step.DoSend? || step.DoSendFromISR? || step.DoUnlock? then seq(n, _ => step.h) else []
  }

  lemma PostsOne(s: QueueSet, h: Handle)
    ensures var m := if h in s.members then Notify(s, h, false) else s;
            var u := Update(m, h, Queue(m, h).(txLock := Queue(m, h).txLock - 1));
            && u.handles == (if h in s.members && 0 < Room(s) then s.handles + [h] else s.handles)
            && u.length == s.length && u.members == s.members
  {
    hide Queue;
  }

  lemma OneMore(handles: seq<Handle>, h: Handle, k: nat)
    ensures handles + [h] + seq(k, _ => h) == handles + seq(k + 1, _ => h)
    ensures handles + seq(0, _ => h) == handles
  {
  }

  lemma {:induction false} PostHandles(s: QueueSet, h: Handle, n: nat)
    ensures var r := Post(s, h, n);
            var k := if h in s.members then Fewer(n, Room(s)) else 0;
            r.handles == s.handles + seq(k, _ => h) && r.length == s.length && r.members == s.members
    decreases n
  {
    hide Queue, Update, Notify;
    OneMore(s.handles, h, 0);
    if n != 0 {
      var m := if h in s.members then Notify(s, h, false) else s;
      var u := Update(m, h, Queue(m, h).(txLock := Queue(m, h).txLock - 1));
      PostsOne(s, h);
      PostHandles(u, h, n - 1);
      if h in s.members && 0 < Room(s) {
        OneMore(s.handles, h, Fewer(n, Room(s)) - 1);
      }
    }
  }

  /** What any step does to the set: a selection takes the oldest handle out; posts go behind all others, or
      in front of them. */
  lemma StepHandles(s: QueueSet, step: Step)
    requires Enabled(s, step)
    ensures var r := Next(s, step);
            && r.length == s.length
            && r.handles == if step.DoSelect? then (if s.handles == [] then [] else s.handles[1..])
                            else if ToFront(step) then Posted(s, step) + s.handles
                            else s.handles + Posted(s, step)
  {
    hide Post;
    NothingPosted(s, step);
    match step
    case DoUnlock(h) => PostHandles(s, h, if 0 < Queue(s, h).txLock then Queue(s, h).txLock else 0);
    case _ =>
  }

  lemma NothingPosted(s: QueueSet, step: Step)
    ensures Posted(s, step) == [] ==> s.handles + Posted(s, step) == s.handles == Posted(s, step) + s.handles
    ensures Posts(s, step) == 0 ==> Posted(s, step) == []
    ensures Posts(s, step) == 1 && !step.DoUnlock? && |s.handles| < s.length ==> Posted(s, step) == [step.h]
  {
    hide Queue;
  }

  // ----- selection over runs

  /** The handles selected in the course of a run. */
  function Selected(length: nat, steps: seq<Step>): seq<Handle> {
    if steps == [] then []
    else
      var s := After(length, steps[..|steps| - 1]);
      Selected(length, steps[..|steps| - 1])
      + (if steps[|steps| - 1].DoSelect? && s.handles != [] then [s.handles[0]] else [])
  }

  /** The handles posted, in the order in which they are due: each behind all posted before it or, when it is
      posted to the front, behind those selected by then. */
  function Due(length: nat, steps: seq<Step>): seq<Handle> {
    if steps == [] then []
    else
      var init := steps[..|steps| - 1];
      var due := Due(length, init);
      var posted := Posted(After(length, init), steps[|steps| - 1]);
      var n := |Selected(length, init)|;
      if ToFront(steps[|steps| - 1]) && n <= |due| then due[..n] + posted + due[n..] else due + posted
  }

  /** Selection is in order, over every run: those selected so far, followed by those in the set, are those
      posted, each in its turn. */
  lemma {:induction false} SelectedInOrder(length: nat, steps: seq<Step>)
    requires Legal(length, steps)
    ensures Selected(length, steps) + After(length, steps).handles == Due(length, steps)
    decreases |steps|
  {
    hide Enabled, Next, Posted, ToFront;
    if steps != [] {
      var init := steps[..|steps| - 1];
      var last := steps[|steps| - 1];
      SelectedInOrder(length, init);
      StepHandles(After(length, init), last);
      SelectPostsNothing(After(length, init), last);
      var due, posted := Due(length, init), Posted(After(length, init), last);
      TurnsMove(Selected(length, init), After(length, init).handles, posted);
    }
  }

  lemma SelectPostsNothing(s: QueueSet, step: Step)
    ensures step.DoSelect? ==> Posted(s, step) == [] && !ToFront(step)
  {
  }

  lemma TurnsMove(selected: seq<Handle>, handles: seq<Handle>, posted: seq<Handle>)
    ensures (selected + handles)[..|selected|] == selected && (selected + handles)[|selected|..] == handles
    ensures selected + posted + handles == selected + (posted + handles)
    ensures selected + handles + posted == selected + (handles + posted)
    ensures handles != [] ==> selected + [handles[0]] + handles[1..] == selected + handles
    ensures selected + [] == selected
  {
  }

  /** The handles posted in the course of a run. */
  function AllPosted(length: nat, steps: seq<Step>): seq<Handle> {
    if steps == [] then []
    else AllPosted(length, steps[..|steps| - 1]) + Posted(After(length, steps[..|steps| - 1]), steps[|steps| - 1])
  }

  /** So while nothing is posted to the front, first posted is first selected. */
  lemma {:induction false} FirstPostedFirstSelected(length: nat, steps: seq<Step>)
    requires Legal(length, steps) && forall k :: 0 <= k < |steps| ==> !ToFront(steps[k])
    ensures Selected(length, steps) + After(length, steps).handles == AllPosted(length, steps)
    decreases |steps|
  {
    SelectedInOrder(length, steps);
    hide Posted, Enabled, Next, ToFront, Selected;
    if steps != [] {
      FirstPostedFirstSelected(length, steps[..|steps| - 1]);
      SelectedInOrder(length, steps[..|steps| - 1]);
    }
  }

  // ----- the queues

  lemma {:induction false} PostQueues(s: QueueSet, h: Handle, n: nat, g: Handle)
    ensures var r := Post(s, h, n);
            && (g in r.queues <==> g in s.queues || (g == h && n != 0))
            && Queue(r, g) == if g == h then Queue(s, g).(txLock := Queue(s, g).txLock - n) else Queue(s, g)
    decreases n
  {
    if n != 0 {
      hide Notify;
      NotifyKeepsAll();
      var m := if h in s.members then Notify(s, h, false) else s;
      PostQueues(Update(m, h, Queue(m, h).(txLock := Queue(m, h).txLock - 1)), h, n - 1, g);
    }
  }

  /** What any step does to a queue: its messages change by what gets in and what is taken out; a selection
      is marked on the queue whose handle was the oldest, and unmarked when it is received from; the
      lock counts what interrupts send meanwhile. */
  predicate Changes(s: QueueSet, step: Step, g: Handle, m: Member, r: Member) {
    && r.length == m.length
    && r.messages + (if TakesOut(s, step, g) then 1 else 0) == m.messages + (if GetsIn(s, step, g) then 1 else 0)
    && r.selected + (if TakesOut(s, step, g) && g in s.members && 0 < m.selected then 1 else 0)
       == m.selected + (if step.DoSelect? && s.handles != [] && s.handles[0] == g then 1 else 0)
    && r.txLock == if step == DoLock(g) && m.txLock == UNLOCKED then 0
                   else if step == DoUnlock(g) then UNLOCKED
                   else if step.DoSendFromISR? && GetsIn(s, step, g) && m.txLock != UNLOCKED then m.txLock + 1
                   else m.txLock
  }

  lemma SendQueues(s: QueueSet, step: Step, g: Handle)
    requires Enabled(s, step) && g in s.queues && (step.DoSend? || step.DoSendFromISR?)
    ensures g in Next(s, step).queues && Changes(s, step, g, Queue(s, g), Queue(Next(s, step), g))
  {
    hide Notify;
    NotifyKeepsAll();
  }

  lemma UnlockQueues(s: QueueSet, h: Handle, g: Handle)
    requires Enabled(s, DoUnlock(h)) && g in s.queues
    ensures g in Next(s, DoUnlock(h)).queues && Changes(s, DoUnlock(h), g, Queue(s, g), Queue(Next(s, DoUnlock(h)), g))
  {
    hide Post;
    PostQueues(s, h, if 0 < Queue(s, h).txLock then Queue(s, h).txLock else 0, g);
  }

  lemma QuietQueues(s: QueueSet, step: Step, g: Handle)
    requires Enabled(s, step) && g in s.queues && !step.DoSend? && !step.DoSendFromISR? && !step.DoUnlock?
    ensures g in Next(s, step).queues && Changes(s, step, g, Queue(s, g), Queue(Next(s, step), g))
  {
  }

  /** So the steps change the queues. */
  lemma StepQueues(s: QueueSet, step: Step, g: Handle)
    requires Enabled(s, step) && g in s.queues
    ensures g in Next(s, step).queues && Changes(s, step, g, Queue(s, g), Queue(Next(s, step), g))
  {
    hide Post, Changes, Queue, Notify;
    match step
    case DoUnlock(h) =>
      UnlockQueues(s, h, g);
    case DoSend(_, _) => SendQueues(s, step, g);
    case DoSendFromISR(_, _) => SendQueues(s, step, g);
    case _ => QuietQueues(s, step, g);
  }

  /** A queue joins the set when it is added while it holds nothing, behind the members there are; it leaves
      when it is taken out; and no other step changes who belongs to the set. */
  lemma StepMembers(s: QueueSet, step: Step)
    requires Enabled(s, step)
    ensures var r := Next(s, step);
            if step.DoAdd? && step.h !in s.members && Queue(s, step.h).messages == 0 then r.members == s.members + [step.h]
            else if step.DoClear? && step.h in s.members then
              exists k {:trigger RemoveAt(s.members, k)} ::
                0 <= k < |s.members| && s.members[k] == step.h && r.members == RemoveAt(s.members, k)
            else r.members == s.members
  {
    hide Post;
    if step.DoUnlock? {
      PostHandles(s, step.h, if 0 < Queue(s, step.h).txLock then Queue(s, step.h).txLock else 0);
    } else if step.DoClear? && step.h in s.members {
      assert Next(s, step).members == RemoveAt(s.members, IndexOf(s.members, step.h));
    }
  }

  /** A removal goes on from its first test to its second exactly for a member, and from there to its critical
      section exactly if the queue is empty then. */
  lemma RemovalGoesOn(s: QueueSet, h: Handle)
    ensures Enabled(s, DoRemove(h)) ==>
              Next(s, DoRemove(h)) == s.(asked := if h in s.members then s.asked[h := s.asked[h] + 1] else s.asked)
    ensures Enabled(s, DoCheckEmpty(h)) ==>
              var r := Next(s, DoCheckEmpty(h));
              && r == s.(asked := s.asked[h := s.asked[h] - 1], removing := r.removing)
              && r.removing == if Queue(s, h).messages == 0 then s.removing[h := s.removing[h] + 1] else s.removing
  {
    if h in s.members {
      assert s.asked + multiset{h} == s.asked[h := s.asked[h] + 1];
    }
    if h in s.asked {
      assert s.asked - multiset{h} == s.asked[h := s.asked[h] - 1];
      assert s.removing + multiset{h} == s.removing[h := s.removing[h] + 1];
    }
  }

  /** The messages that get into queue `h`, and those taken out, in the course of a run. */
  function In(length: nat, steps: seq<Step>, h: Handle): nat {
    if steps == [] then 0
    else
      In(length, steps[..|steps| - 1], h)
      + if GetsIn(After(length, steps[..|steps| - 1]), steps[|steps| - 1], h) then 1 else 0
  }

  function Out(length: nat, steps: seq<Step>, h: Handle): nat {
    if steps == [] then 0
    else
      Out(length, steps[..|steps| - 1], h)
      + if TakesOut(After(length, steps[..|steps| - 1]), steps[|steps| - 1], h) then 1 else 0
  }

  /** The messages of every queue, over every run. */
  lemma {:induction false} MemberBalance(length: nat, steps: seq<Step>, h: Handle)
    requires Legal(length, steps)
    ensures In(length, steps, h) == Out(length, steps, h) + Queue(After(length, steps), h).messages
    decreases |steps|
  {
    hide Enabled, Next, Queue, GetsIn, TakesOut;
    NoQueue(Fresh(length), h);
    if steps != [] {
      var init := steps[..|steps| - 1];
      MemberBalance(length, init, h);
      if h in After(length, init).queues {
        StepQueues(After(length, init), steps[|steps| - 1], h);
      } else {
        NoQueue(After(length, init), h);
        StepAbsent(After(length, init), steps[|steps| - 1], h);
      }
    }
  }

  lemma NoQueue(s: QueueSet, h: Handle)
    requires h !in s.queues
    ensures Queue(s, h).messages == 0
  {
  }

  lemma StepAbsent(s: QueueSet, step: Step, h: Handle)
    requires Enabled(s, step) && h !in s.queues
    ensures Queue(Next(s, step), h).messages == 0 && !GetsIn(s, step, h) && !TakesOut(s, step, h)
  {
    hide Post;
    if step.DoUnlock? {
      PostQueues(s, step.h, if 0 < Queue(s, step.h).txLock then Queue(s, step.h).txLock else 0, h);
    }
  }
}
