/** Tasks of equal priority share the processor: a tick asks for a switch exactly when there is
    somebody to share with, and successive switches give everybody a turn. */
module KernelSharing {
  import opened ListValues
  import opened ItemLists
  import opened Kernels
  import opened KernelInvariants
  import opened KernelSteps
  import opened KernelTicks
  import opened KernelRuns
  import opened KernelPriority
  import opened KernelReport
  import opened KernelSelection

  // ----- taking turns

  /** The state after `n` context switches. */
  function Switches(s: Kernel, n: nat): Kernel {
    if n == 0 then s else SwitchContext(Switches(s, n - 1))
  }

  function Top(s: Kernel): nat {
    Highest(s.readyBits, PRIORITIES - 1)
  }

  lemma OneSwitch(s: Kernel)
    requires Inv(s) && s.started && s.suspendDepth == 0
    ensures var r := SwitchContext(s);
            var l := List(s.ls, Ready(Top(s)));
            && l.items != [] && List(r.ls, Ready(Top(s))) == Advance(l)
            && StateItem(r.current) == Entry(Advance(l))
            && r.readyBits == s.readyBits && r.started && r.suspendDepth == 0 && Inv(r)
  {
    hide Inv, Highest;
    SwitchContextInv(s);
    HighestReady(s);
    ReadyMember(s, Top(s), Entry(Advance(List(s.ls, Ready(Top(s))))));
  }

  /** Each switch moves the cursor of the highest occupied ready list on by one, and runs the task there. */
  lemma {:induction false} SwitchesAdvance(s: Kernel, n: nat)
    requires Inv(s) && s.started && s.suspendDepth == 0
    ensures var r := Switches(s, n);
            var l := List(s.ls, Ready(Top(s)));
            && l.items != [] && List(r.ls, Ready(Top(s))) == AdvanceBy(l, n)
            && (0 < n ==> StateItem(r.current) == Visit(l, n))
            && r.readyBits == s.readyBits && r.started && r.suspendDepth == 0 && Inv(r)
  {
    hide Inv, Highest, SwitchContext;
    if n == 0 {
      OneSwitch(s);
    } else {
      SwitchesAdvance(s, n - 1);
      OneSwitch(Switches(s, n - 1));
    }
  }

  /** With `k` tasks ready at the highest priority, `k` switches run each of them, and none twice. */
  lemma EachTakesATurn(s: Kernel, t: Task)
    requires Inv(s) && s.started && s.suspendDepth == 0 && IsReady(s, t) && Priority(s, t) == Top(s)
    ensures var k := |Items(s.ls, Ready(Top(s)))|;
            && (exists n :: 1 <= n <= k && Switches(s, n).current == t)
            && (forall n, m :: 1 <= n < m <= k ==> Switches(s, n).current != Switches(s, m).current)
  {
    ValidList(s, Ready(Top(s)));
    ReadyBit(s, t);
    hide Inv, Highest, Switches;
    var l := List(s.ls, Ready(Top(s)));
    var i :| 0 <= i < |l.items| && l.items[i] == StateItem(t);
    AdvancesVisitEachOnce(l, i);
    forall n | 1 <= n <= |l.items| ensures StateItem(Switches(s, n).current) == Visit(l, n) {
      SwitchesAdvance(s, n);
    }
  }

  // ----- time slices

  /** A tick, while nothing else calls for a switch, asks for one exactly when some other ready task
      has at least the running task's priority. */
  lemma TickSharesTime(s: Kernel)
    requires Inv(s) && s.started && s.suspendDepth == 0 && NoRival(s) && !s.switchRequested && !s.yieldPending
    requires s.current !in s.creating && IsReady(s, s.current)
    ensures var r := TickInterrupt(s);
            r.switchRequested <==> exists u :: u != s.current && IsReady(r, u) && Priority(r, u) >= Priority(r, s.current)
  {
    hide Inv, TickSwitches, ProcessTick, NoRival;
    TickInterruptInv(s);
    TickFlags(s);
    var r := TickInterrupt(s);
    if TickSwitches(s) {
      var u := Sharer(s);
    } else {
      forall u | u != s.current && IsReady(r, u) ensures Priority(r, u) < Priority(r, s.current) {
        NoSharer(s, u);
      }
    }
  }

  lemma TickFlags(s: Kernel)
    requires Inv(s) && s.suspendDepth == 0 && !s.switchRequested
    ensures var r := TickInterrupt(s);
            && r.switchRequested == TickSwitches(s) && r.priority == s.priority && r.current == s.current
            && r.ls == ProcessTick(s).ls && r.readyBits == ProcessTick(s).readyBits
            && forall t :: IsReady(s, t) ==> IsReady(r, t)
  {
    hide Good, ProcessTick, TickSwitches;
    ProcessTickFrame(s);
  }

  /** What the tick says when it asks for a switch. */
  lemma TickSays(s: Kernel)
    requires TickSwitches(s) && !s.yieldPending
    ensures || WakesRival(Advanced(s), Due(Advanced(s)))
            || |Items(ProcessTick(s).ls, Ready(Priority(s, s.current)))| > 1
  {
    hide Advanced, ProcessTick, WakesRival;
  }

  lemma Sharer(s: Kernel) returns (u: Task)
    requires Inv(s) && s.started && s.suspendDepth == 0 && !s.switchRequested && !s.yieldPending
    requires IsReady(s, s.current) && TickSwitches(s)
    ensures var r := TickInterrupt(s); u != s.current && IsReady(r, u) && Priority(r, u) >= Priority(r, s.current)
  {
    TickSays(s);
    TickFlags(s);
    TickInterruptInv(s);
    hide TickSwitches, ProcessTick, Inv, TickInterrupt;
    var r := TickInterrupt(s);
    if WakesRival(Advanced(s), Due(Advanced(s))) {
      u := WokenRival(s);
    } else {
      ReadyBitOf(r, s.current);
      u := Another(r, Priority(r, s.current), s.current);
    }
  }

  lemma ReadyBitOf(s: Kernel, t: Task)
    requires Inv(s) && IsReady(s, t)
    ensures Priority(s, t) in s.readyBits
  {
    hide Good;
    ReadyBit(s, t);
  }

  lemma WokenRival(s: Kernel) returns (u: Task)
    requires Inv(s) && IsReady(s, s.current) && WakesRival(Advanced(s), Due(Advanced(s)))
    ensures u != s.current && IsReady(ProcessTick(s), u) && Priority(s, u) >= Priority(s, s.current)
  {
    InvIsGood(s);
    hide Inv, Good, ProcessTick, Advanced, Due, WakesRival, Ticked;
    ProcessTickGood(s);
    AdvancedGood(s);
    u := WokenHere(Advanced(s), ProcessTick(s));
  }

  lemma WokenHere(s: Kernel, r: Kernel) returns (u: Task)
    requires Good(s, {}, 0) && Ticked(s, r, Due(s)) && IsReady(s, s.current) && WakesRival(s, Due(s))
    ensures u != s.current && IsReady(r, u) && Priority(s, u) >= Priority(s, s.current)
  {
    hide Good, Due, Items;
    var items := Items(s.ls, s.delayed);
    var i :| 0 <= i < Due(s) && i < |items| && Priority(s, items[i].task) >= Priority(s, s.current);
    ListFacts(s, s.delayed, 0, items[i]);
    u := items[i].task;
    assert items[..Due(s)][i] == StateItem(u);
  }

  lemma NoSharer(s: Kernel, u: Task)
    requires Inv(s) && s.started && s.suspendDepth == 0 && NoRival(s) && !s.switchRequested && !s.yieldPending
    requires s.current !in s.creating && IsReady(s, s.current) && !TickSwitches(s) && u != s.current && IsReady(TickInterrupt(s), u)
    ensures Priority(s, u) < Priority(s, s.current)
  {
    TickFlags(s);
    TickInterruptInv(s);
    if !IsReady(s, u) {
      InvIsGood(s);
      hide Inv, Good, TickSwitches, ProcessTick;
      TickReports(s, u);
    } else if Priority(s, u) == Priority(s, s.current) {
      OneAlone(s);
      hide Inv, TickSwitches, ProcessTick;
      TwoReady(TickInterrupt(s), u, s.current);
    }
  }

  lemma OneAlone(s: Kernel)
    requires !TickSwitches(s)
    ensures |Items(ProcessTick(s).ls, Ready(Priority(s, s.current)))| <= 1
  {
    hide Advanced, ProcessTick, WakesRival;
  }

  lemma TwoReady(s: Kernel, t: Task, u: Task)
    requires Inv(s) && IsReady(s, t) && IsReady(s, u) && t != u && Priority(s, t) == Priority(s, u)
    ensures 1 < |Items(s.ls, Ready(Priority(s, t)))|
  {
    hide Inv, Good, Items, IsReady;
    InvIsGood(s);
    ReadyBit(s, t);
    ReadyBit(s, u);
    var items := Items(s.ls, Ready(Priority(s, t)));
    assert StateItem(t) in items && StateItem(u) in items;
  }
}
