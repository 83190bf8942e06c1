/** The lists partition the tasks, and a report made by walking every list names each task once. */
module KernelReport {
  import opened ListValues
  import opened ItemLists
  import opened Kernels
  import opened KernelInvariants
  import opened KernelSteps
  import opened KernelTicks
  import opened KernelRuns
  import opened KernelTime

  /** The lists of state items, in the order `uxTaskGetSystemState` walks them. */
  function StateLists(s: Kernel): (r: seq<ListId>)
    ensures |r| == PRIORITIES + 4
    ensures forall i :: 0 <= i < PRIORITIES ==> r[i] == Ready(PRIORITIES - 1 - i)
  {
    seq(PRIORITIES, i requires 0 <= i < PRIORITIES => Ready(PRIORITIES - 1 - i)) + [s.delayed, s.overflow, Terminated, Suspended]
  }

  function TotalLength(ls: Lists, lists: seq<ListId>): nat {
    if lists == [] then 0 else TotalLength(ls, lists[..|lists| - 1]) + |Items(ls, lists[|lists| - 1])|
  }

  /** `tasks` names, once each, the tasks whose state item is in one of `lists`. */
  ghost predicate Covers(ls: Lists, tasks: seq<Task>, lists: seq<ListId>) {
    && Distinct(tasks)
    && forall t {:trigger t in tasks} {:trigger StateItem(t)} ::
         t in tasks <==> StateItem(t) in ls.container && ls.container[StateItem(t)] in lists
  }

  lemma CoversNone(ls: Lists)
    ensures Covers(ls, [], [])
  {
  }

  lemma CoversMore(ls: Lists, tasks: seq<Task>, lists: seq<ListId>, p: ListId, more: seq<Task>)
    requires Covers(ls, tasks, lists) && Distinct(more) && p !in lists
    requires forall t {:trigger StateItem(t)} :: t in more <==> In(ls, StateItem(t), p)
    ensures Covers(ls, tasks + more, lists + [p])
  {
    var r := tasks + more;
    forall i, j | 0 <= i < j < |r| ensures r[i] != r[j] {
      if i < |tasks| <= j {
        assert r[i] in tasks && r[j] in more;
        assert In(ls, StateItem(r[j]), p);
      }
    }
    forall t ensures t in r <==> StateItem(t) in ls.container && ls.container[StateItem(t)] in lists + [p] {
      assert t in r <==> t in tasks || t in more;
    }
  }

  lemma {:induction false} DistinctCount(tasks: seq<Task>, all: set<Task>)
    requires Distinct(tasks) && forall t :: t in tasks <==> t in all
    ensures |tasks| == |all|
  {
    if tasks == [] {
      assert all == {};
    } else {
      var init := tasks[..|tasks| - 1];
      var last := tasks[|tasks| - 1];
      assert tasks == init + [last];
      assert last !in init;
      DistinctCount(init, all - {last});
    }
  }

  lemma AllListsListed(s: Kernel, p: ListId)
    requires s.delayed in {DelayedA, DelayedB} && s.overflow in {DelayedA, DelayedB} && s.delayed != s.overflow
    ensures IsStateList(p) && (p.Ready? ==> p.priority < PRIORITIES) <==> p in StateLists(s)
    ensures Distinct(StateLists(s))
  {
    if p.Ready? && p.priority < PRIORITIES {
      assert StateLists(s)[PRIORITIES - 1 - p.priority] == p;
    }
    assert StateLists(s)[PRIORITIES] == s.delayed && StateLists(s)[PRIORITIES + 1] == s.overflow;
    assert StateLists(s)[PRIORITIES + 2] == Terminated && StateLists(s)[PRIORITIES + 3] == Suspended;
  }

  /** A walk of all the lists covers every task. */
  lemma CoversAll(s: Kernel, tasks: seq<Task>)
    requires Inv(s) && Covers(s.ls, tasks, StateLists(s))
    ensures forall t :: t in tasks <==> t in s.priority
    ensures |tasks| == s.taskCount
  {
    hide Bits, WakeOrder, CacheSound, StateLists;
    forall t ensures t in tasks <==> t in s.priority {
      if StateItem(t) in s.ls.container {
        AllListsListed(s, s.ls.container[StateItem(t)]);
        assert StateItem(t).task in s.priority;
      }
    }
    DistinctCount(tasks, s.priority.Keys);
  }

  lemma ListMembers(s: Kernel, p: ListId) returns (tasks: seq<Task>)
    requires Inv(s) && IsStateList(p)
    ensures Distinct(tasks) && |tasks| == |Items(s.ls, p)|
    ensures forall i {:trigger tasks[i]} :: 0 <= i < |tasks| ==> Items(s.ls, p)[i] == StateItem(tasks[i])
    ensures forall t {:trigger StateItem(t)} :: t in tasks <==> In(s.ls, StateItem(t), p)
  {
    hide Inv, Good, Items;
    var items := Items(s.ls, p);
    InvIsGood(s);
    forall x ensures x in items ==> x.StateItem? {
      ListFacts(s, p, 1, x);
    }
    tasks := seq(|items|, i requires 0 <= i < |items| => items[i].task);
    ListFacts(s, p, 1, StateItem(0));
    assert forall i {:trigger tasks[i]} :: 0 <= i < |tasks| ==> items[i] in items && items[i] == StateItem(tasks[i]);
    forall t ensures t in tasks <==> In(s.ls, StateItem(t), p) {
      ListFacts(s, p, 1, StateItem(t));
      if StateItem(t) in items {
        var i :| 0 <= i < |items| && items[i] == StateItem(t);
        assert tasks[i] == t;
      }
    }
  }

  lemma {:induction false} PrefixCovered(s: Kernel, k: nat) returns (tasks: seq<Task>)
    requires Inv(s) && k <= |StateLists(s)|
    ensures Covers(s.ls, tasks, StateLists(s)[..k]) && |tasks| == TotalLength(s.ls, StateLists(s)[..k])
  {
    hide Inv, StateLists, Items, IsStateList, Covers, Distinct;
    var lists := StateLists(s);
    ListNames(s);
    if k == 0 {
      tasks := [];
      CoversNone(s.ls);
    } else {
      var init := PrefixCovered(s, k - 1);
      var p := lists[k - 1];
      AllListsListed(s, p);
      var more := ListMembers(s, p);
      assert lists[..k][..k - 1] == lists[..k - 1] && lists[..k] == lists[..k - 1] + [p];
      CoversMore(s.ls, init, lists[..k - 1], p, more);
      tasks := init + more;
    }
  }

  lemma ListNames(s: Kernel)
    requires Inv(s)
    ensures s.delayed in {DelayedA, DelayedB} && s.overflow in {DelayedA, DelayedB} && s.delayed != s.overflow
  {
  }

  lemma OnlyList(s: Kernel, x: Item)
    requires Inv(s)
    ensures forall q :: x in Items(s.ls, q) <==> In(s.ls, x, q)
  {
    InvIsGood(s);
    forall q ensures x in Items(s.ls, q) <==> In(s.ls, x, q) {
      ListFacts(s, q, 1, x);
    }
  }

  lemma LengthsSum(s: Kernel)
    requires Inv(s)
    ensures TotalLength(s.ls, StateLists(s)) == s.taskCount == |s.priority| && s.deletedCount == |Items(s.ls, Terminated)|
  {
    hide StateLists, Items, Good;
    var tasks := PrefixCovered(s, |StateLists(s)|);
    assert StateLists(s)[..|StateLists(s)|] == StateLists(s);
    CoversAll(s, tasks);
  }

  lemma OneStateList(s: Kernel, t: Task) returns (q: ListId)
    requires Inv(s) && t in s.priority
    ensures q in StateLists(s) && StateItem(t) in Items(s.ls, q) && forall q' :: q' != q ==> StateItem(t) !in Items(s.ls, q')
  {
    hide Inv, Good, StateLists, Items;
    InvIsGood(s);
    TaskFacts(s, t, 1);
    q := s.ls.container[StateItem(t)];
    ListNames(s);
    OnlyList(s, StateItem(t));
    AllListsListed(s, q) by { ReadyInRange(s, t); }
  }

  lemma ReadyInRange(s: Kernel, t: Task)
    requires Good(s, {}, 1) && t in s.priority && StateItem(t) in s.ls.container
    ensures s.ls.container[StateItem(t)].Ready? ==> s.ls.container[StateItem(t)].priority < PRIORITIES
  {
    hide Shape, Bits, Clock;
  }

  lemma SameList(s: Kernel, x: Item, q: ListId, q': ListId)
    requires Inv(s) && x in Items(s.ls, q) && x in Items(s.ls, q')
    ensures q == q'
  {
    hide Inv, Items;
    OnlyList(s, x);
  }

  /** The partition: in every reachable state each task's state item is in exactly one of the state
      lists and its event item in at most one list, the lengths of the state lists sum to
      `uxCurrentNumberOfTasks`, and `uxTasksDeleted` is the length of the termination list. */
  lemma Partition(b: Task, p: nat, steps: seq<Step>)
    requires Legal(Boot(b, p), steps)
    ensures var s := After(Boot(b, p), steps);
            && TotalLength(s.ls, StateLists(s)) == s.taskCount == |s.priority|
            && s.deletedCount == |Items(s.ls, Terminated)|
            && (forall t :: t in s.priority ==>
                 exists q :: q in StateLists(s) && StateItem(t) in Items(s.ls, q)
                             && forall q' :: q' != q ==> StateItem(t) !in Items(s.ls, q'))
            && (forall t, q, q' :: EventItem(t) in Items(s.ls, q) && EventItem(t) in Items(s.ls, q') ==> q == q')
  {
    hide Legal, After, Boot, StateLists, Inv, Items, In;
    ReachableInv(b, p, steps);
    var s := After(Boot(b, p), steps);
    LengthsSum(s);
    forall t | t in s.priority
      ensures exists q :: q in StateLists(s) && StateItem(t) in Items(s.ls, q)
                          && forall q' :: q' != q ==> StateItem(t) !in Items(s.ls, q') {
      var q := OneStateList(s, t);
    }
    forall t, q, q' | EventItem(t) in Items(s.ls, q) && EventItem(t) in Items(s.ls, q') ensures q == q' {
      SameList(s, EventItem(t), q, q');
    }
  }

  // ----- the report

  datatype TaskState = Running | Runnable | Blocked | Dormant | Deleted

  datatype TaskStatus = TaskStatus(task: Task, state: TaskState, priority: nat, basePriority: nat)

  /** `eTaskGetState` */
  function StateOf(s: Kernel, t: Task): TaskState {
    if t == s.current then Running
    else if StateIn(s, t, s.delayed) || StateIn(s, t, s.overflow) then Blocked
    else if StateIn(s, t, Suspended) then (if EventItem(t) !in s.ls.container then Dormant else Blocked)
    else if StateIn(s, t, Terminated) then Deleted
    else Runnable
  }

  /** Where a task's items can be. */
  lemma TaskPlaces(s: Kernel, t: Task)
    requires Inv(s) && t in s.priority
    ensures StateItem(t) in s.ls.container
    ensures var p := s.ls.container[StateItem(t)];
            && (p.Ready? || p.Terminated? ==> EventItem(t) !in s.ls.container)
            && (p.DelayedA? || p.DelayedB? <==> p == s.delayed || p == s.overflow)
            && (p.Ready? || p.DelayedA? || p.DelayedB? || p.Suspended? || p.Terminated?)
  {
    InvIsGood(s);
    ListNames(s);
    hide Inv, Good;
    TaskFacts(s, t, 1);
  }

  /** What the states mean, for every task but the running one: a task is ready, or suspended, or deleted as its
      list says, and blocked when it waits for a time or for an event. */
  lemma StateMeans(s: Kernel, t: Task)
    requires Inv(s) && t in s.priority && t != s.current
    ensures StateOf(s, t) == Runnable <==> IsReady(s, t)
    ensures StateOf(s, t) == Blocked <==> Timed(s, t) || EventItem(t) in s.ls.container
    ensures StateOf(s, t) == Dormant <==> IsSuspended(s, t)
    ensures StateOf(s, t) == Deleted <==> StateIn(s, t, Terminated)
    ensures StateOf(s, s.current) == Running
  {
    hide Inv;
    TaskPlaces(s, t);
    match s.ls.container[StateItem(t)]
    case Ready(_) =>
    case DelayedA =>
    case DelayedB =>
    case Suspended =>
    case Terminated =>
  }

  /** The state `uxTaskGetSystemState` gives to the tasks it finds in a list. */
  function ListState(p: ListId): TaskState {
    match p
    case DelayedA => Blocked
    case DelayedB => Blocked
    case Suspended => Dormant
    case Terminated => Deleted
    case _ => Runnable
  }

  /** What the report says of one task found in a list that stands for `state`: a task suspended in
      an event list is really blocked. */
  function Status(ls: Lists, priority: map<Task, nat>, basePriority: map<Task, nat>, t: Task, state: TaskState): TaskStatus {
    TaskStatus(t, if state == Dormant && EventItem(t) in ls.container then Blocked else state,
               if t in priority then priority[t] else 0, if t in basePriority then basePriority[t] else 0)
  }

  function TasksOf(report: seq<TaskStatus>): (r: seq<Task>)
    ensures |r| == |report| && forall i :: 0 <= i < |r| ==> r[i] == report[i].task
  {
    seq(|report|, i requires 0 <= i < |report| => report[i].task)
  }

  /** The walk of a list comes back to where it started after as many advances as there are items. */
  lemma WalkReturns<T>(l: ListValue<T>, k: nat)
    requires Valid(l) && l.items != [] && 1 <= k <= |l.items| + 1
    ensures Visit(l, k) == Visit(l, 1) <==> k == 1 || k == |l.items| + 1
  {
    var n := |l.items|;
    VisitLands(l, n);
    VisitLands(l, 1);
    if k <= n {
      VisitLands(l, k);
      hide AdvanceBy, Visit;
      assert Landing(l, k) == Landing(l, 1) <==> k == 1;
    } else {
      assert AdvanceBy(l, n + 1) == Advance(AdvanceBy(l, n));
      hide AdvanceBy;
    }
  }

  /** The item the `i`-th status is about. */
  function Turn<T>(l: ListValue<T>, i: nat): (k: nat)
    requires l.index <= |l.items| && i < |l.items|
    ensures k < |l.items|
  {
    Landing(l, if i + 2 <= |l.items| then i + 2 else 1)
  }

  lemma TurnVisits<T>(l: ListValue<T>, i: nat)
    requires Valid(l) && i < |l.items|
    ensures Visit(l, i + 2) == l.items[Turn(l, i)]
  {
    WalkReturns(l, i + 2);
    VisitLands(l, if i + 2 <= |l.items| then i + 2 else 1);
    hide AdvanceBy, Visit;
  }

  /** The turns run through all the positions of the list. */
  lemma Turned<T>(l: ListValue<T>, members: seq<Task>, tasks: seq<Task>)
    requires l.index <= |l.items| == |members| == |tasks| && Distinct(members)
    requires forall i :: 0 <= i < |tasks| ==> tasks[i] == members[Turn(l, i)]
    ensures Distinct(tasks) && forall t :: t in tasks <==> t in members
  {
    var n := |tasks|;
    forall k | 0 <= k < n ensures members[k] in tasks {
      var i := if k == Landing(l, 1) then n - 1 else if k > Landing(l, 1) then k - Landing(l, 1) - 1 else k + n - Landing(l, 1) - 1;
      assert Turn(l, i) == k && tasks[i] == members[k];
    }
    forall i, j | 0 <= i < j < n ensures tasks[i] != tasks[j] {
      assert Turn(l, i) != Turn(l, j);
    }
  }

  /** The report of one list names its tasks once each. */
  lemma ListReport(s: Kernel, p: ListId, state: TaskState, report: seq<TaskStatus>)
    requires Inv(s) && IsStateList(p) && |report| == |Items(s.ls, p)|
    requires forall i {:trigger report[i]} :: 0 <= i < |report| ==>
               report[i] == Status(s.ls, s.priority, s.basePriority, Visit(List(s.ls, p), i + 2).task, state)
    ensures Distinct(TasksOf(report))
    ensures forall t {:trigger StateItem(t)} :: t in TasksOf(report) <==> In(s.ls, StateItem(t), p)
  {
    hide Inv, AdvanceBy, Visit, Landing, Turn;
    var l := List(s.ls, p);
    var n := |l.items|;
    var members := ListMembers(s, p);
    ValidList(s, p);
    forall i {:trigger report[i]} | 0 <= i < n ensures report[i].task == members[Turn(l, i)] {
      TurnVisits(l, i);
    }
    var tasks := TasksOf(report);
    assert forall i :: 0 <= i < n ==> tasks[i] == members[Turn(l, i)];
    Turned(l, members, tasks);
    hide TasksOf, In;
  }

  lemma ValidList(s: Kernel, p: ListId)
    requires Inv(s)
    ensures Valid(List(s.ls, p))
  {
    hide Placement, Bits, WakeOrder, CacheSound;
  }

  /** `report` names, once each and with their status, the tasks of `lists`. */
  ghost predicate Reported(s: Kernel, report: seq<TaskStatus>, lists: seq<ListId>) {
    && Covers(s.ls, TasksOf(report), lists)
    && forall i {:trigger report[i]} :: 0 <= i < |report| ==>
         && StateItem(report[i].task) in s.ls.container
         && report[i] == Status(s.ls, s.priority, s.basePriority, report[i].task, ListState(s.ls.container[StateItem(report[i].task)]))
  }

  lemma ReportedMore(s: Kernel, report: seq<TaskStatus>, lists: seq<ListId>, p: ListId, more: seq<TaskStatus>)
    requires Inv(s) && IsStateList(p) && p !in lists && Reported(s, report, lists) && |more| == |Items(s.ls, p)|
    requires forall i {:trigger more[i]} :: 0 <= i < |more| ==>
               more[i] == Status(s.ls, s.priority, s.basePriority, Visit(List(s.ls, p), i + 2).task, ListState(p))
    ensures Reported(s, report + more, lists + [p])
  {
    hide Inv, Covers, Items, AdvanceBy, Visit;
    ListReport(s, p, ListState(p), more);
    CoversMore(s.ls, TasksOf(report), lists, p, TasksOf(more));
    assert TasksOf(report + more) == TasksOf(report) + TasksOf(more);
    forall i {:trigger more[i]} | 0 <= i < |more| ensures In(s.ls, StateItem(more[i].task), p) {
      assert TasksOf(more)[i] in TasksOf(more);
    }
  }

  /** A walk moves the cursors and nothing else. */
  ghost predicate Walked(s: Kernel, r: Kernel) {
    && r == s.(ls := r.ls) && r.ls == s.ls.(contents := r.ls.contents)
    && r.ls.contents.Keys == s.ls.contents.Keys
    && (forall q :: Items(r.ls, q) == Items(s.ls, q))
  }

  lemma WalkedConsistent(ls: Lists, r: Lists)
    requires Consistent(ls) && r == ls.(contents := r.contents) && r.contents.Keys == ls.contents.Keys
    requires forall q :: Items(r, q) == Items(ls, q)
    ensures Consistent(r)
  {
    assert forall q :: q in ls.contents ==> r.contents[q].items == Items(r, q) && ls.contents[q].items == Items(ls, q);
    hide Items;
  }

  lemma WalkedGood(s: Kernel, r: Kernel)
    requires Good(s, {}, 1) && Walked(s, r)
    ensures Good(r, {}, 1)
  {
    hide Placement, Bits, WakeOrder, CacheSound, Consistent, Items, Shape;
    ShapeFacts(s);
    WalkedConsistent(s.ls, r.ls);
    ShapeStays(s, r);
    AdvanceBits(s.ls, r.ls, s.readyBits, s.topReady, s.topReady) by { BitsBound(s.ls, s.readyBits, s.topReady); }
    AdvanceClock(s.ls, r.ls, s.delayed, s.overflow, s.tick, s.unblockTime);
  }

  lemma BitsBound(ls: Lists, readyBits: set<nat>, top: nat)
    requires Bits(ls.contents, readyBits, top)
    ensures (forall q :: q in readyBits ==> q <= top) && top < PRIORITIES
  {
  }

  lemma WalkedInv(s: Kernel, r: Kernel)
    requires Inv(s) && Walked(s, r)
    ensures Inv(r)
  {
    hide Inv, Good, Items;
    InvParts(s);
    WalkedGood(s, r);
    InvFromMoved(s, r);
  }

  lemma WalkedReported(s: Kernel, r: Kernel, report: seq<TaskStatus>, lists: seq<ListId>)
    requires Walked(s, r) && Reported(s, report, lists)
    ensures Reported(r, report, lists)
  {
  }

  lemma ReportedState(s: Kernel, e: TaskStatus, p: ListId)
    requires p in StateLists(s) && s.delayed in {DelayedA, DelayedB} && s.overflow in {DelayedA, DelayedB} && s.delayed != s.overflow
    requires In(s.ls, StateItem(e.task), p)
    requires e == Status(s.ls, s.priority, s.basePriority, e.task, ListState(p))
    ensures e.task != s.current ==> e.state == StateOf(s, e.task)
  {
    AllListsListed(s, p);
  }

  /** A complete report: every task, once, and in the state `eTaskGetState` would give, except that
      the running task counts as ready. */
  lemma ReportIsComplete(s: Kernel, report: seq<TaskStatus>)
    requires Inv(s) && Reported(s, report, StateLists(s))
    ensures |report| == s.taskCount && Distinct(TasksOf(report))
    ensures forall t :: t in TasksOf(report) <==> t in s.priority
    ensures forall i :: 0 <= i < |report| ==>
              var t := report[i].task;
              && t in s.priority && report[i].priority == s.priority[t]
              && t in s.basePriority && report[i].basePriority == s.basePriority[t]
              && (t != s.current ==> report[i].state == StateOf(s, t))
  {
    hide Inv, Good, StateLists, ListState, StateOf;
    CoversAll(s, TasksOf(report));
    ListNames(s);
    InvIsGood(s);
    BasesBounded(s);
    forall i | 0 <= i < |report|
      ensures var t := report[i].task;
              && t in s.priority && report[i].priority == s.priority[t]
              && t in s.basePriority && report[i].basePriority == s.basePriority[t]
              && (t != s.current ==> report[i].state == StateOf(s, t))
    {
      assert TasksOf(report)[i] in TasksOf(report);
      ReportedState(s, report[i], s.ls.container[StateItem(report[i].task)]);
    }
  }
}
