/** queue.c: the blocking calls with their timeouts. The retry loops of `xQueueGenericSend` and
    `xQueueGenericReceive` run over the protocol of `QueueProtocol`, with the timeout of `TimeOuts` for
    each caller: a call reports full or empty only after the wait it was given. */
module QueueTimeouts {
  import A = QueueAccounts
  import P = QueueProtocol
  import opened Kernels
  import opened TimeOuts

  type Task = nat

  /** The local variables of a call. */
  datatype Patience = Patience(
    /** What the caller asked for. */
    asked: nat,
    /** `xTimeOut`, and in its `ticks` what is left of `xTicksToWait`. */
    timeout: Timeout,
    /** `xEntryTimeSet` */
    entered: bool,
    /** Histories: the unbounded ticks at which the entry time was set, and at which the timeout was last
        set or checked. */
    start: nat,
    checked: nat)

  /** A call has reported full or empty, so many ticks after it first found the queue so. */
  datatype Report = Report(asked: nat, waited: nat)

  datatype Timed = Timed(queue: P.Queue, now: nat, waits: map<Task, Patience>, reports: seq<Report>)

  datatype Step =
    | DoTick
    | DoBegin(t: Task, call: P.Call, ticks: nat)
    | DoAttempt(t: Task)
    | DoCheck(t: Task)
    | DoOther(step: P.Step)

  /** Whether the call finds what it needs. */
  predicate Succeeds(q: P.Queue, call: P.Call) {
    if call.Send? then P.HasRoom(q, call.overwrite) else 0 < q.messages
  }

  /** The step of the protocol, with what the timeout decides filled in. */
  function Protocol(s: Timed, step: Step): P.Step
    requires !step.DoTick? && (step.DoAttempt? || step.DoCheck? ==> step.t in s.waits)
    requires step.DoCheck? ==> s.waits[step.t].timeout.entered < WORD
  {
    match step
    case DoBegin(t, call, _) => P.DoCall(t, call)
    case DoAttempt(t) => P.DoAttempt(t, s.waits[t].timeout.ticks != 0)
    case DoCheck(t) => P.DoCheckTimeOut(t, Check(s.waits[t].timeout, s.now).0)
    case DoOther(p) => p
  }

  /** When each step can happen: as in the protocol, and ticks so that no more than 2^32 pass between two
      checks of a call. */
  predicate Enabled(s: Timed, step: Step) {
    match step
    case DoTick => forall t :: t in s.waits && s.waits[t].entered ==> s.now < s.waits[t].checked + WORD
    case DoBegin(t, call, ticks) => ticks < WORD && P.Enabled(s.queue, P.DoCall(t, call))
    case DoAttempt(t) => t in s.waits && P.Enabled(s.queue, Protocol(s, step))
    case DoCheck(t) => t in s.waits && s.waits[t].timeout.entered < WORD && P.Enabled(s.queue, Protocol(s, step))
    case DoOther(p) => !p.DoCall? && !p.DoAttempt? && !p.DoCheckTimeOut? && P.Enabled(s.queue, p)
  }

  function Leave(s: Timed, t: Task): Timed {
    s.(waits := s.waits - {t})
  }

  function Reported(s: Timed, t: Task): Timed
    requires t in s.waits
  {
    var w := s.waits[t];
    Leave(s, t).(reports := s.reports + [Report(w.asked, if w.entered && w.start <= s.now then s.now - w.start else 0)])
  }

  /** What the step does to the caller's own variables. */
  function Account(s: Timed, step: Step): Timed
    requires Enabled(s, step)
  {
    match step
    case DoTick => s.(now := s.now + 1)
    case DoBegin(t, _, ticks) => s.(waits := s.waits[t := Patience(ticks, Timeout(0, 0, ticks), false, s.now, s.now)])
    case DoAttempt(t) =>
      var w := s.waits[t];
      if Succeeds(s.queue, s.queue.calls[t].call) then Leave(s, t)
      else if w.timeout.ticks == 0 then Reported(s, t)
      else if !w.entered then
        s.(waits := s.waits[t := w.(timeout := Restart(w.timeout, s.now), entered := true, start := s.now, checked := s.now)])
      else s
    case DoCheck(t) =>
      var w := s.waits[t];
      var r := Check(w.timeout, s.now);
      if r.0 then s else s.(waits := s.waits[t := w.(timeout := r.1, checked := s.now)])
    case DoOther(p) =>
      if p.DoResumeAll? && p.t in s.waits && s.queue.calls[p.t].phase == P.Released(P.WillFail) then Reported(s, p.t) else s
  }

  function Next(s: Timed, step: Step): Timed
    requires Enabled(s, step)
  {
    var r := Account(s, step);
    if step.DoTick? then r else r.(queue := P.Next(s.queue, Protocol(s, step)))
  }

  // ----- the invariant

  predicate Failing(p: P.Phase) {
    (p.Deciding? || p.HalfUnlocked? || p.Released?) && p.outcome.WillFail?
  }

  /** What holds of one call. */
  predicate Exact(now: nat, phase: P.Phase, w: Patience) {
    && w.asked < WORD && w.timeout.entered < WORD
    && (!w.entered ==> w.timeout.ticks == w.asked && phase == P.Attempting)
    && (w.entered ==>
          && w.start <= w.checked <= now <= w.checked + WORD && 0 < w.timeout.ticks
          && (w.asked == MAX_DELAY ==> w.timeout.ticks == MAX_DELAY && !Failing(phase))
          && (w.asked < MAX_DELAY ==>
                && w.timeout == Restart(w.timeout, w.checked)
                && w.timeout.ticks + (w.checked - w.start) == w.asked
                && (Failing(phase) ==> w.asked <= now - w.start)))
  }

  ghost predicate Inv(s: Timed) {
    && s.waits.Keys == s.queue.calls.Keys
    && (forall t :: t in s.waits ==> Exact(s.now, s.queue.calls[t].phase, s.waits[t]))
    && (forall r :: r in s.reports ==> r.asked < MAX_DELAY && r.asked <= r.waited)
  }

  /** A check, made in time, tells exactly whether the whole wait has passed. */
  lemma CheckTells(s: Timed, t: Task)
    requires Inv(s) && Enabled(s, DoCheck(t))
    ensures var w := s.waits[t];
            && w.entered
            && (Check(w.timeout, s.now).0 <==> w.asked < MAX_DELAY && w.asked <= s.now - w.start)
  {
    var w := s.waits[t];
    if w.asked < MAX_DELAY {
      CheckInTime(w.timeout, w.checked, s.now);
    }
  }

  lemma CheckInv(s: Timed, t: Task)
    requires Inv(s) && Enabled(s, DoCheck(t))
    ensures Inv(Next(s, DoCheck(t)))
  {
    CheckTells(s, t);
    var w := s.waits[t];
    if w.asked < MAX_DELAY {
      CheckInTime(w.timeout, w.checked, s.now);
    }
  }

  lemma TickInv(s: Timed)
    requires Inv(s) && Enabled(s, Step.DoTick)
    ensures Inv(Next(s, Step.DoTick))
  {
  }

  lemma BeginInv(s: Timed, t: Task, call: P.Call, ticks: nat)
    requires Inv(s) && Enabled(s, DoBegin(t, call, ticks))
    ensures Inv(Next(s, DoBegin(t, call, ticks)))
  {
  }

  /** What an attempt does to the calls. */
  lemma AttemptCalls(q: P.Queue, t: Task, blocks: bool)
    requires P.Enabled(q, P.DoAttempt(t, blocks))
    ensures var r := P.Next(q, P.DoAttempt(t, blocks));
            r.calls == if Succeeds(q, q.calls[t].call) || !blocks then q.calls - {t}
                       else q.calls[t := P.Progress(q.calls[t].call, P.Entering)]
  {
  }

  lemma AttemptInv(s: Timed, t: Task)
    requires Inv(s) && Enabled(s, DoAttempt(t))
    ensures Inv(Next(s, DoAttempt(t)))
  {
    AttemptCalls(s.queue, t, s.waits[t].timeout.ticks != 0);
    hide P.Next, P.Enabled;
  }

  /** One call goes on to another phase, failing only if it was failing. */
  predicate Moves(q: P.Queue, r: P.Queue, t: Task) {
    && t in q.calls && t in r.calls && r.calls == q.calls[t := P.Progress(q.calls[t].call, r.calls[t].phase)]
    && (Failing(r.calls[t].phase) ==> Failing(q.calls[t].phase))
  }

  lemma MovesOne(q: P.Queue, p: P.Step, t: Task)
    requires P.Enabled(q, p)
    requires p.DoSuspendAll? || p.DoLock? || p.DoCheckQueue? || p.DoPlace? || p.DoUnlockTx? || p.DoUnlockRx?
             || (p.DoResumeAll? && q.calls[p.t].phase != P.Released(P.WillFail))
    requires p.t == t
    ensures Moves(q, P.Next(q, p), t) && q.calls[t].phase != P.Attempting
  {
    hide P.WakeReceivers, P.WakeSenders, P.Inserted;
  }

  /** What the remaining steps do to the calls: they end a failed one, move one on, or leave them alone. */
  lemma OtherCalls(q: P.Queue, p: P.Step)
    requires !p.DoCall? && !p.DoAttempt? && !p.DoCheckTimeOut? && P.Enabled(q, p)
    ensures var r := P.Next(q, p);
            || (r.calls == q.calls && !p.DoResumeAll?)
            || (p.DoResumeAll? && p.t in q.calls && q.calls[p.t].phase == P.Released(P.WillFail) && r.calls == q.calls - {p.t})
            || (exists t :: t in q.calls && q.calls[t].phase != P.Attempting && Moves(q, r, t)
                            && (p.DoResumeAll? ==> p.t == t && q.calls[t].phase != P.Released(P.WillFail)))
  {
    hide P.WakeReceivers, P.WakeSenders, P.Inserted, P.Removed, Moves;
    match p
    case DoSuspendAll(t) => MovesOne(q, p, t);
    case DoLock(t) => MovesOne(q, p, t);
    case DoCheckQueue(t) => MovesOne(q, p, t);
    case DoPlace(t) => MovesOne(q, p, t);
    case DoUnlockTx(t) => MovesOne(q, p, t);
    case DoUnlockRx(t) => MovesOne(q, p, t);
    case DoResumeAll(t) =>
      if q.calls[t].phase != P.Released(P.WillFail) {
        MovesOne(q, p, t);
      }
    case _ =>
  }

  lemma MovedExact(now: nat, was: P.Phase, phase: P.Phase, w: Patience)
    requires Exact(now, was, w) && was != P.Attempting && (Failing(phase) ==> Failing(was))
    ensures Exact(now, phase, w)
  {
    hide Failing, Restart;
  }

  /** A call that gives up has waited as long as it asked to. */
  lemma FailureReported(s: Timed, t: Task)
    requires Inv(s) && t in s.waits && s.queue.calls[t].phase == P.Released(P.WillFail)
    ensures var r := Reported(s, t); forall x :: x in r.reports ==> x.asked < MAX_DELAY && x.asked <= x.waited
  {
    hide Restart;
  }

  lemma MovedInv(s: Timed, q: P.Queue, t: Task)
    requires Inv(s) && t in s.queue.calls && s.queue.calls[t].phase != P.Attempting && Moves(s.queue, q, t)
    ensures Inv(s.(queue := q))
  {
    hide Exact, Failing;
    MovedExact(s.now, s.queue.calls[t].phase, q.calls[t].phase, s.waits[t]);
  }

  lemma OtherInv(s: Timed, p: P.Step)
    requires Inv(s) && Enabled(s, DoOther(p))
    ensures Inv(Next(s, DoOther(p)))
  {
    hide P.Next, P.Enabled, Exact, Failing, Moves;
    OtherCalls(s.queue, p);
    var q := P.Next(s.queue, p);
    if q.calls == s.queue.calls {
    } else if p.DoResumeAll? && s.queue.calls[p.t].phase == P.Released(P.WillFail) {
      FailureReported(s, p.t);
    } else {
      var t :| t in s.queue.calls && s.queue.calls[t].phase != P.Attempting && Moves(s.queue, q, t)
               && (p.DoResumeAll? ==> p.t == t && s.queue.calls[t].phase != P.Released(P.WillFail));
      MovedInv(s, q, t);
    }
  }

  lemma StepInv(s: Timed, step: Step)
    requires Inv(s) && Enabled(s, step)
    ensures Inv(Next(s, step))
  {
    hide Inv, Enabled, Next;
    match step
    case DoTick => TickInv(s);
    case DoBegin(t, call, ticks) => BeginInv(s, t, call, ticks);
    case DoAttempt(t) => AttemptInv(s, t);
    case DoCheck(t) => CheckInv(s, t);
    case DoOther(p) => OtherInv(s, p);
  }

  // ----- when a call reports

  /** An attempt that finds what it needs ends the call with no report; one that does not reports at once if
      no wait was asked for; and otherwise the call goes on, its entry time set the first time and kept
      after that. */
  lemma AttemptSettles(s: Timed, t: Task)
    requires Inv(s) && Enabled(s, DoAttempt(t))
    ensures var w := s.waits[t];
            var r := Next(s, DoAttempt(t));
            && t in s.queue.calls
            && if A.CanGo(s.queue, s.queue.calls[t].call) then t !in r.waits && r.reports == s.reports
               else if w.asked == 0 then t !in r.waits && r.reports == s.reports + [Report(0, 0)]
               else && t in r.waits && r.reports == s.reports && r.waits[t].asked == w.asked
                    && r.waits[t].entered && r.waits[t].start == if w.entered then w.start else s.now
  {
    hide P.Next, P.Enabled, Restart;
  }

  /** A check makes the call fail exactly when the wait it asked for has passed. */
  lemma CheckFails(s: Timed, t: Task)
    requires Inv(s) && Enabled(s, DoCheck(t))
    ensures var w := s.waits[t];
            var r := Next(s, DoCheck(t));
            && t in r.queue.calls && t in r.waits && w.start <= s.now
            && (Failing(r.queue.calls[t].phase) <==> w.asked < MAX_DELAY && w.asked <= s.now - w.start)
            && r.waits[t].asked == w.asked && r.waits[t].start == w.start && r.reports == s.reports
  {
    CheckTells(s, t);
    A.GivesUp(s.queue, t, Check(s.waits[t].timeout, s.now).0);
    hide Check, Restart;
  }

  /** What a failing call does not do. */
  lemma NotFailing(q: P.Queue, p: P.Step, t: Task)
    requires P.Enabled(q, p) && t in q.calls && Failing(q.calls[t].phase)
    ensures p.DoAttempt? || p.DoCheckTimeOut? || p.DoCall? ==> p.t != t
    ensures p.DoResumeAll? && p.t == t ==> q.calls[t].phase == P.Released(P.WillFail)
    ensures A.Fails(q, t)
  {
  }

  lemma FailingWaited(s: Timed, t: Task)
    requires Inv(s) && t in s.waits && Failing(s.queue.calls[t].phase)
    ensures s.waits[t].entered && s.waits[t].start <= s.now
  {
    hide Restart;
    assert Exact(s.now, s.queue.calls[t].phase, s.waits[t]);
  }

  /** And a call that is failing goes on failing, whatever else happens, until it reports how long it has
      waited. */
  lemma FailingReports(s: Timed, step: Step, t: Task)
    requires Inv(s) && Enabled(s, step) && t in s.waits && Failing(s.queue.calls[t].phase)
    ensures var w := s.waits[t];
            var r := Next(s, step);
            && w.start <= s.now
            && if t in r.waits then
                 t in r.queue.calls && Failing(r.queue.calls[t].phase) && r.waits[t] == w
               else
                 r.reports == s.reports + [Report(w.asked, s.now - w.start)]
  {
    hide P.Next, P.Enabled, Check, Restart, Exact;
    FailingWaited(s, t);
    if !step.DoTick? {
      var p := Protocol(s, step);
      NotFailing(s.queue, p, t);
      A.CallsEnd(s.queue, p, t);
    }
  }

  // ----- runs

  datatype Run = Start(length: nat, value: map<Task, nat>, now: nat) | Then(before: Run, step: Step)

  predicate Legal(run: Run)
    decreases run, 0
  {
    match run
    case Start(length, _, _) => 0 < length
    case Then(before, step) => Legal(before) && Enabled(After(before), step)
  }

  function After(run: Run): Timed
    requires Legal(run)
    decreases run, 1
  {
    match run
    case Start(length, value, now) => Timed(P.Fresh(length, value), now, map[], [])
    case Then(before, step) => Next(After(before), step)
  }

  lemma {:induction false} RunInv(run: Run)
    requires Legal(run)
    ensures Inv(After(run))
  {
    match run
    case Start(_, _, _) =>
    case Then(before, step) =>
      hide Inv, Enabled, Next;
      RunInv(before);
      StepInv(After(before), step);
  }

  /** Timed blocking is exact over every run in which no more than 2^32 ticks pass between the checks of a
      call, however often it is woken and retries, and across any wraps: whoever has reported full or
      empty had waited at least as long as it asked to, and did not ask to wait for ever. And a call that
      has not, has so much left to wait as it has not waited yet. */
  lemma {:induction false} TimedCallsAreExact(run: Run, t: Task)
    requires Legal(run)
    ensures var s := After(run);
            && (forall r :: r in s.reports ==> r.asked < MAX_DELAY && r.asked <= r.waited)
            && (t in s.waits && s.waits[t].entered && s.waits[t].asked < MAX_DELAY ==>
                  s.waits[t].timeout.ticks + (s.waits[t].checked - s.waits[t].start) == s.waits[t].asked)
            && (Enabled(s, DoCheck(t)) ==>
                  (Check(s.waits[t].timeout, s.now).0 <==>
                   s.waits[t].asked < MAX_DELAY && s.waits[t].asked <= s.now - s.waits[t].start))
  {
    RunInv(run);
    if Enabled(After(run), DoCheck(t)) {
      CheckTells(After(run), t);
    }
    hide Check, Restart, After, Legal, P.Enabled;
  }

  /** Timeouts only choose among the runs of the protocol: what is proved of all of those, such as that no
      wake-up is lost, holds of these. */
  lemma {:induction false} TimedRunIsRun(run: Run) returns (plain: P.Run)
    requires Legal(run)
    ensures P.Legal(plain) && P.After(plain) == After(run).queue
  {
    hide P.Next, P.Enabled, Check, Restart;
    match run
    case Start(length, value, _) => plain := P.Start(length, value);
    case Then(before, step) =>
      plain := TimedRunIsRun(before);
      if !step.DoTick? {
        plain := P.Then(plain, Protocol(After(before), step));
      }
  }
}
