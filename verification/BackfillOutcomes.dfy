/**
 Why a job has the status it has: over every run, what happened before a job was found started,
 cancelled, COMPLETED or FAILED, and which status the return of the runner leads to.
 */
module BackfillOutcomes {
  import opened Options
  import opened BackfillProgram
  import opened BackfillSystem
  import opened BackfillInvariant
  import opened BackfillTheorems

  // ---- What happened in one step of a run ---------------------------------------------------------

  ghost predicate Happens(states: seq<System>, labels: seq<Label>, i: nat) {
    i < |labels| && |states| == |labels| + 1
  }

  /** The `i`-th step is one of the worker `t` of job `j`, at `pc`. */
  ghost predicate WorksAt(states: seq<System>, labels: seq<Label>, i: nat, t: ThreadId, j: JobId, pc: Pc) {
    && Happens(states, labels, i) && labels[i].Run? && labels[i].t == t
    && t in states[i].threads && states[i].threads[t] == Thread(j, pc)
  }

  /** The runner returned `summary` to the worker `t` of job `j`. */
  ghost predicate RunReturned(states: seq<System>, labels: seq<Label>, i: nat, t: ThreadId, j: JobId, summary: Summary)
  {
    WorksAt(states, labels, i, t, j, Replay(ReplayRun)) && labels[i].oracle == Returns(summary)
  }

  /** Something went wrong that the worker of job `j` handles: its window does not parse or is empty,
      loading the context raised a ValueError, or the run raised. */
  ghost predicate WentWrong(states: seq<System>, labels: seq<Label>, i: nat, j: JobId) {
    Happens(states, labels, i) && labels[i].Run? && exists pc ::
      && WorksAt(states, labels, i, labels[i].t, j, pc) && j in states[i].jobs
      && Wrong(pc, states[i].jobs[j].window, labels[i].oracle)
  }

  predicate Wrong(pc: Pc, w: Window, oracle: Oracle) {
    match pc
    case Replay(ReplayParse) => w == BadWindow || (w.Window? && w.start >= w.end)
    case Replay(ReplayLoadContext) => oracle == Raises
    case Replay(ReplayRun) => !oracle.Returns?
    case _ => false
  }

  ghost predicate Erred(states: seq<System>, labels: seq<Label>, n: nat, j: JobId) {
    exists i: nat :: i < n && WentWrong(states, labels, i, j)
  }

  /** Startup recovery found job `j` RUNNING. */
  ghost predicate Orphaned(states: seq<System>, labels: seq<Label>, i: nat, j: JobId) {
    && Happens(states, labels, i) && labels[i] == Reconcile(j)
    && j in states[i].jobs && states[i].jobs[j].status == Running
  }

  ghost predicate StartCalled(states: seq<System>, labels: seq<Label>, n: nat, j: JobId) {
    exists i: nat, t :: i < n && Happens(states, labels, i) && labels[i] == CallStart(t, j)
  }

  ghost predicate CancelCalled(states: seq<System>, labels: seq<Label>, n: nat, j: JobId) {
    exists i: nat, t :: i < n && Happens(states, labels, i) && labels[i] == CallCancel(t, j)
  }

  ghost predicate Ran(states: seq<System>, labels: seq<Label>, n: nat, j: JobId, summary: Summary) {
    exists i: nat, t :: i < n && RunReturned(states, labels, i, t, j, summary)
  }

  /** The runner came through for a job with a window from `start` to a later `end`, or a dry run was
      marked complete. */
  ghost predicate WhyCompleted(states: seq<System>, labels: seq<Label>, n: nat, j: JobId, job: Job) {
    || (job.window.Window? && job.window.start < job.window.end && Ran(states, labels, n, j, Summary(false)))
    || (job.window == NoWindow && job.dryRunComplete)
  }

  /** Somebody else held the stream's lock, something went wrong, or the process died. */
  ghost predicate WhyFailed(states: seq<System>, labels: seq<Label>, n: nat, j: JobId) {
    || Ran(states, labels, n, j, Summary(true))
    || Erred(states, labels, n, j)
    || (exists i: nat :: i < n && Orphaned(states, labels, i, j))
  }

  // ---- What the places of a thread tell -----------------------------------------------------------

  /** The summary that a worker carries since the runner returned it. */
  function Carried(pc: Pc): Option<Summary> {
    match pc
    case Replay(ReplayCheckCancel(summary)) => Some(summary)
    case Replay(ReplayReread(summary)) => Some(summary)
    case Replay(ReplayRecheck(summary, _)) => Some(summary)
    case Replay(ReplaySave(summary)) => Some(summary)
    case Replay(ReplayEmitCompleted(summary)) => Some(summary)
    case _ => None
  }

  predicate ByStart(pc: Pc) {
    pc.Start? || WorkerSide(pc)
  }

  predicate ByCancel(pc: Pc) {
    match pc
    case Cancel(_) => true
    case Finalize(_) => true
    case Ack(_) => true
    case Release(exit) => exit == Acknowledged
    case Replay(ReplayCheck(seen)) => seen == Cancelling
    case Replay(ReplayRecheck(_, seen)) => seen == Cancelling
    case Dry(DryCheck(seen)) => seen == Cancelling
    case Dry(DryRecheck(seen)) => seen == Cancelling
    case _ => false
  }

  predicate AskedFor(v: View) {
    v.cancelRequested || v.status == Cancelling || v.status == Cancelled
  }

  /** What an operation makes its thread and its job owe to the past. */
  predicate Traces(v: View, p: Pc, oracle: Oracle, e: Effect) {
    && (e.next.Some? && Carried(e.next.value).Some? ==>
          || Carried(p) == Carried(e.next.value)
          || (p == Replay(ReplayRun) && oracle == Returns(Carried(e.next.value).value)))
    && (e.next.Some? && e.next.value.Fail? ==> p.Fail? || Wrong(p, v.window, oracle))
    && (e.write == Some(Completed) ==>
          || (Carried(p) == Some(Summary(false)) && Proper(v.window))
          || (v.window == NoWindow && v.dryRunComplete))
    && (e.write == Some(Failed) ==> p.Fail? || Carried(p) == Some(Summary(true)))
    && (e.write.Some? ==> ByStart(p) || e.write.value == Cancelled || v.status == Running)
    && (e.write == Some(Cancelled) || e.write == Some(Cancelling) || e.cancel == Request ==> ByCancel(p))
    && (e.next.Some? && ByStart(e.next.value) ==> ByStart(p))
    && (e.next.Some? && ByCancel(e.next.value) ==> ByCancel(p) || AskedFor(v))
    && (forall kind :: kind in e.events && kind.ReplayCompleted? ==> Carried(p) == Some(kind.outcome))
  }

  lemma ReplayTraces(v: View, at: ReplayPc, oracle: Oracle)
    requires ReplayInv(v, at) && v.window != NoWindow
    ensures Traces(v, Replay(at), oracle, PerformReplay(v, at, oracle))
  {}

  lemma DryTraces(v: View, at: DryPc, oracle: Oracle)
    requires v.window == NoWindow
    ensures Traces(v, Dry(at), oracle, PerformDry(v, at))
  {}

  lemma CancelTraces(v: View, at: CancelPc, oracle: Oracle)
    requires CancelInv(v, at)
    ensures Traces(v, Cancel(at), oracle, PerformCancel(v, at))
  {
    hide Wrong;
  }

  lemma StepTraces(v: View, bodies: nat, p: Pc, oracle: Oracle)
    requires LocalInv(v, bodies, p)
    ensures Traces(v, p, oracle, Perform(v, p, oracle))
  {
    hide PerformReplay, PerformDry, PerformCancel, ReplayInv, DryInv, CancelInv, FinalizeInv;
    match p
    case Replay(at) => ReplayTraces(v, at, oracle);
    case Dry(at) => DryTraces(v, at, oracle);
    case Cancel(at) => CancelTraces(v, at, oracle);
    case _ =>
  }

  // ---- Over every run -----------------------------------------------------------------------------

  /** What must have happened in the first `n` steps for a thread of job `j` to be at `pc`. */
  ghost predicate ThreadExplained(states: seq<System>, labels: seq<Label>, n: nat, j: JobId, pc: Pc) {
    && (Carried(pc).Some? ==> Ran(states, labels, n, j, Carried(pc).value))
    && (pc.Fail? ==> Erred(states, labels, n, j))
    && (ByStart(pc) ==> StartCalled(states, labels, n, j))
    && (ByCancel(pc) ==> CancelCalled(states, labels, n, j))
  }

  ghost predicate JobExplained(states: seq<System>, labels: seq<Label>, n: nat, j: JobId, job: Job) {
    && (job.status == Completed ==> WhyCompleted(states, labels, n, j, job))
    && (job.status == Failed ==> WhyFailed(states, labels, n, j))
    && (job.status != Pending && job.status != Cancelled ==> StartCalled(states, labels, n, j))
    && (job.status == Cancelling || job.status == Cancelled ==> CancelCalled(states, labels, n, j))
  }

  ghost predicate Explained(states: seq<System>, labels: seq<Label>, n: nat)
    requires n < |states|
  {
    var s := states[n];
    && (forall t :: t in s.threads ==> ThreadExplained(states, labels, n, s.threads[t].job, s.threads[t].pc))
    && (forall j :: j in s.jobs ==> JobExplained(states, labels, n, j, s.jobs[j]))
    && (forall j :: j in s.cancelRequested ==> CancelCalled(states, labels, n, j))
    && (forall e :: e in s.log && e.kind.ReplayCompleted? ==> Ran(states, labels, n, e.job, e.kind.outcome))
  }

  /** The past stays. */
  lemma Later(states: seq<System>, labels: seq<Label>, n: nat, j: JobId)
    ensures StartCalled(states, labels, n, j) ==> StartCalled(states, labels, n + 1, j)
    ensures CancelCalled(states, labels, n, j) ==> CancelCalled(states, labels, n + 1, j)
    ensures Erred(states, labels, n, j) ==> Erred(states, labels, n + 1, j)
    ensures WhyFailed(states, labels, n, j) ==> WhyFailed(states, labels, n + 1, j)
    ensures forall m :: Ran(states, labels, n, j, m) ==> Ran(states, labels, n + 1, j, m)
    ensures forall job :: WhyCompleted(states, labels, n, j, job) ==> WhyCompleted(states, labels, n + 1, j, job)
    ensures forall pc :: ThreadExplained(states, labels, n, j, pc) ==> ThreadExplained(states, labels, n + 1, j, pc)
    ensures forall job :: JobExplained(states, labels, n, j, job) ==> JobExplained(states, labels, n + 1, j, job)
  {
    hide Happens, WentWrong, Orphaned, RunReturned, ByStart, ByCancel, Carried;
  }

  lemma PastStays(states: seq<System>, labels: seq<Label>, n: nat)
    ensures forall j :: StartCalled(states, labels, n, j) ==> StartCalled(states, labels, n + 1, j)
    ensures forall j :: CancelCalled(states, labels, n, j) ==> CancelCalled(states, labels, n + 1, j)
    ensures forall j, m :: Ran(states, labels, n, j, m) ==> Ran(states, labels, n + 1, j, m)
    ensures forall j, pc :: ThreadExplained(states, labels, n, j, pc) ==> ThreadExplained(states, labels, n + 1, j, pc)
    ensures forall j, job :: JobExplained(states, labels, n, j, job) ==> JobExplained(states, labels, n + 1, j, job)
  {
    hide StartCalled, CancelCalled, Ran, ThreadExplained, JobExplained, WhyCompleted, WhyFailed, Erred;
    forall j, m: Summary ensures Ran(states, labels, n, j, m) ==> Ran(states, labels, n + 1, j, m) {
      Later(states, labels, n, j);
    }
    forall j, pc: Pc ensures ThreadExplained(states, labels, n, j, pc) ==> ThreadExplained(states, labels, n + 1, j, pc)
    {
      Later(states, labels, n, j);
    }
    forall j, job: Job ensures JobExplained(states, labels, n, j, job) ==> JobExplained(states, labels, n + 1, j, job) {
      Later(states, labels, n, j);
    }
    forall j {
      Later(states, labels, n, j);
    }
  }

  /** What an operation of thread `t` adds to the past. */
  lemma RunExplained(states: seq<System>, labels: seq<Label>, n: nat, t: ThreadId, oracle: Oracle)
    requires IsRun(states, labels) && states[0] == Empty && n < |labels| && labels[n] == Run(t, oracle)
    requires Explained(states, labels, n)
    ensures CanStep(states[n], t)
    ensures var s, j := states[n], states[n].threads[t].job;
      var e := Perform(ViewOf(s, j), s.threads[t].pc, oracle);
      && states[n + 1] == Apply(s, t, e)
      && (e.next.Some? ==> ThreadExplained(states, labels, n + 1, j, e.next.value))
      && JobExplained(states, labels, n + 1, j, states[n + 1].jobs[j])
      && (e.cancel == Request ==> CancelCalled(states, labels, n + 1, j))
      && (forall kind :: kind in e.events && kind.ReplayCompleted? ==> Ran(states, labels, n + 1, j, kind.outcome))
  {
    hide Perform, Unblocked, LocalInv, Respects, ByStart, ByCancel, Carried, Wrong, OthersActive;
    assert Step(states[n], labels[n], states[n + 1]);
    var s, j, p := states[n], states[n].threads[t].job, states[n].threads[t].pc;
    RunPrefix(states, labels, n);
    Knows(s, t, oracle);
    var v := ViewOf(s, j);
    StepTraces(v, Bodies(s, j), p, oracle);
    Later(states, labels, n, j);
    assert ThreadExplained(states, labels, n, j, p) && JobExplained(states, labels, n, j, s.jobs[j]);
    assert WorksAt(states, labels, n, t, j, p);
    if p == Replay(ReplayRun) && oracle.Returns? {
      assert RunReturned(states, labels, n, t, j, oracle.summary);
    }
    if Wrong(p, v.window, oracle) {
      assert WentWrong(states, labels, n, j);
    }
  }

  lemma ExplainedRun(states: seq<System>, labels: seq<Label>, n: nat, t: ThreadId, oracle: Oracle)
    requires IsRun(states, labels) && states[0] == Empty && n < |labels| && labels[n] == Run(t, oracle)
    requires Explained(states, labels, n)
    ensures Explained(states, labels, n + 1)
  {
    hide Perform, Unblocked, IsRun, ThreadExplained, JobExplained, Ran, CancelCalled, OthersActive;
    TakesStep(states, labels, n);
    var s, j := states[n], states[n].threads[t].job;
    RunExplained(states, labels, n, t, oracle);
    PastStays(states, labels, n);
  }

  lemma TakesStep(states: seq<System>, labels: seq<Label>, n: nat)
    requires IsRun(states, labels) && n < |labels|
    ensures |states| == |labels| + 1 && Happens(states, labels, n) && Step(states[n], labels[n], states[n + 1])
  {
    hide Step;
  }

  /** A step explains itself if it explains the threads and the rows that it changes, and neither asks
      for a cancel nor logs the return of a run. */
  lemma ExplainedChange(states: seq<System>, labels: seq<Label>, n: nat)
    requires n + 1 < |states| && Explained(states, labels, n)
    requires var s, s2 := states[n], states[n + 1];
      && (forall t :: t in s2.threads ==>
            || (t in s.threads && s.threads[t] == s2.threads[t])
            || ThreadExplained(states, labels, n + 1, s2.threads[t].job, s2.threads[t].pc))
      && (forall j :: j in s2.jobs ==>
            (j in s.jobs && s.jobs[j] == s2.jobs[j]) || JobExplained(states, labels, n + 1, j, s2.jobs[j]))
      && s2.cancelRequested <= s.cancelRequested
      && (forall e :: e in s2.log ==> e in s.log || !e.kind.ReplayCompleted?)
    ensures Explained(states, labels, n + 1)
  {
    hide ThreadExplained, JobExplained, Ran, CancelCalled, StartCalled;
    PastStays(states, labels, n);
  }

  lemma ExplainedCall(states: seq<System>, labels: seq<Label>, n: nat, t: ThreadId, j: JobId)
    requires IsRun(states, labels) && n < |labels| && Explained(states, labels, n)
    requires labels[n] == CallStart(t, j) || labels[n] == CallCancel(t, j)
    ensures Explained(states, labels, n + 1)
  {
    hide IsRun;
    TakesStep(states, labels, n);
    if labels[n].CallStart? {
      assert StartCalled(states, labels, n + 1, j);
    } else {
      assert CancelCalled(states, labels, n + 1, j);
    }
    ExplainedChange(states, labels, n);
  }

  lemma ExplainedRecovery(states: seq<System>, labels: seq<Label>, n: nat, j: JobId)
    requires IsRun(states, labels) && n < |labels| && Explained(states, labels, n) && labels[n] == Reconcile(j)
    ensures Explained(states, labels, n + 1)
  {
    hide IsRun, StartCalled, CancelCalled, WhyCompleted;
    TakesStep(states, labels, n);
    PastStays(states, labels, n);
    assert JobExplained(states, labels, n, j, states[n].jobs[j]);
    assert states[n].jobs[j].status == Running ==> Orphaned(states, labels, n, j);
    ExplainedChange(states, labels, n);
  }

  lemma ExplainedStep(states: seq<System>, labels: seq<Label>, n: nat)
    requires IsRun(states, labels) && states[0] == Empty && n < |labels| && Explained(states, labels, n)
    ensures Explained(states, labels, n + 1)
  {
    hide IsRun, Explained;
    TakesStep(states, labels, n);
    match labels[n]
    case Run(t, oracle) => ExplainedRun(states, labels, n, t, oracle);
    case Raise(t) => ExplainedRaise(states, labels, n, t);
    case CallStart(t, j) => ExplainedCall(states, labels, n, t, j);
    case CallCancel(t, j) => ExplainedCall(states, labels, n, t, j);
    case Reconcile(j) => ExplainedRecovery(states, labels, n, j);
    case _ => ExplainedChange(states, labels, n);
  }

  lemma ExplainedRaise(states: seq<System>, labels: seq<Label>, n: nat, t: ThreadId)
    requires IsRun(states, labels) && n < |labels| && labels[n] == Raise(t) && Explained(states, labels, n)
    ensures Explained(states, labels, n + 1)
  {
    hide IsRun, Ran, JobExplained, StartCalled, CancelCalled;
    TakesStep(states, labels, n);
    PastStays(states, labels, n);
    var th := states[n].threads[t];
    assert ThreadExplained(states, labels, n, th.job, th.pc);
    ExplainedChange(states, labels, n);
  }

  lemma {:induction false} RunIsExplained(states: seq<System>, labels: seq<Label>, n: nat)
    requires IsRun(states, labels) && states[0] == Empty && n < |states|
    ensures Explained(states, labels, n)
  {
    hide Step, JobExplained, ThreadExplained;
    if n > 0 {
      RunIsExplained(states, labels, n - 1);
      ExplainedStep(states, labels, n - 1);
    }
  }

  /** Over every run: a job is COMPLETED only if the runner came through for its window, or it has no
      window and its dry run is marked complete; FAILED only if the runner found the stream locked,
      something went wrong, or the process died; started only if somebody called for that, and cancelled
      only if somebody called for that. */
  lemma WhyAJobIsWhereItIs(states: seq<System>, labels: seq<Label>, n: nat, j: JobId)
    requires IsRun(states, labels) && states[0] == Empty && n < |states| && j in states[n].jobs
    ensures var job := states[n].jobs[j];
      && (job.status == Completed ==> WhyCompleted(states, labels, n, j, job))
      && (job.status == Failed ==> WhyFailed(states, labels, n, j))
      && (job.status != Pending && job.status != Cancelled ==> StartCalled(states, labels, n, j))
      && (job.status == Cancelling || job.status == Cancelled ==> CancelCalled(states, labels, n, j))
  {
    hide IsRun, ThreadExplained, WhyCompleted, WhyFailed, StartCalled, CancelCalled;
    RunIsExplained(states, labels, n);
    assert JobExplained(states, labels, n, j, states[n].jobs[j]);
  }

  /** What the log says a run returned is what it returned. */
  lemma LoggedAsReturned(states: seq<System>, labels: seq<Label>, n: nat, j: JobId, summary: Summary)
    requires IsRun(states, labels) && states[0] == Empty && n < |states|
    requires Event(j, ReplayCompleted(summary)) in states[n].log
    ensures exists i: nat, t :: i < n && RunReturned(states, labels, i, t, j, summary)
  {
    hide IsRun, ThreadExplained, JobExplained;
    RunIsExplained(states, labels, n);
  }

  // ---- From the return of the runner on -----------------------------------------------------------

  /** Worker `t` of job `j` has been handed `summary`: it carries it until it has stored the outcome, or
      it acknowledges a cancel, or an operation raises. */
  ghost predicate Decided(s: System, t: ThreadId, j: JobId, summary: Summary) {
    t in s.threads && s.threads[t].job == j && j in s.jobs && var pc := s.threads[t].pc;
    || (Carried(pc) == Some(summary) && (pc == Replay(ReplayEmitCompleted(summary)) ==>
          s.jobs[j].status == if summary.skippedLock then Failed else Completed))
    || (pc == Release(Finished) && s.jobs[j].status == if summary.skippedLock then Failed else Completed)
    || pc.Ack? || pc == Release(Acknowledged) || pc == Release(Aborted)
  }

  lemma DecidedAfter(v: View, bodies: nat, p: Pc, oracle: Oracle, summary: Summary)
    requires LocalInv(v, bodies, p)
    requires Carried(p) == Some(summary) || (p == Replay(ReplayRun) && oracle == Returns(summary))
    ensures var e := Perform(v, p, oracle);
      && e.next.Some?
      && (e.next.value == Release(Finished) || e.next.value == Replay(ReplayEmitCompleted(summary)) ==>
            AfterView(v, e).status == if summary.skippedLock then Failed else Completed)
      && (Carried(e.next.value) == Some(summary) || e.next.value.Ack? || e.next.value == Release(Finished))
  {}

  lemma ReleaseReturns(v: View, exit: Exit, oracle: Oracle)
    ensures Perform(v, Release(exit), oracle).next == None
  {}

  lemma DecidedStep(s: System, l: Label, s2: System, t: ThreadId, j: JobId, summary: Summary)
    requires Reachable(s) && Step(s, l, s2) && t in s.threads && t in s2.threads
    requires Decided(s, t, j, summary)
        || (s.threads[t] == Thread(j, Replay(ReplayRun)) && l == Run(t, Returns(summary)))
    ensures Decided(s2, t, j, summary)
  {
    hide Perform, Unblocked, LocalInv, Respects, OthersActive, EventsOf;
    Knows(s, t, Raises);
    StatusesMoveForward(s, l, s2, j);
    if l.Run? && l.t == t {
      if s.threads[t].pc.Release? {
        ReleaseReturns(ViewOf(s, j), s.threads[t].pc.exit, l.oracle);
      } else if s.threads[t].pc.Ack? {
        AckStep(s, l, s2, t);
      } else {
        DecidedAfter(ViewOf(s, j), Bodies(s, j), s.threads[t].pc, l.oracle, summary);
      }
    }
  }

  lemma {:induction false} DecidedRun(
      states: seq<System>, labels: seq<Label>, i: nat, k: nat, t: ThreadId, j: JobId, summary: Summary)
    requires IsRun(states, labels) && states[0] == Empty && RunReturned(states, labels, i, t, j, summary)
    requires i < k < |states| && forall n :: i <= n <= k ==> t in states[n].threads
    ensures Decided(states[k], t, j, summary)
    decreases k
  {
    hide Step, Decided;
    if i + 1 < k {
      DecidedRun(states, labels, i, k - 1, t, j, summary);
    }
    RunPrefix(states, labels, k - 1);
    TakesStep(states, labels, k - 1);
    DecidedStep(states[k - 1], labels[k - 1], states[k], t, j, summary);
  }

  /** Over every run: when the runner has returned to a worker and that worker gets to the end of its
      body, it has acknowledged a cancel, or the job is FAILED for good if the stream's lock was held by
      somebody else, and COMPLETED for good otherwise. */
  lemma RunDecides(states: seq<System>, labels: seq<Label>, i: nat, k: nat, m: nat, t: ThreadId, j: JobId,
      summary: Summary)
    requires IsRun(states, labels) && states[0] == Empty && RunReturned(states, labels, i, t, j, summary)
    requires i < k <= m < |states| && forall n :: i <= n <= k ==> t in states[n].threads
    requires states[k].threads[t].pc.Release?
    ensures var exit := states[k].threads[t].pc.exit; exit == Finished || exit == Acknowledged || exit == Aborted
    ensures states[k].threads[t].pc == Release(Finished) ==>
      j in states[m].jobs && states[m].jobs[j].status == if summary.skippedLock then Failed else Completed
    ensures states[k].threads[t].pc == Release(Acknowledged) ==>
      j in states[m].jobs && states[m].jobs[j].status == Cancelled
  {
    hide Step;
    DecidedRun(states, labels, i, k, t, j, summary);
    RunPrefix(states, labels, k);
    WorkerEndsTheJob(states[k], t);
    RunPrefix(states, labels, m);
    if Terminal(states[k].jobs[j].status) {
      TerminalForever(states[..m + 1], labels[..m], k, j);
    }
  }

  /** The two ways to end a replay, as the log tells them. */
  lemma LogTellsOutcomes(log: seq<Event>, j: JobId)
    ensures Fold(log + [Event(j, ReplayCompleted(Summary(false)))], j) == Completed
    ensures Fold(log + [Event(j, ReplayCompleted(Summary(true)))], j) == Failed
    ensures Fold(log + [Event(j, JobCompleted)], j) == Completed
    ensures Fold(log + [Event(j, JobFailed(ReplayFailed))], j) == Failed
    ensures Fold(log + [Event(j, JobFailed(OwnershipLostOnRestart))], j) == Failed
    ensures Fold(log + [Event(j, JobCancelled)], j) == Cancelled
    ensures Fold(log + [Event(j, JobStarted)], j) == Running
    ensures Fold(log + [Event(j, JobFailed(ConcurrentBackfillActive))], j) == Fold(log, j)
  {
    forall kind: EventKind ensures (log + [Event(j, kind)])[..|log|] == log {}
  }
}
