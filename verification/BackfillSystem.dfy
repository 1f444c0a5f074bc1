/**
 The backfill service of one API process as a transition system: committed job rows and progress
 events, the coordinator's volatile sets, and any number of interleaved calls.

 `lost` and `bodies` are history variables: the events whose transaction never came after the
 status they report was committed, and how often each job's worker body was entered.
 */
module BackfillSystem {
  import opened BackfillProgram

  type JobId = nat
  type ThreadId = nat

  datatype Event = Event(job: JobId, kind: EventKind)

  datatype Thread = Thread(job: JobId, pc: Pc)

  datatype System = System(
    jobs: map<JobId, Job>,
    log: seq<Event>,
    owned: set<JobId>,
    cancelRequested: set<JobId>,
    threads: map<ThreadId, Thread>,
    booting: bool,
    bodies: map<JobId, nat>,
    lost: map<JobId, EventKind>)

  const Empty := System(map[], [], {}, {}, map[], false, map[], map[])

  predicate OthersActive(jobs: map<JobId, Job>, j: JobId)
    requires j in jobs
  {
    exists i :: i in jobs && i != j && jobs[i].stream == jobs[j].stream && Active(jobs[i].status)
  }

  function ViewOf(s: System, j: JobId): View
    requires j in s.jobs
  {
    View(s.jobs[j].status, s.jobs[j].window, s.jobs[j].dryRunComplete,
         j in s.owned, j in s.cancelRequested, OthersActive(s.jobs, j))
  }

  function EventsOf(j: JobId, kinds: seq<EventKind>): seq<Event> {
    seq(|kinds|, i requires 0 <= i < |kinds| => Event(j, kinds[i]))
  }

  function Bodies(s: System, j: JobId): nat {
    if j in s.bodies then s.bodies[j] else 0
  }

  /** The system after thread `t` performed an operation with effect `e`. */
  function Apply(s: System, t: ThreadId, e: Effect): System
    requires t in s.threads && s.threads[t].job in s.jobs
  {
    var j := s.threads[t].job;
    s.(jobs := if e.write.Some? then s.jobs[j := s.jobs[j].(status := e.write.value)] else s.jobs,
       log := s.log + EventsOf(j, e.events),
       owned := (match e.owner case KeepOwner => s.owned case TakeOwner => s.owned + {j}
                               case DropOwner => s.owned - {j}),
       cancelRequested := (match e.cancel case KeepCancel => s.cancelRequested
                                          case Request => s.cancelRequested + {j}
                                          case Discard => s.cancelRequested - {j}),
       threads := if e.next.Some? then s.threads[t := Thread(j, e.next.value)] else s.threads - {t},
       bodies := if e.beginsBody then s.bodies[j := Bodies(s, j) + 1] else s.bodies)
  }

  /** The locks the next operation of `t` waits for are free. */
  predicate Unblocked(s: System, t: ThreadId)
    requires t in s.threads && s.threads[t].job in s.jobs
  {
    var th := s.threads[t];
    && (TakesStream(th.pc) ==> forall u | u in s.threads && u != t && SameStream(s, s.threads[u].job, th.job)
          :: !HoldsStream(s.threads[u].pc))
    && (TakesRow(th.pc) ==> forall u | u in s.threads && u != t && s.threads[u].job == th.job
          :: !HoldsRow(s.threads[u].pc))
  }

  predicate SameStream(s: System, i: JobId, j: JobId) {
    i in s.jobs && j in s.jobs && s.jobs[i].stream == s.jobs[j].stream
  }

  predicate Live(s: System, t: ThreadId) {
    !s.booting && t in s.threads && s.threads[t].job in s.jobs
  }

  predicate CanStep(s: System, t: ThreadId) {
    Live(s, t) && Unblocked(s, t)
  }

  function StepThread(s: System, t: ThreadId, oracle: Oracle): System
    requires t in s.threads && s.threads[t].job in s.jobs
  {
    Apply(s, t, Perform(ViewOf(s, s.threads[t].job), s.threads[t].pc, oracle))
  }

  /** Thread `t` raises: what it owed to the log is lost. */
  function AbortThread(s: System, t: ThreadId): System
    requires t in s.threads && s.threads[t].job in s.jobs
  {
    var th := s.threads[t];
    Apply(s, t, Abort(th.pc)).(lost := if Owed(th.pc).Some? then s.lost[th.job := Owed(th.pc).value] else s.lost)
  }

  ghost predicate OwesFor(s: System, t: ThreadId, j: JobId) {
    t in s.threads && s.threads[t].job == j && Owed(s.threads[t].pc).Some?
  }

  ghost function LostAt(s: System, j: JobId): EventKind
    requires exists t :: OwesFor(s, t, j)
  {
    var t :| OwesFor(s, t, j);
    Owed(s.threads[t].pc).value
  }

  /** The process dies and comes up again: every call and the coordinator's memory are gone. */
  ghost function Restart(s: System): System {
    s.(threads := map[], owned := {}, cancelRequested := {}, booting := true,
       lost := s.lost + map j | j in s.jobs && exists t :: OwesFor(s, t, j) :: LostAt(s, j))
  }

  // ---- Startup reconciliation ----------------------------------------------------------------

  function ReconciledStatus(s: Status): Status {
    match s case Running => Failed case Cancelling => Cancelled case other => other
  }

  function ReconcileEvent(s: Status): EventKind {
    if s == Running then JobFailed(OwnershipLostOnRestart) else JobCancelled
  }

  /** One committed iteration of `reconcile_orphaned_backfill_jobs`. */
  function ReconcileJob(s: System, j: JobId): System
    requires j in s.jobs
  {
    s.(jobs := s.jobs[j := s.jobs[j].(status := ReconciledStatus(s.jobs[j].status))],
       log := s.log + [Event(j, ReconcileEvent(s.jobs[j].status))],
       owned := s.owned - {j},
       cancelRequested := s.cancelRequested - {j})
  }

  // ---- Steps and runs ------------------------------------------------------------------------

  datatype Label =
    | Create(t: ThreadId, j: JobId, job: Job)
    | CallStart(t: ThreadId, j: JobId)
    | CallCancel(t: ThreadId, j: JobId)
    | Run(t: ThreadId, oracle: Oracle)
    | Raise(t: ThreadId)
    | Crash
    | Reconcile(j: JobId)
    | Serve

  /** `s2` follows `s` by the labelled step. Calls on a job that does not exist return 404 and
      change nothing, so they are not steps; rows are never deleted. */
  ghost predicate Step(s: System, l: Label, s2: System) {
    match l
    case Create(t, j, job) =>
      && !s.booting && t !in s.threads && j !in s.jobs && job.status == Pending
      && s2 == s.(jobs := s.jobs[j := job], threads := s.threads[t := Thread(j, CreateEvent)])
    case CallStart(t, j) =>
      && !s.booting && t !in s.threads && j in s.jobs
      && s2 == s.(threads := s.threads[t := Thread(j, Start(StartAcquire))])
    case CallCancel(t, j) =>
      && !s.booting && t !in s.threads && j in s.jobs
      && s2 == s.(threads := s.threads[t := Thread(j, Cancel(CancelProbe))])
    case Run(t, oracle) => CanStep(s, t) && s2 == StepThread(s, t, oracle)
    case Raise(t) => Live(s, t) && s2 == AbortThread(s, t)
    case Crash => s2 == Restart(s)
    case Reconcile(j) => s.booting && j in s.jobs && Active(s.jobs[j].status) && j !in s.owned
        && s2 == ReconcileJob(s, j)
    case Serve => s.booting && s2 == s.(booting := false)
  }

  /** A run: every state follows its predecessor by the step between them. */
  ghost predicate IsRun(states: seq<System>, labels: seq<Label>) {
    && |states| == |labels| + 1
    && forall i :: 0 <= i < |labels| ==> Step(states[i], labels[i], states[i + 1])
  }

  ghost predicate Reachable(s: System) {
    exists states, labels :: IsRun(states, labels) && states[0] == Empty && states[|states| - 1] == s
  }

  // ---- Reading the event log -----------------------------------------------------------------

  /** What one progress event says about the status it follows. */
  function Advance(s: Status, kind: EventKind): Status {
    match kind
    case JobStarted => Running
    case CancellationRequested => if s == Running then Cancelling else s
    case JobCancelled => Cancelled
    case JobFailed(code) => if code == ConcurrentBackfillActive then s else Failed
    case ReplayCompleted(outcome) => OutcomeStatus(outcome)
    case JobCompleted => Completed
    case _ => s
  }

  /** The status of job `j` as told by the events of `j` in `log`, oldest first. */
  function Fold(log: seq<Event>, j: JobId): Status {
    if log == [] then Pending
    else
      var before := Fold(log[..|log| - 1], j);
      var last := log[|log| - 1];
      if last.job == j then Advance(before, last.kind) else before
  }
}
