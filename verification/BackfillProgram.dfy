/**
 What one caller of the backfill service does, statement by statement.

 A call of `start_backfill_job` (with the worker it runs), of `cancel_backfill_job` or of
 `create_backfill_job` is a thread. Its program counter names the next database or coordinator
 operation; everything between two such operations is local and belongs to the later one.
 `Perform` says what that operation reads, writes and commits, and where the thread goes next.
 */
module BackfillProgram {
  import opened Options

  datatype Status = Pending | Running | Cancelling | Completed | Failed | Cancelled

  /** RUNNING and CANCELLING: the statuses that block another start on the same stream. */
  predicate Active(s: Status) {
    s == Running || s == Cancelling
  }

  predicate Terminal(s: Status) {
    s == Completed || s == Failed || s == Cancelled
  }

  /** `runtime_options_json`: no replay window; one that does not parse; one with a bound that has an
      offset from UTC and one that has none, which parse but cannot be compared; or a parsed one. */
  datatype Window = NoWindow | BadWindow | MixedWindow | Window(start: int, end: int)

  datatype Job = Job(stream: int, status: Status, window: Window, dryRunComplete: bool)

  /** What `StreamRunner.run` returned, as far as the job row depends on it. */
  datatype Summary = Summary(skippedLock: bool)

  datatype FailureCode = ConcurrentBackfillActive | ReplayFailed | OwnershipLostOnRestart

  datatype EventKind =
    | JobCreated
    | JobStarted
    | CancellationRequested
    | JobCancelled
    | JobFailed(code: FailureCode)
    | ReplayStarted
    | ReplayCompleted(outcome: Summary)
    | ChunkStarted
    | CheckpointSnapshotUsed
    | ChunkCompleted
    | JobCompleted

  /** How a worker left its body: on its own, having acknowledged a cancel, by one of the two
      exceptions of its own that it does not catch, or because an operation raised. */
  datatype Exit = Finished | Acknowledged | Uncaught | Aborted

  /** The next operation of a thread, grouped by the function it belongs to. */
  datatype Pc =
    | CreateEvent
    | Start(start: StartPc)
    | Claim
    | Load
    | Replay(replay: ReplayPc)
    | Dry(dry: DryPc)
    | Fail(fail: FailPc)
    | Ack(ack: AckPc)
    | Release(exit: Exit)
    | Cancel(cancel: CancelPc)
    | Finalize(finalize: FinalizePc)

  /** `start_backfill_job`, up to the commit of RUNNING. */
  datatype StartPc = StartAcquire | StartRead | StartCount | StartReject | StartCommit

  /** `BackfillWorker.run_replay_job` */
  datatype ReplayPc =
    | ReplayRead
    | ReplayCheck(seen: Status)
    | ReplayParse
    | ReplayEmitStarted
    | ReplayLoadContext
    | ReplayRun
    | ReplayCheckCancel(summary: Summary)
    | ReplayReread(summary: Summary)
    | ReplayRecheck(summary: Summary, seen: Status)
    | ReplaySave(summary: Summary)
    | ReplayEmitCompleted(summary: Summary)

  /** `BackfillWorker.run_dry_lifecycle` */
  datatype DryPc =
    | DryRead
    | DryCheck(seen: Status)
    | DryEmitStarted
    | DryEmitSnapshot
    | DryEmitChunk
    | DryReread
    | DryRecheck(seen: Status)
    | DrySave
    | DryEmitCompleted

  /** `BackfillWorker._fail_job` */
  datatype FailPc = FailRead | FailSave | FailEmit

  /** `BackfillWorker._cancel_terminal` */
  datatype AckPc = AckRead | AckSave | AckEmit | AckClear

  /** `cancel_backfill_job` */
  datatype CancelPc =
    | CancelProbe
    | PendingAcquire
    | PendingRead
    | PendingCommit
    | PendingClear
    | RunningAcquire
    | RunningRead
    | RunningRequest
    | RunningCommit
    | AgainRequest
    | CheckOwner

  /** `_finalize_cancelling_without_owner` */
  datatype FinalizePc = FinalizeAcquire | FinalizeRead | FinalizeCheckOwner | FinalizeCommit | FinalizeClear

  /** What the thread can see of its job when it performs one operation. */
  datatype View = View(
    status: Status,
    window: Window,
    dryRunComplete: bool,
    owned: bool,
    cancelRequested: bool,
    othersActive: bool)

  /** What the code around the worker decides: whether loading the context or running the
      stream raises (a ValueError or anything else), and the summary otherwise. */
  datatype Oracle = Raises | RaisesOther | Returns(summary: Summary)

  /** A replay window that can be run. */
  predicate Proper(w: Window) {
    w.Window? && w.start < w.end
  }

  /** The window's bounds cannot be compared, or they can and loading the context raises something
      other than a ValueError. */
  predicate Uncatchable(w: Window, loaded: Oracle) {
    w == MixedWindow || (Proper(w) && loaded == RaisesOther)
  }

  datatype OwnerOp = KeepOwner | TakeOwner | DropOwner
  datatype CancelOp = KeepCancel | Request | Discard

  /** The effect of one operation: the committed status (if any), the events committed with
      it, the two coordinator sets, whether a worker body begins, and the next counter
      (`None` when the call returns). */
  datatype Effect = Effect(
    next: Option<Pc>,
    write: Option<Status>,
    events: seq<EventKind>,
    owner: OwnerOp,
    cancel: CancelOp,
    beginsBody: bool)

  function Goto(pc: Pc): Effect {
    Effect(Some(pc), None, [], KeepOwner, KeepCancel, false)
  }

  /** Return to the caller; a pending transaction is rolled back and its locks go with it. */
  const Return := Effect(None, None, [], KeepOwner, KeepCancel, false)

  function Emit(kind: EventKind, pc: Pc): Effect {
    Goto(pc).(events := [kind])
  }

  function Save(status: Status, pc: Pc): Effect {
    Goto(pc).(write := Some(status))
  }

  /** The status a finished replay is stored with: the stream lock was held by somebody else,
      or the run took place. */
  function OutcomeStatus(summary: Summary): Status {
    if summary.skippedLock then Failed else Completed
  }

  /** Drops the session, the cancel flag and the ownership of the job (`clear_job_session`). */
  function ClearSession(next: Option<Pc>): Effect {
    Return.(next := next, owner := DropOwner, cancel := Discard)
  }

  function Perform(v: View, pc: Pc, oracle: Oracle): Effect {
    match pc
    case CreateEvent => Return.(events := [JobCreated])
    case Start(at) => PerformStart(v, at)
    case Claim => if v.owned then Return else Goto(Load).(owner := TakeOwner)
    case Load => Goto(if v.window == NoWindow then Dry(DryRead) else Replay(ReplayRead)).(beginsBody := true)
    case Replay(at) => PerformReplay(v, at, oracle)
    case Dry(at) => PerformDry(v, at)
    case Fail(at) => PerformFail(v, at)
    case Ack(at) => PerformAck(v, at)
    case Release(_) => Return.(owner := DropOwner)
    case Cancel(at) => PerformCancel(v, at)
    case Finalize(at) => PerformFinalize(v, at)
  }

  function PerformStart(v: View, at: StartPc): Effect {
    match at
    case StartAcquire => Goto(Start(StartRead))
    case StartRead => if v.status != Pending then Return else Goto(Start(StartCount))
    case StartCount => Goto(Start(if v.othersActive then StartReject else StartCommit))
    case StartReject => Return.(events := [JobFailed(ConcurrentBackfillActive)])
    case StartCommit => Save(Running, Claim).(events := [JobStarted])
  }

  function PerformReplay(v: View, at: ReplayPc, oracle: Oracle): Effect {
    match at
    case ReplayRead => Goto(if Active(v.status) then Replay(ReplayCheck(v.status)) else Release(Finished))
    case ReplayCheck(seen) =>
      Goto(if v.cancelRequested || seen == Cancelling then Ack(AckRead) else Replay(ReplayParse))
    case ReplayParse =>
      // Comparing the bounds stands outside the handler.
      Goto(if v.window == MixedWindow then Release(Uncaught)
           else if Proper(v.window) then Replay(ReplayEmitStarted)
           else Fail(FailRead))
    case ReplayEmitStarted => Emit(ReplayStarted, Replay(ReplayLoadContext))
    case ReplayLoadContext =>
      // Only a ValueError is caught.
      Goto(match oracle
           case Raises => Fail(FailRead)
           case RaisesOther => Release(Uncaught)
           case Returns(_) => Replay(ReplayRun))
    case ReplayRun => Goto(if oracle.Returns? then Replay(ReplayCheckCancel(oracle.summary)) else Fail(FailRead))
    case ReplayCheckCancel(summary) =>
      Goto(if v.cancelRequested then Ack(AckRead) else Replay(ReplayReread(summary)))
    case ReplayReread(summary) => Goto(Replay(ReplayRecheck(summary, v.status)))
    case ReplayRecheck(summary, seen) =>
      Goto(if seen == Cancelling || v.cancelRequested then Ack(AckRead)
           else if seen != Running then Release(Finished)
           else Replay(ReplaySave(summary)))
    case ReplaySave(summary) => Save(OutcomeStatus(summary), Replay(ReplayEmitCompleted(summary)))
    case ReplayEmitCompleted(summary) => Emit(ReplayCompleted(summary), Release(Finished))
  }

  function PerformDry(v: View, at: DryPc): Effect {
    match at
    case DryRead => Goto(if Active(v.status) then Dry(DryCheck(v.status)) else Release(Finished))
    case DryCheck(seen) =>
      Goto(if v.cancelRequested || seen == Cancelling then Ack(AckRead) else Dry(DryEmitStarted))
    case DryEmitStarted => Emit(ChunkStarted, Dry(DryEmitSnapshot))
    case DryEmitSnapshot => Emit(CheckpointSnapshotUsed, Dry(DryEmitChunk))
    case DryEmitChunk => Emit(ChunkCompleted, Dry(DryReread))
    case DryReread => Goto(Dry(DryRecheck(v.status)))
    case DryRecheck(seen) =>
      Goto(if seen == Cancelling || v.cancelRequested then Ack(AckRead)
           else if seen != Running then Release(Finished)
           else Dry(DrySave))
    case DrySave =>
      // Without `dry_run_complete` only the progress column is saved; the status column is not.
      if v.dryRunComplete then Save(Completed, Dry(DryEmitCompleted)) else Goto(Release(Finished))
    case DryEmitCompleted => Emit(JobCompleted, Release(Finished))
  }

  function PerformFail(v: View, at: FailPc): Effect {
    match at
    case FailRead => Goto(if Active(v.status) then Fail(FailSave) else Release(Finished))
    case FailSave => Save(Failed, Fail(FailEmit))
    case FailEmit => Emit(JobFailed(ReplayFailed), Release(Finished))
  }

  function PerformAck(v: View, at: AckPc): Effect {
    match at
    case AckRead => Goto(if Active(v.status) then Ack(AckSave) else Release(Acknowledged))
    case AckSave => Save(Cancelled, Ack(AckEmit))
    case AckEmit => Emit(JobCancelled, Ack(AckClear))
    case AckClear => ClearSession(Some(Release(Acknowledged)))
  }

  function PerformCancel(v: View, at: CancelPc): Effect {
    match at
    case CancelProbe =>
      (match v.status
       case Pending => Goto(Cancel(PendingAcquire))
       case Running => Goto(Cancel(RunningAcquire))
       case Cancelling => Goto(Cancel(AgainRequest))
       case _ => Return)
    case PendingAcquire => Goto(Cancel(PendingRead))
    case PendingRead => if v.status != Pending then Return else Goto(Cancel(PendingCommit))
    case PendingCommit => Save(Cancelled, Cancel(PendingClear)).(events := [CancellationRequested, JobCancelled])
    case PendingClear => ClearSession(None)
    case RunningAcquire => Goto(Cancel(RunningRead))
    case RunningRead => if v.status != Running then Return else Goto(Cancel(RunningRequest))
    case RunningRequest => Goto(Cancel(RunningCommit)).(cancel := Request)
    case RunningCommit => Save(Cancelling, Cancel(CheckOwner)).(events := [CancellationRequested])
    case AgainRequest => Goto(Cancel(CheckOwner)).(cancel := Request)
    case CheckOwner => if v.owned then Return else Goto(Finalize(FinalizeAcquire))
  }

  function PerformFinalize(v: View, at: FinalizePc): Effect {
    match at
    case FinalizeAcquire => Goto(Finalize(FinalizeRead))
    case FinalizeRead => if v.status != Cancelling then Return else Goto(Finalize(FinalizeCheckOwner))
    case FinalizeCheckOwner => if v.owned then Return else Goto(Finalize(FinalizeCommit))
    case FinalizeCommit => Save(Cancelled, Finalize(FinalizeClear)).(events := [JobCancelled])
    case FinalizeClear => ClearSession(None)
  }

  // ---- Locks ---------------------------------------------------------------------------------

  /** Between taking the stream's advisory lock and ending that transaction. */
  predicate HoldsStream(pc: Pc) {
    match pc
    case Start(at) => at != StartAcquire
    case Cancel(at) => (at == PendingRead || at == PendingCommit || at == RunningRead || at == RunningRequest
        || at == RunningCommit)
    case Finalize(at) => (at == FinalizeRead || at == FinalizeCheckOwner || at == FinalizeCommit)
    case _ => false
  }

  /** Between `SELECT ... FOR UPDATE` on the job row and the end of that transaction. */
  predicate HoldsRow(pc: Pc) {
    match pc
    case Start(at) => at != StartAcquire && at != StartRead
    case Cancel(at) => (at == PendingCommit || at == RunningRequest || at == RunningCommit)
    case Finalize(at) => (at == FinalizeCheckOwner || at == FinalizeCommit)
    case _ => false
  }

  predicate TakesStream(pc: Pc) {
    pc == Start(StartAcquire) || pc == Cancel(PendingAcquire) || pc == Cancel(RunningAcquire)
    || pc == Finalize(FinalizeAcquire)
  }

  /** Operations that wait for the row lock: `FOR UPDATE` reads, and the worker's own UPDATE. */
  predicate TakesRow(pc: Pc) {
    match pc
    case Start(at) => at == StartRead
    case Cancel(at) => at == PendingRead || at == RunningRead
    case Finalize(at) => at == FinalizeRead
    case Replay(at) => at.ReplaySave?
    case Dry(at) => at == DrySave
    case Fail(at) => at == FailSave
    case Ack(at) => at == AckSave
    case _ => false
  }

  // ---- Where a worker is ---------------------------------------------------------------------

  /** From the moment the thread has committed RUNNING until `start_job` returns. */
  predicate WorkerSide(pc: Pc) {
    pc.Claim? || InBody(pc)
  }

  /** Between claiming the job and the end of the `finally` clause. */
  predicate InBody(pc: Pc) {
    pc.Load? || pc.Replay? || pc.Dry? || pc.Fail? || pc.Ack? || pc.Release?
  }

  /** The worker acts on having read RUNNING: the places from which it may still store COMPLETED or
      FAILED without looking again, or has raised and stored nothing. */
  predicate SawRunning(pc: Pc) {
    match pc
    case Replay(at) => at != ReplayRead && (at.ReplayCheck? ==> at.seen == Running) && !at.ReplayEmitCompleted?
    case Dry(at) => at != DryRead && (at.DryCheck? ==> at.seen == Running) && at != DryEmitCompleted
    case Fail(at) => at != FailEmit
    case Release(exit) => exit == Uncaught
    case _ => false
  }

  /** The event a worker still owes for a status it has already committed. */
  function Owed(pc: Pc): Option<EventKind> {
    match pc
    case Replay(ReplayEmitCompleted(summary)) => Some(ReplayCompleted(summary))
    case Dry(DryEmitCompleted) => Some(JobCompleted)
    case Fail(FailEmit) => Some(JobFailed(ReplayFailed))
    case Ack(AckEmit) => Some(JobCancelled)
    case _ => None
  }

  /** An operation of this thread raises something the code does not handle: the transaction is
      rolled back, and a worker body still runs its `finally` clause. */
  function Abort(pc: Pc): Effect {
    if pc.Release? then Return.(owner := DropOwner)
    else if InBody(pc) then Goto(Release(Aborted))
    else Return
  }
}
