/**
 The invariant of the backfill service, thread by thread: what each thread may rely on about its
 job (`LocalInv`), which pairs of threads cannot be where they are together (`PairInv`), and what
 holds of the rows, the coordinator and the event log. Every step keeps it.
 */
module BackfillInvariant {
  import opened Options
  import opened BackfillProgram
  import opened BackfillSystem

  /** What a thread knows about its job at `pc`, whatever the other threads do meanwhile. */
  predicate LocalInv(v: View, bodies: nat, pc: Pc) {
    && (v.status == Pending ==> bodies == 0)
    && match pc
       case CreateEvent => true
       case Start(at) => (at == StartCount || at == StartReject || at == StartCommit) ==> v.status == Pending
       case Claim => Unended(v.status) && bodies == 0
       case Load => WorkerInv(v) && Unended(v.status) && bodies == 0
       case Replay(at) =>
         && WorkerInv(v) && v.window != NoWindow && ReplayInv(v, at)
         && (!at.ReplayEmitCompleted? ==> Unended(v.status))
         && (SawRunning(pc) ==> v.owned && Active(v.status))
       case Dry(at) =>
         && WorkerInv(v) && v.window == NoWindow && DryInv(v, at)
         && (at != DryEmitCompleted ==> Unended(v.status))
         && (SawRunning(pc) ==> v.owned && Active(v.status))
       case Fail(at) => WorkerInv(v) && if at == FailEmit then v.status == Failed else v.owned && Active(v.status)
       case Ack(at) => WorkerInv(v) && (v.status == Cancelled || ((at == AckRead || at == AckSave) && Active(v.status)))
       case Release(exit) =>
         && WorkerInv(v)
         && (exit == Acknowledged ==> v.status == Cancelled)
         && (exit == Finished && (v.window != NoWindow || v.dryRunComplete) ==> Terminal(v.status))
         && (exit == Uncaught ==> v.owned && Active(v.status) && v.window != NoWindow)
       case Cancel(at) => CancelInv(v, at)
       case Finalize(at) => FinalizeInv(v, at)
  }

  /** The job has been started, and as long as it is not terminal it is owned. */
  predicate WorkerInv(v: View) {
    v.status != Pending && (v.owned || Terminal(v.status))
  }

  /** The job was started and its worker has not stored an outcome. */
  predicate Unended(s: Status) {
    Active(s) || s == Cancelled
  }

  predicate ReplayInv(v: View, at: ReplayPc) {
    && (at.ReplayRead? || at.ReplayCheck? || at.ReplayParse? || Proper(v.window))
    && match at
       case ReplayCheck(seen) =>
         Active(seen) && (seen == Cancelling ==> v.status == Cancelling || v.status == Cancelled)
       case ReplayRecheck(_, seen) => Active(seen)
       case ReplayEmitCompleted(summary) => v.status == OutcomeStatus(summary)
       case _ => true
  }

  predicate DryInv(v: View, at: DryPc) {
    match at
    case DryCheck(seen) => Active(seen) && (seen == Cancelling ==> v.status == Cancelling || v.status == Cancelled)
    case DryRecheck(seen) => Active(seen)
    case DryEmitCompleted => v.status == Completed
    case _ => true
  }

  predicate CancelInv(v: View, at: CancelPc) {
    match at
    case PendingCommit => v.status == Pending
    case PendingClear => v.status == Cancelled
    case RunningAcquire => v.status != Pending
    case RunningRead => v.status != Pending
    case RunningRequest => v.status == Running
    case RunningCommit => v.status == Running
    case AgainRequest => v.status == Cancelling || Terminal(v.status)
    case CheckOwner => v.status == Cancelling || Terminal(v.status)
    case _ => true
  }

  predicate FinalizeInv(v: View, at: FinalizePc) {
    match at
    case FinalizeClear => v.status == Cancelled
    case FinalizeCheckOwner => v.status == Cancelling
    case FinalizeCommit => v.status == Cancelling
    case _ => v.status == Cancelling || Terminal(v.status)
  }

  /** The worker has read RUNNING and not acknowledged a cancel since: a job in this state is not
      finalized by others. */
  predicate Unfinalized(pc: Pc) {
    SawRunning(pc) || pc == Release(Finished)
  }

  /** Two threads of the same job: one worker, the locks exclude, and nobody finalizes a job
      whose worker has read RUNNING. */
  predicate PairInv(p: Pc, q: Pc) {
    && !(WorkerSide(p) && WorkerSide(q))
    && !(HoldsRow(p) && HoldsRow(q))
    && !(HoldsStream(p) && HoldsStream(q))
    && !(p == Finalize(FinalizeCommit) && Unfinalized(q))
    && !(q == Finalize(FinalizeCommit) && Unfinalized(p))
  }

  function AfterView(v: View, e: Effect): View {
    v.(status := if e.write.Some? then e.write.value else v.status,
       owned := (match e.owner case KeepOwner => v.owned case TakeOwner => true case DropOwner => false),
       cancelRequested :=
         (match e.cancel case KeepCancel => v.cancelRequested case Request => true case Discard => false))
  }

  function AfterBodies(bodies: nat, e: Effect): nat {
    bodies + if e.beginsBody then 1 else 0
  }

  /** The ways a status may change in one step; terminal statuses only stay. */
  predicate StatusStep(s: Status, s2: Status) {
    || s2 == s
    || (s == Pending && (s2 == Running || s2 == Cancelled))
    || (s == Running && s2 != Pending)
    || (s == Cancelling && Terminal(s2))
  }

  /** What an operation does to the other threads of the job: statuses move forward under the
      row lock, and a thread that is not the job's worker neither claims it nor drops it before
      it is cancelled, and only a finalizer cancels a job that has a worker. */
  predicate Respects(v: View, p: Pc, e: Effect) {
    && (e.write.Some? ==>
        StatusStep(v.status, e.write.value) && e.write.value != Pending && (HoldsRow(p) || TakesRow(p)))
    && (e.write == Some(Running) ==> p == Start(StartCommit))
    && (e.beginsBody ==> v.status != Pending && p == Load)
    && (p.Release? ==> e.next == None)
    && (e.owner == TakeOwner ==> e.next.Some? && InBody(e.next.value))
    && (InBody(p) ==> e.owner == DropOwner || (e.next.Some? && InBody(e.next.value)))
    && (!WorkerSide(p) ==>
          && e.owner != TakeOwner
          && (e.owner == DropOwner ==> v.status == Cancelled)
          && (e.write.Some? && v.status != Pending ==> e.write.value == Cancelling || p == Finalize(FinalizeCommit))
          && (p == Finalize(FinalizeCommit) && e.write.Some? ==> e.write.value == Cancelled))
  }

  /** An operation establishes what its thread relies on next, and moves it only to the roles
      its locks and its reads allow. */
  predicate Establishes(v: View, bodies: nat, p: Pc, e: Effect) {
    e.next.Some? ==>
      var n := e.next.value;
      && LocalInv(AfterView(v, e), AfterBodies(bodies, e), n)
      && (WorkerSide(n) ==> WorkerSide(p) || p == Start(StartCommit))
      && (SawRunning(n) ==> SawRunning(p) || v.status == Running)
      && (n == Release(Finished) ==> SawRunning(p) || Terminal(v.status))
      && (HoldsStream(n) ==> HoldsStream(p) || TakesStream(p))
      && (HoldsRow(n) ==> HoldsRow(p) || TakesRow(p))
      && (n == Finalize(FinalizeCommit) ==> !v.owned && v.status == Cancelling)
      && (n == Start(StartCommit) ==> HoldsStream(p) && !v.othersActive)
  }

  lemma NextHolds(v: View, bodies: nat, p: Pc, e: Effect)
    requires Establishes(v, bodies, p, e)
    ensures e.next.Some? ==> LocalInv(AfterView(v, e), AfterBodies(bodies, e), e.next.value)
  {
    hide LocalInv, SawRunning;
  }

  lemma EstablishesStart(v: View, bodies: nat, at: StartPc)
    requires LocalInv(v, bodies, Start(at))
    ensures Establishes(v, bodies, Start(at), PerformStart(v, at))
  {}

  lemma EstablishesReplay(v: View, bodies: nat, at: ReplayPc, oracle: Oracle)
    requires LocalInv(v, bodies, Replay(at))
    ensures Establishes(v, bodies, Replay(at), PerformReplay(v, at, oracle))
  {
    hide DryInv, CancelInv, FinalizeInv;
  }

  lemma EstablishesDry(v: View, bodies: nat, at: DryPc)
    requires LocalInv(v, bodies, Dry(at))
    ensures Establishes(v, bodies, Dry(at), PerformDry(v, at))
  {
    hide ReplayInv, CancelInv, FinalizeInv;
  }

  lemma EstablishesFail(v: View, bodies: nat, at: FailPc)
    requires LocalInv(v, bodies, Fail(at))
    ensures Establishes(v, bodies, Fail(at), PerformFail(v, at))
  {}

  lemma EstablishesAck(v: View, bodies: nat, at: AckPc)
    requires LocalInv(v, bodies, Ack(at))
    ensures Establishes(v, bodies, Ack(at), PerformAck(v, at))
  {}

  predicate CancelsPending(at: CancelPc) {
    at == CancelProbe || at == PendingAcquire || at == PendingRead || at == PendingCommit || at == PendingClear
  }

  lemma EstablishesPending(v: View, bodies: nat, at: CancelPc)
    requires LocalInv(v, bodies, Cancel(at)) && CancelsPending(at)
    ensures Establishes(v, bodies, Cancel(at), PerformCancel(v, at))
  {
    hide ReplayInv, DryInv, FinalizeInv;
  }

  lemma EstablishesRunning(v: View, bodies: nat, at: CancelPc)
    requires LocalInv(v, bodies, Cancel(at)) && !CancelsPending(at)
    ensures Establishes(v, bodies, Cancel(at), PerformCancel(v, at))
  {
    hide ReplayInv, DryInv;
  }

  lemma EstablishesCancel(v: View, bodies: nat, at: CancelPc)
    requires LocalInv(v, bodies, Cancel(at))
    ensures Establishes(v, bodies, Cancel(at), PerformCancel(v, at))
  {
    hide LocalInv, Establishes, PerformCancel;
    if CancelsPending(at) {
      EstablishesPending(v, bodies, at);
    } else {
      EstablishesRunning(v, bodies, at);
    }
  }

  lemma EstablishesFinalize(v: View, bodies: nat, at: FinalizePc)
    requires LocalInv(v, bodies, Finalize(at))
    ensures Establishes(v, bodies, Finalize(at), PerformFinalize(v, at))
  {}

  lemma EstablishesStep(v: View, bodies: nat, p: Pc, oracle: Oracle)
    requires LocalInv(v, bodies, p)
    ensures Establishes(v, bodies, p, Perform(v, p, oracle))
  {
    match p
    case Start(at) => EstablishesStart(v, bodies, at);
    case Replay(at) => EstablishesReplay(v, bodies, at, oracle);
    case Dry(at) => EstablishesDry(v, bodies, at);
    case Fail(at) => EstablishesFail(v, bodies, at);
    case Ack(at) => EstablishesAck(v, bodies, at);
    case Cancel(at) => EstablishesCancel(v, bodies, at);
    case Finalize(at) => EstablishesFinalize(v, bodies, at);
    case _ =>
  }

  // ---- What an operation tells the event log --------------------------------------------------

  function AdvanceAll(s: Status, kinds: seq<EventKind>): Status
    decreases |kinds|
  {
    if kinds == [] then s else AdvanceAll(Advance(s, kinds[0]), kinds[1..])
  }

  predicate Owes(next: Option<Pc>) {
    next.Some? && Owed(next.value).Some?
  }

  /** A thread that owes an event pays exactly that. Any other operation commits events that,
      with what it owes afterwards, lead from the old status to the new one; and a caller that
      finds a terminal status has nothing to tell. */
  predicate Tells(v: View, p: Pc, e: Effect) {
    && (Owed(p).Some? ==> e.events == [Owed(p).value] && e.write == None && !Owes(e.next) && Terminal(v.status))
    && (Owed(p).None? ==>
          var told := AdvanceAll(v.status, e.events);
          AfterView(v, e).status == if Owes(e.next) then Advance(told, Owed(e.next.value).value) else told)
    && (Owes(e.next) ==> WorkerSide(p) && !p.Release?)
    && (p.Release? || (!WorkerSide(p) && Terminal(v.status)) ==>
        e.write == None && (e.events == [] || e.events == [JobCreated]))
  }

  predicate Keeps(v: View, p: Pc, e: Effect) {
    Respects(v, p, e) && Tells(v, p, e)
  }

  lemma KeepsStart(v: View, bodies: nat, at: StartPc)
    requires LocalInv(v, bodies, Start(at))
    ensures Keeps(v, Start(at), PerformStart(v, at))
  {}

  lemma RespectsReplay(v: View, bodies: nat, at: ReplayPc, oracle: Oracle)
    requires LocalInv(v, bodies, Replay(at))
    ensures Respects(v, Replay(at), PerformReplay(v, at, oracle))
  {
    hide DryInv, CancelInv, FinalizeInv;
  }

  lemma TellsReplay(v: View, bodies: nat, at: ReplayPc, oracle: Oracle)
    requires LocalInv(v, bodies, Replay(at))
    ensures Tells(v, Replay(at), PerformReplay(v, at, oracle))
  {
    hide DryInv, CancelInv, FinalizeInv;
  }

  lemma KeepsReplay(v: View, bodies: nat, at: ReplayPc, oracle: Oracle)
    requires LocalInv(v, bodies, Replay(at))
    ensures Keeps(v, Replay(at), PerformReplay(v, at, oracle))
  {
    hide LocalInv, Respects, Tells, PerformReplay;
    RespectsReplay(v, bodies, at, oracle);
    TellsReplay(v, bodies, at, oracle);
  }

  lemma RespectsDry(v: View, bodies: nat, at: DryPc)
    requires LocalInv(v, bodies, Dry(at))
    ensures Respects(v, Dry(at), PerformDry(v, at))
  {
    hide ReplayInv, CancelInv, FinalizeInv;
  }

  lemma TellsDry(v: View, bodies: nat, at: DryPc)
    requires LocalInv(v, bodies, Dry(at))
    ensures Tells(v, Dry(at), PerformDry(v, at))
  {
    hide ReplayInv, CancelInv, FinalizeInv;
    var e := PerformDry(v, at);
    assert AdvanceAll(v.status, e.events) == v.status by {
      if e.events != [] { assert e.events[1..] == []; }
    }
  }

  lemma KeepsDry(v: View, bodies: nat, at: DryPc)
    requires LocalInv(v, bodies, Dry(at))
    ensures Keeps(v, Dry(at), PerformDry(v, at))
  {
    hide LocalInv, Respects, Tells, PerformDry;
    RespectsDry(v, bodies, at);
    TellsDry(v, bodies, at);
  }

  lemma KeepsFail(v: View, bodies: nat, at: FailPc)
    requires LocalInv(v, bodies, Fail(at))
    ensures Keeps(v, Fail(at), PerformFail(v, at))
  {}

  lemma KeepsAck(v: View, bodies: nat, at: AckPc)
    requires LocalInv(v, bodies, Ack(at))
    ensures Keeps(v, Ack(at), PerformAck(v, at))
  {}

  lemma KeepsCancel(v: View, bodies: nat, at: CancelPc)
    requires LocalInv(v, bodies, Cancel(at))
    ensures Keeps(v, Cancel(at), PerformCancel(v, at))
  {
    hide ReplayInv, DryInv, FinalizeInv;
  }

  lemma KeepsFinalize(v: View, bodies: nat, at: FinalizePc)
    requires LocalInv(v, bodies, Finalize(at))
    ensures Keeps(v, Finalize(at), PerformFinalize(v, at))
  {}

  lemma KeepsStep(v: View, bodies: nat, p: Pc, oracle: Oracle)
    requires LocalInv(v, bodies, p)
    ensures Keeps(v, p, Perform(v, p, oracle))
  {
    match p
    case Start(at) => KeepsStart(v, bodies, at);
    case Replay(at) => KeepsReplay(v, bodies, at, oracle);
    case Dry(at) => KeepsDry(v, bodies, at);
    case Fail(at) => KeepsFail(v, bodies, at);
    case Ack(at) => KeepsAck(v, bodies, at);
    case Cancel(at) => KeepsCancel(v, bodies, at);
    case Finalize(at) => KeepsFinalize(v, bodies, at);
    case _ =>
  }

  /** What a thread at `q` lets the other threads of its job do. */
  predicate Rely(v: View, bodies: nat, v2: View, bodies2: nat, q: Pc) {
    && v2.window == v.window && v2.dryRunComplete == v.dryRunComplete
    && StatusStep(v.status, v2.status)
    && (HoldsRow(q) ==> v2.status == v.status)
    && (v2.status == Pending ==> bodies2 == bodies)
    && (WorkerSide(q) ==>
          && bodies2 == bodies
          && (v.owned && !v2.owned ==> v2.status == Cancelled)
          && (v2.status == v.status || v2.status == Cancelling || v2.status == Cancelled))
    && (SawRunning(q) ==> v2.owned == v.owned && Active(v2.status))
  }

  lemma Stable(v: View, bodies: nat, v2: View, bodies2: nat, q: Pc)
    requires LocalInv(v, bodies, q) && Rely(v, bodies, v2, bodies2, q)
    ensures LocalInv(v2, bodies2, q)
  {}

  /** No thread relies on whether other jobs are active. */
  lemma Unmoved(v: View, bodies: nat, v2: View, q: Pc)
    requires LocalInv(v, bodies, q) && v2 == v.(othersActive := v2.othersActive)
    ensures LocalInv(v2, bodies, q)
  {}

  /** The locks that an operation takes or writes under are not held at `q`. */
  predicate Guarded(p: Pc, e: Effect, q: Pc) {
    && (TakesStream(p) && e.next.Some? && HoldsStream(e.next.value) ==> !HoldsStream(q))
    && (TakesRow(p) && (e.write.Some? || (e.next.Some? && HoldsRow(e.next.value))) ==> !HoldsRow(q))
  }

  /** Every operation stays within what the other threads of the job rely on. */
  lemma Guarantee(v: View, bodies: nat, p: Pc, q: Pc, e: Effect)
    requires LocalInv(v, bodies, q) && PairInv(p, q) && Guarded(p, e, q)
    requires Respects(v, p, e)
    ensures Rely(v, bodies, AfterView(v, e), AfterBodies(bodies, e), q)
  {
    Basics(v, bodies, q);
  }

  lemma Basics(v: View, bodies: nat, q: Pc)
    requires LocalInv(v, bodies, q)
    ensures WorkerSide(q) ==> v.status != Pending
    ensures SawRunning(q) ==> v.owned && Active(v.status)
    ensures Owed(q).Some? ==> WorkerSide(q) && Terminal(v.status)
    ensures q.Release? ==> v.owned || Terminal(v.status)
  {}

  lemma PairStep(v: View, bodies: nat, p: Pc, q: Pc, e: Effect)
    requires LocalInv(v, bodies, q) && PairInv(p, q) && Guarded(p, e, q)
    requires p == Start(StartCommit) ==> v.status == Pending
    requires q == Finalize(FinalizeCommit) ==> v.status == Cancelling
    requires Establishes(v, bodies, p, e)
    ensures e.next.Some? ==> PairInv(e.next.value, q)
  {
    Basics(v, bodies, q);
  }
}
