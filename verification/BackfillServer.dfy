/**
 The service and its worker as the code has them: methods that read and write committed rows, the
 event log and the coordinator one operation at a time, while other calls interleave.

 `states` and `labels` record the run of the transition system that the operations make up, so
 what is proved of every run is true between any two statements of these methods. An operation
 that the program of `BackfillProgram` does not have at that point does not verify.
 */
module BackfillServer {
  import opened Options
  import opened BackfillProgram
  import opened BackfillSystem
  import opened BackfillInvariant
  import opened BackfillSafety
  import opened BackfillTheorems
  import opened BackfillRuntime

  /** Operations that wait for a lock. */
  predicate Waits(pc: Pc) {
    TakesStream(pc) || TakesRow(pc)
  }

  lemma FreeToStep(s: System, t: ThreadId)
    requires Live(s, t) && !Waits(s.threads[t].pc)
    ensures CanStep(s, t)
  {}

  /** Operations that only look at rows or flags, or call out to the runner ... */
  predicate Looks(pc: Pc) {
    match pc
    case Start(at) => at == StartCount
    case Load => true
    case Replay(at) => !at.ReplayEmitStarted? && !at.ReplaySave? && !at.ReplayEmitCompleted?
    case Dry(at) => at == DryRead || at.DryCheck? || at == DryReread || at.DryRecheck?
    case Fail(at) => at == FailRead
    case Ack(at) => at == AckRead
    case Cancel(at) => at == CancelProbe || at == CheckOwner
    case Finalize(at) => at == FinalizeCheckOwner
    case _ => false
  }

  /** ... and those that take a lock before they look. */
  predicate Acquires(pc: Pc) {
    match pc
    case Start(at) => at == StartAcquire || at == StartRead
    case Cancel(at) => at == PendingAcquire || at == PendingRead || at == RunningAcquire || at == RunningRead
    case Finalize(at) => at == FinalizeAcquire || at == FinalizeRead
    case _ => false
  }

  ghost predicate Reads(pc: Pc, oracle: Oracle) {
    forall v :: var e := Perform(v, pc, oracle); e == Return.(next := e.next, beginsBody := e.beginsBody)
  }

  lemma LooksOnly(pc: Pc, oracle: Oracle)
    requires Looks(pc) || Acquires(pc)
    ensures Reads(pc, oracle) && (Looks(pc) ==> !Waits(pc))
  {}

  /** At `pc` a thread commits `status`, if any, together with `kinds`, and goes on at `next`. */
  ghost predicate Writes(pc: Pc, status: Option<Status>, kinds: seq<EventKind>, next: Option<Pc>) {
    forall v :: Perform(v, pc, Raises) == Return.(next := next, write := status, events := kinds)
  }

  lemma ReplayWrites(summary: Summary)
    ensures Writes(Replay(ReplayEmitStarted), None, [ReplayStarted], Some(Replay(ReplayLoadContext)))
    ensures !Waits(Replay(ReplayEmitStarted)) && !Waits(Replay(ReplayEmitCompleted(summary)))
    ensures Writes(Replay(ReplaySave(summary)), Some(OutcomeStatus(summary)), [],
        Some(Replay(ReplayEmitCompleted(summary))))
    ensures Writes(Replay(ReplayEmitCompleted(summary)), None, [ReplayCompleted(summary)], Some(Release(Finished)))
  {}

  /** What a worker or a cancel call has found out about its job by then. */
  predicate Found(pc: Pc, status: Status) {
    && (pc == Replay(ReplayRead) || pc == Dry(DryRead) ==> Active(status) || status == Cancelled)
    && (pc == Dry(DryReread) || pc == Fail(FailRead) ==> Active(status))
    && (pc.Replay? && pc.replay.ReplayReread? ==> Active(status))
    && (pc == Cancel(RunningRead) ==> status != Pending)
    && (pc == Cancel(CheckOwner) || pc.Finalize? ==> status == Cancelling || Terminal(status))
    && (pc == Finalize(FinalizeCheckOwner) ==> status == Cancelling)
  }

  lemma FoundBefore(s: System, t: ThreadId)
    requires Reachable(s) && t in s.threads
    ensures s.threads[t].job in s.jobs && Found(s.threads[t].pc, s.jobs[s.threads[t].job].status)
  {
    hide Perform, Respects;
    Knows(s, t, Raises);
  }

  /** Another job of the stream was active at some moment after the first `n` states. */
  ghost predicate SawOthersActive(states: seq<System>, n: nat, j: JobId) {
    exists i :: n <= i < |states| && j in states[i].jobs && OthersActive(states[i].jobs, j)
  }

  /** Job `j` had a live owner at some moment after the first `n` states. */
  ghost predicate SawOwner(states: seq<System>, n: nat, j: JobId) {
    exists i :: n <= i < |states| && j in states[i].owned
  }

  /** Job `j` had this status at some moment after the first `n` states. */
  ghost predicate SawStatus(states: seq<System>, n: nat, j: JobId, status: Status) {
    exists i :: n <= i < |states| && j in states[i].jobs && states[i].jobs[j].status == status
  }

  /** After the first `n` states, job `j` changed to this status from another. */
  ghost predicate SawChange(states: seq<System>, n: nat, j: JobId, status: Status) {
    exists i, k :: n <= i < k < |states| && j in states[i].jobs && states[i].jobs[j].status != status
                   && j in states[k].jobs && states[k].jobs[j].status == status
  }

  /** The state after the first `n` is the one in which the call on thread `t` entered at `pc`. */
  ghost predicate EnteredAt(states: seq<System>, n: nat, t: ThreadId, j: JobId, pc: Pc) {
    n < |states| && t in states[n].threads && states[n].threads[t] == Thread(j, pc)
  }

  lemma StillEntered(seen: seq<System>, states: seq<System>, n: nat, t: ThreadId, j: JobId, pc: Pc)
    requires EnteredAt(seen, n, t, j, pc) && seen <= states
    ensures EnteredAt(states, n, t, j, pc)
  {}

  lemma SawEarlier(states: seq<System>, n: nat, states2: seq<System>, n2: nat, j: JobId)
    requires states <= states2 && n2 <= n
    ensures SawOthersActive(states, n, j) ==> SawOthersActive(states2, n2, j)
    ensures SawOwner(states, n, j) ==> SawOwner(states2, n2, j)
    ensures forall status :: SawStatus(states, n, j, status) ==> SawStatus(states2, n2, j, status)
  {}

  lemma SawBoth(seen: seq<System>, n: nat, states: seq<System>, j: JobId, before: Status, status: Status)
    requires seen <= states && SawStatus(seen, n, j, before) && SawStatus(states, |seen|, j, status) && before != status
    ensures SawChange(states, n, j, status)
  {
    var i :| n <= i < |seen| && j in seen[i].jobs && seen[i].jobs[j].status == before;
    assert seen[i] == states[i];
  }

  /** In the last of `states`, job `j` has this status. */
  ghost predicate HasStatus(states: seq<System>, j: JobId, status: Status) {
    states != [] && j in states[|states| - 1].jobs && states[|states| - 1].jobs[j].status == status
  }

  lemma CreateWrites()
    ensures Writes(CreateEvent, None, [JobCreated], None) && !Waits(CreateEvent)
  {}

  lemma DryWrites()
    ensures Writes(Dry(DryEmitStarted), None, [ChunkStarted], Some(Dry(DryEmitSnapshot)))
    ensures Writes(Dry(DryEmitSnapshot), None, [CheckpointSnapshotUsed], Some(Dry(DryEmitChunk)))
    ensures Writes(Dry(DryEmitChunk), None, [ChunkCompleted], Some(Dry(DryReread)))
    ensures Writes(Dry(DryEmitCompleted), None, [JobCompleted], Some(Release(Finished)))
    ensures !Waits(Dry(DryEmitStarted)) && !Waits(Dry(DryEmitSnapshot))
    ensures !Waits(Dry(DryEmitChunk)) && !Waits(Dry(DryEmitCompleted))
  {}

  lemma StartWrites()
    ensures Writes(Start(StartReject), None, [JobFailed(ConcurrentBackfillActive)], None)
    ensures Writes(Start(StartCommit), Some(Running), [JobStarted], Some(Claim))
    ensures !Waits(Start(StartReject)) && !Waits(Start(StartCommit))
  {}

  lemma CancelWrites()
    ensures Writes(Cancel(PendingCommit), Some(Cancelled), [CancellationRequested, JobCancelled],
        Some(Cancel(PendingClear)))
    ensures Writes(Cancel(RunningCommit), Some(Cancelling), [CancellationRequested], Some(Cancel(CheckOwner)))
    ensures !Waits(Cancel(PendingCommit)) && !Waits(Cancel(RunningCommit)) && !Waits(Cancel(PendingClear))
    ensures !Waits(Cancel(RunningRequest)) && !Waits(Cancel(AgainRequest))
  {}

  lemma FinalizeWrites()
    ensures Writes(Finalize(FinalizeCommit), Some(Cancelled), [JobCancelled], Some(Finalize(FinalizeClear)))
    ensures !Waits(Finalize(FinalizeCommit)) && !Waits(Finalize(FinalizeClear))
  {}

  function Moved(threads: map<ThreadId, Thread>, t: ThreadId, j: JobId, next: Option<Pc>): map<ThreadId, Thread> {
    if next.Some? then threads[t := Thread(j, next.value)] else threads - {t}
  }

  /** `StartRaised` is an exception of the worker's that goes through to the caller. */
  datatype StartAnswer =
    | StartNotFound
    | StartInvalid(current: Status)
    | StartConcurrent
    | StartRaised
    | Started(status: Status)

  datatype CancelAnswer = CancelNotFound | CancelConflict(current: Status) | CancelAccepted(status: Status)

  class Server {
    const coord: BackfillRuntimeCoordinator
    var jobs: map<JobId, Job>
    var log: seq<Event>
    var threads: map<ThreadId, Thread>
    var booting: bool
    var bodies: map<JobId, nat>
    var lost: map<JobId, EventKind>
    ghost var states: seq<System>
    ghost var labels: seq<Label>

    function State(): System
      reads this, coord`ownedJobs, coord`cancelRequested
    {
      System(jobs, log, coord.ownedJobs, coord.cancelRequested, threads, booting, bodies, lost)
    }

    ghost predicate Valid()
      reads this, coord`ownedJobs, coord`cancelRequested
    {
      IsRun(states, labels) && states[0] == Empty && states[|states| - 1] == State()
    }

    /** The next operation of thread `t` is the one at `pc`, for job `j` with window `w`. */
    ghost predicate At(t: ThreadId, j: JobId, w: Window, pc: Pc)
      reads this
    {
      !booting && t in threads && threads[t] == Thread(j, pc) && j in jobs && jobs[j].window == w
    }

    /** The call on thread `t`, for job `j`, is blocked: its next operation waits for a lock that
        another call holds. */
    ghost predicate Hangs(t: ThreadId, j: JobId)
      reads this, coord`ownedJobs, coord`cancelRequested
    {
      !booting && t in threads && threads[t].job == j && j in jobs && !Unblocked(State(), t)
    }

    ghost predicate Next(t: ThreadId, j: JobId, w: Window, next: Option<Pc>)
      reads this
    {
      match next
      case Some(pc) => At(t, j, w, pc)
      case None => !booting && t !in threads && j in jobs && jobs[j].window == w
    }

    /** `v` is what there is to see of job `j`. */
    ghost predicate Sees(v: View, j: JobId)
      reads this, coord`ownedJobs, coord`cancelRequested
    {
      j in jobs && v == ViewOf(State(), j)
    }

    constructor ()
      ensures Valid() && jobs == map[] && log == [] && !booting && fresh(coord)
    {
      coord := new BackfillRuntimeCoordinator();
      jobs, log, threads, booting := map[], [], map[], false;
      bodies, lost := map[], map[];
      states, labels := [Empty], [];
    }

    /** Other calls run for a while. Their number and their kind are left open: all that is known
        afterwards is that they made a run in which `t` took no step and was not killed. */
    method Interfere(t: ThreadId, j: JobId, w: Window, pc: Pc)
      requires Valid() && At(t, j, w, pc)
      modifies this, coord
      ensures Valid() && At(t, j, w, pc) && old(states) <= states
    {}

    // ---- Single operations ----------------------------------------------------------------------

    /** Thread `t` has performed the operation with effect `e`: what it did to rows, log and
        coordinator is in place, and the thread moves on. */
    method Move(t: ThreadId, e: Effect, ghost oracle: Oracle, ghost before: System)
      requires IsRun(states, labels) && states[0] == Empty && states[|states| - 1] == before
      requires CanStep(before, t) && e == Perform(ViewOf(before, before.threads[t].job), before.threads[t].pc, oracle)
      requires State().(threads := Apply(before, t, e).threads, bodies := Apply(before, t, e).bodies)
               == Apply(before, t, e)
      requires threads == before.threads && bodies == before.bodies
      modifies this`threads, this`bodies, this`states, this`labels
      ensures Valid() && State() == Apply(before, t, e) && old(states) <= states
      ensures states == old(states) + [State()] && labels == old(labels) + [Run(t, oracle)]
    {
      hide Perform, Unblocked, Step, IsRun;
      var j := threads[t].job;
      bodies := if e.beginsBody then bodies[j := Bodies(State(), j) + 1] else bodies;
      threads := Moved(threads, t, j, e.next);
      assert State() == StepThread(before, t, oracle);
      RunStep(before, t, oracle);
      RunExtends(states, labels, Run(t, oracle), State());
      states := states + [State()];
      labels := labels + [Run(t, oracle)];
    }

    /** An operation that only looks; `v` is what it sees. */
    method Look(t: ThreadId, j: JobId, w: Window, pc: Pc, oracle: Oracle) returns (v: View)
      requires Valid() && At(t, j, w, pc) && Looks(pc)
      modifies this, coord
      ensures Valid() && old(states) < states && v.window == w
      ensures Next(t, j, w, Perform(v, pc, oracle).next) && Sees(v, j) && Found(pc, v.status)
    {
      hide Perform, Unblocked, IsRun, Waits, Looks, OthersActive, Found;
      Interfere(t, j, w, pc);
      FoundBefore(State(), t);
      v := ViewOf(State(), j);
      LooksOnly(pc, oracle);
      FreeToStep(State(), t);
      assert log + EventsOf(j, []) == log;
      Move(t, Perform(v, pc, oracle), oracle, State());
    }

    /** An operation that waits for a lock; without it the call hangs. */
    method Acquire(t: ThreadId, j: JobId, w: Window, pc: Pc) returns (granted: bool, v: View)
      requires Valid() && At(t, j, w, pc) && Acquires(pc)
      modifies this, coord
      ensures Valid() && old(states) <= states
      ensures granted ==> old(states) < states && v.window == w
      ensures granted ==> Next(t, j, w, Perform(v, pc, Raises).next) && Sees(v, j)
      ensures granted ==> Found(pc, v.status)
      ensures !granted ==> At(t, j, w, pc) && Hangs(t, j)
    {
      hide Perform, Unblocked, IsRun, Acquires, OthersActive;
      Interfere(t, j, w, pc);
      v := ViewOf(State(), j);
      granted := CanStep(State(), t);
      if granted {
        LooksOnly(pc, Raises);
        FoundBefore(State(), t);
        assert log + EventsOf(j, []) == log;
        Move(t, Perform(v, pc, Raises), Raises, State());
      }
    }

    /** `emit_event`: one event in a transaction of its own. */
    method EmitEvent(t: ThreadId, j: JobId, w: Window, pc: Pc, kind: EventKind, ghost next: Option<Pc>)
      requires Valid() && At(t, j, w, pc) && Writes(pc, None, [kind], next) && !Waits(pc)
      modifies this, coord
      ensures Valid() && old(states) < states && Next(t, j, w, next)
      ensures log != [] && log[|log| - 1] == Event(j, kind)
    {
      hide Perform, Unblocked, IsRun, Waits, OthersActive;
      Interfere(t, j, w, pc);
      ghost var before := State();
      FreeToStep(before, t);
      var v := ViewOf(State(), j);
      log := log + EventsOf(j, [kind]);
      Move(t, Perform(v, pc, Raises), Raises, before);
    }

    /** Commits a status with the events staged in the same transaction, under the row lock. */
    method Commit(t: ThreadId, j: JobId, w: Window, pc: Pc, status: Status, kinds: seq<EventKind>,
        ghost next: Option<Pc>)
      requires Valid() && At(t, j, w, pc) && Writes(pc, Some(status), kinds, next) && !Waits(pc)
      modifies this, coord
      ensures Valid() && old(states) < states && Next(t, j, w, next)
      ensures HasStatus(states, j, status)
      ensures |states| > 1 && j in states[|states| - 2].jobs
      ensures var before := states[|states| - 2];
        jobs == before.jobs[j := before.jobs[j].(status := status)] && log == before.log + EventsOf(j, kinds)
    {
      hide Perform, Unblocked, IsRun, Waits, OthersActive;
      Interfere(t, j, w, pc);
      ghost var before := State();
      var v := ViewOf(State(), j);
      FreeToStep(before, t);
      jobs := jobs[j := jobs[j].(status := status)];
      log := log + EventsOf(j, kinds);
      Move(t, Perform(v, pc, Raises), Raises, before);
    }

    /** The worker's `save_job`: an UPDATE, which waits for the row lock. */
    method SaveJob(t: ThreadId, j: JobId, w: Window, pc: Pc, status: Status, ghost next: Option<Pc>)
      returns (granted: bool)
      requires Valid() && At(t, j, w, pc) && Writes(pc, Some(status), [], next)
      modifies this, coord
      ensures Valid() && old(states) <= states
      ensures granted ==> Next(t, j, w, next) && jobs[j].status == status && HasStatus(states, j, status)
      ensures !granted ==> At(t, j, w, pc) && Hangs(t, j)
    {
      hide Perform, Unblocked, IsRun, OthersActive;
      Interfere(t, j, w, pc);
      ghost var before := State();
      var v := ViewOf(State(), j);
      granted := CanStep(State(), t);
      if granted {
        jobs := jobs[j := jobs[j].(status := status)];
        assert log + EventsOf(j, []) == log;
        Move(t, Perform(v, pc, Raises), Raises, before);
      }
    }

    /** Always succeeds: no second worker of a job gets this far. */
    method ClaimJobOwner(t: ThreadId, j: JobId, w: Window) returns (claimed: bool)
      requires Valid() && At(t, j, w, Claim)
      modifies this, coord
      ensures Valid() && old(states) < states
      ensures claimed && At(t, j, w, Load) && j in coord.ownedJobs
    {
      hide Unblocked, IsRun, OthersActive;
      Interfere(t, j, w, Claim);
      ghost var before := State();
      var v := ViewOf(State(), j);
      FreeToStep(before, t);
      ClaimNeverRefused(before, t);
      claimed := coord.ClaimJobOwner(j);
      assert log + EventsOf(j, []) == log;
      Move(t, Perform(v, Claim, Raises), Raises, before);
    }

    method ReleaseJobOwner(t: ThreadId, j: JobId, w: Window, exit: Exit)
      requires Valid() && At(t, j, w, Release(exit))
      modifies this, coord
      ensures Valid() && old(states) <= states && Next(t, j, w, None)
      ensures j !in coord.ownedJobs
      ensures exit == Finished && (w != NoWindow || jobs[j].dryRunComplete) ==> Terminal(jobs[j].status)
      ensures exit == Acknowledged ==> jobs[j].status == Cancelled
      ensures exit == Uncaught ==> Active(jobs[j].status)
    {
      hide Unblocked, IsRun, OthersActive;
      Interfere(t, j, w, Release(exit));
      ghost var before := State();
      EndsTheJob(t, j, w, exit);
      var v := ViewOf(State(), j);
      FreeToStep(before, t);
      coord.ReleaseJobOwner(j);
      assert log + EventsOf(j, []) == log;
      Move(t, Perform(v, Release(exit), Raises), Raises, before);
    }

    method ClearJobSession(t: ThreadId, j: JobId, w: Window, pc: Pc, ghost next: Option<Pc>)
      requires Valid() && At(t, j, w, pc) && !Waits(pc) && forall v :: Perform(v, pc, Raises) == ClearSession(next)
      modifies this, coord
      ensures Valid() && old(states) < states && Next(t, j, w, next)
      ensures j !in coord.ownedJobs && j !in coord.cancelRequested && j !in coord.ephemeralByJob
    {
      hide Perform, Unblocked, IsRun, Waits, OthersActive;
      Interfere(t, j, w, pc);
      ghost var before := State();
      var v := ViewOf(State(), j);
      FreeToStep(before, t);
      coord.ClearJobSession(j);
      assert log + EventsOf(j, []) == log;
      Move(t, Perform(v, pc, Raises), Raises, before);
    }

    method RequestCancel(t: ThreadId, j: JobId, w: Window, pc: Pc, ghost next: Pc)
      requires Valid() && At(t, j, w, pc) && !Waits(pc) && forall v ::
          Perform(v, pc, Raises) == Goto(next).(cancel := Request)
      modifies this, coord
      ensures Valid() && old(states) < states && At(t, j, w, next)
      ensures j in coord.cancelRequested
    {
      hide Perform, Unblocked, IsRun, Waits, OthersActive;
      Interfere(t, j, w, pc);
      ghost var before := State();
      var v := ViewOf(State(), j);
      FreeToStep(before, t);
      coord.RequestCancel(j);
      assert log + EventsOf(j, []) == log;
      Move(t, Perform(v, pc, Raises), Raises, before);
    }

    // ---- BackfillWorker -------------------------------------------------------------------------

    /** `_cancel_terminal`; `waits` says that the call hangs on a lock. */
    method CancelTerminal(t: ThreadId, j: JobId, w: Window) returns (waits: bool)
      requires Valid() && At(t, j, w, Ack(AckRead))
      modifies this, coord
      ensures Valid() && old(states) <= states
      ensures if waits then Hangs(t, j) else At(t, j, w, Release(Acknowledged))
      ensures !waits ==> HasStatus(states, j, Cancelled)
    {
      hide Valid, At, Sees, HasStatus, CanStep, Hangs, PerformStart, PerformReplay, PerformDry, PerformFail,
        PerformCancel, PerformFinalize;
      var v := Look(t, j, w, Ack(AckRead), Raises);
      if !Active(v.status) {
        EndsTheJob(t, j, w, Acknowledged);
        return false;
      }
      var saved := SaveJob(t, j, w, Ack(AckSave), Cancelled, Some(Ack(AckEmit)));
      if !saved {
        return true;
      }
      EmitEvent(t, j, w, Ack(AckEmit), JobCancelled, Some(Ack(AckClear)));
      ClearJobSession(t, j, w, Ack(AckClear), Some(Release(Acknowledged)));
      EndsTheJob(t, j, w, Acknowledged);
      waits := false;
    }

    /** `_fail_job` */
    method FailJob(t: ThreadId, j: JobId, w: Window) returns (waits: bool)
      requires Valid() && At(t, j, w, Fail(FailRead))
      modifies this, coord
      ensures Valid() && old(states) <= states
      ensures if waits then Hangs(t, j) else At(t, j, w, Release(Finished))
      ensures !waits ==> HasStatus(states, j, Failed)
    {
      hide Valid, At, Sees, HasStatus, CanStep, Hangs, PerformStart, PerformReplay, PerformDry, PerformAck,
        PerformCancel, PerformFinalize;
      var v := Look(t, j, w, Fail(FailRead), Raises);
      if !Active(v.status) {
        return false;
      }
      var saved := SaveJob(t, j, w, Fail(FailSave), Failed, Some(Fail(FailEmit)));
      if !saved {
        return true;
      }
      ghost var seen := states;
      EmitEvent(t, j, w, Fail(FailEmit), JobFailed(ReplayFailed), Some(Release(Finished)));
      StillTerminal(seen, j, Failed);
      waits := false;
    }

    /** The worker has left its body, either way. */
    ghost predicate Left(t: ThreadId, j: JobId, w: Window)
      reads this
    {
      At(t, j, w, Release(Finished)) || At(t, j, w, Release(Acknowledged))
    }

    /** `run_replay_job`, up to the run: `loaded` is what loading the stream's context did, `ran`
        what the runner did. `raised` says that it left by an exception of its own. */
    method RunReplayJob(t: ThreadId, j: JobId, w: Window, loaded: Oracle, ran: Oracle)
      returns (waits: bool, raised: bool)
      requires Valid() && At(t, j, w, Replay(ReplayRead))
      modifies this, coord
      ensures Valid() && old(states) <= states
      ensures if waits then Hangs(t, j) else if raised then At(t, j, w, Release(Uncaught)) else Left(t, j, w)
      ensures raised ==> Uncatchable(w, loaded)
      ensures !waits && !raised ==> HasStatus(states, j, Cancelled) || HasStatus(states, j,
          if w.Window? && w.start < w.end && loaded.Returns? && ran.Returns? && !ran.summary.skippedLock then Completed
          else Failed)
    {
      hide Valid, At, Sees, Writes, Waits, CanStep, Hangs, PerformStart, PerformAck, PerformDry, PerformFail,
        PerformCancel, PerformFinalize;
      waits, raised := false, false;
      var v := Look(t, j, w, Replay(ReplayRead), Raises);
      var seen := v.status;
      if !Active(seen) {
        Saw(v, j, 0);
        return;
      }
      v := Look(t, j, w, Replay(ReplayCheck(seen)), Raises);
      if v.cancelRequested || seen == Cancelling {
        waits := CancelTerminal(t, j, w);
        return;
      }
      v := Look(t, j, w, Replay(ReplayParse), Raises);
      if w == MixedWindow {
        raised := true;
        return;
      }
      if !(w.Window? && w.start < w.end) {
        waits := FailJob(t, j, w);
        return;
      }
      ReplayWrites(Summary(false));
      EmitEvent(t, j, w, Replay(ReplayEmitStarted), ReplayStarted, Some(Replay(ReplayLoadContext)));
      waits, raised := RunStream(t, j, w, loaded, ran);
    }

    /** `run_replay_job`, from loading the stream's context on. */
    method RunStream(t: ThreadId, j: JobId, w: Window, loaded: Oracle, ran: Oracle) returns (waits: bool, raised: bool)
      requires Valid() && At(t, j, w, Replay(ReplayLoadContext))
      modifies this, coord
      ensures Valid() && old(states) <= states
      ensures if waits then Hangs(t, j) else if raised then At(t, j, w, Release(Uncaught)) else Left(t, j, w)
      ensures raised <==> loaded == RaisesOther
      ensures !waits && !raised ==> HasStatus(states, j, Cancelled) || HasStatus(states, j,
          if loaded.Returns? && ran.Returns? && !ran.summary.skippedLock then Completed else Failed)
    {
      hide Valid, At, Sees, Writes, Waits, CanStep, Hangs, PerformStart, PerformAck, PerformDry, PerformFail,
        PerformCancel, PerformFinalize;
      waits, raised := false, false;
      var v := Look(t, j, w, Replay(ReplayLoadContext), loaded);
      match loaded {
        case Raises =>
          waits := FailJob(t, j, w);
          return;
        case RaisesOther =>
          raised := true;
          return;
        case Returns(_) =>
      }
      v := Look(t, j, w, Replay(ReplayRun), ran);
      if !ran.Returns? {
        waits := FailJob(t, j, w);
        return;
      }
      waits := StoreOutcome(t, j, w, ran.summary);
    }

    /** `run_replay_job`, once the runner has returned `summary`. */
    method StoreOutcome(t: ThreadId, j: JobId, w: Window, summary: Summary) returns (waits: bool)
      requires Valid() && At(t, j, w, Replay(ReplayCheckCancel(summary)))
      modifies this, coord
      ensures Valid() && old(states) <= states
      ensures if waits then Hangs(t, j) else Left(t, j, w)
      ensures !waits ==> HasStatus(states, j, Cancelled) || HasStatus(states, j,
          if summary.skippedLock then Failed else Completed)
    {
      hide Valid, At, Sees, Writes, Waits, CanStep, Hangs, PerformStart, PerformAck, PerformDry, PerformFail,
        PerformCancel, PerformFinalize;
      var v := Look(t, j, w, Replay(ReplayCheckCancel(summary)), Raises);
      if v.cancelRequested {
        waits := CancelTerminal(t, j, w);
        return;
      }
      v := Look(t, j, w, Replay(ReplayReread(summary)), Raises);
      var seen := v.status;
      v := Look(t, j, w, Replay(ReplayRecheck(summary, seen)), Raises);
      if seen == Cancelling || v.cancelRequested {
        waits := CancelTerminal(t, j, w);
        return;
      }
      if seen != Running {
        return false;
      }
      ReplayWrites(summary);
      var status := if summary.skippedLock then Failed else Completed;
      var saved := SaveJob(t, j, w, Replay(ReplaySave(summary)), status, Some(Replay(ReplayEmitCompleted(summary))));
      if !saved {
        return true;
      }
      ghost var stored := states;
      EmitEvent(t, j, w, Replay(ReplayEmitCompleted(summary)), ReplayCompleted(summary), Some(Release(Finished)));
      StillTerminal(stored, j, status);
      waits := false;
    }

    /** The job's dry run is marked complete. */
    ghost predicate DryRunOf(j: JobId)
      reads this
    {
      j in jobs && jobs[j].dryRunComplete
    }

    /** `run_dry_lifecycle` */
    method RunDryLifecycle(t: ThreadId, j: JobId, w: Window) returns (waits: bool)
      requires Valid() && At(t, j, w, Dry(DryRead))
      modifies this, coord
      ensures Valid() && old(states) <= states
      ensures if waits then Hangs(t, j) else Left(t, j, w)
      ensures !waits && DryRunOf(j) ==> HasStatus(states, j, Cancelled) || HasStatus(states, j, Completed)
    {
      hide Valid, At, Sees, Writes, Waits, CanStep, Hangs, PerformStart, PerformAck, PerformReplay, PerformFail,
        PerformCancel, PerformFinalize;
      var v := Look(t, j, w, Dry(DryRead), Raises);
      var seen := v.status;
      if !Active(seen) {
        Saw(v, j, 0);
        return false;
      }
      v := Look(t, j, w, Dry(DryCheck(seen)), Raises);
      if v.cancelRequested || seen == Cancelling {
        waits := CancelTerminal(t, j, w);
        return;
      }
      DryWrites();
      EmitEvent(t, j, w, Dry(DryEmitStarted), ChunkStarted, Some(Dry(DryEmitSnapshot)));
      EmitEvent(t, j, w, Dry(DryEmitSnapshot), CheckpointSnapshotUsed, Some(Dry(DryEmitChunk)));
      EmitEvent(t, j, w, Dry(DryEmitChunk), ChunkCompleted, Some(Dry(DryReread)));
      waits := StoreProgress(t, j, w);
    }

    /** `run_dry_lifecycle`, once the chunk markers are out. */
    method StoreProgress(t: ThreadId, j: JobId, w: Window) returns (waits: bool)
      requires Valid() && At(t, j, w, Dry(DryReread))
      modifies this, coord
      ensures Valid() && old(states) <= states
      ensures if waits then Hangs(t, j) else Left(t, j, w)
      ensures !waits && DryRunOf(j) ==> HasStatus(states, j, Cancelled) || HasStatus(states, j, Completed)
    {
      hide Valid, At, Sees, Writes, Waits, CanStep, Hangs, PerformStart, PerformAck, PerformReplay, PerformFail,
        PerformCancel, PerformFinalize;
      var v := Look(t, j, w, Dry(DryReread), Raises);
      var seen := v.status;
      v := Look(t, j, w, Dry(DryRecheck(seen)), Raises);
      if seen == Cancelling || v.cancelRequested {
        waits := CancelTerminal(t, j, w);
        return;
      }
      if seen != Running {
        return false;
      }
      var saved, completed := SaveProgress(t, j, w);
      if !saved {
        return true;
      }
      if completed {
        DryWrites();
        ghost var stored := states;
        EmitEvent(t, j, w, Dry(DryEmitCompleted), JobCompleted, Some(Release(Finished)));
        StillTerminal(stored, j, Completed);
      }
      waits := false;
    }

    /** The saves at the end of `run_dry_lifecycle`: only a dry run marked complete stores COMPLETED. */
    method SaveProgress(t: ThreadId, j: JobId, w: Window) returns (granted: bool, completed: bool)
      requires Valid() && At(t, j, w, Dry(DrySave))
      modifies this, coord
      ensures Valid() && old(states) <= states
      ensures granted ==> At(t, j, w, if completed then Dry(DryEmitCompleted) else Release(Finished))
      ensures granted ==> j in jobs && completed == jobs[j].dryRunComplete
      ensures granted && completed ==> HasStatus(states, j, Completed)
      ensures !granted ==> At(t, j, w, Dry(DrySave)) && Hangs(t, j)
    {
      hide Unblocked, IsRun, OthersActive;
      Interfere(t, j, w, Dry(DrySave));
      ghost var before := State();
      var v := ViewOf(State(), j);
      granted, completed := CanStep(State(), t), v.dryRunComplete;
      if granted {
        if completed {
          jobs := jobs[j := jobs[j].(status := Completed)];
        }
        assert log + EventsOf(j, []) == log;
        Move(t, Perform(v, Dry(DrySave), Raises), Raises, before);
      }
    }

    /** A terminal status the job once had is the one it has now. */
    lemma StaysTerminal(seen: seq<System>, j: JobId, status: Status)
      requires Valid() && seen <= states && HasStatus(seen, j, status) && Terminal(status)
      ensures j in jobs && jobs[j].status == status
    {
      hide IsRun;
      TerminalForever(states, labels, |seen| - 1, j);
    }

    lemma StillTerminal(seen: seq<System>, j: JobId, status: Status)
      requires Valid() && seen <= states && HasStatus(seen, j, status) && Terminal(status)
      ensures HasStatus(states, j, status)
    {
      hide IsRun;
      TerminalForever(states, labels, |seen| - 1, j);
    }

    /** A worker at the end of its body. */
    lemma EndsTheJob(t: ThreadId, j: JobId, w: Window, exit: Exit)
      requires Valid() && At(t, j, w, Release(exit))
      ensures j in jobs && HasStatus(states, j, jobs[j].status)
      ensures exit == Acknowledged ==> HasStatus(states, j, Cancelled)
      ensures exit == Finished && (w != NoWindow || jobs[j].dryRunComplete) ==> Terminal(jobs[j].status)
      ensures exit == Acknowledged ==> jobs[j].status == Cancelled
      ensures exit == Uncaught ==> Active(jobs[j].status)
    {
      hide Step;
      WorkerEndsTheJob(State(), t);
    }

    /** A replay has COMPLETED exactly when its window is one, the context was loaded, and the runner
        returned and found the stream's lock free, and FAILED otherwise; a dry run that is marked complete
        has COMPLETED. */
    ghost predicate EndedAs(j: JobId, w: Window, loaded: Oracle, ran: Oracle)
      reads this
    {
      j in jobs && var job := jobs[j];
      && (w != NoWindow ==>
            job.status == if w.Window? && w.start < w.end && loaded.Returns? && ran.Returns? && !ran.summary.skippedLock
                          then Completed else Failed)
      && (w == NoWindow && job.dryRunComplete ==> job.status == Completed)
    }

    /** `BackfillWorker.start_job`: whatever the runner does and wherever a cancel lands, a job
        with a replay window is terminal afterwards, unless the worker raised: then it is still RUNNING
        or CANCELLING and has no owner. */
    method StartJob(t: ThreadId, j: JobId, w: Window, loaded: Oracle, ran: Oracle) returns (waits: bool, raised: bool)
      requires Valid() && At(t, j, w, Claim)
      modifies this, coord
      ensures Valid() && old(states) <= states
      ensures if waits then Hangs(t, j) else Next(t, j, w, None)
      ensures !waits && !raised && jobs[j].status != Cancelled ==> EndedAs(j, w, loaded, ran)
      ensures !waits && raised ==> Active(jobs[j].status) && j !in coord.ownedJobs && Uncatchable(w, loaded)
    {
      hide Valid, At, Sees, HasStatus, CanStep, Hangs, PerformStart, PerformAck, PerformReplay, PerformDry,
        PerformFail, PerformCancel, PerformFinalize;
      waits, raised := false, false;
      var claimed := ClaimJobOwner(t, j, w);
      if !claimed {
        return;
      }
      var v := Look(t, j, w, Load, Raises);
      if w != NoWindow {
        waits, raised := RunReplayJob(t, j, w, loaded, ran);
      } else {
        waits := RunDryLifecycle(t, j, w);
      }
      if !waits {
        ghost var seen := states;
        RowNow(t, j, w);
        Finally(t, j, w);
        StatusStays(seen, j);
      }
    }

    lemma RowNow(t: ThreadId, j: JobId, w: Window)
      requires Valid() && (Left(t, j, w) || At(t, j, w, Release(Uncaught)))
      ensures states != [] && j in jobs && j in states[|states| - 1].jobs && states[|states| - 1].jobs[j] == jobs[j]
    {
      hide Step;
    }

    /** What a job once had for a terminal status, and its mark, it still has. */
    lemma StatusStays(seen: seq<System>, j: JobId)
      requires Valid() && seen <= states && seen != [] && j in seen[|seen| - 1].jobs
      ensures j in jobs && jobs[j].dryRunComplete == seen[|seen| - 1].jobs[j].dryRunComplete
      ensures forall status :: HasStatus(seen, j, status) && Terminal(status) ==> jobs[j].status == status
    {
      hide IsRun;
      RowStays(states, labels, |seen| - 1, j);
      if Terminal(seen[|seen| - 1].jobs[j].status) {
        TerminalForever(states, labels, |seen| - 1, j);
      }
    }

    /** The `finally` clause of `start_job`. */
    method Finally(t: ThreadId, j: JobId, w: Window)
      requires Valid() && (Left(t, j, w) || At(t, j, w, Release(Uncaught)))
      modifies this, coord
      ensures Valid() && old(states) <= states && Next(t, j, w, None)
      ensures old(Left(t, j, w)) && (w != NoWindow || jobs[j].dryRunComplete) ==> Terminal(jobs[j].status)
      ensures old(At(t, j, w, Release(Uncaught))) ==> Active(jobs[j].status) && j !in coord.ownedJobs
    {
      hide Valid, HasStatus, CanStep, Hangs;
      ReleaseJobOwner(t, j, w, threads[t].pc.exit);
    }

    // ---- The service ------------------------------------------------------------------------------

    /** A call on an existing job reaches the service on thread `t`. */
    method Enter(t: ThreadId, j: JobId, l: Label, pc: Pc)
      requires Valid() && !booting && t !in threads && j in jobs
      requires (l == CallStart(t, j) && pc == Start(StartAcquire))
          || (l == CallCancel(t, j) && pc == Cancel(CancelProbe))
      modifies this
      ensures Valid() && At(t, j, old(jobs[j].window), pc)
      ensures old(states) <= states && |states| == |old(states)| + 1 && EnteredAt(states, |old(states)|, t, j, pc)
    {
      hide IsRun;
      ghost var before := State();
      threads := threads[t := Thread(j, pc)];
      RunExtends(states, labels, l, State());
      states := states + [State()];
      labels := labels + [l];
    }

    /** `create_backfill_job`, for the identity `j` the database gives the new row. */
    method CreateBackfillJob(t: ThreadId, j: JobId, stream: int, w: Window, dryRunComplete: bool,
        snapshot: Option<Snapshot>)
      requires Valid() && !booting && t !in threads && j !in jobs
      modifies this, coord
      ensures Valid() && old(states) <= states && Next(t, j, w, None)
      ensures log != [] && log[|log| - 1] == Event(j, JobCreated)
      ensures |old(states)| < |states|
      ensures states[|old(states)|].jobs == old(jobs)[j := Job(stream, Pending, w, dryRunComplete)]
    {
      hide IsRun, Perform, Writes, Waits, Reads, OthersActive;
      jobs := jobs[j := Job(stream, Pending, w, dryRunComplete)];
      threads := threads[t := Thread(j, CreateEvent)];
      RunExtends(states, labels, Create(t, j, jobs[j]), State());
      labels := labels + [Create(t, j, jobs[j])];
      states := states + [State()];
      coord.RegisterJobSession(j, snapshot);
      CreateWrites();
      EmitEvent(t, j, w, CreateEvent, JobCreated, None);
    }

    lemma Saw(v: View, j: JobId, n: nat)
      requires Valid() && Sees(v, j) && n < |states|
      ensures HasStatus(states, j, v.status) && jobs[j].status == v.status && SawStatus(states, n, j, v.status)
      ensures v.othersActive ==> SawOthersActive(states, n, j)
      ensures v.owned ==> SawOwner(states, n, j)
    {
      hide IsRun, OthersActive;
      assert states[|states| - 1] == State();
    }

    /** The status that a job has is one it is seen with. */
    lemma SeesNow(j: JobId, n: nat)
      requires Valid() && n < |states| && j in jobs
      ensures SawStatus(states, n, j, jobs[j].status)
    {
      hide IsRun;
      assert states[|states| - 1] == State();
    }

    /** `start_backfill_job`: a start that ran its worker to the end has ended a job with a replay
        window, and one that is refused was refused for cause. */
    method StartBackfillJob(t: ThreadId, j: JobId, loaded: Oracle, ran: Oracle, snapshot: Option<Snapshot>)
      returns (waits: bool, answer: StartAnswer)
      requires Valid() && !booting && t !in threads
      modifies this, coord
      ensures Valid() && old(states) <= states
      ensures answer.StartNotFound? <==> j !in old(jobs)
      ensures !answer.StartNotFound? ==> EnteredAt(states, |old(states)|, t, j, Start(StartAcquire))
      ensures if waits then Hangs(t, j) else !booting && t !in threads
      ensures !waits && answer.StartInvalid? ==>
          answer.current != Pending && SawStatus(states, |old(states)|, j, answer.current)
      ensures !waits && answer.StartConcurrent? ==>
        SawStatus(states, |old(states)|, j, Pending) && SawOthersActive(states, |old(states)|, j)
      ensures !waits && (answer.StartRaised? || answer.Started?) ==>
        j in jobs && SawStatus(states, |old(states)|, j, Pending) && SawStatus(states, |old(states)|, j, Running)
      ensures !waits && answer.StartRaised? ==>
        Active(jobs[j].status) && j !in coord.ownedJobs && Uncatchable(old(jobs)[j].window, loaded)
      ensures !waits && answer.Started? ==> answer.status == jobs[j].status
      ensures !waits && answer.Started? && answer.status != Cancelled ==> EndedAs(j, old(jobs)[j].window, loaded, ran)
    {
      hide Valid, At, Sees, HasStatus, SawOwner, SawOthersActive, SawStatus, CanStep, Hangs, Writes, Waits, EnteredAt,
        Found, PerformAck, PerformReplay, PerformDry, PerformFail, PerformCancel, PerformFinalize;
      ghost var n := |states|;
      if j !in jobs {
        return false, StartNotFound;
      }
      var w := jobs[j].window;
      Enter(t, j, CallStart(t, j), Start(StartAcquire));
      ghost var entered := states;
      var granted, v := Acquire(t, j, w, Start(StartAcquire));
      if granted {
        granted, v := Acquire(t, j, w, Start(StartRead));
      }
      StillEntered(entered, states, n, t, j, Start(StartAcquire));
      if !granted {
        return true, StartConcurrent;
      }
      Saw(v, j, n);
      if v.status != Pending {
        return false, StartInvalid(v.status);
      }
      ghost var read := states;
      waits, answer := StartPending(t, j, w, loaded, ran, snapshot);
      SawEarlier(read, n, states, n, j);
      SawEarlier(states, |read|, states, n, j);
      StillEntered(entered, states, n, t, j, Start(StartAcquire));
    }

    /** `start_backfill_job`, once the row is locked and PENDING. */
    method StartPending(t: ThreadId, j: JobId, w: Window, loaded: Oracle, ran: Oracle, snapshot: Option<Snapshot>)
      returns (waits: bool, answer: StartAnswer)
      requires Valid() && At(t, j, w, Start(StartCount))
      modifies this, coord
      ensures Valid() && old(states) <= states
      ensures answer.StartConcurrent? || answer.StartRaised? || answer.Started?
      ensures if waits then Hangs(t, j) else Next(t, j, w, None)
      ensures !waits && answer.StartConcurrent? ==> SawOthersActive(states, |old(states)|, j)
      ensures !waits && (answer.StartRaised? || answer.Started?) ==> SawStatus(states, |old(states)|, j, Running)
      ensures !waits && answer.StartRaised? ==>
          Active(jobs[j].status) && j !in coord.ownedJobs && Uncatchable(w, loaded)
      ensures !waits && answer.Started? ==> answer.status == jobs[j].status
      ensures !waits && answer.Started? && answer.status != Cancelled ==> EndedAs(j, w, loaded, ran)
    {
      hide Valid, At, Sees, HasStatus, SawOwner, SawOthersActive, SawStatus, CanStep, Hangs, Writes, Waits, Found,
        PerformAck, PerformReplay, PerformDry, PerformFail, PerformCancel, PerformFinalize;
      ghost var n := |states|;
      var v := Look(t, j, w, Start(StartCount), Raises);
      StartWrites();
      if v.othersActive {
        Saw(v, j, n);
        ghost var seen := states;
        EmitEvent(t, j, w, Start(StartReject), JobFailed(ConcurrentBackfillActive), None);
        SawEarlier(seen, n, states, n, j);
        return false, StartConcurrent;
      }
      Commit(t, j, w, Start(StartCommit), Running, [JobStarted], Some(Claim));
      ghost var seen := states;
      SawLast(seen, n, j, Running);
      coord.RegisterJobSession(j, snapshot);
      var raised;
      waits, raised := StartJob(t, j, w, loaded, ran);
      SawEarlier(seen, n, states, n, j);
      answer := if waits then StartConcurrent else if raised then StartRaised else Started(jobs[j].status);
    }

    lemma SawLast(seen: seq<System>, n: nat, j: JobId, status: Status)
      requires HasStatus(seen, j, status) && n < |seen|
      ensures SawStatus(seen, n, j, status)
    {}

    /** `_finalize_cancelling_without_owner` */
    method FinalizeCancellingWithoutOwner(t: ThreadId, j: JobId, w: Window) returns (waits: bool, answer: CancelAnswer)
      requires Valid() && At(t, j, w, Finalize(FinalizeAcquire))
      modifies this, coord
      ensures Valid() && old(states) <= states
      ensures if waits then Hangs(t, j) else Next(t, j, w, None)
      ensures !waits ==> !answer.CancelNotFound?
      ensures !waits && answer.CancelConflict? ==> Terminal(answer.current) && jobs[j].status == answer.current
      ensures !waits && answer.CancelAccepted? ==> SawStatus(states, |old(states)|, j, answer.status)
      ensures !waits && answer.CancelAccepted? ==>
        (answer.status == Cancelled && jobs[j].status == Cancelled)
            || (answer.status == Cancelling && SawOwner(states, |old(states)|, j))
    {
      hide Valid, At, Sees, HasStatus, SawOwner, SawOthersActive, SawStatus, CanStep, Hangs, Writes, Waits, PerformAck,
        PerformReplay, PerformDry, PerformFail, PerformCancel, PerformStart;
      ghost var n := |states|;
      var granted, v := Acquire(t, j, w, Finalize(FinalizeAcquire));
      if !granted {
        return true, CancelNotFound;
      }
      granted, v := Acquire(t, j, w, Finalize(FinalizeRead));
      if !granted {
        return true, CancelNotFound;
      }
      if v.status != Cancelling {
        Saw(v, j, n);
        return false, if v.status == Cancelled then CancelAccepted(Cancelled) else CancelConflict(v.status);
      }
      v := Look(t, j, w, Finalize(FinalizeCheckOwner), Raises);
      if v.owned {
        Saw(v, j, n);
        return false, CancelAccepted(v.status);
      }
      FinalizeWrites();
      Commit(t, j, w, Finalize(FinalizeCommit), Cancelled, [JobCancelled], Some(Finalize(FinalizeClear)));
      ghost var seen := states;
      ClearJobSession(t, j, w, Finalize(FinalizeClear), None);
      StaysTerminal(seen, j, Cancelled);
      SeesNow(j, n);
      return false, CancelAccepted(Cancelled);
    }

    /** `cancel_backfill_job`: an accepted cancel has cancelled the job or left it CANCELLING to a live
        owner; a refused one found the job over, or with another status than it had at first. */
    method CancelBackfillJob(t: ThreadId, j: JobId) returns (waits: bool, answer: CancelAnswer)
      requires Valid() && !booting && t !in threads
      modifies this, coord
      ensures Valid() && old(states) <= states
      ensures j !in old(jobs) ==> !waits && answer.CancelNotFound?
      ensures j in old(jobs) ==>
          EnteredAt(states, |old(states)|, t, j, Cancel(CancelProbe)) && (!waits ==> !answer.CancelNotFound?)
      ensures if waits then Hangs(t, j) else !booting && t !in threads
      ensures !waits && answer.CancelConflict? ==>
        && answer.current != Pending && SawStatus(states, |old(states)|, j, answer.current)
        && (Terminal(answer.current) || SawChange(states, |old(states)|, j, answer.current))
      ensures !waits && answer.CancelAccepted? ==> j in jobs && SawStatus(states, |old(states)|, j, answer.status)
      ensures !waits && answer.CancelAccepted? ==>
        || (answer.status == Cancelled && jobs[j].status == Cancelled)
        || (answer.status != Pending && answer.status != Running && SawOwner(states, |old(states)|, j))
    {
      hide Valid, At, Sees, HasStatus, SawOwner, SawStatus, SawChange, CanStep, Hangs, Writes, Waits, EnteredAt, Found,
        PerformStart, PerformAck, PerformReplay, PerformDry, PerformFail, PerformFinalize;
      ghost var n := |states|;
      if j !in jobs {
        return false, CancelNotFound;
      }
      var w := jobs[j].window;
      Enter(t, j, CallCancel(t, j), Cancel(CancelProbe));
      ghost var entered := states;
      var v := Look(t, j, w, Cancel(CancelProbe), Raises);
      Saw(v, j, n);
      ghost var probed := states;
      match v.status {
        case Pending => waits, answer := CancelPending(t, j, w);
        case Running => waits, answer := CancelRunning(t, j, w);
        case Cancelling => waits, answer := CancelAgain(t, j, w);
        case _ => waits, answer := false, CancelConflict(v.status);
      }
      StillEntered(entered, states, n, t, j, Cancel(CancelProbe));
      SawEarlier(probed, n, states, n, j);
      SawEarlier(states, |probed|, states, n, j);
      if !waits && answer.CancelConflict? && !Terminal(answer.current) {
        SawBoth(probed, n, states, j, v.status, answer.current);
      }
    }

    method CancelPending(t: ThreadId, j: JobId, w: Window) returns (waits: bool, answer: CancelAnswer)
      requires Valid() && At(t, j, w, Cancel(PendingAcquire))
      modifies this, coord
      ensures Valid() && old(states) <= states
      ensures if waits then Hangs(t, j) else Next(t, j, w, None)
      ensures !waits ==> !answer.CancelNotFound?
      ensures !waits && answer.CancelConflict? ==>
          answer.current != Pending && SawStatus(states, |old(states)|, j, answer.current)
      ensures !waits && answer.CancelAccepted? ==>
        answer.status == Cancelled && jobs[j].status == Cancelled && SawStatus(states, |old(states)|, j, Cancelled)
    {
      hide Valid, At, Sees, HasStatus, SawStatus, CanStep, Hangs, Writes, Waits, Found, PerformStart, PerformAck,
        PerformReplay, PerformDry, PerformFail, PerformFinalize;
      ghost var n := |states|;
      var granted, v := Acquire(t, j, w, Cancel(PendingAcquire));
      if !granted {
        return true, CancelNotFound;
      }
      granted, v := Acquire(t, j, w, Cancel(PendingRead));
      if !granted {
        return true, CancelNotFound;
      }
      if v.status != Pending {
        Saw(v, j, n);
        return false, CancelConflict(v.status);
      }
      CancelWrites();
      Commit(t, j, w, Cancel(PendingCommit), Cancelled, [CancellationRequested, JobCancelled],
          Some(Cancel(PendingClear)));
      ghost var seen := states;
      ClearJobSession(t, j, w, Cancel(PendingClear), None);
      StaysTerminal(seen, j, Cancelled);
      SeesNow(j, n);
      return false, CancelAccepted(Cancelled);
    }

    method CancelRunning(t: ThreadId, j: JobId, w: Window) returns (waits: bool, answer: CancelAnswer)
      requires Valid() && At(t, j, w, Cancel(RunningAcquire))
      modifies this, coord
      ensures Valid() && old(states) <= states
      ensures if waits then Hangs(t, j) else Next(t, j, w, None)
      ensures !waits ==> !answer.CancelNotFound?
      ensures !waits && answer.CancelConflict? ==>
        answer.current != Pending && answer.current != Running && SawStatus(states, |old(states)|, j, answer.current)
      ensures !waits && answer.CancelAccepted? ==>
        && SawStatus(states, |old(states)|, j, Cancelling) && SawStatus(states, |old(states)|, j, answer.status)
        && ((answer.status == Cancelled && jobs[j].status == Cancelled)
            || (answer.status != Pending && answer.status != Running && SawOwner(states, |old(states)|, j)))
    {
      hide Valid, At, Sees, HasStatus, SawOwner, SawStatus, CanStep, Hangs, Writes, Waits, PerformStart, PerformAck,
        PerformReplay, PerformDry, PerformFail, PerformFinalize;
      ghost var n := |states|;
      var granted, v := Acquire(t, j, w, Cancel(RunningAcquire));
      if !granted {
        return true, CancelNotFound;
      }
      granted, v := Acquire(t, j, w, Cancel(RunningRead));
      if !granted {
        return true, CancelNotFound;
      }
      if v.status != Running {
        Saw(v, j, n);
        return false, CancelConflict(v.status);
      }
      CancelWrites();
      RequestCancel(t, j, w, Cancel(RunningRequest), Cancel(RunningCommit));
      Commit(t, j, w, Cancel(RunningCommit), Cancelling, [CancellationRequested], Some(Cancel(CheckOwner)));
      ghost var seen := states;
      SawLast(seen, n, j, Cancelling);
      waits, answer := LeaveToOwner(t, j, w);
      SawEarlier(seen, n, states, n, j);
      SawEarlier(states, |seen|, states, n, j);
      if !waits && answer.CancelConflict? {
        SeesNow(j, n);
      }
    }

    method CancelAgain(t: ThreadId, j: JobId, w: Window) returns (waits: bool, answer: CancelAnswer)
      requires Valid() && At(t, j, w, Cancel(AgainRequest))
      modifies this, coord
      ensures Valid() && old(states) <= states
      ensures if waits then Hangs(t, j) else Next(t, j, w, None)
      ensures !waits ==> !answer.CancelNotFound?
      ensures !waits && answer.CancelConflict? ==>
        Terminal(answer.current) && jobs[j].status == answer.current
            && SawStatus(states, |old(states)|, j, answer.current)
      ensures !waits && answer.CancelAccepted? ==>
        && SawStatus(states, |old(states)|, j, answer.status)
        && ((answer.status == Cancelled && jobs[j].status == Cancelled)
            || (answer.status != Pending && answer.status != Running && SawOwner(states, |old(states)|, j)))
    {
      hide Valid, At, Sees, HasStatus, SawOwner, SawStatus, CanStep, Hangs, Writes, Waits, Found, PerformStart,
        PerformAck, PerformReplay, PerformDry, PerformFail, PerformFinalize;
      ghost var n := |states|;
      CancelWrites();
      RequestCancel(t, j, w, Cancel(AgainRequest), Cancel(CheckOwner));
      ghost var m := |states|;
      waits, answer := LeaveToOwner(t, j, w);
      SawEarlier(states, m, states, n, j);
      if !waits && answer.CancelConflict? {
        SeesNow(j, n);
      }
    }

    /** The end of both branches: a live owner acknowledges the cancel, without one it is finalized. */
    method LeaveToOwner(t: ThreadId, j: JobId, w: Window) returns (waits: bool, answer: CancelAnswer)
      requires Valid() && At(t, j, w, Cancel(CheckOwner))
      modifies this, coord
      ensures Valid() && old(states) <= states
      ensures if waits then Hangs(t, j) else Next(t, j, w, None)
      ensures !waits ==> !answer.CancelNotFound?
      ensures !waits && answer.CancelConflict? ==> Terminal(answer.current) && jobs[j].status == answer.current
      ensures !waits && answer.CancelAccepted? ==>
        && SawStatus(states, |old(states)|, j, answer.status)
        && ((answer.status == Cancelled && jobs[j].status == Cancelled)
            || (answer.status != Pending && answer.status != Running && SawOwner(states, |old(states)|, j)))
    {
      hide Valid, At, Sees, HasStatus, SawOwner, SawStatus, CanStep, Hangs, PerformStart, PerformAck, PerformReplay,
        PerformDry, PerformFail, PerformFinalize;
      ghost var n := |states|;
      var v := Look(t, j, w, Cancel(CheckOwner), Raises);
      if v.owned {
        Saw(v, j, n);
        return false, CancelAccepted(v.status);
      }
      ghost var m := |states|;
      waits, answer := FinalizeCancellingWithoutOwner(t, j, w);
      SawEarlier(states, m, states, n, j);
    }

    // ---- A new process ----------------------------------------------------------------------------

    lemma OneOwesAtMost(t: ThreadId, u: ThreadId)
      requires Valid() && t in threads && u in threads && threads[t].job == threads[u].job
      requires Owed(threads[t].pc).Some? && Owed(threads[u].pc).Some?
      ensures t == u && threads[t].job in jobs
    {
      hide Step, LocalInv, LogInv, LostInv, LockInv;
      ReachableInv(State());
      assert OwesFor(State(), t, threads[t].job) && OwesFor(State(), u, threads[t].job);
      OneOwes(State(), t, threads[t].job);
    }

    /** The events that the calls under way owe to the log. */
    method Owing() returns (owing: map<JobId, EventKind>)
      requires Valid()
      ensures lost + owing == BackfillSystem.Restart(State()).lost
    {
      hide IsRun, Owed, BackfillSystem.Restart;
      forall t, u | t in threads && u in threads && threads[t].job == threads[u].job
                    && Owed(threads[t].pc).Some? && Owed(threads[u].pc).Some?
        ensures t == u
      {
        OneOwesAtMost(t, u);
      }
      owing := map t | t in threads && Owed(threads[t].pc).Some? :: threads[t].job := Owed(threads[t].pc).value;
      WhatIsLost(owing);
    }

    /** The process dies and comes up again: what was committed stays, the calls and what the
        coordinator held in memory are gone. */
    method Restart()
      requires Valid()
      modifies this, coord
      ensures Valid() && booting && old(states) <= states
      ensures jobs == old(jobs) && log == old(log)
      ensures threads == map[] && coord.ownedJobs == {} && coord.cancelRequested == {} && coord.ephemeralByJob == map[]
    {
      hide IsRun, OwesFor;
      ghost var before := State();
      var owing := Owing();
      lost := lost + owing;
      threads, booting := map[], true;
      coord.Reset();
      assert State() == BackfillSystem.Restart(before);
      RunExtends(states, labels, Crash, State());
      states := states + [State()];
      labels := labels + [Crash];
    }

    lemma WhatIsLost(owing: map<JobId, EventKind>)
      requires Valid()
      requires owing.Keys == set t | t in threads && Owed(threads[t].pc).Some? :: threads[t].job
      requires forall t :: t in threads && Owed(threads[t].pc).Some? ==>
          owing[threads[t].job] == Owed(threads[t].pc).value
      ensures lost + owing == BackfillSystem.Restart(State()).lost
    {
      hide IsRun;
      var s := State();
      forall j ensures j in owing <==> j in s.jobs && exists t :: OwesFor(s, t, j) {
        if j in owing {
          var t :| t in threads && Owed(threads[t].pc).Some? && threads[t].job == j;
          OneOwesAtMost(t, t);
          assert OwesFor(s, t, j);
        }
      }
      forall j | j in owing ensures owing[j] == LostAt(s, j) {}
    }

    /** Startup is over, and the process serves calls. */
    method Serve()
      requires Valid() && booting
      modifies this
      ensures Valid() && !booting && old(states) <= states
      ensures jobs == old(jobs) && log == old(log) && threads == old(threads)
    {
      hide IsRun;
      booting := false;
      RunExtends(states, labels, Label.Serve, State());
      states := states + [State()];
      labels := labels + [Label.Serve];
    }
  }
}
