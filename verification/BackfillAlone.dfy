/**
 What one call of the backfill service does when no other call holds its stream: the status, the
 flags and the progress events that it leaves, for every window and everything that can happen
 around it.
 */
module BackfillAlone {
  import opened Options
  import opened BackfillProgram
  import opened BackfillSystem
  import opened BackfillInvariant
  import opened BackfillTheorems
  import opened BackfillStuck

  /** What loading the context does, and what the runner does. */
  datatype World = World(loaded: Oracle, ran: Oracle)

  function Answer(world: World, pc: Pc): Oracle {
    match pc
    case Replay(ReplayLoadContext) => world.loaded
    case Replay(ReplayRun) => world.ran
    case _ => Raises
  }

  /** What is to be seen of the job when the call returns, and the events that it committed. */
  datatype End = End(view: View, events: seq<EventKind>)

  function Alone(v: View, pc: Pc, world: World): End
    decreases Rank(pc)
  {
    RankFalls(v, pc, Answer(world, pc));
    var e := Perform(v, pc, Answer(world, pc));
    var v2 := AfterView(v, e);
    if e.next.None? then End(v2, e.events)
    else
      var rest := Alone(v2, e.next.value, world);
      End(rest.view, e.events + rest.events)
  }

  // ---- It is a run ----------------------------------------------------------------------------

  /** Nothing but operations of thread `t`, in the given world. */
  ghost predicate OnlyBy(states: seq<System>, labels: seq<Label>, t: ThreadId, world: World) {
    && IsRun(states, labels)
    && forall i :: 0 <= i < |labels| ==>
         t in states[i].threads && labels[i] == Run(t, Answer(world, states[i].threads[t].pc))
  }

  /** `s2` is `s` without the call on thread `t`, which has left `end`. */
  ghost predicate Ends(s: System, s2: System, t: ThreadId, j: JobId, end: End)
    requires j in s.jobs
  {
    && s2.threads == s.threads - {t}
    && s2.jobs == s.jobs[j := s.jobs[j].(status := end.view.status)]
    && s2.log == s.log + EventsOf(j, end.events)
    && s2.owned == (if end.view.owned then s.owned + {j} else s.owned - {j})
    && s2.cancelRequested == if end.view.cancelRequested then s.cancelRequested + {j} else s.cancelRequested - {j}
  }

  lemma SeenAfter(s: System, t: ThreadId, e: Effect)
    requires t in s.threads && s.threads[t].job in s.jobs
    ensures var j := s.threads[t].job; ViewOf(Apply(s, t, e), j) == AfterView(ViewOf(s, j), e)
  {
    hide EventsOf;
    var j, s2 := s.threads[t].job, Apply(s, t, e);
    forall i | i != j ensures (i in s2.jobs <==> i in s.jobs) && (i in s.jobs ==> s2.jobs[i] == s.jobs[i]) {}
    assert s2.jobs[j].stream == s.jobs[j].stream;
    assert OthersActive(s2.jobs, j) == OthersActive(s.jobs, j);
  }

  lemma Last(s: System, t: ThreadId, e: Effect)
    requires t in s.threads && s.threads[t].job in s.jobs && e.next.None?
    ensures var j := s.threads[t].job;
      Ends(s, Apply(s, t, e), t, j, End(AfterView(ViewOf(s, j), e), e.events))
  {
    hide EventsOf, OthersActive;
    var j, s2, end := s.threads[t].job, Apply(s, t, e), End(AfterView(ViewOf(s, s.threads[t].job), e), e.events);
    assert s.jobs[j].(status := s.jobs[j].status) == s.jobs[j];
    assert s2.jobs == s.jobs[j := s.jobs[j].(status := end.view.status)];
  }

  lemma NotLast(s: System, t: ThreadId, e: Effect, s2: System, end: End)
    requires t in s.threads && s.threads[t].job in s.jobs && e.next.Some?
    requires Ends(Apply(s, t, e), s2, t, s.threads[t].job, end)
    ensures Ends(s, s2, t, s.threads[t].job, End(end.view, e.events + end.events))
  {
    var j := s.threads[t].job;
    assert EventsOf(j, e.events + end.events) == EventsOf(j, e.events) + EventsOf(j, end.events);
  }

  /** A call on a stream whose lock nobody else holds can run to its end on its own, and what it leaves
      is what `Alone` says. */
  lemma {:induction false} RunsAlone(s: System, t: ThreadId, world: World)
      returns (states: seq<System>, labels: seq<Label>)
    requires Live(s, t) && LockFree(s, t, s.threads[t].job)
    ensures OnlyBy(states, labels, t, world) && states[0] == s
    ensures var j := s.threads[t].job;
      Ends(s, states[|labels|], t, j, Alone(ViewOf(s, j), s.threads[t].pc, world))
    decreases Rank(s.threads[t].pc)
  {
    hide Perform, EventsOf, Rank, Unblocked, Step, Ends, LockFree, ViewOf, AfterView, Apply;
    var j, pc := s.threads[t].job, s.threads[t].pc;
    var oracle := Answer(world, pc);
    var v := ViewOf(s, j);
    var e := Perform(v, pc, oracle);
    var s2 := Apply(s, t, e);
    NothingHeld(s, t);
    RunStep(s, t, oracle);
    SeenAfter(s, t, e);
    if e.next.None? {
      Last(s, t, e);
      states, labels := [s, s2], [Run(t, oracle)];
    } else {
      RankFalls(v, pc, oracle);
      GoesOnLive(s, t, e);
      LockStaysFree(s, t, j, e);
      var rest, more := RunsAlone(s2, t, world);
      NotLast(s, t, e, rest[|more|], Alone(AfterView(v, e), e.next.value, world));
      states, labels := [s] + rest, [Run(t, oracle)] + more;
      RunPrepends(s, Run(t, oracle), rest, more);
    }
  }

  lemma GoesOnLive(s: System, t: ThreadId, e: Effect)
    requires Live(s, t) && e.next.Some?
    ensures var s2 := Apply(s, t, e); Live(s2, t) && s2.threads[t] == Thread(s.threads[t].job, e.next.value)
  {
    hide EventsOf;
  }

  lemma NothingHeld(s: System, t: ThreadId)
    requires Live(s, t) && LockFree(s, t, s.threads[t].job)
    ensures CanStep(s, t)
  {
    forall u | u in s.threads && u != t && s.threads[u].job == s.threads[t].job ensures !HoldsRow(s.threads[u].pc) {
      assert SameStream(s, s.threads[u].job, s.threads[t].job);
    }
  }

  // ---- What it leaves -------------------------------------------------------------------------

  /** The job as the last operations of a worker leave it. */
  lemma ReleaseEnds(v: View, exit: Exit, world: World)
    ensures Alone(v, Release(exit), world) == End(v.(owned := false), [])
  {}

  lemma FailEnds(v: View, world: World)
    requires Active(v.status)
    ensures Alone(v, Fail(FailRead), world) == End(v.(status := Failed, owned := false), [JobFailed(ReplayFailed)])
  {
    hide PerformStart, PerformReplay, PerformDry, PerformAck, PerformCancel, PerformFinalize;
    var v2 := v.(status := Failed);
    ReleaseEnds(v2, Finished, world);
    assert Alone(v2, Fail(FailEmit), world) == End(v2.(owned := false), [JobFailed(ReplayFailed)]);
    assert Alone(v, Fail(FailSave), world) == End(v2.(owned := false), [JobFailed(ReplayFailed)]);
  }

  lemma AckEnds(v: View, world: World)
    requires Active(v.status)
    ensures Alone(v, Ack(AckRead), world)
        == End(v.(status := Cancelled, owned := false, cancelRequested := false), [JobCancelled])
  {
    hide PerformStart, PerformReplay, PerformDry, PerformFail, PerformCancel, PerformFinalize;
    var v2 := v.(status := Cancelled);
    var v3 := v2.(owned := false, cancelRequested := false);
    ReleaseEnds(v3, Acknowledged, world);
    assert Alone(v2, Ack(AckClear), world) == End(v3, []);
    assert Alone(v2, Ack(AckEmit), world) == End(v3, [JobCancelled]);
    assert Alone(v, Ack(AckSave), world) == End(v3, [JobCancelled]);
  }

  /** A worker that the runner has returned to, and that nobody cancels. */
  lemma StoreEnds(v: View, summary: Summary, world: World)
    requires v.status == Running && !v.cancelRequested
    ensures Alone(v, Replay(ReplayCheckCancel(summary)), world)
        == End(v.(status := if summary.skippedLock then Failed else Completed, owned := false),
               [ReplayCompleted(summary)])
  {
    hide PerformStart, PerformDry, PerformAck, PerformFail, PerformCancel, PerformFinalize;
    SaveEnds(v, summary, world);
    var end := Alone(v, Replay(ReplaySave(summary)), world);
    assert Alone(v, Replay(ReplayRecheck(summary, Running)), world) == end;
    assert Alone(v, Replay(ReplayReread(summary)), world) == end;
  }

  lemma SaveEnds(v: View, summary: Summary, world: World)
    ensures Alone(v, Replay(ReplaySave(summary)), world)
        == End(v.(status := if summary.skippedLock then Failed else Completed, owned := false),
               [ReplayCompleted(summary)])
  {
    hide PerformStart, PerformDry, PerformAck, PerformFail, PerformCancel, PerformFinalize;
    var v2 := v.(status := if summary.skippedLock then Failed else Completed);
    ReleaseEnds(v2, Finished, world);
    assert Alone(v2, Replay(ReplayEmitCompleted(summary)), world)
        == End(v2.(owned := false), [ReplayCompleted(summary)]);
  }

  lemma RunEnds(v: View, world: World)
    requires v.status == Running && !v.cancelRequested
    ensures Alone(v, Replay(ReplayRun), world) ==
      match world.ran
      case Returns(summary) => End(v.(status := if summary.skippedLock then Failed else Completed, owned := false),
                                   [ReplayCompleted(summary)])
      case _ => End(v.(status := Failed, owned := false), [JobFailed(ReplayFailed)])
  {
    hide PerformStart, PerformDry, PerformAck, PerformFail, PerformCancel, PerformFinalize;
    if world.ran.Returns? {
      StoreEnds(v, world.ran.summary, world);
    } else {
      FailEnds(v, world);
    }
  }

  lemma LoadEnds(v: View, world: World)
    requires v.status == Running && !v.cancelRequested
    ensures Alone(v, Replay(ReplayLoadContext), world) ==
      if world.loaded == Raises || (world.loaded.Returns? && !world.ran.Returns?) then
        End(v.(status := Failed, owned := false), [JobFailed(ReplayFailed)])
      else if world.loaded == RaisesOther then End(v.(owned := false), [])
      else End(v.(status := if world.ran.summary.skippedLock then Failed else Completed, owned := false),
               [ReplayCompleted(world.ran.summary)])
  {
    hide PerformStart, PerformDry, PerformAck, PerformFail, PerformCancel, PerformFinalize;
    match world.loaded {
      case Raises => FailEnds(v, world);
      case RaisesOther => ReleaseEnds(v, Uncaught, world);
      case Returns(_) => RunEnds(v, world);
    }
  }

  lemma ReplayEnds(v: View, world: World)
    requires v.status == Running && !v.cancelRequested && v.window.Window? && v.window.start < v.window.end
    ensures Alone(v, Replay(ReplayRead), world) ==
      if world.loaded == Raises || (world.loaded.Returns? && !world.ran.Returns?) then
        End(v.(status := Failed, owned := false), [ReplayStarted, JobFailed(ReplayFailed)])
      else if world.loaded == RaisesOther then End(v.(owned := false), [ReplayStarted])
      else End(v.(status := if world.ran.summary.skippedLock then Failed else Completed, owned := false),
               [ReplayStarted, ReplayCompleted(world.ran.summary)])
  {
    hide PerformStart, PerformDry, PerformAck, PerformFail, PerformCancel, PerformFinalize;
    LoadEnds(v, world);
    var loaded := Alone(v, Replay(ReplayLoadContext), world);
    var end := End(loaded.view, [ReplayStarted] + loaded.events);
    assert Alone(v, Replay(ReplayEmitStarted), world) == end;
    assert Alone(v, Replay(ReplayParse), world) == end;
    assert Alone(v, Replay(ReplayCheck(Running)), world) == end;
  }

  lemma BadReplayEnds(v: View, world: World)
    requires v.status == Running && !v.cancelRequested
    requires v.window == BadWindow || v.window == MixedWindow || (v.window.Window? && v.window.start >= v.window.end)
    ensures Alone(v, Replay(ReplayRead), world) ==
      if v.window == MixedWindow then End(v.(owned := false), [])
      else End(v.(status := Failed, owned := false), [JobFailed(ReplayFailed)])
  {
    hide PerformStart, PerformDry, PerformAck, PerformFail, PerformCancel, PerformFinalize;
    if v.window == MixedWindow {
      ReleaseEnds(v, Uncaught, world);
    } else {
      FailEnds(v, world);
    }
    assert Alone(v, Replay(ReplayCheck(Running)), world) == Alone(v, Replay(ReplayParse), world);
  }

  lemma DryEnds(v: View, world: World)
    requires v.status == Running && !v.cancelRequested
    ensures Alone(v, Dry(DryRead), world) ==
      if v.dryRunComplete then End(v.(status := Completed, owned := false),
                                   [ChunkStarted, CheckpointSnapshotUsed, ChunkCompleted, JobCompleted])
      else End(v.(owned := false), [ChunkStarted, CheckpointSnapshotUsed, ChunkCompleted])
  {
    hide PerformStart, PerformReplay, PerformAck, PerformFail, PerformCancel, PerformFinalize;
    ChunkEnds(v, world);
    var chunk := Alone(v, Dry(DryEmitChunk), world);
    assert Alone(v, Dry(DryEmitSnapshot), world) == End(chunk.view, [CheckpointSnapshotUsed] + chunk.events);
    assert Alone(v, Dry(DryEmitStarted), world)
        == End(chunk.view, [ChunkStarted, CheckpointSnapshotUsed] + chunk.events);
    assert Alone(v, Dry(DryCheck(Running)), world) == Alone(v, Dry(DryEmitStarted), world);
  }

  lemma ChunkEnds(v: View, world: World)
    requires v.status == Running && !v.cancelRequested
    ensures Alone(v, Dry(DryEmitChunk), world) ==
      if v.dryRunComplete then End(v.(status := Completed, owned := false), [ChunkCompleted, JobCompleted])
      else End(v.(owned := false), [ChunkCompleted])
  {
    hide PerformStart, PerformReplay, PerformAck, PerformFail, PerformCancel, PerformFinalize;
    ProgressEnds(v, world);
    var saved := Alone(v, Dry(DrySave), world);
    assert Alone(v, Dry(DryRecheck(Running)), world) == saved;
    assert Alone(v, Dry(DryReread), world) == saved;
  }

  lemma ProgressEnds(v: View, world: World)
    ensures Alone(v, Dry(DrySave), world) ==
      if v.dryRunComplete then End(v.(status := Completed, owned := false), [JobCompleted])
      else End(v.(owned := false), [])
  {
    hide PerformStart, PerformReplay, PerformAck, PerformFail, PerformCancel, PerformFinalize;
    var v2 := v.(status := Completed);
    ReleaseEnds(v, Finished, world);
    ReleaseEnds(v2, Finished, world);
    assert Alone(v2, Dry(DryEmitCompleted), world) == End(v2.(owned := false), [JobCompleted]);
  }

  /** What a worker does with the RUNNING job that it claims. */
  function Worked(w: Window, complete: bool, world: World): (Status, seq<EventKind>) {
    match w
    case NoWindow =>
      if complete then (Completed, [ChunkStarted, CheckpointSnapshotUsed, ChunkCompleted, JobCompleted])
      else (Running, [ChunkStarted, CheckpointSnapshotUsed, ChunkCompleted])
    case BadWindow => (Failed, [JobFailed(ReplayFailed)])
    case MixedWindow => (Running, [])
    case Window(start, end) =>
      if start >= end then (Failed, [JobFailed(ReplayFailed)])
      else match world.loaded
        case Raises => (Failed, [ReplayStarted, JobFailed(ReplayFailed)])
        case RaisesOther => (Running, [ReplayStarted])
        case Returns(_) =>
          match world.ran
          case Returns(summary) =>
            (if summary.skippedLock then Failed else Completed, [ReplayStarted, ReplayCompleted(summary)])
          case _ => (Failed, [ReplayStarted, JobFailed(ReplayFailed)])
  }

  lemma WorkerEnds(v: View, world: World)
    requires v.status == Running && !v.cancelRequested && !v.owned
    ensures var (status, events) := Worked(v.window, v.dryRunComplete, world);
      Alone(v, Claim, world) == End(v.(status := status), events)
  {
    hide PerformStart, PerformReplay, PerformDry, PerformAck, PerformFail, PerformCancel, PerformFinalize;
    var v2 := v.(owned := true);
    if v.window == NoWindow {
      DryEnds(v2, world);
    } else if v.window.Window? && v.window.start < v.window.end {
      ReplayEnds(v2, world);
    } else {
      BadReplayEnds(v2, world);
    }
    var first := if v.window == NoWindow then Dry(DryRead) else Replay(ReplayRead);
    assert Alone(v2, Load, world) == Alone(v2, first, world);
  }

  /** A start: refused unless the job is PENDING and no other job of the stream is active; otherwise the
      worker's outcome, after JOB_STARTED. */
  lemma StartEnds(v: View, world: World)
    requires !v.cancelRequested && !v.owned
    ensures Alone(v, Start(StartAcquire), world) ==
      if v.status != Pending then End(v, [])
      else if v.othersActive then End(v, [JobFailed(ConcurrentBackfillActive)])
      else
        var (status, events) := Worked(v.window, v.dryRunComplete, world);
        End(v.(status := status), [JobStarted] + events)
  {
    hide PerformReplay, PerformDry, PerformAck, PerformFail, PerformCancel, PerformFinalize;
    if v.status == Pending {
      if !v.othersActive {
        WorkerEnds(v.(status := Running), world);
        assert Alone(v, Start(StartCount), world) == Alone(v, Start(StartCommit), world);
      } else {
        assert Alone(v, Start(StartCount), world) == Alone(v, Start(StartReject), world);
      }
      assert Alone(v, Start(StartRead), world) == Alone(v, Start(StartCount), world);
    }
    assert Alone(v, Start(StartAcquire), world) == Alone(v, Start(StartRead), world);
  }

  lemma FinalizeEnds(v: View, world: World)
    requires v.status == Cancelling && !v.owned
    ensures Alone(v, Finalize(FinalizeAcquire), world)
        == End(v.(status := Cancelled, cancelRequested := false), [JobCancelled])
  {
    hide PerformStart, PerformReplay, PerformDry, PerformAck, PerformFail, PerformCancel;
    var v2 := v.(status := Cancelled);
    var end := End(v2.(cancelRequested := false), [JobCancelled]);
    assert Alone(v2, Finalize(FinalizeClear), world) == End(v2.(cancelRequested := false), []);
    assert Alone(v, Finalize(FinalizeCommit), world) == end;
    assert Alone(v, Finalize(FinalizeCheckOwner), world) == end;
    assert Alone(v, Finalize(FinalizeRead), world) == end;
  }

  /** A cancel: a PENDING job is CANCELLED, a RUNNING one too unless it has a live owner, who is left to
      acknowledge it, and so is a CANCELLING one; a job that is over is refused. */
  lemma CancelEnds(v: View, world: World)
    ensures Alone(v, Cancel(CancelProbe), world) ==
      match v.status
      case Pending => End(v.(status := Cancelled, owned := false, cancelRequested := false),
                          [CancellationRequested, JobCancelled])
      case Running =>
        if v.owned then End(v.(status := Cancelling, cancelRequested := true), [CancellationRequested])
        else End(v.(status := Cancelled, cancelRequested := false), [CancellationRequested, JobCancelled])
      case Cancelling =>
        if v.owned then End(v.(cancelRequested := true), [])
        else End(v.(status := Cancelled, cancelRequested := false), [JobCancelled])
      case _ => End(v, [])
  {
    hide PerformStart, PerformReplay, PerformDry, PerformAck, PerformFail, PerformFinalize;
    match v.status {
      case Pending => PendingEnds(v, world);
      case Running => RunningEnds(v, world);
      case Cancelling =>
        var v2 := v.(cancelRequested := true);
        if !v.owned { FinalizeEnds(v2, world); }
        assert Alone(v, Cancel(AgainRequest), world) == Alone(v2, Cancel(CheckOwner), world);
      case _ =>
    }
  }

  lemma PendingEnds(v: View, world: World)
    requires v.status == Pending
    ensures Alone(v, Cancel(PendingAcquire), world)
        == End(v.(status := Cancelled, owned := false, cancelRequested := false), [CancellationRequested, JobCancelled])
  {
    hide PerformStart, PerformReplay, PerformDry, PerformAck, PerformFail, PerformFinalize;
    var v2 := v.(status := Cancelled);
    var v3 := v2.(owned := false, cancelRequested := false);
    assert Alone(v2, Cancel(PendingClear), world) == End(v3, []);
    assert Alone(v, Cancel(PendingCommit), world) == End(v3, [CancellationRequested, JobCancelled]);
    assert Alone(v, Cancel(PendingRead), world) == End(v3, [CancellationRequested, JobCancelled]);
  }

  lemma RunningEnds(v: View, world: World)
    requires v.status == Running
    ensures Alone(v, Cancel(RunningAcquire), world) ==
      if v.owned then End(v.(status := Cancelling, cancelRequested := true), [CancellationRequested])
      else End(v.(status := Cancelled, cancelRequested := false), [CancellationRequested, JobCancelled])
  {
    hide PerformStart, PerformReplay, PerformDry, PerformAck, PerformFail, PerformFinalize;
    RequestEnds(v.(cancelRequested := true), world);
    var end := Alone(v, Cancel(RunningRequest), world);
    assert Alone(v, Cancel(RunningRead), world) == end;
    assert Alone(v, Cancel(RunningAcquire), world) == end;
  }

  lemma RequestEnds(v: View, world: World)
    requires v.status == Running
    ensures Alone(v, Cancel(RunningCommit), world) ==
      if v.owned then End(v.(status := Cancelling), [CancellationRequested])
      else End(v.(status := Cancelled, cancelRequested := false), [CancellationRequested, JobCancelled])
  {
    hide PerformStart, PerformReplay, PerformDry, PerformAck, PerformFail, PerformFinalize;
    var v2 := v.(status := Cancelling);
    if !v.owned { FinalizeEnds(v2, world); }
    var asked := Alone(v2, Cancel(CheckOwner), world);
    assert Alone(v, Cancel(RunningCommit), world) == End(asked.view, [CancellationRequested] + asked.events);
  }

  /** A cancel that comes before the worker has looked: the worker cancels the job. */
  lemma CancelledWorkerEnds(v: View, world: World)
    requires v.status == Cancelling && !v.owned
    ensures Alone(v, Claim, world) == End(v.(status := Cancelled, cancelRequested := false), [JobCancelled])
  {
    hide PerformStart, PerformAck, PerformFail, PerformCancel, PerformFinalize;
    var v2 := v.(owned := true);
    AckEnds(v2, world);
    if v.window == NoWindow {
      assert Alone(v2, Dry(DryRead), world) == Alone(v2, Dry(DryCheck(Cancelling)), world);
    } else {
      assert Alone(v2, Replay(ReplayRead), world) == Alone(v2, Replay(ReplayCheck(Cancelling)), world);
    }
    assert Alone(v, Claim, world) == Alone(v2, Load, world);
  }
}
