/**
 Jobs that their worker leaves RUNNING by an exception it does not catch: exactly when that can
 happen, and what ends such a job.
 */
module BackfillStuck {
  import opened Options
  import opened BackfillProgram
  import opened BackfillSystem
  import opened BackfillInvariant
  import opened BackfillTheorems
  import opened BackfillScenarios

  ghost predicate HasWorker(s: System, t: ThreadId, j: JobId) {
    t in s.threads && s.threads[t].job == j && WorkerSide(s.threads[t].pc)
  }

  /** The job was started, is not over, and nobody works on it. */
  ghost predicate Abandoned(s: System, j: JobId) {
    j in s.jobs && Active(s.jobs[j].status) && j !in s.owned && forall t :: !HasWorker(s, t, j)
  }

  /** What can keep a worker from ending a job: for a job without a replay window, that its dry run is
      not marked complete. */
  predicate MayStay(w: Window, complete: bool, loaded: Oracle) {
    if w == NoWindow then !complete else Uncatchable(w, loaded)
  }

  // ---- Only then ----------------------------------------------------------------------------------

  /** Workers leave in an orderly way, and a job that nothing keeps them from ending is theirs until it
      is over. */
  ghost predicate Tended(s: System, j: JobId, loaded: Oracle) {
    && (forall t :: t in s.threads && s.threads[t].job == j && j in s.jobs ==>
          s.threads[t].pc != Release(Aborted) && (s.threads[t].pc == Release(Uncaught) ==>
              Uncatchable(s.jobs[j].window, loaded)))
    && (j in s.jobs && Active(s.jobs[j].status) && !MayStay(s.jobs[j].window, s.jobs[j].dryRunComplete, loaded) ==>
          exists t :: HasWorker(s, t, j))
  }

  /** What one operation of a worker or a starting call does to this. */
  lemma WorkerGoesOn(v: View, bodies: nat, pc: Pc, oracle: Oracle, loaded: Oracle)
    requires LocalInv(v, bodies, pc) && (pc == Claim ==> !v.owned) && pc != Release(Aborted)
    requires pc == Replay(ReplayLoadContext) ==> oracle == loaded
    requires pc == Release(Uncaught) ==> Uncatchable(v.window, loaded)
    ensures var e := Perform(v, pc, oracle);
      && (e.next.Some? ==> e.next.value != Release(Aborted))
      && (e.next == Some(Release(Uncaught)) ==> Uncatchable(v.window, loaded))
      && (WorkerSide(pc) && Active(v.status) && !MayStay(v.window, v.dryRunComplete, loaded) ==>
            e.next.Some? && WorkerSide(e.next.value))
      && (e.write == Some(Running) ==> e.next == Some(Claim))
  {
    hide PerformReplay, ReplayInv, DryInv, CancelInv, FinalizeInv, PerformDry, PerformCancel;
    match pc
    case Replay(at) => ReplayGoesOn(v, at, oracle, loaded);
    case Dry(at) => DryGoesOn(v, at);
    case Cancel(at) => CancelGoesOn(v, at);
    case _ =>
  }

  lemma DryGoesOn(v: View, at: DryPc)
    ensures var e := PerformDry(v, at);
      && e.next.Some? && e.next.value != Release(Aborted) && e.next.value != Release(Uncaught)
      && WorkerSide(e.next.value) && e.write != Some(Running)
  {}

  lemma CancelGoesOn(v: View, at: CancelPc)
    ensures var e := PerformCancel(v, at); (e.next.Some? ==> !e.next.value.Release?) && e.write != Some(Running)
  {}

  lemma ReplayGoesOn(v: View, at: ReplayPc, oracle: Oracle, loaded: Oracle)
    requires ReplayInv(v, at) && (at == ReplayLoadContext ==> oracle == loaded)
    ensures var e := PerformReplay(v, at, oracle);
      && e.next.Some? && e.next.value != Release(Aborted) && WorkerSide(e.next.value) && e.write != Some(Running)
      && (e.next == Some(Release(Uncaught)) ==> Uncatchable(v.window, loaded))
  {}

  lemma TendedStep(s: System, l: Label, s2: System, j: JobId, loaded: Oracle)
    requires Reachable(s) && Step(s, l, s2) && SmoothStep(s, l, loaded) && Tended(s, j, loaded)
    ensures Tended(s2, j, loaded)
  {
    hide Perform, Unblocked, LocalInv, Respects, EventsOf, OthersActive, Uncatchable, MayStay, Reachable, WorkerSide;
    match l {
      case Run(t, oracle) => TendedRun(s, t, oracle, j, loaded);
      case Create(t, i, job) =>
        ThreadsHaveJobs(s);
        KeepsWorkers(s, s2, j);
      case CallStart(t, i) => KeepsWorkers(s, s2, j);
      case CallCancel(t, i) => KeepsWorkers(s, s2, j);
      case Reconcile(i) => KeepsWorkers(s, s2, j);
      case Serve => KeepsWorkers(s, s2, j);
    }
  }

  lemma ThreadsHaveJobs(s: System)
    requires Reachable(s)
    ensures forall t :: t in s.threads ==> s.threads[t].job in s.jobs
  {
    hide Perform, Respects, LocalInv, Reachable;
    forall t | t in s.threads ensures s.threads[t].job in s.jobs {
      Knows(s, t, Raises);
    }
  }

  lemma KeepsWorkers(s: System, s2: System, j: JobId)
    requires forall t :: t in s.threads ==> t in s2.threads && s2.threads[t] == s.threads[t]
    ensures (exists t :: HasWorker(s, t, j)) ==> exists t :: HasWorker(s2, t, j)
  {
    if t :| HasWorker(s, t, j) {
      assert HasWorker(s2, t, j);
    }
  }

  lemma TendedRun(s: System, t: ThreadId, oracle: Oracle, j: JobId, loaded: Oracle)
    requires Reachable(s) && CanStep(s, t) && SmoothStep(s, Run(t, oracle), loaded) && Tended(s, j, loaded)
    ensures Tended(StepThread(s, t, oracle), j, loaded)
  {
    hide Perform, Unblocked, LocalInv, Respects, EventsOf, OthersActive, Uncatchable, MayStay, Reachable, WorkerSide;
    var s2, p := StepThread(s, t, oracle), s.threads[t].pc;
    forall u | u in s.threads && u != t ensures u in s2.threads && s2.threads[u] == s.threads[u] {}
    if s.threads[t].job == j {
      Knows(s, t, oracle);
      if p == Claim {
        ClaimNeverRefused(s, t);
      }
      WorkerGoesOn(ViewOf(s, j), Bodies(s, j), p, oracle, loaded);
      ClaimIsWorker();
      var w, complete := s.jobs[j].window, s.jobs[j].dryRunComplete;
      assert s2.jobs[j].window == w && s2.jobs[j].dryRunComplete == complete;
      if Active(s2.jobs[j].status) && !MayStay(w, complete, loaded) {
        if Active(s.jobs[j].status) {
          var u :| HasWorker(s, u, j);
          assert HasWorker(s2, u, j);
        } else {
          NewlyActive(ViewOf(s, j), p, Perform(ViewOf(s, j), p, oracle));
          assert HasWorker(s2, t, j);
        }
      }
    } else {
      if u :| HasWorker(s, u, j) {
        assert HasWorker(s2, u, j);
      }
    }
  }

  lemma ClaimIsWorker()
    ensures WorkerSide(Claim)
  {}

  lemma NewlyActive(v: View, p: Pc, e: Effect)
    requires Respects(v, p, e) && !Active(v.status) && Active(AfterView(v, e).status)
    ensures e.write == Some(Running)
  {}

  lemma {:induction false} SmoothIsTended(states: seq<System>, labels: seq<Label>, j: JobId, loaded: Oracle)
    requires SmoothRun(states, labels, loaded)
    ensures Tended(states[|labels|], j, loaded)
    decreases |labels|
  {
    hide Step, SmoothStep, Tended;
    if labels == [] {
      NothingToTend(j, loaded);
    } else {
      var n := |labels| - 1;
      RunPrefix(states, labels, n);
      SmoothIsTended(states[..n + 1], labels[..n], j, loaded);
      TendedStep(states[n], labels[n], states[n + 1], j, loaded);
    }
  }

  lemma NothingToTend(j: JobId, loaded: Oracle)
    ensures Tended(Empty, j, loaded)
  {}

  // ---- And then it does ---------------------------------------------------------------------------

  /** Some run in which nothing around the service goes wrong abandons a job with this window and mark. */
  ghost predicate CanBeAbandoned(w: Window, complete: bool, loaded: Oracle) {
    exists s, j ::
      Smoothly(s, loaded) && Abandoned(s, j) && s.jobs[j].window == w && s.jobs[j].dryRunComplete == complete
  }

  lemma SceneAbandons(sc: Scene)
    requires Possible(sc) && Active(sc.status) && !sc.owned && sc.starter == None && sc.canceller == None
    ensures CanBeAbandoned(sc.window, sc.complete, sc.loaded)
  {
    hide Smoothly;
    var s :| Smoothly(s, sc.loaded) && Shows(s, sc);
    assert Abandoned(s, 0);
  }

  /** The job stays RUNNING, unowned, when the worker of a job with bounds of both sorts, or of one
      whose context cannot be loaded, is done with it. */
  lemma WorkerAbandons(w: Window, complete: bool, loaded: Oracle) returns (sc: Scene)
    requires Uncatchable(w, loaded)
    ensures Possible(sc) && sc == Scene(w, complete, loaded, Running, false, false, true, None, None)
  {
    hide Possible, Locks, PerformStart, PerformDry, PerformFail, PerformAck, PerformFinalize, PerformCancel;
    if w == MixedWindow {
      sc := WorkerBeforeParse(w, complete, loaded);
    } else {
      sc := WorkerBeforeLoad(w, complete, loaded);
    }
    sc := Starts(sc, loaded);
    sc := Starts(sc, loaded);
  }

  /** So it does after a dry run that is not marked complete. */
  lemma DryRunStays(loaded: Oracle) returns (sc: Scene)
    ensures Possible(sc) && sc == Scene(NoWindow, false, loaded, Running, false, false, true, None, None)
  {
    hide Possible, Locks, PerformStart, PerformReplay, PerformFail, PerformAck, PerformFinalize, PerformCancel;
    NobodyLocks();
    sc := DryRunChecks(loaded);
    sc := Starts(sc, Raises);
    sc := Starts(sc, Raises);
    sc := Starts(sc, Raises);
  }

  lemma NobodyLocks()
    ensures !Locks(None)
  {}

  lemma DryRunChecks(loaded: Oracle) returns (sc: Scene)
    ensures Possible(sc)
    ensures sc == Scene(NoWindow, false, loaded, Running, true, false, true, Some(Dry(DryRecheck(Running))), None)
  {
    hide Possible, Locks, PerformStart, PerformReplay, PerformFail, PerformAck, PerformFinalize, PerformCancel;
    sc := DryRunMarks(loaded);
    sc := Starts(sc, Raises);
    sc := Starts(sc, Raises);
  }

  lemma DryRunMarks(loaded: Oracle) returns (sc: Scene)
    ensures Possible(sc)
    ensures sc == Scene(NoWindow, false, loaded, Running, true, false, true, Some(Dry(DryEmitChunk)), None)
  {
    hide Possible, Locks, PerformStart, PerformReplay, PerformFail, PerformAck, PerformFinalize, PerformCancel;
    sc := DryRunStarts(loaded);
    sc := Starts(sc, Raises);
    sc := Starts(sc, Raises);
  }

  lemma DryRunStarts(loaded: Oracle) returns (sc: Scene)
    ensures Possible(sc)
    ensures sc == Scene(NoWindow, false, loaded, Running, true, false, true, Some(Dry(DryEmitStarted)), None)
  {
    hide Possible, Locks, PerformStart, PerformReplay, PerformFail, PerformAck, PerformFinalize, PerformCancel;
    sc := StartedScene(NoWindow, false, loaded);
    sc := Starts(sc, Raises);
    sc := Starts(sc, Raises);
    sc := Starts(sc, Raises);
    sc := Starts(sc, Raises);
  }

  /** A job can be left RUNNING, or CANCELLING, with nobody working on it exactly when its bounds
      cannot be compared, or loading the context of its stream raises anything other than a
      ValueError; a job without a replay window, when its dry run is not marked complete. */
  lemma AbandonedExactly(w: Window, complete: bool, loaded: Oracle)
    ensures CanBeAbandoned(w, complete, loaded) <==> MayStay(w, complete, loaded)
  {
    hide Smoothly, Tended, Possible, Uncatchable;
    if CanBeAbandoned(w, complete, loaded) {
      var s, j :|
        Smoothly(s, loaded) && Abandoned(s, j) && s.jobs[j].window == w && s.jobs[j].dryRunComplete == complete;
      SmoothlyTended(s, j, loaded);
      TendedMeans(s, j, loaded);
    }
    if MayStay(w, complete, loaded) {
      if w == NoWindow {
        var sc := DryRunStays(loaded);
        SceneAbandons(sc);
      } else {
        var sc := WorkerAbandons(w, complete, loaded);
        SceneAbandons(sc);
      }
    }
  }

  lemma SmoothlyTended(s: System, j: JobId, loaded: Oracle)
    requires Smoothly(s, loaded)
    ensures Tended(s, j, loaded)
  {
    hide IsRun, SmoothStep, Tended;
    var states, labels :| SmoothRun(states, labels, loaded) && states[|states| - 1] == s;
    SmoothIsTended(states, labels, j, loaded);
  }

  lemma TendedMeans(s: System, j: JobId, loaded: Oracle)
    requires Tended(s, j, loaded) && Abandoned(s, j)
    ensures MayStay(s.jobs[j].window, s.jobs[j].dryRunComplete, loaded)
  {}

  // ---- What ends it -------------------------------------------------------------------------------

  /** A cancel call for job `j` on thread `t`, and from there on nothing but its operations, lead from
      `s0` to `s`. */
  ghost predicate Solo(s0: System, t: ThreadId, j: JobId, states: seq<System>, labels: seq<Label>) {
    && IsRun(states, labels) && states[0] == s0 && labels != [] && labels[0] == CallCancel(t, j)
    && forall i :: 0 < i < |labels| ==> labels[i] == Run(t, Raises)
  }

  /** The call is at `pc`, its job has this status and no owner, and no other call holds the lock. */
  ghost predicate Undisturbed(s: System, t: ThreadId, j: JobId, pc: Pc, status: Status) {
    && !s.booting && t in s.threads && s.threads[t] == Thread(j, pc)
    && j in s.jobs && s.jobs[j].status == status && j !in s.owned
    && LockFree(s, t, j)
  }

  ghost predicate LockFree(s: System, t: ThreadId, j: JobId) {
    forall u :: u in s.threads && u != t && SameStream(s, s.threads[u].job, j) ==> !HoldsStream(s.threads[u].pc)
  }

  /** The next operation, whose effect on an unowned job with this status is `e`. */
  lemma GoesOn(s0: System, t: ThreadId, j: JobId, states: seq<System>, labels: seq<Label>, pc: Pc, status: Status,
      e: Effect)
      returns (states2: seq<System>, labels2: seq<Label>)
    requires Solo(s0, t, j, states, labels) && Undisturbed(states[|states| - 1], t, j, pc, status)
    requires forall v: View :: v.status == status && !v.owned ==> Perform(v, pc, Raises) == e
    requires e.owner != TakeOwner
    ensures Solo(s0, t, j, states2, labels2)
    ensures var s2, after := states2[|states2| - 1], if e.write.Some? then e.write.value else status;
      && (e.next.Some? ==> Undisturbed(s2, t, j, e.next.value, after))
      && (e.next.None? ==> t !in s2.threads && j in s2.jobs && s2.jobs[j].status == after && j !in s2.owned)
  {
    hide Perform, Unblocked, IsRun, EventsOf, OthersActive, LockFree;
    Lengths(states, labels);
    var s := states[|states| - 1];
    Unhampered(s, t, j, pc, status);
    var s2 := StepThread(s, t, Raises);
    assert ViewOf(s, j).status == status;
    RunStep(s, t, Raises);
    RunExtends(states, labels, Run(t, Raises), s2);
    states2, labels2 := states + [s2], labels + [Run(t, Raises)];
    LockStaysFree(s, t, j, e);
  }

  lemma Lengths(states: seq<System>, labels: seq<Label>)
    requires IsRun(states, labels)
    ensures |states| == |labels| + 1
  {}

  lemma LockStaysFree(s: System, t: ThreadId, j: JobId, e: Effect)
    requires LockFree(s, t, j) && t in s.threads && s.threads[t].job in s.jobs
    ensures LockFree(Apply(s, t, e), t, j)
  {}

  lemma Unhampered(s: System, t: ThreadId, j: JobId, pc: Pc, status: Status)
    requires Undisturbed(s, t, j, pc, status)
    ensures CanStep(s, t)
  {
    forall u | u in s.threads && u != t && s.threads[u].job == j ensures !HoldsRow(s.threads[u].pc) {
      assert SameStream(s, s.threads[u].job, j);
    }
  }

  /** Any job that is RUNNING or CANCELLING without an owner is ended by one cancel call, if the
      stream's lock is free: the call, run on its own, leaves it CANCELLED. */
  lemma CancelRescues(s: System, t: ThreadId, j: JobId) returns (states: seq<System>, labels: seq<Label>)
    requires !s.booting && t !in s.threads && j in s.jobs && Active(s.jobs[j].status) && j !in s.owned
    requires LockFree(s, t, j)
    ensures Solo(s, t, j, states, labels)
    ensures var last := states[|states| - 1]; t !in last.threads && j in last.jobs && last.jobs[j].status == Cancelled
  {
    hide Solo, Undisturbed, PerformCancel, Perform;
    states, labels := CancelEnters(s, t, j);
    if s.jobs[j].status == Running {
      states, labels := CancelsRunning(s, t, j, states, labels);
    } else {
      states, labels := CancelsAgainAlone(s, t, j, states, labels);
    }
    states, labels := FinalizesAlone(s, t, j, states, labels);
  }

  lemma CancelEnters(s: System, t: ThreadId, j: JobId) returns (states: seq<System>, labels: seq<Label>)
    requires !s.booting && t !in s.threads && j in s.jobs && j !in s.owned && LockFree(s, t, j)
    ensures Solo(s, t, j, states, labels)
    ensures Undisturbed(states[|states| - 1], t, j, Cancel(CancelProbe), s.jobs[j].status)
  {
    var s2 := s.(threads := s.threads[t := Thread(j, Cancel(CancelProbe))]);
    states, labels := [s, s2], [CallCancel(t, j)];
    assert Step(s, CallCancel(t, j), s2);
  }

  lemma CancelsRunning(s0: System, t: ThreadId, j: JobId, states0: seq<System>, labels0: seq<Label>)
      returns (states: seq<System>, labels: seq<Label>)
    requires Solo(s0, t, j, states0, labels0) && Undisturbed(states0[|states0| - 1], t, j, Cancel(CancelProbe), Running)
    ensures Solo(s0, t, j, states, labels)
    ensures Undisturbed(states[|states| - 1], t, j, Finalize(FinalizeAcquire), Cancelling)
  {
    hide Solo, Undisturbed;
    states, labels := GoesOn(s0, t, j, states0, labels0, Cancel(CancelProbe), Running, Goto(Cancel(RunningAcquire)));
    states, labels := GoesOn(s0, t, j, states, labels, Cancel(RunningAcquire), Running, Goto(Cancel(RunningRead)));
    states, labels := GoesOn(s0, t, j, states, labels, Cancel(RunningRead), Running, Goto(Cancel(RunningRequest)));
    states, labels := GoesOn(s0, t, j, states, labels, Cancel(RunningRequest), Running,
                             Goto(Cancel(RunningCommit)).(cancel := Request));
    states, labels := GoesOn(s0, t, j, states, labels, Cancel(RunningCommit), Running,
                             Save(Cancelling, Cancel(CheckOwner)).(events := [CancellationRequested]));
    states, labels := GoesOn(s0, t, j, states, labels, Cancel(CheckOwner), Cancelling, Goto(Finalize(FinalizeAcquire)));
  }

  lemma CancelsAgainAlone(s0: System, t: ThreadId, j: JobId, states0: seq<System>, labels0: seq<Label>)
      returns (states: seq<System>, labels: seq<Label>)
    requires Solo(s0, t, j, states0, labels0)
    requires Undisturbed(states0[|states0| - 1], t, j, Cancel(CancelProbe), Cancelling)
    ensures Solo(s0, t, j, states, labels)
    ensures Undisturbed(states[|states| - 1], t, j, Finalize(FinalizeAcquire), Cancelling)
  {
    hide Solo, Undisturbed;
    states, labels := GoesOn(s0, t, j, states0, labels0, Cancel(CancelProbe), Cancelling, Goto(Cancel(AgainRequest)));
    states, labels := GoesOn(s0, t, j, states, labels, Cancel(AgainRequest), Cancelling,
                             Goto(Cancel(CheckOwner)).(cancel := Request));
    states, labels := GoesOn(s0, t, j, states, labels, Cancel(CheckOwner), Cancelling, Goto(Finalize(FinalizeAcquire)));
  }

  lemma FinalizesAlone(s0: System, t: ThreadId, j: JobId, states0: seq<System>, labels0: seq<Label>)
      returns (states: seq<System>, labels: seq<Label>)
    requires Solo(s0, t, j, states0, labels0)
    requires Undisturbed(states0[|states0| - 1], t, j, Finalize(FinalizeAcquire), Cancelling)
    ensures Solo(s0, t, j, states, labels)
    ensures var last := states[|states| - 1]; t !in last.threads && j in last.jobs && last.jobs[j].status == Cancelled
  {
    hide Solo, Undisturbed;
    states, labels := GoesOn(s0, t, j, states0, labels0, Finalize(FinalizeAcquire), Cancelling,
        Goto(Finalize(FinalizeRead)));
    states, labels := GoesOn(s0, t, j, states, labels, Finalize(FinalizeRead), Cancelling,
        Goto(Finalize(FinalizeCheckOwner)));
    states, labels := GoesOn(s0, t, j, states, labels, Finalize(FinalizeCheckOwner), Cancelling,
        Goto(Finalize(FinalizeCommit)));
    states, labels := GoesOn(s0, t, j, states, labels, Finalize(FinalizeCommit), Cancelling,
                             Save(Cancelled, Finalize(FinalizeClear)).(events := [JobCancelled]));
    states, labels := GoesOn(s0, t, j, states, labels, Finalize(FinalizeClear), Cancelled, ClearSession(None));
  }
}
