/**
 What becomes of an accepted cancel: a CANCELLING job can still end in COMPLETED or in FAILED, exactly
 when its worker is at certain places, past its last look at the cancel flag.
 */
module BackfillCancels {
  import opened Options
  import opened BackfillProgram
  import opened BackfillSystem
  import opened BackfillInvariant
  import opened BackfillTheorems

  /** This run leads from `s` to `s2`. */
  ghost predicate Leads(states: seq<System>, labels: seq<Label>, s: System, s2: System) {
    |states| == |labels| + 1 && IsRun(states, labels) && states[0] == s && states[|labels|] == s2
  }

  ghost predicate LeadsTo(s: System, s2: System) {
    exists states, labels :: Leads(states, labels, s, s2)
  }

  /** Some run leads from `s` to a state in which job `j` has this status. */
  ghost predicate CanBecome(s: System, j: JobId, status: Status) {
    exists s2 :: LeadsTo(s, s2) && j in s2.jobs && s2.jobs[j].status == status
  }

  /** The worker is about to store COMPLETED. */
  predicate SavesCompleted(job: Job, pc: Pc) {
    match pc
    case Replay(ReplaySave(summary)) => OutcomeStatus(summary) == Completed
    case Dry(DrySave) => job.dryRunComplete
    case _ => false
  }

  /** The worker is about to store FAILED, or is between two looks at the cancel flag, with something
      ahead that can go wrong: a window that does not parse or is empty, the stream's context, or the
      run itself. */
  predicate MayFail(job: Job, pc: Pc) {
    match pc
    case Replay(at) =>
      (match at
       case ReplayParse => job.window != MixedWindow
       case ReplayEmitStarted => true
       case ReplayLoadContext => true
       case ReplayRun => true
       case ReplaySave(summary) => OutcomeStatus(summary) == Failed
       case _ => false)
    case Fail(at) => at != FailEmit
    case _ => false
  }

  ghost predicate WorkerCompletes(s: System, t: ThreadId, j: JobId) {
    t in s.threads && s.threads[t].job == j && j in s.jobs && SavesCompleted(s.jobs[j], s.threads[t].pc)
  }

  ghost predicate WorkerFails(s: System, t: ThreadId, j: JobId) {
    t in s.threads && s.threads[t].job == j && j in s.jobs && MayFail(s.jobs[j], s.threads[t].pc)
  }

  // ---- The cancel flag ----------------------------------------------------------------------------

  /** As long as a CANCELLING job has a worker, and from before it becomes CANCELLING, the flag is set. */
  ghost predicate Flagged(s: System) {
    forall t ::
      t in s.threads && s.threads[t].job in s.jobs && NeedsFlag(s.threads[t].pc, s.jobs[s.threads[t].job].status) ==>
        s.threads[t].job in s.cancelRequested
  }

  predicate NeedsFlag(pc: Pc, status: Status) {
    pc == Cancel(RunningCommit) || (WorkerSide(pc) && status == Cancelling)
  }

  /** What an operation does to the flag, seen from its own thread and from another one at `q`. */
  lemma FlagStep(v: View, bodies: nat, p: Pc, oracle: Oracle)
    requires LocalInv(v, bodies, p) && (NeedsFlag(p, v.status) ==> v.cancelRequested)
    ensures var e := Perform(v, p, oracle);
      var v2 := AfterView(v, e);
      && (e.next.Some? && NeedsFlag(e.next.value, v2.status) ==> v2.cancelRequested)
      && (v.cancelRequested && !v2.cancelRequested ==> v.status == Cancelled && v2.status == Cancelled)
      && (v2.status == Cancelling && v.status != Cancelling ==> v2.cancelRequested)
  {
    hide ReplayInv, DryInv, PerformReplay, PerformDry, PerformCancel;
    match p
    case Replay(at) => ReplayLeavesFlag(v, at, oracle);
    case Dry(at) => DryLeavesFlag(v, at);
    case Cancel(at) => CancelSetsFlag(v, at);
    case _ =>
  }

  lemma ReplayLeavesFlag(v: View, at: ReplayPc, oracle: Oracle)
    ensures var e := PerformReplay(v, at, oracle);
      e.cancel == KeepCancel && e.write != Some(Cancelling) && e.next.Some? && !e.next.value.Cancel?
  {}

  lemma DryLeavesFlag(v: View, at: DryPc)
    ensures var e := PerformDry(v, at);
      e.cancel == KeepCancel && e.write != Some(Cancelling) && e.next.Some? && !e.next.value.Cancel?
  {}

  lemma CancelSetsFlag(v: View, at: CancelPc)
    requires CancelInv(v, at) && (at == RunningCommit ==> v.cancelRequested)
    ensures var e := PerformCancel(v, at);
      var v2 := AfterView(v, e);
      && (e.next == Some(Cancel(RunningCommit)) ==> v2.cancelRequested)
      && (e.next.Some? ==> !WorkerSide(e.next.value))
      && (v.cancelRequested && !v2.cancelRequested ==> v.status == Cancelled && v2.status == Cancelled)
      && (e.write == Some(Cancelling) ==> v2.cancelRequested)
  {}

  lemma FlaggedRun(s: System, t: ThreadId, oracle: Oracle)
    requires Reachable(s) && CanStep(s, t) && Flagged(s)
    ensures Flagged(StepThread(s, t, oracle))
  {
    hide Perform, Unblocked, LocalInv, Respects, EventsOf, OthersActive, Reachable, NeedsFlag;
    var s2, j := StepThread(s, t, oracle), s.threads[t].job;
    Knows(s, t, oracle);
    FlagStep(ViewOf(s, j), Bodies(s, j), s.threads[t].pc, oracle);
    forall u | u in s2.threads && s2.threads[u].job in s2.jobs
        && NeedsFlag(s2.threads[u].pc, s2.jobs[s2.threads[u].job].status)
      ensures s2.threads[u].job in s2.cancelRequested
    {
      if u != t && s.threads[u].job == j {
        Knows(s, u, oracle);
        CommitNeedsRunning(ViewOf(s, j), Bodies(s, j), s.threads[u].pc);
        NeedsItStill(s.threads[u].pc, s.jobs[j].status, s2.jobs[j].status);
      }
    }
  }

  lemma CommitNeedsRunning(v: View, bodies: nat, p: Pc)
    requires LocalInv(v, bodies, p)
    ensures p == Cancel(RunningCommit) ==> v.status == Running
  {}

  lemma NeedsItStill(p: Pc, status: Status, after: Status)
    ensures NeedsFlag(p, after) ==> NeedsFlag(p, status) || (status != Cancelling && after == Cancelling)
    ensures after == Cancelled && NeedsFlag(p, after) ==> p == Cancel(RunningCommit)
  {}

  lemma FlaggedStep(s: System, l: Label, s2: System)
    requires Reachable(s) && Step(s, l, s2) && Flagged(s)
    ensures Flagged(s2)
  {
    match l {
      case Run(t, oracle) => FlaggedRun(s, t, oracle);
      case Create(t, j, job) =>
        hide Perform, Respects, LocalInv, Reachable;
        forall u | u in s.threads ensures s.threads[u].job in s.jobs {
          Knows(s, u, Raises);
        }
      case Raise(t) =>
        hide EventsOf;
      case Reconcile(j) =>
        hide ReconcileEvent;
        BootsAlone(s);
      case _ =>
    }
  }

  lemma BootsAlone(s: System)
    requires Reachable(s) && s.booting
    ensures s.threads == map[]
  {
    if t :| t in s.threads {
      ReachableInv(s);
    }
  }

  lemma {:induction false} RunIsFlagged(states: seq<System>, labels: seq<Label>)
    requires IsRun(states, labels) && states[0] == Empty
    ensures Flagged(states[|states| - 1])
    decreases |labels|
  {
    hide Step, Flagged;
    if labels == [] {
      NoFlagNeeded();
    } else {
      var n := |labels| - 1;
      RunPrefix(states, labels, n);
      RunIsFlagged(states[..n + 1], labels[..n]);
      FlaggedStep(states[n], labels[n], states[n + 1]);
    }
  }

  lemma NoFlagNeeded()
    ensures Flagged(Empty)
  {}

  lemma ReachableFlagged(s: System)
    requires Reachable(s)
    ensures Flagged(s)
  {
    hide Step, Flagged;
    var states, labels :| IsRun(states, labels) && states[0] == Empty && states[|states| - 1] == s;
    RunIsFlagged(states, labels);
  }

  // ---- Only then ----------------------------------------------------------------------------------

  /** The job is CANCELLING, with no worker about to store COMPLETED, or over otherwise. */
  ghost predicate NotCompleting(s: System, j: JobId) {
    j in s.jobs
    && (s.jobs[j].status == Cancelling || s.jobs[j].status == Cancelled || s.jobs[j].status == Failed)
    && (s.jobs[j].status == Cancelling ==> forall t :: !WorkerCompletes(s, t, j))
  }

  /** The same for FAILED. */
  ghost predicate NotFailing(s: System, j: JobId) {
    j in s.jobs
    && (s.jobs[j].status == Cancelling || s.jobs[j].status == Cancelled || s.jobs[j].status == Completed)
    && (s.jobs[j].status == Cancelling ==> forall t :: !WorkerFails(s, t, j))
  }

  /** One operation of a thread of a CANCELLING job whose worker sees the flag. */
  lemma StaysOff(v: View, bodies: nat, p: Pc, oracle: Oracle, job: Job)
    requires LocalInv(v, bodies, p) && v.status == Cancelling && (WorkerSide(p) ==> v.cancelRequested)
    requires job.window == v.window && job.dryRunComplete == v.dryRunComplete
    ensures var e := Perform(v, p, oracle);
      && (e.write == Some(Completed) ==> SavesCompleted(job, p))
      && (e.write == Some(Failed) ==> MayFail(job, p))
      && e.write != Some(Running) && e.write != Some(Pending)
      && (e.next.Some? && SavesCompleted(job, e.next.value) ==> SavesCompleted(job, p))
      && (e.next.Some? && MayFail(job, e.next.value) ==> MayFail(job, p))
  {
    hide PerformReplay, PerformDry, PerformCancel, ReplayInv, DryInv;
    match p
    case Replay(at) => ReplayStaysOff(v, at, oracle, job);
    case Dry(at) => DryStaysOff(v, at, job);
    case Cancel(at) => CancelStaysOff(v, at, job);
    case _ =>
  }

  lemma ReplayStaysOff(v: View, at: ReplayPc, oracle: Oracle, job: Job)
    requires ReplayInv(v, at) && v.cancelRequested && job.window == v.window
    ensures var e := PerformReplay(v, at, oracle);
      && (e.write == Some(Completed) ==> SavesCompleted(job, Replay(at)))
      && (e.write == Some(Failed) ==> MayFail(job, Replay(at)))
      && e.write != Some(Running) && e.write != Some(Pending)
      && (e.next.Some? && SavesCompleted(job, e.next.value) ==> SavesCompleted(job, Replay(at)))
      && (e.next.Some? && MayFail(job, e.next.value) ==> MayFail(job, Replay(at)))
  {}

  lemma DryStaysOff(v: View, at: DryPc, job: Job)
    requires v.cancelRequested && job.dryRunComplete == v.dryRunComplete
    ensures var e := PerformDry(v, at);
      && (e.write == Some(Completed) ==> SavesCompleted(job, Dry(at)))
      && e.write != Some(Failed) && e.write != Some(Running) && e.write != Some(Pending)
      && (e.next.Some? && SavesCompleted(job, e.next.value) ==> SavesCompleted(job, Dry(at)))
      && (e.next.Some? ==> !MayFail(job, e.next.value))
  {}

  lemma CancelStaysOff(v: View, at: CancelPc, job: Job)
    requires CancelInv(v, at) && v.status == Cancelling
    ensures var e := PerformCancel(v, at);
      && (e.write == None || e.write == Some(Cancelling))
      && (e.next.Some? ==> !SavesCompleted(job, e.next.value) && !MayFail(job, e.next.value))
  {}

  lemma OffRun(s: System, t: ThreadId, oracle: Oracle, j: JobId)
    requires Reachable(s) && CanStep(s, t) && j in s.jobs && s.jobs[j].status == Cancelling
    ensures var s2 := StepThread(s, t, oracle);
      && (NotCompleting(s, j) ==> NotCompleting(s2, j))
      && (NotFailing(s, j) ==> NotFailing(s2, j))
  {
    hide Perform, Unblocked, LocalInv, Respects, EventsOf, OthersActive, Reachable, SavesCompleted, MayFail;
    var s2, p := StepThread(s, t, oracle), s.threads[t].pc;
    forall u | u in s.threads && u != t ensures u in s2.threads && s2.threads[u] == s.threads[u] {}
    if s.threads[t].job == j {
      Knows(s, t, oracle);
      ReachableFlagged(s);
      StaysOff(ViewOf(s, j), Bodies(s, j), p, oracle, s.jobs[j]);
      SameMark(s.jobs[j], s2.jobs[j]);
      assert WorkerCompletes(s2, t, j) ==> WorkerCompletes(s, t, j);
      assert WorkerFails(s2, t, j) ==> WorkerFails(s, t, j);
      assert SavesCompleted(s.jobs[j], p) ==> WorkerCompletes(s, t, j);
      assert MayFail(s.jobs[j], p) ==> WorkerFails(s, t, j);
    }
    forall u | u != t ensures WorkerCompletes(s2, u, j) ==> WorkerCompletes(s, u, j) {
      SameMark(s.jobs[j], s2.jobs[j]);
    }
    forall u | u != t ensures WorkerFails(s2, u, j) ==> WorkerFails(s, u, j) {
      SameMark(s.jobs[j], s2.jobs[j]);
    }
  }

  lemma SameMark(job: Job, job2: Job)
    requires job2.window == job.window && job2.dryRunComplete == job.dryRunComplete
    ensures forall pc :: (SavesCompleted(job2, pc) <==> SavesCompleted(job, pc)) && (MayFail(job2, pc) <==>
        MayFail(job, pc))
  {}

  lemma OffStep(s: System, l: Label, s2: System, j: JobId)
    requires Reachable(s) && Step(s, l, s2) && j in s.jobs
    ensures NotCompleting(s, j) ==> NotCompleting(s2, j)
    ensures NotFailing(s, j) ==> NotFailing(s2, j)
  {
    StatusesMoveForward(s, l, s2, j);
    if s.jobs[j].status == Cancelling {
      match l {
        case Run(t, oracle) => OffRun(s, t, oracle, j);
        case Create(t, i, job) =>
          hide SavesCompleted, MayFail;
          KeepsThreads(s, s2, t, j);
        case CallStart(t, i) =>
          KeepsThreads(s, s2, t, j);
        case CallCancel(t, i) =>
          KeepsThreads(s, s2, t, j);
        case Raise(t) =>
          hide EventsOf;
          Withdraws(s, s2, t, j);
        case _ =>
          KeepsThreads(s, s2, 0, j);
      }
    }
  }

  predicate Enters(pc: Pc) {
    pc == CreateEvent || pc == Start(StartAcquire) || pc == Cancel(CancelProbe)
  }

  /** Threads that have just entered are at none of the places. */
  lemma KeepsThreads(s: System, s2: System, t: ThreadId, j: JobId)
    requires j in s.jobs && j in s2.jobs
    requires s2.jobs[j].window == s.jobs[j].window && s2.jobs[j].dryRunComplete == s.jobs[j].dryRunComplete
    requires forall u :: u in s2.threads ==>
        (u in s.threads && s2.threads[u] == s.threads[u]) || Enters(s2.threads[u].pc)
    ensures forall u :: WorkerCompletes(s2, u, j) ==> WorkerCompletes(s, u, j)
    ensures forall u :: WorkerFails(s2, u, j) ==> WorkerFails(s, u, j)
  {}

  lemma Withdraws(s: System, s2: System, t: ThreadId, j: JobId)
    requires Live(s, t) && s2 == AbortThread(s, t) && j in s.jobs
    ensures j in s2.jobs && s2.jobs[j] == s.jobs[j]
    ensures forall u :: WorkerCompletes(s2, u, j) ==> WorkerCompletes(s, u, j)
    ensures forall u :: WorkerFails(s2, u, j) ==> WorkerFails(s, u, j)
  {}

  lemma {:induction false} OffForever(states: seq<System>, labels: seq<Label>, j: JobId)
    requires |states| == |labels| + 1 && IsRun(states, labels) && Reachable(states[0]) && j in states[0].jobs
    ensures Reachable(states[|labels|])
    ensures NotCompleting(states[0], j) ==> NotCompleting(states[|labels|], j)
    ensures NotFailing(states[0], j) ==> NotFailing(states[|labels|], j)
    ensures j in states[|labels|].jobs
    decreases |labels|
  {
    hide Step, Reachable, NotCompleting, NotFailing;
    if labels != [] {
      var n := |labels| - 1;
      OffForever(states[..n + 1], labels[..n], j);
      assert states[..n + 1][n] == states[n];
      ReachableStep(states[n], labels[n], states[n + 1]);
      StatusesMoveForward(states[n], labels[n], states[n + 1], j);
      OffStep(states[n], labels[n], states[n + 1], j);
    }
  }

  lemma LeadsOff(s: System, s2: System, j: JobId)
    requires LeadsTo(s, s2) && Reachable(s) && j in s.jobs
    ensures NotCompleting(s, j) ==> NotCompleting(s2, j)
    ensures NotFailing(s, j) ==> NotFailing(s2, j)
  {
    hide IsRun, Reachable, NotCompleting, NotFailing;
    var states, labels :| Leads(states, labels, s, s2);
    OffForever(states, labels, j);
  }

  // ---- And then it can ----------------------------------------------------------------------------

  lemma LeadsHere(s: System)
    ensures LeadsTo(s, s)
  {
    assert Leads([s], [], s, s);
  }

  lemma LeadsOn(s: System, s2: System, l: Label, s3: System)
    requires LeadsTo(s, s2) && Step(s2, l, s3)
    ensures LeadsTo(s, s3)
  {
    hide Step, IsRun;
    var states, labels :| Leads(states, labels, s, s2);
    RunExtends(states, labels, l, s3);
    assert Leads(states + [s3], labels + [l], s, s3);
  }

  /** A worker past its last look that waits for the row waits for a finalizing cancel, which will find
      an owner and give up; then the worker can store its outcome. */
  lemma ClearsTheWay(s0: System, s: System, t: ThreadId, j: JobId) returns (s2: System)
    requires LeadsTo(s0, s) && Reachable(s) && t in s.threads && s.threads[t].job == j && j in s.jobs
    requires s.jobs[j].status == Cancelling && SawRunning(s.threads[t].pc) && TakesRow(s.threads[t].pc) && !s.booting
    ensures LeadsTo(s0, s2) && Reachable(s2) && CanStep(s2, t) && s2.threads[t] == s.threads[t] && s2.jobs == s.jobs
  {
    hide Perform, Respects, LocalInv, Unblocked, LeadsTo, Reachable, PairInv, SawRunning;
    s2 := s;
    if !CanStep(s, t) {
      var u := HoldsTheRow(s, t, j);
      Knows(s, u, Raises);
      Knows(s, t, Raises);
      KnowsPair(s, t, u);
      OnlyFinalizer(ViewOf(s, j), Bodies(s, j), s.threads[u].pc, s.threads[t].pc);
      GivesUp(s, t, u, j);
      s2 := StepThread(s, u, Raises);
      RunStep(s, u, Raises);
      LeadsOn(s0, s, Run(u, Raises), s2);
      ReachableStep(s, Run(u, Raises), s2);
    }
  }

  lemma HoldsTheRow(s: System, t: ThreadId, j: JobId) returns (u: ThreadId)
    requires Live(s, t) && !CanStep(s, t) && s.threads[t].job == j && TakesRow(s.threads[t].pc)
    requires SawRunning(s.threads[t].pc)
    ensures u in s.threads && u != t && s.threads[u].job == j && HoldsRow(s.threads[u].pc)
  {
    u :| u in s.threads && u != t && s.threads[u].job == j && HoldsRow(s.threads[u].pc);
  }

  lemma OnlyFinalizer(v: View, bodies: nat, q: Pc, p: Pc)
    requires LocalInv(v, bodies, q) && LocalInv(v, bodies, p) && v.status == Cancelling && HoldsRow(q)
    requires SawRunning(p) && PairInv(p, q)
    ensures q == Finalize(FinalizeCheckOwner) && v.owned
  {
    Basics(v, bodies, p);
  }

  /** Once the finalizing cancel has seen the owner, nobody holds the row any more. */
  lemma GivesUp(s: System, t: ThreadId, u: ThreadId, j: JobId)
    requires Reachable(s) && Live(s, t) && u in s.threads && u != t && s.threads[t].job == j && s.threads[u].job == j
    requires s.threads[u].pc == Finalize(FinalizeCheckOwner) && j in s.owned
    requires TakesRow(s.threads[t].pc) && SawRunning(s.threads[t].pc)
    ensures CanStep(s, u)
    ensures var s2 := StepThread(s, u, Raises);
      CanStep(s2, t) && t in s2.threads && s2.threads[t] == s.threads[t] && s2.jobs == s.jobs
  {
    hide Reachable;
    var s2 := StepThread(s, u, Raises);
    forall w | w in s2.threads && w != t && s2.threads[w].job == j ensures !HoldsRow(s2.threads[w].pc) {
      assert w in s.threads && w != u && s.threads[w] == s2.threads[w];
      KnowsPair(s, u, w);
    }
  }

  lemma {:induction false} Completes(s0: System, s: System, t: ThreadId, j: JobId)
    requires LeadsTo(s0, s) && Reachable(s) && WorkerCompletes(s, t, j) && s.jobs[j].status == Cancelling && !s.booting
    ensures CanBecome(s0, j, Completed)
  {
    hide Perform, Unblocked, LeadsTo, Reachable, EventsOf, OthersActive, SawRunning;
    assert SawRunning(s.threads[t].pc) && TakesRow(s.threads[t].pc) by { SavesLate(s.jobs[j], s.threads[t].pc); }
    var s1 := ClearsTheWay(s0, s, t, j);
    StoresIt(ViewOf(s1, j), s1.threads[t].pc, s1.jobs[j]);
    var s2 := StepThread(s1, t, Raises);
    RunStep(s1, t, Raises);
    LeadsOn(s0, s1, Run(t, Raises), s2);
  }

  lemma SavesLate(job: Job, pc: Pc)
    requires SavesCompleted(job, pc)
    ensures SawRunning(pc) && TakesRow(pc)
  {}

  lemma StoresIt(v: View, pc: Pc, job: Job)
    requires job.dryRunComplete == v.dryRunComplete
    ensures SavesCompleted(job, pc) ==> Perform(v, pc, Raises).write == Some(Completed)
    ensures MayFail(job, pc) && TakesRow(pc) ==> Perform(v, pc, Raises).write == Some(Failed)
  {}

  /** From such a place on, with everything around the worker raising, it gets to storing FAILED. */
  lemma {:induction false} Fails(s0: System, s: System, t: ThreadId, j: JobId)
    requires LeadsTo(s0, s) && Reachable(s) && WorkerFails(s, t, j) && s.jobs[j].status == Cancelling && !s.booting
    ensures CanBecome(s0, j, Failed)
    decreases Rank(s.threads[t].pc)
  {
    hide Perform, Unblocked, LeadsTo, Reachable, EventsOf, OthersActive, SawRunning, Rank, LocalInv, Respects, MayFail;
    var pc := s.threads[t].pc;
    assert SawRunning(pc) by { FailsLate(s.jobs[j], pc); }
    if TakesRow(pc) {
      var s1 := ClearsTheWay(s0, s, t, j);
      StoresIt(ViewOf(s1, j), pc, s1.jobs[j]);
      var s2 := StepThread(s1, t, Raises);
      RunStep(s1, t, Raises);
      LeadsOn(s0, s1, Run(t, Raises), s2);
    } else {
      NeedNotWait(s, t, s.jobs[j]);
      Knows(s, t, Raises);
      GoesWrong(ViewOf(s, j), Bodies(s, j), pc, s.jobs[j]);
      RankFalls(ViewOf(s, j), pc, Raises);
      var s2 := StepThread(s, t, Raises);
      RunStep(s, t, Raises);
      LeadsOn(s0, s, Run(t, Raises), s2);
      ReachableStep(s, Run(t, Raises), s2);
      StillServing(s, t, Raises);
      assert s2.threads[t].job == j && s2.jobs == s.jobs;
      Fails(s0, s2, t, j);
    }
  }

  lemma FailsLate(job: Job, pc: Pc)
    requires MayFail(job, pc)
    ensures SawRunning(pc)
  {}

  lemma NeedNotWait(s: System, t: ThreadId, job: Job)
    requires Live(s, t) && MayFail(job, s.threads[t].pc) && !TakesRow(s.threads[t].pc)
    ensures CanStep(s, t)
  {}

  lemma GoesWrong(v: View, bodies: nat, pc: Pc, job: Job)
    requires LocalInv(v, bodies, pc) && MayFail(job, pc) && !TakesRow(pc) && job.window == v.window
    ensures var e := Perform(v, pc, Raises); e.next.Some? && MayFail(job, e.next.value) && e.write == None
  {}

  // ---- Exactly ------------------------------------------------------------------------------------

  /** A CANCELLING job can still end in COMPLETED if and only if its worker is about to store that. */
  lemma CompletedExactly(s: System, j: JobId)
    requires Reachable(s) && j in s.jobs && s.jobs[j].status == Cancelling
    ensures CanBecome(s, j, Completed) <==> exists t :: WorkerCompletes(s, t, j)
  {
    hide IsRun, Reachable, LeadsTo, SavesCompleted;
    if t :| WorkerCompletes(s, t, j) {
      LeadsHere(s);
      Serves(s, t);
      Completes(s, s, t, j);
    } else if CanBecome(s, j, Completed) {
      var s2 :| LeadsTo(s, s2) && j in s2.jobs && s2.jobs[j].status == Completed;
      LeadsOff(s, s2, j);
    }
  }

  /** It can still end in FAILED if and only if its worker is about to store that, or between its first
      and its second look at the cancel flag with something ahead that can go wrong. */
  lemma FailedExactly(s: System, j: JobId)
    requires Reachable(s) && j in s.jobs && s.jobs[j].status == Cancelling
    ensures CanBecome(s, j, Failed) <==> exists t :: WorkerFails(s, t, j)
  {
    hide IsRun, Reachable, LeadsTo, MayFail;
    if t :| WorkerFails(s, t, j) {
      LeadsHere(s);
      Serves(s, t);
      Fails(s, s, t, j);
    } else if CanBecome(s, j, Failed) {
      var s2 :| LeadsTo(s, s2) && j in s2.jobs && s2.jobs[j].status == Failed;
      LeadsOff(s, s2, j);
    }
  }

  lemma Serves(s: System, t: ThreadId)
    requires Reachable(s) && t in s.threads
    ensures !s.booting
  {
    if s.booting {
      BootsAlone(s);
    }
  }

  /** In all other cases an accepted cancel holds: whatever happens, restarts included, the job stays
      CANCELLING until it is CANCELLED. */
  lemma OtherwiseCancelled(states: seq<System>, labels: seq<Label>, i: nat, k: nat, j: JobId)
    requires IsRun(states, labels) && states[0] == Empty && i <= k < |states|
    requires j in states[i].jobs && states[i].jobs[j].status == Cancelling
    requires forall t :: !WorkerCompletes(states[i], t, j) && !WorkerFails(states[i], t, j)
    ensures j in states[k].jobs && (states[k].jobs[j].status == Cancelling || states[k].jobs[j].status == Cancelled)
  {
    hide Step, SavesCompleted, MayFail;
    RunPrefix(states, labels, i);
    assert IsRun(states[i..k + 1], labels[i..k]);
    OffForever(states[i..k + 1], labels[i..k], j);
  }
}
