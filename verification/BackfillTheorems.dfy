/**
 What the backfill service guarantees over every run of one process, restarts included.
 */
module BackfillTheorems {
  import opened BackfillProgram
  import opened BackfillSystem
  import opened BackfillInvariant
  import opened BackfillSafety

  lemma EmptyInv()
    ensures Inv(Empty)
  {}

  lemma {:induction false} RunInv(states: seq<System>, labels: seq<Label>)
    requires IsRun(states, labels) && states[0] == Empty
    ensures Inv(states[|states| - 1])
    decreases |labels|
  {
    hide Inv;
    if labels == [] {
      EmptyInv();
    } else {
      var n := |labels| - 1;
      RunInv(states[..n + 1], labels[..n]);
      StepKeeps(states[n], labels[n], states[n + 1]);
    }
  }

  lemma ReachableInv(s: System)
    requires Reachable(s)
    ensures Inv(s)
  {
    hide Inv;
    var states, labels :| IsRun(states, labels) && states[0] == Empty && states[|states| - 1] == s;
    RunInv(states, labels);
  }

  lemma RunExtends(states: seq<System>, labels: seq<Label>, l: Label, s2: System)
    requires IsRun(states, labels) && Step(states[|states| - 1], l, s2)
    ensures IsRun(states + [s2], labels + [l]) && (states + [s2])[0] == states[0]
  {
    hide Step;
  }

  lemma ReachableStep(s: System, l: Label, s2: System)
    requires Reachable(s) && Step(s, l, s2)
    ensures Reachable(s2)
  {
    hide Step;
    var states, labels :| IsRun(states, labels) && states[0] == Empty && states[|states| - 1] == s;
    RunExtends(states, labels, l, s2);
  }

  lemma RunStep(s: System, t: ThreadId, oracle: Oracle)
    requires CanStep(s, t)
    ensures Step(s, Run(t, oracle), StepThread(s, t, oracle))
  {
    hide Perform, Apply, Unblocked;
  }

  /** What is known of a thread in a reachable state, and of the operation it is about to do. */
  lemma Knows(s: System, t: ThreadId, oracle: Oracle)
    requires Reachable(s) && t in s.threads
    ensures var j, p := s.threads[t].job, s.threads[t].pc;
      && j in s.jobs
      && LocalInv(ViewOf(s, j), Bodies(s, j), p)
      && Respects(ViewOf(s, j), p, Perform(ViewOf(s, j), p, oracle))
  {
    hide LocalInv, Respects, Perform, PairInv, LogInv, LostInv, LockInv;
    ReachableInv(s);
    var j, p := s.threads[t].job, s.threads[t].pc;
    KeepsStep(ViewOf(s, j), Bodies(s, j), p, oracle);
    assert Keeps(ViewOf(s, j), p, Perform(ViewOf(s, j), p, oracle));
  }

  /** Threads of the same job in a reachable state. */
  lemma KnowsPair(s: System, t: ThreadId, u: ThreadId)
    requires Reachable(s) && t in s.threads && u in s.threads && t != u && s.threads[t].job == s.threads[u].job
    ensures PairInv(s.threads[t].pc, s.threads[u].pc)
  {
    hide LocalInv, PairInv, LogInv, LostInv, LockInv;
    ReachableInv(s);
  }

  // ---- At most one active job per stream -----------------------------------------------------

  lemma AtMostOneActive(s: System, i: JobId, j: JobId)
    requires Reachable(s) && i in s.jobs && j in s.jobs && i != j && s.jobs[i].stream == s.jobs[j].stream
    ensures !(s.jobs[i].status in {Running, Cancelling} && s.jobs[j].status in {Running, Cancelling})
  {
    hide ThreadsInv, PairsInv, LogInv, LostInv, LockInv;
    ReachableInv(s);
  }

  // ---- Statuses only move forward ------------------------------------------------------------

  /** Rows are never removed, terminal statuses stay for good and PENDING is never written. */
  lemma StatusesMoveForward(s: System, l: Label, s2: System, j: JobId)
    requires Reachable(s) && Step(s, l, s2) && j in s.jobs
    ensures j in s2.jobs && s2.jobs[j] == s.jobs[j].(status := s2.jobs[j].status)
    ensures StatusStep(s.jobs[j].status, s2.jobs[j].status)
  {
    if l.Run? {
      hide LocalInv, Perform, Unblocked;
      Knows(s, l.t, l.oracle);
    }
  }

  /** `i`-th and last states of a run. */
  lemma {:induction false} TerminalForever(states: seq<System>, labels: seq<Label>, i: nat, j: JobId)
    requires IsRun(states, labels) && states[0] == Empty && i < |states|
    requires j in states[i].jobs && Terminal(states[i].jobs[j].status)
    ensures var last := states[|states| - 1];
            j in last.jobs && last.jobs[j].status == states[i].jobs[j].status
    decreases |states|
  {
    hide Step;
    var n := |labels|;
    if i < n {
      assert IsRun(states[..n], labels[..n - 1]);
      TerminalForever(states[..n], labels[..n - 1], i, j);
      assert Reachable(states[n - 1]);
      StatusesMoveForward(states[n - 1], labels[n - 1], states[n], j);
    }
  }

  /** A row keeps its stream, its window and its mark. */
  lemma {:induction false} RowStays(states: seq<System>, labels: seq<Label>, i: nat, j: JobId)
    requires IsRun(states, labels) && states[0] == Empty && i < |states| && j in states[i].jobs
    ensures var last := states[|states| - 1];
            j in last.jobs && last.jobs[j] == states[i].jobs[j].(status := last.jobs[j].status)
    decreases |states|
  {
    hide Step;
    var n := |labels|;
    if i < n {
      assert IsRun(states[..n], labels[..n - 1]);
      RowStays(states[..n], labels[..n - 1], i, j);
      assert Reachable(states[n - 1]);
      StatusesMoveForward(states[n - 1], labels[n - 1], states[n], j);
    }
  }

  // ---- Who may end a job ---------------------------------------------------------------------

  /** Thread `t` is the job's worker, about to store the outcome of its body. */
  predicate WorkerStores(s: System, t: ThreadId, j: JobId) {
    t in s.threads && s.threads[t].job == j && InBody(s.threads[t].pc) && TakesRow(s.threads[t].pc)
  }

  /** Thread `t` cancels a job nobody had claimed when it looked. */
  predicate Finalizes(s: System, t: ThreadId, j: JobId) {
    t in s.threads && s.threads[t] == Thread(j, Finalize(FinalizeCommit))
  }

  /** An active job is ended by its worker, by startup reconciliation, or by a finalizing cancel
      that holds both locks; and the last only turns CANCELLING into CANCELLED, while no worker
      of the job has read RUNNING. */
  lemma WhoEndsAJob(s: System, l: Label, s2: System, j: JobId)
    requires Reachable(s) && Step(s, l, s2)
    requires j in s.jobs && Active(s.jobs[j].status) && j in s2.jobs && Terminal(s2.jobs[j].status)
    ensures || (l == Reconcile(j) && s.booting && s.threads == map[])
            || (l.Run? && WorkerStores(s, l.t, j))
            || (l.Run? && Finalizes(s, l.t, j) && s.jobs[j].status == Cancelling && s2.jobs[j].status == Cancelled
                && forall u :: u in s.threads && s.threads[u].job == j ==> !SawRunning(s.threads[u].pc))
  {
    match l {
      case Run(t, oracle) =>
        RunEndsAJob(s, t, oracle, j);
      case Reconcile(i) =>
        hide ThreadsInv, PairsInv, LogInv, LostInv, LockInv;
        ReachableInv(s);
      case _ =>
    }
  }

  lemma RunEndsAJob(s: System, t: ThreadId, oracle: Oracle, j: JobId)
    requires Reachable(s) && CanStep(s, t)
    requires j in s.jobs && Active(s.jobs[j].status)
    requires var s2 := StepThread(s, t, oracle); j in s2.jobs && Terminal(s2.jobs[j].status)
    ensures || WorkerStores(s, t, j)
            || (Finalizes(s, t, j) && s.jobs[j].status == Cancelling
                && StepThread(s, t, oracle).jobs[j].status == Cancelled
                && forall u :: u in s.threads && s.threads[u].job == j ==> !SawRunning(s.threads[u].pc))
  {
    hide Perform, Unblocked;
    Knows(s, t, oracle);
    forall u | u in s.threads && s.threads[u].job == j && u != t ensures PairInv(s.threads[t].pc, s.threads[u].pc) {
      KnowsPair(s, t, u);
    }
  }

  // ---- One worker body per job ---------------------------------------------------------------

  /** The body of a job's worker is entered at most once over the whole run, restarts included,
      and never before the job was started. */
  lemma BodyAtMostOnce(s: System, j: JobId)
    requires Reachable(s)
    ensures Bodies(s, j) <= 1
    ensures j in s.jobs && s.jobs[j].status == Pending ==> Bodies(s, j) == 0
  {
    hide ThreadsInv, PairsInv, LogInv, LostInv, LockInv;
    ReachableInv(s);
  }

  /** The exclusive claim is never the one that refuses: no second worker gets that far. */
  lemma ClaimNeverRefused(s: System, t: ThreadId)
    requires Reachable(s) && t in s.threads && s.threads[t].pc == Claim
    ensures s.threads[t].job !in s.owned
  {
    hide LogInv, LostInv, LockInv, LocalInv;
    ReachableInv(s);
    var j := s.threads[t].job;
    forall u ensures !HasBody(s, u, j) {
      if u != t && u in s.threads && s.threads[u].job == j {
        assert PairInv(s.threads[t].pc, s.threads[u].pc);
      }
    }
  }

  // ---- The event log refines the status ------------------------------------------------------

  /** Unless a worker sits between a status commit and its event commit, or crashed there, the
      job's progress events lead from PENDING to the stored status. */
  lemma LogRefinesStatus(s: System, j: JobId)
    requires Reachable(s) && j in s.jobs && NobodyOwes(s, j) && j !in s.lost
    ensures Fold(s.log, j) == s.jobs[j].status
  {
    hide ThreadsInv, PairsInv, OwnerInv, LockInv, Fold;
    ReachableInv(s);
    assert LogTells(s, j, Fold(s.log, j));
  }

  /** Otherwise exactly the missing event is missing. */
  lemma LogIsOneEventShort(s: System, j: JobId)
    requires Reachable(s) && j in s.jobs
    ensures forall t :: OwesFor(s, t, j) ==> Advance(Fold(s.log, j), Owed(s.threads[t].pc).value) == s.jobs[j].status
    ensures NobodyOwes(s, j) && j in s.lost ==> Advance(Fold(s.log, j), s.lost[j]) == s.jobs[j].status
    ensures j in s.lost ==> Terminal(s.jobs[j].status)
  {
    hide ThreadsInv, PairsInv, OwnerInv, LockInv, Fold;
    ReachableInv(s);
    assert LogTells(s, j, Fold(s.log, j));
  }

  // ---- A worker run ends, and ends the job ----------------------------------------------------

  /** A worker that ran into its end has ended a job with a replay window, or a dry run marked
      complete; one that acknowledged a cancel has cancelled it; one that left by an exception it does
      not catch leaves it RUNNING or CANCELLING. */
  lemma WorkerEndsTheJob(s: System, t: ThreadId)
    requires Reachable(s) && t in s.threads && s.threads[t].pc.Release?
    ensures s.threads[t].job in s.jobs
    ensures var job, exit := s.jobs[s.threads[t].job], s.threads[t].pc.exit;
      && (exit == Finished && (job.window != NoWindow || job.dryRunComplete) ==> Terminal(job.status))
      && (exit == Acknowledged ==> job.status == Cancelled)
      && (exit == Uncaught ==> Active(job.status) && s.threads[t].job in s.owned)
  {
    hide Perform, Respects;
    Knows(s, t, Raises);
  }

  // ---- A cancel that is seen ------------------------------------------------------------------

  /** The worker is about to check for a cancel and will see one: the flag, or the CANCELLING that it
      has read. */
  predicate SeesCancel(s: System, t: ThreadId) {
    t in s.threads && var j := s.threads[t].job;
    match s.threads[t].pc
    case Replay(ReplayCheck(seen)) => seen == Cancelling || j in s.cancelRequested
    case Replay(ReplayCheckCancel(_)) => j in s.cancelRequested
    case Replay(ReplayRecheck(_, seen)) => seen == Cancelling || j in s.cancelRequested
    case Dry(DryCheck(seen)) => seen == Cancelling || j in s.cancelRequested
    case Dry(DryRecheck(seen)) => seen == Cancelling || j in s.cancelRequested
    case _ => false
  }

  predicate Acknowledging(pc: Pc) {
    pc.Ack? || pc == Release(Acknowledged)
  }

  lemma AckStep(s: System, l: Label, s2: System, t: ThreadId)
    requires Step(s, l, s2) && t in s.threads && t in s2.threads && l != Raise(t)
    requires Acknowledging(s.threads[t].pc) || (l.Run? && l.t == t && SeesCancel(s, t))
    ensures s2.threads[t].job == s.threads[t].job && Acknowledging(s2.threads[t].pc)
  {
    hide Unblocked, Abort, PerformStart, PerformFail, PerformCancel, PerformFinalize, EventsOf, OthersActive;
  }

  /** The call on thread `t` is the same in all these states, and none of its operations raised. */
  ghost predicate CarriesOn(states: seq<System>, labels: seq<Label>, t: ThreadId, i: nat, k: nat) {
    && i <= k < |states| && |states| == |labels| + 1
    && (forall m :: i <= m <= k ==> t in states[m].threads)
    && forall m :: i <= m < k ==> labels[m] != Raise(t)
  }

  lemma {:induction false} KeepsAcknowledging(states: seq<System>, labels: seq<Label>, t: ThreadId, i: nat, k: nat)
    requires IsRun(states, labels) && CarriesOn(states, labels, t, i, k) && i < k
    requires labels[i].Run? && labels[i].t == t && SeesCancel(states[i], t)
    ensures states[k].threads[t].job == states[i].threads[t].job && Acknowledging(states[k].threads[t].pc)
    decreases k
  {
    hide Step, SeesCancel, Acknowledging;
    if i + 1 < k {
      KeepsAcknowledging(states, labels, t, i, k - 1);
    }
    AckStep(states[k - 1], labels[k - 1], states[k], t);
  }

  /** A cancel seen at any of the worker's checks ends in CANCELLED: whenever such a worker gets to
      the end of its body without raising, it has acknowledged, and the job is CANCELLED from then on. */
  lemma CancelSeenEnds(states: seq<System>, labels: seq<Label>, t: ThreadId, i: nat, k: nat, m: nat)
    requires IsRun(states, labels) && states[0] == Empty && CarriesOn(states, labels, t, i, k) && i < k <= m < |states|
    requires labels[i].Run? && labels[i].t == t && SeesCancel(states[i], t)
    requires states[k].threads[t].pc.Release?
    ensures states[k].threads[t].pc == Release(Acknowledged)
    ensures var j := states[i].threads[t].job; j in states[m].jobs && states[m].jobs[j].status == Cancelled
  {
    hide Step, SeesCancel;
    var j := states[i].threads[t].job;
    KeepsAcknowledging(states, labels, t, i, k);
    RunPrefix(states, labels, k);
    WorkerEndsTheJob(states[k], t);
    RunPrefix(states, labels, m);
    TerminalForever(states[..m + 1], labels[..m], k, j);
  }

  lemma RunPrefix(states: seq<System>, labels: seq<Label>, k: nat)
    requires IsRun(states, labels) && k < |states|
    ensures IsRun(states[..k + 1], labels[..k])
    ensures states[0] == Empty ==> Reachable(states[k])
  {
    hide Step;
    assert states[..k + 1][|states[..k + 1]| - 1] == states[k];
  }

  // ---- Every call ends --------------------------------------------------------------------------

  /** How many more operations of its own a thread can perform at most. */
  function Rank(pc: Pc): nat {
    match pc
    case CreateEvent => 1
    case Start(at) => StartRank(at)
    case Claim => 20
    case Load => 19
    case Replay(at) => ReplayRank(at)
    case Dry(at) => DryRank(at)
    case Fail(at) => (match at case FailRead => 5 case FailSave => 4 case FailEmit => 3)
    case Ack(at) => (match at case AckRead => 6 case AckSave => 5 case AckEmit => 4 case AckClear => 3)
    case Release(_) => 1
    case Cancel(at) => CancelRank(at)
    case Finalize(at) => FinalizeRank(at)
  }

  function StartRank(at: StartPc): nat {
    match at
    case StartAcquire => 24
    case StartRead => 23
    case StartCount => 22
    case StartReject => 1
    case StartCommit => 21
  }

  function ReplayRank(at: ReplayPc): nat {
    match at
    case ReplayRead => 18
    case ReplayCheck(_) => 17
    case ReplayParse => 16
    case ReplayEmitStarted => 15
    case ReplayLoadContext => 14
    case ReplayRun => 13
    case ReplayCheckCancel(_) => 12
    case ReplayReread(_) => 11
    case ReplayRecheck(_, _) => 10
    case ReplaySave(_) => 4
    case ReplayEmitCompleted(_) => 3
  }

  function DryRank(at: DryPc): nat {
    match at
    case DryRead => 18
    case DryCheck(_) => 17
    case DryEmitStarted => 16
    case DryEmitSnapshot => 15
    case DryEmitChunk => 14
    case DryReread => 13
    case DryRecheck(_) => 10
    case DrySave => 4
    case DryEmitCompleted => 3
  }

  function CancelRank(at: CancelPc): nat {
    match at
    case CancelProbe => 12
    case PendingAcquire => 4
    case PendingRead => 3
    case PendingCommit => 2
    case PendingClear => 1
    case RunningAcquire => 11
    case RunningRead => 10
    case RunningRequest => 9
    case RunningCommit => 8
    case AgainRequest => 8
    case CheckOwner => 7
  }

  function FinalizeRank(at: FinalizePc): nat {
    match at
    case FinalizeAcquire => 5
    case FinalizeRead => 4
    case FinalizeCheckOwner => 3
    case FinalizeCommit => 2
    case FinalizeClear => 1
  }

  predicate Falls(rank: nat, e: Effect) {
    e.next.Some? ==> Rank(e.next.value) < rank
  }

  lemma StartFalls(v: View, at: StartPc)
    ensures Falls(StartRank(at), PerformStart(v, at))
  {}

  lemma ReplayFalls(v: View, at: ReplayPc, oracle: Oracle)
    ensures Falls(ReplayRank(at), PerformReplay(v, at, oracle))
  {}

  lemma DryFalls(v: View, at: DryPc)
    ensures Falls(DryRank(at), PerformDry(v, at))
  {}

  lemma CancelFalls(v: View, at: CancelPc)
    ensures Falls(CancelRank(at), PerformCancel(v, at))
  {}

  lemma FinalizeFalls(v: View, at: FinalizePc)
    ensures Falls(FinalizeRank(at), PerformFinalize(v, at))
  {}

  lemma RankFalls(v: View, pc: Pc, oracle: Oracle)
    ensures Falls(Rank(pc), Perform(v, pc, oracle)) && Falls(Rank(pc), Abort(pc))
  {
    hide PerformStart, PerformReplay, PerformDry, PerformCancel, PerformFinalize;
    match pc
    case Start(at) => StartFalls(v, at);
    case Replay(at) => ReplayFalls(v, at, oracle);
    case Dry(at) => DryFalls(v, at);
    case Cancel(at) => CancelFalls(v, at);
    case Finalize(at) => FinalizeFalls(v, at);
    case _ =>
  }

  function OwnSteps(labels: seq<Label>, t: ThreadId): nat {
    if labels == [] then 0
    else OwnSteps(labels[..|labels| - 1], t) + if labels[|labels| - 1].Run? && labels[|labels| - 1].t == t then 1 else 0
  }

  /** While a call is under way it performs at most `Rank` operations, whatever interleaves:
      at most 24 for a start with its worker, at most 12 for a cancel. */
  lemma {:induction false} OwnStepsBounded(states: seq<System>, labels: seq<Label>, t: ThreadId)
    requires IsRun(states, labels)
    requires forall i :: 0 <= i < |states| ==> t in states[i].threads
    ensures OwnSteps(labels, t) + Rank(states[|states| - 1].threads[t].pc) <= Rank(states[0].threads[t].pc)
    decreases |labels|
  {
    hide Rank, Perform, Abort, Falls, Unblocked;
    if labels != [] {
      var n := |labels| - 1;
      OwnStepsBounded(states[..n + 1], labels[..n], t);
      RankStep(states[n], labels[n], states[n + 1], t);
    }
  }

  lemma RankStep(s: System, l: Label, s2: System, t: ThreadId)
    requires Step(s, l, s2) && t in s.threads && t in s2.threads
    ensures Rank(s2.threads[t].pc) + (if l.Run? && l.t == t then 1 else 0) <= Rank(s.threads[t].pc)
  {
    hide Rank, Perform, Abort, Unblocked;
    match l
    case Run(u, oracle) =>
      if u == t { RankFalls(ViewOf(s, s.threads[t].job), s.threads[t].pc, oracle); }
    case Raise(u) =>
      if u == t { RankFalls(ViewOf(s, s.threads[t].job), s.threads[t].pc, Raises); }
    case _ =>
  }

  /** No deadlock: a call that cannot go on waits for a lock of one that can. */
  lemma NoDeadlock(s: System, t: ThreadId)
    requires Reachable(s) && Live(s, t) && !CanStep(s, t)
    ensures exists u :: u in s.threads && CanStep(s, u) && HoldsStream(s.threads[u].pc)
                        && SameStream(s, s.threads[u].job, s.threads[t].job)
  {
    hide ThreadsInv, PairsInv, LogInv, LostInv, OwnerInv;
    ReachableInv(s);
    var j := s.threads[t].job;
    var u :| u in s.threads && u != t && SameStream(s, s.threads[u].job, j) && HoldsStream(s.threads[u].pc);
    forall w | w in s.threads && w != u && s.threads[w].job == s.threads[u].job
      ensures !HoldsRow(s.threads[w].pc)
    {
      assert SameStream(s, s.threads[w].job, s.threads[u].job);
      assert !HoldsStream(s.threads[w].pc);
    }
    assert CanStep(s, u);
  }

  /** The operations that the calls under way have left, at most. */
  ghost function RankSum(threads: map<ThreadId, Thread>): nat
    decreases |threads|
  {
    if threads == map[] then 0
    else var t :| t in threads; Rank(threads[t].pc) + RankSum(threads - {t})
  }

  lemma {:induction false} RankSumWithout(threads: map<ThreadId, Thread>, t: ThreadId)
    requires t in threads
    ensures RankSum(threads) == Rank(threads[t].pc) + RankSum(threads - {t})
    decreases |threads|
  {
    hide Rank;
    var u :| u in threads && RankSum(threads) == Rank(threads[u].pc) + RankSum(threads - {u});
    if u != t {
      RankSumWithout(threads - {u}, t);
      RankSumWithout(threads - {t}, u);
      assert threads - {u} - {t} == threads - {t} - {u};
    }
  }

  lemma RankSumFalls(s: System, t: ThreadId, oracle: Oracle)
    requires CanStep(s, t)
    ensures RankSum(StepThread(s, t, oracle).threads) < RankSum(s.threads)
  {
    hide Rank, Perform, Unblocked, RankSum, EventsOf;
    var j, pc := s.threads[t].job, s.threads[t].pc;
    var e := Perform(ViewOf(s, j), pc, oracle);
    var after := StepThread(s, t, oracle).threads;
    RankFalls(ViewOf(s, j), pc, oracle);
    RankSumWithout(s.threads, t);
    RankPositive(pc);
    if e.next.Some? {
      RankSumWithout(after, t);
      assert after - {t} == s.threads - {t};
    }
  }

  lemma RankPositive(pc: Pc)
    ensures Rank(pc) > 0
  {}

  predicate OnlyRuns(labels: seq<Label>) {
    forall l :: l in labels ==> l.Run?
  }

  /** Without new calls every schedule comes to an end: no run is longer than what the calls have left ... */
  lemma {:induction false} SchedulesEnd(states: seq<System>, labels: seq<Label>)
    requires IsRun(states, labels) && OnlyRuns(labels)
    ensures |labels| + RankSum(states[|states| - 1].threads) <= RankSum(states[0].threads)
    decreases |labels|
  {
    hide StepThread, CanStep, RankSum;
    if labels != [] {
      var n := |labels| - 1;
      assert labels[n] in labels && Step(states[n], labels[n], states[n + 1]);
      assert forall l :: l in labels[..n] ==> l in labels;
      SchedulesEnd(states[..n + 1], labels[..n]);
      RankSumFalls(states[n], labels[n].t, labels[n].oracle);
    }
  }

  /** ... and none ends before all calls have returned. */
  lemma SomeCallGoesOn(s: System) returns (t: ThreadId)
    requires Reachable(s) && !s.booting && s.threads != map[]
    ensures CanStep(s, t) && t in s.threads && s.threads[t].job in s.jobs
  {
    hide Unblocked, Perform, Respects, LocalInv;
    t :| t in s.threads;
    Knows(s, t, Raises);
    if !CanStep(s, t) {
      NoDeadlock(s, t);
      t :| t in s.threads && CanStep(s, t);
    }
  }

  /** Hence from every state a serving process can be in, the calls under way can all return. */
  lemma {:induction false} AllCallsReturn(s: System) returns (states: seq<System>, labels: seq<Label>)
    requires Reachable(s) && !s.booting
    ensures IsRun(states, labels) && OnlyRuns(labels) && states[0] == s && states[|states| - 1].threads == map[]
    decreases RankSum(s.threads)
  {
    hide CanStep, StepThread, Reachable, RankSum;
    if s.threads == map[] {
      states, labels := [s], [];
    } else {
      var t := SomeCallGoesOn(s);
      var s2 := StepThread(s, t, Raises);
      RankSumFalls(s, t, Raises);
      RunStep(s, t, Raises);
      ReachableStep(s, Run(t, Raises), s2);
      StillServing(s, t, Raises);
      var rest, more := AllCallsReturn(s2);
      states, labels := [s] + rest, [Run(t, Raises)] + more;
      RunPrepends(s, Run(t, Raises), rest, more);
    }
  }

  lemma StillServing(s: System, t: ThreadId, oracle: Oracle)
    requires CanStep(s, t)
    ensures !StepThread(s, t, oracle).booting
  {
    hide Perform, Unblocked;
  }

  lemma RunPrepends(s: System, l: Label, states: seq<System>, labels: seq<Label>)
    requires IsRun(states, labels) && Step(s, l, states[0])
    ensures IsRun([s] + states, [l] + labels)
  {
    hide Step;
    var longer, more := [s] + states, [l] + labels;
    forall i | 0 <= i < |more| ensures Step(longer[i], more[i], longer[i + 1]) {
      if i > 0 {
        assert Step(states[i - 1], labels[i - 1], states[i]);
      }
    }
  }

  // ---- Cancelling again ------------------------------------------------------------------------

  predicate CancelsAgain(pc: Pc) {
    pc == Cancel(AgainRequest) || pc == Cancel(CheckOwner) || pc.Finalize?
  }

  /** A cancel call that found the job CANCELLING (or has just made it so) returns only when the
      job is terminal, or when it saw a live owner. */
  lemma CancelAgainEnds(s: System, t: ThreadId, oracle: Oracle)
    requires Reachable(s) && t in s.threads && CancelsAgain(s.threads[t].pc)
    ensures s.threads[t].job in s.jobs
    ensures var j := s.threads[t].job;
            var next := Perform(ViewOf(s, j), s.threads[t].pc, oracle).next;
            && (next.Some? ==> CancelsAgain(next.value))
            && (next.None? ==> j in s.owned || Terminal(s.jobs[j].status))
  {
    hide Respects;
    Knows(s, t, oracle);
  }
}
