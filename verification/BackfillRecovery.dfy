/**
 Startup recovery: the loop of `reconcile_orphaned_backfill_jobs`, proved against what it leaves
 behind, and what that means for the jobs and for a second pass.
 */
module BackfillRecovery {
  import opened BackfillProgram
  import opened BackfillSystem
  import opened BackfillSafety
  import opened BackfillTheorems
  import opened BackfillServer

  /** Every job with its status reconciled, nothing else about it changed. */
  function Reconciled(jobs: map<JobId, Job>): map<JobId, Job> {
    map j | j in jobs :: jobs[j].(status := ReconciledStatus(jobs[j].status))
  }

  function WithStatus(jobs: map<JobId, Job>, status: Status): set<JobId> {
    set j | j in jobs && jobs[j].status == status
  }

  function ActiveJobs(jobs: map<JobId, Job>): set<JobId> {
    set j | j in jobs && Active(jobs[j].status)
  }

  /** The jobs as they are once those in `done` have been reconciled. */
  function PartlyReconciled(jobs: map<JobId, Job>, done: seq<JobId>): map<JobId, Job> {
    map j | j in jobs :: if j in done then jobs[j].(status := ReconciledStatus(jobs[j].status)) else jobs[j]
  }

  /** One event per reconciled job, in the order of `ids`. */
  function Report(jobs: map<JobId, Job>, ids: seq<JobId>): seq<Event>
    requires forall j :: j in ids ==> j in jobs
  {
    seq(|ids|, i requires 0 <= i < |ids| => Event(ids[i], ReconcileEvent(jobs[ids[i]].status)))
  }

  predicate Ascending(ids: seq<JobId>) {
    forall a, b :: 0 <= a < b < |ids| ==> ids[a] < ids[b]
  }

  lemma {:induction false} LeastExists(s: set<JobId>) returns (least: JobId)
    requires s != {}
    ensures least in s && forall j :: j in s ==> least <= j
    decreases s
  {
    var some :| some in s;
    var rest := s - {some};
    assert s == rest + {some};
    least := some;
    if rest != {} {
      var other := LeastExists(rest);
      least := if other < some then other else some;
    }
  }

  /** `list_active_backfill_jobs`: ordered by id. */
  method ListActiveBackfillJobs(jobs: map<JobId, Job>) returns (ids: seq<JobId>)
    ensures Ascending(ids) && (set j | j in ids) == ActiveJobs(jobs)
    ensures forall j :: j in ids <==> j in jobs && Active(jobs[j].status)
  {
    ids := [];
    var rest := ActiveJobs(jobs);
    while rest != {}
      invariant Ascending(ids) && rest <= ActiveJobs(jobs)
      invariant forall a, j :: 0 <= a < |ids| && j in rest ==> ids[a] < j
      invariant forall j :: j in ids <==> j in ActiveJobs(jobs) - rest
      decreases rest
    {
      ghost var witnessed := LeastExists(rest);
      var least :| least in rest && forall j :: j in rest ==> least <= j;
      ids := ids + [least];
      rest := rest - {least};
    }
  }

  /** A starting process owns nothing. */
  lemma BootOwnsNothing(s: System)
    requires Reachable(s) && s.booting
    ensures s.owned == {} && s.threads == map[]
  {
    hide ThreadsInv, PairsInv, LogInv, LostInv, LockInv;
    ReachableInv(s);
    assert forall t, i :: !HasBody(s, t, i);
  }

  /** The listed jobs that had this status. */
  function Had(jobs: map<JobId, Job>, ids: seq<JobId>, status: Status): set<JobId> {
    set j | j in ids && j in jobs && jobs[j].status == status
  }

  lemma OneMore(jobs: map<JobId, Job>, ids: seq<JobId>, k: nat, status: Status)
    requires Ascending(ids) && k < |ids| && ids[k] in jobs
    ensures |Had(jobs, ids[..k + 1], status)| == |Had(jobs, ids[..k], status)| + if jobs[ids[k]].status == status
        then 1 else 0
  {
    assert ids[..k + 1] == ids[..k] + [ids[k]];
    var before, after := Had(jobs, ids[..k], status), Had(jobs, ids[..k + 1], status);
    assert ids[k] !in before;
    assert after == if jobs[ids[k]].status == status then before + {ids[k]} else before;
  }

  /** `reconcile_orphaned_backfill_jobs`, which the process runs before it serves calls: RUNNING
      becomes FAILED, CANCELLING becomes CANCELLED, each with its event, and nothing else changes;
      the counts are those of the two transitions. */
  method ReconcileOrphanedBackfillJobs(server: Server) returns (failed: nat, cancelled: nat)
    requires server.Valid() && server.booting
    modifies server, server.coord
    ensures server.Valid() && server.booting && old(server.states) <= server.states
    ensures server.jobs == Reconciled(old(server.jobs))
    ensures failed == |WithStatus(old(server.jobs), Running)| && cancelled == |WithStatus(old(server.jobs), Cancelling)|
    ensures exists ids :: Ascending(ids) && (forall j :: j in ids <==> j in ActiveJobs(old(server.jobs)))
                          && server.log == old(server.log) + Report(old(server.jobs), ids)
  {
    hide IsRun, Report, Had, Reachable, PartlyReconciled;
    ghost var jobs := server.jobs;
    var ids := ListActiveBackfillJobs(server.jobs);
    failed, cancelled := 0, 0;
    var k := 0;
    ReportEmpty(jobs, ids);
    while k < |ids|
      invariant k <= |ids| && server.Valid() && server.booting && old(server.states) <= server.states
      invariant server.jobs == PartlyReconciled(jobs, ids[..k])
      invariant server.log == old(server.log) + Report(jobs, ids[..k])
      invariant failed == |Had(jobs, ids[..k], Running)| && cancelled == |Had(jobs, ids[..k], Cancelling)|
    {
      var j := ids[k];
      NothingOwned(server);
      PartlyMore(jobs, ids, k);
      OneMore(jobs, ids, k, Running);
      OneMore(jobs, ids, k, Cancelling);
      ReportMore(jobs, ids, k);
      k := k + 1;
      if j in server.coord.ownedJobs {
        continue;
      }
      var job := server.jobs[j];
      if !Active(job.status) {
        continue;
      }
      if j in server.coord.ownedJobs {
        continue;
      }
      if job.status == Running {
        Finalize(server, j, Failed, JobFailed(OwnershipLostOnRestart));
        failed := failed + 1;
      } else {
        Finalize(server, j, Cancelled, JobCancelled);
        cancelled := cancelled + 1;
      }
    }
    Whole(jobs, ids);
  }

  lemma NothingOwned(server: Server)
    requires server.Valid() && server.booting
    ensures server.coord.ownedJobs == {} && server.threads == map[]
  {
    hide Step;
    BootOwnsNothing(server.State());
  }

  /** One committed iteration, and the session cleared after it. */
  method Finalize(server: Server, j: JobId, status: Status, kind: EventKind)
    requires server.Valid() && server.booting && j in server.jobs && j !in server.coord.ownedJobs
    requires Active(server.jobs[j].status)
    requires status == ReconciledStatus(server.jobs[j].status) && kind == ReconcileEvent(server.jobs[j].status)
    modifies server, server.coord
    ensures server.Valid() && server.booting && old(server.states) <= server.states
    ensures server.jobs == old(server.jobs)[j := old(server.jobs[j]).(status := status)]
    ensures server.log == old(server.log) + [Event(j, kind)]
  {
    hide IsRun;
    ghost var before := server.State();
    server.jobs := server.jobs[j := server.jobs[j].(status := status)];
    server.log := server.log + [Event(j, kind)];
    server.coord.ClearJobSession(j);
    RunExtends(server.states, server.labels, Reconcile(j), server.State());
    server.states := server.states + [server.State()];
    server.labels := server.labels + [Reconcile(j)];
  }

  lemma ReportEmpty(jobs: map<JobId, Job>, ids: seq<JobId>)
    requires forall j :: j in ids ==> j in jobs
    ensures PartlyReconciled(jobs, ids[..0]) == jobs
    ensures Report(jobs, ids[..0]) == [] && Had(jobs, ids[..0], Running) == {} && Had(jobs, ids[..0], Cancelling) == {}
  {}

  lemma PartlyMore(jobs: map<JobId, Job>, ids: seq<JobId>, k: nat)
    requires Ascending(ids) && k < |ids| && ids[k] in jobs
    ensures var j, before := ids[k], PartlyReconciled(jobs, ids[..k]);
      && j in before && before[j] == jobs[j]
      && PartlyReconciled(jobs, ids[..k + 1]) == before[j := jobs[j].(status := ReconciledStatus(jobs[j].status))]
  {
    assert ids[..k + 1] == ids[..k] + [ids[k]];
    assert ids[k] !in ids[..k];
  }

  lemma ReportMore(jobs: map<JobId, Job>, ids: seq<JobId>, k: nat)
    requires (forall j :: j in ids ==> j in jobs) && k < |ids|
    ensures Report(jobs, ids[..k + 1]) == Report(jobs, ids[..k]) + [Event(ids[k], ReconcileEvent(jobs[ids[k]].status))]
  {}

  lemma Whole(jobs: map<JobId, Job>, ids: seq<JobId>)
    requires forall j :: j in ids <==> j in jobs && Active(jobs[j].status)
    ensures ids[..|ids|] == ids && PartlyReconciled(jobs, ids) == Reconciled(jobs)
    ensures Had(jobs, ids, Running) == WithStatus(jobs, Running)
    ensures Had(jobs, ids, Cancelling) == WithStatus(jobs, Cancelling)
  {}

  // ---- What it means ---------------------------------------------------------------------------

  /** After recovery no job blocks its stream, terminal and waiting jobs are as they were, and the
      next pass has nothing to do: it returns zeros. */
  lemma RecoveryIsComplete(jobs: map<JobId, Job>)
    ensures ActiveJobs(Reconciled(jobs)) == {}
    ensures WithStatus(Reconciled(jobs), Running) == {} && WithStatus(Reconciled(jobs), Cancelling) == {}
    ensures Reconciled(Reconciled(jobs)) == Reconciled(jobs)
    ensures forall j :: j in jobs && !Active(jobs[j].status) ==> Reconciled(jobs)[j] == jobs[j]
    ensures forall j :: j in jobs ==>
        (Reconciled(jobs)[j].status == Failed <==> jobs[j].status == Failed || jobs[j].status == Running)
    ensures forall j :: j in jobs ==>
        (Reconciled(jobs)[j].status == Cancelled <==> jobs[j].status == Cancelled || jobs[j].status == Cancelling)
  {}

  /** What recovery reports of each job: lost ownership of one that was RUNNING, and a cancel of one
      that was CANCELLING. */
  lemma ReportTells(jobs: map<JobId, Job>, ids: seq<JobId>, i: nat)
    requires i < |ids| && forall j :: j in ids ==> j in jobs && Active(jobs[j].status)
    ensures |Report(jobs, ids)| == |ids| && Report(jobs, ids)[i].job == ids[i]
    ensures jobs[ids[i]].status == Running ==> Report(jobs, ids)[i].kind == JobFailed(OwnershipLostOnRestart)
    ensures jobs[ids[i]].status == Cancelling ==> Report(jobs, ids)[i].kind == JobCancelled
  {}

  /** Two passes in a row: the second returns zeros and changes nothing. */
  method ReconcileTwice(server: Server) returns (failed: nat, cancelled: nat)
    requires server.Valid() && server.booting
    modifies server, server.coord
    ensures server.Valid() && failed == 0 && cancelled == 0
    ensures server.jobs == Reconciled(old(server.jobs)) && ActiveJobs(server.jobs) == {}
  {
    hide IsRun;
    ghost var jobs := server.jobs;
    failed, cancelled := ReconcileOrphanedBackfillJobs(server);
    RecoveryIsComplete(jobs);
    failed, cancelled := ReconcileOrphanedBackfillJobs(server);
  }

  /** What happens when a process dies and comes up again: before it serves calls, every RUNNING job
      has FAILED and every CANCELLING one is CANCELLED, each with its event, and nothing is left of
      the calls and of the coordinator's memory. */
  method RestartAndRecover(server: Server) returns (failed: nat, cancelled: nat)
    requires server.Valid()
    modifies server, server.coord
    ensures server.Valid() && !server.booting && old(server.states) <= server.states
    ensures server.jobs == Reconciled(old(server.jobs)) && ActiveJobs(server.jobs) == {}
    ensures failed == |WithStatus(old(server.jobs), Running)| && cancelled == |WithStatus(old(server.jobs), Cancelling)|
    ensures exists ids :: Ascending(ids) && (forall j :: j in ids <==> j in ActiveJobs(old(server.jobs)))
                          && server.log == old(server.log) + Report(old(server.jobs), ids)
    ensures server.threads == map[] && server.coord.ownedJobs == {}
  {
    hide IsRun, Reconciled, Report, Ascending;
    ghost var jobs := server.jobs;
    server.Restart();
    failed, cancelled := ReconcileOrphanedBackfillJobs(server);
    RecoveryIsComplete(jobs);
    NothingOwned(server);
    server.Serve();
  }
}
