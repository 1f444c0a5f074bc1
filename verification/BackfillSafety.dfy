/**
 Safety of the backfill service over every run: interleaved calls, raising operations, crashes,
 restarts and the startup reconciliation.
 */
module BackfillSafety {
  import opened Options
  import opened BackfillProgram
  import opened BackfillSystem
  import opened BackfillInvariant

  ghost predicate ThreadsInv(s: System) {
    forall t :: t in s.threads ==>
      var j := s.threads[t].job;
      j in s.jobs && LocalInv(ViewOf(s, j), Bodies(s, j), s.threads[t].pc)
  }

  ghost predicate PairsInv(s: System) {
    forall t, u :: t in s.threads && u in s.threads && t != u && s.threads[t].job == s.threads[u].job ==>
      PairInv(s.threads[t].pc, s.threads[u].pc)
  }

  /** One transaction at a time holds a stream's lock, and a start about to commit has seen no
      other active job that is still active. */
  ghost predicate LockInv(s: System) {
    && (forall t, u ::
        t in s.threads && u in s.threads && t != u && SameStream(s, s.threads[t].job, s.threads[u].job) ==>
          !(HoldsStream(s.threads[t].pc) && HoldsStream(s.threads[u].pc)))
    && (forall t :: t in s.threads && s.threads[t].pc == Start(StartCommit) && s.threads[t].job in s.jobs ==>
          !OthersActive(s.jobs, s.threads[t].job))
  }

  /** At most one job of a stream is RUNNING or CANCELLING. */
  ghost predicate OneActivePerStream(s: System) {
    forall i, j :: i in s.jobs && j in s.jobs && i != j && s.jobs[i].stream == s.jobs[j].stream ==>
      !(Active(s.jobs[i].status) && Active(s.jobs[j].status))
  }

  ghost predicate HasBody(s: System, t: ThreadId, j: JobId) {
    t in s.threads && s.threads[t].job == j && InBody(s.threads[t].pc)
  }

  /** Only a job with a worker in its body is owned; a job's body is entered at most once, and
      not before the job was started. */
  ghost predicate OwnerInv(s: System) {
    && (forall j :: j in s.owned ==> exists t :: HasBody(s, t, j))
    && (forall j: JobId :: Bodies(s, j) <= 1)
    && (forall j: JobId :: j !in s.jobs || s.jobs[j].status == Pending ==> Bodies(s, j) == 0)
  }

  ghost predicate NobodyOwes(s: System, j: JobId) {
    forall t :: !OwesFor(s, t, j)
  }

  /** The event log leads to the stored status, up to the one event that is owed or was lost. */
  ghost predicate LogTells(s: System, j: JobId, told: Status)
    requires j in s.jobs
  {
    && (forall t :: OwesFor(s, t, j) ==> s.jobs[j].status == Advance(told, Owed(s.threads[t].pc).value))
    && (NobodyOwes(s, j) ==> s.jobs[j].status == if j in s.lost then Advance(told, s.lost[j]) else told)
  }

  ghost predicate LogInv(s: System) {
    && (forall j :: j in s.jobs ==> LogTells(s, j, Fold(s.log, j)))
    && (forall i :: 0 <= i < |s.log| ==> s.log[i].job in s.jobs)
  }

  /** An event is lost only for a terminal job, whose worker has nothing left to tell. */
  ghost predicate LostInv(s: System) {
    && (forall j :: j in s.lost ==> j in s.jobs && Terminal(s.jobs[j].status))
    && (forall t :: t in s.threads && s.threads[t].job in s.lost && WorkerSide(s.threads[t].pc) ==>
        s.threads[t].pc.Release?)
  }

  ghost predicate Inv(s: System) {
    && ThreadsInv(s)
    && PairsInv(s)
    && LockInv(s)
    && OneActivePerStream(s)
    && OwnerInv(s)
    && LogInv(s)
    && LostInv(s)
    && (s.booting ==> s.threads == map[])
  }

  // ---- One operation of one thread -----------------------------------------------------------

  /** Thread `t` may perform an operation with effect `e`. */
  ghost predicate Allowed(s: System, t: ThreadId, e: Effect)
    requires ThreadsInv(s) && t in s.threads
  {
    var j, p := s.threads[t].job, s.threads[t].pc;
    && Establishes(ViewOf(s, j), Bodies(s, j), p, e)
    && Respects(ViewOf(s, j), p, e)
    && (forall u :: u in s.threads && u != t && s.threads[u].job == j ==> Guarded(p, e, s.threads[u].pc))
    && (TakesStream(p) && e.next.Some? && HoldsStream(e.next.value) ==>
          forall u :: u in s.threads && u != t && SameStream(s, s.threads[u].job, j) ==> !HoldsStream(s.threads[u].pc))
  }

  lemma ThreadStep(s: System, t: ThreadId, e: Effect, u: ThreadId)
    requires ThreadsInv(s) && PairsInv(s) && t in s.threads && Allowed(s, t, e)
    requires u in Apply(s, t, e).threads
    ensures var s2 := Apply(s, t, e);
            var i := s2.threads[u].job;
            i in s2.jobs && LocalInv(ViewOf(s2, i), Bodies(s2, i), s2.threads[u].pc)
  {
    hide PairInv, EventsOf, LocalInv, SawRunning, InBody, HoldsRow, HoldsStream, TakesRow, TakesStream, StatusStep,
      OthersActive, Establishes, Respects, Guarded;
    var j, p := s.threads[t].job, s.threads[t].pc;
    var s2 := Apply(s, t, e);
    var v, b := ViewOf(s, j), Bodies(s, j);
    var i, q := s2.threads[u].job, s2.threads[u].pc;
    if u == t {
      NextHolds(v, b, p, e);
      Unmoved(AfterView(v, e), AfterBodies(b, e), ViewOf(s2, i), q);
    } else if i == j {
      Guarantee(v, b, p, q, e);
      Stable(v, b, AfterView(v, e), AfterBodies(b, e), q);
      Unmoved(AfterView(v, e), AfterBodies(b, e), ViewOf(s2, i), q);
    } else {
      Unmoved(ViewOf(s, i), Bodies(s, i), ViewOf(s2, i), q);
    }
  }

  lemma ThreadsStep(s: System, t: ThreadId, e: Effect)
    requires ThreadsInv(s) && PairsInv(s) && t in s.threads && Allowed(s, t, e)
    ensures ThreadsInv(Apply(s, t, e))
  {
    var s2 := Apply(s, t, e);
    forall u | u in s2.threads
      ensures var i := s2.threads[u].job; i in s2.jobs && LocalInv(ViewOf(s2, i), Bodies(s2, i), s2.threads[u].pc)
    {
      ThreadStep(s, t, e, u);
    }
  }

  lemma PairsStep(s: System, t: ThreadId, e: Effect)
    requires ThreadsInv(s) && PairsInv(s) && t in s.threads && Allowed(s, t, e)
    ensures PairsInv(Apply(s, t, e))
  {
    var j, p := s.threads[t].job, s.threads[t].pc;
    var v, b := ViewOf(s, j), Bodies(s, j);
    if e.next.Some? {
      forall u | u in s.threads && u != t && s.threads[u].job == j
        ensures PairInv(e.next.value, s.threads[u].pc) && PairInv(s.threads[u].pc, e.next.value)
      {
        PairStep(v, b, p, s.threads[u].pc, e);
      }
    }
  }

  /** A job becomes active only when its start commits. */
  lemma Activates(s: System, t: ThreadId, e: Effect, i: JobId)
    requires ThreadsInv(s) && t in s.threads && Allowed(s, t, e) && i in s.jobs
    ensures i in Apply(s, t, e).jobs && Apply(s, t, e).jobs[i].stream == s.jobs[i].stream
    ensures Active(Apply(s, t, e).jobs[i].status) ==>
              Active(s.jobs[i].status) || (i == s.threads[t].job && s.threads[t].pc == Start(StartCommit))
  {}

  lemma ActiveStep(s: System, t: ThreadId, e: Effect)
    requires ThreadsInv(s) && LockInv(s) && OneActivePerStream(s) && t in s.threads && Allowed(s, t, e)
    ensures OneActivePerStream(Apply(s, t, e))
  {
    var s2 := Apply(s, t, e);
    forall i, j | i in s2.jobs && j in s2.jobs && i != j && s2.jobs[i].stream == s2.jobs[j].stream
      ensures !(Active(s2.jobs[i].status) && Active(s2.jobs[j].status))
    {
      Activates(s, t, e, i);
      Activates(s, t, e, j);
    }
  }

  lemma LocksStep(s: System, t: ThreadId, e: Effect)
    requires ThreadsInv(s) && LockInv(s) && t in s.threads && Allowed(s, t, e)
    ensures LockInv(Apply(s, t, e))
  {
    var j, p := s.threads[t].job, s.threads[t].pc;
    var s2 := Apply(s, t, e);
    forall i | i in s2.jobs ensures s2.jobs[i].stream == s.jobs[i].stream {}
    forall u, w | u in s2.threads && w in s2.threads && u != w && SameStream(s2, s2.threads[u].job, s2.threads[w].job)
      ensures !(HoldsStream(s2.threads[u].pc) && HoldsStream(s2.threads[w].pc))
    {
      assert SameStream(s, s.threads[u].job, s.threads[w].job) && SameStream(s, s.threads[w].job, s.threads[u].job);
    }
    forall u | u in s2.threads && s2.threads[u].pc == Start(StartCommit)
      ensures !OthersActive(s2.jobs, s2.threads[u].job)
    {
      CommitStep(s, t, e, u);
    }
  }

  lemma CommitStep(s: System, t: ThreadId, e: Effect, u: ThreadId)
    requires ThreadsInv(s) && LockInv(s) && t in s.threads && Allowed(s, t, e)
    requires u in Apply(s, t, e).threads && Apply(s, t, e).threads[u].pc == Start(StartCommit)
    requires Apply(s, t, e).threads[u].job in Apply(s, t, e).jobs
    ensures !OthersActive(Apply(s, t, e).jobs, Apply(s, t, e).threads[u].job)
  {
    var s2 := Apply(s, t, e);
    var k := s2.threads[u].job;
    forall i | i in s2.jobs && i != k && s2.jobs[i].stream == s2.jobs[k].stream
      ensures !Active(s2.jobs[i].status)
    {
      Activates(s, t, e, i);
      if i == s.threads[t].job { assert SameStream(s, s.threads[t].job, k); }
    }
  }

  lemma OwnersStep(s: System, t: ThreadId, e: Effect)
    requires ThreadsInv(s) && OwnerInv(s) && t in s.threads && Allowed(s, t, e)
    ensures OwnerInv(Apply(s, t, e))
  {
    var s2 := Apply(s, t, e);
    forall j | j in s2.owned
      ensures exists u :: HasBody(s2, u, j)
    {
      if j !in s.owned {
        assert HasBody(s2, t, j);
      } else {
        var u :| HasBody(s, u, j);
        assert HasBody(s2, u, j);
      }
    }
    BodiesStep(s, t, e);
  }

  lemma BodiesStep(s: System, t: ThreadId, e: Effect)
    requires ThreadsInv(s) && OwnerInv(s) && t in s.threads && Allowed(s, t, e)
    ensures forall j: JobId :: Bodies(Apply(s, t, e), j) <= 1
    ensures forall j: JobId :: j !in Apply(s, t, e).jobs || Apply(s, t, e).jobs[j].status == Pending ==>
              Bodies(Apply(s, t, e), j) == 0
  {
    var j := s.threads[t].job;
    var s2 := Apply(s, t, e);
    assert LocalInv(ViewOf(s, j), Bodies(s, j), s.threads[t].pc);
    assert Bodies(s2, j) == AfterBodies(Bodies(s, j), e);
    forall i: JobId | i != j ensures Bodies(s2, i) == Bodies(s, i) {}
  }

  // ---- The event log -------------------------------------------------------------------------

  lemma {:induction false} FoldAppend(log: seq<Event>, j: JobId, kinds: seq<EventKind>, i: JobId)
    ensures Fold(log + EventsOf(j, kinds), i) == if i == j then AdvanceAll(Fold(log, i), kinds) else Fold(log, i)
    decreases |kinds|
  {
    if kinds == [] {
      assert log + EventsOf(j, kinds) == log;
    } else {
      var first := log + [Event(j, kinds[0])];
      assert first[..|log|] == log;
      assert log + EventsOf(j, kinds) == first + EventsOf(j, kinds[1..]);
      FoldAppend(first, j, kinds[1..], i);
    }
  }

  /** At most one thread owes an event for a job: its worker. */
  lemma OneOwes(s: System, t: ThreadId, j: JobId)
    requires ThreadsInv(s) && PairsInv(s) && OwesFor(s, t, j)
    ensures Terminal(s.jobs[j].status) && WorkerSide(s.threads[t].pc)
    ensures forall u :: u in s.threads && u != t && s.threads[u].job == j ==> !WorkerSide(s.threads[u].pc)
    ensures forall u :: OwesFor(s, u, j) ==> u == t
  {
    Basics(ViewOf(s, j), Bodies(s, j), s.threads[t].pc);
    forall u | OwesFor(s, u, j) ensures u == t {
      Basics(ViewOf(s, j), Bodies(s, j), s.threads[u].pc);
    }
  }

  /** The told status of the job before and after an operation of a thread that owed its event,
      or found the log and the row in agreement. */
  lemma PlainStep(v: View, p: Pc, e: Effect, told: Status)
    requires Tells(v, p, e)
    requires v.status == if Owed(p).Some? then Advance(told, Owed(p).value) else told
    ensures AfterView(v, e).status ==
              if Owes(e.next) then Advance(AdvanceAll(told, e.events), Owed(e.next.value).value)
              else AdvanceAll(told, e.events)
  {
    if Owed(p).Some? {
      assert e.events[1..] == [];
    }
  }

  /** ... and of a thread that met a terminal row which the log still had to catch up with. */
  lemma QuietStep(v: View, p: Pc, e: Effect, told: Status)
    requires Tells(v, p, e) && (p.Release? || (!WorkerSide(p) && Terminal(v.status)))
    ensures e.write == None && AdvanceAll(told, e.events) == told && !Owes(e.next)
  {
    if e.events == [JobCreated] { assert e.events[1..] == []; }
  }

  lemma OwesAfter(s: System, t: ThreadId, e: Effect, u: ThreadId, i: JobId)
    requires t in s.threads && s.threads[t].job in s.jobs
    ensures OwesFor(Apply(s, t, e), u, i) <==>
              if u == t then i == s.threads[t].job && Owes(e.next) else OwesFor(s, u, i)
  {}

  lemma LogStepSame(s: System, t: ThreadId, e: Effect, told: Status)
    requires ThreadsInv(s) && PairsInv(s) && t in s.threads
    requires s.threads[t].job in s.lost ==>
      && Terminal(s.jobs[s.threads[t].job].status)
      && (WorkerSide(s.threads[t].pc) ==> s.threads[t].pc.Release?)
    requires Tells(ViewOf(s, s.threads[t].job), s.threads[t].pc, e)
    requires LogTells(s, s.threads[t].job, told)
    ensures LogTells(Apply(s, t, e), s.threads[t].job, AdvanceAll(told, e.events))
  {
    hide LocalInv, PairInv, OthersActive;
    var j, p := s.threads[t].job, s.threads[t].pc;
    var s2 := Apply(s, t, e);
    var v := ViewOf(s, j);
    assert s2.jobs[j].status == AfterView(v, e).status;
    forall u ensures OwesFor(s2, u, j) <==> if u == t then Owes(e.next) else OwesFor(s, u, j) {
      OwesAfter(s, t, e, u, j);
    }
    if Owed(p).Some? {
      assert OwesFor(s, t, j);
      OneOwes(s, t, j);
      PlainStep(v, p, e, told);
    } else if u :| OwesFor(s, u, j) {
      OneOwes(s, u, j);
      QuietStep(v, p, e, told);
    } else if j in s.lost {
      QuietStep(v, p, e, told);
    } else {
      PlainStep(v, p, e, told);
    }
  }

  lemma LogStepOther(s: System, t: ThreadId, e: Effect, i: JobId, told: Status)
    requires t in s.threads && s.threads[t].job in s.jobs && i in s.jobs && LogTells(s, i, told)
    requires i != s.threads[t].job
    ensures LogTells(Apply(s, t, e), i, told)
  {
    forall u ensures OwesFor(Apply(s, t, e), u, i) <==> OwesFor(s, u, i) {
      OwesAfter(s, t, e, u, i);
    }
  }

  lemma LogStep(s: System, t: ThreadId, e: Effect)
    requires ThreadsInv(s) && PairsInv(s) && LogInv(s) && LostInv(s) && t in s.threads
    requires Tells(ViewOf(s, s.threads[t].job), s.threads[t].pc, e)
    ensures LogInv(Apply(s, t, e))
  {
    hide LogTells, Tells, LocalInv, PairInv, LostInv, Fold;
    var s2 := Apply(s, t, e);
    forall i | i in s2.jobs ensures LogTells(s2, i, Fold(s2.log, i)) {
      LogStepAt(s, t, e, i, Fold(s.log, i));
      FoldAppend(s.log, s.threads[t].job, e.events, i);
    }
  }

  lemma LogStepAt(s: System, t: ThreadId, e: Effect, i: JobId, told: Status)
    requires ThreadsInv(s) && PairsInv(s) && LostInv(s) && t in s.threads && i in s.jobs
    requires Tells(ViewOf(s, s.threads[t].job), s.threads[t].pc, e)
    requires LogTells(s, i, told)
    ensures LogTells(Apply(s, t, e), i, if i == s.threads[t].job then AdvanceAll(told, e.events) else told)
  {
    if i == s.threads[t].job {
      LogStepSame(s, t, e, told);
    } else {
      LogStepOther(s, t, e, i, told);
    }
  }

  lemma LostStep(s: System, t: ThreadId, e: Effect)
    requires ThreadsInv(s) && PairsInv(s) && LostInv(s) && t in s.threads && Allowed(s, t, e)
    ensures LostInv(Apply(s, t, e))
  {
    var j, p := s.threads[t].job, s.threads[t].pc;
    assert LocalInv(ViewOf(s, j), Bodies(s, j), p);
  }

  // ---- Every step keeps the invariant ---------------------------------------------------------

  lemma ApplyStep(s: System, t: ThreadId, e: Effect)
    requires Inv(s) && !s.booting && t in s.threads && Allowed(s, t, e)
    ensures var s2 := Apply(s, t, e);
      ThreadsInv(s2) && PairsInv(s2) && LockInv(s2) && OneActivePerStream(s2) && OwnerInv(s2) && LostInv(s2)
  {
    ThreadsStep(s, t, e);
    PairsStep(s, t, e);
    LocksStep(s, t, e);
    ActiveStep(s, t, e);
    OwnersStep(s, t, e);
    LostStep(s, t, e);
  }

  lemma RunKeeps(s: System, t: ThreadId, oracle: Oracle)
    requires Inv(s) && CanStep(s, t)
    ensures Inv(StepThread(s, t, oracle))
  {
    var j, p := s.threads[t].job, s.threads[t].pc;
    var v, b := ViewOf(s, j), Bodies(s, j);
    var e := Perform(v, p, oracle);
    EstablishesStep(v, b, p, oracle);
    KeepsStep(v, b, p, oracle);
    ApplyStep(s, t, e);
    LogStep(s, t, e);
  }

  lemma AbortSound(v: View, bodies: nat, p: Pc)
    requires LocalInv(v, bodies, p)
    ensures Establishes(v, bodies, p, Abort(p)) && Respects(v, p, Abort(p)) && !Owes(Abort(p).next)
  {}

  lemma AbortOwesNothing(p: Pc)
    ensures Abort(p).write == None && Abort(p).events == [] && !Owes(Abort(p).next)
  {}

  lemma RaiseKeeps(s: System, t: ThreadId)
    requires Inv(s) && Live(s, t)
    ensures Inv(AbortThread(s, t))
  {
    hide LocalInv, Establishes, Respects, LogTells, PairInv;
    var j, p := s.threads[t].job, s.threads[t].pc;
    var e := Abort(p);
    AbortSound(ViewOf(s, j), Bodies(s, j), p);
    ApplyStep(s, t, e);
    AbortLost(s, t);
    AbortLog(s, t);
    LostIsHistory(Apply(s, t, e), AbortThread(s, t).lost);
  }

  /** No other part of the invariant looks at the lost events. */
  lemma LostIsHistory(s: System, lost: map<JobId, EventKind>)
    requires ThreadsInv(s) && PairsInv(s) && LockInv(s) && OneActivePerStream(s) && OwnerInv(s)
    ensures var s2 := s.(lost := lost);
      ThreadsInv(s2) && PairsInv(s2) && LockInv(s2) && OneActivePerStream(s2) && OwnerInv(s2)
  {
    var s2 := s.(lost := lost);
    forall t | t in s2.threads
      ensures var j := s2.threads[t].job; j in s2.jobs && LocalInv(ViewOf(s2, j), Bodies(s2, j), s2.threads[t].pc)
    {
      var j := s.threads[t].job;
      assert ViewOf(s2, j) == ViewOf(s, j) && Bodies(s2, j) == Bodies(s, j);
    }
    assert forall t, j :: HasBody(s2, t, j) == HasBody(s, t, j);
    forall j: JobId ensures Bodies(s2, j) == Bodies(s, j) {}
  }

  lemma AbortLog(s: System, t: ThreadId)
    requires ThreadsInv(s) && PairsInv(s) && LogInv(s) && t in s.threads
    ensures LogInv(AbortThread(s, t))
  {
    var s2 := AbortThread(s, t);
    assert s2.log == s.log;
    forall i | i in s2.jobs ensures LogTells(s2, i, Fold(s2.log, i)) {
      AbortLogAt(s, t, i, Fold(s.log, i));
    }
  }

  lemma AbortOwes(s: System, t: ThreadId, u: ThreadId, i: JobId)
    requires t in s.threads && s.threads[t].job in s.jobs
    ensures OwesFor(AbortThread(s, t), u, i) <==> u != t && OwesFor(s, u, i)
  {
    hide Abort;
    AbortOwesNothing(s.threads[t].pc);
    OwesAfter(s, t, Abort(s.threads[t].pc), u, i);
  }

  lemma AbortLogAt(s: System, t: ThreadId, i: JobId, told: Status)
    requires ThreadsInv(s) && PairsInv(s) && t in s.threads && i in s.jobs && LogTells(s, i, told)
    ensures LogTells(AbortThread(s, t), i, told)
  {
    hide PairsInv, LocalInv, PairInv, Abort, OwesFor, Advance, Terminal, WorkerSide;
    var s2 := AbortThread(s, t);
    var owed := Owed(s.threads[t].pc);
    AbortChangesNoRow(s, t);
    forall u ensures OwesFor(s2, u, i) <==> u != t && OwesFor(s, u, i) {
      AbortOwes(s, t, u, i);
    }
    if i == s.threads[t].job && owed.Some? {
      assert OwesFor(s, t, i) by { OwesNow(s, t); }
      OneOwes(s, t, i);
    } else {
      assert !OwesFor(s, t, i) by { OwesNow(s, t); }
      forall u | OwesFor(s, u, i) ensures u in s.threads && u in s2.threads && s2.threads[u] == s.threads[u] {
        OwesThread(s, u, i);
      }
    }
  }

  lemma OwesNow(s: System, t: ThreadId)
    requires t in s.threads
    ensures forall i :: OwesFor(s, t, i) <==> i == s.threads[t].job && Owed(s.threads[t].pc).Some?
  {}

  lemma OwesThread(s: System, u: ThreadId, i: JobId)
    requires OwesFor(s, u, i)
    ensures u in s.threads
  {}

  lemma AbortChangesNoRow(s: System, t: ThreadId)
    requires t in s.threads && s.threads[t].job in s.jobs
    ensures var s2, owed := AbortThread(s, t), Owed(s.threads[t].pc);
      s2.jobs == s.jobs && s2.lost == (if owed.Some? then s.lost[s.threads[t].job := owed.value] else s.lost)
      && forall u :: u in s.threads && u != t ==> u in s2.threads && s2.threads[u] == s.threads[u]
  {
    AbortOwesNothing(s.threads[t].pc);
  }

  lemma AbortLost(s: System, t: ThreadId)
    requires ThreadsInv(s) && PairsInv(s) && LostInv(s) && t in s.threads
    requires LostInv(Apply(s, t, Abort(s.threads[t].pc)))
    ensures LostInv(AbortThread(s, t))
  {
    var j, p := s.threads[t].job, s.threads[t].pc;
    if Owed(p).Some? {
      assert OwesFor(s, t, j);
      OneOwes(s, t, j);
    }
  }

  /** A crash turns what was owed into what is lost. */
  lemma CrashKeeps(s: System)
    requires Inv(s)
    ensures Inv(Restart(s))
  {
    var s2 := Restart(s);
    forall j: JobId ensures Bodies(s2, j) == Bodies(s, j) {}
    assert forall t, j :: !OwesFor(s2, t, j);
    forall j | j in s2.jobs ensures LogTells(s2, j, Fold(s2.log, j)) {
      CrashTells(s, j, Fold(s.log, j));
    }
    forall j | j in s2.lost ensures j in s2.jobs && Terminal(s2.jobs[j].status) {
      if t :| OwesFor(s, t, j) {
        OneOwes(s, t, j);
      }
    }
  }

  lemma CrashTells(s: System, j: JobId, told: Status)
    requires j in s.jobs && LogTells(s, j, told)
    ensures LogTells(Restart(s), j, told)
  {
    var s2 := Restart(s);
    if t :| OwesFor(s, t, j) {
      assert j in s2.lost && s2.lost[j] == LostAt(s, j);
    } else {
      assert NobodyOwes(s, j) && (j in s2.lost <==> j in s.lost);
    }
  }

  lemma ReconcileLog(s: System, j: JobId)
    requires LogInv(s) && s.threads == map[] && j in s.jobs && j !in s.lost && Active(s.jobs[j].status)
    ensures LogInv(ReconcileJob(s, j))
  {
    var s2 := ReconcileJob(s, j);
    var kinds := [ReconcileEvent(s.jobs[j].status)];
    assert s2.log == s.log + EventsOf(j, kinds);
    forall i | i in s2.jobs ensures LogTells(s2, i, Fold(s2.log, i)) {
      FoldAppend(s.log, j, kinds, i);
      ReconcileTells(s, j, i, Fold(s.log, i));
    }
  }

  lemma ReconcileTells(s: System, j: JobId, i: JobId, told: Status)
    requires s.threads == map[] && j in s.jobs && j !in s.lost && Active(s.jobs[j].status) && i in s.jobs
    requires LogTells(s, i, told)
    ensures LogTells(ReconcileJob(s, j), i, if i == j then AdvanceAll(told, [ReconcileEvent(s.jobs[j].status)])
        else told)
  {
    assert [ReconcileEvent(s.jobs[j].status)][1..] == [];
    assert NobodyOwes(s, i) && NobodyOwes(ReconcileJob(s, j), i);
  }

  lemma ReconcileKeeps(s: System, j: JobId)
    requires Inv(s) && s.booting && j in s.jobs && Active(s.jobs[j].status)
    ensures Inv(ReconcileJob(s, j))
  {
    hide LogInv, LocalInv, PairInv;
    var s2 := ReconcileJob(s, j);
    forall i: JobId ensures Bodies(s2, i) == Bodies(s, i) {}
    assert forall t, i :: !HasBody(s, t, i);
    assert s.owned == {};
    ReconcileLog(s, j);
  }

  /** A new call relies on nothing yet. */
  lemma CallKeeps(s: System, t: ThreadId, j: JobId, p: Pc)
    requires Inv(s) && !s.booting && t !in s.threads && j in s.jobs
    requires p == Start(StartAcquire) || p == Cancel(CancelProbe) || p == CreateEvent
    ensures Inv(s.(threads := s.threads[t := Thread(j, p)]))
  {
    hide LogInv, ThreadsInv, PairsInv, LockInv;
    var s2 := s.(threads := s.threads[t := Thread(j, p)]);
    CallThreads(s, t, j, p);
    forall i: JobId ensures Bodies(s2, i) == Bodies(s, i) {}
    forall i | i in s2.owned ensures exists u :: HasBody(s2, u, i) {
      var u :| HasBody(s, u, i);
      assert HasBody(s2, u, i);
    }
    CallLog(s, t, j, p);
  }

  lemma CallThreads(s: System, t: ThreadId, j: JobId, p: Pc)
    requires ThreadsInv(s) && PairsInv(s) && LockInv(s) && t !in s.threads && j in s.jobs
    requires s.jobs[j].status == Pending ==> Bodies(s, j) == 0
    requires p == Start(StartAcquire) || p == Cancel(CancelProbe) || p == CreateEvent
    ensures var s2 := s.(threads := s.threads[t := Thread(j, p)]); ThreadsInv(s2) && PairsInv(s2) && LockInv(s2)
  {
    hide *;
    CallLocal(s, t, j, p);
    CallPairs(s, t, j, p);
    CallLocks(s, t, j, p);
  }

  lemma CallLocal(s: System, t: ThreadId, j: JobId, p: Pc)
    requires ThreadsInv(s) && t !in s.threads && j in s.jobs
    requires s.jobs[j].status == Pending ==> Bodies(s, j) == 0
    requires p == Start(StartAcquire) || p == Cancel(CancelProbe) || p == CreateEvent
    ensures ThreadsInv(s.(threads := s.threads[t := Thread(j, p)]))
  {
    var s2 := s.(threads := s.threads[t := Thread(j, p)]);
    assert LocalInv(ViewOf(s2, j), Bodies(s2, j), p);
    hide LocalInv;
    forall u | u in s2.threads
      ensures var i := s2.threads[u].job; i in s2.jobs && LocalInv(ViewOf(s2, i), Bodies(s2, i), s2.threads[u].pc)
    {
      if u != t { assert ViewOf(s2, s.threads[u].job) == ViewOf(s, s.threads[u].job); }
    }
  }

  lemma CallPairs(s: System, t: ThreadId, j: JobId, p: Pc)
    requires PairsInv(s) && t !in s.threads
    requires p == Start(StartAcquire) || p == Cancel(CancelProbe) || p == CreateEvent
    ensures PairsInv(s.(threads := s.threads[t := Thread(j, p)]))
  {}

  lemma CallLocks(s: System, t: ThreadId, j: JobId, p: Pc)
    requires LockInv(s) && t !in s.threads
    requires p == Start(StartAcquire) || p == Cancel(CancelProbe) || p == CreateEvent
    ensures LockInv(s.(threads := s.threads[t := Thread(j, p)]))
  {}

  lemma CallLog(s: System, t: ThreadId, j: JobId, p: Pc)
    requires LogInv(s) && t !in s.threads && Owed(p).None?
    ensures LogInv(s.(threads := s.threads[t := Thread(j, p)]))
  {
    var s2 := s.(threads := s.threads[t := Thread(j, p)]);
    assert s2.log == s.log;
    forall i | i in s2.jobs ensures LogTells(s2, i, Fold(s2.log, i)) {
      CallTells(s, t, j, p, i, Fold(s.log, i));
    }
  }

  lemma CallTells(s: System, t: ThreadId, j: JobId, p: Pc, i: JobId, told: Status)
    requires t !in s.threads && Owed(p).None? && i in s.jobs && LogTells(s, i, told)
    ensures LogTells(s.(threads := s.threads[t := Thread(j, p)]), i, told)
  {
    var s2 := s.(threads := s.threads[t := Thread(j, p)]);
    forall u ensures OwesFor(s2, u, i) <==> OwesFor(s, u, i) {}
  }

  lemma {:induction false} FoldUnmentioned(log: seq<Event>, j: JobId)
    requires forall i :: 0 <= i < |log| ==> log[i].job != j
    ensures Fold(log, j) == Pending
  {
    if log != [] { FoldUnmentioned(log[..|log| - 1], j); }
  }

  lemma InsertLog(s: System, j: JobId, job: Job)
    requires LogInv(s) && LostInv(s) && j !in s.jobs && job.status == Pending
    requires forall t :: t in s.threads ==> s.threads[t].job != j
    ensures LogInv(s.(jobs := s.jobs[j := job]))
  {
    var s2 := s.(jobs := s.jobs[j := job]);
    assert s2.log == s.log;
    forall i | i in s2.jobs ensures LogTells(s2, i, Fold(s2.log, i)) {
      assert forall u :: OwesFor(s2, u, i) == OwesFor(s, u, i);
      if i == j {
        FoldUnmentioned(s.log, j);
      } else {
        assert LogTells(s, i, Fold(s.log, i));
      }
    }
  }

  lemma InsertThread(s: System, j: JobId, job: Job, u: ThreadId)
    requires ThreadsInv(s) && j !in s.jobs && job.status == Pending && u in s.threads
    ensures var s2, i := s.(jobs := s.jobs[j := job]), s.threads[u].job;
      i in s2.jobs && LocalInv(ViewOf(s2, i), Bodies(s2, i), s2.threads[u].pc)
  {
    var s2, i := s.(jobs := s.jobs[j := job]), s.threads[u].job;
    Stable(ViewOf(s, i), Bodies(s, i), ViewOf(s2, i), Bodies(s2, i), s.threads[u].pc);
  }

  lemma InsertThreads(s: System, j: JobId, job: Job)
    requires ThreadsInv(s) && LockInv(s) && OneActivePerStream(s) && j !in s.jobs && job.status == Pending
    ensures var s2 := s.(jobs := s.jobs[j := job]); ThreadsInv(s2) && LockInv(s2) && OneActivePerStream(s2)
  {
    hide LocalInv, LockInv, OneActivePerStream;
    var s2 := s.(jobs := s.jobs[j := job]);
    forall u | u in s2.threads
      ensures var i := s2.threads[u].job; i in s2.jobs && LocalInv(ViewOf(s2, i), Bodies(s2, i), s2.threads[u].pc)
    {
      InsertThread(s, j, job, u);
    }
    InsertLocks(s, j, job);
  }

  lemma InsertLocks(s: System, j: JobId, job: Job)
    requires ThreadsInv(s) && LockInv(s) && OneActivePerStream(s) && j !in s.jobs && job.status == Pending
    ensures var s2 := s.(jobs := s.jobs[j := job]); LockInv(s2) && OneActivePerStream(s2)
  {
    hide LocalInv, HoldsStream, HoldsRow;
    var s2 := s.(jobs := s.jobs[j := job]);
    forall i | i in s.jobs && !OthersActive(s.jobs, i) ensures !OthersActive(s2.jobs, i) {}
  }

  lemma InsertKeeps(s: System, j: JobId, job: Job)
    requires Inv(s) && !s.booting && j !in s.jobs && job.status == Pending
    ensures Inv(s.(jobs := s.jobs[j := job]))
  {
    hide LogInv, LockInv, LocalInv, OneActivePerStream, PairInv;
    var s2 := s.(jobs := s.jobs[j := job]);
    forall i: JobId ensures Bodies(s2, i) == Bodies(s, i) {}
    assert forall t, i :: HasBody(s2, t, i) == HasBody(s, t, i);
    InsertThreads(s, j, job);
    InsertLog(s, j, job);
  }

  lemma StepKeeps(s: System, l: Label, s2: System)
    requires Inv(s) && Step(s, l, s2)
    ensures Inv(s2)
  {
    match l
    case Create(t, j, job) =>
      InsertKeeps(s, j, job);
      CallKeeps(s.(jobs := s.jobs[j := job]), t, j, CreateEvent);
    case CallStart(t, j) => CallKeeps(s, t, j, Start(StartAcquire));
    case CallCancel(t, j) => CallKeeps(s, t, j, Cancel(CancelProbe));
    case Run(t, oracle) => RunKeeps(s, t, oracle);
    case Raise(t) => RaiseKeeps(s, t);
    case Crash => CrashKeeps(s);
    case Reconcile(j) => ReconcileKeeps(s, j);
    case Serve => ServeKeeps(s);
  }

  lemma ServeKeeps(s: System)
    requires Inv(s) && s.booting
    ensures Inv(s.(booting := false))
  {
    var s2 := s.(booting := false);
    forall i: JobId ensures Bodies(s2, i) == Bodies(s, i) {}
    assert forall t, i :: HasBody(s2, t, i) == HasBody(s, t, i);
    forall i | i in s2.jobs ensures LogTells(s2, i, Fold(s2.log, i)) {
      assert LogTells(s, i, Fold(s.log, i));
      assert forall u :: OwesFor(s2, u, i) == OwesFor(s, u, i);
    }
  }
}
