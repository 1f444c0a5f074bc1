/**
 Two things one might expect of the backfill service that are not so, each with a run that shows
 it and the exact place where it can happen:

  - a live worker's job may be ended by somebody else: the finalizing cancel looks at the owner
    before it commits, and a worker may claim the job in between;
  - a cancel that was accepted (the job is CANCELLING) may still end in COMPLETED or FAILED: the
    worker stores its outcome over CANCELLING once it has passed its last check.
 */
module BackfillScenarios {
  import opened Options
  import opened BackfillProgram
  import opened BackfillSystem
  import opened BackfillInvariant
  import opened BackfillSafety
  import opened BackfillTheorems

  // ---- Runs in which nothing goes wrong around the service ---------------------------------------

  /** No operation raises, the process does not die, and loading the context does `loaded`. */
  predicate SmoothStep(s: System, l: Label, loaded: Oracle) {
    && !l.Raise? && !l.Crash?
    && (l.Run? && l.t in s.threads && s.threads[l.t].pc == Replay(ReplayLoadContext) ==> l.oracle == loaded)
  }

  ghost predicate SmoothRun(states: seq<System>, labels: seq<Label>, loaded: Oracle) {
    && |states| == |labels| + 1 && IsRun(states, labels) && states[0] == Empty
    && forall i :: 0 <= i < |labels| ==> SmoothStep(states[i], labels[i], loaded)
  }

  ghost predicate Smoothly(s: System, loaded: Oracle) {
    exists states, labels :: SmoothRun(states, labels, loaded) && states[|states| - 1] == s
  }

  lemma SmoothlyReachable(s: System, loaded: Oracle)
    requires Smoothly(s, loaded)
    ensures Reachable(s)
  {
    hide IsRun, SmoothStep;
    var states, labels :| SmoothRun(states, labels, loaded) && states[|states| - 1] == s;
  }

  lemma GoesSmoothly(s: System, l: Label, s2: System, loaded: Oracle)
    requires Smoothly(s, loaded) && Step(s, l, s2) && SmoothStep(s, l, loaded)
    ensures Smoothly(s2, loaded)
  {
    hide Step, IsRun, SmoothStep;
    var states, labels :| SmoothRun(states, labels, loaded) && states[|states| - 1] == s;
    RunExtends(states, labels, l, s2);
    var longer, more := states + [s2], labels + [l];
    forall i | 0 <= i < |more| ensures SmoothStep(longer[i], more[i], loaded) {
      if i < |labels| {
        assert SmoothStep(states[i], labels[i], loaded);
      }
    }
    assert SmoothRun(longer, more, loaded);
  }

  // ---- Scenes ------------------------------------------------------------------------------------

  /** One job (0) with this window and `dry_run_complete` mark, a call that creates and starts it, and
      one that cancels it; `loaded` is what loading the context does. */
  datatype Scene = Scene(
    window: Window,
    complete: bool,
    loaded: Oracle,
    status: Status,
    owned: bool,
    cancelRequested: bool,
    begun: bool,
    starter: Option<Pc>,
    canceller: Option<Pc>)

  function SceneView(sc: Scene): View {
    View(sc.status, sc.window, sc.complete, sc.owned, sc.cancelRequested, false)
  }

  function Threads(sc: Scene): map<ThreadId, Thread> {
    var none: map<ThreadId, Thread> := map[];
    var a := if sc.starter.Some? then none[0 := Thread(0, sc.starter.value)] else none;
    if sc.canceller.Some? then a[1 := Thread(0, sc.canceller.value)] else a
  }

  /** The state shows the scene; the log may be anything. */
  ghost predicate Shows(s: System, sc: Scene) {
    && s.jobs == map[0 := Job(0, sc.status, sc.window, sc.complete)]
    && s.owned == (if sc.owned then {0} else {})
    && s.cancelRequested == (if sc.cancelRequested then {0} else {})
    && s.threads == Threads(sc)
    && !s.booting
    && Bodies(s, 0) == if sc.begun then 1 else 0
  }

  ghost predicate Possible(sc: Scene) {
    exists s :: Smoothly(s, sc.loaded) && Shows(s, sc)
  }

  function After(sc: Scene, e: Effect): Scene {
    sc.(status := if e.write.Some? then e.write.value else sc.status,
        owned := (match e.owner case KeepOwner => sc.owned case TakeOwner => true case DropOwner => false),
        cancelRequested :=
          (match e.cancel case KeepCancel => sc.cancelRequested case Request => true case Discard => false),
        begun := sc.begun || e.beginsBody)
  }

  predicate Locks(p: Option<Pc>) {
    p.Some? && (HoldsStream(p.value) || HoldsRow(p.value))
  }

  /** Thread `t` need not wait for what the thread at `other` holds. */
  predicate Free(pc: Pc, other: Option<Pc>) {
    (TakesStream(pc) || TakesRow(pc)) ==> !Locks(other)
  }

  lemma ShowsStarter(s: System, sc: Scene, e: Effect)
    requires Shows(s, sc) && sc.starter.Some? && (e.beginsBody ==> !sc.begun)
    ensures Shows(Apply(s, 0, e), After(sc, e).(starter := e.next))
  {
    hide ViewOf, OthersActive, EventsOf;
    var s2, sc2 := Apply(s, 0, e), After(sc, e).(starter := e.next);
    assert s2.threads == Threads(sc2) by { hide Bodies; }
    assert s2.jobs == map[0 := Job(0, sc2.status, sc.window, sc.complete)] by { hide Bodies, Threads; }
  }

  lemma ShowsCanceller(s: System, sc: Scene, e: Effect)
    requires Shows(s, sc) && sc.canceller.Some? && !e.beginsBody
    ensures Shows(Apply(s, 1, e), After(sc, e).(canceller := e.next))
  {}

  lemma Unhindered(s: System, sc: Scene)
    requires Shows(s, sc)
    ensures ViewOf(s, 0) == SceneView(sc)
    ensures sc.starter.Some? && Free(sc.starter.value, sc.canceller) ==> CanStep(s, 0)
    ensures sc.canceller.Some? && Free(sc.canceller.value, sc.starter) ==> CanStep(s, 1)
  {}

  /** The starting call performs its next operation. */
  lemma Starts(sc: Scene, oracle: Oracle) returns (sc2: Scene)
    requires Possible(sc) && sc.starter.Some? && Free(sc.starter.value, sc.canceller)
    requires sc.starter == Some(Load) ==> !sc.begun
    requires sc.starter == Some(Replay(ReplayLoadContext)) ==> oracle == sc.loaded
    ensures var e := Perform(SceneView(sc), sc.starter.value, oracle);
            sc2 == After(sc, e).(starter := e.next)
    ensures Possible(sc2)
  {
    hide Perform, Smoothly, Apply, Unblocked, After, Free;
    var s :| Smoothly(s, sc.loaded) && Shows(s, sc);
    var e := Perform(SceneView(sc), sc.starter.value, oracle);
    sc2 := After(sc, e).(starter := e.next);
    Unhindered(s, sc);
    BeginsAtLoad(SceneView(sc), sc.starter.value, oracle);
    ShowsStarter(s, sc, e);
    SceneKeeps(sc, e);
    RunStep(s, 0, oracle);
    GoesSmoothly(s, Run(0, oracle), StepThread(s, 0, oracle), sc.loaded);
  }

  /** The cancelling call performs its next operation. */
  lemma Cancels(sc: Scene) returns (sc2: Scene)
    requires Possible(sc) && sc.canceller.Some? && Free(sc.canceller.value, sc.starter) 
    requires sc.canceller != Some(Load) && sc.canceller != Some(Replay(ReplayLoadContext))
    ensures var e := Perform(SceneView(sc), sc.canceller.value, Raises);
            sc2 == After(sc, e).(canceller := e.next)
    ensures Possible(sc2)
  {
    hide Perform, Smoothly, Apply, Unblocked, After, Free;
    var s :| Smoothly(s, sc.loaded) && Shows(s, sc);
    var e := Perform(SceneView(sc), sc.canceller.value, Raises);
    sc2 := After(sc, e).(canceller := e.next);
    Unhindered(s, sc);
    BeginsAtLoad(SceneView(sc), sc.canceller.value, Raises);
    ShowsCanceller(s, sc, e);
    SceneKeeps(sc, e);
    RunStep(s, 1, Raises);
    GoesSmoothly(s, Run(1, Raises), StepThread(s, 1, Raises), sc.loaded);
  }

  lemma BeginsAtLoad(v: View, pc: Pc, oracle: Oracle)
    ensures Perform(v, pc, oracle).beginsBody <==> pc == Load
  {}

  lemma SceneKeeps(sc: Scene, e: Effect)
    ensures After(sc, e).window == sc.window && After(sc, e).complete == sc.complete && After(sc, e).loaded == sc.loaded
  {}

  lemma Begin(w: Window, complete: bool, loaded: Oracle)
    ensures Possible(Scene(w, complete, loaded, Pending, false, false, false, Some(CreateEvent), None))
  {
    var job := Job(0, Pending, w, complete);
    var s := Empty.(jobs := map[0 := job], threads := map[0 := Thread(0, CreateEvent)]);
    assert SmoothRun([Empty], [], loaded);
    assert Smoothly(Empty, loaded);
    assert Step(Empty, Create(0, 0, job), s);
    GoesSmoothly(Empty, Create(0, 0, job), s, loaded);
    assert Shows(s, Scene(w, complete, loaded, Pending, false, false, false, Some(CreateEvent), None));
  }

  lemma CallsStart(sc: Scene)
    requires Possible(sc) && sc.starter == None
    ensures Possible(sc.(starter := Some(Start(StartAcquire))))
  {
    hide Smoothly;
    var s :| Smoothly(s, sc.loaded) && Shows(s, sc);
    var s2 := s.(threads := s.threads[0 := Thread(0, Start(StartAcquire))]);
    GoesSmoothly(s, CallStart(0, 0), s2, sc.loaded);
    assert Shows(s2, sc.(starter := Some(Start(StartAcquire))));
  }

  lemma CallsCancel(sc: Scene)
    requires Possible(sc) && sc.canceller == None
    ensures Possible(sc.(canceller := Some(Cancel(CancelProbe))))
  {
    hide Smoothly;
    var s :| Smoothly(s, sc.loaded) && Shows(s, sc);
    var s2 := s.(threads := s.threads[1 := Thread(0, Cancel(CancelProbe))]);
    GoesSmoothly(s, CallCancel(1, 0), s2, sc.loaded);
    assert Shows(s2, sc.(canceller := Some(Cancel(CancelProbe))));
  }

  /** The job is RUNNING and its worker is about to claim it. */
  lemma StartedScene(w: Window, complete: bool, loaded: Oracle) returns (sc: Scene)
    ensures Possible(sc) && sc == Scene(w, complete, loaded, Running, false, false, false, Some(Claim), None)
  {
    hide Possible, PerformReplay, PerformDry, PerformFail, PerformAck, PerformCancel, PerformFinalize;
    Begin(w, complete, loaded);
    sc := Starts(Scene(w, complete, loaded, Pending, false, false, false, Some(CreateEvent), None), Raises);
    CallsStart(sc);
    sc := Starts(sc.(starter := Some(Start(StartAcquire))), Raises);
    sc := Starts(sc, Raises);
    sc := Starts(sc, Raises);
    sc := Starts(sc, Raises);
  }

  /** A cancel of a RUNNING job whose worker holds no lock gets as far as looking at the owner. */
  lemma CancelledScene(sc0: Scene) returns (sc: Scene)
    requires Possible(sc0) && sc0.status == Running && sc0.canceller == None && !Locks(sc0.starter)
    ensures Possible(sc)
    ensures sc == sc0.(status := Cancelling, cancelRequested := true, canceller := Some(Cancel(CheckOwner)))
  {
    hide Possible, Locks, PerformStart, PerformReplay, PerformDry, PerformFail, PerformAck, PerformFinalize;
    CallsCancel(sc0);
    sc := Cancels(sc0.(canceller := Some(Cancel(CancelProbe))));
    sc := Cancels(sc);
    sc := Cancels(sc);
    sc := Cancels(sc);
    sc := Cancels(sc);
  }

  /** A reachable state in which the finalizing cancel is about to end a job that has, by then, a
      live owner: the worker claimed the job after the canceller found it unowned. */
  lemma FinalizedWhileOwned(w: Window, complete: bool) returns (sc: Scene)
    ensures Possible(sc) && sc.owned && sc.status == Cancelling && sc.starter == Some(Load) && !sc.begun
    ensures sc.window == w
    ensures sc.canceller == Some(Finalize(FinalizeCommit)) && sc.cancelRequested
    ensures Perform(SceneView(sc), sc.canceller.value, Raises).write == Some(Cancelled)
  {
    hide Possible, PerformStart, PerformReplay, PerformDry, PerformFail, PerformAck;
    sc := StartedScene(w, complete, Raises);
    sc := CancelledScene(sc);
    sc := Cancels(sc);
    sc := Cancels(sc);
    sc := Cancels(sc);
    sc := Cancels(sc);
    sc := Starts(sc, Raises);
  }

  /** Where the worker of an owned job can be while a finalizing cancel is about to commit: it has
      claimed the job and not read RUNNING. */
  predicate NotReadRunning(pc: Pc) {
    match pc
    case Load => true
    case Replay(at) => at == ReplayRead || at == ReplayCheck(Cancelling)
    case Dry(at) => at == DryRead || at == DryCheck(Cancelling)
    case Ack(at) => at == AckRead || at == AckSave
    case Release(exit) => exit == Aborted
    case _ => false
  }

  /** While a finalizing cancel is about to commit, the job is owned exactly when it has a worker in
      its body, and that worker has not read RUNNING. */
  lemma OwnedWhileFinalized(s: System, t: ThreadId, j: JobId)
    requires Reachable(s) && Finalizes(s, t, j)
    ensures j in s.owned <==> exists u :: HasBody(s, u, j)
    ensures forall u :: HasBody(s, u, j) ==> NotReadRunning(s.threads[u].pc)
  {
    hide Perform, Respects, LogInv, LostInv, LockInv, ThreadsInv, PairsInv;
    ReachableInv(s);
    Knows(s, t, Raises);
    forall u | HasBody(s, u, j) ensures j in s.owned && NotReadRunning(s.threads[u].pc) {
      Knows(s, u, Raises);
      KnowsPair(s, t, u);
    }
  }

  ghost predicate MeetsFinalizer(s: System, pc: Pc) {
    Reachable(s) && 0 in s.owned && 0 in s.threads && s.threads[0] == Thread(0, pc) && Finalizes(s, 1, 0)
  }

  lemma SceneMeets(sc: Scene)
    requires Possible(sc) && sc.owned && sc.starter.Some? && sc.canceller == Some(Finalize(FinalizeCommit))
    ensures exists s :: MeetsFinalizer(s, sc.starter.value)
  {
    hide Smoothly, Reachable;
    var s :| Smoothly(s, sc.loaded) && Shows(s, sc);
    SmoothlyReachable(s, sc.loaded);
    assert MeetsFinalizer(s, sc.starter.value);
  }

  /** Each of these places occurs. */
  lemma EveryPlaceOccurs(pc: Pc)
    requires NotReadRunning(pc)
    ensures exists s :: MeetsFinalizer(s, pc)
  {
    hide Possible, MeetsFinalizer, PerformStart, PerformFail, PerformCancel, PerformFinalize;
    var sc := FinalizedWhileOwned(if pc.Dry? then NoWindow else BadWindow, false);
    if pc == Release(Aborted) {
      WorkerRaises(sc);
    } else {
      if pc != Load {
        sc := Starts(sc, Raises);
        if pc != Replay(ReplayRead) && pc != Dry(DryRead) {
          sc := Starts(sc, Raises);
          if pc.Ack? {
            sc := Starts(sc, Raises);
            if pc != Ack(AckRead) {
              sc := Starts(sc, Raises);
            }
          }
        }
      }
      SceneMeets(sc);
    }
  }

  lemma WorkerRaises(sc: Scene)
    requires Possible(sc) && sc.owned && sc.starter == Some(Load) && sc.canceller == Some(Finalize(FinalizeCommit))
    ensures exists s :: MeetsFinalizer(s, Release(Aborted))
  {
    hide Reachable, Smoothly;
    var s :| Smoothly(s, sc.loaded) && Shows(s, sc);
    SmoothlyReachable(s, sc.loaded);
    ReachableStep(s, Raise(0), AbortThread(s, 0));
    assert MeetsFinalizer(AbortThread(s, 0), Release(Aborted));
  }

  // ---- When the worker came -----------------------------------------------------------------------

  /** Thread `t` looked for an owner of job `j` in state `c`, found none, and has not committed yet. */
  ghost predicate LookedAt(states: seq<System>, labels: seq<Label>, t: ThreadId, j: JobId, c: nat) {
    && c < |labels| && |states| == |labels| + 1
    && t in states[c].threads && states[c].threads[t] == Thread(j, Finalize(FinalizeCheckOwner))
    && labels[c].Run? && labels[c].t == t && j !in states[c].owned
    && forall m :: c < m < |states| ==> Finalizes(states[m], t, j)
  }

  /** Worker `u` claimed job `j` in state `k` and has been in its body since. */
  ghost predicate ClaimedAt(states: seq<System>, labels: seq<Label>, u: ThreadId, j: JobId, k: nat) {
    && k < |labels| && |states| == |labels| + 1
    && u in states[k].threads && states[k].threads[u] == Thread(j, Claim) && labels[k].Run? && labels[k].t == u
    && j !in states[k].owned
    && forall m :: k < m < |states| ==> HasBody(states[m], u, j) && j in states[m].owned
  }

  lemma ArrivesAtCommit(s: System, l: Label, s2: System, t: ThreadId, j: JobId)
    requires Step(s, l, s2) && Finalizes(s2, t, j)
    ensures || Finalizes(s, t, j)
            || (l.Run? && l.t == t && t in s.threads && s.threads[t] == Thread(j, Finalize(FinalizeCheckOwner))
                && j !in s.owned)
  {
    hide Unblocked, EventsOf, OthersActive, Perform;
    if l.Run? && l.t in s.threads && s.threads[l.t].job in s.jobs {
      OnlyLookingLeads(ViewOf(s, s.threads[l.t].job), s.threads[l.t].pc, l.oracle);
    }
  }

  lemma OnlyLookingLeads(v: View, pc: Pc, oracle: Oracle)
    ensures Perform(v, pc, oracle).next == Some(Finalize(FinalizeCommit)) ==>
        pc == Finalize(FinalizeCheckOwner) && !v.owned
  {}

  lemma {:induction false} FinalizerLooked(states: seq<System>, labels: seq<Label>, t: ThreadId, j: JobId)
    returns (c: nat)
    requires IsRun(states, labels) && states[0] == Empty && Finalizes(states[|states| - 1], t, j)
    ensures LookedAt(states, labels, t, j, c)
    decreases |labels|
  {
    hide Step, Finalizes;
    var n := |labels| - 1;
    assert labels != [] by { NotFinalizing(t, j); }
    ArrivesAtCommit(states[n], labels[n], states[n + 1], t, j);
    if Finalizes(states[n], t, j) {
      c := FinalizerLooked(states[..n + 1], labels[..n], t, j);
    } else {
      c := n;
    }
  }

  lemma NotFinalizing(t: ThreadId, j: JobId)
    ensures !Finalizes(Empty, t, j)
  {}

  lemma OwnerStep(s: System, l: Label, s2: System, j: JobId)
    requires Reachable(s) && Step(s, l, s2) && j in s2.owned
    ensures j !in s.owned ==> l.Run? && l.t in s.threads && s.threads[l.t] == Thread(j, Claim) && HasBody(s2, l.t, j)
    ensures j in s.owned ==> forall u :: HasBody(s, u, j) ==> HasBody(s2, u, j)
  {
    hide Perform, Unblocked, LocalInv, EventsOf, OthersActive;
    if l.Run? {
      Knows(s, l.t, l.oracle);
      OnlyClaimTakes(ViewOf(s, s.threads[l.t].job), s.threads[l.t].pc, l.oracle);
    }
  }

  lemma OnlyClaimTakes(v: View, pc: Pc, oracle: Oracle)
    ensures Perform(v, pc, oracle).owner == TakeOwner ==> pc == Claim
  {}

  /** A job that is owned while a finalizing cancel is about to commit was claimed by its worker
      after the cancel had looked for an owner. */
  lemma {:induction false} ClaimedInBetween(states: seq<System>, labels: seq<Label>, t: ThreadId, j: JobId)
      returns (c: nat, k: nat, u: ThreadId)
    requires IsRun(states, labels) && states[0] == Empty
    requires Finalizes(states[|states| - 1], t, j) && j in states[|states| - 1].owned
    ensures c < k && LookedAt(states, labels, t, j, c) && ClaimedAt(states, labels, u, j, k)
    decreases |labels|
  {
    hide Step, Finalizes, HasBody, LookedAt, ClaimedAt;
    var n := |labels| - 1;
    c := FinalizerLooked(states, labels, t, j);
    LookedFacts(states, labels, t, j, c);
    RunPrefix(states, labels, n);
    ArrivesAtCommit(states[n], labels[n], states[n + 1], t, j);
    OwnerStep(states[n], labels[n], states[n + 1], j);
    if j in states[n].owned {
      var c0;
      c0, k, u := ClaimedInBetween(states[..n + 1], labels[..n], t, j);
      ClaimLasts(states, labels, u, j, k);
      SameLook(states, labels, t, j, c, c0);
    } else {
      k, u := n, labels[n].t;
      ClaimNow(states, labels, u, j);
    }
  }

  lemma LookedFacts(states: seq<System>, labels: seq<Label>, t: ThreadId, j: JobId, c: nat)
    requires LookedAt(states, labels, t, j, c)
    ensures c < |labels| && |states| == |labels| + 1 && j !in states[c].owned && !Finalizes(states[c], t, j)
    ensures c == |labels| - 1 ==>
        labels[c].Run? && labels[c].t == t && states[c].threads[t].pc == Finalize(FinalizeCheckOwner)
  {}

  lemma SameLook(states: seq<System>, labels: seq<Label>, t: ThreadId, j: JobId, c: nat, c0: nat)
    requires LookedAt(states, labels, t, j, c) && c < |labels| - 1
    requires LookedAt(states[..|labels|], labels[..|labels| - 1], t, j, c0)
    ensures c == c0
  {
    assert c < c0 ==> Finalizes(states[c0], t, j);
    assert c0 < c ==> Finalizes(states[..|labels|][c], t, j);
  }

  lemma ClaimLasts(states: seq<System>, labels: seq<Label>, u: ThreadId, j: JobId, k: nat)
    requires |states| == |labels| + 1 && labels != [] && ClaimedAt(states[..|labels|], labels[..|labels| - 1], u, j, k)
    requires j in states[|labels|].owned && (HasBody(states[|labels| - 1], u, j) ==> HasBody(states[|labels|], u, j))
    ensures ClaimedAt(states, labels, u, j, k)
  {
    hide HasBody;
    assert states[..|labels|][|labels| - 1] == states[|labels| - 1];
  }

  lemma ClaimNow(states: seq<System>, labels: seq<Label>, u: ThreadId, j: JobId)
    requires |states| == |labels| + 1 && labels != []
    requires var n := |labels| - 1;
      && labels[n].Run? && labels[n].t == u && u in states[n].threads && states[n].threads[u] == Thread(j, Claim)
      && j !in states[n].owned && j in states[n + 1].owned && HasBody(states[n + 1], u, j)
    ensures ClaimedAt(states, labels, u, j, |labels| - 1)
  {}

  /** So an owned job is ended by another than its worker exactly when such a cancel commits. */
  lemma OwnedJobEndedByWorker(s: System, l: Label, s2: System, j: JobId)
    requires Reachable(s) && Step(s, l, s2) && j in s.owned
    requires j in s.jobs && Active(s.jobs[j].status) && j in s2.jobs && Terminal(s2.jobs[j].status)
    ensures l.Run? && (WorkerStores(s, l.t, j) <==> !Finalizes(s, l.t, j))
    ensures Finalizes(s, l.t, j) ==> exists u :: HasBody(s, u, j) && NotReadRunning(s.threads[u].pc)
  {
    hide Perform, Unblocked, LogInv, LostInv, LockInv, ThreadsInv, PairsInv, NotReadRunning;
    WhoEndsAJob(s, l, s2, j);
    ReachableInv(s);
    if Finalizes(s, l.t, j) {
      OwnedWhileFinalized(s, l.t, j);
    }
  }

  /** The worker has passed its last check before the cancel comes: it will store COMPLETED over
      the CANCELLING that the cancel call has already answered with. */
  lemma CancelOverwritten(w: Window, complete: bool, summary: Summary) returns (sc: Scene)
    requires Proper(w)
    ensures Possible(sc) && sc.status == Cancelling && sc.cancelRequested && sc.canceller == None
    ensures sc.starter == Some(Replay(ReplaySave(summary)))
    ensures Perform(SceneView(sc), sc.starter.value, Raises).write == Some(OutcomeStatus(summary))
  {
    hide Possible, PerformStart, PerformDry, PerformFail, PerformAck, PerformFinalize;
    sc := WorkerBeforeSave(w, complete, summary);
    sc := CancelledScene(sc);
    sc := Cancels(sc);
  }

  /** The worker of a job with a replay window has read RUNNING, seen no cancel and is about to look
      at the window. */
  lemma WorkerBeforeParse(w: Window, complete: bool, loaded: Oracle) returns (sc: Scene)
    requires w != NoWindow
    ensures Possible(sc)
    ensures sc == Scene(w, complete, loaded, Running, true, false, true, Some(Replay(ReplayParse)), None)
  {
    hide Possible, Locks, PerformStart, PerformDry, PerformFail, PerformAck, PerformFinalize, PerformCancel;
    sc := StartedScene(w, complete, loaded);
    sc := Starts(sc, Raises);
    sc := Starts(sc, Raises);
    sc := Starts(sc, Raises);
    sc := Starts(sc, Raises);
  }

  /** ... is about to load the context of its stream ... */
  lemma WorkerBeforeLoad(w: Window, complete: bool, loaded: Oracle) returns (sc: Scene)
    requires Proper(w)
    ensures Possible(sc)
    ensures sc == Scene(w, complete, loaded, Running, true, false, true, Some(Replay(ReplayLoadContext)), None)
  {
    hide Possible, Locks, PerformStart, PerformDry, PerformFail, PerformAck, PerformFinalize, PerformCancel;
    sc := WorkerBeforeParse(w, complete, loaded);
    sc := Starts(sc, Raises);
    sc := Starts(sc, Raises);
  }

  /** ... and has checked for a cancel for the last time. */
  lemma WorkerBeforeSave(w: Window, complete: bool, summary: Summary) returns (sc: Scene)
    requires Proper(w)
    ensures Possible(sc)
    ensures sc == Scene(w, complete, Returns(summary), Running, true, false, true, Some(Replay(ReplaySave(summary))),
        None)
  {
    hide Possible, Locks, PerformStart, PerformDry, PerformFail, PerformAck, PerformFinalize, PerformCancel;
    sc := WorkerBeforeLoad(w, complete, Returns(summary));
    sc := Starts(sc, Returns(summary));
    sc := Starts(sc, Returns(summary));
    sc := Starts(sc, Returns(summary));
    sc := Starts(sc, Returns(summary));
    sc := Starts(sc, Returns(summary));
  }
}
