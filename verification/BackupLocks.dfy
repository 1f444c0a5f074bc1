/**
 Imports with idempotency keys that run at the same time: the advisory lock on the key is held from
 before the look-up until the transaction ends. Records get their ids when they are flushed, and become
 visible, possibly in another order, when their transaction commits; the look-up goes by id.
 */
module BackupLocks {
  import opened Options
  import opened BackupValidator
  import opened BackupService

  /** Before the lock; with it; having found no completed import of the key; and with its own record
      flushed under this id. */
  datatype Place = Waiting | Locked | Importing | Flushed(id: nat)

  datatype ImportCall = ImportCall(key: string, place: Place)

  /** The committed records by id, the next id, and the calls under way. */
  datatype State = State(records: map<nat, Operation>, nextId: nat, calls: map<nat, ImportCall>)

  const NOTHING := State(map[], 0, map[])

  /** Whether the database has advisory locks, and the number that a key is locked by. */
  datatype Locks = Locks(advisory: bool, hash: string -> int)

  /** `Other` is another audit event taking an id. */
  datatype Step =
    | Enter(c: nat, key: string)
    | Lock(c: nat)
    | LookUp(c: nat)
    | Flush(c: nat)
    | Complete(c: nat, mode: Mode, response: Response)
    | GiveUp(c: nat)
    | Other

  function Between(records: map<nat, Operation>, low: nat, high: nat): set<nat> {
    set k | k in records && low < k < high
  }

  /** The record of this id is among the last 200. */
  predicate InReach(s: State, id: nat) {
    |Between(s.records, id, s.nextId)| < WINDOW
  }

  predicate Found(s: State, key: string) {
    exists id :: id in s.records && s.records[id].key == key && InReach(s, id)
  }

  predicate Holds(s: State, c: nat) {
    c in s.calls && s.calls[c].place != Waiting
  }

  ghost predicate Free(locks: Locks, s: State, c: nat)
    requires c in s.calls
  {
    locks.advisory ==> forall d :: Holds(s, d) && d != c ==> locks.hash(s.calls[d].key) != locks.hash(s.calls[c].key)
  }

  function Moved(s: State, c: nat, place: Place): State
    requires c in s.calls
  {
    s.(calls := s.calls[c := s.calls[c].(place := place)])
  }

  ghost predicate Next(locks: Locks, s: State, step: Step, s2: State) {
    match step
    case Enter(c, key) => c !in s.calls && s2 == s.(calls := s.calls[c := ImportCall(key, Waiting)])
    case Lock(c) => c in s.calls && s.calls[c].place == Waiting && Free(locks, s, c) && s2 == Moved(s, c, Locked)
    case LookUp(c) =>
      && c in s.calls && s.calls[c].place == Locked
      && s2 == if Found(s, s.calls[c].key) then s.(calls := s.calls - {c}) else Moved(s, c, Importing)
    case Flush(c) =>
      c in s.calls && s.calls[c].place == Importing && s2 == Moved(s, c, Flushed(s.nextId)).(nextId := s.nextId + 1)
    case Complete(c, mode, response) =>
      && c in s.calls && s.calls[c].place.Flushed?
      && s2 == s.(records := s.records[s.calls[c].place.id := Operation(s.calls[c].key, mode, response)],
          calls := s.calls - {c})
    case GiveUp(c) => c in s.calls && s2 == s.(calls := s.calls - {c})
    case Other => s2 == s.(nextId := s.nextId + 1)
  }

  ghost predicate IsRun(locks: Locks, states: seq<State>, steps: seq<Step>) {
    |states| == |steps| + 1 && states[0] == NOTHING && forall i :: 0 <= i < |steps| ==>
        Next(locks, states[i], steps[i], states[i + 1])
  }

  ghost predicate Reachable(locks: Locks, s: State) {
    exists states, steps :: IsRun(locks, states, steps) && states[|states| - 1] == s
  }

  /** Between two imports of one key there are, by id, as many others as the look-back reaches. */
  ghost predicate Spaced(records: map<nat, Operation>) {
    forall a, b :: a in records && b in records && a < b && records[a].key == records[b].key ==>
      |Between(records, a, b)| >= WINDOW
  }

  // ---- What the lock keeps --------------------------------------------------------------------------

  predicate PastLookUp(s: State, c: nat) {
    c in s.calls && (s.calls[c].place.Importing? || s.calls[c].place.Flushed?)
  }

  /** The record of call `c` has, or will have, an id that is not below this. */
  function Bound(s: State, c: nat): nat
    requires PastLookUp(s, c)
  {
    if s.calls[c].place.Flushed? then s.calls[c].place.id else s.nextId
  }

  /** Every record of the call's key is that far away. */
  ghost predicate FarFrom(s: State, c: nat)
    requires PastLookUp(s, c)
  {
    forall id :: id in s.records && s.records[id].key == s.calls[c].key ==>
      id < Bound(s, c) && |Between(s.records, id, Bound(s, c))| >= WINDOW
  }

  /** Ids are handed out once. */
  ghost predicate IdsInv(s: State) {
    && (forall id :: id in s.records ==> id < s.nextId)
    && (forall c :: c in s.calls && s.calls[c].place.Flushed? ==>
          s.calls[c].place.id < s.nextId && s.calls[c].place.id !in s.records)
    && (forall c, d :: c in s.calls && d in s.calls && c != d && s.calls[c].place.Flushed? ==>
          s.calls[c].place != s.calls[d].place)
  }

  ghost predicate LocksInv(locks: Locks, s: State) {
    forall c, d :: Holds(s, c) && Holds(s, d) && c != d ==> locks.hash(s.calls[c].key) != locks.hash(s.calls[d].key)
  }

  ghost predicate Inv(locks: Locks, s: State) {
    Spaced(s.records) && IdsInv(s) && LocksInv(locks, s) && forall c :: PastLookUp(s, c) ==> FarFrom(s, c)
  }

  lemma {:induction false} SubsetSize(a: set<nat>, b: set<nat>)
    requires a <= b
    ensures |a| <= |b|
    decreases b
  {
    if x :| x in a {
      SubsetSize(a - {x}, b - {x});
    }
  }

  /** More records and a higher bound only add to what is in between. */
  lemma BetweenGrows(records: map<nat, Operation>, more: map<nat, Operation>, low: nat, high: nat, higher: nat)
    requires records.Keys <= more.Keys && high <= higher
    ensures |Between(records, low, high)| <= |Between(more, low, higher)|
  {
    SubsetSize(Between(records, low, high), Between(more, low, higher));
  }

  /** A call past its look-up whose key gets no new record stays as far away. */
  lemma StaysFar(s: State, s2: State, c: nat)
    requires PastLookUp(s, c) && PastLookUp(s2, c) && FarFrom(s, c) && s2.calls[c].key == s.calls[c].key
    requires Bound(s, c) <= Bound(s2, c) && s.records.Keys <= s2.records.Keys
    requires forall id :: id in s2.records && s2.records[id].key == s.calls[c].key ==>
        id in s.records && s.records[id] == s2.records[id]
    ensures FarFrom(s2, c)
  {
    forall id | id in s2.records && s2.records[id].key == s2.calls[c].key
      ensures id < Bound(s2, c) && |Between(s2.records, id, Bound(s2, c))| >= WINDOW
    {
      BetweenGrows(s.records, s2.records, id, Bound(s, c), Bound(s2, c));
    }
  }

  lemma NextKeepsFar(locks: Locks, s: State, step: Step, s2: State, c: nat)
    requires locks.advisory && Inv(locks, s) && Next(locks, s, step, s2) && PastLookUp(s2, c)
    ensures FarFrom(s2, c)
  {
    hide Spaced, Between, FarFrom;
    if step == LookUp(c) {
      NothingFound(s, s2, c);
    } else {
      assert PastLookUp(s, c) && FarFrom(s, c);
      if step.Complete? {
        assert Holds(s, step.c) && Holds(s, c);
      }
      StaysFar(s, s2, c);
    }
  }

  lemma NothingFound(s: State, s2: State, c: nat)
    requires c in s.calls && !Found(s, s.calls[c].key) && s2 == Moved(s, c, Importing) && forall id ::
        id in s.records ==> id < s.nextId
    ensures FarFrom(s2, c)
  {
    hide Between;
    forall id | id in s2.records && s2.records[id].key == s2.calls[c].key
      ensures id < Bound(s2, c) && |Between(s2.records, id, Bound(s2, c))| >= WINDOW
    {
      assert !InReach(s, id);
    }
  }

  lemma CompleteKeepsSpaced(locks: Locks, s: State, step: Step, s2: State)
    requires Inv(locks, s) && Next(locks, s, step, s2) && step.Complete?
    ensures Spaced(s2.records)
  {
    hide Between;
    var c := step.c;
    var mine := s.calls[c].place.id;
    assert PastLookUp(s, c) && FarFrom(s, c);
    forall a, b | a in s2.records && b in s2.records && a < b && s2.records[a].key == s2.records[b].key
      ensures |Between(s2.records, a, b)| >= WINDOW
    {
      BetweenGrows(s.records, s2.records, a, b, b);
      if b == mine {
        assert a in s.records && s.records[a].key == s.calls[c].key;
      }
    }
  }

  lemma IdsKept(locks: Locks, s: State, step: Step, s2: State)
    requires IdsInv(s) && Next(locks, s, step, s2)
    ensures IdsInv(s2)
  {
    hide Found, Free;
  }

  lemma LocksKept(locks: Locks, s: State, step: Step, s2: State)
    requires locks.advisory && LocksInv(locks, s) && Next(locks, s, step, s2)
    ensures LocksInv(locks, s2)
  {
    hide Found;
  }

  lemma NextKeeps(locks: Locks, s: State, step: Step, s2: State)
    requires locks.advisory && Inv(locks, s) && Next(locks, s, step, s2)
    ensures Inv(locks, s2)
  {
    hide Between, Spaced, FarFrom, Found, IdsInv, LocksInv;
    IdsKept(locks, s, step, s2);
    LocksKept(locks, s, step, s2);
    forall c | PastLookUp(s2, c) ensures FarFrom(s2, c) {
      NextKeepsFar(locks, s, step, s2, c);
    }
    if step.Complete? {
      CompleteKeepsSpaced(locks, s, step, s2);
    }
  }

  lemma {:induction false} RunKeeps(locks: Locks, states: seq<State>, steps: seq<Step>)
    requires locks.advisory && IsRun(locks, states, steps)
    ensures Inv(locks, states[|states| - 1])
    decreases |steps|
  {
    hide Inv, Next;
    if steps == [] {
      NothingHolds(locks);
    } else {
      var n := |steps| - 1;
      RunKeeps(locks, states[..n + 1], steps[..n]);
      NextKeeps(locks, states[n], steps[n], states[n + 1]);
    }
  }

  lemma NothingHolds(locks: Locks)
    ensures Inv(locks, NOTHING)
  {}

  // ---- Exactly with the lock ------------------------------------------------------------------------

  /** With the lock, whatever runs at the same time, two imports of one key always have 200 others between
      them, by id; without it, a key can be imported twice in a row. */
  lemma OneImportPerKey(locks: Locks)
    ensures (forall s :: Reachable(locks, s) ==> Spaced(s.records)) <==> locks.advisory
  {
    hide Next, Spaced;
    if locks.advisory {
      forall s | Reachable(locks, s) ensures Spaced(s.records) {
        var states, steps :| IsRun(locks, states, steps) && states[|states| - 1] == s;
        RunKeeps(locks, states, steps);
      }
    } else {
      var s := ImportedTwice(locks, "k");
    }
  }

  lemma Goes(locks: Locks, s: State, step: Step, s2: State)
    requires Reachable(locks, s) && Next(locks, s, step, s2)
    ensures Reachable(locks, s2)
  {
    hide Next;
    var states, steps :| IsRun(locks, states, steps) && states[|states| - 1] == s;
    assert IsRun(locks, states + [s2], steps + [step]);
    assert (states + [s2])[|states|] == s2;
  }

  lemma ImportedTwice(locks: Locks, key: string) returns (s: State)
    requires !locks.advisory
    ensures Reachable(locks, s) && !Spaced(s.records)
  {
    hide Reachable, Spaced;
    var answer := Response([], [], [], {}, NoRedirect, Some(key), false);
    var op := Operation(key, Additive, answer);
    StartsReachable(locks);
    var s1 := State(map[], 0, map[0 := ImportCall(key, Waiting)]);
    Goes(locks, NOTHING, Enter(0, key), s1);
    var s2 := State(map[], 0, map[0 := ImportCall(key, Waiting), 1 := ImportCall(key, Waiting)]);
    Goes(locks, s1, Enter(1, key), s2);
    Goes(locks, s2, Lock(0), Moved(s2, 0, Locked));
    var s3 := Moved(Moved(s2, 0, Locked), 1, Locked);
    Goes(locks, Moved(s2, 0, Locked), Lock(1), s3);
    Goes(locks, s3, LookUp(0), Moved(s3, 0, Importing));
    var s4 := Moved(Moved(s3, 0, Importing), 1, Importing);
    Goes(locks, Moved(s3, 0, Importing), LookUp(1), s4);
    var s5 := Moved(s4, 0, Flushed(0)).(nextId := 1);
    Goes(locks, s4, Flush(0), s5);
    var s6 := Moved(s5, 1, Flushed(1)).(nextId := 2);
    Goes(locks, s5, Flush(1), s6);
    var s7 := s6.(records := map[0 := op], calls := s6.calls - {0});
    Goes(locks, s6, Complete(0, Additive, answer), s7);
    s := s7.(records := map[0 := op, 1 := op], calls := s7.calls - {1});
    Goes(locks, s7, Complete(1, Additive, answer), s);
    NotSpaced(s.records);
  }

  lemma StartsReachable(locks: Locks)
    ensures Reachable(locks, NOTHING)
  {
    assert IsRun(locks, [NOTHING], []);
  }

  lemma NotSpaced(records: map<nat, Operation>)
    requires 0 in records && 1 in records && records[0].key == records[1].key
    ensures !Spaced(records)
  {
    assert Between(records, 0, 1) == {};
  }

  // ---- The same look-back ---------------------------------------------------------------------------

  /** The records of a log in the order of their ids. */
  function ById(log: seq<Operation>): map<nat, Operation> {
    map id: nat | id < |log| :: log[id]
  }

  lemma {:induction false} BetweenCounts(log: seq<Operation>, id: nat, n: nat)
    requires id < n <= |log|
    ensures |Between(ById(log), id, n)| == n - 1 - id
    decreases n
  {
    if n == id + 1 {
      assert Between(ById(log), id, n) == {};
    } else {
      BetweenCounts(log, id, n - 1);
      assert Between(ById(log), id, n) == Between(ById(log), id, n - 1) + {n - 1};
    }
  }

  /** Where commits come in the order of ids, this is the look-back of a single call. */
  lemma SameLookBack(log: seq<Operation>, key: string)
    ensures Found(State(ById(log), |log|, map[]), key) <==> FindCompleted(log, key).Some?
  {
    hide Newest, Between;
    NewestIs(log, key, WINDOW);
    var s := State(ById(log), |log|, map[]);
    forall id: nat | id < |log| ensures InReach(s, id) <==> |log| - 1 - id < WINDOW {
      BetweenCounts(log, id, |log|);
    }
    if FindCompleted(log, key).Some? {
      var i := Newest(log, key, WINDOW).value;
      assert i in s.records && InReach(s, i);
    }
  }
}
