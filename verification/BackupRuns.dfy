/**
 Runs of import calls: every call is all or nothing, and how long an idempotency key protects.
 */
module BackupRuns {
  import opened Options
  import opened Strings
  import opened BackupStore
  import opened BackupValidator
  import opened BackupImport
  import opened BackupGraph
  import opened BackupService

  datatype Call = Call(request: Request, answer: Answer)

  ghost predicate IsRun(env: Env, states: seq<Database>, calls: seq<Call>) {
    && |states| == |calls| + 1
    && (forall i :: 0 <= i < |states| ==> Sound(states[i]))
    && forall i :: 0 <= i < |calls| ==> Apply(env, states[i], calls[i].request, calls[i].answer, states[i + 1])
  }

  /** The call created something, as opposed to being refused or answered from the log. */
  predicate Created(a: Answer) {
    a.Done? && !a.response.replay
  }

  /** A call leaves everything committed as it was, or appends all its rows together with its
      record; rows and records that were there before stay as they are either way. */
  lemma Atomicity(env: Env, s: Database, q: Request, a: Answer, s2: Database)
    requires Sound(s) && Sound(s2) && Apply(env, s, q, a, s2)
    ensures !Created(a) ==> NothingCommitted(s, s2)
    ensures Created(a) ==>
      var plan := PlanImport(env, q.bundle, SettingOf(q, s.tables), s.next);
      && Accepted(env, StoredIds(s.tables), q.bundle, ParseMode(q.mode))
      && plan.Plan? && !plan.unbound && Complete(plan.created)
      && (forall kind: Kind :: s2.tables[kind] == s.tables[kind] + plan.created[kind])
      && s2.operations == s.operations + (if NormalizeKey(q.key).UseKey?
                                          then [Operation(NormalizeKey(q.key).key, ParseMode(q.mode), a.response)]
                                              else [])
  {
    hide PlanImport, Newest, Accepted, Raises, ConstraintsHold, SettingOf, NormalizeKey, ParseMode;
  }

  /** A call whose key is, once trimmed, neither blank nor too long is answered from the log exactly when
      one of the last 200 completed keyed imports has that trimmed text for its key. */
  lemma ReplayedExactly(env: Env, s: Database, q: Request, a: Answer, s2: Database)
    requires Sound(s) && Sound(s2) && Apply(env, s, q, a, s2)
    requires ParseMode(q.mode) == Additive || ParseMode(q.mode) == Clone
    requires q.key.Some? && 0 < |Trim(q.key.value)| <= 128
    ensures a.Done? && a.response.replay <==>
      exists i ::
        0 <= i < |s.operations| && |s.operations| - 200 <= i && s.operations[i].key == Trim(q.key.value)
  {
    hide PlanImport, Newest, Accepted, Raises, ConstraintsHold, SettingOf, NormalizeKey, ParseMode, Extended, Trim;
    NormalizesTo(q.key);
    NewestIs(s.operations, Trim(q.key.value), WINDOW);
  }

  lemma KeyText(raw: Option<string>, key: string)
    requires NormalizeKey(raw) == UseKey(key)
    ensures raw.Some? && Trim(raw.value) == key && 0 < |key| <= 128
  {}

  lemma {:induction false} OperationsGrow(env: Env, states: seq<Database>, calls: seq<Call>, i: nat, j: nat)
    requires IsRun(env, states, calls) && i <= j < |states|
    ensures states[i].operations <= states[j].operations
    decreases j
  {
    hide Apply, Sound;
    if i < j {
      OperationsGrow(env, states, calls, i, j - 1);
      Grows(env, states[j - 1], calls[j - 1].request, calls[j - 1].answer, states[j]);
    }
  }

  lemma Grows(env: Env, s: Database, q: Request, a: Answer, s2: Database)
    requires Sound(s) && Sound(s2) && Apply(env, s, q, a, s2)
    ensures s.operations <= s2.operations
    ensures |s2.operations| > |s.operations| ==>
      && Created(a) && NormalizeKey(q.key).UseKey? && (ParseMode(q.mode) == Additive || ParseMode(q.mode) == Clone)
      && s2.operations == s.operations + [Operation(NormalizeKey(q.key).key, ParseMode(q.mode), a.response)]
  {
    hide PlanImport, Newest, Accepted, Raises, ConstraintsHold, SettingOf, NormalizeKey, ParseMode, Extended;
  }

  ghost function PlanOfCall(env: Env, s: Database, c: Call): Plan
    requires Sound(s)
  {
    PlanImport(env, c.request.bundle, SettingOf(c.request, s.tables), s.next)
  }

  lemma {:induction false} TablesGrow(env: Env, states: seq<Database>, calls: seq<Call>, i: nat, j: nat)
    requires IsRun(env, states, calls) && i <= j < |states|
    ensures forall kind: Kind :: states[i].tables[kind] <= states[j].tables[kind]
    decreases j
  {
    hide Apply, NormalizeKey, ParseMode, SettingOf;
    if i < j {
      TablesGrow(env, states, calls, i, j - 1);
      Atomicity(env, states[j - 1], calls[j - 1].request, calls[j - 1].answer, states[j]);
    }
  }

  /** The rows and the record of call `c` are part of `s2`, a later state than the `s` it was made in. */
  ghost predicate Whole(env: Env, s: Database, c: Call, s2: Database)
    requires Sound(s) && Complete(s2.tables)
  {
    var plan := PlanOfCall(env, s, c);
    && Created(c.answer) && plan.Plan? && Complete(plan.created)
    && (forall kind: Kind :: s.tables[kind] + plan.created[kind] <= s2.tables[kind])
    && (NormalizeKey(c.request.key).UseKey? ==>
          s.operations + [Operation(NormalizeKey(c.request.key).key, ParseMode(c.request.mode),
              c.answer.response)] <= s2.operations)
  }

  /** Over every run, each row there is was there at first or came with a call, all of whose rows, and
      whose record, are there as well. */
  lemma {:induction false} RowsComeTogether(env: Env, states: seq<Database>, calls: seq<Call>, kind: Kind, r: nat)
    returns (c: nat)
    requires IsRun(env, states, calls)
    requires |states[0].tables[kind]| <= r < |states[|calls|].tables[kind]|
    ensures c < |calls| && Whole(env, states[c], calls[c], states[|calls|])
    ensures var first := |states[c].tables[kind]|;
      first <= r < first + |PlanOfCall(env, states[c], calls[c]).created[kind]|
    decreases |calls|
  {
    hide Apply, NormalizeKey, ParseMode, SettingOf, Whole, PlanImport;
    var n := |calls| - 1;
    if r < |states[n].tables[kind]| {
      c := RowsComeTogether(env, states[..n + 1], calls[..n], kind, r);
      assert states[..n + 1][|calls[..n]|] == states[n];
      TablesGrow(env, states, calls, n, n + 1);
      OperationsGrow(env, states, calls, n, n + 1);
      StaysWhole(env, states[c], calls[c], states[n], states[n + 1]);
    } else {
      c := n;
      Atomicity(env, states[n], calls[n].request, calls[n].answer, states[n + 1]);
      IsWhole(env, states[n], calls[n], states[n + 1]);
    }
  }

  lemma StaysWhole(env: Env, s: Database, c: Call, s2: Database, s3: Database)
    requires Sound(s) && Complete(s2.tables) && Complete(s3.tables) && Whole(env, s, c, s2)
    requires s2.operations <= s3.operations && forall kind: Kind :: s2.tables[kind] <= s3.tables[kind]
    ensures Whole(env, s, c, s3)
  {
    hide PlanOfCall, NormalizeKey, ParseMode;
  }

  lemma IsWhole(env: Env, s: Database, c: Call, s2: Database)
    requires Sound(s) && Sound(s2) && Apply(env, s, c.request, c.answer, s2) && Created(c.answer)
    ensures Whole(env, s, c, s2)
  {
    hide PlanImport, Apply, NormalizeKey, ParseMode, SettingOf, Accepted;
    Atomicity(env, s, c.request, c.answer, s2);
  }

  /** As long as fewer than 200 keyed imports have completed since, no later record has the key. */
  lemma {:induction false} OnlyRecord(env: Env, states: seq<Database>, calls: seq<Call>, i: nat, j: nat, key: string)
    requires IsRun(env, states, calls) && i < j < |states|
    requires |states[i + 1].operations| > |states[i].operations| && NormalizeKey(calls[i].request.key) == UseKey(key)
    requires |states[j].operations| - |states[i + 1].operations| < WINDOW
    ensures var at := |states[i].operations|;
      && at < |states[j].operations| && states[j].operations[at].key == key
      && states[j].operations[at].response == calls[i].answer.response
      && forall k :: at < k < |states[j].operations| ==> states[j].operations[k].key != key
    decreases j
  {
    hide Apply, Sound, NormalizeKey, ParseMode;
    var at := |states[i].operations|;
    Grows(env, states[i], calls[i].request, calls[i].answer, states[i + 1]);
    if j > i + 1 {
      var s, c := states[j - 1], calls[j - 1];
      Grows(env, s, c.request, c.answer, states[j]);
      OnlyRecord(env, states, calls, i, j - 1, key);
      if |states[j].operations| > |s.operations| && NormalizeKey(c.request.key) == UseKey(key) {
        KeyText(c.request.key, key);
        ReplayedExactly(env, s, c.request, c.answer, states[j]);
        assert false;
      }
    }
  }

  /** Bounded idempotence: after a keyed import has completed, every retry with its key creates
      nothing and gets the first answer, marked as a replay, until 200 further keyed imports have
      completed; the retry's bundle, token and confirmation are not even looked at. */
  lemma RetryIsReplayed(env: Env, states: seq<Database>, calls: seq<Call>, i: nat, q: Request, a: Answer, s2: Database)
    requires IsRun(env, states, calls) && i < |calls| && Created(calls[i].answer)
    requires NormalizeKey(calls[i].request.key).UseKey? && NormalizeKey(q.key) == NormalizeKey(calls[i].request.key)
    requires ParseMode(q.mode) == Additive || ParseMode(q.mode) == Clone
    requires var s := states[|calls|];
             |s.operations| - |states[i + 1].operations| < WINDOW && Sound(s2) && Apply(env, s, q, a, s2)
    ensures s2 == states[|calls|] && a == Done(calls[i].answer.response.(replay := true))
  {
    hide PlanImport, Newest, Accepted, Raises, ConstraintsHold, SettingOf, NormalizeKey, ParseMode, Extended,
      ResponseTo, Imports;
    var s, key := states[|calls|], NormalizeKey(q.key).key;
    var at := |states[i].operations|;
    Atomicity(env, states[i], calls[i].request, calls[i].answer, states[i + 1]);
    OnlyRecord(env, states, calls, i, |calls|, key);
    NewestIs(s.operations, key, WINDOW);
    assert Newest(s.operations, key, WINDOW) == Some(at);
    KeyInResponse(env, states[i], calls[i].request, calls[i].answer, states[i + 1]);
  }

  lemma KeyInResponse(env: Env, s: Database, q: Request, a: Answer, s2: Database)
    requires Sound(s) && Sound(s2) && Apply(env, s, q, a, s2) && Created(a) && NormalizeKey(q.key).UseKey?
    ensures a.response.key == Some(NormalizeKey(q.key).key)
  {
    hide PlanImport, Newest, Accepted, Raises, ConstraintsHold, SettingOf, NormalizeKey, ParseMode, Extended;
  }
}
