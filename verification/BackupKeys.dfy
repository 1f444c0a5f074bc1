/**
 Idempotency keys over runs of import calls, in terms of the texts that the requests carry: which
 calls are answered from the log, with what, and what the others need to create anything.
 */
module BackupKeys {
  import opened Options
  import opened Strings
  import opened BackupStore
  import opened BackupValidator
  import opened BackupImport
  import opened BackupGraph
  import opened BackupService
  import opened BackupApply
  import opened BackupRuns

  /** The request carries a key that is not blank. */
  predicate HasKey(q: Request) {
    q.key.Some? && Trim(q.key.value) != ""
  }

  predicate TooLong(q: Request) {
    q.key.Some? && |Trim(q.key.value)| > 128
  }

  /** The requests' keys are the same but for blanks around them. */
  predicate SameKey(p: Request, q: Request) {
    p.key.Some? && q.key.Some? && Trim(p.key.value) == Trim(q.key.value)
  }

  /** The mode is one of the two that are supported. */
  predicate ModeFine(q: Request) {
    Trim(q.mode) == "additive" || Trim(q.mode) == "clone"
  }

  /** A call with a key has created something. */
  predicate Completed(c: Call) {
    Created(c.answer) && HasKey(c.request)
  }

  /** The positions of such calls, in order. */
  function Completions(calls: seq<Call>): seq<nat> {
    if calls == [] then []
    else Completions(calls[..|calls| - 1]) + if Completed(calls[|calls| - 1]) then [|calls| - 1] else []
  }

  lemma {:induction false} CompletionsAre(calls: seq<Call>)
    ensures forall c :: c in Completions(calls) <==> 0 <= c < |calls| && Completed(calls[c])
    ensures forall a, b :: 0 <= a < b < |Completions(calls)| ==> Completions(calls)[a] < Completions(calls)[b]
    decreases |calls|
  {
    if calls != [] {
      var n := |calls| - 1;
      var before := Completions(calls[..n]);
      CompletionsAre(calls[..n]);
      forall a | 0 <= a < |before| ensures before[a] < n {
        assert before[a] in before;
      }
    }
  }

  /** The call has one of the last 200 keys, of those that had completed when it came. */
  ghost predicate Remembered(calls: seq<Call>, q: Request) {
    exists n :: 0 <= n < |Completions(calls)| && |Completions(calls)| - 200 <= n && RemembersAt(calls, q, n)
  }

  ghost predicate RemembersAt(calls: seq<Call>, q: Request, n: nat)
    requires n < |Completions(calls)|
  {
    Completions(calls)[n] < |calls| && SameKey(calls[Completions(calls)[n]].request, q)
  }

  /** What one call does, by its texts. */
  lemma CallExactly(env: Env, s: Database, q: Request, a: Answer, s2: Database)
    requires Sound(s) && Sound(s2) && Apply(env, s, q, a, s2)
    ensures a == ModeRejected <==> !ModeFine(q)
    ensures a == KeyRejected <==> ModeFine(q) && TooLong(q)
    ensures a.Done? && !HasKey(q) ==> !a.response.replay && a.response.key == None
    ensures a.Done? && HasKey(q) ==> |Trim(q.key.value)| <= 128 && a.response.key == Some(Trim(q.key.value))
    ensures Created(a) ==>
      && q.confirm && q.token.Some? && q.token.value.bundle == q.bundle
      && (q.token.value.mode == Clone <==> Trim(q.mode) == "clone")
      && (q.token.value.mode == Additive <==> Trim(q.mode) == "additive")
  {
    hide PlanImport, Newest, Accepted, Raises, ConstraintsHold, SettingOf, NormalizeKey, Extended;
    NormalizesTo(q.key);
  }

  /** What a completed call leaves in the log. */
  lemma RecordExactly(env: Env, s: Database, q: Request, a: Answer, s2: Database)
    requires Sound(s) && Sound(s2) && Apply(env, s, q, a, s2)
    ensures !(Created(a) && HasKey(q)) ==> s2.operations == s.operations
    ensures Created(a) && HasKey(q) ==>
      && |s2.operations| == |s.operations| + 1 && s.operations <= s2.operations
      && s2.operations[|s.operations|].key == Trim(q.key.value)
      && s2.operations[|s.operations|].response == a.response
  {
    hide PlanImport, Newest, Accepted, Raises, ConstraintsHold, SettingOf, NormalizeKey, Extended;
    NormalizesTo(q.key);
  }

  /** Over every run that starts with an empty log: the log holds the completed calls, in order, each
      under the trimmed text of its key. */
  lemma {:induction false} LogIs(env: Env, states: seq<Database>, calls: seq<Call>)
    requires IsRun(env, states, calls) && states[0].operations == []
    ensures var log, done := states[|calls|].operations, Completions(calls);
      && |log| == |done|
      && forall n :: 0 <= n < |done| ==>
           && done[n] < |calls| && calls[done[n]].request.key.Some? && calls[done[n]].answer.Done?
           && log[n].key == Trim(calls[done[n]].request.key.value)
           && log[n].response == calls[done[n]].answer.response && log[n].response.key == Some(log[n].key)
    decreases |calls|
  {
    hide Apply, Sound, NormalizeKey;
    if calls != [] {
      var n := |calls| - 1;
      CallExactly(env, states[n], calls[n].request, calls[n].answer, states[n + 1]);
      LogIs(env, states[..n + 1], calls[..n]);
      RecordExactly(env, states[n], calls[n].request, calls[n].answer, states[n + 1]);
    }
  }

  /** What one call finds in the log. */
  lemma LooksBack(env: Env, s: Database, q: Request, a: Answer, s2: Database)
    requires Sound(s) && Sound(s2) && Apply(env, s, q, a, s2) && ModeFine(q)
    ensures a.Done? && a.response.replay <==> HasKey(q) && !TooLong(q) && exists i ::
      0 <= i < |s.operations| && |s.operations| - 200 <= i && s.operations[i].key == Trim(q.key.value)
    ensures a.Done? && a.response.replay ==> s2 == s && exists i: nat ::
      && i < |s.operations| && s.operations[i].key == Trim(q.key.value)
      && (forall k :: i < k < |s.operations| ==> s.operations[k].key != Trim(q.key.value))
      && a.response == s.operations[i].response.(replay := true, key := Some(Trim(q.key.value)))
  {
    hide PlanImport, Newest, Accepted, Raises, ConstraintsHold, SettingOf, NormalizeKey, Extended;
    NormalizesTo(q.key);
    if HasKey(q) && !TooLong(q) {
      NewestIs(s.operations, Trim(q.key.value), WINDOW);
    }
  }

  /** Over every such run: a call with a supported mode is answered from the log if and only if its key,
      trimmed, is neither empty nor too long and is, trimmed, that of one of the last 200 keyed calls that
      created something. It then gets the answer that the newest of these got, marked as a replay, and
      nothing is created. */
  lemma AnsweredFromLogExactly(env: Env, states: seq<Database>, calls: seq<Call>, q: Request, a: Answer, s2: Database)
    requires IsRun(env, states, calls) && states[0].operations == []
    requires Sound(s2) && Apply(env, states[|calls|], q, a, s2) && ModeFine(q)
    ensures a.Done? && a.response.replay <==> HasKey(q) && !TooLong(q) && Remembered(calls, q)
    ensures a.Done? && a.response.replay ==> s2 == states[|calls|] && exists n: nat ::
      && n < |Completions(calls)| && RemembersAt(calls, q, n)
      && (forall m :: n < m < |Completions(calls)| ==> !RemembersAt(calls, q, m))
      && calls[Completions(calls)[n]].answer.Done?
      && a.response == calls[Completions(calls)[n]].answer.response.(replay := true)
  {
    hide Apply, Sound, IsRun;
    StartsSound(env, states, calls);
    LogIs(env, states, calls);
    LooksBack(env, states[|calls|], q, a, s2);
    var log, done := states[|calls|].operations, Completions(calls);
    forall n | 0 <= n < |done| ensures q.key.Some? && log[n].key == Trim(q.key.value) <==> RemembersAt(calls, q, n) {}
    if a.Done? && a.response.replay {
      var n: nat :|
        && n < |log| && log[n].key == Trim(q.key.value)
        && (forall k :: n < k < |log| ==> log[k].key != Trim(q.key.value))
        && a.response == log[n].response.(replay := true, key := Some(Trim(q.key.value)));
      assert RemembersAt(calls, q, n);
    } else if Remembered(calls, q) {
      var n :| 0 <= n < |done| && |done| - 200 <= n && RemembersAt(calls, q, n);
      assert log[n].key == Trim(q.key.value);
    }
  }

  lemma StartsSound(env: Env, states: seq<Database>, calls: seq<Call>)
    requires IsRun(env, states, calls)
    ensures |states| == |calls| + 1 && Sound(states[|calls|])
  {}

  // ---- What the answer says -------------------------------------------------------------------------

  predicate NamesRows(ids: seq<int>, rows: seq<Row>) {
    |ids| == |rows| && forall i :: 0 <= i < |rows| ==> ids[i] == rows[i].id
  }

  /** The rows of `s2` that are not in `s`. */
  function NewRows(s: Database, s2: Database, kind: Kind): seq<Row>
    requires Complete(s.tables) && Complete(s2.tables) && |s.tables[kind]| <= |s2.tables[kind]|
  {
    s2.tables[kind][|s.tables[kind]|..]
  }

  /** The answer of a call that created something names the new connectors, sources and streams, in
      order, and each new destination that no later entry took the export id of; it sends the user to the
      new stream if there is just one, otherwise to the new connector if there is just one. */
  lemma AnswerNamesRows(env: Env, s: Database, q: Request, a: Answer, s2: Database)
    requires Sound(s) && Sound(s2) && Apply(env, s, q, a, s2) && Created(a)
    ensures forall kind: Kind :: s.tables[kind] <= s2.tables[kind]
    ensures NamesRows(a.response.connectorIds, NewRows(s, s2, Connectors))
    ensures NamesRows(a.response.sourceIds, NewRows(s, s2, Sources))
    ensures NamesRows(a.response.streamIds, NewRows(s, s2, Streams))
    ensures var rows, entries := NewRows(s, s2, Destinations), Entries(q.bundle, Destinations);
      && |rows| == |entries|
      && (forall id :: id in a.response.destinationIds <==>
            exists i: nat, n: int :: LastWithId(env, entries, n, i) && i < |rows| && rows[i].id == id)
    ensures var streams, connectors := NewRows(s, s2, Streams), NewRows(s, s2, Connectors);
      a.response.redirect == if |streams| == 1 then ToStream(streams[0].id)
                             else if |connectors| == 1 then ToConnector(connectors[0].id) else NoRedirect
  {
    hide PlanImport, Apply, SettingOf, NormalizeKey, ParseMode, Entries, LastWithId, Accepted;
    Atomicity(env, s, q, a, s2);
    AnswerIs(env, s, q, a, s2);
    NewDestinations(env, s, q, a, s2);
    var plan := PlanImport(env, q.bundle, SettingOf(q, s.tables), s.next);
    assert forall kind: Kind :: NewRows(s, s2, kind) == plan.created[kind];
  }

  lemma AnswerIs(env: Env, s: Database, q: Request, a: Answer, s2: Database)
    requires Sound(s) && Sound(s2) && Apply(env, s, q, a, s2) && Created(a)
    ensures var plan := PlanImport(env, q.bundle, SettingOf(q, s.tables), s.next);
      plan.Plan? && Complete(plan.created) && a.response == ResponseTo(plan.created, plan.maps, NormalizeKey(q.key))
  {
    hide PlanImport, Newest, Accepted, Raises, ConstraintsHold, SettingOf, NormalizeKey, ParseMode, ResponseTo;
  }

  lemma NewDestinations(env: Env, s: Database, q: Request, a: Answer, s2: Database)
    requires Sound(s) && Sound(s2) && Apply(env, s, q, a, s2) && Created(a)
    ensures var entries := Entries(q.bundle, Destinations);
      var plan := PlanImport(env, q.bundle, SettingOf(q, s.tables), s.next);
      && plan.Plan? && Complete(plan.created) && |plan.created[Destinations]| == |entries|
      && forall id :: id in plan.maps.destinations.Values <==>
           exists i: nat, n: int ::
             LastWithId(env, entries, n, i) && i < |entries| && plan.created[Destinations][i].id == id
  {
    hide PlanImport, Apply, Sound, Accepted, NormalizeKey, ParseMode, ExportIds, LastWithId, Entries, Usable, RowOf;
    assert Complete(s.next) && Complete(s.tables) by { AreComplete(s); }
    Atomicity(env, s, q, a, s2);
    var setting := SettingOf(q, s.tables);
    var plan := PlanImport(env, q.bundle, setting, s.next);
    var entries := Entries(q.bundle, Destinations);
    OneRowPerEntry(env, setting.stored, q.bundle, ParseMode(q.mode), setting, s.next, Destinations);
    PlanIds(env, setting.stored, q.bundle, ParseMode(q.mode), setting, s.next, Destinations);
    CreatedIds(env, q.bundle, setting, s.next, Destinations);
    var ids := plan.maps.destinations;
    forall id | id in ids.Values
      ensures exists i: nat, n: int :: LastWithId(env, entries, n, i) && i < |entries| && s.next[Destinations] + i == id
    {
      var n := KeyOf(ids, id);
      var i := LastIndex(env, entries, n);
      LastWithin(env, entries, n, i);
    }
  }

  lemma KeyOf(m: map<int, int>, v: int) returns (k: int)
    requires v in m.Values
    ensures k in m && m[k] == v
  {
    if some :| some in m && m[some] == v { k := some; } else {
      assert forall n | n in m :: m[n] != v;
      assert false;
    }
  }

  lemma AreComplete(s: Database)
    requires Sound(s)
    ensures Complete(s.tables) && Complete(s.next)
  {}

  lemma LastWithin(env: Env, entries: seq<Entry>, n: int, i: nat)
    requires LastWithId(env, entries, n, i)
    ensures i < |entries|
  {}

  /** Which rows point to which. */
  lemma ReferencesAre()
    ensures Refs(Connectors) == {} && Refs(Destinations) == {}
    ensures Refs(Sources) == {ConnectorId} && Refs(Streams) == {ConnectorId, SourceId}
    ensures Refs(Mappings) == Refs(Enrichments) == Refs(Checkpoints) == {StreamId}
    ensures Refs(Routes) == {StreamId, DestinationId}
    ensures Target(ConnectorId) == Connectors && Target(SourceId) == Sources
    ensures Target(StreamId) == Streams && Target(DestinationId) == Destinations
  {}
}
