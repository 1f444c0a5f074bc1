/**
 `apply_import`: one call against the configuration database and its log of completed imports, all
 or nothing. Runs of calls are in `BackupRuns`, exactly when a call succeeds in `BackupApply`.
 */
module BackupService {
  import opened Options
  import opened Strings
  import opened BackupStore
  import opened BackupValidator
  import opened BackupImport
  import opened BackupGraph

  /** The SHA-256 token of a preview, taken as injective in the bundle and the mode. */
  datatype Token = Token(bundle: Bundle, mode: Mode)

  datatype Request = Request(
    bundle: Bundle,
    mode: string,
    token: Option<Token>,
    confirm: bool,
    key: Option<string>,
    suffix: string)

  datatype Redirect = NoRedirect | ToStream(id: int) | ToConnector(id: int)

  datatype Response = Response(
    connectorIds: seq<int>,
    sourceIds: seq<int>,
    streamIds: seq<int>,
    destinationIds: set<int>,
    redirect: Redirect,
    key: Option<string>,
    replay: bool)

  /** An IMPORT_APPLY_OPERATION row of the audit log; its status is always "completed". */
  datatype Operation = Operation(key: string, mode: Mode, response: Response)

  datatype Answer =
    | ModeRejected
    | KeyRejected
    | ValidationRaised
    | ValidationFailed
    | TokenMismatch
    | ConfirmRequired
    | ImportRaised
    | RouteDestinationUnmapped
    | DuplicateRows
    | Done(response: Response)

  /** What is committed. */
  datatype Database = Database(tables: map<Kind, seq<Row>>, next: map<Kind, nat>, operations: seq<Operation>)

  datatype IdempotencyKey = NoKey | UseKey(key: string) | BadKey

  /** `_normalize_idempotency_key` */
  function NormalizeKey(raw: Option<string>): IdempotencyKey {
    match raw
    case None => NoKey
    case Some(text) =>
      var key := Trim(text);
      if key == "" then NoKey else if |key| > 128 then BadKey else UseKey(key)
  }

  /** By the text: a blank one is no key, one of more than 128 characters once trimmed is refused, and any
      other is kept whole. */
  lemma NormalizesTo(raw: Option<string>)
    ensures raw == None ==> NormalizeKey(raw) == NoKey
    ensures raw.Some? && Trim(raw.value) == "" ==> NormalizeKey(raw) == NoKey
    ensures raw.Some? && |Trim(raw.value)| > 128 ==> NormalizeKey(raw) == BadKey
    ensures raw.Some? && 0 < |Trim(raw.value)| <= 128 ==> NormalizeKey(raw) == UseKey(Trim(raw.value))
  {}

  const WINDOW := 200

  /** The position of the newest record for `key` among the last `limit` ones. */
  function Newest(operations: seq<Operation>, key: string, limit: nat): Option<nat>
    decreases |operations|
  {
    if operations == [] || limit == 0 then None
    else if operations[|operations| - 1].key == key then Some(|operations| - 1)
    else Newest(operations[..|operations| - 1], key, limit - 1)
  }

  lemma {:induction false} NewestIs(operations: seq<Operation>, key: string, limit: nat)
    ensures match Newest(operations, key, limit)
            case Some(i) => |operations| - limit <= i < |operations| && operations[i].key == key
                            && forall k :: i < k < |operations| ==> operations[k].key != key
            case None => forall k :: 0 <= k < |operations| && |operations| - limit <= k ==> operations[k].key != key
    decreases |operations|
  {
    if operations != [] && limit > 0 && operations[|operations| - 1].key != key {
      NewestIs(operations[..|operations| - 1], key, limit - 1);
    }
  }

  /** `_find_completed_import_apply` looks no further back than 200 completed imports. */
  function FindCompleted(operations: seq<Operation>, key: string): Option<Response> {
    NewestIs(operations, key, WINDOW);
    match Newest(operations, key, WINDOW)
    case Some(i) => Some(operations[i].response.(replay := true, key := Some(key)))
    case None => None
  }

  function StoredIds(tables: map<Kind, seq<Row>>): set<int>
    requires Complete(tables)
  {
    set row | row in tables[Destinations] :: row.id
  }

  function SettingOf(request: Request, tables: map<Kind, seq<Row>>): Setting
    requires Complete(tables)
  {
    if ParseMode(request.mode) == Clone
        then Setting(true, StoredIds(tables), if request.suffix == "" then " (copy)" else request.suffix)
    else Setting(false, StoredIds(tables), "")
  }

  /** Tables with a unique constraint: mappings, enrichments and checkpoints per stream, routes per
      stream and destination; that is on all the references that their rows have. */
  predicate Constrained(kind: Kind) {
    kind == Mappings || kind == Enrichments || kind == Checkpoints || kind == Routes
  }

  predicate Clash(kind: Kind, a: Row, b: Row) {
    forall f :: f in Refs(kind) ==> f in a.refs && f in b.refs && a.refs[f] == b.refs[f]
  }

  predicate NoClash(kind: Kind, rows: seq<Row>) {
    forall i, k :: 0 <= i < k < |rows| ==> !Clash(kind, rows[i], rows[k])
  }

  function Extended(tables: map<Kind, seq<Row>>, created: map<Kind, seq<Row>>): map<Kind, seq<Row>> {
    map kind | kind in tables :: if kind in created then tables[kind] + created[kind] else tables[kind]
  }

  predicate ConstraintsHold(tables: map<Kind, seq<Row>>)
    requires Complete(tables)
  {
    forall kind: Kind :: Constrained(kind) ==> NoClash(kind, tables[kind])
  }

  function Ids(rows: seq<Row>): seq<int> {
    seq(|rows|, i requires 0 <= i < |rows| => rows[i].id)
  }

  function ResponseTo(created: map<Kind, seq<Row>>, maps: IdMaps, key: IdempotencyKey): Response
    requires Complete(created)
  {
    var redirect :=
      if |created[Streams]| == 1 then ToStream(created[Streams][0].id)
      else if |created[Connectors]| == 1 then ToConnector(created[Connectors][0].id)
      else NoRedirect;
    Response(Ids(created[Connectors]), Ids(created[Sources]), Ids(created[Streams]), maps.destinations.Values,
             redirect, if key.UseKey? then Some(key.key) else None, false)
  }

  /** Rows and log as they were; sequence numbers may have been used up. */
  predicate NothingCommitted(s: Database, s2: Database)
    requires Complete(s.next) && Complete(s2.next)
  {
    s2.tables == s.tables && s2.operations == s.operations && forall kind: Kind :: s.next[kind] <= s2.next[kind]
  }

  predicate Sound(s: Database) {
    && Complete(s.tables) && Complete(s.next)
    && forall kind: Kind, row :: row in s.tables[kind] ==> row.id < s.next[kind]
  }

  /** What an accepted and confirmed request leads to. */
  ghost predicate Imports(env: Env, s: Database, q: Request, key: IdempotencyKey, a: Answer, s2: Database)
    requires Sound(s) && Sound(s2)
  {
    var plan := PlanImport(env, q.bundle, SettingOf(q, s.tables), s.next);
    if plan.PlanRaises? then a == ImportRaised && NothingCommitted(s, s2)
    else if plan.unbound then a == RouteDestinationUnmapped && NothingCommitted(s, s2)
    else if !ConstraintsHold(Extended(s.tables, plan.created)) then a == DuplicateRows && NothingCommitted(s, s2)
    else
      && Complete(plan.created)
      && a == Done(ResponseTo(plan.created, plan.maps, key))
      && s2.tables == Extended(s.tables, plan.created)
      && (forall kind: Kind :: s.next[kind] <= s2.next[kind])
      && s2.operations == s.operations + (if key.UseKey? then [Operation(key.key, ParseMode(q.mode), a.response)]
          else [])
  }

  /** One call of `apply_import`. */
  ghost predicate Apply(env: Env, s: Database, q: Request, a: Answer, s2: Database)
    requires Sound(s) && Sound(s2)
  {
    var mode, key := ParseMode(q.mode), NormalizeKey(q.key);
    if mode != Additive && mode != Clone then a == ModeRejected && s2 == s
    else if key.BadKey? then a == KeyRejected && s2 == s
    else if key.UseKey? && FindCompleted(s.operations, key.key).Some? then
      a == Done(FindCompleted(s.operations, key.key).value) && s2 == s
    else if HeaderFault(q.bundle, mode).None? && Raises(env, q.bundle) then a == ValidationRaised && s2 == s
    else if !Accepted(env, StoredIds(s.tables), q.bundle, mode) then a == ValidationFailed && s2 == s
    else if q.token != Some(Token(q.bundle, mode)) then a == TokenMismatch && s2 == s
    else if !q.confirm then a == ConfirmRequired && s2 == s
    else Imports(env, s, q, key, a, s2)
  }

  /** The rows of an array are numbered on from `next`. */
  lemma {:induction false} ConsecutiveIds(env: Env, kind: Kind, maps: IdMaps, setting: Setting, entries: seq<Entry>,
      next: nat)
    ensures var p := ImportRows(env, kind, maps, setting, entries, next);
      p.Progress? ==> forall i :: 0 <= i < |p.rows| ==> p.rows[i].id == next + i
    decreases |entries|
  {
    hide MakeRow, IdOf, Mapped, ImportRows;
    if entries == [] {
      NoRows(env, kind, maps, setting, entries, next);
      assert entries[..0] == entries;
    } else {
      var n := |entries| - 1;
      assert entries[..n + 1] == entries;
      ConsecutiveIds(env, kind, maps, setting, entries[..n], next);
      RowsStep(env, kind, maps, setting, entries, next, n);
    }
  }

  lemma CreatedIds(env: Env, b: Bundle, setting: Setting, next: map<Kind, nat>, kind: Kind)
    requires Complete(next) && PlanImport(env, b, setting, next).Plan?
    ensures var created := PlanImport(env, b, setting, next).created;
      Complete(created) && forall i :: 0 <= i < |created[kind]| ==> created[kind][i].id == next[kind] + i
  {
    hide PlanImport, ImportRows;
    var plan := PlanImport(env, b, setting, next);
    PlanArrays(env, b, setting, next, kind);
    ConsecutiveIds(env, kind, plan.maps, setting, Imported(b, setting, kind), next[kind]);
  }

  lemma CommitIsSound(env: Env, b: Bundle, setting: Setting, s: Database, s2: Database)
    requires Sound(s) && PlanImport(env, b, setting, s.next).Plan? && Complete(s2.next)
    requires Complete(PlanImport(env, b, setting, s.next).created)
    requires s2.tables == Extended(s.tables, PlanImport(env, b, setting, s.next).created)
    requires forall kind: Kind :: s2.next[kind] == s.next[kind] + |PlanImport(env, b, setting, s.next).created[kind]|
    ensures Sound(s2)
  {
    hide PlanImport;
    var created := PlanImport(env, b, setting, s.next).created;
    forall kind: Kind, row | row in s2.tables[kind] ensures row.id < s2.next[kind] {
      CreatedIds(env, b, setting, s.next, kind);
    }
  }

  // ---- The call itself --------------------------------------------------------------------------------

  class ConfigurationService {
    var tables: map<Kind, seq<Row>>
    var next: map<Kind, nat>
    var operations: seq<Operation>

    ghost function Value(): Database
      reads this
    {
      Database(tables, next, operations)
    }

    ghost predicate Valid()
      reads this
    {
      Sound(Value())
    }

    method FindCompletedImportApply(key: string) returns (found: Option<Response>)
      ensures found == FindCompleted(operations, key)
      ensures found.Some? ==> found.value.key == Some(key) && found.value.replay
    {
      hide Newest;
      var i, seen := |operations|, 0;
      while i > 0 && seen < WINDOW
        invariant 0 <= i <= |operations| && 0 <= seen <= WINDOW && seen == |operations| - i
        invariant forall k :: i <= k < |operations| ==> operations[k].key != key
      {
        i, seen := i - 1, seen + 1;
        if operations[i].key == key {
          NewestIs(operations, key, WINDOW);
          return Some(operations[i].response.(replay := true, key := Some(key)));
        }
      }
      NewestIs(operations, key, WINDOW);
      found := None;
    }

    /** The eight loops of the import, in their order; the rows are staged in the transaction. */
    method ImportBundle(env: Env, b: Bundle, setting: Setting) returns (plan: Plan)
      requires Complete(next)
      ensures plan == PlanImport(env, b, setting, next)
    {
      hide ImportRows, Imported;
      var d := ImportArray(env, Destinations, NoIds, setting, Imported(b, setting, Destinations), next[Destinations]);
      if d.Failed? { return PlanRaises; }
      var m1 := NoIds.(destinations := d.ids);
      var c := ImportArray(env, Connectors, m1, setting, Imported(b, setting, Connectors), next[Connectors]);
      if c.Failed? { return PlanRaises; }
      var m2 := m1.(connectors := c.ids);
      var s := ImportArray(env, Sources, m2, setting, Imported(b, setting, Sources), next[Sources]);
      if s.Failed? { return PlanRaises; }
      var m3 := m2.(sources := s.ids);
      var st := ImportArray(env, Streams, m3, setting, Imported(b, setting, Streams), next[Streams]);
      if st.Failed? { return PlanRaises; }
      var maps := m3.(streams := st.ids);
      var m := ImportArray(env, Mappings, maps, setting, Imported(b, setting, Mappings), next[Mappings]);
      if m.Failed? { return PlanRaises; }
      var e := ImportArray(env, Enrichments, maps, setting, Imported(b, setting, Enrichments), next[Enrichments]);
      if e.Failed? { return PlanRaises; }
      var cp := ImportArray(env, Checkpoints, maps, setting, Imported(b, setting, Checkpoints), next[Checkpoints]);
      if cp.Failed? { return PlanRaises; }
      var r := ImportArray(env, Routes, maps, setting, Imported(b, setting, Routes), next[Routes]);
      if r.Failed? { return PlanRaises; }
      plan := Plan(map[Destinations := d.rows, Connectors := c.rows, Sources := s.rows, Streams := st.rows,
                       Mappings := m.rows, Enrichments := e.rows, Checkpoints := cp.rows, Routes := r.rows],
                   maps, r.unbound);
    }

    /** `apply_import` */
    method ApplyImport(env: Env, q: Request) returns (a: Answer)
      requires Valid()
      modifies this
      ensures Valid() && Apply(env, old(Value()), q, a, Value())
      ensures a == KeyRejected ==> q.key.Some? && |Trim(q.key.value)| > 128
      ensures a.Done? ==>
        a.response.key == if q.key.Some? && Trim(q.key.value) != "" then Some(Trim(q.key.value)) else None
    {
      hide PlanImport, FindCompleted, Accepted, Raises, HeaderFault, ConstraintsHold, Extended, ResponseTo,
        NormalizeKey, Trim;
      ghost var s := Value();
      NormalizesTo(q.key);
      var mode, key := ParseMode(q.mode), NormalizeKey(q.key);
      if mode != Additive && mode != Clone {
        return ModeRejected;
      }
      if key.BadKey? {
        return KeyRejected;
      }
      if key.UseKey? {
        var prior := FindCompletedImportApply(key.key);
        if prior.Some? {
          return Done(prior.value);
        }
      }
      var outcome := ValidateImportBundle(env, StoredIds(tables), q.bundle, mode);
      if outcome.Raised? {
        return ValidationRaised;
      }
      AcceptedWhen(env, StoredIds(tables), q.bundle, mode, outcome.conflicts);
      if outcome.conflicts != {} {
        return ValidationFailed;
      }
      if q.token != Some(Token(q.bundle, mode)) {
        return TokenMismatch;
      }
      if !q.confirm {
        return ConfirmRequired;
      }
      a := ImportAndCommit(env, q, key);
    }

    /** The import proper, committed at its end or not at all. */
    method ImportAndCommit(env: Env, q: Request, key: IdempotencyKey) returns (a: Answer)
      requires Valid()
      modifies this
      ensures Valid() && Imports(env, old(Value()), q, key, a, Value())
      ensures a.Done? ==> a.response.key == if key.UseKey? then Some(key.key) else None
      ensures a == ImportRaised || a == RouteDestinationUnmapped || a == DuplicateRows || a.Done?
    {
      hide PlanImport, ConstraintsHold, Extended, ResponseTo, SettingOf, ParseMode;
      ghost var s := Value();
      var plan := ImportBundle(env, q.bundle, SettingOf(q, tables));
      if plan.PlanRaises? {
        return ImportRaised;
      }
      if plan.unbound {
        return RouteDestinationUnmapped;
      }
      var staged := Extended(tables, plan.created);
      StillComplete(tables, plan.created);
      if !ConstraintsHold(staged) {
        return DuplicateRows;
      }
      PlanComplete(env, q.bundle, SettingOf(q, tables), next);
      tables := staged;
      next := map kind | kind in next :: next[kind] + |plan.created[kind]|;
      var response := ResponseTo(plan.created, plan.maps, key);
      KeyAnswered(plan.created, plan.maps, key);
      if key.UseKey? {
        operations := operations + [Operation(key.key, ParseMode(q.mode), response)];
      }
      CommitIsSound(env, q.bundle, SettingOf(q, s.tables), s, Value());
      return Done(response);
    }
  }

  lemma KeyAnswered(created: map<Kind, seq<Row>>, maps: IdMaps, key: IdempotencyKey)
    requires Complete(created)
    ensures ResponseTo(created, maps, key).key == if key.UseKey? then Some(key.key) else None
  {}

  lemma PlanComplete(env: Env, b: Bundle, setting: Setting, next: map<Kind, nat>)
    requires Complete(next) && PlanImport(env, b, setting, next).Plan?
    ensures Complete(PlanImport(env, b, setting, next).created)
  {
    hide PlanImport;
    PlanArrays(env, b, setting, next, Routes);
  }

  lemma StillComplete(tables: map<Kind, seq<Row>>, created: map<Kind, seq<Row>>)
    requires Complete(tables)
    ensures Complete(Extended(tables, created))
  {}

  lemma AcceptedWhen(env: Env, stored: set<int>, b: Bundle, mode: Mode, conflicts: set<Conflict>)
    requires !(HeaderFault(b, mode).None? && Raises(env, b))
    requires forall c :: c in conflicts <==> Faulty(env, stored, b, mode, c)
    ensures Accepted(env, stored, b, mode) <==> conflicts == {}
  {
    hide Raises;
    if HeaderFault(b, mode).Some? {
      assert Faulty(env, stored, b, mode, HeaderFault(b, mode).value);
    }
    if conflicts == {} {
      forall c ensures !Faulty(env, stored, b, mode, c) {
        assert c !in conflicts;
      }
    }
  }
}
