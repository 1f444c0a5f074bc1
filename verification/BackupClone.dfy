/**
 Cloning a connector: its export, applied in clone mode to the database it came from, always
 succeeds and creates one copy of the connector with all that hangs on it.
 */
module BackupClone {
  import opened Options
  import opened Strings
  import opened BackupStore
  import opened BackupValidator
  import opened BackupImport
  import opened BackupGraph
  import opened BackupService
  import opened BackupApply
  import opened BackupExport
  import opened BackupRestored
  import opened BackupRoundTrip

  // ---- Rows that satisfy a condition -------------------------------------------------------------------

  function Keep(rows: seq<Row>, wanted: Row -> bool): seq<Row> {
    if rows == [] then []
    else
      var last := rows[|rows| - 1];
      Keep(rows[..|rows| - 1], wanted) + if wanted(last) then [last] else []
  }

  lemma {:induction false} KeepHas(rows: seq<Row>, wanted: Row -> bool, row: Row)
    ensures row in Keep(rows, wanted) <==> row in rows && wanted(row)
  {
    if rows != [] {
      KeepHas(rows[..|rows| - 1], wanted, row);
      assert rows == rows[..|rows| - 1] + [rows[|rows| - 1]];
    }
  }

  /** What holds of all pairs of rows holds of those kept. */
  lemma {:induction false} KeepPairs(rows: seq<Row>, wanted: Row -> bool, related: (Row, Row) -> bool)
    requires forall i, k :: 0 <= i < k < |rows| ==> related(rows[i], rows[k])
    ensures forall i, k :: 0 <= i < k < |Keep(rows, wanted)| ==> related(Keep(rows, wanted)[i], Keep(rows, wanted)[k])
  {
    if rows != [] {
      var shorter, last := rows[..|rows| - 1], rows[|rows| - 1];
      KeepPairs(shorter, wanted, related);
      var kept := Keep(shorter, wanted);
      forall i | 0 <= i < |kept| ensures related(kept[i], last) {
        assert kept[i] in kept;
        KeepHas(shorter, wanted, kept[i]);
      }
    }
  }

  // ---- The connector's part of the database (`build_connector_export`) -----------------------------------

  /** The streams of the connector. */
  function StreamIds(tables: map<Kind, seq<Row>>, cid: int): set<int>
    requires Complete(tables)
  {
    set row | row in tables[Streams] && ConnectorId in row.refs && row.refs[ConnectorId] == cid :: row.id
  }

  /** The rows a connector export reads; destinations are left to the database. */
  predicate Belongs(tables: map<Kind, seq<Row>>, cid: int, kind: Kind, row: Row)
    requires Complete(tables)
  {
    match kind
    case Connectors => row.id == cid
    case Sources => ConnectorId in row.refs && row.refs[ConnectorId] == cid
    case Streams => ConnectorId in row.refs && row.refs[ConnectorId] == cid
    case Destinations => true
    case _ => StreamId in row.refs && row.refs[StreamId] in StreamIds(tables, cid)
  }

  function ConnectorTables(tables: map<Kind, seq<Row>>, cid: int): (part: map<Kind, seq<Row>>)
    requires Complete(tables)
    ensures Complete(part)
  {
    map kind | kind in tables :: Keep(tables[kind], (row: Row) => Belongs(tables, cid, kind, row))
  }

  predicate From(stream: Row, source: Row) {
    && ConnectorId in stream.refs && ConnectorId in source.refs
    && SourceId in stream.refs && stream.refs[SourceId] == source.id
  }

  /** A stream's source belongs to the stream's connector. */
  predicate SourcesWithStreams(tables: map<Kind, seq<Row>>)
    requires Complete(tables)
  {
    forall stream: Row, source: Row ::
        stream in tables[Streams] && source in tables[Sources] && From(stream, source) ==>
      stream.refs[ConnectorId] == source.refs[ConnectorId]
  }

  lemma InPart(tables: map<Kind, seq<Row>>, cid: int, kind: Kind, row: Row)
    requires Complete(tables)
    ensures row in ConnectorTables(tables, cid)[kind] <==> row in tables[kind] && Belongs(tables, cid, kind, row)
  {
    hide Belongs;
    KeepHas(tables[kind], (r: Row) => Belongs(tables, cid, kind, r), row);
  }

  /** The row hangs on a stream of the connector. */
  ghost predicate OnItsStream(tables: map<Kind, seq<Row>>, cid: int, row: Row)
    requires Complete(tables)
  {
    StreamId in row.refs && exists stream ::
      && stream in tables[Streams] && stream.id == row.refs[StreamId]
      && ConnectorId in stream.refs && stream.refs[ConnectorId] == cid
  }

  /** The connector's part: itself, its sources and streams, and what hangs on these streams. */
  lemma PartIs(tables: map<Kind, seq<Row>>, cid: int, kind: Kind, row: Row)
    requires Complete(tables) && row in tables[kind]
    ensures kind == Connectors ==> (row in ConnectorTables(tables, cid)[kind] <==> row.id == cid)
    ensures kind == Sources || kind == Streams ==>
      (row in ConnectorTables(tables, cid)[kind] <==> ConnectorId in row.refs && row.refs[ConnectorId] == cid)
    ensures kind == Mappings || kind == Enrichments || kind == Routes ==>
      (row in ConnectorTables(tables, cid)[kind] <==> OnItsStream(tables, cid, row))
  {
    hide ConnectorTables;
    InPart(tables, cid, kind, row);
  }

  /** What a row of the connector refers to belongs to the connector. */
  lemma TargetBelongs(tables: map<Kind, seq<Row>>, cid: int, kind: Kind, row: Row, f: Field, target: Row)
    requires Complete(tables) && SourcesWithStreams(tables) && row in tables[kind] && Belongs(tables, cid, kind, row)
    requires f in Refs(kind) && row.refs.Keys == Refs(kind) && target.refs.Keys == Refs(Target(f))
    requires target in tables[Target(f)] && target.id == row.refs[f]
    requires f == StreamId ==> forall other :: other in tables[Streams] && other.id == target.id ==> other == target
    ensures Belongs(tables, cid, Target(f), target)
  {
    assert kind == Streams && f == SourceId ==> From(row, target);
  }

  lemma UniqueRow(env: Env, tables: map<Kind, seq<Row>>, kind: Kind, target: Row)
    requires Healthy(env, tables) && target in tables[kind]
    ensures forall other :: other in tables[kind] && other.id == target.id ==> other == target
  {
    hide Healthy;
    HealthyIds(env, tables, kind);
  }

  /** References of rows that belong to the connector lead to rows that do. */
  lemma PartLinked(env: Env, tables: map<Kind, seq<Row>>, cid: int, kind: Kind, row: Row)
    requires Healthy(env, tables) && SourcesWithStreams(tables) && row in tables[kind]
    requires Belongs(tables, cid, kind, row)
    ensures RowLinked(ConnectorTables(tables, cid), kind, row)
  {
    hide Healthy, ConnectorTables, RowSupported, RowTyped, Belongs, SourcesWithStreams, Refs;
    HealthyRow(env, tables, kind, row);
    RowKeys(kind, row);
    forall f | f in row.refs
      ensures exists target :: target in ConnectorTables(tables, cid)[Target(f)] && target.id == row.refs[f]
    {
      var target :| target in tables[Target(f)] && target.id == row.refs[f];
      HealthyRow(env, tables, Target(f), target);
      RowKeys(Target(f), target);
      UniqueRow(env, tables, Target(f), target);
      TargetBelongs(tables, cid, kind, row, f, target);
      InPart(tables, cid, Target(f), target);
    }
  }

  lemma PartPairs(env: Env, tables: map<Kind, seq<Row>>, cid: int)
    requires Healthy(env, tables)
    ensures var part := ConnectorTables(tables, cid);
      && (forall kind: Kind :: DistinctRowIds(part[kind]))
      && DistinctNames(Connectors, part[Connectors]) && DistinctNames(Streams, part[Streams])
  {
    hide Belongs, RowTyped, RowLinked, RowSupported, RoutesMapped, RowNameKey;
    forall kind: Kind ensures DistinctRowIds(ConnectorTables(tables, cid)[kind]) {
      KeepPairs(tables[kind], (row: Row) => Belongs(tables, cid, kind, row), (a: Row, b: Row) => a.id != b.id);
    }
    KeepNames(tables, cid, Connectors);
    KeepNames(tables, cid, Streams);
  }

  lemma KeepNames(tables: map<Kind, seq<Row>>, cid: int, kind: Kind)
    requires Complete(tables) && DistinctNames(kind, tables[kind])
    ensures DistinctNames(kind, ConnectorTables(tables, cid)[kind])
  {
    hide Belongs, RowNameKey;
    KeepPairs(tables[kind], (row: Row) => Belongs(tables, cid, kind, row),
              (a: Row, b: Row) => RowNameKey(kind, a).Some? ==> RowNameKey(kind, a) != RowNameKey(kind, b));
  }

  lemma PartMapped(env: Env, tables: map<Kind, seq<Row>>, cid: int)
    requires Healthy(env, tables)
    ensures RoutesMapped(ConnectorTables(tables, cid))
  {
    hide ConnectorTables, RowTyped, RowLinked, RowSupported, DistinctNames, DistinctRowIds;
    var part := ConnectorTables(tables, cid);
    forall r: Row | r in part[Routes] && StreamId in r.refs
      ensures exists m: Row :: m in part[Mappings] && StreamId in m.refs && m.refs[StreamId] == r.refs[StreamId]
    {
      InPart(tables, cid, Routes, r);
      var m :| m in tables[Mappings] && StreamId in m.refs && m.refs[StreamId] == r.refs[StreamId];
      InPart(tables, cid, Mappings, m);
    }
  }

  /** The connector's part of a healthy database is a healthy database. */
  lemma PartHealthy(env: Env, tables: map<Kind, seq<Row>>, cid: int)
    requires Healthy(env, tables) && SourcesWithStreams(tables)
    requires exists row :: row in tables[Connectors] && row.id == cid
    ensures Healthy(env, ConnectorTables(tables, cid))
  {
    hide ConnectorTables, RowTyped, RowLinked, RowSupported, DistinctNames, DistinctRowIds, RoutesMapped,
      SourcesWithStreams;
    var part := ConnectorTables(tables, cid);
    forall kind: Kind, row | row in part[kind]
      ensures RowTyped(kind, row) && RowLinked(part, kind, row) && RowSupported(env, kind, row)
    {
      InPart(tables, cid, kind, row);
      HealthyRow(env, tables, kind, row);
      PartLinked(env, tables, cid, kind, row);
    }
    var row :| row in tables[Connectors] && row.id == cid;
    InPart(tables, cid, Connectors, row);
    PartPairs(env, tables, cid);
    PartMapped(env, tables, cid);
  }

  // ---- `clone_connector` -----------------------------------------------------------------------------------

  /** The connector export without destinations and checkpoints. */
  function ConnectorExport(env: Env, tables: map<Kind, seq<Row>>, cid: int): Bundle
    requires Complete(tables)
  {
    WorkspaceExport(env, ConnectorTables(tables, cid), false, false)
  }

  function CloneRequest(env: Env, tables: map<Kind, seq<Row>>, cid: int, suffix: string): Request
    requires Complete(tables)
  {
    var b := ConnectorExport(env, tables, cid);
    Request(b, "clone", Some(Token(b, Clone)), true, None, suffix)
  }

  function CloneTrip(tables: map<Kind, seq<Row>>, suffix: string): Trip
    requires Complete(tables)
  {
    Trip(false, false, Clone, Setting(true, StoredIds(tables), if suffix == "" then " (copy)" else suffix))
  }

  lemma CloneIsParsed()
    ensures ParseMode("clone") == Clone
  {
    var text := "clone";
    assert text[..1][0] == 'c' && text[4..][0] == 'e';
    assert TrimLeft(text) == text && TrimRight(text) == text;
    assert |"additive"| == 8 && |text| == 5;
  }

  lemma PartConstraints(tables: map<Kind, seq<Row>>, cid: int)
    requires Complete(tables) && ConstraintsHold(tables)
    ensures ConstraintsHold(ConnectorTables(tables, cid))
  {
    hide Belongs;
    forall kind: Kind | Constrained(kind) ensures NoClash(kind, ConnectorTables(tables, cid)[kind]) {
      KeepPairs(tables[kind], (row: Row) => Belongs(tables, cid, kind, row), (a: Row, b: Row) => !Clash(kind, a, b));
    }
  }

  lemma CloneFeasible(env: Env, tables: map<Kind, seq<Row>>, cid: int, suffix: string)
    requires Healthy(env, tables)
    ensures Feasible(ConnectorTables(tables, cid), CloneTrip(tables, suffix))
  {
    hide Healthy, ConnectorTables;
    forall row | row in ConnectorTables(tables, cid)[Destinations] ensures row.id in StoredIds(tables) {
      InPart(tables, cid, Destinations, row);
    }
  }

  lemma OnlyConnector(env: Env, tables: map<Kind, seq<Row>>, cid: int)
    requires Healthy(env, tables) && exists row :: row in tables[Connectors] && row.id == cid
    ensures |ConnectorTables(tables, cid)[Connectors]| == 1
  {
    hide Healthy, ConnectorTables;
    var kept := ConnectorTables(tables, cid)[Connectors];
    var row :| row in tables[Connectors] && row.id == cid;
    InPart(tables, cid, Connectors, row);
    PartPairs(env, tables, cid);
    if |kept| > 1 {
      InPart(tables, cid, Connectors, kept[0]);
      InPart(tables, cid, Connectors, kept[1]);
    }
  }

  /** The database is one in which cloning connector `cid` makes sense. */
  ghost predicate Clonable(env: Env, s: Database, cid: int) {
    && Sound(s) && RefsBehind(s) && Healthy(env, s.tables) && SourcesWithStreams(s.tables) && ConstraintsHold(s.tables)
    && exists row :: row in s.tables[Connectors] && row.id == cid
  }

  /** The call that clones is the import of an export that comes through. */
  lemma CloneApplies(env: Env, s: Database, cid: int, suffix: string, a: Answer, s2: Database)
    requires Clonable(env, s, cid) && Sound(s2) && Apply(env, s, CloneRequest(env, s.tables, cid, suffix), a, s2)
    ensures var part, trip := ConnectorTables(s.tables, cid), CloneTrip(s.tables, suffix);
      && Healthy(env, part) && Feasible(part, trip)
      && var plan := PlanOf(env, part, trip, s.next);
      && plan.Plan? && !plan.unbound && Complete(plan.created) && a == Done(ResponseTo(plan.created, plan.maps, NoKey))
      && s2.tables == Extended(s.tables, plan.created)
      && forall kind: Kind :: |plan.created[kind]| == |Travelling(part, trip, kind)|
  {
    hide Healthy, ConnectorTables, WorkspaceExport, ConstraintsHold, RefsBehind, Apply, PlanOf, Feasible,
      SourcesWithStreams, NormalizeKey, Extended, ResponseTo;
    var part, trip, q := ConnectorTables(s.tables, cid), CloneTrip(s.tables, suffix),
        CloneRequest(env, s.tables, cid, suffix);
    CloneIsParsed();
    PartHealthy(env, s.tables, cid);
    PartConstraints(s.tables, cid);
    CloneFeasible(env, s.tables, cid, suffix);
    assert NormalizeKey(q.key) == NoKey by { NoKeyGiven(); }
    ExportApplies(env, part, trip, s, q, a, s2);
    ExportImports(env, part, trip, s.next);
  }

  /** Cloning a connector of a healthy database always succeeds: one new connector, one new row for
      every row that belongs to the connector except its checkpoints, nothing else changed. */
  lemma CloneSucceeds(env: Env, s: Database, cid: int, suffix: string, a: Answer, s2: Database)
    requires Clonable(env, s, cid) && Sound(s2) && Apply(env, s, CloneRequest(env, s.tables, cid, suffix), a, s2)
    ensures a.Done? && a.response.connectorIds == [s.next[Connectors]]
    ensures forall kind: Kind ::
      var copied := if kind == Destinations || kind == Checkpoints then 0 else |ConnectorTables(s.tables, cid)[kind]|;
      s.tables[kind] <= s2.tables[kind] && |s2.tables[kind]| == |s.tables[kind]| + copied
  {
    hide Healthy, ConnectorTables, WorkspaceExport, ConstraintsHold, RefsBehind, Apply, PlanOf, Feasible,
      SourcesWithStreams;
    var part, trip := ConnectorTables(s.tables, cid), CloneTrip(s.tables, suffix);
    CloneApplies(env, s, cid, suffix, a, s2);
    OnlyConnector(env, s.tables, cid);
    assert PlanOf(env, part, trip, s.next).created[Connectors][0].id == s.next[Connectors] by {
      PlanIsImport(env, part, trip, s.next);
      CreatedIds(env, ExportOf(env, part, trip), trip.setting, s.next, Connectors);
    }
  }

  /** Row `copy` is a copy of `original`: it holds what that row holds but for what is masked, blank or
      reset, which is the settled columns, names with the suffix, references to the
      copies of the rows it referred to, routes to the same destinations. */
  ghost predicate IsCopy(env: Env, part: map<Kind, seq<Row>>, next: map<Kind, nat>, suffix: string, kind: Kind,
      original: Row, copy: Row)
    requires Complete(part) && Complete(next)
  {
    && copy.refs.Keys == Refs(kind)
    && (PlainNames(env.names) ==>
          ColumnsRestored(env, kind, original, copy.cols, if suffix == "" then " (copy)" else suffix))
    && copy.cols == Suffixed(kind, SettledColumns(env, kind, original), if suffix == "" then " (copy)" else suffix)
    && (forall f: Field, k :: f in Refs(kind) && f in original.refs && RefersToCopied(part, f, original, k) ==>
          f in copy.refs && copy.refs[f] == next[Target(f)] + k)
    && (DestinationId in Refs(kind) ==>
          DestinationId in original.refs && DestinationId in copy.refs
              && copy.refs[DestinationId] == original.refs[DestinationId])
  }

  /** By field `f` the row refers to the `k`-th row of a table that is copied. */
  ghost predicate RefersToCopied(part: map<Kind, seq<Row>>, f: Field, row: Row, k: nat)
    requires Complete(part)
  {
    Target(f) != Destinations && f in row.refs && RowAt(part[Target(f)], row.refs[f], k)
  }

  lemma PlannedCopy(env: Env, s: Database, cid: int, suffix: string, kind: Kind, i: nat)
    requires Clonable(env, s, cid) && Healthy(env, ConnectorTables(s.tables, cid))
    requires Feasible(ConnectorTables(s.tables, cid), CloneTrip(s.tables, suffix))
    requires kind != Destinations && kind != Checkpoints && i < |ConnectorTables(s.tables, cid)[kind]|
    ensures var part := ConnectorTables(s.tables, cid);
      var plan := PlanOf(env, part, CloneTrip(s.tables, suffix), s.next);
      && plan.Plan? && kind in plan.created && i < |plan.created[kind]|
      && plan.created[kind][i].id == s.next[kind] + i
      && IsCopy(env, part, s.next, suffix, kind, part[kind][i], plan.created[kind][i])
  {
    hide Healthy, ConnectorTables, WorkspaceExport, ConstraintsHold, RefsBehind, PlanImport, Feasible,
      SourcesWithStreams, Accepted, Usable, RowOf, RowAt, Refs, Target, SettledColumns, Suffixed, ExportFields,
          RowTyped, RowLinked, RowSupported, StoredIds, ColumnsRestored, PlainNames;
    var part, trip := ConnectorTables(s.tables, cid), CloneTrip(s.tables, suffix);
    var b, plan := ExportOf(env, part, trip), PlanOf(env, part, trip, s.next);
    ExportImports(env, part, trip, s.next);
    ExportEntries(env, part, false, false, kind);
    OneRowPerEntry(env, trip.setting.stored, b, Clone, trip.setting, s.next, kind);
    var row, made := part[kind][i], plan.created[kind][i];
    assert row in part[kind];
    HealthyRow(env, part, kind, row);
    MadeColumns(env, kind, trip.setting, row, s.next[kind] + i, made);
    if PlainNames(env.names) {
      RestoresExactly(env, kind, trip.setting, row, s.next[kind] + i, made);
    }
    forall f: Field, k: nat | f in Refs(kind) && RefersToCopied(part, f, row, k)
      ensures f in made.refs && made.refs[f] == s.next[Target(f)] + k
    {
      MadeRef(env, part, trip, s.next, kind, i, f, k);
    }
    if DestinationId in Refs(kind) {
      OnlyRoutes(kind);
      CloneKeepsDestinations(env, s, cid, suffix, i);
    }
  }

  /** Each new row is a copy of one of the connector's, in their order. */
  lemma CloneCopies(env: Env, s: Database, cid: int, suffix: string, a: Answer, s2: Database, kind: Kind, i: nat)
    requires Clonable(env, s, cid) && Sound(s2) && Apply(env, s, CloneRequest(env, s.tables, cid, suffix), a, s2)
    requires kind != Destinations && kind != Checkpoints && i < |ConnectorTables(s.tables, cid)[kind]|
    ensures var part, at := ConnectorTables(s.tables, cid), |s.tables[kind]| + i;
      && at < |s2.tables[kind]| && s2.tables[kind][at].id == s.next[kind] + i
      && IsCopy(env, part, s.next, suffix, kind, part[kind][i], s2.tables[kind][at])
  {
    hide Healthy, ConnectorTables, WorkspaceExport, ConstraintsHold, RefsBehind, Apply, PlanOf, Feasible,
      SourcesWithStreams, IsCopy;
    CloneApplies(env, s, cid, suffix, a, s2);
    PlannedCopy(env, s, cid, suffix, kind, i);
    var plan := PlanOf(env, ConnectorTables(s.tables, cid), CloneTrip(s.tables, suffix), s.next);
    assert s2.tables[kind] == s.tables[kind] + plan.created[kind];
  }

  lemma OnlyRoutes(kind: Kind)
    ensures DestinationId in Refs(kind) <==> kind == Routes
  {}

  lemma NoKeyGiven()
    ensures NormalizeKey(None).NoKey?
  {}

  lemma PlanIsImport(env: Env, tables: map<Kind, seq<Row>>, trip: Trip, next: map<Kind, nat>)
    requires Complete(tables) && Complete(next)
    ensures PlanOf(env, tables, trip, next) == PlanImport(env, ExportOf(env, tables, trip), trip.setting, next)
  {}

  /** The clone's routes go to the destinations of the original's. */
  lemma CloneKeepsDestinations(env: Env, s: Database, cid: int, suffix: string, i: nat)
    requires Healthy(env, s.tables) && SourcesWithStreams(s.tables) && Complete(s.next)
    requires exists row :: row in s.tables[Connectors] && row.id == cid
    requires i < |ConnectorTables(s.tables, cid)[Routes]|
    ensures var plan := PlanOf(env, ConnectorTables(s.tables, cid), CloneTrip(s.tables, suffix), s.next);
      var original := ConnectorTables(s.tables, cid)[Routes][i];
      && plan.Plan? && Routes in plan.created && i < |plan.created[Routes]|
      && DestinationId in original.refs && DestinationId in plan.created[Routes][i].refs
      && plan.created[Routes][i].refs[DestinationId] == original.refs[DestinationId]
  {
    hide Healthy, ConnectorTables, WorkspaceExport, PlanImport, Feasible, SourcesWithStreams, Accepted;
    var part, trip := ConnectorTables(s.tables, cid), CloneTrip(s.tables, suffix);
    var b := ExportOf(env, part, trip);
    PartHealthy(env, s.tables, cid);
    CloneFeasible(env, s.tables, cid, suffix);
    AsManyCreated(env, part, trip, s.next, Routes);
    ExportImports(env, part, trip, s.next);
    ImportedEntry(env, part, trip, Routes, i, DestinationId);
    PlanRef(env, trip.setting.stored, b, Clone, trip.setting, s.next, Routes, i, DestinationId);
    PlanIds(env, trip.setting.stored, b, Clone, trip.setting, s.next, Destinations);
    ExportEntries(env, part, false, false, Destinations);
    assert ExportIds(env, Entries(b, Destinations)) == {};
  }
}
