/**
 Workspace exports: what they write of a row, and that every database accepts the export of a healthy
 one. Importing it and exporting it again is in `BackupRoundTrip`.
 */
module BackupExport {
  import opened Options
  import opened Strings
  import opened BackupJson
  import opened BackupStore
  import opened BackupValidator
  import opened BackupImport
  import opened BackupGraph

  // ---- Serializers (app/backup/export_builder.py) ---------------------------------------------------

  /** How a column is exported: secrets are masked, the rest is copied. */
  function ExportColumn(env: Env, kind: Kind, f: Field, v: JSON): JSON {
    match (kind, f)
    case (Sources, ConfigJson) => MaskSecrets(env.names, v)
    case (Sources, AuthJson) => if v.Obj? then Obj(MaskAuth(env.names, env.show, v.fields)) else v
    case (Streams, ConfigJson) => MaskConfig(env.names, env.show, false, v)
    case (Destinations, ConfigJson) => MaskConfig(env.names, env.show, true, v)
    case (Checkpoints, CheckpointValueJson) => MaskSecretsAndPem(env.names, v)
    case _ => v
  }

  /** The fields of an exported row: its id, its references, its columns. */
  function ExportFields(env: Env, kind: Kind, row: Row): map<Field, JSON> {
    (map f | f in row.cols.Keys :: ExportColumn(env, kind, f, row.cols[f]))
    + (map f | f in row.refs.Keys :: Num(row.refs[f]))
    + map[Id := Num(row.id)]
  }

  function ExportRows(env: Env, kind: Kind, rows: seq<Row>): seq<Entry> {
    seq(|rows|, i requires 0 <= i < |rows| => Object(ExportFields(env, kind, rows[i])))
  }

  /** `build_workspace_export`; tables are in ascending order of their ids. */
  function WorkspaceExport(env: Env, tables: map<Kind, seq<Row>>, includeDestinations: bool,
      includeCheckpoints: bool): Bundle
    requires Complete(tables)
  {
    Bundle(Num(2),
      Rows(ExportRows(env, Connectors, tables[Connectors])),
      Rows(ExportRows(env, Sources, tables[Sources])),
      Rows(ExportRows(env, Streams, tables[Streams])),
      Rows(ExportRows(env, Mappings, tables[Mappings])),
      Rows(ExportRows(env, Enrichments, tables[Enrichments])),
      Rows(if includeDestinations then ExportRows(env, Destinations, tables[Destinations]) else []),
      Rows(ExportRows(env, Routes, tables[Routes])),
      Rows(if includeCheckpoints then ExportRows(env, Checkpoints, tables[Checkpoints]) else []))
  }

  // ---- Healthy databases ----------------------------------------------------------------------------

  /** The column holds a value of its database type. */
  predicate Typed(column: Column, v: JSON) {
    match column
    case Words(_) => v.Str?
    case DestinationWords => v.Str?
    case Raw => v.Str? || v == Null
    case Dict => v.Obj?
    case Stripped => v.Obj?
    case Auth => v.Obj?
    case Flag => v.Bool?
    case Interval => v.Num?
    case Fixed(value) => v.Str? || v.Bool?
  }

  predicate RowTyped(kind: Kind, row: Row) {
    && row.refs.Keys == Refs(kind)
    && row.cols.Keys == Columns(kind).Keys
    && forall f :: f in Columns(kind) ==> Typed(Columns(kind)[f], row.cols[f])
  }

  /** The foreign keys of the row lead to rows. */
  predicate RowLinked(tables: map<Kind, seq<Row>>, kind: Kind, row: Row)
    requires Complete(tables)
  {
    forall f :: f in row.refs ==> exists target :: target in tables[Target(f)] && target.id == row.refs[f]
  }

  /** What the validator checks of types and policies. */
  predicate RowSupported(env: Env, kind: Kind, row: Row) {
    && (kind == Sources && SourceType in row.cols ==> SourceSupported(env, row.cols[SourceType]))
    && (kind == Destinations && DestinationType in row.cols ==> DestinationSupported(env, row.cols[DestinationType]))
    && (kind == Routes && FailurePolicy in row.cols ==> PolicySupported(env, row.cols[FailurePolicy]))
  }

  predicate DistinctRowIds(rows: seq<Row>) {
    forall i, k :: 0 <= i < k < |rows| ==> rows[i].id != rows[k].id
  }

  function RowNameKey(kind: Kind, row: Row): Option<(int, string)> {
    if Name !in row.cols || !row.cols[Name].Str? || Trim(row.cols[Name].text) == "" then None
    else if kind == Connectors then Some((0, Trim(row.cols[Name].text)))
    else if ConnectorId in row.refs then Some((row.refs[ConnectorId], Trim(row.cols[Name].text)))
    else None
  }

  predicate DistinctNames(kind: Kind, rows: seq<Row>) {
    forall i, k :: 0 <= i < k < |rows| && RowNameKey(kind, rows[i]).Some? ==>
        RowNameKey(kind, rows[i]) != RowNameKey(kind, rows[k])
  }

  predicate RoutesMapped(tables: map<Kind, seq<Row>>)
    requires Complete(tables)
  {
    forall r :: r in tables[Routes] && StreamId in r.refs ==>
      exists m :: m in tables[Mappings] && StreamId in m.refs && m.refs[StreamId] == r.refs[StreamId]
  }

  /** A database as the application keeps it: typed columns, valid references, primary keys; some
      connector; distinct names; supported types and policies; a mapping for every routed stream. */
  predicate Healthy(env: Env, tables: map<Kind, seq<Row>>): (healthy: bool)
    ensures healthy ==> Complete(tables)
  {
    && Complete(tables)
    && (forall kind: Kind :: DistinctRowIds(tables[kind]))
    && (forall kind: Kind, row :: row in tables[kind] ==>
        RowTyped(kind, row) && RowLinked(tables, kind, row) && RowSupported(env, kind, row))
    && tables[Connectors] != []
    && DistinctNames(Connectors, tables[Connectors]) && DistinctNames(Streams, tables[Streams])
    && RoutesMapped(tables)
  }

  // ---- An export is accepted ------------------------------------------------------------------------

  /** What the export of a row lets a reader see. */
  lemma ShapedFields(env: Env, kind: Kind, row: Row)
    requires row.refs.Keys == Refs(kind) && row.cols.Keys == Columns(kind).Keys
    ensures var fields := ExportFields(env, kind, row);
      && fields.Keys == Refs(kind) + Columns(kind).Keys + {Id}
      && Id in fields && fields[Id] == Num(row.id)
      && IdOf(env, Object(fields)) == Some(row.id)
      && (forall f :: f in Refs(kind) ==>
          f in fields && fields[f] == Num(row.refs[f]) && GetInt(env, fields, f) == Some(row.refs[f]))
      && (forall f :: f in Columns(kind) ==> f in fields && fields[f] == ExportColumn(env, kind, f, row.cols[f]))
  {
    hide ExportColumn, Columns, Refs;
    ColumnsApart(kind);
  }

  lemma ExportedFields(env: Env, kind: Kind, row: Row)
    requires RowTyped(kind, row)
    ensures var fields := ExportFields(env, kind, row);
      && Id in fields && fields[Id] == Num(row.id)
      && IdOf(env, Object(fields)) == Some(row.id)
      && (forall f :: f in Refs(kind) ==>
          f in fields && fields[f] == Num(row.refs[f]) && GetInt(env, fields, f) == Some(row.refs[f]))
      && (forall f :: f in Columns(kind) ==> f in fields && fields[f] == ExportColumn(env, kind, f, row.cols[f]))
  {
    hide ExportColumn, ExportFields, Columns, Refs, Typed, IdOf;
    ShapedFields(env, kind, row);
  }

  lemma ColumnsApart(kind: Kind)
    ensures Refs(kind) !! Columns(kind).Keys && Id !in Columns(kind) && Id !in Refs(kind)
  {}

  /** Every destination of the exported database is a destination here, too. */
  predicate Stores(stored: set<int>, tables: map<Kind, seq<Row>>)
    requires Complete(tables)
  {
    forall row :: row in tables[Destinations] ==> row.id in stored
  }

  /** The table a kind's entries come from. */
  function Exported(tables: map<Kind, seq<Row>>, includeDestinations: bool, includeCheckpoints: bool,
      kind: Kind): seq<Row>
    requires Complete(tables)
  {
    if (kind == Checkpoints && !includeCheckpoints) || (kind == Destinations && !includeDestinations) then []
        else tables[kind]
  }

  lemma ExportEntries(env: Env, tables: map<Kind, seq<Row>>, includeDestinations: bool, includeCheckpoints: bool,
      kind: Kind)
    requires Complete(tables)
    ensures var b := WorkspaceExport(env, tables, includeDestinations, includeCheckpoints);
      !SectionOf(b, kind).Scalar? && Entries(b, kind) == ExportRows(env, kind,
          Exported(tables, includeDestinations, includeCheckpoints, kind))
  {
    hide ExportFields;
    match kind case Destinations => case Connectors => case Sources => case Streams =>
    case Mappings => case Enrichments => case Checkpoints => case Routes =>
  }

  lemma ExportedIds(env: Env, kind: Kind, rows: seq<Row>)
    requires forall row :: row in rows ==> RowTyped(kind, row)
    ensures ExportIds(env, ExportRows(env, kind, rows)) == set row | row in rows :: row.id
  {
    hide ExportFields, RowTyped, IdOf;
    var entries := ExportRows(env, kind, rows);
    forall i | 0 <= i < |rows| ensures IdOf(env, entries[i]) == Some(rows[i].id) {
      ExportedFields(env, kind, rows[i]);
    }
    forall row | row in rows ensures row.id in ExportIds(env, entries) {
      var i :| 0 <= i < |rows| && rows[i] == row;
      assert entries[i] in entries;
    }
    forall id | id in ExportIds(env, entries) ensures exists row :: row in rows && row.id == id {
      var e :| e in entries && IdOf(env, e) == Some(id);
      var i :| 0 <= i < |entries| && entries[i] == e;
      assert rows[i] in rows;
    }
  }

  lemma ExportedNames(env: Env, kind: Kind, rows: seq<Row>)
    requires kind == Connectors || kind == Streams
    requires forall row :: row in rows ==> RowTyped(kind, row)
    requires DistinctNames(kind, rows)
    ensures !RepeatsName(env, kind, ExportRows(env, kind, rows))
  {
    hide ExportFields, NameKey, RowNameKey, RowTyped;
    var entries := ExportRows(env, kind, rows);
    forall i | 0 <= i < |rows| ensures NameKey(env, kind, entries[i]) == RowNameKey(kind, rows[i]) {
      ExportedName(env, kind, rows[i]);
    }
  }

  lemma ExportedName(env: Env, kind: Kind, row: Row)
    requires (kind == Connectors || kind == Streams) && RowTyped(kind, row)
    ensures NameKey(env, kind, Object(ExportFields(env, kind, row))) == RowNameKey(kind, row)
  {
    hide ExportFields, Trim;
    ExportedFields(env, kind, row);
    assert Typed(Columns(kind)[Name], row.cols[Name]);
    assert TrimRight("") == "" && Trim("") == "" by { TrimsToNothing(""); }
  }

  lemma HealthyRow(env: Env, tables: map<Kind, seq<Row>>, kind: Kind, row: Row)
    requires Healthy(env, tables) && row in tables[kind]
    ensures RowTyped(kind, row) && RowLinked(tables, kind, row) && RowSupported(env, kind, row)
  {
    hide RowTyped, RowLinked, RowSupported, DistinctNames, DistinctRowIds, RoutesMapped;
  }

  lemma ExportedRefKnown(env: Env, stored: set<int>, tables: map<Kind, seq<Row>>, includeDestinations: bool,
      includeCheckpoints: bool, kind: Kind, row: Row, f: Field)
    requires Healthy(env, tables) && row in tables[kind] && f in Refs(kind)
    requires includeDestinations || Stores(stored, tables)
    ensures f in row.refs
    ensures row.refs[f] in KnownTo(KnownIds(env, stored,
        WorkspaceExport(env, tables, includeDestinations, includeCheckpoints)), f)
  {
    hide Healthy, WorkspaceExport, ExportIds, ExportRows, RowTyped, Refs;
    var target := Target(f);
    HealthyRow(env, tables, kind, row);
    RowKeys(kind, row);
    var to :| to in tables[target] && to.id == row.refs[f];
    ExportEntries(env, tables, includeDestinations, includeCheckpoints, target);
    forall any | any in tables[target] ensures RowTyped(target, any) {
      HealthyRow(env, tables, target, any);
    }
    ExportedIds(env, target, tables[target]);
  }

  lemma ExportedSupport(env: Env, kind: Kind, row: Row)
    requires RowTyped(kind, row) && RowSupported(env, kind, row)
    ensures var fields := ExportFields(env, kind, row);
      && (kind == Sources ==> SourceSupported(env, Get(fields, SourceType)))
      && (kind == Destinations ==> DestinationSupported(env, Get(fields, DestinationType)))
      && (kind == Routes ==> PolicySupported(env, Get(fields, FailurePolicy)))
  {
    hide ExportFields, SourceSupported, DestinationSupported, PolicySupported, Typed;
    ExportedFields(env, kind, row);
  }

  lemma ExportedEntryFine(env: Env, stored: set<int>, tables: map<Kind, seq<Row>>, includeDestinations: bool,
      includeCheckpoints: bool, kind: Kind, row: Row)
    requires Healthy(env, tables) && row in tables[kind]
    requires includeDestinations || Stores(stored, tables)
    ensures EntryFine(env, KnownIds(env, stored,
        WorkspaceExport(env, tables, includeDestinations, includeCheckpoints)), kind,
            Object(ExportFields(env, kind, row)))
  {
    hide Healthy, ExportFields, SourceSupported, DestinationSupported, PolicySupported, WorkspaceExport, RowTyped,
      RowLinked, RowSupported, IdOf, KnownIds, KnownTo;
    HealthyRow(env, tables, kind, row);
    ExportedFields(env, kind, row);
    ExportedSupport(env, kind, row);
    forall f | f in Refs(kind)
      ensures f in row.refs
      ensures row.refs[f] in KnownTo(KnownIds(env, stored,
          WorkspaceExport(env, tables, includeDestinations, includeCheckpoints)), f)
    {
      ExportedRefKnown(env, stored, tables, includeDestinations, includeCheckpoints, kind, row, f);
    }
    assert kind == Sources ==> ConnectorId in Refs(kind);
  }

  lemma RowKeys(kind: Kind, row: Row)
    requires RowTyped(kind, row)
    ensures row.refs.Keys == Refs(kind) && row.cols.Keys == Columns(kind).Keys
  {}

  lemma ExportedStreamRefs(env: Env, kind: Kind, rows: seq<Row>)
    requires StreamId in Refs(kind) && forall row :: row in rows ==> RowTyped(kind, row)
    ensures StreamRefs(env, ExportRows(env, kind, rows)) == set row | row in rows && StreamId in row.refs ::
        row.refs[StreamId]
  {
    hide ExportFields, Refs, Columns;
    var entries := ExportRows(env, kind, rows);
    forall i | 0 <= i < |rows|
      ensures StreamId in rows[i].refs && Get(entries[i].fields, StreamId) == Num(rows[i].refs[StreamId])
    {
      ExportedFields(env, kind, rows[i]);
      RowKeys(kind, rows[i]);
    }
    forall row | row in rows ensures StreamId in row.refs && row.refs[StreamId] in StreamRefs(env, entries) {
      var i :| 0 <= i < |rows| && rows[i] == row;
      assert entries[i] in entries;
    }
    forall id | id in StreamRefs(env, entries)
      ensures exists row :: row in rows && StreamId in row.refs && row.refs[StreamId] == id
    {
      var e :| e in entries && e.Object? && ToInt(env, Get(e.fields, StreamId)) == Some(id);
      var i :| 0 <= i < |entries| && entries[i] == e;
      assert rows[i] in rows;
    }
  }

  lemma ExportLinked(env: Env, tables: map<Kind, seq<Row>>, includeDestinations: bool, includeCheckpoints: bool)
    requires Healthy(env, tables)
    ensures Linked(env, WorkspaceExport(env, tables, includeDestinations, includeCheckpoints))
  {
    hide WorkspaceExport, ExportRows, StreamRefs, Entries, RowTyped, RowLinked, RowSupported, DistinctNames,
      DistinctRowIds, Refs;
    ExportEntries(env, tables, includeDestinations, includeCheckpoints, Routes);
    ExportEntries(env, tables, includeDestinations, includeCheckpoints, Mappings);
    assert StreamId in Refs(Routes) && StreamId in Refs(Mappings) by { StreamRefKinds(); }
    ExportedStreamRefs(env, Routes, tables[Routes]);
    ExportedStreamRefs(env, Mappings, tables[Mappings]);
    SameLength(env, Routes, tables[Routes]);
    SameLength(env, Mappings, tables[Mappings]);
    if tables[Routes] != [] {
      HealthyRow(env, tables, Routes, tables[Routes][0]);
      RowKeys(Routes, tables[Routes][0]);
    }
  }

  lemma StreamRefKinds()
    ensures StreamId in Refs(Routes) && StreamId in Refs(Mappings)
  {}

  lemma SameLength(env: Env, kind: Kind, rows: seq<Row>)
    ensures |ExportRows(env, kind, rows)| == |rows|
  {}

  /** A workspace export with destinations is accepted by every database, one without them by the
      databases that have rows with their ids. */
  lemma ExportAccepted(env: Env, stored: set<int>, tables: map<Kind, seq<Row>>, includeDestinations: bool,
      includeCheckpoints: bool, mode: Mode)
    requires Healthy(env, tables) && (mode == Additive || mode == Clone)
    requires includeDestinations || Stores(stored, tables)
    ensures Accepted(env, stored, WorkspaceExport(env, tables, includeDestinations, includeCheckpoints), mode)
  {
    hide Accepted, Healthy, EntryFine, KnownIds, RepeatsName, Linked, ExportFields, RowTyped, DistinctNames;
    var b := WorkspaceExport(env, tables, includeDestinations, includeCheckpoints);
    forall kind, e | e in Entries(b, kind)
      ensures EntryFine(env, KnownIds(env, stored, b), kind, e) && (HasId(e) ==> IdOf(env, e).Some?)
    {
      ExportEntries(env, tables, includeDestinations, includeCheckpoints, kind);
      var i :| 0 <= i < |Entries(b, kind)| && Entries(b, kind)[i] == e;
      var row := tables[kind][i];
      assert row in tables[kind];
      ExportedEntryFine(env, stored, tables, includeDestinations, includeCheckpoints, kind, row);
      HealthyRow(env, tables, kind, row);
      ExportedFields(env, kind, row);
    }
    forall kind ensures !SectionOf(b, kind).Scalar? {
      ExportEntries(env, tables, includeDestinations, includeCheckpoints, kind);
    }
    HealthyNames(env, tables);
    ExportEntries(env, tables, includeDestinations, includeCheckpoints, Connectors);
    ExportEntries(env, tables, includeDestinations, includeCheckpoints, Streams);
    ExportedNames(env, Connectors, tables[Connectors]);
    ExportedNames(env, Streams, tables[Streams]);
    ExportLinked(env, tables, includeDestinations, includeCheckpoints);
    AcceptedExactly(env, stored, b, mode);
  }

  lemma HealthyNames(env: Env, tables: map<Kind, seq<Row>>)
    requires Healthy(env, tables)
    ensures Complete(tables) && tables[Connectors] != []
    ensures DistinctNames(Connectors, tables[Connectors]) && DistinctNames(Streams, tables[Streams])
    ensures forall row :: row in tables[Connectors] ==> RowTyped(Connectors, row)
    ensures forall row :: row in tables[Streams] ==> RowTyped(Streams, row)
  {
    hide RowTyped, RowLinked, RowSupported, DistinctNames, DistinctRowIds, RoutesMapped;
  }
}
