/**
 The round trip: a workspace export of a healthy database can be applied to any other database, and
 exporting the rows it created gives the exported configuration again, up to new ids, the reset of
 running state, defaults for blank fields and the loss of masked values.
 */
module BackupRoundTrip {
  import opened Options
  import opened Strings
  import opened BackupJson
  import opened BackupMasking
  import opened BackupStore
  import opened BackupValidator
  import opened BackupImport
  import opened BackupGraph
  import opened BackupService
  import opened BackupApply
  import opened BackupExport
  import opened BackupRestored

  /** What an exported column value is after an import and another export. */
  function Settled(env: Env, kind: Kind, f: Field, x: JSON, oldId: int): JSON
    requires f in Columns(kind)
  {
    match Columns(kind)[f]
    case Words(default) => if x == Str("") then Str(default) else x
    case DestinationWords => if x == Str("") then Str("imported-destination-" + env.show(Num(oldId))) else x
    case Raw => x
    case Dict => x
    case Flag => x
    case Stripped => Strip(x)
    case Auth => if x.Obj? then Obj(WithAuthType(StripDict(x.fields))) else x
    case Interval => if x == Num(0) then Num(60) else x
    case Fixed(value) => value
  }

  /** A source whose null preflight headers are not printed as "None" (see `PrintsNull`). */
  predicate AuthPortable(env: Env, column: Column, v: JSON) {
    column.Auth? && v.Obj? ==> !PrintsNull(env.names, v.fields)
  }

  lemma PortableAuthSettles(env: Env, auth: map<string, JSON>)
    requires PlainNames(env.names) && !PrintsNull(env.names, auth)
    ensures var kept := WithAuthType(StripDict(MaskAuth(env.names, env.show, auth)));
      MaskAuth(env.names, env.show, kept) == kept
  {
    hide Sensitive, PrintsNull, MaskAuth;
    var masked := MaskAuth(env.names, env.show, auth);
    MaskAuthMasks(env.names, env.show, auth);
    StripBlanksSecrets(env.names, Obj(masked));
    var stripped := StripDict(masked);
    var kept := WithAuthType(stripped);
    if HasPreflight(kept) {
      assert AUTH_TYPE != PREFLIGHT by { assert |AUTH_TYPE| != |PREFLIGHT|; }
      assert stripped[PREFLIGHT] == Strip(masked[PREFLIGHT]);
      StripKeepsSettled(false, masked[PREFLIGHT].fields);
    }
    AuthStays(env.names, env.show, kept);
  }

  /** A null preflight header that masking prints is masked by the next export. */
  lemma PrintedAuthDiffers(env: Env, auth: map<string, JSON>)
    requires PlainNames(env.names) && env.show(Null) == "None" && PrintsNull(env.names, auth)
    ensures var kept := WithAuthType(StripDict(MaskAuth(env.names, env.show, auth)));
      MaskAuth(env.names, env.show, kept) != kept
  {
    hide Sensitive, SensitiveHeader, MaskAuth;
    var h :| h in auth[PREFLIGHT].fields && auth[PREFLIGHT].fields[h] == Null && Sensitive(env.names, h)
        && !SensitiveHeader(h);
    var masked := MaskAuth(env.names, env.show, auth);
    NullIsPrinted(env.names, env.show, auth, h);
    assert AUTH_TYPE != PREFLIGHT by { assert |AUTH_TYPE| != |PREFLIGHT|; }
    var stripped := StripDict(masked);
    assert masked[PREFLIGHT] != MASK && stripped[PREFLIGHT] == Strip(masked[PREFLIGHT]);
    assert Str("None") != MASK by { assert |"None"| != |"********"|; }
    StripKeepsText(masked[PREFLIGHT].fields, h);
    var kept := WithAuthType(stripped);
    PrintedIsMasked(env.names, env.show, kept, h);
  }

  lemma StripKeepsText(fields: map<string, JSON>, h: string)
    requires h in fields && fields[h].Str? && fields[h] != MASK
    ensures Strip(Obj(fields)).Obj? && h in Strip(Obj(fields)).fields && Strip(Obj(fields)).fields[h] == fields[h]
  {}

  lemma PrintedIsMasked(names: set<string>, show: JSON -> string, auth: map<string, JSON>, h: string)
    requires !Sensitive(names, PREFLIGHT) && HasPreflight(auth) && h in auth[PREFLIGHT].fields
    requires auth[PREFLIGHT].fields[h] == Str("None") && Sensitive(names, h) && !SensitiveHeader(h)
    ensures MaskAuth(names, show, auth) != auth
  {
    hide Sensitive, SensitiveHeader;
    assert MaskSecrets(names, auth[PREFLIGHT]).fields[h] == MASK;
    assert MaskAuth(names, show, auth)[PREFLIGHT].fields[h] == MASK;
    assert Str("None") != MASK by { assert |"None"| != |"********"|; }
  }

  lemma AuthSettlesExactly(env: Env, auth: map<string, JSON>)
    requires PlainNames(env.names) && env.show(Null) == "None"
    ensures var kept := WithAuthType(StripDict(MaskAuth(env.names, env.show, auth)));
      MaskAuth(env.names, env.show, kept) == kept <==> !PrintsNull(env.names, auth)
  {
    hide MaskAuth, WithAuthType, StripDict, PrintsNull;
    if PrintsNull(env.names, auth) {
      PrintedAuthDiffers(env, auth);
    } else {
      PortableAuthSettles(env, auth);
    }
  }

  lemma CheckpointSettles(names: set<string>, j: JSON)
    ensures MaskSecretsAndPem(names, MaskSecretsAndPem(names, j)) == MaskSecretsAndPem(names, j)
  {
    MaskSecretsMasks(names, j);
    RedactKeepsSecretsMasked(names, MaskSecrets(names, j));
    MaskedStays(names, MaskSecretsAndPem(names, j));
    RedactLeavesNoPem(MaskSecrets(names, j));
    NothingToRedact(MaskSecretsAndPem(names, j));
  }

  /** Exported columns keep their types. */
  lemma ExportTyped(env: Env, kind: Kind, f: Field, v: JSON)
    requires f in Columns(kind) && Typed(Columns(kind)[f], v)
    ensures Typed(Columns(kind)[f], ExportColumn(env, kind, f, v))
  {
    hide MaskAuth, Sensitive, SensitiveHeader, Lower;
  }

  /** An import can read every exported column. */
  lemma ReadTyped(env: Env, column: Column, fields: map<Field, JSON>, f: Field, oldId: int)
    requires f in fields && Typed(column, fields[f])
    ensures ReadColumn(env, column, fields, f, oldId).Some?
    ensures column.Stripped? ==> ReadColumn(env, column, fields, f, oldId).value == Strip(fields[f])
    ensures column.Auth? ==>
        ReadColumn(env, column, fields, f, oldId).value == Obj(WithAuthType(StripDict(fields[f].fields)))
    ensures column.Dict? || column.Raw? || column.Flag? ==> ReadColumn(env, column, fields, f, oldId).value == fields[f]
    ensures column.Interval? ==>
        ReadColumn(env, column, fields, f, oldId).value == if fields[f] == Num(0) then Num(60) else fields[f]
  {
    hide WithAuthType;
  }

  /** What an import reads of an exported column is the settled value. */
  lemma ReadSettled(env: Env, kind: Kind, fields: map<Field, JSON>, f: Field, v: JSON, oldId: int)
    requires f in Columns(kind) && Typed(Columns(kind)[f], v)
    requires f in fields && fields[f] == ExportColumn(env, kind, f, v)
    ensures ReadColumn(env, Columns(kind)[f], fields, f, oldId) == Some(Settled(env, kind, f, fields[f], oldId))
  {
    hide ExportColumn, Strip, WithAuthType, StripDict;
    ExportTyped(env, kind, f, v);
    ReadTyped(env, Columns(kind)[f], fields, f, oldId);
  }

  /** One column, out and in and out again: the settled value, except exactly for the credentials of a
      source with a null preflight header that masking prints as "None". */
  lemma ColumnRoundTrip(env: Env, kind: Kind, fields: map<Field, JSON>, f: Field, v: JSON, oldId: int)
    requires f in Columns(kind) && Typed(Columns(kind)[f], v) && PlainNames(env.names) && env.show(Null) == "None"
    requires f in fields && fields[f] == ExportColumn(env, kind, f, v)
    ensures var y := ReadColumn(env, Columns(kind)[f], fields, f, oldId);
      && y.Some?
      && (ExportColumn(env, kind, f, y.value) == Settled(env, kind, f, fields[f], oldId)
          <==> AuthPortable(env, Columns(kind)[f], v))
  {
    hide MaskAuth, MaskConfig, MaskSecrets, MaskSecretsAndPem, Strip, WithAuthType, StripDict, PrintsNull, Sensitive,
      ReadColumn, PlainNames;
    ReadSettled(env, kind, fields, f, v, oldId);
    ExportTyped(env, kind, f, v);
    match Columns(kind)[f]
    case Stripped =>
      SecretsSettle(env.names, v);
      ConfigSettles(env.names, env.show, false, v);
      ConfigSettles(env.names, env.show, true, v);
    case Auth =>
      AuthSettlesExactly(env, v.fields);
    case Dict =>
      CheckpointSettles(env.names, v);
    case _ =>
  }

  lemma AuthSettledStays(auth: map<string, JSON>)
    ensures var kept := WithAuthType(StripDict(auth)); WithAuthType(StripDict(kept)) == kept
  {
    var stripped := StripDict(auth);
    var kept := WithAuthType(stripped);
    StripLeavesNoMask(Obj(auth));
    assert MaskFree(Obj(stripped));
    assert Str("no_auth") != MASK && MaskFree(Str("no_auth"));
    assert MaskFree(Obj(kept));
    StripFixes(Obj(kept));
  }

  /** Further round trips change nothing but ids. */
  lemma SettledIdempotent(env: Env, kind: Kind, f: Field, x: JSON, oldId: int, laterId: int)
    requires f in Columns(kind)
    ensures Settled(env, kind, f, Settled(env, kind, f, x, oldId), laterId) == Settled(env, kind, f, x, oldId)
  {
    hide Strip, StripDict, WithAuthType;
    StripIdempotent(x);
    if x.Obj? {
      AuthSettledStays(x.fields);
    }
    var name := "imported-destination-" + env.show(Num(oldId));
    assert |name| > 0;
  }

  // ---- Every export can be applied ------------------------------------------------------------------

  lemma ExportReadable(env: Env, kind: Kind, row: Row, oldId: int)
    requires RowTyped(kind, row)
    ensures Readable(env, kind, ExportFields(env, kind, row), oldId)
  {
    hide ExportFields, ReadColumn, ExportColumn, Typed, Columns;
    ExportedFields(env, kind, row);
    var fields := ExportFields(env, kind, row);
    forall f | f in Columns(kind) ensures ReadColumn(env, Columns(kind)[f], fields, f, oldId).Some? {
      ExportTyped(env, kind, f, row.cols[f]);
      ReadTyped(env, Columns(kind)[f], fields, f, oldId);
    }
  }

  /** How a configuration travels: what is exported, and how it is imported. */
  datatype Trip = Trip(destinations: bool, checkpoints: bool, mode: Mode, setting: Setting)

  /** An additive import takes the destinations along; a clone may find them in the database. */
  predicate Feasible(tables: map<Kind, seq<Row>>, trip: Trip)
    requires Complete(tables)
  {
    || (trip.mode == Additive && !trip.setting.clone && trip.destinations)
    || (trip.mode == Clone && trip.setting.clone && (trip.destinations || Stores(trip.setting.stored, tables)))
  }

  /** An additive import into a database with these tables. */
  function Into(tables: map<Kind, seq<Row>>): Setting
    requires Complete(tables)
  {
    Setting(false, StoredIds(tables), "")
  }

  function Additively(includeCheckpoints: bool, target: map<Kind, seq<Row>>): Trip
    requires Complete(target)
  {
    Trip(true, includeCheckpoints, Additive, Into(target))
  }

  function ExportOf(env: Env, tables: map<Kind, seq<Row>>, trip: Trip): Bundle
    requires Complete(tables)
  {
    WorkspaceExport(env, tables, trip.destinations, trip.checkpoints)
  }

  function PlanOf(env: Env, tables: map<Kind, seq<Row>>, trip: Trip, next: map<Kind, nat>): Plan
    requires Complete(tables) && Complete(next)
  {
    PlanImport(env, ExportOf(env, tables, trip), trip.setting, next)
  }

  lemma ExportUsable(env: Env, tables: map<Kind, seq<Row>>, trip: Trip, kind: Kind)
    requires Healthy(env, tables) && Feasible(tables, trip)
    ensures AllUsable(env, ExportOf(env, tables, trip), trip.setting, kind)
  {
    hide Healthy, ExportFields, RowTyped, RowLinked, RowSupported, Readable, ExportIds, KnownIds, IdOf;
    var b := ExportOf(env, tables, trip);
    ExportEntries(env, tables, trip.destinations, trip.checkpoints, kind);
    forall e | e in Imported(b, trip.setting, kind)
      ensures Usable(env, kind, e) && Resolved(env, b, trip.setting, kind, e)
    {
      var i :| 0 <= i < |Entries(b, kind)| && Entries(b, kind)[i] == e;
      var row := tables[kind][i];
      assert row in tables[kind];
      HealthyRow(env, tables, kind, row);
      ExportedFields(env, kind, row);
      ExportReadable(env, kind, row, if Mapped(kind) then row.id else 0);
      if kind == Routes && !trip.setting.clone {
        assert DestinationId in Refs(kind);
        ExportedRefKnown(env, {}, tables, true, trip.checkpoints, kind, row, DestinationId);
        KnownDestinations(env, b);
      }
    }
  }

  lemma KnownDestinations(env: Env, b: Bundle)
    ensures KnownTo(KnownIds(env, {}, b), DestinationId) == ExportIds(env, Entries(b, Destinations))
  {}

  /** The import of such an export comes through: of a workspace, in every database. */
  lemma ExportImports(env: Env, tables: map<Kind, seq<Row>>, trip: Trip, next: map<Kind, nat>)
    requires Healthy(env, tables) && Complete(next) && Feasible(tables, trip)
    ensures Accepted(env, trip.setting.stored, ExportOf(env, tables, trip), trip.mode)
    ensures PlanOf(env, tables, trip, next).Plan? && !PlanOf(env, tables, trip, next).unbound
  {
    hide Healthy, Accepted, WorkspaceExport, PlanImport, AllUsable, StoredIds;
    var b := ExportOf(env, tables, trip);
    ExportAccepted(env, trip.setting.stored, tables, trip.destinations, trip.checkpoints, trip.mode);
    forall kind ensures AllUsable(env, b, trip.setting, kind) {
      ExportUsable(env, tables, trip, kind);
    }
    SucceedsExactly(env, trip.setting.stored, b, trip.mode, trip.setting, next);
  }

  // ---- ... and exported again -----------------------------------------------------------------------

  /** The position of the row with this id. */
  ghost predicate RowAt(rows: seq<Row>, id: int, k: nat) {
    k < |rows| && rows[k].id == id
  }

  /** Row `i` of a table is exported as it is stored but for the masking, and the row created from it
      holds what was stored but for what is masked, blank or reset. The re-export of that row: a new id,
      references to the rows created from the rows it referred to, and settled columns; the credentials
      of a source are settled if and only if none of its null preflight headers is printed as "None". */
  lemma RoundTrip(env: Env, tables: map<Kind, seq<Row>>, includeCheckpoints: bool, target: map<Kind, seq<Row>>,
      next: map<Kind, nat>,
                  kind: Kind, i: nat)
    requires Healthy(env, tables) && Complete(target) && Complete(next) && PlainNames(env.names)
    requires env.show(Null) == "None"
    requires i < |tables[kind]| && (kind == Checkpoints ==> includeCheckpoints)
    ensures var plan := PlanOf(env, tables, Additively(includeCheckpoints, target), next);
      && plan.Plan? && Complete(plan.created)
      && |plan.created[kind]| == |tables[kind]|
      && var first, again := ExportFields(env, kind, tables[kind][i]), ExportFields(env, kind, plan.created[kind][i]);
      && RowExported(env.names, kind, tables[kind][i], first)
      && ColumnsRestored(env, kind, tables[kind][i], plan.created[kind][i].cols, "")
      && again.Keys == first.Keys
      && again[Id] == Num(next[kind] + i)
      && (forall f :: f in Columns(kind) ==>
            && f in first && f in tables[kind][i].cols
            && (again[f] == Settled(env, kind, f, first[f], if Mapped(kind) then tables[kind][i].id else 0)
                <==> AuthPortable(env, Columns(kind)[f], tables[kind][i].cols[f])))
      && (forall f, k ::
          f in Refs(kind) && f in tables[kind][i].refs && RowAt(tables[Target(f)], tables[kind][i].refs[f], k) ==>
            again[f] == Num(next[Target(f)] + k))
  {
    hide Healthy, Accepted, WorkspaceExport, PlanImport, ExportFields, StoredIds, RowTyped, Columns, Refs, Settled,
      Usable, RowOf, RowAt, AuthPortable, RowLinked, RowSupported, SettledColumns, Suffixed, RowExported,
      ColumnsRestored;
    var trip := Additively(includeCheckpoints, target);
    var b := ExportOf(env, tables, trip);
    var plan := PlanOf(env, tables, trip, next);
    ExportImports(env, tables, trip, next);
    ExportEntries(env, tables, true, includeCheckpoints, kind);
    OneRowPerEntry(env, StoredIds(target), b, Additive, Into(target), next, kind);
    PlanArrays(env, b, Into(target), next, kind);
    var row, made := tables[kind][i], plan.created[kind][i];
    assert row in tables[kind];
    HealthyRow(env, tables, kind, row);
    ExportsExactly(env, kind, row);
    RestoresExactly(env, kind, Into(target), row, next[kind] + i, made);
    MadeColumns(env, kind, Into(target), row, next[kind] + i, made);
    NoSuffix(kind, SettledColumns(env, kind, row));
    forall f, k | f in Refs(kind) && f in row.refs && RowAt(tables[Target(f)], row.refs[f], k)
      ensures f in made.refs && made.refs[f] == next[Target(f)] + k
    {
      MadeRef(env, tables, trip, next, kind, i, f, k);
    }
    SettledAgain(env, kind, row, made);
    ShapedFields(env, kind, made);
    RowKeys(kind, row);
    ShapedFields(env, kind, row);
  }

  lemma NoSuffix(kind: Kind, cols: map<Field, JSON>)
    ensures Suffixed(kind, cols, "") == cols
  {
    if Name in cols && cols[Name].Str? {
      assert cols[Name].text + "" == cols[Name].text;
    }
  }

  /** The columns of a row, exported and read by an import. */
  function SettledColumns(env: Env, kind: Kind, row: Row): map<Field, JSON> {
    map f | f in Columns(kind) && f in row.cols ::
      Settled(env, kind, f, ExportColumn(env, kind, f, row.cols[f]), if Mapped(kind) then row.id else 0)
  }

  /** A created row is a copy of the exported one: its columns are the settled ones, names with the
      suffix of a clone. */
  lemma MadeColumns(env: Env, kind: Kind, setting: Setting, row: Row, id: int, made: Row)
    requires RowTyped(kind, row)
    requires Usable(env, kind, Object(ExportFields(env, kind, row)))
    requires RowOf(env, kind, setting, Object(ExportFields(env, kind, row)), id, made)
    ensures made.id == id && made.refs.Keys == Refs(kind) && made.cols.Keys == Columns(kind).Keys
    ensures made.cols == Suffixed(kind, SettledColumns(env, kind, row), setting.suffix)
  {
    hide ExportFields, ReadColumn, ExportColumn, Typed, Columns, Refs, Settled, Suffixed, IdOf;
    var fields, oldId := ExportFields(env, kind, row), if Mapped(kind) then row.id else 0;
    ExportedFields(env, kind, row);
    forall f | f in Columns(kind)
      ensures f in row.cols && ReadColumn(env, Columns(kind)[f], fields, f, oldId)
                == Some(Settled(env, kind, f, ExportColumn(env, kind, f, row.cols[f]), oldId))
    {
      ReadSettled(env, kind, fields, f, row.cols[f], oldId);
    }
    assert ReadColumns(env, kind, fields, oldId) == SettledColumns(env, kind, row);
    SuffixKeepsColumns(kind, SettledColumns(env, kind, row), setting.suffix);
  }

  lemma SuffixKeepsColumns(kind: Kind, cols: map<Field, JSON>, suffix: string)
    ensures Suffixed(kind, cols, suffix).Keys == cols.Keys
  {}

  /** Exporting settled columns again. */
  lemma SettledAgain(env: Env, kind: Kind, row: Row, made: Row)
    requires RowTyped(kind, row) && PlainNames(env.names) && env.show(Null) == "None"
    requires made.cols == SettledColumns(env, kind, row)
    ensures forall f :: f in Columns(kind) ==>
      && f in row.cols && f in made.cols && f in ExportFields(env, kind, row)
      && (ExportColumn(env, kind, f, made.cols[f])
            == Settled(env, kind, f, ExportFields(env, kind, row)[f], if Mapped(kind) then row.id else 0)
          <==> AuthPortable(env, Columns(kind)[f], row.cols[f]))
  {
    hide ExportFields, ReadColumn, ExportColumn, Typed, Columns, Refs, Settled, AuthPortable, PlainNames, IdOf;
    var fields, oldId := ExportFields(env, kind, row), if Mapped(kind) then row.id else 0;
    ExportedFields(env, kind, row);
    forall f | f in Columns(kind)
      ensures f in row.cols && f in made.cols
      ensures ExportColumn(env, kind, f, made.cols[f]) == Settled(env, kind, f, fields[f], oldId)
              <==> AuthPortable(env, Columns(kind)[f], row.cols[f])
    {
      ReadSettled(env, kind, fields, f, row.cols[f], oldId);
      ColumnRoundTrip(env, kind, fields, f, row.cols[f], oldId);
    }
  }

  lemma ImportedEntry(env: Env, tables: map<Kind, seq<Row>>, trip: Trip, kind: Kind, i: nat, f: Field)
    requires Healthy(env, tables) && i < |Imported(ExportOf(env, tables, trip), trip.setting, kind)| && f in Refs(kind)
    ensures i < |tables[kind]| && f in tables[kind][i].refs
    ensures var e := Imported(ExportOf(env, tables, trip), trip.setting, kind)[i];
            e.Object? && GetInt(env, e.fields, f) == Some(tables[kind][i].refs[f])
  {
    hide Healthy, WorkspaceExport, ExportFields, RowTyped, RowLinked, RowSupported, Refs, IdOf;
    ExportEntries(env, tables, trip.destinations, trip.checkpoints, kind);
    var row := tables[kind][i];
    assert row in tables[kind];
    HealthyRow(env, tables, kind, row);
    RowKeys(kind, row);
    ExportedFields(env, kind, row);
  }

  lemma ExportedTarget(env: Env, tables: map<Kind, seq<Row>>, trip: Trip, f: Field, id: int, k: nat)
    requires Healthy(env, tables) && (trip.destinations || Target(f) != Destinations) && RowAt(tables[Target(f)], id, k)
    ensures Mapped(Target(f)) && LastWithId(env, Entries(ExportOf(env, tables, trip), Target(f)), id, k)
  {
    hide Healthy, WorkspaceExport, ExportRows, LastWithId;
    ExportEntries(env, tables, trip.destinations, trip.checkpoints, Target(f));
    LastExported(env, tables, Target(f), id, k);
  }

  /** A reference to the `k`-th row of an exported table becomes one to the `k`-th created row. */
  lemma MadeRef(env: Env, tables: map<Kind, seq<Row>>, trip: Trip, next: map<Kind, nat>, kind: Kind, i: nat, f: Field,
      k: nat)
    requires Healthy(env, tables) && Complete(next) && Feasible(tables, trip)
    requires trip.destinations || Target(f) != Destinations
    requires i < |Imported(ExportOf(env, tables, trip), trip.setting, kind)| && i < |tables[kind]|
    requires f in Refs(kind) && f in tables[kind][i].refs && RowAt(tables[Target(f)], tables[kind][i].refs[f], k)
    requires var plan := PlanOf(env, tables, trip, next); plan.Plan? && kind in plan.created && i < |plan.created[kind]|
    ensures var plan := PlanOf(env, tables, trip, next);
            f in plan.created[kind][i].refs && plan.created[kind][i].refs[f] == next[Target(f)] + k
  {
    hide Healthy, Accepted, PlanImport, Refs, Feasible, ExportOf, Entries, Imported, LastWithId, RowAt, Target, GetInt,
      Mapped;
    var b := ExportOf(env, tables, trip);
    ExportImports(env, tables, trip, next);
    ImportedEntry(env, tables, trip, kind, i, f);
    ExportedTarget(env, tables, trip, f, tables[kind][i].refs[f], k);
    PlanRef(env, trip.setting.stored, b, trip.mode, trip.setting, next, kind, i, f);
    PlanIds(env, trip.setting.stored, b, trip.mode, trip.setting, next, Target(f));
  }

  lemma LastExported(env: Env, tables: map<Kind, seq<Row>>, kind: Kind, id: int, k: nat)
    requires Healthy(env, tables) && RowAt(tables[kind], id, k)
    ensures LastWithId(env, ExportRows(env, kind, tables[kind]), id, k)
  {
    hide Healthy, ExportFields, RowTyped, RowLinked, RowSupported, IdOf;
    HealthyIds(env, tables, kind);
    forall i | 0 <= i < |tables[kind]|
      ensures IdOf(env, ExportRows(env, kind, tables[kind])[i]) == Some(tables[kind][i].id)
    {
      assert tables[kind][i] in tables[kind];
      HealthyRow(env, tables, kind, tables[kind][i]);
      ExportedFields(env, kind, tables[kind][i]);
    }
  }

  lemma HealthyIds(env: Env, tables: map<Kind, seq<Row>>, kind: Kind)
    requires Healthy(env, tables)
    ensures DistinctRowIds(tables[kind])
  {
    hide RowTyped, RowLinked, RowSupported, DistinctNames, DistinctRowIds, RoutesMapped;
  }

  // ---- The apply call on an export ----------------------------------------------------------------------

  /** The rows to be imported of one kind. */
  function Travelling(tables: map<Kind, seq<Row>>, trip: Trip, kind: Kind): seq<Row>
    requires Complete(tables)
  {
    if trip.setting.clone && kind == Checkpoints then []
        else Exported(tables, trip.destinations, trip.checkpoints, kind)
  }

  lemma AsManyCreated(env: Env, tables: map<Kind, seq<Row>>, trip: Trip, next: map<Kind, nat>, kind: Kind)
    requires Healthy(env, tables) && Complete(next) && Feasible(tables, trip)
    ensures var plan := PlanOf(env, tables, trip, next);
      && plan.Plan? && !plan.unbound && kind in plan.created && |plan.created[kind]| == |Travelling(tables, trip, kind)|
      && |Imported(ExportOf(env, tables, trip), trip.setting, kind)| == |Travelling(tables, trip, kind)|
  {
    hide Healthy, Accepted, WorkspaceExport, PlanImport, RowOf, Usable;
    ExportImports(env, tables, trip, next);
    ExportEntries(env, tables, trip.destinations, trip.checkpoints, kind);
    OneRowPerEntry(env, trip.setting.stored, ExportOf(env, tables, trip), trip.mode, trip.setting, next, kind);
  }

  /** The export of a database that keeps its constraints does not repeat itself. */
  lemma ExportUnrepeated(env: Env, tables: map<Kind, seq<Row>>, trip: Trip)
    requires Healthy(env, tables) && ConstraintsHold(tables)
    ensures Unrepeated(env, ExportOf(env, tables, trip), trip.setting)
  {
    hide Healthy, WorkspaceExport, GetInt, Refs, Constrained;
    var b := ExportOf(env, tables, trip);
    forall kind: Kind, i, k | Constrained(kind) && 0 <= i < k < |Imported(b, trip.setting, kind)|
      ensures !SameTargets(env, kind, Imported(b, trip.setting, kind)[i], Imported(b, trip.setting, kind)[k])
    {
      forall f | f in Refs(kind)
        ensures k < |tables[kind]| && f in tables[kind][i].refs && f in tables[kind][k].refs
        ensures var entries := Imported(b, trip.setting, kind);
          entries[i].Object? && entries[k].Object?
          && (GetInt(env, entries[i].fields, f) == GetInt(env, entries[k].fields, f)
              ==> tables[kind][i].refs[f] == tables[kind][k].refs[f])
      {
        ImportedEntry(env, tables, trip, kind, i, f);
        ImportedEntry(env, tables, trip, kind, k, f);
      }
      ConstrainedRefs(kind);
      assert NoClash(kind, tables[kind]);
      assert !Clash(kind, tables[kind][i], tables[kind][k]);
    }
  }

  /** An apply call with the export of a feasible trip, confirmed and without a key or with one that is
      not among the last 200 completed imports, succeeds, with one new row for every travelling one. */
  lemma ExportApplies(env: Env, tables: map<Kind, seq<Row>>, trip: Trip, s: Database, q: Request, a: Answer,
      s2: Database)
    requires Healthy(env, tables) && ConstraintsHold(tables) && Feasible(tables, trip)
    requires Sound(s) && RefsBehind(s) && ConstraintsHold(s.tables) && Sound(s2)
    requires q.bundle == ExportOf(env, tables, trip) && ParseMode(q.mode) == trip.mode
    requires SettingOf(q, s.tables) == trip.setting
    requires q.token == Some(Token(q.bundle, trip.mode)) && q.confirm && !NormalizeKey(q.key).BadKey?
    requires NormalizeKey(q.key).UseKey? ==> FindCompleted(s.operations, NormalizeKey(q.key).key).None?
    requires Apply(env, s, q, a, s2)
    ensures var plan := PlanOf(env, tables, trip, s.next);
      && plan.Plan? && Complete(plan.created) && a == Done(ResponseTo(plan.created, plan.maps, NormalizeKey(q.key)))
      && s2.tables == Extended(s.tables, plan.created)
      && forall kind: Kind :: |plan.created[kind]| == |Travelling(tables, trip, kind)|
  {
    hide Healthy, Accepted, WorkspaceExport, PlanImport, RefsBehind, ConstraintsHold, ParseMode, NormalizeKey,
      FindCompleted, SettingOf, ResponseTo, Extended;
    var plan := PlanOf(env, tables, trip, s.next);
    ExportImports(env, tables, trip, s.next);
    StoredBySetting(q, s.tables);
    AcceptedNoRaise(env, StoredIds(s.tables), q.bundle, trip.mode);
    forall kind: Kind ensures kind in plan.created && |plan.created[kind]| == |Travelling(tables, trip, kind)| {
      AsManyCreated(env, tables, trip, s.next, kind);
    }
    ExportUnrepeated(env, tables, trip);
    ConstraintsExactly(env, s, q.bundle, trip.mode, trip.setting);
  }

  lemma StoredBySetting(q: Request, tables: map<Kind, seq<Row>>)
    requires Complete(tables)
    ensures SettingOf(q, tables).stored == StoredIds(tables)
  {}

  lemma AcceptedNoRaise(env: Env, stored: set<int>, b: Bundle, mode: Mode)
    requires Accepted(env, stored, b, mode)
    ensures !Raises(env, b)
  {}

  // ---- What validation does not promise -----------------------------------------------------------------

  /** Re-importing a workspace into its own database without its destinations passes validation, as
      the destinations exist, and is then refused, as additive imports bind no route to them. */
  lemma AcceptedButRefused(env: Env, tables: map<Kind, seq<Row>>, includeCheckpoints: bool, next: map<Kind, nat>)
    requires Healthy(env, tables) && tables[Routes] != [] && Complete(next)
    ensures var b := WorkspaceExport(env, tables, false, includeCheckpoints);
      && Accepted(env, StoredIds(tables), b, Additive)
      && var plan := PlanImport(env, b, Into(tables), next); !(plan.Plan? && !plan.unbound)
  {
    hide Healthy, Accepted, PlanImport, Usable, IdOf, ExportFields;
    var b := WorkspaceExport(env, tables, false, includeCheckpoints);
    ExportAccepted(env, StoredIds(tables), tables, false, includeCheckpoints, Additive);
    ExportEntries(env, tables, false, includeCheckpoints, Routes);
    ExportEntries(env, tables, false, includeCheckpoints, Destinations);
    var e := Entries(b, Routes)[0];
    assert e in Imported(b, Into(tables), Routes);
    assert ExportIds(env, Entries(b, Destinations)) == {};
    assert !Resolved(env, b, Into(tables), Routes, e);
    assert !AllUsable(env, b, Into(tables), Routes);
    SucceedsExactly(env, StoredIds(tables), b, Additive, Into(tables), next);
  }
}
