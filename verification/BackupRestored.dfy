/**
 Column by column, what a workspace export writes of a stored row, and what the row that an import
 makes of it holds: the stored value, a default for a blank one, or the state a new row starts in.
 */
module BackupRestored {
  import opened Options
  import opened BackupJson
  import opened BackupMasking
  import opened BackupStore
  import opened BackupValidator
  import opened BackupImport
  import opened BackupGraph
  import opened BackupExport
  import opened BackupFidelity

  /** The field names that masking must leave alone for a round trip to make sense. */
  predicate PlainNames(names: set<string>) {
    !Sensitive(names, PREFLIGHT) && !Sensitive(names, AUTH_TYPE)
  }

  predicate Same(cols: map<Field, JSON>, others: map<Field, JSON>, f: Field) {
    f in cols && f in others && others[f] == cols[f]
  }

  // ---- Exports ----------------------------------------------------------------------------------------

  /** An exported configuration: `headers` and `pem` say what is looked for beside secrets. */
  ghost predicate ConfigExported(names: set<string>, headers: bool, all: bool, pem: bool, cols: map<Field, JSON>,
      fields: map<Field, JSON>, f: Field)
  {
    f in cols && f in fields && ExportOfValue(names, headers, all, pem, cols[f], fields[f])
  }

  ghost predicate AuthExported(names: set<string>, cols: map<Field, JSON>, fields: map<Field, JSON>) {
    && AuthJson in cols && AuthJson in fields && cols[AuthJson].Obj? && fields[AuthJson].Obj?
    && AuthExport(names, cols[AuthJson].fields, fields[AuthJson].fields)
  }

  /** What an export writes of the columns of a row: everything as it is stored, but for the masking of
      configurations, credentials and checkpoint values. */
  ghost predicate ColumnsExported(names: set<string>, kind: Kind, cols: map<Field, JSON>, fields: map<Field, JSON>) {
    match kind
    case Connectors =>
      Same(cols, fields, Name) && Same(cols, fields, ProductGroup) && Same(cols, fields, Description)
      && Same(cols, fields, Status)
    case Sources =>
      Same(cols, fields, SourceType) && Same(cols, fields, Enabled)
      && ConfigExported(names, false, false, false, cols, fields, ConfigJson) && AuthExported(names, cols, fields)
    case Streams =>
      Same(cols, fields, Name) && Same(cols, fields, StreamType) && Same(cols, fields, PollingInterval)
      && Same(cols, fields, Enabled) && Same(cols, fields, Status) && Same(cols, fields, RateLimitJson)
      && ConfigExported(names, true, false, true, cols, fields, ConfigJson)
    case Mappings =>
      Same(cols, fields, EventArrayPath) && Same(cols, fields, EventRootPath) && Same(cols, fields, FieldMappingsJson)
      && Same(cols, fields, RawPayloadMode)
    case Enrichments =>
      Same(cols, fields, EnrichmentJson) && Same(cols, fields, OverridePolicy) && Same(cols, fields, Enabled)
    case Checkpoints =>
      Same(cols, fields, CheckpointType)
      && ConfigExported(names, false, false, true, cols, fields, CheckpointValueJson)
    case Destinations =>
      Same(cols, fields, Name) && Same(cols, fields, DestinationType) && Same(cols, fields, RateLimitJson)
      && Same(cols, fields, Enabled) && ConfigExported(names, true, true, true, cols, fields, ConfigJson)
    case Routes =>
      Same(cols, fields, Enabled) && Same(cols, fields, FailurePolicy) && Same(cols, fields, FormatterConfigJson)
      && Same(cols, fields, RateLimitJson) && Same(cols, fields, Status) && Same(cols, fields, DisableReason)
  }

  /** An exported row: its id, its references and its columns. */
  ghost predicate RowExported(names: set<string>, kind: Kind, row: Row, fields: map<Field, JSON>) {
    && Id in fields && fields[Id] == Num(row.id)
    && (forall f :: f in row.refs ==> f in fields && fields[f] == Num(row.refs[f]))
    && ColumnsExported(names, kind, row.cols, fields)
  }

  /** Columns that nothing is looked for in are copied. */
  predicate Copied(kind: Kind, f: Field) {
    f != ConfigJson && f != AuthJson && f != CheckpointValueJson
  }

  lemma CopiedSame(env: Env, kind: Kind, row: Row, fields: map<Field, JSON>)
    requires RowTyped(kind, row) && fields == ExportFields(env, kind, row)
    ensures forall f :: f in Columns(kind) && Copied(kind, f) ==> Same(row.cols, fields, f)
    ensures Id in fields && fields[Id] == Num(row.id)
    ensures forall f :: f in row.refs ==> f in fields && fields[f] == Num(row.refs[f])
  {
    hide ExportFields, Columns, RowTyped, Refs;
    ExportedFields(env, kind, row);
    RowKeys(kind, row);
  }

  predicate HasColumn(kind: Kind, f: Field) {
    match kind
    case Connectors => f == Name || f == ProductGroup || f == Description || f == Status
    case Sources => f == SourceType || f == ConfigJson || f == AuthJson || f == Enabled
    case Streams => (f == Name || f == StreamType || f == ConfigJson || f == PollingInterval || f == Enabled
        || f == Status || f == RateLimitJson)
    case Mappings => f == EventArrayPath || f == EventRootPath || f == FieldMappingsJson || f == RawPayloadMode
    case Enrichments => f == EnrichmentJson || f == OverridePolicy || f == Enabled
    case Checkpoints => f == CheckpointType || f == CheckpointValueJson
    case Destinations => f == Name || f == DestinationType || f == ConfigJson || f == RateLimitJson || f == Enabled
    case Routes => (f == Enabled || f == FailurePolicy || f == FormatterConfigJson || f == RateLimitJson || f == Status
        || f == DisableReason)
  }

  /** The columns of each kind. */
  lemma ColumnsAre(kind: Kind)
    ensures forall f :: f in Columns(kind) <==> HasColumn(kind, f)
  {
    match kind case Destinations => case Connectors => case Sources => case Streams =>
    case Mappings => case Enrichments => case Checkpoints => case Routes =>
  }

  lemma SourceExported(env: Env, row: Row, fields: map<Field, JSON>)
    requires RowTyped(Sources, row) && PlainNames(env.names) && fields == ExportFields(env, Sources, row)
    ensures ConfigExported(env.names, false, false, false, row.cols, fields, ConfigJson)
    ensures AuthExported(env.names, row.cols, fields)
  {
    hide ExportFields, ExportOfValue, AuthExport, RowTyped, Sensitive, MaskSecrets, MaskAuth, Columns;
    ExportedFields(env, Sources, row);
    RowKeys(Sources, row);
    ColumnsAre(Sources);
    SecretsExport(env.names, row.cols[ConfigJson]);
    AuthTyped(row);
    AuthIsExported(env.names, env.show, row.cols[AuthJson].fields);
  }

  lemma StreamExported(env: Env, row: Row, fields: map<Field, JSON>)
    requires RowTyped(Streams, row) && fields == ExportFields(env, Streams, row)
    ensures ConfigExported(env.names, true, false, true, row.cols, fields, ConfigJson)
  {
    hide ExportFields, ExportOfValue, RowTyped, MaskConfig, MaskSecretsAndPem, Columns;
    ExportedFields(env, Streams, row);
    RowKeys(Streams, row);
    ColumnsAre(Streams);
    ConfigExport(env.names, env.show, false, row.cols[ConfigJson]);
  }

  lemma DestinationExported(env: Env, row: Row, fields: map<Field, JSON>)
    requires RowTyped(Destinations, row) && fields == ExportFields(env, Destinations, row)
    ensures ConfigExported(env.names, true, true, true, row.cols, fields, ConfigJson)
  {
    hide ExportFields, ExportOfValue, RowTyped, MaskConfig, MaskSecretsAndPem, Columns;
    ExportedFields(env, Destinations, row);
    RowKeys(Destinations, row);
    ColumnsAre(Destinations);
    ConfigExport(env.names, env.show, true, row.cols[ConfigJson]);
  }

  lemma CheckpointExported(env: Env, row: Row, fields: map<Field, JSON>)
    requires RowTyped(Checkpoints, row) && fields == ExportFields(env, Checkpoints, row)
    ensures ConfigExported(env.names, false, false, true, row.cols, fields, CheckpointValueJson)
  {
    hide ExportFields, ExportOfValue, RowTyped, MaskConfig, MaskSecretsAndPem, Columns;
    ExportedFields(env, Checkpoints, row);
    RowKeys(Checkpoints, row);
    ColumnsAre(Checkpoints);
    PemExport(env.names, row.cols[CheckpointValueJson]);
  }

  /** Every row of a healthy database is exported so. */
  lemma ExportsExactly(env: Env, kind: Kind, row: Row)
    requires RowTyped(kind, row) && PlainNames(env.names)
    ensures RowExported(env.names, kind, row, ExportFields(env, kind, row))
  {
    hide ExportFields, RowTyped, Columns, ConfigExported, AuthExported, Same, Sensitive;
    var fields := ExportFields(env, kind, row);
    CopiedSame(env, kind, row, fields);
    ColumnsAre(kind);
    match kind
    case Sources => SourceExported(env, row, fields);
    case Streams => StreamExported(env, row, fields);
    case Destinations => DestinationExported(env, row, fields);
    case Checkpoints => CheckpointExported(env, row, fields);
    case _ =>
  }

  lemma AuthTyped(row: Row)
    requires RowTyped(Sources, row)
    ensures AuthJson in row.cols && row.cols[AuthJson].Obj?
  {}

  // ---- Imports ----------------------------------------------------------------------------------------

  /** A text, or `default` in place of an empty one, with the suffix of a clone. */
  predicate Word(cols: map<Field, JSON>, made: map<Field, JSON>, f: Field, default: string, suffix: string) {
    && f in cols && f in made && cols[f].Str?
    && made[f] == Str((if cols[f].text == "" then default else cols[f].text) + suffix)
  }

  predicate Starts(made: map<Field, JSON>, f: Field, value: JSON) {
    f in made && made[f] == value
  }

  ghost predicate ConfigRestored(names: set<string>, headers: bool, pem: bool, cols: map<Field, JSON>,
      made: map<Field, JSON>, f: Field)
  {
    f in cols && f in made && Restores(names, headers, pem, cols[f], made[f])
  }

  ghost predicate AuthRestored(names: set<string>, cols: map<Field, JSON>, made: map<Field, JSON>) {
    && AuthJson in cols && AuthJson in made && cols[AuthJson].Obj? && made[AuthJson].Obj?
    && AuthRestores(names, cols[AuthJson].fields, made[AuthJson].fields)
  }

  /** A checkpoint value is not stripped: the row holds it as it was exported, masks included. */
  ghost predicate CheckpointRestored(names: set<string>, cols: map<Field, JSON>, made: map<Field, JSON>) {
    && CheckpointValueJson in cols && CheckpointValueJson in made
    && ExportOfValue(names, false, false, true, cols[CheckpointValueJson], made[CheckpointValueJson])
  }

  /** What the row made of an exported row holds: connectors and streams are stopped, sources and
      streams disabled, names of clones carry the suffix, blank columns have their defaults, of
      configurations and credentials there is what is not lost, and the rest is as it was stored. */
  ghost predicate ColumnsRestored(env: Env, kind: Kind, row: Row, made: map<Field, JSON>, suffix: string) {
    match kind
    case Connectors =>
      Word(row.cols, made, Name, "imported-connector", suffix) && Same(row.cols, made, ProductGroup)
      && Same(row.cols, made, Description) && Starts(made, Status, Str("STOPPED"))
    case Sources =>
      Word(row.cols, made, SourceType, "HTTP_API_POLLING", "") && Starts(made, Enabled, Bool(false))
      && ConfigRestored(env.names, false, false, row.cols, made, ConfigJson)
      && AuthRestored(env.names, row.cols, made)
    case Streams =>
      Word(row.cols, made, Name, "imported-stream", suffix)
      && Word(row.cols, made, StreamType, "HTTP_API_POLLING", "")
      && PollingInterval in row.cols
      && Starts(made, PollingInterval,
                if row.cols[PollingInterval] == Num(0) then Num(60) else row.cols[PollingInterval])
      && Starts(made, Enabled, Bool(false)) && Starts(made, Status, Str("STOPPED"))
      && Same(row.cols, made, RateLimitJson)
      && ConfigRestored(env.names, true, true, row.cols, made, ConfigJson)
    case Mappings =>
      Same(row.cols, made, EventArrayPath) && Same(row.cols, made, EventRootPath)
      && Same(row.cols, made, FieldMappingsJson) && Same(row.cols, made, RawPayloadMode)
    case Enrichments =>
      Same(row.cols, made, EnrichmentJson) && Word(row.cols, made, OverridePolicy, "KEEP_EXISTING", "")
      && Same(row.cols, made, Enabled)
    case Checkpoints =>
      Word(row.cols, made, CheckpointType, "CUSTOM_FIELD", "") && CheckpointRestored(env.names, row.cols, made)
    case Destinations =>
      Word(row.cols, made, Name, "imported-destination-" + env.show(Num(row.id)), "")
      && Word(row.cols, made, DestinationType, "WEBHOOK_POST", "") && Same(row.cols, made, RateLimitJson)
      && Same(row.cols, made, Enabled) && ConfigRestored(env.names, true, true, row.cols, made, ConfigJson)
    case Routes =>
      Same(row.cols, made, Enabled) && Word(row.cols, made, FailurePolicy, "LOG_AND_CONTINUE", "")
      && Same(row.cols, made, FormatterConfigJson) && Same(row.cols, made, RateLimitJson)
      && Word(row.cols, made, Status, "ENABLED", "") && Same(row.cols, made, DisableReason)
  }

  /** How an import reads the fields that an export wrote. */
  lemma ReadsWords(env: Env, fields: map<Field, JSON>, f: Field, default: string, oldId: int)
    requires f in fields && fields[f].Str?
    ensures ReadColumn(env, Words(default), fields, f, oldId)
        == Some(Str((if fields[f].text == "" then default else fields[f].text) + ""))
  {
    var text := if fields[f].text == "" then default else fields[f].text;
    assert text + "" == text;
  }

  lemma ReadsDict(env: Env, fields: map<Field, JSON>, f: Field, oldId: int)
    requires f in fields && fields[f].Obj?
    ensures ReadColumn(env, Dict, fields, f, oldId) == Some(fields[f])
    ensures ReadColumn(env, Stripped, fields, f, oldId) == Some(Strip(fields[f]))
    ensures ReadColumn(env, Auth, fields, f, oldId) == Some(Obj(WithAuthType(StripDict(fields[f].fields))))
  {
    hide WithAuthType;
  }

  /** The columns that a kind's rows have, by the values of their database types. */
  lemma TypedColumn(env: Env, kind: Kind, row: Row, f: Field)
    requires RowTyped(kind, row) && f in Columns(kind)
    ensures f in row.cols && Typed(Columns(kind)[f], row.cols[f])
  {
    hide Columns, Typed;
  }

  /** The row made of an exported row, without a suffix. */
  function ReadBack(env: Env, kind: Kind, row: Row): map<Field, JSON>
    requires Readable(env, kind, ExportFields(env, kind, row), if Mapped(kind) then row.id else 0)
  {
    ReadColumns(env, kind, ExportFields(env, kind, row), if Mapped(kind) then row.id else 0)
  }

  lemma ReadBackAt(env: Env, kind: Kind, row: Row, f: Field)
    requires RowTyped(kind, row) && f in Columns(kind)
    requires Readable(env, kind, ExportFields(env, kind, row), if Mapped(kind) then row.id else 0)
    ensures var fields := ExportFields(env, kind, row);
      && f in row.cols && Typed(Columns(kind)[f], row.cols[f]) && f in fields
      && fields[f] == ExportColumn(env, kind, f, row.cols[f])
      && f in ReadBack(env, kind, row)
      && ReadColumn(env, Columns(kind)[f], fields, f, if Mapped(kind) then row.id else 0)
          == Some(ReadBack(env, kind, row)[f])
  {
    hide Columns, Typed, ExportFields, ExportColumn, ReadColumn, RowTyped;
    TypedColumn(env, kind, row, f);
    ExportedFields(env, kind, row);
  }

  lemma SuffixOf(kind: Kind, cols: map<Field, JSON>, suffix: string)
    ensures var made := Suffixed(kind, cols, suffix);
      && made.Keys == cols.Keys
      && (forall f :: f in cols && f != Name ==> made[f] == cols[f])
      && (Name in cols && cols[Name].Str? ==>
            made[Name] == if kind == Connectors || kind == Streams then Str(cols[Name].text + suffix) else cols[Name])
  {}

  lemma WordBack(env: Env, kind: Kind, row: Row, f: Field, default: string)
    requires RowTyped(kind, row) && f in Columns(kind) && Columns(kind)[f] == Words(default) && Copied(kind, f)
    requires Readable(env, kind, ExportFields(env, kind, row), if Mapped(kind) then row.id else 0)
    ensures Word(row.cols, ReadBack(env, kind, row), f, default, "")
  {
    hide Columns, ExportFields, ReadColumn, RowTyped, ReadBack;
    ReadBackAt(env, kind, row, f);
    ReadsWords(env, ExportFields(env, kind, row), f, default, if Mapped(kind) then row.id else 0);
  }

  lemma SameBack(env: Env, kind: Kind, row: Row, f: Field)
    requires RowTyped(kind, row) && f in Columns(kind) && Copied(kind, f)
    requires Columns(kind)[f].Raw? || Columns(kind)[f].Dict? || Columns(kind)[f].Flag?
    requires Readable(env, kind, ExportFields(env, kind, row), if Mapped(kind) then row.id else 0)
    ensures Same(row.cols, ReadBack(env, kind, row), f)
  {
    hide Columns, ExportFields, RowTyped, ReadBack;
    ReadBackAt(env, kind, row, f);
  }

  lemma FixedBack(env: Env, kind: Kind, row: Row, f: Field, value: JSON)
    requires RowTyped(kind, row) && f in Columns(kind) && Columns(kind)[f] == Fixed(value)
    requires Readable(env, kind, ExportFields(env, kind, row), if Mapped(kind) then row.id else 0)
    ensures Starts(ReadBack(env, kind, row), f, value)
  {
    hide Columns, ExportFields, RowTyped, ReadBack;
    ReadBackAt(env, kind, row, f);
  }

  lemma ConfigBack(env: Env, kind: Kind, row: Row, headers: bool, all: bool, pem: bool)
    requires RowTyped(kind, row) && ConfigJson in Columns(kind) && Columns(kind)[ConfigJson] == Stripped
    requires Readable(env, kind, ExportFields(env, kind, row), if Mapped(kind) then row.id else 0)
    requires ConfigExported(env.names, headers, all, pem, row.cols, ExportFields(env, kind, row), ConfigJson)
    requires kind == Sources || kind == Streams || kind == Destinations
    ensures ConfigRestored(env.names, headers, pem, row.cols, ReadBack(env, kind, row), ConfigJson)
  {
    hide Columns, ExportFields, RowTyped, ReadBack, ReadColumn, ExportOfValue, Restores, MaskSecrets, MaskConfig;
    var fields := ExportFields(env, kind, row);
    ReadBackAt(env, kind, row, ConfigJson);
    ObjectStays(env.names, headers, all, pem, row.cols[ConfigJson], fields[ConfigJson]);
    ReadsDict(env, fields, ConfigJson, if Mapped(kind) then row.id else 0);
    StripRestores(env.names, headers, all, pem, row.cols[ConfigJson], fields[ConfigJson]);
  }

  lemma ObjectStays(names: set<string>, headers: bool, all: bool, pem: bool, v: JSON, e: JSON)
    requires ExportOfValue(names, headers, all, pem, v, e) && v.Obj?
    ensures e.Obj?
  {
    hide ExportOfValue;
    assert Open(names, headers, v, []);
    KeptThere(names, headers, all, pem, v, e, []);
  }

  lemma AuthBack(env: Env, row: Row)
    requires RowTyped(Sources, row) && PlainNames(env.names)
    requires Readable(env, Sources, ExportFields(env, Sources, row), row.id)
    ensures AuthRestored(env.names, row.cols, ReadBack(env, Sources, row))
  {
    hide ExportFields, RowTyped, ReadBack, ReadColumn, AuthExport, AuthRestores, MaskAuth, Sensitive, WithAuthType,
      StripDict, ExportColumn;
    var fields := ExportFields(env, Sources, row);
    ReadBackAt(env, Sources, row, AuthJson);
    SourceExported(env, row, fields);
    ReadsDict(env, fields, AuthJson, row.id);
    AuthIsRestored(env.names, row.cols[AuthJson].fields, fields[AuthJson].fields);
  }

  lemma CheckpointBack(env: Env, row: Row)
    requires RowTyped(Checkpoints, row) && Readable(env, Checkpoints, ExportFields(env, Checkpoints, row), 0)
    ensures CheckpointRestored(env.names, row.cols, ReadBack(env, Checkpoints, row))
  {
    hide ExportFields, RowTyped, ReadBack, ReadColumn, ExportOfValue, MaskSecretsAndPem, ExportColumn;
    var fields := ExportFields(env, Checkpoints, row);
    ReadBackAt(env, Checkpoints, row, CheckpointValueJson);
    CheckpointExported(env, row, fields);
    ObjectStays(env.names, false, false, true, row.cols[CheckpointValueJson], fields[CheckpointValueJson]);
    ReadsDict(env, fields, CheckpointValueJson, 0);
  }

  lemma IntervalBack(env: Env, row: Row)
    requires RowTyped(Streams, row) && Readable(env, Streams, ExportFields(env, Streams, row), row.id)
    ensures PollingInterval in row.cols
    ensures Starts(ReadBack(env, Streams, row), PollingInterval,
        if row.cols[PollingInterval] == Num(0) then Num(60) else row.cols[PollingInterval])
  {
    hide ExportFields, RowTyped, ReadBack;
    ReadBackAt(env, Streams, row, PollingInterval);
  }

  lemma DestinationNameBack(env: Env, row: Row)
    requires RowTyped(Destinations, row) && Readable(env, Destinations, ExportFields(env, Destinations, row), row.id)
    ensures Word(row.cols, ReadBack(env, Destinations, row), Name, "imported-destination-" + env.show(Num(row.id)), "")
  {
    hide ExportFields, RowTyped, ReadBack;
    var default := "imported-destination-" + env.show(Num(row.id));
    ReadBackAt(env, Destinations, row, Name);
    var text := if row.cols[Name].text == "" then default else row.cols[Name].text;
    assert text + "" == text;
  }

  lemma ConnectorBack(env: Env, row: Row)
    requires RowTyped(Connectors, row) && Readable(env, Connectors, ExportFields(env, Connectors, row), row.id)
    ensures ColumnsRestored(env, Connectors, row, ReadBack(env, Connectors, row), "")
  {
    hide ExportFields, RowTyped, ReadBack, Readable, Word, Same, Starts;
    WordBack(env, Connectors, row, Name, "imported-connector");
    SameBack(env, Connectors, row, ProductGroup);
    SameBack(env, Connectors, row, Description);
    FixedBack(env, Connectors, row, Status, Str("STOPPED"));
  }

  lemma SourceBack(env: Env, row: Row)
    requires RowTyped(Sources, row) && Readable(env, Sources, ExportFields(env, Sources, row), row.id)
    requires PlainNames(env.names)
    ensures ColumnsRestored(env, Sources, row, ReadBack(env, Sources, row), "")
  {
    hide ExportFields, RowTyped, ReadBack, Readable, Word, Same, Starts, ConfigExported, ConfigRestored, AuthExported,
      AuthRestored, Sensitive;
    WordBack(env, Sources, row, SourceType, "HTTP_API_POLLING");
    FixedBack(env, Sources, row, Enabled, Bool(false));
    SourceExported(env, row, ExportFields(env, Sources, row));
    ConfigBack(env, Sources, row, false, false, false);
    AuthBack(env, row);
  }

  lemma StreamBack(env: Env, row: Row)
    requires RowTyped(Streams, row) && Readable(env, Streams, ExportFields(env, Streams, row), row.id)
    ensures ColumnsRestored(env, Streams, row, ReadBack(env, Streams, row), "")
  {
    hide ExportFields, RowTyped, ReadBack, Readable, Word, Same, Starts, ConfigExported, ConfigRestored;
    WordBack(env, Streams, row, Name, "imported-stream");
    WordBack(env, Streams, row, StreamType, "HTTP_API_POLLING");
    IntervalBack(env, row);
    FixedBack(env, Streams, row, Enabled, Bool(false));
    FixedBack(env, Streams, row, Status, Str("STOPPED"));
    SameBack(env, Streams, row, RateLimitJson);
    StreamExported(env, row, ExportFields(env, Streams, row));
    ConfigBack(env, Streams, row, true, false, true);
  }

  lemma MappingBack(env: Env, row: Row)
    requires RowTyped(Mappings, row) && Readable(env, Mappings, ExportFields(env, Mappings, row), 0)
    ensures ColumnsRestored(env, Mappings, row, ReadBack(env, Mappings, row), "")
  {
    hide ExportFields, RowTyped, ReadBack, Readable, Same;
    SameBack(env, Mappings, row, EventArrayPath);
    SameBack(env, Mappings, row, EventRootPath);
    SameBack(env, Mappings, row, FieldMappingsJson);
    SameBack(env, Mappings, row, RawPayloadMode);
  }

  lemma EnrichmentBack(env: Env, row: Row)
    requires RowTyped(Enrichments, row) && Readable(env, Enrichments, ExportFields(env, Enrichments, row), 0)
    ensures ColumnsRestored(env, Enrichments, row, ReadBack(env, Enrichments, row), "")
  {
    hide ExportFields, RowTyped, ReadBack, Readable, Same, Word;
    SameBack(env, Enrichments, row, EnrichmentJson);
    WordBack(env, Enrichments, row, OverridePolicy, "KEEP_EXISTING");
    SameBack(env, Enrichments, row, Enabled);
  }

  lemma CheckpointRowBack(env: Env, row: Row)
    requires RowTyped(Checkpoints, row) && Readable(env, Checkpoints, ExportFields(env, Checkpoints, row), 0)
    ensures ColumnsRestored(env, Checkpoints, row, ReadBack(env, Checkpoints, row), "")
  {
    hide ExportFields, RowTyped, ReadBack, Readable, Word, CheckpointRestored;
    WordBack(env, Checkpoints, row, CheckpointType, "CUSTOM_FIELD");
    CheckpointBack(env, row);
  }

  lemma DestinationBack(env: Env, row: Row)
    requires RowTyped(Destinations, row) && Readable(env, Destinations, ExportFields(env, Destinations, row), row.id)
    ensures ColumnsRestored(env, Destinations, row, ReadBack(env, Destinations, row), "")
  {
    hide ExportFields, RowTyped, ReadBack, Readable, Word, Same, ConfigExported, ConfigRestored;
    DestinationNameBack(env, row);
    WordBack(env, Destinations, row, DestinationType, "WEBHOOK_POST");
    SameBack(env, Destinations, row, RateLimitJson);
    SameBack(env, Destinations, row, Enabled);
    DestinationExported(env, row, ExportFields(env, Destinations, row));
    ConfigBack(env, Destinations, row, true, true, true);
  }

  lemma RouteBack(env: Env, row: Row)
    requires RowTyped(Routes, row) && Readable(env, Routes, ExportFields(env, Routes, row), 0)
    ensures ColumnsRestored(env, Routes, row, ReadBack(env, Routes, row), "")
  {
    hide ExportFields, RowTyped, ReadBack, Readable, Word, Same;
    SameBack(env, Routes, row, Enabled);
    WordBack(env, Routes, row, FailurePolicy, "LOG_AND_CONTINUE");
    SameBack(env, Routes, row, FormatterConfigJson);
    SameBack(env, Routes, row, RateLimitJson);
    WordBack(env, Routes, row, Status, "ENABLED");
    SameBack(env, Routes, row, DisableReason);
  }

  lemma RowBack(env: Env, kind: Kind, row: Row)
    requires RowTyped(kind, row) && PlainNames(env.names)
    requires Readable(env, kind, ExportFields(env, kind, row), if Mapped(kind) then row.id else 0)
    ensures ColumnsRestored(env, kind, row, ReadBack(env, kind, row), "")
  {
    hide ExportFields, RowTyped, ReadBack, Readable, ColumnsRestored;
    match kind
    case Connectors => ConnectorBack(env, row);
    case Sources => SourceBack(env, row);
    case Streams => StreamBack(env, row);
    case Mappings => MappingBack(env, row);
    case Enrichments => EnrichmentBack(env, row);
    case Checkpoints => CheckpointRowBack(env, row);
    case Destinations => DestinationBack(env, row);
    case Routes => RouteBack(env, row);
  }

  lemma WordWithSuffix(cols: map<Field, JSON>, made: map<Field, JSON>, longer: map<Field, JSON>, default: string,
      suffix: string)
    requires Word(cols, made, Name, default, "") && Name in longer && longer[Name] == Str(made[Name].text + suffix)
    ensures Word(cols, longer, Name, default, suffix)
  {
    var text := if cols[Name].text == "" then default else cols[Name].text;
    assert text + "" == text;
  }

  lemma ConnectorSuffix(env: Env, row: Row, cols: map<Field, JSON>, suffix: string)
    requires ColumnsRestored(env, Connectors, row, cols, "")
    ensures ColumnsRestored(env, Connectors, row, Suffixed(Connectors, cols, suffix), suffix)
  {
    hide Suffixed;
    SuffixOf(Connectors, cols, suffix);
    WordWithSuffix(row.cols, cols, Suffixed(Connectors, cols, suffix), "imported-connector", suffix);
  }

  lemma StreamSuffix(env: Env, row: Row, cols: map<Field, JSON>, suffix: string)
    requires ColumnsRestored(env, Streams, row, cols, "")
    ensures ColumnsRestored(env, Streams, row, Suffixed(Streams, cols, suffix), suffix)
  {
    hide Suffixed, Restores;
    SuffixOf(Streams, cols, suffix);
    WordWithSuffix(row.cols, cols, Suffixed(Streams, cols, suffix), "imported-stream", suffix);
  }

  /** Only the name can carry a suffix. */
  lemma WithSuffix(env: Env, kind: Kind, row: Row, cols: map<Field, JSON>, suffix: string)
    requires ColumnsRestored(env, kind, row, cols, "")
    ensures ColumnsRestored(env, kind, row, Suffixed(kind, cols, suffix), suffix)
  {
    hide Word, Same, Starts, ConfigRestored, AuthRestored, CheckpointRestored;
    match kind
    case Connectors => ConnectorSuffix(env, row, cols, suffix);
    case Streams => StreamSuffix(env, row, cols, suffix);
    case _ =>
  }

  /** The row that an import makes of an exported row. */
  lemma RestoresExactly(env: Env, kind: Kind, setting: Setting, row: Row, id: int, made: Row)
    requires RowTyped(kind, row) && PlainNames(env.names)
    requires Usable(env, kind, Object(ExportFields(env, kind, row)))
    requires RowOf(env, kind, setting, Object(ExportFields(env, kind, row)), id, made)
    ensures ColumnsRestored(env, kind, row, made.cols, setting.suffix)
  {
    hide ExportFields, RowTyped, Readable, ColumnsRestored, Suffixed, ReadColumns, Columns, Sensitive;
    ExportedFields(env, kind, row);
    RowBack(env, kind, row);
    WithSuffix(env, kind, row, ReadBack(env, kind, row), setting.suffix);
  }

  // ---- Entries of other origin --------------------------------------------------------------------------

  /** The columns of a row made of an entry that names none of them. */
  predicate DefaultColumns(env: Env, kind: Kind, oldId: int, cols: map<Field, JSON>) {
    match kind
    case Connectors =>
      Starts(cols, Name, Str("imported-connector")) && Starts(cols, ProductGroup, Null)
      && Starts(cols, Description, Null) && Starts(cols, Status, Str("STOPPED"))
    case Sources =>
      Starts(cols, SourceType, Str("HTTP_API_POLLING")) && Starts(cols, ConfigJson, Obj(map[]))
      && Starts(cols, AuthJson, Obj(map["auth_type" := Str("no_auth")])) && Starts(cols, Enabled, Bool(false))
    case Streams =>
      Starts(cols, Name, Str("imported-stream")) && Starts(cols, StreamType, Str("HTTP_API_POLLING"))
      && Starts(cols, ConfigJson, Obj(map[])) && Starts(cols, PollingInterval, Num(60))
      && Starts(cols, Enabled, Bool(false)) && Starts(cols, Status, Str("STOPPED"))
      && Starts(cols, RateLimitJson, Obj(map[]))
    case Mappings =>
      Starts(cols, EventArrayPath, Null) && Starts(cols, EventRootPath, Null)
      && Starts(cols, FieldMappingsJson, Obj(map[])) && Starts(cols, RawPayloadMode, Null)
    case Enrichments =>
      Starts(cols, EnrichmentJson, Obj(map[])) && Starts(cols, OverridePolicy, Str("KEEP_EXISTING"))
      && Starts(cols, Enabled, Bool(true))
    case Checkpoints =>
      Starts(cols, CheckpointType, Str("CUSTOM_FIELD")) && Starts(cols, CheckpointValueJson, Obj(map[]))
    case Destinations =>
      Starts(cols, Name, Str("imported-destination-" + env.show(Num(oldId))))
      && Starts(cols, DestinationType, Str("WEBHOOK_POST")) && Starts(cols, ConfigJson, Obj(map[]))
      && Starts(cols, RateLimitJson, Obj(map[])) && Starts(cols, Enabled, Bool(true))
    case Routes =>
      Starts(cols, Enabled, Bool(true)) && Starts(cols, FailurePolicy, Str("LOG_AND_CONTINUE"))
      && Starts(cols, FormatterConfigJson, Obj(map[])) && Starts(cols, RateLimitJson, Obj(map[]))
      && Starts(cols, Status, Str("ENABLED")) && Starts(cols, DisableReason, Null)
  }

  lemma ConnectorDefaults(env: Env, fields: map<Field, JSON>, oldId: int)
    requires forall f :: f in Columns(Connectors) ==> f !in fields
    ensures Readable(env, Connectors, fields, oldId)
    ensures DefaultColumns(env, Connectors, oldId, ReadColumns(env, Connectors, fields, oldId))
  {}

  lemma SourceDefaults(env: Env, fields: map<Field, JSON>, oldId: int)
    requires forall f :: f in Columns(Sources) ==> f !in fields
    ensures Readable(env, Sources, fields, oldId)
    ensures DefaultColumns(env, Sources, oldId, ReadColumns(env, Sources, fields, oldId))
  {
    assert StripDict(map[]) == map[];
  }

  lemma StreamDefaults(env: Env, fields: map<Field, JSON>, oldId: int)
    requires forall f :: f in Columns(Streams) ==> f !in fields
    ensures Readable(env, Streams, fields, oldId)
    ensures DefaultColumns(env, Streams, oldId, ReadColumns(env, Streams, fields, oldId))
  {
    assert StripDict(map[]) == map[];
  }

  lemma MappingDefaults(env: Env, fields: map<Field, JSON>, oldId: int)
    requires forall f :: f in Columns(Mappings) ==> f !in fields
    ensures Readable(env, Mappings, fields, oldId)
    ensures DefaultColumns(env, Mappings, oldId, ReadColumns(env, Mappings, fields, oldId))
  {}

  lemma EnrichmentDefaults(env: Env, fields: map<Field, JSON>, oldId: int)
    requires forall f :: f in Columns(Enrichments) ==> f !in fields
    ensures Readable(env, Enrichments, fields, oldId)
    ensures DefaultColumns(env, Enrichments, oldId, ReadColumns(env, Enrichments, fields, oldId))
  {}

  lemma CheckpointDefaults(env: Env, fields: map<Field, JSON>, oldId: int)
    requires forall f :: f in Columns(Checkpoints) ==> f !in fields
    ensures Readable(env, Checkpoints, fields, oldId)
    ensures DefaultColumns(env, Checkpoints, oldId, ReadColumns(env, Checkpoints, fields, oldId))
  {}

  lemma DestinationDefaults(env: Env, fields: map<Field, JSON>, oldId: int)
    requires forall f :: f in Columns(Destinations) ==> f !in fields
    ensures Readable(env, Destinations, fields, oldId)
    ensures DefaultColumns(env, Destinations, oldId, ReadColumns(env, Destinations, fields, oldId))
  {
    assert StripDict(map[]) == map[];
  }

  lemma RouteDefaults(env: Env, fields: map<Field, JSON>, oldId: int)
    requires forall f :: f in Columns(Routes) ==> f !in fields
    ensures Readable(env, Routes, fields, oldId)
    ensures DefaultColumns(env, Routes, oldId, ReadColumns(env, Routes, fields, oldId))
  {}

  /** What a row holds of which the bundle says nothing. */
  lemma Defaults(env: Env, kind: Kind, fields: map<Field, JSON>, oldId: int)
    requires forall f :: HasColumn(kind, f) ==> f !in fields
    ensures Readable(env, kind, fields, oldId)
    ensures DefaultColumns(env, kind, oldId, ReadColumns(env, kind, fields, oldId))
  {
    hide Readable, ReadColumns, Columns, DefaultColumns;
    ColumnsAre(kind);
    match kind
    case Connectors => ConnectorDefaults(env, fields, oldId);
    case Sources => SourceDefaults(env, fields, oldId);
    case Streams => StreamDefaults(env, fields, oldId);
    case Mappings => MappingDefaults(env, fields, oldId);
    case Enrichments => EnrichmentDefaults(env, fields, oldId);
    case Checkpoints => CheckpointDefaults(env, fields, oldId);
    case Destinations => DestinationDefaults(env, fields, oldId);
    case Routes => RouteDefaults(env, fields, oldId);
  }

  predicate BlankOrObject(fields: map<Field, JSON>, f: Field) {
    f in fields ==>
      fields[f].Obj? || fields[f] in {Null, Bool(false), Num(0), Str(""), Arr([])}
  }

  /** A number, a truth value, a text of a number, or blank. */
  predicate BlankOrNumber(env: Env, fields: map<Field, JSON>, f: Field) {
    f in fields ==>
      match fields[f]
      case Str(text) => text == "" || env.parse(text).Some?
      case Arr(items) => items == []
      case Obj(entries) => entries == map[]
      case _ => true
  }

  lemma ReadsDictWhen(env: Env, column: Column, fields: map<Field, JSON>, f: Field, oldId: int)
    requires column.Dict? || column.Stripped? || column.Auth?
    ensures ReadColumn(env, column, fields, f, oldId).Some? <==> BlankOrObject(fields, f)
  {}

  lemma ReadsIntervalWhen(env: Env, fields: map<Field, JSON>, f: Field, oldId: int)
    ensures ReadColumn(env, Interval, fields, f, oldId).Some? <==> BlankOrNumber(env, fields, f)
  {}

  lemma ReadsAnyway(env: Env, column: Column, fields: map<Field, JSON>, f: Field, oldId: int)
    requires !column.Dict? && !column.Stripped? && !column.Auth? && !column.Interval?
    ensures ReadColumn(env, column, fields, f, oldId).Some?
  {}

  predicate DictColumn(kind: Kind, f: Field) {
    match kind
    case Connectors => false
    case Sources => f == ConfigJson || f == AuthJson
    case Streams => f == ConfigJson || f == RateLimitJson
    case Mappings => f == FieldMappingsJson
    case Enrichments => f == EnrichmentJson
    case Checkpoints => f == CheckpointValueJson
    case Destinations => f == ConfigJson || f == RateLimitJson
    case Routes => f == FormatterConfigJson || f == RateLimitJson
  }

  lemma DictColumns(kind: Kind)
    ensures forall f :: f in Columns(kind) ==>
      && (DictColumn(kind, f) <==> Columns(kind)[f].Dict? || Columns(kind)[f].Stripped? || Columns(kind)[f].Auth?)
      && (Columns(kind)[f].Interval? <==> kind == Streams && f == PollingInterval)
    ensures forall f :: DictColumn(kind, f) ==> f in Columns(kind)
    ensures PollingInterval in Columns(Streams)
  {
    match kind case Destinations => case Connectors => case Sources => case Streams =>
    case Mappings => case Enrichments => case Checkpoints => case Routes =>
  }

  /** The columns of an entry can be read exactly when its JSON columns are objects or blank, and its
      polling interval is a number, a text of one, or blank. */
  lemma ReadableIs(env: Env, kind: Kind, fields: map<Field, JSON>, oldId: int)
    ensures Readable(env, kind, fields, oldId) <==>
      && (forall f :: DictColumn(kind, f) ==> BlankOrObject(fields, f))
      && (kind == Streams ==> BlankOrNumber(env, fields, PollingInterval))
  {
    hide Columns, ReadColumn, DictColumn, BlankOrObject, BlankOrNumber;
    DictColumns(kind);
    forall f | f in Columns(kind)
      ensures ReadColumn(env, Columns(kind)[f], fields, f, oldId).Some? <==>
        && (DictColumn(kind, f) ==> BlankOrObject(fields, f))
        && (kind == Streams && f == PollingInterval ==> BlankOrNumber(env, fields, f))
    {
      var column := Columns(kind)[f];
      if column.Dict? || column.Stripped? || column.Auth? {
        ReadsDictWhen(env, column, fields, f, oldId);
      } else if column.Interval? {
        ReadsIntervalWhen(env, fields, f, oldId);
      } else {
        ReadsAnyway(env, column, fields, f, oldId);
      }
    }
  }
}
