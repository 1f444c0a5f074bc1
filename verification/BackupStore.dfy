/**
 The configuration database and the bundles that are exported from it and imported into it.

 The eight entity types are treated alike: a row is an identity, its references to other rows, and
 its remaining columns; `Columns` says, column by column, how an import reads it from the bundle.
 */
module BackupStore {
  import opened Options
  import opened BackupJson

  datatype Kind = Connectors | Sources | Streams | Mappings | Enrichments | Checkpoints | Destinations | Routes

  datatype Field =
    | Id | ConnectorId | SourceId | StreamId | DestinationId
    | Name | ProductGroup | Description | Status | Enabled
    | SourceType | ConfigJson | AuthJson
    | StreamType | PollingInterval | RateLimitJson
    | EventArrayPath | EventRootPath | FieldMappingsJson | RawPayloadMode
    | EnrichmentJson | OverridePolicy
    | CheckpointType | CheckpointValueJson
    | DestinationType
    | FailurePolicy | FormatterConfigJson | DisableReason

  /** What the code around the import decides: `str` and `int` of values that are not of that type
      already, and which adapters are registered. */
  datatype Env = Env(
    show: JSON -> string,
    parse: string -> Option<int>,
    names: set<string>,
    sourceTypes: set<string>,
    hasAdapter: string -> bool)

  datatype Row = Row(id: int, refs: map<Field, int>, cols: map<Field, JSON>)

  /** One element of a bundle's arrays: a JSON object, or anything else. */
  datatype Entry = Junk | Object(fields: map<Field, JSON>)

  /** What `bundle.get(key) or []` is: an array, text or an object (which iterate over things that
      are not objects), or a number or `true`, which cannot be iterated. */
  datatype Section = Rows(entries: seq<Entry>) | Text(length: nat) | Scalar

  datatype Bundle = Bundle(
    version: JSON,
    connectors: Section,
    sources: Section,
    streams: Section,
    mappings: Section,
    enrichments: Section,
    destinations: Section,
    routes: Section,
    checkpoints: Section)

  function SectionOf(b: Bundle, kind: Kind): Section {
    match kind
    case Connectors => b.connectors
    case Sources => b.sources
    case Streams => b.streams
    case Mappings => b.mappings
    case Enrichments => b.enrichments
    case Checkpoints => b.checkpoints
    case Destinations => b.destinations
    case Routes => b.routes
  }

  /** The elements a loop over the section goes through. */
  function Elements(s: Section): seq<Entry>
    requires !s.Scalar?
  {
    match s
    case Rows(entries) => entries
    case Text(length) => seq(length, _ => Junk)
  }

  // ---- Reading a bundle entry ---------------------------------------------------------------------

  /** `entry.get(field)` */
  function Get(fields: map<Field, JSON>, f: Field): JSON {
    if f in fields then fields[f] else Null
  }

  /** `int(value)`; `None` when it raises. */
  function ToInt(env: Env, v: JSON): Option<int> {
    match v
    case Num(n) => Some(n)
    case Bool(b) => Some(if b then 1 else 0)
    case Str(text) => env.parse(text)
    case _ => None
  }

  /** `int(entry.get(field, -1))` */
  function GetInt(env: Env, fields: map<Field, JSON>, f: Field): Option<int> {
    if f in fields then ToInt(env, fields[f]) else Some(-1)
  }

  // ---- Columns ------------------------------------------------------------------------------------

  /** How an import reads one column. */
  datatype Column =
    | Words(default: string)     // str(entry.get(f) or default)
    | DestinationWords           // the same, with a default made from the export id
    | Raw                        // entry.get(f)
    | Dict                       // dict(entry.get(f) or {})
    | Stripped                   // the same, without mask placeholders
    | Auth                       // the same, with a default auth_type
    | Flag                       // bool(entry.get(f, True))
    | Interval                   // int(entry.get(f) or 60)
    | Fixed(value: JSON)

  function Columns(kind: Kind): map<Field, Column> {
    match kind
    case Connectors => map[
      Name := Words("imported-connector"), ProductGroup := Raw, Description := Raw, Status := Fixed(Str("STOPPED"))]
    case Sources => map[
      SourceType := Words("HTTP_API_POLLING"), ConfigJson := Stripped, AuthJson := Auth, Enabled := Fixed(Bool(false))]
    case Streams => map[
      Name := Words("imported-stream"), StreamType := Words("HTTP_API_POLLING"), ConfigJson := Stripped,
      PollingInterval := Interval, Enabled := Fixed(Bool(false)), Status := Fixed(Str("STOPPED")),
          RateLimitJson := Dict]
    case Mappings => map[
      EventArrayPath := Raw, EventRootPath := Raw, FieldMappingsJson := Dict, RawPayloadMode := Raw]
    case Enrichments => map[
      EnrichmentJson := Dict, OverridePolicy := Words("KEEP_EXISTING"), Enabled := Flag]
    case Checkpoints => map[
      CheckpointType := Words("CUSTOM_FIELD"), CheckpointValueJson := Dict]
    case Destinations => map[
      Name := DestinationWords, DestinationType := Words("WEBHOOK_POST"), ConfigJson := Stripped,
      RateLimitJson := Dict, Enabled := Flag]
    case Routes => map[
      Enabled := Flag, FailurePolicy := Words("LOG_AND_CONTINUE"), FormatterConfigJson := Dict, RateLimitJson := Dict,
      Status := Words("ENABLED"), DisableReason := Raw]
  }

  /** `dict(value or {})`; `None` when it raises. */
  function ToDict(v: JSON): Option<map<string, JSON>> {
    if !Truthy(v) then Some(map[])
    else if v.Obj? then Some(v.fields)
    else None
  }

  const AUTH_TYPE := "auth_type"

  function WithAuthType(auth: map<string, JSON>): map<string, JSON> {
    if AUTH_TYPE in auth && Truthy(auth[AUTH_TYPE]) then auth else auth[AUTH_TYPE := Str("no_auth")]
  }

  function StripDict(fields: map<string, JSON>): map<string, JSON> {
    Strip(Obj(fields)).fields
  }

  function WordsOf(env: Env, v: JSON, default: string): JSON {
    Str(if Truthy(v) then BackupJson.Text(env.show, v) else default)
  }

  /** The value of a column read from an entry with export id `oldId`; `None` when that raises. */
  function ReadColumn(env: Env, column: Column, fields: map<Field, JSON>, f: Field, oldId: int): Option<JSON> {
    var v := Get(fields, f);
    match column
    case Words(default) => Some(WordsOf(env, v, default))
    case DestinationWords => Some(WordsOf(env, v, "imported-destination-" + env.show(Num(oldId))))
    case Raw => Some(v)
    case Dict => (match ToDict(v) case Some(d) => Some(Obj(d)) case None => None)
    case Stripped => (match ToDict(v) case Some(d) => Some(Obj(StripDict(d))) case None => None)
    case Auth => (match ToDict(v) case Some(d) => Some(Obj(WithAuthType(StripDict(d)))) case None => None)
    case Flag => Some(Bool(f !in fields || Truthy(v)))
    case Interval => (match ToInt(env, if Truthy(v) then v else Num(60)) case Some(n) => Some(Num(n)) case None => None)
    case Fixed(value) => Some(value)
  }

  predicate Readable(env: Env, kind: Kind, fields: map<Field, JSON>, oldId: int) {
    forall f :: f in Columns(kind) ==> ReadColumn(env, Columns(kind)[f], fields, f, oldId).Some?
  }

  function ReadColumns(env: Env, kind: Kind, fields: map<Field, JSON>, oldId: int): map<Field, JSON>
    requires Readable(env, kind, fields, oldId)
  {
    map f | f in Columns(kind) :: ReadColumn(env, Columns(kind)[f], fields, f, oldId).value
  }
}
