/**
 `validate_import_bundle`: which conflicts it reports, when it raises, and what a bundle without
 conflicts is.
 */
module BackupValidator {
  import opened Options
  import opened Strings
  import opened BackupJson
  import opened BackupStore

  datatype Mode = Additive | Clone | FullRestore | UnknownMode

  /** `require_supported_import_mode` looks at the text without surrounding blanks. */
  function ParseMode(text: string): Mode {
    var mode := Trim(text);
    if mode == "additive" then Additive
    else if mode == "clone" then Clone
    else if mode == "full_restore" then FullRestore
    else UnknownMode
  }

  datatype Conflict =
    | FullRestoreRetired
    | ModeUnsupported
    | UnsupportedVersion
    | MissingConnectors
    | InvalidRow(kind: Kind)
    | MissingExportId(kind: Kind)
    | DuplicateName(kind: Kind)
    | SourceConnectorMismatch
    | UnsupportedSourceType
    | StreamConnectorMismatch
    | StreamSourceMismatch
    | UnsupportedDestinationType
    | InvalidFailurePolicy
    | StreamMismatch(kind: Kind)
    | MissingDestination
    | RoutesWithoutMappings
    | RouteWithoutMapping

  datatype Outcome = Raised | Checked(conflicts: set<Conflict>)

  // ---- Texts ----------------------------------------------------------------------------------------

  /** `str(value or default)` */
  function StrOr(env: Env, v: JSON, default: string): string {
    if Truthy(v) then BackupJson.Text(env.show, v) else default
  }

  predicate SourceSupported(env: Env, v: JSON) {
    Upper(Trim(StrOr(env, v, ""))) in env.sourceTypes
  }

  predicate DestinationSupported(env: Env, v: JSON) {
    var text := StrOr(env, v, "");
    var key := Upper(Trim(text));
    env.hasAdapter(text) || key == "WEBHOOK_POST" || "SYSLOG" <= key
  }

  predicate PolicySupported(env: Env, v: JSON) {
    var policy := Trim(StrOr(env, v, "LOG_AND_CONTINUE"));
    || policy == "LOG_AND_CONTINUE" || policy == "PAUSE_STREAM_ON_FAILURE"
    || policy == "DISABLE_ROUTE_ON_FAILURE" || policy == "RETRY_AND_BACKOFF"
  }

  // ---- Rows -----------------------------------------------------------------------------------------

  /** The export ids of the bundle, and the destinations that already exist. */
  datatype Known = Known(connectors: set<int>, sources: set<int>, streams: set<int>, destinations: set<int>,
      stored: set<int>)

  predicate HasId(e: Entry) {
    e.Object? && Get(e.fields, Id) != Null
  }

  function IdOf(env: Env, e: Entry): Option<int> {
    if HasId(e) then ToInt(env, Get(e.fields, Id)) else None
  }

  function ExportIds(env: Env, entries: seq<Entry>): set<int> {
    set e | e in entries && IdOf(env, e).Some? :: IdOf(env, e).value
  }

  /** Reading the numbers of this row raises. */
  predicate RowRaises(env: Env, kind: Kind, e: Entry) {
    e.Object? &&
    match kind
    case Connectors => HasId(e) && IdOf(env, e).None?
    case Destinations => HasId(e) && IdOf(env, e).None?
    case Sources => Get(e.fields, ConnectorId) != Null && ToInt(env, Get(e.fields, ConnectorId)).None?
    case Streams => HasId(e) && (IdOf(env, e).None? || GetInt(env, e.fields, ConnectorId).None?
        || GetInt(env, e.fields, SourceId).None?)
    case Routes => GetInt(env, e.fields, StreamId).None? || GetInt(env, e.fields, DestinationId).None?
    case _ => GetInt(env, e.fields, StreamId).None?
  }

  predicate In(n: Option<int>, ids: set<int>) {
    n.Some? && n.value in ids
  }

  /** This row has the fault `c`. */
  predicate RowFault(env: Env, known: Known, kind: Kind, e: Entry, c: Conflict) {
    if e.Junk? then c == InvalidRow(kind)
    else match kind
      case Connectors => c == MissingExportId(Connectors) && !HasId(e)
      case Sources =>
        || (c == SourceConnectorMismatch
            && !(Get(e.fields, ConnectorId) != Null && In(ToInt(env, Get(e.fields, ConnectorId)), known.connectors)))
        || (c == UnsupportedSourceType && !SourceSupported(env, Get(e.fields, SourceType)))
      case Streams =>
        || (c == MissingExportId(Streams) && !HasId(e))
        || (c == StreamConnectorMismatch && HasId(e) && !In(GetInt(env, e.fields, ConnectorId), known.connectors))
        || (c == StreamSourceMismatch && HasId(e) && !In(GetInt(env, e.fields, SourceId), known.sources))
      case Destinations =>
        || (c == MissingExportId(Destinations) && !HasId(e))
        || (c == UnsupportedDestinationType && HasId(e) && !DestinationSupported(env, Get(e.fields, DestinationType)))
      case Routes =>
        || (c == InvalidFailurePolicy && !PolicySupported(env, Get(e.fields, FailurePolicy)))
        || (c == StreamMismatch(Routes) && !In(GetInt(env, e.fields, StreamId), known.streams))
        || (c == MissingDestination && !In(GetInt(env, e.fields, DestinationId), known.destinations + known.stored))
      case _ => c == StreamMismatch(kind) && !In(GetInt(env, e.fields, StreamId), known.streams)
  }

  ghost predicate SomeRaises(env: Env, kind: Kind, entries: seq<Entry>) {
    exists e :: e in entries && RowRaises(env, kind, e)
  }

  ghost predicate SomeFault(env: Env, known: Known, kind: Kind, entries: seq<Entry>, c: Conflict) {
    exists e :: e in entries && RowFault(env, known, kind, e, c)
  }

  /** The checks of one row, as the loops over the arrays make them. */
  method CheckRow(env: Env, known: Known, kind: Kind, e: Entry) returns (raised: bool, conflicts: set<Conflict>)
    ensures raised <==> RowRaises(env, kind, e)
    ensures !raised ==> forall c :: c in conflicts <==> RowFault(env, known, kind, e, c)
  {
    hide SourceSupported, DestinationSupported, PolicySupported, ToInt;
    raised, conflicts := false, {};
    if e.Junk? {
      conflicts := {InvalidRow(kind)};
      return;
    }
    match kind {
      case Connectors =>
        if !HasId(e) {
          conflicts := {MissingExportId(Connectors)};
          return;
        }
        raised := IdOf(env, e).None?;
      case Sources =>
        var cid := Get(e.fields, ConnectorId);
        if cid != Null && ToInt(env, cid).None? {
          return true, {};
        }
        if cid == Null || ToInt(env, cid).value !in known.connectors {
          conflicts := conflicts + {SourceConnectorMismatch};
        }
        if !SourceSupported(env, Get(e.fields, SourceType)) {
          conflicts := conflicts + {UnsupportedSourceType};
        }
      case Streams =>
        if !HasId(e) {
          conflicts := {MissingExportId(Streams)};
          return;
        }
        var cid, sid := GetInt(env, e.fields, ConnectorId), GetInt(env, e.fields, SourceId);
        if IdOf(env, e).None? || cid.None? || sid.None? {
          return true, {};
        }
        if cid.value !in known.connectors {
          conflicts := conflicts + {StreamConnectorMismatch};
        }
        if sid.value !in known.sources {
          conflicts := conflicts + {StreamSourceMismatch};
        }
      case Destinations =>
        if !HasId(e) {
          conflicts := {MissingExportId(Destinations)};
          return;
        }
        if !DestinationSupported(env, Get(e.fields, DestinationType)) {
          conflicts := {UnsupportedDestinationType};
        }
        raised := IdOf(env, e).None?;
      case Routes =>
        if !PolicySupported(env, Get(e.fields, FailurePolicy)) {
          conflicts := conflicts + {InvalidFailurePolicy};
        }
        var sid, did := GetInt(env, e.fields, StreamId), GetInt(env, e.fields, DestinationId);
        if sid.None? || did.None? {
          return true, {};
        }
        if sid.value !in known.streams {
          conflicts := conflicts + {StreamMismatch(Routes)};
        }
        if did.value in known.destinations {
          return;
        }
        if did.value !in known.stored {
          conflicts := conflicts + {MissingDestination};
        }
      case _ =>
        var sid := GetInt(env, e.fields, StreamId);
        if sid.None? {
          return true, {};
        }
        if sid.value !in known.streams {
          conflicts := {StreamMismatch(kind)};
        }
    }
  }

  method CheckRows(env: Env, known: Known, kind: Kind, entries: seq<Entry>)
    returns (raised: bool, conflicts: set<Conflict>)
    ensures raised <==> SomeRaises(env, kind, entries)
    ensures !raised ==> forall c :: c in conflicts <==> SomeFault(env, known, kind, entries, c)
  {
    hide RowRaises, RowFault;
    raised, conflicts := false, {};
    for i := 0 to |entries|
      invariant !raised && !SomeRaises(env, kind, entries[..i])
      invariant forall c :: c in conflicts <==> SomeFault(env, known, kind, entries[..i], c)
    {
      assert entries[..i + 1] == entries[..i] + [entries[i]];
      var failed, found := CheckRow(env, known, kind, entries[i]);
      if failed {
        assert entries[i] in entries;
        return true, {};
      }
      conflicts := conflicts + found;
    }
    assert entries[..|entries|] == entries;
  }

  // ---- Names ----------------------------------------------------------------------------------------

  /** What must not repeat: a connector's name; a stream's connector and name. Blank names and rows
      without an id are not compared. */
  function NameKey(env: Env, kind: Kind, e: Entry): Option<(int, string)> {
    if !HasId(e) then None
    else
      var name := Trim(StrOr(env, Get(e.fields, Name), ""));
      if name == "" then None
      else if kind == Connectors then Some((0, name))
      else match GetInt(env, e.fields, ConnectorId)
        case Some(cid) => Some((cid, name))
        case None => None
  }

  ghost predicate RepeatsName(env: Env, kind: Kind, entries: seq<Entry>) {
    exists i, k :: 0 <= i < k < |entries| && NameKey(env, kind, entries[i]).Some?
                   && NameKey(env, kind, entries[i]) == NameKey(env, kind, entries[k])
  }

  method CheckNames(env: Env, kind: Kind, entries: seq<Entry>) returns (conflicts: set<Conflict>)
    ensures conflicts == if RepeatsName(env, kind, entries) then {DuplicateName(kind)} else {}
  {
    hide NameKey;
    var count: map<(int, string), nat> := map[];
    conflicts := {};
    for i := 0 to |entries|
      invariant forall key :: key in count <==> exists k :: 0 <= k < i && NameKey(env, kind, entries[k]) == Some(key)
      invariant conflicts == if RepeatsName(env, kind, entries[..i]) then {DuplicateName(kind)} else {}
    {
      assert entries[..i + 1] == entries[..i] + [entries[i]];
      var key := NameKey(env, kind, entries[i]);
      if key.Some? {
        if key.value in count {
          var k :| 0 <= k < i && NameKey(env, kind, entries[k]) == key;
          assert entries[..i + 1][k] == entries[k] && entries[..i + 1][i] == entries[i];
          conflicts := {DuplicateName(kind)};
        }
        count := count[key.value := (if key.value in count then count[key.value] else 0) + 1];
      }
      OneMoreName(env, kind, entries, i);
    }
    assert entries[..|entries|] == entries;
  }

  lemma OneMoreName(env: Env, kind: Kind, entries: seq<Entry>, i: nat)
    requires i < |entries|
    ensures RepeatsName(env, kind, entries[..i + 1]) <==>
      || RepeatsName(env, kind, entries[..i])
      || (NameKey(env, kind, entries[i]).Some? && exists k ::
          0 <= k < i && NameKey(env, kind, entries[k]) == NameKey(env, kind, entries[i]))
  {
    hide NameKey;
    var shorter, longer := entries[..i], entries[..i + 1];
    if RepeatsName(env, kind, longer) {
      var a, b :| 0 <= a < b < |longer| && NameKey(env, kind, longer[a]).Some?
          && NameKey(env, kind, longer[a]) == NameKey(env, kind, longer[b]);
      assert longer[a] == entries[a] && longer[b] == entries[b];
      if b < i {
        assert shorter[a] == entries[a] && shorter[b] == entries[b];
      }
    }
    if RepeatsName(env, kind, shorter) {
      var a, b :| 0 <= a < b < |shorter| && NameKey(env, kind, shorter[a]).Some?
          && NameKey(env, kind, shorter[a]) == NameKey(env, kind, shorter[b]);
      assert longer[a] == shorter[a] && longer[b] == shorter[b];
    }
    if NameKey(env, kind, entries[i]).Some? {
      forall k | 0 <= k < i && NameKey(env, kind, entries[k]) == NameKey(env, kind, entries[i])
        ensures RepeatsName(env, kind, longer)
      {
        assert longer[k] == entries[k] && longer[i] == entries[i];
      }
    }
  }

  // ---- Routes need mappings -------------------------------------------------------------------------

  function StreamRefs(env: Env, entries: seq<Entry>): set<int> {
    set e | e in entries && e.Object? && Get(e.fields, StreamId) != Null && ToInt(env, Get(e.fields, StreamId)).Some?
          :: ToInt(env, Get(e.fields, StreamId)).value
  }

  predicate LinkageFault(env: Env, streams: set<int>, streamRows: seq<Entry>, routes: seq<Entry>, mappings: seq<Entry>,
      c: Conflict) {
    && routes != [] && streamRows != []
    && if mappings == [] then c == RoutesWithoutMappings
       else c == RouteWithoutMapping && exists sid ::
           sid in StreamRefs(env, routes) && sid in streams && sid !in StreamRefs(env, mappings)
  }

  method CheckLinkage(env: Env, streams: set<int>, streamRows: seq<Entry>, routes: seq<Entry>, mappings: seq<Entry>)
    returns (conflicts: set<Conflict>)
    ensures forall c :: c in conflicts <==> LinkageFault(env, streams, streamRows, routes, mappings, c)
  {
    conflicts := {};
    var withMapping: set<int> := StreamRefs(env, mappings);
    var rest: set<int> := StreamRefs(env, routes);
    if routes != [] && streamRows != [] && mappings == [] {
      conflicts := {RoutesWithoutMappings};
    } else if routes != [] && streamRows != [] {
      while rest != {}
        invariant rest <= StreamRefs(env, routes)
        invariant conflicts == if exists sid ::
            sid in StreamRefs(env, routes) - rest && sid in streams && sid !in withMapping
                               then {RouteWithoutMapping} else {}
        decreases rest
      {
        assert (forall sid :: sid !in rest) ==> rest == {};
        var sid :| sid in rest;
        rest := rest - {sid};
        if sid in streams && sid !in withMapping {
          conflicts := {RouteWithoutMapping};
        }
      }
    }
  }

  // ---- The whole bundle -----------------------------------------------------------------------------

  function Entries(b: Bundle, kind: Kind): seq<Entry> {
    if SectionOf(b, kind).Scalar? then [] else Elements(SectionOf(b, kind))
  }

  function KnownIds(env: Env, stored: set<int>, b: Bundle): Known {
    Known(ExportIds(env, Entries(b, Connectors)), ExportIds(env, Entries(b, Sources)),
          ExportIds(env, Entries(b, Streams)), ExportIds(env, Entries(b, Destinations)), stored)
  }

  predicate VersionSupported(v: JSON) {
    v == Num(1) || v == Num(2) || v == Bool(true)
  }

  /** The faults for which the checks stop at once. */
  function HeaderFault(b: Bundle, mode: Mode): Option<Conflict> {
    if mode == FullRestore then Some(FullRestoreRetired)
    else if mode == UnknownMode then Some(ModeUnsupported)
    else if !VersionSupported(b.version) then Some(UnsupportedVersion)
    else if !(b.connectors.Rows? && b.connectors.entries != []) then Some(MissingConnectors)
    else None
  }

  /** A source id that is no number is noticed only when some stream is compared with it. */
  predicate SourceIdRaises(env: Env, b: Bundle) {
    && (exists e :: e in Entries(b, Streams) && HasId(e))
    && (exists e :: e in Entries(b, Sources) && HasId(e) && IdOf(env, e).None?)
  }

  ghost predicate Raises(env: Env, b: Bundle) {
    || (exists kind :: SectionOf(b, kind).Scalar?)
    || (exists kind :: SomeRaises(env, kind, Entries(b, kind)))
    || SourceIdRaises(env, b)
  }

  ghost predicate Faulty(env: Env, stored: set<int>, b: Bundle, mode: Mode, c: Conflict) {
    match HeaderFault(b, mode)
    case Some(fault) => c == fault
    case None =>
      || (exists kind :: SomeFault(env, KnownIds(env, stored, b), kind, Entries(b, kind), c))
      || (exists kind ::
            && (kind == Connectors || kind == Streams)
            && c == DuplicateName(kind) && RepeatsName(env, kind, Entries(b, kind)))
      || LinkageFault(env, KnownIds(env, stored, b).streams, Entries(b, Streams), Entries(b, Routes),
          Entries(b, Mappings), c)
  }

  lemma AllKinds(order: seq<Kind>)
    requires order == [Connectors, Sources, Streams, Destinations, Routes, Mappings, Enrichments, Checkpoints]
    ensures forall kind: Kind :: kind in order
  {
    forall kind: Kind ensures kind in order {
      match kind
      case Connectors => assert order[0] == kind;
      case Sources => assert order[1] == kind;
      case Streams => assert order[2] == kind;
      case Destinations => assert order[3] == kind;
      case Routes => assert order[4] == kind;
      case Mappings => assert order[5] == kind;
      case Enrichments => assert order[6] == kind;
      case Checkpoints => assert order[7] == kind;
    }
  }

  /** The loops over the eight arrays. */
  method CheckArrays(env: Env, known: Known, b: Bundle) returns (raised: bool, conflicts: set<Conflict>)
    ensures raised <==>
        (exists kind :: SectionOf(b, kind).Scalar?) || (exists kind :: SomeRaises(env, kind, Entries(b, kind)))
    ensures !raised ==> forall c :: c in conflicts <==> exists kind :: SomeFault(env, known, kind, Entries(b, kind), c)
  {
    hide SomeRaises, SomeFault, Entries, SectionOf;
    var order := [Connectors, Sources, Streams, Destinations, Routes, Mappings, Enrichments, Checkpoints];
    AllKinds(order);
    raised, conflicts := false, {};
    for i := 0 to |order|
      invariant !raised
      invariant forall kind :: kind in order[..i] ==>
          !SectionOf(b, kind).Scalar? && !SomeRaises(env, kind, Entries(b, kind))
      invariant forall c :: c in conflicts <==>
          exists kind :: kind in order[..i] && SomeFault(env, known, kind, Entries(b, kind), c)
    {
      assert order[..i + 1] == order[..i] + [order[i]];
      if SectionOf(b, order[i]).Scalar? {
        return true, {};
      }
      var failed, found := CheckRows(env, known, order[i], Entries(b, order[i]));
      if failed {
        return true, {};
      }
      conflicts := conflicts + found;
    }
    assert order[..|order|] == order;
  }

  /** `validate_import_bundle`: raises or reports exactly the faults of the bundle. */
  method ValidateImportBundle(env: Env, stored: set<int>, b: Bundle, mode: Mode) returns (r: Outcome)
    ensures r.Raised? <==> HeaderFault(b, mode).None? && Raises(env, b)
    ensures r.Checked? ==> forall c :: c in r.conflicts <==> Faulty(env, stored, b, mode, c)
  {
    hide SomeRaises, SomeFault, RepeatsName, LinkageFault, SourceIdRaises, KnownIds, Entries;
    if mode == FullRestore {
      return Checked({FullRestoreRetired});
    }
    if mode == UnknownMode {
      return Checked({ModeUnsupported});
    }
    if !VersionSupported(b.version) {
      return Checked({UnsupportedVersion});
    }
    if !b.connectors.Rows? || b.connectors.entries == [] {
      return Checked({MissingConnectors});
    }
    var known := KnownIds(env, stored, b);
    var raised, conflicts := CheckArrays(env, known, b);
    if raised || SourceIdRaises(env, b) {
      return Raised;
    }
    var connectorNames := CheckNames(env, Connectors, Entries(b, Connectors));
    var streamNames := CheckNames(env, Streams, Entries(b, Streams));
    var linkage := CheckLinkage(env, known.streams, Entries(b, Streams), Entries(b, Routes), Entries(b, Mappings));
    return Checked(conflicts + connectorNames + streamNames + linkage);
  }
}
