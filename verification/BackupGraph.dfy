/**
 An import is a graph isomorphism: what a bundle without conflicts becomes, and exactly when the
 apply that follows succeeds.
 */
module BackupGraph {
  import opened Options
  import opened BackupJson
  import opened BackupStore
  import opened BackupValidator
  import opened BackupImport

  /** The validator accepts the bundle. */
  ghost predicate Accepted(env: Env, stored: set<int>, b: Bundle, mode: Mode) {
    HeaderFault(b, mode).None? && !Raises(env, b) && forall c :: !Faulty(env, stored, b, mode, c)
  }

  /** The export ids a reference field may use. */
  function KnownTo(known: Known, f: Field): set<int> {
    match Target(f)
    case Connectors => known.connectors
    case Sources => known.sources
    case Streams => known.streams
    case _ => known.destinations + known.stored
  }

  /** An entry with nothing wrong about it. */
  predicate EntryFine(env: Env, known: Known, kind: Kind, e: Entry) {
    && e.Object?
    && (Mapped(kind) && kind != Sources ==> IdOf(env, e).Some?)
    && (forall f :: f in Refs(kind) ==> In(GetInt(env, e.fields, f), KnownTo(known, f)))
    && (kind == Sources ==> Get(e.fields, ConnectorId) != Null && SourceSupported(env, Get(e.fields, SourceType)))
    && (kind == Destinations ==> DestinationSupported(env, Get(e.fields, DestinationType)))
    && (kind == Routes ==> PolicySupported(env, Get(e.fields, FailurePolicy)))
  }

  /** Routes of the bundle's streams come with mappings for them. */
  predicate Linked(env: Env, b: Bundle) {
    Entries(b, Routes) != [] && Entries(b, Streams) != [] ==>
      && Entries(b, Mappings) != []
      && StreamRefs(env, Entries(b, Routes)) * ExportIds(env, Entries(b, Streams)) <= StreamRefs(env,
          Entries(b, Mappings))
  }

  ghost predicate WellFormed(env: Env, stored: set<int>, b: Bundle, mode: Mode) {
    && HeaderFault(b, mode).None?
    && (forall kind :: !SectionOf(b, kind).Scalar?)
    && (forall kind, e :: e in Entries(b, kind) ==> EntryFine(env, KnownIds(env, stored, b), kind, e))
    && !SourceIdRaises(env, b)
    && !RepeatsName(env, Connectors, Entries(b, Connectors)) && !RepeatsName(env, Streams, Entries(b, Streams))
    && Linked(env, b)
  }

  lemma FineExactly(env: Env, known: Known, kind: Kind, e: Entry)
    ensures EntryFine(env, known, kind, e) <==>
        !RowRaises(env, kind, e) && forall c :: !RowFault(env, known, kind, e, c)
  {
    hide EntryFine, RowRaises, RowFault;
    if EntryFine(env, known, kind, e) {
      FineHasNoFault(env, known, kind, e);
    } else if !RowRaises(env, kind, e) && forall c :: !RowFault(env, known, kind, e, c) {
      NoFaultIsFine(env, known, kind, e);
    }
  }

  lemma NoFaultIsFine(env: Env, known: Known, kind: Kind, e: Entry)
    requires !RowRaises(env, kind, e) && forall c :: !RowFault(env, known, kind, e, c)
    ensures EntryFine(env, known, kind, e)
  {
    hide SourceSupported, DestinationSupported, PolicySupported, ToInt, IdOf, In;
    assert !RowFault(env, known, kind, e, InvalidRow(kind));
    match kind
    case Sources =>
      assert !RowFault(env, known, kind, e, SourceConnectorMismatch)
          && !RowFault(env, known, kind, e, UnsupportedSourceType);
    case Streams =>
      assert !RowFault(env, known, kind, e, MissingExportId(Streams));
      assert !RowFault(env, known, kind, e, StreamConnectorMismatch)
          && !RowFault(env, known, kind, e, StreamSourceMismatch);
    case Routes =>
      assert !RowFault(env, known, kind, e, StreamMismatch(Routes))
          && !RowFault(env, known, kind, e, InvalidFailurePolicy);
      assert !RowFault(env, known, kind, e, MissingDestination);
    case Connectors =>
      assert !RowFault(env, known, kind, e, MissingExportId(Connectors));
    case Destinations =>
      assert !RowFault(env, known, kind, e, MissingExportId(Destinations))
          && !RowFault(env, known, kind, e, UnsupportedDestinationType);
    case _ =>
      assert !RowFault(env, known, kind, e, StreamMismatch(kind));
  }

  lemma FineHasNoFault(env: Env, known: Known, kind: Kind, e: Entry)
    requires EntryFine(env, known, kind, e)
    ensures !RowRaises(env, kind, e) && forall c :: !RowFault(env, known, kind, e, c)
  {
    hide SourceSupported, DestinationSupported, PolicySupported, ToInt;
    assert forall f :: f in Refs(kind) ==> In(GetInt(env, e.fields, f), KnownTo(known, f));
    match kind
    case Sources => assert ConnectorId in Refs(kind);
    case Streams => assert ConnectorId in Refs(kind) && SourceId in Refs(kind);
    case Routes => assert StreamId in Refs(kind) && DestinationId in Refs(kind);
    case Connectors =>
    case Destinations =>
    case _ => assert StreamId in Refs(kind);
  }

  lemma LinkedExactly(env: Env, b: Bundle)
    ensures Linked(env, b) <==>
      forall c :: !LinkageFault(env, ExportIds(env, Entries(b, Streams)), Entries(b, Streams), Entries(b, Routes),
          Entries(b, Mappings), c)
  {
    hide Entries, ExportIds, StreamRefs;
    var streams := ExportIds(env, Entries(b, Streams));
    if forall c :: !LinkageFault(env, streams, Entries(b, Streams), Entries(b, Routes), Entries(b, Mappings), c) {
      assert !LinkageFault(env, streams, Entries(b, Streams), Entries(b, Routes), Entries(b, Mappings),
          RoutesWithoutMappings);
      assert !LinkageFault(env, streams, Entries(b, Streams), Entries(b, Routes), Entries(b, Mappings),
          RouteWithoutMapping);
      if Entries(b, Routes) != [] && Entries(b, Streams) != [] {
        forall sid | sid in StreamRefs(env, Entries(b, Routes)) && sid in streams
          ensures sid in StreamRefs(env, Entries(b, Mappings))
        {}
      }
    }
    if Linked(env, b) {
      forall c ensures !LinkageFault(env, streams, Entries(b, Streams), Entries(b, Routes), Entries(b, Mappings), c) {
        var routed, mapped := StreamRefs(env, Entries(b, Routes)), StreamRefs(env, Entries(b, Mappings));
        if sid :| sid in routed && sid in streams && sid !in mapped {
          assert sid in StreamRefs(env, Entries(b, Routes)) * streams;
        }
      }
    }
  }

  /** The validator accepts exactly the well-formed bundles. */
  lemma AcceptedExactly(env: Env, stored: set<int>, b: Bundle, mode: Mode)
    ensures Accepted(env, stored, b, mode) <==> WellFormed(env, stored, b, mode)
  {
    hide Entries, ExportIds, EntryFine, RowRaises, RowFault, SourceIdRaises, RepeatsName, LinkageFault, Linked,
      KnownIds, HeaderFault;
    var known := KnownIds(env, stored, b);
    KnownStreams(env, stored, b);
    LinkedExactly(env, b);
    forall kind, e | e in Entries(b, kind)
      ensures EntryFine(env, known, kind, e) <==>
          !RowRaises(env, kind, e) && forall c :: !RowFault(env, known, kind, e, c)
    {
      FineExactly(env, known, kind, e);
    }
    if WellFormed(env, stored, b, mode) {
      forall c ensures !Faulty(env, stored, b, mode, c) {}
    }
    if Accepted(env, stored, b, mode) {
      forall kind, e | e in Entries(b, kind) ensures EntryFine(env, known, kind, e) {
        assert !SomeRaises(env, kind, Entries(b, kind));
        forall c ensures !RowFault(env, known, kind, e, c) {
          assert !Faulty(env, stored, b, mode, c);
          assert !SomeFault(env, known, kind, Entries(b, kind), c);
        }
      }
      assert !Faulty(env, stored, b, mode, DuplicateName(Connectors));
      assert !Faulty(env, stored, b, mode, DuplicateName(Streams));
      forall c
        ensures !LinkageFault(env, known.streams, Entries(b, Streams), Entries(b, Routes), Entries(b, Mappings), c)
      {
        assert !Faulty(env, stored, b, mode, c);
      }
    }
  }

  lemma KnownStreams(env: Env, stored: set<int>, b: Bundle)
    ensures KnownIds(env, stored, b).streams == ExportIds(env, Entries(b, Streams))
  {}

  lemma AcceptedEntry(env: Env, stored: set<int>, b: Bundle, mode: Mode, kind: Kind, e: Entry)
    requires Accepted(env, stored, b, mode) && e in Entries(b, kind)
    ensures EntryFine(env, KnownIds(env, stored, b), kind, e)
  {
    hide Accepted, Entries, KnownIds, EntryFine;
    AcceptedExactly(env, stored, b, mode);
  }

  // ---- When an apply succeeds -----------------------------------------------------------------------

  /** The entry has the id its kind needs, and all its columns can be read. */
  predicate Usable(env: Env, kind: Kind, e: Entry) {
    && e.Object?
    && (Mapped(kind) ==> IdOf(env, e).Some?)
    && Readable(env, kind, e.fields, if Mapped(kind) then IdOf(env, e).value else 0)
  }

  /** A route's destination comes with the bundle, or the import is a clone. */
  predicate Resolved(env: Env, b: Bundle, setting: Setting, kind: Kind, e: Entry) {
    kind == Routes && e.Object? && !setting.clone ==>
        In(GetInt(env, e.fields, DestinationId), ExportIds(env, Entries(b, Destinations)))
  }

  predicate AllUsable(env: Env, b: Bundle, setting: Setting, kind: Kind) {
    forall e :: e in Imported(b, setting, kind) ==> Usable(env, kind, e) && Resolved(env, b, setting, kind, e)
  }

  /** The id maps that `kind` refers to cover the ids of the bundle. */
  predicate Covers(env: Env, b: Bundle, maps: IdMaps, kind: Kind) {
    forall f :: f in Refs(kind) ==> IdsOf(maps, Target(f)).Keys == ExportIds(env, Entries(b, Target(f)))
  }

  lemma Binds(env: Env, stored: set<int>, b: Bundle, mode: Mode, setting: Setting, maps: IdMaps, kind: Kind, e: Entry)
    requires Accepted(env, stored, b, mode) && e in Entries(b, kind) && setting.stored == stored
    requires Covers(env, b, maps, kind)
    ensures e.Object?
    ensures var binding := Bind(env, kind, maps, setting, e.fields);
      if Resolved(env, b, setting, kind, e) then binding.Bound? && binding.refs.Keys == Refs(kind)
          else binding.Unresolved?
  {
    hide Accepted, Entries, ExportIds, ToInt, SourceSupported, DestinationSupported, PolicySupported;
    AcceptedEntry(env, stored, b, mode, kind, e);
    forall f | f in Refs(kind) ensures In(GetInt(env, e.fields, f), KnownTo(KnownIds(env, stored, b), f)) {}
    match kind
    case Sources => assert ConnectorId in Refs(kind);
    case Streams => assert ConnectorId in Refs(kind) && SourceId in Refs(kind);
    case Routes => assert StreamId in Refs(kind) && DestinationId in Refs(kind);
    case Connectors =>
    case Destinations =>
    case _ => assert StreamId in Refs(kind);
  }

  lemma Makes(env: Env, stored: set<int>, b: Bundle, mode: Mode, setting: Setting, maps: IdMaps, kind: Kind, e: Entry)
    requires Accepted(env, stored, b, mode) && e in Entries(b, kind) && setting.stored == stored
    requires Covers(env, b, maps, kind)
    ensures MakeRow(env, kind, maps, setting, e, 0).Made? <==>
        Usable(env, kind, e) && Resolved(env, b, setting, kind, e)
    ensures !MakeRow(env, kind, maps, setting, e, 0).Skipped?
    ensures MakeRow(env, kind, maps, setting, e, 0).Unbound? ==> kind == Routes
  {
    hide Accepted, Entries, ExportIds, ToInt, Bind, Readable, ReadColumns, Covers, Suffixed;
    Binds(env, stored, b, mode, setting, maps, kind, e);
  }

  /** One array of an accepted bundle: no entry is ever skipped; the array comes through exactly
      when all its entries are usable, and its id map then covers its ids. */
  lemma Stage(env: Env, stored: set<int>, b: Bundle, mode: Mode, setting: Setting, next: map<Kind, nat>, maps: IdMaps,
      kind: Kind)
    requires Accepted(env, stored, b, mode) && setting.stored == stored && Complete(next)
    requires Covers(env, b, maps, kind)
    ensures var p := ImportKind(env, b, setting, next, maps, kind);
      && (p.Progress? && !p.unbound <==> AllUsable(env, b, setting, kind))
      && (p.Progress? && p.unbound ==> kind == Routes)
      && (p.Progress? && !p.unbound ==>
            && AllMade(env, kind, maps, setting, Imported(b, setting, kind))
            && (Mapped(kind) ==> p.ids.Keys == ExportIds(env, Entries(b, kind))))
  {
    hide Accepted, Entries, ExportIds, Usable, Resolved, MakeRow, Covers, ImportRows;
    var entries := Imported(b, setting, kind);
    forall e | e in entries
      ensures MakeRow(env, kind, maps, setting, e, 0).Made? <==>
          Usable(env, kind, e) && Resolved(env, b, setting, kind, e)
      ensures !MakeRow(env, kind, maps, setting, e, 0).Skipped?
      ensures MakeRow(env, kind, maps, setting, e, 0).Unbound? ==> kind == Routes
    {
      Makes(env, stored, b, mode, setting, maps, kind, e);
    }
    ArrayOutcome(env, kind, maps, setting, entries, next[kind]);
    if AllMade(env, kind, maps, setting, entries) && Mapped(kind) {
      IdsOfMade(env, kind, maps, setting, entries, next[kind]);
    }
  }

  /** After the validator has accepted a bundle, the import itself succeeds exactly when every
      source has an id, every column can be read, and, unless it clones, every route's destination
      is in the bundle. The validator checks none of the three. */
  lemma SucceedsExactly(env: Env, stored: set<int>, b: Bundle, mode: Mode, setting: Setting, next: map<Kind, nat>)
    requires Accepted(env, stored, b, mode) && setting.stored == stored && Complete(next)
    ensures var plan := PlanImport(env, b, setting, next);
      plan.Plan? && !plan.unbound <==> forall kind :: AllUsable(env, b, setting, kind)
  {
    hide Accepted, Entries, ExportIds, AllUsable, ImportKind, AllMade;
    var d := ImportKind(env, b, setting, next, NoIds, Destinations);
    Stage(env, stored, b, mode, setting, next, NoIds, Destinations);
    if d.Progress? {
      var m1 := NoIds.(destinations := d.ids);
      var c := ImportKind(env, b, setting, next, m1, Connectors);
      Stage(env, stored, b, mode, setting, next, m1, Connectors);
      if c.Progress? {
        var m2 := m1.(connectors := c.ids);
        var s := ImportKind(env, b, setting, next, m2, Sources);
        Stage(env, stored, b, mode, setting, next, m2, Sources);
        if s.Progress? {
          var m3 := m2.(sources := s.ids);
          var st := ImportKind(env, b, setting, next, m3, Streams);
          Stage(env, stored, b, mode, setting, next, m3, Streams);
          if st.Progress? {
            var maps := m3.(streams := st.ids);
            Stage(env, stored, b, mode, setting, next, maps, Mappings);
            Stage(env, stored, b, mode, setting, next, maps, Enrichments);
            Stage(env, stored, b, mode, setting, next, maps, Checkpoints);
            Stage(env, stored, b, mode, setting, next, maps, Routes);
            forall kind ensures (AllUsable(env, b, setting, Destinations) && AllUsable(env, b, setting, Connectors)
                && AllUsable(env, b, setting, Sources) && AllUsable(env, b, setting, Streams)
                && AllUsable(env, b, setting, Mappings)
                && AllUsable(env, b, setting, Enrichments) && AllUsable(env, b, setting, Checkpoints)
                    && AllUsable(env, b, setting, Routes))
                ==> AllUsable(env, b, setting, kind)
            {
              match kind case Destinations => case Connectors => case Sources => case Streams =>
              case Mappings => case Enrichments => case Checkpoints => case Routes =>
            }
          }
        }
      }
    }
  }

  // ---- What an import creates -----------------------------------------------------------------------

  /** Every array of a plan, seen with the id maps the plan ends with. */
  lemma PlanArrays(env: Env, b: Bundle, setting: Setting, next: map<Kind, nat>, kind: Kind)
    requires Complete(next) && PlanImport(env, b, setting, next).Plan?
    ensures var plan := PlanImport(env, b, setting, next);
      var p := ImportKind(env, b, setting, next, plan.maps, kind);
      && Complete(plan.created) && p.Progress? && p.rows == plan.created[kind]
      && (Mapped(kind) ==> p.ids == IdsOf(plan.maps, kind))
      && (kind == Routes ==> p.unbound == plan.unbound)
  {
    hide ImportRows, Imported;
    var plan := PlanImport(env, b, setting, next);
    forall any: Kind ensures any in plan.created {
      match any case Destinations => case Connectors => case Sources => case Streams =>
      case Mappings => case Enrichments => case Checkpoints => case Routes =>
    }
    ImportRowsAt(env, kind, plan.maps, setting, Imported(b, setting, kind), next[kind]);
    match kind case Destinations => case Connectors => case Sources => case Streams =>
    case Mappings => case Enrichments => case Checkpoints => case Routes =>
  }

  /** A plan that came through, kind by kind: its maps cover the bundle, every entry made a row. */
  lemma PlanCovers(env: Env, stored: set<int>, b: Bundle, mode: Mode, setting: Setting, next: map<Kind, nat>,
      kind: Kind)
    requires Accepted(env, stored, b, mode) && setting.stored == stored && Complete(next)
    requires PlanImport(env, b, setting, next).Plan? && !PlanImport(env, b, setting, next).unbound
    ensures var plan := PlanImport(env, b, setting, next);
      && Covers(env, b, plan.maps, kind)
      && AllMade(env, kind, plan.maps, setting, Imported(b, setting, kind))
  {
    hide Accepted, Entries, ExportIds, AllUsable, ImportKind, AllMade, PlanImport;
    var plan := PlanImport(env, b, setting, next);
    forall target | Mapped(target)
      ensures ImportKind(env, b, setting, next, plan.maps, target).Progress?
      ensures ImportKind(env, b, setting, next, plan.maps, target).ids == IdsOf(plan.maps, target)
    {
      PlanArrays(env, b, setting, next, target);
    }
    Stage(env, stored, b, mode, setting, next, plan.maps, Destinations);
    Stage(env, stored, b, mode, setting, next, plan.maps, Connectors);
    Stage(env, stored, b, mode, setting, next, plan.maps, Sources);
    Stage(env, stored, b, mode, setting, next, plan.maps, Streams);
    PlanArrays(env, b, setting, next, kind);
    Stage(env, stored, b, mode, setting, next, plan.maps, kind);
  }

  /** A created row, apart from its references. */
  predicate RowOf(env: Env, kind: Kind, setting: Setting, e: Entry, id: int, row: Row)
    requires Usable(env, kind, e)
  {
    && row.id == id
    && row.refs.Keys == Refs(kind)
    && var oldId := if Mapped(kind) then IdOf(env, e).value else 0;
       row.cols == Suffixed(kind, ReadColumns(env, kind, e.fields, oldId), setting.suffix)
  }

  /** One row per entry, in the entries' order and with consecutive ids: nothing is skipped. */
  lemma OneRowPerEntry(env: Env, stored: set<int>, b: Bundle, mode: Mode, setting: Setting, next: map<Kind, nat>,
      kind: Kind)
    requires Accepted(env, stored, b, mode) && setting.stored == stored && Complete(next)
    requires PlanImport(env, b, setting, next).Plan? && !PlanImport(env, b, setting, next).unbound
    ensures var plan := PlanImport(env, b, setting, next);
      var entries := Imported(b, setting, kind);
      && kind in plan.created && |plan.created[kind]| == |entries|
      && forall i :: 0 <= i < |entries| ==>
           Usable(env, kind, entries[i]) && RowOf(env, kind, setting, entries[i], next[kind] + i, plan.created[kind][i])
  {
    hide Accepted, Entries, ExportIds, ImportRows, PlanImport, MakeRow, Readable, ReadColumns, Suffixed;
    var plan := PlanImport(env, b, setting, next);
    var entries := Imported(b, setting, kind);
    PlanArrays(env, b, setting, next, kind);
    PlanCovers(env, stored, b, mode, setting, next, kind);
    RowsOfMade(env, kind, plan.maps, setting, entries, next[kind]);
    forall i | 0 <= i < |entries|
      ensures Usable(env, kind, entries[i])
      ensures RowOf(env, kind, setting, entries[i], next[kind] + i, plan.created[kind][i])
    {
      MadeRow(env, stored, b, mode, setting, plan.maps, kind, entries[i], next[kind] + i, plan.created[kind][i]);
    }
  }

  lemma MadeRow(env: Env, stored: set<int>, b: Bundle, mode: Mode, setting: Setting, maps: IdMaps, kind: Kind, e: Entry,
      id: int, row: Row)
    requires Accepted(env, stored, b, mode) && e in Entries(b, kind) && setting.stored == stored
    requires Covers(env, b, maps, kind) && MakeRow(env, kind, maps, setting, e, id) == Made(row)
    ensures Usable(env, kind, e) && RowOf(env, kind, setting, e, id, row)
    ensures Bind(env, kind, maps, setting, e.fields) == Bound(row.refs)
  {
    hide Accepted, Entries, ExportIds, Bind, Readable, ReadColumns, Covers, Suffixed;
    Binds(env, stored, b, mode, setting, maps, kind, e);
  }

  lemma RowId(env: Env, kind: Kind, setting: Setting, e: Entry, id: int, row: Row)
    requires Usable(env, kind, e) && RowOf(env, kind, setting, e, id, row)
    ensures row.id == id
  {}

  predicate DistinctIds(env: Env, entries: seq<Entry>) {
    forall i, k :: 0 <= i < k < |entries| && IdOf(env, entries[i]).Some? ==>
        IdOf(env, entries[i]) != IdOf(env, entries[k])
  }

  /** Entry `i` of the bundle refers, by field `f`, to entry `k` of the array that `f` points to. */
  predicate RefersTo(env: Env, b: Bundle, kind: Kind, e: Entry, f: Field, k: nat)
    requires k < |Entries(b, Target(f))|
  {
    e.Object? && GetInt(env, e.fields, f).Some? && GetInt(env, e.fields, f) == IdOf(env, Entries(b, Target(f))[k])
  }

  /** The graph is carried over edge by edge: a created row points to a created row exactly when
      its entry pointed to that row's entry. Export ids are distinct within each array, and the
      database hands out ids beyond those in use. */
  lemma GraphIsomorphism(env: Env, stored: set<int>, b: Bundle, mode: Mode, setting: Setting, next: map<Kind, nat>,
                         kind: Kind, i: nat, f: Field, k: nat)
    requires Accepted(env, stored, b, mode) && setting.stored == stored && Complete(next)
    requires PlanImport(env, b, setting, next).Plan? && !PlanImport(env, b, setting, next).unbound
    requires forall target | Mapped(target) :: DistinctIds(env, Entries(b, target))
    requires forall id | id in stored :: id < next[Destinations]
    requires i < |Imported(b, setting, kind)| && f in Refs(kind) && k < |Entries(b, Target(f))|
    ensures var plan := PlanImport(env, b, setting, next);
      && kind in plan.created && i < |plan.created[kind]| && Target(f) in plan.created && k < |plan.created[Target(f)]|
      && f in plan.created[kind][i].refs
      && (plan.created[kind][i].refs[f] == plan.created[Target(f)][k].id
          <==> RefersTo(env, b, kind, Imported(b, setting, kind)[i], f, k))
  {
    hide Accepted, Entries, ExportIds, PlanImport, Usable, RowOf, DistinctIds, LastWithId, IdOf, ToInt;
    var plan := PlanImport(env, b, setting, next);
    var target := Target(f);
    OneRowPerEntry(env, stored, b, mode, setting, next, kind);
    OneRowPerEntry(env, stored, b, mode, setting, next, target);
    PlanIds(env, stored, b, mode, setting, next, target);
    PlanRef(env, stored, b, mode, setting, next, kind, i, f);
    RowId(env, target, setting, Entries(b, target)[k], next[target] + k, plan.created[target][k]);
    EdgeCarried(env, Entries(b, target), IdsOf(plan.maps, target), next[target],
                GetInt(env, Imported(b, setting, kind)[i].fields, f).value, plan.created[kind][i].refs[f], k);
  }

  lemma PlanIds(env: Env, stored: set<int>, b: Bundle, mode: Mode, setting: Setting, next: map<Kind, nat>, target: Kind)
    requires Accepted(env, stored, b, mode) && setting.stored == stored && Complete(next) && Mapped(target)
    requires PlanImport(env, b, setting, next).Plan? && !PlanImport(env, b, setting, next).unbound
    ensures var ids := IdsOf(PlanImport(env, b, setting, next).maps, target);
      && ids.Keys == ExportIds(env, Entries(b, target))
      && forall i: nat, n :: LastWithId(env, Entries(b, target), n, i) ==> n in ids && ids[n] == next[target] + i
  {
    hide Accepted, Entries, ExportIds, ImportRows, PlanImport, MakeRow, LastWithId, IdOf;
    var plan := PlanImport(env, b, setting, next);
    PlanArrays(env, b, setting, next, target);
    PlanCovers(env, stored, b, mode, setting, next, target);
    IdsOfMade(env, target, plan.maps, setting, Entries(b, target), next[target]);
  }

  /** A created reference is the remapped one, or in a clone the stored destination itself. */
  lemma PlanRef(env: Env, stored: set<int>, b: Bundle, mode: Mode, setting: Setting, next: map<Kind, nat>, kind: Kind,
      i: nat, f: Field)
    requires Accepted(env, stored, b, mode) && setting.stored == stored && Complete(next)
    requires PlanImport(env, b, setting, next).Plan? && !PlanImport(env, b, setting, next).unbound
    requires i < |Imported(b, setting, kind)| && f in Refs(kind)
    ensures var plan, e := PlanImport(env, b, setting, next), Imported(b, setting, kind)[i];
      && kind in plan.created && i < |plan.created[kind]| && f in plan.created[kind][i].refs
      && e.Object? && GetInt(env, e.fields, f).Some?
      && var n := GetInt(env, e.fields, f).value;
         if n in IdsOf(plan.maps, Target(f)) then plan.created[kind][i].refs[f] == IdsOf(plan.maps, Target(f))[n]
         else f == DestinationId && setting.clone && n in stored && plan.created[kind][i].refs[f] == n
  {
    hide Accepted, Entries, ImportRows, PlanImport, MakeRow, Bind, Readable, ReadColumns, Suffixed, Covers, ToInt, IdOf;
    var plan := PlanImport(env, b, setting, next);
    var e := Imported(b, setting, kind)[i];
    PlanArrays(env, b, setting, next, kind);
    PlanCovers(env, stored, b, mode, setting, next, kind);
    RowsOfMade(env, kind, plan.maps, setting, Imported(b, setting, kind), next[kind]);
    MadeRow(env, stored, b, mode, setting, plan.maps, kind, e, next[kind] + i, plan.created[kind][i]);
    BoundRef(env, kind, plan.maps, setting, e, plan.created[kind][i].refs, f);
  }

  /** A reference that went through an id map, or past it to a row that is older than the import. */
  lemma EdgeCarried(env: Env, entries: seq<Entry>, ids: map<int, int>, next: nat, n: int, ref: int, k: nat)
    requires DistinctIds(env, entries) && ids.Keys == ExportIds(env, entries) && k < |entries|
    requires forall i: nat :: LastWithId(env, entries, n, i) ==> n in ids && ids[n] == next + i
    requires if n in ids then ref == ids[n] else ref < next
    ensures ref == next + k <==> IdOf(env, entries[k]) == Some(n)
  {
    hide IdOf, ExportIds;
    if n in ids {
      var k0 := IdAt(env, entries, n);
      assert LastWithId(env, entries, n, k0);
    } else {
      NotAnId(env, entries, k, n);
    }
  }

  lemma BoundRef(env: Env, kind: Kind, maps: IdMaps, setting: Setting, e: Entry, refs: map<Field, int>, f: Field)
    requires e.Object? && f in Refs(kind) && f in refs && Bind(env, kind, maps, setting, e.fields) == Bound(refs)
    ensures GetInt(env, e.fields, f).Some?
    ensures var n := GetInt(env, e.fields, f).value;
      if n in IdsOf(maps, Target(f)) then refs[f] == IdsOf(maps, Target(f))[n]
      else f == DestinationId && setting.clone && n in setting.stored && refs[f] == n
  {
    hide ToInt;
  }

  lemma IdAt(env: Env, entries: seq<Entry>, n: int) returns (k: nat)
    requires DistinctIds(env, entries) && n in ExportIds(env, entries)
    ensures LastWithId(env, entries, n, k)
  {
    hide IdOf;
    var e :| e in entries && IdOf(env, e) == Some(n);
    k :| k < |entries| && entries[k] == e;
  }

  lemma NotAnId(env: Env, entries: seq<Entry>, k: nat, n: int)
    requires k < |entries| && n !in ExportIds(env, entries)
    ensures IdOf(env, entries[k]) != Some(n)
  {
    hide IdOf;
    assert entries[k] in entries;
  }
}
