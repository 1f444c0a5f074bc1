/**
 What an import makes of a bundle: row by row, array by array, with the old-to-new id maps that
 carry references across.
 */
module BackupImport {
  import opened Options
  import opened BackupJson
  import opened BackupStore
  import opened BackupValidator

  datatype IdMaps = IdMaps(
    connectors: map<int, int>,
    sources: map<int, int>,
    streams: map<int, int>,
    destinations: map<int, int>)

  const NoIds := IdMaps(map[], map[], map[], map[])

  /** The kinds whose export ids are remembered. */
  predicate Mapped(kind: Kind) {
    kind == Connectors || kind == Sources || kind == Streams || kind == Destinations
  }

  function IdsOf(maps: IdMaps, kind: Kind): map<int, int> {
    match kind
    case Connectors => maps.connectors
    case Sources => maps.sources
    case Streams => maps.streams
    case Destinations => maps.destinations
    case _ => map[]
  }

  /** What an apply call fixes beforehand: the mode, the destinations in the database, the suffix
      of cloned names. */
  datatype Setting = Setting(clone: bool, stored: set<int>, suffix: string)

  // ---- References -----------------------------------------------------------------------------------

  datatype Binding = BindingRaises | Skip | Unresolved | Bound(refs: map<Field, int>)

  /** The row a reference field points into. */
  function Target(f: Field): Kind {
    match f
    case ConnectorId => Connectors
    case SourceId => Sources
    case StreamId => Streams
    case _ => Destinations
  }

  /** The reference fields of a kind. */
  function Refs(kind: Kind): set<Field> {
    match kind
    case Connectors => {}
    case Destinations => {}
    case Sources => {ConnectorId}
    case Streams => {ConnectorId, SourceId}
    case Routes => {StreamId, DestinationId}
    case _ => {StreamId}
  }

  function BindOne(env: Env, maps: IdMaps, fields: map<Field, JSON>, f: Field): Binding {
    match GetInt(env, fields, f)
    case None => BindingRaises
    case Some(n) => if n in IdsOf(maps, Target(f)) then Bound(map[f := IdsOf(maps, Target(f))[n]]) else Skip
  }

  /** The new references of an entry. A cloned route falls back on a destination of this database;
      any other route whose destination was not imported is unresolved. */
  function Bind(env: Env, kind: Kind, maps: IdMaps, setting: Setting, fields: map<Field, JSON>): Binding {
    match kind
    case Connectors => Bound(map[])
    case Destinations => Bound(map[])
    case Sources => BindOne(env, maps, fields, ConnectorId)
    case Streams =>
      (match (GetInt(env, fields, ConnectorId), GetInt(env, fields, SourceId))
       case (Some(cid), Some(sid)) =>
         if cid in maps.connectors && sid in maps.sources
         then Bound(map[ConnectorId := maps.connectors[cid], SourceId := maps.sources[sid]]) else Skip
       case _ => BindingRaises)
    case Routes =>
      (match BindOne(env, maps, fields, StreamId)
       case Bound(refs) =>
         (match GetInt(env, fields, DestinationId)
          case None => BindingRaises
          case Some(did) =>
            if did in maps.destinations then Bound(refs[DestinationId := maps.destinations[did]])
            else if setting.clone && did in setting.stored then Bound(refs[DestinationId := did])
            else Unresolved)
       case other => other)
    case _ => BindOne(env, maps, fields, StreamId)
  }

  // ---- One row --------------------------------------------------------------------------------------

  datatype Made = MakingRaises | Skipped | Unbound | Made(row: Row)

  /** Cloned connectors and streams get the suffix on their names. */
  function Suffixed(kind: Kind, cols: map<Field, JSON>, suffix: string): map<Field, JSON> {
    if (kind == Connectors || kind == Streams) && Name in cols && cols[Name].Str?
    then cols[Name := Str(cols[Name].text + suffix)] else cols
  }

  function MakeRow(env: Env, kind: Kind, maps: IdMaps, setting: Setting, e: Entry, id: int): (made: Made)
    ensures made.Made? ==> made.row.id == id && (Mapped(kind) ==> IdOf(env, e).Some?)
  {
    if e.Junk? then Skipped
    else if Mapped(kind) && IdOf(env, e).None? then MakingRaises
    else
      var oldId := if Mapped(kind) then IdOf(env, e).value else 0;
      match Bind(env, kind, maps, setting, e.fields)
      case BindingRaises => MakingRaises
      case Skip => Skipped
      case Unresolved => Unbound
      case Bound(refs) =>
        if !Readable(env, kind, e.fields, oldId) then MakingRaises
        else Made(Row(id, refs, Suffixed(kind, ReadColumns(env, kind, e.fields, oldId), setting.suffix)))
  }

  // ---- One array ------------------------------------------------------------------------------------

  /** The rows made so far, the ids of their export counterparts, and whether a route was left
      unresolved. */
  datatype Progress = Failed | Progress(rows: seq<Row>, ids: map<int, int>, unbound: bool)

  /** One more entry, from which `made` was made. */
  function Absorb(env: Env, kind: Kind, rows: seq<Row>, ids: map<int, int>, unbound: bool, e: Entry,
      made: Made): Progress
    requires made.Made? && Mapped(kind) ==> IdOf(env, e).Some?
  {
    match made
    case MakingRaises => Failed
    case Skipped => Progress(rows, ids, unbound)
    case Unbound => Progress(rows, ids, true)
    case Made(row) => Progress(rows + [row], if Mapped(kind) then ids[IdOf(env, e).value := row.id] else ids, unbound)
  }

  function ImportRows(env: Env, kind: Kind, maps: IdMaps, setting: Setting, entries: seq<Entry>, next: nat): Progress {
    if entries == [] then Progress([], map[], false)
    else
      match ImportRows(env, kind, maps, setting, entries[..|entries| - 1], next)
      case Failed => Failed
      case Progress(rows, ids, unbound) =>
        var e := entries[|entries| - 1];
        Absorb(env, kind, rows, ids, unbound, e, MakeRow(env, kind, maps, setting, e, next + |rows|))
  }

  lemma RowsStep(env: Env, kind: Kind, maps: IdMaps, setting: Setting, entries: seq<Entry>, next: nat, i: nat)
    requires i < |entries|
    ensures var before := ImportRows(env, kind, maps, setting, entries[..i], next);
      ImportRows(env, kind, maps, setting, entries[..i + 1], next) ==
        if before.Failed? then Failed
        else Absorb(env, kind, before.rows, before.ids, before.unbound, entries[i],
                    MakeRow(env, kind, maps, setting, entries[i], next + |before.rows|))
  {
    hide MakeRow, Absorb;
    assert entries[..i + 1][..i] == entries[..i];
  }

  /** The loop over one array of the bundle. */
  method ImportArray(env: Env, kind: Kind, maps: IdMaps, setting: Setting, entries: seq<Entry>, next: nat)
    returns (p: Progress)
    ensures p == ImportRows(env, kind, maps, setting, entries, next)
  {
    hide MakeRow, ImportRows, IdOf, Mapped;
    var rows: seq<Row>, ids: map<int, int>, unbound := [], map[], false;
    NoRows(env, kind, maps, setting, entries, next);
    for i := 0 to |entries|
      invariant ImportRows(env, kind, maps, setting, entries[..i], next) == Progress(rows, ids, unbound)
    {
      RowsStep(env, kind, maps, setting, entries, next, i);
      var e := entries[i];
      match MakeRow(env, kind, maps, setting, e, next + |rows|) {
        case MakingRaises =>
          StaysFailed(env, kind, maps, setting, entries, next, i + 1);
          return Failed;
        case Skipped =>
        case Unbound =>
          unbound := true;
        case Made(row) =>
          rows := rows + [row];
          if Mapped(kind) {
            ids := ids[IdOf(env, e).value := row.id];
          }
      }
    }
    assert entries[..|entries|] == entries;
    p := Progress(rows, ids, unbound);
  }

  lemma NoRows(env: Env, kind: Kind, maps: IdMaps, setting: Setting, entries: seq<Entry>, next: nat)
    ensures ImportRows(env, kind, maps, setting, entries[..0], next) == Progress([], map[], false)
  {}

  lemma {:induction false} StaysFailed(env: Env, kind: Kind, maps: IdMaps, setting: Setting, entries: seq<Entry>,
      next: nat, n: nat)
    requires n <= |entries| && ImportRows(env, kind, maps, setting, entries[..n], next).Failed?
    ensures ImportRows(env, kind, maps, setting, entries, next).Failed?
    decreases |entries|
  {
    hide MakeRow;
    if n == |entries| {
      assert entries[..n] == entries;
    } else {
      var shorter := entries[..|entries| - 1];
      assert shorter[..n] == entries[..n];
      StaysFailed(env, kind, maps, setting, shorter, next, n);
    }
  }

  // ---- The whole bundle -----------------------------------------------------------------------------

  /** What an import creates, the id maps it ends with, and whether some route stayed unresolved. */
  datatype Plan = PlanRaises | Plan(created: map<Kind, seq<Row>>, maps: IdMaps, unbound: bool)

  predicate Complete<T>(m: map<Kind, T>) {
    forall kind: Kind :: kind in m
  }

  /** A cloned stream starts without the checkpoint of the original. */
  function Imported(b: Bundle, setting: Setting, kind: Kind): seq<Entry> {
    if setting.clone && kind == Checkpoints then [] else Entries(b, kind)
  }

  /** The id maps at the time a kind is imported. */
  function MapsAt(maps: IdMaps, kind: Kind): IdMaps {
    match kind
    case Destinations => NoIds
    case Connectors => NoIds.(destinations := maps.destinations)
    case Sources => NoIds.(destinations := maps.destinations, connectors := maps.connectors)
    case Streams => maps.(streams := map[])
    case _ => maps
  }

  function ImportKind(env: Env, b: Bundle, setting: Setting, next: map<Kind, nat>, maps: IdMaps, kind: Kind): Progress
    requires Complete(next)
  {
    ImportRows(env, kind, maps, setting, Imported(b, setting, kind), next[kind])
  }

  function PlanImport(env: Env, b: Bundle, setting: Setting, next: map<Kind, nat>): Plan
    requires Complete(next)
  {
    var d := ImportKind(env, b, setting, next, NoIds, Destinations);
    if d.Failed? then PlanRaises else
    var m1 := NoIds.(destinations := d.ids);
    var c := ImportKind(env, b, setting, next, m1, Connectors);
    if c.Failed? then PlanRaises else
    var m2 := m1.(connectors := c.ids);
    var s := ImportKind(env, b, setting, next, m2, Sources);
    if s.Failed? then PlanRaises else
    var m3 := m2.(sources := s.ids);
    var st := ImportKind(env, b, setting, next, m3, Streams);
    if st.Failed? then PlanRaises else
    var maps := m3.(streams := st.ids);
    var m := ImportKind(env, b, setting, next, maps, Mappings);
    var e := ImportKind(env, b, setting, next, maps, Enrichments);
    var cp := ImportKind(env, b, setting, next, maps, Checkpoints);
    var r := ImportKind(env, b, setting, next, maps, Routes);
    if m.Failed? || e.Failed? || cp.Failed? || r.Failed? then PlanRaises else
    Plan(map[Destinations := d.rows, Connectors := c.rows, Sources := s.rows, Streams := st.rows,
             Mappings := m.rows, Enrichments := e.rows, Checkpoints := cp.rows, Routes := r.rows],
         maps, r.unbound)
  }

  // ---- What the arrays have in common ---------------------------------------------------------------

  /** Only the id maps a kind refers to matter to it. */
  lemma MakeRowAt(env: Env, kind: Kind, maps: IdMaps, setting: Setting, e: Entry, id: int)
    ensures MakeRow(env, kind, MapsAt(maps, kind), setting, e, id) == MakeRow(env, kind, maps, setting, e, id)
  {
    hide Readable, ReadColumns;
  }

  lemma {:induction false} ImportRowsAt(env: Env, kind: Kind, maps: IdMaps, setting: Setting, entries: seq<Entry>,
      next: nat)
    ensures ImportRows(env, kind, MapsAt(maps, kind), setting, entries, next)
            == ImportRows(env, kind, maps, setting, entries, next)
    decreases |entries|
  {
    hide MakeRow, MapsAt, Absorb, IdOf;
    if entries != [] {
      var shorter := entries[..|entries| - 1];
      ImportRowsAt(env, kind, maps, setting, shorter, next);
      var p := ImportRows(env, kind, maps, setting, shorter, next);
      if p.Progress? {
        MakeRowAt(env, kind, maps, setting, entries[|entries| - 1], next + |p.rows|);
      }
    }
  }

  /** The outcome of an entry does not depend on the id its row would get. */
  lemma OutcomeOf(env: Env, kind: Kind, maps: IdMaps, setting: Setting, e: Entry, id: int)
    ensures var a, b := MakeRow(env, kind, maps, setting, e, id), MakeRow(env, kind, maps, setting, e, 0);
      && (a.MakingRaises? <==> b.MakingRaises?) && (a.Unbound? <==> b.Unbound?)
      && (a.Made? <==> b.Made?) && (a.Made? ==> a.row == b.row.(id := id))
  {
    hide Readable, ReadColumns, Bind, Suffixed;
  }

  /** An array fails when one of its entries does, and leaves a route unresolved when one is. */
  lemma {:induction false} ArrayOutcome(env: Env, kind: Kind, maps: IdMaps, setting: Setting, entries: seq<Entry>,
      next: nat)
    ensures var p := ImportRows(env, kind, maps, setting, entries, next);
      && (p.Failed? <==> exists e :: e in entries && MakeRow(env, kind, maps, setting, e, 0).MakingRaises?)
      && (p.Progress? ==> (p.unbound <==> exists e :: e in entries && MakeRow(env, kind, maps, setting, e, 0).Unbound?))
    decreases |entries|
  {
    hide MakeRow;
    if entries != [] {
      var shorter, last := entries[..|entries| - 1], entries[|entries| - 1];
      assert entries == shorter + [last];
      ArrayOutcome(env, kind, maps, setting, shorter, next);
      var p := ImportRows(env, kind, maps, setting, shorter, next);
      if p.Progress? {
        OutcomeOf(env, kind, maps, setting, last, next + |p.rows|);
      }
    }
  }

  predicate AllMade(env: Env, kind: Kind, maps: IdMaps, setting: Setting, entries: seq<Entry>) {
    forall e :: e in entries ==> MakeRow(env, kind, maps, setting, e, 0).Made?
  }

  /** Index `i` is the last with the export id `n`. */
  ghost predicate LastWithId(env: Env, entries: seq<Entry>, n: int, i: nat) {
    && i < |entries| && IdOf(env, entries[i]) == Some(n)
    && forall k :: i < k < |entries| ==> IdOf(env, entries[k]) != Some(n)
  }

  /** When every entry makes a row, the rows follow the entries and get consecutive ids ... */
  lemma {:induction false} RowsOfMade(env: Env, kind: Kind, maps: IdMaps, setting: Setting, entries: seq<Entry>,
      next: nat)
    requires AllMade(env, kind, maps, setting, entries)
    ensures var p := ImportRows(env, kind, maps, setting, entries, next);
      && p.Progress? && !p.unbound && |p.rows| == |entries|
      && forall i :: 0 <= i < |entries| ==> MakeRow(env, kind, maps, setting, entries[i], next + i) == Made(p.rows[i])
    decreases |entries|
  {
    hide MakeRow, IdOf, Mapped;
    if entries != [] {
      var shorter, last := entries[..|entries| - 1], entries[|entries| - 1];
      RowsOfMade(env, kind, maps, setting, shorter, next);
      OutcomeOf(env, kind, maps, setting, last, next + |shorter|);
      assert last in entries;
    }
  }

  /** ... and the id map leads from each export id to the row of its last entry. */
  lemma {:induction false} IdsOfMade(env: Env, kind: Kind, maps: IdMaps, setting: Setting, entries: seq<Entry>,
      next: nat)
    requires AllMade(env, kind, maps, setting, entries) && Mapped(kind)
    ensures var p := ImportRows(env, kind, maps, setting, entries, next);
      && p.Progress? && p.ids.Keys == ExportIds(env, entries)
      && forall i: nat, n :: LastWithId(env, entries, n, i) ==> n in p.ids && p.ids[n] == next + i
    decreases |entries|
  {
    hide MakeRow, IdOf, Mapped, ImportRows, ExportIds, LastWithId, AllMade;
    RowsOfMade(env, kind, maps, setting, entries, next);
    if entries == [] {
      NoRows(env, kind, maps, setting, entries, next);
      assert entries[..0] == entries;
      NoIdsExported(env);
    } else {
      var n := |entries| - 1;
      var shorter, last := entries[..n], entries[n];
      assert entries == shorter + [last] && entries[..n + 1] == entries;
      FewerMade(env, kind, maps, setting, entries, n);
      IdsOfMade(env, kind, maps, setting, shorter, next);
      RowsOfMade(env, kind, maps, setting, shorter, next);
      RowsStep(env, kind, maps, setting, entries, next, n);
      ExportIdsStep(env, shorter, last);
      LastIdStep(env, shorter, last);
    }
  }

  lemma NoIdsExported(env: Env)
    ensures ExportIds(env, []) == {} && forall n, i: nat :: !LastWithId(env, [], n, i)
  {}

  lemma FewerMade(env: Env, kind: Kind, maps: IdMaps, setting: Setting, entries: seq<Entry>, n: nat)
    requires AllMade(env, kind, maps, setting, entries) && n <= |entries|
    ensures AllMade(env, kind, maps, setting, entries[..n])
  {}

  lemma LastIdStep(env: Env, shorter: seq<Entry>, last: Entry)
    ensures forall n, i: nat :: LastWithId(env, shorter + [last], n, i) <==>
              if IdOf(env, last) == Some(n) then i == |shorter| else LastWithId(env, shorter, n, i)
  {
    hide IdOf;
    var entries := shorter + [last];
    forall n, i: nat
      ensures LastWithId(env, entries, n, i) <==>
                if IdOf(env, last) == Some(n) then i == |shorter| else LastWithId(env, shorter, n, i)
    {
      assert entries[|shorter|] == last;
      assert forall k :: 0 <= k < |shorter| ==> entries[k] == shorter[k];
    }
  }

  lemma ExportIdsStep(env: Env, entries: seq<Entry>, e: Entry)
    ensures ExportIds(env, entries + [e])
            == ExportIds(env, entries) + if IdOf(env, e).Some? then {IdOf(env, e).value} else {}
  {
    hide IdOf;
    var all := entries + [e];
    assert forall x :: x in all <==> x in entries || x == e;
    if IdOf(env, e).Some? {
      assert e in all;
    }
  }
}
