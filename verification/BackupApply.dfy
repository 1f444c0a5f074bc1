/**
 Exactly when a confirmed import succeeds, unique constraints of the database included.
 */
module BackupApply {
  import opened Options
  import opened BackupStore
  import opened BackupValidator
  import opened BackupImport
  import opened BackupGraph
  import opened BackupService

  /** References lead to rows, whose ids are behind the sequence. */
  predicate RefsBehind(s: Database)
    requires Sound(s)
  {
    forall kind: Kind, row, f :: row in s.tables[kind] && f in row.refs ==> row.refs[f] < s.next[Target(f)]
  }

  /** The two entries refer to the same export ids. */
  predicate SameTargets(env: Env, kind: Kind, a: Entry, b: Entry) {
    a.Object? && b.Object? && forall f :: f in Refs(kind) ==> GetInt(env, a.fields, f) == GetInt(env, b.fields, f)
  }

  predicate AllApart(env: Env, kind: Kind, entries: seq<Entry>) {
    forall i, k :: 0 <= i < k < |entries| ==> !SameTargets(env, kind, entries[i], entries[k])
  }

  /** At most one mapping, enrichment and imported checkpoint per stream of the bundle, and one route
      per stream and destination. The validator checks nothing of this. */
  predicate Unrepeated(env: Env, b: Bundle, setting: Setting) {
    forall kind: Kind :: Constrained(kind) ==> AllApart(env, kind, Imported(b, setting, kind))
  }

  /** The import of `b` into `s` makes its plan without a failure. */
  ghost predicate Planned(env: Env, s: Database, b: Bundle, mode: Mode, setting: Setting)
    requires Sound(s)
  {
    && Accepted(env, setting.stored, b, mode) && setting.stored == StoredIds(s.tables)
    && PlanImport(env, b, setting, s.next).Plan? && !PlanImport(env, b, setting, s.next).unbound
  }

  // ---- Created references ---------------------------------------------------------------------------

  lemma {:induction false} LastIndex(env: Env, entries: seq<Entry>, n: int) returns (i: nat)
    requires n in ExportIds(env, entries)
    ensures LastWithId(env, entries, n, i)
    decreases |entries|
  {
    hide IdOf;
    var k := |entries| - 1;
    var e :| e in entries && IdOf(env, e) == Some(n);
    if IdOf(env, entries[k]) == Some(n) {
      i := k;
    } else {
      assert e in entries[..k];
      i := LastIndex(env, entries[..k], n);
    }
  }

  /** Different export ids never lead to the same row. */
  lemma RefsApart(env: Env, entries: seq<Entry>, ids: map<int, int>, next: nat, n: int, m: int, a: int, b: int)
    requires ids.Keys == ExportIds(env, entries)
    requires forall i: nat, id :: LastWithId(env, entries, id, i) ==> id in ids && ids[id] == next + i
    requires if n in ids then a == ids[n] else a == n < next
    requires if m in ids then b == ids[m] else b == m < next
    ensures a == b <==> n == m
  {
    hide IdOf, ExportIds, LastWithId;
    if n in ids {
      var i := LastIndex(env, entries, n);
      if m in ids && a == b {
        var k := LastIndex(env, entries, m);
        assert i == k;
        OneId(env, entries, n, m, i);
      }
    } else if m in ids {
      var k := LastIndex(env, entries, m);
    }
  }

  lemma OneId(env: Env, entries: seq<Entry>, n: int, m: int, i: nat)
    requires LastWithId(env, entries, n, i) && LastWithId(env, entries, m, i)
    ensures n == m
  {}

  lemma StoredBehind(s: Database, id: int)
    requires Sound(s) && id in StoredIds(s.tables)
    ensures id < s.next[Destinations]
  {}

  lemma MappedTarget(f: Field)
    ensures Mapped(Target(f))
  {}

  /** Two created rows point to the same row exactly when their entries pointed to the same id. */
  lemma SameRef(env: Env, s: Database, b: Bundle, mode: Mode, setting: Setting, kind: Kind, i: nat, k: nat, f: Field)
    requires Sound(s) && Planned(env, s, b, mode, setting)
    requires i < |Imported(b, setting, kind)| && k < |Imported(b, setting, kind)| && f in Refs(kind)
    ensures var rows, entries := PlanImport(env, b, setting, s.next).created, Imported(b, setting, kind);
      && kind in rows && i < |rows[kind]| && k < |rows[kind]| && f in rows[kind][i].refs && f in rows[kind][k].refs
      && entries[i].Object? && entries[k].Object?
      && (rows[kind][i].refs[f] == rows[kind][k].refs[f]
          <==> GetInt(env, entries[i].fields, f) == GetInt(env, entries[k].fields, f))
  {
    hide Accepted, Entries, PlanImport, Imported, ToInt, StoredIds, GetInt, ExportIds, LastWithId, Mapped;
    var entries := Imported(b, setting, kind);
    PlanRef(env, setting.stored, b, mode, setting, s.next, kind, i, f);
    PlanRef(env, setting.stored, b, mode, setting, s.next, kind, k, f);
    MappedTarget(f);
    PlanIds(env, setting.stored, b, mode, setting, s.next, Target(f));
    var ids, rows := IdsOf(PlanImport(env, b, setting, s.next).maps, Target(f)),
        PlanImport(env, b, setting, s.next).created[kind];
    var n, m := GetInt(env, entries[i].fields, f).value, GetInt(env, entries[k].fields, f).value;
    if n !in ids {
      StoredBehind(s, n);
    }
    if m !in ids {
      StoredBehind(s, m);
    }
    RefsApart(env, Entries(b, Target(f)), ids, s.next[Target(f)], n, m, rows[i].refs[f], rows[k].refs[f]);
  }

  lemma ClashExactly(env: Env, s: Database, b: Bundle, mode: Mode, setting: Setting, kind: Kind, i: nat, k: nat)
    requires Sound(s) && Planned(env, s, b, mode, setting) && Refs(kind) != {}
    requires i < |Imported(b, setting, kind)| && k < |Imported(b, setting, kind)|
    ensures var rows, entries := PlanImport(env, b, setting, s.next).created, Imported(b, setting, kind);
      && kind in rows && i < |rows[kind]| && k < |rows[kind]|
      && (Clash(kind, rows[kind][i], rows[kind][k]) <==> SameTargets(env, kind, entries[i], entries[k]))
  {
    hide Accepted, PlanImport, Imported, GetInt, Refs;
    var some :| some in Refs(kind);
    SameRef(env, s, b, mode, setting, kind, i, k, some);
    forall f | f in Refs(kind)
      ensures var rows, entries := PlanImport(env, b, setting, s.next).created[kind], Imported(b, setting, kind);
        && f in rows[i].refs && f in rows[k].refs
        && (rows[i].refs[f] == rows[k].refs[f] <==>
            GetInt(env, entries[i].fields, f) == GetInt(env, entries[k].fields, f))
    {
      SameRef(env, s, b, mode, setting, kind, i, k, f);
    }
  }

  /** Created rows belong to created streams. */
  lemma CreatedStream(env: Env, s: Database, b: Bundle, mode: Mode, setting: Setting, kind: Kind, i: nat)
    requires Sound(s) && Planned(env, s, b, mode, setting) && StreamId in Refs(kind) && i < |Imported(b, setting, kind)|
    ensures var rows := PlanImport(env, b, setting, s.next).created;
      kind in rows && i < |rows[kind]| && StreamId in rows[kind][i].refs
          && rows[kind][i].refs[StreamId] >= s.next[Streams]
  {
    hide Accepted, Entries, PlanImport, Imported, ToInt, StoredIds, GetInt, ExportIds, LastWithId;
    PlanRef(env, setting.stored, b, mode, setting, s.next, kind, i, StreamId);
    PlanIds(env, setting.stored, b, mode, setting, s.next, Streams);
    var n := GetInt(env, Imported(b, setting, kind)[i].fields, StreamId).value;
    var k := LastIndex(env, Entries(b, Streams), n);
  }

  lemma ConstrainedRefs(kind: Kind)
    requires Constrained(kind)
    ensures StreamId in Refs(kind) && Refs(kind) != {}
  {}

  /** One table: what is created clashes with nothing that was there, and with itself exactly when the
      bundle repeats itself. */
  lemma TableHolds(env: Env, s: Database, b: Bundle, mode: Mode, setting: Setting, kind: Kind)
    requires Sound(s) && RefsBehind(s) && NoClash(kind, s.tables[kind]) && Planned(env, s, b, mode, setting)
    requires Constrained(kind)
    ensures var created := PlanImport(env, b, setting, s.next).created;
      kind in created && (NoClash(kind, s.tables[kind] + created[kind]) <==>
          AllApart(env, kind, Imported(b, setting, kind)))
  {
    hide PlanImport, Imported, Refs, SameTargets, Constrained, Accepted, StoredIds, Usable, RowOf, Clash, RefsBehind;
    ConstrainedRefs(kind);
    OneRowPerEntry(env, setting.stored, b, mode, setting, s.next, kind);
    var before, made, entries := s.tables[kind], PlanImport(env, b, setting, s.next).created[kind],
        Imported(b, setting, kind);
    var all := before + made;
    forall i, k | 0 <= i < |before| <= k < |all| ensures !Clash(kind, all[i], all[k]) {
      CreatedStream(env, s, b, mode, setting, kind, k - |before|);
      assert before[i] in s.tables[kind];
      OldStream(s, kind, before[i]);
      DifferentStreams(kind, all[i], all[k], s.next[Streams]);
    }
    forall i, k | 0 <= i < |made| && 0 <= k < |made|
      ensures Clash(kind, all[|before| + i], all[|before| + k]) <==> SameTargets(env, kind, entries[i], entries[k])
    {
      ClashExactly(env, s, b, mode, setting, kind, i, k);
    }
    if AllApart(env, kind, entries) {
      forall i, k | 0 <= i < k < |all| ensures !Clash(kind, all[i], all[k]) {
        if i >= |before| {
          assert !SameTargets(env, kind, entries[i - |before|], entries[k - |before|]);
        } else if k < |before| {
          assert !Clash(kind, before[i], before[k]);
        }
      }
    }
    if NoClash(kind, all) {
      forall i, k | 0 <= i < k < |entries| ensures !SameTargets(env, kind, entries[i], entries[k]) {
        assert !Clash(kind, all[|before| + i], all[|before| + k]);
      }
    }
  }

  lemma OldStream(s: Database, kind: Kind, row: Row)
    requires Sound(s) && RefsBehind(s) && row in s.tables[kind]
    ensures StreamId in row.refs ==> row.refs[StreamId] < s.next[Streams]
  {
    assert Target(StreamId) == Streams;
  }

  lemma DifferentStreams(kind: Kind, a: Row, b: Row, next: int)
    requires StreamId in Refs(kind) && StreamId in b.refs && b.refs[StreamId] >= next
    requires StreamId in a.refs ==> a.refs[StreamId] < next
    ensures !Clash(kind, a, b)
  {}

  /** The database's constraints let a planned import pass exactly when the bundle does not repeat
      itself. */
  lemma ConstraintsExactly(env: Env, s: Database, b: Bundle, mode: Mode, setting: Setting)
    requires Sound(s) && RefsBehind(s) && ConstraintsHold(s.tables) && Planned(env, s, b, mode, setting)
    ensures ConstraintsHold(Extended(s.tables, PlanImport(env, b, setting, s.next).created)) <==>
        Unrepeated(env, b, setting)
  {
    hide PlanImport, Accepted, Imported, Constrained, NoClash, AllApart, RefsBehind;
    var created := PlanImport(env, b, setting, s.next).created;
    var after := Extended(s.tables, created);
    forall kind: Kind | Constrained(kind)
      ensures kind in created && after[kind] == s.tables[kind] + created[kind]
      ensures NoClash(kind, after[kind]) <==> AllApart(env, kind, Imported(b, setting, kind))
    {
      TableHolds(env, s, b, mode, setting, kind);
    }
  }

  // ---- The call -------------------------------------------------------------------------------------

  /** Everything that `apply_import` checks before it imports. */
  ghost predicate Confirmed(env: Env, s: Database, q: Request)
    requires Sound(s)
  {
    var mode, key := ParseMode(q.mode), NormalizeKey(q.key);
    && (mode == Additive || mode == Clone)
    && !key.BadKey? && !(key.UseKey? && FindCompleted(s.operations, key.key).Some?)
    && Accepted(env, StoredIds(s.tables), q.bundle, mode)
    && q.token == Some(Token(q.bundle, mode)) && q.confirm
  }

  lemma ConfirmedImports(env: Env, s: Database, q: Request, a: Answer, s2: Database)
    requires Sound(s) && Sound(s2) && Confirmed(env, s, q) && Apply(env, s, q, a, s2)
    ensures Imports(env, s, q, NormalizeKey(q.key), a, s2)
  {
    hide PlanImport, ConstraintsHold, ParseMode, NormalizeKey, FindCompleted, Imports, Faulty, HeaderFault, Raises;
  }

  /** A bundle that the validator accepts, once confirmed, is imported exactly when every source has an
      id, every column can be read, every route's destination is in the bundle or, in a clone, in the
      database, and the bundle does not repeat itself. */
  lemma AppliesExactly(env: Env, s: Database, q: Request, a: Answer, s2: Database)
    requires Sound(s) && RefsBehind(s) && ConstraintsHold(s.tables) && Sound(s2)
    requires Confirmed(env, s, q) && Apply(env, s, q, a, s2)
    ensures var setting := SettingOf(q, s.tables);
      var usable := forall kind :: AllUsable(env, q.bundle, setting, kind);
      && (a.Done? <==> usable && Unrepeated(env, q.bundle, setting))
      && (a == DuplicateRows <==> usable && !Unrepeated(env, q.bundle, setting))
  {
    hide PlanImport, ConstraintsHold, Extended, AllUsable, Unrepeated, RefsBehind, Apply, ResponseTo, NormalizeKey,
      FindCompleted, Accepted, StoredIds, ParseMode;
    var setting, mode := SettingOf(q, s.tables), ParseMode(q.mode);
    ConfirmedImports(env, s, q, a, s2);
    SucceedsExactly(env, setting.stored, q.bundle, mode, setting, s.next);
    var plan := PlanImport(env, q.bundle, setting, s.next);
    if plan.Plan? && !plan.unbound {
      ConstraintsExactly(env, s, q.bundle, mode, setting);
    }
  }

  // ---- What the validator lets pass -----------------------------------------------------------------

  /** The bundle with one of its mappings a second time. */
  function WithRepeat(b: Bundle, e: Entry): Bundle {
    b.(mappings := Rows(Entries(b, Mappings) + [e]))
  }

  /** Repeating a mapping makes no bundle less acceptable, and none that repeats one is ever imported. */
  lemma RepeatAccepted(env: Env, stored: set<int>, b: Bundle, mode: Mode, setting: Setting, e: Entry)
    requires Accepted(env, stored, b, mode) && e in Entries(b, Mappings)
    ensures Accepted(env, stored, WithRepeat(b, e), mode) && !Unrepeated(env, WithRepeat(b, e), setting)
  {
    hide EntryFine, SourceIdRaises, RepeatsName, KnownIds, StreamRefs, ExportIds, Faulty, Raises, SameTargets;
    var b2 := WithRepeat(b, e);
    AcceptedExactly(env, stored, b, mode);
    AcceptedExactly(env, stored, b2, mode);
    forall kind: Kind | kind != Mappings
      ensures SectionOf(b2, kind) == SectionOf(b, kind) && Entries(b2, kind) == Entries(b, kind)
    {}
    assert Entries(b2, Mappings) == Entries(b, Mappings) + [e];
    assert KnownIds(env, stored, b2) == KnownIds(env, stored, b) by { KnowsTheSame(env, stored, b, e); }
    assert StreamRefs(env, Entries(b2, Mappings)) == StreamRefs(env, Entries(b, Mappings))
      by { RefersToTheSame(env, b, e); }
    HeaderIsTheSame(env, b, mode, e);
    assert WellFormed(env, stored, b2, mode);
    var i :| 0 <= i < |Entries(b, Mappings)| && Entries(b, Mappings)[i] == e;
    var n := |Entries(b, Mappings)|;
    assert EntryFine(env, KnownIds(env, stored, b), Mappings, e);
    IsObject(env, KnownIds(env, stored, b), Mappings, e);
    assert SameTargets(env, Mappings, Entries(b2, Mappings)[i], Entries(b2, Mappings)[n])
      by { AlwaysSame(env, Mappings, e); }
    assert Imported(b2, setting, Mappings) == Entries(b2, Mappings);
    assert Constrained(Mappings) && !AllApart(env, Mappings, Imported(b2, setting, Mappings));
  }

  lemma IsObject(env: Env, known: Known, kind: Kind, e: Entry)
    requires EntryFine(env, known, kind, e)
    ensures e.Object?
  {}

  lemma AlwaysSame(env: Env, kind: Kind, e: Entry)
    requires e.Object?
    ensures SameTargets(env, kind, e, e)
  {}

  lemma KnowsTheSame(env: Env, stored: set<int>, b: Bundle, e: Entry)
    ensures KnownIds(env, stored, WithRepeat(b, e)) == KnownIds(env, stored, b)
  {}

  lemma RefersToTheSame(env: Env, b: Bundle, e: Entry)
    requires e in Entries(b, Mappings)
    ensures StreamRefs(env, Entries(WithRepeat(b, e), Mappings)) == StreamRefs(env, Entries(b, Mappings))
  {
    var entries := Entries(b, Mappings);
    assert forall x :: x in entries + [e] <==> x in entries;
  }

  lemma HeaderIsTheSame(env: Env, b: Bundle, mode: Mode, e: Entry)
    ensures HeaderFault(WithRepeat(b, e), mode) == HeaderFault(b, mode)
    ensures SourceIdRaises(env, WithRepeat(b, e)) == SourceIdRaises(env, b)
  {}
}
