/**
 The rules of import in plain terms: what a bundle that the validator accepts is like, what may not
 repeat in the database after an import, and which names count as secret.
 */
module BackupRules {
  import opened Options
  import opened Strings
  import opened BackupJson
  import opened BackupStore
  import opened BackupValidator
  import opened BackupImport
  import opened BackupGraph
  import opened BackupService
  import opened BackupRuns

  // ---- Accepted bundles ---------------------------------------------------------------------------------

  /** By field `f`, the entry names the id of an entry among `others`. */
  ghost predicate NamesOneOf(env: Env, e: Entry, f: Field, others: seq<Entry>) {
    e.Object? && GetInt(env, e.fields, f).Some? &&
    exists o :: o in others && IdOf(env, o) == GetInt(env, e.fields, f)
  }

  /** The two entries have ids and the same name but for blanks around it, which is not blank. */
  predicate SameName(env: Env, a: Entry, b: Entry) {
    && HasId(a) && HasId(b)
    && Trim(StrOr(env, Get(a.fields, Name), "")) == Trim(StrOr(env, Get(b.fields, Name), "")) != ""
  }

  predicate SameConnector(env: Env, a: Entry, b: Entry) {
    a.Object? && b.Object? && GetInt(env, a.fields, ConnectorId).Some?
    && GetInt(env, a.fields, ConnectorId) == GetInt(env, b.fields, ConnectorId)
  }

  /** A bundle that is accepted has a supported mode and version and some connector; its sources and
      streams are those of its connectors, its streams have sources, what hangs on a stream hangs on one of
      its streams; its routes lead to its destinations or stored ones; names do not repeat; and beside every
      route that names its stream there is a mapping of that stream. */
  lemma AcceptedMeans(env: Env, stored: set<int>, b: Bundle, mode: Mode)
    requires Accepted(env, stored, b, mode)
    ensures mode == Additive || mode == Clone
    ensures b.version == Num(1) || b.version == Num(2) || b.version == Bool(true)
    ensures b.connectors.Rows? && b.connectors.entries != []
    ensures forall e :: e in Entries(b, Sources) ==> NamesOneOf(env, e, ConnectorId, Entries(b, Connectors))
    ensures forall e :: e in Entries(b, Streams) ==>
      NamesOneOf(env, e, ConnectorId, Entries(b, Connectors)) && NamesOneOf(env, e, SourceId, Entries(b, Sources))
    ensures forall kind, e ::
      e in Entries(b, kind) && (kind == Mappings || kind == Enrichments || kind == Checkpoints || kind == Routes) ==>
        NamesOneOf(env, e, StreamId, Entries(b, Streams))
    ensures forall e :: e in Entries(b, Routes) ==>
      || NamesOneOf(env, e, DestinationId, Entries(b, Destinations))
      || (e.Object? && In(GetInt(env, e.fields, DestinationId), stored))
    ensures forall i, k :: 0 <= i < k < |Entries(b, Connectors)| ==>
      !SameName(env, Entries(b, Connectors)[i], Entries(b, Connectors)[k])
    ensures forall i, k :: 0 <= i < k < |Entries(b, Streams)| ==>
      var e, o := Entries(b, Streams)[i], Entries(b, Streams)[k];
      !(SameName(env, e, o) && SameConnector(env, e, o))
    ensures forall r :: r in Entries(b, Routes) && r.Object? && StreamId in r.fields ==>
      exists m :: m in Entries(b, Mappings) && SameStream(env, r, m)
  {
    hide Entries, ExportIds, EntryFine, RepeatsName, Linked, Trim, Accepted, KnownIds, SameName, SameStream;
    AcceptedExactly(env, stored, b, mode);
    forall kind, e | e in Entries(b, kind)
      ensures kind == Sources ==> NamesOneOf(env, e, ConnectorId, Entries(b, Connectors))
      ensures kind == Streams ==>
        NamesOneOf(env, e, ConnectorId, Entries(b, Connectors)) && NamesOneOf(env, e, SourceId, Entries(b, Sources))
      ensures kind == Mappings || kind == Enrichments || kind == Checkpoints || kind == Routes ==>
        NamesOneOf(env, e, StreamId, Entries(b, Streams))
      ensures kind == Routes ==>
        || NamesOneOf(env, e, DestinationId, Entries(b, Destinations))
        || (e.Object? && In(GetInt(env, e.fields, DestinationId), stored))
    {
      FineRefers(env, stored, b, kind, e);
    }
    NamesApart(env, b);
    RoutesHaveMappings(env, stored, b);
  }

  lemma FineRefers(env: Env, stored: set<int>, b: Bundle, kind: Kind, e: Entry)
    requires EntryFine(env, KnownIds(env, stored, b), kind, e)
    ensures kind == Sources ==> NamesOneOf(env, e, ConnectorId, Entries(b, Connectors))
    ensures kind == Streams ==>
      NamesOneOf(env, e, ConnectorId, Entries(b, Connectors)) && NamesOneOf(env, e, SourceId, Entries(b, Sources))
    ensures kind == Mappings || kind == Enrichments || kind == Checkpoints || kind == Routes ==>
      NamesOneOf(env, e, StreamId, Entries(b, Streams))
    ensures kind == Routes ==>
      || NamesOneOf(env, e, DestinationId, Entries(b, Destinations))
      || (e.Object? && In(GetInt(env, e.fields, DestinationId), stored))
  {
    hide Entries, IdOf, GetInt, SourceSupported, DestinationSupported, PolicySupported;
    assert forall f :: f in Refs(kind) ==> In(GetInt(env, e.fields, f), KnownTo(KnownIds(env, stored, b), f));
    match kind
    case Sources => assert ConnectorId in Refs(kind);
    case Streams => assert ConnectorId in Refs(kind) && SourceId in Refs(kind);
    case Routes => assert StreamId in Refs(kind) && DestinationId in Refs(kind);
    case Connectors =>
    case Destinations =>
    case _ => assert StreamId in Refs(kind);
  }

  lemma NamesApart(env: Env, b: Bundle)
    requires !RepeatsName(env, Connectors, Entries(b, Connectors)) && !RepeatsName(env, Streams, Entries(b, Streams))
    requires forall e :: e in Entries(b, Streams) ==> e.Object? && GetInt(env, e.fields, ConnectorId).Some?
    ensures forall i, k :: 0 <= i < k < |Entries(b, Connectors)| ==>
      !SameName(env, Entries(b, Connectors)[i], Entries(b, Connectors)[k])
    ensures forall i, k :: 0 <= i < k < |Entries(b, Streams)| ==>
      var e, o := Entries(b, Streams)[i], Entries(b, Streams)[k];
      !(SameName(env, e, o) && SameConnector(env, e, o))
  {
    hide Entries, NameKey, GetInt, Trim, StrOr;
    forall e, o | SameName(env, e, o)
      ensures NameKey(env, Connectors, e).Some? && NameKey(env, Connectors, e) == NameKey(env, Connectors, o)
      ensures SameConnector(env, e, o) ==>
        NameKey(env, Streams, e).Some? && NameKey(env, Streams, e) == NameKey(env, Streams, o)
    {
      SameNameSameKey(env, e, o);
    }
  }

  lemma SameNameSameKey(env: Env, a: Entry, b: Entry)
    requires SameName(env, a, b)
    ensures NameKey(env, Connectors, a).Some? && NameKey(env, Connectors, a) == NameKey(env, Connectors, b)
    ensures SameConnector(env, a, b) ==>
      NameKey(env, Streams, a).Some? && NameKey(env, Streams, a) == NameKey(env, Streams, b)
  {
    hide Trim, GetInt, StrOr;
  }

  /** The two entries name the same stream. */
  predicate SameStream(env: Env, a: Entry, b: Entry) {
    a.Object? && b.Object? && GetInt(env, a.fields, StreamId).Some?
    && GetInt(env, a.fields, StreamId) == GetInt(env, b.fields, StreamId)
  }

  lemma RefersToStream(env: Env, entries: seq<Entry>, e: Entry)
    requires e in entries && e.Object? && StreamId in e.fields && GetInt(env, e.fields, StreamId).Some?
    ensures GetInt(env, e.fields, StreamId).value in StreamRefs(env, entries)
  {}

  lemma RoutesHaveMappings(env: Env, stored: set<int>, b: Bundle)
    requires Linked(env, b)
    requires forall e :: e in Entries(b, Routes) ==> NamesOneOf(env, e, StreamId, Entries(b, Streams))
    ensures forall r :: r in Entries(b, Routes) && r.Object? && StreamId in r.fields ==>
      exists m :: m in Entries(b, Mappings) && SameStream(env, r, m)
  {
    hide Entries, IdOf;
    var mappings := Entries(b, Mappings);
    forall r | r in Entries(b, Routes) && r.Object? && StreamId in r.fields
      ensures exists m :: m in mappings && SameStream(env, r, m)
    {
      assert NamesOneOf(env, r, StreamId, Entries(b, Streams));
      var n := GetInt(env, r.fields, StreamId).value;
      assert n in StreamRefs(env, Entries(b, Routes)) by { RefersToStream(env, Entries(b, Routes), r); }
      assert n in ExportIds(env, Entries(b, Streams));
      assert n in StreamRefs(env, mappings);
      var m :| m in mappings && m.Object? && Get(m.fields, StreamId) != Null
               && ToInt(env, Get(m.fields, StreamId)) == Some(n);
      assert SameStream(env, r, m);
    }
  }

  /** The entries of each kind are those of its own array. */
  lemma SectionsAre(b: Bundle)
    ensures b.connectors.Rows? ==> Entries(b, Connectors) == b.connectors.entries
    ensures b.sources.Rows? ==> Entries(b, Sources) == b.sources.entries
    ensures b.streams.Rows? ==> Entries(b, Streams) == b.streams.entries
    ensures b.mappings.Rows? ==> Entries(b, Mappings) == b.mappings.entries
    ensures b.enrichments.Rows? ==> Entries(b, Enrichments) == b.enrichments.entries
    ensures b.checkpoints.Rows? ==> Entries(b, Checkpoints) == b.checkpoints.entries
    ensures b.destinations.Rows? ==> Entries(b, Destinations) == b.destinations.entries
    ensures b.routes.Rows? ==> Entries(b, Routes) == b.routes.entries
  {}

  /** Types and policies that are texts: which are supported. A blank policy is the default one. */
  lemma SupportedTexts(env: Env, text: string)
    requires text != ""
    ensures PolicySupported(env, Str(text)) <==>
      Trim(text) in {"LOG_AND_CONTINUE", "PAUSE_STREAM_ON_FAILURE", "DISABLE_ROUTE_ON_FAILURE", "RETRY_AND_BACKOFF"}
    ensures SourceSupported(env, Str(text)) <==> Upper(Trim(text)) in env.sourceTypes
    ensures DestinationSupported(env, Str(text)) <==>
      env.hasAdapter(text) || Upper(Trim(text)) == "WEBHOOK_POST" || "SYSLOG" <= Upper(Trim(text))
  {
    hide Trim;
  }

  // ---- What may not repeat ------------------------------------------------------------------------------

  /** The rows refer to the same stream; routes, to the same stream and destination. */
  predicate SameUse(kind: Kind, a: Row, b: Row) {
    && StreamId in a.refs && StreamId in b.refs && a.refs[StreamId] == b.refs[StreamId]
    && (kind == Routes ==>
          DestinationId in a.refs && DestinationId in b.refs && a.refs[DestinationId] == b.refs[DestinationId])
  }

  /** After an import no two mappings, enrichments or checkpoints share a stream, and no two routes share a
      stream and a destination. */
  lemma NothingRepeats(env: Env, s: Database, q: Request, a: Answer, s2: Database, kind: Kind, i: nat, k: nat)
    requires Sound(s) && Sound(s2) && Apply(env, s, q, a, s2) && Created(a)
    requires kind == Mappings || kind == Enrichments || kind == Checkpoints || kind == Routes
    requires i < k < |s2.tables[kind]|
    ensures !SameUse(kind, s2.tables[kind][i], s2.tables[kind][k])
  {
    hide PlanImport, Newest, Accepted, Raises, SettingOf, NormalizeKey, ParseMode, Extended;
    assert ConstraintsHold(s2.tables);
    assert NoClash(kind, s2.tables[kind]);
  }

  // ---- Secret names -------------------------------------------------------------------------------------

  /** Two spellings of a key: they agree but for the case of letters and for dashes. */
  predicate SameSpelling(a: string, b: string) {
    |a| == |b| && forall i :: 0 <= i < |a| ==>
      SameLetter(a[i], b[i]) || (a[i] == '-' && b[i] == '_') || (a[i] == '_' && b[i] == '-')
  }

  /** A key is secret in all spellings or in none, and a listed name is. */
  lemma SpellingsAlike(names: set<string>, a: string, b: string)
    requires SameSpelling(a, b)
    ensures Sensitive(names, a) <==> Sensitive(names, b)
    ensures a in names && Lower(a) == a && '-' !in a ==> Sensitive(names, b)
  {
    var x, y := Replace(Lower(a), '-', '_'), Replace(Lower(b), '-', '_');
    forall i | 0 <= i < |a| ensures x[i] == y[i] {
      assert SameLetter(a[i], b[i]) ==> LowerChar(a[i]) == LowerChar(b[i]);
    }
    assert x == y;
    if Lower(a) == a && '-' !in a {
      assert x == a;
    }
  }

  lemma ContainsPart(a: string, part: string, b: string)
    ensures Contains(a + part + b, part)
  {
    assert (a + part + b)[|a|..] == part + b;
    assert part <= (a + part + b)[|a|..];
  }

  /** A text is taken for PEM when a begin and an end mark are in it, and only then. */
  lemma PemTexts(a: string, b: string, c: string)
    ensures Pem(a + "-----BEGIN" + b + "-----END" + c)
    ensures Pem(a) ==> Contains(a, "-----BEGIN") && Contains(a, "-----END")
  {
    ContainsPart(a, "-----BEGIN", b + "-----END" + c);
    ContainsPart(a + "-----BEGIN" + b, "-----END", c);
    assert a + "-----BEGIN" + (b + "-----END" + c) == a + "-----BEGIN" + b + "-----END" + c;
    assert (a + "-----BEGIN" + b) + "-----END" + c == a + "-----BEGIN" + b + "-----END" + c;
  }

  lemma LowerContains(a: string, part: string, b: string)
    requires forall i :: 0 <= i < |part| ==> LowerChar(part[i]) == part[i]
    ensures Contains(Lower(a + part + b), part)
  {
    var text := Lower(a + part + b);
    assert text[|a|..] == part + Lower(b);
    assert part <= text[|a|..];
  }

  /** Headers whose names speak of secrets, tokens or passwords are secret, in any case of letters of the
      rest of the name; so are the four that are listed. */
  lemma SecretHeaders(a: string, b: string)
    ensures SensitiveHeader(a + "secret" + b) && SensitiveHeader(a + "token" + b) && SensitiveHeader(a + "password" + b)
    ensures SensitiveHeader(a + "api_key" + b)
  {
    hide Contains, EndsWith;
    LowerContains(a, "secret", b);
    LowerContains(a, "token", b);
    LowerContains(a, "password", b);
    LowerContains(a, "api_key", b);
  }

  lemma ListedHeaders()
    ensures SensitiveHeader("Authorization") && SensitiveHeader("Cookie") && SensitiveHeader("Set-Cookie")
    ensures SensitiveHeader("X-Api-Key")
  {
    hide Contains, EndsWith;
    assert Lower("Authorization") == "authorization" && Lower("Cookie") == "cookie";
    assert Lower("Set-Cookie") == "set-cookie" && Lower("X-Api-Key") == "x-api-key";
  }

  /** Others are not: this one names none of these things. */
  lemma PlainHeader()
    ensures !SensitiveHeader("Host")
  {
    assert Lower("Host") == "host" && Replace("host", '_', '-') == "host";
    Shorter("host", "secret");
    Shorter("host", "token");
    Shorter("host", "password");
    Shorter("host", "api-key");
    Shorter("host", "api_key");
  }

  lemma Shorter(text: string, part: string)
    requires |text| < |part|
    ensures !Contains(text, part)
  {}
}
