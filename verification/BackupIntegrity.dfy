/**
 The integrity check that an export carries: which rows `verify_export_masking` reports, and that a
 workspace export reports none.
 */
module BackupIntegrity {
  import opened Strings
  import opened BackupJson
  import opened BackupMasking
  import opened BackupStore
  import opened BackupValidator
  import opened BackupExport
  import opened BackupRestored
  import opened BackupRoundTrip

  datatype Issue = Issue(kind: Kind, row: nat)

  /** What is checked of a row: credentials and configs of sources, configs of streams and
      destinations, checkpoint values. */
  predicate RowVerified(env: Env, kind: Kind, e: Entry) {
    e.Object? ==>
      match kind
      case Sources =>
        var auth := Get(e.fields, AuthJson);
        && (auth.Obj? ==> FieldsPass(env.names, env.show, auth) && PreflightPasses(env.show, auth.fields))
        && FieldsPass(env.names, env.show, Get(e.fields, ConfigJson))
      case Streams => FieldsPass(env.names, env.show, Get(e.fields, ConfigJson))
      case Destinations =>
        && WebhookPasses(env.show, Get(e.fields, ConfigJson))
        && FieldsPass(env.names, env.show, Get(e.fields, ConfigJson))
      case Checkpoints => FieldsPass(env.names, env.show, Get(e.fields, CheckpointValueJson))
      case _ => true
  }

  // ---- What is reported -------------------------------------------------------------------------------

  /** Neither null nor empty nor the mask, blanks around it aside. */
  predicate Unmasked(env: Env, v: JSON) {
    && v != Null && v != Str("") && v != Str("********")
    && Trim(if v.Str? then v.text else env.show(v)) != "********"
  }

  /** Somewhere in the column, under a sensitive name and past none, there is something unmasked. */
  ghost predicate ShowsSecret(env: Env, fields: map<Field, JSON>, f: Field) {
    f in fields && fields[f].Obj? && exists path, v ::
      Outermost(env.names, path) && Follow(fields[f], path) == Found(v) && Unmasked(env, v)
  }

  /** Among these headers one whose name speaks of a secret has a value that is unmasked and not blank. */
  ghost predicate ShowsHeader(env: Env, headers: map<string, JSON>) {
    exists h :: h in headers && Unmasked(env, headers[h])
      && Trim(if headers[h].Str? then headers[h].text else env.show(headers[h])) != ""
      && var name := Replace(Lower(h), '_', '-');
         name in {"authorization", "cookie", "x-api-key"} || Contains(name, "secret") || Contains(name, "token")
         || Contains(name, "password")
  }

  /** One of these headers has such a value, whatever its name. */
  ghost predicate ShowsAnyHeader(env: Env, headers: map<string, JSON>) {
    exists h :: h in headers && Unmasked(env, headers[h])
      && Trim(if headers[h].Str? then headers[h].text else env.show(headers[h])) != ""
  }

  ghost predicate ShowsUnder(env: Env, fields: map<Field, JSON>, f: Field, key: string, all: bool) {
    && f in fields && fields[f].Obj? && key in fields[f].fields && fields[f].fields[key].Obj?
    && if all then ShowsAnyHeader(env, fields[f].fields[key].fields) else ShowsHeader(env, fields[f].fields[key].fields)
  }

  /** A row is reported if and only if something in it is unmasked: in the credentials or the configuration
      of a source, or its preflight headers; in the configuration of a stream; in that of a destination, or
      any of its headers; or in the value of a checkpoint. */
  lemma ReportedExactly(env: Env, kind: Kind, e: Entry)
    requires e.Object?
    ensures !RowVerified(env, kind, e) <==>
      match kind
      case Sources =>
        ShowsSecret(env, e.fields, AuthJson) || ShowsSecret(env, e.fields, ConfigJson)
        || ShowsUnder(env, e.fields, AuthJson, "preflight_headers", false)
      case Streams => ShowsSecret(env, e.fields, ConfigJson)
      case Destinations =>
        ShowsSecret(env, e.fields, ConfigJson) || ShowsUnder(env, e.fields, ConfigJson, "headers", true)
      case Checkpoints => ShowsSecret(env, e.fields, CheckpointValueJson)
      case _ => false
  {
    hide FieldsPass, ShowsSecret, ShowsUnder, PreflightPasses, WebhookPasses;
    ColumnShows(env, e.fields, AuthJson);
    ColumnShows(env, e.fields, ConfigJson);
    ColumnShows(env, e.fields, CheckpointValueJson);
    PreflightShows(env, e.fields);
    WebhookShows(env, e.fields);
  }

  lemma UnmaskedIs(env: Env, v: JSON)
    ensures Unmasked(env, v) <==>
      !(Blank(v) || v == MASK || Trim(BackupJson.Text(env.show, v)) == "********")
    ensures Unmasked(env, v) <==> Leaks(env.show, v)
  {
    hide Trim;
  }

  lemma PreflightShows(env: Env, fields: map<Field, JSON>)
    ensures ShowsUnder(env, fields, AuthJson, "preflight_headers", false) <==>
      Get(fields, AuthJson).Obj? && !PreflightPasses(env.show, Get(fields, AuthJson).fields)
  {
    hide Unmasked, Leaks, Lower, Trim, Contains;
    forall v ensures Unmasked(env, v) <==> Leaks(env.show, v) {
      UnmaskedIs(env, v);
    }
  }

  lemma WebhookShows(env: Env, fields: map<Field, JSON>)
    ensures ShowsUnder(env, fields, ConfigJson, "headers", true) <==> !WebhookPasses(env.show, Get(fields, ConfigJson))
  {
    hide Unmasked, Leaks, Trim;
    forall v ensures Unmasked(env, v) <==> Leaks(env.show, v) {
      UnmaskedIs(env, v);
    }
  }

  lemma ColumnShows(env: Env, fields: map<Field, JSON>, f: Field)
    ensures ShowsSecret(env, fields, f) <==> !FieldsPass(env.names, env.show, Get(fields, f))
    ensures !Get(fields, f).Obj? ==> FieldsPass(env.names, env.show, Get(fields, f))
  {
    hide FieldsPass, Outermost, Follow, Trim, Unmasked, Blank;
    forall v ensures Unmasked(env, v) <==>
        !(Blank(v) || v == MASK || Trim(BackupJson.Text(env.show, v)) == "********")
    {
      UnmaskedIs(env, v);
    }
    if f in fields && fields[f].Obj? {
      FieldsPassExactly(env.names, env.show, fields[f]);
    } else {
      OnlyObjects(env, Get(fields, f));
    }
  }

  lemma OnlyObjects(env: Env, j: JSON)
    requires !j.Obj?
    ensures FieldsPass(env.names, env.show, j)
  {}

  method VerifyRows(env: Env, kind: Kind, entries: seq<Entry>) returns (issues: seq<Issue>)
    ensures forall i: nat, k :: Issue(k, i) in issues <==>
        k == kind && i < |entries| && !RowVerified(env, kind, entries[i])
  {
    hide RowVerified;
    issues := [];
    for n := 0 to |entries|
      invariant forall i: nat, k :: Issue(k, i) in issues <==> k == kind && i < n && !RowVerified(env, kind, entries[i])
    {
      if !RowVerified(env, kind, entries[n]) {
        issues := issues + [Issue(kind, n)];
      }
    }
  }

  predicate IsChecked(kind: Kind) {
    kind == Sources || kind == Streams || kind == Destinations || kind == Checkpoints
  }

  /** `verify_export_masking`: one issue or more for exactly the rows with an unmasked secret. */
  method VerifyExportMasking(env: Env, b: Bundle) returns (issues: seq<Issue>)
    ensures forall i: nat, kind :: Issue(kind, i) in issues <==>
              IsChecked(kind) && i < |Entries(b, kind)| && !RowVerified(env, kind, Entries(b, kind)[i])
  {
    hide RowVerified, Entries;
    var sources := VerifyRows(env, Sources, Entries(b, Sources));
    var streams := VerifyRows(env, Streams, Entries(b, Streams));
    var destinations := VerifyRows(env, Destinations, Entries(b, Destinations));
    var checkpoints := VerifyRows(env, Checkpoints, Entries(b, Checkpoints));
    issues := sources + streams + destinations + checkpoints;
  }

  /** A source whose credentials have a null preflight header that masking prints and the check
      looks for. */
  predicate Prints(env: Env, kind: Kind, row: Row) {
    kind == Sources && AuthJson in row.cols && row.cols[AuthJson].Obj?
        && LeaksNull(env.names, row.cols[AuthJson].fields)
  }

  lemma SourceColumns(row: Row)
    requires RowTyped(Sources, row)
    ensures AuthJson in Columns(Sources) && AuthJson in row.cols && row.cols[AuthJson].Obj?
    ensures ConfigJson in Columns(Sources) && ConfigJson in row.cols && row.cols[ConfigJson].Obj?
  {
    assert Typed(Columns(Sources)[AuthJson], row.cols[AuthJson])
        && Typed(Columns(Sources)[ConfigJson], row.cols[ConfigJson]);
  }

  lemma ExportedSourceVerified(env: Env, row: Row)
    requires RowTyped(Sources, row) && Underscored(env.names) && PlainNames(env.names) && env.show(Null) == "None"
    ensures RowVerified(env, Sources, Object(ExportFields(env, Sources, row))) <==> !Prints(env, Sources, row)
  {
    hide ExportFields, FieldsPass, PreflightPasses, LeaksNull, MaskAuth, MaskSecrets, Sensitive, Underscored, RowTyped,
      Columns;
    ExportedFields(env, Sources, row);
    SourceColumns(row);
    AuthPasses(env.names, env.show, row.cols[AuthJson].fields);
    SecretsPass(env.names, env.show, row.cols[ConfigJson]);
  }

  lemma ExportedRowVerified(env: Env, kind: Kind, row: Row)
    requires RowTyped(kind, row) && Underscored(env.names) && PlainNames(env.names) && env.show(Null) == "None"
    ensures RowVerified(env, kind, Object(ExportFields(env, kind, row))) <==> !Prints(env, kind, row)
  {
    hide ExportFields, FieldsPass, WebhookPasses, PreflightPasses, LeaksNull, MaskAuth, MaskConfig, MaskSecrets,
      MaskSecretsAndPem, Sensitive, Underscored, PlainNames;
    ExportedFields(env, kind, row);
    match kind
    case Sources =>
      ExportedSourceVerified(env, row);
    case Streams =>
      ConfigPasses(env.names, env.show, false, row.cols[ConfigJson]);
    case Destinations =>
      ConfigPasses(env.names, env.show, true, row.cols[ConfigJson]);
    case Checkpoints =>
      SecretsPass(env.names, env.show, row.cols[CheckpointValueJson]);
    case _ =>
  }

  /** A row of a workspace export passes the check the export carries, unless it is that of a source
      whose null preflight header is printed where the check looks. */
  lemma ExportVerified(env: Env, tables: map<Kind, seq<Row>>, includeDestinations: bool, includeCheckpoints: bool,
      kind: Kind, i: nat)
    requires Healthy(env, tables) && Underscored(env.names) && PlainNames(env.names) && env.show(Null) == "None"
    requires i < |Entries(WorkspaceExport(env, tables, includeDestinations, includeCheckpoints), kind)|
    ensures i < |tables[kind]|
    ensures RowVerified(env, kind, Entries(WorkspaceExport(env, tables, includeDestinations, includeCheckpoints),
        kind)[i])
            <==> !Prints(env, kind, tables[kind][i])
  {
    hide Healthy, RowVerified, RowTyped, ExportFields, Prints, Underscored, PlainNames;
    ExportEntries(env, tables, includeDestinations, includeCheckpoints, kind);
    var row := tables[kind][i];
    assert row in tables[kind];
    HealthyRow(env, tables, kind, row);
    ExportedRowVerified(env, kind, row);
  }
}
