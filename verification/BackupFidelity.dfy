/**
 What is left of a configuration value: what an export changes of it and nothing else, and what an
 import then restores, told place by place along the paths into the stored value.
 */
module BackupFidelity {
  import opened Strings
  import opened BackupJson
  import opened BackupMasking
  import opened BackupStore

  /** The path leads into `j`, past no sensitive key and, where `headers` are masked, into no object under
      a key "headers". */
  predicate Open(names: set<string>, headers: bool, j: JSON, path: seq<Step>)
    decreases |path|
  {
    path == [] ||
    match path[0]
    case Key(k) =>
      && j.Obj? && k in j.fields && !Sensitive(names, k) && !(headers && IsHeaders(k, j.fields[k]))
      && Open(names, headers, j.fields[k], path[1..])
    case Item(i) => j.Arr? && i < |j.items| && Open(names, headers, j.items[i], path[1..])
  }

  lemma {:induction false} OpenLeads(names: set<string>, headers: bool, j: JSON, path: seq<Step>)
    requires Open(names, headers, j, path)
    ensures Follow(j, path).Found?
    decreases |path|
  {
    hide IsHeaders, Sensitive;
    if path != [] {
      match path[0]
      case Key(k) => OpenLeads(names, headers, j.fields[k], path[1..]);
      case Item(i) => OpenLeads(names, headers, j.items[i], path[1..]);
    }
  }

  // ---- Exports ----------------------------------------------------------------------------------------

  /** The export `y` of the value `x` at such a place: objects keep their keys and arrays their length,
      secrets that are not blank are masked, so are PEM texts where they are looked for, and every other
      value is as it was. */
  predicate Kept(names: set<string>, pem: bool, x: JSON, y: Found) {
    y.Found? &&
    match x
    case Obj(fields) =>
      && y.value.Obj? && y.value.fields.Keys == fields.Keys
      && forall k :: k in fields && Sensitive(names, k) ==>
           y.value.fields[k] == if fields[k] == Null || fields[k] == Str("") then fields[k] else Str("********")
    case Arr(items) => y.value.Arr? && |y.value.items| == |items|
    case Str(text) => y.value == if pem && Pem(text) then Str("********") else x
    case _ => y.value == x
  }

  /** Header values that are texts: which of them are masked, and the others as they were. */
  predicate HeaderKept(names: set<string>, all: bool, pem: bool, h: string, x: JSON, y: JSON) {
    x.Str? ==>
      var hidden :=
        if all then !AllBlank(x.text) || (Sensitive(names, h) && x.text != "")
        else x.text != "" && (Sensitive(names, h) || SensitiveHeader(h) || (pem && Pem(x.text)));
      y == if hidden then Str("********") else x
  }

  predicate HeadersKept(names: set<string>, all: bool, pem: bool, x: map<string, JSON>, y: JSON) {
    && y.Obj? && y.fields.Keys == x.Keys
    && forall h :: h in x ==> HeaderKept(names, all, pem, h, x[h], y.fields[h])
  }

  /** Nothing in the value is masked, or looks as if it were. */
  predicate Free(names: set<string>, headers: bool, pem: bool, j: JSON) {
    match j
    case Obj(fields) => forall k :: k in fields ==>
      && !Sensitive(names, k) && !(headers && IsHeaders(k, fields[k])) && fields[k] != Str("********")
      && Free(names, headers, pem, fields[k])
    case Arr(items) => forall i :: 0 <= i < |items| ==>
      items[i] != Str("********") && Free(names, headers, pem, items[i])
    case Str(text) => !(pem && Pem(text))
    case _ => true
  }

  /** `e` is an export of `v`: every place of `v` that an open path leads to is kept, unchanged if it is
      free of what is masked, and so are the headers objects in such places. */
  ghost predicate ExportOfValue(names: set<string>, headers: bool, all: bool, pem: bool, v: JSON, e: JSON) {
    && (forall path :: Open(names, headers, v, path) ==> Kept(names, pem, At(v, path), Follow(e, path)))
    && (forall path :: Open(names, headers, v, path) && Free(names, headers, pem, At(v, path)) ==>
          Follow(e, path) == Found(At(v, path)))
    && (forall path, k :: headers && Open(names, headers, v, path) && HeadersAt(names, At(v, path), k) ==>
          Follow(e, path + [Key(k)]).Found?
          && HeadersKept(names, all, pem, At(v, path).fields[k].fields, Follow(e, path + [Key(k)]).value))
  }

  function At(v: JSON, path: seq<Step>): JSON {
    match Follow(v, path) case Found(x) => x case Nothing => Null
  }

  predicate HeadersAt(names: set<string>, x: JSON, k: string) {
    x.Obj? && k in x.fields && IsHeaders(k, x.fields[k]) && !Sensitive(names, k)
  }

  lemma {:induction false} FollowOn(j: JSON, path: seq<Step>, k: string)
    ensures Follow(j, path + [Key(k)]) ==
      match Follow(j, path)
      case Nothing => Nothing
      case Found(x) => if x.Obj? && k in x.fields then Found(x.fields[k]) else Nothing
    decreases |path|
  {
    var longer := path + [Key(k)];
    if path == [] {
      assert longer[1..] == [];
    } else {
      assert longer[0] == path[0] && longer[1..] == path[1..] + [Key(k)];
      match path[0]
      case Key(first) => if j.Obj? && first in j.fields { FollowOn(j.fields[first], path[1..], k); }
      case Item(i) => if j.Arr? && i < |j.items| { FollowOn(j.items[i], path[1..], k); }
    }
  }

  // ---- The three passes, place by place ---------------------------------------------------------------

  lemma {:induction false} SecretsAt(names: set<string>, headers: bool, j: JSON, path: seq<Step>)
    requires Open(names, headers, j, path)
    ensures Follow(j, path).Found?
    ensures Follow(MaskSecrets(names, j), path) == Found(MaskSecrets(names, At(j, path)))
    ensures Open(names, headers, MaskSecrets(names, j), path)
    decreases |path|
  {
    hide Sensitive;
    if path != [] {
      match path[0]
      case Key(k) =>
        SecretsAt(names, headers, j.fields[k], path[1..]);
        assert IsHeaders(k, MaskSecrets(names, j.fields[k])) == IsHeaders(k, j.fields[k]);
      case Item(i) => SecretsAt(names, headers, j.items[i], path[1..]);
    }
  }

  lemma {:induction false} NestedHeadersAt(names: set<string>, show: JSON -> string, all: bool, j: JSON,
      path: seq<Step>)
    requires Open(names, true, j, path)
    ensures Follow(j, path).Found?
    ensures Follow(MaskNestedHeaders(show, all, j), path) == Found(MaskNestedHeaders(show, all, At(j, path)))
    decreases |path|
  {
    hide Sensitive, MaskHeaders, Lower;
    if path != [] {
      match path[0]
      case Key(k) => NestedHeadersAt(names, show, all, j.fields[k], path[1..]);
      case Item(i) => NestedHeadersAt(names, show, all, j.items[i], path[1..]);
    }
  }

  lemma {:induction false} PemAt(j: JSON, path: seq<Step>)
    requires Follow(j, path).Found?
    ensures Follow(RedactPem(j), path) == Found(RedactPem(At(j, path)))
    decreases |path|
  {
    hide Pem;
    if path != [] {
      match path[0]
      case Key(k) => PemAt(j.fields[k], path[1..]);
      case Item(i) => PemAt(j.items[i], path[1..]);
    }
  }

  lemma MaskIsNoPem()
    ensures !Pem("********") && !Pem("") && RedactPem(MASK) == MASK
  {
    var mask, begin := "********", "-----BEGIN";
    forall i | 0 <= i <= |mask| ensures !(begin <= mask[i..]) {}
    assert !Contains(mask, begin);
    forall i | 0 <= i <= |""| ensures !(begin <= ""[i..]) {}
    assert !Contains("", begin);
  }

  /** One place on its own. */
  lemma KeptBySecrets(names: set<string>, x: JSON)
    ensures Kept(names, false, x, Found(MaskSecrets(names, x)))
  {}

  lemma KeptByPem(names: set<string>, x: JSON)
    ensures Kept(names, true, x, Found(MaskSecretsAndPem(names, x)))
  {
    hide Pem, Sensitive;
    MaskIsNoPem();
    if x.Obj? {
      forall k | k in x.fields && Sensitive(names, k)
        ensures RedactPem(MaskSecrets(names, x).fields[k]) == MaskSecrets(names, x).fields[k]
      {}
    }
  }

  lemma KeptByConfig(names: set<string>, show: JSON -> string, all: bool, x: JSON)
    ensures Kept(names, true, x, Found(MaskConfig(names, show, all, x)))
  {
    hide Pem, Sensitive, MaskHeaders;
    MaskIsNoPem();
    if x.Obj? {
      var secrets := MaskSecrets(names, x);
      forall k | k in x.fields && Sensitive(names, k)
        ensures RedactPem(MaskNestedHeaders(show, all, secrets.fields[k])) == secrets.fields[k]
      {}
    }
  }

  lemma HeadersKeptByConfig(names: set<string>, show: JSON -> string, all: bool, x: JSON, k: string)
    requires HeadersAt(names, x, k)
    ensures var y := MaskConfig(names, show, all, x);
      y.Obj? && k in y.fields && HeadersKept(names, all, true, x.fields[k].fields, y.fields[k])
  {
    hide Pem, Sensitive, MaskHeader, HeaderKept;
    var was := x.fields[k].fields;
    var headers := MaskSecrets(names, x.fields[k]).fields;
    var masked := MaskHeaders(show, all, headers);
    assert x.fields[k] == Obj(was);
    assert MaskNestedHeaders(show, all, MaskSecrets(names, x)).fields[k] == Obj(masked);
    var y := MaskConfig(names, show, all, x);
    assert y.fields[k] == RedactPem(Obj(masked));
    assert y.fields[k].fields.Keys == was.Keys;
    forall h | h in was ensures HeaderKept(names, all, true, h, was[h], RedactPem(masked[h])) {
      OneHeader(names, show, all, was, h);
    }
  }

  lemma OneHeader(names: set<string>, show: JSON -> string, all: bool, was: map<string, JSON>, h: string)
    requires h in was
    ensures var masked := MaskHeaders(show, all, MaskSecrets(names, Obj(was)).fields);
      h in masked && HeaderKept(names, all, true, h, was[h], RedactPem(masked[h]))
  {
    hide Pem, Sensitive, MaskHeader, HeaderKept;
    var masked := MaskHeaders(show, all, MaskSecrets(names, Obj(was)).fields);
    if was[h].Str? {
      HeaderText(names, all, h, was[h].text);
    } else {
      OtherHeader(names, all, h, was[h], RedactPem(masked[h]));
    }
  }

  lemma OtherHeader(names: set<string>, all: bool, h: string, x: JSON, y: JSON)
    requires !x.Str?
    ensures HeaderKept(names, all, true, h, x, y)
  {}

  /** One header value that is a text, through all passes. */
  lemma HeaderText(names: set<string>, all: bool, h: string, text: string)
    ensures var x := Str(text);
      var secret := if Sensitive(names, h) then (if Blank(x) then x else MASK) else x;
      HeaderKept(names, all, true, h, x, RedactPem(MaskHeader(all, h, secret.text)))
  {
    hide Pem, Sensitive, SensitiveHeader;
    MaskIsNoPem();
    assert !AllBlank("********") by { assert !Space("********"[0]); }
    assert AllBlank("");
    if AllBlank(text) { BlankIsNoPem(text); }
  }

  lemma PemHasDash(text: string)
    requires Pem(text)
    ensures '-' in text
  {
    var i :| 0 <= i <= |text| && "-----BEGIN" <= text[i..];
    assert text[i..][0] == '-';
  }

  lemma BlankIsNoPem(text: string)
    requires AllBlank(text)
    ensures !Pem(text)
  {
    hide Pem;
    assert !Space('-');
    assert '-' !in text;
    if Pem(text) { PemHasDash(text); }
  }

  lemma {:induction j} FreeOfSecrets(names: set<string>, headers: bool, pem: bool, j: JSON)
    requires Free(names, headers, pem, j)
    ensures MaskSecrets(names, j) == j
  {}

  lemma {:induction false} FreeOfHeaders(names: set<string>, show: JSON -> string, all: bool, pem: bool, j: JSON)
    requires Free(names, true, pem, j)
    ensures MaskNestedHeaders(show, all, j) == j
  {
    hide Sensitive, Lower, MaskHeaders, Pem;
    match j
    case Obj(fields) =>
      forall k | k in fields ensures MaskNestedHeaders(show, all, fields[k]) == fields[k] && !IsHeaders(k, fields[k]) {
        FreeOfHeaders(names, show, all, pem, fields[k]);
      }
      assert MaskNestedHeaders(show, all, j).fields == fields;
    case Arr(items) =>
      forall i | 0 <= i < |items| ensures MaskNestedHeaders(show, all, items[i]) == items[i] {
        FreeOfHeaders(names, show, all, pem, items[i]);
      }
      assert MaskNestedHeaders(show, all, j).items == items;
    case _ =>
  }

  lemma {:induction j} FreeOfPem(names: set<string>, headers: bool, j: JSON)
    requires Free(names, headers, true, j)
    ensures RedactPem(j) == j
  {}

  lemma {:induction j} FreeOfMasks(names: set<string>, headers: bool, pem: bool, j: JSON)
    requires Free(names, headers, pem, j)
    ensures MaskFree(j)
  {}

  // ---- The exported columns -------------------------------------------------------------------------

  /** `config_json` of a source. */
  lemma SecretsExport(names: set<string>, v: JSON)
    ensures ExportOfValue(names, false, false, false, v, MaskSecrets(names, v))
  {
    hide Open, Kept, Free;
    forall path | Open(names, false, v, path)
      ensures Kept(names, false, At(v, path), Follow(MaskSecrets(names, v), path))
    {
      SecretsAt(names, false, v, path);
      KeptBySecrets(names, At(v, path));
    }
    forall path | Open(names, false, v, path) && Free(names, false, false, At(v, path))
      ensures Follow(MaskSecrets(names, v), path) == Found(At(v, path))
    {
      SecretsAt(names, false, v, path);
      FreeOfSecrets(names, false, false, At(v, path));
    }
  }

  /** The value of a checkpoint. */
  lemma PemExport(names: set<string>, v: JSON)
    ensures ExportOfValue(names, false, false, true, v, MaskSecretsAndPem(names, v))
  {
    hide Open, Kept, Free;
    forall path | Open(names, false, v, path)
      ensures Kept(names, true, At(v, path), Follow(MaskSecretsAndPem(names, v), path))
    {
      SecretsAt(names, false, v, path);
      PemAt(MaskSecrets(names, v), path);
      KeptByPem(names, At(v, path));
    }
    forall path | Open(names, false, v, path) && Free(names, false, true, At(v, path))
      ensures Follow(MaskSecretsAndPem(names, v), path) == Found(At(v, path))
    {
      SecretsAt(names, false, v, path);
      PemAt(MaskSecrets(names, v), path);
      FreeOfSecrets(names, false, true, At(v, path));
      FreeOfPem(names, false, At(v, path));
    }
  }

  lemma ConfigAt(names: set<string>, show: JSON -> string, all: bool, v: JSON, path: seq<Step>)
    requires Open(names, true, v, path)
    ensures Follow(v, path).Found?
    ensures Follow(MaskConfig(names, show, all, v), path) == Found(MaskConfig(names, show, all, At(v, path)))
  {
    hide Open;
    SecretsAt(names, true, v, path);
    NestedHeadersAt(names, show, all, MaskSecrets(names, v), path);
    PemAt(MaskNestedHeaders(show, all, MaskSecrets(names, v)), path);
  }

  lemma FreeConfig(names: set<string>, show: JSON -> string, all: bool, x: JSON)
    requires Free(names, true, true, x)
    ensures MaskConfig(names, show, all, x) == x
  {
    hide Free;
    FreeOfSecrets(names, true, true, x);
    FreeOfHeaders(names, show, all, true, x);
    FreeOfPem(names, true, x);
  }

  /** `config_json` of a stream or a destination. */
  lemma ConfigExport(names: set<string>, show: JSON -> string, all: bool, v: JSON)
    ensures ExportOfValue(names, true, all, true, v, MaskConfig(names, show, all, v))
  {
    hide Open, Kept, MaskConfig, HeadersKept, Free;
    var e := MaskConfig(names, show, all, v);
    forall path | Open(names, true, v, path) ensures Kept(names, true, At(v, path), Follow(e, path)) {
      ConfigAt(names, show, all, v, path);
      KeptByConfig(names, show, all, At(v, path));
    }
    forall path | Open(names, true, v, path) && Free(names, true, true, At(v, path))
      ensures Follow(e, path) == Found(At(v, path))
    {
      ConfigAt(names, show, all, v, path);
      FreeConfig(names, show, all, At(v, path));
    }
    forall path, k | Open(names, true, v, path) && HeadersAt(names, At(v, path), k)
      ensures Follow(e, path + [Key(k)]).Found?
      ensures HeadersKept(names, all, true, At(v, path).fields[k].fields, Follow(e, path + [Key(k)]).value)
    {
      ConfigAt(names, show, all, v, path);
      HeadersKeptByConfig(names, show, all, At(v, path), k);
      FollowOn(e, path, k);
    }
  }

  /** `auth_json` of a source: secrets are masked, the preflight headers as headers are, and every other
      entry is exported like a configuration value. */
  ghost predicate AuthExport(names: set<string>, v: map<string, JSON>, e: map<string, JSON>) {
    && e.Keys == v.Keys
    && forall k :: k in v ==>
      if Sensitive(names, k) then e[k] == if v[k] == Null || v[k] == Str("") then v[k] else Str("********")
      else if k == "preflight_headers" && v[k].Obj? then HeadersKept(names, false, false, v[k].fields, e[k])
      else ExportOfValue(names, false, false, false, v[k], e[k])
  }

  lemma AuthIsExported(names: set<string>, show: JSON -> string, v: map<string, JSON>)
    requires !Sensitive(names, PREFLIGHT)
    ensures AuthExport(names, v, MaskAuth(names, show, v))
  {
    hide Sensitive, ExportOfValue, HeadersKept, SensitiveHeader;
    var e := MaskAuth(names, show, v);
    assert e.Keys == v.Keys;
    forall k | k in v && !Sensitive(names, k) && !(k == "preflight_headers" && v[k].Obj?)
      ensures ExportOfValue(names, false, false, false, v[k], e[k])
    {
      assert e[k] == MaskSecrets(names, v[k]);
      SecretsExport(names, v[k]);
    }
    if HasPreflight(v) {
      PreflightKept(names, show, v);
    }
  }

  lemma PreflightKept(names: set<string>, show: JSON -> string, v: map<string, JSON>)
    requires !Sensitive(names, PREFLIGHT) && HasPreflight(v)
    ensures HeadersKept(names, false, false, v[PREFLIGHT].fields, MaskAuth(names, show, v)[PREFLIGHT])
  {
    hide Sensitive, SensitiveHeader, MaskHeader, HeaderKept;
    var was := v[PREFLIGHT].fields;
    assert v[PREFLIGHT] == Obj(was);
    var headers := MaskSecrets(names, Obj(was)).fields;
    var shown := map k | k in headers :: MaskHeader(false, k, BackupJson.Text(show, headers[k]));
    assert MaskSecrets(names, Obj(v)).fields[PREFLIGHT] == Obj(headers);
    assert MaskAuth(names, show, v)[PREFLIGHT] == Obj(shown);
    forall h | h in was ensures HeaderKept(names, false, false, h, was[h], shown[h]) {
      PreflightHeader(names, show, was, h);
    }
  }

  lemma PreflightHeader(names: set<string>, show: JSON -> string, was: map<string, JSON>, h: string)
    requires h in was
    ensures var headers := MaskSecrets(names, Obj(was)).fields;
      && h in headers
      && HeaderKept(names, false, false, h, was[h], MaskHeader(false, h, BackupJson.Text(show, headers[h])))
  {
    hide Sensitive, SensitiveHeader;
  }

  // ---- What an import restores ------------------------------------------------------------------------

  /** What the entry `x` under key `k` holds does not come back. */
  predicate Lost(names: set<string>, pem: bool, k: string, x: JSON) {
    if Sensitive(names, k) then x != Null && x != Str("")
    else x == Str("********") || (pem && x.Str? && Pem(x.text))
  }

  /** What an import restores in such a place: of an object what is not lost, of an array what is free
      of what is masked, and every other value unless it is lost. */
  ghost predicate RestoredAt(names: set<string>, headers: bool, pem: bool, x: JSON, y: Found) {
    match x
    case Obj(fields) =>
      && y.Found? && y.value.Obj?
      && (forall k :: k in y.value.fields <==> k in fields && !Lost(names, pem, k, fields[k]))
      && (forall k :: k in y.value.fields && Sensitive(names, k) ==> y.value.fields[k] == fields[k])
    case Arr(items) => y.Found? && y.value.Arr? && (Free(names, headers, pem, x) ==> y == Found(x))
    case Str(text) => x == Str("********") || (pem && Pem(text)) || y == Found(x)
    case _ => y == Found(x)
  }

  predicate AllKeys(path: seq<Step>) {
    forall i :: 0 <= i < |path| ==> path[i].Key?
  }

  /** `w` is what is restored of `v`, along every open path of keys. */
  ghost predicate Restores(names: set<string>, headers: bool, pem: bool, v: JSON, w: JSON) {
    forall path :: Open(names, headers, v, path) && AllKeys(path) ==>
      RestoredAt(names, headers, pem, At(v, path), Follow(w, path))
  }

  lemma {:induction false} StripAt(j: JSON, path: seq<Step>)
    requires AllKeys(path) && Follow(j, path).Found? && At(j, path) != MASK
    ensures Follow(Strip(j), path) == Found(Strip(At(j, path)))
    decreases |path|
  {
    if path != [] {
      StripAt(j.fields[path[0].key], path[1..]);
    }
  }

  lemma {:induction false} OpenOn(names: set<string>, headers: bool, j: JSON, path: seq<Step>, k: string)
    requires Open(names, headers, j, path) && At(j, path).Obj? && k in At(j, path).fields
    requires !Sensitive(names, k) && !(headers && IsHeaders(k, At(j, path).fields[k]))
    ensures Open(names, headers, j, path + [Key(k)])
    decreases |path|
  {
    hide Sensitive, IsHeaders;
    var longer := path + [Key(k)];
    if path == [] {
      assert longer[1..] == [];
    } else {
      assert longer[0] == path[0] && longer[1..] == path[1..] + [Key(k)];
      match path[0]
      case Key(first) => OpenOn(names, headers, j.fields[first], path[1..], k);
      case Item(i) => OpenOn(names, headers, j.items[i], path[1..], k);
    }
  }

  /** An entry of an object at an open place is exported as the mask exactly when it is lost. */
  lemma MaskedEntries(names: set<string>, headers: bool, all: bool, pem: bool, v: JSON, e: JSON, path: seq<Step>,
      k: string)
    requires ExportOfValue(names, headers, all, pem, v, e) && Open(names, headers, v, path)
    requires At(v, path).Obj? && k in At(v, path).fields
    ensures Follow(e, path).Found? && Follow(e, path).value.Obj? && k in Follow(e, path).value.fields
    ensures Follow(e, path).value.fields[k] == MASK <==> Lost(names, pem, k, At(v, path).fields[k])
    ensures Sensitive(names, k) && !Lost(names, pem, k, At(v, path).fields[k]) ==>
      Follow(e, path).value.fields[k] == At(v, path).fields[k]
  {
    hide Sensitive, Pem, Free, Open, Follow;
    assert Kept(names, pem, At(v, path), Follow(e, path));
    var x := At(v, path).fields[k];
    OpenLeads(names, headers, v, path);
    FollowOn(v, path, k);
    FollowOn(e, path, k);
    if !Sensitive(names, k) {
      if headers && IsHeaders(k, x) {
        assert HeadersAt(names, At(v, path), k);
      } else {
        OpenOn(names, headers, v, path, k);
        assert Kept(names, pem, x, Follow(e, path + [Key(k)]));
      }
    }
  }

  /** Whatever was exported, stripping the masks restores it. */
  lemma StripRestores(names: set<string>, headers: bool, all: bool, pem: bool, v: JSON, e: JSON)
    requires ExportOfValue(names, headers, all, pem, v, e)
    ensures Restores(names, headers, pem, v, Strip(e))
  {
    hide Open, RestoredAt, AllKeys;
    forall path | Open(names, headers, v, path) && AllKeys(path)
      ensures RestoredAt(names, headers, pem, At(v, path), Follow(Strip(e), path))
    {
      StripRestoresAt(names, headers, all, pem, v, e, path);
    }
  }

  lemma StripRestoresAt(names: set<string>, headers: bool, all: bool, pem: bool, v: JSON, e: JSON, path: seq<Step>)
    requires ExportOfValue(names, headers, all, pem, v, e) && Open(names, headers, v, path) && AllKeys(path)
    ensures RestoredAt(names, headers, pem, At(v, path), Follow(Strip(e), path))
  {
    hide Sensitive, Pem, Open, AllKeys, Follow, ExportOfValue, Free, Lost, Strip;
    assert Kept(names, pem, At(v, path), Follow(e, path)) by { KeptThere(names, headers, all, pem, v, e, path); }
    var x, y := At(v, path), Follow(e, path).value;
    if y != MASK {
      StripAt(e, path);
      match x {
        case Obj(fields) =>
          forall k | k in fields
            ensures k in y.fields && (y.fields[k] == MASK <==> Lost(names, pem, k, fields[k]))
            ensures Sensitive(names, k) && !Lost(names, pem, k, fields[k]) ==> y.fields[k] == fields[k]
          {
            MaskedEntries(names, headers, all, pem, v, e, path, k);
          }
          StripObject(names, pem, fields, y.fields);
        case Arr(items) =>
          StripArray(y);
          if Free(names, headers, pem, x) {
            FreeThere(names, headers, all, pem, v, e, path);
            FreeOfMasks(names, headers, pem, x);
            StripFixes(x);
          }
        case _ =>
          StripPlain(y);
      }
    }
  }

  lemma KeptThere(names: set<string>, headers: bool, all: bool, pem: bool, v: JSON, e: JSON, path: seq<Step>)
    requires ExportOfValue(names, headers, all, pem, v, e) && Open(names, headers, v, path)
    ensures Kept(names, pem, At(v, path), Follow(e, path))
  {}

  lemma FreeThere(names: set<string>, headers: bool, all: bool, pem: bool, v: JSON, e: JSON, path: seq<Step>)
    requires ExportOfValue(names, headers, all, pem, v, e) && Open(names, headers, v, path)
    requires Free(names, headers, pem, At(v, path))
    ensures Follow(e, path) == Found(At(v, path))
  {
    hide Free;
  }

  lemma StripObject(names: set<string>, pem: bool, was: map<string, JSON>, fields: map<string, JSON>)
    requires fields.Keys == was.Keys
    requires forall k :: k in was ==>
      && (fields[k] == MASK <==> Lost(names, pem, k, was[k]))
      && (Sensitive(names, k) && !Lost(names, pem, k, was[k]) ==> fields[k] == was[k])
    ensures var y := Strip(Obj(fields));
      && y.Obj? && (forall k :: k in y.fields <==> k in was && !Lost(names, pem, k, was[k]))
      && forall k :: k in y.fields && Sensitive(names, k) ==> y.fields[k] == was[k]
  {
    hide Pem, Sensitive;
    forall k | k in was && Sensitive(names, k) && fields[k] != MASK ensures Strip(fields[k]) == fields[k] {}
  }

  lemma StripArray(y: JSON)
    requires y.Arr?
    ensures Strip(y).Arr?
  {}

  lemma StripPlain(y: JSON)
    requires !y.Obj? && !y.Arr?
    ensures Strip(y) == y
  {}

  /** Entries of credentials other than the authentication type and the preflight headers: all that are
      not lost are restored, and nothing is added. */
  ghost predicate EntriesRestored(names: set<string>, v: map<string, JSON>, w: map<string, JSON>) {
    && (forall k :: k in w ==> k in v || k == "auth_type")
    && (forall k :: k in v && k != "auth_type" && !(k == "preflight_headers" && v[k].Obj?) ==>
          && (k in w <==> !Lost(names, false, k, v[k]))
          && (k in w && Sensitive(names, k) ==> w[k] == v[k])
          && (k in w && !Sensitive(names, k) ==> Restores(names, false, false, v[k], w[k])))
  }

  /** The authentication type is a text that is not blank or masked, or becomes "no_auth". */
  predicate TypeRestored(v: map<string, JSON>, w: map<string, JSON>) {
    && "auth_type" in w
    && ("auth_type" in v && v["auth_type"].Str? && v["auth_type"].text != "" && v["auth_type"] != Str("********") ==>
          w["auth_type"] == v["auth_type"])
    && ("auth_type" !in v || v["auth_type"] in {Null, Str(""), Str("********")} ==> w["auth_type"] == Str("no_auth"))
  }

  /** What is restored of the credentials of a source. */
  ghost predicate AuthRestores(names: set<string>, v: map<string, JSON>, w: map<string, JSON>) {
    && EntriesRestored(names, v, w)
    && TypeRestored(v, w)
    && ("preflight_headers" in v && v["preflight_headers"].Obj? ==>
          && "preflight_headers" in w && w["preflight_headers"].Obj?
          && PreflightRestored(names, v["preflight_headers"].fields, w["preflight_headers"].fields))
  }

  /** Preflight headers that are texts come back unless they are hidden. */
  predicate PreflightRestored(names: set<string>, v: map<string, JSON>, w: map<string, JSON>) {
    forall h :: h in v && v[h].Str? ==>
      var hidden := v[h].text != "" && (Sensitive(names, h) || SensitiveHeader(h));
      if hidden || v[h].text == "********" then h !in w else h in w && w[h] == v[h]
  }

  /** What stripping leaves of exported credentials. */
  predicate Stripped(e: map<string, JSON>, kept: map<string, JSON>) {
    && (forall k :: k in kept ==> k in e)
    && (forall k :: k in e ==> (k in kept <==> e[k] != MASK) && (k in kept ==> kept[k] == Strip(e[k])))
  }

  /** Stripped of masks and given an authentication type if it lacks one. */
  lemma AuthIsRestored(names: set<string>, v: map<string, JSON>, e: map<string, JSON>)
    requires AuthExport(names, v, e) && !Sensitive(names, "auth_type") && !Sensitive(names, "preflight_headers")
    ensures AuthRestores(names, v, WithAuthType(StripDict(e)))
  {
    hide Sensitive, Restores, HeadersKept, ExportOfValue, PreflightRestored, WithAuthType, EntriesRestored,
      TypeRestored;
    assert "auth_type" != "preflight_headers" by { assert |"auth_type"| != |"preflight_headers"|; }
    var kept := StripDict(e);
    var w := WithAuthType(kept);
    assert forall k :: k != "auth_type" ==> (k in w <==> k in kept) && (k in w ==> w[k] == kept[k]) by {
      TypeOnly(kept);
    }
    assert Stripped(e, kept);
    EntriesComeBack(names, v, e, kept, w);
    TypeComesBack(names, v, e, kept);
    if "preflight_headers" in v && v["preflight_headers"].Obj? {
      assert HeadersKept(names, false, false, v["preflight_headers"].fields, e["preflight_headers"]);
      PreflightComesBack(names, v["preflight_headers"].fields, e["preflight_headers"]);
    }
  }

  lemma TypeOnly(kept: map<string, JSON>)
    ensures forall k :: k != "auth_type" ==>
      (k in WithAuthType(kept) <==> k in kept) && (k in kept ==> WithAuthType(kept)[k] == kept[k])
    ensures forall k :: k in WithAuthType(kept) ==> k in kept || k == "auth_type"
  {}

  lemma EntriesComeBack(names: set<string>, v: map<string, JSON>, e: map<string, JSON>, kept: map<string, JSON>,
      w: map<string, JSON>)
    requires AuthExport(names, v, e) && Stripped(e, kept)
    requires forall k :: k != "auth_type" ==> (k in w <==> k in kept) && (k in w ==> w[k] == kept[k])
    ensures EntriesRestored(names, v, w)
  {
    hide Sensitive, Restores, HeadersKept, ExportOfValue, Strip;
    forall k | k in v && !(k == "preflight_headers" && v[k].Obj?)
      ensures e[k] == MASK <==> Lost(names, false, k, v[k])
      ensures !Sensitive(names, k) ==> Restores(names, false, false, v[k], Strip(e[k]))
      ensures Sensitive(names, k) && e[k] != MASK ==> Strip(e[k]) == v[k]
    {
      if Sensitive(names, k) {
        StripPlain(e[k]);
      } else {
        EntryRestored(names, v[k], e[k]);
      }
    }
  }

  lemma TypeComesBack(names: set<string>, v: map<string, JSON>, e: map<string, JSON>, kept: map<string, JSON>)
    requires AuthExport(names, v, e) && Stripped(e, kept) && !Sensitive(names, "auth_type")
    requires "auth_type" != "preflight_headers"
    ensures TypeRestored(v, WithAuthType(kept))
  {
    hide Sensitive, Restores, HeadersKept, ExportOfValue, Strip;
    if "auth_type" in v {
      var x, y := v["auth_type"], e["auth_type"];
      EntryRestored(names, x, y);
      if x.Str? || x.Null? { StripPlain(y); }
    }
  }

  lemma EntryRestored(names: set<string>, x: JSON, y: JSON)
    requires ExportOfValue(names, false, false, false, x, y)
    ensures y == MASK <==> x == Str("********")
    ensures Restores(names, false, false, x, Strip(y))
    ensures x.Str? || x.Null? ==> y == x
  {
    hide Restores, Free;
    StripRestores(names, false, false, false, x, y);
    KeptThere(names, false, false, false, x, y, []);
  }

  lemma PreflightComesBack(names: set<string>, was: map<string, JSON>, e: JSON)
    requires HeadersKept(names, false, false, was, e)
    ensures e != MASK && Strip(e).Obj? && PreflightRestored(names, was, Strip(e).fields)
  {
    hide Sensitive, SensitiveHeader, Strip;
    assert Strip(e).Obj? by { StripObj(e); }
    var w := Strip(e).fields;
    forall h | h in was && was[h].Str?
      ensures var hidden := was[h].text != "" && (Sensitive(names, h) || SensitiveHeader(h));
              if hidden || was[h].text == "********" then h !in w else h in w && w[h] == was[h]
    {
      assert HeaderKept(names, false, false, h, was[h], e.fields[h]);
      StripPlain(e.fields[h]);
      StripEntry(e, h);
    }
  }

  lemma StripObj(e: JSON)
    requires e.Obj?
    ensures Strip(e).Obj?
  {}

  lemma StripEntry(e: JSON, h: string)
    requires e.Obj? && h in e.fields
    ensures Strip(e).Obj? && (h in Strip(e).fields <==> e.fields[h] != MASK)
    ensures h in Strip(e).fields ==> Strip(e).fields[h] == Strip(e.fields[h])
  {}
}
