/**
 What masking and stripping guarantee: an export passes its own masking check, stripping leaves no
 placeholder behind and touches nothing else, and masking what was masked and stripped changes
 nothing any more.
 */
module BackupMasking {
  import opened Strings
  import opened BackupJson

  // ---- Stripping --------------------------------------------------------------------------------

  /** No dict value and no list item, at any depth, is the mask. */
  predicate MaskFree(j: JSON) {
    match j
    case Obj(fields) => forall k :: k in fields ==> fields[k] != MASK && MaskFree(fields[k])
    case Arr(items) => forall i :: 0 <= i < |items| ==> items[i] != MASK && MaskFree(items[i])
    case _ => true
  }

  lemma {:induction false} StripLeavesNoMask(j: JSON)
    ensures MaskFree(Strip(j)) && (Strip(j) == MASK <==> j == MASK)
  {
    match j
    case Obj(fields) =>
      forall k | k in fields && fields[k] != MASK ensures MaskFree(Strip(fields[k])) && Strip(fields[k]) != MASK {
        StripLeavesNoMask(fields[k]);
      }
    case Arr(items) =>
      var kept := DropMasks(items);
      forall i | 0 <= i < |kept| ensures MaskFree(Strip(kept[i])) && Strip(kept[i]) != MASK {
        assert kept[i] in items;
        StripLeavesNoMask(kept[i]);
      }
    case _ =>
  }

  lemma {:induction false} DropsNothing(items: seq<JSON>)
    requires MASK !in items
    ensures DropMasks(items) == items
  {
    if items != [] {
      DropsNothing(items[1..]);
    }
  }

  /** Stripping changes exactly the values that hold a mask somewhere. */
  lemma {:induction false} StripFixes(j: JSON)
    ensures Strip(j) == j <==> MaskFree(j)
  {
    StripLeavesNoMask(j);
    if MaskFree(j) {
      match j
      case Obj(fields) =>
        forall k | k in fields ensures Strip(fields[k]) == fields[k] {
          StripFixes(fields[k]);
        }
        assert Strip(j).fields == fields;
      case Arr(items) =>
        DropsNothing(items);
        forall i | 0 <= i < |items| ensures Strip(items[i]) == items[i] {
          StripFixes(items[i]);
        }
        assert Strip(j).items == items;
      case _ =>
    }
  }

  lemma StripIdempotent(j: JSON)
    ensures Strip(Strip(j)) == Strip(j)
  {
    StripLeavesNoMask(j);
    StripFixes(Strip(j));
  }

  // ---- Sensitive fields ---------------------------------------------------------------------------

  /** The outermost sensitive fields are blank or masked. */
  predicate SecretsMasked(names: set<string>, j: JSON) {
    match j
    case Obj(fields) =>
      forall k :: k in fields ==> if Sensitive(names, k) then Blank(fields[k]) || fields[k] == MASK
                                  else SecretsMasked(names, fields[k])
    case Arr(items) => forall i :: 0 <= i < |items| ==> SecretsMasked(names, items[i])
    case _ => true
  }

  predicate SecretsBlank(names: set<string>, j: JSON) {
    match j
    case Obj(fields) =>
      forall k :: k in fields ==> if Sensitive(names, k) then Blank(fields[k]) else SecretsBlank(names, fields[k])
    case Arr(items) => forall i :: 0 <= i < |items| ==> SecretsBlank(names, items[i])
    case _ => true
  }

  lemma {:induction j} MaskSecretsMasks(names: set<string>, j: JSON)
    ensures SecretsMasked(names, MaskSecrets(names, j))
  {}

  lemma {:induction j} RedactKeepsSecretsMasked(names: set<string>, j: JSON)
    requires SecretsMasked(names, j)
    ensures SecretsMasked(names, RedactPem(j))
  {}

  lemma MaskHeadersKeepsSecrets(names: set<string>, show: JSON -> string, all: bool, headers: map<string, JSON>)
    requires SecretsMasked(names, Obj(headers))
    ensures SecretsMasked(names, Obj(MaskHeaders(show, all, headers)))
  {
    hide Contains, Lower, SensitiveHeader;
  }

  lemma {:induction false} HeadersKeepSecretsMasked(names: set<string>, show: JSON -> string, all: bool, j: JSON)
    requires SecretsMasked(names, j)
    ensures SecretsMasked(names, MaskNestedHeaders(show, all, j))
  {
    hide MaskHeaders, Lower, Sensitive;
    match j
    case Obj(fields) =>
      forall k | k in fields && !Sensitive(names, k)
        ensures SecretsMasked(names, MaskNestedHeaders(show, all, fields[k]))
        ensures IsHeaders(k, fields[k]) ==> SecretsMasked(names, Obj(MaskHeaders(show, all, fields[k].fields)))
      {
        HeadersKeepSecretsMasked(names, show, all, fields[k]);
        if IsHeaders(k, fields[k]) {
          MaskHeadersKeepsSecrets(names, show, all, fields[k].fields);
        }
      }
    case Arr(items) =>
      forall i | 0 <= i < |items| ensures SecretsMasked(names, MaskNestedHeaders(show, all, items[i])) {
        HeadersKeepSecretsMasked(names, show, all, items[i]);
      }
    case _ =>
  }

  lemma {:induction false} StripBlanksSecrets(names: set<string>, j: JSON)
    requires SecretsMasked(names, j)
    ensures SecretsBlank(names, Strip(j))
  {
    match j
    case Obj(fields) =>
      forall k | k in fields && fields[k] != MASK && !Sensitive(names, k)
        ensures SecretsBlank(names, Strip(fields[k]))
      {
        StripBlanksSecrets(names, fields[k]);
      }
    case Arr(items) =>
      var kept := DropMasks(items);
      forall i | 0 <= i < |kept| ensures SecretsBlank(names, Strip(kept[i])) {
        assert kept[i] in items;
        StripBlanksSecrets(names, kept[i]);
      }
    case _ =>
  }

  lemma {:induction j} MaskedStays(names: set<string>, j: JSON)
    requires SecretsMasked(names, j)
    ensures MaskSecrets(names, j) == j
  {}

  lemma {:induction j} NothingToMask(names: set<string>, j: JSON)
    requires SecretsBlank(names, j)
    ensures SecretsMasked(names, j) && MaskSecrets(names, j) == j
  {}

  // ---- PEM ------------------------------------------------------------------------------------------

  predicate NoPem(j: JSON) {
    match j
    case Str(text) => !Pem(text)
    case Obj(fields) => forall k :: k in fields ==> NoPem(fields[k])
    case Arr(items) => forall i :: 0 <= i < |items| ==> NoPem(items[i])
    case _ => true
  }

  lemma {:induction j} RedactLeavesNoPem(j: JSON)
    ensures NoPem(RedactPem(j))
  {}

  lemma {:induction false} StripLeavesNoPem(j: JSON)
    requires NoPem(j)
    ensures NoPem(Strip(j))
  {
    match j
    case Obj(fields) =>
      forall k | k in fields && fields[k] != MASK ensures NoPem(Strip(fields[k])) {
        StripLeavesNoPem(fields[k]);
      }
    case Arr(items) =>
      var kept := DropMasks(items);
      forall i | 0 <= i < |kept| ensures NoPem(Strip(kept[i])) {
        assert kept[i] in items;
        StripLeavesNoPem(kept[i]);
      }
    case _ =>
  }

  lemma {:induction j} NothingToRedact(j: JSON)
    requires NoPem(j)
    ensures RedactPem(j) == j
  {}

  // ---- Headers --------------------------------------------------------------------------------------

  predicate HeaderSettled(all: bool, key: string, v: JSON) {
    v.Str? && MaskHeader(all, key, v.text) == v
  }

  predicate IsHeaders(key: string, v: JSON) {
    Lower(key) == "headers" && v.Obj?
  }

  predicate AllSettled(all: bool, headers: map<string, JSON>) {
    forall h :: h in headers ==> HeaderSettled(all, h, headers[h])
  }

  /** The values of every headers object are strings, and those to be masked are. */
  predicate HeadersSettled(all: bool, j: JSON) {
    match j
    case Obj(fields) =>
      forall k :: k in fields ==>
        if IsHeaders(k, fields[k]) then AllSettled(all, fields[k].fields)
        else HeadersSettled(all, fields[k])
    case Arr(items) => forall i :: 0 <= i < |items| ==> HeadersSettled(all, items[i])
    case _ => true
  }

  lemma {:induction j} MaskNestedHeadersSettles(show: JSON -> string, all: bool, j: JSON)
    ensures HeadersSettled(all, MaskNestedHeaders(show, all, j))
  {}

  lemma RedactKeepsSettled(all: bool, headers: map<string, JSON>)
    requires AllSettled(all, headers)
    ensures AllSettled(all, RedactPem(Obj(headers)).fields)
  {}

  lemma {:induction false} RedactKeepsHeaders(all: bool, j: JSON)
    requires HeadersSettled(all, j)
    ensures HeadersSettled(all, RedactPem(j))
  {
    hide AllSettled, Lower, Pem;
    match j
    case Obj(fields) =>
      forall k | k in fields
        ensures var v := RedactPem(fields[k]);
                if IsHeaders(k, v) then AllSettled(all, v.fields) else HeadersSettled(all, v)
      {
        if IsHeaders(k, fields[k]) {
          RedactKeepsSettled(all, fields[k].fields);
        } else {
          RedactKeepsHeaders(all, fields[k]);
        }
      }
    case Arr(items) =>
      forall i | 0 <= i < |items| ensures HeadersSettled(all, RedactPem(items[i])) {
        RedactKeepsHeaders(all, items[i]);
      }
    case _ =>
  }

  lemma StripKeepsSettled(all: bool, headers: map<string, JSON>)
    requires AllSettled(all, headers)
    ensures AllSettled(all, Strip(Obj(headers)).fields)
  {}

  lemma {:induction false} StripKeepsHeaders(all: bool, j: JSON)
    requires HeadersSettled(all, j)
    ensures HeadersSettled(all, Strip(j))
  {
    hide AllSettled, Lower;
    match j
    case Obj(fields) =>
      forall k | k in fields && fields[k] != MASK
        ensures var v := Strip(fields[k]);
                if IsHeaders(k, v) then AllSettled(all, v.fields) else HeadersSettled(all, v)
      {
        if IsHeaders(k, fields[k]) {
          StripKeepsSettled(all, fields[k].fields);
        } else {
          StripKeepsHeaders(all, fields[k]);
        }
      }
    case Arr(items) =>
      var kept := DropMasks(items);
      forall i | 0 <= i < |kept| ensures HeadersSettled(all, Strip(kept[i])) {
        assert kept[i] in items;
        StripKeepsHeaders(all, kept[i]);
      }
    case _ =>
  }

  lemma SettledStay(show: JSON -> string, all: bool, headers: map<string, JSON>)
    requires AllSettled(all, headers)
    ensures MaskHeaders(show, all, headers) == headers
  {}

  lemma {:induction false} HeadersStay(show: JSON -> string, all: bool, j: JSON)
    requires HeadersSettled(all, j)
    ensures MaskNestedHeaders(show, all, j) == j
  {
    hide AllSettled, Lower, MaskHeaders;
    match j
    case Obj(fields) =>
      forall k | k in fields
        ensures if IsHeaders(k, fields[k]) then MaskHeaders(show, all, fields[k].fields) == fields[k].fields
                else MaskNestedHeaders(show, all, fields[k]) == fields[k]
      {
        if IsHeaders(k, fields[k]) {
          SettledStay(show, all, fields[k].fields);
        } else {
          HeadersStay(show, all, fields[k]);
        }
      }
      assert MaskNestedHeaders(show, all, j).fields == fields;
    case Arr(items) =>
      forall i | 0 <= i < |items| ensures MaskNestedHeaders(show, all, items[i]) == items[i] {
        HeadersStay(show, all, items[i]);
      }
      assert MaskNestedHeaders(show, all, j).items == items;
    case _ =>
  }

  // ---- Masking what has been masked and stripped ------------------------------------------------------

  /** An export of an imported export masks nothing more. */
  lemma ConfigSettles(names: set<string>, show: JSON -> string, all: bool, j: JSON)
    ensures var kept := Strip(MaskConfig(names, show, all, j)); MaskConfig(names, show, all, kept) == kept
  {
    var secrets := MaskSecrets(names, j);
    var headers := MaskNestedHeaders(show, all, secrets);
    var masked := RedactPem(headers);
    MaskSecretsMasks(names, j);
    HeadersKeepSecretsMasked(names, show, all, secrets);
    RedactKeepsSecretsMasked(names, headers);
    StripBlanksSecrets(names, masked);
    NothingToMask(names, Strip(masked));
    MaskNestedHeadersSettles(show, all, secrets);
    RedactKeepsHeaders(all, headers);
    StripKeepsHeaders(all, masked);
    HeadersStay(show, all, Strip(masked));
    RedactLeavesNoPem(headers);
    StripLeavesNoPem(masked);
    NothingToRedact(Strip(masked));
  }

  lemma SecretsSettle(names: set<string>, j: JSON)
    ensures var kept := Strip(MaskSecrets(names, j)); MaskSecrets(names, kept) == kept
  {
    MaskSecretsMasks(names, j);
    StripBlanksSecrets(names, MaskSecrets(names, j));
    NothingToMask(names, Strip(MaskSecrets(names, j)));
  }

  // ---- Preflight headers of a source ------------------------------------------------------------------

  const PREFLIGHT := "preflight_headers"

  predicate HasPreflight(auth: map<string, JSON>) {
    PREFLIGHT in auth && auth[PREFLIGHT].Obj?
  }

  /** A null preflight header whose name is a sensitive field but not a sensitive header: masking
      leaves the null alone as a field, then prints it as a header value, "None". */
  predicate PrintsNull(names: set<string>, auth: map<string, JSON>) {
    HasPreflight(auth) &&
    exists h ::
      h in auth[PREFLIGHT].fields && auth[PREFLIGHT].fields[h] == Null && Sensitive(names, h) && !SensitiveHeader(h)
  }

  function PrintedHeaders(names: set<string>, show: JSON -> string, headers: map<string, JSON>): map<string, JSON> {
    var masked := MaskSecrets(names, Obj(headers)).fields;
    map k | k in masked :: MaskHeader(false, k, Text(show, masked[k]))
  }

  lemma PrintedHeadersMasked(names: set<string>, show: JSON -> string, auth: map<string, JSON>)
    requires HasPreflight(auth) && !PrintsNull(names, auth)
    ensures SecretsMasked(names, Obj(PrintedHeaders(names, show, auth[PREFLIGHT].fields)))
    ensures AllSettled(false, PrintedHeaders(names, show, auth[PREFLIGHT].fields))
  {
    hide SensitiveHeader, Sensitive;
  }

  lemma MaskAuthMasks(names: set<string>, show: JSON -> string, auth: map<string, JSON>)
    requires !Sensitive(names, PREFLIGHT) && !PrintsNull(names, auth)
    ensures var masked := MaskAuth(names, show, auth);
      SecretsMasked(names, Obj(masked)) && (HasPreflight(masked) ==> AllSettled(false, masked[PREFLIGHT].fields))
  {
    hide SensitiveHeader, Sensitive;
    var masked := MaskSecrets(names, Obj(auth)).fields;
    MaskSecretsMasks(names, Obj(auth));
    if PREFLIGHT in masked && masked[PREFLIGHT].Obj? {
      assert masked[PREFLIGHT] == MaskSecrets(names, auth[PREFLIGHT]);
      assert MaskAuth(names, show, auth) == masked[PREFLIGHT := Obj(PrintedHeaders(names, show,
          auth[PREFLIGHT].fields))];
      PrintedHeadersMasked(names, show, auth);
    }
  }

  /** A source's `auth_json`, exported, stripped and given a default `auth_type`, is exported
      unchanged. */
  lemma AuthStays(names: set<string>, show: JSON -> string, auth: map<string, JSON>)
    requires !Sensitive(names, PREFLIGHT) && SecretsBlank(names, Obj(auth))
    requires HasPreflight(auth) ==> AllSettled(false, auth[PREFLIGHT].fields)
    ensures MaskAuth(names, show, auth) == auth
  {
    hide SensitiveHeader, Sensitive;
    NothingToMask(names, Obj(auth));
    assert MaskSecrets(names, Obj(auth)).fields == auth;
    if HasPreflight(auth) {
      var headers := auth[PREFLIGHT].fields;
      assert (map k | k in headers :: MaskHeader(false, k, Text(show, headers[k]))) == headers;
    }
  }

  // ---- The export's own masking check (app/backup/export_validation.py) -------------------------------

  datatype Step = Key(key: string) | Item(index: nat)

  datatype Found = Nothing | Found(value: JSON)

  /** What a path of keys and positions leads to. */
  function Follow(j: JSON, path: seq<Step>): Found {
    if path == [] then Found(j)
    else match path[0]
      case Key(key) => if j.Obj? && key in j.fields then Follow(j.fields[key], path[1..]) else Nothing
      case Item(index) => if j.Arr? && index < |j.items| then Follow(j.items[index], path[1..]) else Nothing
  }

  /** The check compares names in lower case only. */
  predicate Named(names: set<string>, key: string) {
    Lower(key) in names
  }

  /** `_sensitive_leaf_values`: values with their paths. */
  function SensitiveLeafValues(names: set<string>, j: JSON): set<(seq<Step>, JSON)> {
    match j
    case Obj(fields) =>
      (set k | k in fields && Named(names, k) :: ([Key(k)], fields[k]))
      + (set k, leaf | k in fields && !Named(names, k) && leaf in SensitiveLeafValues(names, fields[k]) ::
          ([Key(k)] + leaf.0, leaf.1))
    case Arr(items) =>
      set i: nat, leaf | i < |items| && leaf in SensitiveLeafValues(names, items[i]) :: ([Item(i)] + leaf.0, leaf.1)
    case _ => {}
  }

  /** The path ends at a sensitive key and passes none before. */
  predicate Outermost(names: set<string>, path: seq<Step>) {
    && path != []
    && path[|path| - 1].Key? && Named(names, path[|path| - 1].key)
    && forall i :: 0 <= i < |path| - 1 && path[i].Key? ==> !Named(names, path[i].key)
  }

  lemma OutermostStep(names: set<string>, first: Step, rest: seq<Step>)
    ensures Outermost(names, [first] + rest) <==>
              if first.Key? && Named(names, first.key) then rest == [] else Outermost(names, rest)
  {
    var path := [first] + rest;
    if rest != [] {
      assert path[|path| - 1] == rest[|rest| - 1];
      if Outermost(names, path) && !(first.Key? && Named(names, first.key)) {
        forall i | 0 <= i < |rest| - 1 && rest[i].Key? ensures !Named(names, rest[i].key) {
          assert path[i + 1] == rest[i];
        }
      }
      if first.Key? && Named(names, first.key) {
        assert path[0] == first;
      }
    }
  }

  lemma LeafStep(names: set<string>, j: JSON, first: Step, rest: seq<Step>, v: JSON)
    ensures ([first] + rest, v) in SensitiveLeafValues(names, j) <==>
      if first.Key? then
        j.Obj? && first.key in j.fields &&
        (if Named(names, first.key) then rest == [] && v == j.fields[first.key]
         else (rest, v) in SensitiveLeafValues(names, j.fields[first.key]))
      else j.Arr? && first.index < |j.items| && (rest, v) in SensitiveLeafValues(names, j.items[first.index])
  {
    var path := [first] + rest;
    assert path[0] == first && path[1..] == rest;
    if (path, v) in SensitiveLeafValues(names, j) {
      match j
      case Obj(fields) =>
        if k, leaf :| k in fields && !Named(names, k) && leaf in SensitiveLeafValues(names, fields[k])
                      && ([Key(k)] + leaf.0, leaf.1) == (path, v) {
          assert ([Key(k)] + leaf.0)[0] == Key(k) && ([Key(k)] + leaf.0)[1..] == leaf.0;
        } else {
          var k :| k in fields && Named(names, k) && ([Key(k)], fields[k]) == (path, v);
          assert [Key(k)][0] == Key(k) && [Key(k)][1..] == [];
        }
      case Arr(items) =>
        var i: nat, leaf :| i < |items| && leaf in SensitiveLeafValues(names, items[i])
            && ([Item(i)] + leaf.0, leaf.1) == (path, v);
        assert ([Item(i)] + leaf.0)[0] == Item(i) && ([Item(i)] + leaf.0)[1..] == leaf.0;
      case _ =>
    } else {
      var leaf := (rest, v);
      assert ([first] + leaf.0, leaf.1) == (path, v);
      assert rest == [] ==> path == [first];
      if first.Key? && j.Obj? && first.key in j.fields && Named(names, first.key) && rest == [] {
        assert ([Key(first.key)], j.fields[first.key]) == (path, j.fields[first.key]);
      }
    }
  }

  /** The check looks at every outermost sensitive field, wherever it is, and at nothing else. */
  lemma {:induction false} LeavesAreOutermost(names: set<string>, j: JSON, path: seq<Step>, v: JSON)
    ensures (path, v) in SensitiveLeafValues(names, j) <==> Outermost(names, path) && Follow(j, path) == Found(v)
    decreases |path|
  {
    hide SensitiveLeafValues, Outermost;
    if path == [] {
      NoEmptyLeaf(names, j, v);
    } else {
      var first, rest := path[0], path[1..];
      assert path == [first] + rest;
      LeafStep(names, j, first, rest, v);
      OutermostStep(names, first, rest);
      match first
      case Key(key) =>
        if j.Obj? && key in j.fields {
          LeavesAreOutermost(names, j.fields[key], rest, v);
        }
      case Item(index) =>
        if j.Arr? && index < |j.items| {
          LeavesAreOutermost(names, j.items[index], rest, v);
        }
    }
  }

  lemma NoEmptyLeaf(names: set<string>, j: JSON, v: JSON)
    ensures ([], v) !in SensitiveLeafValues(names, j) && !Outermost(names, [])
  {}

  /** A value the check reports. */
  predicate Leaks(show: JSON -> string, v: JSON) {
    !Blank(v) && v != MASK && Trim(Text(show, v)) != "********"
  }

  /** No sensitive field of a JSON column is reported. */
  predicate FieldsPass(names: set<string>, show: JSON -> string, j: JSON) {
    j.Obj? ==> forall leaf :: leaf in SensitiveLeafValues(names, j) ==> !Leaks(show, leaf.1)
  }

  /** That is: every outermost sensitive field, at any depth, is blank or the mask, blanks around the
      mask aside. */
  lemma FieldsPassExactly(names: set<string>, show: JSON -> string, j: JSON)
    requires j.Obj?
    ensures FieldsPass(names, show, j) <==>
      forall path, v :: Outermost(names, path) && Follow(j, path) == Found(v) ==>
        Blank(v) || v == MASK || Trim(Text(show, v)) == "********"
  {
    hide SensitiveLeafValues, Outermost, Follow, Trim;
    forall path, v
      ensures (path, v) in SensitiveLeafValues(names, j) <==> Outermost(names, path) && Follow(j, path) == Found(v)
    {
      LeavesAreOutermost(names, j, path, v);
    }
    if FieldsPass(names, show, j) {
      forall path, v | Outermost(names, path) && Follow(j, path) == Found(v) ensures !Leaks(show, v) {
        var leaf := (path, v);
        assert leaf in SensitiveLeafValues(names, j);
      }
    } else {
      var leaf :| leaf in SensitiveLeafValues(names, j) && Leaks(show, leaf.1);
      assert (leaf.0, leaf.1) == leaf;
      assert Outermost(names, leaf.0) && Follow(j, leaf.0) == Found(leaf.1);
    }
  }

  predicate CheckedPreflightHeader(key: string) {
    var lk := Replace(Lower(key), '_', '-');
    || lk == "authorization" || lk == "cookie" || lk == "x-api-key"
    || Contains(lk, "secret") || Contains(lk, "token") || Contains(lk, "password")
  }

  predicate HeaderReported(show: JSON -> string, v: JSON) {
    Leaks(show, v) && Trim(Text(show, v)) != ""
  }

  /** `_preflight_headers_leak` finds nothing. */
  predicate PreflightPasses(show: JSON -> string, auth: map<string, JSON>) {
    HasPreflight(auth) ==>
      forall h :: h in auth[PREFLIGHT].fields && CheckedPreflightHeader(h) ==>
          !HeaderReported(show, auth[PREFLIGHT].fields[h])
  }

  /** `_webhook_headers_leak` finds nothing. */
  predicate WebhookPasses(show: JSON -> string, j: JSON) {
    j.Obj? && "headers" in j.fields && j.fields["headers"].Obj? ==>
      forall h :: h in j.fields["headers"].fields ==> !HeaderReported(show, j.fields["headers"].fields[h])
  }

  /** The names are spelled as masking normalizes them. */
  predicate Underscored(names: set<string>) {
    forall name :: name in names ==> '-' !in name
  }

  lemma ReplaceNothing(s: string)
    requires '-' !in s
    ensures Replace(s, '-', '_') == s
  {}

  lemma {:induction false} MaskedFieldsPass(names: set<string>, show: JSON -> string, j: JSON)
    requires Underscored(names) && SecretsMasked(names, j)
    ensures forall leaf :: leaf in SensitiveLeafValues(names, j) ==> !Leaks(show, leaf.1)
  {
    hide Leaks, Trim, Lower;
    match j
    case Obj(fields) =>
      forall k | k in fields
        ensures if Named(names, k) then !Leaks(show, fields[k])
                else forall leaf :: leaf in SensitiveLeafValues(names, fields[k]) ==> !Leaks(show, leaf.1)
      {
        if Named(names, k) {
          ReplaceNothing(Lower(k));
          assert Blank(fields[k]) || fields[k] == MASK;
          BlankPasses(show, fields[k]);
        } else {
          if Sensitive(names, k) {
            assert SensitiveLeafValues(names, fields[k]) == {};
          } else {
            MaskedFieldsPass(names, show, fields[k]);
          }
        }
      }
    case Arr(items) =>
      forall i | 0 <= i < |items|
        ensures forall leaf :: leaf in SensitiveLeafValues(names, items[i]) ==> !Leaks(show, leaf.1)
      {
        MaskedFieldsPass(names, show, items[i]);
      }
    case _ =>
  }

  lemma BlankPasses(show: JSON -> string, v: JSON)
    requires Blank(v) || v == MASK
    ensures !Leaks(show, v)
  {}

  lemma CheckedIsSensitive(key: string)
    requires CheckedPreflightHeader(key)
    ensures SensitiveHeader(key)
  {
    var lk := Lower(key);
    var low := Replace(lk, '_', '-');
    if low == "authorization" || low == "cookie" {
      assert '-' !in low;
      forall i | 0 <= i < |lk| ensures lk[i] == low[i] {
        assert low[i] in low;
      }
      assert lk == low;
    } else if low == "x-api-key" {
      assert low[2..] == "api-key";
      assert Contains(low, "api-key");
    } else {
      SamePlace(lk, low, "secret");
      SamePlace(lk, low, "token");
      SamePlace(lk, low, "password");
    }
  }

  /** Words without a dash are found in a text whether or not its underscores became dashes. */
  lemma SamePlace(lk: string, low: string, word: string)
    requires low == Replace(lk, '_', '-') && '-' !in word
    ensures Contains(low, word) ==> Contains(lk, word)
  {
    if Contains(low, word) {
      var i :| 0 <= i <= |low| && word <= low[i..];
      forall k | 0 <= k < |word| ensures lk[i..][k] == word[k] {
        assert word[k] in word && low[i..][k] == word[k];
      }
      assert word <= lk[i..];
    }
  }

  /** What the exporter writes passes the exporter's own check, but for nulls it prints as "None"
      among the preflight headers. */
  lemma ConfigPasses(names: set<string>, show: JSON -> string, all: bool, j: JSON)
    requires Underscored(names)
    ensures FieldsPass(names, show, MaskConfig(names, show, all, j))
    ensures all ==> WebhookPasses(show, MaskConfig(names, show, all, j))
  {
    var secrets := MaskSecrets(names, j);
    var headers := MaskNestedHeaders(show, all, secrets);
    MaskSecretsMasks(names, j);
    HeadersKeepSecretsMasked(names, show, all, secrets);
    RedactKeepsSecretsMasked(names, headers);
    MaskedFieldsPass(names, show, RedactPem(headers));
    MaskNestedHeadersSettles(show, all, secrets);
    RedactKeepsHeaders(all, headers);
    if all {
      SettledWebhookPasses(show, RedactPem(headers));
    }
  }

  lemma SettledWebhookPasses(show: JSON -> string, j: JSON)
    requires HeadersSettled(true, j)
    ensures WebhookPasses(show, j)
  {
    if j.Obj? && "headers" in j.fields && j.fields["headers"].Obj? {
      assert Lower("headers") == "headers";
      var headers := j.fields["headers"].fields;
      forall h | h in headers ensures !HeaderReported(show, headers[h]) {
        assert HeaderSettled(true, h, headers[h]);
        if headers[h] != MASK {
          TrimsToNothing(headers[h].text);
        }
      }
    }
  }

  lemma SecretsPass(names: set<string>, show: JSON -> string, j: JSON)
    requires Underscored(names)
    ensures FieldsPass(names, show, MaskSecrets(names, j)) && FieldsPass(names, show, MaskSecretsAndPem(names, j))
  {
    MaskSecretsMasks(names, j);
    RedactKeepsSecretsMasked(names, MaskSecrets(names, j));
    MaskedFieldsPass(names, show, MaskSecrets(names, j));
    MaskedFieldsPass(names, show, MaskSecretsAndPem(names, j));
  }

  /** A null preflight header that the check looks for by its name and masking does not hide. */
  predicate LeaksNull(names: set<string>, auth: map<string, JSON>) {
    HasPreflight(auth) &&
    exists h ::
      h in auth[PREFLIGHT].fields && auth[PREFLIGHT].fields[h] == Null && Named(names, h) && !SensitiveHeader(h)
  }

  lemma PrintedFieldsPass(names: set<string>, show: JSON -> string, headers: map<string, JSON>)
    requires Underscored(names)
    requires forall h :: h in headers && headers[h] == Null && Named(names, h) ==> SensitiveHeader(h)
    ensures forall leaf :: leaf in SensitiveLeafValues(names, Obj(PrintedHeaders(names, show, headers))) ==>
        !Leaks(show, leaf.1)
  {
    hide SensitiveHeader, Lower, Trim, Leaks;
    var printed := PrintedHeaders(names, show, headers);
    forall h | h in printed ensures printed[h].Str? && SensitiveLeafValues(names, printed[h]) == {} {}
    forall leaf | leaf in SensitiveLeafValues(names, Obj(printed)) ensures !Leaks(show, leaf.1) {
      var h :| h in printed && Named(names, h) && leaf == ([Key(h)], printed[h]);
      ReplaceNothing(Lower(h));
      BlankPasses(show, printed[h]);
    }
  }

  /** A field may be replaced by one that passes. */
  lemma ReplacedFieldPasses(names: set<string>, show: JSON -> string, fields: map<string, JSON>, k: string, v: JSON)
    requires FieldsPass(names, show, Obj(fields)) && !Named(names, k)
    requires forall leaf :: leaf in SensitiveLeafValues(names, v) ==> !Leaks(show, leaf.1)
    ensures FieldsPass(names, show, Obj(fields[k := v]))
  {
    hide Leaks, Named;
    var after := fields[k := v];
    forall leaf | leaf in SensitiveLeafValues(names, Obj(after)) ensures !Leaks(show, leaf.1) {
      if h :| h in after && Named(names, h) && leaf == ([Key(h)], after[h]) {
        assert leaf in SensitiveLeafValues(names, Obj(fields));
      } else {
        var h, inner :| h in after && !Named(names, h) && inner in SensitiveLeafValues(names, after[h])
                        && leaf == ([Key(h)] + inner.0, inner.1);
        if h != k {
          assert inner in SensitiveLeafValues(names, fields[h]);
          assert leaf in SensitiveLeafValues(names, Obj(fields));
        }
      }
    }
  }

  lemma MaskedAuthPasses(names: set<string>, show: JSON -> string, auth: map<string, JSON>)
    requires Underscored(names) && !Sensitive(names, PREFLIGHT) && !LeaksNull(names, auth)
    ensures FieldsPass(names, show, Obj(MaskAuth(names, show, auth)))
  {
    hide SensitiveHeader, Sensitive, SensitiveLeafValues, Named, Leaks, Underscored;
    var base := MaskSecrets(names, Obj(auth)).fields;
    MaskSecretsMasks(names, Obj(auth));
    MaskedFieldsPass(names, show, Obj(base));
    NotNamed(names);
    if PREFLIGHT in base && base[PREFLIGHT].Obj? {
      assert base[PREFLIGHT] == MaskSecrets(names, auth[PREFLIGHT]);
      var printed := PrintedHeaders(names, show, auth[PREFLIGHT].fields);
      assert MaskAuth(names, show, auth) == base[PREFLIGHT := Obj(printed)];
      PrintedFieldsPass(names, show, auth[PREFLIGHT].fields);
      ReplacedFieldPasses(names, show, base, PREFLIGHT, Obj(printed));
    }
  }

  lemma MaskedPreflightPasses(names: set<string>, show: JSON -> string, auth: map<string, JSON>)
    requires !Sensitive(names, PREFLIGHT)
    ensures PreflightPasses(show, MaskAuth(names, show, auth))
  {
    hide Trim, SensitiveHeader, CheckedPreflightHeader, Sensitive;
    var masked := MaskAuth(names, show, auth);
    if HasPreflight(masked) {
      var headers := masked[PREFLIGHT].fields;
      forall h | h in headers && CheckedPreflightHeader(h) ensures !HeaderReported(show, headers[h]) {
        CheckedIsSensitive(h);
        assert headers[h] == MASK || headers[h] == Str("");
      }
    }
  }

  /** Masked credentials pass the check exactly when no null preflight header has a name that the check
      looks for and masking does not hide. */
  lemma AuthPasses(names: set<string>, show: JSON -> string, auth: map<string, JSON>)
    requires Underscored(names) && !Sensitive(names, PREFLIGHT) && show(Null) == "None"
    ensures var masked := MaskAuth(names, show, auth);
      FieldsPass(names, show, Obj(masked)) && PreflightPasses(show, masked) <==> !LeaksNull(names, auth)
  {
    hide FieldsPass, PreflightPasses, MaskAuth, Sensitive, SensitiveHeader, Named;
    MaskedPreflightPasses(names, show, auth);
    if LeaksNull(names, auth) {
      var h :| h in auth[PREFLIGHT].fields && auth[PREFLIGHT].fields[h] == Null && Named(names, h)
          && !SensitiveHeader(h);
      PrintedNullReported(names, show, auth, h);
    } else {
      MaskedAuthPasses(names, show, auth);
    }
  }

  lemma NullIsPrinted(names: set<string>, show: JSON -> string, auth: map<string, JSON>, h: string)
    requires !Sensitive(names, PREFLIGHT) && show(Null) == "None"
    requires HasPreflight(auth) && h in auth[PREFLIGHT].fields && auth[PREFLIGHT].fields[h] == Null
    requires Sensitive(names, h) && !SensitiveHeader(h)
    ensures var masked := MaskAuth(names, show, auth);
      HasPreflight(masked) && h in masked[PREFLIGHT].fields && masked[PREFLIGHT].fields[h] == Str("None")
  {
    hide SensitiveHeader, Sensitive, Contains;
    assert MaskSecrets(names, auth[PREFLIGHT]).fields[h] == Null;
  }

  /** ... and such a null is reported: a source with one never exports cleanly. */
  lemma PrintedNullReported(names: set<string>, show: JSON -> string, auth: map<string, JSON>, h: string)
    requires Underscored(names) && !Sensitive(names, PREFLIGHT) && show(Null) == "None"
    requires HasPreflight(auth) && h in auth[PREFLIGHT].fields && auth[PREFLIGHT].fields[h] == Null
    requires Named(names, h) && !SensitiveHeader(h)
    ensures !FieldsPass(names, show, Obj(MaskAuth(names, show, auth)))
  {
    hide SensitiveHeader, Lower, MaskAuth, SensitiveLeafValues, Leaks;
    var masked := MaskAuth(names, show, auth);
    ReplaceNothing(Lower(h));
    NullIsPrinted(names, show, auth, h);
    NotNamed(names);
    var path := [Key(PREFLIGHT), Key(h)];
    assert path[1..] == [Key(h)] && path[1..][1..] == [];
    assert Follow(masked[PREFLIGHT], [Key(h)]) == Found(Str("None"));
    LeavesAreOutermost(names, Obj(masked), path, Str("None"));
    NoneLeaks(show);
  }

  lemma NoneLeaks(show: JSON -> string)
    ensures Leaks(show, Str("None"))
  {
    var none := "None";
    assert none[..1][0] == 'N' && none[3..][0] == 'e';
    assert TrimLeft(none) == none && TrimRight(none) == none;
  }

  lemma NotNamed(names: set<string>)
    requires Underscored(names) && !Sensitive(names, PREFLIGHT)
    ensures !Named(names, PREFLIGHT)
  {
    if Named(names, PREFLIGHT) {
      ReplaceNothing(Lower(PREFLIGHT));
    }
  }
}
