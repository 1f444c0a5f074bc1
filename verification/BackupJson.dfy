/**
 JSON values, the masking that exports apply to them, and the stripping of mask placeholders that
 imports apply.

 `names` is the set of sensitive field names, `show` is Python's `str` on values that are not
 strings.
 */
module BackupJson {
  import opened Strings

  datatype JSON =
    | Null
    | Bool(value: bool)
    | Num(number: int)
    | Str(text: string)
    | Arr(items: seq<JSON>)
    | Obj(fields: map<string, JSON>)

  const MASK := Str("********")

  predicate Truthy(j: JSON) {
    match j
    case Null => false
    case Bool(value) => value
    case Num(number) => number != 0
    case Str(text) => text != ""
    case Arr(items) => items != []
    case Obj(fields) => fields != map[]
  }

  /** `v in (None, "")` */
  predicate Blank(j: JSON) {
    j == Null || j == Str("")
  }

  // ---- Masking (app/security/secrets.py) --------------------------------------------------------

  predicate Sensitive(names: set<string>, key: string) {
    Replace(Lower(key), '-', '_') in names
  }

  function MaskSecrets(names: set<string>, j: JSON): JSON {
    match j
    case Obj(fields) =>
      Obj(map k | k in fields :: if Sensitive(names, k) then (if Blank(fields[k]) then fields[k] else MASK)
                                 else MaskSecrets(names, fields[k]))
    case Arr(items) => Arr(seq(|items|, i requires 0 <= i < |items| => MaskSecrets(names, items[i])))
    case _ => j
  }

  predicate Pem(s: string) {
    Contains(s, "-----BEGIN") && Contains(s, "-----END")
  }

  function RedactPem(j: JSON): JSON {
    match j
    case Str(text) => if Pem(text) then MASK else j
    case Obj(fields) => Obj(map k | k in fields :: RedactPem(fields[k]))
    case Arr(items) => Arr(seq(|items|, i requires 0 <= i < |items| => RedactPem(items[i])))
    case _ => j
  }

  predicate SensitiveHeader(key: string) {
    var lk := Lower(key);
    var low := Replace(lk, '_', '-');
    || lk == "authorization" || lk == "cookie" || lk == "set-cookie" || lk == "x-api-key"
    || Contains(lk, "secret")
    || EndsWith(low, "-token") || Contains(lk, "token") || Contains(lk, "password")
    || Contains(low, "api-key") || EndsWith(low, "apikey") || Contains(lk, "api_key")
  }

  function Text(show: JSON -> string, j: JSON): string {
    if j.Str? then j.text else show(j)
  }

  /** One header value, already a string. */
  function MaskHeader(all: bool, key: string, text: string): JSON {
    if all then (if AllBlank(text) then Str(text) else MASK)
    else if SensitiveHeader(key) && text != "" then MASK
    else Str(text)
  }

  function MaskHeaders(show: JSON -> string, all: bool, headers: map<string, JSON>): map<string, JSON> {
    map k | k in headers :: MaskHeader(all, k, if headers[k] == Null then "" else Text(show, headers[k]))
  }

  function MaskNestedHeaders(show: JSON -> string, all: bool, j: JSON): JSON {
    match j
    case Obj(fields) =>
      Obj(map k | k in fields ::
          if Lower(k) == "headers" && fields[k].Obj? then Obj(MaskHeaders(show, all, fields[k].fields))
                                 else MaskNestedHeaders(show, all, fields[k]))
    case Arr(items) => Arr(seq(|items|, i requires 0 <= i < |items| => MaskNestedHeaders(show, all, items[i])))
    case _ => j
  }

  /** `mask_config_payload` */
  function MaskConfig(names: set<string>, show: JSON -> string, all: bool, j: JSON): JSON {
    RedactPem(MaskNestedHeaders(show, all, MaskSecrets(names, j)))
  }

  function MaskSecretsAndPem(names: set<string>, j: JSON): JSON {
    RedactPem(MaskSecrets(names, j))
  }

  /** `_mask_source_auth_json` (app/backup/export_builder.py). */
  function MaskAuth(names: set<string>, show: JSON -> string, auth: map<string, JSON>): map<string, JSON> {
    var masked := MaskSecrets(names, Obj(auth)).fields;
    if "preflight_headers" in masked && masked["preflight_headers"].Obj? then
      var headers := masked["preflight_headers"].fields;
      masked["preflight_headers" := Obj(map k | k in headers :: MaskHeader(false, k, Text(show, headers[k])))]
    else masked
  }

  // ---- Stripping (app/backup/service.py) --------------------------------------------------------

  function DropMasks(items: seq<JSON>): (kept: seq<JSON>)
    ensures forall x :: x in kept <==> x in items && x != MASK
  {
    if items == [] then []
    else if items[0] == MASK then DropMasks(items[1..])
    else [items[0]] + DropMasks(items[1..])
  }

  /** `_strip_mask_placeholders` */
  function Strip(j: JSON): JSON {
    match j
    case Obj(fields) => Obj(map k | k in fields && fields[k] != MASK :: Strip(fields[k]))
    case Arr(items) =>
      var kept := DropMasks(items);
      Arr(seq(|kept|, i requires 0 <= i < |kept| => assert kept[i] in items; Strip(kept[i])))
    case _ => j
  }
}
