/**
 The curl command parser: its token loop, proved to read a command as a sequence of option groups,
 and what follows: the order of the groups does not matter, and a GET carries no body.

 Splitting the command line into tokens, splitting URLs, decoding query strings and JSON, and
 base64 are parameters.
 */
module CurlParser {
  import opened Options
  import opened Strings

  datatype Body = NoBody | Json(text: string) | Raw(text: string)

  /** `parse_qs` for URLs and for `-G` data, base64 of basic credentials, and whether a text is JSON. */
  datatype Env = Env(
    urlParams: string -> map<string, string>,
    dataParams: string -> map<string, string>,
    basic: string -> string,
    isJson: string -> bool)

  // ---- Tokens -----------------------------------------------------------------------------------------

  datatype Class = RequestFlag | HeaderFlag | DataFlag | GetFlag | UserFlag | OtherOption | UrlToken | SkippedToken

  predicate LooksLikeUrl(token: string) {
    var t := Trim(token);
    "http://" <= t || "https://" <= t || "$" <= t
  }

  /** How the loop takes a token. Names are compared in lower case, so `-x` sets the method and `-g`
      is `--get`; an unlisted option takes the next token with it, whether or not it has a value. */
  function ClassOf(token: string): Class {
    var low := Lower(token);
    if low == "-x" || low == "--request" then RequestFlag
    else if low == "-h" || low == "--header" then HeaderFlag
    else if low == "-d" || low == "--data" || low == "--data-raw" || low == "--data-binary"
        || low == "--data-urlencode" then DataFlag
    else if low == "-g" || low == "--get" then GetFlag
    else if low == "-u" || low == "--user" then UserFlag
    else if "-" <= low && !(low == "-k" || low == "-s" || low == "-l" || low == "-i" || low == "-v"
        || low == "--compressed" || low == "--location")
      then OtherOption
    else if LooksLikeUrl(token) then UrlToken
    else SkippedToken
  }

  predicate TakesValue(c: Class) {
    c == RequestFlag || c == HeaderFlag || c == DataFlag || c == UserFlag || c == OtherOption
  }

  // ---- Option groups ----------------------------------------------------------------------------------

  /** What the loop consumes in one round: an option with its value, a token on its own, or an option
      at the very end, without the value it wants. */
  datatype Group = Valued(flag: string, value: string) | Single(token: string) | Dangling(flag: string)

  function GroupsOf(tokens: seq<string>): seq<Group> {
    if tokens == [] then []
    else if !TakesValue(ClassOf(tokens[0])) then [Single(tokens[0])] + GroupsOf(tokens[1..])
    else if |tokens| == 1 then [Dangling(tokens[0])]
    else [Valued(tokens[0], tokens[1])] + GroupsOf(tokens[2..])
  }

  function TokensOf(g: Group): seq<string> {
    match g
    case Valued(flag, value) => [flag, value]
    case Single(token) => [token]
    case Dangling(flag) => [flag]
  }

  function Flatten(groups: seq<Group>): seq<string> {
    if groups == [] then [] else TokensOf(groups[0]) + Flatten(groups[1..])
  }

  /** A complete group, as written on a command line. */
  predicate Complete(g: Group) {
    match g
    case Valued(flag, _) => TakesValue(ClassOf(flag))
    case Single(token) => !TakesValue(ClassOf(token))
    case Dangling(_) => false
  }

  /** Every command line is its groups ... */
  lemma {:induction false} FlattenGroups(tokens: seq<string>)
    ensures Flatten(GroupsOf(tokens)) == tokens
    decreases |tokens|
  {
    hide ClassOf;
    if tokens != [] {
      if !TakesValue(ClassOf(tokens[0])) {
        FlattenGroups(tokens[1..]);
      } else if |tokens| > 1 {
        FlattenGroups(tokens[2..]);
        assert tokens == [tokens[0], tokens[1]] + tokens[2..];
      }
    }
  }

  /** ... and complete groups are read back as they were written. */
  lemma {:induction false} GroupsFlattened(groups: seq<Group>)
    requires forall g :: g in groups ==> Complete(g)
    ensures GroupsOf(Flatten(groups)) == groups
  {
    hide ClassOf;
    if groups != [] {
      var g, rest := groups[0], Flatten(groups[1..]);
      assert g in groups;
      GroupsFlattened(groups[1..]);
      var tokens := Flatten(groups);
      assert tokens[|TokensOf(g)|..] == rest;
    }
  }

  // ---- What a group does ------------------------------------------------------------------------------

  datatype Draft = Draft(
    verb: string,
    url: Option<string>,
    headers: map<string, string>,
    data: seq<string>,
    getWithData: bool)

  const EmptyDraft := Draft("GET", None, map[], [], false)

  function IndexOf(s: string, c: char): nat
    ensures IndexOf(s, c) <= |s|
    ensures IndexOf(s, c) < |s| ==> s[IndexOf(s, c)] == c
  {
    if s == "" then 0 else if s[0] == c then 0 else 1 + IndexOf(s[1..], c)
  }

  function Unquoted(token: string): string {
    UnquoteRight(UnquoteLeft(Trim(token)))
  }

  function UnquoteLeft(s: string): string {
    if s != "" && (s[0] == '\'' || s[0] == '"') then UnquoteLeft(s[1..]) else s
  }

  function UnquoteRight(s: string): string {
    if s != "" && (s[|s| - 1] == '\'' || s[|s| - 1] == '"') then UnquoteRight(s[..|s| - 1]) else s
  }

  /** The header a group sets, if any. */
  function HeaderOf(env: Env, g: Group): Option<(string, string)> {
    if !g.Valued? then None
    else if ClassOf(g.flag) == HeaderFlag then
      var at := IndexOf(g.value, ':');
      if at < |g.value| then Some((Trim(g.value[..at]), Trim(g.value[at + 1..]))) else None
    else if ClassOf(g.flag) == UserFlag && g.value != "" then
      var at := IndexOf(g.value, ':');
      var user, password := g.value[..at], if at < |g.value| then g.value[at + 1..] else "";
      if user != "" then Some(("Authorization", "Basic " + env.basic(user + ":" + password))) else None
    else None
  }

  function Apply(env: Env, draft: Draft, g: Group): Draft {
    match HeaderOf(env, g)
    case Some(header) => draft.(headers := draft.headers[header.0 := header.1])
    case None =>
      match g
      case Valued(flag, value) =>
        (match ClassOf(flag)
         case RequestFlag => if value != "" then draft.(verb := Upper(value)) else draft
         case DataFlag => draft.(data := draft.data + [value])
         case _ => draft)
      case Single(token) =>
        (match ClassOf(token)
         case GetFlag => draft.(getWithData := true)
         case UrlToken => draft.(url := Some(Unquoted(token)))
         case _ => draft)
      case Dangling(_) => draft
  }

  function ApplyAll(env: Env, groups: seq<Group>): Draft {
    if groups == [] then EmptyDraft else Apply(env, ApplyAll(env, groups[..|groups| - 1]), groups[|groups| - 1])
  }

  // ---- The request ------------------------------------------------------------------------------------

  datatype Parsed =
    | NoUrl
    | Parsed(verb: string, url: string, params: map<string, string>, headers: map<string, string>, body: Body)

  function FirstUrl(tokens: seq<string>): Option<string> {
    if tokens == [] then None
    else if LooksLikeUrl(tokens[0]) then Some(Unquoted(tokens[0]))
    else FirstUrl(tokens[1..])
  }

  function Joined(data: seq<string>): string {
    if data == [] then "" else if |data| == 1 then data[0] else Joined(data[..|data| - 1]) + "&" + data[|data| - 1]
  }

  /** `_coerce_json_body` */
  function BodyOf(env: Env, text: string): Body {
    var t := Trim(text);
    if t == "" then NoBody else if env.isJson(t) then Json(t) else Raw(t)
  }

  /** What is made of the options once the loop is over. */
  function Finish(env: Env, draft: Draft, tokens: seq<string>): Parsed {
    var found := if draft.url.Some? then draft.url else FirstUrl(tokens);
    if found.None? || found.value == "" then NoUrl
    else
      var url := if "$" <= found.value then "https://example.invalid/" else found.value;
      if draft.data == [] then Parsed(draft.verb, url, env.urlParams(url), draft.headers, NoBody)
      else if draft.getWithData && draft.verb == "GET" then
        Parsed("GET", url, env.urlParams(url) + env.dataParams(Joined(draft.data)), draft.headers, NoBody)
      else
        Parsed(if draft.verb == "GET" then "POST" else draft.verb, url, env.urlParams(url), draft.headers,
               BodyOf(env, draft.data[|draft.data| - 1]))
  }

  function Request(env: Env, tokens: seq<string>): Parsed {
    Finish(env, ApplyAll(env, GroupsOf(tokens)), tokens)
  }

  // ---- The loop ---------------------------------------------------------------------------------------

  /** `_next_value` */
  function NextValue(tokens: seq<string>, i: nat): (Option<string>, nat) {
    if i + 1 >= |tokens| then (None, i + 1) else (Some(tokens[i + 1]), i + 2)
  }

  /** The group that starts at position `i`. */
  function GroupAt(tokens: seq<string>, i: nat): (g: Group)
    requires i < |tokens|
    ensures i + |TokensOf(g)| <= |tokens|
  {
    if !TakesValue(ClassOf(tokens[i])) then Single(tokens[i])
    else if i + 1 == |tokens| then Dangling(tokens[i])
    else Valued(tokens[i], tokens[i + 1])
  }

  lemma GroupsFrom(tokens: seq<string>, i: nat)
    requires i < |tokens|
    ensures var g := GroupAt(tokens, i);
            GroupsOf(tokens[i..]) == [g] + GroupsOf(tokens[i + |TokensOf(g)|..])
  {
    hide ClassOf;
    assert tokens[i..][1..] == tokens[i + 1..];
    if i + 1 < |tokens| {
      assert tokens[i..][2..] == tokens[i + 2..];
    } else {
      assert tokens[i + 1..] == [];
    }
  }

  lemma ApplyNext(env: Env, groups: seq<Group>, g: Group)
    ensures ApplyAll(env, groups + [g]) == Apply(env, ApplyAll(env, groups), g)
  {
    hide Apply;
    assert (groups + [g])[..|groups|] == groups;
  }

  /** `parse_curl_command`, from its tokens on. */
  method ParseTokens(env: Env, tokens: seq<string>) returns (parsed: Parsed)
    ensures parsed == Request(env, tokens)
  {
    hide Apply, ClassOf, Finish, GroupsOf, ApplyAll, GroupAt;
    var draft := EmptyDraft;
    ghost var groups: seq<Group> := [];
    var i := 0;
    assert tokens[0..] == tokens;
    NothingYet(env);
    while i < |tokens|
      invariant 0 <= i <= |tokens|
      invariant GroupsOf(tokens) == groups + GroupsOf(tokens[i..])
      invariant draft == ApplyAll(env, groups)
    {
      GroupsFrom(tokens, i);
      ghost var g := GroupAt(tokens, i);
      ApplyNext(env, groups, g);
      draft, i := Round(env, draft, tokens, i);
      groups := groups + [g];
    }
    NothingLeft(tokens);
    assert i == |tokens| && groups + [] == groups;
    parsed := Finish(env, draft, tokens);
  }

  lemma NothingYet(env: Env)
    ensures ApplyAll(env, []) == EmptyDraft
  {}

  lemma NothingLeft(tokens: seq<string>)
    ensures GroupsOf(tokens[|tokens|..]) == []
  {}

  /** One round of the loop. */
  method Round(env: Env, draft0: Draft, tokens: seq<string>, i0: nat) returns (draft: Draft, i: nat)
    requires i0 < |tokens|
    ensures var g := GroupAt(tokens, i0);
            draft == Apply(env, draft0, g) && i == i0 + |TokensOf(g)|
  {
    hide ClassOf, Upper, Unquoted, Trim;
    draft, i := draft0, i0;
    var token := tokens[i];
    match ClassOf(token) {
      case RequestFlag =>
        var (value, next) := NextValue(tokens, i);
        i := next;
        if value.Some? && value.value != "" {
          draft := draft.(verb := Upper(value.value));
        }
      case HeaderFlag =>
        var (value, next) := NextValue(tokens, i);
        i := next;
        if value.Some? {
          var at := IndexOf(value.value, ':');
          if at < |value.value| {
            draft := draft.(headers := draft.headers[Trim(value.value[..at]) := Trim(value.value[at + 1..])]);
          }
        }
      case DataFlag =>
        var (value, next) := NextValue(tokens, i);
        i := next;
        if value.Some? {
          draft := draft.(data := draft.data + [value.value]);
        }
      case GetFlag =>
        draft := draft.(getWithData := true);
        i := i + 1;
      case UserFlag =>
        var (value, next) := NextValue(tokens, i);
        i := next;
        if value.Some? && value.value != "" {
          var at := IndexOf(value.value, ':');
          var user, password := value.value[..at], if at < |value.value| then value.value[at + 1..] else "";
          if user != "" {
            draft := draft.(headers := draft.headers["Authorization" := "Basic " + env.basic(user + ":" + password)]);
          }
        }
      case OtherOption =>
        var (value, next) := NextValue(tokens, i);
        i := next;
      case UrlToken =>
        draft := draft.(url := Some(Unquoted(token)));
        i := i + 1;
      case SkippedToken =>
        i := i + 1;
    }
  }

  // ---- What follows -----------------------------------------------------------------------------------

  /** Whatever the tokens: a request that is a GET in the end has no body. */
  lemma GetHasNoBody(env: Env, tokens: seq<string>)
    requires Request(env, tokens).Parsed? && Request(env, tokens).verb == "GET"
    ensures Request(env, tokens).body == NoBody
  {
    hide ApplyAll, GroupsOf, FirstUrl, BodyOf;
  }

  // ---- The order of the groups ------------------------------------------------------------------------

  predicate SetsMethod(g: Group) {
    g.Valued? && ClassOf(g.flag) == RequestFlag
  }

  predicate AddsData(g: Group) {
    g.Valued? && ClassOf(g.flag) == DataFlag
  }

  predicate SetsUrl(g: Group) {
    g.Single? && ClassOf(g.token) == UrlToken
  }

  /** The two groups set the same thing, so that the later one decides. */
  predicate Clash(env: Env, g: Group, h: Group) {
    || (SetsMethod(g) && SetsMethod(h))
    || (AddsData(g) && AddsData(h))
    || (SetsUrl(g) && SetsUrl(h))
    || (HeaderOf(env, g).Some? && HeaderOf(env, h).Some? && HeaderOf(env, g).value.0 == HeaderOf(env, h).value.0)
  }

  /** At most one method, one data option, one URL, and one setting of each header. */
  predicate Simple(env: Env, groups: seq<Group>) {
    forall i, k :: 0 <= i < k < |groups| ==> !Clash(env, groups[i], groups[k])
  }

  ghost predicate HeadersTold(env: Env, groups: seq<Group>, headers: map<string, string>) {
    && (forall name :: name in headers ==> exists g :: g in groups && HeaderOf(env, g) == Some((name, headers[name])))
    && (forall g :: g in groups && HeaderOf(env, g).Some? ==> HeaderOf(env, g).value.0 in headers)
  }

  ghost predicate UrlTold(groups: seq<Group>, url: Option<string>) {
    && (url.Some? ==> exists g :: g in groups && SetsUrl(g) && url.value == Unquoted(g.token))
    && (forall g :: g in groups && SetsUrl(g) ==> url.Some?)
  }

  ghost predicate DataTold(groups: seq<Group>, data: seq<string>) {
    && (data != [] ==> exists g :: g in groups && AddsData(g) && data == [g.value])
    && (forall g :: g in groups && AddsData(g) ==> data != [])
  }

  ghost predicate VerbTold(groups: seq<Group>, verb: string) {
    || (exists g :: g in groups && SetsMethod(g) && g.value != "" && verb == Upper(g.value))
    || (verb == "GET" && forall g :: g in groups && SetsMethod(g) ==> g.value == "")
  }

  /** The draft, told from which groups there are. */
  ghost predicate Told(env: Env, groups: seq<Group>, d: Draft) {
    && HeadersTold(env, groups, d.headers)
    && UrlTold(groups, d.url)
    && DataTold(groups, d.data)
    && VerbTold(groups, d.verb)
    && (d.getWithData <==> exists g :: g in groups && g.Single? && ClassOf(g.token) == GetFlag)
  }

  lemma {:induction false} ToldAfterAll(env: Env, groups: seq<Group>)
    requires Simple(env, groups)
    ensures Told(env, groups, ApplyAll(env, groups))
    decreases |groups|
  {
    hide Apply, HeaderOf, ClassOf, Upper, Unquoted, Clash, Told;
    if groups == [] {
      ToldAtFirst(env);
    } else {
      var n := |groups| - 1;
      ToldAfterAll(env, groups[..n]);
      assert groups == groups[..n] + [groups[n]];
      forall h | h in groups[..n] ensures !Clash(env, h, groups[n]) {
        var k :| 0 <= k < n && groups[k] == h;
      }
      ToldAfter(env, groups[..n], ApplyAll(env, groups[..n]), groups[n]);
    }
  }

  lemma ToldAtFirst(env: Env)
    ensures Told(env, [], ApplyAll(env, []))
  {}

  lemma ToldAfter(env: Env, groups: seq<Group>, d: Draft, g: Group)
    requires Told(env, groups, d) && forall h :: h in groups ==> !Clash(env, h, g)
    ensures Told(env, groups + [g], Apply(env, d, g))
  {
    hide ClassOf, Upper, Unquoted, HeadersTold, UrlTold, DataTold, VerbTold;
    var all, after := groups + [g], Apply(env, d, g);
    assert forall h :: h in all <==> h in groups || h == g;
    assert HeadersTold(env, all, after.headers) by { HeadersAfter(env, groups, d, g); }
    assert UrlTold(all, after.url) by { UrlAfter(env, groups, d, g); }
    assert DataTold(all, after.data) by { DataAfter(env, groups, d, g); }
    assert VerbTold(all, after.verb) by { VerbAfter(env, groups, d, g); }
  }

  lemma HeadersAfter(env: Env, groups: seq<Group>, d: Draft, g: Group)
    requires HeadersTold(env, groups, d.headers) && forall h :: h in groups ==> !Clash(env, h, g)
    ensures HeadersTold(env, groups + [g], Apply(env, d, g).headers)
  {
    hide HeaderOf, ClassOf, Upper, Unquoted;
    var all, headers := groups + [g], Apply(env, d, g).headers;
    assert forall h :: h in all <==> h in groups || h == g;
    forall name | name in headers ensures exists h :: h in all && HeaderOf(env, h) == Some((name, headers[name])) {
      if HeaderOf(env, g).Some? && HeaderOf(env, g).value.0 == name {
        assert g in all;
      } else {
        var h :| h in groups && HeaderOf(env, h) == Some((name, d.headers[name]));
        assert h in all;
      }
    }
  }

  lemma UrlAfter(env: Env, groups: seq<Group>, d: Draft, g: Group)
    requires UrlTold(groups, d.url) && forall h :: h in groups ==> !Clash(env, h, g)
    ensures UrlTold(groups + [g], Apply(env, d, g).url)
  {
    hide ClassOf, Upper, Unquoted;
    var all := groups + [g];
    assert forall h :: h in all <==> h in groups || h == g;
  }

  lemma DataAfter(env: Env, groups: seq<Group>, d: Draft, g: Group)
    requires DataTold(groups, d.data) && forall h :: h in groups ==> !Clash(env, h, g)
    ensures DataTold(groups + [g], Apply(env, d, g).data)
  {
    hide ClassOf, Upper, Unquoted;
    var all := groups + [g];
    assert forall h :: h in all <==> h in groups || h == g;
  }

  lemma VerbAfter(env: Env, groups: seq<Group>, d: Draft, g: Group)
    requires VerbTold(groups, d.verb) && forall h :: h in groups ==> !Clash(env, h, g)
    ensures VerbTold(groups + [g], Apply(env, d, g).verb)
  {
    hide ClassOf, Upper, Unquoted;
    var all := groups + [g];
    assert forall h :: h in all <==> h in groups || h == g;
  }

  lemma Together(env: Env, groups: seq<Group>, g: Group, h: Group)
    requires Simple(env, groups) && g in groups && h in groups && Clash(env, g, h)
    ensures g == h
  {
    hide Clash;
    var i :| 0 <= i < |groups| && groups[i] == g;
    var k :| 0 <= k < |groups| && groups[k] == h;
    ClashesBothWays(env, g, h);
  }

  lemma ClashesBothWays(env: Env, g: Group, h: Group)
    ensures Clash(env, g, h) <==> Clash(env, h, g)
  {}

  lemma HeadersAgree(env: Env, groups: seq<Group>, others: seq<Group>, a: map<string, string>, b: map<string, string>)
    requires Simple(env, others) && (forall g :: g in groups <==> g in others)
    requires HeadersTold(env, groups, a) && HeadersTold(env, others, b)
    ensures forall name :: name in a ==> name in b && a[name] == b[name]
  {
    hide HeaderOf, Simple;
    forall name | name in a ensures name in b && a[name] == b[name] {
      var g :| g in groups && HeaderOf(env, g) == Some((name, a[name]));
      assert g in others && name in b;
      var h :| h in others && HeaderOf(env, h) == Some((name, b[name]));
      Together(env, others, g, h);
    }
  }

  lemma UrlsAgree(env: Env, groups: seq<Group>, others: seq<Group>, a: Option<string>, b: Option<string>)
    requires Simple(env, others) && (forall g :: g in groups <==> g in others)
    requires UrlTold(groups, a) && UrlTold(others, b)
    ensures a.Some? ==> a == b
  {
    hide ClassOf, Unquoted, Simple, HeaderOf;
    if a.Some? {
      var g :| g in groups && SetsUrl(g) && a.value == Unquoted(g.token);
      assert g in others;
      var h :| h in others && SetsUrl(h) && b.value == Unquoted(h.token);
      Together(env, others, g, h);
    }
  }

  lemma DataAgree(env: Env, groups: seq<Group>, others: seq<Group>, a: seq<string>, b: seq<string>)
    requires Simple(env, others) && (forall g :: g in groups <==> g in others)
    requires DataTold(groups, a) && DataTold(others, b)
    ensures a != [] ==> a == b
  {
    hide ClassOf, Simple, HeaderOf;
    if a != [] {
      var g :| g in groups && AddsData(g) && a == [g.value];
      assert g in others;
      var h :| h in others && AddsData(h) && b == [h.value];
      Together(env, others, g, h);
    }
  }

  lemma VerbsAgree(env: Env, groups: seq<Group>, others: seq<Group>, a: string, b: string)
    requires Simple(env, others) && (forall g :: g in groups <==> g in others)
    requires VerbTold(groups, a) && VerbTold(others, b)
    ensures a == b
  {
    hide ClassOf, Simple, HeaderOf, Upper;
    if g :| g in groups && SetsMethod(g) && g.value != "" && a == Upper(g.value) {
      assert g in others;
      var h :| h in others && SetsMethod(h) && h.value != "" && b == Upper(h.value);
      Together(env, others, g, h);
    }
  }

  lemma SameGroupsSameDraft(env: Env, groups: seq<Group>, others: seq<Group>)
    requires Simple(env, groups) && Simple(env, others) && (forall g :: g in groups <==> g in others)
    ensures ApplyAll(env, groups) == ApplyAll(env, others)
  {
    hide ApplyAll, HeadersTold, UrlTold, DataTold, VerbTold, Simple, ClassOf;
    ToldAfterAll(env, groups);
    ToldAfterAll(env, others);
    var a, b := ApplyAll(env, groups), ApplyAll(env, others);
    HeadersAgree(env, groups, others, a.headers, b.headers);
    HeadersAgree(env, others, groups, b.headers, a.headers);
    assert a.headers == b.headers;
    UrlsAgree(env, groups, others, a.url, b.url);
    UrlsAgree(env, others, groups, b.url, a.url);
    DataAgree(env, groups, others, a.data, b.data);
    DataAgree(env, others, groups, b.data, a.data);
    VerbsAgree(env, groups, others, a.verb, b.verb);
  }

  // ---- Permutations -----------------------------------------------------------------------------------

  lemma TwiceCounted<T>(s: seq<T>, i: nat, k: nat)
    requires i < k < |s| && s[i] == s[k]
    ensures multiset(s)[s[i]] >= 2
  {
    assert s == s[..k] + [s[k]] + s[k + 1..];
    assert s[i] in s[..k];
  }

  lemma {:induction false} CountedTwice<T>(s: seq<T>, x: T) returns (i: nat, k: nat)
    requires multiset(s)[x] >= 2
    ensures i < k < |s| && s[i] == x && s[k] == x
    decreases |s|
  {
    var n := |s| - 1;
    assert s == s[..n] + [s[n]];
    if multiset(s[..n])[x] >= 2 {
      i, k := CountedTwice(s[..n], x);
    } else {
      assert x in multiset(s[..n]);
      i :| 0 <= i < n && s[..n][i] == x;
      k := n;
    }
  }

  lemma SimplePermuted(env: Env, groups: seq<Group>, others: seq<Group>)
    requires multiset(groups) == multiset(others) && Simple(env, groups)
    ensures Simple(env, others) && forall g :: g in groups <==> g in others
  {
    hide Clash;
    forall g ensures g in groups <==> g in others {
      assert g in groups <==> g in multiset(groups);
      assert g in others <==> g in multiset(others);
    }
    forall i, k | 0 <= i < k < |others| ensures !Clash(env, others[i], others[k]) {
      if Clash(env, others[i], others[k]) {
        Together(env, groups, others[i], others[k]);
        TwiceCounted(others, i, k);
        var p, q := CountedTwice(groups, others[i]);
        assert false;
      }
    }
  }

  /** Any order of the option groups gives the same request, when one of them is a URL and no two of
      them set the same thing. */
  lemma OrderDoesNotMatter(env: Env, groups: seq<Group>, others: seq<Group>)
    requires forall g :: g in groups ==> Complete(g)
    requires multiset(groups) == multiset(others) && Simple(env, groups)
    requires exists g :: g in groups && SetsUrl(g)
    ensures Request(env, Flatten(groups)) == Request(env, Flatten(others))
  {
    hide ApplyAll, Simple, Complete, ClassOf, HeadersTold, DataTold, VerbTold, GroupsOf, Flatten, FirstUrl;
    SimplePermuted(env, groups, others);
    GroupsFlattened(groups);
    GroupsFlattened(others);
    SameGroupsSameDraft(env, groups, others);
    ToldAfterAll(env, groups);
  }
}
