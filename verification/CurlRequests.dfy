/**
 What request a curl command stands for, told by its option groups: which option decides when several
 set the same thing, and what a command with data becomes.
 */
module CurlRequests {
  import opened Options
  import opened Strings
  import opened CurlParser

  // ---- Which group decides ------------------------------------------------------------------------------

  predicate NamesMethod(g: Group) {
    SetsMethod(g) && g.value != ""
  }

  /** The last group that names a method does; without one it is GET. */
  ghost predicate MethodIs(groups: seq<Group>, verb: string) {
    || (exists i :: 0 <= i < |groups| && NamesMethod(groups[i]) && verb == Upper(groups[i].value)
                    && forall k :: i < k < |groups| ==> !NamesMethod(groups[k]))
    || (verb == "GET" && forall g :: g in groups ==> !NamesMethod(g))
  }

  /** The last URL. */
  ghost predicate UrlIs(groups: seq<Group>, url: Option<string>) {
    match url
    case Some(u) =>
      exists i :: 0 <= i < |groups| && SetsUrl(groups[i]) && u == Unquoted(groups[i].token)
                  && forall k :: i < k < |groups| ==> !SetsUrl(groups[k])
    case None => forall g :: g in groups ==> !SetsUrl(g)
  }

  /** All data, in order. */
  function DataOf(groups: seq<Group>): seq<string> {
    if groups == [] then []
    else if AddsData(groups[0]) then [groups[0].value] + DataOf(groups[1..])
    else DataOf(groups[1..])
  }

  predicate WantsGet(groups: seq<Group>) {
    exists g :: g in groups && g.Single? && ClassOf(g.token) == GetFlag
  }

  /** For each header the last group that sets it. */
  ghost predicate HeadersAre(env: Env, groups: seq<Group>, headers: map<string, string>) {
    && (forall name :: name in headers ==>
          exists i :: 0 <= i < |groups| && HeaderOf(env, groups[i]) == Some((name, headers[name]))
                      && forall k :: i < k < |groups| ==> !SetsHeader(env, groups[k], name))
    && (forall g :: g in groups && HeaderOf(env, g).Some? ==> HeaderOf(env, g).value.0 in headers)
  }

  predicate SetsHeader(env: Env, g: Group, name: string) {
    HeaderOf(env, g).Some? && HeaderOf(env, g).value.0 == name
  }

  lemma {:induction false} DataSplit(groups: seq<Group>, g: Group)
    ensures DataOf(groups + [g]) == DataOf(groups) + if AddsData(g) then [g.value] else []
    decreases |groups|
  {
    hide ClassOf, AddsData;
    if groups == [] {
      assert (groups + [g])[1..] == [];
    } else {
      assert (groups + [g])[1..] == groups[1..] + [g];
      DataSplit(groups[1..], g);
    }
  }

  /** What the options come to: for any groups, in any order. */
  ghost predicate Decides(env: Env, groups: seq<Group>, d: Draft) {
    && MethodIs(groups, d.verb)
    && UrlIs(groups, d.url)
    && d.data == DataOf(groups)
    && (d.getWithData <==> WantsGet(groups))
    && HeadersAre(env, groups, d.headers)
  }

  lemma {:induction false} LastDecides(env: Env, groups: seq<Group>)
    ensures Decides(env, groups, ApplyAll(env, groups))
    decreases |groups|
  {
    hide Apply, Decides;
    if groups == [] {
      NothingDecided(env);
    } else {
      var n := |groups| - 1;
      LastDecides(env, groups[..n]);
      assert groups == groups[..n] + [groups[n]];
      OneMore(env, groups[..n], ApplyAll(env, groups[..n]), groups[n]);
    }
  }

  lemma NothingDecided(env: Env)
    ensures Decides(env, [], EmptyDraft)
  {}

  lemma OneMore(env: Env, groups: seq<Group>, d: Draft, g: Group)
    requires Decides(env, groups, d)
    ensures Decides(env, groups + [g], Apply(env, d, g))
  {
    hide MethodIs, UrlIs, HeadersAre, DataOf, ClassOf, Upper, Unquoted;
    var all := groups + [g];
    assert forall h :: h in all <==> h in groups || h == g;
    MethodAfter(env, groups, d, g);
    UrlAfter(env, groups, d, g);
    DataSplit(groups, g);
    HeadersAfter(env, groups, d, g);
  }

  lemma MethodAfter(env: Env, groups: seq<Group>, d: Draft, g: Group)
    requires MethodIs(groups, d.verb)
    ensures MethodIs(groups + [g], Apply(env, d, g).verb)
  {
    hide ClassOf, Upper, Unquoted;
    var all := groups + [g];
    assert all[|groups|] == g;
    if !NamesMethod(g) {
      assert Apply(env, d, g).verb == d.verb;
      if i :| 0 <= i < |groups| && NamesMethod(groups[i]) && d.verb == Upper(groups[i].value)
              && forall k :: i < k < |groups| ==> !NamesMethod(groups[k]) {
        assert all[i] == groups[i];
      }
    }
  }

  lemma UrlAfter(env: Env, groups: seq<Group>, d: Draft, g: Group)
    requires UrlIs(groups, d.url)
    ensures UrlIs(groups + [g], Apply(env, d, g).url)
  {
    hide ClassOf, Upper, Unquoted;
    var all := groups + [g];
    assert all[|groups|] == g;
    if !SetsUrl(g) && d.url.Some? {
      var i :| 0 <= i < |groups| && SetsUrl(groups[i]) && d.url.value == Unquoted(groups[i].token)
               && forall k :: i < k < |groups| ==> !SetsUrl(groups[k]);
      assert all[i] == groups[i];
    }
  }

  lemma HeadersAfter(env: Env, groups: seq<Group>, d: Draft, g: Group)
    requires HeadersAre(env, groups, d.headers)
    ensures HeadersAre(env, groups + [g], Apply(env, d, g).headers)
  {
    hide HeaderOf, ClassOf, Upper, Unquoted;
    var all, headers := groups + [g], Apply(env, d, g).headers;
    assert all[|groups|] == g;
    forall name | name in headers
      ensures exists i :: 0 <= i < |all| && HeaderOf(env, all[i]) == Some((name, headers[name]))
                          && forall k :: i < k < |all| ==> !SetsHeader(env, all[k], name)
    {
      if SetsHeader(env, g, name) {
        assert HeaderOf(env, all[|groups|]) == Some((name, headers[name]));
      } else {
        var i :| 0 <= i < |groups| && HeaderOf(env, groups[i]) == Some((name, d.headers[name]))
                 && forall k :: i < k < |groups| ==> !SetsHeader(env, groups[k], name);
        assert all[i] == groups[i];
      }
    }
  }

  // ---- The request --------------------------------------------------------------------------------------

  /** A variable in place of the URL, or the URL itself. */
  predicate Addresses(groups: seq<Group>, tokens: seq<string>, url: string) {
    var found := if exists g :: g in groups && SetsUrl(g) then LastUrl(groups) else FirstUrl(tokens);
    && found.Some? && found.value != ""
    && url == if "$" <= found.value then "https://example.invalid/" else found.value
  }

  function LastUrl(groups: seq<Group>): Option<string> {
    if groups == [] then None
    else if SetsUrl(groups[|groups| - 1]) then Some(Unquoted(groups[|groups| - 1].token))
    else LastUrl(groups[..|groups| - 1])
  }

  /** What a command stands for whose options name the method `verb`. Without data it is sent as it says.
      With `--get` the data of a GET go into the query, all of them, joined by "&". Otherwise a GET with data
      is a POST, and the last data are the body: nothing if they are blank, JSON if they are JSON, and as
      they are if not. */
  ghost predicate StandsFor(env: Env, groups: seq<Group>, verb: string, q: Parsed)
    requires q.Parsed?
  {
    var data := DataOf(groups);
    && MethodIs(groups, verb) && HeadersAre(env, groups, q.headers)
    && (data == [] ==> q.verb == verb && q.body == NoBody && q.params == env.urlParams(q.url))
    && (data != [] && WantsGet(groups) && verb == "GET" ==>
          && q.verb == "GET" && q.body == NoBody
          && q.params == env.urlParams(q.url) + env.dataParams(Joined(data)))
    && (data != [] && !(WantsGet(groups) && verb == "GET") ==>
          && q.verb == (if verb == "GET" then "POST" else verb) && q.params == env.urlParams(q.url)
          && var text := Trim(data[|data| - 1]);
             q.body == if text == "" then NoBody else if env.isJson(text) then Json(text) else Raw(text))
  }

  lemma RequestExactly(env: Env, tokens: seq<string>)
    requires Request(env, tokens).Parsed?
    ensures exists verb :: StandsFor(env, GroupsOf(tokens), verb, Request(env, tokens))
  {
    hide ApplyAll, GroupsOf, FirstUrl, MethodIs, HeadersAre, UrlIs, ClassOf, DataOf, Joined, WantsGet, Trim;
    var groups := GroupsOf(tokens);
    LastDecides(env, groups);
    assert StandsFor(env, groups, ApplyAll(env, groups).verb, Request(env, tokens));
  }

  /** Where it goes. */
  lemma AddressExactly(env: Env, tokens: seq<string>)
    ensures var groups := GroupsOf(tokens);
      && (Request(env, tokens).Parsed? ==> Addresses(groups, tokens, Request(env, tokens).url))
      && (Request(env, tokens).NoUrl? ==> forall url :: !Addresses(groups, tokens, url))
  {
    hide ApplyAll, GroupsOf, FirstUrl, MethodIs, HeadersAre, ClassOf, DataOf, Joined, WantsGet, Unquoted;
    var groups := GroupsOf(tokens);
    LastDecides(env, groups);
    LastUrlIs(groups, ApplyAll(env, groups).url);
  }

  lemma {:induction false} FirstUrlIs(tokens: seq<string>)
    ensures FirstUrl(tokens).None? <==> forall t :: t in tokens ==> !LooksLikeUrl(t)
    ensures FirstUrl(tokens).Some? ==> exists i ::
      && 0 <= i < |tokens| && LooksLikeUrl(tokens[i]) && FirstUrl(tokens).value == Unquoted(tokens[i])
      && forall k :: 0 <= k < i ==> !LooksLikeUrl(tokens[k])
    decreases |tokens|
  {
    hide LooksLikeUrl, Unquoted;
    if tokens != [] {
      var rest := tokens[1..];
      assert tokens == [tokens[0]] + rest;
      if !LooksLikeUrl(tokens[0]) {
        FirstUrlIs(rest);
        if FirstUrl(rest).Some? {
          var i :| 0 <= i < |rest| && LooksLikeUrl(rest[i]) && FirstUrl(rest).value == Unquoted(rest[i])
                   && forall k :: 0 <= k < i ==> !LooksLikeUrl(rest[k]);
          assert tokens[i + 1] == rest[i];
        }
      }
    }
  }

  lemma {:induction false} LastUrlIs(groups: seq<Group>, url: Option<string>)
    requires UrlIs(groups, url)
    ensures url == LastUrl(groups) && (url.Some? <==> exists g :: g in groups && SetsUrl(g))
    decreases |groups|
  {
    hide ClassOf, Unquoted;
    if groups != [] {
      var n := |groups| - 1;
      assert groups == groups[..n] + [groups[n]];
      if !SetsUrl(groups[n]) {
        if url.Some? {
          var i :| 0 <= i < |groups| && SetsUrl(groups[i]) && url.value == Unquoted(groups[i].token)
                   && forall k :: i < k < |groups| ==> !SetsUrl(groups[k]);
          assert groups[..n][i] == groups[i];
        }
        LastUrlIs(groups[..n], url);
      }
    }
  }

  // ---- The options --------------------------------------------------------------------------------------

  lemma JoinedByAmpersands(a: string, b: string, c: string)
    ensures Joined([a]) == a && Joined([a, b]) == a + "&" + b && Joined([a, b, c]) == a + "&" + b + "&" + c
  {
    assert [a, b][..1] == [a] && [a, b, c][..2] == [a, b];
  }

  lemma LowerOf(flag: string, low: string)
    requires |flag| == |low| && forall i :: 0 <= i < |flag| ==> LowerChar(flag[i]) == low[i]
    ensures Lower(flag) == low
  {}

  /** The spellings of the options, upper and lower case alike. */
  lemma RequestFlags()
    ensures ClassOf("-X") == RequestFlag && ClassOf("-x") == RequestFlag && ClassOf("--request") == RequestFlag
  {
    hide Lower, LooksLikeUrl;
    LowerOf("-X", "-x");
    LowerOf("-x", "-x");
    LowerOf("--request", "--request");
  }

  lemma HeaderFlags()
    ensures ClassOf("-H") == HeaderFlag && ClassOf("-h") == HeaderFlag && ClassOf("--header") == HeaderFlag
  {
    hide Lower, LooksLikeUrl;
    LowerOf("-H", "-h");
    LowerOf("-h", "-h");
    LowerOf("--header", "--header");
  }

  lemma DataFlags()
    ensures ClassOf("-d") == DataFlag && ClassOf("-D") == DataFlag
    ensures ClassOf("--data") == DataFlag && ClassOf("--data-raw") == DataFlag
  {
    hide Lower, LooksLikeUrl;
    LowerOf("-d", "-d");
    LowerOf("-D", "-d");
    LowerOf("--data", "--data");
    LowerOf("--data-raw", "--data-raw");
  }

  lemma GetFlags()
    ensures ClassOf("-G") == GetFlag && ClassOf("-g") == GetFlag && ClassOf("--get") == GetFlag
  {
    hide Lower, LooksLikeUrl;
    LowerOf("-G", "-g");
    LowerOf("-g", "-g");
    LowerOf("--get", "--get");
  }

  lemma UserFlags()
    ensures ClassOf("-u") == UserFlag && ClassOf("-U") == UserFlag && ClassOf("--user") == UserFlag
  {
    hide Lower, LooksLikeUrl;
    LowerOf("-u", "-u");
    LowerOf("-U", "-u");
    LowerOf("--user", "--user");
  }

  lemma {:induction false} FirstColon(name: string, rest: string)
    requires ':' !in name
    ensures IndexOf(name + ":" + rest, ':') == |name|
    decreases |name|
  {
    if name != "" {
      assert (name + ":" + rest)[1..] == name[1..] + ":" + rest;
      FirstColon(name[1..], rest);
    }
  }

  /** A header option sets the header before its first colon, and credentials set Authorization. */
  lemma HeaderExactly(env: Env, flag: string, name: string, rest: string)
    requires ':' !in name
    ensures ClassOf(flag) == HeaderFlag ==>
      HeaderOf(env, Valued(flag, name + ":" + rest)) == Some((Trim(name), Trim(rest)))
    ensures ClassOf(flag) == UserFlag && name != "" ==>
      HeaderOf(env, Valued(flag, name + ":" + rest)) == Some(("Authorization", "Basic " + env.basic(name + ":" + rest)))
    ensures ClassOf(flag) == UserFlag && name == "" ==> HeaderOf(env, Valued(flag, name + ":" + rest)) == None
  {
    hide ClassOf, Trim;
    var value := name + ":" + rest;
    FirstColon(name, rest);
    assert value[..|name|] == name && value[|name| + 1..] == rest;
  }

  /** What is taken for a URL, blanks around it apart: http, https, or a shell variable. */
  lemma UrlsLook(rest: string)
    requires rest != "" && !Space(rest[|rest| - 1])
    ensures LooksLikeUrl("http://" + rest) && LooksLikeUrl("https://" + rest) && LooksLikeUrl("$" + rest)
  {
    hide TrimLeft, TrimRight;
    TrimNothing("http://" + rest);
    TrimNothing("https://" + rest);
    TrimNothing("$" + rest);
  }

  lemma TrimNothing(s: string)
    requires s != "" && !Space(s[0]) && !Space(s[|s| - 1])
    ensures Trim(s) == s
  {
    assert !AllBlank(s[..1]) by { assert s[..1][0] == s[0]; }
    assert !AllBlank(s[|s| - 1..]) by { assert s[|s| - 1..][0] == s[|s| - 1]; }
  }

  predicate Quote(c: char) {
    c == '\'' || c == '"'
  }

  /** Quotes around a URL are taken away, however many, and nothing else. */
  lemma {:induction false} UnquotedIs(url: string, quote: char)
    requires url != "" && Quote(quote) && !Quote(url[0]) && !Quote(url[|url| - 1])
    requires !Space(url[0]) && !Space(url[|url| - 1])
    ensures Unquoted(url) == url && Unquoted([quote] + url + [quote]) == url
  {
    hide Trim;
    var quoted := [quote] + url + [quote];
    assert !Space('\'') && !Space('"');
    TrimNothing(url);
    TrimNothing(quoted);
    assert quoted[1..] == url + [quote];
    assert UnquoteLeft(quoted) == url + [quote];
    assert (url + [quote])[..|url|] == url;
    assert UnquoteRight(url + [quote]) == UnquoteRight(url);
  }
}
