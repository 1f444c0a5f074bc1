/**
 The history of login attempts, with the usernames and addresses as they came, and what it holds
 against a request: the failures in the window under the same name and from the same address.
 */
module LoginHistory {
  import opened Strings

  /** `LoginThrottleConfig`; the lockout time only fills a response header. */
  datatype Config = Config(maxFailuresPerUsername: nat, maxFailuresPerIp: nat, window: real)

  const DEFAULT := Config(8, 40, 900.0)

  /** Two texts name one user: they agree but for spaces around them and for letter case. Texts that name
      nobody count as one user, along with the literal text that stands for them. */
  predicate SameUser(a: string, b: string) {
    Lower(Trim(a)) == Lower(Trim(b)) || (Nobody(a) && Nobody(b))
  }

  predicate Nobody(a: string) {
    Trim(a) == "" || Lower(Trim(a)) == "(empty)"
  }

  /** Two texts give one address: they agree but for spaces around them, or neither gives one. */
  predicate SameAddress(a: string, b: string) {
    Trim(a) == Trim(b) || (Nowhere(a) && Nowhere(b))
  }

  predicate Nowhere(a: string) {
    Trim(a) == "" || Trim(a) == "unknown"
  }

  /** Texts that name somebody name the same user exactly when they agree letter by letter but for case;
      texts that give an address give the same one exactly when they agree. Blanks around them do not
      count. */
  lemma SameMeans(a: string, b: string)
    ensures !Nobody(a) && !Nobody(b) ==>
      (SameUser(a, b) <==>
        |Trim(a)| == |Trim(b)| && forall i :: 0 <= i < |Trim(a)| ==> SameLetter(Trim(a)[i], Trim(b)[i]))
    ensures Trim(a) != "" && Trim(a) != "unknown" ==> (SameAddress(a, b) <==> Trim(a) == Trim(b))
    ensures Trim(a) == "" && Trim(b) == "" ==> SameUser(a, b) && SameAddress(a, b)
    ensures Nobody(a) <==> Trim(a) == "" || Lower(Trim(a)) == "(empty)"
  {
    hide Trim;
    LowerAgrees(Trim(a), Trim(b));
  }

  /** What happened, in the order in which the lock was taken: login request `r` got past the check,
      then failed, succeeded, or left by raising with nothing recorded. `at` is the time it had read from
      the clock before it took the lock. */
  datatype Event =
    | Admitted(r: nat, user: string, ip: string, at: real)
    | Failed(r: nat, user: string, ip: string, at: real)
    | Succeeded(r: nat, user: string, ip: string, at: real)
    | Left(r: nat, user: string, ip: string, at: real)

  // ---- What counts ----------------------------------------------------------------------------------

  /** The failures from the address of `ip` that are not before `cutoff`. */
  ghost function IpPositions(trace: seq<Event>, ip: string, cutoff: real): set<nat> {
    set i: nat | i < |trace| && trace[i].Failed? && SameAddress(trace[i].ip, ip) && trace[i].at >= cutoff
  }

  /** The failures of `user` that are not before `cutoff`, since the last success of that user. */
  ghost function UserPositions(trace: seq<Event>, user: string, cutoff: real): set<nat> {
    set i: nat | i < |trace| && trace[i].Failed? && SameUser(trace[i].user, user) && trace[i].at >= cutoff
        && !SucceedsIn(trace, user, i, |trace|)
  }

  ghost predicate SucceedsIn(trace: seq<Event>, user: string, from: int, to: int) {
    exists k :: from <= k < to && 0 <= k < |trace| && trace[k].Succeeded? && SameUser(trace[k].user, user)
  }

  /** What a throttle that forgets nothing would answer: no limit has been reached. */
  ghost predicate WouldAllow(config: Config, trace: seq<Event>, user: string, ip: string, now: real) {
    && |UserPositions(trace, user, now - config.window)| < config.maxFailuresPerUsername
    && |IpPositions(trace, ip, now - config.window)| < config.maxFailuresPerIp
  }

  lemma SameAddressLinks(a: string, b: string, c: string)
    requires SameAddress(a, b)
    ensures SameAddress(a, c) <==> SameAddress(b, c)
    ensures SameAddress(c, a) <==> SameAddress(c, b)
  {
    hide Trim;
  }

  lemma SameUserLinks(a: string, b: string, c: string)
    requires SameUser(a, b)
    ensures SameUser(a, c) <==> SameUser(b, c)
    ensures SameUser(c, a) <==> SameUser(c, b)
  {
    hide Trim;
    LowerNothing(a);
    LowerNothing(b);
    LowerNothing(c);
  }

  lemma LowerNothing(a: string)
    ensures Lower(Trim(a)) == "" <==> Trim(a) == ""
  {
    hide Trim;
  }

  /** Spelling does not matter: the same failures are held against the same user or address. */
  lemma SamePositions(trace: seq<Event>, a: string, b: string, cutoff: real)
    ensures SameAddress(a, b) ==> IpPositions(trace, a, cutoff) == IpPositions(trace, b, cutoff)
    ensures SameUser(a, b) ==> UserPositions(trace, a, cutoff) == UserPositions(trace, b, cutoff)
    ensures SameUser(a, b) ==> forall lo, hi :: SucceedsIn(trace, a, lo, hi) <==> SucceedsIn(trace, b, lo, hi)
  {
    hide SameUser, SameAddress;
    forall c: string
      ensures SameAddress(a, b) ==> (SameAddress(c, a) <==> SameAddress(c, b))
      ensures SameUser(a, b) ==> (SameUser(c, a) <==> SameUser(c, b))
    {
      if SameAddress(a, b) { SameAddressLinks(a, b, c); }
      if SameUser(a, b) { SameUserLinks(a, b, c); }
    }
  }

  /** What happens under other names and at other addresses changes no answer, a success never does for
      an address, and being admitted or raising never does. */
  lemma OthersDoNotCount(config: Config, trace: seq<Event>, e: Event, user: string, ip: string, now: real)
    requires (e.Failed? ==> !SameUser(e.user, user) && !SameAddress(e.ip, ip))
    requires (e.Succeeded? ==> !SameUser(e.user, user))
    ensures WouldAllow(config, trace + [e], user, ip, now) <==> WouldAllow(config, trace, user, ip, now)
  {
    var longer, cutoff := trace + [e], now - config.window;
    assert longer[..|trace|] == trace;
    UserPositionsStep(longer, user, cutoff);
    IpPositionsStep(longer, ip, cutoff);
  }

  /** In particular nobody is locked out by what others have done. */
  lemma FreshLetIn(config: Config, trace: seq<Event>, user: string, ip: string, now: real)
    requires config.maxFailuresPerUsername > 0 && config.maxFailuresPerIp > 0
    requires forall e :: e in trace && e.Failed? ==> !SameUser(e.user, user) && !SameAddress(e.ip, ip)
    ensures WouldAllow(config, trace, user, ip, now)
  {
    hide SameUser, SameAddress;
    assert UserPositions(trace, user, now - config.window) == {};
    assert IpPositions(trace, ip, now - config.window) == {};
  }

  /** With the default limits: fewer than 8 failures of the user and fewer than 40 from the address, in
      the last 15 minutes. */
  lemma DefaultLimits(trace: seq<Event>, user: string, ip: string, now: real)
    ensures WouldAllow(DEFAULT, trace, user, ip, now) <==>
      |UserPositions(trace, user, now - 900.0)| < 8 && |IpPositions(trace, ip, now - 900.0)| < 40
  {
    hide UserPositions, IpPositions;
  }

  /** After a success, no failure under that name counts. */
  lemma SuccessForgets(trace: seq<Event>, e: Event, user: string, cutoff: real)
    requires e.Succeeded? && SameUser(e.user, user)
    ensures UserPositions(trace + [e], user, cutoff) == {}
  {
    var longer := trace + [e];
    assert longer[..|trace|] == trace;
    UserPositionsStep(longer, user, cutoff);
  }

  // ---- The order of times ---------------------------------------------------------------------------

  /** No request took the lock ahead of one that had read a time more than `skew` earlier ... */
  predicate Skewed(times: seq<real>, skew: real) {
    forall i, j :: 0 <= i < j < |times| ==> times[i] <= times[j] + skew
  }

  /** ... and every admitted request was one that the history allowed, but for that. */
  ghost predicate Lawful(config: Config, trace: seq<Event>, skew: real) {
    && (forall i, j :: 0 <= i < j < |trace| ==> trace[i].at <= trace[j].at + skew)
    && forall i :: 0 <= i < |trace| && trace[i].Admitted? ==>
         WouldAllow(config, trace[..i], trace[i].user, trace[i].ip, trace[i].at + skew)
  }

  lemma LawfulStep(config: Config, trace: seq<Event>, skew: real, e: Event)
    requires Lawful(config, trace, skew) && forall i :: 0 <= i < |trace| ==> trace[i].at <= e.at + skew
    requires e.Admitted? ==> WouldAllow(config, trace, e.user, e.ip, e.at + skew)
    ensures Lawful(config, trace + [e], skew)
  {
    hide WouldAllow;
    var longer := trace + [e];
    forall i | 0 <= i < |longer| && longer[i].Admitted?
      ensures WouldAllow(config, longer[..i], longer[i].user, longer[i].ip, longer[i].at + skew)
    {
      if i < |trace| {
        assert longer[..i] == trace[..i];
      } else {
        assert longer[..i] == trace;
      }
    }
  }

  // ---- Step by step ---------------------------------------------------------------------------------

  function UserAfter(before: seq<real>, user: string, e: Event): seq<real> {
    if !SameUser(e.user, user) then before
    else match e
      case Failed(_, _, _, at) => before + [at]
      case Succeeded(_, _, _, _) => []
      case Admitted(_, _, _, _) => before
      case Left(_, _, _, _) => before
  }

  /** The times of a user's failures since that user's last success, oldest first. */
  function UserFailures(trace: seq<Event>, user: string): seq<real> {
    if trace == [] then [] else UserAfter(UserFailures(trace[..|trace| - 1], user), user, trace[|trace| - 1])
  }

  function IpAfter(before: seq<real>, ip: string, e: Event): seq<real> {
    if e.Failed? && SameAddress(e.ip, ip) then before + [e.at] else before
  }

  /** The times of all failures from an address, oldest first. */
  function IpFailures(trace: seq<Event>, ip: string): seq<real> {
    if trace == [] then [] else IpAfter(IpFailures(trace[..|trace| - 1], ip), ip, trace[|trace| - 1])
  }

  lemma {:induction false} SameFailures(trace: seq<Event>, a: string, b: string)
    ensures SameUser(a, b) ==> UserFailures(trace, a) == UserFailures(trace, b)
    ensures SameAddress(a, b) ==> IpFailures(trace, a) == IpFailures(trace, b)
    decreases |trace|
  {
    hide SameUser, SameAddress;
    if trace != [] {
      var e := trace[|trace| - 1];
      SameFailures(trace[..|trace| - 1], a, b);
      if SameAddress(a, b) { SameAddressLinks(a, b, e.ip); }
      if SameUser(a, b) { SameUserLinks(a, b, e.user); }
    }
  }

  /** How many of these times are not before `cutoff`. */
  function CountSince(times: seq<real>, cutoff: real): nat {
    if times == [] then 0
    else CountSince(times[..|times| - 1], cutoff) + if times[|times| - 1] >= cutoff then 1 else 0
  }

  lemma IpPositionsStep(trace: seq<Event>, ip: string, cutoff: real)
    requires trace != []
    ensures var n, e := |trace| - 1, trace[|trace| - 1];
      var before := IpPositions(trace[..n], ip, cutoff);
      IpPositions(trace, ip, cutoff) ==
        if e.Failed? && SameAddress(e.ip, ip) && e.at >= cutoff then before + {n} else before
  {}

  lemma {:induction false} IpCounted(trace: seq<Event>, ip: string, cutoff: real)
    ensures |IpPositions(trace, ip, cutoff)| == CountSince(IpFailures(trace, ip), cutoff)
    decreases |trace|
  {
    if trace != [] {
      var n := |trace| - 1;
      IpCounted(trace[..n], ip, cutoff);
      IpPositionsStep(trace, ip, cutoff);
      assert n !in IpPositions(trace[..n], ip, cutoff);
      var times := IpFailures(trace[..n], ip);
      assert (times + [trace[n].at])[..|times|] == times;
    }
  }

  lemma SucceedsWithin(trace: seq<Event>, user: string, i: int, b: nat, lo: int, hi: int)
    requires lo <= i && b <= hi && b <= |trace|
    ensures SucceedsIn(trace[..b], user, i, b) ==> SucceedsIn(trace, user, lo, hi)
  {
    if SucceedsIn(trace[..b], user, i, b) {
      var k :| i <= k < b && 0 <= k && trace[..b][k].Succeeded? && SameUser(trace[..b][k].user, user);
      assert trace[k] == trace[..b][k];
    }
  }

  lemma SucceedsStep(trace: seq<Event>, user: string, i: int)
    requires trace != [] && i < |trace|
    ensures var n := |trace| - 1;
      !SucceedsIn(trace[..n], user, n, n) &&
      (SucceedsIn(trace, user, i, n + 1) <==>
          SucceedsIn(trace[..n], user, i, n) || (trace[n].Succeeded? && SameUser(trace[n].user, user)))
  {
    var n := |trace| - 1;
    SucceedsWithin(trace, user, i, n, i, n + 1);
    if SucceedsIn(trace, user, i, n + 1) && !(trace[n].Succeeded? && SameUser(trace[n].user, user)) {
      var k :| i <= k < n + 1 && 0 <= k && trace[k].Succeeded? && SameUser(trace[k].user, user);
      assert trace[..n][k] == trace[k];
    }
  }

  lemma UserPositionsStep(trace: seq<Event>, user: string, cutoff: real)
    requires trace != []
    ensures var n, e := |trace| - 1, trace[|trace| - 1];
      var before := UserPositions(trace[..n], user, cutoff);
      UserPositions(trace, user, cutoff) ==
        if SameUser(e.user, user) && e.Succeeded? then {}
        else if e.Failed? && SameUser(e.user, user) && e.at >= cutoff then before + {n} else before
  {
    hide SucceedsIn;
    var n, e := |trace| - 1, trace[|trace| - 1];
    var shorter := trace[..n];
    SucceedsStep(trace, user, n);
    forall i: nat | i < n
      ensures i in UserPositions(trace, user, cutoff) <==>
          i in UserPositions(shorter, user, cutoff) && !(e.Succeeded? && SameUser(e.user, user))
    {
      SucceedsStep(trace, user, i);
      assert shorter[i] == trace[i];
    }
  }

  lemma {:induction false} UserCounted(trace: seq<Event>, user: string, cutoff: real)
    ensures |UserPositions(trace, user, cutoff)| == CountSince(UserFailures(trace, user), cutoff)
    decreases |trace|
  {
    hide SucceedsIn;
    if trace != [] {
      var n := |trace| - 1;
      UserCounted(trace[..n], user, cutoff);
      UserPositionsStep(trace, user, cutoff);
      assert n !in UserPositions(trace[..n], user, cutoff);
      var times := UserFailures(trace[..n], user);
      assert (times + [trace[n].at])[..|times|] == times;
    }
  }

  /** What one more event does to the failures that count. */
  lemma AfterEvent(trace: seq<Event>, e: Event)
    ensures forall user :: UserFailures(trace + [e], user) == UserAfter(UserFailures(trace, user), user, e)
    ensures forall ip :: IpFailures(trace + [e], ip) == IpAfter(IpFailures(trace, ip), ip, e)
  {
    assert (trace + [e])[..|trace|] == trace;
  }
}
