/**
 The login throttle: pruned queues of failure times per username and per address, proved to decide
 as a throttle that keeps the whole history would.
 */
module LoginThrottle {
  import opened Strings
  import opened LoginHistory

  function UserKey(username: string): string {
    var key := Lower(Trim(username));
    if key == "" then "(empty)" else key
  }

  function IpKey(ip: string): string {
    var key := Trim(ip);
    if key == "" then "unknown" else key
  }

  /** Queues are shared by the texts that name one user, or give one address, and by no others. */
  lemma KeysAreShared(a: string, b: string)
    ensures UserKey(a) == UserKey(b) <==> SameUser(a, b)
    ensures IpKey(a) == IpKey(b) <==> SameAddress(a, b)
  {
    hide Trim;
    LowerNothing(a);
    LowerNothing(b);
  }

  // ---- Pruning --------------------------------------------------------------------------------------

  /** `q` is what is left of `times` once everything before some `cutoff` was popped. */
  predicate Suffix(q: seq<real>, times: seq<real>, cutoff: real) {
    && |q| <= |times| && q == times[|times| - |q|..]
    && forall i :: 0 <= i < |times| - |q| ==> times[i] < cutoff
  }

  /** `_prune` */
  method Prune(q: seq<real>, now: real, window: real) returns (kept: seq<real>)
    ensures Suffix(kept, q, now - window)
    ensures kept != [] ==> kept[0] >= now - window
  {
    kept := q;
    var cutoff := now - window;
    while kept != [] && kept[0] < cutoff
      invariant Suffix(kept, q, cutoff)
      decreases |kept|
    {
      kept := kept[1..];
    }
  }

  function Later(a: real, b: real): real {
    if a < b then b else a
  }

  lemma SuffixAgain(q: seq<real>, times: seq<real>, cutoff: real, kept: seq<real>, another: real)
    requires Suffix(q, times, cutoff) && Suffix(kept, q, another)
    ensures Suffix(kept, times, Later(cutoff, another))
  {
    assert forall i :: |times| - |q| <= i < |times| ==> times[i] == q[i - (|times| - |q|)];
  }

  /** What pruning leaves is no less than what is not before the cutoff ... */
  lemma {:induction false} KeepsEnough(times: seq<real>, kept: seq<real>, cutoff: real)
    requires Suffix(kept, times, cutoff)
    ensures CountSince(times, cutoff) <= |kept|
    decreases |times|
  {
    if times != [] {
      var shorter := times[..|times| - 1];
      KeepsEnough(shorter, if kept == [] then [] else kept[..|kept| - 1], cutoff);
    }
  }

  /** ... and no more than what is not before an earlier one. */
  lemma {:induction false} KeepsLittle(times: seq<real>, kept: seq<real>, cutoff: real)
    requires |kept| <= |times| && kept == times[|times| - |kept|..] && forall i :: 0 <= i < |kept| ==> kept[i] >= cutoff
    ensures |kept| <= CountSince(times, cutoff)
    decreases |times|
  {
    if kept != [] {
      assert kept[|kept| - 1] == times[|times| - 1];
      KeepsLittle(times[..|times| - 1], kept[..|kept| - 1], cutoff);
    }
  }

  lemma {:induction false} CountFalls(times: seq<real>, cutoff: real, later: real)
    requires cutoff <= later
    ensures CountSince(times, later) <= CountSince(times, cutoff)
    decreases |times|
  {
    if times != [] {
      CountFalls(times[..|times| - 1], cutoff, later);
    }
  }

  /** Times that are in order are counted exactly by what pruning leaves of them; times that are out of
      order by at most `skew` up to that. */
  lemma CountOf(times: seq<real>, kept: seq<real>, dropped: real, cutoff: real, skew: real)
    requires Skewed(times, skew) && skew >= 0.0 && dropped <= cutoff + skew
    requires Suffix(kept, times, dropped) && (kept != [] ==> kept[0] >= cutoff)
    ensures CountSince(times, cutoff + skew) <= |kept| <= CountSince(times, cutoff - skew)
  {
    KeepsEnough(times, kept, dropped);
    CountFalls(times, dropped, cutoff + skew);
    forall i | 0 <= i < |kept| ensures kept[i] >= cutoff - skew {
      assert kept[0] == times[|times| - |kept|] && kept[i] == times[|times| - |kept| + i];
    }
    KeepsLittle(times, kept, cutoff - skew);
  }

  // ---- The queues -----------------------------------------------------------------------------------

  predicate Behind(times: seq<real>, now: real) {
    forall i :: 0 <= i < |times| ==> times[i] <= now
  }

  /** The queue is what pruning, at `now` at the latest, left of these times. */
  predicate Tracks(q: seq<real>, times: seq<real>, now: real, window: real, skew: real) {
    Skewed(times, skew) && Behind(times, now) && Suffix(q, times, now - window)
  }

  lemma TracksLater(q: seq<real>, times: seq<real>, now: real, later: real, window: real, skew: real)
    requires Tracks(q, times, now, window, skew) && now <= later
    ensures Tracks(q, times, later, window, skew)
  {}

  lemma TracksPruned(q: seq<real>, times: seq<real>, clock: real, now: real, window: real, skew: real, kept: seq<real>)
    requires Tracks(q, times, clock, window, skew) && clock <= now + skew && skew >= 0.0
    requires Suffix(kept, q, now - window) && (kept != [] ==> kept[0] >= now - window)
    ensures Tracks(kept, times, Later(clock, now), window, skew)
    ensures CountSince(times, now + skew - window) <= |kept| <= CountSince(times, now - skew - window)
  {
    SuffixAgain(q, times, clock - window, kept, now - window);
    CountOf(times, kept, Later(clock, now) - window, now - window, skew);
    assert now - window + skew == now + skew - window && now - window - skew == now - skew - window;
  }

  lemma TracksAppended(q: seq<real>, times: seq<real>, clock: real, now: real, window: real, skew: real)
    requires Tracks(q, times, clock, window, skew) && now <= clock <= now + skew
    ensures Tracks(q + [now], times + [now], clock, window, skew)
  {}

  function QueueOf(queues: map<string, seq<real>>, key: string): seq<real> {
    if key in queues then queues[key] else []
  }

  lemma QueueSet(queues: map<string, seq<real>>, key: string, q: seq<real>)
    ensures forall k :: QueueOf(queues[key := q], k) == if k == key then q else QueueOf(queues, k)
  {
    forall k ensures QueueOf(queues[key := q], k) == if k == key then q else QueueOf(queues, k) {
      if k != key {
        assert k in queues[key := q] <==> k in queues;
      }
    }
  }

  class LoginThrottle {
    const config: Config
    ghost const skew: real
    var byUsername: map<string, seq<real>>
    var byIp: map<string, seq<real>>
    ghost var trace: seq<Event>
    ghost var clock: real

    function UserQueue(username: string): seq<real>
      reads this`byUsername
    {
      QueueOf(byUsername, UserKey(username))
    }

    function IpQueue(ip: string): seq<real>
      reads this`byIp
    {
      QueueOf(byIp, IpKey(ip))
    }

    /** The queues are what pruning left of the history; `clock` is the latest time any request has
        come with. */
    ghost predicate Valid()
      reads this
    {
      && skew >= 0.0 && Lawful(config, trace, skew) && (forall i :: 0 <= i < |trace| ==> trace[i].at <= clock)
      && (forall user :: Tracks(UserQueue(user), UserFailures(trace, user), clock, config.window, skew))
      && (forall ip :: Tracks(IpQueue(ip), IpFailures(trace, ip), clock, config.window, skew))
    }

    constructor (config: Config, ghost skew: real)
      requires skew >= 0.0
      ensures Valid() && this.config == config && this.skew == skew && trace == []
    {
      this.config := config;
      this.skew := skew;
      byUsername, byIp := map[], map[];
      trace, clock := [], 0.0;
    }

    /** Time passes. */
    lemma AllLater(now: real)
      requires Valid() && clock <= now
      ensures forall user :: Tracks(UserQueue(user), UserFailures(trace, user), now, config.window, skew)
      ensures forall ip :: Tracks(IpQueue(ip), IpFailures(trace, ip), now, config.window, skew)
    {
      hide Tracks, Lawful, UserFailures, IpFailures;
      forall user ensures Tracks(UserQueue(user), UserFailures(trace, user), now, config.window, skew) {
        TracksLater(UserQueue(user), UserFailures(trace, user), clock, now, config.window, skew);
      }
      forall ip ensures Tracks(IpQueue(ip), IpFailures(trace, ip), now, config.window, skew) {
        TracksLater(IpQueue(ip), IpFailures(trace, ip), clock, now, config.window, skew);
      }
    }

    /** Both queues of a request, pruned. */
    method PruneBoth(username: string, ip: string, now: real)
      requires Valid() && clock <= now + skew
      modifies this`byUsername, this`byIp, this`clock
      ensures Valid() && clock == Later(old(clock), now)
      ensures UserKey(username) in byUsername && IpKey(ip) in byIp
      ensures |UserPositions(trace, username, now + skew - config.window)| <= |UserQueue(username)|
        <= |UserPositions(trace, username, now - skew - config.window)|
      ensures |IpPositions(trace, ip, now + skew - config.window)| <= |IpQueue(ip)|
        <= |IpPositions(trace, ip, now - skew - config.window)|
    {
      hide Tracks, Lawful, UserFailures, IpFailures, Suffix, QueueOf, CountSince, UserKey, IpKey, SameUser, SameAddress,
        UserPositions, IpPositions;
      var user, address := UserKey(username), IpKey(ip);
      var uq := Prune(QueueOf(byUsername, user), now, config.window);
      var iq := Prune(QueueOf(byIp, address), now, config.window);
      TracksPruned(QueueOf(byUsername, user), UserFailures(trace, username), clock, now, config.window, skew, uq);
      TracksPruned(QueueOf(byIp, address), IpFailures(trace, ip), clock, now, config.window, skew, iq);
      AllLater(Later(clock, now));
      QueueSet(byUsername, user, uq);
      QueueSet(byIp, address, iq);
      byUsername, byIp := byUsername[user := uq], byIp[address := iq];
      clock := Later(clock, now);
      forall v ensures && (UserKey(v) == user ==> UserFailures(trace, v) == UserFailures(trace, username))
                       && (IpKey(v) == address ==> IpFailures(trace, v) == IpFailures(trace, ip))
      {
        KeysAreShared(v, username);
        KeysAreShared(v, ip);
        SameFailures(trace, v, username);
        SameFailures(trace, v, ip);
      }
      Counted(trace, username, ip, now + skew - config.window);
      Counted(trace, username, ip, now - skew - config.window);
    }

    /** `check_login_allowed`: with times in order it refuses if and only if a limit is reached, counting
        the failures in the window from the same address, and those of the same user since that user's
        last success; with times out of order by at most `skew` it errs by no more than that. */
    method CheckLoginAllowed(ghost r: nat, username: string, ip: string, now: real) returns (allowed: bool)
      requires Valid() && clock <= now + skew
      modifies this
      ensures Valid() && clock == Later(old(clock), now)
      ensures allowed ==> WouldAllow(config, old(trace), username, ip, now + skew)
      ensures !allowed ==> !WouldAllow(config, old(trace), username, ip, now - skew)
      ensures trace == old(trace) + if allowed then [Admitted(r, username, ip, now)] else []
    {
      hide UserKey, IpKey, Tracks, Lawful, UserFailures, IpFailures, UserPositions, IpPositions, SameUser, SameAddress;
      PruneBoth(username, ip, now);
      allowed := !(|byUsername[UserKey(username)]| >= config.maxFailuresPerUsername
          || |byIp[IpKey(ip)]| >= config.maxFailuresPerIp);
      if allowed {
        AfterEvent(trace, Admitted(r, username, ip, now));
        LawfulStep(config, trace, skew, Admitted(r, username, ip, now));
        trace := trace + [Admitted(r, username, ip, now)];
      }
    }

    /** `record_login_failure` */
    method RecordLoginFailure(ghost r: nat, username: string, ip: string, now: real)
      requires Valid() && clock <= now + skew
      modifies this
      ensures Valid() && clock == Later(old(clock), now)
      ensures trace == old(trace) + [Failed(r, username, ip, now)]
    {
      hide UserKey, IpKey, Tracks, Lawful, UserFailures, IpFailures, UserPositions, IpPositions, SameUser, SameAddress,
        WouldAllow;
      var user, address := UserKey(username), IpKey(ip);
      PruneBoth(username, ip, now);
      var uq, iq := byUsername[user] + [now], byIp[address] + [now];
      ghost var e := Failed(r, username, ip, now);
      forall v
        ensures UserKey(v) == user <==> SameUser(e.user, v)
        ensures IpKey(v) == address <==> SameAddress(e.ip, v)
      {
        KeysAreShared(username, v);
        KeysAreShared(ip, v);
      }
      forall v | UserKey(v) == user ensures Tracks(uq, UserFailures(trace, v) + [now], clock, config.window, skew) {
        TracksAppended(UserQueue(v), UserFailures(trace, v), clock, now, config.window, skew);
      }
      forall v | IpKey(v) == address ensures Tracks(iq, IpFailures(trace, v) + [now], clock, config.window, skew) {
        TracksAppended(IpQueue(v), IpFailures(trace, v), clock, now, config.window, skew);
      }
      byUsername, byIp := byUsername[user := uq], byIp[address := iq];
      AfterEvent(trace, e);
      LawfulStep(config, trace, skew, e);
      trace := trace + [e];
    }

    /** `record_login_success`: the user's failures are forgotten, the address's are not. */
    method RecordLoginSuccess(ghost r: nat, username: string, ip: string, ghost now: real)
      requires Valid() && clock <= now + skew
      modifies this
      ensures Valid() && clock == Later(old(clock), now)
      ensures trace == old(trace) + [Succeeded(r, username, ip, now)]
    {
      hide UserKey, IpKey, Tracks, Lawful, UserFailures, IpFailures, UserPositions, IpPositions, SameUser, SameAddress,
        WouldAllow;
      var user := UserKey(username);
      AllLater(Later(clock, now));
      byUsername := byUsername - {user};
      clock := Later(clock, now);
      NothingTracked(clock, config.window, skew);
      ghost var e := Succeeded(r, username, ip, now);
      forall v ensures UserKey(v) == user <==> SameUser(e.user, v) {
        KeysAreShared(username, v);
      }
      AfterEvent(trace, e);
      LawfulStep(config, trace, skew, e);
      trace := trace + [e];
    }

    /** The handler raises between check and record: the queues do not hear of it. */
    ghost method Leave(r: nat, username: string, ip: string, now: real)
      requires Valid() && clock <= now + skew
      modifies this`trace, this`clock
      ensures Valid() && clock == Later(old(clock), now)
      ensures trace == old(trace) + [Left(r, username, ip, now)]
    {
      hide UserKey, IpKey, Tracks, Lawful, UserFailures, IpFailures, WouldAllow, SameUser, SameAddress;
      AllLater(Later(clock, now));
      clock := Later(clock, now);
      AfterEvent(trace, Left(r, username, ip, now));
      LawfulStep(config, trace, skew, Left(r, username, ip, now));
      trace := trace + [Left(r, username, ip, now)];
    }
  }

  lemma Counted(trace: seq<Event>, user: string, ip: string, cutoff: real)
    ensures |UserPositions(trace, user, cutoff)| == CountSince(UserFailures(trace, user), cutoff)
    ensures |IpPositions(trace, ip, cutoff)| == CountSince(IpFailures(trace, ip), cutoff)
  {
    UserCounted(trace, user, cutoff);
    IpCounted(trace, ip, cutoff);
  }

  lemma NothingTracked(now: real, window: real, skew: real)
    ensures Tracks([], [], now, window, skew)
  {}
}
