/**
 How many failed logins the throttle lets through: in any interval as long as its window, for one
 address and for one username between its successes, serially and with requests in flight.
 */
module LoginBounds {
  import opened LoginHistory
  import opened LoginThrottle

  /** Each request is admitted once, ends at most once, and only after it was admitted. */
  ghost predicate Disciplined(trace: seq<Event>) {
    && (forall i, j :: 0 <= i < j < |trace| && trace[i].r == trace[j].r ==> trace[i].Admitted? && !trace[j].Admitted?)
    && forall i :: 0 <= i < |trace| && !trace[i].Admitted? ==> exists b :: Started(trace, b, i)
  }

  /** Position `b` is where the request ending at position `i` was admitted; it read the clock for its
      check before it read it again. */
  ghost predicate Started(trace: seq<Event>, b: int, i: int) {
    && 0 <= b < i < |trace|
    && trace[b] == Admitted(trace[i].r, trace[i].user, trace[i].ip, trace[b].at) && trace[b].at <= trace[i].at
  }

  ghost function Start(trace: seq<Event>, i: nat): (b: nat)
    requires Disciplined(trace) && i < |trace| && !trace[i].Admitted?
    ensures Started(trace, b, i)
  {
    var b :| Started(trace, b, i);
    b
  }

  /** Requests admitted up to position `b` and not yet ended by then, by where they were admitted. */
  ghost function InFlight(trace: seq<Event>, b: nat): set<nat> {
    set i: nat | i <= b && i < |trace| && trace[i].Admitted?
               && forall k :: i < k <= b && k < |trace| ==> trace[k].r != trace[i].r
  }

  ghost predicate AtMostInFlight(trace: seq<Event>, n: nat) {
    forall b: nat :: |InFlight(trace, b)| <= n
  }

  // ---- Counting -------------------------------------------------------------------------------------

  lemma {:induction false} SubsetSize(a: set<nat>, b: set<nat>)
    requires a <= b
    ensures |a| <= |b|
    decreases b
  {
    if x :| x in a {
      SubsetSize(a - {x}, b - {x});
    }
  }

  lemma {:induction false} Largest(s: set<nat>) returns (largest: nat)
    requires s != {}
    ensures largest in s && forall x :: x in s ==> x <= largest
    decreases s
  {
    var some :| some in s;
    var rest := s - {some};
    assert s == rest + {some};
    largest := some;
    if rest != {} {
      var other := Largest(rest);
      largest := if other > some then other else some;
    }
  }

  lemma StartsDiffer(trace: seq<Event>, i: nat, k: nat)
    requires Disciplined(trace) && i < |trace| && k < |trace| && !trace[i].Admitted? && !trace[k].Admitted? && i != k
    ensures Start(trace, i) != Start(trace, k)
  {}

  function Ends(trace: seq<Event>): set<nat> {
    set i: nat | i < |trace| && !trace[i].Admitted?
  }

  ghost function Starts(trace: seq<Event>, ends: set<nat>): set<nat>
    requires Disciplined(trace) && ends <= Ends(trace)
  {
    set i | i in ends :: Start(trace, i)
  }

  /** Different requests were admitted at different positions. */
  lemma {:induction false} AsManyStarts(trace: seq<Event>, ends: set<nat>)
    requires Disciplined(trace) && ends <= Ends(trace)
    ensures |ends| == |Starts(trace, ends)|
    decreases ends
  {
    hide Disciplined, Started;
    if x :| x in ends {
      var rest := ends - {x};
      AsManyStarts(trace, rest);
      forall i | i in rest ensures Start(trace, x) != Start(trace, i) {
        StartsDiffer(trace, x, i);
      }
      assert Starts(trace, ends) == Starts(trace, rest) + {Start(trace, x)};
    }
  }

  // ---- The argument ---------------------------------------------------------------------------------

  lemma StillInFlight(trace: seq<Event>, i: nat, b: nat)
    requires Disciplined(trace) && i < |trace| && !trace[i].Admitted? && Start(trace, i) <= b < i
    ensures Start(trace, i) in InFlight(trace, b)
  {
    var s := Start(trace, i);
    forall k | s < k <= b ensures trace[k].r != trace[s].r {}
  }

  function Before(ends: set<nat>, b: nat): set<nat> {
    set i | i in ends && i < b
  }

  /** Take the request of `ends` that was admitted last, at position `b`: the others ended before,
      and count at its check, or were in flight at that moment. */
  lemma LastCheckDecides(trace: seq<Event>, ends: set<nat>, n: nat) returns (b: nat, j: nat)
    requires Disciplined(trace) && AtMostInFlight(trace, n)
    requires ends != {} && ends <= Ends(trace)
    ensures j in ends && Start(trace, j) == b
    ensures |ends| <= |Before(ends, b)| + n
  {
    hide Disciplined, Started, InFlight;
    var some :| some in ends;
    assert Start(trace, some) in Starts(trace, ends);
    b := Largest(Starts(trace, ends));
    j :| j in ends && Start(trace, j) == b;
    StartFacts(trace, j);
    var before, after := Before(ends, b), set i | i in ends && i > b;
    assert ends == before + after;
    AsManyStarts(trace, after);
    forall i | i in after ensures Start(trace, i) in InFlight(trace, b) {
      assert Start(trace, i) in Starts(trace, ends);
      StillInFlight(trace, i, b);
    }
    SubsetSize(Starts(trace, after), InFlight(trace, b));
  }

  // ---- The bounds -----------------------------------------------------------------------------------

  /** Failures from the address of `ip`, between two times. */
  function IpFailuresIn(trace: seq<Event>, ip: string, start: real, length: real): set<nat> {
    set i: nat | i < |trace| && trace[i].Failed? && SameAddress(trace[i].ip, ip)
        && start <= trace[i].at <= start + length
  }

  /** In any interval of the window's length, at most `limit + n - 1` failures are recorded for one
      address when never more than `n` requests are between check and record; when requests overtake
      each other at the lock, in any interval shorter than the window by as much as they do. */
  lemma IpBound(config: Config, trace: seq<Event>, skew: real, ip: string, start: real, length: real, n: nat)
    requires Lawful(config, trace, skew) && Disciplined(trace) && AtMostInFlight(trace, n) && n > 0
    requires length + skew <= config.window
    ensures |IpFailuresIn(trace, ip, start, length)| <= config.maxFailuresPerIp + n - 1
  {
    hide Disciplined, Started, SameAddress, SameUser;
    var ends := IpFailuresIn(trace, ip, start, length);
    if ends != {} {
      var b, j := LastCheckDecides(trace, ends, n);
      StartFacts(trace, j);
      var cutoff := trace[b].at + skew - config.window;
      var earlier := Before(ends, b);
      assert earlier <= IpPositions(trace[..b], ip, cutoff);
      SubsetSize(earlier, IpPositions(trace[..b], ip, cutoff));
      SamePositions(trace[..b], trace[b].ip, ip, cutoff);
      assert WouldAllow(config, trace[..b], trace[b].user, trace[b].ip, trace[b].at + skew);
    } else {
      assert |ends| == 0;
    }
  }

  lemma StartFacts(trace: seq<Event>, j: nat)
    requires Disciplined(trace) && j < |trace| && !trace[j].Admitted?
    ensures var b := Start(trace, j);
      && b < j && trace[b].Admitted? && trace[b].user == trace[j].user && trace[b].ip == trace[j].ip
      && trace[b].at <= trace[j].at
  {}

  /** Failures of `user`, between two times and two positions. */
  function UserFailuresIn(trace: seq<Event>, user: string, start: real, length: real, lo: nat, hi: nat): set<nat> {
    set i: nat | lo <= i < hi && i < |trace| && trace[i].Failed? && SameUser(trace[i].user, user)
        && start <= trace[i].at <= start + length
  }

  /** The same for one username, in any stretch of the history without a success of that user. */
  lemma UserBound(config: Config, trace: seq<Event>, skew: real, user: string, start: real, length: real, lo: nat,
      hi: nat, n: nat)
    requires Lawful(config, trace, skew) && Disciplined(trace) && AtMostInFlight(trace, n) && n > 0
    requires length + skew <= config.window && !SucceedsIn(trace, user, lo, hi)
    ensures |UserFailuresIn(trace, user, start, length, lo, hi)| <= config.maxFailuresPerUsername + n - 1
  {
    hide Disciplined, Started, SameAddress, SameUser;
    var ends := UserFailuresIn(trace, user, start, length, lo, hi);
    if ends != {} {
      var b, j := LastCheckDecides(trace, ends, n);
      StartFacts(trace, j);
      var cutoff := trace[b].at + skew - config.window;
      var earlier := Before(ends, b);
      forall i | i in earlier ensures i in UserPositions(trace[..b], user, cutoff) {
        SucceedsWithin(trace, user, i, b, lo, hi);
      }
      SubsetSize(earlier, UserPositions(trace[..b], user, cutoff));
      SamePositions(trace[..b], trace[b].user, user, cutoff);
      assert WouldAllow(config, trace[..b], trace[b].user, trace[b].ip, trace[b].at + skew);
    } else {
      assert |ends| == 0;
    }
  }

  // ---- One request at a time ------------------------------------------------------------------------

  /** The history of logins that are served one after the other: each is admitted, then ends. */
  predicate Serial(trace: seq<Event>) {
    && |trace| % 2 == 0
    && (forall i :: 0 <= i < |trace| ==> trace[i].r == i / 2 && (trace[i].Admitted? <==> i % 2 == 0))
    && forall i :: 0 <= i < |trace| && i % 2 == 1 ==>
         trace[i].user == trace[i - 1].user && trace[i].ip == trace[i - 1].ip && trace[i - 1].at <= trace[i].at
  }

  lemma SerialIsDisciplined(trace: seq<Event>)
    requires Serial(trace)
    ensures Disciplined(trace) && AtMostInFlight(trace, 1)
  {
    forall i | 0 <= i < |trace| && !trace[i].Admitted? ensures exists b :: Started(trace, b, i) {
      assert Started(trace, i - 1, i);
    }
    forall b: nat ensures |InFlight(trace, b)| <= 1 {
      forall i | i in InFlight(trace, b) ensures i == b {
        assert i + 1 < |trace| && trace[i + 1].r == trace[i].r;
      }
      SubsetSize(InFlight(trace, b), {b});
    }
  }

  /** How a login that was let in ends: with good credentials, with bad ones, or by raising. */
  datatype Outcome = Accepted | Rejected | Raised

  /** What `login` does with the throttle: it lets the request in if and only if fewer failures than the
      limits are held against its user and its address; then it records how it went, if it gets that far. */
  method Login(throttle: LoginThrottle, username: string, ip: string, checkedAt: real, endedAt: real, outcome: Outcome)
    returns (admitted: bool)
    requires throttle.Valid() && throttle.skew == 0.0 && Serial(throttle.trace)
    requires throttle.clock <= checkedAt <= endedAt
    modifies throttle
    ensures throttle.Valid() && Serial(throttle.trace)
    ensures admitted == WouldAllow(throttle.config, old(throttle.trace), username, ip, checkedAt)
    ensures !admitted ==> throttle.trace == old(throttle.trace)
    ensures admitted ==>
      var r := |old(throttle.trace)| / 2;
      throttle.trace == old(throttle.trace)
        + [Admitted(r, username, ip, checkedAt),
            Ending(r, username, ip, endedAt, outcome)]
  {
    hide UserKey, IpKey, WouldAllow, Lawful, Tracks, UserFailures, IpFailures, Serial, QueueOf, LoginThrottle.Valid;
    ghost var before, r := throttle.trace, |throttle.trace| / 2;
    admitted := throttle.CheckLoginAllowed(r, username, ip, checkedAt);
    if !admitted {
      assert before + [] == before;
      return;
    }
    match outcome {
      case Accepted => throttle.RecordLoginSuccess(r, username, ip, endedAt);
      case Rejected => throttle.RecordLoginFailure(r, username, ip, endedAt);
      case Raised => throttle.Leave(r, username, ip, endedAt);
    }
    SerialTwo(before, Admitted(r, username, ip, checkedAt), Ending(r, username, ip, endedAt, outcome));
  }

  function Ending(r: nat, user: string, ip: string, at: real, outcome: Outcome): Event {
    match outcome
    case Accepted => Succeeded(r, user, ip, at)
    case Rejected => Failed(r, user, ip, at)
    case Raised => Left(r, user, ip, at)
  }

  lemma SerialTwo(trace: seq<Event>, a: Event, b: Event)
    requires Serial(trace) && a.Admitted? && !b.Admitted? && a.r == b.r == |trace| / 2 && a.user == b.user
    requires a.ip == b.ip
    requires a.at <= b.at
    ensures Serial(trace + [a, b]) && trace + [a] + [b] == trace + [a, b]
  {}

  /** Logins served one after the other, with the default limits: in any 15 minutes at most 40
      failures from one address, and at most 8 of one username between its successes. */
  lemma SerialBounds(trace: seq<Event>, ip: string, user: string, start: real, lo: nat, hi: nat)
    requires Lawful(DEFAULT, trace, 0.0) && Serial(trace) && !SucceedsIn(trace, user, lo, hi)
    ensures |IpFailuresIn(trace, ip, start, 900.0)| <= 40
    ensures |UserFailuresIn(trace, user, start, 900.0, lo, hi)| <= 8
  {
    hide Lawful, Disciplined, AtMostInFlight, Serial;
    SerialIsDisciplined(trace);
    IpBound(DEFAULT, trace, 0.0, ip, start, 900.0, 1);
    UserBound(DEFAULT, trace, 0.0, user, start, 900.0, lo, hi, 1);
  }
}
