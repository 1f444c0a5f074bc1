/**
 Refreshes that overlap: `refresh` reads the user row, compares, and writes the raised version back
 without holding the row in between. What then becomes of "single use", and exactly when.
 */
module SessionRaces {
  import opened Options
  import opened SessionTokens
  import opened SessionGrants

  /** What a refresh has read when it goes on to write. */
  datatype Reading = Reading(token: Token, mustChange: bool)

  /** The sessions, and the refreshes that have passed their checks and not committed yet. */
  datatype Racing = Racing(base: State, reading: map<nat, Reading>)

  /** A request served on its own, or one of the two halves of refresh `r`. */
  datatype Step = Serial(op: Op) | Begin(r: nat, token: Token) | Commit(r: nat)

  predicate CanTake(s: Racing, step: Step) {
    match step
    case Serial(_) => true
    case Begin(r, _) => r !in s.reading
    case Commit(r) => r in s.reading
  }

  /** Reading the row and comparing. */
  function AfterBegin(config: Config, s: Racing, r: nat, t: Token): (Racing, Answer) {
    match Decode(config, s.base, t, Refresh)
    case Some(reason) => (s, Refused(reason))
    case None =>
      match Live(s.base, t)
      case Some(reason) => (s, Refused(reason))
      case None => (s.(reading := s.reading[r := Reading(t, s.base.users[t.user].mustChange)]), Accepted)
  }

  /** Writing the version that was read, plus one, and issuing tokens for it. */
  function AfterCommit(config: Config, s: Racing, r: nat): (Racing, Answer)
    requires r in s.reading
  {
    var t, rest := s.reading[r].token, s.reading - {r};
    if t.user !in s.base.users then (Racing(s.base, rest), Refused(NotFound))
    else
      var user := s.base.users[t.user].(version := t.version + 1);
      var base := s.base.(users := s.base.users[t.user := user]);
      var shown := user.(mustChange := s.reading[r].mustChange);
      var access, refresh := NewToken(config, base, t.user, shown, Access),
          NewToken(config, base, t.user, shown, Refresh);
      (Racing(base.(issued := base.issued + {access, refresh}, nextToken := base.nextToken + 2), rest),
          Bundle(access, refresh))
  }

  function Take(config: Config, s: Racing, step: Step): (Racing, Answer)
    requires CanTake(s, step)
  {
    match step
    case Serial(op) => var (base, a) := Serve(config, s.base, op); (s.(base := base), a)
    case Begin(r, t) => AfterBegin(config, s, r, t)
    case Commit(r) => AfterCommit(config, s, r)
  }

  predicate IsRace(config: Config, states: seq<Racing>, steps: seq<Step>) {
    && |states| == |steps| + 1 && states[0] == Racing(Start, map[])
    && forall i :: 0 <= i < |steps| ==>
        CanTake(states[i], steps[i]) && states[i + 1] == Take(config, states[i], steps[i]).0
  }

  // ---- One half at a time ----------------------------------------------------------------------------

  /** A refresh gets past its checks if and only if its token is a valid refresh token of an active user
      who is at its version then; nothing is written yet. */
  lemma BeginExactly(config: Config, s: Racing, r: nat, t: Token)
    ensures var (s2, a) := AfterBegin(config, s, r, t);
      if Valid(config, s.base, t, Refresh) && Current(s.base, t)
      then a == Accepted && s2 == s.(reading := s.reading[r := Reading(t, s.base.users[t.user].mustChange)])
      else s2 == s && a == Refused(Reason(config, s.base, t, Refresh))
  {}

  /** A commit fails if and only if the user is gone; otherwise it writes the version that was read, plus
      one, whatever the row has now, and hands out a new pair for it. */
  lemma CommitWrites(config: Config, s: Racing, r: nat)
    requires r in s.reading
    ensures var (s2, a) := AfterCommit(config, s, r);
      var t := s.reading[r].token;
      && s2.reading == s.reading - {r}
      && if t.user !in s.base.users then s2.base == s.base && a == Refused(NotFound)
         else
           && a.Bundle? && s2.base.now == s.base.now && s2.base.nextUser == s.base.nextUser
           && s2.base.users == s.base.users[t.user := s.base.users[t.user].(version := t.version + 1)]
           && s2.base.issued == s.base.issued + {a.access, a.refresh}
           && a.access.kind == Access && a.refresh.kind == Refresh && a.access.user == a.refresh.user == t.user
           && a.access.version == a.refresh.version == t.version + 1
           && LivesFor(a.access, config.accessMinutes) && LivesFor(a.refresh, config.refreshMinutes)
  {}

  // ---- One commit -----------------------------------------------------------------------------------

  /** The row is as it was read, and the token would still pass. */
  predicate Unraced(config: Config, s: Racing, r: nat)
    requires r in s.reading
  {
    var t := s.reading[r].token;
    && Decode(config, s.base, t, Refresh).None? && Live(s.base, t).None?
    && s.base.users[t.user].mustChange == s.reading[r].mustChange
  }

  /** A commit does what a refresh served at that moment would do if and only if the row is as it was
      read; it lowers the version if and only if the version has since been raised twice. */
  lemma CommitExactly(config: Config, s: Racing, r: nat)
    requires r in s.reading && AfterCommit(config, s, r).1.Bundle?
    ensures var (s2, a) := AfterCommit(config, s, r);
      var t := s.reading[r].token;
      && ((s2.base, a) == AfterRefresh(config, s.base, t) <==> Unraced(config, s, r))
      && t.user in s.base.users && t.user in s2.base.users
      && (s2.base.users[t.user].version < s.base.users[t.user].version <==>
          s.base.users[t.user].version > t.version + 1)
  {
    var t := s.reading[r].token;
    if Unraced(config, s, r) {
      assert s.base.users[t.user].(mustChange := s.reading[r].mustChange) == s.base.users[t.user];
    }
  }

  // ---- Two refreshes with one token -----------------------------------------------------------------

  /** Two refreshes with the same working token: if the second begins before the first commits, both
      succeed, with tokens that are both current; if it begins later, it is refused. */
  lemma BothSucceedExactly(config: Config, s: Racing, t: Token, q: nat, r: nat)
    requires Sound(config, s.base) && AfterRefresh(config, s.base, t).1.Bundle?
    requires q != r && q !in s.reading && r !in s.reading
    ensures var s1 := AfterBegin(config, s, q, t).0;
      q in s1.reading
      && var s2 := AfterBegin(config, s1, r, t).0;
      q in s2.reading && r in s2.reading
      && var (s3, a) := AfterCommit(config, s2, q);
      r in s3.reading
      && var (s4, b) := AfterCommit(config, s3, r);
      a.Bundle? && b.Bundle? && a.refresh != b.refresh
      && Live(s4.base, a.refresh).None? && Live(s4.base, b.refresh).None?
    ensures var s1 := AfterBegin(config, s, q, t).0;
      var s2 := AfterCommit(config, s1, q).0;
      AfterBegin(config, s2, r, t).1.Refused?
  {
    hide Lifetime, Sound;
  }

  // ---- Runs without a race --------------------------------------------------------------------------

  /** If this step commits a refresh, the row still has the version that was read. */
  predicate Clean(s: Racing, step: Step)
    requires CanTake(s, step)
  {
    step.Commit? ==>
      var t := s.reading[step.r].token;
      t.user in s.base.users ==> s.base.users[t.user].version == t.version
  }

  predicate SoundRace(config: Config, s: Racing) {
    Sound(config, s.base) && forall r :: r in s.reading ==> s.reading[r].token in s.base.issued
  }

  lemma TakeIsSound(config: Config, s: Racing, step: Step)
    requires SoundRace(config, s) && CanTake(s, step) && Clean(s, step)
    ensures SoundRace(config, Take(config, s, step).0)
    ensures forall t :: Outdated(s.base, t) ==> Outdated(Take(config, s, step).0.base, t)
  {
    match step
    case Serial(op) =>
      hide Serve, Sound;
      ServeIsSound(config, s.base, op);
      ServeMovesOn(config, s.base, op);
    case Begin(r, t) =>
    case Commit(r) =>
      hide Lifetime;
  }

  lemma {:induction false} RaceIsSound(config: Config, states: seq<Racing>, steps: seq<Step>, i: nat)
    requires IsRace(config, states, steps) && i < |states|
    requires forall k :: 0 <= k < |steps| ==> Clean(states[k], steps[k])
    ensures SoundRace(config, states[i])
  {
    hide Take, Clean, SoundRace;
    if i == 0 {
      NothingIsSound(config);
    } else {
      RaceIsSound(config, states, steps, i - 1);
      TakeIsSound(config, states[i - 1], steps[i - 1]);
    }
  }

  lemma NothingIsSound(config: Config)
    ensures SoundRace(config, Racing(Start, map[]))
  {}

  lemma {:induction false} StaysOutdated(config: Config, states: seq<Racing>, steps: seq<Step>, i: nat, j: nat,
      t: Token)
    requires IsRace(config, states, steps) && i <= j < |states| && Outdated(states[i].base, t)
    requires forall k :: 0 <= k < |steps| ==> Clean(states[k], steps[k])
    ensures Outdated(states[j].base, t)
    decreases j
  {
    hide Take, Clean, SoundRace, Outdated;
    if i < j {
      StaysOutdated(config, states, steps, i, j - 1, t);
      RaceIsSound(config, states, steps, j - 1);
      TakeIsSound(config, states[j - 1], steps[j - 1]);
    }
  }

  /** This step hands out a pair of tokens for refresh token `t`. */
  predicate Uses(config: Config, s: Racing, step: Step, t: Token)
    requires CanTake(s, step)
  {
    && (step == Serial(RefreshWith(t)) || (step.Commit? && s.reading[step.r].token == t))
    && Take(config, s, step).1.Bundle?
  }

  lemma UseOutdates(config: Config, s: Racing, step: Step, t: Token)
    requires SoundRace(config, s) && CanTake(s, step) && Uses(config, s, step, t)
    ensures Outdated(Take(config, s, step).0.base, t)
  {
    hide Lifetime;
  }

  lemma OutdatedIsUseless(config: Config, s: Racing, step: Step, t: Token)
    requires CanTake(s, step) && Clean(s, step) && Outdated(s.base, t)
    ensures !Uses(config, s, step, t)
  {}

  /** Over every run, refreshes overlapping or not, a refresh token is single use as long as each commit
      finds the version that its refresh has read. */
  lemma SingleUseUnlessRaced(config: Config, states: seq<Racing>, steps: seq<Step>, i: nat, j: nat, t: Token)
    requires IsRace(config, states, steps) && i < j < |steps|
    requires forall k :: 0 <= k < |steps| ==> Clean(states[k], steps[k])
    requires Uses(config, states[i], steps[i], t)
    ensures !Uses(config, states[j], steps[j], t)
  {
    hide Take, Clean, SoundRace, Outdated, Uses;
    RaceIsSound(config, states, steps, i);
    UseOutdates(config, states[i], steps[i], t);
    StaysOutdated(config, states, steps, i + 1, j, t);
    OutdatedIsUseless(config, states[j], steps[j], t);
  }

  // ---- Runs with races ------------------------------------------------------------------------------

  /** User ids are below the counter, tokens are of such users, and only issued tokens are being used. */
  predicate IdsKnown(s: Racing) {
    && (forall uid :: uid in s.base.users ==> uid < s.base.nextUser)
    && (forall t :: t in s.base.issued ==> t.user < s.base.nextUser)
    && forall r :: r in s.reading ==> s.reading[r].token in s.base.issued
  }

  /** A user that is gone does not come back. */
  lemma TakeKnows(config: Config, s: Racing, step: Step)
    requires CanTake(s, step) && IdsKnown(s)
    ensures var s2 := Take(config, s, step).0;
      && IdsKnown(s2) && s.base.nextUser <= s2.base.nextUser
      && forall uid :: uid in s2.base.users && uid < s.base.nextUser ==> uid in s.base.users
  {
    hide Lifetime;
  }

  lemma {:induction false} RaceKnows(config: Config, states: seq<Racing>, steps: seq<Step>, i: nat)
    requires IsRace(config, states, steps) && i < |states|
    ensures IdsKnown(states[i])
  {
    hide Take, IdsKnown;
    if i == 0 {
      NothingIsKnown();
    } else {
      RaceKnows(config, states, steps, i - 1);
      TakeKnows(config, states[i - 1], steps[i - 1]);
    }
  }

  lemma NothingIsKnown()
    ensures IdsKnown(Racing(Start, map[]))
  {}

  /** Step `k` lowers the version of the user. */
  predicate LowersAt(states: seq<Racing>, k: nat, uid: nat)
    requires k + 1 < |states|
  {
    uid in states[k].base.users && uid in states[k + 1].base.users
    && states[k + 1].base.users[uid].version < states[k].base.users[uid].version
  }

  lemma {:induction false} VersionHolds(config: Config, states: seq<Racing>, steps: seq<Step>, a: nat, b: nat, uid: nat)
    requires IsRace(config, states, steps) && a <= b < |states|
    requires uid < states[a].base.nextUser && uid in states[b].base.users
    requires forall k :: a <= k < b ==> !LowersAt(states, k, uid)
    ensures uid in states[a].base.users && states[a].base.users[uid].version <= states[b].base.users[uid].version
    decreases b
  {
    hide Take, IdsKnown;
    if a < b {
      CounterGrows(config, states, steps, a, b - 1);
      RaceKnows(config, states, steps, b - 1);
      TakeKnows(config, states[b - 1], steps[b - 1]);
      VersionHolds(config, states, steps, a, b - 1, uid);
      assert !LowersAt(states, b - 1, uid);
    }
  }

  lemma {:induction false} CounterGrows(config: Config, states: seq<Racing>, steps: seq<Step>, a: nat, b: nat)
    requires IsRace(config, states, steps) && a <= b < |states|
    ensures states[a].base.nextUser <= states[b].base.nextUser
    decreases b
  {
    hide Take, IdsKnown;
    if a < b {
      CounterGrows(config, states, steps, a, b - 1);
      RaceKnows(config, states, steps, b - 1);
      TakeKnows(config, states[b - 1], steps[b - 1]);
    }
  }

  /** Where a refresh that is to be committed in state `j` has begun. */
  predicate BeganAt(states: seq<Racing>, steps: seq<Step>, b: nat, j: nat, r: nat) {
    && b < j < |states| && |states| == |steps| + 1 && r in states[j].reading
    && steps[b] == Begin(r, states[j].reading[r].token)
    && forall m :: b < m <= j ==> r in states[m].reading && states[m].reading[r] == states[j].reading[r]
  }

  lemma {:induction false} Began(config: Config, states: seq<Racing>, steps: seq<Step>, j: nat, r: nat) returns (b: nat)
    requires IsRace(config, states, steps) && j < |states| && r in states[j].reading
    ensures BeganAt(states, steps, b, j, r)
  {
    hide Serve, NewToken, Decode, Live;
    if r in states[j - 1].reading {
      b := Began(config, states, steps, j - 1, r);
    } else {
      b := j - 1;
    }
  }

  /** Using a token raises the version past it. */
  lemma UseRaises(config: Config, s: Racing, step: Step, t: Token)
    requires CanTake(s, step) && IdsKnown(s) && Uses(config, s, step, t)
    ensures var s2 := Take(config, s, step).0;
      t.user < s2.base.nextUser && t.user in s2.base.users && s2.base.users[t.user].version == t.version + 1
  {
    hide Lifetime;
  }

  /** After its first use a token is refused at the next `Begin`, unless some commit in between has
      lowered the version again. */
  lemma BeginsTooLate(config: Config, states: seq<Racing>, steps: seq<Step>, i: nat, b: nat, r: nat, t: Token)
    requires IsRace(config, states, steps) && i < b < |steps| && Uses(config, states[i], steps[i], t)
    requires steps[b] == Begin(r, t)
    requires forall k :: i < k < b ==> !LowersAt(states, k, t.user)
    ensures Take(config, states[b], steps[b]).1.Refused?
  {
    hide Uses, IdsKnown;
    RaceKnows(config, states, steps, i);
    UseRaises(config, states[i], steps[i], t);
    if t.user in states[b].base.users {
      VersionHolds(config, states, steps, i + 1, b, t.user);
    }
  }

  lemma BeganWell(config: Config, states: seq<Racing>, steps: seq<Step>, b: nat, j: nat, r: nat)
    requires IsRace(config, states, steps) && BeganAt(states, steps, b, j, r)
    ensures !Take(config, states[b], steps[b]).1.Refused?
  {
    assert states[b + 1] == Take(config, states[b], steps[b]).0 && r in states[b + 1].reading
        && r !in states[b].reading;
  }

  /** Over every run: a refresh with a token that was used before hands out tokens again if and only if
      its user is still there; and it can only have got that far by beginning before that use, or after
      a commit that lowered the version. */
  lemma UsedAgainExactly(config: Config, states: seq<Racing>, steps: seq<Step>, i: nat, j: nat, r: nat, t: Token)
    returns (b: nat)
    requires IsRace(config, states, steps) && i < j < |steps| && Uses(config, states[i], steps[i], t)
    requires steps[j] == Commit(r) && states[j].reading[r].token == t
    ensures Uses(config, states[j], steps[j], t) <==> t.user in states[j].base.users
    ensures BeganAt(states, steps, b, j, r)
    ensures b < i || exists k :: i < k < b && LowersAt(states, k, t.user)
  {
    b := Began(config, states, steps, j, r);
    if i < b && forall k :: i < k < b ==> !LowersAt(states, k, t.user) {
      BeginsTooLate(config, states, steps, i, b, r, t);
      BeganWell(config, states, steps, b, j, r);
    }
  }

  /** Both happen. That the second use begins before the first commits is `BothSucceedExactly`; and with
      refresh `q` of an older token `u` in flight, a token works twice in a row. */
  lemma WorksTwice(config: Config, s: Racing, u: Token, q: nat)
    requires Sound(config, s.base) && AfterRefresh(config, s.base, u).1.Bundle? && q !in s.reading
    ensures var s1 := AfterBegin(config, s, q, u).0;
      var (b2, first) := Serve(config, s1.base, RefreshWith(u));
      first.Bundle?
      && var t := first.refresh;
      var (b3, once) := Serve(config, b2, RefreshWith(t));
      once.Bundle? && q in s1.reading
      && var s4 := AfterCommit(config, Racing(b3, s1.reading), q).0;
      Serve(config, s4.base, RefreshWith(t)).1.Bundle?
  {}

  // ---- Revoking while a refresh is in flight --------------------------------------------------------

  /** What a commit hands out is current, whatever has happened to the row since it was read. */
  lemma CommitIsCurrent(config: Config, s: Racing, r: nat)
    requires r in s.reading && AfterCommit(config, s, r).1.Bundle?
    ensures var (s2, a) := AfterCommit(config, s, r);
      var t := s.reading[r].token;
      && t.user in s.base.users
      && (s.base.users[t.user].active ==> Live(s2.base, a.access).None? && Live(s2.base, a.refresh).None?)
      && s2.base.users[t.user].version == t.version + 1
  {}

  /** A password change or a logout everywhere that comes while a refresh is in flight does not reach
      it: the token would be refused from then on, but the refresh still hands out current ones. */
  lemma RevocationSurvived(config: Config, s: Racing, r: nat, op: Op, again: nat)
    requires r in s.reading && s.reading[r].token.user in s.base.users
    requires s.base.users[s.reading[r].token.user].version == s.reading[r].token.version && again !in s.reading
    requires var uid, base := s.reading[r].token.user, Serve(config, s.base, op).0;
      uid in base.users && base.users[uid].active && s.base.users[uid].version < base.users[uid].version
    ensures var t, s1 := s.reading[r].token, s.(base := Serve(config, s.base, op).0);
      && AfterBegin(config, s1, again, t).1.Refused?
      && var (s2, a) := AfterCommit(config, s1, r);
      a.Bundle? && Live(s2.base, a.access).None? && Live(s2.base, a.refresh).None?
  {
    hide Serve;
  }

  // ---- Where tokens come from -----------------------------------------------------------------------

  /** The user's password was given to a login of that user, among the first `n` steps. */
  predicate LoggedInBefore(states: seq<Racing>, steps: seq<Step>, n: nat, uid: nat)
    requires n <= |steps| < |states|
  {
    exists k, p :: 0 <= k < n && steps[k] == Serial(Login(uid, p))
      && uid in states[k].base.users && states[k].base.users[uid].active && states[k].base.users[uid].password == p
  }

  lemma StillLoggedIn(states: seq<Racing>, steps: seq<Step>, n: nat, uid: nat)
    requires n + 1 <= |steps| < |states| && LoggedInBefore(states, steps, n, uid)
    ensures LoggedInBefore(states, steps, n + 1, uid)
  {}

  lemma LoginCounted(states: seq<Racing>, steps: seq<Step>, k: nat, uid: nat)
    requires k < |steps| < |states| && steps[k].Serial? && steps[k].op.Login? && steps[k].op.uid == uid
    requires uid in states[k].base.users && states[k].base.users[uid].active
    requires states[k].base.users[uid].password == steps[k].op.password
    ensures LoggedInBefore(states, steps, k + 1, uid)
  {
    assert steps[k] == Serial(Login(uid, steps[k].op.password));
  }

  /** A step issues tokens to a user who logs in, or whose issued token it was given or had read. */
  lemma IssuedByStep(config: Config, s: Racing, step: Step, t: Token) returns (from: Option<Token>)
    requires CanTake(s, step) && IdsKnown(s) && t in Take(config, s, step).0.base.issued && t !in s.base.issued
    ensures from.Some? ==> from.value in s.base.issued && from.value.user == t.user
    ensures from.None? ==>
      && step.Serial? && step.op.Login? && step.op.uid == t.user && t.user in s.base.users
      && s.base.users[t.user].active && s.base.users[t.user].password == step.op.password
  {
    match step
    case Serial(op) =>
      hide Serve;
      IssuedBy(config, s.base, op, t);
      from := if op.Login? then None else Some(op.token);
    case Begin(_, _) =>
      from := None;
    case Commit(r) =>
      from := Some(s.reading[r].token);
  }

  /** Over every run, refreshes overlapping or not: nobody holds a token without a login with the right
      password. */
  lemma {:induction false} EveryTokenFromLogin(config: Config, states: seq<Racing>, steps: seq<Step>, i: nat, t: Token)
    requires IsRace(config, states, steps) && i < |states| && t in states[i].base.issued
    ensures LoggedInBefore(states, steps, i, t.user)
    decreases i
  {
    hide Take, IdsKnown, LoggedInBefore;
    if i > 0 {
      var s, step := states[i - 1], steps[i - 1];
      RaceKnows(config, states, steps, i - 1);
      if t in s.base.issued {
        EveryTokenFromLogin(config, states, steps, i - 1, t);
        StillLoggedIn(states, steps, i - 1, t.user);
      } else {
        var from := IssuedByStep(config, s, step, t);
        if from.Some? {
          EveryTokenFromLogin(config, states, steps, i - 1, from.value);
          StillLoggedIn(states, steps, i - 1, t.user);
        } else {
          LoginCounted(states, steps, i - 1, t.user);
        }
      }
    }
  }
}
