/**
 Sessions: access and refresh tokens tied to a version number in the user row, and what raising
 that number invalidates, over every run of logins, refreshes, logouts, password changes and
 administration.

 A token is its claims; that it carries a valid signature is modelled as its being among the issued
 ones. Passwords stand for their hashes. Time is counted in whole seconds.
 */
module SessionTokens {
  import opened Options

  datatype TokenKind = Access | Refresh

  /** The claims of a token (section 4.1 of RFC 7519 for `iat`, `exp` and `jti`). */
  datatype Token = Token(user: nat, version: nat, kind: TokenKind, mustChange: bool, issuedAt: nat, expiresAt: nat,
      id: nat)

  datatype User = User(name: string, password: string, role: string, active: bool, version: nat, mustChange: bool)

  /** `issued` stands for the signing key, `nextToken` for the random token ids. */
  datatype State = State(users: map<nat, User>, nextUser: nat, now: nat, issued: set<Token>, nextToken: nat)

  const Start := State(map[], 0, 0, {}, 0)

  /** Configured lifetimes, the seconds past `exp` in which the JWT library still accepts a token,
      and the policy for new passwords. */
  datatype Config = Config(accessMinutes: int, refreshMinutes: int, grace: nat, passwordOk: string -> bool)

  /** `_expire_minutes`, in seconds. */
  function Lifetime(config: Config, kind: TokenKind): nat {
    var minutes := if kind == Refresh then config.refreshMinutes else config.accessMinutes;
    60 * if minutes < 1 then 1 else minutes
  }

  datatype Refusal =
    | LoginFailed
    | TokenInvalid
    | TokenExpired
    | UserInactive
    | TokenRevoked
    | WrongPassword
    | PolicyRejected
    | PasswordChangeRequired
    | NotFound

  datatype Answer = Refused(reason: Refusal) | Bundle(access: Token, refresh: Token) | Accepted

  /** One request, served on its own. `Login` names the row that has the username, if any; `Call` is
      any request outside the authentication routes. */
  datatype Op =
    | Login(uid: nat, password: string)
    | RefreshWith(token: Token)
    | Logout(token: Token, revokeAll: bool)
    | ChangePassword(token: Token, current: string, next: string)
    | WhoAmI(token: Token)
    | Call(token: Token)
    | CreateUser(user: User)
    | UpdateUser(uid: nat, newPassword: Option<string>, role: Option<string>, active: Option<bool>)
    | DeleteUser(uid: nat)
    | Wait(seconds: nat)

  // ---- Tokens -----------------------------------------------------------------------------------------

  /** `decode_token`: why a token is not accepted as one of this kind. */
  function Decode(config: Config, s: State, t: Token, kind: TokenKind): Option<Refusal> {
    if t !in s.issued then Some(TokenInvalid)
    else if s.now >= t.expiresAt + config.grace then Some(TokenExpired)
    else if t.kind != kind then Some(TokenInvalid)
    else None
  }

  function NewToken(config: Config, s: State, uid: nat, user: User, kind: TokenKind): Token {
    Token(uid, user.version, kind, user.mustChange, s.now, s.now + Lifetime(config, kind),
          if kind == Access then s.nextToken else s.nextToken + 1)
  }

  /** `build_token_bundle` */
  function Issue(config: Config, s: State, uid: nat): (State, Answer)
    requires uid in s.users
  {
    var access := NewToken(config, s, uid, s.users[uid], Access);
    var refresh := NewToken(config, s, uid, s.users[uid], Refresh);
    (s.(issued := s.issued + {access, refresh}, nextToken := s.nextToken + 2), Bundle(access, refresh))
  }

  function Bumped(s: State, uid: nat): State
    requires uid in s.users
  {
    s.(users := s.users[uid := s.users[uid].(version := s.users[uid].version + 1)])
  }

  /** The live checks of the authentication routes. */
  function Live(s: State, t: Token): Option<Refusal> {
    if t.user !in s.users || !s.users[t.user].active then Some(UserInactive)
    else if s.users[t.user].version != t.version then Some(TokenRevoked)
    else None
  }

  // ---- Requests ---------------------------------------------------------------------------------------

  function AfterLogin(config: Config, s: State, uid: nat, password: string): (State, Answer) {
    if uid !in s.users || !s.users[uid].active || s.users[uid].password != password then (s, Refused(LoginFailed))
    else Issue(config, s, uid)
  }

  /** A refresh consumes its token by raising the version of the row. */
  function AfterRefresh(config: Config, s: State, t: Token): (State, Answer) {
    match Decode(config, s, t, Refresh)
    case Some(reason) => (s, Refused(reason))
    case None =>
      match Live(s, t)
      case Some(reason) => (s, Refused(reason))
      case None => Issue(config, Bumped(s, t.user), t.user)
  }

  /** Logging out answers alike with any token; a token whose version is outdated still revokes. */
  function AfterLogout(config: Config, s: State, t: Token, revokeAll: bool): (State, Answer) {
    if Decode(config, s, t, Access).None? && t.user in s.users && revokeAll then (Bumped(s, t.user), Accepted)
    else (s, Accepted)
  }

  function AfterChangePassword(config: Config, s: State, t: Token, current: string, next: string): (State, Answer) {
    match Decode(config, s, t, Access)
    case Some(reason) => (s, Refused(reason))
    case None =>
      match Live(s, t)
      case Some(reason) => (s, Refused(reason))
      case None =>
        if s.users[t.user].password != current then (s, Refused(WrongPassword))
        else if !config.passwordOk(next) then (s, Refused(PolicyRejected))
        else
          var user := s.users[t.user];
          (s.(users := s.users[t.user := user.(password := next, mustChange := false, version := user.version + 1)]),
              Accepted)
  }

  function AfterWhoAmI(config: Config, s: State, t: Token): (State, Answer) {
    match Decode(config, s, t, Access)
    case Some(reason) => (s, Refused(reason))
    case None => match Live(s, t) case Some(reason) => (s, Refused(reason)) case None => (s, Accepted)
  }

  /** The middleware: the token alone decides; the row is not looked at. */
  function AfterCall(config: Config, s: State, t: Token): (State, Answer) {
    match Decode(config, s, t, Access)
    case Some(reason) => (s, Refused(reason))
    case None => (s, if t.mustChange then Refused(PasswordChangeRequired) else Accepted)
  }

  /** `update_user`: a new password, another role or being disabled raise the version; being enabled
      does not. */
  function AfterUpdate(s: State, uid: nat, password: Option<string>, role: Option<string>,
      active: Option<bool>): (State, Answer) {
    if uid !in s.users then (s, Refused(NotFound))
    else
      var user := s.users[uid];
      var bump := password.Some? || (role.Some? && role.value != user.role)
          || (active.Some? && active.value != user.active && !active.value);
      var changed := user.(
        password := if password.Some? then password.value else user.password,
        mustChange := user.mustChange && password.None?,
        role := if role.Some? then role.value else user.role,
        active := if active.Some? then active.value else user.active,
        version := user.version + if bump then 1 else 0);
      (s.(users := s.users[uid := changed]), Accepted)
  }

  function Serve(config: Config, s: State, op: Op): (State, Answer) {
    match op
    case Login(uid, password) => AfterLogin(config, s, uid, password)
    case RefreshWith(t) => AfterRefresh(config, s, t)
    case Logout(t, revokeAll) => AfterLogout(config, s, t, revokeAll)
    case ChangePassword(t, current, next) => AfterChangePassword(config, s, t, current, next)
    case WhoAmI(t) => AfterWhoAmI(config, s, t)
    case Call(t) => AfterCall(config, s, t)
    case CreateUser(user) => (s.(users := s.users[s.nextUser := user.(version := 1)], nextUser := s.nextUser + 1),
        Accepted)
    case UpdateUser(uid, password, role, active) => AfterUpdate(s, uid, password, role, active)
    case DeleteUser(uid) => if uid in s.users then (s.(users := s.users - {uid}), Accepted) else (s, Refused(NotFound))
    case Wait(seconds) => (s.(now := s.now + seconds), Accepted)
  }

  // ---- Runs -------------------------------------------------------------------------------------------

  predicate IsRun(config: Config, states: seq<State>, ops: seq<Op>) {
    && |states| == |ops| + 1
    && forall i :: 0 <= i < |ops| ==> states[i + 1] == Serve(config, states[i], ops[i]).0
  }

  /** The row has moved past the token: its user is gone, or has a higher version. */
  predicate Outdated(s: State, t: Token) {
    t.user < s.nextUser && (t.user in s.users ==> t.version < s.users[t.user].version)
  }

  predicate Sound(config: Config, s: State) {
    && (forall uid :: uid in s.users ==> uid < s.nextUser)
    && (forall t :: t in s.issued ==>
          && t.user < s.nextUser && t.id < s.nextToken && t.issuedAt <= s.now
          && t.expiresAt == t.issuedAt + Lifetime(config, t.kind)
          && (t.user in s.users ==> t.version <= s.users[t.user].version))
    && (forall t, u :: t in s.issued && u in s.issued && t.id == u.id ==> t == u)
  }

  lemma ServeIsSound(config: Config, s: State, op: Op)
    requires Sound(config, s)
    ensures Sound(config, Serve(config, s, op).0)
  {
    hide Lifetime;
  }

  /** Versions never fall, identities are never used again, time does not run backwards, and no token
      is ever issued for a version the row has left. */
  lemma ServeMovesOn(config: Config, s: State, op: Op)
    requires Sound(config, s)
    ensures var s2 := Serve(config, s, op).0;
      && s.nextUser <= s2.nextUser && s.now <= s2.now && s.issued <= s2.issued
      && (forall uid :: uid in s2.users && uid < s.nextUser ==>
          uid in s.users && s.users[uid].version <= s2.users[uid].version)
      && (forall t :: t in s2.issued && t !in s.issued ==> !Outdated(s2, t) && !Outdated(s, t) && t.issuedAt == s.now)
  {
    hide Lifetime;
  }

  lemma {:induction false} RunIsSound(config: Config, states: seq<State>, ops: seq<Op>, i: nat)
    requires IsRun(config, states, ops) && states[0] == Start && i < |states|
    ensures Sound(config, states[i])
  {
    hide Serve, Sound;
    if i == 0 {
      StartIsSound(config);
    } else {
      RunIsSound(config, states, ops, i - 1);
      ServeIsSound(config, states[i - 1], ops[i - 1]);
    }
  }

  lemma StartIsSound(config: Config)
    ensures Sound(config, Start)
  {}

  // ---- What raising a version does --------------------------------------------------------------------

  /** Once outdated, always outdated. */
  lemma {:induction false} OutdatedForever(config: Config, states: seq<State>, ops: seq<Op>, i: nat, j: nat, t: Token)
    requires IsRun(config, states, ops) && states[0] == Start && i <= j < |states| && Outdated(states[i], t)
    ensures Outdated(states[j], t)
    decreases j
  {
    hide Serve, Sound;
    if i < j {
      OutdatedForever(config, states, ops, i, j - 1, t);
      RunIsSound(config, states, ops, j - 1);
      ServeMovesOn(config, states[j - 1], ops[j - 1]);
    }
  }

  /** An outdated token refreshes nothing, changes no password and identifies nobody. */
  lemma OutdatedRefused(config: Config, s: State, t: Token, current: string, next: string)
    requires Outdated(s, t)
    ensures Serve(config, s, RefreshWith(t)).1.Refused? && Serve(config, s, RefreshWith(t)).0 == s
    ensures Serve(config, s, ChangePassword(t, current, next)).1.Refused?
    ensures Serve(config, s, ChangePassword(t, current, next)).0 == s
    ensures Serve(config, s, WhoAmI(t)).1.Refused?
  {}

  /** Whatever raises a user's version outdates every token issued to that user so far, in every
      session. */
  lemma RaisingOutdatesAll(config: Config, s: State, op: Op, t: Token)
    requires Sound(config, s) && t in s.issued && t.user in s.users
    requires var s2 := Serve(config, s, op).0; t.user in s2.users && s.users[t.user].version < s2.users[t.user].version
    ensures Outdated(Serve(config, s, op).0, t)
  {
    hide Serve;
    ServeMovesOn(config, s, op);
  }

  /** A refresh that succeeds outdates the token it was given and all its siblings, and hands out a
      pair that is not outdated. */
  lemma RefreshConsumes(config: Config, s: State, t: Token)
    requires Sound(config, s) && Serve(config, s, RefreshWith(t)).1.Bundle?
    ensures var (s2, a) := Serve(config, s, RefreshWith(t));
      && (forall u :: u in s.issued && u.user == t.user ==> Outdated(s2, u))
      && t in s.issued && !Outdated(s2, a.access) && !Outdated(s2, a.refresh)
      && a.access in s2.issued && a.refresh in s2.issued
  {}

  /** Refresh tokens are single use over every run. */
  lemma SingleUse(config: Config, states: seq<State>, ops: seq<Op>, i: nat, j: nat, t: Token)
    requires IsRun(config, states, ops) && states[0] == Start && i < j < |ops|
    requires ops[i] == RefreshWith(t) && ops[j] == RefreshWith(t)
    requires Serve(config, states[i], ops[i]).1.Bundle?
    ensures Serve(config, states[j], ops[j]).1.Refused?
  {
    hide Serve, Sound;
    RunIsSound(config, states, ops, i);
    RefreshConsumes(config, states[i], t);
    OutdatedForever(config, states, ops, i + 1, j, t);
    OutdatedRefused(config, states[j], t, "", "");
  }

  // ---- How long an outdated access token still works ----------------------------------------------------

  /** A token that is outdated at some point was issued before it, if ever. */
  lemma {:induction false} IssuedBefore(config: Config, states: seq<State>, ops: seq<Op>, i: nat, j: nat, t: Token)
    requires IsRun(config, states, ops) && states[0] == Start && i <= j < |states|
    requires Outdated(states[i], t) && t in states[j].issued
    ensures t in states[i].issued
    decreases j
  {
    hide Serve, Sound;
    if i < j {
      OutdatedForever(config, states, ops, i, j - 1, t);
      OutdatedForever(config, states, ops, i, j, t);
      RunIsSound(config, states, ops, j - 1);
      ServeMovesOn(config, states[j - 1], ops[j - 1]);
      IssuedBefore(config, states, ops, i, j - 1, t);
    }
  }

  /** The middleware takes an outdated access token, but only within the lifetime of access tokens
      after the moment that outdated it. */
  lemma OutdatedAccessExpires(config: Config, states: seq<State>, ops: seq<Op>, i: nat, j: nat, t: Token)
    requires IsRun(config, states, ops) && states[0] == Start && i <= j < |states|
    requires Outdated(states[i], t) && Decode(config, states[j], t, Access).None?
    ensures states[j].now < states[i].now + Lifetime(config, Access) + config.grace
  {
    hide Serve, Lifetime;
    IssuedBefore(config, states, ops, i, j, t);
    RunIsSound(config, states, ops, i);
  }

  /** ... and takes it whenever it has not expired: nothing but time stops an access token there. */
  lemma AccessWorksUntilExpiry(config: Config, states: seq<State>, ops: seq<Op>, i: nat, j: nat, t: Token)
    requires IsRun(config, states, ops) && states[0] == Start && i <= j < |states|
    requires t in states[i].issued && t.kind == Access && states[j].now < t.expiresAt + config.grace
    ensures Decode(config, states[j], t, Access).None?
    ensures Serve(config, states[j], Call(t)).1 == if t.mustChange then Refused(PasswordChangeRequired) else Accepted
  {
    hide Sound;
    StillIssued(config, states, ops, i, j, t);
  }

  lemma {:induction false} StillIssued(config: Config, states: seq<State>, ops: seq<Op>, i: nat, j: nat, t: Token)
    requires IsRun(config, states, ops) && states[0] == Start && i <= j < |states| && t in states[i].issued
    ensures t in states[j].issued
    decreases j
  {
    hide Serve, Sound;
    if i < j {
      StillIssued(config, states, ops, i, j - 1, t);
      RunIsSound(config, states, ops, j - 1);
      ServeMovesOn(config, states[j - 1], ops[j - 1]);
    }
  }

  /** A refresh token works as long as its user is active at the same version and it has not expired. */
  lemma RefreshWorks(config: Config, states: seq<State>, ops: seq<Op>, i: nat, j: nat)
    requires IsRun(config, states, ops) && states[0] == Start && i < j < |states|
    requires Serve(config, states[i], ops[i]).1.Bundle?
    requires var t := Serve(config, states[i], ops[i]).1.refresh;
      t.user in states[j].users && states[j].users[t.user].active && states[j].users[t.user].version == t.version
      && states[j].now < t.expiresAt + config.grace
    ensures Serve(config, states[j], RefreshWith(Serve(config, states[i], ops[i]).1.refresh)).1.Bundle?
  {
    hide Sound;
    var t := Serve(config, states[i], ops[i]).1.refresh;
    assert t in states[i + 1].issued && t.kind == Refresh;
    StillIssued(config, states, ops, i + 1, j, t);
  }

  // ---- The handlers -------------------------------------------------------------------------------------

  /** The authentication routes over the user table. */
  class AuthRouter {
    const config: Config
    var users: map<nat, User>
    var nextUser: nat
    var now: nat
    var issued: set<Token>
    var nextToken: nat

    function Value(): State
      reads this
    {
      State(users, nextUser, now, issued, nextToken)
    }

    constructor (config: Config)
      ensures Value() == Start && this.config == config
    {
      this.config := config;
      users, nextUser, now, issued, nextToken := map[], 0, 0, {}, 0;
    }

    method BuildTokenBundle(uid: nat) returns (a: Answer)
      requires uid in users
      modifies this`issued, this`nextToken
      ensures (Value(), a) == Issue(config, old(Value()), uid)
    {
      var access := NewToken(config, Value(), uid, users[uid], Access);
      var refresh := NewToken(config, Value(), uid, users[uid], Refresh);
      issued, nextToken := issued + {access, refresh}, nextToken + 2;
      a := Bundle(access, refresh);
    }

    method LoginUser(uid: nat, password: string) returns (a: Answer)
      modifies this
      ensures (Value(), a) == Serve(config, old(Value()), Login(uid, password))
    {
      if uid !in users || !users[uid].active || users[uid].password != password {
        return Refused(LoginFailed);
      }
      a := BuildTokenBundle(uid);
    }

    method RefreshSession(t: Token) returns (a: Answer)
      modifies this
      ensures (Value(), a) == Serve(config, old(Value()), RefreshWith(t))
    {
      var problem := Decode(config, Value(), t, Refresh);
      if problem.Some? {
        return Refused(problem.value);
      }
      if t.user !in users || !users[t.user].active {
        return Refused(UserInactive);
      }
      var user := users[t.user];
      if user.version != t.version {
        return Refused(TokenRevoked);
      }
      users := users[t.user := user.(version := user.version + 1)];
      a := BuildTokenBundle(t.user);
    }

    method LogoutUser(t: Token, revokeAll: bool) returns (a: Answer)
      modifies this
      ensures (Value(), a) == Serve(config, old(Value()), Logout(t, revokeAll))
    {
      if Decode(config, Value(), t, Access).None? && t.user in users {
        if revokeAll {
          users := users[t.user := users[t.user].(version := users[t.user].version + 1)];
        }
      }
      a := Accepted;
    }

    method ChangeOwnPassword(t: Token, current: string, next: string) returns (a: Answer)
      modifies this
      ensures (Value(), a) == Serve(config, old(Value()), ChangePassword(t, current, next))
    {
      var problem := Decode(config, Value(), t, Access);
      if problem.Some? {
        return Refused(problem.value);
      }
      if t.user !in users || !users[t.user].active {
        return Refused(UserInactive);
      }
      var user := users[t.user];
      if user.version != t.version {
        return Refused(TokenRevoked);
      }
      if user.password != current {
        return Refused(WrongPassword);
      }
      if !config.passwordOk(next) {
        return Refused(PolicyRejected);
      }
      user := user.(password := next);
      user := user.(mustChange := false);
      user := user.(version := user.version + 1);
      users := users[t.user := user];
      a := Accepted;
    }
  }
}
