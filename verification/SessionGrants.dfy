/**
 Who is let in: for every request, exactly when it succeeds and what it then hands out or changes,
 in terms of the user rows and the token alone; and, over every run, where tokens, passwords and
 versions come from.
 */
module SessionGrants {
  import opened Options
  import opened SessionTokens

  /** The token was issued as one of this kind and has not expired. */
  predicate Valid(config: Config, s: State, t: Token, kind: TokenKind) {
    t in s.issued && t.kind == kind && s.now < t.expiresAt + config.grace
  }

  /** The token's user exists, is active, and is still at the token's version. */
  predicate Current(s: State, t: Token) {
    t.user in s.users && s.users[t.user].active && s.users[t.user].version == t.version
  }

  /** Why such a token is refused: the token itself first, then its user, then its version. */
  function Reason(config: Config, s: State, t: Token, kind: TokenKind): Refusal
    requires !(Valid(config, s, t, kind) && Current(s, t))
  {
    if t !in s.issued then TokenInvalid
    else if t.expiresAt + config.grace <= s.now then TokenExpired
    else if t.kind != kind then TokenInvalid
    else if t.user !in s.users || !s.users[t.user].active then UserInactive
    else TokenRevoked
  }

  /** In seconds; no token lives for less than a minute. */
  predicate LivesFor(t: Token, minutes: int) {
    t.expiresAt == t.issuedAt + if minutes <= 1 then 60 else 60 * minutes
  }

  /** A pair of new tokens for the row as it is in `s`, and nothing else changed. */
  predicate HandsOut(config: Config, s: State, uid: nat, s2: State, a: Answer) {
    && a.Bundle? && uid in s.users
    && s2.users == s.users && s2.nextUser == s.nextUser && s2.now == s.now
    && s2.issued == s.issued + {a.access, a.refresh}
    && a.access !in s.issued && a.refresh !in s.issued && a.access != a.refresh
    && a.access.kind == Access && a.refresh.kind == Refresh
    && LivesFor(a.access, config.accessMinutes) && LivesFor(a.refresh, config.refreshMinutes)
    && (forall t :: t in {a.access, a.refresh} ==>
          && t.user == uid && t.version == s.users[uid].version && t.mustChange == s.users[uid].mustChange
          && t.issuedAt == s.now)
  }

  /** `s2` is `s` with the version of this row raised by one. */
  predicate Raises(s: State, uid: nat, s2: State) {
    && uid in s.users
    && s2 == s.(users := s.users[uid := s.users[uid].(version := s.users[uid].version + 1)])
  }

  /** A login succeeds if and only if the row exists, is active and has that password. */
  lemma LoginExactly(config: Config, s: State, uid: nat, password: string)
    requires Sound(config, s)
    ensures var (s2, a) := Serve(config, s, Login(uid, password));
      if uid in s.users && s.users[uid].active && s.users[uid].password == password
      then HandsOut(config, s, uid, s2, a)
      else s2 == s && a == Refused(LoginFailed)
  {
    if uid in s.users && s.users[uid].active && s.users[uid].password == password {
      IssueHandsOut(config, s, uid);
    }
  }

  lemma IssueHandsOut(config: Config, s: State, uid: nat)
    requires Sound(config, s) && uid in s.users
    ensures var (s2, a) := Issue(config, s, uid); HandsOut(config, s, uid, s2, a)
  {}

  /** A refresh succeeds if and only if its token is a valid refresh token of an active user who is still
      at its version; it raises that version and hands out a pair for it. */
  lemma RefreshExactly(config: Config, s: State, t: Token)
    requires Sound(config, s)
    ensures var (s2, a) := Serve(config, s, RefreshWith(t));
      if Valid(config, s, t, Refresh) && Current(s, t)
      then exists s1 :: Raises(s, t.user, s1) && HandsOut(config, s1, t.user, s2, a)
      else s2 == s && a == Refused(Reason(config, s, t, Refresh))
  {
    if Valid(config, s, t, Refresh) && Current(s, t) {
      var s1 := Bumped(s, t.user);
      assert Raises(s, t.user, s1);
      assert Sound(config, s1);
      IssueHandsOut(config, s1, t.user);
    }
  }

  /** Logging out is always accepted, and revokes if and only if it is asked to with a valid access
      token of a user who exists; the version of the token does not matter. */
  lemma LogoutExactly(config: Config, s: State, t: Token, revokeAll: bool)
    ensures var (s2, a) := Serve(config, s, Logout(t, revokeAll));
      && a == Accepted
      && if revokeAll && Valid(config, s, t, Access) && t.user in s.users then Raises(s, t.user, s2) else s2 == s
  {}

  /** A password change succeeds if and only if the access token is valid and current, the old password
      is right and the new one is allowed. Then the new one logs in and the old one does not, and every
      token issued to the user before is outdated. */
  lemma PasswordChangeExactly(config: Config, s: State, t: Token, current: string, next: string)
    requires Sound(config, s)
    ensures var (s2, a) := Serve(config, s, ChangePassword(t, current, next));
      if Valid(config, s, t, Access) && Current(s, t) && s.users[t.user].password == current && config.passwordOk(next)
      then
        && a == Accepted && s2 == s.(users := s2.users) && s2.users.Keys == s.users.Keys
        && (forall uid :: uid in s.users && uid != t.user ==> s2.users[uid] == s.users[uid])
        && s2.users[t.user] == s.users[t.user].(password := next, mustChange := false, version := t.version + 1)
        && Serve(config, s2, Login(t.user, next)).1.Bundle?
        && (current != next ==> Serve(config, s2, Login(t.user, current)).1 == Refused(LoginFailed))
        && (forall u :: u in s.issued && u.user == t.user ==> Outdated(s2, u))
      else
        && s2 == s
        && a == Refused(if !(Valid(config, s, t, Access) && Current(s, t)) then Reason(config, s, t, Access)
                        else if s.users[t.user].password != current then WrongPassword
                        else PolicyRejected)
  {
    hide Lifetime;
  }

  /** The request that identifies its user looks at the row ... */
  lemma WhoAmIExactly(config: Config, s: State, t: Token)
    ensures var (s2, a) := Serve(config, s, WhoAmI(t));
      && s2 == s
      && a == if Valid(config, s, t, Access) && Current(s, t) then Accepted else Refused(Reason(config, s, t, Access))
  {}

  /** ... any other only at the token. */
  lemma CallExactly(config: Config, s: State, t: Token)
    ensures var (s2, a) := Serve(config, s, Call(t));
      && s2 == s && (a == Accepted || a.Refused?)
      && (a == Accepted <==> Valid(config, s, t, Access) && !t.mustChange)
      && (a == Refused(PasswordChangeRequired) <==> Valid(config, s, t, Access) && t.mustChange)
  {}

  // ---- Where things come from -----------------------------------------------------------------------

  /** What makes a row move to the next version. */
  predicate RaisedBy(config: Config, s: State, op: Op, uid: nat)
    requires uid in s.users
  {
    match op
    case RefreshWith(t) => t.user == uid && Valid(config, s, t, Refresh) && Current(s, t)
    case Logout(t, revokeAll) => t.user == uid && revokeAll && Valid(config, s, t, Access)
    case ChangePassword(t, current, next) =>
      && t.user == uid && Valid(config, s, t, Access) && Current(s, t)
      && current == s.users[uid].password && config.passwordOk(next)
    case UpdateUser(changed, password, role, active) =>
      && changed == uid
      && (password.Some? || (role.Some? && role.value != s.users[uid].role)
          || (active == Some(false) && s.users[uid].active))
    case _ => false
  }

  /** A row that a request leaves in place is at the next version if the request is one of these, and at
      the same version otherwise. */
  lemma VersionsRiseExactly(config: Config, s: State, op: Op, uid: nat)
    requires Sound(config, s) && uid in s.users && uid in Serve(config, s, op).0.users
    ensures Serve(config, s, op).0.users[uid].version
        == s.users[uid].version + if RaisedBy(config, s, op, uid) then 1 else 0
  {
    hide Lifetime;
  }

  /** A row's password changes by its user, who knows the old one, or by an administrator. */
  lemma PasswordsChangeExactly(config: Config, s: State, op: Op, uid: nat)
    requires Sound(config, s) && uid in s.users && uid in Serve(config, s, op).0.users
    ensures var password, next := s.users[uid].password, Serve(config, s, op).0.users[uid].password;
      next != password ==>
        || (op.UpdateUser? && op.uid == uid && op.newPassword == Some(next))
        || (op.ChangePassword? && op.token.user == uid && op.current == password && op.next == next
            && Valid(config, s, op.token, Access) && Current(s, op.token))
    ensures forall p, r, a :: op == UpdateUser(uid, Some(p), r, a) ==>
        Serve(config, s, op).0.users[uid].password == p
  {
    hide Lifetime;
  }

  /** What an administrator's update does to a row. */
  lemma UpdateExactly(config: Config, s: State, uid: nat, password: Option<string>, role: Option<string>,
      active: Option<bool>)
    ensures var (s2, a) := Serve(config, s, UpdateUser(uid, password, role, active));
      if uid !in s.users then s2 == s && a == Refused(NotFound)
      else
        && a == Accepted && s2 == s.(users := s2.users) && s2.users.Keys == s.users.Keys
        && (forall u :: u in s.users && u != uid ==> s2.users[u] == s.users[u])
        && s2.users[uid].name == s.users[uid].name
        && (password == None ==>
              s2.users[uid].password == s.users[uid].password && s2.users[uid].mustChange == s.users[uid].mustChange)
        && (password.Some? ==> s2.users[uid].password == password.value && !s2.users[uid].mustChange)
        && (role == None ==> s2.users[uid].role == s.users[uid].role)
        && (role.Some? ==> s2.users[uid].role == role.value)
        && (active == None ==> s2.users[uid].active == s.users[uid].active)
        && (active.Some? ==> s2.users[uid].active == active.value)
  {}

  /** Creating a user takes the next free id and starts at version 1; deleting one takes the row away; and
      waiting changes nothing but the time. */
  lemma AdministrationExactly(config: Config, s: State, user: User, uid: nat, seconds: nat)
    requires Sound(config, s)
    ensures var (s2, a) := Serve(config, s, CreateUser(user));
      && a == Accepted && s.nextUser !in s.users && s.nextUser in s2.users && s2.nextUser == s.nextUser + 1
      && s2.users[s.nextUser].version == 1 && s2.users[s.nextUser].name == user.name
      && s2.users[s.nextUser].password == user.password && s2.users[s.nextUser].role == user.role
      && s2.users[s.nextUser].active == user.active && s2.users[s.nextUser].mustChange == user.mustChange
      && (forall u :: u in s.users ==> u in s2.users && s2.users[u] == s.users[u])
      && s2.users.Keys == s.users.Keys + {s.nextUser}
      && s2.issued == s.issued && s2.now == s.now && s2.nextToken == s.nextToken
    ensures var (s2, a) := Serve(config, s, DeleteUser(uid));
      && (a == Accepted <==> uid in s.users) && (a == Refused(NotFound) <==> uid !in s.users)
      && uid !in s2.users && s2.users.Keys == s.users.Keys - {uid} && s2 == s.(users := s2.users)
      && (forall u :: u in s2.users ==> s2.users[u] == s.users[u])
    ensures Serve(config, s, Wait(seconds)) == (s.(now := s.now + seconds), Accepted)
  {}

  /** The user's password was given to a login of that user, among the first `n` requests. */
  predicate LoggedIn(states: seq<State>, ops: seq<Op>, n: nat, uid: nat)
    requires n <= |ops| < |states|
  {
    exists k, p :: 0 <= k < n && ops[k] == Login(uid, p)
      && uid in states[k].users && states[k].users[uid].active && states[k].users[uid].password == p
  }

  lemma LoggedInEarlier(states: seq<State>, ops: seq<Op>, n: nat, m: nat, uid: nat)
    requires n <= m <= |ops| < |states| && LoggedIn(states, ops, n, uid)
    ensures LoggedIn(states, ops, m, uid)
  {}

  /** A request that issues tokens is a login with the right password or a refresh with a token issued
      before. */
  lemma IssuedBy(config: Config, s: State, op: Op, t: Token)
    requires t in Serve(config, s, op).0.issued && t !in s.issued
    ensures || (op.Login? && op.uid == t.user && t.user in s.users && s.users[t.user].active
                && s.users[t.user].password == op.password)
            || (op.RefreshWith? && op.token.user == t.user && op.token in s.issued)
  {
    hide Lifetime;
  }

  /** Over every run: nobody holds a token without having logged in with the right password. */
  lemma {:induction false} TokensComeFromLogins(config: Config, states: seq<State>, ops: seq<Op>, i: nat, t: Token)
    requires IsRun(config, states, ops) && states[0] == Start && i < |states| && t in states[i].issued
    ensures LoggedIn(states, ops, i, t.user)
  {
    hide Serve, Sound, LoggedIn;
    if i > 0 {
      var s, op := states[i - 1], ops[i - 1];
      RunIsSound(config, states, ops, i - 1);
      if t in s.issued {
        TokensComeFromLogins(config, states, ops, i - 1, t);
        LoggedInEarlier(states, ops, i - 1, i, t.user);
      } else {
        IssuedBy(config, s, op, t);
        if op.Login? {
          LoginCounts(states, ops, i - 1, t.user);
        } else {
          TokensComeFromLogins(config, states, ops, i - 1, op.token);
          LoggedInEarlier(states, ops, i - 1, i, t.user);
        }
      }
    }
  }

  lemma LoginCounts(states: seq<State>, ops: seq<Op>, k: nat, uid: nat)
    requires k < |ops| < |states| && ops[k].Login? && ops[k].uid == uid
    requires uid in states[k].users && states[k].users[uid].active && states[k].users[uid].password == ops[k].password
    ensures LoggedIn(states, ops, k + 1, uid)
  {
    assert ops[k] == Login(uid, ops[k].password);
  }

  /** Over every run: as long as neither its user nor an administrator sets it again, a password that was
      set logs in while the row is active, and no other does. */
  lemma {:induction false} PasswordHolds(config: Config, states: seq<State>, ops: seq<Op>, i: nat, j: nat, uid: nat)
    requires IsRun(config, states, ops) && states[0] == Start && i <= j < |states|
    requires forall k :: i <= k < j ==>
        !ops[k].ChangePassword? && (ops[k].UpdateUser? ==> ops[k].uid != uid || ops[k].newPassword == None)
    requires uid in states[i].users && uid in states[j].users
    ensures states[j].users[uid].password == states[i].users[uid].password
    ensures forall p :: Serve(config, states[j], Login(uid, p)).1.Bundle? <==>
        states[j].users[uid].active && p == states[i].users[uid].password
    decreases j
  {
    hide Sound, Serve;
    RunIsSound(config, states, ops, j);
    if i < j {
      RunIsSound(config, states, ops, j - 1);
      RunIsSound(config, states, ops, i);
      UserStaysKnown(config, states, ops, i, j - 1, uid);
      ServeMovesOn(config, states[j - 1], ops[j - 1]);
      PasswordHolds(config, states, ops, i, j - 1, uid);
      PasswordsChangeExactly(config, states[j - 1], ops[j - 1], uid);
    }
    forall p ensures Serve(config, states[j], Login(uid, p)).1.Bundle? <==>
        states[j].users[uid].active && p == states[j].users[uid].password
    {
      LoginExactly(config, states[j], uid, p);
    }
  }

  lemma {:induction false} UserStaysKnown(config: Config, states: seq<State>, ops: seq<Op>, i: nat, j: nat, uid: nat)
    requires IsRun(config, states, ops) && states[0] == Start && i <= j < |states| && uid in states[i].users
    ensures uid < states[j].nextUser
    decreases j
  {
    hide Serve;
    if i == j {
      RunIsSound(config, states, ops, i);
    } else {
      UserStaysKnown(config, states, ops, i, j - 1, uid);
      RunIsSound(config, states, ops, j - 1);
      ServeMovesOn(config, states[j - 1], ops[j - 1]);
    }
  }
}
