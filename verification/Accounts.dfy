/**
 * Who the users are and what becomes of their logins, read off the history: accounts are created,
 * verified and given a second factor by events, and a login succeeds for exactly the account it fits.
 */
module Accounts {
  import opened AuthConfig
  import opened CacheKeys
  import opened Options
  import opened RefreshRows
  import opened Sessions
  import opened SessionTheorems
  import opened TokenCache

  // ---- Reading the history ------------------------------------------------------------------

  /** What one event makes of an account. */
  function AccountAfter(before: Option<User>, o: Obs, id: string): Option<User> {
    match o.event
    case CreateUser(db, newId, email, signup, memberOf) =>
      if newId == id && o.result.Done? then Some(User(db, email, false, false, signup, memberOf)) else before
    case GoogleLogin(email, code, _, newId, signup, _, _) =>
      if newId == id && LoginAttempt(o.result, "root", id) then Some(User(Root, email, true, false, signup, Some(code))) else before
    case VerifyEmail(db, _, _, _, _) =>
      if before.Some? && LoginAttempt(o.result, CodeOf(db), id) then Some(before.value.(verified := true)) else before
    case SetTwoFactor(changed, on) =>
      if changed == id && before.Some? then Some(before.value.(twoFactor := on)) else before
    case _ => before
  }

  /** The account with this id, as the history has it. */
  function AccountOf(log: seq<Obs>, id: string): Option<User> {
    if log == [] then None
    else AccountAfter(AccountOf(log[..|log| - 1], id), log[|log| - 1], id)
  }

  /** Whether the client was last set to paid. */
  function PaidIn(log: seq<Obs>, code: string): bool {
    if log == [] then false
    else
      var o := log[|log| - 1];
      if o.event.SetClient? && o.event.code == code then o.event.isPaid else PaidIn(log[..|log| - 1], code)
  }

  /** What the last `SetTwoFactor` for the user that took effect said. */
  function TwoFactorIn(log: seq<Obs>, id: string): bool {
    if log == [] then false
    else
      var o := log[|log| - 1];
      if o.event.SetTwoFactor? && o.event.id == id && o.result.Done? then o.event.on else TwoFactorIn(log[..|log| - 1], id)
  }

  predicate AccountWithEmail(log: seq<Obs>, id: string, db: Db, email: string) {
    var account := AccountOf(log, id);
    account.Some? && account.value.db == db && account.value.email == email
  }

  // ---- Emails and signup tokens are unique --------------------------------------------------

  /** Per database, emails (by the schema) and signup tokens (made by uuid) are unique. */
  ghost predicate UniqueUsers(users: map<string, User>) {
    forall a, b :: (a in users && b in users && users[a].db == users[b].db
                    && (users[a].email == users[b].email || users[a].signupToken == users[b].signupToken)) ==> a == b
  }

  /** What a plan leaves of the users stays unique. */
  ghost predicate Tidy(p: Plan) {
    p.Edit? || p.LogIn? ==> UniqueUsers(p.users)
  }

  lemma UserAdded(s: State, id: string, user: User)
    requires UniqueUsers(s.users) && id !in s.users
    requires FreshSignup(s, user.signupToken) && FindByEmail(s.users, user.db, user.email).None?
    ensures UniqueUsers(s.users[id := user])
  {
    assert forall a :: a in s.users ==> !HasEmail(s.users, a, user.db, user.email);
  }

  lemma UserChanged(s: State, id: string, user: User)
    requires UniqueUsers(s.users) && id in s.users
    requires user.db == s.users[id].db && user.email == s.users[id].email && user.signupToken == s.users[id].signupToken
    ensures UniqueUsers(s.users[id := user])
  {
  }

  lemma EditTidy(s: State, e: Event)
    requires UniqueUsers(s.users) && Enabled(s, e) && (e.CreateUser? || e.SetTwoFactor? || e.SetClient? || e.Tick?)
    ensures Tidy(Decide(s, e))
  {
    hide UniqueUsers;
    match e {
      case CreateUser(db, id, email, signup, memberOf) =>
        if FindByEmail(s.users, db, email).None? {
          UserAdded(s, id, User(db, email, false, false, signup, memberOf));
        }
      case SetTwoFactor(id, on) =>
        if id in s.users {
          UserChanged(s, id, s.users[id].(twoFactor := on));
        }
      case _ =>
    }
  }

  lemma LogInTidy(s: State, e: Event)
    requires UniqueUsers(s.users) && Enabled(s, e) && (e.PasswordLogin? || e.GoogleLogin? || e.VerifyEmail?)
    ensures Tidy(Decide(s, e))
  {
    hide UniqueUsers;
    match e {
      case GoogleLogin(email, code, ip, newId, signup, access, refresh) =>
        if FindByEmail(s.users, Root, email).None? {
          UserAdded(s, newId, User(Root, email, true, false, signup, Some(code)));
        }
      case VerifyEmail(db, signup, ip, access, refresh) =>
        var found := FindBySignupToken(s.users, db, signup);
        if found.Some? {
          UserChanged(s, found.value, s.users[found.value].(verified := true));
        }
      case _ =>
    }
  }

  lemma DecideTidy(s: State, e: Event)
    requires UniqueUsers(s.users) && Enabled(s, e)
    ensures Tidy(Decide(s, e))
  {
    if e.CreateUser? || e.SetTwoFactor? || e.SetClient? || e.Tick? {
      EditTidy(s, e);
    } else if e.PasswordLogin? || e.GoogleLogin? || e.VerifyEmail? {
      LogInTidy(s, e);
    } else {
      hide UniqueUsers, Found;
    }
  }

  lemma TablesOfPlan(cfg: Config, s: State, p: Plan)
    ensures
      var s' := Apply(cfg, s, p).state;
      && s'.users == (if p.Edit? || p.LogIn? then p.users else s.users)
      && s'.clients == (if p.Edit? then p.clients else s.clients)
  {
    hide BlacklistUser, ClearUser, Purge, InvalidateRows, InvalidateRow;
  }

  lemma EditsOfEvent(s: State, e: Event)
    ensures
      var p := Decide(s, e);
      && (p.LogIn? ==> e.PasswordLogin? || e.GoogleLogin? || e.VerifyEmail?)
      && (p.Edit? ==> e.CreateUser? || e.SetTwoFactor? || e.SetClient?)
      && (p.Edit? && !e.SetClient? ==> p.clients == s.clients)
      && (e.SetClient? ==> p == Edit(s.users, s.clients[e.code := e.isPaid]))
  {
    hide Found;
  }

  lemma StepUniqueUsers(cfg: Config, s: State, e: Event)
    requires UniqueUsers(s.users) && Enabled(s, e)
    ensures UniqueUsers(Step(cfg, s, e).state.users)
  {
    hide Apply, Decide, Enabled, UniqueUsers;
    DecideTidy(s, e);
    TablesOfPlan(cfg, s, Decide(s, e));
  }

  lemma {:induction false} RunUniqueUsers(cfg: Config, start: nat, es: seq<Event>)
    requires Legal(cfg, start, es)
    ensures UniqueUsers(Run(cfg, start, es).state.users)
  {
    hide Step, Enabled;
    if es != [] {
      RunUniqueUsers(cfg, start, es[..|es| - 1]);
      StepUniqueUsers(cfg, Run(cfg, start, es[..|es| - 1]).state, es[|es| - 1]);
    }
  }

  // ---- Logins -------------------------------------------------------------------------------

  /** What a login leaves: the attempt's outcome follows the second factor. */
  lemma LoginOutcome(cfg: Config, s: State, db: Db, user: string, ip: string, access: string, refresh: string)
    requires user in s.users
    ensures
      var n := Login(cfg, s, db, user, ip, access, refresh);
      && n.result == (if s.users[user].twoFactor then TwoFactorRequired(CodeOf(db), user)
                      else Issued(ByLogin, CodeOf(db), user, access, Some(refresh)))
      && n.state.users == s.users && n.state.clients == s.clients && n.alarm == None
  {
    hide RevokeSessions, GenerateTokens;
    SameTables(cfg, s, db, user);
    SameTablesGenerated(cfg, RevokeSessions(cfg, s, db, user), db, user, ip, access, refresh);
  }

  lemma SameTables(cfg: Config, s: State, db: Db, user: string)
    ensures RevokeSessions(cfg, s, db, user).users == s.users && RevokeSessions(cfg, s, db, user).clients == s.clients
  {
  }

  lemma SameTablesGenerated(cfg: Config, s: State, db: Db, user: string, ip: string, access: string, refresh: string)
    ensures
      var s' := GenerateTokens(cfg, s, db, user, ip, access, refresh);
      s'.users == s.users && s'.clients == s.clients
  {
  }

  /** An attempt by somebody, in the terms of the machine's login. */
  lemma AttemptOf(cfg: Config, s: State, db: Db, user: string, ip: string, access: string, refresh: string, c: string, u: string)
    requires user in s.users
    ensures LoginAttempt(Login(cfg, s, db, user, ip, access, refresh).result, c, u) <==> c == CodeOf(db) && u == user
  {
    hide Login;
    LoginOutcome(cfg, s, db, user, ip, access, refresh);
  }

  /** The step of a login event: refused with no effect, or a login over some users. */
  lemma LoginOrRefusal(cfg: Config, s: State, e: Event)
    requires e.PasswordLogin? || e.GoogleLogin? || e.VerifyEmail?
    ensures
      var p, n := Decide(s, e), Step(cfg, s, e);
      && (p.Refuse? || p.LogIn?) && (p.Refuse? ==> n == Next(s, Rejected, None))
      && (p.LogIn? ==> n == Login(cfg, s.(users := p.users), p.db, p.user, p.ip, p.access, p.refresh)
                       && p.ip == e.ip && p.access == e.access && p.refresh == e.refresh)
  {
    hide Login;
  }

  predicate FitsPassword(s: State, e: Event, u: string)
    requires e.PasswordLogin?
  {
    e.passwordOk && HasEmail(s.users, u, Root, e.email) && s.users[u].verified
  }

  predicate FitsGoogle(s: State, e: Event, u: string)
    requires e.GoogleLogin?
  {
    HasEmail(s.users, u, Root, e.email) && s.users[u].client == Some(e.code) && s.users[u].verified
  }

  predicate FitsVerify(s: State, e: Event, u: string)
    requires e.VerifyEmail?
  {
    HasSignupToken(s.users, u, e.db, e.signupToken) && !s.users[u].verified
  }

  function WithGoogleUser(users: map<string, User>, e: Event): map<string, User>
    requires e.GoogleLogin?
  {
    users[e.newId := User(Root, e.email, true, false, e.signupToken, Some(e.code))]
  }

  lemma PasswordPlan(s: State, e: Event)
    requires UniqueUsers(s.users) && e.PasswordLogin?
    ensures
      var p := Decide(s, e);
      forall u :: FitsPassword(s, e, u) <==> p == LogIn(s.users, Root, u, e.ip, e.access, e.refresh)
    ensures Decide(s, e).Refuse? || (Decide(s, e).LogIn? && FitsPassword(s, e, Decide(s, e).user))
  {
    var found := FindByEmail(s.users, Root, e.email);
    assert forall u :: HasEmail(s.users, u, Root, e.email) ==> found == Some(u);
  }

  lemma GooglePlan(s: State, e: Event)
    requires UniqueUsers(s.users) && e.GoogleLogin? && Enabled(s, e)
    ensures
      var p := Decide(s, e);
      var paid := e.code in s.clients && s.clients[e.code];
      var known := exists u :: HasEmail(s.users, u, Root, e.email);
      && (known ==> forall u :: paid && FitsGoogle(s, e, u) <==> p == LogIn(s.users, Root, u, e.ip, e.access, e.refresh))
      && (known ==> p.Refuse? || (p.LogIn? && p.users == s.users && FitsGoogle(s, e, p.user) && paid))
      && (!known ==> p == if paid then LogIn(WithGoogleUser(s.users, e), Root, e.newId, e.ip, e.access, e.refresh) else Refuse)
  {
    var found := FindByEmail(s.users, Root, e.email);
    assert forall u :: HasEmail(s.users, u, Root, e.email) ==> found == Some(u);
  }

  lemma VerifyPlan(s: State, e: Event)
    requires UniqueUsers(s.users) && e.VerifyEmail?
    ensures
      var p := Decide(s, e);
      && (forall u :: FitsVerify(s, e, u) ==>
            p == LogIn(s.users[u := s.users[u].(verified := true)], e.db, u, e.ip, e.access, e.refresh))
      && (p.Refuse? || (p.LogIn? && p.db == e.db && FitsVerify(s, e, p.user)
                        && p.users == s.users[p.user := s.users[p.user].(verified := true)]))
  {
    var found := FindBySignupToken(s.users, e.db, e.signupToken);
    assert forall u :: HasSignupToken(s.users, u, e.db, e.signupToken) ==> found == Some(u);
  }

  // ---- The users follow the history ---------------------------------------------------------

  function Lookup(users: map<string, User>, id: string): Option<User> {
    if id in users then Some(users[id]) else None
  }

  lemma EditStep(cfg: Config, s: State, e: Event, id: string)
    requires Enabled(s, e) && (e.CreateUser? || e.SetTwoFactor? || e.SetClient? || e.Tick?)
    ensures
      var n := Step(cfg, s, e);
      Lookup(n.state.users, id) == AccountAfter(Lookup(s.users, id), Obs(e, n.result, n.alarm, s.now), id)
  {
    hide Purge;
  }

  lemma LogInStep(cfg: Config, s: State, e: Event, id: string)
    requires UniqueUsers(s.users) && Enabled(s, e) && (e.PasswordLogin? || e.GoogleLogin? || e.VerifyEmail?)
    ensures
      var n := Step(cfg, s, e);
      Lookup(n.state.users, id) == AccountAfter(Lookup(s.users, id), Obs(e, n.result, n.alarm, s.now), id)
  {
    hide Step, Decide, Login, LoginAttempt, UniqueUsers;
    var p := Decide(s, e);
    LoginOrRefusal(cfg, s, e);
    if p.LogIn? {
      LogInPlanUsers(s, e);
      LoginOutcome(cfg, s.(users := p.users), p.db, p.user, p.ip, p.access, p.refresh);
      AttemptOf(cfg, s.(users := p.users), p.db, p.user, p.ip, p.access, p.refresh, CodeOf(p.db), id);
    } else {
      RejectedIsNoAttempt(id);
    }
  }

  lemma RejectedIsNoAttempt(id: string)
    ensures forall c :: !LoginAttempt(Rejected, c, id)
  {
  }

  /** What a login plan does to the users, by event. */
  lemma LogInPlanUsers(s: State, e: Event)
    requires UniqueUsers(s.users) && Enabled(s, e) && Decide(s, e).LogIn?
    ensures
      var p := Decide(s, e);
      && p.user in p.users
      && (e.PasswordLogin? ==> p.users == s.users && p.db == Root)
      && (e.GoogleLogin? ==> p.db == Root && p.users == (if p.user == e.newId then WithGoogleUser(s.users, e) else s.users))
      && (e.VerifyEmail? ==> p.db == e.db && p.user in s.users && p.users == s.users[p.user := s.users[p.user].(verified := true)])
  {
    hide Found;
  }

  lemma OtherStep(cfg: Config, s: State, e: Event)
    requires e.RefreshAccess? || e.Rotate? || e.RevokeRefresh? || e.Validate? || e.VerifyToken?
    ensures Step(cfg, s, e).state.users == s.users && Step(cfg, s, e).state.clients == s.clients
  {
    hide Apply;
    TablesOfPlan(cfg, s, Decide(s, e));
    EditsOfEvent(s, e);
  }

  lemma AccountStep(cfg: Config, s: State, e: Event, id: string)
    requires UniqueUsers(s.users) && Enabled(s, e)
    ensures
      var n := Step(cfg, s, e);
      Lookup(n.state.users, id) == AccountAfter(Lookup(s.users, id), Obs(e, n.result, n.alarm, s.now), id)
  {
    hide Step, Enabled, UniqueUsers;
    if e.CreateUser? || e.SetTwoFactor? || e.SetClient? || e.Tick? {
      EditStep(cfg, s, e, id);
    } else if e.PasswordLogin? || e.GoogleLogin? || e.VerifyEmail? {
      LogInStep(cfg, s, e, id);
    } else {
      OtherStep(cfg, s, e);
    }
  }

  /** Over every legal run the table of users is the one the history describes. */
  lemma {:induction false} UsersFollowHistory(cfg: Config, start: nat, es: seq<Event>, id: string)
    requires Legal(cfg, start, es)
    ensures Lookup(Run(cfg, start, es).state.users, id) == AccountOf(Run(cfg, start, es).log, id)
  {
    hide Step, Enabled, AccountAfter, UniqueUsers;
    if es != [] {
      var before, e := es[..|es| - 1], es[|es| - 1];
      var w, w' := Run(cfg, start, before), Run(cfg, start, es);
      UsersFollowHistory(cfg, start, before, id);
      RunUniqueUsers(cfg, start, before);
      AccountStep(cfg, w.state, e, id);
      assert w'.log[..|w.log|] == w.log;
    }
  }

  lemma ClientStep(cfg: Config, s: State, e: Event)
    ensures
      Step(cfg, s, e).state.clients == if e.SetClient? then s.clients[e.code := e.isPaid] else s.clients
  {
    hide Apply;
    TablesOfPlan(cfg, s, Decide(s, e));
    EditsOfEvent(s, e);
  }

  /** Likewise for which clients have paid. */
  lemma {:induction false} ClientsFollowHistory(cfg: Config, start: nat, es: seq<Event>, code: string)
    ensures
      var w := Run(cfg, start, es);
      (code in w.state.clients && w.state.clients[code]) <==> PaidIn(w.log, code)
  {
    hide Step;
    if es != [] {
      var before, e := es[..|es| - 1], es[|es| - 1];
      ClientsFollowHistory(cfg, start, before, code);
      ClientStep(cfg, Run(cfg, start, before).state, e);
      assert Run(cfg, start, es).log[..|before|] == Run(cfg, start, before).log by { LogFollowsEvents(cfg, start, before); }
    }
  }

  /** The second factor is what was last set. */
  lemma TwoFactorStep(cfg: Config, s: State, e: Event)
    requires e.SetTwoFactor?
    ensures Step(cfg, s, e).result.Done? <==> e.id in s.users
  {
  }

  lemma {:induction false} TwoFactorFollowsHistory(cfg: Config, start: nat, es: seq<Event>, id: string)
    requires Legal(cfg, start, es)
    ensures
      var account := AccountOf(Run(cfg, start, es).log, id);
      TwoFactorIn(Run(cfg, start, es).log, id) == (account.Some? && account.value.twoFactor)
  {
    hide Step, Enabled;
    if es != [] {
      var before, e := es[..|es| - 1], es[|es| - 1];
      var w, w' := Run(cfg, start, before), Run(cfg, start, es);
      TwoFactorFollowsHistory(cfg, start, before, id);
      UsersFollowHistory(cfg, start, before, id);
      if e.SetTwoFactor? {
        TwoFactorStep(cfg, w.state, e);
      }
      NewAccount(cfg, w.state, e, id);
      assert w'.log[..|w.log|] == w.log;
    }
  }

  /** An account is new when its event makes it: until then nothing was set for it. */
  lemma NewAccount(cfg: Config, s: State, e: Event, id: string)
    requires Enabled(s, e)
    ensures (e.CreateUser? && e.id == id) || (e.GoogleLogin? && e.newId == id) ==> id !in s.users
  {
  }

  // ---- What becomes of a login --------------------------------------------------------------

  /**
   * A password login is an attempt by exactly the verified root user with that email, and only with
   * the right password; otherwise it is refused and changes nothing.
   */
  lemma PasswordLoginAnswers(cfg: Config, start: nat, es: seq<Event>, e: Event)
    requires Legal(cfg, start, es) && e.PasswordLogin? && Enabled(Run(cfg, start, es).state, e)
    ensures
      var w := Run(cfg, start, es);
      forall c, u :: LoginAttempt(Step(cfg, w.state, e).result, c, u) <==>
        && c == "root" && e.passwordOk
        && AccountWithEmail(w.log, u, Root, e.email) && AccountOf(w.log, u).value.verified
    ensures
      var s := Run(cfg, start, es).state;
      (forall u :: !LoginAttempt(Step(cfg, s, e).result, "root", u)) ==> Step(cfg, s, e) == Next(s, Rejected, None)
  {
    var w := Run(cfg, start, es);
    hide Run, Legal, Step, LoginAttempt, UniqueUsers, AccountOf, Enabled;
    RunUniqueUsers(cfg, start, es);
    forall u { UsersFollowHistory(cfg, start, es, u); }
    PasswordStep(cfg, w.state, e);
    RefusedChangesNothing(cfg, w.state, e, "root");
  }

  lemma PasswordStep(cfg: Config, s: State, e: Event)
    requires UniqueUsers(s.users) && e.PasswordLogin?
    ensures forall c, u :: LoginAttempt(Step(cfg, s, e).result, c, u) <==> c == "root" && FitsPassword(s, e, u)
  {
    hide Step, Decide, LoginAttempt, UniqueUsers;
    PasswordPlan(s, e);
    hide FitsPassword;
    if Decide(s, e).LogIn? {
      LogInUsers(s, e);
    }
    AttemptsOfPlan(cfg, s, e);
  }

  /** A login event without an attempt is a refusal with no effect. */
  lemma RefusedChangesNothing(cfg: Config, s: State, e: Event, code: string)
    requires e.PasswordLogin? || e.GoogleLogin? || e.VerifyEmail?
    requires code == if e.VerifyEmail? then CodeOf(e.db) else "root"
    ensures (forall u :: !LoginAttempt(Step(cfg, s, e).result, code, u)) ==> Step(cfg, s, e) == Next(s, Rejected, None)
  {
    hide Step, Decide, Login, LoginAttempt, Enabled;
    var p := Decide(s, e);
    LoginOrRefusal(cfg, s, e);
    if p.LogIn? {
      LogInUsers(s, e);
      AttemptsOfPlan(cfg, s, e);
      assert LoginAttempt(Step(cfg, s, e).result, code, p.user);
    }
  }

  lemma LogInUsers(s: State, e: Event)
    requires Decide(s, e).LogIn?
    ensures
      var p := Decide(s, e);
      p.user in p.users && p.db == if e.VerifyEmail? then e.db else Root
  {
    hide Found;
  }

  /** The attempts a login event makes: its plan's, or none. */
  lemma AttemptsOfPlan(cfg: Config, s: State, e: Event)
    requires e.PasswordLogin? || e.GoogleLogin? || e.VerifyEmail?
    requires Decide(s, e).LogIn? ==> Decide(s, e).user in Decide(s, e).users
    ensures
      var p := Decide(s, e);
      forall c, u :: LoginAttempt(Step(cfg, s, e).result, c, u) <==> p.LogIn? && c == CodeOf(p.db) && u == p.user
  {
    var p := Decide(s, e);
    hide Decide, Step, Login;
    LoginOrRefusal(cfg, s, e);
    if p.LogIn? {
      forall c, u { AttemptOf(cfg, s.(users := p.users), p.db, p.user, p.ip, p.access, p.refresh, c, u); }
    }
  }

  /**
   * A Google login needs a paid client. If the email is known it is an attempt by exactly that user,
   * who has to belong to the client and be verified; if not, by the new user.
   */
  lemma GoogleLoginAnswers(cfg: Config, start: nat, es: seq<Event>, e: Event)
    requires Legal(cfg, start, es) && e.GoogleLogin? && Enabled(Run(cfg, start, es).state, e)
    ensures
      var w := Run(cfg, start, es);
      forall c, u :: LoginAttempt(Step(cfg, w.state, e).result, c, u) <==>
        && c == "root" && PaidIn(w.log, e.code)
        && if exists v :: AccountWithEmail(w.log, v, Root, e.email)
           then AccountWithEmail(w.log, u, Root, e.email)
                && AccountOf(w.log, u).value.client == Some(e.code) && AccountOf(w.log, u).value.verified
           else u == e.newId
    ensures
      var s := Run(cfg, start, es).state;
      (forall u :: !LoginAttempt(Step(cfg, s, e).result, "root", u)) ==> Step(cfg, s, e) == Next(s, Rejected, None)
  {
    var w := Run(cfg, start, es);
    hide Run, Legal, Step, LoginAttempt, UniqueUsers, AccountOf, PaidIn, Enabled;
    RunUniqueUsers(cfg, start, es);
    ClientsFollowHistory(cfg, start, es, e.code);
    forall u { UsersFollowHistory(cfg, start, es, u); }
    assert forall u :: HasEmail(w.state.users, u, Root, e.email) <==> AccountWithEmail(w.log, u, Root, e.email);
    GoogleStep(cfg, w.state, e);
    RefusedChangesNothing(cfg, w.state, e, "root");
  }

  lemma GoogleStep(cfg: Config, s: State, e: Event)
    requires UniqueUsers(s.users) && e.GoogleLogin? && Enabled(s, e)
    ensures
      forall c, u :: LoginAttempt(Step(cfg, s, e).result, c, u) <==>
        && c == "root" && e.code in s.clients && s.clients[e.code]
        && if exists v :: HasEmail(s.users, v, Root, e.email) then FitsGoogle(s, e, u) else u == e.newId
  {
    hide Step, Decide, LoginAttempt, UniqueUsers, Enabled;
    GooglePlan(s, e);
    hide FitsGoogle, HasEmail;
    if Decide(s, e).LogIn? {
      LogInUsers(s, e);
    }
    AttemptsOfPlan(cfg, s, e);
  }

  /** Verifying an email is an attempt by exactly the still unverified user with that signup token. */
  lemma VerifyEmailAnswers(cfg: Config, start: nat, es: seq<Event>, e: Event)
    requires Legal(cfg, start, es) && e.VerifyEmail? && Enabled(Run(cfg, start, es).state, e)
    ensures
      var w := Run(cfg, start, es);
      forall c, u :: LoginAttempt(Step(cfg, w.state, e).result, c, u) <==>
        var account := AccountOf(w.log, u);
        && c == CodeOf(e.db) && account.Some? && account.value.db == e.db
        && account.value.signupToken == e.signupToken && !account.value.verified
    ensures
      var s := Run(cfg, start, es).state;
      (forall u :: !LoginAttempt(Step(cfg, s, e).result, CodeOf(e.db), u)) ==> Step(cfg, s, e) == Next(s, Rejected, None)
  {
    var w := Run(cfg, start, es);
    hide Run, Legal, Step, LoginAttempt, UniqueUsers, AccountOf, Enabled;
    RunUniqueUsers(cfg, start, es);
    forall u { UsersFollowHistory(cfg, start, es, u); }
    VerifyStep(cfg, w.state, e);
    RefusedChangesNothing(cfg, w.state, e, CodeOf(e.db));
  }

  lemma VerifyStep(cfg: Config, s: State, e: Event)
    requires UniqueUsers(s.users) && e.VerifyEmail?
    ensures forall c, u :: LoginAttempt(Step(cfg, s, e).result, c, u) <==> c == CodeOf(e.db) && FitsVerify(s, e, u)
  {
    hide Step, Decide, LoginAttempt, UniqueUsers;
    VerifyPlan(s, e);
    hide FitsVerify;
    if Decide(s, e).LogIn? {
      LogInUsers(s, e);
    }
    AttemptsOfPlan(cfg, s, e);
  }

  /** A sign-up is taken iff nobody in that database has the email; a second factor is set iff the user is there. */
  lemma EditAnswers(cfg: Config, start: nat, es: seq<Event>, e: Event)
    requires Legal(cfg, start, es) && Enabled(Run(cfg, start, es).state, e)
    ensures
      var w := Run(cfg, start, es);
      e.CreateUser? ==> (Step(cfg, w.state, e).result.Done? <==> forall u :: !AccountWithEmail(w.log, u, e.db, e.email))
    ensures
      var w := Run(cfg, start, es);
      e.SetTwoFactor? ==> (Step(cfg, w.state, e).result.Done? <==> AccountOf(w.log, e.id).Some?)
    ensures
      var s := Run(cfg, start, es).state;
      (e.CreateUser? || e.SetTwoFactor?) && !Step(cfg, s, e).result.Done? ==> Step(cfg, s, e) == Next(s, Rejected, None)
  {
    var w := Run(cfg, start, es);
    forall u { UsersFollowHistory(cfg, start, es, u); }
    hide Run, Legal, Enabled, AccountOf;
    if e.CreateUser? {
      assert forall u :: HasEmail(w.state.users, u, e.db, e.email) <==> AccountWithEmail(w.log, u, e.db, e.email);
      CreateStep(cfg, w.state, e);
    } else if e.SetTwoFactor? {
      FactorStep(cfg, w.state, e);
    }
  }

  lemma CreateStep(cfg: Config, s: State, e: Event)
    requires e.CreateUser?
    ensures Step(cfg, s, e).result.Done? <==> forall u :: !HasEmail(s.users, u, e.db, e.email)
    ensures !Step(cfg, s, e).result.Done? ==> Step(cfg, s, e) == Next(s, Rejected, None)
  {
    hide HasEmail;
  }

  lemma FactorStep(cfg: Config, s: State, e: Event)
    requires e.SetTwoFactor?
    ensures Step(cfg, s, e).result.Done? <==> e.id in s.users
    ensures !Step(cfg, s, e).result.Done? ==> Step(cfg, s, e) == Next(s, Rejected, None)
  {
  }

  // ---- The second factor --------------------------------------------------------------------

  /** The attempt gave out nothing: no token is signed, no row or session entry is new. */
  ghost predicate NothingGiven(s: State, s': State) {
    && s'.signed == s.signed && s'.rows.Keys == s.rows.Keys
    && (forall id :: id in s.rows ==> s'.rows[id] == s.rows[id] || s'.rows[id] == s.rows[id].(isValid := false))
    && (forall k :: k in s'.cache && s'.cache[k].value.Session? ==> k in s.cache && s'.cache[k] == s.cache[k])
  }

  /** The attempt gave out both tokens, in the user's database and under its code. */
  ghost predicate TokensGiven(cfg: Config, s: State, s': State, db: Db, user: string, e: Event)
    requires e.PasswordLogin? || e.GoogleLogin? || e.VerifyEmail?
  {
    var id := RowId(db, e.refresh);
    var access, refresh := Token(CodeOf(db), user, Access, e.access), Token(CodeOf(db), user, Refresh, e.refresh);
    && s'.signed == s.signed[e.access := Claims(user, JwtExp(cfg, s.now))]
    && id in s'.rows && s'.rows[id] == Row(user, true, e.ip, AddMinutes(s.now, RefreshRowMinutes))
    && access in s'.cache && s'.cache[access] == Entry(Session(user, e.ip), s.now + cfg.accessTokenCacheExpiresIn)
    && refresh in s'.cache && s'.cache[refresh] == Entry(Session(user, e.ip), s.now + cfg.refreshTokenCacheExpiresIn)
  }

  lemma RevokingGivesNothing(cfg: Config, s: State, db: Db, user: string)
    ensures NothingGiven(s, RevokeSessions(cfg, s, db, user))
  {
    hide Hits;
  }

  lemma GeneratingGives(cfg: Config, s: State, db: Db, user: string, e: Event)
    requires e.PasswordLogin? || e.GoogleLogin? || e.VerifyEmail?
    ensures TokensGiven(cfg, s, GenerateTokens(cfg, s, db, user, e.ip, e.access, e.refresh), db, user, e)
  {
  }

  lemma FactorDecides(cfg: Config, s: State, db: Db, user: string, e: Event)
    requires user in s.users && (e.PasswordLogin? || e.GoogleLogin? || e.VerifyEmail?)
    ensures
      var n := Login(cfg, s, db, user, e.ip, e.access, e.refresh);
      if s.users[user].twoFactor then n.result == TwoFactorRequired(CodeOf(db), user) && NothingGiven(s, n.state)
      else n.result == Issued(ByLogin, CodeOf(db), user, e.access, Some(e.refresh)) && TokensGiven(cfg, s, n.state, db, user, e)
  {
    hide RevokeSessions, GenerateTokens, NothingGiven, TokensGiven;
    var s1 := RevokeSessions(cfg, s, db, user);
    RevokingGivesNothing(cfg, s, db, user);
    GeneratingGives(cfg, s1, db, user, e);
    SameSigned(cfg, s, s1, db, user, e);
  }

  lemma SameSigned(cfg: Config, s: State, s1: State, db: Db, user: string, e: Event)
    requires e.PasswordLogin? || e.GoogleLogin? || e.VerifyEmail?
    requires s1 == RevokeSessions(cfg, s, db, user)
    ensures forall s' :: TokensGiven(cfg, s1, s', db, user, e) ==> TokensGiven(cfg, s, s', db, user, e)
  {
    hide BlacklistUser, ClearUser, InvalidateRows;
  }

  /**
   * What comes of a login attempt: with the second factor on it revokes and gives out nothing,
   * otherwise it gives out the event's two tokens.
   */
  lemma SecondFactorDecides(cfg: Config, start: nat, es: seq<Event>, e: Event, c: string, u: string)
    requires Legal(cfg, start, es) && Enabled(Run(cfg, start, es).state, e)
    requires LoginAttempt(Step(cfg, Run(cfg, start, es).state, e).result, c, u)
    ensures
      var w := Run(cfg, start, es);
      var n := Step(cfg, w.state, e);
      && (e.PasswordLogin? || e.GoogleLogin? || e.VerifyEmail?)
      && u in n.state.users && c == CodeOf(n.state.users[u].db)
      && if TwoFactorIn(w.log, u) then n.result == TwoFactorRequired(c, u) && NothingGiven(w.state, n.state)
         else n.result == Issued(ByLogin, c, u, e.access, Some(e.refresh))
              && TokensGiven(cfg, w.state, n.state, n.state.users[u].db, u, e)
  {
    var w := Run(cfg, start, es);
    var s, p := w.state, Decide(w.state, e);
    OnlyLoginsAttempt(cfg, s, e, c, u);
    RunUniqueUsers(cfg, start, es);
    UsersFollowHistory(cfg, start, es, u);
    TwoFactorFollowsHistory(cfg, start, es, u);
    DecideSound(s, e);
    hide Run, Legal, Step, Decide, Login, LoginAttempt, UniqueUsers, AccountOf, TwoFactorIn, Enabled, NothingGiven;
    LoginOrRefusal(cfg, s, e);
    LogInPlanUsers(s, e);
    AttemptsOfPlan(cfg, s, e);
    FactorDecides(cfg, s.(users := p.users), p.db, p.user, e);
    LoginOutcome(cfg, s.(users := p.users), p.db, p.user, p.ip, p.access, p.refresh);
    NewUsersHaveNone(s, e);
    SameGiven(cfg, s, p.users, Step(cfg, s, e).state, p.db, p.user, e);
  }

  lemma OnlyLoginsAttempt(cfg: Config, s: State, e: Event, c: string, u: string)
    requires LoginAttempt(Step(cfg, s, e).result, c, u)
    ensures Decide(s, e).LogIn? && (e.PasswordLogin? || e.GoogleLogin? || e.VerifyEmail?)
  {
    hide RevokeSessions, GenerateTokens, NewAccessToken, HandleTheft, InvalidateRow, InvalidateRows, Purge, CacheAccess, CacheRefresh, Found;
  }

  /** A login event changes nobody's second factor, and a new user has none. */
  lemma NewUsersHaveNone(s: State, e: Event)
    requires UniqueUsers(s.users) && Enabled(s, e) && Decide(s, e).LogIn?
    ensures
      var p := Decide(s, e);
      p.user in p.users && p.users[p.user].twoFactor == (p.user in s.users && s.users[p.user].twoFactor)
    ensures
      var p := Decide(s, e);
      p.users[p.user].db == p.db
  {
    hide Decide;
    DecideSound(s, e);
    LogInPlanUsers(s, e);
    LogInEvents(s, e);
  }

  lemma LogInEvents(s: State, e: Event)
    requires Decide(s, e).LogIn?
    ensures e.PasswordLogin? || e.GoogleLogin? || e.VerifyEmail?
  {
    hide Found;
  }

  lemma SameGiven(cfg: Config, s: State, users: map<string, User>, s': State, db: Db, user: string, e: Event)
    requires e.PasswordLogin? || e.GoogleLogin? || e.VerifyEmail?
    ensures NothingGiven(s.(users := users), s') <==> NothingGiven(s, s')
    ensures TokensGiven(cfg, s.(users := users), s', db, user, e) <==> TokensGiven(cfg, s, s', db, user, e)
  {
  }

  /**
   * Over every legal run: a login attempt asked for a second factor exactly if the last setting of
   * it for that user before the attempt was on.
   */
  lemma TwoFactorRequiredWhen(cfg: Config, start: nat, es: seq<Event>, j: nat, c: string, u: string)
    requires Legal(cfg, start, es) && j < |Run(cfg, start, es).log|
    requires LoginAttempt(Run(cfg, start, es).log[j].result, c, u)
    ensures
      var log := Run(cfg, start, es).log;
      log[j].result.TwoFactorRequired? <==> TwoFactorIn(log[..j], u)
  {
    hide Run, Legal, Step, Enabled, LoginAttempt, TwoFactorIn, NothingGiven, TokensGiven;
    LogFollowsEvents(cfg, start, es);
    LogPrefix(cfg, start, es, j);
    LogAt(cfg, start, es, j);
    PrefixLegal(cfg, start, es, j);
    EnabledAt(cfg, start, es, j);
    SecondFactorDecides(cfg, start, es[..j], es[j], c, u);
  }

  /** A signup token is used up: once somebody is verified with it, nobody is again. */
  lemma SignupTokenSingleUse(cfg: Config, start: nat, es: seq<Event>, i: nat, j: nat, u: string, v: string)
    requires Legal(cfg, start, es) && i < j < |es| == |Run(cfg, start, es).log|
    requires es[i].VerifyEmail? && es[j].VerifyEmail? && es[i].db == es[j].db && es[i].signupToken == es[j].signupToken
    requires LoginAttempt(Run(cfg, start, es).log[i].result, CodeOf(es[i].db), u)
    ensures !LoginAttempt(Run(cfg, start, es).log[j].result, CodeOf(es[j].db), v)
  {
    hide Run, Legal, Step, Enabled, LoginAttempt, AccountOf, UniqueUsers;
    LogAt(cfg, start, es, i);
    LogAt(cfg, start, es, j);
    PrefixLegal(cfg, start, es, i);
    PrefixLegal(cfg, start, es, j);
    EnabledAt(cfg, start, es, i);
    EnabledAt(cfg, start, es, j);
    VerifyEmailAnswers(cfg, start, es[..i], es[i]);
    VerifyEmailAnswers(cfg, start, es[..j], es[j]);
    VerifiedWithToken(cfg, start, es, i, j, u);
    RunUniqueUsers(cfg, start, es[..j]);
    UsersFollowHistory(cfg, start, es[..j], u);
    UsersFollowHistory(cfg, start, es[..j], v);
    OneTokenHolder(Run(cfg, start, es[..j]).state.users, u, v);
  }

  lemma OneTokenHolder(users: map<string, User>, u: string, v: string)
    requires UniqueUsers(users)
    ensures u in users && v in users && users[u].db == users[v].db && users[u].signupToken == users[v].signupToken ==> u == v
  {
  }

  lemma {:induction false} VerifiedWithToken(cfg: Config, start: nat, es: seq<Event>, i: nat, j: nat, u: string)
    requires Legal(cfg, start, es) && i < j <= |es| == |Run(cfg, start, es).log| && es[i].VerifyEmail?
    requires LoginAttempt(Run(cfg, start, es).log[i].result, CodeOf(es[i].db), u)
    ensures
      var account := AccountOf(Run(cfg, start, es[..j]).log, u);
      account.Some? && account.value.verified && account.value.db == es[i].db && account.value.signupToken == es[i].signupToken
    decreases j
  {
    hide Run, Legal, Step, Enabled, LoginAttempt;
    PrefixLegal(cfg, start, es, j - 1);
    EnabledAt(cfg, start, es, j - 1);
    LogPrefix(cfg, start, es, j - 1);
    LogPrefix(cfg, start, es, j);
    LogAt(cfg, start, es, j - 1);
    var log := Run(cfg, start, es).log;
    assert log[..j][..j - 1] == log[..j - 1];
    if j == i + 1 {
      LogPrefix(cfg, start, es, i);
      VerifyEmailAnswers(cfg, start, es[..i], es[i]);
    } else {
      VerifiedWithToken(cfg, start, es, i, j - 1, u);
      UsersFollowHistory(cfg, start, es[..j - 1], u);
      NewAccount(cfg, Run(cfg, start, es[..j - 1]).state, es[j - 1], u);
    }
  }
}
