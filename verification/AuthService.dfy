/**
 * The handlers as they run: step by step over the string store of the cache and the tables. Each
 * one's effect is the corresponding step of the session state machine.
 */
module AuthServices {
  import opened Accounts
  import opened AuthConfig
  import opened CacheKeys
  import opened Names
  import opened Options
  import opened RefreshRows
  import opened Sessions
  import opened TokenCache

  // ---- What the tables keep -----------------------------------------------------------------

  ghost predicate WellKept(s: State) {
    UniqueUsers(s.users) && OneValid(s.rows) && Named(s, false)
  }

  lemma StepWellKept(cfg: Config, s: State, e: Event)
    requires WellKept(s) && Enabled(s, e)
    ensures WellKept(Step(cfg, s, e).state)
  {
    hide Decide, Apply, Enabled, UniqueUsers, OneValid, Named;
    DecideSound(s, e);
    StepUniqueUsers(cfg, s, e);
    StepNamed(cfg, s, e, false);
    ApplyRows(cfg, s, Decide(s, e));
  }

  // ---- SCAN replies -------------------------------------------------------------------------

  /** The replies the three loops of a login get. */
  datatype Scans = Scans(blacklist: seq<ScanReply>, access: seq<ScanReply>, refresh: seq<ScanReply>)

  ghost predicate BlacklistScan(store: Store, client: string, user: string, expires: nat, replies: seq<ScanReply>) {
    ScanGuarantee(ScanPattern(client, user, Access), DuringBlacklist(store, client, user, expires, replies), replies)
  }

  ghost predicate DeleteScan(store: Store, client: string, user: string, kind: Kind, replies: seq<ScanReply>) {
    ScanGuarantee(ScanPattern(client, user, kind), DuringDelete(store, replies), replies)
  }

  ghost predicate LoginScans(store: Store, client: string, user: string, expires: nat, scans: Scans) {
    var s1 := BlacklistKeys(store, client, user, expires, Matching(store, ScanPattern(client, user, Access)));
    var s2 := s1 - Matching(s1, ScanPattern(client, user, Access));
    && BlacklistScan(store, client, user, expires, scans.blacklist)
    && DeleteScan(s1, client, user, Access, scans.access)
    && DeleteScan(s2, client, user, Refresh, scans.refresh)
  }

  /** The result and the new state of a handler are those of the machine's step. */
  ghost predicate Did(cfg: Config, s: State, e: Event, s': State, result: Result) {
    s' == Step(cfg, s, e).state && result == Step(cfg, s, e).result
  }

  class AuthService {
    const config: Config
    const cache: CustomCacheService
    var now: nat
    var rows: Rows
    var users: map<string, User>
    var signed: map<string, Claims>
    var clients: map<string, bool>
    var denylist: set<string>
    ghost var entries: Entries

    ghost function Abs(): State
      reads this
    {
      State(now, entries, rows, users, signed, clients, denylist)
    }

    /** The string store holds exactly the structured entries. */
    ghost predicate Synced()
      reads this, cache
    {
      cache.config == config && Represents(cache.store, entries)
    }

    ghost predicate Valid()
      reads this, cache
    {
      Synced() && WellKept(Abs())
    }

    constructor (config: Config, start: nat)
      ensures Valid() && fresh(cache) && this.config == config && Abs() == Init(start)
    {
      this.config := config;
      cache := new CustomCacheService(config);
      now, rows, users, signed, clients, denylist := start, map[], map[], map[], map[], {};
      entries := map[];
    }

    /** The replies are those of a login of the user found. */
    ghost predicate ScansFor(found: Option<string>, db: Db, scans: Scans)
      reads this, cache
    {
      found.Some? ==> LoginScans(cache.store, CodeOf(db), found.value, now + BlacklistTtl(config), scans)
    }

    // ---- Parts --------------------------------------------------------------------------------

    method CacheAccessToken(client: string, user: string, access: string, ip: string)
      requires Synced() && ColonFree(user) && ColonFree(access)
      modifies this`entries, cache
      ensures Synced() && Abs() == CacheAccess(config, old(Abs()), client, user, access, ip)
    {
      hide Represents, KeyString;
      var k, e := Token(client, user, Access, access), Entry(Session(user, ip), now + config.accessTokenCacheExpiresIn);
      RepresentsSet(cache.store, entries, k, e);
      cache.SetUserAccessTokenCache(client, user, access, Session(user, ip), now);
      entries := entries[k := e];
    }

    method CacheRefreshToken(client: string, user: string, refresh: string, ip: string)
      requires Synced() && ColonFree(user) && ColonFree(refresh)
      modifies this`entries, cache
      ensures Synced() && Abs() == CacheRefresh(config, old(Abs()), client, user, refresh, ip)
    {
      hide Represents, KeyString;
      var k, e := Token(client, user, Refresh, refresh), Entry(Session(user, ip), now + config.refreshTokenCacheExpiresIn);
      RepresentsSet(cache.store, entries, k, e);
      cache.SetUserRefreshTokenCache(client, user, refresh, Session(user, ip), now);
      entries := entries[k := e];
    }

    method BlacklistAccessTokens(client: string, user: string, replies: seq<ScanReply>)
      requires Synced() && ColonFree(user)
      requires BlacklistScan(cache.store, client, user, now + BlacklistTtl(config), replies)
      modifies this`entries, cache
      ensures Synced() && entries == BlacklistUser(old(entries), client, user, now + BlacklistTtl(config))
      ensures cache.store == BlacklistKeys(old(cache.store), client, user, now + BlacklistTtl(config),
                                           Matching(old(cache.store), ScanPattern(client, user, Access)))
    {
      hide Represents, KeyString, BlacklistKeys, Matching, ScanPattern, BlacklistUser, ClearUser, ScanGuarantee, DuringBlacklist;
      RepresentsBlacklist(cache.store, entries, client, user, now + BlacklistTtl(config));
      cache.SetUserAccessTokenBlacklistCache(client, user, now, replies);
      entries := BlacklistUser(entries, client, user, now + BlacklistTtl(config));
    }

    /** `generateTokens`, and `tenantGenerateTokens` for a tenant database. */
    method GenerateTokens(db: Db, user: string, ip: string, access: string, refresh: string)
      requires Synced() && ColonFree(user) && ColonFree(access) && ColonFree(refresh)
      modifies this`signed, this`rows, this`entries, cache
      ensures Synced() && Abs() == Sessions.GenerateTokens(config, old(Abs()), db, user, ip, access, refresh)
    {
      signed := signed[access := Claims(user, JwtExp(config, now))];
      rows := rows[RowId(db, refresh) := Row(user, true, ip, AddMinutes(now, RefreshRowMinutes))];
      CacheAccessToken(CodeOf(db), user, access, ip);
      CacheRefreshToken(CodeOf(db), user, refresh, ip);
    }

    /** `login`, and `tenantLogin` for a tenant database. */
    method Login(db: Db, user: string, ip: string, access: string, refresh: string, scans: Scans) returns (result: Result)
      requires Synced() && ColonFree(user) && ColonFree(access) && ColonFree(refresh) && user in users
      requires LoginScans(cache.store, CodeOf(db), user, now + BlacklistTtl(config), scans)
      modifies this`signed, this`rows, this`entries, cache
      ensures Synced()
      ensures
        var n := Sessions.Login(config, old(Abs()), db, user, ip, access, refresh);
        Abs() == n.state && result == n.result
    {
      hide Represents, KeyString, BlacklistKeys, Matching, ScanPattern, BlacklistUser, ClearUser, ScanGuarantee, InvalidateRows, WellKept;
      var code := CodeOf(db);
      rows := InvalidateRows(rows, db, user);
      BlacklistAccessTokens(code, user, scans.blacklist);
      RepresentsClear(cache.store, entries, code, user);
      cache.ClearUserAllTokenCaches(code, user, scans.access, scans.refresh);
      entries := ClearUser(entries, code, user);
      assert Abs() == RevokeSessions(config, old(Abs()), db, user);
      if users[user].twoFactor {
        result := TwoFactorRequired(code, user);
      } else {
        GenerateTokens(db, user, ip, access, refresh);
        result := Issued(ByLogin, code, user, access, Some(refresh));
      }
    }

    /** No root row of the user stays valid; every other row, and every cache entry, is as it was. */
    method HandleTokenTheft(user: string, ip: string)
      modifies this`rows, this`denylist
      ensures Abs() == HandleTheft(old(Abs()), user, ip)
      ensures rows.Keys == old(rows).Keys && forall token :: !IsValidRootRow(rows, token, user)
      ensures forall id :: id in rows ==> rows[id].(isValid := old(rows)[id].isValid) == old(rows)[id]
      ensures forall id :: id in rows && (id.db != Root || rows[id].user != user) ==> rows[id] == old(rows)[id]
      ensures ip in denylist && forall other :: other != ip ==> (other in denylist <==> other in old(denylist))
    {
      rows := InvalidateRows(rows, Root, user);
      denylist := denylist + {ip};
    }

    method NewAccessToken(client: string, user: string, ip: string, access: string, replies: seq<ScanReply>)
      requires Synced() && ColonFree(user) && ColonFree(access)
      requires BlacklistScan(cache.store, client, user, now + BlacklistTtl(config), replies)
      modifies this`signed, this`entries, cache
      ensures Synced() && Abs() == Sessions.NewAccessToken(config, old(Abs()), client, user, ip, access)
    {
      hide Represents, KeyString, BlacklistKeys, Matching, ScanPattern, BlacklistUser, ClearUser, ScanGuarantee;
      signed := signed[access := Claims(user, JwtExp(config, now))];
      BlacklistAccessTokens(client, user, replies);
      CacheAccessToken(client, user, access, ip);
    }

    // ---- Handlers -----------------------------------------------------------------------------

    method FindUserByEmail(db: Db, email: string) returns (found: Option<string>)
      requires UniqueUsers(users)
      ensures found == FindByEmail(users, db, email)
    {
      if id :| id in users && users[id].db == db && users[id].email == email {
        assert HasEmail(users, id, db, email);
        found := Some(id);
      } else {
        found := None;
      }
    }

    method FindUserBySignupVerifyToken(db: Db, token: string) returns (found: Option<string>)
      requires UniqueUsers(users)
      ensures found == FindBySignupToken(users, db, token)
    {
      if id :| id in users && users[id].db == db && users[id].signupToken == token {
        assert HasSignupToken(users, id, db, token);
        found := Some(id);
      } else {
        found := None;
      }
    }

    /** Password login; the previous rows are invalidated once here and once more in `login`. */
    method LoginUser(email: string, passwordOk: bool, ip: string, access: string, refresh: string, scans: Scans) returns (result: Result)
      requires Valid() && Enabled(Abs(), PasswordLogin(email, passwordOk, ip, access, refresh))
      requires ScansFor(FindByEmail(users, Root, email), Root, scans)
      modifies this`signed, this`rows, this`entries, cache
      ensures Valid() && Did(config, old(Abs()), PasswordLogin(email, passwordOk, ip, access, refresh), Abs(), result)
    {
      hide Represents, WellKept, LoginScans, Sessions.Login, InvalidateRows, ColonFree, UniqueUsers,
           Decide, Step, PlanGoogleLogin, PlanVerifyEmail;
      ghost var e, s := PasswordLogin(email, passwordOk, ip, access, refresh), Abs();
      BeforeLogin(config, s, e);
      var found := FindUserByEmail(Root, email);
      if found.None? || !passwordOk || !users[found.value].verified {
        result := Rejected;
      } else {
        rows := InvalidateRows(rows, Root, found.value);
        result := Login(Root, found.value, ip, access, refresh, scans);
        LoginInvalidatesAnyway(config, s, Root, found.value, ip, access, refresh);
      }
    }

    /** Google create-or-login; a failed insert (the email is taken) ends the request. */
    method GoogleSocialCreateOrLogin(email: string, code: string, ip: string, newId: string, signup: string,
                                     access: string, refresh: string,
                                     scans: Scans) returns (result: Result)
      requires Valid() && Enabled(Abs(), GoogleLogin(email, code, ip, newId, signup, access, refresh))
      requires ScansFor(Some(FindByEmail(users, Root, email).GetOr(newId)), Root, scans)
      modifies this`users, this`signed, this`rows, this`entries, cache
      ensures Valid() && Did(config, old(Abs()), GoogleLogin(email, code, ip, newId, signup, access, refresh), Abs(), result)
    {
      hide Represents, WellKept, LoginScans, Sessions.Login, ColonFree, UniqueUsers,
           Decide, Step, PlanPasswordLogin, PlanVerifyEmail;
      ghost var e, s := GoogleLogin(email, code, ip, newId, signup, access, refresh), Abs();
      BeforeLogin(config, s, e);
      var found := FindUserByEmail(Root, email);
      var paid := code in clients && clients[code];
      if found.Some? && users[found.value].client == Some(code) && users[found.value].verified && paid {
        assert s.(users := s.users) == s;
        result := Login(Root, found.value, ip, access, refresh, scans);
      } else if !paid || found.Some? {
        result := Rejected;
      } else {
        users := users[newId := User(Root, email, true, false, signup, Some(code))];
        result := Login(Root, newId, ip, access, refresh, scans);
      }
    }

    method VerifyUserEmail(db: Db, signup: string, ip: string, access: string, refresh: string, scans: Scans) returns (result: Result)
      requires Valid() && Enabled(Abs(), VerifyEmail(db, signup, ip, access, refresh))
      requires ScansFor(FindBySignupToken(users, db, signup), db, scans)
      modifies this`users, this`signed, this`rows, this`entries, cache
      ensures Valid() && Did(config, old(Abs()), VerifyEmail(db, signup, ip, access, refresh), Abs(), result)
    {
      hide Represents, WellKept, LoginScans, Sessions.Login, ColonFree, UniqueUsers,
           Decide, Step, PlanPasswordLogin, PlanGoogleLogin;
      ghost var e, s := VerifyEmail(db, signup, ip, access, refresh), Abs();
      BeforeLogin(config, s, e);
      var found := FindUserBySignupVerifyToken(db, signup);
      if found.None? || users[found.value].verified {
        result := Rejected;
      } else {
        users := users[found.value := users[found.value].(verified := true)];
        result := Login(db, found.value, ip, access, refresh, scans);
      }
    }

    /** The refresh handler: cache first, then the database. */
    method RefreshAccessToken(client: string, user: string, token: string, ip: string, alertFails: bool, access: string,
                              replies: seq<ScanReply>) returns (result: Result)
      requires Valid() && Enabled(Abs(), RefreshAccess(client, user, token, ip, alertFails, access))
      requires PlanRefreshAccess(Abs(), RefreshAccess(client, user, token, ip, alertFails, access)).Reissue? ==>
        BlacklistScan(cache.store, client, user, now + BlacklistTtl(config), replies)
      modifies this`signed, this`rows, this`denylist, this`entries, cache
      ensures Valid() && Did(config, old(Abs()), RefreshAccess(client, user, token, ip, alertFails, access), Abs(), result)
    {
      hide Enabled, Represents, WellKept, BlacklistScan, Sessions.NewAccessToken, ColonFree, Step, HandleTheft, Found;
      ghost var e, s := RefreshAccess(client, user, token, ip, alertFails, access), Abs();
      BeforeRefresh(config, s, e);
      RefreshSteps(config, s, e);
      var k := Token(client, user, Refresh, token);
      RepresentsFound(cache.store, entries, k);
      var cached := cache.Get(k);
      if cached.None? {
        var id := RowId(Root, token);
        if id !in rows || !rows[id].isValid || rows[id].user != user || now >= rows[id].expiresAt {
          return Rejected;
        }
        if rows[id].ip != ip {
          HandleTokenTheft(user, ip);
          if alertFails {
            return Rejected;
          }
        }
        if user !in users || users[user].db != Root {
          return Rejected;
        }
      } else {
        var payload := cached.value.value;
        if !payload.Session? || payload.id != user {
          return Rejected;
        }
        if payload.ip != ip {
          HandleTokenTheft(user, ip);
          if alertFails {
            return Rejected;
          }
        }
      }
      NewAccessToken(client, user, ip, access, replies);
      result := Issued(ByRefresh, client, user, access, None);
    }

    /** `refreshTokens`: rotates a refresh token; what theft handling's alert does is not looked at. */
    method RefreshTokens(token: string, ip: string, access: string, refresh: string) returns (result: Result)
      requires Valid() && Enabled(Abs(), Rotate(token, ip, access, refresh))
      modifies this`signed, this`rows, this`denylist, this`entries, cache
      ensures Valid() && Did(config, old(Abs()), Rotate(token, ip, access, refresh), Abs(), result)
    {
      hide Represents, WellKept, Sessions.GenerateTokens, ColonFree, Step, HandleTheft, InvalidateRows;
      ghost var e, s := Rotate(token, ip, access, refresh), Abs();
      BeforeRotate(config, s, e);
      var id := RowId(Root, token);
      if id !in rows || !rows[id].isValid {
        return Rejected;
      }
      var record := rows[id];
      if record.expiresAt < now {
        rows := InvalidateRows(rows, Root, record.user);
        return Rejected;
      }
      if record.ip != ip {
        HandleTokenTheft(record.user, ip);
        return Rejected;
      }
      rows := rows[id := record.(isValid := false)];
      if record.user !in users || users[record.user].db != Root {
        return Rejected;
      }
      GenerateTokens(Root, record.user, ip, access, refresh);
      result := Issued(ByRotation, "root", record.user, access, Some(refresh));
    }

    method RevokeRefreshToken(token: string)
      requires Valid()
      modifies this`rows
      ensures Valid() && Did(config, old(Abs()), RevokeRefresh(token), Abs(), Done)
    {
      hide Represents, WellKept;
      StepWellKept(config, Abs(), RevokeRefresh(token));
      rows := InvalidateRow(rows, RowId(Root, token));
    }

    /** `JwtStrategy.validate`, behind passport's check of signature and expiry. */
    method ValidateRequest(client: string, token: string, ip: string) returns (result: Result)
      requires Valid() && Enabled(Abs(), Validate(client, token, ip))
      modifies this`entries, cache
      ensures Valid() && Did(config, old(Abs()), Validate(client, token, ip), Abs(), result)
    {
      hide Represents, WellKept, ColonFree, Step, OneValid;
      ghost var e, s := Validate(client, token, ip), Abs();
      BeforeValidate(config, s, e);
      if token !in signed || !JwtLive(now, signed[token].exp) {
        return Rejected;
      }
      var user := signed[token].user;
      RepresentsGet(cache.store, entries, Token(client, user, Blacklist, token));
      RepresentsGet(cache.store, entries, Token(client, user, Access, token));
      var blacklisted := cache.GetIsAccessTokenBlacklistCache(client, user, token);
      if blacklisted {
        return Rejected;
      }
      var cached := cache.Get(Token(client, user, Access, token));
      if cached.Some? {
        return Accepted(user);
      }
      if user !in users || users[user].db != Root {
        return Rejected;
      }
      var along := FindValidRefresh(user);
      CacheAccessToken(client, user, token, ip);
      if along.Some? {
        CacheRefreshToken(client, user, along.value, ip);
      }
      result := Accepted(user);
    }

    /** `userInfoDb.refreshTokens.find(token => token.isValid)`: there is at most one. */
    method FindValidRefresh(user: string) returns (found: Option<string>)
      requires OneValid(rows)
      ensures found == SomeValidRefresh(rows, user)
    {
      if id :| id in rows && id.db == Root && rows[id].isValid && rows[id].user == user {
        assert IsValidRootRow(rows, id.token, user);
        found := Some(id.token);
        assert forall t :: IsValidRootRow(rows, t, user) ==> RowId(Root, t) == id;
      } else {
        found := None;
        assert forall t :: !IsValidRootRow(rows, t, user);
      }
    }

    /** `AuthService.verify`. */
    method Verify(token: string, ip: string) returns (result: Result)
      requires Valid()
      modifies this`entries, cache
      ensures Valid() && Did(config, old(Abs()), VerifyToken(token, ip), Abs(), result)
    {
      hide Represents, WellKept, ColonFree, Step;
      ghost var e, s := VerifyToken(token, ip), Abs();
      BeforeValidate(config, s, e);
      if token !in signed || !JwtLive(now, signed[token].exp) {
        return Rejected;
      }
      var user := signed[token].user;
      RepresentsGet(cache.store, entries, Token("root", user, Blacklist, token));
      RepresentsGet(cache.store, entries, Token("root", user, Access, token));
      var blacklisted := cache.GetIsAccessTokenBlacklistCache("root", user, token);
      if blacklisted {
        return Rejected;
      }
      var cached := cache.Get(Token("root", user, Access, token));
      if cached.None? {
        CacheAccessToken("root", user, token, ip);
      }
      result := Accepted(user);
    }

    /** Time passes, and the store drops what has expired. */
    method Elapse(to: nat)
      requires Valid() && now <= to
      modifies this`now, this`entries, cache
      ensures Valid() && Did(config, old(Abs()), Tick(to), Abs(), Done)
    {
      hide Represents, WellKept, Purge;
      StepWellKept(config, Abs(), Tick(to));
      RepresentsPurge(cache.store, entries, to);
      cache.Expire(to);
      now, entries := to, Purge(entries, to);
    }

    /** Inserts an unverified user unless the email is taken. */
    method CreateUserRow(db: Db, id: string, email: string, signup: string, memberOf: Option<string>) returns (result: Result)
      requires Valid() && Enabled(Abs(), CreateUser(db, id, email, signup, memberOf))
      modifies this`users
      ensures Valid() && Did(config, old(Abs()), CreateUser(db, id, email, signup, memberOf), Abs(), result)
    {
      hide Represents, WellKept;
      ghost var e, s := CreateUser(db, id, email, signup, memberOf), Abs();
      StepWellKept(config, s, e);
      EmailsUnique(s);
      var found := FindUserByEmail(db, email);
      if found.Some? {
        result := Rejected;
      } else {
        users := users[id := User(db, email, false, false, signup, memberOf)];
        result := Done;
      }
    }
  }

  /** The step of a login handler, by what its checks decide. */
  lemma LoginSteps(cfg: Config, s: State, e: Event)
    ensures Decide(s, e).Refuse? ==> Step(cfg, s, e) == Next(s, Rejected, None)
    ensures
      var p := Decide(s, e);
      p.LogIn? ==> Step(cfg, s, e) == Sessions.Login(cfg, s.(users := p.users), p.db, p.user, p.ip, p.access, p.refresh)
    ensures e.PasswordLogin? ==> Decide(s, e) == PlanPasswordLogin(s, e)
    ensures e.GoogleLogin? ==> Decide(s, e) == PlanGoogleLogin(s, e)
    ensures e.VerifyEmail? ==> Decide(s, e) == PlanVerifyEmail(s, e)
  {
    hide Sessions.Login, FindByEmail, FindBySignupToken;
  }

  /** Invalidating the rows once before `login` changes nothing about what it does. */
  lemma LoginInvalidatesAnyway(cfg: Config, s: State, db: Db, user: string, ip: string, access: string, refresh: string)
    ensures Sessions.Login(cfg, s.(rows := InvalidateRows(s.rows, db, user)), db, user, ip, access, refresh)
            == Sessions.Login(cfg, s, db, user, ip, access, refresh)
  {
    hide BlacklistUser, ClearUser;
    assert InvalidateRows(InvalidateRows(s.rows, db, user), db, user) == InvalidateRows(s.rows, db, user);
  }

  /** What a login handler needs to know before it starts. */
  lemma BeforeLogin(cfg: Config, s: State, e: Event)
    requires WellKept(s) && Enabled(s, e) && (e.PasswordLogin? || e.GoogleLogin? || e.VerifyEmail?)
    ensures WellKept(Step(cfg, s, e).state) && UniqueUsers(s.users) && ColonFree(e.access) && ColonFree(e.refresh)
    ensures forall id :: id in s.users ==> ColonFree(id)
    ensures e.GoogleLogin? ==> ColonFree(e.newId)
    ensures Decide(s, e).Refuse? ==> Step(cfg, s, e) == Next(s, Rejected, None)
    ensures
      var p := Decide(s, e);
      p.LogIn? ==> Step(cfg, s, e) == Sessions.Login(cfg, s.(users := p.users), p.db, p.user, p.ip, p.access, p.refresh)
    ensures e.PasswordLogin? ==> Decide(s, e) == PlanPasswordLogin(s, e)
    ensures e.GoogleLogin? ==> Decide(s, e) == PlanGoogleLogin(s, e)
    ensures e.VerifyEmail? ==> Decide(s, e) == PlanVerifyEmail(s, e)
  {
    StepWellKept(cfg, s, e);
    LoginSteps(cfg, s, e);
    hide Step, OneValid, UniqueUsers, Enabled;
  }

  lemma RefreshSteps(cfg: Config, s: State, e: Event)
    requires e.RefreshAccess?
    ensures
      var p, n := PlanRefreshAccess(s, e), Step(cfg, s, e);
      && (p.Refuse? ==> n == Next(s, Rejected, None))
      && (p.Alarm? ==> n.state == HandleTheft(s, p.user, p.ip) && n.result == Rejected)
      && (p.Reissue? ==>
            && n.state == Sessions.NewAccessToken(cfg, if p.theft then HandleTheft(s, p.user, p.ip) else s, p.client, p.user, p.ip, p.access)
            && n.result == Issued(ByRefresh, p.client, p.user, p.access, None))
  {
    hide Sessions.NewAccessToken, HandleTheft, PlanRefreshAccess;
  }

  lemma BeforeRefresh(cfg: Config, s: State, e: Event)
    requires WellKept(s) && Enabled(s, e) && e.RefreshAccess?
    ensures WellKept(Step(cfg, s, e).state) && ColonFree(e.access)
    ensures PlanRefreshAccess(s, e).Reissue? ==> ColonFree(e.user)
  {
    hide Step, UniqueUsers, OneValid, Named, PlanRefreshAccess;
    StepWellKept(cfg, s, e);
    DecideNamed(s, e, false);
    ReissueIsForRequester(s, e);
  }

  lemma ReissueIsForRequester(s: State, e: Event)
    requires e.RefreshAccess?
    ensures
      var p := PlanRefreshAccess(s, e);
      p == Decide(s, e) && (p.Reissue? ==> p.user == e.user)
  {
    hide Found;
  }

  lemma EmailsUnique(s: State)
    requires WellKept(s)
    ensures UniqueUsers(s.users)
  {
  }

  lemma BeforeRotate(cfg: Config, s: State, e: Event)
    requires WellKept(s) && Enabled(s, e) && e.Rotate?
    ensures WellKept(Step(cfg, s, e).state) && ColonFree(e.access) && ColonFree(e.refresh) && ColonFree("root")
    ensures forall id :: id in s.rows ==> ColonFree(s.rows[id].user)
    ensures Step(cfg, s, e) == Apply(cfg, s, PlanRotate(s, e))
  {
    StepWellKept(cfg, s, e);
    hide OneValid, GlobFree, Apply;
  }

  lemma BeforeValidate(cfg: Config, s: State, e: Event)
    requires WellKept(s) && Enabled(s, e) && (e.Validate? || e.VerifyToken?)
    ensures WellKept(Step(cfg, s, e).state) && OneValid(s.rows) && ColonFree("root")
    ensures e.Validate? ==> Step(cfg, s, e) == Apply(cfg, s, PlanValidate(s, e))
    ensures e.VerifyToken? ==> Step(cfg, s, e) == Apply(cfg, s, PlanVerifyToken(s, e))
    ensures forall t :: t in s.signed ==> ColonFree(t) && ColonFree(s.signed[t].user)
    ensures forall id :: id in s.rows ==> ColonFree(id.token)
  {
    StepWellKept(cfg, s, e);
    hide OneValid, GlobFree, Apply;
  }
}
