/**
 * What ids, tokens and client codes look like in a run. Ids and tokens never hold a colon. If the
 * events name no troublesome codes either, every login and refresh revokes exactly its own keys.
 */
module Names {
  import opened AuthConfig
  import opened CacheKeys
  import opened Options
  import opened Sessions
  import opened TokenCache

  predicate IdOk(plain: bool, id: string) {
    ColonFree(id) && (plain ==> GlobFree(id))
  }

  /** A session entry names the user its key is under. */
  predicate EntryOk(plain: bool, k: Key, e: Entry) {
    && (k.Token? ==> IdOk(plain, k.user) && ColonFree(k.token) && (plain ==> ColonFree(k.client)))
    && (e.value.Session? ==> k.Token? && e.value.id == k.user)
  }

  ghost predicate UsersNamed(users: map<string, User>, plain: bool) {
    forall id :: id in users ==> IdOk(plain, id) && (plain ==> Plain(CodeOf(users[id].db)))
  }

  ghost predicate SignedNamed(signed: map<string, Claims>, plain: bool) {
    forall t :: t in signed ==> ColonFree(t) && IdOk(plain, signed[t].user)
  }

  ghost predicate RowsNamed(rows: Rows, plain: bool) {
    forall id :: id in rows ==> ColonFree(id.token) && IdOk(plain, rows[id].user)
  }

  ghost predicate CacheNamed(m: Entries, plain: bool) {
    forall k :: k in m ==> EntryOk(plain, k, m[k])
  }

  /** With `plain`, no name holds a glob character and no cached code a colon. */
  ghost predicate Named(s: State, plain: bool) {
    UsersNamed(s.users, plain) && SignedNamed(s.signed, plain) && RowsNamed(s.rows, plain) && CacheNamed(s.cache, plain)
  }

  /** The codes and ids an event brings along are fit for keys and patterns. */
  predicate PlainEvent(e: Event) {
    match e
    case CreateUser(db, id, _, _, _) => Plain(CodeOf(db)) && GlobFree(id)
    case GoogleLogin(_, _, _, newId, _, _, _) => GlobFree(newId)
    case RefreshAccess(client, _, _, _, _, _) => Plain(client)
    case Validate(client, _, _) => ColonFree(client)
    case _ => true
  }

  predicate PlainEvents(es: seq<Event>) {
    forall j :: 0 <= j < |es| ==> PlainEvent(es[j])
  }

  // ---- Plans --------------------------------------------------------------------------------

  ghost predicate PlanNamed(p: Plan, plain: bool) {
    match p
    case Edit(users, _) => UsersNamed(users, plain)
    case LogIn(users, db, user, _, access, refresh) =>
      UsersNamed(users, plain) && IdOk(plain, user) && (plain ==> Plain(CodeOf(db))) && ColonFree(access) && ColonFree(refresh)
    case Reissue(_, client, user, _, access) => IdOk(plain, user) && (plain ==> Plain(client)) && ColonFree(access)
    case Replace(_, user, _, access, refresh) => IdOk(plain, user) && ColonFree(access) && ColonFree(refresh)
    case Recache(client, user, token, along, _) =>
      && IdOk(plain, user) && (plain ==> ColonFree(client)) && ColonFree(token)
      && (along.Some? ==> ColonFree(along.value))
    case _ => true
  }

  lemma UserNamed(users: map<string, User>, id: string, user: User, plain: bool)
    requires UsersNamed(users, plain) && IdOk(plain, id) && (plain ==> Plain(CodeOf(user.db)))
    ensures UsersNamed(users[id := user], plain)
  {
  }

  lemma SessionIdOk(m: Entries, k: Key, plain: bool)
    requires CacheNamed(m, plain) && Found(m, k).Some? && Found(m, k).value.value.Session?
    ensures IdOk(plain, Found(m, k).value.value.id)
  {
    hide SameString;
    var j :| j in m && SameString(j, k) && m[j] == Found(m, k).value;
    assert EntryOk(plain, j, m[j]);
  }

  lemma EditNamed(s: State, e: Event, plain: bool)
    requires Named(s, plain) && Enabled(s, e) && (plain ==> PlainEvent(e))
    requires e.CreateUser? || e.SetTwoFactor? || e.SetClient? || e.Tick?
    ensures PlanNamed(Decide(s, e), plain)
  {
    hide Plain, ColonFree, GlobFree, UsersNamed, SignedNamed, RowsNamed, CacheNamed;
    match e {
      case CreateUser(db, id, email, signup, memberOf) => UserNamed(s.users, id, User(db, email, false, false, signup, memberOf), plain);
      case SetTwoFactor(id, on) =>
        if id in s.users {
          KnownUser(s.users, id, plain);
          UserNamed(s.users, id, s.users[id].(twoFactor := on), plain);
        }
      case _ =>
    }
  }

  lemma KnownUser(users: map<string, User>, id: string, plain: bool)
    requires UsersNamed(users, plain) && id in users
    ensures IdOk(plain, id) && (plain ==> Plain(CodeOf(users[id].db)))
  {
  }

  lemma LogInNamed(s: State, e: Event, plain: bool)
    requires Named(s, plain) && Enabled(s, e) && (plain ==> PlainEvent(e))
    requires e.PasswordLogin? || e.GoogleLogin? || e.VerifyEmail?
    ensures PlanNamed(Decide(s, e), plain)
  {
    assert Plain("root");
    hide Plain, ColonFree, GlobFree, UsersNamed, SignedNamed, RowsNamed, CacheNamed;
    match e {
      case PasswordLogin(email, _, _, _, _) =>
        var found := FindByEmail(s.users, Root, email);
        if found.Some? { KnownUser(s.users, found.value, plain); }
      case GoogleLogin(email, code, ip, newId, signup, access, refresh) =>
        var found := FindByEmail(s.users, Root, email);
        if found.Some? { KnownUser(s.users, found.value, plain); }
        UserNamed(s.users, newId, User(Root, email, true, false, signup, Some(code)), plain);
      case VerifyEmail(db, signup, ip, access, refresh) =>
        var found := FindBySignupToken(s.users, db, signup);
        if found.Some? {
          KnownUser(s.users, found.value, plain);
          UserNamed(s.users, found.value, s.users[found.value].(verified := true), plain);
        }
    }
  }

  lemma RefreshNamed(s: State, e: Event, plain: bool)
    requires Named(s, plain) && Enabled(s, e) && (plain ==> PlainEvent(e)) && e.RefreshAccess?
    ensures PlanNamed(Decide(s, e), plain)
  {
    var k := Token(e.client, e.user, Refresh, e.token);
    hide Plain, GlobFree, IdOk, UsersNamed, SignedNamed, CacheNamed, Found, RootUser;
    if Found(s.cache, k).Some? && Found(s.cache, k).value.value.Session? {
      SessionIdOk(s.cache, k, plain);
    }
  }

  lemma DecideNamed(s: State, e: Event, plain: bool)
    requires Named(s, plain) && Enabled(s, e) && (plain ==> PlainEvent(e))
    ensures PlanNamed(Decide(s, e), plain)
  {
    if e.CreateUser? || e.SetTwoFactor? || e.SetClient? || e.Tick? {
      EditNamed(s, e, plain);
    } else if e.PasswordLogin? || e.GoogleLogin? || e.VerifyEmail? {
      LogInNamed(s, e, plain);
    } else if e.RefreshAccess? {
      RefreshNamed(s, e, plain);
    } else {
      assert ColonFree("root");
      hide GlobFree, IdOk, CacheNamed, UsersNamed;
    }
  }

  // ---- Steps --------------------------------------------------------------------------------

  lemma BlacklistNamed(m: Entries, client: string, user: string, expires: nat, plain: bool)
    requires CacheNamed(m, plain) && IdOk(plain, user) && (plain ==> ColonFree(client))
    ensures CacheNamed(BlacklistUser(m, client, user, expires), plain)
  {
    hide Hits, IdOk, ColonFree;
  }

  lemma ClearNamed(m: Entries, client: string, user: string, plain: bool)
    requires CacheNamed(m, plain)
    ensures CacheNamed(ClearUser(m, client, user), plain)
  {
    hide Hits;
  }

  lemma SessionNamed(m: Entries, k: Key, ip: string, expires: nat, plain: bool)
    requires CacheNamed(m, plain) && k.Token? && IdOk(plain, k.user) && ColonFree(k.token) && (plain ==> ColonFree(k.client))
    ensures CacheNamed(m[k := Entry(Session(k.user, ip), expires)], plain)
  {
    hide IdOk, ColonFree;
  }

  lemma GeneratedNamed(cfg: Config, s: State, db: Db, user: string, ip: string, access: string, refresh: string, plain: bool)
    requires CacheNamed(s.cache, plain) && IdOk(plain, user) && (plain ==> Plain(CodeOf(db))) && ColonFree(access) && ColonFree(refresh)
    ensures CacheNamed(GenerateTokens(cfg, s, db, user, ip, access, refresh).cache, plain)
  {
    hide IdOk, ColonFree, GlobFree, CacheNamed;
    var k := Token(CodeOf(db), user, Access, access);
    var expires := s.now + cfg.accessTokenCacheExpiresIn;
    SessionNamed(s.cache, k, ip, expires, plain);
    SessionNamed(s.cache[k := Entry(Session(user, ip), expires)], Token(CodeOf(db), user, Refresh, refresh), ip,
                 s.now + cfg.refreshTokenCacheExpiresIn, plain);
  }

  lemma RevokedNamed(cfg: Config, s: State, db: Db, user: string, plain: bool)
    requires CacheNamed(s.cache, plain) && IdOk(plain, user) && (plain ==> Plain(CodeOf(db)))
    ensures CacheNamed(RevokeSessions(cfg, s, db, user).cache, plain)
  {
    var m := BlacklistUser(s.cache, CodeOf(db), user, s.now + BlacklistTtl(cfg));
    hide IdOk, ColonFree, GlobFree, CacheNamed, BlacklistUser, ClearUser, InvalidateRows;
    BlacklistNamed(s.cache, CodeOf(db), user, s.now + BlacklistTtl(cfg), plain);
    ClearNamed(m, CodeOf(db), user, plain);
  }

  lemma LoginNamed(cfg: Config, s: State, db: Db, user: string, ip: string, access: string, refresh: string, plain: bool)
    requires CacheNamed(s.cache, plain) && IdOk(plain, user) && (plain ==> Plain(CodeOf(db))) && ColonFree(access) && ColonFree(refresh)
    ensures CacheNamed(Login(cfg, s, db, user, ip, access, refresh).state.cache, plain)
  {
    hide IdOk, CacheNamed, RevokeSessions, GenerateTokens;
    RevokedNamed(cfg, s, db, user, plain);
    GeneratedNamed(cfg, RevokeSessions(cfg, s, db, user), db, user, ip, access, refresh, plain);
  }

  lemma ReissuedNamed(cfg: Config, s: State, client: string, user: string, ip: string, access: string, plain: bool)
    requires CacheNamed(s.cache, plain) && IdOk(plain, user) && (plain ==> Plain(client)) && ColonFree(access)
    ensures CacheNamed(NewAccessToken(cfg, s, client, user, ip, access).cache, plain)
  {
    var m := BlacklistUser(s.cache, client, user, s.now + BlacklistTtl(cfg));
    hide IdOk, ColonFree, GlobFree, CacheNamed, BlacklistUser;
    BlacklistNamed(s.cache, client, user, s.now + BlacklistTtl(cfg), plain);
    SessionNamed(m, Token(client, user, Access, access), ip, s.now + cfg.accessTokenCacheExpiresIn, plain);
  }

  lemma RecachedNamed(cfg: Config, s: State, p: Plan, plain: bool)
    requires CacheNamed(s.cache, plain) && p.Recache? && PlanNamed(p, plain)
    ensures CacheNamed(Apply(cfg, s, p).state.cache, plain)
  {
    hide IdOk, ColonFree, CacheNamed;
    var k := Token(p.client, p.user, Access, p.token);
    var expires := s.now + cfg.accessTokenCacheExpiresIn;
    SessionNamed(s.cache, k, p.ip, expires, plain);
    if p.along.Some? {
      SessionNamed(s.cache[k := Entry(Session(p.user, p.ip), expires)], Token(p.client, p.user, Refresh, p.along.value), p.ip,
                   s.now + cfg.refreshTokenCacheExpiresIn, plain);
    }
  }

  lemma ApplyCacheNamed(cfg: Config, s: State, p: Plan, plain: bool)
    requires CacheNamed(s.cache, plain) && PlanNamed(p, plain)
    ensures CacheNamed(Apply(cfg, s, p).state.cache, plain)
  {
    assert Plain("root");
    hide Login, NewAccessToken, GenerateTokens, InvalidateRows, InvalidateRow, IdOk, ColonFree, GlobFree, UsersNamed;
    match p {
      case Elapse(to) =>
      case LogIn(users, db, user, ip, access, refresh) => LoginNamed(cfg, s.(users := users), db, user, ip, access, refresh, plain);
      case Reissue(theft, client, user, ip, access) =>
        ReissuedNamed(cfg, if theft then HandleTheft(s, user, ip) else s, client, user, ip, access, plain);
      case Replace(token, user, ip, access, refresh) =>
        GeneratedNamed(cfg, s.(rows := InvalidateRow(s.rows, RowId(Root, token))), Root, user, ip, access, refresh, plain);
      case Recache(client, user, token, along, ip) => RecachedNamed(cfg, s, p, plain);
      case _ =>
    }
  }

  lemma ApplyRowsNamed(cfg: Config, s: State, p: Plan, plain: bool)
    requires RowsNamed(s.rows, plain) && PlanNamed(p, plain)
    ensures RowsNamed(Apply(cfg, s, p).state.rows, plain)
  {
    hide BlacklistUser, ClearUser, Purge, IdOk, ColonFree, Plain, UsersNamed;
  }

  lemma ApplyUsersNamed(cfg: Config, s: State, p: Plan, plain: bool)
    requires UsersNamed(s.users, plain) && SignedNamed(s.signed, plain) && PlanNamed(p, plain)
    ensures UsersNamed(Apply(cfg, s, p).state.users, plain) && SignedNamed(Apply(cfg, s, p).state.signed, plain)
  {
    hide BlacklistUser, ClearUser, Purge, InvalidateRow, InvalidateRows, IdOk, ColonFree, Plain, UsersNamed;
  }

  lemma StepNamed(cfg: Config, s: State, e: Event, plain: bool)
    requires Named(s, plain) && Enabled(s, e) && (plain ==> PlainEvent(e))
    ensures Named(Step(cfg, s, e).state, plain)
  {
    hide Apply, Decide, Enabled, PlainEvent, UsersNamed, SignedNamed, RowsNamed, CacheNamed;
    DecideNamed(s, e, plain);
    ApplyCacheNamed(cfg, s, Decide(s, e), plain);
    ApplyRowsNamed(cfg, s, Decide(s, e), plain);
    ApplyUsersNamed(cfg, s, Decide(s, e), plain);
  }

  // ---- Runs ---------------------------------------------------------------------------------

  /** Over every legal run ids and tokens hold no colon; over one of plain events nothing else troubles SCAN. */
  lemma {:induction false} RunNamed(cfg: Config, start: nat, es: seq<Event>, plain: bool)
    requires Legal(cfg, start, es) && (plain ==> PlainEvents(es))
    ensures Named(Run(cfg, start, es).state, plain)
  {
    hide Step, Enabled, Named, PlainEvent;
    if es != [] {
      var before, e := es[..|es| - 1], es[|es| - 1];
      assert plain ==> PlainEvents(before) && PlainEvent(e);
      RunNamed(cfg, start, before, plain);
      StepNamed(cfg, Run(cfg, start, before).state, e, plain);
    } else {
      NothingNamed(start, plain);
    }
  }

  lemma NothingNamed(start: nat, plain: bool)
    ensures Named(Init(start), plain)
  {
  }

  lemma PlainPlanRevokesOwn(s: State, p: Plan)
    requires CacheNamed(s.cache, true) && PlanNamed(p, true)
    ensures RevokesOwn(s, p)
  {
    hide ScansOwn, OwnHits, UsersNamed, GlobFree, BlacklistUser;
    if p.LogIn? {
      ColonFreeCodesScanOwn(s.cache, CodeOf(p.db), p.user);
    } else if p.Reissue? {
      ColonFreeCodesScanOwn(s.cache, p.client, p.user);
      ScansOwnNow(s.cache, p.client, p.user);
    }
  }

  lemma ScansOwnNow(m: Entries, client: string, user: string)
    requires ScansOwn(m, client, user)
    ensures OwnHits(m, client, user, Access)
  {
    SameKeysOwnHits(m, BlacklistUser(m, client, user, 0), client, user, Access);
  }

  /**
   * A legal run is orderly if every code a request or a tenant brings is plain and every id is free of
   * glob characters: then each login and refresh of the run revokes exactly its user's keys.
   */
  lemma {:induction false} PlainRunsAreOrderly(cfg: Config, start: nat, es: seq<Event>)
    requires Legal(cfg, start, es) && PlainEvents(es)
    ensures Orderly(cfg, start, es)
  {
    hide Run, Enabled, Decide, RevokesOwn, PlanNamed, CacheNamed, UsersNamed, SignedNamed, RowsNamed, PlainEvent;
    if es != [] {
      var before, e := es[..|es| - 1], es[|es| - 1];
      assert PlainEvents(before) && PlainEvent(e);
      PlainRunsAreOrderly(cfg, start, before);
      RunNamed(cfg, start, before, true);
      var s := Run(cfg, start, before).state;
      DecideNamed(s, e, true);
      PlainPlanRevokesOwn(s, Decide(s, e));
    }
  }
}
