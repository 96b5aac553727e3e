/**
 * Access tokens over whole runs. Under each client code an unexpired token is in one of three
 * states until it expires: absent while it was not shown there, cached since, and blacklisted once
 * something revoked the user's sessions after that.
 */
module AccessTokens {
  import opened AuthConfig
  import opened CacheKeys
  import opened Sessions
  import opened TokenCache

  // ---- One token in the cache ---------------------------------------------------------------

  /** An issued token as the cache knows it under one client code; `until` is its expiry in ms. */
  datatype Ticket = Ticket(client: string, user: string, token: string, until: nat)

  predicate Blacklists(m: Entries, t: Ticket) {
    var k := Token(t.client, t.user, Blacklist, t.token);
    k in m && m[k].expires >= t.until
  }

  predicate Admits(m: Entries, t: Ticket) {
    var k := Token(t.client, t.user, Access, t.token);
    && k in m && m[k].expires >= t.until
    && Token(t.client, t.user, Blacklist, t.token) !in m
  }

  predicate Absent(m: Entries, t: Ticket) {
    Token(t.client, t.user, Access, t.token) !in m && Token(t.client, t.user, Blacklist, t.token) !in m
  }

  predicate Stands(m: Entries, t: Ticket, shown: bool, revoked: bool) {
    if revoked then Blacklists(m, t) else if shown then Admits(m, t) else Absent(m, t)
  }

  /** A step that revokes nothing of the ticket's user. */
  predicate Keeps(m: Entries, m': Entries, t: Ticket) {
    && (Blacklists(m, t) ==> Blacklists(m', t))
    && (Admits(m, t) ==> Admits(m', t))
  }

  predicate Revoking(m: Entries, m': Entries, t: Ticket) {
    Blacklists(m, t) || Admits(m, t) ==> Blacklists(m', t)
  }

  lemma BlacklistEffect(m: Entries, client: string, user: string, expires: nat, t: Ticket)
    requires expires >= t.until && t.token != ""
    ensures t.client == client && t.user == user ==> Revoking(m, BlacklistOwn(m, client, user, expires), t)
    ensures t.client != client || t.user != user ==> Keeps(m, BlacklistOwn(m, client, user, expires), t)
  {
    var a := Token(t.client, t.user, Access, t.token);
    assert a in m && t.client == client && t.user == user
      ==> Token(client, user, Blacklist, t.token) in OwnBlacklistKeys(m, client, user);
  }

  lemma ClearEffect(m: Entries, client: string, user: string, t: Ticket)
    ensures Blacklists(m, t) ==> Blacklists(ClearOwn(m, client, user), t)
    ensures t.client != client || t.user != user ==> Keeps(m, ClearOwn(m, client, user), t)
  {
  }

  lemma SessionsRevoked(cfg: Config, s: State, db: Db, user: string, t: Ticket)
    requires t.token != "" && t.until <= s.now + BlacklistTtl(cfg) && ScansOwn(s.cache, CodeOf(db), user)
    ensures
      var m' := RevokeSessions(cfg, s, db, user).cache;
      if t.client == CodeOf(db) && t.user == user then Revoking(s.cache, m', t) else Keeps(s.cache, m', t)
  {
    hide BlacklistUser, ClearUser, BlacklistOwn, ClearOwn, ScansOwn, InvalidateRows;
    var m1 := BlacklistOwn(s.cache, CodeOf(db), user, s.now + BlacklistTtl(cfg));
    RevocationIsOwn(s.cache, CodeOf(db), user, s.now + BlacklistTtl(cfg));
    BlacklistEffect(s.cache, CodeOf(db), user, s.now + BlacklistTtl(cfg), t);
    ClearEffect(m1, CodeOf(db), user, t);
  }

  lemma TokensGenerated(cfg: Config, s: State, db: Db, user: string, ip: string, access: string, refresh: string, t: Ticket)
    requires t.token != access
    ensures Keeps(s.cache, GenerateTokens(cfg, s, db, user, ip, access, refresh).cache, t)
  {
  }

  lemma RefreshEffect(cfg: Config, s: State, client: string, user: string, ip: string, access: string, t: Ticket)
    requires t.token != "" && t.token != access && t.until <= s.now + BlacklistTtl(cfg)
    requires OwnHits(s.cache, client, user, Access)
    ensures
      var m' := NewAccessToken(cfg, s, client, user, ip, access).cache;
      if t.client == client && t.user == user then Revoking(s.cache, m', t) else Keeps(s.cache, m', t)
  {
    hide BlacklistUser, BlacklistOwn, OwnHits;
    BlacklistIsOwn(s.cache, client, user, s.now + BlacklistTtl(cfg));
    BlacklistEffect(s.cache, client, user, s.now + BlacklistTtl(cfg), t);
  }

  lemma LoginEffect(cfg: Config, s: State, db: Db, user: string, ip: string, access: string, refresh: string, t: Ticket)
    requires t.token != "" && t.token != access && t.until <= s.now + BlacklistTtl(cfg)
    requires ScansOwn(s.cache, CodeOf(db), user)
    ensures
      var n := Login(cfg, s, db, user, ip, access, refresh);
      if t.client == CodeOf(db) && t.user == user then Revoking(s.cache, n.state.cache, t) else Keeps(s.cache, n.state.cache, t)
  {
    hide RevokeSessions, GenerateTokens, ScansOwn;
    var s1 := RevokeSessions(cfg, s, db, user);
    SessionsRevoked(cfg, s, db, user, t);
    TokensGenerated(cfg, s1, db, user, ip, access, refresh, t);
  }

  /** What any step does to a token signed earlier that is still unexpired afterwards. */
  lemma ApplyEffect(cfg: Config, s: State, p: Plan, t: Ticket)
    requires Sound(s, p) && RevokesOwn(s, p) && TtlsCoverJwt(cfg) && t.token in s.signed && t.token != ""
    requires t.until <= s.now + cfg.accessTokenExpiresIn * 1000 && Apply(cfg, s, p).state.now < t.until
    ensures
      var n := Apply(cfg, s, p);
      if Revokes(n.result, t.client, t.user) then Revoking(s.cache, n.state.cache, t) else Keeps(s.cache, n.state.cache, t)
  {
    hide Login, GenerateTokens, NewAccessToken, InvalidateRows, ScansOwn, OwnHits;
    match p {
      case LogIn(users, db, user, ip, access, refresh) =>
        LoginEffect(cfg, s.(users := users), db, user, ip, access, refresh, t);
        LoginResult(cfg, s.(users := users), db, user, ip, access, refresh);
      case Reissue(theft, client, user, ip, access) =>
        RefreshEffect(cfg, if theft then HandleTheft(s, user, ip) else s, client, user, ip, access, t);
      case Replace(token, user, ip, access, refresh) =>
        TokensGenerated(cfg, s.(rows := InvalidateRow(s.rows, RowId(Root, token))), Root, user, ip, access, refresh, t);
      case _ =>
    }
  }

  lemma LoginResult(cfg: Config, s: State, db: Db, user: string, ip: string, access: string, refresh: string)
    ensures
      var r := Login(cfg, s, db, user, ip, access, refresh).result;
      && LoginAttempt(r, CodeOf(db), user) && (r.Issued? ==> r.access == access)
      && forall c, u :: Revokes(r, c, u) ==> c == CodeOf(db) && u == user
  {
  }

  /** A token absent under a code appears there only when a check re-caches it. */
  lemma AbsentEffect(cfg: Config, s: State, p: Plan, t: Ticket)
    requires Sound(s, p) && RevokesOwn(s, p) && TtlsCoverJwt(cfg) && t.token in s.signed && s.signed[t.token].user == t.user
    requires t.until <= s.now + cfg.accessTokenExpiresIn * 1000 && Absent(s.cache, t)
    ensures
      var m' := Apply(cfg, s, p).state.cache;
      if p.Recache? && p.client == t.client && p.token == t.token then Admits(m', t) else Absent(m', t)
  {
    hide Login, NewAccessToken, InvalidateRows, InvalidateRow, UsersGrow, ScansOwn, OwnHits;
    match p {
      case LogIn(users, db, user, ip, access, refresh) => LoginAbsent(cfg, s.(users := users), db, user, ip, access, refresh, t);
      case Reissue(theft, client, user, ip, access) =>
        RefreshAbsent(cfg, if theft then HandleTheft(s, user, ip) else s, client, user, ip, access, t);
      case _ =>
    }
  }

  lemma LoginAbsent(cfg: Config, s: State, db: Db, user: string, ip: string, access: string, refresh: string, t: Ticket)
    requires (t.token != access || t.client != CodeOf(db)) && Absent(s.cache, t) && ScansOwn(s.cache, CodeOf(db), user)
    ensures Absent(Login(cfg, s, db, user, ip, access, refresh).state.cache, t)
  {
    hide InvalidateRows, BlacklistUser, ClearUser, ScansOwn;
    RevocationIsOwn(s.cache, CodeOf(db), user, s.now + BlacklistTtl(cfg));
  }

  lemma RefreshAbsent(cfg: Config, s: State, client: string, user: string, ip: string, access: string, t: Ticket)
    requires (t.token != access || t.client != client) && Absent(s.cache, t) && OwnHits(s.cache, client, user, Access)
    ensures Absent(NewAccessToken(cfg, s, client, user, ip, access).cache, t)
  {
    hide BlacklistUser, OwnHits;
    BlacklistIsOwn(s.cache, client, user, s.now + BlacklistTtl(cfg));
  }

  /** For a token signed earlier and absent under a code, such a check is the only event to show it there. */
  lemma ShowsIsRecache(cfg: Config, s: State, e: Event, t: Ticket)
    requires Enabled(s, e) && t.token in s.signed && s.signed[t.token].user == t.user && Absent(s.cache, t)
    ensures
      var p, n := Decide(s, e), Step(cfg, s, e);
      Shows(Obs(e, n.result, n.alarm, s.now), t.client, t.token) <==> p.Recache? && p.client == t.client && p.token == t.token
  {
    hide InvalidateRows, InvalidateRow, RevokeSessions, GenerateTokens, NewAccessToken, HandleTheft, Purge;
  }

  // ---- The invariant ------------------------------------------------------------------------

  /** The token an event issued, seen under a client code. */
  function TicketOf(cfg: Config, o: Obs, client: string): Ticket
    requires o.result.Issued?
  {
    Ticket(client, o.result.user, o.result.access, JwtExp(cfg, o.at) * 1000)
  }

  predicate SignedIn(cfg: Config, s: State, o: Obs)
    requires o.result.Issued?
  {
    var r := o.result;
    && r.access in s.signed && s.signed[r.access] == Claims(r.user, JwtExp(cfg, o.at))
    && r.access != "" && o.at <= s.now
  }

  /** Every issue is on record in `signed`, and no token is shown before it is signed and issued. */
  ghost predicate IssuesSigned(cfg: Config, w: World) {
    && (forall i :: 0 <= i < |w.log| && w.log[i].result.Issued? ==> SignedIn(cfg, w.state, w.log[i]))
    && (forall j, client, access :: 0 <= j < |w.log| && Shows(w.log[j], client, access) ==> access in w.state.signed)
    && (forall j, i, client :: 0 <= j < i < |w.log| && w.log[i].result.Issued? ==> !Shows(w.log[j], client, w.log[i].result.access))
  }

  /** Access and blacklist entries are only ever for signed tokens. */
  ghost predicate CacheSigned(s: State) {
    forall k :: k in s.cache && k.Token? && (k.kind == Access || k.kind == Blacklist) ==> k.token in s.signed
  }

  /** How the token the i-th event issued stands under a client code. */
  ghost predicate CoveredAt(cfg: Config, w: World, i: nat, client: string)
    requires i < |w.log| && w.log[i].result.Issued?
  {
    var t := TicketOf(cfg, w.log[i], client);
    w.state.now < t.until ==>
      Stands(w.state.cache, t, ShownIn(w.log, client, t.token), RevokedAfterShown(w.log, client, t.user, t.token))
  }

  ghost predicate Covered(cfg: Config, w: World) {
    forall i, client :: 0 <= i < |w.log| && w.log[i].result.Issued? ==> CoveredAt(cfg, w, i, client)
  }

  ghost predicate Inv(cfg: Config, w: World) {
    IssuesSigned(cfg, w) && CacheSigned(w.state) && Covered(cfg, w)
  }

  /** What a step adds to `signed`: nothing, or the fresh token it reports as issued. */
  predicate Signs(cfg: Config, s: State, n: Next) {
    && n.state.now >= s.now
    && if n.result.Issued? then
         && FreshAccess(s, n.result.access) && n.state.now == s.now
         && n.state.signed == s.signed[n.result.access := Claims(n.result.user, JwtExp(cfg, s.now))]
       else n.state.signed == s.signed
  }

  lemma ApplySigns(cfg: Config, s: State, p: Plan)
    requires Sound(s, p)
    ensures Signs(cfg, s, Apply(cfg, s, p))
  {
    hide InvalidateRows, InvalidateRow, BlacklistUser, ClearUser, Purge;
  }

  lemma LoginCacheSigned(cfg: Config, s: State, db: Db, user: string, ip: string, access: string, refresh: string)
    requires CacheSigned(s) && ScansOwn(s.cache, CodeOf(db), user)
    ensures CacheSigned(Login(cfg, s, db, user, ip, access, refresh).state)
  {
    hide InvalidateRows, BlacklistUser, ClearUser, ScansOwn;
    RevocationIsOwn(s.cache, CodeOf(db), user, s.now + BlacklistTtl(cfg));
  }

  lemma NewAccessCacheSigned(cfg: Config, s: State, client: string, user: string, ip: string, access: string)
    requires CacheSigned(s) && OwnHits(s.cache, client, user, Access)
    ensures CacheSigned(NewAccessToken(cfg, s, client, user, ip, access))
  {
    hide BlacklistUser, OwnHits;
    BlacklistIsOwn(s.cache, client, user, s.now + BlacklistTtl(cfg));
  }

  lemma ApplyCacheSigned(cfg: Config, s: State, p: Plan)
    requires CacheSigned(s) && Sound(s, p) && RevokesOwn(s, p)
    ensures CacheSigned(Apply(cfg, s, p).state)
  {
    hide Login, NewAccessToken, InvalidateRows, ScansOwn, OwnHits;
    match p {
      case LogIn(users, db, user, ip, access, refresh) => LoginCacheSigned(cfg, s.(users := users), db, user, ip, access, refresh);
      case Reissue(theft, client, user, ip, access) =>
        NewAccessCacheSigned(cfg, if theft then HandleTheft(s, user, ip) else s, client, user, ip, access);
      case _ =>
    }
  }

  lemma GeneratedIsAdmitted(cfg: Config, s: State, db: Db, user: string, ip: string, access: string, refresh: string, until: nat)
    requires until <= s.now + cfg.accessTokenCacheExpiresIn && Token(CodeOf(db), user, Blacklist, access) !in s.cache
    ensures Admits(GenerateTokens(cfg, s, db, user, ip, access, refresh).cache, Ticket(CodeOf(db), user, access, until))
  {
  }

  lemma RevocationMentionsNoNewToken(cfg: Config, s: State, db: Db, user: string, access: string)
    requires CacheSigned(s) && access !in s.signed && ScansOwn(s.cache, CodeOf(db), user)
    ensures Token(CodeOf(db), user, Blacklist, access) !in RevokeSessions(cfg, s, db, user).cache
  {
    hide InvalidateRows, BlacklistUser, ClearUser, ScansOwn;
    RevocationIsOwn(s.cache, CodeOf(db), user, s.now + BlacklistTtl(cfg));
  }

  /** A token just issued is admitted until it expires: nothing in the cache mentioned it before. */
  lemma ApplyAdmits(cfg: Config, s: State, e: Event, p: Plan)
    requires CacheSigned(s) && Sound(s, p) && RevokesOwn(s, p) && TtlsCoverJwt(cfg) && Apply(cfg, s, p).result.Issued?
    ensures
      var n := Apply(cfg, s, p);
      Admits(n.state.cache, TicketOf(cfg, Obs(e, n.result, n.alarm, s.now), n.result.client))
  {
    hide RevokeSessions, GenerateTokens, NewAccessToken, InvalidateRows, InvalidateRow, UsersGrow, Purge, ClearUser, ScansOwn, OwnHits;
    var until := JwtExp(cfg, s.now) * 1000;
    match p {
      case LogIn(users, db, user, ip, access, refresh) =>
        var s1 := s.(users := users);
        RevocationMentionsNoNewToken(cfg, s1, db, user, access);
        RevocationKeepsClock(cfg, s1, db, user);
        GeneratedIsAdmitted(cfg, RevokeSessions(cfg, s1, db, user), db, user, ip, access, refresh, until);
      case Replace(token, user, ip, access, refresh) =>
        GeneratedIsAdmitted(cfg, s.(rows := InvalidateRow(s.rows, RowId(Root, token))), Root, user, ip, access, refresh, until);
      case Reissue(theft, client, user, ip, access) =>
        ReissuedIsAdmitted(cfg, if theft then HandleTheft(s, user, ip) else s, client, user, ip, access, until);
      case _ =>
    }
  }

  lemma ReissuedIsAdmitted(cfg: Config, s: State, client: string, user: string, ip: string, access: string, until: nat)
    requires until <= s.now + cfg.accessTokenCacheExpiresIn && CacheSigned(s) && access !in s.signed
    requires OwnHits(s.cache, client, user, Access)
    ensures Admits(NewAccessToken(cfg, s, client, user, ip, access).cache, Ticket(client, user, access, until))
  {
    hide BlacklistUser, OwnHits;
    BlacklistIsOwn(s.cache, client, user, s.now + BlacklistTtl(cfg));
  }

  /** And it is absent under every other code. */
  lemma ApplyLeavesAbsent(cfg: Config, s: State, p: Plan, t: Ticket)
    requires CacheSigned(s) && Sound(s, p) && RevokesOwn(s, p) && Apply(cfg, s, p).result.Issued?
    requires t.token == Apply(cfg, s, p).result.access && t.client != Apply(cfg, s, p).result.client
    ensures Absent(Apply(cfg, s, p).state.cache, t)
  {
    hide Login, NewAccessToken, InvalidateRows, InvalidateRow, UsersGrow, ScansOwn, OwnHits;
    match p {
      case LogIn(users, db, user, ip, access, refresh) =>
        LoginResult(cfg, s.(users := users), db, user, ip, access, refresh);
        LoginAbsent(cfg, s.(users := users), db, user, ip, access, refresh, t);
      case Reissue(theft, client, user, ip, access) =>
        RefreshAbsent(cfg, if theft then HandleTheft(s, user, ip) else s, client, user, ip, access, t);
      case _ =>
    }
  }

  lemma RevocationKeepsClock(cfg: Config, s: State, db: Db, user: string)
    ensures RevokeSessions(cfg, s, db, user).now == s.now
  {
  }

  // ---- One step keeps the invariant ---------------------------------------------------------

  /** Whatever an event shows is signed afterwards, and was signed before unless the event issued it. */
  lemma ShowsSigned(cfg: Config, s: State, e: Event, client: string, access: string)
    requires Enabled(s, e)
    ensures
      var n := Step(cfg, s, e);
      Shows(Obs(e, n.result, n.alarm, s.now), client, access) ==>
        access in s.signed || (n.result.Issued? && n.result.access == access)
  {
    hide InvalidateRows, InvalidateRow, RevokeSessions, GenerateTokens, NewAccessToken, HandleTheft, Purge;
  }

  lemma IssuesSignedStep(cfg: Config, w: World, e: Event)
    requires IssuesSigned(cfg, w) && Enabled(w.state, e)
    ensures IssuesSigned(cfg, Advance(cfg, w, e))
  {
    hide Apply, Decide, Shows;
    DecideSound(w.state, e);
    ApplySigns(cfg, w.state, Decide(w.state, e));
    forall client, access {
      ShowsSigned(cfg, w.state, e, client, access);
    }
  }

  lemma RevokedAfterOneMore(log: seq<Obs>, o: Obs, i: nat, client: string, user: string)
    requires i < |log|
    ensures RevokedAfter(log + [o], i, client, user) <==> RevokedAfter(log, i, client, user) || Revokes(o.result, client, user)
  {
    assert (log + [o])[|log|] == o;
    assert forall j :: 0 <= j < |log| ==> (log + [o])[j] == log[j];
  }

  lemma ShownOneMore(log: seq<Obs>, o: Obs, client: string, access: string)
    ensures ShownIn(log + [o], client, access) <==> ShownIn(log, client, access) || Shows(o, client, access)
  {
    hide Shows;
    assert (log + [o])[|log|] == o;
    assert forall j :: 0 <= j < |log| ==> (log + [o])[j] == log[j];
  }

  lemma RevokedShownOneMore(log: seq<Obs>, o: Obs, client: string, user: string, access: string)
    ensures RevokedAfterShown(log + [o], client, user, access) <==>
      RevokedAfterShown(log, client, user, access) || (ShownIn(log, client, access) && Revokes(o.result, client, user))
  {
    hide ShownIn, Revokes;
    var log' := log + [o];
    assert log'[|log|] == o && log'[..|log|] == log;
    assert forall k :: 0 <= k < |log| ==> log'[k] == log[k] && log'[..k] == log[..k];
  }

  /** A token not signed before stands nowhere; the event that issues it shows it under one code. */
  lemma CoveredAtIssue(cfg: Config, w: World, e: Event, client: string)
    requires Inv(cfg, w) && Enabled(w.state, e) && RevokesOwn(w.state, Decide(w.state, e)) && TtlsCoverJwt(cfg) && Step(cfg, w.state, e).result.Issued?
    ensures CoveredAt(cfg, Advance(cfg, w, e), |w.log|, client)
  {
    hide Apply, Decide, RevokesOwn, Covered, Absent, Admits, Blacklists;
    var w', p := Advance(cfg, w, e), Decide(w.state, e);
    DecideSound(w.state, e);
    var o := w'.log[|w.log|];
    var t := TicketOf(cfg, o, client);
    ApplySigns(cfg, w.state, p);
    NotShown(w, client, t.token);
    NotRevokedBeforeShown(w.log, client, t.user, t.token);
    ShownOneMore(w.log, o, client, t.token);
    RevokedShownOneMore(w.log, o, client, t.user, t.token);
    if client == o.result.client {
      ApplyAdmits(cfg, w.state, e, p);
    } else {
      ApplyLeavesAbsent(cfg, w.state, p, t);
    }
  }

  lemma NotShown(w: World, client: string, access: string)
    requires access !in w.state.signed
    requires forall j, c, a :: 0 <= j < |w.log| && Shows(w.log[j], c, a) ==> a in w.state.signed
    ensures !ShownIn(w.log, client, access)
  {
  }

  lemma NotRevokedBeforeShown(log: seq<Obs>, client: string, user: string, access: string)
    requires !ShownIn(log, client, access)
    ensures !RevokedAfterShown(log, client, user, access)
  {
    hide Shows, Revokes;
    assert forall k, j :: 0 <= j < k <= |log| ==> log[..k][j] == log[j];
  }

  /** One step moves a token signed earlier from absent to cached to blacklisted, as the history says. */
  lemma StandsStep(cfg: Config, s: State, e: Event, t: Ticket, shown: bool, revoked: bool)
    requires Enabled(s, e) && RevokesOwn(s, Decide(s, e)) && TtlsCoverJwt(cfg)
    requires t.token in s.signed && s.signed[t.token].user == t.user && t.token != ""
    requires t.until <= s.now + cfg.accessTokenExpiresIn * 1000 && Step(cfg, s, e).state.now < t.until
    requires Stands(s.cache, t, shown, revoked) && (revoked ==> shown)
    ensures
      var n := Step(cfg, s, e);
      var o := Obs(e, n.result, n.alarm, s.now);
      Stands(n.state.cache, t, shown || Shows(o, t.client, t.token), revoked || (shown && Revokes(o.result, t.client, t.user)))
  {
    hide Apply, Decide, RevokesOwn, Absent, Admits, Blacklists, Shows, Revokes;
    DecideSound(s, e);
    if shown {
      ApplyEffect(cfg, s, Decide(s, e), t);
    } else {
      ShowsIsRecache(cfg, s, e, t);
      AbsentEffect(cfg, s, Decide(s, e), t);
    }
  }

  lemma CoveredLater(cfg: Config, w: World, e: Event, i: nat, client: string)
    requires Inv(cfg, w) && Enabled(w.state, e) && RevokesOwn(w.state, Decide(w.state, e)) && TtlsCoverJwt(cfg)
    requires i < |w.log| && w.log[i].result.Issued?
    ensures CoveredAt(cfg, Advance(cfg, w, e), i, client)
  {
    hide Step, Decide, RevokesOwn, Stands, Shows, Revokes, ShownIn, RevokedAfterShown;
    var w' := Advance(cfg, w, e);
    var t := TicketOf(cfg, w.log[i], client);
    if w'.state.now < t.until {
      assert SignedIn(cfg, w.state, w.log[i]) && CoveredAt(cfg, w, i, client);
      ClockAdvances(cfg, w.state, e);
      RevokedMeansShown(w.log, client, t.user, t.token);
      StandsStep(cfg, w.state, e, t, ShownIn(w.log, client, t.token), RevokedAfterShown(w.log, client, t.user, t.token));
      ShownOneMore(w.log, w'.log[|w.log|], client, t.token);
      RevokedShownOneMore(w.log, w'.log[|w.log|], client, t.user, t.token);
    }
  }

  lemma ClockAdvances(cfg: Config, s: State, e: Event)
    requires Enabled(s, e)
    ensures s.now <= Step(cfg, s, e).state.now
  {
    hide Apply, Decide;
    DecideSound(s, e);
    ApplySigns(cfg, s, Decide(s, e));
  }

  lemma RevokedMeansShown(log: seq<Obs>, client: string, user: string, access: string)
    ensures RevokedAfterShown(log, client, user, access) ==> ShownIn(log, client, access)
  {
    if !ShownIn(log, client, access) {
      NotRevokedBeforeShown(log, client, user, access);
    }
  }

  lemma CoveredStep(cfg: Config, w: World, e: Event)
    requires Inv(cfg, w) && Enabled(w.state, e) && RevokesOwn(w.state, Decide(w.state, e)) && TtlsCoverJwt(cfg)
    ensures Covered(cfg, Advance(cfg, w, e))
  {
    hide Step, Decide, RevokesOwn, CoveredAt;
    var w' := Advance(cfg, w, e);
    forall i, client | 0 <= i < |w'.log| && w'.log[i].result.Issued?
      ensures CoveredAt(cfg, w', i, client)
    {
      if i == |w.log| {
        CoveredAtIssue(cfg, w, e, client);
      } else {
        CoveredLater(cfg, w, e, i, client);
      }
    }
  }

  lemma EmptyInv(cfg: Config, start: nat)
    ensures Inv(cfg, World(Init(start), []))
  {
  }

  lemma InvStep(cfg: Config, w: World, e: Event)
    requires Inv(cfg, w) && Enabled(w.state, e) && RevokesOwn(w.state, Decide(w.state, e)) && TtlsCoverJwt(cfg)
    ensures Inv(cfg, Advance(cfg, w, e))
  {
    hide Apply, Decide, RevokesOwn, IssuesSigned, CacheSigned, Covered, Enabled;
    IssuesSignedStep(cfg, w, e);
    DecideSound(w.state, e);
    ApplyCacheSigned(cfg, w.state, Decide(w.state, e));
    CoveredStep(cfg, w, e);
  }

  lemma {:induction false} RunInv(cfg: Config, start: nat, es: seq<Event>)
    requires Orderly(cfg, start, es) && TtlsCoverJwt(cfg)
    ensures Inv(cfg, Run(cfg, start, es))
  {
    hide Step, Decide, RevokesOwn, Inv, IssuesSigned, CacheSigned, Covered, Enabled;
    if es != [] {
      var before, e := es[..|es| - 1], es[|es| - 1];
      var w := Run(cfg, start, before);
      RunInv(cfg, start, before);
      InvStep(cfg, w, e);
    } else {
      EmptyInv(cfg, start);
    }
  }

  // ---- Under the code of issue --------------------------------------------------------------

  /** Under the code of issue a token is shown from its issue on. */
  lemma ShownSinceIssue(cfg: Config, w: World, i: nat, client: string, user: string, access: string)
    requires IssuesSigned(cfg, w) && IssuedAt(w.log, i, client, user, access)
    ensures ShownIn(w.log, client, access)
    ensures RevokedAfterShown(w.log, client, user, access) <==> RevokedAfter(w.log, i, client, user)
  {
    hide Revokes, SignedIn;
    assert Shows(w.log[i], client, access);
    assert forall k, j :: 0 <= j < k <= |w.log| ==> w.log[..k][j] == w.log[j];
    assert forall k :: i < k <= |w.log| ==> w.log[..k][i] == w.log[i];
    assert forall k :: 0 <= k < |w.log| ==> (ShownIn(w.log[..k], client, access) <==> i < k);
  }
}
