/**
 * What the history makes of a refresh token, for every grant to a user of any database and under
 * every client code: its row, and the cache entry that a grant or a re-caching left.
 */
module RefreshTracking {
  import opened AuthConfig
  import opened CacheKeys
  import opened Options
  import opened RefreshRows
  import opened Sessions
  import opened SessionTheorems
  import opened TokenCache

  // ---- Reading the history ------------------------------------------------------------------

  /** The refresh token the i-th event gave to a user of this database. */
  datatype Grant = Grant(i: nat, db: Db, user: string, token: string)

  predicate GrantsRefresh(o: Obs, user: string, token: string) {
    o.result.Issued? && o.result.user == user && o.result.refresh == Some(token)
  }

  ghost predicate GrantIn(w: World, g: Grant) {
    && g.i < |w.log| && GrantsRefresh(w.log[g.i], g.user, g.token)
    && g.user in w.state.users && w.state.users[g.user].db == g.db
  }

  /** The address an event came from. */
  function IpOf(e: Event): string {
    match e
    case PasswordLogin(_, _, ip, _, _) => ip
    case GoogleLogin(_, _, ip, _, _, _, _) => ip
    case VerifyEmail(_, _, ip, _, _) => ip
    case RefreshAccess(_, _, _, ip, _, _) => ip
    case Rotate(_, ip, _, _) => ip
    case Validate(_, _, ip) => ip
    case VerifyToken(_, ip) => ip
    case _ => ""
  }

  /** An event that invalidates the row of a token but leaves its cache entry alone. */
  predicate Silences(e: Event, alarm: Option<string>, user: string, token: string) {
    || (e.RevokeRefresh? && e.token == token)
    || (e.Rotate? && e.token == token)
    || alarm == Some(user)
  }

  ghost predicate SilencedAfter(log: seq<Obs>, i: nat, user: string, token: string) {
    exists j :: i < j < |log| && Silences(log[j].event, log[j].alarm, user, token)
  }

  /** Nothing has invalidated the row of the grant: no login attempt, and for root users no silencing. */
  ghost predicate RowStands(log: seq<Obs>, g: Grant) {
    && !LoginAfter(log, g.i, CodeOf(g.db), g.user)
    && (g.db == Root ==> !SilencedAfter(log, g.i, g.user, g.token))
  }

  /** A check under this code that let an access token through which nothing had shown there: it re-cached. */
  ghost predicate Recaches(log: seq<Obs>, j: nat, code: string, user: string)
    requires j < |log|
  {
    && log[j].event.Validate? && log[j].event.client == code && log[j].result == Accepted(user)
    && !ShownIn(log[..j], code, log[j].event.token)
  }

  /**
   * The event that last cached the granted token under this code: the grant itself under the code of
   * the user's database, or the latest re-caching while the row was still valid; -1 if there is none.
   */
  ghost function LastCached(log: seq<Obs>, g: Grant, code: string): (j: int)
    requires g.i < |log|
    ensures -1 <= j < |log|
  {
    var last := |log| - 1;
    if last == g.i then if CodeOf(g.db) == code then g.i else -1
    else if Recaches(log, last, code, g.user) && g.db == Root && RowStands(log[..last], g) then last
    else LastCached(log[..last], g, code)
  }

  // ---- What one step does to the row --------------------------------------------------------

  predicate HasRow(s: State, g: Grant) {
    && g.user in s.users && s.users[g.user].db == g.db
    && RowId(g.db, g.token) in s.rows && s.rows[RowId(g.db, g.token)].user == g.user
  }

  lemma DropRowsOfOwner(cfg: Config, s: State, e: Event, user: string, token: string)
    requires OneValid(s.rows) && Decide(s, e) == DropRows(user) && IsValidRootRow(s.rows, token, user)
    ensures e.Rotate? && e.token == token
  {
  }

  lemma StepRow(cfg: Config, s: State, e: Event, g: Grant)
    requires OneValid(s.rows) && Enabled(s, e) && HasRow(s, g)
    ensures
      var n := Step(cfg, s, e);
      var id := RowId(g.db, g.token);
      && id in n.state.rows && n.state.rows[id].(isValid := s.rows[id].isValid) == s.rows[id]
      && (n.state.rows[id].isValid <==>
            && s.rows[id].isValid && !LoginAttempt(n.result, CodeOf(g.db), g.user)
            && (g.db == Root ==> !Silences(e, n.alarm, g.user, g.token)))
  {
    hide Apply, Decide, OneValid, Enabled, LoginAttempt;
    var p := Decide(s, e);
    DecideSound(s, e);
    PlanOfEvent(s, e);
    if p.DropRows? && p.user == g.user && g.db == Root && s.rows[RowId(Root, g.token)].isValid {
      DropRowsOfOwner(cfg, s, e, g.user, g.token);
    }
    ApplyRow(cfg, s, p, g);
    if g.db == Root {
      RotateDrops(s, e, g);
    }
    RevokesOfPlan(cfg, s, p);
  }

  /** Which plans invalidate the row. */
  predicate PlanDrops(p: Plan, g: Grant) {
    match p
    case LogIn(_, db, u, _, _, _) => db == g.db && u == g.user
    case Reissue(theft, _, u, _, _) => g.db == Root && theft && u == g.user
    case Alarm(u, _) => g.db == Root && u == g.user
    case Replace(t, _, _, _, _) => g.db == Root && t == g.token
    case DropRow(t, _) => g.db == Root && t == g.token
    case DropRows(u) => g.db == Root && u == g.user
    case _ => false
  }

  lemma LoginRow(cfg: Config, s: State, db: Db, u: string, ip: string, access: string, refresh: string, id: RowId)
    requires id in s.rows && id.token != refresh
    ensures
      var rows' := Login(cfg, s, db, u, ip, access, refresh).state.rows;
      id in rows' && rows'[id] == if id.db == db && s.rows[id].user == u then s.rows[id].(isValid := false) else s.rows[id]
  {
    hide BlacklistUser, ClearUser;
  }

  lemma ApplyRow(cfg: Config, s: State, p: Plan, g: Grant)
    requires Sound(s, p) && HasRow(s, g)
    ensures
      var rows' := Apply(cfg, s, p).state.rows;
      var id := RowId(g.db, g.token);
      && id in rows' && rows'[id].(isValid := s.rows[id].isValid) == s.rows[id]
      && (rows'[id].isValid <==> s.rows[id].isValid && !PlanDrops(p, g))
  {
    hide Login, BlacklistUser, Purge, UsersGrow;
    if p.LogIn? {
      LoginRow(cfg, s.(users := p.users), p.db, p.user, p.ip, p.access, p.refresh, RowId(g.db, g.token));
    }
  }

  /** Rows are added under the fresh token only. */
  lemma NewRows(cfg: Config, s: State, p: Plan, id: RowId)
    requires id in Apply(cfg, s, p).state.rows && id !in s.rows
    ensures
      var n := Apply(cfg, s, p);
      && (p.LogIn? || p.Replace?) && id == RowId(if p.LogIn? then p.db else Root, p.refresh) && n.state.rows[id].user == p.user
      && n.result == Issued(if p.LogIn? then ByLogin else ByRotation, CodeOf(id.db), p.user, p.access, Some(p.refresh))
  {
    hide BlacklistUser, ClearUser, Purge;
  }

  /** A plan's outcome counts as a login attempt or raises an alarm just when the plan says so. */
  lemma RevokesOfPlan(cfg: Config, s: State, p: Plan)
    requires Sound(s, p)
    ensures
      var n := Apply(cfg, s, p);
      && (forall c, u :: LoginAttempt(n.result, c, u) <==> p.LogIn? && c == CodeOf(p.db) && u == p.user)
      && n.alarm == (if p.Alarm? || (p.Reissue? && p.theft) then Some(p.user) else None)
      && n.state.now == (if p.Elapse? then p.to else s.now)
  {
    hide BlacklistUser, ClearUser, Purge, UsersGrow, InvalidateRows, InvalidateRow;
  }

  /** How plans follow from events, as far as rows are concerned. */
  lemma PlanOfEvent(s: State, e: Event)
    requires Enabled(s, e)
    ensures
      var p := Decide(s, e);
      && (p.Replace? ==> e.Rotate? && e.token == p.token)
      && (p.DropRow? ==> (e.Rotate? || e.RevokeRefresh?) && e.token == p.token)
      && (p.DropRows? ==> e.Rotate?)
      && (e.RevokeRefresh? ==> p.DropRow?)
  {
  }

  lemma RotateDrops(s: State, e: Event, g: Grant)
    requires g.db == Root && HasRow(s, g)
    ensures e.Rotate? && e.token == g.token && s.rows[RowId(Root, g.token)].isValid ==> PlanDrops(Decide(s, e), g)
  {
  }

  // ---- The user's cached refresh entry ------------------------------------------------------

  predicate SameEntry(m: Entries, m': Entries, k: Key) {
    k in m && k in m' && m'[k] == m[k]
  }

  lemma LoginEntry(cfg: Config, s: State, db: Db, u: string, ip: string, access: string, refresh: string, k: Key)
    requires k.Token? && k.kind == Refresh && k.token != refresh && ScansOwn(s.cache, CodeOf(db), u)
    ensures
      var m' := Login(cfg, s, db, u, ip, access, refresh).state.cache;
      k in m' <==> k in s.cache && !(k.client == CodeOf(db) && k.user == u)
    ensures
      var m' := Login(cfg, s, db, u, ip, access, refresh).state.cache;
      k in m' ==> SameEntry(s.cache, m', k)
  {
    hide InvalidateRows, BlacklistUser, ClearUser, ScansOwn;
    RevocationIsOwn(s.cache, CodeOf(db), u, s.now + BlacklistTtl(cfg));
  }

  lemma ReissueEntry(cfg: Config, s: State, client: string, u: string, ip: string, access: string, k: Key)
    requires k.Token? && k.kind == Refresh
    ensures
      var m' := NewAccessToken(cfg, s, client, u, ip, access).cache;
      (k in m' <==> k in s.cache) && (k in m' ==> SameEntry(s.cache, m', k))
  {
    hide Hits;
  }

  ghost predicate HasToken(rows: Rows, token: string) {
    exists db :: RowId(db, token) in rows
  }

  predicate Refills(p: Plan, k: Key) {
    p.Recache? && p.along.Some? && k == Token(p.client, p.user, Refresh, p.along.value)
  }

  /** Only a login attempt or the entry's own expiry removes it, and only a re-caching changes it. */
  lemma ApplyEntry(cfg: Config, s: State, p: Plan, k: Key)
    requires Sound(s, p) && RevokesOwn(s, p) && k.Token? && k.kind == Refresh && HasToken(s.rows, k.token)
    requires !Refills(p, k)
    ensures
      var n := Apply(cfg, s, p);
      && (k in n.state.cache <==> k in s.cache && !LoginAttempt(n.result, k.client, k.user) && (p.Elapse? ==> p.to < s.cache[k].expires))
      && (k in n.state.cache ==> SameEntry(s.cache, n.state.cache, k))
  {
    hide Login, NewAccessToken, InvalidateRows, InvalidateRow, UsersGrow, ScansOwn, OwnHits;
    RevokesOfPlan(cfg, s, p);
    match p {
      case LogIn(users, db, u, ip, access, refresh) => LoginEntry(cfg, s.(users := users), db, u, ip, access, refresh, k);
      case Reissue(theft, client, u, ip, access) =>
        ReissueEntry(cfg, if theft then HandleTheft(s, u, ip) else s, client, u, ip, access, k);
      case _ =>
    }
  }

  // ---- Invariants ---------------------------------------------------------------------------

  lemma ApplyUsers(cfg: Config, s: State, p: Plan)
    requires Sound(s, p)
    ensures UsersGrow(s.users, Apply(cfg, s, p).state.users)
    ensures p.LogIn? ==> Apply(cfg, s, p).state.users == p.users
    ensures p.Replace? ==> Apply(cfg, s, p).state.users == s.users
  {
    hide BlacklistUser, ClearUser, Purge, InvalidateRows, InvalidateRow;
  }

  lemma {:induction false} UsersGrowOverRun(cfg: Config, start: nat, es: seq<Event>, k: nat)
    requires Legal(cfg, start, es) && k <= |es|
    ensures UsersGrow(Run(cfg, start, es[..k]).state.users, Run(cfg, start, es).state.users)
  {
    hide Apply, Decide, Sound;
    if k < |es| {
      var before, e := es[..|es| - 1], es[|es| - 1];
      assert before[..k] == es[..k];
      UsersGrowOverRun(cfg, start, before, k);
      DecideSound(Run(cfg, start, before).state, e);
      ApplyUsers(cfg, Run(cfg, start, before).state, Decide(Run(cfg, start, before).state, e));
    } else {
      assert es[..k] == es;
    }
  }

  /** In a run, a check re-caches just when the history says so. */
  lemma RecachesInRun(cfg: Config, start: nat, es: seq<Event>, e: Event)
    requires Orderly(cfg, start, es) && TtlsCoverJwt(cfg) && e.Validate?
    ensures
      var w := Run(cfg, start, es);
      Decide(w.state, e).Recache? <==> Step(cfg, w.state, e).result.Accepted? && !ShownIn(w.log, e.client, e.token)
  {
    var w := Run(cfg, start, es);
    AcceptsIsTheStep(cfg, w.state, e.client, e.token, e.ip);
    assert e == Validate(e.client, e.token, e.ip);
    PlanOfCheck(w.state, e);
    if Step(cfg, w.state, e).result.Accepted? {
      OrderlyIsLegal(cfg, start, es);
      hide Run, Legal, Orderly, Decide, Step, Accepts, RevokedAfterShown, ShownIn;
      SignedWereIssued(cfg, start, es, e.token);
      var i :| 0 <= i < |w.log| && w.log[i].result.Issued? && w.log[i].result.access == e.token;
      var r := w.log[i].result;
      SessionUnderAnyCode(cfg, start, es, i, r.client, r.user, e.token, e.client, e.ip);
      FallbackWhen(cfg, start, es, i, r.client, r.user, e.token, e.client, e.ip);
    }
  }

  lemma PlanOfCheck(s: State, e: Event)
    requires e.Validate?
    ensures
      var p := Decide(s, e);
      p.Recache? ==> Accepts(s, e.client, e.token, e.ip)
  {
  }

  /** Which refresh token such a check caches along: the user's valid one. */
  lemma CachedAlong(cfg: Config, s: State, e: Event, code: string, user: string, token: string)
    requires OneValid(s.rows)
    ensures
      var p := Decide(s, e);
      Refills(p, Token(code, user, Refresh, token)) <==>
        && e.Validate? && e.client == code && p.Recache? && Step(cfg, s, e).result == Accepted(user)
        && IsValidRootRow(s.rows, token, user)
  {
    hide InvalidateRows, InvalidateRow, RevokeSessions, GenerateTokens, NewAccessToken, HandleTheft, Purge, Found;
    if IsValidRootRow(s.rows, token, user) {
      OnlyValidRow(s.rows, user, token);
    }
  }

  lemma OnlyValidRow(rows: Rows, user: string, token: string)
    requires OneValid(rows) && IsValidRootRow(rows, token, user)
    ensures SomeValidRefresh(rows, user) == Some(token)
  {
  }

  ghost predicate RowTracked(w: World, g: Grant)
    requires g.i < |w.log|
  {
    var id, granted := RowId(g.db, g.token), w.log[g.i];
    && HasRow(w.state, g)
    && w.state.rows[id] == Row(g.user, RowStands(w.log, g), IpOf(granted.event), AddMinutes(granted.at, RefreshRowMinutes))
    && forall other :: other in w.state.rows && other.token == g.token ==> other == id
  }

  /** The cache has the token under this code: a caching, no login there since, and its lifetime not over. */
  ghost predicate StillCached(cfg: Config, w: World, g: Grant, code: string)
    requires g.i < |w.log|
  {
    var j := LastCached(w.log, g, code);
    j >= 0 && !LoginAfter(w.log, j, code, g.user) && w.state.now < w.log[j].at + cfg.refreshTokenCacheExpiresIn
  }

  ghost predicate EntryTracked(cfg: Config, w: World, g: Grant, code: string)
    requires g.i < |w.log|
  {
    var j, k := LastCached(w.log, g, code), Token(code, g.user, Refresh, g.token);
    && (k in w.state.cache <==> StillCached(cfg, w, g, code))
    && (k in w.state.cache ==>
          j >= 0 && w.state.cache[k] == Entry(Session(g.user, IpOf(w.log[j].event)), w.log[j].at + cfg.refreshTokenCacheExpiresIn))
  }

  lemma LoginOneMore(log: seq<Obs>, o: Obs, i: nat, code: string, user: string)
    requires i < |log|
    ensures LoginAfter(log + [o], i, code, user) <==> LoginAfter(log, i, code, user) || LoginAttempt(o.result, code, user)
  {
    hide LoginAttempt;
    assert (log + [o])[|log|] == o;
    assert forall j :: 0 <= j < |log| ==> (log + [o])[j] == log[j];
  }

  lemma StandsOneMore(log: seq<Obs>, o: Obs, g: Grant)
    requires g.i < |log|
    ensures RowStands(log + [o], g) <==>
      && RowStands(log, g) && !LoginAttempt(o.result, CodeOf(g.db), g.user)
      && (g.db == Root ==> !Silences(o.event, o.alarm, g.user, g.token))
  {
    hide LoginAttempt, Silences;
    LoginOneMore(log, o, g.i, CodeOf(g.db), g.user);
    assert (log + [o])[|log|] == o;
    assert forall j :: 0 <= j < |log| ==> (log + [o])[j] == log[j];
  }

  lemma LastCachedOneMore(log: seq<Obs>, o: Obs, g: Grant, code: string)
    requires g.i < |log|
    ensures
      LastCached(log + [o], g, code) ==
        if Recaches(log + [o], |log|, code, g.user) && g.db == Root && RowStands(log, g) then |log| else LastCached(log, g, code)
  {
    hide RowStands, Recaches;
    assert (log + [o])[..|log|] == log;
  }

  // ---- At the grant -------------------------------------------------------------------------

  lemma GrantEffect(cfg: Config, s: State, p: Plan)
    requires Sound(s, p) && Apply(cfg, s, p).result.Issued? && Apply(cfg, s, p).result.refresh.Some?
    ensures p.LogIn? || p.Replace?
    ensures
      var n := Apply(cfg, s, p);
      var db := if p.LogIn? then p.db else Root;
      var id, k := RowId(db, p.refresh), Token(CodeOf(db), p.user, Refresh, p.refresh);
      && n.state.now == s.now && n.result.client == CodeOf(db) && n.result.user == p.user && n.result.refresh == Some(p.refresh)
      && p.user in n.state.users && n.state.users[p.user].db == db
      && id in n.state.rows && n.state.rows[id] == Row(p.user, true, p.ip, AddMinutes(s.now, RefreshRowMinutes))
      && k in n.state.cache && n.state.cache[k] == Entry(Session(p.user, p.ip), s.now + cfg.refreshTokenCacheExpiresIn)
  {
    hide BlacklistUser, ClearUser, InvalidateRows, InvalidateRow;
  }

  lemma FreshToken(cfg: Config, s: State, p: Plan)
    requires Sound(s, p) && (p.LogIn? || p.Replace?)
    ensures FreshRefresh(s, p.refresh)
  {
  }

  lemma PlanIp(s: State, e: Event)
    ensures
      var p := Decide(s, e);
      p.LogIn? || p.Replace? ==> p.ip == IpOf(e)
  {
  }

  lemma NothingYet(log: seq<Obs>, g: Grant)
    requires g.i + 1 == |log|
    ensures RowStands(log, g) && forall c, u :: !LoginAfter(log, g.i, c, u)
  {
  }

  lemma RowAtGrant(cfg: Config, w: World, e: Event, g: Grant)
    requires Enabled(w.state, e) && g.i == |w.log| && GrantIn(Advance(cfg, w, e), g)
    ensures RowTracked(Advance(cfg, w, e), g)
  {
    hide Decide, Apply, Sound, Enabled, IpOf, RowStands, FreshRefresh;
    var w', p := Advance(cfg, w, e), Decide(w.state, e);
    DecideSound(w.state, e);
    GrantEffect(cfg, w.state, p);
    FreshToken(cfg, w.state, p);
    PlanIp(w.state, e);
    NothingYet(w'.log, g);
    NoRowYet(w.state, p.refresh);
    forall other | other in w'.state.rows && other.token == g.token
      ensures other == RowId(g.db, g.token)
    {
      if other !in w.state.rows {
        NewRows(cfg, w.state, p, other);
      }
    }
  }

  lemma NoRowYet(s: State, token: string)
    requires FreshRefresh(s, token)
    ensures !HasToken(s.rows, token) && forall id :: id in s.rows ==> id.token != token
  {
  }

  /** Refresh entries are cached only for tokens that have a row. */
  ghost predicate CachedHaveRows(s: State) {
    forall k :: k in s.cache && k.Token? && k.kind == Refresh ==> HasToken(s.rows, k.token)
  }

  lemma EntryAtGrant(cfg: Config, w: World, e: Event, g: Grant, code: string)
    requires Enabled(w.state, e) && Usable(cfg) && CachedHaveRows(w.state)
    requires g.i == |w.log| && GrantIn(Advance(cfg, w, e), g)
    ensures EntryTracked(cfg, Advance(cfg, w, e), g, code)
  {
    hide Decide, Apply, Sound, Enabled, IpOf, RowStands, Recaches, LoginAfter, FreshRefresh, HasToken;
    var w', p := Advance(cfg, w, e), Decide(w.state, e);
    DecideSound(w.state, e);
    GrantEffect(cfg, w.state, p);
    FreshToken(cfg, w.state, p);
    PlanIp(w.state, e);
    NothingYet(w'.log, g);
    NoRowYet(w.state, p.refresh);
    var k := Token(code, g.user, Refresh, g.token);
    assert k !in w.state.cache;
    if k in w'.state.cache {
      NewEntryIsGranted(cfg, w.state, p, k);
      NotYetValid(w.state, p.refresh, g.user);
    }
  }

  lemma NotYetValid(s: State, token: string, user: string)
    requires FreshRefresh(s, token)
    ensures !IsValidRootRow(s.rows, token, user)
  {
  }

  lemma LoginAdds(cfg: Config, s: State, db: Db, u: string, ip: string, access: string, refresh: string, k: Key)
    requires k.Token? && k.kind == Refresh && k !in s.cache && k in Login(cfg, s, db, u, ip, access, refresh).state.cache
    ensures
      var n := Login(cfg, s, db, u, ip, access, refresh);
      k == Token(CodeOf(db), u, Refresh, refresh) && n.state.users == s.users && n.result == Issued(ByLogin, CodeOf(db), u, access, Some(refresh))
  {
    hide InvalidateRows, Hits;
  }

  lemma NewEntryIsGranted(cfg: Config, s: State, p: Plan, k: Key)
    requires Sound(s, p) && k.Token? && k.kind == Refresh
    requires k in Apply(cfg, s, p).state.cache && k !in s.cache
    ensures
      var n := Apply(cfg, s, p);
      || (n.result.Issued? && n.result.client == k.client && n.result.user == k.user
          && n.result.refresh == Some(k.token) && k.user in n.state.users)
      || IsValidRootRow(s.rows, k.token, k.user)
  {
    hide Login, NewAccessToken, InvalidateRows, InvalidateRow, UsersGrow;
    match p {
      case LogIn(users, db, u, ip, access, refresh) => LoginAdds(cfg, s.(users := users), db, u, ip, access, refresh, k);
      case Reissue(theft, client, u, ip, access) => ReissueEntry(cfg, if theft then HandleTheft(s, u, ip) else s, client, u, ip, access, k);
      case _ =>
    }
  }

  lemma HaveRowsStep(cfg: Config, s: State, p: Plan)
    requires CachedHaveRows(s) && OneValid(s.rows) && Sound(s, p)
    ensures CachedHaveRows(Apply(cfg, s, p).state)
  {
    hide Apply, Sound, OneValid;
    var n := Apply(cfg, s, p);
    ApplyRows(cfg, s, p);
    forall k | k in n.state.cache && k.Token? && k.kind == Refresh
      ensures HasToken(n.state.rows, k.token)
    {
      if k in s.cache {
        var db :| RowId(db, k.token) in s.rows;
        assert RowId(db, k.token) in n.state.rows;
      } else {
        NewEntryIsGranted(cfg, s, p, k);
        if !IsValidRootRow(s.rows, k.token, k.user) {
          GrantEffect(cfg, s, p);
        } else {
          assert RowId(Root, k.token) in n.state.rows;
        }
      }
    }
  }

  lemma {:induction false} RunHaveRows(cfg: Config, start: nat, es: seq<Event>)
    requires Legal(cfg, start, es)
    ensures CachedHaveRows(Run(cfg, start, es).state)
  {
    hide Apply, Decide, Sound, Enabled, HasToken, OneValid;
    if es != [] {
      var before, e := es[..|es| - 1], es[|es| - 1];
      var s := Run(cfg, start, before).state;
      RunHaveRows(cfg, start, before);
      AtMostOneValidRow(cfg, start, before);
      DecideSound(s, e);
      HaveRowsStep(cfg, s, Decide(s, e));
    }
  }

  // ---- Over a run ---------------------------------------------------------------------------

  lemma RowStep(cfg: Config, w: World, e: Event, g: Grant)
    requires g.i < |w.log| && RowTracked(w, g) && OneValid(w.state.rows) && Enabled(w.state, e)
    ensures RowTracked(Advance(cfg, w, e), g)
  {
    hide Apply, Decide, Enabled, OneValid, LoginAttempt, Silences, RowStands, IpOf;
    var w', p := Advance(cfg, w, e), Decide(w.state, e);
    DecideSound(w.state, e);
    ApplyUsers(cfg, w.state, p);
    StepRow(cfg, w.state, e, g);
    StandsOneMore(w.log, w'.log[|w.log|], g);
    forall other | other in w'.state.rows && other.token == g.token
      ensures other == RowId(g.db, g.token)
    {
      if other !in w.state.rows {
        NewRows(cfg, w.state, p, other);
        FreshToken(cfg, w.state, p);
      }
    }
  }

  lemma {:induction false} RunRow(cfg: Config, start: nat, es: seq<Event>, g: Grant)
    requires Legal(cfg, start, es) && GrantIn(Run(cfg, start, es), g)
    ensures RowTracked(Run(cfg, start, es), g)
  {
    hide Step, Decide, Enabled, RowTracked, GrantsRefresh;
    LogFollowsEvents(cfg, start, es);
    var before, e := es[..|es| - 1], es[|es| - 1];
    var w := Run(cfg, start, before);
    LogFollowsEvents(cfg, start, before);
    if g.i == |es| - 1 {
      RowAtGrant(cfg, w, e, g);
    } else {
      GrantBefore(cfg, start, es, g);
      RunRow(cfg, start, before, g);
      AtMostOneValidRow(cfg, start, before);
      RowStep(cfg, w, e, g);
    }
  }

  /** A grant was one already before the last event, unless that event made it. */
  lemma GrantBefore(cfg: Config, start: nat, es: seq<Event>, g: Grant)
    requires Legal(cfg, start, es) && GrantIn(Run(cfg, start, es), g) && g.i < |es| - 1
    ensures GrantIn(Run(cfg, start, es[..|es| - 1]), g)
  {
    var before, e := es[..|es| - 1], es[|es| - 1];
    var w := Run(cfg, start, before);
    LogFollowsEvents(cfg, start, before);
    GranteeKnown(cfg, start, before, g.i);
    hide Decide, Apply, Sound, Enabled;
    DecideSound(w.state, e);
    ApplyUsers(cfg, w.state, Decide(w.state, e));
  }

  /** Whoever was granted a refresh token is in the table ever after. */
  lemma GranteeKnown(cfg: Config, start: nat, es: seq<Event>, i: nat)
    requires Legal(cfg, start, es) && i < |Run(cfg, start, es).log|
    requires Run(cfg, start, es).log[i].result.Issued? && Run(cfg, start, es).log[i].result.refresh.Some?
    ensures Run(cfg, start, es).log[i].result.user in Run(cfg, start, es).state.users
  {
    hide Decide, Apply, Sound, Enabled;
    LogFollowsEvents(cfg, start, es);
    LogAt(cfg, start, es, i);
    EnabledAt(cfg, start, es, i);
    UsersGrowOverRun(cfg, start, es, i + 1);
    var s := Run(cfg, start, es[..i]).state;
    DecideSound(s, es[i]);
    GrantEffect(cfg, s, Decide(s, es[i]));
  }

  /** A step that does not re-cache the token: its entry stays, or goes with a login or at its expiry. */
  lemma EntryStep(cfg: Config, w: World, e: Event, g: Grant, code: string)
    requires g.i < |w.log| && EntryTracked(cfg, w, g, code) && RowTracked(w, g)
    requires Enabled(w.state, e) && RevokesOwn(w.state, Decide(w.state, e))
    requires !Refills(Decide(w.state, e), Token(code, g.user, Refresh, g.token))
    requires LastCached(Advance(cfg, w, e).log, g, code) == LastCached(w.log, g, code)
    ensures EntryTracked(cfg, Advance(cfg, w, e), g, code)
  {
    assert HasToken(w.state.rows, g.token);
    hide Apply, Decide, Enabled, RevokesOwn, RowTracked, LoginAfter, LoginAttempt, LastCached, IpOf, HasToken;
    var w', p, j := Advance(cfg, w, e), Decide(w.state, e), LastCached(w.log, g, code);
    DecideSound(w.state, e);
    ApplyEntry(cfg, w.state, p, Token(code, g.user, Refresh, g.token));
    RevokesOfPlan(cfg, w.state, p);
    if j >= 0 {
      LoginOneMore(w.log, w'.log[|w.log|], j, code, g.user);
    }
  }

  lemma RefillEffect(cfg: Config, s: State, p: Plan, k: Key)
    requires Refills(p, k)
    ensures
      var n := Apply(cfg, s, p);
      && n.state == s.(cache := n.state.cache) && n.result == Accepted(p.user) && n.alarm == None
      && k in n.state.cache && n.state.cache[k] == Entry(Session(p.user, p.ip), s.now + cfg.refreshTokenCacheExpiresIn)
  {
  }

  /** A step that does re-cache it: the entry starts over, from the address of that request. */
  lemma EntryRefilled(cfg: Config, w: World, e: Event, g: Grant, code: string)
    requires g.i < |w.log| && Usable(cfg) && e.Validate?
    requires Refills(Decide(w.state, e), Token(code, g.user, Refresh, g.token))
    requires LastCached(Advance(cfg, w, e).log, g, code) == |w.log|
    ensures EntryTracked(cfg, Advance(cfg, w, e), g, code)
  {
    hide Apply, LastCached;
    var w', p := Advance(cfg, w, e), Decide(w.state, e);
    CheckIp(w.state, e);
    hide Decide;
    RefillEffect(cfg, w.state, p, Token(code, g.user, Refresh, g.token));
  }

  lemma CheckIp(s: State, e: Event)
    requires e.Validate? && Decide(s, e).Recache?
    ensures Decide(s, e).ip == e.ip
  {
  }

  /** One more event of an orderly run, whether or not it re-caches the token. */
  lemma RunEntryStep(cfg: Config, start: nat, es: seq<Event>, e: Event, g: Grant, code: string)
    requires Orderly(cfg, start, es) && TtlsCoverJwt(cfg) && Usable(cfg) && g.i < |Run(cfg, start, es).log|
    requires
      var w := Run(cfg, start, es);
      && EntryTracked(cfg, w, g, code) && RowTracked(w, g)
      && Enabled(w.state, e) && RevokesOwn(w.state, Decide(w.state, e))
    ensures EntryTracked(cfg, Advance(cfg, Run(cfg, start, es), e), g, code)
  {
    var w := Run(cfg, start, es);
    var w', k := Advance(cfg, w, e), Token(code, g.user, Refresh, g.token);
    OrderlyIsLegal(cfg, start, es);
    AtMostOneValidRow(cfg, start, es);
    CachedAlong(cfg, w.state, e, code, g.user, g.token);
    LastCachedOneMore(w.log, w'.log[|w.log|], g, code);
    ValidWhenStanding(w, g);
    if e.Validate? {
      RecachesInRun(cfg, start, es, e);
    }
    assert w'.log[..|w.log|] == w.log;
    hide Run, Orderly, Legal, Decide, Step, Enabled, RevokesOwn, OneValid, RowStands, LastCached, ShownIn, Refills, RowTracked, EntryTracked;
    if Refills(Decide(w.state, e), k) {
      EntryRefilled(cfg, w, e, g, code);
    } else {
      EntryStep(cfg, w, e, g, code);
    }
  }

  lemma ValidWhenStanding(w: World, g: Grant)
    requires g.i < |w.log| && RowTracked(w, g)
    ensures IsValidRootRow(w.state.rows, g.token, g.user) <==> g.db == Root && RowStands(w.log, g)
  {
    hide RowStands, IpOf;
  }

  lemma {:induction false} RunEntry(cfg: Config, start: nat, es: seq<Event>, g: Grant, code: string)
    requires Orderly(cfg, start, es) && TtlsCoverJwt(cfg) && Usable(cfg) && GrantIn(Run(cfg, start, es), g)
    ensures EntryTracked(cfg, Run(cfg, start, es), g, code)
  {
    hide Step, Decide, RevokesOwn, Enabled, RowTracked, EntryTracked, GrantsRefresh, CachedHaveRows;
    OrderlyIsLegal(cfg, start, es);
    LogFollowsEvents(cfg, start, es);
    var before, e := es[..|es| - 1], es[|es| - 1];
    var w := Run(cfg, start, before);
    LogFollowsEvents(cfg, start, before);
    if g.i == |es| - 1 {
      RunHaveRows(cfg, start, before);
      EntryAtGrant(cfg, w, e, g, code);
    } else {
      GrantBefore(cfg, start, es, g);
      RunRow(cfg, start, before, g);
      RunEntry(cfg, start, before, g, code);
      RunEntryStep(cfg, start, before, e, g, code);
    }
  }

  // ---- Tokens nobody was granted ------------------------------------------------------------

  ghost predicate Granted(log: seq<Obs>, user: string, token: string) {
    exists i :: 0 <= i < |log| && GrantsRefresh(log[i], user, token)
  }

  /** Root rows and cached refresh entries are only ever for granted tokens. */
  ghost predicate Explained(w: World) {
    && (forall id :: id in w.state.rows && id.db == Root ==>
          RootUser(w.state, w.state.rows[id].user) && Granted(w.log, w.state.rows[id].user, id.token))
    && (forall k :: k in w.state.cache && k.Token? && k.kind == Refresh ==> Granted(w.log, k.user, k.token))
  }

  lemma RowExplained(cfg: Config, s: State, p: Plan, id: RowId)
    requires Sound(s, p) && OneValid(s.rows) && id.db == Root && id in Apply(cfg, s, p).state.rows
    ensures
      var n := Apply(cfg, s, p);
      if id in s.rows then n.state.rows[id].user == s.rows[id].user
      else n.result.Issued? && n.result.user == n.state.rows[id].user && n.result.refresh == Some(id.token)
           && RootUser(n.state, n.state.rows[id].user)
  {
    hide Apply, Sound, OneValid;
    ApplyRows(cfg, s, p);
    if id !in s.rows {
      NewRows(cfg, s, p, id);
      GrantEffect(cfg, s, p);
    }
  }

  lemma GrantedOneMore(w: World, w': World, user: string, token: string)
    requires |w'.log| == |w.log| + 1 && w'.log[..|w.log|] == w.log
    ensures Granted(w.log, user, token) || GrantsRefresh(w'.log[|w.log|], user, token) ==> Granted(w'.log, user, token)
  {
    if Granted(w.log, user, token) {
      var i :| 0 <= i < |w.log| && GrantsRefresh(w.log[i], user, token);
      assert w'.log[i] == w'.log[..|w.log|][i];
    }
  }

  lemma {:induction false} RunExplained(cfg: Config, start: nat, es: seq<Event>)
    requires Legal(cfg, start, es)
    ensures Explained(Run(cfg, start, es))
  {
    hide Decide, Apply, Sound, Granted, UsersGrow, OneValid;
    if es != [] {
      var before, e := es[..|es| - 1], es[|es| - 1];
      var w, w' := Run(cfg, start, before), Run(cfg, start, es);
      var p := Decide(w.state, e);
      RunExplained(cfg, start, before);
      AtMostOneValidRow(cfg, start, before);
      DecideSound(w.state, e);
      ApplyUsers(cfg, w.state, p);
      ExplainedStep(cfg, w, w', e, p);
    }
  }

  lemma ExplainedStep(cfg: Config, w: World, w': World, e: Event, p: Plan)
    requires Explained(w) && OneValid(w.state.rows) && Sound(w.state, p) && UsersGrow(w.state.users, w'.state.users)
    requires
      var n := Apply(cfg, w.state, p);
      w'.state == n.state && w'.log == w.log + [Obs(e, n.result, n.alarm, w.state.now)]
    ensures Explained(w')
  {
    hide Apply, Sound, Granted, OneValid;
    forall id | id in w'.state.rows && id.db == Root
      ensures RootUser(w'.state, w'.state.rows[id].user) && Granted(w'.log, w'.state.rows[id].user, id.token)
    {
      RowExplained(cfg, w.state, p, id);
      GrantedOneMore(w, w', w'.state.rows[id].user, id.token);
    }
    forall k | k in w'.state.cache && k.Token? && k.kind == Refresh
      ensures Granted(w'.log, k.user, k.token)
    {
      GrantedOneMore(w, w', k.user, k.token);
      if k !in w.state.cache {
        NewEntryIsGranted(cfg, w.state, p, k);
      }
    }
  }

  // ---- Alarms -------------------------------------------------------------------------------

  /** An alarm leaves its user without a valid root row; its address, and no other, is denied. */
  lemma AlarmEffect(cfg: Config, s: State, e: Event)
    ensures
      var n := Step(cfg, s, e);
      && (n.alarm.Some? ==> forall t :: !IsValidRootRow(n.state.rows, t, n.alarm.value))
      && n.state.denylist == s.denylist + (if n.alarm.Some? then {IpOf(e)} else {})
  {
    hide Apply;
    AlarmPlan(s, e);
    AlarmOfPlan(cfg, s, Decide(s, e));
  }

  lemma AlarmPlan(s: State, e: Event)
    ensures
      var p := Decide(s, e);
      p.Alarm? || p.Reissue? ==> p.ip == IpOf(e)
  {
    hide Found;
  }

  lemma AlarmOfPlan(cfg: Config, s: State, p: Plan)
    ensures
      var n := Apply(cfg, s, p);
      && n.alarm == (if p.Alarm? || (p.Reissue? && p.theft) then Some(p.user) else None)
      && (n.alarm.Some? ==> forall t :: !IsValidRootRow(n.state.rows, t, n.alarm.value))
      && n.state.denylist == s.denylist + (if n.alarm.Some? then {p.ip} else {})
  {
    hide BlacklistUser, ClearUser, Purge, InvalidateRow;
  }

  ghost predicate AlarmFrom(log: seq<Obs>, ip: string) {
    exists j :: 0 <= j < |log| && log[j].alarm.Some? && IpOf(log[j].event) == ip
  }

  /** The denied addresses are those an alarm was raised for. */
  lemma {:induction false} DenylistFollowsAlarms(cfg: Config, start: nat, es: seq<Event>, ip: string)
    ensures ip in Run(cfg, start, es).state.denylist <==> AlarmFrom(Run(cfg, start, es).log, ip)
  {
    hide Step, IpOf;
    if es != [] {
      var before, e := es[..|es| - 1], es[|es| - 1];
      var w, w' := Run(cfg, start, before), Run(cfg, start, es);
      DenylistFollowsAlarms(cfg, start, before, ip);
      AlarmEffect(cfg, w.state, e);
      AlarmOneMore(w.log, w'.log[|w.log|], ip);
    }
  }

  lemma AlarmOneMore(log: seq<Obs>, o: Obs, ip: string)
    ensures AlarmFrom(log + [o], ip) <==> AlarmFrom(log, ip) || (o.alarm.Some? && IpOf(o.event) == ip)
  {
    hide IpOf;
    assert (log + [o])[|log|] == o;
    assert forall j :: 0 <= j < |log| ==> (log + [o])[j] == log[j];
  }
}
