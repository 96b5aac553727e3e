/**
 * Tokens and sessions as one state machine. A state holds the cache, the refresh rows of the root
 * and tenant databases, the users and the tokens signed so far. Each handler is one atomic step.
 * Values made by `sign`, uuid and ulid are event parameters that have to be fresh.
 */
module Sessions {
  import opened AuthConfig
  import opened CacheKeys
  import opened Options
  import opened TokenCache

  datatype Db = Root | Tenant(code: string)

  /** The client code under which logins of a database are cached. */
  function CodeOf(db: Db): string {
    match db
    case Root => "root"
    case Tenant(code) => code
  }

  datatype User = User(db: Db, email: string, verified: bool, twoFactor: bool, signupToken: string, client: Option<string>)

  datatype RowId = RowId(db: Db, token: string)
  datatype Row = Row(user: string, isValid: bool, ip: string, expiresAt: nat)
  type Rows = map<RowId, Row>

  /** What a signed access token says; `exp` is in seconds. */
  datatype Claims = Claims(user: string, exp: nat)

  datatype State = State(
    now: nat,                     // ms
    cache: Entries,
    rows: Rows,
    users: map<string, User>,     // by id; ids are unique over all databases
    signed: map<string, Claims>,  // access tokens carrying our signature
    clients: map<string, bool>,   // client code to isPaid
    denylist: set<string>         // suspicious IPs
  )

  function Init(start: nat): State {
    State(start, map[], map[], map[], map[], map[], {})
  }

  /** The `exp` check of section 4.1.4 of RFC 7519, on whole seconds. */
  predicate JwtLive(now: nat, exp: nat) {
    now / 1000 < exp
  }

  function JwtExp(cfg: Config, now: nat): nat {
    now / 1000 + cfg.accessTokenExpiresIn
  }

  lemma JwtLiveInMs(now: nat, exp: nat)
    ensures JwtLive(now, exp) <==> now < exp * 1000
  {
  }

  // ---- Parts of the handlers ----------------------------------------------------------------

  /** `updateMany({ userId, isValid: true } -> isValid: false)` in one database. */
  function InvalidateRows(rows: Rows, db: Db, user: string): Rows {
    map id | id in rows :: if id.db == db && rows[id].user == user then rows[id].(isValid := false) else rows[id]
  }

  /** The first three effects of `login` and `tenantLogin`. */
  function RevokeSessions(cfg: Config, s: State, db: Db, user: string): State {
    s.(rows := InvalidateRows(s.rows, db, user),
       cache := ClearUser(BlacklistUser(s.cache, CodeOf(db), user, s.now + BlacklistTtl(cfg)), CodeOf(db), user))
  }

  function Sign(cfg: Config, s: State, user: string, access: string): State {
    s.(signed := s.signed[access := Claims(user, JwtExp(cfg, s.now))])
  }

  function CacheAccess(cfg: Config, s: State, client: string, user: string, access: string, ip: string): State {
    s.(cache := s.cache[Token(client, user, Access, access) := Entry(Session(user, ip), s.now + cfg.accessTokenCacheExpiresIn)])
  }

  function CacheRefresh(cfg: Config, s: State, client: string, user: string, refresh: string, ip: string): State {
    s.(cache := s.cache[Token(client, user, Refresh, refresh) := Entry(Session(user, ip), s.now + cfg.refreshTokenCacheExpiresIn)])
  }

  function AddRow(s: State, db: Db, user: string, refresh: string, ip: string): State {
    s.(rows := s.rows[RowId(db, refresh) := Row(user, true, ip, AddMinutes(s.now, RefreshRowMinutes))])
  }

  /** `generateTokens` and `tenantGenerateTokens`. */
  function GenerateTokens(cfg: Config, s: State, db: Db, user: string, ip: string, access: string, refresh: string): State {
    var s1 := AddRow(Sign(cfg, s, user, access), db, user, refresh, ip);
    CacheRefresh(cfg, CacheAccess(cfg, s1, CodeOf(db), user, access, ip), CodeOf(db), user, refresh, ip)
  }

  /** `newAccessToken` of the refresh handler. */
  function NewAccessToken(cfg: Config, s: State, client: string, user: string, ip: string, access: string): State {
    var s1 := Sign(cfg, s, user, access);
    var s2 := s1.(cache := BlacklistUser(s1.cache, client, user, s1.now + BlacklistTtl(cfg)));
    CacheAccess(cfg, s2, client, user, access, ip)
  }

  /** The database effects of `handleTokenTheft`. */
  function HandleTheft(s: State, user: string, ip: string): State {
    s.(rows := InvalidateRows(s.rows, Root, user), denylist := s.denylist + {ip})
  }

  // ---- Lookups ------------------------------------------------------------------------------

  predicate HasEmail(users: map<string, User>, id: string, db: Db, email: string) {
    id in users && users[id].db == db && users[id].email == email
  }

  ghost function FindByEmail(users: map<string, User>, db: Db, email: string): (r: Option<string>)
    ensures r.Some? ==> HasEmail(users, r.value, db, email)
    ensures r.None? ==> forall id :: !HasEmail(users, id, db, email)
  {
    if exists id :: HasEmail(users, id, db, email) then
      var id :| HasEmail(users, id, db, email); Some(id)
    else None
  }

  predicate HasSignupToken(users: map<string, User>, id: string, db: Db, token: string) {
    id in users && users[id].db == db && users[id].signupToken == token
  }

  ghost function FindBySignupToken(users: map<string, User>, db: Db, token: string): (r: Option<string>)
    ensures r.Some? ==> HasSignupToken(users, r.value, db, token)
    ensures r.None? ==> forall id :: !HasSignupToken(users, id, db, token)
  {
    if exists id :: HasSignupToken(users, id, db, token) then
      var id :| HasSignupToken(users, id, db, token); Some(id)
    else None
  }

  predicate RootUser(s: State, user: string) {
    user in s.users && s.users[user].db == Root
  }

  predicate IsValidRootRow(rows: Rows, token: string, user: string) {
    RowId(Root, token) in rows && rows[RowId(Root, token)].isValid && rows[RowId(Root, token)].user == user
  }

  /** A valid row of the user, if any; expiry is not looked at. */
  ghost function SomeValidRefresh(rows: Rows, user: string): (r: Option<string>)
    ensures r.Some? ==> IsValidRootRow(rows, r.value, user)
    ensures r.None? ==> forall t :: !IsValidRootRow(rows, t, user)
  {
    if exists t :: IsValidRootRow(rows, t, user) then
      var t :| IsValidRootRow(rows, t, user); Some(t)
    else None
  }

  /** `findValidRefreshToken`, and the handler's check of the owner. */
  predicate DbAccepts(s: State, user: string, token: string) {
    IsValidRootRow(s.rows, token, user) && s.now < s.rows[RowId(Root, token)].expiresAt
  }

  // ---- Steps --------------------------------------------------------------------------------

  datatype Issuer = ByLogin | ByRefresh | ByRotation

  datatype Result =
    | Issued(how: Issuer, client: string, user: string, access: string, refresh: Option<string>)
    | TwoFactorRequired(client: string, user: string)  // login threw after revoking
    | Accepted(user: string)
    | Rejected
    | Done

  datatype Event =
    | Tick(to: nat)
    | CreateUser(db: Db, id: string, email: string, signupToken: string, memberOf: Option<string>)
    | SetTwoFactor(id: string, on: bool)
    | SetClient(code: string, isPaid: bool)
    | PasswordLogin(email: string, passwordOk: bool, ip: string, access: string, refresh: string)
    | GoogleLogin(email: string, code: string, ip: string, newId: string, signupToken: string, access: string, refresh: string)
    | VerifyEmail(db: Db, signupToken: string, ip: string, access: string, refresh: string)
    | RefreshAccess(client: string, user: string, token: string, ip: string, alertFails: bool, access: string)
    | Rotate(token: string, ip: string, access: string, refresh: string)
    | RevokeRefresh(token: string)
    | Validate(client: string, token: string, ip: string)
    | VerifyToken(token: string, ip: string)

  /** What a handler's checks settle on; `Apply` says what each plan does to the stores. */
  datatype Plan =
    | Refuse
    | Admit(user: string)
    | Elapse(to: nat)
    | Edit(users: map<string, User>, clients: map<string, bool>)
    | LogIn(users: map<string, User>, db: Db, user: string, ip: string, access: string, refresh: string)
    | Reissue(theft: bool, client: string, user: string, ip: string, access: string)
    | Alarm(user: string, ip: string)
    | Replace(token: string, user: string, ip: string, access: string, refresh: string)
    | DropRow(token: string, result: Result)
    | DropRows(user: string)
    | Recache(client: string, user: string, token: string, along: Option<string>, ip: string)

  ghost function PlanPasswordLogin(s: State, e: Event): Plan
    requires e.PasswordLogin?
  {
    var found := FindByEmail(s.users, Root, e.email);
    if found.None? || !e.passwordOk || !s.users[found.value].verified then Refuse
    else LogIn(s.users, Root, found.value, e.ip, e.access, e.refresh)
  }

  /** A known user must belong to the paid client and be verified: the email cannot be taken again. */
  ghost function PlanGoogleLogin(s: State, e: Event): Plan
    requires e.GoogleLogin?
  {
    var found := FindByEmail(s.users, Root, e.email);
    var paid := e.code in s.clients && s.clients[e.code];
    if found.Some? then
      var user := s.users[found.value];
      if user.client == Some(e.code) && user.verified && paid
      then LogIn(s.users, Root, found.value, e.ip, e.access, e.refresh)
      else Refuse
    else if !paid then Refuse
    else LogIn(s.users[e.newId := User(Root, e.email, true, false, e.signupToken, Some(e.code))], Root, e.newId, e.ip, e.access, e.refresh)
  }

  ghost function PlanVerifyEmail(s: State, e: Event): Plan
    requires e.VerifyEmail?
  {
    var found := FindBySignupToken(s.users, e.db, e.signupToken);
    if found.None? || s.users[found.value].verified then Refuse
    else LogIn(s.users[found.value := s.users[found.value].(verified := true)], e.db, found.value, e.ip, e.access, e.refresh)
  }

  /**
   * Cache first, by key string, then the database; the alert after an IP mismatch may throw and end
   * the request.
   */
  ghost function PlanRefreshAccess(s: State, e: Event): Plan
    requires e.RefreshAccess?
  {
    var entry := Found(s.cache, Token(e.client, e.user, Refresh, e.token));
    if entry.Some? then
      var cached := entry.value.value;
      if !cached.Session? || cached.id != e.user then Refuse
      else if cached.ip != e.ip && e.alertFails then Alarm(e.user, e.ip)
      else Reissue(cached.ip != e.ip, e.client, e.user, e.ip, e.access)
    else if !DbAccepts(s, e.user, e.token) then Refuse
    else
      var theft := s.rows[RowId(Root, e.token)].ip != e.ip;
      if theft && (e.alertFails || !RootUser(s, e.user)) then Alarm(e.user, e.ip)
      else if !RootUser(s, e.user) then Refuse
      else Reissue(theft, e.client, e.user, e.ip, e.access)
  }

  /** `refreshTokens`: refresh rotation, section 5.2.2.3 of RFC 6819. */
  function PlanRotate(s: State, e: Event): Plan
    requires e.Rotate?
  {
    var id := RowId(Root, e.token);
    if id !in s.rows || !s.rows[id].isValid then Refuse
    else
      var row := s.rows[id];
      if row.expiresAt < s.now then DropRows(row.user)
      else if row.ip != e.ip then Alarm(row.user, e.ip)
      else if !RootUser(s, row.user) then DropRow(e.token, Rejected)
      else Replace(e.token, row.user, e.ip, e.access, e.refresh)
  }

  /** Passport checks signature and expiry; `validate` then asks blacklist, cache and database. */
  ghost function PlanValidate(s: State, e: Event): Plan
    requires e.Validate?
  {
    if e.token !in s.signed || !JwtLive(s.now, s.signed[e.token].exp) then Refuse
    else
      var user := s.signed[e.token].user;
      if Token(e.client, user, Blacklist, e.token) in s.cache then Refuse
      else if Token(e.client, user, Access, e.token) in s.cache then Admit(user)
      else if !RootUser(s, user) then Refuse
      else Recache(e.client, user, e.token, SomeValidRefresh(s.rows, user), e.ip)
  }

  /** `AuthService.verify`: like `validate` under the root code, but without the database. */
  function PlanVerifyToken(s: State, e: Event): Plan
    requires e.VerifyToken?
  {
    if e.token !in s.signed || !JwtLive(s.now, s.signed[e.token].exp) then Refuse
    else
      var user := s.signed[e.token].user;
      if Token("root", user, Blacklist, e.token) in s.cache then Refuse
      else if Token("root", user, Access, e.token) in s.cache then Admit(user)
      else Recache("root", user, e.token, None, e.ip)
  }

  ghost function Decide(s: State, e: Event): Plan {
    match e
    case Tick(to) => Elapse(to)
    case CreateUser(db, id, email, signupToken, memberOf) =>
      if FindByEmail(s.users, db, email).Some? then Refuse
      else Edit(s.users[id := User(db, email, false, false, signupToken, memberOf)], s.clients)
    case SetTwoFactor(id, on) =>
      if id in s.users then Edit(s.users[id := s.users[id].(twoFactor := on)], s.clients) else Refuse
    case SetClient(code, isPaid) => Edit(s.users, s.clients[code := isPaid])
    case PasswordLogin(_, _, _, _, _) => PlanPasswordLogin(s, e)
    case GoogleLogin(_, _, _, _, _, _, _) => PlanGoogleLogin(s, e)
    case VerifyEmail(_, _, _, _, _) => PlanVerifyEmail(s, e)
    case RefreshAccess(_, _, _, _, _, _) => PlanRefreshAccess(s, e)
    case Rotate(_, _, _, _) => PlanRotate(s, e)
    case RevokeRefresh(token) => DropRow(token, Done)
    case Validate(_, _, _) => PlanValidate(s, e)
    case VerifyToken(_, _) => PlanVerifyToken(s, e)
  }

  /** `alarm` names the user whose rows theft handling invalidated. */
  datatype Next = Next(state: State, result: Result, alarm: Option<string>)

  /** `login` and `tenantLogin`, as every handler calls them: without a device token. */
  function Login(cfg: Config, s: State, db: Db, user: string, ip: string, access: string, refresh: string): Next {
    var s1 := RevokeSessions(cfg, s, db, user);
    if user in s.users && s.users[user].twoFactor then Next(s1, TwoFactorRequired(CodeOf(db), user), None)
    else Next(GenerateTokens(cfg, s1, db, user, ip, access, refresh),
              Issued(ByLogin, CodeOf(db), user, access, Some(refresh)), None)
  }

  function InvalidateRow(rows: Rows, id: RowId): Rows {
    if id in rows then rows[id := rows[id].(isValid := false)] else rows
  }

  function Apply(cfg: Config, s: State, p: Plan): Next {
    match p
    case Refuse => Next(s, Rejected, None)
    case Admit(user) => Next(s, Accepted(user), None)
    case Elapse(to) => Next(s.(now := to, cache := Purge(s.cache, to)), Done, None)
    case Edit(users, clients) => Next(s.(users := users, clients := clients), Done, None)
    case LogIn(users, db, user, ip, access, refresh) => Login(cfg, s.(users := users), db, user, ip, access, refresh)
    case Reissue(theft, client, user, ip, access) =>
      Next(NewAccessToken(cfg, if theft then HandleTheft(s, user, ip) else s, client, user, ip, access),
           Issued(ByRefresh, client, user, access, None), if theft then Some(user) else None)
    case Alarm(user, ip) => Next(HandleTheft(s, user, ip), Rejected, Some(user))
    case Replace(token, user, ip, access, refresh) =>
      var s1 := s.(rows := InvalidateRow(s.rows, RowId(Root, token)));
      Next(GenerateTokens(cfg, s1, Root, user, ip, access, refresh),
           Issued(ByRotation, "root", user, access, Some(refresh)), None)
    case DropRow(token, result) => Next(s.(rows := InvalidateRow(s.rows, RowId(Root, token))), result, None)
    case DropRows(user) => Next(s.(rows := InvalidateRows(s.rows, Root, user)), Rejected, None)
    case Recache(client, user, token, along, ip) =>
      var s1 := CacheAccess(cfg, s, client, user, token, ip);
      Next(if along.Some? then CacheRefresh(cfg, s1, client, user, along.value, ip) else s1, Accepted(user), None)
  }

  ghost function Step(cfg: Config, s: State, e: Event): Next {
    Apply(cfg, s, Decide(s, e))
  }

  // ---- Runs ---------------------------------------------------------------------------------

  predicate FreshAccess(s: State, access: string) {
    access != "" && ColonFree(access) && access !in s.signed
  }

  predicate FreshRefresh(s: State, refresh: string) {
    ColonFree(refresh) && forall id :: id in s.rows ==> id.token != refresh
  }

  predicate FreshUser(s: State, id: string) {
    ColonFree(id) && id !in s.users
  }

  /** Signup tokens are made by uuid. */
  predicate FreshSignup(s: State, token: string) {
    forall id :: id in s.users ==> s.users[id].signupToken != token
  }

  /** Time does not go back; new tokens and ids are fresh and, as `sign`, uuid and ulid make them, without colons. */
  predicate Enabled(s: State, e: Event) {
    match e
    case Tick(to) => s.now <= to
    case CreateUser(_, id, _, signup, _) => FreshUser(s, id) && FreshSignup(s, signup)
    case PasswordLogin(_, _, _, access, refresh) => FreshAccess(s, access) && FreshRefresh(s, refresh)
    case GoogleLogin(_, _, _, newId, signup, access, refresh) =>
      FreshUser(s, newId) && FreshSignup(s, signup) && FreshAccess(s, access) && FreshRefresh(s, refresh)
    case VerifyEmail(_, _, _, access, refresh) => FreshAccess(s, access) && FreshRefresh(s, refresh)
    case RefreshAccess(_, _, _, _, _, access) => FreshAccess(s, access)
    case Rotate(_, _, access, refresh) => FreshAccess(s, access) && FreshRefresh(s, refresh)
    case _ => true
  }

  /** Users stay, in their database, and nobody is unverified again. */
  predicate UsersGrow(users: map<string, User>, users': map<string, User>) {
    forall id :: id in users ==>
      id in users' && users'[id].db == users[id].db && (users[id].verified ==> users'[id].verified)
  }

  /** What the handlers' checks, and fresh values, guarantee of a plan. */
  predicate Sound(s: State, p: Plan) {
    match p
    case Elapse(to) => s.now <= to
    case Edit(users, _) => UsersGrow(s.users, users)
    case LogIn(users, db, user, _, access, refresh) =>
      && FreshAccess(s, access) && FreshRefresh(s, refresh) && UsersGrow(s.users, users)
      && user in users && users[user].db == db && users[user].verified
    case Reissue(_, _, _, _, access) => FreshAccess(s, access)
    case Replace(token, user, _, access, refresh) =>
      FreshAccess(s, access) && FreshRefresh(s, refresh) && IsValidRootRow(s.rows, token, user) && RootUser(s, user)
    case DropRow(_, result) => result.Rejected? || result.Done?
    case Recache(_, user, token, along, _) =>
      && token in s.signed && s.signed[token].user == user
      && (along.Some? ==> IsValidRootRow(s.rows, along.value, user))
    case _ => true
  }

  lemma DecideSound(s: State, e: Event)
    requires Enabled(s, e)
    ensures Sound(s, Decide(s, e))
  {
  }

  /** One event of a run, what came of it, and when. */
  datatype Obs = Obs(event: Event, result: Result, alarm: Option<string>, at: nat)

  datatype World = World(state: State, log: seq<Obs>)

  ghost function Advance(cfg: Config, w: World, e: Event): World {
    var n := Step(cfg, w.state, e);
    World(n.state, w.log + [Obs(e, n.result, n.alarm, w.state.now)])
  }

  ghost function Run(cfg: Config, start: nat, es: seq<Event>): World {
    if es == [] then World(Init(start), [])
    else Advance(cfg, Run(cfg, start, es[..|es| - 1]), es[|es| - 1])
  }

  ghost predicate Legal(cfg: Config, start: nat, es: seq<Event>) {
    es == [] || (Legal(cfg, start, es[..|es| - 1]) && Enabled(Run(cfg, start, es[..|es| - 1]).state, es[|es| - 1]))
  }

  /** SCAN reaches the user's own keys and no others, so what the handler revokes is what it means to. */
  ghost predicate RevokesOwn(s: State, p: Plan) {
    match p
    case LogIn(_, db, user, _, _, _) => ScansOwn(s.cache, CodeOf(db), user)
    case Reissue(_, client, user, _, _) => OwnHits(s.cache, client, user, Access)
    case _ => true
  }

  /** A legal run in which every login and refresh revokes its own. */
  ghost predicate Orderly(cfg: Config, start: nat, es: seq<Event>) {
    es == [] ||
      var before, e := es[..|es| - 1], es[|es| - 1];
      var s := Run(cfg, start, before).state;
      Orderly(cfg, start, before) && Enabled(s, e) && RevokesOwn(s, Decide(s, e))
  }

  lemma {:induction false} OrderlyIsLegal(cfg: Config, start: nat, es: seq<Event>)
    requires Orderly(cfg, start, es)
    ensures Legal(cfg, start, es)
  {
    hide Run, Enabled, RevokesOwn;
    if es != [] {
      OrderlyIsLegal(cfg, start, es[..|es| - 1]);
    }
  }

  /** Would `validate` let a request with this token under this client code through? */
  ghost predicate Accepts(s: State, client: string, token: string, ip: string) {
    var p := PlanValidate(s, Validate(client, token, ip));
    p.Admit? || p.Recache?
  }

  lemma AcceptsIsTheStep(cfg: Config, s: State, client: string, token: string, ip: string)
    ensures Accepts(s, client, token, ip) <==> Step(cfg, s, Validate(client, token, ip)).result.Accepted?
  {
  }

  // ---- Reading the history ------------------------------------------------------------------

  ghost predicate IssuedAt(log: seq<Obs>, i: nat, client: string, user: string, access: string) {
    && i < |log| && log[i].result.Issued?
    && log[i].result.client == client && log[i].result.user == user && log[i].result.access == access
  }

  /** A login attempt, even one that then asks for a second factor. */
  predicate LoginAttempt(r: Result, client: string, user: string) {
    match r
    case Issued(how, c, u, _, _) => how == ByLogin && c == client && u == user
    case TwoFactorRequired(c, u) => c == client && u == user
    case _ => false
  }

  /** Login attempts and refreshes revoke the user's earlier access tokens; rotation does not. */
  predicate Revokes(r: Result, client: string, user: string) {
    LoginAttempt(r, client, user) || (r.Issued? && r.how == ByRefresh && r.client == client && r.user == user)
  }

  ghost predicate RevokedAfter(log: seq<Obs>, i: nat, client: string, user: string) {
    exists j :: i < j < |log| && Revokes(log[j].result, client, user)
  }

  /** The token was issued under this client code, or a check under it let the token through. */
  predicate Shows(o: Obs, client: string, access: string) {
    || (o.result.Issued? && o.result.client == client && o.result.access == access)
    || (o.result.Accepted? && o.event.Validate? && o.event.client == client && o.event.token == access)
    || (o.result.Accepted? && o.event.VerifyToken? && "root" == client && o.event.token == access)
  }

  ghost predicate ShownIn(log: seq<Obs>, client: string, access: string) {
    exists j :: 0 <= j < |log| && Shows(log[j], client, access)
  }

  /** Something revoked the user's sessions under this code once the token had been shown under it. */
  ghost predicate RevokedAfterShown(log: seq<Obs>, client: string, user: string, access: string) {
    exists k :: 0 <= k < |log| && Revokes(log[k].result, client, user) && ShownIn(log[..k], client, access)
  }
}
