/**
 * The refresh handler's two sources, the cache and the refresh rows: what it answers for every
 * granted token under every client code, when the two agree, and what becomes of other tokens.
 */
module RefreshAgreement {
  import opened AuthConfig
  import opened CacheKeys
  import opened Names
  import opened Options
  import opened RefreshTracking
  import opened Sessions
  import opened SessionTheorems
  import opened TokenCache

  // ---- One request --------------------------------------------------------------------------

  /** Would the handler issue a token? After an IP mismatch that depends on whether the alert throws. */
  ghost predicate HandlerAccepts(s: State, code: string, user: string, token: string, ip: string, alertFails: bool) {
    PlanRefreshAccess(s, RefreshAccess(code, user, token, ip, alertFails, "")).Reissue?
  }

  lemma HandlerAcceptsIsTheStep(cfg: Config, s: State, code: string, user: string, token: string, ip: string, alertFails: bool,
                                access: string)
    ensures HandlerAccepts(s, code, user, token, ip, alertFails)
            <==> Step(cfg, s, RefreshAccess(code, user, token, ip, alertFails, access)).result.Issued?
  {
    hide NewAccessToken, HandleTheft, Found;
  }

  /**
   * The answer once it is settled whether the token is known as the user's, and from which address:
   * a new access token for that user under that code, or a refusal; theft handling for any other address.
   */
  predicate Answered(s: State, n: Next, known: bool, addr: string, e: Event)
    requires e.RefreshAccess?
  {
    && n.result == (if known && (e.ip == addr || !e.alertFails) then Issued(ByRefresh, e.client, e.user, e.access, None) else Rejected)
    && n.alarm == (if known && e.ip != addr then Some(e.user) else None)
    && (n.result.Rejected? ==> n.state == if n.alarm.Some? then HandleTheft(s, e.user, e.ip) else s)
  }

  lemma AnswerFromCache(cfg: Config, s: State, e: Event)
    requires e.RefreshAccess? && Found(s.cache, Token(e.client, e.user, Refresh, e.token)).Some?
    ensures
      var v := Found(s.cache, Token(e.client, e.user, Refresh, e.token)).value.value;
      Answered(s, Step(cfg, s, e), v.Session? && v.id == e.user, if v.Session? then v.ip else "", e)
  {
    hide NewAccessToken, HandleTheft, Found;
  }

  lemma AnswerFromDb(cfg: Config, s: State, e: Event)
    requires e.RefreshAccess? && Found(s.cache, Token(e.client, e.user, Refresh, e.token)).None?
    requires DbAccepts(s, e.user, e.token) ==> RootUser(s, e.user)
    ensures
      var known := DbAccepts(s, e.user, e.token);
      Answered(s, Step(cfg, s, e), known, if known then s.rows[RowId(Root, e.token)].ip else "", e)
  {
    hide NewAccessToken, HandleTheft, Found;
  }

  /** For names without colons a lookup by string is one by key. */
  lemma FoundInRun(cfg: Config, start: nat, es: seq<Event>, k: Key)
    requires Legal(cfg, start, es) && WellFormed(k)
    ensures Found(Run(cfg, start, es).state.cache, k) == Fetch(Run(cfg, start, es).state.cache, k)
  {
    RunNamed(cfg, start, es, false);
    WellFormedEntries(Run(cfg, start, es).state.cache);
    hide Run, Legal, Found, ColonFree;
    FoundIsFetch(Run(cfg, start, es).state.cache, k);
  }

  lemma WellFormedEntries(m: Entries)
    requires CacheNamed(m, false)
    ensures forall k :: k in m ==> WellFormed(k)
  {
    assert forall k :: k in m ==> EntryOk(false, k, m[k]);
  }

  // ---- Granted tokens -----------------------------------------------------------------------

  /** Every granted refresh token is a grant to a user of some database. */
  lemma EveryGrantIsIn(cfg: Config, start: nat, es: seq<Event>, i: nat, user: string, token: string)
    requires Legal(cfg, start, es) && i < |Run(cfg, start, es).log| && GrantsRefresh(Run(cfg, start, es).log[i], user, token)
    ensures user in Run(cfg, start, es).state.users
    ensures GrantIn(Run(cfg, start, es), Grant(i, Run(cfg, start, es).state.users[user].db, user, token))
  {
    GranteeKnown(cfg, start, es, i);
  }

  /** The database has the token: its row still stands, and its 14 days are not over. */
  ghost predicate InDatabase(w: World, g: Grant)
    requires g.i < |w.log|
  {
    g.db == Root && RowStands(w.log, g) && w.state.now < AddMinutes(w.log[g.i].at, RefreshRowMinutes)
  }

  /** The address on record for the token: that of the last caching while it is cached, else that of the grant. */
  ghost function AddressOf(cfg: Config, w: World, g: Grant, code: string): string
    requires g.i < |w.log|
  {
    IpOf(w.log[if StillCached(cfg, w, g, code) then LastCached(w.log, g, code) else g.i].event)
  }

  lemma GrantNames(cfg: Config, start: nat, es: seq<Event>, g: Grant)
    requires Legal(cfg, start, es) && HasRow(Run(cfg, start, es).state, g)
    ensures ColonFree(g.user) && ColonFree(g.token)
  {
    RunNamed(cfg, start, es, false);
    hide Run, Legal, ColonFree;
    assert IdOk(false, g.user);
  }

  /** The state agrees with the history on a grant: cache entry, row and names. */
  lemma GrantIsTracked(cfg: Config, start: nat, es: seq<Event>, g: Grant, code: string)
    requires Orderly(cfg, start, es) && TtlsCoverJwt(cfg) && Usable(cfg) && GrantIn(Run(cfg, start, es), g)
    ensures EntryTracked(cfg, Run(cfg, start, es), g, code) && RowTracked(Run(cfg, start, es), g)
    ensures
      var m, k := Run(cfg, start, es).state.cache, Token(code, g.user, Refresh, g.token);
      Found(m, k) == Fetch(m, k)
  {
    OrderlyIsLegal(cfg, start, es);
    RunRow(cfg, start, es, g);
    RunEntry(cfg, start, es, g, code);
    GrantNames(cfg, start, es, g);
    FoundInRun(cfg, start, es, Token(code, g.user, Refresh, g.token));
  }

  /** When the database alone would accept, read off the history. */
  lemma DbAcceptsWhen(cfg: Config, start: nat, es: seq<Event>, g: Grant)
    requires Legal(cfg, start, es) && GrantIn(Run(cfg, start, es), g)
    ensures DbAccepts(Run(cfg, start, es).state, g.user, g.token) <==> InDatabase(Run(cfg, start, es), g)
  {
    RunRow(cfg, start, es, g);
    hide Run, Legal, RowStands, IpOf;
  }

  /**
   * What a refresh under any code is answered for a granted token, read off the history alone: the
   * cache's word where it has the token under that code, else the database's, and a token for the
   * grantee under that code unless the request comes from another address and the alert throws.
   */
  lemma RefreshAnswers(cfg: Config, start: nat, es: seq<Event>, g: Grant, code: string, ip: string, alertFails: bool, access: string)
    requires Orderly(cfg, start, es) && TtlsCoverJwt(cfg) && Usable(cfg) && GrantIn(Run(cfg, start, es), g)
    ensures
      var w := Run(cfg, start, es);
      var n := Step(cfg, w.state, RefreshAccess(code, g.user, g.token, ip, alertFails, access));
      var known, addr := StillCached(cfg, w, g, code) || InDatabase(w, g), AddressOf(cfg, w, g, code);
      && n.result == (if known && (ip == addr || !alertFails) then Issued(ByRefresh, code, g.user, access, None) else Rejected)
      && n.alarm == (if known && ip != addr then Some(g.user) else None)
      && (n.result.Rejected? ==> n.state == if n.alarm.Some? then HandleTheft(w.state, g.user, ip) else w.state)
  {
    var w, e := Run(cfg, start, es), RefreshAccess(code, g.user, g.token, ip, alertFails, access);
    OrderlyIsLegal(cfg, start, es);
    GrantIsTracked(cfg, start, es, g, code);
    DbAcceptsWhen(cfg, start, es, g);
    hide Run, Legal, Orderly, Step, Found, HandleTheft, StillCached, RowStands, IpOf, LastCached;
    if Found(w.state.cache, Token(code, g.user, Refresh, g.token)).Some? {
      AnswerFromCache(cfg, w.state, e);
    } else {
      AnswerFromDb(cfg, w.state, e);
    }
  }

  /** A check never re-caches a tenant user's refresh token. */
  lemma {:induction false} TenantCachedOnce(log: seq<Obs>, g: Grant, code: string)
    requires g.i < |log| && g.db.Tenant?
    ensures LastCached(log, g, code) == if code == CodeOf(g.db) then g.i else -1
  {
    hide Recaches, RowStands;
    if |log| - 1 != g.i {
      TenantCachedOnce(log[..|log| - 1], g, code);
    }
  }

  /**
   * A tenant user can refresh under the code of that tenant only, from the cache: until a login
   * attempt there or the end of the entry's lifetime.
   */
  lemma TenantRefreshAnswers(cfg: Config, start: nat, es: seq<Event>, g: Grant, code: string, ip: string, alertFails: bool, access: string)
    requires Orderly(cfg, start, es) && TtlsCoverJwt(cfg) && Usable(cfg) && GrantIn(Run(cfg, start, es), g) && g.db.Tenant?
    ensures
      var w := Run(cfg, start, es);
      Step(cfg, w.state, RefreshAccess(code, g.user, g.token, ip, alertFails, access)).result ==
        if && code == g.db.code && !LoginAfter(w.log, g.i, code, g.user)
           && w.state.now < w.log[g.i].at + cfg.refreshTokenCacheExpiresIn
           && (ip == IpOf(w.log[g.i].event) || !alertFails)
        then Issued(ByRefresh, code, g.user, access, None) else Rejected
  {
    hide Run, Orderly, Step, HandleTheft, IpOf, LastCached, LoginAfter, RowStands;
    RefreshAnswers(cfg, start, es, g, code, ip, alertFails, access);
    TenantCachedOnce(Run(cfg, start, es).log, g, code);
  }

  /** When the handler accepts: from the address on record always, from any other if the alert goes out. */
  lemma HandlerAcceptsWhen(cfg: Config, start: nat, es: seq<Event>, g: Grant, code: string, ip: string, alertFails: bool)
    requires Orderly(cfg, start, es) && TtlsCoverJwt(cfg) && Usable(cfg) && GrantIn(Run(cfg, start, es), g)
    ensures
      var w := Run(cfg, start, es);
      HandlerAccepts(w.state, code, g.user, g.token, ip, alertFails) <==>
        && (StillCached(cfg, w, g, code) || InDatabase(w, g))
        && (ip == AddressOf(cfg, w, g, code) || !alertFails)
  {
    hide Run, Orderly, Step, HandlerAccepts, HandleTheft, StillCached, InDatabase, AddressOf;
    RefreshAnswers(cfg, start, es, g, code, ip, alertFails, "");
    HandlerAcceptsIsTheStep(cfg, Run(cfg, start, es).state, code, g.user, g.token, ip, alertFails, "");
  }

  /**
   * From the address on record, handler and database agree on a granted token except while it is
   * still cached under that code and the database no longer has it: its row was invalidated without
   * the cache (rotation, revocation, theft handling, a login attempt under another code), its 14
   * days are over, or it is a tenant's.
   */
  lemma AgreementExactly(cfg: Config, start: nat, es: seq<Event>, g: Grant, code: string, alertFails: bool)
    requires Orderly(cfg, start, es) && TtlsCoverJwt(cfg) && Usable(cfg) && GrantIn(Run(cfg, start, es), g)
    ensures
      var w := Run(cfg, start, es);
      (HandlerAccepts(w.state, code, g.user, g.token, AddressOf(cfg, w, g, code), alertFails) <==> DbAccepts(w.state, g.user, g.token)) <==>
        !(&& StillCached(cfg, w, g, code)
          && !(g.db == Root && RowStands(w.log, g) && w.state.now < AddMinutes(w.log[g.i].at, RefreshRowMinutes)))
  {
    OrderlyIsLegal(cfg, start, es);
    hide Run, Legal, Orderly, HandlerAccepts, DbAccepts, RowStands, StillCached, AddressOf;
    HandlerAcceptsWhen(cfg, start, es, g, code, AddressOf(cfg, Run(cfg, start, es), g, code), alertFails);
    DbAcceptsWhen(cfg, start, es, g);
  }

  // ---- Tokens nobody was granted ------------------------------------------------------------

  /** Does the entry let the user through, from this address? */
  predicate Opens(e: Entry, user: string, ip: string, alertFails: bool) {
    e.value.Session? && e.value.id == user && (e.value.ip == ip || !alertFails)
  }

  /** Another cached key that a request spells. */
  predicate Spelled(m: Entries, j: Key, k: Key) {
    j in m && j != k && SameString(j, k)
  }

  lemma HandlerAcceptsMeans(s: State, code: string, user: string, token: string, ip: string, alertFails: bool)
    requires !DbAccepts(s, user, token)
    ensures
      var entry := Found(s.cache, Token(code, user, Refresh, token));
      HandlerAccepts(s, code, user, token, ip, alertFails) <==> entry.Some? && Opens(entry.value, user, ip, alertFails)
  {
    hide Found;
  }

  /** What a run's entries look like: keys as in `WellFormed`, and the user's own id in a session. */
  lemma EntriesInRun(cfg: Config, start: nat, es: seq<Event>)
    requires Legal(cfg, start, es)
    ensures
      var m := Run(cfg, start, es).state.cache;
      forall k :: k in m ==> WellFormed(k) && (m[k].value.Session? ==> k.Token? && m[k].value.id == k.user)
  {
    RunNamed(cfg, start, es, false);
    hide Run, Legal, ColonFree;
    var m := Run(cfg, start, es).state.cache;
    assert forall k :: k in m ==> EntryOk(false, k, m[k]);
  }

  lemma UngrantedNotInDb(cfg: Config, start: nat, es: seq<Event>, user: string, token: string)
    requires Legal(cfg, start, es) && !Granted(Run(cfg, start, es).log, user, token)
    ensures !DbAccepts(Run(cfg, start, es).state, user, token)
    ensures forall code :: Token(code, user, Refresh, token) !in Run(cfg, start, es).state.cache
  {
    RunExplained(cfg, start, es);
    hide Run, Legal, Granted;
  }

  /**
   * A pair that was never granted is refused by the database, and by the handler too unless the
   * code, user and token of the request together spell another key of that user. With a colon-free
   * code that takes a key cached under a code running through the user's own prefix.
   */
  lemma UngrantedAcceptedWhen(cfg: Config, start: nat, es: seq<Event>, code: string, user: string, token: string, ip: string,
                              alertFails: bool)
    requires Legal(cfg, start, es) && !Granted(Run(cfg, start, es).log, user, token)
    ensures
      var m, k := Run(cfg, start, es).state.cache, Token(code, user, Refresh, token);
      && (HandlerAccepts(Run(cfg, start, es).state, code, user, token, ip, alertFails) <==>
            exists j :: Spelled(m, j, k) && Opens(m[j], user, ip, alertFails))
      && (ColonFree(code) ==>
            forall j :: Spelled(m, j, k) && Opens(m[j], user, ip, alertFails) ==> Trespasses(j, code, user, Refresh))
    ensures !DbAccepts(Run(cfg, start, es).state, user, token)
  {
    var s, k := Run(cfg, start, es).state, Token(code, user, Refresh, token);
    var m := s.cache;
    UngrantedNotInDb(cfg, start, es, user, token);
    EntriesInRun(cfg, start, es);
    hide Run, Legal, HandlerAccepts, Granted, Trespasses, ColonFree, SameString, DbAccepts;
    HandlerAcceptsMeans(s, code, user, token, ip, alertFails);
    forall j | Spelled(m, j, k) && Opens(m[j], user, ip, alertFails)
      ensures m[j] == Found(m, k).value && (ColonFree(code) ==> Trespasses(j, code, user, Refresh))
    {
      var j' :| j' in m && SameString(j', k) && m[j'] == Found(m, k).value;
      OneKeyPerString(j, j', k);
      if ColonFree(code) {
        SpellsForeignKey(code, user, token, j);
      }
    }
    if Found(m, k).Some? {
      var j :| j in m && SameString(j, k) && m[j] == Found(m, k).value;
      assert Spelled(m, j, k);
    }
  }

  lemma SpellsForeignKey(code: string, user: string, token: string, j: Key)
    requires ColonFree(code) && WellFormed(j) && j.Token? && j.user == user
    requires j != Token(code, user, Refresh, token) && SameString(j, Token(code, user, Refresh, token))
    ensures Trespasses(j, code, user, Refresh)
  {
    SameStringTrespasses(code, user, Refresh, token, j);
  }

  lemma OneKeyPerString(j: Key, j': Key, k: Key)
    requires WellFormed(j) && WellFormed(j') && SameString(j, k) && SameString(j', k)
    ensures j' == j
  {
    KeyStringInjective(j', j);
  }

  /** So a token without colons that was never granted is refused for any user under any code, and nothing changes. */
  lemma UngrantedRefused(cfg: Config, start: nat, es: seq<Event>, code: string, user: string, token: string, ip: string,
                         alertFails: bool, access: string)
    requires Legal(cfg, start, es) && ColonFree(token) && !Granted(Run(cfg, start, es).log, user, token)
    ensures
      var s := Run(cfg, start, es).state;
      Step(cfg, s, RefreshAccess(code, user, token, ip, alertFails, access)) == Next(s, Rejected, None)
    ensures !DbAccepts(Run(cfg, start, es).state, user, token)
  {
    var s, k, e := Run(cfg, start, es).state, Token(code, user, Refresh, token), RefreshAccess(code, user, token, ip, alertFails, access);
    UngrantedNotInDb(cfg, start, es, user, token);
    EntriesInRun(cfg, start, es);
    if ColonFree(user) {
      FoundInRun(cfg, start, es, k);
    }
    hide Run, Legal, Step, Granted, ColonFree, SameString, DbAccepts, HandleTheft;
    if Found(s.cache, k).Some? {
      var j :| j in s.cache && SameString(j, k) && s.cache[j] == Found(s.cache, k).value;
      AnswerFromCache(cfg, s, e);
    } else {
      AnswerFromDb(cfg, s, e);
    }
  }

  // ---- Runs in which nothing bypasses the cache ---------------------------------------------

  /** Does the event present, under the root code, an access token issued under another code? */
  ghost predicate ForeignToken(log: seq<Obs>, e: Event) {
    && e.Validate? && e.client == "root"
    && exists i :: 0 <= i < |log| && log[i].result.Issued? && log[i].result.access == e.token && log[i].result.client != "root"
  }

  /** Requests validated under the root code carry root tokens. */
  ghost predicate RootTokensOnly(log: seq<Obs>) {
    forall j :: 0 <= j < |log| ==> !ForeignToken(log[..j], log[j].event)
  }

  /** Every accepted token was issued by an earlier event. */
  ghost predicate AcceptedWereIssued(log: seq<Obs>) {
    forall j :: 0 <= j < |log| && log[j].event.Validate? && log[j].result.Accepted? ==> IssuedSomewhere(log[..j], log[j].event.token)
  }

  lemma {:induction false} RunAcceptsIssued(cfg: Config, start: nat, es: seq<Event>)
    requires Legal(cfg, start, es)
    ensures AcceptedWereIssued(Run(cfg, start, es).log)
  {
    hide IssuedSomewhere, Decide, Apply, Enabled;
    if es != [] {
      var before, e := es[..|es| - 1], es[|es| - 1];
      var w, w' := Run(cfg, start, before), Run(cfg, start, es);
      RunAcceptsIssued(cfg, start, before);
      assert w'.log[..|w.log|] == w.log;
      assert forall j :: 0 <= j < |w.log| ==> w'.log[..j] == w.log[..j] && w'.log[j] == w.log[j];
      if e.Validate? && w'.log[|w.log|].result.Accepted? {
        AcceptedIsSigned(cfg, w.state, e);
        SignedWereIssued(cfg, start, before, e.token);
      }
    }
  }

  lemma AcceptedIsSigned(cfg: Config, s: State, e: Event)
    requires e.Validate? && Step(cfg, s, e).result.Accepted?
    ensures e.token in s.signed
  {
  }

  /** With root tokens only, no check re-caches under the root code, so the grant is the last caching. */
  lemma {:induction false} GrantIsLastCached(log: seq<Obs>, g: Grant)
    requires g.i < |log| && g.db == Root && RootTokensOnly(log) && AcceptedWereIssued(log)
    ensures LastCached(log, g, "root") == g.i
  {
    hide RowStands;
    var last := |log| - 1;
    if last != g.i {
      var before := log[..last];
      assert forall j :: 0 <= j < last ==> before[..j] == log[..j] && before[j] == log[j];
      hide ForeignToken, IssuedSomewhere, Recaches;
      assert !ForeignToken(log[..last], log[last].event);
      NoRecaching(log, last, g.user);
      GrantIsLastCached(before, g);
    }
  }

  lemma NoRecaching(log: seq<Obs>, j: nat, user: string)
    requires j < |log| && !ForeignToken(log[..j], log[j].event) && AcceptedWereIssued(log)
    ensures !Recaches(log, j, "root", user)
  {
    if log[j].event.Validate? && log[j].event.client == "root" && log[j].result.Accepted? {
      var before, token := log[..j], log[j].event.token;
      assert IssuedSomewhere(before, token);
      var i :| 0 <= i < |before| && before[i].result.Issued? && before[i].result.access == token;
      assert Shows(before[i], "root", token);
    }
  }

  /** Runs of login, refresh and validation with matching IPs: nothing bypasses the cache. */
  predicate NothingBypasses(log: seq<Obs>) {
    forall j :: 0 <= j < |log| ==> !log[j].event.RevokeRefresh? && !log[j].event.Rotate? && log[j].alarm.None?
  }

  /** The token was granted from this address, if it was granted at all. */
  ghost predicate GrantedFrom(log: seq<Obs>, user: string, token: string, ip: string) {
    forall i :: 0 <= i < |log| && GrantsRefresh(log[i], user, token) ==> IpOf(log[i].event) == ip
  }

  /** In such runs the handler accepts from a root user exactly when the database lookup alone would. */
  lemma CacheFirstAgreesWithDb(cfg: Config, start: nat, es: seq<Event>, user: string, token: string, ip: string, alertFails: bool)
    requires Orderly(cfg, start, es) && TtlsCoverJwt(cfg) && Usable(cfg)
    requires cfg.refreshTokenCacheExpiresIn <= RefreshRowMinutes * 60 * 1000
    requires RootTokensOnly(Run(cfg, start, es).log) && NothingBypasses(Run(cfg, start, es).log)
    requires RootUser(Run(cfg, start, es).state, user) && ColonFree(token)
    requires GrantedFrom(Run(cfg, start, es).log, user, token, ip)
    ensures
      var s := Run(cfg, start, es).state;
      HandlerAccepts(s, "root", user, token, ip, alertFails) <==> DbAccepts(s, user, token)
  {
    OrderlyIsLegal(cfg, start, es);
    var log := Run(cfg, start, es).log;
    if Granted(log, user, token) {
      var i :| 0 <= i < |log| && GrantsRefresh(log[i], user, token);
      RunAcceptsIssued(cfg, start, es);
      EveryGrantIsIn(cfg, start, es, i, user, token);
      var g := Grant(i, Root, user, token);
      hide Run, Legal, Orderly, Step, HandlerAccepts, DbAccepts, RootTokensOnly, AcceptedWereIssued, IpOf, LastCached, ColonFree;
      GrantIsLastCached(log, g);
      AgreementExactly(cfg, start, es, g, "root", alertFails);
    } else {
      hide Run, Legal, Orderly, Step, HandlerAccepts, DbAccepts, RootTokensOnly, AcceptedWereIssued, IpOf, LastCached, ColonFree;
      UngrantedRefused(cfg, start, es, "root", user, token, ip, alertFails, "");
      HandlerAcceptsIsTheStep(cfg, Run(cfg, start, es).state, "root", user, token, ip, alertFails, "");
    }
  }
}
