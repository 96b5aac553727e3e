/** Tokens go only to verified users: an invariant over every way of getting one. */
module VerifiedUsers {
  import opened AuthConfig
  import opened CacheKeys
  import opened RefreshRows
  import opened RefreshTracking
  import opened Sessions
  import opened TokenCache

  predicate Verified(s: State, user: string) {
    user in s.users && s.users[user].verified
  }

  ghost predicate OnlyVerified(w: World) {
    && (forall id :: id in w.state.rows ==> Verified(w.state, w.state.rows[id].user))
    && (forall k :: k in w.state.cache && w.state.cache[k].value.Session? ==> Verified(w.state, w.state.cache[k].value.id))
    && (forall t :: t in w.state.signed ==> Verified(w.state, w.state.signed[t].user))
    && (forall i :: 0 <= i < |w.log| && w.log[i].result.Issued? ==> Verified(w.state, w.log[i].result.user))
  }

  /** A refresh goes through only for a session entry or a valid row of that user. */
  lemma ReissueIsBacked(s: State, e: Event)
    requires Decide(s, e).Reissue?
    ensures e.RefreshAccess?
    ensures
      var p := Decide(s, e);
      || DbAccepts(s, p.user, e.token)
      || exists j :: j in s.cache && s.cache[j].value.Session? && s.cache[j].value.id == p.user
  {
    hide KeyString;
  }

  lemma PlanIsForVerified(w: World, e: Event)
    requires OnlyVerified(w) && Enabled(w.state, e)
    ensures
      var p := Decide(w.state, e);
      && (p.LogIn? ==> p.user in p.users && p.users[p.user].verified)
      && (p.Reissue? || p.Replace? || p.Recache? ==> Verified(w.state, p.user))
  {
    hide Decide;
    var p := Decide(w.state, e);
    DecideSound(w.state, e);
    if p.Reissue? {
      ReissueIsBacked(w.state, e);
    }
  }

  lemma ApplyKeepsRows(cfg: Config, s: State, p: Plan, id: RowId)
    requires Sound(s, p) && id in Apply(cfg, s, p).state.rows
    ensures
      var user := Apply(cfg, s, p).state.rows[id].user;
      || (id in s.rows && user == s.rows[id].user)
      || ((p.LogIn? || p.Replace?) && user == p.user)
  {
    hide BlacklistUser, ClearUser, Purge, UsersGrow;
  }

  predicate Gives(p: Plan, user: string) {
    (p.LogIn? || p.Replace? || p.Reissue? || p.Recache?) && p.user == user
  }

  lemma LoginKeepsEntries(cfg: Config, s: State, db: Db, u: string, ip: string, access: string, refresh: string, k: Key)
    requires k in Login(cfg, s, db, u, ip, access, refresh).state.cache
    ensures
      var e := Login(cfg, s, db, u, ip, access, refresh).state.cache[k];
      e.value.Session? ==> (k in s.cache && e == s.cache[k]) || e.value.id == u
  {
    hide InvalidateRows, Hits;
  }

  lemma ReissueKeepsEntries(cfg: Config, s: State, client: string, u: string, ip: string, access: string, k: Key)
    requires k in NewAccessToken(cfg, s, client, u, ip, access).cache
    ensures
      var e := NewAccessToken(cfg, s, client, u, ip, access).cache[k];
      e.value.Session? ==> (k in s.cache && e == s.cache[k]) || e.value.id == u
  {
    hide Hits;
  }

  lemma ApplyKeepsEntries(cfg: Config, s: State, p: Plan, k: Key)
    requires k in Apply(cfg, s, p).state.cache
    ensures
      var e := Apply(cfg, s, p).state.cache[k];
      e.value.Session? ==> (k in s.cache && e == s.cache[k]) || Gives(p, e.value.id)
  {
    hide Login, NewAccessToken, InvalidateRows, InvalidateRow;
    match p {
      case LogIn(users, db, u, ip, access, refresh) => LoginKeepsEntries(cfg, s.(users := users), db, u, ip, access, refresh, k);
      case Reissue(theft, client, u, ip, access) =>
        ReissueKeepsEntries(cfg, if theft then HandleTheft(s, u, ip) else s, client, u, ip, access, k);
      case _ =>
    }
  }

  lemma ApplySignsFor(cfg: Config, s: State, p: Plan, t: string)
    requires t in Apply(cfg, s, p).state.signed
    ensures (t in s.signed && Apply(cfg, s, p).state.signed[t] == s.signed[t]) || Gives(p, Apply(cfg, s, p).state.signed[t].user)
  {
    hide BlacklistUser, ClearUser, Purge, InvalidateRows, InvalidateRow;
  }

  lemma ApplyIssuesTo(cfg: Config, s: State, p: Plan)
    requires Sound(s, p) && Apply(cfg, s, p).result.Issued?
    ensures (p.LogIn? || p.Reissue? || p.Replace?) && Apply(cfg, s, p).result.user == p.user
  {
    hide BlacklistUser, ClearUser, Purge, UsersGrow, InvalidateRows, InvalidateRow;
  }

  lemma OnlyVerifiedStep(cfg: Config, w: World, e: Event)
    requires OnlyVerified(w) && Enabled(w.state, e)
    ensures OnlyVerified(Advance(cfg, w, e))
  {
    hide Decide, Apply, Sound;
    var w', p := Advance(cfg, w, e), Decide(w.state, e);
    DecideSound(w.state, e);
    PlanIsForVerified(w, e);
    ApplyUsers(cfg, w.state, p);
    assert p.LogIn? || p.Reissue? || p.Replace? || p.Recache? ==> Verified(w'.state, p.user);
    forall id | id in w'.state.rows
      ensures Verified(w'.state, w'.state.rows[id].user)
    {
      ApplyKeepsRows(cfg, w.state, p, id);
    }
    forall k | k in w'.state.cache && w'.state.cache[k].value.Session?
      ensures Verified(w'.state, w'.state.cache[k].value.id)
    {
      ApplyKeepsEntries(cfg, w.state, p, k);
    }
    forall t | t in w'.state.signed
      ensures Verified(w'.state, w'.state.signed[t].user)
    {
      ApplySignsFor(cfg, w.state, p, t);
    }
    if w'.log[|w.log|].result.Issued? {
      ApplyIssuesTo(cfg, w.state, p);
    }
  }

  lemma {:induction false} RunOnlyVerified(cfg: Config, start: nat, es: seq<Event>)
    requires Legal(cfg, start, es)
    ensures OnlyVerified(Run(cfg, start, es))
  {
    hide OnlyVerified, Advance;
    if es != [] {
      RunOnlyVerified(cfg, start, es[..|es| - 1]);
      OnlyVerifiedStep(cfg, Run(cfg, start, es[..|es| - 1]), es[|es| - 1]);
    } else {
      NothingIssued(start);
    }
  }

  lemma NothingIssued(start: nat)
    ensures OnlyVerified(World(Init(start), []))
  {
  }

  /**
   * Whoever a token is issued to is verified at that moment and at every later one, whether the
   * token came from a password or Google login, an email verification, a refresh or a rotation.
   */
  lemma TokensOnlyForVerified(cfg: Config, start: nat, es: seq<Event>, i: nat, k: nat)
    requires Legal(cfg, start, es) && i < k <= |es| == |Run(cfg, start, es).log|
    requires Run(cfg, start, es).log[i].result.Issued?
    ensures Verified(Run(cfg, start, es[..k]).state, Run(cfg, start, es).log[i].result.user)
  {
    PrefixLegal(cfg, start, es, k);
    LogAt(cfg, start, es, i);
    LogAt(cfg, start, es[..k], i);
    assert es[..k][..i] == es[..i];
    RunOnlyVerified(cfg, start, es[..k]);
  }
}
