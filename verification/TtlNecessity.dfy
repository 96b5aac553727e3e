/** The lifetime inequalities are not only enough for a single live session: they are needed. */
module TtlNecessity {
  import opened AuthConfig
  import opened Names
  import opened Options
  import opened Sessions
  import opened SessionTheorems
  import opened TokenCache
  import opened Witnesses

  ghost predicate HoldsFor(cfg: Config, start: nat, es: seq<Event>, i: nat, client: string, user: string, access: string, ip: string) {
    var w := Run(cfg, start, es);
    Orderly(cfg, start, es) && IssuedAt(w.log, i, client, user, access) ==>
      (Accepts(w.state, client, access, ip) <==> Unexpired(cfg, w, i) && !RevokedAfter(w.log, i, client, user))
  }

  /** Over every orderly run, `validate` lets through exactly the unexpired tokens not revoked later. */
  ghost predicate SingleSessionHolds(cfg: Config) {
    forall start, es, i, client, user, access, ip :: HoldsFor(cfg, start, es, i, client, user, access, ip)
  }

  lemma FallbackAccepts(s: State)
    requires s.users == Users && "a" in s.signed && s.signed["a"].user == "u" && JwtLive(s.now, s.signed["a"].exp)
    requires BlackA !in s.cache
    ensures Accepts(s, "root", "a", "ip")
  {
  }

  lemma RevokedLater(log: seq<Obs>, j: nat)
    requires 1 < j < |log| && Revokes(log[j].result, "root", "u")
    ensures RevokedAfter(log, 1, "root", "u")
  {
  }

  lemma TickStep(cfg: Config, s: State, to: nat)
    ensures Step(cfg, s, Tick(to)) == Next(s.(now := to, cache := Purge(s.cache, to)), Done, None)
  {
  }

  lemma TickOrderly(cfg: Config, es: seq<Event>, to: nat)
    requires Orderly(cfg, 0, es) && PlainEvents(es) && Run(cfg, 0, es).state.now <= to
    ensures Orderly(cfg, 0, es + [Tick(to)]) && PlainEvents(es + [Tick(to)])
    ensures Run(cfg, 0, es + [Tick(to)]) == Advance(cfg, Run(cfg, 0, es), Tick(to))
  {
    hide Run, Orderly, Advance, PlainEvents;
    assert PlainEvent(Tick(to));
    Extend(cfg, es, Tick(to));
  }

  lemma FirstIssue(cfg: Config)
    ensures
      var w := Run(cfg, 0, [SetUp, FirstLogin]);
      && Orderly(cfg, 0, [SetUp, FirstLogin]) && PlainEvents([SetUp, FirstLogin])
      && w.state == AfterFirstLogin(cfg) && SignedA(cfg, w.state)
      && |w.log| == 2 && w.log[1].at == 0 && IssuedAt(w.log, 1, "root", "u", "a")
  {
    hide Run, Orderly, PlainEvents;
    FirstSteps(cfg);
  }

  /** The access entry lapses before the JWT: the second login no longer finds "a" to blacklist. */
  lemma ShortAccessCache(cfg: Config)
    requires cfg.accessTokenCacheExpiresIn < cfg.accessTokenExpiresIn * 1000
    ensures !HoldsFor(cfg, 0, [SetUp, FirstLogin, Tick(cfg.accessTokenCacheExpiresIn), SecondLogin], 1, "root", "u", "a", "ip")
  {
    hide Run, Orderly, Step, ScansOwn, PlainEvents, Decide;
    var to := cfg.accessTokenCacheExpiresIn;
    var es2, es3 := [SetUp, FirstLogin], [SetUp, FirstLogin, Tick(to)];
    assert es2 + [Tick(to)] == es3 && es3 + [SecondLogin] == [SetUp, FirstLogin, Tick(to), SecondLogin];
    FirstIssue(cfg);
    var w3, w4 := Run(cfg, 0, es3), Run(cfg, 0, es3 + [SecondLogin]);
    TickStep(cfg, AfterFirstLogin(cfg), to);
    TickOrderly(cfg, es2, to);
    assert A !in w3.state.cache && BlackA !in w3.state.cache;
    SecondOrderly(cfg, es3);
    SecondStep(cfg, w3);
    FallbackAccepts(w4.state);
    RevokedLater(w4.log, 3);
    assert IssuedAt(w4.log, 1, "root", "u", "a");
  }

  /** The blacklist entry lapses before the JWT: "a" comes back to life. */
  lemma ShortBlacklist(cfg: Config)
    requires BlacklistTtl(cfg) < cfg.accessTokenExpiresIn * 1000
    ensures !HoldsFor(cfg, 0, [SetUp, FirstLogin, SecondLogin, Tick(BlacklistTtl(cfg))], 1, "root", "u", "a", "ip")
  {
    hide Run, Orderly, Step, ScansOwn, PlainEvents, Decide;
    var to := BlacklistTtl(cfg);
    var es2, es3 := [SetUp, FirstLogin], [SetUp, FirstLogin, SecondLogin];
    assert es2 + [SecondLogin] == es3 && es3 + [Tick(to)] == [SetUp, FirstLogin, SecondLogin, Tick(to)];
    FirstIssue(cfg);
    var w2, w3, w4 := Run(cfg, 0, es2), Run(cfg, 0, es3), Run(cfg, 0, es3 + [Tick(to)]);
    SecondOrderly(cfg, es2);
    SecondStep(cfg, w2);
    TickOrderly(cfg, es3, to);
    TickStep(cfg, w3.state, to);
    assert BlackA !in w4.state.cache;
    FallbackAccepts(w4.state);
    RevokedLater(w4.log, 2);
    assert IssuedAt(w4.log, 1, "root", "u", "a");
  }

  /** A single live session over all runs holds exactly when both lifetimes cover the JWT's. */
  lemma SingleSessionIffTtlsCover(cfg: Config)
    requires Usable(cfg)
    ensures SingleSessionHolds(cfg) <==> TtlsCoverJwt(cfg)
  {
    hide HoldsFor;
    if TtlsCoverJwt(cfg) {
      forall start, es, i, client, user, access, ip
        ensures HoldsFor(cfg, start, es, i, client, user, access, ip)
      {
        TtlsSuffice(cfg, start, es, i, client, user, access, ip);
      }
    } else if cfg.accessTokenCacheExpiresIn < cfg.accessTokenExpiresIn * 1000 {
      ShortAccessCache(cfg);
    } else {
      ShortBlacklist(cfg);
    }
  }

  lemma TtlsSuffice(cfg: Config, start: nat, es: seq<Event>, i: nat, client: string, user: string, access: string, ip: string)
    requires TtlsCoverJwt(cfg)
    ensures HoldsFor(cfg, start, es, i, client, user, access, ip)
  {
    hide Run, Orderly, Accepts, RevokedAfter;
    if Orderly(cfg, start, es) && IssuedAt(Run(cfg, start, es).log, i, client, user, access) {
      SingleSession(cfg, start, es, i, client, user, access, ip);
    }
  }
}
