/** Concrete runs for what does not hold: one paid client, one user "u" who signs in with Google. */
module Witnesses {
  import opened AuthConfig
  import opened CacheKeys
  import opened Names
  import opened Options
  import opened RefreshAgreement
  import opened RefreshTracking
  import opened Sessions
  import opened SessionTheorems
  import opened TokenCache

  // At time 0 "u" is created and gets the tokens "a" and "r"; a second login gets "b" and "q".
  const SetUp := SetClient("c", true)
  const FirstLogin := GoogleLogin("mail", "c", "ip", "u", "sign", "a", "r")
  const SecondLogin := GoogleLogin("mail", "c", "ip", "v", "other", "b", "q")
  const SameSecondLogin := GoogleLogin("mail", "c", "ip", "v", "other", "a", "q")
  const Rotation := Rotate("r", "ip", "b", "q")
  const FailedAlert := RefreshAccess("root", "u", "r", "elsewhere", true, "b")
  const BracketRefresh := RefreshAccess("a[b]", "u", "r", "ip", false, "b")
  const BracketRefreshAgain := RefreshAccess("a[b]", "u", "r", "ip", false, "d")
  const SpellingCode := "root:user:u:token:refresh:x"
  const SpellingCheck := Validate(SpellingCode, "a", "ip")
  const SpellingToken := "x:user:u:token:refresh:r"

  const Users := map["u" := User(Root, "mail", true, false, "sign", Some("c"))]
  const A := Token("root", "u", Access, "a")
  const BlackA := Token("root", "u", Blacklist, "a")
  const R := Token("root", "u", Refresh, "r")

  function FirstCache(cfg: Config): Entries {
    map[A := Entry(Session("u", "ip"), cfg.accessTokenCacheExpiresIn),
        R := Entry(Session("u", "ip"), cfg.refreshTokenCacheExpiresIn)]
  }

  function AfterFirstLogin(cfg: Config): State {
    State(0, FirstCache(cfg), map[RowId(Root, "r") := Row("u", true, "ip", AddMinutes(0, RefreshRowMinutes))], Users,
          map["a" := Claims("u", cfg.accessTokenExpiresIn)], map["c" := true], {})
  }

  // ---- The first two events -----------------------------------------------------------------

  /** One more plain event keeps a run orderly. */
  lemma Extend(cfg: Config, es: seq<Event>, e: Event)
    requires Orderly(cfg, 0, es) && PlainEvents(es) && PlainEvent(e) && Enabled(Run(cfg, 0, es).state, e)
    ensures
      var w := Run(cfg, 0, es);
      Run(cfg, 0, es + [e]) == Advance(cfg, w, e) && RevokesOwn(w.state, Decide(w.state, e))
    ensures Orderly(cfg, 0, es + [e]) && PlainEvents(es + [e])
  {
    hide Run, Advance, Enabled, RevokesOwn, Decide, PlainEvent;
    RunOneMore(cfg, 0, es, e);
    OrderlyIsLegal(cfg, 0, es);
    PlainRunsAreOrderly(cfg, 0, es + [e]);
  }

  lemma NothingToRevoke(client: string, user: string, expires: nat)
    ensures ClearUser(BlacklistUser(map[], client, user, expires), client, user) == map[]
  {
    hide Hits;
    assert BlacklistKeysOf(map[], client, user) == {};
  }

  lemma FirstLoginStep(cfg: Config, s: State)
    requires s == Init(0).(clients := map["c" := true])
    ensures Enabled(s, FirstLogin)
    ensures
      var n := Step(cfg, s, FirstLogin);
      n == Next(AfterFirstLogin(cfg), Issued(ByLogin, "root", "u", "a", Some("r")), None)
  {
    hide BlacklistUser, ClearUser;
    assert FindByEmail(s.users, Root, "mail") == None;
    assert s.users["u" := User(Root, "mail", true, false, "sign", Some("c"))] == Users;
    NothingToRevoke("root", "u", s.now + BlacklistTtl(cfg));
  }

  lemma SetUpStep(cfg: Config)
    ensures
      var w := Run(cfg, 0, [SetUp]);
      && Orderly(cfg, 0, [SetUp]) && PlainEvents([SetUp])
      && w.state == Init(0).(clients := map["c" := true]) && |w.log| == 1
  {
    Extend(cfg, [], SetUp);
    assert [] + [SetUp] == [SetUp];
  }

  lemma FirstSteps(cfg: Config)
    ensures Orderly(cfg, 0, [SetUp, FirstLogin]) && PlainEvents([SetUp, FirstLogin])
    ensures
      var w := Run(cfg, 0, [SetUp, FirstLogin]);
      && w.state == AfterFirstLogin(cfg)
      && |w.log| == 2 && w.log[1] == Obs(FirstLogin, Issued(ByLogin, "root", "u", "a", Some("r")), None, 0)
      && !w.log[0].event.Validate? && !w.log[0].result.Issued? && w.log[0].alarm == None && w.log[0].event == SetUp
  {
    SetUpStep(cfg);
    var w := Run(cfg, 0, [SetUp]);
    assert w.log[0].event == SetUp && w.log[0].alarm == None && !w.log[0].result.Issued? by { LogOfSetUp(cfg); }
    hide Run, Orderly, Step, Decide, Enabled, RevokesOwn, PlainEvents;
    FirstLoginStep(cfg, w.state);
    assert PlainEvent(FirstLogin);
    Extend(cfg, [SetUp], FirstLogin);
    assert [SetUp] + [FirstLogin] == [SetUp, FirstLogin];
  }

  lemma LogOfSetUp(cfg: Config)
    ensures
      var log := Run(cfg, 0, [SetUp]).log;
      |log| == 1 && log[0] == Obs(SetUp, Done, None, 0)
  {
    RunOneMore(cfg, 0, [], SetUp);
    assert [] + [SetUp] == [SetUp];
  }

  /** A third event of the run. */
  lemma Third(cfg: Config, e: Event)
    requires Enabled(AfterFirstLogin(cfg), e)
    ensures
      var w := Run(cfg, 0, [SetUp, FirstLogin]);
      && w.state == AfterFirstLogin(cfg) && Run(cfg, 0, [SetUp, FirstLogin, e]) == Advance(cfg, w, e)
      && Legal(cfg, 0, [SetUp, FirstLogin, e])
      && |w.log| == 2 && w.log[1] == Obs(FirstLogin, Issued(ByLogin, "root", "u", "a", Some("r")), None, 0)
      && !w.log[0].event.Validate? && !w.log[0].result.Issued? && w.log[0].alarm == None && w.log[0].event == SetUp
    ensures PlainEvent(e) || RevokesOwn(AfterFirstLogin(cfg), Decide(AfterFirstLogin(cfg), e)) ==> Orderly(cfg, 0, [SetUp, FirstLogin, e])
  {
    FirstSteps(cfg);
    hide Run, Legal, Orderly, Enabled, Step, Decide, RevokesOwn, PlainEvent, PlainEvents;
    var es := [SetUp, FirstLogin];
    OrderlyIsLegal(cfg, 0, es);
    RunOneMore(cfg, 0, es, e);
    assert es + [e] == [SetUp, FirstLogin, e];
    if PlainEvent(e) {
      Extend(cfg, es, e);
    }
  }

  // ---- A second login -----------------------------------------------------------------------

  /** "u" exists and "a" is signed with its lifetime starting at 0. */
  predicate SignedA(cfg: Config, s: State) {
    && s.users == Users && s.clients == map["c" := true]
    && "a" in s.signed && s.signed["a"] == Claims("u", cfg.accessTokenExpiresIn) && "b" !in s.signed
    && forall id :: id in s.rows ==> id.token == "r"
  }

  lemma SecondPlan(s: State, e: Event)
    requires s.users == Users && s.clients == map["c" := true]
    requires e.GoogleLogin? && e.email == "mail" && e.code == "c"
    ensures Decide(s, e) == LogIn(Users, Root, "u", e.ip, e.access, e.refresh)
  {
    assert HasEmail(Users, "u", Root, "mail");
    assert FindByEmail(s.users, Root, "mail") == Some("u");
  }

  lemma SecondEnabled(cfg: Config, s: State)
    requires SignedA(cfg, s)
    ensures Enabled(s, SecondLogin)
  {
  }

  lemma SecondStep(cfg: Config, w: World)
    requires SignedA(cfg, w.state) && ScansOwn(w.state.cache, "root", "u")
    ensures
      var w' := Advance(cfg, w, SecondLogin);
      && w'.log == w.log + [w'.log[|w.log|]] && Revokes(w'.log[|w.log|].result, "root", "u")
      && w'.state.users == Users && w'.state.now == w.state.now
      && "a" in w'.state.signed && w'.state.signed["a"] == w.state.signed["a"]
      && A !in w'.state.cache
      && (BlackA in w'.state.cache ==> (A in w.state.cache || BlackA in w.state.cache))
      && (A in w.state.cache ==> BlackA in w'.state.cache)
      && (BlackA in w'.state.cache && BlackA !in w.state.cache ==> w'.state.cache[BlackA].expires == w.state.now + BlacklistTtl(cfg))
      && (forall k :: k in w'.state.cache && k.Token? && k.client != "root" ==> k in w.state.cache)
  {
    hide Decide, InvalidateRows, BlacklistUser, ClearUser, ScansOwn;
    SecondPlan(w.state, SecondLogin);
    RevocationIsOwn(w.state.cache, "root", "u", w.state.now + BlacklistTtl(cfg));
  }

  lemma SecondOrderly(cfg: Config, es: seq<Event>)
    requires Orderly(cfg, 0, es) && PlainEvents(es) && SignedA(cfg, Run(cfg, 0, es).state)
    ensures Orderly(cfg, 0, es + [SecondLogin]) && PlainEvents(es + [SecondLogin])
    ensures
      var w := Run(cfg, 0, es);
      Run(cfg, 0, es + [SecondLogin]) == Advance(cfg, w, SecondLogin) && ScansOwn(w.state.cache, "root", "u")
  {
    hide Run, Orderly, Advance, Enabled, Decide, ScansOwn, PlainEvents;
    var s := Run(cfg, 0, es).state;
    assert PlainEvent(SecondLogin) by { assert GlobFree("v"); }
    SecondEnabled(cfg, s);
    SecondPlan(s, SecondLogin);
    Extend(cfg, es, SecondLogin);
  }

  lemma FirstCacheScans(cfg: Config)
    ensures ScansOwn(FirstCache(cfg), "root", "u")
  {
    assert Plain("root") && Plain("u") && ColonFree("a") && ColonFree("r");
    ColonFreeCodesScanOwn(FirstCache(cfg), "root", "u");
  }

  /** Revocation does not cross client codes: "a" is refused under its own and let through under "c". */
  lemma RevokedButAcceptedElsewhere(cfg: Config)
    requires Usable(cfg)
    ensures
      var es := [SetUp, FirstLogin, SecondLogin];
      var w := Run(cfg, 0, es);
      && Orderly(cfg, 0, es) && IssuedAt(w.log, 1, "root", "u", "a") && RevokedAfter(w.log, 1, "root", "u")
      && !Accepts(w.state, "root", "a", "ip") && Accepts(w.state, "c", "a", "ip")
  {
    hide Run, Legal, Orderly, Step, Decide, ScansOwn, Advance, Enabled, RevokesOwn;
    SecondEnabled(cfg, AfterFirstLogin(cfg));
    Third(cfg, SecondLogin);
    FirstCacheScans(cfg);
    SecondStep(cfg, Run(cfg, 0, [SetUp, FirstLogin]));
    var w := Run(cfg, 0, [SetUp, FirstLogin, SecondLogin]);
    assert Revokes(w.log[2].result, "root", "u");
    assert RootUser(w.state, "u") && Token("c", "u", Blacklist, "a") !in w.state.cache;
  }

  lemma RevokedHasBlackA(cfg: Config)
    ensures BlackA in RevokeSessions(cfg, AfterFirstLogin(cfg), Root, "u").cache
  {
    hide BlacklistUser, ClearUser, ScansOwn, InvalidateRows;
    FirstCacheScans(cfg);
    RevocationIsOwn(FirstCache(cfg), "root", "u", BlacklistTtl(cfg));
    assert BlackA in OwnBlacklistKeys(FirstCache(cfg), "root", "u") by {
      assert A in FirstCache(cfg);
    }
  }

  lemma BlackAIsRefused(cfg: Config, s: State)
    requires BlackA in s.cache
    ensures !Accepts(GenerateTokens(cfg, s, Root, "u", "ip", "a", "q"), "root", "a", "ip")
  {
  }

  /**
   * What fresh tokens are for: `sign` is a function of the user and the second, so a second login in
   * the same second signs the same string, blacklists it, and answers with a token that is refused.
   */
  lemma SameTokenTwice(cfg: Config)
    ensures
      var n := Step(cfg, AfterFirstLogin(cfg), SameSecondLogin);
      && !Enabled(AfterFirstLogin(cfg), SameSecondLogin)
      && n.result == Issued(ByLogin, "root", "u", "a", Some("q")) && !Accepts(n.state, "root", "a", "ip")
  {
    hide Decide, RevokeSessions, GenerateTokens, Accepts;
    var s := AfterFirstLogin(cfg);
    assert s.(users := Users) == s;
    SecondPlan(s, SameSecondLogin);
    RevokedHasBlackA(cfg);
    BlackAIsRefused(cfg, RevokeSessions(cfg, s, Root, "u"));
  }

  // ---- Rotation and theft handling ----------------------------------------------------------

  lemma RotationStep(cfg: Config)
    ensures
      var s := AfterFirstLogin(cfg);
      var s1 := s.(rows := InvalidateRow(s.rows, RowId(Root, "r")));
      Enabled(s, Rotation) && Step(cfg, s, Rotation)
        == Next(GenerateTokens(cfg, s1, Root, "u", "ip", "b", "q"), Issued(ByRotation, "root", "u", "b", Some("q")), None)
  {
    hide GenerateTokens, InvalidateRow;
  }

  lemma CachedAccepts(s: State, token: string)
    requires token in s.signed && s.signed[token].user == "u" && JwtLive(s.now, s.signed[token].exp)
    requires Token("root", "u", Access, token) in s.cache && Token("root", "u", Blacklist, token) !in s.cache
    ensures Accepts(s, "root", token, "ip")
  {
  }

  lemma RotatedAccepts(cfg: Config, s: State)
    requires Usable(cfg) && s.now == 0 && s.cache == FirstCache(cfg) && s.signed == AfterFirstLogin(cfg).signed
    ensures
      var s' := GenerateTokens(cfg, s, Root, "u", "ip", "b", "q");
      Accepts(s', "root", "a", "ip") && Accepts(s', "root", "b", "ip")
  {
    hide Accepts;
    assert A in FirstCache(cfg) && BlackA !in FirstCache(cfg) && Token("root", "u", Blacklist, "b") !in FirstCache(cfg);
    var s' := GenerateTokens(cfg, s, Root, "u", "ip", "b", "q");
    CachedAccepts(s', "a");
    CachedAccepts(s', "b");
  }

  /** Two live tokens after one rotation. */
  lemma TwoLiveAfterRotation(cfg: Config)
    requires Usable(cfg)
    ensures
      var es := [SetUp, FirstLogin, Rotation];
      var w := Run(cfg, 0, es);
      && Orderly(cfg, 0, es) && IssuedAt(w.log, 1, "root", "u", "a") && IssuedAt(w.log, 2, "root", "u", "b")
      && Accepts(w.state, "root", "a", "ip") && Accepts(w.state, "root", "b", "ip")
  {
    hide Run, Legal, Orderly, Step, Decide, InvalidateRow, RevokesOwn, Enabled, GenerateTokens, Accepts;
    var s := AfterFirstLogin(cfg);
    RotationStep(cfg);
    RotatedAccepts(cfg, s.(rows := InvalidateRow(s.rows, RowId(Root, "r"))));
    assert PlainEvent(Rotation);
    Third(cfg, Rotation);
  }

  lemma FailedAlertStep(cfg: Config)
    ensures
      var s := AfterFirstLogin(cfg);
      Enabled(s, FailedAlert) && Step(cfg, s, FailedAlert) == Next(HandleTheft(s, "u", "elsewhere"), Rejected, Some("u"))
  {
    hide HandleTheft;
    assert R in FirstCache(cfg);
  }

  lemma AfterTheft(cfg: Config)
    ensures
      var s := HandleTheft(AfterFirstLogin(cfg), "u", "elsewhere");
      HandlerAccepts(s, "root", "u", "r", "ip", true) && !DbAccepts(s, "u", "r") && RootUser(s, "u")
  {
    assert R in FirstCache(cfg);
  }

  /**
   * A refresh from another address whose alert throws invalidates the row and issues nothing; from
   * the address of the grant the handler still takes the token the database refuses.
   */
  lemma CachedAfterTheft(cfg: Config)
    ensures
      var es := [SetUp, FirstLogin, FailedAlert];
      var w := Run(cfg, 0, es);
      && Orderly(cfg, 0, es) && RootTokensOnly(w.log) && |w.log| == 3
      && GrantsRefresh(w.log[1], "u", "r") && IpOf(w.log[1].event) == "ip" && RootUser(w.state, "u") && w.log[2].result.Rejected?
      && HandlerAccepts(w.state, "root", "u", "r", "ip", true) && !DbAccepts(w.state, "u", "r")
  {
    hide Run, Legal, Orderly, Step, Decide, HandleTheft, HandlerAccepts, DbAccepts, RevokesOwn, Enabled;
    FailedAlertStep(cfg);
    AfterTheft(cfg);
    assert PlainEvent(FailedAlert);
    Third(cfg, FailedAlert);
  }

  // ---- Codes and tokens that keys and patterns read differently -----------------------------

  lemma OneOpening(s: string)
    requires "client:ab" <= s
    ensures !("client:root:" <= s) && !("client:a[b]:" <= s)
  {
    assert s[7] == "client:ab"[7] && s[8] == "client:ab"[8];
    assert "client:root:"[7] == 'r' && "client:a[b]:"[8] == '[';
  }

  lemma BracketsFindNothing(m: Entries, expires: nat)
    requires forall k :: k in m ==> k.Token? && k.client in {"root", "a[b]"}
    ensures BlacklistUser(m, "a[b]", "u", expires) == m && forall k :: k in m ==> !Hits("a[b]", "u", Access, k)
  {
    forall k | k in m
      ensures !Hits("a[b]", "u", Access, k)
    {
      CodeOpensKey(k);
      assert ClientPrefix("root") + ":" == "client:root:" && ClientPrefix("a[b]") + ":" == "client:a[b]:";
      if Hits("a[b]", "u", Access, k) {
        BracketsMissTheirOwn("u", Access, KeyString(k));
        OneOpening(KeyString(k));
      }
    }
    hide Hits;
    assert BlacklistKeysOf(m, "a[b]", "u") == {};
  }

  /** A state in which "r" is granted and nothing is cached for it under the code `a[b]`. */
  predicate BracketReady(s: State) {
    && s.users == Users && s.now == 0 && s.rows == map[RowId(Root, "r") := Row("u", true, "ip", AddMinutes(0, RefreshRowMinutes))]
    && (forall k :: k in s.cache ==> WellFormed(k) && k.Token? && k.client in {"root", "a[b]"})
    && Token("a[b]", "u", Refresh, "r") !in s.cache
  }

  lemma BracketStep(cfg: Config, s: State, e: Event)
    requires BracketReady(s) && e in {BracketRefresh, BracketRefreshAgain} && e.access !in s.signed
    ensures
      var k := Token("a[b]", "u", Access, e.access);
      && Enabled(s, e) && Decide(s, e) == Reissue(false, "a[b]", "u", "ip", e.access)
      && Step(cfg, s, e) == Next(s.(cache := s.cache[k := Entry(Session("u", "ip"), cfg.accessTokenCacheExpiresIn)],
                                    signed := s.signed[e.access := Claims("u", cfg.accessTokenExpiresIn)]),
                                 Issued(ByRefresh, "a[b]", "u", e.access, None), None)
  {
    assert ColonFree("u") && ColonFree("r");
    hide BlacklistUser, Found;
    FoundIsFetch(s.cache, Token("a[b]", "u", Refresh, "r"));
    BracketsFindNothing(s.cache, BlacklistTtl(cfg));
  }

  lemma BracketStates(cfg: Config)
    ensures
      var s1 := AfterFirstLogin(cfg);
      var s2 := Step(cfg, s1, BracketRefresh).state;
      && BracketReady(s1) && BracketReady(s2) && "b" !in s1.signed && "d" !in s2.signed
  {
    assert ColonFree("u") && ColonFree("r") && ColonFree("a") && ColonFree("b");
    hide Step;
    BracketStep(cfg, AfterFirstLogin(cfg), BracketRefresh);
  }

  /**
   * Orderly runs are needed: under the code `a[b]` the second refresh finds no key of its own to
   * blacklist, and both tokens stay live.
   */
  lemma TwoLiveUnderBrackets(cfg: Config)
    requires Usable(cfg)
    ensures
      var es := [SetUp, FirstLogin, BracketRefresh, BracketRefreshAgain];
      var w := Run(cfg, 0, es);
      && Legal(cfg, 0, es) && !Orderly(cfg, 0, es)
      && IssuedAt(w.log, 2, "a[b]", "u", "b") && IssuedAt(w.log, 3, "a[b]", "u", "d") && RevokedAfter(w.log, 2, "a[b]", "u")
      && Accepts(w.state, "a[b]", "b", "ip") && Accepts(w.state, "a[b]", "d", "ip")
  {
    hide Run, Legal, Orderly, Step, Decide, RevokesOwn, Enabled, BracketReady;
    var es3, e := [SetUp, FirstLogin, BracketRefresh], BracketRefreshAgain;
    var s1 := AfterFirstLogin(cfg);
    BracketStates(cfg);
    BracketStep(cfg, s1, BracketRefresh);
    Third(cfg, BracketRefresh);
    var w3 := Run(cfg, 0, es3);
    BracketStep(cfg, w3.state, e);
    RunOneMore(cfg, 0, es3, e);
    assert es3 + [e] == [SetUp, FirstLogin, BracketRefresh, BracketRefreshAgain];
    BracketsMissTheFirst(w3.state);
    var w := Run(cfg, 0, es3 + [e]);
    assert Revokes(w.log[3].result, "a[b]", "u");
    BothAccepted(w.state);
  }

  lemma BracketsMissTheFirst(s: State)
    requires BracketReady(s) && Token("a[b]", "u", Access, "b") in s.cache
    ensures !RevokesOwn(s, Reissue(false, "a[b]", "u", "ip", "d"))
  {
    hide Hits;
    BracketsFindNothing(s.cache, 0);
    assert Belongs(Token("a[b]", "u", Access, "b"), "a[b]", "u", Access);
  }

  lemma BothAccepted(s: State)
    requires forall t :: t in {"b", "d"} ==>
      && t in s.signed && s.signed[t].user == "u" && JwtLive(s.now, s.signed[t].exp)
      && Token("a[b]", "u", Access, t) in s.cache && Token("a[b]", "u", Blacklist, t) !in s.cache
    ensures Accepts(s, "a[b]", "b", "ip") && Accepts(s, "a[b]", "d", "ip")
  {
    assert "b" in {"b", "d"} && "d" in {"b", "d"};
  }

  lemma SpellingStep(cfg: Config)
    requires Usable(cfg)
    ensures
      var s := AfterFirstLogin(cfg);
      var entry := Entry(Session("u", "ip"), cfg.refreshTokenCacheExpiresIn);
      && Enabled(s, SpellingCheck) && Decide(s, SpellingCheck).Recache?
      && Step(cfg, s, SpellingCheck).alarm == None && !Step(cfg, s, SpellingCheck).result.Issued?
      && RootUser(Step(cfg, s, SpellingCheck).state, "u")
      && Token(SpellingCode, "u", Refresh, "r") in Step(cfg, s, SpellingCheck).state.cache
      && Step(cfg, s, SpellingCheck).state.cache[Token(SpellingCode, "u", Refresh, "r")] == entry
  {
    assert IsValidRootRow(AfterFirstLogin(cfg).rows, "r", "u");
    assert SomeValidRefresh(AfterFirstLogin(cfg).rows, "u") == Some("r");
  }

  lemma SpellingParts()
    ensures
      var mid := ":user:" + "u" + ":token:refresh:";
      SpellingCode == "root" + (mid + "x") && SpellingToken == "x" + mid + "r"
  {
  }

  lemma SpellingKeyTrespasses()
    ensures SameString(Token(SpellingCode, "u", Refresh, "r"), Token("root", "u", Refresh, SpellingToken))
    ensures Trespasses(Token(SpellingCode, "u", Refresh, "r"), "root", "u", Refresh)
  {
    var mid := ":user:" + "u" + ":token:refresh:";
    SpellingParts();
    hide KeyString, KindPrefix;
    SpelledKey("root", "u", "x", "r");
    RefreshPrefix("root", "u");
    CodeGoesOn("root", mid, "x");
  }

  lemma CodeGoesOn(client: string, mid: string, x: string)
    ensures ClientPrefix(client) + mid <= ClientPrefix(client + (mid + x)) + ":"
  {
    assert ClientPrefix(client + (mid + x)) + ":" == (ClientPrefix(client) + mid) + (x + ":");
  }

  /**
   * Colons in a presented token: after a check under a code that runs through the user's own prefix,
   * the handler takes a token that was never granted.
   */
  lemma SpelledTokenAccepted(cfg: Config)
    requires Usable(cfg)
    ensures
      var es := [SetUp, FirstLogin, SpellingCheck];
      var w := Run(cfg, 0, es);
      && Orderly(cfg, 0, es) && RootTokensOnly(w.log) && NothingBypasses(w.log) && RootUser(w.state, "u")
      && !Granted(w.log, "u", SpellingToken)
      && HandlerAccepts(w.state, "root", "u", SpellingToken, "ip", true) && !DbAccepts(w.state, "u", SpellingToken)
  {
    hide Run, Legal, Orderly, Step, Decide, RevokesOwn, Enabled, HandlerAccepts, DbAccepts, Trespasses, SameString;
    SpellingStep(cfg);
    NoRevocation(AfterFirstLogin(cfg), Decide(AfterFirstLogin(cfg), SpellingCheck));
    Third(cfg, SpellingCheck);
    var w := Run(cfg, 0, [SetUp, FirstLogin, SpellingCheck]);
    assert SpellingToken != "r";
    assert !Granted(w.log, "u", SpellingToken);
    UngrantedAcceptedWhen(cfg, 0, [SetUp, FirstLogin, SpellingCheck], "root", "u", SpellingToken, "ip", true);
    SpellingKeyTrespasses();
    var j := Token(SpellingCode, "u", Refresh, "r");
    assert Spelled(w.state.cache, j, Token("root", "u", Refresh, SpellingToken)) && Opens(w.state.cache[j], "u", "ip", true);
  }

  lemma NoRevocation(s: State, p: Plan)
    requires p.Recache?
    ensures RevokesOwn(s, p)
  {
  }
}
