/**
 * What the access-token invariant means for requests, over every orderly run: a legal one in which
 * SCAN finds exactly the keys of the user a login or refresh revokes.
 */
module SessionTheorems {
  import opened AccessTokens
  import opened AuthConfig
  import opened CacheKeys
  import opened Options
  import opened Sessions

  /** The token the i-th event issued is still within its JWT lifetime. */
  predicate Unexpired(cfg: Config, w: World, i: nat)
    requires i < |w.log|
  {
    JwtLive(w.state.now, JwtExp(cfg, w.log[i].at))
  }

  lemma IssueFacts(cfg: Config, start: nat, es: seq<Event>, i: nat, client: string, user: string, access: string, other: string)
    requires Orderly(cfg, start, es) && TtlsCoverJwt(cfg)
    requires IssuedAt(Run(cfg, start, es).log, i, client, user, access)
    ensures
      var w := Run(cfg, start, es);
      && access in w.state.signed && w.state.signed[access] == Claims(user, JwtExp(cfg, w.log[i].at))
      && (Unexpired(cfg, w, i) ==>
            Stands(w.state.cache, Ticket(other, user, access, JwtExp(cfg, w.log[i].at) * 1000),
                   ShownIn(w.log, other, access), RevokedAfterShown(w.log, other, user, access)))
  {
    hide Run, Orderly, Advance, Stands;
    var w := Run(cfg, start, es);
    RunInv(cfg, start, es);
    assert SignedIn(cfg, w.state, w.log[i]) && CoveredAt(cfg, w, i, other);
    JwtLiveInMs(w.state.now, JwtExp(cfg, w.log[i].at));
  }

  /**
   * Under any client code, a request is let through iff its token is unexpired, nothing revoked the
   * user's sessions under that code after the token was shown there, and it was shown there or its
   * holder is a root user.
   */
  lemma SessionUnderAnyCode(cfg: Config, start: nat, es: seq<Event>, i: nat, client: string, user: string,
                            access: string, other: string, ip: string)
    requires Orderly(cfg, start, es) && TtlsCoverJwt(cfg)
    requires IssuedAt(Run(cfg, start, es).log, i, client, user, access)
    ensures
      var w := Run(cfg, start, es);
      Accepts(w.state, other, access, ip) <==>
        && Unexpired(cfg, w, i) && !RevokedAfterShown(w.log, other, user, access)
        && (ShownIn(w.log, other, access) || RootUser(w.state, user))
  {
    hide Run, Orderly, Advance, RevokedAfterShown, ShownIn;
    IssueFacts(cfg, start, es, i, client, user, access, other);
  }

  lemma ShownUnderItsCode(cfg: Config, start: nat, es: seq<Event>, i: nat, client: string, user: string, access: string)
    requires Orderly(cfg, start, es) && TtlsCoverJwt(cfg)
    requires IssuedAt(Run(cfg, start, es).log, i, client, user, access)
    ensures
      var w := Run(cfg, start, es);
      ShownIn(w.log, client, access) && (RevokedAfterShown(w.log, client, user, access) <==> RevokedAfter(w.log, i, client, user))
  {
    hide Run, Orderly, Advance;
    RunInv(cfg, start, es);
    ShownSinceIssue(cfg, Run(cfg, start, es), i, client, user, access);
  }

  /** TTL coverage: an issued, unexpired token is cached or blacklisted at least until it expires. */
  lemma TtlCoverage(cfg: Config, start: nat, es: seq<Event>, i: nat, client: string, user: string, access: string)
    requires Orderly(cfg, start, es) && TtlsCoverJwt(cfg)
    requires IssuedAt(Run(cfg, start, es).log, i, client, user, access)
    requires Unexpired(cfg, Run(cfg, start, es), i)
    ensures
      var w := Run(cfg, start, es);
      exists kind :: (kind == Access || kind == Blacklist)
        && Token(client, user, kind, access) in w.state.cache
        && w.state.cache[Token(client, user, kind, access)].expires >= JwtExp(cfg, w.log[i].at) * 1000
  {
    hide Run, Orderly, Advance, RevokedAfter, RevokedAfterShown, ShownIn;
    IssueFacts(cfg, start, es, i, client, user, access, client);
    ShownUnderItsCode(cfg, start, es, i, client, user, access);
    var w := Run(cfg, start, es);
    var kind := if RevokedAfter(w.log, i, client, user) then Blacklist else Access;
    assert Token(client, user, kind, access) in w.state.cache;
  }

  /**
   * `validate` falls back to the database exactly for a root user's unexpired token that was never
   * shown under that code; under the code of issue, never.
   */
  lemma FallbackWhen(cfg: Config, start: nat, es: seq<Event>, i: nat, client: string, user: string, access: string,
                     other: string, ip: string)
    requires Orderly(cfg, start, es) && TtlsCoverJwt(cfg)
    requires IssuedAt(Run(cfg, start, es).log, i, client, user, access)
    ensures
      var w := Run(cfg, start, es);
      && (Decide(w.state, Validate(other, access, ip)).Recache? <==>
            Unexpired(cfg, w, i) && !ShownIn(w.log, other, access) && RootUser(w.state, user))
      && !Decide(w.state, Validate(client, access, ip)).Recache?
  {
    hide Run, Orderly, Advance, RevokedAfter, RevokedAfterShown, ShownIn;
    IssueFacts(cfg, start, es, i, client, user, access, other);
    IssueFacts(cfg, start, es, i, client, user, access, client);
    ShownUnderItsCode(cfg, start, es, i, client, user, access);
    RevokedMeansShown(Run(cfg, start, es).log, other, user, access);
  }

  /**
   * Single live session: under the client code of issue, a request is let through iff the token is
   * unexpired and no later event revoked that user's sessions.
   */
  lemma SingleSession(cfg: Config, start: nat, es: seq<Event>, i: nat, client: string, user: string, access: string, ip: string)
    requires Orderly(cfg, start, es) && TtlsCoverJwt(cfg)
    requires IssuedAt(Run(cfg, start, es).log, i, client, user, access)
    ensures
      var w := Run(cfg, start, es);
      Accepts(w.state, client, access, ip) <==> Unexpired(cfg, w, i) && !RevokedAfter(w.log, i, client, user)
  {
    hide Run, Orderly, Advance, Accepts, RevokedAfter, RevokedAfterShown, ShownIn;
    SessionUnderAnyCode(cfg, start, es, i, client, user, access, client, ip);
    ShownUnderItsCode(cfg, start, es, i, client, user, access);
  }

  /** Revocation stays under its code: one that did not follow a showing under `other` has no effect there. */
  lemma OtherCodeIgnoresRevocation(cfg: Config, start: nat, es: seq<Event>, i: nat, client: string, user: string,
                                   access: string, other: string, ip: string)
    requires Orderly(cfg, start, es) && TtlsCoverJwt(cfg)
    requires IssuedAt(Run(cfg, start, es).log, i, client, user, access)
    requires RootUser(Run(cfg, start, es).state, user) && !RevokedAfterShown(Run(cfg, start, es).log, other, user, access)
    ensures Accepts(Run(cfg, start, es).state, other, access, ip) <==> Unexpired(cfg, Run(cfg, start, es), i)
  {
    hide Run, Orderly, Advance, Accepts, RevokedAfterShown, ShownIn;
    SessionUnderAnyCode(cfg, start, es, i, client, user, access, other, ip);
  }

  // ---- What a request is answered -----------------------------------------------------------

  ghost predicate IssuedSomewhere(log: seq<Obs>, access: string) {
    exists i :: 0 <= i < |log| && log[i].result.Issued? && log[i].result.access == access
  }

  /** Only `sign` makes tokens, and every signed token was handed out. */
  lemma {:induction false} SignedWereIssued(cfg: Config, start: nat, es: seq<Event>, access: string)
    requires Legal(cfg, start, es) && access in Run(cfg, start, es).state.signed
    ensures IssuedSomewhere(Run(cfg, start, es).log, access)
  {
    hide Apply, Decide, Sound;
    if es != [] {
      var before, e := es[..|es| - 1], es[|es| - 1];
      var w, w' := Run(cfg, start, before), Run(cfg, start, es);
      DecideSound(w.state, e);
      ApplySigns(cfg, w.state, Decide(w.state, e));
      if access in w.state.signed {
        SignedWereIssued(cfg, start, before, access);
        var i :| 0 <= i < |w.log| && w.log[i].result.Issued? && w.log[i].result.access == access;
        assert w'.log[i] == w.log[i];
      } else {
        assert w'.log[|w.log|].result.access == access;
      }
    }
  }

  /** A check answers with the user the token was signed for, or refuses and changes nothing. */
  lemma CheckAnswers(cfg: Config, s: State, e: Event)
    requires e.Validate? || e.VerifyToken?
    ensures
      var n := Step(cfg, s, e);
      && (n.result.Accepted? || n == Next(s, Rejected, None)) && n.alarm == None
      && (n.result.Accepted? ==> e.token in s.signed && n.result == Accepted(s.signed[e.token].user))
      && n.state == s.(cache := n.state.cache)
  {
  }

  /**
   * What `validate` answers: the user the token was issued to, under exactly the condition of
   * `SessionUnderAnyCode`, and otherwise a refusal that changes nothing.
   */
  lemma ValidateAnswers(cfg: Config, start: nat, es: seq<Event>, i: nat, client: string, user: string, access: string, other: string, ip: string)
    requires Orderly(cfg, start, es) && TtlsCoverJwt(cfg)
    requires IssuedAt(Run(cfg, start, es).log, i, client, user, access)
    ensures
      var w := Run(cfg, start, es);
      var n := Step(cfg, w.state, Validate(other, access, ip));
      if Unexpired(cfg, w, i) && !RevokedAfterShown(w.log, other, user, access)
         && (ShownIn(w.log, other, access) || RootUser(w.state, user))
      then n.result == Accepted(user) && n.state == w.state.(cache := n.state.cache)
      else n == Next(w.state, Rejected, None)
  {
    var s := Run(cfg, start, es).state;
    SessionUnderAnyCode(cfg, start, es, i, client, user, access, other, ip);
    AcceptsIsTheStep(cfg, s, other, access, ip);
    CheckAnswers(cfg, s, Validate(other, access, ip));
    IssueFacts(cfg, start, es, i, client, user, access, other);
    hide Run, Orderly, Step, Accepts, RevokedAfterShown, ShownIn, Stands, Unexpired;
  }

  /** A token no event issued is refused everywhere. */
  lemma UnissuedRefused(cfg: Config, start: nat, es: seq<Event>, access: string, other: string, ip: string)
    requires Legal(cfg, start, es) && !IssuedSomewhere(Run(cfg, start, es).log, access)
    ensures
      var s := Run(cfg, start, es).state;
      && Step(cfg, s, Validate(other, access, ip)) == Next(s, Rejected, None)
      && Step(cfg, s, VerifyToken(access, ip)) == Next(s, Rejected, None)
  {
    var s := Run(cfg, start, es).state;
    if access in s.signed {
      SignedWereIssued(cfg, start, es, access);
    }
    CheckAnswers(cfg, s, Validate(other, access, ip));
    CheckAnswers(cfg, s, VerifyToken(access, ip));
    hide Run, Legal, Step, IssuedSomewhere;
  }

  /** What `AuthService.verify` answers: the same under the root code, but for users of any database. */
  lemma VerifyAnswers(cfg: Config, start: nat, es: seq<Event>, i: nat, client: string, user: string, access: string, ip: string)
    requires Orderly(cfg, start, es) && TtlsCoverJwt(cfg)
    requires IssuedAt(Run(cfg, start, es).log, i, client, user, access)
    ensures
      var w := Run(cfg, start, es);
      var n := Step(cfg, w.state, VerifyToken(access, ip));
      if Unexpired(cfg, w, i) && !RevokedAfterShown(w.log, "root", user, access)
      then n.result == Accepted(user) && n.state == w.state.(cache := n.state.cache)
      else n == Next(w.state, Rejected, None)
  {
    var w := Run(cfg, start, es);
    hide Run, Orderly, Advance, RevokedAfterShown, ShownIn;
    IssueFacts(cfg, start, es, i, client, user, access, "root");
    VerifyChecks(cfg, w.state, access, ip);
    CheckAnswers(cfg, w.state, VerifyToken(access, ip));
    hide Step;
  }

  lemma VerifyChecks(cfg: Config, s: State, access: string, ip: string)
    ensures Step(cfg, s, VerifyToken(access, ip)).result.Accepted? <==>
      access in s.signed && JwtLive(s.now, s.signed[access].exp) && Token("root", s.signed[access].user, Blacklist, access) !in s.cache
  {
  }

  // ---- The latest token ---------------------------------------------------------------------

  ghost predicate IssueAfter(log: seq<Obs>, i: nat, client: string, user: string) {
    exists j :: i < j < |log| && log[j].result.Issued? && log[j].result.client == client && log[j].result.user == user
  }

  ghost predicate LoginAfter(log: seq<Obs>, i: nat, client: string, user: string) {
    exists j :: i < j < |log| && LoginAttempt(log[j].result, client, user)
  }

  ghost predicate RotatedAfter(log: seq<Obs>, i: nat, client: string, user: string) {
    exists j :: i < j < |log| && RotatedTo(log[j].result, client, user)
  }

  predicate RotatedTo(r: Result, client: string, user: string) {
    r.Issued? && r.how == ByRotation && r.client == client && r.user == user
  }

  lemma {:induction false} LogFollowsEvents(cfg: Config, start: nat, es: seq<Event>)
    ensures
      var w := Run(cfg, start, es);
      |w.log| == |es| && forall j :: 0 <= j < |es| ==> w.log[j].event == es[j]
  {
    hide Step;
    if es != [] {
      LogFollowsEvents(cfg, start, es[..|es| - 1]);
    }
  }

  /** Later issues and login attempts are the later revocations and rotations. */
  lemma IssuesRevokeOrRotate(log: seq<Obs>, i: nat, client: string, user: string)
    ensures IssueAfter(log, i, client, user) || LoginAfter(log, i, client, user)
            <==> RevokedAfter(log, i, client, user) || RotatedAfter(log, i, client, user)
  {
  }

  /**
   * "Only the latest token": let through iff unexpired, the latest one issued to that user under
   * that code, and no later login attempt, even one that threw, has followed. It fails exactly
   * where a rotation issued a token after this one, which is still live.
   */
  lemma LatestTokenOnlyWhen(cfg: Config, start: nat, es: seq<Event>, i: nat, client: string, user: string, access: string, ip: string)
    requires Orderly(cfg, start, es) && TtlsCoverJwt(cfg)
    requires IssuedAt(Run(cfg, start, es).log, i, client, user, access)
    ensures
      var w := Run(cfg, start, es);
      (Accepts(w.state, client, access, ip) <==>
        Unexpired(cfg, w, i) && !IssueAfter(w.log, i, client, user) && !LoginAfter(w.log, i, client, user))
      <==> !(Unexpired(cfg, w, i) && RotatedAfter(w.log, i, client, user) && !RevokedAfter(w.log, i, client, user))
  {
    hide Run, Orderly, Advance, Accepts, Unexpired, IssueAfter, LoginAfter, RevokedAfter, RotatedAfter;
    SingleSession(cfg, start, es, i, client, user, access, ip);
    IssuesRevokeOrRotate(Run(cfg, start, es).log, i, client, user);
  }

  /** So it holds of every token no rotation followed, whatever rotations came before or failed. */
  lemma LatestTokenOnly(cfg: Config, start: nat, es: seq<Event>, i: nat, client: string, user: string, access: string, ip: string)
    requires Orderly(cfg, start, es) && TtlsCoverJwt(cfg)
    requires IssuedAt(Run(cfg, start, es).log, i, client, user, access)
    requires !RotatedAfter(Run(cfg, start, es).log, i, client, user)
    ensures
      var w := Run(cfg, start, es);
      Accepts(w.state, client, access, ip) <==>
        Unexpired(cfg, w, i) && !IssueAfter(w.log, i, client, user) && !LoginAfter(w.log, i, client, user)
  {
    hide Run, Orderly, Advance, Accepts, Unexpired, IssueAfter, LoginAfter, RevokedAfter, RotatedAfter;
    LatestTokenOnlyWhen(cfg, start, es, i, client, user, access, ip);
  }

  /**
   * A user has two live tokens under one client code exactly when the earlier one is live and both
   * are unexpired; every token issued there since the earlier one then came from a rotation.
   */
  lemma TwoLiveTokensWhen(cfg: Config, start: nat, es: seq<Event>, i: nat, j: nat, client: string, user: string,
                          a: string, b: string, ip: string)
    requires Orderly(cfg, start, es) && TtlsCoverJwt(cfg) && i < j
    requires IssuedAt(Run(cfg, start, es).log, i, client, user, a) && IssuedAt(Run(cfg, start, es).log, j, client, user, b)
    ensures
      var w := Run(cfg, start, es);
      Accepts(w.state, client, a, ip) && Accepts(w.state, client, b, ip) <==>
        Unexpired(cfg, w, i) && Unexpired(cfg, w, j) && !RevokedAfter(w.log, i, client, user)
    ensures
      var w := Run(cfg, start, es);
      Accepts(w.state, client, a, ip) ==> RotatedTo(w.log[j].result, client, user)
  {
    hide Run, Orderly, Advance, Accepts, Unexpired;
    SingleSession(cfg, start, es, i, client, user, a, ip);
    SingleSession(cfg, start, es, j, client, user, b, ip);
  }

  /** Where no rotation follows the earlier token, a user has one live token under a client code. */
  lemma OneLiveToken(cfg: Config, start: nat, es: seq<Event>, i: nat, j: nat, client: string, user: string, a: string,
                     b: string, ip: string)
    requires Orderly(cfg, start, es) && TtlsCoverJwt(cfg)
    requires IssuedAt(Run(cfg, start, es).log, i, client, user, a) && IssuedAt(Run(cfg, start, es).log, j, client, user, b)
    requires !RotatedAfter(Run(cfg, start, es).log, if i < j then i else j, client, user)
    requires Accepts(Run(cfg, start, es).state, client, a, ip) && Accepts(Run(cfg, start, es).state, client, b, ip)
    ensures a == b
  {
    hide Run, Orderly, Advance, Accepts;
    if i < j {
      TwoLiveTokensWhen(cfg, start, es, i, j, client, user, a, b, ip);
    } else if j < i {
      TwoLiveTokensWhen(cfg, start, es, j, i, client, user, b, a, ip);
    }
  }

  lemma RunOneMore(cfg: Config, start: nat, es: seq<Event>, e: Event)
    ensures Run(cfg, start, es + [e]) == Advance(cfg, Run(cfg, start, es), e)
    ensures Legal(cfg, start, es + [e]) <==> Legal(cfg, start, es) && Enabled(Run(cfg, start, es).state, e)
    ensures
      var s := Run(cfg, start, es).state;
      Orderly(cfg, start, es + [e]) <==> Orderly(cfg, start, es) && Enabled(s, e) && RevokesOwn(s, Decide(s, e))
  {
    hide Step, Enabled, Decide, RevokesOwn;
    assert (es + [e])[..|es|] == es;
  }

  /** Rotation blacklists nothing: a token live before it stays live beside the new one. */
  lemma RotationAddsASession(cfg: Config, start: nat, es: seq<Event>, i: nat, user: string, first: string, e: Event, ip: string)
    requires Orderly(cfg, start, es + [e]) && TtlsCoverJwt(cfg) && cfg.accessTokenExpiresIn > 0 && e.Rotate?
    requires IssuedAt(Run(cfg, start, es).log, i, "root", user, first)
    requires Accepts(Run(cfg, start, es).state, "root", first, ip)
    requires IssuedAt(Run(cfg, start, es + [e]).log, |es|, "root", user, e.access)
    ensures first != e.access
    ensures Accepts(Run(cfg, start, es + [e]).state, "root", first, ip)
    ensures Accepts(Run(cfg, start, es + [e]).state, "root", e.access, ip)
  {
    var w, w' := Run(cfg, start, es), Run(cfg, start, es + [e]);
    RotationOutcome(cfg, start, es, e);
    RunOneMore(cfg, start, es, e);
    hide Run, Orderly, Advance, Accepts, RevokedAfter;
    SingleSession(cfg, start, es, i, "root", user, first, ip);
    SingleSession(cfg, start, es + [e], i, "root", user, first, ip);
    SingleSession(cfg, start, es + [e], |es|, "root", user, e.access, ip);
    RevokedAfterOneMore(w.log, w'.log[|es|], i, "root", user);
    NothingAfterLast(w'.log, |es|, "root", user);
    RunInv(cfg, start, es + [e]);
  }

  lemma NothingAfterLast(log: seq<Obs>, i: nat, client: string, user: string)
    requires i + 1 == |log|
    ensures !RevokedAfter(log, i, client, user)
  {
  }

  /** A successful rotation moves no clock and counts as no revocation. */
  lemma RotationOutcome(cfg: Config, start: nat, es: seq<Event>, e: Event)
    requires e.Rotate?
    ensures
      var w, w' := Run(cfg, start, es), Run(cfg, start, es + [e]);
      && |w.log| == |es| && |w'.log| == |es| + 1 && w'.log[..|es|] == w.log && w'.log == w.log + [w'.log[|es|]]
      && w'.log[|es|].at == w.state.now == w'.state.now
      && forall c, u :: !Revokes(w'.log[|es|].result, c, u)
  {
    hide Step, Legal, Orderly, Enabled, Revokes;
    RunOneMore(cfg, start, es, e);
    LogFollowsEvents(cfg, start, es);
    RotationRevokesNothing(cfg, Run(cfg, start, es).state, e);
  }

  lemma RotationRevokesNothing(cfg: Config, s: State, e: Event)
    requires e.Rotate?
    ensures Step(cfg, s, e).state.now == s.now && forall c, u :: !Revokes(Step(cfg, s, e).result, c, u)
  {
    hide InvalidateRow, InvalidateRows;
  }
}
