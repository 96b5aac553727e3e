/** Refresh rotation over whole runs: each refresh token is good for one rotation at most. */
module Rotation {
  import opened AuthConfig
  import opened Options
  import opened RefreshRows
  import opened RefreshTracking
  import opened Sessions
  import opened SessionTheorems
  import opened TokenCache

  lemma RotationNeedsValidRow(cfg: Config, s: State, e: Event)
    requires e.Rotate? && Step(cfg, s, e).result.Issued? && Enabled(s, e)
    ensures RowId(Root, e.token) in s.rows && s.rows[RowId(Root, e.token)].isValid
    ensures RowId(Root, e.token) in Step(cfg, s, e).state.rows && !Step(cfg, s, e).state.rows[RowId(Root, e.token)].isValid
  {
    hide BlacklistUser, ClearUser, Purge, InvalidateRows;
  }

  /** A refresh token passed to rotation yields new tokens at most once in any run. */
  lemma RotationSingleUse(cfg: Config, start: nat, es: seq<Event>, i: nat, j: nat)
    requires Legal(cfg, start, es) && i < j < |es|
    requires es[i].Rotate? && es[j].Rotate? && es[i].token == es[j].token
    requires |Run(cfg, start, es).log| == |es| && Run(cfg, start, es).log[i].result.Issued?
    ensures !Run(cfg, start, es).log[j].result.Issued?
  {
    hide Run, Legal, Step;
    LogAt(cfg, start, es, i);
    LogAt(cfg, start, es, j);
    PrefixLegal(cfg, start, es, j);
    EnabledAt(cfg, start, es, i);
    EnabledAt(cfg, start, es, j);
    RotationNeedsValidRow(cfg, Run(cfg, start, es[..i]).state, es[i]);
    assert es[..j][..i + 1] == es[..i + 1];
    RowsGrowOverRun(cfg, start, es[..j], i + 1);
    if Run(cfg, start, es).log[j].result.Issued? {
      RotationNeedsValidRow(cfg, Run(cfg, start, es[..j]).state, es[j]);
    }
  }

  /** What rotation does once it is settled whether the row is valid and unexpired, whose, and from which address. */
  predicate Rotated(cfg: Config, s: State, n: Next, row: Row, e: Event)
    requires e.Rotate?
  {
    if !row.isValid then n == Next(s, Rejected, None)
    else if row.expiresAt < s.now then n == Next(s.(rows := InvalidateRows(s.rows, Root, row.user)), Rejected, None)
    else if row.ip != e.ip then n == Next(HandleTheft(s, row.user, e.ip), Rejected, Some(row.user))
    else n.result == Issued(ByRotation, "root", row.user, e.access, Some(e.refresh)) && n.alarm == None
  }

  lemma RotateFollowsRow(cfg: Config, s: State, e: Event)
    requires e.Rotate?
    ensures RowId(Root, e.token) !in s.rows ==> Step(cfg, s, e) == Next(s, Rejected, None)
    ensures
      var id := RowId(Root, e.token);
      id in s.rows && RootUser(s, s.rows[id].user) ==> Rotated(cfg, s, Step(cfg, s, e), s.rows[id], e)
  {
    hide InvalidateRows, GenerateTokens, InvalidateRow;
  }

  /**
   * What a rotation is answered for a granted token, read off the history alone: new tokens for the
   * grantee exactly while nothing has invalidated the token, its 14 days are not over, and the request
   * comes from the address of the grant; any other address is theft.
   */
  lemma RotationAnswers(cfg: Config, start: nat, es: seq<Event>, g: Grant, ip: string, access: string, refresh: string)
    requires Legal(cfg, start, es) && GrantIn(Run(cfg, start, es), g)
    ensures
      var w := Run(cfg, start, es);
      var n := Step(cfg, w.state, Rotate(g.token, ip, access, refresh));
      var granted := w.log[g.i];
      if g.db.Tenant? || !RowStands(w.log, g) then n == Next(w.state, Rejected, None)
      else if AddMinutes(granted.at, RefreshRowMinutes) < w.state.now
      then n == Next(w.state.(rows := InvalidateRows(w.state.rows, Root, g.user)), Rejected, None)
      else if ip != IpOf(granted.event) then n == Next(HandleTheft(w.state, g.user, ip), Rejected, Some(g.user))
      else n.result == Issued(ByRotation, "root", g.user, access, Some(refresh)) && n.alarm == None
  {
    RunRow(cfg, start, es, g);
    hide Run, Legal, Step, RowStands, IpOf, InvalidateRows, HandleTheft;
    RotateFollowsRow(cfg, Run(cfg, start, es).state, Rotate(g.token, ip, access, refresh));
  }

  /** A token no root user was granted is refused, and nothing changes. */
  lemma UngrantedNotRotated(cfg: Config, start: nat, es: seq<Event>, token: string, ip: string, access: string, refresh: string)
    requires Legal(cfg, start, es) && forall user :: RootUser(Run(cfg, start, es).state, user) ==> !Granted(Run(cfg, start, es).log, user, token)
    ensures
      var s := Run(cfg, start, es).state;
      Step(cfg, s, Rotate(token, ip, access, refresh)) == Next(s, Rejected, None)
  {
    RunExplained(cfg, start, es);
    hide Run, Legal, Step, Granted;
    RotateFollowsRow(cfg, Run(cfg, start, es).state, Rotate(token, ip, access, refresh));
  }

  /** A refresh token is not rotated after a later login of its user, even one asking for 2FA. */
  lemma NoRotationAfterLogin(cfg: Config, start: nat, es: seq<Event>, i: nat, k: nat, j: nat, user: string, token: string)
    requires Legal(cfg, start, es) && i < k < j < |es| == |Run(cfg, start, es).log|
    requires GrantsRefresh(Run(cfg, start, es).log[i], user, token)
    requires RootUser(Run(cfg, start, es).state, user)
    requires LoginAttempt(Run(cfg, start, es).log[k].result, "root", user)
    requires es[j].Rotate? && es[j].token == token
    ensures !Run(cfg, start, es).log[j].result.Issued?
  {
    var w, e := Run(cfg, start, es[..j]), es[j];
    PrefixLegal(cfg, start, es, j);
    LogPrefix(cfg, start, es, j);
    LogAt(cfg, start, es, j);
    GranteeKnown(cfg, start, es[..j], i);
    UsersGrowOverRun(cfg, start, es, j);
    hide Run, Legal, Step, LoginAttempt;
    assert w.log[k] == Run(cfg, start, es).log[k] && w.log[i] == Run(cfg, start, es).log[i];
    assert LoginAfter(w.log, i, "root", user);
    RotationAnswers(cfg, start, es[..j], Grant(i, Root, user, token), e.ip, e.access, e.refresh);
  }
}
