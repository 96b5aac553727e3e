/**
 * Refresh rows over whole runs: at most one valid row per user and database, and rows that only
 * ever lose their validity.
 */
module RefreshRows {
  import opened AuthConfig
  import opened Sessions
  import opened SessionTheorems
  import opened TokenCache

  // ---- At most one valid row per user -------------------------------------------------------

  ghost predicate OneValid(rows: Rows) {
    forall a, b :: (a in rows && b in rows && a.db == b.db && rows[a].user == rows[b].user
                    && rows[a].isValid && rows[b].isValid) ==> a == b
  }

  /** Rows are never removed and never become valid again. */
  ghost predicate RowsGrow(rows: Rows, rows': Rows) {
    forall id :: id in rows ==>
      && id in rows' && rows'[id].user == rows[id].user && rows'[id].expiresAt == rows[id].expiresAt
      && (rows'[id].isValid ==> rows[id].isValid)
  }

  lemma InvalidateRowsGrow(rows: Rows, db: Db, user: string)
    requires OneValid(rows)
    ensures RowsGrow(rows, InvalidateRows(rows, db, user)) && OneValid(InvalidateRows(rows, db, user))
    ensures forall id :: id in InvalidateRows(rows, db, user) && id.db == db && rows[id].user == user
              ==> !InvalidateRows(rows, db, user)[id].isValid
  {
  }

  lemma AddRowGrows(rows: Rows, id: RowId, row: Row)
    requires OneValid(rows) && id !in rows
    requires forall a :: a in rows && a.db == id.db && rows[a].user == row.user ==> !rows[a].isValid
    ensures RowsGrow(rows, rows[id := row]) && OneValid(rows[id := row])
  {
  }

  lemma LoginRows(cfg: Config, s: State, db: Db, user: string, ip: string, access: string, refresh: string)
    requires OneValid(s.rows) && FreshRefresh(s, refresh)
    ensures
      var rows := Login(cfg, s, db, user, ip, access, refresh).state.rows;
      OneValid(rows) && RowsGrow(s.rows, rows)
  {
    hide BlacklistUser, ClearUser, InvalidateRows, OneValid, RowsGrow;
    InvalidateRowsGrow(s.rows, db, user);
    InvalidateRowsKeys(s.rows, db, user);
    var rows := InvalidateRows(s.rows, db, user);
    var id, row := RowId(db, refresh), Row(user, true, ip, AddMinutes(s.now, RefreshRowMinutes));
    SameUsers(s.rows, rows);
    AddRowGrows(rows, id, row);
    RowsGrowTransitive(s.rows, rows, rows[id := row]);
  }

  lemma SameUsers(rows: Rows, rows': Rows)
    requires RowsGrow(rows, rows')
    ensures forall id :: id in rows ==> id in rows' && rows'[id].user == rows[id].user
  {
  }

  lemma RowsGrowTransitive(r0: Rows, r1: Rows, r2: Rows)
    requires RowsGrow(r0, r1) && RowsGrow(r1, r2)
    ensures RowsGrow(r0, r2)
  {
  }

  lemma ReplaceRows(rows: Rows, token: string, id: RowId, row: Row)
    requires OneValid(rows) && IsValidRootRow(rows, token, row.user) && id !in rows && id.db == Root
    ensures
      var rows' := InvalidateRow(rows, RowId(Root, token))[id := row];
      OneValid(rows') && RowsGrow(rows, rows')
  {
    AddRowGrows(InvalidateRow(rows, RowId(Root, token)), id, row);
  }

  lemma ApplyRows(cfg: Config, s: State, p: Plan)
    requires OneValid(s.rows) && Sound(s, p)
    ensures OneValid(Apply(cfg, s, p).state.rows) && RowsGrow(s.rows, Apply(cfg, s, p).state.rows)
  {
    hide Login, BlacklistUser, Purge, InvalidateRows, UsersGrow;
    match p {
      case LogIn(users, db, user, ip, access, refresh) => LoginRows(cfg, s.(users := users), db, user, ip, access, refresh);
      case Reissue(theft, client, user, ip, access) => InvalidateRowsGrow(s.rows, Root, user);
      case Alarm(user, ip) => InvalidateRowsGrow(s.rows, Root, user);
      case DropRows(user) => InvalidateRowsGrow(s.rows, Root, user);
      case Replace(token, user, ip, access, refresh) =>
        ReplaceRows(s.rows, token, RowId(Root, refresh), Row(user, true, ip, AddMinutes(s.now, RefreshRowMinutes)));
      case _ =>
    }
  }

  lemma InvalidateRowsKeys(rows: Rows, db: Db, user: string)
    ensures InvalidateRows(rows, db, user).Keys == rows.Keys
  {
  }

  /** In every reachable state each user has at most one valid refresh row per database. */
  lemma {:induction false} AtMostOneValidRow(cfg: Config, start: nat, es: seq<Event>)
    requires Legal(cfg, start, es)
    ensures OneValid(Run(cfg, start, es).state.rows)
  {
    hide Apply, Decide, Sound;
    if es != [] {
      var s, e := Run(cfg, start, es[..|es| - 1]).state, es[|es| - 1];
      AtMostOneValidRow(cfg, start, es[..|es| - 1]);
      DecideSound(s, e);
      ApplyRows(cfg, s, Decide(s, e));
    }
  }

  // ---- Prefixes of a run --------------------------------------------------------------------

  lemma {:induction false} PrefixLegal(cfg: Config, start: nat, es: seq<Event>, k: nat)
    requires Legal(cfg, start, es) && k <= |es|
    ensures Legal(cfg, start, es[..k])
  {
    if k < |es| {
      assert es[..|es| - 1][..k] == es[..k];
      PrefixLegal(cfg, start, es[..|es| - 1], k);
    } else {
      assert es[..k] == es;
    }
  }

  lemma {:induction false} RowsGrowOverRun(cfg: Config, start: nat, es: seq<Event>, k: nat)
    requires Legal(cfg, start, es) && k <= |es|
    ensures RowsGrow(Run(cfg, start, es[..k]).state.rows, Run(cfg, start, es).state.rows)
  {
    hide Apply, Decide, Sound;
    if k < |es| {
      var before, e := es[..|es| - 1], es[|es| - 1];
      assert before[..k] == es[..k];
      RowsGrowOverRun(cfg, start, before, k);
      AtMostOneValidRow(cfg, start, before);
      var s := Run(cfg, start, before).state;
      DecideSound(s, e);
      ApplyRows(cfg, s, Decide(s, e));
    } else {
      assert es[..k] == es;
    }
  }

  /** The j-th log entry is what the j-th event did in the state it met. */
  lemma {:induction false} LogAt(cfg: Config, start: nat, es: seq<Event>, j: nat)
    requires j < |es|
    ensures
      var w := Run(cfg, start, es);
      var s := Run(cfg, start, es[..j]).state;
      var n := Step(cfg, s, es[j]);
      |w.log| == |es| && w.log[j] == Obs(es[j], n.result, n.alarm, s.now) && Run(cfg, start, es[..j + 1]).state == n.state
  {
    hide Step;
    LogFollowsEvents(cfg, start, es);
    if j < |es| - 1 {
      var before := es[..|es| - 1];
      assert before[..j] == es[..j] && before[..j + 1] == es[..j + 1];
      LogAt(cfg, start, before, j);
    } else {
      assert es[..j + 1] == es;
    }
  }

  /** The log of a prefix is the prefix of the log. */
  lemma {:induction false} LogPrefix(cfg: Config, start: nat, es: seq<Event>, j: nat)
    requires j <= |es|
    ensures |Run(cfg, start, es).log| == |es| && Run(cfg, start, es).log[..j] == Run(cfg, start, es[..j]).log
  {
    hide Step;
    LogFollowsEvents(cfg, start, es);
    if j < |es| {
      var before := es[..|es| - 1];
      assert before[..j] == es[..j];
      LogPrefix(cfg, start, before, j);
    } else {
      assert es[..j] == es;
      LogFollowsEvents(cfg, start, es[..j]);
    }
  }

  lemma EnabledAt(cfg: Config, start: nat, es: seq<Event>, j: nat)
    requires Legal(cfg, start, es) && j < |es|
    ensures Enabled(Run(cfg, start, es[..j]).state, es[j])
  {
    PrefixLegal(cfg, start, es, j + 1);
    assert es[..j + 1][..j] == es[..j];
  }
}
