/** Password reset: one pending token per user, valid for 30 minutes, used up by a confirm. */
module PasswordReset {
  import opened Options

  const TokenMinutes := 30

  /** A user row; `inClient` tells whether its client relation resolves. */
  datatype User = User(email: string, inClient: bool, password: string, token: Option<string>, expires: Option<int>)

  datatype State = State(now: int, users: map<string, User>)

  datatype Event =
    | Tick(to: int)
    | AddUser(id: string, email: string, inClient: bool, password: string)
    | Request(id: string, email: string, token: string)
    | Confirm(given: Option<string>, first: string, password: string)  // a request may leave the token out

  predicate HasEmail(s: State, id: string, email: string) {
    id in s.users && s.users[id].email == email
  }

  ghost function FindByEmail(s: State, email: string): (r: Option<string>)
    ensures r.Some? ==> HasEmail(s, r.value, email)
    ensures r.None? ==> forall id :: !HasEmail(s, id, email)
  {
    if exists id :: HasEmail(s, id, email) then
      var id :| HasEmail(s, id, email); Some(id)
    else None
  }

  /** Who a request is for: by id unless it is empty, else by email; both lookups need the client row. */
  ghost function Target(s: State, id: string, email: string): (r: Option<string>)
    ensures r.Some? ==> r.value in s.users
  {
    if id != "" then if id in s.users && s.users[id].inClient then Some(id) else None
    else if email == "" then None
    else
      var found := FindByEmail(s, email);
      if found.Some? && s.users[found.value].inClient then found else None
  }

  /** `resetPasswordToken` equal, if there is a token to compare, and `resetPasswordExpires` not before now. */
  predicate HoldsToken(s: State, id: string, token: Option<string>) {
    id in s.users && (token.Some? ==> s.users[id].token == token) && s.users[id].expires.Some? && s.users[id].expires.value >= s.now
  }

  /** The row a query returns is one that matches, if any does. */
  ghost predicate Returns(s: State, token: Option<string>, first: string) {
    forall id :: HoldsToken(s, id, token) ==> HoldsToken(s, first, token)
  }

  function SetToken(s: State, id: string, token: string): State
    requires id in s.users
  {
    s.(users := s.users[id := s.users[id].(token := Some(token), expires := Some(s.now + TokenMinutes * 60 * 1000))])
  }

  function SetPassword(s: State, id: string, password: string): State
    requires id in s.users
  {
    s.(users := s.users[id := s.users[id].(password := password, token := None, expires := None)])
  }

  /** The new state, and the user the event took effect for. */
  ghost function Step(s: State, e: Event): (State, Option<string>) {
    match e
    case Tick(to) => (s.(now := to), None)
    case AddUser(id, email, inClient, password) =>
      if id in s.users || FindByEmail(s, email).Some? then (s, None) else (s.(users := s.users[id := User(email, inClient, password, None, None)]), None)
    case Request(id, email, token) =>
      var user := Target(s, id, email);
      (if user.Some? then SetToken(s, user.value, token) else s, user)
    case Confirm(given, first, password) =>
      if HoldsToken(s, first, given) then (SetPassword(s, first, password), Some(first)) else (s, None)
  }

  /** Each event with when it happened and the user it took effect for. */
  datatype Obs = Obs(event: Event, at: int, user: Option<string>)

  datatype World = World(state: State, log: seq<Obs>)

  ghost function Advance(w: World, e: Event): World {
    var (s', user) := Step(w.state, e);
    World(s', w.log + [Obs(e, w.state.now, user)])
  }

  ghost function Run(start: int, es: seq<Event>): World {
    if es == [] then World(State(start, map[]), []) else Advance(Run(start, es[..|es| - 1]), es[|es| - 1])
  }

  /** Time does not go back, uuid never repeats a token, and a query returns a row that matches. */
  ghost predicate Enabled(w: World, e: Event) {
    && (e.Tick? ==> w.state.now <= e.to)
    && (e.Confirm? ==> Returns(w.state, e.given, e.first))
    && (e.Request? ==> forall i :: 0 <= i < |w.log| && w.log[i].event.Request? ==> w.log[i].event.token != e.token)
  }

  ghost predicate Legal(start: int, es: seq<Event>) {
    es == [] || (Legal(start, es[..|es| - 1]) && Enabled(Run(start, es[..|es| - 1]), es[|es| - 1]))
  }

  // ---- Reading the history ------------------------------------------------------------------

  /** The i-th event took effect for the user, as a request or as a confirm. */
  predicate Touches(o: Obs, user: string) {
    o.user == Some(user) && (o.event.Request? || o.event.Confirm?)
  }

  /** The index of the user's latest effective request or confirm; -1 if there is none. */
  function Latest(log: seq<Obs>, user: string): (i: int)
    ensures -1 <= i < |log|
    ensures i >= 0 ==> Touches(log[i], user)
    ensures forall j :: i < j < |log| ==> !Touches(log[j], user)
  {
    if log == [] then -1
    else if Touches(log[|log| - 1], user) then |log| - 1
    else Latest(log[..|log| - 1], user)
  }

  /**
   * The token, if one is given, is that of the user's latest reset request, made at most 30 minutes
   * ago, with no successful confirm for that user since.
   */
  predicate PendingIn(log: seq<Obs>, now: int, user: string, token: Option<string>) {
    var i := Latest(log, user);
    && i >= 0 && log[i].event.Request? && (token.Some? ==> log[i].event.token == token.value)
    && now - log[i].at <= TokenMinutes * 60 * 1000
  }

  predicate Pending(w: World, user: string, token: Option<string>) {
    PendingIn(w.log, w.state.now, user, token)
  }

  // ---- The invariant ------------------------------------------------------------------------

  /** A user's token columns hold the latest request's token, and nothing after a confirm. */
  predicate ColumnsOf(w: World, id: string)
    requires id in w.state.users
  {
    var u, i := w.state.users[id], Latest(w.log, id);
    if i >= 0 && w.log[i].event.Request?
    then u.token == Some(w.log[i].event.token) && u.expires == Some(w.log[i].at + TokenMinutes * 60 * 1000)
    else u.token == None && u.expires == None
  }

  /** Emails are unique, as the schema says. */
  ghost predicate UniqueEmails(s: State) {
    forall a, b, email :: HasEmail(s, a, email) && HasEmail(s, b, email) ==> a == b
  }

  ghost predicate Inv(w: World) {
    && UniqueEmails(w.state)
    && (forall id :: id in w.state.users ==> ColumnsOf(w, id))
    && (forall i :: 0 <= i < |w.log| && w.log[i].user.Some? ==> w.log[i].user.value in w.state.users)
    && (forall i, j :: 0 <= i < j < |w.log| && w.log[i].event.Request? && w.log[j].event.Request?
          ==> w.log[i].event.token != w.log[j].event.token)
  }

  /** What a step does to the rows: only the user it takes effect for changes its columns. */
  lemma StepRows(s: State, e: Event, id: string)
    requires id in Step(s, e).0.users
    ensures
      var (s', user) := Step(s, e);
      var u := s'.users[id];
      if user == Some(id) then
        && id in s.users && (e.Request? || e.Confirm?)
        && (e.Request? ==> u.token == Some(e.token) && u.expires == Some(s.now + TokenMinutes * 60 * 1000))
        && (e.Confirm? ==> u.token == None && u.expires == None && u.password == e.password)
      else if id in s.users then u == s.users[id]
      else u.token == None && u.expires == None
    ensures Step(s, e).1.Some? ==> Step(s, e).1.value in s.users
    ensures s.users.Keys <= Step(s, e).0.users.Keys
  {
  }

  lemma ColumnsStep(w: World, e: Event, id: string)
    requires id in Advance(w, e).state.users
    requires id in w.state.users ==> ColumnsOf(w, id)
    requires id !in w.state.users ==> Latest(w.log, id) == -1
    ensures ColumnsOf(Advance(w, e), id)
  {
    hide Step, Latest;
    var w' := Advance(w, e);
    StepRows(w.state, e, id);
    LatestOneMore(w.log, w'.log[|w.log|], id);
    assert forall i :: 0 <= i < |w.log| ==> w'.log[i] == w.log[i];
  }

  lemma StepInv(w: World, e: Event)
    requires Inv(w) && Enabled(w, e)
    ensures Inv(Advance(w, e))
  {
    hide Step, Latest, ColumnsOf, UniqueEmails;
    var w' := Advance(w, e);
    StepUniqueEmails(w.state, e);
    forall id | id in w'.state.users
      ensures ColumnsOf(w', id)
    {
      ColumnsStep(w, e, id);
    }
    StepKeepsUsers(w.state, e);
  }

  lemma StepUniqueEmails(s: State, e: Event)
    requires UniqueEmails(s)
    ensures UniqueEmails(Step(s, e).0)
  {
    var s' := Step(s, e).0;
    forall a, b, email | HasEmail(s', a, email) && HasEmail(s', b, email)
      ensures a == b
    {
      assert a in s.users ==> HasEmail(s, a, email);
      assert b in s.users ==> HasEmail(s, b, email);
    }
  }

  lemma StepKeepsUsers(s: State, e: Event)
    ensures s.users.Keys <= Step(s, e).0.users.Keys
    ensures Step(s, e).1.Some? ==> Step(s, e).1.value in Step(s, e).0.users
  {
  }

  lemma LatestOneMore(log: seq<Obs>, o: Obs, user: string)
    ensures Latest(log + [o], user) == if Touches(o, user) then |log| else Latest(log, user)
  {
    assert (log + [o])[..|log|] == log;
  }

  lemma {:induction false} RunInv(start: int, es: seq<Event>)
    requires Legal(start, es)
    ensures Inv(Run(start, es))
  {
    hide Inv, Advance;
    if es != [] {
      RunInv(start, es[..|es| - 1]);
      StepInv(Run(start, es[..|es| - 1]), es[|es| - 1]);
    } else {
      NothingYet(start);
    }
  }

  lemma NothingYet(start: int)
    ensures Inv(World(State(start, map[]), []))
  {
  }

  // ---- Theorems -----------------------------------------------------------------------------

  lemma HoldsIffPending(w: World, user: string, token: Option<string>)
    requires Inv(w)
    ensures HoldsToken(w.state, user, token) <==> Pending(w, user, token)
  {
    if user in w.state.users {
      assert ColumnsOf(w, user);
    }
  }

  lemma PendingForOne(w: World, a: string, b: string, token: string)
    requires Inv(w) && Pending(w, a, Some(token)) && Pending(w, b, Some(token))
    ensures a == b
  {
  }

  lemma ConfirmIn(w: World, user: string, token: string, first: string, password: string)
    requires Inv(w) && Returns(w.state, Some(token), first)
    ensures Step(w.state, Confirm(Some(token), first, password)).1 == Some(user) <==> Pending(w, user, Some(token))
  {
    assert HoldsToken(w.state, user, Some(token)) ==> HoldsToken(w.state, first, Some(token));
    hide Inv, Pending, HoldsToken, Returns;
    HoldsIffPending(w, user, Some(token));
    HoldsIffPending(w, first, Some(token));
    if Pending(w, user, Some(token)) && Pending(w, first, Some(token)) {
      PendingForOne(w, first, user, token);
    }
  }

  /**
   * Over every run, a confirm that carries a token takes effect for a user exactly when the token is
   * that of this user's latest reset request, made at most 30 minutes ago, with no successful confirm
   * since.
   */
  lemma ConfirmSucceedsWhen(start: int, es: seq<Event>, user: string, token: string, first: string, password: string)
    requires Legal(start, es) && Returns(Run(start, es).state, Some(token), first)
    ensures
      var w := Run(start, es);
      Step(w.state, Confirm(Some(token), first, password)).1 == Some(user) <==> Pending(w, user, Some(token))
  {
    RunInv(start, es);
    ConfirmIn(Run(start, es), user, token, first, password);
  }

  /**
   * A confirm without a token compares none: it takes effect exactly when some user's request is
   * pending, for whichever such user the query returns.
   */
  lemma AbsentTokenConfirms(start: int, es: seq<Event>, first: string, password: string)
    requires Legal(start, es) && Returns(Run(start, es).state, None, first)
    ensures
      var w := Run(start, es);
      var effect := Step(w.state, Confirm(None, first, password)).1;
      && (effect.Some? <==> exists user :: Pending(w, user, None))
      && (effect.Some? ==> Pending(w, effect.value, None))
  {
    var w := Run(start, es);
    RunInv(start, es);
    hide Run, Inv, Pending, HoldsToken;
    HoldsIffPending(w, first, None);
    forall user {
      HoldsIffPending(w, user, None);
    }
  }

  /** A confirm that nobody's latest request backs changes nothing. */
  lemma ConfirmFailsOtherwise(start: int, es: seq<Event>, token: Option<string>, first: string, password: string)
    requires Legal(start, es) && forall user :: !Pending(Run(start, es), user, token)
    ensures Step(Run(start, es).state, Confirm(token, first, password)) == (Run(start, es).state, None)
  {
    var w := Run(start, es);
    RunInv(start, es);
    hide Run, Inv, Pending;
    HoldsIffPending(w, first, token);
  }

  lemma {:induction false} PrefixLegal(start: int, es: seq<Event>, k: nat)
    requires Legal(start, es) && k <= |es|
    ensures Legal(start, es[..k])
  {
    if k < |es| {
      assert es[..|es| - 1][..k] == es[..k];
      PrefixLegal(start, es[..|es| - 1], k);
    } else {
      assert es[..k] == es;
    }
  }

  lemma EnabledAt(start: int, es: seq<Event>, k: nat)
    requires Legal(start, es) && k < |es|
    ensures Enabled(Run(start, es[..k]), es[k])
  {
    PrefixLegal(start, es, k + 1);
    assert es[..k + 1][..k] == es[..k];
  }

  lemma {:induction false} LogAt(start: int, es: seq<Event>, k: nat)
    requires k <= |es|
    ensures
      var w, w' := Run(start, es[..k]), Run(start, es);
      |w'.log| == |es| && |w.log| == k && w'.log[..k] == w.log
      && (k < |es| ==> w'.log[k] == Obs(es[k], w.state.now, Step(w.state, es[k]).1))
  {
    hide Step;
    if k < |es| {
      var before := es[..|es| - 1];
      assert before[..k] == es[..k];
      LogAt(start, before, k);
    } else {
      assert es[..k] == es;
      if es != [] {
        LogAt(start, es[..|es| - 1], |es| - 1);
      }
    }
  }

  /** A token confirmed at `i` for its user is nobody's pending token at a later `j`. */
  lemma UsedUp(w: World, i: nat, j: nat, u: string, v: string, token: string)
    requires Inv(w) && i < j < |w.log| && Touches(w.log[i], u)
    requires exists now :: PendingIn(w.log[..i], now, u, Some(token))
    ensures forall now :: !PendingIn(w.log[..j], now, v, Some(token))
  {
    hide Inv;
    TokensDistinct(w);
    var a, b := Latest(w.log[..i], u), Latest(w.log[..j], v);
    assert a >= 0 ==> w.log[..i][a] == w.log[a] && Touches(w.log[a], u);
    assert b >= 0 ==> w.log[..j][b] == w.log[b] && Touches(w.log[b], v);
    assert w.log[..j][i] == w.log[i];
  }

  lemma TokensDistinct(w: World)
    requires Inv(w)
    ensures forall i, j :: 0 <= i < j < |w.log| && w.log[i].event.Request? && w.log[j].event.Request?
              ==> w.log[i].event.token != w.log[j].event.token
  {
  }

  /** A reset token sets a password at most once in any run. */
  lemma ResetTokenSingleUse(start: int, es: seq<Event>, i: nat, j: nat)
    requires Legal(start, es) && i < j < |es|
    requires es[i].Confirm? && es[j].Confirm? && es[i].given == es[j].given && es[i].given.Some?
    requires |Run(start, es).log| == |es| && Run(start, es).log[i].user.Some?
    ensures Run(start, es).log[j].user.None?
  {
    hide Run, Legal, Step, Latest, PendingIn;
    LogAt(start, es, i);
    LogAt(start, es, j);
    PrefixLegal(start, es, i);
    PrefixLegal(start, es, j);
    var log, u := Run(start, es).log, Run(start, es).log[i].user.value;
    assert log[..j][i] == log[i] && Touches(log[i], u);
    if log[j].user.Some? {
      var v := log[j].user.value;
      EnabledAt(start, es, i);
      EnabledAt(start, es, j);
      ConfirmSucceedsWhen(start, es[..i], u, es[i].given.value, es[i].first, es[i].password);
      ConfirmSucceedsWhen(start, es[..j], v, es[i].given.value, es[j].first, es[j].password);
      RunInv(start, es);
      UsedUp(Run(start, es), i, j, u, v, es[i].given.value);
    }
  }

  lemma RequestOutcome(w: World, e: Event)
    requires e.Request?
    ensures
      var user := Target(w.state, e.id, e.email);
      Advance(w, e) == World(if user.Some? then SetToken(w.state, user.value, e.token) else w.state, w.log + [Obs(e, w.state.now, user)])
  {
  }

  /** A request with a fresh token makes it pending for its target and for nobody else. */
  lemma RequestPending(w: World, e: Event, user: string)
    requires Inv(w) && Enabled(w, e) && e.Request?
    ensures Pending(Advance(w, e), user, Some(e.token)) <==> Target(w.state, e.id, e.email) == Some(user)
  {
    hide Inv, Latest, Target;
    var w' := Advance(w, e);
    LatestOneMore(w.log, w'.log[|w.log|], user);
    assert forall i :: 0 <= i < |w.log| ==> w'.log[i] == w.log[i];
  }

  /** Is the request for this user: known by that id or, without an id, by that email, and with a client row? */
  predicate Meant(users: map<string, User>, id: string, email: string, user: string) {
    && user in users && users[user].inClient
    && (if id != "" then user == id else email != "" && users[user].email == email)
  }

  lemma TargetMeans(s: State, id: string, email: string, user: string)
    requires UniqueEmails(s)
    ensures Target(s, id, email) == Some(user) <==> Meant(s.users, id, email, user)
  {
    if Meant(s.users, id, email, user) && id == "" {
      assert HasEmail(s, user, email);
      assert HasEmail(s, FindByEmail(s, email).value, email);
    }
  }

  /**
   * Over every run, a request makes its token pending for exactly the user it is for, and ends what
   * was pending for that user; for everybody else what was pending stays so.
   */
  lemma RequestMakesPending(start: int, es: seq<Event>, id: string, email: string, token: string, user: string, given: Option<string>)
    requires Legal(start, es) && Enabled(Run(start, es), Request(id, email, token))
    ensures
      var w := Run(start, es);
      var w' := Advance(w, Request(id, email, token));
      Pending(w', user, given) <==>
        if Meant(w.state.users, id, email, user) then given.None? || given == Some(token) else Pending(w, user, given)
  {
    var w, e := Run(start, es), Request(id, email, token);
    RunInv(start, es);
    RequestOutcome(w, e);
    TargetMeans(w.state, id, email, user);
    hide Run, Legal, Inv, Latest, Target, Meant, Advance;
    var w' := Advance(w, e);
    LatestOneMore(w.log, w'.log[|w.log|], user);
    assert forall i :: 0 <= i < |w.log| ==> w'.log[i] == w.log[i];
  }

  // ---- The handlers -------------------------------------------------------------------------

  class ResetHandlers {
    var now: int
    var users: map<string, User>
    ghost var log: seq<Obs>

    /** The table, and what has happened to it so far. */
    ghost function Abs(): World
      reads this
    {
      World(State(now, users), log)
    }

    ghost predicate Valid()
      reads this
    {
      Inv(Abs())
    }

    constructor (start: int)
      ensures Valid() && Abs() == Run(start, [])
    {
      now, users, log := start, map[], [];
      new;
      NothingYet(start);
    }

    /** Time passes. */
    method Elapse(to: int)
      requires Valid() && now <= to
      modifies this`now, this`log
      ensures Valid() && Abs() == Advance(old(Abs()), Tick(to))
    {
      hide Inv;
      StepInv(Abs(), Tick(to));
      log := log + [Obs(Tick(to), now, None)];
      now := to;
    }

    /** Inserts a user unless the id or the email is taken. */
    method AddUserRow(id: string, email: string, inClient: bool, password: string)
      requires Valid()
      modifies this`users, this`log
      ensures Valid() && Abs() == Advance(old(Abs()), AddUser(id, email, inClient, password))
      ensures users == if id in old(users) || exists u :: u in old(users) && old(users)[u].email == email
                       then old(users) else old(users)[id := User(email, inClient, password, None, None)]
    {
      hide Inv;
      StepInv(Abs(), AddUser(id, email, inClient, password));
      ghost var s := Abs().state;
      log := log + [Obs(AddUser(id, email, inClient, password), now, None)];
      if id in users {
        return;
      }
      if u :| u in users && users[u].email == email {
        assert HasEmail(s, u, email);
      } else {
        assert forall u :: !HasEmail(s, u, email);
        users := users[id := User(email, inClient, password, None, None)];
      }
    }

    method FindUserByEmail(email: string) returns (found: Option<string>)
      requires UniqueEmails(Abs().state)
      ensures found == FindByEmail(Abs().state, email)
    {
      ghost var s := Abs().state;
      if u :| u in users && users[u].email == email {
        assert HasEmail(s, u, email);
        found := Some(u);
      } else {
        assert forall u :: !HasEmail(s, u, email);
        found := None;
      }
    }

    /** `UpdateResetPasswordRequestHandler.execute`: the token is pending for the user found, or for nobody. */
    method RequestReset(id: string, email: string, token: string) returns (ok: bool)
      requires Valid() && Enabled(Abs(), Request(id, email, token))
      modifies this`users, this`log
      ensures Valid() && Abs() == Advance(old(Abs()), Request(id, email, token))
      ensures ok <==> exists user :: Meant(old(users), id, email, user)
      ensures forall user :: Pending(Abs(), user, Some(token)) <==> Meant(old(users), id, email, user)
      ensures users.Keys == old(users).Keys
      ensures forall user :: user in users ==>
        users[user] == if Meant(old(users), id, email, user)
                       then old(users)[user].(token := Some(token), expires := Some(now + TokenMinutes * 60 * 1000)) else old(users)[user]
    {
      hide Inv, Pending, PendingIn, Latest, Touches, Enabled, Advance, Step, FindByEmail, HasEmail, UniqueEmails, ColumnsOf, Meant;
      ghost var w, e := Abs(), Request(id, email, token);
      BeforeRequest(w, e);
      log := log + [Obs(e, now, Target(w.state, id, email))];
      var user := None;
      if id != "" {
        user := Some(id);
      } else if email != "" {
        user := FindUserByEmail(email);
      }
      ok := user.Some? && user.value in users && users[user.value].inClient;
      if ok {
        users := users[user.value := users[user.value].(token := Some(token), expires := Some(now + TokenMinutes * 60 * 1000))];
      }
      assert Abs() == Advance(w, e);
    }

    /**
     * `UpdateResetPasswordConfirmHandler.execute`, where `first` is the row the query returns if any
     * matches: changes the row of a user the token is pending for, and no other. A token that is there
     * is pending for one user at most. Expiry is checked by the query and once more.
     */
    method ConfirmReset(token: Option<string>, first: string, password: string) returns (ok: bool)
      requires Valid() && Enabled(Abs(), Confirm(token, first, password))
      modifies this`users, this`log
      ensures Valid() && Abs() == Advance(old(Abs()), Confirm(token, first, password))
      ensures ok <==> exists user :: Pending(old(Abs()), user, token)
      ensures ok ==> Pending(old(Abs()), first, token)
      ensures ok && token.Some? ==> forall user :: Pending(old(Abs()), user, token) ==> user == first
      ensures users == if ok then old(users)[first := old(users)[first].(password := password, token := None, expires := None)] else old(users)
    {
      ghost var w, e := Abs(), Confirm(token, first, password);
      StepInv(w, e);
      HoldersPending(w, token);
      assert Returns(w.state, token, first);
      hide Inv, Pending, Enabled;
      log := log + [Obs(e, now, if HoldsToken(w.state, first, token) then Some(first) else None)];
      ok := false;
      if first in users && (token.None? || users[first].token == token)
         && users[first].expires.Some? && users[first].expires.value >= now {
        if users[first].expires.value < now {
          return;
        }
        users := users[first := users[first].(password := password, token := None, expires := None)];
        ok := true;
      }
    }
  }

  lemma BeforeRequest(w: World, e: Event)
    requires Inv(w) && Enabled(w, e) && e.Request?
    ensures Inv(Advance(w, e)) && UniqueEmails(w.state)
    ensures forall user :: Pending(Advance(w, e), user, Some(e.token)) <==> Meant(w.state.users, e.id, e.email, user)
    ensures forall user :: Target(w.state, e.id, e.email) == Some(user) <==> Meant(w.state.users, e.id, e.email, user)
    ensures
      var user := Target(w.state, e.id, e.email);
      Advance(w, e) == World(if user.Some? then SetToken(w.state, user.value, e.token) else w.state, w.log + [Obs(e, w.state.now, user)])
  {
    StepInv(w, e);
    RequestOutcome(w, e);
    hide Pending, Enabled, Advance, Target, Meant;
    forall user
      ensures Pending(Advance(w, e), user, Some(e.token)) <==> Meant(w.state.users, e.id, e.email, user)
      ensures Target(w.state, e.id, e.email) == Some(user) <==> Meant(w.state.users, e.id, e.email, user)
    {
      RequestPending(w, e, user);
      TargetMeans(w.state, e.id, e.email, user);
    }
  }

  /** What the table's token columns say is what the history says; a token names one user at most. */
  lemma HoldersPending(w: World, token: Option<string>)
    requires Inv(w)
    ensures forall user :: HoldsToken(w.state, user, token) <==> Pending(w, user, token)
    ensures token.Some? ==> forall a, b :: HoldsToken(w.state, a, token) && HoldsToken(w.state, b, token) ==> a == b
  {
    hide Inv, Pending, HoldsToken;
    forall user {
      HoldsIffPending(w, user, token);
    }
    if token.Some? {
      forall a, b | HoldsToken(w.state, a, token) && HoldsToken(w.state, b, token)
        ensures a == b
      {
        PendingForOne(w, a, b, token.value);
      }
    }
  }
}
