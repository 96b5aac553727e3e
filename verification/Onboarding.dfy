/**
 * Onboarding of a tenant: a database of its own, then migrations, then the client row. Each attempt
 * is one step; environment registration and migrations may fail.
 */
module Onboarding {

  /** A row of the root client table; an empty string stands for a null column. */
  datatype ClientRow = ClientRow(isPaid: bool, isDbCreated: bool, dbUrl: string, dbName: string)

  datatype RootDb = RootDb(
    clients: map<string, ClientRow>,  // by client code
    databases: set<string>,           // schemas on the server
    created: seq<string>              // databases created by onboarding, in order
  )

  function LowerChar(c: char): char {
    if 'A' <= c <= 'Z' then c - 'A' + 'a' else c
  }

  function ToLower(s: string): string {
    seq(|s|, i requires 0 <= i < |s| => LowerChar(s[i]))
  }

  function DbName(code: string): (name: string)
    ensures name != ""
  {
    "client_" + ToLower(code)
  }

  function DbUrl(base: string, code: string): (url: string)
    ensures url != ""
  {
    base + "/" + DbName(code)
  }

  datatype Outcome = Onboarded | BadClient | AlreadyCreated | Unpaid | DatabaseExists | EnvKeyFailed | MigrationFailed

  datatype Event =
    | Register(code: string)  // a new client row without a database
    | SetPaid(code: string, isPaid: bool)
    | Onboard(code: string, envOk: bool, firstOk: bool, secondOk: bool)

  /** One onboarding attempt; the migration is started twice. */
  function Attempt(s: RootDb, base: string, code: string, envOk: bool, firstOk: bool, secondOk: bool): (RootDb, Outcome) {
    if code !in s.clients then (s, BadClient)
    else if s.clients[code].isDbCreated then (s, AlreadyCreated)
    else if !s.clients[code].isPaid then (s, Unpaid)
    else if DbName(code) in s.databases then (s, DatabaseExists)
    else
      var s1 := s.(databases := s.databases + {DbName(code)}, created := s.created + [DbName(code)]);
      if !envOk then (s1, EnvKeyFailed)
      else if !firstOk || !secondOk then (s1, MigrationFailed)
      else (s1.(clients := s1.clients[code := s1.clients[code].(dbUrl := DbUrl(base, code), dbName := DbName(code))]), Onboarded)
  }

  function Step(s: RootDb, base: string, e: Event): RootDb {
    match e
    case Register(code) => if code in s.clients then s else s.(clients := s.clients[code := ClientRow(false, false, "", "")])
    case SetPaid(code, isPaid) =>
      if code in s.clients then s.(clients := s.clients[code := s.clients[code].(isPaid := isPaid)]) else s
    case Onboard(code, envOk, firstOk, secondOk) => Attempt(s, base, code, envOk, firstOk, secondOk).0
  }

  function Run(s: RootDb, base: string, es: seq<Event>): RootDb {
    if es == [] then s else Step(Run(s, base, es[..|es| - 1]), base, es[|es| - 1])
  }

  /** A server with some schemas, before any onboarding. */
  function Start(databases: set<string>): RootDb {
    RootDb(map[], databases, [])
  }

  predicate Recorded(s: RootDb, code: string) {
    code in s.clients && s.clients[code].dbName != ""
  }

  ghost predicate Inv(s: RootDb, base: string) {
    && (forall c :: Recorded(s, c) ==>
          s.clients[c].dbName == DbName(c) && s.clients[c].dbUrl == DbUrl(base, c) && DbName(c) in s.created)
    && (forall c :: c in s.clients && s.clients[c].dbUrl != "" ==> Recorded(s, c))
    && (forall n :: n in s.created ==> n in s.databases)
    && (forall i, j :: 0 <= i < j < |s.created| ==> s.created[i] != s.created[j])
    && (forall c, d :: Recorded(s, c) && Recorded(s, d) && s.clients[c].dbName == s.clients[d].dbName ==> c == d)
  }

  lemma StepInv(s: RootDb, base: string, e: Event)
    requires Inv(s, base)
    ensures Inv(Step(s, base, e), base)
  {
    hide DbName, DbUrl, Attempt;
    if e.Onboard? {
      AttemptInv(s, base, e.code, e.envOk, e.firstOk, e.secondOk);
    }
  }

  lemma AttemptInv(s: RootDb, base: string, code: string, envOk: bool, firstOk: bool, secondOk: bool)
    requires Inv(s, base)
    ensures Inv(Attempt(s, base, code, envOk, firstOk, secondOk).0, base)
  {
    hide DbName, DbUrl;
    var s' := Attempt(s, base, code, envOk, firstOk, secondOk).0;
    assert forall i :: 0 <= i < |s.created| ==> s.created[i] in s.created;
    assert forall n :: n in s'.created ==> n in s.created || n == DbName(code);
    assert forall n :: n in s.created ==> n in s'.created;
    assert |s'.created| > |s.created| ==> s'.created[|s.created|] == DbName(code);
  }

  lemma {:induction false} RunInv(s: RootDb, base: string, es: seq<Event>)
    requires Inv(s, base)
    ensures Inv(Run(s, base, es), base)
  {
    hide Inv, Step;
    if es != [] {
      RunInv(s, base, es[..|es| - 1]);
      StepInv(Run(s, base, es[..|es| - 1]), base, es[|es| - 1]);
    }
  }

  /**
   * A database per tenant: over all sequences of attempts no two clients hold the same database,
   * every recorded one exists, and no database is created twice.
   */
  lemma DatabasePerTenant(databases: set<string>, base: string, es: seq<Event>)
    ensures
      var s := Run(Start(databases), base, es);
      && (forall c, d :: Recorded(s, c) && Recorded(s, d) && s.clients[c].dbName == s.clients[d].dbName ==> c == d)
      && (forall c :: Recorded(s, c) ==> s.clients[c].dbName in s.databases && s.clients[c].dbName !in databases)
      && (forall i, j :: 0 <= i < j < |s.created| ==> s.created[i] != s.created[j])
  {
    RunInv(Start(databases), base, es);
    CreatedAreNew(databases, base, es);
    hide Run, DbName, DbUrl;
  }

  lemma {:induction false} CreatedAreNew(databases: set<string>, base: string, es: seq<Event>)
    ensures
      var s := Run(Start(databases), base, es);
      databases <= s.databases && forall n :: n in s.created ==> n !in databases
  {
    hide DbName, DbUrl;
    if es != [] {
      CreatedAreNew(databases, base, es[..|es| - 1]);
    }
  }

  lemma RecordedStep(s: RootDb, base: string, e: Event, code: string)
    requires Inv(s, base) && Recorded(s, code)
    ensures
      var s' := Step(s, base, e);
      Recorded(s', code) && s'.clients[code].dbName == s.clients[code].dbName && s'.clients[code].dbUrl == s.clients[code].dbUrl
  {
    hide DbName, DbUrl;
  }

  /** URL stability: a recorded database and URL are never changed again. */
  lemma {:induction false} RecordedForever(s: RootDb, base: string, es: seq<Event>, code: string)
    requires Inv(s, base) && Recorded(s, code)
    ensures
      var s' := Run(s, base, es);
      Recorded(s', code) && s'.clients[code].dbName == s.clients[code].dbName && s'.clients[code].dbUrl == s.clients[code].dbUrl
  {
    hide DbName, DbUrl, Step, Inv, Recorded;
    if es != [] {
      RecordedForever(s, base, es[..|es| - 1], code);
      RunInv(s, base, es[..|es| - 1]);
      RecordedStep(Run(s, base, es[..|es| - 1]), base, es[|es| - 1], code);
    }
  }

  /**
   * A failed migration leaves the database behind, and so is final: no later attempt, for this code
   * or for one that differs in case only, ever succeeds.
   */
  lemma {:induction false} LeftoverBlocksForever(s: RootDb, base: string, es: seq<Event>, code: string)
    requires Inv(s, base) && !Recorded(s, code) && DbName(code) in s.databases
    ensures !Recorded(Run(s, base, es), code) && DbName(code) in Run(s, base, es).databases
  {
    hide DbName, DbUrl;
    if es != [] {
      LeftoverBlocksForever(s, base, es[..|es| - 1], code);
    }
  }

  /** Exactly when an attempt succeeds in a run from an empty table. */
  lemma OnboardedWhen(databases: set<string>, base: string, es: seq<Event>, code: string, envOk: bool, firstOk: bool, secondOk: bool)
    ensures
      var s := Run(Start(databases), base, es);
      Attempt(s, base, code, envOk, firstOk, secondOk).1 == Onboarded <==>
        && code in s.clients && s.clients[code].isPaid
        && DbName(code) !in databases && DbName(code) !in s.created
        && envOk && firstOk && secondOk
  {
    FlagNeverSet(databases, base, es);
    DatabasesGrowByCreation(databases, base, es);
    hide Run, DbName, DbUrl;
  }

  /** No step sets `isDbCreated`: the check of it never refuses anyone. */
  lemma {:induction false} FlagNeverSet(databases: set<string>, base: string, es: seq<Event>)
    ensures forall c :: c in Run(Start(databases), base, es).clients ==> !Run(Start(databases), base, es).clients[c].isDbCreated
  {
    hide DbName, DbUrl;
    if es != [] {
      FlagNeverSet(databases, base, es[..|es| - 1]);
    }
  }

  lemma {:induction false} DatabasesGrowByCreation(databases: set<string>, base: string, es: seq<Event>)
    ensures
      var s := Run(Start(databases), base, es);
      forall n :: n in s.databases <==> n in databases || n in s.created
  {
    hide DbName, DbUrl;
    if es != [] {
      DatabasesGrowByCreation(databases, base, es[..|es| - 1]);
    }
  }

  /** Whether the client is registered, and paid: by its first registration and the last setting since. */
  datatype Standing = Unknown | Known(paid: bool)

  function StandingIn(es: seq<Event>, code: string): Standing {
    if es == [] then Unknown
    else
      var before := StandingIn(es[..|es| - 1], code);
      match es[|es| - 1]
      case Register(c) => if c == code && before.Unknown? then Known(false) else before
      case SetPaid(c, isPaid) => if c == code && before.Known? then Known(isPaid) else before
      case Onboard(_, _, _, _) => before
  }

  /** An attempt of a paid client whose database has this name. */
  ghost predicate AttemptedIn(es: seq<Event>, name: string) {
    exists j :: 0 <= j < |es| && Attempts(es, j, name)
  }

  predicate Attempts(es: seq<Event>, j: nat, name: string)
    requires j < |es|
  {
    es[j].Onboard? && DbName(es[j].code) == name && StandingIn(es[..j], es[j].code) == Known(true)
  }

  lemma AttemptedOneMore(es: seq<Event>, name: string)
    requires es != []
    ensures AttemptedIn(es, name) <==> AttemptedIn(es[..|es| - 1], name) || Attempts(es, |es| - 1, name)
  {
    hide DbName, StandingIn;
    var before := es[..|es| - 1];
    forall j | 0 <= j < |before|
      ensures Attempts(before, j, name) <==> Attempts(es, j, name)
    {
      assert before[..j] == es[..j];
    }
  }

  /** The table and the server follow the history. */
  lemma {:induction false} TablesFollowHistory(databases: set<string>, base: string, es: seq<Event>)
    ensures
      var s := Run(Start(databases), base, es);
      && (forall c :: StandingIn(es, c) == if c in s.clients then Known(s.clients[c].isPaid) else Unknown)
      && (forall n :: n in s.databases <==> n in databases || AttemptedIn(es, n))
  {
    hide DbName, DbUrl, AttemptedIn, Attempts;
    if es != [] {
      var before := es[..|es| - 1];
      TablesFollowHistory(databases, base, before);
      FlagNeverSet(databases, base, before);
      forall n
        ensures n in Run(Start(databases), base, es).databases <==> n in databases || AttemptedIn(es, n)
      {
        AttemptedOneMore(es, n);
        AttemptsMeans(es, n);
      }
    } else {
      NothingAttempted();
    }
  }

  lemma AttemptsMeans(es: seq<Event>, name: string)
    requires es != []
    ensures
      var before, e := es[..|es| - 1], es[|es| - 1];
      Attempts(es, |es| - 1, name) <==> e.Onboard? && DbName(e.code) == name && StandingIn(before, e.code) == Known(true)
  {
  }

  lemma NothingAttempted()
    ensures forall n :: !AttemptedIn([], n)
  {
  }

  /**
   * What an attempt comes to, read off the history alone: the client must be registered and paid, no
   * schema of that name may have been there at the start or come from an earlier attempt, and the
   * environment and both migrations must work.
   */
  lemma AttemptOutcome(databases: set<string>, base: string, es: seq<Event>, code: string, envOk: bool, firstOk: bool, secondOk: bool)
    ensures
      Attempt(Run(Start(databases), base, es), base, code, envOk, firstOk, secondOk).1 ==
        match StandingIn(es, code)
        case Unknown => BadClient
        case Known(paid) =>
          if !paid then Unpaid
          else if DbName(code) in databases || AttemptedIn(es, DbName(code)) then DatabaseExists
          else if !envOk then EnvKeyFailed
          else if !firstOk || !secondOk then MigrationFailed
          else Onboarded
  {
    TablesFollowHistory(databases, base, es);
    FlagNeverSet(databases, base, es);
    hide Run, DbName, DbUrl, AttemptedIn, StandingIn;
  }

  lemma RecordedApart(s: RootDb, base: string)
    requires Inv(s, base)
    ensures forall c, d :: Recorded(s, c) && Recorded(s, d) && s.clients[c].dbName == s.clients[d].dbName ==> c == d
  {
    hide DbName, DbUrl;
  }

  class CreateClientAdminUserHandler {
    const base: string
    var clients: map<string, ClientRow>
    var databases: set<string>
    ghost var created: seq<string>

    ghost function Abs(): RootDb
      reads this
    {
      RootDb(clients, databases, created)
    }

    ghost predicate Valid()
      reads this
    {
      Inv(Abs(), base)
    }

    constructor (base: string, databases: set<string>)
      ensures Valid() && this.base == base && Abs() == Start(databases)
    {
      this.base, this.databases := base, databases;
      clients, created := map[], [];
    }

    /** Afterwards the schema is there; it was made here unless it was there already. */
    method CreateDatabase(dbName: string) returns (ok: bool)
      modifies this`databases, this`created
      ensures ok <==> dbName !in old(databases)
      ensures databases == old(databases) + {dbName}
      ensures created == if ok then old(created) + [dbName] else old(created)
    {
      ok := dbName !in databases;
      if ok {
        databases, created := databases + {dbName}, created + [dbName];
      }
    }

    /**
     * Success gives a paid client a database nobody has; a failure after the database was created
     * leaves it there unrecorded; any other refusal changes nothing. No other row is touched.
     */
    method Execute(code: string, envOk: bool, firstOk: bool, secondOk: bool) returns (outcome: Outcome)
      requires Valid()
      modifies this
      ensures Valid() && (Abs(), outcome) == Attempt(old(Abs()), base, code, envOk, firstOk, secondOk)
      ensures outcome == Onboarded ==>
        && Recorded(Abs(), code) && clients[code].isPaid && clients[code].dbUrl == base + "/" + clients[code].dbName
        && clients[code].dbName in databases && clients[code].dbName !in old(databases)
        && forall other :: Recorded(Abs(), other) && other != code ==> clients[other].dbName != clients[code].dbName
      ensures outcome in {EnvKeyFailed, MigrationFailed} ==>
        clients == old(clients) && DbName(code) in databases && DbName(code) !in old(databases)
      ensures outcome !in {Onboarded, EnvKeyFailed, MigrationFailed} ==> Abs() == old(Abs())
      ensures clients.Keys == old(clients).Keys && forall other :: other in clients && other != code ==> clients[other] == old(clients)[other]
    {
      hide Inv, DbName;
      AttemptInv(Abs(), base, code, envOk, firstOk, secondOk);
      RecordedApart(Attempt(Abs(), base, code, envOk, firstOk, secondOk).0, base);
      if code !in clients {
        return BadClient;
      } else if clients[code].isDbCreated {
        return AlreadyCreated;
      } else if !clients[code].isPaid {
        return Unpaid;
      }
      var dbName, dbUrl := DbName(code), DbUrl(base, code);
      var ok := CreateDatabase(dbName);
      assert !ok ==> databases == old(databases);
      if !ok {
        return DatabaseExists;
      }
      if !envOk {
        return EnvKeyFailed;
      }
      if !firstOk || !secondOk {
        return MigrationFailed;
      }
      clients := clients[code := clients[code].(dbUrl := dbUrl, dbName := dbName)];
      outcome := Onboarded;
    }
  }
}
