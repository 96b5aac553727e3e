/**
 * `getPrismaClientByCode` with any number of calls in flight, split at each `await`, interleaved
 * with idle cleanup, expiry of cached URLs and onboarding. What runs between two awaits is one step.
 */
module TenantProtocol {
  import opened LastUsed
  import opened Options
  import opened TenantClients
  import Onboarding

  datatype Phase =
    | ReadingUrl               // awaiting the URL from the shared cache
    | ReadingRoot              // awaiting the root table
    | WritingUrl(url: string)  // awaiting the write of the URL to the shared cache
    | Importing(url: string)   // awaiting the import of the generated client
    | Connecting(conn: Conn)   // awaiting `$connect`

  /** A call in flight; `started` is the time it read at its start. */
  datatype InFlight = InFlight(code: string, started: int, phase: Phase)

  datatype State = State(
    clientMap: map<string, Conn>,
    lastUsed: Slots,
    calls: map<nat, InFlight>,
    made: nat,              // clients constructed so far; their ids are the numbers below
    failed: set<nat>,       // never connected
    closed: set<nat>,       // disconnected by eviction or cleanup
    displaced: set<nat>,    // overwritten in `clientMap` by a later store for the same code
    urls: map<string, string>,
    root: Onboarding.RootDb
  )

  datatype Limits = Limits(maxSize: int, timeout: int, base: string)

  datatype Event =
    | Begin(id: nat, code: string, now: int)
    | UrlRead(id: nat)
    | RootRead(id: nat)
    | UrlWritten(id: nat)
    | Imported(id: nat, ok: bool)
    | Connected(id: nat, ok: bool)
    | CleanupAt(now: int)
    | UrlExpired(code: string)
    | Admin(e: Onboarding.Event)

  function IdsOf(m: map<string, Conn>): set<nat> {
    set c | c in m :: m[c].id
  }

  /** Disconnects and forgets the clients of some codes. */
  function Close(s: State, codes: set<string>): State {
    s.(clientMap := s.clientMap - codes,
       lastUsed := seq(|s.lastUsed|, i requires 0 <= i < |s.lastUsed| =>
                     if s.lastUsed[i].Used? && s.lastUsed[i].code in codes then Gone else s.lastUsed[i]),
       closed := s.closed + set c | c in s.clientMap && c in codes :: s.clientMap[c].id)
  }

  function EvictOldest(s: State): State {
    var oldest := Oldest(s.lastUsed);
    if oldest.Some? && oldest.value != "" then Close(s, {oldest.value}) else s
  }

  /** `clientMap.set` and `lastUsedMap.set`; an occupied key loses its client without a disconnect. */
  function StoreClient(s: State, code: string, conn: Conn, started: int): State {
    s.(clientMap := s.clientMap[code := conn],
       lastUsed := Put(s.lastUsed, code, started),
       displaced := if code in s.clientMap then s.displaced + {s.clientMap[code].id} else s.displaced)
  }

  /** Everything after `await $connect()`, in one step. */
  function Finish(lim: Limits, s: State, code: string, conn: Conn, started: int): State {
    StoreClient(if |s.clientMap| >= lim.maxSize then EvictOldest(s) else s, code, conn, started)
  }

  function IdleCodes(s: State, now: int, timeout: int): set<string> {
    set i | 0 <= i < |s.lastUsed| && s.lastUsed[i].Used? && Idle(s.lastUsed[i].at, now, timeout) :: s.lastUsed[i].code
  }

  function Goto(s: State, id: nat, phase: Phase): State
    requires id in s.calls
  {
    s.(calls := s.calls[id := s.calls[id].(phase := phase)])
  }

  function Leave(s: State, id: nat): State {
    s.(calls := s.calls - {id})
  }

  predicate Enabled(s: State, e: Event) {
    match e
    case Begin(id, code, now) => id !in s.calls
    case UrlRead(id) => id in s.calls && s.calls[id].phase.ReadingUrl?
    case RootRead(id) => id in s.calls && s.calls[id].phase.ReadingRoot?
    case UrlWritten(id) => id in s.calls && s.calls[id].phase.WritingUrl?
    case Imported(id, ok) => id in s.calls && s.calls[id].phase.Importing?
    case Connected(id, ok) => id in s.calls && s.calls[id].phase.Connecting?
    case _ => true
  }

  function Step(lim: Limits, s: State, e: Event): State
    requires Enabled(s, e)
  {
    match e
    case Begin(id, code, now) =>
      if code in s.clientMap then s.(lastUsed := Put(s.lastUsed, code, now))
      else s.(calls := s.calls[id := InFlight(code, now, ReadingUrl)])
    case UrlRead(id) =>
      var code := s.calls[id].code;
      if code in s.urls && s.urls[code] != "" then Goto(s, id, Importing(s.urls[code])) else Goto(s, id, ReadingRoot)
    case RootRead(id) =>
      var code := s.calls[id].code;
      if code !in s.root.clients || s.root.clients[code].dbUrl == "" then Leave(s, id)
      else Goto(s, id, WritingUrl(s.root.clients[code].dbUrl))
    case UrlWritten(id) =>
      var url := s.calls[id].phase.url;
      Goto(s.(urls := s.urls[s.calls[id].code := url]), id, Importing(url))
    case Imported(id, ok) =>
      if !ok then Leave(s, id)
      else Goto(s.(made := s.made + 1), id, Connecting(Conn(s.made, s.calls[id].phase.url)))
    case Connected(id, ok) =>
      var call := s.calls[id];
      if !ok then Leave(s.(failed := s.failed + {call.phase.conn.id}), id)
      else Finish(lim, Leave(s, id), call.code, call.phase.conn, call.started)
    case CleanupAt(now) => Close(s, IdleCodes(s, now, lim.timeout))
    case UrlExpired(code) => s.(urls := s.urls - {code})
    case Admin(ev) => s.(root := Onboarding.Step(s.root, lim.base, ev))
  }

  // ---- The two maps have the same keys ------------------------------------------------------

  ghost predicate SameKeys(s: State) {
    Distinct(s.lastUsed) && forall c :: c in s.clientMap <==> HasCode(s.lastUsed, c)
  }

  lemma CloseKeys(s: State, codes: set<string>)
    requires SameKeys(s)
    ensures SameKeys(Close(s, codes))
  {
    var s' := Close(s, codes);
    forall c | c in s'.clientMap
      ensures HasCode(s'.lastUsed, c)
    {
      var i :| 0 <= i < |s.lastUsed| && s.lastUsed[i].Used? && s.lastUsed[i].code == c;
      assert s'.lastUsed[i] == s.lastUsed[i];
    }
    forall c | HasCode(s'.lastUsed, c)
      ensures c in s'.clientMap
    {
      var i :| 0 <= i < |s'.lastUsed| && s'.lastUsed[i].Used? && s'.lastUsed[i].code == c;
      assert s.lastUsed[i] == s'.lastUsed[i];
    }
  }

  lemma PutKeys(slots: Slots, code: string, at: int)
    requires Distinct(slots)
    ensures Distinct(Put(slots, code, at))
    ensures forall c :: HasCode(Put(slots, code, at), c) <==> c == code || HasCode(slots, c)
  {
    PutMeans(slots, code, at);
    forall c
      ensures HasCode(Put(slots, code, at), c) <==> c == code || HasCode(slots, c)
    {
      HasCodeMeans(slots, c);
      HasCodeMeans(Put(slots, code, at), c);
      assert Has(Put(slots, code, at), code, at);
    }
  }

  lemma HasCodeMeans(slots: Slots, code: string)
    ensures HasCode(slots, code) <==> exists t :: Has(slots, code, t)
  {
    if HasCode(slots, code) {
      var i :| 0 <= i < |slots| && slots[i].Used? && slots[i].code == code;
      assert Has(slots, code, slots[i].at);
    }
  }

  lemma FinishKeys(lim: Limits, s: State, code: string, conn: Conn, started: int)
    requires SameKeys(s)
    ensures SameKeys(Finish(lim, s, code, conn, started))
  {
    hide Put, HasCode, Distinct, Close, Oldest;
    CloseKeys(s, {Oldest(s.lastUsed).GetOr("")});
    var s1 := if |s.clientMap| >= lim.maxSize then EvictOldest(s) else s;
    hide EvictOldest;
    PutKeys(s1.lastUsed, code, started);
  }

  lemma StepKeys(lim: Limits, s: State, e: Event)
    requires SameKeys(s) && Enabled(s, e)
    ensures SameKeys(Step(lim, s, e))
  {
    hide Put, HasCode, Distinct, Close, IdleCodes, Finish;
    match e {
      case Begin(id, code, now) => PutKeys(s.lastUsed, code, now);
      case Connected(id, ok) =>
        KeysIgnoreCalls(s, Leave(s, id));
        if ok {
          FinishKeys(lim, Leave(s, id), s.calls[id].code, s.calls[id].phase.conn, s.calls[id].started);
        }
      case CleanupAt(now) => CloseKeys(s, IdleCodes(s, now, lim.timeout));
      case _ =>
    }
  }

  // ---- The maximum is not exceeded ----------------------------------------------------------

  ghost predicate Bounded(lim: Limits, s: State) {
    && |s.clientMap| <= lim.maxSize
    && "" !in s.clientMap
    && forall id :: id in s.calls ==> s.calls[id].code != ""
  }

  predicate NonEmptyCode(e: Event) {
    e.Begin? ==> e.code != ""
  }

  lemma Shrinks(m: map<string, Conn>, codes: set<string>)
    ensures |m - codes| <= |m|
    ensures forall c :: c in m && c in codes ==> |m - codes| < |m|
  {
    assert (m - codes).Keys == m.Keys - codes;
    KeysCount(m, codes);
  }

  lemma KeysCount(m: map<string, Conn>, codes: set<string>)
    ensures |m.Keys - codes| == |m.Keys| - |m.Keys * codes|
    ensures forall c :: c in m && c in codes ==> |m.Keys * codes| > 0
  {
    assert m.Keys == (m.Keys - codes) + (m.Keys * codes);
    assert forall c :: c in m && c in codes ==> c in m.Keys * codes;
  }

  /** A cache with entries has an oldest one, and unless its code is empty it is evicted. */
  lemma EvictMakesRoom(s: State)
    requires SameKeys(s) && |s.clientMap| > 0 && Oldest(s.lastUsed) != Some("")
    ensures |EvictOldest(s).clientMap| < |s.clientMap|
    ensures EvictOldest(s).clientMap.Keys <= s.clientMap.Keys
  {
    var c :| c in s.clientMap;
    assert HasCode(s.lastUsed, c);
    var oldest := Oldest(s.lastUsed);
    assert oldest.Some?;
    var i :| OldestAt(s.lastUsed, oldest.value, i);
    assert HasCode(s.lastUsed, oldest.value);
    Shrinks(s.clientMap, {oldest.value});
  }

  lemma StoreGrowsByOne(m: map<string, Conn>, code: string, conn: Conn)
    ensures |m[code := conn]| == |m| + if code in m then 0 else 1
  {
    assert m[code := conn].Keys == m.Keys + {code};
  }

  /**
   * The one way past the maximum, whatever the codes: the cache is full, the store is for a code
   * not yet in it, and the oldest entry is under the empty code, which eviction takes for no entry.
   */
  lemma FinishExceedsWhen(lim: Limits, s: State, code: string, conn: Conn, started: int)
    requires SameKeys(s) && |s.clientMap| <= lim.maxSize && lim.maxSize >= 1
    ensures |Finish(lim, s, code, conn, started).clientMap| > lim.maxSize <==>
      |s.clientMap| == lim.maxSize && code !in s.clientMap && Oldest(s.lastUsed) == Some("")
  {
    hide SameKeys, Put, Oldest;
    var s1 := if |s.clientMap| >= lim.maxSize then EvictOldest(s) else s;
    if |s.clientMap| >= lim.maxSize && Oldest(s.lastUsed) != Some("") {
      EvictMakesRoom(s);
    }
    StoreGrowsByOne(s1.clientMap, code, conn);
  }

  lemma EmptyIsNotOldest(s: State)
    requires SameKeys(s) && "" !in s.clientMap
    ensures Oldest(s.lastUsed) != Some("")
  {
    var oldest := Oldest(s.lastUsed);
    if oldest.Some? {
      var i :| OldestAt(s.lastUsed, oldest.value, i);
      assert HasCode(s.lastUsed, oldest.value);
    }
  }

  lemma FinishBounded(lim: Limits, s: State, code: string, conn: Conn, started: int)
    requires SameKeys(s) && Bounded(lim, s) && code != "" && lim.maxSize >= 1
    ensures Bounded(lim, Finish(lim, s, code, conn, started))
  {
    hide SameKeys, Put, Oldest;
    EmptyIsNotOldest(s);
    FinishExceedsWhen(lim, s, code, conn, started);
    EvictKeepsCalls(s);
  }

  lemma EvictKeepsCalls(s: State)
    ensures EvictOldest(s).calls == s.calls && EvictOldest(s).made == s.made
  {
  }

  lemma BoundedMoves(lim: Limits, s: State, s': State)
    requires Bounded(lim, s) && s'.clientMap == s.clientMap
    requires forall id :: id in s'.calls ==> s'.calls[id].code != ""
    ensures Bounded(lim, s')
  {
  }

  lemma CloseBounded(lim: Limits, s: State, codes: set<string>)
    requires Bounded(lim, s)
    ensures Bounded(lim, Close(s, codes))
  {
    Shrinks(s.clientMap, codes);
  }

  lemma StepBounded(lim: Limits, s: State, e: Event)
    requires SameKeys(s) && Bounded(lim, s) && Enabled(s, e) && NonEmptyCode(e) && lim.maxSize >= 1
    ensures Bounded(lim, Step(lim, s, e))
  {
    assert forall id :: id in s.calls ==> s.calls[id].code != "";
    hide SameKeys, Bounded, Put, Finish, IdleCodes, Close;
    if e.Connected? && e.ok {
      KeysIgnoreCalls(s, Leave(s, e.id));
      BoundedMoves(lim, s, Leave(s, e.id));
      FinishBounded(lim, Leave(s, e.id), s.calls[e.id].code, s.calls[e.id].phase.conn, s.calls[e.id].started);
    } else if e.CleanupAt? {
      CloseBounded(lim, s, IdleCodes(s, e.now, lim.timeout));
    } else {
      BoundedMoves(lim, s, Step(lim, s, e));
    }
  }

  lemma KeysIgnoreCalls(s: State, s': State)
    requires SameKeys(s) && s'.clientMap == s.clientMap && s'.lastUsed == s.lastUsed
    ensures SameKeys(s')
  {
  }

  // ---- Connections are conserved ------------------------------------------------------------

  function ConnectingIds(s: State): set<nat> {
    set i | i in s.calls && s.calls[i].phase.Connecting? :: s.calls[i].phase.conn.id
  }

  /**
   * Every client constructed is in exactly one place: with a call in flight, never connected,
   * cached, disconnected, displaced, or `loose` in the middle of a step.
   */
  ghost predicate Placed(s: State, loose: set<nat>) {
    var cached, connecting := IdsOf(s.clientMap), ConnectingIds(s);
    && Injective(s.clientMap)
    && (forall i, j :: (i in s.calls && j in s.calls && s.calls[i].phase.Connecting? && s.calls[j].phase.Connecting?
                        && s.calls[i].phase.conn.id == s.calls[j].phase.conn.id) ==> i == j)
    && connecting !! s.failed !! cached !! s.closed !! s.displaced !! loose
    && forall id: nat :: id < s.made <==>
         id in connecting || id in s.failed || id in cached || id in s.closed || id in s.displaced || id in loose
  }

  lemma CloseIds(m: map<string, Conn>, codes: set<string>)
    ensures IdsOf(m) == IdsOf(m - codes) + set c | c in m && c in codes :: m[c].id
  {
    var out := set c | c in m && c in codes :: m[c].id;
    forall c | c in m
      ensures m[c].id in IdsOf(m - codes) + out
    {
      if c !in codes {
        assert c in m - codes;
      }
    }
  }

  lemma ClosePlaced(s: State, codes: set<string>, loose: set<nat>)
    requires Placed(s, loose)
    ensures Placed(Close(s, codes), loose)
  {
    CloseIds(s.clientMap, codes);
    assert ConnectingIds(Close(s, codes)) == ConnectingIds(s);
  }

  predicate Injective(m: map<string, Conn>) {
    forall c, d :: c in m && d in m && m[c].id == m[d].id ==> c == d
  }

  /** Storing under a code adds the new id and gives up the id the code had. */
  lemma InsertIds(m: map<string, Conn>, code: string, conn: Conn)
    requires Injective(m) && conn.id !in IdsOf(m)
    ensures Injective(m[code := conn])
    ensures IdsOf(m[code := conn]) == IdsOf(m - {code}) + {conn.id}
    ensures IdsOf(m) == IdsOf(m - {code}) + if code in m then {m[code].id} else {}
    ensures code in m ==> m[code].id !in IdsOf(m - {code})
  {
    var m' := m[code := conn];
    assert forall c :: c in m ==> m[c].id in IdsOf(m);
    forall c | c in m && c != code
      ensures m[c].id in IdsOf(m - {code}) && m[c].id in IdsOf(m')
    {
      assert c in m - {code} && (m - {code})[c] == m[c] && m'[c] == m[c];
    }
    assert m'[code] == conn;
    assert code in m';
    assert forall c :: c in m - {code} ==> (m - {code})[c] == m[c];
  }

  lemma StorePlaced(s: State, code: string, conn: Conn, started: int)
    requires Placed(s, {conn.id})
    ensures Placed(StoreClient(s, code, conn, started), {})
  {
    InsertIds(s.clientMap, code, conn);
    assert ConnectingIds(StoreClient(s, code, conn, started)) == ConnectingIds(s);
    hide IdsOf, ConnectingIds, Put;
  }

  lemma LeavePlaced(s: State, id: nat)
    requires Placed(s, {}) && id in s.calls
    ensures s.calls[id].phase.Connecting? ==> Placed(Leave(s, id), {s.calls[id].phase.conn.id})
    ensures !s.calls[id].phase.Connecting? ==> Placed(Leave(s, id), {})
  {
    var s' := Leave(s, id);
    assert ConnectingIds(s) == ConnectingIds(s') + if s.calls[id].phase.Connecting? then {s.calls[id].phase.conn.id} else {} by {
      forall i | i in s.calls && s.calls[i].phase.Connecting? && i != id
        ensures s.calls[i].phase.conn.id in ConnectingIds(s')
      {
        assert i in s'.calls;
      }
    }
  }

  lemma GotoIds(s: State, id: nat, phase: Phase)
    requires id in s.calls && !s.calls[id].phase.Connecting?
    ensures ConnectingIds(Goto(s, id, phase)) == ConnectingIds(s) + if phase.Connecting? then {phase.conn.id} else {}
  {
    var s' := Goto(s, id, phase);
    forall i | i in s.calls && s.calls[i].phase.Connecting?
      ensures s.calls[i].phase.conn.id in ConnectingIds(s')
    {
      assert i != id && s'.calls[i] == s.calls[i];
    }
    assert id in s'.calls && s'.calls[id].phase == phase;
  }

  lemma GotoPlaced(s: State, id: nat, phase: Phase)
    requires Placed(s, {}) && id in s.calls && !s.calls[id].phase.Connecting?
    ensures !phase.Connecting? ==> Placed(Goto(s, id, phase), {})
    ensures phase.Connecting? && phase.conn.id == s.made ==> Placed(Goto(s.(made := s.made + 1), id, phase), {})
  {
    GotoIds(s, id, phase);
    GotoIds(s.(made := s.made + 1), id, phase);
    assert ConnectingIds(s.(made := s.made + 1)) == ConnectingIds(s);
    assert forall i :: i in s.calls && s.calls[i].phase.Connecting? ==> s.calls[i].phase.conn.id in ConnectingIds(s);
    hide ConnectingIds, IdsOf, Injective;
  }

  lemma StartPlaced(s: State, id: nat, call: InFlight)
    requires Placed(s, {}) && id !in s.calls && !call.phase.Connecting?
    ensures Placed(s.(calls := s.calls[id := call]), {})
  {
    var s' := s.(calls := s.calls[id := call]);
    assert ConnectingIds(s') == ConnectingIds(s) by {
      forall i | i in s.calls && s.calls[i].phase.Connecting?
        ensures s.calls[i].phase.conn.id in ConnectingIds(s')
      {
        assert s'.calls[i] == s.calls[i];
      }
    }
  }

  lemma PlacedIgnores(s: State, s': State)
    requires Placed(s, {}) && s'.clientMap == s.clientMap && s'.calls == s.calls && s'.made == s.made
    requires s'.failed == s.failed && s'.closed == s.closed && s'.displaced == s.displaced
    ensures Placed(s', {})
  {
    assert ConnectingIds(s') == ConnectingIds(s);
  }

  lemma FailedPlaced(s: State, id: nat)
    requires Placed(s, {id})
    ensures Placed(s.(failed := s.failed + {id}), {})
  {
    assert ConnectingIds(s.(failed := s.failed + {id})) == ConnectingIds(s);
  }

  lemma FinishPlaced(lim: Limits, s: State, code: string, conn: Conn, started: int)
    requires Placed(s, {conn.id})
    ensures Placed(Finish(lim, s, code, conn, started), {})
  {
    hide Placed, Oldest, Close, StoreClient;
    ClosePlaced(s, {Oldest(s.lastUsed).GetOr("")}, {conn.id});
    StorePlaced(if |s.clientMap| >= lim.maxSize then EvictOldest(s) else s, code, conn, started);
  }

  lemma StepPlaced(lim: Limits, s: State, e: Event)
    requires Placed(s, {}) && Enabled(s, e)
    ensures Placed(Step(lim, s, e), {})
  {
    hide Placed, Put, IdleCodes, Close, Finish;
    var s' := Step(lim, s, e);
    match e {
      case Begin(id, code, now) =>
        if code in s.clientMap { PlacedIgnores(s, s'); } else { StartPlaced(s, id, InFlight(code, now, ReadingUrl)); }
      case UrlRead(id) => GotoPlaced(s, id, s'.calls[id].phase);
      case RootRead(id) =>
        LeavePlaced(s, id);
        if id in s'.calls { GotoPlaced(s, id, s'.calls[id].phase); }
      case UrlWritten(id) =>
        var s1 := s.(urls := s.urls[s.calls[id].code := s.calls[id].phase.url]);
        PlacedIgnores(s, s1);
        GotoPlaced(s1, id, s'.calls[id].phase);
      case Imported(id, ok) =>
        LeavePlaced(s, id);
        if ok { GotoPlaced(s, id, s'.calls[id].phase); }
      case Connected(id, ok) =>
        var conn, s1 := s.calls[id].phase.conn, Leave(s, id);
        LeavePlaced(s, id);
        if ok {
          FinishPlaced(lim, s1, s.calls[id].code, conn, s.calls[id].started);
        } else {
          FailedPlaced(s1, conn.id);
          PlacedIgnores(s1.(failed := s1.failed + {conn.id}), s');
        }
      case CleanupAt(now) => ClosePlaced(s, IdleCodes(s, now, lim.timeout), {});
      case UrlExpired(code) => PlacedIgnores(s, s');
      case Admin(ev) => PlacedIgnores(s, s');
    }
  }

  // ---- URLs agree with the root table -------------------------------------------------------

  predicate KnownUrl(root: Onboarding.RootDb, code: string, url: string) {
    code in root.clients && root.clients[code].dbUrl == url && url != ""
  }

  predicate PhaseKnown(root: Onboarding.RootDb, call: InFlight) {
    match call.phase
    case WritingUrl(url) => KnownUrl(root, call.code, url)
    case Importing(url) => KnownUrl(root, call.code, url)
    case Connecting(conn) => KnownUrl(root, call.code, conn.url)
    case _ => true
  }

  /** Whatever holds a URL for a code holds the one in the root table. */
  ghost predicate UrlsAgree(s: State) {
    && (forall c :: c in s.urls ==> KnownUrl(s.root, c, s.urls[c]))
    && (forall c :: c in s.clientMap ==> KnownUrl(s.root, c, s.clientMap[c].url))
    && (forall id :: id in s.calls ==> PhaseKnown(s.root, s.calls[id]))
  }

  /** Onboarding never changes a URL once it is in the table. */
  lemma KnownUrlStays(root: Onboarding.RootDb, base: string, ev: Onboarding.Event, code: string, url: string)
    requires Onboarding.Inv(root, base) && KnownUrl(root, code, url)
    ensures KnownUrl(Onboarding.Step(root, base, ev), code, url)
  {
    assert Onboarding.Recorded(root, code);
  }

  lemma AdminKeepsUrls(s: State, base: string, ev: Onboarding.Event)
    requires UrlsAgree(s) && Onboarding.Inv(s.root, base)
    ensures UrlsAgree(s.(root := Onboarding.Step(s.root, base, ev)))
  {
    hide Onboarding.Inv, Onboarding.Step, KnownUrl;
    forall c, url | KnownUrl(s.root, c, url)
      ensures KnownUrl(Onboarding.Step(s.root, base, ev), c, url)
    {
      KnownUrlStays(s.root, base, ev, c, url);
    }
    forall id | id in s.calls
      ensures PhaseKnown(Onboarding.Step(s.root, base, ev), s.calls[id])
    {
      assert PhaseKnown(s.root, s.calls[id]);
    }
  }

  lemma FinishKeepsUrls(lim: Limits, s: State, code: string, conn: Conn, started: int)
    requires UrlsAgree(s) && KnownUrl(s.root, code, conn.url)
    ensures UrlsAgree(Finish(lim, s, code, conn, started))
  {
    hide KnownUrl, PhaseKnown, Put, Oldest;
  }

  lemma StepUrls(lim: Limits, s: State, e: Event)
    requires UrlsAgree(s) && Onboarding.Inv(s.root, lim.base) && Enabled(s, e)
    ensures UrlsAgree(Step(lim, s, e)) && Onboarding.Inv(Step(lim, s, e).root, lim.base)
  {
    hide Onboarding.Inv, Onboarding.Step, Put, Finish, IdleCodes;
    match e {
      case Connected(id, ok) =>
        if ok {
          assert PhaseKnown(s.root, s.calls[id]);
          FinishKeepsUrls(lim, Leave(s, id), s.calls[id].code, s.calls[id].phase.conn, s.calls[id].started);
          FinishKeepsRoot(lim, Leave(s, id), s.calls[id].code, s.calls[id].phase.conn, s.calls[id].started);
        }
      case Admin(ev) =>
        Onboarding.StepInv(s.root, lim.base, ev);
        AdminKeepsUrls(s, lim.base, ev);
      case _ =>
    }
  }

  lemma FinishKeepsRoot(lim: Limits, s: State, code: string, conn: Conn, started: int)
    ensures Finish(lim, s, code, conn, started).root == s.root
  {
  }

  // ---- Runs ---------------------------------------------------------------------------------

  function Start(databases: set<string>): State {
    State(map[], [], map[], 0, {}, {}, {}, map[], Onboarding.Start(databases))
  }

  /** Runs take events in any order; one that is not enabled cannot happen. */
  function Run(lim: Limits, databases: set<string>, es: seq<Event>): State {
    if es == [] then Start(databases)
    else
      var s := Run(lim, databases, es[..|es| - 1]);
      if Enabled(s, es[|es| - 1]) then Step(lim, s, es[|es| - 1]) else s
  }

  /** In every reachable state both maps have the same keys. */
  lemma {:induction false} RunKeys(lim: Limits, databases: set<string>, es: seq<Event>)
    ensures SameKeys(Run(lim, databases, es))
  {
    hide SameKeys, Step;
    if es != [] {
      var s, e := Run(lim, databases, es[..|es| - 1]), es[|es| - 1];
      RunKeys(lim, databases, es[..|es| - 1]);
      if Enabled(s, e) {
        StepKeys(lim, s, e);
      }
    } else {
      StartSafe(lim, databases);
    }
  }

  lemma StartSafe(lim: Limits, databases: set<string>)
    ensures SameKeys(Start(databases)) && Placed(Start(databases), {}) && UrlsAgree(Start(databases))
    ensures lim.maxSize >= 1 ==> Bounded(lim, Start(databases))
    ensures Onboarding.Inv(Onboarding.Start(databases), lim.base)
  {
  }

  /**
   * Interleaving safety: whatever the interleaving, the maps have the same keys, and with a maximum
   * of at least 1 and non-empty codes the cache never exceeds it.
   */
  lemma {:induction false} InterleavingSafety(lim: Limits, databases: set<string>, es: seq<Event>)
    requires lim.maxSize >= 1 && forall i :: 0 <= i < |es| ==> NonEmptyCode(es[i])
    ensures SameKeys(Run(lim, databases, es))
    ensures |Run(lim, databases, es).clientMap| <= lim.maxSize
    ensures Bounded(lim, Run(lim, databases, es))
  {
    RunKeys(lim, databases, es);
    if es != [] {
      var s, e := Run(lim, databases, es[..|es| - 1]), es[|es| - 1];
      InterleavingSafety(lim, databases, es[..|es| - 1]);
      hide SameKeys, Step, Bounded;
      if Enabled(s, e) {
        StepBounded(lim, s, e);
      }
    }
  }

  lemma RunOneMore(lim: Limits, databases: set<string>, es: seq<Event>, e: Event)
    requires Enabled(Run(lim, databases, es), e)
    ensures Run(lim, databases, es + [e]) == Step(lim, Run(lim, databases, es), e)
  {
    assert (es + [e])[..|es|] == es;
  }

  /** The steps of one call that finds nothing cached and meets no failure. */
  function Fetch(id: nat, code: string, now: int): seq<Event> {
    [Begin(id, code, now), UrlRead(id), RootRead(id), UrlWritten(id), Imported(id, true), Connected(id, true)]
  }

  lemma RunFetch(lim: Limits, databases: set<string>, es: seq<Event>, id: nat, code: string, now: int)
    requires
      var s := Run(lim, databases, es);
      && id !in s.calls && code !in s.clientMap && code !in s.urls
      && code in s.root.clients && s.root.clients[code].dbUrl != ""
    ensures
      var s := Run(lim, databases, es);
      var url := s.root.clients[code].dbUrl;
      Run(lim, databases, es + Fetch(id, code, now))
        == Finish(lim, s.(urls := s.urls[code := url], made := s.made + 1), code, Conn(s.made, url), now)
  {
    hide Finish, Run;
    var s := Run(lim, databases, es);
    var url := s.root.clients[code].dbUrl;
    var es1 := es + [Begin(id, code, now)];
    var es2 := es1 + [UrlRead(id)];
    var es3 := es2 + [RootRead(id)];
    var es4 := es3 + [UrlWritten(id)];
    var es5 := es4 + [Imported(id, true)];
    RunOneMore(lim, databases, es, Begin(id, code, now));
    RunOneMore(lim, databases, es1, UrlRead(id));
    RunOneMore(lim, databases, es2, RootRead(id));
    RunOneMore(lim, databases, es3, UrlWritten(id));
    RunOneMore(lim, databases, es4, Imported(id, true));
    RunOneMore(lim, databases, es5, Connected(id, true));
    assert es5 + [Connected(id, true)] == es + Fetch(id, code, now);
    var s5 := Run(lim, databases, es5);
    assert Leave(s5, id) == s.(urls := s.urls[code := url], made := s.made + 1);
  }

  function Enroll(code: string): seq<Event> {
    [Admin(Onboarding.Register(code)), Admin(Onboarding.SetPaid(code, true)), Admin(Onboarding.Onboard(code, true, true, true))]
  }

  /** A client not yet in the table whose database is not there gets a row with a URL; nothing else changes. */
  lemma RunEnroll(lim: Limits, databases: set<string>, es: seq<Event>, code: string)
    requires
      var s := Run(lim, databases, es);
      code !in s.root.clients && Onboarding.DbName(code) !in s.root.databases
    ensures
      var s, s' := Run(lim, databases, es), Run(lim, databases, es + Enroll(code));
      && s' == s.(root := s'.root)
      && s'.root.clients.Keys == s.root.clients.Keys + {code} && s'.root.clients[code].dbUrl != ""
      && (forall c :: c in s.root.clients ==> s'.root.clients[c] == s.root.clients[c])
      && s'.root.databases == s.root.databases + {Onboarding.DbName(code)}
  {
    hide Run, Onboarding.DbName, Onboarding.DbUrl;
    var es1 := es + [Admin(Onboarding.Register(code))];
    var es2 := es1 + [Admin(Onboarding.SetPaid(code, true))];
    RunOneMore(lim, databases, es, Admin(Onboarding.Register(code)));
    RunOneMore(lim, databases, es1, Admin(Onboarding.SetPaid(code, true)));
    RunOneMore(lim, databases, es2, Admin(Onboarding.Onboard(code, true, true, true)));
    assert es2 + [Admin(Onboarding.Onboard(code, true, true, true))] == es + Enroll(code);
  }

  lemma TwoEnrolled(lim: Limits)
    ensures
      var s := Run(lim, {}, Enroll("") + Enroll("b"));
      && s == Start({}).(root := s.root)
      && s.root.clients.Keys == {"", "b"} && s.root.clients[""].dbUrl != "" && s.root.clients["b"].dbUrl != ""
  {
    assert [] + Enroll("") == Enroll("");
    assert |Onboarding.DbName("")| != |Onboarding.DbName("b")|;
    RunEnroll(lim, {}, [], "");
    RunEnroll(lim, {}, Enroll(""), "b");
  }

  /** The first store of an empty cache. */
  lemma FirstStore(lim: Limits, s: State, conn: Conn)
    requires s.clientMap == map[] && s.lastUsed == [] && lim.maxSize == 1
    ensures
      var s' := Finish(lim, s, "", conn, 0);
      && s' == s.(clientMap := map["" := conn], lastUsed := s'.lastUsed)
      && Oldest(s'.lastUsed) == Some("")
  {
    assert Put([], "", 0) == [Used("", 0)];
  }

  /** A run past a maximum of 1: a client with an empty code is onboarded and fetched first. */
  lemma EmptyCodeExceeds(lim: Limits)
    requires lim.maxSize == 1
    ensures |Run(lim, {}, Enroll("") + Enroll("b") + Fetch(0, "", 0) + Fetch(1, "b", 1)).clientMap| > lim.maxSize
  {
    hide Run, Finish, Enroll, Fetch, Oldest, SameKeys;
    var es1 := Enroll("") + Enroll("b");
    var es2 := es1 + Fetch(0, "", 0);
    var s1, s2 := Run(lim, {}, es1), Run(lim, {}, es2);
    TwoEnrolled(lim);
    RunFetch(lim, {}, es1, 0, "", 0);
    var url := s1.root.clients[""].dbUrl;
    FirstStore(lim, s1.(urls := s1.urls["" := url], made := s1.made + 1), Conn(s1.made, url));
    RunFetch(lim, {}, es2, 1, "b", 1);
    RunKeys(lim, {}, es2);
    var url' := s2.root.clients["b"].dbUrl;
    var before := s2.(urls := s2.urls["b" := url'], made := s2.made + 1);
    KeysIgnoreCalls(s2, before);
    FinishExceedsWhen(lim, before, "b", Conn(s2.made, url'), 1);
  }

  lemma {:induction false} RunPlaced(lim: Limits, databases: set<string>, es: seq<Event>)
    ensures Placed(Run(lim, databases, es), {})
  {
    hide Placed, Step;
    if es != [] {
      var s, e := Run(lim, databases, es[..|es| - 1]), es[|es| - 1];
      RunPlaced(lim, databases, es[..|es| - 1]);
      if Enabled(s, e) {
        StepPlaced(lim, s, e);
      }
    } else {
      StartSafe(lim, databases);
    }
  }

  /** The clients whose `$connect` succeeded. */
  function OpenedIds(s: State): set<nat> {
    set id: nat | id < s.made && id !in ConnectingIds(s) && id !in s.failed
  }

  function IdsUnder(m: map<string, Conn>, codes: set<string>): set<nat> {
    set c | c in codes && c in m :: m[c].id
  }

  lemma {:induction false} CachedCount(m: map<string, Conn>, codes: set<string>)
    requires Injective(m) && codes <= m.Keys
    ensures |IdsUnder(m, codes)| == |codes|
    decreases |codes|
  {
    if codes != {} {
      var c :| c in codes;
      CachedCount(m, codes - {c});
      assert IdsUnder(m, codes) == IdsUnder(m, codes - {c}) + {m[c].id};
      assert m[c].id !in IdsUnder(m, codes - {c});
    } else {
      assert IdsUnder(m, codes) == {};
    }
  }

  lemma DisjointCount(a: set<nat>, b: set<nat>, c: set<nat>)
    requires a !! b !! c
    ensures |a + b + c| == |a| + |b| + |c|
  {
    assert |a + b| == |a| + |b|;
  }

  lemma OpenedIsUnion(s: State)
    requires Placed(s, {})
    ensures OpenedIds(s) == IdsOf(s.clientMap) + s.closed + s.displaced
    ensures IdsOf(s.clientMap) !! s.closed !! s.displaced
  {
    hide IdsOf, ConnectingIds, Injective;
  }

  /**
   * Conservation: over every interleaving, opened connections are those cached, disconnected, or
   * displaced by a store on an occupied key, each exactly once.
   */
  lemma ConnectionsConserved(lim: Limits, databases: set<string>, es: seq<Event>)
    ensures
      var s := Run(lim, databases, es);
      && OpenedIds(s) == IdsOf(s.clientMap) + s.closed + s.displaced
      && IdsOf(s.clientMap) !! s.closed !! s.displaced
      && |OpenedIds(s)| == |s.clientMap| + |s.closed| + |s.displaced|
  {
    var s := Run(lim, databases, es);
    RunPlaced(lim, databases, es);
    hide Run;
    OpenedIsUnion(s);
    CachedCount(s.clientMap, s.clientMap.Keys);
    assert IdsUnder(s.clientMap, s.clientMap.Keys) == IdsOf(s.clientMap);
    DisjointCount(IdsOf(s.clientMap), s.closed, s.displaced);
  }

  lemma {:induction false} RunUrls(lim: Limits, databases: set<string>, es: seq<Event>)
    ensures UrlsAgree(Run(lim, databases, es)) && Onboarding.Inv(Run(lim, databases, es).root, lim.base)
  {
    hide UrlsAgree, Onboarding.Inv, Step;
    if es != [] {
      var s, e := Run(lim, databases, es[..|es| - 1]), es[|es| - 1];
      RunUrls(lim, databases, es[..|es| - 1]);
      if Enabled(s, e) {
        StepUrls(lim, s, e);
      }
    } else {
      StartSafe(lim, databases);
    }
  }

  /** The URL a code has everywhere: the root table's, which is the one function of the code. */
  predicate RightUrl(lim: Limits, s: State, code: string, url: string) {
    code in s.root.clients && s.root.clients[code].dbUrl == url && url == Onboarding.DbUrl(lim.base, code)
  }

  /** In every reachable state each cached client and cached URL is the one the root table gives. */
  lemma CachedUrlsAgree(lim: Limits, databases: set<string>, es: seq<Event>)
    ensures
      var s := Run(lim, databases, es);
      && (forall c :: c in s.urls ==> RightUrl(lim, s, c, s.urls[c]))
      && (forall c :: c in s.clientMap ==> RightUrl(lim, s, c, s.clientMap[c].url))
      && (forall id :: id in s.calls && s.calls[id].phase.Connecting? ==> RightUrl(lim, s, s.calls[id].code, s.calls[id].phase.conn.url))
  {
    var s := Run(lim, databases, es);
    RunUrls(lim, databases, es);
    hide Run, Onboarding.DbUrl;
    forall c, url | KnownUrl(s.root, c, url)
      ensures RightUrl(lim, s, c, url)
    {
      assert Onboarding.Recorded(s.root, c);
    }
    forall id | id in s.calls && s.calls[id].phase.Connecting?
      ensures RightUrl(lim, s, s.calls[id].code, s.calls[id].phase.conn.url)
    {
      assert PhaseKnown(s.root, s.calls[id]);
    }
  }

  // ---- What calls are answered --------------------------------------------------------------

  /** The end of a call: the client it returns, or none if it throws. */
  datatype Reply = Reply(code: string, client: Option<Conn>)

  /** The reply of the call that a step ends, if it ends one. */
  function ReplyOf(s: State, e: Event): Option<Reply>
    requires Enabled(s, e)
  {
    match e
    case Begin(id, code, now) => if code in s.clientMap then Some(Reply(code, Some(s.clientMap[code]))) else None
    case RootRead(id) =>
      var code := s.calls[id].code;
      if code !in s.root.clients || s.root.clients[code].dbUrl == "" then Some(Reply(code, None)) else None
    case Imported(id, ok) => if ok then None else Some(Reply(s.calls[id].code, None))
    case Connected(id, ok) => Some(Reply(s.calls[id].code, if ok then Some(s.calls[id].phase.conn) else None))
    case _ => None
  }

  predicate Replies(s: State, e: Event, code: string, conn: Conn) {
    Enabled(s, e) && ReplyOf(s, e) == Some(Reply(code, Some(conn)))
  }

  /** The client is cached under the code it was returned for, or disconnected or displaced since. */
  predicate Kept(s: State, code: string, conn: Conn) {
    (code in s.clientMap && s.clientMap[code] == conn) || conn.id in s.closed || conn.id in s.displaced
  }

  lemma ReplyIsCached(lim: Limits, s: State, e: Event, code: string, conn: Conn)
    requires Replies(s, e, code, conn)
    ensures code in Step(lim, s, e).clientMap && Step(lim, s, e).clientMap[code] == conn
  {
    hide Put, EvictOldest;
  }

  lemma FinishKeeps(lim: Limits, s: State, code: string, conn: Conn, stored: string, next: Conn, started: int)
    requires Kept(s, code, conn)
    ensures Kept(Finish(lim, s, stored, next, started), code, conn)
  {
    hide Put, Oldest;
  }

  lemma StepKeeps(lim: Limits, s: State, e: Event, code: string, conn: Conn)
    requires Kept(s, code, conn) && Enabled(s, e)
    ensures Kept(Step(lim, s, e), code, conn)
  {
    hide Put, IdleCodes, Finish;
    if e.Connected? && e.ok {
      var call := s.calls[e.id];
      FinishKeeps(lim, Leave(s, e.id), code, conn, call.code, call.phase.conn, call.started);
    }
  }

  lemma {:induction false} RunKeeps(lim: Limits, databases: set<string>, es: seq<Event>, i: nat, code: string, conn: Conn)
    requires i < |es| && Replies(Run(lim, databases, es[..i]), es[i], code, conn)
    ensures Kept(Run(lim, databases, es), code, conn)
  {
    hide Step, Replies;
    var before, e := es[..|es| - 1], es[|es| - 1];
    var s := Run(lim, databases, before);
    if i < |es| - 1 {
      assert before[..i] == es[..i];
      RunKeeps(lim, databases, before, i, code, conn);
      if Enabled(s, e) {
        StepKeeps(lim, s, e, code, conn);
      }
    } else {
      assert before == es[..i];
      assert Enabled(s, e) by { RepliesEnabled(s, e, code, conn); }
      ReplyIsCached(lim, s, e, code, conn);
    }
  }

  lemma RepliesEnabled(s: State, e: Event, code: string, conn: Conn)
    requires Replies(s, e, code, conn)
    ensures Enabled(s, e)
  {
  }

  /**
   * Whatever the interleaving, a call returns an open connection to its own code's database, the one
   * cached under that code afterwards.
   */
  lemma RepliesAreRight(lim: Limits, databases: set<string>, es: seq<Event>, e: Event, code: string, conn: Conn)
    requires Replies(Run(lim, databases, es), e, code, conn)
    ensures
      var s' := Run(lim, databases, es + [e]);
      && code in s'.clientMap && s'.clientMap[code] == conn && RightUrl(lim, s', code, conn.url)
      && conn.id !in s'.closed && conn.id !in s'.failed && conn.id !in s'.displaced
  {
    var s' := Run(lim, databases, es + [e]);
    RunOneMore(lim, databases, es, e);
    ReplyIsCached(lim, Run(lim, databases, es), e, code, conn);
    CachedUrlsAgree(lim, databases, es + [e]);
    RunPlaced(lim, databases, es + [e]);
    hide Run, RightUrl, Injective, ConnectingIds;
    assert conn.id in IdsOf(s'.clientMap);
  }

  /** Tenant isolation: in every interleaving two calls that return the same connection asked for the same code. */
  lemma TenantIsolation(lim: Limits, databases: set<string>, es: seq<Event>, i: nat, j: nat, code: string, code': string,
                        conn: Conn, conn': Conn)
    requires i < j < |es| && conn.id == conn'.id
    requires Replies(Run(lim, databases, es[..i]), es[i], code, conn)
    requires Replies(Run(lim, databases, es[..j]), es[j], code', conn')
    ensures code == code' && conn == conn'
  {
    var upTo := es[..j + 1];
    assert upTo[..i] == es[..i] && upTo[i] == es[i] && upTo == es[..j] + [es[j]];
    RunKeeps(lim, databases, upTo, i, code, conn);
    RepliesAreRight(lim, databases, es[..j], es[j], code', conn');
    RunPlaced(lim, databases, upTo);
  }
}
