/**
 * The cache of live tenant connections, called one request at a time: two parallel maps refine a
 * bounded list in order of last use. Connections are numbered as they are opened.
 */
module TenantClients {
  import opened Options

  /** An open `PrismaClient`. */
  datatype Conn = Conn(id: nat, url: string)

  datatype Client = Client(code: string, conn: Conn, at: int)

  /** The recency list, least recently used first. */
  type Recency = seq<Client>

  // ---- The recency list ---------------------------------------------------------------------

  predicate Ordered(r: Recency) {
    && (forall i, j :: 0 <= i < j < |r| ==> r[i].at < r[j].at)
    && (forall i, j :: 0 <= i < j < |r| ==> r[i].code != r[j].code)
  }

  /** Where the code is in the list; the length of the list if it is not there. */
  function IndexOf(r: Recency, code: string): (k: nat)
    ensures k <= |r| && (k < |r| ==> r[k].code == code)
    ensures forall i :: 0 <= i < k ==> r[i].code != code
  {
    if r == [] || r[0].code == code then 0
    else
      var k := IndexOf(r[1..], code);
      assert forall i :: 1 <= i < |r| ==> r[i] == r[1..][i - 1];
      k + 1
  }

  /** A hit moves the entry to the back, with the new time. */
  function Touch(r: Recency, k: nat, now: int): Recency
    requires k < |r|
  {
    r[..k] + r[k + 1..] + [r[k].(at := now)]
  }

  /** At capacity the front goes; the search's answer is not acted on when it is the empty string. */
  function Evict(r: Recency, maxSize: int): Recency {
    if |r| >= maxSize && |r| > 0 && r[0].code != "" then r[1..] else r
  }

  function Store(r: Recency, maxSize: int, c: Client): Recency {
    Evict(r, maxSize) + [c]
  }

  predicate Idle(at: int, now: int, timeout: int) {
    now - at > timeout
  }

  /** How many entries at the front are idle. */
  function IdlePrefix(r: Recency, now: int, timeout: int): (k: nat)
    ensures k <= |r| && (k < |r| ==> !Idle(r[k].at, now, timeout))
    ensures forall i :: 0 <= i < k ==> Idle(r[i].at, now, timeout)
  {
    if r == [] || !Idle(r[0].at, now, timeout) then 0
    else
      var k := IdlePrefix(r[1..], now, timeout);
      assert forall i :: 1 <= i < |r| ==> r[i] == r[1..][i - 1];
      k + 1
  }

  /** Idle cleanup drops a prefix. */
  function DropIdle(r: Recency, now: int, timeout: int): (d: Recency)
    ensures |d| <= |r| && d == r[|r| - |d|..]
  {
    r[IdlePrefix(r, now, timeout)..]
  }

  lemma SuffixOrdered(r: Recency, k: nat)
    requires Ordered(r) && k <= |r|
    ensures Ordered(r[k..])
  {
    assert forall i :: 0 <= i < |r| - k ==> r[k..][i] == r[k + i];
  }

  lemma NotIdleFrom(r: Recency, now: int, timeout: int, i: nat)
    requires Ordered(r) && i < |r|
    ensures Idle(r[i].at, now, timeout) <==> i < IdlePrefix(r, now, timeout)
  {
    var k := IdlePrefix(r, now, timeout);
    assert k < i ==> r[k].at < r[i].at;
  }

  lemma DropNothing(r: Recency, now: int, timeout: int)
    requires r == [] || !Idle(r[0].at, now, timeout)
    ensures DropIdle(r, now, timeout) == r
  {
    assert IdlePrefix(r, now, timeout) == 0;
  }

  lemma DropIdleMembers(r: Recency, now: int, timeout: int, c: Client)
    requires Ordered(r)
    ensures c in DropIdle(r, now, timeout) <==> c in r && !Idle(c.at, now, timeout)
  {
    var k := IdlePrefix(r, now, timeout);
    hide Ordered, Idle, IdlePrefix;
    if c in r {
      var i :| 0 <= i < |r| && r[i] == c;
      NotIdleFrom(r, now, timeout, i);
      assert k <= i ==> r[k..][i - k] == c;
    }
    if c in r[k..] {
      var j :| 0 <= j < |r[k..]| && r[k..][j] == c;
      NotIdleFrom(r, now, timeout, k + j);
    }
  }

  /** What remains after cleanup is exactly what was not idle, unchanged and in order. */
  lemma DropIdleIsExact(r: Recency, now: int, timeout: int)
    requires Ordered(r)
    ensures Ordered(DropIdle(r, now, timeout))
    ensures forall c :: c in DropIdle(r, now, timeout) <==> c in r && !Idle(c.at, now, timeout)
    ensures DropIdle(DropIdle(r, now, timeout), now, timeout) == DropIdle(r, now, timeout)
  {
    hide Ordered, Idle, IdlePrefix;
    SuffixOrdered(r, IdlePrefix(r, now, timeout));
    DropNothing(DropIdle(r, now, timeout), now, timeout);
    forall c {
      DropIdleMembers(r, now, timeout, c);
    }
  }

  // ---- The pool: what a caller can observe --------------------------------------------------

  datatype Pool = Pool(
    recency: Recency,
    made: nat,                 // connections opened so far; their ids are the numbers below
    closed: set<nat>,          // connections disconnected
    urls: map<string, string>  // the shared cache of database URLs
  )

  /** The URL a lookup finds: the cached one unless empty, else the root table's unless empty. */
  function UrlOf(urls: map<string, string>, roots: map<string, string>, code: string): Option<string> {
    if code in urls && urls[code] != "" then Some(urls[code])
    else if code in roots && roots[code] != "" then Some(roots[code])
    else None
  }

  datatype Call =
    | Get(code: string, now: int, importOk: bool, connectOk: bool)
    | Cleanup(now: int)

  /** One request, by what it does to the recency list. */
  function Serve(p: Pool, maxSize: int, timeout: int, roots: map<string, string>, c: Call): (Pool, Option<Conn>) {
    match c
    case Get(code, now, importOk, connectOk) =>
      var k := IndexOf(p.recency, code);
      if k < |p.recency| then (p.(recency := Touch(p.recency, k, now)), Some(p.recency[k].conn))
      else
        var url := UrlOf(p.urls, roots, code);
        if url.None? then (p, None)
        else
          var p1 := p.(urls := p.urls[code := url.value]);
          if !importOk || !connectOk then (p1, None)
          else
            var conn := Conn(p.made, url.value);
            var out := p.recency[..|p.recency| - |Evict(p.recency, maxSize)|];
            (p1.(recency := Store(p.recency, maxSize, Client(code, conn, now)),
                 made := p.made + 1,
                 closed := p.closed + Ids(out)), Some(conn))
    case Cleanup(now) =>
      var rest := DropIdle(p.recency, now, timeout);
      (p.(recency := rest, closed := p.closed + Ids(p.recency[..|p.recency| - |rest|])), None)
  }

  function Ids(r: Recency): set<nat> {
    set i | 0 <= i < |r| :: r[i].conn.id
  }

  /** Every opened connection is cached or closed, and not both; no two codes share one. */
  ghost predicate Conserved(p: Pool) {
    && (forall i, j :: 0 <= i < j < |p.recency| ==> p.recency[i].conn.id != p.recency[j].conn.id)
    && Ids(p.recency) !! p.closed
    && forall id: nat :: id < p.made <==> id in Ids(p.recency) || id in p.closed
  }

  predicate Later(r: Recency, c: Call) {
    c.Get? ==> forall i :: 0 <= i < |r| ==> r[i].at < c.now
  }

  lemma TouchOrdered(r: Recency, k: nat, now: int)
    requires Ordered(r) && k < |r| && forall i :: 0 <= i < |r| ==> r[i].at < now
    ensures Ordered(Touch(r, k, now))
  {
    var t := Touch(r, k, now);
    assert forall i :: 0 <= i < |r| - 1 ==> t[i] == r[if i < k then i else i + 1];
  }

  lemma AppendOrdered(r: Recency, c: Client)
    requires Ordered(r) && forall i :: 0 <= i < |r| ==> r[i].at < c.at && r[i].code != c.code
    ensures Ordered(r + [c])
  {
  }

  lemma StoreOrdered(r: Recency, maxSize: int, c: Client)
    requires Ordered(r) && IndexOf(r, c.code) == |r| && forall i :: 0 <= i < |r| ==> r[i].at < c.at
    ensures Ordered(Store(r, maxSize, c))
  {
    AppendOrdered(Evict(r, maxSize), c);
  }

  lemma ServeKeepsOrder(p: Pool, maxSize: int, timeout: int, roots: map<string, string>, c: Call)
    requires Ordered(p.recency) && Later(p.recency, c)
    ensures Ordered(Serve(p, maxSize, timeout, roots, c).0.recency)
  {
    hide Ordered, Touch, Store, UrlOf, DropIdle, Ids, Evict;
    match c {
      case Get(code, now, _, _) =>
        var k := IndexOf(p.recency, code);
        if k < |p.recency| {
          TouchOrdered(p.recency, k, now);
        } else {
          forall conn {
            StoreOrdered(p.recency, maxSize, Client(code, conn, now));
          }
        }
      case Cleanup(now) => DropIdleIsExact(p.recency, now, timeout);
    }
  }

  lemma ConservedSplit(p: Pool, k: nat)
    requires Conserved(p) && k <= |p.recency|
    ensures Conserved(p.(recency := p.recency[k..], closed := p.closed + Ids(p.recency[..k])))
    ensures Ids(p.recency[..k]) !! p.closed
  {
    var r := p.recency;
    assert forall id :: id in Ids(r) <==> id in Ids(r[..k]) || id in Ids(r[k..]) by {
      forall i | 0 <= i < |r|
        ensures r[i].conn.id in Ids(r[..k]) || r[i].conn.id in Ids(r[k..])
      {
        assert if i < k then r[..k][i] == r[i] else r[k..][i - k] == r[i];
      }
    }
  }

  lemma AppendConserves(p: Pool, c: Client)
    requires Conserved(p) && c.conn.id == p.made
    ensures Conserved(p.(recency := p.recency + [c], made := p.made + 1))
  {
    var r := p.recency + [c];
    assert forall i :: 0 <= i < |p.recency| ==> r[i] == p.recency[i] && p.recency[i].conn.id in Ids(p.recency);
    assert Ids(r) == Ids(p.recency) + {p.made} by {
      assert r[|p.recency|] == c;
    }
  }

  lemma TouchKeepsIds(r: Recency, k: nat, now: int)
    requires k < |r|
    ensures Ids(Touch(r, k, now)) == Ids(r)
  {
    var t := Touch(r, k, now);
    forall i | 0 <= i < |r|
      ensures r[i].conn.id in Ids(t)
    {
      var j := if i < k then i else if i == k then |r| - 1 else i - 1;
      assert t[j].conn == r[i].conn;
    }
  }

  lemma ServeConserves(p: Pool, maxSize: int, timeout: int, roots: map<string, string>, c: Call)
    requires Conserved(p)
    ensures Conserved(Serve(p, maxSize, timeout, roots, c).0)
  {
    var r, p' := p.recency, Serve(p, maxSize, timeout, roots, c).0;
    match c {
      case Get(code, now, _, _) =>
        var k := IndexOf(r, code);
        if k < |r| {
          TouchKeepsIds(r, k, now);
        } else {
          var e := |r| - |Evict(r, maxSize)|;
          ConservedSplit(p, e);
          assert Evict(r, maxSize) == r[e..];
          if p'.made > p.made {
            AppendConserves(p.(recency := r[e..], closed := p.closed + Ids(r[..e])), p'.recency[|r| - e]);
          }
        }
      case Cleanup(now) => ConservedSplit(p, |r| - |DropIdle(r, now, timeout)|);
    }
  }

  // ---- Runs of requests ---------------------------------------------------------------------

  function RunCalls(p: Pool, maxSize: int, timeout: int, roots: map<string, string>, calls: seq<Call>): Pool {
    if calls == [] then p
    else Serve(RunCalls(p, maxSize, timeout, roots, calls[..|calls| - 1]), maxSize, timeout, roots, calls[|calls| - 1]).0
  }

  /** Requests come one after the other on a strictly increasing clock. */
  predicate Sequential(calls: seq<Call>) {
    forall i, j :: 0 <= i < j < |calls| ==> calls[i].now < calls[j].now
  }

  predicate NonEmptyCodes(calls: seq<Call>) {
    forall i :: 0 <= i < |calls| && calls[i].Get? ==> calls[i].code != ""
  }

  const EmptyPool := Pool([], 0, {}, map[])

  predicate IsFor(c: Call, code: string) {
    c.Get? && c.code == code
  }

  /** The last request for the code was made at this time. */
  predicate LastRequested(calls: seq<Call>, code: string, at: int) {
    exists j :: 0 <= j < |calls| && IsFor(calls[j], code) && calls[j].now == at
                && forall m :: j < m < |calls| ==> !IsFor(calls[m], code)
  }

  /** Every entry's time is that of the last request for its code. */
  predicate LastUsedBy(r: Recency, calls: seq<Call>) {
    forall i :: 0 <= i < |r| ==> LastRequested(calls, r[i].code, r[i].at)
  }

  predicate In(r: Recency, x: Client) {
    exists k :: 0 <= k < |r| && r[k] == x
  }

  lemma TouchFrom(r: Recency, k: nat, now: int, i: nat)
    requires Ordered(r) && k < |r| && i < |r|
    ensures
      var x := Touch(r, k, now)[i];
      if x.code == r[k].code then x.at == now else In(r, x)
  {
    var j := if i < k then i else i + 1;
    if i < |r| - 1 {
      assert Touch(r, k, now)[i] == r[j];
    }
  }

  lemma StoreFrom(r: Recency, maxSize: int, c: Client, i: nat)
    requires IndexOf(r, c.code) == |r| && i < |Store(r, maxSize, c)|
    ensures
      var x := Store(r, maxSize, c)[i];
      if x.code == c.code then x.at == c.at else In(r, x)
  {
    var e := |r| - |Evict(r, maxSize)|;
    if i < |r| - e {
      assert Store(r, maxSize, c)[i] == r[e + i];
    }
  }

  /** After a request, every entry is an old one or the requested code's, used now. */
  lemma WhereFrom(p: Pool, maxSize: int, timeout: int, roots: map<string, string>, c: Call, i: nat)
    requires Ordered(p.recency)
    requires i < |Serve(p, maxSize, timeout, roots, c).0.recency|
    ensures
      var x := Serve(p, maxSize, timeout, roots, c).0.recency[i];
      if IsFor(c, x.code) then x.at == c.now else In(p.recency, x)
  {
    hide Ordered, Touch, Store, UrlOf, Ids, Evict;
    var r, r' := p.recency, Serve(p, maxSize, timeout, roots, c).0.recency;
    match c {
      case Get(code, now, _, _) =>
        var k := IndexOf(r, code);
        if k < |r| {
          TouchKeepsLength(r, k, now);
          TouchFrom(r, k, now, i);
        } else if r' == r {
          assert r[i] == r'[i];
        } else {
          StoreFrom(r, maxSize, Client(code, Serve(p, maxSize, timeout, roots, c).1.value, now), i);
        }
      case Cleanup(now) => assert r[|r| - |r'| + i] == r'[i];
    }
  }

  lemma TouchKeepsLength(r: Recency, k: nat, now: int)
    requires k < |r|
    ensures |Touch(r, k, now)| == |r|
  {
  }

  lemma LastUsedStep(p: Pool, maxSize: int, timeout: int, roots: map<string, string>, before: seq<Call>, c: Call)
    requires Ordered(p.recency) && LastUsedBy(p.recency, before)
    ensures LastUsedBy(Serve(p, maxSize, timeout, roots, c).0.recency, before + [c])
  {
    hide Serve;
    var r, r', calls := p.recency, Serve(p, maxSize, timeout, roots, c).0.recency, before + [c];
    forall i | 0 <= i < |r'|
      ensures LastRequested(calls, r'[i].code, r'[i].at)
    {
      WhereFrom(p, maxSize, timeout, roots, c, i);
      assert calls[|before|] == c;
      if !IsFor(c, r'[i].code) {
        assert In(r, r'[i]);
        var k :| 0 <= k < |r| && r[k] == r'[i];
        assert LastRequested(before, r[k].code, r[k].at);
        var j :| 0 <= j < |before| && IsFor(before[j], r[k].code) && before[j].now == r[k].at
                 && forall m :: j < m < |before| ==> !IsFor(before[m], r[k].code);
        assert calls[j] == before[j];
        assert forall m :: j < m < |before| ==> calls[m] == before[m];
      }
    }
  }

  /**
   * Over every run of one request after the other: the list is ordered by last use, connections are
   * conserved, and with a positive maximum and non-empty codes the maximum is never exceeded.
   */
  lemma {:induction false} SequentialRun(maxSize: int, timeout: int, roots: map<string, string>, calls: seq<Call>)
    requires Sequential(calls)
    ensures
      var p := RunCalls(EmptyPool, maxSize, timeout, roots, calls);
      && Ordered(p.recency) && LastUsedBy(p.recency, calls) && Conserved(p)
      && (maxSize >= 1 && NonEmptyCodes(calls) ==> |p.recency| <= maxSize)
  {
    hide Serve, Conserved, LastUsedBy;
    if calls != [] {
      var before, c := calls[..|calls| - 1], calls[|calls| - 1];
      var p := RunCalls(EmptyPool, maxSize, timeout, roots, before);
      SequentialRun(maxSize, timeout, roots, before);
      assert before + [c] == calls;
      LastUsedStep(p, maxSize, timeout, roots, before, c);
      UsedEarlier(p.recency, before, c);
      ServeKeepsOrder(p, maxSize, timeout, roots, c);
      ServeConserves(p, maxSize, timeout, roots, c);
      ServeKeepsMaximum(p, maxSize, timeout, roots, before, c);
    } else {
      EmptyIsFine();
    }
  }

  lemma EmptyIsFine()
    ensures Conserved(EmptyPool) && LastUsedBy([], [])
  {
  }

  lemma UsedEarlier(r: Recency, before: seq<Call>, c: Call)
    requires LastUsedBy(r, before) && forall j :: 0 <= j < |before| ==> before[j].now < c.now
    ensures Later(r, c)
  {
    assert forall i :: 0 <= i < |r| ==> LastRequested(before, r[i].code, r[i].at);
  }

  lemma ServeKeepsMaximum(p: Pool, maxSize: int, timeout: int, roots: map<string, string>, before: seq<Call>, c: Call)
    requires LastUsedBy(p.recency, before)
    requires maxSize >= 1 && NonEmptyCodes(before) ==> |p.recency| <= maxSize
    ensures maxSize >= 1 && NonEmptyCodes(before) ==> |Serve(p, maxSize, timeout, roots, c).0.recency| <= maxSize
  {
    if |p.recency| > 0 {
      assert LastRequested(before, p.recency[0].code, p.recency[0].at);
    }
  }

  // ---- What a request is answered -----------------------------------------------------------

  /** The root table has a database URL for the code. */
  predicate HasUrl(roots: map<string, string>, code: string) {
    code in roots && roots[code] != ""
  }

  /** Cached URLs and clients carry the root table's URL of their code. */
  ghost predicate RightUrls(p: Pool, roots: map<string, string>) {
    && (forall c :: c in p.urls && p.urls[c] != "" ==> c in roots && p.urls[c] == roots[c])
    && (forall x :: x in p.recency ==> RightClient(x, roots))
  }

  predicate RightClient(x: Client, roots: map<string, string>) {
    HasUrl(roots, x.code) && x.conn.url == roots[x.code]
  }

  lemma UrlIsTheRoots(p: Pool, roots: map<string, string>, code: string)
    requires RightUrls(p, roots)
    ensures UrlOf(p.urls, roots, code) == if HasUrl(roots, code) then Some(roots[code]) else None
  {
  }

  lemma TouchMembers(r: Recency, k: nat, now: int)
    requires Ordered(r) && k < |r|
    ensures r[k].(at := now) in Touch(r, k, now)
    ensures forall x :: x in Touch(r, k, now) ==> x == r[k].(at := now) || x in r
  {
    assert Touch(r, k, now)[|r| - 1] == r[k].(at := now);
  }

  lemma StoreMembers(r: Recency, maxSize: int, c: Client)
    ensures c in Store(r, maxSize, c)
    ensures forall x :: x in Store(r, maxSize, c) ==> x == c || x in r
  {
    assert Store(r, maxSize, c)[|Store(r, maxSize, c)| - 1] == c;
  }

  lemma ServeKeepsUrls(p: Pool, maxSize: int, timeout: int, roots: map<string, string>, c: Call)
    requires Ordered(p.recency) && RightUrls(p, roots)
    ensures RightUrls(Serve(p, maxSize, timeout, roots, c).0, roots)
  {
    hide Touch, Store, Evict, Ids, UrlOf;
    match c {
      case Get(code, now, _, _) =>
        var k := IndexOf(p.recency, code);
        UrlIsTheRoots(p, roots, code);
        if k < |p.recency| {
          assert RightClient(p.recency[k], roots);
          TouchMembers(p.recency, k, now);
        } else if HasUrl(roots, code) {
          StoreMembers(p.recency, maxSize, Client(code, Conn(p.made, roots[code]), now));
        }
      case Cleanup(now) =>
    }
  }

  /** The answer to a request, by whether the list has its code and the root table a URL for it. */
  ghost predicate Answers(r: Recency, roots: map<string, string>, made: nat, c: Call, answer: Option<Conn>, r': Recency)
    requires c.Get?
  {
    && (forall x :: x in r && x.code == c.code ==> answer == Some(x.conn))
    && ((forall x :: x in r ==> x.code != c.code) ==>
          answer == if HasUrl(roots, c.code) && c.importOk && c.connectOk then Some(Conn(made, roots[c.code])) else None)
    && (answer.Some? ==> Client(c.code, answer.value, c.now) in r' && HasUrl(roots, c.code) && answer.value.url == roots[c.code])
  }

  lemma ServeAnswers(p: Pool, maxSize: int, timeout: int, roots: map<string, string>, c: Call)
    requires Ordered(p.recency) && RightUrls(p, roots) && c.Get?
    ensures
      var (p', answer) := Serve(p, maxSize, timeout, roots, c);
      Answers(p.recency, roots, p.made, c, answer, p'.recency)
  {
    var r := p.recency;
    var k := IndexOf(r, c.code);
    UrlIsTheRoots(p, roots, c.code);
    hide Touch, Store, Evict, Ids, UrlOf;
    if k < |r| {
      assert r[k] in r && RightClient(r[k], roots);
      TouchMembers(r, k, c.now);
    } else if HasUrl(roots, c.code) {
      StoreMembers(r, maxSize, Client(c.code, Conn(p.made, roots[c.code]), c.now));
    }
  }

  lemma {:induction false} RunRightUrls(maxSize: int, timeout: int, roots: map<string, string>, calls: seq<Call>)
    requires Sequential(calls)
    ensures RightUrls(RunCalls(EmptyPool, maxSize, timeout, roots, calls), roots)
  {
    hide Serve, Conserved, LastUsedBy;
    if calls != [] {
      var before := calls[..|calls| - 1];
      RunRightUrls(maxSize, timeout, roots, before);
      SequentialRun(maxSize, timeout, roots, before);
      ServeKeepsUrls(RunCalls(EmptyPool, maxSize, timeout, roots, before), maxSize, timeout, roots, calls[|calls| - 1]);
    }
  }

  /**
   * What a request is answered after any sequential run: the connection listed for its code, else a
   * new one to the root table's URL, and none exactly if the code is not listed and there is no URL
   * or the import or connect failed. A connection answered is open, and listed for that code afterwards.
   */
  lemma RequestAnswers(maxSize: int, timeout: int, roots: map<string, string>, calls: seq<Call>, c: Call)
    requires Sequential(calls) && c.Get?
    ensures
      var p := RunCalls(EmptyPool, maxSize, timeout, roots, calls);
      var (p', answer) := Serve(p, maxSize, timeout, roots, c);
      && (forall x :: x in p.recency && x.code == c.code ==> answer == Some(x.conn))
      && ((forall x :: x in p.recency ==> x.code != c.code) ==>
            answer == if HasUrl(roots, c.code) && c.importOk && c.connectOk then Some(Conn(p.made, roots[c.code])) else None)
      && (answer.Some? ==>
            && Client(c.code, answer.value, c.now) in p'.recency
            && HasUrl(roots, c.code) && answer.value.url == roots[c.code]
            && answer.value.id !in p'.closed)
  {
    var p := RunCalls(EmptyPool, maxSize, timeout, roots, calls);
    var (p', answer) := Serve(p, maxSize, timeout, roots, c);
    SequentialRun(maxSize, timeout, roots, calls);
    RunRightUrls(maxSize, timeout, roots, calls);
    ServeAnswers(p, maxSize, timeout, roots, c);
    ServeConserves(p, maxSize, timeout, roots, c);
    hide Serve, RunCalls, Sequential, Ordered, LastUsedBy;
    if answer.Some? {
      var i :| 0 <= i < |p'.recency| && p'.recency[i] == Client(c.code, answer.value, c.now);
      assert p'.recency[i].conn.id in Ids(p'.recency);
    }
  }

  // ---- What is kept -------------------------------------------------------------------------

  /** Requests that name an onboarded client and meet no failure. */
  predicate Served(calls: seq<Call>, roots: map<string, string>) {
    forall i :: 0 <= i < |calls| ==>
      && calls[i].Get? && calls[i].importOk && calls[i].connectOk
      && calls[i].code != "" && calls[i].code in roots && roots[calls[i].code] != ""
  }

  function Without(codes: seq<string>, code: string): (r: seq<string>)
    ensures code !in codes ==> r == codes
  {
    if codes == [] then []
    else if codes[0] == code then Without(codes[1..], code)
    else [codes[0]] + Without(codes[1..], code)
  }

  /** The codes requested so far, each once, in the order of their last requests. */
  function ByLastRequest(calls: seq<Call>): seq<string> {
    if calls == [] then []
    else
      var before, c := ByLastRequest(calls[..|calls| - 1]), calls[|calls| - 1];
      if c.Get? then Without(before, c.code) + [c.code] else before
  }

  /** The last `n` elements, or all if there are fewer. */
  function LastOnes(s: seq<string>, n: nat): seq<string> {
    if |s| <= n then s else s[|s| - n..]
  }

  function CodesInOrder(r: Recency): seq<string> {
    seq(|r|, i requires 0 <= i < |r| => r[i].code)
  }

  lemma {:induction false} WithoutConcat(a: seq<string>, b: seq<string>, code: string)
    ensures Without(a + b, code) == Without(a, code) + Without(b, code)
  {
    if a == [] {
      assert a + b == b;
    } else {
      assert (a + b)[1..] == a[1..] + b;
      WithoutConcat(a[1..], b, code);
    }
  }

  lemma {:induction false} WithoutOne(s: seq<string>, k: nat)
    requires k < |s| && s[k] !in s[..k] && s[k] !in s[k + 1..]
    ensures Without(s, s[k]) == s[..k] + s[k + 1..]
  {
    if k > 0 {
      var rest := s[1..];
      assert rest[..k - 1] == s[..k][1..] && rest[k..] == s[k + 1..] && s[0] == s[..k][0];
      WithoutOne(rest, k - 1);
      assert [s[0]] + (rest[..k - 1] + rest[k..]) == s[..k] + s[k + 1..];
    }
  }

  lemma LastOnesOf(w: seq<string>, x: seq<string>, n: nat)
    requires |x| == n || (w == [] && |x| <= n)
    ensures LastOnes(w + x, n) == x
  {
  }

  lemma LastOnesSplit(s: seq<string>, n: nat) returns (gone: seq<string>)
    ensures s == gone + LastOnes(s, n) && |LastOnes(s, n)| <= n && (|LastOnes(s, n)| == n || gone == [])
  {
    gone := s[..|s| - |LastOnes(s, n)|];
  }

  /** A request for a code among the last `n` moves it to the back. */
  lemma LastOnesHit(all: seq<string>, n: nat, code: string)
    requires |Without(LastOnes(all, n), code)| + 1 == |LastOnes(all, n)|
    ensures LastOnes(Without(all, code) + [code], n) == Without(LastOnes(all, n), code) + [code]
  {
    var kept := LastOnes(all, n);
    var gone := LastOnesSplit(all, n);
    hide LastOnes, Without;
    WithoutConcat(gone, kept, code);
    var w, m := Without(gone, code), Without(kept, code);
    assert Without(all, code) + [code] == w + (m + [code]);
    LastOnesOf(w, m + [code], n);
  }

  /** A request for another code pushes the front out if there are `n`. */
  lemma LastOnesMiss(all: seq<string>, n: nat, code: string)
    requires n >= 1 && code !in LastOnes(all, n)
    ensures
      var kept := LastOnes(all, n);
      LastOnes(Without(all, code) + [code], n) == (if |kept| == n then kept[1..] else kept) + [code]
  {
    var kept := LastOnes(all, n);
    var gone := LastOnesSplit(all, n);
    hide LastOnes, Without;
    WithoutConcat(gone, kept, code);
    var w := Without(gone, code);
    assert Without(all, code) + [code] == w + (kept + [code]);
    if |kept| == n {
      assert w + (kept + [code]) == (w + [kept[0]]) + (kept[1..] + [code]);
      LastOnesOf(w + [kept[0]], kept[1..] + [code], n);
    } else {
      LastOnesOf(w, kept + [code], n);
    }
  }

  lemma TouchCodes(r: Recency, k: nat, now: int)
    requires Ordered(r) && k < |r|
    ensures CodesInOrder(Touch(r, k, now)) == Without(CodesInOrder(r), r[k].code) + [r[k].code]
    ensures |Without(CodesInOrder(r), r[k].code)| + 1 == |r|
  {
    var codes := CodesInOrder(r);
    assert codes[k] == r[k].code;
    assert forall i :: 0 <= i < |r| && i != k ==> codes[i] != codes[k];
    hide Without;
    WithoutOne(codes, k);
    var t := Touch(r, k, now);
    assert forall i :: 0 <= i < |r| - 1 ==> t[i] == r[if i < k then i else i + 1];
    assert t[|r| - 1] == r[k].(at := now);
    assert CodesInOrder(t) == codes[..k] + codes[k + 1..] + [codes[k]];
  }

  lemma StoreCodes(r: Recency, maxSize: int, c: Client)
    requires maxSize >= 1 && |r| <= maxSize && forall i :: 0 <= i < |r| ==> r[i].code != ""
    ensures CodesInOrder(Store(r, maxSize, c)) == (if |r| == maxSize then CodesInOrder(r)[1..] else CodesInOrder(r)) + [c.code]
  {
  }

  lemma ServedCodes(p: Pool, maxSize: int, timeout: int, roots: map<string, string>, c: Call, all: seq<string>)
    requires Ordered(p.recency) && maxSize >= 1 && c.Get? && Served([c], roots)
    requires forall i :: 0 <= i < |p.recency| ==> p.recency[i].code != ""
    requires CodesInOrder(p.recency) == LastOnes(all, maxSize)
    ensures CodesInOrder(Serve(p, maxSize, timeout, roots, c).0.recency) == LastOnes(Without(all, c.code) + [c.code], maxSize)
  {
    hide Ordered, Touch, Store, Without, LastOnes, Ids, Evict;
    assert [c][0] == c;
    var r := p.recency;
    var k := IndexOf(r, c.code);
    var _ := LastOnesSplit(all, maxSize);
    if k < |r| {
      TouchCodes(r, k, c.now);
      LastOnesHit(all, maxSize, c.code);
    } else {
      assert UrlOf(p.urls, roots, c.code).Some?;
      StoreCodes(r, maxSize, Client(c.code, Conn(p.made, UrlOf(p.urls, roots, c.code).value), c.now));
      LastOnesMiss(all, maxSize, c.code);
    }
  }

  lemma CodesRequested(r: Recency, calls: seq<Call>, roots: map<string, string>)
    requires LastUsedBy(r, calls) && Served(calls, roots)
    ensures forall i :: 0 <= i < |r| ==> r[i].code != ""
  {
    assert forall i :: 0 <= i < |r| ==> LastRequested(calls, r[i].code, r[i].at);
  }

  /**
   * What LRU is for: after any run of served requests the cache holds exactly the `maxSize` codes
   * requested last, or all of them if there are fewer, in the order of their last requests.
   */
  lemma {:induction false} RetainsLastRequested(maxSize: int, timeout: int, roots: map<string, string>, calls: seq<Call>)
    requires Sequential(calls) && Served(calls, roots) && maxSize >= 1
    ensures CodesInOrder(RunCalls(EmptyPool, maxSize, timeout, roots, calls).recency) == LastOnes(ByLastRequest(calls), maxSize)
  {
    hide Serve, LastOnes, Without, CodesInOrder, Conserved, LastUsedBy;
    if calls != [] {
      var before, c := calls[..|calls| - 1], calls[|calls| - 1];
      var p := RunCalls(EmptyPool, maxSize, timeout, roots, before);
      RetainsLastRequested(maxSize, timeout, roots, before);
      SequentialRun(maxSize, timeout, roots, before);
      CodesRequested(p.recency, before, roots);
      assert Served([c], roots);
      ServedCodes(p, maxSize, timeout, roots, c, ByLastRequest(before));
    } else {
      assert CodesInOrder([]) == LastOnes([], maxSize) by { NoCodes(maxSize); }
    }
  }

  lemma NoCodes(n: nat)
    ensures CodesInOrder([]) == LastOnes([], n)
  {
  }
}
