/** The tenant connection cache as it runs: two maps updated in place, refining the recency list. */
module TenantService {
  import opened LastUsed
  import opened Options
  import opened TenantClients

  ghost predicate Listed(r: Recency, code: string) {
    exists x :: x in r && x.code == code
  }

  /** Both maps hold exactly the list's codes, with its connections and times. */
  ghost predicate Matches(r: Recency, clientMap: map<string, Conn>, slots: Slots) {
    && Distinct(slots)
    && (forall x :: x in r ==> x.code in clientMap && clientMap[x.code] == x.conn && Has(slots, x.code, x.at))
    && (forall c :: c in clientMap ==> Listed(r, c))
    && (forall c, t :: Has(slots, c, t) ==> c in clientMap)
  }

  function Remove(r: Recency, k: nat): Recency
    requires k < |r|
  {
    r[..k] + r[k + 1..]
  }

  function Codes(r: Recency): set<string> {
    set i | 0 <= i < |r| :: r[i].code
  }

  lemma {:induction false} CodesCount(r: Recency)
    requires forall i, j :: 0 <= i < j < |r| ==> r[i].code != r[j].code
    ensures |Codes(r)| == |r|
  {
    if r != [] {
      var last := |r| - 1;
      CodesCount(r[..last]);
      assert Codes(r) == Codes(r[..last]) + {r[last].code};
    }
  }

  lemma IndexMeansCached(r: Recency, clientMap: map<string, Conn>, slots: Slots, code: string)
    requires Matches(r, clientMap, slots)
    ensures code in clientMap <==> IndexOf(r, code) < |r|
    ensures code in clientMap ==> clientMap[code] == r[IndexOf(r, code)].conn
  {
    var k := IndexOf(r, code);
    assert k < |r| ==> r[k] in r;
    assert code in clientMap ==> Listed(r, code);
  }

  /** The size test of the cache is one on the list. */
  lemma SameSize(r: Recency, clientMap: map<string, Conn>, slots: Slots)
    requires Ordered(r) && Matches(r, clientMap, slots)
    ensures |clientMap| == |r|
  {
    CodesCount(r);
    assert forall i :: 0 <= i < |r| ==> r[i] in r;
    assert clientMap.Keys == Codes(r);
  }

  /** With distinct codes, taking out the k-th entry takes out that entry only. */
  lemma RemoveMeans(r: Recency, k: nat)
    requires Ordered(r) && k < |r|
    ensures Ordered(Remove(r, k))
    ensures forall x :: x in Remove(r, k) <==> x in r && x.code != r[k].code
  {
    var g := Remove(r, k);
    forall x | x in r && x.code != r[k].code
      ensures x in g
    {
      var i :| 0 <= i < |r| && r[i] == x;
      assert x == g[if i < k then i else i - 1];
    }
  }

  lemma MatchesRemove(r: Recency, clientMap: map<string, Conn>, slots: Slots, k: nat)
    requires Ordered(r) && Matches(r, clientMap, slots) && k < |r|
    ensures Ordered(Remove(r, k))
    ensures Matches(Remove(r, k), clientMap - {r[k].code}, Delete(slots, r[k].code))
  {
    hide Remove, Delete, Has, Distinct;
    DeleteMeans(slots, r[k].code);
    RemoveMeans(r, k);
    forall c | c in clientMap && c != r[k].code
      ensures Listed(Remove(r, k), c)
    {
      var x :| x in r && x.code == c;
      assert x in Remove(r, k);
    }
  }

  lemma MatchesAppend(r: Recency, clientMap: map<string, Conn>, slots: Slots, c: Client)
    requires Matches(r, clientMap, slots) && c.code !in clientMap
    ensures Matches(r + [c], clientMap[c.code := c.conn], Put(slots, c.code, c.at))
  {
    hide Put, Has, Distinct;
    var g := r + [c];
    PutMeans(slots, c.code, c.at);
    assert forall x :: x in g <==> x in r || x == c;
    forall d | d in clientMap
      ensures Listed(g, d)
    {
      var x :| x in r && x.code == d;
      assert x in g;
    }
    assert c in g;
  }

  /** Where an entry sits in the map's order does not matter. */
  lemma MatchesSameEntries(r: Recency, clientMap: map<string, Conn>, slots: Slots, slots': Slots)
    requires Matches(r, clientMap, slots) && Distinct(slots')
    requires forall c, t :: Has(slots, c, t) <==> Has(slots', c, t)
    ensures Matches(r, clientMap, slots')
  {
    hide Has, Distinct;
  }

  lemma EntryMatches(r: Recency, clientMap: map<string, Conn>, slots: Slots, k: nat)
    requires Matches(r, clientMap, slots) && k < |r|
    ensures Distinct(slots) && r[k].code in clientMap && clientMap[r[k].code] == r[k].conn
  {
    assert r[k] in r;
  }

  lemma MatchesTouch(r: Recency, clientMap: map<string, Conn>, slots: Slots, k: nat, now: int)
    requires Ordered(r) && Matches(r, clientMap, slots) && k < |r|
    ensures Matches(Touch(r, k, now), clientMap, Put(slots, r[k].code, now))
  {
    hide Remove, Put, Delete, Touch, Has, Distinct, Ordered, Matches;
    EntryMatches(r, clientMap, slots, k);
    var code, c := r[k].code, r[k].(at := now);
    MatchesRemove(r, clientMap, slots, k);
    MatchesAppend(Remove(r, k), clientMap - {code}, Delete(slots, code), c);
    TouchIsRemoveAppend(r, k, now);
    assert (clientMap - {code})[code := c.conn] == clientMap;
    DeleteMeans(slots, code);
    PutMeans(Delete(slots, code), code, now);
    PutMeans(slots, code, now);
    MatchesSameEntries(Touch(r, k, now), clientMap, Put(Delete(slots, code), code, now), Put(slots, code, now));
  }

  lemma TouchIsRemoveAppend(r: Recency, k: nat, now: int)
    requires k < |r|
    ensures Touch(r, k, now) == Remove(r, k) + [r[k].(at := now)]
  {
  }

  /** The least recently used entry is the front of the list. */
  lemma OldestIsFront(r: Recency, clientMap: map<string, Conn>, slots: Slots, code: string)
    requires Ordered(r) && Matches(r, clientMap, slots) && IsOldest(slots, code)
    ensures |r| > 0 && r[0].code == code
  {
    var i :| 0 <= i < |slots| && slots[i].Used? && slots[i].code == code
             && forall j :: 0 <= j < |slots| && slots[j].Used? ==> slots[i].at <= slots[j].at;
    assert Has(slots, code, slots[i].at);
    var x :| x in r && x.code == code;
    OneTime(slots, code, slots[i].at, x.at);
    assert r[0] in r && Has(slots, r[0].code, r[0].at);
  }

  /** Two ordered lists with the same entries are the same list. */
  lemma {:induction false} OrderedUnique(a: Recency, b: Recency)
    requires Ordered(a) && Ordered(b)
    requires forall c :: c in a <==> c in b
    ensures a == b
  {
    assert a != [] ==> a[0] in b;
    assert b != [] ==> b[0] in a;
    if a != [] {
      assert a[0] in b && b[0] in a;
      assert a[0] == b[0] by {
        var i :| 0 <= i < |b| && b[i] == a[0];
        var j :| 0 <= j < |a| && a[j] == b[0];
      }
      forall c
        ensures c in a[1..] <==> c in b[1..]
      {
        assert c in a <==> c == a[0] || c in a[1..];
        assert c in b <==> c == b[0] || c in b[1..];
        assert a[0] !in a[1..] && b[0] !in b[1..];
      }
      OrderedUnique(a[1..], b[1..]);
    }
  }

  predicate NoRepeats(s: seq<nat>) {
    forall i, j :: 0 <= i < j < |s| ==> s[i] != s[j]
  }

  function AsSet(s: seq<nat>): set<nat> {
    set x | x in s
  }

  lemma RemoveConserves(p: Pool, k: nat)
    requires Conserved(p) && k < |p.recency|
    ensures Conserved(p.(recency := Remove(p.recency, k), closed := p.closed + {p.recency[k].conn.id}))
    ensures p.recency[k].conn.id !in p.closed
  {
    var r, g := p.recency, Remove(p.recency, k);
    assert r[k].conn.id in Ids(r);
    assert forall i :: 0 <= i < |g| ==> g[i] == r[if i < k then i else i + 1];
    assert Ids(r) == Ids(g) + {r[k].conn.id} by {
      forall i | 0 <= i < |r| && i != k
        ensures r[i].conn.id in Ids(g)
      {
        assert g[if i < k then i else i - 1] == r[i];
      }
    }
  }

  /** The URL a lookup finds is the root table's, and caching it keeps every cached URL right. */
  lemma CachingUrl(p: Pool, roots: map<string, string>, code: string, url: string)
    requires Conserved(p) && RightUrls(p, roots) && UrlOf(p.urls, roots, code) == Some(url)
    ensures Conserved(p.(urls := p.urls[code := url])) && RightUrls(p.(urls := p.urls[code := url]), roots)
    ensures HasUrl(roots, code) && url == roots[code]
  {
    UrlIsTheRoots(p, roots, code);
  }

  predicate NoneIdle(slots: Slots, now: int, timeout: int) {
    forall j :: 0 <= j < |slots| && slots[j].Used? ==> !Idle(slots[j].at, now, timeout)
  }

  /** `g` is `r` less some idle entries. */
  ghost predicate Survivors(r: Recency, g: Recency, now: int, timeout: int) {
    && (forall x :: x in g ==> x in r)
    && (forall x :: x in r && !Idle(x.at, now, timeout) ==> x in g)
  }

  lemma SurvivorsStart(r: Recency, now: int, timeout: int)
    ensures Survivors(r, r, now, timeout)
  {
  }

  lemma SurvivorsStep(r: Recency, g: Recency, k: nat, now: int, timeout: int)
    requires Ordered(g) && k < |g| && Idle(g[k].at, now, timeout) && Survivors(r, g, now, timeout)
    ensures Survivors(r, Remove(g, k), now, timeout)
  {
    hide Remove;
    RemoveMeans(g, k);
    assert forall x :: x in g && x.code == g[k].code ==> x == g[k];
  }

  /** Deleting the entry under the iterator leaves a hole and the earlier slots as they were. */
  lemma DeleteStaysFresh(slots: Slots, i: nat, code: string, now: int, timeout: int)
    requires i < |slots| && slots[i].Used? && slots[i].code == code && NoneIdle(slots[..i], now, timeout)
    ensures NoneIdle(Delete(slots, code)[..i + 1], now, timeout)
  {
    var d := Delete(slots, code)[..i + 1];
    forall j | 0 <= j < |d| && d[j].Used?
      ensures !Idle(d[j].at, now, timeout)
    {
      assert j < i && slots[..i][j] == d[j];
    }
  }

  /** Once no slot is idle, what survived is exactly what cleanup should leave. */
  lemma SurvivorsAreExact(r: Recency, g: Recency, clientMap: map<string, Conn>, slots: Slots, now: int, timeout: int)
    requires Ordered(r) && Ordered(g) && Survivors(r, g, now, timeout)
    requires Matches(g, clientMap, slots) && NoneIdle(slots, now, timeout)
    ensures g == DropIdle(r, now, timeout)
  {
    DropIdleIsExact(r, now, timeout);
    forall x | x in g
      ensures !Idle(x.at, now, timeout)
    {
      assert Has(slots, x.code, x.at);
    }
    hide DropIdle, Matches, Ordered;
    OrderedUnique(g, DropIdle(r, now, timeout));
  }

  /** What is closed follows from what is cached and how many were made. */
  lemma ClosedDetermined(p: Pool, q: Pool)
    requires Conserved(p) && Conserved(q) && p.recency == q.recency && p.made == q.made
    ensures p.closed == q.closed
  {
    forall id: nat
      ensures id in p.closed <==> id in q.closed
    {
      assert id < p.made <==> id in Ids(p.recency) || id in p.closed;
      assert id < q.made <==> id in Ids(q.recency) || id in q.closed;
    }
  }

  lemma RightByUrl(x: Client, roots: map<string, string>)
    requires HasUrl(roots, x.code) && x.conn.url == roots[x.code]
    ensures RightClient(x, roots)
  {
  }

  /** A listed client is in the map under its code, and not disconnected. */
  lemma AnsweredIsOpen(p: Pool, clientMap: map<string, Conn>, slots: Slots, disconnected: seq<nat>, c: Client)
    requires Matches(p.recency, clientMap, slots) && Conserved(p) && p.closed == AsSet(disconnected) && c in p.recency
    ensures c.code in clientMap && clientMap[c.code] == c.conn && c.conn.id !in disconnected
  {
    var i :| 0 <= i < |p.recency| && p.recency[i] == c;
    assert c.conn.id in Ids(p.recency);
  }

  /** For a code that is not cached: no list entry has it. */
  lemma NotListed(r: Recency, clientMap: map<string, Conn>, slots: Slots, code: string)
    requires Matches(r, clientMap, slots)
    ensures code !in clientMap ==> forall x :: x in r ==> x.code != code
    ensures code in clientMap ==> exists x :: x in r && x.code == code && x.conn == clientMap[code]
  {
    if code in clientMap {
      var x :| x in r && x.code == code;
    }
  }

  class TenantPrismaService {
    const maxSize: int
    const timeout: int
    const roots: map<string, string>  // dbUrl column of the root client table
    var clientMap: map<string, Conn>
    var lastUsedMap: Slots
    var urls: map<string, string>     // the shared URL cache
    var made: nat
    var disconnected: seq<nat>        // every `$disconnect` call, in order
    ghost var recency: Recency

    ghost function Abs(): Pool
      reads this
    {
      Pool(recency, made, AsSet(disconnected), urls)
    }

    ghost predicate Valid()
      reads this
    {
      && Ordered(recency) && Matches(recency, clientMap, lastUsedMap)
      && Conserved(Abs()) && NoRepeats(disconnected) && RightUrls(Abs(), roots)
    }

    constructor (maxSize: int, timeout: int, roots: map<string, string>)
      ensures Valid() && Abs() == EmptyPool && this.maxSize == maxSize && this.timeout == timeout && this.roots == roots
    {
      this.maxSize, this.timeout, this.roots := maxSize, timeout, roots;
      clientMap, lastUsedMap, urls, made, disconnected, recency := map[], [], map[], 0, [], [];
    }

    /** Disconnects and forgets the k-th entry of the list. */
    method Drop(code: string, ghost k: nat)
      requires Valid() && k < |recency| && recency[k].code == code
      modifies this`clientMap, this`lastUsedMap, this`disconnected, this`recency
      ensures Valid() && recency == Remove(old(recency), k)
      ensures lastUsedMap == Delete(old(lastUsedMap), code)
      ensures AsSet(disconnected) == AsSet(old(disconnected)) + {old(recency)[k].conn.id}
    {
      MatchesRemove(recency, clientMap, lastUsedMap, k);
      RemoveMeans(recency, k);
      RemoveConserves(Abs(), k);
      disconnected := disconnected + [clientMap[code].id];
      clientMap := clientMap - {code};
      lastUsedMap := Delete(lastUsedMap, code);
      assert AsSet(disconnected) == AsSet(old(disconnected)) + {old(recency)[k].conn.id};
      recency := Remove(recency, k);
    }

    /** Drops the least recently used client, if there is one and its code is not empty. */
    method EvictLeastRecentlyUsedClient()
      requires Valid()
      modifies this`clientMap, this`lastUsedMap, this`disconnected, this`recency
      ensures Valid()
      ensures recency == if |old(recency)| > 0 && old(recency)[0].code != "" then old(recency)[1..] else old(recency)
    {
      assert |recency| > 0 ==> recency[0] in recency && Has(lastUsedMap, recency[0].code, recency[0].at);
      var oldest := FindOldest(lastUsedMap);
      if oldest.Some? {
        OldestIsFront(recency, clientMap, lastUsedMap, oldest.value);
        if oldest.value != "" {
          Drop(oldest.value, 0);
        }
      }
    }

    /** The tail of a miss: makes room if the cache is full, then stores the new client. */
    method Keep(code: string, conn: Conn, now: int)
      requires Valid() && code !in clientMap && conn.id == made && Later(recency, Get(code, now, true, true))
      requires RightClient(Client(code, conn, now), roots)
      modifies this`clientMap, this`lastUsedMap, this`disconnected, this`recency, this`made
      ensures Valid() && recency == Store(old(recency), maxSize, Client(code, conn, now)) && made == old(made) + 1
    {
      hide Matches, Conserved, Put, AsSet, NoRepeats;
      ghost var c := Client(code, conn, now);
      SameSize(recency, clientMap, lastUsedMap);
      IndexMeansCached(recency, clientMap, lastUsedMap, code);
      StoreOrdered(recency, maxSize, c);
      assert forall i :: 0 <= i < |recency| ==> recency[i].code != code;
      if |clientMap| >= maxSize {
        EvictLeastRecentlyUsedClient();
      }
      assert recency == Evict(old(recency), maxSize);
      assert IndexOf(recency, code) == |recency|;
      IndexMeansCached(recency, clientMap, lastUsedMap, code);
      MatchesAppend(recency, clientMap, lastUsedMap, c);
      AppendConserves(Abs(), c);
      clientMap := clientMap[code := conn];
      lastUsedMap := Put(lastUsedMap, code, now);
      made := made + 1;
      recency := recency + [c];
    }

    /** Serves a request as the recency list prescribes. */
    method GetPrismaClientByCode(code: string, now: int, importOk: bool, connectOk: bool) returns (client: Option<Conn>)
      requires Valid() && Later(recency, Get(code, now, importOk, connectOk))
      modifies this
      ensures Valid()
      ensures (Abs(), client) == Serve(old(Abs()), maxSize, timeout, roots, Get(code, now, importOk, connectOk))
      ensures code in old(clientMap) ==> client == Some(old(clientMap)[code]) && clientMap == old(clientMap)
      ensures code !in old(clientMap) ==>
        client == if HasUrl(roots, code) && importOk && connectOk then Some(Conn(old(made), roots[code])) else None
      ensures client.Some? ==>
        && code in clientMap && clientMap[code] == client.value && client.value.id !in disconnected
        && HasUrl(roots, code) && client.value.url == roots[code]
    {
      hide Matches, Conserved, Ordered, Put, Touch, Store, AsSet, NoRepeats, Ids, Evict, RightUrls, RightClient;
      ghost var p, c := Abs(), Get(code, now, importOk, connectOk);
      ServeKeepsOrder(p, maxSize, timeout, roots, c);
      ServeConserves(p, maxSize, timeout, roots, c);
      ServeKeepsUrls(p, maxSize, timeout, roots, c);
      ServeAnswers(p, maxSize, timeout, roots, c);
      ghost var k := IndexOf(recency, code);
      IndexMeansCached(recency, clientMap, lastUsedMap, code);
      NotListed(recency, clientMap, lastUsedMap, code);
      if code in clientMap {
        MatchesTouch(recency, clientMap, lastUsedMap, k, now);
        lastUsedMap := Put(lastUsedMap, code, now);
        client := Some(clientMap[code]);
        recency := Touch(recency, k, now);
        AnsweredIsOpen(Abs(), clientMap, lastUsedMap, disconnected, Client(code, client.value, now));
        return;
      }
      var dbUrl := if code in urls then urls[code] else "";
      if dbUrl == "" {
        if code !in roots || roots[code] == "" {
          return None;
        }
        dbUrl := roots[code];
      }
      CachingUrl(p, roots, code, dbUrl);
      urls := urls[code := dbUrl];
      if !importOk || !connectOk {
        return None;
      }
      client := Some(Conn(made, dbUrl));
      assert RightClient(Client(code, client.value, now), roots) by { RightByUrl(Client(code, client.value, now), roots); }
      Keep(code, client.value, now);
      ClosedDetermined(Abs(), Serve(p, maxSize, timeout, roots, c).0);
      AnsweredIsOpen(Abs(), clientMap, lastUsedMap, disconnected, Client(code, client.value, now));
    }

    /** Deletes while iterating; ends with exactly the entries that are not idle. */
    method CleanupIdleClients(now: int)
      requires Valid()
      modifies this`clientMap, this`lastUsedMap, this`disconnected, this`recency
      ensures Valid()
      ensures Abs() == Serve(old(Abs()), maxSize, timeout, roots, Cleanup(now)).0
    {
      hide Conserved, Ordered, AsSet, NoRepeats, Ids, Matches, Survivors, Remove, Delete;
      assert Survivors(recency, recency, now, timeout) by { SurvivorsStart(recency, now, timeout); }
      ghost var p, r := Abs(), recency;
      for i := 0 to |lastUsedMap|
        invariant Valid() && |lastUsedMap| == |old(lastUsedMap)|
        invariant NoneIdle(lastUsedMap[..i], now, timeout)
        invariant Survivors(r, recency, now, timeout)
      {
        if lastUsedMap[i].Used? && Idle(lastUsedMap[i].at, now, timeout) {
          var code := lastUsedMap[i].code;
          ghost var k := DropIndex(i);
          SurvivorsStep(r, recency, k, now, timeout);
          DeleteStaysFresh(lastUsedMap, i, code, now, timeout);
          Drop(code, k);
        } else {
          assert lastUsedMap[..i + 1] == lastUsedMap[..i] + [lastUsedMap[i]];
        }
      }
      assert lastUsedMap[..|lastUsedMap|] == lastUsedMap;
      SurvivorsAreExact(r, recency, clientMap, lastUsedMap, now, timeout);
      ServeConserves(p, maxSize, timeout, roots, Cleanup(now));
      ClosedDetermined(Abs(), Serve(p, maxSize, timeout, roots, Cleanup(now)).0);
    }

    /** The list index of the entry in a slot. */
    ghost function DropIndex(i: nat): (k: nat)
      requires Valid() && i < |lastUsedMap| && lastUsedMap[i].Used?
      reads this
      ensures k < |recency| && recency[k].code == lastUsedMap[i].code && recency[k].at == lastUsedMap[i].at
    {
      var code := lastUsedMap[i].code;
      assert Has(lastUsedMap, code, lastUsedMap[i].at);
      assert exists k :: 0 <= k < |recency| && recency[k].code == code && recency[k].at == lastUsedMap[i].at by {
        var x :| x in recency && x.code == code;
        OneTime(lastUsedMap, code, lastUsedMap[i].at, x.at);
      }
      var k :| 0 <= k < |recency| && recency[k].code == code && recency[k].at == lastUsedMap[i].at;
      k
    }
  }
}
