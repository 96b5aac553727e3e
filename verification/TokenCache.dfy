/**
 * The cache service over Redis. The store maps key strings to live entries: an entry written at
 * time `t` with lifetime `d` is there while the clock reads less than `t + d`, and `Advance` drops
 * what has expired. `Represents` connects the string store to a map over structured keys.
 */
module TokenCache {
  import opened AuthConfig
  import opened CacheKeys
  import opened Options

  datatype Value =
    | Session(id: string, ip: string)  // the cached token payload
    | Blacklisted
    | Url(url: string)

  datatype Entry = Entry(value: Value, expires: nat)

  type Entries = map<Key, Entry>
  type Store = map<string, Entry>

  // ---- What the loops do, on structured keys ------------------------------------------------

  /** Does the SCAN for this user and kind find the key? */
  predicate Hits(client: string, user: string, kind: Kind, k: Key) {
    Glob(ScanPattern(client, user, kind), KeyString(k))
  }

  /** The entries with `e` under every one of `keys`. */
  function WriteKeys(m: Entries, keys: set<Key>, e: Entry): Entries {
    map k | k in m.Keys + keys :: if k in keys then e else m[k]
  }

  function BlacklistKeysOf(m: Entries, client: string, user: string): set<Key> {
    set k | k in m && k.Token? && Hits(client, user, Access, k) && k.token != "" :: Token(client, user, Blacklist, k.token)
  }

  /** A blacklist entry for the token of every key found; nothing else changes. */
  function BlacklistUser(m: Entries, client: string, user: string, expires: nat): Entries {
    WriteKeys(m, BlacklistKeysOf(m, client, user), Entry(Blacklisted, expires))
  }

  /** No key found for either kind stays; nothing else changes. */
  function ClearUser(m: Entries, client: string, user: string): Entries {
    m - set k | k in m && (Hits(client, user, Access, k) || Hits(client, user, Refresh, k))
  }

  function Purge(m: Entries, now: nat): Entries {
    m - set k | k in m && m[k].expires <= now
  }

  function Fetch(m: Entries, k: Key): Option<Entry> {
    if k in m then Some(m[k]) else None
  }

  /** What a lookup by key string finds: a request may spell a key in more than one way. */
  ghost function Found(m: Entries, k: Key): (r: Option<Entry>)
    ensures r.Some? ==> exists j :: j in m && SameString(j, k) && m[j] == r.value
    ensures r.None? ==> forall j :: j in m ==> !SameString(j, k)
  {
    if k in m then Some(m[k])
    else if exists j :: j in m && SameString(j, k) then
      var j :| j in m && SameString(j, k); Some(m[j])
    else None
  }

  predicate SameString(j: Key, k: Key) {
    KeyString(j) == KeyString(k)
  }

  lemma FoundIsFetch(m: Entries, k: Key)
    requires WellFormed(k) && forall j :: j in m ==> WellFormed(j)
    ensures Found(m, k) == Fetch(m, k)
  {
    forall j | j in m && SameString(j, k)
      ensures j == k
    {
      KeyStringInjective(j, k);
    }
  }

  // ---- When SCAN finds a user's own keys and no others --------------------------------------

  ghost predicate OwnHits(m: Entries, client: string, user: string, kind: Kind) {
    forall k :: k in m ==> (Hits(client, user, kind, k) <==> Belongs(k, client, user, kind))
  }

  /** All three loops of a login find exactly the user's own keys. */
  ghost predicate ScansOwn(m: Entries, client: string, user: string) {
    var m' := BlacklistUser(m, client, user, 0);
    OwnHits(m', client, user, Access) && OwnHits(m', client, user, Refresh)
  }

  function OwnBlacklistKeys(m: Entries, client: string, user: string): set<Key> {
    set k | k in m && Belongs(k, client, user, Access) && k.token != "" :: Token(client, user, Blacklist, k.token)
  }

  /** A blacklist entry for every access entry of the user. */
  function BlacklistOwn(m: Entries, client: string, user: string, expires: nat): Entries {
    WriteKeys(m, OwnBlacklistKeys(m, client, user), Entry(Blacklisted, expires))
  }

  /** No access and no refresh entry of the user. */
  function ClearOwn(m: Entries, client: string, user: string): Entries {
    m - set k | k in m && (Belongs(k, client, user, Access) || Belongs(k, client, user, Refresh))
  }

  lemma BlacklistIsOwn(m: Entries, client: string, user: string, expires: nat)
    requires OwnHits(m, client, user, Access)
    ensures BlacklistUser(m, client, user, expires) == BlacklistOwn(m, client, user, expires)
  {
    hide Hits;
    assert BlacklistKeysOf(m, client, user) == OwnBlacklistKeys(m, client, user);
  }

  lemma ClearIsOwn(m: Entries, client: string, user: string)
    requires OwnHits(m, client, user, Access) && OwnHits(m, client, user, Refresh)
    ensures ClearUser(m, client, user) == ClearOwn(m, client, user)
  {
    hide Hits;
  }

  lemma SameKeysOwnHits(m: Entries, m': Entries, client: string, user: string, kind: Kind)
    requires OwnHits(m', client, user, kind) && m.Keys <= m'.Keys
    ensures OwnHits(m, client, user, kind)
  {
    hide Hits;
    assert forall k :: k in m ==> k in m'.Keys;
  }

  lemma RevocationIsOwn(m: Entries, client: string, user: string, expires: nat)
    requires ScansOwn(m, client, user)
    ensures BlacklistUser(m, client, user, expires) == BlacklistOwn(m, client, user, expires)
    ensures ClearUser(BlacklistUser(m, client, user, expires), client, user) == ClearOwn(BlacklistOwn(m, client, user, expires), client, user)
  {
    var m0, m' := BlacklistUser(m, client, user, 0), BlacklistUser(m, client, user, expires);
    assert m.Keys <= m0.Keys && m'.Keys <= m0.Keys;
    hide OwnHits, BlacklistUser, BlacklistOwn, ClearUser, ClearOwn;
    SameKeysOwnHits(m, m0, client, user, Access);
    SameKeysOwnHits(m', m0, client, user, Access);
    SameKeysOwnHits(m', m0, client, user, Refresh);
    BlacklistIsOwn(m, client, user, expires);
    ClearIsOwn(m', client, user);
  }

  /** For plain names, exactly when no key of another code runs through the user's own prefixes. */
  lemma ScansOwnWhen(m: Entries, client: string, user: string)
    requires Plain(client) && Plain(user) && forall k :: k in m ==> WellFormed(k)
    ensures ScansOwn(m, client, user) <==>
      forall k :: k in m ==> !Trespasses(k, client, user, Access) && !Trespasses(k, client, user, Refresh)
  {
    var m' := BlacklistUser(m, client, user, 0);
    hide Hits, Plain, Trespasses;
    forall k | k in m'
      ensures Hits(client, user, Access, k) <==> Belongs(k, client, user, Access) || Trespasses(k, client, user, Access)
      ensures Hits(client, user, Refresh, k) <==> Belongs(k, client, user, Refresh) || Trespasses(k, client, user, Refresh)
      ensures k in m || !(Trespasses(k, client, user, Access) || Trespasses(k, client, user, Refresh))
      ensures Belongs(k, client, user, Access) ==> !Trespasses(k, client, user, Access)
      ensures Belongs(k, client, user, Refresh) ==> !Trespasses(k, client, user, Refresh)
    {
      HitsMeans(client, user, Access, k);
      HitsMeans(client, user, Refresh, k);
      if !k.Token? || k.client == client {
        OwnCodeStaysOut(client, user, Access, k);
        OwnCodeStaysOut(client, user, Refresh, k);
      }
    }
    assert forall k :: k in m ==> k in m';
  }

  lemma HitsMeans(client: string, user: string, kind: Kind, k: Key)
    requires Plain(client) && Plain(user) && WellFormed(k)
    ensures Hits(client, user, kind, k) <==> Belongs(k, client, user, kind) || Trespasses(k, client, user, kind)
  {
    PatternSelects(client, user, kind, k);
  }

  /** In particular with colon-free codes throughout. */
  lemma ColonFreeCodesScanOwn(m: Entries, client: string, user: string)
    requires Plain(client) && Plain(user)
    requires forall k :: k in m ==> WellFormed(k) && (k.Token? ==> ColonFree(k.client))
    ensures ScansOwn(m, client, user)
  {
    hide ScansOwn, Trespasses, Plain;
    ScansOwnWhen(m, client, user);
    forall k | k in m
      ensures !Trespasses(k, client, user, Access) && !Trespasses(k, client, user, Refresh)
    {
      ColonFreeCodeStaysOut(client, user, Access, k);
      ColonFreeCodeStaysOut(client, user, Refresh, k);
    }
  }

  // ---- What the loops do, on key strings ----------------------------------------------------

  /** The blacklist key the loop writes for an access key. */
  function BlacklistTarget(client: string, user: string, key: string): string {
    KindPrefix(client, user, Blacklist) + ":" + LastSegment(key)
  }

  function BlacklistTargets(client: string, user: string, keys: set<string>): set<string> {
    set s | s in keys && LastSegment(s) != "" :: BlacklistTarget(client, user, s)
  }

  /** The store with `e` under every key of `keys`. */
  function WriteAll(store: Store, keys: set<string>, e: Entry): Store {
    map s | s in store.Keys + keys :: if s in keys then e else store[s]
  }

  function BlacklistKeys(store: Store, client: string, user: string, expires: nat, keys: set<string>): Store {
    WriteAll(store, BlacklistTargets(client, user, keys), Entry(Blacklisted, expires))
  }

  function Lookup(store: Store, key: Key): Option<Entry> {
    if KeyString(key) in store then Some(store[KeyString(key)]) else None
  }

  lemma WriteOneMore(store: Store, keys: set<string>, key: string, e: Entry)
    ensures WriteAll(store, keys + {key}, e) == WriteAll(store, keys, e)[key := e]
  {
  }

  lemma BlacklistNone(store: Store, client: string, user: string, expires: nat)
    ensures BlacklistKeys(store, client, user, expires, {}) == store
  {
    assert BlacklistTargets(client, user, {}) == {};
  }

  lemma TargetsOneMore(client: string, user: string, keys: set<string>, key: string)
    ensures BlacklistTargets(client, user, keys + {key})
            == if LastSegment(key) == "" then BlacklistTargets(client, user, keys)
               else BlacklistTargets(client, user, keys) + {BlacklistTarget(client, user, key)}
  {
    hide LastSegment, BlacklistTarget;
  }

  function Matching(store: Store, pattern: string): set<string> {
    set s | s in store && Glob(pattern, s)
  }

  // ---- SCAN ---------------------------------------------------------------------------------

  datatype ScanReply = ScanReply(cursor: string, keys: seq<string>)

  function Returned(replies: seq<ScanReply>): set<string> {
    if replies == [] then {}
    else
      var last := |replies| - 1;
      Returned(replies[..last]) + set s | s in replies[last].keys
  }

  /** The cursor comes back to "0" with the last reply and not before. */
  predicate WholeIteration(replies: seq<ScanReply>) {
    && |replies| > 0
    && replies[|replies| - 1].cursor == "0"
    && forall i :: 0 <= i < |replies| - 1 ==> replies[i].cursor != "0"
  }

  /** The key was there at entry or once some of the first `n` replies had been handled. */
  ghost predicate SeenBy(during: nat -> Store, n: nat, s: string) {
    exists m: nat :: m <= n && s in during(m)
  }

  /**
   * Redis' guarantee for an iteration during which the store takes the values `during`: it returns
   * only matching keys that were there at some point, be it since the iteration began, in any order
   * and any number of times, and every matching key that was there throughout.
   */
  ghost predicate ScanGuarantee(pattern: string, during: nat -> Store, replies: seq<ScanReply>) {
    && WholeIteration(replies)
    && (forall i: nat, s :: i < |replies| && s in replies[i].keys ==> Glob(pattern, s) && SeenBy(during, i, s))
    && forall s :: Glob(pattern, s) && (forall n: nat :: n <= |replies| ==> s in during(n)) ==> s in Returned(replies)
  }

  /** The store after the blacklist loop has handled `n` replies. */
  ghost function DuringBlacklist(store: Store, client: string, user: string, expires: nat, replies: seq<ScanReply>): nat -> Store {
    (n: nat) => if n <= |replies| then BlacklistKeys(store, client, user, expires, Returned(replies[..n])) else store
  }

  /** The store after the delete loop has handled `n` replies. */
  ghost function DuringDelete(store: Store, replies: seq<ScanReply>): nat -> Store {
    (n: nat) => if n <= |replies| then store - Returned(replies[..n]) else store
  }

  lemma {:induction false} ReturnedGrows(replies: seq<ScanReply>, n: nat)
    requires n <= |replies|
    ensures Returned(replies[..n]) <= Returned(replies)
  {
    if n < |replies| {
      var last := |replies| - 1;
      assert replies[..last][..n] == replies[..n];
      ReturnedGrows(replies[..last], n);
    } else {
      assert replies[..n] == replies;
    }
  }

  /** A blacklist key is its own target: handling it again writes nothing new. */
  lemma TargetOfTarget(client: string, user: string, s: string)
    ensures LastSegment(BlacklistTarget(client, user, s)) == LastSegment(s)
    ensures BlacklistTarget(client, user, BlacklistTarget(client, user, s)) == BlacklistTarget(client, user, s)
  {
    hide LastSegment, KindPrefix;
    LastSegmentColonFree(s);
    LastSegmentOfSuffix(KindPrefix(client, user, Blacklist), LastSegment(s));
  }

  lemma LastSegmentColonFree(s: string)
    ensures ColonFree(LastSegment(s))
  {
    SegmentsColonFree(s);
  }

  /** Keys the loop wrote itself may come back from SCAN; their targets are not new. */
  lemma {:induction false} OnlyFirstTargets(store: Store, pattern: string, client: string, user: string, expires: nat,
                                            replies: seq<ScanReply>, n: nat)
    requires ScanGuarantee(pattern, DuringBlacklist(store, client, user, expires, replies), replies) && n <= |replies|
    ensures BlacklistTargets(client, user, Returned(replies[..n])) <= BlacklistTargets(client, user, Matching(store, pattern))
  {
    hide Glob, LastSegment, BlacklistTarget, WholeIteration;
    var first := BlacklistTargets(client, user, Matching(store, pattern));
    if n > 0 {
      var i := n - 1;
      assert replies[..n][..i] == replies[..i] && replies[..n][i] == replies[i];
      OnlyFirstTargets(store, pattern, client, user, expires, replies, i);
      forall s | s in replies[i].keys && LastSegment(s) != ""
        ensures BlacklistTarget(client, user, s) in first
      {
        var during := DuringBlacklist(store, client, user, expires, replies);
        assert SeenBy(during, i, s);
        var m: nat :| m <= i && s in during(m);
        if s !in store {
          OnlyFirstTargets(store, pattern, client, user, expires, replies, m);
          var s0 :| s0 in Matching(store, pattern) && LastSegment(s0) != "" && s == BlacklistTarget(client, user, s0);
          TargetOfTarget(client, user, s0);
        }
      }
    }
  }

  /** The blacklist loop deletes nothing, so one iteration blacklists for every key present at entry, and for no other. */
  lemma BlacklistScanIsComplete(store: Store, pattern: string, client: string, user: string, expires: nat, replies: seq<ScanReply>)
    requires ScanGuarantee(pattern, DuringBlacklist(store, client, user, expires, replies), replies)
    ensures WholeIteration(replies)
    ensures BlacklistTargets(client, user, Returned(replies)) == BlacklistTargets(client, user, Matching(store, pattern))
  {
    hide Glob, LastSegment, BlacklistTarget, WholeIteration;
    assert replies[..|replies|] == replies;
    OnlyFirstTargets(store, pattern, client, user, expires, replies, |replies|);
    assert Matching(store, pattern) <= Returned(replies);
  }

  lemma {:induction false} ReturnedWasGiven(replies: seq<ScanReply>, s: string)
    requires s in Returned(replies)
    ensures exists i: nat :: i < |replies| && s in replies[i].keys
  {
    var last := |replies| - 1;
    if s in Returned(replies[..last]) {
      ReturnedWasGiven(replies[..last], s);
      var i: nat :| i < last && s in replies[..last][i].keys;
      assert s in replies[i].keys;
    } else {
      assert s in replies[last].keys;
    }
  }

  /** A key the delete loop was not given would have been present throughout: there is none. */
  lemma DeleteScanIsComplete(store: Store, pattern: string, replies: seq<ScanReply>)
    requires ScanGuarantee(pattern, DuringDelete(store, replies), replies)
    ensures Returned(replies) == Matching(store, pattern)
  {
    hide Glob;
    forall s | s in Returned(replies)
      ensures s in Matching(store, pattern)
    {
      ReturnedWasGiven(replies, s);
      var i: nat :| i < |replies| && s in replies[i].keys;
      assert SeenBy(DuringDelete(store, replies), i, s);
    }
    forall s | s in Matching(store, pattern)
      ensures s in Returned(replies)
    {
      if forall n: nat :: n <= |replies| ==> s in DuringDelete(store, replies)(n) {
        // the guarantee applies
      } else {
        var n: nat :| n <= |replies| && s !in DuringDelete(store, replies)(n);
        ReturnedGrows(replies, n);
      }
    }
  }

  class CustomCacheService {
    const config: Config
    var store: Store

    constructor (config: Config)
      ensures this.config == config && store == map[]
    {
      this.config := config;
      store := map[];
    }

    method Get(key: Key) returns (entry: Option<Entry>)
      ensures entry == Lookup(store, key)
    {
      entry := Lookup(store, key);
    }

    /** The clock moves on and the store drops what has expired. */
    method Expire(now: nat)
      modifies this
      ensures store == old(store) - set s | s in old(store) && old(store)[s].expires <= now
    {
      store := store - set s | s in store && store[s].expires <= now;
    }

    method GetIsAccessTokenBlacklistCache(client: string, user: string, jwt: string) returns (listed: bool)
      ensures listed <==> KeyString(Token(client, user, Blacklist, jwt)) in store
    {
      var entry := Get(Token(client, user, Blacklist, jwt));
      listed := entry.Some?;
    }

    method SetUserAccessTokenCache(client: string, user: string, jwt: string, value: Value, now: nat)
      modifies this
      ensures store == old(store)[KeyString(Token(client, user, Access, jwt)) := Entry(value, now + config.accessTokenCacheExpiresIn)]
    {
      store := store[KindPrefix(client, user, Access) + ":" + jwt := Entry(value, now + config.accessTokenCacheExpiresIn)];
    }

    method SetUserRefreshTokenCache(client: string, user: string, token: string, value: Value, now: nat)
      modifies this
      ensures store == old(store)[KeyString(Token(client, user, Refresh, token)) := Entry(value, now + config.refreshTokenCacheExpiresIn)]
    {
      store := store[KindPrefix(client, user, Refresh) + ":" + token := Entry(value, now + config.refreshTokenCacheExpiresIn)];
    }

    method BlacklistBatch(client: string, user: string, expires: nat, keys: seq<string>, ghost store0: Store, ghost done: set<string>)
      requires store == BlacklistKeys(store0, client, user, expires, done)
      modifies this
      ensures store == BlacklistKeys(store0, client, user, expires, done + set s | s in keys)
    {
      hide LastSegment, BlacklistTargets, WriteAll;
      ghost var all := done;
      for j := 0 to |keys|
        invariant all == done + set s | s in keys[..j]
        invariant store == BlacklistKeys(store0, client, user, expires, all)
      {
        var token := LastSegment(keys[j]);
        TargetsOneMore(client, user, all, keys[j]);
        WriteOneMore(store0, BlacklistTargets(client, user, all), BlacklistTarget(client, user, keys[j]), Entry(Blacklisted, expires));
        if token != "" {
          store := store[KindPrefix(client, user, Blacklist) + ":" + token := Entry(Blacklisted, expires)];
        }
        assert keys[..j + 1] == keys[..j] + [keys[j]];
        all := all + {keys[j]};
      }
      assert keys[..|keys|] == keys;
    }

    /** Ends with a blacklist entry for exactly the access keys present at entry. */
    method SetUserAccessTokenBlacklistCache(client: string, user: string, now: nat, replies: seq<ScanReply>)
      requires ScanGuarantee(ScanPattern(client, user, Access),
                             DuringBlacklist(store, client, user, now + BlacklistTtl(config), replies), replies)
      modifies this
      ensures store == BlacklistKeys(old(store), client, user, now + BlacklistTtl(config),
                                     Matching(old(store), ScanPattern(client, user, Access)))
    {
      hide ScanGuarantee, DuringBlacklist, BlacklistTargets, WriteAll, Matching;
      var expires := now + BlacklistTtl(config);
      BlacklistScanIsComplete(store, ScanPattern(client, user, Access), client, user, expires, replies);
      BlacklistNone(store, client, user, expires);
      var cursor, i, started := "0", 0, false;
      while !started || cursor != "0"
        invariant i <= |replies| && (started <==> i > 0)
        invariant started ==> cursor == replies[i - 1].cursor
        invariant store == BlacklistKeys(old(store), client, user, expires, Returned(replies[..i]))
        decreases |replies| - i
      {
        cursor, started := replies[i].cursor, true;
        BlacklistBatch(client, user, expires, replies[i].keys, old(store), Returned(replies[..i]));
        assert replies[..i + 1][..i] == replies[..i];
        i := i + 1;
      }
      assert replies[..i] == replies;
    }

    /** Ends without any key that matched at entry, whatever the order of the batches. */
    method DeleteKeysByPattern(pattern: string, replies: seq<ScanReply>)
      requires ScanGuarantee(pattern, DuringDelete(store, replies), replies)
      modifies this
      ensures store == old(store) - Matching(old(store), pattern)
    {
      DeleteScanIsComplete(store, pattern, replies);
      var cursor, i, started := "0", 0, false;
      while !started || cursor != "0"
        invariant i <= |replies| && (started <==> i > 0)
        invariant started ==> cursor == replies[i - 1].cursor
        invariant store == old(store) - Returned(replies[..i])
        decreases |replies| - i
      {
        var keys := replies[i].keys;
        cursor, started := replies[i].cursor, true;
        ghost var done := Returned(replies[..i]);
        for j := 0 to |keys|
          invariant store == old(store) - (done + set s | s in keys[..j])
        {
          store := store - {keys[j]};
          assert keys[..j + 1] == keys[..j] + [keys[j]];
        }
        assert keys[..|keys|] == keys;
        assert replies[..i + 1][..i] == replies[..i];
        i := i + 1;
      }
      assert replies[..i] == replies;
    }

    method ClearUserAllTokenCaches(client: string, user: string, accessReplies: seq<ScanReply>, refreshReplies: seq<ScanReply>)
      requires ScanGuarantee(ScanPattern(client, user, Access), DuringDelete(store, accessReplies), accessReplies)
      requires
        var rest := store - Matching(store, ScanPattern(client, user, Access));
        ScanGuarantee(ScanPattern(client, user, Refresh), DuringDelete(rest, refreshReplies), refreshReplies)
      modifies this
      ensures store == old(store) - Matching(old(store), ScanPattern(client, user, Access))
                                  - Matching(old(store), ScanPattern(client, user, Refresh))
    {
      DeleteKeysByPattern(ScanPattern(client, user, Access), accessReplies);
      DeleteKeysByPattern(ScanPattern(client, user, Refresh), refreshReplies);
    }
  }

  // ---- The string store and the structured store agree --------------------------------------

  ghost predicate Represents(store: Store, m: Entries) {
    && (forall k :: k in m ==> WellFormed(k) && KeyString(k) in store && store[KeyString(k)] == m[k])
    && (forall s :: s in store ==> exists k :: k in m && KeyString(k) == s)
  }

  lemma RepresentsGet(store: Store, m: Entries, k: Key)
    requires Represents(store, m) && WellFormed(k)
    ensures Lookup(store, k) == Fetch(m, k)
  {
    if KeyString(k) in store {
      var j :| j in m && KeyString(j) == KeyString(k);
      KeyStringInjective(j, k);
    }
  }

  /** A lookup finds what the structured entries hold under that string, whatever the request spells. */
  lemma RepresentsFound(store: Store, m: Entries, k: Key)
    requires Represents(store, m)
    ensures Lookup(store, k) == Found(m, k)
  {
    hide KeyString;
  }

  lemma RepresentsSet(store: Store, m: Entries, k: Key, e: Entry)
    requires Represents(store, m) && WellFormed(k)
    ensures Represents(store[KeyString(k) := e], m[k := e])
  {
    var store', m' := store[KeyString(k) := e], m[k := e];
    forall j | j in m'
      ensures WellFormed(j) && KeyString(j) in store' && store'[KeyString(j)] == m'[j]
    {
      if j != k && KeyString(j) == KeyString(k) {
        KeyStringInjective(j, k);
      }
    }
    forall s | s in store'
      ensures exists j :: j in m' && KeyString(j) == s
    {
      if s == KeyString(k) {
        assert k in m';
      } else {
        var j :| j in m && KeyString(j) == s;
        assert j in m';
      }
    }
  }

  lemma RepresentsDelete(store: Store, m: Entries, client: string, user: string, kind: Kind)
    requires Represents(store, m)
    ensures Represents(store - Matching(store, ScanPattern(client, user, kind)),
                       m - set k | k in m && Hits(client, user, kind, k))
  {
    hide KeyString, Glob, LastSegment, KindPrefix, ScanPattern;
  }

  lemma RepresentsClear(store: Store, m: Entries, client: string, user: string)
    requires Represents(store, m)
    ensures Represents(store - Matching(store, ScanPattern(client, user, Access)) - Matching(store, ScanPattern(client, user, Refresh)),
                       ClearUser(m, client, user))
  {
    hide KeyString, Glob, LastSegment, KindPrefix, ScanPattern, Represents, Hits;
    var store', m' := store - Matching(store, ScanPattern(client, user, Access)),
                      m - set k | k in m && Hits(client, user, Access, k);
    RepresentsDelete(store, m, client, user, Access);
    RepresentsDelete(store', m', client, user, Refresh);
    assert store' - Matching(store', ScanPattern(client, user, Refresh)) == store' - Matching(store, ScanPattern(client, user, Refresh));
    assert ClearUser(m, client, user) == m' - set k | k in m' && Hits(client, user, Refresh, k);
  }

  /** A database URL is never found, and a token key gives back its token. */
  lemma FoundKeyGivesToken(client: string, user: string, kind: Kind, k: Key)
    requires WellFormed(k) && Hits(client, user, kind, k)
    ensures k.Token? && LastSegment(KeyString(k)) == k.token
  {
    assert ScanPattern(client, user, kind)[0] == 'c';
    FirstLetter(k);
    if k.Token? {
      TokenRecovered(k.client, k.user, k.kind, k.token);
    }
  }

  lemma TargetIsBlacklistKey(client: string, user: string, s: string)
    ensures BlacklistTarget(client, user, s) == KeyString(Token(client, user, Blacklist, LastSegment(s)))
  {
  }

  lemma RepresentsWriteAll(store: Store, m: Entries, names: set<string>, keys: set<Key>, e: Entry)
    requires Represents(store, m)
    requires names == set k | k in keys :: KeyString(k)
    requires forall k :: k in keys ==> WellFormed(k)
    ensures Represents(WriteAll(store, names, e), WriteKeys(m, keys, e))
  {
    hide KeyString;
    var store', m' := WriteAll(store, names, e), WriteKeys(m, keys, e);
    forall k | k in m'
      ensures WellFormed(k) && KeyString(k) in store' && store'[KeyString(k)] == m'[k]
    {
      if k !in keys && KeyString(k) in names {
        var j :| j in keys && KeyString(j) == KeyString(k);
        KeyStringInjective(j, k);
      }
    }
    forall s | s in store'
      ensures exists k :: k in m' && KeyString(k) == s
    {
      if s in names {
        var k :| k in keys && KeyString(k) == s;
        assert k in m';
      } else {
        var k :| k in m && KeyString(k) == s;
        assert k in m';
      }
    }
  }

  lemma RepresentsBlacklist(store: Store, m: Entries, client: string, user: string, expires: nat)
    requires Represents(store, m) && ColonFree(user)
    ensures Represents(BlacklistKeys(store, client, user, expires, Matching(store, ScanPattern(client, user, Access))),
                       BlacklistUser(m, client, user, expires))
  {
    hide KeyString, Glob, LastSegment, BlacklistTarget, ScanPattern;
    var keys := Matching(store, ScanPattern(client, user, Access));
    var names, written := BlacklistTargets(client, user, keys), BlacklistKeysOf(m, client, user);
    forall s | s in names
      ensures exists k :: k in written && KeyString(k) == s
    {
      var s0 :| s0 in keys && LastSegment(s0) != "" && s == BlacklistTarget(client, user, s0);
      var k0 :| k0 in m && KeyString(k0) == s0;
      FoundKeyGivesToken(client, user, Access, k0);
      TargetIsBlacklistKey(client, user, s0);
      assert Token(client, user, Blacklist, k0.token) in written;
    }
    forall k | k in written
      ensures KeyString(k) in names
    {
      var k0 :| k0 in m && k0.Token? && Hits(client, user, Access, k0) && k0.token != "" && k == Token(client, user, Blacklist, k0.token);
      FoundKeyGivesToken(client, user, Access, k0);
      TargetIsBlacklistKey(client, user, KeyString(k0));
      assert KeyString(k0) in keys;
    }
    RepresentsWriteAll(store, m, names, written, Entry(Blacklisted, expires));
  }

  lemma RepresentsPurge(store: Store, m: Entries, now: nat)
    requires Represents(store, m)
    ensures Represents(store - (set s | s in store && store[s].expires <= now), Purge(m, now))
  {
    hide KeyString;
  }

  // ---- Both loops together ------------------------------------------------------------------

  /** The store after the blacklist loop and then the clear loops of one user. */
  function AfterRevocation(store: Store, client: string, user: string, expires: nat): Store {
    var listed := BlacklistKeys(store, client, user, expires, Matching(store, ScanPattern(client, user, Access)));
    listed - Matching(listed, ScanPattern(client, user, Access)) - Matching(listed, ScanPattern(client, user, Refresh))
  }

  /**
   * The loops are complete and framed, key by key of the string store, when SCAN finds the user's own
   * keys: the user's access and refresh keys are gone, every access token the user had is
   * blacklisted, and no other entry, be it of another user, client or kind, has changed.
   */
  lemma RevocationIsFramed(store: Store, m: Entries, client: string, user: string, expires: nat, k: Key)
    requires Represents(store, m) && ColonFree(user) && WellFormed(k) && ScansOwn(m, client, user)
    ensures
      Lookup(AfterRevocation(store, client, user, expires), k) ==
        if Belongs(k, client, user, Access) || Belongs(k, client, user, Refresh) then None
        else if Belongs(k, client, user, Blacklist) && k.token != ""
                && Lookup(store, Token(client, user, Access, k.token)).Some? then Some(Entry(Blacklisted, expires))
        else Lookup(store, k)
  {
    hide Represents, Lookup, BlacklistKeys, Matching, ScansOwn, ScanPattern, BlacklistUser, ClearUser;
    var s1 := BlacklistKeys(store, client, user, expires, Matching(store, ScanPattern(client, user, Access)));
    var m1 := BlacklistUser(m, client, user, expires);
    RepresentsBlacklist(store, m, client, user, expires);
    RepresentsClear(s1, m1, client, user);
    RevocationIsOwn(m, client, user, expires);
    RepresentsGet(AfterRevocation(store, client, user, expires), ClearUser(m1, client, user), k);
    RepresentsGet(store, m, k);
    if Belongs(k, client, user, Blacklist) {
      RepresentsGet(store, m, Token(client, user, Access, k.token));
      assert Token(client, user, Access, k.token) in m && k.token != "" <==> k in OwnBlacklistKeys(m, client, user);
    }
  }
}
