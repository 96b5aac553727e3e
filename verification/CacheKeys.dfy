/**
 * Redis key strings of the cache service: how they are built, how the blacklist loop takes a
 * token back out of one, and which keys a SCAN pattern selects.
 */
module CacheKeys {

  datatype Kind = Access | Refresh | Device | Blacklist

  /** What a cache key stands for: a token of a user of a client, or the database URL of a client. */
  datatype Key =
    | Token(client: string, user: string, kind: Kind, token: string)
    | DbUrl(code: string)

  function KindName(kind: Kind): string {
    match kind
    case Access => "access"
    case Refresh => "refresh"
    case Device => "device"
    case Blacklist => "blacklist"
  }

  function ClientPrefix(client: string): string {
    "client:" + client
  }

  function UserTokenPrefix(client: string, user: string): string {
    ClientPrefix(client) + ":user:" + user + ":token"
  }

  function KindPrefix(client: string, user: string, kind: Kind): string {
    UserTokenPrefix(client, user) + ":" + KindName(kind)
  }

  function KeyString(k: Key): string {
    match k
    case Token(client, user, kind, token) => KindPrefix(client, user, kind) + ":" + token
    case DbUrl(code) => "tenant:" + code + ":dbUrl"
  }

  /** The argument of SCAN's MATCH for one user and kind. */
  function ScanPattern(client: string, user: string, kind: Kind): string {
    KindPrefix(client, user, kind) + ":*"
  }

  // ---- Splitting on colons ----------------------------------------------------------------

  /** JavaScript's `s.split(':')`. */
  function Split(s: string): (parts: seq<string>)
    ensures |parts| >= 1
  {
    if s == "" then [""]
    else
      var rest := Split(s[1..]);
      if s[0] == ':' then [""] + rest else [[s[0]] + rest[0]] + rest[1..]
  }

  /** `key.split(':').pop()`, which the blacklist loop uses to get the token of a key. */
  function LastSegment(s: string): string {
    var parts := Split(s);
    parts[|parts| - 1]
  }

  predicate ColonFree(s: string) {
    ':' !in s
  }

  lemma {:induction false} SplitColonFree(s: string)
    requires ColonFree(s)
    ensures Split(s) == [s]
  {
    if s != "" {
      SplitColonFree(s[1..]);
      assert s == [s[0]] + s[1..];
    }
  }

  /** Whatever precedes it, a colon-free suffix after a colon is the last segment. */
  lemma {:induction false} LastSegmentOfSuffix(prefix: string, suffix: string)
    requires ColonFree(suffix)
    ensures LastSegment(prefix + ":" + suffix) == suffix
  {
    var s := prefix + ":" + suffix;
    if prefix == "" {
      assert s[1..] == suffix;
      SplitColonFree(suffix);
    } else {
      assert s[1..] == prefix[1..] + ":" + suffix;
      LastSegmentOfSuffix(prefix[1..], suffix);
      LastSegmentNeedsColon(prefix[1..], suffix);
    }
  }

  lemma {:induction false} SegmentsColonFree(s: string)
    ensures forall part :: part in Split(s) ==> ColonFree(part)
  {
    if s != "" {
      SegmentsColonFree(s[1..]);
      var rest := Split(s[1..]);
      assert rest[0] in rest && forall part :: part in rest[1..] ==> part in rest;
    }
  }

  lemma {:induction false} LastSegmentNeedsColon(prefix: string, suffix: string)
    ensures |Split(prefix + ":" + suffix)| >= 2
  {
    var s := prefix + ":" + suffix;
    if prefix == "" {
      assert s[1..] == suffix;
    } else {
      assert s[1..] == prefix[1..] + ":" + suffix;
      LastSegmentNeedsColon(prefix[1..], suffix);
    }
  }

  // ---- Reading a key from the right and from the left ---------------------------------------

  lemma SplitFromRight(a: string, x: string, b: string, y: string)
    requires a + ":" + x == b + ":" + y
    requires ColonFree(x) && ColonFree(y)
    ensures a == b && x == y
  {
    var s, t := a + ":" + x, b + ":" + y;
    assert s[|a|] == ':' && t[|b|] == ':';
    assert forall i :: |a| < i < |s| ==> s[i] == x[i - |a| - 1] != ':';
    assert forall i :: |b| < i < |t| ==> t[i] == y[i - |b| - 1] != ':';
    assert |a| == |b|;
    assert a == s[..|a|] && b == t[..|b|];
    assert x == s[|a| + 1..] && y == t[|b| + 1..];
  }

  /** Two strings that open with a colon-free segment, one a prefix of the other. */
  lemma PrefixFromLeft(a: string, x: string, b: string, y: string)
    requires a + ":" + x <= b + ":" + y
    requires ColonFree(a) && ColonFree(b)
    ensures a == b && x <= y
  {
    var s, t := a + ":" + x, b + ":" + y;
    assert s[|a|] == ':' && t[|b|] == ':';
    assert forall i :: 0 <= i < |a| ==> s[i] == a[i] != ':';
    assert forall i :: 0 <= i < |b| ==> t[i] == b[i] != ':';
    assert forall i :: 0 <= i < |s| ==> s[i] == t[i];
    assert |a| == |b|;
    assert a == s[..|a|] == t[..|a|] == b;
    assert x == s[|a| + 1..] && y == t[|b| + 1..];
  }

  lemma FromTheRight(client: string, user: string, kind: Kind, token: string)
    ensures KeyString(Token(client, user, kind, token))
            == ((((("client:" + client) + ":" + "user") + ":" + user) + ":" + "token") + ":" + KindName(kind)) + ":" + token
  {
    assert ":user:" == ":" + "user" + ":" && ":token" == ":" + "token";
  }

  lemma Regroup(a: string, b: string, c: string)
    ensures (a + b) + c == a + (b + c)
  {
  }

  lemma FromTheLeft(client: string, user: string, kind: Kind, rest: string)
    ensures KindPrefix(client, user, kind) + ":" + rest
            == "client" + ":" + (client + ":" + ("user" + ":" + (user + ":" + ("token" + ":" + (KindName(kind) + ":" + rest)))))
  {
    hide KindName;
    var kn := KindName(kind);
    var x := kn + ":" + rest;
    var head := UserTokenPrefix(client, user);
    assert KindPrefix(client, user, kind) + ":" + rest == head + (":" + x) by {
      hide UserTokenPrefix;
      Regroup(head + ":", kn, ":");
      Regroup(head + ":", kn + ":", rest);
      Regroup(head, ":", x);
    }
    hide KindPrefix;
    var a := ClientPrefix(client) + ":user:" + user;
    Regroup(a, ":token", ":" + x);
    assert ":token" + (":" + x) == ":" + ("token" + ":" + x);
    var y := "token" + ":" + x;
    Regroup(ClientPrefix(client) + ":user:", user, ":" + y);
    Regroup(ClientPrefix(client), ":user:", user + (":" + y));
    assert user + (":" + y) == user + ":" + y;
    var z := user + ":" + y;
    assert ":user:" + z == ":" + ("user" + ":" + z);
    Regroup("client:", client, ":" + ("user" + ":" + z));
    assert "client:" == "client" + ":";
    Regroup(client, ":", "user" + ":" + z);
  }

  /**
   * Key format: with colon-free user ids and tokens the builders are injective, for any client code.
   */
  lemma KeyStringInjective(j: Key, k: Key)
    requires j.Token? ==> ColonFree(j.user) && ColonFree(j.token)
    requires k.Token? ==> ColonFree(k.user) && ColonFree(k.token)
    requires KeyString(j) == KeyString(k)
    ensures j == k
  {
    assert KeyString(j)[0] == if j.Token? then 'c' else 't';
    assert KeyString(k)[0] == if k.Token? then 'c' else 't';
    if j.DbUrl? {
      assert KeyString(j)[7..7 + |j.code|] == j.code;
      assert KeyString(k)[7..7 + |k.code|] == k.code;
    } else {
      FromTheRight(j.client, j.user, j.kind, j.token);
      FromTheRight(k.client, k.user, k.kind, k.token);
      var j5, k5 := "client:" + j.client, "client:" + k.client;
      var j4, k4 := j5 + ":" + "user", k5 + ":" + "user";
      var j3, k3 := j4 + ":" + j.user, k4 + ":" + k.user;
      var j2, k2 := j3 + ":" + "token", k3 + ":" + "token";
      var j1, k1 := j2 + ":" + KindName(j.kind), k2 + ":" + KindName(k.kind);
      SplitFromRight(j1, j.token, k1, k.token);
      SplitFromRight(j2, KindName(j.kind), k2, KindName(k.kind));
      SplitFromRight(j3, "token", k3, "token");
      SplitFromRight(j4, j.user, k4, k.user);
      SplitFromRight(j5, "user", k5, "user");
      assert j.client == j5[7..] && k.client == k5[7..];
    }
  }

  /** The blacklist loop recovers exactly the token a key was built from. */
  lemma TokenRecovered(client: string, user: string, kind: Kind, token: string)
    requires ColonFree(token)
    ensures LastSegment(KeyString(Token(client, user, kind, token))) == token
  {
    LastSegmentOfSuffix(KindPrefix(client, user, kind), token);
  }

  // ---- Glob patterns ------------------------------------------------------------------------

  /** Reads a bracket class up to its closing bracket: whether `c` is in it, and the pattern after it. */
  function MatchClass(p: string, c: char, hit: bool): (r: (bool, string))
    ensures |r.1| <= |p|
  {
    if p == "" then (hit, "")
    else if p[0] == '\\' && |p| >= 2 then MatchClass(p[2..], c, hit || p[1] == c)
    else if p[0] == ']' then (hit, p[1..])
    else if |p| >= 3 && p[1] == '-' then
      MatchClass(p[3..], c, hit || p[0] <= c <= p[2] || p[2] <= c <= p[0])
    else MatchClass(p[1..], c, hit || p[0] == c)
  }

  /** Glob matching as SCAN's MATCH applies it. */
  predicate Glob(p: string, s: string)
    decreases |p|, |s|
  {
    if p == "" then s == ""
    else if p[0] == '*' then Glob(p[1..], s) || (s != "" && Glob(p, s[1..]))
    else if s == "" then false
    else if p[0] == '?' then Glob(p[1..], s[1..])
    else if p[0] == '\\' && |p| >= 2 then p[1] == s[0] && Glob(p[2..], s[1..])
    else if p[0] == '[' then
      var negated := |p| >= 2 && p[1] == '^';
      var (hit, rest) := MatchClass(if negated then p[2..] else p[1..], s[0], false);
      hit != negated && Glob(rest, s[1..])
    else p[0] == s[0] && Glob(p[1..], s[1..])
  }

  predicate Special(c: char) {
    c == '*' || c == '?' || c == '[' || c == '\\'
  }

  predicate GlobFree(s: string) {
    forall i :: 0 <= i < |s| ==> !Special(s[i])
  }

  lemma {:induction false} StarMatchesAll(s: string)
    ensures Glob("*", s)
  {
    if s == "" {
      assert Glob("*"[1..], "");
    } else {
      StarMatchesAll(s[1..]);
    }
  }

  lemma {:induction false} GlobOfLiteral(p: string, s: string)
    requires GlobFree(p)
    ensures Glob(p + "*", s) <==> p <= s
  {
    if p == "" {
      assert p + "*" == "*";
      StarMatchesAll(s);
    } else if s != "" {
      assert (p + "*")[0] == p[0] && (p + "*")[1..] == p[1..] + "*";
      GlobOfLiteral(p[1..], s[1..]);
      assert p <= s <==> p[0] == s[0] && p[1..] <= s[1..] by {
        assert p == [p[0]] + p[1..] && s == [s[0]] + s[1..];
      }
    } else {
      assert (p + "*")[0] == p[0] != '*';
    }
  }

  /** Client codes and user ids that put nothing special into a key or a pattern. */
  predicate Plain(s: string) {
    ColonFree(s) && GlobFree(s)
  }

  /** User ids and tokens without colons; the client code may be anything a request names. */
  predicate WellFormed(k: Key) {
    k.Token? ==> ColonFree(k.user) && ColonFree(k.token)
  }

  /** Does the key belong to this user of this client, with this kind? */
  predicate Belongs(k: Key, client: string, user: string, kind: Kind) {
    k.Token? && k.client == client && k.user == user && k.kind == kind
  }

  lemma PrefixIsExact(client: string, user: string, kind: Kind, k: Key)
    requires ColonFree(client) && ColonFree(user) && k.Token? && WellFormed(k) && ColonFree(k.client)
    ensures KindPrefix(client, user, kind) + ":" <= KeyString(k) <==> Belongs(k, client, user, kind)
  {
    var p := KindPrefix(client, user, kind) + ":";
    if p <= KeyString(k) {
      FromTheLeft(client, user, kind, "");
      assert p == p + "";
      FromTheLeft(k.client, k.user, k.kind, k.token);
      var kn, kn' := KindName(kind), KindName(k.kind);
      var x3, y3 := kn + ":" + "", kn' + ":" + k.token;
      var x2, y2 := "token" + ":" + x3, "token" + ":" + y3;
      var x1, y1 := "user" + ":" + (user + ":" + x2), "user" + ":" + (k.user + ":" + y2);
      PrefixFromLeft("client", client + ":" + x1, "client", k.client + ":" + y1);
      PrefixFromLeft(client, x1, k.client, y1);
      PrefixFromLeft("user", user + ":" + x2, "user", k.user + ":" + y2);
      PrefixFromLeft(user, x2, k.user, y2);
      PrefixFromLeft("token", x3, "token", y3);
      PrefixFromLeft(kn, "", kn', k.token);
    }
  }

  lemma GlobFreeConcat(a: string, b: string)
    requires GlobFree(a) && GlobFree(b)
    ensures GlobFree(a + b)
  {
  }

  lemma PrefixGlobFree(client: string, user: string, kind: Kind)
    requires GlobFree(client) && GlobFree(user)
    ensures GlobFree(KindPrefix(client, user, kind) + ":")
  {
    GlobFreeConcat("client:", client);
    var a := ClientPrefix(client);
    GlobFreeConcat(a, ":user:");
    GlobFreeConcat(a + ":user:", user);
    GlobFreeConcat(a + ":user:" + user, ":token");
    var b := UserTokenPrefix(client, user);
    GlobFreeConcat(b, ":");
    GlobFreeConcat(b + ":", KindName(kind));
    GlobFreeConcat(b + ":" + KindName(kind), ":");
  }

  lemma PatternMeansPrefix(client: string, user: string, kind: Kind, s: string)
    requires GlobFree(client) && GlobFree(user)
    ensures Glob(ScanPattern(client, user, kind), s) <==> KindPrefix(client, user, kind) + ":" <= s
  {
    var p := KindPrefix(client, user, kind) + ":";
    PrefixGlobFree(client, user, kind);
    assert ScanPattern(client, user, kind) == p + "*";
    GlobOfLiteral(p, s);
  }

  /** The key's client code continues the prefix of this user and kind as if it were a token. */
  predicate Trespasses(k: Key, client: string, user: string, kind: Kind) {
    k.Token? && KindPrefix(client, user, kind) + ":" <= ClientPrefix(k.client) + ":"
  }

  /** One segment off the left of a prefix: `c` is that segment, or goes on after it. */
  lemma PeelSegment(x: string, y: string, c: string, t: string)
    requires ColonFree(x) && x + ":" + y <= c + ":" + t
    ensures |x| <= |c|
    ensures if |c| == |x| then c == x && y <= t else c == x + ":" + c[|x| + 1..] && y <= c[|x| + 1..] + ":" + t
  {
    var s, u := x + ":" + y, c + ":" + t;
    assert s[|x|] == ':' && u[|c|] == ':';
    assert forall i :: 0 <= i < |x| ==> s[i] == x[i] != ':';
    assert forall i :: 0 <= i < |s| ==> s[i] == u[i];
    assert |x| <= |c|;
    assert x == s[..|x|] == u[..|x|] == c[..|x|];
    assert y == s[|x| + 1..];
    if |c| == |x| {
      assert t == u[|c| + 1..];
    } else {
      assert c[|x|] == u[|x|] == ':';
      assert c == c[..|x|] + [c[|x|]] + c[|x| + 1..];
      assert u[|x| + 1..] == c[|x| + 1..] + ":" + t;
    }
  }

  /** A foreign code that opens with the pattern's own code has to go through its whole prefix. */
  lemma ForeignCode(client: string, user: string, kn: string, rest: string, user': string, t': string)
    requires ColonFree(user) && ColonFree(user') && ColonFree(kn) && kn != "token" && kn != "user"
    requires
      var t := "user" + ":" + (user' + ":" + ("token" + ":" + t'));
      "user" + ":" + (user + ":" + ("token" + ":" + (kn + ":" + ""))) <= rest + ":" + t
    ensures "user" + ":" + (user + ":" + ("token" + ":" + (kn + ":" + ""))) <= rest + ":"
  {
    var t := "user" + ":" + (user' + ":" + ("token" + ":" + t'));
    var y3 := kn + ":" + "";
    var y2 := "token" + ":" + y3;
    var y1 := user + ":" + y2;
    PeelSegment("user", y1, rest, t);
    if |rest| == 4 {
      PrefixFromLeft(user, y2, "user", user' + ":" + ("token" + ":" + t'));
      PrefixFromLeft("token", y3, user', "token" + ":" + t');
      PrefixFromLeft(kn, "", "token", t');
    } else {
      var c1 := rest[5..];
      PeelSegment(user, y2, c1, t);
      if |c1| == |user| {
        PrefixFromLeft("token", y3, "user", user' + ":" + ("token" + ":" + t'));
      } else {
        var c2 := c1[|user| + 1..];
        PeelSegment("token", y3, c2, t);
        if |c2| == 5 {
          PrefixFromLeft(kn, "", "user", user' + ":" + ("token" + ":" + t'));
        } else {
          var c3 := c2[6..];
          PeelSegment(kn, "", c3, t);
          RebuildPrefix(user, kn, rest, c1, c2, c3);
        }
      }
    }
  }

  lemma RebuildPrefix(user: string, kn: string, rest: string, c1: string, c2: string, c3: string)
    requires rest == "user" + ":" + c1 && c1 == user + ":" + c2 && c2 == "token" + ":" + c3
    requires c3 == kn || kn + ":" <= c3
    ensures "user" + ":" + (user + ":" + ("token" + ":" + (kn + ":" + ""))) <= rest + ":"
  {
    PrefixUnder("token", kn + ":" + "", c3 + ":");
    PrefixUnder(user, "token" + ":" + (kn + ":" + ""), "token" + ":" + (c3 + ":"));
    PrefixUnder("user", user + ":" + ("token" + ":" + (kn + ":" + "")), user + ":" + ("token" + ":" + (c3 + ":")));
    assert "user" + ":" + (user + ":" + ("token" + ":" + (c3 + ":"))) == rest + ":";
  }

  lemma PrefixUnder(head: string, x: string, y: string)
    requires x <= y
    ensures head + ":" + x <= head + ":" + y
  {
  }

  lemma ForeignPrefixTrespasses(client: string, user: string, kind: Kind, k: Key)
    requires ColonFree(client) && ColonFree(user) && k.Token? && WellFormed(k) && k.client != client
    requires KindPrefix(client, user, kind) + ":" <= KeyString(k)
    ensures Trespasses(k, client, user, kind)
  {
    var p, kn, kn' := KindPrefix(client, user, kind) + ":", KindName(kind), KindName(k.kind);
    FromTheLeft(client, user, kind, "");
    FromTheLeft(k.client, k.user, k.kind, k.token);
    assert p == p + "";
    var y := "user" + ":" + (user + ":" + ("token" + ":" + (kn + ":" + "")));
    var t := "user" + ":" + (k.user + ":" + ("token" + ":" + (kn' + ":" + k.token)));
    assert ColonFree(kn) && kn != "token" && kn != "user";
    hide KindPrefix, KindName;
    PrefixFromLeft("client", client + ":" + y, "client", k.client + ":" + t);
    PeelSegment(client, y, k.client, t);
    var rest := k.client[|client| + 1..];
    ForeignCode(client, user, kn, rest, k.user, kn' + ":" + k.token);
    PrefixUnder(client, y, rest + ":");
    assert client + ":" + (rest + ":") == k.client + ":";
    PrefixUnder("client", client + ":" + y, k.client + ":");
    assert "client" + ":" + (k.client + ":") == ClientPrefix(k.client) + ":";
  }

  lemma CodeOpensKey(k: Key)
    requires k.Token?
    ensures ClientPrefix(k.client) + ":" <= KeyString(k)
  {
    FromTheLeft(k.client, k.user, k.kind, k.token);
    hide KindPrefix, KindName;
    PrefixOpens(k.client, "user" + ":" + (k.user + ":" + ("token" + ":" + (KindName(k.kind) + ":" + k.token))));
  }

  lemma PrefixOpens(client: string, rest: string)
    ensures ClientPrefix(client) + ":" <= "client" + ":" + (client + ":" + rest)
  {
    assert "client" + ":" + (client + ":" + rest) == (ClientPrefix(client) + ":") + rest;
  }

  /**
   * The SCAN pattern of a user and kind selects that user's keys of that kind and, whatever client
   * codes are in use, just those foreign keys whose code trespasses.
   */
  lemma PatternSelects(client: string, user: string, kind: Kind, k: Key)
    requires Plain(client) && Plain(user) && WellFormed(k)
    ensures Glob(ScanPattern(client, user, kind), KeyString(k)) <==> Belongs(k, client, user, kind) || Trespasses(k, client, user, kind)
  {
    hide KindName;
    PatternMeansPrefix(client, user, kind, KeyString(k));
    if k.DbUrl? {
      assert (KindPrefix(client, user, kind) + ":")[0] == 'c';
      assert KeyString(k)[0] == 't';
    } else if k.client == client {
      PrefixIsExact(client, user, kind, k);
      OwnCodeStaysOut(client, user, kind, k);
    } else {
      CodeOpensKey(k);
      if KindPrefix(client, user, kind) + ":" <= KeyString(k) {
        ForeignPrefixTrespasses(client, user, kind, k);
      }
    }
  }

  lemma OwnCodeStaysOut(client: string, user: string, kind: Kind, k: Key)
    requires k.Token? ==> k.client == client
    ensures !Trespasses(k, client, user, kind)
  {
    assert |KindPrefix(client, user, kind)| > |ClientPrefix(client)|;
  }

  lemma ColonFreeCodeStaysOut(client: string, user: string, kind: Kind, k: Key)
    requires k.Token? ==> ColonFree(k.client)
    ensures !Trespasses(k, client, user, kind)
  {
    if k.Token? {
      var p, q := KindPrefix(client, user, kind) + ":", ClientPrefix(k.client) + ":";
      var at := |ClientPrefix(client)|;
      assert p == ClientPrefix(client) + (":user:" + user + ":token" + ":" + KindName(kind) + ":");
      assert p[at] == ':' && at < |p| - 1;
      assert forall i :: 7 <= i < |q| - 1 ==> q[i] == k.client[i - 7] != ':';
    }
  }

  /** With colon-free client codes, then, exactly that user's keys of that kind. */
  lemma PatternIsExact(client: string, user: string, kind: Kind, k: Key)
    requires Plain(client) && Plain(user) && WellFormed(k) && (k.Token? ==> ColonFree(k.client))
    ensures Glob(ScanPattern(client, user, kind), KeyString(k)) <==> Belongs(k, client, user, kind)
  {
    hide Glob, ScanPattern, KeyString, Trespasses;
    PatternSelects(client, user, kind, k);
    ColonFreeCodeStaysOut(client, user, kind, k);
  }

  /** A trespassing key, from the code alone: all keys under this code are somebody else's too. */
  lemma ColonInCodeBreaksPattern(client: string, user: string, kind: Kind, k: Key)
    requires Plain(client) && Plain(user) && k.Token? && WellFormed(k)
    requires k.client == client + ":user:" + user + ":token:" + KindName(kind)
    ensures Glob(ScanPattern(client, user, kind), KeyString(k)) && !Belongs(k, client, user, kind)
  {
    hide Glob, ScanPattern, KeyString, KindName;
    assert ClientPrefix(k.client) + ":" == KindPrefix(client, user, kind) + ":";
    PatternSelects(client, user, kind, k);
  }

  lemma SameSuffix(a: string, x: string, y: string)
    requires a + x == a + y
    ensures x == y
  {
    assert x == (a + x)[|a|..] && y == (a + y)[|a|..];
  }

  lemma FirstLetter(k: Key)
    ensures KeyString(k) != "" && KeyString(k)[0] == if k.Token? then 'c' else 't'
  {
  }

  /**
   * Whatever token a request presents: a cached key with the same string is the key it means, or
   * one whose client code trespasses on it.
   */
  lemma SameStringTrespasses(client: string, user: string, kind: Kind, token: string, j: Key)
    requires ColonFree(client) && ColonFree(user) && WellFormed(j)
    requires KeyString(j) == KeyString(Token(client, user, kind, token))
    ensures j == Token(client, user, kind, token) || Trespasses(j, client, user, kind)
  {
    FirstLetter(Token(client, user, kind, token));
    FirstLetter(j);
    if j.client == client {
      PrefixIsExact(client, user, kind, j);
      assert KindPrefix(client, user, kind) + ":" <= KeyString(j);
      SameSuffix(KindPrefix(client, user, kind) + ":", j.token, token);
    } else {
      ForeignPrefixTrespasses(client, user, kind, j);
    }
  }

  lemma RefreshPrefix(client: string, user: string)
    ensures KindPrefix(client, user, Refresh) + ":" == ClientPrefix(client) + (":user:" + user + ":token:refresh:")
  {
    var a := ClientPrefix(client);
    assert ":token" + ":" + "refresh" + ":" == ":token:refresh:";
    assert a + ":user:" + user + ":token" + ":" + "refresh" + ":" == a + (":user:" + user + (":token" + ":" + "refresh" + ":"));
  }

  lemma RegroupFour(a: string, mid: string, x: string, rest: string)
    ensures (a + mid) + (x + mid + rest) == ((a + (mid + x)) + mid) + rest
  {
  }

  /** A token with colons can spell a key of another code. */
  lemma SpelledKey(client: string, user: string, x: string, token: string)
    ensures
      var mid := ":user:" + user + ":token:refresh:";
      KeyString(Token(client, user, Refresh, x + mid + token)) == KeyString(Token(client + (mid + x), user, Refresh, token))
  {
    var mid := ":user:" + user + ":token:refresh:";
    RefreshPrefix(client, user);
    RefreshPrefix(client + (mid + x), user);
    hide KindPrefix;
    assert ClientPrefix(client + (mid + x)) == ClientPrefix(client) + (mid + x);
    RegroupFour(ClientPrefix(client), mid, x, token);
  }

  lemma {:induction false} GlobAfterLiteral(literal: string, p: string, s: string)
    requires GlobFree(literal) && Glob(literal + p, s)
    ensures literal <= s && Glob(p, s[|literal|..])
  {
    if literal == "" {
      assert literal + p == p && s[0..] == s;
    } else {
      assert (literal + p)[0] == literal[0] && (literal + p)[1..] == literal[1..] + p;
      GlobAfterLiteral(literal[1..], p, s[1..]);
      assert literal == [literal[0]] + literal[1..] && s == [s[0]] + s[1..];
      assert s[1..][|literal| - 1..] == s[|literal|..];
    }
  }

  /** Glob characters in a code: under `a[b]` SCAN asks for keys of the code `ab` and finds none of its own. */
  lemma BracketsMissTheirOwn(user: string, kind: Kind, s: string)
    requires Glob(ScanPattern("a[b]", user, kind), s)
    ensures "client:ab" <= s
  {
    hide Glob, KindName;
    var rest := ":user:" + user + ":token" + ":" + KindName(kind) + ":*";
    assert ScanPattern("a[b]", user, kind) == "client:a" + ("[b]" + rest);
    GlobAfterLiteral("client:a", "[b]" + rest, s);
    BracketedB(rest, s[8..]);
    assert s == s[..8] + s[8..];
  }

  lemma BracketedB(rest: string, t: string)
    requires Glob("[b]" + rest, t)
    ensures t != "" && t[0] == 'b'
  {
    assert ("[b]" + rest)[1..] == "b]" + rest;
    ClassOfB(rest, t[0]);
  }

  lemma ClassOfB(rest: string, c: char)
    ensures MatchClass("b]" + rest, c, false) == (c == 'b', rest)
  {
    assert ("b]" + rest)[1..] == "]" + rest && ("]" + rest)[1..] == rest;
  }
}
