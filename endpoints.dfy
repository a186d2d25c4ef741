/** The image-store endpoint pool: parsing the configured `api_servers`
    strings into (host, port, use_ssl) triples, the single default endpoint
    built from the configured host and port, the shuffled order (taken as a
    given permutation) and the endless cycle over it from which every retry
    attempt draws its endpoint. */
module Endpoints {
  import opened Strings

  datatype Endpoint = Endpoint(host: string, port: nat, useSsl: bool)

  /** The image-store settings the pool is derived from. An empty
      `apiServers` list means "not configured": the pool is then the single
      endpoint `host:port`. */
  datatype StoreConfig = StoreConfig(
    host: string,
    port: nat,
    defaultUseSsl: bool,
    apiServers: seq<string>)

  /** A server string the pool cannot be built from. */
  datatype ConfigError = MalformedServer(server: string)

  datatype Parsed = Parsed(endpoint: Endpoint) | Malformed

  /** Parses `host:port` or `scheme://host:port`. A scheme is stripped and
      turns TLS on exactly when it is `https`; without a scheme TLS follows
      the configured default. */
  function ParseServer(s: string, defaultUseSsl: bool): (r: Parsed)
  {
    match IndexOf(s, "://")
    case Some(i) => ParseHostPort(s[i + 3..], s[..i] == "https")
    case None => ParseHostPort(s, defaultUseSsl)
  }

  /** Parses the `host:port` part of a server string. The port is what
      follows the last `:`, and it must be a non-empty run of digits; the
      host must be non-empty. */
  function ParseHostPort(rest: string, useSsl: bool): (r: Parsed)
  {
    match LastIndexOf(rest, ':')
    case None => Malformed
    case Some(j) =>
      var host := rest[..j];
      match ParseDecimal(rest[j + 1..])
      case None => Malformed
      case Some(port) =>
        if host == [] then Malformed else Parsed(Endpoint(host, port, useSsl))
  }

  /** Without a scheme separator, a server string that parses is exactly
      `host:digits`: the host before the last colon, the port the value of
      the digits after it, and TLS the configured default. */
  lemma ParsedWithoutScheme(s: string, defaultUseSsl: bool) returns (digits: string)
    requires IndexOf(s, "://") == None && ParseServer(s, defaultUseSsl).Parsed?
    ensures var e := ParseServer(s, defaultUseSsl).endpoint;
      e.host != [] && s == e.host + ":" + digits && ParseDecimal(digits) == Some(e.port) &&
      e.useSsl == defaultUseSsl
  {
    var e := ParseServer(s, defaultUseSsl).endpoint;
    var j := LastIndexOf(s, ':').value;
    LastIndexOfLast(s, ':');
    digits := s[j + 1..];
    assert e.host == s[..j];
    assert s == s[..j] + ":" + s[j + 1..];
  }

  /** With its first scheme separator at `i`, a server string that parses
      is exactly `scheme://host:digits`: the host between the separator and
      the last colon, the port the value of the digits after it, and TLS on
      exactly when the scheme is `https`. */
  lemma ParsedWithScheme(s: string, defaultUseSsl: bool, i: nat) returns (digits: string)
    requires IndexOf(s, "://") == Some(i) && ParseServer(s, defaultUseSsl).Parsed?
    ensures i + 3 <= |s|
    ensures var e := ParseServer(s, defaultUseSsl).endpoint;
      e.host != [] && s == s[..i] + "://" + e.host + ":" + digits &&
      ParseDecimal(digits) == Some(e.port) && e.useSsl == (s[..i] == "https")
  {
    var e := ParseServer(s, defaultUseSsl).endpoint;
    IndexOfFirst(s, "://");
    var rest := s[i + 3..];
    var j := LastIndexOf(rest, ':').value;
    LastIndexOfLast(rest, ':');
    digits := rest[j + 1..];
    assert e.host == rest[..j] && ParseDecimal(digits) == Some(e.port);
    Reassemble(s, i, j);
  }

  /** A string cut at a three-character separator at `i` and at a colon
      `j` places after it is the concatenation of its pieces. */
  lemma Reassemble(s: string, i: nat, j: nat)
    requires i + 3 <= |s| && s[i..i + 3] == "://" && i + 3 + j < |s| && s[i + 3 + j] == ':'
    ensures s == s[..i] + "://" + s[i + 3..][..j] + ":" + s[i + 3..][j + 1..]
  {
    var rest := s[i + 3..];
    assert rest == rest[..j] + [rest[j]] + rest[j + 1..];
    assert s == s[..i] + s[i..i + 3] + rest;
  }

  /** Renders an endpoint as a server string, with an optional scheme. */
  function FormatServer(scheme: Option<string>, host: string, port: nat): string {
    match scheme
    case Some(sc) => sc + "://" + host + ":" + NatToDecimal(port)
    case None => host + ":" + NatToDecimal(port)
  }

  /** In `host:digits` the last colon is the one after the host. */
  lemma HostPortSplit(host: string, digits: string)
    requires AllDigits(digits)
    ensures LastIndexOf(host + ":" + digits, ':') == Some(|host|)
  {
    assert ':' !in digits by {
      forall k | 0 <= k < |digits| ensures digits[k] != ':' {
        assert IsDigit(digits[k]);
      }
    }
    assert host + ":" + digits == host + [':'] + digits;
    LastIndexOfBefore(host, ':', digits);
  }

  /** `host:digits` holds no scheme separator. */
  lemma NoSchemeSeparator(host: string, digits: string)
    requires ':' !in host && |digits| > 0 && AllDigits(digits)
    ensures IndexOf(host + ":" + digits, "://") == None
  {
    var tail := host + ":" + digits;
    forall j: nat ensures !OccursAt(tail, "://", j) {
      if j + 3 <= |tail| {
        assert tail[j..j + 3][0] == tail[j] && tail[j..j + 3][1] == tail[j + 1];
        if j < |host| {
          assert tail[j] == host[j];
        } else if j == |host| {
          assert tail[j + 1] == digits[0];
        } else {
          assert tail[j] == digits[j - |host| - 1];
        }
      }
    }
    ContainsIff(tail, "://");
    IndexOfFirst(tail, "://");
  }

  /** In `scheme://rest` with a colon-free scheme, the first separator is
      the one after the scheme. */
  lemma SchemeSeparator(sc: string, rest: string)
    requires ':' !in sc
    ensures IndexOf(sc + "://" + rest, "://") == Some(|sc|)
  {
    var s := sc + "://" + rest;
    IndexOfFirst(s, "://");
    assert s[|sc|..|sc| + 3] == "://";
    assert OccursAt(s, "://", |sc|);
    ContainsAt(s, "://", |sc|);
    forall j: nat | j < |sc| ensures !OccursAt(s, "://", j) {
      assert s[j] == sc[j];
      if j + 3 <= |s| { assert s[j..j + 3][0] == s[j]; }
    }
  }

  /** A host/port pair, with or without a colon-free scheme, parses back to
      itself; TLS is on for `https` and follows the default otherwise. */
  lemma FormatParseRoundTrip(scheme: Option<string>, host: string, port: nat, defaultUseSsl: bool)
    requires host != [] && ':' !in host
    requires scheme.Some? ==> ':' !in scheme.value
    ensures ParseServer(FormatServer(scheme, host, port), defaultUseSsl)
         == Parsed(Endpoint(host, port,
                            if scheme.Some? then scheme.value == "https" else defaultUseSsl))
  {
    var tail := host + ":" + NatToDecimal(port);
    match scheme {
      case Some(sc) =>
        var s := sc + "://" + tail;
        assert FormatServer(scheme, host, port) == s;
        SchemeSeparator(sc, tail);
        assert s[..|sc|] == sc && s[|sc| + 3..] == tail;
        HostPortRoundTrip(host, port, sc == "https");
      case None =>
        NoSchemeSeparator(host, NatToDecimal(port));
        HostPortRoundTrip(host, port, defaultUseSsl);
    }
  }

  /** A non-empty host and a port written as `host:port` parse back. */
  lemma HostPortRoundTrip(host: string, port: nat, useSsl: bool)
    requires host != []
    ensures ParseHostPort(host + ":" + NatToDecimal(port), useSsl) == Parsed(Endpoint(host, port, useSsl))
  {
    var digits := NatToDecimal(port);
    var tail := host + ":" + digits;
    DecimalRoundTrip(port);
    HostPortSplit(host, digits);
    assert tail[..|host|] == host && tail[|host| + 1..] == digits;
  }

  /** The strings the pool is parsed from: the configured list, or the
      default `host:port` when no list is configured. */
  function ServerStrings(cfg: StoreConfig): (r: seq<string>)
    ensures |r| > 0
    ensures cfg.apiServers != [] ==> r == cfg.apiServers
  {
    if cfg.apiServers == [] then [FormatServer(None, cfg.host, cfg.port)] else cfg.apiServers
  }

  datatype PoolResult = Pool(endpoints: seq<Endpoint>) | PoolError(error: ConfigError)

  /** Parses every server string in order; the first malformed one is the error. */
  function ParseAll(servers: seq<string>, defaultUseSsl: bool): (r: PoolResult)
    ensures r.Pool? ==> |r.endpoints| == |servers|
  {
    if servers == [] then Pool([])
    else
      match ParseServer(servers[0], defaultUseSsl)
      case Malformed => PoolError(MalformedServer(servers[0]))
      case Parsed(e) =>
        match ParseAll(servers[1..], defaultUseSsl)
        case PoolError(err) => PoolError(err)
        case Pool(es) => Pool([e] + es)
  }

  /** A pool holds, position by position, what each server string parses
      to. */
  lemma {:induction false} ParseAllPool(servers: seq<string>, defaultUseSsl: bool)
    ensures var r := ParseAll(servers, defaultUseSsl);
      r.Pool? ==> forall i :: 0 <= i < |servers| ==>
        ParseServer(servers[i], defaultUseSsl) == Parsed(r.endpoints[i])
  {
    if servers != [] && ParseServer(servers[0], defaultUseSsl).Parsed? {
      ParseAllPool(servers[1..], defaultUseSsl);
      var r := ParseAll(servers, defaultUseSsl);
      if r.Pool? {
        forall i | 0 <= i < |servers|
          ensures ParseServer(servers[i], defaultUseSsl) == Parsed(r.endpoints[i])
        {
          if i > 0 {
            assert servers[i] == servers[1..][i - 1];
          }
        }
      }
    }
  }

  /** An error names the first server string that does not parse. */
  lemma {:induction false} ParseAllError(servers: seq<string>, defaultUseSsl: bool)
    ensures var r := ParseAll(servers, defaultUseSsl);
      r.PoolError? ==> exists i :: (0 <= i < |servers| &&
        r.error == MalformedServer(servers[i]) &&
        ParseServer(servers[i], defaultUseSsl) == Malformed &&
        forall j :: 0 <= j < i ==> ParseServer(servers[j], defaultUseSsl).Parsed?)
  {
    var r := ParseAll(servers, defaultUseSsl);
    if servers != [] && r.PoolError? {
      if ParseServer(servers[0], defaultUseSsl).Malformed? {
        assert r.error == MalformedServer(servers[0]);
      } else {
        ParseAllError(servers[1..], defaultUseSsl);
        var rest := servers[1..];
        var i :| 0 <= i < |rest| && r.error == MalformedServer(rest[i]) &&
                 ParseServer(rest[i], defaultUseSsl) == Malformed &&
                 forall j :: 0 <= j < i ==> ParseServer(rest[j], defaultUseSsl).Parsed?;
        forall j | 0 <= j < i + 1 ensures ParseServer(servers[j], defaultUseSsl).Parsed? {
          if j > 0 {
            assert servers[j] == rest[j - 1];
          }
        }
        assert servers[i + 1] == rest[i];
      }
    }
  }

  /** When every server string parses, the pool is their endpoints in
      the configured order. */
  lemma {:induction false} ParseAllParsed(servers: seq<string>, defaultUseSsl: bool, pool: seq<Endpoint>)
    requires |servers| == |pool|
    requires forall i :: 0 <= i < |servers| ==> ParseServer(servers[i], defaultUseSsl) == Parsed(pool[i])
    ensures ParseAll(servers, defaultUseSsl) == Pool(pool)
  {
    if servers != [] {
      ParseAllParsed(servers[1..], defaultUseSsl, pool[1..]);
      assert [pool[0]] + pool[1..] == pool;
    }
  }

  /** The endpoint pool of a configuration: never empty when it parses. */
  function ApiServers(cfg: StoreConfig): (r: PoolResult)
    ensures r.Pool? ==> |r.endpoints| == |ServerStrings(cfg)| > 0
  {
    ParseAll(ServerStrings(cfg), cfg.defaultUseSsl)
  }

  /** With no server list configured, the pool is exactly the configured
      host and port with the default TLS flag. */
  lemma DefaultPool(cfg: StoreConfig)
    requires cfg.apiServers == []
    requires cfg.host != [] && ':' !in cfg.host
    ensures ApiServers(cfg) == Pool([Endpoint(cfg.host, cfg.port, cfg.defaultUseSsl)])
  {
    var server := FormatServer(None, cfg.host, cfg.port);
    FormatParseRoundTrip(None, cfg.host, cfg.port, cfg.defaultUseSsl);
    assert ServerStrings(cfg) == [server];
    assert ParseAll([server][1..], cfg.defaultUseSsl) == Pool([]);
  }

  /** `perm` reorders the indices 0..n-1: each in range, no two equal. */
  predicate IsPermutation(perm: seq<nat>, n: nat) {
    && |perm| == n
    && (forall i :: 0 <= i < n ==> perm[i] < n)
    && (forall i, j :: 0 <= i < j < n ==> perm[i] != perm[j])
  }

  /** The pool in shuffled order; `perm` stands for what `random.shuffle`
      chose. */
  function Shuffle(pool: seq<Endpoint>, perm: seq<nat>): (r: seq<Endpoint>)
    requires IsPermutation(perm, |pool|)
    ensures |r| == |pool|
    ensures forall i :: 0 <= i < |r| ==> r[i] == pool[perm[i]]
  {
    seq(|pool|, i requires 0 <= i < |pool| => pool[perm[i]])
  }

  function IndexSet(n: nat): (r: set<nat>)
    ensures forall j: nat :: j in r <==> j < n
  {
    if n == 0 then {} else IndexSet(n - 1) + {n - 1}
  }

  function ImageSet(perm: seq<nat>, k: nat): set<nat>
    requires k <= |perm|
  {
    set i | 0 <= i < k :: perm[i]
  }

  lemma {:induction false} IndexSetSize(n: nat)
    ensures |IndexSet(n)| == n
  {
    if n > 0 {
      IndexSetSize(n - 1);
    }
  }

  lemma {:induction false} ImageSetSize(perm: seq<nat>, n: nat, k: nat)
    requires IsPermutation(perm, n) && k <= n
    ensures |ImageSet(perm, k)| == k
  {
    if k > 0 {
      ImageSetSize(perm, n, k - 1);
      assert ImageSet(perm, k) == ImageSet(perm, k - 1) + {perm[k - 1]};
      assert perm[k - 1] !in ImageSet(perm, k - 1);
    }
  }

  /** A permutation hits every index: the shuffle loses no endpoint. */
  lemma PermutationCovers(perm: seq<nat>, n: nat, j: nat)
    requires IsPermutation(perm, n) && j < n
    ensures exists i :: 0 <= i < n && perm[i] == j
  {
    var img, all := ImageSet(perm, n), IndexSet(n);
    assert img <= all;
    ImageSetSize(perm, n, n);
    IndexSetSize(n);
    assert |all - img| == |all| - |img| == 0;
    assert all - img == {};
    assert j in all;
    assert j in img;
  }

  /** Every configured endpoint appears in the shuffled order. */
  lemma ShuffleKeepsAll(pool: seq<Endpoint>, perm: seq<nat>, j: nat)
    requires IsPermutation(perm, |pool|) && j < |pool|
    ensures pool[j] in Shuffle(pool, perm)
  {
    PermutationCovers(perm, |pool|, j);
    var i :| 0 <= i < |pool| && perm[i] == j;
    assert Shuffle(pool, perm)[i] == pool[j];
  }

  /** A shuffle that leaves every position in place is a permutation and
      keeps the pool as configured. */
  lemma ShuffleIdentity(pool: seq<Endpoint>, perm: seq<nat>)
    requires |perm| == |pool|
    requires forall i :: 0 <= i < |perm| ==> perm[i] == i
    ensures IsPermutation(perm, |pool|) && Shuffle(pool, perm) == pool
  {
  }

  /** Attempts fewer than a pool's length apart use different positions of
      the shuffled pool, so within one pass no endpoint is tried twice. */
  lemma NoRepeatWithinPass(perm: seq<nat>, n: nat, k1: nat, k2: nat)
    requires IsPermutation(perm, n) && n > 0
    requires k1 < k2 < k1 + n
    ensures perm[k1 % n] != perm[k2 % n]
  {
    var q, r, d := k1 / n, k1 % n, k2 - k1;
    if r + d < n {
      DivMod(k2, n, q, r + d);
    } else {
      DivMod(k2, n, q + 1, r + d - n);
    }
  }

  /** Stepping the cycle's cursor from position k % n lands on (k + 1) % n. */
  lemma NextIndex(k: nat, n: nat)
    requires n > 0
    ensures (if k % n + 1 == n then 0 else k % n + 1) == (k + 1) % n
  {
    var q, r := k / n, k % n;
    if r + 1 == n {
      DivMod(k + 1, n, q + 1, 0);
    } else {
      DivMod(k + 1, n, q, r + 1);
    }
  }

  /** Division with remainder is unique. */
  lemma DivMod(k: nat, n: nat, q: int, r: int)
    requires n > 0 && 0 <= r < n && k == q * n + r
    ensures k % n == r
  {
    var t := q - k / n;
    assert k == (k / n) * n + k % n;
    assert q * n - (k / n) * n == t * n;
    assert t * n == k % n - r;
    assert -(n as int) < t * n < n;
  }

  /** The endless round-robin over the shuffled pool: the iterator that
      hands each retry attempt its endpoint. */
  class ServerCycle {
    const order: seq<Endpoint>
    var cursor: nat

    ghost predicate Valid()
      reads this
    {
      |order| > 0 && cursor < |order|
    }

    constructor (order: seq<Endpoint>)
      requires |order| > 0
      ensures Valid() && this.order == order && cursor == 0
    {
      this.order := order;
      cursor := 0;
    }

    /** Hands out the endpoint under the cursor and moves on, wrapping
        round at the end of the order. */
    method Next() returns (e: Endpoint)
      requires Valid()
      modifies this
      ensures Valid()
      ensures e == order[old(cursor)]
      ensures cursor == if old(cursor) + 1 == |order| then 0 else old(cursor) + 1
    {
      e := order[cursor];
      cursor := if cursor + 1 == |order| then 0 else cursor + 1;
    }
  }
}
