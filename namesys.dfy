/** The multi-protocol name system of namesys/namesys.go ("mpns").

    The three backing resolvers, the record publisher and the foreign library calls
    (multihash and domain recognition, path parsing, identity derivation and encoding) are
    oracles: function-valued fields fixed when the name system is built. The clock is a
    `now` parameter, in nanoseconds, read once per call. */
module NameSystem {
  import opened Types
  import opened GoStrings
  import opened Base
  import opened ResolverCache

  /** The mutable-name namespace. */
  const Dms3nsPrefix: string := "/dms3ns/"

  /** DefaultResolverCacheTTL = time.Minute. */
  const DefaultResolverCacheTTL: int := 60 * 1_000_000_000

  /** The publisher's default record lifetime (24 hours); it is declared next to the publisher,
      which is not part of this model. */
  const DefaultRecordTTL: int := 24 * 60 * 60 * 1_000_000_000

  type PrivKey = seq<bv8>
  type PeerId = seq<bv8>

  /** Foreign library calls, as uninterpreted functions. */
  datatype Library = Library(
    isMultihash: string -> bool,                         // mh.FromB58String(key) succeeds
    isDomain: string -> bool,                            // isd.IsDomain(key)
    parsePath: string -> (string, Option<Error>),        // path.ParsePath
    idFromPrivateKey: PrivKey -> (PeerId, Option<Error>),  // peer.IDFromPrivateKey
    idB58Encode: PeerId -> string)                       // peer.IDB58Encode

  /** The single-hop resolvers the name system dispatches to. */
  datatype Resolvers = Resolvers(dms3ns: string -> Hop, dns: string -> Hop, proquint: string -> Hop)

  datatype Backend = Dms3nsResolver | DnsResolver | ProquintResolver

  /** Resolver selection: a multihash goes to the routing-backed resolver, even when it also
      looks like a domain; otherwise a domain goes to DNS; anything else to proquint. */
  function Select(lib: Library, key: string): (b: Backend)
    ensures b == Dms3nsResolver <==> lib.isMultihash(key)
    ensures b == DnsResolver <==> !lib.isMultihash(key) && lib.isDomain(key)
    ensures b == ProquintResolver <==> !lib.isMultihash(key) && !lib.isDomain(key)
  {
    if lib.isMultihash(key) then Dms3nsResolver
    else if lib.isDomain(key) then DnsResolver
    else ProquintResolver
  }

  function Pick(rs: Resolvers, b: Backend): string -> Hop {
    match b
    case Dms3nsResolver => rs.dms3ns
    case DnsResolver => rs.dns
    case ProquintResolver => rs.proquint
  }

  /** path.FromSegments(prefix, segs...): the segments joined by "/" after the prefix, parsed. */
  function FromSegments(lib: Library, prefix: string, segs: seq<string>): (string, Option<Error>) {
    lib.parsePath(prefix + Join(segs, '/'))
  }

  /** A name outside the mutable-name namespace is moved into it. */
  function Normalise(name: string): (n: string)
    ensures HasPrefix(n, Dms3nsPrefix)
    ensures HasPrefix(name, Dms3nsPrefix) ==> n == name
    ensures !HasPrefix(name, Dms3nsPrefix) ==> n == Dms3nsPrefix + name
  {
    if HasPrefix(name, Dms3nsPrefix) then name
    else
      PrefixOfConcat(Dms3nsPrefix, name);
      Dms3nsPrefix + name
  }

  /** A character that does not occur in a prefix leaves the search to the rest. */
  lemma {:induction false} IndexOfAfter(p: string, q: string, c: char)
    requires c !in p
    ensures IndexOf(p + q, c) == if IndexOf(q, c) < 0 then -1 else |p| + IndexOf(q, c)
  {
    if p != [] {
      assert (p + q)[0] == p[0] != c;
      assert (p + q)[1..] == p[1..] + q;
      IndexOfAfter(p[1..], q, c);
    } else {
      assert p + q == q;
    }
  }

  /** The first two cuts of strings.SplitN(name, "/", 4) on a name in the mutable-name
      namespace: an empty part before the leading "/", then "dms3ns". */
  lemma SplitNormalised(rest: string)
    ensures SplitN(Dms3nsPrefix + rest, '/', 4) == ["", "dms3ns"] + SplitN(rest, '/', 2)
  {
    var s := Dms3nsPrefix + rest;
    assert s[0] == '/';
    assert IndexOf(s, '/') == 0;
    assert s[1..] == "dms3ns" + ("/" + rest);
    IndexOfAfter("dms3ns", "/" + rest, '/');
    assert IndexOf("/" + rest, '/') == 0;
    assert s[1..][..6] == "dms3ns";
    assert s[1..][7..] == rest;
  }

  /** strings.SplitN(rest, "/", 2): the part before the first "/" and, when there is one,
      everything after it. */
  lemma SplitOnce(rest: string)
    ensures var parts := SplitN(rest, '/', 2);
      && '/' !in parts[0]
      && (|parts| == 2 <==> '/' in rest)
      && rest == parts[0] + (if |parts| == 2 then "/" + parts[1] else "")
  {
    var parts := SplitN(rest, '/', 2);
    if |parts| == 2 {
      assert parts[1..] == [parts[1]];
      assert rest == parts[0] + "/" + parts[1];
      assert rest[|parts[0]|] == '/';
    }
  }

  /** strings.SplitN(name, "/", 4) on a name in the mutable-name namespace: an empty part,
      "dms3ns", the key (which holds no "/") and, exactly when the rest holds a "/", the
      sub-path after it; key and sub-path give back the rest. */
  lemma NormalisedSplit(rest: string)
    ensures var segs := SplitN(Dms3nsPrefix + rest, '/', 4);
      && 3 <= |segs| <= 4 && segs[0] == "" && segs[1] == "dms3ns" && '/' !in segs[2]
      && (|segs| == 4 <==> '/' in rest)
      && rest == segs[2] + (if |segs| == 4 then "/" + segs[3] else "")
  {
    SplitNormalised(rest);
    SplitOnce(rest);
    var parts := SplitN(rest, '/', 2);
    var segs := SplitN(Dms3nsPrefix + rest, '/', 4);
    assert |segs| == |parts| + 2 && segs[2] == parts[0];
    if |segs| == 4 {
      assert segs[3] == parts[1];
    }
  }

  /** The segments resolveOnce splits a name into. There are always three or four and the
      first is empty, so the invalid-syntax branch of resolveOnce is never taken. The key holds
      no "/"; after the namespace, the normalised name is the key followed, when there is a
      fourth segment, by "/" and that segment. */
  function Segments(name: string): (segs: seq<string>)
    ensures 3 <= |segs| <= 4 && segs[0] == "" && segs[1] == "dms3ns" && '/' !in segs[2]
    ensures |segs| == 4 <==> '/' in TrimPrefix(Normalise(name), Dms3nsPrefix)
    ensures TrimPrefix(Normalise(name), Dms3nsPrefix) == segs[2] + (if |segs| == 4 then "/" + segs[3] else "")
  {
    var rest := TrimPrefix(Normalise(name), Dms3nsPrefix);
    NormalisedSplit(rest);
    assert Normalise(name) == Dms3nsPrefix + rest;
    SplitN(Normalise(name), '/', 4)
  }

  /** The key resolveOnce looks up: the first segment after the namespace. */
  function Key(name: string): string {
    Segments(name)[2]
  }

  /** The resolved path, with the name's sub-path (its fourth segment) re-appended. */
  function WithSubPath(lib: Library, p: string, segments: seq<string>): (h: Hop)
    ensures h.ttl == 0
    ensures |segments| <= 3 ==> h == Hop(p, 0, None)
    ensures |segments| > 3 ==> (h.value, h.err) == lib.parsePath(TrimRight(p, '/') + "/" + segments[3])
  {
    if |segments| > 3 then
      var segs := [TrimRight(p, '/'), segments[3]];
      assert segs[1..] == [segments[3]];
      assert Join(segs, '/') == TrimRight(p, '/') + "/" + segments[3];
      assert "" + Join(segs, '/') == Join(segs, '/');
      var q := FromSegments(lib, "", segs);
      Hop(q.0, 0, q.1)
    else Hop(p, 0, None)
  }

  /** A cache miss: the selected resolver is asked; a failure becomes ErrResolveFailed and
      writes nothing, a success is cached under the key with the resolver's TTL. These are
      stated as lemmas about ResolveOnceStep: ResolverFailure and ResolverSuccess. */
  function Miss(lib: Library, rs: Resolvers, c: Cache, key: string, segments: seq<string>, now: int): (r: (Hop, Cache))
    ensures r.0.ttl == 0
  {
    var h := Pick(rs, Select(lib, key))(key);
    if h.err.Some? then (Hop("", 0, Some(ResolveFailed)), c)
    else (WithSubPath(lib, h.value, segments), Set(c, key, h.value, h.ttl, now))
  }

  /** mpns.resolveOnce as a function of the cache: the hop it returns and the cache after it.
      The TTL it reports is always 0. */
  function ResolveOnceStep(lib: Library, rs: Resolvers, c: Cache, name: string, now: int): (r: (Hop, Cache))
    ensures r.0.ttl == 0
  {
    var segments := SplitN(Normalise(name), '/', 4);
    if |segments| < 3 || segments[0] != "" then (Hop("", 0, Some(ResolveFailed)), c)
    else
      var key := segments[2];
      var got := Get(c, key, now);
      if got.0.Some? then (WithSubPath(lib, got.0.value, segments), got.1)
      else Miss(lib, rs, got.1, key, segments, now)
  }

  /** The name system as the single-hop resolver of the recursive loop. */
  function HopFunction(lib: Library, rs: Resolvers, now: int): (Cache, string) -> (Hop, Cache) {
    (c: Cache, n: string) => ResolveOnceStep(lib, rs, c, n, now)
  }

  /** resolveOnce never fails on syntax: it either serves a fresh cache entry under the name's
      key or takes the miss path for that key. */
  lemma ResolveOnceDispatch(lib: Library, rs: Resolvers, c: Cache, name: string, now: int)
    ensures ResolveOnceStep(lib, rs, c, name, now) ==
      if Fresh(c, Key(name), now) then (WithSubPath(lib, c.entries[Key(name)].val, Segments(name)), c)
      else Miss(lib, rs, Get(c, Key(name), now).1, Key(name), Segments(name), now)
  {
    var rest := TrimPrefix(Normalise(name), Dms3nsPrefix);
    assert Normalise(name) == Dms3nsPrefix + rest;
    assert SplitN(Normalise(name), '/', 4) == Segments(name);
  }

  /** On a cache hit no resolver is consulted: the result is the same whatever the resolvers. */
  lemma CacheHitSkipsResolvers(lib: Library, rs1: Resolvers, rs2: Resolvers, c: Cache, name: string, now: int)
    requires Fresh(c, Key(name), now)
    ensures ResolveOnceStep(lib, rs1, c, name, now) == ResolveOnceStep(lib, rs2, c, name, now)
    ensures ResolveOnceStep(lib, rs1, c, name, now).1 == c
  {
    ResolveOnceDispatch(lib, rs1, c, name, now);
    ResolveOnceDispatch(lib, rs2, c, name, now);
  }

  /** On a miss exactly one resolver is consulted: two resolver sets that agree on the
      selected resolver's answer for the key give the same result. */
  lemma MissConsultsSelectedOnly(lib: Library, rs1: Resolvers, rs2: Resolvers, c: Cache, name: string, now: int)
    requires !Fresh(c, Key(name), now)
    requires Pick(rs1, Select(lib, Key(name)))(Key(name)) == Pick(rs2, Select(lib, Key(name)))(Key(name))
    ensures ResolveOnceStep(lib, rs1, c, name, now) == ResolveOnceStep(lib, rs2, c, name, now)
  {
    ResolveOnceDispatch(lib, rs1, c, name, now);
    ResolveOnceDispatch(lib, rs2, c, name, now);
  }

  /** A failing resolver gives ("", 0, ErrResolveFailed) and writes no cache entry
      (only a stale entry for the key is dropped by the lookup). */
  lemma ResolverFailure(lib: Library, rs: Resolvers, c: Cache, name: string, now: int)
    requires !Fresh(c, Key(name), now)
    requires Pick(rs, Select(lib, Key(name)))(Key(name)).err.Some?
    ensures ResolveOnceStep(lib, rs, c, name, now) == (Hop("", 0, Some(ResolveFailed)), Get(c, Key(name), now).1)
    ensures !Fresh(ResolveOnceStep(lib, rs, c, name, now).1, Key(name), now)
  {
    ResolveOnceDispatch(lib, rs, c, name, now);
  }

  /** A succeeding resolver's path is cached under the key with the resolver's TTL, and
      returned with the name's sub-path re-appended. */
  lemma ResolverSuccess(lib: Library, rs: Resolvers, c: Cache, name: string, now: int)
    requires !Fresh(c, Key(name), now)
    requires Pick(rs, Select(lib, Key(name)))(Key(name)).err.None?
    ensures var h := Pick(rs, Select(lib, Key(name)))(Key(name));
      ResolveOnceStep(lib, rs, c, name, now) ==
        (WithSubPath(lib, h.value, Segments(name)), Set(Get(c, Key(name), now).1, Key(name), h.value, h.ttl, now))
  {
    ResolveOnceDispatch(lib, rs, c, name, now);
  }

  /** After a resolver answered with TTL t > 0, the same name is answered from the cache,
      identically and whatever the resolvers say, until t has elapsed; after that the
      resolvers are consulted again. */
  lemma RepeatWithinTtl(lib: Library, rs: Resolvers, rs2: Resolvers, c: Cache, name: string, now: int, later: int)
    requires c.Enabled? && !Fresh(c, Key(name), now)
    requires Pick(rs, Select(lib, Key(name)))(Key(name)).err.None?
    requires Pick(rs, Select(lib, Key(name)))(Key(name)).ttl > 0
    ensures var r := ResolveOnceStep(lib, rs, c, name, now);
      var h := Pick(rs, Select(lib, Key(name)))(Key(name));
      && (later < now + h.ttl ==> ResolveOnceStep(lib, rs2, r.1, name, later) == r)
      && (later >= now + h.ttl ==>
            ResolveOnceStep(lib, rs2, r.1, name, later) ==
              Miss(lib, rs2, Get(r.1, Key(name), later).1, Key(name), Segments(name), later))
  {
    var h := Pick(rs, Select(lib, Key(name)))(Key(name));
    ResolverSuccess(lib, rs, c, name, now);
    var r := ResolveOnceStep(lib, rs, c, name, now);
    SetThenGet(Get(c, Key(name), now).1, Key(name), h.value, h.ttl, now, later);
    ResolveOnceDispatch(lib, rs2, r.1, name, later);
  }

  /** The TTL PublishWithEOL caches a published value with: the smaller of
      DefaultResolverCacheTTL and the time left until the record's EOL (possibly <= 0). */
  function CacheTTL(eol: int, now: int): (ttl: int)
    ensures ttl <= DefaultResolverCacheTTL && ttl <= eol - now
    ensures ttl == DefaultResolverCacheTTL || ttl == eol - now
  {
    if eol - now < DefaultResolverCacheTTL then eol - now else DefaultResolverCacheTTL
  }

  /** A published value is served from an enabled cache until the earlier of one cache TTL
      after publishing and the record's EOL; a record already past its EOL writes nothing. */
  lemma PublishedEntryLifetime(c: Cache, id: string, v: string, eol: int, now: int, later: int)
    requires c.Enabled?
    ensures now < eol ==>
      Get(Set(c, id, v, CacheTTL(eol, now), now), id, later).0 ==
        if later < now + DefaultResolverCacheTTL && later < eol then Some(v) else None
    ensures eol <= now ==> Set(c, id, v, CacheTTL(eol, now), now) == c
  {
    if now < eol {
      SetThenGet(c, id, v, CacheTTL(eol, now), now, later);
    }
  }

  /** Publish round trip: right after a value in the content-addressed namespace is published
      under an identity, resolving that identity's name takes one hop, answered from the cache,
      and returns the value with no error. */
  lemma PublishThenResolve(lib: Library, rs: Resolvers, c: Cache, id: string, v: string, eol: int, now: int,
                           later: int, depth: int, fuel: nat)
    requires c.Enabled? && '/' !in id && HasPrefix(v, Dms3fsPrefix) && fuel >= 1
    requires now < eol && later < eol && later < now + DefaultResolverCacheTTL
    ensures var c1 := Set(c, id, v, CacheTTL(eol, now), now);
      var t := Run(HopFunction(lib, rs, later), c1, Dms3nsPrefix + id, depth, [Dms3nsPrefix], fuel);
      t.outcome == Returned(v, None) && |t.hops| == 1 && t.state == c1
  {
    var c1 := Set(c, id, v, CacheTTL(eol, now), now);
    var name := Dms3nsPrefix + id;
    PrefixOfConcat(Dms3nsPrefix, id);
    var segs := Segments(name);
    assert TrimPrefix(Normalise(name), Dms3nsPrefix) == id;
    assert |segs| == 3;
    assert Key(name) == id;
    PublishedEntryLifetime(c, id, v, eol, now, later);
    ResolveOnceDispatch(lib, rs, c1, name, later);
    assert HopFunction(lib, rs, later)(c1, name) == (Hop(v, 0, None), c1);
  }

  /** mpns: the name system object, whose resolution cache is updated in place. */
  class Mpns {
    const lib: Library
    const resolvers: Resolvers
    const publisher: (PrivKey, string, int) -> Option<Error>   // the routing publisher's PublishWithEOL
    var cache: Cache

    /** NewNameSystem: a cache only when cachesize > 0. */
    constructor (lib: Library, resolvers: Resolvers, publisher: (PrivKey, string, int) -> Option<Error>, cachesize: int)
      ensures this.lib == lib && this.resolvers == resolvers && this.publisher == publisher
      ensures cache == New(cachesize)
    {
      this.lib := lib;
      this.resolvers := resolvers;
      this.publisher := publisher;
      cache := New(cachesize);
    }

    /** cacheGet */
    method CacheGet(key: string, now: int) returns (p: string, ok: bool)
      modifies this
      ensures var r := Get(old(cache), key, now);
        ok == r.0.Some? && (ok ==> p == r.0.value) && cache == r.1
    {
      var r := Get(cache, key, now);
      cache := r.1;
      if r.0.Some? {
        return r.0.value, true;
      }
      return "", false;
    }

    /** cacheSet */
    method CacheSet(key: string, p: string, ttl: int, now: int)
      modifies this
      ensures cache == Set(old(cache), key, p, ttl, now)
    {
      cache := Set(cache, key, p, ttl, now);
    }

    /** resolveOnce(name): one hop through the cache or the selected resolver. */
    method ResolveOnce(name0: string, now: int) returns (h: Hop)
      modifies this
      ensures (h, cache) == ResolveOnceStep(lib, resolvers, old(cache), name0, now)
      ensures h.ttl == 0
    {
      var name := name0;
      if !HasPrefix(name, Dms3nsPrefix) {
        name := Dms3nsPrefix + name;
      }
      var segments := SplitN(name, '/', 4);
      if |segments| < 3 || segments[0] != "" {
        return Hop("", 0, Some(ResolveFailed));
      }
      var key := segments[2];
      var p, ok := CacheGet(key, now);
      var err: Option<Error> := None;
      if !ok {
        var res := Pick(resolvers, Select(lib, key));
        var r := res(key);
        if r.err.Some? {
          return Hop("", 0, Some(ResolveFailed));
        }
        p := r.value;
        CacheSet(key, p, r.ttl, now);
      }
      if |segments| > 3 {
        var q := FromSegments(lib, "", [TrimRight(p, '/'), segments[3]]);
        p, err := q.0, q.1;
      }
      return Hop(p, 0, err);
    }

    /** Resolve(name, depth): a content-addressed name is parsed and returned, a name with no
      leading "/" is parsed after the content-addressed prefix (neither touches the cache or a
      resolver); any other name goes through the recursive loop, with this name system as the
      single-hop resolver and the mutable-name namespace as the only recursable prefix. */
    method Resolve(name: string, depth: int, now: int, fuel: nat) returns (res: Outcome)
      modifies this
      ensures HasPrefix(name, Dms3fsPrefix) ==>
        res == Returned(lib.parsePath(name).0, lib.parsePath(name).1) && cache == old(cache)
      ensures !HasPrefix(name, "/") ==>
        res == Returned(lib.parsePath(Dms3fsPrefix + name).0, lib.parsePath(Dms3fsPrefix + name).1)
        && cache == old(cache)
      ensures HasPrefix(name, "/") && !HasPrefix(name, Dms3fsPrefix) ==>
        var t := Run(HopFunction(lib, resolvers, now), old(cache), name, depth, [Dms3nsPrefix], fuel);
        res == t.outcome && cache == t.state
      ensures depth >= 1 && fuel >= depth ==> res.Returned?
    {
      if HasPrefix(name, Dms3fsPrefix) {
        var q := lib.parsePath(name);
        return Returned(q.0, q.1);
      }
      if !HasPrefix(name, "/") {
        var q := lib.parsePath(Dms3fsPrefix + name);
        return Returned(q.0, q.1);
      }
      var out, c, calls := Base.Resolve(HopFunction(lib, resolvers, now), cache, name, depth, [Dms3nsPrefix], fuel);
      cache := c;
      res := out;
    }

    /** What publishing does: an identity error is returned first, then a publisher error,
        neither touching the cache; on success the value is cached under the encoded identity
        for CacheTTL(eol, now). */
    ghost predicate PublishEffect(c0: Cache, c1: Cache, err: Option<Error>, k: PrivKey, value: string, eol: int, now: int) {
      var id := lib.idFromPrivateKey(k);
      if id.1.Some? then err == id.1 && c1 == c0
      else if publisher(k, value, eol).Some? then err == publisher(k, value, eol) && c1 == c0
      else err.None? && c1 == Set(c0, lib.idB58Encode(id.0), value, CacheTTL(eol, now), now)
    }

    /** PublishWithEOL */
    method PublishWithEOL(k: PrivKey, value: string, eol: int, now: int) returns (err: Option<Error>)
      modifies this
      ensures PublishEffect(old(cache), cache, err, k, value, eol, now)
    {
      var id := lib.idFromPrivateKey(k);
      if id.1.Some? {
        return id.1;
      }
      var perr := publisher(k, value, eol);
      if perr.Some? {
        return perr;
      }
      var ttl := DefaultResolverCacheTTL;
      var ttEol := eol - now;
      if ttEol < ttl {
        ttl := ttEol;
      }
      CacheSet(lib.idB58Encode(id.0), value, ttl, now);
      return None;
    }

    /** Publish: PublishWithEOL with an EOL one default record lifetime from now. */
    method Publish(k: PrivKey, value: string, now: int) returns (err: Option<Error>)
      modifies this
      ensures PublishEffect(old(cache), cache, err, k, value, now + DefaultRecordTTL, now)
    {
      err := PublishWithEOL(k, value, now + DefaultRecordTTL, now);
    }
  }
}
