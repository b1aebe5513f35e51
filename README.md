# A verified model of the namesys name-resolution core

This project models the naming layer of a content-addressed storage network. The layer
maps names in the mutable-name namespace `/dms3ns/` to paths in the content-addressed
namespace `/dms3fs/`. Two parts are modelled:

- **The recursive resolution loop** (`resolve` in `namesys/base.go`). It calls a single-hop
  resolver again and again. It stops on a content-addressed path, on an error, when the depth
  limit is reached, or on a path that no recursable prefix matches.
- **The multi-protocol name system** (`mpns` in `namesys/namesys.go`). It has three jobs:
  - its `Resolve` short-circuits content-addressed and bare names and hands every other
    name to the loop;
  - its `resolveOnce` normalises a name, splits it, and either serves the key from the
    resolution cache or picks exactly one backing resolver (routing, DNS or proquint);
  - its `Publish`/`PublishWithEOL` delegate the signed write and then cache the published
    value for `min(DefaultResolverCacheTTL, eol - now)`.

Files and modules:

- `types.dfy` (`Types`): `Option` and the errors: `ResolveFailed`, `ResolveRecursion`, and
  `External` for any collaborator's error.
- `strings.dfy` (`GoStrings`): the Go `strings` functions the core uses (`HasPrefix`,
  `TrimPrefix`, `TrimRight`, `SplitN`, `Join`), with contracts.
- `base.dfy` (`Base`): the loop.
  - `Run` is the specification function. It records, for each hop, the name that was asked,
    the depth counter at that moment, and what the hop returned.
  - `Resolve` is the imperative loop, including the inner loop over the prefixes, proved
    equal to `Run`.
  - A single-hop resolver is a state transformer `(S, string) -> (Hop, S)`, so a resolver
    that updates a cache fits.
- `cache.dfy` (`ResolverCache`): the cache value held in the name system's `cache` field:
  `Disabled` (Go's nil cache) or a map from key to (path, expiry).
- `namesys.dfy` (`NameSystem`): key classification, `ResolveOnceStep` (`resolveOnce` as a
  function of the cache), and the class `Mpns`.
  - `Mpns` has a mutable `cache` field.
  - Its methods are `ResolveOnce`, `Resolve`, `Publish`, `PublishWithEOL` and the cache calls.
  - The backing resolvers, the publisher and the foreign library calls are function-valued
    `const` fields.

A name with no leading `/` is parsed as `"/dms3fs/" + name` (namesys/namesys.go:60-62); it
is not treated as a `/dms3ns/` key.

Times and durations are integers in nanoseconds. `time.Now()` becomes a `now` parameter of
each operation.

## Model

| member | source | states |
|---|---|---|
| `Base.Resolve` | namesys/base.go:19-56 | The loop returns exactly `Run`'s outcome and resolver state, and calls `resolveOnce` as many times as `Run` has hops. With depth d >= 1 it makes at most d calls and, given d units of fuel, always returns. |
| `Base.Run` | namesys/base.go:19-56 | The loop as a function. The trace holds one name, one depth and one hop result per call. The first call gets the starting name and depth. Running out of fuel means every unit of fuel was spent on a hop. |
| `Base.Decide` | namesys/base.go:23-54 | One iteration goes on exactly when the hop had no error, is not under `/dms3fs/`, the depth counter is not 1, and some prefix matches. |
| `Base.HopBound` | namesys/base.go:20-54 | With `Depth = d >= 1`, `resolveOnce` is called at most d times, and d hops of fuel are enough for the loop to return. |
| `Base.DepthAtHop` | namesys/base.go:52-54 | At hop i the depth counter is `d - i` when `d >= 1`. A depth `<= 0` is never modified. |
| `Base.ContinuingHops` | namesys/base.go:37-54 | Every hop except the last had no error, was not content-addressed, saw a depth counter other than 1, and matched a prefix. The next name is the result with the single prefix trimmed, or is unchanged when several prefixes were given. The next depth is decremented only while it is above 1. |
| `Base.LastHop` | namesys/base.go:22-50 | The last hop decides the result. An error gives `("", err)`. A `/dms3fs/` path is returned with no error whatever the depth. Otherwise a depth counter of 1 gives the path with `ErrResolveRecursion`. Otherwise the path matched no prefix and is returned unchanged with no error. A run out of fuel continued after every hop. |
| `Base.ErrorAborts` | namesys/base.go:22-25 | An error on any hop comes from the last hop. The call then returns the empty path and that same error, with no partial result. |
| `Base.ContentPathEnds` | namesys/base.go:28-31 | A `/dms3fs/` path on any hop is the last hop. It is returned with a nil error. |
| `Base.SeveralPrefixesKeepName` | namesys/base.go:38-46 | With two or more prefixes, a match never changes `name`: every hop asks for the starting name. |
| `Base.TtlDiscarded` | namesys/base.go:22 | Two resolvers that differ only in the TTLs they report give the same outcome, final state, names and depths. |
| `GoStrings.TrimPrefix` | namesys/base.go:42 | If `s` starts with the prefix, the prefix followed by the result gives back `s`. Otherwise the result is `s`. |
| `GoStrings.TrimRight` | namesys/namesys.go:105 | The result is `s` cut at some position. It does not end in the cut character, and everything removed was that character. |
| `GoStrings.SplitN` | namesys/namesys.go:72 | Between 1 and n parts. No part but the last holds the separator, and the last holds none when there are fewer than n parts. Joining the parts with the separator gives back the input. |
| `ResolverCache.New` | namesys/namesys.go:38-41 | A cache exists, empty, exactly when `cachesize > 0`. Otherwise it is absent. |
| `ResolverCache.Get` | namesys/namesys.go:80 | A lookup hits exactly when an entry exists and `now` is before its expiry, and then it returns the cached path. A stale entry is removed. Nothing else changes. |
| `ResolverCache.Set` | namesys/namesys.go:101 | A TTL `<= 0`, or an absent cache, leaves the cache unchanged. Otherwise the key maps to the path with expiry `now + ttl`. |
| `ResolverCache.SetThenGet` | namesys/namesys.go:80-101 | A value written with TTL t > 0 is served until `now + t` and not after. |
| `ResolverCache.SetKeepsOtherKeys` | namesys/namesys.go:101 | A write under one key leaves every other key's lookup as it was. |
| `NameSystem.Select` | namesys/namesys.go:83-94 | Exactly one resolver is chosen. A multihash key goes to the routing resolver even if it is also a domain. Otherwise a domain goes to DNS. Otherwise proquint. |
| `NameSystem.Normalise` | namesys/namesys.go:69-71 | The normalised name is in the `/dms3ns/` namespace. A name already there is unchanged; any other name becomes `"/dms3ns/" + name`. |
| `NameSystem.NormalisedSplit` | namesys/namesys.go:72-78 | `SplitN("/dms3ns/" + rest, "/", 4)` has 3 or 4 parts: an empty part, then `dms3ns`, then the key. The invalid-syntax branch is therefore unreachable. The key (part 2) holds no `/`. A fourth part exists exactly when `rest` holds a `/`. Key and fourth part give back `rest`. |
| `NameSystem.Segments` | namesys/namesys.go:69-78 | For any name, the segments of its normalised form have that shape: an empty part, `dms3ns`, then a key without `/`. After `/dms3ns/`, the normalised name is the key followed, when there is a fourth segment, by `/` and that segment. |
| `NameSystem.WithSubPath` | namesys/namesys.go:104-107 | With a fourth segment, the result is the parse of the resolved path with trailing `/` trimmed, then `/`, then the segment. Without one, the result is the resolved path with no error. The TTL is 0. |
| `NameSystem.ResolveOnceStep` | namesys/namesys.go:68-108 | `resolveOnce` reports TTL 0 on every exit. |
| `NameSystem.ResolveOnceDispatch` | namesys/namesys.go:72-107 | `resolveOnce` never fails on syntax. It serves a fresh cache entry under the name's key, or else takes the miss path for that key. |
| `NameSystem.CacheHitSkipsResolvers` | namesys/namesys.go:80-82 | On a cache hit the result does not depend on the resolvers, and the cache is unchanged. |
| `NameSystem.MissConsultsSelectedOnly` | namesys/namesys.go:82-97 | On a miss, only the selected resolver's answer for the key matters. |
| `NameSystem.ResolverFailure` | namesys/namesys.go:97-100 | A failing resolver gives `("", 0, ErrResolveFailed)` and writes no cache entry. |
| `NameSystem.ResolverSuccess` | namesys/namesys.go:97-107 | A succeeding resolver's path is cached under the key with the resolver's TTL. It is returned with the sub-path re-appended. |
| `NameSystem.RepeatWithinTtl` | namesys/namesys.go:80-101 | After a resolver answered with TTL t > 0, the same name is answered identically from the cache until t has elapsed, whatever the resolvers now say. After that, the resolvers are consulted again. |
| `NameSystem.CacheTTL` | namesys/namesys.go:123-126 | The cache TTL of a publish is `min(DefaultResolverCacheTTL, eol - now)`, which may be `<= 0`. |
| `NameSystem.PublishedEntryLifetime` | namesys/namesys.go:123-127 | A published value is served until the earlier of one cache TTL and the record's EOL. A record already past its EOL writes nothing. |
| `NameSystem.PublishThenResolve` | namesys/namesys.go:115-128 | Right after a `/dms3fs/` value is published under an identity, resolving `/dms3ns/<identity>` takes one hop. That hop is answered from the cache and returns the value with no error. |
| `NameSystem.Mpns.constructor` | namesys/namesys.go:37-50 | `NewNameSystem` keeps the given resolvers and publisher. It builds a cache only when `cachesize > 0`. |
| `NameSystem.Mpns.CacheGet` | namesys/namesys.go:80 | The cache field becomes the cache after the lookup. The method returns the hit flag and, on a hit, the path. |
| `NameSystem.Mpns.CacheSet` | namesys/namesys.go:101 | The cache field becomes the cache after the write. |
| `NameSystem.Mpns.ResolveOnce` | namesys/namesys.go:68-108 | The imperative `resolveOnce` returns exactly `ResolveOnceStep`'s hop and leaves exactly its cache. The TTL is 0. |
| `NameSystem.Mpns.Resolve` | namesys/namesys.go:55-65 | A `/dms3fs/` name gives `ParsePath(name)`, and a name with no leading `/` gives `ParsePath("/dms3fs/" + name)`. Both leave the cache unchanged. Any other name gives the loop's outcome, with this name system as resolver and `/dms3ns/` as the only prefix, and the cache becomes the loop's final state. |
| `NameSystem.Mpns.PublishWithEOL` | namesys/namesys.go:115-129 | An identity error is returned first, then a publisher error, and neither touches the cache. On success the value is cached under `IDB58Encode(id)` for `CacheTTL(eol, now)`. |
| `NameSystem.Mpns.Publish` | namesys/namesys.go:111-113 | `Publish` is `PublishWithEOL` with `eol = now + DefaultRecordTTL`. |

## Left out

- Base.Resolve: beyond the fuel given, a depth `<= 0` is unbounded. The Go loop then keeps
  going, but the model stops and returns `FuelExhausted`. Termination and the hop bound are
  proved for `Depth >= 1`, where `Depth` units of fuel always suffice.
- NameSystem.Mpns.Resolve: has the same fuel parameter. It takes the already-processed
  `Depth` option; `opts.ProcessOpts` and its default depth are not part of this model.
- NameSystem.Mpns.Resolve: runs the loop over the pure `ResolveOnceStep` and assigns `cache`
  once, at the end; Go's `resolveOnce` writes `ns.cache` on every hop. Without concurrent
  callers no difference is observable; the intermediate writes are not modelled.
- Context cancellation, the cache's mutex, and concurrent callers. They are concurrency,
  which the model does not cover.
- Logging (`log.Debugf`): it has no effect on results.
- `cacheGet` and `cacheSet` are defined outside namesys.go.
  - The model gives them expiry semantics: an entry is served only strictly before its expiry,
    a stale entry is removed, a write with ttl `<= 0` is ignored, and a nil cache always misses.
  - The LRU capacity and eviction are not modelled: an entry stays until it expires or is
    overwritten.
- The concrete DNS, proquint and routing resolvers, the record publisher, and the library
  calls are oracles. The library calls are `mh.FromB58String`, `isd.IsDomain`,
  `path.ParsePath`, `peer.IDFromPrivateKey` and `peer.IDB58Encode`.
  - Each backing resolver is a fixed function of the key in `Mpns`, whereas real resolvers
    do network I/O. The loop itself (`Base`) is proved for any stateful resolver.
  - A publish is not visible to the routing-resolver oracle.
- `path.FromSegments` is modelled as parsing its segments joined by `/` after the prefix.
  The path library is not part of this model.
- Time: one `now` per operation. The clock does not advance between the hops of one
  `Resolve`, or between the publisher call and the TTL computation. The 64-bit saturation of
  Go's time arithmetic is not modelled.
- `DefaultRecordTTL` is declared next to the publisher, which is not part of this model. It is
  set here to 24 hours, and no proof depends on its value.
- Strings are sequences of characters rather than bytes. Every separator used is the ASCII
  `/`.
