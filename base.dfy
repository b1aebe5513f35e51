/** The namespace-agnostic recursive resolution loop of namesys/base.go.

    A single-hop resolver is modelled as a state transformer: given its current state and a
    name it returns one hop's result and its next state. This covers a resolver that keeps
    a cache (the name system does) as well as a stateless one. */
module Base {
  import opened Types
  import opened GoStrings

  /** The content-addressed namespace: a path in it is never resolved further. */
  const Dms3fsPrefix: string := "/dms3fs/"

  /** What resolveOnce returns: a path, a time-to-live and an error. */
  datatype Hop = Hop(value: string, ttl: int, err: Option<Error>)

  /** What resolve returns: a path and an error. FuelExhausted is not a result of the Go code:
      it stands for a loop that has not ended within the given number of hops. */
  datatype Outcome = Returned(path: string, err: Option<Error>) | FuelExhausted

  /** The loop's decision after one hop: return, or go on with a new name and depth. */
  datatype Step = Return(path: string, err: Option<Error>) | Continue(name: string, depth: int)

  /** One run of the loop: its outcome, the resolver's final state and, per hop, the name
      passed to resolveOnce, the depth counter at that moment and what the hop returned. */
  datatype Trace<S> = Trace(outcome: Outcome, state: S, names: seq<string>, depths: seq<int>, hops: seq<Hop>)

  predicate MatchesAny(p: string, prefixes: seq<string>) {
    exists j :: 0 <= j < |prefixes| && HasPrefix(p, prefixes[j])
  }

  /** The depth counter is decremented only while it is above 1. */
  function NextDepth(depth: int): int {
    if depth > 1 then depth - 1 else depth
  }

  /** The next hop's name: the prefix is trimmed only when exactly one prefix was given. */
  function NextName(p: string, name: string, prefixes: seq<string>): string {
    if |prefixes| == 1 then TrimPrefix(p, prefixes[0]) else name
  }

  /** A hop after which the loop goes on. */
  predicate Continues(h: Hop, depth: int, prefixes: seq<string>) {
    h.err.None? && !HasPrefix(h.value, Dms3fsPrefix) && depth != 1 && MatchesAny(h.value, prefixes)
  }

  /** The body of one iteration of the loop, after the hop. */
  function Decide(h: Hop, name: string, depth: int, prefixes: seq<string>): (st: Step)
    ensures st.Continue? <==> Continues(h, depth, prefixes)
  {
    if h.err.Some? then Return("", h.err)
    else if HasPrefix(h.value, Dms3fsPrefix) then Return(h.value, None)
    else if depth == 1 then Return(h.value, Some(ResolveRecursion))
    else if !MatchesAny(h.value, prefixes) then Return(h.value, None)
    else Continue(NextName(h.value, name, prefixes), NextDepth(depth))
  }

  /** The loop as a recursive function, allowed at most `fuel` hops. */
  function Run<S>(resolveOnce: (S, string) -> (Hop, S), s: S, name: string, depth: int,
                  prefixes: seq<string>, fuel: nat): (t: Trace<S>)
    ensures |t.names| == |t.depths| == |t.hops| <= fuel
    ensures fuel > 0 ==> 0 < |t.hops| && t.names[0] == name && t.depths[0] == depth
    ensures t.outcome.FuelExhausted? ==> |t.hops| == fuel
    decreases fuel
  {
    if fuel == 0 then Trace(FuelExhausted, s, [], [], [])
    else
      var r := resolveOnce(s, name);
      match Decide(r.0, name, depth, prefixes)
      case Return(p, e) => Trace(Returned(p, e), r.1, [name], [depth], [r.0])
      case Continue(n1, d1) =>
        var t := Run(resolveOnce, r.1, n1, d1, prefixes, fuel - 1);
        Trace(t.outcome, t.state, [name] + t.names, [depth] + t.depths, [r.0] + t.hops)
  }

  /** resolve(ctx, r, name, options, prefixes...): calls the single-hop resolver until a
      content-addressed path, an error, the depth limit or an unmatched path ends the loop. */
  method Resolve<S>(resolveOnce: (S, string) -> (Hop, S), s0: S, name0: string, depth0: int,
                    prefixes: seq<string>, fuel0: nat)
    returns (out: Outcome, s: S, calls: nat)
    ensures var t := Run(resolveOnce, s0, name0, depth0, prefixes, fuel0);
      out == t.outcome && s == t.state && calls == |t.hops|
    ensures depth0 >= 1 ==> calls <= depth0 && (fuel0 >= depth0 ==> out.Returned?)
  {
    if depth0 >= 1 {
      HopBound(resolveOnce, s0, name0, depth0, prefixes, fuel0);
    }
    ghost var t0 := Run(resolveOnce, s0, name0, depth0, prefixes, fuel0);
    var name, depth, fuel := name0, depth0, fuel0;
    s, calls := s0, 0;
    while fuel > 0
      invariant var t := Run(resolveOnce, s, name, depth, prefixes, fuel);
        t.outcome == t0.outcome && t.state == t0.state && calls + |t.hops| == |t0.hops|
      decreases fuel
    {
      var r := resolveOnce(s, name);
      var h := r.0;
      s, fuel, calls := r.1, fuel - 1, calls + 1;
      if h.err.Some? {
        return Returned("", h.err), s, calls;
      }
      if HasPrefix(h.value, Dms3fsPrefix) {
        return Returned(h.value, None), s, calls;
      }
      if depth == 1 {
        return Returned(h.value, Some(ResolveRecursion)), s, calls;
      }
      var matched := false;
      var i := 0;
      while i < |prefixes|
        invariant 0 <= i <= |prefixes|
        invariant forall j :: 0 <= j < i ==> !HasPrefix(h.value, prefixes[j])
      {
        if HasPrefix(h.value, prefixes[i]) {
          matched := true;
          if |prefixes| == 1 {
            name := TrimPrefix(h.value, prefixes[i]);
          }
          break;
        }
        i := i + 1;
      }
      if !matched {
        return Returned(h.value, None), s, calls;
      }
      if depth > 1 {
        depth := depth - 1;
      }
    }
    out := FuelExhausted;
  }

  /** With a depth d >= 1 the loop makes at most d hops, so d units of fuel always suffice. */
  lemma {:induction false} HopBound<S>(resolveOnce: (S, string) -> (Hop, S), s: S, name: string,
                                       depth: int, prefixes: seq<string>, fuel: nat)
    requires depth >= 1
    ensures var t := Run(resolveOnce, s, name, depth, prefixes, fuel);
      |t.hops| <= depth && (fuel >= depth ==> t.outcome.Returned?)
    decreases fuel
  {
    if fuel > 0 {
      var r := resolveOnce(s, name);
      match Decide(r.0, name, depth, prefixes)
      case Return(_, _) =>
      case Continue(n1, d1) =>
        HopBound(resolveOnce, r.1, n1, d1, prefixes, fuel - 1);
    }
  }

  /** The depth counter at each hop: a depth d >= 1 goes down by one per hop, a depth <= 0
      ("unlimited") is never changed. */
  ghost predicate DepthCountsDown<S>(t: Trace<S>, depth: int) {
    forall i :: 0 <= i < |t.depths| ==> t.depths[i] == if depth >= 1 then depth - i else depth
  }

  lemma {:induction false} DepthAtHop<S>(resolveOnce: (S, string) -> (Hop, S), s: S, name: string,
                                         depth: int, prefixes: seq<string>, fuel: nat)
    ensures DepthCountsDown(Run(resolveOnce, s, name, depth, prefixes, fuel), depth)
    decreases fuel
  {
    if fuel > 0 {
      var r := resolveOnce(s, name);
      match Decide(r.0, name, depth, prefixes)
      case Return(_, _) =>
      case Continue(n1, d1) =>
        DepthAtHop(resolveOnce, r.1, n1, d1, prefixes, fuel - 1);
        var t, t1 := Run(resolveOnce, s, name, depth, prefixes, fuel), Run(resolveOnce, r.1, n1, d1, prefixes, fuel - 1);
        assert t.depths == [depth] + t1.depths;
        forall i | 0 < i < |t.depths|
          ensures t.depths[i] == if depth >= 1 then depth - i else depth
        {
          assert t.depths[i] == t1.depths[i - 1];
        }
    }
  }

  /** Every hop but the last is a continuing one (no error, not content-addressed, depth
      counter not 1, a matching prefix), and the next hop's name and depth follow from it. */
  ghost predicate ChainedHops<S>(t: Trace<S>, prefixes: seq<string>)
    requires |t.names| == |t.depths| == |t.hops|
  {
    forall i :: 0 <= i < |t.hops| - 1 ==>
      Continues(t.hops[i], t.depths[i], prefixes)
      && t.names[i + 1] == NextName(t.hops[i].value, t.names[i], prefixes)
      && t.depths[i + 1] == NextDepth(t.depths[i])
  }

  lemma {:induction false} ContinuingHops<S>(resolveOnce: (S, string) -> (Hop, S), s: S, name: string,
                                             depth: int, prefixes: seq<string>, fuel: nat)
    ensures ChainedHops(Run(resolveOnce, s, name, depth, prefixes, fuel), prefixes)
    decreases fuel
  {
    if fuel > 0 {
      var r := resolveOnce(s, name);
      match Decide(r.0, name, depth, prefixes)
      case Return(_, _) =>
      case Continue(n1, d1) =>
        ContinuingHops(resolveOnce, r.1, n1, d1, prefixes, fuel - 1);
        var t, t1 := Run(resolveOnce, s, name, depth, prefixes, fuel), Run(resolveOnce, r.1, n1, d1, prefixes, fuel - 1);
        assert t.names == [name] + t1.names && t.depths == [depth] + t1.depths && t.hops == [r.0] + t1.hops;
        forall i | 0 < i < |t.hops| - 1
          ensures Continues(t.hops[i], t.depths[i], prefixes)
            && t.names[i + 1] == NextName(t.hops[i].value, t.names[i], prefixes)
            && t.depths[i + 1] == NextDepth(t.depths[i])
        {
          assert t.hops[i] == t1.hops[i - 1] && t.depths[i] == t1.depths[i - 1] && t.names[i] == t1.names[i - 1];
          assert t.names[i + 1] == t1.names[i] && t.depths[i + 1] == t1.depths[i];
        }
    }
  }

  /** Every hop of the trace is a continuing one. */
  ghost predicate AllContinue<S>(t: Trace<S>, prefixes: seq<string>)
    requires |t.depths| == |t.hops|
  {
    forall i :: 0 <= i < |t.hops| ==> Continues(t.hops[i], t.depths[i], prefixes)
  }

  /** How the last hop determines the result: an error gives ("", that error); a content-addressed
      path is returned with no error whatever the depth; otherwise a depth counter of 1 gives the
      path with ErrResolveRecursion; otherwise the path matched no prefix and is returned as is.
      A loop that runs out of fuel has continued after every hop. */
  lemma {:induction false} LastHop<S>(resolveOnce: (S, string) -> (Hop, S), s: S, name: string,
                                      depth: int, prefixes: seq<string>, fuel: nat)
    ensures var t := Run(resolveOnce, s, name, depth, prefixes, fuel);
      var k := |t.hops| - 1;
      && (t.outcome.FuelExhausted? ==> AllContinue(t, prefixes))
      && (t.outcome.Returned? ==>
           && k >= 0
           && (t.hops[k].err.Some? ==> t.outcome == Returned("", t.hops[k].err))
           && (t.hops[k].err.None? && HasPrefix(t.hops[k].value, Dms3fsPrefix) ==>
                 t.outcome == Returned(t.hops[k].value, None))
           && (t.hops[k].err.None? && !HasPrefix(t.hops[k].value, Dms3fsPrefix) && t.depths[k] == 1 ==>
                 t.outcome == Returned(t.hops[k].value, Some(ResolveRecursion)))
           && (t.hops[k].err.None? && !HasPrefix(t.hops[k].value, Dms3fsPrefix) && t.depths[k] != 1 ==>
                 !MatchesAny(t.hops[k].value, prefixes) && t.outcome == Returned(t.hops[k].value, None)))
    decreases fuel
  {
    if fuel > 0 {
      var r := resolveOnce(s, name);
      match Decide(r.0, name, depth, prefixes)
      case Return(_, _) =>
      case Continue(n1, d1) =>
        LastHop(resolveOnce, r.1, n1, d1, prefixes, fuel - 1);
    }
  }

  /** An error on any hop aborts the whole call: it is the last hop, and the call returns
      the empty path with that same error. */
  lemma ErrorAborts<S>(resolveOnce: (S, string) -> (Hop, S), s: S, name: string,
                       depth: int, prefixes: seq<string>, fuel: nat, i: nat)
    requires var t := Run(resolveOnce, s, name, depth, prefixes, fuel);
      i < |t.hops| && t.hops[i].err.Some?
    ensures var t := Run(resolveOnce, s, name, depth, prefixes, fuel);
      i == |t.hops| - 1 && t.outcome == Returned("", t.hops[i].err)
  {
    ContinuingHops(resolveOnce, s, name, depth, prefixes, fuel);
    LastHop(resolveOnce, s, name, depth, prefixes, fuel);
  }

  /** A content-addressed path on any hop ends the call with that path and no error,
      whatever the remaining depth. */
  lemma ContentPathEnds<S>(resolveOnce: (S, string) -> (Hop, S), s: S, name: string,
                           depth: int, prefixes: seq<string>, fuel: nat, i: nat)
    requires var t := Run(resolveOnce, s, name, depth, prefixes, fuel);
      i < |t.hops| && t.hops[i].err.None? && HasPrefix(t.hops[i].value, Dms3fsPrefix)
    ensures var t := Run(resolveOnce, s, name, depth, prefixes, fuel);
      i == |t.hops| - 1 && t.outcome == Returned(t.hops[i].value, None)
  {
    ContinuingHops(resolveOnce, s, name, depth, prefixes, fuel);
    LastHop(resolveOnce, s, name, depth, prefixes, fuel);
  }

  /** Every hop asks for the same name. */
  ghost predicate SameNames<S>(t: Trace<S>, name: string) {
    forall i :: 0 <= i < |t.names| ==> t.names[i] == name
  }

  /** With more than one prefix a match never changes the name: every hop asks for the
      name the call started with. */
  lemma {:induction false} SeveralPrefixesKeepName<S>(resolveOnce: (S, string) -> (Hop, S), s: S, name: string,
                                                     depth: int, prefixes: seq<string>, fuel: nat)
    requires |prefixes| >= 2
    ensures SameNames(Run(resolveOnce, s, name, depth, prefixes, fuel), name)
    decreases fuel
  {
    if fuel > 0 {
      var r := resolveOnce(s, name);
      match Decide(r.0, name, depth, prefixes)
      case Return(_, _) =>
      case Continue(n1, d1) =>
        SeveralPrefixesKeepName(resolveOnce, r.1, n1, d1, prefixes, fuel - 1);
        var t, t1 := Run(resolveOnce, s, name, depth, prefixes, fuel), Run(resolveOnce, r.1, n1, d1, prefixes, fuel - 1);
        assert t.names == [name] + t1.names;
        forall i | 0 < i < |t.names|
          ensures t.names[i] == name
        {
          assert t.names[i] == t1.names[i - 1];
        }
    }
  }

  /** Two resolvers that differ only in the TTLs they report. */
  ghost predicate SameButTtl<S(!new)>(f: (S, string) -> (Hop, S), g: (S, string) -> (Hop, S)) {
    forall s: S, n: string :: f(s, n).1 == g(s, n).1 && f(s, n).0.value == g(s, n).0.value
      && f(s, n).0.err == g(s, n).0.err
  }

  /** The loop discards the TTL of every hop. */
  lemma {:induction false} TtlDiscarded<S(!new)>(f: (S, string) -> (Hop, S), g: (S, string) -> (Hop, S), s: S,
                                           name: string, depth: int, prefixes: seq<string>, fuel: nat)
    requires SameButTtl(f, g)
    ensures var t, u := Run(f, s, name, depth, prefixes, fuel), Run(g, s, name, depth, prefixes, fuel);
      t.outcome == u.outcome && t.state == u.state && t.names == u.names && t.depths == u.depths
    decreases fuel
  {
    if fuel > 0 {
      var r, q := f(s, name), g(s, name);
      assert r.1 == q.1 && r.0.value == q.0.value && r.0.err == q.0.err;
      assert Decide(r.0, name, depth, prefixes) == Decide(q.0, name, depth, prefixes);
      match Decide(r.0, name, depth, prefixes)
      case Return(_, _) =>
      case Continue(n1, d1) =>
        TtlDiscarded(f, g, r.1, n1, d1, prefixes, fuel - 1);
    }
  }
}
