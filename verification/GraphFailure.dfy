/** Why the graph builder refuses: every error it returns has a cause in the packages themselves. */
module GraphFailure {
  import opened Wrappers
  import opened VersionOrder
  import opened Resolver
  import opened Graphs
  import opened GraphSafety

  predicate Distinct(s: seq<Key>) {
    forall i, j :: 0 <= i < j < |s| ==> s[i] != s[j]
  }

  // The causes, for the packages in `reach`

  ghost predicate GenuineCycle(p: Problem, reach: iset<Key>, s: seq<Key>) {
    IsCycle(p, s) && s[0] in reach && p.RootKey() !in s
  }

  ghost predicate DeepChain(p: Problem, s: seq<Key>) {
    FromRoot(p, s) && Distinct(s) && |s| > MAX_DEPTH + 1
  }

  ghost predicate ManyPackages(reach: iset<Key>, s: seq<Key>) {
    Distinct(s) && |s| > MAX_NODES && forall k <- s :: k in reach
  }

  ghost predicate Unresolved(p: Problem, reach: iset<Key>, k: Key, e: ResolveError) {
    k in reach && PlanOf(p, k) == Err(e)
  }

  ghost predicate Genuine(p: Problem, reach: iset<Key>, e: GraphError) {
    match e
    case Cycle => exists s :: GenuineCycle(p, reach, s)
    case DepthExceeded => exists s :: DeepChain(p, s)
    case NodeLimit => exists s :: ManyPackages(reach, s)
    case Resolution(error) => exists k :: Unresolved(p, reach, k, error)
  }

  /** Resolution only names packages among the candidates. */
  ghost predicate Sound(p: Problem) {
    forall m, d | p.resolve(m).Ok? && d in p.resolve(m).value.resolved :: Find(p.candidates, Target(d)).Some?
  }

  /** `stack` is how the recursion got from the root to `key`. */
  ghost predicate OnStack(p: Problem, b: Build, stack: seq<Key>, key: Key) {
    && FromRoot(p, stack) && stack[|stack| - 1] == key
    && (forall k <- b.path :: k in stack)
    && (forall k <- stack :: k in b.visited)
    && Distinct(stack)
  }

  lemma StackGrows(p: Problem, b: Build, stack: seq<Key>, from: Key, d: ResolvedDependency, name: string,
                   interfaces: seq<string>)
    requires OnStack(p, b, stack, from) && d in Deps(p, from) && Target(d) !in b.visited
    ensures OnStack(p, Entered(b, Target(d), name, interfaces), stack + [Target(d)], Target(d))
  {
    assert Uses(p, from, Target(d));
    ChainExtends(p, stack, Target(d));
  }

  lemma BackEdgeIsCycle(p: Problem, reach: iset<Key>, b: Build, stack: seq<Key>, from: Key, d: ResolvedDependency)
    requires OnStack(p, b, stack, from) && Within(b.visited.Keys, reach)
    requires d in Deps(p, from) && Target(d) in b.path && p.RootKey() !in b.path
    ensures Genuine(p, reach, Cycle)
  {
    var i :| 0 <= i < |stack| && stack[i] == Target(d);
    var s := stack[i..] + [Target(d)];
    assert Uses(p, from, Target(d));
    forall j | 0 <= j < |s| - 1 ensures Uses(p, s[j], s[j + 1]) {
      if i + j < |stack| - 1 {
        assert Uses(p, stack[i + j], stack[i + j + 1]);
      }
    }
    assert stack[0] == p.RootKey();
    assert GenuineCycle(p, reach, s);
  }

  lemma TooManyNodes(p: Problem, reach: iset<Key>, b: Build)
    requires NodesMatch(b.nodes, b.visited) && Within(b.visited.Keys, reach) && |b.nodes| > MAX_NODES
    ensures Genuine(p, reach, NodeLimit)
  {
    var s := seq(|b.nodes|, i requires 0 <= i < |b.nodes| => b.nodes[i].key);
    forall k <- s ensures k in reach {
      var i :| 0 <= i < |s| && s[i] == k;
      assert b.nodes[i] in b.nodes;
    }
    assert ManyPackages(reach, s);
  }

  lemma ProviderIsFound(p: Problem, m: Manifest, d: ResolvedDependency)
    requires Sound(p) && ManifestOf(p, KeyOf(m)) == Some(m) && d in Deps(p, KeyOf(m))
    ensures Find(p.candidates, Target(d)).Some?
  {
  }

  lemma {:induction false} ExpandFails(
    p: Problem, reach: iset<Key>, stack: seq<Key>, m: Manifest, inst: string, b: Build)
    requires Sound(p) && Closed(p, reach) && Wf(p, reach, b) && At(p, b, m, inst)
    requires LinksFrom(b.links, KeyOf(m)) == [] && OnStack(p, b, stack, KeyOf(m))
    requires Expand(p, m, inst, |stack| - 1, b).Err?
    ensures Genuine(p, reach, Expand(p, m, inst, |stack| - 1, b).error)
    decreases Remaining(|stack| - 1), 1, 0
  {
    if |stack| - 1 > MAX_DEPTH {
      assert DeepChain(p, stack);
    } else if |b.nodes| > MAX_NODES {
      TooManyNodes(p, reach, b);
    } else if p.resolve(m).Err? {
      assert Unresolved(p, reach, KeyOf(m), p.resolve(m).error);
    } else {
      var plan := p.resolve(m).value;
      EachFails(p, reach, stack, m, inst, plan.resolved, b.(unavailable := b.unavailable + plan.unavailable));
    }
  }

  lemma {:induction false} EachFails(
    p: Problem, reach: iset<Key>, stack: seq<Key>, m: Manifest, inst: string, deps: seq<ResolvedDependency>, b: Build)
    requires Sound(p) && Closed(p, reach) && Wf(p, reach, b) && At(p, b, m, inst) && |b.nodes| <= MAX_NODES
    requires OnStack(p, b, stack, KeyOf(m)) && |stack| - 1 <= MAX_DEPTH
    requires forall d <- deps :: d in Deps(p, KeyOf(m))
    requires ExpandEach(p, m, inst, |stack| - 1, deps, b).Err?
    ensures Genuine(p, reach, ExpandEach(p, m, inst, |stack| - 1, deps, b).error)
    decreases Remaining(|stack| - 1), 0, |deps|
  {
    var first := ExpandOne(p, m, inst, |stack| - 1, deps[0], b);
    if first.Err? {
      OneFails(p, reach, stack, m, inst, deps[0], b);
    } else {
      OneKeeps(p, reach, m, inst, |stack| - 1, deps[0], b);
      EachFails(p, reach, stack, m, inst, deps[1..], first.value);
    }
  }

  lemma {:induction false} OneFails(
    p: Problem, reach: iset<Key>, stack: seq<Key>, m: Manifest, inst: string, d: ResolvedDependency, b: Build)
    requires Sound(p) && Closed(p, reach) && Wf(p, reach, b) && At(p, b, m, inst)
    requires OnStack(p, b, stack, KeyOf(m)) && |stack| - 1 <= MAX_DEPTH
    requires d in Deps(p, KeyOf(m))
    requires ExpandOne(p, m, inst, |stack| - 1, d, b).Err?
    ensures Genuine(p, reach, ExpandOne(p, m, inst, |stack| - 1, d, b).error)
    decreases Remaining(|stack| - 1), 0, 0
  {
    var key := Target(d);
    if key in b.path {
      BackEdgeIsCycle(p, reach, b, stack, KeyOf(m), d);
    } else {
      ProviderIsFound(p, m, d);
      var provider := Find(p.candidates, key).value;
      var name := NewInstance(p.major, b, key);
      var b1 := Entered(b, key, name, PublicList(provider.services));
      var deeper := stack + [key];
      assert Expand(p, provider, name, |deeper| - 1, b1) == ExpandOne(p, m, inst, |stack| - 1, d, b);
      AtChild(p, reach, b, m, inst, d, provider, name);
      StackGrows(p, b, stack, KeyOf(m), d, name, PublicList(provider.services));
      ExpandFails(p, reach, deeper, provider, name, b1);
    }
  }

  /**
   A refusal has a cause: a cycle of reachable packages off the root, a chain of more than 64 uses between
   different packages, more than 256 reachable packages, or a reachable package that does not resolve.
   */
  lemma FailureIsGenuine(p: Problem)
    requires Sound(p) && BuildGraph(p).Err?
    ensures Genuine(p, ReachSet(p), BuildGraph(p).error)
  {
    ReachSetIsClosed(p);
    InitialIsWf(p, ReachSet(p));
    ExpandFails(p, ReachSet(p), [p.RootKey()], p.root, "root", Initial(p));
  }

  // When a build succeeds

  lemma {:induction false} DistinctSize(s: seq<Key>, keys: set<Key>)
    requires Distinct(s) && forall k <- s :: k in keys
    ensures |s| <= |keys|
  {
    if s != [] {
      var n := |s| - 1;
      DistinctSize(s[..n], keys - {s[n]});
    }
  }

  lemma {:induction false} KeysAreFew(nodes: seq<Node>, keys: set<Key>)
    requires forall k <- keys :: HasNode(nodes, k)
    ensures |keys| <= |nodes|
    decreases |nodes|
  {
    if nodes == [] {
      assert keys == {};
    } else {
      var n := |nodes| - 1;
      forall k <- keys - {nodes[n].key} ensures HasNode(nodes[..n], k) {
        var node :| node in nodes && node.key == k;
        assert node in nodes[..n];
      }
      KeysAreFew(nodes[..n], keys - {nodes[n].key});
    }
  }

  /** What a built graph rules out. */
  lemma BuiltHasNoCause(p: Problem)
    requires BuildGraph(p).Ok?
    ensures forall s :: !GenuineCycle(p, ReachSet(p), s)
    ensures forall s :: !ManyPackages(ReachSet(p), s)
    ensures forall k, e :: !Unresolved(p, ReachSet(p), k, e)
  {
    BuildIsExact(p);
    var b := BuildGraph(p).value;
    forall s ensures !GenuineCycle(p, ReachSet(p), s) {
      if GenuineCycle(p, ReachSet(p), s) {
        CyclesPassRoot(p, s);
      }
    }
    forall s ensures !ManyPackages(ReachSet(p), s) {
      if ManyPackages(ReachSet(p), s) {
        var keys := set k | k in s;
        KeysAreFew(b.nodes, keys);
        DistinctSize(s, keys);
      }
    }
    forall k, e ensures !Unresolved(p, ReachSet(p), k, e) {
      assert k in ReachSet(p) ==> HasNode(b.nodes, k);
    }
  }

  /**
   Where no chain of different packages is too deep, a graph is built if and only if there is no cycle of
   reachable packages off the root, no more than 256 packages are reachable, and each of them resolves.
   */
  lemma BuildsExactly(p: Problem)
    requires Sound(p) && forall s :: !DeepChain(p, s)
    ensures BuildGraph(p).Ok? <==>
            && (forall s :: !GenuineCycle(p, ReachSet(p), s))
            && (forall s :: !ManyPackages(ReachSet(p), s))
            && (forall k, e :: !Unresolved(p, ReachSet(p), k, e))
  {
    if BuildGraph(p).Ok? {
      BuiltHasNoCause(p);
    } else {
      FailureIsGenuine(p);
    }
  }

  // When the uses in a built graph are acyclic

  /** A reachable package that uses the root closes a cycle. */
  lemma UseOfRootIsCycle(p: Problem, k: Key) returns (s: seq<Key>)
    requires Reachable(p, k) && Uses(p, k, p.RootKey())
    ensures IsCycle(p, s) && s[0] == p.RootKey()
  {
    var t :| FromRoot(p, t) && t[|t| - 1] == k;
    ChainExtends(p, t, p.RootKey());
    s := t + [p.RootKey()];
  }

  lemma CycleUsesRoot(p: Problem, s: seq<Key>) returns (k: Key)
    requires BuildGraph(p).Ok? && IsCycle(p, s) && HasNode(BuildGraph(p).value.nodes, s[0])
    ensures Reachable(p, k) && Uses(p, k, p.RootKey())
  {
    BuildEnds(p);
    CyclesPassRoot(p, s);
    ChainStays(p, BuildGraph(p).value, s);
    var i :| 0 < i < |s| && s[i] == p.RootKey();
    assert Uses(p, s[i - 1], s[i - 1 + 1]);
    k := s[i - 1];
    assert k in ReachSet(p);
  }

  /** The uses in a built graph are acyclic if and only if no reachable package uses the root. */
  lemma AcyclicExactly(p: Problem)
    requires BuildGraph(p).Ok?
    ensures (forall s :: IsCycle(p, s) ==> !HasNode(BuildGraph(p).value.nodes, s[0])) <==>
            !exists k :: Reachable(p, k) && Uses(p, k, p.RootKey())
  {
    BuildIsExact(p);
    if k :| Reachable(p, k) && Uses(p, k, p.RootKey()) {
      var s := UseOfRootIsCycle(p, k);
      assert FromRoot(p, [p.RootKey()]) && [p.RootKey()][0] == p.RootKey();
      assert Reachable(p, p.RootKey());
    } else if s :| IsCycle(p, s) && HasNode(BuildGraph(p).value.nodes, s[0]) {
      var k := CycleUsesRoot(p, s);
    }
  }

  // With the resolver

  lemma {:induction false} ResolvedIsCandidate(
    sv: Semver, ds: seq<CartridgeDependency>, candidates: set<Manifest>, r: ResolvedDependency)
    requires StrictTotal(sv.precedes)
    requires ResolveFrom(sv, ds, candidates).Ok? && r in ResolveFrom(sv, ds, candidates).value.resolved
    ensures exists c <- candidates :: KeyOf(c) == Target(r)
    decreases |ds|
  {
    if ds != [] {
      var n := |ds| - 1;
      if r in ResolveFrom(sv, ds[..n], candidates).value.resolved {
        ResolvedIsCandidate(sv, ds[..n], candidates, r);
      } else {
        BestIsHighest(sv, ds[n], candidates);
      }
    }
  }

  /** The builder's lookup of a resolved package never fails. */
  lemma ResolverIsSound(sv: Semver, root: Manifest, candidates: seq<Manifest>)
    requires StrictTotal(sv.precedes)
    ensures Sound(ProblemOf(sv, root, candidates))
  {
    var p := ProblemOf(sv, root, candidates);
    forall m, d | p.resolve(m).Ok? && d in p.resolve(m).value.resolved
      ensures Find(p.candidates, Target(d)).Some?
    {
      ResolvedIsCandidate(sv, m.dependencies, SetOf(candidates), d);
      FindsKey(candidates, Target(d));
    }
  }

  ghost predicate RootIsCandidate(root: Manifest, candidates: seq<Manifest>) {
    exists c <- candidates :: KeyOf(c) == KeyOf(root)
  }

  lemma NothingUsesRoot(sv: Semver, root: Manifest, candidates: seq<Manifest>, k: Key)
    requires StrictTotal(sv.precedes) && !RootIsCandidate(root, candidates)
    ensures !Uses(ProblemOf(sv, root, candidates), k, KeyOf(root))
  {
    var p := ProblemOf(sv, root, candidates);
    if Uses(p, k, KeyOf(root)) {
      ResolverIsSound(sv, root, candidates);
      FindsKey(candidates, KeyOf(root));
    }
  }

  /** Without the root among the candidates, the uses in a built graph are acyclic. */
  lemma BuiltGraphIsAcyclic(sv: Semver, root: Manifest, candidates: seq<Manifest>, s: seq<Key>)
    requires StrictTotal(sv.precedes) && !RootIsCandidate(root, candidates)
    requires var p := ProblemOf(sv, root, candidates);
             BuildGraph(p).Ok? && |s| > 0 && HasNode(BuildGraph(p).value.nodes, s[0])
    ensures !IsCycle(ProblemOf(sv, root, candidates), s)
  {
    var p := ProblemOf(sv, root, candidates);
    if IsCycle(p, s) {
      var k := CycleUsesRoot(p, s);
      NothingUsesRoot(sv, root, candidates, k);
    }
  }

  /** Without the root among the candidates, the authority of a validated graph is isolated. */
  lemma BuiltAuthorityIsIsolated(sv: Semver, root: Manifest, candidates: seq<Manifest>, generation: nat)
    requires StrictTotal(sv.precedes) && !RootIsCandidate(root, candidates)
    requires var p := ProblemOf(sv, root, candidates);
             BuildGraph(p).Ok? && Validated(BuildGraph(p).value.nodes, BuildGraph(p).value.edges)
    ensures Isolated(GrantsOf(BuildGraph(ProblemOf(sv, root, candidates)).value.edges, generation))
  {
    var p := ProblemOf(sv, root, candidates);
    IsolatedExactly(p, generation);
    if k :| UsedByRootAndUsingIt(p, k) {
      NothingUsesRoot(sv, root, candidates, k);
    }
  }
}
