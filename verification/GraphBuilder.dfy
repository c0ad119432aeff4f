/** The graph builder as it runs: one set of collections updated by a recursive expansion. */
module GraphBuilders {
  import opened Wrappers
  import opened VersionOrder
  import opened Resolver
  import opened Graphs
  import opened GraphSafety

  class GraphBuilder {
    const sv: Semver
    const candidates: seq<Manifest>
    ghost const given: Problem
    var nodes: seq<Node>
    var edges: seq<Edge>
    var visited: map<Key, string>
    var path: set<Key>
    var counts: map<string, nat>
    var unavailable: seq<UnavailableDependency>
    ghost var links: seq<Link>
    ghost var rank: map<Key, nat>
    ghost var clock: nat

    ghost function View(): Build
      reads this
    {
      Build(nodes, edges, visited, path, counts, unavailable, links, rank, clock)
    }

    /** The problem at hand is the one of these candidates and this resolver. */
    ghost predicate Valid() {
      && given.candidates == candidates && given.major == sv.major
      && StrictTotal(sv.precedes)
      && forall m {:trigger Resolve(sv, m, candidates)} :: given.resolve(m) == Resolve(sv, m, candidates)
    }

    constructor (sv: Semver, root: Manifest, candidates: seq<Manifest>)
      requires StrictTotal(sv.precedes)
      ensures Valid() && given == ProblemOf(sv, root, candidates)
      ensures View() == Initial(given)
    {
      this.sv, this.candidates := sv, candidates;
      given := ProblemOf(sv, root, candidates);
      nodes, edges := [Node("root", KeyOf(root), PublicList(root.services))], [];
      visited, path, counts := map[KeyOf(root) := "root"], {}, map[];
      unavailable, links, rank, clock := [], [], map[], 0;
    }

    method FindCandidate(key: Key) returns (r: Option<Manifest>)
      ensures r == Find(candidates, key)
    {
      for i := 0 to |candidates|
        invariant Find(candidates, key) == Find(candidates[i..], key)
      {
        if KeyOf(candidates[i]) == key {
          return Some(candidates[i]);
        }
        assert candidates[i..][1..] == candidates[i + 1..];
      }
      return None;
    }

    method NextInstance(key: Key) returns (name: string)
      modifies this`counts
      ensures name == NewInstance(sv.major, old(View()), key)
      ensures counts == old(counts)[key.cartridge := Count(old(counts), key.cartridge) + 1]
    {
      var count := Count(counts, key.cartridge) + 1;
      counts := counts[key.cartridge := count];
      name := Dashed(key.cartridge);
      if count != 1 {
        name := name + "-" + Digits(count);
      }
      var major := sv.major(key.version);
      if major > 0 {
        name := name + "-v" + Digits(major);
      }
    }

    /** Adds what `m` uses, depth first. A refusal leaves the collections as they are at that point. */
    method ExpandGraph(m: Manifest, inst: string, depth: nat) returns (r: Result<(), GraphError>)
      requires Valid()
      modifies this
      ensures match Expand(given, m, inst, depth, old(View()))
              case Ok(b) => r.Ok? && View() == b
              case Err(e) => r == Err(e)
      decreases Remaining(depth), 1, 0
    {
      if depth > MAX_DEPTH {
        return Err(DepthExceeded);
      }
      if |nodes| > MAX_NODES {
        return Err(NodeLimit);
      }
      var plan := ResolveDependencies(sv, m, candidates);
      if plan.Err? {
        return Err(Resolution(plan.error));
      }
      unavailable := unavailable + plan.value.unavailable;
      var deps := plan.value.resolved;
      ghost var start := View();
      for i := 0 to |deps|
        invariant ExpandEach(given, m, inst, depth, deps, start)
               == ExpandEach(given, m, inst, depth, deps[i..], View())
      {
        assert deps[i..][1..] == deps[i + 1..];
        r := UseProvider(m, inst, depth, deps[i]);
        if r.Err? {
          return;
        }
      }
      return Ok(());
    }

    method UseProvider(m: Manifest, inst: string, depth: nat, d: ResolvedDependency) returns (r: Result<(), GraphError>)
      requires Valid() && depth <= MAX_DEPTH
      modifies this
      ensures match ExpandOne(given, m, inst, depth, d, old(View()))
              case Ok(b) => r.Ok? && View() == b
              case Err(e) => r == Err(e)
      decreases Remaining(depth), 0, 1
    {
      var key := Target(d);
      if key in path {
        return Err(Cycle);
      }
      var provider: string;
      if key in visited {
        provider := visited[key];
      } else {
        var entered := EnterProvider(key, d.alias, depth);
        if entered.Err? {
          return Err(entered.error);
        }
        provider := entered.value;
      }
      edges := edges + [Edge(inst, provider, d.alias, d.interfaces)];
      links := links + [Link(KeyOf(m), d)];
      return Ok(());
    }

    /** Adds a package that is not in the graph yet, with everything it uses. */
    method EnterProvider(key: Key, alias: string, depth: nat) returns (r: Result<string, GraphError>)
      requires Valid() && depth <= MAX_DEPTH
      modifies this
      ensures match Find(candidates, key)
              case None => r == Err(Resolution(RequiredUnavailable(alias)))
              case Some(provider) =>
                var name := NewInstance(sv.major, old(View()), key);
                match Expand(given, provider, name, depth + 1,
                             Entered(old(View()), key, name, PublicList(provider.services)))
                case Err(e) => r == Err(e)
                case Ok(b) => r == Ok(name) && View() == Finished(b, key)
      decreases Remaining(depth), 0, 0
    {
      var found := FindCandidate(key);
      if found.None? {
        return Err(Resolution(RequiredUnavailable(alias)));
      }
      var name := AddNode(key, found.value);
      var done := ExpandGraph(found.value, name, depth + 1);
      if done.Err? {
        return Err(done.error);
      }
      LeaveNode(key);
      return Ok(name);
    }

    method AddNode(key: Key, provider: Manifest) returns (name: string)
      modifies this
      ensures name == NewInstance(sv.major, old(View()), key)
      ensures View() == Entered(old(View()), key, name, PublicList(provider.services))
    {
      name := NextInstance(key);
      nodes := nodes + [Node(name, key, PublicList(provider.services))];
      visited := visited[key := name];
      path := path + {key};
    }

    method LeaveNode(key: Key)
      modifies this
      ensures View() == Finished(old(View()), key)
    {
      path := path - {key};
      rank, clock := rank[key := clock], clock + 1;
    }
  }

  /** Builds the graph of `root`: its nodes, edges and unavailable dependencies. */
  method BuildApprovedGraph(sv: Semver, root: Manifest, candidates: seq<Manifest>)
    returns (r: Result<(seq<Node>, seq<Edge>, seq<UnavailableDependency>), GraphError>)
    requires StrictTotal(sv.precedes)
    ensures match BuildGraph(ProblemOf(sv, root, candidates))
            case Ok(b) => r == Ok((b.nodes, b.edges, b.unavailable))
            case Err(e) => r == Err(e)
    ensures r.Ok? ==>
              && DistinctKeys(r.value.0) && |r.value.0| <= MAX_NODES
              && forall k :: HasNode(r.value.0, k) <==> Reachable(ProblemOf(sv, root, candidates), k)
  {
    var builder := new GraphBuilder(sv, root, candidates);
    var done := builder.ExpandGraph(root, "root", 0);
    if done.Err? {
      return Err(done.error);
    }
    BuildIsExact(ProblemOf(sv, root, candidates));
    return Ok((builder.nodes, builder.edges, builder.unavailable));
  }
}
