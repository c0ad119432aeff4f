/** What the graph builder returns: the packages reachable by resolution, their uses, and no cycle off the root. */
module GraphSafety {
  import opened Wrappers
  import opened Resolver
  import opened Graphs

  // The invariant of the expansion

  predicate DistinctKeys(nodes: seq<Node>) {
    forall i, j :: 0 <= i < j < |nodes| ==> nodes[i].key != nodes[j].key
  }

  predicate HasNode(nodes: seq<Node>, key: Key) {
    exists n <- nodes :: n.key == key
  }

  /** The visited map names the instance of every node and of nothing else. */
  ghost predicate NodesMatch(nodes: seq<Node>, visited: map<Key, string>) {
    && DistinctKeys(nodes)
    && (forall n <- nodes :: n.key in visited && visited[n.key] == n.instance)
    && (forall k <- visited :: HasNode(nodes, k))
  }

  predicate EdgeMatches(visited: map<Key, string>, e: Edge, l: Link) {
    && l.from in visited && Target(l.dep) in visited
    && e == Edge(visited[l.from], visited[Target(l.dep)], l.dep.alias, l.dep.interfaces)
  }

  /** Every edge joins the instances of the two packages of its link. */
  ghost predicate EdgesMatch(edges: seq<Edge>, links: seq<Link>, visited: map<Key, string>) {
    && |edges| == |links|
    && forall i :: 0 <= i < |links| ==> EdgeMatches(visited, edges[i], links[i])
  }

  /** A visited package is the root, on the path or finished. */
  ghost predicate Marks(root: Key, visited: set<Key>, path: set<Key>, done: set<Key>) {
    && visited == path + done + {root}
    && path !! done && root !in path && root !in done
  }

  predicate Before(rank: map<Key, nat>, l: Link) {
    Target(l.dep) in rank && (l.from in rank ==> rank[Target(l.dep)] < rank[l.from])
  }

  /** Whoever uses a package finishes after it; only the root is used unfinished. */
  ghost predicate Ranked(root: Key, links: seq<Link>, rank: map<Key, nat>, clock: nat) {
    && (forall k <- rank :: rank[k] < clock)
    && (forall l <- links :: Target(l.dep) != root ==> Before(rank, l))
  }

  ghost predicate Done(p: Problem, links: seq<Link>, key: Key) {
    PlanOf(p, key).Ok? && LinksFrom(links, key) == Deps(p, key)
  }

  ghost predicate AllDone(p: Problem, links: seq<Link>, keys: set<Key>) {
    forall k <- keys :: Done(p, links, k)
  }

  /** `reach` holds the root and whatever a package in it uses. */
  ghost predicate Closed(p: Problem, reach: iset<Key>) {
    p.RootKey() in reach && forall a <- reach, d <- Deps(p, a) :: Target(d) in reach
  }

  ghost predicate Within(keys: set<Key>, reach: iset<Key>) {
    forall k <- keys :: k in reach
  }

  ghost predicate Wf(p: Problem, reach: iset<Key>, b: Build) {
    && NodesMatch(b.nodes, b.visited)
    && EdgesMatch(b.edges, b.links, b.visited)
    && Marks(p.RootKey(), b.visited.Keys, b.path, b.rank.Keys)
    && Ranked(p.RootKey(), b.links, b.rank, b.clock)
    && AllDone(p, b.links, b.rank.Keys)
    && Within(b.visited.Keys, reach)
  }

  /** The expansion stands at package `m`. */
  ghost predicate At(p: Problem, b: Build, m: Manifest, inst: string) {
    && KeyOf(m) in b.visited && KeyOf(m) !in b.rank
    && b.visited[KeyOf(m)] == inst
    && ManifestOf(p, KeyOf(m)) == Some(m)
  }

  /** `b'` grows out of `b` while `key` is expanded. */
  ghost predicate Grows(b: Build, b': Build, key: Key) {
    && b'.path == b.path
    && (forall k <- b.visited :: k in b'.visited && b'.visited[k] == b.visited[k])
    && (forall k <- b'.visited :: k in b.visited || k in b'.rank)
    && (forall k <- b.visited :: k in b.rank <==> k in b'.rank)
    && (forall k <- b.visited :: k != key ==> LinksFrom(b'.links, k) == LinksFrom(b.links, k))
  }

  // Single steps

  lemma LinksSnoc(links: seq<Link>, l: Link, key: Key)
    ensures LinksFrom(links + [l], key) == LinksFrom(links, key) + (if l.from == key then [l.dep] else [])
  {
    assert (links + [l])[..|links|] == links;
  }

  lemma {:induction false} NoLinksFrom(links: seq<Link>, key: Key)
    requires forall l <- links :: l.from != key
    ensures LinksFrom(links, key) == []
  {
    if links != [] {
      NoLinksFrom(links[..|links| - 1], key);
    }
  }

  lemma {:induction false} FindsKey(candidates: seq<Manifest>, key: Key)
    ensures Find(candidates, key).Some? <==> exists c <- candidates :: KeyOf(c) == key
    ensures Find(candidates, key).Some? ==> KeyOf(Find(candidates, key).value) == key
  {
    if candidates != [] {
      FindsKey(candidates[1..], key);
      assert forall c :: c in candidates <==> c == candidates[0] || c in candidates[1..];
    }
  }

  lemma NodeAdded(nodes: seq<Node>, visited: map<Key, string>, n: Node)
    requires NodesMatch(nodes, visited) && n.key !in visited
    ensures NodesMatch(nodes + [n], visited[n.key := n.instance])
  {
    var nodes' := nodes + [n];
    assert nodes'[|nodes|] == n;
    forall k <- visited[n.key := n.instance] ensures HasNode(nodes', k) {
      if k != n.key {
        var o :| o in nodes && o.key == k;
        assert o in nodes';
      }
    }
  }

  lemma MarkAdded(root: Key, visited: set<Key>, path: set<Key>, done: set<Key>, key: Key)
    requires Marks(root, visited, path, done) && key !in visited
    ensures Marks(root, visited + {key}, path + {key}, done)
  {
  }

  lemma MarkMoved(root: Key, visited: set<Key>, path: set<Key>, done: set<Key>, key: Key)
    requires Marks(root, visited, path, done) && key in path
    ensures Marks(root, visited, path - {key}, done + {key})
  {
  }

  lemma EdgesStay(edges: seq<Edge>, links: seq<Link>, visited: map<Key, string>, key: Key, inst: string)
    requires EdgesMatch(edges, links, visited) && key !in visited
    ensures EdgesMatch(edges, links, visited[key := inst])
  {
  }

  lemma EdgeAdded(edges: seq<Edge>, links: seq<Link>, visited: map<Key, string>, l: Link)
    requires EdgesMatch(edges, links, visited) && l.from in visited && Target(l.dep) in visited
    ensures EdgesMatch(
              edges + [Edge(visited[l.from], visited[Target(l.dep)], l.dep.alias, l.dep.interfaces)],
              links + [l], visited)
  {
  }

  lemma EnteredKeeps(p: Problem, reach: iset<Key>, b: Build, key: Key, inst: string, interfaces: seq<string>)
    requires Wf(p, reach, b) && key !in b.visited && key in reach
    ensures Wf(p, reach, Entered(b, key, inst, interfaces))
  {
    NodeAdded(b.nodes, b.visited, Node(inst, key, interfaces));
    EdgesStay(b.edges, b.links, b.visited, key, inst);
    MarkAdded(p.RootKey(), b.visited.Keys, b.path, b.rank.Keys, key);
    assert b.visited[key := inst].Keys == b.visited.Keys + {key};
  }

  lemma RankAdded(root: Key, links: seq<Link>, rank: map<Key, nat>, clock: nat, key: Key)
    requires Ranked(root, links, rank, clock) && key !in rank && key != root
    ensures Ranked(root, links, rank[key := clock], clock + 1)
  {
    forall l <- links | Target(l.dep) != root ensures Before(rank[key := clock], l) {
      assert Before(rank, l);
    }
  }

  lemma FinishedKeeps(p: Problem, reach: iset<Key>, b: Build, key: Key)
    requires Wf(p, reach, b) && key in b.path && Done(p, b.links, key)
    ensures Wf(p, reach, Finished(b, key))
  {
    RankAdded(p.RootKey(), b.links, b.rank, b.clock, key);
    MarkMoved(p.RootKey(), b.visited.Keys, b.path, b.rank.Keys, key);
    assert b.rank[key := b.clock].Keys == b.rank.Keys + {key};
  }

  lemma LinkAdded(root: Key, links: seq<Link>, rank: map<Key, nat>, clock: nat, l: Link)
    requires Ranked(root, links, rank, clock) && l.from !in rank && (Target(l.dep) == root || Target(l.dep) in rank)
    ensures Ranked(root, links + [l], rank, clock)
  {
  }

  lemma DoneStays(p: Problem, links: seq<Link>, l: Link, keys: set<Key>)
    requires AllDone(p, links, keys) && l.from !in keys
    ensures AllDone(p, links + [l], keys)
  {
    forall k <- keys ensures Done(p, links + [l], k) {
      LinksSnoc(links, l, k);
    }
  }

  lemma JoinedKeeps(p: Problem, reach: iset<Key>, b: Build, key: Key, d: ResolvedDependency)
    requires Wf(p, reach, b) && key in b.visited && key !in b.rank && Target(d) in b.visited && Target(d) !in b.path
    ensures var b' := Joined(b, key, b.visited[key], b.visited[Target(d)], d);
            && Wf(p, reach, b') && Grows(b, b', key) && LinksFrom(b'.links, key) == LinksFrom(b.links, key) + [d]
  {
    var l := Link(key, d);
    LinkAdded(p.RootKey(), b.links, b.rank, b.clock, l);
    DoneStays(p, b.links, l, b.rank.Keys);
    forall k ensures LinksFrom(b.links + [l], k) == LinksFrom(b.links, k) + (if k == key then [d] else []) {
      LinksSnoc(b.links, l, k);
    }
    EdgeAdded(b.edges, b.links, b.visited, l);
  }

  // The expansion keeps the invariant

  lemma GrowsTrans(a: Build, b: Build, c: Build, key: Key)
    requires Grows(a, b, key) && Grows(b, c, key)
    ensures Grows(a, c, key)
  {
  }

  /** Entering, expanding and finishing `key` grows the build for whoever asked for it. */
  lemma ChildGrows(b: Build, key: Key, inst: string, interfaces: seq<string>, b2: Build, parent: Key)
    requires key !in b.visited && key !in b.path && key !in b.rank
    requires Grows(Entered(b, key, inst, interfaces), b2, key)
    ensures Grows(b, Finished(b2, key), parent)
  {
  }

  lemma FreshHasNoLinks(b: Build, key: Key)
    requires EdgesMatch(b.edges, b.links, b.visited) && key !in b.visited
    ensures LinksFrom(b.links, key) == []
  {
    forall l <- b.links ensures l.from != key {
      var i :| 0 <= i < |b.links| && b.links[i] == l;
      assert EdgeMatches(b.visited, b.edges[i], l);
    }
    NoLinksFrom(b.links, key);
  }

  /** What holds on entering the provider of `d`. */
  lemma AtChild(p: Problem, reach: iset<Key>, b: Build, m: Manifest, inst: string, d: ResolvedDependency,
                provider: Manifest, name: string)
    requires Closed(p, reach) && Wf(p, reach, b) && At(p, b, m, inst)
    requires d in Deps(p, KeyOf(m)) && Target(d) !in b.visited
    requires Find(p.candidates, Target(d)) == Some(provider)
    ensures KeyOf(provider) == Target(d)
    ensures var b1 := Entered(b, Target(d), name, PublicList(provider.services));
            && Wf(p, reach, b1) && At(p, b1, provider, name)
            && LinksFrom(b1.links, Target(d)) == []
  {
    FindsKey(p.candidates, Target(d));
    EnteredKeeps(p, reach, b, Target(d), name, PublicList(provider.services));
    FreshHasNoLinks(b, Target(d));
  }

  lemma {:induction false} ExpandKeeps(p: Problem, reach: iset<Key>, m: Manifest, inst: string, depth: nat, b: Build)
    requires Closed(p, reach) && Wf(p, reach, b) && At(p, b, m, inst) && LinksFrom(b.links, KeyOf(m)) == []
    requires Expand(p, m, inst, depth, b).Ok?
    ensures var b' := Expand(p, m, inst, depth, b).value;
            Wf(p, reach, b') && Grows(b, b', KeyOf(m)) && Done(p, b'.links, KeyOf(m)) && |b'.nodes| <= MAX_NODES
    decreases Remaining(depth), 1, 0
  {
    var plan := p.resolve(m).value;
    var b1 := b.(unavailable := b.unavailable + plan.unavailable);
    assert Deps(p, KeyOf(m)) == plan.resolved;
    EachKeeps(p, reach, m, inst, depth, plan.resolved, b1);
    assert [] + plan.resolved == plan.resolved;
  }

  lemma Regroup(done: seq<ResolvedDependency>, deps: seq<ResolvedDependency>)
    requires deps != []
    ensures done + [deps[0]] + deps[1..] == done + deps
  {
  }

  lemma {:induction false} EachKeeps(
    p: Problem, reach: iset<Key>, m: Manifest, inst: string, depth: nat, deps: seq<ResolvedDependency>, b: Build)
    requires depth <= MAX_DEPTH
    requires Closed(p, reach) && Wf(p, reach, b) && At(p, b, m, inst) && |b.nodes| <= MAX_NODES
    requires forall d <- deps :: d in Deps(p, KeyOf(m))
    requires ExpandEach(p, m, inst, depth, deps, b).Ok?
    ensures var b' := ExpandEach(p, m, inst, depth, deps, b).value;
            && Wf(p, reach, b') && Grows(b, b', KeyOf(m)) && |b'.nodes| <= MAX_NODES
            && LinksFrom(b'.links, KeyOf(m)) == LinksFrom(b.links, KeyOf(m)) + deps
    decreases Remaining(depth), 0, |deps|
  {
    if deps != [] {
      OneKeeps(p, reach, m, inst, depth, deps[0], b);
      var b1 := ExpandOne(p, m, inst, depth, deps[0], b).value;
      var b2 := ExpandEach(p, m, inst, depth, deps[1..], b1).value;
      assert ExpandEach(p, m, inst, depth, deps, b) == Ok(b2);
      EachKeeps(p, reach, m, inst, depth, deps[1..], b1);
      GrowsTrans(b, b1, b2, KeyOf(m));
      Regroup(LinksFrom(b.links, KeyOf(m)), deps);
    }
  }

  /** The provider of `d` has been entered and expanded from `b` to `b2`; it is finished and joined to `m`. */
  lemma ChildJoined(
    p: Problem, reach: iset<Key>, m: Manifest, inst: string, d: ResolvedDependency, name: string,
    interfaces: seq<string>, b: Build, b2: Build)
    requires Wf(p, reach, b) && At(p, b, m, inst) && Target(d) !in b.visited
    requires Wf(p, reach, b2) && Done(p, b2.links, Target(d))
    requires Grows(Entered(b, Target(d), name, interfaces), b2, Target(d))
    ensures var b' := Joined(Finished(b2, Target(d)), KeyOf(m), inst, name, d);
            && Wf(p, reach, b') && At(p, b', m, inst) && Grows(b, b', KeyOf(m))
            && LinksFrom(b'.links, KeyOf(m)) == LinksFrom(b.links, KeyOf(m)) + [d]
  {
    var key, u := Target(d), KeyOf(m);
    FinishedKeeps(p, reach, b2, key);
    ChildGrows(b, key, name, interfaces, b2, u);
    var b3 := Finished(b2, key);
    JoinedKeeps(p, reach, b3, u, d);
    GrowsTrans(b, b3, Joined(b3, u, inst, name, d), u);
  }

  lemma {:induction false} OneKeeps(
    p: Problem, reach: iset<Key>, m: Manifest, inst: string, depth: nat, d: ResolvedDependency, b: Build)
    requires depth <= MAX_DEPTH
    requires Closed(p, reach) && Wf(p, reach, b) && At(p, b, m, inst)
    requires |b.nodes| <= MAX_NODES && d in Deps(p, KeyOf(m))
    requires ExpandOne(p, m, inst, depth, d, b).Ok?
    ensures var b' := ExpandOne(p, m, inst, depth, d, b).value;
            && Wf(p, reach, b') && At(p, b', m, inst) && Grows(b, b', KeyOf(m)) && |b'.nodes| <= MAX_NODES
            && LinksFrom(b'.links, KeyOf(m)) == LinksFrom(b.links, KeyOf(m)) + [d]
    decreases Remaining(depth), 0, 0
  {
    var key, u := Target(d), KeyOf(m);
    if key in b.visited {
      JoinedKeeps(p, reach, b, u, d);
    } else {
      var provider := Find(p.candidates, key).value;
      var name := NewInstance(p.major, b, key);
      AtChild(p, reach, b, m, inst, d, provider, name);
      var b1 := Entered(b, key, name, PublicList(provider.services));
      ExpandKeeps(p, reach, provider, name, depth + 1, b1);
      ChildJoined(p, reach, m, inst, d, name, PublicList(provider.services), b,
                  Expand(p, provider, name, depth + 1, b1).value);
    }
  }

  // The result

  lemma ChainExtends(p: Problem, s: seq<Key>, key: Key)
    requires FromRoot(p, s) && Uses(p, s[|s| - 1], key)
    ensures FromRoot(p, s + [key]) && Reachable(p, key)
  {
    var t := s + [key];
    forall i | 0 <= i < |t| - 1 ensures Uses(p, t[i], t[i + 1]) {
      if i < |s| - 1 {
        assert Uses(p, s[i], s[i + 1]);
      }
    }
    assert FromRoot(p, t) && t[|t| - 1] == key;
  }

  ghost function ReachSet(p: Problem): iset<Key> {
    iset k | Reachable(p, k)
  }

  lemma ReachSetIsClosed(p: Problem)
    ensures Closed(p, ReachSet(p))
  {
    assert FromRoot(p, [p.RootKey()]) && [p.RootKey()][0] == p.RootKey();
    forall a <- ReachSet(p), d <- Deps(p, a) ensures Target(d) in ReachSet(p) {
      var s :| FromRoot(p, s) && s[|s| - 1] == a;
      ChainExtends(p, s, Target(d));
    }
  }

  lemma InitialIsWf(p: Problem, reach: iset<Key>)
    requires Closed(p, reach)
    ensures Wf(p, reach, Initial(p)) && At(p, Initial(p), p.root, "root")
  {
    assert Initial(p).nodes[0].key == p.RootKey();
  }

  /** Every package but the root is finished, and the root is done. */
  ghost predicate Final(p: Problem, b: Build) {
    && NodesMatch(b.nodes, b.visited)
    && EdgesMatch(b.edges, b.links, b.visited)
    && b.visited.Keys == b.rank.Keys + {p.RootKey()}
    && Ranked(p.RootKey(), b.links, b.rank, b.clock)
    && AllDone(p, b.links, b.visited.Keys)
  }

  lemma WfEndsFinal(p: Problem, reach: iset<Key>, b: Build)
    requires Wf(p, reach, b) && b.path == {} && Done(p, b.links, p.RootKey())
    ensures Final(p, b) && Within(b.visited.Keys, reach)
  {
  }

  lemma BuildEnds(p: Problem)
    requires BuildGraph(p).Ok?
    ensures var b := BuildGraph(p).value;
            Final(p, b) && |b.nodes| <= MAX_NODES && Within(b.visited.Keys, ReachSet(p))
  {
    ReachSetIsClosed(p);
    InitialIsWf(p, ReachSet(p));
    ExpandKeeps(p, ReachSet(p), p.root, "root", 0, Initial(p));
    WfEndsFinal(p, ReachSet(p), BuildGraph(p).value);
  }

  lemma {:induction false} LinkOf(links: seq<Link>, key: Key, d: ResolvedDependency)
    requires d in LinksFrom(links, key)
    ensures Link(key, d) in links
  {
    var n := |links| - 1;
    if d in LinksFrom(links[..n], key) {
      LinkOf(links[..n], key, d);
    } else {
      assert links[n] == Link(key, d);
    }
  }

  /** A use by a package of the graph leads to a package of the graph, over a link. */
  lemma UseIsLinked(p: Problem, b: Build, a: Key, c: Key) returns (i: nat)
    requires EdgesMatch(b.edges, b.links, b.visited) && Done(p, b.links, a) && Uses(p, a, c)
    ensures i < |b.links| && b.links[i].from == a && Target(b.links[i].dep) == c && c in b.visited
  {
    var d :| d in Deps(p, a) && Target(d) == c;
    LinkOf(b.links, a, d);
    i :| 0 <= i < |b.links| && b.links[i] == Link(a, d);
    assert EdgeMatches(b.visited, b.edges[i], b.links[i]);
  }

  lemma {:induction false} ChainStays(p: Problem, b: Build, s: seq<Key>)
    requires EdgesMatch(b.edges, b.links, b.visited) && AllDone(p, b.links, b.visited.Keys)
    requires Chain(p, s) && s[0] in b.visited
    ensures forall k <- s :: k in b.visited
    decreases |s|
  {
    if |s| > 1 {
      var n := |s| - 1;
      ChainStays(p, b, s[..n]);
      assert s[..n][n - 1] in b.visited;
      assert Uses(p, s[n - 1], s[n - 1 + 1]);
      var _ := UseIsLinked(p, b, s[n - 1], s[n]);
      assert s == s[..n] + [s[n]];
    }
  }

  /**
   A successful build has one node for every package reachable from the root and for no other, at most
   256 of them, and for every node one edge for each of its resolved dependencies, in order.
   */
  lemma BuildIsExact(p: Problem)
    requires BuildGraph(p).Ok?
    ensures var b := BuildGraph(p).value;
            && DistinctKeys(b.nodes) && |b.nodes| <= MAX_NODES
            && (forall k :: HasNode(b.nodes, k) <==> Reachable(p, k))
            && (forall n <- b.nodes :: PlanOf(p, n.key).Ok? && LinksFrom(b.links, n.key) == Deps(p, n.key))
            && EdgesMatch(b.edges, b.links, b.visited) && NodesMatch(b.nodes, b.visited)
  {
    BuildEnds(p);
    var b := BuildGraph(p).value;
    forall k ensures HasNode(b.nodes, k) <==> Reachable(p, k) {
      if Reachable(p, k) {
        var s :| FromRoot(p, s) && s[|s| - 1] == k;
        ChainStays(p, b, s);
      }
    }
    forall n <- b.nodes ensures PlanOf(p, n.key).Ok? && LinksFrom(b.links, n.key) == Deps(p, n.key) {
      assert Done(p, b.links, n.key);
    }
  }

  // Cycles

  lemma {:induction false} RanksFall(p: Problem, b: Build, s: seq<Key>, i: nat)
    requires Final(p, b)
    requires Chain(p, s) && i < |s| && (forall k <- s :: k in b.visited) && p.RootKey() !in s
    ensures s[0] in b.rank && s[i] in b.rank && b.rank[s[i]] + i <= b.rank[s[0]]
  {
    assert s[0] in s && s[i] in s;
    assert s[0] in b.visited.Keys && s[i] in b.visited.Keys;
    if i > 0 {
      RanksFall(p, b, s, i - 1);
      assert Uses(p, s[i - 1], s[i - 1 + 1]);
      assert s[i - 1] in s;
      var j := UseIsLinked(p, b, s[i - 1], s[i]);
      assert b.links[j] in b.links && Before(b.rank, b.links[j]);
    }
  }

  lemma FinalCyclesPassRoot(p: Problem, b: Build, s: seq<Key>)
    requires Final(p, b) && IsCycle(p, s) && s[0] in b.visited
    ensures p.RootKey() in s
  {
    ChainStays(p, b, s);
    if p.RootKey() !in s {
      RanksFall(p, b, s, |s| - 1);
      assert false;
    }
  }

  /** Every cycle of uses in a built graph passes through the root. */
  lemma CyclesPassRoot(p: Problem, s: seq<Key>)
    requires BuildGraph(p).Ok? && IsCycle(p, s) && HasNode(BuildGraph(p).value.nodes, s[0])
    ensures p.RootKey() in s
  {
    BuildEnds(p);
    FinalCyclesPassRoot(p, BuildGraph(p).value, s);
  }

  // Isolation of providers

  datatype EdgeKind = Session | Persistent | PolicyProvided | Revoked

  datatype Grant = Grant(
    caller: string, provider: string, interfaces: seq<string>, scope: string, kind: EdgeKind, generation: nat)

  function GrantsOf(edges: seq<Edge>, generation: nat): seq<Grant> {
    seq(|edges|, i requires 0 <= i < |edges| =>
      Grant(edges[i].caller, edges[i].provider, edges[i].interfaces, edges[i].alias, Session, generation))
  }

  /** No provider holds a grant towards whoever calls it. */
  predicate Isolated(grants: seq<Grant>) {
    forall g <- grants, h <- grants ::
      g.kind != Revoked && h.kind != Revoked && h.caller == g.provider ==> h.provider != g.caller
  }

  /** What validation asks of the shape of a graph. */
  predicate Validated(nodes: seq<Node>, edges: seq<Edge>) {
    && |nodes| <= MAX_NODES && |edges| <= MAX_EDGES
    && (forall i, j :: 0 <= i < j < |nodes| ==> nodes[i].instance != nodes[j].instance)
    && (forall e <- edges :: (exists n <- nodes :: n.instance == e.caller))
    && (forall e <- edges :: (exists n <- nodes :: n.instance == e.provider))
  }

  lemma NamesTellKeys(b: Build, j: Key, k: Key)
    requires NodesMatch(b.nodes, b.visited) && Validated(b.nodes, b.edges)
    requires j in b.visited && k in b.visited && b.visited[j] == b.visited[k]
    ensures j == k
  {
    var m :| m in b.nodes && m.key == j;
    var n :| n in b.nodes && n.key == k;
  }

  lemma LinkIsUse(p: Problem, b: Build, l: Link)
    requires l in b.links && Done(p, b.links, l.from)
    ensures Uses(p, l.from, Target(l.dep))
  {
    LinkIsListed(b.links, l);
  }

  lemma {:induction false} LinkIsListed(links: seq<Link>, l: Link)
    requires l in links
    ensures l.dep in LinksFrom(links, l.from)
  {
    var n := |links| - 1;
    if l in links[..n] {
      LinkIsListed(links[..n], l);
    }
  }

  ghost predicate UsedByRootAndUsingIt(p: Problem, k: Key) {
    Uses(p, p.RootKey(), k) && Uses(p, k, p.RootKey())
  }

  /** Edges between the same two instances in opposite directions come from mutual uses. */
  lemma MutualEdges(p: Problem, b: Build, i: nat, j: nat) returns (x: Key, y: Key)
    requires Final(p, b) && Validated(b.nodes, b.edges) && i < |b.edges| && j < |b.edges|
    requires b.edges[j].caller == b.edges[i].provider && b.edges[j].provider == b.edges[i].caller
    ensures x in b.visited && Uses(p, x, y) && Uses(p, y, x)
  {
    assert EdgeMatches(b.visited, b.edges[i], b.links[i]) && EdgeMatches(b.visited, b.edges[j], b.links[j]);
    x, y := b.links[i].from, Target(b.links[i].dep);
    NamesTellKeys(b, b.links[j].from, y);
    NamesTellKeys(b, Target(b.links[j].dep), x);
    LinkIsUse(p, b, b.links[i]);
    LinkIsUse(p, b, b.links[j]);
  }

  lemma MutualUseTouchesRoot(p: Problem, b: Build, x: Key, y: Key)
    requires Final(p, b) && x in b.visited && Uses(p, x, y) && Uses(p, y, x)
    ensures exists k :: UsedByRootAndUsingIt(p, k)
  {
    var s := [x, y, x];
    assert forall i :: 0 <= i < |s| - 1 ==> Uses(p, s[i], s[i + 1]);
    FinalCyclesPassRoot(p, b, s);
    assert x == p.RootKey() || y == p.RootKey();
    assert UsedByRootAndUsingIt(p, if x == p.RootKey() then y else x);
  }

  /** A mutual use with the root gives a pair of grants in opposite directions. */
  lemma MutualUseBreaksIsolation(p: Problem, b: Build, k: Key, generation: nat)
    requires Final(p, b) && UsedByRootAndUsingIt(p, k)
    ensures !Isolated(GrantsOf(b.edges, generation))
  {
    var i := UseIsLinked(p, b, p.RootKey(), k);
    var j := UseIsLinked(p, b, k, p.RootKey());
    assert EdgeMatches(b.visited, b.edges[i], b.links[i]) && EdgeMatches(b.visited, b.edges[j], b.links[j]);
    var grants := GrantsOf(b.edges, generation);
    assert grants[i] in grants && grants[j] in grants;
  }

  lemma FinalIsolatedExactly(p: Problem, b: Build, generation: nat)
    requires Final(p, b) && Validated(b.nodes, b.edges)
    ensures Isolated(GrantsOf(b.edges, generation)) <==> !exists k :: UsedByRootAndUsingIt(p, k)
  {
    if k :| UsedByRootAndUsingIt(p, k) {
      MutualUseBreaksIsolation(p, b, k, generation);
    } else if !Isolated(GrantsOf(b.edges, generation)) {
      var i, j :| 0 <= i < |b.edges| && 0 <= j < |b.edges|
                  && b.edges[j].caller == b.edges[i].provider && b.edges[j].provider == b.edges[i].caller;
      var x, y := MutualEdges(p, b, i, j);
      MutualUseTouchesRoot(p, b, x, y);
    }
  }

  /** The authority of a validated graph is isolated exactly when nothing the root uses uses the root. */
  lemma IsolatedExactly(p: Problem, generation: nat)
    requires BuildGraph(p).Ok? && Validated(BuildGraph(p).value.nodes, BuildGraph(p).value.edges)
    ensures Isolated(GrantsOf(BuildGraph(p).value.edges, generation)) <==> !exists k :: UsedByRootAndUsingIt(p, k)
  {
    BuildEnds(p);
    FinalIsolatedExactly(p, BuildGraph(p).value, generation);
  }
}
