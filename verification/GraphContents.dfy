/** What a built graph says about its packages: their public interfaces, and the optional dependencies they lack. */
module GraphContents {
  import opened Wrappers
  import opened Resolver
  import opened Graphs
  import opened GraphSafety

  /** The public interfaces are those of the services that are not private, */
  lemma {:induction false} PublicListIs(services: seq<Service>, i: string)
    ensures i in PublicList(services) <==> exists s <- services :: s.interface == i && s.visibility != Private
  {
    if services != [] {
      PublicListIs(services[1..], i);
      assert services == [services[0]] + services[1..];
    }
  }

  /** in the order of the services. */
  lemma {:induction false} PublicListJoins(services: seq<Service>, more: seq<Service>)
    ensures PublicList(services + more) == PublicList(services) + PublicList(more)
  {
    if services == [] {
      assert services + more == more;
    } else {
      PublicListJoins(services[1..], more);
      assert (services + more)[1..] == services[1..] + more;
    }
  }

  /** The optional dependencies that the packages of `nodes` lack, package by package. */
  ghost function Lacking(p: Problem, nodes: seq<Node>): seq<UnavailableDependency> {
    if nodes == [] then []
    else
      var last := PlanOf(p, nodes[|nodes| - 1].key);
      Lacking(p, nodes[..|nodes| - 1]) + (if last.Ok? then last.value.unavailable else [])
  }

  /** The node carries the public interfaces of its package. */
  ghost predicate Describes(p: Problem, n: Node) {
    var m := ManifestOf(p, n.key);
    m.Some? && n.interfaces == PublicList(m.value.services)
  }

  /** All nodes are described, and the list of what they lack is complete. */
  ghost predicate Described(p: Problem, b: Build) {
    && p.RootKey() in b.visited && (forall n <- b.nodes :: Describes(p, n)) && b.unavailable == Lacking(p, b.nodes)
  }

  /** The same but for the last node, whose package is `m` and has just been entered. */
  ghost predicate DescribedBut(p: Problem, b: Build, m: Manifest) {
    && p.RootKey() in b.visited && (forall n <- b.nodes :: Describes(p, n))
    && b.nodes != [] && b.nodes[|b.nodes| - 1].key == KeyOf(m) && ManifestOf(p, KeyOf(m)) == Some(m)
    && b.unavailable == Lacking(p, b.nodes[..|b.nodes| - 1])
  }

  lemma EnteredIsDescribed(p: Problem, b: Build, key: Key, provider: Manifest, name: string)
    requires Described(p, b) && key !in b.visited && Find(p.candidates, key) == Some(provider)
    ensures DescribedBut(p, Entered(b, key, name, PublicList(provider.services)), provider)
  {
    FindsKey(p.candidates, key);
    var b' := Entered(b, key, name, PublicList(provider.services));
    assert b'.nodes[..|b'.nodes| - 1] == b.nodes;
    assert key != p.RootKey();
    assert Describes(p, b'.nodes[|b.nodes|]);
  }

  lemma {:induction false} ExpandDescribes(p: Problem, m: Manifest, inst: string, depth: nat, b: Build)
    requires DescribedBut(p, b, m) && Expand(p, m, inst, depth, b).Ok?
    ensures Described(p, Expand(p, m, inst, depth, b).value)
    decreases Remaining(depth), 1, 0
  {
    var plan := p.resolve(m).value;
    EachDescribes(p, m, inst, depth, plan.resolved, b.(unavailable := b.unavailable + plan.unavailable));
  }

  lemma {:induction false} EachDescribes(
    p: Problem, m: Manifest, inst: string, depth: nat, deps: seq<ResolvedDependency>, b: Build)
    requires depth <= MAX_DEPTH && Described(p, b) && ExpandEach(p, m, inst, depth, deps, b).Ok?
    ensures Described(p, ExpandEach(p, m, inst, depth, deps, b).value)
    decreases Remaining(depth), 0, |deps|
  {
    if deps != [] {
      OneDescribes(p, m, inst, depth, deps[0], b);
      EachDescribes(p, m, inst, depth, deps[1..], ExpandOne(p, m, inst, depth, deps[0], b).value);
    }
  }

  lemma {:induction false} OneDescribes(
    p: Problem, m: Manifest, inst: string, depth: nat, d: ResolvedDependency, b: Build)
    requires depth <= MAX_DEPTH && Described(p, b) && ExpandOne(p, m, inst, depth, d, b).Ok?
    ensures Described(p, ExpandOne(p, m, inst, depth, d, b).value)
    decreases Remaining(depth), 0, 0
  {
    var key := Target(d);
    if key !in b.visited {
      var provider := Find(p.candidates, key).value;
      var name := NewInstance(p.major, b, key);
      EnteredIsDescribed(p, b, key, provider, name);
      ExpandDescribes(p, provider, name, depth + 1, Entered(b, key, name, PublicList(provider.services)));
    }
  }

  /**
   In a built graph every node carries the public interfaces of its package, and the graph lists what the
   packages lack, in the order of the nodes and nothing else.
   */
  lemma BuildDescribes(p: Problem)
    requires BuildGraph(p).Ok?
    ensures var b := BuildGraph(p).value;
            (forall n <- b.nodes :: Describes(p, n)) && b.unavailable == Lacking(p, b.nodes)
  {
    assert Initial(p).nodes[..0] == [];
    assert Describes(p, Initial(p).nodes[0]);
    ExpandDescribes(p, p.root, "root", 0, Initial(p));
  }

  /** An instance is named after its package, with its number from the second on and its major version from one on. */
  lemma NamesLook()
    ensures InstanceName("a.b", 1, 0) == "a-b"
    ensures InstanceName("a.b", 2, 0) == "a-b-2"
    ensures InstanceName("a.b", 1, 3) == "a-b-v3"
    ensures InstanceName("a.b", 12, 10) == "a-b-12-v10"
  {
    assert Dashed("b") == "b" && Dashed(".b") == "-b" && Dashed("a.b") == "a-b";
    assert Digits(1) == "1" && Digits(2) == "2" && Digits(3) == "3" && Digits(10) == "10" && Digits(12) == "12";
  }
}
