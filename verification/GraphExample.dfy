/** Two packages that use each other: accepted when one of them is the root and also a candidate. */
module GraphExample {
  import opened Wrappers
  import opened VersionOrder
  import opened Resolver
  import opened Graphs
  import opened GraphSafety

  const VERSION := "1.0.0"
  const INTERFACE := "demo:api/call@1.0.0"

  function Package(id: string, other: string): Manifest {
    Manifest(id, VERSION, [CartridgeDependency("peer", other, VERSION, [INTERFACE], false)],
             [Service(INTERFACE, Public)], true)
  }

  const APP := Package("dev.demo.app", "dev.demo.peer")
  const PEER := Package("dev.demo.peer", "dev.demo.app")

  ghost predicate Accepts(sv: Semver) {
    sv.isVersion(VERSION) && sv.isRequirement(VERSION) && sv.satisfies(VERSION, VERSION)
  }

  function Use(id: string): ResolvedDependency {
    ResolvedDependency("peer", id, VERSION, [INTERFACE])
  }

  lemma BestPeer(sv: Semver, user: Manifest, target: Manifest)
    requires Accepts(sv) && ((user == APP && target == PEER) || (user == PEER && target == APP))
    ensures Best(sv, user.dependencies[0], SetOf([APP, PEER])) == Some(VERSION)
  {
    var all := SetOf([APP, PEER]);
    assert target in [APP, PEER];
    assert Service(INTERFACE, Public) in target.services;
    assert INTERFACE in PublicInterfaces(target);
    assert Suitable(sv, user.dependencies[0], target);
    var versions := SuitableVersions(sv, user.dependencies[0], all);
    assert VERSION in versions;
    assert IsNewest(sv.precedes, versions, VERSION);
  }

  lemma BothAreValid(sv: Semver)
    requires Accepts(sv)
    ensures forall c <- [APP, PEER] :: ValidManifest(sv, c)
    ensures DistinctPackages([APP, PEER])
  {
    assert |APP.id| != |PEER.id|;
    assert ValidManifest(sv, APP) && ValidManifest(sv, PEER);
  }

  lemma ResolvesPeer(sv: Semver, user: Manifest, target: Manifest)
    requires Accepts(sv) && ((user == APP && target == PEER) || (user == PEER && target == APP))
    ensures Resolve(sv, user, [APP, PEER]) == Ok(Plan([Use(target.id)], []))
  {
    BestPeer(sv, user, target);
    BothAreValid(sv);
    assert user in [APP, PEER];
    var ds := user.dependencies;
    assert ds[..0] == [];
    assert ResolveFrom(sv, ds[..0], SetOf([APP, PEER])) == Ok(Plan([], []));
    var plan := Place(Plan([], []), ds[0], Some(VERSION)).value;
    assert plan.resolved == [Use(target.id)] && plan.unavailable == [];
    assert ResolveFrom(sv, ds, SetOf([APP, PEER])) == Ok(plan);
    assert Resolve(sv, user, [APP, PEER]) == ResolveFrom(sv, ds, SetOf([APP, PEER]));
  }

  /** A package whose one dependency is known, or expands, expands itself. */
  lemma ExpandsOne(p: Problem, m: Manifest, inst: string, depth: nat, b: Build, d: ResolvedDependency)
    requires p.resolve(m) == Ok(Plan([d], [])) && depth <= MAX_DEPTH && |b.nodes| <= MAX_NODES
    requires ExpandOne(p, m, inst, depth, d, b.(unavailable := b.unavailable + [])).Ok?
    ensures Expand(p, m, inst, depth, b).Ok?
  {
    assert ExpandEach(p, m, inst, depth, [d], b.(unavailable := b.unavailable + [])).Ok?;
  }

  lemma PeerExpands(p: Problem, peer: Manifest, d: ResolvedDependency, b: Build, name: string)
    requires p.resolve(peer) == Ok(Plan([d], [])) && |b.nodes| <= MAX_NODES
    requires Target(d) in b.visited && Target(d) !in b.path
    ensures Expand(p, peer, name, 1, b).Ok?
  {
    ExpandsOne(p, peer, name, 1, b, d);
  }

  /** Two packages that use just each other are accepted, whichever they are. */
  lemma MutualUseOfRootIsAccepted(p: Problem, peer: Manifest, there: ResolvedDependency, back: ResolvedDependency)
    requires p.resolve(p.root) == Ok(Plan([there], [])) && Find(p.candidates, Target(there)) == Some(peer)
    requires p.resolve(peer) == Ok(Plan([back], [])) && Target(back) == p.RootKey() != Target(there)
    ensures BuildGraph(p).Ok?
  {
    var b := Initial(p).(unavailable := Initial(p).unavailable + []);
    var name := NewInstance(p.major, b, Target(there));
    PeerExpands(p, peer, back, Entered(b, Target(there), name, PublicList(peer.services)), name);
    ExpandsOne(p, p.root, "root", 0, Initial(p), there);
  }

  /** A cycle through the root is not refused: the root and its provider can use each other. */
  lemma CycleThroughRootIsAccepted(sv: Semver)
    requires Accepts(sv)
    ensures var p := ProblemOf(sv, APP, [APP, PEER]);
            BuildGraph(p).Ok? && UsedByRootAndUsingIt(p, KeyOf(PEER))
  {
    var p := ProblemOf(sv, APP, [APP, PEER]);
    ResolvesPeer(sv, APP, PEER);
    ResolvesPeer(sv, PEER, APP);
    FindPeer();
    MutualUseOfRootIsAccepted(p, PEER, Use(PEER.id), Use(APP.id));
    assert Use(PEER.id) in Deps(p, KeyOf(APP)) && Use(APP.id) in Deps(p, KeyOf(PEER));
  }

  lemma FindPeer()
    ensures Find([APP, PEER], KeyOf(PEER)) == Some(PEER) && KeyOf(APP) != KeyOf(PEER)
  {
    assert |APP.id| != |PEER.id|;
    assert [APP, PEER][1..] == [PEER];
  }
}
