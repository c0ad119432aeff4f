/**
 Building the approved dependency graph of a package: a depth-first expansion with a visited map,
 the set of packages on the current path, a depth limit and a node limit.
 `links`, `rank` and `clock` are history: which package asked for what, and in which order
 packages were finished. No decision reads them.
 */
module Graphs {
  import opened Wrappers
  import opened Resolver

  const MAX_DEPTH: nat := 64
  const MAX_NODES: nat := 256
  const MAX_EDGES: nat := 1024

  datatype Key = Key(cartridge: string, version: string)

  datatype Node = Node(instance: string, key: Key, interfaces: seq<string>)

  datatype Edge = Edge(caller: string, provider: string, alias: string, interfaces: seq<string>)

  /** The package `from` uses the resolved dependency `dep`. */
  datatype Link = Link(from: Key, dep: ResolvedDependency)

  datatype GraphError = Cycle | DepthExceeded | NodeLimit | Resolution(error: ResolveError)

  datatype Build = Build(
    nodes: seq<Node>,
    edges: seq<Edge>,
    visited: map<Key, string>,
    path: set<Key>,
    counts: map<string, nat>,
    unavailable: seq<UnavailableDependency>,
    links: seq<Link>,
    rank: map<Key, nat>,
    clock: nat)

  /** What the builder works from; `resolve` is the direct resolution against the candidates. */
  datatype Problem = Problem(
    root: Manifest,
    candidates: seq<Manifest>,
    resolve: Manifest -> Result<Plan, ResolveError>,
    major: string -> nat)
  {
    function RootKey(): Key {
      KeyOf(root)
    }
  }

  ghost function ProblemOf(sv: Semver, root: Manifest, candidates: seq<Manifest>): Problem {
    Problem(root, candidates, m => Resolve(sv, m, candidates), sv.major)
  }

  function KeyOf(m: Manifest): Key {
    Key(m.id, m.version)
  }

  function Target(d: ResolvedDependency): Key {
    Key(d.cartridge, d.version)
  }

  function PublicList(services: seq<Service>): seq<string> {
    if services == [] then []
    else
      (if services[0].visibility != Private then [services[0].interface] else []) + PublicList(services[1..])
  }

  function Find(candidates: seq<Manifest>, key: Key): Option<Manifest> {
    if candidates == [] then None
    else if KeyOf(candidates[0]) == key then Some(candidates[0])
    else Find(candidates[1..], key)
  }

  // Instance names

  function Digits(n: nat): string {
    if n < 10 then ["0123456789"[n]] else Digits(n / 10) + ["0123456789"[n % 10]]
  }

  function Dashed(id: string): string {
    if id == [] then [] else [if id[0] == '.' then '-' else id[0]] + Dashed(id[1..])
  }

  function Count(counts: map<string, nat>, id: string): nat {
    if id in counts then counts[id] else 0
  }

  function InstanceName(id: string, count: nat, major: nat): string {
    Dashed(id) + (if count == 1 then "" else "-" + Digits(count)) + (if major > 0 then "-v" + Digits(major) else "")
  }

  // The expansion

  function Entered(b: Build, key: Key, inst: string, interfaces: seq<string>): Build {
    b.(nodes := b.nodes + [Node(inst, key, interfaces)],
       visited := b.visited[key := inst],
       path := b.path + {key},
       counts := b.counts[key.cartridge := Count(b.counts, key.cartridge) + 1])
  }

  function Finished(b: Build, key: Key): Build {
    b.(path := b.path - {key}, rank := b.rank[key := b.clock], clock := b.clock + 1)
  }

  function Joined(b: Build, from: Key, inst: string, provider: string, d: ResolvedDependency): Build {
    b.(edges := b.edges + [Edge(inst, provider, d.alias, d.interfaces)], links := b.links + [Link(from, d)])
  }

  function NewInstance(major: string -> nat, b: Build, key: Key): string {
    InstanceName(key.cartridge, Count(b.counts, key.cartridge) + 1, major(key.version))
  }

  function Remaining(depth: nat): nat {
    if depth > MAX_DEPTH then 0 else MAX_DEPTH + 1 - depth
  }

  ghost function Expand(p: Problem, m: Manifest, inst: string, depth: nat, b: Build): Result<Build, GraphError>
    decreases Remaining(depth), 1, 0
  {
    if depth > MAX_DEPTH then Err(DepthExceeded)
    else if |b.nodes| > MAX_NODES then Err(NodeLimit)
    else
      match p.resolve(m)
      case Err(e) => Err(Resolution(e))
      case Ok(plan) =>
        ExpandEach(p, m, inst, depth, plan.resolved, b.(unavailable := b.unavailable + plan.unavailable))
  }

  ghost function ExpandEach(
    p: Problem, m: Manifest, inst: string, depth: nat, deps: seq<ResolvedDependency>, b: Build)
    : Result<Build, GraphError>
    requires depth <= MAX_DEPTH
    decreases Remaining(depth), 0, |deps|
  {
    if deps == [] then Ok(b)
    else
      match ExpandOne(p, m, inst, depth, deps[0], b)
      case Err(e) => Err(e)
      case Ok(b') => ExpandEach(p, m, inst, depth, deps[1..], b')
  }

  ghost function ExpandOne(p: Problem, m: Manifest, inst: string, depth: nat, d: ResolvedDependency, b: Build)
    : Result<Build, GraphError>
    requires depth <= MAX_DEPTH
    decreases Remaining(depth), 0, 0
  {
    var key := Target(d);
    if key in b.path then Err(Cycle)
    else if key in b.visited then Ok(Joined(b, KeyOf(m), inst, b.visited[key], d))
    else
      match Find(p.candidates, key)
      case None => Err(Resolution(RequiredUnavailable(d.alias)))
      case Some(provider) =>
        var name := NewInstance(p.major, b, key);
        match Expand(p, provider, name, depth + 1, Entered(b, key, name, PublicList(provider.services)))
        case Err(e) => Err(e)
        case Ok(b') => Ok(Joined(Finished(b', key), KeyOf(m), inst, name, d))
  }

  function Initial(p: Problem): Build {
    Build([Node("root", p.RootKey(), PublicList(p.root.services))], [], map[p.RootKey() := "root"], {}, map[], [],
          [], map[], 0)
  }

  ghost function BuildGraph(p: Problem): Result<Build, GraphError> {
    Expand(p, p.root, "root", 0, Initial(p))
  }

  // Reference: the packages reachable by resolution

  function ManifestOf(p: Problem, key: Key): Option<Manifest> {
    if key == p.RootKey() then Some(p.root) else Find(p.candidates, key)
  }

  ghost function PlanOf(p: Problem, key: Key): Result<Plan, ResolveError> {
    match ManifestOf(p, key)
    case None => Ok(Plan([], []))
    case Some(m) => p.resolve(m)
  }

  ghost function Deps(p: Problem, key: Key): seq<ResolvedDependency> {
    match PlanOf(p, key)
    case Err(_) => []
    case Ok(plan) => plan.resolved
  }

  ghost predicate Uses(p: Problem, a: Key, b: Key) {
    exists d <- Deps(p, a) :: Target(d) == b
  }

  ghost predicate Chain(p: Problem, s: seq<Key>) {
    |s| >= 1 && forall i :: 0 <= i < |s| - 1 ==> Uses(p, s[i], s[i + 1])
  }

  ghost predicate FromRoot(p: Problem, s: seq<Key>) {
    Chain(p, s) && s[0] == p.RootKey()
  }

  ghost predicate Reachable(p: Problem, key: Key) {
    exists s :: FromRoot(p, s) && s[|s| - 1] == key
  }

  /** A round trip of at least one use. */
  ghost predicate IsCycle(p: Problem, s: seq<Key>) {
    Chain(p, s) && |s| >= 2 && s[0] == s[|s| - 1]
  }

  /** The dependencies that the build has linked to `key`, in order. */
  function LinksFrom(links: seq<Link>, key: Key): seq<ResolvedDependency> {
    if links == [] then []
    else
      var last := links[|links| - 1];
      LinksFrom(links[..|links| - 1], key) + (if last.from == key then [last.dep] else [])
  }
}
