/**
 Resolving the direct dependencies of a package against a candidate set.
 The semantic-version library enters as function values; a version is its canonical text.
 */
module Resolver {
  import opened Wrappers
  import opened VersionOrder

  const MAX_CANDIDATES: nat := 4096

  /** `precedes` orders versions, `satisfies` tells whether a version meets a requirement. */
  datatype Semver = Semver(
    isVersion: string -> bool,
    isRequirement: string -> bool,
    precedes: Precedence,
    satisfies: (string, string) -> bool,
    major: string -> nat)

  datatype Visibility = Private | Dependency | Public

  datatype Service = Service(interface: string, visibility: Visibility)

  datatype CartridgeDependency = CartridgeDependency(
    alias: string, cartridge: string, requirement: string, interfaces: seq<string>, optional: bool)

  /** `restValid` is the verdict on the parts of a manifest that resolution does not read. */
  datatype Manifest = Manifest(
    id: string,
    version: string,
    dependencies: seq<CartridgeDependency>,
    services: seq<Service>,
    restValid: bool)

  datatype ResolvedDependency = ResolvedDependency(
    alias: string, cartridge: string, version: string, interfaces: seq<string>)

  datatype UnavailableDependency = UnavailableDependency(alias: string, cartridge: string)

  datatype Plan = Plan(resolved: seq<ResolvedDependency>, unavailable: seq<UnavailableDependency>)

  /** The texts of the errors are left out, with the package that a duplicate error names. */
  datatype ResolveError =
    | CandidateLimit
    | InvalidManifest
    | DuplicateCandidate
    | RequiredUnavailable(alias: string)

  predicate ValidManifest(sv: Semver, m: Manifest) {
    && m.restValid
    && sv.isVersion(m.version)
    && (forall d <- m.dependencies :: d.cartridge != m.id && sv.isRequirement(d.requirement) && d.interfaces != [])
    && (forall i, j :: 0 <= i < j < |m.dependencies| ==>
          && m.dependencies[i].alias != m.dependencies[j].alias
          && m.dependencies[i].cartridge != m.dependencies[j].cartridge)
  }

  // Which candidate a dependency gets

  /** The candidate is of the requested package and its version meets the range. */
  predicate Matches(sv: Semver, d: CartridgeDependency, c: Manifest) {
    c.id == d.cartridge && sv.isVersion(c.version) && sv.satisfies(d.requirement, c.version)
  }

  function PublicInterfaces(c: Manifest): set<string> {
    set s | s in c.services && s.visibility != Private :: s.interface
  }

  predicate Provides(d: CartridgeDependency, c: Manifest) {
    forall i <- d.interfaces :: i in PublicInterfaces(c)
  }

  predicate Suitable(sv: Semver, d: CartridgeDependency, c: Manifest) {
    Matches(sv, d, c) && Provides(d, c)
  }

  function SuitableVersions(sv: Semver, d: CartridgeDependency, candidates: set<Manifest>): set<string> {
    set c | c in candidates && Suitable(sv, d, c) :: c.version
  }

  ghost function Best(sv: Semver, d: CartridgeDependency, candidates: set<Manifest>): Option<string> {
    var versions := SuitableVersions(sv, d, candidates);
    if versions == {} then None else Some(Newest(sv.precedes, versions))
  }

  // Resolution as a function of the set of candidates

  /** Adds one dependency to a plan: with its version, as unavailable if optional, or not at all. */
  function Place(p: Plan, d: CartridgeDependency, best: Option<string>): Result<Plan, ResolveError> {
    match best
    case Some(v) => Ok(p.(resolved := p.resolved + [ResolvedDependency(d.alias, d.cartridge, v, d.interfaces)]))
    case None =>
      if d.optional then Ok(p.(unavailable := p.unavailable + [UnavailableDependency(d.alias, d.cartridge)]))
      else Err(RequiredUnavailable(d.alias))
  }

  ghost function ResolveFrom(sv: Semver, dependencies: seq<CartridgeDependency>, candidates: set<Manifest>)
    : Result<Plan, ResolveError>
  {
    if dependencies == [] then Ok(Plan([], []))
    else
      var d := dependencies[|dependencies| - 1];
      match ResolveFrom(sv, dependencies[..|dependencies| - 1], candidates)
      case Err(e) => Err(e)
      case Ok(p) => Place(p, d, Best(sv, d, candidates))
  }

  predicate SamePackage(a: Manifest, b: Manifest) {
    a.id == b.id && a.version == b.version
  }

  predicate DistinctPackages(candidates: seq<Manifest>) {
    forall i, j :: 0 <= i < j < |candidates| ==> !SamePackage(candidates[i], candidates[j])
  }

  function SetOf(candidates: seq<Manifest>): set<Manifest> {
    set c | c in candidates
  }

  ghost function Resolve(sv: Semver, root: Manifest, candidates: seq<Manifest>): Result<Plan, ResolveError> {
    if |candidates| > MAX_CANDIDATES then Err(CandidateLimit)
    else if !ValidManifest(sv, root) || (exists c <- candidates :: !ValidManifest(sv, c)) then Err(InvalidManifest)
    else if !DistinctPackages(candidates) then Err(DuplicateCandidate)
    else ResolveFrom(sv, root.dependencies, SetOf(candidates))
  }

  // The computation

  /** Newest first. */
  predicate Descending(sv: Semver, s: seq<Manifest>) {
    forall i, j :: 0 <= i < j < |s| ==> !sv.precedes(s[i].version, s[j].version)
  }

  /** Inserts behind every candidate that is not older, as a stable descending sort does. */
  method InsertDescending(sv: Semver, sorted: seq<Manifest>, c: Manifest) returns (r: seq<Manifest>)
    requires StrictTotal(sv.precedes) && Descending(sv, sorted)
    ensures Descending(sv, r) && SetOf(r) == SetOf(sorted) + {c}
  {
    var k := 0;
    while k < |sorted| && !sv.precedes(sorted[k].version, c.version)
      invariant 0 <= k <= |sorted|
      invariant forall i :: 0 <= i < k ==> !sv.precedes(sorted[i].version, c.version)
    {
      k := k + 1;
    }
    r := sorted[..k] + [c] + sorted[k..];
    if k < |sorted| {
      forall j | k <= j < |sorted| ensures !sv.precedes(c.version, sorted[j].version) {
        Behind(sv, c, sorted[k], sorted[j]);
      }
    }
    forall x ensures x in r <==> x in sorted || x == c {
      assert sorted == sorted[..k] + sorted[k..];
    }
  }

  lemma Behind(sv: Semver, c: Manifest, older: Manifest, later: Manifest)
    requires StrictTotal(sv.precedes) && sv.precedes(older.version, c.version)
    requires older == later || !sv.precedes(older.version, later.version)
    ensures !sv.precedes(c.version, later.version)
  {
  }

  /** The candidates that match, newest first. */
  method MatchingDescending(sv: Semver, d: CartridgeDependency, candidates: seq<Manifest>) returns (r: seq<Manifest>)
    requires StrictTotal(sv.precedes)
    ensures Descending(sv, r)
    ensures forall c :: c in r <==> c in candidates && Matches(sv, d, c)
  {
    r := [];
    for i := 0 to |candidates|
      invariant Descending(sv, r)
      invariant forall c :: c in r <==> c in candidates[..i] && Matches(sv, d, c)
    {
      if Matches(sv, d, candidates[i]) {
        ghost var before := r;
        r := InsertDescending(sv, r, candidates[i]);
        assert forall c :: c in r <==> c in SetOf(r);
        assert forall c :: c in before <==> c in SetOf(before);
      }
      assert candidates[..i + 1] == candidates[..i] + [candidates[i]];
    }
    assert candidates[..|candidates|] == candidates;
  }

  /** Finds the newest matching candidate that provides every requested interface. */
  method FindProvider(sv: Semver, d: CartridgeDependency, candidates: seq<Manifest>) returns (r: Option<string>)
    requires StrictTotal(sv.precedes)
    ensures r == Best(sv, d, SetOf(candidates))
  {
    var matching := MatchingDescending(sv, d, candidates);
    for i := 0 to |matching|
      invariant forall j :: 0 <= j < i ==> !Provides(d, matching[j])
    {
      if Provides(d, matching[i]) {
        FirstIsBest(sv, d, candidates, matching, i);
        return Some(matching[i].version);
      }
    }
    return None;
  }

  lemma FirstIsBest(sv: Semver, d: CartridgeDependency, candidates: seq<Manifest>, matching: seq<Manifest>, i: nat)
    requires StrictTotal(sv.precedes) && Descending(sv, matching) && i < |matching| && Provides(d, matching[i])
    requires forall c :: c in matching <==> c in candidates && Matches(sv, d, c)
    requires forall j :: 0 <= j < i ==> !Provides(d, matching[j])
    ensures Best(sv, d, SetOf(candidates)) == Some(matching[i].version)
  {
    var versions := SuitableVersions(sv, d, SetOf(candidates));
    assert matching[i] in matching;
    forall w <- versions | w != matching[i].version ensures sv.precedes(w, matching[i].version) {
      var c :| c in SetOf(candidates) && Suitable(sv, d, c) && c.version == w;
      assert c in matching;
      var j :| 0 <= j < |matching| && matching[j] == c;
    }
    assert matching[i].version in versions;
    NewestIsUnique(sv.precedes, versions, matching[i].version);
  }

  method ResolveDependencies(sv: Semver, root: Manifest, candidates: seq<Manifest>)
    returns (r: Result<Plan, ResolveError>)
    requires StrictTotal(sv.precedes)
    ensures r == Resolve(sv, root, candidates)
  {
    if |candidates| > MAX_CANDIDATES {
      return Err(CandidateLimit);
    }
    if !ValidManifest(sv, root) {
      return Err(InvalidManifest);
    }
    for i := 0 to |candidates|
      invariant forall j :: 0 <= j < i ==> ValidManifest(sv, candidates[j])
    {
      if !ValidManifest(sv, candidates[i]) {
        return Err(InvalidManifest);
      }
    }
    var distinct := AllDistinct(candidates);
    if !distinct {
      return Err(DuplicateCandidate);
    }
    var resolved: seq<ResolvedDependency> := [];
    var unavailable: seq<UnavailableDependency> := [];
    ghost var all := SetOf(candidates);
    for i := 0 to |root.dependencies|
      invariant ResolveFrom(sv, root.dependencies[..i], all) == Ok(Plan(resolved, unavailable))
    {
      var d := root.dependencies[i];
      assert root.dependencies[..i + 1][..i] == root.dependencies[..i];
      var provider := FindProvider(sv, d, candidates);
      if provider.Some? {
        resolved := resolved + [ResolvedDependency(d.alias, d.cartridge, provider.value, d.interfaces)];
      } else if d.optional {
        unavailable := unavailable + [UnavailableDependency(d.alias, d.cartridge)];
      } else {
        FailureIsFinal(sv, root.dependencies, i + 1, all);
        return Err(RequiredUnavailable(d.alias));
      }
    }
    assert root.dependencies[..|root.dependencies|] == root.dependencies;
    return Ok(Plan(resolved, unavailable));
  }

  lemma {:induction false} FailureIsFinal(sv: Semver, ds: seq<CartridgeDependency>, i: nat, candidates: set<Manifest>)
    requires i <= |ds| && ResolveFrom(sv, ds[..i], candidates).Err?
    ensures ResolveFrom(sv, ds, candidates) == ResolveFrom(sv, ds[..i], candidates)
    decreases |ds|
  {
    if i < |ds| {
      var n := |ds| - 1;
      assert ds[..n][..i] == ds[..i];
      FailureIsFinal(sv, ds[..n], i, candidates);
    } else {
      assert ds[..i] == ds;
    }
  }

  method AllDistinct(candidates: seq<Manifest>) returns (r: bool)
    ensures r == DistinctPackages(candidates)
  {
    var seen: set<(string, string)> := {};
    for i := 0 to |candidates|
      invariant DistinctPackages(candidates[..i])
      invariant forall p :: p in seen <==> exists j :: 0 <= j < i && (candidates[j].id, candidates[j].version) == p
    {
      if (candidates[i].id, candidates[i].version) in seen {
        var j :| 0 <= j < i && (candidates[j].id, candidates[j].version) == (candidates[i].id, candidates[i].version);
        assert SamePackage(candidates[j], candidates[i]);
        return false;
      }
      seen := seen + {(candidates[i].id, candidates[i].version)};
    }
    assert candidates[..|candidates|] == candidates;
    return true;
  }

  // What resolution promises

  /** A candidate of the package, in the range, with a service that is not private for each requested interface. */
  predicate Fits(sv: Semver, d: CartridgeDependency, c: Manifest) {
    && c.id == d.cartridge && sv.isVersion(c.version) && sv.satisfies(d.requirement, c.version)
    && forall i <- d.interfaces :: exists service <- c.services ::
         service.interface == i && service.visibility != Private
  }

  lemma SuitableFits(sv: Semver, d: CartridgeDependency, c: Manifest)
    ensures Suitable(sv, d, c) <==> Fits(sv, d, c)
  {
  }

  /** The chosen version is that of a candidate that fits, none that fits is newer, and there is one if any fits. */
  lemma BestIsHighest(sv: Semver, d: CartridgeDependency, candidates: set<Manifest>)
    requires StrictTotal(sv.precedes)
    ensures Best(sv, d, candidates).None? <==> forall c <- candidates :: !Fits(sv, d, c)
    ensures Best(sv, d, candidates).Some? ==>
              && (exists c <- candidates :: Fits(sv, d, c) && c.version == Best(sv, d, candidates).value)
              && (forall c <- candidates :: Fits(sv, d, c) ==>
                    c.version == Best(sv, d, candidates).value || sv.precedes(c.version, Best(sv, d, candidates).value))
  {
    var versions := SuitableVersions(sv, d, candidates);
    forall c <- candidates ensures Suitable(sv, d, c) <==> Fits(sv, d, c) {
      SuitableFits(sv, d, c);
    }
    forall c <- candidates | Suitable(sv, d, c) ensures c.version in versions {
    }
    if versions != {} {
      NewestExists(sv.precedes, versions);
    }
  }

  function ResolvedAliases(s: seq<ResolvedDependency>): multiset<string> {
    if s == [] then multiset{} else ResolvedAliases(s[..|s| - 1]) + multiset{s[|s| - 1].alias}
  }

  function UnavailableAliases(s: seq<UnavailableDependency>): multiset<string> {
    if s == [] then multiset{} else UnavailableAliases(s[..|s| - 1]) + multiset{s[|s| - 1].alias}
  }

  function DependencyAliases(s: seq<CartridgeDependency>): multiset<string> {
    if s == [] then multiset{} else DependencyAliases(s[..|s| - 1]) + multiset{s[|s| - 1].alias}
  }

  ghost predicate Stands(sv: Semver, candidates: set<Manifest>, d: CartridgeDependency, p: Plan) {
    match Best(sv, d, candidates)
    case Some(v) => ResolvedDependency(d.alias, d.cartridge, v, d.interfaces) in p.resolved
    case None => d.optional && UnavailableDependency(d.alias, d.cartridge) in p.unavailable
  }

  /** Every dependency stands in the plan, with its best version or, if it is optional, as unavailable. */
  lemma {:induction false} PlanIsComplete(sv: Semver, ds: seq<CartridgeDependency>, candidates: set<Manifest>)
    requires ResolveFrom(sv, ds, candidates).Ok?
    ensures forall d <- ds :: Stands(sv, candidates, d, ResolveFrom(sv, ds, candidates).value)
  {
    if ds != [] {
      var n := |ds| - 1;
      PlanIsComplete(sv, ds[..n], candidates);
      forall d <- ds ensures Stands(sv, candidates, d, ResolveFrom(sv, ds, candidates).value) {
        if d in ds[..n] {
          assert Stands(sv, candidates, d, ResolveFrom(sv, ds[..n], candidates).value);
        } else {
          assert d == ds[n];
        }
      }
    }
  }

  lemma PlaceAddsAlias(p: Plan, d: CartridgeDependency, best: Option<string>)
    requires Place(p, d, best).Ok?
    ensures var q := Place(p, d, best).value;
            ResolvedAliases(q.resolved) + UnavailableAliases(q.unavailable)
            == ResolvedAliases(p.resolved) + UnavailableAliases(p.unavailable) + multiset{d.alias}
  {
    var q := Place(p, d, best).value;
    if best.Some? {
      assert q.resolved[..|q.resolved| - 1] == p.resolved;
    } else {
      assert q.unavailable[..|q.unavailable| - 1] == p.unavailable;
    }
  }

  /** No alias is lost, added or repeated: the plan's aliases are the dependencies' aliases. */
  lemma {:induction false} PlanConservesAliases(sv: Semver, ds: seq<CartridgeDependency>, candidates: set<Manifest>)
    requires ResolveFrom(sv, ds, candidates).Ok?
    ensures var p := ResolveFrom(sv, ds, candidates).value;
            ResolvedAliases(p.resolved) + UnavailableAliases(p.unavailable) == DependencyAliases(ds)
  {
    if ds != [] {
      var n := |ds| - 1;
      PlanConservesAliases(sv, ds[..n], candidates);
      PlaceAddsAlias(ResolveFrom(sv, ds[..n], candidates).value, ds[n], Best(sv, ds[n], candidates));
    }
  }

  ghost predicate Missing(sv: Semver, candidates: set<Manifest>, d: CartridgeDependency) {
    !d.optional && Best(sv, d, candidates).None?
  }

  /** Resolution fails exactly when a required dependency has no suitable candidate, and names the first such one. */
  lemma {:induction false} FailsAtFirstMissing(sv: Semver, ds: seq<CartridgeDependency>, candidates: set<Manifest>)
    ensures match ResolveFrom(sv, ds, candidates)
            case Ok(_) => forall d <- ds :: !Missing(sv, candidates, d)
            case Err(e) =>
              exists i :: 0 <= i < |ds| && Missing(sv, candidates, ds[i]) && e == RequiredUnavailable(ds[i].alias)
                && forall j :: 0 <= j < i ==> !Missing(sv, candidates, ds[j])
  {
    if ds != [] {
      var n := |ds| - 1;
      FailsAtFirstMissing(sv, ds[..n], candidates);
      match ResolveFrom(sv, ds[..n], candidates)
      case Ok(_) =>
        forall j | 0 <= j < n ensures !Missing(sv, candidates, ds[j]) {
          assert ds[j] == ds[..n][j];
        }
      case Err(e) =>
        var i :| 0 <= i < n && Missing(sv, candidates, ds[..n][i]) && e == RequiredUnavailable(ds[..n][i].alias)
                 && forall j :: 0 <= j < i ==> !Missing(sv, candidates, ds[..n][j]);
        assert ds[i] == ds[..n][i];
        assert forall j :: 0 <= j < i ==> ds[j] == ds[..n][j];
    }
  }

  /** The order in which the candidates are listed does not matter. */
  lemma PermutationInvariant(sv: Semver, root: Manifest, a: seq<Manifest>, b: seq<Manifest>)
    requires multiset(a) == multiset(b)
    ensures Resolve(sv, root, a) == Resolve(sv, root, b)
  {
    assert |a| == |multiset(a)| == |multiset(b)| == |b|;
    forall c ensures c in a <==> c in b {
      assert c in a <==> c in multiset(a);
      assert c in b <==> c in multiset(b);
    }
    assert SetOf(a) == SetOf(b);
    if DistinctPackages(a) {
      DistinctnessPermutes(a, b);
    }
    if DistinctPackages(b) {
      DistinctnessPermutes(b, a);
    }
  }

  lemma DistinctnessPermutes(a: seq<Manifest>, b: seq<Manifest>)
    requires multiset(a) == multiset(b) && DistinctPackages(a)
    ensures DistinctPackages(b)
  {
    forall i, j | 0 <= i < j < |b| ensures !SamePackage(b[i], b[j]) {
      var k := Other(a, b, i, j);
    }
  }

  function Without(s: seq<Manifest>, k: nat): seq<Manifest>
    requires k < |s|
  {
    s[..k] + s[k + 1..]
  }

  lemma WithoutOne(s: seq<Manifest>, k: nat)
    requires k < |s|
    ensures multiset(Without(s, k)) == multiset(s) - multiset{s[k]}
  {
    assert s == s[..k] + [s[k]] + s[k + 1..];
  }

  /** Two positions of a list have two positions in a permutation of it. */
  lemma Other(a: seq<Manifest>, b: seq<Manifest>, i: nat, j: nat) returns (k: (nat, nat))
    requires multiset(a) == multiset(b) && i < j < |b|
    ensures k.0 < |a| && k.1 < |a| && k.0 != k.1 && a[k.0] == b[i] && a[k.1] == b[j]
  {
    assert b[j] in multiset(a);
    var l :| 0 <= l < |a| && a[l] == b[j];
    WithoutOne(b, j);
    WithoutOne(a, l);
    assert Without(b, j)[i] == b[i];
    assert b[i] in multiset(Without(a, l));
    var m :| 0 <= m < |a| - 1 && Without(a, l)[m] == b[i];
    k := (if m < l then m else m + 1, l);
  }

  /** What resolution asks of a manifest. */
  predicate IsSane(sv: Semver, m: Manifest) {
    && m.restValid && sv.isVersion(m.version)
    && (forall d <- m.dependencies :: d.cartridge != m.id && sv.isRequirement(d.requirement) && d.interfaces != [])
    && (forall i, j :: 0 <= i < j < |m.dependencies| ==> m.dependencies[i].alias != m.dependencies[j].alias)
    && (forall i, j :: 0 <= i < j < |m.dependencies| ==> m.dependencies[i].cartridge != m.dependencies[j].cartridge)
  }

  /**
   Resolution succeeds if and only if there are at most 4096 candidates, all manifests are sane, no two candidates
   share package and version, and for every dependency that is not optional some candidate fits.
   */
  lemma ResolvesExactly(sv: Semver, root: Manifest, candidates: seq<Manifest>)
    requires StrictTotal(sv.precedes)
    ensures Resolve(sv, root, candidates).Ok? <==>
            && |candidates| <= 4096 && IsSane(sv, root) && (forall c <- candidates :: IsSane(sv, c))
            && (forall i, j :: 0 <= i < j < |candidates| ==>
                  candidates[i].id != candidates[j].id || candidates[i].version != candidates[j].version)
            && (forall d <- root.dependencies :: d.optional || exists c <- candidates :: Fits(sv, d, c))
  {
    FailsAtFirstMissing(sv, root.dependencies, SetOf(candidates));
    forall m: Manifest ensures ValidManifest(sv, m) <==> IsSane(sv, m) {
    }
    forall d <- root.dependencies
      ensures Missing(sv, SetOf(candidates), d) <==> !d.optional && forall c <- candidates :: !Fits(sv, d, c)
    {
      BestIsHighest(sv, d, SetOf(candidates));
      assert forall c :: c in candidates <==> c in SetOf(candidates);
    }
  }
}
