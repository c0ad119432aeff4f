/** State migrations: validating the declared schema edges and planning the path of one source schema. */
module Migrations {
  import opened Wrappers

  const MAX_MIGRATIONS: nat := 256

  datatype Migration = Migration(name: string, source: nat, target: nat)

  /** The part of a manifest that migrations depend on; `restValid` is the verdict on all the other parts. */
  datatype Manifest = Manifest(
    schema: nat,
    storagePermission: bool,
    migrations: seq<Migration>,
    restValid: bool)

  datatype Error =
    | StorageNotPermitted
    | TooManyMigrations
    | InvalidName(name: string)
    | DuplicateName(name: string)
    | NotIncreasing(name: string)
    | BeyondSchema(name: string)
    | DuplicateSource(source: nat)
    | LeadsNowhere(name: string)
    | InvalidElsewhere
    | NewerSchema
    | NoPath

  predicate ValidAlias(s: string) {
    && 0 < |s| <= 48
    && (forall c <- s :: 'a' <= c <= 'z' || '0' <= c <= '9' || c == '-')
    && s[0] != '-'
    && s[|s| - 1] != '-'
  }

  // What a valid declaration is

  function Sources(ms: seq<Migration>): set<nat> {
    set m | m in ms :: m.source
  }

  predicate ValidEdge(m: Manifest, e: Migration) {
    ValidAlias(e.name) && e.source < e.target <= m.schema
  }

  predicate DistinctEdges(ms: seq<Migration>) {
    forall i, j :: 0 <= i < j < |ms| ==> ms[i].name != ms[j].name && ms[i].source != ms[j].source
  }

  /** Every edge ends at the package schema or where another edge starts. */
  predicate Continues(m: Manifest, e: Migration) {
    e.target == m.schema || e.target in Sources(m.migrations)
  }

  predicate ValidState(m: Manifest) {
    && (m.schema > 0 ==> m.storagePermission)
    && |m.migrations| <= MAX_MIGRATIONS
    && GoodEdges(m, m.migrations)
    && (forall e <- m.migrations :: Continues(m, e))
  }

  /** The index of the declared edges by source, as far as they are scanned. */
  ghost predicate Indexes(index: map<nat, Migration>, ms: seq<Migration>) {
    && (forall k <- index :: index[k] in ms && index[k].source == k)
    && (forall e <- ms :: e.source in index && index[e.source] == e)
  }

  function Names(ms: seq<Migration>): set<string> {
    set m | m in ms :: m.name
  }

  predicate GoodEdges(m: Manifest, ms: seq<Migration>) {
    (forall e <- ms :: ValidEdge(m, e)) && DistinctEdges(ms)
  }

  lemma AddEdge(m: Manifest, ms: seq<Migration>, e: Migration, index: map<nat, Migration>)
    requires GoodEdges(m, ms) && Indexes(index, ms)
    requires ValidEdge(m, e) && e.name !in Names(ms) && e.source !in index
    ensures GoodEdges(m, ms + [e])
    ensures Indexes(index[e.source := e], ms + [e])
    ensures Names(ms + [e]) == Names(ms) + {e.name}
  {
  }

  lemma RepeatedEdge(ms: seq<Migration>, i: nat)
    requires i < |ms| && (ms[i].name in Names(ms[..i]) || ms[i].source in Sources(ms[..i]))
    ensures !DistinctEdges(ms)
  {
    var e :| e in ms[..i] && (ms[i].name == e.name || ms[i].source == e.source);
    var j :| 0 <= j < i && ms[j] == e;
  }

  /** The loop over the declarations: the edges are good and no name or source repeats. */
  method ScanEdges(m: Manifest) returns (r: Result<map<nat, Migration>, Error>)
    ensures r.Ok? <==> GoodEdges(m, m.migrations)
    ensures r.Ok? ==> Indexes(r.value, m.migrations)
  {
    var names: set<string> := {};
    var index: map<nat, Migration> := map[];
    for i := 0 to |m.migrations|
      invariant GoodEdges(m, m.migrations[..i])
      invariant names == Names(m.migrations[..i])
      invariant Indexes(index, m.migrations[..i])
    {
      var e := m.migrations[i];
      assert e in m.migrations;
      if !ValidAlias(e.name) {
        return Err(InvalidName(e.name));
      }
      if e.name in names {
        RepeatedEdge(m.migrations, i);
        return Err(DuplicateName(e.name));
      }
      names := names + {e.name};
      if e.source >= e.target {
        return Err(NotIncreasing(e.name));
      }
      if e.target > m.schema {
        return Err(BeyondSchema(e.name));
      }
      if e.source in index {
        RepeatedEdge(m.migrations, i);
        return Err(DuplicateSource(e.source));
      }
      AddEdge(m, m.migrations[..i], e, index);
      index := index[e.source := e];
      assert m.migrations[..i + 1] == m.migrations[..i] + [e];
    }
    assert m.migrations[..|m.migrations|] == m.migrations;
    return Ok(index);
  }

  /** Follows edges from `e`; the walk reaches the package schema unless some edge on it leads nowhere. */
  method LeadsToSchema(m: Manifest, index: map<nat, Migration>, e: Migration) returns (ok: bool)
    requires Indexes(index, m.migrations) && e in m.migrations
    requires forall d <- m.migrations :: ValidEdge(m, d)
    ensures !ok ==> exists d <- m.migrations :: !Continues(m, d)
    ensures ok ==> Continues(m, e) && exists steps :: IsPath(m, e.target, steps, m.schema)
  {
    var current := e.target;
    ghost var last := e;
    ghost var steps: seq<Migration> := [];
    while current < m.schema
      invariant current <= m.schema
      invariant last in m.migrations && last.target == current
      invariant current != e.target ==> Continues(m, e)
      invariant IsPath(m, e.target, steps, current)
      decreases m.schema - current
    {
      if current !in index {
        return false;
      }
      last := index[current];
      steps := steps + [last];
      current := index[current].target;
    }
    return true;
  }

  /** Validation accepts exactly the declarations whose edges all continue to the package schema. */
  method ValidateState(m: Manifest) returns (r: Option<Error>)
    ensures r.None? <==> ValidState(m)
  {
    if m.schema > 0 && !m.storagePermission {
      return Some(StorageNotPermitted);
    }
    if |m.migrations| > MAX_MIGRATIONS {
      return Some(TooManyMigrations);
    }
    var scanned := ScanEdges(m);
    if scanned.Err? {
      return Some(scanned.error);
    }
    for i := 0 to |m.migrations|
      invariant forall j :: 0 <= j < i ==> Continues(m, m.migrations[j])
    {
      var ok := LeadsToSchema(m, scanned.value, m.migrations[i]);
      if !ok {
        return Some(LeadsNowhere(m.migrations[i].name));
      }
    }
    return None;
  }

  // Chains

  /** A path of declared edges, each starting where the one before ended, from `source` to `end`. */
  predicate IsPath(m: Manifest, source: nat, steps: seq<Migration>, end: nat) {
    && (forall e <- steps :: e in m.migrations)
    && (if steps == [] then source == end else steps[0].source == source && steps[|steps| - 1].target == end)
    && (forall i :: 0 < i < |steps| ==> steps[i - 1].target == steps[i].source)
  }

  /** Plans the path from `source`: fails exactly when there is none, and otherwise returns the path. */
  method MigrationPlan(m: Manifest, source: nat) returns (r: Result<seq<Migration>, Error>)
    ensures r.Ok? <==> m.restValid && ValidState(m) && (source == m.schema || source in Sources(m.migrations))
    ensures r.Ok? ==> IsPath(m, source, r.value, m.schema)
    ensures m.restValid && ValidState(m) && source > m.schema ==> r == Err(NewerSchema)
  {
    var invalid := ValidateState(m);
    if invalid.Some? {
      return Err(invalid.value);
    }
    if !m.restValid {
      return Err(InvalidElsewhere);
    }
    if source > m.schema {
      return Err(NewerSchema);
    }
    var scanned := ScanEdges(m);
    var index := scanned.value;
    var current := source;
    var steps: seq<Migration> := [];
    while current < m.schema
      invariant current <= m.schema
      invariant IsPath(m, source, steps, current)
      invariant current == source || current == m.schema || current in Sources(m.migrations)
      decreases m.schema - current
    {
      if current !in index {
        return Err(NoPath);
      }
      steps := steps + [index[current]];
      assert Continues(m, index[current]);
      current := index[current].target;
    }
    return Ok(steps);
  }

  // Properties of every plan

  /** Along a path of valid edges the schema strictly increases. */
  lemma {:induction false} PathIncreases(m: Manifest, source: nat, steps: seq<Migration>, end: nat, i: nat, j: nat)
    requires ValidState(m) && IsPath(m, source, steps, end) && i < j < |steps|
    ensures steps[i].source < steps[i].target <= steps[j].source < steps[j].target
    decreases j
  {
    assert ValidEdge(m, steps[i]) && ValidEdge(m, steps[j]);
    if i + 1 < j {
      PathIncreases(m, source, steps, end, i, j - 1);
    }
  }

  function Starts(steps: seq<Migration>): seq<nat> {
    seq(|steps|, i requires 0 <= i < |steps| => steps[i].source)
  }

  function Members(s: seq<nat>): set<nat> {
    set x | x in s
  }

  lemma {:induction false} DistinctCount(s: seq<nat>)
    requires forall i, j :: 0 <= i < j < |s| ==> s[i] != s[j]
    ensures |Members(s)| == |s|
  {
    if s != [] {
      var rest := s[1..];
      DistinctCount(rest);
      assert s == [s[0]] + rest;
      assert Members(s) == {s[0]} + Members(rest);
      assert s[0] !in rest;
    }
  }

  lemma {:induction false} SourcesBounded(ms: seq<Migration>)
    ensures |Sources(ms)| <= |ms|
  {
    if ms != [] {
      SourcesBounded(ms[1..]);
      assert ms == [ms[0]] + ms[1..];
      assert Sources(ms) == {ms[0].source} + Sources(ms[1..]);
    }
  }

  /** A plan never has more steps than there are declared migrations. */
  lemma PathIsShort(m: Manifest, source: nat, steps: seq<Migration>, end: nat)
    requires ValidState(m) && IsPath(m, source, steps, end)
    ensures |steps| <= |m.migrations|
  {
    var starts := Starts(steps);
    forall i, j | 0 <= i < j < |starts| ensures starts[i] != starts[j] {
      PathIncreases(m, source, steps, end, i, j);
    }
    DistinctCount(starts);
    SourcesBounded(m.migrations);
    forall x | x in Members(starts) ensures x in Sources(m.migrations) {
      var i :| 0 <= i < |starts| && starts[i] == x;
      assert steps[i] in m.migrations;
    }
    SubsetSize(Members(starts), Sources(m.migrations));
  }

  lemma SubsetSize(a: set<nat>, b: set<nat>)
    requires a <= b
    ensures |a| <= |b|
  {
    assert b == a + (b - a);
  }

  /** There is only one path to the package schema, so the plan is the only possible one. */
  lemma {:induction false} PathIsUnique(m: Manifest, source: nat, a: seq<Migration>, b: seq<Migration>)
    requires ValidState(m) && IsPath(m, source, a, m.schema) && IsPath(m, source, b, m.schema)
    ensures a == b
    decreases |a|
  {
    if a != [] && b != [] {
      assert a[0] in m.migrations && b[0] in m.migrations;
      var i :| 0 <= i < |m.migrations| && m.migrations[i] == a[0];
      var j :| 0 <= j < |m.migrations| && m.migrations[j] == b[0];
      assert a[0] == b[0];
      PathTail(m, source, a, m.schema);
      PathTail(m, source, b, m.schema);
      PathIsUnique(m, a[0].target, a[1..], b[1..]);
      assert a == [a[0]] + a[1..] && b == [b[0]] + b[1..];
    } else if a != [] {
      PathRises(m, source, a, m.schema);
    } else if b != [] {
      PathRises(m, source, b, m.schema);
    }
  }

  lemma PathTail(m: Manifest, source: nat, steps: seq<Migration>, end: nat)
    requires IsPath(m, source, steps, end) && steps != []
    ensures IsPath(m, steps[0].target, steps[1..], end)
  {
    assert forall e <- steps[1..] :: e in steps;
  }

  lemma PathRises(m: Manifest, source: nat, steps: seq<Migration>, end: nat)
    requires ValidState(m) && IsPath(m, source, steps, end) && steps != []
    ensures source < end
  {
    var n := |steps| - 1;
    assert ValidEdge(m, steps[0]) && ValidEdge(m, steps[n]);
    if n > 0 {
      PathIncreases(m, source, steps, end, 0, n);
    }
  }

  /** Names are up to 48 lower-case letters, digits and inner hyphens. */
  predicate IsName(s: string) {
    && 1 <= |s| <= 48 && s[0] != '-' && s[|s| - 1] != '-'
    && forall c <- s :: 'a' <= c <= 'z' || '0' <= c <= '9' || c == '-'
  }

  /** What a declaration of migrations has to satisfy. */
  lemma StateIsValidExactly(m: Manifest)
    ensures ValidState(m) <==>
            && (m.schema == 0 || m.storagePermission) && |m.migrations| <= 256
            && (forall e <- m.migrations :: IsName(e.name) && e.source < e.target && e.target <= m.schema)
            && (forall i, j :: 0 <= i < j < |m.migrations| ==> m.migrations[i].name != m.migrations[j].name)
            && (forall i, j :: 0 <= i < j < |m.migrations| ==> m.migrations[i].source != m.migrations[j].source)
            && (forall e <- m.migrations :: e.target == m.schema || exists d <- m.migrations :: d.source == e.target)
  {
    assert forall e <- m.migrations :: ValidAlias(e.name) <==> IsName(e.name);
  }
}
