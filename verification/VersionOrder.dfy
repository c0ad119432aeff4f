/** Version precedence as a function value, and the newest version of a set. */
module VersionOrder {
  type Precedence = (string, string) -> bool

  ghost predicate StrictTotal(precedes: Precedence) {
    && (forall a, b :: precedes(a, b) ==> !precedes(b, a))
    && (forall a, b, c :: precedes(a, b) && precedes(b, c) ==> precedes(a, c))
    && (forall a, b :: a != b ==> precedes(a, b) || precedes(b, a))
  }

  ghost predicate IsNewest(precedes: Precedence, versions: set<string>, v: string) {
    v in versions && forall w <- versions :: w != v ==> precedes(w, v)
  }

  ghost function Newest(precedes: Precedence, versions: set<string>): string {
    if exists v :: IsNewest(precedes, versions, v) then
      var v :| IsNewest(precedes, versions, v); v
    else ""
  }

  lemma {:induction false} NewestExists(precedes: Precedence, versions: set<string>)
    requires StrictTotal(precedes) && versions != {}
    ensures IsNewest(precedes, versions, Newest(precedes, versions))
  {
    var v :| v in versions;
    var rest := versions - {v};
    assert forall u <- versions :: u == v || u in rest;
    if rest == {} {
      assert IsNewest(precedes, versions, v);
    } else {
      NewestExists(precedes, rest);
      var w := Newest(precedes, rest);
      assert IsNewest(precedes, versions, if precedes(w, v) then v else w);
    }
  }

  lemma NewestIsUnique(precedes: Precedence, versions: set<string>, v: string)
    requires StrictTotal(precedes) && IsNewest(precedes, versions, v)
    ensures Newest(precedes, versions) == v
  {
  }
}
