/**
 The rolling-update scheduler of one instance: from the observed sets of replica ordinals it decides
 whether to start candidates, drain previous replicas, wait, complete or roll back.
 Ordinals and counts are `nat`: a valid policy bounds every replica count by 32, so the
 16-bit sums of the scheduler cannot wrap.
 */
module Rolling {
  import opened Wrappers

  const MAX_STACK_REPLICAS: nat := 32
  const MIN_PROGRESS_DEADLINE_MS: nat := 1_000
  const MAX_PROGRESS_DEADLINE_MS: nat := 60 * 60 * 1_000
  const MAX_MIN_READY_MS: nat := 5 * 60 * 1_000
  const MAX_DRAIN_TIMEOUT_MS: nat := 5 * 60 * 1_000

  datatype Order = StartFirst | StopFirst

  datatype Policy = Policy(
    order: Order,
    maxSurge: nat,
    maxUnavailable: nat,
    minReadyMs: nat,
    progressDeadlineMs: nat,
    drainTimeoutMs: nat)

  datatype Observation = Observation(
    previousReplicas: nat,
    candidateReplicas: nat,
    previousActive: set<nat>,
    previousReady: set<nat>,
    candidateActive: set<nat>,
    candidateReady: set<nat>,
    candidateAvailable: set<nat>,
    candidateTerminal: set<nat>,
    elapsedSinceProgressMs: nat)

  datatype WaitReason = CandidateReadiness | MinimumReadyTime | AvailabilityBudget

  datatype RollbackReason = CandidateFailed | ProgressDeadline

  datatype Action =
    | StartCandidate(ordinals: seq<nat>)
    | DrainPrevious(ordinals: seq<nat>, timeoutMs: nat)
    | Wait(reason: WaitReason)
    | Complete
    | Rollback(cause: RollbackReason)

  predicate ChangesReplicas(a: Action) {
    a.StartCandidate? || a.DrainPrevious?
  }

  datatype Error = InvalidPolicy | InconsistentObservation | OverSurge

  function Max(a: nat, b: nat): nat { if a < b then b else a }

  function Min(a: nat, b: nat): nat { if a < b then a else b }

  function Minus(a: nat, b: nat): nat { if a < b then 0 else a - b }

  predicate ValidPolicy(p: Policy, replicas: nat) {
    && 0 < replicas <= MAX_STACK_REPLICAS
    && p.maxSurge <= replicas
    && p.maxUnavailable <= replicas
    && !(p.maxSurge == 0 && p.maxUnavailable == 0)
    && p.minReadyMs <= MAX_MIN_READY_MS
    && MIN_PROGRESS_DEADLINE_MS <= p.progressDeadlineMs <= MAX_PROGRESS_DEADLINE_MS
    && p.minReadyMs < p.progressDeadlineMs
    && p.drainTimeoutMs <= MAX_DRAIN_TIMEOUT_MS
    && p.drainTimeoutMs < p.progressDeadlineMs
  }

  predicate Within(s: set<nat>, n: nat) {
    forall x <- s :: 0 < x <= n
  }

  predicate Consistent(o: Observation) {
    && Within(o.previousActive, o.previousReplicas)
    && Within(o.candidateActive, o.candidateReplicas)
    && Within(o.candidateTerminal, o.candidateReplicas)
    && o.previousReady <= o.previousActive
    && o.candidateReady <= o.candidateActive
    && o.candidateAvailable <= o.candidateReady
    && o.candidateTerminal !! o.candidateActive
  }

  function Active(o: Observation): nat {
    |o.previousActive| + |o.candidateActive|
  }

  function Replicas(o: Observation): nat {
    Max(o.previousReplicas, o.candidateReplicas)
  }

  /** The surge limit: no more than this many replicas of both generations may be active. */
  function Capacity(o: Observation, p: Policy): nat {
    Replicas(o) + p.maxSurge
  }

  function Validate(o: Observation, p: Policy): Option<Error> {
    if !ValidPolicy(p, Replicas(o)) then Some(InvalidPolicy)
    else if !Consistent(o) then Some(InconsistentObservation)
    else if Active(o) > Capacity(o, p) then Some(OverSurge)
    else None
  }

  predicate Valid(o: Observation, p: Policy) {
    Validate(o, p).None?
  }

  // Ordered iteration over a set of ordinals

  /** The first `count` members of `s` between `lo` and `hi`, in ascending order. */
  function TakeAscending(s: set<nat>, lo: nat, hi: nat, count: nat): seq<nat>
    decreases hi + 1 - lo
  {
    if lo > hi || count == 0 then []
    else if lo in s then [lo] + TakeAscending(s, lo + 1, hi, count - 1)
    else TakeAscending(s, lo + 1, hi, count)
  }

  function Insert(x: nat, s: seq<nat>): seq<nat> {
    if s == [] || x <= s[0] then [x] + s else [s[0]] + Insert(x, s[1..])
  }

  function Sort(s: seq<nat>): seq<nat> {
    if s == [] then [] else Insert(s[0], Sort(s[1..]))
  }

  function Range(lo: nat, hi: nat): (r: set<nat>)
    ensures forall x :: x in r <==> lo <= x <= hi
    decreases hi + 1 - lo
  {
    if lo > hi then {} else {lo} + Range(lo + 1, hi)
  }

  function Between(s: set<nat>, lo: nat, hi: nat): set<nat> {
    set x | x in s && lo <= x <= hi
  }

  function Elements(s: seq<nat>): set<nat> {
    set x | x in s
  }

  predicate Ascending(s: seq<nat>) {
    forall i :: 1 <= i < |s| ==> s[i - 1] < s[i]
  }

  // The decision

  /** The candidate ordinals a start may use. */
  function Free(o: Observation): set<nat> {
    Range(1, o.candidateReplicas) - o.candidateActive - o.candidateTerminal
  }

  function StartCount(o: Observation, p: Policy): nat {
    Min(Minus(o.candidateReplicas, |o.candidateActive|), Minus(Capacity(o, p), Active(o)))
  }

  function StartAction(o: Observation, p: Policy): Option<Action> {
    if StartCount(o, p) == 0 then None
    else
      var ordinals := TakeAscending(Free(o), 1, o.candidateReplicas, StartCount(o, p));
      if ordinals == [] then None else Some(StartCandidate(ordinals))
  }

  function MinimumAvailable(o: Observation, p: Policy): nat {
    Minus(o.candidateReplicas, p.maxUnavailable)
  }

  /** Replicas that serve: ready previous ones and available candidates. */
  function Serving(o: Observation): nat {
    |o.previousReady| + |o.candidateAvailable|
  }

  function Unready(o: Observation): set<nat> {
    o.previousActive - o.previousReady
  }

  function DrainBudget(o: Observation, p: Policy): nat {
    Minus(Serving(o), MinimumAvailable(o, p))
  }

  function DrainList(o: Observation, p: Policy): seq<nat> {
    TakeAscending(Unready(o), 1, o.previousReplicas, |Unready(o)|)
    + TakeAscending(o.previousReady, 1, o.previousReplicas, DrainBudget(o, p))
  }

  function DrainAction(o: Observation, p: Policy): Option<Action> {
    if o.previousActive == {} then None
    else
      var ordinals := DrainList(o, p);
      if ordinals == [] then None else Some(DrainPrevious(Sort(ordinals), p.drainTimeoutMs))
  }

  function OrElse(a: Option<Action>, b: Option<Action>): Option<Action> {
    if a.Some? then a else b
  }

  function PreferredAction(o: Observation, p: Policy): Option<Action> {
    match p.order
    case StartFirst => OrElse(StartAction(o, p), DrainAction(o, p))
    case StopFirst => OrElse(DrainAction(o, p), StartAction(o, p))
  }

  function Next(o: Observation, p: Policy): Result<Action, Error> {
    match Validate(o, p)
    case Some(e) => Err(e)
    case None =>
      if o.candidateTerminal != {} then Ok(Rollback(CandidateFailed))
      else if o.previousActive == {} && |o.candidateAvailable| == o.candidateReplicas then Ok(Complete)
      else if o.elapsedSinceProgressMs >= p.progressDeadlineMs then Ok(Rollback(ProgressDeadline))
      else
        match PreferredAction(o, p)
        case Some(action) => Ok(action)
        case None =>
          Ok(Wait(if |o.candidateReady| < |o.candidateActive| then CandidateReadiness
                  else if |o.candidateAvailable| < |o.candidateReady| then MinimumReadyTime
                  else AvailabilityBudget))
  }

  // Facts about sets and ordered selections

  lemma {:induction false} RangeSize(lo: nat, hi: nat)
    ensures |Range(lo, hi)| == if lo <= hi then hi + 1 - lo else 0
    decreases hi + 1 - lo
  {
    if lo <= hi {
      RangeSize(lo + 1, hi);
      assert Range(lo, hi) == {lo} + Range(lo + 1, hi);
    } else {
      assert Range(lo, hi) == {};
    }
  }

  lemma SubsetSize<T>(a: set<T>, b: set<T>)
    requires a <= b
    ensures |b - a| == |b| - |a|
    ensures |a| <= |b|
    ensures |a| == |b| ==> a == b
  {
    assert b == a + (b - a);
    assert a !! (b - a);
    if |a| == |b| {
      assert b - a == {};
    }
  }

  lemma WithinSize(s: set<nat>, n: nat)
    requires Within(s, n)
    ensures s <= Range(1, n)
    ensures |Range(1, n) - s| == n - |s|
    ensures |s| <= n
    ensures |s| == n ==> s == Range(1, n)
  {
    RangeSize(1, n);
    SubsetSize(s, Range(1, n));
  }

  lemma ElementsOfCons(x: nat, t: seq<nat>)
    ensures Elements([x] + t) == {x} + Elements(t)
  {
  }

  lemma ElementsOfSum(s: seq<nat>, t: seq<nat>)
    ensures Elements(s + t) == Elements(s) + Elements(t)
  {
  }

  /** Taking in ascending order selects members of the set, as many as asked for or as there are. */
  lemma {:induction false} TakeAscendingCounts(s: set<nat>, lo: nat, hi: nat, count: nat)
    ensures var r := TakeAscending(s, lo, hi, count);
            && Elements(r) <= Between(s, lo, hi)
            && |Elements(r)| == |r| == Min(count, |Between(s, lo, hi)|)
    decreases hi + 1 - lo
  {
    if lo > hi {
      assert Between(s, lo, hi) == {};
    } else if count == 0 {
      assert Elements([]) == {};
    } else if lo in s {
      var t := TakeAscending(s, lo + 1, hi, count - 1);
      TakeAscendingCounts(s, lo + 1, hi, count - 1);
      ElementsOfCons(lo, t);
      assert Between(s, lo, hi) == {lo} + Between(s, lo + 1, hi);
      assert lo !in Elements(t);
    } else {
      TakeAscendingCounts(s, lo + 1, hi, count);
      assert Between(s, lo, hi) == Between(s, lo + 1, hi);
    }
  }

  /** What is taken is listed in ascending order and lies below every member left behind. */
  lemma {:induction false} TakeAscendingLowest(s: set<nat>, lo: nat, hi: nat, count: nat)
    ensures var r := TakeAscending(s, lo, hi, count);
            && Ascending(r)
            && (forall y <- r :: lo <= y)
            && (forall x, y :: x in s && lo <= x <= hi && x !in r && y in r ==> y < x)
    decreases hi + 1 - lo
  {
    if lo <= hi && count != 0 {
      var t := TakeAscending(s, lo + 1, hi, if lo in s then count - 1 else count);
      TakeAscendingLowest(s, lo + 1, hi, if lo in s then count - 1 else count);
      if lo in s && t != [] {
        assert t[0] in t;
      }
    }
  }

  lemma {:induction false} InsertSpec(x: nat, s: seq<nat>)
    requires Ascending(s) && x !in s
    ensures Ascending(Insert(x, s))
    ensures Elements(Insert(x, s)) == Elements(s) + {x}
  {
    if s == [] || x <= s[0] {
      ElementsOfCons(x, s);
    } else {
      InsertSpec(x, s[1..]);
      assert s == [s[0]] + s[1..];
      ElementsOfCons(s[0], s[1..]);
      ElementsOfCons(s[0], Insert(x, s[1..]));
    }
  }

  predicate Distinct(s: seq<nat>) {
    s == [] || (s[0] !in s[1..] && Distinct(s[1..]))
  }

  /** Sorting distinct ordinals lists the same ordinals in ascending order. */
  lemma {:induction false} SortSpec(s: seq<nat>)
    requires Distinct(s)
    ensures Ascending(Sort(s))
    ensures Elements(Sort(s)) == Elements(s)
  {
    if s != [] {
      SortSpec(s[1..]);
      assert s[0] !in Elements(s[1..]);
      InsertSpec(s[0], Sort(s[1..]));
      assert s == [s[0]] + s[1..];
      ElementsOfCons(s[0], s[1..]);
    }
  }

  // What the two actions select

  /** A start takes the lowest free ordinals, exactly as many as surge capacity and demand allow. */
  lemma StartSpec(o: Observation, p: Policy)
    requires Valid(o, p) && o.candidateTerminal == {}
    ensures StartAction(o, p).None? <==> StartCount(o, p) == 0
    ensures StartAction(o, p).Some? ==>
              var a := StartAction(o, p).value;
              && a.StartCandidate?
              && Ascending(a.ordinals)
              && Elements(a.ordinals) <= Free(o)
              && |Elements(a.ordinals)| == |a.ordinals| == StartCount(o, p)
              && (var wanted := o.candidateReplicas - |o.candidateActive|;
                  var replicas := if o.previousReplicas < o.candidateReplicas then o.candidateReplicas
                                  else o.previousReplicas;
                  var room := replicas + p.maxSurge - |o.previousActive| - |o.candidateActive|;
                  |a.ordinals| == if wanted < room then wanted else room)
              && (forall x :: x in Free(o) <==> 1 <= x <= o.candidateReplicas && x !in o.candidateActive)
              && (forall x, y :: x in Free(o) && x !in a.ordinals && y in a.ordinals ==> y < x)
  {
    var count := StartCount(o, p);
    var d := o.candidateReplicas;
    TakeAscendingCounts(Free(o), 1, d, count);
    TakeAscendingLowest(Free(o), 1, d, count);
    WithinSize(o.candidateActive, d);
    assert Between(Free(o), 1, d) == Free(o) == Range(1, d) - o.candidateActive;
  }

  lemma {:induction false} DistinctSum(s: seq<nat>, t: seq<nat>)
    requires Ascending(s) && Ascending(t)
    requires Elements(s) !! Elements(t)
    ensures Distinct(s + t)
  {
    if s != [] {
      assert (s + t)[1..] == s[1..] + t;
      DistinctSum(s[1..], t);
      AscendingHead(s);
      assert s[0] in Elements(s);
      assert s[0] !in Elements(t);
    } else {
      assert s + t == t;
      if t != [] {
        AscendingHead(t);
        DistinctSum([], t[1..]);
        assert [] + t[1..] == t[1..];
      }
    }
  }

  lemma {:induction false} AscendingHead(s: seq<nat>)
    requires Ascending(s) && s != []
    ensures forall x <- s[1..] :: s[0] < x
  {
    if |s| > 1 {
      AscendingHead(s[1..]);
      assert s[1..] == [s[1]] + s[2..];
      assert s[1..][1..] == s[2..];
    }
  }

  lemma DrainListSpec(o: Observation, p: Policy)
    requires Valid(o, p)
    ensures var all := Elements(DrainList(o, p));
            && Distinct(DrainList(o, p))
            && all <= o.previousActive
            && Unready(o) == o.previousActive - o.previousReady && Unready(o) <= all
            && |all * o.previousReady| == Min(DrainBudget(o, p), |o.previousReady|)
            && (var floor := if o.candidateReplicas < p.maxUnavailable then 0
                             else o.candidateReplicas - p.maxUnavailable;
                var serving := |o.previousReady| + |o.candidateAvailable|;
                var budget := if serving < floor then 0 else serving - floor;
                |all * o.previousReady| == if budget < |o.previousReady| then budget else |o.previousReady|)
            && (forall x, y :: x in o.previousReady && x !in all && y in all && y in o.previousReady ==> y < x)
  {
    var n := o.previousReplicas;
    var unready := TakeAscending(Unready(o), 1, n, |Unready(o)|);
    var ready := TakeAscending(o.previousReady, 1, n, DrainBudget(o, p));
    TakeAscendingCounts(Unready(o), 1, n, |Unready(o)|);
    TakeAscendingCounts(o.previousReady, 1, n, DrainBudget(o, p));
    TakeAscendingLowest(Unready(o), 1, n, |Unready(o)|);
    TakeAscendingLowest(o.previousReady, 1, n, DrainBudget(o, p));
    assert Between(Unready(o), 1, n) == Unready(o);
    assert Between(o.previousReady, 1, n) == o.previousReady;
    SubsetSize(Elements(unready), Unready(o));
    ElementsOfSum(unready, ready);
    DistinctSum(unready, ready);
    assert Elements(unready + ready) * o.previousReady == Elements(ready);
  }

  /** A drain takes every unready previous replica and the lowest ready ones the budget covers. */
  lemma DrainSpec(o: Observation, p: Policy)
    requires Valid(o, p)
    ensures DrainAction(o, p).Some? ==>
              var a := DrainAction(o, p).value;
              && a.DrainPrevious?
              && a.timeoutMs == p.drainTimeoutMs
              && Ascending(a.ordinals)
              && Elements(a.ordinals) != {}
              && Elements(a.ordinals) <= o.previousActive
              && Unready(o) <= Elements(a.ordinals)
              && |Elements(a.ordinals) * o.previousReady| == Min(DrainBudget(o, p), |o.previousReady|)
              && (forall x, y :: x in o.previousReady && x !in a.ordinals && y in a.ordinals && y in o.previousReady
                    ==> y < x)
  {
    DrainListSpec(o, p);
    var l := DrainList(o, p);
    SortSpec(l);
    if l != [] {
      assert l[0] in Elements(l);
      assert forall x :: x in Sort(l) <==> x in Elements(l);
    }
  }

  lemma DrainWhen(o: Observation, p: Policy)
    requires Valid(o, p)
    ensures DrainAction(o, p).None? <==>
            o.previousActive == {} || (Unready(o) == {} && DrainBudget(o, p) == 0)
    ensures DrainAction(o, p).Some? ==> DrainAction(o, p).value.DrainPrevious?
  {
    DrainListSpec(o, p);
    var l := DrainList(o, p);
    if l != [] {
      assert l[0] in Elements(l);
    }
    if o.previousActive != {} && Unready(o) == {} {
      assert o.previousReady == o.previousActive;
      if l == [] {
        assert Elements(l) * o.previousReady == {};
      } else {
        assert Elements(l) * o.previousReady == Elements(l);
      }
    }
  }

  /** With no start and no drain possible, either the update is complete or a started candidate is pending. */
  lemma NoActionHasCause(o: Observation, p: Policy)
    requires Valid(o, p)
    requires StartCount(o, p) == 0
    requires o.previousActive == {} || (Unready(o) == {} && DrainBudget(o, p) == 0)
    requires !(o.previousActive == {} && |o.candidateAvailable| == o.candidateReplicas)
    ensures |o.candidateAvailable| < |o.candidateActive|
  {
    SubsetSize(o.candidateReady, o.candidateActive);
    SubsetSize(o.candidateAvailable, o.candidateReady);
    WithinSize(o.candidateActive, o.candidateReplicas);
    if o.previousActive != {} {
      assert o.previousReady == o.previousActive;
    }
  }

  /** Waiting means that some started candidate is not yet available: the scheduler cannot deadlock. */
  lemma WaitHasCause(o: Observation, p: Policy)
    requires Next(o, p).Ok? && Next(o, p).value.Wait?
    ensures Next(o, p).value.reason == (if o.candidateReady != o.candidateActive then CandidateReadiness
                                        else MinimumReadyTime)
    ensures o.candidateAvailable < o.candidateActive
  {
    StartSpec(o, p);
    DrainWhen(o, p);
    NoActionHasCause(o, p);
    SubsetSize(o.candidateReady, o.candidateActive);
    SubsetSize(o.candidateAvailable, o.candidateReady);
  }

  predicate Finished(o: Observation) {
    o.previousActive == {} && o.candidateAvailable == Range(1, o.candidateReplicas)
  }

  lemma FinishedCount(o: Observation, p: Policy)
    requires Valid(o, p)
    ensures Finished(o) <==> o.previousActive == {} && |o.candidateAvailable| == o.candidateReplicas
  {
    WithinSize(o.candidateAvailable, o.candidateReplicas);
    RangeSize(1, o.candidateReplicas);
  }

  /** Completion is decided exactly when no previous replica is left and every candidate ordinal is available. */
  lemma CompleteExactly(o: Observation, p: Policy)
    requires Valid(o, p) && o.candidateTerminal == {}
    ensures Next(o, p) == Ok(Complete) <==> Finished(o)
  {
    StartSpec(o, p);
    DrainWhen(o, p);
    FinishedCount(o, p);
  }

  /** A rollback is decided exactly on a failed candidate, or on a passed deadline before completion. */
  lemma RollbackExactly(o: Observation, p: Policy)
    requires Valid(o, p)
    ensures Next(o, p).Ok? && Next(o, p).value.Rollback? <==>
            o.candidateTerminal != {} || (o.elapsedSinceProgressMs >= p.progressDeadlineMs && !Finished(o))
  {
    FinishedCount(o, p);
    if o.candidateTerminal == {} {
      StartSpec(o, p);
      DrainWhen(o, p);
    }
  }

  /** Every member of the set is an ordinal from one to `n`. */
  predicate Ordinals(s: set<nat>, n: nat) {
    forall x <- s :: 1 <= x <= n
  }

  /**
   The scheduler answers if and only if the policy leaves it room and time, the observed sets are ordinals and
   contain each other as they should, and no more replicas are active than the surge allows.
   */
  lemma AnswersExactly(o: Observation, p: Policy)
    ensures var replicas := if o.previousReplicas < o.candidateReplicas then o.candidateReplicas
                            else o.previousReplicas;
            Next(o, p).Ok? <==>
              && 1 <= replicas <= 32 && p.maxSurge <= replicas && p.maxUnavailable <= replicas
              && p.maxSurge + p.maxUnavailable > 0
              && p.minReadyMs <= 300_000 && p.drainTimeoutMs <= 300_000
              && 1_000 <= p.progressDeadlineMs <= 3_600_000
              && p.minReadyMs < p.progressDeadlineMs && p.drainTimeoutMs < p.progressDeadlineMs
              && Ordinals(o.previousActive, o.previousReplicas) && Ordinals(o.candidateActive, o.candidateReplicas)
              && Ordinals(o.candidateTerminal, o.candidateReplicas)
              && o.previousReady <= o.previousActive
              && o.candidateAvailable <= o.candidateReady <= o.candidateActive
              && (forall x <- o.candidateTerminal :: x !in o.candidateActive)
              && |o.previousActive| + |o.candidateActive| <= replicas + p.maxSurge
  {
  }
}
