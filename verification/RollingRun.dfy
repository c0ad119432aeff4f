/**
 The closed loop of one instance's rolling update: durable scheduler decisions, draining replicas that stop and
 are acknowledged, and candidates becoming ready and then available. A draining replica that ends in another
 way is marked as stopped by the supervisor later. While a drain is outstanding the executor
 takes no further decision, and only a replica that has stopped is acknowledged.
 */
module RollingRun {
  import opened Wrappers
  import opened Rolling

  /** `draining` is what was told to drain and not yet acknowledged; of these `stopped` and `failed` have ended. */
  datatype Loop = Loop(obs: Observation, draining: set<nat>, stopped: set<nat>, failed: set<nat>)

  datatype Event =
    | Decide
    | Stops(ordinal: nat)
    | Fails(ordinal: nat)
    | Reaped(ordinal: nat)
    | Acknowledged(ordinal: nat)
    | BecomesReady(ordinal: nat)
    | BecomesAvailable(ordinal: nat)
    | Elapse(ms: nat)

  ghost predicate ValidLoop(l: Loop, p: Policy) {
    && Valid(l.obs, p)
    && l.obs.candidateTerminal == {}
    && DrainsMatch(l)
  }

  /** A draining replica is active, has stopped, or has ended in another way. */
  predicate DrainsMatch(l: Loop) {
    && l.stopped <= l.draining && l.failed <= l.draining && l.stopped !! l.failed
    && l.stopped !! l.obs.previousActive && l.failed !! l.obs.previousActive
    && l.draining <= l.obs.previousActive + l.stopped + l.failed
  }

  predicate Enabled(l: Loop, e: Event, p: Policy) {
    match e
    case Decide => l.draining == {} && Next(l.obs, p).Ok? && ChangesReplicas(Next(l.obs, p).value)
    case Stops(i) => i in l.draining * l.obs.previousActive
    case Fails(i) => i in l.draining * l.obs.previousActive
    case Reaped(i) => i in l.failed
    case Acknowledged(i) => i in l.stopped
    case BecomesReady(i) => i in l.obs.candidateActive - l.obs.candidateReady
    case BecomesAvailable(i) => i in l.obs.candidateReady - l.obs.candidateAvailable
    case Elapse(_) => true
  }

  function After(l: Loop, e: Event, p: Policy): Loop
    requires Enabled(l, e, p)
  {
    var o := l.obs;
    match e
    case Decide => Carried(l, Next(o, p).value)
    case Stops(i) => l.(obs := Ended(o, i), stopped := l.stopped + {i})
    case Fails(i) => l.(obs := Ended(o, i), failed := l.failed + {i})
    case Reaped(i) => l.(stopped := l.stopped + {i}, failed := l.failed - {i})
    case Acknowledged(i) =>
      l.(obs := o.(elapsedSinceProgressMs := 0), draining := l.draining - {i}, stopped := l.stopped - {i})
    case BecomesReady(i) => l.(obs := o.(candidateReady := o.candidateReady + {i}))
    case BecomesAvailable(i) => l.(obs := o.(candidateAvailable := o.candidateAvailable + {i}))
    case Elapse(ms) => l.(obs := o.(elapsedSinceProgressMs := o.elapsedSinceProgressMs + ms))
  }

  function Ended(o: Observation, i: nat): Observation {
    o.(previousActive := o.previousActive - {i}, previousReady := o.previousReady - {i})
  }

  /** The durable effect of a decision: candidates are enabled, or previous replicas are told to drain. */
  function Carried(l: Loop, a: Action): Loop
    requires ChangesReplicas(a)
  {
    match a
    case StartCandidate(ordinals) =>
      l.(obs := l.obs.(candidateActive := l.obs.candidateActive + Elements(ordinals), elapsedSinceProgressMs := 0))
    case DrainPrevious(ordinals, _) =>
      l.(obs := l.obs.(elapsedSinceProgressMs := 0), draining := Elements(ordinals))
  }

  predicate IsRun(l: Loop, events: seq<Event>, p: Policy)
    decreases |events|
  {
    events == [] || (Enabled(l, events[0], p) && IsRun(After(l, events[0], p), events[1..], p))
  }

  function Final(l: Loop, events: seq<Event>, p: Policy): Loop
    requires IsRun(l, events, p)
    decreases |events|
  {
    if events == [] then l else Final(After(l, events[0], p), events[1..], p)
  }

  /** Replicas that keep serving once the outstanding drains have taken effect. */
  function Kept(l: Loop): nat {
    |l.obs.previousReady - l.draining| + |l.obs.candidateAvailable|
  }

  /** The progress still owed; each replica-changing event lowers it. */
  function Owed(l: Loop): int {
    2 * |l.obs.previousActive| + 2 * |l.obs.previousActive - l.draining| + |l.draining| + |l.failed|
    + 3 * l.obs.candidateReplicas
    - |l.obs.candidateActive| - |l.obs.candidateReady| - |l.obs.candidateAvailable|
  }

  function Progressing(events: seq<Event>): nat {
    if events == [] then 0 else (if events[0].Elapse? then 0 else 1) + Progressing(events[1..])
  }

  // One event

  /** A decision that changes replicas is one of the two actions. */
  lemma DecidedAction(o: Observation, p: Policy)
    requires Next(o, p).Ok? && ChangesReplicas(Next(o, p).value)
    ensures Valid(o, p) && o.candidateTerminal == {}
    ensures Next(o, p).value.StartCandidate? ==> StartAction(o, p) == Some(Next(o, p).value)
    ensures Next(o, p).value.DrainPrevious? ==> DrainAction(o, p) == Some(Next(o, p).value)
  {
    StartSpec(o, p);
    DrainWhen(o, p);
  }

  lemma StartKeeps(l: Loop, p: Policy)
    requires ValidLoop(l, p) && l.draining == {} && StartAction(l.obs, p).Some?
    ensures StartAction(l.obs, p).value.StartCandidate?
    ensures var l' := Carried(l, StartAction(l.obs, p).value);
            ValidLoop(l', p) && Kept(l') == Kept(l) && Owed(l') < Owed(l)
  {
    StartSpec(l.obs, p);
    var o := l.obs;
    var started := Elements(StartAction(o, p).value.ordinals);
    assert started !! o.candidateActive;
    assert |o.candidateActive + started| == |o.candidateActive| + |started|;
  }

  lemma DifferenceSize(a: set<nat>, b: set<nat>)
    ensures |a - b| == |a| - |a * b|
  {
    assert a - b == a - a * b;
    SubsetSize(a * b, a);
  }

  /** Telling `drained` to drain when nothing is draining yet. */
  lemma DrainCarried(l: Loop, drained: set<nat>, floor: nat)
    requires l.draining == {} && drained != {} && drained <= l.obs.previousActive
    requires |drained * l.obs.previousReady| == Min(Minus(Serving(l.obs), floor), |l.obs.previousReady|)
    ensures var l' := l.(obs := l.obs.(elapsedSinceProgressMs := 0), draining := drained);
            Kept(l') >= Min(Kept(l), floor) && Owed(l') < Owed(l)
  {
    var ready, active := l.obs.previousReady, l.obs.previousActive;
    DifferenceSize(ready, drained);
    DifferenceSize(active, drained);
    assert ready * drained == drained * ready && active * drained == drained;
    assert ready - {} == ready && active - {} == active;
  }

  lemma DrainKeeps(l: Loop, p: Policy)
    requires ValidLoop(l, p) && l.draining == {} && DrainAction(l.obs, p).Some?
    ensures DrainAction(l.obs, p).value.DrainPrevious?
    ensures var l' := Carried(l, DrainAction(l.obs, p).value);
            && ValidLoop(l', p) && Kept(l') >= Min(Kept(l), MinimumAvailable(l.obs, p)) && Owed(l') < Owed(l)
            && (Kept(l') >= Kept(l) || Kept(l') >= l.obs.candidateReplicas - p.maxUnavailable)
  {
    DrainSpec(l.obs, p);
    DrainCarried(l, Elements(DrainAction(l.obs, p).value.ordinals), MinimumAvailable(l.obs, p));
  }

  lemma EndedIsValid(o: Observation, i: nat, p: Policy)
    requires Valid(o, p) && i in o.previousActive
    ensures Valid(Ended(o, i), p) && |Ended(o, i).previousActive| == |o.previousActive| - 1
  {
    SubsetSize({i}, o.previousActive);
  }

  /** A draining replica that ends, by stopping or otherwise. */
  lemma EndedKeeps(l: Loop, i: nat, p: Policy, e: Event)
    requires ValidLoop(l, p) && (e == Stops(i) || e == Fails(i)) && Enabled(l, e, p)
    ensures ValidLoop(After(l, e, p), p)
    ensures Kept(After(l, e, p)) == Kept(l) && Owed(After(l, e, p)) < Owed(l)
  {
    EndedIsValid(l.obs, i, p);
    EndedMatches(l, i);
    EndedCounts(l.obs, l.draining, i);
  }

  lemma EndedCounts(o: Observation, draining: set<nat>, i: nat)
    requires i in draining
    ensures Ended(o, i).previousReady - draining == o.previousReady - draining
    ensures Ended(o, i).previousActive - draining == o.previousActive - draining
  {
  }

  lemma EndedMatches(l: Loop, i: nat)
    requires DrainsMatch(l) && i in l.draining && i in l.obs.previousActive
    ensures DrainsMatch(l.(obs := Ended(l.obs, i), stopped := l.stopped + {i}))
    ensures DrainsMatch(l.(obs := Ended(l.obs, i), failed := l.failed + {i}))
  {
  }

  lemma ReapedMatches(l: Loop, i: nat)
    requires DrainsMatch(l) && i in l.failed
    ensures DrainsMatch(l.(stopped := l.stopped + {i}, failed := l.failed - {i}))
  {
  }

  lemma ReapedKeeps(l: Loop, i: nat, p: Policy)
    requires ValidLoop(l, p) && i in l.failed
    ensures ValidLoop(After(l, Reaped(i), p), p)
    ensures Kept(After(l, Reaped(i), p)) == Kept(l) && Owed(After(l, Reaped(i), p)) < Owed(l)
  {
    ReapedMatches(l, i);
    SubsetSize({i}, l.failed);
  }

  /** The time since progress plays no part in the validity of an observation. */
  lemma TimeIsIrrelevant(o: Observation, p: Policy, ms: nat)
    ensures Valid(o.(elapsedSinceProgressMs := ms), p) == Valid(o, p)
  {
  }

  lemma AcknowledgedMatches(l: Loop, i: nat)
    requires DrainsMatch(l) && i in l.stopped
    ensures DrainsMatch(l.(draining := l.draining - {i}, stopped := l.stopped - {i}))
    ensures l.obs.previousActive - (l.draining - {i}) == l.obs.previousActive - l.draining
    ensures |l.draining - {i}| == |l.draining| - 1
  {
    SubsetSize({i}, l.draining);
  }

  lemma AcknowledgedKeeps(l: Loop, i: nat, p: Policy)
    requires ValidLoop(l, p) && i in l.stopped
    ensures ValidLoop(After(l, Acknowledged(i), p), p)
    ensures Kept(After(l, Acknowledged(i), p)) == Kept(l) && Owed(After(l, Acknowledged(i), p)) < Owed(l)
  {
    TimeIsIrrelevant(l.obs, p, 0);
    AcknowledgedMatches(l, i);
    assert l.obs.previousReady - (l.draining - {i}) == l.obs.previousReady - l.draining;
  }

  lemma DecideKeeps(l: Loop, p: Policy)
    requires ValidLoop(l, p) && Enabled(l, Decide, p)
    ensures var l' := After(l, Decide, p);
            ValidLoop(l', p) && Kept(l') >= Min(Kept(l), MinimumAvailable(l.obs, p)) && Owed(l') < Owed(l)
  {
    DecidedAction(l.obs, p);
    if Next(l.obs, p).value.StartCandidate? {
      StartKeeps(l, p);
      assert After(l, Decide, p) == Carried(l, StartAction(l.obs, p).value);
    } else {
      DrainKeeps(l, p);
      assert After(l, Decide, p) == Carried(l, DrainAction(l.obs, p).value);
    }
  }

  lemma ReadyIsValid(o: Observation, i: nat, p: Policy)
    requires Valid(o, p) && i in o.candidateActive && i !in o.candidateReady
    ensures Valid(o.(candidateReady := o.candidateReady + {i}), p)
    ensures |o.candidateReady + {i}| == |o.candidateReady| + 1
  {
  }

  lemma AvailableIsValid(o: Observation, i: nat, p: Policy)
    requires Valid(o, p) && i in o.candidateReady && i !in o.candidateAvailable
    ensures Valid(o.(candidateAvailable := o.candidateAvailable + {i}), p)
    ensures |o.candidateAvailable + {i}| == |o.candidateAvailable| + 1
  {
  }

  lemma CandidateKeeps(l: Loop, e: Event, p: Policy)
    requires ValidLoop(l, p) && (e.BecomesReady? || e.BecomesAvailable?) && Enabled(l, e, p)
    ensures var l' := After(l, e, p); ValidLoop(l', p) && Kept(l') >= Kept(l) && Owed(l') < Owed(l)
  {
    if e.BecomesReady? {
      ReadyIsValid(l.obs, e.ordinal, p);
    } else {
      AvailableIsValid(l.obs, e.ordinal, p);
    }
  }

  lemma TopologyStays(l: Loop, e: Event, p: Policy)
    requires Enabled(l, e, p)
    ensures Capacity(After(l, e, p).obs, p) == Capacity(l.obs, p)
    ensures MinimumAvailable(After(l, e, p).obs, p) == MinimumAvailable(l.obs, p)
  {
  }

  /** Every event keeps the loop valid and the serving floor; all but the passing of time make progress. */
  lemma EventKeeps(l: Loop, e: Event, p: Policy)
    requires ValidLoop(l, p) && Enabled(l, e, p)
    ensures ValidLoop(After(l, e, p), p)
    ensures Kept(After(l, e, p)) >= Min(Kept(l), MinimumAvailable(l.obs, p))
    ensures if e.Elapse? then Owed(After(l, e, p)) == Owed(l) else Owed(After(l, e, p)) < Owed(l)
    ensures Capacity(After(l, e, p).obs, p) == Capacity(l.obs, p)
    ensures MinimumAvailable(After(l, e, p).obs, p) == MinimumAvailable(l.obs, p)
  {
    TopologyStays(l, e, p);
    match e
    case Decide => DecideKeeps(l, p);
    case Stops(i) => EndedKeeps(l, i, p, e);
    case Fails(i) => EndedKeeps(l, i, p, e);
    case Reaped(i) => ReapedKeeps(l, i, p);
    case Acknowledged(i) => AcknowledgedKeeps(l, i, p);
    case BecomesReady(i) => CandidateKeeps(l, e, p);
    case BecomesAvailable(i) => CandidateKeeps(l, e, p);
    case Elapse(_) =>
  }

  lemma OwedIsNatural(l: Loop, p: Policy)
    requires ValidLoop(l, p)
    ensures Owed(l) >= 0
  {
    WithinSize(l.obs.candidateActive, l.obs.candidateReplicas);
    SubsetSize(l.obs.candidateReady, l.obs.candidateActive);
    SubsetSize(l.obs.candidateAvailable, l.obs.candidateReady);
  }

  // Whole runs

  /**
   In every run the active replicas of both generations stay within the surge capacity, and what
   serves never falls below the lesser of its starting value and the availability floor.
   */
  lemma {:induction false} RunKeepsBudgets(l: Loop, events: seq<Event>, p: Policy)
    requires ValidLoop(l, p) && IsRun(l, events, p)
    ensures ValidLoop(Final(l, events, p), p)
    ensures var t := Final(l, events, p);
            var replicas := if l.obs.previousReplicas < l.obs.candidateReplicas then l.obs.candidateReplicas
                            else l.obs.previousReplicas;
            && |t.obs.previousActive| + |t.obs.candidateActive| <= replicas + p.maxSurge
            && |t.obs.previousReady| + |t.obs.candidateAvailable| >= Kept(t)
            && Kept(t) == |t.obs.previousReady - t.draining| + |t.obs.candidateAvailable|
            && (Kept(t) >= |l.obs.previousReady - l.draining| + |l.obs.candidateAvailable|
                || Kept(t) >= l.obs.candidateReplicas - p.maxUnavailable)
    decreases |events|
  {
    if events == [] {
      SubsetSize(l.obs.previousReady - l.draining, l.obs.previousReady);
    } else {
      EventKeeps(l, events[0], p);
      RunKeepsBudgets(After(l, events[0], p), events[1..], p);
    }
  }

  /** No run makes more progress than it owed at the start, so failure-free updates terminate. */
  lemma {:induction false} RunsAreBounded(l: Loop, events: seq<Event>, p: Policy)
    requires ValidLoop(l, p) && IsRun(l, events, p)
    ensures Progressing(events) <= Owed(l)
    decreases |events|
  {
    if events == [] {
      OwedIsNatural(l, p);
    } else {
      EventKeeps(l, events[0], p);
      RunsAreBounded(After(l, events[0], p), events[1..], p);
    }
  }

  ghost predicate Quiescent(l: Loop, p: Policy) {
    forall e: Event :: Enabled(l, e, p) ==> e.Elapse?
  }

  /** Nothing is under way: no drain is outstanding, and every started candidate is available. */
  predicate Resting(l: Loop) {
    l.draining == {} && l.obs.candidateActive == l.obs.candidateAvailable
  }

  lemma QuiescentMeans(l: Loop, p: Policy)
    requires ValidLoop(l, p)
    ensures Quiescent(l, p) <==> Resting(l) && !Enabled(l, Decide, p)
  {
    if Quiescent(l, p) {
      forall i ensures i !in l.draining {
        assert !Enabled(l, Stops(i), p) && !Enabled(l, Reaped(i), p) && !Enabled(l, Acknowledged(i), p);
      }
      forall i <- l.obs.candidateActive ensures i in l.obs.candidateReady {
        assert !Enabled(l, BecomesReady(i), p);
      }
      forall i <- l.obs.candidateReady ensures i in l.obs.candidateAvailable {
        assert !Enabled(l, BecomesAvailable(i), p);
      }
      assert !Enabled(l, Decide, p);
    }
  }

  /** Before the deadline, a valid observation with no candidate pending is acted on or complete. */
  lemma SettledActsOrCompletes(o: Observation, p: Policy)
    requires Valid(o, p) && o.candidateTerminal == {} && o.elapsedSinceProgressMs < p.progressDeadlineMs
    requires o.candidateActive == o.candidateAvailable
    ensures Next(o, p).Ok? && (ChangesReplicas(Next(o, p).value) || Next(o, p) == Ok(Complete))
  {
    if Next(o, p).value.Wait? {
      WaitHasCause(o, p);
    }
    RollbackExactly(o, p);
  }

  /** A loop that can make no further progress before the deadline has completed the update, and conversely. */
  lemma QuiescentIsComplete(l: Loop, p: Policy)
    requires ValidLoop(l, p)
    requires l.obs.elapsedSinceProgressMs < p.progressDeadlineMs
    ensures Quiescent(l, p) <==> l.draining == {} && Next(l.obs, p) == Ok(Complete) && Finished(l.obs)
  {
    QuiescentMeans(l, p);
    CompleteExactly(l.obs, p);
    if l.obs.candidateActive == l.obs.candidateAvailable {
      SettledActsOrCompletes(l.obs, p);
    }
    if Finished(l.obs) {
      WithinSize(l.obs.candidateActive, l.obs.candidateReplicas);
    }
  }

  /** Every maximal run before the deadline without a failed candidate ends with the update complete. */
  lemma MaximalRunCompletes(l: Loop, events: seq<Event>, p: Policy)
    requires ValidLoop(l, p) && IsRun(l, events, p)
    requires Final(l, events, p).obs.elapsedSinceProgressMs < p.progressDeadlineMs
    requires Quiescent(Final(l, events, p), p)
    ensures Final(l, events, p).draining == {} && Next(Final(l, events, p).obs, p) == Ok(Complete)
    ensures Final(l, events, p).obs.previousActive == {}
    ensures Final(l, events, p).obs.candidateAvailable == Range(1, l.obs.candidateReplicas)
  {
    RunKeepsBudgets(l, events, p);
    RunKeepsTopology(l, events, p);
    QuiescentIsComplete(Final(l, events, p), p);
  }

  lemma {:induction false} RunKeepsTopology(l: Loop, events: seq<Event>, p: Policy)
    requires IsRun(l, events, p)
    ensures Final(l, events, p).obs.candidateReplicas == l.obs.candidateReplicas
    ensures Final(l, events, p).obs.previousReplicas == l.obs.previousReplicas
    decreases |events|
  {
    if events != [] {
      RunKeepsTopology(After(l, events[0], p), events[1..], p);
    }
  }
}
