/**
 The stack-level decision: one action for all instances of a stack, under the stack-wide limit on
 active replicas. Each instance follows its own scheduler; the stack executes the first action
 in instance order, truncates starts to the remaining stack capacity, and rolls back at once.
 */
module RollingStack {
  import opened Wrappers
  import opened Rolling
  import Engine
  import Rollout

  const MAX_STACK_TOTAL_ACTIVE_REPLICAS: nat := 320

  /** Of the draining replicas `stopped` and `failed` have ended; no decision reads these two. */
  datatype Instance = Instance(
    name: string, policy: Policy, obs: Observation, draining: set<nat>, stopped: set<nat>, failed: set<nat>)

  datatype Decision = Decision(instance: Option<string>, action: Action)

  datatype StackError =
    | InvalidProgress
    | InvalidTime
    | NotRolling
    | WrongGeneration
    | Unauthorized
    | OverStackLimit
    | Scheduler(error: Error)

  /** What the runtime status of a generation says about itself; `valid` is the verdict of its own checks. */
  datatype Status = Status(valid: bool, revision: nat, generation: Engine.Digest)

  predicate StatusMatches(s: Option<Status>, revision: Option<nat>, generation: Option<Engine.Digest>) {
    s.Some? ==> s.value.valid && revision == Some(s.value.revision) && generation == Some(s.value.generation)
  }

  function TotalActive(s: seq<Instance>): nat {
    if s == [] then 0 else Active(s[0].obs) + TotalActive(s[1..])
  }

  function TotalPrevious(s: seq<Instance>): nat {
    if s == [] then 0 else s[0].obs.previousReplicas + TotalPrevious(s[1..])
  }

  function TotalCandidate(s: seq<Instance>): nat {
    if s == [] then 0 else s[0].obs.candidateReplicas + TotalCandidate(s[1..])
  }

  function TotalSurge(s: seq<Instance>): nat {
    if s == [] then 0 else s[0].policy.maxSurge + TotalSurge(s[1..])
  }

  function StackLimit(s: seq<Instance>): nat {
    Max(TotalPrevious(s), TotalCandidate(s)) + TotalSurge(s)
  }

  /** How many candidates the whole stack may still start. */
  function StartCapacity(s: seq<Instance>): Result<nat, StackError> {
    if TotalActive(s) > StackLimit(s) || StackLimit(s) > MAX_STACK_TOTAL_ACTIVE_REPLICAS then Err(OverStackLimit)
    else Ok(StackLimit(s) - TotalActive(s))
  }

  function Own(i: Instance): Result<Action, Error> {
    Next(i.obs, i.policy)
  }

  /** What an instance's own action becomes once starts are cut to the stack capacity. */
  function Cut(a: Action, capacity: nat): Action {
    match a
    case StartCandidate(ordinals) =>
      if capacity == 0 || ordinals == [] then Wait(AvailabilityBudget)
      else StartCandidate(ordinals[..Min(capacity, |ordinals|)])
    case _ => a
  }

  /** A start is cut to the lowest ordinals that fit the capacity; any other action stays as it is. */
  lemma CutTakesWhatFits(a: Action, capacity: nat)
    ensures a.StartCandidate? && capacity > 0 && a.ordinals != [] ==>
              && Cut(a, capacity).StartCandidate? && Cut(a, capacity).ordinals <= a.ordinals
              && |Cut(a, capacity).ordinals| == if capacity < |a.ordinals| then capacity else |a.ordinals|
    ensures a.StartCandidate? && (capacity == 0 || a.ordinals == []) ==> Cut(a, capacity).Wait?
    ensures !a.StartCandidate? ==> Cut(a, capacity) == a
  {
  }

  predicate Acts(i: Instance, capacity: nat) {
    Own(i).Ok? && ChangesReplicas(Cut(Own(i).value, capacity))
  }

  predicate Waits(i: Instance, capacity: nat) {
    Own(i).Ok? && Cut(Own(i).value, capacity).Wait?
  }

  /** The first instance whose scheduler fails or demands a rollback ends the decision. */
  function FirstInterrupt(s: seq<Instance>): Option<Result<Decision, StackError>> {
    if s == [] then None
    else if Own(s[0]).Err? then Some(Err(Scheduler(Own(s[0]).error)))
    else if Own(s[0]).value.Rollback? then Some(Ok(Decision(Some(s[0].name), Own(s[0]).value)))
    else FirstInterrupt(s[1..])
  }

  function FirstActing(s: seq<Instance>, capacity: nat): Option<Decision> {
    if s == [] then None
    else if Acts(s[0], capacity) then Some(Decision(Some(s[0].name), Cut(Own(s[0]).value, capacity)))
    else FirstActing(s[1..], capacity)
  }

  function FirstWaiting(s: seq<Instance>, capacity: nat): Option<Decision> {
    if s == [] then None
    else if Waits(s[0], capacity) then Some(Decision(Some(s[0].name), Cut(Own(s[0]).value, capacity)))
    else FirstWaiting(s[1..], capacity)
  }

  function StackNext(s: seq<Instance>, previousKnown: bool): Result<Decision, StackError> {
    if !previousKnown && (exists i <- s :: i.obs.previousReplicas > 0) then
      Ok(Decision(None, Wait(AvailabilityBudget)))
    else if StartCapacity(s).Err? then
      Err(StartCapacity(s).error)
    else if FirstInterrupt(s).Some? then
      FirstInterrupt(s).value
    else if exists i <- s :: i.draining != {} then
      Ok(Decision(None, Wait(AvailabilityBudget)))
    else
      var capacity := StartCapacity(s).value;
      if FirstActing(s, capacity).Some? then Ok(FirstActing(s, capacity).value)
      else if FirstWaiting(s, capacity).Some? then Ok(FirstWaiting(s, capacity).value)
      else Ok(Decision(None, Complete))
  }

  /** Without the status of the previous generation the stack waits if there are replicas of it. */
  predicate PreviousMissing(s: seq<Instance>, previous: Option<Status>) {
    previous.None? && exists i <- s :: i.obs.previousReplicas > 0
  }

  /** What stands between the request for a decision and the scan of the instances. */
  function Refusal(q: Engine.Progress, restValid: bool, previous: Option<Status>, candidate: Option<Status>, now: nat)
    : Option<StackError>
  {
    if !restValid || !Rollout.ValidProgress(q) then Some(InvalidProgress)
    else if now == 0 || now < q.updatedAtMs then Some(InvalidTime)
    else if q.phase != Engine.Rolling then Some(NotRolling)
    else if !StatusMatches(previous, q.previousRevision, q.previousGeneration) then Some(WrongGeneration)
    else if !StatusMatches(candidate, Some(q.candidateRevision), Some(q.candidateGeneration)) then Some(WrongGeneration)
    else None
  }

  function GuardedNext(
    q: Engine.Progress, restValid: bool, previous: Option<Status>, candidate: Option<Status>, authorized: bool,
    s: seq<Instance>, now: nat): Result<Decision, StackError>
  {
    match Refusal(q, restValid, previous, candidate, now)
    case Some(e) => Err(e)
    case None =>
      if !authorized && !PreviousMissing(s, previous) then Err(Unauthorized) else StackNext(s, previous.Some?)
  }

  /**
   A decision is taken only on valid progress that is rolling, at a time that does not run backwards, with the
   statuses of just the two generations of the rollout; then it is that of the scan.
   */
  lemma DecidesUnderGuards(
    q: Engine.Progress, restValid: bool, previous: Option<Status>, candidate: Option<Status>, authorized: bool,
    s: seq<Instance>, now: nat)
    ensures var r := GuardedNext(q, restValid, previous, candidate, authorized, s, now);
            r.Ok? <==>
              && restValid && q.startedAtMs > 0 && q.startedAtMs <= q.lastProgressAtMs <= q.updatedAtMs
              && q.candidateRevision > 0 && (q.previousRevision.Some? <==> q.previousGeneration.Some?)
              && (q.previousRevision.Some? ==> q.previousRevision.value > 0)
              && q.phase == Engine.Rolling && now > 0 && now >= q.updatedAtMs
              && (previous.Some? ==>
                    && previous.value.valid && q.previousRevision == Some(previous.value.revision)
                    && q.previousGeneration == Some(previous.value.generation))
              && (candidate.Some? ==>
                    && candidate.value.valid && q.candidateRevision == candidate.value.revision
                    && q.candidateGeneration == candidate.value.generation)
              && (authorized || (previous.None? && exists i <- s :: i.obs.previousReplicas > 0))
              && StackNext(s, previous.Some?).Ok?
  {
  }

  /**
   `restValid` is the verdict on the other parts of the progress, `authorized` that no candidate
   replica runs without having been started.
   */
  method NextAction(
    q: Engine.Progress, restValid: bool, previous: Option<Status>, candidate: Option<Status>, authorized: bool,
    s: seq<Instance>, now: nat)
    returns (r: Result<Decision, StackError>)
    ensures r == GuardedNext(q, restValid, previous, candidate, authorized, s, now)
  {
    var refusal := Refusal(q, restValid, previous, candidate, now);
    if refusal.Some? {
      return Err(refusal.value);
    }
    if PreviousMissing(s, previous) {
      return Ok(Decision(None, Wait(AvailabilityBudget)));
    }
    if !authorized {
      return Err(Unauthorized);
    }
    r := ScanInstances(s);
  }

  method ScanInstances(s: seq<Instance>) returns (r: Result<Decision, StackError>)
    ensures r == StackNext(s, true)
  {
    var drainsPending := exists i <- s :: i.draining != {};
    if StartCapacity(s).Err? {
      return Err(StartCapacity(s).error);
    }
    var capacity := StartCapacity(s).value;
    var firstAction: Option<Decision> := None;
    var firstWait: Option<Decision> := None;
    for k := 0 to |s|
      invariant FirstInterrupt(s) == FirstInterrupt(s[k..])
      invariant FirstActing(s, capacity) == if firstAction.Some? then firstAction else FirstActing(s[k..], capacity)
      invariant FirstWaiting(s, capacity) == if firstWait.Some? then firstWait else FirstWaiting(s[k..], capacity)
    {
      assert s[k..][0] == s[k] && s[k..][1..] == s[k + 1..];
      var own := Own(s[k]);
      if own.Err? {
        return Err(Scheduler(own.error));
      }
      match own.value
      case Complete =>
      case Rollback(_) =>
        return Ok(Decision(Some(s[k].name), own.value));
      case Wait(_) =>
        if firstWait.None? {
          firstWait := Some(Decision(Some(s[k].name), own.value));
        }
      case StartCandidate(ordinals) =>
        var truncated := ordinals[..Min(capacity, |ordinals|)];
        if truncated == [] {
          if firstWait.None? {
            firstWait := Some(Decision(Some(s[k].name), Wait(AvailabilityBudget)));
          }
        } else if firstAction.None? {
          firstAction := Some(Decision(Some(s[k].name), StartCandidate(truncated)));
        }
      case DrainPrevious(_, _) =>
        if firstAction.None? {
          firstAction := Some(Decision(Some(s[k].name), own.value));
        }
    }
    if drainsPending {
      return Ok(Decision(None, Wait(AvailabilityBudget)));
    }
    if firstAction.Some? {
      return Ok(firstAction.value);
    }
    if firstWait.Some? {
      return Ok(firstWait.value);
    }
    return Ok(Decision(None, Complete));
  }

  // When the stack as a whole can stop making progress

  /** Nothing is pending: no failure, no drain, no expired deadline, and every started candidate is available. */
  ghost predicate Settled(s: seq<Instance>) {
    forall i <- s ::
      && Valid(i.obs, i.policy)
      && i.obs.candidateTerminal == {}
      && i.obs.elapsedSinceProgressMs < i.policy.progressDeadlineMs
      && i.draining == {}
      && i.obs.candidateAvailable == i.obs.candidateActive
  }

  predicate CanDrain(o: Observation, p: Policy) {
    o.previousActive != {} && (Unready(o) != {} || DrainBudget(o, p) > 0)
  }

  /** There is a candidate to start, and the policy starts first or has nothing to drain. */
  predicate WantsToStart(i: Instance) {
    StartCount(i.obs, i.policy) > 0 && (i.policy.order == StartFirst || !CanDrain(i.obs, i.policy))
  }

  /** With nothing pending an instance is finished, or its own scheduler acts. */
  lemma SettledInstanceActs(i: Instance)
    requires Settled([i])
    ensures Own(i).Ok?
    ensures if Finished(i.obs) then Own(i).value == Complete else ChangesReplicas(Own(i).value)
    ensures Own(i).value.StartCandidate? <==> !Finished(i.obs) && WantsToStart(i)
    ensures Own(i).value.StartCandidate? ==> Own(i).value.ordinals != []
  {
    assert i in [i];
    CompleteExactly(i.obs, i.policy);
    RollbackExactly(i.obs, i.policy);
    StartSpec(i.obs, i.policy);
    DrainWhen(i.obs, i.policy);
    if Own(i).value.Wait? {
      WaitHasCause(i.obs, i.policy);
    }
  }

  /** Every unfinished instance wants to start candidates. */
  ghost predicate AllWantToStart(s: seq<Instance>) {
    forall i <- s :: Finished(i.obs) || WantsToStart(i)
  }

  ghost predicate AllFinished(s: seq<Instance>) {
    forall i <- s :: Finished(i.obs)
  }

  lemma SettledTail(s: seq<Instance>)
    requires Settled(s) && s != []
    ensures Settled([s[0]]) && Settled(s[1..])
  {
  }

  lemma {:induction false} ScanSettled(s: seq<Instance>, capacity: nat)
    requires Settled(s)
    ensures FirstInterrupt(s).None?
    ensures FirstActing(s, capacity).None? <==> if capacity == 0 then AllWantToStart(s) else AllFinished(s)
    ensures FirstActing(s, capacity).Some? ==> ChangesReplicas(FirstActing(s, capacity).value.action)
    ensures FirstWaiting(s, capacity).Some? ==> FirstWaiting(s, capacity).value.action.Wait?
    ensures AllFinished(s) ==> FirstWaiting(s, capacity).None?
    ensures capacity == 0 && AllWantToStart(s) && FirstWaiting(s, capacity).None? ==> AllFinished(s)
  {
    if s != [] {
      SettledTail(s);
      SettledInstanceActs(s[0]);
      ScanSettled(s[1..], capacity);
      assert s == [s[0]] + s[1..];
    }
  }

  /**
   With nothing pending, the stack waits exactly when its capacity is used up and every unfinished
   instance insists on starting first. Nothing will change such a state before the deadline.
   */
  lemma StuckExactly(s: seq<Instance>)
    requires Settled(s) && StartCapacity(s).Ok?
    ensures StackNext(s, true).Ok?
    ensures StackNext(s, true).value.action.Wait? <==>
            StartCapacity(s).value == 0 && !AllFinished(s) && AllWantToStart(s)
  {
    ScanSettled(s, StartCapacity(s).value);
    assert !exists i <- s :: i.draining != {};
  }

  // Scaling every instance in one direction rules the stuck state out

  function TotalRoom(s: seq<Instance>): nat {
    if s == [] then 0 else Capacity(s[0].obs, s[0].policy) + TotalRoom(s[1..])
  }

  ghost predicate OneDirection(s: seq<Instance>) {
    || (forall i <- s :: i.obs.previousReplicas <= i.obs.candidateReplicas)
    || (forall i <- s :: i.obs.previousReplicas >= i.obs.candidateReplicas)
  }

  lemma {:induction false} OneDirectionLimit(s: seq<Instance>)
    requires OneDirection(s)
    ensures StackLimit(s) == TotalRoom(s)
    ensures (forall i <- s :: i.obs.previousReplicas <= i.obs.candidateReplicas) ==>
              TotalPrevious(s) <= TotalCandidate(s)
    ensures (forall i <- s :: i.obs.previousReplicas >= i.obs.candidateReplicas) ==>
              TotalPrevious(s) >= TotalCandidate(s)
  {
    if s != [] {
      OneDirectionLimit(s[1..]);
    }
  }

  lemma {:induction false} FullStackHasNoStart(s: seq<Instance>)
    requires Settled(s)
    ensures TotalActive(s) <= TotalRoom(s)
    ensures TotalActive(s) == TotalRoom(s) && AllWantToStart(s) ==> AllFinished(s)
  {
    if s != [] {
      SettledTail(s);
      SettledInstanceActs(s[0]);
      FullStackHasNoStart(s[1..]);
      assert s == [s[0]] + s[1..];
    }
  }

  /** When no instance shrinks while another grows, a settled stack always acts or is complete. */
  lemma OneDirectionNeverStuck(s: seq<Instance>)
    requires Settled(s) && StartCapacity(s).Ok? && OneDirection(s)
    ensures StackNext(s, true).Ok? && !StackNext(s, true).value.action.Wait?
  {
    StuckExactly(s);
    OneDirectionLimit(s);
    FullStackHasNoStart(s);
  }

  // Two instances with mixed directions

  const PATIENT := Policy(StartFirst, 0, 1, 2_000, 300_000, 30_000)
  const SURGING := Policy(StartFirst, 1, 0, 2_000, 300_000, 30_000)

  /** Instance "a" grows from one replica to three while "b" shrinks from three to one. */
  function Growing(candidates: set<nat>): Instance {
    Instance("a", PATIENT, Observation(1, 3, {1}, {1}, candidates, candidates, candidates, {}, 0), {}, {}, {})
  }

  function Shrinking(): Instance {
    Instance("b", SURGING, Observation(3, 1, {1, 2, 3}, {1, 2, 3}, {}, {}, {}, {}, 0), {}, {}, {})
  }

  lemma GrowingIsValid(candidates: set<nat>)
    requires candidates == {} || candidates == {1}
    ensures Valid(Growing(candidates).obs, PATIENT)
    ensures StartCount(Growing(candidates).obs, PATIENT) == if candidates == {} then 2 else 1
    ensures Growing(candidates).obs.previousActive != {}
  {
    var o := Growing(candidates).obs;
    assert |o.previousActive| == 1 && |o.candidateActive| == if candidates == {} then 0 else 1;
    assert 1 in o.previousActive;
  }

  lemma GrowingStarts(candidates: set<nat>)
    requires candidates == {} || candidates == {1}
    ensures Valid(Growing(candidates).obs, PATIENT)
    ensures !Finished(Growing(candidates).obs)
    ensures Own(Growing(candidates)).Ok? && Own(Growing(candidates)).value.StartCandidate?
  {
    GrowingIsValid(candidates);
    StartSpec(Growing(candidates).obs, PATIENT);
  }

  lemma GrowingStartsLowest()
    ensures Own(Growing({})) == Ok(StartCandidate([1, 2]))
  {
    GrowingIsValid({});
    var free := Free(Growing({}).obs);
    assert 1 in free && 2 in free;
    assert TakeAscending(free, 3, 3, 0) == [];
    assert TakeAscending(free, 2, 3, 1) == [2];
    assert TakeAscending(free, 1, 3, 2) == [1, 2];
  }

  lemma ShrinkingStarts()
    ensures Valid(Shrinking().obs, SURGING)
    ensures Own(Shrinking()).Ok? && Own(Shrinking()).value.StartCandidate?
  {
    var o := Shrinking().obs;
    assert |{1, 2, 3}| == 3;
    assert StartCount(o, SURGING) == 1;
    StartSpec(o, SURGING);
  }

  lemma MixedTotals(candidates: set<nat>)
    requires candidates == {} || candidates == {1}
    ensures StartCapacity([Growing(candidates), Shrinking()]) == Ok(if candidates == {} then 1 else 0)
  {
    var a, b := Growing(candidates), Shrinking();
    assert [a, b][1..] == [b] && [b][1..] == [];
    assert Active(b.obs) == 3 && TotalActive([b]) == 3;
    assert TotalPrevious([b]) == 3 && TotalCandidate([b]) == 1 && TotalSurge([b]) == 1;
    assert TotalActive([a, b]) == if candidates == {} then 4 else 5;
    assert StackLimit([a, b]) == 5;
  }

  lemma MixedSettled()
    ensures Settled([Growing({1}), Shrinking()])
    ensures !AllFinished([Growing({1}), Shrinking()])
    ensures AllWantToStart([Growing({1}), Shrinking()])
  {
    GrowingStarts({1});
    ShrinkingStarts();
    var s := [Growing({1}), Shrinking()];
    assert s[0] in s;
  }

  lemma PairStarts(a: Instance, b: Instance)
    requires StartCapacity([a, b]) == Ok(1)
    requires Own(a) == Ok(StartCandidate([1, 2]))
    requires Own(b).Ok? && !Own(b).value.Rollback?
    requires a.draining == b.draining == {}
    ensures StackNext([a, b], true) == Ok(Decision(Some(a.name), StartCandidate([1])))
  {
    assert [a, b][1..] == [b] && [b][1..] == [];
    assert FirstInterrupt([b]) == None;
    assert FirstInterrupt([a, b]) == None;
    assert [1, 2][..1] == [1];
  }

  lemma MixedStart()
    ensures StackNext([Growing({}), Shrinking()], true) == Ok(Decision(Some("a"), StartCandidate([1])))
  {
    GrowingStartsLowest();
    ShrinkingStarts();
    MixedTotals({});
    PairStarts(Growing({}), Shrinking());
  }

  // What the stack decides first

  /** An instance whose scheduler fails or demands a rollback. */
  predicate Interrupts(i: Instance) {
    Own(i).Err? || Own(i).value.Rollback?
  }

  /** The first such instance, if any, ends the decision. */
  lemma {:induction false} FirstInterruptIs(s: seq<Instance>) returns (k: nat)
    ensures k <= |s| && (forall j :: 0 <= j < k ==> !Interrupts(s[j]))
    ensures k == |s| <==> FirstInterrupt(s).None?
    ensures k < |s| ==>
              && Interrupts(s[k])
              && FirstInterrupt(s).value == if Own(s[k]).Err? then Err(Scheduler(Own(s[k]).error))
                                            else Ok(Decision(Some(s[k].name), Own(s[k]).value))
  {
    if s == [] || Interrupts(s[0]) {
      k := 0;
    } else {
      k := FirstInterruptIs(s[1..]);
      k := k + 1;
    }
  }

  /**
   Without the status of previous replicas the stack waits. Else it fails beyond the stack limit, else the first
   instance that fails or rolls back decides, else an outstanding drain makes it wait.
   */
  lemma DecidesInOrder(s: seq<Instance>, previousKnown: bool)
    ensures !previousKnown && (exists i <- s :: i.obs.previousReplicas > 0) ==>
              StackNext(s, previousKnown) == Ok(Decision(None, Wait(AvailabilityBudget)))
    ensures (previousKnown || forall i <- s :: i.obs.previousReplicas == 0) ==>
              var limit := TotalSurge(s)
                           + (if TotalPrevious(s) < TotalCandidate(s) then TotalCandidate(s) else TotalPrevious(s));
              if TotalActive(s) > limit || limit > 320 then StackNext(s, previousKnown) == Err(OverStackLimit)
              else if FirstInterrupt(s).Some? then StackNext(s, previousKnown) == FirstInterrupt(s).value
              else if exists i <- s :: i.draining != {} then
                StackNext(s, previousKnown) == Ok(Decision(None, Wait(AvailabilityBudget)))
              else StackNext(s, previousKnown).Ok? && !StackNext(s, previousKnown).value.action.Rollback?
  {
    NoLateRollback(s, if StartCapacity(s).Ok? then StartCapacity(s).value else 0);
  }

  lemma {:induction false} NoLateRollback(s: seq<Instance>, capacity: nat)
    ensures FirstActing(s, capacity).Some? ==> !FirstActing(s, capacity).value.action.Rollback?
    ensures FirstWaiting(s, capacity).Some? ==> !FirstWaiting(s, capacity).value.action.Rollback?
    decreases |s|
  {
    if s != [] {
      NoLateRollback(s[1..], capacity);
    }
  }
}
