/**
 The closed loop of a whole stack: the executor carries out the stack's decision, with starts cut to the
 stack capacity, while the replicas of all instances stop or fail to, become ready and become available.
 Whatever makes progress resets the time since progress of every instance.
 */
module StackRun {
  import opened Wrappers
  import opened Rolling
  import opened RollingStack
  import Single = RollingRun

  datatype Event =
    | Decide
    | Stops(k: nat, ordinal: nat)
    | Fails(k: nat, ordinal: nat)
    | Reaped(k: nat, ordinal: nat)
    | Acknowledged(k: nat, ordinal: nat)
    | BecomesReady(k: nat, ordinal: nat)
    | BecomesAvailable(k: nat, ordinal: nat)
    | Elapse(ms: nat)

  function LoopOf(i: Instance): Single.Loop {
    Single.Loop(i.obs, i.draining, i.stopped, i.failed)
  }

  function WithLoop(i: Instance, l: Single.Loop): Instance {
    i.(obs := l.obs, draining := l.draining, stopped := l.stopped, failed := l.failed)
  }

  predicate DistinctNames(s: seq<Instance>) {
    forall j, k :: 0 <= j < k < |s| ==> s[j].name != s[k].name
  }

  ghost predicate ValidStack(s: seq<Instance>) {
    && DistinctNames(s)
    && AllValid(s)
    && StartCapacity(s).Ok?
  }

  ghost predicate AllValid(s: seq<Instance>) {
    forall i <- s :: ValidInstance(i)
  }

  ghost predicate ValidInstance(i: Instance) {
    Single.ValidLoop(LoopOf(i), i.policy)
  }

  predicate Decides(s: seq<Instance>) {
    StackNext(s, true).Ok? && ChangesReplicas(StackNext(s, true).value.action)
  }

  predicate Enabled(s: seq<Instance>, e: Event) {
    match e
    case Decide => Decides(s)
    case Stops(k, i) => k < |s| && i in s[k].draining * s[k].obs.previousActive
    case Fails(k, i) => k < |s| && i in s[k].draining * s[k].obs.previousActive
    case Reaped(k, i) => k < |s| && i in s[k].failed
    case Acknowledged(k, i) => k < |s| && i in s[k].stopped
    case BecomesReady(k, i) => k < |s| && i in s[k].obs.candidateActive - s[k].obs.candidateReady
    case BecomesAvailable(k, i) => k < |s| && i in s[k].obs.candidateReady - s[k].obs.candidateAvailable
    case Elapse(_) => true
  }

  function Since(i: Instance, ms: nat): Instance {
    i.(obs := i.obs.(elapsedSinceProgressMs := ms))
  }

  /** Progress was made: the time since progress starts again for every instance. */
  function Marked(s: seq<Instance>): seq<Instance> {
    seq(|s|, k requires 0 <= k < |s| => Since(s[k], 0))
  }

  function Aged(s: seq<Instance>, ms: nat): seq<Instance> {
    seq(|s|, k requires 0 <= k < |s| => Since(s[k], s[k].obs.elapsedSinceProgressMs + ms))
  }

  /** The durable effect of an action on the instance it names. */
  function Carried(s: seq<Instance>, name: Option<string>, a: Action): seq<Instance>
    requires ChangesReplicas(a)
  {
    seq(|s|, k requires 0 <= k < |s| =>
      if name == Some(s[k].name) then WithLoop(s[k], Single.Carried(LoopOf(s[k]), a)) else s[k])
  }

  function Put(s: seq<Instance>, k: nat, e: Single.Event): seq<Instance>
    requires k < |s| && Single.Enabled(LoopOf(s[k]), e, s[k].policy)
  {
    s[k := WithLoop(s[k], Single.After(LoopOf(s[k]), e, s[k].policy))]
  }

  function After(s: seq<Instance>, e: Event): seq<Instance>
    requires Enabled(s, e)
  {
    match e
    case Decide => var d := StackNext(s, true).value; Marked(Carried(s, d.instance, d.action))
    case Stops(k, i) => Put(s, k, Single.Stops(i))
    case Fails(k, i) => Put(s, k, Single.Fails(i))
    case Reaped(k, i) => Put(s, k, Single.Reaped(i))
    case Acknowledged(k, i) => Marked(Put(s, k, Single.Acknowledged(i)))
    case BecomesReady(k, i) => Put(s, k, Single.BecomesReady(i))
    case BecomesAvailable(k, i) => Put(s, k, Single.BecomesAvailable(i))
    case Elapse(ms) => Aged(s, ms)
  }

  predicate IsRun(s: seq<Instance>, events: seq<Event>)
    decreases |events|
  {
    events == [] || (Enabled(s, events[0]) && IsRun(After(s, events[0]), events[1..]))
  }

  function Final(s: seq<Instance>, events: seq<Event>): seq<Instance>
    requires IsRun(s, events)
    decreases |events|
  {
    if events == [] then s else Final(After(s, events[0]), events[1..])
  }

  // How an event changes the totals

  /** The same instance at another time. */
  predicate SameInstance(i: Instance, j: Instance) {
    j == Since(i, j.obs.elapsedSinceProgressMs)
  }

  /** The same topology: what no event changes. */
  predicate SameShape(i: Instance, j: Instance) {
    && j.name == i.name && j.policy == i.policy
    && j.obs.previousReplicas == i.obs.previousReplicas && j.obs.candidateReplicas == i.obs.candidateReplicas
  }

  predicate SameShapes(s: seq<Instance>, t: seq<Instance>) {
    |t| == |s| && forall k :: 0 <= k < |s| ==> SameShape(s[k], t[k])
  }

  /** Of `s` only the instance at `k` has changed, if there is one. */
  predicate ChangedAt(s: seq<Instance>, t: seq<Instance>, k: int) {
    SameShapes(s, t) && forall j :: 0 <= j < |s| && j != k ==> SameInstance(s[j], t[j])
  }

  function TotalOwed(s: seq<Instance>): int {
    if s == [] then 0 else Single.Owed(LoopOf(s[0])) + TotalOwed(s[1..])
  }

  lemma {:induction false} ShapesKeepLimit(s: seq<Instance>, t: seq<Instance>)
    requires SameShapes(s, t)
    ensures TotalPrevious(t) == TotalPrevious(s) && TotalCandidate(t) == TotalCandidate(s)
    ensures TotalSurge(t) == TotalSurge(s)
  {
    if s != [] {
      assert SameShape(s[0], t[0]);
      ShapesKeepLimit(s[1..], t[1..]);
    }
  }

  lemma {:induction false} TotalsChange(s: seq<Instance>, t: seq<Instance>, k: int)
    requires ChangedAt(s, t, k)
    ensures var inside := 0 <= k < |s|;
            && TotalActive(t) - TotalActive(s) == (if inside then Active(t[k].obs) - Active(s[k].obs) else 0)
            && TotalOwed(t) - TotalOwed(s)
               == (if inside then Single.Owed(LoopOf(t[k])) - Single.Owed(LoopOf(s[k])) else 0)
  {
    if s != [] {
      assert SameShapes(s[1..], t[1..]);
      TotalsChange(s[1..], t[1..], k - 1);
      assert k != 0 ==> SameInstance(s[0], t[0]);
    }
  }

  // What one event does to the instance it concerns

  /** The instance stays valid, keeps its floor and owes less, and at most `room` replicas are added. */
  ghost predicate Advances(i: Instance, j: Instance, room: nat) {
    && SameShape(i, j)
    && ValidInstance(j)
    && Single.Kept(LoopOf(j)) >= Min(Single.Kept(LoopOf(i)), MinimumAvailable(i.obs, i.policy))
    && Single.Owed(LoopOf(j)) < Single.Owed(LoopOf(i))
    && Active(j.obs) <= Active(i.obs) + room
  }

  lemma SinceIsValid(j: Instance, ms: nat)
    requires ValidInstance(j)
    ensures ValidInstance(Since(j, ms))
  {
    Single.TimeIsIrrelevant(j.obs, j.policy, ms);
  }

  lemma SinceCounts(j: Instance, ms: nat)
    ensures Single.Kept(LoopOf(Since(j, ms))) == Single.Kept(LoopOf(j))
    ensures Single.Owed(LoopOf(Since(j, ms))) == Single.Owed(LoopOf(j))
    ensures Active(Since(j, ms).obs) == Active(j.obs)
  {
  }

  lemma LaterAdvances(i: Instance, j: Instance, room: nat, ms: nat)
    requires Advances(i, j, room)
    ensures Advances(i, Since(j, ms), room)
  {
    SinceIsValid(j, ms);
    SinceCounts(j, ms);
  }

  lemma SingleAdvances(i: Instance, e: Single.Event)
    requires Single.ValidLoop(LoopOf(i), i.policy) && Single.Enabled(LoopOf(i), e, i.policy)
    requires !e.Decide? && !e.Elapse?
    ensures Advances(i, WithLoop(i, Single.After(LoopOf(i), e, i.policy)), 0)
  {
    Single.EventKeeps(LoopOf(i), e, i.policy);
    if e.Stops? || e.Fails? {
      SubsetSize(i.obs.previousActive - {e.ordinal}, i.obs.previousActive);
    }
  }

  /** A start that has been cut to `room` candidates. */
  lemma CutStartAdvances(i: Instance, started: set<nat>, room: nat)
    requires Single.ValidLoop(LoopOf(i), i.policy) && i.draining == {}
    requires started != {} && started <= Free(i.obs) && |started| <= room
    requires Active(i.obs) + |started| <= Capacity(i.obs, i.policy)
    ensures Advances(i, i.(obs := i.obs.(candidateActive := i.obs.candidateActive + started)), room)
  {
    assert started !! i.obs.candidateActive;
    assert |i.obs.candidateActive + started| == |i.obs.candidateActive| + |started|;
  }

  lemma {:induction false} PrefixElements(s: seq<nat>, n: nat)
    requires n <= |s| && |Elements(s)| == |s|
    ensures |Elements(s[..n])| == n
    decreases |s| - n
  {
    if n == |s| {
      assert s[..n] == s;
    } else {
      PrefixElements(s, n + 1);
      assert s[..n + 1] == s[..n] + [s[n]];
      ElementsOfSum(s[..n], [s[n]]);
      assert Elements([s[n]]) == {s[n]};
      AtMost(s[..n]);
    }
  }

  lemma {:induction false} AtMost(s: seq<nat>)
    ensures |Elements(s)| <= |s|
  {
    if s != [] {
      AtMost(s[1..]);
      assert s == [s[0]] + s[1..];
      ElementsOfCons(s[0], s[1..]);
    }
  }

  lemma StartAdvances(i: Instance, capacity: nat)
    requires ValidInstance(i) && i.draining == {} && StartAction(i.obs, i.policy).Some? && capacity > 0
    ensures StartAction(i.obs, i.policy).value.StartCandidate? && StartAction(i.obs, i.policy).value.ordinals != []
    ensures var a := Cut(StartAction(i.obs, i.policy).value, capacity);
            Advances(i, WithLoop(i, Single.Carried(LoopOf(i), a)), capacity)
  {
    StartSpec(i.obs, i.policy);
    var ordinals := StartAction(i.obs, i.policy).value.ordinals;
    var n := Min(capacity, |ordinals|);
    PrefixElements(ordinals, n);
    var started := Elements(ordinals[..n]);
    assert ordinals[..n][0] in started;
    CutStartAdvances(i, started, capacity);
    LaterAdvances(i, i.(obs := i.obs.(candidateActive := i.obs.candidateActive + started)), capacity, 0);
  }

  lemma DrainAdvances(i: Instance, capacity: nat)
    requires ValidInstance(i) && i.draining == {} && DrainAction(i.obs, i.policy).Some?
    ensures DrainAction(i.obs, i.policy).value.DrainPrevious?
    ensures Advances(i, WithLoop(i, Single.Carried(LoopOf(i), DrainAction(i.obs, i.policy).value)), capacity)
  {
    Single.DrainKeeps(LoopOf(i), i.policy);
  }

  /** What the stack makes of an instance's own action advances that instance. */
  lemma ActionAdvances(i: Instance, capacity: nat)
    requires ValidInstance(i) && i.draining == {} && Acts(i, capacity)
    ensures Advances(i, WithLoop(i, Single.Carried(LoopOf(i), Cut(Own(i).value, capacity))), capacity)
  {
    Single.DecidedAction(i.obs, i.policy);
    if Own(i).value.StartCandidate? {
      StartAdvances(i, capacity);
    } else {
      DrainAdvances(i, capacity);
    }
  }

  // One event of the stack

  /** Exactly the instance at `k` advances, within the capacity of the stack. */
  ghost predicate Moves(s: seq<Instance>, t: seq<Instance>, k: nat) {
    && k < |s| && ChangedAt(s, t, k)
    && StartCapacity(s).Ok? && Advances(s[k], t[k], StartCapacity(s).value)
  }

  /** The stack acts through its first acting instance. */
  lemma {:induction false} FirstActingAt(s: seq<Instance>, capacity: nat) returns (k: nat)
    requires FirstActing(s, capacity).Some?
    ensures k < |s| && Acts(s[k], capacity)
    ensures FirstActing(s, capacity) == Some(Decision(Some(s[k].name), Cut(Own(s[k]).value, capacity)))
    ensures forall j :: 0 <= j < k ==> !Acts(s[j], capacity)
  {
    if Acts(s[0], capacity) {
      k := 0;
    } else {
      k := FirstActingAt(s[1..], capacity);
      k := k + 1;
    }
  }

  lemma {:induction false} InterruptIsNoChange(s: seq<Instance>)
    ensures FirstInterrupt(s).Some? && FirstInterrupt(s).value.Ok? ==> FirstInterrupt(s).value.value.action.Rollback?
    decreases |s|
  {
    if s != [] {
      InterruptIsNoChange(s[1..]);
    }
  }

  lemma {:induction false} WaitIsNoChange(s: seq<Instance>, capacity: nat)
    ensures FirstWaiting(s, capacity).Some? ==> FirstWaiting(s, capacity).value.action.Wait?
    decreases |s|
  {
    if s != [] {
      WaitIsNoChange(s[1..], capacity);
    }
  }

  /** A decision that changes replicas is taken with no drain outstanding. */
  lemma DecisionActs(s: seq<Instance>)
    requires Decides(s)
    ensures StartCapacity(s).Ok? && FirstActing(s, StartCapacity(s).value) == Some(StackNext(s, true).value)
    ensures forall i <- s :: i.draining == {}
  {
    InterruptIsNoChange(s);
    if StartCapacity(s).Ok? {
      WaitIsNoChange(s, StartCapacity(s).value);
    }
  }

  /** Carrying out an action changes only the instance of that name. */
  lemma CarriedAt(s: seq<Instance>, k: nat, a: Action)
    requires DistinctNames(s) && k < |s| && ChangesReplicas(a)
    ensures var t := Marked(Carried(s, Some(s[k].name), a));
            ChangedAt(s, t, k) && t[k] == Since(WithLoop(s[k], Single.Carried(LoopOf(s[k]), a)), 0)
  {
    var t := Marked(Carried(s, Some(s[k].name), a));
    forall j | 0 <= j < |s| && j != k ensures SameInstance(s[j], t[j]) {
      assert s[j].name != s[k].name;
    }
  }

  lemma DecideMoves(s: seq<Instance>) returns (k: nat)
    requires ValidStack(s) && Decides(s)
    ensures Moves(s, After(s, Decide), k)
  {
    DecisionActs(s);
    var capacity := StartCapacity(s).value;
    k := FirstActingAt(s, capacity);
    assert s[k] in s && ValidInstance(s[k]);
    ActionAdvances(s[k], capacity);
    var a := Cut(Own(s[k]).value, capacity);
    LaterAdvances(s[k], WithLoop(s[k], Single.Carried(LoopOf(s[k]), a)), capacity, 0);
    CarriedAt(s, k, a);
  }

  lemma PutAt(s: seq<Instance>, k: nat, e: Single.Event)
    requires k < |s| && Single.Enabled(LoopOf(s[k]), e, s[k].policy)
    ensures ChangedAt(s, Put(s, k, e), k) && ChangedAt(s, Marked(Put(s, k, e)), k)
    ensures Marked(Put(s, k, e))[k] == Since(Put(s, k, e)[k], 0)
  {
  }

  lemma PutMoves(s: seq<Instance>, k: nat, e: Single.Event, marked: bool)
    requires ValidStack(s) && k < |s| && Single.Enabled(LoopOf(s[k]), e, s[k].policy)
    requires !e.Decide? && !e.Elapse?
    ensures Moves(s, if marked then Marked(Put(s, k, e)) else Put(s, k, e), k)
  {
    assert s[k] in s && ValidInstance(s[k]);
    SingleAdvances(s[k], e);
    LaterAdvances(s[k], Put(s, k, e)[k], 0, 0);
    PutAt(s, k, e);
  }

  lemma EventMoves(s: seq<Instance>, e: Event) returns (k: nat)
    requires ValidStack(s) && Enabled(s, e) && !e.Elapse?
    ensures Moves(s, After(s, e), k)
  {
    match e
    case Decide => k := DecideMoves(s);
    case Stops(k0, i) => PutMoves(s, k0, Single.Stops(i), false); k := k0;
    case Fails(k0, i) => PutMoves(s, k0, Single.Fails(i), false); k := k0;
    case Reaped(k0, i) => PutMoves(s, k0, Single.Reaped(i), false); k := k0;
    case Acknowledged(k0, i) => PutMoves(s, k0, Single.Acknowledged(i), true); k := k0;
    case BecomesReady(k0, i) => PutMoves(s, k0, Single.BecomesReady(i), false); k := k0;
    case BecomesAvailable(k0, i) => PutMoves(s, k0, Single.BecomesAvailable(i), false); k := k0;
  }

  /** No instance falls below the lesser of what it keeps in `s` and its availability floor. */
  ghost predicate FloorsHold(s: seq<Instance>, t: seq<Instance>) {
    SameShapes(s, t) && forall k :: 0 <= k < |s| ==> FloorHolds(s[k], t[k])
  }

  ghost predicate FloorHolds(i: Instance, j: Instance) {
    Single.Kept(LoopOf(j)) >= Min(Single.Kept(LoopOf(i)), MinimumAvailable(i.obs, i.policy))
  }

  lemma SameStays(i: Instance, j: Instance)
    requires ValidInstance(i) && SameInstance(i, j)
    ensures ValidInstance(j) && FloorHolds(i, j)
  {
  }

  /** The other instances stay as they are. */
  lemma OthersStay(s: seq<Instance>, t: seq<Instance>, k: int)
    requires AllValid(s) && ChangedAt(s, t, k)
    requires 0 <= k < |s| ==> ValidInstance(t[k]) && FloorHolds(s[k], t[k])
    ensures AllValid(t) && FloorsHold(s, t)
  {
    forall j | 0 <= j < |s| ensures ValidInstance(t[j]) && FloorHolds(s[j], t[j]) {
      assert s[j] in s;
      if j != k {
        SameStays(s[j], t[j]);
      }
    }
  }

  lemma ShapesKeepNames(s: seq<Instance>, t: seq<Instance>)
    requires DistinctNames(s) && SameShapes(s, t)
    ensures DistinctNames(t)
  {
    assert forall j :: 0 <= j < |s| ==> SameShape(s[j], t[j]);
  }

  lemma MovedStackIsValid(s: seq<Instance>, t: seq<Instance>, k: nat)
    requires ValidStack(s) && Moves(s, t, k)
    ensures ValidStack(t) && FloorsHold(s, t) && StackLimit(t) == StackLimit(s) && TotalOwed(t) < TotalOwed(s)
  {
    ShapesKeepLimit(s, t);
    ShapesKeepNames(s, t);
    TotalsChange(s, t, k);
    OthersStay(s, t, k);
  }

  lemma AgedStackIsValid(s: seq<Instance>, ms: nat)
    requires ValidStack(s)
    ensures var t := Aged(s, ms);
            ValidStack(t) && FloorsHold(s, t) && StackLimit(t) == StackLimit(s) && TotalOwed(t) == TotalOwed(s)
  {
    var t := Aged(s, ms);
    ShapesKeepLimit(s, t);
    ShapesKeepNames(s, t);
    TotalsChange(s, t, -1);
    OthersStay(s, t, -1);
  }

  /** Every event keeps the stack valid, its limit and every floor; all but the passing of time make progress. */
  lemma EventKeeps(s: seq<Instance>, e: Event)
    requires ValidStack(s) && Enabled(s, e)
    ensures var t := After(s, e);
            && ValidStack(t) && FloorsHold(s, t) && StackLimit(t) == StackLimit(s)
            && (if e.Elapse? then TotalOwed(t) == TotalOwed(s) else TotalOwed(t) < TotalOwed(s))
  {
    if e.Elapse? {
      AgedStackIsValid(s, e.ms);
    } else {
      var k := EventMoves(s, e);
      MovedStackIsValid(s, After(s, e), k);
    }
  }

  // Whole runs

  lemma FloorsTrans(s: seq<Instance>, t: seq<Instance>, u: seq<Instance>)
    requires FloorsHold(s, t) && FloorsHold(t, u)
    ensures FloorsHold(s, u)
  {
    forall k | 0 <= k < |s| ensures SameShape(s[k], u[k]) && FloorHolds(s[k], u[k]) {
      assert SameShape(s[k], t[k]) && SameShape(t[k], u[k]);
      assert FloorHolds(s[k], t[k]) && FloorHolds(t[k], u[k]);
    }
  }

  /**
   In every run of the stack the active replicas of all instances together stay within the stack limit, each
   instance stays within its own surge capacity, and none serves less than its availability floor allows.
   */
  lemma {:induction false} RunKeepsBudgets(s: seq<Instance>, events: seq<Event>)
    requires ValidStack(s) && IsRun(s, events)
    ensures var t := Final(s, events);
            && ValidStack(t) && FloorsHold(s, t) && StackLimit(t) == StackLimit(s)
            && TotalActive(t) <= TotalSurge(s) + (if TotalPrevious(s) < TotalCandidate(s) then TotalCandidate(s)
                                                  else TotalPrevious(s))
            && (forall k :: 0 <= k < |s| ==> WithinBudgets(s[k], t[k]))
    decreases |events|
  {
    BudgetsHold(s);
    if events != [] {
      EventKeeps(s, events[0]);
      var t := After(s, events[0]);
      RunKeepsBudgets(t, events[1..]);
      FloorsTrans(s, t, Final(s, events));
      FloorsAreBudgets(s, Final(s, events));
    }
  }

  /** What the budgets of `i` allow for `j`, the same instance later: its surge capacity and its availability floor. */
  predicate WithinBudgets(i: Instance, j: Instance) {
    var replicas := if i.obs.previousReplicas < i.obs.candidateReplicas then i.obs.candidateReplicas
                    else i.obs.previousReplicas;
    var kept := |j.obs.previousReady - j.draining| + |j.obs.candidateAvailable|;
    && |j.obs.previousActive| + |j.obs.candidateActive| <= replicas + i.policy.maxSurge
    && (kept >= |i.obs.previousReady - i.draining| + |i.obs.candidateAvailable|
        || kept >= i.obs.candidateReplicas - i.policy.maxUnavailable)
  }

  lemma FloorsAreBudgets(s: seq<Instance>, t: seq<Instance>)
    requires FloorsHold(s, t) && AllValid(t)
    ensures forall k :: 0 <= k < |s| ==> WithinBudgets(s[k], t[k])
  {
    forall k | 0 <= k < |s| ensures WithinBudgets(s[k], t[k]) {
      assert t[k] in t && ValidInstance(t[k]);
      assert SameShape(s[k], t[k]) && FloorHolds(s[k], t[k]);
    }
  }

  lemma BudgetsHold(s: seq<Instance>)
    requires AllValid(s)
    ensures forall k :: 0 <= k < |s| ==> WithinBudgets(s[k], s[k])
  {
    FloorsAreBudgets(s, s);
  }

  /** The totals of a stack are sums over its instances. */
  lemma {:induction false} TotalsAdd(s: seq<Instance>, i: Instance)
    ensures TotalActive([]) == TotalPrevious([]) == TotalCandidate([]) == TotalSurge([]) == 0
    ensures TotalActive(s + [i]) == TotalActive(s) + |i.obs.previousActive| + |i.obs.candidateActive|
    ensures TotalPrevious(s + [i]) == TotalPrevious(s) + i.obs.previousReplicas
    ensures TotalCandidate(s + [i]) == TotalCandidate(s) + i.obs.candidateReplicas
    ensures TotalSurge(s + [i]) == TotalSurge(s) + i.policy.maxSurge
  {
    if s == [] {
      assert s + [i] == [i];
      SingleTotals(i);
    } else {
      assert (s + [i])[1..] == s[1..] + [i];
      TotalsAdd(s[1..], i);
    }
  }

  function Progressing(events: seq<Event>): nat {
    if events == [] then 0 else (if events[0].Elapse? then 0 else 1) + Progressing(events[1..])
  }

  lemma {:induction false} OwedIsNatural(s: seq<Instance>)
    requires AllValid(s)
    ensures TotalOwed(s) >= 0
  {
    if s != [] {
      assert s[0] in s && ValidInstance(s[0]);
      Single.OwedIsNatural(LoopOf(s[0]), s[0].policy);
      OwedIsNatural(s[1..]);
    }
  }

  /** No run of the stack makes more progress than its instances owed together at the start. */
  lemma {:induction false} RunsAreBounded(s: seq<Instance>, events: seq<Event>)
    requires ValidStack(s) && IsRun(s, events)
    ensures Progressing(events) <= TotalOwed(s)
    decreases |events|
  {
    if events == [] {
      OwedIsNatural(s);
    } else {
      EventKeeps(s, events[0]);
      RunsAreBounded(After(s, events[0]), events[1..]);
    }
  }

  // Where runs end

  ghost predicate Quiescent(s: seq<Instance>) {
    forall e: Event :: Enabled(s, e) ==> e.Elapse?
  }

  predicate BeforeDeadlines(s: seq<Instance>) {
    forall i <- s :: i.obs.elapsedSinceProgressMs < i.policy.progressDeadlineMs
  }

  /** The stack capacity is used up and every unfinished instance wants to start first. */
  ghost predicate StuckStack(s: seq<Instance>) {
    StartCapacity(s) == Ok(0) && !AllFinished(s) && AllWantToStart(s)
  }

  /** Nothing is under way in any instance. */
  ghost predicate Resting(s: seq<Instance>) {
    forall i <- s :: Single.Resting(LoopOf(i))
  }

  lemma QuiescentIsResting(s: seq<Instance>)
    requires AllValid(s) && Quiescent(s)
    ensures Resting(s) && !Decides(s)
  {
    assert !Enabled(s, Decide);
    forall k | 0 <= k < |s| ensures Single.Resting(LoopOf(s[k])) {
      assert s[k] in s && ValidInstance(s[k]);
      forall i ensures i !in s[k].draining {
        assert !Enabled(s, Stops(k, i)) && !Enabled(s, Reaped(k, i)) && !Enabled(s, Acknowledged(k, i));
      }
      forall i <- s[k].obs.candidateActive ensures i in s[k].obs.candidateReady {
        assert !Enabled(s, BecomesReady(k, i));
      }
      forall i <- s[k].obs.candidateReady ensures i in s[k].obs.candidateAvailable {
        assert !Enabled(s, BecomesAvailable(k, i));
      }
    }
  }

  lemma RestingIsQuiescent(s: seq<Instance>)
    requires AllValid(s) && Resting(s) && !Decides(s)
    ensures Quiescent(s)
  {
    forall k | 0 <= k < |s| ensures ValidInstance(s[k]) && Single.Resting(LoopOf(s[k])) {
      assert s[k] in s;
    }
  }

  lemma RestingIsSettled(s: seq<Instance>)
    requires AllValid(s) && BeforeDeadlines(s)
    ensures Resting(s) <==> Settled(s)
  {
    assert forall i <- s :: ValidInstance(i);
    if Resting(s) {
      assert forall i <- s :: Single.Resting(LoopOf(i));
    }
  }

  /** Everything is finished and no drain is outstanding. */
  ghost predicate Completed(s: seq<Instance>) {
    AllFinished(s) && forall i <- s :: i.draining == {}
  }

  lemma CompletedIsResting(s: seq<Instance>)
    requires AllValid(s) && Completed(s)
    ensures Resting(s)
  {
    forall i <- s ensures i.obs.candidateAvailable == i.obs.candidateActive {
      assert ValidInstance(i);
      WithinSize(i.obs.candidateActive, i.obs.candidateReplicas);
    }
  }

  /** With nothing pending the stack acts, unless it is finished or stuck. */
  lemma SettledDecides(s: seq<Instance>)
    requires Settled(s) && StartCapacity(s).Ok?
    ensures Decides(s) <==> !AllFinished(s) && !StuckStack(s)
    ensures AllFinished(s) ==> StackNext(s, true) == Ok(Decision(None, Complete))
  {
    ScanSettled(s, StartCapacity(s).value);
    StuckExactly(s);
    assert !exists i <- s :: i.draining != {};
  }

  /**
   Before the deadlines a stack can make no further progress if and only if it is complete, or nothing is
   pending and its capacity is used up by instances that all want to start first.
   */
  lemma QuiescentExactly(s: seq<Instance>)
    requires ValidStack(s) && BeforeDeadlines(s)
    ensures Quiescent(s) <==> Completed(s) || (Settled(s) && StuckStack(s))
  {
    RestingIsSettled(s);
    if Completed(s) {
      CompletedIsResting(s);
    }
    if Resting(s) {
      SettledDecides(s);
    }
    if Quiescent(s) {
      QuiescentIsResting(s);
    } else if Resting(s) && !Decides(s) {
      RestingIsQuiescent(s);
    }
  }

  lemma DirectionStays(s: seq<Instance>, t: seq<Instance>)
    requires OneDirection(s) && SameShapes(s, t)
    ensures OneDirection(t)
  {
    forall j <- t ensures exists k :: 0 <= k < |s| && SameShape(s[k], j) {
      var k :| 0 <= k < |t| && t[k] == j;
      assert SameShape(s[k], j);
    }
  }

  /**
   When no instance shrinks while another grows, every maximal run of the stack before the deadlines ends with
   the update complete: no previous replica is left and every candidate is available.
   */
  lemma MaximalRunCompletes(s: seq<Instance>, events: seq<Event>)
    requires ValidStack(s) && IsRun(s, events) && OneDirection(s)
    requires Quiescent(Final(s, events)) && BeforeDeadlines(Final(s, events))
    ensures Completed(Final(s, events))
    ensures StackNext(Final(s, events), true) == Ok(Decision(None, Complete))
  {
    var t := Final(s, events);
    RunKeepsBudgets(s, events);
    DirectionStays(s, t);
    QuiescentIsResting(t);
    RestingIsSettled(t);
    SettledDecides(t);
    StuckExactly(t);
    OneDirectionNeverStuck(t);
  }

  // A draining replica that has ended without stopping, until the supervisor marks it

  /** Some replica that was told to drain has ended without stopping. */
  ghost predicate DrainFailed(s: seq<Instance>) {
    exists i <- s :: i.failed != {}
  }

  lemma FailedIsDraining(s: seq<Instance>)
    requires AllValid(s) && DrainFailed(s)
    ensures exists i <- s :: i.draining != {}
  {
    var i :| i in s && i.failed != {};
    assert ValidInstance(i);
  }

  /** It keeps the whole stack from starting or draining anything. */
  lemma FailedDrainDecidesNothing(s: seq<Instance>)
    requires AllValid(s) && DrainFailed(s)
    ensures !Decides(s)
  {
    FailedIsDraining(s);
    if Decides(s) {
      DecisionActs(s);
    }
  }

  predicate DeadlinesPassed(s: seq<Instance>) {
    forall i <- s :: i.obs.elapsedSinceProgressMs >= i.policy.progressDeadlineMs
  }

  /** Once the deadlines have passed, an instance is rolled back exactly if it is unfinished. */
  lemma {:induction false} InterruptExactly(s: seq<Instance>)
    requires AllValid(s) && DeadlinesPassed(s)
    ensures FirstInterrupt(s).None? <==> AllFinished(s)
    ensures FirstInterrupt(s).Some? ==> FirstInterrupt(s).value.Ok? && FirstInterrupt(s).value.value.action.Rollback?
  {
    if s != [] {
      assert s[0] in s && ValidInstance(s[0]);
      CompleteExactly(s[0].obs, s[0].policy);
      RollbackExactly(s[0].obs, s[0].policy);
      InterruptExactly(s[1..]);
      assert s == [s[0]] + s[1..];
    }
  }

  lemma {:induction false} FinishedDoesNotInterrupt(s: seq<Instance>)
    requires AllValid(s) && AllFinished(s)
    ensures FirstInterrupt(s).None?
  {
    if s != [] {
      assert s[0] in s && ValidInstance(s[0]);
      CompleteExactly(s[0].obs, s[0].policy);
      FinishedDoesNotInterrupt(s[1..]);
    }
  }

  /** A failed drain leads to a rollback at the deadlines if and only if some instance is unfinished by then. */
  lemma FailedDrainRollsBackExactly(s: seq<Instance>)
    requires ValidStack(s) && DrainFailed(s) && DeadlinesPassed(s)
    ensures StackNext(s, true).Ok?
    ensures StackNext(s, true).value.action.Rollback? <==> !AllFinished(s)
  {
    InterruptExactly(s);
    FailedIsDraining(s);
  }

  /** All that is left is a failed drain. */
  ghost predicate Abandoned(s: seq<Instance>) {
    && AllFinished(s) && DrainFailed(s)
    && forall i <- s :: i.draining == i.failed && i.obs.candidateActive == i.obs.candidateAvailable
  }

  predicate NoneReaped(events: seq<Event>) {
    forall e <- events :: !e.Reaped?
  }

  /**
   If every instance is finished by then, the stack waits as long as the supervisor does not mark the replica
   as stopped: whatever time passes, it neither completes nor rolls back.
   */
  lemma {:induction false} AbandonedStackWaits(s: seq<Instance>, events: seq<Event>)
    requires ValidStack(s) && Abandoned(s) && IsRun(s, events) && NoneReaped(events)
    ensures StackNext(Final(s, events), true) == Ok(Decision(None, Wait(AvailabilityBudget)))
    decreases |events|
  {
    FinishedDoesNotInterrupt(s);
    FailedIsDraining(s);
    if events != [] {
      assert events[0] in events;
      AbandonedOnlyAges(s, events[0]);
      EventKeeps(s, events[0]);
      AgedIsAbandoned(s, events[0].ms);
      AbandonedStackWaits(After(s, events[0]), events[1..]);
    }
  }

  lemma AbandonedOnlyAges(s: seq<Instance>, e: Event)
    requires ValidStack(s) && Abandoned(s) && Enabled(s, e) && !e.Reaped?
    ensures e.Elapse?
  {
    FailedDrainDecidesNothing(s);
    forall k | 0 <= k < |s|
      ensures ValidInstance(s[k]) && s[k].draining == s[k].failed
      ensures s[k].obs.candidateActive == s[k].obs.candidateAvailable
    {
      assert s[k] in s;
    }
  }

  lemma AgedIsAbandoned(s: seq<Instance>, ms: nat)
    requires Abandoned(s)
    ensures Abandoned(Aged(s, ms))
  {
    var t := Aged(s, ms);
    forall j | 0 <= j < |t|
      ensures Finished(t[j].obs) && t[j].draining == t[j].failed
      ensures t[j].obs.candidateActive == t[j].obs.candidateAvailable
    {
      assert s[j] in s && SameInstance(s[j], t[j]);
    }
    var i :| i in s && i.failed != {};
    var k :| 0 <= k < |s| && s[k] == i;
    assert t[k] in t;
  }

  // A run that gets stuck

  function Started(ready: set<nat>): Instance {
    Growing({}).(obs := Growing({}).obs.(candidateActive := {1}, candidateReady := ready))
  }

  lemma MixedIsValid()
    ensures ValidStack([Growing({}), Shrinking()])
  {
    GrowingIsValidLoop();
    ShrinkingIsValidLoop();
    MixedTotals({});
    assert Growing({}).name != Shrinking().name;
  }

  lemma GrowingIsValidLoop()
    ensures ValidInstance(Growing({}))
  {
    GrowingStarts({});
  }

  lemma ShrinkingIsValidLoop()
    ensures ValidInstance(Shrinking())
  {
    ShrinkingStarts();
  }

  lemma MixedDecides()
    ensures Enabled([Growing({}), Shrinking()], Decide)
    ensures After([Growing({}), Shrinking()], Decide) == [Started({}), Shrinking()]
  {
    MixedStart();
    var s := [Growing({}), Shrinking()];
    assert "a" != "b";
    assert Elements([1]) == {1};
    assert {} + {1} == {1};
    var t := After(s, Decide);
    assert t[0] == Started({}) && t[1] == Shrinking();
  }

  lemma MixedBecomesReady()
    ensures var s := [Started({}), Shrinking()];
            Enabled(s, BecomesReady(0, 1)) && After(s, BecomesReady(0, 1)) == [Started({1}), Shrinking()]
  {
    assert {} + {1} == {1};
  }

  lemma MixedBecomesAvailable()
    ensures var s := [Started({1}), Shrinking()];
            Enabled(s, BecomesAvailable(0, 1)) && After(s, BecomesAvailable(0, 1)) == [Growing({1}), Shrinking()]
  {
    assert {} + {1} == {1};
  }

  lemma ThreeSteps(s: seq<Instance>, a: Event, b: Event, c: Event)
    requires Enabled(s, a) && Enabled(After(s, a), b) && Enabled(After(After(s, a), b), c)
    ensures IsRun(s, [a, b, c]) && Final(s, [a, b, c]) == After(After(After(s, a), b), c)
  {
    assert [a, b, c][1..] == [b, c] && [b, c][1..] == [c] && [c][1..] == [];
    var s2 := After(After(s, a), b);
    assert IsRun(After(s2, c), []);
    assert IsRun(s2, [c]) && Final(s2, [c]) == After(s2, c);
    assert IsRun(After(s, a), [b, c]) && Final(After(s, a), [b, c]) == After(s2, c);
  }

  lemma MixedIsQuiescent()
    requires ValidStack([Growing({1}), Shrinking()])
    ensures var s := [Growing({1}), Shrinking()]; Quiescent(s) && BeforeDeadlines(s) && !AllFinished(s)
  {
    MixedSettled();
    MixedTotals({1});
    QuiescentExactly([Growing({1}), Shrinking()]);
  }

  /** From a valid stack, one start uses up the capacity; once it is available the stack is quiescent and unfinished. */
  lemma MixedRunGetsStuck()
    ensures var s := [Growing({}), Shrinking()];
            var run := [Decide, BecomesReady(0, 1), BecomesAvailable(0, 1)];
            && ValidStack(s) && IsRun(s, run)
            && Quiescent(Final(s, run)) && BeforeDeadlines(Final(s, run)) && !AllFinished(Final(s, run))
  {
    MixedIsValid();
    MixedDecides();
    MixedBecomesReady();
    MixedBecomesAvailable();
    var s := [Growing({}), Shrinking()];
    ThreeSteps(s, Decide, BecomesReady(0, 1), BecomesAvailable(0, 1));
    RunKeepsBudgets(s, [Decide, BecomesReady(0, 1), BecomesAvailable(0, 1)]);
    MixedIsQuiescent();
  }

  // A run that ends with an abandoned stack

  /** One replica is replaced by one candidate. */
  function Replaced(candidates: set<nat>, ready: set<nat>, available: set<nat>): Instance {
    Instance("a", SURGING, Observation(1, 1, {1}, {1}, candidates, ready, available, {}, 0), {}, {}, {})
  }

  lemma SingleTotals(i: Instance)
    ensures TotalActive([i]) == Active(i.obs) && TotalSurge([i]) == i.policy.maxSurge
    ensures TotalPrevious([i]) == i.obs.previousReplicas && TotalCandidate([i]) == i.obs.candidateReplicas
  {
    assert [i][1..] == [];
    assert TotalActive([]) == 0 && TotalSurge([]) == 0;
    assert TotalPrevious([]) == 0 && TotalCandidate([]) == 0;
  }

  lemma ReplacedIsValid(candidates: set<nat>, ready: set<nat>, available: set<nat>)
    requires available <= ready <= candidates <= {1}
    ensures ValidStack([Replaced(candidates, ready, available)])
    ensures StartCapacity([Replaced(candidates, ready, available)]) == Ok(1 - |candidates|)
  {
    var i := Replaced(candidates, ready, available);
    SubsetSize(candidates, {1});
    SingleTotals(i);
    assert Valid(i.obs, i.policy);
  }

  lemma ReplacedStarts()
    ensures Own(Replaced({}, {}, {})) == Ok(StartCandidate([1]))
  {
    var o := Replaced({}, {}, {}).obs;
    ReplacedIsValid({}, {}, {});
    assert 1 in Free(o) && StartCount(o, SURGING) == 1;
    assert TakeAscending(Free(o), 2, 1, 0) == [];
    assert TakeAscending(Free(o), 1, 1, 1) == [1];
    assert 1 in o.previousActive;
  }

  lemma ReplacedDrains()
    ensures Own(Replaced({1}, {1}, {1})) == Ok(DrainPrevious([1], SURGING.drainTimeoutMs))
  {
    var o := Replaced({1}, {1}, {1}).obs;
    ReplacedIsValid({1}, {1}, {1});
    assert Unready(o) == {} && |Unready(o)| == 0;
    assert |o.previousReady| == 1 && |o.candidateAvailable| == 1 && |o.candidateActive| == 1;
    assert Serving(o) == 2 && MinimumAvailable(o, SURGING) == 1;
    assert DrainBudget(o, SURGING) == 1;
    assert StartCount(o, SURGING) == 0;
    assert TakeAscending(o.previousReady, 2, 1, 0) == [];
    assert TakeAscending(o.previousReady, 1, 1, 1) == [1];
    assert TakeAscending(Unready(o), 1, 1, 0) == [];
    assert DrainList(o, SURGING) == [1];
    assert [1][1..] == [] && Sort([]) == [];
    assert Sort([1]) == [1];
    assert 1 in o.previousActive;
  }

  lemma SingleDecides(i: Instance, a: Action)
    requires StartCapacity([i]).Ok? && Own(i) == Ok(a) && ChangesReplicas(Cut(a, StartCapacity([i]).value))
    requires i.draining == {}
    ensures Decides([i]) && After([i], Decide)
            == [Since(WithLoop(i, Single.Carried(LoopOf(i), Cut(a, StartCapacity([i]).value))), 0)]
  {
    assert [i][1..] == [];
    assert FirstInterrupt([]).None? && FirstInterrupt([i]).None?;
  }

  lemma ReplacementStarts()
    ensures var s := [Replaced({}, {}, {})]; Decides(s) && After(s, Decide) == [Replaced({1}, {}, {})]
  {
    ReplacedIsValid({}, {}, {});
    ReplacedStarts();
    assert [1][..1] == [1] && Elements([1]) == {1} && {} + {1} == {1};
    SingleDecides(Replaced({}, {}, {}), StartCandidate([1]));
  }

  lemma ReplacementDrains()
    ensures var s := [Replaced({1}, {1}, {1})];
            Decides(s) && After(s, Decide) == [Replaced({1}, {1}, {1}).(draining := {1})]
  {
    ReplacedIsValid({1}, {1}, {1});
    ReplacedDrains();
    assert Elements([1]) == {1};
    SingleDecides(Replaced({1}, {1}, {1}), DrainPrevious([1], SURGING.drainTimeoutMs));
  }

  lemma ReplacementServes()
    ensures var s := [Replaced({1}, {}, {})];
            Enabled(s, BecomesReady(0, 1)) && After(s, BecomesReady(0, 1)) == [Replaced({1}, {1}, {})]
    ensures var s := [Replaced({1}, {1}, {})];
            Enabled(s, BecomesAvailable(0, 1)) && After(s, BecomesAvailable(0, 1)) == [Replaced({1}, {1}, {1})]
  {
    assert {} + {1} == {1};
  }

  lemma ReplacementFails()
    ensures var s := [Replaced({1}, {1}, {1}).(draining := {1})];
            && Enabled(s, Fails(0, 1))
            && Abandoned(After(s, Fails(0, 1)))
  {
    var s := [Replaced({1}, {1}, {1}).(draining := {1})];
    var t := After(s, Fails(0, 1));
    assert {} + {1} == {1} && {1} - {1} == {};
    assert t == [t[0]];
    assert Range(1, 1) == {1};
    assert t[0] in t;
  }

  lemma Continues(s: seq<Instance>, e: Event, t: seq<Instance>, events: seq<Event>)
    requires Enabled(s, e) && t == After(s, e) && IsRun(t, events)
    ensures IsRun(s, [e] + events) && Final(s, [e] + events) == Final(t, events)
  {
    assert ([e] + events)[1..] == events;
  }

  /** From a valid stack of one instance: its last previous replica fails while draining. */
  lemma AbandonedIsReached()
    ensures var s := [Replaced({}, {}, {})];
            var run := [Decide, BecomesReady(0, 1), BecomesAvailable(0, 1), Decide, Fails(0, 1)];
            && ValidStack(s) && IsRun(s, run)
            && Abandoned(Final(s, run))
  {
    var s0, s1, s2 := [Replaced({}, {}, {})], [Replaced({1}, {}, {})], [Replaced({1}, {1}, {})];
    var s3, s4 := [Replaced({1}, {1}, {1})], [Replaced({1}, {1}, {1}).(draining := {1})];
    ReplacedIsValid({}, {}, {});
    ReplacementStarts();
    ReplacementServes();
    ReplacementDrains();
    ReplacementFails();
    Continues(s4, Fails(0, 1), After(s4, Fails(0, 1)), []);
    Continues(s3, Decide, s4, [Fails(0, 1)] + []);
    Continues(s2, BecomesAvailable(0, 1), s3, [Decide] + ([Fails(0, 1)] + []));
    Continues(s1, BecomesReady(0, 1), s2, [BecomesAvailable(0, 1)] + ([Decide] + ([Fails(0, 1)] + [])));
    var rest := [BecomesReady(0, 1)] + ([BecomesAvailable(0, 1)] + ([Decide] + ([Fails(0, 1)] + [])));
    Continues(s0, Decide, s1, rest);
    assert [Decide] + rest == [Decide, BecomesReady(0, 1), BecomesAvailable(0, 1), Decide, Fails(0, 1)];
  }
}
