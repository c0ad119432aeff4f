/**
 The crash window that recovery does not cover: rolling back a committed rollout appends an event and
 then writes the checkpoint. A crash in between leaves the rollout committed for good.
 */
module EngineLoss {
  import opened Wrappers
  import opened Engine
  import opened Rollout
  import opened RolloutSafety
  import opened Reconcile
  import opened ReconcileSafety
  import opened EngineRun

  lemma AppendIsFirstWrite(h: Hashes, s: Store, r: Record, now: nat, clock: nat)
    requires Current(h, s, r) && r.phase == Committed && AtActivation(s, r)
    requires TimeAdvances(r, now) && CanAppend(s, clock)
    ensures var o := RollbackFrom(h, s, r, now, clock);
            && |o.states| > 1
            && Inv(h, o.states[0]) && Rests(o.states[0], Some(r))
            && |o.states[0].journal| == Start(r) + 2 && HasRollback(o.states[0], r)
  {
    AtActivationMatches(h, s, r);
    TargetIsUndo(h, s, r);
    RollbackEvent(h, s, r, clock);
    RollbackActivatedKeeps(h, s, r, now, clock);
    assert GoodAt(h, s, RollbackFrom(h, s, r, now, clock).states, 0);
  }

  /** With a rollout's rollback event at the tip, a read reports rolled-back exactly unless it was committed. */
  lemma RollbackIsSeenUnlessCommitted(h: Hashes, s: Store, r: Record)
    requires Inv(h, s) && Fresh(s.journal) && s.checkpoint.Logical() == Some(r)
    requires |s.journal| == Start(r) + 2 && s.origins[Start(r) + 1] == RollbackOf(KeyOf(r))
    requires r.phase == Activated || r.phase == Committed || r.phase == RolledBack
    ensures Read(h, s).result.Ok? && Read(h, s).result.value.Some?
    ensures Read(h, s).result.value.value.phase == RolledBack <==> r.phase != Committed
  {
    ReadKeeps(h, s);
    RecoveredIsExact(h, s, r);
  }

  // No command moves such a rollout

  predicate Holds(s: Store, k: RolloutKey) {
    s.checkpoint.Logical().Some? && KeyOf(s.checkpoint.Logical().value) == k
  }

  /** The journal has passed the rollback of rollout `k`, and its checkpoint, if it is still there, is committed. */
  predicate Stuck(s: Store, k: RolloutKey) {
    Position(k) + 2 <= |s.journal| && (Holds(s, k) ==> s.checkpoint.Logical().value.phase == Committed)
  }

  predicate AllStuck(states: seq<Store>, k: RolloutKey) {
    forall t <- states :: Stuck(t, k)
  }

  /** A rollout that is no longer checkpointed does not come back: a new one starts at the end of the journal. */
  lemma GoneStaysGone(h: Hashes, s: Store, t: Store, k: RolloutKey)
    requires Position(k) + 2 <= |s.journal| && !Holds(s, k) && Inv(h, t) && Evolves(s, t)
    ensures Position(k) + 2 <= |t.journal| && !Holds(t, k)
  {
  }

  lemma {:induction false} AllGone(h: Hashes, s: Store, states: seq<Store>, k: RolloutKey)
    requires Position(k) + 2 <= |s.journal| && !Holds(s, k) && Good(h, s, states)
    ensures AllStuck(states, k)
    decreases |states|
  {
    if states != [] {
      assert GoodAt(h, s, states, 0);
      GoneStaysGone(h, s, states[0], k);
      forall i | 0 <= i < |states| - 1 ensures GoodAt(h, states[0], states[1..], i) {
        assert GoodAt(h, s, states, i + 1);
      }
      AllGone(h, states[0], states[1..], k);
    }
  }

  /** The checkpoint of every state reads as `r`, and the journal is at least as long as in `s`. */
  predicate Untouched(s: Store, r: Record, states: seq<Store>) {
    forall t <- states :: t.checkpoint.Logical() == Some(r) && |s.journal| <= |t.journal|
  }

  /** A committed rollout whose journal has moved on. */
  ghost predicate Lost(h: Hashes, s: Store, r: Record) {
    Inv(h, s) && s.checkpoint.Logical() == Some(r) && r.phase == Committed && Start(r) + 2 <= |s.journal|
  }

  lemma ReadLost(h: Hashes, s: Store, r: Record)
    requires Lost(h, s, r)
    ensures var o := Read(h, s);
            && o.result == Ok(Some(r))
            && Untouched(s, r, o.states)
            && Lost(h, Last(s, o.states), r) && Current(h, Last(s, o.states), r)
            && Last(s, o.states).progress == s.progress
  {
    ReadKeeps(h, s);
    RecoverStep(h, s);
    var before := WithCheckpoint(s, Recover(s.checkpoint, r => ValidRecord(h, r)).value);
    var t := Last(s, before);
    assert ReadPhase(h, t) == Return([], Some(r));
    assert before + [] == before;
  }

  /** The operations on the record that was read write nothing, and a rollback is refused. */
  lemma LostIsRefused(h: Hashes, s: Store, r: Record, now: nat, clock: nat)
    requires Lost(h, s, r) && Current(h, s, r)
    ensures RollbackFrom(h, s, r, now, clock).states == [] && RollbackFrom(h, s, r, now, clock).result.Err?
  {
    AtActivationMatches(h, s, r);
  }

  lemma LostCommand(h: Hashes, s: Store, r: Record, c: Command)
    requires Lost(h, s, r)
    requires c.ReadCommand? || c.ActivateCommand? || c.CommitCommand? || c.RollbackCommand?
    ensures Untouched(s, r, Writes(h, s, c))
  {
    ReadLost(h, s, r);
    var t := Last(s, Read(h, s).states);
    if c.RollbackCommand? {
      LostIsRefused(h, t, r, c.now, c.clock);
    }
  }

  lemma LostDirect(h: Hashes, s: Store, r: Record, kind: EventKind, plan: Option<StackPlan>, clock: nat)
    requires Lost(h, s, r)
    ensures var gate := EnsureNoActive(h, s);
            && gate.result.Ok? && Untouched(s, r, gate.states)
            && Untouched(s, r, gate.states + AppendNext(h, Last(s, gate.states), kind, plan, clock).states)
  {
    ReadLost(h, s, r);
  }

  lemma LostApply(h: Hashes, s: Store, r: Record, plan: StackPlan, allowInsecure: bool, slotFree: bool, clock: nat)
    requires Lost(h, s, r)
    ensures Untouched(s, r, ApplyPlan(h, s, plan, allowInsecure, slotFree, clock).states)
  {
    LostDirect(h, s, r, Apply, Some(plan), clock);
  }

  lemma LostStop(h: Hashes, s: Store, r: Record, clock: nat)
    requires Lost(h, s, r)
    ensures Untouched(s, r, StopStack(h, s, clock).states)
  {
    var tip := Latest(Last(s, EnsureNoActive(h, s).states));
    LostDirect(h, s, r, Stop, None, clock);
    if tip.Some? && tip.value.body.plan.Some? {
      LostDirect(h, s, r, Stop, Some(StoppedPlan(h, tip.value.body.plan.value)), clock);
    }
  }

  lemma LostRemove(h: Hashes, s: Store, r: Record, clock: nat)
    requires Lost(h, s, r)
    ensures Untouched(s, r, RemoveStack(h, s, clock).states)
  {
    LostDirect(h, s, r, Remove, None, clock);
  }

  lemma SavesProgressOnly(h: Hashes, s: Store, r: Record, q: Progress)
    requires Lost(h, s, r) && Current(h, s, r) && ProgressOk(q, r)
    ensures Untouched(s, r, SaveProgress(h, s, q).states)
  {
    ReadCurrent(h, s, r);
    RecoverProgressStep(h, s);
    var t := Last(s, WithProgress(s, Recover(s.progress, ValidProgress).value));
    assert Untouched(s, r, WriteProgress(t, q).states);
  }

  lemma LostSettles(h: Hashes, s: Store, r: Record, q: Progress, now: nat)
    requires Lost(h, s, r) && Current(h, s, r) && ProgressOk(q, r) && 0 < now && q.updatedAtMs <= now
    ensures Untouched(s, r, SettleCommitted(h, s, q, now).states)
  {
    SavesProgressOnly(h, s, r, Moved(q, Completed, now));
  }

  lemma LostPass(h: Hashes, s: Store, r: Record, i: Inputs)
    requires Lost(h, s, r)
    ensures Untouched(s, r, Pass(h, s, i).states)
  {
    ReadLost(h, s, r);
    var t := Last(s, Read(h, s).states);
    ReadProgressKeeps(h, t, r);
    RecoverProgressStep(h, t);
    var before := WithProgress(t, Recover(t.progress, ValidProgress).value);
    ReadCurrent(h, Last(t, before), r);
    assert ReadProgress(h, t).states == before + [];
    var u := Last(t, before);
    var q := t.progress.Logical();
    if q.Some? {
      LostSettles(h, u, r, q.value, Later(Later(i.now, r.updatedAtMs), q.value.updatedAtMs));
    }
  }

  lemma LostDrops(h: Hashes, s: Store, r: Record)
    requires Lost(h, s, r) && Current(h, s, r)
    ensures DropProgress(s, r).result.Ok? && Untouched(s, r, DropProgress(s, r).states)
    ensures Lost(h, Last(s, DropProgress(s, r).states), r)
  {
    DropProgressKeeps(h, s, r);
    RecoverProgressStep(h, s);
  }

  /** A new rollout starts at the end of the journal, so its key is another one. */
  lemma LostBegins(h: Hashes, s: Store, r: Record, plan: StackPlan, now: nat, slotFree: bool)
    requires Lost(h, s, r)
    ensures AllStuck(Begin(h, s, plan, now, slotFree).states, KeyOf(r))
  {
    TipOf(h, s);
  }

  lemma LostPreparesFrom(
    h: Hashes, s: Store, r: Record, plan: StackPlan, now: nat, slotFree: bool, archived: bool)
    requires Lost(h, s, r) && Current(h, s, r)
    ensures AllStuck(PrepareFrom(h, s, Some(r), plan, now, slotFree, archived).states, KeyOf(r))
  {
    LostDrops(h, s, r);
    LostBegins(h, Last(s, DropProgress(s, r).states), r, plan, now, slotFree);
  }

  lemma LostPrepare(
    h: Hashes, s: Store, r: Record, plan: StackPlan, allowInsecure: bool, now: nat, slotFree: bool, archived: bool)
    requires Lost(h, s, r)
    ensures AllStuck(Prepare(h, s, plan, allowInsecure, now, slotFree, archived).states, KeyOf(r))
  {
    ReadLost(h, s, r);
    LostPreparesFrom(h, Last(s, Read(h, s).states), r, plan, now, slotFree, archived);
  }

  lemma LostStays(h: Hashes, s: Store, r: Record, c: Command)
    requires Lost(h, s, r)
    ensures AllStuck(Writes(h, s, c), KeyOf(r))
  {
    match c
    case PrepareCommand(plan, allowInsecure, now, slotFree, archived) =>
      LostPrepare(h, s, r, plan, allowInsecure, now, slotFree, archived);
    case ApplyCommand(plan, allowInsecure, slotFree, clock) =>
      LostApply(h, s, r, plan, allowInsecure, slotFree, clock);
    case StopCommand(clock) => LostStop(h, s, r, clock);
    case RemoveCommand(clock) => LostRemove(h, s, r, clock);
    case ReconcileCommand(i) => LostPass(h, s, r, i);
    case _ => LostCommand(h, s, r, c);
  }

  lemma StepKeepsStuck(h: Hashes, s: Store, k: RolloutKey, step: Step)
    requires Inv(h, s) && Fresh(s.journal) && Stuck(s, k)
    ensures Stuck(Reached(h, s, step), k)
  {
    CommandKeeps(h, s, step.command);
    if Holds(s, k) {
      LostStays(h, s, s.checkpoint.Logical().value, step.command);
    } else {
      AllGone(h, s, Writes(h, s, step.command), k);
    }
    assert Reached(h, s, step) == s || Reached(h, s, step) in Writes(h, s, step.command);
  }

  lemma {:induction false} RunKeepsStuck(h: Hashes, s: Store, k: RolloutKey, run: seq<Step>)
    requires Inv(h, s) && Stuck(s, k) && FreshRun(h, s, run)
    ensures Stuck(Final(h, s, run), k)
    decreases |run|
  {
    if run != [] {
      StepKeeps(h, s, run[0]);
      StepKeepsStuck(h, s, k, run[0]);
      RunKeepsStuck(h, Reached(h, s, run[0]), k, run[1..]);
    }
  }

  /**
   A crash right after a rollback of a committed rollout appended its event is never repaired. Whatever
   commands, passes and crashes follow, as long as the checkpoint holds this rollout a read
   reports it as committed and an attempt to roll it back fails.
   */
  lemma CommittedRollbackCrashIsLost(
    h: Hashes, s: Store, r: Record, now: nat, clock: nat, run: seq<Step>, now': nat, clock': nat)
    requires Current(h, s, r) && r.phase == Committed && AtActivation(s, r)
    requires TimeAdvances(r, now) && CanAppend(s, clock)
    ensures Rollback(h, s, r.id, now, clock).states != []
    ensures var t := Rollback(h, s, r.id, now, clock).states[0];
            && HasRollback(t, r)
            && (FreshRun(h, t, run) && Holds(Final(h, t, run), KeyOf(r)) ==>
                  var u := Final(h, t, run);
                  && u.checkpoint.Logical().value.phase == Committed
                  && Read(h, u).result == Ok(u.checkpoint.Logical())
                  && Rollback(h, u, r.id, now', clock').result.Err?)
  {
    ReadCurrent(h, s, r);
    AppendIsFirstWrite(h, s, r, now, clock);
    var b := RollbackFrom(h, s, r, now, clock);
    assert [] + b.states == b.states;
    var t := b.states[0];
    if FreshRun(h, t, run) && Holds(Final(h, t, run), KeyOf(r)) {
      RunKeepsStuck(h, t, KeyOf(r), run);
      RunKeepsInvariant(h, t, run);
      var u := Final(h, t, run);
      var c := u.checkpoint.Logical().value;
      ReadLost(h, u, c);
      LostIsRefused(h, Last(u, Read(h, u).states), c, now', clock');
    }
  }

  // Runs that reach the two cases, for every hash and every valid plan

  /** The steps of a rollout of `plan` into an empty store, up to its activation. */
  function Activating(h: Hashes, plan: StackPlan): seq<Step> {
    [Step(PrepareCommand(plan, true, 1, true, true), None),
     Step(ActivateCommand(NewRecord(h, plan, None, 1).id, 1, 1), None)]
  }

  lemma PreparesFirst(h: Hashes, plan: StackPlan)
    requires ValidPlan(h, plan)
    ensures var r := NewRecord(h, plan, None, 1);
            var t := EMPTY.(checkpoint := Slot(Some(r), None));
            Reached(h, EMPTY, Activating(h, plan)[0]) == t && Current(h, t, r)
  {
    var r := NewRecord(h, plan, None, 1);
    NewRecordOk(h, EMPTY, plan, 1);
    WriteKeeps(h, EMPTY, r);
    assert Read(h, EMPTY) == Return([], None);
    var o := Begin(h, EMPTY, plan, 1, true);
    assert [] + o.states == o.states;
  }

  /** On a record at rest the three operations read first and write nothing for it. */
  lemma AtRest(h: Hashes, s: Store, r: Record, now: nat, clock: nat, report: Digest)
    requires Current(h, s, r) && Fresh(s.journal)
    ensures Activate(h, s, r.id, now, clock) == ActivateFrom(h, s, r, now, clock)
    ensures Commit(h, s, r.id, now, true, report) == CommitFrom(h, s, r, now, true, report)
    ensures Rollback(h, s, r.id, now, clock) == RollbackFrom(h, s, r, now, clock)
  {
    ReadCurrent(h, s, r);
    assert forall states: seq<Store> :: [] + states == states;
  }

  lemma ActivatesNext(h: Hashes, plan: StackPlan, s: Store) returns (r: Record)
    requires s == EMPTY.(checkpoint := Slot(Some(NewRecord(h, plan, None, 1)), None))
    requires Current(h, s, NewRecord(h, plan, None, 1))
    ensures var t := Reached(h, s, Activating(h, plan)[1]);
            Current(h, t, r) && FirstActivated(h, plan, t, r)
  {
    var r0 := NewRecord(h, plan, None, 1);
    AtRest(h, s, r0, 1, 1, Digest(""));
    ActivateKeeps(h, s, r0, 1, 1);
    r := ActivateFrom(h, s, r0, 1, 1).result.value;
  }

  /** `r` is the first rollout of the store, activated at time one, without progress. */
  ghost predicate FirstActivated(h: Hashes, plan: StackPlan, t: Store, r: Record) {
    && KeyOf(r) == KeyOf(NewRecord(h, plan, None, 1))
    && r.phase == Activated && r.updatedAtMs == 1 && t.progress == Slot(None, None) && |t.journal| == 1
  }

  lemma ActivatingRun(h: Hashes, plan: StackPlan) returns (r: Record)
    requires ValidPlan(h, plan)
    ensures FreshRun(h, EMPTY, Activating(h, plan))
    ensures var t := Final(h, EMPTY, Activating(h, plan)); Current(h, t, r) && FirstActivated(h, plan, t, r)
  {
    var run := Activating(h, plan);
    PreparesFirst(h, plan);
    var s := Reached(h, EMPTY, run[0]);
    r := ActivatesNext(h, plan, s);
    var t := Reached(h, s, run[1]);
    assert run[1..] == [run[1]] && run[1..][1..] == [];
    assert FreshRun(h, t, []) && FreshRun(h, s, [run[1]]);
    assert Final(h, s, [run[1]]) == t;
  }

  /** A pass that finds no progress and is advised to abort leaves progress that is rolling back. */
  lemma AbortedPass(h: Hashes, s: Store, r: Record, i: Inputs) returns (q: Progress)
    requires Current(h, s, r) && Fresh(s.journal) && r.phase == Activated && s.progress == Slot(None, None)
    requires i.advice == Abort && !i.drainsAcknowledged
    ensures Last(s, Pass(h, s, i).states) == s.(progress := Slot(Some(q), None))
    ensures q.phase == RollingBack && ProgressOk(q, r) && q.updatedAtMs == Later(i.now, r.updatedAtMs)
  {
    var now := Later(i.now, r.updatedAtMs);
    ReadCurrent(h, s, r);
    assert ReadProgress(h, s) == Return([], None);
    BeginProgressKeeps(h, s, r, now, i.deadlineMs);
    var begun := BeginProgress(h, s, r, now, i.deadlineMs);
    var t := Last(s, begun.states);
    ConcludeKeeps(h, t, r, begun.result.value, RollingBack, now);
    q := Moved(begun.result.value, RollingBack, now);
    var o := Settle(h, t, r, begun.result.value, now, i);
    Sequential(h, s, begun.states, o.states);
    assert [] + [] + (begun.states + o.states) == begun.states + o.states;
  }

  lemma {:induction false} RunsJoin(h: Hashes, s: Store, a: seq<Step>, b: seq<Step>)
    ensures Final(h, s, a + b) == Final(h, Final(h, s, a), b)
    ensures FreshRun(h, s, a) && FreshRun(h, Final(h, s, a), b) ==> FreshRun(h, s, a + b)
    decreases |a|
  {
    if a == [] {
      assert a + b == b;
    } else {
      assert (a + b)[1..] == a[1..] + b;
      RunsJoin(h, Reached(h, s, a[0]), a[1..], b);
    }
  }

  lemma OneStep(h: Hashes, s: Store, step: Step)
    ensures Final(h, s, [step]) == Reached(h, s, step)
    ensures Fresh(s.journal) && Fresh(Reached(h, s, step).journal) ==> FreshRun(h, s, [step])
  {
    var t := Reached(h, s, step);
    assert [step][1..] == [];
    assert Final(h, t, []) == t && (Fresh(t.journal) ==> FreshRun(h, t, []));
  }

  lemma CommitSaves(h: Hashes, s: Store, r: Record, report: Digest)
    requires Current(h, s, r) && r.phase == Activated && r.updatedAtMs <= 1
    requires Fresh(s.journal)
    ensures Writes(h, s, CommitCommand(r.id, 1, true, report))
            == WriteCheckpoint(h, s, ToCommitted(r, 1, report)).states
  {
    AtRest(h, s, r, 1, 1, report);
    AtActivationMatches(h, s, r);
  }

  lemma Commits(h: Hashes, s: Store, r: Record, report: Digest)
    requires Current(h, s, r) && Fresh(s.journal) && r.phase == Activated && r.updatedAtMs <= 1
    ensures var t := Reached(h, s, Step(CommitCommand(r.id, 1, true, report), None));
            SameElsewhere(s, t) && Current(h, t, ToCommitted(r, 1, report))
  {
    CommitSaves(h, s, r, report);
    CommittedOk(h, s, r, 1, report);
    WriteKeeps(h, s, ToCommitted(r, 1, report));
  }

  /** A commit at time one of a record at rest, as a run. */
  lemma CommittingRun(h: Hashes, s: Store, r: Record, report: Digest)
    requires Current(h, s, r) && Fresh(s.journal) && r.phase == Activated && r.updatedAtMs <= 1
    ensures var run := [Step(CommitCommand(r.id, 1, true, report), None)];
            var t := Final(h, s, run);
            FreshRun(h, s, run) && SameElsewhere(s, t) && Current(h, t, ToCommitted(r, 1, report))
  {
    Commits(h, s, r, report);
    OneStep(h, s, Step(CommitCommand(r.id, 1, true, report), None));
  }

  const ABORT := Inputs(1, 1, 0, false, false, Digest(""), true, false, Abort)

  lemma PassStep(h: Hashes, s: Store, i: Inputs, t: Store)
    requires t == Last(s, Pass(h, s, i).states) && Fresh(s.journal) && t.journal == s.journal
    ensures FreshRun(h, s, [Step(ReconcileCommand(i), None)])
    ensures Final(h, s, [Step(ReconcileCommand(i), None)]) == t
  {
    OneStep(h, s, Step(ReconcileCommand(i), None));
  }

  lemma AbortingRun(h: Hashes, s: Store, r: Record) returns (q: Progress)
    requires Current(h, s, r) && Fresh(s.journal) && r.phase == Activated && s.progress == Slot(None, None)
    ensures var run := [Step(ReconcileCommand(ABORT), None)];
            FreshRun(h, s, run) && Final(h, s, run) == s.(progress := Slot(Some(q), None))
    ensures q.phase == RollingBack && ProgressOk(q, r)
  {
    q := AbortedPass(h, s, r, ABORT);
    PassStep(h, s, ABORT, s.(progress := Slot(Some(q), None)));
  }

  /** A rollout is prepared and activated, a pass is advised to abort it, and a client commits it. */
  function AbortThenCommit(h: Hashes, plan: StackPlan): seq<Step> {
    Activating(h, plan) + [Step(ReconcileCommand(ABORT), None)]
    + [Step(CommitCommand(NewRecord(h, plan, None, 1).id, 1, true, Digest("")), None)]
  }

  predicate ProgressIs(s: Store, phase: ExecutionPhase) {
    s.progress.Logical().Some? && s.progress.Logical().value.phase == phase
  }

  predicate CheckpointIs(s: Store, phase: Phase) {
    s.checkpoint.Logical().Some? && s.checkpoint.Logical().value.phase == phase
  }

  /** The run ends in the one case that no pass settles: a committed record with progress that is rolling back. */
  lemma UnsettledIsReached(h: Hashes, plan: StackPlan, i: Inputs)
    requires ValidPlan(h, plan)
    ensures FreshRun(h, EMPTY, AbortThenCommit(h, plan))
    ensures var s := Final(h, EMPTY, AbortThenCommit(h, plan));
            && CheckpointIs(s, Committed) && ProgressIs(s, RollingBack)
            && Pass(h, s, i).result.Ok? && ProgressIs(Last(s, Pass(h, s, i).states), RollingBack)
  {
    var r := ActivatingRun(h, plan);
    var a := Activating(h, plan);
    var s := Final(h, EMPTY, a);
    var q := AbortingRun(h, s, r);
    var b := [Step(ReconcileCommand(ABORT), None)];
    var t := Final(h, s, b);
    ProgressFrame(h, s, Slot(Some(q), None));
    CommittingRun(h, t, r, Digest(""));
    var c := [Step(CommitCommand(r.id, 1, true, Digest("")), None)];
    RunsJoin(h, EMPTY, a, b);
    RunsJoin(h, EMPTY, a + b, c);
    var u := Final(h, t, c);
    var r' := ToCommitted(r, 1, Digest(""));
    ReadCurrent(h, u, r');
    PassSettles(h, u, r', q, i);
  }

  /** A rollout is committed, and a rollback of it crashes after its first write. */
  function CommitThenCrash(h: Hashes, plan: StackPlan): seq<Step> {
    var id := NewRecord(h, plan, None, 1).id;
    Activating(h, plan) + [Step(CommitCommand(id, 1, true, Digest("")), None)]
    + [Step(RollbackCommand(id, 1, 1), Some(1))]
  }

  lemma CrashingRun(h: Hashes, s: Store, r: Record)
    requires Current(h, s, r) && r.phase == Committed && AtActivation(s, r) && |s.journal| == 1 && r.updatedAtMs <= 1
    ensures var t := Final(h, s, [Step(RollbackCommand(r.id, 1, 1), Some(1))]);
            Inv(h, t) && Rests(t, Some(r)) && |t.journal| == 2 && HasRollback(t, r)
  {
    AtRest(h, s, r, 1, 1, Digest(""));
    AppendIsFirstWrite(h, s, r, 1, 1);
    OneStep(h, s, Step(RollbackCommand(r.id, 1, 1), Some(1)));
    var states := RollbackFrom(h, s, r, 1, 1).states;
    assert Last(s, states[..1]) == states[0];
  }

  /** The run ends with the rollback in the journal and the rollout still committed. */
  lemma LostRollbackIsReached(h: Hashes, plan: StackPlan)
    requires ValidPlan(h, plan)
    ensures var s := Final(h, EMPTY, CommitThenCrash(h, plan));
            && CheckpointIs(s, Committed)
            && HasRollback(s, s.checkpoint.Logical().value)
            && Lost(h, s, s.checkpoint.Logical().value)
  {
    var r := ActivatingRun(h, plan);
    var a := Activating(h, plan);
    var s := Final(h, EMPTY, a);
    CommittingRun(h, s, r, Digest(""));
    var b := [Step(CommitCommand(r.id, 1, true, Digest("")), None)];
    var t := Final(h, s, b);
    CrashingRun(h, t, ToCommitted(r, 1, Digest("")));
    var c := [Step(RollbackCommand(r.id, 1, 1), Some(1))];
    RunsJoin(h, EMPTY, a, b);
    RunsJoin(h, EMPTY, a + b, c);
  }
}
