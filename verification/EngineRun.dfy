/**
 Whole runs of one stack: any sequence of client commands and reconcile passes, each of which may crash
 after any of its writes. The results below hold in every durable state such a run reaches.
 */
module EngineRun {
  import opened Wrappers
  import opened Engine
  import opened Rollout
  import opened RolloutSafety
  import opened Reconcile
  import opened ReconcileSafety

  datatype Command =
    | ReadCommand
    | PrepareCommand(plan: StackPlan, allowInsecure: bool, now: nat, slotFree: bool, archived: bool)
    | ActivateCommand(id: Digest, now: nat, clock: nat)
    | CommitCommand(id: Digest, now: nat, ready: bool, report: Digest)
    | RollbackCommand(id: Digest, now: nat, clock: nat)
    | ApplyCommand(plan: StackPlan, allowInsecure: bool, slotFree: bool, clock: nat)
    | StopCommand(clock: nat)
    | RemoveCommand(clock: nat)
    | ReconcileCommand(inputs: Inputs)

  /** A command that completes, or one that crashes after `crash` writes. */
  datatype Step = Step(command: Command, crash: Option<nat>)

  function Writes(h: Hashes, s: Store, c: Command): seq<Store> {
    match c
    case ReadCommand => Read(h, s).states
    case PrepareCommand(plan, allowInsecure, now, slotFree, archived) =>
      Prepare(h, s, plan, allowInsecure, now, slotFree, archived).states
    case ActivateCommand(id, now, clock) => Activate(h, s, id, now, clock).states
    case CommitCommand(id, now, ready, report) => Commit(h, s, id, now, ready, report).states
    case RollbackCommand(id, now, clock) => Rollback(h, s, id, now, clock).states
    case ApplyCommand(plan, allowInsecure, slotFree, clock) =>
      ApplyPlan(h, s, plan, allowInsecure, slotFree, clock).states
    case StopCommand(clock) => StopStack(h, s, clock).states
    case RemoveCommand(clock) => RemoveStack(h, s, clock).states
    case ReconcileCommand(i) => Pass(h, s, i).states
  }

  function Reached(h: Hashes, s: Store, step: Step): Store {
    var writes := Writes(h, s, step.command);
    match step.crash
    case None => Last(s, writes)
    case Some(n) => if n < |writes| then Last(s, writes[..n]) else Last(s, writes)
  }

  function Final(h: Hashes, s: Store, run: seq<Step>): Store
    decreases |run|
  {
    if run == [] then s else Final(h, Reached(h, s, run[0]), run[1..])
  }

  /** Along the run, neighbouring journal events have different identities. */
  ghost predicate FreshRun(h: Hashes, s: Store, run: seq<Step>)
    decreases |run|
  {
    Fresh(s.journal) && (run != [] ==> FreshRun(h, Reached(h, s, run[0]), run[1..]))
  }

  const EMPTY := Store([], [], Slot(None, None), Slot(None, None))

  // One command

  lemma RequireKeeps(h: Hashes, s: Store, id: Digest)
    requires Inv(h, s) && Readable(s)
    ensures var o := Require(h, s, id);
            && Good(h, s, o.states)
            && (o.result.Ok? ==> Current(h, Last(s, o.states), o.result.value))
  {
    ReadKeeps(h, s);
  }

  lemma GateKeeps(h: Hashes, s: Store)
    requires Inv(h, s) && Readable(s)
    ensures var o := EnsureNoActive(h, s);
            && Good(h, s, o.states)
            && Inv(h, Last(s, o.states))
            && (o.result.Ok? ==> exists r: Option<Record> ::
                  Rests(Last(s, o.states), r) && (r.Some? ==> !ActivePhase(r.value.phase)))
  {
    ReadKeeps(h, s);
  }

  lemma PrepareCommandKeeps(
    h: Hashes, s: Store, plan: StackPlan, allowInsecure: bool, now: nat, slotFree: bool, archived: bool)
    requires Inv(h, s) && Readable(s)
    ensures Good(h, s, Prepare(h, s, plan, allowInsecure, now, slotFree, archived).states)
  {
    if ValidPlan(h, plan) {
      ReadKeeps(h, s);
      var read := Read(h, s);
      var t := Last(s, read.states);
      PrepareKeeps(h, t, read.result.value, plan, now, slotFree, archived);
      Sequential(h, s, read.states, PrepareFrom(h, t, read.result.value, plan, now, slotFree, archived).states);
    }
  }

  lemma ActivateCommandKeeps(h: Hashes, s: Store, id: Digest, now: nat, clock: nat)
    requires Inv(h, s) && Readable(s)
    ensures Good(h, s, Activate(h, s, id, now, clock).states)
  {
    RequireKeeps(h, s, id);
    var o := Require(h, s, id);
    if o.result.Ok? {
      var t := Last(s, o.states);
      ActivateKeeps(h, t, o.result.value, now, clock);
      Sequential(h, s, o.states, ActivateFrom(h, t, o.result.value, now, clock).states);
    }
  }

  lemma CommitCommandKeeps(h: Hashes, s: Store, id: Digest, now: nat, ready: bool, report: Digest)
    requires Inv(h, s) && Readable(s)
    ensures Good(h, s, Commit(h, s, id, now, ready, report).states)
  {
    RequireKeeps(h, s, id);
    var o := Require(h, s, id);
    if o.result.Ok? {
      var t := Last(s, o.states);
      CommitKeeps(h, t, o.result.value, now, ready, report);
      Sequential(h, s, o.states, CommitFrom(h, t, o.result.value, now, ready, report).states);
    }
  }

  lemma RollbackCommandKeeps(h: Hashes, s: Store, id: Digest, now: nat, clock: nat)
    requires Inv(h, s) && Readable(s)
    ensures Good(h, s, Rollback(h, s, id, now, clock).states)
  {
    RequireKeeps(h, s, id);
    var o := Require(h, s, id);
    if o.result.Ok? {
      var t := Last(s, o.states);
      RollbackKeeps(h, t, o.result.value, now, clock);
      Sequential(h, s, o.states, RollbackFrom(h, t, o.result.value, now, clock).states);
    }
  }

  /** The three direct changes end in one append behind the gate. */
  lemma DirectKeeps(h: Hashes, s: Store, kind: EventKind, plan: Option<StackPlan>, clock: nat)
    requires Inv(h, s) && Readable(s) && EnsureNoActive(h, s).result.Ok?
    ensures var gate := EnsureNoActive(h, s);
            Good(h, s, gate.states + AppendNext(h, Last(s, gate.states), kind, plan, clock).states)
  {
    GateKeeps(h, s);
    var gate := EnsureNoActive(h, s);
    var t := Last(s, gate.states);
    var r :| Rests(t, r) && (r.Some? ==> !ActivePhase(r.value.phase));
    AppendNextKeeps(h, t, r, kind, plan, clock);
    Sequential(h, s, gate.states, AppendNext(h, t, kind, plan, clock).states);
  }

  lemma ApplyCommandKeeps(h: Hashes, s: Store, plan: StackPlan, allowInsecure: bool, slotFree: bool, clock: nat)
    requires Inv(h, s) && Readable(s)
    ensures Good(h, s, ApplyPlan(h, s, plan, allowInsecure, slotFree, clock).states)
  {
    GateKeeps(h, s);
    if EnsureNoActive(h, s).result.Ok? {
      DirectKeeps(h, s, Apply, Some(plan), clock);
    }
  }

  lemma StopCommandKeeps(h: Hashes, s: Store, clock: nat)
    requires Inv(h, s) && Readable(s)
    ensures Good(h, s, StopStack(h, s, clock).states)
  {
    GateKeeps(h, s);
    var gate := EnsureNoActive(h, s);
    var tip := Latest(Last(s, gate.states));
    if gate.result.Ok? && tip.Some? && tip.value.body.plan.Some? {
      DirectKeeps(h, s, Stop, Some(StoppedPlan(h, tip.value.body.plan.value)), clock);
    }
  }

  lemma RemoveCommandKeeps(h: Hashes, s: Store, clock: nat)
    requires Inv(h, s) && Readable(s)
    ensures Good(h, s, RemoveStack(h, s, clock).states)
  {
    GateKeeps(h, s);
    if EnsureNoActive(h, s).result.Ok? {
      DirectKeeps(h, s, Remove, None, clock);
    }
  }

  /** Every write of every command keeps the invariant and moves the checkpoint along the phase graph. */
  lemma CommandKeeps(h: Hashes, s: Store, c: Command)
    requires Inv(h, s) && Fresh(s.journal)
    ensures Good(h, s, Writes(h, s, c))
  {
    match c
    case ReadCommand => ReadKeeps(h, s);
    case PrepareCommand(plan, allowInsecure, now, slotFree, archived) =>
      PrepareCommandKeeps(h, s, plan, allowInsecure, now, slotFree, archived);
    case ActivateCommand(id, now, clock) => ActivateCommandKeeps(h, s, id, now, clock);
    case CommitCommand(id, now, ready, report) => CommitCommandKeeps(h, s, id, now, ready, report);
    case RollbackCommand(id, now, clock) => RollbackCommandKeeps(h, s, id, now, clock);
    case ApplyCommand(plan, allowInsecure, slotFree, clock) =>
      ApplyCommandKeeps(h, s, plan, allowInsecure, slotFree, clock);
    case StopCommand(clock) => StopCommandKeeps(h, s, clock);
    case RemoveCommand(clock) => RemoveCommandKeeps(h, s, clock);
    case ReconcileCommand(i) => PassKeeps(h, s, i);
  }

  lemma PrefixKeeps(h: Hashes, s: Store, writes: seq<Store>, n: nat)
    requires Inv(h, s) && Good(h, s, writes) && n <= |writes|
    ensures Inv(h, Last(s, writes[..n]))
  {
    if n > 0 {
      assert GoodAt(h, s, writes, n - 1);
    }
  }

  lemma StepKeeps(h: Hashes, s: Store, step: Step)
    requires Inv(h, s) && Fresh(s.journal)
    ensures Inv(h, Reached(h, s, step))
  {
    CommandKeeps(h, s, step.command);
    var writes := Writes(h, s, step.command);
    var n := if step.crash.Some? && step.crash.value < |writes| then step.crash.value else |writes|;
    PrefixKeeps(h, s, writes, n);
    assert writes[..|writes|] == writes;
  }

  // Whole runs

  /** Every durable state of every run satisfies the invariant, whatever crashes on the way. */
  lemma {:induction false} RunKeepsInvariant(h: Hashes, s: Store, run: seq<Step>)
    requires Inv(h, s) && FreshRun(h, s, run)
    ensures Inv(h, Final(h, s, run))
    decreases |run|
  {
    if run != [] {
      StepKeeps(h, s, run[0]);
      RunKeepsInvariant(h, Reached(h, s, run[0]), run[1..]);
    }
  }

  /** If a run is not fresh, two neighbouring events of a journal that it reaches collide. */
  lemma {:induction false} StaleRunIsCollision(h: Hashes, s: Store, run: seq<Step>) returns (n: nat, i: nat)
    requires Inv(h, s) && !FreshRun(h, s, run)
    ensures n <= |run| && NeighboursCollide(h, Final(h, s, run[..n]).journal, i)
    decreases |run|
  {
    if !Fresh(s.journal) {
      StaleIdentityIsCollision(h, s.journal);
      n := 0;
      i :| NeighboursCollide(h, s.journal, i);
    } else {
      StepKeeps(h, s, run[0]);
      n, i := StaleRunIsCollision(h, Reached(h, s, run[0]), run[1..]);
      n := n + 1;
      assert run[..n][1..] == run[1..][..n - 1];
    }
  }

  /** Which fields a record has in its phase, and how its revisions follow each other. */
  predicate FieldsFit(r: Record) {
    var first := if r.previousRevision.None? then 1 else r.previousRevision.value + 1;
    && (if r.phase == Prepared || r.phase == Cancelled
        then r.activatedRevision == None && r.activatedGeneration == None
        else r.activatedRevision == Some(first) && r.activatedGeneration.Some?)
    && (if r.phase == RolledBack then r.rollbackRevision == Some(first + 1) && r.rollbackGeneration.Some?
        else r.rollbackRevision == None && r.rollbackGeneration == None)
    && (r.phase == Committed ==> r.healthReport.Some?)
    && (r.healthReport.Some? ==> r.phase == Committed || r.phase == RolledBack)
    && 0 < r.createdAtMs <= r.updatedAtMs
    && (r.previousRevision.Some? <==> r.previousGeneration.Some?)
    && (r.previousRevision.Some? <==> r.previousState.Some?)
    && (r.previousPlan.Some? <==> r.previousState == Some(AppliedState) || r.previousState == Some(StoppedState))
  }

  lemma RecordFieldsFit(h: Hashes, s: Store, r: Record)
    requires RecordOk(h, s, r)
    ensures FieldsFit(r)
  {
    match r.phase
    case Prepared =>
    case Activated =>
    case Committed =>
    case RolledBack =>
    case Cancelled =>
  }

  /** From an empty store, every reachable checkpoint is a valid record with exactly the fields of its phase. */
  lemma ReachableCheckpointsAreValid(h: Hashes, run: seq<Step>)
    requires FreshRun(h, EMPTY, run)
    ensures var f := Final(h, EMPTY, run).checkpoint.Logical();
            f.Some? ==>
              && ValidRecord(h, f.value) && FieldsFit(f.value)
              && f.value.candidate.sha256 == h.plan(f.value.candidate.content)
              && f.value.id == h.rollout(RolloutKey(f.value.createdAtMs, f.value.previousRevision,
                                                    f.value.previousGeneration, f.value.candidate.sha256))
  {
    RunKeepsInvariant(h, EMPTY, run);
    var f := Final(h, EMPTY, run).checkpoint.Logical();
    if f.Some? {
      RecordFieldsFit(h, Final(h, EMPTY, run), f.value);
    }
  }

  // At most one activation and one rollback for each rollout

  /** Two events that the same call appended for the same rollout identity. */
  predicate SameSource(h: Hashes, a: Origin, b: Origin) {
    || (a.Activation? && b.Activation? && h.rollout(a.key) == h.rollout(b.key))
    || (a.RollbackOf? && b.RollbackOf? && h.rollout(a.key) == h.rollout(b.key))
  }

  lemma SourcesAreUnique(h: Hashes, s: Store, i: nat, j: nat)
    requires Inv(h, s) && i < j < |s.origins| && SameSource(h, s.origins[i], s.origins[j])
    ensures s.origins[i].key != s.origins[j].key
  {
    assert OriginAt(s.journal, s.origins, i) && OriginAt(s.journal, s.origins, j);
  }

  /**
   Over every run, retries and crashes included, a rollout identity appends at most one activation and
   at most one rollback event: two of a kind come from two rollout keys that collide.
   */
  lemma RolloutAppendsOnce(h: Hashes, run: seq<Step>, i: nat, j: nat)
    requires FreshRun(h, EMPTY, run)
    requires i < j < |Final(h, EMPTY, run).origins|
    requires SameSource(h, Final(h, EMPTY, run).origins[i], Final(h, EMPTY, run).origins[j])
    ensures var s := Final(h, EMPTY, run);
            && s.origins[i].key != s.origins[j].key
            && h.rollout(s.origins[i].key) == h.rollout(s.origins[j].key)
  {
    RunKeepsInvariant(h, EMPTY, run);
    SourcesAreUnique(h, Final(h, EMPTY, run), i, j);
  }

  // Recovery is total and exact

  /** The tip was appended for the rollout of `r`, by a call whose checkpoint write is still missing. */
  ghost predicate TipUnknownTo(s: Store, r: Record) {
    && |s.origins| > 0
    && (match r.phase
        case Prepared => s.origins[|s.origins| - 1] == Activation(KeyOf(r))
        case Activated => s.origins[|s.origins| - 1] == RollbackOf(KeyOf(r))
        case _ => false)
  }

  lemma UpToDateMeansKnown(h: Hashes, s: Store, r: Record)
    requires Inv(h, s) && RecordOk(h, s, r)
    ensures UpToDate(s, r) <==> !TipUnknownTo(s, r)
  {
    if |s.origins| > 0 {
      assert OriginAt(s.journal, s.origins, |s.origins| - 1);
    }
  }

  /** `r'` is `r` with the event `e`, number `n` of the journal, taken into account. */
  predicate CaughtUp(r: Record, e: Event, n: nat, r': Record) {
    var time := if e.body.createdAtMs > r.updatedAtMs then e.body.createdAtMs else r.updatedAtMs;
    r' == if r.phase == Prepared
          then r.(phase := Activated, updatedAtMs := time,
                  activatedRevision := Some(n), activatedGeneration := Some(e.sha256))
          else r.(phase := RolledBack, updatedAtMs := time,
                  rollbackRevision := Some(n), rollbackGeneration := Some(e.sha256))
  }

  /**
   In every reachable state a read succeeds. It returns the checkpoint unchanged, except that a prepared
   one becomes activated, and an activated one rolled back, exactly when the journal tip is
   the event that a crash kept out of the checkpoint.
   */
  lemma ReadIsTotalAndExact(h: Hashes, run: seq<Step>)
    requires FreshRun(h, EMPTY, run)
    ensures var s := Final(h, EMPTY, run);
            var stored := s.checkpoint.Logical();
            var read := Read(h, s).result;
            && read.Ok?
            && (stored.None? <==> read.value.None?)
            && (stored.Some? ==>
                  if TipUnknownTo(s, stored.value)
                  then
                    && s.journal != []
                    && CaughtUp(stored.value, s.journal[|s.journal| - 1], |s.journal|, read.value.value)
                  else read.value == stored)
  {
    var s := Final(h, EMPTY, run);
    RunKeepsInvariant(h, EMPTY, run);
    FinalIsFresh(h, EMPTY, run);
    ReadKeeps(h, s);
    if s.checkpoint.Logical().Some? {
      UpToDateMeansKnown(h, s, s.checkpoint.Logical().value);
      RecoveredIsExact(h, s, s.checkpoint.Logical().value);
    }
  }

  lemma {:induction false} FinalIsFresh(h: Hashes, s: Store, run: seq<Step>)
    requires FreshRun(h, s, run)
    ensures Fresh(Final(h, s, run).journal)
    decreases |run|
  {
    if run != [] {
      FinalIsFresh(h, Reached(h, s, run[0]), run[1..]);
    }
  }

  // What a rollback restores

  /**
   A rollback that moves a rollout to rolled-back leaves a journal tip with the kind and plan that
   were in force when the rollout was prepared; without an earlier event it leaves a removal.
   */
  lemma RollbackRestores(h: Hashes, s: Store, id: Digest, now: nat, clock: nat)
    requires Inv(h, s) && Fresh(s.journal)
    requires s.checkpoint.Logical().Some? && s.checkpoint.Logical().value.phase != RolledBack
    requires Rollback(h, s, id, now, clock).result.Ok?
    requires Rollback(h, s, id, now, clock).result.value.phase == RolledBack
    ensures var o := Rollback(h, s, id, now, clock);
            var p := Start(o.result.value);
            var t := Last(s, o.states);
            && Latest(t).Some?
            && p <= |s.journal|
            && (Latest(t).value.body.kind, Latest(t).value.body.plan) == Undo(s.journal, p)
            && (p == 0 <==> o.result.value.previousRevision.None?)
  {
    var r0 := s.checkpoint.Logical().value;
    RequireKeeps(h, s, id);
    ReadKeeps(h, s);
    RecoveredIsExact(h, s, r0);
    var o := Require(h, s, id);
    var t := Last(s, o.states);
    var r := o.result.value;
    Sequential(h, s, o.states, RollbackFrom(h, t, r, now, clock).states);
    RestoresFrom(h, s, t, r, now, clock);
  }

  lemma RestoresFrom(h: Hashes, s: Store, t: Store, r: Record, now: nat, clock: nat)
    requires Current(h, t, r) && t.journal == s.journal && t.origins == s.origins
    requires RollbackFrom(h, t, r, now, clock).result.Ok?
    requires RollbackFrom(h, t, r, now, clock).result.value.phase == RolledBack
    requires r.phase == RolledBack ==> |s.journal| == Start(r) + 2
    ensures var o := RollbackFrom(h, t, r, now, clock);
            var p := Start(o.result.value);
            var u := Last(t, o.states);
            && Latest(u).Some?
            && p <= |s.journal|
            && (Latest(u).value.body.kind, Latest(u).value.body.plan) == Undo(s.journal, p)
            && (p == 0 <==> o.result.value.previousRevision.None?)
  {
    RollbackKeeps(h, t, r, now, clock);
    if r.phase != RolledBack {
      RollbackActivatedKeeps(h, t, r, now, clock);
      TargetIsUndo(h, t, r);
    }
  }

  /** Between any two consecutive durable states of a reachable store the phase follows an edge of the graph. */
  lemma PhasesFollowTheGraph(h: Hashes, run: seq<Step>, c: Command, i: nat)
    requires FreshRun(h, EMPTY, run)
    requires i < |Writes(h, Final(h, EMPTY, run), c)|
    ensures var s := Final(h, EMPTY, run);
            var before := if i == 0 then s else Writes(h, s, c)[i - 1];
            CheckpointStep(before.checkpoint.Logical(), Writes(h, s, c)[i].checkpoint.Logical())
  {
    var s := Final(h, EMPTY, run);
    RunKeepsInvariant(h, EMPTY, run);
    FinalIsFresh(h, EMPTY, run);
    CommandKeeps(h, s, c);
    assert GoodAt(h, s, Writes(h, s, c), i);
  }

  // Progress and checkpoint agree

  /** The writes of a step that reach the disk. */
  function Cut(h: Hashes, s: Store, step: Step): seq<Store> {
    var writes := Writes(h, s, step.command);
    if step.crash.Some? && step.crash.value < |writes| then writes[..step.crash.value] else writes
  }

  /** Every durable state of the run, in order. */
  function Trace(h: Hashes, s: Store, run: seq<Step>): seq<Store>
    decreases |run|
  {
    if run == [] then [s] else [s] + Cut(h, s, run[0]) + Trace(h, Reached(h, s, run[0]), run[1..])
  }

  /** One of the states holds the rollout of `r` as committed. */
  ghost predicate CommittedIn(states: seq<Store>, r: Record) {
    exists t <- states :: CommittedAt(t, r)
  }

  predicate CommittedAt(t: Store, r: Record) {
    var c := t.checkpoint.Logical();
    c.Some? && KeyOf(c.value) == KeyOf(r) && c.value.phase == Committed
  }

  /** A checkpoint with a health report was committed in one of the states, or is now. */
  ghost predicate Witnessed(states: seq<Store>, s: Store) {
    var r := s.checkpoint.Logical();
    r.Some? && WasCommitted(r.value) ==> CommittedAt(s, r.value) || CommittedIn(states, r.value)
  }

  lemma WriteIsWitnessed(h: Hashes, past: seq<Store>, s: Store, t: Store)
    requires Witnessed(past, s) && Inv(h, t) && Evolves(s, t) && s in past
    ensures Witnessed(past, t)
  {
    var r := t.checkpoint.Logical();
    if r.Some? && WasCommitted(r.value) && r.value.phase != Committed {
      assert r.value.phase == RolledBack;
      assert s.checkpoint.Logical().Some? && KeyOf(s.checkpoint.Logical().value) == KeyOf(r.value);
      if CommittedAt(s, s.checkpoint.Logical().value) {
        assert CommittedAt(s, r.value);
      } else {
        var u :| u in past && CommittedAt(u, s.checkpoint.Logical().value);
        assert CommittedAt(u, r.value);
      }
    }
  }

  lemma MoreIsWitnessed(past: seq<Store>, more: seq<Store>, s: Store)
    requires Witnessed(past, s)
    ensures Witnessed(past + more, s)
  {
    var r := s.checkpoint.Logical();
    if r.Some? && WasCommitted(r.value) && !CommittedAt(s, r.value) {
      var u :| u in past && CommittedAt(u, r.value);
      assert u in past + more;
    }
  }

  lemma {:induction false} WritesAreWitnessed(h: Hashes, past: seq<Store>, s: Store, writes: seq<Store>)
    requires Witnessed(past, s) && s in past && Good(h, s, writes)
    ensures Witnessed(past + writes, Last(s, writes))
    decreases |writes|
  {
    if writes == [] {
      assert past + writes == past;
    } else {
      var t := writes[0];
      assert GoodAt(h, s, writes, 0);
      WriteIsWitnessed(h, past, s, t);
      MoreIsWitnessed(past, [t], t);
      forall i | 0 <= i < |writes| - 1 ensures GoodAt(h, t, writes[1..], i) {
        assert GoodAt(h, s, writes, i + 1);
      }
      WritesAreWitnessed(h, past + [t], t, writes[1..]);
      assert past + [t] + writes[1..] == past + writes;
    }
  }

  lemma StepIsWitnessed(h: Hashes, past: seq<Store>, s: Store, step: Step)
    requires Inv(h, s) && Fresh(s.journal) && Witnessed(past, s) && s in past
    ensures Witnessed(past + Cut(h, s, step), Reached(h, s, step))
  {
    CommandKeeps(h, s, step.command);
    var writes := Writes(h, s, step.command);
    var cut := Cut(h, s, step);
    forall i | 0 <= i < |cut| ensures GoodAt(h, s, cut, i) {
      assert GoodAt(h, s, writes, i);
    }
    WritesAreWitnessed(h, past, s, cut);
  }

  lemma Regroup(a: seq<Store>, b: seq<Store>, c: seq<Store>, d: seq<Store>)
    ensures a + (b + c + d) == a + b + c + d
  {
  }

  lemma {:induction false} RunIsWitnessed(h: Hashes, past: seq<Store>, s: Store, run: seq<Step>)
    requires Inv(h, s) && FreshRun(h, s, run) && Witnessed(past, s)
    ensures Witnessed(past + Trace(h, s, run), Final(h, s, run))
    decreases |run|
  {
    MoreIsWitnessed(past, [s], s);
    if run != [] {
      StepKeeps(h, s, run[0]);
      StepIsWitnessed(h, past + [s], s, run[0]);
      var t := Reached(h, s, run[0]);
      var now := past + [s] + Cut(h, s, run[0]);
      RunIsWitnessed(h, now, t, run[1..]);
      Regroup(past, [s], Cut(h, s, run[0]), Trace(h, t, run[1..]));
    }
  }

  /** Every state of the trace of a run ends in its final state. */
  lemma {:induction false} TraceEnds(h: Hashes, s: Store, run: seq<Step>)
    ensures Final(h, s, run) in Trace(h, s, run)
    decreases |run|
  {
    if run != [] {
      TraceEnds(h, Reached(h, s, run[0]), run[1..]);
    }
  }

  /**
   Across every run, saved progress is completed only if an earlier durable state of the run, or the last,
   held its rollout as committed, and rolled back only if its rollout is rolled back.
   */
  lemma SavedProgressIsHonest(h: Hashes, run: seq<Step>)
    requires FreshRun(h, EMPTY, run)
    ensures var s := Final(h, EMPTY, run);
            var q := s.progress.Logical();
            var r := s.checkpoint.Logical();
            q.Some? ==>
              && r.Some? && q.value.rolloutId == r.value.id
              && (q.value.phase == Completed ==>
                    CommittedIn(Trace(h, EMPTY, run), r.value)
                    && (r.value.phase == Committed || r.value.phase == RolledBack))
              && (q.value.phase == Reverted ==> r.value.phase == RolledBack)
  {
    RunKeepsInvariant(h, EMPTY, run);
    RunIsWitnessed(h, [], EMPTY, run);
    TraceEnds(h, EMPTY, run);
    assert [] + Trace(h, EMPTY, run) == Trace(h, EMPTY, run);
  }

  /** What a pass without a crash makes of progress in phase `q` when the rollout is finished. */
  function SettledPhase(r: Phase, q: ExecutionPhase): ExecutionPhase {
    if q == Completed || q == Reverted then q
    else if r == Committed then (if q == RollingBack then RollingBack else Completed)
    else Reverted
  }

  lemma SettleFinished(h: Hashes, s: Store, r: Record, q: Progress, now: nat, i: Inputs)
    requires Current(h, s, r) && !ActivePhase(r.phase) && ProgressOk(q, r) && s.progress == Slot(Some(q), None)
    requires 0 < now && q.updatedAtMs <= now
    ensures var o := Settle(h, s, r, q, now, i);
            && o.result.Ok?
            && Last(s, o.states).checkpoint == s.checkpoint
            && Last(s, o.states).progress.Logical().Some?
            && Last(s, o.states).progress.Logical().value.phase == SettledPhase(r.phase, q.phase)
  {
    if r.phase == Committed {
      SettleCommittedKeeps(h, s, r, q, now);
    } else {
      SettleRolledBackKeeps(h, s, r, q, now);
    }
  }

  /**
   One pass without a crash over a finished rollout brings its progress to a terminal phase, except in
   one case: a committed rollout whose progress was already rolling back keeps it there.
   */
  lemma PassSettles(h: Hashes, s: Store, r: Record, q: Progress, i: Inputs)
    requires Inv(h, s) && Fresh(s.journal)
    requires Read(h, s).result == Ok(Some(r)) && !ActivePhase(r.phase)
    requires s.progress.Logical() == Some(q)
    ensures var o := Pass(h, s, i);
            var q' := Last(s, o.states).progress.Logical();
            && o.result.Ok?
            && q'.Some?
            && q'.value.phase == SettledPhase(r.phase, q.phase)
            && (q'.value.phase == Completed || q'.value.phase == Reverted
                <==> !(r.phase == Committed && q.phase == RollingBack))
  {
    ReadKeeps(h, s);
    var read := Read(h, s);
    var t := Last(s, read.states);
    StillReadable(h, s, r);
    ReadProgressKeeps(h, t, r);
    var progress := ReadProgress(h, t);
    var u := Last(t, progress.states);
    var now := Later(Later(i.now, r.updatedAtMs), q.updatedAtMs);
    SettleFinished(h, u, r, q, now, i);
    Sequential(h, s, read.states, progress.states);
    Sequential(h, s, read.states + progress.states, Settle(h, u, r, q, now, i).states);
  }
}
