/**
 What the operations of the engine do to the fields of a store when they are not interrupted: when each of them
 succeeds, and which record, journal and progress it leaves behind.
 */
module EngineResults {
  import opened Wrappers
  import opened Engine
  import opened Rollout
  import opened RolloutSafety
  import opened Reconcile
  import opened ReconcileSafety
  import opened EngineRun

  /** The last event applies a plan with this digest. */
  predicate Applies(j: seq<Event>, sha256: Digest) {
    && j != [] && j[|j| - 1].body.kind == Apply
    && j[|j| - 1].body.plan.Some? && j[|j| - 1].body.plan.value.sha256 == sha256
  }

  // Preparation

  /** The record is the rollout of this plan that is under way, or that succeeded and is still the last event. */
  predicate IsRolloutOf(j: seq<Event>, r: Option<Record>, plan: StackPlan) {
    && r.Some? && r.value.candidate.sha256 == plan.sha256
    && (r.value.phase == Prepared || (r.value.phase == Committed && r.value.activatedRevision == Some(|j|)))
  }

  /** A rollout of the plan can begin: none is active, and there is something to change and room for it. */
  predicate CanBegin(j: seq<Event>, r: Option<Record>, plan: StackPlan, now: nat, slotFree: bool, archived: bool) {
    && (r.Some? ==> r.value.phase != Prepared && r.value.phase != Activated && archived)
    && now > 0 && (j != [] || slotFree) && !Applies(j, plan.sha256)
  }

  /** The new record: it remembers the last event and nothing of an activation. */
  ghost predicate IsNewRecord(h: Hashes, j: seq<Event>, plan: StackPlan, now: nat, r: Record) {
    && r.phase == Prepared && r.candidate == plan && r.createdAtMs == r.updatedAtMs == now
    && r.activatedRevision == None && r.activatedGeneration == None
    && r.rollbackRevision == None && r.rollbackGeneration == None && r.healthReport == None
    && (if j == [] then
          && r.previousRevision == None && r.previousGeneration == None
          && r.previousState == None && r.previousPlan == None
        else
          var e := j[|j| - 1];
          && r.previousRevision == Some(|j|) && r.previousGeneration == Some(e.sha256)
          && (r.previousState == Some(AppliedState) <==> e.body.kind == Apply)
          && (r.previousState == Some(StoppedState) <==> e.body.kind == Stop)
          && (r.previousState == Some(RemovedState) <==> e.body.kind == Remove)
          && r.previousPlan == e.body.plan)
    && r.id == h.rollout(RolloutKey(now, r.previousRevision, r.previousGeneration, plan.sha256))
  }

  lemma BeginsWith(h: Hashes, s: Store, r: Option<Record>, plan: StackPlan, now: nat, slotFree: bool)
    requires Inv(h, s) && Rests(s, r) && ValidPlan(h, plan) && s.progress.Logical().None?
    requires r.Some? ==> r.value.phase != Prepared && r.value.phase != Activated
    ensures var o := Begin(h, s, plan, now, slotFree);
            && (o.result.Ok? <==> now > 0 && (s.journal != [] || slotFree) && !Applies(s.journal, plan.sha256))
            && (o.result.Ok? ==>
                  && IsNewRecord(h, s.journal, plan, now, o.result.value)
                  && Last(s, o.states) == s.(checkpoint := Slot(Some(o.result.value), None)))
  {
    BeginKeeps(h, s, r, plan, now, slotFree);
    TipOf(h, s);
    if now > 0 {
      NewRecordOk(h, s, plan, now);
      WriteKeeps(h, s, NewRecord(h, plan, Latest(s), now));
    }
  }

  /** Preparation with the checkpoint at rest. */
  lemma PreparesFromExactly(
    h: Hashes, s: Store, r: Option<Record>, plan: StackPlan, now: nat, slotFree: bool, archived: bool)
    requires Inv(h, s) && Rests(s, r) && ValidPlan(h, plan) && (r.Some? ==> UpToDate(s, r.value))
    ensures var o := PrepareFrom(h, s, r, plan, now, slotFree, archived);
            && (o.result.Ok? <==>
                  IsRolloutOf(s.journal, r, plan) || CanBegin(s.journal, r, plan, now, slotFree, archived))
            && (o.result.Ok? ==>
                  if IsRolloutOf(s.journal, r, plan) then o == Return([], r.value)
                  else
                    && IsNewRecord(h, s.journal, plan, now, o.result.value)
                    && Last(s, o.states).journal == s.journal
                    && Last(s, o.states).checkpoint == Slot(Some(o.result.value), None)
                    && Last(s, o.states).progress.Logical() == None)
  {
    if r.None? {
      BeginsWith(h, s, r, plan, now, slotFree);
    } else {
      if r.value.phase == Committed {
        AtActivationMatches(h, s, r.value);
      }
      if !ActivePhase(r.value.phase) {
        DropProgressKeeps(h, s, r.value);
        var dropped := DropProgress(s, r.value);
        var t := Last(s, dropped.states);
        BeginsWith(h, t, r, plan, now, slotFree);
        Sequential(h, s, dropped.states, Begin(h, t, plan, now, slotFree).states);
      }
    }
  }

  /**
   Preparation succeeds if and only if the plan is the one its digest names, it keeps the sandbox or the caller
   accepts that it does not, and its rollout is under way or in force, or can begin.
   */
  lemma PreparesExactly(
    h: Hashes, s: Store, plan: StackPlan, allowInsecure: bool, now: nat, slotFree: bool, archived: bool)
    requires Inv(h, s) && Readable(s)
    ensures Read(h, s).result.Ok?
    ensures var r := Read(h, s).result.value;
            var o := Prepare(h, s, plan, allowInsecure, now, slotFree, archived);
            && (o.result.Ok? <==>
                  && plan.sha256 == h.plan(plan.content)
                  && (plan.content.sandboxDisabled ==> allowInsecure)
                  && (IsRolloutOf(s.journal, r, plan) || CanBegin(s.journal, r, plan, now, slotFree, archived)))
            && (o.result.Ok? ==>
                  && Last(s, o.states).journal == s.journal
                  && Last(s, o.states).checkpoint == Slot(Some(o.result.value), None)
                  && (if IsRolloutOf(s.journal, r, plan) then o.result.value == r.value
                      else IsNewRecord(h, s.journal, plan, now, o.result.value)
                           && Last(s, o.states).progress.Logical() == None))
  {
    ReadKeeps(h, s);
    var read := Read(h, s);
    var t := Last(s, read.states);
    if ValidPlan(h, plan) {
      PreparesFromExactly(h, t, read.result.value, plan, now, slotFree, archived);
      Sequential(h, s, read.states, PrepareFrom(h, t, read.result.value, plan, now, slotFree, archived).states);
    }
  }

  // Activation, commit and rollback

  /** The event that continues the journal `j`. */
  predicate Continues(h: Hashes, j: seq<Event>, e: Event, kind: EventKind, plan: Option<StackPlan>, clock: nat) {
    var previous := if j == [] then None else Some(j[|j| - 1].sha256);
    e.body == EventBody(|j| + 1, kind, previous, clock, plan) && e.sha256 == h.event(e.body)
  }

  /** Time does not run backwards. */
  predicate InTime(r: Record, now: nat) {
    now > 0 && now >= r.updatedAtMs
  }

  predicate HasRoom(j: seq<Event>, clock: nat) {
    clock > 0 && |j| < 4096
  }

  /** The store after an event was appended to `s` and the record replaced. */
  ghost predicate Appended(s: Store, t: Store, e: Event, r: Record) {
    && t.journal == s.journal + [e] && t.checkpoint == Slot(Some(r), None) && t.progress == s.progress
  }

  lemma ActivatesFrom(h: Hashes, s: Store, r: Record, now: nat, clock: nat)
    requires Current(h, s, r) && r.phase == Prepared && InTime(r, now) && HasRoom(s.journal, clock)
    ensures var o := ActivateFrom(h, s, r, now, clock);
            && o.result.Ok? && Last(s, o.states).journal != []
            && var e := Last(s, o.states).journal[|s.journal|];
            && Continues(h, s.journal, e, Apply, Some(r.candidate), clock)
            && o.result.value == r.(phase := Activated, updatedAtMs := now,
                                    activatedRevision := Some(|s.journal| + 1), activatedGeneration := Some(e.sha256))
            && Appended(s, Last(s, o.states), e, o.result.value)
  {
    TipOf(h, s);
    PreparedIsPrevious(h, s, r);
    ActivationEvent(h, s, r, clock);
    var e := NextEvent(h, Latest(s), Apply, Some(r.candidate), clock).value;
    AppendAndSaveKeeps(h, s, e, Activation(KeyOf(r)), r, ToActivated(r, e, now));
  }

  lemma PreparedIsPrevious(h: Hashes, s: Store, r: Record)
    requires Current(h, s, r) && r.phase == Prepared
    ensures MatchesPrevious(r, Latest(s))
  {
    TipOf(h, s);
  }

  /**
   Activation succeeds if and only if the checkpoint is the named rollout, and it is activated already or it is
   prepared, time has not run backwards and the journal has room. It then appends the candidate.
   */
  lemma ActivatesExactly(h: Hashes, s: Store, id: Digest, now: nat, clock: nat)
    requires Inv(h, s) && Readable(s)
    ensures Read(h, s).result.Ok?
    ensures var r := Read(h, s).result.value;
            var o := Activate(h, s, id, now, clock);
            && (o.result.Ok? <==>
                  && r.Some? && r.value.id == id
                  && (r.value.phase == Activated
                      || (r.value.phase == Prepared && InTime(r.value, now) && HasRoom(s.journal, clock))))
            && (o.result.Ok? && r.value.phase == Activated ==>
                  o.result.value == r.value && Last(s, o.states).journal == s.journal)
            && (o.result.Ok? && r.value.phase == Prepared ==>
                  && |Last(s, o.states).journal| > |s.journal|
                  && var e := Last(s, o.states).journal[|s.journal|];
                  && Continues(h, s.journal, e, Apply, Some(r.value.candidate), clock)
                  && o.result.value == r.value.(phase := Activated, updatedAtMs := now,
                                                activatedRevision := Some(|s.journal| + 1),
                                                activatedGeneration := Some(e.sha256))
                  && Appended(s, Last(s, o.states), e, o.result.value))
  {
    RequireKeeps(h, s, id);
    ReadKeeps(h, s);
    var required := Require(h, s, id);
    if required.result.Ok? {
      var t, r := Last(s, required.states), required.result.value;
      ActivateKeeps(h, t, r, now, clock);
      Sequential(h, s, required.states, ActivateFrom(h, t, r, now, clock).states);
      if r.phase == Prepared && InTime(r, now) && HasRoom(t.journal, clock) {
        ActivatesFrom(h, t, r, now, clock);
      }
    }
  }

  /**
   Commit succeeds if and only if the checkpoint is the named rollout, and it is committed already or it is
   activated, time has not run backwards and it is healthy and stable. It then only marks the record.
   */
  lemma CommitsExactly(h: Hashes, s: Store, id: Digest, now: nat, ready: bool, report: Digest)
    requires Inv(h, s) && Readable(s)
    ensures Read(h, s).result.Ok?
    ensures var r := Read(h, s).result.value;
            var o := Commit(h, s, id, now, ready, report);
            && (o.result.Ok? <==>
                  && r.Some? && r.value.id == id
                  && (r.value.phase == Committed || (r.value.phase == Activated && InTime(r.value, now) && ready)))
            && (o.result.Ok? ==>
                  && Last(s, o.states).journal == s.journal && Last(s, o.states).progress == s.progress
                  && Last(s, o.states).checkpoint == Slot(Some(o.result.value), None)
                  && o.result.value == if r.value.phase == Committed then r.value
                                       else r.value.(phase := Committed, updatedAtMs := now,
                                                     healthReport := Some(report)))
  {
    RequireKeeps(h, s, id);
    ReadKeeps(h, s);
    var required := Require(h, s, id);
    if required.result.Ok? {
      var t, r := Last(s, required.states), required.result.value;
      CommitKeeps(h, t, r, now, ready, report);
      Sequential(h, s, required.states, CommitFrom(h, t, r, now, ready, report).states);
    }
  }

  /** The kind and plan of the event before the rollout of `r`, or removal when there was none. */
  function Before(j: seq<Event>, r: Record): (EventKind, Option<StackPlan>)
    requires r.previousRevision.Some? ==> 0 < r.previousRevision.value <= |j|
  {
    if r.previousRevision.None? then (Remove, None)
    else (j[r.previousRevision.value - 1].body.kind, j[r.previousRevision.value - 1].body.plan)
  }

  ghost predicate Undoes(h: Hashes, j: seq<Event>, r: Record, e: Event, clock: nat) {
    && (r.previousRevision.Some? ==> 0 < r.previousRevision.value <= |j|)
    && Continues(h, j, e, Before(j, r).0, Before(j, r).1, clock)
  }

  lemma UndoingEvent(h: Hashes, s: Store, r: Record, clock: nat)
    requires Current(h, s, r) && AtActivation(s, r) && (r.phase == Activated || r.phase == Committed)
    requires HasRoom(s.journal, clock)
    ensures var (kind, plan) := Undo(s.journal, Start(r));
            var next := NextEvent(h, Latest(s), kind, plan, clock);
            next.Ok? && next.value.body.revision == |s.journal| + 1 && Undoes(h, s.journal, r, next.value, clock)
  {
    TipOf(h, s);
    RollbackEvent(h, s, r, clock);
  }

  lemma RollsBackFrom(h: Hashes, s: Store, r: Record, now: nat, clock: nat)
    requires Current(h, s, r) && AtActivation(s, r) && (r.phase == Activated || r.phase == Committed)
    requires InTime(r, now) && HasRoom(s.journal, clock)
    ensures var o := RollbackFrom(h, s, r, now, clock);
            && o.result.Ok? && |Last(s, o.states).journal| > |s.journal|
            && var e := Last(s, o.states).journal[|s.journal|];
            && Undoes(h, s.journal, r, e, clock)
            && o.result.value == r.(phase := RolledBack, updatedAtMs := now,
                                    rollbackRevision := Some(|s.journal| + 1), rollbackGeneration := Some(e.sha256))
            && Appended(s, Last(s, o.states), e, o.result.value)
  {
    UndoingEvent(h, s, r, clock);
    RollbackFromActivation(h, s, r, now, clock);
    RollbackEvent(h, s, r, clock);
    var (kind, plan) := Undo(s.journal, Start(r));
    var e := NextEvent(h, Latest(s), kind, plan, clock).value;
    AppendAndSaveKeeps(h, s, e, RollbackOf(KeyOf(r)), r, ToRolledBack(r, e, now));
  }

  /**
   Rollback succeeds if and only if the checkpoint is the named rollout, and it is cancelled or rolled back
   already, or time has not run backwards and it is prepared, or activated or committed with its activation still
   the last event and room in the journal. A prepared one is cancelled; otherwise one event undoes it.
   */
  lemma RollsBackExactly(h: Hashes, s: Store, id: Digest, now: nat, clock: nat)
    requires Inv(h, s) && Readable(s)
    ensures Read(h, s).result.Ok?
    ensures var r := Read(h, s).result.value;
            var o := Rollback(h, s, id, now, clock);
            && (o.result.Ok? <==>
                  && r.Some? && r.value.id == id
                  && (r.value.phase == Cancelled || r.value.phase == RolledBack
                      || (InTime(r.value, now)
                          && (r.value.phase == Prepared
                              || (r.value.activatedRevision == Some(|s.journal|) && HasRoom(s.journal, clock))))))
            && (o.result.Ok? ==> RolledBackTo(h, s, r.value, now, clock, Last(s, o.states), o.result.value))
  {
    RequireKeeps(h, s, id);
    ReadKeeps(h, s);
    var required := Require(h, s, id);
    if required.result.Ok? {
      var t, r := Last(s, required.states), required.result.value;
      RollbackKeeps(h, t, r, now, clock);
      Sequential(h, s, required.states, RollbackFrom(h, t, r, now, clock).states);
      RollsBackFromExactly(h, t, r, now, clock);
    }
  }

  /** What a rollback that succeeds makes of the record `r` that was read. */
  ghost predicate RolledBackTo(h: Hashes, s: Store, r: Record, now: nat, clock: nat, t: Store, r': Record) {
    match r.phase
    case Prepared =>
      && r' == r.(phase := Cancelled, updatedAtMs := now)
      && t.journal == s.journal && t.checkpoint == Slot(Some(r'), None)
    case Activated => Undone(h, s, r, now, clock, t, r')
    case Committed => Undone(h, s, r, now, clock, t, r')
    case _ => r' == r && t.journal == s.journal
  }

  ghost predicate Undone(h: Hashes, s: Store, r: Record, now: nat, clock: nat, t: Store, r': Record) {
    && |t.journal| > |s.journal|
    && var e := t.journal[|s.journal|];
    && Undoes(h, s.journal, r, e, clock)
    && r' == r.(phase := RolledBack, updatedAtMs := now,
                rollbackRevision := Some(|s.journal| + 1), rollbackGeneration := Some(e.sha256))
    && Appended(s, t, e, r')
  }

  lemma RollsBackFromExactly(h: Hashes, s: Store, r: Record, now: nat, clock: nat)
    requires Current(h, s, r)
    ensures var o := RollbackFrom(h, s, r, now, clock);
            o.result.Ok? ==> RolledBackTo(h, s, r, now, clock, Last(s, o.states), o.result.value)
  {
    RollbackKeeps(h, s, r, now, clock);
    if r.phase == Prepared && InTime(r, now) {
      CancelKeeps(h, s, r, now, clock);
    } else if (r.phase == Activated || r.phase == Committed) && RollbackFrom(h, s, r, now, clock).result.Ok? {
      RollsBackFrom(h, s, r, now, clock);
    }
  }

  // Changing the desired state directly

  /** The change appended one event to the journal and touched neither record nor progress. */
  ghost predicate Changed(h: Hashes, s: Store, t: Store, kind: EventKind, plan: Option<StackPlan>, clock: nat) {
    && |t.journal| == |s.journal| + 1 && s.journal <= t.journal
    && Continues(h, s.journal, t.journal[|s.journal|], kind, plan, clock)
    && t.checkpoint == s.checkpoint && t.progress == s.progress
  }

  lemma AppendsNext(h: Hashes, s: Store, kind: EventKind, plan: Option<StackPlan>, clock: nat)
    requires Inv(h, s) && ValidKind(h, kind, plan) && (s.journal != [] || plan.Some?)
    ensures var o := AppendNext(h, s, kind, plan, clock);
            && (o.result.Ok? <==> HasRoom(s.journal, clock))
            && (o.result.Ok? ==> o.result.value && Changed(h, s, Last(s, o.states), kind, plan, clock))
            && (o.result.Err? ==> o.states == [])
  {
    TipOf(h, s);
  }

  /** A change is refused while the rollout that was read is prepared or activated. */
  predicate Idle(r: Option<Record>) {
    r.Some? ==> r.value.phase != Prepared && r.value.phase != Activated
  }

  /** The gate reads the checkpoint and changes neither journal nor progress. */
  lemma GateIsExact(h: Hashes, s: Store)
    requires Inv(h, s) && Readable(s)
    ensures Read(h, s).result.Ok?
    ensures var gate := EnsureNoActive(h, s);
            var t := Last(s, gate.states);
            && (gate.result.Ok? <==> Idle(Read(h, s).result.value))
            && Inv(h, t) && t.journal == s.journal && t.progress == s.progress
            && t.checkpoint == Slot(Read(h, s).result.value, None)
  {
    ReadKeeps(h, s);
  }

  /** The store after the gate. */
  ghost function Gated(h: Hashes, s: Store): Store {
    Last(s, EnsureNoActive(h, s).states)
  }

  /** An append behind the gate. */
  lemma AppendsBehindGate(h: Hashes, s: Store, kind: EventKind, plan: Option<StackPlan>, clock: nat)
    requires Inv(h, s) && Readable(s) && ValidKind(h, kind, plan) && (s.journal != [] || plan.Some?)
    ensures var gate := EnsureNoActive(h, s);
            var o := AppendNext(h, Gated(h, s), kind, plan, clock);
            && (o.result.Ok? <==> HasRoom(s.journal, clock))
            && (o.result.Ok? ==>
                  o.result.value && Changed(h, Gated(h, s), Last(s, gate.states + o.states), kind, plan, clock))
  {
    GateIsExact(h, s);
    var t := Gated(h, s);
    AppendsNext(h, t, kind, plan, clock);
    Sequential(h, s, EnsureNoActive(h, s).states, AppendNext(h, t, kind, plan, clock).states);
  }

  /**
   Applying a plan succeeds if and only if no rollout is active, the plan is the one its digest names and keeps
   the sandbox or is accepted without it, the stack exists or may be created, and the plan is in force
   already or the journal has room. It appends the plan unless it is in force.
   */
  lemma AppliesExactly(h: Hashes, s: Store, plan: StackPlan, allowInsecure: bool, slotFree: bool, clock: nat)
    requires Inv(h, s) && Readable(s)
    ensures Read(h, s).result.Ok?
    ensures var o := ApplyPlan(h, s, plan, allowInsecure, slotFree, clock);
            && (o.result.Ok? <==>
                  && Idle(Read(h, s).result.value)
                  && plan.sha256 == h.plan(plan.content) && (plan.content.sandboxDisabled ==> allowInsecure)
                  && (s.journal != [] || slotFree)
                  && (Applies(s.journal, plan.sha256) || HasRoom(s.journal, clock)))
            && (o.result.Ok? ==>
                  if o.result.value then Changed(h, Gated(h, s), Last(s, o.states), Apply, Some(plan), clock)
                  else Last(s, o.states) == Gated(h, s))
            && (o.result.Ok? ==> (o.result.value <==> !Applies(s.journal, plan.sha256)))
  {
    GateIsExact(h, s);
    if ValidPlan(h, plan) {
      AppendsBehindGate(h, s, Apply, Some(plan), clock);
    }
  }

  /** The same plan with every instance stopped. */
  ghost predicate IsStopped(h: Hashes, plan: StackPlan, stopped: StackPlan) {
    && stopped.sha256 == h.plan(stopped.content)
    && stopped.content.sandboxDisabled == plan.content.sandboxDisabled
    && |stopped.content.instances| == |plan.content.instances|
    && forall i :: 0 <= i < |plan.content.instances| ==>
         stopped.content.instances[i] == (plan.content.instances[i].0, Stopped)
  }

  predicate TipIs(j: seq<Event>, kind: EventKind) {
    j != [] && j[|j| - 1].body.kind == kind
  }

  /**
   Stopping succeeds if and only if no rollout is active and the stack is stopped already, or it is applied and
   the journal has room. It appends the applied plan with every instance stopped.
   */
  lemma StopsExactly(h: Hashes, s: Store, clock: nat)
    requires Inv(h, s) && Readable(s)
    ensures Read(h, s).result.Ok?
    ensures var o := StopStack(h, s, clock);
            && (o.result.Ok? <==>
                  && Idle(Read(h, s).result.value)
                  && (TipIs(s.journal, Stop) || (TipIs(s.journal, Apply) && HasRoom(s.journal, clock))))
            && (o.result.Ok? && TipIs(s.journal, Stop) ==> !o.result.value && Last(s, o.states) == Gated(h, s))
            && (o.result.Ok? && TipIs(s.journal, Apply) ==>
                  && o.result.value && s.journal[|s.journal| - 1].body.plan.Some?
                  && exists p :: IsStopped(h, s.journal[|s.journal| - 1].body.plan.value, p)
                                 && Changed(h, Gated(h, s), Last(s, o.states), Stop, Some(p), clock))
  {
    GateIsExact(h, s);
    var t := Gated(h, s);
    TipOf(h, t);
    if TipIs(s.journal, Apply) {
      var plan := s.journal[|s.journal| - 1].body.plan.value;
      var p := StoppedPlan(h, plan);
      assert IsStopped(h, plan, p);
      assert forall i <- p.content.instances :: i.1 == Stopped;
      AppendsBehindGate(h, s, Stop, Some(p), clock);
    }
  }

  /** Removing succeeds if and only if no rollout is active and the stack is removed already, or exists with room. */
  lemma RemovesExactly(h: Hashes, s: Store, clock: nat)
    requires Inv(h, s) && Readable(s)
    ensures Read(h, s).result.Ok?
    ensures var o := RemoveStack(h, s, clock);
            && (o.result.Ok? <==>
                  && Idle(Read(h, s).result.value) && s.journal != []
                  && (TipIs(s.journal, Remove) || HasRoom(s.journal, clock)))
            && (o.result.Ok? ==> (o.result.value <==> !TipIs(s.journal, Remove)))
            && (o.result.Ok? ==>
                  if o.result.value then Changed(h, Gated(h, s), Last(s, o.states), Remove, None, clock)
                  else Last(s, o.states) == Gated(h, s))
  {
    GateIsExact(h, s);
    if s.journal != [] {
      AppendsBehindGate(h, s, Remove, None, clock);
    }
  }
}
