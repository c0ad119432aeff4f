/** The invariant of every durable state, and how the building blocks of the operations keep it. */
module RolloutSafety {
  import opened Wrappers
  import opened Engine
  import opened Rollout

  // The journal

  ghost predicate ChainedAt(h: Hashes, j: seq<Event>, i: nat)
    requires i < |j|
  {
    && ValidEvent(h, j[i])
    && j[i].body.revision == i + 1
    && j[i].body.previous == (if i == 0 then None else Some(j[i - 1].sha256))
  }

  ghost predicate Chained(h: Hashes, j: seq<Event>) {
    |j| <= MAX_EVENTS_PER_STACK && forall i :: 0 <= i < |j| ==> ChainedAt(h, j, i)
  }

  /** Neighbouring events have different identities. */
  ghost predicate Fresh(j: seq<Event>) {
    forall i :: 0 < i < |j| ==> j[i].sha256 != j[i - 1].sha256
  }

  /** The bodies of the events `i - 1` and `i` are different and have one digest. */
  predicate NeighboursCollide(h: Hashes, j: seq<Event>, i: nat) {
    0 < i < |j| && j[i].body != j[i - 1].body && h.event(j[i].body) == h.event(j[i - 1].body)
  }

  /** If neighbouring identities were equal, their bodies would collide: they differ in their revision. */
  lemma StaleIdentityIsCollision(h: Hashes, j: seq<Event>)
    requires Chained(h, j) && !Fresh(j)
    ensures exists i :: NeighboursCollide(h, j, i)
  {
    var i :| 0 < i < |j| && j[i].sha256 == j[i - 1].sha256;
    assert ChainedAt(h, j, i) && ChainedAt(h, j, i - 1);
    assert NeighboursCollide(h, j, i);
  }

  // Who appended what

  function Position(k: RolloutKey): nat {
    if k.previousRevision.None? then 0 else k.previousRevision.value
  }

  /** What undoing the event at `i` appends: the kind and plan of the event before it. */
  function Undo(j: seq<Event>, i: nat): (EventKind, Option<StackPlan>)
    requires i <= |j|
  {
    if i == 0 then (Remove, None) else (j[i - 1].body.kind, j[i - 1].body.plan)
  }

  ghost predicate OriginAt(j: seq<Event>, origins: seq<Origin>, i: nat)
    requires |origins| == |j| && i < |origins|
  {
    match origins[i]
    case Direct => true
    case Activation(k) =>
      Position(k) == i && j[i].body.kind == Apply && PlanSha(j[i].body.plan) == Some(k.candidate)
    case RollbackOf(k) =>
      && i > 0
      && Position(k) == i - 1
      && origins[i - 1] == Activation(k)
      && (j[i].body.kind, j[i].body.plan) == Undo(j, i - 1)
  }

  ghost predicate Attributed(j: seq<Event>, origins: seq<Origin>) {
    |origins| == |j| && forall i :: 0 <= i < |origins| ==> OriginAt(j, origins, i)
  }

  // The checkpoint

  function Start(r: Record): nat {
    Position(KeyOf(r))
  }

  /** The record describes the journal as it was when the rollout was prepared. */
  ghost predicate Anchored(s: Store, r: Record) {
    var p := Start(r);
    && p <= |s.journal|
    && (p == 0 <==> r.previousRevision.None?)
    && (p > 0 ==>
          && r.previousGeneration == Some(s.journal[p - 1].sha256)
          && r.previousState == Some(StateOf(s.journal[p - 1].body.kind))
          && r.previousPlan == s.journal[p - 1].body.plan)
  }

  ghost predicate HasActivation(s: Store, r: Record) {
    var p := Start(r);
    && p < |s.journal| == |s.origins|
    && s.journal[p].body.kind == Apply
    && s.journal[p].body.plan == Some(r.candidate)
    && s.origins[p] == Activation(KeyOf(r))
  }

  ghost predicate KnowsActivation(s: Store, r: Record) {
    && HasActivation(s, r)
    && r.activatedRevision == Some(Start(r) + 1)
    && r.activatedGeneration == Some(s.journal[Start(r)].sha256)
  }

  ghost predicate HasRollback(s: Store, r: Record) {
    var p := Start(r);
    && p + 1 < |s.journal| == |s.origins|
    && (s.journal[p + 1].body.kind, s.journal[p + 1].body.plan) == Undo(s.journal, p)
    && s.origins[p + 1] == RollbackOf(KeyOf(r))
  }

  ghost predicate RecordOk(h: Hashes, s: Store, r: Record) {
    var p := Start(r);
    && ValidRecord(h, r)
    && Anchored(s, r)
    && match r.phase
       case Prepared => |s.journal| == p || (|s.journal| == p + 1 && HasActivation(s, r))
       case Activated => KnowsActivation(s, r) && (|s.journal| == p + 1 || (|s.journal| == p + 2 && HasRollback(s, r)))
       case Committed => KnowsActivation(s, r)
       case RolledBack =>
         && KnowsActivation(s, r) && HasRollback(s, r)
         && r.rollbackRevision == Some(p + 2)
         && r.rollbackGeneration == Some(s.journal[p + 1].sha256)
       case Cancelled => true
  }

  // The progress document

  /** The record carries the report of its health gate. */
  predicate WasCommitted(r: Record) {
    r.healthReport.Some?
  }

  ghost predicate ProgressOk(q: Progress, r: Record) {
    && ValidProgress(q)
    && ProgressMatches(q, r)
    && (q.phase == Completed ==> WasCommitted(r))
    && (q.phase == Reverted ==> r.phase == RolledBack)
  }

  ghost predicate Inv(h: Hashes, s: Store) {
    && Chained(h, s.journal)
    && Attributed(s.journal, s.origins)
    && (s.checkpoint.Logical().Some? ==> RecordOk(h, s, s.checkpoint.Logical().value))
    && (s.progress.Logical().Some? ==>
          s.checkpoint.Logical().Some? && ProgressOk(s.progress.Logical().value, s.checkpoint.Logical().value))
  }

  // One durable write

  /** The edges of the rollout's phase graph. */
  predicate PhaseEdge(a: Phase, b: Phase) {
    match a
    case Prepared => b == Activated || b == Cancelled
    case Activated => b == Committed || b == RolledBack
    case Committed => b == RolledBack
    case _ => false
  }

  /** The checkpoint stays, moves along an edge, or gives way to a new rollout; only a commit adds a report. */
  predicate CheckpointStep(a: Option<Record>, b: Option<Record>) {
    || b == a
    || (b.Some? && b.value.phase == Prepared && (a.None? || !ActivePhase(a.value.phase)))
    || (a.Some? && b.Some? && KeyOf(a.value) == KeyOf(b.value) && PhaseEdge(a.value.phase, b.value.phase)
        && (b.value.phase != Committed ==> b.value.healthReport == a.value.healthReport))
  }

  /** A write appends one event, or replaces the checkpoint, or replaces the progress. */
  predicate Evolves(s: Store, t: Store) {
    || (SameElsewhere(s, t) && CheckpointStep(s.checkpoint.Logical(), t.checkpoint.Logical()))
    || (s.journal < t.journal && |t.journal| == |s.journal| + 1
        && t == s.(journal := t.journal, origins := t.origins) && s.origins < t.origins)
    || t == s.(progress := t.progress)
  }

  /** Every write of an operation begun in `s` keeps the invariant and moves as allowed. */
  ghost predicate Good(h: Hashes, s: Store, states: seq<Store>) {
    forall i :: 0 <= i < |states| ==> GoodAt(h, s, states, i)
  }

  ghost predicate GoodAt(h: Hashes, s: Store, states: seq<Store>, i: nat)
    requires i < |states|
  {
    Inv(h, states[i]) && Evolves(if i == 0 then s else states[i - 1], states[i])
  }

  // Building blocks

  lemma TipOf(h: Hashes, s: Store)
    requires Chained(h, s.journal)
    ensures NextRevision(Latest(s)) == |s.journal| + 1
    ensures Latest(s).Some? <==> |s.journal| > 0
    ensures |s.journal| > 0 ==> Latest(s) == Some(s.journal[|s.journal| - 1])
                                && ChainedAt(h, s.journal, |s.journal| - 1)
  {
    if |s.journal| > 0 {
      assert ChainedAt(h, s.journal, |s.journal| - 1);
    }
  }

  /** Appending keeps the chain, and every earlier event keeps its origin. */
  lemma AppendKeepsJournal(h: Hashes, s: Store, e: Event, o: Origin)
    requires Chained(h, s.journal) && Attributed(s.journal, s.origins)
    requires Append(h, s, e, o).result.Ok?
    requires OriginAt(s.journal + [e], s.origins + [o], |s.journal|)
    ensures var t := Last(s, Append(h, s, e, o).states);
            Chained(h, t.journal) && Attributed(t.journal, t.origins)
  {
    var t := Last(s, Append(h, s, e, o).states);
    TipOf(h, s);
    forall i | 0 <= i < |t.journal| ensures ChainedAt(h, t.journal, i) {
      if i < |s.journal| { assert ChainedAt(h, s.journal, i); }
    }
    forall i | 0 <= i < |t.origins| ensures OriginAt(t.journal, t.origins, i) {
      if i < |s.origins| { assert OriginAt(s.journal, s.origins, i); }
    }
  }

  /** A file replacement shows the old value until the new one is in place. */
  lemma ReplaceIsAtomic<T>(f: Slot<T>, v: T, i: nat)
    requires Replace(f, v).Ok? && i < |Replace(f, v).value|
    ensures Replace(f, v).value[i].Logical() == f.Logical() || Replace(f, v).value[i].Logical() == Some(v)
    ensures i == |Replace(f, v).value| - 1 ==>
              Replace(f, v).value[i] == Slot(Some(v), if f.current.None? then f.backup else None)
  {
  }

  /** Recovery never changes what is read, and it succeeds on a valid document. */
  lemma RecoverKeeps<T>(f: Slot<T>, valid: T -> bool)
    requires f.Logical().Some? ==> valid(f.Logical().value)
    ensures Recover(f, valid).Ok?
    ensures |Recover(f, valid).value| <= 1
    ensures forall g <- Recover(f, valid).value :: g == Slot(f.Logical(), None)
    ensures Recover(f, valid).value == [] ==> f == Slot(f.Logical(), None)
  {
  }

  /** The checkpoint file is at rest and holds `r`. */
  predicate Rests(s: Store, r: Option<Record>) {
    s.checkpoint == Slot(r, None)
  }

  /** The journal holds nothing that the record does not know of yet. */
  ghost predicate UpToDate(s: Store, r: Record) {
    && (r.phase == Prepared ==> |s.journal| == Start(r))
    && (r.phase == Activated ==> |s.journal| == Start(r) + 1)
  }

  /** Only the checkpoint differs. */
  predicate SameElsewhere(s: Store, t: Store) {
    s.journal == t.journal && s.origins == t.origins && s.progress == t.progress
  }

  lemma PreparedMatches(h: Hashes, s: Store, r: Record)
    requires Chained(h, s.journal) && Fresh(s.journal) && RecordOk(h, s, r) && r.phase == Prepared
    ensures MatchesCandidate(r, Latest(s)) <==> |s.journal| == Start(r) + 1
    ensures |s.journal| == Start(r) ==> MatchesPrevious(r, Latest(s))
  {
    TipOf(h, s);
  }

  lemma ActivatedMatches(h: Hashes, s: Store, r: Record)
    requires Chained(h, s.journal) && Fresh(s.journal) && RecordOk(h, s, r) && r.phase == Activated
    ensures MatchesRollback(r, Latest(s)) <==> |s.journal| == Start(r) + 2
    ensures |s.journal| == Start(r) + 1 ==> MatchesActivation(r, Latest(s))
  {
    TipOf(h, s);
    assert ChainedAt(h, s.journal, Start(r));
  }

  /**
   Recovery succeeds, and it advances the record exactly when the journal holds the event that the
   record does not know of yet: its own activation for a prepared one, its own rollback for an activated one.
   */
  lemma RecoveredIsExact(h: Hashes, s: Store, r: Record)
    requires Chained(h, s.journal) && Attributed(s.journal, s.origins) && RecordOk(h, s, r)
    requires ActivePhase(r.phase) ==> Fresh(s.journal)
    ensures Recovered(h, s, r).Ok?
    ensures var r' := Recovered(h, s, r).value;
            && RecordOk(h, s, r') && UpToDate(s, r') && KeyOf(r') == KeyOf(r)
            && r'.healthReport == r.healthReport
            && (if UpToDate(s, r) then r' == r
                else
                  && |s.journal| > 0
                  && var tip := s.journal[|s.journal| - 1];
                  var time := if tip.body.createdAtMs > r.updatedAtMs then tip.body.createdAtMs else r.updatedAtMs;
                  r' == if r.phase == Prepared
                        then r.(phase := Activated, updatedAtMs := time, activatedRevision := Some(|s.journal|),
                                activatedGeneration := Some(tip.sha256))
                        else r.(phase := RolledBack, updatedAtMs := time, rollbackRevision := Some(|s.journal|),
                                rollbackGeneration := Some(tip.sha256)))
  {
    TipOf(h, s);
    if r.phase == Prepared {
      PreparedMatches(h, s, r);
    } else if r.phase == Activated {
      ActivatedMatches(h, s, r);
    }
  }

  lemma WriteKeeps(h: Hashes, s: Store, r: Record)
    requires Inv(h, s) && s.checkpoint.backup.None?
    requires RecordOk(h, s, r) && CheckpointStep(s.checkpoint.Logical(), Some(r))
    requires s.progress.Logical().Some? ==> ProgressOk(s.progress.Logical().value, r)
    ensures var w := WriteCheckpoint(h, s, r);
            && w.result.Ok?
            && w.states != []
            && Last(s, w.states) == s.(checkpoint := Slot(Some(r), None))
            && Inv(h, Last(s, w.states))
            && Good(h, s, w.states)
            && (forall t <- w.states :: SameElsewhere(s, t))
  {
    var w := WriteCheckpoint(h, s, r);
    forall i | 0 <= i < |w.states| ensures GoodAt(h, s, w.states, i) && SameElsewhere(s, w.states[i]) {
      WriteKeepsAt(h, s, r, i);
    }
    assert GoodAt(h, s, w.states, |w.states| - 1);
  }

  lemma WriteKeepsAt(h: Hashes, s: Store, r: Record, i: nat)
    requires Inv(h, s) && s.checkpoint.backup.None?
    requires RecordOk(h, s, r) && CheckpointStep(s.checkpoint.Logical(), Some(r))
    requires s.progress.Logical().Some? ==> ProgressOk(s.progress.Logical().value, r)
    requires i < |WriteCheckpoint(h, s, r).states|
    ensures GoodAt(h, s, WriteCheckpoint(h, s, r).states, i)
    ensures SameElsewhere(s, WriteCheckpoint(h, s, r).states[i])
  {
    var slots := Replace(s.checkpoint, r).value;
    ReplaceIsAtomic(s.checkpoint, r, i);
    ReplacedStateOk(h, s, r, slots[i]);
  }

  lemma ReplacedStateOk(h: Hashes, s: Store, r: Record, f: Slot<Record>)
    requires Inv(h, s) && RecordOk(h, s, r)
    requires s.progress.Logical().Some? ==> ProgressOk(s.progress.Logical().value, r)
    requires f.Logical() == s.checkpoint.Logical() || f.Logical() == Some(r)
    ensures Inv(h, s.(checkpoint := f))
  {
    var t := s.(checkpoint := f);
    RecordFrame(h, s, t, r);
    if s.checkpoint.Logical().Some? {
      RecordFrame(h, s, t, s.checkpoint.Logical().value);
    }
  }

  lemma RecordFrame(h: Hashes, s: Store, t: Store, r: Record)
    requires s.journal == t.journal && s.origins == t.origins
    ensures RecordOk(h, s, r) == RecordOk(h, t, r)
  {
  }

  /** Reading an active rollout relies on neighbouring identities being different. */
  ghost predicate Readable(s: Store) {
    s.checkpoint.Logical().Some? && ActivePhase(s.checkpoint.Logical().value.phase) ==> Fresh(s.journal)
  }

  /** What a completed read establishes. */
  ghost predicate ReadOk(h: Hashes, s: Store, t: Store, r: Option<Record>) {
    && Inv(h, t)
    && SameElsewhere(s, t)
    && Rests(t, r)
    && (r.None? <==> s.checkpoint.Logical().None?)
    && (r.Some? ==> Recovered(h, s, s.checkpoint.Logical().value) == Ok(r.value) && UpToDate(t, r.value))
  }

  lemma RecoverStep(h: Hashes, s: Store)
    requires Inv(h, s)
    ensures var rec := Recover(s.checkpoint, r => ValidRecord(h, r));
            && rec.Ok?
            && Good(h, s, WithCheckpoint(s, rec.value))
            && (forall t <- WithCheckpoint(s, rec.value) :: SameElsewhere(s, t))
            && Last(s, WithCheckpoint(s, rec.value)) == s.(checkpoint := Slot(s.checkpoint.Logical(), None))
            && Inv(h, Last(s, WithCheckpoint(s, rec.value)))
  {
    RecoverKeeps(s.checkpoint, r => ValidRecord(h, r));
    var f := Slot(s.checkpoint.Logical(), None);
    if s.checkpoint.Logical().Some? {
      ReplacedStateOk(h, s, s.checkpoint.Logical().value, f);
    }
  }

  lemma Sequential(h: Hashes, s: Store, a: seq<Store>, b: seq<Store>)
    ensures Last(s, a + b) == Last(Last(s, a), b)
    ensures Good(h, s, a) && Good(h, Last(s, a), b) ==> Good(h, s, a + b)
  {
    if Good(h, s, a) && Good(h, Last(s, a), b) {
      forall i | 0 <= i < |a + b| ensures GoodAt(h, s, a + b, i) {
        if i < |a| {
          assert GoodAt(h, s, a, i);
        } else {
          assert GoodAt(h, Last(s, a), b, i - |a|);
        }
      }
    }
  }

  lemma ReadPhaseKeeps(h: Hashes, s: Store)
    requires Inv(h, s) && Readable(s) && s.checkpoint.backup.None?
    ensures var o := ReadPhase(h, s);
            && o.result.Ok?
            && Good(h, s, o.states)
            && (forall t <- o.states :: SameElsewhere(s, t))
            && ReadOk(h, s, Last(s, o.states), o.result.value)
  {
    if s.checkpoint.current.Some? {
      var r := s.checkpoint.current.value;
      RecoveredIsExact(h, s, r);
      var r' := Recovered(h, s, r).value;
      if r' != r {
        WriteKeeps(h, s, r');
      }
    }
  }

  /** Reading succeeds in every state the invariant allows, and every write on the way keeps the invariant. */
  lemma ReadKeeps(h: Hashes, s: Store)
    requires Inv(h, s) && Readable(s)
    ensures var o := Read(h, s);
            && o.result.Ok?
            && Good(h, s, o.states)
            && (forall t <- o.states :: SameElsewhere(s, t))
            && ReadOk(h, s, Last(s, o.states), o.result.value)
  {
    RecoverStep(h, s);
    var before := WithCheckpoint(s, Recover(s.checkpoint, r => ValidRecord(h, r)).value);
    var t := Last(s, before);
    ReadPhaseKeeps(h, t);
    var o := ReadPhase(h, t);
    Sequential(h, s, before, o.states);
    if t.checkpoint.current.Some? {
      RecoveredFrame(h, s, t, t.checkpoint.current.value);
    }
  }

  lemma RecoveredFrame(h: Hashes, s: Store, t: Store, r: Record)
    requires s.journal == t.journal
    ensures Recovered(h, s, r) == Recovered(h, t, r)
  {
  }

  // Operations on a checkpoint that has just been read

  ghost predicate Current(h: Hashes, s: Store, r: Record) {
    Inv(h, s) && Rests(s, Some(r)) && UpToDate(s, r)
  }

  /** `b` continues the rollout `a`: same identity, same activation. */
  predicate Succeeds(a: Record, b: Record) {
    && KeyOf(a) == KeyOf(b)
    && a.id == b.id
    && a.activatedRevision == b.activatedRevision
    && a.activatedGeneration == b.activatedGeneration
  }

  /** The journal has room and the clock gives a usable time. */
  predicate CanAppend(s: Store, clock: nat) {
    clock > 0 && |s.journal| < MAX_EVENTS_PER_STACK
  }

  /** A finished record is unaffected by later events. */
  lemma RecordExtends(h: Hashes, s: Store, t: Store, r: Record)
    requires RecordOk(h, s, r) && !ActivePhase(r.phase)
    requires s.journal <= t.journal && s.origins <= t.origins && |t.origins| == |t.journal|
    ensures RecordOk(h, t, r)
  {
  }

  lemma AppendKeeps(h: Hashes, s: Store, e: Event, o: Origin)
    requires Inv(h, s) && Append(h, s, e, o).result.Ok?
    requires OriginAt(s.journal + [e], s.origins + [o], |s.journal|)
    requires s.checkpoint.Logical().Some? ==>
               RecordOk(h, Last(s, Append(h, s, e, o).states), s.checkpoint.Logical().value)
    ensures Good(h, s, Append(h, s, e, o).states)
    ensures Inv(h, Last(s, Append(h, s, e, o).states))
  {
    AppendKeepsJournal(h, s, e, o);
  }

  lemma AppendAndSaveKeeps(h: Hashes, s: Store, e: Event, o: Origin, r: Record, r': Record)
    requires Inv(h, s) && Rests(s, Some(r)) && Append(h, s, e, o).result.Ok?
    requires OriginAt(s.journal + [e], s.origins + [o], |s.journal|)
    requires RecordOk(h, Last(s, Append(h, s, e, o).states), r)
    requires RecordOk(h, Last(s, Append(h, s, e, o).states), r')
    requires CheckpointStep(Some(r), Some(r'))
    requires s.progress.Logical().Some? ==> ProgressOk(s.progress.Logical().value, r')
    ensures var out := AppendAndSave(h, s, e, o, r');
            && Good(h, s, out.states)
            && out.result == Ok(r')
            && Last(s, out.states) == s.(journal := s.journal + [e], origins := s.origins + [o],
                                         checkpoint := Slot(Some(r'), None))
            && Inv(h, Last(s, out.states))
  {
    AppendKeeps(h, s, e, o);
    var a := Append(h, s, e, o);
    var t := Last(s, a.states);
    WriteKeeps(h, t, r');
    Sequential(h, s, a.states, WriteCheckpoint(h, t, r').states);
  }

  /** The event an activation appends to the prepared record `r`. */
  lemma ActivationEvent(h: Hashes, s: Store, r: Record, clock: nat)
    requires Current(h, s, r) && r.phase == Prepared
    requires NextEvent(h, Latest(s), Apply, Some(r.candidate), clock).Ok?
    ensures var e := NextEvent(h, Latest(s), Apply, Some(r.candidate), clock).value;
            var a := Append(h, s, e, Activation(KeyOf(r)));
            && OriginAt(s.journal + [e], s.origins + [Activation(KeyOf(r))], |s.journal|)
            && (a.result.Ok? ==> RecordOk(h, Last(s, a.states), r))
            && (forall now :: a.result.Ok? && now >= r.updatedAtMs ==>
                  RecordOk(h, Last(s, a.states), ToActivated(r, e, now)))
  {
    TipOf(h, s);
  }

  lemma ActivateKeeps(h: Hashes, s: Store, r: Record, now: nat, clock: nat)
    requires Current(h, s, r)
    ensures var o := ActivateFrom(h, s, r, now, clock);
            && Good(h, s, o.states)
            && (o.result.Ok? <==>
                  r.phase == Activated || (r.phase == Prepared && TimeAdvances(r, now) && CanAppend(s, clock)))
            && (o.result.Ok? ==> Current(h, Last(s, o.states), o.result.value)
                                 && o.result.value.phase == Activated
                                 && KeyOf(o.result.value) == KeyOf(r)
                                 && (r.phase == Prepared ==> o.result.value.updatedAtMs == now)
                                 && Last(s, o.states).progress == s.progress)
  {
    var o := ActivateFrom(h, s, r, now, clock);
    var next := NextEvent(h, Latest(s), Apply, Some(r.candidate), clock);
    TipOf(h, s);
    if r.phase == Prepared && TimeAdvances(r, now) && CanAppend(s, clock) {
      ActivationEvent(h, s, r, clock);
      AppendAndSaveKeeps(h, s, next.value, Activation(KeyOf(r)), r, ToActivated(r, next.value, now));
    }
  }

  /** The journal tip is the activation of `r`. */
  ghost predicate AtActivation(s: Store, r: Record) {
    KnowsActivation(s, r) && |s.journal| == Start(r) + 1
  }

  lemma AtActivationMatches(h: Hashes, s: Store, r: Record)
    requires Inv(h, s) && RecordOk(h, s, r) && KnowsActivation(s, r)
    ensures MatchesActivation(r, Latest(s)) <==> AtActivation(s, r)
  {
    TipOf(h, s);
    assert ChainedAt(h, s.journal, Start(r));
  }

  lemma CommittedOk(h: Hashes, s: Store, r: Record, now: nat, report: Digest)
    requires Inv(h, s) && RecordOk(h, s, r) && r.phase == Activated && TimeAdvances(r, now)
    ensures RecordOk(h, s, ToCommitted(r, now, report))
    ensures CheckpointStep(Some(r), Some(ToCommitted(r, now, report)))
  {
  }

  lemma CommitKeeps(h: Hashes, s: Store, r: Record, now: nat, ready: bool, report: Digest)
    requires Current(h, s, r)
    ensures var o := CommitFrom(h, s, r, now, ready, report);
            && Good(h, s, o.states)
            && (o.result.Ok? <==> r.phase == Committed || (r.phase == Activated && TimeAdvances(r, now) && ready))
            && (o.result.Ok? ==> Current(h, Last(s, o.states), o.result.value)
                                 && o.result.value.phase == Committed
                                 && Succeeds(r, o.result.value)
                                 && o.result.value == (if r.phase == Committed then r
                                                       else r.(phase := Committed, updatedAtMs := now,
                                                               healthReport := Some(report)))
                                 && SameElsewhere(s, Last(s, o.states)))
  {
    if r.phase == Activated {
      AtActivationMatches(h, s, r);
      if ready && TimeAdvances(r, now) {
        CommittedOk(h, s, r, now, report);
        WriteKeeps(h, s, ToCommitted(r, now, report));
      }
    }
  }

  lemma TargetIsUndo(h: Hashes, s: Store, r: Record)
    requires Chained(h, s.journal) && RecordOk(h, s, r)
    ensures RollbackTarget(r) == Ok(Undo(s.journal, Start(r)))
    ensures Start(r) > 0 ==> ValidKind(h, Undo(s.journal, Start(r)).0, Undo(s.journal, Start(r)).1)
  {
    if Start(r) > 0 {
      assert ChainedAt(h, s.journal, Start(r) - 1);
    }
  }

  /** The event a rollback appends restores the kind and plan held before the activation. */
  lemma RollbackEvent(h: Hashes, s: Store, r: Record, clock: nat)
    requires Current(h, s, r) && AtActivation(s, r) && (r.phase == Activated || r.phase == Committed)
    requires CanAppend(s, clock)
    ensures var (kind, plan) := Undo(s.journal, Start(r));
            var next := NextEvent(h, Latest(s), kind, plan, clock);
            && next.Ok?
            && var a := Append(h, s, next.value, RollbackOf(KeyOf(r)));
            && a.result.Ok?
            && OriginAt(s.journal + [next.value], s.origins + [RollbackOf(KeyOf(r))], |s.journal|)
            && RecordOk(h, Last(s, a.states), r)
            && (forall now :: now >= r.updatedAtMs ==> RecordOk(h, Last(s, a.states), ToRolledBack(r, next.value, now)))
  {
    TipOf(h, s);
    TargetIsUndo(h, s, r);
  }

  /** The event and the record of a rollback at the activation. */
  lemma RollbackFromActivation(h: Hashes, s: Store, r: Record, now: nat, clock: nat)
    requires Current(h, s, r) && AtActivation(s, r) && (r.phase == Activated || r.phase == Committed)
    requires CanAppend(s, clock) && TimeAdvances(r, now)
    ensures var (kind, plan) := Undo(s.journal, Start(r));
            var next := NextEvent(h, Latest(s), kind, plan, clock);
            && next.Ok?
            && RollbackFrom(h, s, r, now, clock)
               == AppendAndSave(h, s, next.value, RollbackOf(KeyOf(r)), ToRolledBack(r, next.value, now))
  {
    TargetIsUndo(h, s, r);
    AtActivationMatches(h, s, r);
    RollbackEvent(h, s, r, clock);
  }

  lemma RollbackActivatedKeeps(h: Hashes, s: Store, r: Record, now: nat, clock: nat)
    requires Current(h, s, r) && AtActivation(s, r) && (r.phase == Activated || r.phase == Committed)
    requires CanAppend(s, clock) && TimeAdvances(r, now)
    ensures var o := RollbackFrom(h, s, r, now, clock);
            && Good(h, s, o.states)
            && o.result.Ok?
            && Current(h, Last(s, o.states), o.result.value)
            && o.result.value.phase == RolledBack
            && Succeeds(r, o.result.value) && r.healthReport == o.result.value.healthReport
            && Last(s, o.states).progress == s.progress
            && HasRollback(Last(s, o.states), r) && |Last(s, o.states).journal| == |s.journal| + 1
  {
    RollbackFromActivation(h, s, r, now, clock);
    RollbackEvent(h, s, r, clock);
    var (kind, plan) := Undo(s.journal, Start(r));
    var e := NextEvent(h, Latest(s), kind, plan, clock).value;
    AppendAndSaveKeeps(h, s, e, RollbackOf(KeyOf(r)), r, ToRolledBack(r, e, now));
  }

  lemma CancelKeeps(h: Hashes, s: Store, r: Record, now: nat, clock: nat)
    requires Current(h, s, r) && r.phase == Prepared && TimeAdvances(r, now)
    ensures var o := RollbackFrom(h, s, r, now, clock);
            && Good(h, s, o.states)
            && o.result == Ok(ToCancelled(r, now))
            && Current(h, Last(s, o.states), ToCancelled(r, now))
            && Last(s, o.states).journal == s.journal
  {
    TipOf(h, s);
    WriteKeeps(h, s, ToCancelled(r, now));
  }

  function PhaseAfterRollback(p: Phase): Phase {
    if p == Prepared || p == Cancelled then Cancelled else RolledBack
  }

  lemma RollbackKeeps(h: Hashes, s: Store, r: Record, now: nat, clock: nat)
    requires Current(h, s, r)
    ensures var o := RollbackFrom(h, s, r, now, clock);
            && Good(h, s, o.states)
            && (o.result.Ok? <==>
                  || r.phase == Cancelled || r.phase == RolledBack
                  || (TimeAdvances(r, now) && (r.phase == Prepared || (AtActivation(s, r) && CanAppend(s, clock)))))
            && (o.result.Ok? ==> Current(h, Last(s, o.states), o.result.value)
                                 && o.result.value.phase == PhaseAfterRollback(r.phase)
                                 && Succeeds(r, o.result.value) && r.healthReport == o.result.value.healthReport
                                 && Last(s, o.states).progress == s.progress)
  {
    if r.phase == Prepared && TimeAdvances(r, now) {
      CancelKeeps(h, s, r, now, clock);
    } else if r.phase == Activated || r.phase == Committed {
      AtActivationMatches(h, s, r);
      if AtActivation(s, r) && TimeAdvances(r, now) && CanAppend(s, clock) {
        RollbackActivatedKeeps(h, s, r, now, clock);
      }
    }
  }

  // Preparation

  lemma ProgressFrame(h: Hashes, s: Store, f: Slot<Progress>)
    requires Inv(h, s)
    requires f.Logical().Some? ==>
               s.checkpoint.Logical().Some? && ProgressOk(f.Logical().value, s.checkpoint.Logical().value)
    ensures Inv(h, s.(progress := f))
  {
    if s.checkpoint.Logical().Some? {
      RecordFrame(h, s, s.(progress := f), s.checkpoint.Logical().value);
    }
  }

  lemma RecoverProgressStep(h: Hashes, s: Store)
    requires Inv(h, s)
    ensures var rec := Recover(s.progress, ValidProgress);
            && rec.Ok?
            && Good(h, s, WithProgress(s, rec.value))
            && Last(s, WithProgress(s, rec.value)) == s.(progress := Slot(s.progress.Logical(), None))
            && Inv(h, Last(s, WithProgress(s, rec.value)))
  {
    RecoverKeeps(s.progress, ValidProgress);
    ProgressFrame(h, s, Slot(s.progress.Logical(), None));
  }

  lemma DropProgressKeeps(h: Hashes, s: Store, r: Record)
    requires Inv(h, s) && Rests(s, Some(r))
    ensures var o := DropProgress(s, r);
            && o.result.Ok?
            && Good(h, s, o.states)
            && Last(s, o.states) == s.(progress := Slot(None, None))
            && Inv(h, Last(s, o.states))
  {
    RecoverProgressStep(h, s);
    var before := WithProgress(s, Recover(s.progress, ValidProgress).value);
    var t := Last(s, before);
    ProgressFrame(h, t, Slot(None, None));
    var dropped := t.(progress := Slot(None, None));
    assert Good(h, t, [dropped]);
    Sequential(h, s, before, [dropped]);
  }

  lemma NewRecordOk(h: Hashes, s: Store, plan: StackPlan, now: nat)
    requires Inv(h, s) && ValidPlan(h, plan) && now > 0
    ensures RecordOk(h, s, NewRecord(h, plan, Latest(s), now))
    ensures UpToDate(s, NewRecord(h, plan, Latest(s), now))
  {
    TipOf(h, s);
  }

  lemma BeginKeeps(h: Hashes, s: Store, r: Option<Record>, plan: StackPlan, now: nat, slotFree: bool)
    requires Inv(h, s) && Rests(s, r) && ValidPlan(h, plan)
    requires r.Some? ==> !ActivePhase(r.value.phase)
    requires s.progress.Logical().None?
    ensures var o := Begin(h, s, plan, now, slotFree);
            && Good(h, s, o.states)
            && (o.result.Ok? <==>
                  now > 0 && !AlreadyDesiredPlan(Latest(s), plan) && (Latest(s).Some? || slotFree))
            && (o.result.Ok? ==> Current(h, Last(s, o.states), o.result.value)
                                 && o.result.value == NewRecord(h, plan, Latest(s), now))
  {
    if now > 0 {
      var n := NewRecord(h, plan, Latest(s), now);
      NewRecordOk(h, s, plan, now);
      WriteKeeps(h, s, n);
    }
  }

  lemma PrepareKeeps(
    h: Hashes, s: Store, r: Option<Record>, plan: StackPlan, now: nat, slotFree: bool, archived: bool)
    requires Inv(h, s) && Rests(s, r) && ValidPlan(h, plan)
    requires r.Some? ==> UpToDate(s, r.value)
    ensures var o := PrepareFrom(h, s, r, plan, now, slotFree, archived);
            && Good(h, s, o.states)
            && (o.result.Ok? ==> Current(h, Last(s, o.states), o.result.value)
                                 && o.result.value.candidate.sha256 == plan.sha256
                                 && Last(s, o.states).journal == s.journal)
  {
    if r.None? {
      BeginKeeps(h, s, r, plan, now, slotFree);
    } else if !ActivePhase(r.value.phase) {
      DropProgressKeeps(h, s, r.value);
      var dropped := DropProgress(s, r.value);
      var t := Last(s, dropped.states);
      BeginKeeps(h, t, r, plan, now, slotFree);
      Sequential(h, s, dropped.states, Begin(h, t, plan, now, slotFree).states);
    }
  }

  // Direct changes of the desired state

  lemma AppendNextKeeps(h: Hashes, s: Store, r: Option<Record>, kind: EventKind, plan: Option<StackPlan>, clock: nat)
    requires Inv(h, s) && Rests(s, r)
    requires r.Some? ==> !ActivePhase(r.value.phase)
    ensures Good(h, s, AppendNext(h, s, kind, plan, clock).states)
  {
    var o := AppendNext(h, s, kind, plan, clock);
    if o.states != [] {
      var e := NextEvent(h, Latest(s), kind, plan, clock).value;
      var t := Last(s, Append(h, s, e, Direct).states);
      if r.Some? {
        RecordExtends(h, s, t, r.value);
      }
      AppendKeeps(h, s, e, Direct);
    }
  }
}
