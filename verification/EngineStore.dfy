/**
 The store of one stack as the engine runs it: fields and files changed in place, one write at a time.
 `written` records the durable state after each write, so each method is tied to its
 specification at every point where a crash could fall.
 */
module EngineStores {
  import opened Wrappers
  import opened Engine
  import opened Rollout
  import opened RolloutSafety
  import opened EngineRun

  lemma WritesCompose(s: Store, log: seq<Store>, a: seq<Store>, b: seq<Store>)
    ensures Last(s, a + b) == Last(Last(s, a), b)
    ensures log + a + b == log + (a + b)
  {
  }

  class EngineStore {
    const h: Hashes
    var journal: seq<Event>
    var checkpoint: Option<Record>
    var checkpointBackup: Option<Record>
    var progress: Option<Progress>
    var progressBackup: Option<Progress>
    ghost var origins: seq<Origin>
    ghost var written: seq<Store>

    ghost function View(): Store
      reads this
    {
      Store(journal, origins, Slot(checkpoint, checkpointBackup), Slot(progress, progressBackup))
    }

    /** Since the store was `s` with the history `log`, exactly the writes `states` were made. */
    ghost predicate Wrote(s: Store, log: seq<Store>, states: seq<Store>)
      reads this
    {
      written == log + states && View() == Last(s, states)
    }

    /** Every write since then keeps the invariant, if it held before, and moves the checkpoint as allowed. */
    ghost predicate Preserved(s: Store, log: seq<Store>)
      requires |log| <= |written|
      reads this
    {
      Inv(h, s) && Readable(s) ==> Good(h, s, written[|log|..])
    }

    constructor (h: Hashes)
      ensures this.h == h
      ensures View() == Store([], [], Slot(None, None), Slot(None, None)) && written == []
    {
      this.h := h;
      journal := [];
      checkpoint, checkpointBackup, progress, progressBackup := None, None, None, None;
      origins, written := [], [];
    }

    function LatestEvent(): Option<Event>
      reads this
    {
      if journal == [] then None else Some(journal[|journal| - 1])
    }

    method AppendEvent(event: Event, ghost origin: Origin) returns (r: Result<(), Error>)
      modifies this
      ensures var o := Append(h, old(View()), event, origin);
              Wrote(old(View()), old(written), o.states) && r == o.result
    {
      if !ValidEvent(h, event) {
        return Err(InvalidDocument);
      }
      if |journal| >= MAX_EVENTS_PER_STACK {
        return Err(HistoryLimit);
      }
      if event.body.revision != NextRevision(LatestEvent()) || event.body.previous != PreviousSha(LatestEvent()) {
        return Err(JournalDiscontinuity);
      }
      journal := journal + [event];
      origins := origins + [origin];
      written := written + [View()];
      return Ok(());
    }

    method WriteCheckpointFile(record: Record) returns (r: Result<(), Error>)
      modifies this
      ensures var o := WriteCheckpoint(h, old(View()), record);
              Wrote(old(View()), old(written), o.states) && r == o.result
    {
      if !ValidRecord(h, record) {
        return Err(InvalidDocument);
      }
      if checkpoint.Some? {
        if checkpointBackup.Some? {
          return Err(ReplacementInProgress);
        }
        checkpoint, checkpointBackup := None, checkpoint;
        written := written + [View()];
        checkpoint := Some(record);
        written := written + [View()];
        checkpointBackup := None;
        written := written + [View()];
      } else {
        checkpoint := Some(record);
        written := written + [View()];
      }
      return Ok(());
    }

    method RecoverCheckpointFile() returns (r: Result<(), Error>)
      modifies this
      ensures var o := Recover(old(View()).checkpoint, record => ValidRecord(h, record));
              if o.Err? then r == Err(o.error) && Wrote(old(View()), old(written), [])
              else r == Ok(()) && Wrote(old(View()), old(written), WithCheckpoint(old(View()), o.value))
    {
      if checkpoint.None? && checkpointBackup.Some? {
        if !ValidRecord(h, checkpointBackup.value) {
          return Err(InvalidDocument);
        }
        checkpoint, checkpointBackup := checkpointBackup, None;
        written := written + [View()];
      } else if checkpoint.Some? && checkpointBackup.Some? {
        if !ValidRecord(h, checkpoint.value) {
          return Err(InvalidDocument);
        }
        checkpointBackup := None;
        written := written + [View()];
      }
      return Ok(());
    }

    /** Advances `record` to the phase the journal implies. */
    method RecoverRolloutCheckpoint(record: Record) returns (r: Result<Record, Error>, changed: bool)
      ensures r == Recovered(h, View(), record)
      ensures r.Ok? ==> (changed <==> r.value != record)
    {
      var recovered := record;
      changed := false;
      var current := LatestEvent();
      if record.phase == Prepared {
        if MatchesCandidate(record, current) {
          recovered := recovered.(phase := Activated);
          recovered := recovered.(updatedAtMs := Later(record.updatedAtMs, current.value.body.createdAtMs));
          recovered := recovered.(activatedRevision := Some(current.value.body.revision));
          recovered := recovered.(activatedGeneration := Some(current.value.sha256));
          if !ValidRecord(h, recovered) {
            return Err(InvalidDocument), false;
          }
          changed := true;
        } else if !MatchesPrevious(record, current) {
          return Err(DesiredStateChanged), false;
        }
      } else if record.phase == Activated {
        if MatchesRollback(record, current) {
          recovered := recovered.(phase := RolledBack);
          recovered := recovered.(updatedAtMs := Later(record.updatedAtMs, current.value.body.createdAtMs));
          recovered := recovered.(rollbackRevision := Some(current.value.body.revision));
          recovered := recovered.(rollbackGeneration := Some(current.value.sha256));
          if !ValidRecord(h, recovered) {
            return Err(InvalidDocument), false;
          }
          changed := true;
        } else if !MatchesActivation(record, current) {
          return Err(DesiredStateChanged), false;
        }
      }
      return Ok(recovered), changed;
    }

    method ReadCheckpoint() returns (r: Result<Option<Record>, Error>)
      modifies this
      ensures var o := ReadPhase(h, old(View()));
              Wrote(old(View()), old(written), o.states) && r == o.result
    {
      if checkpoint.None? {
        return Ok(None);
      }
      var record := checkpoint.value;
      if !ValidRecord(h, record) {
        return Err(InvalidDocument);
      }
      var recovered, changed := RecoverRolloutCheckpoint(record);
      if recovered.Err? {
        return Err(recovered.error);
      }
      if changed {
        var w := WriteCheckpointFile(recovered.value);
        if w.Err? {
          return Err(w.error);
        }
      }
      return Ok(Some(recovered.value));
    }

    method ReadRollout() returns (r: Result<Option<Record>, Error>)
      modifies this
      ensures var o := Read(h, old(View()));
              Wrote(old(View()), old(written), o.states) && r == o.result
      ensures Preserved(old(View()), old(written))
    {
      if Inv(h, View()) && Readable(View()) {
        ReadKeeps(h, View());
      }
      ghost var s := View();
      var recovered := RecoverCheckpointFile();
      if recovered.Err? {
        return Err(recovered.error);
      }
      ghost var before := WithCheckpoint(s, Recover(s.checkpoint, record => ValidRecord(h, record)).value);
      r := ReadCheckpoint();
      WritesCompose(s, old(written), before, ReadPhase(h, Last(s, before)).states);
    }

    method RequireRollout(id: Digest) returns (r: Result<Record, Error>)
      modifies this
      ensures var o := Require(h, old(View()), id);
              Wrote(old(View()), old(written), o.states) && r == o.result
    {
      var read := ReadRollout();
      match read
      case Err(e) => return Err(e);
      case Ok(None) => return Err(NoCheckpoint);
      case Ok(Some(record)) =>
        if record.id != id {
          return Err(WrongIdentity);
        }
        return Ok(record);
    }

    /** Appends an event and then writes the record that knows of it. */
    method AppendThenSave(event: Event, ghost origin: Origin, record: Record) returns (r: Result<Record, Error>)
      modifies this
      ensures var o := AppendAndSave(h, old(View()), event, origin, record);
              Wrote(old(View()), old(written), o.states) && r == o.result
    {
      ghost var s := View();
      var appended := AppendEvent(event, origin);
      if appended.Err? {
        return Err(appended.error);
      }
      ghost var a := Append(h, s, event, origin).states;
      var saved := WriteCheckpointFile(record);
      WritesCompose(s, old(written), a, WriteCheckpoint(h, Last(s, a), record).states);
      if saved.Err? {
        return Err(saved.error);
      }
      return Ok(record);
    }

    method ActivateRollout(id: Digest, now: nat, clock: nat) returns (r: Result<Record, Error>)
      modifies this
      ensures var o := Activate(h, old(View()), id, now, clock);
              Wrote(old(View()), old(written), o.states) && r == o.result
      ensures Preserved(old(View()), old(written))
    {
      if Inv(h, View()) && Readable(View()) {
        ActivateCommandKeeps(h, View(), id, now, clock);
      }
      ghost var s := View();
      r := RequireRollout(id);
      if r.Ok? {
        ghost var before := Require(h, s, id).states;
        ghost var t := View();
        var record := r.value;
        r := ActivateRequired(record, now, clock);
        WritesCompose(s, old(written), before, ActivateFrom(h, t, record, now, clock).states);
      }
    }

    /** The rest of `ActivateRollout`, with the checkpoint read as `required`. */
    method ActivateRequired(required: Record, now: nat, clock: nat) returns (r: Result<Record, Error>)
      modifies this
      ensures var o := ActivateFrom(h, old(View()), required, now, clock);
              Wrote(old(View()), old(written), o.states) && r == o.result
    {
      var record := required;
      if record.phase == Activated {
        return Ok(record);
      }
      if record.phase != Prepared {
        return Err(WrongPhase);
      }
      if !TimeAdvances(record, now) {
        return Err(InvalidTime);
      }
      var previous := LatestEvent();
      if !MatchesPrevious(record, previous) {
        return Err(DesiredStateChanged);
      }
      var event := NextEvent(h, previous, Apply, Some(record.candidate), clock);
      if event.Err? {
        return Err(event.error);
      }
      ghost var origin := Activation(KeyOf(record));
      record := record.(phase := Activated);
      record := record.(updatedAtMs := now);
      record := record.(activatedRevision := Some(event.value.body.revision));
      record := record.(activatedGeneration := Some(event.value.sha256));
      r := AppendThenSave(event.value, origin, record);
    }

    method CommitRollout(id: Digest, now: nat, ready: bool, report: Digest) returns (r: Result<Record, Error>)
      modifies this
      ensures var o := Commit(h, old(View()), id, now, ready, report);
              Wrote(old(View()), old(written), o.states) && r == o.result
      ensures Preserved(old(View()), old(written))
    {
      if Inv(h, View()) && Readable(View()) {
        CommitCommandKeeps(h, View(), id, now, ready, report);
      }
      ghost var s := View();
      r := RequireRollout(id);
      if r.Ok? {
        ghost var before := Require(h, s, id).states;
        ghost var t := View();
        var record := r.value;
        r := CommitRequired(record, now, ready, report);
        WritesCompose(s, old(written), before, CommitFrom(h, t, record, now, ready, report).states);
      }
    }

    /** The rest of `CommitRollout`, with the checkpoint read as `required`. */
    method CommitRequired(required: Record, now: nat, ready: bool, report: Digest) returns (r: Result<Record, Error>)
      modifies this
      ensures var o := CommitFrom(h, old(View()), required, now, ready, report);
              Wrote(old(View()), old(written), o.states) && r == o.result
    {
      var record := required;
      if record.phase == Committed {
        return Ok(record);
      }
      if record.phase != Activated {
        return Err(WrongPhase);
      }
      if !TimeAdvances(record, now) {
        return Err(InvalidTime);
      }
      if !MatchesActivation(record, LatestEvent()) {
        return Err(DesiredStateChanged);
      }
      if !ready {
        return Err(NotReady);
      }
      record := record.(phase := Committed);
      record := record.(updatedAtMs := now);
      record := record.(healthReport := Some(report));
      var saved := WriteCheckpointFile(record);
      if saved.Err? {
        return Err(saved.error);
      }
      return Ok(record);
    }

    method RollbackRollout(id: Digest, now: nat, clock: nat) returns (r: Result<Record, Error>)
      modifies this
      ensures var o := Rollback(h, old(View()), id, now, clock);
              Wrote(old(View()), old(written), o.states) && r == o.result
      ensures Preserved(old(View()), old(written))
    {
      if Inv(h, View()) && Readable(View()) {
        RollbackCommandKeeps(h, View(), id, now, clock);
      }
      ghost var s := View();
      r := RequireRollout(id);
      if r.Ok? {
        ghost var before := Require(h, s, id).states;
        ghost var t := View();
        var record := r.value;
        r := RollbackRequired(record, now, clock);
        WritesCompose(s, old(written), before, RollbackFrom(h, t, record, now, clock).states);
      }
    }

    /** The rest of `RollbackRollout`, with the checkpoint read as `required`. */
    method RollbackRequired(required: Record, now: nat, clock: nat) returns (r: Result<Record, Error>)
      modifies this
      ensures var o := RollbackFrom(h, old(View()), required, now, clock);
              Wrote(old(View()), old(written), o.states) && r == o.result
    {
      var record := required;
      if record.phase == Cancelled || record.phase == RolledBack {
        return Ok(record);
      }
      if !TimeAdvances(record, now) {
        return Err(InvalidTime);
      }
      var current := LatestEvent();
      if record.phase == Prepared {
        if !MatchesPrevious(record, current) {
          return Err(DesiredStateChanged);
        }
        record := record.(phase := Cancelled);
        record := record.(updatedAtMs := now);
        var saved := WriteCheckpointFile(record);
        if saved.Err? {
          return Err(saved.error);
        }
        return Ok(record);
      }
      if !MatchesActivation(record, current) {
        return Err(DesiredStateChanged);
      }
      var target := RollbackTarget(record);
      if target.Err? {
        return Err(target.error);
      }
      var event := NextEvent(h, current, target.value.0, target.value.1, clock);
      if event.Err? {
        return Err(event.error);
      }
      ghost var origin := RollbackOf(KeyOf(record));
      record := record.(phase := RolledBack);
      record := record.(updatedAtMs := now);
      record := record.(rollbackRevision := Some(event.value.body.revision));
      record := record.(rollbackGeneration := Some(event.value.sha256));
      r := AppendThenSave(event.value, origin, record);
    }

    method BeginRollout(plan: StackPlan, now: nat, slotFree: bool) returns (r: Result<Record, Error>)
      modifies this
      ensures var o := Begin(h, old(View()), plan, now, slotFree);
              Wrote(old(View()), old(written), o.states) && r == o.result
    {
      var previous := LatestEvent();
      if previous.None? && !slotFree {
        return Err(StackLimit);
      }
      if AlreadyDesiredPlan(previous, plan) {
        return Err(AlreadyDesired);
      }
      if now == 0 {
        return Err(InvalidTime);
      }
      var record := NewRecord(h, plan, previous, now);
      var saved := WriteCheckpointFile(record);
      if saved.Err? {
        return Err(saved.error);
      }
      return Ok(record);
    }

    method RecoverProgressFile() returns (r: Result<(), Error>)
      modifies this
      ensures var o := Recover(old(View()).progress, ValidProgress);
              if o.Err? then r == Err(o.error) && Wrote(old(View()), old(written), [])
              else r == Ok(()) && Wrote(old(View()), old(written), WithProgress(old(View()), o.value))
    {
      if progress.None? && progressBackup.Some? {
        if !ValidProgress(progressBackup.value) {
          return Err(InvalidDocument);
        }
        progress, progressBackup := progressBackup, None;
        written := written + [View()];
      } else if progress.Some? && progressBackup.Some? {
        if !ValidProgress(progress.value) {
          return Err(InvalidDocument);
        }
        progressBackup := None;
        written := written + [View()];
      }
      return Ok(());
    }

    method RemoveTerminalProgress(record: Record) returns (r: Result<(), Error>)
      modifies this
      ensures var o := DropProgress(old(View()), record);
              Wrote(old(View()), old(written), o.states) && r == o.result
    {
      var recovered := RecoverProgressFile();
      if recovered.Err? {
        return Err(recovered.error);
      }
      if progress.None? {
        return Ok(());
      }
      if !ValidProgress(progress.value) {
        return Err(InvalidDocument);
      }
      if !ProgressMatches(progress.value, record) {
        return Err(ProgressMismatch);
      }
      progress := None;
      written := written + [View()];
      return Ok(());
    }

    /** The rest of `PrepareRollout`, with the checkpoint read as `current`. */
    method PrepareAfterRead(
      current: Option<Record>, plan: StackPlan, now: nat, slotFree: bool, archived: bool)
      returns (r: Result<Record, Error>)
      modifies this
      ensures var o := PrepareFrom(h, old(View()), current, plan, now, slotFree, archived);
              Wrote(old(View()), old(written), o.states) && r == o.result
    {
      ghost var s := View();
      if current.None? {
        r := BeginRollout(plan, now, slotFree);
        return;
      }
      var record := current.value;
      if ActivePhase(record.phase) {
        if record.phase == Prepared && record.candidate.sha256 == plan.sha256 {
          return Ok(record);
        }
        return Err(AlreadyActive);
      }
      if && record.phase == Committed
         && record.candidate.sha256 == plan.sha256
         && MatchesActivation(record, LatestEvent())
      {
        return Ok(record);
      }
      var dropped := RemoveTerminalProgress(record);
      if dropped.Err? {
        return Err(dropped.error);
      }
      if !archived {
        return Err(ArchiveRefused);
      }
      ghost var before := DropProgress(s, record).states;
      ghost var t := View();
      r := BeginRollout(plan, now, slotFree);
      WritesCompose(s, old(written), before, Begin(h, t, plan, now, slotFree).states);
    }

    method PrepareRollout(plan: StackPlan, allowInsecure: bool, now: nat, slotFree: bool, archived: bool)
      returns (r: Result<Record, Error>)
      modifies this
      ensures var o := Prepare(h, old(View()), plan, allowInsecure, now, slotFree, archived);
              Wrote(old(View()), old(written), o.states) && r == o.result
      ensures Preserved(old(View()), old(written))
    {
      if Inv(h, View()) && Readable(View()) {
        PrepareCommandKeeps(h, View(), plan, allowInsecure, now, slotFree, archived);
      }
      ghost var s := View();
      if !ValidPlan(h, plan) {
        return Err(InvalidPlan);
      }
      if plan.content.sandboxDisabled && !allowInsecure {
        return Err(InsecurePlan);
      }
      var current := ReadRollout();
      if current.Err? {
        return Err(current.error);
      }
      ghost var before := Read(h, s).states;
      ghost var t := View();
      r := PrepareAfterRead(current.value, plan, now, slotFree, archived);
      WritesCompose(s, old(written), before, PrepareFrom(h, t, current.value, plan, now, slotFree, archived).states);
    }
  }
}
