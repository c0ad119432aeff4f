/**
 The reconcile pass as the daemon runs it: a progress document changed in place and an engine store
 written one file at a time. Every method is tied to its specification at each write.
 */
module ReconcileDaemon {
  import opened Wrappers
  import opened Engine
  import opened Rollout
  import opened RolloutSafety
  import opened Reconcile
  import opened ReconcileSafety
  import opened EngineStores

  method WriteProgressFile(engine: EngineStore, q: Progress) returns (r: Result<(), Error>)
    modifies engine
    ensures var o := WriteProgress(old(engine.View()), q);
            engine.Wrote(old(engine.View()), old(engine.written), o.states) && r == o.result
  {
    if !ValidProgress(q) {
      return Err(InvalidDocument);
    }
    if engine.progress.Some? {
      if engine.progressBackup.Some? {
        return Err(ReplacementInProgress);
      }
      engine.progress, engine.progressBackup := None, engine.progress;
      engine.written := engine.written + [engine.View()];
      engine.progress := Some(q);
      engine.written := engine.written + [engine.View()];
      engine.progressBackup := None;
      engine.written := engine.written + [engine.View()];
    } else {
      engine.progress := Some(q);
      engine.written := engine.written + [engine.View()];
    }
    return Ok(());
  }

  method CheckProgressFile(engine: EngineStore) returns (r: Result<Option<Progress>, Error>)
    modifies engine
    ensures var o := CheckProgress(engine.h, old(engine.View()));
            engine.Wrote(old(engine.View()), old(engine.written), o.states) && r == o.result
  {
    if engine.progress.None? {
      return Ok(None);
    }
    var q := engine.progress.value;
    if !ValidProgress(q) {
      return Err(InvalidDocument);
    }
    var read := engine.ReadRollout();
    match read
    case Err(e) => return Err(e);
    case Ok(None) => return Err(NoCheckpoint);
    case Ok(Some(record)) =>
      if !ProgressMatches(q, record) {
        return Err(ProgressMismatch);
      }
      return Ok(Some(q));
  }

  method ReadRolloutProgress(engine: EngineStore) returns (r: Result<Option<Progress>, Error>)
    modifies engine
    ensures var o := ReadProgress(engine.h, old(engine.View()));
            engine.Wrote(old(engine.View()), old(engine.written), o.states) && r == o.result
  {
    ghost var s := engine.View();
    var recovered := engine.RecoverProgressFile();
    if recovered.Err? {
      return Err(recovered.error);
    }
    ghost var before := WithProgress(s, Recover(s.progress, ValidProgress).value);
    r := CheckProgressFile(engine);
    WritesCompose(s, old(engine.written), before, CheckProgress(engine.h, Last(s, before)).states);
  }

  method RecoverThenWriteProgress(engine: EngineStore, q: Progress) returns (r: Result<(), Error>)
    modifies engine
    ensures var o := StoreRecoveredProgress(old(engine.View()), q);
            engine.Wrote(old(engine.View()), old(engine.written), o.states) && r == o.result
  {
    ghost var s := engine.View();
    r := engine.RecoverProgressFile();
    if r.Ok? {
      ghost var before := WithProgress(s, Recover(s.progress, ValidProgress).value);
      r := WriteProgressFile(engine, q);
      WritesCompose(s, old(engine.written), before, WriteProgress(Last(s, before), q).states);
    }
  }

  method SaveRolloutProgress(engine: EngineStore, q: Progress) returns (r: Result<(), Error>)
    modifies engine
    ensures var o := SaveProgress(engine.h, old(engine.View()), q);
            engine.Wrote(old(engine.View()), old(engine.written), o.states) && r == o.result
  {
    if !ValidProgress(q) {
      return Err(InvalidDocument);
    }
    ghost var s := engine.View();
    var read := engine.ReadRollout();
    match read
    case Err(e) => return Err(e);
    case Ok(None) => return Err(NoCheckpoint);
    case Ok(Some(record)) =>
      if !ProgressMatches(q, record) {
        return Err(ProgressMismatch);
      }
      ghost var before := Read(engine.h, s).states;
      r := RecoverThenWriteProgress(engine, q);
      WritesCompose(s, old(engine.written), before, StoreRecoveredProgress(Last(s, before), q).states);
  }

  /** Moves a progress document to `next` in place. */
  class ProgressDocument {
    var value: Progress

    constructor (q: Progress)
      ensures value == q
    {
      value := q;
    }

    method ChangePhase(next: ExecutionPhase, now: nat) returns (r: Result<(), Error>)
      modifies this
      ensures match SetPhase(old(value), next, now)
              case Ok(q) => r == Ok(()) && value == q
              case Err(e) => r == Err(e) && value == old(value)
    {
      if now == 0 || now < value.updatedAtMs {
        return Err(InvalidTime);
      }
      if !PhaseChange(value.phase, next) {
        return Err(InvalidTransition);
      }
      value := value.(phase := next);
      value := value.(updatedAtMs := now);
      value := value.(lastProgressAtMs := now);
      return Ok(());
    }
  }

  /** Moves the document to `next` and saves it. */
  method ConcludePhase(engine: EngineStore, document: ProgressDocument, next: ExecutionPhase, now: nat)
    returns (r: Result<(), Error>)
    modifies engine, document
    ensures var o := Conclude(engine.h, old(engine.View()), old(document.value), next, now);
            engine.Wrote(old(engine.View()), old(engine.written), o.states) && r == o.result
  {
    r := document.ChangePhase(next, now);
    if r.Ok? {
      r := SaveRolloutProgress(engine, document.value);
    }
  }

  method SettleTerminal(engine: EngineStore, record: Record, document: ProgressDocument, now: nat)
    returns (r: Result<(), Error>)
    requires record.phase == Committed || record.phase == RolledBack || record.phase == Cancelled
    modifies engine, document
    ensures var o := if record.phase == Committed
                     then SettleCommitted(engine.h, old(engine.View()), old(document.value), now)
                     else SettleRolledBack(engine.h, old(engine.View()), old(document.value), now);
            engine.Wrote(old(engine.View()), old(engine.written), o.states) && r == o.result
  {
    if record.phase == Committed {
      if document.value.phase == Rolling || document.value.phase == Paused {
        r := document.ChangePhase(Completing, now);
        if r.Err? {
          return;
        }
      }
      if document.value.phase == Completing {
        r := ConcludePhase(engine, document, Completed, now);
        return;
      }
      return Ok(());
    }
    var phase := document.value.phase;
    if phase == Rolling || phase == Paused || phase == Completing {
      r := document.ChangePhase(RollingBack, now);
      if r.Err? {
        return;
      }
    }
    if document.value.phase == RollingBack {
      r := ConcludePhase(engine, document, Reverted, now);
      return;
    }
    return Ok(());
  }

  method CompleteRollout(engine: EngineStore, record: Record, document: ProgressDocument, now: nat, i: Inputs)
    returns (r: Result<(), Error>)
    modifies engine, document
    ensures var o := FinishCompleting(engine.h, old(engine.View()), record, old(document.value), now, i);
            engine.Wrote(old(engine.View()), old(engine.written), o.states) && r == o.result
  {
    ghost var s := engine.View();
    if i.healthy {
      var committed := engine.CommitRollout(record.id, now, i.stable, i.report);
      if committed.Err? {
        return Err(committed.error);
      }
      ghost var before := Commit(engine.h, s, record.id, now, i.stable, i.report).states;
      r := ConcludePhase(engine, document, Completed, now);
      WritesCompose(s, old(engine.written), before,
                    Conclude(engine.h, Last(s, before), old(document.value), Completed, now).states);
    } else if Expired(document.value, now) {
      r := ConcludePhase(engine, document, RollingBack, now);
    } else {
      return Ok(());
    }
  }

  method RevertRollout(engine: EngineStore, record: Record, document: ProgressDocument, now: nat, i: Inputs)
    returns (r: Result<(), Error>)
    modifies engine, document
    ensures var o := FinishRollingBack(engine.h, old(engine.View()), record, old(document.value), now, i);
            engine.Wrote(old(engine.View()), old(engine.written), o.states) && r == o.result
  {
    ghost var s := engine.View();
    if !i.packagesIntact {
      return Err(PackagesChanged);
    }
    var reverted := engine.RollbackRollout(record.id, now, i.clock);
    if reverted.Err? {
      return Err(reverted.error);
    }
    ghost var before := Rollback(engine.h, s, record.id, now, i.clock).states;
    r := ConcludePhase(engine, document, Reverted, now);
    WritesCompose(s, old(engine.written), before,
                  Conclude(engine.h, Last(s, before), old(document.value), Reverted, now).states);
  }

  method FollowAdvice(engine: EngineStore, document: ProgressDocument, now: nat, advice: Advice)
    returns (r: Result<(), Error>)
    modifies engine, document
    ensures var o := Advise(engine.h, old(engine.View()), old(document.value), now, advice);
            engine.Wrote(old(engine.View()), old(engine.written), o.states) && r == o.result
  {
    match advice
    case Hold => return Ok(());
    case Act =>
      document.value := MarkProgress(document.value, now);
      r := SaveRolloutProgress(engine, document.value);
    case Finish => r := ConcludePhase(engine, document, Completing, now);
    case Abort => r := ConcludePhase(engine, document, RollingBack, now);
  }

  method AdvanceActiveRollout(engine: EngineStore, document: ProgressDocument, now: nat, i: Inputs)
    returns (r: Result<(), Error>)
    modifies engine, document
    ensures var o := Advance(engine.h, old(engine.View()), old(document.value), now, i);
            engine.Wrote(old(engine.View()), old(engine.written), o.states) && r == o.result
  {
    ghost var s := engine.View();
    if now == 0 || now < document.value.updatedAtMs {
      return Err(InvalidTime);
    }
    ghost var before: seq<Store> := [];
    if i.drainsAcknowledged {
      document.value := MarkProgress(document.value, now);
      r := SaveRolloutProgress(engine, document.value);
      if r.Err? {
        return;
      }
      before := SaveProgress(engine.h, s, document.value).states;
    }
    ghost var q := document.value;
    r := FollowAdvice(engine, document, now, i.advice);
    WritesCompose(s, old(engine.written), before, Advise(engine.h, Last(s, before), q, now, i.advice).states);
  }

  method SettleRollout(engine: EngineStore, record: Record, document: ProgressDocument, now: nat, i: Inputs)
    returns (r: Result<(), Error>)
    modifies engine, document
    ensures var o := Settle(engine.h, old(engine.View()), record, old(document.value), now, i);
            engine.Wrote(old(engine.View()), old(engine.written), o.states) && r == o.result
  {
    if record.phase == Committed || record.phase == RolledBack || record.phase == Cancelled {
      r := SettleTerminal(engine, record, document, now);
      return;
    }
    if record.phase != Activated {
      return Ok(());
    }
    if document.value.phase == Completing {
      r := CompleteRollout(engine, record, document, now, i);
    } else if document.value.phase == RollingBack {
      r := RevertRollout(engine, record, document, now, i);
    } else if document.value.phase == Rolling {
      r := AdvanceActiveRollout(engine, document, now, i);
    } else {
      return Ok(());
    }
  }

  method ContinuePass(engine: EngineStore, record: Record, progress: Option<Progress>, i: Inputs)
    returns (r: Result<(), Error>)
    modifies engine
    ensures var o := Continue(engine.h, old(engine.View()), record, progress, i);
            engine.Wrote(old(engine.View()), old(engine.written), o.states) && r == o.result
  {
    ghost var s := engine.View();
    ghost var before: seq<Store> := [];
    var q;
    if progress.Some? {
      q := progress.value;
    } else if record.phase == Activated {
      var begun := NewProgress(record, Later(i.now, record.updatedAtMs), i.deadlineMs);
      if begun.Err? {
        return Err(begun.error);
      }
      q := begun.value;
      var saved := WriteProgressFile(engine, q);
      if saved.Err? {
        return Err(saved.error);
      }
      before := WriteProgress(s, q).states;
    } else {
      return Ok(());
    }
    var document := new ProgressDocument(q);
    var now := Later(Later(i.now, record.updatedAtMs), q.updatedAtMs);
    r := SettleRollout(engine, record, document, now, i);
    WritesCompose(s, old(engine.written), before, Settle(engine.h, Last(s, before), record, q, now, i).states);
  }

  method ReconcileRollouts(engine: EngineStore, i: Inputs) returns (r: Result<(), Error>)
    modifies engine
    ensures var o := Pass(engine.h, old(engine.View()), i);
            engine.Wrote(old(engine.View()), old(engine.written), o.states) && r == o.result
    ensures engine.Preserved(old(engine.View()), old(engine.written))
  {
    if Inv(engine.h, engine.View()) && Readable(engine.View()) {
      PassKeeps(engine.h, engine.View(), i);
    }
    ghost var s := engine.View();
    var read := engine.ReadRollout();
    if read.Err? {
      return Err(read.error);
    }
    if read.value.None? {
      return Ok(());
    }
    ghost var first := Read(engine.h, s).states;
    ghost var t := engine.View();
    var progress := ReadRolloutProgress(engine);
    ghost var second := ReadProgress(engine.h, t).states;
    WritesCompose(s, old(engine.written), first, second);
    if progress.Err? {
      return Err(progress.error);
    }
    ghost var u := engine.View();
    r := ContinuePass(engine, read.value.value, progress.value, i);
    WritesCompose(s, old(engine.written), first + second,
                  Continue(engine.h, u, read.value.value, progress.value, i).states);
  }
}
