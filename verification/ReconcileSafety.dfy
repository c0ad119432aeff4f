/** Every reconcile pass keeps the invariant, and a pass over a finished rollout settles its progress. */
module ReconcileSafety {
  import opened Wrappers
  import opened Engine
  import opened Rollout
  import opened RolloutSafety
  import opened Reconcile

  /** Reading a checkpoint that is at rest and up to date writes nothing. */
  lemma ReadCurrent(h: Hashes, s: Store, r: Record)
    requires Current(h, s, r) && Readable(s)
    ensures Read(h, s) == Return([], Some(r))
    ensures Require(h, s, r.id) == Return([], r)
  {
    RecoveredIsExact(h, s, r);
    assert WithCheckpoint(s, []) == [];
    assert ReadPhase(h, s) == Return([], Some(r));
  }

  lemma WriteProgressKeeps(h: Hashes, s: Store, q: Progress)
    requires Inv(h, s) && s.progress.backup.None?
    requires s.checkpoint.Logical().Some? && ProgressOk(q, s.checkpoint.Logical().value)
    ensures var w := WriteProgress(s, q);
            && w.result.Ok?
            && Good(h, s, w.states)
            && Last(s, w.states) == s.(progress := Slot(Some(q), None))
            && Inv(h, Last(s, w.states))
  {
    var w := WriteProgress(s, q);
    var slots := Replace(s.progress, q).value;
    forall i | 0 <= i < |w.states| ensures GoodAt(h, s, w.states, i) {
      ReplaceIsAtomic(s.progress, q, i);
      ProgressFrame(h, s, slots[i]);
    }
    assert GoodAt(h, s, w.states, |w.states| - 1);
  }

  lemma SaveProgressKeeps(h: Hashes, s: Store, r: Record, q: Progress)
    requires Current(h, s, r) && Readable(s) && ProgressOk(q, r)
    ensures var o := SaveProgress(h, s, q);
            && o.result.Ok?
            && Good(h, s, o.states)
            && Last(s, o.states) == s.(progress := Slot(Some(q), None))
            && Inv(h, Last(s, o.states))
  {
    ReadCurrent(h, s, r);
    RecoverProgressStep(h, s);
    var before := WithProgress(s, Recover(s.progress, ValidProgress).value);
    var t := Last(s, before);
    WriteProgressKeeps(h, t, q);
    Sequential(h, s, before, WriteProgress(t, q).states);
    assert [] + StoreRecoveredProgress(s, q).states == StoreRecoveredProgress(s, q).states;
  }

  function Moved(q: Progress, next: ExecutionPhase, now: nat): Progress {
    MarkProgress(q.(phase := next), now)
  }

  lemma ConcludeKeeps(h: Hashes, s: Store, r: Record, q: Progress, next: ExecutionPhase, now: nat)
    requires Current(h, s, r) && Readable(s) && ProgressOk(q, r)
    requires 0 < now && q.updatedAtMs <= now && PhaseChange(q.phase, next)
    requires next == Completed ==> WasCommitted(r)
    requires next == Reverted ==> r.phase == RolledBack
    ensures var o := Conclude(h, s, q, next, now);
            && o.result.Ok?
            && Good(h, s, o.states)
            && Last(s, o.states) == s.(progress := Slot(Some(Moved(q, next, now)), None))
            && Inv(h, Last(s, o.states))
  {
    SaveProgressKeeps(h, s, r, Moved(q, next, now));
  }

  lemma SettleCommittedKeeps(h: Hashes, s: Store, r: Record, q: Progress, now: nat)
    requires Current(h, s, r) && r.phase == Committed && ProgressOk(q, r)
    requires 0 < now && q.updatedAtMs <= now
    ensures var o := SettleCommitted(h, s, q, now);
            && o.result.Ok?
            && Good(h, s, o.states)
            && (q.phase == Rolling || q.phase == Paused || q.phase == Completing ==>
                  Last(s, o.states) == s.(progress := Slot(Some(Moved(q, Completed, now)), None)))
            && (q.phase == RollingBack || q.phase == Completed || q.phase == Reverted ==> o.states == [])
  {
    if q.phase == Rolling || q.phase == Paused {
      ConcludeKeeps(h, s, r, Moved(q, Completing, now), Completed, now);
    } else if q.phase == Completing {
      ConcludeKeeps(h, s, r, q, Completed, now);
    }
  }

  lemma SettleRolledBackKeeps(h: Hashes, s: Store, r: Record, q: Progress, now: nat)
    requires Current(h, s, r) && r.phase == RolledBack && ProgressOk(q, r)
    requires 0 < now && q.updatedAtMs <= now
    ensures var o := SettleRolledBack(h, s, q, now);
            && o.result.Ok?
            && Good(h, s, o.states)
            && (q.phase != Completed && q.phase != Reverted ==>
                  Last(s, o.states) == s.(progress := Slot(Some(Moved(q, Reverted, now)), None)))
            && (q.phase == Completed || q.phase == Reverted ==> o.states == [])
  {
    if q.phase == Rolling || q.phase == Paused || q.phase == Completing {
      ConcludeKeeps(h, s, r, Moved(q, RollingBack, now), Reverted, now);
    } else if q.phase == RollingBack {
      ConcludeKeeps(h, s, r, q, Reverted, now);
    }
  }

  lemma FinishCompletingKeeps(h: Hashes, s: Store, r: Record, q: Progress, now: nat, i: Inputs)
    requires Current(h, s, r) && Readable(s) && r.phase == Activated && ProgressOk(q, r) && q.phase == Completing
    requires 0 < now && q.updatedAtMs <= now
    ensures Good(h, s, FinishCompleting(h, s, r, q, now, i).states)
  {
    if i.healthy {
      ReadCurrent(h, s, r);
      CommitKeeps(h, s, r, now, i.stable, i.report);
      var c := CommitFrom(h, s, r, now, i.stable, i.report);
      assert [] + c.states == c.states;
      if c.result.Ok? {
        var t := Last(s, c.states);
        ConcludeKeeps(h, t, c.result.value, q, Completed, now);
        Sequential(h, s, c.states, Conclude(h, t, q, Completed, now).states);
      }
    } else if Expired(q, now) {
      ConcludeKeeps(h, s, r, q, RollingBack, now);
    }
  }

  lemma FinishRollingBackKeeps(h: Hashes, s: Store, r: Record, q: Progress, now: nat, i: Inputs)
    requires Current(h, s, r) && Readable(s) && r.phase == Activated && ProgressOk(q, r) && q.phase == RollingBack
    requires 0 < now && q.updatedAtMs <= now
    ensures Good(h, s, FinishRollingBack(h, s, r, q, now, i).states)
  {
    ReadCurrent(h, s, r);
    RollbackKeeps(h, s, r, now, i.clock);
    var b := RollbackFrom(h, s, r, now, i.clock);
    assert [] + b.states == b.states;
    if b.result.Ok? {
      var t := Last(s, b.states);
      ConcludeKeeps(h, t, b.result.value, q, Reverted, now);
      Sequential(h, s, b.states, Conclude(h, t, q, Reverted, now).states);
    }
  }

  lemma AdviseKeeps(h: Hashes, s: Store, r: Record, q: Progress, now: nat, advice: Advice)
    requires Current(h, s, r) && Readable(s) && ProgressOk(q, r) && q.phase == Rolling
    requires 0 < now && q.updatedAtMs <= now
    ensures Good(h, s, Advise(h, s, q, now, advice).states)
  {
    match advice
    case Hold =>
    case Act => SaveProgressKeeps(h, s, r, MarkProgress(q, now));
    case Finish => ConcludeKeeps(h, s, r, q, Completing, now);
    case Abort => ConcludeKeeps(h, s, r, q, RollingBack, now);
  }

  lemma AdvanceKeeps(h: Hashes, s: Store, r: Record, q: Progress, now: nat, i: Inputs)
    requires Current(h, s, r) && Readable(s) && ProgressOk(q, r) && q.phase == Rolling
    requires 0 < now && q.updatedAtMs <= now
    ensures Good(h, s, Advance(h, s, q, now, i).states)
  {
    if i.drainsAcknowledged {
      MarkedKeeps(h, s, r, q, now);
      var saved := SaveProgress(h, s, MarkProgress(q, now));
      var t := Last(s, saved.states);
      AdviseKeeps(h, t, r, MarkProgress(q, now), now, i.advice);
      Sequential(h, s, saved.states, Advise(h, t, MarkProgress(q, now), now, i.advice).states);
    } else {
      AdviseKeeps(h, s, r, q, now, i.advice);
    }
  }

  /** Saving the progress with a new time leaves everything as it was. */
  lemma MarkedKeeps(h: Hashes, s: Store, r: Record, q: Progress, now: nat)
    requires Current(h, s, r) && Readable(s) && ProgressOk(q, r)
    requires 0 < now && q.updatedAtMs <= now
    ensures var o := SaveProgress(h, s, MarkProgress(q, now));
            && o.result.Ok? && Good(h, s, o.states)
            && Current(h, Last(s, o.states), r) && Readable(Last(s, o.states)) && ProgressOk(MarkProgress(q, now), r)
  {
    SaveProgressKeeps(h, s, r, MarkProgress(q, now));
  }

  lemma SettleKeeps(h: Hashes, s: Store, r: Record, q: Progress, now: nat, i: Inputs)
    requires Current(h, s, r) && Readable(s) && ProgressOk(q, r)
    requires 0 < now && q.updatedAtMs <= now
    ensures Good(h, s, Settle(h, s, r, q, now, i).states)
  {
    if r.phase == Committed {
      SettleCommittedKeeps(h, s, r, q, now);
    } else if r.phase == RolledBack {
      SettleRolledBackKeeps(h, s, r, q, now);
    } else if q.phase == Completing {
      FinishCompletingKeeps(h, s, r, q, now, i);
    } else if q.phase == RollingBack {
      FinishRollingBackKeeps(h, s, r, q, now, i);
    } else if q.phase == Rolling {
      AdvanceKeeps(h, s, r, q, now, i);
    }
  }

  lemma BeginProgressKeeps(h: Hashes, s: Store, r: Record, now: nat, deadlineMs: nat)
    requires Current(h, s, r) && r.phase == Activated && s.progress == Slot(None, None)
    requires 0 < now && r.updatedAtMs <= now
    ensures var o := BeginProgress(h, s, r, now, deadlineMs);
            && o.result.Ok?
            && Good(h, s, o.states)
            && Last(s, o.states) == s.(progress := Slot(Some(o.result.value), None))
            && Inv(h, Last(s, o.states))
            && ProgressOk(o.result.value, r) && o.result.value.updatedAtMs == now
  {
    WriteProgressKeeps(h, s, NewProgress(r, now, deadlineMs).value);
  }

  lemma ContinueKeeps(h: Hashes, s: Store, r: Record, q: Option<Progress>, i: Inputs)
    requires Current(h, s, r) && Readable(s) && s.progress == Slot(q, None)
    ensures Good(h, s, Continue(h, s, r, q, i).states)
  {
    var now := Later(i.now, r.updatedAtMs);
    if q.Some? {
      SettleKeeps(h, s, r, q.value, Later(now, q.value.updatedAtMs), i);
    } else if r.phase == Activated {
      BeginProgressKeeps(h, s, r, now, i.deadlineMs);
      var begun := BeginProgress(h, s, r, now, i.deadlineMs);
      var t := Last(s, begun.states);
      var q' := begun.result.value;
      SettleKeeps(h, t, r, q', Later(now, q'.updatedAtMs), i);
      Sequential(h, s, begun.states, Settle(h, t, r, q', Later(now, q'.updatedAtMs), i).states);
    }
  }

  lemma ReadProgressKeeps(h: Hashes, s: Store, r: Record)
    requires Current(h, s, r) && Readable(s)
    ensures var o := ReadProgress(h, s);
            && o.result == Ok(s.progress.Logical())
            && Good(h, s, o.states)
            && Last(s, o.states) == s.(progress := Slot(s.progress.Logical(), None))
            && Inv(h, Last(s, o.states))
  {
    RecoverProgressStep(h, s);
    var before := WithProgress(s, Recover(s.progress, ValidProgress).value);
    var t := Last(s, before);
    ReadCurrent(h, t, r);
    assert CheckProgress(h, t) == Return([], s.progress.Logical());
    assert before + [] == before;
  }

  /** Whatever the pass observes, each of its writes keeps the invariant. */
  lemma PassKeeps(h: Hashes, s: Store, i: Inputs)
    requires Inv(h, s) && Readable(s)
    ensures Good(h, s, Pass(h, s, i).states)
  {
    ReadKeeps(h, s);
    var read := Read(h, s);
    if read.result.value.Some? {
      var r := read.result.value.value;
      var t := Last(s, read.states);
      StillReadable(h, s, r);
      ReadProgressKeeps(h, t, r);
      var progress := ReadProgress(h, t);
      var u := Last(t, progress.states);
      ContinueKeeps(h, u, r, t.progress.Logical(), i);
      Sequential(h, s, read.states, progress.states);
      Sequential(h, s, read.states + progress.states, Continue(h, u, r, t.progress.Logical(), i).states);
    }
  }

  /** A read leaves the checkpoint readable. */
  lemma StillReadable(h: Hashes, s: Store, r: Record)
    requires Inv(h, s) && Readable(s) && Read(h, s).result == Ok(Some(r))
    ensures Readable(Last(s, Read(h, s).states))
    ensures Current(h, Last(s, Read(h, s).states), r)
  {
    ReadKeeps(h, s);
    var r0 := s.checkpoint.Logical().value;
    RecoveredIsExact(h, s, r0);
  }
}
