/**
 What a reconcile pass that is not interrupted does to an activated rollout: for each phase of its progress, which
 record, journal and progress it leaves behind.
 */
module ReconcileResults {
  import opened Wrappers
  import opened Engine
  import opened Rollout
  import opened RolloutSafety
  import opened Reconcile
  import opened ReconcileSafety
  import opened EngineResults

  /** The activated rollout `r` and its progress `q` are at rest in the store. */
  ghost predicate Underway(h: Hashes, s: Store, r: Record, q: Progress) {
    Current(h, s, r) && Fresh(s.journal) && r.phase == Activated && s.progress == Slot(Some(q), None)
  }

  /** The time of a pass: the latest of the clock, the record and the progress. */
  function TimeOf(i: Inputs, r: Record, q: Progress): (now: nat)
    ensures now >= i.now && now >= r.updatedAtMs && now >= q.updatedAtMs
    ensures now == i.now || now == r.updatedAtMs || now == q.updatedAtMs
  {
    Later(Later(i.now, r.updatedAtMs), q.updatedAtMs)
  }

  /** The progress in phase `phase`, marked with the time `now`. */
  predicate Marked(q: Progress, phase: ExecutionPhase, now: nat, q': Progress) {
    q' == q.(phase := phase, updatedAtMs := now, lastProgressAtMs := now)
  }

  lemma UnderwayIsOk(h: Hashes, s: Store, r: Record, q: Progress, i: Inputs)
    requires Underway(h, s, r, q)
    ensures ProgressOk(q, r) && Readable(s) && TimeOf(i, r, q) > 0
  {
  }

  lemma ReadsProgressAtRest(h: Hashes, s: Store, r: Record, q: Progress)
    requires Underway(h, s, r, q)
    ensures ReadProgress(h, s) == Return([], Some(q))
  {
    ReadCurrent(h, s, r);
    assert CheckProgress(h, s) == Return([], Some(q));
  }

  /** At rest a pass reads, writes nothing for it, and settles. */
  lemma PassSettlesAtRest(h: Hashes, s: Store, r: Record, q: Progress, i: Inputs)
    requires Underway(h, s, r, q)
    ensures Pass(h, s, i) == Settle(h, s, r, q, TimeOf(i, r, q), i)
  {
    ReadCurrent(h, s, r);
    ReadsProgressAtRest(h, s, r, q);
    var o := Settle(h, s, r, q, TimeOf(i, r, q), i);
    assert [] + [] + o.states == o.states;
  }

  // Completing

  /** A healthy and stable rollout is committed, and its progress completed. */
  lemma PassCompletes(h: Hashes, s: Store, r: Record, q: Progress, i: Inputs)
    requires Underway(h, s, r, q) && q.phase == Completing && i.healthy && i.stable
    ensures var o := Pass(h, s, i);
            var t := Last(s, o.states);
            var now := TimeOf(i, r, q);
            && o.result.Ok? && t.journal == s.journal
            && t.checkpoint.backup == None
            && t.checkpoint.current
               == Some(r.(phase := Committed, updatedAtMs := now, healthReport := Some(i.report)))
            && t.progress.backup == None && t.progress.current.Some?
            && Marked(q, Completed, now, t.progress.current.value)
  {
    var now := TimeOf(i, r, q);
    PassSettlesAtRest(h, s, r, q, i);
    UnderwayIsOk(h, s, r, q, i);
    ReadCurrent(h, s, r);
    CommitKeeps(h, s, r, now, true, i.report);
    var c := CommitFrom(h, s, r, now, true, i.report);
    assert Commit(h, s, r.id, now, true, i.report) == c by {
      assert [] + c.states == c.states;
    }
    var t := Last(s, c.states);
    ConcludeKeeps(h, t, c.result.value, q, Completed, now);
    Sequential(h, s, c.states, Conclude(h, t, q, Completed, now).states);
  }

  /** A healthy rollout that is not stable is an error, and nothing is written. */
  lemma PassRefusesUnstable(h: Hashes, s: Store, r: Record, q: Progress, i: Inputs)
    requires Underway(h, s, r, q) && q.phase == Completing && i.healthy && !i.stable
    ensures Pass(h, s, i).result.Err? && Pass(h, s, i).states == []
  {
    PassSettlesAtRest(h, s, r, q, i);
    ReadCurrent(h, s, r);
  }

  /** An unhealthy one is turned back if and only if it made no progress for its deadline; else nothing is written. */
  lemma PassTurnsBackExactly(h: Hashes, s: Store, r: Record, q: Progress, i: Inputs)
    requires Underway(h, s, r, q) && q.phase == Completing && !i.healthy
    ensures var o := Pass(h, s, i);
            var t := Last(s, o.states);
            var now := TimeOf(i, r, q);
            && o.result.Ok?
            && (if now - q.lastProgressAtMs >= q.deadlineMs then
                  && t.journal == s.journal && t.checkpoint == s.checkpoint
                  && t.progress.backup == None && t.progress.current.Some?
                  && Marked(q, RollingBack, now, t.progress.current.value)
                else o.states == [])
  {
    PassSettlesAtRest(h, s, r, q, i);
    UnderwayIsOk(h, s, r, q, i);
    ConcludeKeeps(h, s, r, q, RollingBack, TimeOf(i, r, q));
  }

  // Rolling back

  /** With intact packages and room in the journal, one event undoes the rollout and the progress is reverted. */
  lemma PassRollsBack(h: Hashes, s: Store, r: Record, q: Progress, i: Inputs)
    requires Underway(h, s, r, q) && q.phase == RollingBack && i.packagesIntact && HasRoom(s.journal, i.clock)
    ensures var o := Pass(h, s, i);
            var t := Last(s, o.states);
            var now := TimeOf(i, r, q);
            && o.result.Ok? && t.checkpoint.current.Some?
            && Undone(h, s, r, now, i.clock, t.(progress := s.progress), t.checkpoint.current.value)
            && t.progress.backup == None && t.progress.current.Some?
            && Marked(q, Reverted, now, t.progress.current.value)
  {
    var now := TimeOf(i, r, q);
    PassSettlesAtRest(h, s, r, q, i);
    UnderwayIsOk(h, s, r, q, i);
    ReadCurrent(h, s, r);
    RollbackActivatedKeeps(h, s, r, now, i.clock);
    RollsBackFrom(h, s, r, now, i.clock);
    var b := RollbackFrom(h, s, r, now, i.clock);
    assert Rollback(h, s, r.id, now, i.clock) == b by {
      assert [] + b.states == b.states;
    }
    var t := Last(s, b.states);
    ConcludeKeeps(h, t, b.result.value, q, Reverted, now);
    Sequential(h, s, b.states, Conclude(h, t, q, Reverted, now).states);
  }

  /** Changed packages or a full journal are an error, and nothing is written. */
  lemma PassRefusesRollback(h: Hashes, s: Store, r: Record, q: Progress, i: Inputs)
    requires Underway(h, s, r, q) && q.phase == RollingBack && !(i.packagesIntact && HasRoom(s.journal, i.clock))
    ensures Pass(h, s, i).result.Err? && Pass(h, s, i).states == []
  {
    PassSettlesAtRest(h, s, r, q, i);
    ReadCurrent(h, s, r);
    RollbackKeeps(h, s, r, TimeOf(i, r, q), i.clock);
    TipOf(h, s);
  }

  // Rolling

  /** What the scheduler's advice makes of progress that is rolling. */
  function PhaseFor(advice: Advice): ExecutionPhase {
    match advice
    case Finish => Completing
    case Abort => RollingBack
    case _ => Rolling
  }

  /**
   While rolling, a pass writes progress if a drain was acknowledged or the scheduler advises anything but to hold. It
   ends completing when advised to finish, rolling back when advised to abort, and rolling otherwise.
   */
  lemma PassFollowsAdvice(h: Hashes, s: Store, r: Record, q: Progress, i: Inputs)
    requires Underway(h, s, r, q) && q.phase == Rolling
    ensures var o := Pass(h, s, i);
            var t := Last(s, o.states);
            && o.result.Ok?
            && (if i.drainsAcknowledged || i.advice != Hold then
                  && t.journal == s.journal && t.checkpoint == s.checkpoint
                  && t.progress.backup == None && t.progress.current.Some?
                  && Marked(q, PhaseFor(i.advice), TimeOf(i, r, q), t.progress.current.value)
                else o.states == [])
  {
    var now := TimeOf(i, r, q);
    PassSettlesAtRest(h, s, r, q, i);
    UnderwayIsOk(h, s, r, q, i);
    if i.drainsAcknowledged {
      MarkedKeeps(h, s, r, q, now);
      SaveProgressKeeps(h, s, r, MarkProgress(q, now));
      var saved := SaveProgress(h, s, MarkProgress(q, now));
      var t := Last(s, saved.states);
      AdviseEnds(h, t, r, MarkProgress(q, now), now, i.advice);
      Sequential(h, s, saved.states, Advise(h, t, MarkProgress(q, now), now, i.advice).states);
    } else {
      AdviseEnds(h, s, r, q, now, i.advice);
    }
  }

  lemma AdviseEnds(h: Hashes, s: Store, r: Record, q: Progress, now: nat, advice: Advice)
    requires Current(h, s, r) && Readable(s) && ProgressOk(q, r) && q.phase == Rolling
    requires 0 < now && q.updatedAtMs <= now
    ensures var o := Advise(h, s, q, now, advice);
            && o.result.Ok?
            && (advice == Hold ==> o.states == [])
            && (advice != Hold ==>
                  Last(s, o.states) == s.(progress := Slot(Some(Moved(q, PhaseFor(advice), now)), None)))
  {
    match advice
    case Hold =>
    case Act => SaveProgressKeeps(h, s, r, MarkProgress(q, now));
    case Finish => ConcludeKeeps(h, s, r, q, Completing, now);
    case Abort => ConcludeKeeps(h, s, r, q, RollingBack, now);
  }

  // The other phases, and the first pass

  /** Paused or finished progress of an activated rollout is left alone. */
  lemma PassLeavesAlone(h: Hashes, s: Store, r: Record, q: Progress, i: Inputs)
    requires Underway(h, s, r, q) && (q.phase == Paused || q.phase == Completed || q.phase == Reverted)
    ensures Pass(h, s, i) == Return([], ())
  {
    PassSettlesAtRest(h, s, r, q, i);
  }

  /** The progress of a rollout that nobody has worked on yet. */
  ghost predicate IsFirst(r: Record, now: nat, deadlineMs: nat, q: Progress) {
    && q.rolloutId == r.id && q.phase == Rolling
    && q.previousRevision == r.previousRevision && q.previousGeneration == r.previousGeneration
    && r.activatedRevision == Some(q.candidateRevision) && r.activatedGeneration == Some(q.candidateGeneration)
    && q.startedAtMs == q.updatedAtMs == q.lastProgressAtMs == now && q.deadlineMs == deadlineMs
  }

  /** The first pass over an activated rollout begins its progress and then goes on as with that progress. */
  lemma PassBegins(h: Hashes, s: Store, r: Record, i: Inputs) returns (q: Progress)
    requires Current(h, s, r) && Fresh(s.journal) && r.phase == Activated && s.progress == Slot(None, None)
    ensures IsFirst(r, Later(i.now, r.updatedAtMs), i.deadlineMs, q)
    ensures var t := s.(progress := Slot(Some(q), None));
            && Underway(h, t, r, q)
            && Pass(h, s, i).result == Pass(h, t, i).result
            && Last(s, Pass(h, s, i).states) == Last(t, Pass(h, t, i).states)
  {
    var now := Later(i.now, r.updatedAtMs);
    ReadCurrent(h, s, r);
    BeginProgressKeeps(h, s, r, now, i.deadlineMs);
    var begun := BeginProgress(h, s, r, now, i.deadlineMs);
    q := begun.result.value;
    var t := Last(s, begun.states);
    PassSettlesAtRest(h, t, r, q, i);
    assert ReadProgress(h, s) == Return([], None);
    var o := Settle(h, t, r, q, TimeOf(i, r, q), i);
    Sequential(h, s, begun.states, o.states);
    assert [] + [] + (begun.states + o.states) == begun.states + o.states;
  }
}
