/**
 One reconcile pass of the daemon over one stack: it brings the execution progress of a rollout and
 its transaction checkpoint together. The routing snapshot published between two writes is left
 out; a failure to publish stops the pass there, like a crash.
 */
module Reconcile {
  import opened Wrappers
  import opened Engine
  import opened Rollout

  /** What the rolling scheduler advises while candidates are being rolled out. */
  datatype Advice = Act | Finish | Abort | Hold

  /** What the pass observes: health, stability, installed packages, the scheduler and the clock. */
  datatype Inputs = Inputs(
    now: nat,
    clock: nat,
    deadlineMs: nat,
    healthy: bool,
    stable: bool,
    report: Digest,
    packagesIntact: bool,
    drainsAcknowledged: bool,
    advice: Advice)

  predicate PhaseChange(a: ExecutionPhase, b: ExecutionPhase) {
    match a
    case Rolling => b == Paused || b == Completing || b == RollingBack
    case Paused => b == Rolling || b == Completing || b == RollingBack
    case Completing => b == Completed || b == RollingBack
    case RollingBack => b == Reverted
    case _ => false
  }

  function MarkProgress(q: Progress, now: nat): Progress {
    q.(updatedAtMs := now, lastProgressAtMs := now)
  }

  function SetPhase(q: Progress, next: ExecutionPhase, now: nat): Result<Progress, Error> {
    if now == 0 || now < q.updatedAtMs then Err(InvalidTime)
    else if !PhaseChange(q.phase, next) then Err(InvalidTransition)
    else Ok(MarkProgress(q.(phase := next), now))
  }

  function NewProgress(r: Record, now: nat, deadlineMs: nat): Result<Progress, Error> {
    if r.phase != Activated || now == 0 || now < r.updatedAtMs then Err(WrongPhase)
    else if r.activatedRevision.None? || r.activatedGeneration.None? then Err(InvalidDocument)
    else Ok(Progress(r.id, Rolling, r.previousRevision, r.previousGeneration,
                     r.activatedRevision.value, r.activatedGeneration.value, now, now, now, deadlineMs))
  }

  // The progress file

  function WriteProgress(s: Store, q: Progress): Outcome<()> {
    if !ValidProgress(q) then Fail([], InvalidDocument)
    else
      match Replace(s.progress, q)
      case Err(e) => Fail([], e)
      case Ok(slots) => Return(WithProgress(s, slots), ())
  }

  /** Checks the recovered progress file of `s` against the checkpoint. */
  function CheckProgress(h: Hashes, s: Store): Outcome<Option<Progress>> {
    if s.progress.current.None? then Return([], None)
    else
      var q := s.progress.current.value;
      if !ValidProgress(q) then Fail([], InvalidDocument)
      else
        var read := Read(h, s);
        match read.result
        case Err(e) => Fail(read.states, e)
        case Ok(None) => Fail(read.states, NoCheckpoint)
        case Ok(Some(r)) =>
          if ProgressMatches(q, r) then Return(read.states, Some(q)) else Fail(read.states, ProgressMismatch)
  }

  function ReadProgress(h: Hashes, s: Store): Outcome<Option<Progress>> {
    match Recover(s.progress, ValidProgress)
    case Err(e) => Fail([], e)
    case Ok(slots) =>
      var before := WithProgress(s, slots);
      After(before, CheckProgress(h, Last(s, before)))
  }

  function StoreRecoveredProgress(s: Store, q: Progress): Outcome<()> {
    match Recover(s.progress, ValidProgress)
    case Err(e) => Fail([], e)
    case Ok(slots) =>
      var before := WithProgress(s, slots);
      After(before, WriteProgress(Last(s, before), q))
  }

  function SaveProgress(h: Hashes, s: Store, q: Progress): Outcome<()> {
    if !ValidProgress(q) then Fail([], InvalidDocument)
    else
      var read := Read(h, s);
      match read.result
      case Err(e) => Fail(read.states, e)
      case Ok(None) => Fail(read.states, NoCheckpoint)
      case Ok(Some(r)) =>
        if !ProgressMatches(q, r) then Fail(read.states, ProgressMismatch)
        else After(read.states, StoreRecoveredProgress(Last(s, read.states), q))
  }

  /** Moves `q` to `next` and saves it. */
  function Conclude(h: Hashes, s: Store, q: Progress, next: ExecutionPhase, now: nat): Outcome<()> {
    match SetPhase(q, next, now)
    case Err(e) => Fail([], e)
    case Ok(q') => SaveProgress(h, s, q')
  }

  // The pass

  function SettleCommitted(h: Hashes, s: Store, q: Progress, now: nat): Outcome<()> {
    if q.phase == Rolling || q.phase == Paused then
      match SetPhase(q, Completing, now)
      case Err(e) => Fail([], e)
      case Ok(q') => Conclude(h, s, q', Completed, now)
    else if q.phase == Completing then Conclude(h, s, q, Completed, now)
    else Return([], ())
  }

  function SettleRolledBack(h: Hashes, s: Store, q: Progress, now: nat): Outcome<()> {
    if q.phase == Rolling || q.phase == Paused || q.phase == Completing then
      match SetPhase(q, RollingBack, now)
      case Err(e) => Fail([], e)
      case Ok(q') => Conclude(h, s, q', Reverted, now)
    else if q.phase == RollingBack then Conclude(h, s, q, Reverted, now)
    else Return([], ())
  }

  predicate Expired(q: Progress, now: nat) {
    (if now < q.lastProgressAtMs then 0 else now - q.lastProgressAtMs) >= q.deadlineMs
  }

  function FinishCompleting(h: Hashes, s: Store, r: Record, q: Progress, now: nat, i: Inputs): Outcome<()> {
    if i.healthy then
      var committed := Commit(h, s, r.id, now, i.stable, i.report);
      if committed.result.Err? then Fail(committed.states, committed.result.error)
      else After(committed.states, Conclude(h, Last(s, committed.states), q, Completed, now))
    else if Expired(q, now) then Conclude(h, s, q, RollingBack, now)
    else Return([], ())
  }

  function FinishRollingBack(h: Hashes, s: Store, r: Record, q: Progress, now: nat, i: Inputs): Outcome<()> {
    if !i.packagesIntact then Fail([], PackagesChanged)
    else
      var reverted := Rollback(h, s, r.id, now, i.clock);
      if reverted.result.Err? then Fail(reverted.states, reverted.result.error)
      else After(reverted.states, Conclude(h, Last(s, reverted.states), q, Reverted, now))
  }

  /** Follows the scheduler's advice; `q` is in the rolling phase. */
  function Advise(h: Hashes, s: Store, q: Progress, now: nat, advice: Advice): Outcome<()> {
    match advice
    case Hold => Return([], ())
    case Act => SaveProgress(h, s, MarkProgress(q, now))
    case Finish => Conclude(h, s, q, Completing, now)
    case Abort => Conclude(h, s, q, RollingBack, now)
  }

  function Advance(h: Hashes, s: Store, q: Progress, now: nat, i: Inputs): Outcome<()> {
    if now == 0 || now < q.updatedAtMs then Fail([], InvalidTime)
    else if !i.drainsAcknowledged then Advise(h, s, q, now, i.advice)
    else
      var saved := SaveProgress(h, s, MarkProgress(q, now));
      if saved.result.Err? then Fail(saved.states, saved.result.error)
      else After(saved.states, Advise(h, Last(s, saved.states), MarkProgress(q, now), now, i.advice))
  }

  function Settle(h: Hashes, s: Store, r: Record, q: Progress, now: nat, i: Inputs): Outcome<()> {
    match r.phase
    case Committed => SettleCommitted(h, s, q, now)
    case RolledBack => SettleRolledBack(h, s, q, now)
    case Cancelled => SettleRolledBack(h, s, q, now)
    case Prepared => Return([], ())
    case Activated =>
      match q.phase
      case Completing => FinishCompleting(h, s, r, q, now, i)
      case RollingBack => FinishRollingBack(h, s, r, q, now, i)
      case Rolling => Advance(h, s, q, now, i)
      case _ => Return([], ())
  }

  function BeginProgress(h: Hashes, s: Store, r: Record, now: nat, deadlineMs: nat): Outcome<Progress> {
    match NewProgress(r, now, deadlineMs)
    case Err(e) => Fail([], e)
    case Ok(q) =>
      var w := WriteProgress(s, q);
      if w.result.Err? then Fail(w.states, w.result.error) else Return(w.states, q)
  }

  /** The pass once checkpoint `r` and progress `q` have been read. */
  function Continue(h: Hashes, s: Store, r: Record, q: Option<Progress>, i: Inputs): Outcome<()> {
    match q
    case Some(q) => Settle(h, s, r, q, Later(Later(i.now, r.updatedAtMs), q.updatedAtMs), i)
    case None =>
      if r.phase != Activated then Return([], ())
      else
        var begun := BeginProgress(h, s, r, Later(i.now, r.updatedAtMs), i.deadlineMs);
        if begun.result.Err? then Fail(begun.states, begun.result.error)
        else
          var q := begun.result.value;
          After(begun.states,
                Settle(h, Last(s, begun.states), r, q, Later(Later(i.now, r.updatedAtMs), q.updatedAtMs), i))
  }

  function Pass(h: Hashes, s: Store, i: Inputs): Outcome<()> {
    var read := Read(h, s);
    match read.result
    case Err(e) => Fail(read.states, e)
    case Ok(None) => Return(read.states, ())
    case Ok(Some(r)) =>
      var t := Last(s, read.states);
      var progress := ReadProgress(h, t);
      var states := read.states + progress.states;
      match progress.result
      case Err(e) => Fail(states, e)
      case Ok(q) => After(states, Continue(h, Last(s, states), r, q, i))
  }
}
