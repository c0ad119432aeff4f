/**
 The rollout transaction: prepare, activate, commit and roll back over the journal and the checkpoint,
 with the recovery that every read performs.
 */
module Rollout {
  import opened Wrappers
  import opened Engine

  const U64_MAX: nat := 0xFFFF_FFFF_FFFF_FFFF

  function SaturatingSucc(n: nat): nat {
    if n >= U64_MAX then U64_MAX else n + 1
  }

  function KeyOf(r: Record): RolloutKey {
    RolloutKey(r.createdAtMs, r.previousRevision, r.previousGeneration, r.candidate.sha256)
  }

  predicate ActivePhase(p: Phase) {
    p.Prepared? || p.Activated?
  }

  // Validation

  predicate ValidPrevious(h: Hashes, r: Record) {
    if r.previousRevision.None? then
      r.previousGeneration.None? && r.previousState.None? && r.previousPlan.None?
    else
      && r.previousRevision.value > 0
      && r.previousGeneration.Some?
      && r.previousState.Some?
      && match r.previousState.value
         case AppliedState => r.previousPlan.Some? && ValidPlan(h, r.previousPlan.value)
         case StoppedState =>
           r.previousPlan.Some? && ValidPlan(h, r.previousPlan.value) && AllStopped(r.previousPlan.value)
         case RemovedState => r.previousPlan.None?
  }

  predicate ValidPhaseFields(r: Record) {
    var activation := r.activatedRevision.Some? && r.activatedRevision.value > 0 && r.activatedGeneration.Some?;
    var rollback := r.rollbackRevision.Some? && r.rollbackRevision.value > 0 && r.rollbackGeneration.Some?;
    var noActivation := r.activatedRevision.None? && r.activatedGeneration.None?;
    var noRollback := r.rollbackRevision.None? && r.rollbackGeneration.None?;
    && (match r.phase
        case Prepared => noActivation && noRollback && r.healthReport.None?
        case Cancelled => noActivation && noRollback && r.healthReport.None?
        case Activated => activation && noRollback && r.healthReport.None?
        case Committed => activation && noRollback && r.healthReport.Some?
        case RolledBack => activation && rollback)
    && (r.activatedRevision.Some? ==>
          r.activatedRevision.value ==
          if r.previousRevision.None? then 1 else SaturatingSucc(r.previousRevision.value))
    && (r.rollbackRevision.Some? ==>
          r.activatedRevision.Some? && r.rollbackRevision.value == SaturatingSucc(r.activatedRevision.value))
  }

  predicate ValidRecord(h: Hashes, r: Record) {
    && ValidPlan(h, r.candidate)
    && r.createdAtMs > 0
    && r.updatedAtMs >= r.createdAtMs
    && r.id == h.rollout(KeyOf(r))
    && ValidPrevious(h, r)
    && ValidPhaseFields(r)
  }

  // Comparing a record with the journal tip

  predicate MatchesPrevious(r: Record, current: Option<Event>) {
    if r.previousRevision.None? then current.None?
    else
      && current.Some?
      && current.value.body.revision == r.previousRevision.value
      && r.previousGeneration == Some(current.value.sha256)
      && r.previousState == Some(StateOf(current.value.body.kind))
      && PlanSha(r.previousPlan) == PlanSha(current.value.body.plan)
  }

  function PlanSha(p: Option<StackPlan>): Option<Digest> {
    if p.None? then None else Some(p.value.sha256)
  }

  predicate MatchesCandidate(r: Record, current: Option<Event>) {
    && current.Some?
    && current.value.body.kind == Apply
    && PlanSha(current.value.body.plan) == Some(r.candidate.sha256)
    && current.value.body.previous == r.previousGeneration
  }

  predicate MatchesActivation(r: Record, current: Option<Event>) {
    && MatchesCandidate(r, current)
    && r.activatedRevision == Some(current.value.body.revision)
    && r.activatedGeneration == Some(current.value.sha256)
  }

  predicate MatchesRollback(r: Record, current: Option<Event>) {
    && current.Some?
    && current.value.body.previous == r.activatedGeneration
    && match r.previousState
       case Some(AppliedState) =>
         current.value.body.kind == Apply && PlanSha(current.value.body.plan) == PlanSha(r.previousPlan)
       case Some(StoppedState) =>
         current.value.body.kind == Stop && PlanSha(current.value.body.plan) == PlanSha(r.previousPlan)
       case _ => current.value.body.kind == Remove
  }

  function RollbackTarget(r: Record): Result<(EventKind, Option<StackPlan>), Error> {
    match r.previousState
    case Some(AppliedState) => if r.previousPlan.None? then Err(MissingPlan) else Ok((Apply, r.previousPlan))
    case Some(StoppedState) => if r.previousPlan.None? then Err(MissingPlan) else Ok((Stop, r.previousPlan))
    case _ => Ok((Remove, None))
  }

  // Phase changes

  function ToActivated(r: Record, e: Event, now: nat): Record {
    r.(phase := Activated, updatedAtMs := now,
       activatedRevision := Some(e.body.revision), activatedGeneration := Some(e.sha256))
  }

  function ToRolledBack(r: Record, e: Event, now: nat): Record {
    r.(phase := RolledBack, updatedAtMs := now,
       rollbackRevision := Some(e.body.revision), rollbackGeneration := Some(e.sha256))
  }

  function Later(a: nat, b: nat): nat { if a < b then b else a }

  /** The checkpoint the journal tip implies, or an error when the tip belongs to neither side. */
  function Recovered(h: Hashes, s: Store, r: Record): Result<Record, Error> {
    var current := Latest(s);
    match r.phase
    case Prepared =>
      if MatchesCandidate(r, current) then
        var r' := ToActivated(r, current.value, Later(r.updatedAtMs, current.value.body.createdAtMs));
        if ValidRecord(h, r') then Ok(r') else Err(InvalidDocument)
      else if MatchesPrevious(r, current) then Ok(r) else Err(DesiredStateChanged)
    case Activated =>
      if MatchesRollback(r, current) then
        var r' := ToRolledBack(r, current.value, Later(r.updatedAtMs, current.value.body.createdAtMs));
        if ValidRecord(h, r') then Ok(r') else Err(InvalidDocument)
      else if MatchesActivation(r, current) then Ok(r) else Err(DesiredStateChanged)
    case _ => Ok(r)
  }

  function WriteCheckpoint(h: Hashes, s: Store, r: Record): Outcome<()> {
    if !ValidRecord(h, r) then Fail([], InvalidDocument)
    else
      match Replace(s.checkpoint, r)
      case Err(e) => Fail([], e)
      case Ok(slots) => Return(WithCheckpoint(s, slots), ())
  }

  /** Writes `r` and returns it. */
  function Save(h: Hashes, s: Store, r: Record): Outcome<Record> {
    var w := WriteCheckpoint(h, s, r);
    if w.result.Err? then Fail(w.states, w.result.error) else Return(w.states, r)
  }

  /** Reads the checkpoint file at rest and brings its phase up to the journal. */
  function ReadPhase(h: Hashes, s: Store): Outcome<Option<Record>> {
    if s.checkpoint.current.None? then Return([], None)
    else
      var r := s.checkpoint.current.value;
      if !ValidRecord(h, r) then Fail([], InvalidDocument)
      else
        match Recovered(h, s, r)
        case Err(e) => Fail([], e)
        case Ok(r') =>
          if r' == r then Return([], Some(r))
          else
            var w := WriteCheckpoint(h, s, r');
            if w.result.Err? then Fail(w.states, w.result.error) else Return(w.states, Some(r'))
  }

  /** Reads the checkpoint: recovers its file, then the phase the journal implies. */
  function Read(h: Hashes, s: Store): Outcome<Option<Record>> {
    match Recover(s.checkpoint, r => ValidRecord(h, r))
    case Err(e) => Fail([], e)
    case Ok(slots) =>
      var before := WithCheckpoint(s, slots);
      After(before, ReadPhase(h, Last(s, before)))
  }

  function Require(h: Hashes, s: Store, id: Digest): Outcome<Record> {
    var read := Read(h, s);
    match read.result
    case Err(e) => Fail(read.states, e)
    case Ok(None) => Fail(read.states, NoCheckpoint)
    case Ok(Some(r)) => if r.id != id then Fail(read.states, WrongIdentity) else Return(read.states, r)
  }

  predicate TimeAdvances(r: Record, now: nat) {
    now > 0 && now >= r.updatedAtMs
  }

  // Operations

  function NewRecord(h: Hashes, plan: StackPlan, previous: Option<Event>, now: nat): Record {
    var r := Record(
      Digest(""), Prepared, now, now,
      if previous.None? then None else Some(previous.value.body.revision),
      PreviousSha(previous),
      if previous.None? then None else Some(StateOf(previous.value.body.kind)),
      if previous.None? then None else previous.value.body.plan,
      plan, None, None, None, None, None);
    r.(id := h.rollout(KeyOf(r)))
  }

  predicate AlreadyDesiredPlan(current: Option<Event>, plan: StackPlan) {
    && current.Some?
    && current.value.body.kind == Apply
    && PlanSha(current.value.body.plan) == Some(plan.sha256)
  }

  /** Starts a rollout in a store whose checkpoint is absent or terminal. */
  function Begin(h: Hashes, s: Store, plan: StackPlan, now: nat, slotFree: bool): Outcome<Record> {
    var previous := Latest(s);
    var r := NewRecord(h, plan, previous, now);
    if previous.None? && !slotFree then Fail([], StackLimit)
    else if AlreadyDesiredPlan(previous, plan) then Fail([], AlreadyDesired)
    else if now == 0 then Fail([], InvalidTime)
    else Save(h, s, r)
  }

  /** Preparation once the checkpoint has been read as `r`. */
  function PrepareFrom(
    h: Hashes, s: Store, r: Option<Record>, plan: StackPlan, now: nat, slotFree: bool, archived: bool)
    : Outcome<Record>
  {
    if r.None? then Begin(h, s, plan, now, slotFree)
    else if ActivePhase(r.value.phase) then
      if r.value.phase == Prepared && r.value.candidate.sha256 == plan.sha256 then Return([], r.value)
      else Fail([], AlreadyActive)
    else if && r.value.phase == Committed
            && r.value.candidate.sha256 == plan.sha256
            && MatchesActivation(r.value, Latest(s)) then
      Return([], r.value)
    else
      var dropped := DropProgress(s, r.value);
      if dropped.result.Err? then Fail(dropped.states, dropped.result.error)
      else if !archived then Fail(dropped.states, ArchiveRefused)
      else After(dropped.states, Begin(h, Last(s, dropped.states), plan, now, slotFree))
  }

  /**
   `slotFree` says that the engine may hold one more stack, `archived` that the terminal record
   could be archived.
   */
  function Prepare(
    h: Hashes, s: Store, plan: StackPlan, allowInsecure: bool, now: nat, slotFree: bool, archived: bool)
    : Outcome<Record>
  {
    if !ValidPlan(h, plan) then Fail([], InvalidPlan)
    else if plan.content.sandboxDisabled && !allowInsecure then Fail([], InsecurePlan)
    else
      var read := Read(h, s);
      if read.result.Err? then Fail(read.states, read.result.error)
      else After(read.states,
                 PrepareFrom(h, Last(s, read.states), read.result.value, plan, now, slotFree, archived))
  }

  /** Appends `event` and then writes the record `r` that knows of it; a crash can fall in between. */
  function AppendAndSave(h: Hashes, s: Store, event: Event, origin: Origin, r: Record): Outcome<Record> {
    var appended := Append(h, s, event, origin);
    if appended.result.Err? then Fail(appended.states, appended.result.error)
    else After(appended.states, Save(h, Last(s, appended.states), r))
  }

  function ActivateFrom(h: Hashes, s: Store, r: Record, now: nat, clock: nat): Outcome<Record> {
    if r.phase == Activated then Return([], r)
    else if r.phase != Prepared then Fail([], WrongPhase)
    else if !TimeAdvances(r, now) then Fail([], InvalidTime)
    else if !MatchesPrevious(r, Latest(s)) then Fail([], DesiredStateChanged)
    else
      match NextEvent(h, Latest(s), Apply, Some(r.candidate), clock)
      case Err(e) => Fail([], e)
      case Ok(event) =>
        AppendAndSave(h, s, event, Activation(KeyOf(r)), ToActivated(r, event, now))
  }

  function Activate(h: Hashes, s: Store, id: Digest, now: nat, clock: nat): Outcome<Record> {
    var required := Require(h, s, id);
    if required.result.Err? then required
    else After(required.states, ActivateFrom(h, Last(s, required.states), required.result.value, now, clock))
  }

  function ToCommitted(r: Record, now: nat, report: Digest): Record {
    r.(phase := Committed, updatedAtMs := now, healthReport := Some(report))
  }

  function CommitFrom(h: Hashes, s: Store, r: Record, now: nat, ready: bool, report: Digest): Outcome<Record> {
    if r.phase == Committed then Return([], r)
    else if r.phase != Activated then Fail([], WrongPhase)
    else if !TimeAdvances(r, now) then Fail([], InvalidTime)
    else if !MatchesActivation(r, Latest(s)) then Fail([], DesiredStateChanged)
    else if !ready then Fail([], NotReady)
    else Save(h, s, ToCommitted(r, now, report))
  }

  /** `ready` stands for the health and stability verdict, `report` for its digest. */
  function Commit(h: Hashes, s: Store, id: Digest, now: nat, ready: bool, report: Digest): Outcome<Record> {
    var required := Require(h, s, id);
    if required.result.Err? then required
    else After(required.states, CommitFrom(h, Last(s, required.states), required.result.value, now, ready, report))
  }

  function ToCancelled(r: Record, now: nat): Record {
    r.(phase := Cancelled, updatedAtMs := now)
  }

  function RollbackFrom(h: Hashes, s: Store, r: Record, now: nat, clock: nat): Outcome<Record> {
    if r.phase == Cancelled || r.phase == RolledBack then Return([], r)
    else if !TimeAdvances(r, now) then Fail([], InvalidTime)
    else if r.phase == Prepared then
      if !MatchesPrevious(r, Latest(s)) then Fail([], DesiredStateChanged)
      else Save(h, s, ToCancelled(r, now))
    else if !MatchesActivation(r, Latest(s)) then Fail([], DesiredStateChanged)
    else
      match RollbackTarget(r)
      case Err(e) => Fail([], e)
      case Ok((kind, plan)) =>
        match NextEvent(h, Latest(s), kind, plan, clock)
        case Err(e) => Fail([], e)
        case Ok(event) =>
          AppendAndSave(h, s, event, RollbackOf(KeyOf(r)), ToRolledBack(r, event, now))
  }

  function Rollback(h: Hashes, s: Store, id: Digest, now: nat, clock: nat): Outcome<Record> {
    var required := Require(h, s, id);
    if required.result.Err? then required
    else After(required.states, RollbackFrom(h, Last(s, required.states), required.result.value, now, clock))
  }

  /** Direct changes to the desired state are refused while a rollout is active. */
  function EnsureNoActive(h: Hashes, s: Store): Outcome<()> {
    var read := Read(h, s);
    match read.result
    case Err(e) => Fail(read.states, e)
    case Ok(None) => Return(read.states, ())
    case Ok(Some(r)) => if ActivePhase(r.phase) then Fail(read.states, AlreadyActive) else Return(read.states, ())
  }

  function AppendNext(h: Hashes, s: Store, kind: EventKind, plan: Option<StackPlan>, clock: nat): Outcome<bool> {
    match NextEvent(h, Latest(s), kind, plan, clock)
    case Err(e) => Fail([], e)
    case Ok(event) =>
      var appended := Append(h, s, event, Direct);
      if appended.result.Err? then Fail(appended.states, appended.result.error) else Return(appended.states, true)
  }

  /** The result says whether the desired state changed. */
  function ApplyPlan(h: Hashes, s: Store, plan: StackPlan, allowInsecure: bool, slotFree: bool, clock: nat)
    : Outcome<bool>
  {
    if !ValidPlan(h, plan) then Fail([], InvalidPlan)
    else
      var gate := EnsureNoActive(h, s);
      var t := Last(s, gate.states);
      if gate.result.Err? then Fail(gate.states, gate.result.error)
      else if plan.content.sandboxDisabled && !allowInsecure then Fail(gate.states, InsecurePlan)
      else if Latest(t).None? && !slotFree then Fail(gate.states, StackLimit)
      else if AlreadyDesiredPlan(Latest(t), plan) then Return(gate.states, false)
      else After(gate.states, AppendNext(h, t, Apply, Some(plan), clock))
  }

  function StopStack(h: Hashes, s: Store, clock: nat): Outcome<bool> {
    var gate := EnsureNoActive(h, s);
    var t := Last(s, gate.states);
    if gate.result.Err? then Fail(gate.states, gate.result.error)
    else
      match Latest(t)
      case None => Fail(gate.states, UnknownStack)
      case Some(event) =>
        match event.body.kind
        case Remove => Fail(gate.states, RemovedStack)
        case Stop => Return(gate.states, false)
        case Apply =>
          if event.body.plan.None? then Fail(gate.states, MissingPlan)
          else After(gate.states, AppendNext(h, t, Stop, Some(StoppedPlan(h, event.body.plan.value)), clock))
  }

  function RemoveStack(h: Hashes, s: Store, clock: nat): Outcome<bool> {
    var gate := EnsureNoActive(h, s);
    var t := Last(s, gate.states);
    if gate.result.Err? then Fail(gate.states, gate.result.error)
    else
      match Latest(t)
      case None => Fail(gate.states, UnknownStack)
      case Some(event) =>
        if event.body.kind == Remove then Return(gate.states, false)
        else After(gate.states, AppendNext(h, t, Remove, None, clock))
  }

  // Progress documents, as far as the transaction touches them

  predicate ValidProgress(q: Progress) {
    && (if q.previousRevision.None? then q.previousGeneration.None?
        else q.previousRevision.value > 0 && q.previousGeneration.Some?)
    && q.candidateRevision > 0
    && q.startedAtMs > 0
    && q.startedAtMs <= q.lastProgressAtMs <= q.updatedAtMs
  }

  predicate ProgressMatches(q: Progress, r: Record) {
    && q.rolloutId == r.id
    && q.previousRevision == r.previousRevision
    && q.previousGeneration == r.previousGeneration
    && r.activatedRevision == Some(q.candidateRevision)
    && r.activatedGeneration == Some(q.candidateGeneration)
  }

  /** Removes the progress of the terminal rollout `r`. */
  function DropProgress(s: Store, r: Record): Outcome<()> {
    match Recover(s.progress, ValidProgress)
    case Err(e) => Fail([], e)
    case Ok(slots) =>
      var before := WithProgress(s, slots);
      var t := Last(s, before);
      if t.progress.current.None? then Return(before, ())
      else if !ValidProgress(t.progress.current.value) then Fail(before, InvalidDocument)
      else if !ProgressMatches(t.progress.current.value, r) then Fail(before, ProgressMismatch)
      else Return(before + [t.(progress := Slot(None, t.progress.backup))], ())
  }
}
