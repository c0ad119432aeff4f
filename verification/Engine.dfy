/**
 The durable state of one stack: its event journal, its rollout checkpoint and its rollout progress.
 Stack names are left out because a store here is the slice of one stack.
 SHA-256 enters as three function values, so every result that rests on fresh identities names
 the pair of inputs that would have to collide.
 */
module Engine {
  import opened Wrappers

  const MAX_EVENTS_PER_STACK: nat := 4096

  /** A value in the form `is_digest` accepts. The empty string that stands for "no predecessor" is `None`. */
  datatype Digest = Digest(hex: string)

  datatype DesiredState = Running | Stopped

  datatype PlanContent = PlanContent(sandboxDisabled: bool, instances: seq<(string, DesiredState)>)

  datatype StackPlan = StackPlan(content: PlanContent, sha256: Digest)

  datatype EventKind = Apply | Stop | Remove

  datatype StackState = AppliedState | StoppedState | RemovedState

  datatype EventBody = EventBody(
    revision: nat,
    kind: EventKind,
    previous: Option<Digest>,
    createdAtMs: nat,
    plan: Option<StackPlan>)

  datatype Event = Event(body: EventBody, sha256: Digest)

  /** What a rollout identity is computed from. */
  datatype RolloutKey = RolloutKey(
    createdAtMs: nat,
    previousRevision: Option<nat>,
    previousGeneration: Option<Digest>,
    candidate: Digest)

  datatype Hashes = Hashes(
    plan: PlanContent -> Digest,
    event: EventBody -> Digest,
    rollout: RolloutKey -> Digest)

  datatype Phase = Prepared | Activated | Committed | RolledBack | Cancelled

  datatype Record = Record(
    id: Digest,
    phase: Phase,
    createdAtMs: nat,
    updatedAtMs: nat,
    previousRevision: Option<nat>,
    previousGeneration: Option<Digest>,
    previousState: Option<StackState>,
    previousPlan: Option<StackPlan>,
    candidate: StackPlan,
    activatedRevision: Option<nat>,
    activatedGeneration: Option<Digest>,
    rollbackRevision: Option<nat>,
    rollbackGeneration: Option<Digest>,
    healthReport: Option<Digest>)

  /** `Reverted` is the phase the engine calls rolled-back. */
  datatype ExecutionPhase = Rolling | Paused | Completing | RollingBack | Completed | Reverted

  datatype Progress = Progress(
    rolloutId: Digest,
    phase: ExecutionPhase,
    previousRevision: Option<nat>,
    previousGeneration: Option<Digest>,
    candidateRevision: nat,
    candidateGeneration: Digest,
    startedAtMs: nat,
    updatedAtMs: nat,
    lastProgressAtMs: nat,
    deadlineMs: nat)

  /** A file replaced by rename, with the `.previous` copy that exists while a replacement is under way. */
  datatype Slot<T> = Slot(current: Option<T>, backup: Option<T>) {
    /** What recovery will read. */
    function Logical(): Option<T> {
      if current.Some? then current else backup
    }
  }

  /** Which call appended an event; a history variable that no operation reads. */
  datatype Origin = Direct | Activation(key: RolloutKey) | RollbackOf(key: RolloutKey)

  datatype Store = Store(
    journal: seq<Event>,
    origins: seq<Origin>,
    checkpoint: Slot<Record>,
    progress: Slot<Progress>)

  datatype Error =
    | InvalidDocument
    | InvalidPlan
    | InsecurePlan
    | ReplacementInProgress
    | AlreadyActive
    | StackLimit
    | AlreadyDesired
    | InvalidTime
    | NoCheckpoint
    | WrongIdentity
    | WrongPhase
    | DesiredStateChanged
    | NotReady
    | HistoryLimit
    | JournalDiscontinuity
    | MissingPlan
    | UnknownStack
    | RemovedStack
    | ArchiveRefused
    | ProgressMismatch
    | InvalidTransition
    | PackagesChanged

  /** The durable states an operation passes through, one per write, and what it returns. */
  datatype Outcome<T> = Outcome(states: seq<Store>, result: Result<T, Error>)

  /** Where the store is after the writes `states`, begun in `s`. */
  function Last(s: Store, states: seq<Store>): Store {
    if states == [] then s else states[|states| - 1]
  }

  function Fail<T>(states: seq<Store>, e: Error): Outcome<T> {
    Outcome(states, Err(e))
  }

  function Return<T>(states: seq<Store>, v: T): Outcome<T> {
    Outcome(states, Ok(v))
  }

  /** `o` after the writes `states`. */
  function After<T>(states: seq<Store>, o: Outcome<T>): Outcome<T> {
    Outcome(states + o.states, o.result)
  }

  // The journal

  function Latest(s: Store): Option<Event> {
    if s.journal == [] then None else Some(s.journal[|s.journal| - 1])
  }

  function StateOf(k: EventKind): StackState {
    match k
    case Apply => AppliedState
    case Stop => StoppedState
    case Remove => RemovedState
  }

  predicate ValidPlan(h: Hashes, p: StackPlan) {
    p.sha256 == h.plan(p.content)
  }

  predicate AllStopped(p: StackPlan) {
    forall i <- p.content.instances :: i.1 == Stopped
  }

  /** The plan with every instance stopped. */
  function StoppedPlan(h: Hashes, p: StackPlan): StackPlan {
    var content := p.content.(instances := StopAll(p.content.instances));
    StackPlan(content, h.plan(content))
  }

  function StopAll(s: seq<(string, DesiredState)>): (r: seq<(string, DesiredState)>)
    ensures |r| == |s| && forall i :: 0 <= i < |s| ==> r[i] == (s[i].0, Stopped)
  {
    if s == [] then [] else [(s[0].0, Stopped)] + StopAll(s[1..])
  }

  predicate ValidKind(h: Hashes, kind: EventKind, plan: Option<StackPlan>) {
    match kind
    case Apply => plan.Some? && ValidPlan(h, plan.value)
    case Stop => plan.Some? && ValidPlan(h, plan.value) && AllStopped(plan.value)
    case Remove => plan.None?
  }

  predicate ValidEvent(h: Hashes, e: Event) {
    && e.sha256 == h.event(e.body)
    && e.body.revision > 0
    && e.body.createdAtMs > 0
    && (e.body.revision == 1 <==> e.body.previous.None?)
    && ValidKind(h, e.body.kind, e.body.plan)
  }

  function PreviousSha(previous: Option<Event>): Option<Digest> {
    if previous.None? then None else Some(previous.value.sha256)
  }

  function NextRevision(previous: Option<Event>): nat {
    if previous.None? then 1 else previous.value.body.revision + 1
  }

  /** The event that continues the journal after `previous`. */
  function NextEvent(h: Hashes, previous: Option<Event>, kind: EventKind, plan: Option<StackPlan>, clock: nat)
    : Result<Event, Error>
  {
    var body := EventBody(NextRevision(previous), kind, PreviousSha(previous), clock, plan);
    var event := Event(body, h.event(body));
    if previous.None? && plan.None? then Err(UnknownStack)
    else if !ValidEvent(h, event) then Err(InvalidDocument)
    else Ok(event)
  }

  function Append(h: Hashes, s: Store, e: Event, origin: Origin): Outcome<()> {
    if !ValidEvent(h, e) then Fail([], InvalidDocument)
    else if |s.journal| >= MAX_EVENTS_PER_STACK then Fail([], HistoryLimit)
    else if e.body.revision != NextRevision(Latest(s)) || e.body.previous != PreviousSha(Latest(s)) then
      Fail([], JournalDiscontinuity)
    else Return([s.(journal := s.journal + [e], origins := s.origins + [origin])], ())
  }

  // Replacing a file and recovering an interrupted replacement

  function Replace<T>(f: Slot<T>, v: T): Result<seq<Slot<T>>, Error> {
    if f.current.None? then Ok([Slot(Some(v), f.backup)])
    else if f.backup.Some? then Err(ReplacementInProgress)
    else Ok([Slot(None, f.current), Slot(Some(v), f.current), Slot(Some(v), None)])
  }

  /** Restores a lone backup and drops a superseded one, after checking that the file kept is valid. */
  function Recover<T>(f: Slot<T>, valid: T -> bool): Result<seq<Slot<T>>, Error> {
    if f.backup.None? then Ok([])
    else if f.current.None? then
      if valid(f.backup.value) then Ok([Slot(f.backup, None)]) else Err(InvalidDocument)
    else
      if valid(f.current.value) then Ok([Slot(f.current, None)]) else Err(InvalidDocument)
  }

  function WithCheckpoint(s: Store, slots: seq<Slot<Record>>): (r: seq<Store>)
    ensures |r| == |slots| && forall i :: 0 <= i < |slots| ==> r[i] == s.(checkpoint := slots[i])
  {
    if slots == [] then [] else [s.(checkpoint := slots[0])] + WithCheckpoint(s, slots[1..])
  }

  function WithProgress(s: Store, slots: seq<Slot<Progress>>): (r: seq<Store>)
    ensures |r| == |slots| && forall i :: 0 <= i < |slots| ==> r[i] == s.(progress := slots[i])
  {
    if slots == [] then [] else [s.(progress := slots[0])] + WithProgress(s, slots[1..])
  }
}
