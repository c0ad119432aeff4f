/**
 The file mailbox between the daemon's clients and one worker run: `.request`, `.active` and `.response`
 files in the worker's own directory. Every file operation is one step, and the steps
 of all clients and of the worker interleave freely. Listing the directory is one step too.
 */
module Invocation {
  import opened Wrappers

  const MAX_PER_REPLICA: nat := 16

  datatype Id = Id(hex: string)

  /** The route a request is pinned to; `readiness` is the part the worker does not compare. */
  datatype Target = Target(
    instance: string, ordinal: nat, revision: nat, generation: string, runId: string, readiness: string)

  datatype Envelope = Envelope(id: Id, target: Target, deadlineMs: nat, body: string)

  datatype Reply = Reply(target: Target, id: Id, respondedAtMs: nat, body: string)

  /** What the worker keeps of a request it opened; `envelope` is history. */
  datatype Claim = Claim(target: Target, deadlineMs: nat, envelope: Envelope)

  /** A reply as it lies in the directory; `answers`, the envelope it was made for, is history. */
  datatype Response = Response(reply: Reply, answers: Envelope)

  /** Where a client of the daemon stands; `stage` counts the files it has removed. */
  datatype Client =
    | Counting(envelope: Envelope)
    | Publishing(envelope: Envelope)
    | Waiting(envelope: Envelope)
    | Cleaning(envelope: Envelope, result: Option<Response>, stage: nat)
    | Done(envelope: Envelope, result: Option<Response>)

  /** What a thread of the worker is in the middle of. */
  datatype Task =
    | Opening(id: Id)
    | Discarding(id: Id)
    | Answering(id: Id, response: Response)
    | Placing(id: Id, response: Response)
    | Forgetting(id: Id)
    | Removing(id: Id)

  /** What has happened, by request identity; no step reads it. */
  datatype Past = Past(begun: set<Id>, published: map<Id, Envelope>, claimed: map<Id, nat>)

  /** The files of the directory, by request identity. */
  datatype Files = Files(requests: map<Id, Envelope>, active: map<Id, Envelope>, responses: map<Id, Response>)

  /** What the worker holds in memory: its claims, and the task of each busy thread. */
  datatype Worker = Worker(claims: map<Id, Claim>, tasks: map<nat, Task>)

  /** The daemon's clients and the holder of its mutation lock. */
  datatype Daemon = Daemon(lock: Option<nat>, clients: map<nat, Client>)

  datatype State = State(files: Files, worker: Worker, daemon: Daemon, past: Past)

  datatype Step =
    | Begin(client: nat, envelope: Envelope)
    | Count(client: nat)
    | Publish(client: nat)
    | Poll(client: nat)
    | GiveUp(client: nat)
    | Clean(client: nat)
    | Die(client: nat)
    | TakeRequest(thread: nat, id: Id)
    | OpenClaimed(thread: nat, nowMs: nat, routeReady: bool)
    | Discard(thread: nat)
    | Answer(thread: nat, id: Id, body: string, checkedMs: nat, stampedMs: nat)
    | LookForResponse(thread: nat)
    | PlaceResponse(thread: nat)
    | Forget(thread: nat)
    | RemoveAnswered(thread: nat)
    | Expire(id: Id)

  const QUIET :=
    State(Files(map[], map[], map[]), Worker(map[], map[]), Daemon(None, map[]), Past({}, map[], map[]))

  /** The files or claims without the one of `id`. */
  function Drop<V>(m: map<Id, V>, id: Id): map<Id, V> {
    m - {id}
  }

  function Pending(f: Files): nat {
    |f.requests| + |f.active|
  }

  /** The worker compares everything but the readiness identity. */
  predicate SameRun(t: Target, worker: Target) {
    && t.instance == worker.instance
    && t.ordinal == worker.ordinal
    && t.revision == worker.revision
    && t.generation == worker.generation
    && t.runId == worker.runId
  }

  predicate Deliverable(e: Envelope, id: Id, worker: Target, now: nat, routeReady: bool) {
    e.id == id && SameRun(e.target, worker) && now <= e.deadlineMs && routeReady
  }

  predicate AcceptsReply(e: Envelope, r: Reply) {
    r.target == e.target && r.id == e.id && r.respondedAtMs <= e.deadlineMs
  }

  // The clients

  predicate ClientEnabled(s: State, step: Step) {
    var clients := s.daemon.clients;
    match step
    case Begin(c, _) => c !in clients && s.daemon.lock.None?
    case Count(c) => c in clients && clients[c].Counting?
    case Publish(c) => c in clients && clients[c].Publishing?
    case Poll(c) => c in clients && clients[c].Waiting? && clients[c].envelope.id in s.files.responses
    case GiveUp(c) => c in clients && clients[c].Waiting?
    case Clean(c) => c in clients && clients[c].Cleaning?
    case Die(c) => c in clients && !clients[c].Done?
    case _ => false
  }

  /** Client `c` moves on to `k`, and gives the lock back if it holds it. */
  function Moved(d: Daemon, c: nat, k: Client): Daemon {
    Daemon(if d.lock == Some(c) then None else d.lock, d.clients[c := k])
  }

  function Removed(f: Files, id: Id, stage: nat): Files {
    if stage == 0 then f.(requests := Drop(f.requests, id))
    else if stage == 1 then f.(active := Drop(f.active, id))
    else f.(responses := Drop(f.responses, id))
  }

  function CountStep(s: State, c: nat): State
    requires ClientEnabled(s, Count(c))
  {
    var e := s.daemon.clients[c].envelope;
    var n := Pending(s.files);
    if n + |s.files.responses| > 3 * MAX_PER_REPLICA || n >= MAX_PER_REPLICA then
      s.(daemon := Moved(s.daemon, c, Done(e, None)))
    else s.(daemon := s.daemon.(clients := s.daemon.clients[c := Publishing(e)]))
  }

  function PublishStep(s: State, c: nat): State
    requires ClientEnabled(s, Publish(c))
  {
    var e := s.daemon.clients[c].envelope;
    if e.id in s.files.requests then s.(daemon := Moved(s.daemon, c, Done(e, None)))
    else
      s.(daemon := Moved(s.daemon, c, Waiting(e)),
         files := s.files.(requests := s.files.requests[e.id := e]),
         past := s.past.(published := s.past.published[e.id := e]))
  }

  function PollStep(s: State, c: nat): State
    requires ClientEnabled(s, Poll(c))
  {
    var e := s.daemon.clients[c].envelope;
    var r := s.files.responses[e.id];
    s.(daemon := Moved(s.daemon, c, Cleaning(e, if AcceptsReply(e, r.reply) then Some(r) else None, 0)))
  }

  function CleanStep(s: State, c: nat): State
    requires ClientEnabled(s, Clean(c))
  {
    var k := s.daemon.clients[c];
    s.(files := Removed(s.files, k.envelope.id, k.stage),
       daemon := Moved(s.daemon, c, if k.stage < 2 then k.(stage := k.stage + 1) else Done(k.envelope, k.result)))
  }

  function ClientStep(s: State, step: Step): State
    requires ClientEnabled(s, step)
  {
    match step
    case Begin(c, e) =>
      s.(daemon := Daemon(Some(c), s.daemon.clients[c := Counting(e)]), past := s.past.(begun := s.past.begun + {e.id}))
    case Count(c) => CountStep(s, c)
    case Publish(c) => PublishStep(s, c)
    case Poll(c) => PollStep(s, c)
    case GiveUp(c) => s.(daemon := Moved(s.daemon, c, Cleaning(s.daemon.clients[c].envelope, None, 0)))
    case Clean(c) => CleanStep(s, c)
    case Die(c) =>
      s.(daemon := Daemon(if s.daemon.lock == Some(c) then None else s.daemon.lock, s.daemon.clients - {c}))
  }

  // The worker

  predicate Busy(w: Worker, thread: nat) {
    thread in w.tasks
  }

  predicate WorkerEnabled(s: State, step: Step) {
    var w := s.worker;
    match step
    case TakeRequest(t, id) => id in s.files.requests && !Busy(w, t)
    case OpenClaimed(t, _, _) => Busy(w, t) && w.tasks[t].Opening?
    case Discard(t) => Busy(w, t) && w.tasks[t].Discarding?
    case Answer(t, id, _, checked, _) =>
      id in w.claims && checked <= w.claims[id].deadlineMs && !Busy(w, t)
    case LookForResponse(t) => Busy(w, t) && w.tasks[t].Answering?
    case PlaceResponse(t) => Busy(w, t) && w.tasks[t].Placing?
    case Forget(t) => Busy(w, t) && w.tasks[t].Forgetting?
    case RemoveAnswered(t) => Busy(w, t) && w.tasks[t].Removing?
    case Expire(id) => id in w.claims
    case _ => false
  }

  function TakeStep(s: State, t: nat, id: Id): State
    requires WorkerEnabled(s, TakeRequest(t, id))
  {
    var n := if id in s.past.claimed then s.past.claimed[id] else 0;
    s.(files := s.files.(requests := Drop(s.files.requests, id), active := s.files.active[id := s.files.requests[id]]),
       worker := s.worker.(tasks := s.worker.tasks[t := Opening(id)]),
       past := s.past.(claimed := s.past.claimed[id := n + 1]))
  }

  function OpenStep(self: Target, s: State, t: nat, now: nat, routeReady: bool): State
    requires WorkerEnabled(s, OpenClaimed(t, now, routeReady))
  {
    var id := s.worker.tasks[t].id;
    if id in s.files.active && Deliverable(s.files.active[id], id, self, now, routeReady) then
      var e := s.files.active[id];
      s.(worker := Worker(s.worker.claims[id := Claim(e.target, e.deadlineMs, e)], s.worker.tasks - {t}))
    else s.(worker := s.worker.(tasks := s.worker.tasks[t := Discarding(id)]))
  }

  /**
   A response is composed from a copy of the claim. The deadline is checked against one reading of the clock and
   the reply is stamped with another.
   */
  function AnswerStep(s: State, t: nat, id: Id, body: string, checked: nat, stamped: nat): State
    requires WorkerEnabled(s, Answer(t, id, body, checked, stamped))
  {
    var claim := s.worker.claims[id];
    var r := Response(Reply(claim.target, id, stamped, body), claim.envelope);
    s.(worker := s.worker.(tasks := s.worker.tasks[t := Answering(id, r)]))
  }

  /** A response that is already there ends the attempt. */
  function LookStep(s: State, t: nat): State
    requires WorkerEnabled(s, LookForResponse(t))
  {
    var task := s.worker.tasks[t];
    if task.id in s.files.responses then s.(worker := s.worker.(tasks := s.worker.tasks - {t}))
    else s.(worker := s.worker.(tasks := s.worker.tasks[t := Placing(task.id, task.response)]))
  }

  /** The rename replaces whatever has been placed since. */
  function PlaceStep(s: State, t: nat): State
    requires WorkerEnabled(s, PlaceResponse(t))
  {
    var task := s.worker.tasks[t];
    s.(files := s.files.(responses := s.files.responses[task.id := task.response]),
       worker := s.worker.(tasks := s.worker.tasks[t := Forgetting(task.id)]))
  }

  function WorkerStep(self: Target, s: State, step: Step): State
    requires WorkerEnabled(s, step)
  {
    var w := s.worker;
    match step
    case TakeRequest(t, id) => TakeStep(s, t, id)
    case OpenClaimed(t, now, routeReady) => OpenStep(self, s, t, now, routeReady)
    case Discard(t) => s.(files := Removed(s.files, w.tasks[t].id, 1), worker := w.(tasks := w.tasks - {t}))
    case Answer(t, id, body, checked, stamped) => AnswerStep(s, t, id, body, checked, stamped)
    case LookForResponse(t) => LookStep(s, t)
    case PlaceResponse(t) => PlaceStep(s, t)
    case Forget(t) => s.(worker := Worker(Drop(w.claims, w.tasks[t].id), w.tasks[t := Removing(w.tasks[t].id)]))
    case RemoveAnswered(t) => s.(files := Removed(s.files, w.tasks[t].id, 1), worker := w.(tasks := w.tasks - {t}))
    case Expire(id) => s.(worker := w.(claims := Drop(w.claims, id)))
  }

  // Runs

  predicate Enabled(s: State, step: Step) {
    ClientEnabled(s, step) || WorkerEnabled(s, step)
  }

  function After(self: Target, s: State, step: Step): State
    requires Enabled(s, step)
  {
    if ClientEnabled(s, step) then ClientStep(s, step) else WorkerStep(self, s, step)
  }

  predicate IsRun(self: Target, s: State, run: seq<Step>)
    decreases |run|
  {
    run == [] || (Enabled(s, run[0]) && IsRun(self, After(self, s, run[0]), run[1..]))
  }

  function Final(self: Target, s: State, run: seq<Step>): State
    requires IsRun(self, s, run)
    decreases |run|
  {
    if run == [] then s else Final(self, After(self, s, run[0]), run[1..])
  }

  // The mailbox never overflows

  /** Only the holder of the lock is about to publish, and only below the limit. */
  ghost predicate Bounded(pending: nat, d: Daemon) {
    && pending <= MAX_PER_REPLICA
    && (forall c <- d.clients :: d.clients[c].Counting? || d.clients[c].Publishing? ==> d.lock == Some(c))
    && (forall c <- d.clients :: d.clients[c].Publishing? ==> pending < MAX_PER_REPLICA)
  }

  lemma DropSize<V>(m: map<Id, V>, id: Id)
    ensures |Drop(m, id)| <= |m|
    ensures id in m ==> |Drop(m, id)| == |m| - 1
  {
    assert Drop(m, id).Keys == m.Keys - {id};
    assert |Drop(m, id).Keys| == |Drop(m, id)| && |m.Keys| == |m|;
  }

  lemma InsertSize<V>(m: map<Id, V>, id: Id, v: V)
    ensures |m[id := v]| <= |m| + 1
  {
    assert m[id := v].Keys == m.Keys + {id};
    assert |m[id := v].Keys| == |m[id := v]| && |m.Keys| == |m|;
  }

  lemma RemovedSize(f: Files, id: Id, stage: nat)
    ensures Pending(Removed(f, id, stage)) <= Pending(f)
  {
    DropSize(f.requests, id);
    DropSize(f.active, id);
  }

  lemma TakenSize(s: State, t: nat, id: Id)
    requires WorkerEnabled(s, TakeRequest(t, id))
    ensures Pending(TakeStep(s, t, id).files) <= Pending(s.files)
  {
    DropSize(s.files.requests, id);
    InsertSize(s.files.active, id, s.files.requests[id]);
  }

  lemma WorkerPending(self: Target, s: State, step: Step)
    requires WorkerEnabled(s, step)
    ensures Pending(WorkerStep(self, s, step).files) <= Pending(s.files)
    ensures WorkerStep(self, s, step).daemon == s.daemon
  {
    match step
    case TakeRequest(t, id) => TakenSize(s, t, id);
    case Discard(t) => RemovedSize(s.files, s.worker.tasks[t].id, 1);
    case RemoveAnswered(t) => RemovedSize(s.files, s.worker.tasks[t].id, 1);
    case OpenClaimed(_, _, _) =>
    case Answer(_, _, _, _, _) =>
    case LookForResponse(_) =>
    case PlaceResponse(_) =>
    case Forget(_) =>
    case Expire(_) =>
  }

  lemma MovedBounded(n: nat, m: nat, d: Daemon, c: nat, k: Client)
    requires Bounded(n, d) && !k.Counting? && !k.Publishing?
    requires m <= n || (c in d.clients && d.clients[c].Publishing? && m <= n + 1)
    ensures Bounded(m, Moved(d, c, k))
  {
  }

  lemma PublishBounded(s: State, c: nat)
    requires Bounded(Pending(s.files), s.daemon) && ClientEnabled(s, Publish(c))
    ensures Bounded(Pending(PublishStep(s, c).files), PublishStep(s, c).daemon)
  {
    var e := s.daemon.clients[c].envelope;
    InsertSize(s.files.requests, e.id, e);
    var t := PublishStep(s, c);
    MovedBounded(Pending(s.files), Pending(t.files), s.daemon, c, t.daemon.clients[c]);
  }

  lemma CleanBounded(s: State, c: nat)
    requires Bounded(Pending(s.files), s.daemon) && ClientEnabled(s, Clean(c))
    ensures Bounded(Pending(CleanStep(s, c).files), CleanStep(s, c).daemon)
  {
    var k := s.daemon.clients[c];
    RemovedSize(s.files, k.envelope.id, k.stage);
    var t := CleanStep(s, c);
    MovedBounded(Pending(s.files), Pending(t.files), s.daemon, c, t.daemon.clients[c]);
  }

  lemma ClientBounded(s: State, step: Step)
    requires Bounded(Pending(s.files), s.daemon) && ClientEnabled(s, step)
    ensures Bounded(Pending(ClientStep(s, step).files), ClientStep(s, step).daemon)
  {
    match step
    case Publish(c) => PublishBounded(s, c);
    case Clean(c) => CleanBounded(s, c);
    case Begin(_, _) =>
    case Count(_) =>
    case Poll(_) =>
    case GiveUp(_) =>
    case Die(_) =>
  }

  /**
   In every interleaving of clients and worker threads, whatever the identities, the mailbox holds at most
   16 requests and claims.
   */
  lemma {:induction false} MailboxIsBounded(self: Target, s: State, run: seq<Step>)
    requires Bounded(Pending(s.files), s.daemon) && IsRun(self, s, run)
    ensures Bounded(Pending(Final(self, s, run).files), Final(self, s, run).daemon)
    ensures Pending(Final(self, s, run).files) <= MAX_PER_REPLICA
    decreases |run|
  {
    if run != [] {
      if ClientEnabled(s, run[0]) { ClientBounded(s, run[0]); } else { WorkerPending(self, s, run[0]); }
      MailboxIsBounded(self, After(self, s, run[0]), run[1..]);
    }
  }
}
