/** Where the replies of the mailbox come from when request identities are not reused. */
module InvocationSafety {
  import opened Wrappers
  import opened Invocation

  /** Every file was published under its identity, and a claimed request is never a request again. */
  ghost predicate FilesOk(f: Files, p: Past) {
    && (forall id <- f.requests :: id in p.published && f.requests[id] == p.published[id] && id !in p.claimed)
    && (forall id <- f.active :: id in p.published && f.active[id] == p.published[id] && id in p.claimed)
    && (forall id <- p.claimed :: p.claimed[id] == 1 && id in p.published)
    && (forall id <- p.published :: p.published[id].id == id && id in p.begun)
  }

  /** `e` was published under its identity, claimed, and is addressed to this worker. */
  ghost predicate Delivered(self: Target, p: Past, id: Id, e: Envelope) {
    id in p.published && p.published[id] == e && id in p.claimed && SameRun(e.target, self)
  }

  /** The worker holds claims only on what it opened. */
  ghost predicate ClaimsOk(self: Target, claims: map<Id, Claim>, p: Past) {
    forall id <- claims ::
      Delivered(self, p, id, claims[id].envelope) && claims[id].target == claims[id].envelope.target
  }

  /** Every response was made for such a claim. */
  ghost predicate ResponseOk(self: Target, p: Past, id: Id, r: Response) {
    r.reply.id == id && Delivered(self, p, id, r.answers) && r.reply.target == r.answers.target
  }

  ghost predicate ResponsesOk(self: Target, responses: map<Id, Response>, p: Past) {
    forall id <- responses :: ResponseOk(self, p, id, responses[id])
  }

  /** So is every response that a thread is about to write. */
  ghost predicate TasksOk(self: Target, tasks: map<nat, Task>, p: Past) {
    forall t <- tasks :: tasks[t].Answering? || tasks[t].Placing? ==>
      ResponseOk(self, p, tasks[t].id, tasks[t].response)
  }

  function ResultOf(k: Client): Option<Response> {
    if k.Cleaning? || k.Done? then k.result else None
  }

  ghost predicate ClientOk(self: Target, k: Client, p: Past) {
    && k.envelope.id in p.begun
    && (k.Counting? || k.Publishing? ==> k.envelope.id !in p.published)
    && (k.Waiting? || k.Cleaning? || ResultOf(k).Some? ==>
          k.envelope.id in p.published && p.published[k.envelope.id] == k.envelope)
    && (ResultOf(k).Some? ==>
          && ResponseOk(self, p, k.envelope.id, ResultOf(k).value)
          && AcceptsReply(k.envelope, ResultOf(k).value.reply))
  }

  ghost predicate ClientsOk(self: Target, clients: map<nat, Client>, p: Past) {
    && (forall c <- clients :: ClientOk(self, clients[c], p))
    && (forall c, d :: c in clients && d in clients && c != d ==> clients[c].envelope.id != clients[d].envelope.id)
  }

  ghost predicate Inv(self: Target, s: State) {
    && FilesOk(s.files, s.past)
    && ClaimsOk(self, s.worker.claims, s.past)
    && TasksOk(self, s.worker.tasks, s.past)
    && ResponsesOk(self, s.files.responses, s.past)
    && ClientsOk(self, s.daemon.clients, s.past)
  }

  /** The run begins no two requests with one identity, nor one of `used`. */
  predicate DistinctIds(run: seq<Step>, used: set<Id>) {
    run == []
    || (if run[0].Begin? then run[0].envelope.id !in used && DistinctIds(run[1..], used + {run[0].envelope.id})
        else DistinctIds(run[1..], used))
  }

  // Steps of the worker

  /** A claim more leaves everything in place. */
  lemma PastFrame(self: Target, s: State, q: Past)
    requires Inv(self, s) && q.begun == s.past.begun && q.published == s.past.published
    requires forall id <- s.past.claimed :: id in q.claimed
    ensures ClaimsOk(self, s.worker.claims, q) && ResponsesOk(self, s.files.responses, q)
    ensures TasksOk(self, s.worker.tasks, q) && ClientsOk(self, s.daemon.clients, q)
  {
    forall c <- s.daemon.clients ensures ClientOk(self, s.daemon.clients[c], q) {
      assert ClientOk(self, s.daemon.clients[c], s.past);
    }
    forall id <- s.files.responses ensures ResponseOk(self, q, id, s.files.responses[id]) {
      assert ResponseOk(self, s.past, id, s.files.responses[id]);
    }
  }

  lemma FewerFiles(self: Target, f: Files, p: Past, id: Id, stage: nat)
    requires FilesOk(f, p) && ResponsesOk(self, f.responses, p)
    ensures FilesOk(Removed(f, id, stage), p) && ResponsesOk(self, Removed(f, id, stage).responses, p)
  {
  }

  lemma TakeKeeps(self: Target, s: State, t: nat, id: Id)
    requires Inv(self, s) && WorkerEnabled(s, TakeRequest(t, id))
    ensures Inv(self, TakeStep(s, t, id))
  {
    PastFrame(self, s, TakeStep(s, t, id).past);
    assert FilesOk(TakeStep(s, t, id).files, TakeStep(s, t, id).past);
  }

  lemma WorkerKeeps(self: Target, s: State, step: Step)
    requires Inv(self, s) && WorkerEnabled(s, step)
    ensures Inv(self, WorkerStep(self, s, step))
    ensures WorkerStep(self, s, step).past.begun == s.past.begun
  {
    match step
    case TakeRequest(t, id) => TakeKeeps(self, s, t, id);
    case OpenClaimed(t, now, routeReady) =>
    case Discard(t) => FewerFiles(self, s.files, s.past, s.worker.tasks[t].id, 1);
    case Answer(t, id, body, checked, stamped) =>
    case LookForResponse(t) =>
    case PlaceResponse(t) =>
    case Forget(t) =>
    case RemoveAnswered(t) => FewerFiles(self, s.files, s.past, s.worker.tasks[t].id, 1);
    case Expire(id) =>
  }

  // Steps of the clients

  lemma BeginKeeps(self: Target, s: State, c: nat, e: Envelope)
    requires Inv(self, s) && ClientEnabled(s, Begin(c, e)) && e.id !in s.past.begun
    ensures Inv(self, ClientStep(s, Begin(c, e)))
  {
    var t := ClientStep(s, Begin(c, e));
    var clients := s.daemon.clients;
    forall d <- clients ensures clients[d].envelope.id != e.id && ClientOk(self, clients[d], t.past) {
      assert ClientOk(self, clients[d], s.past);
    }
    assert ClientOk(self, Counting(e), t.past);
  }

  /** A client that moves on with its own envelope. */
  lemma ClientMoves(self: Target, clients: map<nat, Client>, p: Past, c: nat, k: Client)
    requires ClientsOk(self, clients, p) && c in clients && k.envelope == clients[c].envelope && ClientOk(self, k, p)
    ensures ClientsOk(self, clients[c := k], p)
  {
  }

  /** Nothing lies or is claimed under an identity that was not published. */
  lemma UnpublishedIsAbsent(self: Target, s: State, id: Id)
    requires Inv(self, s) && id !in s.past.published
    ensures id !in s.files.requests && id !in s.files.active && id !in s.files.responses && id !in s.worker.claims
    ensures id !in s.past.claimed
  {
  }

  /** Publishing under a new identity does not touch what holds of the others. */
  lemma PublishedFrame(self: Target, s: State, e: Envelope)
    requires Inv(self, s) && e.id !in s.past.published
    ensures var q := s.past.(published := s.past.published[e.id := e]);
            && ClaimsOk(self, s.worker.claims, q) && ResponsesOk(self, s.files.responses, q)
            && TasksOk(self, s.worker.tasks, q)
            && forall d <- s.daemon.clients ::
                 s.daemon.clients[d].envelope.id != e.id ==> ClientOk(self, s.daemon.clients[d], q)
  {
    var q := s.past.(published := s.past.published[e.id := e]);
    forall d <- s.daemon.clients | s.daemon.clients[d].envelope.id != e.id
      ensures ClientOk(self, s.daemon.clients[d], q)
    {
      assert ClientOk(self, s.daemon.clients[d], s.past);
    }
    forall id <- s.files.responses ensures ResponseOk(self, q, id, s.files.responses[id]) {
      assert ResponseOk(self, s.past, id, s.files.responses[id]);
    }
  }

  lemma PublishKeeps(self: Target, s: State, c: nat)
    requires Inv(self, s) && ClientEnabled(s, Publish(c))
    ensures Inv(self, PublishStep(s, c))
  {
    var e := s.daemon.clients[c].envelope;
    assert ClientOk(self, s.daemon.clients[c], s.past);
    UnpublishedIsAbsent(self, s, e.id);
    PublishedFrame(self, s, e);
    var t := PublishStep(s, c);
    assert ClientOk(self, Waiting(e), t.past);
    assert FilesOk(t.files, t.past);
  }

  lemma PollKeeps(self: Target, s: State, c: nat)
    requires Inv(self, s) && ClientEnabled(s, Poll(c))
    ensures Inv(self, PollStep(s, c))
  {
    assert ClientOk(self, s.daemon.clients[c], s.past);
    ClientMoves(self, s.daemon.clients, s.past, c, PollStep(s, c).daemon.clients[c]);
  }

  lemma CleanKeeps(self: Target, s: State, c: nat)
    requires Inv(self, s) && ClientEnabled(s, Clean(c))
    ensures Inv(self, CleanStep(s, c))
  {
    var k := s.daemon.clients[c];
    assert ClientOk(self, k, s.past);
    FewerFiles(self, s.files, s.past, k.envelope.id, k.stage);
    ClientMoves(self, s.daemon.clients, s.past, c, CleanStep(s, c).daemon.clients[c]);
  }

  lemma StageKeeps(self: Target, s: State, step: Step)
    requires Inv(self, s) && ClientEnabled(s, step) && (step.Count? || step.GiveUp?)
    ensures Inv(self, ClientStep(s, step))
  {
    assert ClientOk(self, s.daemon.clients[step.client], s.past);
    ClientMoves(self, s.daemon.clients, s.past, step.client, ClientStep(s, step).daemon.clients[step.client]);
  }

  lemma ClientKeeps(self: Target, s: State, step: Step)
    requires Inv(self, s) && ClientEnabled(s, step)
    requires step.Begin? ==> step.envelope.id !in s.past.begun
    ensures Inv(self, ClientStep(s, step))
    ensures ClientStep(s, step).past.begun == s.past.begun + (if step.Begin? then {step.envelope.id} else {})
  {
    match step
    case Begin(c, e) => BeginKeeps(self, s, c, e);
    case Count(c) => StageKeeps(self, s, step);
    case Publish(c) => PublishKeeps(self, s, c);
    case Poll(c) => PollKeeps(self, s, c);
    case GiveUp(c) => StageKeeps(self, s, step);
    case Clean(c) => CleanKeeps(self, s, c);
    case Die(c) =>
  }

  lemma {:induction false} RunKeeps(self: Target, s: State, run: seq<Step>)
    requires Inv(self, s) && IsRun(self, s, run) && DistinctIds(run, s.past.begun)
    ensures Inv(self, Final(self, s, run))
    decreases |run|
  {
    if run != [] {
      if ClientEnabled(s, run[0]) { ClientKeeps(self, s, run[0]); } else { WorkerKeeps(self, s, run[0]); }
      RunKeeps(self, After(self, s, run[0]), run[1..]);
    }
  }

  /** The reply was made in time, by the addressed worker, for its one claim of exactly this client's envelope. */
  ghost predicate Genuine(self: Target, p: Past, e: Envelope, r: Response) {
    && r.answers == e
    && r.reply.target == e.target && r.reply.id == e.id && r.reply.respondedAtMs <= e.deadlineMs
    && e.target.instance == self.instance && e.target.ordinal == self.ordinal
    && e.target.revision == self.revision && e.target.generation == self.generation
    && e.target.runId == self.runId
    && e.id in p.published && p.published[e.id] == e
    && e.id in p.claimed && p.claimed[e.id] == 1
  }

  /**
   In every interleaving of clients and worker that does not reuse request identities, a reply returned to a
   client was produced by the addressed worker for its own claim of that client's envelope.
   */
  lemma RepliesAreGenuine(self: Target, run: seq<Step>, c: nat)
    requires IsRun(self, QUIET, run) && DistinctIds(run, {})
    requires c in Final(self, QUIET, run).daemon.clients
    requires ResultOf(Final(self, QUIET, run).daemon.clients[c]).Some?
    ensures var s := Final(self, QUIET, run);
            var k := s.daemon.clients[c];
            Genuine(self, s.past, k.envelope, ResultOf(k).value)
  {
    RunKeeps(self, QUIET, run);
    var s := Final(self, QUIET, run);
    assert ClientOk(self, s.daemon.clients[c], s.past);
  }

  /** In every such interleaving, a publication is claimed at most once and never becomes a request again. */
  lemma ClaimedAtMostOnce(self: Target, run: seq<Step>, id: Id)
    requires IsRun(self, QUIET, run) && DistinctIds(run, {})
    ensures var s := Final(self, QUIET, run);
            id in s.past.claimed ==> s.past.claimed[id] == 1 && id in s.past.published && id !in s.files.requests
  {
    RunKeeps(self, QUIET, run);
  }

  // What single steps decide

  /** A client is given the response it finds if and only if target and identity are its own and it is in time. */
  lemma PollsExactly(s: State, c: nat)
    requires ClientEnabled(s, Poll(c))
    ensures var e := s.daemon.clients[c].envelope;
            var r := s.files.responses[e.id];
            PollStep(s, c).daemon.clients[c]
            == Cleaning(e, if r.reply.target == e.target && r.reply.id == e.id && r.reply.respondedAtMs <= e.deadlineMs
                           then Some(r) else None, 0)
  {
  }

  /**
   A claim is made if and only if the claimed file holds a request under its own identity, addressed to this run,
   not past its deadline and on a route that is ready; otherwise the file is to be discarded.
   */
  lemma ClaimsExactly(self: Target, s: State, t: nat, now: nat, routeReady: bool)
    requires WorkerEnabled(s, OpenClaimed(t, now, routeReady))
    ensures var id := s.worker.tasks[t].id;
            var w := OpenStep(self, s, t, now, routeReady).worker;
            if && id in s.files.active
               && var e := s.files.active[id];
               && e.id == id && now <= e.deadlineMs && routeReady
               && e.target.(readiness := self.readiness) == self
            then
              var e := s.files.active[id];
              w.claims == s.worker.claims[id := Claim(e.target, e.deadlineMs, e)] && t !in w.tasks
            else w.claims == s.worker.claims && t in w.tasks && w.tasks[t] == Discarding(id)
  {
  }

  /** A client that has counted goes on to publish if and only if there is room for one more. */
  lemma AdmitsExactly(s: State, c: nat)
    requires ClientEnabled(s, Count(c))
    ensures var n := |s.files.requests| + |s.files.active|;
            CountStep(s, c).daemon.clients[c].Publishing? <==> n < 16 && n + |s.files.responses| <= 48
    ensures CountStep(s, c).files == s.files
  {
  }

  /** Publishing writes the request if and only if there is none under its identity. */
  lemma PublishesExactly(s: State, c: nat)
    requires ClientEnabled(s, Publish(c))
    ensures var e := s.daemon.clients[c].envelope;
            var t := PublishStep(s, c);
            if e.id in s.files.requests then t.files == s.files && t.daemon.clients[c] == Done(e, None)
            else t.files == s.files.(requests := s.files.requests[e.id := e]) && t.daemon.clients[c] == Waiting(e)
  {
  }

  /** The reply of an answer is addressed as its claim was, and carries the second reading of the clock. */
  lemma AnswersExactly(s: State, t: nat, id: Id, body: string, checked: nat, stamped: nat)
    requires id in s.worker.claims && t !in s.worker.tasks
    ensures WorkerEnabled(s, Answer(t, id, body, checked, stamped)) <==> checked <= s.worker.claims[id].deadlineMs
    ensures checked <= s.worker.claims[id].deadlineMs ==>
              var claim := s.worker.claims[id];
              AnswerStep(s, t, id, body, checked, stamped).worker.tasks
              == s.worker.tasks[t := Answering(id, Response(Reply(claim.target, id, stamped, body), claim.envelope))]
  {
  }

  /** A client that cleans up without interruption removes the three files of its identity and no other. */
  lemma CleansUp(s: State, c: nat, e: Envelope, result: Option<Response>)
    requires c in s.daemon.clients && s.daemon.clients[c] == Cleaning(e, result, 0)
    ensures var t := CleanStep(s, c);
            ClientEnabled(t, Clean(c)) && ClientEnabled(CleanStep(t, c), Clean(c))
    ensures var t := CleanStep(CleanStep(CleanStep(s, c), c), c);
            && t.daemon.clients[c] == Done(e, result)
            && t.files == Files(s.files.requests - {e.id}, s.files.active - {e.id}, s.files.responses - {e.id})
  {
  }

  /** A response that is placed without interruption ends the claim and removes the claimed file. */
  lemma FinishesAnswer(self: Target, s: State, t: nat, id: Id, r: Response)
    requires t in s.worker.tasks && s.worker.tasks[t] == Answering(id, r) && id !in s.files.responses
    ensures var s1 := LookStep(s, t);
            && WorkerEnabled(s1, PlaceResponse(t))
            && var s2 := PlaceStep(s1, t);
            && WorkerEnabled(s2, Forget(t))
            && var s3 := WorkerStep(self, s2, Forget(t));
            && WorkerEnabled(s3, RemoveAnswered(t))
            && var s4 := WorkerStep(self, s3, RemoveAnswered(t));
            && s4.files.responses == s.files.responses[id := r] && s4.files.requests == s.files.requests
            && s4.files.active == s.files.active - {id}
            && s4.worker.claims == s.worker.claims - {id} && s4.worker.tasks == s.worker.tasks - {t}
  {
  }

  /** A response that is there already ends the attempt and leaves the files alone. */
  lemma KeepsResponse(s: State, t: nat)
    requires WorkerEnabled(s, LookForResponse(t)) && s.worker.tasks[t].id in s.files.responses
    ensures LookStep(s, t).files == s.files && t !in LookStep(s, t).worker.tasks
  {
  }

  /** A claimed file that is not deliverable is removed. */
  lemma Discards(self: Target, s: State, t: nat, id: Id)
    requires t in s.worker.tasks && s.worker.tasks[t] == Discarding(id)
    ensures var s1 := WorkerStep(self, s, Discard(t));
            && s1.files == s.files.(active := s.files.active - {id})
            && s1.worker == s.worker.(tasks := s.worker.tasks - {t})
  {
  }

  /** Taking a request moves its file. */
  lemma Takes(s: State, t: nat, id: Id)
    requires id in s.files.requests && t !in s.worker.tasks
    ensures WorkerEnabled(s, TakeRequest(t, id))
    ensures var s1 := TakeStep(s, t, id);
            && s1.files == s.files.(requests := s.files.requests - {id},
                                    active := s.files.active[id := s.files.requests[id]])
            && s1.worker == s.worker.(tasks := s.worker.tasks[t := Opening(id)])
  {
  }
}
