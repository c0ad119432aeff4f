/**
 When a request identity may be used again: exactly when nothing is left of the earlier use that could
 still bring the new client a reply made for another envelope.
 */
module InvocationReuse {
  import opened Wrappers
  import opened Invocation
  import opened InvocationSafety

  // The condition

  /** Opening a file with `x` would lead to a reply that the client of `e` accepts. */
  predicate Foreign(self: Target, e: Envelope, x: Envelope) {
    x != e && x.id == e.id && x.target == e.target && SameRun(x.target, self)
  }

  predicate ForeignClaim(e: Envelope, k: Claim) {
    k.envelope != e && k.target == e.target
  }

  predicate BeingOpened(w: Worker, id: Id) {
    exists t <- w.tasks :: w.tasks[t] == Opening(id)
  }

  /** The client of `e` would take the response, and it answers another envelope. */
  predicate Misdirects(e: Envelope, r: Response) {
    r.answers != e && AcceptsReply(e, r.reply)
  }

  predicate Composes(w: Worker, t: nat, e: Envelope) {
    t in w.tasks && w.tasks[t].Answering? && w.tasks[t].id == e.id && Misdirects(e, w.tasks[t].response)
  }

  predicate Places(w: Worker, t: nat, e: Envelope) {
    t in w.tasks && w.tasks[t].Placing? && w.tasks[t].id == e.id && Misdirects(e, w.tasks[t].response)
  }

  /** A thread has composed such a response and not yet looked whether there is one. */
  predicate BeingComposed(w: Worker, e: Envelope) {
    exists t <- w.tasks :: Composes(w, t, e)
  }

  /** A thread has looked and will put such a response in place whatever happens. */
  predicate BeingPlaced(w: Worker, e: Envelope) {
    exists t <- w.tasks :: Places(w, t, e)
  }

  /** A request, an opening, a claim or a composed response under the identity of `e` that is about another envelope. */
  predicate Source(self: Target, f: Files, w: Worker, e: Envelope) {
    || (e.id in f.requests && Foreign(self, e, f.requests[e.id]))
    || (e.id in f.active && BeingOpened(w, e.id) && Foreign(self, e, f.active[e.id]))
    || (e.id in w.claims && ForeignClaim(e, w.claims[e.id]))
    || BeingComposed(w, e)
  }

  /** A response under the identity of `e` that its client would take and that answers another envelope. */
  predicate Misleading(f: Files, e: Envelope) {
    e.id in f.responses && Misdirects(e, f.responses[e.id])
  }

  /** Another client of the same identity that will remove the files of that identity. */
  predicate Twin(d: Daemon, c: nat, id: Id) {
    exists b <- d.clients :: b != c && !d.clients[b].Done? && d.clients[b].envelope.id == id
  }

  /** A response that nobody else removes keeps a thread that looks for one from writing another. */
  predicate Blocked(s: State, c: nat, id: Id) {
    id in s.files.responses && !Twin(s.daemon, c, id)
  }

  predicate Threat(self: Target, s: State, c: nat, e: Envelope) {
    || Misleading(s.files, e) || BeingPlaced(s.worker, e)
    || (Source(self, s.files, s.worker, e) && !Blocked(s, c, e.id))
  }

  /** The client of `e` has not been given a reply to another envelope. */
  predicate Own(s: State, c: nat, e: Envelope) {
    var clients := s.daemon.clients;
    c in clients && clients[c].envelope == e && ResultOf(clients[c]).Some? ==> ResultOf(clients[c]).value.answers == e
  }

  /** The identity is not begun again. */
  predicate Once(run: seq<Step>, id: Id) {
    forall step <- run :: step.Begin? ==> step.envelope.id != id
  }

  /** A request that begins now is admitted. */
  predicate Room(f: Files) {
    Pending(f) < MAX_PER_REPLICA && Pending(f) + |f.responses| <= 3 * MAX_PER_REPLICA
  }

  // Without a threat every continuation is safe

  predicate Polling(s: State, c: nat, e: Envelope) {
    var clients := s.daemon.clients;
    && c in clients && clients[c].envelope == e
    && (clients[c].Counting? || clients[c].Publishing? || clients[c].Waiting?)
  }

  /** No other client of the identity is about to publish. */
  predicate TwinsHavePublished(d: Daemon, c: nat, id: Id) {
    forall b <- d.clients :: b != c && d.clients[b].envelope.id == id ==>
      !d.clients[b].Counting? && !d.clients[b].Publishing?
  }

  predicate Calm(self: Target, s: State, c: nat, e: Envelope) {
    && Own(s, c, e)
    && TwinsHavePublished(s.daemon, c, e.id)
    && (Polling(s, c, e) ==> !Threat(self, s, c, e))
  }

  /** Every task of `w'` is one of `w`, except that of thread `t`. */
  predicate TasksFrom(w: Worker, w': Worker, t: nat) {
    forall b <- w'.tasks :: b != t ==> b in w.tasks && w.tasks[b] == w'.tasks[b]
  }

  lemma OpeningsFrom(w: Worker, w': Worker, t: nat, id: Id)
    requires TasksFrom(w, w', t) && BeingOpened(w', id) && !(t in w'.tasks && w'.tasks[t] == Opening(id))
    ensures BeingOpened(w, id)
  {
    var b :| b in w'.tasks && w'.tasks[b] == Opening(id);
    assert b in w.tasks && w.tasks[b] == Opening(id);
  }

  lemma ComposedFrom(w: Worker, w': Worker, t: nat, e: Envelope)
    requires TasksFrom(w, w', t) && BeingComposed(w', e) && !Composes(w', t, e)
    ensures BeingComposed(w, e)
  {
    var b :| b in w'.tasks && Composes(w', b, e);
    assert Composes(w, b, e);
  }

  lemma PlacedFrom(w: Worker, w': Worker, t: nat, e: Envelope)
    requires TasksFrom(w, w', t) && BeingPlaced(w', e) && !Places(w', t, e)
    ensures BeingPlaced(w, e)
  {
    var b :| b in w'.tasks && Places(w', b, e);
    assert Places(w, b, e);
  }

  /** A step after which thread `t` neither opens nor writes adds nothing to the tasks that matter. */
  lemma NoNewTask(w: Worker, w': Worker, t: nat, e: Envelope)
    requires TasksFrom(w, w', t)
    requires t in w'.tasks ==> w'.tasks[t].Discarding? || w'.tasks[t].Forgetting? || w'.tasks[t].Removing?
    ensures BeingOpened(w', e.id) ==> BeingOpened(w, e.id)
    ensures BeingComposed(w', e) ==> BeingComposed(w, e)
    ensures BeingPlaced(w', e) ==> BeingPlaced(w, e)
  {
    if BeingOpened(w', e.id) { OpeningsFrom(w, w', t, e.id); }
    if BeingComposed(w', e) { ComposedFrom(w, w', t, e); }
    if BeingPlaced(w', e) { PlacedFrom(w, w', t, e); }
  }

  lemma TakeCalm(self: Target, s: State, c: nat, e: Envelope, t: nat, id: Id)
    requires Calm(self, s, c, e) && WorkerEnabled(s, TakeRequest(t, id))
    ensures Calm(self, TakeStep(s, t, id), c, e)
  {
    var s' := TakeStep(s, t, id);
    var w, w' := s.worker, s'.worker;
    if BeingComposed(w', e) { ComposedFrom(w, w', t, e); }
    if BeingPlaced(w', e) { PlacedFrom(w, w', t, e); }
    if BeingOpened(w', e.id) && id != e.id { OpeningsFrom(w, w', t, e.id); }
  }

  lemma OpenCalm(self: Target, s: State, c: nat, e: Envelope, t: nat, now: nat, routeReady: bool)
    requires Calm(self, s, c, e) && WorkerEnabled(s, OpenClaimed(t, now, routeReady))
    ensures Calm(self, OpenStep(self, s, t, now, routeReady), c, e)
  {
    NoNewTask(s.worker, OpenStep(self, s, t, now, routeReady).worker, t, e);
  }

  /** A response composed from a claim of the identity misdirects only if the claim is foreign. */
  lemma AnswerCalm(
    self: Target, s: State, c: nat, e: Envelope, t: nat, id: Id, body: string, checked: nat, stamped: nat)
    requires Calm(self, s, c, e) && WorkerEnabled(s, Answer(t, id, body, checked, stamped))
    ensures Calm(self, AnswerStep(s, t, id, body, checked, stamped), c, e)
  {
    var s' := AnswerStep(s, t, id, body, checked, stamped);
    var w, w' := s.worker, s'.worker;
    if BeingPlaced(w', e) { PlacedFrom(w, w', t, e); }
    if BeingOpened(w', e.id) { OpeningsFrom(w, w', t, e.id); }
    if BeingComposed(w', e) && !Composes(w', t, e) { ComposedFrom(w, w', t, e); }
  }

  lemma LookCalm(self: Target, s: State, c: nat, e: Envelope, t: nat)
    requires Calm(self, s, c, e) && WorkerEnabled(s, LookForResponse(t))
    ensures Calm(self, LookStep(s, t), c, e)
  {
    var w, w' := s.worker, LookStep(s, t).worker;
    if BeingComposed(w', e) { ComposedFrom(w, w', t, e); }
    if BeingOpened(w', e.id) { OpeningsFrom(w, w', t, e.id); }
    if BeingPlaced(w', e) {
      if Places(w', t, e) {
        assert Composes(w, t, e);
      } else {
        PlacedFrom(w, w', t, e);
      }
    }
  }

  lemma PlaceCalm(self: Target, s: State, c: nat, e: Envelope, t: nat)
    requires Calm(self, s, c, e) && WorkerEnabled(s, PlaceResponse(t))
    ensures Calm(self, PlaceStep(s, t), c, e)
  {
    NoNewTask(s.worker, PlaceStep(s, t).worker, t, e);
    assert Places(s.worker, t, e) ==> BeingPlaced(s.worker, e);
  }

  lemma WorkerCalm(self: Target, s: State, c: nat, e: Envelope, step: Step)
    requires Calm(self, s, c, e) && WorkerEnabled(s, step)
    ensures Calm(self, WorkerStep(self, s, step), c, e)
  {
    match step
    case TakeRequest(t, id) => TakeCalm(self, s, c, e, t, id);
    case OpenClaimed(t, now, routeReady) => OpenCalm(self, s, c, e, t, now, routeReady);
    case Answer(t, id, body, checked, stamped) => AnswerCalm(self, s, c, e, t, id, body, checked, stamped);
    case LookForResponse(t) => LookCalm(self, s, c, e, t);
    case PlaceResponse(t) => PlaceCalm(self, s, c, e, t);
    case Discard(t) => NoNewTask(s.worker, WorkerStep(self, s, step).worker, t, e);
    case Forget(t) => NoNewTask(s.worker, WorkerStep(self, s, step).worker, t, e);
    case RemoveAnswered(t) => NoNewTask(s.worker, WorkerStep(self, s, step).worker, t, e);
    case Expire(id) =>
  }

  lemma FewerTwins(d: Daemon, d': Daemon, c: nat, id: Id)
    requires forall b <- d'.clients :: b != c && d'.clients[b].envelope.id == id ==>
               b in d.clients && d.clients[b].envelope.id == id && (d.clients[b].Done? ==> d'.clients[b].Done?)
    ensures Twin(d', c, id) ==> Twin(d, c, id)
  {
    if Twin(d', c, id) {
      var b :| b in d'.clients && b != c && !d'.clients[b].Done? && d'.clients[b].envelope.id == id;
      assert b in d.clients && !d.clients[b].Done? && d.clients[b].envelope.id == id;
    }
  }

  lemma CleanCalm(self: Target, s: State, c: nat, e: Envelope, b: nat)
    requires Calm(self, s, c, e) && ClientEnabled(s, Clean(b))
    ensures Calm(self, CleanStep(s, b), c, e)
  {
    FewerTwins(s.daemon, CleanStep(s, b).daemon, c, e.id);
    if b != c && s.daemon.clients[b].envelope.id == e.id {
      assert Twin(s.daemon, c, e.id);
    }
  }

  lemma PublishCalm(self: Target, s: State, c: nat, e: Envelope, b: nat)
    requires Calm(self, s, c, e) && ClientEnabled(s, Publish(b))
    ensures Calm(self, PublishStep(s, b), c, e)
  {
    FewerTwins(s.daemon, PublishStep(s, b).daemon, c, e.id);
  }

  lemma ClientCalm(self: Target, s: State, c: nat, e: Envelope, step: Step)
    requires Calm(self, s, c, e) && ClientEnabled(s, step) && (step.Begin? ==> step.envelope.id != e.id)
    ensures Calm(self, ClientStep(s, step), c, e)
  {
    if step.Clean? {
      CleanCalm(self, s, c, e, step.client);
    } else if step.Publish? {
      PublishCalm(self, s, c, e, step.client);
    } else {
      FewerTwins(s.daemon, ClientStep(s, step).daemon, c, e.id);
    }
  }

  lemma {:induction false} RunIsCalm(self: Target, s: State, c: nat, e: Envelope, run: seq<Step>)
    requires Calm(self, s, c, e) && IsRun(self, s, run) && Once(run, e.id)
    ensures Own(Final(self, s, run), c, e)
    decreases |run|
  {
    if run != [] {
      assert run[0] in run;
      if ClientEnabled(s, run[0]) { ClientCalm(self, s, c, e, run[0]); } else { WorkerCalm(self, s, c, e, run[0]); }
      RunIsCalm(self, After(self, s, run[0]), c, e, run[1..]);
    }
  }

  /** Beginning without a threat. */
  lemma BeginsCalm(self: Target, s: State, c: nat, e: Envelope)
    requires Bounded(Pending(s.files), s.daemon) && ClientEnabled(s, Begin(c, e)) && !Threat(self, s, c, e)
    ensures Calm(self, ClientStep(s, Begin(c, e)), c, e)
  {
    FewerTwins(s.daemon, ClientStep(s, Begin(c, e)).daemon, c, e.id);
  }

  // With a threat some continuation is not

  /** A run leads from `s` to `t` without beginning the identity again. */
  ghost predicate Leads(self: Target, s: State, t: State, id: Id) {
    exists run :: IsRun(self, s, run) && Once(run, id) && Final(self, s, run) == t
  }

  lemma {:induction false} RunsJoin(self: Target, s: State, a: seq<Step>, b: seq<Step>)
    requires IsRun(self, s, a) && IsRun(self, Final(self, s, a), b)
    ensures IsRun(self, s, a + b) && Final(self, s, a + b) == Final(self, Final(self, s, a), b)
    decreases |a|
  {
    if a == [] {
      assert a + b == b;
    } else {
      assert (a + b)[1..] == a[1..] + b;
      RunsJoin(self, After(self, s, a[0]), a[1..], b);
    }
  }

  lemma LeadsOn(self: Target, s: State, t: State, u: State, id: Id)
    requires Leads(self, s, t, id) && Leads(self, t, u, id)
    ensures Leads(self, s, u, id)
  {
    var a :| IsRun(self, s, a) && Once(a, id) && Final(self, s, a) == t;
    var b :| IsRun(self, t, b) && Once(b, id) && Final(self, t, b) == u;
    RunsJoin(self, s, a, b);
    assert Once(a + b, id);
  }

  lemma LeadsNowhere(self: Target, s: State, id: Id)
    ensures Leads(self, s, s, id)
  {
    assert IsRun(self, s, []) && Once([], id) && Final(self, s, []) == s;
  }

  lemma LeadsStep(self: Target, s: State, step: Step, id: Id)
    requires Enabled(s, step) && (step.Begin? ==> step.envelope.id != id)
    ensures Leads(self, s, After(self, s, step), id)
  {
    var t := After(self, s, step);
    assert [step][1..] == [];
    assert IsRun(self, t, []) && Final(self, t, []) == t;
    assert IsRun(self, s, [step]) && Once([step], id) && Final(self, s, [step]) == t;
  }

  lemma IdleThread(w: Worker) returns (t: nat)
    ensures t !in w.tasks
  {
    t := Above(w.tasks.Keys);
  }

  lemma {:induction false} Above(threads: set<nat>) returns (t: nat)
    ensures forall u <- threads :: u < t
  {
    if threads == {} {
      t := 0;
    } else {
      var u :| u in threads;
      t := Above(threads - {u});
      t := if t <= u then u + 1 else t;
      assert forall v <- threads :: v == u || v in threads - {u};
    }
  }

  /** The client of `e` has been counted and is about to publish. */
  predicate AboutToPublish(s: State, c: nat, e: Envelope) {
    c in s.daemon.clients && s.daemon.clients[c] == Publishing(e)
  }

  /** The client of `e` has been given a reply to another envelope. */
  lemma MisleadingIsRead(self: Target, s: State, c: nat, e: Envelope) returns (t: State)
    requires AboutToPublish(s, c, e) && Misleading(s.files, e) && e.id !in s.files.requests
    ensures Leads(self, s, t, e.id) && !Own(t, c, e)
  {
    LeadsStep(self, s, Publish(c), e.id);
    var s1 := PublishStep(s, c);
    LeadsStep(self, s1, Poll(c), e.id);
    t := PollStep(s1, c);
    LeadsOn(self, s, s1, t, e.id);
  }

  lemma MisleadingIsTaken(self: Target, s: State, c: nat, e: Envelope) returns (t: State)
    requires AboutToPublish(s, c, e) && Misleading(s.files, e)
    ensures Leads(self, s, t, e.id) && !Own(t, c, e)
  {
    if e.id in s.files.requests {
      var thread := IdleThread(s.worker);
      LeadsStep(self, s, TakeRequest(thread, e.id), e.id);
      var s1 := TakeStep(s, thread, e.id);
      t := MisleadingIsRead(self, s1, c, e);
      LeadsOn(self, s, s1, t, e.id);
    } else {
      t := MisleadingIsRead(self, s, c, e);
    }
  }

  predicate HoldsForeignClaim(w: Worker, e: Envelope) {
    e.id in w.claims && ForeignClaim(e, w.claims[e.id])
  }

  lemma PlacedMisleads(self: Target, s: State, c: nat, e: Envelope, thread: nat) returns (t: State)
    requires AboutToPublish(s, c, e) && Places(s.worker, thread, e)
    ensures Leads(self, s, t, e.id) && !Own(t, c, e)
  {
    LeadsStep(self, s, PlaceResponse(thread), e.id);
    var s1 := PlaceStep(s, thread);
    t := MisleadingIsTaken(self, s1, c, e);
    LeadsOn(self, s, s1, t, e.id);
  }

  lemma ComposedIsPlaced(self: Target, s: State, c: nat, e: Envelope, thread: nat) returns (t: State)
    requires AboutToPublish(s, c, e) && Composes(s.worker, thread, e) && e.id !in s.files.responses
    ensures Leads(self, s, t, e.id) && !Own(t, c, e)
  {
    LeadsStep(self, s, LookForResponse(thread), e.id);
    var s1 := LookStep(s, thread);
    t := PlacedMisleads(self, s1, c, e, thread);
    LeadsOn(self, s, s1, t, e.id);
  }

  /** A twin that is cleaning up goes on until the response is gone. */
  lemma {:induction false} TwinCleans(self: Target, s: State, c: nat, e: Envelope, b: nat, thread: nat)
    returns (t: State)
    requires AboutToPublish(s, c, e) && Composes(s.worker, thread, e)
    requires b != c && b in s.daemon.clients && s.daemon.clients[b].Cleaning? && s.daemon.clients[b].envelope.id == e.id
    ensures Leads(self, s, t, e.id) && !Own(t, c, e)
    decreases 3 - s.daemon.clients[b].stage
  {
    LeadsStep(self, s, Clean(b), e.id);
    var s1 := CleanStep(s, b);
    if s.daemon.clients[b].stage < 2 {
      t := TwinCleans(self, s1, c, e, b, thread);
    } else {
      t := ComposedIsPlaced(self, s1, c, e, thread);
    }
    LeadsOn(self, s, s1, t, e.id);
  }

  lemma ComposedMisleads(self: Target, s: State, c: nat, e: Envelope, thread: nat) returns (t: State)
    requires AboutToPublish(s, c, e) && Composes(s.worker, thread, e) && !Blocked(s, c, e.id)
    requires TwinsHavePublished(s.daemon, c, e.id)
    ensures Leads(self, s, t, e.id) && !Own(t, c, e)
  {
    if e.id !in s.files.responses {
      t := ComposedIsPlaced(self, s, c, e, thread);
    } else {
      var b :| b in s.daemon.clients && b != c && !s.daemon.clients[b].Done? && s.daemon.clients[b].envelope.id == e.id;
      if s.daemon.clients[b].Waiting? {
        LeadsStep(self, s, GiveUp(b), e.id);
        var s1 := ClientStep(s, GiveUp(b));
        t := TwinCleans(self, s1, c, e, b, thread);
        LeadsOn(self, s, s1, t, e.id);
      } else {
        t := TwinCleans(self, s, c, e, b, thread);
      }
    }
  }

  lemma ForeignClaimMisleads(self: Target, s: State, c: nat, e: Envelope) returns (t: State)
    requires AboutToPublish(s, c, e) && HoldsForeignClaim(s.worker, e) && !Blocked(s, c, e.id)
    requires TwinsHavePublished(s.daemon, c, e.id)
    ensures Leads(self, s, t, e.id) && !Own(t, c, e)
  {
    var thread := IdleThread(s.worker);
    LeadsStep(self, s, Answer(thread, e.id, "", 0, 0), e.id);
    var s1 := AnswerStep(s, thread, e.id, "", 0, 0);
    t := ComposedMisleads(self, s1, c, e, thread);
    LeadsOn(self, s, s1, t, e.id);
  }

  /** A file being opened with a foreign envelope becomes a foreign claim. */
  lemma OpeningMisleads(self: Target, s: State, c: nat, e: Envelope, thread: nat) returns (t: State)
    requires AboutToPublish(s, c, e) && TwinsHavePublished(s.daemon, c, e.id) && !Blocked(s, c, e.id)
    requires thread in s.worker.tasks && s.worker.tasks[thread] == Opening(e.id)
    requires e.id in s.files.active && Foreign(self, e, s.files.active[e.id])
    ensures Leads(self, s, t, e.id) && !Own(t, c, e)
  {
    LeadsStep(self, s, OpenClaimed(thread, 0, true), e.id);
    var s1 := OpenStep(self, s, thread, 0, true);
    t := ForeignClaimMisleads(self, s1, c, e);
    LeadsOn(self, s, s1, t, e.id);
  }

  lemma RequestMisleads(self: Target, s: State, c: nat, e: Envelope) returns (t: State)
    requires AboutToPublish(s, c, e) && TwinsHavePublished(s.daemon, c, e.id) && !Blocked(s, c, e.id)
    requires e.id in s.files.requests && Foreign(self, e, s.files.requests[e.id])
    ensures Leads(self, s, t, e.id) && !Own(t, c, e)
  {
    var thread := IdleThread(s.worker);
    LeadsStep(self, s, TakeRequest(thread, e.id), e.id);
    var s1 := TakeStep(s, thread, e.id);
    t := OpeningMisleads(self, s1, c, e, thread);
    LeadsOn(self, s, s1, t, e.id);
  }

  lemma ThreatMisleads(self: Target, s: State, c: nat, e: Envelope) returns (t: State)
    requires AboutToPublish(s, c, e) && TwinsHavePublished(s.daemon, c, e.id) && Threat(self, s, c, e)
    ensures Leads(self, s, t, e.id) && !Own(t, c, e)
  {
    if Misleading(s.files, e) {
      t := MisleadingIsTaken(self, s, c, e);
    } else if BeingPlaced(s.worker, e) {
      var thread :| thread in s.worker.tasks && Places(s.worker, thread, e);
      t := PlacedMisleads(self, s, c, e, thread);
    } else if e.id in s.files.requests && Foreign(self, e, s.files.requests[e.id]) {
      t := RequestMisleads(self, s, c, e);
    } else if HoldsForeignClaim(s.worker, e) {
      t := ForeignClaimMisleads(self, s, c, e);
    } else if BeingComposed(s.worker, e) {
      var thread :| thread in s.worker.tasks && Composes(s.worker, thread, e);
      t := ComposedMisleads(self, s, c, e, thread);
    } else {
      var thread :| thread in s.worker.tasks && s.worker.tasks[thread] == Opening(e.id);
      t := OpeningMisleads(self, s, c, e, thread);
    }
  }

  /** Beginning and being counted leaves the threat in place. */
  lemma BeginsThreatened(self: Target, s: State, c: nat, e: Envelope) returns (t: State)
    requires Bounded(Pending(s.files), s.daemon) && ClientEnabled(s, Begin(c, e)) && Room(s.files)
    requires Threat(self, s, c, e)
    ensures Leads(self, ClientStep(s, Begin(c, e)), t, e.id) && !Own(t, c, e)
  {
    var s1 := ClientStep(s, Begin(c, e));
    LeadsStep(self, s1, Count(c), e.id);
    var s2 := CountStep(s1, c);
    FewerTwins(s.daemon, s2.daemon, c, e.id);
    FewerTwins(s2.daemon, s.daemon, c, e.id);
    t := ThreatMisleads(self, s2, c, e);
    LeadsOn(self, s1, s2, t, e.id);
  }

  /** Every continuation that does not begin the identity again gives the client of `e` only replies to `e`. */
  ghost predicate SafeToBegin(self: Target, s: State, c: nat, e: Envelope)
    requires ClientEnabled(s, Begin(c, e))
  {
    var s1 := ClientStep(s, Begin(c, e));
    forall run :: IsRun(self, s1, run) && Once(run, e.id) ==> Own(Final(self, s1, run), c, e)
  }

  /**
   In any bounded mailbox that admits another request, an identity is safe to begin if and only if no response
   left or being placed under it would be taken for an answer to the new envelope, and no request, opening,
   claim or composed response left under it can still lead to one.
   */
  lemma ReuseIsSafeExactly(self: Target, s: State, c: nat, e: Envelope)
    requires Bounded(Pending(s.files), s.daemon) && ClientEnabled(s, Begin(c, e)) && Room(s.files)
    ensures SafeToBegin(self, s, c, e) <==> !Threat(self, s, c, e)
  {
    var s1 := ClientStep(s, Begin(c, e));
    if Threat(self, s, c, e) {
      var t := BeginsThreatened(self, s, c, e);
      var run :| IsRun(self, s1, run) && Once(run, e.id) && Final(self, s1, run) == t;
    } else {
      BeginsCalm(self, s, c, e);
      forall run | IsRun(self, s1, run) && Once(run, e.id) ensures Own(Final(self, s1, run), c, e) {
        RunIsCalm(self, s1, c, e, run);
      }
    }
  }

  // A threat is reached: the first client dies after the worker has claimed its request

  const HERE := Target("api", 1, 1, "g", "run", "ready")
  const REUSED := Id("r")
  const OTHER := Id("s")
  const FIRST := Envelope(REUSED, HERE, 10, "first")
  const SECOND := Envelope(REUSED, HERE, 10, "second")

  const S1 := QUIET.(daemon := Daemon(Some(1), map[1 := Counting(FIRST)]), past := Past({REUSED}, map[], map[]))
  const S2 := S1.(daemon := Daemon(Some(1), map[1 := Publishing(FIRST)]))
  const S3 := State(
    Files(map[REUSED := FIRST], map[], map[]), QUIET.worker, Daemon(None, map[1 := Waiting(FIRST)]),
    Past({REUSED}, map[REUSED := FIRST], map[]))
  const S4 := State(
    Files(map[], map[REUSED := FIRST], map[]), Worker(map[], map[0 := Opening(REUSED)]), S3.daemon,
    Past({REUSED}, map[REUSED := FIRST], map[REUSED := 1]))
  const S5 := S4.(worker := Worker(map[REUSED := Claim(HERE, 10, FIRST)], map[]))
  const S6 := S5.(daemon := Daemon(None, map[]))

  lemma FirstBegins()
    ensures Leads(HERE, QUIET, S1, OTHER)
  {
    assert OTHER != REUSED;
    assert ClientStep(QUIET, Begin(1, FIRST)) == S1;
    LeadsStep(HERE, QUIET, Begin(1, FIRST), OTHER);
  }

  lemma FirstCounts()
    ensures Leads(HERE, S1, S2, OTHER)
  {
    assert CountStep(S1, 1) == S2;
    LeadsStep(HERE, S1, Count(1), OTHER);
  }

  lemma FirstPublishes()
    ensures Leads(HERE, S2, S3, OTHER)
  {
    assert PublishStep(S2, 1) == S3;
    LeadsStep(HERE, S2, Publish(1), OTHER);
  }

  lemma WorkerClaims()
    ensures Leads(HERE, S3, S5, OTHER)
  {
    assert Drop(S3.files.requests, REUSED) == map[];
    assert TakeStep(S3, 0, REUSED) == S4;
    LeadsStep(HERE, S3, TakeRequest(0, REUSED), OTHER);
    assert S4.worker.tasks - {0} == map[];
    assert OpenStep(HERE, S4, 0, 0, true) == S5;
    LeadsStep(HERE, S4, OpenClaimed(0, 0, true), OTHER);
    LeadsOn(HERE, S3, S4, S5, OTHER);
  }

  /** A reachable mailbox in which the used identity is not safe: its next client can be given the stale reply. */
  lemma ReusedIdentityGetsStaleReply()
    ensures Leads(HERE, QUIET, S6, OTHER)
    ensures ClientEnabled(S6, Begin(2, SECOND)) && !SafeToBegin(HERE, S6, 2, SECOND)
  {
    FirstBegins();
    FirstCounts();
    LeadsOn(HERE, QUIET, S1, S2, OTHER);
    FirstPublishes();
    LeadsOn(HERE, QUIET, S2, S3, OTHER);
    WorkerClaims();
    LeadsOn(HERE, QUIET, S3, S5, OTHER);
    assert S5.daemon.clients - {1} == map[];
    assert ClientStep(S5, Die(1)) == S6;
    LeadsStep(HERE, S5, Die(1), OTHER);
    LeadsOn(HERE, QUIET, S5, S6, OTHER);
    assert FIRST != SECOND;
    assert |S6.files.active| == 1;
    ReuseIsSafeExactly(HERE, S6, 2, SECOND);
  }
}
