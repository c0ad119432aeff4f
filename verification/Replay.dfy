/**
 The daemon's replay cache: a request is accepted once, within a freshness window around its issue time.
 The specification takes the three limits as a parameter, so that the time bound can be stated exactly.
 */
module Replay {
  import opened Wrappers

  /** Greatest clock skew, retention of accepted identities and capacity. */
  datatype Limits = Limits(skewMs: nat, retentionMs: nat, capacity: nat)

  const MAX_CLOCK_SKEW_MS: nat := 30_000
  const RETENTION_MS: nat := 60_000
  const MAX_REMEMBERED: nat := 4096

  const DAEMON_LIMITS := Limits(MAX_CLOCK_SKEW_MS, RETENTION_MS, MAX_REMEMBERED)

  datatype Call = Call(id: string, issuedAtMs: nat, nowMs: nat)

  datatype Error = OutsideWindow | AlreadyUsed | CacheFull

  type Cache = map<string, nat>

  function AbsDiff(a: nat, b: nat): nat {
    if a < b then b - a else a - b
  }

  function Cutoff(l: Limits, now: nat): nat {
    if now < l.retentionMs then 0 else now - l.retentionMs
  }

  function Retained(seen: Cache, cutoff: nat): Cache {
    seen - (set id | id in seen && seen[id] < cutoff)
  }

  function Decide(l: Limits, seen: Cache, c: Call): (Result<(), Error>, Cache) {
    if AbsDiff(c.nowMs, c.issuedAtMs) > l.skewMs then (Err(OutsideWindow), seen)
    else
      var kept := Retained(seen, Cutoff(l, c.nowMs));
      if c.id in kept then (Err(AlreadyUsed), kept)
      else if |kept| >= l.capacity then (Err(CacheFull), kept)
      else (Ok(()), kept[c.id := c.nowMs])
  }

  class ReplayCache {
    var seen: Cache

    constructor ()
      ensures seen == map[]
    {
      seen := map[];
    }

    method Accept(id: string, issuedAtMs: nat, nowMs: nat) returns (r: Result<(), Error>)
      modifies this
      ensures (r, seen) == Decide(DAEMON_LIMITS, old(seen), Call(id, issuedAtMs, nowMs))
    {
      if AbsDiff(nowMs, issuedAtMs) > MAX_CLOCK_SKEW_MS {
        return Err(OutsideWindow);
      }
      var cutoff := if nowMs < RETENTION_MS then 0 else nowMs - RETENTION_MS;
      seen := seen - (set id | id in seen && seen[id] < cutoff);
      if id in seen {
        return Err(AlreadyUsed);
      }
      if |seen| >= MAX_REMEMBERED {
        return Err(CacheFull);
      }
      seen := seen[id := nowMs];
      return Ok(());
    }
  }

  // Runs

  /** The cache and the calls accepted so far, oldest first. */
  datatype History = History(seen: Cache, accepted: seq<Call>)

  function Handle(l: Limits, h: History, c: Call): History {
    var (r, seen) := Decide(l, h.seen, c);
    History(seen, if r.Ok? then h.accepted + [c] else h.accepted)
  }

  function Run(l: Limits, calls: seq<Call>): History {
    if calls == [] then History(map[], [])
    else Handle(l, Run(l, calls[..|calls| - 1]), calls[|calls| - 1])
  }

  predicate ClockAdvances(calls: seq<Call>) {
    forall i, j :: 0 <= i < j < |calls| ==> calls[i].nowMs <= calls[j].nowMs
  }

  /** The identities accepted at or after `cutoff`. */
  function Since(accepted: seq<Call>, cutoff: nat): set<string> {
    set c | c in accepted && c.nowMs >= cutoff :: c.id
  }

  /** From `cutoff` on, the cache remembers exactly the accepted identities. */
  ghost predicate Remembers(h: History, cutoff: nat) {
    forall t :: t >= cutoff ==> Retained(h.seen, t).Keys == Since(h.accepted, t)
  }

  lemma SinceGrows(accepted: seq<Call>, c: Call, t: nat)
    ensures Since(accepted + [c], t) == Since(accepted, t) + (if c.nowMs >= t then {c.id} else {})
  {
    forall id ensures id in Since(accepted + [c], t) <==> id in Since(accepted, t) || (c.nowMs >= t && id == c.id) {
      if id in Since(accepted, t) {
        var a :| a in accepted && a.nowMs >= t && a.id == id;
        assert a in accepted + [c];
      }
      if c.nowMs >= t && id == c.id {
        assert c in accepted + [c];
      }
    }
  }

  lemma RetainedTwice(seen: Cache, cutoff: nat, t: nat)
    requires t >= cutoff
    ensures Retained(Retained(seen, cutoff), t) == Retained(seen, t)
  {
  }

  lemma RetainedInsert(seen: Cache, id: string, now: nat, t: nat)
    requires id !in seen
    ensures Retained(seen[id := now], t).Keys == Retained(seen, t).Keys + (if now >= t then {id} else {})
  {
  }

  lemma HandleRemembersAt(l: Limits, h: History, c: Call, t: nat)
    requires t >= Cutoff(l, c.nowMs)
    requires Retained(h.seen, t).Keys == Since(h.accepted, t)
    ensures Retained(Handle(l, h, c).seen, t).Keys == Since(Handle(l, h, c).accepted, t)
  {
    var kept := Retained(h.seen, Cutoff(l, c.nowMs));
    RetainedTwice(h.seen, Cutoff(l, c.nowMs), t);
    if AbsDiff(c.nowMs, c.issuedAtMs) > l.skewMs {
      assert Handle(l, h, c) == h;
    } else if c.id in kept || |kept| >= l.capacity {
      assert Handle(l, h, c) == History(kept, h.accepted);
    } else {
      assert Handle(l, h, c) == History(kept[c.id := c.nowMs], h.accepted + [c]);
      SinceGrows(h.accepted, c, t);
      RetainedInsert(kept, c.id, c.nowMs, t);
    }
  }

  lemma HandleRemembers(l: Limits, h: History, c: Call, cutoff: nat)
    requires Remembers(h, cutoff) && cutoff <= Cutoff(l, c.nowMs)
    ensures Remembers(Handle(l, h, c), Cutoff(l, c.nowMs))
  {
    forall t | t >= Cutoff(l, c.nowMs)
      ensures Retained(Handle(l, h, c).seen, t).Keys == Since(Handle(l, h, c).accepted, t)
    {
      HandleRemembersAt(l, h, c, t);
    }
  }

  lemma {:induction false} RunRemembers(l: Limits, calls: seq<Call>)
    requires ClockAdvances(calls)
    ensures Remembers(Run(l, calls), if calls == [] then 0 else Cutoff(l, calls[|calls| - 1].nowMs))
  {
    if calls != [] {
      var n := |calls| - 1;
      RunRemembers(l, calls[..n]);
      assert n > 0 ==> calls[..n][n - 1].nowMs <= calls[n].nowMs;
      HandleRemembers(l, Run(l, calls[..n]), calls[n], if n == 0 then 0 else Cutoff(l, calls[n - 1].nowMs));
    } else {
      var h := Run(l, calls);
      forall t: nat ensures Retained(h.seen, t).Keys == Since(h.accepted, t) {
      }
    }
  }

  /**
   The exact verdict over every run with a nondecreasing clock: a call is accepted if and only if it is
   fresh, its identity was not accepted within the retention time, and fewer identities than the
   capacity were.
   */
  lemma AcceptedExactly(l: Limits, calls: seq<Call>, c: Call)
    requires ClockAdvances(calls + [c])
    ensures var h := Run(l, calls);
            var recent := Since(h.accepted, Cutoff(l, c.nowMs));
            Decide(l, h.seen, c).0.Ok? <==>
              AbsDiff(c.nowMs, c.issuedAtMs) <= l.skewMs && c.id !in recent && |recent| < l.capacity
  {
    assert ClockAdvances(calls) by {
      assert forall i :: 0 <= i < |calls| ==> calls[i] == (calls + [c])[i];
    }
    RunRemembers(l, calls);
    assert calls != [] ==> (calls + [c])[|calls| - 1].nowMs <= (calls + [c])[|calls|].nowMs;
    var h := Run(l, calls);
    var cutoff := Cutoff(l, c.nowMs);
    assert Retained(h.seen, cutoff).Keys == Since(h.accepted, cutoff);
    assert |Retained(h.seen, cutoff)| == |Retained(h.seen, cutoff).Keys|;
  }

  // No request is accepted twice

  predicate NoReplay(accepted: seq<Call>) {
    forall i, j :: 0 <= i < j < |accepted| ==>
      accepted[i].id != accepted[j].id || accepted[i].issuedAtMs != accepted[j].issuedAtMs
  }

  /** Every accepted call came in no later than the last call of the run, and was fresh. */
  lemma {:induction false} AcceptedAreFresh(l: Limits, calls: seq<Call>)
    requires ClockAdvances(calls)
    ensures forall c <- Run(l, calls).accepted ::
              AbsDiff(c.nowMs, c.issuedAtMs) <= l.skewMs && c.nowMs <= calls[|calls| - 1].nowMs && calls != []
  {
    if calls != [] {
      var n := |calls| - 1;
      AcceptedAreFresh(l, calls[..n]);
      assert n > 0 ==> calls[..n][n - 1].nowMs <= calls[n].nowMs;
    }
  }

  lemma {:induction false} RetentionPreventsReplay(l: Limits, calls: seq<Call>)
    requires l.retentionMs >= 2 * l.skewMs && ClockAdvances(calls)
    ensures NoReplay(Run(l, calls).accepted)
  {
    if calls != [] {
      var n := |calls| - 1;
      var c := calls[n];
      var before := Run(l, calls[..n]);
      RetentionPreventsReplay(l, calls[..n]);
      AcceptedAreFresh(l, calls[..n]);
      assert calls[..n] + [c] == calls;
      AcceptedExactly(l, calls[..n], c);
      if Decide(l, before.seen, c).0.Ok? {
        forall a <- before.accepted ensures a.id != c.id || a.issuedAtMs != c.issuedAtMs {
          if a.id == c.id {
            assert a.nowMs < Cutoff(l, c.nowMs);
          }
        }
      }
    }
  }

  /** The run that replays a request at both ends of its freshness window. */
  function ReplayRun(l: Limits): seq<Call> {
    [Call("r", l.skewMs, 0), Call("r", l.skewMs, 2 * l.skewMs)]
  }

  lemma ShortRetentionReplays(l: Limits)
    requires l.retentionMs < 2 * l.skewMs && l.capacity > 0
    ensures ClockAdvances(ReplayRun(l))
    ensures !NoReplay(Run(l, ReplayRun(l)).accepted)
  {
    var calls := ReplayRun(l);
    assert calls[..1] == [calls[0]] && calls[..1][..0] == [];
    var h0 := Run(l, []);
    assert Retained(h0.seen, 0) == map[];
    var h1 := Run(l, calls[..1]);
    assert h1 == Handle(l, h0, calls[0]);
    assert h1.accepted == [calls[0]] && h1.seen == map["r" := 0];
    assert Retained(h1.seen, Cutoff(l, calls[1].nowMs)) == map[];
    assert Run(l, calls).accepted == calls;
  }

  /** Replays are impossible over all runs with a nondecreasing clock if and only if retention covers twice the skew. */
  lemma RetentionBoundIsExact(l: Limits)
    requires l.capacity > 0
    ensures (forall calls :: ClockAdvances(calls) ==> NoReplay(Run(l, calls).accepted)) <==>
            l.retentionMs >= 2 * l.skewMs
  {
    if l.retentionMs >= 2 * l.skewMs {
      forall calls | ClockAdvances(calls) ensures NoReplay(Run(l, calls).accepted) {
        RetentionPreventsReplay(l, calls);
      }
    } else {
      ShortRetentionReplays(l);
    }
  }

  lemma RetainedSize(seen: Cache, cutoff: nat)
    ensures |Retained(seen, cutoff)| <= |seen|
  {
    var kept := Retained(seen, cutoff);
    assert seen.Keys == kept.Keys + (seen.Keys - kept.Keys);
    assert |seen.Keys| == |seen| && |kept.Keys| == |kept|;
  }

  /** The daemon's cache never exceeds its capacity and never lets a request through twice. */
  lemma {:induction false} DaemonCacheIsSafe(calls: seq<Call>)
    ensures |Run(DAEMON_LIMITS, calls).seen| <= MAX_REMEMBERED
    ensures ClockAdvances(calls) ==> NoReplay(Run(DAEMON_LIMITS, calls).accepted)
  {
    if calls != [] {
      var n := |calls| - 1;
      DaemonCacheIsSafe(calls[..n]);
      var before := Run(DAEMON_LIMITS, calls[..n]);
      RetainedSize(before.seen, Cutoff(DAEMON_LIMITS, calls[n].nowMs));
    }
    if ClockAdvances(calls) {
      RetentionPreventsReplay(DAEMON_LIMITS, calls);
    }
  }

  /** The daemon's verdict: fresh within 30 seconds, not accepted in the last 60, and fewer than 4096 that were. */
  lemma DaemonAcceptsExactly(calls: seq<Call>, c: Call)
    requires ClockAdvances(calls + [c])
    ensures var accepted := Run(DAEMON_LIMITS, calls).accepted;
            var recent := set a | a in accepted && a.nowMs + 60_000 >= c.nowMs :: a.id;
            Decide(DAEMON_LIMITS, Run(DAEMON_LIMITS, calls).seen, c).0.Ok? <==>
              && c.nowMs <= c.issuedAtMs + 30_000 && c.issuedAtMs <= c.nowMs + 30_000
              && c.id !in recent && |recent| < 4096
  {
    AcceptedExactly(DAEMON_LIMITS, calls, c);
    var accepted := Run(DAEMON_LIMITS, calls).accepted;
    assert (set a | a in accepted && a.nowMs + 60_000 >= c.nowMs :: a.id)
           == Since(accepted, Cutoff(DAEMON_LIMITS, c.nowMs));
  }
}
