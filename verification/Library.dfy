/**
 Capability approval in the installed library: what a launch may use, over every run of installs,
 grants, revocations, launches and reopenings, when any write of the document may fail.
 Version precedence is a function value; it stands for the order of semantic versions.
 */
module Libraries {
  import opened Wrappers
  import opened AssetRoot
  import opened CapabilityDigest
  import opened VersionOrder

  const MAX_LAUNCH_HISTORY: nat := 4096
  const U64_MAX: nat := 0xFFFF_FFFF_FFFF_FFFF

  datatype Installed = Installed(packageSha: string, requested: set<Capability>)

  datatype PersistentGrant = PersistentGrant(capabilities: set<Capability>, approved: Digest)

  datatype Launch = Launch(id: nat, cartridge: string, version: string)

  type Versions = map<string, Installed>

  datatype Document = Document(
    installed: map<string, Versions>,
    grants: map<string, PersistentGrant>,
    safeMode: set<string>,
    history: seq<Launch>)

  datatype LibraryError =
    | NotInstalled
    | NotRequested
    | Immutable
    | NotAdmitted
    | SafeMode
    | ApprovalRequired(missing: set<Capability>)
    | SaveFailed

  /** How writing the document ended: done, refused with the old file in place, or failed after the new one was. */
  datatype SaveOutcome = Written | KeptOld | FailedLate

  /**
   What the user decided and when the document reached the disk, in order: a history variable that no
   operation reads.
   */
  datatype Entry =
    | Granted(id: string, capabilities: set<Capability>, persistent: bool, requested: set<Capability>, session: nat)
    | Revoked(id: string, capability: Option<Capability>, session: nat)
    | Stored(session: nat)

  /** The library in memory, the document on disk, and the history. */
  datatype State = State(
    document: Document,
    sessionGrants: map<string, set<Capability>>,
    stored: Document,
    session: nat,
    ledger: seq<Entry>)

  datatype Preflight = Preflight(
    version: string,
    requested: set<Capability>,
    granted: set<Capability>,
    missing: set<Capability>)

  // Operations as functions of the state

  ghost function InstalledVersion(precedes: Precedence, d: Document, id: string, version: Option<string>)
    : Result<(string, Installed), LibraryError>
  {
    if id !in d.installed then Err(NotInstalled)
    else
      var versions := d.installed[id];
      var v := if version.Some? then version.value else Newest(precedes, versions.Keys);
      if v in versions then Ok((v, versions[v])) else Err(NotInstalled)
  }

  function SetOf(m: map<string, set<Capability>>, id: string): set<Capability> {
    if id in m then m[id] else {}
  }

  /** What the persistent grant of `id` allows a version that requests `requested`. */
  function PersistentlyGranted(sha: Sha, d: Document, id: string, requested: set<Capability>): set<Capability> {
    if id in d.grants && d.grants[id].approved == RequestDigest(sha, requested) then d.grants[id].capabilities else {}
  }

  ghost function PreflightOf(sha: Sha, precedes: Precedence, s: State, id: string, version: Option<string>)
    : Result<Preflight, LibraryError>
  {
    match InstalledVersion(precedes, s.document, id, version)
    case Err(e) => Err(e)
    case Ok((v, installed)) =>
      var granted := (PersistentlyGranted(sha, s.document, id, installed.requested) + SetOf(s.sessionGrants, id))
                     * installed.requested;
      Ok(Preflight(v, installed.requested, granted, installed.requested - granted))
  }

  function Persist(s: State, outcome: SaveOutcome): (Result<(), LibraryError>, State) {
    (if outcome.Written? then Ok(()) else Err(SaveFailed),
     if outcome.KeptOld? then s else s.(stored := s.document, ledger := s.ledger + [Stored(s.session)]))
  }

  ghost function GrantCapabilities(
    sha: Sha, precedes: Precedence, s: State, id: string, capabilities: set<Capability>, persistent: bool,
    outcome: SaveOutcome): (Result<(), LibraryError>, State)
  {
    match InstalledVersion(precedes, s.document, id, None)
    case Err(e) => (Err(e), s)
    case Ok((_, installed)) =>
      if !(capabilities <= installed.requested) then (Err(NotRequested), s)
      else
        var entry := Granted(id, capabilities, persistent, installed.requested, s.session);
        var noted := s.(ledger := s.ledger + [entry]);
        if persistent then
          var digest := RequestDigest(sha, installed.requested);
          var kept := PersistentlyGranted(sha, s.document, id, installed.requested);
          var grant := PersistentGrant(kept + capabilities, digest);
          Persist(noted.(document := s.document.(grants := s.document.grants[id := grant])), outcome)
        else
          (Ok(()),
           noted.(sessionGrants := s.sessionGrants[id := SetOf(s.sessionGrants, id) + capabilities]))
  }

  function Without(s: State, id: string, capability: Option<Capability>): State {
    match capability
    case Some(c) =>
      s.(document := s.document.(grants :=
           if id in s.document.grants then
             var grant := s.document.grants[id];
             s.document.grants[id := grant.(capabilities := grant.capabilities - {c})]
           else s.document.grants),
         sessionGrants := if id in s.sessionGrants then s.sessionGrants[id := s.sessionGrants[id] - {c}]
                          else s.sessionGrants)
    case None =>
      s.(document := s.document.(grants := s.document.grants - {id}), sessionGrants := s.sessionGrants - {id})
  }

  function Revoke(s: State, id: string, capability: Option<Capability>, outcome: SaveOutcome)
    : (Result<(), LibraryError>, State)
  {
    var entry := Revoked(id, capability, s.session);
    Persist(Without(s.(ledger := s.ledger + [entry]), id, capability), outcome)
  }

  function NextLaunchId(history: seq<Launch>): nat {
    if history == [] then 1
    else if history[|history| - 1].id >= U64_MAX then U64_MAX
    else history[|history| - 1].id + 1
  }

  function Trim(history: seq<Launch>): seq<Launch> {
    if |history| > MAX_LAUNCH_HISTORY then history[|history| - MAX_LAUNCH_HISTORY..] else history
  }

  ghost function BeginLaunch(
    sha: Sha, precedes: Precedence, s: State, id: string, version: Option<string>, outcome: SaveOutcome)
    : (Result<Launch, LibraryError>, State)
  {
    if id in s.document.safeMode then (Err(SafeMode), s)
    else
      match PreflightOf(sha, precedes, s, id, version)
      case Err(e) => (Err(e), s)
      case Ok(p) =>
        if p.missing != {} then (Err(ApprovalRequired(p.missing)), s)
        else
          var launch := Launch(NextLaunchId(s.document.history), id, p.version);
          var history := Trim(s.document.history + [launch]);
          var (saved, t) := Persist(s.(document := s.document.(history := history)), outcome);
          (if saved.Ok? then Ok(launch) else Err(saved.error), t)
  }

  /** `admitted` is the verdict of the archive checks and of the package limit. */
  function Install(s: State, id: string, version: string, package: Installed, admitted: bool, outcome: SaveOutcome)
    : (Result<(), LibraryError>, State)
  {
    var versions := if id in s.document.installed then s.document.installed[id] else map[];
    if !admitted then (Err(NotAdmitted), s)
    else if version in versions then
      (if versions[version].packageSha == package.packageSha then Ok(()) else Err(Immutable), s)
    else
      var installed := s.document.installed[id := versions[version := package]];
      Persist(s.(document := s.document.(installed := installed)), outcome)
  }

  /** Any operation that changes only health and history: finishing a launch, resetting safe mode and the like. */
  function Bookkeep(s: State, safeMode: set<string>, history: seq<Launch>, outcome: SaveOutcome)
    : (Result<(), LibraryError>, State)
  {
    Persist(s.(document := s.document.(safeMode := safeMode, history := history)), outcome)
  }

  /** Opens the stored document again, whose interrupted launches are closed; session grants are gone. */
  function Reopen(s: State, safeMode: set<string>, history: seq<Launch>, outcome: SaveOutcome)
    : (Result<(), LibraryError>, State)
  {
    Bookkeep(Reread(s), safeMode, history, outcome)
  }

  function Reread(s: State): State {
    s.(document := s.stored, sessionGrants := map[], session := s.session + 1)
  }

  // The library as an object

  class Library {
    const sha: Sha
    const precedes: Precedence
    var document: Document
    var sessionGrants: map<string, set<Capability>>
    ghost var stored: Document
    ghost var session: nat
    ghost var ledger: seq<Entry>

    ghost function View(): State
      reads this
    {
      State(document, sessionGrants, stored, session, ledger)
    }

    constructor (sha: Sha, precedes: Precedence, document: Document)
      ensures this.sha == sha && this.precedes == precedes
      ensures View() == State(document, map[], document, 0, [])
    {
      this.sha, this.precedes := sha, precedes;
      this.document, sessionGrants := document, map[];
      stored, session, ledger := document, 0, [];
    }

    /** Finds the newest version by comparing all of them. */
    method FindNewest(versions: set<string>) returns (newest: Option<string>)
      requires StrictTotal(precedes)
      ensures newest.None? <==> versions == {}
      ensures newest.Some? ==> newest.value == Newest(precedes, versions) && IsNewest(precedes, versions, newest.value)
    {
      newest := None;
      var rest := versions;
      while rest != {}
        invariant rest <= versions
        invariant newest.None? <==> rest == versions
        invariant newest.Some? ==> IsNewest(precedes, versions - rest, newest.value)
        decreases rest
      {
        var v :| v in rest;
        if newest.None? || precedes(newest.value, v) {
          newest := Some(v);
        }
        rest := rest - {v};
      }
      if newest.Some? {
        assert versions - rest == versions;
      }
    }

    method FindInstalled(id: string, version: Option<string>) returns (r: Result<(string, Installed), LibraryError>)
      requires StrictTotal(precedes)
      ensures r == InstalledVersion(precedes, document, id, version)
    {
      if id !in document.installed {
        return Err(NotInstalled);
      }
      var versions := document.installed[id];
      if version.Some? {
        if version.value !in versions {
          return Err(NotInstalled);
        }
        return Ok((version.value, versions[version.value]));
      }
      var newest := FindNewest(versions.Keys);
      if newest.None? {
        return Err(NotInstalled);
      }
      return Ok((newest.value, versions[newest.value]));
    }

    method CheckPreflight(id: string, version: Option<string>) returns (r: Result<Preflight, LibraryError>)
      requires StrictTotal(precedes)
      ensures r == PreflightOf(sha, precedes, View(), id, version)
    {
      var found := FindInstalled(id, version);
      if found.Err? {
        return Err(found.error);
      }
      var requested := found.value.1.requested;
      var granted: set<Capability> := {};
      if id in document.grants {
        if document.grants[id].approved == RequestDigest(sha, requested) {
          granted := document.grants[id].capabilities;
        }
      }
      if id in sessionGrants {
        granted := granted + sessionGrants[id];
      }
      assert granted == PersistentlyGranted(sha, document, id, requested) + SetOf(sessionGrants, id);
      granted := granted * requested;
      return Ok(Preflight(found.value.0, requested, granted, requested - granted));
    }

    method Save(outcome: SaveOutcome) returns (r: Result<(), LibraryError>)
      modifies this
      ensures (r, View()) == Persist(old(View()), outcome)
    {
      if !outcome.KeptOld? {
        stored := document;
        ledger := ledger + [Stored(session)];
      }
      if !outcome.Written? {
        return Err(SaveFailed);
      }
      return Ok(());
    }

    method Grant(id: string, capabilities: set<Capability>, persistent: bool, outcome: SaveOutcome)
      returns (r: Result<(), LibraryError>)
      requires StrictTotal(precedes)
      modifies this
      ensures (r, View()) == GrantCapabilities(sha, precedes, old(View()), id, capabilities, persistent, outcome)
    {
      var found := FindInstalled(id, None);
      if found.Err? {
        return Err(found.error);
      }
      var requested := found.value.1.requested;
      if !(capabilities <= requested) {
        return Err(NotRequested);
      }
      ledger := ledger + [Granted(id, capabilities, persistent, requested, session)];
      if persistent {
        var digest := RequestDigest(sha, requested);
        var grants := document.grants;
        if id !in grants {
          grants := grants[id := PersistentGrant({}, digest)];
        }
        var grant := grants[id];
        if grant.approved != digest {
          grant := PersistentGrant({}, digest);
        }
        grant := grant.(capabilities := grant.capabilities + capabilities);
        document := document.(grants := grants[id := grant]);
        assert grants[id := grant] == old(document).grants[id := grant];
        r := Save(outcome);
      } else {
        var session := if id in sessionGrants then sessionGrants[id] else {};
        sessionGrants := sessionGrants[id := session + capabilities];
        return Ok(());
      }
    }

    method RevokeGrant(id: string, capability: Option<Capability>, outcome: SaveOutcome)
      returns (r: Result<(), LibraryError>)
      modifies this
      ensures (r, View()) == Revoke(old(View()), id, capability, outcome)
    {
      ledger := ledger + [Revoked(id, capability, session)];
      if capability.Some? {
        if id in document.grants {
          var grant := document.grants[id];
          grant := grant.(capabilities := grant.capabilities - {capability.value});
          document := document.(grants := document.grants[id := grant]);
        }
        if id in sessionGrants {
          sessionGrants := sessionGrants[id := sessionGrants[id] - {capability.value}];
        }
      } else {
        document := document.(grants := document.grants - {id});
        sessionGrants := sessionGrants - {id};
      }
      r := Save(outcome);
    }

    method LaunchVersion(id: string, version: Option<string>, outcome: SaveOutcome)
      returns (r: Result<Launch, LibraryError>)
      requires StrictTotal(precedes)
      modifies this
      ensures (r, View()) == BeginLaunch(sha, precedes, old(View()), id, version, outcome)
    {
      if id in document.safeMode {
        return Err(SafeMode);
      }
      var preflight := CheckPreflight(id, version);
      if preflight.Err? {
        return Err(preflight.error);
      }
      if preflight.value.missing != {} {
        return Err(ApprovalRequired(preflight.value.missing));
      }
      var launch := Launch(NextLaunchId(document.history), id, preflight.value.version);
      var history := document.history + [launch];
      if |history| > MAX_LAUNCH_HISTORY {
        history := history[|history| - MAX_LAUNCH_HISTORY..];
      }
      document := document.(history := history);
      var saved := Save(outcome);
      if saved.Err? {
        return Err(saved.error);
      }
      return Ok(launch);
    }
  }

  // Which grants stand

  predicate Withdraws(e: Entry, id: string, c: Capability) {
    e.Revoked? && e.id == id && (e.capability.None? || e.capability.value == c)
  }

  predicate Grants(e: Entry, id: string, c: Capability) {
    e.Granted? && e.id == id && c in e.capabilities
  }

  /** A persistent grant for a request with another digest discards what was approved before. */
  predicate Supersedes(sha: Sha, e: Entry, id: string, approved: Digest) {
    e.Granted? && e.persistent && e.id == id && RequestDigest(sha, e.requested) != approved
  }

  /** After entry `k` the document reached the disk while the session of that entry lasted. */
  ghost predicate StoredAfter(ledger: seq<Entry>, k: nat)
    requires k < |ledger|
  {
    exists j :: k < j < |ledger| && ledger[j] == Stored(ledger[k].session)
  }

  /** A decision is in force in its own session at once, and in later ones if it reached the disk. */
  ghost predicate InForce(ledger: seq<Entry>, session: nat, k: nat)
    requires k < |ledger|
  {
    ledger[k].session == session || StoredAfter(ledger, k)
  }

  /** A persistent grant stands until a revocation in force withdraws it or a grant in force supersedes it. */
  ghost predicate StandsPersistently(
    sha: Sha, ledger: seq<Entry>, session: nat, id: string, c: Capability, approved: Digest, k: nat)
    requires k < |ledger|
  {
    && Grants(ledger[k], id, c) && ledger[k].persistent && RequestDigest(sha, ledger[k].requested) == approved
    && InForce(ledger, session, k)
    && forall j :: k < j < |ledger| && (Withdraws(ledger[j], id, c) || Supersedes(sha, ledger[j], id, approved)) ==>
         !InForce(ledger, session, j)
  }

  /** A session grant stands in its own session until it is revoked. */
  ghost predicate StandsInSession(ledger: seq<Entry>, session: nat, id: string, c: Capability, k: nat)
    requires k < |ledger|
  {
    && Grants(ledger[k], id, c) && !ledger[k].persistent && ledger[k].session == session
    && forall j :: k < j < |ledger| ==> !Withdraws(ledger[j], id, c)
  }

  ghost predicate Backed(sha: Sha, ledger: seq<Entry>, session: nat, id: string, c: Capability, approved: Digest) {
    exists k :: 0 <= k < |ledger| && StandsPersistently(sha, ledger, session, id, c, approved, k)
  }

  ghost predicate SessionBacked(ledger: seq<Entry>, session: nat, id: string, c: Capability) {
    exists k :: 0 <= k < |ledger| && StandsInSession(ledger, session, id, c, k)
  }

  predicate Holds(grants: map<string, PersistentGrant>, id: string, c: Capability, approved: Digest) {
    id in grants && grants[id].approved == approved && c in grants[id].capabilities
  }

  /** The document holds exactly the persistent grants that stand. */
  ghost predicate Exact(sha: Sha, ledger: seq<Entry>, session: nat, grants: map<string, PersistentGrant>) {
    forall id, c, approved :: Holds(grants, id, c, approved) <==> Backed(sha, ledger, session, id, c, approved)
  }

  ghost predicate SessionsExact(ledger: seq<Entry>, session: nat, grants: map<string, set<Capability>>) {
    forall id, c :: c in SetOf(grants, id) <==> SessionBacked(ledger, session, id, c)
  }

  /** No entry of the ledger belongs to a session after `session`. */
  predicate Dated(ledger: seq<Entry>, session: nat) {
    forall k :: 0 <= k < |ledger| ==> ledger[k].session <= session
  }

  ghost predicate Inv(sha: Sha, s: State) {
    && Dated(s.ledger, s.session)
    && Exact(sha, s.ledger, s.session, s.document.grants)
    && Exact(sha, s.ledger, s.session + 1, s.stored.grants)
    && SessionsExact(s.ledger, s.session, s.sessionGrants)
  }

  // How an entry changes what stands

  lemma StoredAfterSnoc(ledger: seq<Entry>, e: Entry, k: nat)
    requires k < |ledger|
    ensures StoredAfter(ledger + [e], k) <==> StoredAfter(ledger, k) || e == Stored(ledger[k].session)
  {
    var l := ledger + [e];
    if StoredAfter(ledger, k) {
      var j :| k < j < |ledger| && ledger[j] == Stored(ledger[k].session);
      assert l[j] == Stored(l[k].session);
    }
    if e == Stored(ledger[k].session) {
      assert l[|ledger|] == Stored(l[k].session);
    }
  }

  /** In the running session the entries in force stay in force, and a new one is. */
  lemma InForceNow(ledger: seq<Entry>, session: nat, e: Entry, k: nat)
    requires e.session == session && k < |ledger|
    ensures InForce(ledger + [e], session, k) <==> InForce(ledger, session, k)
    ensures InForce(ledger + [e], session, |ledger|)
  {
    StoredAfterSnoc(ledger, e, k);
  }

  /** Until the document is written the next session would not know of an entry of this one. */
  lemma InForceNext(ledger: seq<Entry>, session: nat, e: Entry, k: nat)
    requires e.session == session && !e.Stored? && k < |ledger|
    ensures InForce(ledger + [e], session + 1, k) <==> InForce(ledger, session + 1, k)
    ensures !InForce(ledger + [e], session + 1, |ledger|)
  {
    StoredAfterSnoc(ledger, e, k);
  }

  /** Once it is written, the next session knows what this one knows. */
  lemma InForceStored(ledger: seq<Entry>, session: nat, k: nat)
    requires Dated(ledger, session) && k < |ledger|
    ensures InForce(ledger + [Stored(session)], session + 1, k) <==> InForce(ledger, session, k)
  {
    StoredAfterSnoc(ledger, Stored(session), k);
  }

  /** What stands depends only on the entries that are in force. */
  lemma SameBacked(
    sha: Sha, ledger: seq<Entry>, session: nat, e: Entry, session': nat, id: string, c: Capability, approved: Digest)
    requires forall k :: 0 <= k < |ledger| ==>
               (InForce(ledger + [e], session', k) <==> InForce(ledger, session, k))
    requires InForce(ledger + [e], session', |ledger|) ==>
               && !(Grants(e, id, c) && e.persistent && RequestDigest(sha, e.requested) == approved)
               && !Withdraws(e, id, c) && !Supersedes(sha, e, id, approved)
    ensures Backed(sha, ledger + [e], session', id, c, approved) <==> Backed(sha, ledger, session, id, c, approved)
  {
    var l := ledger + [e];
    if Backed(sha, ledger, session, id, c, approved) {
      var k :| 0 <= k < |ledger| && StandsPersistently(sha, ledger, session, id, c, approved, k);
      assert StandsPersistently(sha, l, session', id, c, approved, k);
    }
    if Backed(sha, l, session', id, c, approved) {
      var k :| 0 <= k < |l| && StandsPersistently(sha, l, session', id, c, approved, k);
      assert l[k] == ledger[k];
      forall j | k < j < |ledger| && (Withdraws(ledger[j], id, c) || Supersedes(sha, ledger[j], id, approved))
        ensures !InForce(ledger, session, j)
      {
        assert l[j] == ledger[j];
      }
      assert StandsPersistently(sha, ledger, session, id, c, approved, k);
    }
  }

  /** An entry in force that withdraws or supersedes ends a grant. */
  lemma EndsBacked(
    sha: Sha, ledger: seq<Entry>, session: nat, e: Entry, id: string, c: Capability, approved: Digest)
    requires e.session == session && (Withdraws(e, id, c) || Supersedes(sha, e, id, approved))
    ensures !Backed(sha, ledger + [e], session, id, c, approved)
  {
    var l := ledger + [e];
    assert l[|ledger|] == e && InForce(l, session, |ledger|);
  }

  lemma StartsBacked(
    sha: Sha, ledger: seq<Entry>, session: nat, e: Entry, id: string, c: Capability)
    requires e.session == session && Grants(e, id, c) && e.persistent
    ensures Backed(sha, ledger + [e], session, id, c, RequestDigest(sha, e.requested))
  {
    assert StandsPersistently(sha, ledger + [e], session, id, c, RequestDigest(sha, e.requested), |ledger|);
  }

  /** Session grants are unaffected by entries about other capabilities. */
  lemma SameSessionBacked(ledger: seq<Entry>, session: nat, e: Entry, id: string, c: Capability)
    requires !Withdraws(e, id, c) && !(Grants(e, id, c) && !e.persistent && e.session == session)
    ensures SessionBacked(ledger + [e], session, id, c) <==> SessionBacked(ledger, session, id, c)
  {
    var l := ledger + [e];
    if SessionBacked(ledger, session, id, c) {
      var k :| 0 <= k < |ledger| && StandsInSession(ledger, session, id, c, k);
      assert StandsInSession(l, session, id, c, k);
    }
    if SessionBacked(l, session, id, c) {
      var k :| 0 <= k < |l| && StandsInSession(l, session, id, c, k);
      assert forall j :: k < j < |ledger| ==> l[j] == ledger[j];
      assert StandsInSession(ledger, session, id, c, k);
    }
  }

  lemma SessionsAfterGrant(ledger: seq<Entry>, session: nat, e: Entry, grants: map<string, set<Capability>>)
    requires SessionsExact(ledger, session, grants) && e.Granted? && !e.persistent && e.session == session
    ensures SessionsExact(ledger + [e], session, grants[e.id := SetOf(grants, e.id) + e.capabilities])
  {
    var grants' := grants[e.id := SetOf(grants, e.id) + e.capabilities];
    forall id, c ensures c in SetOf(grants', id) <==> SessionBacked(ledger + [e], session, id, c) {
      if Grants(e, id, c) {
        assert StandsInSession(ledger + [e], session, id, c, |ledger|);
      } else {
        SameSessionBacked(ledger, session, e, id, c);
      }
    }
  }

  lemma SessionsAfterOther(ledger: seq<Entry>, session: nat, e: Entry, grants: map<string, set<Capability>>)
    requires SessionsExact(ledger, session, grants) && (e.Stored? || (e.Granted? && e.persistent))
    ensures SessionsExact(ledger + [e], session, grants)
  {
    forall id, c ensures c in SetOf(grants, id) <==> SessionBacked(ledger + [e], session, id, c) {
      SameSessionBacked(ledger, session, e, id, c);
    }
  }

  lemma SessionsAfterRevocation(
    ledger: seq<Entry>, session: nat, e: Entry, grants: map<string, set<Capability>>,
    grants': map<string, set<Capability>>)
    requires SessionsExact(ledger, session, grants) && e.Revoked?
    requires forall id, c :: c in SetOf(grants', id) <==> c in SetOf(grants, id) && !Withdraws(e, id, c)
    ensures SessionsExact(ledger + [e], session, grants')
  {
    forall id, c ensures c in SetOf(grants', id) <==> SessionBacked(ledger + [e], session, id, c) {
      if Withdraws(e, id, c) {
        assert (ledger + [e])[|ledger|] == e;
      } else {
        SameSessionBacked(ledger, session, e, id, c);
      }
    }
  }

  // The document after each kind of entry

  lemma ExactAfterGrant(
    sha: Sha, ledger: seq<Entry>, session: nat, e: Entry, grants: map<string, PersistentGrant>,
    grants': map<string, PersistentGrant>)
    requires Exact(sha, ledger, session, grants) && e.Granted? && e.persistent && e.session == session
    requires forall id, c, a :: Holds(grants', id, c, a) <==>
               if id != e.id then Holds(grants, id, c, a)
               else a == RequestDigest(sha, e.requested) && (c in e.capabilities || Holds(grants, id, c, a))
    ensures Exact(sha, ledger + [e], session, grants')
  {
    forall id, c, a ensures Holds(grants', id, c, a) <==> Backed(sha, ledger + [e], session, id, c, a) {
      if Supersedes(sha, e, id, a) {
        EndsBacked(sha, ledger, session, e, id, c, a);
      } else if Grants(e, id, c) {
        StartsBacked(sha, ledger, session, e, id, c);
      } else {
        forall k | 0 <= k < |ledger| ensures InForce(ledger + [e], session, k) <==> InForce(ledger, session, k) {
          InForceNow(ledger, session, e, k);
        }
        SameBacked(sha, ledger, session, e, session, id, c, a);
      }
    }
  }

  lemma ExactAfterRevocation(
    sha: Sha, ledger: seq<Entry>, session: nat, e: Entry, grants: map<string, PersistentGrant>,
    grants': map<string, PersistentGrant>)
    requires Exact(sha, ledger, session, grants) && e.Revoked? && e.session == session
    requires forall id, c, a :: Holds(grants', id, c, a) <==> Holds(grants, id, c, a) && !Withdraws(e, id, c)
    ensures Exact(sha, ledger + [e], session, grants')
  {
    forall id, c, a ensures Holds(grants', id, c, a) <==> Backed(sha, ledger + [e], session, id, c, a) {
      if Withdraws(e, id, c) {
        EndsBacked(sha, ledger, session, e, id, c, a);
      } else {
        forall k | 0 <= k < |ledger| ensures InForce(ledger + [e], session, k) <==> InForce(ledger, session, k) {
          InForceNow(ledger, session, e, k);
        }
        SameBacked(sha, ledger, session, e, session, id, c, a);
      }
    }
  }

  /** Entries that do not concern persistent grants leave the document exact. */
  lemma ExactAfterOther(
    sha: Sha, ledger: seq<Entry>, session: nat, e: Entry, grants: map<string, PersistentGrant>)
    requires Exact(sha, ledger, session, grants) && e.session == session
    requires e.Stored? || (e.Granted? && !e.persistent)
    ensures Exact(sha, ledger + [e], session, grants)
  {
    forall id, c, a ensures Holds(grants, id, c, a) <==> Backed(sha, ledger + [e], session, id, c, a) {
      forall k | 0 <= k < |ledger| ensures InForce(ledger + [e], session, k) <==> InForce(ledger, session, k) {
        InForceNow(ledger, session, e, k);
      }
      SameBacked(sha, ledger, session, e, session, id, c, a);
    }
  }

  /** The stored document stays exact for the next session until it is written again. */
  lemma StoredStaysExact(
    sha: Sha, ledger: seq<Entry>, session: nat, e: Entry, grants: map<string, PersistentGrant>)
    requires Exact(sha, ledger, session + 1, grants) && e.session == session && !e.Stored?
    ensures Exact(sha, ledger + [e], session + 1, grants)
  {
    var next := session + 1;
    forall id, c, a ensures Holds(grants, id, c, a) <==> Backed(sha, ledger + [e], next, id, c, a) {
      forall k | 0 <= k < |ledger| ensures InForce(ledger + [e], next, k) <==> InForce(ledger, next, k) {
        InForceNext(ledger, session, e, k);
      }
      assert !InForce(ledger + [e], next, |ledger|);
      SameBacked(sha, ledger, next, e, next, id, c, a);
    }
  }

  /** Writing the document makes it exact for the next session. */
  lemma WrittenIsExact(sha: Sha, ledger: seq<Entry>, session: nat, grants: map<string, PersistentGrant>)
    requires Dated(ledger, session) && Exact(sha, ledger, session, grants)
    ensures Exact(sha, ledger + [Stored(session)], session + 1, grants)
  {
    var e := Stored(session);
    forall id, c, a ensures Holds(grants, id, c, a) <==> Backed(sha, ledger + [e], session + 1, id, c, a) {
      forall k | 0 <= k < |ledger| ensures InForce(ledger + [e], session + 1, k) <==> InForce(ledger, session, k) {
        InForceStored(ledger, session, k);
      }
      SameBacked(sha, ledger, session, e, session + 1, id, c, a);
    }
  }

  // Operations

  /** Everything but the stored document is exact. */
  ghost predicate Ready(sha: Sha, s: State) {
    && Dated(s.ledger, s.session)
    && Exact(sha, s.ledger, s.session, s.document.grants)
    && SessionsExact(s.ledger, s.session, s.sessionGrants)
  }

  lemma PersistKeeps(sha: Sha, s: State, outcome: SaveOutcome)
    requires Ready(sha, s)
    requires outcome.KeptOld? ==> Exact(sha, s.ledger, s.session + 1, s.stored.grants)
    ensures Inv(sha, Persist(s, outcome).1)
  {
    if !outcome.KeptOld? {
      WrittenIsExact(sha, s.ledger, s.session, s.document.grants);
      ExactAfterOther(sha, s.ledger, s.session, Stored(s.session), s.document.grants);
      SessionsAfterOther(s.ledger, s.session, Stored(s.session), s.sessionGrants);
    }
  }

  lemma GrantKeeps(
    sha: Sha, precedes: Precedence, s: State, id: string, capabilities: set<Capability>, persistent: bool,
    outcome: SaveOutcome)
    requires Inv(sha, s)
    ensures Inv(sha, GrantCapabilities(sha, precedes, s, id, capabilities, persistent, outcome).1)
  {
    var found := InstalledVersion(precedes, s.document, id, None);
    if found.Ok? && capabilities <= found.value.1.requested {
      var requested := found.value.1.requested;
      var e := Granted(id, capabilities, persistent, requested, s.session);
      StoredStaysExact(sha, s.ledger, s.session, e, s.stored.grants);
      if persistent {
        var kept := PersistentlyGranted(sha, s.document, id, requested);
        var grants := s.document.grants[id := PersistentGrant(kept + capabilities, RequestDigest(sha, requested))];
        ExactAfterGrant(sha, s.ledger, s.session, e, s.document.grants, grants);
        SessionsAfterOther(s.ledger, s.session, e, s.sessionGrants);
        PersistKeeps(sha, s.(ledger := s.ledger + [e], document := s.document.(grants := grants)), outcome);
      } else {
        ExactAfterOther(sha, s.ledger, s.session, e, s.document.grants);
        SessionsAfterGrant(s.ledger, s.session, e, s.sessionGrants);
      }
    }
  }

  lemma RevokeKeeps(sha: Sha, s: State, id: string, capability: Option<Capability>, outcome: SaveOutcome)
    requires Inv(sha, s)
    ensures Inv(sha, Revoke(s, id, capability, outcome).1)
  {
    var e := Revoked(id, capability, s.session);
    var t := Without(s.(ledger := s.ledger + [e]), id, capability);
    StoredStaysExact(sha, s.ledger, s.session, e, s.stored.grants);
    ExactAfterRevocation(sha, s.ledger, s.session, e, s.document.grants, t.document.grants);
    SessionsAfterRevocation(s.ledger, s.session, e, s.sessionGrants, t.sessionGrants);
    PersistKeeps(sha, t, outcome);
  }

  // Runs

  datatype Step =
    | InstallStep(id: string, version: string, package: Installed, admitted: bool, outcome: SaveOutcome)
    | GrantStep(id: string, capabilities: set<Capability>, persistent: bool, outcome: SaveOutcome)
    | RevokeStep(id: string, capability: Option<Capability>, outcome: SaveOutcome)
    | LaunchStep(id: string, requestedVersion: Option<string>, outcome: SaveOutcome)
    | BookkeepStep(safeMode: set<string>, history: seq<Launch>, outcome: SaveOutcome)
    | ReopenStep(safeMode: set<string>, history: seq<Launch>, outcome: SaveOutcome)

  ghost function Take(sha: Sha, precedes: Precedence, s: State, step: Step): State {
    match step
    case InstallStep(id, version, package, admitted, outcome) => Install(s, id, version, package, admitted, outcome).1
    case GrantStep(id, capabilities, persistent, outcome) =>
      GrantCapabilities(sha, precedes, s, id, capabilities, persistent, outcome).1
    case RevokeStep(id, capability, outcome) => Revoke(s, id, capability, outcome).1
    case LaunchStep(id, version, outcome) => BeginLaunch(sha, precedes, s, id, version, outcome).1
    case BookkeepStep(safeMode, history, outcome) => Bookkeep(s, safeMode, history, outcome).1
    case ReopenStep(safeMode, history, outcome) => Reopen(s, safeMode, history, outcome).1
  }

  ghost function Final(sha: Sha, precedes: Precedence, s: State, run: seq<Step>): State
    decreases |run|
  {
    if run == [] then s else Final(sha, precedes, Take(sha, precedes, s, run[0]), run[1..])
  }

  /** A library without grants. */
  ghost predicate Fresh(s: State) {
    s == State(s.document, map[], s.document, 0, []) && s.document.grants == map[]
  }

  lemma StepKeeps(sha: Sha, precedes: Precedence, s: State, step: Step)
    requires Inv(sha, s)
    ensures Inv(sha, Take(sha, precedes, s, step))
  {
    match step
    case GrantStep(id, capabilities, persistent, outcome) =>
      GrantKeeps(sha, precedes, s, id, capabilities, persistent, outcome);
    case RevokeStep(id, capability, outcome) => RevokeKeeps(sha, s, id, capability, outcome);
    case InstallStep(id, version, package, admitted, outcome) =>
      InstallKeeps(sha, s, id, version, package, admitted, outcome);
    case LaunchStep(id, version, outcome) => LaunchKeeps(sha, precedes, s, id, version, outcome);
    case BookkeepStep(safeMode, history, outcome) => BookkeepKeeps(sha, s, safeMode, history, outcome);
    case ReopenStep(safeMode, history, outcome) => ReopenKeeps(sha, s, safeMode, history, outcome);
  }

  lemma InstallKeeps(
    sha: Sha, s: State, id: string, version: string, package: Installed, admitted: bool, outcome: SaveOutcome)
    requires Inv(sha, s)
    ensures Inv(sha, Install(s, id, version, package, admitted, outcome).1)
  {
    var versions := if id in s.document.installed then s.document.installed[id] else map[];
    SameGrantsKeep(
      sha, s, s.document.(installed := s.document.installed[id := versions[version := package]]), outcome);
  }

  lemma LaunchKeeps(
    sha: Sha, precedes: Precedence, s: State, id: string, version: Option<string>, outcome: SaveOutcome)
    requires Inv(sha, s)
    ensures Inv(sha, BeginLaunch(sha, precedes, s, id, version, outcome).1)
  {
    var p := PreflightOf(sha, precedes, s, id, version);
    if p.Ok? {
      var launch := Launch(NextLaunchId(s.document.history), id, p.value.version);
      SameGrantsKeep(sha, s, s.document.(history := Trim(s.document.history + [launch])), outcome);
    }
  }

  /** Saving a document with the same grants keeps them backed. */
  lemma SameGrantsKeep(sha: Sha, s: State, d: Document, outcome: SaveOutcome)
    requires Inv(sha, s) && d.grants == s.document.grants
    ensures Inv(sha, Persist(s.(document := d), outcome).1)
  {
    PersistKeeps(sha, s.(document := d), outcome);
  }

  lemma BookkeepKeeps(sha: Sha, s: State, safeMode: set<string>, history: seq<Launch>, outcome: SaveOutcome)
    requires Inv(sha, s)
    ensures Inv(sha, Bookkeep(s, safeMode, history, outcome).1)
  {
    SameGrantsKeep(sha, s, s.document.(safeMode := safeMode, history := history), outcome);
  }

  lemma ReopenKeeps(sha: Sha, s: State, safeMode: set<string>, history: seq<Launch>, outcome: SaveOutcome)
    requires Inv(sha, s)
    ensures Inv(sha, Reopen(s, safeMode, history, outcome).1)
  {
    RereadKeeps(sha, s);
    BookkeepKeeps(sha, Reread(s), safeMode, history, outcome);
  }

  lemma RereadKeeps(sha: Sha, s: State)
    requires Inv(sha, s)
    ensures Inv(sha, Reread(s))
  {
    var next, later := s.session + 1, s.session + 2;
    forall id, c, a ensures Holds(s.stored.grants, id, c, a) <==> Backed(sha, s.ledger, later, id, c, a) {
      if Backed(sha, s.ledger, next, id, c, a) {
        LaterSessionsAgree(sha, s.ledger, s.session, id, c, a, next, later);
      }
      if Backed(sha, s.ledger, later, id, c, a) {
        LaterSessionsAgree(sha, s.ledger, s.session, id, c, a, later, next);
      }
    }
    assert forall id, c :: !SessionBacked(s.ledger, next, id, c);
  }

  /** Sessions that have not decided anything yet know the same. */
  lemma LaterSessionsAgree(
    sha: Sha, ledger: seq<Entry>, session: nat, id: string, c: Capability, approved: Digest, a: nat, b: nat)
    requires Dated(ledger, session) && session < a && session < b && Backed(sha, ledger, a, id, c, approved)
    ensures Backed(sha, ledger, b, id, c, approved)
  {
    var k :| 0 <= k < |ledger| && StandsPersistently(sha, ledger, a, id, c, approved, k);
    assert forall j :: 0 <= j < |ledger| ==> (InForce(ledger, a, j) <==> InForce(ledger, b, j));
    assert StandsPersistently(sha, ledger, b, id, c, approved, k);
  }

  lemma {:induction false} RunKeeps(sha: Sha, precedes: Precedence, s: State, run: seq<Step>)
    requires Inv(sha, s)
    ensures Inv(sha, Final(sha, precedes, s, run))
    decreases |run|
  {
    if run != [] {
      StepKeeps(sha, precedes, s, run[0]);
      RunKeeps(sha, precedes, Take(sha, precedes, s, run[0]), run[1..]);
    }
  }

  // Launches

  /** For each requested capability a grant of this session stands, or a persistent one for the same digest. */
  ghost predicate AllBacked(sha: Sha, s: State, id: string, requested: set<Capability>) {
    forall c <- requested ::
      || SessionBacked(s.ledger, s.session, id, c)
      || Backed(sha, s.ledger, s.session, id, c, RequestDigest(sha, requested))
  }

  lemma BackedIsGranted(sha: Sha, s: State, id: string, requested: set<Capability>, c: Capability)
    requires Inv(sha, s)
    ensures c in PersistentlyGranted(sha, s.document, id, requested) + SetOf(s.sessionGrants, id) <==>
            || SessionBacked(s.ledger, s.session, id, c)
            || Backed(sha, s.ledger, s.session, id, c, RequestDigest(sha, requested))
  {
    assert Holds(s.document.grants, id, c, RequestDigest(sha, requested)) <==>
           Backed(sha, s.ledger, s.session, id, c, RequestDigest(sha, requested));
  }

  lemma MissingExactly(sha: Sha, precedes: Precedence, s: State, id: string, version: Option<string>)
    requires Inv(sha, s) && InstalledVersion(precedes, s.document, id, version).Ok?
    ensures var requested := InstalledVersion(precedes, s.document, id, version).value.1.requested;
            PreflightOf(sha, precedes, s, id, version).value.missing == {} <==> AllBacked(sha, s, id, requested)
  {
    var requested := InstalledVersion(precedes, s.document, id, version).value.1.requested;
    var p := PreflightOf(sha, precedes, s, id, version).value;
    forall c <- requested
      ensures c in p.missing <==>
              !(SessionBacked(s.ledger, s.session, id, c)
                || Backed(sha, s.ledger, s.session, id, c, RequestDigest(sha, requested)))
    {
      BackedIsGranted(sha, s, id, requested, c);
    }
  }

  /**
   In every run a launch is admitted if and only if the package is installed and not in safe mode, its record
   is written, and each capability the version requests has a standing grant: one of this session,
   or a persistent one approved for a request with the same digest.
   */
  lemma LaunchAdmittedExactly(
    sha: Sha, precedes: Precedence, start: State, run: seq<Step>, id: string, version: Option<string>,
    outcome: SaveOutcome)
    requires Fresh(start)
    ensures var s := Final(sha, precedes, start, run);
            var found := InstalledVersion(precedes, s.document, id, version);
            BeginLaunch(sha, precedes, s, id, version, outcome).0.Ok? <==>
              && id !in s.document.safeMode && found.Ok? && outcome.Written?
              && AllBacked(sha, s, id, found.value.1.requested)
  {
    FreshIsExact(sha, start);
    RunKeeps(sha, precedes, start, run);
    var s := Final(sha, precedes, start, run);
    if InstalledVersion(precedes, s.document, id, version).Ok? {
      MissingExactly(sha, precedes, s, id, version);
    }
  }

  lemma FreshIsExact(sha: Sha, s: State)
    requires Fresh(s)
    ensures Inv(sha, s)
  {
  }

  /** An earlier persistent grant of `c` that stands and was approved for the set `requested`, or one that collides. */
  ghost predicate ApprovedFor(sha: Sha, s: State, id: string, c: Capability, requested: set<Capability>) {
    exists k :: 0 <= k < |s.ledger|
                && StandsPersistently(sha, s.ledger, s.session, id, c, RequestDigest(sha, requested), k)
                && (s.ledger[k].requested == requested
                    || Collision(sha, Encode(s.ledger[k].requested), Encode(requested)))
  }

  /**
   The launch that is returned is of the requested version, or without one of the installed version that every
   other installed one precedes; its record ends the history in memory and on disk.
   */
  lemma LaunchIsRecorded(
    sha: Sha, precedes: Precedence, s: State, id: string, version: Option<string>, outcome: SaveOutcome)
    requires StrictTotal(precedes) && BeginLaunch(sha, precedes, s, id, version, outcome).0.Ok?
    ensures var (r, t) := BeginLaunch(sha, precedes, s, id, version, outcome);
            && r.value.cartridge == id
            && id in s.document.installed && r.value.version in s.document.installed[id]
            && (version.Some? ==> r.value.version == version.value)
            && (version.None? ==>
                  forall v <- s.document.installed[id] :: v != r.value.version ==> precedes(v, r.value.version))
            && t.stored == t.document && t.document.(history := []) == s.document.(history := [])
            && Follows(s.document.history, t.document.history, r.value)
  {
    if version.None? {
      NewestExists(precedes, s.document.installed[id].Keys);
    }
  }

  /** The history goes on with `launch`, numbered above its predecessor while numbers last, and keeps 4096 entries. */
  predicate Follows(before: seq<Launch>, after: seq<Launch>, launch: Launch) {
    && after != [] && after[|after| - 1] == launch && |after| <= 4096
    && (if |before| < 4096 then after == before + [launch] else after == before[|before| - 4095..] + [launch])
    && (before == [] ==> launch.id == 1)
    && (before != [] && before[|before| - 1].id < U64_MAX ==> launch.id == before[|before| - 1].id + 1)
  }

  /**
   In every run, a launch that succeeds has for each capability of the version it launches an earlier grant that
   still stands: one of this session, or a persistent one approved while the newest version
   requested exactly the same set, unless two capability sets collide under the hash.
   */
  lemma LaunchIsApproved(
    sha: Sha, precedes: Precedence, start: State, run: seq<Step>, id: string, version: Option<string>,
    outcome: SaveOutcome, c: Capability)
    requires Fresh(start) && StrictTotal(precedes)
    requires BeginLaunch(sha, precedes, Final(sha, precedes, start, run), id, version, outcome).0.Ok?
    ensures var s := Final(sha, precedes, start, run);
            var launch := BeginLaunch(sha, precedes, s, id, version, outcome).0.value;
            && launch.cartridge == id
            && id in s.document.installed && launch.version in s.document.installed[id]
            && var requested := s.document.installed[id][launch.version].requested;
            (c in requested ==> SessionBacked(s.ledger, s.session, id, c) || ApprovedFor(sha, s, id, c, requested))
  {
    LaunchAdmittedExactly(sha, precedes, start, run, id, version, outcome);
    var s := Final(sha, precedes, start, run);
    LaunchIsRecorded(sha, precedes, s, id, version, outcome);
    var launch := BeginLaunch(sha, precedes, s, id, version, outcome).0.value;
    var requested := s.document.installed[id][launch.version].requested;
    assert requested == InstalledVersion(precedes, s.document, id, version).value.1.requested;
    if c in requested && !SessionBacked(s.ledger, s.session, id, c) {
      BackedIsApproved(sha, s, id, c, requested);
    }
  }

  /** A preflight report splits what the version requests into what has a standing grant and what has none. */
  lemma PreflightSplits(sha: Sha, precedes: Precedence, s: State, id: string, version: Option<string>, c: Capability)
    requires Inv(sha, s) && PreflightOf(sha, precedes, s, id, version).Ok?
    ensures var p := PreflightOf(sha, precedes, s, id, version).value;
            && id in s.document.installed && p.version in s.document.installed[id]
            && p.requested == s.document.installed[id][p.version].requested
            && (c in p.granted <==>
                  && c in p.requested
                  && (SessionBacked(s.ledger, s.session, id, c)
                      || Backed(sha, s.ledger, s.session, id, c, RequestDigest(sha, p.requested))))
            && (c in p.missing <==> c in p.requested && c !in p.granted)
  {
    BackedIsGranted(sha, s, id, PreflightOf(sha, precedes, s, id, version).value.requested, c);
  }

  /** An installed version never changes: installing it again takes the same package, and writes nothing. */
  lemma InstallsExactly(
    s: State, id: string, version: string, package: Installed, admitted: bool, outcome: SaveOutcome)
    ensures var (r, t) := Install(s, id, version, package, admitted, outcome);
            var known := id in s.document.installed && version in s.document.installed[id];
            && (r.Ok? <==>
                  admitted && (if known then s.document.installed[id][version].packageSha == package.packageSha
                               else outcome.Written?))
            && (!admitted || known ==> t == s)
            && (admitted && !known ==>
                  && id in t.document.installed
                  && t.document.installed[id]
                     == (if id in s.document.installed then s.document.installed[id] else map[])[version := package]
                  && t.document.grants == s.document.grants
                  && forall other <- s.document.installed ::
                       other != id ==> other in t.document.installed
                                       && t.document.installed[other] == s.document.installed[other])
  {
  }

  lemma BackedIsApproved(sha: Sha, s: State, id: string, c: Capability, requested: set<Capability>)
    requires Backed(sha, s.ledger, s.session, id, c, RequestDigest(sha, requested))
    ensures ApprovedFor(sha, s, id, c, requested)
  {
    var k :| 0 <= k < |s.ledger|
             && StandsPersistently(sha, s.ledger, s.session, id, c, RequestDigest(sha, requested), k);
    if s.ledger[k].requested != requested && Encode(s.ledger[k].requested) == Encode(requested) {
      EncodingIsInjective(s.ledger[k].requested, requested);
    }
  }

  lemma NotStanding(sha: Sha, s: State, id: string, c: Capability, approved: Digest, j: nat)
    requires j < |s.ledger| && Withdraws(s.ledger[j], id, c) && InForce(s.ledger, s.session, j)
    requires forall k :: j < k < |s.ledger| ==> !Grants(s.ledger[k], id, c)
    ensures !SessionBacked(s.ledger, s.session, id, c) && !Backed(sha, s.ledger, s.session, id, c, approved)
  {
  }

  /** A revocation of this session, or one that reached the disk in its own, holds until a new grant. */
  lemma RevokedCannotLaunch(
    sha: Sha, precedes: Precedence, start: State, run: seq<Step>, id: string, version: Option<string>,
    outcome: SaveOutcome, c: Capability, j: nat)
    requires Fresh(start) && j < |Final(sha, precedes, start, run).ledger|
    requires var s := Final(sha, precedes, start, run);
             && Withdraws(s.ledger[j], id, c) && InForce(s.ledger, s.session, j)
             && (forall k :: j < k < |s.ledger| ==> !Grants(s.ledger[k], id, c))
             && InstalledVersion(precedes, s.document, id, version).Ok?
             && c in InstalledVersion(precedes, s.document, id, version).value.1.requested
    ensures BeginLaunch(sha, precedes, Final(sha, precedes, start, run), id, version, outcome).0.Err?
  {
    var s := Final(sha, precedes, start, run);
    var requested := InstalledVersion(precedes, s.document, id, version).value.1.requested;
    NotStanding(sha, s, id, c, RequestDigest(sha, requested), j);
    LaunchAdmittedExactly(sha, precedes, start, run, id, version, outcome);
  }

  // Decisions whose save is refused

  predicate Allows(grants: map<string, PersistentGrant>, id: string, c: Capability) {
    id in grants && c in grants[id].capabilities
  }

  lemma EmptyDifference(a: set<Capability>, b: set<Capability>)
    ensures a - b == {} <==> a <= b
  {
    if a - b == {} {
      forall c <- a ensures c in b {
        assert c !in a - b;
      }
    }
  }

  /**
   Whatever becomes of its save, a persistent grant opens a launch that was closed if and only if the package
   is not in safe mode, something was missing, and the grant covers it.
   */
  lemma GrantOpensExactly(
    sha: Sha, precedes: Precedence, s: State, id: string, capabilities: set<Capability>, outcome: SaveOutcome)
    requires InstalledVersion(precedes, s.document, id, None).Ok?
    requires capabilities <= InstalledVersion(precedes, s.document, id, None).value.1.requested
    ensures var t := GrantCapabilities(sha, precedes, s, id, capabilities, true, outcome).1;
            var missing := PreflightOf(sha, precedes, s, id, None).value.missing;
            (BeginLaunch(sha, precedes, s, id, None, Written).0.Err?
             && BeginLaunch(sha, precedes, t, id, None, Written).0.Ok?)
            <==> id !in s.document.safeMode && missing != {} && missing <= capabilities
  {
    var t := GrantCapabilities(sha, precedes, s, id, capabilities, true, outcome).1;
    var p, q := PreflightOf(sha, precedes, s, id, None).value, PreflightOf(sha, precedes, t, id, None).value;
    assert q.granted == p.granted + capabilities;
    assert q.missing == p.missing - capabilities;
    EmptyDifference(p.missing, capabilities);
  }

  /** No grant, no revocation and no reopening. */
  predicate Undecided(run: seq<Step>) {
    forall step <- run :: step.InstallStep? || step.LaunchStep? || step.BookkeepStep?
  }

  /** Since `t` the document has reached the disk. */
  predicate SavedSince(t: State, u: State) {
    exists j :: |t.ledger| <= j < |u.ledger| && u.ledger[j] == Stored(t.session)
  }

  /** Without a decision the grants stay, and the ledger only gains the saves, each of which stores them. */
  ghost predicate OnlySaves(t: State, u: State) {
    && u.document.grants == t.document.grants && u.session == t.session && t.ledger <= u.ledger
    && (forall j :: |t.ledger| <= j < |u.ledger| ==> u.ledger[j] == Stored(t.session))
    && u.stored.grants == if |u.ledger| > |t.ledger| then t.document.grants else t.stored.grants
  }

  lemma {:induction false} UndecidedOnlySaves(sha: Sha, precedes: Precedence, t: State, run: seq<Step>)
    requires Undecided(run)
    ensures OnlySaves(t, Final(sha, precedes, t, run))
    decreases |run|
  {
    if run != [] {
      assert run[0] in run;
      var u := Take(sha, precedes, t, run[0]);
      assert OnlySaves(t, u);
      UndecidedOnlySaves(sha, precedes, u, run[1..]);
    }
  }

  /** After decisions end, a reopening reads the grants in memory if a save has reached the disk, else the old ones. */
  lemma ReopeningReads(
    sha: Sha, precedes: Precedence, t: State, run: seq<Step>, safeMode: set<string>, history: seq<Launch>,
    outcome: SaveOutcome)
    requires Undecided(run)
    ensures var u := Final(sha, precedes, t, run);
            Reopen(u, safeMode, history, outcome).1.document.grants
            == if SavedSince(t, u) then t.document.grants else t.stored.grants
  {
    UndecidedOnlySaves(sha, precedes, t, run);
    var u := Final(sha, precedes, t, run);
    if |u.ledger| > |t.ledger| {
      assert u.ledger[|t.ledger|] == Stored(t.session);
    }
  }

  /**
   A persistent grant whose save is refused reports an error. It is in force after the next reopening if and
   only if a later save of its session, such as that of a launch it opened, reached the disk.
   */
  lemma RefusedGrantSurvivesExactly(
    sha: Sha, precedes: Precedence, s: State, id: string, capabilities: set<Capability>, c: Capability,
    run: seq<Step>, safeMode: set<string>, history: seq<Launch>, outcome: SaveOutcome)
    requires InstalledVersion(precedes, s.document, id, None).Ok?
    requires c in capabilities
    requires capabilities <= InstalledVersion(precedes, s.document, id, None).value.1.requested
    requires !Allows(s.stored.grants, id, c) && Undecided(run)
    ensures var (r, t) := GrantCapabilities(sha, precedes, s, id, capabilities, true, KeptOld);
            var u := Final(sha, precedes, t, run);
            && r == Err(SaveFailed)
            && (Allows(Reopen(u, safeMode, history, outcome).1.document.grants, id, c) <==> SavedSince(t, u))
  {
    var t := GrantCapabilities(sha, precedes, s, id, capabilities, true, KeptOld).1;
    ReopeningReads(sha, precedes, t, run, safeMode, history, outcome);
  }

  /**
   A revocation whose save is refused reports an error. A reopening undoes it if and only if no later save of
   its session reached the disk.
   */
  lemma RefusedRevocationSurvivesExactly(
    sha: Sha, precedes: Precedence, s: State, id: string, capability: Option<Capability>, c: Capability,
    run: seq<Step>, safeMode: set<string>, history: seq<Launch>, outcome: SaveOutcome)
    requires capability == None || capability == Some(c)
    requires Allows(s.stored.grants, id, c) && Undecided(run)
    ensures var (r, t) := Revoke(s, id, capability, KeptOld);
            var u := Final(sha, precedes, t, run);
            && r == Err(SaveFailed)
            && (Allows(Reopen(u, safeMode, history, outcome).1.document.grants, id, c) <==> !SavedSince(t, u))
  {
    var t := Revoke(s, id, capability, KeptOld).1;
    ReopeningReads(sha, precedes, t, run, safeMode, history, outcome);
  }

  /** The refused grant opens a launch, and the record of that launch puts it on disk: it outlives the session. */
  lemma RefusedGrantOutlivesItsSession(
    sha: Sha, precedes: Precedence, s: State, id: string, safeMode: set<string>, history: seq<Launch>,
    outcome: SaveOutcome)
    requires InstalledVersion(precedes, s.document, id, None).Ok? && id !in s.document.safeMode && id !in safeMode
    ensures var requested := InstalledVersion(precedes, s.document, id, None).value.1.requested;
            var (r, t) := GrantCapabilities(sha, precedes, s, id, requested, true, KeptOld);
            var (launched, u) := BeginLaunch(sha, precedes, t, id, None, Written);
            && r == Err(SaveFailed) && launched.Ok?
            && BeginLaunch(sha, precedes, Reopen(u, safeMode, history, outcome).1, id, None, Written).0.Ok?
  {
    var requested := InstalledVersion(precedes, s.document, id, None).value.1.requested;
    var t := GrantCapabilities(sha, precedes, s, id, requested, true, KeptOld).1;
    assert PreflightOf(sha, precedes, t, id, None).value.missing == {};
    var u := BeginLaunch(sha, precedes, t, id, None, Written).1;
    var v := Reopen(u, safeMode, history, outcome).1;
    assert PersistentlyGranted(sha, v.document, id, requested) == PersistentlyGranted(sha, t.document, id, requested);
    assert PreflightOf(sha, precedes, v, id, None).value.missing == {};
  }

  // What single decisions do

  /**
   A grant succeeds if and only if the newest version requests what is granted and, if it is to last, the document
   is written. It adds to what is granted, and a lasting one forgets what was approved for another request.
   */
  lemma GrantsExactly(
    sha: Sha, precedes: Precedence, s: State, id: string, capabilities: set<Capability>, persistent: bool,
    outcome: SaveOutcome)
    ensures var (r, t) := GrantCapabilities(sha, precedes, s, id, capabilities, persistent, outcome);
            var found := InstalledVersion(precedes, s.document, id, None);
            && (r.Ok? <==>
                  found.Ok? && capabilities <= found.value.1.requested && (persistent ==> outcome.Written?))
            && (found.Err? || !(capabilities <= found.value.1.requested) ==> t == s)
            && (found.Ok? && capabilities <= found.value.1.requested && !persistent ==>
                  && t.document == s.document && t.stored == s.stored
                  && id in t.sessionGrants
                  && t.sessionGrants[id] == (if id in s.sessionGrants then s.sessionGrants[id] else {}) + capabilities)
            && (found.Ok? && capabilities <= found.value.1.requested && persistent ==>
                  && t.sessionGrants == s.sessionGrants && id in t.document.grants
                  && t.document.grants[id].approved == RequestDigest(sha, found.value.1.requested)
                  && t.document.grants[id].capabilities
                     == capabilities + (if id in s.document.grants
                                           && s.document.grants[id].approved == t.document.grants[id].approved
                                        then s.document.grants[id].capabilities else {})
                  && t.stored == if outcome.KeptOld? then s.stored else t.document)
  {
  }

  /** A revocation takes one capability, or all of them, from both kinds of grants of the package and from no other. */
  lemma RevokesExactly(
    s: State, id: string, capability: Option<Capability>, outcome: SaveOutcome, other: string, c: Capability)
    ensures var (r, t) := Revoke(s, id, capability, outcome);
            var withdrawn := other == id && (capability == None || capability == Some(c));
            && (r.Ok? <==> outcome.Written?)
            && (Allows(t.document.grants, other, c) <==> Allows(s.document.grants, other, c) && !withdrawn)
            && (c in SetOf(t.sessionGrants, other) <==> c in SetOf(s.sessionGrants, other) && !withdrawn)
            && t.stored == if outcome.KeptOld? then s.stored else t.document
  {
  }
}
