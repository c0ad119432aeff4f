/**
 The library document on disk: replacing it by renames and recovering it when the library is opened.
 A crash may fall between any two file operations. A file holds a complete document or
 something that does not read as one.
 */
module LibraryFiles {
  import opened Wrappers

  const QUARANTINE_SLOTS: nat := 1024

  datatype File<+D> = Intact(document: D) | Broken

  /** The files of the library: the document, its `.previous` copy, the temporary one, and how many were quarantined. */
  datatype Disk<+D> = Disk(
    document: Option<File<D>>,
    previous: Option<File<D>>,
    temporary: Option<File<D>>,
    quarantined: nat)

  datatype Error = RecoveryFull

  predicate Readable<D>(f: Option<File<D>>) {
    f.Some? && f.value.Intact?
  }

  function Last<D>(d: Disk<D>, states: seq<Disk<D>>): Disk<D> {
    if states == [] then d else states[|states| - 1]
  }

  /** The disk after each operation of replacing the document by `v`. */
  function Replace<D>(d: Disk<D>, v: D): seq<Disk<D>> {
    var partial := d.(temporary := Some(Broken));
    var staged := d.(temporary := Some(Intact(v)));
    if d.document.None? then [partial, staged, staged.(document := staged.temporary, temporary := None)]
    else
      var cleared := staged.(previous := None);
      var moved := cleared.(document := None, previous := d.document);
      var placed := moved.(document := staged.temporary, temporary := None);
      var done := placed.(previous := None);
      if d.previous.None? then [partial, staged, moved, placed, done]
      else [partial, staged, cleared, moved, placed, done]
  }

  /** Whether a broken file can be moved aside. */
  function Quarantine<D>(d: Disk<D>, f: Disk<D>): Result<seq<Disk<D>>, Error> {
    if d.quarantined >= QUARANTINE_SLOTS then Err(RecoveryFull)
    else Ok([f.(quarantined := d.quarantined + 1)])
  }

  /** The disk after each operation of recovery, up to an error. */
  function Recover<D>(d: Disk<D>): Result<seq<Disk<D>>, Error> {
    if d.document.None? && d.previous.Some? then
      if Readable(d.previous) then Ok([d.(document := d.previous, previous := None)])
      else Quarantine(d, d.(previous := None))
    else if d.document.Some? && !Readable(d.document) && d.previous.Some? then
      if Readable(d.previous) then
        match Quarantine(d, d.(document := None))
        case Err(e) => Err(e)
        case Ok(states) =>
          var t := Last(d, states);
          Ok(states + [t.(document := t.previous, previous := None)])
      else Quarantine(d, d.(previous := None))
    else Ok([])
  }

  /** Reads the document of a recovered disk; a document that does not read is quarantined for the default. */
  function ReadDocument<D>(d: Disk<D>, default: D): Result<(D, seq<Disk<D>>), Error> {
    if d.document.None? then Ok((default, []))
    else if Readable(d.document) then Ok((d.document.value.document, []))
    else
      match Quarantine(d, d.(document := None))
      case Err(e) => Err(e)
      case Ok(states) => Ok((default, states))
  }

  /** What opening reads, and the disk after each operation on the way. */
  function Open<D>(d: Disk<D>, default: D): Result<(D, seq<Disk<D>>), Error> {
    match Recover(d)
    case Err(e) => Err(e)
    case Ok(recovered) =>
      match ReadDocument(Last(d, recovered), default)
      case Err(e) => Err(e)
      case Ok((v, read)) => Ok((v, recovered + read))
  }

  /** The document the files stand for. */
  function Held<D>(d: Disk<D>): Option<D> {
    if Readable(d.document) then Some(d.document.value.document)
    else if Readable(d.previous) then Some(d.previous.value.document)
    else None
  }

  /** The library's own writes never leave a broken file in either place. */
  predicate Sound<D>(d: Disk<D>) {
    && (d.document.Some? ==> d.document.value.Intact?)
    && (d.previous.Some? ==> d.previous.value.Intact?)
  }

  /** The operations, changing the files in place and recording the disk after each of them. */
  class LibraryDisk<D(==)> {
    var document: Option<File<D>>
    var previous: Option<File<D>>
    var temporary: Option<File<D>>
    var quarantined: nat
    ghost var written: seq<Disk<D>>

    ghost function View(): Disk<D>
      reads this
    {
      Disk(document, previous, temporary, quarantined)
    }

    /** Since the disk was `d` with the history `log`, exactly the operations `states` were made. */
    ghost predicate Wrote(d: Disk<D>, log: seq<Disk<D>>, states: seq<Disk<D>>)
      reads this
    {
      written == log + states && View() == Last(d, states)
    }

    constructor ()
      ensures View() == Disk(None, None, None, 0) && written == []
    {
      document, previous, temporary, quarantined, written := None, None, None, 0, [];
    }

    method AtomicReplace(v: D)
      modifies this
      ensures Wrote(old(View()), old(written), Replace(old(View()), v))
    {
      temporary := Some(Broken);
      written := written + [View()];
      temporary := Some(Intact(v));
      written := written + [View()];
      if document.Some? {
        if previous.Some? {
          previous := None;
          written := written + [View()];
        }
        document, previous := None, document;
        written := written + [View()];
        document, temporary := temporary, None;
        written := written + [View()];
        previous := None;
        written := written + [View()];
      } else {
        document, temporary := temporary, None;
        written := written + [View()];
      }
    }

    /** On an error nothing was changed. */
    method RecoverDocument() returns (r: Result<(), Error>)
      modifies this
      ensures match Recover(old(View()))
              case Err(e) => r == Err(e) && Wrote(old(View()), old(written), [])
              case Ok(states) => r == Ok(()) && Wrote(old(View()), old(written), states)
    {
      if document.None? && previous.Some? {
        if Readable(previous) {
          document, previous := previous, None;
        } else {
          if quarantined >= QUARANTINE_SLOTS {
            return Err(RecoveryFull);
          }
          previous, quarantined := None, quarantined + 1;
        }
        written := written + [View()];
        return Ok(());
      }
      if document.Some? && !Readable(document) && previous.Some? {
        if quarantined >= QUARANTINE_SLOTS {
          return Err(RecoveryFull);
        }
        if Readable(previous) {
          document, quarantined := None, quarantined + 1;
          written := written + [View()];
          document, previous := previous, None;
          written := written + [View()];
        } else {
          previous, quarantined := None, quarantined + 1;
          written := written + [View()];
        }
      }
      return Ok(());
    }
  }

  // What opening reads, whatever is on the disk

  /** How many broken files opening moves aside: any previous copy is checked only without an intact document. */
  function MovedAside<D>(d: Disk<D>): nat {
    if Readable(d.document) then 0
    else (if d.document.Some? then 1 else 0) + (if d.previous.Some? && !Readable(d.previous) then 1 else 0)
  }

  /**
   Opening reads the document if it is intact, else the previous copy if that is intact, and the default
   exactly when neither is. It fails exactly when no quarantine slot is left for a broken file
   that has to be moved aside.
   */
  lemma OpenReadsHeld<D>(d: Disk<D>, default: D)
    ensures Open(d, default).Ok? ==>
              && Open(d, default).value.0 == Held(d).GetOr(default)
              && Held(Last(d, Open(d, default).value.1)) == Held(d)
              && Sound(Last(d, Open(d, default).value.1).(previous := None))
    ensures Open(d, default).Ok? <==> MovedAside(d) == 0 || d.quarantined + MovedAside(d) <= QUARANTINE_SLOTS
  {
    if Open(d, default).Ok? {
      var recovered := Recover(d).value;
      var t := Last(d, recovered);
      assert Held(t) == Held(d);
      var read := ReadDocument(t, default).value.1;
      assert Last(d, recovered + read) == Last(t, read);
    }
  }

  // Every operation

  lemma ReplaceKeeps<D>(d: Disk<D>, v: D, i: nat)
    requires Sound(d) && i < |Replace(d, v)|
    ensures Sound(Replace(d, v)[i])
    ensures Held(Replace(d, v)[i]) == Held(d) || Held(Replace(d, v)[i]) == Some(v)
    ensures i == |Replace(d, v)| - 1 ==>
              && Held(Replace(d, v)[i]) == Some(v)
              && Replace(d, v)[i] == d.(document := Some(Intact(v)), temporary := None,
                                        previous := if d.document.None? then d.previous else None)
  {
  }

  lemma OpenKeeps<D>(d: Disk<D>, default: D, i: nat)
    requires Sound(d)
    ensures Open(d, default).Ok?
    ensures i < |Open(d, default).value.1| ==>
              Sound(Open(d, default).value.1[i]) && Held(Open(d, default).value.1[i]) == Held(d)
  {
  }

  // Whole runs

  /**
   A save or an opening that completes, or one that crashes after `crash` operations; the save that ends
   every opening is a step of its own.
   */
  datatype Step<D> =
    | Save(document: D, crash: Option<nat>)
    | Reopen(crash: Option<nat>)

  function Cut<D>(d: Disk<D>, states: seq<Disk<D>>, crash: Option<nat>): Disk<D> {
    if crash.Some? && crash.value < |states| then Last(d, states[..crash.value]) else Last(d, states)
  }

  function Completes<D>(d: Disk<D>, states: seq<Disk<D>>, crash: Option<nat>): bool {
    crash.None? || crash.value >= |states|
  }

  function Take<D>(d: Disk<D>, step: Step<D>, default: D): Disk<D> {
    match step
    case Save(v, crash) => Cut(d, Replace(d, v), crash)
    case Reopen(crash) =>
      match Open(d, default)
      case Err(_) => d
      case Ok((_, states)) => Cut(d, states, crash)
  }

  function Final<D>(d: Disk<D>, run: seq<Step<D>>, default: D): Disk<D> {
    if run == [] then d else Take(Final(d, run[..|run| - 1], default), run[|run| - 1], default)
  }

  /**
   The documents a reopening may find: the last one whose save completed, and those whose saves
   crashed since then.
   */
  function Possible<D>(d: Disk<D>, run: seq<Step<D>>, default: D): set<D> {
    if run == [] then {}
    else
      var before := run[..|run| - 1];
      match run[|run| - 1]
      case Reopen(_) => Possible(d, before, default)
      case Save(v, crash) =>
        if Completes(Final(d, before, default), Replace(Final(d, before, default), v), crash) then {v}
        else Possible(d, before, default) + {v}
  }

  /** Whether some save of the run has completed. */
  predicate Saved<D>(d: Disk<D>, run: seq<Step<D>>, default: D) {
    run != [] && (
      var before := run[..|run| - 1];
      || Saved(d, before, default)
      || (run[|run| - 1].Save?
          && Completes(Final(d, before, default), Replace(Final(d, before, default), run[|run| - 1].document),
                       run[|run| - 1].crash)))
  }

  lemma CutKeeps<D>(d: Disk<D>, states: seq<Disk<D>>, crash: Option<nat>, v: Option<D>)
    requires Sound(d) && forall s <- states :: Sound(s) && (Held(s) == Held(d) || Held(s) == v)
    ensures Sound(Cut(d, states, crash))
    ensures Held(Cut(d, states, crash)) == Held(d) || Held(Cut(d, states, crash)) == v
  {
  }

  lemma SaveStep<D>(d: Disk<D>, v: D, crash: Option<nat>)
    requires Sound(d)
    ensures var t := Cut(d, Replace(d, v), crash);
            && Sound(t)
            && (Held(t) == Held(d) || Held(t) == Some(v))
            && (Completes(d, Replace(d, v), crash) ==> Held(t) == Some(v))
  {
    var states := Replace(d, v);
    forall i | 0 <= i < |states|
      ensures Sound(states[i]) && (Held(states[i]) == Held(d) || Held(states[i]) == Some(v))
    {
      ReplaceKeeps(d, v, i);
    }
    CutKeeps(d, states, crash, Some(v));
    ReplaceKeeps(d, v, |states| - 1);
  }

  lemma ReopenStep<D>(d: Disk<D>, crash: Option<nat>, default: D)
    requires Sound(d)
    ensures Sound(Take(d, Reopen(crash), default)) && Held(Take(d, Reopen(crash), default)) == Held(d)
  {
    OpenKeeps(d, default, 0);
    var states := Open(d, default).value.1;
    forall i | 0 <= i < |states| ensures Sound(states[i]) && Held(states[i]) == Held(d) {
      OpenKeeps(d, default, i);
    }
    CutKeeps(d, states, crash, Held(d));
  }

  lemma {:induction false} RunKeeps<D>(d: Disk<D>, run: seq<Step<D>>, default: D)
    requires Sound(d)
    ensures var t := Final(d, run, default);
            && Sound(t)
            && (Held(t) == Held(d) || (Held(t).Some? && Held(t).value in Possible(d, run, default)))
            && (Saved(d, run, default) ==> Held(t).Some? && Held(t).value in Possible(d, run, default))
  {
    if run != [] {
      var before := run[..|run| - 1];
      RunKeeps(d, before, default);
      var t := Final(d, before, default);
      match run[|run| - 1]
      case Save(v, crash) => SaveStep(t, v, crash);
      case Reopen(crash) => ReopenStep(t, crash, default);
    }
  }

  /**
   After any sequence of saves and openings, each crashing anywhere, the next opening succeeds; once a save
   has completed it reads that document or one whose save crashed later, and never the default.
   */
  lemma ReopenReadsLastOrInterrupted<D>(run: seq<Step<D>>, default: D)
    ensures var empty := Disk(None, None, None, 0);
            var found := Open(Final(empty, run, default), default);
            && found.Ok?
            && (Saved(empty, run, default) ==> found.value.0 in Possible(empty, run, default))
            && (found.value.0 == default || found.value.0 in Possible(empty, run, default))
  {
    var empty := Disk(None, None, None, 0);
    var t := Final(empty, run, default);
    RunKeeps(empty, run, default);
    OpenReadsHeld(t, default);
  }
}
