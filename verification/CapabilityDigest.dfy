/** The digest of a requested capability set: what is hashed determines the set. */
module CapabilityDigest {
  import opened AssetRoot

  datatype Capability = Clock | Random | Assets | Storage | Graphics | Audio | Midi | Http | Serve

  // The digest of a requested capability set

  const ALL_CAPABILITIES: seq<Capability> := [Clock, Random, Assets, Storage, Graphics, Audio, Midi, Http, Serve]

  function Label(c: Capability): string {
    match c
    case Clock => "clock"
    case Random => "random"
    case Assets => "assets"
    case Storage => "storage"
    case Graphics => "graphics"
    case Audio => "audio"
    case Midi => "midi"
    case Http => "http"
    case Serve => "serve"
  }

  function Ascii(s: string): Bytes {
    if s == [] then [] else [(s[0] as int % 256) as byte] + Ascii(s[1..])
  }

  /** The length as eight little-endian bytes, then the label. */
  function LabelRecord(c: Capability): Bytes {
    [|Label(c)| as byte, 0, 0, 0, 0, 0, 0, 0] + Ascii(Label(c))
  }

  /** The records of those listed capabilities that are in the set. */
  function Concatenate(record: Capability -> Bytes, s: set<Capability>, listed: seq<Capability>): Bytes {
    if listed == [] then []
    else (if listed[0] in s then record(listed[0]) else []) + Concatenate(record, s, listed[1..])
  }

  /** What is hashed for a capability set, in the order of the enumeration. */
  function Encode(s: set<Capability>): Bytes {
    Concatenate(LabelRecord, s, ALL_CAPABILITIES)
  }

  function RequestDigest(sha: Sha, s: set<Capability>): Digest {
    sha(Encode(s))
  }

  /** Any two records differ in their first or in their ninth byte: in the length or in the first letter. */
  ghost predicate Marked(record: Capability -> Bytes) {
    && (forall c :: |record(c)| > 8)
    && (forall c, d :: c != d ==> (record(c)[0], record(c)[8]) != (record(d)[0], record(d)[8]))
  }

  /** Length and first letter of each label. */
  function Mark(c: Capability): (byte, byte) {
    match c
    case Clock => (5, 99)
    case Random => (6, 114)
    case Assets => (6, 97)
    case Storage => (7, 115)
    case Graphics => (8, 103)
    case Audio => (5, 97)
    case Midi => (4, 109)
    case Http => (4, 104)
    case Serve => (5, 115)
  }

  lemma RecordBytes(c: Capability)
    ensures |LabelRecord(c)| > 8
    ensures LabelRecord(c)[0] == |Label(c)| as byte
    ensures LabelRecord(c)[8] == (Label(c)[0] as int % 256) as byte
  {
  }

  lemma LabelMark(c: Capability)
    ensures |Label(c)| == Mark(c).0 as int
    ensures Label(c)[0] as int == Mark(c).1 as int
  {
    match c {
      case Clock =>
      case Random =>
      case Assets =>
      case Storage =>
      case Graphics =>
      case Audio =>
      case Midi =>
      case Http =>
      case Serve =>
    }
  }

  lemma MarkOf(c: Capability)
    ensures |LabelRecord(c)| > 8
    ensures (LabelRecord(c)[0], LabelRecord(c)[8]) == Mark(c)
  {
    RecordBytes(c);
    LabelMark(c);
  }

  lemma LabelsAreMarked()
    ensures Marked(LabelRecord)
  {
    forall c ensures |LabelRecord(c)| > 8 && (LabelRecord(c)[0], LabelRecord(c)[8]) == Mark(c) {
      MarkOf(c);
    }
  }

  /** A nonempty concatenation starts with the record of one of its members. */
  lemma {:induction false} ConcatenationStarts(record: Capability -> Bytes, s: set<Capability>, listed: seq<Capability>)
    requires Concatenate(record, s, listed) != []
    ensures exists c <- listed :: c in s && record(c) <= Concatenate(record, s, listed)
  {
    if listed[0] !in s {
      ConcatenationStarts(record, s, listed[1..]);
      assert [] + Concatenate(record, s, listed[1..]) == Concatenate(record, s, listed[1..]);
    }
  }

  lemma OneSided(record: Capability -> Bytes, s: set<Capability>, t: set<Capability>, listed: seq<Capability>)
    requires Marked(record) && listed != [] && listed[0] !in listed[1..]
    requires listed[0] in s && listed[0] !in t
    ensures Concatenate(record, s, listed) != Concatenate(record, t, listed)
  {
    var a, b := Concatenate(record, s, listed), Concatenate(record, t, listed);
    assert record(listed[0]) <= a;
    assert b == Concatenate(record, t, listed[1..]);
    if b != [] {
      ConcatenationStarts(record, t, listed[1..]);
      var d :| d in listed[1..] && d in t && record(d) <= b;
      assert a[0] == record(listed[0])[0] && a[8] == record(listed[0])[8];
      assert b[0] == record(d)[0] && b[8] == record(d)[8];
    }
  }

  predicate Distinct(listed: seq<Capability>) {
    listed == [] || (listed[0] !in listed[1..] && Distinct(listed[1..]))
  }

  lemma {:induction false} SameConcatenation(
    record: Capability -> Bytes, s: set<Capability>, t: set<Capability>, listed: seq<Capability>)
    requires Marked(record) && Distinct(listed)
    requires Concatenate(record, s, listed) == Concatenate(record, t, listed)
    ensures forall c <- listed :: c in s <==> c in t
  {
    if listed != [] {
      var c := listed[0];
      if c in s && c !in t {
        OneSided(record, s, t, listed);
      } else if c !in s && c in t {
        OneSided(record, t, s, listed);
      } else {
        var n := if c in s then |record(c)| else 0;
        assert Concatenate(record, s, listed[1..]) == Concatenate(record, s, listed)[n..];
        assert Concatenate(record, t, listed[1..]) == Concatenate(record, t, listed)[n..];
        SameConcatenation(record, s, t, listed[1..]);
        assert listed == [c] + listed[1..];
      }
    }
  }

  function Rank(c: Capability): nat {
    match c
    case Clock => 0
    case Random => 1
    case Assets => 2
    case Storage => 3
    case Graphics => 4
    case Audio => 5
    case Midi => 6
    case Http => 7
    case Serve => 8
  }

  lemma RankIsIndex(c: Capability, i: nat)
    requires i < 9
    ensures ALL_CAPABILITIES[Rank(c)] == c
    ensures Rank(ALL_CAPABILITIES[i]) == i
  {
  }

  lemma AllListed()
    ensures Distinct(ALL_CAPABILITIES)
    ensures forall c: Capability :: c in ALL_CAPABILITIES
  {
    forall c: Capability ensures c in ALL_CAPABILITIES {
      RankIsIndex(c, 0);
    }
    assert forall i :: 0 <= i < 9 ==> Rank(ALL_CAPABILITIES[i]) == i by {
      forall i: nat | i < 9 ensures Rank(ALL_CAPABILITIES[i]) == i {
        RankIsIndex(Clock, i);
      }
    }
    RankedIsDistinct(ALL_CAPABILITIES, 0);
  }

  lemma {:induction false} RankedIsDistinct(listed: seq<Capability>, n: nat)
    requires forall i :: 0 <= i < |listed| ==> Rank(listed[i]) == n + i
    ensures Distinct(listed)
  {
    if listed != [] {
      RankedIsDistinct(listed[1..], n + 1);
    }
  }

  /** Different capability sets are hashed from different bytes. */
  lemma EncodingIsInjective(s: set<Capability>, t: set<Capability>)
    requires Encode(s) == Encode(t)
    ensures s == t
  {
    LabelsAreMarked();
    AllListed();
    SameConcatenation(LabelRecord, s, t, ALL_CAPABILITIES);
  }
}
