/**
 The integrity root over a package's assets: a binary hash tree whose leaves bind a path and the decoded
 digest of its content, and in which the last node of an odd level is paired with itself.
 SHA-256 is a function value to 32 bytes.
 */
module AssetRoot {
  import opened Wrappers

  newtype byte = x: int | 0 <= x < 256

  type Bytes = seq<byte>

  /** A 32-byte digest. */
  type Digest = d: Bytes | |d| == 32 witness seq(32, _ => 0)

  type Sha = Bytes -> Digest

  /** One asset as the manifest declares it: the path and the hexadecimal digest. */
  datatype Asset = Asset(path: Bytes, digest: string)

  datatype Error = InvalidDigest(path: Bytes) | PathLengthOverflow

  const LEAF: byte := 0
  const PARENT: byte := 1
  const EMPTY: byte := 2
  const U64_LIMIT: nat := 0x1_0000_0000_0000_0000

  // Hexadecimal text

  function HexValue(c: char): Option<byte> {
    if '0' <= c <= '9' then Some((c as int - '0' as int) as byte)
    else if 'a' <= c <= 'f' then Some((c as int - 'a' as int + 10) as byte)
    else if 'A' <= c <= 'F' then Some((c as int - 'A' as int + 10) as byte)
    else None
  }

  function HexDigit(b: byte): char
    requires b < 16
  {
    "0123456789abcdef"[b]
  }

  function HexDecode(s: string): Option<Bytes> {
    if s == [] then Some([])
    else if |s| == 1 || HexValue(s[0]).None? || HexValue(s[1]).None? || HexDecode(s[2..]).None? then None
    else Some([HexValue(s[0]).value * 16 + HexValue(s[1]).value] + HexDecode(s[2..]).value)
  }

  function HexEncode(b: Bytes): string {
    if b == [] then [] else [HexDigit(b[0] / 16), HexDigit(b[0] % 16)] + HexEncode(b[1..])
  }

  lemma HexDigitIsRead(b: byte)
    requires b < 16
    ensures HexValue(HexDigit(b)) == Some(b)
  {
    var i := b as int;
    assert i == 0 || i == 1 || i == 2 || i == 3 || i == 4 || i == 5 || i == 6 || i == 7
        || i == 8 || i == 9 || i == 10 || i == 11 || i == 12 || i == 13 || i == 14 || i == 15;
  }

  /** Decoding undoes encoding, so the printed root determines the root. */
  lemma {:induction false} HexRoundTrip(b: Bytes)
    ensures HexDecode(HexEncode(b)) == Some(b)
  {
    if b != [] {
      HexRoundTrip(b[1..]);
      HexDigitIsRead(b[0] / 16);
      HexDigitIsRead(b[0] % 16);
      var s := HexEncode(b);
      assert s[2..] == HexEncode(b[1..]);
      assert b == [b[0]] + b[1..];
    }
  }

  // The tree

  /** The eight bytes of a 64-bit length, most significant first. */
  function BigEndian(n: nat, width: nat): Bytes {
    if width == 0 then [] else BigEndian(n / 256, width - 1) + [(n % 256) as byte]
  }

  lemma {:induction false} BigEndianLength(n: nat, width: nat)
    ensures |BigEndian(n, width)| == width
  {
    if width > 0 {
      BigEndianLength(n / 256, width - 1);
    }
  }

  function LeafInput(path: Bytes, digest: Digest): Bytes {
    [LEAF] + BigEndian(|path|, 8) + path + digest
  }

  function ParentInput(left: Digest, right: Digest): Bytes {
    [PARENT] + left + right
  }

  function Leaf(sha: Sha, a: Asset): Result<Digest, Error> {
    var d := HexDecode(a.digest);
    if d.None? || |d.value| != 32 then Err(InvalidDigest(a.path))
    else if |a.path| >= U64_LIMIT then Err(PathLengthOverflow)
    else Ok(sha(LeafInput(a.path, d.value)))
  }

  function Leaves(sha: Sha, assets: seq<Asset>): Result<seq<Digest>, Error> {
    if assets == [] then Ok([])
    else
      match Leaf(sha, assets[0])
      case Err(e) => Err(e)
      case Ok(l) =>
        match Leaves(sha, assets[1..])
        case Err(e) => Err(e)
        case Ok(rest) => Ok([l] + rest)
  }

  /** The right partner of the node at `i`, which is the node itself at the end of an odd level. */
  function Partner(nodes: seq<Digest>, i: nat): Digest
    requires i < |nodes|
  {
    if i + 1 < |nodes| then nodes[i + 1] else nodes[i]
  }

  function Parents(sha: Sha, nodes: seq<Digest>): (r: seq<Digest>)
    ensures |r| == (|nodes| + 1) / 2
    ensures forall i :: 0 <= i < |r| ==> r[i] == sha(ParentInput(nodes[2 * i], Partner(nodes, 2 * i)))
  {
    seq<Digest>((|nodes| + 1) / 2, i requires 0 <= i < (|nodes| + 1) / 2 =>
      sha(ParentInput(nodes[2 * i], Partner(nodes, 2 * i))))
  }

  function TreeRoot(sha: Sha, nodes: seq<Digest>): Digest
    requires nodes != []
    decreases |nodes|
  {
    if |nodes| == 1 then nodes[0] else TreeRoot(sha, Parents(sha, nodes))
  }

  function Root(sha: Sha, assets: seq<Asset>): Result<Digest, Error> {
    match Leaves(sha, assets)
    case Err(e) => Err(e)
    case Ok(nodes) => Ok(if nodes == [] then sha([EMPTY]) else TreeRoot(sha, nodes))
  }

  // What small roots are made of

  /** The number that bytes stand for, most significant first. */
  function Number(b: Bytes): nat {
    if b == [] then 0 else Number(b[..|b| - 1]) * 256 + b[|b| - 1] as int
  }

  function Power256(width: nat): nat {
    if width == 0 then 1 else 256 * Power256(width - 1)
  }

  lemma {:induction false} BigEndianReads(n: nat, width: nat)
    requires n < Power256(width)
    ensures |BigEndian(n, width)| == width && Number(BigEndian(n, width)) == n
  {
    if width > 0 {
      BigEndianReads(n / 256, width - 1);
      var b := BigEndian(n, width);
      assert b[..|b| - 1] == BigEndian(n / 256, width - 1);
    }
  }

  /** The eight bytes of a path length read as that length. */
  lemma LengthReads(path: Bytes)
    requires |path| < U64_LIMIT
    ensures |BigEndian(|path|, 8)| == 8 && Number(BigEndian(|path|, 8)) == |path|
  {
    assert Power256(2) == 256 * 256;
    assert Power256(4) == Power256(2) * 0x1_0000;
    assert Power256(6) == Power256(4) * 0x1_0000;
    assert Power256(8) == U64_LIMIT;
    BigEndianReads(|path|, 8);
  }

  /** Encoding writes lower-case letters. */
  lemma {:induction false} HexIsLowerCase(b: Bytes)
    ensures |HexEncode(b)| == 2 * |b|
    ensures forall c <- HexEncode(b) :: '0' <= c <= '9' || 'a' <= c <= 'f'
  {
    if b != [] {
      HexIsLowerCase(b[1..]);
    }
  }

  /** The bytes hashed for an asset: a zero, the length of its path, its path and its digest. */
  ghost predicate IsLeaf(sha: Sha, a: Asset, leaf: Digest) {
    && HexDecode(a.digest).Some? && |HexDecode(a.digest).value| == 32 && |a.path| < U64_LIMIT
    && exists length: Bytes ::
         && |length| == 8 && Number(length) == |a.path|
         && leaf == sha([0] + length + a.path + HexDecode(a.digest).value)
  }

  lemma LeafIsHash(sha: Sha, a: Asset)
    requires Leaf(sha, a).Ok?
    ensures IsLeaf(sha, a, Leaf(sha, a).value)
  {
    LengthReads(a.path);
  }

  lemma TreeOfTwo(sha: Sha, x: Digest, y: Digest)
    ensures TreeRoot(sha, [x, y]) == sha([1] + x + y)
  {
    assert Parents(sha, [x, y]) == [sha([1] + x + y)];
  }

  lemma TreeOfThree(sha: Sha, x: Digest, y: Digest, z: Digest)
    ensures TreeRoot(sha, [x, y, z]) == sha([1] + sha([1] + x + y) + sha([1] + z + z))
  {
    assert Parents(sha, [x, y, z]) == [sha([1] + x + y), sha([1] + z + z)];
    TreeOfTwo(sha, sha([1] + x + y), sha([1] + z + z));
  }

  /**
   The root of no asset is the hash of the byte two, that of one its leaf, that of two the hash of the byte one and
   the two leaves in order; of three, the third leaf stands twice.
   */
  lemma SmallRoots(sha: Sha, a: Asset, b: Asset, c: Asset)
    requires Leaf(sha, a).Ok? && Leaf(sha, b).Ok? && Leaf(sha, c).Ok?
    ensures var x, y, z := Leaf(sha, a).value, Leaf(sha, b).value, Leaf(sha, c).value;
            && IsLeaf(sha, a, x) && IsLeaf(sha, b, y) && IsLeaf(sha, c, z)
            && Root(sha, []) == Ok(sha([2]))
            && Root(sha, [a]) == Ok(x)
            && Root(sha, [a, b]) == Ok(sha([1] + x + y))
            && Root(sha, [a, b, c]) == Ok(sha([1] + sha([1] + x + y) + sha([1] + z + z)))
  {
    var x, y, z := Leaf(sha, a).value, Leaf(sha, b).value, Leaf(sha, c).value;
    LeafIsHash(sha, a);
    LeafIsHash(sha, b);
    LeafIsHash(sha, c);
    LeavesOfUpToThree(sha, a, b, c);
    TreeOfTwo(sha, x, y);
    TreeOfThree(sha, x, y, z);
  }

  lemma LeavesCons(sha: Sha, a: Asset, rest: seq<Asset>, nodes: seq<Digest>)
    requires Leaf(sha, a).Ok? && Leaves(sha, rest) == Ok(nodes)
    ensures Leaves(sha, [a] + rest) == Ok([Leaf(sha, a).value] + nodes)
  {
    assert ([a] + rest)[1..] == rest;
  }

  lemma LeavesOfUpToThree(sha: Sha, a: Asset, b: Asset, c: Asset)
    requires Leaf(sha, a).Ok? && Leaf(sha, b).Ok? && Leaf(sha, c).Ok?
    ensures Leaves(sha, [a]) == Ok([Leaf(sha, a).value])
    ensures Leaves(sha, [a, b]) == Ok([Leaf(sha, a).value, Leaf(sha, b).value])
    ensures Leaves(sha, [a, b, c]) == Ok([Leaf(sha, a).value, Leaf(sha, b).value, Leaf(sha, c).value])
  {
    var x, y, z := Leaf(sha, a).value, Leaf(sha, b).value, Leaf(sha, c).value;
    LeavesCons(sha, a, [], []);
    LeavesCons(sha, b, [], []);
    LeavesCons(sha, c, [], []);
    assert [a] + [] == [a] && [b] + [] == [b] && [c] + [] == [c];
    assert [x] + [] == [x] && [y] + [] == [y] && [z] + [] == [z];
    LeavesCons(sha, a, [b], [y]);
    LeavesCons(sha, b, [c], [z]);
    assert [a] + [b] == [a, b] && [b] + [c] == [b, c] && [x] + [y] == [x, y] && [y] + [z] == [y, z];
    LeavesCons(sha, a, [b, c], [y, z]);
    assert [a] + [b, c] == [a, b, c] && [x] + [y, z] == [x, y, z];
  }

  // The computation, level by level

  method ComputeLeaves(sha: Sha, assets: seq<Asset>) returns (r: Result<seq<Digest>, Error>)
    ensures r == Leaves(sha, assets)
  {
    var nodes: seq<Digest> := [];
    assert assets[0..] == assets;
    if Leaves(sha, assets).Ok? {
      assert nodes + Leaves(sha, assets).value == Leaves(sha, assets).value;
    }
    for i := 0 to |assets|
      invariant Leaves(sha, assets) ==
                match Leaves(sha, assets[i..])
                case Err(e) => Err(e)
                case Ok(rest) => Ok(nodes + rest)
    {
      assert assets[i..][1..] == assets[i + 1..];
      var leaf := Leaf(sha, assets[i]);
      if leaf.Err? {
        return Err(leaf.error);
      }
      ghost var before := nodes;
      nodes := nodes + [leaf.value];
      if Leaves(sha, assets[i + 1..]).Ok? {
        var rest := Leaves(sha, assets[i + 1..]).value;
        assert before + ([leaf.value] + rest) == nodes + rest;
      }
    }
    assert nodes + [] == nodes;
    return Ok(nodes);
  }

  method ComputeParents(sha: Sha, nodes: seq<Digest>) returns (parents: seq<Digest>)
    ensures parents == Parents(sha, nodes)
  {
    parents := [];
    var i := 0;
    while i < |nodes|
      invariant i <= |nodes| + 1 && i == 2 * |parents|
      invariant parents == Parents(sha, nodes)[..|parents|]
    {
      var left := nodes[i];
      var right := if i + 1 < |nodes| then nodes[i + 1] else nodes[i];
      parents := parents + [sha(ParentInput(left, right))];
      i := i + 2;
    }
  }

  /** The printed root is the encoding of the specified one, and the errors are those of the first bad asset. */
  method AssetIntegrityRoot(sha: Sha, assets: seq<Asset>) returns (r: Result<string, Error>)
    ensures Root(sha, assets).Err? ==> r == Err(Root(sha, assets).error)
    ensures Root(sha, assets).Ok? ==>
              r == Ok(HexEncode(Root(sha, assets).value)) && HexDecode(r.value) == Some(Root(sha, assets).value)
  {
    var leaves := ComputeLeaves(sha, assets);
    if leaves.Err? {
      return Err(leaves.error);
    }
    var nodes := leaves.value;
    if nodes == [] {
      HexRoundTrip(sha([EMPTY]));
      return Ok(HexEncode(sha([EMPTY])));
    }
    while |nodes| > 1
      invariant nodes != [] && TreeRoot(sha, nodes) == TreeRoot(sha, leaves.value)
      decreases |nodes|
    {
      nodes := ComputeParents(sha, nodes);
    }
    HexRoundTrip(nodes[0]);
    return Ok(HexEncode(nodes[0]));
  }

  // What the root binds

  /** The digest an asset declares, empty when it is not hexadecimal. */
  function DigestOf(a: Asset): Bytes {
    HexDecode(a.digest).GetOr([])
  }

  /** The map from path to decoded digest. */
  function Decoded(assets: seq<Asset>): map<Bytes, Bytes> {
    if assets == [] then map[] else Decoded(assets[1..])[assets[0].path := DigestOf(assets[0])]
  }

  function Pairs(assets: seq<Asset>): set<(Bytes, Bytes)> {
    set a | a in assets :: (a.path, DigestOf(a))
  }

  /** The assets list a map: no path occurs twice. */
  predicate ListsMap(assets: seq<Asset>) {
    forall i, j :: 0 <= i < j < |assets| ==> assets[i].path != assets[j].path
  }

  lemma {:induction false} DecodedIsPairs(assets: seq<Asset>)
    requires ListsMap(assets)
    ensures forall p, d :: (p, d) in Pairs(assets) <==> p in Decoded(assets) && Decoded(assets)[p] == d
  {
    if assets != [] {
      var rest := assets[1..];
      DecodedIsPairs(rest);
      assert assets == [assets[0]] + rest;
      assert Pairs(assets) == Pairs(rest) + {(assets[0].path, DigestOf(assets[0]))};
      assert forall a <- rest :: a.path != assets[0].path;
    }
  }

  /** Two different inputs with one digest. */
  ghost predicate Collision(sha: Sha, x: Bytes, y: Bytes) {
    x != y && sha(x) == sha(y)
  }

  /** Whether `x` is hashed for one of the levels above `nodes`. */
  ghost predicate HashedAbove(sha: Sha, nodes: seq<Digest>, x: Bytes)
    decreases |nodes|
  {
    |nodes| > 1 && (
      || (exists i :: 0 <= i < |nodes| && i % 2 == 0 && x == ParentInput(nodes[i], Partner(nodes, i)))
      || HashedAbove(sha, Parents(sha, nodes), x))
  }

  ghost predicate HashedLeaf(assets: seq<Asset>, x: Bytes) {
    exists a <- assets :: |DigestOf(a)| == 32 && x == LeafInput(a.path, DigestOf(a))
  }

  /** Whether `x` is hashed while the root of `assets` is computed. */
  ghost predicate Hashed(sha: Sha, assets: seq<Asset>, x: Bytes) {
    || (assets == [] && x == [EMPTY])
    || HashedLeaf(assets, x)
    || (Leaves(sha, assets).Ok? && HashedAbove(sha, Leaves(sha, assets).value, x))
  }

  /** No input hashed above `a` collides with one hashed above `b`. */
  ghost predicate Apart(sha: Sha, a: seq<Digest>, b: seq<Digest>) {
    forall x, y :: HashedAbove(sha, a, x) && HashedAbove(sha, b, y) ==> !Collision(sha, x, y)
  }

  function Height(n: nat): nat {
    if n <= 1 then 0 else 1 + Height((n + 1) / 2)
  }

  lemma ParentInputIsInjective(a: Digest, b: Digest, c: Digest, d: Digest)
    requires ParentInput(a, b) == ParentInput(c, d)
    ensures a == c && b == d
  {
    var x, y := ParentInput(a, b), ParentInput(c, d);
    assert a == x[1..33] && c == y[1..33];
    assert b == x[33..] && d == y[33..];
  }

  /** The input of the parent over the pair of nodes that starts at `2 * k`. */
  function PairInput(nodes: seq<Digest>, k: nat): Bytes
    requires 2 * k < |nodes|
  {
    ParentInput(nodes[2 * k], Partner(nodes, 2 * k))
  }

  lemma PairIsHashed(sha: Sha, nodes: seq<Digest>, k: nat)
    requires |nodes| > 1 && 2 * k < |nodes|
    ensures HashedAbove(sha, nodes, PairInput(nodes, k))
    ensures Parents(sha, nodes)[k] == sha(PairInput(nodes, k))
  {
    assert (2 * k) % 2 == 0;
  }

  lemma SamePair(sha: Sha, a: seq<Digest>, b: seq<Digest>, k: nat, j: nat)
    requires |a| > 1 && |b| > 1 && Apart(sha, a, b)
    requires 2 * k < |a| && 2 * j < |b| && Parents(sha, a)[k] == Parents(sha, b)[j]
    ensures a[2 * k] in b && Partner(a, 2 * k) in b
  {
    PairIsHashed(sha, a, k);
    PairIsHashed(sha, b, j);
    assert !Collision(sha, PairInput(a, k), PairInput(b, j));
    ParentInputIsInjective(a[2 * k], Partner(a, 2 * k), b[2 * j], Partner(b, 2 * j));
  }

  /** If every parent over `a` is a parent over `b`, every node of `a` is a node of `b`. */
  lemma ChildrenFollow(sha: Sha, a: seq<Digest>, b: seq<Digest>)
    requires |a| > 1 && |b| > 1 && Apart(sha, a, b)
    requires forall p <- Parents(sha, a) :: p in Parents(sha, b)
    ensures forall x <- a :: x in b
  {
    forall i | 0 <= i < |a| ensures a[i] in b {
      var k := i / 2;
      var p := Parents(sha, a)[k];
      assert p in Parents(sha, a);
      var j :| 0 <= j < |Parents(sha, b)| && Parents(sha, b)[j] == p;
      SamePair(sha, a, b, k, j);
      assert i == 2 * k || i == 2 * k + 1;
    }
  }

  lemma ApartParents(sha: Sha, a: seq<Digest>, b: seq<Digest>)
    requires |a| > 1 && Apart(sha, a, b)
    ensures Apart(sha, Parents(sha, a), b)
    ensures |b| > 1 ==> Apart(sha, a, Parents(sha, b)) && Apart(sha, Parents(sha, a), Parents(sha, b))
  {
  }

  lemma ApartIsSymmetric(sha: Sha, a: seq<Digest>, b: seq<Digest>)
    requires Apart(sha, a, b)
    ensures Apart(sha, b, a)
  {
  }

  /** Trees of one height with one root have the same nodes on their lowest level, duplicates aside. */
  lemma {:induction false} SameHeightSameNodes(sha: Sha, a: seq<Digest>, b: seq<Digest>)
    requires a != [] && b != [] && Height(|a|) == Height(|b|)
    requires TreeRoot(sha, a) == TreeRoot(sha, b) && Apart(sha, a, b)
    ensures forall x :: x in a <==> x in b
    decreases |a|
  {
    if |a| > 1 {
      ApartParents(sha, a, b);
      SameHeightSameNodes(sha, Parents(sha, a), Parents(sha, b));
      ChildrenFollow(sha, a, b);
      ApartIsSymmetric(sha, a, b);
      ChildrenFollow(sha, b, a);
    }
  }

  lemma ParentIsHashed(sha: Sha, b: seq<Digest>, i: nat)
    requires |b| > 1 && i < |Parents(sha, b)|
    ensures exists x :: sha(x) == Parents(sha, b)[i] && HashedAbove(sha, b, x) && [PARENT] <= x
  {
    var x := ParentInput(b[2 * i], Partner(b, 2 * i));
    assert HashedAbove(sha, b, x) && [PARENT] <= x && sha(x) == Parents(sha, b)[i];
  }

  /** A lower tree with the same root has a node that is hashed as a parent in the higher one. */
  lemma {:induction false} LowerTreeNodeIsParent(sha: Sha, a: seq<Digest>, b: seq<Digest>)
    requires a != [] && Height(|a|) < Height(|b|)
    requires TreeRoot(sha, a) == TreeRoot(sha, b) && Apart(sha, a, b)
    ensures exists n, x :: n in a && sha(x) == n && HashedAbove(sha, b, x) && [PARENT] <= x
    decreases |b|
  {
    ApartIsSymmetric(sha, a, b);
    ApartParents(sha, b, a);
    var up := Parents(sha, b);
    ApartIsSymmetric(sha, up, a);
    if Height(|a|) == Height(|up|) {
      SameHeightSameNodes(sha, a, up);
      assert a[0] in up;
      var i :| 0 <= i < |up| && up[i] == a[0];
      ParentIsHashed(sha, b, i);
    } else {
      LowerTreeNodeIsParent(sha, a, up);
    }
  }

  lemma {:induction false} LeavesAre(sha: Sha, assets: seq<Asset>)
    requires Leaves(sha, assets).Ok?
    ensures var nodes := Leaves(sha, assets).value;
            && |nodes| == |assets|
            && forall i :: 0 <= i < |assets| ==>
                 |DigestOf(assets[i])| == 32 && nodes[i] == sha(LeafInput(assets[i].path, DigestOf(assets[i])))
  {
    if assets != [] {
      LeavesAre(sha, assets[1..]);
    }
  }

  lemma LeafInputIsInjective(p: Bytes, d: Digest, q: Bytes, e: Digest)
    requires LeafInput(p, d) == LeafInput(q, e)
    ensures p == q && d == e
  {
    BigEndianLength(|p|, 8);
    BigEndianLength(|q|, 8);
    var x, y := LeafInput(p, d), LeafInput(q, e);
    assert |x| == 41 + |p| && |y| == 41 + |q|;
    assert p == x[9..9 + |p|] && q == y[9..9 + |q|];
    assert d == x[9 + |p|..] && e == y[9 + |q|..];
  }

  /** No input hashed for `a` collides with one hashed for `b`. */
  ghost predicate NoCollision(sha: Sha, a: seq<Asset>, b: seq<Asset>) {
    forall x, y :: Hashed(sha, a, x) && Hashed(sha, b, y) ==> !Collision(sha, x, y)
  }

  function AssetInput(a: Asset): Bytes
    requires |DigestOf(a)| == 32
  {
    LeafInput(a.path, DigestOf(a))
  }

  lemma AssetIsHashed(sha: Sha, assets: seq<Asset>, i: nat)
    requires i < |assets| && |DigestOf(assets[i])| == 32
    ensures Hashed(sha, assets, AssetInput(assets[i]))
    ensures [LEAF] <= AssetInput(assets[i])
  {
    assert HashedLeaf(assets, AssetInput(assets[i]));
  }

  lemma SameLeafSamePair(sha: Sha, a: seq<Asset>, b: seq<Asset>, i: nat, j: nat)
    requires NoCollision(sha, a, b) && i < |a| && j < |b|
    requires |DigestOf(a[i])| == 32 && |DigestOf(b[j])| == 32
    requires sha(AssetInput(a[i])) == sha(AssetInput(b[j]))
    ensures (a[i].path, DigestOf(a[i])) == (b[j].path, DigestOf(b[j]))
  {
    AssetIsHashed(sha, a, i);
    AssetIsHashed(sha, b, j);
    assert !Collision(sha, AssetInput(a[i]), AssetInput(b[j]));
    LeafInputIsInjective(a[i].path, DigestOf(a[i]), b[j].path, DigestOf(b[j]));
  }

  lemma SameLeavesSamePairs(sha: Sha, a: seq<Asset>, b: seq<Asset>)
    requires Leaves(sha, a).Ok? && Leaves(sha, b).Ok? && NoCollision(sha, a, b)
    requires forall n <- Leaves(sha, a).value :: n in Leaves(sha, b).value
    ensures Pairs(a) <= Pairs(b)
  {
    LeavesAre(sha, a);
    LeavesAre(sha, b);
    var m, n := Leaves(sha, a).value, Leaves(sha, b).value;
    forall i | 0 <= i < |a| ensures (a[i].path, DigestOf(a[i])) in Pairs(b) {
      assert m[i] in m;
      var j :| 0 <= j < |b| && n[j] == m[i];
      SameLeafSamePair(sha, a, b, i, j);
      assert b[j] in b;
    }
  }

  lemma NoCollisionIsSymmetric(sha: Sha, a: seq<Asset>, b: seq<Asset>)
    requires NoCollision(sha, a, b)
    ensures NoCollision(sha, b, a)
  {
  }

  /** A leaf of one package cannot be a parent of the other. */
  lemma HeightsAgree(sha: Sha, a: seq<Asset>, b: seq<Asset>)
    requires a != [] && b != [] && Root(sha, a).Ok? && Root(sha, a) == Root(sha, b)
    requires NoCollision(sha, a, b)
    ensures Height(|a|) >= Height(|b|)
  {
    LeavesAre(sha, a);
    LeavesAre(sha, b);
    var m, n := Leaves(sha, a).value, Leaves(sha, b).value;
    if Height(|a|) < Height(|b|) {
      assert Apart(sha, m, n);
      LowerTreeNodeIsParent(sha, m, n);
      var l, x :| l in m && sha(x) == l && HashedAbove(sha, n, x) && [PARENT] <= x;
      var i :| 0 <= i < |m| && m[i] == l;
      LeafIsNoParent(sha, a, b, i, x);
    }
  }

  lemma LeafIsNoParent(sha: Sha, a: seq<Asset>, b: seq<Asset>, i: nat, x: Bytes)
    requires i < |a| && |DigestOf(a[i])| == 32 && Hashed(sha, b, x) && [PARENT] <= x
    requires sha(AssetInput(a[i])) == sha(x)
    ensures !NoCollision(sha, a, b)
  {
    AssetIsHashed(sha, a, i);
    assert AssetInput(a[i])[0] != x[0];
    assert Collision(sha, AssetInput(a[i]), x);
  }

  /** The empty package's root is hashed from an input that no leaf and no parent has. */
  lemma EmptyRootIsItsOwn(sha: Sha, b: seq<Asset>)
    requires b != [] && Root(sha, b) == Ok(sha([EMPTY]))
    ensures !NoCollision(sha, [], b)
  {
    LeavesAre(sha, b);
    var n := Leaves(sha, b).value;
    TopIsHashed(sha, n);
    if |n| == 1 {
      AssetIsHashed(sha, b, 0);
      assert Hashed(sha, [], [EMPTY]) && Collision(sha, [EMPTY], AssetInput(b[0]));
    } else {
      var y :| HashedAbove(sha, n, y) && sha(y) == TreeRoot(sha, n) && [PARENT] <= y;
      assert y[0] == PARENT;
      assert Hashed(sha, [], [EMPTY]) && Collision(sha, [EMPTY], y);
    }
  }

  lemma {:induction false} TopIsHashed(sha: Sha, nodes: seq<Digest>)
    requires nodes != []
    ensures |nodes| > 1 ==> exists y :: HashedAbove(sha, nodes, y) && sha(y) == TreeRoot(sha, nodes) && [PARENT] <= y
    decreases |nodes|
  {
    if |nodes| == 2 {
      PairIsHashed(sha, nodes, 0);
      assert TreeRoot(sha, nodes) == Parents(sha, nodes)[0];
      assert [PARENT] <= PairInput(nodes, 0);
    } else if |nodes| > 2 {
      TopIsHashed(sha, Parents(sha, nodes));
    }
  }

  /**
   The root binds the whole asset map: when two packages have one root and different maps from
   path to decoded digest, two inputs hashed for their roots collide.
   */
  lemma RootBindsAssets(sha: Sha, a: seq<Asset>, b: seq<Asset>)
    requires ListsMap(a) && ListsMap(b)
    requires Root(sha, a).Ok? && Root(sha, a) == Root(sha, b)
    requires Decoded(a) != Decoded(b)
    ensures exists x, y :: Hashed(sha, a, x) && Hashed(sha, b, y) && Collision(sha, x, y)
  {
    if NoCollision(sha, a, b) {
      SameRootSameMap(sha, a, b);
    }
  }

  lemma SameRootSameMap(sha: Sha, a: seq<Asset>, b: seq<Asset>)
    requires ListsMap(a) && ListsMap(b)
    requires Root(sha, a).Ok? && Root(sha, a) == Root(sha, b) && NoCollision(sha, a, b)
    ensures Decoded(a) == Decoded(b)
  {
    NoCollisionIsSymmetric(sha, a, b);
    SameRootSamePairs(sha, a, b);
    DecodedIsPairs(a);
    DecodedIsPairs(b);
    forall p ensures p in Decoded(a) <==> p in Decoded(b) {
      assert p in Decoded(a) ==> (p, Decoded(a)[p]) in Pairs(a);
      assert p in Decoded(b) ==> (p, Decoded(b)[p]) in Pairs(b);
    }
    forall p | p in Decoded(a) ensures Decoded(a)[p] == Decoded(b)[p] {
      assert (p, Decoded(a)[p]) in Pairs(a);
    }
  }

  lemma SameRootSamePairs(sha: Sha, a: seq<Asset>, b: seq<Asset>)
    requires Root(sha, a).Ok? && Root(sha, a) == Root(sha, b)
    requires NoCollision(sha, a, b) && NoCollision(sha, b, a)
    ensures Pairs(a) == Pairs(b)
  {
    LeavesAre(sha, a);
    LeavesAre(sha, b);
    if a == [] || b == [] {
      if b != [] { EmptyRootIsItsOwn(sha, b); }
      if a != [] { EmptyRootIsItsOwn(sha, a); }
    } else {
      HeightsAgree(sha, a, b);
      HeightsAgree(sha, b, a);
      SameHeightSameNodes(sha, Leaves(sha, a).value, Leaves(sha, b).value);
      SameLeavesSamePairs(sha, a, b);
      SameLeavesSamePairs(sha, b, a);
    }
  }
}
