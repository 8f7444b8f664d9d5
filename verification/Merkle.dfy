/** The Merkle tree of src/ledger/merkle.py: sizes and splits, roots, inclusion paths and
    their verifier. */
module Merkle {
  import opened Hashing
  import opened Wrappers

  // ---- The largest power of two below a size ----

  function BitLength(n: nat): nat {
    if n == 0 then 0 else 1 + BitLength(n / 2)
  }

  function Pow2(e: nat): (p: nat)
    ensures p >= 1
  {
    if e == 0 then 1 else 2 * Pow2(e - 1)
  }

  lemma {:induction false} BitLengthBounds(n: nat)
    requires n >= 1
    ensures BitLength(n) >= 1 && Pow2(BitLength(n) - 1) <= n < Pow2(BitLength(n))
  {
    if n <= 1 {
    } else {
      BitLengthBounds(n / 2);
    }
  }

  // BitLength(n - 1) is the rounded-up binary logarithm of n: the least e with n <= 2^e.
  lemma {:induction false} BitLengthLeast(n: nat, e: nat)
    ensures n < Pow2(e) <==> BitLength(n) <= e
  {
    if n > 0 && e > 0 {
      BitLengthLeast(n / 2, e - 1);
    }
  }

  function Split(size: nat): (k: nat)
    requires size >= 2
    ensures 1 <= k < size <= 2 * k
  {
    BitLengthBounds(size - 1);
    Pow2(BitLength(size - 1) - 1)
  }

  // The split is the only power of two in its range.
  lemma {:induction false} SplitUnique(size: nat, e: nat)
    requires Pow2(e) < size <= 2 * Pow2(e)
    ensures size >= 2 && Split(size) == Pow2(e)
  {
    BitLengthLeast(size - 1, e);
    assert Pow2(e + 1) == 2 * Pow2(e);
    BitLengthLeast(size - 1, e + 1);
    assert BitLength(size - 1) == e + 1;
  }

  lemma SplitHalves(s: nat)
    requires s >= 2
    ensures Split(s + 1) == 2 * Split(s / 2 + 1)
  {
    assert BitLength(s) == 1 + BitLength(s / 2);
    BitLengthBounds(s / 2);
  }

  ghost predicate IsPow2(n: nat) {
    exists e: nat :: n == Pow2(e)
  }

  lemma SplitIsPow2(size: nat)
    requires size >= 2
    ensures IsPow2(Split(size))
  {
    BitLengthBounds(size - 1);
  }

  // A perfect tree splits into two perfect halves.
  lemma PerfectSplits(n: nat)
    requires IsPow2(n) && n >= 2
    ensures n % 2 == 0 && Split(n) == n / 2 && IsPow2(n / 2)
  {
    hide Pow2, Split;
    var e: nat :| n == Pow2(e);
    Pow2Unfolds(e);
    SplitUnique(n, e - 1);
  }

  lemma Pow2Unfolds(e: nat)
    ensures Pow2(e) == if e == 0 then 1 else 2 * Pow2(e - 1)
  {
  }

  // ---- Tree hash ----

  // EMPTY_ROOT is the hash of no bytes; every other tree hash is RFC 6962's.
  function MerkleRoot(sha: Hasher, leaves: seq<Digest>): Digest
    decreases |leaves|
  {
    if |leaves| == 0 then sha.hash(Bytes([]))
    else if |leaves| == 1 then leaves[0]
    else
      var k := Split(|leaves|);
      NodeHash(sha, MerkleRoot(sha, leaves[..k]), MerkleRoot(sha, leaves[k..]))
  }

  // The first roots written out, and what a leaf is the hash of.
  lemma SmallRoots(sha: Hasher, data: Bytes, x: Digest, y: Digest, z: Digest)
    ensures LeafHash(sha, data) == sha.hash(Bytes([0] + data.octets))
    ensures MerkleRoot(sha, []) == sha.hash(Bytes([])) && MerkleRoot(sha, [x]) == x
    ensures MerkleRoot(sha, [x, y]) == sha.hash(Bytes([1] + x.octets + y.octets))
    ensures MerkleRoot(sha, [x, y, z])
        == sha.hash(Bytes([1] + sha.hash(Bytes([1] + x.octets + y.octets)).octets + z.octets))
  {
    SplitUnique(2, 0);
    SplitUnique(3, 1);
    assert [x, y][..1] == [x] && [x, y][1..] == [y];
    assert [x, y, z][..2] == [x, y] && [x, y, z][2..] == [z];
  }

  // Everything hashed while computing the root.
  ghost function TreeInputs(sha: Hasher, leaves: seq<Digest>): set<Bytes>
    decreases |leaves|
  {
    if |leaves| == 0 then {Bytes([])}
    else if |leaves| == 1 then {}
    else
      var k := Split(|leaves|);
      {NodeInput(MerkleRoot(sha, leaves[..k]), MerkleRoot(sha, leaves[k..]))}
      + TreeInputs(sha, leaves[..k]) + TreeInputs(sha, leaves[k..])
  }

  // ---- Inclusion ----

  datatype Side = Left | Right
  datatype InclusionStep = InclusionStep(side: Side, hash: Bytes)
  datatype MerkleProofError = LeafOutsideTree | OldSizeOutsideTree

  function Walk(sha: Hasher, items: seq<Digest>, index: nat): seq<InclusionStep>
    requires index < |items|
    decreases |items|
  {
    if |items| == 1 then []
    else
      var k := Split(|items|);
      if index < k then
        Walk(sha, items[..k], index) + [InclusionStep(Right, MerkleRoot(sha, items[k..]))]
      else
        Walk(sha, items[k..], index - k) + [InclusionStep(Left, MerkleRoot(sha, items[..k]))]
  }

  function InclusionProof(sha: Hasher, leaves: seq<Digest>, index: int): Result<seq<InclusionStep>, MerkleProofError> {
    if 0 <= index < |leaves| then Ok(Walk(sha, leaves, index)) else Err(LeafOutsideTree)
  }

  // The sides an audit path for this index must have, lowest level first.
  function ExpectedSides(index: nat, size: nat): seq<Side>
    requires index < size
    decreases size
  {
    if size == 1 then []
    else
      var k := Split(size);
      if index < k then ExpectedSides(index, k) + [Right]
      else ExpectedSides(index - k, size - k) + [Left]
  }

  function Climb(sha: Hasher, leaf: Bytes, path: seq<InclusionStep>): Bytes {
    if path == [] then leaf
    else
      var below := Climb(sha, leaf, path[..|path| - 1]);
      var top := path[|path| - 1];
      if top.side.Left? then NodeHash(sha, top.hash, below) else NodeHash(sha, below, top.hash)
  }

  // Everything hashed while climbing the path.
  ghost function ClimbInputs(sha: Hasher, leaf: Bytes, path: seq<InclusionStep>): set<Bytes> {
    if path == [] then {}
    else
      var below := Climb(sha, leaf, path[..|path| - 1]);
      var top := path[|path| - 1];
      {if top.side.Left? then NodeInput(top.hash, below) else NodeInput(below, top.hash)}
      + ClimbInputs(sha, leaf, path[..|path| - 1])
  }

  // The path has the given sides and every hash on it is 32 bytes long.
  ghost predicate PathFits(path: seq<InclusionStep>, sides: seq<Side>) {
    if path == [] || sides == [] then path == [] && sides == []
    else
      var top := path[|path| - 1];
      IsDigest(top.hash) && top.side == sides[|sides| - 1] && PathFits(path[..|path| - 1], sides[..|sides| - 1])
  }

  ghost predicate Included(sha: Hasher, leaf: Bytes, index: int, size: int, path: seq<InclusionStep>, root: Bytes) {
    0 <= index < size && PathFits(path, ExpectedSides(index, size)) && Climb(sha, leaf, path) == root
  }

  lemma {:induction false} PathFitsPrefix(path: seq<InclusionStep>, sides: seq<Side>, n: nat)
    requires PathFits(path, sides) && n <= |path|
    ensures |path| == |sides| && PathFits(path[..n], sides[..n])
    ensures n < |path| ==> IsDigest(path[n].hash) && path[n].side == sides[n]
    decreases |path|
  {
    if n < |path| {
      var p, q := path[..|path| - 1], sides[..|sides| - 1];
      PathFitsPrefix(p, q, if n < |p| then n else |p|);
      assert p[..n] == path[..n] && q[..n] == sides[..n];
    } else {
      assert path[..n] == path;
      if path != [] {
        PathFitsPrefix(path[..n - 1], sides[..|sides| - 1], n - 1);
      }
      assert sides[..n] == sides;
    }
  }

  lemma PathFitsAt(path: seq<InclusionStep>, sides: seq<Side>, n: nat)
    requires PathFits(path, sides)
    ensures |path| == |sides|
    ensures n < |path| ==> IsDigest(path[n].hash) && path[n].side == sides[n]
  {
    PathFitsPrefix(path, sides, if n < |path| then n else |path|);
  }

  method VerifyInclusion(sha: Hasher, leaf: Bytes, index: int, treeSize: int, proof: seq<InclusionStep>,
      expectedRoot: Bytes)
    returns (ok: bool)
    ensures ok <==> Included(sha, leaf, index, treeSize, proof, expectedRoot)
  {
    if !(0 <= index < treeSize) {
      return false;
    }
    var sides := ExpectedSides(index, treeSize);
    ghost var fits := PathFits(proof, sides);
    if fits {
      PathFitsAt(proof, sides, 0);
    }
    if |proof| != |sides| {
      return false;
    }
    var current := leaf;
    for i := 0 to |proof|
      invariant PathFits(proof[..i], sides[..i])
      invariant current == Climb(sha, leaf, proof[..i])
    {
      if fits {
        PathFitsAt(proof, sides, i);
      }
      if !IsDigest(proof[i].hash) || proof[i].side != sides[i] {
        return false;
      }
      current := if proof[i].side.Left? then NodeHash(sha, proof[i].hash, current)
          else NodeHash(sha, current, proof[i].hash);
      assert proof[..i + 1][..i] == proof[..i] && sides[..i + 1][..i] == sides[..i];
    }
    assert proof[..|proof|] == proof && sides[..|sides|] == sides;
    return current == expectedRoot;
  }

  // Completeness: the generated path is accepted, and its sides are the expected ones.
  lemma {:induction false} InclusionComplete(sha: Hasher, leaves: seq<Digest>, index: nat)
    requires index < |leaves|
    ensures Included(sha, leaves[index], index, |leaves|, Walk(sha, leaves, index), MerkleRoot(sha, leaves))
    decreases |leaves|
  {
    hide Split;
    if |leaves| <= 1 {
    } else {
      var k := Split(|leaves|);
      if index < k {
        InclusionComplete(sha, leaves[..k], index);
        Join(sha, leaves[index], Walk(sha, leaves[..k], index), ExpectedSides(index, k),
            InclusionStep(Right, MerkleRoot(sha, leaves[k..])));
      } else {
        InclusionComplete(sha, leaves[k..], index - k);
        Join(sha, leaves[index], Walk(sha, leaves[k..], index - k), ExpectedSides(index - k, |leaves| - k),
            InclusionStep(Left, MerkleRoot(sha, leaves[..k])));
      }
    }
  }

  lemma Join(sha: Hasher, leaf: Bytes, path: seq<InclusionStep>, sides: seq<Side>, top: InclusionStep)
    requires PathFits(path, sides) && IsDigest(top.hash)
    ensures PathFits(path + [top], sides + [top.side])
    ensures var below := Climb(sha, leaf, path);
      Climb(sha, leaf, path + [top]) == if top.side.Left? then NodeHash(sha, top.hash, below)
          else NodeHash(sha, below, top.hash)
  {
    assert (path + [top])[..|path|] == path && (sides + [top.side])[..|sides|] == sides;
  }

  lemma TreeInputsBelow(sha: Hasher, leaves: seq<Digest>, inputs: set<Bytes>)
    requires |leaves| >= 2 && TreeInputs(sha, leaves) <= inputs
    ensures var k := Split(|leaves|);
      && NodeInput(MerkleRoot(sha, leaves[..k]), MerkleRoot(sha, leaves[k..])) in inputs
      && TreeInputs(sha, leaves[..k]) <= inputs && TreeInputs(sha, leaves[k..]) <= inputs
      && MerkleRoot(sha, leaves) == NodeHash(sha, MerkleRoot(sha, leaves[..k]), MerkleRoot(sha, leaves[k..]))
  {
    hide Split;
  }

  // An accepted path ends in a step that joins the two halves of the tree.
  lemma IncludedBelow(sha: Hasher, leaf: Bytes, index: nat, size: nat, path: seq<InclusionStep>, root: Bytes,
      inputs: set<Bytes>)
    requires size >= 2 && Included(sha, leaf, index, size, path, root) && ClimbInputs(sha, leaf, path) <= inputs
    ensures |path| > 0
    ensures var k, top, rest := Split(size), path[|path| - 1], path[..|path| - 1];
      var below := Climb(sha, leaf, rest);
      && IsDigest(top.hash) && ClimbInputs(sha, leaf, rest) <= inputs
      && if index < k then
           && top.side == Right && Included(sha, leaf, index, k, rest, below)
           && NodeInput(below, top.hash) in inputs && root == NodeHash(sha, below, top.hash)
         else
           && top.side == Left && Included(sha, leaf, index - k, size - k, rest, below)
           && NodeInput(top.hash, below) in inputs && root == NodeHash(sha, top.hash, below)
  {
    hide Split;
    var sides, k := ExpectedSides(index, size), Split(size);
    assert sides[..|sides| - 1] == if index < k then ExpectedSides(index, k) else ExpectedSides(index - k, size - k);
  }

  lemma WalkSplits(sha: Hasher, leaves: seq<Digest>, index: nat)
    requires 2 <= |leaves| && index < |leaves|
    ensures var k := Split(|leaves|);
      Walk(sha, leaves, index) ==
        if index < k then Walk(sha, leaves[..k], index) + [InclusionStep(Right, MerkleRoot(sha, leaves[k..]))]
        else Walk(sha, leaves[k..], index - k) + [InclusionStep(Left, MerkleRoot(sha, leaves[..k]))]
  {
    hide Split, MerkleRoot;
  }

  lemma IncludedInLeaf(sha: Hasher, leaves: seq<Digest>, leaf: Bytes, index: nat, path: seq<InclusionStep>)
    requires |leaves| <= 1 && Included(sha, leaf, index, |leaves|, path, MerkleRoot(sha, leaves))
    ensures index < |leaves| && leaf == leaves[index] && path == Walk(sha, leaves, index)
  {
  }

  // The last step of an accepted path is the last step of the generated one.
  lemma TopStepMatches(sha: Hasher, leaves: seq<Digest>, leaf: Bytes, index: nat, path: seq<InclusionStep>,
      inputs: set<Bytes>)
    requires |leaves| >= 2 && Included(sha, leaf, index, |leaves|, path, MerkleRoot(sha, leaves))
    requires CollisionFree(sha, inputs) && TreeInputs(sha, leaves) <= inputs && ClimbInputs(sha, leaf, path) <= inputs
    ensures |path| > 0 && index < |leaves|
    ensures var k, top, rest := Split(|leaves|), path[|path| - 1], path[..|path| - 1];
      && ClimbInputs(sha, leaf, rest) <= inputs
      && if index < k then
           top == InclusionStep(Right, MerkleRoot(sha, leaves[k..]))
               && Included(sha, leaf, index, k, rest, MerkleRoot(sha, leaves[..k]))
         else
           top == InclusionStep(Left, MerkleRoot(sha, leaves[..k]))
               && Included(sha, leaf, index - k, |leaves| - k, rest, MerkleRoot(sha, leaves[k..]))
  {
    var k := Split(|leaves|);
    var left, right := MerkleRoot(sha, leaves[..k]), MerkleRoot(sha, leaves[k..]);
    hide CollisionFree, TreeInputs, ClimbInputs, Climb, MerkleRoot, Split, NodeHash, NodeInput, PathFits;
    IncludedBelow(sha, leaf, index, |leaves|, path, MerkleRoot(sha, leaves), inputs);
    TreeInputsBelow(sha, leaves, inputs);
    var top, below := path[|path| - 1], Climb(sha, leaf, path[..|path| - 1]);
    if index < k {
      NodeHashInjective(sha, inputs, below, top.hash, left, right);
    } else {
      NodeHashInjective(sha, inputs, top.hash, below, left, right);
    }
  }

  lemma {:induction false} InclusionSound(sha: Hasher, leaves: seq<Digest>, leaf: Bytes, index: nat,
      path: seq<InclusionStep>, inputs: set<Bytes>)
    requires Included(sha, leaf, index, |leaves|, path, MerkleRoot(sha, leaves))
    requires CollisionFree(sha, inputs)
    requires TreeInputs(sha, leaves) <= inputs && ClimbInputs(sha, leaf, path) <= inputs
    ensures index < |leaves| && leaf == leaves[index] && path == Walk(sha, leaves, index)
    decreases |leaves|
  {
    hide *;
    if |leaves| <= 1 {
      IncludedInLeaf(sha, leaves, leaf, index, path);
    } else {
      var k := Split(|leaves|);
      TopStepMatches(sha, leaves, leaf, index, path, inputs);
      TreeInputsBelow(sha, leaves, inputs);
      WalkSplits(sha, leaves, index);
      var rest := path[..|path| - 1];
      assert path == rest + [path[|path| - 1]];
      if index < k {
        InclusionSound(sha, leaves[..k], leaf, index, rest, inputs);
      } else {
        InclusionSound(sha, leaves[k..], leaf, index - k, rest, inputs);
      }
    }
  }

  // Inclusion is exact: for the root of a tree of the claimed size the verifier accepts the
  // generated path of the real leaf and nothing else, as long as no two of the strings that
  // are hashed on the way collide.
  lemma InclusionExact(sha: Hasher, leaves: seq<Digest>, leaf: Bytes, index: int, path: seq<InclusionStep>)
    requires CollisionFree(sha, TreeInputs(sha, leaves) + ClimbInputs(sha, leaf, path))
    ensures Included(sha, leaf, index, |leaves|, path, MerkleRoot(sha, leaves))
       <==> 0 <= index < |leaves| && leaf == leaves[index] && InclusionProof(sha, leaves, index) == Ok(path)
  {
    if 0 <= index < |leaves| {
      InclusionComplete(sha, leaves, index);
      if Included(sha, leaf, index, |leaves|, path, MerkleRoot(sha, leaves)) {
        InclusionSound(sha, leaves, leaf, index, path, TreeInputs(sha, leaves) + ClimbInputs(sha, leaf, path));
      }
    }
  }

  // Both halves of a split have a logarithm smaller by one.
  lemma HalvesAreShorter(n: nat)
    requires n >= 2
    ensures var k, e := Split(n), BitLength(n - 1);
      e >= 1 && BitLength(k - 1) <= e - 1 && BitLength(n - k - 1) <= e - 1
  {
    hide BitLength, Pow2, Split;
    var k, e := Split(n), BitLength(n - 1);
    BitLengthBounds(n - 1);
    SplitIs(n);
    BitLengthLeast(k - 1, e - 1);
    BitLengthLeast(n - k - 1, e - 1);
  }

  lemma SplitIs(size: nat)
    requires size >= 2
    ensures BitLength(size - 1) >= 1 && Split(size) == Pow2(BitLength(size - 1) - 1)
  {
    hide BitLength, Pow2;
    BitLengthBounds(size - 1);
  }

  // An audit path is at most the rounded-up binary logarithm of the tree size long.
  lemma {:induction false} InclusionProofShort(sha: Hasher, leaves: seq<Digest>, index: nat)
    requires index < |leaves|
    ensures |Walk(sha, leaves, index)| <= BitLength(|leaves| - 1)
    decreases |leaves|
  {
    hide Split, BitLength, MerkleRoot;
    if |leaves| <= 1 {
    } else {
      var k := Split(|leaves|);
      HalvesAreShorter(|leaves|);
      if index < k {
        InclusionProofShort(sha, leaves[..k], index);
      } else {
        InclusionProofShort(sha, leaves[k..], index - k);
      }
    }
  }

  // Two leaf lists of the same size with the same root are equal, unless two of the strings
  // hashed for their roots collide.
  lemma {:induction false} RootBindsLeaves(sha: Hasher, a: seq<Digest>, b: seq<Digest>, inputs: set<Bytes>)
    requires |a| == |b|
    requires CollisionFree(sha, inputs) && TreeInputs(sha, a) <= inputs && TreeInputs(sha, b) <= inputs
    requires MerkleRoot(sha, a) == MerkleRoot(sha, b)
    ensures a == b
    decreases |a|
  {
    hide Split, NodeHash, NodeInput, TreeInputs, CollisionFree;
    if |a| <= 1 {
    } else {
      hide MerkleRoot;
      var k := Split(|a|);
      TreeInputsBelow(sha, a, inputs);
      TreeInputsBelow(sha, b, inputs);
      NodeHashInjective(sha, inputs, MerkleRoot(sha, a[..k]), MerkleRoot(sha, a[k..]), MerkleRoot(sha, b[..k]),
          MerkleRoot(sha, b[k..]));
      RootBindsLeaves(sha, a[..k], b[..k], inputs);
      RootBindsLeaves(sha, a[k..], b[k..], inputs);
      assert a == a[..k] + a[k..] && b == b[..k] + b[k..];
    }
  }
}
