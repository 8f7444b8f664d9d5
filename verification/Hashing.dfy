/** Byte strings, SHA-256 as an arbitrary function with 32-byte results, and the
    domain-separated leaf and node hashes of section 2.1 of RFC 6962. */
module Hashing {

  newtype Byte = x: int | 0 <= x < 256
  datatype Bytes = Bytes(octets: seq<Byte>)
  type Digest = b: Bytes | |b.octets| == 32 witness Bytes(seq(32, _ => 0))
  datatype Hasher = Sha256(hash: Bytes -> Digest)

  function LeafInput(data: Bytes): Bytes {
    Bytes([0] + data.octets)
  }

  function NodeInput(left: Bytes, right: Bytes): Bytes {
    Bytes([1] + left.octets + right.octets)
  }

  function LeafHash(sha: Hasher, data: Bytes): Digest {
    sha.hash(LeafInput(data))
  }

  function NodeHash(sha: Hasher, left: Bytes, right: Bytes): Digest {
    sha.hash(NodeInput(left, right))
  }

  predicate IsDigest(b: Bytes) {
    |b.octets| == 32
  }

  // No two different strings of this finite set of actually hashed strings collide.
  ghost predicate CollisionFree(sha: Hasher, inputs: set<Bytes>) {
    forall x, y | x in inputs && y in inputs && sha.hash(x) == sha.hash(y) :: x == y
  }

  lemma FewerInputs(sha: Hasher, inputs: set<Bytes>, fewer: set<Bytes>)
    requires CollisionFree(sha, inputs) && fewer <= inputs
    ensures CollisionFree(sha, fewer)
  {
  }

  // Equal node hashes have equal children, once one child is known to have the length of a
  // digest in both nodes.
  lemma NodeHashInjective(sha: Hasher, inputs: set<Bytes>, l: Bytes, r: Bytes, l': Bytes, r': Bytes)
    requires CollisionFree(sha, inputs)
    requires NodeInput(l, r) in inputs && NodeInput(l', r') in inputs
    requires NodeHash(sha, l, r) == NodeHash(sha, l', r')
    requires (IsDigest(l) && IsDigest(l')) || (IsDigest(r) && IsDigest(r'))
    ensures l == l' && r == r'
  {
    var x, y := NodeInput(l, r).octets, NodeInput(l', r').octets;
    assert x == y;
    var n := |l.octets|;
    assert n == |l'.octets|;
    assert l.octets == x[1..1 + n] && l'.octets == y[1..1 + n];
    assert r.octets == x[1 + n..] && r'.octets == y[1 + n..];
  }

  // The two domain-separation prefixes keep leaves and nodes apart.
  lemma LeafIsNoNode(sha: Hasher, inputs: set<Bytes>, data: Bytes, l: Bytes, r: Bytes)
    requires CollisionFree(sha, inputs)
    requires LeafInput(data) in inputs && NodeInput(l, r) in inputs
    ensures LeafHash(sha, data) != NodeHash(sha, l, r)
  {
    assert LeafInput(data).octets[0] != NodeInput(l, r).octets[0];
  }

  // Different leaf data have different leaf hashes.
  lemma LeafHashInjective(sha: Hasher, inputs: set<Bytes>, a: Bytes, b: Bytes)
    requires CollisionFree(sha, inputs)
    requires LeafInput(a) in inputs && LeafInput(b) in inputs
    requires LeafHash(sha, a) == LeafHash(sha, b)
    ensures a == b
  {
    assert a.octets == LeafInput(a).octets[1..] && b.octets == LeafInput(b).octets[1..];
  }
}
