/** The generated consistency proof is the one and only proof the bit-shifting verifier
    accepts. */
module ConsistencyProofs {
  import opened Hashing
  import opened Merkle
  import opened Consistency
  import opened Wrappers

  // The root of the subtree the climb starts from, and the hashes that join it on the way up.
  ghost function StartRoot(sha: Hasher, m: nat, items: seq<Digest>): Digest
    requires 1 <= m <= |items|
    decreases |items|
  {
    if m == |items| then MerkleRoot(sha, items)
    else
      var k := Split(|items|);
      if m <= k then StartRoot(sha, m, items[..k]) else StartRoot(sha, m - k, items[k..])
  }

  ghost function Joins(sha: Hasher, m: nat, items: seq<Digest>): seq<Digest>
    requires 1 <= m <= |items|
    decreases |items|
  {
    if m == |items| then []
    else
      var k := Split(|items|);
      if m <= k then Joins(sha, m, items[..k]) + [MerkleRoot(sha, items[k..])]
      else Joins(sha, m - k, items[k..]) + [MerkleRoot(sha, items[..k])]
  }

  lemma {:induction false} SubproofParts(sha: Hasher, m: nat, items: seq<Digest>, complete: bool)
    requires 1 <= m <= |items|
    ensures Subproof(sha, m, items, complete)
         == if complete && StartsAtOldRoot(m, |items|) then Joins(sha, m, items)
             else [StartRoot(sha, m, items)] + Joins(sha, m, items)
    decreases |items|
  {
    hide Split, MerkleRoot;
    if m >= |items| {
    } else {
      var k := Split(|items|);
      if m <= k {
        SubproofParts(sha, m, items[..k], complete);
      } else {
        SubproofParts(sha, m - k, items[k..], false);
      }
    }
  }

  lemma {:induction false} OldRootStart(sha: Hasher, m: nat, items: seq<Digest>)
    requires 1 <= m <= |items| && StartsAtOldRoot(m, |items|)
    ensures StartRoot(sha, m, items) == MerkleRoot(sha, items[..m])
    decreases |items|
  {
    hide Split, MerkleRoot;
    if m == |items| {
      assert items[..m] == items;
    } else {
      var k := Split(|items|);
      OldRootStart(sha, m, items[..k]);
      assert items[..k][..m] == items[..m];
    }
  }

  lemma FoldsToNext(sha: Hasher, sides: seq<Side>, items: seq<Bytes>, start: Bytes, oldRoot: Bytes, newRoot: Bytes,
      side: Side, item: Bytes)
    requires FoldsTo(sha, sides, items, start, oldRoot, newRoot)
    ensures FoldsTo(sha, sides + [side], items + [item], start,
                    if side.Left? then NodeHash(sha, item, oldRoot) else oldRoot,
                    if side.Left? then NodeHash(sha, item, newRoot) else NodeHash(sha, newRoot, item))
  {
    assert (sides + [side])[..|sides|] == sides && (items + [item])[..|items|] == items;
  }

  // A prefix that reaches beyond the split is split at the same place as the whole.
  lemma PrefixSplits(sha: Hasher, m: nat, items: seq<Digest>)
    requires |items| >= 2 && Split(|items|) < m <= |items|
    ensures var k := Split(|items|);
      MerkleRoot(sha, items[..m]) == NodeHash(sha, MerkleRoot(sha, items[..k]), MerkleRoot(sha, items[k..][..m - k]))
  {
    var k := Split(|items|);
    SplitIsPow2(|items|);
    var e: nat :| k == Pow2(e);
    SplitUnique(m, e);
    hide Split;
    assert items[..m][..k] == items[..k] && items[..m][k..] == items[k..][..m - k];
  }

  // The joining hashes take the starting subtree to the root of the old and of the new tree.
  ghost predicate JoinsLead(sha: Hasher, m: nat, items: seq<Digest>)
    requires 1 <= m <= |items|
  {
    FoldsTo(sha, JoinSides(m, |items|), Joins(sha, m, items), StartRoot(sha, m, items), MerkleRoot(sha, items[..m]),
        MerkleRoot(sha, items))
  }

  lemma {:induction false} JoinsFold(sha: Hasher, m: nat, items: seq<Digest>)
    requires 1 <= m <= |items|
    ensures JoinsLead(sha, m, items)
    decreases |items|
  {
    hide Split, JoinsLead;
    if m == |items| {
      JoinsFoldWhole(sha, items);
    } else if m <= Split(|items|) {
      JoinsFold(sha, m, items[..Split(|items|)]);
      JoinsFoldOnLeft(sha, m, items);
    } else {
      JoinsFold(sha, m - Split(|items|), items[Split(|items|)..]);
      JoinsFoldOnRight(sha, m, items);
    }
  }

  lemma JoinsFoldWhole(sha: Hasher, items: seq<Digest>)
    requires |items| >= 1
    ensures JoinsLead(sha, |items|, items)
  {
    hide MerkleRoot, Split;
    assert items[..|items|] == items;
  }

  lemma JoinsFoldOnLeft(sha: Hasher, m: nat, items: seq<Digest>)
    requires 1 <= m < |items| && m <= Split(|items|) && JoinsLead(sha, m, items[..Split(|items|)])
    ensures JoinsLead(sha, m, items)
  {
    hide Split, FoldsTo, NodeHash;
    var k := Split(|items|);
    var left, right := MerkleRoot(sha, items[..k]), MerkleRoot(sha, items[k..]);
    assert MerkleRoot(sha, items) == NodeHash(sha, left, right);
    hide MerkleRoot;
    assert items[..k][..m] == items[..m];
    FoldsToNext(sha, JoinSides(m, k), Joins(sha, m, items[..k]), StartRoot(sha, m, items),
        MerkleRoot(sha, items[..m]), left, Right, right);
  }

  lemma JoinsFoldOnRight(sha: Hasher, m: nat, items: seq<Digest>)
    requires 2 <= |items| && Split(|items|) < m < |items| && JoinsLead(sha, m - Split(|items|), items[Split(|items|)..])
    ensures JoinsLead(sha, m, items)
  {
    hide Split, FoldsTo, NodeHash;
    var k := Split(|items|);
    var left, right := MerkleRoot(sha, items[..k]), MerkleRoot(sha, items[k..]);
    assert MerkleRoot(sha, items) == NodeHash(sha, left, right);
    hide MerkleRoot;
    PrefixSplits(sha, m, items);
    FoldsToNext(sha, JoinSides(m - k, |items| - k), Joins(sha, m - k, items[k..]), StartRoot(sha, m, items),
                MerkleRoot(sha, items[k..][..m - k]), right, Left, left);
  }

  // What the generator emits for a proper prefix, and where it leads.
  lemma GeneratedProof(sha: Hasher, leaves: seq<Digest>, m: nat)
    requires 1 <= m < |leaves|
    ensures var start, joins := StartRoot(sha, m, leaves), Joins(sha, m, leaves);
      && ConsistencyProof(sha, leaves, m) == Ok(if StartsAtOldRoot(m, |leaves|) then joins else [start] + joins)
      && (StartsAtOldRoot(m, |leaves|) ==> start == MerkleRoot(sha, leaves[..m]))
      && FoldsTo(sha, JoinSides(m, |leaves|), joins, start, MerkleRoot(sha, leaves[..m]), MerkleRoot(sha, leaves))
  {
    hide Split, StartRoot, Joins, Subproof, StartsAtOldRoot, JoinSides, MerkleRoot, Fold, FoldsTo;
    SubproofParts(sha, m, leaves, true);
    JoinsFold(sha, m, leaves);
    if StartsAtOldRoot(m, |leaves|) {
      OldRootStart(sha, m, leaves);
    }
  }

  // Completeness: every prefix of every leaf list has a proof that the verifier accepts,
  // whatever the hash function.
  lemma ConsistencyComplete(sha: Hasher, leaves: seq<Digest>, m: nat)
    requires 1 <= m <= |leaves|
    ensures ConsistencyProof(sha, leaves, m).Ok?
    ensures Consistent(sha, m, |leaves|, MerkleRoot(sha, leaves[..m]), MerkleRoot(sha, leaves),
        ConsistencyProof(sha, leaves, m).value)
  {
    hide Split, StartRoot, Joins, Subproof, StartsAtOldRoot, JoinSides, MerkleRoot, Fold, FoldsTo;
    if m == |leaves| {
      assert leaves[..m] == leaves;
    } else {
      GeneratedProof(sha, leaves, m);
      var start, joins, proof := StartRoot(sha, m, leaves), Joins(sha, m, leaves),
          ConsistencyProof(sha, leaves, m).value;
      hide ConsistencyProof;
      if !StartsAtOldRoot(m, |leaves|) {
        assert proof[0] == start && proof[1..] == joins;
      }
    }
  }

  lemma FoldBelow(sha: Hasher, sides: seq<Side>, items: seq<Bytes>, start: Bytes, inputs: set<Bytes>)
    requires |sides| == |items| > 0 && FoldInputs(sha, sides, items, start) <= inputs
    ensures var n := |items| - 1;
      var newHash := Fold(sha, sides[..n], items[..n], start).1;
      && FoldInputs(sha, sides[..n], items[..n], start) <= inputs
      && if sides[n].Left? then
           NodeInput(items[n], newHash) in inputs
               && Fold(sha, sides, items, start).1 == NodeHash(sha, items[n], newHash)
         else
           NodeInput(newHash, items[n]) in inputs
               && Fold(sha, sides, items, start).1 == NodeHash(sha, newHash, items[n])
  {
  }

  // These hashes, joined to this start, reach the root of the tree.
  ghost predicate Reaches(sha: Hasher, m: nat, leaves: seq<Digest>, start: Bytes, items: seq<Bytes>, inputs: set<Bytes>)
    requires 1 <= m <= |leaves|
  {
    var sides := JoinSides(m, |leaves|);
    && (forall i | 0 <= i < |items| :: IsDigest(items[i])) && |items| == |sides|
    && Fold(sha, sides, items, start).1 == MerkleRoot(sha, leaves)
    && TreeInputs(sha, leaves) <= inputs && FoldInputs(sha, sides, items, start) <= inputs
  }

  lemma ReachesBelow(sha: Hasher, m: nat, leaves: seq<Digest>, start: Bytes, items: seq<Bytes>, inputs: set<Bytes>)
    requires 1 <= m < |leaves| && Reaches(sha, m, leaves, start, items, inputs) && CollisionFree(sha, inputs)
    ensures |items| > 0
    ensures var k, n := Split(|leaves|), |items| - 1;
      if m <= k then items[n] == MerkleRoot(sha, leaves[k..]) && Reaches(sha, m, leaves[..k], start, items[..n], inputs)
      else items[n] == MerkleRoot(sha, leaves[..k]) && Reaches(sha, m - k, leaves[k..], start, items[..n], inputs)
  {
    hide Split, TreeInputs, FoldInputs, NodeHash, NodeInput, Fold, MerkleRoot, CollisionFree;
    var k, n, sides := Split(|leaves|), |items| - 1, JoinSides(m, |leaves|);
    var left, right := MerkleRoot(sha, leaves[..k]), MerkleRoot(sha, leaves[k..]);
    FoldBelow(sha, sides, items, start, inputs);
    TreeInputsBelow(sha, leaves, inputs);
    assert sides[..n] == if m <= k then JoinSides(m, k) else JoinSides(m - k, |leaves| - k);
    var newHash := Fold(sha, sides[..n], items[..n], start).1;
    if m <= k {
      NodeHashInjective(sha, inputs, newHash, items[n], left, right);
    } else {
      NodeHashInjective(sha, inputs, items[n], newHash, left, right);
    }
  }

  // Whatever reaches the root of the new tree started from the right subtree and was joined
  // by the right hashes.
  lemma {:induction false} FoldSound(sha: Hasher, m: nat, leaves: seq<Digest>, start: Bytes, items: seq<Bytes>,
      inputs: set<Bytes>)
    requires 1 <= m <= |leaves| && Reaches(sha, m, leaves, start, items, inputs) && CollisionFree(sha, inputs)
    ensures start == StartRoot(sha, m, leaves) && items == Joins(sha, m, leaves)
    decreases |leaves|
  {
    hide CollisionFree, TreeInputs, FoldInputs;
    if m == |leaves| {
      hide MerkleRoot;
    } else {
      hide Split, Reaches, MerkleRoot;
      var k, n := Split(|leaves|), |items| - 1;
      var rest, joins, start', joins' := items[..n], Joins(sha, m, leaves), StartRoot(sha, m, leaves), [];
      ReachesBelow(sha, m, leaves, start, items, inputs);
      if m <= k {
        joins' := Joins(sha, m, leaves[..k]);
        assert start' == StartRoot(sha, m, leaves[..k]) && joins == joins' + [items[n]];
        FoldSound(sha, m, leaves[..k], start, rest, inputs);
      } else {
        joins' := Joins(sha, m - k, leaves[k..]);
        assert start' == StartRoot(sha, m - k, leaves[k..]) && joins == joins' + [items[n]];
        FoldSound(sha, m - k, leaves[k..], start, rest, inputs);
      }
      assert items == rest + [items[n]];
    }
  }

  // Everything the verifier hashes for the new root.
  ghost function VerifierInputs(sha: Hasher, m: nat, n: nat, oldRoot: Bytes, proof: seq<Bytes>): set<Bytes>
    requires 1 <= m <= n
  {
    var sides := JoinSides(m, n);
    if StartsAtOldRoot(m, n) then
      if |proof| == |sides| then FoldInputs(sha, sides, proof, oldRoot) else {}
    else if |proof| == |sides| + 1 then FoldInputs(sha, sides, proof[1..], proof[0]) else {}
  }

  // Soundness and uniqueness: against the root of the new tree the verifier accepts the root
  // of the prefix with the generated proof and nothing else, as long as no two of the strings
  // that are hashed on the way collide.
  lemma ConsistencyExact(sha: Hasher, leaves: seq<Digest>, m: int, oldRoot: Bytes, proof: seq<Bytes>)
    requires 1 <= m <= |leaves| ==>
        CollisionFree(sha, TreeInputs(sha, leaves) + VerifierInputs(sha, m, |leaves|, oldRoot, proof))
    ensures Consistent(sha, m, |leaves|, oldRoot, MerkleRoot(sha, leaves), proof)
       <==> 1 <= m <= |leaves| && oldRoot == MerkleRoot(sha, leaves[..m]) && ConsistencyProof(sha, leaves,
           m) == Ok(proof)
  {
    if 1 <= m <= |leaves| {
      ConsistencyComplete(sha, leaves, m);
      if m == |leaves| {
        assert leaves[..m] == leaves;
      } else if Consistent(sha, m, |leaves|, oldRoot, MerkleRoot(sha, leaves), proof) {
        ConsistencySound(sha, leaves, m, oldRoot, proof);
      }
    }
  }

  lemma ConsistencySound(sha: Hasher, leaves: seq<Digest>, m: nat, oldRoot: Bytes, proof: seq<Bytes>)
    requires 1 <= m < |leaves|
    requires CollisionFree(sha, TreeInputs(sha, leaves) + VerifierInputs(sha, m, |leaves|, oldRoot, proof))
    requires Consistent(sha, m, |leaves|, oldRoot, MerkleRoot(sha, leaves), proof)
    ensures oldRoot == MerkleRoot(sha, leaves[..m]) && ConsistencyProof(sha, leaves, m) == Ok(proof)
  {
    hide Split, StartRoot, Joins, Subproof, StartsAtOldRoot, JoinSides, MerkleRoot, Fold, FoldInputs, TreeInputs,
        ConsistencyProof, CollisionFree;
    var inputs := TreeInputs(sha, leaves) + VerifierInputs(sha, m, |leaves|, oldRoot, proof);
    GeneratedProof(sha, leaves, m);
    if StartsAtOldRoot(m, |leaves|) {
      FoldSound(sha, m, leaves, oldRoot, proof, inputs);
    } else {
      FoldSound(sha, m, leaves, proof[0], proof[1..], inputs);
      assert proof == [proof[0]] + proof[1..];
    }
  }

  // Everything hashed for the two trees, for the new tree's prefix and by the verifier.
  ghost function PrefixInputs(sha: Hasher, past: seq<Digest>, leaves: seq<Digest>, proof: seq<Bytes>): set<Bytes>
    requires 1 <= |past| <= |leaves|
  {
    TreeInputs(sha, past) + TreeInputs(sha, leaves[..|past|])
      + (TreeInputs(sha, leaves) + VerifierInputs(sha, |past|, |leaves|, MerkleRoot(sha, past), proof))
  }

  // What an accepted proof says about the leaves: any old tree with that root and size is a
  // prefix of the new one.
  lemma AcceptedMeansPrefix(sha: Hasher, past: seq<Digest>, leaves: seq<Digest>, proof: seq<Bytes>)
    requires 1 <= |past| <= |leaves| && CollisionFree(sha, PrefixInputs(sha, past, leaves, proof))
    requires Consistent(sha, |past|, |leaves|, MerkleRoot(sha, past), MerkleRoot(sha, leaves), proof)
    ensures past <= leaves
  {
    hide MerkleRoot, TreeInputs, VerifierInputs, Consistent, ConsistencyProof, CollisionFree;
    var inputs := PrefixInputs(sha, past, leaves, proof);
    FewerInputs(sha, inputs, TreeInputs(sha, leaves)
        + VerifierInputs(sha, |past|, |leaves|, MerkleRoot(sha, past), proof));
    ConsistencyExact(sha, leaves, |past|, MerkleRoot(sha, past), proof);
    RootBindsLeaves(sha, past, leaves[..|past|], inputs);
  }

  lemma {:induction false} JoinSidesShort(m: nat, n: nat)
    requires 1 <= m <= n
    ensures |JoinSides(m, n)| <= BitLength(n - 1)
    decreases n
  {
    hide Split, BitLength;
    if m >= n {
    } else {
      HalvesAreShorter(n);
      if m <= Split(n) {
        JoinSidesShort(m, Split(n));
      } else {
        JoinSidesShort(m - Split(n), n - Split(n));
      }
    }
  }

  // A consistency proof has at most one hash more than the rounded-up binary logarithm of the
  // tree size, the bound of section 2.1.2 of RFC 6962.
  lemma ConsistencyProofShort(sha: Hasher, leaves: seq<Digest>, m: nat)
    requires 1 <= m <= |leaves|
    ensures |ConsistencyProof(sha, leaves, m).value| <= BitLength(|leaves| - 1) + 1
  {
    hide Split, StartRoot, Joins, Subproof, StartsAtOldRoot, JoinSides, MerkleRoot, BitLength;
    JoinSidesShort(m, |leaves|);
    if m < |leaves| {
      GeneratedProof(sha, leaves, m);
    }
  }
}
