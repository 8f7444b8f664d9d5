/** Consistency proofs of src/ledger/merkle.py: the recursive generator, the bit-shifting
    verifier, and why they agree. */
module Consistency {
  import opened Hashing
  import opened Merkle
  import opened Wrappers

  // ---- The generator (section 2.1.2 of RFC 6962) ----

  function Subproof(sha: Hasher, m: nat, items: seq<Digest>, complete: bool): seq<Digest>
    requires 1 <= m <= |items|
    decreases |items|
  {
    if m == |items| then
      if complete then [] else [MerkleRoot(sha, items)]
    else
      var k := Split(|items|);
      if m <= k then Subproof(sha, m, items[..k], complete) + [MerkleRoot(sha, items[k..])]
      else Subproof(sha, m - k, items[k..], false) + [MerkleRoot(sha, items[..k])]
  }

  function ConsistencyProof(sha: Hasher, leaves: seq<Digest>, oldSize: int): Result<seq<Digest>, MerkleProofError> {
    if oldSize < 1 || oldSize > |leaves| then Err(OldSizeOutsideTree)
    else if oldSize == |leaves| then Ok([])
    else Ok(Subproof(sha, oldSize, leaves, true))
  }

  // ---- What the verifier checks, top-down ----

  // On which side each proof hash joins the subtree that ends at old leaf m - 1, lowest first.
  function JoinSides(m: nat, n: nat): seq<Side>
    requires 1 <= m <= n
    decreases n
  {
    if m == n then []
    else
      var k := Split(n);
      if m <= k then JoinSides(m, k) + [Right] else JoinSides(m - k, n - k) + [Left]
  }

  // The old tree is itself the subtree to start from: no hash ever joins it on the left.
  predicate StartsAtOldRoot(m: nat, n: nat)
    requires 1 <= m <= n
    decreases n
  {
    m == n || (m <= Split(n) && StartsAtOldRoot(m, Split(n)))
  }

  // The old and the new root that a starting subtree and the joining hashes lead to.
  function Fold(sha: Hasher, sides: seq<Side>, items: seq<Bytes>, start: Bytes): (Bytes, Bytes)
    requires |sides| == |items|
  {
    if items == [] then (start, start)
    else
      var n := |items| - 1;
      var (oldHash, newHash) := Fold(sha, sides[..n], items[..n], start);
      if sides[n].Left? then (NodeHash(sha, items[n], oldHash), NodeHash(sha, items[n], newHash))
      else (oldHash, NodeHash(sha, newHash, items[n]))
  }

  ghost function FoldInputs(sha: Hasher, sides: seq<Side>, items: seq<Bytes>, start: Bytes): set<Bytes>
    requires |sides| == |items|
  {
    if items == [] then {}
    else
      var n := |items| - 1;
      var newHash := Fold(sha, sides[..n], items[..n], start).1;
      {if sides[n].Left? then NodeInput(items[n], newHash) else NodeInput(newHash, items[n])}
      + FoldInputs(sha, sides[..n], items[..n], start)
  }

  ghost predicate FoldsTo(sha: Hasher, sides: seq<Side>, items: seq<Bytes>, start: Bytes, oldRoot: Bytes,
      newRoot: Bytes) {
    |items| == |sides| && Fold(sha, sides, items, start) == (oldRoot, newRoot)
  }

  ghost predicate Consistent(sha: Hasher, oldSize: int, newSize: int, oldRoot: Bytes, newRoot: Bytes,
      proof: seq<Bytes>) {
    && 1 <= oldSize <= newSize
    && if oldSize == newSize then proof == [] && oldRoot == newRoot
       else
         && (forall i | 0 <= i < |proof| :: IsDigest(proof[i]))
         && if StartsAtOldRoot(oldSize, newSize)
             then FoldsTo(sha, JoinSides(oldSize, newSize), proof, oldRoot, oldRoot, newRoot)
            else proof != [] && FoldsTo(sha, JoinSides(oldSize, newSize), proof[1..], proof[0], oldRoot, newRoot)
  }

  // ---- The same sides, bottom-up from the bits of the two last leaf indices ----

  // Climbing one level from node f where s is the last node: an odd node has a left sibling,
  // a last even node is promoted alone, any other even node has a right sibling.
  function Rung(f: nat, s: nat): seq<Side> {
    if f % 2 == 1 then [Left] else if f == s then [] else [Right]
  }

  function ClimbSides(f: nat, s: nat): seq<Side>
    decreases s
  {
    if s == 0 then [] else Rung(f, s) + ClimbSides(f / 2, s / 2)
  }

  // Halving both indices takes one rung off the lower end of the top-down sides.
  lemma {:induction false} LowestRung(f: nat, s: nat)
    requires f <= s && s >= 1
    ensures ExpectedSides(f, s + 1) == Rung(f, s) + ExpectedSides(f / 2, s / 2 + 1)
    decreases s, 1
  {
    if s == 1 {
      assert ExpectedSides(0, 1) == [];
    } else if f < Split(s + 1) {
      LowestRungOnLeft(f, s);
    } else {
      LowestRungOnRight(f, s);
    }
  }

  lemma {:induction false} LowestRungOnLeft(f: nat, s: nat)
    requires s >= 2 && f < Split(s + 1)
    ensures ExpectedSides(f, s + 1) == Rung(f, s) + ExpectedSides(f / 2, s / 2 + 1)
    decreases s, 0
  {
    hide Split;
    var k, half := Split(s + 1), Split(s / 2 + 1);
    SplitHalves(s);
    LowestRung(f, k - 1);
    assert (k - 1) / 2 + 1 == half;
    var low, high := Rung(f, s), ExpectedSides(f / 2, half);
    assert (low + high) + [Right] == low + (high + [Right]);
  }

  lemma {:induction false} LowestRungOnRight(f: nat, s: nat)
    requires s >= 2 && Split(s + 1) <= f <= s
    ensures ExpectedSides(f, s + 1) == Rung(f, s) + ExpectedSides(f / 2, s / 2 + 1)
    decreases s, 0
  {
    hide Split;
    var k, half := Split(s + 1), Split(s / 2 + 1);
    SplitHalves(s);
    var f', s' := f / 2 - half, s / 2 - half;
    assert (f - k) / 2 == f' && (s - k) / 2 == s';
    if s == k {
      assert f == k && ExpectedSides(0, 1) == [];
    } else {
      LowestRung(f - k, s - k);
      var low, high := Rung(f, s), ExpectedSides(f', s' + 1);
      assert (low + high) + [Left] == low + (high + [Left]);
    }
  }

  lemma {:induction false} ClimbSidesMatch(f: nat, s: nat)
    requires f <= s
    ensures ExpectedSides(f, s + 1) == ClimbSides(f, s)
    decreases s
  {
    if s == 0 {
    } else {
      LowestRung(f, s);
      ClimbSidesMatch(f / 2, s / 2);
    }
  }

  // The subtree that ends at old leaf m - 1 is perfect in every tree larger than m, and in
  // every perfect one.
  ghost predicate EndsPerfect(m: nat, n: nat) {
    1 <= m <= n && (m < n || IsPow2(n))
  }

  ghost predicate SameClimb(m: nat, n: nat, m': nat, n': nat) {
    && EndsPerfect(m, n) && EndsPerfect(m', n')
    && JoinSides(m, n) == JoinSides(m', n')
    && StartsAtOldRoot(m, n) == StartsAtOldRoot(m', n')
  }

  // A last old leaf at an odd index belongs to a larger starting subtree: halve both trees.
  lemma {:induction false} SkipOddEnd(m: nat, n: nat)
    requires EndsPerfect(m, n) && m % 2 == 0
    ensures SameClimb(m, n, m / 2, (n - 1) / 2 + 1)
    decreases n, 1
  {
    if m == n {
      PerfectSplits(n);
    } else if m <= Split(n) {
      SkipOddEndOnLeft(m, n);
    } else {
      SkipOddEndOnRight(m, n);
    }
  }

  lemma SameClimbAtFirst(m: nat, n: nat)
    requires 1 <= m < n
    ensures SameClimb(m, n, m, n)
  {
  }

  lemma SkipOddEndAgain(m: nat, n: nat, m': nat, n': nat)
    requires SameClimb(m, n, m', n') && m' % 2 == 0
    ensures SameClimb(m, n, m' / 2, (n' - 1) / 2 + 1)
  {
    SkipOddEnd(m', n');
  }

  lemma {:induction false} SkipOddEndOnLeft(m: nat, n: nat)
    requires m >= 2 && m % 2 == 0 && m < n && m <= Split(n)
    ensures SameClimb(m, n, m / 2, (n - 1) / 2 + 1)
    decreases n, 0
  {
    hide Split;
    var k := Split(n);
    SplitHalves(n - 1);
    SplitIsPow2(n);
    SkipOddEnd(m, k);
    assert (k - 1) / 2 + 1 == k / 2;
  }

  lemma {:induction false} SkipOddEndOnRight(m: nat, n: nat)
    requires m >= 2 && m % 2 == 0 && m < n && Split(n) < m
    ensures SameClimb(m, n, m / 2, (n - 1) / 2 + 1)
    decreases n, 0
  {
    hide Split, IsPow2;
    var k, half := Split(n), Split((n - 1) / 2 + 1);
    SplitHalves(n - 1);
    HalvesOnRight(m, n, k, half);
    SkipOddEnd(m - k, n - k);
  }

  lemma HalvesOnRight(m: nat, n: nat, k: nat, half: nat)
    requires m % 2 == 0 && k == 2 * half && k < m < n
    ensures (m - k) % 2 == 0 && (m - k) / 2 == m / 2 - half && half < m / 2
    ensures (n - k - 1) / 2 + 1 == (n - 1) / 2 + 1 - half
  {
  }

  // A last old leaf at an even index is itself the starting subtree.
  ghost predicate StartsAtLeaf(m: nat, n: nat)
    requires 1 <= m <= n
  {
    && JoinSides(m, n) == ExpectedSides(m - 1, n)
    && (StartsAtOldRoot(m, n) <==> m == 1)
  }

  lemma {:induction false} StartAtEvenEnd(m: nat, n: nat)
    requires EndsPerfect(m, n) && m % 2 == 1
    ensures StartsAtLeaf(m, n)
    decreases n, 1
  {
    hide Split, JoinSides, ExpectedSides, StartsAtOldRoot, StartsAtLeaf;
    if n == 1 {
      StartsAtOneLeaf();
    } else {
      if IsPow2(n) {
        PerfectSplits(n);
      }
      if m <= Split(n) {
        StartAtEvenEndOnLeft(m, n);
      } else {
        StartAtEvenEndOnRight(m, n);
      }
    }
  }

  lemma StartsAtOneLeaf()
    ensures StartsAtLeaf(1, 1)
  {
  }

  lemma {:induction false} StartAtEvenEndOnLeft(m: nat, n: nat)
    requires m % 2 == 1 && m < n && m <= Split(n)
    ensures StartsAtLeaf(m, n)
    decreases n, 0
  {
    hide Split;
    SplitIsPow2(n);
    StartAtEvenEnd(m, Split(n));
  }

  lemma {:induction false} StartAtEvenEndOnRight(m: nat, n: nat)
    requires m % 2 == 1 && m < n && Split(n) < m
    ensures StartsAtLeaf(m, n)
    decreases n, 0
  {
    hide Split;
    var k := Split(n);
    SplitIsPow2(n);
    if k > 1 {
      PerfectSplits(k);
    }
    StartAtEvenEnd(m - k, n - k);
  }

  // ---- The verifier ----

  lemma {:induction false} ClimbEnds(f: nat, s: nat)
    requires f <= s
    ensures ClimbSides(f, s) == [] <==> s == 0
    decreases s
  {
    if s > 0 && f == s && f % 2 == 0 {
      ClimbEnds(f / 2, s / 2);
    }
  }

  // The loop stands at nodes fn and sn of some level: i items are folded in, and the sides
  // of the others are still to be climbed.
  ghost predicate MidClimb(sha: Hasher, sides: seq<Side>, items: seq<Bytes>, start: Bytes, i: nat, fn: nat, sn: nat,
      hashes: (Bytes, Bytes)) {
    && i <= |items| && i <= |sides| && fn <= sn
    && sides[i..] == ClimbSides(fn, sn)
    && Fold(sha, sides[..i], items[..i], start) == hashes
  }

  lemma PromoteLast(sha: Hasher, sides: seq<Side>, items: seq<Bytes>, start: Bytes, i: nat, fn: nat, sn: nat,
      hashes: (Bytes, Bytes))
    requires MidClimb(sha, sides, items, start, i, fn, sn, hashes) && fn == sn && fn > 0 && fn % 2 == 0
    ensures MidClimb(sha, sides, items, start, i, fn / 2, sn / 2, hashes)
  {
  }

  lemma TakeItem(sha: Hasher, sides: seq<Side>, items: seq<Bytes>, start: Bytes, i: nat, fn: nat, sn: nat,
      hashes: (Bytes, Bytes))
    requires MidClimb(sha, sides, items, start, i, fn, sn, hashes) && i < |items| && (fn % 2 == 1 || fn != sn)
    ensures var joined := if fn % 2 == 1 then (NodeHash(sha, items[i], hashes.0), NodeHash(sha, items[i], hashes.1))
                          else (hashes.0, NodeHash(sha, hashes.1, items[i]));
      MidClimb(sha, sides, items, start, i + 1, fn / 2, sn / 2, joined)
  {
    assert sides[i..] == Rung(fn, sn) + ClimbSides(fn / 2, sn / 2);
    assert sides[i..][1..] == sides[i + 1..];
    assert sides[..i + 1][..i] == sides[..i] && items[..i + 1][..i] == items[..i];
  }

  // After the last item the climb has reached both roots exactly when no level is left.
  lemma ClimbDone(sha: Hasher, sides: seq<Side>, items: seq<Bytes>, start: Bytes, i: nat, fn: nat, sn: nat,
      hashes: (Bytes, Bytes), oldRoot: Bytes, newRoot: Bytes)
    requires MidClimb(sha, sides, items, start, i, fn, sn, hashes)
    requires i == |items| || sn == 0
    ensures FoldsTo(sha, sides, items, start, oldRoot, newRoot) <==>
        i == |items| && sn == 0 && hashes == (oldRoot, newRoot)
  {
    ClimbEnds(fn, sn);
    if i == |items| && sn == 0 {
      assert items[..i] == items && sides[..i] == sides;
    }
  }

  // The item the climb starts from: the claimed old root itself, or the first proof hash.
  lemma ClimbBegins(sha: Hasher, m: nat, n: nat, fn: nat, sn: nat, items: seq<Bytes>, start: Bytes)
    requires m < n && SameClimb(m, n, fn + 1, sn + 1) && fn % 2 == 0
    ensures MidClimb(sha, JoinSides(m, n), items, start, 0, fn, sn, (start, start))
    ensures StartsAtOldRoot(m, n) <==> fn == 0
  {
    StartAtEvenEnd(fn + 1, sn + 1);
    ClimbSidesMatch(fn, sn);
  }

  method VerifyConsistency(sha: Hasher, oldSize: int, newSize: int, oldRoot: Bytes, newRoot: Bytes, proof: seq<Bytes>)
    returns (ok: bool)
    ensures ok <==> Consistent(sha, oldSize, newSize, oldRoot, newRoot, proof)
  {
    hide SameClimb, MidClimb, FoldsTo, StartsAtOldRoot, JoinSides;
    if oldSize < 1 || oldSize > newSize {
      return false;
    }
    if oldSize == newSize {
      return |proof| == 0 && oldRoot == newRoot;
    }
    if exists i | 0 <= i < |proof| :: !IsDigest(proof[i]) {
      return false;
    }

    var fn: nat := oldSize - 1;
    var sn: nat := newSize - 1;
    SameClimbAtFirst(oldSize, newSize);
    while fn % 2 == 1
      invariant SameClimb(oldSize, newSize, fn + 1, sn + 1)
      decreases fn
    {
      SkipOddEndAgain(oldSize, newSize, fn + 1, sn + 1);
      fn := fn / 2;
      sn := sn / 2;
    }

    var offset := 0;
    var oldHash, newHash := oldRoot, oldRoot;
    if fn != 0 {
      if |proof| == 0 {
        ClimbBegins(sha, oldSize, newSize, fn, sn, [], Bytes([]));
        return false;
      }
      oldHash, newHash := proof[0], proof[0];
      offset := 1;
    }
    var items := proof[offset..];
    ghost var sides, start := JoinSides(oldSize, newSize), oldHash;
    ClimbBegins(sha, oldSize, newSize, fn, sn, items, start);
    assert Consistent(sha, oldSize, newSize, oldRoot, newRoot, proof) <==>
        FoldsTo(sha, sides, items, start, oldRoot, newRoot);
    hide Consistent;
    var i := 0;
    while i < |items|
      invariant 0 <= i <= |items|
      invariant MidClimb(sha, sides, items, start, i, fn, sn, (oldHash, newHash))
    {
      if sn == 0 {
        ClimbDone(sha, sides, items, start, i, fn, sn, (oldHash, newHash), oldRoot, newRoot);
        return false;
      }
      ghost var hashes := (oldHash, newHash);
      if fn % 2 == 1 || fn == sn {
        oldHash := NodeHash(sha, items[i], oldHash);
        newHash := NodeHash(sha, items[i], newHash);
        while fn != 0 && fn % 2 == 0
          invariant 0 < fn && (fn % 2 == 1 || fn == sn) && MidClimb(sha, sides, items, start, i, fn, sn, hashes)
        {
          PromoteLast(sha, sides, items, start, i, fn, sn, hashes);
          fn := fn / 2;
          sn := sn / 2;
        }
      } else {
        newHash := NodeHash(sha, newHash, items[i]);
      }
      TakeItem(sha, sides, items, start, i, fn, sn, hashes);
      fn := fn / 2;
      sn := sn / 2;
      i := i + 1;
    }
    ClimbDone(sha, sides, items, start, i, fn, sn, (oldHash, newHash), oldRoot, newRoot);
    return sn == 0 && oldHash == oldRoot && newHash == newRoot;
  }
}
