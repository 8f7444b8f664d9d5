/** What a verdict on an arbitrary receipt means (src/ledger/proofs.py:59-157): what acceptance
    rules out, what an unknown key is, and that a tampered event is refused, sealed or pending. */
module Verdicts {
  import opened Wrappers
  import opened Hashing
  import opened Merkle
  import opened Consistency
  import opened Domain
  import opened Receipts
  import opened ReceiptProofs

  // An accepted receipt shows the hash of its own fields. It is accepted without a witness
  // exactly when it claims to be pending and brings no checkpoint and no inclusion proof;
  // with a witness it brings both, the checkpoint signed with a key of the keyring.
  lemma AcceptanceMeans(c: Crypto, receipt: Receipt, keyring: Keyring)
    ensures var verdict, leaf := ReceiptVerdict(c, receipt, keyring), EventLeaf(c, receipt.event.commitment);
      && (verdict.Valid? ==> receipt.event.leafHash == leaf)
      && (verdict == Valid(false) <==>
          receipt.event.leafHash == leaf && receipt.status.Pending? && receipt.checkpoint.None?
              && receipt.inclusion.None?)
      && (verdict == Valid(true) ==>
          && receipt.status.Witnessed? && receipt.checkpoint.Some? && receipt.inclusion.Some?
          && var p := receipt.checkpoint.value.payload;
          && p.keyVersion in keyring && receipt.checkpoint.value.signature == Sign(c, p, keyring[p.keyVersion])
          && receipt.inclusion.value.treeSize == p.leafCount
          && Included(c.sha, leaf, receipt.inclusion.value.leafIndex, p.leafCount, receipt.inclusion.value.path,
              p.rootHash)
          && (receipt.consistency.Some? <==> p.previousId.Some?))
  {
    hide EventLeaf, Sign, Included, Consistent;
  }

  // Whose key a verdict is missing: that of the checkpoint or of its predecessor.
  ghost predicate LacksKey(receipt: Receipt, keyring: Keyring) {
    || (receipt.checkpoint.Some? && receipt.checkpoint.value.payload.keyVersion !in keyring)
    || (receipt.consistency.Some? && receipt.consistency.value.oldCheckpoint.payload.keyVersion !in keyring)
  }

  // A keyring with more keys changes a verdict only where a key was missing, and a verdict
  // other than "unknown key" is the same for every keyring that gives the same keys.
  lemma MoreKeysSameVerdict(c: Crypto, receipt: Receipt, keyring: Keyring, more: Keyring)
    requires forall v | v in keyring :: v in more && more[v] == keyring[v]
    ensures ReceiptVerdict(c, receipt, keyring) == UnknownKey ==> LacksKey(receipt, keyring)
    ensures ReceiptVerdict(c, receipt, keyring) != UnknownKey ==>
        ReceiptVerdict(c, receipt, more) == ReceiptVerdict(c, receipt, keyring)
  {
    hide EventLeaf, Sign, Included, Consistent;
  }

  // ---- Tampering ----

  lemma {:induction false} ClimbInjective(sha: Hasher, inputs: set<Bytes>, a: Digest, b: Digest,
      path: seq<InclusionStep>)
    requires CollisionFree(sha, inputs) && ClimbInputs(sha, a, path) <= inputs && ClimbInputs(sha, b, path) <= inputs
    ensures IsDigest(Climb(sha, a, path)) && IsDigest(Climb(sha, b, path))
    ensures Climb(sha, a, path) == Climb(sha, b, path) ==> a == b
  {
    hide NodeInput, CollisionFree;
    if path == [] {
    } else {
      var n := |path| - 1;
      var (x, y, top) := (Climb(sha, a, path[..n]), Climb(sha, b, path[..n]), path[n]);
      ClimbInjective(sha, inputs, a, b, path[..n]);
      if Climb(sha, a, path) == Climb(sha, b, path) {
        if top.side.Left? {
          NodeHashInjective(sha, inputs, top.hash, x, top.hash, y);
        } else {
          NodeHashInjective(sha, inputs, x, top.hash, y, top.hash);
        }
      }
    }
  }

  // Everything hashed while a receipt's event is placed in the tree, and its leaf.
  ghost function LeafInputs(c: Crypto, receipt: Receipt, m: Commitment): set<Bytes> {
    {LeafInput(c.eventJson(m))}
    + if receipt.inclusion.Some? then ClimbInputs(c.sha, EventLeaf(c, m), receipt.inclusion.value.path) else {}
  }

  lemma OtherLeaf(c: Crypto, inputs: set<Bytes>, m: Commitment, m': Commitment)
    requires CanonicalJson(c) && CollisionFree(c.sha, inputs) && m != m'
    requires LeafInput(c.eventJson(m)) in inputs && LeafInput(c.eventJson(m')) in inputs
    ensures EventLeaf(c, m) != EventLeaf(c, m')
  {
    if EventLeaf(c, m) == EventLeaf(c, m') {
      LeafHashInjective(c.sha, inputs, c.eventJson(m), c.eventJson(m'));
    }
  }

  // A receipt that was accepted is refused once any field of its event is changed, whatever
  // keys it is verified with: always while it keeps its leaf hash, and a sealed one also when
  // the leaf hash is computed anew. Only a pending one, which no checkpoint binds, can be
  // written anew. This holds unless two hashed strings collide.
  lemma TamperedIsRefused(c: Crypto, receipt: Receipt, keyring: Keyring, event: Event, keyring': Keyring)
    requires ReceiptVerdict(c, receipt, keyring).Valid? && event.commitment != receipt.event.commitment
    requires CanonicalJson(c)
    requires CollisionFree(c.sha,
        LeafInputs(c, receipt, receipt.event.commitment) + LeafInputs(c, receipt, event.commitment))
    ensures var verdict := ReceiptVerdict(c, receipt.(event := event), keyring');
      && (event.leafHash == receipt.event.leafHash ==> verdict == InvalidProof)
      && (verdict.Valid? ==> receipt.status.Pending? && event.leafHash == EventLeaf(c, event.commitment))
  {
    hide EventLeaf, ReceiptVerdict, CanonicalJson, Climb, ClimbInputs, CollisionFree;
    var inputs := LeafInputs(c, receipt, receipt.event.commitment) + LeafInputs(c, receipt, event.commitment);
    AcceptanceMeans(c, receipt, keyring);
    AcceptanceMeans(c, receipt.(event := event), keyring');
    OtherLeaf(c, inputs, receipt.event.commitment, event.commitment);
    if event.leafHash == receipt.event.leafHash {
      WrongLeafHash(c, receipt.(event := event), keyring');
    }
    if receipt.status.Witnessed? {
      ClimbInjective(c.sha, inputs, EventLeaf(c, receipt.event.commitment), EventLeaf(c, event.commitment),
          receipt.inclusion.value.path);
    }
  }

  lemma WrongLeafHash(c: Crypto, receipt: Receipt, keyring: Keyring)
    requires receipt.event.leafHash != EventLeaf(c, receipt.event.commitment)
    ensures ReceiptVerdict(c, receipt, keyring) == InvalidProof
  {
  }
}
