/** Pages of a checkpoint's increment (src/ledger/proofs.py:337-412). */
module Paging {
  import opened Wrappers
  import opened Merkle
  import opened Domain
  import opened Sealing
  import opened Protocol
  import opened Runs
  import opened Receipts
  import opened ReceiptProofs

  datatype Page = Page(items: seq<Receipt>, next: Option<int>, hasMore: bool)

  // The positions, from index from on, of the rows after the cursor.
  function Candidates(events: seq<Event>, cursor: int, from: nat): seq<nat>
    requires from <= |events|
    decreases |events| - from
  {
    if from == |events| then []
    else (if events[from].sequence > cursor then [from] else []) + Candidates(events, cursor, from + 1)
  }

  lemma {:induction false} CandidatesInside(events: seq<Event>, cursor: int, from: nat)
    requires from <= |events|
    ensures forall j | 0 <= j < |Candidates(events, cursor, from)| :: Candidates(events, cursor, from)[j] < |events|
    decreases |events| - from
  {
    if from >= |events| {
    } else {
      CandidatesInside(events, cursor, from + 1);
    }
  }

  ghost function ReceiptsAt(c: Crypto, events: seq<Event>, checkpoint: Checkpoint, bundle: Option<ConsistencyBundle>,
      page: seq<nat>): seq<Receipt>
    requires forall j | 0 <= j < |page| :: page[j] < |events|
  {
    seq(|page|, j requires 0 <= j < |page| => SealedReceipt(c, events[page[j]], page[j], checkpoint,
        Leaves(c, events), bundle))
  }

  ghost function PageOf(c: Crypto, events: seq<Event>, checkpoint: Checkpoint, bundle: Option<ConsistencyBundle>,
      cursor: int, limit: Positive): Page {
    var candidates := Candidates(events, cursor, 0);
    var page := Slice(candidates, limit);
    CandidatesInside(events, cursor, 0);
    var hasMore := |candidates| > limit;
    Page(ReceiptsAt(c, events, checkpoint, bundle, page), if hasMore then Some(events[page[|page| - 1]].sequence)
        else None, hasMore)
  }

  // after is None when the request names no cursor. The request's statements each take their
  // own snapshot: the checkpoint, its predecessor's boundary, and then those of the receipt.
  ghost function BuildPage(c: Crypto, first: Tables, second: Tables, r: Reads, checkpointId: Uuid, after: Option<int>,
      limit: Positive, keyring: Keyring): Result<Page, Error> {
    var found := CheckpointById(first.checkpoints, checkpointId);
    if found.None? then Err(Ledger(NotFound))
    else
      var checkpoint, p := found.value, found.value.payload;
      var previous := if p.previousId.Some? then CheckpointById(second.checkpoints, p.previousId.value) else None;
      if p.previousId.Some? && previous.None? then Err(Ledger(CheckpointChainBroken))
      else
        var start := if p.previousId.Some? then previous.value.payload.lastSequence else 0;
        var cursor := if after.Some? then after.value else start;
        if cursor < start || cursor > p.lastSequence then Err(Ledger(InvalidCursor))
        else
          var validated := ValidatedPrefix(c, r.prefix, checkpoint, keyring);
          if validated.Err? then Err(validated.error)
          else
            var events := validated.value;
            var bundle := BuildBundle(c, r, checkpoint, Leaves(c, events), keyring);
            if bundle.Err? then Err(bundle.error) else Ok(PageOf(c, events, checkpoint, bundle.value, cursor, limit))
  }

  function StartOf(db: Tables, i: nat): int
    requires i < |db.checkpoints|
  {
    if i == 0 then 0 else db.checkpoints[i - 1].payload.lastSequence
  }

  // How many of the events checkpoint i covers are at or before the cursor.
  ghost function Before(db: Tables, cursor: int): nat {
    |Upto(db.events, cursor)|
  }

  // In a sorted table the candidates are the positions from some point on.
  lemma {:induction false} CandidatesAreTail(events: seq<Event>, cursor: int, from: nat, k: nat)
    requires from <= |events| && k <= |events|
    requires forall j | 0 <= j < k :: events[j].sequence <= cursor
    requires forall j | k <= j < |events| :: events[j].sequence > cursor
    ensures var start, found := if from < k then k else from, Candidates(events, cursor, from);
      |found| == |events| - start && forall j | 0 <= j < |found| :: found[j] == start + j
    decreases |events| - from
  {
    if from >= |events| {
    } else {
      CandidatesAreTail(events, cursor, from + 1, k);
    }
  }

  // The receipts of covered events low, low + 1, ..., high - 1 of checkpoint i.
  ghost function ReceiptRange(c: Crypto, db: Tables, i: nat, low: nat, high: nat): seq<Receipt>
    requires i < |db.checkpoints| && low <= high <= |Covered(db, i)|
  {
    seq(high - low, j requires 0 <= j < high - low => TheReceipt(c, db, i, low + j))
  }

  ghost predicate LaterReads(c: Crypto, master: Keyring, base: Tables, first: Tables, second: Tables, r: Reads) {
    && Chain(c, master, first) && Chain(c, master, second) && Chain(c, master, r.previous)
    && Extends(base, first) && Extends(base, second)
    && Extends(base, r.prefix) && Extends(base, r.previous) && Extends(base, r.previousPrefix)
  }

  ghost predicate ValidCursor(db: Tables, i: nat, cursor: int)
    requires i < |db.checkpoints|
  {
    StartOf(db, i) <= cursor <= db.checkpoints[i].payload.lastSequence
  }

  lemma CoveredAfter(c: Crypto, master: Keyring, db: Tables, i: nat, cursor: int)
    requires Chain(c, master, db) && i < |db.checkpoints| && cursor <= db.checkpoints[i].payload.lastSequence
    ensures var k, events := Before(db, cursor), Covered(db, i);
      && Sorted(events)
      && k <= |events| == db.checkpoints[i].payload.leafCount && |events| > 0
      && events[|events| - 1].sequence == db.checkpoints[i].payload.lastSequence
      && (forall j | 0 <= j < k :: events[j].sequence <= cursor)
      && (forall j | k <= j < |events| :: events[j].sequence > cursor)
      && |Candidates(events, cursor, 0)| == |events| - k && forall j | 0 <= j < |events| - k ::
          Candidates(events, cursor, 0)[j] == k + j
  {
    var k, events := Before(db, cursor), Covered(db, i);
    assert ChainLink(c, master, db, i);
    UptoIsPrefix(db.events, cursor);
    UptoIsPrefix(db.events, db.checkpoints[i].payload.lastSequence);
    UptoNested(db.events, cursor, db.checkpoints[i].payload.lastSequence);
    assert forall j | 0 <= j < |events| :: events[j] == db.events[j];
    CandidatesAreTail(events, cursor, 0, k);
  }

  ghost function Min(a: int, b: int): int {
    if a <= b then a else b
  }

  // The receipts of the covered events from k on, at most limit of them, with the last one's
  // sequence as the cursor when more follow.
  ghost function RangePage(c: Crypto, db: Tables, i: nat, k: nat, limit: Positive): Page
    requires i < |db.checkpoints| && k <= |Covered(db, i)|
  {
    var (events, high) := (Covered(db, i), Min(k + limit, |Covered(db, i)|));
    Page(ReceiptRange(c, db, i, k, high),
         if high < |events| then Some(events[high - 1].sequence) else None,
         high < |events|)
  }

  // What a page holds, in any later state of the ledger: the next receipts after the cursor,
  // at most limit of them; and its cursor, when more follow, is the last event's sequence.
  lemma PageContents(c: Crypto, master: Keyring, base: Tables, first: Tables, second: Tables, r: Reads, i: nat,
      after: Option<int>, limit: Positive, keyring: Keyring)
    requires Chain(c, master, base) && LaterReads(c, master, base, first, second, r) && Agrees(keyring, master)
    requires i < |base.checkpoints| && KeysFor(base, i, keyring)
    requires after.Some? ==> ValidCursor(base, i, after.value)
    ensures var k := Before(base, if after.Some? then after.value else StartOf(base, i));
      && k <= |Covered(base, i)|
      && BuildPage(c, first, second, r, base.checkpoints[i].payload.checkpointId, after, limit, keyring)
           == Ok(RangePage(c, base, i, k, limit))
  {
    hide PageOf, ReceiptRange, Before, BuildPage, Covered, TheBundle, BuildBundle, ValidatedPrefix, CheckpointById;
    StartBelowEnd(c, master, base, i);
    PageLookups(c, master, base, first, second, i);
    PrefixValidates(c, master, base, r.prefix, i, keyring);
    BundleBuilt(c, master, base, r, i, keyring);
    PageSlice(c, master, base, i, if after.Some? then after.value else StartOf(base, i), limit);
    hide Chain, Extends;
    PageAssembled(c, first, second, r, base.checkpoints[i], if i > 0 then Some(base.checkpoints[i - 1]) else None,
                  Covered(base, i), TheBundle(c, base, i), after, limit, keyring);
  }

  lemma PageAssembled(c: Crypto, first: Tables, second: Tables, r: Reads, checkpoint: Checkpoint,
      previous: Option<Checkpoint>,
                      events: seq<Event>, bundle: Option<ConsistencyBundle>, after: Option<int>, limit: Positive,
                          keyring: Keyring)
    requires var p := checkpoint.payload;
      && CheckpointById(first.checkpoints, p.checkpointId) == Some(checkpoint)
      && previous == (if p.previousId.Some? then CheckpointById(second.checkpoints, p.previousId.value) else None)
      && (p.previousId.Some? ==> previous.Some?)
      && (after.Some? ==> LastSequence(previous) <= after.value <= p.lastSequence)
          && LastSequence(previous) <= p.lastSequence
      && ValidatedPrefix(c, r.prefix, checkpoint, keyring) == Ok(events)
      && BuildBundle(c, r, checkpoint, Leaves(c, events), keyring) == Ok(bundle)
    ensures BuildPage(c, first, second, r, checkpoint.payload.checkpointId, after, limit, keyring)
         == Ok(PageOf(c, events, checkpoint, bundle, if after.Some? then after.value
             else LastSequence(previous), limit))
  {
    hide PageOf, CheckpointById, ValidatedPrefix, BuildBundle, Leaves;
  }

  lemma PageSlice(c: Crypto, master: Keyring, db: Tables, i: nat, cursor: int, limit: Positive)
    requires Chain(c, master, db) && i < |db.checkpoints| && cursor <= db.checkpoints[i].payload.lastSequence
    ensures var k := Before(db, cursor);
      && k <= |Covered(db, i)|
      && PageOf(c, Covered(db, i), db.checkpoints[i], TheBundle(c, db, i), cursor, limit)
           == RangePage(c, db, i, k, limit)
  {
    CoveredAfter(c, master, db, i, cursor);
    var events, k := Covered(db, i), Before(db, cursor);
    var high := Min(k + limit, |events|);
    var page := Slice(Candidates(events, cursor, 0), limit);
    assert |page| == high - k && forall j | 0 <= j < high - k :: page[j] == k + j;
    hide Chain, Upto, TheBundle, Candidates, Before;
    var receipts, range := ReceiptsAt(c, events, db.checkpoints[i], TheBundle(c, db, i), page),
        ReceiptRange(c, db, i, k, high);
    forall j | 0 <= j < high - k ensures receipts[j] == range[j] {
      assert page[j] == k + j;
      assert receipts[j] == SealedReceipt(c, events[k + j], k + j, db.checkpoints[i], Leaves(c, events),
          TheBundle(c, db, i));
      assert range[j] == TheReceipt(c, db, i, k + j);
    }
    assert receipts == range;
  }

  lemma StartBelowEnd(c: Crypto, master: Keyring, db: Tables, i: nat)
    requires Chain(c, master, db) && i < |db.checkpoints|
    ensures StartOf(db, i) < db.checkpoints[i].payload.lastSequence
  {
    assert ChainLink(c, master, db, i);
    UptoIsPrefix(db.events, db.checkpoints[i].payload.lastSequence);
  }

  lemma PageLookups(c: Crypto, master: Keyring, base: Tables, first: Tables, second: Tables, i: nat)
    requires Chain(c, master, base) && Chain(c, master, first) && Chain(c, master, second)
    requires Extends(base, first) && Extends(base, second) && i < |base.checkpoints|
    ensures CheckpointById(first.checkpoints, base.checkpoints[i].payload.checkpointId) == Some(base.checkpoints[i])
    ensures base.checkpoints[i].payload.previousId.Some? <==> i > 0
    ensures i > 0 ==>
        CheckpointById(second.checkpoints, base.checkpoints[i].payload.previousId.value)
        == Some(base.checkpoints[i - 1])
  {
    assert ChainLink(c, master, base, i);
    assert first.checkpoints[i] == base.checkpoints[i];
    CheckpointByIdFinds(first.checkpoints, i);
    if i > 0 {
      PredecessorFound(c, master, base, second, i);
    }
  }

  // ---- Following the cursor ----

  datatype Snapshot = Snapshot(first: Tables, second: Tables, rest: Reads)

  ghost predicate LaterSnapshots(c: Crypto, master: Keyring, base: Tables, view: nat -> Snapshot) {
    forall n :: LaterReads(c, master, base, view(n).first, view(n).second, view(n).rest)
  }

  // The cursor a page returns is valid and lies beyond everything the page holds.
  lemma NextCursor(c: Crypto, master: Keyring, db: Tables, i: nat, cursor: int, high: nat)
    requires Chain(c, master, db) && i < |db.checkpoints| && ValidCursor(db, i, cursor)
    requires Before(db, cursor) < high < |Covered(db, i)|
    ensures var next := Covered(db, i)[high - 1].sequence;
      ValidCursor(db, i, next) && Before(db, next) == high
  {
    CoveredAfter(c, master, db, i, cursor);
    var events := Covered(db, i);
    var next := events[high - 1].sequence;
    assert next > cursor && next <= events[|events| - 1].sequence;
    CoveredAfter(c, master, db, i, next);
    var k := Before(db, next);
    assert events[high - 1].sequence <= next && events[k - 1].sequence <= next;
  }

  // Page n of a walk is read from snapshot n; the walk follows next_after_sequence until no
  // more follow. The measure is the number of covered events after the cursor.
  ghost function FollowPages(c: Crypto, master: Keyring, base: Tables, view: nat -> Snapshot, n: nat, i: nat,
      after: Option<int>, limit: Positive, keyring: Keyring): seq<Receipt>
    requires Chain(c, master, base) && LaterSnapshots(c, master, base, view) && Agrees(keyring, master)
    requires i < |base.checkpoints| && KeysFor(base, i, keyring)
    requires after.Some? ==> ValidCursor(base, i, after.value)
    decreases |Covered(base, i)| - Before(base, if after.Some? then after.value else StartOf(base, i))
  {
    PageStep(c, master, base, view(n), i, after, limit, keyring);
    var page := BuildPage(c, view(n).first, view(n).second, view(n).rest, base.checkpoints[i].payload.checkpointId,
        after, limit, keyring).value;
    if page.hasMore then page.items + FollowPages(c, master, base, view, n + 1, i, page.next, limit, keyring)
    else page.items
  }

  // A page of the covered events k to high, with a cursor when there are more.
  ghost predicate OnePage(c: Crypto, base: Tables, i: nat, k: nat, high: nat, built: Result<Page, Error>)
    requires i < |base.checkpoints| && k <= high <= |Covered(base, i)|
  {
    && built.Ok? && built.value.items == ReceiptRange(c, base, i, k, high)
    && (built.value.hasMore <==> high < |Covered(base, i)|)
    && (built.value.hasMore ==>
        built.value.next.Some? && ValidCursor(base, i, built.value.next.value)
        && k < high == Before(base, built.value.next.value))
  }

  lemma PageStep(c: Crypto, master: Keyring, base: Tables, v: Snapshot, i: nat, after: Option<int>, limit: Positive,
      keyring: Keyring)
    requires Chain(c, master, base) && LaterReads(c, master, base, v.first, v.second, v.rest) && Agrees(keyring, master)
    requires i < |base.checkpoints| && KeysFor(base, i, keyring)
    requires after.Some? ==> ValidCursor(base, i, after.value)
    ensures var k := Before(base, if after.Some? then after.value else StartOf(base, i));
      && k <= |Covered(base, i)|
      && OnePage(c, base, i, k, Min(k + limit, |Covered(base, i)|),
          BuildPage(c, v.first, v.second, v.rest, base.checkpoints[i].payload.checkpointId, after, limit, keyring))
  {
    hide LaterReads, BuildPage, Covered, Before, ReceiptRange, Agrees;
    var cursor := if after.Some? then after.value else StartOf(base, i);
    var k := Before(base, cursor);
    var high := Min(k + limit, |Covered(base, i)|);
    PageContents(c, master, base, v.first, v.second, v.rest, i, after, limit, keyring);
    StartBelowEnd(c, master, base, i);
    if high < |Covered(base, i)| {
      NextCursor(c, master, base, i, cursor, high);
    }
    hide Chain;
  }

  lemma ReceiptRangeSplits(c: Crypto, db: Tables, i: nat, low: nat, mid: nat, high: nat)
    requires i < |db.checkpoints| && low <= mid <= high <= |Covered(db, i)|
    ensures ReceiptRange(c, db, i, low, mid) + ReceiptRange(c, db, i, mid, high) == ReceiptRange(c, db, i, low, high)
  {
    hide Covered, TheReceipt;
  }

  // Following the cursor returns every receipt of the increment once, in sequence order,
  // whatever the page size and however the ledger grows between two pages.
  lemma {:induction false} PagesPartition(c: Crypto, master: Keyring, base: Tables, view: nat -> Snapshot, n: nat,
      i: nat, after: Option<int>, limit: Positive, keyring: Keyring)
    requires Chain(c, master, base) && LaterSnapshots(c, master, base, view) && Agrees(keyring, master)
    requires i < |base.checkpoints| && KeysFor(base, i, keyring)
    requires after.Some? ==> ValidCursor(base, i, after.value)
    ensures var k := Before(base, if after.Some? then after.value else StartOf(base, i));
      k <= |Covered(base, i)| && FollowPages(c, master, base, view, n, i, after, limit, keyring)
          == ReceiptRange(c, base, i, k, |Covered(base, i)|)
    decreases |Covered(base, i)| - Before(base, if after.Some? then after.value else StartOf(base, i))
  {
    hide Chain, BuildPage, Covered, Before, ReceiptRange, Agrees, LaterReads;
    PageStep(c, master, base, view(n), i, after, limit, keyring);
    var page := BuildPage(c, view(n).first, view(n).second, view(n).rest, base.checkpoints[i].payload.checkpointId,
        after, limit, keyring).value;
    if page.hasMore {
      PagesPartition(c, master, base, view, n + 1, i, page.next, limit, keyring);
      ReceiptRangeSplits(c, base, i, Before(base, if after.Some? then after.value else StartOf(base, i)),
          Before(base, page.next.value), |Covered(base, i)|);
    }
  }

  // ---- The increments of a chain ----

  // The events of checkpoint i's increment, in order.
  ghost function Increment(db: Tables, i: nat): seq<Event>
    requires i < |db.checkpoints|
  {
    After(Covered(db, i), StartOf(db, i))
  }

  ghost function Increments(db: Tables, n: nat): seq<Event>
    requires n <= |db.checkpoints|
  {
    if n == 0 then [] else Increments(db, n - 1) + Increment(db, n - 1)
  }

  lemma AfterIsTail(events: seq<Event>, cursor: int, k: nat)
    requires Sorted(events) && k <= |events|
    requires forall j | 0 <= j < k :: events[j].sequence <= cursor
    requires forall j | k <= j < |events| :: events[j].sequence > cursor
    ensures After(events, cursor) == events[k..]
  {
    UptoIsPrefix(events, cursor);
    AfterIsRest(events, cursor);
    var m := |Upto(events, cursor)|;
    hide Upto, After;
    assert m < |events| ==> events[m].sequence > cursor;
    assert k < |events| ==> events[k].sequence > cursor;
  }

  lemma CoveredBefore(c: Crypto, master: Keyring, db: Tables, i: nat)
    requires Chain(c, master, db) && i < |db.checkpoints|
    ensures Before(db, StartOf(db, i)) <= |Covered(db, i)|
    ensures Covered(db, i)[..Before(db, StartOf(db, i))] == if i == 0 then [] else Covered(db, i - 1)
  {
    StartBelowEnd(c, master, db, i);
    UptoNested(db.events, StartOf(db, i), db.checkpoints[i].payload.lastSequence);
    if i == 0 {
      UptoIsPrefix(db.events, 0);
      assert db.events != [] ==> db.events[0].sequence >= 1;
    }
  }

  lemma IncrementIsTail(c: Crypto, master: Keyring, db: Tables, i: nat)
    requires Chain(c, master, db) && i < |db.checkpoints|
    ensures Before(db, StartOf(db, i)) <= |Covered(db, i)|
        && Increment(db, i) == Covered(db, i)[Before(db, StartOf(db, i))..]
    ensures Covered(db, i) == (if i == 0 then [] else Covered(db, i - 1)) + Increment(db, i)
  {
    hide Before, Covered, After;
    var events, k := Covered(db, i), Before(db, StartOf(db, i));
    StartBelowEnd(c, master, db, i);
    CoveredAfter(c, master, db, i, StartOf(db, i));
    CoveredBefore(c, master, db, i);
    hide Chain;
    AfterIsTail(events, StartOf(db, i), k);
    assert events == events[..k] + events[k..];
  }

  // The increments along the chain concatenate to exactly the sealed prefix.
  lemma {:induction false} IncrementsCoverPrefix(c: Crypto, master: Keyring, db: Tables, n: nat)
    requires Chain(c, master, db) && n <= |db.checkpoints|
    ensures Increments(db, n) == if n == 0 then [] else Covered(db, n - 1)
  {
    hide Chain, Covered, Increment, Before;
    if n == 0 {
    } else {
      IncrementsCoverPrefix(c, master, db, n - 1);
      IncrementIsTail(c, master, db, n - 1);
    }
  }

  // The events on the pages of a whole walk are the increment.
  lemma WalkReadsIncrement(c: Crypto, master: Keyring, base: Tables, view: nat -> Snapshot, i: nat, limit: Positive,
      keyring: Keyring)
    requires Chain(c, master, base) && LaterSnapshots(c, master, base, view) && Agrees(keyring, master)
    requires i < |base.checkpoints| && KeysFor(base, i, keyring)
    ensures var receipts := FollowPages(c, master, base, view, 0, i, None, limit, keyring);
      && |receipts| == |Increment(base, i)|
      && forall j | 0 <= j < |receipts| ::
          receipts[j].event == Increment(base, i)[j] && ReceiptVerdict(c, receipts[j], keyring) == Valid(true)
  {
    hide Chain, LaterSnapshots, FollowPages, Covered, Increment, Before, Agrees, TheReceipt, ReceiptVerdict,
        ReceiptRange, KeysFor;
    PagesPartition(c, master, base, view, 0, i, None, limit, keyring);
    IncrementIsTail(c, master, base, i);
    var receipts, k, n := FollowPages(c, master, base, view, 0, i, None, limit, keyring),
        Before(base, StartOf(base, i)), |Covered(base, i)|;
    RangeLength(c, base, i, k, n);
    forall j | 0 <= j < |receipts|
      ensures receipts[j].event == Increment(base, i)[j] && ReceiptVerdict(c, receipts[j], keyring) == Valid(true)
    {
      RangeItemShows(c, master, base, i, k, n, j, keyring);
    }
  }

  lemma RangeItemShows(c: Crypto, master: Keyring, db: Tables, i: nat, low: nat, high: nat, j: nat, keyring: Keyring)
    requires Chain(c, master, db) && Agrees(keyring, master) && i < |db.checkpoints| && KeysFor(db, i, keyring)
    requires low <= high <= |Covered(db, i)| && j < high - low && |ReceiptRange(c, db, i, low, high)| == high - low
    ensures var receipt := ReceiptRange(c, db, i, low, high)[j];
      receipt.event == Covered(db, i)[low + j] && ReceiptVerdict(c, receipt, keyring) == Valid(true)
  {
    hide Chain, Covered, Agrees, TheReceipt, ReceiptVerdict, ReceiptRange, KeysFor;
    RangeItem(c, db, i, low, high, j);
    ReceiptKeepsEvent(c, db, i, low + j);
    TheReceiptVerifies(c, master, db, i, low + j, keyring);
  }

  lemma RangeLength(c: Crypto, db: Tables, i: nat, low: nat, high: nat)
    requires i < |db.checkpoints| && low <= high <= |Covered(db, i)|
    ensures |ReceiptRange(c, db, i, low, high)| == high - low
  {
  }

  lemma RangeItem(c: Crypto, db: Tables, i: nat, low: nat, high: nat, j: nat)
    requires i < |db.checkpoints| && low <= high <= |Covered(db, i)| && j < high - low
    ensures ReceiptRange(c, db, i, low, high)[j] == TheReceipt(c, db, i, low + j)
  {
  }

  // A cursor before the increment or beyond the checkpoint is refused.
  lemma OtherCursorsRefused(c: Crypto, master: Keyring, base: Tables, v: Snapshot, i: nat, after: int, limit: Positive,
      keyring: Keyring)
    requires Chain(c, master, base) && LaterReads(c, master, base, v.first, v.second, v.rest) && i < |base.checkpoints|
    ensures BuildPage(c, v.first, v.second, v.rest, base.checkpoints[i].payload.checkpointId, Some(after), limit,
        keyring) == Err(Ledger(InvalidCursor))
       <==> !ValidCursor(base, i, after)
  {
    PageLookups(c, master, base, v.first, v.second, i);
    hide Chain, Extends, ValidatedPrefix, PageOf, CheckpointById;
    NoCursorErrors(c, v.rest, base.checkpoints[i], keyring);
  }

  lemma NoCursorErrors(c: Crypto, r: Reads, checkpoint: Checkpoint, keyring: Keyring)
    ensures ValidatedPrefix(c, r.prefix, checkpoint, keyring) != Err(Ledger(InvalidCursor))
    ensures forall leaves :: BuildBundle(c, r, checkpoint, leaves, keyring) != Err(Ledger(InvalidCursor))
  {
    hide Upto, MerkleRoot, Leaves, LeavesMatch;
  }

  // ---- Walks during a run ----

  // Statement j of page n reads the tables after the further steps at(n, j) of a run.
  ghost function RunView(c: Crypto, s: System, at: (nat, nat) -> seq<Step>): nat -> Snapshot {
    (n: nat) => Snapshot(Exec(c, s, at(n, 0)).db, Exec(c, s, at(n, 1)).db,
                  Reads(Exec(c, s, at(n, 2)).db, Exec(c, s, at(n, 2)).db, Exec(c, s, at(n, 2)).db,
                      Exec(c, s, at(n, 3)).db, Exec(c, s, at(n, 4)).db))
  }

  // The snapshots any walk takes after any run meet the hypotheses above, so the walk shows
  // exactly the increment, and every receipt on it verifies.
  lemma WalkDuringRun(c: Crypto, master: Keyring, first: seq<Step>, at: (nat, nat) -> seq<Step>, i: nat,
      limit: Positive, keyring: Keyring)
    requires Trusted(master, first) && (forall n, j :: Trusted(master, at(n, j))) && Agrees(keyring, master)
    requires i < |Exec(c, INIT, first).db.checkpoints| && KeysFor(Exec(c, INIT, first).db, i, keyring)
    ensures var base := Exec(c, INIT, first).db;
      Chain(c, master, base) && LaterSnapshots(c, master, base, RunView(c, Exec(c, INIT, first), at))
    ensures var base := Exec(c, INIT, first).db;
      var receipts := FollowPages(c, master, base, RunView(c, Exec(c, INIT, first), at), 0, i, None, limit, keyring);
      && |receipts| == |Increment(base, i)|
      && forall j | 0 <= j < |receipts| ::
          receipts[j].event == Increment(base, i)[j] && ReceiptVerdict(c, receipts[j], keyring) == Valid(true)
  {
    hide Exec, Chain, Inv, Extends, FollowPages, ReceiptVerdict, Increment, Trusted, KeysFor, Agrees;
    var s := Exec(c, INIT, first);
    InitInv(c, master);
    RunKeepsInv(c, master, INIT, first);
    ChainOfLedger(c, master, s);
    ViewIsLater(c, master, s, at);
    WalkReadsIncrement(c, master, s.db, RunView(c, s, at), i, limit, keyring);
  }

  lemma ViewIsLater(c: Crypto, master: Keyring, s: System, at: (nat, nat) -> seq<Step>)
    requires Inv(c, master, s) && forall n, j :: Trusted(master, at(n, j))
    ensures LaterSnapshots(c, master, s.db, RunView(c, s, at))
  {
    hide Exec, Chain, Inv, Extends, Trusted;
    forall n: nat ensures LaterReads(c, master, s.db, RunView(c, s, at)(n).first, RunView(c, s, at)(n).second,
        RunView(c, s, at)(n).rest) {
      forall j: nat | j < 5 ensures Chain(c, master, Exec(c, s, at(n, j)).db)
          && Extends(s.db, Exec(c, s, at(n, j)).db) {
        RunKeepsInv(c, master, s, at(n, j));
        ChainOfLedger(c, master, Exec(c, s, at(n, j)));
      }
    }
  }

  // A page is not found exactly when its checkpoint is not, and a missing predecessor breaks
  // the chain.
  lemma WhatPageRefuses(c: Crypto, v: Snapshot, checkpointId: Uuid, after: Option<int>, limit: Positive,
      keyring: Keyring)
    ensures var page := BuildPage(c, v.first, v.second, v.rest, checkpointId, after, limit, keyring);
      var found := CheckpointById(v.first.checkpoints, checkpointId);
      && (page == Err(Ledger(NotFound)) <==> IdUnused(v.first, checkpointId))
      && (found.Some? && found.value.payload.previousId.Some?
          && IdUnused(v.second, found.value.payload.previousId.value) ==>
          page == Err(Ledger(CheckpointChainBroken)))
  {
    hide ValidatedPrefix, BuildBundle, PageOf;
    CheckpointByIdFound(v.first.checkpoints, checkpointId);
    var found := CheckpointById(v.first.checkpoints, checkpointId);
    if found.Some? {
      NoPageIsNotFound(c, v.rest, found.value, keyring);
      if found.value.payload.previousId.Some? {
        CheckpointByIdFound(v.second.checkpoints, found.value.payload.previousId.value);
      }
    }
  }

  lemma NoPageIsNotFound(c: Crypto, r: Reads, checkpoint: Checkpoint, keyring: Keyring)
    ensures ValidatedPrefix(c, r.prefix, checkpoint, keyring) != Err(Ledger(NotFound))
    ensures forall leaves :: BuildBundle(c, r, checkpoint, leaves, keyring) != Err(Ledger(NotFound))
  {
    hide MerkleRoot, Leaves, LeavesMatch, Upto, Sign, CheckpointById;
  }
}
