/** The audit package transactions as they run: rows overwritten field by field, receipts
    collected in a loop (src/ledger/audit/service.py:113-641). */
module PackageService {
  import opened Wrappers
  import opened Hashing
  import opened Domain
  import opened Sealing
  import opened Runs
  import opened Receipts
  import opened ReceiptProofs
  import opened Packages
  import opened PackageRows
  import opened PackageMachine
  import opened PackageBoundary
  import opened PackageInvariants
  import Protocol
  import opened PackageSafety

  // ---- Loading a bundle ----

  datatype LoadResult = Loaded(bundle: PackageBundle) | CancelObserved | LoadFailed(code: FailureCode)

  // What the statements of one load see: the boundary, the list of events, the snapshots of
  // each receipt, and the answer of each cancellation check.
  datatype LoadReads = LoadReads(boundary: Tables, listing: Tables, receipt: nat -> Reads, cancelled: nat -> bool)

  // The entries of the first n events, or why the load stopped among them. A receipt comes
  // before its cancellation check.
  function Collect(c: Crypto, v: LoadReads, events: seq<Event>, boundary: Checkpoint, keyring: Keyring,
      n: nat): Result<seq<ReceiptEntry>, LoadResult>
    requires n <= |events|
  {
    if n == 0 then Ok([])
    else
      match Collect(c, v, events, boundary, keyring, n - 1)
      case Err(stopped) => Err(stopped)
      case Ok(entries) =>
        match MakeEntry(c, v.receipt(n - 1), events[n - 1], boundary, keyring)
        case Err(code) => Err(LoadFailed(code))
        case Ok(entry) => if v.cancelled(n + 1) then Err(CancelObserved) else Ok(entries + [entry])
  }

  function Load(c: Crypto, v: LoadReads, package: Package, keyring: Keyring): LoadResult {
    match CheckpointById(v.boundary.checkpoints, package.checkpointId)
    case None => LoadFailed(ReceiptFailure(CheckpointChainBroken))
    case Some(boundary) =>
      var events := InstrumentEvents(v.listing.events, boundary, package.instrumentId);
      if v.cancelled(0) then CancelObserved
      else if events == [] then LoadFailed(AuditBoundaryEmpty)
      else if v.cancelled(1) then CancelObserved
      else
        match Collect(c, v, events, boundary, keyring, |events|)
        case Ok(entries) => Loaded(BundleFor(package, boundary, entries))
        case Err(stopped) => stopped
  }

  method LoadBundle(c: Crypto, v: LoadReads, package: Package, keyring: Keyring) returns (result: LoadResult)
    ensures result == Load(c, v, package, keyring)
  {
    hide InstrumentEvents, CheckpointById, MakeEntry;
    var found := CheckpointById(v.boundary.checkpoints, package.checkpointId);
    if found.None? {
      return LoadFailed(ReceiptFailure(CheckpointChainBroken));
    }
    if v.cancelled(0) {
      return CancelObserved;
    }
    var boundary := found.value;
    var events := InstrumentEvents(v.listing.events, boundary, package.instrumentId);
    if |events| == 0 {
      return LoadFailed(AuditBoundaryEmpty);
    }
    if v.cancelled(1) {
      return CancelObserved;
    }
    var entries: seq<ReceiptEntry> := [];
    for i := 0 to |events|
      invariant Collect(c, v, events, boundary, keyring, i) == Ok(entries)
    {
      var made := MakeEntry(c, v.receipt(i), events[i], boundary, keyring);
      if made.Err? {
        StoppedStays(c, v, events, boundary, keyring, i + 1, |events|);
        return LoadFailed(made.error);
      }
      entries := entries + [made.value];
      if v.cancelled(i + 2) {
        StoppedStays(c, v, events, boundary, keyring, i + 1, |events|);
        return CancelObserved;
      }
    }
    return Loaded(BundleFor(package, boundary, entries));
  }

  lemma {:induction false} StoppedStays(c: Crypto, v: LoadReads, events: seq<Event>, boundary: Checkpoint,
      keyring: Keyring, k: nat, n: nat)
    requires k <= n <= |events| && Collect(c, v, events, boundary, keyring, k).Err?
    ensures Collect(c, v, events, boundary, keyring, n) == Collect(c, v, events, boundary, keyring, k)
    decreases n
  {
    if k >= n {
    } else {
      StoppedStays(c, v, events, boundary, keyring, k, n - 1);
    }
  }

  // What stops a load, whatever its statements see: a boundary that is not there, a
  // cancellation seen in time, a boundary without events of the instrument, or the first
  // receipt that cannot be built.
  lemma WhatLoadRefuses(c: Crypto, v: LoadReads, package: Package, keyring: Keyring)
    ensures var result := Load(c, v, package, keyring);
      && (IdUnused(v.boundary, package.checkpointId) ==>
          result == LoadFailed(ReceiptFailure(CheckpointChainBroken)))
      && forall boundary | CheckpointById(v.boundary.checkpoints, package.checkpointId) == Some(boundary) ::
          var events := InstrumentEvents(v.listing.events, boundary, package.instrumentId);
          && (v.cancelled(0) ==> result == CancelObserved)
          && (!v.cancelled(0) && events == [] ==> result == LoadFailed(AuditBoundaryEmpty))
          && (!v.cancelled(0) && events != [] && v.cancelled(1) ==> result == CancelObserved)
          && (!v.cancelled(0) && events != [] && !v.cancelled(1) && result.LoadFailed? ==>
              exists n: nat | n < |events| :: FirstFailure(c, v, events, boundary, keyring, n, result.code))
  {
    hide InstrumentEvents, MakeEntry, FirstFailure;
    CheckpointByIdFound(v.boundary.checkpoints, package.checkpointId);
    var found := CheckpointById(v.boundary.checkpoints, package.checkpointId);
    if found.Some? {
      var events := InstrumentEvents(v.listing.events, found.value, package.instrumentId);
      if Collect(c, v, events, found.value, keyring, |events|).Err? {
        StopsAtFirst(c, v, events, found.value, keyring, |events|);
      }
    }
  }

  // Receipt n is the first that cannot be built, and this is the code of its error.
  ghost predicate FirstFailure(c: Crypto, v: LoadReads, events: seq<Event>, boundary: Checkpoint, keyring: Keyring,
      n: nat, code: FailureCode)
    requires n < |events|
  {
    && (forall k: nat | k < n :: BuildReceiptAt(c, v.receipt(k), events[k], boundary, keyring).Ok?)
    && match BuildReceiptAt(c, v.receipt(n), events[n], boundary, keyring)
       case Ok(_) => false
       case Err(Ledger(error)) => code == ReceiptFailure(error)
       case Err(OutsideTree) => code == AuditExportFailed
  }

  lemma {:induction false} StopsAtFirst(c: Crypto, v: LoadReads, events: seq<Event>, boundary: Checkpoint,
      keyring: Keyring, n: nat)
    requires n <= |events|
    ensures match Collect(c, v, events, boundary, keyring, n)
      case Ok(_) => forall k: nat | k < n :: BuildReceiptAt(c, v.receipt(k), events[k], boundary, keyring).Ok?
      case Err(stopped) =>
        || stopped == CancelObserved
        || (stopped.LoadFailed? && exists m: nat | m < n ::
            FirstFailure(c, v, events, boundary, keyring, m, stopped.code))
  {
    hide BuildReceiptAt;
    if n == 0 {
    } else {
      StopsAtFirst(c, v, events, boundary, keyring, n - 1);
      var made := MakeEntry(c, v.receipt(n - 1), events[n - 1], boundary, keyring);
      if Collect(c, v, events, boundary, keyring, n - 1).Ok? && made.Err? {
        assert FirstFailure(c, v, events, boundary, keyring, n - 1, made.error);
      }
    }
  }

  // The steps of the machine break for the same reasons.
  lemma WhatStepsRefuse(db: Tables, package: Package, boundary: Checkpoint)
    ensures IdUnused(db, package.checkpointId) <==>
      LookUpBoundary(db, package) == Broken(ReceiptFailure(CheckpointChainBroken))
    ensures InstrumentEvents(db.events, boundary, package.instrumentId) == [] <==>
      ListEvents(db, package, boundary) == Broken(AuditBoundaryEmpty)
  {
    hide InstrumentEvents;
    CheckpointByIdFound(db.checkpoints, package.checkpointId);
  }

  // Every statement of the load sees a state of the ledger since the boundary was sealed.
  ghost predicate ReadsSince(c: Crypto, master: Keyring, b: Tables, v: LoadReads) {
    && Chain(c, master, v.boundary) && Extends(b, v.boundary) && Extends(b, v.listing)
    && forall k: nat :: ReceiptReadsSince(c, master, b, v.receipt(k))
  }

  ghost predicate ReceiptReadsSince(c: Crypto, master: Keyring, b: Tables, r: Reads) {
    Chain(c, master, r.previous) && Extends(b, r.prefix) && Extends(b, r.previous) && Extends(b, r.previousPrefix)
  }

  ghost predicate CancelledBefore(v: LoadReads, n: nat) {
    exists j | 2 <= j < n + 2 :: v.cancelled(j)
  }

  // What a load comes to is fixed but for two things it cannot know beforehand: whether a
  // check sees a cancellation, and whether the keyring has the two keys. It never depends on
  // when its statements read the ledger.
  lemma LoadOutcome(c: Crypto, master: Keyring, b: Tables, v: LoadReads, package: Package, keyring: Keyring)
    requires Whole(c, master, b) && ReadsSince(c, master, b, v) && Agrees(keyring, master)
    requires Boundary(b).payload.checkpointId == package.checkpointId && TheEvents(b, package.instrumentId) != []
    ensures Load(c, v, package, keyring) ==
      if v.cancelled(0) || v.cancelled(1) then CancelObserved
      else if !KeysFor(b, |b.checkpoints| - 1, keyring) then LoadFailed(ReceiptFailure(UnknownKeyVersion))
      else if CancelledBefore(v, |TheEvents(b, package.instrumentId)|) then CancelObserved
      else Loaded(TheBundleOf(c, master, b, package))
  {
    var events := TheEvents(b, package.instrumentId);
    BoundaryRead(c, master, b, v.boundary);
    TheEventsAre(c, master, b, v.listing, package.instrumentId);
    assert forall k | 0 <= k < |events| :: events[k] in events;
    CollectOutcome(c, master, b, v, events, keyring, |events|);
    BundleCollected(c, master, b, package);
    hide Whole, Extends, Collect, TheEvents, InstrumentEvents, Covered, CancelledBefore, KeysFor, ReadsSince,
        CheckpointById, TheBundleOf, BundleFor;
  }

  lemma BundleCollected(c: Crypto, master: Keyring, b: Tables, package: Package)
    requires Whole(c, master, b)
    ensures var events := TheEvents(b, package.instrumentId);
      && (forall k | 0 <= k < |events| :: events[k] in Covered(b, |b.checkpoints| - 1))
      && TheBundleOf(c, master, b, package) == BundleFor(package, Boundary(b), EntriesUpto(c, b, events, |events|))
  {
    ExtendsItself(b);
    TheEventsAre(c, master, b, b, package.instrumentId);
    var events := TheEvents(b, package.instrumentId);
    assert forall k | 0 <= k < |events| :: events[k] in events;
    hide Chain, Extends, TheEntry, Covered, TheEvents;
    assert TheEntries(c, b, events) == EntriesUpto(c, b, events, |events|);
  }

  lemma BoundaryRead(c: Crypto, master: Keyring, b: Tables, db: Tables)
    requires Whole(c, master, b) && Chain(c, master, db) && Extends(b, db)
    ensures CheckpointById(db.checkpoints, Boundary(b).payload.checkpointId) == Some(Boundary(b))
  {
    var last := |b.checkpoints| - 1;
    assert db.checkpoints[last] == b.checkpoints[last];
    CheckpointByIdFinds(db.checkpoints, last);
  }

  lemma {:induction false} CollectOutcome(c: Crypto, master: Keyring, b: Tables, v: LoadReads, events: seq<Event>,
      keyring: Keyring, n: nat)
    requires Whole(c, master, b) && ReadsSince(c, master, b, v) && Agrees(keyring, master) && n <= |events|
    requires forall k | 0 <= k < |events| :: events[k] in Covered(b, |b.checkpoints| - 1)
    ensures Collect(c, v, events, Boundary(b), keyring, n) ==
      if n == 0 then Ok([])
      else if !KeysFor(b, |b.checkpoints| - 1, keyring) then Err(LoadFailed(ReceiptFailure(UnknownKeyVersion)))
      else if CancelledBefore(v, n) then Err(CancelObserved)
      else Ok(EntriesUpto(c, b, events, n))
    decreases n
  {
    hide Whole, Extends, Chain, Covered, KeysFor, MakeEntry, TheEntry, ReadsSince, ReceiptReadsSince, CancelledBefore,
        Agrees;
    if n == 0 {
    } else {
      CollectOutcome(c, master, b, v, events, keyring, n - 1);
      EntryCollected(c, master, b, v, events[n - 1], keyring, n - 1);
      OneMoreCheck(v, n);
    }
  }

  lemma OneMoreCheck(v: LoadReads, n: nat)
    requires n > 0
    ensures CancelledBefore(v, n) <==> CancelledBefore(v, n - 1) || v.cancelled(n + 1)
    ensures !CancelledBefore(v, 0)
  {
  }

  lemma EntryCollected(c: Crypto, master: Keyring, b: Tables, v: LoadReads, event: Event, keyring: Keyring, k: nat)
    requires Whole(c, master, b) && ReadsSince(c, master, b, v) && Agrees(keyring, master)
        && event in Covered(b, |b.checkpoints| - 1)
    ensures MakeEntry(c, v.receipt(k), event, Boundary(b), keyring)
         == if KeysFor(b, |b.checkpoints| - 1, keyring) then Ok(TheEntry(c, b, event))
             else Err(ReceiptFailure(UnknownKeyVersion))
  {
    hide Extends, Chain, Covered, KeysFor, MakeEntry, TheEntry, Agrees, UniqueIds;
    assert ReceiptReadsSince(c, master, b, v.receipt(k));
    EntryMade(c, master, b, v.receipt(k), event, keyring);
  }

  ghost function EntriesUpto(c: Crypto, b: Tables, events: seq<Event>, n: nat): (entries: seq<ReceiptEntry>)
    requires b.checkpoints != [] && n <= |events|
    requires forall k | 0 <= k < |events| :: events[k] in Covered(b, |b.checkpoints| - 1)
    ensures |entries| == n && forall k | 0 <= k < n :: entries[k] == TheEntry(c, b, events[k])
  {
    if n == 0 then [] else EntriesUpto(c, b, events, n - 1) + [TheEntry(c, b, events[n - 1])]
  }

  // Statement j of receipt k, and the two before them, read the ledger after the further steps
  // at(k, j) of a run.
  ghost function RunReads(e: Environment, w: World, at: (nat, nat) -> seq<Step>, cancelled: nat -> bool): LoadReads {
    LoadReads(Run(e, w, at(0, 0)).ledger.db, Run(e, w, at(0, 1)).ledger.db,
              (k: nat) => Reads(Run(e, w, at(k + 1, 0)).ledger.db, Run(e, w, at(k + 1, 0)).ledger.db,
                  Run(e, w, at(k + 1, 0)).ledger.db,
                         Run(e, w, at(k + 1, 1)).ledger.db, Run(e, w, at(k + 1, 2)).ledger.db),
              cancelled)
  }

  // So for any package of any run, however the run goes on while it is loaded: a load that sees
  // no cancellation and has the two keys returns the package's bundle.
  lemma LoadDuringRun(e: Environment, master: Keyring, before: seq<Step>, i: nat, at: (nat, nat) -> seq<Step>,
      cancelled: nat -> bool, keyring: Keyring)
    requires TrustedRun(master, before) && (forall k, j :: TrustedRun(master, at(k, j))) && Agrees(keyring, master)
    requires i < |Run(e, INIT_WORLD, before).rows.packages|
    ensures var w := Run(e, INIT_WORLD, before);
      Bound(w.ledger.db, w.rows.packages[i])
          && Whole(e.crypto, master, Base(w.ledger.db, w.rows.packages[i].checkpointId))
    ensures var w := Run(e, INIT_WORLD, before);
      var p := w.rows.packages[i];
      var b := Base(w.ledger.db, p.checkpointId);
      var v := RunReads(e, w, at, cancelled);
      Load(e.crypto, v, p, keyring) ==
        if cancelled(0) || cancelled(1) then CancelObserved
        else if !KeysFor(b, |b.checkpoints| - 1, keyring) then LoadFailed(ReceiptFailure(UnknownKeyVersion))
        else if CancelledBefore(v, |TheEvents(b, p.instrumentId)|) then CancelObserved
        else Loaded(TheBundleOf(e.crypto, master, b, p))
  {
    hide *;
    var w := Run(e, INIT_WORLD, before);
    InitWorldInv(e, master);
    RunKeepsWorld(e, master, INIT_WORLD, before);
    RowIsBound(e, master, w, i);
    ReadsDuringRun(e, master, w, w.rows.packages[i].checkpointId, at, cancelled);
    ChecksOf(e, w, at, cancelled);
    LoadOutcome(e.crypto, master, Base(w.ledger.db, w.rows.packages[i].checkpointId), RunReads(e, w, at, cancelled),
        w.rows.packages[i], keyring);
  }

  lemma ChecksOf(e: Environment, w: World, at: (nat, nat) -> seq<Step>, cancelled: nat -> bool)
    ensures RunReads(e, w, at, cancelled).cancelled == cancelled
  {
  }

  lemma RowIsBound(e: Environment, master: Keyring, w: World, i: nat)
    requires WorldInv(e, master, w) && i < |w.rows.packages|
    ensures var (db, p) := (w.ledger.db, w.rows.packages[i]);
      && Bound(db, p) && TheEvents(Base(db, p.checkpointId), p.instrumentId) != []
      && Known(db, p.checkpointId) && Whole(e.crypto, master, Base(db, p.checkpointId))
          && Extends(Base(db, p.checkpointId), db)
      && Boundary(Base(db, p.checkpointId)).payload.checkpointId == p.checkpointId
  {
    hide RowsOk, CreationOk, ClaimOk, Protocol.Inv, Whole, Extends, TheEvents, Base, Known, Chain, UniqueIds,
        TheArchive, KnownFailure;
    SoundLedger(e.crypto, master, w.ledger);
    assert ContentOk(e, master, w.ledger.db, w.rows, i);
    BaseIsWhole(e.crypto, master, w.ledger.db, w.rows.packages[i].checkpointId);
  }

  lemma ReadsDuringRun(e: Environment, master: Keyring, w: World, checkpointId: Uuid, at: (nat, nat) -> seq<Step>,
      cancelled: nat -> bool)
    requires WorldInv(e, master, w) && Known(w.ledger.db, checkpointId)
        && Extends(Base(w.ledger.db, checkpointId), w.ledger.db)
    requires forall k, j :: TrustedRun(master, at(k, j))
    ensures ReadsSince(e.crypto, master, Base(w.ledger.db, checkpointId), RunReads(e, w, at, cancelled))
  {
    hide WorldInv, Run, Chain, Extends, Base, TrustedRun;
    var b := Base(w.ledger.db, checkpointId);
    forall k, j ensures Chain(e.crypto, master, Run(e, w, at(k, j)).ledger.db)
        && Extends(b, Run(e, w, at(k, j)).ledger.db) {
      RunKeepsWorld(e, master, w, at(k, j));
      LedgerOfRun(e, master, w, at(k, j));
      WorldIsSound(e, master, Run(e, w, at(k, j)));
      ExtendsTransitive(b, w.ledger.db, Run(e, w, at(k, j)).ledger.db);
    }
    forall k: nat ensures ReceiptReadsSince(e.crypto, master, b, RunReads(e, w, at, cancelled).receipt(k)) {
    }
  }

  lemma WorldIsSound(e: Environment, master: Keyring, w: World)
    requires WorldInv(e, master, w)
    ensures Chain(e.crypto, master, w.ledger.db)
  {
    hide RowsOk, CreationOk, ClaimOk, ContentOk, Protocol.Inv, Chain;
    SoundLedger(e.crypto, master, w.ledger);
  }

  // ---- The tables ----

  class PackageTables {
    var packages: seq<Package>
    var artifacts: map<Uuid, Artifact>

    constructor ()
      ensures State() == Rows([], map[])
    {
      packages, artifacts := [], map[];
    }

    function State(): Rows
      reads this
    {
      Rows(packages, artifacts)
    }
  }

  // The rows that a settling pass finalises, in key order.
  function SettledRows(packages: seq<Package>, now: Time, locked: set<nat>): seq<Package> {
    if packages == [] then []
    else
      var n := |packages| - 1;
      SettledRows(packages[..n], now, locked)
        + if n !in locked && StaleCancelling(packages[n], now) then [ApplyCancelled(packages[n], now)] else []
  }

  lemma OneMoreSettled(packages: seq<Package>, i: nat, now: Time, locked: set<nat>)
    requires i < |packages|
    ensures SettledRows(packages[..i + 1], now, locked)
         == SettledRows(packages[..i], now, locked) + if i !in locked && StaleCancelling(packages[i], now)
             then [ApplyCancelled(packages[i], now)] else []
  {
    assert packages[..i + 1][..i] == packages[..i];
  }

  class AuditPackageService {
    const sha: Hasher
    const renderer: Renderer

    constructor (sha: Hasher, renderer: Renderer)
      ensures this.sha == sha && this.renderer == renderer
    {
      this.sha, this.renderer := sha, renderer;
    }

    // The first eligible row that nobody has locked, and no other, is taken.
    method ClaimPackage(t: PackageTables, worker: string, lease: Time, now: Time,
        locked: set<nat>) returns (claimed: Option<nat>)
      modifies t
      ensures (t.State(), claimed) == Packages.ClaimPackage(old(t.State()), worker, lease, now, locked)
      ensures claimed.None? ==> forall j | 0 <= j < |t.packages| :: j in locked || !Eligible(t.packages[j], now)
      ensures claimed.Some? ==>
        && claimed.value < |old(t.packages)| && claimed.value !in locked
            && Eligible(old(t.packages)[claimed.value], now)
        && forall j | 0 <= j < claimed.value :: j in locked || !Eligible(old(t.packages)[j], now)
    {
      CandidateIsFirst(t.packages, now, locked);
      var i := 0;
      while i < |t.packages| && (i in locked || !Eligible(t.packages[i], now))
        invariant i <= |t.packages|
        invariant forall j | 0 <= j < i :: j in locked || !Eligible(t.packages[j], now)
      {
        i := i + 1;
      }
      if i == |t.packages| {
        return None;
      }
      var row := t.packages[i];
      row := row.(status := Building);
      row := row.(leaseOwner := Some(worker), leaseExpires := Some(now + lease));
      row := row.(attemptCount := row.attemptCount + 1);
      row := row.(updatedAt := now);
      t.packages := t.packages[i := row];
      return Some(i);
    }

    method SettleStaleCancelling(t: PackageTables, now: Time, locked: set<nat>) returns (settled: seq<Package>)
      modifies t
      ensures t.State() == SettleStale(old(t.State()), now, locked)
      ensures settled == SettledRows(old(t.packages), now, locked)
    {
      settled := [];
      ghost var before := t.packages;
      assert before[..0] == [];
      for i := 0 to |t.packages|
        invariant |t.packages| == |before| && t.artifacts == old(t.artifacts)
        invariant forall j | 0 <= j < i :: t.packages[j] == SettleRow(before[j], j, now, locked)
        invariant forall j | i <= j < |before| :: t.packages[j] == before[j]
        invariant settled == SettledRows(before[..i], now, locked)
      {
        OneMoreSettled(before, i, now, locked);
        if i !in locked && StaleCancelling(t.packages[i], now) {
          var row := t.packages[i];
          row := row.(status := Cancelled);
          row := row.(leaseOwner := None, leaseExpires := None);
          row := row.(cancelledAt := Some(now), updatedAt := now);
          t.packages := t.packages[i := row];
          settled := settled + [row];
        }
      }
      assert before[..|before|] == before;
      assert t.packages == SettleAll(before, now, locked);
    }

    // The archive row and the ready state commit together, or nothing does.
    method FinishBuild(t: PackageTables, i: nat, claimed: Package, archive: Archive,
        now: Time) returns (result: BuildResult)
      modifies t
      ensures (t.State(), result) == Packages.FinishBuild(old(t.State()), i, claimed.leaseOwner, archive, now)
    {
      if i >= |t.packages| {
        return Settled(Status.Failed);
      }
      var row := t.packages[i];
      match row.status {
        case Cancelling =>
          row := row.(status := Cancelled, leaseOwner := None, leaseExpires := None);
          row := row.(cancelledAt := Some(now), updatedAt := now);
          t.packages := t.packages[i := row];
          return Settled(Cancelled);
        case Cancelled =>
          return Superseded;
        case _ =>
      }
      if row.status != Building || row.leaseOwner != claimed.leaseOwner {
        return Settled(row.status);
      }
      if row.packageId in t.artifacts {
        return Raised;
      }
      t.artifacts := t.artifacts[row.packageId := Artifact(archive.content, archive.sha, archive.size, now)];
      row := row.(status := Ready);
      row := row.(artifactSha := Some(archive.sha), artifactSize := Some(archive.size),
          eventCount := Some(archive.eventCount));
      row := row.(leaseOwner := None, leaseExpires := None);
      row := row.(readyAt := Some(now), updatedAt := now);
      t.packages := t.packages[i := row];
      return Settled(Ready);
    }

    method FinishCancelled(t: PackageTables, i: nat, claimed: Package, now: Time) returns (result: BuildResult)
      modifies t
      ensures (t.State(), result) == Packages.FinishCancelled(old(t.State()), i, claimed.leaseOwner, now)
    {
      if i >= |t.packages| {
        return Settled(Status.Failed);
      }
      var row := t.packages[i];
      if row.status == Cancelling && row.leaseOwner == claimed.leaseOwner {
        row := row.(status := Cancelled, leaseOwner := None, leaseExpires := None);
        row := row.(cancelledAt := Some(now), updatedAt := now);
        t.packages := t.packages[i := row];
        return Settled(Cancelled);
      }
      return if row.status == Cancelled then Superseded else Settled(row.status);
    }

    method FailOrCancel(t: PackageTables, i: nat, claimed: Package, code: FailureCode, reason: string,
        now: Time) returns (result: BuildResult)
      modifies t
      ensures (t.State(), result) == Packages.FailOrCancel(old(t.State()), i, claimed.leaseOwner, code, reason, now)
    {
      if i >= |t.packages| {
        return Settled(Status.Failed);
      }
      var row := t.packages[i];
      if row.status == Cancelling {
        row := row.(status := Cancelled, leaseOwner := None, leaseExpires := None);
        row := row.(cancelledAt := Some(now), updatedAt := now);
        t.packages := t.packages[i := row];
        return Settled(Cancelled);
      }
      if row.status != Building || row.leaseOwner != claimed.leaseOwner {
        return Settled(row.status);
      }
      row := row.(status := Status.Failed, failureCode := Some(code));
      row := row.(failureReason :=
          Some(if |reason| <= MAX_FAILURE_REASON then reason else reason[..MAX_FAILURE_REASON]));
      row := row.(leaseOwner := None, leaseExpires := None);
      row := row.(failedAt := Some(now), updatedAt := now);
      t.packages := t.packages[i := row];
      return Settled(Status.Failed);
    }

    method RequestRetry(t: PackageTables, id: Uuid, now: Time) returns (result: Result<Package, PackageError>)
      modifies t
      ensures (t.State(), result) == Packages.RequestRetry(old(t.State()), id, now)
    {
      var found := IndexOfPackage(t.packages, id);
      if found.None? {
        return Err(PackageNotFound);
      }
      var row := t.packages[found.value];
      match row.status {
        case Failed =>
          row := row.(status := Status.Pending, failureCode := None, failureReason := None, failedAt := None);
          row := row.(leaseOwner := None, leaseExpires := None);
          row := row.(cancelRequestedAt := None, cancelledAt := None, updatedAt := now);
          t.packages := t.packages[found.value := row];
          return Ok(row);
        case Cancelling => return Err(NotRetryable);
        case Cancelled => return Err(NotRetryable);
        case Pending => return Err(NotFailed);
        case Building => return Err(StillBuilding);
        case Ready => return Err(AlreadyReady);
      }
    }

    method CancelPackage(t: PackageTables, id: Uuid, now: Time) returns (result: Result<(Package, bool), PackageError>)
      modifies t
      ensures (t.State(), result) == Packages.CancelPackage(old(t.State()), id, now)
    {
      var found := IndexOfPackage(t.packages, id);
      if found.None? {
        return Err(PackageNotFound);
      }
      var row := t.packages[found.value];
      match row.status {
        case Pending =>
          row := row.(status := Cancelled, cancelRequestedAt := Some(now));
          row := row.(cancelledAt := Some(now), updatedAt := now);
          t.packages := t.packages[found.value := row];
          return Ok((row, true));
        case Building =>
          row := row.(status := Cancelling, cancelRequestedAt := Some(now), updatedAt := now);
          t.packages := t.packages[found.value := row];
          return Ok((row, true));
        case Cancelling => return Ok((row, false));
        case Cancelled => return Ok((row, false));
        case Ready => return Err(AlreadyReady);
        case Failed => return Err(NotCancellable);
      }
    }

    // The rivals are what other creators insert between the look-up and the insertion.
    method CreatePackage(t: PackageTables, chosen: Tables, counted: Tables, key: string, instrumentId: string,
        asked: Option<Uuid>, id: Uuid, now: Time, rivals: seq<Package>)
            returns (result: Result<(Package, bool), PackageError>)
      modifies t
      ensures (t.State(), result)
          == Packages.CreatePackage(sha, renderer, old(t.State()), chosen, counted, key, instrumentId, asked, id,
          now, rivals)
    {
      var found := IndexOfKey(t.packages, key);
      if found.Some? {
        var existing := t.packages[found.value];
        return if Replays(existing, instrumentId, asked) then Ok((existing, false)) else Err(KeyConflict);
      }
      var resolved := ResolveBoundary(chosen, asked);
      if resolved.Err? {
        return Err(resolved.error);
      }
      var boundary := resolved.value;
      var count := |InstrumentEvents(counted.events, boundary, instrumentId)|;
      if count == 0 {
        return Err(if asked.Some? then CheckpointDoesNotCoverInstrument else InstrumentHasNoSealedEvents);
      }
      var fingerprint := sha.hash(renderer.requestJson(instrumentId, boundary.payload.checkpointId));
      var package := Package(id, key, fingerprint, instrumentId, boundary.payload.checkpointId,
                             Status.Pending, 0, None, None, None, None, None, None, None, now, now, None, None, None,
                                 None);
      var inserted := InsertRivals(t.State(), rivals);
      t.packages, t.artifacts := inserted.packages, inserted.artifacts;
      found := IndexOfKey(t.packages, key);
      if found.Some? {
        var existing := t.packages[found.value];
        return if Replays(existing, instrumentId, asked) then Ok((existing, false)) else Err(KeyConflict);
      }
      if IndexOfPackage(t.packages, id).Some? {
        return Err(DuplicatePackage);
      }
      t.packages := t.packages + [package];
      return Ok((package, true));
    }
  }

  // A creator that nobody disturbs does the same in its three steps.
  lemma CreationSteps(e: Environment, w: World, t: nat, key: string, instrumentId: string, asked: Option<Uuid>,
      id: Uuid, now: Time)
    requires t !in w.creations
    ensures Run(e, w, [Choose(t, key, instrumentId, asked), Count(t, id, now), Insert(t)]).rows
         == Packages.CreatePackage(e.crypto.sha, e.renderer, w.rows, w.ledger.db, w.ledger.db, key, instrumentId,
             asked, id, now, []).0
  {
    hide InsertPackage, InstrumentEvents, ResolveBoundary, NewPackage, Run, ClaimsAfter, Protocol.Next;
    var steps := [Choose(t, key, instrumentId, asked), Count(t, id, now), Insert(t)];
    RunOfThree(e, w, steps);
  }

  lemma RunOfThree(e: Environment, w: World, steps: seq<Step>)
    requires |steps| == 3
    ensures Run(e, w, steps) == Work(e, Work(e, Work(e, w, steps[0]), steps[1]), steps[2])
  {
    hide Work;
    assert steps[..2][..1] == [steps[0]] && [steps[0]][..0] == [];
    assert Run(e, w, []) == w;
    assert Run(e, w, [steps[0]]) == Work(e, w, steps[0]);
  }

  // The request that created this package, whatever else happened meanwhile.
  ghost predicate CreatedBy(e: Environment, key: string, instrumentId: string, asked: Option<Uuid>, created: Rows,
      package: Package) {
    exists rows, chosen, counted, id, now, rivals, isNew: bool ::
      Packages.CreatePackage(e.crypto.sha, e.renderer, rows, chosen, counted, key, instrumentId, asked, id, now, rivals)
        == (created, Ok((package, isNew)))
  }

  // Creating is idempotent: however the queue has moved on since, the same request finds the
  // same package again and changes nothing; another instrument or boundary is a conflict.
  lemma CreateIsIdempotent(e: Environment, created: Rows, package: Package, key: string, instrumentId: string,
      asked: Option<Uuid>, rows: Rows,
      chosen: Tables, counted: Tables, instrumentId': string, asked': Option<Uuid>, id: Uuid, now: Time,
          rivals: seq<Package>)
    requires CreatedBy(e, key, instrumentId, asked, created, package) && RowsOk(rows) && Later(created, rows)
    ensures var (again, result) :=
        Packages.CreatePackage(e.crypto.sha, e.renderer, rows, chosen, counted, key, instrumentId', asked', id, now,
            rivals);
      && again == rows
      && (if Replays(package, instrumentId', asked') then result.Ok? && !result.value.1
          && SameIdentity(package, result.value.0)
          else result == Err(KeyConflict))
      && Replays(package, instrumentId, asked)
  {
    hide RowsOk, Later, InsertPackage, InsertRivals, Packages.CreatePackage, CreatedBy;
    var i := CreatedRow(e, created, package, key, instrumentId, asked);
    LaterRow(created, rows, i);
    KeyFound(rows, i);
    ReplayOf(e, rows, chosen, counted, i, instrumentId', asked', id, now, rivals);
  }

  lemma CreatedRow(e: Environment, created: Rows, package: Package, key: string, instrumentId: string,
      asked: Option<Uuid>) returns (i: nat)
    requires CreatedBy(e, key, instrumentId, asked, created, package)
    ensures i < |created.packages| && created.packages[i] == package && package.idempotencyKey == key
        && Replays(package, instrumentId, asked)
  {
    hide InsertRivals, InstrumentEvents, Latest, CheckpointById;
    var rows, chosen, counted, id, now, rivals, isNew: bool :|
      Packages.CreatePackage(e.crypto.sha, e.renderer, rows, chosen, counted, key, instrumentId, asked, id, now, rivals)
        == (created, Ok((package, isNew)));
    if asked.Some? {
      CheckpointByIdFound(chosen.checkpoints, asked.value);
    }
    var before := if IndexOfKey(rows.packages, key).Some? then rows else InsertRivals(rows, rivals);
    i := if IndexOfKey(before.packages, key).Some? then IndexOfKey(before.packages, key).value else |before.packages|;
  }

  lemma LaterRow(rows: Rows, rows': Rows, i: nat)
    requires Later(rows, rows') && i < |rows.packages|
    ensures i < |rows'.packages| && SameIdentity(rows.packages[i], rows'.packages[i])
  {
  }

  lemma KeyFound(rows: Rows, i: nat)
    requires RowsOk(rows) && i < |rows.packages|
    ensures IndexOfKey(rows.packages, rows.packages[i].idempotencyKey) == Some(i)
  {
    var j := IndexOfKey(rows.packages, rows.packages[i].idempotencyKey).value;
    assert rows.packages[j].idempotencyKey == rows.packages[i].idempotencyKey;
  }

  lemma ReplayOf(e: Environment, rows: Rows, chosen: Tables, counted: Tables, i: nat, instrumentId: string,
      asked: Option<Uuid>,
      id: Uuid, now: Time, rivals: seq<Package>)
    requires i < |rows.packages| && IndexOfKey(rows.packages, rows.packages[i].idempotencyKey) == Some(i)
    ensures Packages.CreatePackage(e.crypto.sha, e.renderer, rows, chosen, counted, rows.packages[i].idempotencyKey,
        instrumentId, asked, id, now, rivals)
         == (rows, if Replays(rows.packages[i], instrumentId, asked) then Ok((rows.packages[i], false))
             else Err(KeyConflict))
  {
    hide Replays, InsertPackage, InsertRivals;
  }
}
