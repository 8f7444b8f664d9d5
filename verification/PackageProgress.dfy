/** What a build comes to when nobody disturbs it, and what a late worker is told. */
module PackageProgress {
  import opened Wrappers
  import opened Domain
  import opened Sealing
  import opened Runs
  import opened Receipts
  import opened ReceiptProofs
  import Protocol
  import opened Packages
  import opened PackageRows
  import opened PackageMachine
  import opened PackageBoundary
  import opened PackageInvariants
  import opened PackageRuns
  import opened PackageSafety
  import opened PackageService

  lemma {:induction false} RunInTwo(e: Environment, w: World, a: seq<Step>, b: seq<Step>)
    ensures Run(e, w, a + b) == Run(e, Run(e, w, a), b)
    decreases |b|
  {
    hide Work;
    if b == [] {
      assert a + b == a;
    } else {
      var n := |b| - 1;
      RunInTwo(e, w, a, b[..n]);
      assert (a + b)[..|a| + n] == a + b[..n];
    }
  }

  lemma RunOfOne(e: Environment, w: World, step: Step)
    ensures Run(e, w, [step]) == Work(e, w, step)
  {
    hide Work;
    assert [step][..0] == [] && Run(e, w, []) == w;
  }

  // ---- The steps of one build ----

  function ReceiptSteps(n: nat, keyring: Keyring, k: nat): seq<Step> {
    if k == 0 then []
    else ReceiptSteps(n, keyring, k - 1) + [TakeSnapshot(n), TakeSnapshot(n), TakeSnapshot(n), MakeReceipt(n, keyring)]
  }

  function BuildSteps(n: nat, keyring: Keyring, k: nat): seq<Step> {
    [ReadBoundary(n), ReadEvents(n)] + ReceiptSteps(n, keyring, k) + [Render(n)]
  }

  lemma {:induction false} ReceiptStepsTrusted(master: Keyring, n: nat, keyring: Keyring, k: nat)
    requires Agrees(keyring, master)
    ensures TrustedRun(master, ReceiptSteps(n, keyring, k))
  {
    hide Agrees;
    if k == 0 {
    } else {
      ReceiptStepsTrusted(master, n, keyring, k - 1);
    }
  }

  lemma BuildStepsTrusted(master: Keyring, n: nat, keyring: Keyring, k: nat)
    requires Agrees(keyring, master)
    ensures TrustedRun(master, BuildSteps(n, keyring, k))
  {
    hide Agrees, ReceiptSteps;
    ReceiptStepsTrusted(master, n, keyring, k);
  }

  function WithPhase(w: World, n: nat, phase: Phase): World
    requires n in w.claims
  {
    w.(claims := w.claims[n := w.claims[n].(phase := phase)])
  }

  lemma BuildStepIs(e: Environment, w: World, step: Step)
    requires BuildStep(step) && step.n in w.claims
    ensures Work(e, w, step) == WithPhase(w, step.n, Advance(e, w.ledger.db, w.rows, w.claims[step.n], step))
  {
    hide Advance;
  }

  lemma PhaseTwice(w: World, n: nat, first: Phase, second: Phase)
    requires n in w.claims
    ensures WithPhase(WithPhase(w, n, first), n, second) == WithPhase(w, n, second)
  {
    assert w.claims[n := w.claims[n].(phase := first)][n := w.claims[n].(phase := second)]
        == w.claims[n := w.claims[n].(phase := second)];
  }

  // One build step from a phase to the next.
  lemma PhaseStep(e: Environment, w: World, step: Step, phase: Phase)
    requires BuildStep(step) && step.n in w.claims
    ensures Work(e, WithPhase(w, step.n, phase), step)
         == WithPhase(w, step.n, Advance(e, w.ledger.db, w.rows, w.claims[step.n].(phase := phase), step))
  {
    hide Advance, Work;
    BuildStepIs(e, WithPhase(w, step.n, phase), step);
    PhaseTwice(w, step.n, phase, Advance(e, w.ledger.db, w.rows, w.claims[step.n].(phase := phase), step));
  }

  // ---- Collecting receipts ----

  // The worker holds claim n, and its keyring has the keys of the boundary.
  ghost predicate CanBuild(e: Environment, master: Keyring, w: World, n: nat, keyring: Keyring) {
    && n in w.claims && Agrees(keyring, master) && Chain(e.crypto, master, w.ledger.db)
    && var id := w.claims[n].package.checkpointId;
      && Known(w.ledger.db, id) && Whole(e.crypto, master, Base(w.ledger.db, id))
          && Extends(Base(w.ledger.db, id), w.ledger.db)
      && CheckpointById(w.ledger.db.checkpoints, id) == Some(Boundary(Base(w.ledger.db, id)))
      && TheEvents(Base(w.ledger.db, id), w.claims[n].package.instrumentId) != []
      && KeysFor(Base(w.ledger.db, id), |Base(w.ledger.db, id).checkpoints| - 1, keyring)
  }

  lemma OneReceipt(e: Environment, master: Keyring, w: World, n: nat, keyring: Keyring, b: Tables, events: seq<Event>,
      entries: seq<ReceiptEntry>)
    requires n in w.claims && Agrees(keyring, master) && Chain(e.crypto, master, w.ledger.db) && b.checkpoints != []
    requires Whole(e.crypto, master, b) && Extends(b, w.ledger.db) && KeysFor(b, |b.checkpoints| - 1, keyring)
    requires |entries| < |events| && events[|entries|] in Covered(b, |b.checkpoints| - 1)
    ensures Run(e, WithPhase(w, n, Collecting(Boundary(b), events, entries, [])),
        [TakeSnapshot(n), TakeSnapshot(n), TakeSnapshot(n), MakeReceipt(n, keyring)])
         == WithPhase(w, n, Collecting(Boundary(b), events, entries + [TheEntry(e.crypto, b, events[|entries|])], []))
  {
    hide Work, WithPhase, Whole, Extends, Chain, Agrees, KeysFor, Covered, MakeEntry, TheEntry, Run;
    var db := w.ledger.db;
    var phase := Collecting(Boundary(b), events, entries, []);
    RunOfFour(e, WithPhase(w, n, phase), [TakeSnapshot(n), TakeSnapshot(n), TakeSnapshot(n), MakeReceipt(n, keyring)]);
    PhaseStep(e, w, TakeSnapshot(n), phase);
    PhaseStep(e, w, TakeSnapshot(n), phase.(snapshots := [db]));
    PhaseStep(e, w, TakeSnapshot(n), phase.(snapshots := [db, db]));
    PhaseStep(e, w, MakeReceipt(n, keyring), phase.(snapshots := [db, db, db]));
    assert [] + [db] == [db] && [db] + [db] == [db, db] && [db, db] + [db] == [db, db, db];
    EntryMade(e.crypto, master, b, Reads(db, db, db, db, db), events[|entries|], keyring);
  }

  lemma RunOfFour(e: Environment, w: World, steps: seq<Step>)
    requires |steps| == 4
    ensures Run(e, w, steps) == Work(e, Work(e, Work(e, Work(e, w, steps[0]), steps[1]), steps[2]), steps[3])
  {
    hide Work;
    PackageService.RunOfThree(e, w, steps[..3]);
  }

  lemma {:induction false} ReceiptsCollected(e: Environment, master: Keyring, w: World, n: nat, keyring: Keyring,
      b: Tables, events: seq<Event>, k: nat)
    requires n in w.claims && Agrees(keyring, master) && Chain(e.crypto, master, w.ledger.db) && b.checkpoints != []
    requires Whole(e.crypto, master, b) && Extends(b, w.ledger.db) && KeysFor(b, |b.checkpoints| - 1, keyring)
    requires k <= |events| && forall j | 0 <= j < |events| :: events[j] in Covered(b, |b.checkpoints| - 1)
    ensures Run(e, WithPhase(w, n, Collecting(Boundary(b), events, [], [])), ReceiptSteps(n, keyring, k))
         == WithPhase(w, n, Collecting(Boundary(b), events, EntriesUpto(e.crypto, b, events, k), []))
  {
    hide Work, WithPhase, Whole, Extends, Chain, Agrees, KeysFor, Covered, TheEntry;
    if k == 0 {
    } else {
      ReceiptsCollected(e, master, w, n, keyring, b, events, k - 1);
      OneReceipt(e, master, w, n, keyring, b, events, EntriesUpto(e.crypto, b, events, k - 1));
      RunInTwo(e, WithPhase(w, n, Collecting(Boundary(b), events, [], [])), ReceiptSteps(n, keyring, k - 1),
               [TakeSnapshot(n), TakeSnapshot(n), TakeSnapshot(n), MakeReceipt(n, keyring)]);
    }
  }

  // A worker that nobody disturbs renders the package's bundle.
  lemma RendersItsBundle(e: Environment, master: Keyring, w: World, n: nat, keyring: Keyring)
    requires CanBuild(e, master, w, n, keyring) && w.claims[n].phase.Started?
    ensures var (p, b) := (w.claims[n].package, Base(w.ledger.db, w.claims[n].package.checkpointId));
      Run(e, w, BuildSteps(n, keyring, |TheEvents(b, p.instrumentId)|))
          == WithPhase(w, n, Rendered(TheBundleOf(e.crypto, master, b, p)))
  {
    hide Work, Run, Whole, Extends, Chain, Agrees, KeysFor, Covered, TheEntry, Base, Known, TheEvents,
        InstrumentEvents, TheBundleOf, ReceiptSteps, CheckpointById, BundleFor;
    var (p, b) := (w.claims[n].package, Base(w.ledger.db, w.claims[n].package.checkpointId));
    var events := TheEvents(b, p.instrumentId);
    var collecting := Collecting(Boundary(b), events, [], []);
    TheEventsAre(e.crypto, master, b, w.ledger.db, p.instrumentId);
    BundleCollected(e.crypto, master, b, p);
    StartCollecting(e, w, n, b);
    ReceiptsCollected(e, master, w, n, keyring, b, events, |events|);
    PhaseStep(e, w, Render(n), Collecting(Boundary(b), events, EntriesUpto(e.crypto, b, events, |events|), []));
    RunInTwo(e, w, [ReadBoundary(n), ReadEvents(n)] + ReceiptSteps(n, keyring, |events|), [Render(n)]);
    RunInTwo(e, w, [ReadBoundary(n), ReadEvents(n)], ReceiptSteps(n, keyring, |events|));
    RunOfOne(e, WithPhase(w, n, Collecting(Boundary(b), events, EntriesUpto(e.crypto, b, events, |events|), [])),
        Render(n));
  }

  lemma StartCollecting(e: Environment, w: World, n: nat, b: Tables)
    requires n in w.claims && w.claims[n].phase.Started? && b.checkpoints != []
    requires CheckpointById(w.ledger.db.checkpoints, w.claims[n].package.checkpointId) == Some(Boundary(b))
    requires InstrumentEvents(w.ledger.db.events, Boundary(b), w.claims[n].package.instrumentId)
        == TheEvents(b, w.claims[n].package.instrumentId) != []
    ensures Run(e, w, [ReadBoundary(n), ReadEvents(n)])
         == WithPhase(w, n, Collecting(Boundary(b), TheEvents(b, w.claims[n].package.instrumentId), [], []))
  {
    hide Work, Run, TheEvents, InstrumentEvents, CheckpointById;
    RunInTwo(e, w, [ReadBoundary(n)], [ReadEvents(n)]);
    RunOfOne(e, w, ReadBoundary(n));
    BuildStepIs(e, w, ReadBoundary(n));
    RunOfOne(e, WithPhase(w, n, Bounded(Boundary(b))), ReadEvents(n));
    PhaseStep(e, w, ReadEvents(n), Bounded(Boundary(b)));
    assert [ReadBoundary(n)] + [ReadEvents(n)] == [ReadBoundary(n), ReadEvents(n)];
  }

  lemma CanBuildClaimed(e: Environment, master: Keyring, w: World, n: nat, keyring: Keyring)
    requires WorldInv(e, master, w) && n in w.claims && Agrees(keyring, master)
    requires HasKeys(e, w.ledger.db, w.claims[n].package.checkpointId, keyring)
    ensures CanBuild(e, master, w, n, keyring)
  {
    hide Protocol.Inv, RowsOk, ContentOk, CreationOk, PhaseOk, Whole, Extends, Chain, Agrees, KeysFor, TheEvents, Base,
        Known, UniqueIds, CheckpointById, SameIdentity;
    SoundLedger(e.crypto, master, w.ledger);
    assert ClaimOk(e.crypto, master, w.ledger.db, w.rows.packages, w.claims[n]);
    ClaimBound(e, master, w, n);
    BoundHasEvents(w.ledger.db, w.claims[n].package);
    BaseIsWhole(e.crypto, master, w.ledger.db, w.claims[n].package.checkpointId);
  }

  lemma BoundHasEvents(db: Tables, p: Package)
    requires Bound(db, p)
    ensures Known(db, p.checkpointId) && TheEvents(Base(db, p.checkpointId), p.instrumentId) != []
  {
  }

  // The keyring holds the keys of this boundary and its predecessor.
  ghost predicate HasKeys(e: Environment, db: Tables, checkpointId: Uuid, keyring: Keyring) {
    Known(db, checkpointId) && KeysFor(Base(db, checkpointId), |Base(db, checkpointId).checkpoints| - 1, keyring)
  }

  function EventCount(w: World, n: nat): nat
    requires n in w.claims
  {
    match CheckpointById(w.ledger.db.checkpoints, w.claims[n].package.checkpointId)
    case None => 0
    case Some(boundary) => |InstrumentEvents(w.ledger.db.events, boundary, w.claims[n].package.instrumentId)|
  }

  // In every run: a build that nobody disturbs, by a worker that still holds the lease when it
  // finishes, makes the package ready with the one archive it can have.
  lemma UndisturbedBuildFinishes(e: Environment, master: Keyring, w: World, n: nat, keyring: Keyring, now: Time)
    requires WorldInv(e, master, w) && n in w.claims && w.claims[n].phase.Started? && Agrees(keyring, master)
    requires HasKeys(e, w.ledger.db, w.claims[n].package.checkpointId, keyring)
    ensures w.claims[n].row < |w.rows.packages|
        && Whole(e.crypto, master, Base(w.ledger.db, w.claims[n].package.checkpointId))
    ensures var (i, p) := (w.claims[n].row, w.claims[n].package);
      var archive := TheArchive(e, master, Base(w.ledger.db, p.checkpointId), p);
      var w' := Run(e, w, BuildSteps(n, keyring, EventCount(w, n)) + [Finish(n, now)]);
      && w'.rows == FinishBuild(w.rows, i, p.leaseOwner, archive, now).0 && w'.ledger == w.ledger
          && w'.claims == w.claims - {n}
      && |w'.rows.packages| == |w.rows.packages|
      && (w.rows.packages[i].status.Building? && w.rows.packages[i].leaseOwner == p.leaseOwner ==>
          && w'.rows.packages[i] == Finished(w.rows.packages[i], archive, now)
          && w'.rows.artifacts == w.rows.artifacts[p.packageId :=
              Artifact(archive.content, archive.sha, archive.size, now)])
  {
    hide FinishBuild;
    hide Protocol.Inv, RowsOk, ContentOk, CreationOk, Whole, Extends, Chain, Agrees, KeysFor, TheEvents, Base, Known,
        TheBundleOf, BuildSteps, Run, InstrumentEvents, CheckpointById, WellShaped;
    var (p, b) := (w.claims[n].package, Base(w.ledger.db, w.claims[n].package.checkpointId));
    CanBuildClaimed(e, master, w, n, keyring);
    ClaimedRow(e, master, w, n);
    CountOfBoundary(e, master, w, n, keyring);
    RendersItsBundle(e, master, w, n, keyring);
    RunInTwo(e, w, BuildSteps(n, keyring, EventCount(w, n)), [Finish(n, now)]);
    RunOfOne(e, WithPhase(w, n, Rendered(TheBundleOf(e.crypto, master, b, p))), Finish(n, now));
    assert WithPhase(w, n, Rendered(TheBundleOf(e.crypto, master, b, p))).claims - {n} == w.claims - {n};
    FinishWhenHeld(w.rows, w.claims[n].row, p.leaseOwner, TheArchive(e, master, b, p), now);
  }

  lemma FinishWhenHeld(rows: Rows, i: nat, owner: Option<string>, archive: Archive, now: Time)
    requires RowsOk(rows) && i < |rows.packages|
    ensures var (rows', p) := (FinishBuild(rows, i, owner, archive, now).0, rows.packages[i]);
      && |rows'.packages| == |rows.packages|
      && (p.status.Building? && p.leaseOwner == owner ==>
          && rows'.packages[i] == Finished(p, archive, now)
          && rows'.artifacts
               == rows.artifacts[p.packageId := Artifact(archive.content, archive.sha, archive.size, now)])
  {
    hide WellShaped, UniqueRows;
  }

  lemma ClaimedRow(e: Environment, master: Keyring, w: World, n: nat)
    requires WorldInv(e, master, w) && n in w.claims
    ensures var claim := w.claims[n];
      && claim.row < |w.rows.packages| && SameIdentity(w.rows.packages[claim.row], claim.package) && RowsOk(w.rows)
      && w.rows.packages[claim.row].packageId == claim.package.packageId
  {
    hide Protocol.Inv, RowsOk, ContentOk, CreationOk, PhaseOk, Whole, Base, Known;
    assert ClaimOk(e.crypto, master, w.ledger.db, w.rows.packages, w.claims[n]);
  }

  lemma CountOfBoundary(e: Environment, master: Keyring, w: World, n: nat, keyring: Keyring)
    requires CanBuild(e, master, w, n, keyring)
    ensures EventCount(w, n) == |TheEvents(Base(w.ledger.db, w.claims[n].package.checkpointId),
        w.claims[n].package.instrumentId)|
  {
    hide Whole, Extends, Chain, Agrees, KeysFor, TheEvents, Base, Known, InstrumentEvents, CheckpointById;
    TheEventsAre(e.crypto, master, Base(w.ledger.db, w.claims[n].package.checkpointId), w.ledger.db,
        w.claims[n].package.instrumentId);
  }

  // ---- A late worker ----

  // All rows before this one, as if other transactions had locked them.
  function Before(i: nat): (rows: set<nat>)
    ensures forall j :: j in rows <==> 0 <= j < i
  {
    if i == 0 then {} else Before(i - 1) + {i - 1}
  }

  // One worker claims a row, and when its lease has run out another claims it too.
  function TwoClaims(i: nat, n: nat, m: nat, lease: Time, now: Time): seq<Step> {
    [TakeClaim(n, "first", lease, now, Before(i)), TakeClaim(m, "second", lease, now + lease + 1, Before(i))]
  }

  lemma RowIsCandidate(packages: seq<Package>, i: nat, now: Time)
    requires i < |packages| && Eligible(packages[i], now)
    ensures Candidate(packages, now, Before(i)) == Some(i)
  {
    hide Eligible, Candidate;
    CandidateIsFirst(packages, now, Before(i));
  }

  lemma ClaimIs(e: Environment, w: World, i: nat, n: nat, worker: string, lease: Time, now: Time)
    requires i < |w.rows.packages| && Eligible(w.rows.packages[i], now) && n !in w.claims
    ensures var p := Claimed(w.rows.packages[i], worker, lease, now);
      Work(e, w, TakeClaim(n, worker, lease, now, Before(i)))
          == w.(rows := WithRow(w.rows, i, p), claims := w.claims[n := Claim(i, p, Started)])
  {
    hide Eligible, Candidate, Claimed, Advance;
    RowIsCandidate(w.rows.packages, i, now);
  }

  lemma BothClaim(e: Environment, w: World, i: nat, n: nat, m: nat, lease: Time, now: Time)
    requires i < |w.rows.packages| && Eligible(w.rows.packages[i], now) && n !in w.claims && m !in w.claims && n != m
    ensures var p1 := Claimed(w.rows.packages[i], "first", lease, now);
      var p2 := Claimed(p1, "second", lease, now + lease + 1);
      Run(e, w, TwoClaims(i, n, m, lease, now))
        == w.(rows := WithRow(w.rows, i, p2),
            claims := w.claims[n := Claim(i, p1, Started)][m := Claim(i, p2, Started)])
  {
    hide Work, Run, Candidate;
    var p1 := Claimed(w.rows.packages[i], "first", lease, now);
    var first := w.(rows := WithRow(w.rows, i, p1), claims := w.claims[n := Claim(i, p1, Started)]);
    assert TwoClaims(i, n, m, lease, now)
        == [TakeClaim(n, "first", lease, now, Before(i))] + [TakeClaim(m, "second", lease, now + lease + 1, Before(i))];
    RunInTwo(e, w, [TakeClaim(n, "first", lease, now, Before(i))],
        [TakeClaim(m, "second", lease, now + lease + 1, Before(i))]);
    RunOfOne(e, w, TakeClaim(n, "first", lease, now, Before(i)));
    ClaimIs(e, w, i, n, "first", lease, now);
    RunOfOne(e, first, TakeClaim(m, "second", lease, now + lease + 1, Before(i)));
    ClaimIs(e, first, i, m, "second", lease, now + lease + 1);
    assert first.rows.packages[i := Claimed(p1, "second", lease, now + lease + 1)]
        == w.rows.packages[i := Claimed(p1, "second", lease, now + lease + 1)];
  }

  // Both build; the second finishes.
  function LateSteps(e: Environment, w: World, i: nat, n: nat, m: nat, keyring: Keyring, lease: Time, now: Time,
      finished: Time): seq<Step>
    requires i < |w.rows.packages|
  {
    var count := match CheckpointById(w.ledger.db.checkpoints, w.rows.packages[i].checkpointId)
      case None => 0
      case Some(boundary) => |InstrumentEvents(w.ledger.db.events, boundary, w.rows.packages[i].instrumentId)|;
    TwoClaims(i, n, m, lease, now) + BuildSteps(n, keyring, count)
        + (BuildSteps(m, keyring, count) + [Finish(m, finished)])
  }

  // From every reachable state and for every package that can be claimed there is a run in
  // which a worker loses its lease while it builds, another worker claims, builds and
  // finishes the package, and the first is told ready although nothing of its own is stored.
  lemma LateWorkerIsToldReady(e: Environment, master: Keyring, before: seq<Step>, i: nat, n: nat, m: nat,
      keyring: Keyring,
      lease: Time, now: Time, finished: Time, late: Time)
    requires TrustedRun(master, before) && Agrees(keyring, master) && n != m
    requires var w := Run(e, INIT_WORLD, before);
      && n !in w.claims && m !in w.claims && i < |w.rows.packages| && Eligible(w.rows.packages[i], now)
      && HasKeys(e, w.ledger.db, w.rows.packages[i].checkpointId, keyring)
    ensures var w := Run(e, INIT_WORLD, before);
      var w' := Run(e, w, LateSteps(e, w, i, n, m, keyring, lease, now, finished));
      && i < |w'.rows.packages| && w'.rows.packages[i].status.Ready?
      && n in w'.claims && w'.claims[n].phase.Rendered? && w'.claims[n].row == i
          && w'.claims[n].package.leaseOwner == Some("first")
      && var archive := BuildArchive(e.crypto.sha, e.renderer, w'.claims[n].phase.bundle);
        && FinishBuild(w'.rows, i, Some("first"), archive, late) == (w'.rows, Settled(Ready))
        && Work(e, w', Finish(n, late)).rows == w'.rows
  {
    hide Run, WorldInv, Eligible, HasKeys, Agrees, Work, FinishBuild, LateSteps, BuildArchive, TrustedStep;
    var w := Run(e, INIT_WORLD, before);
    InitWorldInv(e, master);
    RunKeepsWorld(e, master, INIT_WORLD, before);
    LateRun(e, master, w, i, n, m, keyring, lease, now, finished);
    var w' := Run(e, w, LateSteps(e, w, i, n, m, keyring, lease, now, finished));
    ToldReady(e, w', n, late);
  }

  lemma ToldReady(e: Environment, w: World, n: nat, late: Time)
    requires n in w.claims && w.claims[n].phase.Rendered? && w.claims[n].row < |w.rows.packages|
        && w.rows.packages[w.claims[n].row].status.Ready?
    ensures var archive := BuildArchive(e.crypto.sha, e.renderer, w.claims[n].phase.bundle);
      && FinishBuild(w.rows, w.claims[n].row, w.claims[n].package.leaseOwner, archive, late) == (w.rows, Settled(Ready))
      && Work(e, w, Finish(n, late)).rows == w.rows
  {
    hide BuildArchive;
  }

  lemma LateRun(e: Environment, master: Keyring, w: World, i: nat, n: nat, m: nat, keyring: Keyring, lease: Time,
      now: Time, finished: Time)
    requires WorldInv(e, master, w) && Agrees(keyring, master) && n != m && n !in w.claims && m !in w.claims
    requires i < |w.rows.packages| && Eligible(w.rows.packages[i], now)
        && HasKeys(e, w.ledger.db, w.rows.packages[i].checkpointId, keyring)
    ensures var w' := Run(e, w, LateSteps(e, w, i, n, m, keyring, lease, now, finished));
      && i < |w'.rows.packages| && w'.rows.packages[i].status.Ready?
      && n in w'.claims && w'.claims[n].phase.Rendered? && w'.claims[n].row == i
          && w'.claims[n].package.leaseOwner == Some("first")
  {
    hide Run, WorldInv, HasKeys, Agrees, Work, CanBuild, Whole, TheBundleOf, Base, TheArchive, InstrumentEvents,
        CheckpointById, BuildSteps, TwoClaims, TheEvents, Eligible, FinishBuild;
    var claimed := Run(e, w, TwoClaims(i, n, m, lease, now));
    BothClaim(e, w, i, n, m, lease, now);
    ClaimsTrusted(master, i, n, m, lease, now);
    RunKeepsWorld(e, master, w, TwoClaims(i, n, m, lease, now));
    var count := EventCount(claimed, n);
    CanBuildClaimed(e, master, claimed, n, keyring);
    CountOfBoundary(e, master, claimed, n, keyring);
    RendersItsBundle(e, master, claimed, n, keyring);
    BuildStepsTrusted(master, n, keyring, count);
    RunKeepsWorld(e, master, claimed, BuildSteps(n, keyring, count));
    var rendered := Run(e, claimed, BuildSteps(n, keyring, count));
    UndisturbedBuildFinishes(e, master, rendered, m, keyring, finished);
    RunInTwo(e, w, TwoClaims(i, n, m, lease, now) + BuildSteps(n, keyring, count), BuildSteps(m, keyring, count)
        + [Finish(m, finished)]);
    RunInTwo(e, w, TwoClaims(i, n, m, lease, now), BuildSteps(n, keyring, count));
  }

  lemma ClaimsTrusted(master: Keyring, i: nat, n: nat, m: nat, lease: Time, now: Time)
    ensures TrustedRun(master, TwoClaims(i, n, m, lease, now))
  {
  }
}
