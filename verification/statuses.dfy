/** The declared status table (internal/state/model.go) and the status changes that really happen. */
module Statuses {
  import opened Wrappers
  import opened Model
  import opened Tables
  import opened Transactions
  import opened Invariant
  import opened Runs
  import opened Durable
  import opened Laws
  import opened Safety
  import Cleanup
  import Delivery
  import Stage

  /** Known before the transaction: it will take f off the declared table. */
  predicate LeavesTable(db: Db, op: Op, f: FileId)
    requires f in db.files
  {
    match op
    case MarkLocalReady(g, _) => g == f && db.files[f].status.BaiduStaged?
    case RecordStaged(_, staged) => f in staged && db.files[f].status.Planned?
    case FailBatch(b, permanent) => permanent && f in FilesOf(db, b) && Verified(db.files[f].status)
    case _ => false
  }

  /** A transaction that commits leaves the table exactly in these three cases. */
  lemma StatusChanges(db: Db, op: Op, f: FileId)
    requires Consistent(db) && Attempt(db, op).Some? && f in db.files
    ensures f in Attempt(db, op).value.files
    ensures !TransitionAllowed(db.files[f].status, Attempt(db, op).value.files[f].status) <==> LeavesTable(db, op, f)
  {
    hide Consistent, Evolves, UpsertManifest, PlanAll, TransitionAllowed;
    OpKeeps(db, op);
    assert Attempt(db, op).value == Exec(db, op);
    Delivery.SamePlace(db, Attempt(db, op).value, f);
    TableFacts(db.files[f].status);
    if op.UpsertPage? {
      ManifestSettles(db, op.dirs, op.files);
    } else if op.Plan? {
      PlanSettles(db, op.chunks);
    } else {
      Delivery.KnownStatus(db, f);
    }
  }

  lemma TableFacts(s: FileStatus)
    ensures TransitionAllowed(s, s) && (s.Discovered? ==> TransitionAllowed(s, Planned))
    ensures s.Planned? ==> TransitionAllowed(s, BaiduStaging) && !TransitionAllowed(s, BaiduStaged)
    ensures s.BaiduStaging? ==> TransitionAllowed(s, BaiduStaged)
    ensures s.BaiduStaged? ==> !TransitionAllowed(s, LocalReady)
    ensures AwaitsDownload(s) ==> TransitionAllowed(s, Downloading)
    ensures s.Downloading? ==> TransitionAllowed(s, LocalReady)
    ensures s.LocalReady? || s.DriveUploading? ==> TransitionAllowed(s, DriveUploading)
    ensures AwaitsDrive(s) ==> TransitionAllowed(s, DriveUploaded)
    ensures s.DriveUploaded? ==> TransitionAllowed(s, DriveVerified)
    ensures s.DriveVerified? ==> TransitionAllowed(s, CleanupPending)
    ensures s.CleanupPending? ==> TransitionAllowed(s, Done)
    ensures !Verified(s) <==> TransitionAllowed(s, FailedPermanent)
  {
  }

  // ----- what the engines' runs make of it ----------------------------------------------

  /** Nothing of a file is in the cache before its download was started. */
  ghost predicate CacheIsLate(s: Snap) {
    forall f, p :: p in s.cache && CacheFile(f, p) ==> f in s.db.files && !BeforeDownload(s.db.files[f].status)
  }

  /** No file of a batch that is being staged is still PLANNED. */
  ghost predicate OpenedAtOnce(db: Db) {
    forall b, f :: BeingStaged(db, b) && f in FilesOf(db, b) && f in db.files ==> !db.files[f].status.Planned?
  }

  lemma LateStays(db: Db, db': Db, f: FileId)
    requires Evolves(db, db') && f in db.files && !BeforeDownload(db.files[f].status)
    ensures f in db'.files && !BeforeDownload(db'.files[f].status)
  {
    assert RowEvolves(db.files[f], db'.files[f]);
  }

  lemma CacheIsLateStep(k: Rules, s: Snap, moves: seq<Move>, i: nat, s': Snap)
    requires OneStep(k, s, moves, i, s') && CacheIsLate(s)
    ensures CacheIsLate(s')
  {
    hide Consistent, Evolves, Attempt, Cleanup.Legal;
    forall f, p | p in s'.cache && CacheFile(f, p) ensures f in s'.db.files && !BeforeDownload(s'.db.files[f].status) {
      match moves[i] {
        case RenameLocal(part, bin) => if p == bin { assert CacheFile(f, part); }
        case WriteLocal(q) => if p != q { assert p in s'.cache - {q}; }
        case Tx(op) =>
          assert p in s.cache;
          LateStays(s.db, s'.db, f);
        case _ =>
          assert p in s.cache && s'.db == s.db;
      }
    }
  }

  lemma OpenedColumns(db: Db, op: Op)
    requires Attempt(db, op).Some? && !op.UpsertPage? && !op.Plan? && OpenedAtOnce(db)
    ensures OpenedAtOnce(Attempt(db, op).value)
  {
    var db' := Attempt(db, op).value;
    forall b, f | BeingStaged(db', b) && f in FilesOf(db', b) && f in db'.files ensures !db'.files[f].status.Planned? {
      assert f in FilesOf(db, b) && f in db.files;
      if !op.StartBatch? || op.batch != b { assert BeingStaged(db, b); }
    }
  }

  lemma {:induction false} NewBatchesPend(db: Db, chunks: seq<Chunk>, b: BatchId)
    requires PlanChunks(db, chunks).Some? && b in PlanChunks(db, chunks).value.batches && b !in db.batches
    ensures PlanChunks(db, chunks).value.batches[b].status.BatchPending?
  {
    var before := PlanChunks(db, chunks[..|chunks| - 1]).value;
    if b in before.batches { NewBatchesPend(db, chunks[..|chunks| - 1], b); }
  }

  /** Pages and plans open no batch and plan no file of one that is there. */
  lemma OpenedSettled(db: Db, db': Db)
    requires Consistent(db) && Settled(db, db') && Evolves(db, db') && OpenedAtOnce(db)
    requires forall b :: BeingStaged(db', b) ==> BeingStaged(db, b)
    ensures OpenedAtOnce(db')
  {
    forall b, f | BeingStaged(db', b) && f in FilesOf(db', b) && f in db'.files ensures !db'.files[f].status.Planned? {
      assert BeingStaged(db, b) && FilesOf(db', b) == FilesOf(db, b);
      assert f in db.members && f in db.files && !db.files[f].status.Discovered?;
    }
  }

  lemma OpenedStep(db: Db, op: Op)
    requires Consistent(db) && Attempt(db, op).Some? && OpenedAtOnce(db)
    ensures OpenedAtOnce(Attempt(db, op).value)
  {
    hide UpsertManifest, PlanChunks, Settled, Consistent, Evolves, OpenedAtOnce;
    var db' := Attempt(db, op).value;
    assert db' == Exec(db, op);
    OpKeeps(db, op);
    if op.UpsertPage? {
      ManifestSettles(db, op.dirs, op.files);
      PagesKeepBatches(db, op.dirs, op.files);
      OpenedSettled(db, db');
    } else if op.Plan? {
      PlanSettles(db, op.chunks);
      forall b | BeingStaged(db', b) ensures BeingStaged(db, b) { PlanOpensNone(db, op.chunks, b); }
      OpenedSettled(db, db');
    } else {
      OpenedColumns(db, op);
    }
  }

  lemma PlanOpensNone(db: Db, chunks: seq<Chunk>, b: BatchId)
    requires PlanAll(db, chunks).Some? && BeingStaged(PlanAll(db, chunks).value, b)
    ensures BeingStaged(db, b)
  {
    if chunks != [] {
      if b in db.batches { Stage.PlanKeepsBatches(RegisterTaskRoot(db), chunks); } else { NewBatchesPend(RegisterTaskRoot(db), chunks, b); }
    }
  }

  /** Both hold in every state of every lawful run. */
  lemma {:induction false} AlwaysLate(k: Rules, states: seq<Snap>, moves: seq<Move>, i: nat)
    requires LawfulRun(k, states, moves) && i <= |moves|
    ensures CacheIsLate(states[i]) && OpenedAtOnce(states[i].db)
  {
    hide OneStep, Step, LawfulFrom, CacheIsLate, OpenedAtOnce;
    if i == 0 {
      LateAtFirst(states[0]);
    } else {
      AlwaysLate(k, states, moves, i - 1);
      ReadStep(k, states, moves, i - 1);
      CacheIsLateStep(k, states[i - 1], moves, i - 1, states[i]);
      OpenedInRun(k, states[i - 1], moves, i - 1, states[i]);
    }
  }

  lemma LateAtFirst(s: Snap)
    requires s.cache == map[] && s.db.batches == map[]
    ensures CacheIsLate(s) && OpenedAtOnce(s.db)
  {
  }

  lemma OpenedInRun(k: Rules, s: Snap, moves: seq<Move>, i: nat, s': Snap)
    requires OneStep(k, s, moves, i, s') && OpenedAtOnce(s.db)
    ensures OpenedAtOnce(s'.db)
  {
    hide Consistent, Evolves, Attempt, OpenedAtOnce, LawfulTx, Cleanup.Legal;
    if moves[i].Tx? { OpenedStep(s.db, moves[i].op); }
  }

  /** In the engines' runs two of the three cases never arise: a staged file has nothing in the cache yet, and
      a batch is opened before its files are confirmed. What does leave the table is exactly a permanent staging
      failure of a batch with a file already verified: it overwrites even DONE. */
  lemma RunsLeaveTable(k: Rules, states: seq<Snap>, moves: seq<Move>, i: nat, f: FileId)
    requires LawfulRun(k, states, moves) && i < |moves| && f in states[i].db.files
    ensures f in states[i + 1].db.files
    ensures !TransitionAllowed(states[i].db.files[f].status, states[i + 1].db.files[f].status) <==>
              moves[i].Tx? && moves[i].op.FailBatch? && LeavesTable(states[i].db, moves[i].op, f)
  {
    hide TransitionAllowed, Consistent, Evolves, Attempt;
    ReadStep(k, states, moves, i);
    AlwaysLate(k, states, moves, i);
    if moves[i].Tx? {
      StatusChanges(states[i].db, moves[i].op, f);
      OnlyFailures(k, states[i], moves[i].op, f);
    } else {
      TableFacts(states[i].db.files[f].status);
    }
  }

  lemma OnlyFailures(k: Rules, s: Snap, op: Op, f: FileId)
    requires Attempt(s.db, op).Some? && (OfCleanup(Tx(op)) || LawfulTx(k, s, op)) && CacheIsLate(s) && OpenedAtOnce(s.db)
    requires f in s.db.files
    ensures LeavesTable(s.db, op, f) ==> op.FailBatch?
  {
    match op
    case MarkLocalReady(g, _) => assert CacheFile(g, BinFile(g));
    case RecordStaged(b, staged) => if f in staged { assert CanConfirm(s.db, b, f, staged[f]); }
    case _ =>
  }
}
