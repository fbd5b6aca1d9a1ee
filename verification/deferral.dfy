/** Why a partly downloaded batch can be deferred for ever: the admission check (internal/app/stage.go)
    counts its own cached files twice, and those stay in the cache until the whole batch can be cleaned. */
module Deferral {
  import opened Wrappers
  import opened Model
  import opened Tables
  import opened Transactions
  import opened Invariant
  import opened Runs
  import opened Durable
  import opened Progresses
  import opened Laws
  import opened Safety
  import opened Restaging
  import Cleanup

  /** Files of the batch that are verified in Drive and keep their cache until the batch is cleaned. */
  function VerifiedOf(db: Db, b: BatchId): set<FileId> {
    set f | f in db.files && f in FilesOf(db, b) && db.files[f].status.DriveVerified?
  }

  predicate Waits(db: Db, b: BatchId, f: FileId) {
    f in FilesOf(db, b) && f in db.files && AwaitsStaging(db.files[f].status)
  }

  /** The batch is still to be staged, has a file that waits for it, and together with what it has in the cache
      already is larger than the cache. */
  ghost predicate Wedged(maxCache: nat, db: Db, b: BatchId) {
    && b in db.batches && StageableBatch(db.batches[b].status)
    && (exists f :: Waits(db, b, f))
    && db.batches[b].totalBytes + SizeSum(db.files, VerifiedOf(db, b)) > maxCache
  }

  /** The cache never admits it. */
  lemma NotAdmitted(maxCache: nat, db: Db, b: BatchId)
    requires Wedged(maxCache, db, b)
    ensures !Admitted(maxCache, db, b)
  {
    SizeSumMonotone(db.files, VerifiedOf(db, b), Caching(db));
  }

  /** No lawful transaction stages, fails for good, or cleans such a batch. */
  lemma LeftAlone(k: Rules, s: Snap, op: Op, b: BatchId)
    requires Consistent(s.db) && Attempt(s.db, op).Some? && Wedged(k.maxCache, s.db, b)
    requires if OfCleanup(Tx(op)) then Cleanup.Legal(k.honest, s, [Tx(op)], 0) else LawfulTx(k, s, op)
    ensures !TouchesBatch(op, b)
    ensures op != AuthorizeBatch(b) && (op.RecordStaged? ==> op.batch != b)
  {
    hide SizeSum, Consistent;
    NotAdmitted(k.maxCache, s.db, b);
    NotCandidate(k.maxCache, s.db, b);
  }

  lemma NotCandidate(maxCache: nat, db: Db, b: BatchId)
    requires Wedged(maxCache, db, b)
    ensures !Candidate(db, b)
  {
    hide SizeSum;
    var f :| Waits(db, b, f);
  }

  lemma RowsKept(db: Db, op: Op, b: BatchId, f: FileId)
    requires Attempt(db, op).Some? && !op.UpsertPage? && !op.Plan? && f in FilesOf(db, b) && f in db.files
    requires AwaitsStaging(db.files[f].status) || db.files[f].status.DriveVerified?
    requires !TouchesBatch(op, b) && op != AuthorizeBatch(b) && (op.RecordStaged? ==> op.batch != b)
    ensures f in Attempt(db, op).value.files && Attempt(db, op).value.files[f].size == db.files[f].size
    ensures AwaitsStaging(db.files[f].status) ==> AwaitsStaging(Attempt(db, op).value.files[f].status)
    ensures db.files[f].status.DriveVerified? ==> Attempt(db, op).value.files[f].status.DriveVerified?
  {
  }

  /** What is left of the batch's files by a transaction that does not stage or clean it. */
  ghost predicate FilesStay(db: Db, db': Db, b: BatchId) {
    && FilesOf(db', b) == FilesOf(db, b)
    && forall f :: f in FilesOf(db, b) && f in db.files && (AwaitsStaging(db.files[f].status) || db.files[f].status.DriveVerified?) ==>
         && f in db'.files && db'.files[f].size == db.files[f].size
         && (AwaitsStaging(db.files[f].status) ==> AwaitsStaging(db'.files[f].status))
         && (db.files[f].status.DriveVerified? ==> db'.files[f].status.DriveVerified?)
  }

  lemma StillWedged(maxCache: nat, db: Db, db': Db, b: BatchId)
    requires Wedged(maxCache, db, b) && FilesStay(db, db', b)
    requires b in db'.batches && db'.batches[b].totalBytes == db.batches[b].totalBytes
    requires StageableBatch(db'.batches[b].status)
    ensures Wedged(maxCache, db', b)
  {
    var f :| Waits(db, b, f);
    assert Waits(db', b, f);
    assert VerifiedOf(db, b) <= VerifiedOf(db', b);
    SizeSumSameSizes(db.files, db'.files, VerifiedOf(db, b));
    SizeSumMonotone(db'.files, VerifiedOf(db, b), VerifiedOf(db', b));
  }

  lemma SettledStay(db: Db, db': Db, b: BatchId)
    requires Consistent(db) && Settled(db, db') && Evolves(db, db') && b in db.batches
    ensures FilesStay(db, db', b)
  {
    forall f | f in FilesOf(db, b) && f in db.files
      ensures f in db'.files && db'.files[f].size == db.files[f].size && db'.files[f].status == db.files[f].status
    {
      assert RowEvolves(db.files[f], db'.files[f]) && AtMostPlanned(db.files[f].status, db'.files[f].status);
      assert f in db.members && !db.files[f].status.Discovered?;
    }
  }

  lemma ColumnsStay(k: Rules, s: Snap, op: Op, b: BatchId)
    requires Consistent(s.db) && Attempt(s.db, op).Some? && Wedged(k.maxCache, s.db, b) && !op.UpsertPage? && !op.Plan?
    requires if OfCleanup(Tx(op)) then Cleanup.Legal(k.honest, s, [Tx(op)], 0) else LawfulTx(k, s, op)
    requires Evolves(s.db, Attempt(s.db, op).value)
    ensures FilesStay(s.db, Attempt(s.db, op).value, b)
  {
    hide Consistent, Attempt, LawfulTx, Cleanup.Legal, SizeSum, Waits;
    LeftAlone(k, s, op, b);
    forall f | f in FilesOf(s.db, b) && f in s.db.files && (AwaitsStaging(s.db.files[f].status) || s.db.files[f].status.DriveVerified?)
      ensures f in Attempt(s.db, op).value.files && Attempt(s.db, op).value.files[f].size == s.db.files[f].size
      ensures AwaitsStaging(s.db.files[f].status) ==> AwaitsStaging(Attempt(s.db, op).value.files[f].status)
      ensures s.db.files[f].status.DriveVerified? ==> Attempt(s.db, op).value.files[f].status.DriveVerified?
    {
      RowsKept(s.db, op, b, f);
    }
  }

  lemma WedgedTx(k: Rules, s: Snap, op: Op, s': Snap, b: BatchId)
    requires Consistent(s.db) && Attempt(s.db, op) == Some(s'.db) && Evolves(s.db, s'.db) && Wedged(k.maxCache, s.db, b)
    requires if OfCleanup(Tx(op)) then Cleanup.Legal(k.honest, s, [Tx(op)], 0) else LawfulTx(k, s, op)
    ensures Wedged(k.maxCache, s'.db, b)
  {
    hide Consistent, Attempt, LawfulTx, Cleanup.Legal, SizeSum, Waits, Evolves, FilesStay, Settled, UpsertManifest, PlanAll;
    LeftAlone(k, s, op, b);
    BatchRowKept(s.db, op, b);
    if op.UpsertPage? {
      PageSettles(s.db, op, s'.db);
      SettledStay(s.db, s'.db, b);
    } else if op.Plan? {
      PlanIsSettled(s.db, op, s'.db);
      SettledStay(s.db, s'.db, b);
    } else {
      ColumnsStay(k, s, op, b);
    }
    StillWedged(k.maxCache, s.db, s'.db, b);
  }

  lemma PageSettles(db: Db, op: Op, db': Db)
    requires Consistent(db) && op.UpsertPage? && Attempt(db, op) == Some(db')
    ensures Settled(db, db')
  {
    ManifestSettles(db, op.dirs, op.files);
  }

  lemma PlanIsSettled(db: Db, op: Op, db': Db)
    requires Consistent(db) && op.Plan? && Attempt(db, op) == Some(db')
    ensures Settled(db, db')
  {
    PlanSettles(db, op.chunks);
  }

  lemma WedgedStep(k: Rules, s: Snap, moves: seq<Move>, i: nat, s': Snap, b: BatchId)
    requires OneStep(k, s, moves, i, s') && Wedged(k.maxCache, s.db, b)
    ensures Wedged(k.maxCache, s'.db, b)
  {
    hide Consistent, Evolves, Attempt, LawfulTx, Wedged;
    if moves[i].Tx? { WedgedTx(k, s, moves[i].op, s', b); }
  }

  /** For ever: in every lawful run, whatever is restarted, uploaded and cleaned on the way, the batch stays as
      it is, its next staging pass is refused each time, and the task is never COMPLETED. */
  lemma {:induction false} WedgedForEver(k: Rules, states: seq<Snap>, moves: seq<Move>, i: nat, j: nat, b: BatchId)
    requires LawfulRun(k, states, moves) && i <= j <= |moves| && Wedged(k.maxCache, states[i].db, b)
    ensures Wedged(k.maxCache, states[j].db, b) && !Admitted(k.maxCache, states[j].db, b)
    ensures j < |moves| ==> moves[j] != Tx(StartBatch(b)) && moves[j] != Tx(SetTaskStatus(TaskCompleted))
    decreases j
  {
    hide OneStep, Step, LawfulFrom, Wedged, Admitted;
    if i < j {
      WedgedForEver(k, states, moves, i, j - 1, b);
      ReadStep(k, states, moves, j - 1);
      WedgedStep(k, states[j - 1], moves, j - 1, states[j], b);
    }
    NotAdmitted(k.maxCache, states[j].db, b);
    if j < |moves| {
      ReadStep(k, states, moves, j);
      NeitherNow(k, states[j], moves, j, states[j + 1], b);
    }
  }

  lemma NeitherNow(k: Rules, s: Snap, moves: seq<Move>, i: nat, s': Snap, b: BatchId)
    requires OneStep(k, s, moves, i, s') && Wedged(k.maxCache, s.db, b) && !Admitted(k.maxCache, s.db, b)
    ensures moves[i] != Tx(StartBatch(b)) && moves[i] != Tx(SetTaskStatus(TaskCompleted))
  {
    hide Consistent, Evolves, Step, SizeSum, Admitted;
    var f :| Waits(s.db, b, f);
  }
}
