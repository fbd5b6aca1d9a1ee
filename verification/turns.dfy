/** One batch after the other: what the scheduler's order means for every state of a run, and when exactly the batch
    that is first in line is refused for ever. */
module Turns {
  import opened Wrappers
  import opened Model
  import opened Tables
  import opened Transactions
  import opened Invariant
  import opened Runs
  import opened Durable
  import opened Progresses
  import opened Laws
  import opened Safety
  import opened Restaging
  import opened Deferral
  import opened StagingStore
  import Stage
  import Statuses
  import Cleanup

  // ----- a batch is not touched before its turn ------------------------------------------

  /** Pending, with all its files planned and no more. */
  ghost predicate Untouched(db: Db, c: BatchId) {
    c in db.batches && db.batches[c].status.BatchPending? && forall f :: f in FilesOf(db, c) && f in db.files ==> db.files[f].status.Planned?
  }

  ghost predicate AllUntouched(db: Db) {
    forall c :: c in db.batches ==> Untouched(db, c)
  }

  /** Behind a batch that is still to be staged no other one was touched. */
  ghost predicate OneByOne(db: Db) {
    forall b, c :: b in Stageable(db) && c in db.batches && b < c ==> Untouched(db, c)
  }

  /** Batches are planned after the scan, and all of them before the first one is touched. */
  ghost predicate PlannedFirst(db: Db) {
    && (!db.task.scanCompleted ==> db.batches == map[])
    && (AllUntouched(db) || Stage.AllPlanned(db))
  }

  // ----- a batch is cleaned as a whole ------------------------------------------------------

  /** What was staged or failed for good has no file left to stage. */
  ghost predicate SettledWhole(db: Db) {
    forall f :: f in db.members && f in db.files && db.members[f].batch in db.batches && !StageableBatch(db.batches[db.members[f].batch].status) ==>
      StagedOrLater(db.files[f].status) || db.files[f].status.FailedPermanent?
  }

  ghost predicate Together(db: Db, f: FileId, g: FileId)
    requires f in db.files && g in db.files
  {
    && (db.files[f].status.CleanupPending? ==> PastVerification(db.files[g].status))
    && (db.files[f].status.Done? ==> db.files[g].status.Done? || db.files[g].status.FailedPermanent?)
  }

  /** Cleanup takes all files of a batch, and completes them together. */
  ghost predicate CleanedWhole(db: Db) {
    forall f, g :: f in db.members && g in db.members && f in db.files && g in db.files && db.members[f].batch == db.members[g].batch ==> Together(db, f, g)
  }

  lemma FirstOnly(maxCache: nat, db: Db, b: BatchId)
    requires StageTurn(maxCache, db, b)
    ensures b in Stageable(db) && Stage.AllPlanned(db) && forall c :: c in Stageable(db) ==> b <= c
  {
    hide Admitted, WorkLeft;
  }

  lemma UntouchedStays(db: Db, db': Db, c: BatchId)
    requires Untouched(db, c) && FilesOf(db', c) == FilesOf(db, c) && c in db'.batches && db'.batches[c] == db.batches[c]
    requires forall f :: f in FilesOf(db, c) && f in db'.files ==> f in db.files && db'.files[f].status == db.files[f].status
    ensures Untouched(db', c)
  {
  }

  /** A file still PLANNED is changed by the staging of its own batch only, and none becomes DISCOVERED again. */
  lemma PlannedStay(db: Db, op: Op, f: FileId)
    requires Attempt(db, op).Some? && !op.UpsertPage? && !op.Plan? && f in db.files
    ensures var db' := Attempt(db, op).value; f in db'.files && (db'.files[f].status.Discovered? ==> db.files[f].status.Discovered?)
    ensures db.files[f].status.Planned? && Attempt(db, op).value.files[f].status != Planned ==>
              (op.StartBatch? || op.RecordStaged? || op.FailBatch?) && f in FilesOf(db, op.batch)
  {
    if op.RecordStaged? && f in op.staged { assert CanConfirm(db, op.batch, f, op.staged[f]); }
  }

  lemma BatchesStay(db: Db, op: Op, c: BatchId)
    requires Attempt(db, op).Some? && !op.UpsertPage? && !op.Plan?
    ensures var db' := Attempt(db, op).value; db'.members == db.members && db'.batches.Keys == db.batches.Keys && FilesOf(db', c) == FilesOf(db, c)
    ensures c in db.batches && !TouchesBatch(op, c) ==> Attempt(db, op).value.batches[c] == db.batches[c]
  {
    assert FilesOf(Attempt(db, op).value, c) == FilesOf(db, c);
  }

  /** Staging concerns the first batch only. */
  lemma OnlyFirst(k: Rules, s: Snap, op: Op, c: BatchId)
    requires if OfCleanup(Tx(op)) then Cleanup.Legal(k.honest, s, [Tx(op)], 0) else LawfulTx(k, s, op)
    requires Attempt(s.db, op).Some?
    ensures TouchesBatch(op, c) || (op.RecordStaged? && op.batch == c) ==> StageTurn(k.maxCache, s.db, c)
    ensures c in s.db.batches && TouchesBatch(op, c) && StageableBatch(Attempt(s.db, op).value.batches[c].status) ==> StageableBatch(s.db.batches[c].status)
  {
    hide StageTurn;
    if TouchesBatch(op, c) { FirstOnly(k.maxCache, s.db, c); }
  }

  lemma UntouchedStep(k: Rules, s: Snap, op: Op, c: BatchId)
    requires Consistent(s.db) && Attempt(s.db, op).Some? && !op.UpsertPage? && !op.Plan? && Untouched(s.db, c)
    requires if OfCleanup(Tx(op)) then Cleanup.Legal(k.honest, s, [Tx(op)], 0) else LawfulTx(k, s, op)
    requires !StageTurn(k.maxCache, s.db, c)
    ensures Untouched(Attempt(s.db, op).value, c)
  {
    hide Consistent, Attempt, LawfulTx, StageTurn, Cleanup.Legal;
    OnlyFirst(k, s, op, c);
    BatchesStay(s.db, op, c);
    var db' := Attempt(s.db, op).value;
    forall f | f in FilesOf(s.db, c) && f in db'.files ensures f in s.db.files && db'.files[f].status == s.db.files[f].status {
      assert f in s.db.files by { MemberIsFile(s.db, f); }
      PlannedStay(s.db, op, f);
    }
    UntouchedStays(s.db, db', c);
  }

  lemma MemberIsFile(db: Db, f: FileId)
    requires Consistent(db) && f in db.members
    ensures f in db.files
  {
  }

  lemma StageableBefore(k: Rules, s: Snap, op: Op, b: BatchId)
    requires Attempt(s.db, op).Some? && !op.UpsertPage? && !op.Plan? && b in Stageable(Attempt(s.db, op).value)
    requires if OfCleanup(Tx(op)) then Cleanup.Legal(k.honest, s, [Tx(op)], 0) else LawfulTx(k, s, op)
    ensures b in Stageable(s.db)
  {
    hide Attempt, LawfulTx, Cleanup.Legal;
    BatchesStay(s.db, op, b);
    OnlyFirst(k, s, op, b);
  }

  lemma NoTurnBehind(maxCache: nat, db: Db, b: BatchId, c: BatchId)
    requires b in Stageable(db) && b < c
    ensures !StageTurn(maxCache, db, c)
  {
  }

  lemma OneByOneStep(k: Rules, s: Snap, op: Op)
    requires Consistent(s.db) && Attempt(s.db, op).Some? && !op.UpsertPage? && !op.Plan? && OneByOne(s.db)
    requires if OfCleanup(Tx(op)) then Cleanup.Legal(k.honest, s, [Tx(op)], 0) else LawfulTx(k, s, op)
    ensures OneByOne(Attempt(s.db, op).value)
  {
    hide Consistent, Attempt, LawfulTx, StageTurn, Cleanup.Legal, Untouched;
    var db' := Attempt(s.db, op).value;
    forall b, c | b in Stageable(db') && c in db'.batches && b < c ensures Untouched(db', c) {
      StageableBefore(k, s, op, b);
      BatchesStay(s.db, op, c);
      NoTurnBehind(k.maxCache, s.db, b, c);
      UntouchedStep(k, s, op, c);
    }
  }

  lemma PlannedFirstStep(k: Rules, s: Snap, op: Op)
    requires Consistent(s.db) && Attempt(s.db, op).Some? && !op.UpsertPage? && !op.Plan? && PlannedFirst(s.db)
    requires if OfCleanup(Tx(op)) then Cleanup.Legal(k.honest, s, [Tx(op)], 0) else LawfulTx(k, s, op)
    ensures PlannedFirst(Attempt(s.db, op).value)
  {
    hide Consistent, LawfulTx, StageTurn, Cleanup.Legal, Untouched, Attempt;
    var db' := Attempt(s.db, op).value;
    BatchesStay(s.db, op, 0);
    ScanStays(s.db, op);
    if Stage.AllPlanned(s.db) {
      StillAllPlanned(s.db, op);
    } else {
      forall c | c in db'.batches ensures Untouched(db', c) {
        if StageTurn(k.maxCache, s.db, c) { FirstOnly(k.maxCache, s.db, c); }
        UntouchedStep(k, s, op, c);
      }
    }
  }

  lemma ScanStays(db: Db, op: Op)
    requires Attempt(db, op).Some? && !op.UpsertPage? && !op.Plan?
    ensures db.task.scanCompleted ==> Attempt(db, op).value.task.scanCompleted
  {
  }

  lemma StillAllPlanned(db: Db, op: Op)
    requires Attempt(db, op).Some? && !op.UpsertPage? && !op.Plan? && Stage.AllPlanned(db)
    ensures Stage.AllPlanned(Attempt(db, op).value)
  {
    hide Attempt;
    var db' := Attempt(db, op).value;
    forall f | f in db'.files ensures !db'.files[f].status.Discovered? {
      SameFiles(db, op);
      PlannedStay(db, op, f);
    }
  }

  lemma SameFiles(db: Db, op: Op)
    requires Attempt(db, op).Some? && !op.UpsertPage? && !op.Plan?
    ensures Attempt(db, op).value.files.Keys == db.files.Keys
  {
  }

  // ----- settled and cleaned as a whole ------------------------------------------------------

  lemma SettledFile(k: Rules, s: Snap, op: Op, f: FileId)
    requires Attempt(s.db, op).Some? && !op.UpsertPage? && !op.Plan? && SettledWhole(s.db) && Consistent(s.db) && f in s.db.members && f in s.db.files
    requires if OfCleanup(Tx(op)) then Cleanup.Legal(k.honest, s, [Tx(op)], 0) else LawfulTx(k, s, op)
    requires Evolves(s.db, Attempt(s.db, op).value)
    ensures var db', b := Attempt(s.db, op).value, s.db.members[f].batch;
            b in db'.batches && !StageableBatch(db'.batches[b].status) ==> f in db'.files && (StagedOrLater(db'.files[f].status) || db'.files[f].status.FailedPermanent?)
  {
    hide Consistent, LawfulTx, StageTurn, Cleanup.Legal, Attempt, Evolves;
    var db', b := Attempt(s.db, op).value, s.db.members[f].batch;
    SameFiles(s.db, op);
    BatchesStay(s.db, op, b);
    LateForGood(s.db, db', f);
    if TouchesBatch(op, b) { SettlesFile(s.db, op, f); }
  }

  lemma LateForGood(db: Db, db': Db, f: FileId)
    requires Evolves(db, db') && f in db.files
    ensures StagedOrLater(db.files[f].status) || db.files[f].status.FailedPermanent? ==>
              f in db'.files && (StagedOrLater(db'.files[f].status) || db'.files[f].status.FailedPermanent?)
  {
    assert RowEvolves(db.files[f], db'.files[f]);
  }

  /** What settles a batch finds its files staged or leaves them failed. */
  lemma SettlesFile(db: Db, op: Op, f: FileId)
    requires f in db.members && f in db.files && Attempt(db, op).Some? && TouchesBatch(op, db.members[f].batch)
    ensures var db', b := Attempt(db, op).value, db.members[f].batch;
            b in db'.batches && !StageableBatch(db'.batches[b].status) ==> f in db'.files && (StagedOrLater(db'.files[f].status) || db'.files[f].status.FailedPermanent?)
  {
    assert f in FilesOf(db, db.members[f].batch);
  }

  lemma SettledWholeStep(k: Rules, s: Snap, op: Op)
    requires Attempt(s.db, op).Some? && !op.UpsertPage? && !op.Plan? && SettledWhole(s.db) && Consistent(s.db)
    requires if OfCleanup(Tx(op)) then Cleanup.Legal(k.honest, s, [Tx(op)], 0) else LawfulTx(k, s, op)
    requires Evolves(s.db, Attempt(s.db, op).value)
    ensures SettledWhole(Attempt(s.db, op).value)
  {
    hide Consistent, LawfulTx, StageTurn, Cleanup.Legal, Attempt, Evolves;
    var db' := Attempt(s.db, op).value;
    BatchesStay(s.db, op, 0);
    SameFiles(s.db, op);
    forall f | f in db'.members && f in db'.files && db'.members[f].batch in db'.batches && !StageableBatch(db'.batches[db'.members[f].batch].status)
      ensures StagedOrLater(db'.files[f].status) || db'.files[f].status.FailedPermanent?
    {
      SettledFile(k, s, op, f);
    }
  }

  lemma CleanedPair(k: Rules, s: Snap, op: Op, f: FileId, g: FileId)
    requires Attempt(s.db, op).Some? && !op.UpsertPage? && !op.Plan? && f in s.db.members && g in s.db.members && f in s.db.files && g in s.db.files
    requires s.db.members[f].batch == s.db.members[g].batch && Together(s.db, f, g) && Together(s.db, g, f)
    requires if OfCleanup(Tx(op)) then Cleanup.Legal(k.honest, s, [Tx(op)], 0) else LawfulTx(k, s, op)
    ensures var db' := Attempt(s.db, op).value; f in db'.files && g in db'.files && Together(db', f, g)
  {
    hide LawfulTx, SafeComponent, CanRecordStaged, AuthorizedRows, CanAuthorizeRoot, RootCandidate, CanSetDriveRoot, Cleanup.BatchInCleanup;
    assert f in FilesOf(s.db, s.db.members[f].batch) && g in FilesOf(s.db, s.db.members[f].batch);
  }

  lemma CleanedWholeStep(k: Rules, s: Snap, op: Op)
    requires Attempt(s.db, op).Some? && !op.UpsertPage? && !op.Plan? && CleanedWhole(s.db)
    requires if OfCleanup(Tx(op)) then Cleanup.Legal(k.honest, s, [Tx(op)], 0) else LawfulTx(k, s, op)
    ensures CleanedWhole(Attempt(s.db, op).value)
  {
    hide LawfulTx, Cleanup.Legal, Attempt;
    var db' := Attempt(s.db, op).value;
    BatchesStay(s.db, op, 0);
    SameFiles(s.db, op);
    forall f, g | f in db'.members && g in db'.members && f in db'.files && g in db'.files && db'.members[f].batch == db'.members[g].batch
      ensures Together(db', f, g)
    {
      CleanedPair(k, s, op, f, g);
    }
  }

  // ----- pages and plans ------------------------------------------------------------------------

  /** All four. */
  ghost predicate InOrder(db: Db) {
    OneByOne(db) && PlannedFirst(db) && SettledWhole(db) && CleanedWhole(db)
  }

  lemma NoBatches(db: Db)
    requires Consistent(db) && db.batches == map[]
    ensures InOrder(db)
  {
    hide PathsOk, BatchOk, TotalOk, FileOk, OwnedOk;
    forall f ensures f !in db.members {}
  }

  /** As long as no batch was touched, files are DISCOVERED or PLANNED. */
  lemma UntouchedFiles(db: Db, f: FileId)
    requires Consistent(db) && AllUntouched(db) && f in db.files
    ensures db.files[f].status.Discovered? || db.files[f].status.Planned?
  {
    hide PathsOk, BatchOk, TotalOk, FileOk, OwnedOk;
    if !db.files[f].status.Discovered? { assert f in FilesOf(db, db.members[f].batch) && Untouched(db, db.members[f].batch); }
  }

  lemma PlanKeepsUntouched(db: Db, chunks: seq<Chunk>)
    requires Consistent(db) && AllUntouched(db) && PlanAll(db, chunks).Some? && Consistent(PlanAll(db, chunks).value)
    ensures AllUntouched(PlanAll(db, chunks).value)
  {
    hide Consistent, PlanAll, PlanChunks;
    var db' := PlanAll(db, chunks).value;
    PlanSettles(db, chunks);
    PlanAddsNoFile(db, chunks);
    forall c | c in db'.batches ensures Untouched(db', c) {
      PlansPending(db, chunks, c);
      forall f | f in FilesOf(db', c) && f in db'.files ensures db'.files[f].status.Planned? {
        UntouchedFiles(db, f);
        assert AtMostPlanned(db.files[f].status, db'.files[f].status);
        MemberNotDiscovered(db', f);
      }
    }
  }

  lemma MemberNotDiscovered(db: Db, f: FileId)
    requires Consistent(db) && f in db.members
    ensures f in db.files && !db.files[f].status.Discovered?
  {
  }

  lemma PlansPending(db: Db, chunks: seq<Chunk>, c: BatchId)
    requires AllUntouched(db) && PlanAll(db, chunks).Some? && c in PlanAll(db, chunks).value.batches
    ensures PlanAll(db, chunks).value.batches[c].status.BatchPending?
  {
    if chunks != [] {
      if c in db.batches {
        Stage.PlanKeepsBatches(RegisterTaskRoot(db), chunks);
        assert Untouched(db, c);
      } else {
        Statuses.NewBatchesPend(RegisterTaskRoot(db), chunks, c);
      }
    }
  }

  lemma UntouchedInOrder(db: Db)
    requires Consistent(db) && AllUntouched(db) && db.task.scanCompleted
    ensures InOrder(db)
  {
    hide Consistent, Untouched;
    forall f | f in db.files ensures db.files[f].status.Discovered? || db.files[f].status.Planned? { UntouchedFiles(db, f); }
    forall f | f in db.members && f in db.files && db.members[f].batch in db.batches ensures StageableBatch(db.batches[db.members[f].batch].status) {
      assert Untouched(db, db.members[f].batch) ==> db.batches[db.members[f].batch].status.BatchPending? by { UntouchedPends(db, db.members[f].batch); }
    }
  }

  lemma UntouchedPends(db: Db, c: BatchId)
    requires Untouched(db, c)
    ensures db.batches[c].status.BatchPending?
  {
  }

  lemma InOrderTx(k: Rules, s: Snap, op: Op)
    requires Consistent(s.db) && Attempt(s.db, op).Some? && InOrder(s.db) && Consistent(Attempt(s.db, op).value) && Evolves(s.db, Attempt(s.db, op).value)
    requires if OfCleanup(Tx(op)) then Cleanup.Legal(k.honest, s, [Tx(op)], 0) else LawfulTx(k, s, op)
    ensures InOrder(Attempt(s.db, op).value)
  {
    hide Consistent, Evolves, Attempt, LawfulTx, Cleanup.Legal, OneByOne, SettledWhole, CleanedWhole, Stage.AllPlanned, AllUntouched;
    var db' := Attempt(s.db, op).value;
    if op.UpsertPage? {
      PageInOrder(k, s, op, db');
    } else if op.Plan? {
      PlanInOrder(k, s, op, db');
    } else {
      OneByOneStep(k, s, op);
      PlannedFirstStep(k, s, op);
      SettledWholeStep(k, s, op);
      CleanedWholeStep(k, s, op);
    }
  }

  lemma PageInOrder(k: Rules, s: Snap, op: Op, db': Db)
    requires op.UpsertPage? && Attempt(s.db, op) == Some(db') && LawfulTx(k, s, op) && PlannedFirst(s.db) && Consistent(db')
    ensures InOrder(db')
  {
    hide Consistent, InOrder, AllUntouched, Stage.AllPlanned;
    PagesKeepBatches(s.db, op.dirs, op.files);
    NoBatches(db');
  }

  lemma PlanInOrder(k: Rules, s: Snap, op: Op, db': Db)
    requires op.Plan? && Attempt(s.db, op) == Some(db') && LawfulTx(k, s, op) && InOrder(s.db) && Consistent(s.db) && Consistent(db')
    ensures InOrder(db')
  {
    hide Consistent, InOrder, PlanAll;
    if Stage.AllPlanned(s.db) {
      NothingPlanned(s.db, op.chunks);
    } else {
      assert AllUntouched(s.db) by { OrderedPlan(s.db); }
      PlanKeepsUntouched(s.db, op.chunks);
      assert db'.task.scanCompleted by { PlanKeepsScan(s.db, op.chunks); }
      UntouchedInOrder(db');
    }
  }

  lemma OrderedPlan(db: Db)
    requires InOrder(db) && !Stage.AllPlanned(db)
    ensures AllUntouched(db)
  {
    hide Stage.AllPlanned, AllUntouched;
  }

  lemma PlanKeepsScan(db: Db, chunks: seq<Chunk>)
    requires Consistent(db) && PlanAll(db, chunks).Some? && db.task.scanCompleted
    ensures PlanAll(db, chunks).value.task.scanCompleted
  {
    hide Consistent, PlanAll;
    PlanKeeps(db, chunks);
  }

  /** In every state of every lawful run. */
  lemma {:induction false} AlwaysInOrder(k: Rules, states: seq<Snap>, moves: seq<Move>, i: nat)
    requires LawfulRun(k, states, moves) && i <= |moves|
    ensures InOrder(states[i].db)
  {
    hide OneStep, Step, LawfulFrom, InOrder;
    if i == 0 {
      EmptyInOrder(states[0].db.task.id);
    } else {
      AlwaysInOrder(k, states, moves, i - 1);
      ReadStep(k, states, moves, i - 1);
      InOrderStep(k, states[i - 1], moves, i - 1, states[i]);
    }
  }

  lemma EmptyInOrder(id: string)
    ensures InOrder(EmptyDb(id))
  {
  }

  lemma InOrderStep(k: Rules, s: Snap, moves: seq<Move>, i: nat, s': Snap)
    requires OneStep(k, s, moves, i, s') && InOrder(s.db)
    ensures InOrder(s'.db)
  {
    hide Consistent, Evolves, Attempt, LawfulTx, InOrder;
    if moves[i].Tx? { InOrderTx(k, s, moves[i].op); }
  }

  // ----- when exactly the first batch is refused for ever ------------------------------------------

  lemma MemberOf(db: Db, f: FileId)
    requires Consistent(db) && f in db.files && !db.files[f].status.Discovered?
    ensures f in db.members && db.members[f].batch in db.batches
  {
  }

  lemma BehindIt(db: Db, b: BatchId, c: BatchId, f: FileId)
    requires OneByOne(db) && IsFirst(db, b) && c in db.batches && StageableBatch(db.batches[c].status) && c != b && f in FilesOf(db, c) && f in db.files
    ensures db.files[f].status.Planned?
  {
    assert c in Stageable(db) && Untouched(db, c);
  }

  /** A settled batch with a file left in the cache waits for its cleanup. */
  lemma LeftOverWaits(db: Db, c: BatchId, f: FileId)
    requires SettledWhole(db) && CleanedWhole(db) && NoneUnderway(db) && c in db.batches && !StageableBatch(db.batches[c].status) && f in FilesOf(db, c) && f in db.files
    ensures HoldsCache(db.files[f].status) ==> Candidate(db, c)
  {
    if HoldsCache(db.files[f].status) {
      forall g | g in FilesOf(db, c) && g in db.files ensures AwaitsCleanup(db.files[g].status) { assert Together(db, g, f); }
    }
  }

  /** So does any batch with a file in cleanup. */
  lemma InCleanupWaits(db: Db, c: BatchId, f: FileId)
    requires CleanedWhole(db) && NoneUnderway(db) && c in db.batches && f in FilesOf(db, c) && f in db.files
    ensures db.files[f].status.CleanupPending? ==> Candidate(db, c)
  {
    if db.files[f].status.CleanupPending? {
      forall g | g in FilesOf(db, c) && g in db.files ensures AwaitsCleanup(db.files[g].status) { assert Together(db, f, g) && Together(db, g, f); }
    }
  }

  /** When nothing but staging is left to do, the cache holds verified files of the first batch only. */
  lemma OnlyItsOwn(db: Db, b: BatchId)
    requires Consistent(db) && InOrder(db) && OnlyStagingLeft(db) && IsFirst(db, b)
    ensures Caching(db) == VerifiedOf(db, b)
  {
    hide Consistent, OneByOne, PlannedFirst, SettledWhole, CleanedWhole, Candidate;
    forall f ensures f in Caching(db) ==> f in VerifiedOf(db, b) {
      if f in Caching(db) { ItsOwn(db, b, f); }
    }
    forall f ensures f in VerifiedOf(db, b) ==> f in Caching(db) {}
  }

  lemma ItsOwn(db: Db, b: BatchId, f: FileId)
    requires Consistent(db) && InOrder(db) && OnlyStagingLeft(db) && IsFirst(db, b) && f in db.files && HoldsCache(db.files[f].status)
    ensures f in FilesOf(db, b) && db.files[f].status.DriveVerified?
  {
    hide Consistent, OneByOne, PlannedFirst, SettledWhole, CleanedWhole, Candidate;
    MemberOf(db, f);
    var c := db.members[f].batch;
    assert f in FilesOf(db, c);
    InCleanupWaits(db, c, f);
    if !StageableBatch(db.batches[c].status) {
      LeftOverWaits(db, c, f);
    } else if c != b {
      BehindIt(db, b, c, f);
    }
  }

  /** So it is admitted exactly if it is not wedged. */
  lemma AdmittedUnlessWedged(maxCache: nat, db: Db, b: BatchId)
    requires maxCache > 0 && Consistent(db) && InOrder(db) && OnlyStagingLeft(db) && IsFirst(db, b) && exists f :: Waits(db, b, f)
    ensures Admitted(maxCache, db, b) <==> !Wedged(maxCache, db, b)
  {
    hide Consistent, InOrder, OnlyStagingLeft, Waits;
    OnlyItsOwn(db, b);
    assert b in Stageable(db);
    Stage.BatchTotal(db, b);
    SizeSumMonotone(db.files, VerifiedOf(db, b), FilesOf(db, b));
  }

  /** When nothing but staging is left to do: the first batch with a file still to be staged is started again in some
      lawful continuation of the run if and only if it is not wedged. */
  lemma StartsUnlessWedged(k: Rules, states: seq<Snap>, moves: seq<Move>, b: BatchId)
    requires k.maxCache > 0 && LawfulRun(k, states, moves) && states[|moves|].db.task.scanCompleted
    requires OnlyStagingLeft(states[|moves|].db) && IsFirst(states[|moves|].db, b) && exists f :: Waits(states[|moves|].db, b, f)
    ensures StartsAgain(k, states, moves, b) <==> !Wedged(k.maxCache, states[|moves|].db, b)
  {
    hide LawfulFrom, Step, OnlyStagingLeft, InOrder, Consistent, Wedged, Admitted, StartsAgain, IsFirst, WorkLeft;
    var s := states[|moves|];
    RunOfStore(states, moves);
    RunConsistent(Dbs(states), |moves|);
    AlwaysInOrder(k, states, moves, |moves|);
    assert WorkLeft(s.db) by { WaitingIsWork(s.db, b); }
    StartsIff(k, states, moves, b);
    AdmittedUnlessWedged(k.maxCache, s.db, b);
  }

  lemma WaitingIsWork(db: Db, b: BatchId)
    requires exists f :: Waits(db, b, f)
    ensures WorkLeft(db)
  {
    var f :| Waits(db, b, f);
    assert f in db.files && BeforeDownload(db.files[f].status);
  }

  // ----- and when exactly a cleaned directory comes back ---------------------------------------------

  lemma CleanedWasTouched(db: Db, b: BatchId)
    requires Consistent(db) && Cleaned(db, BaiduBatchDir(b)) && b in db.batches
    ensures !Untouched(db, b)
  {
    hide PathsOk, TotalOk;
    assert BatchOk(db, b);
    var f := Least(FilesOf(db, b));
    assert f in FilesOf(db, b) && FileOk(db, f) && OwnedOk(db, LocalCacheFile(f));
  }

  /** A cleaned directory whose batch is still stageable is that of the first batch in line. */
  lemma CleanedIsFirst(db: Db, b: BatchId)
    requires Consistent(db) && InOrder(db) && Cleaned(db, BaiduBatchDir(b)) && CanBeStaged(db, b)
    ensures IsFirst(db, b)
  {
    hide Consistent, PlannedFirst, SettledWhole, CleanedWhole, Untouched;
    CleanedWasTouched(db, b);
    assert b in Stageable(db);
  }

  lemma CleanedHasBatch(db: Db, b: BatchId)
    requires Consistent(db) && Cleaned(db, BaiduBatchDir(b))
    ensures b in db.batches
  {
    assert OwnedOk(db, BaiduBatchDir(b));
  }

  /** When nothing but staging is left to do: a directory that is recorded as cleaned and absent stays absent in every lawful
      continuation of the run if and only if its batch is not stageable, no file waits to be staged, or the cache refuses
      the next staging pass. */
  lemma CleanedStaysAwayIff(k: Rules, states: seq<Snap>, moves: seq<Move>, b: BatchId)
    requires LawfulRun(k, states, moves) && Cleaned(states[|moves|].db, BaiduBatchDir(b)) && b !in states[|moves|].baidu.dirs
    requires states[|moves|].db.task.scanCompleted && OnlyStagingLeft(states[|moves|].db)
    ensures StaysAway(k, states, moves, b) <==>
              !CanBeStaged(states[|moves|].db, b) || !WorkLeft(states[|moves|].db) || !PassAdmitted(k.maxCache, states[|moves|].db)
  {
    hide LawfulFrom, Step, OnlyStagingLeft, InOrder, Consistent, Cleaned, CanBeStaged, WorkLeft, PassAdmitted, StaysAway, IsFirst;
    var s := states[|moves|];
    RunOfStore(states, moves);
    RunConsistent(Dbs(states), |moves|);
    AlwaysInOrder(k, states, moves, |moves|);
    CleanedHasBatch(s.db, b);
    if CanBeStaged(s.db, b) { CleanedIsFirst(s.db, b); }
    StaysAwayIff(k, states, moves, b);
  }
}
