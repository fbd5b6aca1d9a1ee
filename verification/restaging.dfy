/** Whether a cleaned batch directory stays absent. It does if the batch cannot be staged any more, or if no
    file at all is left to stage. Otherwise it can come back: cleanup does not look at the batch status
    (internal/state/cleanup_store.go), so a batch that a crash left in STAGING is cleaned like any other, and
    taken up again if it is the first in line when some other file calls for a staging pass. */
module Restaging {
  import opened Wrappers
  import opened Model
  import opened Tables
  import opened Transactions
  import opened Invariant
  import opened Runs
  import opened Durable
  import opened Worlds
  import opened Progresses
  import opened Laws
  import opened Safety
  import Stage
  import Pipeline
  import StagingStore
  import Stager
  import Statuses
  import Cleanup
  import CleanupEngine
  import Recovery

  // ----- how a batch's status can change ----------------------------------------------

  predicate CanBeStaged(db: Db, b: BatchId) {
    b in db.batches && StageableBatch(db.batches[b].status)
  }

  /** The three transactions that change a batch row. */
  predicate TouchesBatch(op: Op, b: BatchId) {
    op == StartBatch(b) || op == CompleteBatch(b) || (op.FailBatch? && op.batch == b)
  }

  lemma BatchRowKept(db: Db, op: Op, b: BatchId)
    requires Attempt(db, op).Some? && b in db.batches && !TouchesBatch(op, b)
    ensures b in Attempt(db, op).value.batches && Attempt(db, op).value.batches[b] == db.batches[b]
  {
    hide UpsertManifest, PlanChunks;
    if op.UpsertPage? {
      PagesKeepBatches(db, op.dirs, op.files);
    } else if op.Plan? {
      if op.chunks != [] { Stage.PlanKeepsBatches(RegisterTaskRoot(db), op.chunks); }
    }
  }

  /** A batch that was staged, or failed for good, is never taken up again. */
  lemma StatusSettled(k: Rules, s: Snap, moves: seq<Move>, i: nat, s': Snap, b: BatchId)
    requires OneStep(k, s, moves, i, s') && b in s.db.batches && !CanBeStaged(s.db, b)
    ensures b in s'.db.batches && s'.db.batches[b] == s.db.batches[b]
  {
    hide Consistent, Evolves, Cleanup.Legal, Attempt;
    if moves[i].Tx? {
      RefusedForSettled(k, s, moves[i].op, b);
      BatchRowKept(s.db, moves[i].op, b);
    }
  }

  lemma RefusedForSettled(k: Rules, s: Snap, op: Op, b: BatchId)
    requires Attempt(s.db, op).Some? && (OfCleanup(Tx(op)) || LawfulTx(k, s, op)) && b in s.db.batches && !CanBeStaged(s.db, b)
    ensures !TouchesBatch(op, b)
  {
  }

  // ----- a batch directory appears in one way only --------------------------------------

  lemma AppearsByMaking(s: Snap, m: Move, s': Snap, b: BatchId)
    requires Step(s, m, s') && b !in s.baidu.dirs && b in s'.baidu.dirs
    ensures m == MakeStaging(b)
  {
  }

  /** As long as its batch is not being staged in its turn, an absent directory stays absent, whatever the remote does. */
  lemma {:induction false} AbsentUnlessStaged(k: Rules, states: seq<Snap>, moves: seq<Move>, i: nat, j: nat, b: BatchId)
    requires LawfulRun(k, states, moves) && i <= j <= |moves| && b !in states[i].baidu.dirs
    requires forall m :: i <= m < j ==> !InTurn(k.maxCache, states[m].db, b)
    ensures b !in states[j].baidu.dirs
    decreases j
  {
    hide OneStep, Step, LawfulFrom;
    if i < j {
      AbsentUnlessStaged(k, states, moves, i, j - 1, b);
      ReadStep(k, states, moves, j - 1);
      AbsentStep(k, states[j - 1], moves, j - 1, states[j], b);
    }
  }

  lemma AbsentStep(k: Rules, s: Snap, moves: seq<Move>, i: nat, s': Snap, b: BatchId)
    requires OneStep(k, s, moves, i, s') && b !in s.baidu.dirs && !InTurn(k.maxCache, s.db, b)
    ensures b !in s'.baidu.dirs
  {
    hide Consistent, Evolves, InTurn;
    if b in s'.baidu.dirs { AppearsByMaking(s, moves[i], s', b); }
  }

  lemma {:induction false} SettledForGood(k: Rules, states: seq<Snap>, moves: seq<Move>, i: nat, j: nat, b: BatchId)
    requires LawfulRun(k, states, moves) && i <= j <= |moves| && b in states[i].db.batches && !CanBeStaged(states[i].db, b)
    ensures b in states[j].db.batches && !CanBeStaged(states[j].db, b)
    decreases j
  {
    hide OneStep, Step, LawfulFrom;
    if i < j {
      SettledForGood(k, states, moves, i, j - 1, b);
      ReadStep(k, states, moves, j - 1);
      StatusSettled(k, states[j - 1], moves, j - 1, states[j], b);
    }
  }

  /** Once its batch cannot be staged any more, an absent directory never comes back. */
  lemma NeverBack(k: Rules, states: seq<Snap>, moves: seq<Move>, i: nat, j: nat, b: BatchId)
    requires LawfulRun(k, states, moves) && i <= j <= |moves|
    requires b in states[i].db.batches && !CanBeStaged(states[i].db, b) && b !in states[i].baidu.dirs
    ensures b !in states[j].baidu.dirs
  {
    hide LawfulFrom, Step, StageTurn;
    forall m | i <= m < j ensures !InTurn(k.maxCache, states[m].db, b) { SettledForGood(k, states, moves, i, m, b); }
    AbsentUnlessStaged(k, states, moves, i, j, b);
  }

  lemma NoWorkStep(db: Db, db': Db)
    requires Evolves(db, db') && db'.files.Keys == db.files.Keys && !WorkLeft(db)
    ensures !WorkLeft(db')
  {
    hide Evolves;
    forall f | f in db'.files ensures !BeforeDownload(db'.files[f].status) { Statuses.LateStays(db, db', f); }
  }

  /** Once every file found has come to its download, there is never work for a staging pass again. */
  lemma {:induction false} NoWorkForGood(k: Rules, states: seq<Snap>, moves: seq<Move>, i: nat, j: nat)
    requires LawfulRun(k, states, moves) && i <= j <= |moves| && states[i].db.task.scanCompleted && !WorkLeft(states[i].db)
    ensures states[j].db.task.scanCompleted && !WorkLeft(states[j].db)
    decreases j
  {
    hide Step, LawfulFrom, WorkLeft, Consistent, Evolves;
    if i < j {
      NoWorkForGood(k, states, moves, i, j - 1);
      ReadStep(k, states, moves, j - 1);
      assert Lawful(k, states, moves, j - 1) by { LawfulAt(k, states, moves, j - 1); }
      Pipeline.LawfulStepKeepsFiles(k, states, moves, j - 1);
      NoWorkStep(states[j - 1].db, states[j].db);
    }
  }

  lemma LawfulAt(k: Rules, states: seq<Snap>, moves: seq<Move>, i: nat)
    requires LawfulRun(k, states, moves) && i < |moves|
    ensures Lawful(k, states, moves, i)
  {
  }

  /** And no absent directory, cleaned or not, comes back from then on: also not that of a batch left in STAGING. */
  lemma NoneBackWithoutWork(k: Rules, states: seq<Snap>, moves: seq<Move>, i: nat, j: nat, b: BatchId)
    requires LawfulRun(k, states, moves) && i <= j <= |moves| && b !in states[i].baidu.dirs
    requires states[i].db.task.scanCompleted && !WorkLeft(states[i].db)
    ensures b !in states[j].baidu.dirs
  {
    hide LawfulFrom, Step, WorkLeft;
    forall m | i <= m < j ensures !InTurn(k.maxCache, states[m].db, b) { NoWorkForGood(k, states, moves, i, m); }
    AbsentUnlessStaged(k, states, moves, i, j, b);
  }

  // ----- cleaned directories -------------------------------------------------------------

  /** Wherever the row of b's directory was marked cleaned, the batch could not be staged any more. */
  ghost predicate MarkedWhenSettled(states: seq<Snap>, moves: seq<Move>, i: nat, b: BatchId)
    requires |states| == |moves| + 1 && i <= |moves|
  {
    forall m :: 0 <= m < i && moves[m] == Tx(MarkCleaned(BaiduBatchDir(b))) ==> !CanBeStaged(states[m].db, b)
  }

  lemma NothingCleanedAtFirst(k: Rules, states: seq<Snap>, moves: seq<Move>, i: nat, key: OwnedKey)
    requires LawfulRun(k, states, moves) && i <= |moves| && Cleaned(states[i].db, key)
    ensures 0 < i
  {
  }

  /** A cleaned row was marked at some step. */
  lemma {:induction false} MarkingStep(k: Rules, states: seq<Snap>, moves: seq<Move>, i: nat, key: OwnedKey) returns (m: nat)
    requires LawfulRun(k, states, moves) && i <= |moves| && Cleaned(states[i].db, key)
    ensures m < i && moves[m] == Tx(MarkCleaned(key))
  {
    hide OneStep, Step, LawfulFrom, Attempt;
    NothingCleanedAtFirst(k, states, moves, i, key);
    ReadStep(k, states, moves, i - 1);
    if Cleaned(states[i - 1].db, key) {
      m := MarkingStep(k, states, moves, i - 1, key);
    } else {
      m := i - 1;
      MarkedNow(k, states[i - 1], moves, i - 1, states[i], key);
    }
  }

  lemma MarkedNow(k: Rules, s: Snap, moves: seq<Move>, i: nat, s': Snap, key: OwnedKey)
    requires OneStep(k, s, moves, i, s') && Cleaned(s'.db, key) && !Cleaned(s.db, key)
    ensures moves[i] == Tx(MarkCleaned(key))
  {
    hide Consistent, Evolves, Attempt, Cleanup.Legal, LawfulTx;
    CleanedPermitted(s.db);
    if moves[i].Tx? { MarksOnly(s.db, moves[i].op, key); }
  }

  /** With true listings: a batch directory recorded as cleaned is absent if the batch could not be staged
      any more when it was marked. */
  lemma CleanedDirectoryAbsent(k: Rules, states: seq<Snap>, moves: seq<Move>, i: nat, b: BatchId)
    requires k.honest && LawfulRun(k, states, moves) && i <= |moves| && Cleaned(states[i].db, BaiduBatchDir(b))
    requires MarkedWhenSettled(states, moves, i, b)
    ensures b !in states[i].baidu.dirs
  {
    hide Step;
    var m := MarkingStep(k, states, moves, i, BaiduBatchDir(b));
    assert Lawful(k, states, moves, m);
    assert Cleanup.BatchInCleanup(states[m].db, b) && b !in states[m].baidu.dirs;
    NeverBack(k, states, moves, m, i, b);
  }

  /** So a cleanup from any state of a run leaves nothing of a candidate batch behind that was not staged again. */
  lemma CleanupLeavesNothing(k: Rules, states: seq<Snap>, moves: seq<Move>, i: nat, b: BatchId)
    requires k.honest && LawfulRun(k, states, moves) && i <= |moves| && Candidate(states[i].db, b) && MarkedWhenSettled(states, moves, i, b)
    ensures b !in Recovery.Final(states[i]).baidu.dirs
    ensures forall f :: f in FilesOf(states[i].db, b) ==> BinFile(f) !in Recovery.Final(states[i]).cache
  {
    hide Consistent, Recovery.Final;
    RunOfStore(states, moves);
    RunConsistent(Dbs(states), i);
    CleanupEngine.FinalResult(states[i], b);
    CleanedStaysGone(k, states, moves, i);
    if Cleaned(states[i].db, BaiduBatchDir(b)) { CleanedDirectoryAbsent(k, states, moves, i, b); }
  }

  /** In no lawful continuation of the run does the directory appear. */
  ghost predicate StaysAway(k: Rules, states: seq<Snap>, moves: seq<Move>, b: BatchId) {
    forall states': seq<Snap>, moves': seq<Move> :: LawfulRun(k, states', moves') && states <= states' && moves <= moves' ==> b !in states'[|moves'|].baidu.dirs
  }

  lemma RunLongEnough(k: Rules, states: seq<Snap>, moves: seq<Move>)
    requires LawfulRun(k, states, moves)
    ensures |states| == |moves| + 1
  {
  }

  /** One more lawful step. */
  lemma RunOn(k: Rules, states: seq<Snap>, moves: seq<Move>, m: Move, s': Snap)
    requires LawfulRun(k, states, moves) && Step(states[|moves|], m, s')
    requires if OfCleanup(m) then Cleanup.Legal(k.honest, states[|moves|], moves + [m], |moves|) else LawfulStep(k, states[|moves|], m, s')
    ensures LawfulRun(k, states + [s'], moves + [m])
  {
    hide LawfulStep, Cleanup.Legal;
    var states', moves' := states + [s'], moves + [m];
    forall i | 0 <= i < |moves'| ensures Step(states'[i], moves'[i], states'[i + 1]) && Lawful(k, states', moves', i) {
      if i < |moves| {
        assert Step(states[i], moves[i], states[i + 1]) && Lawful(k, states, moves, i);
        LawfulPrefix(k, states, moves, states', moves', i);
      }
    }
  }

  /** No file waits for planning, for a download or for Drive, and none failed for good. */
  predicate NoneUnderway(db: Db) {
    forall f :: f in db.files ==> db.files[f].status.Planned? || db.files[f].status.BaiduStaging? || Verified(db.files[f].status)
  }

  /** And no batch waits for its cleanup: all that is left for the scheduler to do is to stage. */
  predicate OnlyStagingLeft(db: Db) {
    NoneUnderway(db) && forall c :: c in db.batches ==> !Candidate(db, c)
  }

  /** And there is work for a pass, this batch is the first in line, and the cache admits it: the next pass starts it. */
  predicate CanStartNow(maxCache: nat, db: Db, b: BatchId) {
    OnlyStagingLeft(db) && WorkLeft(db) && StagingStore.IsFirst(db, b) && Admitted(maxCache, db, b)
  }

  lemma Restaged(k: Rules, s: Snap, b: BatchId)
    requires CanStartNow(k.maxCache, s.db, b) && b !in s.baidu.dirs
    ensures var started := s.(db := AfterStartBatch(s.db, b));
            var made := started.(baidu := Baidu(true, s.baidu.dirs[b := map[]]));
            && Step(s, Tx(StartBatch(b)), started) && LawfulStep(k, s, Tx(StartBatch(b)), started)
            && Step(started, MakeStaging(b), made) && LawfulStep(k, started, MakeStaging(b), made)
  {
    hide WorkLeft, Admitted, InTurn, Stager.OnlyBatch;
    assert StageTurn(k.maxCache, s.db, b) && b in StagingStore.Stageable(s.db);
    Stager.StartOnlyBatch(s.db, AfterStartBatch(s.db, b), b);
    Stager.TurnOn(k.maxCache, s.db, AfterStartBatch(s.db, b), b);
  }

  /** So the directory of such a batch comes back, cleaned or not. */
  lemma ComesBack(k: Rules, states: seq<Snap>, moves: seq<Move>, b: BatchId)
    requires LawfulRun(k, states, moves) && CanStartNow(k.maxCache, states[|moves|].db, b)
    ensures !StaysAway(k, states, moves, b)
  {
    hide CanStartNow, LawfulStep, Step, LawfulFrom;
    var s := states[|moves|];
    if b in s.baidu.dirs {
      assert states <= states && moves <= moves;
    } else {
      assert b in s.db.batches by { FirstIsThere(k, s.db, b); }
      var started := s.(db := AfterStartBatch(s.db, b));
      var made := started.(baidu := Baidu(true, s.baidu.dirs[b := map[]]));
      Restaged(k, s, b);
      RunOn(k, states, moves, Tx(StartBatch(b)), started);
      RunOn(k, states + [started], moves + [Tx(StartBatch(b))], MakeStaging(b), made);
      var states', moves' := states + [started] + [made], moves + [Tx(StartBatch(b))] + [MakeStaging(b)];
      assert LawfulRun(k, states', moves') && states <= states' && moves <= moves' && states'[|moves'|] == made;
    }
  }

  lemma FirstIsThere(k: Rules, db: Db, b: BatchId)
    requires CanStartNow(k.maxCache, db, b)
    ensures b in db.batches && CanBeStaged(db, b)
  {
    assert b in StagingStore.Stageable(db);
  }

  /** In every lawful continuation it stays away, if the batch is settled or no work is left. */
  lemma StaysAwayIf(k: Rules, states: seq<Snap>, moves: seq<Move>, b: BatchId)
    requires LawfulRun(k, states, moves) && b in states[|moves|].db.batches && b !in states[|moves|].baidu.dirs
    requires !CanBeStaged(states[|moves|].db, b) || (states[|moves|].db.task.scanCompleted && !WorkLeft(states[|moves|].db))
    ensures StaysAway(k, states, moves, b)
  {
    hide LawfulFrom, Step, WorkLeft;
    forall states': seq<Snap>, moves': seq<Move> | LawfulRun(k, states', moves') && states <= states' && moves <= moves'
      ensures b !in states'[|moves'|].baidu.dirs
    {
      RunLongEnough(k, states', moves');
      RunLongEnough(k, states, moves);
      if CanBeStaged(states[|moves|].db, b) {
        NoneBackWithoutWork(k, states', moves', |moves|, |moves'|, b);
      } else {
        NeverBack(k, states', moves', |moves|, |moves'|, b);
      }
    }
  }

  // ----- when nothing moves any more -----------------------------------------------------

  /** The next staging pass is let through. */
  ghost predicate PassAdmitted(maxCache: nat, db: Db) {
    exists b :: StagingStore.IsFirst(db, b) && Admitted(maxCache, db, b)
  }

  /** Nothing but staging is left to do, a file waits for it, and the cache refuses the batch that is first in line. */
  ghost predicate Stuck(maxCache: nat, db: Db) {
    db.task.scanCompleted && OnlyStagingLeft(db) && WorkLeft(db) && !PassAdmitted(maxCache, db)
  }

  lemma NoTurn(maxCache: nat, db: Db, b: BatchId)
    requires Stuck(maxCache, db)
    ensures !StageTurn(maxCache, db, b)
  {
    hide Admitted, WorkLeft, OnlyStagingLeft;
  }

  lemma NothingDone(db: Db)
    requires OnlyStagingLeft(db) && WorkLeft(db)
    ensures !AllDone(db) && forall c :: c in db.batches ==> !CanCompleteCleanup(db, c)
  {
    var f :| f in db.files && BeforeDownload(db.files[f].status);
    forall c | c in db.batches ensures !CanCompleteCleanup(db, c) { assert CanCompleteCleanup(db, c) ==> Candidate(db, c); }
  }

  lemma NothingPlanned(db: Db, chunks: seq<Chunk>)
    requires Stage.AllPlanned(db) && PlanAll(db, chunks).Some?
    ensures PlanAll(db, chunks).value == db
  {
    if chunks != [] { NoChunk(RegisterTaskRoot(db), chunks); }
  }

  lemma ChunkHasFile(db: Db, c: Chunk)
    requires CanPlanChunk(db, c)
    ensures exists f :: f in db.files && db.files[f].status.Discovered?
  {
    var f := c.files[0];
    assert f in c.files && f in db.files;
  }

  lemma {:induction false} NoChunk(db: Db, chunks: seq<Chunk>)
    requires chunks != [] && forall f :: f in db.files ==> !db.files[f].status.Discovered?
    ensures PlanChunks(db, chunks).None?
  {
    var n := |chunks| - 1;
    if n > 0 {
      NoChunk(db, chunks[..n]);
    } else {
      assert chunks[..0] == [] && PlanChunks(db, []) == Some(db);
      if CanPlanChunk(db, chunks[0]) { ChunkHasFile(db, chunks[0]); }
    }
  }

  /** No lawful transaction changes a file or a batch. */
  lemma StuckTx(k: Rules, s: Snap, op: Op)
    requires Consistent(s.db) && Stuck(k.maxCache, s.db) && Attempt(s.db, op).Some?
    requires if OfCleanup(Tx(op)) then Cleanup.Legal(k.honest, s, [Tx(op)], 0) else LawfulTx(k, s, op)
    ensures var db' := Attempt(s.db, op).value; db'.files == s.db.files && db'.batches == s.db.batches && db'.members == s.db.members && db'.task.scanCompleted
    ensures op != SetTaskStatus(TaskCompleted) && !op.StartBatch?
  {
    hide Consistent, PlanAll, StageTurn, Admitted, WorkLeft, UpsertManifest, CanCompleteCleanup;
    NothingDone(s.db);
    forall b ensures !StageTurn(k.maxCache, s.db, b) { NoTurn(k.maxCache, s.db, b); }
    if op.Plan? { NothingPlanned(s.db, op.chunks); }
    if op.MarkVerified? { assert s.db.files[op.file := s.db.files[op.file].(status := DriveVerified)] == s.db.files; }
  }

  lemma StuckStill(maxCache: nat, db: Db, db': Db)
    requires Stuck(maxCache, db) && db'.files == db.files && db'.batches == db.batches && db'.members == db.members && db'.task.scanCompleted
    ensures Stuck(maxCache, db')
  {
    assert WorkLeft(db') by { var f :| f in db.files && BeforeDownload(db.files[f].status); }
    assert Caching(db') == Caching(db);
    assert StagingStore.Stageable(db') == StagingStore.Stageable(db);
    forall c | c in db'.batches ensures !Candidate(db', c) { assert FilesOf(db', c) == FilesOf(db, c); }
    forall b | StagingStore.IsFirst(db', b) ensures !Admitted(maxCache, db', b) { assert StagingStore.IsFirst(db, b); }
  }

  lemma StuckStep(k: Rules, s: Snap, moves: seq<Move>, i: nat, s': Snap)
    requires OneStep(k, s, moves, i, s') && Stuck(k.maxCache, s.db)
    ensures Stuck(k.maxCache, s'.db) && s'.db.files == s.db.files && s'.db.batches == s.db.batches
    ensures moves[i] != Tx(SetTaskStatus(TaskCompleted)) && !(moves[i].Tx? && moves[i].op.StartBatch?)
  {
    hide Consistent, Evolves, Attempt, LawfulTx, Stuck;
    if moves[i].Tx? {
      StuckTx(k, s, moves[i].op);
      StuckStill(k.maxCache, s.db, s'.db);
    }
  }

  /** So it stays in every lawful run: no file and no batch ever changes, nothing is staged, and the task is never COMPLETED. */
  lemma {:induction false} StuckForEver(k: Rules, states: seq<Snap>, moves: seq<Move>, i: nat, j: nat)
    requires LawfulRun(k, states, moves) && i <= j <= |moves| && Stuck(k.maxCache, states[i].db)
    ensures Stuck(k.maxCache, states[j].db) && states[j].db.files == states[i].db.files && states[j].db.batches == states[i].db.batches
    ensures j < |moves| ==> moves[j] != Tx(SetTaskStatus(TaskCompleted)) && !(moves[j].Tx? && moves[j].op.StartBatch?)
    decreases j
  {
    hide OneStep, Step, LawfulFrom, Stuck;
    if i < j {
      StuckForEver(k, states, moves, i, j - 1);
      ReadStep(k, states, moves, j - 1);
      StuckStep(k, states[j - 1], moves, j - 1, states[j]);
    }
    if j < |moves| {
      ReadStep(k, states, moves, j);
      StuckStep(k, states[j], moves, j, states[j + 1]);
    }
  }

  /** No absent directory comes back then. */
  lemma StuckStaysAway(k: Rules, states: seq<Snap>, moves: seq<Move>, b: BatchId)
    requires LawfulRun(k, states, moves) && b !in states[|moves|].baidu.dirs && Stuck(k.maxCache, states[|moves|].db)
    ensures StaysAway(k, states, moves, b)
  {
    hide LawfulFrom, Step, Stuck, StageTurn;
    forall states': seq<Snap>, moves': seq<Move> | LawfulRun(k, states', moves') && states <= states' && moves <= moves'
      ensures b !in states'[|moves'|].baidu.dirs
    {
      RunLongEnough(k, states', moves');
      RunLongEnough(k, states, moves);
      forall m | |moves| <= m < |moves'| ensures !InTurn(k.maxCache, states'[m].db, b) {
        StuckForEver(k, states', moves', |moves|, m);
        NoTurn(k.maxCache, states'[m].db, b);
      }
      AbsentUnlessStaged(k, states', moves', |moves|, |moves'|, b);
    }
  }

  /** In some lawful continuation the batch is started. */
  ghost predicate StartsAgain(k: Rules, states: seq<Snap>, moves: seq<Move>, b: BatchId) {
    exists states': seq<Snap>, moves': seq<Move>, j: nat :: StartsAt(k, states, moves, states', moves', j, b)
  }

  ghost predicate StartsAt(k: Rules, states: seq<Snap>, moves: seq<Move>, states': seq<Snap>, moves': seq<Move>, j: nat, b: BatchId) {
    LawfulRun(k, states', moves') && states <= states' && moves <= moves' && |moves| <= j < |moves'| && moves'[j] == Tx(StartBatch(b))
  }

  /** When nothing but staging is left to do: the batch that is first in line is started again in some lawful continuation
      if and only if the cache admits it now. */
  lemma StartsIff(k: Rules, states: seq<Snap>, moves: seq<Move>, b: BatchId)
    requires LawfulRun(k, states, moves) && states[|moves|].db.task.scanCompleted
    requires OnlyStagingLeft(states[|moves|].db) && WorkLeft(states[|moves|].db) && StagingStore.IsFirst(states[|moves|].db, b)
    ensures StartsAgain(k, states, moves, b) <==> Admitted(k.maxCache, states[|moves|].db, b)
  {
    hide LawfulFrom, Step, OnlyStagingLeft, WorkLeft, Admitted, LawfulStep;
    var s := states[|moves|];
    if Admitted(k.maxCache, s.db, b) {
      assert b in s.db.batches by { FirstIsThere(k, s.db, b); }
      StartedNow(k, s, b);
      var started := s.(db := AfterStartBatch(s.db, b));
      RunOn(k, states, moves, Tx(StartBatch(b)), started);
      assert StartsAt(k, states, moves, states + [started], moves + [Tx(StartBatch(b))], |moves|, b);
    } else {
      assert Stuck(k.maxCache, s.db) by { RefusedIsStuck(k.maxCache, s.db, b); }
      if StartsAgain(k, states, moves, b) { NeverStarted(k, states, moves, b); }
    }
  }

  lemma RefusedIsStuck(maxCache: nat, db: Db, b: BatchId)
    requires db.task.scanCompleted && OnlyStagingLeft(db) && WorkLeft(db) && StagingStore.IsFirst(db, b) && !Admitted(maxCache, db, b)
    ensures Stuck(maxCache, db)
  {
    hide OnlyStagingLeft, WorkLeft, Admitted;
    forall c | StagingStore.IsFirst(db, c) ensures c == b {}
  }

  lemma NeverStarted(k: Rules, states: seq<Snap>, moves: seq<Move>, b: BatchId)
    requires LawfulRun(k, states, moves) && Stuck(k.maxCache, states[|moves|].db)
    ensures !StartsAgain(k, states, moves, b)
  {
    hide LawfulFrom, Step, Stuck;
    forall states': seq<Snap>, moves': seq<Move>, j: nat | LawfulRun(k, states', moves') && states <= states' && moves <= moves' && |moves| <= j < |moves'|
      ensures moves'[j] != Tx(StartBatch(b))
    {
      RunLongEnough(k, states', moves');
      RunLongEnough(k, states, moves);
      StuckForEver(k, states', moves', |moves|, j);
    }
  }

  lemma StartedNow(k: Rules, s: Snap, b: BatchId)
    requires CanStartNow(k.maxCache, s.db, b)
    ensures b in s.db.batches && Step(s, Tx(StartBatch(b)), s.(db := AfterStartBatch(s.db, b)))
    ensures LawfulStep(k, s, Tx(StartBatch(b)), s.(db := AfterStartBatch(s.db, b)))
  {
    hide WorkLeft, Admitted;
    assert StageTurn(k.maxCache, s.db, b) && b in StagingStore.Stageable(s.db);
  }

  /** When nothing but staging is left to do: an absent directory stays absent in every lawful continuation if and only if
      its batch is not stageable, no file waits to be staged, or the cache refuses the batch that is first in line. Only a
      batch behind another one that is admitted is left open. */
  lemma StaysAwayIff(k: Rules, states: seq<Snap>, moves: seq<Move>, b: BatchId)
    requires LawfulRun(k, states, moves) && b in states[|moves|].db.batches && b !in states[|moves|].baidu.dirs
    requires states[|moves|].db.task.scanCompleted && OnlyStagingLeft(states[|moves|].db)
    requires CanBeStaged(states[|moves|].db, b) && PassAdmitted(k.maxCache, states[|moves|].db) ==> StagingStore.IsFirst(states[|moves|].db, b)
    ensures StaysAway(k, states, moves, b) <==>
              !CanBeStaged(states[|moves|].db, b) || !WorkLeft(states[|moves|].db) || !PassAdmitted(k.maxCache, states[|moves|].db)
  {
    hide LawfulFrom, Step, WorkLeft, StaysAway, OnlyStagingLeft, Admitted, CanBeStaged, PassAdmitted;
    if !CanBeStaged(states[|moves|].db, b) || !WorkLeft(states[|moves|].db) {
      StaysAwayIf(k, states, moves, b);
    } else if PassAdmitted(k.maxCache, states[|moves|].db) {
      AdmittedIsFirst(k.maxCache, states[|moves|].db, b);
      ComesBack(k, states, moves, b);
    } else {
      StuckStaysAway(k, states, moves, b);
    }
  }

  lemma AdmittedIsFirst(maxCache: nat, db: Db, b: BatchId)
    requires PassAdmitted(maxCache, db) && StagingStore.IsFirst(db, b)
    ensures Admitted(maxCache, db, b)
  {
    hide Admitted;
  }

  // ----- what it costs ---------------------------------------------------------------------

  /** Every file is finished, one way or the other, and yet a batch directory stands below the task root. */
  ghost predicate LeftBehind(s: Snap, b: BatchId) {
    && s.db.task.scanCompleted && b in s.baidu.dirs
    && (forall f :: f in s.db.files ==> s.db.files[f].status.Done? || s.db.files[f].status.FailedPermanent?)
    && BaiduTaskRoot in s.db.owned && !s.db.owned[BaiduTaskRoot].cleaned
  }

  lemma StillPending(db: Db, c: BatchId)
    requires Cleanup.BatchInCleanup(db, c)
    ensures exists f :: f in db.files && db.files[f].status.CleanupPending?
  {
    var f := Least(FilesOf(db, c));
    assert InCleanup(db, f);
  }

  lemma NothingInCleanup(s: Snap, b: BatchId, c: BatchId)
    requires LeftBehind(s, b)
    ensures !Cleanup.BatchInCleanup(s.db, c)
  {
    if Cleanup.BatchInCleanup(s.db, c) {
      StillPending(s.db, c);
    }
  }

  lemma RootNotMarked(k: Rules, s: Snap, moves: seq<Move>, i: nat, s': Snap, b: BatchId)
    requires k.honest && OneStep(k, s, moves, i, s') && LeftBehind(s, b) && moves[i].Tx?
    ensures BaiduTaskRoot in s'.db.owned && !s'.db.owned[BaiduTaskRoot].cleaned
  {
    hide Consistent, Attempt, LawfulTx;
    CleanedPermitted(s.db);
    CleanedPermitted(s'.db);
    if s'.db.owned[BaiduTaskRoot].cleaned { MarksOnly(s.db, moves[i].op, BaiduTaskRoot); }
  }

  lemma StatusesStay(db: Db, db': Db)
    requires Evolves(db, db') && db'.files.Keys == db.files.Keys
    requires forall f :: f in db.files ==> db.files[f].status.Done? || db.files[f].status.FailedPermanent?
    ensures forall f :: f in db'.files ==> db'.files[f].status.Done? || db'.files[f].status.FailedPermanent?
  {
    forall f | f in db'.files ensures db'.files[f].status.Done? || db'.files[f].status.FailedPermanent? {
      assert f in db.files;
      assert RowEvolves(db.files[f], db'.files[f]);
    }
  }

  lemma LeftBehindStep(k: Rules, s: Snap, moves: seq<Move>, i: nat, s': Snap, b: BatchId)
    requires k.honest && OneStep(k, s, moves, i, s') && LeftBehind(s, b)
    requires s'.db.files.Keys == s.db.files.Keys && s'.db.task.scanCompleted
    ensures LeftBehind(s', b)
  {
    hide Consistent, Evolves, Attempt, LawfulTx;
    StatusesStay(s.db, s'.db);
    DirectoryStays(k, s, moves, i, s', b);
    if moves[i].Tx? { RootNotMarked(k, s, moves, i, s', b); }
  }

  lemma DirectoryStays(k: Rules, s: Snap, moves: seq<Move>, i: nat, s': Snap, b: BatchId)
    requires k.honest && OneStep(k, s, moves, i, s') && LeftBehind(s, b)
    ensures b in s'.baidu.dirs
  {
    hide Consistent, Evolves, Attempt, LawfulTx;
    if moves[i].DeleteStaging? && moves[i].target.BatchDir? { NothingInCleanup(s, b, moves[i].target.batch); }
  }

  /** From then on, through every lawful run, the directory and the root stay, and the task is never COMPLETED. */
  lemma {:induction false} NeverCompleted(k: Rules, states: seq<Snap>, moves: seq<Move>, i: nat, j: nat, b: BatchId)
    requires k.honest && LawfulRun(k, states, moves) && i <= j <= |moves| && LeftBehind(states[i], b)
    ensures LeftBehind(states[j], b) && (j < |moves| ==> moves[j] != Tx(SetTaskStatus(TaskCompleted)))
    decreases j
  {
    hide OneStep, Step, LawfulFrom, LeftBehind, Lawful;
    if i < j {
      NeverCompleted(k, states, moves, i, j - 1, b);
      ReadStep(k, states, moves, j - 1);
      FilesStand(k, states, moves, j - 1, b);
      LeftBehindStep(k, states[j - 1], moves, j - 1, states[j], b);
    }
    if j < |moves| {
      ReadStep(k, states, moves, j);
      NotCompletedNow(k, states[j], moves, j, states[j + 1], b);
    }
  }

  lemma FilesStand(k: Rules, states: seq<Snap>, moves: seq<Move>, i: nat, b: BatchId)
    requires LawfulRun(k, states, moves) && i < |moves| && LeftBehind(states[i], b)
    ensures states[i + 1].db.files.Keys == states[i].db.files.Keys && states[i + 1].db.task.scanCompleted
  {
    hide Consistent, Step;
    assert Lawful(k, states, moves, i);
    Pipeline.LawfulStepKeepsFiles(k, states, moves, i);
  }

  lemma NotCompletedNow(k: Rules, s: Snap, moves: seq<Move>, i: nat, s': Snap, b: BatchId)
    requires OneStep(k, s, moves, i, s') && LeftBehind(s, b)
    ensures moves[i] != Tx(SetTaskStatus(TaskCompleted))
  {
    hide Consistent, Evolves, Step;
  }
}
