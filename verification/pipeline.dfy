/** The scheduler (internal/app/pipeline.go): passes until the task is complete, stuck or failed,
    and why it cannot go on for ever. */
module Pipeline {
  import opened Wrappers
  import opened Model
  import opened Tables
  import opened Transactions
  import opened Invariant
  import opened Runs
  import opened Durable
  import opened Worlds
  import opened Progresses
  import opened Laws
  import opened Stage
  import opened Runners
  import PipelineStore
  import DownloadStore
  import DriveStore
  import StagingStore
  import Capacity

  // ----- a run that is lawful as a whole -------------------------------------------

  ghost predicate AllLawful(k: Rules, w: World)
    reads w
  {
    w.Valid() && Governs(k, w) && LawfulFrom(k, w.states, w.moves, 0)
  }

  lemma StillLawful(k: Rules, a: Trace, w: World)
    requires w.Valid() && Governs(k, w) && |a.states| == |a.moves| + 1 && LawfulFrom(k, a.states, a.moves, 0) && Lawfully(k, a, w.History())
    ensures AllLawful(k, w)
  {
    assert a.states[..1] <= a.states && [] <= a.moves;
    LawfulJoin(k, a.states[..1], [], a.states, a.moves, w.states, w.moves);
  }

  lemma BoundedNow(k: Rules, w: World)
    requires AllLawful(k, w)
    ensures Potential(w.db) <= k.maxCache && Reserved(w.db) <= k.maxCache
  {
    Capacity.PotentialBounded(k, w.states, w.moves, |w.moves|);
    SizeSumMonotone(w.db.files, Caching(w.db), Cacheable(w.db));
  }

  // ----- the manifest is fixed once the scan is complete ----------------------------

  lemma OpKeepsKeys(db: Db, op: Op)
    requires Consistent(db) && Attempt(db, op).Some? && !op.UpsertPage?
    ensures Attempt(db, op).value.files.Keys == db.files.Keys
  {
    if op.Plan? {
      PlanAddsNoFile(db, op.chunks);
    } else {
      OpInOrder(db, op);
    }
  }

  lemma LawfulStepKeepsFiles(k: Rules, states: seq<Snap>, moves: seq<Move>, i: nat)
    requires IsRun(states, moves) && i < |moves| && Lawful(k, states, moves, i) && states[i].db.task.scanCompleted
    ensures states[i + 1].db.task.scanCompleted && states[i + 1].db.files.Keys == states[i].db.files.Keys
  {
    hide Consistent, Attempt, Forward;
    RunOfStore(states, moves);
    RunConsistent(Dbs(states), i);
    RunForward(Dbs(states), i, i + 1);
    TaskOnward(states[i].db, states[i + 1].db);
    assert Step(states[i], moves[i], states[i + 1]);
    if moves[i].Tx? { OpKeepsKeys(states[i].db, moves[i].op); }
  }

  lemma TaskOnward(db: Db, db': Db)
    requires Forward(db, db')
    ensures db.task.scanCompleted ==> db'.task.scanCompleted
  {
  }

  lemma {:induction false} FilesFixed(k: Rules, states: seq<Snap>, moves: seq<Move>, n: nat, i: nat)
    requires IsRun(states, moves) && n <= i <= |moves| && LawfulFrom(k, states, moves, n) && states[n].db.task.scanCompleted
    ensures states[i].db.task.scanCompleted && states[i].db.files.Keys == states[n].db.files.Keys
    decreases i
  {
    if n < i {
      FilesFixed(k, states, moves, n, i - 1);
      assert Lawful(k, states, moves, i - 1);
      LawfulStepKeepsFiles(k, states, moves, i - 1);
    }
  }

  // ----- one pass -------------------------------------------------------------------

  /** What a stretch of lawful work means for the counters. */
  ghost predicate Onward(db: Db, db': Db) {
    db.task.scanCompleted && db'.task.scanCompleted && db'.files.Keys == db.files.Keys && Forward(db, db') && Consistent(db) && Consistent(db')
  }

  lemma WentOnward(k: Rules, a: Trace, w: World, db: Db)
    requires w.Valid() && Lawfully(k, a, w.History()) && a.states[|a.moves|].db == db && db.task.scanCompleted
    ensures Onward(db, w.db)
  {
    hide Consistent, Forward, Step;
    var n, m := |a.moves|, |w.moves|;
    FilesFixed(k, w.states, w.moves, n, m);
    RunOfStore(w.states, w.moves);
    RunForward(Dbs(w.states), n, m);
    RunConsistent(Dbs(w.states), n);
    RunConsistent(Dbs(w.states), m);
    assert w.states[n] == a.states[n];
  }

  lemma NoneFailed(db: Db)
    requires ProgressOf(db).Count(FailedPermanent) == 0
    ensures forall f :: f in db.files ==> !db.files[f].status.FailedPermanent?
  {
    CountMeans(db, FailedPermanent);
  }

  /** A pass without permanent failures either changed nothing the scheduler can see, or advanced. */
  lemma PassAdvances(db: Db, db': Db)
    requires Onward(db, db') && ProgressOf(db).Count(FailedPermanent) == 0 && ProgressOf(db').Count(FailedPermanent) == 0
    ensures Advance(db) <= Advance(db') && (ProgressOf(db') != ProgressOf(db) ==> Advance(db) < Advance(db'))
  {
    hide SizeSum, Reserved, Advance, ProgressOf;
    NoneFailed(db);
    NoneFailed(db');
    forall f | f in db.files
      ensures Counted(db.files[f].status) && Counted(db'.files[f].status) && Rank(db.files[f].status) <= Rank(db'.files[f].status)
      ensures db'.files[f].size == db.files[f].size
    {
      assert RowForward(db.files[f], db'.files[f]);
      assert f in db'.files;
    }
    ProgressAdvances(db, db');
  }

  datatype Outcome =
    | Completed | ScanIncomplete | PermanentlyFailed | CacheWatermark(byDownload: bool) | NoProgress | PassLimit | PassFailed | Interrupted

  datatype Limits = Limits(maxCacheBytes: nat, maxPasses: int, cleanupBatches: int, batchSize: int, maxAttempts: int)

  /** A failing pass is noted in the task row. */
  method Fail(w: World, ghost k: Rules) returns (r: Outcome)
    requires w.Valid() && Governs(k, w)
    modifies w
    ensures w.Valid() && Governs(k, w) && Lawfully(k, old(w.History()), w.History()) && r.PassFailed?
  {
    var paused: bool := *;
    var noted := NoteStatus(w, k, if paused then TaskPaused else TaskBlocked);
    r := PassFailed;
  }

  /** The task is marked COMPLETED on counters that say so. */
  method Complete(w: World, ghost k: Rules, current: Progress) returns (r: Outcome)
    requires w.Valid() && Governs(k, w) && current == ProgressOf(w.db) && current.Complete() && w.db.task.scanCompleted
    modifies w
    ensures w.Valid() && Governs(k, w) && Lawfully(k, old(w.History()), w.History())
    ensures r.Completed? || r.Interrupted?
    ensures r.Completed? ==> w.db.task.status.TaskCompleted? && CompleteDb(w.db)
  {
    hide LawfulFrom, Step, Attempt;
    ghost var a, db := w.History(), w.db;
    CompleteMeans(w.db);
    var ok := PipelineStore.UpdateTaskStatus(w, TaskCompleted);
    TxStepped(k, a, w, SetTaskStatus(TaskCompleted));
    if ok { TaskRowOnly(db, w.db, TaskCompleted); }
    r := if ok then Completed else Interrupted;
  }

  /** How one phase of a pass ends: with new counters, or with the whole run. */
  datatype Phase = GoOn(current: Progress) | Ended(outcome: Outcome)

  /** The phase left the run lawful, and its counters are those of the tables. */
  ghost predicate After(k: Rules, a: Trace, w: World, db: Db, r: Phase)
    reads w
  {
    && AllLawful(k, w) && Lawfully(k, a, w.History()) && w.db.task.scanCompleted
    && (r.GoOn? ==> r.current == ProgressOf(w.db))
    && (r.Ended? && r.outcome.Completed? ==> w.db.task.status.TaskCompleted? && CompleteDb(w.db))
    && (r.Ended? ==> r.outcome.Completed? || r.outcome.PassFailed? || r.outcome.Interrupted?)
  }

  lemma PhaseKept(k: Rules, a: Trace, w: World, db: Db)
    requires |a.states| == |a.moves| + 1 && LawfulFrom(k, a.states, a.moves, 0) && a.states[|a.moves|].db == db && db.task.scanCompleted
    requires w.Valid() && Governs(k, w) && Lawfully(k, a, w.History())
    ensures AllLawful(k, w) && w.db.task.scanCompleted
  {
    StillLawful(k, a, w);
    WentOnward(k, a, w, db);
  }

  /** After a pass: its failure ends the run, otherwise the counters are read again. */
  method Conclude(w: World, ghost k: Rules, ghost a: Trace, ghost db: Db, ok: bool) returns (r: Phase)
    requires |a.states| == |a.moves| + 1 && LawfulFrom(k, a.states, a.moves, 0) && a.states[|a.moves|].db == db && db.task.scanCompleted
    requires w.Valid() && Governs(k, w) && Lawfully(k, a, w.History())
    modifies w
    ensures After(k, a, w, db, r)
    ensures r.GoOn? ==> ok && w.db == old(w.db)
  {
    hide Lawfully, Step, LawfulFrom, ProgressOf;
    PhaseKept(k, a, w, db);
    if !ok {
      ghost var b := w.History();
      var failed := Fail(w, k);
      LawfullyThen(k, a, b, w.History());
      PhaseKept(k, a, w, db);
      return Ended(failed);
    }
    var progress := PipelineStore.PipelineProgress(w);
    r := if progress.None? then Ended(Interrupted) else GoOn(progress.value);
  }

  lemma NoCleanupWork(db: Db)
    requires !ProgressOf(db).HasCleanupWork()
    ensures !RootCandidate(db)
  {
    FilesDoneMeans(db);
  }

  lemma NoDriveWork(db: Db)
    requires !ProgressOf(db).HasDriveWork()
    ensures DriveStore.Candidates(db) == {}
  {
    CountMeans(db, LocalReady);
    CountMeans(db, DriveUploading);
    CountMeans(db, DriveUploaded);
    forall f ensures f !in DriveStore.Candidates(db) {}
  }

  /** Cleanup, if there is any to do: it goes on only with the task root not due. */
  method CleanupPhase(w: World, ghost k: Rules, limits: Limits, current: Progress) returns (r: Phase)
    requires AllLawful(k, w) && current == ProgressOf(w.db) && w.db.task.scanCompleted
    modifies w
    ensures After(k, old(w.History()), w, old(w.db), r)
    ensures r.GoOn? ==> !RootCandidate(w.db)
  {
    hide Lawfully, Step, LawfulFrom, ProgressOf, RootCandidate;
    ghost var a, db := w.History(), w.db;
    Idle(k, a);
    if !current.HasCleanupWork() {
      NoCleanupWork(w.db);
      return GoOn(current);
    }
    var summary, ok := CleanupPass(w, k, limits.cleanupBatches);
    r := Conclude(w, k, a, db, ok);
    if r.GoOn? && r.current.Complete() {
      ghost var b := w.History();
      var done := Complete(w, k, r.current);
      LawfullyThen(k, a, b, w.History());
      PhaseKept(k, a, w, db);
      r := Ended(done);
    }
  }

  /** Uploads, if there are any to do: it goes on only with none left. */
  method DrivePhase(w: World, ghost k: Rules, current: Progress) returns (r: Phase)
    requires AllLawful(k, w) && current == ProgressOf(w.db) && w.db.task.scanCompleted
    modifies w
    ensures After(k, old(w.History()), w, old(w.db), r)
    ensures r.GoOn? ==> DriveStore.Candidates(w.db) == {}
  {
    hide Lawfully, Step, LawfulFrom, ProgressOf;
    ghost var a, db := w.History(), w.db;
    Idle(k, a);
    if !current.HasDriveWork() && !(current.total == 0 && !current.driveRootReady) {
      NoDriveWork(w.db);
      return GoOn(current);
    }
    var summary, ok := DrivePass(w, k);
    r := Conclude(w, k, a, db, ok);
  }

  lemma NoDownloadWork(db: Db)
    requires !ProgressOf(db).HasDownloadWork()
    ensures NothingStaged(db)
  {
    CountMeans(db, BaiduStaged);
  }

  lemma NoCandidates(db: Db)
    requires DownloadStore.Candidates(db) == {}
    ensures NothingStaged(db)
  {
    forall f | f in db.files ensures !db.files[f].status.BaiduStaged? { assert f !in DownloadStore.Candidates(db); }
  }

  /** The download pass is never stopped by the watermark, and leaves nothing between staging and download. */
  method DownloadPhase(w: World, ghost k: Rules, limits: Limits, current: Progress) returns (r: Phase, pausedByWatermark: bool)
    requires AllLawful(k, w) && current == ProgressOf(w.db) && w.db.task.scanCompleted
    requires 0 < limits.maxCacheBytes == k.maxCache
    modifies w
    ensures After(k, old(w.History()), w, old(w.db), r)
    ensures !pausedByWatermark && (r.GoOn? ==> NothingStaged(w.db))
  {
    hide Lawfully, Step, LawfulFrom, ProgressOf, NothingStaged, Potential, Reserved;
    ghost var a, db := w.History(), w.db;
    Idle(k, a);
    pausedByWatermark := false;
    if !current.HasDownloadWork() {
      NoDownloadWork(w.db);
      return GoOn(current), false;
    }
    BoundedNow(k, w);
    var summary, ok := DownloadPass(w, k, limits.maxCacheBytes, limits.maxAttempts);
    pausedByWatermark := summary.pausedByWatermark;
    if ok { NoCandidates(w.db); }
    r := Conclude(w, k, a, db, ok);
  }

  /** A batch that was not staged before is staged now, or none is left to stage. */
  ghost predicate StagedOne(db: Db, db': Db) {
    || StagingStore.Stageable(db') == {}
    || exists b :: StagedUp(db', b) && (b in db.batches ==> StageableBatch(db.batches[b].status))
  }

  lemma WorkIsLeft(db: Db)
    requires ProgressOf(db).HasStageWork()
    ensures WorkLeft(db)
  {
    CountMeans(db, Discovered);
    CountMeans(db, Planned);
    CountMeans(db, BaiduStaging);
  }

  /** Staging, if there is work and room: it goes on only with one more batch staged. */
  method StagePhase(w: World, ghost k: Rules, limits: Limits, current: Progress, pausedByWatermark: bool) returns (r: Phase)
    requires AllLawful(k, w) && current == ProgressOf(w.db) && w.db.task.scanCompleted
    requires 0 < limits.maxCacheBytes == k.maxCache && NothingStaged(w.db)
    modifies w
    ensures After(k, old(w.History()), w, old(w.db), r)
    ensures r.GoOn? && !pausedByWatermark && current.HasStageWork() && current.reservedCache < limits.maxCacheBytes ==> StagedOne(old(w.db), w.db)
  {
    hide Lawfully, Step, LawfulFrom, NothingStaged, WorkLeft, Reserved, StagedUp;
    ghost var a, db := w.History(), w.db;
    Idle(k, a);
    var available := limits.maxCacheBytes - current.reservedCache;
    if pausedByWatermark || available <= 0 || !current.HasStageWork() { return GoOn(current); }
    WorkIsLeft(w.db);
    var staged, first := Stage.Run(w, k, StageLimits(limits.batchSize, limits.maxCacheBytes, available, limits.maxAttempts));
    r := Conclude(w, k, a, db, staged.Staged?);
  }

  /** One pass over all four phases. */
  method Pass(w: World, ghost k: Rules, limits: Limits, before: Progress) returns (r: Phase, pausedByWatermark: bool)
    requires AllLawful(k, w) && before == ProgressOf(w.db) && w.db.task.scanCompleted
    requires 0 < limits.maxCacheBytes == k.maxCache
    modifies w
    ensures After(k, old(w.History()), w, old(w.db), r) && !pausedByWatermark
  {
    hide Lawfully, Step, LawfulFrom, NothingStaged, ProgressOf, CompleteDb;
    ghost var a := w.History();
    pausedByWatermark := false;
    r := CleanupPhase(w, k, limits, before);
    if r.Ended? { return; }
    ghost var b := w.History();
    r := DrivePhase(w, k, r.current);
    LawfullyThen(k, a, b, w.History());
    if r.Ended? { return; }
    ghost var c := w.History();
    r, pausedByWatermark := DownloadPhase(w, k, limits, r.current);
    LawfullyThen(k, a, c, w.History());
    if r.Ended? { return; }
    ghost var d := w.History();
    r := StagePhase(w, k, limits, r.current, pausedByWatermark);
    LawfullyThen(k, a, d, w.History());
  }

  /** The counters do not see the task's status. */
  lemma StatusUnseen(db: Db, status: TaskStatus)
    ensures ProgressOf(db.(task := db.task.(status := status))) == ProgressOf(db)
  {
    var db' := db.(task := db.task.(status := status));
    assert Statuses(db') == Statuses(db) && Caching(db') == Caching(db);
    forall s ensures WithStatus(db', s) == WithStatus(db, s) {}
  }

  /** An update of the task row that ends the run. */
  method EndWith(w: World, ghost k: Rules, status: TaskStatus, outcome: Outcome) returns (r: Outcome)
    requires AllLawful(k, w) && !status.TaskCompleted?
    modifies w
    ensures AllLawful(k, w) && Lawfully(k, old(w.History()), w.History()) && r == outcome
    ensures ProgressOf(w.db) == ProgressOf(old(w.db)) && w.db.task.scanCompleted == old(w.db).task.scanCompleted
    ensures w.quiet ==> w.db.task.status == status
  {
    hide LawfulFrom, Step, ProgressOf;
    ghost var a, db := w.History(), w.db;
    var noted := NoteStatus(w, k, status);
    StatusUnseen(db, w.db.task.status);
    StillLawful(k, a, w);
    r := outcome;
  }

  /** How many passes can be begun before everything has advanced as far as it can. */
  function PassBound(db: Db): nat {
    10 * |db.files| + 4
  }

  lemma BoundKept(db: Db, db': Db, passes: nat)
    requires Onward(db, db') && passes <= Advance(db')
    ensures passes < PassBound(db)
  {
    AdvanceBound(db');
    assert |db'.files| == |db'.files.Keys| && |db.files| == |db.files.Keys|;
  }

  /** Nothing is reported that the tables do not say: success only on a complete task, failure only with
      a failed file, a pause only with work to stage and a full cache. */
  ghost predicate Truly(w: World, limits: Limits, r: Outcome)
    reads w
  {
    var now := ProgressOf(w.db);
    match r
    case Completed => w.db.task.status.TaskCompleted? && w.db.task.scanCompleted && CompleteDb(w.db)
    case ScanIncomplete => !w.db.task.scanCompleted && (w.quiet ==> w.db.task.status.TaskBlocked?)
    case PermanentlyFailed => now.Count(FailedPermanent) > 0 && (w.quiet ==> w.db.task.status.TaskFailed?)
    case CacheWatermark(byDownload) =>
      !byDownload && now.HasStageWork() && now.reservedCache >= limits.maxCacheBytes && (w.quiet ==> w.db.task.status.TaskPaused?)
    case NoProgress => !now.Complete() && now.Count(FailedPermanent) == 0 && (w.quiet ==> w.db.task.status.TaskBlocked?)
    case PassLimit => w.quiet ==> w.db.task.status.TaskBlocked?
    case _ => true
  }

  lemma FailedIsTrue(w: World, limits: Limits, r: Outcome)
    requires r.Interrupted? || r.PassFailed? || (r.Completed? && w.db.task.status.TaskCompleted? && w.db.task.scanCompleted && CompleteDb(w.db))
    ensures Truly(w, limits, r)
  {
  }

  /** Completed, if the update of the task row goes through. */
  method CompleteTask(w: World, ghost k: Rules, ghost limits: Limits, current: Progress) returns (r: Outcome)
    requires AllLawful(k, w) && current == ProgressOf(w.db) && current.Complete() && w.db.task.scanCompleted
    modifies w
    ensures AllLawful(k, w) && Lawfully(k, old(w.History()), w.History()) && Truly(w, limits, r)
    ensures r.Completed? || r.Interrupted?
  {
    hide LawfulFrom, Step, ProgressOf, CompleteDb, Lawfully;
    ghost var a, db := w.History(), w.db;
    r := Complete(w, k, current);
    PhaseKept(k, a, w, db);
  }

  /** The checks in front of a pass. */
  method Settle(w: World, ghost k: Rules, ghost limits: Limits, before: Progress) returns (r: Option<Outcome>)
    requires AllLawful(k, w) && before == ProgressOf(w.db)
    modifies w
    ensures AllLawful(k, w) && Lawfully(k, old(w.History()), w.History())
    ensures r.None? ==> w.History() == old(w.History()) && w.Now() == old(w.Now()) && w.db.task.scanCompleted && before.Count(FailedPermanent) == 0
    ensures r.None? <==> !before.scanIncomplete && before.Count(FailedPermanent) == 0 && !before.Complete()
    ensures r == Some(ScanIncomplete) <==> before.scanIncomplete
    ensures r == Some(PermanentlyFailed) <==> !before.scanIncomplete && before.Count(FailedPermanent) > 0
    ensures r.Some? ==> Truly(w, limits, r.value) && !r.value.PassLimit?
  {
    hide LawfulFrom, Step, CompleteDb, Lawfully, RootReady;
    Idle(k, w.History());
    if before.scanIncomplete {
      var ended := EndWith(w, k, TaskBlocked, ScanIncomplete);
      return Some(ended);
    }
    if before.Count(FailedPermanent) > 0 {
      var ended := EndWith(w, k, TaskFailed, PermanentlyFailed);
      return Some(ended);
    }
    if before.Complete() {
      var ended := CompleteTask(w, k, limits, before);
      return Some(ended);
    }
    r := None;
  }

  /** The checks after a pass: failed, complete, paused, stuck, or worth another pass. */
  method Judge(w: World, ghost k: Rules, limits: Limits, before: Progress, current: Progress, pausedByWatermark: bool) returns (r: Option<Outcome>)
    requires AllLawful(k, w) && current == ProgressOf(w.db) && w.db.task.scanCompleted && !pausedByWatermark
    modifies w
    ensures AllLawful(k, w) && Lawfully(k, old(w.History()), w.History())
    ensures r.None? ==> w.History() == old(w.History()) && w.Now() == old(w.Now()) && current != before && current.Count(FailedPermanent) == 0
    ensures r == Some(PermanentlyFailed) <==> current.Count(FailedPermanent) > 0
    ensures r.None? <==> current.Count(FailedPermanent) == 0 && !current.Complete() && current != before
    ensures r == Some(CacheWatermark(false)) <==>
              current.Count(FailedPermanent) == 0 && !current.Complete() && current == before
              && current.HasStageWork() && current.reservedCache >= limits.maxCacheBytes
    ensures r.Some? ==> Truly(w, limits, r.value) && !r.value.PassLimit?
  {
    hide LawfulFrom, Step, CompleteDb, Lawfully, ProgressOf;
    Idle(k, w.History());
    if current.Count(FailedPermanent) > 0 {
      var ended := EndWith(w, k, TaskFailed, PermanentlyFailed);
      return Some(ended);
    }
    if current.Complete() {
      var ended := CompleteTask(w, k, limits, current);
      return Some(ended);
    }
    if current == before {
      if pausedByWatermark || (current.HasStageWork() && current.reservedCache >= limits.maxCacheBytes) {
        var ended := EndWith(w, k, TaskPaused, CacheWatermark(pausedByWatermark));
        return Some(ended);
      }
      var ended := EndWith(w, k, TaskBlocked, NoProgress);
      return Some(ended);
    }
    r := None;
  }

  /** The start of a pass: cancelled, settled already, or counters to begin with. */
  method Begin(w: World, ghost k: Rules, ghost limits: Limits) returns (r: Option<Outcome>, before: Progress)
    requires AllLawful(k, w)
    modifies w
    ensures AllLawful(k, w) && Lawfully(k, old(w.History()), w.History())
    ensures r.None? ==> w.History() == old(w.History()) && w.Now() == old(w.Now()) && w.db.task.scanCompleted
    ensures r.None? ==> before == ProgressOf(w.db) && before.Count(FailedPermanent) == 0 && !before.Complete()
    ensures r.Some? ==> Truly(w, limits, r.value) && !r.value.PassLimit?
  {
    hide LawfulFrom, Step, CompleteDb, Lawfully, ProgressOf, Truly;
    Idle(k, w.History());
    before := Progress(true, 0, map[], 0, false, false, false);
    var cancelled := w.Fails();
    if cancelled {
      var ended := EndWith(w, k, TaskPaused, Interrupted);
      FailedIsTrue(w, limits, ended);
      return Some(ended), before;
    }
    var progress := PipelineStore.PipelineProgress(w);
    if progress.None? {
      FailedIsTrue(w, limits, Interrupted);
      return Some(Interrupted), before;
    }
    before := progress.value;
    r := Settle(w, k, limits, before);
  }

  /** No pass is left. */
  method GiveUp(w: World, ghost k: Rules, ghost limits: Limits) returns (r: Outcome)
    requires AllLawful(k, w)
    modifies w
    ensures AllLawful(k, w) && Lawfully(k, old(w.History()), w.History()) && Truly(w, limits, r)
  {
    hide LawfulFrom, Step, CompleteDb, Lawfully, ProgressOf;
    Idle(k, w.History());
    var progress := PipelineStore.PipelineProgress(w);
    if progress.None? { return Interrupted; }
    r := EndWith(w, k, TaskBlocked, PassLimit);
  }

  /** PipelineRunner.Run. It never begins more than 10 N + 4 passes over N files, is never stopped by the
      download watermark, and reports success only on a task that is complete in every respect. */
  method Run(w: World, ghost k: Rules, limits: Limits) returns (r: Outcome, passes: nat)
    requires AllLawful(k, w) && 0 < limits.maxCacheBytes == k.maxCache
    modifies w
    ensures AllLawful(k, w) && Lawfully(k, old(w.History()), w.History())
    ensures passes <= PassBound(old(w.db))
    ensures limits.maxPasses >= PassBound(old(w.db)) ==> !r.PassLimit?
    ensures Truly(w, limits, r)
  {
    hide Truly, Lawfully, Step, LawfulFrom, ProgressOf, CompleteDb, Advance, PassBound, Forward, Consistent;
    ghost var a, start := w.History(), w.db;
    Idle(k, a);
    PassBoundPositive(start);
    var maxPasses := if limits.maxPasses <= 0 then 100000 else limits.maxPasses;
    passes := 0;
    while passes < maxPasses
      invariant AllLawful(k, w) && Lawfully(k, a, w.History())
      invariant 0 <= passes <= maxPasses && passes <= PassBound(start)
      invariant if passes == 0 then w.History() == a && w.db == start else Onward(start, w.db) && passes <= Advance(w.db)
      decreases maxPasses - passes
    {
      ghost var h, db := w.History(), w.db;
      var settled, before := Begin(w, k, limits);
      LawfullyThen(k, a, h, w.History());
      if settled.Some? { return settled.value, passes; }
      WentOnward(k, a, w, start);
      BoundKept(start, w.db, passes);
      var phase, pausedByWatermark := Pass(w, k, limits, before);
      LawfullyThen(k, a, h, w.History());
      passes := passes + 1;
      if phase.Ended? {
        FailedIsTrue(w, limits, phase.outcome);
        return phase.outcome, passes;
      }
      ghost var c := w.History();
      WentOnward(k, h, w, db);
      WentOnward(k, a, w, start);
      settled := Judge(w, k, limits, before, phase.current, pausedByWatermark);
      LawfullyThen(k, a, c, w.History());
      if settled.Some? { return settled.value, passes; }
      PassAdvances(db, w.db);
    }
    BoundKept(start, w.db, passes);
    ghost var h := w.History();
    r := GiveUp(w, k, limits);
    LawfullyThen(k, a, h, w.History());
  }

  lemma PassBoundPositive(db: Db)
    ensures PassBound(db) >= 4
  {
  }
}
