/** Executor.Run (internal/staging/stager.go) and StageRunner.Run (internal/app/stage.go):
    the admission check in front of a staging pass, and why a pass never overcommits the cache. */
module Stage {
  import opened Wrappers
  import opened Model
  import opened Tables
  import opened Transactions
  import opened Durable
  import opened Worlds
  import opened Progresses
  import opened Laws
  import opened StagingStore
  import opened Stager
  import opened Invariant
  import opened Runs
  import PlanningStore
  import PipelineStore

  datatype StageResult = Staged | TooLarge(batch: BatchId, bytes: nat) | Deferred(batch: BatchId, bytes: nat) | StageFailed

  /** It is the turn of the batch the executor will take up next, and staged completely it does not overcommit the cache. */
  ghost predicate FirstFits(k: Rules, db: Db) {
    forall b :: IsFirst(db, b) ==> Claim(db, b) <= k.maxCache && StageTurn(k.maxCache, db, b)
  }

  lemma FirstStays(k: Rules, db: Db, db': Db, b: BatchId)
    requires OnlyBatch(db, db', b) && Claim(db, b) <= k.maxCache && StageTurn(k.maxCache, db, b)
    ensures FirstFits(k, db') && IsFirst(db', b)
  {
    hide Claim, OnlyBatch, Admitted, WorkLeft;
    ClaimKept(db, db', b);
    TurnKept(k.maxCache, db, db', b);
    forall c | IsFirst(db', c) ensures Claim(db', c) <= k.maxCache && StageTurn(k.maxCache, db', c) { assert c == b; }
  }

  lemma FailedOnlyBatch(db: Db, db': Db, b: BatchId)
    requires Attempt(db, Op.FailBatch(b, false)) == Some(db')
    ensures OnlyBatch(db, db', b)
  {
  }

  /** The batch and every one of its files is staged. */
  ghost predicate StagedUp(db: Db, b: BatchId) {
    && b in db.batches && db.batches[b].status.BatchStaged?
    && forall f :: f in FilesOf(db, b) ==> f in db.files && StagedOrLater(db.files[f].status)
  }

  lemma BatchStagedUp(db: Db, w: World, batch: StagingBatch)
    requires Describes(db, batch) && FullyStaged(w, batch) && w.db.members == db.members
    ensures StagedUp(w.db, batch.batch)
  {
    forall f | f in FilesOf(w.db, batch.batch) ensures f in w.db.files && StagedOrLater(w.db.files[f].status) {
      assert f in FilesOf(db, batch.batch);
    }
  }

  /** No batch is empty, so a permanent failure comes after the batch was opened. */
  lemma HasFiles(db: Db, batch: StagingBatch)
    requires Consistent(db) && Describes(db, batch)
    ensures |batch.files| > 0
  {
    assert BatchOk(db, batch.batch);
    assert FilesOf(db, batch.batch) != {};
    var f := Least(FilesOf(db, batch.batch));
    assert f in batch.files;
  }

  /** The failure of the batch is recorded in its turn. */
  lemma TurnFailed(k: Rules, db: Db, db': Db, b: BatchId, permanent: bool)
    requires OnlyBatch(db, db', b) && StageTurn(k.maxCache, db, b) && (permanent ==> BeingStaged(db', b))
    ensures StageTurn(k.maxCache, db', b) && forall s: Snap :: s.db == db' ==> LawfulTx(k, s, Op.FailBatch(b, permanent))
  {
    hide OnlyBatch, StageTurn;
    TurnKept(k.maxCache, db, db', b);
  }

  /** One batch of Executor.Run, its failure recorded. */
  method StageOne(w: World, ghost k: Rules, batch: StagingBatch, maxAttempts: int) returns (r: Outcome)
    requires Ready(k, w, batch)
    modifies w
    ensures w.Valid() && Governs(k, w) && Lawfully(k, old(w.History()), w.History())
    ensures r.Ok? ==> StagedUp(w.db, batch.batch)
    ensures r == Err(false) ==> FirstFits(k, w.db) && IsFirst(w.db, batch.batch)
  {
    hide Lawfully, Step, Describes, Attempt, OnlyBatch, Claim, IsFirst, FirstFits, FullyStaged, StagedUp, Consistent, StageTurn, BeingStaged, LawfulTx;
    ghost var a, db := w.History(), w.db;
    w.InOrder();
    r := StageBatch(w, k, batch, maxAttempts);
    if r.Ok? {
      BatchStagedUp(db, w, batch);
      return;
    }
    HasFiles(db, batch);
    TurnFailed(k, db, w.db, batch.batch, r.permanent);
    ghost var b, mid := w.History(), w.db;
    var recorded := StagingStore.FailBatch(w, batch.batch, r.permanent);
    TxStepped(k, b, w, Op.FailBatch(batch.batch, r.permanent));
    LawfullyThen(k, a, b, w.History());
    if !r.permanent {
      if recorded { FailedOnlyBatch(mid, w.db, batch.batch); } else { UnderwaySame(mid, batch.batch); }
      OnlyBatchTransitive(db, mid, w.db, batch.batch);
      FirstStays(k, db, w.db, batch.batch);
    }
  }

  /** Executor.Run over the repository that hands out one batch at a time. */
  method ExecutorRun(w: World, ghost k: Rules, maxAttempts: int) returns (r: Outcome)
    requires w.Valid() && Governs(k, w) && FirstFits(k, w.db)
    modifies w
    ensures w.Valid() && Governs(k, w) && Lawfully(k, old(w.History()), w.History())
    ensures r.Ok? ==> forall b :: IsFirst(old(w.db), b) ==> StagedUp(w.db, b)
    ensures r == Err(false) ==> FirstFits(k, w.db) && forall b :: IsFirst(old(w.db), b) ==> IsFirst(w.db, b)
    ensures Stageable(old(w.db)) == {} ==> w.db == old(w.db)
  {
    hide Lawfully, Step, FirstFits, Claim, Describes, StagedUp;
    Idle(k, w.History());
    var batches := StagingBatches(w, 1);
    if batches.None? { return Err(false); }
    FirstListed(w.db, batches.value, 1);
    var i := 0;
    while i < |batches.value|
      invariant 0 <= i <= |batches.value| <= 1
      invariant w.Valid() && Governs(k, w) && Lawfully(k, old(w.History()), w.History())
      invariant i == 0 ==> w.db == old(w.db) && w.History() == old(w.History())
      invariant i > 0 ==> forall b :: IsFirst(old(w.db), b) ==> StagedUp(w.db, b)
      decreases |batches.value| - i
    {
      var batch := batches.value[i];
      FirstReady(k, w, batch);
      r := StageOne(w, k, batch, maxAttempts);
      if !r.Ok? { return; }
      i := i + 1;
    }
    r := Ok;
  }

  lemma FirstReady(k: Rules, w: World, batch: StagingBatch)
    requires w.Valid() && Governs(k, w) && FirstFits(k, w.db) && IsStagingBatch(w.db, batch)
    requires forall b :: b in Stageable(w.db) ==> batch.batch <= b
    ensures Ready(k, w, batch) && IsFirst(w.db, batch.batch)
  {
    hide StageTurn, Claim;
    ReadDescribes(w.db, batch);
    assert IsFirst(w.db, batch.batch);
  }

  /** A whole batch fits if it fits the capacity not reserved, and nothing else is staged. */
  lemma ClaimOfFirst(db: Db, b: BatchId)
    requires Consistent(db) && b in db.batches && forall f :: f in db.files ==> !db.files[f].status.BaiduStaged?
    ensures Claim(db, b) <= Reserved(db) + db.batches[b].totalBytes
  {
    assert TotalOk(db, b);
    var rest := FilesOf(db, b) - Caching(db);
    forall f ensures f in Claimants(db, b) <==> f in Caching(db) + rest {}
    assert Claimants(db, b) == Caching(db) + rest;
    SizeSumUnion(db.files, Caching(db), rest);
    SizeSumMonotone(db.files, rest, FilesOf(db, b));
  }

  /** Everything found is planned. */
  predicate AllPlanned(db: Db) {
    forall f :: f in db.files ==> !db.files[f].status.Discovered?
  }

  /** Nothing is waiting between staging and download. */
  predicate NothingStaged(db: Db) {
    forall f :: f in db.files ==> !db.files[f].status.BaiduStaged?
  }

  lemma BatchTotal(db: Db, b: BatchId)
    requires Consistent(db) && b in db.batches
    ensures db.batches[b].totalBytes == SizeSum(db.files, FilesOf(db, b)) && forall f :: f in FilesOf(db, b) ==> f in db.files
  {
    assert TotalOk(db, b);
  }

  /** By how much the admission check is too strict: it counts the batch's own files that are in the
      cache already a second time. Only what is left of a batch would have to fit. */
  lemma AdmissionOvercounts(db: Db, b: BatchId)
    requires Consistent(db) && b in db.batches && NothingStaged(db)
    ensures Reserved(db) + db.batches[b].totalBytes == Claim(db, b) + SizeSum(db.files, Caching(db) * FilesOf(db, b))
  {
    hide Consistent;
    BatchTotal(db, b);
    var own, rest := Caching(db) * FilesOf(db, b), FilesOf(db, b) - Caching(db);
    assert FilesOf(db, b) == own + rest;
    SizeSumUnion(db.files, own, rest);
    forall f ensures f in Claimants(db, b) <==> f in Caching(db) + rest {}
    assert Claimants(db, b) == Caching(db) + rest;
    SizeSumUnion(db.files, Caching(db), rest);
  }

  /** So a batch that would fit is admitted exactly if it still fits with its own cached bytes counted twice. */
  lemma AdmittedIff(db: Db, b: BatchId, maxCache: nat)
    requires Consistent(db) && b in db.batches && NothingStaged(db)
    ensures db.batches[b].totalBytes <= maxCache - Reserved(db) <==> Claim(db, b) + SizeSum(db.files, Caching(db) * FilesOf(db, b)) <= maxCache
  {
    hide Consistent, Claim, Reserved;
    AdmissionOvercounts(db, b);
  }

  /** Zero or less means no limit. */
  predicate Within(bytes: nat, limit: int) {
    limit > 0 ==> bytes <= limit
  }

  predicate Fits(batch: StagingBatch, maxCacheBytes: int, maxBatchBytes: int) {
    Within(batch.row.totalBytes, maxCacheBytes) && Within(batch.row.totalBytes, maxBatchBytes)
  }

  /** Batch j is the first of the pending ones that does not fit. */
  predicate FirstUnfit(pending: seq<StagingBatch>, j: nat, maxCacheBytes: int, maxBatchBytes: int) {
    j < |pending| && !Fits(pending[j], maxCacheBytes, maxBatchBytes) && forall i :: 0 <= i < j ==> Fits(pending[i], maxCacheBytes, maxBatchBytes)
  }

  /** The admission loop over the batches about to be staged. Beyond the whole cache the first one that
      does not fit is an error, beyond the present capacity it is only deferred. */
  method Admit(pending: seq<StagingBatch>, maxBatches: int, maxCacheBytes: int, maxBatchBytes: int) returns (r: StageResult)
    ensures r.Staged? <==> forall j :: 0 <= j < |pending| && (maxBatches > 0 ==> j < maxBatches) ==> Fits(pending[j], maxCacheBytes, maxBatchBytes)
    ensures !r.Staged? ==> (r.TooLarge? || r.Deferred?)
                           && exists j: nat :: FirstUnfit(pending, j, maxCacheBytes, maxBatchBytes) && (maxBatches > 0 ==> j < maxBatches)
                                               && r.batch == pending[j].batch && r.bytes == pending[j].row.totalBytes
    ensures r.TooLarge? || r.Deferred? ==> (r.TooLarge? <==> !Within(r.bytes, maxCacheBytes))
  {
    var checkCount := |pending|;
    if maxBatches > 0 && checkCount > maxBatches { checkCount := maxBatches; }
    var i := 0;
    while i < checkCount
      invariant 0 <= i <= checkCount
      invariant forall j :: 0 <= j < i ==> Fits(pending[j], maxCacheBytes, maxBatchBytes)
    {
      var batch := pending[i];
      if maxCacheBytes > 0 && batch.row.totalBytes > maxCacheBytes {
        assert FirstUnfit(pending, i, maxCacheBytes, maxBatchBytes);
        return TooLarge(batch.batch, batch.row.totalBytes);
      }
      if maxBatchBytes > 0 && batch.row.totalBytes > maxBatchBytes {
        assert FirstUnfit(pending, i, maxCacheBytes, maxBatchBytes);
        return Deferred(batch.batch, batch.row.totalBytes);
      }
      i := i + 1;
    }
    r := Staged;
  }

  lemma AdmittedFits(k: Rules, w: World, pending: seq<StagingBatch>, available: nat)
    requires available > 0 && w.Valid() && (forall i :: 0 <= i < |pending| ==> IsStagingBatch(w.db, pending[i])) && (pending == [] <==> Stageable(w.db) == {})
    requires pending != [] ==> (forall b :: b in Stageable(w.db) ==> pending[0].batch <= b) && pending[0].row.totalBytes <= available
    requires NothingStaged(w.db) && AllPlanned(w.db) && WorkLeft(w.db) && Reserved(w.db) + available <= k.maxCache
    ensures FirstFits(k, w.db)
  {
    hide Claim, Reserved, Consistent, WorkLeft;
    w.InOrder();
    if pending != [] { assert IsStagingBatch(w.db, pending[0]); }
    forall b | IsFirst(w.db, b) ensures Claim(w.db, b) <= k.maxCache && StageTurn(k.maxCache, w.db, b) {
      assert b in Stageable(w.db);
      assert pending[0].batch in Stageable(w.db);
      ClaimOfFirst(w.db, b);
    }
  }

  lemma TaskRowOnly(db: Db, db': Db, status: TaskStatus)
    requires Attempt(db, SetTaskStatus(status)) == Some(db')
    ensures db' == db.(task := db.task.(status := status))
  {
  }

  lemma FitsAnyTask(k: Rules, db: Db, db': Db)
    requires FirstFits(k, db) && db'.files == db.files && db'.members == db.members && db'.batches == db.batches
    ensures FirstFits(k, db')
  {
    assert Caching(db') == Caching(db);
    assert WorkLeft(db') <==> WorkLeft(db);
    forall b | IsFirst(db', b) ensures Claim(db', b) <= k.maxCache && StageTurn(k.maxCache, db', b) {
      assert IsFirst(db, b);
      assert FilesOf(db', b) == FilesOf(db, b);
      assert Claimants(db', b) == Claimants(db, b);
    }
  }

  datatype StageLimits = StageLimits(batchSize: int, maxCacheBytes: int, maxBatchBytes: int, maxAttempts: int)

  /** UpdateTaskStatus on the way: it changes the task row and nothing else. */
  method NoteStatus(w: World, ghost k: Rules, status: TaskStatus) returns (ok: bool)
    requires w.Valid() && Governs(k, w) && !status.TaskCompleted?
    modifies w
    ensures w.Valid() && Governs(k, w) && Lawfully(k, old(w.History()), w.History())
    ensures w.db == old(w.db).(task := old(w.db).task.(status := if ok then status else old(w.db).task.status)) && (w.quiet ==> ok)
    ensures w.cache == old(w.cache) && w.baidu == old(w.baidu) && w.drive == old(w.drive)
  {
    hide LawfulFrom, Step, Attempt;
    ghost var a, db := w.History(), w.db;
    ok := PipelineStore.UpdateTaskStatus(w, status);
    TxStepped(k, a, w, SetTaskStatus(status));
    if ok { TaskRowOnly(db, w.db, status); }
  }

  /** Planning adds batches of all discovered files; what is in the cache or staged stays as it was. */
  method PlanPass(w: World, ghost k: Rules, limits: StageLimits) returns (ok: bool)
    requires w.Valid() && Governs(k, w) && NothingStaged(w.db) && w.db.task.scanCompleted && limits.maxBatchBytes > 0
    modifies w
    ensures w.Valid() && Governs(k, w) && Lawfully(k, old(w.History()), w.History())
    ensures NothingStaged(w.db) && Reserved(w.db) == Reserved(old(w.db))
    ensures (ok ==> AllPlanned(w.db)) && (WorkLeft(old(w.db)) ==> WorkLeft(w.db))
    ensures forall b :: b in old(w.db).batches ==> b in w.db.batches && w.db.batches[b] == old(w.db).batches[b]
  {
    hide LawfulFrom, Step, Attempt, Reserved, AllPlanned, WorkLeft, PlanningStore.PlanOf, PlanningStore.Lists, NothingStaged;
    ghost var a, db := w.History(), w.db;
    w.InOrder();
    var batchSize := if limits.batchSize <= 0 then 200 else limits.batchSize;
    var planned, ids := PlanningStore.PlanBatchesBounded(w, batchSize, limits.maxBatchBytes);
    if planned.None? {
      Idle(k, a);
      return false;
    }
    TxStepped(k, a, w, Plan(planned.value));
    PlanReserves(db, w.db, planned.value);
    PlanTx(db, planned.value);
    NoneUnplanned(db, w.db, w.truth, ids, batchSize, limits.maxBatchBytes);
    if planned.value != [] { PlanKeepsBatches(RegisterTaskRoot(db), planned.value); }
    ok := true;
  }

  lemma PlanReserves(db: Db, db': Db, chunks: seq<Chunk>)
    requires Consistent(db) && Attempt(db, Plan(chunks)) == Some(db') && NothingStaged(db)
    ensures NothingStaged(db') && Reserved(db') == Reserved(db)
  {
    PlanTx(db, chunks);
    PlanKeeps(db, chunks);
    PlanAddsNoFile(db, chunks);
    PlannedAlike(db, db');
  }

  /** Nothing found is left unplanned, and work that was left still is. */
  lemma NoneUnplanned(db: Db, db': Db, truth: Truth, ids: seq<FileId>, maxFiles: nat, maxBytes: nat)
    requires Consistent(db) && 0 < maxFiles && 0 < maxBytes && PlanningStore.Lists(db, ids)
    requires Attempt(db, Plan(PlanningStore.PlanOf(truth, db, ids, maxFiles, maxBytes))) == Some(db')
    ensures AllPlanned(db') && (WorkLeft(db) ==> WorkLeft(db'))
  {
    hide Attempt, PlanAll, Consistent, PlanningStore.PlanOf;
    var chunks := PlanningStore.PlanOf(truth, db, ids, maxFiles, maxBytes);
    PlanTx(db, chunks);
    PlanKeeps(db, chunks);
    PlanAddsNoFile(db, chunks);
    forall f | f in db'.files ensures !db'.files[f].status.Discovered? {
      assert f in db.files && AtMostPlanned(db.files[f].status, db'.files[f].status);
      if db.files[f].status.Discovered? { PlanningStore.DiscoveredArePlanned(truth, db, ids, maxFiles, maxBytes, f); }
    }
    if WorkLeft(db) {
      var f :| f in db.files && BeforeDownload(db.files[f].status);
      assert f in db'.files && AtMostPlanned(db.files[f].status, db'.files[f].status);
    }
  }

  /** Planning leaves the batches there are alone. */
  lemma {:induction false} PlanKeepsBatches(db: Db, chunks: seq<Chunk>)
    requires PlanChunks(db, chunks).Some?
    ensures forall b :: b in db.batches ==> b in PlanChunks(db, chunks).value.batches && PlanChunks(db, chunks).value.batches[b] == db.batches[b]
  {
    if chunks != [] { PlanKeepsBatches(db, chunks[..|chunks| - 1]); }
  }

  lemma PlanTx(db: Db, chunks: seq<Chunk>)
    ensures Attempt(db, Plan(chunks)) == PlanAll(db, chunks)
  {
  }

  lemma PlannedAlike(db: Db, db': Db)
    requires Forward(db, db') && Settled(db, db') && db'.files.Keys == db.files.Keys && NothingStaged(db)
    ensures NothingStaged(db') && Reserved(db') == Reserved(db)
  {
    forall f | f in db.files
      ensures db'.files[f].size == db.files[f].size && !db'.files[f].status.BaiduStaged?
      ensures HoldsCache(db'.files[f].status) <==> HoldsCache(db.files[f].status)
    {
      assert RowForward(db.files[f], db'.files[f]) && AtMostPlanned(db.files[f].status, db'.files[f].status);
    }
    forall f | f in db'.files ensures !db'.files[f].status.BaiduStaged? { assert f in db.files; }
    forall f ensures f in Caching(db') <==> f in Caching(db) { assert f in db'.files <==> f in db.files; }
    assert Caching(db') == Caching(db);
    SizeSumSameSizes(db.files, db'.files, Caching(db));
  }

  /** StageRunner.Run with one batch a pass: the capacity offered is never exceeded, and success means
      that the first batch there was to stage is staged. */
  method Run(w: World, ghost k: Rules, limits: StageLimits) returns (r: StageResult, ghost first: Option<BatchId>)
    requires w.Valid() && Governs(k, w) && NothingStaged(w.db) && WorkLeft(w.db) && w.db.task.scanCompleted
    requires limits.maxBatchBytes > 0 && Reserved(w.db) + limits.maxBatchBytes <= k.maxCache
    modifies w
    ensures w.Valid() && Governs(k, w) && Lawfully(k, old(w.History()), w.History())
    ensures r.Staged? && first.Some? ==> StagedUp(w.db, first.value)
    ensures first.Some? && first.value in old(w.db).batches ==> StageableBatch(old(w.db).batches[first.value].status)
    ensures r.Staged? && first.None? ==> Stageable(w.db) == {}
  {
    hide Lawfully, Step, Reserved, FirstFits, NothingStaged, AllPlanned, WorkLeft, StagedUp;
    ghost var a := w.History();
    first := None;
    var ok := PlanPass(w, k, limits);
    if !ok { return StageFailed, first; }
    var pending := StagingBatches(w, 0);
    if pending.None? { return StageFailed, first; }
    FirstListed(w.db, pending.value, 0);
    if pending.value != [] {
      assert IsStagingBatch(w.db, pending.value[0]);
      first := Some(pending.value[0].batch);
      assert IsFirst(w.db, first.value);
    }
    r := Admit(pending.value, 1, limits.maxCacheBytes, limits.maxBatchBytes);
    ghost var b := w.History();
    if !r.Staged? {
      var noted := NoteStatus(w, k, if r.TooLarge? then TaskBlocked else TaskPaused);
      LawfullyThen(k, a, b, w.History());
      return;
    }
    AdmittedFits(k, w, pending.value, limits.maxBatchBytes);
    ghost var db := w.db;
    ok := NoteStatus(w, k, TaskRunning);
    LawfullyThen(k, a, b, w.History());
    FitsAnyTask(k, db, w.db);
    SameStageable(db, w.db);
    if !ok { return StageFailed, first; }
    ghost var c := w.History();
    var done := StageSessions(w, k, limits.maxAttempts);
    LawfullyThen(k, a, c, w.History());
    ghost var d, sent := w.History(), w.db;
    var blocked: bool := *;
    ok := NoteStatus(w, k, if !done && blocked then TaskBlocked else TaskPaused);
    LawfullyThen(k, a, d, w.History());
    SameStageable(sent, w.db);
    r := if done && ok then Staged else StageFailed;
  }

  lemma SameStageable(db: Db, db': Db)
    requires db' == db.(task := db'.task)
    ensures Stageable(db') == Stageable(db)
    ensures forall b :: (IsFirst(db', b) <==> IsFirst(db, b)) && (StagedUp(db', b) <==> StagedUp(db, b))
  {
    forall b ensures FilesOf(db', b) == FilesOf(db, b) {}
  }

  /** The session loop: one more login, and one more executor run, after an expired session. */
  method StageSessions(w: World, ghost k: Rules, maxAttempts: int) returns (done: bool)
    requires w.Valid() && Governs(k, w) && FirstFits(k, w.db)
    modifies w
    ensures w.Valid() && Governs(k, w) && Lawfully(k, old(w.History()), w.History())
    ensures done ==> forall b :: IsFirst(old(w.db), b) ==> StagedUp(w.db, b)
    ensures Stageable(old(w.db)) == {} ==> w.db == old(w.db)
  {
    hide Lawfully, Step, FirstFits, IsFirst, StagedUp;
    Idle(k, w.History());
    done := false;
    var sessionAttempt := 0;
    while sessionAttempt < 2
      invariant w.Valid() && Governs(k, w) && Lawfully(k, old(w.History()), w.History()) && FirstFits(k, w.db)
      invariant forall b :: IsFirst(old(w.db), b) ==> IsFirst(w.db, b)
      invariant Stageable(old(w.db)) == {} ==> w.db == old(w.db)
      decreases 2 - sessionAttempt
    {
      var authRequired: bool := *;
      var prepared: bool := *;
      if prepared {
        ghost var b := w.History();
        var outcome := ExecutorRun(w, k, maxAttempts);
        LawfullyThen(k, old(w.History()), b, w.History());
        if outcome.Ok? { return true; }
        if outcome.permanent { return false; }
      }
      if !authRequired { return false; }
      sessionAttempt := sessionAttempt + 1;
    }
  }
}
