/** The staging transactions of internal/state/staging_store.go. */
module StagingStore {
  import opened Wrappers
  import opened Model
  import opened Tables
  import opened Transactions
  import opened Durable
  import opened Worlds

  /** A batch row with its files, as StagingBatches reads them. */
  datatype StagingBatch = StagingBatch(batch: BatchId, row: BatchRow, files: seq<FileId>, rows: map<FileId, FileRow>)

  ghost predicate IsStagingBatch(db: Db, s: StagingBatch) {
    && s.batch in db.batches && s.row == db.batches[s.batch] && StageableBatch(s.row.status)
    && Distinct(s.files) && (forall f :: f in s.files <==> f in FilesOf(db, s.batch))
    && (forall f :: f in s.files ==> f in s.rows && f in db.files && s.rows[f] == db.files[f])
  }

  function Stageable(db: Db): set<BatchId> {
    set b | b in db.batches && StageableBatch(db.batches[b].status)
  }

  /** The next one a staging pass takes up. */
  predicate IsFirst(db: Db, b: BatchId) {
    b in Stageable(db) && forall c :: c in Stageable(db) ==> b <= c
  }

  /** batchFiles. */
  method BatchFiles(w: World, b: BatchId) returns (files: seq<FileId>, rows: map<FileId, FileRow>)
    requires w.Valid()
    ensures Distinct(files) && forall f :: f in files <==> f in FilesOf(w.db, b)
    ensures forall f :: f in files ==> f in rows && f in w.db.files && rows[f] == w.db.files[f]
  {
    w.MembersAreFiles();
    files := Enumerate(FilesOf(w.db, b));
    assert forall f :: f in files ==> f in w.db.files;
    rows := map f | f in files :: w.db.files[f];
  }

  predicate Listed(batches: seq<StagingBatch>, b: BatchId) {
    exists i :: 0 <= i < |batches| && batches[i].batch == b
  }

  lemma ListedOn(batches: seq<StagingBatch>, next: StagingBatch)
    ensures forall b :: Listed(batches + [next], b) <==> Listed(batches, b) || b == next.batch
  {
    forall b ensures Listed(batches + [next], b) <==> Listed(batches, b) || b == next.batch {
      if Listed(batches, b) {
        var i :| 0 <= i < |batches| && batches[i].batch == b;
        assert (batches + [next])[i].batch == b;
      }
      assert (batches + [next])[|batches|] == next;
    }
  }

  /** The first batch listed is the least one there is. */
  lemma FirstListed(db: Db, batches: seq<StagingBatch>, maxBatches: nat)
    requires forall i :: 0 <= i < |batches| ==> IsStagingBatch(db, batches[i])
    requires forall i, j :: 0 <= i < j < |batches| ==> batches[i].batch < batches[j].batch
    requires forall b :: b in Stageable(db) && !Listed(batches, b) ==> 0 < maxBatches == |batches| && forall i :: 0 <= i < |batches| ==> batches[i].batch < b
    ensures batches == [] <==> Stageable(db) == {}
    ensures batches != [] ==> forall b :: b in Stageable(db) ==> batches[0].batch <= b
  {
    if batches == [] {
      forall b ensures b !in Stageable(db) {}
    } else {
      assert batches[0].batch in Stageable(db);
    }
  }

  /** The batches still to be staged, by batch ID; limitedStagingRepository keeps only the first maxBatches. */
  method StagingBatches(w: World, maxBatches: nat) returns (r: Option<seq<StagingBatch>>)
    requires w.Valid()
    ensures r.Some? ==> forall i :: 0 <= i < |r.value| ==> IsStagingBatch(w.db, r.value[i])
    ensures r.Some? ==> (forall i, j :: 0 <= i < j < |r.value| ==> r.value[i].batch < r.value[j].batch)
    ensures r.Some? ==> forall b :: b in Stageable(w.db) && !Listed(r.value, b) ==>
              0 < maxBatches == |r.value| && forall i :: 0 <= i < |r.value| ==> r.value[i].batch < b
    ensures r.Some? && maxBatches > 0 ==> |r.value| <= maxBatches
  {
    var failed := w.Fails();
    if failed { return None; }
    var rest := Stageable(w.db);
    var found: seq<StagingBatch> := [];
    while rest != {} && (maxBatches == 0 || |found| < maxBatches)
      invariant rest <= Stageable(w.db) && (maxBatches > 0 ==> |found| <= maxBatches)
      invariant forall i :: 0 <= i < |found| ==> IsStagingBatch(w.db, found[i])
      invariant forall i, j :: 0 <= i < j < |found| ==> found[i].batch < found[j].batch
      invariant forall b :: b in Stageable(w.db) ==> b in rest || Listed(found, b)
      invariant forall b, i :: b in rest && 0 <= i < |found| ==> found[i].batch < b
      decreases rest
    {
      var m: BatchId := Least(rest);
      assert m in Stageable(w.db);
      var files, rows := BatchFiles(w, m);
      ListedOn(found, StagingBatch(m, w.db.batches[m], files, rows));
      found := found + [StagingBatch(m, w.db.batches[m], files, rows)];
      rest := rest - {m};
    }
    r := Some(found);
  }

  method StartBatch(w: World, b: BatchId) returns (ok: bool)
    requires w.Valid()
    modifies w
    ensures w.Valid() && (if ok then w.Committed(Op.StartBatch(b)) else w.Same())
    ensures w.quiet && CanStartBatch(old(w.db), b) ==> ok
  {
    var failed := w.Fails();
    var changed := if b in w.db.batches && StageableBatch(w.db.batches[b].status) then 1 else 0;
    if failed || changed != 1 { return false; }
    w.Commit(Op.StartBatch(b), AfterStartBatch(w.db, b));
    ok := true;
  }

  /** path.Join of a registered batch path and a file name. */
  function JoinStaging(dir: StagingPath, name: string): StagingPath {
    if dir.BatchDir? then StagedFile(dir.batch, name) else NoStaging
  }

  /** The first loop of RecordStagedFiles: every confirmed path must be the derived one of a file of the batch. */
  method ValidateStaged(w: World, b: BatchId, ids: seq<FileId>, staged: map<FileId, StagingPath>) returns (ok: bool)
    requires w.Valid() && b in w.db.batches && w.db.batches[b].stagingPath == BatchDir(b) && forall f :: f in ids ==> f in staged
    ensures ok <==> forall f :: f in ids ==> f in FilesOf(w.db, b) && f in w.db.files && staged[f] == StagedFile(b, Base(w.db.files[f].path))
  {
    w.MembersAreFiles();
    var i := 0;
    while i < |ids|
      invariant 0 <= i <= |ids|
      invariant forall j :: 0 <= j < i ==> ids[j] in staged && ids[j] in FilesOf(w.db, b) && ids[j] in w.db.files && staged[ids[j]] == StagedFile(b, Base(w.db.files[ids[j]].path))
    {
      var f := ids[i];
      assert f in ids;
      if f !in FilesOf(w.db, b) || staged[f] != JoinStaging(w.db.batches[b].stagingPath, Base(w.db.files[f].path)) { return false; }
      i := i + 1;
    }
    ok := true;
  }

  predicate Confirmable(row: FileRow, p: StagingPath) {
    AwaitsStaging(row.status) || (StagedOrLater(row.status) && row.stagingPath == p)
  }

  /** The second loop: waiting files become BAIDU_STAGED; any other must have been confirmed at the same path before. */
  method ConfirmStaged(files: map<FileId, FileRow>, ids: seq<FileId>, staged: map<FileId, StagingPath>)
    returns (r: Option<map<FileId, FileRow>>)
    requires Distinct(ids) && forall f :: f in ids ==> f in staged && f in files
    ensures r.Some? <==> forall f :: f in ids ==> Confirmable(files[f], staged[f])
    ensures r.Some? ==> r.value == map f | f in files :: if f in ids then Confirmed(files[f], staged[f]) else files[f]
  {
    var tx := files;
    var i := 0;
    while i < |ids|
      invariant 0 <= i <= |ids| && tx.Keys == files.Keys
      invariant forall j :: 0 <= j < i ==> ids[j] in files && ids[j] in staged && Confirmable(files[ids[j]], staged[ids[j]])
      invariant forall f :: f in files ==> tx[f] == if f in ids[..i] then Confirmed(files[f], staged[f]) else files[f]
    {
      var f := ids[i];
      assert f in ids && f !in ids[..i] && ids[..i + 1] == ids[..i] + [f];
      var changed := if AwaitsStaging(tx[f].status) then 1 else 0;
      if changed == 1 {
        tx := tx[f := tx[f].(status := BaiduStaged, stagingPath := staged[f])];
      } else if !StagedOrLater(tx[f].status) || tx[f].stagingPath != staged[f] {
        assert !Confirmable(files[f], staged[f]);
        return None;
      }
      i := i + 1;
    }
    assert ids[..i] == ids;
    forall f | f in files ensures tx[f] == if f in ids then Confirmed(files[f], staged[f]) else files[f] {
      assert f in ids <==> f in ids[..i];
    }
    assert tx == map f | f in files :: if f in ids then Confirmed(files[f], staged[f]) else files[f];
    r := Some(tx);
  }

  lemma RecordGate(db: Db, b: BatchId, ids: seq<FileId>, staged: map<FileId, StagingPath>)
    requires staged.Keys != {} && b in db.batches && db.batches[b].stagingPath == BatchDir(b)
    requires forall f :: f in ids <==> f in staged
    ensures CanRecordStaged(db, b, staged) <==>
            && (forall f :: f in ids ==> f in FilesOf(db, b) && f in db.files && staged[f] == StagedFile(b, Base(db.files[f].path)))
            && (forall f :: f in ids ==> f in db.files && Confirmable(db.files[f], staged[f]))
  {
  }

  /** RecordStagedFiles. An empty confirmation touches nothing. */
  method RecordStagedFiles(w: World, b: BatchId, staged: map<FileId, StagingPath>) returns (ok: bool)
    requires w.Valid()
    modifies w
    ensures w.Valid() && (if ok && staged != map[] then w.Committed(RecordStaged(b, staged)) else w.Same())
    ensures staged == map[] ==> ok
    ensures w.quiet && CanRecordStaged(old(w.db), b, staged) ==> ok
  {
    if |staged| == 0 { return true; }
    var failed := w.Fails();
    if failed || b !in w.db.batches { return false; }
    w.PermittedBatch(b);
    var ids := Enumerate(staged.Keys);
    RecordGate(w.db, b, ids, staged);
    ok := ValidateStaged(w, b, ids, staged);
    if !ok { return; }
    var files := ConfirmStaged(w.db.files, ids, staged);
    if files.None? { return false; }
    assert files.value == AfterRecordStaged(w.db, staged).files;
    w.Commit(RecordStaged(b, staged), w.db.(files := files.value));
  }

  lemma RemainingCount(db: Db, b: BatchId)
    ensures |set f | f in FilesOf(db, b) && f in db.files && !StagedOrLater(db.files[f].status)| == 0
            <==> forall f :: f in FilesOf(db, b) && f in db.files ==> StagedOrLater(db.files[f].status)
  {
    var remaining := set f | f in FilesOf(db, b) && f in db.files && !StagedOrLater(db.files[f].status);
    if |remaining| == 0 {
      forall f | f in FilesOf(db, b) && f in db.files ensures StagedOrLater(db.files[f].status) { assert f !in remaining; }
    }
    if forall f :: f in FilesOf(db, b) && f in db.files ==> StagedOrLater(db.files[f].status) {
      assert remaining == {};
    }
  }

  /** CompleteBatch counts the files not yet staged. */
  method CompleteBatch(w: World, b: BatchId) returns (ok: bool)
    requires w.Valid()
    modifies w
    ensures w.Valid() && (if ok then w.Committed(Op.CompleteBatch(b)) else w.Same())
    ensures ok ==> CanCompleteBatch(old(w.db), b)
    ensures w.quiet && CanCompleteBatch(old(w.db), b) ==> ok
  {
    var failed := w.Fails();
    if failed { return false; }
    var remaining := set f | f in FilesOf(w.db, b) && f in w.db.files && !StagedOrLater(w.db.files[f].status);
    RemainingCount(w.db, b);
    if |remaining| != 0 { return false; }
    if b !in w.db.batches { return false; }
    w.Commit(Op.CompleteBatch(b), w.db.(batches := w.db.batches[b := w.db.batches[b].(status := BatchStaged)]));
    ok := true;
  }

  /** FailBatch: a permanent failure overwrites every file status except BAIDU_STAGED. */
  method FailBatch(w: World, b: BatchId, permanent: bool) returns (ok: bool)
    requires w.Valid()
    modifies w
    ensures w.Valid() && (if ok then w.Committed(Op.FailBatch(b, permanent)) else w.Same())
    ensures w.quiet ==> ok
  {
    var failed := w.Fails();
    if failed { return false; }
    var tx := w.db;
    if b in tx.batches {
      var status := if permanent then BatchFailedPermanent else BatchFailedRetryable;
      tx := tx.(batches := tx.batches[b := tx.batches[b].(status := status, retries := tx.batches[b].retries + 1)]);
    }
    if permanent {
      var members := FilesOf(w.db, b);
      tx := tx.(files := map f | f in tx.files ::
        if f in members && !tx.files[f].status.BaiduStaged? then tx.files[f].(status := FailedPermanent) else tx.files[f]);
    }
    assert FilesOf(w.db, b) == set f | f in w.db.members && w.db.members[f].batch == b;
    assert tx == AfterFailBatch(w.db, b, permanent);
    w.Commit(Op.FailBatch(b, permanent), tx);
    ok := true;
  }
}
