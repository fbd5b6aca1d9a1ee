/** The cache bound: nothing but staging adds to what the cache may come to hold, and staging
    is admitted only within the bound (internal/app/stage.go, internal/download/engine.go). */
module Capacity {
  import opened Wrappers
  import opened Model
  import opened Tables
  import opened Transactions
  import opened Invariant
  import opened Runs
  import opened Durable
  import opened Progresses
  import opened Laws

  /** No file newly staged or cached; sizes as they were. */
  ghost predicate NoneAdded(db: Db, db': Db) {
    && db.files.Keys <= db'.files.Keys
    && (forall f :: f in Cacheable(db') ==> f in Cacheable(db))
    && forall f :: f in db.files ==> db'.files[f].size == db.files[f].size
  }

  lemma NoneAddedBounds(db: Db, db': Db)
    requires NoneAdded(db, db')
    ensures Potential(db') <= Potential(db)
  {
    forall f | f in Cacheable(db') ensures f in db.files { assert f in Cacheable(db); }
    SizeSumSameSizes(db.files, db'.files, Cacheable(db'));
    SizeSumMonotone(db.files, Cacheable(db'), Cacheable(db));
  }

  lemma UpdateAddsNone(db: Db, f: FileId, row: FileRow, db': Db)
    requires f in Cacheable(db) && db'.files == db.files[f := row] && row.size == db.files[f].size
    ensures NoneAdded(db, db')
  {
  }

  lemma PageAddsNone(db: Db, db': Db)
    requires Consistent(db) && Evolves(db, db') && Invariant.Settled(db, db')
    requires forall f :: f in db'.files && f !in db.files ==> db'.files[f].status.Discovered?
    ensures NoneAdded(db, db')
  {
    forall f | f in db.files ensures db'.files[f].size == db.files[f].size { assert RowEvolves(db.files[f], db'.files[f]); }
    forall f | f in Cacheable(db') ensures f in Cacheable(db) {
      if f in db.files { assert AtMostPlanned(db.files[f].status, db'.files[f].status); }
    }
  }

  lemma {:induction false} ManifestAddsNone(db: Db, op: Op)
    requires Consistent(db) && (op.UpsertPage? || op.Plan?) && Attempt(db, op).Some?
    ensures NoneAdded(db, Attempt(db, op).value)
  {
    hide NoneAdded, Consistent, Evolves, UpsertManifest, PlanAll, Invariant.Settled;
    var db' := Attempt(db, op).value;
    OpKeeps(db, op);
    FoldsSettle(db, op);
    assert Exec(db, op) == db';
    forall f | f in db'.files && f !in db.files ensures db'.files[f].status.Discovered? { NewFilesDiscovered(db, db', f); }
    PageAddsNone(db, db');
  }

  lemma FoldsSettle(db: Db, op: Op)
    requires Consistent(db) && (op.UpsertPage? || op.Plan?) && Attempt(db, op).Some?
    ensures Invariant.Settled(db, Attempt(db, op).value) && Next(db, Attempt(db, op).value)
  {
    if op.UpsertPage? { UpsertManifestKeeps(db, op.dirs, op.files); } else { PlanKeeps(db, op.chunks); }
    assert Attempt(db, op).value == Exec(db, op);
  }

  predicate RewritesOneFile(op: Op) {
    || op.StartDownload? || op.DownloadFailure? || op.StartDriveUpload? || op.RecordUploaded? || op.MarkVerified? || op.DriveFailure?
  }

  lemma FileAddsNone(db: Db, op: Op)
    requires Attempt(db, op).Some? && RewritesOneFile(op)
    ensures NoneAdded(db, Attempt(db, op).value)
  {
    hide NoneAdded;
    var db' := Attempt(db, op).value;
    UpdateAddsNone(db, op.file, db'.files[op.file], db');
  }

  lemma ColumnsAddNone(db: Db, op: Op)
    requires Attempt(db, op).Some? && !op.UpsertPage? && !op.Plan? && !op.RecordStaged?
    ensures NoneAdded(db, Attempt(db, op).value)
  {
    if RewritesOneFile(op) {
      hide NoneAdded, Attempt;
      FileAddsNone(db, op);
    } else if op.MarkLocalReady? {
      hide NoneAdded;
      MarkReadyAddsNone(db, op.file, Attempt(db, op).value);
    }
  }

  lemma MarkReadyAddsNone(db: Db, f: FileId, db': Db)
    requires f in db.files && (AwaitsDownload(db.files[f].status) || db.files[f].status.LocalReady?)
    requires db'.files == db.files[f := db.files[f].(status := LocalReady, cachePath := BinFile(f))]
    ensures NoneAdded(db, db')
  {
  }

  /** Every transaction but the recording of staged files leaves the potential where it was or lower. */
  lemma OnlyStagingAdds(db: Db, op: Op)
    requires Consistent(db) && Attempt(db, op).Some? && !op.RecordStaged?
    ensures Potential(Attempt(db, op).value) <= Potential(db)
  {
    hide Consistent, NoneAdded, Attempt;
    if op.UpsertPage? || op.Plan? { ManifestAddsNone(db, op); } else { ColumnsAddNone(db, op); }
    NoneAddedBounds(db, Attempt(db, op).value);
  }

  /** In every state of every lawful run, whatever failed or crashed in between, the files in the
      cache together with those free to be downloaded fit into it. */
  lemma {:induction false} PotentialBounded(k: Rules, states: seq<Snap>, moves: seq<Move>, i: nat)
    requires IsRun(states, moves) && LawfulFrom(k, states, moves, 0) && i <= |moves|
    ensures Potential(states[i].db) <= k.maxCache
  {
    if i == 0 {
      EmptyPotential(states[0].db.task.id);
    } else {
      PotentialBounded(k, states, moves, i - 1);
      assert Lawful(k, states, moves, i - 1);
      assert Step(states[i - 1], moves[i - 1], states[i - 1 + 1]);
      RunOfStore(states, moves);
      RunConsistent(Dbs(states), i - 1);
      PotentialStep(k, states, moves, i - 1);
    }
  }

  lemma EmptyPotential(id: string)
    ensures Potential(EmptyDb(id)) == 0
  {
    assert Cacheable(EmptyDb(id)) == {};
  }

  lemma PotentialStep(k: Rules, states: seq<Snap>, moves: seq<Move>, i: nat)
    requires |states| == |moves| + 1 && i < |moves| && Lawful(k, states, moves, i) && Step(states[i], moves[i], states[i + 1])
    requires Consistent(states[i].db) && Potential(states[i].db) <= k.maxCache
    ensures Potential(states[i + 1].db) <= k.maxCache
  {
    hide Consistent, Potential;
    if moves[i].Tx? {
      var op := moves[i].op;
      if op.RecordStaged? {
        RecordStagedTx(states[i].db, op);
      } else {
        OnlyStagingAdds(states[i].db, op);
      }
    }
  }

  lemma RecordStagedTx(db: Db, op: Op)
    requires op.RecordStaged? && Attempt(db, op).Some?
    ensures Attempt(db, op).value == AfterRecordStaged(db, op.staged)
  {
  }

  /** A staged file always still fits: the download engine's own check can only pass. */
  lemma StagedFileFits(db: Db, f: FileId)
    requires f in db.files && db.files[f].status.BaiduStaged?
    ensures Reserved(db) + db.files[f].size <= Potential(db)
  {
    SizeSumUnion(db.files, Caching(db), {f});
    SizeSumRemove(db.files, {f}, f);
    assert {f} - {f} == {};
    SizeSumMonotone(db.files, Caching(db) + {f}, Cacheable(db));
  }
}
