/** The counters the scheduler decides by (internal/state/pipeline_store.go) and what they say about the tables. */
module Progresses {
  import opened Wrappers
  import opened Model
  import opened Tables
  import opened Transactions
  import Counting

  /** The result of GROUP BY status: only statuses that occur are present. */
  datatype Progress = Progress(
    scanIncomplete: bool, total: nat, counts: map<FileStatus, nat>, reservedCache: nat,
    driveRootReady: bool, rootRegistered: bool, rootCleaned: bool) {

    function Count(s: FileStatus): nat {
      if s in counts then counts[s] else 0
    }

    predicate FilesDone() {
      total == 0 || Count(Done) == total
    }

    predicate Complete() {
      FilesDone() && driveRootReady && (!rootRegistered || rootCleaned)
    }

    predicate HasDriveWork() {
      Count(LocalReady) + Count(DriveUploading) + Count(DriveUploaded) > 0
    }

    predicate HasDownloadWork() {
      Count(BaiduStaged) + Count(Downloading) > 0
    }

    predicate HasStageWork() {
      Count(Discovered) + Count(Planned) + Count(BaiduStaging) > 0
    }

    predicate HasCleanupWork() {
      Count(DriveVerified) + Count(CleanupPending) > 0 || (FilesDone() && rootRegistered && !rootCleaned)
    }
  }

  function WithStatus(db: Db, s: FileStatus): set<FileId> {
    set f | f in db.files && db.files[f].status == s
  }

  function Statuses(db: Db): set<FileStatus> {
    set f | f in db.files :: db.files[f].status
  }

  function Caching(db: Db): set<FileId> {
    set f | f in db.files && HoldsCache(db.files[f].status)
  }

  /** ReservedCacheBytes: the full size of every file that has to stay in the cache. */
  function Reserved(db: Db): nat {
    SizeSum(db.files, Caching(db))
  }

  function RootReady(db: Db): bool {
    db.task.driveRootId != "" && db.task.driveRootName != ""
  }

  function ProgressOf(db: Db): Progress {
    Progress(!db.task.scanCompleted, |db.files|, map s | s in Statuses(db) :: |WithStatus(db, s)|, Reserved(db),
             RootReady(db), BaiduTaskRoot in db.owned, BaiduTaskRoot in db.owned && db.owned[BaiduTaskRoot].cleaned)
  }

  lemma CountMeans(db: Db, s: FileStatus)
    ensures ProgressOf(db).Count(s) == |WithStatus(db, s)|
    ensures ProgressOf(db).Count(s) > 0 <==> exists f :: f in db.files && db.files[f].status == s
  {
    if exists f :: f in db.files && db.files[f].status == s {
      var f :| f in db.files && db.files[f].status == s;
      assert s in Statuses(db) && f in WithStatus(db, s);
    } else {
      forall f ensures f !in WithStatus(db, s) {}
      assert WithStatus(db, s) == {};
    }
  }

  /** Done == Total says that every single file is DONE. */
  lemma FilesDoneMeans(db: Db)
    ensures ProgressOf(db).FilesDone() <==> AllDone(db)
  {
    CountMeans(db, Done);
    assert WithStatus(db, Done) <= db.files.Keys && |db.files| == |db.files.Keys|;
    if ProgressOf(db).FilesDone() {
      if db.files.Keys != {} { Counting.SubsetOfSameSize(WithStatus(db, Done), db.files.Keys); }
      forall f | f in db.files ensures db.files[f].status.Done? { assert f in WithStatus(db, Done); }
    }
    if AllDone(db) {
      forall f | f in db.files ensures f in WithStatus(db, Done) {}
      assert WithStatus(db, Done) == db.files.Keys;
    }
  }

  predicate CompleteDb(db: Db) {
    AllDone(db) && RootReady(db) && (BaiduTaskRoot in db.owned ==> db.owned[BaiduTaskRoot].cleaned)
  }

  lemma CompleteMeans(db: Db)
    ensures ProgressOf(db).Complete() <==> CompleteDb(db)
  {
    FilesDoneMeans(db);
  }

  // ----- progress is measured by ranks ---------------------------------------

  function RankSum(files: map<FileId, FileRow>, ids: set<FileId>): nat
    requires ids <= files.Keys
  {
    if ids == {} then 0
    else
      var m := Least(ids);
      Rank(files[m].status) + RankSum(files, ids - {m})
  }

  lemma {:induction false} RankSumBound(files: map<FileId, FileRow>, ids: set<FileId>)
    requires ids <= files.Keys
    ensures RankSum(files, ids) <= 10 * |ids|
    decreases |ids|
  {
    if ids != {} { RankSumBound(files, ids - {Least(ids)}); }
  }

  /** Ranks that only rise make the sum rise, strictly unless no rank changed at all. */
  lemma {:induction false} RankSumGrows(f: map<FileId, FileRow>, g: map<FileId, FileRow>, ids: set<FileId>)
    requires ids <= f.Keys && ids <= g.Keys
    requires forall i :: i in ids ==> Rank(f[i].status) <= Rank(g[i].status)
    ensures RankSum(f, ids) <= RankSum(g, ids)
    ensures RankSum(f, ids) == RankSum(g, ids) ==> forall i :: i in ids ==> Rank(f[i].status) == Rank(g[i].status)
    decreases |ids|
  {
    if ids != {} {
      var m := Least(ids);
      RankSumGrows(f, g, ids - {m});
      if RankSum(f, ids) == RankSum(g, ids) {
        forall i | i in ids ensures Rank(f[i].status) == Rank(g[i].status) { assert i == m || i in ids - {m}; }
      }
    }
  }

  function Bit(b: bool): nat { if b then 1 else 0 }

  /** What a pass of the scheduler can add to: all ranks, and the three task facts. */
  function Advance(db: Db): nat {
    RankSum(db.files, db.files.Keys) + Bit(RootReady(db)) + Bit(BaiduTaskRoot in db.owned)
    + Bit(BaiduTaskRoot in db.owned && db.owned[BaiduTaskRoot].cleaned)
  }

  lemma AdvanceBound(db: Db)
    ensures Advance(db) <= 10 * |db.files| + 3
  {
    RankSumBound(db.files, db.files.Keys);
    assert |db.files| == |db.files.Keys|;
  }

  lemma SameStatusesSameProgress(db: Db, db': Db)
    requires db'.files.Keys == db.files.Keys && db'.task.scanCompleted == db.task.scanCompleted
    requires forall f :: f in db.files ==> db'.files[f].status == db.files[f].status && db'.files[f].size == db.files[f].size
    requires RootReady(db') == RootReady(db) && (BaiduTaskRoot in db'.owned <==> BaiduTaskRoot in db.owned)
    requires BaiduTaskRoot in db.owned ==> db'.owned[BaiduTaskRoot].cleaned == db.owned[BaiduTaskRoot].cleaned
    ensures ProgressOf(db') == ProgressOf(db)
  {
    forall f ensures f in Caching(db') <==> f in Caching(db) { assert f in db'.files.Keys <==> f in db.files.Keys; }
    assert Caching(db') == Caching(db);
    SizeSumSameSizes(db.files, db'.files, Caching(db));
    forall s ensures WithStatus(db', s) == WithStatus(db, s) {
      forall f ensures f in WithStatus(db', s) <==> f in WithStatus(db, s) { assert f in db'.files.Keys <==> f in db.files.Keys; }
    }
    assert Statuses(db') == Statuses(db);
    assert |db'.files| == |db'.files.Keys| && |db.files| == |db.files.Keys|;
    assert ProgressOf(db').counts == ProgressOf(db).counts;
  }

  predicate Counted(s: FileStatus) {
    !s.FailedRetryable? && !s.FailedPermanent?
  }

  /** As long as nothing failed for good, different counters mean that something advanced. */
  lemma ProgressAdvances(db: Db, db': Db)
    requires db'.files.Keys == db.files.Keys && db'.task.scanCompleted == db.task.scanCompleted
    requires forall f :: f in db.files ==>
               && Counted(db.files[f].status) && Counted(db'.files[f].status) && Rank(db.files[f].status) <= Rank(db'.files[f].status)
               && db'.files[f].size == db.files[f].size
    requires RootReady(db) ==> RootReady(db')
    requires BaiduTaskRoot in db.owned ==> BaiduTaskRoot in db'.owned && (db.owned[BaiduTaskRoot].cleaned ==> db'.owned[BaiduTaskRoot].cleaned)
    ensures Advance(db) <= Advance(db')
    ensures ProgressOf(db') != ProgressOf(db) ==> Advance(db) < Advance(db')
  {
    RankSumGrows(db.files, db'.files, db.files.Keys);
    if Advance(db') == Advance(db) {
      forall f | f in db.files ensures db'.files[f].status == db.files[f].status {
        assert Rank(db.files[f].status) == Rank(db'.files[f].status);
      }
      SameStatusesSameProgress(db, db');
    }
  }
}
