/** The counting gates of the cleanup transactions: equal COUNT(*) results stand
    for statements about every row. */
module Counting {
  import opened Model
  import opened Tables
  import opened Transactions

  lemma SubsetOfSameSize<T>(a: set<T>, b: set<T>)
    requires a <= b && |a| == |b|
    ensures a == b
  {
    assert a + (b - a) == b;
    assert |b - a| == 0;
  }

  lemma SubsetCardinality<T>(a: set<T>, b: set<T>)
    requires a <= b
    ensures |a| <= |b|
  {
    assert a + (b - a) == b;
  }

  lemma {:induction false} DistinctSize<T>(s: seq<T>)
    requires Distinct(s)
    ensures |set x | x in s| == |s|
  {
    if s == [] {
      assert (set x | x in s) == {};
    } else {
      var n := |s| - 1;
      DistinctSize(s[..n]);
      assert s == s[..n] + [s[n]];
      assert (set x | x in s) == (set x | x in s[..n]) + {s[n]};
    }
  }

  /** SELECT COUNT(*) over local_cache_file rows whose object_id is in ids: the primary key makes rows and IDs correspond. */
  function LocalRows(db: Db, ids: set<FileId>): set<OwnedKey> {
    set k | k in db.owned && k.LocalCacheFile? && k.file in ids
  }

  /** The cleaned baidu_batch_dir rows. */
  function CleanedBatchRows(db: Db): set<OwnedKey> {
    set k | k in db.owned && k.BaiduBatchDir? && db.owned[k].allowed && db.owned[k].cleaned
  }

  /** Batch and local rows of a batch that are not both permitted and cleaned. */
  function IncompleteRows(db: Db, b: BatchId): set<OwnedKey> {
    set k | k in db.owned
            && (k == BaiduBatchDir(b) || (k.LocalCacheFile? && k.file in FilesOf(db, b)))
            && (!db.owned[k].allowed || !db.owned[k].cleaned)
  }

  function UnfinishedFiles(db: Db): set<FileId> {
    set f | f in db.files && !db.files[f].status.Done?
  }

  lemma {:induction false} FileKeysCount(ids: set<FileId>)
    ensures |set f | f in ids :: LocalCacheFile(f)| == |ids|
    decreases |ids|
  {
    var keys := set f | f in ids :: LocalCacheFile(f);
    if ids == {} {
      assert keys == {};
    } else {
      var m := Least(ids);
      var rest := set f | f in ids - {m} :: LocalCacheFile(f);
      FileKeysCount(ids - {m});
      assert keys == rest + {LocalCacheFile(m)};
    }
  }

  lemma {:induction false} BatchKeysCount(ids: set<BatchId>)
    ensures |set b | b in ids :: BaiduBatchDir(b)| == |ids|
    decreases |ids|
  {
    var keys := set b | b in ids :: BaiduBatchDir(b);
    if ids == {} {
      assert keys == {};
    } else {
      var m: BatchId := Least(set b | b in ids :: b as int);
      var rest := set b | b in ids - {m} :: BaiduBatchDir(b);
      BatchKeysCount(ids - {m});
      assert keys == rest + {BaiduBatchDir(m)};
    }
  }

  /** As many local provenance rows as files means one row for each file. */
  lemma LocalCountGate(db: Db, ids: set<FileId>)
    ensures |LocalRows(db, ids)| == |ids| <==> forall f :: f in ids ==> LocalCacheFile(f) in db.owned
  {
    var keys := set f | f in ids :: LocalCacheFile(f);
    FileKeysCount(ids);
    assert LocalRows(db, ids) <= keys;
    if |LocalRows(db, ids)| == |ids| {
      SubsetOfSameSize(LocalRows(db, ids), keys);
      forall f | f in ids ensures LocalCacheFile(f) in db.owned { assert LocalCacheFile(f) in keys; }
    }
    if forall f :: f in ids ==> LocalCacheFile(f) in db.owned {
      assert LocalRows(db, ids) == keys;
    }
  }

  /** Counting the files outside CLEANUP_PENDING. */
  lemma PendingCount(db: Db, b: BatchId)
    ensures |set f | f in FilesOf(db, b) && f in db.files && !db.files[f].status.CleanupPending?| == 0
            <==> forall f :: f in FilesOf(db, b) && f in db.files ==> db.files[f].status.CleanupPending?
  {
    var outside := set f | f in FilesOf(db, b) && f in db.files && !db.files[f].status.CleanupPending?;
    if |outside| == 0 {
      assert outside == {};
      forall f | f in FilesOf(db, b) && f in db.files ensures db.files[f].status.CleanupPending? { assert f !in outside; }
    }
    if forall f :: f in FilesOf(db, b) && f in db.files ==> db.files[f].status.CleanupPending? {
      assert outside == {};
    }
  }

  /** The four counts of CompleteBatchCleanup together say that every file of the batch is
      CLEANUP_PENDING with its own permitted and cleaned row, and so is the batch's row. */
  lemma CompletionGate(db: Db, b: BatchId)
    requires FilesOf(db, b) <= db.files.Keys
    ensures (&& (forall f :: f in FilesOf(db, b) ==> db.files[f].status.CleanupPending?)
             && |FilesOf(db, b)| != 0
             && |LocalRows(db, FilesOf(db, b))| == |FilesOf(db, b)|
             && BaiduBatchDir(b) in db.owned
             && |IncompleteRows(db, b)| == 0)
            <==> CanCompleteCleanup(db, b)
  {
    LocalCountGate(db, FilesOf(db, b));
    var incomplete := IncompleteRows(db, b);
    if |incomplete| == 0 {
      assert incomplete == {};
      assert BaiduBatchDir(b) in db.owned ==> BaiduBatchDir(b) !in incomplete;
      forall f | f in FilesOf(db, b) && LocalCacheFile(f) in db.owned ensures Cleaned(db, LocalCacheFile(f)) {
        assert LocalCacheFile(f) !in incomplete;
      }
    }
    if CanCompleteCleanup(db, b) {
      forall k ensures k !in incomplete {}
      assert incomplete == {};
    }
  }

  /** Where only planner-registered batches have provenance, equal counts mean every single batch is cleaned. */
  lemma RootCountGate(db: Db)
    requires forall b :: BaiduBatchDir(b) in db.owned ==> b in db.batches
    ensures |db.batches| == |CleanedBatchRows(db)| <==> AllBatchesCleaned(db)
  {
    var keys := set b | b in db.batches.Keys :: BaiduBatchDir(b);
    BatchKeysCount(db.batches.Keys);
    assert |db.batches| == |db.batches.Keys|;
    assert CleanedBatchRows(db) <= keys;
    if |db.batches| == |CleanedBatchRows(db)| {
      SubsetOfSameSize(CleanedBatchRows(db), keys);
      forall b | b in db.batches ensures Cleaned(db, BaiduBatchDir(b)) { assert BaiduBatchDir(b) in keys; }
    }
    if AllBatchesCleaned(db) {
      forall k | k in keys ensures k in CleanedBatchRows(db) {}
      assert CleanedBatchRows(db) == keys;
    }
  }
}
