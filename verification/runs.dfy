/** Facts about whole runs of the store: any transactions, with any arguments, in
    any order, with a crash and a restart between any two of them. */
module Runs {
  import opened Wrappers
  import opened Model
  import opened Tables
  import opened Transactions
  import opened Invariant

  ghost predicate Next(db: Db, db': Db) {
    db' == db || exists op :: db' == Exec(db, op)
  }

  /** The committed states of a task, from its creation on; a step may leave the tables alone. */
  ghost predicate Run(dbs: seq<Db>) {
    && dbs != [] && dbs[0] == EmptyDb(dbs[0].task.id)
    && forall i {:trigger dbs[i]} :: 0 < i < |dbs| ==> Next(dbs[i - 1], dbs[i])
  }

  lemma NextKeeps(db: Db, db': Db)
    requires Consistent(db) && Next(db, db')
    ensures Consistent(db') && Evolves(db, db')
  {
    if db' == db {
      ForwardReflexive(db);
      SettledEvolves(db, db);
    } else {
      var op :| db' == Exec(db, op);
      OpKeeps(db, op);
    }
  }

  /** The protocol invariant holds in every state of every run. */
  lemma {:induction false} RunConsistent(dbs: seq<Db>, i: nat)
    requires Run(dbs) && i < |dbs|
    ensures Consistent(dbs[i])
  {
    if i > 0 {
      RunConsistent(dbs, i - 1);
      NextKeeps(dbs[i - 1], dbs[i]);
    }
  }

  /** Between any two moments of a run: files keep their identity and a Drive ID once persisted,
      statuses only advance or sink, membership and provenance are never taken back. */
  lemma {:induction false} RunForward(dbs: seq<Db>, i: nat, j: nat)
    requires Run(dbs) && i <= j < |dbs|
    ensures Forward(dbs[i], dbs[j])
    decreases j
  {
    hide Consistent, Evolves, Forward, Next;
    RunConsistent(dbs, i);
    if i == j {
      ForwardReflexive(dbs[i]);
    } else {
      RunForward(dbs, i, j - 1);
      RunConsistent(dbs, j - 1);
      NextKeeps(dbs[j - 1], dbs[j]);
      EvolvesIsForward(dbs[j - 1], dbs[j]);
      ForwardTransitive(dbs[i], dbs[j - 1], dbs[j]);
    }
  }

  /** At moment j the file stood at DRIVE_VERIFIED under this Drive ID. */
  predicate VerifiedAt(dbs: seq<Db>, j: nat, f: FileId, id: DriveId) {
    j < |dbs| && f in dbs[j].files && dbs[j].files[f].status.DriveVerified? && dbs[j].files[f].driveId == id
  }

  /** The file was marked DRIVE_VERIFIED no later than moment i, under a non-empty
      Drive ID that every state from then on still carries. */
  ghost predicate VerifiedForGood(dbs: seq<Db>, i: nat, f: FileId) {
    exists j: nat, id :: j <= i && id != "" && VerifiedAt(dbs, j, f, id)
      && forall k :: j <= k < |dbs| ==> f in dbs[k].files && dbs[k].files[f].driveId == id
  }

  lemma VerifiedNow(dbs: seq<Db>, i: nat, f: FileId)
    requires Run(dbs) && i < |dbs| && f in dbs[i].files && dbs[i].files[f].status.DriveVerified?
    ensures VerifiedForGood(dbs, i, f)
  {
    RunConsistent(dbs, i);
    var id := dbs[i].files[f].driveId;
    assert FileOk(dbs[i], f);
    forall k | i <= k < |dbs| ensures f in dbs[k].files && dbs[k].files[f].driveId == id {
      RunForward(dbs, i, k);
      assert RowForward(dbs[i].files[f], dbs[k].files[f]);
    }
    assert VerifiedAt(dbs, i, f, id);
  }

  /** No file is cleaned up, or done, that was not verified in Drive before. */
  lemma {:induction false} VerifiedBefore(dbs: seq<Db>, i: nat, f: FileId)
    requires Run(dbs) && i < |dbs| && f in dbs[i].files && Verified(dbs[i].files[f].status)
    ensures VerifiedForGood(dbs, i, f)
  {
    hide Consistent, Next, VerifiedAt;
    if dbs[i].files[f].status.DriveVerified? {
      VerifiedNow(dbs, i, f);
    } else {
      RunConsistent(dbs, i - 1);
      NextKeeps(dbs[i - 1], dbs[i]);
      RunEntersVerified(dbs, i, f);
      VerifiedBefore(dbs, i - 1, f);
    }
  }

  lemma RunEntersVerified(dbs: seq<Db>, i: nat, f: FileId)
    requires Run(dbs) && 0 < i < |dbs| && f in dbs[i].files
    requires Verified(dbs[i].files[f].status) && !dbs[i].files[f].status.DriveVerified?
    ensures f in dbs[i - 1].files && Verified(dbs[i - 1].files[f].status)
  {
    RunConsistent(dbs, i - 1);
    NextKeeps(dbs[i - 1], dbs[i]);
    if f in dbs[i - 1].files {
      assert RowEvolves(dbs[i - 1].files[f], dbs[i].files[f]);
    } else {
      RunConsistent(dbs, i);
      assert FileOk(dbs[i], f);
      NewFilesDiscovered(dbs[i - 1], dbs[i], f);
    }
  }

  lemma NewFilesDiscovered(db: Db, db': Db, f: FileId)
    requires Consistent(db) && Next(db, db') && f !in db.files && f in db'.files
    ensures db'.files[f].status.Discovered?
  {
    var op :| db' == Exec(db, op);
    if op.UpsertPage? {
      DirectoriesKeepFiles(db, op.dirs);
      InsertedDiscovered(UpsertDirectories(db, op.dirs).value, op.files, f);
    } else if op.Plan? {
      PlanAddsNoFile(db, op.chunks);
    } else {
      OpInOrder(db, op);
    }
  }

  lemma {:induction false} DirectoriesKeepFiles(db: Db, dirs: seq<Path>)
    requires UpsertDirectories(db, dirs).Some?
    ensures UpsertDirectories(db, dirs).value.files == db.files
  {
    if dirs != [] { DirectoriesKeepFiles(db, dirs[..|dirs| - 1]); }
  }

  lemma {:induction false} InsertedDiscovered(db: Db, files: seq<ManifestFile>, f: FileId)
    requires UpsertFiles(db, files).Some? && f !in db.files && f in UpsertFiles(db, files).value.files
    ensures UpsertFiles(db, files).value.files[f].status.Discovered?
  {
    var before := UpsertFiles(db, files[..|files| - 1]).value;
    if f in before.files {
      InsertedDiscovered(db, files[..|files| - 1], f);
    }
  }

  lemma {:induction false} PlanAddsNoFile(db: Db, chunks: seq<Chunk>)
    requires PlanAll(db, chunks).Some?
    ensures PlanAll(db, chunks).value.files.Keys == db.files.Keys
  {
    if chunks != [] { ChunksAddNoFile(RegisterTaskRoot(db), chunks); }
  }

  lemma {:induction false} ChunksAddNoFile(db: Db, chunks: seq<Chunk>)
    requires PlanChunks(db, chunks).Some?
    ensures PlanChunks(db, chunks).value.files.Keys == db.files.Keys
  {
    if chunks != [] { ChunksAddNoFile(db, chunks[..|chunks| - 1]); }
  }

  /** Permission to delete a batch directory, ever found in the tables, means that every
      file of the batch had been verified in Drive by then, for good. */
  lemma {:induction false} PermissionMeansVerified(dbs: seq<Db>, i: nat, b: BatchId, f: FileId)
    requires Run(dbs) && i < |dbs| && Allowed(dbs[i], BaiduBatchDir(b)) && f in FilesOf(dbs[i], b)
    ensures VerifiedForGood(dbs, i, f)
  {
    hide Consistent, Next, VerifiedAt;
    RunConsistent(dbs, i - 1);
    PermissionStep(dbs[i - 1], dbs[i], b, f);
    if Allowed(dbs[i - 1], BaiduBatchDir(b)) && f in FilesOf(dbs[i - 1], b) {
      PermissionMeansVerified(dbs, i - 1, b, f);
    } else {
      VerifiedBefore(dbs, i - 1, f);
    }
  }

  /** A permission seen after a step was there before, or the file was verified before. */
  lemma PermissionStep(db: Db, db': Db, b: BatchId, f: FileId)
    requires Consistent(db) && Next(db, db') && Allowed(db', BaiduBatchDir(b)) && f in FilesOf(db', b)
    ensures (Allowed(db, BaiduBatchDir(b)) && f in FilesOf(db, b)) || (f in db.files && Verified(db.files[f].status))
  {
    NextKeeps(db, db');
    assert OwnedOk(db', BaiduBatchDir(b));
    if b in db.batches {
      assert FilesOf(db', b) == FilesOf(db, b);
      PermissionOld(db, db', b, f);
    } else {
      NewBatchNotAllowed(db, db', b);
    }
  }

  lemma PermissionOld(db: Db, db': Db, b: BatchId, f: FileId)
    requires PermissionEarned(db, db') && Allowed(db', BaiduBatchDir(b)) && f in FilesOf(db, b)
    ensures Allowed(db, BaiduBatchDir(b)) || (f in db.files && Verified(db.files[f].status))
  {
  }

  lemma NewBatchNotAllowed(db: Db, db': Db, b: BatchId)
    requires Consistent(db) && Next(db, db') && b !in db.batches && b in db'.batches
    ensures !Allowed(db', BaiduBatchDir(b))
  {
    var op :| db' == Exec(db, op);
    if op.Plan? {
      PlanKeeps(db, op.chunks);
      NoRowBeforeBatch(db, b);
    } else if op.UpsertPage? {
      PagesKeepBatches(db, op.dirs, op.files);
    } else {
      OpInOrder(db, op);
    }
  }

  lemma {:induction false} PagesKeepBatches(db: Db, dirs: seq<Path>, files: seq<ManifestFile>)
    requires UpsertManifest(db, dirs, files).Some?
    ensures UpsertManifest(db, dirs, files).value.batches == db.batches
    decreases |dirs| + |files|
  {
    if files != [] {
      PagesKeepBatches(db, dirs, files[..|files| - 1]);
    } else if dirs != [] {
      PagesKeepBatches(db, dirs[..|dirs| - 1], []);
    }
  }

  /** In every state of every run: no path is both a file and a directory, no two source IDs share a path;
      and from any state on a source keeps its path and size, and its MD5 once that is known. */
  lemma ManifestWriteOnce(dbs: seq<Db>, i: nat, j: nat, f: FileId, g: FileId)
    requires Run(dbs) && i <= j < |dbs| && f in dbs[i].files && g in dbs[j].files
    ensures f in dbs[j].files && dbs[j].files[f].path == dbs[i].files[f].path && dbs[j].files[f].size == dbs[i].files[f].size
    ensures dbs[i].files[f].md5 != "" ==> dbs[j].files[f].md5 == dbs[i].files[f].md5
    ensures dbs[j].files[f].path !in dbs[j].directories && (dbs[j].files[g].path == dbs[j].files[f].path ==> g == f)
  {
    RunForward(dbs, i, j);
    assert RowForward(dbs[i].files[f], dbs[j].files[f]);
    RunConsistent(dbs, j);
    assert PathsOk(dbs[j]);
  }
}
