/** Every transaction keeps the protocol invariant and moves the tables forward only. */
module Invariant {
  import opened Wrappers
  import opened Model
  import opened Tables
  import opened Transactions

  /** One file over any number of steps: identity fixed, status advancing, a Drive ID or MD5 once known never replaced. */
  predicate RowForward(row: FileRow, row': FileRow) {
    && row'.path == row.path && row'.size == row.size
    && Advances(row.status, row'.status)
    && (row.driveId != "" ==> row'.driveId == row.driveId)
    && (row.md5 != "" ==> row'.md5 == row.md5)
  }

  /** In one transaction, moreover, the verified statuses are entered through DRIVE_VERIFIED only. */
  predicate RowEvolves(row: FileRow, row': FileRow) {
    RowForward(row, row') && (Verified(row'.status) && !Verified(row.status) ==> row'.status.DriveVerified?)
  }

  ghost predicate FilesEvolve(db: Db, db': Db) {
    && db.files.Keys <= db'.files.Keys
    && forall f :: f in db.files ==> RowEvolves(db.files[f], db'.files[f])
  }

  /** A batch, once planned, keeps its files; new members belong to new batches. */
  ghost predicate BatchesEvolve(db: Db, db': Db) {
    && (forall b :: b in db.batches ==> 
        b in db'.batches
        && db'.batches[b].totalBytes == db.batches[b].totalBytes
        && db'.batches[b].parent == db.batches[b].parent
        && FilesOf(db', b) == FilesOf(db, b))
    && (forall f :: f in db.members ==> f in db'.members && db'.members[f] == db.members[f])
  }

  /** Provenance is never withdrawn: rows, permissions and cleaned marks stay. */
  ghost predicate OwnedEvolves(db: Db, db': Db) {
    forall k :: k in db.owned ==>
      k in db'.owned
      && (db.owned[k].allowed ==> db'.owned[k].allowed)
      && (db.owned[k].cleaned ==> db'.owned[k].cleaned)
  }

  predicate TaskEvolves(db: Db, db': Db) {
    && db'.task.id == db.task.id
    && (db.task.scanCompleted ==> db'.task.scanCompleted)
    && (db.task.driveRootId != "" ==> db'.task.driveRootId == db.task.driveRootId)
    && (db.task.driveRootName != "" ==> db'.task.driveRootName == db.task.driveRootName)
  }

  /** Permission to delete a batch directory is newly given only when all its files are verified. */
  ghost predicate PermissionEarned(db: Db, db': Db) {
    forall b :: Allowed(db', BaiduBatchDir(b)) && !Allowed(db, BaiduBatchDir(b)) ==>
      forall f :: f in FilesOf(db, b) ==> f in db.files && Verified(db.files[f].status)
  }

  /** What one transaction may do to the tables. */
  ghost predicate Evolves(db: Db, db': Db) {
    && FilesEvolve(db, db') && BatchesEvolve(db, db') && OwnedEvolves(db, db') && TaskEvolves(db, db')
    && PermissionEarned(db, db')
  }

  /** What any number of transactions may do to the tables. */
  ghost predicate Forward(db: Db, db': Db) {
    && db.files.Keys <= db'.files.Keys
    && (forall f :: f in db.files ==> RowForward(db.files[f], db'.files[f]))
    && BatchesEvolve(db, db') && OwnedEvolves(db, db') && TaskEvolves(db, db')
  }

  lemma EvolvesIsForward(db: Db, db': Db)
    requires Evolves(db, db')
    ensures Forward(db, db')
  {
    forall f | f in db.files ensures RowForward(db.files[f], db'.files[f]) { assert RowEvolves(db.files[f], db'.files[f]); }
  }

  lemma ForwardReflexive(db: Db)
    requires MembersOk(db)
    ensures Forward(db, db)
  {
  }

  lemma ForwardTransitive(a: Db, b: Db, c: Db)
    requires Forward(a, b) && Forward(b, c)
    ensures Forward(a, c)
  {
    forall f | f in a.files ensures RowForward(a.files[f], c.files[f]) {
      assert RowForward(a.files[f], b.files[f]) && RowForward(b.files[f], c.files[f]);
    }
    forall x | x in a.batches ensures FilesOf(c, x) == FilesOf(a, x) { assert FilesOf(b, x) == FilesOf(a, x); }
  }

  /** Only columns, directories or provenance changed: same files, batches and membership. */
  ghost predicate SameShape(db: Db, db': Db) {
    && db'.members == db.members
    && (db'.directories == db.directories || forall f :: f in db.files ==> db.files[f].path !in db'.directories)
    && db'.batches.Keys == db.batches.Keys && db'.files.Keys == db.files.Keys
    && db.owned.Keys <= db'.owned.Keys
  }

  predicate SameBatch(x: BatchRow, y: BatchRow) {
    x.parent == y.parent && x.stagingPath == y.stagingPath && x.fileCount == y.fileCount && x.totalBytes == y.totalBytes
  }

  ghost predicate ColumnsEvolve(db: Db, db': Db)
    requires SameShape(db, db')
  {
    && (forall b :: b in db.batches ==> SameBatch(db.batches[b], db'.batches[b]))
    && (forall f :: f in db.files ==> RowEvolves(db.files[f], db'.files[f]))
    && (forall f :: f in db.files ==> (db'.files[f].status.Discovered? <==> db.files[f].status.Discovered?))
  }

  lemma FilesOfKept(db: Db, db': Db, b: BatchId)
    requires db'.members == db.members
    ensures FilesOf(db', b) == FilesOf(db, b)
  {
  }

  lemma TotalKept(db: Db, db': Db, b: BatchId)
    requires SameShape(db, db') && b in db.batches && TotalOk(db, b)
    requires SameBatch(db.batches[b], db'.batches[b])
    requires forall f :: f in db.files ==> db'.files[f].size == db.files[f].size
    ensures TotalOk(db', b)
  {
    FilesOfKept(db, db', b);
    SizeSumSameSizes(db.files, db'.files, FilesOf(db, b));
  }

  lemma ShapeKept(db: Db, db': Db)
    requires Consistent(db)
    requires SameShape(db, db') && ColumnsEvolve(db, db')
    ensures PathsOk(db') && MembersOk(db') && BatchesEvolve(db, db') && FilesEvolve(db, db')
    ensures forall b :: b in db'.batches ==> BatchOk(db', b) && TotalOk(db', b)
  {
    hide SizeSum, FileOk, OwnedOk;
    assert PathsOk(db');
    assert MembersOk(db') by {
      forall f | f in db'.files
        ensures !db'.files[f].status.FailedRetryable? && (f in db'.members <==> !db'.files[f].status.Discovered?)
      {
        assert RowEvolves(db.files[f], db'.files[f]);
      }
      forall f | f in db'.members
        ensures f in db'.files && db'.members[f].batch in db'.batches && Parent(db'.files[f].path) == db'.batches[db'.members[f].batch].parent
      {
        assert SameBatch(db.batches[db.members[f].batch], db'.batches[db.members[f].batch]);
      }
    }
    forall b | b in db'.batches ensures BatchOk(db', b) && TotalOk(db', b) && FilesOf(db', b) == FilesOf(db, b) {
      assert SameBatch(db.batches[b], db'.batches[b]);
      assert BatchOk(db, b) && TotalOk(db, b);
      FilesOfKept(db, db', b);
      TotalKept(db, db', b);
    }
  }

  /** All that is asked of one file when only columns change. */
  ghost predicate FileStep(db: Db, db': Db, f: FileId)
    requires f in db.files && f in db'.files
  {
    && RowEvolves(db.files[f], db'.files[f])
    && (db'.files[f].status.Discovered? <==> db.files[f].status.Discovered?)
    && (f in db'.members ==> FileOk(db', f))
  }

  predicate PermissionKept(row: OwnedRow, row': OwnedRow) {
    row'.path == row.path && row'.allowed == row.allowed && (row.cleaned ==> row'.cleaned) && (row'.cleaned ==> row'.allowed)
  }

  ghost predicate FileKnown(db: Db, f: FileId) {
    && f in db.files && !db.files[f].status.FailedRetryable?
    && (f in db.members <==> !db.files[f].status.Discovered?)
    && (f in db.members ==> FileOk(db, f))
  }

  /** The invariant one row at a time, so that steps can be checked without its other quantifiers. */
  ghost predicate RowByRow(db: Db) {
    && (forall k :: k in db.owned ==> OwnedOk(db, k))
    && (forall f :: f in db.files ==> FileKnown(db, f))
  }

  lemma ReadRows(db: Db)
    requires Consistent(db)
    ensures RowByRow(db)
  {
  }

  /** What a step that keeps membership owes: every row it leaves is again in order and only moved forward. */
  ghost predicate StepInOrder(db: Db, db': Db) {
    && SameShape(db, db') && TaskEvolves(db, db') && OwnedEvolves(db, db') && PermissionEarned(db, db')
    && (forall b :: b in db.batches ==> SameBatch(db.batches[b], db'.batches[b]))
    && (forall f :: f in db.files ==> FileStep(db, db', f))
    && (forall k :: k in db'.owned ==> OwnedOk(db', k))
  }

  /** Such a step keeps the whole invariant. */
  lemma StepKeeps(db: Db, db': Db)
    requires Consistent(db) && StepInOrder(db, db')
    ensures Consistent(db') && Evolves(db, db')
  {
    forall f | f in db.files ensures RowEvolves(db.files[f], db'.files[f]) && (db'.files[f].status.Discovered? <==> db.files[f].status.Discovered?) {
      assert FileStep(db, db', f);
    }
    ShapeKept(db, db');
    forall f | f in db'.members ensures FileOk(db', f) { assert FileStep(db, db', f); }
  }

  /** Provenance of an object whose permission did not change. */
  lemma OwnedKept(db: Db, db': Db, k: OwnedKey)
    requires k in db.owned && OwnedOk(db, k)
    requires k in db'.owned && PermissionKept(db.owned[k], db'.owned[k])
    requires db'.members == db.members && db'.batches.Keys == db.batches.Keys
    requires k.LocalCacheFile? && k.file in db.files ==> k.file in db'.files && RowEvolves(db.files[k.file], db'.files[k.file])
    ensures OwnedOk(db', k)
  {
  }

  ghost predicate ColumnsOnly(db: Db, db': Db) {
    && SameShape(db, db') && TaskEvolves(db, db')
    && (forall b :: b in db.batches ==> SameBatch(db.batches[b], db'.batches[b]))
    && db'.owned.Keys == db.owned.Keys
    && (forall k :: k in db.owned ==> PermissionKept(db.owned[k], db'.owned[k]))
  }

  ghost predicate ColumnStep(db: Db, db': Db) {
    ColumnsOnly(db, db') && forall f :: f in db.files ==> FileStep(db, db', f)
  }

  /** A step on columns only that leaves every permission as it was. */
  lemma ColumnStepInOrder(db: Db, db': Db)
    requires RowByRow(db) && ColumnStep(db, db')
    ensures StepInOrder(db, db')
  {
    forall k | k in db'.owned ensures OwnedOk(db', k) {
      assert OwnedOk(db, k) && PermissionKept(db.owned[k], db'.owned[k]);
      if k.LocalCacheFile? && k.file in db.files { assert FileStep(db, db', k.file); }
      OwnedKept(db, db', k);
    }
  }

  // ----- one lemma per transaction ------------------------------------------

  lemma StartBatchStep(db: Db, b: BatchId)
    requires RowByRow(db) && b in db.batches
    ensures ColumnStep(db, AfterStartBatch(db, b))
  {
    forall f | f in db.files ensures FileStep(db, AfterStartBatch(db, b), f) { assert FileKnown(db, f); }
  }

  lemma RecordStagedStep(db: Db, b: BatchId, staged: map<FileId, StagingPath>)
    requires RowByRow(db) && CanRecordStaged(db, b, staged)
    ensures ColumnStep(db, AfterRecordStaged(db, staged))
  {
    forall f | f in db.files ensures FileStep(db, AfterRecordStaged(db, staged), f) {
      assert FileKnown(db, f);
      if f in staged { assert CanConfirm(db, b, f, staged[f]); }
    }
  }

  lemma BatchStatusStep(db: Db, b: BatchId, row: BatchRow)
    requires RowByRow(db) && b in db.batches && SameBatch(db.batches[b], row)
    ensures ColumnStep(db, db.(batches := db.batches[b := row]))
  {
    forall f | f in db.files ensures FileStep(db, db.(batches := db.batches[b := row]), f) { assert FileKnown(db, f); }
  }

  lemma FailBatchStep(db: Db, b: BatchId, permanent: bool)
    requires RowByRow(db)
    ensures ColumnStep(db, AfterFailBatch(db, b, permanent))
  {
    forall f | f in db.files ensures FileStep(db, AfterFailBatch(db, b, permanent), f) { assert FileKnown(db, f); }
  }

  lemma TaskStep(db: Db, task: TaskRow)
    requires RowByRow(db) && TaskEvolves(db, db.(task := task))
    ensures ColumnStep(db, db.(task := task))
  {
    forall f | f in db.files ensures FileStep(db, db.(task := task), f) { assert FileKnown(db, f); }
  }

  /** One file's row moves on; the other files are untouched. */
  lemma UpdateFileStep(db: Db, f: FileId, row: FileRow)
    requires RowByRow(db) && f in db.files && RowEvolves(db.files[f], row)
    requires row.status.Discovered? <==> db.files[f].status.Discovered?
    requires f in db.members ==> FileOk(UpdateFile(db, f, row), f)
    ensures ColumnStep(db, UpdateFile(db, f, row))
  {
    var db' := UpdateFile(db, f, row);
    forall g | g in db.files ensures FileStep(db, db', g) { assert FileKnown(db, g); }
  }

  lemma MarkCleanedStep(db: Db, k: OwnedKey)
    requires RowByRow(db) && Allowed(db, k)
    ensures ColumnStep(db, AfterMarkCleaned(db, k))
  {
    var db' := AfterMarkCleaned(db, k);
    assert OwnedOk(db, k);
    forall f | f in db.files ensures FileStep(db, db', f) { assert FileKnown(db, f); }
  }

  lemma CompleteCleanupStep(db: Db, b: BatchId)
    requires RowByRow(db) && CanCompleteCleanup(db, b)
    ensures ColumnStep(db, AfterCompleteCleanup(db, b))
  {
    forall f | f in db.files ensures FileStep(db, AfterCompleteCleanup(db, b), f) { assert FileKnown(db, f); }
  }

  lemma MarkLocalReadyStep(db: Db, f: FileId)
    requires RowByRow(db) && CanMarkLocalReady(db, f, BinFile(f))
    ensures StepInOrder(db, AfterMarkLocalReady(db, f))
  {
    var db' := AfterMarkLocalReady(db, f);
    assert FileKnown(db, f);
    forall g | g in db.files ensures FileStep(db, db', g) { assert FileKnown(db, g); }
    forall k | k in db'.owned ensures OwnedOk(db', k) {
      if k in db.owned { assert OwnedOk(db, k); }
    }
  }

  lemma DriveRowStep(db: Db, db': Db, key: OwnedKey, path: ObjectPath)
    requires RowByRow(db) && SameShape(db, db') && TaskEvolves(db, db')
    requires key.DriveFile? || key.DriveTaskRoot?
    requires db'.batches == db.batches && db'.owned == UpsertOwnedPath(db.owned, key, path)
    requires forall f :: f in db.files ==> FileStep(db, db', f)
    ensures StepInOrder(db, db')
  {
    forall k | k in db'.owned ensures OwnedOk(db', k) {
      if k in db.owned { assert OwnedOk(db, k); }
      if k.LocalCacheFile? { assert FileStep(db, db', k.file); }
    }
  }

  lemma RecordUploadedStep(db: Db, f: FileId, id: DriveId)
    requires RowByRow(db) && CanRecordUploaded(db, f, id)
    ensures StepInOrder(db, Exec(db, RecordUploaded(f, id)))
  {
    hide StepInOrder, OwnedOk;
    var db' := Exec(db, RecordUploaded(f, id));
    assert FileKnown(db, f);
    forall g | g in db.files ensures FileStep(db, db', g) { assert FileKnown(db, g); }
    DriveRowStep(db, db', DriveFile(id), InDrive(db.files[f].path));
  }

  lemma SetDriveRootStep(db: Db, name: string, id: DriveId)
    requires RowByRow(db) && CanSetDriveRoot(db, name, id)
    ensures StepInOrder(db, Exec(db, SetDriveRoot(name, id)))
  {
    var db' := Exec(db, SetDriveRoot(name, id));
    forall g | g in db.files ensures FileStep(db, db', g) { assert FileKnown(db, g); }
    DriveRowStep(db, db', DriveTaskRoot(id), InDrive([name]));
  }

  lemma AuthorizeRootStep(db: Db)
    requires RowByRow(db) && CanAuthorizeRoot(db)
    ensures StepInOrder(db, AfterAuthorizeRoot(db))
  {
    var db' := AfterAuthorizeRoot(db);
    forall f | f in db.files ensures FileStep(db, db', f) { assert FileKnown(db, f); }
    forall k | k in db'.owned ensures OwnedOk(db', k) { assert OwnedOk(db, k); }
  }

  lemma AuthorizeOtherFile(db: Db, b: BatchId, f: FileId)
    requires FileKnown(db, f) && f !in FilesOf(db, b)
    ensures FileStep(db, AfterAuthorizeBatch(db, b), f)
  {
    var rows := AuthorizedRows(db, b);
    if f in db.members {
      var c := db.members[f].batch;
      assert c != b;
      assert LocalCacheFile(f) in rows <==> LocalCacheFile(f) in db.owned;
      assert LocalCacheFile(f) in db.owned ==> rows[LocalCacheFile(f)] == db.owned[LocalCacheFile(f)];
      assert BaiduBatchDir(c) in rows <==> BaiduBatchDir(c) in db.owned;
      assert BaiduBatchDir(c) in db.owned ==> rows[BaiduBatchDir(c)] == db.owned[BaiduBatchDir(c)];
    }
  }

  lemma AuthorizedObjects(db: Db, b: BatchId, f: FileId)
    requires f in FilesOf(db, b)
    ensures Allowed(AfterAuthorizeBatch(db, b), LocalCacheFile(f)) && Allowed(AfterAuthorizeBatch(db, b), BaiduBatchDir(b))
  {
    var rows := AuthorizedRows(db, b);
    assert LocalCacheFile(f) in rows && rows[LocalCacheFile(f)].allowed;
    assert BaiduBatchDir(b) in rows && rows[BaiduBatchDir(b)].allowed;
  }

  lemma AuthorizeBatchFile(db: Db, b: BatchId, f: FileId)
    requires FileKnown(db, f)
    requires f in FilesOf(db, b) ==> FileAuthorizable(db, f)
    ensures FileStep(db, AfterAuthorizeBatch(db, b), f)
  {
    hide AuthorizedRows;
    if f in FilesOf(db, b) {
      AuthorizedObjects(db, b, f);
    } else {
      AuthorizeOtherFile(db, b, f);
    }
  }

  lemma AuthorizeBatchKey(db: Db, b: BatchId, k: OwnedKey)
    requires k in AuthorizedRows(db, b) && (k in db.owned ==> OwnedOk(db, k))
    requires b in db.batches && (forall f :: f in db.members ==> f in db.files)
    requires forall f :: f in FilesOf(db, b) ==> FileAuthorizable(db, f)
    ensures OwnedOk(AfterAuthorizeBatch(db, b), k)
  {
    var rows := AuthorizedRows(db, b);
    if k.LocalCacheFile? && k.file in FilesOf(db, b) {
      assert FileAuthorizable(db, k.file);
    } else if k != BaiduBatchDir(b) {
      assert rows[k] == db.owned[k];
    }
  }

  lemma AuthorizeBatchGrants(db: Db, b: BatchId)
    requires forall f :: f in FilesOf(db, b) ==> FileAuthorizable(db, f)
    ensures OwnedEvolves(db, AfterAuthorizeBatch(db, b))
    ensures PermissionEarned(db, AfterAuthorizeBatch(db, b))
  {
    var db' := AfterAuthorizeBatch(db, b);
    forall c | Allowed(db', BaiduBatchDir(c)) && !Allowed(db, BaiduBatchDir(c)) ensures c == b {}
  }

  lemma AuthorizeBatchStep(db: Db, b: BatchId)
    requires RowByRow(db) && CanAuthorizeBatch(db, b) && (forall f :: f in db.members ==> f in db.files)
    ensures StepInOrder(db, AfterAuthorizeBatch(db, b))
  {
    var db' := AfterAuthorizeBatch(db, b);
    AuthorizeBatchGrants(db, b);
    forall f | f in db.files ensures FileStep(db, db', f) { AuthorizeBatchFile(db, b, f); }
    forall k | k in db'.owned ensures OwnedOk(db', k) { AuthorizeBatchKey(db, b, k); }
  }

  lemma UpsertDirectoryStep(db: Db, p: Path)
    requires RowByRow(db) && !PathIsFile(db, p) && (forall f :: f in db.files ==> db.files[f].path !in db.directories)
    ensures StepInOrder(db, db.(directories := db.directories + {p}))
  {
    var db' := db.(directories := db.directories + {p});
    forall f | f in db.files ensures FileStep(db, db', f) { assert FileKnown(db, f); }
    ColumnStepInOrder(db, db');
  }

  lemma RegisterTaskRootStep(db: Db)
    requires RowByRow(db)
    ensures StepInOrder(db, RegisterTaskRoot(db)) && BaiduTaskRoot in RegisterTaskRoot(db).owned
  {
    var db' := RegisterTaskRoot(db);
    forall f | f in db.files ensures FileStep(db, db', f) { assert FileKnown(db, f); }
    forall k | k in db'.owned ensures OwnedOk(db', k) {
      if k in db.owned { assert OwnedOk(db, k); }
    }
  }

  // ----- new files -----------------------------------------------------------

  lemma InsertFileKeeps(db: Db, m: ManifestFile)
    requires Consistent(db) && m.id !in db.files && WellFormedEntry(m) && m.path !in db.directories && !PathIsFile(db, m.path)
    ensures Consistent(db.(files := db.files[m.id := NewRow(m)])) && Evolves(db, db.(files := db.files[m.id := NewRow(m)]))
  {
    hide SizeSum;
    var db' := db.(files := db.files[m.id := NewRow(m)]);
    InsertFilePaths(db, m);
    forall b | b in db.batches ensures BatchOk(db', b) && TotalOk(db', b) && FilesOf(db', b) == FilesOf(db, b) {
      InsertFileBatch(db, m, b);
    }
    forall f | f in db.members ensures FileOk(db', f) { assert FileOk(db, f); }
    forall k | k in db.owned ensures OwnedOk(db', k) { assert OwnedOk(db, k); }
  }

  lemma InsertFilePaths(db: Db, m: ManifestFile)
    requires PathsOk(db) && MembersOk(db)
    requires m.id !in db.files && WellFormedEntry(m) && m.path !in db.directories && !PathIsFile(db, m.path)
    ensures PathsOk(db.(files := db.files[m.id := NewRow(m)])) && MembersOk(db.(files := db.files[m.id := NewRow(m)]))
  {
  }

  lemma InsertFileBatch(db: Db, m: ManifestFile, b: BatchId)
    requires b in db.batches && BatchOk(db, b) && TotalOk(db, b) && m.id !in db.files && 0 <= m.size
    ensures var db' := db.(files := db.files[m.id := NewRow(m)]);
            BatchOk(db', b) && TotalOk(db', b) && FilesOf(db', b) == FilesOf(db, b)
  {
    var db' := db.(files := db.files[m.id := NewRow(m)]);
    FilesOfKept(db, db', b);
    SizeSumSameSizes(db.files, db'.files, FilesOf(db, b));
  }

  lemma UpsertFileKeeps(db: Db, m: ManifestFile)
    requires Consistent(db) && UpsertFile(db, m).Some?
    ensures Consistent(UpsertFile(db, m).value) && Evolves(db, UpsertFile(db, m).value)
  {
    if m.id in db.files {
      UpsertSeenStep(db, m);
      StepKeeps(db, UpsertFile(db, m).value);
    } else {
      InsertFileKeeps(db, m);
    }
  }

  lemma UpsertSeenStep(db: Db, m: ManifestFile)
    requires RowByRow(db) && UpsertFile(db, m).Some? && m.id in db.files
    ensures StepInOrder(db, UpsertFile(db, m).value)
  {
    assert FileKnown(db, m.id);
    UpdateFileStep(db, m.id, UpsertFile(db, m).value.files[m.id]);
    ColumnStepInOrder(db, UpsertFile(db, m).value);
  }

  // ----- new batches ---------------------------------------------------------

  /** A batch's byte total, taken over the planned sequence or over the set of its members. */
  lemma LastApart(ids: seq<FileId>)
    requires Distinct(ids) && ids != []
    ensures var n := |ids| - 1; ids[n] in ids && ids[n] !in ids[..n] && (set f | f in ids) == (set f | f in ids[..n]) + {ids[n]}
    ensures var n := |ids| - 1; (set f | f in ids) - {ids[n]} == set f | f in ids[..n]
  {
    var n := |ids| - 1;
    assert ids == ids[..n] + [ids[n]];
  }

  lemma {:induction false} SizeSeqIsSum(files: map<FileId, FileRow>, ids: seq<FileId>)
    requires Distinct(ids) && forall f :: f in ids ==> f in files
    ensures SizeSeq(files, ids) == SizeSum(files, set f | f in ids) && |set f | f in ids| == |ids|
  {
    if ids != [] {
      var n := |ids| - 1;
      var all, rest := set f | f in ids, set f | f in ids[..n];
      SizeSeqIsSum(files, ids[..n]);
      LastApart(ids);
      SizeSumRemove(files, all, ids[n]);
    }
  }

  lemma {:induction false} WithMembersAt(members: map<FileId, Member>, b: BatchId, ids: seq<FileId>, f: FileId)
    ensures f in WithMembers(members, b, ids) <==> f in members || f in ids
    ensures f in ids ==> WithMembers(members, b, ids)[f].batch == b
    ensures f in members && f !in ids ==> WithMembers(members, b, ids)[f] == members[f]
  {
    if ids != [] {
      var n := |ids| - 1;
      assert ids == ids[..n] + [ids[n]];
      WithMembersAt(members, b, ids[..n], f);
    }
  }

  /** Which files a batch has after a chunk is planned. */
  lemma PlanChunkMembers(db: Db, c: Chunk, b: BatchId)
    requires CanPlanChunk(db, c)
    ensures b == c.batch && (forall f :: f in db.members ==> db.members[f].batch != b) ==> FilesOf(PlanChunk(db, c), b) == set f | f in c.files
    ensures b != c.batch ==> FilesOf(PlanChunk(db, c), b) == FilesOf(db, b)
    ensures forall f :: f in PlanChunk(db, c).members <==> f in db.members || f in c.files
    ensures forall f :: f in db.members ==> PlanChunk(db, c).members[f] == db.members[f]
    ensures forall f :: f in c.files ==> PlanChunk(db, c).members[f].batch == c.batch
  {
    var db' := PlanChunk(db, c);
    forall f
      ensures f in db'.members <==> f in db.members || f in c.files
      ensures f in c.files ==> db'.members[f].batch == c.batch
      ensures f in db.members && f !in c.files ==> db'.members[f] == db.members[f]
    {
      WithMembersAt(db.members, c.batch, c.files, f);
    }
    forall f
      ensures b != c.batch ==> (f in FilesOf(db', b) <==> f in FilesOf(db, b))
      ensures b == c.batch && (forall g :: g in db.members ==> db.members[g].batch != b) ==> (f in FilesOf(db', b) <==> f in c.files)
    {
      assert f in db'.members <==> f in db.members || f in c.files;
    }
  }

  lemma PlanChunkTotals(db: Db, c: Chunk, b: BatchId)
    requires CanPlanChunk(db, c) && b in PlanChunk(db, c).batches
    requires forall f :: f in db.members ==> db.members[f].batch in db.batches
    requires b in db.batches ==> TotalOk(db, b)
    ensures TotalOk(PlanChunk(db, c), b)
  {
    var db' := PlanChunk(db, c);
    PlanChunkMembers(db, c, b);
    if b == c.batch {
      SizeSeqIsSum(db.files, c.files);
      SizeSumSameSizes(db.files, db'.files, set f | f in c.files);
    } else {
      SizeSumSameSizes(db.files, db'.files, FilesOf(db, b));
    }
  }

  lemma PlanChunkBatch(db: Db, c: Chunk, b: BatchId)
    requires CanPlanChunk(db, c) && b in PlanChunk(db, c).batches && BaiduTaskRoot in db.owned
    requires forall f :: f in db.members ==> db.members[f].batch in db.batches
    requires b in db.batches ==> BatchOk(db, b)
    ensures BatchOk(PlanChunk(db, c), b)
  {
    PlanChunkMembers(db, c, b);
    if b == c.batch { assert c.files[0] in FilesOf(PlanChunk(db, c), b); }
  }

  lemma NoRowBeforeBatch(db: Db, b: BatchId)
    requires forall k :: k in db.owned ==> OwnedOk(db, k)
    ensures BaiduBatchDir(b) in db.owned ==> b in db.batches
  {
  }

  /** A planned file's row is Planned, so its columns and provenance owe nothing yet. */
  lemma PlannedFile(db: Db, c: Chunk, f: FileId)
    requires CanPlanChunk(db, c) && f in c.files && BaiduBatchDir(c.batch) !in db.owned
    ensures FileKnown(PlanChunk(db, c), f) && RowEvolves(db.files[f], PlanChunk(db, c).files[f])
  {
    PlanChunkMembers(db, c, c.batch);
    assert !Allowed(PlanChunk(db, c), BaiduBatchDir(c.batch));
  }

  lemma OtherFile(db: Db, c: Chunk, f: FileId)
    requires CanPlanChunk(db, c) && f !in c.files && FileKnown(db, f)
    requires f in db.members ==> db.members[f].batch != c.batch
    ensures FileKnown(PlanChunk(db, c), f) && RowEvolves(db.files[f], PlanChunk(db, c).files[f])
  {
    PlanChunkMembers(db, c, c.batch);
    var db' := PlanChunk(db, c);
    assert db'.files[f] == db.files[f];
    assert forall k :: k != BaiduBatchDir(c.batch) ==> (k in db'.owned <==> k in db.owned);
  }

  lemma PlanChunkKey(db: Db, c: Chunk, k: OwnedKey)
    requires CanPlanChunk(db, c) && k in PlanChunk(db, c).owned && (k in db.owned ==> OwnedOk(db, k))
    ensures OwnedOk(PlanChunk(db, c), k)
  {
    PlanChunkMembers(db, c, c.batch);
  }

  lemma PlanChunkPaths(db: Db, c: Chunk)
    requires CanPlanChunk(db, c) && PathsOk(db) && MembersOk(db)
    ensures PathsOk(PlanChunk(db, c)) && MembersOk(PlanChunk(db, c))
  {
    hide FilesOf, SizeSeq;
    var db' := PlanChunk(db, c);
    assert db'.files.Keys == db.files.Keys && forall f :: f in db.files ==> db'.files[f].path == db.files[f].path;
    assert PathsOk(db') by { hide CanPlanChunk, MembersOk; }
    forall f | f in db'.files ensures !db'.files[f].status.FailedRetryable? && (f in db'.members <==> !db'.files[f].status.Discovered?) {
      hide PathsOk;
      PlanChunkMembers(db, c, c.batch);
    }
    forall f | f in db'.members
      ensures f in db'.files && db'.members[f].batch in db'.batches && Parent(db'.files[f].path) == db'.batches[db'.members[f].batch].parent
    {
      hide PathsOk;
      PlanChunkMembers(db, c, c.batch);
      if f !in c.files { assert f in db.members; }
    }
  }

  lemma PlanChunkKeeps(db: Db, c: Chunk)
    requires Consistent(db) && CanPlanChunk(db, c) && BaiduTaskRoot in db.owned
    ensures Consistent(PlanChunk(db, c)) && Evolves(db, PlanChunk(db, c)) && BaiduTaskRoot in PlanChunk(db, c).owned
  {
    var db' := PlanChunk(db, c);
    PlanChunkPaths(db, c);
    NoRowBeforeBatch(db, c.batch);
    forall b | b in db'.batches ensures BatchOk(db', b) && TotalOk(db', b) {
      PlanChunkBatch(db, c, b);
      PlanChunkTotals(db, c, b);
    }
    forall f | f in db.files ensures FileKnown(db', f) && RowEvolves(db.files[f], db'.files[f]) {
      if f in c.files { PlannedFile(db, c, f); } else { OtherFile(db, c, f); }
    }
    forall k | k in db'.owned ensures OwnedOk(db', k) { PlanChunkKey(db, c, k); }
    PlanChunkEvolves(db, c);
  }

  lemma PlanChunkEvolves(db: Db, c: Chunk)
    requires CanPlanChunk(db, c)
    requires forall f :: f in db.files ==> RowEvolves(db.files[f], PlanChunk(db, c).files[f])
    ensures Evolves(db, PlanChunk(db, c))
  {
    hide SizeSum, SizeSeq, Advances;
    forall b ensures b != c.batch ==> FilesOf(PlanChunk(db, c), b) == FilesOf(db, b) { PlanChunkMembers(db, c, b); }
    PlanChunkMembers(db, c, c.batch);
  }

  // ----- pages and plans, folded ---------------------------------------------

  predicate AtMostPlanned(s: FileStatus, s': FileStatus) {
    s' == s || (s.Discovered? && s'.Planned?)
  }

  /** Pages and plans verify nothing and permit nothing. */
  ghost predicate Settled(db: Db, db': Db) {
    && (forall f :: f in db.files ==> f in db'.files && AtMostPlanned(db.files[f].status, db'.files[f].status))
    && (forall k :: Allowed(db', k) ==> Allowed(db, k))
  }

  lemma SettledEvolves(db: Db, db': Db)
    requires Forward(db, db') && Settled(db, db')
    ensures Evolves(db, db')
  {
    forall f | f in db.files ensures RowEvolves(db.files[f], db'.files[f]) {
      assert RowForward(db.files[f], db'.files[f]) && AtMostPlanned(db.files[f].status, db'.files[f].status);
    }
  }

  ghost predicate FoldKeeps(db: Db, db': Db) {
    Consistent(db') && Forward(db, db') && Settled(db, db')
  }

  lemma FoldTransitive(a: Db, b: Db, c: Db)
    requires FoldKeeps(a, b) && Consistent(c) && Evolves(b, c) && Settled(b, c)
    ensures FoldKeeps(a, c)
  {
    EvolvesIsForward(b, c);
    ForwardTransitive(a, b, c);
    forall f | f in a.files ensures f in c.files && AtMostPlanned(a.files[f].status, c.files[f].status) {
      assert AtMostPlanned(a.files[f].status, b.files[f].status) && AtMostPlanned(b.files[f].status, c.files[f].status);
    }
  }

  lemma {:induction false} UpsertDirectoriesKeep(db: Db, dirs: seq<Path>)
    requires Consistent(db) && UpsertDirectories(db, dirs).Some?
    ensures FoldKeeps(db, UpsertDirectories(db, dirs).value)
  {
    if dirs == [] {
      ForwardReflexive(db);
    } else {
      UpsertDirectoriesKeep(db, dirs[..|dirs| - 1]);
      var before := UpsertDirectories(db, dirs[..|dirs| - 1]).value;
      var after := UpsertDirectories(db, dirs).value;
      UpsertDirectoryStep(before, dirs[|dirs| - 1]);
      StepKeeps(before, after);
      FoldTransitive(db, before, after);
    }
  }

  lemma UpsertFileSettled(db: Db, m: ManifestFile)
    requires UpsertFile(db, m).Some?
    ensures Settled(db, UpsertFile(db, m).value)
  {
  }

  lemma PlanChunkSettled(db: Db, c: Chunk)
    requires CanPlanChunk(db, c)
    ensures Settled(db, PlanChunk(db, c))
  {
  }

  lemma {:induction false} UpsertFilesKeep(db: Db, files: seq<ManifestFile>)
    requires Consistent(db) && UpsertFiles(db, files).Some?
    ensures FoldKeeps(db, UpsertFiles(db, files).value)
  {
    if files == [] {
      ForwardReflexive(db);
    } else {
      UpsertFilesKeep(db, files[..|files| - 1]);
      var before := UpsertFiles(db, files[..|files| - 1]).value;
      UpsertFileKeeps(before, files[|files| - 1]);
      UpsertFileSettled(before, files[|files| - 1]);
      FoldTransitive(db, before, UpsertFiles(db, files).value);
    }
  }

  lemma {:induction false} PlanChunksKeep(db: Db, chunks: seq<Chunk>)
    requires Consistent(db) && BaiduTaskRoot in db.owned && PlanChunks(db, chunks).Some?
    ensures FoldKeeps(db, PlanChunks(db, chunks).value) && BaiduTaskRoot in PlanChunks(db, chunks).value.owned
  {
    if chunks == [] {
      ForwardReflexive(db);
    } else {
      var c := chunks[|chunks| - 1];
      PlanChunksKeep(db, chunks[..|chunks| - 1]);
      var before := PlanChunks(db, chunks[..|chunks| - 1]).value;
      PlanChunkKeeps(before, c);
      PlanChunkSettled(before, c);
      FoldTransitive(db, before, PlanChunk(before, c));
    }
  }

  lemma RegisterKeeps(db: Db)
    requires Consistent(db)
    ensures var db' := RegisterTaskRoot(db);
            Consistent(db') && Evolves(db, db') && Settled(db, db') && BaiduTaskRoot in db'.owned
  {
    hide PathsOk, MembersOk, BatchOk, TotalOk, FileOk, OwnedOk, Evolves, StepInOrder;
    ReadRows(db);
    RegisterTaskRootStep(db);
    StepKeeps(db, RegisterTaskRoot(db));
  }

  lemma NothingFolded(db: Db)
    requires Consistent(db)
    ensures FoldKeeps(db, db)
  {
    ForwardReflexive(db);
  }

  lemma PlanKeeps(db: Db, chunks: seq<Chunk>)
    requires Consistent(db) && PlanAll(db, chunks).Some?
    ensures FoldKeeps(db, PlanAll(db, chunks).value)
  {
    hide Consistent, Evolves, FoldKeeps, Settled, RegisterTaskRoot, PlanChunks;
    if chunks == [] {
      NothingFolded(db);
    } else {
      RegisterKeeps(db);
      PlanChunksKeep(RegisterTaskRoot(db), chunks);
      FoldChain(db, RegisterTaskRoot(db), PlanAll(db, chunks).value);
    }
  }

  lemma FoldChain(a: Db, b: Db, c: Db)
    requires Evolves(a, b) && Settled(a, b) && FoldKeeps(b, c)
    ensures FoldKeeps(a, c)
  {
    EvolvesIsForward(a, b);
    ForwardTransitive(a, b, c);
    forall f | f in a.files ensures f in c.files && AtMostPlanned(a.files[f].status, c.files[f].status) {
      assert AtMostPlanned(a.files[f].status, b.files[f].status) && AtMostPlanned(b.files[f].status, c.files[f].status);
    }
  }

  lemma UpsertManifestKeeps(db: Db, dirs: seq<Path>, files: seq<ManifestFile>)
    requires Consistent(db) && UpsertManifest(db, dirs, files).Some?
    ensures FoldKeeps(db, UpsertManifest(db, dirs, files).value)
  {
    var withDirs := UpsertDirectories(db, dirs).value;
    UpsertDirectoriesKeep(db, dirs);
    UpsertFilesKeep(withDirs, files);
    SettledEvolves(db, withDirs);
    FoldChain(db, withDirs, UpsertManifest(db, dirs, files).value);
  }

  // ----- every transaction ---------------------------------------------------

  /** Transactions that rewrite columns only. */
  predicate RewritesColumns(op: Op) {
    || op.CompleteScan? || op.SetTaskStatus? || op.StartBatch? || op.RecordStaged? || op.CompleteBatch? || op.FailBatch?
    || op.StartDownload? || op.DownloadFailure? || op.StartDriveUpload? || op.MarkVerified? || op.DriveFailure?
    || op.MarkCleaned? || op.CompleteCleanup?
  }

  predicate RewritesOneFile(op: Op) {
    op.StartDownload? || op.DownloadFailure? || op.StartDriveUpload? || op.MarkVerified? || op.DriveFailure?
  }

  lemma FileOp(db: Db, op: Op)
    requires RowByRow(db) && RewritesOneFile(op) && Attempt(db, op).Some?
    ensures ColumnStep(db, Attempt(db, op).value)
  {
    hide ColumnStep, OwnedOk, FilesOf;
    assert FileKnown(db, op.file);
    UpdateFileStep(db, op.file, Attempt(db, op).value.files[op.file]);
  }

  lemma ColumnOp(db: Db, op: Op)
    requires RowByRow(db) && RewritesColumns(op) && Attempt(db, op).Some?
    ensures ColumnStep(db, Attempt(db, op).value)
  {
    hide ColumnStep, RowByRow, SetStatus, Staging, Confirmed, FilesOf, SafeComponent, AfterFailBatch, AfterRecordStaged, AfterStartBatch, AfterCompleteCleanup;
    if RewritesOneFile(op) {
      FileOp(db, op);
    } else {
      match op
      case CompleteScan => TaskStep(db, Attempt(db, op).value.task);
      case SetTaskStatus(s) => TaskStep(db, Attempt(db, op).value.task);
      case StartBatch(b) => StartBatchStep(db, b);
      case RecordStaged(b, staged) => RecordStagedStep(db, b, staged);
      case CompleteBatch(b) => BatchStatusStep(db, b, db.batches[b].(status := BatchStaged));
      case FailBatch(b, permanent) => FailBatchStep(db, b, permanent);
      case MarkCleaned(k) => MarkCleanedStep(db, k);
      case CompleteCleanup(b) => CompleteCleanupStep(db, b);
    }
  }

  /** Every transaction, whatever its arguments and whether or not it commits, keeps
      the invariant and only moves the tables forward. */
  lemma OpKeeps(db: Db, op: Op)
    requires Consistent(db)
    ensures Consistent(Exec(db, op)) && Evolves(db, Exec(db, op))
  {
    if Attempt(db, op).None? {
      ForwardReflexive(db);
      SettledEvolves(db, db);
    } else {
      var db' := Attempt(db, op).value;
      if op.UpsertPage? || op.Plan? {
        if op.UpsertPage? { UpsertManifestKeeps(db, op.dirs, op.files); } else { PlanKeeps(db, op.chunks); }
        SettledEvolves(db, db');
      } else {
        OpInOrder(db, op);
        StepKeeps(db, db');
      }
    }
  }

  lemma OpInOrder(db: Db, op: Op)
    requires Consistent(db) && Attempt(db, op).Some? && !op.UpsertPage? && !op.Plan?
    ensures StepInOrder(db, Attempt(db, op).value)
  {
    ReadRows(db);
    if RewritesColumns(op) {
      ColumnOp(db, op);
      ColumnStepInOrder(db, Attempt(db, op).value);
    } else {
      match op
      case SetDriveRoot(name, id) => SetDriveRootStep(db, name, id);
      case MarkLocalReady(f, _) => MarkLocalReadyStep(db, f);
      case RecordUploaded(f, id) => RecordUploadedStep(db, f, id);
      case AuthorizeBatch(b) => AuthorizeBatchStep(db, b);
      case AuthorizeRoot => AuthorizeRootStep(db);
    }
  }
}
