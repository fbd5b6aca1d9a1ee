/** The SQLite tables of one task as a value, with the schema's keys and the
    protocol invariant that every committed transaction keeps (internal/state/store.go). */
module Tables {
  import opened Model

  datatype CachePath = NoCache | PartFile(file: FileId) | BinFile(file: FileId)

  /** /BaiduDriveMover/<task>, /BaiduDriveMover/<task>/<batch> and files below a batch directory. */
  datatype StagingPath = NoStaging | TaskRoot | BatchDir(batch: BatchId) | StagedFile(dir: BatchId, name: string)

  /** parent_path and name are not stored apart: both are functions of the logical path. */
  datatype FileRow = FileRow(
    path: Path, size: nat, md5: Digest, status: FileStatus,
    stagingPath: StagingPath, cachePath: CachePath, driveId: DriveId, retries: nat)

  datatype BatchRow = BatchRow(
    parent: Path, stagingPath: StagingPath, status: BatchStatus,
    fileCount: nat, totalBytes: nat, retries: nat)

  datatype Member = Member(batch: BatchId, ordinal: nat)

  /** The primary key (scope, object_id) of owned_objects. */
  datatype OwnedKey =
    | LocalCacheFile(file: FileId)
    | BaiduBatchDir(batch: BatchId)
    | BaiduTaskRoot
    | DriveTaskRoot(id: DriveId)
    | DriveFile(id: DriveId)

  datatype ObjectPath = InCache(cache: CachePath) | InStaging(staging: StagingPath) | InDrive(path: Path)

  datatype OwnedRow = OwnedRow(path: ObjectPath, allowed: bool, cleaned: bool)

  datatype TaskRow = TaskRow(id: string, status: TaskStatus, scanCompleted: bool, driveRootId: DriveId, driveRootName: string)

  datatype Db = Db(
    task: TaskRow,
    directories: set<Path>,
    files: map<FileId, FileRow>,
    batches: map<BatchId, BatchRow>,
    members: map<FileId, Member>,
    owned: map<OwnedKey, OwnedRow>)

  /** A task as CreateTask leaves it: scanning, with empty tables. */
  function EmptyDb(id: string): Db {
    Db(TaskRow(id, TaskScanning, false, "", ""), {}, map[], map[], map[], map[])
  }

  function Parent(p: Path): Path {
    if p == [] then [] else p[..|p| - 1]
  }

  function Base(p: Path): string {
    if p == [] then "" else p[|p| - 1]
  }

  /** stagingComponentPattern: the only identifiers that may appear in derived paths. */
  predicate SafeComponent(id: string) {
    id != "" && forall c :: c in id ==> 'A' <= c <= 'Z' || 'a' <= c <= 'z' || '0' <= c <= '9' || c in "._-"
  }

  /** The files batch_files assigns to a batch. */
  function FilesOf(db: Db, b: BatchId): set<FileId> {
    set f | f in db.members && db.members[f].batch == b
  }

  predicate Allowed(db: Db, k: OwnedKey) {
    k in db.owned && db.owned[k].allowed
  }

  predicate Cleaned(db: Db, k: OwnedKey) {
    k in db.owned && db.owned[k].allowed && db.owned[k].cleaned
  }

  // ----- sums of sizes -------------------------------------------------------

  lemma LeastExists(s: set<int>)
    requires s != {}
    ensures exists m :: m in s && forall y :: y in s ==> m <= y
  {
    assert exists x :: x in s by {
      if forall x :: x !in s { assert false; }
    }
    var x :| x in s;
    var rest := s - {x};
    if rest == {} {
      assert s == {x};
    } else {
      LeastExists(rest);
      var m :| m in rest && forall y :: y in rest ==> m <= y;
      var least := if m <= x then m else x;
      assert least in s && forall y :: y in s ==> least <= y by {
        forall y | y in s ensures least <= y { assert y == x || y in rest; }
      }
    }
  }

  function Least(s: set<int>): (m: int)
    requires s != {}
    ensures m in s && forall y :: y in s ==> m <= y
  {
    LeastExists(s);
    var m :| m in s && forall y :: y in s ==> m <= y;
    m
  }

  /** SELECT SUM(size) over a set of files. */
  function SizeSum(files: map<FileId, FileRow>, ids: set<FileId>): nat
    requires ids <= files.Keys
  {
    if ids == {} then 0
    else
      var m := Least(ids);
      files[m].size + SizeSum(files, ids - {m})
  }

  lemma {:induction false} SizeSumRemove(files: map<FileId, FileRow>, ids: set<FileId>, x: FileId)
    requires x in ids && ids <= files.Keys
    ensures SizeSum(files, ids) == files[x].size + SizeSum(files, ids - {x})
    decreases |ids|
  {
    var m := Least(ids);
    if m != x {
      SizeSumRemove(files, ids - {m}, x);
      var rest := ids - {x};
      assert m in rest && Least(rest) in ids;
      assert ids - {m} - {x} == rest - {m};
    }
  }

  lemma {:induction false} SizeSumUnion(files: map<FileId, FileRow>, a: set<FileId>, b: set<FileId>)
    requires a !! b && a <= files.Keys && b <= files.Keys
    ensures SizeSum(files, a + b) == SizeSum(files, a) + SizeSum(files, b)
    decreases |a|
  {
    if a == {} {
      assert a + b == b;
    } else {
      var x := Least(a);
      SizeSumRemove(files, a, x);
      SizeSumRemove(files, a + b, x);
      assert a + b - {x} == (a - {x}) + b;
      SizeSumUnion(files, a - {x}, b);
    }
  }

  lemma SizeSumMonotone(files: map<FileId, FileRow>, a: set<FileId>, b: set<FileId>)
    requires a <= b <= files.Keys
    ensures SizeSum(files, a) <= SizeSum(files, b)
  {
    SizeSumUnion(files, a, b - a);
    assert a + (b - a) == b;
  }

  /** The sum depends on the sizes only. */
  lemma {:induction false} SizeSumSameSizes(f: map<FileId, FileRow>, g: map<FileId, FileRow>, ids: set<FileId>)
    requires ids <= f.Keys && ids <= g.Keys
    requires forall i :: i in ids ==> f[i].size == g[i].size
    ensures SizeSum(f, ids) == SizeSum(g, ids)
    decreases |ids|
  {
    if ids != {} {
      SizeSumSameSizes(f, g, ids - {Least(ids)});
    }
  }

  // ----- the protocol invariant ---------------------------------------------

  ghost predicate PathsOk(db: Db) {
    && (forall f :: f in db.files ==> db.files[f].path != [] && db.files[f].path !in db.directories)
    && (forall f, g :: f in db.files && g in db.files && db.files[f].path == db.files[g].path ==> f == g)
  }

  /** Foreign keys of batch_files, and which files are planned. */
  ghost predicate MembersOk(db: Db) {
    && (forall f :: f in db.members ==>
          && f in db.files
          && db.members[f].batch in db.batches
          && Parent(db.files[f].path) == db.batches[db.members[f].batch].parent)
    && (forall f :: f in db.files ==> !db.files[f].status.FailedRetryable? && (f in db.members <==> !db.files[f].status.Discovered?))
  }

  /** Every batch row was written together with its files and its provenance rows. */
  ghost predicate BatchOk(db: Db, b: BatchId)
    requires b in db.batches
  {
    && db.batches[b].stagingPath == BatchDir(b)
    && FilesOf(db, b) != {}
    && BaiduBatchDir(b) in db.owned
    && BaiduTaskRoot in db.owned
  }

  ghost predicate TotalOk(db: Db, b: BatchId)
    requires b in db.batches
  {
    && FilesOf(db, b) <= db.files.Keys
    && db.batches[b].fileCount == |FilesOf(db, b)|
    && db.batches[b].totalBytes == SizeSum(db.files, FilesOf(db, b))
  }

  /** What a file's status says about its other columns and its provenance. */
  ghost predicate FileOk(db: Db, f: FileId)
    requires f in db.files && f in db.members
  {
    var row, b := db.files[f], db.members[f].batch;
    && (StagedOrLater(row.status) ==> row.stagingPath == StagedFile(b, Base(row.path)))
    && (AwaitsDrive(row.status) || Verified(row.status) ==>
          row.cachePath == BinFile(f) && LocalCacheFile(f) in db.owned)
    && (row.status.DriveUploaded? || Verified(row.status) ==> row.driveId != "")
    && (row.status.CleanupPending? || row.status.Done? ==> Allowed(db, BaiduBatchDir(b)) && Allowed(db, LocalCacheFile(f)))
    && (row.status.Done? ==> Cleaned(db, BaiduBatchDir(b)) && Cleaned(db, LocalCacheFile(f)))
    && (Allowed(db, BaiduBatchDir(b)) ==> Allowed(db, LocalCacheFile(f)))
  }

  predicate PastVerification(s: FileStatus) {
    s.CleanupPending? || s.Done? || s.FailedPermanent?
  }

  /** Provenance rows name derived paths, and permission to delete was given only past DRIVE_VERIFIED. */
  ghost predicate OwnedOk(db: Db, k: OwnedKey)
    requires k in db.owned
  {
    var row := db.owned[k];
    && (row.cleaned ==> row.allowed)
    && match k
       case LocalCacheFile(f) =>
         && row.path == InCache(BinFile(f))
         && f in db.members && f in db.files
         && (row.allowed ==> PastVerification(db.files[f].status) && db.files[f].driveId != "")
       case BaiduBatchDir(b) =>
         && row.path == InStaging(BatchDir(b))
         && b in db.batches
       case BaiduTaskRoot => row.path == InStaging(TaskRoot)
       case DriveTaskRoot(_) => !row.allowed
       case DriveFile(_) => !row.allowed
  }

  ghost predicate Consistent(db: Db) {
    && PathsOk(db)
    && MembersOk(db)
    && (forall b :: b in db.batches ==> BatchOk(db, b))
    && (forall b :: b in db.batches ==> TotalOk(db, b))
    && (forall f :: f in db.members ==> FileOk(db, f))
    && (forall k :: k in db.owned ==> OwnedOk(db, k))
  }
}
