/** What each committed transaction of internal/state does to the tables, stated
    declaratively. The methods of the store modules and of class World carry out the
    source's statement-by-statement form and are proved to do exactly this. */
module Transactions {
  import opened Wrappers
  import opened Model
  import opened Tables

  /** One entry of a manifest page; remote is the provider path it was listed under. */
  datatype ManifestFile = ManifestFile(id: FileId, remote: Path, path: Path, parent: Path, name: string, size: int, md5: Digest)

  /** One batch as a planner hands it to the tables. */
  datatype Chunk = Chunk(batch: BatchId, parent: Path, files: seq<FileId>)

  /** Every transaction of the store, with its arguments. */
  datatype Op =
    | UpsertPage(dirs: seq<Path>, files: seq<ManifestFile>)
    | CompleteScan
    | SetTaskStatus(status: TaskStatus)
    | SetDriveRoot(name: string, id: DriveId)
    | Plan(chunks: seq<Chunk>)
    | StartBatch(batch: BatchId)
    | RecordStaged(batch: BatchId, staged: map<FileId, StagingPath>)
    | CompleteBatch(batch: BatchId)
    | FailBatch(batch: BatchId, permanent: bool)
    | StartDownload(file: FileId, cache: CachePath)
    | MarkLocalReady(file: FileId, cache: CachePath)
    | DownloadFailure(file: FileId, permanent: bool)
    | StartDriveUpload(file: FileId)
    | RecordUploaded(file: FileId, driveId: DriveId)
    | MarkVerified(file: FileId, driveId: DriveId)
    | DriveFailure(file: FileId, permanent: bool)
    | AuthorizeBatch(batch: BatchId)
    | MarkCleaned(key: OwnedKey)
    | CompleteCleanup(batch: BatchId)
    | AuthorizeRoot

  // ----- manifest ------------------------------------------------------------

  predicate CanonicalName(n: string) {
    n != "" && n != "." && n != ".." && '/' !in n && '\0' !in n
  }

  predicate CanonicalPath(p: Path) {
    forall n :: n in p ==> CanonicalName(n)
  }

  predicate PathIsFile(db: Db, p: Path) {
    exists f :: f in db.files && db.files[f].path == p
  }

  function UpsertDirectory(db: Db, p: Path): Option<Db> {
    if p == [] || !CanonicalPath(p) || PathIsFile(db, p) then None
    else Some(db.(directories := db.directories + {p}))
  }

  predicate WellFormedEntry(m: ManifestFile) {
    && m.path != [] && CanonicalPath(m.path) && CanonicalPath(m.parent)
    && m.name != "" && 0 <= m.size
    && Parent(m.path) == m.parent && Base(m.path) == m.name
  }

  /** An existing source ID may only be seen again with the same path, size and known MD5. */
  predicate SameSource(row: FileRow, m: ManifestFile) {
    && row.path == m.path && row.size == m.size
    && (row.md5 == "" || m.md5 == "" || row.md5 == m.md5)
  }

  function NewRow(m: ManifestFile): FileRow
    requires 0 <= m.size
  {
    FileRow(m.path, m.size, m.md5, Discovered, NoStaging, NoCache, "", 0)
  }

  function UpsertFile(db: Db, m: ManifestFile): Option<Db> {
    if !WellFormedEntry(m) || m.path in db.directories then None
    else if m.id in db.files then
      var row := db.files[m.id];
      if !SameSource(row, m) then None
      else Some(db.(files := db.files[m.id := row.(md5 := if row.md5 == "" then m.md5 else row.md5)]))
    else if PathIsFile(db, m.path) then None
    else Some(db.(files := db.files[m.id := NewRow(m)]))
  }

  /** Directories of a page in order; one refusal rolls the page back. */
  function UpsertDirectories(db: Db, dirs: seq<Path>): Option<Db> {
    if dirs == [] then Some(db)
    else
      var before := UpsertDirectories(db, dirs[..|dirs| - 1]);
      if before.None? then None else UpsertDirectory(before.value, dirs[|dirs| - 1])
  }

  function UpsertFiles(db: Db, files: seq<ManifestFile>): Option<Db> {
    if files == [] then Some(db)
    else
      var before := UpsertFiles(db, files[..|files| - 1]);
      if before.None? then None else UpsertFile(before.value, files[|files| - 1])
  }

  function UpsertManifest(db: Db, dirs: seq<Path>, files: seq<ManifestFile>): Option<Db> {
    var withDirs := UpsertDirectories(db, dirs);
    if withDirs.None? then None else UpsertFiles(withDirs.value, files)
  }

  // ----- planning ------------------------------------------------------------

  predicate Distinct<T(==)>(s: seq<T>) {
    forall i, j :: 0 <= i < j < |s| ==> s[i] != s[j]
  }

  function SizeSeq(files: map<FileId, FileRow>, ids: seq<FileId>): nat
    requires forall f :: f in ids ==> f in files
  {
    if ids == [] then 0
    else
      var last := ids[|ids| - 1];
      assert last in ids;
      SizeSeq(files, ids[..|ids| - 1]) + files[last].size
  }

  /** Undispatched files of one parent directory, under a batch ID not yet used. */
  predicate CanPlanChunk(db: Db, c: Chunk) {
    && c.batch !in db.batches
    && c.files != [] && Distinct(c.files)
    && forall f :: f in c.files ==>
         f in db.files && db.files[f].status.Discovered? && f !in db.members && Parent(db.files[f].path) == c.parent
  }

  function InsertIfAbsent(owned: map<OwnedKey, OwnedRow>, k: OwnedKey, path: ObjectPath): map<OwnedKey, OwnedRow> {
    if k in owned then owned else owned[k := OwnedRow(path, false, false)]
  }

  /** batch_files rows for each file in turn, numbered in order. */
  function WithMembers(members: map<FileId, Member>, b: BatchId, ids: seq<FileId>): map<FileId, Member> {
    if ids == [] then members
    else WithMembers(members, b, ids[..|ids| - 1])[ids[|ids| - 1] := Member(b, |ids| - 1)]
  }

  function PlanChunk(db: Db, c: Chunk): Db
    requires CanPlanChunk(db, c)
  {
    db.(batches := db.batches[c.batch := BatchRow(c.parent, BatchDir(c.batch), BatchPending, |c.files|, SizeSeq(db.files, c.files), 0)],
        owned := InsertIfAbsent(db.owned, BaiduBatchDir(c.batch), InStaging(BatchDir(c.batch))),
        members := WithMembers(db.members, c.batch, c.files),
        files := map f | f in db.files :: if f in c.files then db.files[f].(status := Planned) else db.files[f])
  }

  function PlanChunks(db: Db, chunks: seq<Chunk>): Option<Db> {
    if chunks == [] then Some(db)
    else
      var before := PlanChunks(db, chunks[..|chunks| - 1]);
      var c := chunks[|chunks| - 1];
      if before.None? || !CanPlanChunk(before.value, c) then None else Some(PlanChunk(before.value, c))
  }

  function RegisterTaskRoot(db: Db): Db {
    db.(owned := InsertIfAbsent(db.owned, BaiduTaskRoot, InStaging(TaskRoot)))
  }

  /** An empty plan commits without registering anything. */
  function PlanAll(db: Db, chunks: seq<Chunk>): Option<Db> {
    if chunks == [] then Some(db) else PlanChunks(RegisterTaskRoot(db), chunks)
  }

  // ----- staging -------------------------------------------------------------

  /** UPDATE files SET status = to WHERE file_id IN ids AND status = from. */
  function SetStatus(files: map<FileId, FileRow>, ids: set<FileId>, from: FileStatus, to: FileStatus): map<FileId, FileRow> {
    map f | f in files :: if f in ids && files[f].status == from then files[f].(status := to) else files[f]
  }

  function Staging(row: FileRow): FileRow {
    if row.status.Planned? || row.status.FailedRetryable? then row.(status := BaiduStaging) else row
  }

  predicate StageableBatch(s: BatchStatus) {
    s.BatchPending? || s.BatchStaging? || s.BatchFailedRetryable?
  }

  predicate CanStartBatch(db: Db, b: BatchId) {
    b in db.batches && StageableBatch(db.batches[b].status)
  }

  function AfterStartBatch(db: Db, b: BatchId): Db
    requires b in db.batches
  {
    db.(batches := db.batches[b := db.batches[b].(status := BatchStaging)],
        files := map f | f in db.files :: if f in FilesOf(db, b) then Staging(db.files[f]) else db.files[f])
  }

  /** Either still waiting to be staged, or already confirmed at the very same path. */
  predicate CanConfirm(db: Db, b: BatchId, f: FileId, p: StagingPath) {
    && f in db.files && f in db.members && db.members[f].batch == b
    && p == StagedFile(b, Base(db.files[f].path))
    && (AwaitsStaging(db.files[f].status) || (StagedOrLater(db.files[f].status) && db.files[f].stagingPath == p))
  }

  predicate CanRecordStaged(db: Db, b: BatchId, staged: map<FileId, StagingPath>) {
    staged.Keys == {} || (b in db.batches && db.batches[b].stagingPath == BatchDir(b) && forall f :: f in staged ==> CanConfirm(db, b, f, staged[f]))
  }

  function Confirmed(row: FileRow, p: StagingPath): FileRow {
    if AwaitsStaging(row.status) then row.(status := BaiduStaged, stagingPath := p) else row
  }

  function AfterRecordStaged(db: Db, staged: map<FileId, StagingPath>): Db {
    db.(files := map f | f in db.files :: if f in staged then Confirmed(db.files[f], staged[f]) else db.files[f])
  }

  predicate CanCompleteBatch(db: Db, b: BatchId) {
    b in db.batches && forall f :: f in FilesOf(db, b) && f in db.files ==> StagedOrLater(db.files[f].status)
  }

  function AfterFailBatch(db: Db, b: BatchId, permanent: bool): Db {
    var batches := if b !in db.batches then db.batches
      else db.batches[b := db.batches[b].(status := if permanent then BatchFailedPermanent else BatchFailedRetryable,
                                          retries := db.batches[b].retries + 1)];
    db.(batches := batches,
        files := if !permanent then db.files
                 else map f | f in db.files :: if f in FilesOf(db, b) && !db.files[f].status.BaiduStaged?
                                               then db.files[f].(status := FailedPermanent) else db.files[f])
  }

  // ----- download ------------------------------------------------------------

  predicate CanMarkLocalReady(db: Db, f: FileId, c: CachePath) {
    && SafeComponent(db.task.id) && c == BinFile(f)
    && f in db.files && (AwaitsDownload(db.files[f].status) || db.files[f].status.LocalReady?)
    && (LocalCacheFile(f) in db.owned ==> db.owned[LocalCacheFile(f)] == OwnedRow(InCache(BinFile(f)), false, false))
  }

  function AfterMarkLocalReady(db: Db, f: FileId): Db
    requires f in db.files
  {
    db.(files := db.files[f := db.files[f].(status := LocalReady, cachePath := BinFile(f))],
        owned := InsertIfAbsent(db.owned, LocalCacheFile(f), InCache(BinFile(f))))
  }

  function Failed(row: FileRow, to: FileStatus): FileRow {
    row.(status := to, retries := row.retries + 1)
  }

  // ----- drive ---------------------------------------------------------------

  predicate CanSetDriveRoot(db: Db, name: string, id: DriveId) {
    && name != "" && id != "" && db.task.id != ""
    && (db.task.driveRootId == "" || db.task.driveRootId == id)
    && (db.task.driveRootName == "" || db.task.driveRootName == name)
  }

  function UpsertOwnedPath(owned: map<OwnedKey, OwnedRow>, k: OwnedKey, path: ObjectPath): map<OwnedKey, OwnedRow> {
    owned[k := if k in owned then owned[k].(path := path) else OwnedRow(path, false, false)]
  }

  predicate CanRecordUploaded(db: Db, f: FileId, id: DriveId) {
    && id != "" && f in db.files && AwaitsDrive(db.files[f].status)
    && (db.files[f].driveId == "" || db.files[f].driveId == id)
  }

  predicate CanMarkVerified(db: Db, f: FileId, id: DriveId) {
    id != "" && f in db.files && (db.files[f].status.DriveUploaded? || db.files[f].status.DriveVerified?) && db.files[f].driveId == id
  }

  // ----- cleanup -------------------------------------------------------------

  /** CleanupCandidates: a batch with files, all verified or already in cleanup. */
  predicate Candidate(db: Db, b: BatchId) {
    && b in db.batches && FilesOf(db, b) != {}
    && forall f :: f in FilesOf(db, b) && f in db.files ==> AwaitsCleanup(db.files[f].status)
  }

  /** One file's evidence in AuthorizeBatchCleanup. */
  predicate FileEligible(db: Db, f: FileId) {
    f in db.files && AwaitsCleanup(db.files[f].status) && db.files[f].driveId != "" && db.files[f].cachePath == BinFile(f)
  }

  /** The same with its provenance row: at the derived path, or still to be backfilled. */
  predicate FileAuthorizable(db: Db, f: FileId) {
    FileEligible(db, f) && (LocalCacheFile(f) in db.owned ==> db.owned[LocalCacheFile(f)].path == InCache(BinFile(f)))
  }

  predicate AllEligible(db: Db, b: BatchId) {
    forall f :: f in FilesOf(db, b) ==> FileEligible(db, f)
  }

  predicate AllAuthorizable(db: Db, b: BatchId) {
    forall f :: f in FilesOf(db, b) ==> FileAuthorizable(db, f)
  }

  predicate CanAuthorizeBatch(db: Db, b: BatchId) {
    && SafeComponent(db.task.id)
    && b in db.batches && db.batches[b].stagingPath == BatchDir(b)
    && FilesOf(db, b) != {}
    && AllAuthorizable(db, b)
    && BaiduBatchDir(b) in db.owned && db.owned[BaiduBatchDir(b)].path == InStaging(BatchDir(b))
  }

  /** The row of an authorized object: permission given, the cleaned mark kept. */
  function Permit(owned: map<OwnedKey, OwnedRow>, k: OwnedKey, path: ObjectPath): OwnedRow {
    OwnedRow(path, true, k in owned && owned[k].cleaned)
  }

  function AuthorizedRows(db: Db, b: BatchId): map<OwnedKey, OwnedRow> {
    db.owned
    + (map f | f in FilesOf(db, b) :: LocalCacheFile(f) := Permit(db.owned, LocalCacheFile(f), InCache(BinFile(f))))
    + map[BaiduBatchDir(b) := Permit(db.owned, BaiduBatchDir(b), InStaging(BatchDir(b)))]
  }

  function AfterAuthorizeBatch(db: Db, b: BatchId): Db {
    db.(files := SetStatus(db.files, FilesOf(db, b), DriveVerified, CleanupPending), owned := AuthorizedRows(db, b))
  }

  predicate Deletable(k: OwnedKey) {
    k.LocalCacheFile? || k.BaiduBatchDir? || k.BaiduTaskRoot?
  }

  function AfterMarkCleaned(db: Db, k: OwnedKey): Db
    requires k in db.owned
  {
    db.(owned := db.owned[k := db.owned[k].(cleaned := true)])
  }

  /** Every file of the batch is in cleanup, and every one of its objects is recorded removed. */
  predicate CanCompleteCleanup(db: Db, b: BatchId) {
    && FilesOf(db, b) != {}
    && (forall f :: f in FilesOf(db, b) ==> f in db.files && db.files[f].status.CleanupPending? && Cleaned(db, LocalCacheFile(f)))
    && Cleaned(db, BaiduBatchDir(b))
  }

  function AfterCompleteCleanup(db: Db, b: BatchId): Db {
    db.(files := SetStatus(db.files, FilesOf(db, b), CleanupPending, Done))
  }

  predicate AllDone(db: Db) {
    forall f :: f in db.files ==> db.files[f].status.Done?
  }

  predicate AllBatchesCleaned(db: Db) {
    forall b :: b in db.batches ==> Cleaned(db, BaiduBatchDir(b))
  }

  /** The task root is registered, not yet cleaned, and everything below it is finished. */
  predicate RootCandidate(db: Db) {
    BaiduTaskRoot in db.owned && !db.owned[BaiduTaskRoot].cleaned && AllDone(db) && AllBatchesCleaned(db)
  }

  predicate CanAuthorizeRoot(db: Db) {
    && SafeComponent(db.task.id) && AllDone(db) && AllBatchesCleaned(db)
    && BaiduTaskRoot in db.owned && db.owned[BaiduTaskRoot].path == InStaging(TaskRoot)
  }

  /** An already cleaned root is returned as it is. */
  function AfterAuthorizeRoot(db: Db): Db
    requires BaiduTaskRoot in db.owned
  {
    if db.owned[BaiduTaskRoot].cleaned then db
    else db.(owned := db.owned[BaiduTaskRoot := db.owned[BaiduTaskRoot].(allowed := true)])
  }

  // ----- all together --------------------------------------------------------

  function UpdateFile(db: Db, f: FileId, row: FileRow): Db {
    db.(files := db.files[f := row])
  }

  /** The tables after a transaction commits, or None when it refuses and rolls back. */
  function Attempt(db: Db, op: Op): Option<Db> {
    match op
    case UpsertPage(dirs, files) => UpsertManifest(db, dirs, files)
    case CompleteScan =>
      if db.task.scanCompleted || !db.task.status.TaskScanning? then None
      else Some(db.(task := db.task.(scanCompleted := true, status := TaskPaused)))
    case SetTaskStatus(s) => Some(db.(task := db.task.(status := s)))
    case SetDriveRoot(name, id) =>
      if !CanSetDriveRoot(db, name, id) then None
      else Some(db.(task := db.task.(driveRootId := id, driveRootName := name),
                    owned := UpsertOwnedPath(db.owned, DriveTaskRoot(id), InDrive([name]))))
    case Plan(chunks) => PlanAll(db, chunks)
    case StartBatch(b) => if CanStartBatch(db, b) then Some(AfterStartBatch(db, b)) else None
    case RecordStaged(b, staged) => if CanRecordStaged(db, b, staged) then Some(AfterRecordStaged(db, staged)) else None
    case CompleteBatch(b) =>
      if CanCompleteBatch(db, b) then Some(db.(batches := db.batches[b := db.batches[b].(status := BatchStaged)])) else None
    case FailBatch(b, permanent) => Some(AfterFailBatch(db, b, permanent))
    case StartDownload(f, c) =>
      if f in db.files && AwaitsDownload(db.files[f].status) then Some(UpdateFile(db, f, db.files[f].(status := Downloading, cachePath := c))) else None
    case MarkLocalReady(f, c) => if CanMarkLocalReady(db, f, c) then Some(AfterMarkLocalReady(db, f)) else None
    case DownloadFailure(f, permanent) =>
      if f in db.files && AwaitsDownload(db.files[f].status)
      then Some(UpdateFile(db, f, Failed(db.files[f], if permanent then FailedPermanent else Downloading))) else None
    case StartDriveUpload(f) =>
      if f in db.files && (db.files[f].status.LocalReady? || db.files[f].status.DriveUploading?) then Some(UpdateFile(db, f, db.files[f].(status := DriveUploading))) else None
    case RecordUploaded(f, id) =>
      if CanRecordUploaded(db, f, id)
      then Some(UpdateFile(db, f, db.files[f].(status := DriveUploaded, driveId := id))
                .(owned := UpsertOwnedPath(db.owned, DriveFile(id), InDrive(db.files[f].path)))) else None
    case MarkVerified(f, id) =>
      if CanMarkVerified(db, f, id) then Some(UpdateFile(db, f, db.files[f].(status := DriveVerified))) else None
    case DriveFailure(f, permanent) =>
      if f in db.files && AwaitsDrive(db.files[f].status)
      then Some(UpdateFile(db, f, Failed(db.files[f], if permanent then FailedPermanent else db.files[f].status))) else None
    case AuthorizeBatch(b) => if CanAuthorizeBatch(db, b) then Some(AfterAuthorizeBatch(db, b)) else None
    case MarkCleaned(k) => if Deletable(k) && Allowed(db, k) then Some(AfterMarkCleaned(db, k)) else None
    case CompleteCleanup(b) => if CanCompleteCleanup(db, b) then Some(AfterCompleteCleanup(db, b)) else None
    case AuthorizeRoot => if CanAuthorizeRoot(db) then Some(AfterAuthorizeRoot(db)) else None
  }

  /** The durable effect of calling a transaction: a refused one leaves nothing behind. */
  function Exec(db: Db, op: Op): Db {
    var r := Attempt(db, op);
    if r.None? then db else r.value
  }
}
