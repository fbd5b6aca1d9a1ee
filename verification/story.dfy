/** Runs that do happen: lawful steps in the order in which the engines take them, but for the notes in the task
    row, put together to histories in which the program does not keep what its documentation suggests. */
module Story {
  import opened Wrappers
  import opened Model
  import opened Tables
  import opened Transactions
  import opened Invariant
  import opened Runs
  import opened Durable
  import opened Worlds
  import opened Progresses
  import opened Laws
  import opened Safety
  import opened Restaging
  import opened ManifestStore
  import opened Deferral
  import opened Stage
  import opened Stager
  import opened StagingStore
  import Cleanup
  import Recovery

  /** Some lawful run from the creation of the task on leads here. */
  ghost predicate Reaches(k: Rules, s: Snap) {
    exists states: seq<Snap>, moves: seq<Move> :: LawfulRun(k, states, moves) && states[|moves|] == s
  }

  function Created(id: string): Snap {
    Snap(EmptyDb(id), map[], Baidu(false, map[]), map[])
  }

  lemma Start(k: Rules, id: string)
    ensures Reaches(k, Created(id))
  {
    assert LawfulRun(k, [Created(id)], []);
  }

  /** Lawful evidence for one step; deleting the root would need the listing before it, too. */
  ghost predicate MayTake(k: Rules, s: Snap, m: Move, s': Snap) {
    && Step(s, m, s') && m != DeleteStaging(TaskRoot)
    && if OfCleanup(m) then Cleanup.Legal(k.honest, s, [m], 0) else LawfulStep(k, s, m, s')
  }

  lemma Next(k: Rules, s: Snap, m: Move, s': Snap)
    requires Reaches(k, s) && MayTake(k, s, m, s')
    ensures Reaches(k, s')
  {
    var states: seq<Snap>, moves: seq<Move> :| LawfulRun(k, states, moves) && states[|moves|] == s;
    LegalAlone(k.honest, s, moves, m);
    NextInRun(k, states, moves, m, s');
  }

  lemma NextInRun(k: Rules, states: seq<Snap>, moves: seq<Move>, m: Move, s': Snap)
    requires LawfulRun(k, states, moves) && Step(states[|moves|], m, s')
    requires if OfCleanup(m) then Cleanup.Legal(k.honest, states[|moves|], moves + [m], |moves|) else LawfulStep(k, states[|moves|], m, s')
    ensures Reaches(k, s')
  {
    hide LawfulStep, Step;
    RunOn(k, states, moves, m, s');
    assert (states + [s'])[|moves + [m]|] == s';
  }

  /** A transaction that commits these tables, with its evidence. */
  lemma Commits(k: Rules, s: Snap, op: Op, s': Snap)
    requires Attempt(s.db, op) == Some(s'.db) && s' == s.(db := s'.db)
    requires if OfCleanup(Tx(op)) then Cleanup.Legal(k.honest, s, [Tx(op)], 0) else LawfulTx(k, s, op)
    ensures MayTake(k, s, Tx(op), s')
  {
    hide Attempt, LawfulTx, Cleanup.Legal;
  }

  lemma LegalAlone(honest: bool, s: Snap, moves: seq<Move>, m: Move)
    requires m != DeleteStaging(TaskRoot)
    ensures Cleanup.Legal(honest, s, [m], 0) <==> Cleanup.Legal(honest, s, moves + [m], |moves|)
  {
  }

  lemma ReachedInOrder(k: Rules, s: Snap)
    requires Reaches(k, s)
    ensures Consistent(s.db)
  {
    var states: seq<Snap>, moves: seq<Move> :| LawfulRun(k, states, moves) && states[|moves|] == s;
    RunOfStore(states, moves);
    RunConsistent(Dbs(states), |moves|);
  }

  // ----- a staged file can be delivered ---------------------------------------------------

  /** Staged, nothing of it in the cache or in Drive yet, and the source as the manifest says. */
  ghost predicate Deliverable(k: Rules, s: Snap, f: FileId, id: DriveId) {
    && f in s.db.files && s.db.files[f].status.BaiduStaged? && s.db.files[f].driveId == "" && SafeComponent(s.db.task.id)
    && LocalCacheFile(f) !in s.db.owned && DriveFile(id) !in s.db.owned && PartFile(f) !in s.cache && BinFile(f) !in s.cache
    && Checks(k.truth, s.db.files[f], k.truth.source(f))
    && id != "" && id !in s.drive && forall other :: other in s.drive ==> s.drive[other].path != s.db.files[f].path
  }

  function WithRow(s: Snap, f: FileId, row: FileRow): Snap {
    s.(db := s.db.(files := s.db.files[f := row]))
  }

  function Fetched(k: Rules, s: Snap, f: FileId): Snap
    requires f in s.db.files
  {
    var row := s.db.files[f].(status := Downloading, cachePath := PartFile(f));
    WithRow(s, f, row).(cache := s.cache[BinFile(f) := k.truth.source(f)])
  }

  function MadeReady(k: Rules, s: Snap, f: FileId, status: FileStatus): Snap
    requires f in s.db.files
  {
    var row := s.db.files[f].(status := status, cachePath := BinFile(f));
    var ready := WithRow(s, f, row).(cache := s.cache[BinFile(f) := k.truth.source(f)]);
    ready.(db := ready.db.(owned := s.db.owned[LocalCacheFile(f) := OwnedRow(InCache(BinFile(f)), false, false)]))
  }

  function Delivered(k: Rules, s: Snap, f: FileId, id: DriveId, status: FileStatus): Snap
    requires f in s.db.files
  {
    var row := s.db.files[f];
    var ready := MadeReady(k, s, f, status);
    ready.(db := ready.db.(files := s.db.files[f := row.(status := status, cachePath := BinFile(f), driveId := id)],
                           owned := ready.db.owned[DriveFile(id) := OwnedRow(InDrive(row.path), false, false)]),
           drive := s.drive[id := DriveObject(row.path, row.size, k.truth.md5(k.truth.source(f)), false)])
  }

  function Started(s: Snap, f: FileId): Snap
    requires f in s.db.files
  {
    WithRow(s, f, s.db.files[f].(status := Downloading, cachePath := PartFile(f)))
  }

  function Written(k: Rules, s: Snap, f: FileId): Snap
    requires f in s.db.files
  {
    Started(s, f).(cache := s.cache[PartFile(f) := k.truth.source(f)])
  }

  function Copied(k: Rules, s: Snap, f: FileId, id: DriveId): Snap
    requires f in s.db.files
  {
    MadeReady(k, s, f, DriveUploading).(drive := s.drive[id := DriveObject(s.db.files[f].path, s.db.files[f].size, k.truth.md5(k.truth.source(f)), false)])
  }

  lemma Starts(k: Rules, s: Snap, f: FileId, id: DriveId)
    requires Deliverable(k, s, f, id)
    ensures MayTake(k, s, Tx(StartDownload(f, PartFile(f))), Started(s, f))
  {
  }

  lemma Requests(k: Rules, s: Snap, f: FileId, id: DriveId)
    requires Deliverable(k, s, f, id)
    ensures MayTake(k, Started(s, f), RequestRange(f, 0), Started(s, f))
  {
  }

  lemma Writes(k: Rules, s: Snap, f: FileId, id: DriveId)
    requires Deliverable(k, s, f, id)
    ensures MayTake(k, Started(s, f), WriteLocal(PartFile(f)), Written(k, s, f))
  {
    var bytes := k.truth.source(f);
    assert Written(k, s, f).cache - {PartFile(f)} == s.cache - {PartFile(f)};
    assert bytes == [] + bytes && Serves(bytes, 0, bytes) by { assert bytes[0..] == bytes; }
    assert Appended(k, f, [], bytes);
  }

  lemma Renames(k: Rules, s: Snap, f: FileId, id: DriveId)
    requires Deliverable(k, s, f, id)
    ensures MayTake(k, Written(k, s, f), RenameLocal(PartFile(f), BinFile(f)), Fetched(k, s, f))
  {
    var written := Written(k, s, f);
    assert (written.cache - {PartFile(f)})[BinFile(f) := written.cache[PartFile(f)]] == Fetched(k, s, f).cache;
  }

  lemma Readies(k: Rules, s: Snap, f: FileId, id: DriveId)
    requires Deliverable(k, s, f, id)
    ensures MayTake(k, Fetched(k, s, f), Tx(MarkLocalReady(f, BinFile(f))), MadeReady(k, s, f, LocalReady))
  {
    hide SafeComponent;
    var fetched, ready := Fetched(k, s, f), MadeReady(k, s, f, LocalReady);
    assert CanMarkLocalReady(fetched.db, f, BinFile(f));
    assert AfterMarkLocalReady(fetched.db, f).files == ready.db.files;
  }

  lemma Uploads(k: Rules, s: Snap, f: FileId, id: DriveId)
    requires Deliverable(k, s, f, id)
    ensures MayTake(k, MadeReady(k, s, f, LocalReady), Tx(StartDriveUpload(f)), MadeReady(k, s, f, DriveUploading))
  {
    var ready, uploading := MadeReady(k, s, f, LocalReady), MadeReady(k, s, f, DriveUploading);
    assert uploading.db.files == ready.db.files[f := uploading.db.files[f]];
  }

  lemma Copies(k: Rules, s: Snap, f: FileId, id: DriveId)
    requires Deliverable(k, s, f, id)
    ensures MayTake(k, MadeReady(k, s, f, DriveUploading), CopyTo(f), Copied(k, s, f, id))
  {
  }

  lemma Records(k: Rules, s: Snap, f: FileId, id: DriveId)
    requires Deliverable(k, s, f, id)
    ensures MayTake(k, Copied(k, s, f, id), Tx(RecordUploaded(f, id)), Delivered(k, s, f, id, DriveUploaded))
  {
    hide Attempt, SafeComponent;
    var copied, recorded := Copied(k, s, f, id), Delivered(k, s, f, id, DriveUploaded);
    assert Stored(k.truth, copied, f, id);
    RecordedRows(k, s, f, id);
    Commits(k, copied, RecordUploaded(f, id), recorded);
  }

  lemma RecordedRows(k: Rules, s: Snap, f: FileId, id: DriveId)
    requires Deliverable(k, s, f, id)
    ensures Attempt(Copied(k, s, f, id).db, RecordUploaded(f, id)) == Some(Delivered(k, s, f, id, DriveUploaded).db)
  {
    hide SafeComponent;
    var copied, recorded := Copied(k, s, f, id), Delivered(k, s, f, id, DriveUploaded);
    assert recorded.db.files == copied.db.files[f := recorded.db.files[f]];
  }

  lemma Verifies(k: Rules, s: Snap, f: FileId, id: DriveId)
    requires Deliverable(k, s, f, id)
    ensures MayTake(k, Delivered(k, s, f, id, DriveUploaded), Tx(MarkVerified(f, id)), Delivered(k, s, f, id, DriveVerified))
  {
    var recorded, verified := Delivered(k, s, f, id, DriveUploaded), Delivered(k, s, f, id, DriveVerified);
    assert Stored(k.truth, recorded, f, id);
    assert verified.db.files == recorded.db.files[f := verified.db.files[f]];
  }

  /** Every staged file can be brought to DRIVE_VERIFIED: started, requested, written, renamed, marked ready, uploaded,
      recorded, verified. */
  lemma Delivers(k: Rules, s: Snap, f: FileId, id: DriveId)
    requires Reaches(k, s) && Deliverable(k, s, f, id)
    ensures Reaches(k, Delivered(k, s, f, id, DriveVerified))
  {
    hide Reaches, MayTake, Started, Written, Fetched, MadeReady, Copied, Delivered;
    Starts(k, s, f, id);
    Next(k, s, Tx(StartDownload(f, PartFile(f))), Started(s, f));
    Requests(k, s, f, id);
    Next(k, Started(s, f), RequestRange(f, 0), Started(s, f));
    Writes(k, s, f, id);
    Next(k, Started(s, f), WriteLocal(PartFile(f)), Written(k, s, f));
    Renames(k, s, f, id);
    Next(k, Written(k, s, f), RenameLocal(PartFile(f), BinFile(f)), Fetched(k, s, f));
    Readies(k, s, f, id);
    Next(k, Fetched(k, s, f), Tx(MarkLocalReady(f, BinFile(f))), MadeReady(k, s, f, LocalReady));
    Uploads(k, s, f, id);
    Next(k, MadeReady(k, s, f, LocalReady), Tx(StartDriveUpload(f)), MadeReady(k, s, f, DriveUploading));
    Copies(k, s, f, id);
    Next(k, MadeReady(k, s, f, DriveUploading), CopyTo(f), Copied(k, s, f, id));
    Records(k, s, f, id);
    Next(k, Copied(k, s, f, id), Tx(RecordUploaded(f, id)), Delivered(k, s, f, id, DriveUploaded));
    Verifies(k, s, f, id);
    Next(k, Delivered(k, s, f, id, DriveUploaded), Tx(MarkVerified(f, id)), Delivered(k, s, f, id, DriveVerified));
  }

  // ----- the steps of a staging pass --------------------------------------------------------

  lemma Opens(k: Rules, s: Snap, b: BatchId, s': Snap)
    requires StageTurn(k.maxCache, s.db, b) && Attempt(s.db, StartBatch(b)) == Some(s'.db) && s' == s.(db := s'.db)
    ensures MayTake(k, s, Tx(StartBatch(b)), s') && InTurn(k.maxCache, s'.db, b)
  {
    hide Attempt, StageTurn, OnlyBatch;
    StartOnlyBatch(s.db, s'.db, b);
    TurnOn(k.maxCache, s.db, s'.db, b);
    Commits(k, s, StartBatch(b), s');
  }

  function Made(s: Snap, b: BatchId): Snap {
    s.(baidu := Baidu(true, s.baidu.dirs[b := map[]]))
  }

  lemma Makes(k: Rules, s: Snap, b: BatchId)
    requires InTurn(k.maxCache, s.db, b) && b !in s.baidu.dirs
    ensures MayTake(k, s, MakeStaging(b), Made(s, b))
  {
    hide InTurn;
  }

  lemma Sends(k: Rules, s: Snap, b: BatchId, ids: seq<FileId>, s': Snap)
    requires InTurn(k.maxCache, s.db, b) && NotYetStaged(s, b, ids) && HonestTransfer(s, s', b, ids)
    requires s' == s.(baidu := s'.baidu) && s'.baidu.dirs.Keys == s.baidu.dirs.Keys
    ensures MayTake(k, s, Transfer(b, ids), s')
  {
    hide InTurn, NotYetStaged, HonestTransfer;
  }

  /** Confirmations of what is there never exceed what the admission check allowed for. */
  lemma Confirms(k: Rules, s: Snap, b: BatchId, staged: map<FileId, StagingPath>, s': Snap)
    requires Consistent(s.db) && InTurn(k.maxCache, s.db, b) && NothingStaged(s.db) && staged != map[]
    requires Attempt(s.db, RecordStaged(b, staged)) == Some(s'.db) && s' == s.(db := s'.db)
    requires b in s.baidu.dirs && forall f :: f in staged && f in s.db.files ==> Base(s.db.files[f].path) in s.baidu.dirs[b]
    ensures MayTake(k, s, Tx(RecordStaged(b, staged)), s') && InTurn(k.maxCache, s'.db, b)
  {
    hide Consistent, Attempt, OnlyBatch, Claim, Potential, Reserved, AfterRecordStaged, CanRecordStaged;
    RecordedTx(s.db, s'.db, b, staged);
    RecordingOnlyBatch(s.db, b, staged);
    StillBeingStaged(s.db, staged, b);
    TurnOn(k.maxCache, s.db, s'.db, b);
    ClaimOfFirst(s.db, b);
    ClaimKept(s.db, s'.db, b);
    PotentialWithinClaim(s'.db, b);
    Commits(k, s, RecordStaged(b, staged), s');
  }

  lemma StillBeingStaged(db: Db, staged: map<FileId, StagingPath>, b: BatchId)
    requires BeingStaged(db, b)
    ensures BeingStaged(AfterRecordStaged(db, staged), b)
  {
  }

  // ----- a task of two files in one batch ---------------------------------------------------

  function Entry(id: FileId, name: string): ManifestFile {
    ManifestFile(id, [name], [name], [], name, 1, "")
  }

  const FIRST := Entry(1, "a")
  const SECOND := Entry(2, "b")

  /** True remotes, and two sources of one byte each. */
  ghost predicate Setting(k: Rules) {
    && k.honest && |k.truth.source(1)| == 1 && |k.truth.source(2)| == 1
    && (k.share.Some? ==> k.share.value == Contents({}, map[1 := FIRST, 2 := SECOND]))
  }

  function RowOf(m: ManifestFile, status: FileStatus, staged: StagingPath): FileRow {
    FileRow(m.path, 1, "", status, staged, NoCache, "", 0)
  }

  function Unplanned(task: TaskRow): Db {
    Db(task, {}, map[1 := RowOf(FIRST, Discovered, NoStaging), 2 := RowOf(SECOND, Discovered, NoStaging)], map[], map[], map[])
  }

  function TaskAt(status: TaskStatus, scanned: bool, root: bool): TaskRow {
    TaskRow("t", status, scanned, if root then "r" else "", if root then "root" else "")
  }

  function Rows(): map<OwnedKey, OwnedRow> {
    map[DriveTaskRoot("r") := OwnedRow(InDrive(["root"]), false, false),
        BaiduTaskRoot := OwnedRow(InStaging(TaskRoot), false, false),
        BaiduBatchDir(0) := OwnedRow(InStaging(BatchDir(0)), false, false)]
  }

  /** The batch planned, its two files with these rows. */
  function PlannedDb(status: BatchStatus, first: FileRow, second: FileRow, retries: nat): Db {
    Db(TaskAt(TaskPaused, true, true), {}, map[1 := first, 2 := second], map[0 := BatchRow([], BatchDir(0), status, 2, 2, retries)],
       map[1 := Member(0, 0), 2 := Member(0, 1)], Rows())
  }

  function At(db: Db, dirs: map<BatchId, map<string, StagedObject>>): Snap {
    Snap(db, map[], Baidu(dirs != map[], dirs), map[])
  }

  function OpenedDb(): Db {
    PlannedDb(BatchStaging, RowOf(FIRST, BaiduStaging, NoStaging), RowOf(SECOND, BaiduStaging, NoStaging), 0)
  }

  lemma PageIsStored(k: Rules)
    requires Setting(k)
    ensures MayTake(k, Created("t"), Tx(UpsertPage([], [FIRST, SECOND])), At(Unplanned(TaskAt(TaskScanning, false, false)), map[]))
  {
    var db := EmptyDb("t");
    assert [FIRST, SECOND][..1] == [FIRST] && [FIRST][..0] == [];
    assert UpsertFiles(db, []) == Some(db);
    assert UpsertFile(db, FIRST) == Some(db.(files := map[1 := NewRow(FIRST)]));
    assert UpsertFiles(db, [FIRST]) == Some(db.(files := map[1 := NewRow(FIRST)]));
    assert UpsertFiles(db, [FIRST, SECOND]) == Some(db.(files := map[1 := NewRow(FIRST), 2 := NewRow(SECOND)]));
  }

  lemma ScanCompletes(k: Rules)
    requires Setting(k)
    ensures MayTake(k, At(Unplanned(TaskAt(TaskScanning, false, false)), map[]), Tx(CompleteScan), At(Unplanned(TaskAt(TaskPaused, true, false)), map[]))
  {
  }

  lemma RootIsMade(k: Rules)
    ensures MayTake(k, At(Unplanned(TaskAt(TaskPaused, true, false)), map[]), Tx(SetDriveRoot("root", "r")), At(Rooted(), map[]))
  {
  }

  const TOGETHER := Chunk(0, [], [1, 2])

  function Rooted(): Db {
    Unplanned(TaskAt(TaskPaused, true, true)).(owned := map[DriveTaskRoot("r") := OwnedRow(InDrive(["root"]), false, false)])
  }

  function FreshlyPlanned(): Db {
    PlannedDb(BatchPending, RowOf(FIRST, Planned, NoStaging), RowOf(SECOND, Planned, NoStaging), 0)
  }

  lemma ChunkPlanned()
    ensures var registered := RegisterTaskRoot(Rooted()); CanPlanChunk(registered, TOGETHER) && PlanChunk(registered, TOGETHER) == FreshlyPlanned()
  {
    var registered, planned := RegisterTaskRoot(Rooted()), FreshlyPlanned();
    assert CanPlanChunk(registered, TOGETHER);
    assert [1, 2][..1] == [1] && [1][..0] == [];
    assert WithMembers(map[], 0, [1]) == map[1 := Member(0, 0)];
    assert SizeSeq(registered.files, []) == 0 && SizeSeq(registered.files, [1]) == 1;
    assert PlanChunk(registered, TOGETHER).owned == planned.owned;
    assert PlanChunk(registered, TOGETHER).files == planned.files;
  }

  lemma BatchIsPlanned(k: Rules)
    ensures MayTake(k, At(Rooted(), map[]), Tx(Plan([TOGETHER])), At(FreshlyPlanned(), map[]))
  {
    hide Rooted, FreshlyPlanned, CanPlanChunk, PlanChunk;
    var registered := RegisterTaskRoot(Rooted());
    ChunkPlanned();
    assert [TOGETHER][..0] == [];
    assert PlanChunks(registered, []) == Some(registered);
    assert PlanChunks(registered, [TOGETHER]) == Some(FreshlyPlanned());
    assert Rooted().task.scanCompleted by { ScanDone(); }
    Commits(k, At(Rooted(), map[]), Plan([TOGETHER]), At(FreshlyPlanned(), map[]));
  }

  lemma ScanDone()
    ensures Rooted().task.scanCompleted
  {
  }

  lemma NothingReserved(db: Db)
    requires forall f :: f in db.files ==> !HoldsCache(db.files[f].status)
    ensures Reserved(db) == 0
  {
    forall f ensures f !in Caching(db) {}
    assert Caching(db) == {};
    assert SizeSum(db.files, {}) == 0;
  }

  lemma TheirTurn(k: Rules)
    requires k.maxCache >= 2
    ensures StageTurn(k.maxCache, FreshlyPlanned(), 0)
  {
    hide Reserved;
    var db := FreshlyPlanned();
    NothingReserved(db);
    assert 0 in Stageable(db);
    assert 1 in db.files && BeforeDownload(db.files[1].status);
  }

  lemma BatchOpens()
    ensures Attempt(FreshlyPlanned(), StartBatch(0)) == Some(OpenedDb())
  {
    var db := FreshlyPlanned();
    assert FilesOf(db, 0) == {1, 2};
    assert AfterStartBatch(db, 0).files == OpenedDb().files;
    assert AfterStartBatch(db, 0).batches == OpenedDb().batches;
  }

  /** The first file is in the directory, the second one is not. */
  function Shown(): map<BatchId, map<string, StagedObject>> {
    map[0 := map["a" := StagedObject(1, 1, 1, "", false)]]
  }

  lemma FilesAreAway()
    ensures NotYetStaged(At(OpenedDb(), map[0 := map[]]), 0, [1, 2])
  {
    assert FilesOf(OpenedDb(), 0) == {1, 2};
  }

  lemma SentHonestly()
    ensures HonestTransfer(At(OpenedDb(), map[0 := map[]]), At(OpenedDb(), Shown()), 0, [1, 2])
    ensures Shown() != map[] && Shown().Keys == {0}
  {
    assert Base(FIRST.path) == "a" && 0 in Shown();
  }

  function Confirmations(): map<FileId, StagingPath> {
    map[1 := StagedFile(0, "a")]
  }

  function StagedRow(m: ManifestFile): FileRow {
    RowOf(m, BaiduStaged, StagedFile(0, m.name))
  }

  function StagedDb(): Db {
    PlannedDb(BatchStaging, StagedRow(FIRST), RowOf(SECOND, BaiduStaging, NoStaging), 0)
  }

  lemma FirstConfirmed()
    ensures Attempt(OpenedDb(), RecordStaged(0, Confirmations())) == Some(StagedDb())
    ensures NothingStaged(OpenedDb()) && Confirmations() != map[]
    ensures forall f :: f in Confirmations() && f in OpenedDb().files ==> Base(OpenedDb().files[f].path) in Shown()[0]
  {
    var db, staged := OpenedDb(), Confirmations();
    assert Base(FIRST.path) == "a" && Base(SECOND.path) == "b";
    assert CanRecordStaged(db, 0, staged) && 1 in staged;
    assert AfterRecordStaged(db, staged).files == StagedDb().files;
  }

  lemma ReachesPlanned(k: Rules)
    requires Setting(k)
    ensures Reaches(k, At(FreshlyPlanned(), map[]))
  {
    hide Reaches, MayTake, At, Rooted, FreshlyPlanned;
    ReachesRooted(k);
    BatchIsPlanned(k);
    Next(k, At(Rooted(), map[]), Tx(Plan([TOGETHER])), At(FreshlyPlanned(), map[]));
  }

  /** Scanned, with its folder in Drive: the next thing is to plan. */
  lemma ReachesRooted(k: Rules)
    requires Setting(k)
    ensures Reaches(k, At(Rooted(), map[]))
  {
    hide Reaches, MayTake, At, Rooted;
    Start(k, "t");
    PageIsStored(k);
    Next(k, Created("t"), Tx(UpsertPage([], [FIRST, SECOND])), At(Unplanned(TaskAt(TaskScanning, false, false)), map[]));
    ScanCompletes(k);
    Next(k, At(Unplanned(TaskAt(TaskScanning, false, false)), map[]), Tx(CompleteScan), At(Unplanned(TaskAt(TaskPaused, true, false)), map[]));
    RootIsMade(k);
    Next(k, At(Unplanned(TaskAt(TaskPaused, true, false)), map[]), Tx(SetDriveRoot("root", "r")), At(Rooted(), map[]));
  }

  /** Planned and opened; the transfer brings the first file, which is confirmed. */
  lemma Stages(k: Rules)
    requires Setting(k) && k.maxCache >= 2
    ensures Reaches(k, At(StagedDb(), Shown())) && InTurn(k.maxCache, StagedDb(), 0)
  {
    hide Reaches, MayTake, PlannedDb, StagedDb, FreshlyPlanned, Shown, Attempt, InTurn, StageTurn, NotYetStaged, HonestTransfer, Consistent, NothingStaged, Confirmations;
    ReachesPlanned(k);
    TheirTurn(k);
    BatchOpens();
    var begun, made, sent := At(OpenedDb(), map[]), At(OpenedDb(), map[0 := map[]]), At(OpenedDb(), Shown());
    Opens(k, At(FreshlyPlanned(), map[]), 0, begun);
    Next(k, At(FreshlyPlanned(), map[]), Tx(StartBatch(0)), begun);
    Makes(k, begun, 0);
    assert Made(begun, 0) == made;
    Next(k, begun, MakeStaging(0), made);
    FilesAreAway();
    SentHonestly();
    Sends(k, made, 0, [1, 2], sent);
    Next(k, made, Transfer(0, [1, 2]), sent);
    FirstConfirmed();
    ReachedInOrder(k, sent);
    Confirms(k, sent, 0, Confirmations(), At(StagedDb(), Shown()));
    Next(k, sent, Tx(RecordStaged(0, Confirmations())), At(StagedDb(), Shown()));
  }

  /** Such a world exists, whatever the cache holds. */
  lemma SomeSetting(maxCache: nat)
    ensures exists k :: Setting(k) && k.maxCache == maxCache && k.share.Some?
  {
    var md5: seq<Byte> -> Md5 := bytes => "0";
    var source: FileId -> seq<Byte> := f => [7 as Byte];
    var batchId: (string, Path, seq<FileId>) -> BatchId := (task: string, parent: Path, files: seq<FileId>) => 0;
    var k := Rules(true, maxCache, Truth(md5, source, batchId), Some(Contents({}, map[1 := FIRST, 2 := SECOND])));
    assert Setting(k);
  }

  // ----- deferred for ever -------------------------------------------------------------------------

  function HalfStaged(): Db {
    PlannedDb(BatchFailedRetryable, StagedRow(FIRST), RowOf(SECOND, BaiduStaging, NoStaging), 1)
  }

  lemma StagingFails(k: Rules)
    requires InTurn(k.maxCache, StagedDb(), 0)
    ensures MayTake(k, At(StagedDb(), Shown()), Tx(FailBatch(0, false)), At(HalfStaged(), Shown()))
  {
    hide Attempt, StageTurn;
    FailureRecorded();
    Commits(k, At(StagedDb(), Shown()), FailBatch(0, false), At(HalfStaged(), Shown()));
  }

  lemma FailureRecorded()
    ensures Attempt(StagedDb(), FailBatch(0, false)) == Some(HalfStaged())
  {
    assert AfterFailBatch(StagedDb(), 0, false).batches == HalfStaged().batches;
  }

  lemma HalfDeliverable(k: Rules)
    requires Setting(k)
    ensures Deliverable(k, At(HalfStaged(), Shown()), 1, "x")
  {
    assert SafeComponent("t");
  }

  function HalfDelivered(k: Rules): Snap {
    Delivered(k, At(HalfStaged(), Shown()), 1, "x", DriveVerified)
  }

  lemma HalfIsWedged(k: Rules)
    requires k.maxCache == 2
    ensures var db := HalfDelivered(k).db;
            IsFirst(db, 0) && NothingStaged(db) && Claim(db, 0) <= k.maxCache && Wedged(k.maxCache, db, 0)
  {
    var db := HalfDelivered(k).db;
    assert FilesOf(db, 0) == {1, 2} && Claimants(db, 0) == {1, 2} && VerifiedOf(db, 0) == {1};
    SizeSumRemove(db.files, {1, 2}, 1);
    assert {1, 2} - {1} == {2};
    SizeSumRemove(db.files, {2}, 2);
    SizeSumRemove(db.files, {1}, 1);
    assert {2} - {2} == {} && {1} - {1} == {};
    assert Waits(db, 0, 2);
    assert 0 in Stageable(db);
  }

  /** A run that leads to a batch which is first in line, with nothing staged before it, and would fit the cache,
      and yet is deferred for ever: one of its two files is verified and waits for the other. */
  lemma DeferredThoughItFits(k: Rules)
    requires Setting(k) && k.maxCache == 2
    ensures exists s, b :: Reaches(k, s) && IsFirst(s.db, b) && NothingStaged(s.db) && Claim(s.db, b) <= k.maxCache && Wedged(k.maxCache, s.db, b)
  {
    hide Reaches, MayTake, StagedDb, HalfStaged, Deliverable, Delivered, IsFirst, NothingStaged, Claim, Wedged, InTurn;
    Stages(k);
    StagingFails(k);
    Next(k, At(StagedDb(), Shown()), Tx(FailBatch(0, false)), At(HalfStaged(), Shown()));
    HalfDeliverable(k);
    Delivers(k, At(HalfStaged(), Shown()), 1, "x");
    HalfIsWedged(k);
  }
}
