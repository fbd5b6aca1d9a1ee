/** The Drive transactions of internal/state/drive_store.go. */
module DriveStore {
  import opened Wrappers
  import opened Model
  import opened Tables
  import opened Transactions
  import opened Durable
  import opened Worlds

  function Candidates(db: Db): set<FileId> {
    set f | f in db.files && AwaitsDrive(db.files[f].status)
  }

  method DriveUploadCandidates(w: World, limit: nat) returns (r: Option<seq<FileId>>)
    requires w.Valid() && 0 < limit
    ensures r.Some? ==> |r.value| <= limit && forall f :: f in r.value ==> f in Candidates(w.db)
    ensures r.Some? ==> (r.value == [] <==> Candidates(w.db) == {})
  {
    var failed := w.Fails();
    if failed { return None; }
    var all := Enumerate(Candidates(w.db));
    if |all| == 0 {
      assert Candidates(w.db) == {};
      return Some([]);
    }
    assert all[0] in Candidates(w.db);
    var n := if |all| > limit then limit else |all|;
    r := Some(all[..n]);
  }

  /** SetTaskDriveRoot: root ID and name are write-once. */
  method SetTaskDriveRoot(w: World, name: string, id: DriveId) returns (ok: bool)
    requires w.Valid()
    modifies w
    ensures w.Valid() && (if ok then w.Committed(SetDriveRoot(name, id)) else w.Same())
    ensures w.quiet && CanSetDriveRoot(old(w.db), name, id) ==> ok
  {
    if w.db.task.id == "" || name == "" || id == "" { return false; }
    var failed := w.Fails();
    if failed { return false; }
    if w.db.task.driveRootId != "" && w.db.task.driveRootId != id { return false; }
    if w.db.task.driveRootName != "" && w.db.task.driveRootName != name { return false; }
    var task := w.db.task.(driveRootId := id, driveRootName := name);
    w.Commit(SetDriveRoot(name, id), w.db.(task := task, owned := UpsertOwnedPath(w.db.owned, DriveTaskRoot(id), InDrive([name]))));
    ok := true;
  }

  method StartDriveUpload(w: World, f: FileId) returns (ok: bool)
    requires w.Valid()
    modifies w
    ensures w.Valid() && (if ok then w.Committed(Op.StartDriveUpload(f)) else w.Same())
    ensures w.quiet && Attempt(old(w.db), Op.StartDriveUpload(f)).Some? ==> ok
  {
    var failed := w.Fails();
    var changed := if f in w.db.files && (w.db.files[f].status.LocalReady? || w.db.files[f].status.DriveUploading?) then 1 else 0;
    if failed || changed != 1 { return false; }
    w.Commit(Op.StartDriveUpload(f), w.db.(files := w.db.files[f := w.db.files[f].(status := DriveUploading)]));
    ok := true;
  }

  /** RecordDriveUploaded: the Drive ID is write-once. */
  method RecordDriveUploaded(w: World, f: FileId, id: DriveId) returns (ok: bool)
    requires w.Valid()
    modifies w
    ensures w.Valid() && (if ok then w.Committed(RecordUploaded(f, id)) else w.Same())
    ensures w.quiet && CanRecordUploaded(old(w.db), f, id) ==> ok
  {
    if id == "" { return false; }
    var failed := w.Fails();
    if failed || f !in w.db.files { return false; }
    var row := w.db.files[f];
    if !row.status.LocalReady? && !row.status.DriveUploading? && !row.status.DriveUploaded? { return false; }
    if row.driveId != "" && row.driveId != id { return false; }
    if !TransitionAllowed(row.status, DriveUploaded) { return false; }
    w.Commit(RecordUploaded(f, id), w.db.(files := w.db.files[f := row.(status := DriveUploaded, driveId := id)],
                                          owned := UpsertOwnedPath(w.db.owned, DriveFile(id), InDrive(row.path))));
    ok := true;
  }

  /** MarkDriveVerified: only under the persisted Drive ID. */
  method MarkDriveVerified(w: World, f: FileId, id: DriveId) returns (ok: bool)
    requires w.Valid()
    modifies w
    ensures w.Valid() && (if ok then w.Committed(MarkVerified(f, id)) else w.Same())
    ensures w.quiet && CanMarkVerified(old(w.db), f, id) ==> ok
  {
    if id == "" { return false; }
    var failed := w.Fails();
    if failed || f !in w.db.files { return false; }
    var row := w.db.files[f];
    if row.driveId == "" || row.driveId != id { return false; }
    if !row.status.DriveUploaded? && !row.status.DriveVerified? { return false; }
    if !TransitionAllowed(row.status, DriveVerified) { return false; }
    w.Commit(MarkVerified(f, id), w.db.(files := w.db.files[f := row.(status := DriveVerified)]));
    ok := true;
  }

  method RecordDriveFailure(w: World, f: FileId, permanent: bool) returns (ok: bool)
    requires w.Valid()
    modifies w
    ensures w.Valid() && (if ok then w.Committed(DriveFailure(f, permanent)) else w.Same())
    ensures w.quiet && f in old(w.db).files && AwaitsDrive(old(w.db).files[f].status) ==> ok
  {
    var failed := w.Fails();
    if failed || f !in w.db.files { return false; }
    var row := w.db.files[f];
    if !row.status.LocalReady? && !row.status.DriveUploading? && !row.status.DriveUploaded? { return false; }
    var next := row.status;
    if permanent {
      next := FailedPermanent;
      if !TransitionAllowed(row.status, next) { return false; }
    }
    w.Commit(DriveFailure(f, permanent), w.db.(files := w.db.files[f := row.(status := next, retries := row.retries + 1)]));
    ok := true;
  }
}
