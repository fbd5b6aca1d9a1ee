/** The Drive uploader (internal/drive/upload.go): at most one object per file over a remote
    that may create it and still report an error. */
module Upload {
  import opened Wrappers
  import opened Model
  import opened Tables
  import opened Transactions
  import opened Durable
  import opened Worlds
  import opened Laws
  import opened Progresses
  import opened DriveStore
  import Counting

  datatype UploadOutcome = Confirmed | UploadFailed(permanent: bool)

  datatype Listed = Matches(items: seq<DriveItem>) | NotListed(permanent: bool)

  datatype UploadSummary = UploadSummary(filesVerified: nat, bytesVerified: nat)

  const MAX_SAFE_UPLOAD_ATTEMPTS := 3

  // ----- what stays the same while a file is uploaded ----------------------------

  /** Only this file's row changed. */
  ghost predicate OnlyRow(db: Db, db': Db, f: FileId) {
    && f in db.files && db'.files.Keys == db.files.Keys
    && forall g :: g in db.files && g != f ==> db'.files[g] == db.files[g]
  }

  lemma OnlyRowTransitive(a: Db, b: Db, c: Db, f: FileId)
    requires OnlyRow(a, b, f) && OnlyRow(b, c, f)
    ensures OnlyRow(a, c, f)
  {
  }

  /** The file as it was read, with its cache file just verified under this MD5. */
  ghost predicate Uploading(k: Rules, w: World, f: FileId, row: FileRow, md5: Digest)
    reads w
  {
    && w.Valid() && Governs(k, w) && f in w.db.files && AwaitsDrive(w.db.files[f].status)
    && w.db.files[f].path == row.path && w.db.files[f].size == row.size && w.db.files[f].md5 == row.md5
    && BinFile(f) in w.cache && Checks(w.truth, row, w.cache[BinFile(f)]) && w.truth.md5(w.cache[BinFile(f)]) == md5
  }

  /** verifyLocalCache: any failure, even one of reading, counts as permanent. */
  method VerifyLocalCache(w: World, f: FileId, row: FileRow) returns (md5: Option<Digest>)
    ensures md5.Some? ==> md5.value != "" && BinFile(f) in w.cache && Checks(w.truth, row, w.cache[BinFile(f)]) && w.truth.md5(w.cache[BinFile(f)]) == md5.value
  {
    if !SafeComponent(w.db.task.id) || row.path == [] || !CanonicalPath(row.path) || row.cachePath != BinFile(f) { return None; }
    var failed := w.Fails();
    if failed || BinFile(f) !in w.cache || |w.cache[BinFile(f)]| != row.size { return None; }
    var localMd5 := w.truth.md5(w.cache[BinFile(f)]);
    if row.md5 != "" && row.md5 != localMd5 { return None; }
    md5 := Some(localMd5);
  }

  predicate RegularFile(item: DriveItem) {
    !item.isDir && item.id != ""
  }

  /** listNamedFiles: the same-name objects, which must all be regular files. */
  method ListMatches(w: World, row: FileRow) returns (r: Listed)
    ensures r.Matches? ==> forall i :: 0 <= i < |r.items| ==> RegularFile(r.items[i])
    ensures r.Matches? && w.honest ==> ListsAll(w.drive, row.path, r.items)
  {
    var items := w.ListNamedFiles(row.path);
    if items.None? { return NotListed(false); }
    var i := 0;
    while i < |items.value|
      invariant 0 <= i <= |items.value| && forall j :: 0 <= j < i ==> RegularFile(items.value[j])
    {
      if !RegularFile(items.value[i]) { return NotListed(true); }
      i := i + 1;
    }
    r := Matches(items.value);
  }

  /** verifyRemoteFile. */
  predicate VerifiedRemote(item: DriveItem, size: nat, md5: Digest) {
    RegularFile(item) && item.size == size && item.md5 != "" && item.md5 == md5
  }

  /** A truthful listing of exactly one verified object says where the file is stored. */
  lemma ListedIsStored(k: Rules, w: World, f: FileId, row: FileRow, md5: Digest, items: seq<DriveItem>)
    requires Uploading(k, w, f, row, md5) && |items| == 1 && VerifiedRemote(items[0], row.size, md5) && ListsAll(w.drive, row.path, items)
    ensures Stored(k.truth, w.Now(), f, items[0].id)
  {
    assert IsObject(w.drive, row.path, items[0]);
    forall other | other in w.drive && w.drive[other].path == row.path ensures other == items[0].id {
      var i :| 0 <= i < |items| && items[i].id == other;
    }
  }

  lemma NoneListed(w: World, row: FileRow, items: seq<DriveItem>)
    requires |items| == 0 && ListsAll(w.drive, row.path, items)
    ensures forall id :: id in w.drive ==> w.drive[id].path != row.path
  {
  }

  // ----- single steps --------------------------------------------------------------

  lemma UploadedRow(db: Db, db': Db, f: FileId, id: DriveId)
    requires Attempt(db, RecordUploaded(f, id)) == Some(db')
    ensures OnlyRow(db, db', f) && db'.files[f] == db.files[f].(status := DriveUploaded, driveId := id)
  {
  }

  lemma VerifiedRow(db: Db, db': Db, f: FileId, id: DriveId)
    requires Attempt(db, MarkVerified(f, id)) == Some(db')
    ensures OnlyRow(db, db', f) && db'.files[f] == db.files[f].(status := DriveVerified)
  {
  }

  lemma StartedRow(db: Db, db': Db, f: FileId)
    requires Attempt(db, Op.StartDriveUpload(f)) == Some(db')
    ensures OnlyRow(db, db', f) && db'.files[f] == db.files[f].(status := DriveUploading)
  {
  }

  lemma FailedRow(db: Db, db': Db, f: FileId, permanent: bool)
    requires Attempt(db, DriveFailure(f, permanent)) == Some(db')
    ensures OnlyRow(db, db', f) && !db'.files[f].status.DriveVerified?
  {
  }

  /** verifyPersistedRemote: a second, independent look at the cache file and at Drive. */
  method VerifyPersistedRemote(w: World, ghost k: Rules, f: FileId, row: FileRow, md5: Digest, id: DriveId) returns (r: UploadOutcome)
    requires Uploading(k, w, f, row, md5)
    modifies w
    ensures w.Valid() && Governs(k, w) && Lawfully(k, old(w.History()), w.History()) && OnlyRow(old(w.db), w.db, f)
    ensures r.Confirmed? <==> w.db.files[f].status.DriveVerified?
  {
    hide LawfulFrom, Step, Attempt, Stored;
    ghost var a, db := w.History(), w.db;
    Idle(k, a);
    var current := VerifyLocalCache(w, f, row);
    if current.None? || current.value != md5 { return UploadFailed(true); }
    var matches := ListMatches(w, row);
    if matches.NotListed? { return UploadFailed(matches.permanent); }
    if |matches.items| != 1 || matches.items[0].id != id || !VerifiedRemote(matches.items[0], row.size, md5) { return UploadFailed(true); }
    if w.honest { ListedIsStored(k, w, f, row, md5, matches.items); }
    var ok := DriveStore.MarkDriveVerified(w, f, id);
    TxStepped(k, a, w, MarkVerified(f, id));
    if !ok { return UploadFailed(false); }
    VerifiedRow(db, w.db, f, id);
    r := Confirmed;
  }

  /** Adopts the one object found, whoever's attempt created it, and verifies it. */
  method Adopt(w: World, ghost k: Rules, f: FileId, row: FileRow, md5: Digest, items: seq<DriveItem>) returns (r: UploadOutcome)
    requires Uploading(k, w, f, row, md5) && |items| == 1 && (w.honest ==> ListsAll(w.drive, row.path, items))
    modifies w
    ensures w.Valid() && Governs(k, w) && Lawfully(k, old(w.History()), w.History()) && OnlyRow(old(w.db), w.db, f)
    ensures r.Confirmed? <==> w.db.files[f].status.DriveVerified?
  {
    hide Lawfully, Step, Attempt, Stored;
    ghost var a, db := w.History(), w.db;
    Idle(k, a);
    if !VerifiedRemote(items[0], row.size, md5) { return UploadFailed(true); }
    if row.driveId != "" && row.driveId != items[0].id { return UploadFailed(true); }
    if w.honest { ListedIsStored(k, w, f, row, md5, items); }
    var ok := DriveStore.RecordDriveUploaded(w, f, items[0].id);
    TxStepped(k, a, w, RecordUploaded(f, items[0].id));
    if !ok { return UploadFailed(false); }
    UploadedRow(db, w.db, f, items[0].id);
    ghost var b, mid := w.History(), w.db;
    r := VerifyPersistedRemote(w, k, f, row, md5, items[0].id);
    LawfullyThen(k, a, b, w.History());
    OnlyRowTransitive(db, mid, w.db, f);
  }

  /** How many copyto calls a history holds. */
  function CopyCount(moves: seq<Move>): nat {
    if moves == [] then 0
    else CopyCount(moves[..|moves| - 1]) + if moves[|moves| - 1].CopyTo? then 1 else 0
  }

  /** One copyto, allowed only while Drive shows no object of that name. */
  method Copy(w: World, ghost k: Rules, f: FileId, row: FileRow, md5: Digest) returns (ok: bool)
    requires Uploading(k, w, f, row, md5) && w.db.files[f].status.DriveUploading? && w.db.files[f].driveId == ""
    requires w.honest ==> forall id :: id in w.drive ==> w.drive[id].path != row.path
    modifies w
    ensures Uploading(k, w, f, row, md5) && Lawfully(k, old(w.History()), w.History()) && w.db == old(w.db)
    ensures CopyCount(w.moves) == CopyCount(old(w.moves)) + 1
  {
    hide LawfulFrom, Step;
    ghost var a := w.History();
    ok := w.CopyToDrive(f);
    Stepped(k, a, w, CopyTo(f));
  }

  /** The copy loop: each attempt is followed by a look at Drive, and repeated only when Drive still shows nothing. */
  method CopyUntilSeen(w: World, ghost k: Rules, f: FileId, row: FileRow, md5: Digest) returns (r: Listed)
    requires Uploading(k, w, f, row, md5) && w.db.files[f].status.DriveUploading? && w.db.files[f].driveId == ""
    requires w.honest ==> forall id :: id in w.drive ==> w.drive[id].path != row.path
    modifies w
    ensures Uploading(k, w, f, row, md5) && Lawfully(k, old(w.History()), w.History()) && w.db == old(w.db)
    ensures r.Matches? ==> |r.items| == 1 && (w.honest ==> ListsAll(w.drive, row.path, r.items))
    ensures 1 <= CopyCount(w.moves) - CopyCount(old(w.moves)) <= MAX_SAFE_UPLOAD_ATTEMPTS
  {
    hide Lawfully, Step, ListsAll, CopyCount;
    ghost var a := w.History();
    Idle(k, a);
    var attempt := 1;
    while true
      invariant Uploading(k, w, f, row, md5) && Lawfully(k, a, w.History()) && w.db == old(w.db)
      invariant w.honest ==> forall id :: id in w.drive ==> w.drive[id].path != row.path
      invariant 1 <= attempt <= MAX_SAFE_UPLOAD_ATTEMPTS && CopyCount(w.moves) - CopyCount(a.moves) == attempt - 1
      decreases MAX_SAFE_UPLOAD_ATTEMPTS - attempt
    {
      ghost var b := w.History();
      var copied := Copy(w, k, f, row, md5);
      LawfullyThen(k, a, b, w.History());
      r := ListMatches(w, row);
      if r.NotListed? { return if copied then r else NotListed(false); }
      if |r.items| > 1 { return NotListed(true); }
      if |r.items| == 1 { return; }
      if copied || attempt >= MAX_SAFE_UPLOAD_ATTEMPTS { return NotListed(false); }
      var cancelled := w.Fails();
      if cancelled { return NotListed(false); }
      r := ListMatches(w, row);
      if r.NotListed? { return NotListed(false); }
      if |r.items| > 1 { return NotListed(true); }
      if |r.items| == 1 { return; }
      if w.honest { NoneListed(w, row, r.items); }
      attempt := attempt + 1;
    }
  }

  lemma SameRow(db: Db, f: FileId)
    requires f in db.files
    ensures OnlyRow(db, db, f)
  {
  }

  /** The file is being uploaded from here on, if it was not already. */
  method Begin(w: World, ghost k: Rules, f: FileId, row: FileRow) returns (refused: Option<UploadOutcome>)
    requires w.Valid() && Governs(k, w) && f in w.db.files && row == w.db.files[f] && AwaitsDrive(row.status)
    modifies w
    ensures w.Valid() && Governs(k, w) && Lawfully(k, old(w.History()), w.History()) && OnlyRow(old(w.db), w.db, f)
    ensures refused.None? ==> w.db.files[f].status.DriveUploading? && !row.status.DriveUploaded?
    ensures refused.Some? ==> refused.value.UploadFailed? && w.db == old(w.db) && (refused.value.permanent ==> row.status.DriveUploaded?)
    ensures w.cache == old(w.cache) && w.drive == old(w.drive) && w.db.files[f] == row.(status := w.db.files[f].status)
  {
    hide Lawfully, Step, Attempt;
    ghost var a, db := w.History(), w.db;
    Idle(k, a);
    SameRow(db, f);
    if row.status.LocalReady? {
      var started := DriveStore.StartDriveUpload(w, f);
      TxStepped(k, a, w, Op.StartDriveUpload(f));
      if !started { return Some(UploadFailed(false)); }
      StartedRow(db, w.db, f);
    } else if !row.status.DriveUploading? {
      return Some(UploadFailed(true));
    }
    refused := None;
  }

  /** uploadOne. */
  method UploadOne(w: World, ghost k: Rules, f: FileId, row: FileRow) returns (r: UploadOutcome)
    requires w.Valid() && Governs(k, w) && f in w.db.files && row == w.db.files[f] && AwaitsDrive(row.status)
    modifies w
    ensures w.Valid() && Governs(k, w) && Lawfully(k, old(w.History()), w.History()) && OnlyRow(old(w.db), w.db, f)
    ensures r.Confirmed? <==> w.db.files[f].status.DriveVerified?
  {
    hide Lawfully, Step, Attempt, ListsAll;
    ghost var a, db := w.History(), w.db;
    Idle(k, a);
    var md5 := VerifyLocalCache(w, f, row);
    if md5.None? { return UploadFailed(true); }
    var matches := ListMatches(w, row);
    if matches.NotListed? { return UploadFailed(matches.permanent); }
    if |matches.items| > 1 { return UploadFailed(true); }
    if |matches.items| == 1 {
      r := Adopt(w, k, f, row, md5.value, matches.items);
      return;
    }
    if row.driveId != "" { return UploadFailed(true); }
    if w.honest { NoneListed(w, row, matches.items); }
    var refused := Begin(w, k, f, row);
    if refused.Some? { return refused.value; }
    ghost var b, mid := w.History(), w.db;
    var seen := CopyUntilSeen(w, k, f, row, md5.value);
    LawfullyThen(k, a, b, w.History());
    if seen.NotListed? { return UploadFailed(seen.permanent); }
    ghost var c := w.History();
    r := Adopt(w, k, f, row, md5.value, seen.items);
    LawfullyThen(k, a, c, w.History());
    OnlyRowTransitive(db, mid, w.db, f);
  }

  lemma OneLess(db: Db, db': Db, f: FileId)
    requires OnlyRow(db, db', f) && f in Candidates(db) && f !in Candidates(db')
    ensures |Candidates(db')| < |Candidates(db)|
  {
    forall g | g in Candidates(db') ensures g in Candidates(db) { assert g in db.files.Keys; }
    assert Candidates(db') <= Candidates(db) - {f};
    Counting.SubsetCardinality(Candidates(db'), Candidates(db) - {f});
  }

  /** The number of DRIVE_VERIFIED files grows by one with every success. */
  lemma CountVerified(db: Db, db': Db, f: FileId)
    requires OnlyRow(db, db', f) && f in Candidates(db)
    ensures |WithStatus(db', DriveVerified)| == |WithStatus(db, DriveVerified)| + if db'.files[f].status.DriveVerified? then 1 else 0
  {
    var before, after := WithStatus(db, DriveVerified), WithStatus(db', DriveVerified);
    forall g ensures g in after - {f} <==> g in before { assert g in db'.files.Keys <==> g in db.files.Keys; }
    assert after - {f} == before;
  }

  /** One candidate: verified, or its failure recorded. */
  method Deliver(w: World, ghost k: Rules, f: FileId) returns (verified: bool)
    requires w.Valid() && Governs(k, w) && f in Candidates(w.db)
    modifies w
    ensures w.Valid() && Governs(k, w) && Lawfully(k, old(w.History()), w.History()) && OnlyRow(old(w.db), w.db, f)
    ensures verified <==> w.db.files[f].status.DriveVerified?
  {
    hide Lawfully, Step, Attempt, OnlyRow;
    ghost var a, db := w.History(), w.db;
    var outcome := UploadOne(w, k, f, w.db.files[f]);
    if outcome.Confirmed? { return true; }
    ghost var b, mid := w.History(), w.db;
    var recorded := DriveStore.RecordDriveFailure(w, f, outcome.permanent);
    TxStepped(k, b, w, DriveFailure(f, outcome.permanent));
    LawfullyThen(k, a, b, w.History());
    if recorded {
      FailedRow(mid, w.db, f, outcome.permanent);
      OnlyRowTransitive(db, mid, w.db, f);
    }
    verified := false;
  }

  /** Uploader.Run: until no file waits for Drive, or one fails. */
  method Run(w: World, ghost k: Rules) returns (summary: UploadSummary, ok: bool)
    requires w.Valid() && Governs(k, w)
    modifies w
    ensures w.Valid() && Governs(k, w) && Lawfully(k, old(w.History()), w.History())
    ensures ok ==> Candidates(w.db) == {}
    ensures summary.filesVerified == |WithStatus(w.db, DriveVerified)| - |WithStatus(old(w.db), DriveVerified)|
  {
    hide Lawfully, Step, OnlyRow;
    ghost var a := w.History();
    Idle(k, a);
    summary := UploadSummary(0, 0);
    if w.db.task.driveRootId == "" || w.db.task.driveRootName == "" { return summary, false; }
    while true
      invariant w.Valid() && Governs(k, w) && Lawfully(k, a, w.History())
      invariant summary.filesVerified == |WithStatus(w.db, DriveVerified)| - |WithStatus(old(w.db), DriveVerified)|
      decreases |Candidates(w.db)|
    {
      var cancelled := w.Fails();
      if cancelled { return summary, false; }
      var candidates := DriveUploadCandidates(w, 64);
      if candidates.None? { return summary, false; }
      if |candidates.value| == 0 { return summary, true; }
      var f := candidates.value[0];
      assert f in candidates.value;
      ghost var b, db := w.History(), w.db;
      var size := w.db.files[f].size;
      var verified := Deliver(w, k, f);
      LawfullyThen(k, a, b, w.History());
      CountVerified(db, w.db, f);
      if !verified { return summary, false; }
      OneLess(db, w.db, f);
      summary := UploadSummary(summary.filesVerified + 1, summary.bytesVerified + size);
    }
  }
}
