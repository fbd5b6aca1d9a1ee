/** A run in which a cleaned batch directory comes back, and what becomes of it. The cache has room for one of two
    one-byte files, each in a batch of its own. A crash leaves the first batch in STAGING with its file confirmed;
    the next passes download, upload and clean it like any other, and when its space is free again the same pass
    takes it up once more, before the second batch, whose file is the work the pass was begun for. */
module Comeback {
  import opened Wrappers
  import opened Model
  import opened Tables
  import opened Transactions
  import opened Invariant
  import opened Durable
  import opened Worlds
  import opened Progresses
  import opened Laws
  import opened Safety
  import opened Restaging
  import opened Statuses
  import opened Stage
  import opened Stager
  import opened StagingStore
  import opened Story
  import Cleanup

  // ----- a batch of one file is staged ----------------------------------------------------

  predicate Single(db: Db, b: BatchId, f: FileId) {
    b in db.batches && FilesOf(db, b) == {f} && f in db.files && db.batches[b].stagingPath == BatchDir(b)
  }

  function WithBatch(db: Db, b: BatchId, status: BatchStatus): Db
    requires b in db.batches
  {
    db.(batches := db.batches[b := db.batches[b].(status := status)])
  }

  function WithFile(db: Db, f: FileId, row: FileRow): Db {
    db.(files := db.files[f := row])
  }

  function Taken(db: Db, b: BatchId, f: FileId): Db
    requires Single(db, b, f)
  {
    WithFile(WithBatch(db, b, BatchStaging), f, Staging(db.files[f]))
  }

  function Sent(s: Snap, b: BatchId, f: FileId): Snap
    requires f in s.db.files
  {
    s.(baidu := Baidu(true, s.baidu.dirs[b := map[Base(s.db.files[f].path) := StagedObject(f, f, s.db.files[f].size, "", false)]]))
  }

  function Recorded(db: Db, b: BatchId, f: FileId): Db
    requires f in db.files
  {
    WithFile(db, f, Confirmed(db.files[f], StagedFile(b, Base(db.files[f].path))))
  }

  lemma TakesOne(db: Db, b: BatchId, f: FileId)
    requires Single(db, b, f) && CanStartBatch(db, b)
    ensures Attempt(db, StartBatch(b)) == Some(Taken(db, b, f)) && Single(Taken(db, b, f), b, f)
  {
    assert AfterStartBatch(db, b).files == Taken(db, b, f).files;
    assert FilesOf(Taken(db, b, f), b) == FilesOf(db, b);
  }

  lemma SendsHonestly(s: Snap, b: BatchId, f: FileId)
    requires Single(s.db, b, f) && b !in s.baidu.dirs
    ensures NotYetStaged(Made(s, b), b, [f]) && HonestTransfer(Made(s, b), Made(s, b), b, [f])
    ensures HonestTransfer(Made(s, b), Sent(s, b, f), b, [f]) && Sent(s, b, f).baidu.dirs.Keys == Made(s, b).baidu.dirs.Keys
  {
  }

  lemma FirstCanStart(maxCache: nat, db: Db, b: BatchId)
    requires StageTurn(maxCache, db, b)
    ensures CanStartBatch(db, b)
  {
    assert b in Stageable(db);
  }

  /** Started, its directory made, and the file sent; or the transfer brought nothing. */
  lemma SendsOne(k: Rules, s: Snap, b: BatchId, f: FileId)
    requires Reaches(k, s) && Single(s.db, b, f) && StageTurn(k.maxCache, s.db, b) && b !in s.baidu.dirs
    ensures var taken := s.(db := Taken(s.db, b, f));
            Reaches(k, Made(taken, b)) && Reaches(k, Sent(taken, b, f)) && InTurn(k.maxCache, taken.db, b) && Single(taken.db, b, f)
  {
    hide Reaches, MayTake, Attempt, StageTurn, InTurn, Taken, CanStartBatch, NotYetStaged, HonestTransfer, FilesOf;
    var taken := s.(db := Taken(s.db, b, f));
    FirstCanStart(k.maxCache, s.db, b);
    TakesOne(s.db, b, f);
    Opens(k, s, b, taken);
    Next(k, s, Tx(StartBatch(b)), taken);
    Makes(k, taken, b);
    Next(k, taken, MakeStaging(b), Made(taken, b));
    SendsHonestly(taken, b, f);
    Sends(k, Made(taken, b), b, [f], Made(taken, b));
    Next(k, Made(taken, b), Transfer(b, [f]), Made(taken, b));
    Sends(k, Made(taken, b), b, [f], Sent(taken, b, f));
    Next(k, Made(taken, b), Transfer(b, [f]), Sent(taken, b, f));
  }

  lemma RecordsRow(db: Db, b: BatchId, f: FileId)
    requires Single(db, b, f) && Confirmable(db.files[f], StagedFile(b, Base(db.files[f].path)))
    ensures Attempt(db, RecordStaged(b, map[f := StagedFile(b, Base(db.files[f].path))])) == Some(Recorded(db, b, f))
    ensures Single(Recorded(db, b, f), b, f)
  {
    var staged := map[f := StagedFile(b, Base(db.files[f].path))];
    assert f in FilesOf(db, b);
    assert AfterRecordStaged(db, staged).files == Recorded(db, b, f).files;
    assert FilesOf(Recorded(db, b, f), b) == FilesOf(db, b);
  }

  /** Seen in its directory, it is confirmed; a confirmation consumed before changes nothing. */
  lemma RecordsOne(k: Rules, s: Snap, b: BatchId, f: FileId)
    requires Reaches(k, s) && Single(s.db, b, f) && InTurn(k.maxCache, s.db, b) && NothingStaged(s.db)
    requires b in s.baidu.dirs && Base(s.db.files[f].path) in s.baidu.dirs[b]
    requires Confirmable(s.db.files[f], StagedFile(b, Base(s.db.files[f].path)))
    ensures Reaches(k, s.(db := Recorded(s.db, b, f))) && InTurn(k.maxCache, Recorded(s.db, b, f), b) && Single(Recorded(s.db, b, f), b, f)
  {
    hide Reaches, MayTake, Attempt, InTurn, NothingStaged, Recorded, Consistent, FilesOf, Confirmable;
    var staged, s' := map[f := StagedFile(b, Base(s.db.files[f].path))], s.(db := Recorded(s.db, b, f));
    RecordsRow(s.db, b, f);
    ReachedInOrder(k, s);
    assert f in staged;
    Confirms(k, s, b, staged, s');
    Next(k, s, Tx(RecordStaged(b, staged)), s');
  }

  lemma CompletesOne(k: Rules, s: Snap, b: BatchId, f: FileId)
    requires Reaches(k, s) && Single(s.db, b, f) && InTurn(k.maxCache, s.db, b) && StagedOrLater(s.db.files[f].status)
    ensures Reaches(k, s.(db := WithBatch(s.db, b, BatchStaged)))
  {
    hide Reaches, MayTake, InTurn;
    var s' := s.(db := WithBatch(s.db, b, BatchStaged));
    assert Attempt(s.db, CompleteBatch(b)) == Some(s'.db);
    Commits(k, s, CompleteBatch(b), s');
    Next(k, s, Tx(CompleteBatch(b)), s');
  }

  // ----- it is cleaned ---------------------------------------------------------------------

  /** Delivered, with its provenance on record, and its directory as the transfer left it. */
  predicate Cleanable(s: Snap, b: BatchId, f: FileId) {
    && Single(s.db, b, f) && SafeComponent(s.db.task.id)
    && s.db.files[f].status.DriveVerified? && s.db.files[f].driveId != "" && s.db.files[f].cachePath == BinFile(f)
    && LocalCacheFile(f) in s.db.owned && s.db.owned[LocalCacheFile(f)] == OwnedRow(InCache(BinFile(f)), false, false)
    && BaiduBatchDir(b) in s.db.owned && s.db.owned[BaiduBatchDir(b)] == OwnedRow(InStaging(BatchDir(b)), false, false)
    && b in s.baidu.dirs && s.baidu.dirs[b] == map[Base(s.db.files[f].path) := StagedObject(f, f, s.db.files[f].size, "", false)]
  }

  /** The tables during its cleanup. */
  function CleaningDb(db: Db, b: BatchId, f: FileId, local: bool, dir: bool, status: FileStatus): Db
    requires f in db.files
  {
    WithFile(db, f, db.files[f].(status := status))
      .(owned := db.owned[LocalCacheFile(f) := OwnedRow(InCache(BinFile(f)), true, local)][BaiduBatchDir(b) := OwnedRow(InStaging(BatchDir(b)), true, dir)])
  }

  function CleaningAt(s: Snap, b: BatchId, f: FileId, local: bool, dir: bool): Snap
    requires f in s.db.files
  {
    Snap(CleaningDb(s.db, b, f, local, dir, CleanupPending), s.cache - {BinFile(f)}, if dir then s.baidu.(dirs := s.baidu.dirs - {b}) else s.baidu, s.drive)
  }

  function Cleansed(s: Snap, b: BatchId, f: FileId): Snap
    requires f in s.db.files
  {
    CleaningAt(s, b, f, true, true).(db := CleaningDb(s.db, b, f, true, true, Done))
  }

  lemma PermitsOne(s: Snap, b: BatchId, f: FileId)
    requires Cleanable(s, b, f)
    ensures Candidate(s.db, b) && Attempt(s.db, AuthorizeBatch(b)) == Some(CleaningDb(s.db, b, f, false, false, CleanupPending))
  {
    hide AuthorizedRows, SafeComponent;
    var after := CleaningDb(s.db, b, f, false, false, CleanupPending);
    PermittedRows(s, b, f);
    MayBePermitted(s, b, f);
    assert AfterAuthorizeBatch(s.db, b).files == after.files;
  }

  lemma PermittedRows(s: Snap, b: BatchId, f: FileId)
    requires Cleanable(s, b, f)
    ensures AuthorizedRows(s.db, b) == CleaningDb(s.db, b, f, false, false, CleanupPending).owned
  {
    hide SafeComponent;
  }

  lemma MayBePermitted(s: Snap, b: BatchId, f: FileId)
    requires Cleanable(s, b, f)
    ensures Candidate(s.db, b) && CanAuthorizeBatch(s.db, b)
  {
    hide SafeComponent;
  }

  lemma InCleanupMeanwhile(s: Snap, b: BatchId, f: FileId, local: bool, dir: bool)
    requires Cleanable(s, b, f)
    ensures Cleanup.BatchInCleanup(CleaningDb(s.db, b, f, local, dir, CleanupPending), b)
    ensures f in s.db.members && s.db.members[f].batch == b
  {
    var db := CleaningDb(s.db, b, f, local, dir, CleanupPending);
    assert f in FilesOf(s.db, b);
    assert FilesOf(db, b) == FilesOf(s.db, b);
  }

  lemma PermissionCommits(k: Rules, s: Snap, b: BatchId, f: FileId)
    requires Reaches(k, s) && Cleanable(s, b, f)
    ensures Reaches(k, s.(db := CleaningDb(s.db, b, f, false, false, CleanupPending)))
  {
    hide Reaches, MayTake, Attempt, Candidate, CleaningDb, SafeComponent, FilesOf;
    var s' := s.(db := CleaningDb(s.db, b, f, false, false, CleanupPending));
    PermitsOne(s, b, f);
    Commits(k, s, AuthorizeBatch(b), s');
    Next(k, s, Tx(AuthorizeBatch(b)), s');
  }

  lemma CacheFileGoes(k: Rules, s: Snap, b: BatchId, f: FileId)
    requires Cleanable(s, b, f)
    ensures MayTake(k, s.(db := CleaningDb(s.db, b, f, false, false, CleanupPending)), RemoveLocal(BinFile(f)), CleaningAt(s, b, f, false, false))
  {
    hide Cleanup.BatchInCleanup, SafeComponent;
    InCleanupMeanwhile(s, b, f, false, false);
  }

  lemma CacheFileIsMarked(k: Rules, s: Snap, b: BatchId, f: FileId)
    requires Cleanable(s, b, f)
    ensures MayTake(k, CleaningAt(s, b, f, false, false), Tx(MarkCleaned(LocalCacheFile(f))), CleaningAt(s, b, f, true, false))
  {
    hide Cleanup.BatchInCleanup, SafeComponent;
    InCleanupMeanwhile(s, b, f, false, false);
    assert AfterMarkCleaned(CleaningAt(s, b, f, false, false).db, LocalCacheFile(f)).owned == CleaningAt(s, b, f, true, false).db.owned;
    Commits(k, CleaningAt(s, b, f, false, false), MarkCleaned(LocalCacheFile(f)), CleaningAt(s, b, f, true, false));
  }

  function DirectoryGone(s: Snap, b: BatchId): Snap {
    s.(baidu := s.baidu.(dirs := s.baidu.dirs - {b}))
  }

  lemma DirectoryGoes(k: Rules, s: Snap, b: BatchId, f: FileId)
    requires Cleanable(s, b, f)
    ensures MayTake(k, CleaningAt(s, b, f, true, false), DeleteStaging(BatchDir(b)), DirectoryGone(CleaningAt(s, b, f, true, false), b))
  {
    hide Cleanup.BatchInCleanup, SafeComponent;
    InCleanupMeanwhile(s, b, f, true, false);
  }

  lemma DirectoryIsMarked(k: Rules, s: Snap, b: BatchId, f: FileId)
    requires Cleanable(s, b, f)
    ensures MayTake(k, DirectoryGone(CleaningAt(s, b, f, true, false), b), Tx(MarkCleaned(BaiduBatchDir(b))), CleaningAt(s, b, f, true, true))
  {
    hide Cleanup.BatchInCleanup, SafeComponent;
    var s0, s1 := DirectoryGone(CleaningAt(s, b, f, true, false), b), CleaningAt(s, b, f, true, true);
    InCleanupMeanwhile(s, b, f, true, false);
    assert AfterMarkCleaned(s0.db, BaiduBatchDir(b)).owned == s1.db.owned;
    Commits(k, s0, MarkCleaned(BaiduBatchDir(b)), s1);
  }

  lemma CompletesRow(s: Snap, b: BatchId, f: FileId)
    requires Cleanable(s, b, f)
    ensures Attempt(CleaningAt(s, b, f, true, true).db, CompleteCleanup(b)) == Some(Cleansed(s, b, f).db)
  {
    hide SafeComponent;
    var db := CleaningAt(s, b, f, true, true).db;
    assert FilesOf(db, b) == FilesOf(s.db, b);
    assert CanCompleteCleanup(db, b);
    assert AfterCompleteCleanup(db, b).files == Cleansed(s, b, f).db.files;
  }

  lemma CompletionCommits(k: Rules, s: Snap, b: BatchId, f: FileId)
    requires Cleanable(s, b, f)
    ensures MayTake(k, CleaningAt(s, b, f, true, true), Tx(CompleteCleanup(b)), Cleansed(s, b, f))
  {
    hide Attempt, SafeComponent;
    CompletesRow(s, b, f);
    Commits(k, CleaningAt(s, b, f, true, true), CompleteCleanup(b), Cleansed(s, b, f));
  }

  /** What the listing before the deletion shows of a directory that holds the one file. */
  function SeenOf(s: Snap, b: BatchId, f: FileId): Listing
    requires f in s.db.files
  {
    var name := Base(s.db.files[f].path);
    Found([ListedObject(f, name, StagedFile(b, name), s.db.files[f].size, "", false)])
  }

  /** Permitted, its cache file removed and marked, its directory listed, deleted and marked, its file DONE. */
  lemma CleansOne(k: Rules, s: Snap, b: BatchId, f: FileId)
    requires Reaches(k, s) && Cleanable(s, b, f)
    ensures Reaches(k, Cleansed(s, b, f))
  {
    hide Reaches, MayTake, CleaningAt, CleaningDb, Cleansed, SafeComponent, FilesOf;
    PermissionCommits(k, s, b, f);
    CacheFileGoes(k, s, b, f);
    Next(k, s.(db := CleaningDb(s.db, b, f, false, false, CleanupPending)), RemoveLocal(BinFile(f)), CleaningAt(s, b, f, false, false));
    CacheFileIsMarked(k, s, b, f);
    Next(k, CleaningAt(s, b, f, false, false), Tx(MarkCleaned(LocalCacheFile(f))), CleaningAt(s, b, f, true, false));
    DirectoryIsSeen(k, s, b, f);
    Next(k, CleaningAt(s, b, f, true, false), InspectStaging(BatchDir(b), SeenOf(s, b, f)), CleaningAt(s, b, f, true, false));
    DirectoryGoes(k, s, b, f);
    Next(k, CleaningAt(s, b, f, true, false), DeleteStaging(BatchDir(b)), DirectoryGone(CleaningAt(s, b, f, true, false), b));
    DirectoryIsMarked(k, s, b, f);
    Next(k, DirectoryGone(CleaningAt(s, b, f, true, false), b), Tx(MarkCleaned(BaiduBatchDir(b))), CleaningAt(s, b, f, true, true));
    CompletionCommits(k, s, b, f);
    Next(k, CleaningAt(s, b, f, true, true), Tx(CompleteCleanup(b)), Cleansed(s, b, f));
  }

  lemma DirectoryIsSeen(k: Rules, s: Snap, b: BatchId, f: FileId)
    requires Cleanable(s, b, f)
    ensures var s' := CleaningAt(s, b, f, true, false); MayTake(k, s', InspectStaging(BatchDir(b), SeenOf(s, b, f)), s') && Truthful(s'.baidu, BatchDir(b), SeenOf(s, b, f))
  {
    hide SafeComponent, FilesOf;
    assert SeenOf(s, b, f).items[0].name == Base(s.db.files[f].path);
  }

  // ----- through the whole pipeline ----------------------------------------------------------

  /** A batch of one planned file of which there is nothing anywhere yet, and whose source is as the manifest says. */
  ghost predicate Fresh(k: Rules, s: Snap, b: BatchId, f: FileId, id: DriveId) {
    && k.honest && Single(s.db, b, f) && SafeComponent(s.db.task.id) && b !in s.baidu.dirs && NothingStaged(s.db)
    && s.db.files[f].status.Planned? && s.db.files[f].driveId == "" && Checks(k.truth, s.db.files[f], k.truth.source(f))
    && PartFile(f) !in s.cache && BinFile(f) !in s.cache && id != "" && id !in s.drive
    && LocalCacheFile(f) !in s.db.owned && DriveFile(id) !in s.db.owned
    && BaiduBatchDir(b) in s.db.owned && s.db.owned[BaiduBatchDir(b)] == OwnedRow(InStaging(BatchDir(b)), false, false)
    && forall other :: other in s.drive ==> s.drive[other].path != s.db.files[f].path
  }

  /** Confirmed in its directory; the batch row says STAGED, or still STAGING after a crash. */
  function StagedAt(s: Snap, b: BatchId, f: FileId, status: BatchStatus): Snap
    requires Single(s.db, b, f)
  {
    var row := s.db.files[f].(status := BaiduStaged, stagingPath := StagedFile(b, Base(s.db.files[f].path)));
    Sent(s, b, f).(db := WithFile(WithBatch(s.db, b, status), f, row))
  }

  /** DONE, with its cache file and its directory cleaned, and its object in Drive. */
  function Through(k: Rules, s: Snap, b: BatchId, f: FileId, id: DriveId, status: BatchStatus): Snap
    requires Single(s.db, b, f)
  {
    var row := s.db.files[f];
    var done := row.(status := Done, stagingPath := StagedFile(b, Base(row.path)), cachePath := BinFile(f), driveId := id);
    var owned := s.db.owned[LocalCacheFile(f) := OwnedRow(InCache(BinFile(f)), true, true)][DriveFile(id) := OwnedRow(InDrive(row.path), false, false)]
                   [BaiduBatchDir(b) := OwnedRow(InStaging(BatchDir(b)), true, true)];
    Snap(WithFile(WithBatch(s.db, b, status), f, done).(owned := owned), s.cache, Baidu(true, s.baidu.dirs),
         s.drive[id := DriveObject(row.path, row.size, k.truth.md5(k.truth.source(f)), false)])
  }

  /** Staged as far as the confirmation of the file, and with or without that of the batch. */
  lemma StagesOne(k: Rules, s: Snap, b: BatchId, f: FileId, id: DriveId, status: BatchStatus)
    requires Reaches(k, s) && Fresh(k, s, b, f, id) && StageTurn(k.maxCache, s.db, b) && (status.BatchStaging? || status.BatchStaged?)
    ensures Reaches(k, StagedAt(s, b, f, status))
  {
    hide Reaches, InTurn, StageTurn, SafeComponent, Checks, FilesOf;
    var taken := s.(db := Taken(s.db, b, f));
    SendsOne(k, s, b, f);
    var sent := Sent(taken, b, f);
    RecordsOne(k, sent, b, f);
    var recorded := sent.(db := Recorded(sent.db, b, f));
    assert recorded.db.files == StagedAt(s, b, f, BatchStaging).db.files;
    assert recorded == StagedAt(s, b, f, BatchStaging);
    if status.BatchStaged? {
      CompletesOne(k, recorded, b, f);
      assert WithBatch(recorded.db, b, BatchStaged).batches == StagedAt(s, b, f, status).db.batches;
      assert recorded.(db := WithBatch(recorded.db, b, BatchStaged)) == StagedAt(s, b, f, status);
    }
  }

  lemma StagedIsDeliverable(k: Rules, s: Snap, b: BatchId, f: FileId, id: DriveId, status: BatchStatus)
    requires Fresh(k, s, b, f, id)
    ensures Deliverable(k, StagedAt(s, b, f, status), f, id)
  {
  }

  lemma DeliveredIsCleanable(k: Rules, s: Snap, b: BatchId, f: FileId, id: DriveId, status: BatchStatus)
    requires Fresh(k, s, b, f, id)
    ensures f in StagedAt(s, b, f, status).db.files && Cleanable(Delivered(k, StagedAt(s, b, f, status), f, id, DriveVerified), b, f)
  {
    var staged := StagedAt(s, b, f, status);
    assert FilesOf(Delivered(k, staged, f, id, DriveVerified).db, b) == FilesOf(s.db, b);
  }

  function CleansedAt(k: Rules, s: Snap, b: BatchId, f: FileId, id: DriveId, status: BatchStatus): Snap
    requires Single(s.db, b, f)
  {
    Cleansed(Delivered(k, StagedAt(s, b, f, status), f, id, DriveVerified), b, f)
  }

  lemma CleansedTables(k: Rules, s: Snap, b: BatchId, f: FileId, id: DriveId, status: BatchStatus)
    requires Fresh(k, s, b, f, id)
    ensures CleansedAt(k, s, b, f, id, status).db == Through(k, s, b, f, id, status).db
  {
    hide SafeComponent, Checks, FilesOf;
    var s', s'' := CleansedAt(k, s, b, f, id, status), Through(k, s, b, f, id, status);
    assert s'.db.files == s''.db.files;
    assert s'.db.owned == s''.db.owned;
  }

  lemma CleansedOutside(k: Rules, s: Snap, b: BatchId, f: FileId, id: DriveId, status: BatchStatus)
    requires Fresh(k, s, b, f, id)
    ensures var s', s'' := CleansedAt(k, s, b, f, id, status), Through(k, s, b, f, id, status); s'.cache == s''.cache && s'.baidu == s''.baidu && s'.drive == s''.drive
  {
    hide SafeComponent, Checks, FilesOf;
    var s', s'' := CleansedAt(k, s, b, f, id, status), Through(k, s, b, f, id, status);
    assert s'.cache == s''.cache;
    assert s'.baidu == s''.baidu;
  }

  lemma CleansedIsThrough(k: Rules, s: Snap, b: BatchId, f: FileId, id: DriveId, status: BatchStatus)
    requires Fresh(k, s, b, f, id)
    ensures CleansedAt(k, s, b, f, id, status) == Through(k, s, b, f, id, status)
  {
    hide CleansedAt, Through, Fresh;
    assert Single(s.db, b, f) by { FreshIsSingle(k, s, b, f, id); }
    CleansedTables(k, s, b, f, id, status);
    CleansedOutside(k, s, b, f, id, status);
  }

  lemma FreshIsSingle(k: Rules, s: Snap, b: BatchId, f: FileId, id: DriveId)
    requires Fresh(k, s, b, f, id)
    ensures Single(s.db, b, f)
  {
  }

  /** A planned batch of one file goes through staging, download, upload and cleanup. */
  lemma GoesThrough(k: Rules, s: Snap, b: BatchId, f: FileId, id: DriveId, status: BatchStatus)
    requires Reaches(k, s) && Fresh(k, s, b, f, id) && StageTurn(k.maxCache, s.db, b) && (status.BatchStaging? || status.BatchStaged?)
    ensures Reaches(k, Through(k, s, b, f, id, status))
  {
    hide Reaches, StageTurn, StagedAt, Delivered, Deliverable, Cleanable, Cleansed, Through;
    StagesOne(k, s, b, f, id, status);
    StagedIsDeliverable(k, s, b, f, id, status);
    CleansedIsThrough(k, s, b, f, id, status);
    Delivers(k, StagedAt(s, b, f, status), f, id);
    DeliveredIsCleanable(k, s, b, f, id, status);
    CleansOne(k, Delivered(k, StagedAt(s, b, f, status), f, id, DriveVerified), b, f);
  }

  // ----- two batches of one file each ----------------------------------------------------------

  const APART := [Chunk(0, [], [1]), Chunk(1, [], [2])]

  function BatchAt(b: BatchId, status: BatchStatus): BatchRow {
    BatchRow([], BatchDir(b), status, 1, 1, 0)
  }

  function Pending(): Db {
    Db(TaskAt(TaskPaused, true, true), {}, map[1 := RowOf(FIRST, Planned, NoStaging), 2 := RowOf(SECOND, Planned, NoStaging)],
       map[0 := BatchAt(0, BatchPending), 1 := BatchAt(1, BatchPending)], map[1 := Member(0, 0), 2 := Member(1, 0)],
       Rows()[BaiduBatchDir(1) := OwnedRow(InStaging(BatchDir(1)), false, false)])
  }

  function FirstPending(): Db {
    Pending().(files := Pending().files[2 := RowOf(SECOND, Discovered, NoStaging)], batches := map[0 := BatchAt(0, BatchPending)],
               members := map[1 := Member(0, 0)], owned := Rows())
  }

  lemma FirstChunkPlanned()
    ensures var registered := RegisterTaskRoot(Rooted()); CanPlanChunk(registered, APART[0]) && PlanChunk(registered, APART[0]) == FirstPending()
  {
    var registered, planned := RegisterTaskRoot(Rooted()), FirstPending();
    assert [1][..0] == [];
    assert WithMembers(map[], 0, [1]) == map[1 := Member(0, 0)];
    assert SizeSeq(registered.files, []) == 0 && SizeSeq(registered.files, [1]) == 1;
    assert PlanChunk(registered, APART[0]).owned == planned.owned;
    assert PlanChunk(registered, APART[0]).files == planned.files;
  }

  lemma SecondChunkPlanned()
    ensures CanPlanChunk(FirstPending(), APART[1]) && PlanChunk(FirstPending(), APART[1]) == Pending()
  {
    var db, planned := FirstPending(), Pending();
    assert [2][..0] == [];
    assert WithMembers(db.members, 1, [2]) == planned.members;
    assert SizeSeq(db.files, []) == 0 && SizeSeq(db.files, [2]) == 1;
    assert PlanChunk(db, APART[1]).owned == planned.owned;
    assert PlanChunk(db, APART[1]).files == planned.files;
    assert PlanChunk(db, APART[1]).batches == planned.batches;
  }

  lemma BatchesArePlanned(k: Rules)
    ensures MayTake(k, At(Rooted(), map[]), Tx(Plan(APART)), At(Pending(), map[]))
  {
    hide Rooted, FirstPending, Pending, CanPlanChunk, PlanChunk;
    var registered := RegisterTaskRoot(Rooted());
    FirstChunkPlanned();
    SecondChunkPlanned();
    assert APART[..1] == [APART[0]] && [APART[0]][..0] == [];
    assert PlanChunks(registered, []) == Some(registered);
    assert PlanChunks(registered, [APART[0]]) == Some(FirstPending());
    assert PlanChunks(registered, APART) == Some(Pending());
    assert Rooted().task.scanCompleted by { ScanDone(); }
    Commits(k, At(Rooted(), map[]), Plan(APART), At(Pending(), map[]));
  }

  /** It is the turn of a pending or interrupted batch of one byte, nothing being in the cache. */
  lemma TurnOf(maxCache: nat, db: Db, b: BatchId)
    requires maxCache > 0 && IsFirst(db, b) && db.batches[b].totalBytes == 1 && WorkLeft(db)
    requires forall f :: f in db.files ==> db.files[f].status.Planned? || db.files[f].status.Done?
    ensures StageTurn(maxCache, db, b)
  {
    hide Reserved, WorkLeft;
    NothingReserved(db);
  }

  lemma PendingIsFresh(k: Rules)
    requires Setting(k) && k.maxCache == 1
    ensures Fresh(k, At(Pending(), map[]), 0, 1, "x") && StageTurn(k.maxCache, Pending(), 0)
  {
    hide StageTurn;
    var db := Pending();
    assert SafeComponent("t");
    assert FilesOf(db, 0) == {1};
    assert 0 in Stageable(db);
    assert 1 in db.files && BeforeDownload(db.files[1].status);
    TurnOf(k.maxCache, db, 0);
  }

  /** The first file is DONE, its batch still STAGING or taken up a second time and STAGED; the second one is planned. */
  ghost predicate Between(k: Rules, s: Snap, status: BatchStatus) {
    && s.db.task == TaskAt(TaskPaused, true, true) && s.db.files.Keys == {1, 2} && s.db.batches.Keys == {0, 1}
    && Base(s.db.files[1].path) == "a" && s.db.files[1].size == 1 && s.db.files[1].status.Done? && s.db.files[1].stagingPath == StagedFile(0, "a")
    && s.db.files[2] == RowOf(SECOND, Planned, NoStaging) && FilesOf(s.db, 0) == {1} && FilesOf(s.db, 1) == {2}
    && s.db.batches[0] == BatchAt(0, status) && s.db.batches[1] == BatchAt(1, BatchPending)
    && BaiduTaskRoot in s.db.owned && !s.db.owned[BaiduTaskRoot].cleaned && Cleaned(s.db, BaiduBatchDir(0))
    && BaiduBatchDir(1) in s.db.owned && s.db.owned[BaiduBatchDir(1)] == OwnedRow(InStaging(BatchDir(1)), false, false)
    && LocalCacheFile(2) !in s.db.owned && DriveFile("y") !in s.db.owned
    && s.cache == map[] && "y" !in s.drive && (forall other :: other in s.drive ==> s.drive[other].path == FIRST.path)
    && s.baidu.dirs.Keys == if status.BatchStaged? then {0} else {}
  }

  function FirstThrough(k: Rules): Snap
    requires Single(Pending(), 0, 1)
  {
    Through(k, At(Pending(), map[]), 0, 1, "x", BatchStaging)
  }

  lemma ThroughIsBetween(k: Rules)
    requires Single(Pending(), 0, 1)
    ensures Between(k, FirstThrough(k), BatchStaging)
  {
    var s := FirstThrough(k);
    assert Base(FIRST.path) == "a";
    assert FilesOf(s.db, 0) == {1} && FilesOf(s.db, 1) == {2};
    assert "x"[0] != "y"[0];
  }

  lemma ReachesPending(k: Rules)
    requires Setting(k) && k.maxCache == 1
    ensures Reaches(k, At(Pending(), map[])) && Fresh(k, At(Pending(), map[]), 0, 1, "x")
    ensures StageTurn(k.maxCache, At(Pending(), map[]).db, 0) && Single(Pending(), 0, 1)
  {
    hide Reaches, MayTake, Rooted, Pending, Setting, Fresh, StageTurn;
    ReachesRooted(k);
    BatchesArePlanned(k);
    Next(k, At(Rooted(), map[]), Tx(Plan(APART)), At(Pending(), map[]));
    PendingIsFresh(k);
    FreshIsSingle(k, At(Pending(), map[]), 0, 1, "x");
    assert At(Pending(), map[]).db == Pending();
  }

  /** A crash before the batch was recorded as staged; its file downloaded, uploaded and cleaned since. */
  lemma ReachesBetween(k: Rules) returns (s: Snap)
    requires Setting(k) && k.maxCache == 1
    ensures Reaches(k, s) && Between(k, s, BatchStaging)
  {
    hide Reaches, Pending, Between, Through, Setting, Fresh, StageTurn;
    ReachesPending(k);
    GoesThrough(k, At(Pending(), map[]), 0, 1, "x", BatchStaging);
    s := FirstThrough(k);
    ThroughIsBetween(k);
  }

  /** The scheduler's next step is to start the cleaned batch again: it is first in line, and the second file calls for a pass. */
  lemma TheirTurnAgain(k: Rules, s: Snap)
    requires Between(k, s, BatchStaging) && k.maxCache > 0
    ensures Single(s.db, 0, 1) && StageTurn(k.maxCache, s.db, 0) && CanStartNow(k.maxCache, s.db, 0) && Taken(s.db, 0, 1) == s.db
  {
    hide StageTurn, Admitted;
    var db := s.db;
    assert 0 in Stageable(db);
    assert 2 in db.files && BeforeDownload(db.files[2].status);
    TurnOf(k.maxCache, db, 0);
    assert Admitted(k.maxCache, db, 0) by { TurnAdmits(k.maxCache, db, 0); }
    assert 2 in FilesOf(db, 1) && 1 in FilesOf(db, 0);
    assert Taken(db, 0, 1).files == db.files && Taken(db, 0, 1).batches == db.batches;
  }

  lemma TurnAdmits(maxCache: nat, db: Db, b: BatchId)
    requires StageTurn(maxCache, db, b)
    ensures Admitted(maxCache, db, b)
  {
  }

  /** A run in which a cleaned batch directory comes back: before, its batch is the next one the scheduler starts;
      after, the directory stands again beside a row that says it is cleaned and a file that is DONE. */
  lemma CleanedAndBack(k: Rules)
    requires Setting(k) && k.maxCache == 1
    ensures exists s, b :: Reaches(k, s) && Cleaned(s.db, BaiduBatchDir(b)) && b !in s.baidu.dirs && CanStartNow(k.maxCache, s.db, b)
    ensures exists s, b :: Reaches(k, s) && Cleaned(s.db, BaiduBatchDir(b)) && b in s.baidu.dirs && CanBeStaged(s.db, b)
                           && forall f :: f in FilesOf(s.db, b) ==> f in s.db.files && s.db.files[f].status.Done?
  {
    hide Reaches, StageTurn, InTurn, CanStartNow, Taken;
    var s := ReachesBetween(k);
    TheirTurnAgain(k, s);
    SendsOne(k, s, 0, 1);
    assert s.(db := s.db) == s && 0 in Made(s, 0).baidu.dirs;
  }

  // ----- off the status table --------------------------------------------------------------------

  /** A transfer that brings nothing and a conflict over its single file: the batch fails for good over a file that
      is DONE. */
  lemma DoneIsTakenBack(k: Rules)
    requires Setting(k) && k.maxCache == 1
    ensures exists s, op: Op, f :: Reaches(k, s) && op.FailBatch? && LawfulTx(k, s, op) && Attempt(s.db, op).Some? && f in s.db.files
                                   && s.db.files[f].status.Done? && LeavesTable(s.db, op, f)
  {
    hide Reaches, StageTurn, CanStartNow, Taken, Attempt, LeavesTable, LawfulTx;
    var s := ReachesBetween(k);
    TheirTurnAgain(k, s);
    SendsOne(k, s, 0, 1);
    assert s.(db := s.db) == s;
    FailsWhenDone(k, Made(s, 0));
  }

  lemma FailsWhenDone(k: Rules, s: Snap)
    requires InTurn(k.maxCache, s.db, 0) && Single(s.db, 0, 1) && s.db.files[1].status.Done?
    ensures LawfulTx(k, s, FailBatch(0, true)) && Attempt(s.db, FailBatch(0, true)).Some? && LeavesTable(s.db, FailBatch(0, true), 1)
  {
  }

  function FirstStaged(): Snap
    requires Single(Pending(), 0, 1)
  {
    StagedAt(At(Pending(), map[]), 0, 1, BatchStaging)
  }

  lemma ReadyFromStaged()
    requires Single(Pending(), 0, 1)
    ensures var db, op := FirstStaged().db, MarkLocalReady(1, BinFile(1)); 1 in db.files && Attempt(db, op).Some? && LeavesTable(db, op, 1)
  {
    assert SafeComponent("t");
  }

  lemma StagedFromPlanned()
    requires Single(Pending(), 0, 1)
    ensures var op := RecordStaged(0, map[1 := StagedFile(0, Base(FIRST.path))]); 1 in Pending().files && Attempt(Pending(), op).Some? && LeavesTable(Pending(), op, 1)
  {
    assert FIRST.path == Pending().files[1].path;
    RecordsRow(Pending(), 0, 1);
  }

  /** Each of the three cases does occur in a store that a run leads to: there the transaction commits and leaves
      the declared table. */
  lemma EachCaseOccurs(k: Rules)
    requires Setting(k) && k.maxCache == 1
    ensures exists s, op: Op, f :: Reaches(k, s) && op.MarkLocalReady? && Attempt(s.db, op).Some? && f in s.db.files && LeavesTable(s.db, op, f)
    ensures exists s, op: Op, f :: Reaches(k, s) && op.RecordStaged? && Attempt(s.db, op).Some? && f in s.db.files && LeavesTable(s.db, op, f)
    ensures exists s, op: Op, f :: Reaches(k, s) && op.FailBatch? && LawfulTx(k, s, op) && Attempt(s.db, op).Some? && f in s.db.files && LeavesTable(s.db, op, f)
  {
    hide Reaches, Attempt, LeavesTable, LawfulTx, Setting, Fresh, StageTurn, Pending, StagedAt;
    ReachesPending(k);
    StagedFromPlanned();
    StagesOne(k, At(Pending(), map[]), 0, 1, "x", BatchStaging);
    ReadyFromStaged();
    DoneIsTakenBack(k);
  }

  // ----- the directory stays -----------------------------------------------------------------------

  /** The transfer brings the file again, its old confirmation is found consumed, the batch is recorded as staged. */
  lemma ReachesBackForGood(k: Rules) returns (s: Snap)
    requires Setting(k) && k.maxCache == 1
    ensures Reaches(k, s) && Between(k, s, BatchStaged)
  {
    hide Reaches, InTurn, StageTurn, CanStartNow, Taken, Setting, Recorded;
    var s0 := ReachesBetween(k);
    TheirTurnAgain(k, s0);
    SendsOne(k, s0, 0, 1);
    assert s0.(db := s0.db) == s0;
    var sent := Sent(s0, 0, 1);
    RecordsOne(k, sent, 0, 1);
    assert Recorded(sent.db, 0, 1) == sent.db by { ConsumedBefore(sent.db, 0, 1); }
    assert sent.(db := sent.db) == sent;
    CompletesOne(k, sent, 0, 1);
    s := sent.(db := WithBatch(sent.db, 0, BatchStaged));
    BetweenAgain(k, s0);
  }

  lemma ConsumedBefore(db: Db, b: BatchId, f: FileId)
    requires f in db.files && !AwaitsStaging(db.files[f].status)
    ensures Recorded(db, b, f) == db
  {
    assert Recorded(db, b, f).files == db.files;
  }

  lemma BetweenAgain(k: Rules, s: Snap)
    requires Between(k, s, BatchStaging)
    ensures var sent := Sent(s, 0, 1); Between(k, sent.(db := WithBatch(sent.db, 0, BatchStaged)), BatchStaged)
  {
    var sent := Sent(s, 0, 1);
    assert FilesOf(WithBatch(sent.db, 0, BatchStaged), 0) == FilesOf(s.db, 0);
    assert FilesOf(WithBatch(sent.db, 0, BatchStaged), 1) == FilesOf(s.db, 1);
  }

  lemma SecondIsFresh(k: Rules, s: Snap)
    requires Setting(k) && k.maxCache == 1 && Between(k, s, BatchStaged)
    ensures Fresh(k, s, 1, 2, "y") && StageTurn(k.maxCache, s.db, 1)
  {
    hide StageTurn;
    assert SafeComponent("t");
    assert FIRST.path[0][0] != SECOND.path[0][0];
    assert 1 in Stageable(s.db);
    assert 2 in s.db.files && BeforeDownload(s.db.files[2].status);
    TurnOf(k.maxCache, s.db, 1);
  }

  /** After that the second batch goes through: every file is DONE, both directories are recorded as cleaned, the
      first one stands, the task root is never empty again, and the task never COMPLETED. */
  lemma CleanedAndStuck(k: Rules)
    requires Setting(k) && k.maxCache == 1
    ensures exists s, b :: Reaches(k, s) && AllDone(s.db) && AllBatchesCleaned(s.db) && LeftBehind(s, b)
  {
    hide Reaches, StageTurn, Fresh, Through, Between, Setting;
    var s := ReachesBackForGood(k);
    SecondIsFresh(k, s);
    FreshIsSingle(k, s, 1, 2, "y");
    GoesThrough(k, s, 1, 2, "y", BatchStaged);
    BothThrough(k, s);
  }

  lemma BothThrough(k: Rules, s: Snap)
    requires Between(k, s, BatchStaged) && Single(s.db, 1, 2)
    ensures var s' := Through(k, s, 1, 2, "y", BatchStaged); AllDone(s'.db) && AllBatchesCleaned(s'.db) && LeftBehind(s', 0)
  {
  }
}
