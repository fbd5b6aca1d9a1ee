/** Safety of every run of the whole program, continued: what Drive holds, what staging
    creates, and what a completed task stands for. */
module Delivery {
  import opened Wrappers
  import opened Model
  import opened Tables
  import opened Transactions
  import opened Invariant
  import opened Runs
  import opened Durable
  import opened Worlds
  import opened Progresses
  import opened Laws
  import opened Safety
  import Cleanup
  import Recovery

  // ----- at most one Drive object per file ------------------------------------------

  ghost predicate OnePerPath(drive: map<DriveId, DriveObject>) {
    forall x, y :: x in drive && y in drive && drive[x].path == drive[y].path ==> x == y
  }

  /** A verified file's persisted Drive ID names an object at its path, of its size. */
  ghost predicate Held(s: Snap, f: FileId) {
    && f in s.db.files && s.db.files[f].driveId in s.drive
    && s.drive[s.db.files[f].driveId].path == s.db.files[f].path
    && s.drive[s.db.files[f].driveId].size == s.db.files[f].size && !s.drive[s.db.files[f].driveId].isDir
  }

  ghost predicate DriveFaithful(k: Rules, s: Snap) {
    && OnePerPath(s.drive)
    && (forall f :: f in s.db.files && Verified(s.db.files[f].status) ==> Held(s, f))
    && (forall f :: f in s.db.files && s.db.files[f].status.DriveVerified? ==> Stored(k.truth, s, f, s.db.files[f].driveId))
  }

  lemma StoredIsHeld(truth: Truth, s: Snap, f: FileId)
    requires f in s.db.files && Stored(truth, s, f, s.db.files[f].driveId)
    ensures Held(s, f)
  {
  }

  /** A transaction verifies a file by MarkVerified only, under the persisted ID. */
  lemma VerifiedByMark(db: Db, op: Op, f: FileId)
    requires Consistent(db) && Attempt(db, op).Some? && f in Attempt(db, op).value.files && Verified(Attempt(db, op).value.files[f].status)
    ensures f in db.files && (Verified(db.files[f].status) || (op == MarkVerified(f, db.files[f].driveId)))
    ensures Attempt(db, op).value.files[f].status.DriveVerified? ==> db.files[f].status.DriveVerified? || op == MarkVerified(f, db.files[f].driveId)
  {
    hide Consistent, Settled, UpsertManifest, PlanAll, Evolves;
    if op.UpsertPage? || op.Plan? {
      var db' := Attempt(db, op).value;
      assert db' == Exec(db, op);
      if op.UpsertPage? { ManifestSettles(db, op.dirs, op.files); } else { PlanSettles(db, op.chunks); }
      if f !in db.files { NewFilesDiscovered(db, db', f); }
      assert f in db.files;
      OpKeeps(db, op);
      SettledStatus(db, db', f);
    } else {
      VerifiedColumns(db, op, f);
    }
  }

  lemma VerifiedColumns(db: Db, op: Op, f: FileId)
    requires Attempt(db, op).Some? && !op.UpsertPage? && !op.Plan?
    requires f in Attempt(db, op).value.files && Verified(Attempt(db, op).value.files[f].status)
    ensures f in db.files && (Verified(db.files[f].status) || op == MarkVerified(f, db.files[f].driveId))
    ensures Attempt(db, op).value.files[f].status.DriveVerified? ==> db.files[f].status.DriveVerified? || op == MarkVerified(f, db.files[f].driveId)
  {
  }

  lemma VerifiedRow(db: Db, f: FileId)
    requires Consistent(db) && f in db.files && Verified(db.files[f].status)
    ensures db.files[f].driveId != "" && f in db.members
  {
    assert FileOk(db, f);
  }

  lemma SamePlace(db: Db, db': Db, f: FileId)
    requires Evolves(db, db') && f in db.files
    ensures f in db'.files && db'.files[f].path == db.files[f].path && db'.files[f].size == db.files[f].size
    ensures db.files[f].driveId != "" ==> db'.files[f].driveId == db.files[f].driveId
  {
    assert RowEvolves(db.files[f], db'.files[f]);
  }

  lemma MarkedRow(db: Db, f: FileId, id: DriveId)
    requires Attempt(db, MarkVerified(f, id)).Some?
    ensures f in db.files && db.files[f].driveId == id && id != ""
  {
  }

  /** A transaction that was lawful leaves Drive's copy of every verified file in place. */
  lemma DriveTx(k: Rules, s: Snap, op: Op)
    requires k.honest && Consistent(s.db) && Attempt(s.db, op).Some? && DriveFaithful(k, s)
    requires Evolves(s.db, Attempt(s.db, op).value)
    requires op.MarkVerified? ==> LawfulTx(k, s, op)
    ensures DriveFaithful(k, s.(db := Attempt(s.db, op).value))
  {
    hide Consistent, Evolves, Attempt;
    var s' := s.(db := Attempt(s.db, op).value);
    forall f | f in s'.db.files && Verified(s'.db.files[f].status)
      ensures Held(s', f) && (s'.db.files[f].status.DriveVerified? ==> Stored(k.truth, s', f, s'.db.files[f].driveId))
    {
      VerifiedByMark(s.db, op, f);
      SamePlace(s.db, s'.db, f);
      if Verified(s.db.files[f].status) {
        VerifiedRow(s.db, f);
        assert Held(s, f);
        if s'.db.files[f].status.DriveVerified? && !s.db.files[f].status.DriveVerified? { assert Stored(k.truth, s, f, s.db.files[f].driveId); }
      } else {
        MarkedRow(s.db, f, s.db.files[f].driveId);
        assert Stored(k.truth, s, f, s.db.files[f].driveId);
        StoredIsHeld(k.truth, s, f);
      }
    }
  }

  lemma PathIdentifies(db: Db, f: FileId, g: FileId)
    requires Consistent(db) && f in db.files && g in db.files && db.files[f].path == db.files[g].path
    ensures f == g
  {
  }

  /** One copyto to a path where nothing stands yet. */
  lemma DriveCopy(k: Rules, s: Snap, f: FileId, s': Snap)
    requires Consistent(s.db) && DriveFaithful(k, s) && f in s.db.files && s.db.files[f].status.DriveUploading?
    requires forall id :: id in s.drive ==> s.drive[id].path != s.db.files[f].path
    requires s' == s.(drive := s'.drive) && AtMostOneUpload(s.drive, s'.drive, s.db.files[f].path)
    ensures DriveFaithful(k, s')
  {
    hide Consistent;
    forall g | g in s.db.files && Verified(s.db.files[g].status)
      ensures Held(s', g) && (s.db.files[g].status.DriveVerified? ==> Stored(k.truth, s', g, s.db.files[g].driveId))
    {
      assert Held(s, g);
      if s.db.files[g].path == s.db.files[f].path { PathIdentifies(s.db, f, g); }
    }
  }

  /** Steps that touch neither the tables nor Drive, nor the cache file of a DRIVE_VERIFIED file. */
  lemma DriveIdle(k: Rules, s: Snap, s': Snap)
    requires DriveFaithful(k, s) && s'.db == s.db && s'.drive == s.drive
    requires forall f :: f in s.db.files && s.db.files[f].status.DriveVerified? && BinFile(f) in s.cache ==> BinFile(f) in s'.cache && s'.cache[BinFile(f)] == s.cache[BinFile(f)]
    ensures DriveFaithful(k, s')
  {
    forall f | f in s.db.files && Verified(s.db.files[f].status) ensures Held(s', f) { assert Held(s, f); }
    forall f | f in s.db.files && s.db.files[f].status.DriveVerified? ensures Stored(k.truth, s', f, s.db.files[f].driveId) {
      assert Stored(k.truth, s, f, s.db.files[f].driveId);
    }
  }

  lemma BinsUntouched(k: Rules, s: Snap, moves: seq<Move>, i: nat, s': Snap, f: FileId)
    requires OneStep(k, s, moves, i, s') && !moves[i].Tx? && f in s.db.files && s.db.files[f].status.DriveVerified? && BinFile(f) in s.cache
    ensures BinFile(f) in s'.cache && s'.cache[BinFile(f)] == s.cache[BinFile(f)]
  {
    hide Consistent, Evolves;
    match moves[i] {
      case RemoveLocal(p) =>
        assert InCleanup(s.db, p.file) by { assert p.file in FilesOf(s.db, s.db.members[p.file].batch); }
      case WriteLocal(q) =>
        assert BinFile(f) in s.cache - {q} && (s'.cache - {q})[BinFile(f)] == (s.cache - {q})[BinFile(f)];
      case _ =>
    }
  }

  lemma DriveStep(k: Rules, s: Snap, moves: seq<Move>, i: nat, s': Snap)
    requires k.honest && OneStep(k, s, moves, i, s') && DriveFaithful(k, s)
    ensures DriveFaithful(k, s')
  {
    hide Consistent, Evolves, Attempt, DriveFaithful, LawfulTx, Cleanup.Legal;
    if moves[i].Tx? {
      DriveTx(k, s, moves[i].op);
    } else if moves[i].CopyTo? {
      DriveCopy(k, s, moves[i].file, s');
    } else {
      forall f | f in s.db.files && s.db.files[f].status.DriveVerified? && BinFile(f) in s.cache
        ensures BinFile(f) in s'.cache && s'.cache[BinFile(f)] == s.cache[BinFile(f)]
      {
        BinsUntouched(k, s, moves, i, s', f);
      }
      DriveIdle(k, s, s');
    }
  }

  /** With true listings and no other writer, whatever copyto commits and whatever it answers: no two Drive
      objects ever stand at one path; a verified file's persisted ID names the one at its own; and while the
      file is DRIVE_VERIFIED that object has the size and the MD5 of its cache file. */
  lemma {:induction false} DriveAlwaysFaithful(k: Rules, states: seq<Snap>, moves: seq<Move>, i: nat)
    requires k.honest && LawfulRun(k, states, moves) && i <= |moves|
    ensures DriveFaithful(k, states[i])
  {
    hide OneStep, Step, LawfulFrom;
    if i > 0 {
      DriveAlwaysFaithful(k, states, moves, i - 1);
      ReadStep(k, states, moves, i - 1);
      DriveStep(k, states[i - 1], moves, i - 1, states[i]);
    }
  }

  // ----- what Drive holds is the source --------------------------------------------------

  /** The Drive object of a verified file has the MD5 of the source, as far as the manifest's size reaches. */
  ghost predicate SourceStored(k: Rules, s: Snap, f: FileId) {
    && f in s.db.files && s.db.files[f].driveId in s.drive && s.db.files[f].size <= |k.truth.source(f)|
    && s.drive[s.db.files[f].driveId].md5 == k.truth.md5(k.truth.source(f)[..s.db.files[f].size])
  }

  ghost predicate SourcesStored(k: Rules, s: Snap) {
    forall f :: f in s.db.files && Verified(s.db.files[f].status) ==> SourceStored(k, s, f)
  }

  lemma StoredSource(k: Rules, s: Snap, f: FileId, id: DriveId)
    requires Prefixes(k.truth, s) && BinsKept(s) && Stored(k.truth, s, f, id) && KeepsBin(s.db.files[f].status) && s.db.files[f].driveId == id
    ensures SourceStored(k, s, f)
  {
    assert CacheFile(f, BinFile(f));
    var bytes, source := s.cache[BinFile(f)], k.truth.source(f);
    assert bytes <= source && |bytes| == s.db.files[f].size;
    assert bytes == source[..|bytes|];
  }

  lemma MarkedKeepsBin(db: Db, f: FileId, id: DriveId)
    requires Attempt(db, MarkVerified(f, id)).Some?
    ensures f in db.files && db.files[f].driveId == id && KeepsBin(db.files[f].status)
  {
  }

  lemma SourceTx(k: Rules, s: Snap, op: Op, s': Snap)
    requires k.honest && Consistent(s.db) && Attempt(s.db, op) == Some(s'.db) && s' == s.(db := s'.db) && Evolves(s.db, s'.db)
    requires SourcesStored(k, s) && Prefixes(k.truth, s) && BinsKept(s) && (op.MarkVerified? ==> LawfulTx(k, s, op))
    ensures SourcesStored(k, s')
  {
    hide Consistent, Evolves, Attempt, Prefixes, BinsKept, KeepsBin;
    forall f | f in s'.db.files && Verified(s'.db.files[f].status) ensures SourceStored(k, s', f) {
      VerifiedByMark(s.db, op, f);
      SamePlace(s.db, s'.db, f);
      if Verified(s.db.files[f].status) {
        VerifiedRow(s.db, f);
        assert SourceStored(k, s, f);
      } else {
        MarkedKeepsBin(s.db, f, s.db.files[f].driveId);
        MarkedRow(s.db, f, s.db.files[f].driveId);
        StoredSource(k, s, f, s.db.files[f].driveId);
      }
    }
  }

  lemma SourceStep(k: Rules, s: Snap, moves: seq<Move>, i: nat, s': Snap)
    requires k.honest && OneStep(k, s, moves, i, s') && SourcesStored(k, s) && Prefixes(k.truth, s) && BinsKept(s)
    ensures SourcesStored(k, s')
  {
    hide Consistent, Evolves, Attempt, LawfulTx, Cleanup.Legal, Prefixes, BinsKept;
    if moves[i].Tx? {
      SourceTx(k, s, moves[i].op, s');
    } else {
      forall f | f in s'.db.files && Verified(s'.db.files[f].status) ensures SourceStored(k, s', f) { assert SourceStored(k, s, f); }
    }
  }

  /** From end to end: on true remotes the Drive object of every verified or DONE file has the MD5 of its source,
      in every state from its verification on. So nothing is deleted whose content is not in Drive. */
  lemma {:induction false} SourceInDrive(k: Rules, states: seq<Snap>, moves: seq<Move>, i: nat)
    requires k.honest && LawfulRun(k, states, moves) && i <= |moves|
    ensures SourcesStored(k, states[i])
  {
    hide OneStep, Step, LawfulFrom, Prefixes, BinsKept, SourcesStored;
    if i == 0 {
      NothingVerified(k, states[0]);
    } else {
      SourceInDrive(k, states, moves, i - 1);
      CacheIsPrefix(k, states, moves, i - 1);
      ReadyKeepsBin(k, states, moves, i - 1);
      ReadStep(k, states, moves, i - 1);
      SourceStep(k, states[i - 1], moves, i - 1, states[i]);
    }
  }

  lemma NothingVerified(k: Rules, s: Snap)
    requires s.db.files == map[]
    ensures SourcesStored(k, s)
  {
  }

  /** Whatever a cleanup deletes, the sources of the whole batch are in Drive at that moment. */
  lemma DeletedIsInDrive(k: Rules, states: seq<Snap>, moves: seq<Move>, i: nat, f: FileId)
    requires k.honest && LawfulRun(k, states, moves) && i < |moves| && f in states[i].db.members
    requires moves[i] == RemoveLocal(BinFile(f)) || moves[i] == DeleteStaging(BatchDir(states[i].db.members[f].batch))
    ensures forall g :: g in FilesOf(states[i].db, states[i].db.members[f].batch) ==> SourceStored(k, states[i], g)
  {
    SourceInDrive(k, states, moves, i);
    assert Lawful(k, states, moves, i);
    var db := states[i].db;
    var b := db.members[f].batch;
    assert Cleanup.BatchInCleanup(db, b);
    forall g | g in FilesOf(db, b) ensures SourceStored(k, states[i], g) { assert InCleanup(db, g); }
  }

  // ----- each source is staged at most once -------------------------------------------

  /** Every staged object carries the name of the file it was made from, and stands in that file's batch. */
  ghost predicate NamedBySource(s: Snap) {
    forall b, n :: b in s.baidu.dirs && n in s.baidu.dirs[b] ==> SourceNamed(s.db, b, n, s.baidu.dirs[b][n])
  }

  predicate SourceNamed(db: Db, b: BatchId, n: string, item: StagedObject) {
    item.source in db.files && Base(db.files[item.source].path) == n && item.source in db.members && db.members[item.source].batch == b
  }

  lemma NamedOn(db: Db, db': Db, b: BatchId, n: string, item: StagedObject)
    requires Evolves(db, db') && SourceNamed(db, b, n, item)
    ensures SourceNamed(db', b, n, item)
  {
    SamePlace(db, db', item.source);
  }

  lemma NamedStep(k: Rules, s: Snap, moves: seq<Move>, i: nat, s': Snap)
    requires k.honest && OneStep(k, s, moves, i, s') && NamedBySource(s)
    ensures NamedBySource(s')
  {
    hide Consistent, Evolves, Attempt, LawfulTx, StageTurn, Cleanup.Legal;
    forall b, n | b in s'.baidu.dirs && n in s'.baidu.dirs[b] ensures SourceNamed(s'.db, b, n, s'.baidu.dirs[b][n]) {
      match moves[i] {
        case Tx(op) =>
          NamedOn(s.db, s'.db, b, n, s.baidu.dirs[b][n]);
        case MakeStaging(c) =>
          if b in s.baidu.dirs { assert SourceNamed(s.db, b, n, s.baidu.dirs[b][n]); }
        case Transfer(c, ids) =>
          assert b in s.baidu.dirs;
          if n in s.baidu.dirs[b] { assert SourceNamed(s.db, b, n, s.baidu.dirs[b][n]); }
        case _ =>
          assert b in s.baidu.dirs && s'.baidu.dirs[b] == s.baidu.dirs[b];
          assert SourceNamed(s.db, b, n, s.baidu.dirs[b][n]);
      }
    }
  }

  lemma {:induction false} AlwaysNamed(k: Rules, states: seq<Snap>, moves: seq<Move>, i: nat)
    requires k.honest && LawfulRun(k, states, moves) && i <= |moves|
    ensures NamedBySource(states[i])
  {
    hide OneStep, Step, LawfulFrom;
    if i > 0 {
      AlwaysNamed(k, states, moves, i - 1);
      ReadStep(k, states, moves, i - 1);
      NamedStep(k, states[i - 1], moves, i - 1, states[i]);
    }
  }

  /** With a remote that only adds what was asked for: of each source there is at most one object, in all batch
      directories together, and a transfer never asks for a source that already stands anywhere. */
  lemma EachSourceOnce(k: Rules, states: seq<Snap>, moves: seq<Move>, i: nat, b: BatchId, c: BatchId, n: string, m: string)
    requires k.honest && LawfulRun(k, states, moves) && i <= |moves|
    requires b in states[i].baidu.dirs && n in states[i].baidu.dirs[b] && c in states[i].baidu.dirs && m in states[i].baidu.dirs[c]
    ensures states[i].baidu.dirs[b][n].source == states[i].baidu.dirs[c][m].source ==> b == c && n == m
    ensures i < |moves| && moves[i].Transfer? ==> states[i].baidu.dirs[b][n].source !in moves[i].ids
  {
    AlwaysNamed(k, states, moves, i);
    assert SourceNamed(states[i].db, b, n, states[i].baidu.dirs[b][n]) && SourceNamed(states[i].db, c, m, states[i].baidu.dirs[c][m]);
    if i < |moves| && moves[i].Transfer? {
      assert Lawful(k, states, moves, i);
      assert NotYetStaged(states[i], moves[i].batch, moves[i].ids);
    }
  }

  /** Copies are as large as the manifest says, and no directories. */
  ghost predicate TrueCopies(s: Snap) {
    forall b, n :: b in s.baidu.dirs && n in s.baidu.dirs[b] && s.baidu.dirs[b][n].source in s.db.files ==>
      !s.baidu.dirs[b][n].isDir && s.baidu.dirs[b][n].size == s.db.files[s.baidu.dirs[b][n].source].size
  }

  /** Then a cleanup can be started in any state of any run: what it needs is always the case. */
  lemma LawfulIsOrderly(k: Rules, states: seq<Snap>, moves: seq<Move>, i: nat)
    requires k.honest && LawfulRun(k, states, moves) && i <= |moves| && TrueCopies(states[i])
    ensures Recovery.Orderly(states[i])
  {
    hide Consistent;
    AlwaysNamed(k, states, moves, i);
    RunOfStore(states, moves);
    RunConsistent(Dbs(states), i);
    var s := states[i];
    forall b | b in Recovery.Candidates(s.db) ensures Cleanup.Removable(s, b) { OwnFilesOnly(s, b); }
  }

  lemma OwnFilesOnly(s: Snap, b: BatchId)
    requires NamedBySource(s) && TrueCopies(s)
    ensures Cleanup.NothingForeign(s, b)
  {
    if b in s.baidu.dirs {
      forall n | n in s.baidu.dirs[b] ensures Cleanup.Expected(s.db, b, n, s.baidu.dirs[b][n]) {
        assert SourceNamed(s.db, b, n, s.baidu.dirs[b][n]);
        assert s.baidu.dirs[b][n].source in FilesOf(s.db, b);
      }
    }
  }

  // ----- a completed task ---------------------------------------------------------------

  /** What COMPLETED stands for. */
  ghost predicate Delivered(states: seq<Snap>, i: nat)
    requires i < |states|
  {
    var db := states[i].db;
    && db.task.scanCompleted && RootReady(db)
    && (forall f :: f in db.files ==>
          && db.files[f].status.Done? && f in db.members
          && VerifiedForGood(Dbs(states), i, f)
          && Cleaned(db, LocalCacheFile(f)) && Cleaned(db, BaiduBatchDir(db.members[f].batch)))
    && (BaiduTaskRoot in db.owned ==> Cleaned(db, BaiduTaskRoot))
  }

  lemma DoneRow(db: Db, f: FileId)
    requires Consistent(db) && f in db.files && db.files[f].status.Done?
    ensures f in db.members && Cleaned(db, LocalCacheFile(f)) && Cleaned(db, BaiduBatchDir(db.members[f].batch))
  {
    assert FileOk(db, f);
  }

  /** When a run marks the task COMPLETED, the scan was complete, every manifest file is DONE and was once
      DRIVE_VERIFIED under a Drive ID kept ever since, its local and batch objects were permitted and
      cleaned, and so was the task root if there is one. */
  lemma CompletedMeansDelivered(k: Rules, states: seq<Snap>, moves: seq<Move>, i: nat)
    requires LawfulRun(k, states, moves) && i < |moves| && moves[i] == Tx(SetTaskStatus(TaskCompleted))
    ensures Delivered(states, i) && states[i + 1].db.task.status.TaskCompleted?
  {
    hide Consistent, VerifiedForGood, Evolves;
    assert Lawful(k, states, moves, i) && Step(states[i], moves[i], states[i + 1]);
    RunOfStore(states, moves);
    RunConsistent(Dbs(states), i);
    var db := states[i].db;
    CleanedPermitted(db);
    forall f | f in db.files
      ensures f in db.members && VerifiedForGood(Dbs(states), i, f)
      ensures f in db.members ==> Cleaned(db, LocalCacheFile(f)) && Cleaned(db, BaiduBatchDir(db.members[f].batch))
    {
      VerifiedBefore(Dbs(states), i, f);
      DoneRow(db, f);
    }
  }

  // ----- ranks ------------------------------------------------------------------------------

  /** Over any stretch of any run of the store a file keeps or raises its rank, or sinks into FAILED_PERMANENT
      for good; FAILED_RETRYABLE is never reached. */
  lemma RankNeverFalls(dbs: seq<Db>, i: nat, j: nat, f: FileId)
    requires Run(dbs) && i <= j < |dbs| && f in dbs[i].files
    ensures f in dbs[j].files && Advances(dbs[i].files[f].status, dbs[j].files[f].status) && !dbs[j].files[f].status.FailedRetryable?
  {
    hide Consistent;
    RunForward(dbs, i, j);
    RunConsistent(dbs, j);
    KnownStatus(dbs[j], f);
    assert RowForward(dbs[i].files[f], dbs[j].files[f]);
  }

  lemma KnownStatus(db: Db, f: FileId)
    requires Consistent(db) && f in db.files
    ensures !db.files[f].status.FailedRetryable?
  {
  }
}
