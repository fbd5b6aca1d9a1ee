/** What lawful steps add up to: safety of every run of the whole program, with a crash after
    any step and remotes failing as they like. */
module Safety {
  import opened Wrappers
  import opened Model
  import opened Tables
  import opened Transactions
  import opened Invariant
  import opened Runs
  import opened Durable
  import opened Worlds
  import opened Progresses
  import opened Laws
  import Cleanup

  /** A run from the creation of the task on in which every step was lawful. */
  ghost predicate LawfulRun(k: Rules, states: seq<Snap>, moves: seq<Move>) {
    IsRun(states, moves) && LawfulFrom(k, states, moves, 0)
  }

  /** One lawful step between two states in order. */
  ghost predicate OneStep(k: Rules, s: Snap, moves: seq<Move>, i: nat, s': Snap) {
    && i < |moves| && Step(s, moves[i], s')
    && (if OfCleanup(moves[i]) then Cleanup.Legal(k.honest, s, moves, i) else LawfulStep(k, s, moves[i], s'))
    && Consistent(s.db) && Consistent(s'.db) && Evolves(s.db, s'.db)
  }

  lemma ReadStep(k: Rules, states: seq<Snap>, moves: seq<Move>, i: nat)
    requires LawfulRun(k, states, moves) && i < |moves|
    ensures OneStep(k, states[i], moves, i, states[i + 1])
  {
    hide Consistent, Evolves, Attempt;
    RunOfStore(states, moves);
    RunConsistent(Dbs(states), i);
    RunConsistent(Dbs(states), i + 1);
    assert Dbs(states)[i + 1 - 1] == states[i].db;
    NextKeeps(Dbs(states)[i], Dbs(states)[i + 1]);
    assert Step(states[i], moves[i], states[i + 1]) && Lawful(k, states, moves, i);
  }

  // ----- deletions ---------------------------------------------------------------

  /** Everything of this batch had been verified in Drive by moment i, for good. */
  ghost predicate BatchVerified(states: seq<Snap>, i: nat, b: BatchId)
    requires i < |states|
  {
    forall f :: f in FilesOf(states[i].db, b) ==> VerifiedForGood(Dbs(states), i, f)
  }

  lemma PermittedMeansVerified(k: Rules, states: seq<Snap>, moves: seq<Move>, i: nat, b: BatchId)
    requires LawfulRun(k, states, moves) && i <= |moves| && Allowed(states[i].db, BaiduBatchDir(b))
    ensures BatchVerified(states, i, b)
  {
    RunOfStore(states, moves);
    forall f | f in FilesOf(states[i].db, b) ensures VerifiedForGood(Dbs(states), i, f) {
      PermissionMeansVerified(Dbs(states), i, b, f);
    }
  }

  /** A cache file is removed in cleanup only with its permission on record, and only when every file of
      its batch had been verified in Drive under a Drive ID that never changes afterwards. */
  lemma LocalDeletionSafe(k: Rules, states: seq<Snap>, moves: seq<Move>, i: nat, p: CachePath)
    requires LawfulRun(k, states, moves) && i < |moves| && moves[i] == RemoveLocal(p)
    ensures p.BinFile? && p.file in states[i].db.members && Allowed(states[i].db, LocalCacheFile(p.file))
    ensures BatchVerified(states, i, states[i].db.members[p.file].batch)
  {
    assert Lawful(k, states, moves, i);
    var db := states[i].db;
    var b := db.members[p.file].batch;
    assert Cleanup.BatchInCleanup(db, b) && p.file in FilesOf(db, b);
    assert InCleanup(db, p.file);
    PermittedMeansVerified(k, states, moves, i, b);
  }

  /** The same for a batch directory on Baidu. */
  lemma BatchDeletionSafe(k: Rules, states: seq<Snap>, moves: seq<Move>, i: nat, b: BatchId)
    requires LawfulRun(k, states, moves) && i < |moves| && moves[i] == DeleteStaging(BatchDir(b))
    ensures b in states[i].db.batches && Allowed(states[i].db, BaiduBatchDir(b)) && BatchVerified(states, i, b)
  {
    assert Lawful(k, states, moves, i);
    PermittedMeansVerified(k, states, moves, i, b);
  }

  /** The task root goes only when every file is DONE and was verified for good, every batch cleaned, and a
      listing just showed it empty. */
  lemma RootDeletionSafe(k: Rules, states: seq<Snap>, moves: seq<Move>, i: nat)
    requires LawfulRun(k, states, moves) && i < |moves| && moves[i] == DeleteStaging(TaskRoot)
    ensures Allowed(states[i].db, BaiduTaskRoot) && AllDone(states[i].db) && AllBatchesCleaned(states[i].db)
    ensures i > 0 && moves[i - 1] == InspectStaging(TaskRoot, Found([]))
    ensures k.honest ==> states[i].baidu.dirs == map[]
    ensures forall f :: f in states[i].db.files ==> VerifiedForGood(Dbs(states), i, f)
  {
    hide VerifiedForGood, Consistent;
    assert Lawful(k, states, moves, i);
    RunOfStore(states, moves);
    forall f | f in states[i].db.files ensures VerifiedForGood(Dbs(states), i, f) { VerifiedBefore(Dbs(states), i, f); }
  }

  /** Nothing else ever disappears: from a true Baidu only a batch directory as a whole, by its own permitted
      deletion, and from the cache only in cleanup or while the file is still being downloaded. */
  lemma NothingElseDeleted(k: Rules, states: seq<Snap>, moves: seq<Move>, i: nat, b: BatchId, f: FileId)
    requires k.honest && LawfulRun(k, states, moves) && i < |moves|
    ensures b in states[i].baidu.dirs ==>
              if b in states[i + 1].baidu.dirs then forall n :: n in states[i].baidu.dirs[b] ==> n in states[i + 1].baidu.dirs[b] && states[i + 1].baidu.dirs[b][n] == states[i].baidu.dirs[b][n]
              else moves[i] == DeleteStaging(BatchDir(b)) && Allowed(states[i].db, BaiduBatchDir(b)) && BatchVerified(states, i, b)
    ensures BinFile(f) in states[i].cache && BinFile(f) !in states[i + 1].cache ==>
              moves[i] == RemoveLocal(BinFile(f)) || BeingDownloaded(states[i], BinFile(f))
  {
    hide Consistent, Evolves, Attempt, BatchVerified;
    ReadStep(k, states, moves, i);
    if b in states[i].baidu.dirs && b !in states[i + 1].baidu.dirs { VanishesByDeletion(k, states[i], moves, i, states[i + 1], b); BatchDeletionSafe(k, states, moves, i, b); }
    if b in states[i].baidu.dirs && b in states[i + 1].baidu.dirs { KeptOtherwise(k, states[i], moves, i, states[i + 1], b); }
    BinsVanish(k, states[i], moves, i, states[i + 1], f);
  }

  lemma VanishesByDeletion(k: Rules, s: Snap, moves: seq<Move>, i: nat, s': Snap, b: BatchId)
    requires k.honest && OneStep(k, s, moves, i, s') && b in s.baidu.dirs && b !in s'.baidu.dirs
    ensures moves[i] == DeleteStaging(BatchDir(b))
  {
    hide Consistent, Evolves, Attempt;
  }

  lemma KeptOtherwise(k: Rules, s: Snap, moves: seq<Move>, i: nat, s': Snap, b: BatchId)
    requires k.honest && OneStep(k, s, moves, i, s') && b in s.baidu.dirs && b in s'.baidu.dirs
    ensures forall n :: n in s.baidu.dirs[b] ==> n in s'.baidu.dirs[b] && s'.baidu.dirs[b][n] == s.baidu.dirs[b][n]
  {
    hide Consistent, Evolves, Attempt;
  }

  lemma BinsVanish(k: Rules, s: Snap, moves: seq<Move>, i: nat, s': Snap, f: FileId)
    requires OneStep(k, s, moves, i, s')
    ensures BinFile(f) in s.cache && BinFile(f) !in s'.cache ==> moves[i] == RemoveLocal(BinFile(f)) || BeingDownloaded(s, BinFile(f))
  {
    hide Consistent, Evolves, Attempt;
    match moves[i] {
      case WriteLocal(q) => if BinFile(f) in s.cache { assert BinFile(f) in s.cache - {q}; }
      case _ =>
    }
  }

  // ----- cleaned cache files -------------------------------------------------------

  ghost predicate CleanedGone(s: Snap) {
    forall f :: Cleaned(s.db, LocalCacheFile(f)) ==> BinFile(f) !in s.cache
  }

  lemma DownloadedNotPermitted(db: Db, f: FileId)
    requires Consistent(db) && f in db.files && AwaitsDownload(db.files[f].status)
    ensures !Allowed(db, LocalCacheFile(f))
  {
    if LocalCacheFile(f) in db.owned { assert OwnedOk(db, LocalCacheFile(f)); }
  }

  /** Which cleaned marks a transaction can set. */
  lemma MarksOnly(db: Db, op: Op, k: OwnedKey)
    requires Attempt(db, op).Some? && Cleaned(Attempt(db, op).value, k) && (k in db.owned && db.owned[k].cleaned ==> db.owned[k].allowed)
    ensures Cleaned(db, k) || op == MarkCleaned(k)
  {
    if op.UpsertPage? {
      PagesKeepOwned(db, op.dirs, op.files);
    } else if op.Plan? {
      PlanMarksNone(db, op.chunks, k);
    }
  }

  lemma {:induction false} PagesKeepOwned(db: Db, dirs: seq<Path>, files: seq<ManifestFile>)
    requires UpsertManifest(db, dirs, files).Some?
    ensures UpsertManifest(db, dirs, files).value.owned == db.owned
    decreases |dirs| + |files|
  {
    if files != [] {
      PagesKeepOwned(db, dirs, files[..|files| - 1]);
    } else if dirs != [] {
      PagesKeepOwned(db, dirs[..|dirs| - 1], []);
    }
  }

  lemma PlanMarksNone(db: Db, chunks: seq<Chunk>, k: OwnedKey)
    requires PlanAll(db, chunks).Some? && Cleaned(PlanAll(db, chunks).value, k)
    ensures Cleaned(db, k)
  {
    if chunks != [] { ChunksMarkNone(RegisterTaskRoot(db), chunks, k); }
  }

  lemma {:induction false} ChunksMarkNone(db: Db, chunks: seq<Chunk>, k: OwnedKey)
    requires PlanChunks(db, chunks).Some? && Cleaned(PlanChunks(db, chunks).value, k)
    ensures Cleaned(db, k)
  {
    if chunks != [] {
      assert Cleaned(PlanChunks(db, chunks[..|chunks| - 1]).value, k);
      ChunksMarkNone(db, chunks[..|chunks| - 1], k);
    }
  }

  lemma CleanedGoneStep(k: Rules, s: Snap, moves: seq<Move>, i: nat, s': Snap)
    requires OneStep(k, s, moves, i, s') && CleanedGone(s)
    ensures CleanedGone(s')
  {
    hide Consistent, Evolves, Attempt;
    CleanedPermitted(s.db);
    forall f | Cleaned(s'.db, LocalCacheFile(f)) ensures BinFile(f) !in s'.cache {
      match moves[i] {
        case Tx(op) =>
          MarksOnly(s.db, op, LocalCacheFile(f));
          assert BinFile(f) !in s.cache;
        case RenameLocal(part, bin) =>
          DownloadedNotPermitted(s.db, part.file);
          assert f != part.file;
        case WriteLocal(p) =>
          assert BinFile(f) !in s'.cache - {p};
        case _ =>
          assert s'.db == s.db;
      }
    }
  }

  lemma CleanedPermitted(db: Db)
    requires Consistent(db)
    ensures forall k :: k in db.owned && db.owned[k].cleaned ==> db.owned[k].allowed
  {
    forall k | k in db.owned && db.owned[k].cleaned ensures db.owned[k].allowed { assert OwnedOk(db, k); }
  }

  /** A cache file recorded as cleaned is gone, and never comes back. */
  lemma {:induction false} CleanedStaysGone(k: Rules, states: seq<Snap>, moves: seq<Move>, i: nat)
    requires LawfulRun(k, states, moves) && i <= |moves|
    ensures CleanedGone(states[i])
  {
    hide OneStep, Step, LawfulFrom;
    if i > 0 {
      CleanedStaysGone(k, states, moves, i - 1);
      ReadStep(k, states, moves, i - 1);
      CleanedGoneStep(k, states[i - 1], moves, i - 1, states[i]);
    }
  }

  // ----- the cache follows the source ------------------------------------------------

  predicate CacheFile(f: FileId, p: CachePath) {
    p == PartFile(f) || p == BinFile(f)
  }

  /** Whatever of a file is in the cache is a beginning of its source. */
  ghost predicate Prefixes(truth: Truth, s: Snap) {
    forall f, p :: p in s.cache && CacheFile(f, p) ==> s.cache[p] <= truth.source(f)
  }

  /** A file from LOCAL_READY until its cleanup has its cache file, of full size. */
  predicate KeepsBin(status: FileStatus) {
    AwaitsDrive(status) || status.DriveVerified?
  }

  ghost predicate BinsKept(s: Snap) {
    forall f :: f in s.db.files && KeepsBin(s.db.files[f].status) ==> BinFile(f) in s.cache && |s.cache[BinFile(f)]| == s.db.files[f].size
  }

  lemma AppendPrefix(k: Rules, f: FileId, before: seq<Byte>, after: seq<Byte>)
    requires k.honest && Appended(k, f, before, after) && before <= k.truth.source(f)
    ensures after <= k.truth.source(f)
  {
    var chunk :| after == before + chunk && Serves(k.truth.source(f), |before|, chunk);
    assert k.truth.source(f) == before + k.truth.source(f)[|before|..];
  }

  lemma PrefixesStep(k: Rules, s: Snap, moves: seq<Move>, i: nat, s': Snap)
    requires k.honest && OneStep(k, s, moves, i, s') && Prefixes(k.truth, s)
    ensures Prefixes(k.truth, s')
  {
    hide Consistent, Evolves, Attempt;
    forall f, p | p in s'.cache && CacheFile(f, p) ensures s'.cache[p] <= k.truth.source(f) {
      match moves[i] {
        case RenameLocal(part, bin) =>
          if p == bin { assert CacheFile(f, part); } else { assert p in s.cache; }
        case WriteLocal(q) =>
          if p == q {
            if p in s.cache { assert s.cache[p] <= k.truth.source(f); }
            AppendPrefix(k, f, PartOf(s.cache, p), s'.cache[p]);
          } else {
            assert p in s'.cache - {q} && (s'.cache - {q})[p] == (s.cache - {q})[p];
          }
        case _ =>
          assert p in s.cache && s'.cache[p] == s.cache[p];
      }
    }
  }

  /** In every state, across interrupted copies, range resets, torn renames and restarts: the partial
      file, and the cache file, are a beginning of the source. */
  lemma {:induction false} CacheIsPrefix(k: Rules, states: seq<Snap>, moves: seq<Move>, i: nat)
    requires k.honest && LawfulRun(k, states, moves) && i <= |moves|
    ensures Prefixes(k.truth, states[i])
  {
    hide OneStep, Step, LawfulFrom;
    if i > 0 {
      CacheIsPrefix(k, states, moves, i - 1);
      ReadStep(k, states, moves, i - 1);
      PrefixesStep(k, states[i - 1], moves, i - 1, states[i]);
    }
  }

  lemma KeepsBinColumns(db: Db, op: Op, f: FileId)
    requires Attempt(db, op).Some? && !op.UpsertPage? && !op.Plan?
    requires f in Attempt(db, op).value.files && KeepsBin(Attempt(db, op).value.files[f].status)
    ensures f in db.files && Attempt(db, op).value.files[f].size == db.files[f].size
    ensures KeepsBin(db.files[f].status) || (op.MarkLocalReady? && op.file == f)
  {
  }

  /** How a file gets to keep its cache file: it did already, or it is being marked LOCAL_READY. */
  lemma KeepsBinBefore(db: Db, op: Op, f: FileId)
    requires Consistent(db) && Attempt(db, op).Some? && f in Attempt(db, op).value.files && KeepsBin(Attempt(db, op).value.files[f].status)
    ensures f in db.files && Attempt(db, op).value.files[f].size == db.files[f].size
    ensures KeepsBin(db.files[f].status) || (op.MarkLocalReady? && op.file == f)
  {
    hide Consistent, Settled, UpsertManifest, PlanAll, Evolves;
    if op.UpsertPage? || op.Plan? {
      var db' := Attempt(db, op).value;
      assert db' == Exec(db, op);
      if op.UpsertPage? { ManifestSettles(db, op.dirs, op.files); } else { PlanSettles(db, op.chunks); }
      if f !in db.files { NewFilesDiscovered(db, db', f); }
      assert f in db.files;
      OpKeeps(db, op);
      SettledStatus(db, db', f);
    } else {
      KeepsBinColumns(db, op, f);
    }
  }

  lemma SettledStatus(db: Db, db': Db, f: FileId)
    requires Settled(db, db') && Evolves(db, db') && f in db.files
    ensures AtMostPlanned(db.files[f].status, db'.files[f].status) && db'.files[f].size == db.files[f].size
  {
    assert RowEvolves(db.files[f], db'.files[f]);
  }

  lemma ManifestSettles(db: Db, dirs: seq<Path>, files: seq<ManifestFile>)
    requires Consistent(db) && UpsertManifest(db, dirs, files).Some?
    ensures Settled(db, UpsertManifest(db, dirs, files).value)
  {
    UpsertManifestKeeps(db, dirs, files);
  }

  lemma PlanSettles(db: Db, chunks: seq<Chunk>)
    requires Consistent(db) && PlanAll(db, chunks).Some?
    ensures Settled(db, PlanAll(db, chunks).value)
  {
    PlanKeeps(db, chunks);
  }

  lemma BinsKeptStep(k: Rules, s: Snap, moves: seq<Move>, i: nat, s': Snap)
    requires OneStep(k, s, moves, i, s') && BinsKept(s)
    ensures BinsKept(s')
  {
    hide Consistent, Evolves, Attempt, StageTurn, Stored;
    forall f | f in s'.db.files && KeepsBin(s'.db.files[f].status)
      ensures BinFile(f) in s'.cache && |s'.cache[BinFile(f)]| == s'.db.files[f].size
    {
      match moves[i] {
        case Tx(op) =>
          KeepsBinBefore(s.db, op, f);
        case RemoveLocal(p) =>
          assert InCleanup(s.db, p.file) by { assert p.file in FilesOf(s.db, s.db.members[p.file].batch); }
          assert BinFile(f) != p;
        case WriteLocal(q) =>
          assert BinFile(f) in s'.cache - {q} && (s'.cache - {q})[BinFile(f)] == (s.cache - {q})[BinFile(f)];
        case _ =>
      }
    }
  }

  lemma {:induction false} ReadyKeepsBin(k: Rules, states: seq<Snap>, moves: seq<Move>, i: nat)
    requires LawfulRun(k, states, moves) && i <= |moves|
    ensures BinsKept(states[i])
  {
    hide OneStep, Step, LawfulFrom;
    if i > 0 {
      ReadyKeepsBin(k, states, moves, i - 1);
      ReadStep(k, states, moves, i - 1);
      BinsKeptStep(k, states[i - 1], moves, i - 1, states[i]);
    }
  }

  /** A file that is LOCAL_READY, or further on but not yet in cleanup, has its cache file, and that is the
      source itself as soon as the manifest's size is right. */
  lemma LocalReadyIsSource(k: Rules, states: seq<Snap>, moves: seq<Move>, i: nat, f: FileId)
    requires k.honest && LawfulRun(k, states, moves) && i <= |moves|
    requires f in states[i].db.files && KeepsBin(states[i].db.files[f].status)
    ensures BinFile(f) in states[i].cache
    ensures states[i].db.files[f].size <= |k.truth.source(f)|
    ensures states[i].cache[BinFile(f)] == k.truth.source(f)[..states[i].db.files[f].size]
    ensures states[i].cache[BinFile(f)] == k.truth.source(f) <==> states[i].db.files[f].size == |k.truth.source(f)|
  {
    hide LawfulRun;
    CacheIsPrefix(k, states, moves, i);
    ReadyKeepsBin(k, states, moves, i);
    assert CacheFile(f, BinFile(f));
  }
}
