/** The cleanup engine (internal/cleanup/engine.go) as a crashable sequence of atomic
    steps, and the safety of every step it takes. */
module Cleanup {
  import opened Wrappers
  import opened Model
  import opened Tables
  import opened Transactions
  import opened Invariant
  import opened Runs
  import opened Durable
  import opened Worlds

  /** A whole batch in cleanup: permission committed, every file verified, pending and permitted. */
  ghost predicate BatchInCleanup(db: Db, b: BatchId) {
    b in db.batches && FilesOf(db, b) != {} && CleanupReadable(db, b)
  }

  /** The step just before was a listing that showed the task root empty. */
  predicate RootSeenEmpty(moves: seq<Move>, i: nat) {
    0 < i <= |moves| && moves[i - 1] == InspectStaging(TaskRoot, Found([]))
  }

  /** The steps the engine may take, and what must be on record before each of them. */
  ghost predicate Legal(honest: bool, s: Snap, moves: seq<Move>, i: nat)
    requires i < |moves|
  {
    match moves[i]
    case Tx(AuthorizeBatch(b)) => Candidate(s.db, b)
    case Tx(MarkCleaned(LocalCacheFile(f))) => f in s.db.members && BatchInCleanup(s.db, s.db.members[f].batch) && BinFile(f) !in s.cache
    case Tx(MarkCleaned(BaiduBatchDir(b))) => BatchInCleanup(s.db, b) && (honest ==> b !in s.baidu.dirs)
    case Tx(MarkCleaned(BaiduTaskRoot)) => RootCandidate(s.db) && (honest ==> !RootThere(s.baidu))
    case Tx(CompleteCleanup(b)) => b in s.db.batches
    case Tx(AuthorizeRoot) => RootCandidate(s.db)
    case RemoveLocal(BinFile(f)) => f in s.db.members && BatchInCleanup(s.db, s.db.members[f].batch) && !Cleaned(s.db, LocalCacheFile(f))
    case InspectStaging(_, _) => true
    case DeleteStaging(BatchDir(b)) => BatchInCleanup(s.db, b) && !Cleaned(s.db, BaiduBatchDir(b))
    case DeleteStaging(TaskRoot) =>
      && Allowed(s.db, BaiduTaskRoot) && RootCandidate(s.db)
      && RootSeenEmpty(moves, i) && (honest ==> s.baidu.dirs == map[])
    case _ => false
  }

  /** Every step from position n on is a legal cleanup step. */
  ghost predicate LegalFrom(honest: bool, states: seq<Snap>, moves: seq<Move>, n: nat)
    requires |states| == |moves| + 1
  {
    forall i {:trigger Legal(honest, states[i], moves, i)} :: n <= i < |moves| ==> Legal(honest, states[i], moves, i)
  }

  /** Whether a step is legal is decided by the steps up to it. */
  lemma LegalPrefix(honest: bool, s: Snap, m: seq<Move>, m': seq<Move>, i: nat)
    requires i < |m| && m <= m'
    ensures Legal(honest, s, m, i) <==> Legal(honest, s, m', i)
  {
    assert RootSeenEmpty(m, i) <==> RootSeenEmpty(m', i);
  }

  /** A run that is legal so far, continued by legal steps, is legal. */
  lemma LegalJoin(honest: bool, s0: seq<Snap>, m0: seq<Move>, s: seq<Snap>, m: seq<Move>, s': seq<Snap>, m': seq<Move>)
    requires |s| == |m| + 1 && |s'| == |m'| + 1 && s0 <= s <= s' && m0 <= m <= m'
    requires LegalFrom(honest, s, m, |m0|) && LegalFrom(honest, s', m', |m|)
    ensures LegalFrom(honest, s', m', |m0|) && s0 <= s' && m0 <= m'
  {
    forall i | |m0| <= i < |m'| ensures Legal(honest, s'[i], m', i) {
      if i < |m| {
        assert s'[i] == s[i] && Legal(honest, s[i], m, i);
        LegalPrefix(honest, s[i], m, m', i);
      }
    }
  }

  lemma LegalStep(honest: bool, s: seq<Snap>, m: seq<Move>, s': Snap, x: Move)
    requires |s| == |m| + 1 && Legal(honest, s[|m|], m + [x], |m|)
    ensures LegalFrom(honest, s + [s'], m + [x], |m|)
  {
  }

  /** Only cleaned marks were set. */
  ghost predicate OnlyMarked(db: Db, db': Db) {
    && db'.files == db.files && db'.members == db.members && db'.batches == db.batches && db'.task == db.task
    && db'.owned.Keys == db.owned.Keys
    && forall k :: k in db.owned ==> db'.owned[k] == db.owned[k] || (db.owned[k].allowed && db'.owned[k] == db.owned[k].(cleaned := true))
  }

  /** Cleaned marks were set on cache objects of these files only. */
  ghost predicate MarkedAmong(db: Db, db': Db, files: seq<FileId>) {
    OnlyMarked(db, db') && forall k :: k in db.owned && !(k.LocalCacheFile? && k.file in files) ==> db'.owned[k] == db.owned[k]
  }

  lemma MarkedOneMore(a: Db, b: Db, c: Db, files: seq<FileId>, f: FileId)
    requires MarkedAmong(a, b, files) && MarkedAmong(b, c, [f])
    ensures MarkedAmong(a, c, files + [f])
  {
    MarkedTransitive(a, b, c);
    assert f in files + [f] && forall g :: g in files ==> g in files + [f];
  }

  lemma MarkedTransitive(a: Db, b: Db, c: Db)
    requires OnlyMarked(a, b) && OnlyMarked(b, c)
    ensures OnlyMarked(a, c)
  {
  }

  lemma MarkedKeeps(db: Db, db': Db, b: BatchId)
    requires OnlyMarked(db, db')
    ensures FilesOf(db', b) == FilesOf(db, b)
    ensures BatchInCleanup(db, b) ==> BatchInCleanup(db', b)
    ensures forall k :: Cleaned(db, k) ==> Cleaned(db', k)
  {
    assert FilesOf(db', b) == FilesOf(db, b);
    if BatchInCleanup(db, b) {
      forall f | f in FilesOf(db, b) ensures InCleanup(db', f) { assert InCleanup(db, f); }
    }
  }

  /** Removes one local object and records it. */
  method CleanLocalObject(w: World, ghost b: BatchId, f: FileId) returns (ok: bool)
    requires w.Valid() && BatchInCleanup(w.db, b) && f in FilesOf(w.db, b) && !Cleaned(w.db, LocalCacheFile(f))
    modifies w
    ensures w.Valid() && w.Extends() && LegalFrom(w.honest, w.states, w.moves, |old(w.moves)|)
    ensures MarkedAmong(old(w.db), w.db, [f]) && w.baidu == old(w.baidu)
    ensures ok ==> Cleaned(w.db, LocalCacheFile(f))
    ensures w.quiet ==> ok
  {
    assert InCleanup(w.db, f);
    ghost var s0, m0 := w.states, w.moves;
    ok := w.RemoveTempFile(BinFile(f));
    if !ok { return; }
    ghost var s1, m1 := w.states, w.moves;
    LegalStep(w.honest, s0, m0, w.Now(), RemoveLocal(BinFile(f)));
    ok := w.MarkCleanupObjectDone(LocalCacheFile(f));
    if ok {
      LegalStep(w.honest, s1, m1, w.Now(), Tx(MarkCleaned(LocalCacheFile(f))));
      LegalJoin(w.honest, s0, m0, s1, m1, w.states, w.moves);
    }
  }

  /** Everything in the batch's remote directory is one of its files, unchanged in size. */
  ghost predicate NothingForeign(s: Snap, b: BatchId) {
    b in s.baidu.dirs ==> forall n :: n in s.baidu.dirs[b] ==> Expected(s.db, b, n, s.baidu.dirs[b][n])
  }

  /** The directory is recorded as gone already, or can be deleted. */
  ghost predicate Removable(s: Snap, b: BatchId) {
    Cleaned(s.db, BaiduBatchDir(b)) || NothingForeign(s, b)
  }

  ghost predicate Expected(db: Db, b: BatchId, name: string, item: StagedObject) {
    exists f :: f in FilesOf(db, b) && f in db.files && Base(db.files[f].path) == name && !item.isDir && item.size == db.files[f].size
  }

  /** Rows of a cleanup batch as the engine indexes them: distinct, each under its registered remote path. */
  ghost predicate Indexed(batch: CleanupBatch, byPath: map<StagingPath, FileId>, n: nat)
    requires n <= |batch.files|
  {
    && (forall f :: f in batch.files[..n] ==> f in batch.rows && batch.rows[f].stagingPath in byPath && byPath[batch.rows[f].stagingPath] == f)
    && (forall p :: p in byPath ==> byPath[p] in batch.files && byPath[p] in batch.rows && batch.rows[byPath[p]].stagingPath == p)
  }

  /** Each registered path of the batch is the derived one; siblings never share it. */
  ghost predicate PathsDerived(batch: CleanupBatch) {
    && (forall f :: f in batch.files ==> f in batch.rows && batch.rows[f].stagingPath == StagedFile(batch.batch, Base(batch.rows[f].path)))
    && (forall f, g :: f in batch.files && g in batch.files && batch.rows[f].stagingPath == batch.rows[g].stagingPath ==> f == g)
  }

  lemma SiblingsDiffer(db: Db, f: FileId, g: FileId)
    requires PathsOk(db) && f in db.files && g in db.files
    requires Parent(db.files[f].path) == Parent(db.files[g].path) && Base(db.files[f].path) == Base(db.files[g].path)
    ensures f == g
  {
    var p, q := db.files[f].path, db.files[g].path;
    assert p == p[..|p| - 1] + [p[|p| - 1]];
    assert q == q[..|q| - 1] + [q[|q| - 1]];
  }

  lemma CleanupPathsDerived(db: Db, batch: CleanupBatch)
    requires Consistent(db) && IsCleanupBatch(db, batch.batch, batch)
    ensures PathsDerived(batch)
  {
    forall f | f in batch.files ensures f in batch.rows && batch.rows[f].stagingPath == StagedFile(batch.batch, Base(batch.rows[f].path)) {
      assert InCleanup(db, f) && FileOk(db, f);
    }
    forall f, g | f in batch.files && g in batch.files && batch.rows[f].stagingPath == batch.rows[g].stagingPath ensures f == g {
      assert InCleanup(db, f) && InCleanup(db, g);
      SiblingsDiffer(db, f, g);
    }
  }

  /** The engine's index of expected remote objects; a duplicate or missing path stops the cleanup. */
  method IndexByRemotePath(batch: CleanupBatch) returns (r: Option<map<StagingPath, FileId>>)
    requires Distinct(batch.files) && forall f :: f in batch.files ==> f in batch.rows
    ensures r.Some? ==> Indexed(batch, r.value, |batch.files|)
    ensures PathsDerived(batch) ==> r.Some?
  {
    var byPath: map<StagingPath, FileId> := map[];
    var i := 0;
    while i < |batch.files|
      invariant 0 <= i <= |batch.files| && Indexed(batch, byPath, i)
      invariant forall p :: p in byPath ==> byPath[p] in batch.files[..i]
    {
      var f := batch.files[i];
      var p := batch.rows[f].stagingPath;
      if p == NoStaging || p in byPath { return None; }
      assert batch.files[..i + 1] == batch.files[..i] + [f];
      byPath := byPath[p := f];
      i := i + 1;
    }
    r := Some(byPath);
  }

  /** Whether a listing holds only files of the batch with their registered sizes. */
  method OnlyExpected(batch: CleanupBatch, byPath: map<StagingPath, FileId>, items: seq<ListedObject>) returns (ok: bool)
    requires Indexed(batch, byPath, |batch.files|)
    ensures (forall i :: 0 <= i < |items| ==> Matches(batch, byPath, items[i])) ==> ok
    ensures ok ==> forall i :: 0 <= i < |items| ==> Matches(batch, byPath, items[i])
  {
    var i := 0;
    while i < |items|
      invariant 0 <= i <= |items| && forall j :: 0 <= j < i ==> Matches(batch, byPath, items[j])
    {
      if !Matches(batch, byPath, items[i]) { return false; }
      i := i + 1;
    }
    ok := true;
  }

  predicate Matches(batch: CleanupBatch, byPath: map<StagingPath, FileId>, item: ListedObject)
    requires forall p :: p in byPath ==> byPath[p] in batch.rows
  {
    item.path in byPath && !item.isDir && item.size == batch.rows[byPath[item.path]].size
  }

  /** Inspects the batch's remote directory and, if nothing unexpected is in it, deletes it. */
  method DeleteRemoteBatch(w: World, batch: CleanupBatch, byPath: map<StagingPath, FileId>) returns (ok: bool)
    requires w.Valid() && BatchInCleanup(w.db, batch.batch) && Indexed(batch, byPath, |batch.files|) && !Cleaned(w.db, BaiduBatchDir(batch.batch))
    modifies w
    ensures w.Valid() && w.Extends() && LegalFrom(w.honest, w.states, w.moves, |old(w.moves)|)
    ensures w.db == old(w.db)
    ensures ok && w.honest ==> batch.batch !in w.baidu.dirs
    ensures w.quiet && w.honest && ListingMatches(old(w.baidu), batch, byPath) ==> ok
  {
    var b := batch.batch;
    ghost var s0, m0 := w.states, w.moves;
    var seen := w.ListStagingPathForCleanup(BatchDir(b));
    ghost var s1, m1 := w.states, w.moves;
    LegalStep(w.honest, s0, m0, w.Now(), InspectStaging(BatchDir(b), seen));
    if seen.ListFailed? { return false; }
    if seen.NotFound? { return true; }
    var expected := OnlyExpected(batch, byPath, seen.items);
    if !expected { return false; }
    var deletion := w.DeleteStagingPath(BatchDir(b));
    LegalStep(w.honest, s1, m1, w.Now(), DeleteStaging(BatchDir(b)));
    LegalJoin(w.honest, s0, m0, s1, m1, w.states, w.moves);
    ok := !deletion.DeleteFailed?;
  }

  /** Deletes the remote directory and records it. */
  method CleanRemoteBatch(w: World, batch: CleanupBatch, byPath: map<StagingPath, FileId>) returns (ok: bool)
    requires w.Valid() && BatchInCleanup(w.db, batch.batch) && Indexed(batch, byPath, |batch.files|) && !Cleaned(w.db, BaiduBatchDir(batch.batch))
    modifies w
    ensures w.Valid() && w.Extends() && LegalFrom(w.honest, w.states, w.moves, |old(w.moves)|)
    ensures OnlyMarked(old(w.db), w.db)
    ensures ok ==> Cleaned(w.db, BaiduBatchDir(batch.batch))
    ensures w.quiet && w.honest && ListingMatches(old(w.baidu), batch, byPath) ==> ok
  {
    ok := DeleteRemoteBatch(w, batch, byPath);
    if !ok { return; }
    ghost var s, m := w.states, w.moves;
    ok := w.MarkCleanupObjectDone(BaiduBatchDir(batch.batch));
    if ok {
      LegalStep(w.honest, s, m, w.Now(), Tx(MarkCleaned(BaiduBatchDir(batch.batch))));
      LegalJoin(w.honest, old(w.states), old(w.moves), s, m, w.states, w.moves);
    }
  }

  /** Every object a truthful listing of the directory can show is expected. */
  ghost predicate ListingMatches(baidu: Baidu, batch: CleanupBatch, byPath: map<StagingPath, FileId>) {
    && (forall p :: p in byPath ==> byPath[p] in batch.rows)
    && forall item :: batch.batch in baidu.dirs && Reports(baidu.dirs[batch.batch], batch.batch, item) ==> Matches(batch, byPath, item)
  }

  lemma ForeignMatches(s: Snap, batch: CleanupBatch, byPath: map<StagingPath, FileId>)
    requires IsCleanupBatch(s.db, batch.batch, batch) && PathsDerived(batch) && Indexed(batch, byPath, |batch.files|)
    requires NothingForeign(s, batch.batch)
    ensures ListingMatches(s.baidu, batch, byPath)
  {
    assert batch.files[..|batch.files|] == batch.files;
    forall item | batch.batch in s.baidu.dirs && Reports(s.baidu.dirs[batch.batch], batch.batch, item) ensures Matches(batch, byPath, item) {
      assert Expected(s.db, batch.batch, item.name, s.baidu.dirs[batch.batch][item.name]);
      var f :| f in FilesOf(s.db, batch.batch) && f in s.db.files && Base(s.db.files[f].path) == item.name && item.size == s.db.files[f].size;
      assert f in batch.files;
    }
  }

  /** The locals are the batch's files, and the objects their rows. */
  lemma LocalsListed(db: Db, batch: CleanupBatch)
    requires IsCleanupBatch(db, batch.batch, batch)
    ensures batch.locals == batch.files && forall f :: f in batch.files ==> LocalCacheFile(f) in batch.objects
  {
    hide InCleanup;
  }

  lemma NothingMarked(db: Db, w: World, files: seq<FileId>, n: nat)
    requires w.db == db && |w.states| == |w.moves| + 1 && n == |w.moves|
    ensures MarkedAmong(db, w.db, files) && LegalFrom(w.honest, w.states, w.moves, n)
  {
  }

  /** Where the i-th object stands when its turn comes. */
  lemma MarkNow(db0: Db, db: Db, batch: CleanupBatch, i: nat)
    requires IsCleanupBatch(db0, batch.batch, batch) && BatchInCleanup(db0, batch.batch) && i < |batch.locals| && MarkedAmong(db0, db, batch.locals[..i])
    ensures var f := batch.locals[i];
            && f in batch.files && LocalCacheFile(f) in batch.objects && f in FilesOf(db, batch.batch) && BatchInCleanup(db, batch.batch)
            && (Cleaned(db, LocalCacheFile(f)) <==> batch.objects[LocalCacheFile(f)].cleaned)
  {
    hide BatchInCleanup;
    var f := batch.locals[i];
    assert f in batch.files && InCleanup(db0, f) && f !in batch.locals[..i];
    MarkedKeeps(db0, db, batch.batch);
  }

  lemma StillCleaned(db: Db, db': Db, files: seq<FileId>)
    requires MarkedAmong(db, db', files)
    ensures forall k :: Cleaned(db, k) ==> Cleaned(db', k)
  {
  }

  lemma AmongMore(db: Db, db': Db, files: seq<FileId>, f: FileId)
    requires MarkedAmong(db, db', files)
    ensures MarkedAmong(db, db', files + [f])
  {
    forall g | g in files ensures g in files + [f] {}
  }

  lemma AmongAll(db: Db, db': Db, batch: CleanupBatch, i: nat)
    requires i <= |batch.locals| && batch.locals == batch.files && MarkedAmong(db, db', batch.locals[..i])
    ensures MarkedAmong(db, db', batch.files)
  {
    forall g | g in batch.locals[..i] ensures g in batch.files {}
  }

  /** All local objects of the batch, skipping those already recorded clean. */
  method CleanLocalObjects(w: World, batch: CleanupBatch) returns (ok: bool)
    requires w.Valid() && BatchInCleanup(w.db, batch.batch) && IsCleanupBatch(w.db, batch.batch, batch)
    modifies w
    ensures w.Valid() && w.Extends() && LegalFrom(w.honest, w.states, w.moves, |old(w.moves)|)
    ensures MarkedAmong(old(w.db), w.db, batch.files) && w.baidu == old(w.baidu)
    ensures ok ==> forall f :: f in batch.files ==> Cleaned(w.db, LocalCacheFile(f))
    ensures w.quiet ==> ok
  {
    hide Step, Attempt, Legal, BatchInCleanup, InCleanup, Cleaned, IsCleanupBatch, MarkedAmong, LegalFrom, Distinct;
    ghost var db0 := w.db;
    LocalsListed(db0, batch);
    NothingMarked(db0, w, [], |w.moves|);
    var i := 0;
    assert batch.locals[..0] == [];
    while i < |batch.locals|
      invariant 0 <= i <= |batch.locals|
      invariant w.Valid() && w.Extends() && LegalFrom(w.honest, w.states, w.moves, |old(w.moves)|)
      invariant MarkedAmong(db0, w.db, batch.locals[..i]) && w.baidu == old(w.baidu)
      invariant forall j :: 0 <= j < i ==> Cleaned(w.db, LocalCacheFile(batch.locals[j]))
    {
      var f := batch.locals[i];
      assert f in batch.files;
      MarkNow(db0, w.db, batch, i);
      assert batch.locals[..i + 1] == batch.locals[..i] + [f];
      if !batch.objects[LocalCacheFile(f)].cleaned {
        ghost var db, s, m := w.db, w.states, w.moves;
        ok := CleanLocalObject(w, batch.batch, f);
        MarkedOneMore(db0, db, w.db, batch.locals[..i], f);
        LegalJoin(w.honest, old(w.states), old(w.moves), s, m, w.states, w.moves);
        AmongAll(db0, w.db, batch, i + 1);
        if !ok { return; }
        StillCleaned(db, w.db, [f]);
      } else {
        AmongMore(db0, w.db, batch.locals[..i], f);
      }
      i := i + 1;
    }
    AmongAll(db0, w.db, batch, i);
    ok := true;
  }

  /** cleanupBatch: local objects first, then the remote directory. */
  method CleanupBatchObjects(w: World, batch: CleanupBatch) returns (ok: bool)
    requires w.Valid() && BatchInCleanup(w.db, batch.batch) && IsCleanupBatch(w.db, batch.batch, batch)
    modifies w
    ensures w.Valid() && w.Extends() && LegalFrom(w.honest, w.states, w.moves, |old(w.moves)|)
    ensures OnlyMarked(old(w.db), w.db)
    ensures ok ==> CanCompleteCleanup(w.db, batch.batch)
    ensures w.quiet && w.honest && Removable(old(w.Now()), batch.batch) ==> ok
  {
    hide Legal, Step, BatchInCleanup, NothingForeign, CanCompleteCleanup, Consistent, InCleanup, PathsDerived, Indexed, ListingMatches;
    ghost var db0 := w.db;
    w.InOrder();
    CleanupPathsDerived(w.db, batch);
    var index := IndexByRemotePath(batch);
    if index.None? || |batch.locals| != |batch.files| { return false; }
    if NothingForeign(w.Now(), batch.batch) { ForeignMatches(w.Now(), batch, index.value); }
    ok := CleanLocalObjects(w, batch);
    if !ok { return; }
    MarkedKeeps(db0, w.db, batch.batch);
    ghost var db1, s, m := w.db, w.states, w.moves;
    if !batch.objects[BaiduBatchDir(batch.batch)].cleaned {
      ok := CleanRemoteBatch(w, batch, index.value);
      LegalJoin(w.honest, old(w.states), old(w.moves), s, m, w.states, w.moves);
      MarkedTransitive(db0, db1, w.db);
      MarkedKeeps(db1, w.db, batch.batch);
    }
    if ok { ReadyToComplete(w.db, batch.batch); }
  }

  lemma ReadyToComplete(db: Db, b: BatchId)
    requires BatchInCleanup(db, b) && Cleaned(db, BaiduBatchDir(b))
    requires forall f :: f in FilesOf(db, b) ==> Cleaned(db, LocalCacheFile(f))
    ensures CanCompleteCleanup(db, b)
  {
    forall f | f in FilesOf(db, b) ensures f in db.files && db.files[f].status.CleanupPending? { assert InCleanup(db, f); }
  }
}
