/** Why an interrupted cleanup can simply be started again: the durable result a
    cleanup is heading for is the same in every state its legal steps pass through. */
module Recovery {
  import opened Wrappers
  import opened Model
  import opened Tables
  import opened Transactions
  import opened Invariant
  import opened Durable
  import opened Worlds
  import opened Cleanup

  function Candidates(db: Db): set<BatchId> {
    set b | b in db.batches && Candidate(db, b)
  }

  /** Files of batches that are candidates for cleanup. */
  function Leaving(db: Db): set<FileId> {
    set f | f in db.members && db.members[f].batch in Candidates(db)
  }

  /** The tables once every candidate batch is cleaned: its files DONE, its rows permitted and cleaned. */
  function FinalDb(db: Db): Db {
    db.(files := map f | f in db.files :: if f in Leaving(db) then db.files[f].(status := Done) else db.files[f],
        owned := map k | k in db.owned :: if Finishes(db, k) then OwnedRow(db.owned[k].path, true, true) else db.owned[k])
  }

  /** Objects of candidate batches. */
  predicate Finishes(db: Db, k: OwnedKey) {
    (k.LocalCacheFile? && k.file in Leaving(db)) || (k.BaiduBatchDir? && k.batch in Candidates(db))
  }

  /** Cache files still to be removed. */
  function LeavingBins(db: Db): set<CachePath> {
    set f | f in Leaving(db) && !Cleaned(db, LocalCacheFile(f)) :: BinFile(f)
  }

  /** Remote directories still to be deleted: what is recorded as cleaned is not looked at again. */
  function LeavingDirs(db: Db): set<BatchId> {
    set b | b in Candidates(db) && !Cleaned(db, BaiduBatchDir(b))
  }

  /** The same for local files and remote directories. */
  function FinalBatches(s: Snap): Snap {
    Snap(FinalDb(s.db), s.cache - LeavingBins(s.db), s.baidu.(dirs := s.baidu.dirs - LeavingDirs(s.db)), s.drive)
  }

  /** And then the task root: cleaned if nothing is left in it, otherwise only permitted. */
  function FinalRoot(s: Snap): Snap {
    if !RootCandidate(s.db) then s
    else if s.baidu.dirs == map[] then
      s.(db := s.db.(owned := s.db.owned[BaiduTaskRoot := OwnedRow(s.db.owned[BaiduTaskRoot].path, true, true)]), baidu := Baidu(false, map[]))
    else
      s.(db := s.db.(owned := s.db.owned[BaiduTaskRoot := OwnedRow(s.db.owned[BaiduTaskRoot].path, true, false)]))
  }

  /** The durable result an undisturbed cleanup of s arrives at. */
  function Final(s: Snap): Snap {
    FinalRoot(FinalBatches(s))
  }

  /** Remote directories still to be deleted hold nothing but their batch's files. */
  ghost predicate NoForeign(s: Snap) {
    forall b :: b in Candidates(s.db) ==> Removable(s, b)
  }

  ghost predicate Orderly(s: Snap) {
    Consistent(s.db) && NoForeign(s)
  }

  /** No batch is left to clean, and the root is cleaned unless it is not due or not empty. */
  ghost predicate Finished(s: Snap) {
    Candidates(s.db) == {} && (RootCandidate(s.db) ==> Allowed(s.db, BaiduTaskRoot) && s.baidu.dirs != map[])
  }

  lemma NothingLeaving(db: Db)
    requires Candidates(db) == {}
    ensures Leaving(db) == {} && LeavingBins(db) == {} && LeavingDirs(db) == {} && FinalDb(db) == db
  {
    assert Leaving(db) == {};
    assert FinalDb(db).owned == db.owned;
    assert FinalDb(db).files == db.files;
  }

  lemma FinishedIsFinal(s: Snap)
    requires Consistent(s.db) && Finished(s)
    ensures Final(s) == s
  {
    NothingLeaving(s.db);
    assert s.cache - {} == s.cache;
    assert s.baidu.dirs - {} == s.baidu.dirs;
    if RootCandidate(s.db) { RootRowKept(s.db); }
  }

  lemma RootRowKept(db: Db)
    requires RootCandidate(db) && Allowed(db, BaiduTaskRoot)
    ensures db.owned[BaiduTaskRoot := OwnedRow(db.owned[BaiduTaskRoot].path, true, false)] == db.owned
  {
    assert db.owned[BaiduTaskRoot] == OwnedRow(db.owned[BaiduTaskRoot].path, true, false);
  }

  // ----- each legal step -----------------------------------------------------

  lemma SameCandidates(db: Db, db': Db)
    requires db'.members == db.members && db'.batches == db.batches && db'.files.Keys == db.files.Keys
    requires forall f :: f in db.files ==> (AwaitsCleanup(db'.files[f].status) <==> AwaitsCleanup(db.files[f].status))
    ensures Candidates(db') == Candidates(db) && Leaving(db') == Leaving(db)
  {
    forall b ensures Candidate(db', b) <==> Candidate(db, b) {
      assert FilesOf(db', b) == FilesOf(db, b);
    }
  }

  ghost predicate Registered(db: Db, b: BatchId) {
    && BaiduBatchDir(b) in db.owned && db.owned[BaiduBatchDir(b)].path == InStaging(BatchDir(b))
    && forall f :: f in FilesOf(db, b) ==> f in db.files && LocalCacheFile(f) in db.owned && db.owned[LocalCacheFile(f)].path == InCache(BinFile(f))
  }

  /** Of a candidate batch, every object is registered under its derived path. */
  lemma RegisteredObjects(db: Db, b: BatchId)
    requires Consistent(db) && Candidate(db, b)
    ensures Registered(db, b)
  {
    assert BatchOk(db, b) && OwnedOk(db, BaiduBatchDir(b));
    forall f | f in FilesOf(db, b) ensures f in db.files && LocalCacheFile(f) in db.owned && db.owned[LocalCacheFile(f)].path == InCache(BinFile(f)) {
      assert FileOk(db, f);
      assert OwnedOk(db, LocalCacheFile(f));
    }
  }

  lemma AuthorizeOnlyPermits(db: Db, b: BatchId)
    requires Registered(db, b)
    ensures AfterAuthorizeBatch(db, b).owned.Keys == db.owned.Keys
    ensures forall k :: k in db.owned ==>
              AfterAuthorizeBatch(db, b).owned[k] ==
              if k == BaiduBatchDir(b) || (k.LocalCacheFile? && k.file in FilesOf(db, b)) then db.owned[k].(allowed := true) else db.owned[k]
  {
  }

  lemma AuthorizeFinal(db: Db, b: BatchId)
    requires Candidate(db, b)
    requires Registered(db, b)
    ensures FinalDb(AfterAuthorizeBatch(db, b)) == FinalDb(db)
    ensures Candidates(AfterAuthorizeBatch(db, b)) == Candidates(db) && Leaving(AfterAuthorizeBatch(db, b)) == Leaving(db)
  {
    var db' := AfterAuthorizeBatch(db, b);
    SameCandidates(db, db');
    assert b in Candidates(db);
    forall f | f in FilesOf(db, b) ensures f in Leaving(db) {}
    AuthorizeFinalRows(db, b);
    assert FinalDb(db').files == FinalDb(db).files;
  }

  lemma AuthorizeFinalRows(db: Db, b: BatchId)
    requires b in Candidates(db) && FilesOf(db, b) <= Leaving(db)
    requires Candidates(AfterAuthorizeBatch(db, b)) == Candidates(db) && Leaving(AfterAuthorizeBatch(db, b)) == Leaving(db)
    requires Registered(db, b)
    ensures FinalDb(AfterAuthorizeBatch(db, b)).owned == FinalDb(db).owned
  {
    AuthorizeOnlyPermits(db, b);
    var left, right := FinalDb(AfterAuthorizeBatch(db, b)).owned, FinalDb(db).owned;
    forall k | k in db.owned ensures left[k] == right[k] {}
  }

  lemma InCleanupIsCandidate(db: Db, b: BatchId)
    requires BatchInCleanup(db, b)
    ensures b in Candidates(db) && FilesOf(db, b) <= Leaving(db)
  {
    forall f | f in FilesOf(db, b) ensures f in db.files && AwaitsCleanup(db.files[f].status) { assert InCleanup(db, f); }
    assert Candidate(db, b);
  }

  lemma MarkKeeps(db: Db, k: OwnedKey)
    requires k in db.owned && Finishes(db, k)
    ensures FinalDb(AfterMarkCleaned(db, k)) == FinalDb(db)
    ensures Candidates(AfterMarkCleaned(db, k)) == Candidates(db) && Leaving(AfterMarkCleaned(db, k)) == Leaving(db)
  {
    SameCandidates(db, AfterMarkCleaned(db, k));
    assert FinalDb(AfterMarkCleaned(db, k)).owned == FinalDb(db).owned;
  }

  lemma CompleteLeaves(db: Db, b: BatchId)
    requires CanCompleteCleanup(db, b) && b in db.batches
    ensures b in Candidates(db)
    ensures Candidates(AfterCompleteCleanup(db, b)) == Candidates(db) - {b}
    ensures Leaving(AfterCompleteCleanup(db, b)) == Leaving(db) - FilesOf(db, b)
  {
    var db' := AfterCompleteCleanup(db, b);
    assert Candidate(db, b);
    forall c ensures Candidate(db', c) <==> Candidate(db, c) && c != b {
      assert FilesOf(db', c) == FilesOf(db, c);
      if c == b {
        assert exists f :: f in FilesOf(db, b) by {
          if forall f :: f !in FilesOf(db, b) { assert false; }
        }
        var f :| f in FilesOf(db, b);
        assert db'.files[f].status.Done?;
      } else {
        forall f | f in FilesOf(db, c) && f in db.files ensures db'.files[f] == db.files[f] { assert f !in FilesOf(db, b); }
      }
    }
  }

  lemma CompleteKeeps(db: Db, b: BatchId)
    requires CanCompleteCleanup(db, b) && b in db.batches
    ensures FinalDb(AfterCompleteCleanup(db, b)) == FinalDb(db)
  {
    CompleteLeaves(db, b);
    CompleteKeepsRows(db, b);
    var db' := AfterCompleteCleanup(db, b);
    assert FilesOf(db, b) <= Leaving(db);
    var left, right := FinalDb(db').files, FinalDb(db).files;
    forall f | f in db.files ensures left[f] == right[f] {
      if f in FilesOf(db, b) { assert db.files[f].status.CleanupPending?; }
    }
    assert left == right;
  }

  lemma CompleteKeepsRows(db: Db, b: BatchId)
    requires CanCompleteCleanup(db, b)
    requires Candidates(AfterCompleteCleanup(db, b)) == Candidates(db) - {b}
    requires Leaving(AfterCompleteCleanup(db, b)) == Leaving(db) - FilesOf(db, b)
    ensures FinalDb(AfterCompleteCleanup(db, b)).owned == FinalDb(db).owned
  {
    var left, right := FinalDb(AfterCompleteCleanup(db, b)).owned, FinalDb(db).owned;
    forall k | k in db.owned ensures left[k] == right[k] {
      if k.LocalCacheFile? && k.file in FilesOf(db, b) { assert Cleaned(db, k); }
    }
  }

  // ----- whole states --------------------------------------------------------

  /** The remote directory of a batch still waiting is the same, or gone. */
  ghost predicate DirsShrink(s: Snap, s': Snap) {
    forall b :: b in s'.baidu.dirs ==> b in s.baidu.dirs && s'.baidu.dirs[b] == s.baidu.dirs[b]
  }

  lemma ForeignKept(s: Snap, s': Snap)
    requires NoForeign(s) && DirsShrink(s, s') && Candidates(s'.db) <= Candidates(s.db)
    requires s'.db.members == s.db.members && forall b :: Cleaned(s.db, BaiduBatchDir(b)) ==> Cleaned(s'.db, BaiduBatchDir(b))
    requires forall f :: f in s.db.files ==> f in s'.db.files && s'.db.files[f].path == s.db.files[f].path && s'.db.files[f].size == s.db.files[f].size
    ensures NoForeign(s')
  {
    forall b | b in Candidates(s'.db) ensures Removable(s', b) {
      assert Removable(s, b);
      assert FilesOf(s'.db, b) == FilesOf(s.db, b);
      if b in s'.baidu.dirs && !Cleaned(s.db, BaiduBatchDir(b)) {
        forall n | n in s'.baidu.dirs[b] ensures Expected(s'.db, b, n, s'.baidu.dirs[b][n]) {
          assert Expected(s.db, b, n, s.baidu.dirs[b][n]);
        }
      }
    }
  }

  /** What one legal step preserves, besides the protocol invariant. */
  ghost predicate Preserved(s: Snap, s': Snap) {
    NoForeign(s') && Final(s') == Final(s) && Candidates(s'.db) <= Candidates(s.db)
  }

  lemma AuthorizeStep(s: Snap, b: BatchId)
    requires NoForeign(s) && Candidate(s.db, b) && Registered(s.db, b)
    requires forall k :: k in s.db.owned && s.db.owned[k].cleaned ==> s.db.owned[k].allowed
    ensures Preserved(s, s.(db := AfterAuthorizeBatch(s.db, b)))
  {
    hide AuthorizedRows, Cleaned, FinalDb, Candidate;
    var s' := s.(db := AfterAuthorizeBatch(s.db, b));
    AuthorizeFinal(s.db, b);
    AuthorizeCleans(s.db, b);
    ForeignKept(s, s');
    assert LeavingBins(s'.db) == LeavingBins(s.db) && LeavingDirs(s'.db) == LeavingDirs(s.db);
  }

  /** Permission is not a cleaned mark. */
  lemma AuthorizeCleans(db: Db, b: BatchId)
    requires Registered(db, b) && forall k :: k in db.owned && db.owned[k].cleaned ==> db.owned[k].allowed
    ensures forall k :: Cleaned(AfterAuthorizeBatch(db, b), k) <==> Cleaned(db, k)
  {
    AuthorizeOnlyPermits(db, b);
  }

  /** Steps that leave the tables alone and remove what a candidate batch has to lose. */
  lemma RemoveStep(s: Snap, bins: set<CachePath>, dirs: set<BatchId>)
    requires NoForeign(s) && bins <= LeavingBins(s.db) && dirs <= LeavingDirs(s.db)
    ensures Preserved(s, s.(cache := s.cache - bins, baidu := s.baidu.(dirs := s.baidu.dirs - dirs)))
  {
    var s' := s.(cache := s.cache - bins, baidu := s.baidu.(dirs := s.baidu.dirs - dirs));
    ForeignKept(s, s');
    assert FinalBatches(s').cache == FinalBatches(s).cache;
    assert FinalBatches(s').baidu.dirs == FinalBatches(s).baidu.dirs;
  }

  lemma MarkStep(s: Snap, k: OwnedKey)
    requires NoForeign(s) && Allowed(s.db, k) && Finishes(s.db, k)
    requires k.LocalCacheFile? ==> BinFile(k.file) !in s.cache
    requires k.BaiduBatchDir? ==> k.batch !in s.baidu.dirs
    ensures Preserved(s, s.(db := AfterMarkCleaned(s.db, k)))
  {
    var s' := s.(db := AfterMarkCleaned(s.db, k));
    hide FinalDb, Candidate, FilesOf;
    MarkKeeps(s.db, k);
    ForeignKept(s, s');
    assert s'.cache - LeavingBins(s'.db) == s.cache - LeavingBins(s.db);
    assert s'.baidu.dirs - LeavingDirs(s'.db) == s.baidu.dirs - LeavingDirs(s.db);
  }

  lemma CompleteStep(s: Snap, b: BatchId)
    requires NoForeign(s) && CanCompleteCleanup(s.db, b) && b in s.db.batches
    ensures Preserved(s, s.(db := AfterCompleteCleanup(s.db, b)))
  {
    var s' := s.(db := AfterCompleteCleanup(s.db, b));
    CompleteLeaves(s.db, b);
    CompleteKeeps(s.db, b);
    ForeignKept(s, s');
    assert LeavingBins(s'.db) == LeavingBins(s.db) by {
      forall f ensures f in Leaving(s'.db) && !Cleaned(s'.db, LocalCacheFile(f)) <==> f in Leaving(s.db) && !Cleaned(s.db, LocalCacheFile(f)) {
        if f in FilesOf(s.db, b) { assert Cleaned(s.db, LocalCacheFile(f)); }
      }
    }
    assert LeavingDirs(s'.db) == LeavingDirs(s.db);
  }

  // ----- the task root -------------------------------------------------------

  lemma CandidateIsUnfinished(db: Db, b: BatchId)
    requires Candidate(db, b) && FilesOf(db, b) <= db.files.Keys
    ensures !AllDone(db)
  {
    var f := Least(FilesOf(db, b));
    assert AwaitsCleanup(db.files[f].status);
  }

  lemma RootDueMeansNothingLeaving(db: Db)
    requires RootCandidate(db) && forall b :: FilesOf(db, b) <= db.files.Keys
    ensures Candidates(db) == {}
  {
    forall b ensures b !in Candidates(db) {
      if Candidate(db, b) { CandidateIsUnfinished(db, b); }
    }
  }

  /** Permission for, deletion of and record of the task root. */
  lemma RootStep(s: Snap, s': Snap)
    requires RootCandidate(s.db) && (forall b :: FilesOf(s.db, b) <= s.db.files.Keys) && !s.db.owned[BaiduTaskRoot].cleaned
    requires s' == s.(db := s'.db, baidu := s'.baidu) && (s'.baidu == s.baidu || (s.baidu.dirs == map[] && s'.baidu == Baidu(false, map[])))
    requires || s'.db == s.db
             || s'.db == s.db.(owned := s.db.owned[BaiduTaskRoot := s.db.owned[BaiduTaskRoot].(allowed := true)])
             || (s.db.owned[BaiduTaskRoot].allowed && s'.baidu == Baidu(false, map[])
                 && s'.db == s.db.(owned := s.db.owned[BaiduTaskRoot := s.db.owned[BaiduTaskRoot].(cleaned := true)]))
    ensures Preserved(s, s')
  {
    var row := s.db.owned[BaiduTaskRoot];
    RootDueMeansNothingLeaving(s.db);
    NothingLeaving(s.db);
    RootOnly(s.db, s'.db);
    NothingLeaving(s'.db);
    NoChange(s);
    NoChange(s');
    assert FinalBatches(s) == s && FinalBatches(s') == s';
    RootFinal(s, s');
  }

  lemma NoChange(s: Snap)
    requires Candidates(s.db) == {}
    ensures FinalBatches(s) == s && NoForeign(s)
  {
    NothingLeaving(s.db);
    assert s.cache - {} == s.cache;
    assert s.baidu.dirs - {} == s.baidu.dirs;
  }

  lemma RootOnly(db: Db, db': Db)
    requires db'.files == db.files && db'.members == db.members && db'.batches == db.batches
    ensures Candidates(db') == Candidates(db)
  {
    SameCandidates(db, db');
  }

  lemma RootFinal(s: Snap, s': Snap)
    requires RootCandidate(s.db)
    requires s' == s.(db := s'.db, baidu := s'.baidu) && (s'.baidu == s.baidu || (s.baidu.dirs == map[] && s'.baidu == Baidu(false, map[])))
    requires || s'.db == s.db
             || s'.db == s.db.(owned := s.db.owned[BaiduTaskRoot := s.db.owned[BaiduTaskRoot].(allowed := true)])
             || (s.db.owned[BaiduTaskRoot].allowed && s'.baidu == Baidu(false, map[])
                 && s'.db == s.db.(owned := s.db.owned[BaiduTaskRoot := s.db.owned[BaiduTaskRoot].(cleaned := true)]))
    ensures FinalRoot(s') == FinalRoot(s)
  {
    var owned, owned' := s.db.owned, s'.db.owned;
    var path := owned[BaiduTaskRoot].path;
    assert owned'[BaiduTaskRoot := OwnedRow(path, true, true)] == owned[BaiduTaskRoot := OwnedRow(path, true, true)];
    assert owned'[BaiduTaskRoot := OwnedRow(path, true, false)] == owned[BaiduTaskRoot := OwnedRow(path, true, false)];
    if owned'[BaiduTaskRoot].cleaned {
      assert owned' == owned[BaiduTaskRoot := OwnedRow(owned[BaiduTaskRoot].path, true, true)];
    } else {
      assert RootCandidate(s'.db);
    }
  }

  // ----- every legal step ----------------------------------------------------

  lemma TxAfter(db: Db, op: Op)
    requires Attempt(db, op).Some?
    ensures op.AuthorizeBatch? ==> CanAuthorizeBatch(db, op.batch) && Attempt(db, op).value == AfterAuthorizeBatch(db, op.batch)
    ensures op.MarkCleaned? ==> Allowed(db, op.key) && Attempt(db, op).value == AfterMarkCleaned(db, op.key)
    ensures op.CompleteCleanup? ==> CanCompleteCleanup(db, op.batch) && Attempt(db, op).value == AfterCompleteCleanup(db, op.batch)
    ensures op.AuthorizeRoot? ==> BaiduTaskRoot in db.owned && Attempt(db, op).value == AfterAuthorizeRoot(db)
  {
  }

  /** Ordinary facts of a consistent store, read off once. */
  lemma Facts(db: Db)
    requires Consistent(db)
    ensures forall k :: k in db.owned && db.owned[k].cleaned ==> db.owned[k].allowed
    ensures forall b :: FilesOf(db, b) <= db.files.Keys
  {
    forall k | k in db.owned && db.owned[k].cleaned ensures db.owned[k].allowed { assert OwnedOk(db, k); }
    forall b ensures FilesOf(db, b) <= db.files.Keys {
      forall f | f in FilesOf(db, b) ensures f in db.files {}
    }
  }

  lemma TransactionKeeps(s: Snap, moves: seq<Move>, i: nat)
    requires i < |moves| && moves[i].Tx? && Orderly(s) && Legal(true, s, moves, i) && Attempt(s.db, moves[i].op).Some?
    ensures Preserved(s, s.(db := Attempt(s.db, moves[i].op).value))
  {
    var op := moves[i].op;
    TxAfter(s.db, op);
    Facts(s.db);
    match op
    case AuthorizeBatch(b) =>
      RegisteredObjects(s.db, b);
      AuthorizeStep(s, b);
    case MarkCleaned(k) =>
      if k.BaiduTaskRoot? {
        RootStep(s, s.(db := Attempt(s.db, op).value));
      } else {
        InCleanupIsCandidate(s.db, if k.LocalCacheFile? then s.db.members[k.file].batch else k.batch);
        MarkStep(s, k);
      }
    case CompleteCleanup(b) => CompleteStep(s, b);
    case AuthorizeRoot => RootStep(s, s.(db := Attempt(s.db, op).value));
  }

  lemma RemoveLocalKeeps(s: Snap, f: FileId)
    requires NoForeign(s) && f in s.db.members && BatchInCleanup(s.db, s.db.members[f].batch) && !Cleaned(s.db, LocalCacheFile(f))
    ensures Preserved(s, s.(cache := s.cache - {BinFile(f)}))
  {
    InCleanupIsCandidate(s.db, s.db.members[f].batch);
    RemoveStep(s, {BinFile(f)}, {});
    assert s.baidu.dirs - {} == s.baidu.dirs;
  }

  lemma DeleteBatchKeeps(s: Snap, b: BatchId)
    requires NoForeign(s) && BatchInCleanup(s.db, b) && !Cleaned(s.db, BaiduBatchDir(b))
    ensures Preserved(s, s.(baidu := s.baidu.(dirs := s.baidu.dirs - {b})))
  {
    InCleanupIsCandidate(s.db, b);
    RemoveStep(s, {}, {b});
    assert s.cache - {} == s.cache;
  }

  lemma EffectKeeps(s: Snap, moves: seq<Move>, i: nat, s': Snap)
    requires NoForeign(s) && (forall b :: FilesOf(s.db, b) <= s.db.files.Keys)
    requires i < |moves| && Legal(true, s, moves, i) && Step(s, moves[i], s') && !moves[i].Tx?
    ensures Preserved(s, s') && s'.db == s.db
  {
    match moves[i]
    case RemoveLocal(p) => RemoveLocalKeeps(s, p.file);
    case InspectStaging(_, _) =>
    case DeleteStaging(target) =>
      if target.BatchDir? {
        DeleteBatchKeeps(s, target.batch);
      } else {
        RootStep(s, s');
      }
  }

  /** One state on the way to another's final result. */
  ghost predicate Toward(a: Snap, s: Snap) {
    Orderly(s) && Final(s) == Final(a) && Candidates(s.db) <= Candidates(a.db) && s.db.task == a.db.task
  }

  lemma TowardTransitive(a: Snap, b: Snap, c: Snap)
    requires Toward(a, b) && Toward(b, c)
    ensures Toward(a, c)
  {
  }

  /** Whatever legal step is taken next, the cleanup is still heading for the same result. */
  lemma LegalKeeps(s: Snap, moves: seq<Move>, i: nat, s': Snap)
    requires i < |moves| && Orderly(s) && Legal(true, s, moves, i) && Step(s, moves[i], s')
    ensures Toward(s, s')
  {
    var m := moves[i];
    if m.Tx? {
      OpKeeps(s.db, m.op);
      TransactionKeeps(s, moves, i);
      TxAfter(s.db, m.op);
    } else {
      Facts(s.db);
      EffectKeeps(s, moves, i, s');
    }
  }

  /** Over a whole stretch of legal steps, crash wherever it may: every state on the way
      is orderly and leads to the same final result as the first one. */
  lemma {:induction false} LegalRunKeeps(states: seq<Snap>, moves: seq<Move>, n: nat, i: nat)
    requires IsRun(states, moves) && n <= i <= |moves| && LegalFrom(true, states, moves, n)
    requires Orderly(states[n])
    ensures Toward(states[n], states[i])
    decreases i
  {
    if n < i {
      LegalRunKeeps(states, moves, n, i - 1);
      LegalStepAt(states, moves, n, i - 1);
      TowardTransitive(states[n], states[i - 1], states[i]);
    }
  }

  lemma LegalStepAt(states: seq<Snap>, moves: seq<Move>, n: nat, i: nat)
    requires IsRun(states, moves) && n <= i < |moves| && LegalFrom(true, states, moves, n) && Orderly(states[i])
    ensures Toward(states[i], states[i + 1])
  {
    assert Step(states[i], moves[i], states[i + 1]) && Legal(true, states[i], moves, i);
    LegalKeeps(states[i], moves, i, states[i + 1]);
  }
}
