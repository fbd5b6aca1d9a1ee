/** The durable world as the engines see it: the methods of internal/state.Store,
    temp/cache, the Baidu client and the Drive remote. Every method that changes
    something takes one atomic step and records it, so that a crash can be placed
    between any two of them. */
module Worlds {
  import opened Wrappers
  import opened Model
  import opened Tables
  import opened Transactions
  import opened Invariant
  import opened Runs
  import opened Durable
  import opened Counting

  /** The rows an authorized batch cleanup works from. */
  datatype CleanupBatch = CleanupBatch(batch: BatchId, files: seq<FileId>, rows: map<FileId, FileRow>, locals: seq<FileId>, objects: map<OwnedKey, OwnedRow>)

  /** TransferFiles' result: success, or one of the classified errors. */
  datatype TransferAnswer = Transferred | LimitExceeded(limit: int) | Conflict | NeedsUser | TransferFailed

  datatype Deletion = Deleted | Missing | DeleteFailed

  method Enumerate<T(==)>(s: set<T>) returns (r: seq<T>)
    ensures Distinct(r) && |r| == |s|
    ensures forall x :: x in r <==> x in s
  {
    r := [];
    var rest := s;
    while rest != {}
      invariant rest <= s && |r| + |rest| == |s|
      invariant Distinct(r)
      invariant forall x :: x in r <==> x in s && x !in rest
      decreases rest
    {
      var x :| x in rest;
      r := r + [x];
      rest := rest - {x};
    }
  }

  /** owned_objects after INSERT ... ON CONFLICT DO NOTHING for each file in turn. */
  function Backfilled(owned: map<OwnedKey, OwnedRow>, files: seq<FileId>): map<OwnedKey, OwnedRow> {
    if files == [] then owned
    else InsertIfAbsent(Backfilled(owned, files[..|files| - 1]), LocalCacheFile(files[|files| - 1]), InCache(BinFile(files[|files| - 1])))
  }

  lemma {:induction false} BackfilledAt(owned: map<OwnedKey, OwnedRow>, files: seq<FileId>, k: OwnedKey)
    ensures k in Backfilled(owned, files) <==> k in owned || (k.LocalCacheFile? && k.file in files)
    ensures k in owned ==> Backfilled(owned, files)[k] == owned[k]
    ensures k.LocalCacheFile? && k.file in files && k !in owned ==> Backfilled(owned, files)[k] == OwnedRow(InCache(BinFile(k.file)), false, false)
  {
    if files != [] {
      var n := |files| - 1;
      assert files == files[..n] + [files[n]];
      BackfilledAt(owned, files[..n], k);
    }
  }

  /** Backfilling and then permitting is what the declarative AuthorizedRows says. */
  lemma BackfilledRows(db: Db, b: BatchId, files: seq<FileId>)
    requires AllAuthorizable(db, b) && forall f :: f in files <==> f in FilesOf(db, b)
    requires BaiduBatchDir(b) in db.owned && db.owned[BaiduBatchDir(b)].path == InStaging(BatchDir(b))
    ensures Permitted(Backfilled(db.owned, files), db, b) == AuthorizedRows(db, b)
  {
    var left, right := Permitted(Backfilled(db.owned, files), db, b), AuthorizedRows(db, b);
    forall k ensures (k in left <==> k in right) && (k in left ==> left[k] == right[k]) {
      BackfilledAt(db.owned, files, k);
      if k.LocalCacheFile? && k.file in files { assert FileAuthorizable(db, k.file); }
    }
  }

  lemma AuthorizeAttempt(db: Db, b: BatchId, files: seq<FileId>)
    requires SafeComponent(db.task.id) && b in db.batches && db.batches[b].stagingPath == BatchDir(b)
    requires FilesOf(db, b) != {} && AllAuthorizable(db, b) && forall f :: f in files <==> f in FilesOf(db, b)
    requires BaiduBatchDir(b) in db.owned && db.owned[BaiduBatchDir(b)].path == InStaging(BatchDir(b))
    ensures CanAuthorizeBatch(db, b)
    ensures Attempt(db, AuthorizeBatch(b)) == Some(AfterAuthorizeBatch(db, b))
    ensures AfterAuthorizeBatch(db, b) ==
            db.(files := SetStatus(db.files, FilesOf(db, b), DriveVerified, CleanupPending), owned := Permitted(Backfilled(db.owned, files), db, b))
  {
    hide AuthorizedRows, Permitted, FileAuthorizable, SetStatus, SafeComponent, Backfilled;
    BackfilledRows(db, b, files);
    assert CanAuthorizeBatch(db, b);
  }

  lemma AuthorizableFiles(db: Db, b: BatchId)
    requires AllAuthorizable(db, b)
    ensures AllEligible(db, b)
  {
    forall f | f in FilesOf(db, b) ensures FileEligible(db, f) { assert FileAuthorizable(db, f); }
  }

  /** UPDATE owned_objects SET cleanup_allowed = 1 for a batch's directory and its files' cache objects. */
  function Permitted(owned: map<OwnedKey, OwnedRow>, db: Db, b: BatchId): map<OwnedKey, OwnedRow> {
    map k | k in owned :: if k == BaiduBatchDir(b) || (k.LocalCacheFile? && k.file in FilesOf(db, b)) then owned[k].(allowed := true) else owned[k]
  }

  lemma CandidateIsBatch(db: Db)
    ensures forall b :: Candidate(db, b) ==> b in db.batches
  {
  }

  /** CLEANUP_PENDING with its Drive identity and a permitted cache object at the derived path. */
  predicate InCleanup(db: Db, f: FileId) {
    && f in db.files && db.files[f].status.CleanupPending? && db.files[f].driveId != ""
    && Allowed(db, LocalCacheFile(f)) && db.owned[LocalCacheFile(f)].path == InCache(BinFile(f))
  }

  ghost predicate CleanupReadable(db: Db, b: BatchId) {
    && (forall f :: f in FilesOf(db, b) ==> InCleanup(db, f))
    && Allowed(db, BaiduBatchDir(b)) && db.owned[BaiduBatchDir(b)].path == InStaging(BatchDir(b))
  }

  lemma AuthorizedReadable(db: Db, b: BatchId)
    requires CanAuthorizeBatch(db, b)
    ensures CleanupReadable(AfterAuthorizeBatch(db, b), b)
  {
    var db' := AfterAuthorizeBatch(db, b);
    assert FilesOf(db', b) == FilesOf(db, b);
    forall f | f in FilesOf(db, b) ensures InCleanup(db', f) { assert FileAuthorizable(db, f); }
  }

  /** What GetAuthorizedCleanupBatch hands to the engine. */
  ghost predicate IsCleanupBatch(db: Db, b: BatchId, c: CleanupBatch) {
    && c.batch == b && Distinct(c.files) && c.locals == c.files
    && (forall f :: f in c.files <==> f in FilesOf(db, b))
    && (forall f :: f in c.files ==>
          && InCleanup(db, f) && f in c.rows && c.rows[f] == db.files[f]
          && LocalCacheFile(f) in c.objects && c.objects[LocalCacheFile(f)] == db.owned[LocalCacheFile(f)])
    && Allowed(db, BaiduBatchDir(b)) && BaiduBatchDir(b) in c.objects && c.objects[BaiduBatchDir(b)] == db.owned[BaiduBatchDir(b)]
    && db.owned[BaiduBatchDir(b)].path == InStaging(BatchDir(b))
  }

  predicate Ascending(ids: seq<BatchId>) {
    forall i, j :: 0 <= i < j < |ids| ==> ids[i] < ids[j]
  }

  class World {
    var db: Db
    var cache: map<CachePath, seq<Byte>>
    var baidu: Baidu
    var drive: map<DriveId, DriveObject>

    /** No operation fails for outside reasons: no cancellation, no I/O error, no service error. */
    const quiet: bool

    /** Listings are true, transfers only add what was asked for, downloads serve the true bytes. */
    const honest: bool

    const truth: Truth

    ghost var states: seq<Snap>
    ghost var moves: seq<Move>

    ghost function Now(): Snap
      reads this
    {
      Snap(db, cache, baidu, drive)
    }

    ghost function History(): Trace
      reads this
    {
      Trace(states, moves)
    }

    ghost predicate Valid()
      reads this
    {
      IsRun(states, moves) && states[|moves|] == Now()
    }

    /** This run is an extension of the earlier one. */
    twostate predicate Extends()
      reads this
    {
      old(states) <= states && old(moves) <= moves
    }

    twostate predicate Did(m: Move)
      reads this
    {
      moves == old(moves) + [m] && states == old(states) + [Now()]
    }

    /** Exactly this transaction was committed. */
    twostate predicate Committed(op: Op)
      reads this
    {
      && Attempt(old(db), op).Some? && db == Attempt(old(db), op).value
      && cache == old(cache) && baidu == old(baidu) && drive == old(drive)
      && Did(Tx(op))
    }

    twostate predicate Same()
      reads this
    {
      && db == old(db) && cache == old(cache) && baidu == old(baidu) && drive == old(drive)
      && states == old(states) && moves == old(moves)
    }

    constructor (taskId: string, quiet: bool, honest: bool, truth: Truth)
      ensures Valid() && this.quiet == quiet && this.honest == honest && this.truth == truth
      ensures Now() == Snap(EmptyDb(taskId), map[], Baidu(false, map[]), map[])
    {
      db := EmptyDb(taskId);
      cache, baidu, drive := map[], Baidu(false, map[]), map[];
      this.quiet, this.honest, this.truth := quiet, honest, truth;
      states := [Snap(EmptyDb(taskId), map[], Baidu(false, map[]), map[])];
      moves := [];
    }

    /** The process starts again after a crash: nothing but the durable state is left. */
    constructor Restart(at: Snap, ghost states: seq<Snap>, ghost moves: seq<Move>, quiet: bool, honest: bool, truth: Truth)
      requires IsRun(states, moves) && states[|moves|] == at
      ensures Valid() && this.quiet == quiet && this.honest == honest && this.truth == truth
      ensures Now() == at && this.states == states && this.moves == moves
    {
      db, cache, baidu, drive := at.db, at.cache, at.baidu, at.drive;
      this.quiet, this.honest, this.truth := quiet, honest, truth;
      this.states, this.moves := states, moves;
    }

    ghost method Record(m: Move)
      requires IsRun(states, moves) && Step(states[|moves|], m, Now())
      modifies this`states, this`moves
      ensures Valid() && Did(m)
    {
      states := states + [Now()];
      moves := moves + [m];
      forall i {:trigger moves[i]} | 0 <= i < |moves| ensures Step(states[i], moves[i], states[i + 1]) {
        if i < |old(moves)| { assert Step(old(states)[i], old(moves)[i], old(states)[i + 1]); }
      }
    }

    /** tx.Commit(): the local copy of the tables becomes the durable one. */
    method Commit(ghost op: Op, tx: Db)
      requires Valid() && Attempt(db, op) == Some(tx)
      modifies this`db, this`states, this`moves
      ensures Valid() && Committed(op)
    {
      db := tx;
      Record(Tx(op));
    }

    /** The tables always satisfy the protocol invariant. */
    lemma InOrder()
      requires Valid()
      ensures Consistent(db)
    {
      RunOfStore(states, moves);
      RunConsistent(Dbs(states), |moves|);
    }

    lemma MembersAreFiles()
      requires Valid()
      ensures forall f :: f in db.members ==> f in db.files && db.members[f].batch in db.batches
      ensures forall b :: FilesOf(db, b) <= db.files.Keys
    {
      InOrder();
    }

    lemma PermittedBatch(b: BatchId)
      requires Valid()
      ensures Allowed(db, BaiduBatchDir(b)) ==> b in db.batches
      ensures b in db.batches ==> db.batches[b].stagingPath == BatchDir(b)
    {
      InOrder();
      if Allowed(db, BaiduBatchDir(b)) { assert OwnedOk(db, BaiduBatchDir(b)); }
      if b in db.batches { assert BatchOk(db, b); }
    }

    /** Cancellation, or an I/O or service error, strikes here. */
    method Fails() returns (fails: bool)
      ensures quiet ==> !fails
    {
      fails := false;
      if !quiet { fails := *; }
    }

    // ----- cleanup_store.go --------------------------------------------------

    /** CleanupCandidates: eligible batches by batch ID, at most limit of them. */
    method CleanupCandidates(limit: nat) returns (r: Option<seq<BatchId>>)
      requires Valid() && 0 < limit
      ensures quiet ==> r.Some?
      ensures r.Some? ==> |r.value| <= limit && (forall b :: b in r.value ==> Candidate(db, b))
      ensures r.Some? ==> Ascending(r.value)
      ensures r.Some? ==> forall b :: Candidate(db, b) && b !in r.value ==> |r.value| == limit && forall c :: c in r.value ==> c < b
    {
      hide Candidate, Attempt, Step;
      var failed := Fails();
      if failed { return None; }
      CandidateIsBatch(db);
      var rest := set b | b in db.batches && Candidate(db, b);
      var found: seq<BatchId> := [];
      assert forall b :: Candidate(db, b) <==> b in rest;
      while rest != {} && |found| < limit
        invariant forall b :: Candidate(db, b) <==> b in found || b in rest
        invariant |found| <= limit && Ascending(found) && forall b, c :: b in rest && c in found ==> c < b
        decreases rest
      {
        var m: BatchId := Least(rest);
        forall i | 0 <= i < |found| ensures found[i] < m { assert found[i] in found && m in rest; }
        found := found + [m];
        rest := rest - {m};
      }
      r := Some(found);
    }

    /** The batch's files, if every one of them is eligible for cleanup. */
    method EligibleFiles(b: BatchId) returns (r: Option<seq<FileId>>)
      ensures r.Some? <==> AllEligible(db, b)
      ensures r.Some? ==> |r.value| == |FilesOf(db, b)| && forall f :: f in r.value <==> f in FilesOf(db, b)
    {
      var files := Enumerate(FilesOf(db, b));
      var i := 0;
      while i < |files|
        invariant 0 <= i <= |files|
        invariant forall j :: 0 <= j < i ==> FileEligible(db, files[j])
      {
        if !FileEligible(db, files[i]) {
          assert files[i] in FilesOf(db, b);
          return None;
        }
        i := i + 1;
      }
      r := Some(files);
    }

    /** The provenance rows with missing cache objects added, unless a present one names another path. */
    method BackfillProvenance(b: BatchId, files: seq<FileId>) returns (r: Option<map<OwnedKey, OwnedRow>>)
      requires AllEligible(db, b) && forall f :: f in files <==> f in FilesOf(db, b)
      ensures r.Some? <==> AllAuthorizable(db, b)
      ensures r.Some? ==> r.value == Backfilled(db.owned, files)
    {
      var owned := db.owned;
      var i := 0;
      while i < |files|
        invariant 0 <= i <= |files|
        invariant owned == Backfilled(db.owned, files[..i])
        invariant forall j :: 0 <= j < i ==> FileAuthorizable(db, files[j])
      {
        var f := files[i];
        owned := InsertIfAbsent(owned, LocalCacheFile(f), InCache(BinFile(f)));
        assert files[..i + 1][..i] == files[..i];
        BackfilledAt(db.owned, files[..i], LocalCacheFile(f));
        if owned[LocalCacheFile(f)].path != InCache(BinFile(f)) {
          assert f in FilesOf(db, b) && !FileAuthorizable(db, f);
          return None;
        }
        i := i + 1;
      }
      assert files[..|files|] == files;
      r := Some(owned);
    }

    /** AuthorizeBatchCleanup: the destructive-action gate, one transaction followed by a fresh read. */
    method AuthorizeBatchCleanup(b: BatchId) returns (r: Option<CleanupBatch>)
      requires Valid()
      modifies this
      ensures Valid() && (Same() || Committed(AuthorizeBatch(b)))
      ensures r.Some? ==> Committed(AuthorizeBatch(b)) && IsCleanupBatch(db, b, r.value)
      ensures quiet && CanAuthorizeBatch(old(db), b) ==> r.Some?
    {
      var failed := Fails();
      if failed || !SafeComponent(db.task.id) || b !in db.batches || db.batches[b].stagingPath != BatchDir(b) { return None; }
      if AllAuthorizable(db, b) { AuthorizableFiles(db, b); }
      var files := EligibleFiles(b);
      if files.None? || |files.value| == 0 || BaiduBatchDir(b) !in db.owned || db.owned[BaiduBatchDir(b)].path != InStaging(BatchDir(b)) { return None; }
      var owned := BackfillProvenance(b, files.value);
      if owned.None? { return None; }
      var tx := db.(files := SetStatus(db.files, FilesOf(db, b), DriveVerified, CleanupPending), owned := Permitted(owned.value, db, b));
      assert FilesOf(db, b) != {};
      AuthorizeAttempt(db, b, files.value);
      AuthorizedReadable(db, b);
      Commit(AuthorizeBatch(b), tx);
      r := GetAuthorizedCleanupBatch(b);
    }

    method GetAuthorizedCleanupBatch(b: BatchId) returns (r: Option<CleanupBatch>)
      requires Valid()
      ensures r.Some? ==> IsCleanupBatch(db, b, r.value)
      ensures quiet && CleanupReadable(db, b) ==> r.Some?
    {
      var failed := Fails();
      PermittedBatch(b);
      if failed || b !in db.batches || db.batches[b].stagingPath != BatchDir(b) { return None; }
      MembersAreFiles();
      var files := Enumerate(FilesOf(db, b));
      var rows, objects := map[], map[];
      var i := 0;
      while i < |files|
        modifies {}
        invariant 0 <= i <= |files|
        invariant forall j :: 0 <= j < i ==> InCleanup(db, files[j]) && files[j] in rows && rows[files[j]] == db.files[files[j]]
        invariant forall j :: 0 <= j < i ==> LocalCacheFile(files[j]) in objects && objects[LocalCacheFile(files[j])] == db.owned[LocalCacheFile(files[j])]
      {
        var f := files[i];
        if !InCleanup(db, f) { return None; }
        rows := rows[f := db.files[f]];
        objects := objects[LocalCacheFile(f) := db.owned[LocalCacheFile(f)]];
        i := i + 1;
      }
      if !Allowed(db, BaiduBatchDir(b)) || db.owned[BaiduBatchDir(b)].path != InStaging(BatchDir(b)) { return None; }
      objects := objects[BaiduBatchDir(b) := db.owned[BaiduBatchDir(b)]];
      r := Some(CleanupBatch(b, files, rows, files, objects));
    }

    /** MarkCleanupObjectDone: only an authorized object of a deletable scope can be marked. */
    method MarkCleanupObjectDone(k: OwnedKey) returns (ok: bool)
      requires Valid()
      modifies this
      ensures Valid() && (if ok then Committed(MarkCleaned(k)) else Same())
      ensures quiet && Deletable(k) && Allowed(old(db), k) ==> ok
    {
      var failed := Fails();
      if failed || !Deletable(k) { return false; }
      var changed := if k in db.owned && db.owned[k].allowed then 1 else 0;
      if changed != 1 { return false; }
      Commit(MarkCleaned(k), db.(owned := db.owned[k := db.owned[k].(cleaned := true)]));
      ok := true;
    }

    /** ValidateBatchCleanupCompleteness: the counts of CompleteBatchCleanup, read only. */
    method ValidateBatchCleanupCompleteness(b: BatchId) returns (ok: bool)
      requires Valid()
      ensures quiet && CanCompleteCleanup(db, b) ==> ok
    {
      var failed := Fails();
      CompletionGateHolds(b);
      ok := !failed && |FilesOf(db, b)| != 0 && |LocalRows(db, FilesOf(db, b))| == |FilesOf(db, b)|
            && BaiduBatchDir(b) in db.owned && |IncompleteRows(db, b)| == 0;
    }

    lemma CompletionGateHolds(b: BatchId)
      requires Valid()
      ensures FilesOf(db, b) <= db.files.Keys
      ensures (&& (forall f :: f in FilesOf(db, b) ==> db.files[f].status.CleanupPending?)
               && |FilesOf(db, b)| != 0
               && |LocalRows(db, FilesOf(db, b))| == |FilesOf(db, b)|
               && BaiduBatchDir(b) in db.owned
               && |IncompleteRows(db, b)| == 0)
              <==> CanCompleteCleanup(db, b)
    {
      MembersAreFiles();
      CompletionGate(db, b);
    }

    /** CompleteBatchCleanup: decided by counting rows, it commits exactly when every file and object qualifies. */
    method CompleteBatchCleanup(b: BatchId) returns (ok: bool)
      requires Valid()
      modifies this
      ensures Valid() && (if ok then Committed(CompleteCleanup(b)) else Same())
      ensures ok ==> CanCompleteCleanup(old(db), b)
      ensures quiet && CanCompleteCleanup(old(db), b) ==> ok
    {
      var failed := Fails();
      if failed { return false; }
      CompletionGateHolds(b);
      var members := FilesOf(db, b);
      var pending := |set f | f in members && f in db.files && !db.files[f].status.CleanupPending?|;
      PendingCount(db, b);
      if pending != 0 { return false; }
      if |members| == 0 { return false; }
      if |LocalRows(db, members)| != |members| { return false; }
      var baiduCount := if BaiduBatchDir(b) in db.owned then 1 else 0;
      if baiduCount != 1 { return false; }
      if |IncompleteRows(db, b)| != 0 { return false; }
      Commit(CompleteCleanup(b), db.(files := SetStatus(db.files, members, CleanupPending, Done)));
      ok := true;
    }

    /** TaskRootCleanupCandidate. */
    method TaskRootCleanupCandidate() returns (r: Option<bool>)
      requires Valid()
      ensures quiet ==> r.Some?
      ensures r.Some? ==> (r.value <==> RootCandidate(db))
    {
      var failed := Fails();
      if failed { return None; }
      if BaiduTaskRoot !in db.owned || db.owned[BaiduTaskRoot].cleaned { return Some(false); }
      RootGateHolds();
      if |UnfinishedFiles(db)| != 0 { return Some(false); }
      r := Some(|db.batches| == |CleanedBatchRows(db)|);
    }

    lemma RootGateHolds()
      requires Valid()
      ensures |UnfinishedFiles(db)| == 0 <==> AllDone(db)
      ensures |db.batches| == |CleanedBatchRows(db)| <==> AllBatchesCleaned(db)
    {
      InOrder();
      assert forall f :: f in UnfinishedFiles(db) <==> f in db.files && !db.files[f].status.Done?;
      if AllDone(db) {
        forall f ensures f !in UnfinishedFiles(db) {}
        assert UnfinishedFiles(db) == {};
      }
      forall b | BaiduBatchDir(b) in db.owned ensures b in db.batches { assert OwnedOk(db, BaiduBatchDir(b)); }
      RootCountGate(db);
    }

    /** AuthorizeTaskRootCleanup: decided by counting unfinished files and cleaned batches. */
    method AuthorizeTaskRootCleanup() returns (r: Option<OwnedRow>)
      requires Valid()
      modifies this
      ensures Valid() && (if r.Some? then Committed(AuthorizeRoot) else Same())
      ensures r.Some? ==> CanAuthorizeRoot(old(db)) && BaiduTaskRoot in db.owned && r.value == db.owned[BaiduTaskRoot]
      ensures quiet && CanAuthorizeRoot(old(db)) ==> r.Some?
    {
      var failed := Fails();
      if failed || !SafeComponent(db.task.id) { return None; }
      RootGateHolds();
      if |UnfinishedFiles(db)| != 0 { return None; }
      if |db.batches| != |CleanedBatchRows(db)| { return None; }
      if BaiduTaskRoot !in db.owned || db.owned[BaiduTaskRoot].path != InStaging(TaskRoot) { return None; }
      var tx := db;
      if !db.owned[BaiduTaskRoot].cleaned {
        tx := db.(owned := db.owned[BaiduTaskRoot := db.owned[BaiduTaskRoot].(allowed := true)]);
      }
      Commit(AuthorizeRoot, tx);
      r := Some(db.owned[BaiduTaskRoot]);
    }

    // ----- the outside world of the cleanup engine ---------------------------

    /** Layout.RemoveTempFile: an already missing file counts as removed. */
    method RemoveTempFile(p: CachePath) returns (ok: bool)
      requires Valid()
      modifies this
      ensures Valid() && if ok then Did(RemoveLocal(p)) && db == old(db) && cache == old(cache) - {p} && baidu == old(baidu) && drive == old(drive) else Same()
      ensures quiet ==> ok
    {
      var failed := Fails();
      if failed { return false; }
      cache := cache - {p};
      Record(RemoveLocal(p));
      ok := true;
    }

    /** ListStagingPathForCleanup. */
    method ListStagingPathForCleanup(target: StagingPath) returns (seen: Listing)
      requires Valid()
      modifies this
      ensures Valid() && Did(InspectStaging(target, seen)) && Now() == old(Now())
      ensures honest ==> Truthful(baidu, target, seen)
      ensures quiet ==> !seen.ListFailed?
    {
      seen := Observe(target);
      Record(InspectStaging(target, seen));
    }

    /** A listing as the service happens to answer it. */
    method Observe(target: StagingPath) returns (seen: Listing)
      ensures honest ==> Truthful(baidu, target, seen)
      ensures quiet ==> !seen.ListFailed?
    {
      var failed := Fails();
      if failed { return ListFailed; }
      if !honest {
        seen := *;
        if seen.ListFailed? { seen := NotFound; }
        return;
      }
      match target
      case BatchDir(b) =>
        if b !in baidu.dirs { return NotFound; }
        var items := ListDir(b, baidu.dirs[b]);
        seen := Found(items);
      case TaskRoot =>
        if !RootThere(baidu) { return NotFound; }
        var children := Enumerate(baidu.dirs.Keys);
        seen := Found(seq(|children|, i requires 0 <= i < |children| => ListedObject(1, "", BatchDir(children[i]), 0, "", true)));
      case _ => seen := NotFound;
    }

    /** DeleteStagingPath: it may take effect and still report a failure. */
    method DeleteStagingPath(target: StagingPath) returns (r: Deletion)
      requires Valid() && (target == TaskRoot || target.BatchDir?)
      modifies this
      ensures Valid() && Did(DeleteStaging(target)) && db == old(db) && cache == old(cache) && drive == old(drive)
      ensures baidu == old(baidu) || baidu == WithoutPath(old(baidu), target)
      ensures honest && !r.DeleteFailed? ==> baidu == WithoutPath(old(baidu), target)
      ensures quiet ==> !r.DeleteFailed?
    {
      var failed := Fails();
      var effect := true;
      if failed || !honest { effect := *; }
      if effect { baidu := WithoutPath(baidu, target); }
      Record(DeleteStaging(target));
      if failed { return DeleteFailed; }
      if !honest {
        r := *;
        if quiet { r := Deleted; }
      } else {
        var missing: bool := *;
        r := if missing then Missing else Deleted;
      }
    }

    // ----- the outside world of the staging executor -------------------------

    /** EnsureStagingDirectory: makes the task root and the batch directory, as far as it gets. */
    method EnsureStagingDirectory(b: BatchId) returns (ok: bool)
      requires Valid()
      modifies this
      ensures Valid() && Did(MakeStaging(b)) && Now() == old(Now()).(baidu := baidu)
      ensures honest ==> HonestMake(old(Now()), Now(), b)
    {
      var root, dir := true, true;
      ok := *;
      if !ok { root, dir := *, *; }
      if root { baidu := baidu.(rootPresent := true); }
      if dir && b !in baidu.dirs { baidu := baidu.(dirs := baidu.dirs[b := map[]]); }
      if !honest && b in baidu.dirs {
        var any: map<string, StagedObject> := *;
        baidu := baidu.(dirs := baidu.dirs[b := any]);
      }
      Record(MakeStaging(b));
    }

    /** TransferFiles: whatever it answers, any part of the request may have taken effect. */
    method TransferFiles(b: BatchId, ids: seq<FileId>) returns (answer: TransferAnswer)
      requires Valid()
      modifies this
      ensures Valid() && Did(Transfer(b, ids)) && Now() == old(Now()).(baidu := baidu)
      ensures honest ==> HonestTransfer(old(Now()), Now(), b, ids)
    {
      answer := *;
      if b in baidu.dirs {
        var after: map<string, StagedObject> := *;
        if !honest || AddsRequested(db, baidu.dirs[b], after, ids) {
          baidu := baidu.(dirs := baidu.dirs[b := after]);
        }
      }
      Record(Transfer(b, ids));
    }

    // ----- temp/cache as the download engine uses it --------------------------

    /** RemoveTempFile on a cache file found unusable. */
    method DiscardTempFile(p: CachePath) returns (ok: bool)
      requires Valid()
      modifies this
      ensures Valid() && (if ok then Did(DiscardLocal(p)) && Now() == old(Now()).(cache := old(cache) - {p}) else Same())
    {
      var failed := Fails();
      if failed { return false; }
      cache := cache - {p};
      Record(DiscardLocal(p));
      ok := true;
    }

    /** One request to the download service; what it answers is none of the world's state. */
    method RequestDownload(f: FileId, offset: nat)
      requires Valid()
      modifies this
      ensures Valid() && Did(RequestRange(f, offset)) && Now() == old(Now())
    {
      Record(RequestRange(f, offset));
    }

    /** One request for a page of a share listing; what it answers is none of the world's state. */
    method RequestListing(dir: Path, page: nat)
      requires Valid()
      modifies this
      ensures Valid() && Did(ListShare(dir, page)) && Now() == old(Now())
    {
      Record(ListShare(dir, page));
    }

    /** Copies a stream to the end of a partial file; an interruption leaves a prefix of it. */
    method AppendToPart(p: CachePath, body: seq<Byte>) returns (ok: bool)
      requires Valid()
      modifies this
      ensures Valid() && Did(WriteLocal(p))
      ensures p in cache && Now() == old(Now()).(cache := old(cache)[p := cache[p]])
      ensures exists k :: 0 <= k <= |body| && cache[p] == PartOf(old(cache), p) + body[..k]
      ensures ok ==> cache[p] == PartOf(old(cache), p) + body
    {
      var k: int := *;
      var failed := Fails();
      if !failed || k < 0 || k > |body| { k := |body|; }
      cache := cache[p := PartOf(cache, p) + body[..k]];
      Record(WriteLocal(p));
      ok := !failed;
      assert body[..|body|] == body;
    }

    /** RenameTempFile: an existing target is removed first, and the two steps may be torn apart. */
    method RenameTempFile(part: CachePath, bin: CachePath) returns (ok: bool)
      requires Valid() && part in cache && part != bin
      modifies this
      ensures Valid() && Extends()
      ensures !ok ==> Same() || (Did(DiscardLocal(bin)) && Now() == old(Now()).(cache := old(cache) - {bin}))
      ensures ok ==> bin in cache && cache[bin] == old(cache)[part] && part !in cache
      ensures ok ==> Now() == old(Now()).(cache := (old(cache) - {part})[bin := old(cache)[part]])
      ensures ok ==> Renamed(old(states), old(moves), states, moves, old(Now()), part, bin)
    {
      if bin in cache {
        ok := DiscardTempFile(bin);
        if !ok { return; }
      }
      var failed := Fails();
      if failed { return false; }
      ghost var s, m := states, moves;
      cache := (cache - {part})[bin := cache[part]];
      Record(RenameLocal(part, bin));
      assert (old(cache) - {bin} - {part})[bin := old(cache)[part]] == (old(cache) - {part})[bin := old(cache)[part]];
      ok := true;
    }

    // ----- the Drive remote ---------------------------------------------------

    /** lsjson of a parent directory, narrowed to one name. */
    method ListNamedFiles(p: Path) returns (r: Option<seq<DriveItem>>)
      ensures honest && r.Some? ==> ListsAll(drive, p, r.value)
    {
      var failed := Fails();
      if failed { return None; }
      if !honest {
        r := *;
        return;
      }
      var items := ObjectsAt(drive, p);
      r := Some(items);
    }

    /** rclone copyto: it may create the object and still report an error, or report success without one. */
    method CopyToDrive(f: FileId) returns (ok: bool)
      requires Valid() && f in db.files
      modifies this
      ensures Valid() && Did(CopyTo(f)) && Now() == old(Now()).(drive := drive)
    {
      var commits: bool := *;
      var id: DriveId := *;
      if commits && id != "" && id !in drive {
        var size: nat, md5: Digest := *, *;
        drive := drive[id := DriveObject(db.files[f].path, size, md5, false)];
      }
      Record(CopyTo(f));
      ok := *;
    }
  }

  method ObjectsAt(drive: map<DriveId, DriveObject>, p: Path) returns (items: seq<DriveItem>)
    ensures ListsAll(drive, p, items)
  {
    var there := set id | id in drive && drive[id].path == p;
    var ids := Enumerate(there);
    items := seq(|ids|, i requires 0 <= i < |ids| => DriveItemOf(drive, ids[i]));
    forall i | 0 <= i < |items| ensures IsObject(drive, p, items[i]) { assert ids[i] in there; }
    forall id | id in drive && drive[id].path == p ensures exists i :: 0 <= i < |items| && items[i].id == id {
      assert id in there;
      var i :| 0 <= i < |ids| && ids[i] == id;
      assert items[i].id == id;
    }
  }

  function DriveItemOf(drive: map<DriveId, DriveObject>, id: DriveId): DriveItem {
    if id in drive then DriveItem(id, drive[id].size, drive[id].md5, drive[id].isDir) else DriveItem(id, 0, "", true)
  }

  /** A rename as one or two recorded steps. */
  ghost predicate Renamed(s0: seq<Snap>, m0: seq<Move>, s: seq<Snap>, m: seq<Move>, start: Snap, part: CachePath, bin: CachePath) {
    || (bin !in start.cache && m == m0 + [RenameLocal(part, bin)] && s == s0 + [start.(cache := (start.cache - {part})[bin := PartOf(start.cache, part)])])
    || (bin in start.cache && m == m0 + [DiscardLocal(bin), RenameLocal(part, bin)]
        && s == s0 + [start.(cache := start.cache - {bin}), start.(cache := (start.cache - {part})[bin := PartOf(start.cache, part)])])
  }

  function WithoutPath(baidu: Baidu, target: StagingPath): Baidu {
    match target
    case BatchDir(b) => baidu.(dirs := baidu.dirs - {b})
    case TaskRoot => Baidu(false, map[])
    case _ => baidu
  }

  /** The listing of a batch directory. */
  method ListDir(b: BatchId, dir: map<string, StagedObject>) returns (items: seq<ListedObject>)
    ensures forall i :: 0 <= i < |items| ==> Reports(dir, b, items[i])
    ensures forall n :: n in dir ==> exists i :: 0 <= i < |items| && items[i].name == n
  {
    var names := Enumerate(dir.Keys);
    items := seq(|names|, i requires 0 <= i < |names| => Listed(b, names[i], dir));
    forall n | n in dir ensures exists i :: 0 <= i < |items| && items[i].name == n {
      var i :| 0 <= i < |names| && names[i] == n;
      assert items[i].name == n;
    }
  }

  function Listed(b: BatchId, n: string, dir: map<string, StagedObject>): ListedObject {
    if n in dir then ListedObject(dir[n].fsId, n, StagedFile(b, n), dir[n].size, dir[n].md5, dir[n].isDir) else ListedObject(0, n, NoStaging, 0, "", false)
  }
}
