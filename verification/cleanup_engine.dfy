/** Engine.Run and cleanupTaskRoot (internal/cleanup/engine.go), and what holds of
    every run of the system in which the engine takes part. */
module CleanupEngine {
  import opened Wrappers
  import opened Model
  import opened Tables
  import opened Transactions
  import opened Invariant
  import opened Runs
  import opened Durable
  import opened Worlds
  import opened Cleanup
  import opened Recovery
  import Counting

  datatype Summary = Summary(batchesDone: nat, filesDone: nat, bytesFreed: nat, taskRootDone: bool)

  /** The task root needs nothing more, or cannot be deleted because something is in it. */
  ghost predicate RootSettled(s: Snap) {
    RootCandidate(s.db) ==> Allowed(s.db, BaiduTaskRoot) && s.baidu.dirs != map[]
  }

  ghost predicate BatchTablesSame(db: Db, db': Db) {
    db'.files == db.files && db'.members == db.members && db'.batches == db.batches && db'.task == db.task
  }

  lemma RootAuthorizable(db: Db)
    requires Consistent(db) && RootCandidate(db) && SafeComponent(db.task.id)
    ensures CanAuthorizeRoot(db)
  {
    assert OwnedOk(db, BaiduTaskRoot);
  }

  lemma RootStaysDue(db: Db, db': Db)
    requires RootCandidate(db) && Attempt(db, AuthorizeRoot) == Some(db')
    ensures RootCandidate(db') && Allowed(db', BaiduTaskRoot) && BatchTablesSame(db, db')
    ensures forall k :: k in db'.owned && k != BaiduTaskRoot ==> k in db.owned && db'.owned[k] == db.owned[k]
  {
  }

  /** Looks into the task root and deletes it only if the listing just seen was empty. */
  method DeleteTaskRoot(w: World) returns (ok: bool)
    requires w.Valid() && RootCandidate(w.db) && Allowed(w.db, BaiduTaskRoot)
    modifies w
    ensures w.Valid() && w.Extends() && LegalFrom(w.honest, w.states, w.moves, |old(w.moves)|)
    ensures w.db == old(w.db)
    ensures ok && w.honest ==> !RootThere(w.baidu)
    ensures w.quiet && w.honest ==> ok || w.baidu.dirs != map[]
  {
    ghost var s0, m0 := w.states, w.moves;
    var seen := w.ListStagingPathForCleanup(TaskRoot);
    ghost var s1, m1 := w.states, w.moves;
    LegalStep(w.honest, s0, m0, w.Now(), InspectStaging(TaskRoot, seen));
    if seen.ListFailed? { return false; }
    if seen.NotFound? { return true; }
    if |seen.items| != 0 { return false; }
    assert seen.items == [];
    var deletion := w.DeleteStagingPath(TaskRoot);
    LegalStep(w.honest, s1, m1, w.Now(), DeleteStaging(TaskRoot));
    LegalJoin(w.honest, s0, m0, s1, m1, w.states, w.moves);
    ok := !deletion.DeleteFailed?;
  }

  /** The task root deleted and recorded. */
  method CleanTaskRoot(w: World) returns (ok: bool)
    requires w.Valid() && RootCandidate(w.db) && Allowed(w.db, BaiduTaskRoot)
    modifies w
    ensures w.Valid() && w.Extends() && LegalFrom(w.honest, w.states, w.moves, |old(w.moves)|)
    ensures ok ==> !RootCandidate(w.db)
    ensures BatchTablesSame(old(w.db), w.db)
    ensures w.quiet && w.honest ==> RootSettled(w.Now())
  {
    ok := DeleteTaskRoot(w);
    if !ok { return; }
    ghost var s, m := w.states, w.moves;
    ok := w.MarkCleanupObjectDone(BaiduTaskRoot);
    if ok {
      LegalStep(w.honest, s, m, w.Now(), Tx(MarkCleaned(BaiduTaskRoot)));
      LegalJoin(w.honest, old(w.states), old(w.moves), s, m, w.states, w.moves);
    }
  }

  /** cleanupTaskRoot: None on an error, otherwise whether the root is done. */
  method CleanupTaskRoot(w: World) returns (r: Option<bool>)
    requires w.Valid()
    modifies w
    ensures w.Valid() && w.Extends() && LegalFrom(w.honest, w.states, w.moves, |old(w.moves)|)
    ensures w.quiet && w.honest && SafeComponent(old(w.db).task.id) ==> RootSettled(w.Now())
    ensures BatchTablesSame(old(w.db), w.db)
    ensures r.Some? ==> !RootCandidate(w.db) && (r.value <==> RootCandidate(old(w.db)))
  {
    hide Legal, Step, Attempt;
    var candidate := w.TaskRootCleanupCandidate();
    if candidate.None? { return None; }
    if !candidate.value { return Some(false); }
    ghost var s0, m0, db0 := w.states, w.moves, w.db;
    w.InOrder();
    if SafeComponent(w.db.task.id) { RootAuthorizable(w.db); }
    var root := w.AuthorizeTaskRootCleanup();
    if root.None? { return None; }
    RootStaysDue(db0, w.db);
    ghost var s, m := w.states, w.moves;
    LegalStep(w.honest, s0, m0, w.Now(), Tx(AuthorizeRoot));
    if root.value.cleaned { return Some(true); }
    var ok := CleanTaskRoot(w);
    LegalJoin(w.honest, s0, m0, s, m, w.states, w.moves);
    r := if ok then Some(true) else None;
  }

  /** A candidate of a consistent store passes the authorization gate. */
  lemma CandidateAuthorizable(db: Db, b: BatchId)
    requires Consistent(db) && Candidate(db, b) && SafeComponent(db.task.id)
    ensures CanAuthorizeBatch(db, b)
  {
    RegisteredObjects(db, b);
    forall f | f in FilesOf(db, b) ensures FileAuthorizable(db, f) { assert FileOk(db, f); }
    assert BatchOk(db, b);
  }

  lemma AuthorizedInCleanup(db: Db, db': Db, b: BatchId)
    requires Attempt(db, AuthorizeBatch(b)) == Some(db')
    ensures BatchInCleanup(db', b)
  {
    assert CanAuthorizeBatch(db, b);
    assert db' == AfterAuthorizeBatch(db, b);
    AuthorizedReadable(db, b);
    assert FilesOf(db', b) == FilesOf(db, b);
  }

  /** The authorization of a candidate; it may be committed and yet fail to be read back. */
  method Authorize(w: World, b: BatchId) returns (batch: Option<CleanupBatch>)
    requires w.Valid() && Candidate(w.db, b)
    modifies w
    ensures w.Valid() && w.Extends() && LegalFrom(w.honest, w.states, w.moves, |old(w.moves)|)
    ensures batch.Some? ==> batch.value.batch == b && BatchInCleanup(w.db, b) && IsCleanupBatch(w.db, b, batch.value)
    ensures w.quiet && CanAuthorizeBatch(old(w.db), b) ==> batch.Some?
    ensures batch.Some? && Removable(old(w.Now()), b) ==> Removable(w.Now(), b)
    ensures Achieved(old(w.db), w.db, 0, 0)
  {
    hide Achieved, Consistent, Removable, CanAuthorizeBatch, Attempt, BatchInCleanup, IsCleanupBatch, Step;
    ghost var s, m, start := w.states, w.moves, w.Now();
    w.InOrder();
    batch := w.AuthorizeBatchCleanup(b);
    NothingAchieved(start.db, start.db);
    if w.moves != m {
      LegalStep(w.honest, s, m, w.Now(), Tx(AuthorizeBatch(b)));
      AuthorizeAchieves(start.db, w.db, b);
    }
    if batch.Some? {
      AuthorizedInCleanup(start.db, w.db, b);
      if Removable(start, b) { AuthorizedForeign(start, w.Now(), b); }
    }
  }

  lemma AuthorizedForeign(s: Snap, s': Snap, b: BatchId)
    requires Consistent(s.db) && Candidate(s.db, b) && Removable(s, b) && s'.baidu == s.baidu && Attempt(s.db, AuthorizeBatch(b)) == Some(s'.db)
    ensures Removable(s', b)
  {
    hide Consistent, Candidate, Attempt, Cleaned, AfterAuthorizeBatch, NothingForeign;
    TxAfter(s.db, AuthorizeBatch(b));
    RegisteredObjects(s.db, b);
    Facts(s.db);
    AuthorizeCleans(s.db, b);
    if !Cleaned(s.db, BaiduBatchDir(b)) {
      ForeignAfterAuthorize(s, b);
      assert s' == Snap(AfterAuthorizeBatch(s.db, b), s'.cache, s.baidu, s'.drive);
    }
  }

  lemma ForeignAfterAuthorize(s: Snap, b: BatchId)
    requires NothingForeign(s, b)
    ensures forall s': Snap :: s'.baidu == s.baidu && s'.db == AfterAuthorizeBatch(s.db, b) ==> NothingForeign(s', b)
  {
    var db' := AfterAuthorizeBatch(s.db, b);
    assert FilesOf(db', b) == FilesOf(s.db, b);
    if b in s.baidu.dirs {
      forall n | n in s.baidu.dirs[b] ensures Expected(db', b, n, s.baidu.dirs[b][n]) {
        assert Expected(s.db, b, n, s.baidu.dirs[b][n]);
      }
    }
  }

  // ----- what a run reports ----------------------------------------------------

  function DoneFiles(db: Db): set<FileId> {
    set f | f in db.files && db.files[f].status.Done?
  }

  ghost predicate SameSizes(db: Db, db': Db) {
    db'.files.Keys == db.files.Keys && forall f :: f in db.files ==> db'.files[f].size == db.files[f].size
  }

  /** So many files, of so many bytes, became DONE. */
  ghost predicate Achieved(db: Db, db': Db, files: nat, bytes: nat) {
    && SameSizes(db, db')
    && |DoneFiles(db')| == |DoneFiles(db)| + files
    && SizeSum(db'.files, DoneFiles(db')) == SizeSum(db.files, DoneFiles(db)) + bytes
  }

  lemma AchievedThen(a: Db, b: Db, c: Db, files: nat, bytes: nat, moreFiles: nat, moreBytes: nat)
    requires Achieved(a, b, files, bytes) && Achieved(b, c, moreFiles, moreBytes)
    ensures Achieved(a, c, files + moreFiles, bytes + moreBytes)
  {
  }

  lemma NothingAchieved(db: Db, db': Db)
    requires SameSizes(db, db') && forall f :: f in db.files ==> (db'.files[f].status.Done? <==> db.files[f].status.Done?)
    ensures Achieved(db, db', 0, 0)
  {
    forall f ensures f in DoneFiles(db') <==> f in DoneFiles(db) { assert f in db'.files.Keys <==> f in db.files.Keys; }
    assert DoneFiles(db') == DoneFiles(db);
    SizeSumSameSizes(db.files, db'.files, DoneFiles(db));
  }

  lemma AuthorizeAchieves(db: Db, db': Db, b: BatchId)
    requires Attempt(db, AuthorizeBatch(b)) == Some(db')
    ensures Achieved(db, db', 0, 0)
  {
    TxAfter(db, AuthorizeBatch(b));
    NothingAchieved(db, db');
  }

  lemma MarkedTables(db: Db, db': Db)
    requires OnlyMarked(db, db')
    ensures BatchTablesSame(db, db')
  {
  }

  lemma MarkedAchieves(db: Db, db': Db)
    requires OnlyMarked(db, db')
    ensures Achieved(db, db', 0, 0)
  {
    NothingAchieved(db, db');
  }

  /** Completing a batch makes exactly its files DONE. */
  lemma CompleteAchieves(db: Db, db': Db, b: BatchId)
    requires Attempt(db, CompleteCleanup(b)) == Some(db')
    ensures FilesOf(db, b) <= db.files.Keys && Achieved(db, db', |FilesOf(db, b)|, SizeSum(db.files, FilesOf(db, b)))
  {
    TxAfter(db, CompleteCleanup(b));
    var members := FilesOf(db, b);
    forall f | f in members ensures f in db.files && db.files[f].status.CleanupPending? {}
    forall f ensures f in DoneFiles(db') <==> f in DoneFiles(db) + members { assert f in db'.files.Keys <==> f in db.files.Keys; }
    assert DoneFiles(db') == DoneFiles(db) + members;
    assert DoneFiles(db) !! members;
    SizeSumUnion(db.files, DoneFiles(db), members);
    SizeSumSameSizes(db.files, db'.files, DoneFiles(db'));
  }

  lemma BatchMeasured(db: Db, now: Db, b: BatchId, batch: CleanupBatch)
    requires IsCleanupBatch(db, b, batch) && now.files == db.files && now.members == db.members
    ensures FilesOf(now, b) <= now.files.Keys
    ensures |batch.files| == |FilesOf(now, b)| && (forall f :: f in batch.files ==> f in batch.rows)
    ensures SizeSeq(batch.rows, batch.files) == SizeSum(now.files, FilesOf(now, b))
  {
    assert FilesOf(now, b) == FilesOf(db, b);
    forall f ensures f in (set f | f in batch.files) <==> f in FilesOf(now, b) {}
    assert (set f | f in batch.files) == FilesOf(now, b);
    forall f | f in batch.files ensures f in now.files && batch.rows[f] == now.files[f] { assert InCleanup(db, f); }
    SizeSeqIsSum(now.files, batch.files);
    SizeSeqSame(batch.rows, now.files, batch.files);
  }

  lemma {:induction false} SizeSeqSame(x: map<FileId, FileRow>, y: map<FileId, FileRow>, ids: seq<FileId>)
    requires forall f :: f in ids ==> f in x && f in y && x[f] == y[f]
    ensures SizeSeq(x, ids) == SizeSeq(y, ids)
  {
    if ids != [] {
      assert ids[|ids| - 1] in ids;
      SizeSeqSame(x, y, ids[..|ids| - 1]);
    }
  }

  ghost predicate BatchAchieved(db: Db, db': Db, r: Option<CleanupBatch>) {
    match r
    case None => Achieved(db, db', 0, 0)
    case Some(batch) => (forall f :: f in batch.files ==> f in batch.rows) && Achieved(db, db', |batch.files|, SizeSeq(batch.rows, batch.files))
  }

  /** One batch from authorization to completion. */
  method CleanOneBatch(w: World, b: BatchId) returns (r: Option<CleanupBatch>)
    requires w.Valid() && Candidate(w.db, b)
    modifies w
    ensures w.Valid() && w.Extends() && LegalFrom(w.honest, w.states, w.moves, |old(w.moves)|)
    ensures w.quiet && w.honest && CanAuthorizeBatch(old(w.db), b) && Removable(old(w.Now()), b) ==> r.Some?
    ensures r.Some? ==> w.moves[|w.moves| - 1] == Tx(CompleteCleanup(b)) && |old(w.moves)| < |w.moves|
    ensures BatchAchieved(old(w.db), w.db, r)
  {
    hide Achieved, Step, Legal, Candidate, IsCleanupBatch, BatchInCleanup, Removable;
    var batch := Authorize(w, b);
    if batch.None? { return None; }
    ghost var s, m, db := w.states, w.moves, w.db;
    r := FinishBatch(w, batch.value);
    LegalJoin(w.honest, old(w.states), old(w.moves), s, m, w.states, w.moves);
    match r {
      case None => AchievedThen(old(w.db), db, w.db, 0, 0, 0, 0);
      case Some(c) => AchievedThen(old(w.db), db, w.db, 0, 0, |c.files|, SizeSeq(c.rows, c.files));
    }
  }

  /** The objects of an authorized batch, then its completion. */
  method FinishBatch(w: World, batch: CleanupBatch) returns (r: Option<CleanupBatch>)
    requires w.Valid() && BatchInCleanup(w.db, batch.batch) && IsCleanupBatch(w.db, batch.batch, batch)
    modifies w
    ensures w.Valid() && w.Extends() && LegalFrom(w.honest, w.states, w.moves, |old(w.moves)|)
    ensures w.quiet && w.honest && Removable(old(w.Now()), batch.batch) ==> r.Some?
    ensures r.Some? ==> r.value == batch && |old(w.moves)| < |w.moves| && w.moves[|w.moves| - 1] == Tx(CompleteCleanup(batch.batch))
    ensures BatchAchieved(old(w.db), w.db, r)
  {
    hide Achieved, Step, Legal, BatchInCleanup, Removable, SizeSeq, Attempt, CanCompleteCleanup, IsCleanupBatch, OnlyMarked;
    ghost var start := w.db;
    NothingAchieved(start, start);
    var ok := CleanupBatchObjects(w, batch);
    MarkedAchieves(start, w.db);
    MarkedTables(start, w.db);
    if !ok { return None; }
    ok := w.ValidateBatchCleanupCompleteness(batch.batch);
    if !ok { return None; }
    ghost var s, m, db := w.states, w.moves, w.db;
    CompletableKnown(w, batch.batch);
    BatchMeasured(start, db, batch.batch, batch);
    ok := w.CompleteBatchCleanup(batch.batch);
    if !ok { return None; }
    LegalStep(w.honest, s, m, w.Now(), Tx(CompleteCleanup(batch.batch)));
    LegalJoin(w.honest, old(w.states), old(w.moves), s, m, w.states, w.moves);
    CompleteAchieves(db, w.db, batch.batch);
    AchievedThen(start, db, w.db, 0, 0, |batch.files|, SizeSeq(batch.rows, batch.files));
    r := Some(batch);
  }

  lemma CompletableKnown(w: World, b: BatchId)
    requires w.Valid() && CanCompleteCleanup(w.db, b)
    ensures b in w.db.batches
  {
    w.PermittedBatch(b);
  }

  /** Completing a batch takes it, and no other, off the list of candidates. */
  lemma CompletedLeaves(s: Snap, mid: Snap, s': Snap, b: BatchId)
    requires Toward(s, mid) && b in Candidates(s.db)
    requires Attempt(mid.db, CompleteCleanup(b)) == Some(s'.db)
    ensures Candidates(s'.db) <= Candidates(s.db) - {b} && |Candidates(s'.db)| < |Candidates(s.db)|
  {
    CompletedTx(mid.db, s'.db, b);
    StrictlySmaller(Candidates(s'.db), Candidates(mid.db), Candidates(s.db), b);
  }

  lemma LastTx(states: seq<Snap>, moves: seq<Move>, op: Op)
    requires IsRun(states, moves) && moves != [] && moves[|moves| - 1] == Tx(op)
    ensures Attempt(states[|moves| - 1].db, op) == Some(states[|moves|].db)
  {
    assert Step(states[|moves| - 1], moves[|moves| - 1], states[|moves| - 1 + 1]);
  }

  lemma StrictlySmaller(a: set<BatchId>, b: set<BatchId>, c: set<BatchId>, x: BatchId)
    requires a == b - {x} && b <= c && x in c
    ensures a <= c - {x} && |a| < |c|
  {
    Counting.SubsetCardinality(a, c - {x});
  }

  lemma CompletedTx(db: Db, db': Db, b: BatchId)
    requires Attempt(db, CompleteCleanup(b)) == Some(db') && Consistent(db)
    ensures Candidates(db') == Candidates(db) - {b}
  {
    TxAfter(db, CompleteCleanup(b));
    RegisteredBatch(db, b);
    CompleteLeaves(db, b);
  }

  lemma RegisteredBatch(db: Db, b: BatchId)
    requires Consistent(db) && BaiduBatchDir(b) in db.owned
    ensures b in db.batches
  {
    assert OwnedOk(db, BaiduBatchDir(b));
  }

  /** Summary.BytesFreed of one batch. */
  method BytesOf(batch: CleanupBatch) returns (bytes: nat)
    requires forall f :: f in batch.files ==> f in batch.rows
    ensures bytes == SizeSeq(batch.rows, batch.files)
  {
    bytes := 0;
    var i := 0;
    while i < |batch.files|
      invariant 0 <= i <= |batch.files|
      invariant bytes == SizeSeq(batch.rows, batch.files[..i])
    {
      var f := batch.files[i];
      assert f in batch.rows;
      assert batch.files[..i + 1][..i] == batch.files[..i];
      bytes := bytes + batch.rows[f].size;
      i := i + 1;
    }
    assert batch.files[..|batch.files|] == batch.files;
  }

  /** The start of a fault-free cleanup: a true remote, nothing failing, an orderly state. */
  ghost predicate Undisturbed(w: World, start: Snap)
    reads w
  {
    w.quiet && w.honest && Orderly(start) && SafeComponent(start.db.task.id)
  }

  /** After done batches the state still heads for start's result, with that many fewer candidates. */
  ghost predicate Progressing(start: Snap, s: Snap, done: nat) {
    Toward(start, s) && |Candidates(s.db)| + done <= |Candidates(start.db)|
  }

  lemma ReadyForBatch(start: Snap, mid: Snap, done: nat, b: BatchId)
    requires Progressing(start, mid, done) && SafeComponent(start.db.task.id) && Candidate(mid.db, b)
    ensures CanAuthorizeBatch(mid.db, b) && Removable(mid, b)
  {
    CandidateAuthorizable(mid.db, b);
    assert b in Candidates(mid.db);
  }

  lemma BatchLeft(start: Snap, mid: Snap, before: Snap, s: Snap, b: BatchId, done: nat)
    requires Progressing(start, mid, done) && Candidate(mid.db, b)
    requires Toward(mid, before) && Toward(mid, s) && Attempt(before.db, CompleteCleanup(b)) == Some(s.db)
    ensures Progressing(start, s, done + 1)
  {
    TowardTransitive(start, mid, s);
    CompletedLeaves(mid, before, s, b);
  }

  lemma BatchLeftInRun(start: Snap, states: seq<Snap>, moves: seq<Move>, n: nat, b: BatchId, done: nat)
    requires IsRun(states, moves) && n < |moves| && LegalFrom(true, states, moves, n)
    requires Progressing(start, states[n], done) && Candidate(states[n].db, b) && moves[|moves| - 1] == Tx(CompleteCleanup(b))
    ensures Progressing(start, states[|moves|], done + 1)
  {
    hide Consistent, NoForeign, Final, Step, Legal, Candidates, Attempt;
    LegalRunKeeps(states, moves, n, |moves|);
    LegalRunKeeps(states, moves, n, |moves| - 1);
    LastTx(states, moves, CompleteCleanup(b));
    BatchLeft(start, states[n], states[|moves| - 1], states[|moves|], b, done);
  }

  lemma NoneLeft(start: Snap, s: Snap, done: nat, limit: nat)
    requires Progressing(start, s, done) && |Candidates(start.db)| <= limit
    requires done == limit || forall b :: !Candidate(s.db, b)
    ensures Candidates(s.db) == {}
  {
  }

  datatype Pass = NothingToClean | CleanFailed | BatchCleaned(batch: CleanupBatch)

  /** One round of the batch loop: the first candidate, if there is one. */
  method CleanNext(w: World, limit: nat, ghost start: Snap, ghost done: nat, ghost undisturbed: bool) returns (pass: Pass)
    requires w.Valid() && 0 < limit
    requires undisturbed ==> w.quiet && w.honest && SafeComponent(start.db.task.id) && Progressing(start, w.Now(), done)
    modifies w
    ensures w.Valid() && w.Extends() && LegalFrom(w.honest, w.states, w.moves, |old(w.moves)|)
    ensures BatchAchieved(old(w.db), w.db, if pass.BatchCleaned? then Some(pass.batch) else None)
    ensures undisturbed ==> !pass.CleanFailed? && Progressing(start, w.Now(), if pass.BatchCleaned? then done + 1 else done)
    ensures pass.NothingToClean? ==> forall b :: !Candidate(w.db, b)
  {
    hide Progressing, Step, Candidate, Attempt, Legal, Achieved;
    NothingAchieved(w.db, w.db);
    var candidates := w.CleanupCandidates(limit);
    if candidates.None? { return CleanFailed; }
    if candidates.value == [] { return NothingToClean; }
    var b := candidates.value[0];
    assert b in candidates.value;
    if undisturbed { ReadyForBatch(start, w.Now(), done, b); }
    var batch := CleanOneBatch(w, b);
    if batch.None? { return CleanFailed; }
    assert w.states[|old(w.moves)|] == old(w.Now());
    if undisturbed { BatchLeftInRun(start, w.states, w.moves, |old(w.moves)|, b, done); }
    pass := BatchCleaned(batch.value);
  }

  lemma StartsOrderly(start: Snap)
    requires Orderly(start)
    ensures Progressing(start, start, 0)
  {
  }

  /** The batch loop of Run: at most limit batches, one after the other. */
  method CleanBatches(w: World, limit: nat) returns (summary: Summary, ok: bool)
    requires w.Valid() && 0 < limit
    modifies w
    ensures w.Valid() && w.Extends() && LegalFrom(w.honest, w.states, w.moves, |old(w.moves)|)
    ensures summary.batchesDone <= limit && !summary.taskRootDone && Achieved(old(w.db), w.db, summary.filesDone, summary.bytesFreed)
    ensures Undisturbed(w, old(w.Now())) && |Candidates(old(w.db))| <= limit ==> ok && Candidates(w.db) == {} && w.db.task == old(w.db).task
    ensures ok ==> summary.batchesDone == limit || forall b :: !Candidate(w.db, b)
  {
    hide Orderly, Final, Step, Legal, Candidate, Attempt, Candidates, Achieved;
    ghost var start := w.Now();
    NothingAchieved(w.db, w.db);
    ghost var undisturbed := Undisturbed(w, start);
    summary := Summary(0, 0, 0, false);
    if undisturbed { StartsOrderly(start); }
    ghost var exhausted := false;
    while summary.batchesDone < limit
      invariant w.Valid() && w.Extends() && LegalFrom(w.honest, w.states, w.moves, |old(w.moves)|)
      invariant summary.batchesDone <= limit && !summary.taskRootDone && Achieved(start.db, w.db, summary.filesDone, summary.bytesFreed)
      invariant undisturbed ==> Progressing(start, w.Now(), summary.batchesDone)
      decreases limit - summary.batchesDone
    {
      var cancelled := w.Fails();
      if cancelled { return summary, false; }
      ghost var s, m, db := w.states, w.moves, w.db;
      var pass := CleanNext(w, limit - summary.batchesDone, start, summary.batchesDone, undisturbed);
      LegalJoin(w.honest, old(w.states), old(w.moves), s, m, w.states, w.moves);
      if !pass.BatchCleaned? { AchievedThen(start.db, db, w.db, summary.filesDone, summary.bytesFreed, 0, 0); }
      if pass.CleanFailed? { return summary, false; }
      if pass.NothingToClean? {
        exhausted := true;
        break;
      }
      var bytes := BytesOf(pass.batch);
      AchievedThen(start.db, db, w.db, summary.filesDone, summary.bytesFreed, |pass.batch.files|, bytes);
      summary := Summary(summary.batchesDone + 1, summary.filesDone + |pass.batch.files|, summary.bytesFreed + bytes, false);
    }
    ok := true;
    if undisturbed && |Candidates(start.db)| <= limit { NoneLeft(start, w.Now(), summary.batchesDone, limit); }
  }

  /** Once no batch is left and the root is settled, the state is the one aimed for. */
  lemma RunEnds(start: Snap, states: seq<Snap>, moves: seq<Move>, n: nat, k: nat)
    requires IsRun(states, moves) && n <= k <= |moves| && states[n] == start && Orderly(start) && LegalFrom(true, states, moves, n)
    requires Candidates(states[k].db) == {} && RootSettled(states[|moves|])
    ensures states[|moves|] == Final(start)
  {
    hide NoForeign, Consistent, Step, Legal, Final, RootCandidate;
    LegalRunKeeps(states, moves, n, k);
    LegalSuffix(states, moves, n, k);
    LegalRunKeeps(states, moves, k, |moves|);
    LegalRunKeeps(states, moves, n, |moves|);
    FinishedIsFinal(states[|moves|]);
  }

  lemma LegalSuffix(states: seq<Snap>, moves: seq<Move>, n: nat, k: nat)
    requires |states| == |moves| + 1 && n <= k && LegalFrom(true, states, moves, n)
    ensures LegalFrom(true, states, moves, k)
  {
  }

  /** Engine.Run. Without faults and from any orderly state, in particular from wherever an earlier
      run was cut off, it brings the world to the one state Final describes. */
  method Run(w: World, maxBatches: int) returns (summary: Summary, ok: bool)
    requires w.Valid()
    modifies w
    ensures w.Valid() && w.Extends() && LegalFrom(w.honest, w.states, w.moves, |old(w.moves)|)
    ensures Undisturbed(w, old(w.Now())) && |Candidates(old(w.db))| <= BatchLimit(maxBatches) ==> w.Now() == Final(old(w.Now()))
    ensures Achieved(old(w.db), w.db, summary.filesDone, summary.bytesFreed)
    ensures ok ==> summary.batchesDone == BatchLimit(maxBatches) || forall b :: !Candidate(w.db, b)
    ensures ok ==> !RootCandidate(w.db)
  {
    hide Achieved, Orderly, Toward, Step, Legal, Candidate, Attempt, Candidates, RootCandidate, Final, RootSettled;
    ghost var start := w.Now();
    ghost var undisturbed := Undisturbed(w, start) && |Candidates(start.db)| <= BatchLimit(maxBatches);
    summary, ok := CleanBatches(w, BatchLimit(maxBatches));
    if !ok { return; }
    ghost var s, m, db := w.states, w.moves, w.db;
    var root := CleanupTaskRoot(w);
    NothingAchieved(db, w.db);
    SameBatches(db, w.db);
    AchievedThen(start.db, db, w.db, summary.filesDone, summary.bytesFreed, 0, 0);
    LegalJoin(w.honest, old(w.states), old(w.moves), s, m, w.states, w.moves);
    if undisturbed { RunEnds(start, w.states, w.moves, |old(w.moves)|, |m|); }
    if root.None? { return summary, false; }
    summary := summary.(taskRootDone := root.value);
  }

  lemma SameBatches(db: Db, db': Db)
    requires db'.files == db.files && db'.batches == db.batches && db'.members == db.members
    ensures forall b :: Candidate(db', b) <==> Candidate(db, b)
  {
    forall b ensures Candidate(db', b) <==> Candidate(db, b) { assert FilesOf(db', b) == FilesOf(db, b); }
  }

  function BatchLimit(maxBatches: int): nat {
    if maxBatches <= 0 then 32 else maxBatches
  }

  /** What the state aimed for looks like: every candidate batch is DONE, its rows are cleaned, its objects
      gone; all else is as it was. Only an object that was back although its row said cleaned is left. */
  lemma FinalResult(s: Snap, b: BatchId)
    requires Consistent(s.db) && Candidate(s.db, b)
    ensures forall f :: f in FilesOf(s.db, b) ==>
              && f in Final(s).db.files && Final(s).db.files[f].status.Done?
              && Cleaned(Final(s).db, LocalCacheFile(f))
              && (BinFile(f) in Final(s).cache <==> BinFile(f) in s.cache && Cleaned(s.db, LocalCacheFile(f)))
    ensures Cleaned(Final(s).db, BaiduBatchDir(b))
    ensures b in Final(s).baidu.dirs <==> b in s.baidu.dirs && Cleaned(s.db, BaiduBatchDir(b))
    ensures forall f :: f in s.db.files && f !in Leaving(s.db) ==> f in Final(s).db.files && Final(s).db.files[f] == s.db.files[f]
    ensures forall p :: p in s.cache && p !in LeavingBins(s.db) ==> p in Final(s).cache && Final(s).cache[p] == s.cache[p]
    ensures Final(s).drive == s.drive && (Final(s).db.task == s.db.task)
  {
    hide Consistent, FinalRoot;
    RegisteredObjects(s.db, b);
    RootChangesNothingElse(FinalBatches(s));
    assert b in Candidates(s.db);
    forall f | f in FilesOf(s.db, b) ensures f in Leaving(s.db) {}
  }

  lemma RootChangesNothingElse(s: Snap)
    ensures FinalRoot(s).db.files == s.db.files && FinalRoot(s).db.task == s.db.task && FinalRoot(s).cache == s.cache && FinalRoot(s).drive == s.drive
    ensures FinalRoot(s).baidu.dirs == s.baidu.dirs
    ensures forall k :: k in s.db.owned && k != BaiduTaskRoot ==> k in FinalRoot(s).db.owned && FinalRoot(s).db.owned[k] == s.db.owned[k]
  {
    hide AllDone, AllBatchesCleaned;
  }

  /** A cleanup that was interrupted anywhere, however its earlier run had gone, is simply started again:
      a fault-free run ends in the very state an uninterrupted one would have ended in. */
  method RunAfterCrash(at: Snap, ghost states: seq<Snap>, ghost moves: seq<Move>, ghost n: nat, truth: Truth, maxBatches: int) returns (w: World)
    requires IsRun(states, moves) && states[|moves|] == at && n <= |moves| && LegalFrom(true, states, moves, n)
    requires Orderly(states[n]) && SafeComponent(states[n].db.task.id) && |Candidates(states[n].db)| <= BatchLimit(maxBatches)
    ensures w.Valid() && w.Now() == Final(states[n])
    ensures states <= w.states && moves <= w.moves && LegalFrom(true, w.states, w.moves, n)
  {
    hide Orderly, Final, Step, Legal, Candidates;
    LegalRunKeeps(states, moves, n, |moves|);
    FewerCandidates(states[n], at);
    w := new World.Restart(at, states, moves, true, true, truth);
    var summary, ok := Run(w, maxBatches);
    assert states[..n + 1] <= states && moves[..n] <= moves;
    LegalJoin(true, states[..n + 1], moves[..n], states, moves, w.states, w.moves);
  }

  lemma FewerCandidates(a: Snap, s: Snap)
    requires Toward(a, s)
    ensures |Candidates(s.db)| <= |Candidates(a.db)|
  {
    Counting.SubsetCardinality(Candidates(s.db), Candidates(a.db));
  }
}
