/** The staging executor (internal/staging/stager.go): transfers into a batch directory,
    split and retried, each retry decided by what the directory shows. */
module Stager {
  import opened Wrappers
  import opened Model
  import opened Tables
  import opened Transactions
  import opened Durable
  import opened Worlds
  import opened Laws
  import opened Progresses
  import opened StagingStore
  import Counting

  datatype Outcome = Ok | Err(permanent: bool)

  datatype Reconciled = StillAway(files: seq<FileId>) | NotReconciled(permanent: bool)

  // ----- what stays the same while a batch is staged ---------------------------

  /** Same files, batches and membership; only statuses and confirmed paths differ. */
  ghost predicate SameFiles(db: Db, db': Db) {
    && db'.members == db.members && db'.batches.Keys == db.batches.Keys && db'.files.Keys == db.files.Keys
    && forall f :: f in db.files ==> db'.files[f].path == db.files[f].path && db'.files[f].size == db.files[f].size
  }

  /** The batch as it was read still describes the tables. */
  ghost predicate Describes(db: Db, batch: StagingBatch) {
    && batch.batch in db.batches && Distinct(batch.files)
    && (forall f :: f in batch.files <==> f in FilesOf(db, batch.batch))
    && forall f :: f in batch.files ==>
         f in batch.rows && f in db.files && batch.rows[f].path == db.files[f].path && batch.rows[f].size == db.files[f].size
  }

  function Claimants(db: Db, b: BatchId): set<FileId> {
    set f | f in db.files && (HoldsCache(db.files[f].status) || db.files[f].status.BaiduStaged? || f in FilesOf(db, b))
  }

  /** The cache space taken or promised once the whole batch is staged. */
  function Claim(db: Db, b: BatchId): nat {
    SizeSum(db.files, Claimants(db, b))
  }

  /** A status that staging may give: the one before, or one short of the download again. */
  predicate StagedOn(from: FileStatus, to: FileStatus) {
    to == from || (BeforeDownload(from) && BeforeDownload(to) && !to.Discovered?)
  }

  /** Only files of the batch, and the batch itself, changed status; what was staged stayed so, and the
      batch can still be staged if it could before. */
  ghost predicate OnlyBatch(db: Db, db': Db, b: BatchId) {
    && SameFiles(db, db')
    && (forall f :: f in db.files && f !in FilesOf(db, b) ==> db'.files[f] == db.files[f])
    && (forall f :: f in db.files && StagedOrLater(db.files[f].status) ==> StagedOrLater(db'.files[f].status))
    && (forall c :: c in db.batches && c != b ==> db'.batches[c] == db.batches[c])
    && (forall f :: f in db.files ==> StagedOn(db.files[f].status, db'.files[f].status))
    && (b in db.batches ==> db'.batches[b].totalBytes == db.batches[b].totalBytes)
    && (b in db.batches && StageableBatch(db.batches[b].status) ==> StageableBatch(db'.batches[b].status))
  }

  lemma ClaimKept(db: Db, db': Db, b: BatchId)
    requires OnlyBatch(db, db', b)
    ensures Claim(db', b) == Claim(db, b)
  {
    assert FilesOf(db', b) == FilesOf(db, b);
    forall f ensures f in Claimants(db', b) <==> f in Claimants(db, b) { assert f in db'.files.Keys <==> f in db.files.Keys; }
    assert Claimants(db', b) == Claimants(db, b);
    SizeSumSameSizes(db.files, db'.files, Claimants(db, b));
  }

  lemma NoneCached(from: FileStatus, to: FileStatus)
    requires StagedOn(from, to)
    ensures HoldsCache(to) <==> HoldsCache(from)
  {
  }

  /** It stays the turn of the batch: the first one, admitted, with the same files not come to their download. */
  lemma TurnKept(maxCache: nat, db: Db, db': Db, b: BatchId)
    requires OnlyBatch(db, db', b) && StageTurn(maxCache, db, b)
    ensures StageTurn(maxCache, db', b)
  {
    hide Admitted;
    AdmissionKept(maxCache, db, db', b);
    assert FilesOf(db', b) == FilesOf(db, b);
    var f :| f in db.files && BeforeDownload(db.files[f].status);
    assert f in db'.files && BeforeDownload(db'.files[f].status);
    forall c ensures c in Stageable(db') <==> c in Stageable(db) { assert c in db'.batches.Keys <==> c in db.batches.Keys; }
  }

  /** The same while the batch is being staged. */
  lemma TurnOn(maxCache: nat, db: Db, db': Db, b: BatchId)
    requires OnlyBatch(db, db', b) && StageTurn(maxCache, db, b) && BeingStaged(db', b)
    ensures InTurn(maxCache, db', b)
  {
    hide OnlyBatch, StageTurn;
    TurnKept(maxCache, db, db', b);
  }

  /** The batch stays admitted: nothing it does takes cache. */
  lemma AdmissionKept(maxCache: nat, db: Db, db': Db, b: BatchId)
    requires OnlyBatch(db, db', b) && Admitted(maxCache, db, b)
    ensures Admitted(maxCache, db', b)
  {
    forall f ensures f in Caching(db') <==> f in Caching(db) {
      assert f in db'.files.Keys <==> f in db.files.Keys;
      if f in db.files { NoneCached(db.files[f].status, db'.files[f].status); }
    }
    assert Caching(db') == Caching(db);
    SizeSumSameSizes(db.files, db'.files, Caching(db));
  }

  lemma PotentialWithinClaim(db: Db, b: BatchId)
    ensures Potential(db) <= Claim(db, b)
  {
    SizeSumMonotone(db.files, Cacheable(db), Claimants(db, b));
  }

  lemma OnlyBatchTransitive(a: Db, b: Db, c: Db, batch: BatchId)
    requires OnlyBatch(a, b, batch) && OnlyBatch(b, c, batch)
    ensures OnlyBatch(a, c, batch)
  {
    assert FilesOf(b, batch) == FilesOf(a, batch);
  }

  ghost predicate AllStaged(db: Db, files: seq<FileId>) {
    forall f :: f in files ==> f in db.files && StagedOrLater(db.files[f].status)
  }

  lemma StagedKept(db: Db, db': Db, b: BatchId, files: seq<FileId>)
    requires OnlyBatch(db, db', b) && AllStaged(db, files)
    ensures AllStaged(db', files)
  {
  }

  /** Of the given files every one that is not (or no longer) in the second list is staged. */
  ghost predicate StagedBut(db: Db, files: seq<FileId>, rest: seq<FileId>) {
    forall f :: f in files && f !in rest ==> f in db.files && StagedOrLater(db.files[f].status)
  }

  /** What is staged stays so, and the remainder shrinks by what a reconciliation found. */
  lemma RemainderShrinks(db: Db, db': Db, batch: StagingBatch, files: seq<FileId>, current: seq<FileId>, away: seq<FileId>, missing: seq<FileId>)
    requires OnlyBatch(db, db', batch.batch) && StagedBut(db, files, current) && StagedBut(db', batch.files, away)
    requires (forall f :: f in files ==> f in batch.files) && forall f :: f in missing <==> f in current && f in away
    ensures StagedBut(db', files, missing)
  {
    forall f | f in files && f !in missing ensures f in db'.files && StagedOrLater(db'.files[f].status) {
      if f !in current { assert f in db.files; }
    }
  }

  lemma NoneLeft(db: Db, files: seq<FileId>, rest: seq<FileId>)
    requires StagedBut(db, files, rest) && (rest == [] || AllStaged(db, rest))
    ensures AllStaged(db, files)
  {
  }

  lemma StagedButKept(db: Db, db': Db, b: BatchId, files: seq<FileId>, rest: seq<FileId>)
    requires OnlyBatch(db, db', b) && StagedBut(db, files, rest)
    ensures StagedBut(db', files, rest)
  {
  }

  lemma StagedJoin(db: Db, files: seq<FileId>, start: nat, end: nat)
    requires start <= end <= |files| && AllStaged(db, files[..start]) && AllStaged(db, files[start..end])
    ensures AllStaged(db, files[..end])
  {
    assert files[..end] == files[..start] + files[start..end];
  }

  lemma RecordingOnlyBatch(db: Db, b: BatchId, staged: map<FileId, StagingPath>)
    requires CanRecordStaged(db, b, staged)
    ensures OnlyBatch(db, AfterRecordStaged(db, staged), b)
  {
    forall f | f in staged ensures f in FilesOf(db, b) { assert CanConfirm(db, b, f, staged[f]); }
  }

  lemma DescribesKept(db: Db, db': Db, batch: StagingBatch)
    requires SameFiles(db, db') && Describes(db, batch)
    ensures Describes(db', batch)
  {
    assert FilesOf(db', batch.batch) == FilesOf(db, batch.batch);
  }

  // ----- reconciliation --------------------------------------------------------

  function NameOf(batch: StagingBatch, f: FileId): string {
    if f in batch.rows then Base(batch.rows[f].path) else ""
  }

  /** Names of the batch, each standing for one file. */
  ghost predicate Expects(batch: StagingBatch, expected: map<string, FileId>, n: nat)
    requires n <= |batch.files|
  {
    && (forall f :: f in batch.files[..n] ==> NameOf(batch, f) in expected && expected[NameOf(batch, f)] == f)
    && (forall name :: name in expected ==> expected[name] in batch.files[..n] && NameOf(batch, expected[name]) == name)
  }

  ghost predicate NamesDiffer(batch: StagingBatch) {
    forall f, g :: f in batch.files && g in batch.files && NameOf(batch, f) == NameOf(batch, g) ==> f == g
  }

  method ExpectedNames(batch: StagingBatch) returns (r: Option<map<string, FileId>>)
    ensures r.Some? ==> Expects(batch, r.value, |batch.files|) && NamesDiffer(batch)
  {
    var expected: map<string, FileId> := map[];
    var i := 0;
    while i < |batch.files|
      invariant 0 <= i <= |batch.files| && Expects(batch, expected, i)
    {
      var f := batch.files[i];
      var name := NameOf(batch, f);
      if name == "" || '/' in name || '\\' in name || name in expected { return None; }
      assert batch.files[..i + 1] == batch.files[..i] + [f];
      expected := expected[name := f];
      i := i + 1;
    }
    assert batch.files[..i] == batch.files;
    forall f, g | f in batch.files && g in batch.files && NameOf(batch, f) == NameOf(batch, g) ensures f == g {}
    r := Some(expected);
  }

  predicate Acceptable(batch: StagingBatch, expected: map<string, FileId>, item: ListedObject) {
    && item.fsId > 0 && item.name in expected && !item.isDir && expected[item.name] in batch.rows
    && item.size == batch.rows[expected[item.name]].size
    && (batch.rows[expected[item.name]].md5 == "" || item.md5 == "" || batch.rows[expected[item.name]].md5 == item.md5)
  }

  /** The loop over the listing: who is present, and under which path. */
  ghost predicate Shows(expected: map<string, FileId>, items: seq<ListedObject>, staged: map<FileId, StagingPath>, n: nat)
    requires n <= |items|
  {
    && (forall i :: 0 <= i < n ==> items[i].name in expected && expected[items[i].name] in staged)
    && (forall f :: f in staged ==> exists i :: 0 <= i < n && items[i].name in expected && expected[items[i].name] == f)
  }

  method CheckListing(batch: StagingBatch, expected: map<string, FileId>, items: seq<ListedObject>) returns (r: Option<map<FileId, StagingPath>>)
    ensures r.Some? ==> Shows(expected, items, r.value, |items|)
  {
    var staged: map<FileId, StagingPath> := map[];
    var seenIds: set<int>, seenNames: set<string> := {}, {};
    var i := 0;
    while i < |items|
      invariant 0 <= i <= |items| && Shows(expected, items, staged, i)
    {
      var item := items[i];
      if item.fsId in seenIds || item.name in seenNames || !Acceptable(batch, expected, item) { return None; }
      seenIds, seenNames := seenIds + {item.fsId}, seenNames + {item.name};
      var f := expected[item.name];
      ghost var before := staged;
      staged := staged[f := if item.path == NoStaging then StagedFile(batch.batch, item.name) else item.path];
      forall g | g in staged ensures exists j :: 0 <= j < i + 1 && items[j].name in expected && expected[items[j].name] == g {
        if g == f {
          assert items[i].name in expected;
        } else {
          assert g in before;
        }
      }
      i := i + 1;
    }
    r := Some(staged);
  }

  /** Files of the batch without a staged object, in order. */
  method StillMissing(batch: StagingBatch, present: set<FileId>) returns (missing: seq<FileId>)
    requires Distinct(batch.files)
    ensures Distinct(missing) && forall f :: f in missing <==> f in batch.files && f !in present
  {
    missing := [];
    var i := 0;
    while i < |batch.files|
      invariant 0 <= i <= |batch.files| && Distinct(missing)
      invariant forall f :: f in missing <==> f in batch.files[..i] && f !in present
    {
      var f := batch.files[i];
      assert batch.files[..i + 1] == batch.files[..i] + [f] && f !in batch.files[..i];
      if f !in present { missing := missing + [f]; }
      i := i + 1;
    }
    assert batch.files[..i] == batch.files;
  }

  predicate Absent(s: Snap, batch: StagingBatch, f: FileId) {
    batch.batch in s.baidu.dirs ==> NameOf(batch, f) !in s.baidu.dirs[batch.batch]
  }

  predicate Present(s: Snap, batch: StagingBatch, f: FileId) {
    batch.batch in s.baidu.dirs && NameOf(batch, f) in s.baidu.dirs[batch.batch]
  }

  /** A truthful listing that passed the checks tells exactly which files are there. */
  lemma ListingTells(s: Snap, batch: StagingBatch, expected: map<string, FileId>, items: seq<ListedObject>, staged: map<FileId, StagingPath>)
    requires Truthful(s.baidu, BatchDir(batch.batch), Found(items))
    requires Expects(batch, expected, |batch.files|) && Shows(expected, items, staged, |items|)
    ensures forall f :: f in batch.files ==> if f in staged then Present(s, batch, f) else Absent(s, batch, f)
    ensures forall f :: f in staged ==> f in batch.files
  {
    assert batch.files[..|batch.files|] == batch.files;
    var dir := s.baidu.dirs[batch.batch];
    forall f | f in batch.files ensures if f in staged then Present(s, batch, f) else Absent(s, batch, f) {
      if f in staged {
        var i :| 0 <= i < |items| && items[i].name in expected && expected[items[i].name] == f;
        assert Reports(dir, batch.batch, items[i]);
      }
    }
  }

  /** What must hold for a batch to be staged. */
  ghost predicate Ready(k: Rules, w: World, batch: StagingBatch)
    reads w
  {
    && w.Valid() && Governs(k, w) && Describes(w.db, batch) && Claim(w.db, batch.batch) <= k.maxCache
    && StageTurn(k.maxCache, w.db, batch.batch)
  }

  /** What holds all the while a batch is being staged. */
  ghost predicate InStage(k: Rules, w: World, batch: StagingBatch)
    reads w
  {
    w.Valid() && Governs(k, w) && Describes(w.db, batch) && Claim(w.db, batch.batch) <= k.maxCache && InTurn(k.maxCache, w.db, batch.batch)
  }

  /** The recording step of a reconciliation was lawful and left the stage as it was. */
  lemma Recorded(k: Rules, a: Trace, w: World, start: Snap, batch: StagingBatch, staged: map<FileId, StagingPath>)
    requires |a.states| == |a.moves| + 1 && a.states[|a.moves|] == start
    requires Describes(start.db, batch) && Claim(start.db, batch.batch) <= k.maxCache && CanRecordStaged(start.db, batch.batch, staged)
    requires InTurn(k.maxCache, start.db, batch.batch)
    requires w.Valid() && Governs(k, w) && w.Now() == start.(db := AfterRecordStaged(start.db, staged))
    requires w.History() == Trace(a.states + [w.Now()], a.moves + [Tx(RecordStaged(batch.batch, staged))])
    requires k.honest ==> forall f :: f in staged ==> Present(start, batch, f)
    ensures Lawfully(k, a, w.History()) && InStage(k, w, batch) && OnlyBatch(start.db, w.db, batch.batch)
    ensures forall f :: f in staged && f in w.db.files ==> StagedOrLater(w.db.files[f].status)
  {
    hide LawfulFrom, LawfulStep, StageTurn, OnlyBatch, Potential, Claim;
    var b := batch.batch;
    RecordingOnlyBatch(start.db, b, staged);
    TurnOn(k.maxCache, start.db, w.db, b);
    ClaimKept(start.db, w.db, b);
    PotentialWithinClaim(w.db, b);
    OnlyBatchKeeps(start.db, w.db, batch);
    forall f | f in staged ensures f in batch.files { assert CanConfirm(start.db, b, f, staged[f]); }
    assert LawfulTx(k, start, RecordStaged(b, staged));
    TxStepped(k, a, w, RecordStaged(b, staged));
  }

  /** What a successful reconciliation tells of the files of the batch. */
  ghost predicate Told(s: Snap, batch: StagingBatch, missing: seq<FileId>) {
    forall f :: f in batch.files ==> if f in missing then Absent(s, batch, f) else Present(s, batch, f)
  }

  /** Records what a checked listing showed. */
  method RecordPresent(w: World, ghost k: Rules, batch: StagingBatch, staged: map<FileId, StagingPath>) returns (ok: bool)
    requires InStage(k, w, batch) && (w.honest ==> forall f :: f in staged ==> Present(w.Now(), batch, f))
    modifies w
    ensures InStage(k, w, batch) && Lawfully(k, old(w.History()), w.History()) && OnlyBatch(old(w.db), w.db, batch.batch)
    ensures TransferCount(w.moves) == TransferCount(old(w.moves)) && w.baidu == old(w.baidu)
    ensures ok ==> forall f :: f in staged && f in w.db.files ==> StagedOrLater(w.db.files[f].status)
  {
    hide LawfulFrom, Attempt, LawfulStep, Describes, Claim, InTurn;
    ghost var a, start := w.History(), w.Now();
    Idle(k, a);
    ok := RecordStagedFiles(w, batch.batch, staged);
    if ok && staged != map[] {
      RecordedTx(start.db, w.db, batch.batch, staged);
      Recorded(k, a, w, start, batch, staged);
    }
  }

  /** reconcile: lists the directory, refuses anything unexpected, records what is there. */
  method Reconcile(w: World, ghost k: Rules, batch: StagingBatch) returns (r: Reconciled)
    requires InStage(k, w, batch)
    modifies w
    ensures InStage(k, w, batch) && Lawfully(k, old(w.History()), w.History()) && OnlyBatch(old(w.db), w.db, batch.batch)
    ensures TransferCount(w.moves) == TransferCount(old(w.moves)) && w.baidu == old(w.baidu)
    ensures r.StillAway? ==> Distinct(r.files) && (forall f :: f in r.files ==> f in batch.files) && NamesDiffer(batch)
    ensures r.StillAway? && w.honest ==> Told(w.Now(), batch, r.files)
    ensures r.StillAway? ==> StagedBut(w.db, batch.files, r.files)
  {
    hide Lawfully, Step, Claim, Truthful, Expects, Shows, InTurn;
    ghost var start := w.Now();
    assert Lawfully(k, w.History(), w.History()) by { Idle(k, w.History()); }
    var seen := w.Observe(BatchDir(batch.batch));
    if !seen.Found? { return NotReconciled(false); }
    var expected := ExpectedNames(batch);
    if expected.None? { return NotReconciled(true); }
    var staged := CheckListing(batch, expected.value, seen.items);
    if staged.None? { return NotReconciled(true); }
    if w.honest { ListingTells(start, batch, expected.value, seen.items, staged.value); }
    var ok := RecordPresent(w, k, batch, staged.value);
    if !ok { return NotReconciled(false); }
    var missing := StillMissing(batch, staged.value.Keys);
    r := StillAway(missing);
  }

  lemma RecordedTx(db: Db, db': Db, b: BatchId, staged: map<FileId, StagingPath>)
    requires Attempt(db, RecordStaged(b, staged)) == Some(db')
    ensures CanRecordStaged(db, b, staged) && db' == AfterRecordStaged(db, staged)
  {
  }

  /** How many TransferFiles calls a history holds. */
  function TransferCount(moves: seq<Move>): nat {
    if moves == [] then 0
    else TransferCount(moves[..|moves| - 1]) + if moves[|moves| - 1].Transfer? then 1 else 0
  }

  // ----- transfers -------------------------------------------------------------

  /** Of the batch's files that were absent, none but the given ones may have appeared. */
  ghost predicate Spares(s: Snap, s': Snap, batch: StagingBatch, files: seq<FileId>) {
    forall f :: f in batch.files && f !in files && Absent(s, batch, f) ==> Absent(s', batch, f)
  }

  ghost predicate AllAbsent(s: Snap, batch: StagingBatch, files: seq<FileId>) {
    forall f :: f in files ==> Absent(s, batch, f)
  }

  /** Some files of the batch, each once. */
  ghost predicate Part(batch: StagingBatch, files: seq<FileId>) {
    Distinct(files) && forall f :: f in files ==> f in batch.files
  }

  lemma SendSpares(s: Snap, s': Snap, batch: StagingBatch, ids: seq<FileId>)
    requires Describes(s.db, batch) && NamesDiffer(batch) && Part(batch, ids) && s'.baidu.dirs.Keys == s.baidu.dirs.Keys
    requires HonestTransfer(s, s', batch.batch, ids)
    ensures Spares(s, s', batch, ids)
  {
    forall f | f in batch.files && f !in ids && Absent(s, batch, f) ensures Absent(s', batch, f) {
      if batch.batch in s.baidu.dirs && NameOf(batch, f) in s'.baidu.dirs[batch.batch] {
        assert false;
      }
    }
  }

  lemma SendLawful(k: Rules, s: Snap, s': Snap, batch: StagingBatch, ids: seq<FileId>)
    requires Describes(s.db, batch) && Part(batch, ids) && InTurn(k.maxCache, s.db, batch.batch)
    requires k.honest ==> AllAbsent(s, batch, ids) && HonestTransfer(s, s', batch.batch, ids)
    ensures LawfulStep(k, s, Transfer(batch.batch, ids), s')
  {
    if k.honest {
      forall f | f in ids
        ensures f in FilesOf(s.db, batch.batch) && f in s.db.files
        ensures batch.batch in s.baidu.dirs ==> Base(s.db.files[f].path) !in s.baidu.dirs[batch.batch]
      {
        assert Absent(s, batch, f);
      }
    }
  }

  /** One TransferFiles call for files that have not appeared. */
  method Send(w: World, ghost k: Rules, batch: StagingBatch, ids: seq<FileId>) returns (answer: TransferAnswer)
    requires InStage(k, w, batch) && Part(batch, ids) && NamesDiffer(batch) && (w.honest ==> AllAbsent(w.Now(), batch, ids))
    modifies w
    ensures InStage(k, w, batch) && Lawfully(k, old(w.History()), w.History()) && w.db == old(w.db)
    ensures TransferCount(w.moves) == TransferCount(old(w.moves)) + 1
    ensures w.honest ==> Spares(old(w.Now()), w.Now(), batch, ids)
  {
    hide LawfulFrom, Describes, Claim, HonestTransfer, LawfulStep, InTurn;
    ghost var a, start := w.History(), w.Now();
    answer := w.TransferFiles(batch.batch, ids);
    SendLawful(k, start, w.Now(), batch, ids);
    Stepped(k, a, w, Transfer(batch.batch, ids));
    if w.honest { TransferKeepsDirs(w, batch.batch, ids); SendSpares(start, w.Now(), batch, ids); }
  }

  lemma TransferKeepsDirs(w: World, b: BatchId, ids: seq<FileId>)
    requires w.Valid() && w.moves != [] && w.moves[|w.moves| - 1] == Transfer(b, ids)
    ensures w.baidu.dirs.Keys == w.states[|w.moves| - 1].baidu.dirs.Keys
  {
    var n := |w.moves| - 1;
    assert Step(w.states[n], w.moves[n], w.states[n + 1]);
  }

  /** sourceIDs: every source must be a positive fs_id. */
  predicate SourceIds(files: seq<FileId>) {
    forall f :: f in files ==> f > 0
  }

  /** intersectMissing. */
  method IntersectMissing(current: seq<FileId>, missing: seq<FileId>) returns (r: seq<FileId>)
    requires Distinct(current)
    ensures Distinct(r) && |r| <= |current| && (forall f :: f in r <==> f in current && f in missing)
    ensures |r| == |current| ==> r == current
  {
    r := [];
    var i := 0;
    while i < |current|
      invariant 0 <= i <= |current| && Distinct(r) && |r| <= i && (|r| == i ==> r == current[..i])
      invariant forall f :: f in r <==> f in current[..i] && f in missing
    {
      assert current[..i + 1] == current[..i] + [current[i]] && current[i] !in current[..i];
      if current[i] in missing { r := r + [current[i]]; }
      i := i + 1;
    }
    assert current[..i] == current;
  }

  function Attempts(maxAttempts: int): nat {
    if maxAttempts <= 0 then 3 else maxAttempts
  }

  /** a times x, kept out of the solver's sight. */
  function Product(a: nat, x: int): int {
    a * x
  }

  lemma Times(a: nat, x: int, y: int)
    requires x <= y
    ensures Product(a, x) <= Product(a, y)
  {
  }

  lemma Plus(a: nat, x: int, y: int)
    ensures Product(a, x) + Product(a, y) == Product(a, x + y) && Product(a, 1) == a && Product(a, 0) == 0
  {
  }

  /** Calls spent on larger remainders, on this one, and on a split of what is still missing. */
  lemma SubsetBudget(a: nat, n: nat, c: nat, m: nat, spent: int, split: int)
    requires 1 <= m <= c <= n && spent <= Product(a, n - c) + a && (split == 0 || split <= Product(a, 2 * m - 2))
    ensures spent + split <= Product(a, 2 * n - 1) && spent <= Product(a, 2 * n - 1)
    ensures m < c ==> spent <= Product(a, n - m)
  {
    hide Product;
    Plus(a, n - c, 1);
    Times(a, 0, 2 * m - 2);
    Plus(a, n - c + 1, 2 * m - 2);
    Times(a, n - c + 1 + 2 * m - 2, 2 * n - 1);
    if m < c { Times(a, n - c + 1, n - m); }
  }

  /** A stretch of staging since the point a, where the state was start: only files may have appeared. */
  ghost predicate Underway(k: Rules, a: Trace, start: Snap, w: World, batch: StagingBatch, files: seq<FileId>)
    reads w
  {
    && InStage(k, w, batch) && Lawfully(k, a, w.History()) && OnlyBatch(start.db, w.db, batch.batch)
    && (w.honest ==> Spares(start, w.Now(), batch, files))
  }

  lemma UnderwayStart(k: Rules, w: World, batch: StagingBatch, files: seq<FileId>)
    requires InStage(k, w, batch)
    ensures Underway(k, w.History(), w.Now(), w, batch, files)
  {
    Idle(k, w.History());
  }

  /** It goes on with a stretch in which only some of those files may have appeared. */
  lemma UnderwayOn(k: Rules, a: Trace, start: Snap, w: World, batch: StagingBatch, files: seq<FileId>, mid: Trace, at: Snap, before: seq<FileId>, sub: seq<FileId>)
    requires Lawfully(k, a, mid) && OnlyBatch(start.db, at.db, batch.batch) && (w.honest ==> Spares(start, at, batch, before))
    requires InStage(k, w, batch) && Lawfully(k, mid, w.History()) && OnlyBatch(at.db, w.db, batch.batch)
    requires w.honest ==> Spares(at, w.Now(), batch, sub)
    requires (forall f :: f in before ==> f in files) && forall f :: f in sub ==> f in files
    ensures Underway(k, a, start, w, batch, files)
  {
    hide LawfulFrom, Describes, Claim, InTurn;
    LawfullyThen(k, a, mid, w.History());
    OnlyBatchTransitive(start.db, at.db, w.db, batch.batch);
    if w.honest { SparesOn(start, at, w.Now(), batch, files, before, sub); }
  }

  lemma SparesOn(s: Snap, at: Snap, s': Snap, batch: StagingBatch, files: seq<FileId>, before: seq<FileId>, sub: seq<FileId>)
    requires Spares(s, at, batch, before) && Spares(at, s', batch, sub)
    requires (forall f :: f in before ==> f in files) && forall f :: f in sub ==> f in files
    ensures Spares(s, s', batch, files)
  {
  }

  /** One call and the reconciliation after it. */
  method SendAndLook(w: World, ghost k: Rules, batch: StagingBatch, current: seq<FileId>, ghost a: Trace, ghost start: Snap, ghost files: seq<FileId>)
    returns (answer: TransferAnswer, reconciled: Reconciled)
    requires Underway(k, a, start, w, batch, files) && Part(batch, current) && NamesDiffer(batch) && (w.honest ==> AllAbsent(w.Now(), batch, current))
    requires forall f :: f in current ==> f in files
    modifies w
    ensures Underway(k, a, start, w, batch, files)
    ensures TransferCount(w.moves) == TransferCount(old(w.moves)) + 1
    ensures reconciled.StillAway? ==> Part(batch, reconciled.files) && (w.honest ==> AllAbsent(w.Now(), batch, reconciled.files))
    ensures OnlyBatch(old(w.db), w.db, batch.batch) && (reconciled.StillAway? ==> StagedBut(w.db, batch.files, reconciled.files))
  {
    hide Lawfully, Step, Claim, Describes, OnlyBatch, TransferCount, NamesDiffer, Spares, StagedBut, InTurn;
    ghost var h0, s0 := w.History(), w.Now();
    answer := Send(w, k, batch, current);
    UnderwaySame(s0.db, batch.batch);
    UnderwayOn(k, a, start, w, batch, files, h0, s0, files, current);
    ghost var h1, s1 := w.History(), w.Now();
    reconciled := Reconcile(w, k, batch);
    if w.honest { SameDirsSpare(s1, w.Now(), batch); }
    UnderwayOn(k, a, start, w, batch, files, h1, s1, files, []);
  }

  lemma UnderwaySame(db: Db, b: BatchId)
    ensures OnlyBatch(db, db, b)
  {
  }

  lemma SameDirsSpare(s: Snap, s': Snap, batch: StagingBatch)
    requires s'.baidu == s.baidu
    ensures Spares(s, s', batch, [])
  {
  }

  /** transferSubset: sends what is missing, again and again, until it has appeared or the attempts are used up. */
  method TransferSubset(w: World, ghost k: Rules, batch: StagingBatch, files: seq<FileId>, maxAttempts: int) returns (r: Outcome)
    requires InStage(k, w, batch) && Part(batch, files) && NamesDiffer(batch) && (w.honest ==> AllAbsent(w.Now(), batch, files))
    modifies w
    ensures InStage(k, w, batch) && Lawfully(k, old(w.History()), w.History()) && OnlyBatch(old(w.db), w.db, batch.batch)
    ensures |files| >= 1 ==> TransferCount(w.moves) - TransferCount(old(w.moves)) <= Product(Attempts(maxAttempts), 2 * |files| - 1)
    ensures w.honest ==> Spares(old(w.Now()), w.Now(), batch, files)
    ensures r.Ok? ==> AllStaged(w.db, files)
    decreases |files|, 1
  {
    hide Lawfully, Step, Claim, Describes, OnlyBatch, TransferCount, NamesDiffer, Spares, Product, AllStaged, StagedBut, InTurn;
    ghost var a, start := w.History(), w.Now();
    UnderwayStart(k, w, batch, files);
    NothingSent(w.db, files);
    if |files| == 0 { return Ok; }
    var attempts := Attempts(maxAttempts);
    var current := files;
    var attempt := 0;
    Plus(attempts, 0, 0);
    while attempt < attempts
      invariant Underway(k, a, start, w, batch, files) && Part(batch, current) && (w.honest ==> AllAbsent(w.Now(), batch, current))
      invariant 1 <= |current| <= |files| && (forall f :: f in current ==> f in files) && 0 <= attempt <= attempts
      invariant TransferCount(w.moves) - TransferCount(a.moves) <= Product(attempts, |files| - |current|) + attempt
      invariant StagedBut(w.db, files, current)
      decreases |current|, attempts - attempt
    {
      SubsetBudget(attempts, |files|, |current|, 1, TransferCount(w.moves) - TransferCount(a.moves), 0);
      if !SourceIds(current) { return Err(true); }
      ghost var before := w.db;
      var answer, reconciled := SendAndLook(w, k, batch, current, a, start, files);
      SubsetBudget(attempts, |files|, |current|, 1, TransferCount(w.moves) - TransferCount(a.moves), 0);
      if reconciled.NotReconciled? { return Err(reconciled.permanent); }
      var missing := IntersectMissing(current, reconciled.files);
      RemainderShrinks(before, w.db, batch, files, current, reconciled.files, missing);
      ghost var spent := TransferCount(w.moves) - TransferCount(a.moves);
      if |missing| == 0 {
        SubsetBudget(attempts, |files|, |current|, 1, spent, 0);
        NoneLeft(w.db, files, missing);
        return Ok;
      }
      SubsetBudget(attempts, |files|, |current|, |missing|, spent, 0);
      var progress := |missing| < |current|;
      if answer.LimitExceeded? || (answer.Conflict? && |missing| != 1) {
        ghost var mid, at := w.History(), w.Now();
        r := TransferSplit(w, k, batch, missing, if answer.LimitExceeded? then answer.limit else 0, maxAttempts);
        UnderwayOn(k, a, start, w, batch, files, mid, at, files, missing);
        StagedButKept(at.db, w.db, batch.batch, files, missing);
        if r.Ok? { NoneLeft(w.db, files, missing); }
        SubsetBudget(attempts, |files|, |current|, |missing|, spent, TransferCount(w.moves) - TransferCount(mid.moves));
        return;
      }
      if answer.NeedsUser? { return Err(false); }
      if answer.Conflict? { return Err(true); }
      if progress {
        current, attempt := missing, 0;
        continue;
      }
      if attempt + 1 >= attempts { return Err(false); }
      var cancelled := w.Fails();
      if cancelled { return Err(false); }
      attempt := attempt + 1;
    }
    SubsetBudget(attempts, |files|, |current|, 1, TransferCount(w.moves) - TransferCount(a.moves), 0);
    r := Err(false);
  }

  lemma NothingSent(db: Db, files: seq<FileId>)
    ensures StagedBut(db, files, files) && (files == [] ==> AllStaged(db, files))
  {
  }

  function ChunkSize(n: nat, serviceLimit: int): (size: nat)
    requires n >= 2
    ensures 1 <= size < n
  {
    if serviceLimit <= 0 || serviceLimit >= n then (n + 1) / 2 else serviceLimit
  }

  /** Calls spent on the chunks before position start, and on one more chunk. */
  lemma SplitBudget(a: nat, n: nat, size: nat, start: nat, end: nat, done: nat, spent: int, more: int)
    requires 1 <= size < n && start < end <= n && (start == 0 ==> done == 0 && end == size) && (start > 0 ==> done >= 1)
    requires spent <= Product(a, 2 * start - done) && more <= Product(a, 2 * (end - start) - 1)
    ensures spent + more <= Product(a, 2 * end - (done + 1)) && spent + more <= Product(a, 2 * n - 2)
  {
    hide Product;
    Plus(a, 2 * start - done, 2 * (end - start) - 1);
    assert 2 * start - done + (2 * (end - start) - 1) == 2 * end - (done + 1);
    Times(a, 2 * end - (done + 1), 2 * n - 2);
  }

  lemma SliceWithin(files: seq<FileId>, start: nat, end: nat)
    requires start <= end <= |files|
    ensures forall f :: f in files[..start] ==> f in files[..end] && f in files
    ensures forall f :: f in files[start..end] ==> f in files[..end] && f in files
  {
    assert files[..end] == files[..start] + files[start..end];
    assert files == files[..end] + files[end..];
  }

  /** The files of a later chunk have not appeared while earlier chunks were sent. */
  lemma ChunkReady(s: Snap, at: Snap, batch: StagingBatch, files: seq<FileId>, start: nat, end: nat, honest: bool)
    requires start <= end <= |files| && Part(batch, files)
    requires honest ==> AllAbsent(s, batch, files) && Spares(s, at, batch, files[..start])
    ensures Part(batch, files[start..end]) && (honest ==> AllAbsent(at, batch, files[start..end]))
  {
    SliceWithin(files, start, end);
    forall f | f in files[start..end] ensures f !in files[..start] {
      var i :| start <= i < end && files[i] == f;
      forall j | 0 <= j < start ensures files[j] != f {}
    }
    forall i, j | 0 <= i < j < end - start ensures files[start..end][i] != files[start..end][j] { assert files[start + i] != files[start + j]; }
  }

  /** transferSplit: the same files in at least two smaller portions. */
  method TransferSplit(w: World, ghost k: Rules, batch: StagingBatch, files: seq<FileId>, serviceLimit: int, maxAttempts: int) returns (r: Outcome)
    requires InStage(k, w, batch) && Part(batch, files) && NamesDiffer(batch) && (w.honest ==> AllAbsent(w.Now(), batch, files))
    requires |files| >= 1
    modifies w
    ensures InStage(k, w, batch) && Lawfully(k, old(w.History()), w.History()) && OnlyBatch(old(w.db), w.db, batch.batch)
    ensures TransferCount(w.moves) - TransferCount(old(w.moves)) <= Product(Attempts(maxAttempts), 2 * |files| - 2)
    ensures w.honest ==> Spares(old(w.Now()), w.Now(), batch, files)
    ensures r.Ok? ==> AllStaged(w.db, files)
    decreases |files|, 0
  {
    hide Lawfully, Step, Claim, Describes, OnlyBatch, TransferCount, NamesDiffer, Spares, Product, AllStaged, InTurn;
    ghost var a, start0 := w.History(), w.Now();
    UnderwayStart(k, w, batch, files);
    UnderwayStart(k, w, batch, []);
    assert files[..0] == [];
    NothingSent(w.db, []);
    Plus(Attempts(maxAttempts), 0, 0);
    if |files| <= 1 { return Err(true); }
    var chunkSize := ChunkSize(|files|, serviceLimit);
    var start := 0;
    ghost var done := 0;
    while start < |files|
      invariant 0 <= start <= |files| && Underway(k, a, start0, w, batch, files[..start]) && (start == 0 <==> done == 0)
      invariant TransferCount(w.moves) - TransferCount(a.moves) <= Product(Attempts(maxAttempts), 2 * start - done)
      invariant AllStaged(w.db, files[..start])
      invariant start == |files| ==> TransferCount(w.moves) - TransferCount(a.moves) <= Product(Attempts(maxAttempts), 2 * |files| - 2)
      decreases |files| - start
    {
      var end := if start + chunkSize > |files| then |files| else start + chunkSize;
      ghost var mid, at := w.History(), w.Now();
      ChunkReady(start0, at, batch, files, start, end, w.honest);
      SliceWithin(files, start, end);
      r := TransferSubset(w, k, batch, files[start..end], maxAttempts);
      UnderwayOn(k, a, start0, w, batch, files[..end], mid, at, files[..start], files[start..end]);
      StagedKept(at.db, w.db, batch.batch, files[..start]);
      SplitBudget(Attempts(maxAttempts), |files|, chunkSize, start, end, done, TransferCount(mid.moves) - TransferCount(a.moves), TransferCount(w.moves) - TransferCount(mid.moves));
      if !r.Ok? {
        UnderwayOn(k, a, start0, w, batch, files, mid, at, files[..start], files[start..end]);
        return;
      }
      StagedJoin(w.db, files, start, end);
      start, done := end, done + 1;
    }
    assert files[..start] == files;
    r := Ok;
  }

  // ----- whole batches ---------------------------------------------------------

  lemma StartOnlyBatch(db: Db, db': Db, b: BatchId)
    requires Attempt(db, Op.StartBatch(b)) == Some(db')
    ensures OnlyBatch(db, db', b) && BeingStaged(db', b)
  {
  }

  lemma CompletedTx(db: Db, db': Db, b: BatchId)
    requires Attempt(db, Op.CompleteBatch(b)) == Some(db')
    ensures b in db'.batches && db'.batches[b].status.BatchStaged? && db'.files == db.files && db'.members == db.members
  {
  }

  lemma ReadDescribes(db: Db, batch: StagingBatch)
    requires IsStagingBatch(db, batch)
    ensures Describes(db, batch)
  {
  }

  /** Marks the batch as being staged and makes its directory. */
  method OpenBatch(w: World, ghost k: Rules, batch: StagingBatch) returns (ok: bool)
    requires Ready(k, w, batch)
    modifies w
    ensures w.Valid() && Governs(k, w) && Lawfully(k, old(w.History()), w.History())
    ensures (ok ==> InStage(k, w, batch)) && TransferCount(w.moves) == TransferCount(old(w.moves))
    ensures OnlyBatch(old(w.db), w.db, batch.batch)
  {
    hide LawfulFrom, Claim, Describes, Attempt, HonestMake, OnlyBatch, StageTurn;
    ghost var a, db := w.History(), w.db;
    UnderwaySame(db, batch.batch);
    ok := StagingStore.StartBatch(w, batch.batch);
    TxStepped(k, a, w, Op.StartBatch(batch.batch));
    if !ok { return; }
    StartOnlyBatch(db, w.db, batch.batch);
    TurnOn(k.maxCache, db, w.db, batch.batch);
    OnlyBatchKeeps(db, w.db, batch);
    ghost var b := w.History();
    assert batch.batch in w.db.batches by { DescribedBatch(w.db, batch); }
    ok := w.EnsureStagingDirectory(batch.batch);
    Stepped(k, b, w, MakeStaging(batch.batch));
    LawfullyThen(k, a, b, w.History());
  }

  lemma DescribedBatch(db: Db, batch: StagingBatch)
    requires Describes(db, batch)
    ensures batch.batch in db.batches && Distinct(batch.files) && forall f :: f in batch.files ==> f in db.files
  {
  }

  lemma OnlyBatchKeeps(db: Db, db': Db, batch: StagingBatch)
    requires OnlyBatch(db, db', batch.batch) && Describes(db, batch)
    ensures Describes(db', batch) && Claim(db', batch.batch) == Claim(db, batch.batch)
  {
    DescribesKept(db, db', batch);
    ClaimKept(db, db', batch.batch);
  }

  /** Every file of the batch is staged or further on; a true remote shows every one of them. */
  ghost predicate FullyStaged(w: World, batch: StagingBatch)
    reads w
  {
    && batch.batch in w.db.batches && w.db.batches[batch.batch].status.BatchStaged?
    && AllStaged(w.db, batch.files)
    && (w.honest ==> forall f :: f in batch.files ==> Present(w.Now(), batch, f))
  }

  /** stageBatch. */
  method StageBatch(w: World, ghost k: Rules, batch: StagingBatch, maxAttempts: int) returns (r: Outcome)
    requires Ready(k, w, batch)
    modifies w
    ensures w.Valid() && Governs(k, w) && Lawfully(k, old(w.History()), w.History())
    ensures r.Ok? ==> FullyStaged(w, batch) && w.db.members == old(w.db).members
    ensures r.Err? ==> OnlyBatch(old(w.db), w.db, batch.batch)
    ensures r == Err(true) ==> |batch.files| == 0 || BeingStaged(w.db, batch.batch)
    ensures |batch.files| >= 1 ==> TransferCount(w.moves) - TransferCount(old(w.moves)) <= Product(Attempts(maxAttempts), 2 * |batch.files| - 1)
  {
    hide Lawfully, Step, Claim, Describes, TransferCount, Spares, Product, Attempt, OnlyBatch, StageTurn;
    ghost var a, db := w.History(), w.db;
    Idle(k, a);
    UnderwaySame(db, batch.batch);
    NoCalls(Attempts(maxAttempts), |batch.files|);
    if |batch.files| == 0 { return Err(true); }
    var ok := OpenBatch(w, k, batch);
    if !ok { return Err(false); }
    ghost var b, begun := w.History(), w.db;
    var first := Reconcile(w, k, batch);
    LawfullyThen(k, a, b, w.History());
    OnlyBatchTransitive(db, begun, w.db, batch.batch);
    if first.NotReconciled? { return Err(first.permanent); }
    ghost var c, looked := w.History(), w.db;
    if |first.files| > 0 {
      DescribedBatch(w.db, batch);
      PartSize(batch, first.files);
      Times(Attempts(maxAttempts), 2 * |first.files| - 1, 2 * |batch.files| - 1);
      r := TransferSubset(w, k, batch, first.files, maxAttempts);
      LawfullyThen(k, a, c, w.History());
      OnlyBatchTransitive(db, looked, w.db, batch.batch);
      if !r.Ok? { return; }
    }
    ghost var d, sent := w.History(), w.db;
    var second := Reconcile(w, k, batch);
    LawfullyThen(k, a, d, w.History());
    OnlyBatchTransitive(db, sent, w.db, batch.batch);
    if second.NotReconciled? { return Err(second.permanent); }
    if |second.files| != 0 { return Err(false); }
    ghost var e := w.History();
    DescribedBatch(w.db, batch);
    SameMembers(db, w.db, batch.batch);
    r := CloseBatch(w, k, batch);
    LawfullyThen(k, a, e, w.History());
  }

  lemma SameMembers(db: Db, db': Db, b: BatchId)
    requires OnlyBatch(db, db', b)
    ensures db'.members == db.members
  {
  }

  lemma NoCalls(a: nat, n: nat)
    ensures n >= 1 ==> Product(a, 2 * n - 1) >= 0
  {
    if n >= 1 {
      Plus(a, 0, 0);
      Times(a, 0, 2 * n - 1);
    }
  }

  lemma PartSize(batch: StagingBatch, files: seq<FileId>)
    requires Part(batch, files) && Distinct(batch.files)
    ensures |files| <= |batch.files|
  {
    Counting.DistinctSize(files);
    Counting.DistinctSize(batch.files);
    forall x | x in files ensures x in batch.files {}
    Counting.SubsetCardinality(set x | x in files, set x | x in batch.files);
  }

  /** Records the batch as staged once all its files are. */
  method CloseBatch(w: World, ghost k: Rules, batch: StagingBatch) returns (r: Outcome)
    requires InStage(k, w, batch)
    requires AllStaged(w.db, batch.files)
    requires w.honest ==> forall f :: f in batch.files ==> Present(w.Now(), batch, f)
    modifies w
    ensures w.Valid() && Governs(k, w) && Lawfully(k, old(w.History()), w.History())
    ensures r.Ok? ==> FullyStaged(w, batch) && w.db.members == old(w.db).members
    ensures r.Err? ==> w.db == old(w.db)
    ensures TransferCount(w.moves) == TransferCount(old(w.moves))
  {
    hide LawfulFrom, Claim, Describes, Attempt, Step, StageTurn;
    ghost var a, db := w.History(), w.db;
    var ok := StagingStore.CompleteBatch(w, batch.batch);
    TxStepped(k, a, w, Op.CompleteBatch(batch.batch));
    if ok { CompletedTx(db, w.db, batch.batch); }
    r := if ok then Ok else Err(false);
  }
}
