/** What the program as a whole may do: the evidence each step must have before it is taken.
    Every engine is proved to take lawful steps only; what lawful steps add up to is proved
    of all runs at once. */
module Laws {
  import opened Wrappers
  import opened Model
  import opened Tables
  import opened Transactions
  import opened Durable
  import opened Progresses
  import opened Worlds
  import opened ManifestStore
  import StagingStore
  import Cleanup

  /** share is what the share holds, if it is listed truthfully. */
  datatype Rules = Rules(honest: bool, maxCache: nat, truth: Truth, share: Option<Contents>)

  /** Files in the cache, or staged and therefore free to be downloaded. */
  function Cacheable(db: Db): set<FileId> {
    set f | f in db.files && (HoldsCache(db.files[f].status) || db.files[f].status.BaiduStaged?)
  }

  /** Bytes the cache may come to hold without any further staging. */
  function Potential(db: Db): nat {
    SizeSum(db.files, Cacheable(db))
  }

  /** verifyExisting: the manifest's size, and its MD5 where it gives one. */
  predicate Checks(truth: Truth, row: FileRow, bytes: seq<Byte>) {
    |bytes| == row.size && (row.md5 == "" || truth.md5(bytes) == row.md5)
  }

  /** The cache file of f is there and checks out. */
  predicate CacheHolds(truth: Truth, s: Snap, f: FileId) {
    f in s.db.files && BinFile(f) in s.cache && Checks(truth, s.db.files[f], s.cache[BinFile(f)])
  }

  /** Exactly one Drive object stands at f's path: this one, of f's size and the cache file's MD5. */
  ghost predicate Stored(truth: Truth, s: Snap, f: FileId, id: DriveId) {
    && f in s.db.files && BinFile(f) in s.cache && id in s.drive
    && s.drive[id] == DriveObject(s.db.files[f].path, s.db.files[f].size, truth.md5(s.cache[BinFile(f)]), false)
    && forall other :: other in s.drive && s.drive[other].path == s.db.files[f].path ==> other == id
  }

  /** A server that sends the true bytes from the requested offset on, as far as it gets. */
  predicate Serves(source: seq<Byte>, offset: nat, chunk: seq<Byte>) {
    offset <= |source| && chunk <= source[offset..]
  }

  ghost predicate Appended(k: Rules, f: FileId, before: seq<Byte>, after: seq<Byte>) {
    exists chunk :: after == before + chunk && (k.honest ==> Serves(k.truth.source(f), |before|, chunk))
  }

  /** The batch is being staged: its row says so already. */
  predicate BeingStaged(db: Db, b: BatchId) {
    b in db.batches && db.batches[b].status.BatchStaging?
  }

  /** The admission check: there is room in the cache, and the whole batch fits beside everything that holds cache. */
  predicate Admitted(maxCache: nat, db: Db, b: BatchId) {
    b in db.batches && Reserved(db) < maxCache && Reserved(db) + db.batches[b].totalBytes <= maxCache
  }

  /** Some file has not come to its download: there is work for a staging pass. */
  predicate WorkLeft(db: Db) {
    exists f :: f in db.files && BeforeDownload(db.files[f].status)
  }

  /** The turn is this batch's: it is the first one left to stage and admitted, there is work left, everything
      found is planned, and whatever is staged already is of this batch. */
  predicate StageTurn(maxCache: nat, db: Db, b: BatchId) {
    && StagingStore.IsFirst(db, b) && Admitted(maxCache, db, b) && WorkLeft(db)
    && forall f :: f in db.files ==> !db.files[f].status.Discovered? && (db.files[f].status.BaiduStaged? ==> f in FilesOf(db, b))
  }

  /** It is being staged, in its turn. */
  predicate InTurn(maxCache: nat, db: Db, b: BatchId) {
    BeingStaged(db, b) && StageTurn(maxCache, db, b)
  }

  ghost predicate LawfulTx(k: Rules, s: Snap, op: Op) {
    match op
    case UpsertPage(dirs, files) => !s.db.task.scanCompleted && (k.share.Some? ==> PageOf(k.share.value, Page(dirs, files)))
    case CompleteScan => k.share.Some? ==> Holds(k.share.value, s.db, k.share.value.dirs, k.share.value.files.Keys)
    case Plan(_) => s.db.task.scanCompleted
    case SetTaskStatus(status) => status.TaskCompleted? ==> CompleteDb(s.db) && s.db.task.scanCompleted
    case StartBatch(b) => StageTurn(k.maxCache, s.db, b)
    case CompleteBatch(b) => InTurn(k.maxCache, s.db, b)
    case FailBatch(b, permanent) => StageTurn(k.maxCache, s.db, b) && (permanent ==> BeingStaged(s.db, b))
    case RecordStaged(b, staged) =>
      && InTurn(k.maxCache, s.db, b) && Potential(AfterRecordStaged(s.db, staged)) <= k.maxCache
      && (k.honest ==> forall f :: f in staged && f in s.db.files ==> b in s.baidu.dirs && Base(s.db.files[f].path) in s.baidu.dirs[b])
    case StartDownload(f, c) => c == PartFile(f)
    case MarkLocalReady(f, _) => CacheHolds(k.truth, s, f)
    case RecordUploaded(f, id) => CacheHolds(k.truth, s, f) && (k.honest ==> Stored(k.truth, s, f, id))
    case MarkVerified(f, id) => CacheHolds(k.truth, s, f) && (k.honest ==> Stored(k.truth, s, f, id))
    case _ => true
  }

  /** Files of the batch that its directory does not show yet, each once. */
  ghost predicate NotYetStaged(s: Snap, b: BatchId, ids: seq<FileId>) {
    && Distinct(ids)
    && forall f :: f in ids ==> f in FilesOf(s.db, b) && f in s.db.files && (b in s.baidu.dirs ==> Base(s.db.files[f].path) !in s.baidu.dirs[b])
  }

  predicate BeingDownloaded(s: Snap, p: CachePath) {
    !p.NoCache? && p.file in s.db.files && AwaitsDownload(s.db.files[p.file].status)
  }

  ghost predicate LawfulStep(k: Rules, s: Snap, m: Move, s': Snap) {
    match m
    case Tx(op) => LawfulTx(k, s, op)
    case MakeStaging(b) => InTurn(k.maxCache, s.db, b) && (k.honest ==> HonestMake(s, s', b))
    case Transfer(b, ids) => InTurn(k.maxCache, s.db, b) && (k.honest ==> NotYetStaged(s, b, ids) && HonestTransfer(s, s', b, ids))
    case DiscardLocal(p) => BeingDownloaded(s, p)
    case WriteLocal(p) => p.PartFile? && p.file in s.db.files && s.db.files[p.file].status.Downloading? && p in s'.cache && Appended(k, p.file, PartOf(s.cache, p), s'.cache[p])
    case RenameLocal(part, bin) =>
      && part.PartFile? && bin == BinFile(part.file) && BeingDownloaded(s, part)
      && part in s.cache && Checks(k.truth, s.db.files[part.file], s.cache[part])
    case ListShare(_, page) => !s.db.task.scanCompleted && page >= 1
    case RequestRange(f, offset) => BeingDownloaded(s, PartFile(f)) && offset == |PartOf(s.cache, PartFile(f))|
    case CopyTo(f) =>
      && f in s.db.files && s.db.files[f].status.DriveUploading? && s.db.files[f].driveId == ""
      && (k.honest ==> forall id :: id in s.drive ==> s.drive[id].path != s.db.files[f].path)
    case _ => false
  }

  /** The steps that only the cleanup engine takes. */
  predicate OfCleanup(m: Move) {
    match m
    case Tx(op) => op.AuthorizeBatch? || op.MarkCleaned? || op.CompleteCleanup? || op.AuthorizeRoot?
    case RemoveLocal(_) => true
    case InspectStaging(_, _) => true
    case DeleteStaging(_) => true
    case _ => false
  }

  ghost predicate Lawful(k: Rules, states: seq<Snap>, moves: seq<Move>, i: nat)
    requires i < |moves| && |states| == |moves| + 1
  {
    if OfCleanup(moves[i]) then Cleanup.Legal(k.honest, states[i], moves, i) else LawfulStep(k, states[i], moves[i], states[i + 1])
  }

  ghost predicate LawfulFrom(k: Rules, states: seq<Snap>, moves: seq<Move>, n: nat)
    requires |states| == |moves| + 1
  {
    forall i {:trigger Lawful(k, states, moves, i)} :: n <= i < |moves| ==> Lawful(k, states, moves, i)
  }

  lemma LawfulPrefix(k: Rules, s: seq<Snap>, m: seq<Move>, s': seq<Snap>, m': seq<Move>, i: nat)
    requires |s| == |m| + 1 && |s'| == |m'| + 1 && s <= s' && m <= m' && i < |m|
    ensures Lawful(k, s, m, i) <==> Lawful(k, s', m', i)
  {
    Cleanup.LegalPrefix(k.honest, s[i], m, m', i);
  }

  /** A run that is lawful so far, continued by lawful steps, is lawful. */
  lemma LawfulJoin(k: Rules, s0: seq<Snap>, m0: seq<Move>, s: seq<Snap>, m: seq<Move>, s': seq<Snap>, m': seq<Move>)
    requires |s| == |m| + 1 && |s'| == |m'| + 1 && s0 <= s <= s' && m0 <= m <= m'
    requires LawfulFrom(k, s, m, |m0|) && LawfulFrom(k, s', m', |m|)
    ensures LawfulFrom(k, s', m', |m0|) && s0 <= s' && m0 <= m'
  {
    forall i | |m0| <= i < |m'| ensures Lawful(k, s', m', i) {
      if i < |m| {
        assert Lawful(k, s, m, i);
        LawfulPrefix(k, s, m, s', m', i);
      }
    }
  }

  lemma LawfulOne(k: Rules, s: seq<Snap>, m: seq<Move>, s': Snap, x: Move)
    requires |s| == |m| + 1 && !OfCleanup(x) && LawfulStep(k, s[|m|], x, s')
    ensures LawfulFrom(k, s + [s'], m + [x], |m|)
  {
  }

  /** What the cleanup engine does is lawful. */
  lemma CleanupIsLawful(k: Rules, s: seq<Snap>, m: seq<Move>, n: nat)
    requires |s| == |m| + 1 && Cleanup.LegalFrom(k.honest, s, m, n)
    ensures LawfulFrom(k, s, m, n)
  {
    forall i | n <= i < |m| ensures Lawful(k, s, m, i) {
      assert Cleanup.Legal(k.honest, s[i], m, i);
    }
  }

  // ----- stretches of a world's history --------------------------------------

  /** From one point of a history to a later one, lawful steps only. */
  ghost predicate Lawfully(k: Rules, a: Trace, b: Trace) {
    && |a.states| == |a.moves| + 1 && |b.states| == |b.moves| + 1
    && a.states <= b.states && a.moves <= b.moves
    && LawfulFrom(k, b.states, b.moves, |a.moves|)
  }

  lemma LawfullyThen(k: Rules, a: Trace, b: Trace, c: Trace)
    requires Lawfully(k, a, b) && Lawfully(k, b, c)
    ensures Lawfully(k, a, c)
  {
    LawfulJoin(k, a.states, a.moves, b.states, b.moves, c.states, c.moves);
  }

  lemma Idle(k: Rules, a: Trace)
    requires |a.states| == |a.moves| + 1
    ensures Lawfully(k, a, a)
  {
  }

  /** The rules a world is subject to. */
  ghost predicate Governs(k: Rules, w: World) {
    k.honest == w.honest && k.truth == w.truth
  }

  /** The history grew by this one step, which was lawful. */
  lemma Stepped(k: Rules, a: Trace, w: World, m: Move)
    requires |a.states| == |a.moves| + 1 && w.History() == Trace(a.states + [w.Now()], a.moves + [m])
    requires !OfCleanup(m) && LawfulStep(k, a.states[|a.moves|], m, w.Now())
    ensures Lawfully(k, a, w.History())
  {
    hide LawfulStep, Step;
    LawfulOne(k, a.states, a.moves, w.Now(), m);
  }

  /** The history grew by at most one transaction, which was lawful to commit. */
  lemma TxStepped(k: Rules, a: Trace, w: World, op: Op)
    requires |a.states| == |a.moves| + 1
    requires w.History() == a || w.History() == Trace(a.states + [w.Now()], a.moves + [Tx(op)])
    requires !OfCleanup(Tx(op)) && LawfulTx(k, a.states[|a.moves|], op)
    ensures Lawfully(k, a, w.History())
  {
    hide Step, LawfulTx;
    if w.History() != a { Stepped(k, a, w, Tx(op)); }
  }
}
