/** The download engine (internal/download/engine.go): resumable partial files, range resets,
    and the evidence behind LOCAL_READY. */
module Download {
  import opened Wrappers
  import opened Model
  import opened Tables
  import opened Transactions
  import opened Durable
  import opened Worlds
  import opened Progresses
  import opened Laws
  import opened DownloadApi
  import opened DownloadStore
  import Capacity
  import Counting

  datatype Verdict = NotThere | Good | Bad(deterministic: bool)

  datatype Fetched = Ready | FetchFailed(permanent: bool)

  datatype LastError = NoError | Deterministic | Transient

  datatype Summary = Summary(filesReady: nat, bytesReady: nat, pausedByWatermark: bool)

  datatype RunResult = Finished | RunFailed | Oversized

  // ----- what stays the same while a file is fetched ---------------------------

  /** The file as it was read, still waiting for its download. */
  ghost predicate Fetching(k: Rules, w: World, f: FileId, row: FileRow)
    reads w
  {
    && w.Valid() && Governs(k, w) && f in w.db.files && AwaitsDownload(w.db.files[f].status)
    && w.db.files[f].size == row.size && w.db.files[f].md5 == row.md5
  }

  /** Only this file's row changed, and it takes no more cache than before. */
  ghost predicate OnlyFile(db: Db, db': Db, f: FileId) {
    && f in db.files && db'.files.Keys == db.files.Keys && db'.files[f].size == db.files[f].size
    && (forall g :: g in db.files && g != f ==> db'.files[g] == db.files[g])
    && Capacity.NoneAdded(db, db')
  }

  lemma StartOnlyFile(db: Db, db': Db, f: FileId, c: CachePath)
    requires Attempt(db, Op.StartDownload(f, c)) == Some(db')
    ensures OnlyFile(db, db', f) && db'.files[f] == db.files[f].(status := Downloading, cachePath := c)
  {
  }

  lemma ReadyOnlyFile(db: Db, db': Db, f: FileId, c: CachePath)
    requires Attempt(db, Op.MarkLocalReady(f, c)) == Some(db')
    ensures OnlyFile(db, db', f) && db'.files[f].status.LocalReady?
  {
  }

  lemma FailureOnlyFile(db: Db, db': Db, f: FileId, permanent: bool)
    requires Attempt(db, DownloadFailure(f, permanent)) == Some(db')
    ensures OnlyFile(db, db', f) && !db'.files[f].status.LocalReady?
  {
  }

  lemma OnlyFileTransitive(a: Db, b: Db, c: Db, f: FileId)
    requires OnlyFile(a, b, f) && OnlyFile(b, c, f)
    ensures OnlyFile(a, c, f)
  {
  }

  /** How many requests to the download service a history holds. */
  function RequestCount(moves: seq<Move>): nat {
    if moves == [] then 0
    else RequestCount(moves[..|moves| - 1]) + if moves[|moves| - 1].RequestRange? then 1 else 0
  }

  lemma TxRequestsNothing(moves: seq<Move>, op: Op)
    ensures RequestCount(moves + [Tx(op)]) == RequestCount(moves)
  {
    assert (moves + [Tx(op)])[..|moves|] == moves;
  }

  // ----- looking at the cache ----------------------------------------------------

  /** verifyExisting. */
  method VerifyExisting(w: World, p: CachePath, row: FileRow) returns (v: Verdict)
    ensures v.Good? ==> p in w.cache && Checks(w.truth, row, w.cache[p])
    ensures v.NotThere? ==> p !in w.cache
    ensures w.quiet && p in w.cache && Checks(w.truth, row, w.cache[p]) ==> v.Good?
  {
    var failed := w.Fails();
    if p !in w.cache { return NotThere; }
    if failed { return Bad(false); }
    if |w.cache[p]| != row.size { return Bad(true); }
    if row.md5 == "" { return Good; }
    failed := w.Fails();
    if failed { return Bad(false); }
    if w.truth.md5(w.cache[p]) != row.md5 { return Bad(true); }
    v := Good;
  }

  method PartSize(w: World, p: CachePath) returns (r: Option<nat>)
    ensures r.Some? ==> r.value == |PartOf(w.cache, p)|
  {
    var failed := w.Fails();
    r := if failed then None else Some(|PartOf(w.cache, p)|);
  }

  // ----- single steps --------------------------------------------------------------

  method Discard(w: World, ghost k: Rules, f: FileId, row: FileRow, p: CachePath) returns (ok: bool)
    requires Fetching(k, w, f, row) && (p == PartFile(f) || p == BinFile(f))
    modifies w
    ensures Fetching(k, w, f, row) && Lawfully(k, old(w.History()), w.History()) && w.db == old(w.db)
    ensures ok ==> p !in w.cache
    ensures RequestCount(w.moves) == RequestCount(old(w.moves))
  {
    hide LawfulFrom, Step;
    ghost var a := w.History();
    ok := w.DiscardTempFile(p);
    if ok { Stepped(k, a, w, DiscardLocal(p)); } else { Idle(k, a); }
  }

  /** A verified partial file becomes the cache file, and the file LOCAL_READY. */
  method Promote(w: World, ghost k: Rules, f: FileId, row: FileRow) returns (r: Fetched)
    requires Fetching(k, w, f, row) && PartFile(f) in w.cache && Checks(w.truth, row, w.cache[PartFile(f)])
    modifies w
    ensures w.Valid() && Governs(k, w) && Lawfully(k, old(w.History()), w.History()) && OnlyFile(old(w.db), w.db, f)
    ensures if r.Ready? then w.db.files[f].status.LocalReady? else Fetching(k, w, f, row)
    ensures RequestCount(w.moves) == RequestCount(old(w.moves))
  {
    hide LawfulFrom, Step, RequestCount;
    ghost var a := w.History();
    var ok := Rename(w, k, f, row);
    if !ok { return FetchFailed(false); }
    ghost var b := w.History();
    r := Finish(w, k, f, row);
    LawfullyThen(k, a, b, w.History());
  }

  method Rename(w: World, ghost k: Rules, f: FileId, row: FileRow) returns (ok: bool)
    requires Fetching(k, w, f, row) && PartFile(f) in w.cache && Checks(w.truth, row, w.cache[PartFile(f)])
    modifies w
    ensures Fetching(k, w, f, row) && Lawfully(k, old(w.History()), w.History()) && w.db == old(w.db)
    ensures ok ==> BinFile(f) in w.cache && Checks(w.truth, row, w.cache[BinFile(f)])
    ensures RequestCount(w.moves) == RequestCount(old(w.moves))
  {
    hide Step;
    ghost var a, start := w.History(), w.Now();
    ok := w.RenameTempFile(PartFile(f), BinFile(f));
    RenameRequestsNothing(a.moves, w.moves, f);
    RenameLawful(k, a, start, w, f, ok);
  }

  lemma RenameRequestsNothing(before: seq<Move>, after: seq<Move>, f: FileId)
    requires || after == before || after == before + [DiscardLocal(BinFile(f))] || after == before + [RenameLocal(PartFile(f), BinFile(f))]
             || after == before + [DiscardLocal(BinFile(f)), RenameLocal(PartFile(f), BinFile(f))]
    ensures RequestCount(after) == RequestCount(before)
  {
    if |after| == |before| + 2 {
      assert after[..|after| - 1] == before + [DiscardLocal(BinFile(f))];
      assert after[..|after| - 1][..|before|] == before;
    } else if after != before {
      assert after[..|before|] == before;
    }
  }

  lemma RenameLawful(k: Rules, a: Trace, start: Snap, w: World, f: FileId, ok: bool)
    requires |a.states| == |a.moves| + 1 && a.states[|a.moves|] == start
    requires BeingDownloaded(start, PartFile(f)) && PartFile(f) in start.cache && Checks(k.truth, start.db.files[f], start.cache[PartFile(f)])
    requires !ok ==> w.History() == a || w.History() == Trace(a.states + [start.(cache := start.cache - {BinFile(f)})], a.moves + [DiscardLocal(BinFile(f))])
    requires ok ==> Renamed(a.states, a.moves, w.states, w.moves, start, PartFile(f), BinFile(f))
    ensures Lawfully(k, a, w.History())
  {
    var gone := start.(cache := start.cache - {BinFile(f)});
    var there := start.(cache := (start.cache - {PartFile(f)})[BinFile(f) := start.cache[PartFile(f)]]);
    var b := Trace(a.states + [gone], a.moves + [DiscardLocal(BinFile(f))]);
    LawfulOne(k, a.states, a.moves, gone, DiscardLocal(BinFile(f)));
    assert Lawfully(k, a, b);
    if ok {
      if BinFile(f) in start.cache {
        LawfulOne(k, b.states, b.moves, there, RenameLocal(PartFile(f), BinFile(f)));
        assert w.History() == Trace(b.states + [there], b.moves + [RenameLocal(PartFile(f), BinFile(f))]);
        assert Lawfully(k, b, w.History());
        LawfullyThen(k, a, b, w.History());
      } else {
        LawfulOne(k, a.states, a.moves, there, RenameLocal(PartFile(f), BinFile(f)));
      }
    }
  }

  /** MarkLocalReady on a cache file that checks out. */
  method Finish(w: World, ghost k: Rules, f: FileId, row: FileRow) returns (r: Fetched)
    requires Fetching(k, w, f, row) && BinFile(f) in w.cache && Checks(w.truth, row, w.cache[BinFile(f)])
    modifies w
    ensures w.Valid() && Governs(k, w) && Lawfully(k, old(w.History()), w.History()) && OnlyFile(old(w.db), w.db, f)
    ensures if r.Ready? then w.db.files[f].status.LocalReady? else Fetching(k, w, f, row)
    ensures RequestCount(w.moves) == RequestCount(old(w.moves))
  {
    hide LawfulFrom, Step, Attempt;
    ghost var a, db := w.History(), w.db;
    var ok := DownloadStore.MarkLocalReady(w, f, BinFile(f));
    TxStepped(k, a, w, Op.MarkLocalReady(f, BinFile(f)));
    if ok { ReadyOnlyFile(db, w.db, f, BinFile(f)); }
    r := if ok then Ready else FetchFailed(false);
  }

  // ----- one download ----------------------------------------------------------------

  /** Asks the service for the file from an offset on. */
  method OpenDownload(w: World, ghost k: Rules, f: FileId, row: FileRow, offset: nat) returns (got: Opened)
    requires Fetching(k, w, f, row) && offset == |PartOf(w.cache, PartFile(f))|
    modifies w
    ensures Fetching(k, w, f, row) && Lawfully(k, old(w.History()), w.History()) && w.db == old(w.db) && w.cache == old(w.cache)
    ensures w.honest && got.Stream? ==> Serves(w.truth.source(f), offset, got.body)
    ensures RequestCount(w.moves) == RequestCount(old(w.moves)) + 1
  {
    hide LawfulFrom, Step;
    ghost var a := w.History();
    w.RequestDownload(f, offset);
    Stepped(k, a, w, RequestRange(f, offset));
    var response: Response := *;
    if w.honest && !HonestResponse(w.truth.source(f), response) { response := NoResponse; }
    got := OpenDownloadRange(response, offset, -1);
    if w.honest { OpenedServes(w.truth.source(f), response, offset); }
  }

  datatype Copied = CopyDone | CopyCancelled | CopyFailed(deterministic: bool)

  lemma PrefixServes(source: seq<Byte>, offset: nat, body: seq<Byte>, n: nat)
    requires n <= |body| && Serves(source, offset, body)
    ensures Serves(source, offset, body[..n])
  {
  }

  /** copyStream: the stream's bytes go to the end of the partial file, as many of them as arrive. */
  method CopyStream(w: World, ghost k: Rules, f: FileId, row: FileRow, offset: nat, stream: Opened) returns (r: Copied)
    requires Fetching(k, w, f, row) && w.db.files[f].status.Downloading? && stream.Stream? && offset == |PartOf(w.cache, PartFile(f))|
    requires w.honest ==> Serves(w.truth.source(f), offset, stream.body)
    modifies w
    ensures Fetching(k, w, f, row) && Lawfully(k, old(w.History()), w.History()) && w.db == old(w.db)
    ensures RequestCount(w.moves) == RequestCount(old(w.moves))
  {
    hide LawfulFrom, Step;
    ghost var a, before := w.History(), PartOf(w.cache, PartFile(f));
    if stream.total >= 0 && stream.total != row.size {
      Idle(k, a);
      return CopyFailed(true);
    }
    var failed := w.Fails();
    if failed {
      Idle(k, a);
      return CopyFailed(false);
    }
    var ok := w.AppendToPart(PartFile(f), stream.body);
    ghost var n :| 0 <= n <= |stream.body| && w.cache[PartFile(f)] == before + stream.body[..n];
    if w.honest { PrefixServes(w.truth.source(f), offset, stream.body, n); }
    assert Appended(k, f, before, w.cache[PartFile(f)]);
    Stepped(k, a, w, WriteLocal(PartFile(f)));
    if ok { return CopyDone; }
    var cancelled: bool := *;
    r := if cancelled then CopyCancelled else CopyFailed(false);
  }

  function MaxAttempts(maxAttempts: int): nat {
    if maxAttempts <= 0 then 3 else maxAttempts
  }

  lemma OnlyFileSame(db: Db, f: FileId)
    requires f in db.files
    ensures OnlyFile(db, db, f)
  {
  }

  /** One stream: copied, checked, and used if it checks out; otherwise dropped. */
  method TakeStream(w: World, ghost k: Rules, f: FileId, row: FileRow, offset: nat, stream: Opened) returns (done: Option<Fetched>, last: LastError)
    requires Fetching(k, w, f, row) && w.db.files[f].status.Downloading? && stream.Stream? && offset == |PartOf(w.cache, PartFile(f))|
    requires w.honest ==> Serves(w.truth.source(f), offset, stream.body)
    modifies w
    ensures w.Valid() && Governs(k, w) && Lawfully(k, old(w.History()), w.History()) && OnlyFile(old(w.db), w.db, f)
    ensures if done == Some(Ready) then w.db.files[f].status.LocalReady? else Fetching(k, w, f, row)
    ensures done.None? ==> w.db == old(w.db)
    ensures RequestCount(w.moves) == RequestCount(old(w.moves))
  {
    hide Lawfully, Step, OnlyFile, Checks, Serves, RequestCount;
    ghost var a := w.History();
    OnlyFileSame(w.db, f);
    var copied := CopyStream(w, k, f, row, offset, stream);
    if copied.CopyCancelled? { return Some(FetchFailed(false)), Transient; }
    if copied.CopyFailed? { return None, if copied.deterministic then Deterministic else Transient; }
    var verdict := VerifyExisting(w, PartFile(f), row);
    ghost var c := w.History();
    if verdict.Good? {
      var promoted := Promote(w, k, f, row);
      LawfullyThen(k, a, c, w.History());
      return Some(promoted), NoError;
    }
    last := if verdict.Bad? && verdict.deterministic then Deterministic else Transient;
    var removed := Discard(w, k, f, row, PartFile(f));
    LawfullyThen(k, a, c, w.History());
    done := if removed then None else Some(FetchFailed(false));
  }

  /** The retry loop of downloadOne. A range the server does not honor costs an extra request but no
      attempt: the partial file is dropped, and the next request starts from zero. */
  method FetchLoop(w: World, ghost k: Rules, f: FileId, row: FileRow, maxAttempts: int) returns (r: Fetched)
    requires Fetching(k, w, f, row) && w.db.files[f].status.Downloading?
    modifies w
    ensures w.Valid() && Governs(k, w) && Lawfully(k, old(w.History()), w.History()) && OnlyFile(old(w.db), w.db, f)
    ensures if r.Ready? then w.db.files[f].status.LocalReady? else Fetching(k, w, f, row)
    ensures RequestCount(w.moves) - RequestCount(old(w.moves)) <= 2 * MaxAttempts(maxAttempts)
  {
    hide Lawfully, Step, OnlyFile, Checks, Serves, RequestCount;
    ghost var a := w.History();
    Idle(k, a);
    OnlyFileSame(w.db, f);
    var attempts := MaxAttempts(maxAttempts);
    var attempt, last := 0, NoError;
    ghost var reset := false;
    while attempt < attempts
      invariant Fetching(k, w, f, row) && Lawfully(k, a, w.History()) && w.db == old(w.db)
      invariant 0 <= attempt <= attempts && (reset ==> PartFile(f) !in w.cache)
      invariant RequestCount(w.moves) - RequestCount(a.moves) <= 2 * attempt + (if reset then 1 else 0) && (reset ==> attempt < attempts)
      decreases attempts - attempt, !reset
    {
      var cancelled := w.Fails();
      if cancelled { return FetchFailed(false); }
      var offset := PartSize(w, PartFile(f));
      if offset.None? { return FetchFailed(false); }
      ghost var h := w.History();
      var stream := OpenDownload(w, k, f, row, offset.value);
      LawfullyThen(k, a, h, w.History());
      if stream.RangeNotHonored? || stream.RangeNotSatisfiable? {
        if offset.value == 0 { return FetchFailed(false); }
        ghost var b := w.History();
        var removed := Discard(w, k, f, row, PartFile(f));
        LawfullyThen(k, a, b, w.History());
        if !removed { return FetchFailed(false); }
        reset := true;
        continue;
      }
      reset := false;
      if stream.OpenFailed? {
        if stream.needsUser { return FetchFailed(false); }
        last := Transient;
      } else {
        ghost var b := w.History();
        var done;
        done, last := TakeStream(w, k, f, row, offset.value, stream);
        LawfullyThen(k, a, b, w.History());
        if done.Some? { return done.value; }
      }
      if attempt + 1 < attempts {
        cancelled := w.Fails();
        if cancelled { return FetchFailed(false); }
      }
      attempt := attempt + 1;
    }
    r := FetchFailed(last.Deterministic?);
  }

  /** What is already in the cache is used if it checks out, and dropped if it cannot be. */
  method UseCached(w: World, ghost k: Rules, f: FileId, row: FileRow) returns (r: Option<Fetched>)
    requires Fetching(k, w, f, row)
    modifies w
    ensures w.Valid() && Governs(k, w) && Lawfully(k, old(w.History()), w.History()) && OnlyFile(old(w.db), w.db, f)
    ensures if r == Some(Ready) then w.db.files[f].status.LocalReady? else Fetching(k, w, f, row)
    ensures RequestCount(w.moves) == RequestCount(old(w.moves))
  {
    hide Lawfully, Step, OnlyFile, RequestCount;
    ghost var a := w.History();
    Idle(k, a);
    OnlyFileSame(w.db, f);
    var bin := VerifyExisting(w, BinFile(f), row);
    if bin.Good? {
      var done := Finish(w, k, f, row);
      return Some(done);
    }
    if bin.Bad? {
      var removed := Discard(w, k, f, row, BinFile(f));
      if !removed { return Some(FetchFailed(false)); }
    }
    ghost var b := w.History();
    var size := PartSize(w, PartFile(f));
    if size.None? { return Some(FetchFailed(false)); }
    if size.value < row.size { return None; }
    if size.value == row.size {
      var part := VerifyExisting(w, PartFile(f), row);
      if part.Good? {
        var done := Promote(w, k, f, row);
        LawfullyThen(k, a, b, w.History());
        return Some(done);
      }
    }
    var dropped := Discard(w, k, f, row, PartFile(f));
    LawfullyThen(k, a, b, w.History());
    r := if dropped then None else Some(FetchFailed(false));
  }

  /** downloadOne. */
  method DownloadOne(w: World, ghost k: Rules, f: FileId, row: FileRow, maxAttempts: int) returns (r: Fetched)
    requires Fetching(k, w, f, row)
    modifies w
    ensures w.Valid() && Governs(k, w) && Lawfully(k, old(w.History()), w.History()) && OnlyFile(old(w.db), w.db, f)
    ensures if r.Ready? then w.db.files[f].status.LocalReady? else Fetching(k, w, f, row)
    ensures RequestCount(w.moves) - RequestCount(old(w.moves)) <= 2 * MaxAttempts(maxAttempts)
  {
    hide Lawfully, Step, OnlyFile, Attempt, RequestCount, SafeComponent, Checks;
    ghost var a, db := w.History(), w.db;
    Idle(k, a);
    OnlyFileSame(db, f);
    if !SafeComponent(w.db.task.id) { return FetchFailed(true); }
    var failed := w.Fails();
    if failed { return FetchFailed(false); }
    var cached := UseCached(w, k, f, row);
    if cached.Some? { return cached.value; }
    ghost var b, mid := w.History(), w.db;
    var started := DownloadStore.StartDownload(w, f, PartFile(f));
    TxStepped(k, b, w, Op.StartDownload(f, PartFile(f)));
    LawfullyThen(k, a, b, w.History());
    if !started { return FetchFailed(false); }
    StartOnlyFile(mid, w.db, f, PartFile(f));
    TxRequestsNothing(b.moves, Op.StartDownload(f, PartFile(f)));
    OnlyFileTransitive(db, mid, w.db, f);
    ghost var c, begun := w.History(), w.db;
    r := FetchLoop(w, k, f, row, maxAttempts);
    LawfullyThen(k, a, c, w.History());
    OnlyFileTransitive(db, begun, w.db, f);
  }

  // ----- the engine ------------------------------------------------------------------

  /** The next candidate with the row it was read with. */
  lemma CandidateFetching(k: Rules, w: World, f: FileId)
    requires w.Valid() && Governs(k, w) && f in Candidates(w.db)
    ensures Fetching(k, w, f, w.db.files[f])
  {
  }

  lemma OneLess(db: Db, db': Db, f: FileId)
    requires OnlyFile(db, db', f) && f in Candidates(db) && f !in Candidates(db')
    ensures |Candidates(db')| < |Candidates(db)|
  {
    forall g | g in Candidates(db') ensures g in Candidates(db) { assert g in db.files.Keys; }
    assert Candidates(db') <= Candidates(db) - {f};
    Counting.SubsetCardinality(Candidates(db'), Candidates(db) - {f});
  }

  lemma FileBounds(db: Db, db': Db, f: FileId)
    requires OnlyFile(db, db', f)
    ensures Potential(db') <= Potential(db)
  {
    Capacity.NoneAddedBounds(db, db');
  }

  /** The number of LOCAL_READY files grows by one with every success. */
  lemma CountReady(db: Db, db': Db, f: FileId)
    requires OnlyFile(db, db', f) && f in Candidates(db)
    ensures |WithStatus(db', LocalReady)| == |WithStatus(db, LocalReady)| + if db'.files[f].status.LocalReady? then 1 else 0
  {
    var before, after := WithStatus(db, LocalReady), WithStatus(db', LocalReady);
    forall g ensures g in after - {f} <==> g in before { assert g in db'.files.Keys <==> g in db.files.Keys; }
    assert after - {f} == before;
  }

  /** One candidate: fetched, or its failure recorded. */
  method FetchOne(w: World, ghost k: Rules, f: FileId, maxAttempts: int) returns (ready: bool)
    requires w.Valid() && Governs(k, w) && f in Candidates(w.db)
    modifies w
    ensures w.Valid() && Governs(k, w) && Lawfully(k, old(w.History()), w.History()) && OnlyFile(old(w.db), w.db, f)
    ensures ready <==> w.db.files[f].status.LocalReady?
  {
    hide Lawfully, Step, OnlyFile, Attempt;
    ghost var a, db := w.History(), w.db;
    CandidateFetching(k, w, f);
    var fetched := DownloadOne(w, k, f, w.db.files[f], maxAttempts);
    if fetched.Ready? { return true; }
    ghost var b, mid := w.History(), w.db;
    var recorded := DownloadStore.RecordDownloadFailure(w, f, fetched.permanent);
    TxStepped(k, b, w, DownloadFailure(f, fetched.permanent));
    LawfullyThen(k, a, b, w.History());
    if recorded {
      FailureOnlyFile(mid, w.db, f, fetched.permanent);
      OnlyFileTransitive(db, mid, w.db, f);
    }
    ready := false;
  }

  /** The check in front of a staged file: it must fit the cache, and what is reserved in it. */
  method Fits(w: World, f: FileId, limit: nat) returns (r: Option<bool>, oversized: bool)
    requires f in w.db.files
    ensures r.Some? ==> (r.value <==> Reserved(w.db) + w.db.files[f].size <= limit)
    ensures oversized ==> w.db.files[f].size > limit
  {
    if w.db.files[f].size > limit { return None, true; }
    var reserved := ReservedCacheBytes(w);
    if reserved.None? { return None, false; }
    r, oversized := Some(reserved.value + w.db.files[f].size <= limit), false;
  }

  /** Engine.Run: until no file waits, something fails, or the cache is full. Below the bound it is never full. */
  method Run(w: World, ghost k: Rules, maxCacheBytes: int, maxAttempts: int) returns (summary: Summary, r: RunResult)
    requires w.Valid() && Governs(k, w)
    modifies w
    ensures w.Valid() && Governs(k, w) && Lawfully(k, old(w.History()), w.History())
    ensures r.Finished? && !summary.pausedByWatermark ==> Candidates(w.db) == {}
    ensures Potential(old(w.db)) <= CacheLimit(maxCacheBytes) ==> !summary.pausedByWatermark && !r.Oversized?
    ensures Potential(w.db) <= Potential(old(w.db))
    ensures summary.filesReady == |WithStatus(w.db, LocalReady)| - |WithStatus(old(w.db), LocalReady)|
  {
    hide Lawfully, Step, OnlyFile, Reserved, Potential;
    ghost var a := w.History();
    Idle(k, a);
    var limit := CacheLimit(maxCacheBytes);
    summary := Summary(0, 0, false);
    while true
      invariant w.Valid() && Governs(k, w) && Lawfully(k, a, w.History())
      invariant Potential(w.db) <= Potential(old(w.db)) && !summary.pausedByWatermark
      invariant summary.filesReady == |WithStatus(w.db, LocalReady)| - |WithStatus(old(w.db), LocalReady)|
      decreases |Candidates(w.db)|
    {
      var cancelled := w.Fails();
      if cancelled { return summary, RunFailed; }
      var candidates := DownloadCandidates(w, 64);
      if candidates.None? { return summary, RunFailed; }
      if |candidates.value| == 0 { return summary, Finished; }
      var f := candidates.value[0];
      assert f in candidates.value;
      if w.db.files[f].stagingPath == NoStaging { return summary, RunFailed; }
      if w.db.files[f].status.BaiduStaged? {
        Capacity.StagedFileFits(w.db, f);
        var fits, oversized := Fits(w, f, limit);
        if oversized { return summary, Oversized; }
        if fits.None? { return summary, RunFailed; }
        if !fits.value { return summary.(pausedByWatermark := true), Finished; }
      }
      ghost var b, db := w.History(), w.db;
      var size := w.db.files[f].size;
      var ready := FetchOne(w, k, f, maxAttempts);
      LawfullyThen(k, a, b, w.History());
      FileBounds(db, w.db, f);
      CountReady(db, w.db, f);
      if !ready { return summary, RunFailed; }
      OneLess(db, w.db, f);
      summary := summary.(filesReady := summary.filesReady + 1, bytesReady := summary.bytesReady + size);
    }
  }

  /** DefaultMaxCacheBytes is 30 GiB. */
  function CacheLimit(maxCacheBytes: int): nat {
    if maxCacheBytes <= 0 then 32212254720 else maxCacheBytes
  }
}
