/** The download transactions of internal/state/download_store.go. */
module DownloadStore {
  import opened Wrappers
  import opened Model
  import opened Tables
  import opened Transactions
  import opened Durable
  import opened Worlds
  import opened Progresses

  function Candidates(db: Db): set<FileId> {
    set f | f in db.files && AwaitsDownload(db.files[f].status)
  }

  /** The first of at most limit files waiting to be downloaded; which one comes first is left open. */
  method DownloadCandidates(w: World, limit: nat) returns (r: Option<seq<FileId>>)
    requires w.Valid() && 0 < limit
    ensures r.Some? ==> |r.value| <= limit && forall f :: f in r.value ==> f in Candidates(w.db)
    ensures r.Some? ==> (r.value == [] <==> Candidates(w.db) == {})
  {
    var failed := w.Fails();
    if failed { return None; }
    var all := Enumerate(Candidates(w.db));
    if |all| == 0 {
      assert Candidates(w.db) == {};
      return Some([]);
    }
    assert all[0] in Candidates(w.db);
    var n := if |all| > limit then limit else |all|;
    r := Some(all[..n]);
  }

  /** SELECT COALESCE(SUM(size), 0) over the files whose bytes must stay in the cache. */
  method ReservedCacheBytes(w: World) returns (r: Option<nat>)
    ensures r.Some? ==> r.value == Reserved(w.db)
    ensures w.quiet ==> r.Some?
  {
    var failed := w.Fails();
    if failed { return None; }
    var rest := Caching(w.db);
    var bytes := 0;
    while rest != {}
      invariant rest <= Caching(w.db) && bytes + SizeSum(w.db.files, rest) == Reserved(w.db)
      decreases rest
    {
      var f := Least(rest);
      bytes := bytes + w.db.files[f].size;
      rest := rest - {f};
    }
    r := Some(bytes);
  }

  method StartDownload(w: World, f: FileId, c: CachePath) returns (ok: bool)
    requires w.Valid()
    modifies w
    ensures w.Valid() && (if ok then w.Committed(Op.StartDownload(f, c)) else w.Same())
    ensures w.quiet && f in old(w.db).files && AwaitsDownload(old(w.db).files[f].status) ==> ok
  {
    var failed := w.Fails();
    var changed := if f in w.db.files && AwaitsDownload(w.db.files[f].status) then 1 else 0;
    if failed || changed != 1 { return false; }
    w.Commit(Op.StartDownload(f, c), w.db.(files := w.db.files[f := w.db.files[f].(status := Downloading, cachePath := c)]));
    ok := true;
  }

  /** MarkLocalReady: the status and path update, and the provenance row that must be fresh or unused. */
  method MarkLocalReady(w: World, f: FileId, c: CachePath) returns (ok: bool)
    requires w.Valid()
    modifies w
    ensures w.Valid() && (if ok then w.Committed(Op.MarkLocalReady(f, c)) else w.Same())
    ensures w.quiet && CanMarkLocalReady(old(w.db), f, c) ==> ok
  {
    var failed := w.Fails();
    if failed || !SafeComponent(w.db.task.id) || c != BinFile(f) { return false; }
    var changed := if f in w.db.files && (AwaitsDownload(w.db.files[f].status) || w.db.files[f].status.LocalReady?) then 1 else 0;
    if changed != 1 { return false; }
    var files := w.db.files[f := w.db.files[f].(status := LocalReady, cachePath := BinFile(f))];
    var owned := InsertIfAbsent(w.db.owned, LocalCacheFile(f), InCache(BinFile(f)));
    var registered := owned[LocalCacheFile(f)];
    if registered.path != InCache(BinFile(f)) || registered.allowed || registered.cleaned { return false; }
    w.Commit(Op.MarkLocalReady(f, c), w.db.(files := files, owned := owned));
    ok := true;
  }

  method RecordDownloadFailure(w: World, f: FileId, permanent: bool) returns (ok: bool)
    requires w.Valid()
    modifies w
    ensures w.Valid() && (if ok then w.Committed(DownloadFailure(f, permanent)) else w.Same())
    ensures w.quiet && f in old(w.db).files && AwaitsDownload(old(w.db).files[f].status) ==> ok
  {
    var failed := w.Fails();
    var changed := if f in w.db.files && AwaitsDownload(w.db.files[f].status) then 1 else 0;
    if failed || changed != 1 { return false; }
    var status := if permanent then FailedPermanent else Downloading;
    var row := w.db.files[f];
    w.Commit(DownloadFailure(f, permanent), w.db.(files := w.db.files[f := row.(status := status, retries := row.retries + 1)]));
    ok := true;
  }
}
