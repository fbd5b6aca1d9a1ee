/** The passes the scheduler hands the work to (internal/app/cleanup.go, drive.go and download.go). */
module Runners {
  import opened Wrappers
  import opened Model
  import opened Tables
  import opened Transactions
  import opened Invariant
  import opened Runs
  import opened Durable
  import opened Worlds
  import opened Progresses
  import opened Laws
  import opened Stage
  import Cleanup
  import CleanupEngine
  import Upload
  import Download
  import DownloadStore
  import DriveStore
  import Capacity

  /** CleanupRunner.Run: nothing to do, or the engine under at most two sessions. */
  method CleanupPass(w: World, ghost k: Rules, maxBatches: int) returns (summary: CleanupEngine.Summary, ok: bool)
    requires w.Valid() && Governs(k, w)
    modifies w
    ensures w.Valid() && Governs(k, w) && Lawfully(k, old(w.History()), w.History())
    ensures ok ==> CleanedUp(w.db, summary, maxBatches)
  {
    hide Lawfully, Step, Candidate, RootCandidate;
    ghost var a := w.History();
    Idle(k, a);
    summary := CleanupEngine.Summary(0, 0, 0, false);
    var candidates := w.CleanupCandidates(CleanupEngine.BatchLimit(maxBatches));
    if candidates.None? { return summary, false; }
    var root := w.TaskRootCleanupCandidate();
    if root.None? { return summary, false; }
    if |candidates.value| == 0 && !root.value { return summary, true; }
    ok := NoteStatus(w, k, TaskRunning);
    if !ok { return; }
    ok := false;
    var sessionAttempt := 0;
    while sessionAttempt < 2 && !ok
      invariant w.Valid() && Governs(k, w) && Lawfully(k, a, w.History())
      invariant ok ==> CleanedUp(w.db, summary, maxBatches)
      decreases 2 - sessionAttempt
    {
      var prepared: bool, authRequired: bool := *, *;
      if !prepared { break; }
      ghost var b := w.History();
      summary, ok := CleanupEngine.Run(w, maxBatches);
      CleanupLawfully(k, b, w);
      LawfullyThen(k, a, b, w.History());
      if !ok && !authRequired { break; }
      sessionAttempt := sessionAttempt + 1;
    }
    ghost var c, db := w.History(), w.db;
    var blocked: bool := *;
    var noted := NoteStatus(w, k, if !ok && blocked then TaskBlocked else TaskPaused);
    LawfullyThen(k, a, c, w.History());
    SameCleanup(db, w.db, summary, maxBatches);
    ok := ok && noted;
  }

  /** A pass took as many batches as it may, or none is left; and the root is not due. */
  ghost predicate CleanedUp(db: Db, summary: CleanupEngine.Summary, maxBatches: int) {
    (summary.batchesDone == CleanupEngine.BatchLimit(maxBatches) || forall b :: !Candidate(db, b)) && !RootCandidate(db)
  }

  lemma SameCleanup(db: Db, db': Db, summary: CleanupEngine.Summary, maxBatches: int)
    requires db' == db.(task := db'.task)
    ensures CleanedUp(db', summary, maxBatches) <==> CleanedUp(db, summary, maxBatches)
  {
    CleanupEngine.SameBatches(db, db');
  }

  lemma CleanupLawfully(k: Rules, a: Trace, w: World)
    requires w.Valid() && Governs(k, w) && |a.states| == |a.moves| + 1 && a.states <= w.states && a.moves <= w.moves
    requires Cleanup.LegalFrom(w.honest, w.states, w.moves, |a.moves|)
    ensures Lawfully(k, a, w.History())
  {
    CleanupIsLawful(k, w.states, w.moves, |a.moves|);
  }

  /** validateTaskComponent. */
  predicate FolderName(id: string) {
    id != "" && id != "." && id != ".." && forall c :: c in id ==> c != '/' && c != '\\' && c != '\0'
  }

  /** The folder of that name, found by a listing, or made and found by a second one; never one of several. */
  method FindTaskRoot() returns (id: Option<DriveId>)
    ensures id.Some? ==> id.value != ""
  {
    var listed: bool, matches: seq<DriveId> := *, *;
    if !listed || |matches| > 1 { return None; }
    if |matches| == 0 {
      var made: bool := *;
      if !made { return None; }
      listed, matches := *, *;
    }
    if !listed || |matches| != 1 || matches[0] == "" { return None; }
    id := Some(matches[0]);
  }

  /** The task root's part of TreeBuilder.Ensure: a folder persisted before is kept, another one is looked for, made if
      there is none, and persisted under the name that stands already, or the one derived from the task. */
  method EnsureTaskRoot(w: World, ghost k: Rules) returns (ok: bool)
    requires w.Valid() && Governs(k, w)
    modifies w
    ensures w.Valid() && Governs(k, w) && Lawfully(k, old(w.History()), w.History())
    ensures ok ==> RootReady(w.db)
    ensures old(w.db).task.driveRootId != "" ==> w.Same() && (ok <==> old(w.db).task.driveRootName != "")
    ensures ok && old(w.db).task.driveRootId == "" ==>
              exists name, id :: w.Committed(SetDriveRoot(name, id)) && name == if old(w.db).task.driveRootName != "" then old(w.db).task.driveRootName else "BaiduDriveMover-" + old(w.db).task.id
  {
    hide LawfulFrom, Step, Attempt;
    ghost var a, db := w.History(), w.db;
    Idle(k, a);
    var rootName := w.db.task.driveRootName;
    if rootName == "" {
      if !FolderName(w.db.task.id) { return false; }
      rootName := "BaiduDriveMover-" + w.db.task.id;
    }
    if w.db.task.driveRootId != "" { return w.db.task.driveRootName != ""; }
    var found := FindTaskRoot();
    if found.None? { return false; }
    ok := DriveStore.SetTaskDriveRoot(w, rootName, found.value);
    TxStepped(k, a, w, SetDriveRoot(rootName, found.value));
    if ok { RootIsSet(db, w.db, rootName, found.value); }
  }

  lemma RootIsSet(db: Db, db': Db, name: string, id: DriveId)
    requires Attempt(db, SetDriveRoot(name, id)) == Some(db')
    ensures RootReady(db')
  {
  }

  /** What was persisted of the root stays. */
  lemma RootStays(k: Rules, a: Trace, w: World)
    requires w.Valid() && Lawfully(k, a, w.History())
    ensures RootReady(a.states[|a.moves|].db) ==> RootReady(w.db)
  {
    hide Step, LawfulFrom, Consistent;
    RunOfStore(w.states, w.moves);
    RunForward(Dbs(w.states), |a.moves|, |w.moves|);
    assert w.states[|a.moves|] == a.states[|a.moves|];
  }

  /** DriveRunner.Run: the task root first, then the folders below it, then the uploads. */
  method DrivePass(w: World, ghost k: Rules) returns (summary: Upload.UploadSummary, ok: bool)
    requires w.Valid() && Governs(k, w)
    modifies w
    ensures w.Valid() && Governs(k, w) && Lawfully(k, old(w.History()), w.History())
    ensures ok ==> DriveStore.Candidates(w.db) == {} && RootReady(w.db)
  {
    hide Lawfully, Step, Attempt, RootReady;
    ghost var a := w.History();
    summary := Upload.UploadSummary(0, 0);
    ok := NoteStatus(w, k, TaskRunning);
    if !ok { return; }
    var prepared: bool := *;
    ghost var b := w.History();
    if prepared {
      ok := EnsureTaskRoot(w, k);
      LawfullyThen(k, a, b, w.History());
      var folders: bool := *;
      ok := ok && folders;
      if ok {
        ghost var c := w.History();
        summary, ok := Upload.Run(w, k);
        LawfullyThen(k, a, c, w.History());
        RootStays(k, c, w);
      }
    } else {
      ok := false;
    }
    ghost var d, db := w.History(), w.db;
    var cancelled: bool := *;
    var noted := NoteStatus(w, k, if ok || cancelled then TaskPaused else TaskBlocked);
    LawfullyThen(k, a, d, w.History());
    SameUploads(db, w.db);
    RootStays(k, d, w);
    ok := ok && noted;
  }

  /** DownloadRunner.Run. */
  method DownloadPass(w: World, ghost k: Rules, maxCacheBytes: int, maxAttempts: int) returns (summary: Download.Summary, ok: bool)
    requires w.Valid() && Governs(k, w)
    modifies w
    ensures w.Valid() && Governs(k, w) && Lawfully(k, old(w.History()), w.History())
    ensures ok && !summary.pausedByWatermark ==> DownloadStore.Candidates(w.db) == {}
    ensures Potential(old(w.db)) <= Download.CacheLimit(maxCacheBytes) ==> !summary.pausedByWatermark
  {
    hide Lawfully, Step, Attempt, Potential;
    ghost var a := w.History();
    summary := Download.Summary(0, 0, false);
    var result := Download.RunFailed;
    ghost var db := w.db;
    ok := NoteStatus(w, k, TaskRunning);
    if !ok { return; }
    SamePotential(db, w.db);
    var sessionAttempt := 0;
    while sessionAttempt < 2 && result.RunFailed?
      invariant w.Valid() && Governs(k, w) && Lawfully(k, a, w.History()) && Potential(w.db) <= Potential(db)
      invariant result.Finished? && !summary.pausedByWatermark ==> DownloadStore.Candidates(w.db) == {}
      invariant Potential(db) <= Download.CacheLimit(maxCacheBytes) ==> !summary.pausedByWatermark
      decreases 2 - sessionAttempt
    {
      var prepared: bool, authRequired: bool := *, *;
      if !prepared { break; }
      ghost var b := w.History();
      summary, result := Download.Run(w, k, maxCacheBytes, maxAttempts);
      LawfullyThen(k, a, b, w.History());
      if !authRequired { break; }
      sessionAttempt := sessionAttempt + 1;
    }
    ghost var d, mid := w.History(), w.db;
    var blocked: bool := *;
    var noted := NoteStatus(w, k, if result.Oversized? || (result.RunFailed? && blocked) then TaskBlocked else TaskPaused);
    LawfullyThen(k, a, d, w.History());
    SameCandidates(mid, w.db);
    ok := result.Finished? && noted;
  }

  lemma SameUploads(db: Db, db': Db)
    requires db'.files == db.files
    ensures DriveStore.Candidates(db') == DriveStore.Candidates(db)
  {
  }

  lemma SamePotential(db: Db, db': Db)
    requires db'.files == db.files
    ensures Potential(db') == Potential(db)
  {
    assert Cacheable(db') == Cacheable(db);
  }

  lemma SameCandidates(db: Db, db': Db)
    requires db'.files == db.files
    ensures DownloadStore.Candidates(db') == DownloadStore.Candidates(db)
  {
  }
}
