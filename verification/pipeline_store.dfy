/** PipelineProgress (internal/state/pipeline_store.go) and the task row's updates (internal/state/task_store.go). */
module PipelineStore {
  import opened Wrappers
  import opened Model
  import opened Tables
  import opened Transactions
  import opened Durable
  import opened Worlds
  import opened Progresses
  import DownloadStore

  /** The counters cover every file but those in rest. */
  ghost predicate Tally(db: Db, counts: map<FileStatus, nat>, rest: set<FileId>) {
    forall s :: (s in counts <==> WithStatus(db, s) - rest != {}) && (s in counts ==> counts[s] == |WithStatus(db, s) - rest|)
  }

  lemma CountedOne(db: Db, rest: set<FileId>, f: FileId, t: FileStatus)
    requires f in rest && f in db.files
    ensures |WithStatus(db, t) - (rest - {f})| == |WithStatus(db, t) - rest| + if t == db.files[f].status then 1 else 0
    ensures WithStatus(db, t) - (rest - {f}) != {} <==> WithStatus(db, t) - rest != {} || t == db.files[f].status
  {
    var now, before := WithStatus(db, t) - (rest - {f}), WithStatus(db, t) - rest;
    if t == db.files[f].status {
      assert now == before + {f};
    } else {
      assert now == before;
    }
  }

  lemma TallyOne(db: Db, counts: map<FileStatus, nat>, rest: set<FileId>, f: FileId)
    requires Tally(db, counts, rest) && f in rest && f in db.files
    ensures var s := db.files[f].status; Tally(db, counts[s := (if s in counts then counts[s] else 0) + 1], rest - {f})
  {
    hide WithStatus;
    forall t
      ensures |WithStatus(db, t) - (rest - {f})| == |WithStatus(db, t) - rest| + if t == db.files[f].status then 1 else 0
      ensures WithStatus(db, t) - (rest - {f}) != {} <==> WithStatus(db, t) - rest != {} || t == db.files[f].status
    {
      CountedOne(db, rest, f, t);
    }
  }

  lemma TallyAt(db: Db, counts: map<FileStatus, nat>, s: FileStatus)
    requires Tally(db, counts, {})
    ensures s in counts <==> s in Statuses(db)
    ensures s in counts ==> counts[s] == |WithStatus(db, s)|
  {
    hide Reserved;
    var ids := WithStatus(db, s);
    assert ids - {} == ids;
    if s in Statuses(db) {
      var f :| f in db.files && db.files[f].status == s;
      assert f in ids;
    } else {
      forall f ensures f !in ids {}
      assert ids == {};
    }
  }

  lemma TallyAll(db: Db, counts: map<FileStatus, nat>)
    requires Tally(db, counts, {})
    ensures counts == ProgressOf(db).counts
  {
    hide Tally, Reserved, RootReady;
    forall s ensures (s in counts <==> s in Statuses(db)) && (s in counts ==> counts[s] == |WithStatus(db, s)|) { TallyAt(db, counts, s); }
  }

  /** GROUP BY status with COUNT(*). */
  method CountByStatus(w: World) returns (counts: map<FileStatus, nat>, total: nat)
    ensures counts == ProgressOf(w.db).counts && total == |w.db.files|
  {
    counts, total := map[], 0;
    var rest := w.db.files.Keys;
    assert Tally(w.db, counts, rest) by {
      forall s ensures WithStatus(w.db, s) - rest == {} { assert WithStatus(w.db, s) <= rest; }
    }
    while rest != {}
      invariant rest <= w.db.files.Keys && total + |rest| == |w.db.files.Keys| && Tally(w.db, counts, rest)
      decreases rest
    {
      var f := Least(rest);
      var s := w.db.files[f].status;
      TallyOne(w.db, counts, rest, f);
      counts := counts[s := (if s in counts then counts[s] else 0) + 1];
      total := total + 1;
      rest := rest - {f};
    }
    TallyAll(w.db, counts);
  }

  method PipelineProgress(w: World) returns (r: Option<Progress>)
    requires w.Valid()
    ensures r.Some? ==> r.value == ProgressOf(w.db)
    ensures w.quiet ==> r.Some?
  {
    var failed := w.Fails();
    if failed { return None; }
    var counts, total := CountByStatus(w);
    var reserved := DownloadStore.ReservedCacheBytes(w);
    if reserved.None? { return None; }
    var registered := BaiduTaskRoot in w.db.owned;
    r := Some(Progress(!w.db.task.scanCompleted, total, counts, reserved.value,
                       w.db.task.driveRootId != "" && w.db.task.driveRootName != "",
                       registered, registered && w.db.owned[BaiduTaskRoot].cleaned));
  }

  method UpdateTaskStatus(w: World, status: TaskStatus) returns (ok: bool)
    requires w.Valid()
    modifies w
    ensures w.Valid() && (if ok then w.Committed(SetTaskStatus(status)) else w.Same())
    ensures w.quiet ==> ok
  {
    var failed := w.Fails();
    if failed { return false; }
    w.Commit(SetTaskStatus(status), w.db.(task := w.db.task.(status := status)));
    ok := true;
  }

  method CompleteTaskScan(w: World) returns (ok: bool)
    requires w.Valid()
    modifies w
    ensures w.Valid() && (if ok then w.Committed(CompleteScan) else w.Same())
    ensures w.quiet && !old(w.db).task.scanCompleted && old(w.db).task.status.TaskScanning? ==> ok
  {
    var failed := w.Fails();
    var affected := if !w.db.task.scanCompleted && w.db.task.status.TaskScanning? then 1 else 0;
    if failed || affected != 1 { return false; }
    w.Commit(CompleteScan, w.db.(task := w.db.task.(scanCompleted := true, status := TaskPaused)));
    ok := true;
  }
}
