/** From the first page of the scan to COMPLETED: the manifest a task works from is the share's, and a
    completed task has every file of the share in Drive. */
module Migration {
  import opened Wrappers
  import opened Model
  import opened Tables
  import opened Transactions
  import opened Invariant
  import opened Runs
  import opened Durable
  import opened Worlds
  import opened Laws
  import opened ManifestStore
  import opened Safety
  import opened Delivery
  import opened Progresses
  import Cleanup
  import Pipeline
  import PipelineStore
  import Scans
  import ScanLogs
  import Scanner
  import Shares
  import Stage

  // ----- the manifest of every run ------------------------------------------------------

  /** A part of the share and nothing else, untouched so far. */
  ghost predicate Partial(c: Contents, db: Db) {
    Holds(c, db, db.directories, db.files.Keys) && db.batches == map[] && db.members == map[]
  }

  /** Exactly the share's files, under their paths and with their sizes. */
  ghost predicate Manifested(c: Contents, db: Db) {
    && db.files.Keys == c.files.Keys
    && forall f :: f in db.files ==> db.files[f].path == c.files[f].path && db.files[f].size == c.files[f].size
  }

  /** While the scan runs the tables hold a part of the share, afterwards all of it. */
  ghost predicate Faithful(c: Contents, db: Db) {
    if db.task.scanCompleted then Manifested(c, db) else Partial(c, db)
  }

  lemma PageKeepsPartial(c: Contents, db: Db, dirs: seq<Path>, files: seq<ManifestFile>)
    requires WellFormed(c) && Partial(c, db) && PageOf(c, Page(dirs, files)) && UpsertManifest(db, dirs, files).Some?
    ensures Partial(c, UpsertManifest(db, dirs, files).value) && UpsertManifest(db, dirs, files).value.task == db.task
  {
    hide Holds, WellFormed, PageOf;
    PageAdds(c, db, db.directories, db.files.Keys, Page(dirs, files));
    HoldsExactly(c, UpsertManifest(db, dirs, files).value, db.directories + (set p | p in dirs), db.files.Keys + IdsOf(files));
  }

  lemma HoldsExactly(c: Contents, db: Db, dirs: set<Path>, ids: set<FileId>)
    requires Holds(c, db, dirs, ids)
    ensures dirs == db.directories && ids == db.files.Keys
  {
  }

  /** Nothing but the scan changes files before it is complete. */
  lemma ScanningTx(k: Rules, s: Snap, op: Op, s': Snap)
    requires k.share.Some? && WellFormed(k.share.value) && !s.db.task.scanCompleted && Partial(k.share.value, s.db)
    requires Attempt(s.db, op) == Some(s'.db) && (OfCleanup(Tx(op)) || LawfulTx(k, s, op))
    ensures Faithful(k.share.value, s'.db)
  {
    hide WellFormed, UpsertManifest, PageOf;
    if op.UpsertPage? {
      PageKeepsPartial(k.share.value, s.db, op.dirs, op.files);
    } else {
      OtherTx(k, s, op, s');
    }
  }

  lemma OtherTx(k: Rules, s: Snap, op: Op, s': Snap)
    requires k.share.Some? && !s.db.task.scanCompleted && Partial(k.share.value, s.db) && !op.UpsertPage?
    requires Attempt(s.db, op) == Some(s'.db) && (OfCleanup(Tx(op)) || LawfulTx(k, s, op))
    ensures Faithful(k.share.value, s'.db)
  {
    assert forall b :: FilesOf(s.db, b) == {};
  }

  lemma ManifestStays(c: Contents, db: Db, db': Db)
    requires Manifested(c, db) && Evolves(db, db') && db'.files.Keys == db.files.Keys
    ensures Manifested(c, db')
  {
    forall f | f in db'.files ensures db'.files[f].path == c.files[f].path && db'.files[f].size == c.files[f].size { SamePlace(db, db', f); }
  }

  lemma FaithfulStep(k: Rules, states: seq<Snap>, moves: seq<Move>, i: nat)
    requires LawfulRun(k, states, moves) && i < |moves| && k.share.Some? && WellFormed(k.share.value) && Faithful(k.share.value, states[i].db)
    ensures Faithful(k.share.value, states[i + 1].db)
  {
    hide Consistent, Evolves, Attempt, Partial, Manifested, LawfulTx, Cleanup.Legal, WellFormed;
    ReadStep(k, states, moves, i);
    if states[i].db.task.scanCompleted {
      assert Lawful(k, states, moves, i);
      Pipeline.LawfulStepKeepsFiles(k, states, moves, i);
      ManifestStays(k.share.value, states[i].db, states[i + 1].db);
    } else if moves[i].Tx? {
      ScanningTx(k, states[i], moves[i].op, states[i + 1]);
    }
  }

  /** In every state of every lawful run on a share listed truthfully, through any interrupted scans. */
  lemma {:induction false} AlwaysFaithful(k: Rules, states: seq<Snap>, moves: seq<Move>, i: nat)
    requires LawfulRun(k, states, moves) && i <= |moves| && k.share.Some? && WellFormed(k.share.value)
    ensures Faithful(k.share.value, states[i].db)
  {
    hide Step, LawfulFrom, Partial, Manifested, WellFormed;
    if i == 0 {
      NothingYet(k.share.value, states[0].db.task.id);
    } else {
      AlwaysFaithful(k, states, moves, i - 1);
      FaithfulStep(k, states, moves, i - 1);
    }
  }

  lemma NothingYet(c: Contents, id: string)
    ensures Partial(c, EmptyDb(id)) && !EmptyDb(id).task.scanCompleted
  {
  }

  // ----- a completed migration ----------------------------------------------------------------

  /** Every file of the share, and no other, is DONE, and Drive holds exactly one object at its path: the one
      whose ID is persisted, of the listed size and with the MD5 of the source. */
  ghost predicate Migrated(k: Rules, c: Contents, s: Snap) {
    && s.db.files.Keys == c.files.Keys && OnePerPath(s.drive)
    && forall f :: f in c.files ==> InDrive(k, c.files[f], s, f)
  }

  ghost predicate InDrive(k: Rules, m: ManifestFile, s: Snap, f: FileId) {
    && f in s.db.files && s.db.files[f].status.Done? && s.db.files[f].driveId in s.drive && 0 <= m.size <= |k.truth.source(f)|
    && s.drive[s.db.files[f].driveId] == DriveObject(m.path, m.size, k.truth.md5(k.truth.source(f)[..m.size]), false)
  }

  lemma MigratedWhenDone(k: Rules, states: seq<Snap>, moves: seq<Move>, i: nat)
    requires k.honest && LawfulRun(k, states, moves) && i <= |moves| && k.share.Some? && WellFormed(k.share.value)
    requires states[i].db.task.scanCompleted && AllDone(states[i].db)
    ensures Migrated(k, k.share.value, states[i])
  {
    hide WellFormed, LawfulFrom, Step;
    AlwaysFaithful(k, states, moves, i);
    DriveAlwaysFaithful(k, states, moves, i);
    SourceInDrive(k, states, moves, i);
    var s, c := states[i], k.share.value;
    forall f | f in c.files ensures InDrive(k, c.files[f], s, f) {
      assert f in s.db.files && s.db.files[f].status.Done?;
      assert Held(s, f) && SourceStored(k, s, f);
    }
  }

  /** When a run marks the task COMPLETED, every file of the share is in Drive. */
  lemma CompletedMeansMigrated(k: Rules, states: seq<Snap>, moves: seq<Move>, i: nat)
    requires k.honest && LawfulRun(k, states, moves) && i < |moves| && k.share.Some? && WellFormed(k.share.value)
    requires moves[i] == Tx(SetTaskStatus(TaskCompleted))
    ensures Migrated(k, k.share.value, states[i])
  {
    hide WellFormed, Step, Delivered;
    assert Lawful(k, states, moves, i);
    MigratedWhenDone(k, states, moves, i);
  }

  // ----- the engines one after the other ---------------------------------------------------------

  /** ScanRunner.scanTask: the scan, and its completion recorded. */
  method ScanTask(w: World, ghost k: Rules, service: Scanner.Service, start: Path, patience: nat, ghost t: Scans.Track, ghost h: bool) returns (ok: bool)
    requires Scans.Scanning(k, w) && t.start == start && Scans.Known(k, t, h)
    requires h ==> Shares.HonestShare(service, start, t.e) && Scans.Held(t, w, ScanLogs.Log([], [], [])) && t.heldDirs <= t.e.contents.dirs && t.heldIds <= t.e.contents.files.Keys
    modifies w
    ensures w.Valid() && Governs(k, w) && Lawfully(k, old(w.History()), w.History())
    ensures ok ==> w.db.task.scanCompleted
  {
    hide LawfulFrom, Step, Attempt, Holds, Scans.Held;
    ghost var a := w.History();
    ghost var prefix;
    var at;
    ok, at, prefix := Scans.Scan(w, k, service, start, patience, t, h, false);
    ghost var b, db := w.History(), w.db;
    if ok {
      ok := PipelineStore.CompleteTaskScan(w);
      TxStepped(k, b, w, CompleteScan);
      LawfullyThen(k, a, b, w.History());
      if ok { ScanRecorded(db, w.db); }
    }
    if !ok {
      ghost var c := w.History();
      var cancelled: bool := *;
      var noted := Stage.NoteStatus(w, k, if cancelled then TaskPaused else TaskBlocked);
      LawfullyThen(k, a, c, w.History());
    }
  }

  lemma ScanRecorded(db: Db, db': Db)
    requires Attempt(db, CompleteScan) == Some(db')
    ensures db'.task.scanCompleted
  {
  }

  /** Started after any history, in particular after none and after a crash anywhere: the scan if it is not
      complete, then the scheduler. If that reports Completed, the whole share is in Drive. */
  method Migrate(at: Snap, ghost states: seq<Snap>, ghost moves: seq<Move>, ghost k: Rules, quiet: bool, honest: bool, truth: Truth,
                 service: Scanner.Service, start: Path, patience: nat, ghost e: Shares.Expected, limits: Pipeline.Limits)
    returns (w: World, r: Option<Pipeline.Outcome>)
    requires LawfulRun(k, states, moves) && states[|moves|] == at && k == Rules(honest, limits.maxCacheBytes, truth, Some(e.contents))
    requires 0 < limits.maxCacheBytes && Shares.HonestShare(service, start, e)
    ensures Pipeline.AllLawful(k, w) && states <= w.states && moves <= w.moves
    ensures honest && r == Some(Pipeline.Completed) ==> Migrated(k, e.contents, w.Now())
  {
    hide LawfulFrom, Step, Attempt, Holds, Shares.HonestShare, Partial, Migrated;
    w := new World.Restart(at, states, moves, quiet, honest, truth);
    ghost var a := w.History();
    Idle(k, a);
    if !at.db.task.scanCompleted {
      var noted := Stage.NoteStatus(w, k, TaskScanning);
      if !noted {
        Pipeline.StillLawful(k, a, w);
        return w, None;
      }
      ghost var b, t := w.History(), Scans.Track(start, e, w.db.directories, w.db.files.Keys, [], []);
      Pipeline.StillLawful(k, a, w);
      ReadyToScan(k, w, service, start, e, t);
      var scanned := ScanTask(w, k, service, start, patience, t, true);
      LawfullyThen(k, a, b, w.History());
      if !scanned {
        Pipeline.StillLawful(k, a, w);
        return w, None;
      }
    }
    Pipeline.StillLawful(k, a, w);
    ghost var c := w.History();
    var outcome, passes := Pipeline.Run(w, k, limits);
    LawfullyThen(k, a, c, w.History());
    if honest && outcome.Completed? { EndsMigrated(k, w, service, start, e); }
    r := Some(outcome);
  }

  lemma ReadyToScan(k: Rules, w: World, service: Scanner.Service, start: Path, e: Shares.Expected, t: Scans.Track)
    requires Pipeline.AllLawful(k, w) && k.share == Some(e.contents) && Shares.HonestShare(service, start, e) && !w.db.task.scanCompleted
    requires t == Scans.Track(start, e, w.db.directories, w.db.files.Keys, [], [])
    ensures Scans.Scanning(k, w) && Scans.Held(t, w, ScanLogs.Log([], [], [])) && t.heldDirs <= e.contents.dirs && t.heldIds <= e.contents.files.Keys
  {
    AlwaysFaithful(k, w.states, w.moves, |w.moves|);
    var none: seq<ManifestFile>, nowhere: seq<Path> := [], [];
    assert t.heldDirs + (set p | p in nowhere) == t.heldDirs && t.heldIds + IdsOf(none) == t.heldIds;
  }

  lemma EndsMigrated(k: Rules, w: World, service: Scanner.Service, start: Path, e: Shares.Expected)
    requires Pipeline.AllLawful(k, w) && k.honest && k.share == Some(e.contents) && Shares.HonestShare(service, start, e)
    requires w.db.task.scanCompleted && CompleteDb(w.db)
    ensures Migrated(k, e.contents, w.Now())
  {
    hide Migrated;
    MigratedWhenDone(k, w.states, w.moves, |w.moves|);
  }
}
