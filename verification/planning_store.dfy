/** The planning transactions: the planners' cuts carried out on the tables
    (internal/state/staging_store.go and internal/state/staging_bounded.go). */
module PlanningStore {
  import opened Wrappers
  import opened Model
  import opened Tables
  import opened Transactions
  import opened Durable
  import opened Worlds
  import opened Invariant
  import opened Planner

  /** The answer of the planning query: every discovered file once. */
  ghost predicate Lists(db: Db, ids: seq<FileId>) {
    Distinct(ids) && forall f :: f in ids <==> f in db.files && db.files[f].status.Discovered?
  }

  function Items(db: Db, ids: seq<FileId>): (list: seq<Item>)
    requires forall f :: f in ids ==> f in db.files
    ensures |list| == |ids|
  {
    seq(|ids|, i requires 0 <= i < |ids| => ItemOf(db, ids, i))
  }

  function ItemOf(db: Db, ids: seq<FileId>, i: nat): Item
    requires i < |ids| && forall f :: f in ids ==> f in db.files
  {
    var f := ids[i];
    assert f in ids;
    Item(f, Parent(db.files[f].path), db.files[f].size)
  }

  function ChunkOf(truth: Truth, task: string, ids: seq<FileId>, parent: Path, start: nat, end: nat): Chunk
    requires start <= end <= |ids|
  {
    Chunk(truth.batchId(task, parent, ids[start..end]), parent, ids[start..end])
  }

  /** The batches that the cut positions make of the listed files from start on. */
  function ChunksAt(truth: Truth, task: string, list: seq<Item>, ids: seq<FileId>, start: nat, cuts: seq<nat>): seq<Chunk>
    requires |list| == |ids|
    decreases |cuts|
  {
    if cuts == [] || cuts[0] > |ids| || start >= cuts[0] then []
    else [ChunkOf(truth, task, ids, list[start].parent, start, cuts[0])] + ChunksAt(truth, task, list, ids, cuts[0], cuts[1..])
  }

  lemma {:induction false} ParentEndShared(list: seq<Item>, start: nat, mid: nat)
    requires start < |list| && start < mid < ParentEnd(list, start, start + 1)
    ensures ParentEnd(list, mid, mid + 1) == ParentEnd(list, start, start + 1)
  {
    var stop := ParentEnd(list, start, start + 1);
    assert list[mid].parent == list[start].parent;
    ParentEndFrom(list, mid, mid + 1, stop);
  }

  lemma {:induction false} ParentEndFrom(list: seq<Item>, start: nat, end: nat, stop: nat)
    requires start < end <= stop <= |list|
    requires stop < |list| ==> list[stop].parent != list[start].parent
    requires forall i :: end <= i < stop ==> list[i].parent == list[start].parent
    ensures ParentEnd(list, start, end) == stop
    decreases stop - end
  {
    if end < stop { ParentEndFrom(list, start, end + 1, stop); }
  }

  /** Undispatched files as the query lists them; its order is left open. */
  method DiscoveredFiles(w: World) returns (ids: seq<FileId>)
    ensures Lists(w.db, ids)
  {
    ids := Enumerate(set f | f in w.db.files && w.db.files[f].status.Discovered?);
  }

  /** The end of the run of files with the same parent. */
  method FindParentEnd(list: seq<Item>, start: nat) returns (end: nat)
    requires start < |list|
    ensures end == ParentEnd(list, start, start + 1)
  {
    end := start + 1;
    while end < |list| && list[end].parent == list[start].parent
      invariant start < end <= |list|
      invariant ParentEnd(list, start, end) == ParentEnd(list, start, start + 1)
    {
      end := end + 1;
    }
  }

  /** One batch's rows: batch_files, then the files' status, one file after the other. */
  method AssignFiles(members: map<FileId, Member>, files: map<FileId, FileRow>, batch: BatchId, ids: seq<FileId>)
    returns (members': map<FileId, Member>, files': map<FileId, FileRow>)
    requires Distinct(ids) && forall f :: f in ids ==> f in files && f !in members
    ensures members' == WithMembers(members, batch, ids)
    ensures files' == map f | f in files :: if f in ids then files[f].(status := Planned) else files[f]
  {
    members', files' := members, files;
    var i := 0;
    while i < |ids|
      invariant 0 <= i <= |ids| && files'.Keys == files.Keys
      invariant members' == WithMembers(members, batch, ids[..i])
      invariant forall f :: f in files ==> files'[f] == if f in ids[..i] then files[f].(status := Planned) else files[f]
    {
      var f := ids[i];
      assert f in ids && f !in ids[..i] && ids[..i + 1] == ids[..i] + [f] && ids[..i + 1][..i] == ids[..i];
      members' := members'[f := Member(batch, i)];
      files' := files'[f := files'[f].(status := Planned)];
      i := i + 1;
    }
    assert ids[..i] == ids;
    forall f | f in files ensures files'[f] == if f in ids then files[f].(status := Planned) else files[f] {
      assert f in ids <==> f in ids[..i];
    }
  }

  /** Inserts one batch; a batch ID already in use rolls the plan back. */
  method InsertBatch(db: Db, c: Chunk, totalBytes: nat) returns (r: Option<Db>)
    requires c.batch !in db.batches ==> CanPlanChunk(db, c) && totalBytes == SizeSeq(db.files, c.files)
    ensures r == if CanPlanChunk(db, c) then Some(PlanChunk(db, c)) else None
  {
    if c.batch in db.batches { return None; }
    var owned := db.owned;
    if BaiduBatchDir(c.batch) !in owned { owned := owned[BaiduBatchDir(c.batch) := OwnedRow(InStaging(BatchDir(c.batch)), false, false)]; }
    var members, files := AssignFiles(db.members, db.files, c.batch, c.files);
    assert owned == PlanChunk(db, c).owned && members == PlanChunk(db, c).members && files == PlanChunk(db, c).files;
    r := Some(db.(batches := db.batches[c.batch := BatchRow(c.parent, BatchDir(c.batch), BatchPending, |c.files|, totalBytes, 0)],
                  owned := owned, members := members, files := files));
  }

  // ----- the planners --------------------------------------------------------

  /** The files from position n on are still as they were, and the same batches exist as were planned. */
  ghost predicate Untouched(db: Db, cur: Db, ids: seq<FileId>, n: nat) {
    && cur.task == db.task && cur.files.Keys == db.files.Keys
    && (forall f :: f in db.files ==> cur.files[f].path == db.files[f].path && cur.files[f].size == db.files[f].size)
    && (forall i :: n <= i < |ids| ==> ids[i] in db.files && cur.files[ids[i]] == db.files[ids[i]] && ids[i] !in cur.members)
  }

  lemma SizeSeqLast(files: map<FileId, FileRow>, ids: seq<FileId>)
    requires ids != [] && forall f :: f in ids ==> f in files
    ensures forall f :: f in ids[..|ids| - 1] ==> f in files
    ensures ids[|ids| - 1] in files && SizeSeq(files, ids) == SizeSeq(files, ids[..|ids| - 1]) + files[ids[|ids| - 1]].size
  {
    var last := ids[|ids| - 1];
    assert last in ids;
  }

  lemma SliceOf(ids: seq<FileId>, start: nat, end: nat)
    requires start <= end <= |ids|
    ensures forall f :: f in ids[start..end] ==> f in ids
    ensures start < end ==> ids[end - 1] in ids && ids[start..end][..end - start - 1] == ids[start..end - 1] && ids[start..end][end - start - 1] == ids[end - 1]
  {
    forall f | f in ids[start..end] ensures f in ids {}
  }

  lemma {:induction false} SizesAreBytes(db: Db, cur: Db, ids: seq<FileId>, start: nat, end: nat)
    requires start <= end <= |ids| && (forall f :: f in ids ==> f in db.files && f in cur.files && cur.files[f].size == db.files[f].size)
    ensures forall f :: f in ids[start..end] ==> f in cur.files
    ensures SizeSeq(cur.files, ids[start..end]) == Bytes(Items(db, ids), start, end)
    decreases end
  {
    SliceOf(ids, start, end);
    if start < end {
      SizesAreBytes(db, cur, ids, start, end - 1);
      SizeSeqLast(cur.files, ids[start..end]);
      assert Items(db, ids)[end - 1] == ItemOf(db, ids, end - 1);
    }
  }

  /** A slice of untouched files of one parent can be planned unless its batch ID is taken. */
  lemma SlicePlannable(db: Db, cur: Db, ids: seq<FileId>, start: nat, end: nat, c: Chunk)
    requires Lists(db, ids) && Untouched(db, cur, ids, start) && start < end <= |ids| && c.files == ids[start..end]
    requires forall i :: start <= i < end ==> Items(db, ids)[i].parent == c.parent
    ensures c.batch !in cur.batches ==> CanPlanChunk(cur, c) && SizeSeq(cur.files, c.files) == Bytes(Items(db, ids), start, end)
  {
    forall f | f in c.files ensures f in cur.files && cur.files[f].status.Discovered? && f !in cur.members && Parent(cur.files[f].path) == c.parent {
      var i :| start <= i < end && ids[i] == f;
      assert Items(db, ids)[i].parent == c.parent;
    }
    assert forall f :: f in ids ==> f in db.files;
    SizesAreBytes(db, cur, ids, start, end);
    assert Distinct(c.files) by {
      forall i, j | 0 <= i < j < |c.files| ensures c.files[i] != c.files[j] { assert ids[start + i] != ids[start + j]; }
    }
  }

  lemma SliceTouches(db: Db, cur: Db, ids: seq<FileId>, start: nat, end: nat, c: Chunk)
    requires Lists(db, ids) && Untouched(db, cur, ids, start) && start < end <= |ids| && c.files == ids[start..end] && CanPlanChunk(cur, c)
    ensures Untouched(db, PlanChunk(cur, c), ids, end)
  {
    PlanChunkMembers(cur, c, c.batch);
    var cur' := PlanChunk(cur, c);
    forall i | end <= i < |ids| ensures ids[i] in db.files && cur'.files[ids[i]] == db.files[ids[i]] && ids[i] !in cur'.members {
      forall j | start <= j < end ensures ids[j] != ids[i] {}
      var f := ids[i];
      assert f !in c.files;
    }
  }

  /** What the planners' loops keep: the chunks inserted so far, and that the remaining cuts will complete the plan. */
  ghost predicate Underway(truth: Truth, db: Db, ids: seq<FileId>, cur: Db, chunks: seq<Chunk>, at: nat, rest: seq<nat>, all: seq<Chunk>) {
    && Lists(db, ids) && at <= |ids|
    && PlanChunks(RegisterTaskRoot(db), chunks) == Some(cur) && Untouched(db, cur, ids, at)
    && chunks + ChunksAt(truth, db.task.id, Items(db, ids), ids, at, rest) == all
  }

  lemma {:induction false} PlanFails(db: Db, chunks: seq<Chunk>, n: nat)
    requires n <= |chunks| && PlanChunks(db, chunks[..n]).None?
    ensures PlanChunks(db, chunks).None?
    decreases |chunks|
  {
    if n == |chunks| {
      assert chunks[..n] == chunks;
    } else {
      assert chunks[..|chunks| - 1][..n] == chunks[..n];
      PlanFails(db, chunks[..|chunks| - 1], n);
    }
  }

  /** Taking the next cut off the rest of a plan. */
  lemma PlanSplits(truth: Truth, task: string, list: seq<Item>, ids: seq<FileId>, chunks: seq<Chunk>, at: nat, end: nat, rest: seq<nat>)
    requires |list| == |ids| && at < end <= |ids|
    ensures var c := ChunkOf(truth, task, ids, list[at].parent, at, end);
            chunks + ChunksAt(truth, task, list, ids, at, [end] + rest) == (chunks + [c]) + ChunksAt(truth, task, list, ids, end, rest)
  {
    assert ([end] + rest)[1..] == rest;
    var c, tail := ChunkOf(truth, task, ids, list[at].parent, at, end), ChunksAt(truth, task, list, ids, end, rest);
    assert chunks + ([c] + tail) == (chunks + [c]) + tail;
  }

  lemma NextChunk(db: Db, chunks: seq<Chunk>, c: Chunk, cur: Db)
    requires PlanChunks(db, chunks) == Some(cur)
    ensures PlanChunks(db, chunks + [c]) == if CanPlanChunk(cur, c) then Some(PlanChunk(cur, c)) else None
  {
    assert (chunks + [c])[..|chunks|] == chunks;
  }

  /** One more batch inserted, or the whole plan refused. */
  lemma ChunkInserted(truth: Truth, db: Db, ids: seq<FileId>, cur: Db, chunks: seq<Chunk>, at: nat, end: nat, rest: seq<nat>, all: seq<Chunk>)
    requires Underway(truth, db, ids, cur, chunks, at, [end] + rest, all) && at < end <= |ids|
    requires forall i :: at <= i < end ==> Items(db, ids)[i].parent == Items(db, ids)[at].parent
    ensures var c := ChunkOf(truth, db.task.id, ids, Items(db, ids)[at].parent, at, end);
            && (c.batch !in cur.batches ==> CanPlanChunk(cur, c) && SizeSeq(cur.files, c.files) == Bytes(Items(db, ids), at, end))
            && (CanPlanChunk(cur, c) ==> Underway(truth, db, ids, PlanChunk(cur, c), chunks + [c], end, rest, all))
            && (!CanPlanChunk(cur, c) ==> PlanAll(db, all).None?)
  {
    hide CanPlanChunk, PlanChunk, Untouched, ChunksAt, PlanChunks;
    var c := ChunkOf(truth, db.task.id, ids, Items(db, ids)[at].parent, at, end);
    SlicePlannable(db, cur, ids, at, end, c);
    PlanSplits(truth, db.task.id, Items(db, ids), ids, chunks, at, end, rest);
    NextChunk(RegisterTaskRoot(db), chunks, c, cur);
    if CanPlanChunk(cur, c) {
      SliceTouches(db, cur, ids, at, end, c);
    } else {
      assert all[..|chunks| + 1] == chunks + [c];
      PlanFails(RegisterTaskRoot(db), all, |chunks| + 1);
    }
  }

  /** The byte-bounded fill of one batch. */
  method FillBatch(list: seq<Item>, start: nat, stop: nat, maxFiles: nat, maxBytes: nat) returns (end: nat, totalBytes: nat)
    requires start < stop <= |list| && 0 < maxFiles
    ensures end == FillEnd(list, start, start, stop, maxFiles, maxBytes) && totalBytes == Bytes(list, start, end)
  {
    end, totalBytes := start, 0;
    while end < stop && end - start < maxFiles
      invariant start <= end <= stop && totalBytes == Bytes(list, start, end)
      invariant FillEnd(list, start, end, stop, maxFiles, maxBytes) == FillEnd(list, start, start, stop, maxFiles, maxBytes)
    {
      var next := list[end].size;
      if end > start && totalBytes + next > maxBytes { return; }
      totalBytes := totalBytes + next;
      end := end + 1;
      if totalBytes >= maxBytes { return; }
    }
  }

  /** The files of one parent directory, cut by bytes and count. */
  method PlanParentBounded(truth: Truth, ghost db: Db, task: string, list: seq<Item>, ids: seq<FileId>, cur: Db, chunks: seq<Chunk>,
                           start: nat, stop: nat, maxFiles: nat, maxBytes: nat, ghost all: seq<Chunk>)
    returns (r: Option<Db>, made: seq<Chunk>)
    requires start < |ids| && 0 < maxFiles && task == db.task.id && Lists(db, ids)
    requires list == Items(db, ids) && stop == ParentEnd(list, start, start + 1)
    requires Underway(truth, db, ids, cur, chunks, start, BoundedCuts(list, start, maxFiles, maxBytes), all)
    ensures r.Some? ==> Underway(truth, db, ids, r.value, made, stop, BoundedCuts(list, stop, maxFiles, maxBytes), all)
    ensures r.None? ==> PlanAll(db, all).None?
  {
    hide Untouched, PlanChunks, CanPlanChunk, PlanChunk, PlanAll, BoundedCuts;
    var tx := cur;
    made := chunks;
    var chunkStart := start;
    while chunkStart < stop
      invariant start <= chunkStart <= stop
      invariant Underway(truth, db, ids, tx, made, chunkStart, BoundedCuts(list, chunkStart, maxFiles, maxBytes), all)
    {
      BoundedCutsStep(list, start, chunkStart, maxFiles, maxBytes);
      var chunkEnd, totalBytes := FillBatch(list, chunkStart, stop, maxFiles, maxBytes);
      var c := ChunkOf(truth, task, ids, list[chunkStart].parent, chunkStart, chunkEnd);
      ChunkInserted(truth, db, ids, tx, made, chunkStart, chunkEnd, BoundedCuts(list, chunkEnd, maxFiles, maxBytes), all);
      var inserted := InsertBatch(tx, c, totalBytes);
      if inserted.None? { return None, made; }
      tx, made, chunkStart := inserted.value, made + [c], chunkEnd;
    }
    r := Some(tx);
  }

  lemma BoundedCutsStep(list: seq<Item>, start: nat, mid: nat, maxFiles: nat, maxBytes: nat)
    requires start < |list| && 0 < maxFiles && start <= mid < ParentEnd(list, start, start + 1)
    ensures var stop := ParentEnd(list, start, start + 1);
            var end := FillEnd(list, mid, mid, stop, maxFiles, maxBytes);
            && mid < end <= stop && BoundedCuts(list, mid, maxFiles, maxBytes) == [end] + BoundedCuts(list, end, maxFiles, maxBytes)
            && forall i :: mid <= i < end ==> list[i].parent == list[mid].parent
  {
    if start < mid { ParentEndShared(list, start, mid); }
    assert list[mid].parent == list[start].parent;
    BoundedEndAdvances(list, mid, maxFiles, maxBytes);
  }

  lemma CountCutsStep(list: seq<Item>, start: nat, mid: nat, maxFiles: nat)
    requires start < |list| && 0 < maxFiles && start <= mid < ParentEnd(list, start, start + 1)
    ensures var stop := ParentEnd(list, start, start + 1);
            var end := if mid + maxFiles > stop then stop else mid + maxFiles;
            && CountCuts(list, mid, maxFiles) == [end] + CountCuts(list, end, maxFiles)
            && forall i :: mid <= i < end ==> list[i].parent == list[mid].parent
  {
    if start < mid { ParentEndShared(list, start, mid); }
    assert list[mid].parent == list[start].parent;
  }

  /** The same, cut by count only. */
  method PlanParent(truth: Truth, ghost db: Db, task: string, list: seq<Item>, ids: seq<FileId>, cur: Db, chunks: seq<Chunk>,
                    start: nat, stop: nat, maxFiles: nat, ghost all: seq<Chunk>)
    returns (r: Option<Db>, made: seq<Chunk>)
    requires start < |ids| && 0 < maxFiles && task == db.task.id && Lists(db, ids)
    requires list == Items(db, ids) && stop == ParentEnd(list, start, start + 1)
    requires Underway(truth, db, ids, cur, chunks, start, CountCuts(list, start, maxFiles), all)
    ensures r.Some? ==> Underway(truth, db, ids, r.value, made, stop, CountCuts(list, stop, maxFiles), all)
    ensures r.None? ==> PlanAll(db, all).None?
  {
    hide Untouched, PlanChunks, CanPlanChunk, PlanChunk, PlanAll, CountCuts;
    var tx := cur;
    made := chunks;
    var chunkStart := start;
    while chunkStart < stop
      invariant start <= chunkStart <= stop
      invariant Underway(truth, db, ids, tx, made, chunkStart, CountCuts(list, chunkStart, maxFiles), all)
    {
      CountCutsStep(list, start, chunkStart, maxFiles);
      var chunkEnd := chunkStart + maxFiles;
      if chunkEnd > stop { chunkEnd := stop; }
      var c := ChunkOf(truth, task, ids, list[chunkStart].parent, chunkStart, chunkEnd);
      ChunkInserted(truth, db, ids, tx, made, chunkStart, chunkEnd, CountCuts(list, chunkEnd, maxFiles), all);
      var totalBytes := SumSizes(list, chunkStart, chunkEnd);
      var inserted := InsertBatch(tx, c, totalBytes);
      if inserted.None? { return None, made; }
      tx, made, chunkStart := inserted.value, made + [c], chunkEnd;
    }
    r := Some(tx);
  }

  method SumSizes(list: seq<Item>, start: nat, end: nat) returns (totalBytes: nat)
    requires start <= end <= |list|
    ensures totalBytes == Bytes(list, start, end)
  {
    totalBytes := 0;
    for i := start to end
      invariant totalBytes == Bytes(list, start, i)
    {
      totalBytes := totalBytes + list[i].size;
    }
  }

  /** The cuts a plan makes: by count alone when no byte limit is given. */
  function PlannedCuts(list: seq<Item>, start: nat, maxFiles: nat, maxBytes: int): seq<nat>
    requires start <= |list| && 0 < maxFiles
  {
    if maxBytes <= 0 then CountCuts(list, start, maxFiles) else BoundedCuts(list, start, maxFiles, maxBytes)
  }

  /** The batches of a whole plan over one answer of the planning query. */
  function PlanOf(truth: Truth, db: Db, ids: seq<FileId>, maxFiles: nat, maxBytes: int): seq<Chunk>
    requires 0 < maxFiles && forall f :: f in ids ==> f in db.files
  {
    ChunksAt(truth, db.task.id, Items(db, ids), ids, 0, PlannedCuts(Items(db, ids), 0, maxFiles, maxBytes))
  }

  /** PlanBatchesBounded, and PlanBatches when maxBytes is not positive: one transaction. */
  method PlanBatchesBounded(w: World, maxFiles: int, maxBytes: int) returns (r: Option<seq<Chunk>>, ghost ids: seq<FileId>)
    requires w.Valid()
    modifies w
    ensures w.Valid() && (if r.Some? then w.Committed(Plan(r.value)) else w.Same())
    ensures Lists(old(w.db), ids)
    ensures r.Some? ==> 0 < maxFiles < 500 && SafeComponent(old(w.db).task.id) && r.value == PlanOf(w.truth, old(w.db), ids, maxFiles, maxBytes)
    ensures w.quiet && r.None? && 0 < maxFiles < 500 && SafeComponent(old(w.db).task.id) ==>
              PlanAll(old(w.db), PlanOf(w.truth, old(w.db), ids, maxFiles, maxBytes)).None?
  {
    hide Untouched, PlanChunks, CanPlanChunk, PlanChunk, ChunksAt, PathsOk, BatchOk, TotalOk, FileOk, OwnedOk;
    var failed := w.Fails();
    var discovered := DiscoveredFiles(w);
    ids := discovered;
    if failed || maxFiles <= 0 || maxFiles >= 500 || !SafeComponent(w.db.task.id) { return None, ids; }
    var list := Items(w.db, discovered);
    ghost var db, all := w.db, PlanOf(w.truth, w.db, discovered, maxFiles, maxBytes);
    var task := w.db.task.id;
    var made := [];
    var tx := w.db;
    if |discovered| > 0 {
      tx := tx.(owned := InsertIfAbsent(tx.owned, BaiduTaskRoot, InStaging(TaskRoot)));
      w.InOrder();
      PlanStarts(w.truth, w.db, discovered, PlannedCuts(list, 0, maxFiles, maxBytes));
      var start := 0;
      while start < |discovered|
        modifies {}
        invariant 0 <= start <= |discovered|
        invariant Underway(w.truth, db, discovered, tx, made, start, PlannedCuts(list, start, maxFiles, maxBytes), all)
      {
        var stop := FindParentEnd(list, start);
        var next;
        if maxBytes <= 0 {
          next, made := PlanParent(w.truth, db, task, list, discovered, tx, made, start, stop, maxFiles, all);
        } else {
          next, made := PlanParentBounded(w.truth, db, task, list, discovered, tx, made, start, stop, maxFiles, maxBytes, all);
        }
        if next.None? { return None, ids; }
        tx, start := next.value, stop;
      }
      PlanNotEmpty(w.truth, db, discovered, maxFiles, maxBytes);
      PlanEnds(w.truth, db, discovered, tx, made, all);
    } else {
      EmptyPlan(w.truth, db, maxFiles, maxBytes);
    }
    w.Commit(Plan(made), tx);
    r := Some(made);
  }

  lemma PlanStarts(truth: Truth, db: Db, ids: seq<FileId>, cuts: seq<nat>)
    requires Lists(db, ids) && MembersOk(db)
    ensures Underway(truth, db, ids, RegisterTaskRoot(db), [], 0, cuts, ChunksAt(truth, db.task.id, Items(db, ids), ids, 0, cuts))
  {
    forall i | 0 <= i < |ids| ensures ids[i] in db.files && ids[i] !in db.members {
      var f := ids[i];
      assert f in ids;
    }
  }

  lemma PlanNotEmpty(truth: Truth, db: Db, ids: seq<FileId>, maxFiles: nat, maxBytes: int)
    requires 0 < maxFiles && Lists(db, ids) && ids != []
    ensures PlanOf(truth, db, ids, maxFiles, maxBytes) != []
  {
    var list := Items(db, ids);
    if maxBytes > 0 { BoundedEndAdvances(list, 0, maxFiles, maxBytes); }
    assert PlannedCuts(list, 0, maxFiles, maxBytes)[0] > 0;
  }

  lemma EmptyPlan(truth: Truth, db: Db, maxFiles: nat, maxBytes: int)
    requires 0 < maxFiles
    ensures PlanOf(truth, db, [], maxFiles, maxBytes) == []
  {
  }

  lemma PlanEnds(truth: Truth, db: Db, ids: seq<FileId>, cur: Db, chunks: seq<Chunk>, all: seq<Chunk>)
    requires all != [] && Underway(truth, db, ids, cur, chunks, |ids|, [], all)
    ensures chunks == all && PlanAll(db, chunks) == Some(cur)
  {
    assert chunks + [] == chunks;
  }

  function AllFiles(chunks: seq<Chunk>): seq<FileId> {
    if chunks == [] then [] else chunks[0].files + AllFiles(chunks[1..])
  }

  /** Legal cuts make batches whose files, one batch after the other, are exactly the listed files. */
  lemma {:induction false} ChunksCover(truth: Truth, task: string, list: seq<Item>, ids: seq<FileId>, start: nat, cuts: seq<nat>, maxFiles: nat, maxBytes: nat)
    requires |list| == |ids| && start <= |ids| && LegalCuts(list, start, cuts, maxFiles, maxBytes)
    ensures |ChunksAt(truth, task, list, ids, start, cuts)| == |cuts|
    ensures AllFiles(ChunksAt(truth, task, list, ids, start, cuts)) == ids[start..]
    decreases |cuts|
  {
    if cuts != [] {
      ChunksCover(truth, task, list, ids, cuts[0], cuts[1..], maxFiles, maxBytes);
      assert ids[start..] == ids[start..cuts[0]] + ids[cuts[0]..];
    }
  }

  /** A bounded plan leaves no listed file out, repeats none, and has as few batches as any legal partition
      could have, but for those closed early. */
  lemma BoundedPlanMinimal(truth: Truth, db: Db, ids: seq<FileId>, maxFiles: nat, maxBytes: nat, cuts: seq<nat>)
    requires 0 < maxFiles && 0 < maxBytes && Lists(db, ids)
    requires LegalCuts(Items(db, ids), 0, cuts, maxFiles, maxBytes)
    ensures AllFiles(PlanOf(truth, db, ids, maxFiles, maxBytes)) == ids
    ensures |PlanOf(truth, db, ids, maxFiles, maxBytes)| <= |cuts| + EarlyCloses(Items(db, ids), 0, maxFiles, maxBytes)
    ensures PositiveSizes(Items(db, ids)) ==> |PlanOf(truth, db, ids, maxFiles, maxBytes)| <= |cuts|
  {
    var list := Items(db, ids);
    BoundedCutsLegal(list, 0, maxFiles, maxBytes);
    BoundedCutsNearMinimal(list, cuts, maxFiles, maxBytes);
    if PositiveSizes(list) { PositiveNeverEarly(list, 0, maxFiles, maxBytes); }
    ChunksCover(truth, db.task.id, list, ids, 0, BoundedCuts(list, 0, maxFiles, maxBytes), maxFiles, maxBytes);
    assert ids[0..] == ids;
  }

  // ----- nothing stays unplanned -------------------------------------------------

  lemma {:induction false} InSomeChunk(chunks: seq<Chunk>, f: FileId) returns (i: nat)
    requires f in AllFiles(chunks)
    ensures i < |chunks| && f in chunks[i].files
  {
    if f in chunks[0].files {
      i := 0;
    } else {
      var j := InSomeChunk(chunks[1..], f);
      i := j + 1;
    }
  }

  lemma {:induction false} ChunkIsPlanned(db: Db, chunks: seq<Chunk>, i: nat, f: FileId)
    requires PlanChunks(db, chunks).Some? && i < |chunks| && f in chunks[i].files
    ensures f in PlanChunks(db, chunks).value.files && PlanChunks(db, chunks).value.files[f].status.Planned?
  {
    if i < |chunks| - 1 { ChunkIsPlanned(db, chunks[..|chunks| - 1], i, f); }
  }

  /** Every file that was discovered is planned when the transaction commits. */
  lemma DiscoveredArePlanned(truth: Truth, db: Db, ids: seq<FileId>, maxFiles: nat, maxBytes: nat, f: FileId)
    requires 0 < maxFiles && 0 < maxBytes && Lists(db, ids) && f in ids
    requires PlanAll(db, PlanOf(truth, db, ids, maxFiles, maxBytes)).Some?
    ensures var db' := PlanAll(db, PlanOf(truth, db, ids, maxFiles, maxBytes)).value; f in db'.files && db'.files[f].status.Planned?
  {
    hide PlanOf;
    var list := Items(db, ids);
    BoundedCutsLegal(list, 0, maxFiles, maxBytes);
    BoundedPlanMinimal(truth, db, ids, maxFiles, maxBytes, BoundedCuts(list, 0, maxFiles, maxBytes));
    var i := InSomeChunk(PlanOf(truth, db, ids, maxFiles, maxBytes), f);
    ChunkIsPlanned(RegisterTaskRoot(db), PlanOf(truth, db, ids, maxFiles, maxBytes), i, f);
  }

  /** Below the byte limit the bounded planner makes the very batches of the unbounded one. */
  lemma PlansAgree(truth: Truth, db: Db, ids: seq<FileId>, maxFiles: nat, maxBytes: nat)
    requires 0 < maxFiles && Lists(db, ids) && Bytes(Items(db, ids), 0, |ids|) < maxBytes
    ensures PlanOf(truth, db, ids, maxFiles, maxBytes) == PlanOf(truth, db, ids, maxFiles, 0)
  {
    PlannersAgree(Items(db, ids), 0, maxFiles, maxBytes);
  }
}
