/** Scan (internal/baidu/scanner.go) against any service, and against an honest share. */
module Scans {
  import opened Wrappers
  import opened Model
  import opened Tables
  import opened Transactions
  import opened Durable
  import opened Worlds
  import opened Laws
  import opened ManifestStore
  import opened Scanner
  import opened ScanLogs
  import opened Shares

  // ----- one page of an honest share -----------------------------------------------------

  /** Where an honest scan stands: the share, the part of its manifest that was stored before, the
      directories visited so far and the queue behind the current one. */
  datatype Track = Track(start: Path, e: Expected, heldDirs: set<Path>, heldIds: set<FileId>, visits: seq<Path>, rest: seq<ScanDir>)

  function Entries(prefix: Path, dirs: seq<Path>): seq<ScanDir> {
    if dirs == [] then [] else Entries(prefix, dirs[..|dirs| - 1]) + [ScanDir(prefix + dirs[|dirs| - 1], dirs[|dirs| - 1], false)]
  }

  function CurrentOf(t: Track, d: Path): ScanDir {
    ScanDir(RemoteOf(t.start, t.e.prefix, d), d, d == [])
  }

  /** After the first n entries of d: exactly the directories found so far are queued and known. */
  ghost predicate Exact(t: Track, d: Path, n: nat, at: Frontier)
    requires n <= |List(t.e.share, d)|
  {
    && Aligned(t.start, Some(t.e.prefix), at)
    && at.queue == t.rest + Entries(t.e.prefix, ChildDirs(d, List(t.e.share, d)[..n]))
    && forall l :: l in at.queuedLogical <==> l in [[]] + FlatDirs(t.e.share, t.visits) || l in ChildDirs(d, List(t.e.share, d)[..n])
  }

  lemma HonestPath(t: Track, d: Path, entry: Entry, item: ShareItem, parent: Option<Path>)
    requires Shows(t.start, t.e.prefix, d, entry, item) && (parent.Some? ==> parent.value == t.e.prefix)
    ensures FullPath(CurrentOf(t, d), parent, item) == Some(t.e.prefix + (d + [item.name]))
    ensures d == [] ==> Parent(t.e.prefix + (d + [item.name])) == t.e.prefix
  {
    var full := t.e.prefix + (d + [item.name]);
    if d == [] {
      assert full == t.e.prefix + [item.name];
      assert full[..|full| - 1] == t.e.prefix;
    }
    assert t.e.prefix + d + [item.name] == full;
  }

  lemma NotQueuedYet(t: Track, d: Path, n: nat, at: Frontier, name: string)
    requires n < |List(t.e.share, d)| && Exact(t, d, n, at) && d + [name] !in at.queuedLogical && t.e.prefix + (d + [name]) != t.start
    ensures t.e.prefix + (d + [name]) !in at.queuedRemote
  {
    var full := t.e.prefix + (d + [name]);
    if full in at.queuedRemote {
      var l := at.queuedRemote[full];
      assert l in at.queuedLogical && at.queuedLogical[l] == full;
      if l != [] { SamePrefix(t.e.prefix, l, d + [name]); }
    }
  }

  lemma SamePrefix(p: Path, a: Path, b: Path)
    requires p + a == p + b
    ensures a == b
  {
    assert (p + a)[|p|..] == a && (p + b)[|p|..] == b;
  }

  /** The entry is new: no earlier entry of its directory, and nothing found elsewhere, has its path. */
  lemma EntryIsNew(t: Track, d: Path, n: nat, at: Frontier)
    requires WellFormedShare(t.e.share) && d in t.e.share.dirs && n < |List(t.e.share, d)| && d !in t.visits && Exact(t, d, n, at)
    ensures d + [List(t.e.share, d)[n].name] !in at.queuedLogical
  {
    var list := List(t.e.share, d);
    var c := d + [list[n].name];
    NotYetFound(t.e.share, t.visits, d, list[n].name);
    ChildDirsAt(d, list[..n], c);
    forall i | 0 <= i < n ensures d + [list[..n][i].name] != c {
      assert list[..n][i] == list[i] && c[|d|] == list[n].name && (d + [list[i].name])[|d|] == list[i].name;
    }
  }

  function PageNames(d: Path, list: seq<Entry>): set<Path> {
    set i | 0 <= i < |list| :: d + [list[i].name]
  }

  lemma ChildDirsNext(d: Path, list: seq<Entry>, n: nat)
    requires n < |list|
    ensures ChildDirs(d, list[..n + 1]) == ChildDirs(d, list[..n]) + (if list[n].isDir then [d + [list[n].name]] else [])
  {
    assert list[..n + 1][..n] == list[..n];
  }

  lemma EntriesNext(prefix: Path, dirs: seq<Path>, c: Path)
    ensures Entries(prefix, dirs + [c]) == Entries(prefix, dirs) + [ScanDir(prefix + c, c, false)]
  {
    assert (dirs + [c])[..|dirs|] == dirs;
  }

  lemma AlignedNext(start: Path, prefix: Path, at: Frontier, c: Path, queue: seq<ScanDir>)
    requires Aligned(start, Some(prefix), at) && c != [] && c !in at.queuedLogical && prefix + c !in at.queuedRemote
    ensures Aligned(start, Some(prefix), at.(queue := queue, queuedRemote := at.queuedRemote[prefix + c := c], queuedLogical := at.queuedLogical[c := prefix + c]))
  {
  }

  /** One truthfully listed entry passes every check and is reported under its place in the tree. */
  lemma HonestItem(t: Track, d: Path, n: nat, st: PageState, item: ShareItem)
    requires n < |List(t.e.share, d)| && Exact(t, d, n, st.at)
    requires var entry := List(t.e.share, d)[n];
             && EntryOk(t.e.share, d, entry) && Shows(t.start, t.e.prefix, d, entry, item)
             && d + [entry.name] !in st.at.queuedLogical && d + [entry.name] !in st.names
             && (entry.isDir ==> t.e.prefix + (d + [entry.name]) != t.start)
    ensures var entry := List(t.e.share, d)[n];
            var r := TakeItem(CurrentOf(t, d), st, item);
            && r.Some? && Exact(t, d, n + 1, r.value.at) && r.value.names == st.names + {d + [entry.name]}
            && r.value.dirs == st.dirs + (if entry.isDir then [d + [entry.name]] else [])
            && r.value.files == st.files + (if entry.isDir then [] else [FileOf(t.e.prefix, d, entry)])
  {
    hide ChildDirs, Entries, FlatDirs, Aligned;
    var list := List(t.e.share, d);
    var entry := list[n];
    ExactParent(t, d, n, st.at);
    HonestPath(t, d, entry, item, st.at.parent);
    ChildDirsNext(d, list, n);
    var full, c := t.e.prefix + (d + [entry.name]), d + [entry.name];
    var found := ChildDirs(d, list[..n]);
    ParentSet(t, d, st.at);
    var at := if d == [] then st.at.(parent := Some(t.e.prefix)) else st.at;
    if entry.isDir {
      NotQueuedYet(t, d, n, st.at, entry.name);
      NotItself(t, d, entry.name);
      EntriesNext(t.e.prefix, found, c);
      assert t.rest + (Entries(t.e.prefix, found) + [ScanDir(full, c, false)]) == t.rest + Entries(t.e.prefix, found) + [ScanDir(full, c, false)];
      AlignedNext(t.start, t.e.prefix, at, c, at.queue + [ScanDir(full, c, false)]);
    } else {
      assert found + [] == found;
    }
  }

  lemma ExactParent(t: Track, d: Path, n: nat, at: Frontier)
    requires n <= |List(t.e.share, d)| && Exact(t, d, n, at)
    ensures at.parent.Some? ==> at.parent.value == t.e.prefix
  {
  }

  lemma ParentSet(t: Track, d: Path, at: Frontier)
    requires Aligned(t.start, Some(t.e.prefix), at)
    ensures Aligned(t.start, Some(t.e.prefix), at.(parent := Some(t.e.prefix)))
  {
  }

  lemma NotItself(t: Track, d: Path, name: string)
    ensures d == [] || t.e.prefix + (d + [name]) != CurrentOf(t, d).remote
  {
    if d != [] { assert |t.e.prefix + (d + [name])| == |t.e.prefix + d| + 1; }
  }

  lemma {:induction false} ChildrenOfBoth(prefix: Path, d: Path, a: seq<Entry>, b: seq<Entry>)
    ensures ChildDirs(d, a + b) == ChildDirs(d, a) + ChildDirs(d, b)
    ensures ChildFiles(prefix, d, a + b) == ChildFiles(prefix, d, a) + ChildFiles(prefix, d, b)
    decreases |b|
  {
    if b == [] {
      assert a + b == a;
    } else {
      ChildrenOfBoth(prefix, d, a, b[..|b| - 1]);
      assert (a + b)[..|a + b| - 1] == a + b[..|b| - 1];
    }
  }

  /** The children among the first n entries are those among the first m and those among the rest. */
  lemma ChildrenJoin(prefix: Path, d: Path, list: seq<Entry>, m: nat, n: nat)
    requires m <= n <= |list|
    ensures ChildDirs(d, list[..n]) == ChildDirs(d, list[..m]) + ChildDirs(d, list[m..n])
    ensures ChildFiles(prefix, d, list[..n]) == ChildFiles(prefix, d, list[..m]) + ChildFiles(prefix, d, list[m..n])
  {
    hide ChildDirs, ChildFiles;
    assert list[..n] == list[..m] + list[m..n];
    ChildrenOfBoth(prefix, d, list[..m], list[m..n]);
  }

  lemma NewOnPage(d: Path, list: seq<Entry>, m: nat, n: nat)
    requires m <= n < |list| && forall i, j :: 0 <= i < j < |list| ==> list[i].name != list[j].name
    ensures d + [list[n].name] !in PageNames(d, list[m..n])
    ensures PageNames(d, list[m..n + 1]) == PageNames(d, list[m..n]) + {d + [list[n].name]}
  {
    var c := d + [list[n].name];
    forall i | 0 <= i < n - m ensures d + [list[m..n][i].name] != c {
      assert c[|d|] == list[n].name && (d + [list[m + i].name])[|d|] == list[m + i].name;
    }
    forall p ensures p in PageNames(d, list[m..n + 1]) <==> p in PageNames(d, list[m..n]) + {c} {
      if p in PageNames(d, list[m..n + 1]) {
        var i :| 0 <= i < n + 1 - m && p == d + [list[m..n + 1][i].name];
        if i < n - m { assert list[m..n][i] == list[m..n + 1][i]; }
      }
      if p in PageNames(d, list[m..n]) {
        var i :| 0 <= i < n - m && p == d + [list[m..n][i].name];
        assert list[m..n + 1][i] == list[m..n][i];
      }
      assert list[m..n + 1][n - m] == list[n];
    }
  }

  /** What the page shows of the entries m to n of a directory. */
  ghost predicate PageExact(t: Track, d: Path, m: nat, n: nat, st: PageState)
    requires m <= n <= |List(t.e.share, d)|
  {
    && Exact(t, d, n, st.at)
    && st.dirs == ChildDirs(d, List(t.e.share, d)[m..n])
    && st.files == ChildFiles(t.e.prefix, d, List(t.e.share, d)[m..n])
    && st.names == PageNames(d, List(t.e.share, d)[m..n])
  }

  ghost predicate InTree(t: Track, d: Path) {
    && WellFormedShare(t.e.share) && d in t.e.share.dirs && d !in t.visits
    && forall c :: c in t.e.share.dirs && c != [] ==> t.e.prefix + c != t.start
  }

  lemma PageNext(t: Track, d: Path, m: nat, n: nat, st: PageState, item: ShareItem)
    requires m <= n < |List(t.e.share, d)| && InTree(t, d) && PageExact(t, d, m, n, st)
    requires Shows(t.start, t.e.prefix, d, List(t.e.share, d)[n], item)
    ensures TakeItem(CurrentOf(t, d), st, item).Some? && PageExact(t, d, m, n + 1, TakeItem(CurrentOf(t, d), st, item).value)
  {
    hide TakeItem, Exact, FlatDirs, PageExact, PageNames, ChildDirs, ChildFiles, InTree, Shows;
    PageExactNow(t, d, m, n, st);
    EntryNext(t, d, m, n, st);
    HonestItem(t, d, n, st, item);
    PageExactNext(t, d, m, n, st, TakeItem(CurrentOf(t, d), st, item).value);
  }

  lemma PageExactNow(t: Track, d: Path, m: nat, n: nat, st: PageState)
    requires m <= n <= |List(t.e.share, d)| && PageExact(t, d, m, n, st)
    ensures Exact(t, d, n, st.at) && st.names == PageNames(d, List(t.e.share, d)[m..n])
  {
    hide Exact;
  }

  /** The next entry is sound, and new wherever its path could be known already. */
  lemma EntryNext(t: Track, d: Path, m: nat, n: nat, st: PageState)
    requires m <= n < |List(t.e.share, d)| && InTree(t, d) && Exact(t, d, n, st.at) && st.names == PageNames(d, List(t.e.share, d)[m..n])
    ensures var entry := List(t.e.share, d)[n];
            && EntryOk(t.e.share, d, entry) && d + [entry.name] !in st.at.queuedLogical && d + [entry.name] !in st.names
            && (entry.isDir ==> t.e.prefix + (d + [entry.name]) != t.start)
  {
    hide Exact, FlatDirs;
    var list := List(t.e.share, d);
    assert EntryOk(t.e.share, d, list[n]);
    EntryIsNew(t, d, n, st.at);
    NewOnPage(d, list, m, n);
    if list[n].isDir { assert d + [list[n].name] in t.e.share.dirs && d + [list[n].name] != []; }
  }

  /** One more entry taken. */
  lemma PageExactNext(t: Track, d: Path, m: nat, n: nat, st: PageState, st': PageState)
    requires m <= n < |List(t.e.share, d)| && InTree(t, d) && PageExact(t, d, m, n, st) && Exact(t, d, n + 1, st'.at)
    requires var entry := List(t.e.share, d)[n];
             && st'.names == st.names + {d + [entry.name]}
             && st'.dirs == st.dirs + (if entry.isDir then [d + [entry.name]] else [])
             && st'.files == st.files + (if entry.isDir then [] else [FileOf(t.e.prefix, d, entry)])
    ensures PageExact(t, d, m, n + 1, st')
  {
    hide Exact, EntryOk, FlatDirs;
    var list := List(t.e.share, d);
    NewOnPage(d, list, m, n);
    assert list[m..n + 1][..n - m] == list[m..n] && list[m..n + 1][n - m] == list[n];
  }

  lemma {:induction false} HonestPage(t: Track, d: Path, m: nat, items: seq<ShareItem>, st: PageState, j: nat)
    requires j <= |items| && m + |items| <= |List(t.e.share, d)| && InTree(t, d) && PageExact(t, d, m, m, st)
    requires forall i :: 0 <= i < |items| ==> Shows(t.start, t.e.prefix, d, List(t.e.share, d)[m + i], items[i])
    ensures var r := TakeItems(CurrentOf(t, d), st, items[..j]); r.Some? && PageExact(t, d, m, m + j, r.value)
    decreases j
  {
    hide PageExact, InTree, Shows, TakeItem;
    if j == 0 {
      assert items[..0] == [];
    } else {
      HonestPage(t, d, m, items, st, j - 1);
      assert items[..j][..j - 1] == items[..j - 1];
      PageNext(t, d, m, m + j - 1, TakeItems(CurrentOf(t, d), st, items[..j - 1]).value, items[j - 1]);
    }
  }

  // ----- the scan ----------------------------------------------------------------------------

  ghost predicate Scanning(k: Rules, w: World)
    reads w
  {
    w.Valid() && Governs(k, w) && !w.db.task.scanCompleted
  }

  /** Kept for any service: aligned maps and queue, and everything stored in line with them. */
  ghost predicate Steady(start: Path, g: Gathered) {
    Aligned(start, g.prefix, g.at) && AllQueued(g.at) && FilesAligned(g.prefix, g.log.files) && DirsAligned(g.at, g.log.dirs)
  }

  /** Kept for an honest share: the tables hold what was held before and what was stored since. */
  ghost predicate Held(t: Track, w: World, log: Log)
    reads w
  {
    Holds(t.e.contents, w.db, t.heldDirs + (set p | p in log.dirs), t.heldIds + IdsOf(log.files))
  }

  function Stored(log: Log, dirs: seq<Path>, files: seq<ManifestFile>): Log {
    log.(dirs := log.dirs + dirs, files := log.files + files)
  }

  /** The pages seen so far in a directory were all full and all different. */
  ghost predicate PagesSeen(list: seq<Entry>, n: nat, seen: map<multiset<ShareItem>, nat>) {
    forall fp :: fp in seen ==> |fp| == PAGE_SIZE && forall x :: x in fp ==> exists i :: 0 <= i < n && i < |list| && x.name == list[i].name
  }

  /** The names on one truthful page. */
  ghost predicate NamesOf(list: seq<Entry>, m: nat, items: seq<ShareItem>) {
    m + |items| <= |list| && forall i :: 0 <= i < |items| ==> items[i].name == list[m + i].name
  }

  lemma NotSeenBefore(list: seq<Entry>, m: nat, items: seq<ShareItem>, seen: map<multiset<ShareItem>, nat>)
    requires NamesOf(list, m, items) && PagesSeen(list, m, seen)
    requires forall i, j :: 0 <= i < j < |list| ==> list[i].name != list[j].name
    ensures multiset(items) !in seen
  {
    if |items| == PAGE_SIZE {
      assert items[0] in multiset(items) && items[0].name == list[m + 0].name;
      forall i | 0 <= i < m && i < |list| ensures items[0].name != list[i].name {}
    } else {
      assert |multiset(items)| == |items|;
    }
  }

  lemma SeenNow(list: seq<Entry>, m: nat, items: seq<ShareItem>, seen: map<multiset<ShareItem>, nat>, page: nat)
    requires NamesOf(list, m, items) && PagesSeen(list, m, seen) && |items| == PAGE_SIZE
    ensures PagesSeen(list, m + PAGE_SIZE, seen[multiset(items) := page])
  {
    forall x | x in multiset(items) ensures exists i :: 0 <= i < m + PAGE_SIZE && i < |list| && x.name == list[i].name {
      var j :| 0 <= j < |items| && items[j] == x;
      assert x.name == list[m + j].name;
    }
    assert |multiset(items)| == PAGE_SIZE;
  }

  lemma PageIsNew(t: Track, d: Path, page: nat, items: seq<ShareItem>, seen: map<multiset<ShareItem>, nat>)
    requires page >= 1 && (page - 1) * PAGE_SIZE <= |List(t.e.share, d)| && InTree(t, d)
    requires ShowsPage(t.start, t.e.prefix, d, List(t.e.share, d), page, items) && PagesSeen(List(t.e.share, d), (page - 1) * PAGE_SIZE, seen)
    ensures multiset(items) !in seen
    ensures |items| == PAGE_SIZE ==> PagesSeen(List(t.e.share, d), page * PAGE_SIZE, seen[multiset(items) := page])
  {
    hide PagesSeen;
    var list, m := List(t.e.share, d), (page - 1) * PAGE_SIZE;
    forall i | 0 <= i < |items| ensures items[i].name == list[m + i].name { assert Shows(t.start, t.e.prefix, d, list[m + i], items[i]); }
    assert NamesOf(list, m, items);
    NotSeenBefore(list, m, items, seen);
    if |items| == PAGE_SIZE { SeenNow(list, m, items, seen, page); }
  }

  /** The entries a page adds belong to the share. */
  lemma PageInContents(t: Track, d: Path, m: nat, n: nat)
    requires IsContents(t.e) && WellFormedShare(t.e.share) && d in t.e.share.dirs && m <= n <= |List(t.e.share, d)|
    ensures PageOf(t.e.contents, Page(ChildDirs(d, List(t.e.share, d)[m..n]), ChildFiles(t.e.prefix, d, List(t.e.share, d)[m..n])))
  {
    hide WellFormed;
    var list := List(t.e.share, d);
    forall p | p in ChildDirs(d, list[m..n]) ensures p in t.e.contents.dirs {
      ChildDirsAt(d, list[m..n], p);
      var i :| 0 <= i < n - m && list[m..n][i].isDir && p == d + [list[m..n][i].name];
      assert EntryOk(t.e.share, d, list[m + i]);
    }
    forall f | f in ChildFiles(t.e.prefix, d, list[m..n]) ensures f.id in t.e.contents.files && t.e.contents.files[f.id] == f {
      var i := ChildFileAt(t.e.prefix, d, list[m..n], f);
      assert list[m..n][i] == list[m + i];
    }
  }

  lemma {:induction false} ChildFileAt(prefix: Path, d: Path, list: seq<Entry>, f: ManifestFile) returns (i: nat)
    requires f in ChildFiles(prefix, d, list)
    ensures i < |list| && !list[i].isDir && f == FileOf(prefix, d, list[i])
  {
    var n := |list| - 1;
    if !list[n].isDir && f == FileOf(prefix, d, list[n]) {
      i := n;
    } else {
      i := ChildFileAt(prefix, d, list[..n], f);
    }
  }

  /** The loop over one page's entries. */
  method ScanPage(current: ScanDir, items: seq<ShareItem>, at: Frontier) returns (r: Option<PageState>)
    ensures r == TakeItems(current, PageState([], [], {}, at), items)
  {
    ghost var st0 := PageState([], [], {}, at);
    var st := PageState([], [], {}, at);
    var i := 0;
    while i < |items|
      invariant 0 <= i <= |items| && TakeItems(current, st0, items[..i]) == Some(st)
    {
      assert items[..i + 1][..i] == items[..i];
      var next := TakeItem(current, st, items[i]);
      if next.None? {
        ItemsFail(current, st0, items, i + 1);
        return None;
      }
      st := next.value;
      i := i + 1;
    }
    assert items[..i] == items;
    r := Some(st);
  }

  lemma {:induction false} ItemsFail(current: ScanDir, st: PageState, items: seq<ShareItem>, n: nat)
    requires n <= |items| && TakeItems(current, st, items[..n]).None?
    ensures TakeItems(current, st, items).None?
    decreases |items|
  {
    if n == |items| {
      assert items[..n] == items;
    } else {
      assert items[..|items| - 1][..n] == items[..n];
      ItemsFail(current, st, items[..|items| - 1], n);
    }
  }

  lemma PageTx(db: Db, db': Db, dirs: seq<Path>, files: seq<ManifestFile>)
    requires Attempt(db, UpsertPage(dirs, files)) == Some(db')
    ensures UpsertManifest(db, dirs, files) == Some(db') && db'.task == db.task
  {
    PageKeepsTask(db, dirs, files);
  }

  lemma {:induction false} PageKeepsTask(db: Db, dirs: seq<Path>, files: seq<ManifestFile>)
    requires UpsertManifest(db, dirs, files).Some?
    ensures UpsertManifest(db, dirs, files).value.task == db.task
    decreases |dirs| + |files|
  {
    if files != [] {
      PageKeepsTask(db, dirs, files[..|files| - 1]);
    } else if dirs != [] {
      PageKeepsTask(db, dirs[..|dirs| - 1], []);
    }
  }

  lemma HeldMore(t: Track, db: Db, log: Log, page: Page)
    requires WellFormed(t.e.contents) && PageOf(t.e.contents, page)
    requires Holds(t.e.contents, db, t.heldDirs + (set p | p in log.dirs), t.heldIds + IdsOf(log.files))
    ensures UpsertManifest(db, page.dirs, page.files).Some?
    ensures Holds(t.e.contents, UpsertManifest(db, page.dirs, page.files).value,
                  t.heldDirs + (set p | p in log.dirs + page.dirs), t.heldIds + IdsOf(log.files + page.files))
  {
    PageAdds(t.e.contents, db, t.heldDirs + (set p | p in log.dirs), t.heldIds + IdsOf(log.files), page);
    assert t.heldDirs + (set p | p in log.dirs) + (set p | p in page.dirs) == t.heldDirs + (set p | p in log.dirs + page.dirs);
    assert t.heldIds + IdsOf(log.files) + IdsOf(page.files) == t.heldIds + IdsOf(log.files + page.files);
  }

  /** What the rules know of the share is what the honest service shows. */
  ghost predicate Known(k: Rules, t: Track, h: bool) {
    k.share.Some? ==> h && k.share.value == t.e.contents
  }

  /** How a scan is looked at: on record since when, and, if the service is honest, reading which directory of the share. */
  datatype View = View(since: nat, honest: bool, t: Track, d: Path)

  /** Hands a page to the manifest, unless it is empty: then, and only then, it is on record. */
  method Persist(w: World, ghost k: Rules, page: Page, ghost v: View) returns (ok: bool)
    requires Scanning(k, w) && Known(k, v.t, v.honest) && v.since <= |w.moves|
    requires v.honest ==> WellFormed(v.t.e.contents) && PageOf(v.t.e.contents, page) && Held(v.t, w, LogOf(w.moves, v.since))
    modifies w
    ensures Scanning(k, w) && Lawfully(k, old(w.History()), w.History()) && v.since <= |w.moves|
    ensures LogOf(w.moves, v.since) == if ok then Stored(LogOf(old(w.moves), v.since), page.dirs, page.files) else LogOf(old(w.moves), v.since)
    ensures v.honest && w.quiet ==> ok
    ensures v.honest && ok ==> Held(v.t, w, LogOf(w.moves, v.since))
  {
    hide LawfulFrom, Step, Attempt, UpsertManifest, WellFormed, PageOf, Holds;
    ghost var a, db, log := w.History(), w.db, LogOf(w.moves, v.since);
    if v.honest { HeldMore(v.t, w.db, log, page); }
    if |page.dirs| > 0 || |page.files| > 0 {
      ok := ManifestStore.UpsertManifestPage(w, page.dirs, page.files);
      TxStepped(k, a, w, UpsertPage(page.dirs, page.files));
      LogNext(a.moves, v.since, Tx(UpsertPage(page.dirs, page.files)));
      if ok { PageTx(db, w.db, page.dirs, page.files); } else if v.honest { PageAccepted(db, page.dirs, page.files); }
    } else {
      Idle(k, a);
      assert log.dirs + page.dirs == log.dirs && log.files + page.files == log.files;
      ok := true;
    }
  }

  lemma PageAccepted(db: Db, dirs: seq<Path>, files: seq<ManifestFile>)
    requires UpsertManifest(db, dirs, files).Some?
    ensures Attempt(db, UpsertPage(dirs, files)).Some?
  {
  }

  // ----- one directory -------------------------------------------------------------------------

  /** Kept by a page of any service, and what it may have added to the queue. */
  ghost predicate SteadyAfter(start: Path, g: Gathered, current: ScanDir, page: nat, st: PageState) {
    var g' := WithPage(g, current, page, st);
    && Steady(start, g') && Queued(st.at, current)
    && (current.initial ==> g'.prefix == st.at.parent) && (g.prefix.Some? ==> g'.prefix == g.prefix) && Grown(g.at, st.at)
  }

  /** The directory is one of those queued. */
  ghost predicate InReading(g: Gathered, current: ScanDir) {
    Queued(g.at, current) && (current.initial ==> g.prefix == g.at.parent)
  }

  lemma ReadingStep(start: Path, g: Gathered, current: ScanDir)
    requires Steady(start, g) && InReading(g, current)
    ensures InStep(start, g.prefix, current, PageState([], [], {}, g.at)) && current.remote in g.at.queuedRemote && g.at.queuedRemote[current.remote] == current.logical
  {
  }

  /** What a page adds for any service. */
  lemma PageSteady(start: Path, g: Gathered, current: ScanDir, page: nat, items: seq<ShareItem>)
    requires Steady(start, g) && InReading(g, current) && TakeItems(current, PageState([], [], {}, g.at), items).Some?
    ensures SteadyAfter(start, g, current, page, TakeItems(current, PageState([], [], {}, g.at), items).value)
  {
    hide TakeItems, TakeItem;
    var st0 := PageState([], [], {}, g.at);
    assert InStep(start, g.prefix, current, st0);
    ItemsKeep(start, g.prefix, current, st0, items);
    ItemsGrow(current, st0, items);
    ItemsQueue(current, st0, items);
    var st := TakeItems(current, st0, items).value;
    forall p | p in g.log.dirs + st.dirs ensures p in st.at.queuedLogical && p != [] {
      if p in g.log.dirs { assert p in g.at.queuedLogical.Keys; }
    }
  }

  /** And what it adds to the record: exactly what was answered. */
  lemma PageTraced(service: Service, start: Path, g: Gathered, current: ScanDir, page: nat, items: seq<ShareItem>)
    requires Steady(start, g) && InReading(g, current) && Traced(service, g) && Due(service, g.log.requests, Request(current.remote, page))
    requires service(|g.log.requests|, current.remote, page) == Some(items) && TakeItems(current, PageState([], [], {}, g.at), items).Some?
    ensures TracedAfter(service, g, current, page, items, TakeItems(current, PageState([], [], {}, g.at), items).value)
  {
    hide Steady, InReading, InStep, TakeItems, Paged, Told, FirstDirs;
    ReadingStep(start, g, current);
    PageTold(service, start, g, current, page, items);
    PagedOn(service, g.log.requests, Request(current.remote, page));
  }

  ghost predicate TracedAfter(service: Service, g: Gathered, current: ScanDir, page: nat, items: seq<ShareItem>, st: PageState) {
    var g' := WithPage(g, current, page, st);
    && Traced(service, g') && FirstDirs(g'.log.requests) == FirstDirs(g.log.requests) + (if page == 1 then [current.remote] else [])
    && AnswerTo(service, |g.log.requests|, Request(current.remote, page)) == items
  }

  /** How far an honest directory has been read: its first n entries, page by page. */
  ghost predicate Reading(t: Track, w: World, d: Path, n: nat, at: Frontier, log0: Log, log: Log)
    reads w
    requires n <= |List(t.e.share, d)|
  {
    Exact(t, d, n, at) && Held(t, w, log) && ReadSoFar(t, d, n, log0, log)
  }

  ghost predicate ReadSoFar(t: Track, d: Path, n: nat, log0: Log, log: Log)
    requires n <= |List(t.e.share, d)|
  {
    log.dirs == log0.dirs + ChildDirs(d, List(t.e.share, d)[..n]) && log.files == log0.files + ChildFiles(t.e.prefix, d, List(t.e.share, d)[..n])
  }

  lemma PageExtent(t: Track, d: Path, list: seq<Entry>, page: nat, items: seq<ShareItem>)
    requires page >= 1 && (page - 1) * PAGE_SIZE <= |list| && ShowsPage(t.start, t.e.prefix, d, list, page, items)
    ensures var m := (page - 1) * PAGE_SIZE;
            && m + |items| <= |list| && (|items| < PAGE_SIZE ==> m + |items| == |list|) && |items| <= PAGE_SIZE
            && forall i :: 0 <= i < |items| ==> Shows(t.start, t.e.prefix, d, list[m + i], items[i])
  {
    hide Shows;
    assert PageStart(list, page) == (page - 1) * PAGE_SIZE;
    assert page * PAGE_SIZE == (page - 1) * PAGE_SIZE + PAGE_SIZE;
  }

  lemma EmptyPage(t: Track, d: Path, m: nat, at: Frontier)
    requires m <= |List(t.e.share, d)| && Exact(t, d, m, at)
    ensures PageExact(t, d, m, m, PageState([], [], {}, at))
  {
    hide Exact;
    assert List(t.e.share, d)[m..m] == [] && PageNames(d, List(t.e.share, d)[m..m]) == {};
  }

  /** One honest page, taken in full. */
  lemma PageRead(t: Track, d: Path, page: nat, items: seq<ShareItem>, at: Frontier)
    requires page >= 1 && (page - 1) * PAGE_SIZE <= |List(t.e.share, d)| && InTree(t, d) && Exact(t, d, (page - 1) * PAGE_SIZE, at)
    requires ShowsPage(t.start, t.e.prefix, d, List(t.e.share, d), page, items)
    ensures var list, m := List(t.e.share, d), (page - 1) * PAGE_SIZE;
            var r := TakeItems(CurrentOf(t, d), PageState([], [], {}, at), items);
            && m + |items| <= |list| && (|items| < PAGE_SIZE ==> m + |items| == |list|) && |items| <= PAGE_SIZE
            && r.Some? && Exact(t, d, m + |items|, r.value.at)
            && r.value.dirs == ChildDirs(d, list[m..m + |items|]) && r.value.files == ChildFiles(t.e.prefix, d, list[m..m + |items|])
  {
    hide InTree, Exact, Shows, ShowsPage, TakeItems, ChildDirs, ChildFiles, PageNames;
    var list, m := List(t.e.share, d), (page - 1) * PAGE_SIZE;
    var st := PageState([], [], {}, at);
    PageExtent(t, d, list, page, items);
    EmptyPage(t, d, m, at);
    HonestPage(t, d, m, items, st, |items|);
    assert items[..|items|] == items;
  }

  /** The reading goes on by one page. */
  lemma ReadOn(t: Track, d: Path, m: nat, n: nat, log0: Log, log: Log, log': Log)
    requires m <= n <= |List(t.e.share, d)| && ReadSoFar(t, d, m, log0, log)
    requires log'.dirs == log.dirs + ChildDirs(d, List(t.e.share, d)[m..n]) && log'.files == log.files + ChildFiles(t.e.prefix, d, List(t.e.share, d)[m..n])
    ensures ReadSoFar(t, d, n, log0, log')
  {
    hide ChildDirs, ChildFiles;
    ChildrenJoin(t.e.prefix, d, List(t.e.share, d), m, n);
  }

  ghost predicate HonestDirectory(service: Service, t: Track, d: Path) {
    Honest(service, t.start, t.e) && IsContents(t.e) && InTree(t, d)
  }

  lemma HonestAnswer(service: Service, t: Track, d: Path, call: nat, page: nat)
    requires HonestDirectory(service, t, d) && page >= 1 && service(call, CurrentOf(t, d).remote, page).Some?
    ensures ShowsPage(t.start, t.e.prefix, d, List(t.e.share, d), page, service(call, CurrentOf(t, d).remote, page).value)
    ensures IsContents(t.e) && InTree(t, d) && WellFormed(t.e.contents) && |List(t.e.share, d)| < PAGE_SIZE * MAX_PAGES
  {
  }

  /** One honest page was read in full, and differs from those before it. */
  ghost predicate PageTaken(t: Track, w: World, d: Path, page: nat, items: seq<ShareItem>, at: Frontier, seen: map<multiset<ShareItem>, nat>, log0: Log, log: Log)
    reads w
    requires page >= 1
  {
    var list, n := List(t.e.share, d), (page - 1) * PAGE_SIZE + |items|;
    && |items| <= PAGE_SIZE && n <= |list| && (|items| < PAGE_SIZE ==> n == |list|)
    && (|items| == PAGE_SIZE ==> PagesSeen(list, page * PAGE_SIZE, seen[multiset(items) := page]))
    && Reading(t, w, d, n, at, log0, log)
  }

  lemma ReadingNow(t: Track, w: World, d: Path, n: nat, at: Frontier, log0: Log, log: Log)
    requires n <= |List(t.e.share, d)| && Reading(t, w, d, n, at, log0, log)
    ensures Exact(t, d, n, at) && Held(t, w, log) && ReadSoFar(t, d, n, log0, log)
  {
  }

  /** What an honest answer to the next request is and leads to. */
  ghost predicate OnPage(t: Track, d: Path, page: nat, items: seq<ShareItem>, st: PageState, seen: map<multiset<ShareItem>, nat>)
    requires page >= 1
  {
    var list, m := List(t.e.share, d), (page - 1) * PAGE_SIZE;
    && m + |items| <= |list| && (|items| < PAGE_SIZE ==> m + |items| == |list|) && |items| <= PAGE_SIZE
    && (|items| == PAGE_SIZE ==> PagesSeen(list, page * PAGE_SIZE, seen[multiset(items) := page]))
    && Exact(t, d, m + |items|, st.at)
    && st.dirs == ChildDirs(d, list[m..m + |items|]) && st.files == ChildFiles(t.e.prefix, d, list[m..m + |items|])
  }

  lemma HonestRound(service: Service, t: Track, d: Path, call: nat, page: nat, at: Frontier, seen: map<multiset<ShareItem>, nat>)
    requires HonestDirectory(service, t, d) && page >= 1 && (page - 1) * PAGE_SIZE <= |List(t.e.share, d)|
    requires Exact(t, d, (page - 1) * PAGE_SIZE, at) && PagesSeen(List(t.e.share, d), (page - 1) * PAGE_SIZE, seen)
    requires service(call, CurrentOf(t, d).remote, page).Some?
    ensures WellFormed(t.e.contents)
    ensures var items := service(call, CurrentOf(t, d).remote, page).value;
            var r := TakeItems(CurrentOf(t, d), PageState([], [], {}, at), items);
            multiset(items) !in seen && r.Some? && OnPage(t, d, page, items, r.value, seen) && PageOf(t.e.contents, Page(r.value.dirs, r.value.files))
  {
    hide HonestDirectory, Exact, PagesSeen, InTree, IsContents, ShowsPage, TakeItems, PageOf, ChildDirs, ChildFiles, WellFormed;
    HonestAnswer(service, t, d, call, page);
    var items := service(call, CurrentOf(t, d).remote, page).value;
    PageIsNew(t, d, page, items, seen);
    PageRead(t, d, page, items, at);
    InTreeFacts(t, d);
    PageInContents(t, d, (page - 1) * PAGE_SIZE, (page - 1) * PAGE_SIZE + |items|);
  }

  lemma RoundDone(t: Track, w: World, d: Path, page: nat, items: seq<ShareItem>, st: PageState, seen: map<multiset<ShareItem>, nat>, log0: Log, log: Log, log': Log)
    requires page >= 1 && (page - 1) * PAGE_SIZE <= |List(t.e.share, d)| && OnPage(t, d, page, items, st, seen)
    requires ReadSoFar(t, d, (page - 1) * PAGE_SIZE, log0, log) && Held(t, w, log')
    requires log'.dirs == log.dirs + st.dirs && log'.files == log.files + st.files
    ensures PageTaken(t, w, d, page, items, st.at, seen, log0, log')
  {
    hide Held, Exact, PagesSeen, ChildDirs, ChildFiles, ReadSoFar;
    ReadOn(t, d, (page - 1) * PAGE_SIZE, (page - 1) * PAGE_SIZE + |items|, log0, log, log');
  }

  lemma HeldAsked(t: Track, w: World, log: Log, r: Request)
    requires Held(t, w, log)
    ensures Held(t, w, Asked(log, r))
  {
  }

  /** The request for a page, on record. */
  method Ask(w: World, ghost k: Rules, dir: Path, page: nat, ghost since: nat)
    requires Scanning(k, w) && page >= 1 && since <= |w.moves|
    modifies w
    ensures Scanning(k, w) && Lawfully(k, old(w.History()), w.History()) && since <= |w.moves| && w.db == old(w.db)
    ensures LogOf(w.moves, since) == Asked(LogOf(old(w.moves), since), Request(dir, page))
  {
    hide LawfulFrom, Step;
    ghost var a := w.History();
    w.RequestListing(dir, page);
    Stepped(k, a, w, ListShare(dir, page));
    LogNext(a.moves, since, ListShare(dir, page));
  }

  /** One more page is asked for, checked and stored: on success the record holds what was answered, otherwise nothing
      but the request. For an honest directory it always succeeds. */
  method NextPage(w: World, ghost k: Rules, service: Service, current: ScanDir, at: Frontier, call: nat, page: nat, seen: map<multiset<ShareItem>, nat>,
                  ghost v: View, ghost log0: Log, ghost g: Gathered)
    returns (r: Option<PageState>, items: seq<ShareItem>)
    requires Scanning(k, w) && page >= 1 && Known(k, v.t, v.honest) && v.since <= |w.moves|
    requires g.at == at && g.log == LogOf(w.moves, v.since) && call == |g.log.requests|
    requires Steady(v.t.start, g) && InReading(g, current) && Traced(service, g) && Due(service, g.log.requests, Request(current.remote, page))
    requires v.honest ==> HonestDirectory(service, v.t, v.d) && current == CurrentOf(v.t, v.d) && (page - 1) * PAGE_SIZE <= |List(v.t.e.share, v.d)|
    requires v.honest ==> Reading(v.t, w, v.d, (page - 1) * PAGE_SIZE, at, log0, g.log) && PagesSeen(List(v.t.e.share, v.d), (page - 1) * PAGE_SIZE, seen)
    modifies w
    ensures Scanning(k, w) && Lawfully(k, old(w.History()), w.History()) && v.since <= |w.moves|
    ensures LogOf(w.moves, v.since) == if r.Some? then WithPage(g, current, page, r.value).log else Asked(g.log, Request(current.remote, page))
    ensures r.Some? ==> SteadyAfter(v.t.start, g, current, page, r.value) && TracedAfter(service, g, current, page, items, r.value)
    ensures v.honest && w.quiet && service(call, current.remote, page).Some? ==> r.Some?
    ensures v.honest && r.Some? ==> PageTaken(v.t, w, v.d, page, items, r.value.at, seen, log0, LogOf(w.moves, v.since))
  {
    hide SteadyAfter, TracedAfter, Lawfully, Step, Steady, InReading, Held, Reading, ReadSoFar, PagesSeen, HonestDirectory, WellFormed, TakeItems, PageOf, OnPage, PageTaken, Traced, Due, LogOf;
    ghost var a := w.History();
    if v.honest { ReadingNow(v.t, w, v.d, (page - 1) * PAGE_SIZE, at, log0, g.log); }
    Ask(w, k, current.remote, page, v.since);
    items := [];
    var response := service(call, current.remote, page);
    if response.None? { return None, items; }
    items := response.value;
    if v.honest {
      HeldAsked(v.t, w, g.log, Request(current.remote, page));
      HonestRound(service, v.t, v.d, call, page, at, seen);
    }
    if multiset(items) in seen { return None, items; }
    r := ScanPage(current, items, at);
    if r.None? { return; }
    PageSteady(v.t.start, g, current, page, items);
    PageTraced(service, v.t.start, g, current, page, items);
    ghost var b := w.History();
    var stored := Persist(w, k, Page(r.value.dirs, r.value.files), v);
    LawfullyThen(k, a, b, w.History());
    if !stored { return None, items; }
    if v.honest { RoundDone(v.t, w, v.d, page, items, r.value, seen, log0, g.log, LogOf(w.moves, v.since)); }
  }

  lemma InTreeFacts(t: Track, d: Path)
    requires InTree(t, d)
    ensures WellFormedShare(t.e.share) && d in t.e.share.dirs
  {
  }

  /** The same for the pages of one directory so far. */
  ghost predicate SteadySince(start: Path, g0: Gathered, current: ScanDir, g: Gathered) {
    Steady(start, g) && InReading(g, current) && (g0.prefix.Some? ==> g.prefix == g0.prefix) && Grown(g0.at, g.at)
  }

  lemma SteadyOn(start: Path, g0: Gathered, current: ScanDir, g: Gathered, page: nat, st: PageState)
    requires SteadySince(start, g0, current, g) && SteadyAfter(start, g, current, page, st)
    ensures SteadySince(start, g0, current, WithPage(g, current, page, st))
  {
    hide Steady, Queued, Grown;
    GrownThen(g0.at, g.at, st.at);
  }

  lemma SteadyHere(start: Path, g: Gathered, current: ScanDir)
    requires Steady(start, g) && InReading(g, current)
    ensures SteadySince(start, g, current, g)
  {
    hide Steady, InReading;
  }

  lemma SteadyNow(start: Path, g0: Gathered, current: ScanDir, g: Gathered)
    requires SteadySince(start, g0, current, g)
    ensures Steady(start, g) && InReading(g, current) && (g0.prefix.Some? ==> g.prefix == g0.prefix) && Grown(g0.at, g.at)
  {
    hide Steady, InReading, Grown;
  }

  lemma SteadyAsked(start: Path, g: Gathered, r: Request)
    requires Steady(start, g)
    ensures Steady(start, g.(log := Asked(g.log, r)))
  {
  }

  /** The pages of this directory on record: none yet, or all so far, the last one full. */
  ghost predicate ReadUpTo(service: Service, g0: Gathered, current: ScanDir, page: nat, g: Gathered) {
    && Traced(service, g) && Due(service, g.log.requests, Request(current.remote, page))
    && FirstDirs(g.log.requests) == FirstDirs(g0.log.requests) + if page == 1 then [] else [current.remote]
  }

  lemma ReadUpOn(service: Service, g0: Gathered, current: ScanDir, page: nat, g: Gathered, items: seq<ShareItem>, st: PageState)
    requires page >= 1 && ReadUpTo(service, g0, current, page, g) && TracedAfter(service, g, current, page, items, st)
    ensures var g' := WithPage(g, current, page, st);
            if |items| < PAGE_SIZE then ReadThrough(service, g0, current, g') else ReadUpTo(service, g0, current, page + 1, g')
  {
    hide Traced, FirstDirs;
  }

  /** The directory was read to its end. */
  ghost predicate ReadThrough(service: Service, g0: Gathered, current: ScanDir, g: Gathered) {
    Traced(service, g) && ReadToEnd(service, g.log.requests) && FirstDirs(g.log.requests) == FirstDirs(g0.log.requests) + [current.remote]
  }

  lemma ReadFromHere(service: Service, g: Gathered, current: ScanDir)
    requires Traced(service, g) && ReadToEnd(service, g.log.requests)
    ensures ReadUpTo(service, g, current, 1, g)
  {
    hide Traced, FirstDirs;
  }

  lemma ReadUpNow(service: Service, g0: Gathered, current: ScanDir, page: nat, g: Gathered)
    requires ReadUpTo(service, g0, current, page, g)
    ensures Traced(service, g) && Due(service, g.log.requests, Request(current.remote, page))
  {
    hide Traced, Due;
  }

  /** All pages of one directory. */
  method ScanDirectory(w: World, ghost k: Rules, service: Service, current: ScanDir, from: Frontier, firstCall: nat, patience: nat,
                       ghost v: View, ghost calm: bool, ghost g0: Gathered)
    returns (ok: bool, at: Frontier, calls: nat, ghost prefix: Option<Path>)
    requires Scanning(k, w) && firstCall <= patience && Known(k, v.t, v.honest) && v.since <= |w.moves|
    requires calm ==> v.honest && w.quiet && Answers(service, v.t.start, v.t.e) && firstCall + MAX_PAGES <= patience
    requires g0.at == from && g0.log == LogOf(w.moves, v.since) && firstCall == |g0.log.requests|
    requires Steady(v.t.start, g0) && InReading(g0, current) && Traced(service, g0) && ReadToEnd(service, g0.log.requests)
    requires v.honest ==> HonestDirectory(service, v.t, v.d) && current == CurrentOf(v.t, v.d)
    requires v.honest ==> Exact(v.t, v.d, 0, from) && Held(v.t, w, g0.log)
    modifies w
    ensures Scanning(k, w) && Lawfully(k, old(w.History()), w.History()) && v.since <= |w.moves|
    ensures Steady(v.t.start, Gathered(prefix, at, LogOf(w.moves, v.since)))
    ensures firstCall <= calls <= patience && calls == |LogOf(w.moves, v.since).requests| && (ok ==> firstCall < calls)
    ensures ok ==> (g0.prefix.Some? ==> prefix == g0.prefix) && Grown(from, at)
    ensures ok ==> ReadThrough(service, g0, current, Gathered(prefix, at, LogOf(w.moves, v.since)))
    ensures (calm ==> ok) && (v.honest ==> calls <= firstCall + MAX_PAGES)
    ensures v.honest && ok ==> Reading(v.t, w, v.d, |List(v.t.e.share, v.d)|, at, g0.log, LogOf(w.moves, v.since))
  {
    hide Lawfully, Step, Steady, InReading, Held, Exact, PagesSeen, HonestDirectory, ChildDirs, ChildFiles, Reading, Known, Answers, SteadySince, SteadyAfter, Grown, Traced, TracedAfter, ReadUpTo, ReadThrough, ReadToEnd, Due, LogOf;
    ghost var a := w.History();
    Idle(k, a);
    ghost var g := g0;
    var pageNumber := 1;
    var seen: map<multiset<ShareItem>, nat> := map[];
    at, calls, prefix := from, firstCall, g0.prefix;
    SteadyHere(v.t.start, g0, current);
    ReadFromHere(service, g0, current);
    if v.honest { ReadingStarts(v.t, w, v.d, from, g0.log); }
    while true
      invariant Scanning(k, w) && Lawfully(k, a, w.History()) && v.since <= |w.moves| && pageNumber >= 1
      invariant g == Gathered(prefix, at, LogOf(w.moves, v.since)) && firstCall <= calls <= patience && calls == |g.log.requests|
      invariant pageNumber > 1 ==> firstCall < calls
      invariant SteadySince(v.t.start, g0, current, g) && ReadUpTo(service, g0, current, pageNumber, g)
      invariant v.honest ==> (pageNumber - 1) * PAGE_SIZE <= |List(v.t.e.share, v.d)| && calls == firstCall + (pageNumber - 1)
      invariant v.honest ==> Reading(v.t, w, v.d, (pageNumber - 1) * PAGE_SIZE, at, g0.log, g.log) && PagesSeen(List(v.t.e.share, v.d), (pageNumber - 1) * PAGE_SIZE, seen)
      decreases patience - calls
    {
      SteadyNow(v.t.start, g0, current, g);
      ReadUpNow(service, g0, current, pageNumber, g);
      if v.honest { PageAllowed(service, v.t, v.d, pageNumber); }
      if calm { PageAnswered(service, v.t, v.d, calls, pageNumber); }
      if pageNumber > MAX_PAGES || calls >= patience { return false, at, calls, prefix; }
      calls := calls + 1;
      ghost var b := w.History();
      var page, items := NextPage(w, k, service, current, at, calls - 1, pageNumber, seen, v, g0.log, g);
      LawfullyThen(k, a, b, w.History());
      if page.None? {
        SteadyAsked(v.t.start, g, Request(current.remote, pageNumber));
        return false, at, calls, prefix;
      }
      SteadyOn(v.t.start, g0, current, g, pageNumber, page.value);
      ReadUpOn(service, g0, current, pageNumber, g, items, page.value);
      seen := seen[multiset(items) := pageNumber];
      g := WithPage(g, current, pageNumber, page.value);
      at, prefix := page.value.at, g.prefix;
      if |items| < PAGE_SIZE {
        SteadyNow(v.t.start, g0, current, g);
        return true, at, calls, prefix;
      }
      pageNumber := pageNumber + 1;
    }
  }

  lemma PageAnswered(service: Service, t: Track, d: Path, call: nat, page: nat)
    requires HonestDirectory(service, t, d) && Answers(service, t.start, t.e) && page >= 1
    ensures service(call, CurrentOf(t, d).remote, page).Some?
  {
  }

  lemma PageAllowed(service: Service, t: Track, d: Path, page: nat)
    requires HonestDirectory(service, t, d) && page >= 1 && (page - 1) * PAGE_SIZE <= |List(t.e.share, d)|
    ensures page <= MAX_PAGES
  {
  }

  lemma ReadingStarts(t: Track, w: World, d: Path, at: Frontier, log: Log)
    requires Exact(t, d, 0, at) && Held(t, w, log)
    ensures Reading(t, w, d, 0, at, log, log) && PagesSeen(List(t.e.share, d), 0, map[])
  {
    assert List(t.e.share, d)[..0] == [];
    assert log.dirs + [] == log.dirs && log.files + [] == log.files;
  }

  // ----- the whole walk ----------------------------------------------------------------------------

  function Pending(t: Track, dirs: seq<Path>): seq<ScanDir> {
    seq(|dirs|, i requires 0 <= i < |dirs| => CurrentOf(t, dirs[i]))
  }

  lemma {:induction false} EntriesArePending(t: Track, dirs: seq<Path>)
    requires forall p :: p in dirs ==> p != []
    ensures Entries(t.e.prefix, dirs) == Pending(t, dirs)
  {
    if dirs != [] {
      var n := |dirs| - 1;
      assert dirs == dirs[..n] + [dirs[n]] && dirs[n] in dirs;
      forall p | p in dirs[..n] ensures p != [] { assert p in dirs; }
      EntriesArePending(t, dirs[..n]);
    }
  }

  /** The walk so far: visited directories, followed by those still queued, are all that was found. */
  ghost predicate Walking(t: Track, w: World, visits: seq<Path>, pending: seq<Path>, at: Frontier, visited: set<Path>, log: Log)
    reads w
  {
    && Aligned(t.start, Some(t.e.prefix), at)
    && at.queue == Pending(t, pending) && visits + pending == [[]] + FlatDirs(t.e.share, visits)
    && (forall l :: l in at.queuedLogical <==> l in [[]] + FlatDirs(t.e.share, visits))
    && Distinct(visits + pending) && (forall v :: v in visits + pending ==> v in t.e.share.dirs)
    && (forall r :: r in visited <==> exists v :: v in visits && r == RemoteOf(t.start, t.e.prefix, v))
    && log.dirs == FlatDirs(t.e.share, visits) && log.files == FlatFiles(t.e.prefix, t.e.share, visits)
    && Held(t, w, log)
  }

  lemma RemotesDiffer(t: Track, a: Path, b: Path)
    requires forall c :: c in t.e.share.dirs && c != [] ==> t.e.prefix + c != t.start
    requires a in t.e.share.dirs && b in t.e.share.dirs && RemoteOf(t.start, t.e.prefix, a) == RemoteOf(t.start, t.e.prefix, b)
    ensures a == b
  {
    if a != [] && b != [] { SamePrefix(t.e.prefix, a, b); }
  }

  function Standing(t: Track, visits: seq<Path>, pending: seq<Path>): Track {
    t.(visits := visits, rest := Pending(t, pending))
  }

  /** The next directory of the queue is one not yet visited. */
  lemma NextUnvisited(t: Track, visits: seq<Path>, pending: seq<Path>, visited: set<Path>)
    requires pending != [] && Distinct(visits + pending) && (forall v :: v in visits + pending ==> v in t.e.share.dirs)
    requires forall c :: c in t.e.share.dirs && c != [] ==> t.e.prefix + c != t.start
    requires forall r :: r in visited <==> exists v :: v in visits && r == RemoteOf(t.start, t.e.prefix, v)
    ensures var d := pending[0]; d !in visits && d in t.e.share.dirs && RemoteOf(t.start, t.e.prefix, d) !in visited && |visits| < |t.e.share.dirs|
  {
    var d := pending[0];
    assert (visits + pending)[|visits|] == d;
    assert d in visits + pending;
    forall i | 0 <= i < |visits| ensures visits[i] != d { assert (visits + pending)[i] == visits[i]; }
    forall v | v in visits ensures RemoteOf(t.start, t.e.prefix, v) != RemoteOf(t.start, t.e.prefix, d) {
      assert v in visits + pending;
      if RemoteOf(t.start, t.e.prefix, v) == RemoteOf(t.start, t.e.prefix, d) { RemotesDiffer(t, v, d); }
    }
    OneMoreFits(t.e.share, visits, pending);
  }

  lemma NextExact(t: Track, visits: seq<Path>, pending: seq<Path>, at: Frontier)
    requires pending != [] && Aligned(t.start, Some(t.e.prefix), at) && at.queue == Pending(t, pending)
    requires forall l :: l in at.queuedLogical <==> l in [[]] + FlatDirs(t.e.share, visits)
    ensures at.queue[0] == CurrentOf(t, pending[0])
    ensures Exact(Standing(t, visits, pending[1..]), pending[0], 0, at.(queue := at.queue[1..], parent := None))
  {
    hide FlatDirs;
    assert at.queue[1..] == Pending(t, pending[1..]);
    assert List(t.e.share, pending[0])[..0] == [] && Entries(t.e.prefix, []) == [] && Pending(t, pending[1..]) + [] == Pending(t, pending[1..]);
  }

  lemma NextDirectory(service: Service, t: Track, w: World, visits: seq<Path>, pending: seq<Path>, at: Frontier, visited: set<Path>, log: Log)
    requires HonestShare(service, t.start, t.e) && Walking(t, w, visits, pending, at, visited, log) && pending != []
    ensures var d, t' := pending[0], Standing(t, visits, pending[1..]);
            && at.queue[0] == CurrentOf(t, d) && at.queue[0].remote !in visited
            && HonestDirectory(service, t', d) && Exact(t', d, 0, at.(queue := at.queue[1..], parent := None))
            && Held(t', w, log) && |visits| < |t.e.share.dirs|
  {
    hide Aligned, FlatDirs, FlatFiles, Holds, WellFormed, WellFormedShare, IsContents, Exact, Pending;
    HonestRoot(service, t);
    NextUnvisited(t, visits, pending, visited);
    NextExact(t, visits, pending, at);
  }

  lemma HonestRoot(service: Service, t: Track)
    requires Honest(service, t.start, t.e)
    ensures forall c :: c in t.e.share.dirs && c != [] ==> t.e.prefix + c != t.start
  {
  }

  lemma OneMoreFits(share: Share, visits: seq<Path>, pending: seq<Path>)
    requires Distinct(visits + pending) && pending != [] && forall v :: v in visits + pending ==> v in share.dirs
    ensures |visits| < |share.dirs|
  {
    VisitsBounded(share, visits + pending);
  }

  lemma PendingNext(t: Track, rest: seq<Path>, found: seq<Path>)
    requires forall p :: p in found ==> p != []
    ensures Pending(t, rest) + Entries(t.e.prefix, found) == Pending(t, rest + found)
  {
    EntriesArePending(t, found);
  }

  /** The walk's order with one more directory read. */
  lemma OrderNext(share: Share, visits: seq<Path>, pending: seq<Path>)
    requires WellFormedShare(share) && pending != [] && visits + pending == [[]] + FlatDirs(share, visits)
    requires Distinct(visits + pending) && (forall v :: v in visits + pending ==> v in share.dirs)
    ensures var d, visits', pending' := pending[0], visits + [pending[0]], pending[1..] + ChildDirs(pending[0], List(share, pending[0]));
            && visits' + pending' == [[]] + FlatDirs(share, visits') && Distinct(visits' + pending')
            && forall v :: v in visits' + pending' ==> v in share.dirs
  {
    hide WellFormedShare, ChildDirs, FlatDirs;
    var d := pending[0];
    var found, visits' := ChildDirs(d, List(share, d)), visits + [d];
    FoundNext(share, visits, d);
    assert visits' + (pending[1..] + found) == (visits + pending) + found;
    assert [[]] + FlatDirs(share, visits') == ([[]] + FlatDirs(share, visits)) + found;
    assert visits + pending == visits' + pending[1..];
    forall v | v in visits' ensures v in share.dirs { assert v in visits + pending; }
    forall i, j | 0 <= i < j < |visits'| ensures visits'[i] != visits'[j] {
      assert (visits + pending)[i] == visits'[i] && (visits + pending)[j] == visits'[j];
    }
    FlatDirsDistinct(share, visits');
    FoundInTree(share, visits');
    RootInTree(share);
  }

  /** Having read the directory, the walk has found its children and nothing else. */
  lemma WalkOn(t: Track, w: World, visits: seq<Path>, pending: seq<Path>, visited: set<Path>, log0: Log, at': Frontier, log: Log)
    requires WellFormedShare(t.e.share) && pending != [] && visits + pending == [[]] + FlatDirs(t.e.share, visits)
    requires Distinct(visits + pending) && (forall v :: v in visits + pending ==> v in t.e.share.dirs)
    requires (forall r :: r in visited <==> exists v :: v in visits && r == RemoteOf(t.start, t.e.prefix, v))
    requires log0.dirs == FlatDirs(t.e.share, visits) && log0.files == FlatFiles(t.e.prefix, t.e.share, visits)
    requires var d, t' := pending[0], Standing(t, visits, pending[1..]); Reading(t', w, d, |List(t.e.share, d)|, at', log0, log)
    ensures var d := pending[0];
            Walking(t, w, visits + [d], pending[1..] + ChildDirs(d, List(t.e.share, d)), at', visited + {RemoteOf(t.start, t.e.prefix, d)}, log)
  {
    hide WellFormedShare, Aligned, ChildDirs, ChildFiles, FlatDirs, FlatFiles, Pending, Entries, Distinct, RemoteOf, Holds;
    var d, t' := pending[0], Standing(t, visits, pending[1..]);
    var list := List(t.e.share, d);
    assert list[..|list|] == list;
    FoundNext(t.e.share, visits, d);
    NoRoot(d, list);
    PendingNext(t, pending[1..], ChildDirs(d, list));
    OrderNext(t.e.share, visits, pending);
    VisitedNext(t, visits, d, visited);
    assert Held(t, w, log) by { assert Held(t', w, log); }
    forall l ensures l in at'.queuedLogical <==> l in [[]] + FlatDirs(t.e.share, visits + [d]) {}
  }

  lemma VisitedNext(t: Track, visits: seq<Path>, d: Path, visited: set<Path>)
    requires forall r :: r in visited <==> exists v :: v in visits && r == RemoteOf(t.start, t.e.prefix, v)
    ensures forall r :: r in visited + {RemoteOf(t.start, t.e.prefix, d)} <==> exists v :: v in visits + [d] && r == RemoteOf(t.start, t.e.prefix, v)
  {
    forall r ensures r in visited + {RemoteOf(t.start, t.e.prefix, d)} <==> exists v :: v in visits + [d] && r == RemoteOf(t.start, t.e.prefix, v) {
      if r in visited {
        var v :| v in visits && r == RemoteOf(t.start, t.e.prefix, v);
        assert v in visits + [d];
      }
      assert d in visits + [d];
    }
  }

  lemma FoundNext(share: Share, visits: seq<Path>, d: Path)
    ensures FlatDirs(share, visits + [d]) == FlatDirs(share, visits) + ChildDirs(d, List(share, d))
    ensures forall prefix :: FlatFiles(prefix, share, visits + [d]) == FlatFiles(prefix, share, visits) + ChildFiles(prefix, d, List(share, d))
  {
    assert (visits + [d])[..|visits|] == visits;
  }

  lemma NoRoot(d: Path, list: seq<Entry>)
    ensures forall p :: p in ChildDirs(d, list) ==> p != []
  {
    forall p | p in ChildDirs(d, list) ensures p != [] { ChildParent(d, list, p); }
  }

  lemma RootInTree(share: Share)
    requires WellFormedShare(share)
    ensures [] in share.dirs
  {
  }

  /** A finished walk has visited every directory once and stored everything the share holds. */
  lemma WalkComplete(t: Track, w: World, visits: seq<Path>, at: Frontier, visited: set<Path>, log: Log)
    requires WellFormedShare(t.e.share) && IsContents(t.e) && Walking(t, w, visits, [], at, visited, log)
    requires t.heldDirs <= t.e.contents.dirs && t.heldIds <= t.e.contents.files.Keys
    ensures Distinct(visits) && forall d :: d in visits <==> d in t.e.share.dirs
    ensures Holds(t.e.contents, w.db, t.e.contents.dirs, t.e.contents.files.Keys)
  {
    hide Aligned, WellFormed, FlatDirs, FlatFiles, Holds, WellFormedShare, IsContents, IdsOf, Pending;
    assert visits + [] == visits;
    forall d | d in t.e.share.dirs ensures d in visits { WalkCovers(t.e.share, visits, d); }
    AllDirsFound(t, visits);
    AllFilesFound(t, visits);
    assert t.heldDirs + (set p | p in log.dirs) == t.e.contents.dirs;
    assert t.heldIds + IdsOf(log.files) == t.e.contents.files.Keys;
    assert Held(t, w, log);
  }

  lemma AllDirsFound(t: Track, visits: seq<Path>)
    requires visits == [[]] + FlatDirs(t.e.share, visits) && (forall d :: d in visits <==> d in t.e.share.dirs) && IsContents(t.e)
    ensures (set p | p in FlatDirs(t.e.share, visits)) == t.e.contents.dirs
  {
    hide WellFormed;
    forall p ensures p in FlatDirs(t.e.share, visits) <==> p in t.e.contents.dirs {
      if p in t.e.contents.dirs { assert p in visits && p != []; }
      if p in FlatDirs(t.e.share, visits) {
        assert p in visits;
        FlatDirsAt(t.e.share, visits, p);
        var d :| d in visits && p in ChildDirs(d, List(t.e.share, d));
        ChildParent(d, List(t.e.share, d), p);
      }
    }
  }

  lemma {:induction false} FlatFilesAt(prefix: Path, share: Share, visits: seq<Path>, d: Path, i: nat)
    requires d in visits && i < |List(share, d)| && !List(share, d)[i].isDir
    ensures FileOf(prefix, d, List(share, d)[i]) in FlatFiles(prefix, share, visits)
  {
    var n := |visits| - 1;
    if d == visits[n] {
      ChildFilesAt(prefix, d, List(share, d), i);
    } else {
      assert d in visits[..n];
      FlatFilesAt(prefix, share, visits[..n], d, i);
    }
  }

  lemma {:induction false} ChildFilesAt(prefix: Path, d: Path, list: seq<Entry>, i: nat)
    requires i < |list| && !list[i].isDir
    ensures FileOf(prefix, d, list[i]) in ChildFiles(prefix, d, list)
  {
    if i < |list| - 1 { ChildFilesAt(prefix, d, list[..|list| - 1], i); }
  }

  lemma {:induction false} FlatFileOf(prefix: Path, share: Share, visits: seq<Path>, f: ManifestFile) returns (d: Path, i: nat)
    requires f in FlatFiles(prefix, share, visits)
    ensures d in visits && i < |List(share, d)| && !List(share, d)[i].isDir && f == FileOf(prefix, d, List(share, d)[i])
  {
    var n := |visits| - 1;
    if f in FlatFiles(prefix, share, visits[..n]) {
      d, i := FlatFileOf(prefix, share, visits[..n], f);
    } else {
      d := visits[n];
      i := ChildFileAt(prefix, d, List(share, d), f);
    }
  }

  lemma AllFilesFound(t: Track, visits: seq<Path>)
    requires (forall d :: d in visits <==> d in t.e.share.dirs) && IsContents(t.e)
    ensures IdsOf(FlatFiles(t.e.prefix, t.e.share, visits)) == t.e.contents.files.Keys
  {
    hide WellFormed;
    var files := FlatFiles(t.e.prefix, t.e.share, visits);
    forall f | f in t.e.contents.files ensures f in IdsOf(files) {
      assert InSomeListing(t.e, f);
      var d, i :| d in t.e.share.dirs && 0 <= i < |List(t.e.share, d)| && !List(t.e.share, d)[i].isDir && List(t.e.share, d)[i].fsId == f;
      FlatFilesAt(t.e.prefix, t.e.share, visits, d, i);
    }
    forall m | m in files ensures m.id in t.e.contents.files { var d, i := FlatFileOf(t.e.prefix, t.e.share, visits, m); }
  }

  /** The start of the walk: only the root is queued and known. */
  function Beginning(start: Path): Frontier {
    Frontier([ScanDir(start, [], true)], map[start := []], map[[] := start], None)
  }

  lemma WalkBegins(service: Service, t: Track, w: World)
    requires HonestShare(service, t.start, t.e) && Held(t, w, Log([], [], []))
    ensures Walking(t, w, [], [[]], Beginning(t.start), {}, Log([], [], []))
  {
    hide Honest, IsContents, Held;
    assert Pending(t, [[]]) == [CurrentOf(t, [])];
    assert [[]] + FlatDirs(t.e.share, []) == [[]];
    var none: seq<Path> := [];
    assert none + [[]] == [[]];
  }

  /** The next directory is taken off the queue. */
  function Taken(at: Frontier): Frontier
    requires at.queue != []
  {
    at.(queue := at.queue[1..], parent := None)
  }

  lemma SteadyQueue(start: Path, g: Gathered)
    requires Steady(start, g) && g.at.queue != []
    ensures Queued(Taken(g.at), g.at.queue[0]) && Steady(start, g.(at := Taken(g.at)))
    ensures g.at.queue[0].remote in g.at.queuedRemote
  {
    assert g.at.queue[0] in g.at.queue;
    forall d | d in g.at.queue[1..] ensures Queued(Taken(g.at), d) { assert d in g.at.queue; }
  }

  lemma SteadyBegins(start: Path)
    ensures Steady(start, Gathered(None, Beginning(start), Log([], [], []))) && RootFirst(start, None, Beginning(start))
  {
  }

  /** The root is queued only at the very beginning, when no prefix is known yet. */
  ghost predicate RootFirst(start: Path, prefix: Option<Path>, at: Frontier) {
    (prefix.None? && at.queue == Beginning(start).queue) || forall d :: d in at.queue ==> !d.initial
  }

  lemma RootGone(start: Path, prefix: Option<Path>, at: Frontier)
    requires at.queue != [] && RootFirst(start, prefix, at)
    ensures (forall d :: d in at.queue[1..] ==> !d.initial) && (at.queue[0].initial ==> prefix.None?)
  {
    assert at.queue[0] in at.queue;
    forall d | d in at.queue[1..] ensures !d.initial { assert d in at.queue; }
  }

  lemma RootStaysGone(start: Path, prefix: Option<Path>, before: Frontier, after: Frontier)
    requires (forall d :: d in before.queue ==> !d.initial) && Grown(before, after)
    ensures RootFirst(start, prefix, after)
  {
  }

  lemma RootFirstGone(start: Path, prefix: Option<Path>, at: Frontier)
    requires forall d :: d in at.queue ==> !d.initial
    ensures RootFirst(start, prefix, at)
  {
  }

  lemma PatienceLeft(calls: nat, visits: nat, dirs: nat, patience: nat)
    requires calls <= MAX_PAGES * visits && visits < dirs && MAX_PAGES * dirs <= patience
    ensures calls + MAX_PAGES <= patience
  {
  }

  lemma HonestInTree(service: Service, t: Track)
    requires HonestShare(service, t.start, t.e)
    ensures WellFormedShare(t.e.share) && IsContents(t.e)
  {
  }

  lemma WalkingFacts(t: Track, w: World, visits: seq<Path>, pending: seq<Path>, at: Frontier, visited: set<Path>, log: Log)
    requires Walking(t, w, visits, pending, at, visited, log)
    ensures |pending| == |at.queue| && visits + pending == [[]] + FlatDirs(t.e.share, visits) && Distinct(visits + pending)
    ensures (forall v :: v in visits + pending ==> v in t.e.share.dirs) && (forall r :: r in visited <==> exists v :: v in visits && r == RemoteOf(t.start, t.e.prefix, v))
    ensures log.dirs == FlatDirs(t.e.share, visits) && log.files == FlatFiles(t.e.prefix, t.e.share, visits)
  {
  }

  // ----- what any walk has on record ---------------------------------------------------------------

  /** What was visited is what was asked for; what is known is visited or queued. */
  ghost predicate Under(service: Service, g: Gathered, visited: set<Path>) {
    && Traced(service, g) && ReadToEnd(service, g.log.requests) && Distinct(FirstDirs(g.log.requests))
    && (forall r :: r in FirstDirs(g.log.requests) <==> r in visited) && visited <= g.at.queuedRemote.Keys && Covered(g.at, visited)
  }

  ghost predicate Covered(at: Frontier, visited: set<Path>) {
    forall r :: r in at.queuedRemote ==> r in visited || exists i :: 0 <= i < |at.queue| && at.queue[i].remote == r
  }

  lemma UnderBegins(service: Service, start: Path)
    ensures Under(service, Gathered(None, Beginning(start), Log([], [], [])), {})
  {
    assert Beginning(start).queue[0].remote == start;
  }

  lemma UnderEnds(service: Service, g: Gathered, visited: set<Path>)
    requires Under(service, g, visited) && g.at.queue == []
    ensures Walked(service, g)
  {
    hide Traced, FirstDirs;
  }

  lemma CoveredTaken(at: Frontier, visited: set<Path>)
    requires at.queue != [] && Covered(at, visited)
    ensures Covered(Taken(at), visited + {at.queue[0].remote})
  {
    forall r | r in at.queuedRemote && r !in visited && r != at.queue[0].remote ensures exists i :: 0 <= i < |Taken(at).queue| && Taken(at).queue[i].remote == r {
      var i :| 0 <= i < |at.queue| && at.queue[i].remote == r;
      assert Taken(at).queue[i - 1].remote == r;
    }
  }

  /** A directory visited before is skipped. */
  lemma UnderSkips(service: Service, g: Gathered, visited: set<Path>)
    requires Under(service, g, visited) && g.at.queue != [] && g.at.queue[0].remote in visited
    ensures Under(service, g.(at := Taken(g.at)), visited)
  {
    hide FirstDirs, DirsTold, FilesTold, AllAnswered;
    CoveredTaken(g.at, visited);
    assert visited + {g.at.queue[0].remote} == visited;
    assert AllAnswered(service, Taken(g.at).queuedRemote, g.log.requests);
  }

  lemma UnderTaken(service: Service, g: Gathered, visited: set<Path>)
    requires Under(service, g, visited) && g.at.queue != []
    ensures Traced(service, g.(at := Taken(g.at))) && ReadToEnd(service, g.log.requests)
  {
    hide FirstDirs, DirsTold, FilesTold, AllAnswered;
    assert AllAnswered(service, Taken(g.at).queuedRemote, g.log.requests);
  }

  /** A directory read to its end was visited. */
  lemma UnderOn(service: Service, g: Gathered, visited: set<Path>, g': Gathered)
    requires Under(service, g, visited) && g.at.queue != [] && g.at.queue[0].remote !in visited && g.at.queue[0].remote in g.at.queuedRemote
    requires ReadThrough(service, g.(at := Taken(g.at)), g.at.queue[0], g') && Grown(Taken(g.at), g'.at)
    ensures Under(service, g', visited + {g.at.queue[0].remote})
  {
    hide Traced, FirstDirs;
    var first, r := FirstDirs(g.log.requests), g.at.queue[0].remote;
    forall i, j | 0 <= i < j < |first + [r]| ensures (first + [r])[i] != (first + [r])[j] {
      if j == |first| { assert first[i] in first; }
    }
    CoveredTaken(g.at, visited);
    CoveredGrown(Taken(g.at), g'.at, visited + {r});
  }

  lemma CoveredGrown(at: Frontier, at': Frontier, visited: set<Path>)
    requires Covered(at, visited) && Grown(at, at')
    ensures Covered(at', visited)
  {
    forall r | r in at'.queuedRemote && r !in visited ensures exists i :: 0 <= i < |at'.queue| && at'.queue[i].remote == r {
      if r in at.queuedRemote {
        var i :| 0 <= i < |at.queue| && at.queue[i].remote == r;
        assert at'.queue[i].remote == r;
      }
    }
  }

  function Remotes(t: Track, visits: seq<Path>): seq<Path> {
    seq(|visits|, i requires 0 <= i < |visits| => RemoteOf(t.start, t.e.prefix, visits[i]))
  }

  /** The visits of an honest walk are those on record. */
  lemma VisitsAre(t: Track, w: World, visits: seq<Path>, visited: set<Path>, g: Gathered)
    requires Walking(t, w, visits, [], g.at, visited, g.log) && FirstDirs(g.log.requests) == Remotes(t, visits)
    ensures Visits(g) == visits
  {
    hide FirstDirs, FlatDirs, FlatFiles, Held, Distinct;
    assert visits + [] == visits;
    forall i | 0 <= i < |visits| ensures Place(g.at.queuedRemote, Remotes(t, visits)[i]) == visits[i] {
      assert visits[i] in visits && visits[i] in g.at.queuedLogical;
      PlaceOf(t, g.at, visits[i]);
    }
  }

  lemma PlaceOf(t: Track, at: Frontier, v: Path)
    requires Aligned(t.start, Some(t.e.prefix), at) && v in at.queuedLogical
    ensures Place(at.queuedRemote, RemoteOf(t.start, t.e.prefix, v)) == v
  {
  }

  /** Scan. Whatever the service answers, and whether or not the scan gets to its end: one remote prefix explains
      every path it has stored, and its two maps are inverse to each other. If it succeeds, every directory it ever
      queued was asked for exactly once, page by page until a short one, and what was stored is what the answers list,
      entry by entry. On a share listed truthfully that means every directory of the tree, exactly its flattening, and
      exactly the share's manifest left; and without faults it does succeed. */
  method Scan(w: World, ghost k: Rules, service: Service, start: Path, patience: nat, ghost t: Track, ghost h: bool, ghost calm: bool)
    returns (ok: bool, at: Frontier, ghost prefix: Option<Path>)
    requires Scanning(k, w) && t.start == start && Known(k, t, h)
    requires h ==> HonestShare(service, start, t.e) && Held(t, w, Log([], [], []))
    requires calm ==> h && w.quiet && Answers(service, start, t.e) && patience >= MAX_PAGES * |t.e.share.dirs|
    requires h ==> t.heldDirs <= t.e.contents.dirs && t.heldIds <= t.e.contents.files.Keys
    modifies w
    ensures Scanning(k, w) && Lawfully(k, old(w.History()), w.History())
    ensures Steady(start, Gathered(prefix, at, LogOf(w.moves, |old(w.moves)|)))
    ensures ok ==> Walked(service, Gathered(prefix, at, LogOf(w.moves, |old(w.moves)|)))
    ensures calm ==> ok
    ensures h && ok ==> var g := Gathered(prefix, at, LogOf(w.moves, |old(w.moves)|));
                        && Distinct(Visits(g)) && (forall d :: d in Visits(g) <==> d in t.e.share.dirs)
                        && g.log.dirs == FlatDirs(t.e.share, Visits(g)) && g.log.files == FlatFiles(t.e.prefix, t.e.share, Visits(g))
    ensures h && ok ==> Holds(t.e.contents, w.db, t.e.contents.dirs, t.e.contents.files.Keys)
  {
    hide Lawfully, Step, Walking, Steady, Queued, HonestShare, HonestDirectory, Exact, Held, Reading, Holds, WellFormedShare, IsContents, RootFirst, FlatDirs, FlatFiles, Grown, Under, Traced, ReadToEnd, ReadThrough, Walked, LogOf, Visits, FirstDirs;
    ghost var a, since := w.History(), |w.moves|;
    Idle(k, a);
    at := Beginning(start);
    var visited: set<Path> := {};
    var calls := 0;
    ghost var pending: seq<Path>, visits: seq<Path> := [[]], [];
    prefix := None;
    NothingLogged(w.moves);
    SteadyBegins(start);
    UnderBegins(service, start);
    if h {
      WalkBegins(service, t, w);
      HonestInTree(service, t);
    }
    while |at.queue| > 0
      invariant Scanning(k, w) && Lawfully(k, a, w.History()) && since <= |w.moves| && calls <= patience && calls == |LogOf(w.moves, since).requests|
      invariant Steady(start, Gathered(prefix, at, LogOf(w.moves, since))) && RootFirst(start, prefix, at)
      invariant Under(service, Gathered(prefix, at, LogOf(w.moves, since)), visited)
      invariant h ==> Walking(t, w, visits, pending, at, visited, LogOf(w.moves, since)) && |pending| == |at.queue| && calls <= MAX_PAGES * |visits|
      invariant h ==> FirstDirs(LogOf(w.moves, since).requests) == Remotes(t, visits)
      decreases patience - calls, |at.queue|
    {
      ghost var g := Gathered(prefix, at, LogOf(w.moves, since));
      if h { NextDirectory(service, t, w, visits, pending, at, visited, g.log); }
      var cancelled := w.Fails();
      if cancelled {
        ok := false;
        return;
      }
      var current := at.queue[0];
      SteadyQueue(start, g);
      RootGone(start, prefix, at);
      at := Taken(at);
      if current.remote in visited {
        RootFirstGone(start, prefix, at);
        UnderSkips(service, g, visited);
        continue;
      }
      UnderTaken(service, g, visited);
      ghost var b, d, t' := w.History(), if h then pending[0] else [], if h then Standing(t, visits, pending[1..]) else t;
      if h {
        if calm { PatienceLeft(calls, |visits|, |t.e.share.dirs|, patience); }
        WalkingFacts(t, w, visits, pending, g.at, visited, g.log);
      }
      var read;
      read, at, calls, prefix := ScanDirectory(w, k, service, current, at, calls, patience, View(since, h, t', d), calm, g.(at := at));
      LawfullyThen(k, a, b, w.History());
      if !read {
        ok := false;
        return;
      }
      RootStaysGone(start, prefix, Taken(g.at), at);
      UnderOn(service, g, visited, Gathered(prefix, at, LogOf(w.moves, since)));
      if h {
        WalkOn(t, w, visits, pending, visited, g.log, at, LogOf(w.moves, since));
        RemotesOn(service, t, visits, d, g, Gathered(prefix, at, LogOf(w.moves, since)));
        visits, pending := visits + [d], pending[1..] + ChildDirs(d, List(t.e.share, d));
        WalkingFacts(t, w, visits, pending, at, visited + {current.remote}, LogOf(w.moves, since));
      }
      visited := visited + {current.remote};
    }
    UnderEnds(service, Gathered(prefix, at, LogOf(w.moves, since)), visited);
    if h {
      assert pending == [];
      WalkComplete(t, w, visits, at, visited, LogOf(w.moves, since));
      VisitsAre(t, w, visits, visited, Gathered(prefix, at, LogOf(w.moves, since)));
      WalkingFacts(t, w, visits, [], at, visited, LogOf(w.moves, since));
    }
    ok := true;
  }

  lemma NothingLogged(moves: seq<Move>)
    ensures LogOf(moves, |moves|) == Log([], [], []) && FirstDirs([]) == []
  {
  }

  lemma RemotesOn(service: Service, t: Track, visits: seq<Path>, d: Path, g: Gathered, g': Gathered)
    requires g.at.queue != [] && g.at.queue[0] == CurrentOf(t, d) && ReadThrough(service, g.(at := Taken(g.at)), g.at.queue[0], g')
    requires FirstDirs(g.log.requests) == Remotes(t, visits)
    ensures FirstDirs(g'.log.requests) == Remotes(t, visits + [d])
  {
    hide Traced, FirstDirs;
  }

  /** So each single page the scan has committed is in line with its maps, and names every file by the one prefix. */
  lemma PageInLine(start: Path, prefix: Option<Path>, at: Frontier, moves: seq<Move>, since: nat, i: nat)
    requires Steady(start, Gathered(prefix, at, LogOf(moves, since))) && since <= i < |moves| && moves[i].Tx? && moves[i].op.UpsertPage?
    ensures DirsAligned(at, moves[i].op.dirs) && FilesAligned(prefix, moves[i].op.files)
  {
    PageLogged(moves, since, i);
  }
}
