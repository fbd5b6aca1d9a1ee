/** The manifest transactions of internal/state/manifest_store.go, and why scanning again,
    after any number of interrupted scans, changes nothing. */
module ManifestStore {
  import opened Wrappers
  import opened Model
  import opened Tables
  import opened Transactions
  import opened Durable
  import opened Worlds

  /** One directory of a page: canonical, storable, and not the path of a file. */
  method UpsertOneDirectory(db: Db, p: Path) returns (r: Option<Db>)
    ensures r == UpsertDirectory(db, p)
  {
    if !CanonicalPath(p) || p == [] { return None; }
    if PathIsFile(db, p) { return None; }
    r := Some(db.(directories := db.directories + {p}));
  }

  /** One file of a page: new, or seen before under the very same path and size. */
  method UpsertOneFile(db: Db, m: ManifestFile) returns (r: Option<Db>)
    ensures r == UpsertFile(db, m)
  {
    if !CanonicalPath(m.path) || m.path == [] || !CanonicalPath(m.parent) { return None; }
    if m.name == "" || m.size < 0 { return None; }
    if Parent(m.path) != m.parent || Base(m.path) != m.name { return None; }
    if m.path in db.directories { return None; }
    if m.id in db.files {
      var row := db.files[m.id];
      if row.path != m.path || row.size != m.size { return None; }
      if row.md5 != "" && m.md5 != "" && row.md5 != m.md5 { return None; }
      var md5 := if row.md5 == "" && m.md5 != "" then m.md5 else row.md5;
      return Some(db.(files := db.files[m.id := row.(md5 := md5)]));
    }
    if PathIsFile(db, m.path) { return None; }
    r := Some(db.(files := db.files[m.id := FileRow(m.path, m.size, m.md5, Discovered, NoStaging, NoCache, "", 0)]));
  }

  lemma {:induction false} DirectoriesFail(db: Db, dirs: seq<Path>, n: nat)
    requires n <= |dirs| && UpsertDirectories(db, dirs[..n]).None?
    ensures UpsertDirectories(db, dirs).None?
    decreases |dirs|
  {
    if n == |dirs| {
      assert dirs[..n] == dirs;
    } else {
      assert dirs[..|dirs| - 1][..n] == dirs[..n];
      DirectoriesFail(db, dirs[..|dirs| - 1], n);
    }
  }

  lemma {:induction false} FilesFail(db: Db, files: seq<ManifestFile>, n: nat)
    requires n <= |files| && UpsertFiles(db, files[..n]).None?
    ensures UpsertFiles(db, files).None?
    decreases |files|
  {
    if n == |files| {
      assert files[..n] == files;
    } else {
      assert files[..|files| - 1][..n] == files[..n];
      FilesFail(db, files[..|files| - 1], n);
    }
  }

  /** UpsertManifestPage: directories first, then files; one refusal rolls the page back. */
  method UpsertManifestPage(w: World, dirs: seq<Path>, files: seq<ManifestFile>) returns (ok: bool)
    requires w.Valid()
    modifies w
    ensures w.Valid() && (if ok then w.Committed(UpsertPage(dirs, files)) else w.Same())
    ensures w.quiet && UpsertManifest(old(w.db), dirs, files).Some? ==> ok
  {
    var failed := w.Fails();
    if failed { return false; }
    var tx := w.db;
    var i := 0;
    while i < |dirs|
      modifies {}
      invariant 0 <= i <= |dirs| && UpsertDirectories(w.db, dirs[..i]) == Some(tx)
    {
      assert dirs[..i + 1][..i] == dirs[..i];
      var next := UpsertOneDirectory(tx, dirs[i]);
      if next.None? {
        DirectoriesFail(w.db, dirs, i + 1);
        return false;
      }
      tx := next.value;
      i := i + 1;
    }
    assert dirs[..i] == dirs;
    ghost var withDirs := tx;
    i := 0;
    while i < |files|
      modifies {}
      invariant 0 <= i <= |files| && UpsertFiles(withDirs, files[..i]) == Some(tx)
    {
      assert files[..i + 1][..i] == files[..i];
      var next := UpsertOneFile(tx, files[i]);
      if next.None? {
        FilesFail(withDirs, files, i + 1);
        return false;
      }
      tx := next.value;
      i := i + 1;
    }
    assert files[..i] == files;
    w.Commit(UpsertPage(dirs, files), tx);
    ok := true;
  }

  // ----- scanning a static share again -------------------------------------------------

  /** What a static share has to say: its directories, and its files by source ID. */
  datatype Contents = Contents(dirs: set<Path>, files: map<FileId, ManifestFile>)

  ghost predicate WellFormed(c: Contents) {
    && (forall p :: p in c.dirs ==> p != [] && CanonicalPath(p))
    && (forall f :: f in c.files ==> c.files[f].id == f && WellFormedEntry(c.files[f]) && c.files[f].path !in c.dirs)
    && (forall f, g :: f in c.files && g in c.files && c.files[f].path == c.files[g].path ==> f == g)
  }

  datatype Page = Page(dirs: seq<Path>, files: seq<ManifestFile>)

  ghost predicate PageOf(c: Contents, page: Page) {
    && (forall p :: p in page.dirs ==> p in c.dirs)
    && (forall m :: m in page.files ==> m.id in c.files && c.files[m.id] == m)
  }

  /** The tables hold the given part of the share, exactly as a scan records it. */
  ghost predicate Holds(c: Contents, db: Db, dirs: set<Path>, ids: set<FileId>) {
    && dirs <= c.dirs && ids <= c.files.Keys
    && db.directories == dirs && db.files.Keys == ids
    && forall f :: f in ids ==> 0 <= c.files[f].size && db.files[f] == NewRow(c.files[f])
  }

  function IdsOf(files: seq<ManifestFile>): set<FileId> {
    set m | m in files :: m.id
  }

  lemma {:induction false} DirectoriesAdd(c: Contents, db: Db, dirs: set<Path>, ids: set<FileId>, more: seq<Path>)
    requires WellFormed(c) && Holds(c, db, dirs, ids) && forall p :: p in more ==> p in c.dirs
    ensures UpsertDirectories(db, more) == Some(db.(directories := dirs + set p | p in more))
  {
    if more == [] {
      assert dirs + (set p | p in more) == dirs;
    } else {
      var n := |more| - 1;
      assert more == more[..n] + [more[n]];
      DirectoriesAdd(c, db, dirs, ids, more[..n]);
      assert dirs + (set p | p in more[..n]) + {more[n]} == dirs + set p | p in more;
    }
  }

  lemma FileAdds(c: Contents, db: Db, dirs: set<Path>, ids: set<FileId>, m: ManifestFile)
    requires WellFormed(c) && Holds(c, db, dirs, ids) && m.id in c.files && c.files[m.id] == m
    ensures UpsertFile(db, m).Some? && Holds(c, UpsertFile(db, m).value, dirs, ids + {m.id})
    ensures UpsertFile(db, m).value == db.(files := UpsertFile(db, m).value.files)
  {
    if m.id in db.files {
      var row := db.files[m.id];
      assert db.files[m.id := row.(md5 := if row.md5 == "" then m.md5 else row.md5)] == db.files;
      assert ids + {m.id} == ids;
    }
  }

  lemma {:induction false} FilesAdd(c: Contents, db: Db, dirs: set<Path>, ids: set<FileId>, more: seq<ManifestFile>)
    requires WellFormed(c) && Holds(c, db, dirs, ids) && forall m :: m in more ==> m.id in c.files && c.files[m.id] == m
    ensures UpsertFiles(db, more).Some? && Holds(c, UpsertFiles(db, more).value, dirs, ids + IdsOf(more))
    ensures UpsertFiles(db, more).value == db.(files := UpsertFiles(db, more).value.files)
  {
    if more == [] {
      assert ids + IdsOf(more) == ids;
    } else {
      var n := |more| - 1;
      assert more == more[..n] + [more[n]];
      FilesAdd(c, db, dirs, ids, more[..n]);
      FileAdds(c, UpsertFiles(db, more[..n]).value, dirs, ids + IdsOf(more[..n]), more[n]);
      assert ids + IdsOf(more[..n]) + {more[n].id} == ids + IdsOf(more);
    }
  }

  /** A page of the share is always accepted, and adds exactly what it lists. */
  lemma PageAdds(c: Contents, db: Db, dirs: set<Path>, ids: set<FileId>, page: Page)
    requires WellFormed(c) && Holds(c, db, dirs, ids) && PageOf(c, page)
    ensures UpsertManifest(db, page.dirs, page.files).Some?
    ensures var db' := UpsertManifest(db, page.dirs, page.files).value;
            Holds(c, db', dirs + (set p | p in page.dirs), ids + IdsOf(page.files)) && db' == db.(directories := db'.directories, files := db'.files)
  {
    DirectoriesAdd(c, db, dirs, ids, page.dirs);
    var withDirs := UpsertDirectories(db, page.dirs).value;
    FilesAdd(c, withDirs, dirs + (set p | p in page.dirs), ids, page.files);
  }

  /** The tables after a sequence of pages, each its own transaction. */
  function AfterPages(db: Db, pages: seq<Page>): Option<Db> {
    if pages == [] then Some(db)
    else
      var before := AfterPages(db, pages[..|pages| - 1]);
      if before.None? then None else UpsertManifest(before.value, pages[|pages| - 1].dirs, pages[|pages| - 1].files)
  }

  function AllDirs(pages: seq<Page>): set<Path> {
    set page, p | page in pages && p in page.dirs :: p
  }

  function AllIds(pages: seq<Page>): set<FileId> {
    set page, m | page in pages && m in page.files :: m.id
  }

  lemma {:induction false} PagesAdd(c: Contents, db: Db, dirs: set<Path>, ids: set<FileId>, pages: seq<Page>)
    requires WellFormed(c) && Holds(c, db, dirs, ids) && forall page :: page in pages ==> PageOf(c, page)
    ensures AfterPages(db, pages).Some? && Holds(c, AfterPages(db, pages).value, dirs + AllDirs(pages), ids + AllIds(pages))
    ensures var db' := AfterPages(db, pages).value; db' == db.(directories := db'.directories, files := db'.files)
  {
    if pages == [] {
      assert dirs + AllDirs(pages) == dirs && ids + AllIds(pages) == ids;
    } else {
      var n := |pages| - 1;
      var page := pages[n];
      assert pages == pages[..n] + [page];
      PagesAdd(c, db, dirs, ids, pages[..n]);
      PageAdds(c, AfterPages(db, pages[..n]).value, dirs + AllDirs(pages[..n]), ids + AllIds(pages[..n]), page);
      assert dirs + AllDirs(pages[..n]) + (set p | p in page.dirs) == dirs + AllDirs(pages);
      assert ids + AllIds(pages[..n]) + IdsOf(page.files) == ids + AllIds(pages);
    }
  }

  lemma HoldsSame(c: Contents, a: Db, b: Db, dirs: set<Path>, ids: set<FileId>)
    requires Holds(c, a, dirs, ids) && Holds(c, b, dirs, ids) && b == a.(directories := b.directories, files := b.files)
    ensures a == b
  {
    forall f ensures f in a.files <==> f in b.files { assert f in a.files.Keys <==> f in b.files.Keys; }
    forall f | f in a.files ensures a.files[f] == b.files[f] { assert f in ids; }
    assert a.files == b.files;
  }

  lemma CoverTogether(c: Contents, interrupted: seq<Page>, complete: seq<Page>)
    requires forall page :: page in interrupted + complete ==> PageOf(c, page)
    requires AllDirs(complete) == c.dirs && AllIds(complete) == c.files.Keys
    ensures AllDirs(interrupted + complete) == c.dirs && AllIds(interrupted + complete) == c.files.Keys
  {
    var all := interrupted + complete;
    forall p ensures p in AllDirs(all) <==> p in c.dirs {
      if p in AllDirs(complete) {
        var page :| page in complete && p in page.dirs;
        assert page in all;
      }
    }
    forall f ensures f in AllIds(all) <==> f in c.files.Keys {
      if f in AllIds(complete) {
        var page, m :| page in complete && m in page.files && m.id == f;
        assert page in all;
      }
    }
  }

  /** Any pages that interrupted scans of a static share have left behind make no difference: together with a
      complete scan they end in the very manifest a single complete scan leaves. */
  lemma RescanChangesNothing(c: Contents, id: string, interrupted: seq<Page>, complete: seq<Page>)
    requires WellFormed(c) && forall page :: page in interrupted + complete ==> PageOf(c, page)
    requires AllDirs(complete) == c.dirs && AllIds(complete) == c.files.Keys
    ensures AfterPages(EmptyDb(id), complete).Some?
    ensures AfterPages(EmptyDb(id), interrupted + complete) == AfterPages(EmptyDb(id), complete)
  {
    hide AllDirs, AllIds, WellFormed, PageOf, Holds;
    var db := EmptyDb(id);
    assert forall page :: page in complete ==> page in interrupted + complete;
    CoverTogether(c, interrupted, complete);
    NothingHeld(c, id);
    PagesAdd(c, db, {}, {}, complete);
    PagesAdd(c, db, {}, {}, interrupted + complete);
    assert {} + c.dirs == c.dirs && {} + c.files.Keys == c.files.Keys;
    HoldsSame(c, AfterPages(db, complete).value, AfterPages(db, interrupted + complete).value, c.dirs, c.files.Keys);
  }

  lemma NothingHeld(c: Contents, id: string)
    ensures Holds(c, EmptyDb(id), {}, {})
  {
  }
}
