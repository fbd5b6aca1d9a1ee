/** An honest share: a finite tree, truthfully listed page by page, and what its scan has to report. */
module Shares {
  import opened Wrappers
  import opened Model
  import opened Tables
  import opened Transactions
  import opened ManifestStore
  import opened Scanner
  import Counting

  datatype Entry = Entry(name: string, isDir: bool, fsId: int, size: nat, md5: string)

  /** Directories by logical path, [] being the root, and what is listed in each. */
  datatype Share = Share(dirs: set<Path>, listing: map<Path, seq<Entry>>)

  /** The share together with the remote path of its root's entries and its contents as a manifest. */
  datatype Expected = Expected(share: Share, prefix: Path, contents: Contents)

  function List(share: Share, d: Path): seq<Entry> {
    if d in share.listing then share.listing[d] else []
  }

  ghost predicate WellFormedShare(share: Share) {
    && [] in share.dirs
    && (forall d, i :: d in share.dirs && 0 <= i < |List(share, d)| ==> EntryOk(share, d, List(share, d)[i]))
    && (forall d, i, j :: d in share.dirs && 0 <= i < j < |List(share, d)| ==> List(share, d)[i].name != List(share, d)[j].name)
    && (forall d {:trigger Rooted(share, d)} :: d in share.dirs && d != [] ==> Rooted(share, d))
    && (forall d :: d in share.dirs ==> |List(share, d)| < PAGE_SIZE * MAX_PAGES)
  }

  /** A directory below the root is listed in its parent. */
  predicate Rooted(share: Share, d: Path) {
    Parent(d) in share.dirs && d in ChildDirs(Parent(d), List(share, Parent(d)))
  }

  predicate EntryOk(share: Share, d: Path, e: Entry) {
    SafeEntryName(e.name) && (if e.isDir then d + [e.name] in share.dirs else e.fsId > 0)
  }

  /** The directories among some entries of d, in order. */
  function ChildDirs(d: Path, list: seq<Entry>): seq<Path> {
    if list == [] then []
    else ChildDirs(d, list[..|list| - 1]) + if list[|list| - 1].isDir then [d + [list[|list| - 1].name]] else []
  }

  function FileOf(prefix: Path, d: Path, e: Entry): ManifestFile {
    ManifestFile(e.fsId, prefix + (d + [e.name]), d + [e.name], d, e.name, e.size, NormalizeMd5(e.md5))
  }

  /** The files among some entries of d, in order. */
  function ChildFiles(prefix: Path, d: Path, list: seq<Entry>): seq<ManifestFile> {
    if list == [] then []
    else ChildFiles(prefix, d, list[..|list| - 1]) + if list[|list| - 1].isDir then [] else [FileOf(prefix, d, list[|list| - 1])]
  }

  /** Everything below the visited directories, directory by directory: the flattening of the tree. */
  function FlatDirs(share: Share, visits: seq<Path>): seq<Path> {
    if visits == [] then [] else FlatDirs(share, visits[..|visits| - 1]) + ChildDirs(visits[|visits| - 1], List(share, visits[|visits| - 1]))
  }

  function FlatFiles(prefix: Path, share: Share, visits: seq<Path>): seq<ManifestFile> {
    if visits == [] then []
    else FlatFiles(prefix, share, visits[..|visits| - 1]) + ChildFiles(prefix, visits[|visits| - 1], List(share, visits[|visits| - 1]))
  }

  // ----- the service -------------------------------------------------------------------

  function RemoteOf(start: Path, prefix: Path, d: Path): Path {
    if d == [] then start else prefix + d
  }

  function PageStart(list: seq<Entry>, page: nat): nat
    requires page >= 1
  {
    if (page - 1) * PAGE_SIZE > |list| then |list| else (page - 1) * PAGE_SIZE
  }

  predicate Shows(start: Path, prefix: Path, d: Path, e: Entry, item: ShareItem) {
    && item.name == e.name && item.isDir == e.isDir && item.fsId == e.fsId && item.size == e.size && item.md5 == e.md5
    && (item.path == At(prefix + (d + [e.name])) || (item.path.Blank? && RemoteOf(start, prefix, d) == prefix + d))
  }

  ghost predicate ShowsPage(start: Path, prefix: Path, d: Path, list: seq<Entry>, page: nat, items: seq<ShareItem>)
    requires page >= 1
  {
    && |items| == PageStart(list, page + 1) - PageStart(list, page)
    && forall i :: 0 <= i < |items| ==> Shows(start, prefix, d, list[PageStart(list, page) + i], items[i])
  }

  /** Whatever page of a directory is answered, whenever it is asked for, is answered truthfully. */
  ghost predicate Honest(service: Service, start: Path, e: Expected) {
    && (forall n, d, page :: d in e.share.dirs && page >= 1 && service(n, RemoteOf(start, e.prefix, d), page).Some? ==>
          ShowsPage(start, e.prefix, d, List(e.share, d), page, service(n, RemoteOf(start, e.prefix, d), page).value))
    && (forall d :: d in e.share.dirs && d != [] ==> e.prefix + d != start)
  }

  /** And every page is answered. */
  ghost predicate Answers(service: Service, start: Path, e: Expected) {
    forall n, d, page :: d in e.share.dirs && page >= 1 ==> service(n, RemoteOf(start, e.prefix, d), page).Some?
  }

  /** The manifest contents are exactly the entries of the tree; one source ID names one file. */
  ghost predicate IsContents(e: Expected) {
    && WellFormed(e.contents)
    && e.contents.dirs == e.share.dirs - {[]}
    && (forall d, i :: d in e.share.dirs && 0 <= i < |List(e.share, d)| && !List(e.share, d)[i].isDir ==>
          var m := FileOf(e.prefix, d, List(e.share, d)[i]); m.id in e.contents.files && e.contents.files[m.id] == m)
    && (forall f :: f in e.contents.files ==> InSomeListing(e, f))
  }

  ghost predicate InSomeListing(e: Expected, f: FileId) {
    exists d, i :: d in e.share.dirs && 0 <= i < |List(e.share, d)| && !List(e.share, d)[i].isDir && List(e.share, d)[i].fsId == f
  }

  ghost predicate HonestShare(service: Service, start: Path, e: Expected) {
    WellFormedShare(e.share) && Honest(service, start, e) && IsContents(e)
  }

  // ----- the walk covers the tree ---------------------------------------------------------

  lemma {:induction false} ChildDirsAt(d: Path, list: seq<Entry>, c: Path)
    ensures c in ChildDirs(d, list) <==> exists i :: 0 <= i < |list| && list[i].isDir && c == d + [list[i].name]
  {
    if list != [] {
      var n := |list| - 1;
      ChildDirsAt(d, list[..n], c);
      if exists i :: 0 <= i < |list| && list[i].isDir && c == d + [list[i].name] {
        var i :| 0 <= i < |list| && list[i].isDir && c == d + [list[i].name];
        if i < n { assert list[..n][i] == list[i]; }
      }
      if c in ChildDirs(d, list[..n]) {
        var i :| 0 <= i < n && list[..n][i].isDir && c == d + [list[..n][i].name];
        assert list[i] == list[..n][i];
      }
    }
  }

  lemma {:induction false} FlatDirsAt(share: Share, visits: seq<Path>, c: Path)
    ensures c in FlatDirs(share, visits) <==> exists d :: d in visits && c in ChildDirs(d, List(share, d))
  {
    if visits != [] {
      var n := |visits| - 1;
      assert visits == visits[..n] + [visits[n]];
      FlatDirsAt(share, visits[..n], c);
      if d :| d in visits && c in ChildDirs(d, List(share, d)) {
        assert d in visits[..n] || d == visits[n];
      }
      if c in FlatDirs(share, visits[..n]) {
        var d :| d in visits[..n] && c in ChildDirs(d, List(share, d));
        assert d in visits;
      }
    }
  }

  lemma ChildParent(d: Path, list: seq<Entry>, c: Path)
    requires c in ChildDirs(d, list)
    ensures c != [] && Parent(c) == d
  {
    ChildDirsAt(d, list, c);
    var i :| 0 <= i < |list| && list[i].isDir && c == d + [list[i].name];
    assert c[..|c| - 1] == d;
  }

  /** An entry of a directory not visited yet has not been found before. */
  lemma NotYetFound(share: Share, visits: seq<Path>, d: Path, name: string)
    requires d !in visits
    ensures d + [name] !in [[]] + FlatDirs(share, visits)
  {
    var c := d + [name];
    assert Parent(c) == d;
    FlatDirsAt(share, visits, c);
    forall v | v in visits ensures c !in ChildDirs(v, List(share, v)) {
      if c in ChildDirs(v, List(share, v)) { ChildParent(v, List(share, v), c); }
    }
  }

  lemma {:induction false} ChildDirsDistinct(d: Path, list: seq<Entry>)
    requires forall i, j :: 0 <= i < j < |list| ==> list[i].name != list[j].name
    ensures Distinct(ChildDirs(d, list))
  {
    if list != [] {
      var n := |list| - 1;
      ChildDirsDistinct(d, list[..n]);
      var c := d + [list[n].name];
      ChildDirsAt(d, list[..n], c);
      forall i | 0 <= i < n ensures d + [list[..n][i].name] != c {
        assert list[..n][i] == list[i] && c[|d|] == list[n].name && (d + [list[i].name])[|d|] == list[i].name;
      }
    }
  }

  lemma FreshChildren(share: Share, visits: seq<Path>, d: Path)
    requires d !in visits
    ensures forall c :: c in ChildDirs(d, List(share, d)) ==> c !in [[]] + FlatDirs(share, visits)
  {
    forall c | c in ChildDirs(d, List(share, d)) ensures c !in [[]] + FlatDirs(share, visits) {
      ChildParent(d, List(share, d), c);
      assert c == d + [c[|c| - 1]];
      NotYetFound(share, visits, d, c[|c| - 1]);
    }
  }

  lemma NothingFound(share: Share)
    ensures Distinct([[]] + FlatDirs(share, []))
  {
  }

  lemma OneMoreVisit(share: Share, visits: seq<Path>, d: Path)
    requires Distinct([[]] + FlatDirs(share, visits)) && d !in visits && Distinct(ChildDirs(d, List(share, d)))
    ensures Distinct(([[]] + FlatDirs(share, visits)) + ChildDirs(d, List(share, d)))
  {
    hide FlatDirs, ChildDirs, Distinct;
    FreshChildren(share, visits, d);
    DistinctJoin([[]] + FlatDirs(share, visits), ChildDirs(d, List(share, d)));
  }

  /** Distinct visits find distinct directories. */
  lemma {:induction false} FlatDirsDistinct(share: Share, visits: seq<Path>)
    requires WellFormedShare(share) && Distinct(visits) && forall v :: v in visits ==> v in share.dirs
    ensures Distinct([[]] + FlatDirs(share, visits))
    decreases |visits|
  {
    hide FlatDirs, ChildDirs, WellFormedShare, Distinct;
    if visits == [] {
      NothingFound(share);
    } else {
      var n := |visits| - 1;
      LastVisit(visits);
      FlatDirsDistinct(share, visits[..n]);
      NamesDiffer(share, visits[n]);
      ChildDirsDistinct(visits[n], List(share, visits[n]));
      OneMoreVisit(share, visits[..n], visits[n]);
      FlatDirsLast(share, visits);
      Regroup([[]], FlatDirs(share, visits[..n]), ChildDirs(visits[n], List(share, visits[n])));
    }
  }

  lemma Regroup(a: seq<Path>, b: seq<Path>, c: seq<Path>)
    ensures a + (b + c) == (a + b) + c
  {
  }

  lemma LastVisit(visits: seq<Path>)
    requires visits != [] && Distinct(visits)
    ensures var n := |visits| - 1; Distinct(visits[..n]) && visits[n] !in visits[..n] && visits[n] in visits && forall v :: v in visits[..n] ==> v in visits
  {
  }

  lemma NamesDiffer(share: Share, d: Path)
    requires WellFormedShare(share) && d in share.dirs
    ensures forall i, j :: 0 <= i < j < |List(share, d)| ==> List(share, d)[i].name != List(share, d)[j].name
  {
  }

  lemma FlatDirsLast(share: Share, visits: seq<Path>)
    requires visits != []
    ensures var n := |visits| - 1; FlatDirs(share, visits) == FlatDirs(share, visits[..n]) + ChildDirs(visits[n], List(share, visits[n]))
  {
  }

  lemma DistinctJoin<T>(a: seq<T>, b: seq<T>)
    requires Distinct(a) && Distinct(b) && forall x :: x in b ==> x !in a
    ensures Distinct(a + b)
  {
    forall i, j | 0 <= i < j < |a + b| ensures (a + b)[i] != (a + b)[j] {
      if i < |a| <= j { assert b[j - |a|] in b && a[i] in a; }
    }
  }

  /** A walk that has visited all it found has visited the whole tree. */
  lemma {:induction false} WalkCovers(share: Share, visits: seq<Path>, d: Path)
    requires WellFormedShare(share) && visits == [[]] + FlatDirs(share, visits) && d in share.dirs
    ensures d in visits
    decreases |d|
  {
    if d != [] {
      assert Rooted(share, d);
      WalkCovers(share, visits, Parent(d));
      FlatDirsAt(share, visits, d);
      assert d in FlatDirs(share, visits);
    }
  }

  lemma {:induction false} FoundInTree(share: Share, visits: seq<Path>)
    requires WellFormedShare(share) && forall v :: v in visits ==> v in share.dirs
    ensures forall c :: c in FlatDirs(share, visits) ==> c in share.dirs
  {
    forall c | c in FlatDirs(share, visits) ensures c in share.dirs {
      FlatDirsAt(share, visits, c);
      var d :| d in visits && c in ChildDirs(d, List(share, d));
      ChildDirsAt(d, List(share, d), c);
      var i :| 0 <= i < |List(share, d)| && List(share, d)[i].isDir && c == d + [List(share, d)[i].name];
      assert EntryOk(share, d, List(share, d)[i]);
    }
  }

  lemma VisitsBounded(share: Share, visits: seq<Path>)
    requires Distinct(visits) && forall v :: v in visits ==> v in share.dirs
    ensures |visits| <= |share.dirs|
  {
    Counting.DistinctSize(visits);
    var visited := set x | x in visits;
    Counting.SubsetCardinality(visited, share.dirs);
  }
}
