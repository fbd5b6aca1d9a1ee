/** The share scanner (internal/baidu/scanner.go): a paged breadth-first walk, and the one
    remote prefix behind everything it reports. */
module Scanner {
  import opened Wrappers
  import opened Model
  import opened Tables
  import opened Transactions
  import opened Durable
  import opened Worlds
  import opened ManifestStore

  const PAGE_SIZE: nat := 100
  const MAX_PAGES: nat := 100000

  datatype ItemPath = Blank | NotCanonical | At(path: Path)

  /** One entry of a share listing, as decoded. */
  datatype ShareItem = ShareItem(fsId: int, name: string, path: ItemPath, isDir: bool, size: int, md5: string)

  datatype ScanDir = ScanDir(remote: Path, logical: Path, initial: bool)

  /** What the service answers to the n-th request, for a directory and a page; None is any error. */
  type Service = (nat, Path, nat) -> Option<seq<ShareItem>>

  /** The scan's queue and its two maps; parent is the common remote parent of the root's entries. */
  datatype Frontier = Frontier(queue: seq<ScanDir>, queuedRemote: map<Path, Path>, queuedLogical: map<Path, Path>, parent: Option<Path>)

  /** One page under construction; names are the logical paths already seen on it. */
  datatype PageState = PageState(dirs: seq<Path>, files: seq<ManifestFile>, names: set<Path>, at: Frontier)

  /** safeShareEntryName. */
  predicate SafeEntryName(n: string) {
    CanonicalName(n) && '\\' !in n
  }

  predicate IsHex(c: char) {
    '0' <= c <= '9' || 'a' <= c <= 'f' || 'A' <= c <= 'F'
  }

  function Lower(s: string): string {
    if s == "" then "" else [if 'A' <= s[0] <= 'F' then (s[0] as int + 32) as char else s[0]] + Lower(s[1..])
  }

  /** normalizeShareMD5: anything but 32 hexadecimal digits counts as unknown. */
  function NormalizeMd5(raw: string): Digest {
    if |raw| != 32 || exists c :: c in raw && !IsHex(c) then "" else Lower(raw)
  }

  /** The full remote path of an entry, checked against the directory it was listed in. */
  function FullPath(current: ScanDir, parent: Option<Path>, item: ShareItem): Option<Path> {
    var expected := current.remote + [item.name];
    if item.path.NotCanonical? then None
    else
      var full := if item.path.Blank? then expected else item.path.path;
      if current.initial then
        if full == [] || Base(full) != item.name || (parent.Some? && parent.value != Parent(full)) then None else Some(full)
      else if full != expected then None else Some(full)
  }

  /** One entry of a page. */
  function TakeItem(current: ScanDir, st: PageState, item: ShareItem): Option<PageState> {
    if !SafeEntryName(item.name) then None
    else
      var logical := current.logical + [item.name];
      var placed := FullPath(current, st.at.parent, item);
      if placed.None? then None
      else
        var full := placed.value;
        var at := if current.initial then st.at.(parent := Some(Parent(full))) else st.at;
        if logical in st.names then None
        else if item.isDir then
          if full == current.remote || full in at.queuedRemote || logical in at.queuedLogical then None
          else Some(PageState(st.dirs + [logical], st.files, st.names + {logical},
                              at.(queue := at.queue + [ScanDir(full, logical, false)],
                                  queuedRemote := at.queuedRemote[full := logical],
                                  queuedLogical := at.queuedLogical[logical := full])))
        else if item.fsId <= 0 || item.size < 0 then None
        else
          var file := ManifestFile(item.fsId, full, logical, current.logical, item.name, item.size, NormalizeMd5(item.md5));
          Some(PageState(st.dirs, st.files + [file], st.names + {logical}, at))
  }

  function TakeItems(current: ScanDir, st: PageState, items: seq<ShareItem>): Option<PageState> {
    if items == [] then Some(st)
    else
      var before := TakeItems(current, st, items[..|items| - 1]);
      if before.None? then None else TakeItem(current, before.value, items[|items| - 1])
  }

  // ----- one remote prefix ------------------------------------------------------------

  /** The two maps are inverse to each other, and below the root every remote path is the prefix followed by the logical one. */
  ghost predicate Aligned(start: Path, prefix: Option<Path>, at: Frontier) {
    && [] in at.queuedLogical && at.queuedLogical[[]] == start
    && (forall r :: r in at.queuedRemote ==> at.queuedRemote[r] in at.queuedLogical && at.queuedLogical[at.queuedRemote[r]] == r)
    && (forall l :: l in at.queuedLogical ==> at.queuedLogical[l] in at.queuedRemote && at.queuedRemote[at.queuedLogical[l]] == l)
    && (forall l :: l in at.queuedLogical && l != [] ==> prefix.Some? && at.queuedLogical[l] == prefix.value + l)
    && (at.parent.Some? ==> prefix == at.parent)
  }

  predicate Queued(at: Frontier, d: ScanDir) {
    d.logical in at.queuedLogical && at.queuedLogical[d.logical] == d.remote && (d.initial <==> d.logical == [])
  }

  ghost predicate AllQueued(at: Frontier) {
    forall d :: d in at.queue ==> Queued(at, d)
  }

  ghost predicate FilesAligned(prefix: Option<Path>, files: seq<ManifestFile>) {
    forall m :: m in files ==> prefix.Some? && m.remote == prefix.value + m.path
  }

  ghost predicate DirsAligned(at: Frontier, dirs: seq<Path>) {
    forall p :: p in dirs ==> p in at.queuedLogical && p != []
  }

  /** The prefix as known after an entry of this directory. */
  function PrefixAfter(current: ScanDir, prefix: Option<Path>, at: Frontier): Option<Path> {
    if current.initial then at.parent else prefix
  }

  /** All that is kept along the way, for any service whatsoever. */
  ghost predicate InStep(start: Path, prefix: Option<Path>, current: ScanDir, st: PageState) {
    && Aligned(start, prefix, st.at) && AllQueued(st.at) && Queued(st.at, current)
    && FilesAligned(prefix, st.files) && DirsAligned(st.at, st.dirs)
    && (current.initial ==> prefix == st.at.parent)
  }

  lemma ParentAndBase(p: Path)
    requires p != []
    ensures p == Parent(p) + [Base(p)]
  {
  }

  lemma Placed(start: Path, prefix: Option<Path>, current: ScanDir, st: PageState, item: ShareItem)
    requires InStep(start, prefix, current, st) && TakeItem(current, st, item).Some?
    ensures var st' := TakeItem(current, st, item).value;
            var prefix' := PrefixAfter(current, prefix, st'.at);
            var full := FullPath(current, st.at.parent, item);
            && full.Some? && prefix'.Some? && full.value == prefix'.value + (current.logical + [item.name])
            && (prefix.Some? ==> prefix' == prefix)
  {
    var full := FullPath(current, st.at.parent, item).value;
    if current.initial {
      ParentAndBase(full);
      assert current.logical + [item.name] == [item.name];
    } else {
      assert prefix.value + current.logical + [item.name] == prefix.value + (current.logical + [item.name]);
    }
  }

  lemma ItemKeeps(start: Path, prefix: Option<Path>, current: ScanDir, st: PageState, item: ShareItem)
    requires InStep(start, prefix, current, st) && TakeItem(current, st, item).Some?
    ensures var st' := TakeItem(current, st, item).value;
            InStep(start, PrefixAfter(current, prefix, st'.at), current, st') && (prefix.Some? ==> PrefixAfter(current, prefix, st'.at) == prefix)
  {
    Placed(start, prefix, current, st, item);
    var st' := TakeItem(current, st, item).value;
    var prefix' := PrefixAfter(current, prefix, st'.at);
    assert current.logical + [item.name] != [];
    assert Aligned(start, prefix', st'.at);
    assert AllQueued(st'.at) && Queued(st'.at, current);
  }

  lemma {:induction false} ItemsKeep(start: Path, prefix: Option<Path>, current: ScanDir, st: PageState, items: seq<ShareItem>)
    requires InStep(start, prefix, current, st) && TakeItems(current, st, items).Some?
    ensures var st' := TakeItems(current, st, items).value;
            InStep(start, PrefixAfter(current, prefix, st'.at), current, st') && (prefix.Some? ==> PrefixAfter(current, prefix, st'.at) == prefix)
  {
    if items != [] {
      hide InStep;
      var n := |items| - 1;
      ItemsKeep(start, prefix, current, st, items[..n]);
      var mid := TakeItems(current, st, items[..n]).value;
      ItemKeeps(start, PrefixAfter(current, prefix, mid.at), current, mid, items[n]);
    }
  }

  /** Only children, never another root, were queued. */
  ghost predicate OnlyChildrenAdded(before: Frontier, after: Frontier) {
    forall d :: d in after.queue ==> d in before.queue || !d.initial
  }

  /** The maps only grow, and only children are queued. */
  lemma {:induction false} ItemsGrow(current: ScanDir, st: PageState, items: seq<ShareItem>)
    requires TakeItems(current, st, items).Some?
    ensures st.at.queuedLogical.Keys <= TakeItems(current, st, items).value.at.queuedLogical.Keys
    ensures OnlyChildrenAdded(st.at, TakeItems(current, st, items).value.at)
  {
    if items != [] { ItemsGrow(current, st, items[..|items| - 1]); }
  }
}
