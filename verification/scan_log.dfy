/** What a scan leaves on record: the listing pages it asked for and the manifest pages it stored, and how
    these follow from what the service answered. */
module ScanLogs {
  import opened Wrappers
  import opened Model
  import opened Tables
  import opened Transactions
  import opened Durable
  import opened Scanner

  datatype Request = Request(dir: Path, page: nat)

  /** All requests, and everything stored, one after the other. */
  datatype Log = Log(requests: seq<Request>, dirs: seq<Path>, files: seq<ManifestFile>)

  /** The log of a history from one moment on. */
  function LogOf(moves: seq<Move>, since: nat): Log {
    if |moves| <= since then Log([], [], [])
    else
      var before := LogOf(moves[..|moves| - 1], since);
      match moves[|moves| - 1]
      case ListShare(dir, page) => before.(requests := before.requests + [Request(dir, page)])
      case Tx(UpsertPage(dirs, files)) => before.(dirs := before.dirs + dirs, files := before.files + files)
      case _ => before
  }

  lemma LogNext(moves: seq<Move>, since: nat, m: Move)
    requires since <= |moves|
    ensures LogOf(moves + [m], since) ==
              match m
              case ListShare(dir, page) => LogOf(moves, since).(requests := LogOf(moves, since).requests + [Request(dir, page)])
              case Tx(UpsertPage(dirs, files)) => LogOf(moves, since).(dirs := LogOf(moves, since).dirs + dirs, files := LogOf(moves, since).files + files)
              case _ => LogOf(moves, since)
  {
    assert (moves + [m])[..|moves|] == moves;
  }

  /** Every page committed since is in it. */
  lemma {:induction false} PageLogged(moves: seq<Move>, since: nat, i: nat)
    requires since <= i < |moves| && moves[i].Tx? && moves[i].op.UpsertPage?
    ensures (forall p :: p in moves[i].op.dirs ==> p in LogOf(moves, since).dirs) && forall f :: f in moves[i].op.files ==> f in LogOf(moves, since).files
    decreases |moves|
  {
    if i < |moves| - 1 { PageLogged(moves[..|moves| - 1], since, i); }
  }

  /** Where the scan stands: the prefix behind all remote paths, its queue and maps, and its log. */
  datatype Gathered = Gathered(prefix: Option<Path>, at: Frontier, log: Log)

  // ----- what the answers say ---------------------------------------------------------------

  function DirsListed(logical: Path, items: seq<ShareItem>): seq<Path> {
    if items == [] then []
    else
      var item := items[|items| - 1];
      DirsListed(logical, items[..|items| - 1]) + if item.isDir then [logical + [item.name]] else []
  }

  function FilesListed(prefix: Path, logical: Path, items: seq<ShareItem>): seq<ManifestFile> {
    if items == [] then []
    else
      var item := items[|items| - 1];
      FilesListed(prefix, logical, items[..|items| - 1])
      + if item.isDir then []
        else [ManifestFile(item.fsId, prefix + (logical + [item.name]), logical + [item.name], logical, item.name, item.size, NormalizeMd5(item.md5))]
  }

  /** The answer to the n-th request; nothing, if it failed. */
  function AnswerTo(service: Service, n: nat, r: Request): seq<ShareItem> {
    var answer := service(n, r.dir, r.page);
    if answer.Some? then answer.value else []
  }

  function Place(places: map<Path, Path>, dir: Path): Path {
    if dir in places then places[dir] else []
  }

  /** The directories all answers list, each below the place of the directory it was listed in. */
  function DirsTold(service: Service, places: map<Path, Path>, requests: seq<Request>): seq<Path> {
    if requests == [] then []
    else
      var n := |requests| - 1;
      DirsTold(service, places, requests[..n]) + DirsListed(Place(places, requests[n].dir), AnswerTo(service, n, requests[n]))
  }

  function FilesTold(service: Service, prefix: Path, places: map<Path, Path>, requests: seq<Request>): seq<ManifestFile> {
    if requests == [] then []
    else
      var n := |requests| - 1;
      FilesTold(service, prefix, places, requests[..n]) + FilesListed(prefix, Place(places, requests[n].dir), AnswerTo(service, n, requests[n]))
  }

  function PrefixOf(g: Gathered): Path {
    if g.prefix.Some? then g.prefix.value else []
  }

  ghost predicate AllAnswered(service: Service, places: map<Path, Path>, requests: seq<Request>) {
    forall j :: 0 <= j < |requests| ==> service(j, requests[j].dir, requests[j].page).Some? && requests[j].dir in places
  }

  ghost predicate NoEntries(service: Service, requests: seq<Request>) {
    forall j :: 0 <= j < |requests| ==> AnswerTo(service, j, requests[j]) == []
  }

  /** No directory but the root is known that was not listed and stored. */
  ghost predicate OnlyListed(g: Gathered) {
    forall l :: l in g.at.queuedLogical && l != [] ==> l in g.log.dirs
  }

  /** Every request was answered, and what was stored and queued is what the answers list, entry by entry. */
  ghost predicate Told(service: Service, g: Gathered) {
    && OnlyListed(g)
    && AllAnswered(service, g.at.queuedRemote, g.log.requests) && (g.prefix.None? ==> NoEntries(service, g.log.requests))
    && g.log.dirs == DirsTold(service, g.at.queuedRemote, g.log.requests)
    && g.log.files == FilesTold(service, PrefixOf(g), g.at.queuedRemote, g.log.requests)
  }

  // ----- how the pages follow each other -------------------------------------------------------

  /** A first page comes after a short one; another page directly after the full one before it. */
  ghost predicate Follows(service: Service, requests: seq<Request>, j: nat)
    requires j < |requests|
  {
    if requests[j].page == 1 then j == 0 || |AnswerTo(service, j - 1, requests[j - 1])| < PAGE_SIZE
    else j > 0 && requests[j].page == requests[j - 1].page + 1 && requests[j].dir == requests[j - 1].dir && |AnswerTo(service, j - 1, requests[j - 1])| >= PAGE_SIZE
  }

  ghost predicate Paged(service: Service, requests: seq<Request>) {
    forall j :: 0 <= j < |requests| ==> Follows(service, requests, j)
  }

  /** The last page was a short one: its directory was read to the end. */
  ghost predicate ReadToEnd(service: Service, requests: seq<Request>) {
    requests == [] || |AnswerTo(service, |requests| - 1, requests[|requests| - 1])| < PAGE_SIZE
  }

  /** The directories asked for, in order: those of the first pages. */
  function FirstDirs(requests: seq<Request>): seq<Path> {
    if requests == [] then []
    else FirstDirs(requests[..|requests| - 1]) + if requests[|requests| - 1].page == 1 then [requests[|requests| - 1].dir] else []
  }

  ghost predicate Traced(service: Service, g: Gathered) {
    Told(service, g) && Paged(service, g.log.requests)
  }

  /** Every directory ever queued was read to the end, page by page, exactly once. */
  ghost predicate Walked(service: Service, g: Gathered) {
    && Traced(service, g) && ReadToEnd(service, g.log.requests)
    && Distinct(FirstDirs(g.log.requests)) && forall r :: r in FirstDirs(g.log.requests) <==> r in g.at.queuedRemote
  }

  /** The logical places of the directories asked for. */
  function Visits(g: Gathered): seq<Path> {
    seq(|FirstDirs(g.log.requests)|, i requires 0 <= i < |FirstDirs(g.log.requests)| => Place(g.at.queuedRemote, FirstDirs(g.log.requests)[i]))
  }

  lemma {:induction false} FirstDirAt(service: Service, requests: seq<Request>, j: nat) returns (i: nat)
    requires Paged(service, requests) && j < |requests|
    ensures i <= j && requests[i] == Request(requests[j].dir, 1) && requests[j].page == j - i + 1
  {
    assert Follows(service, requests, j);
    if requests[j].page == 1 {
      i := j;
    } else {
      i := FirstDirAt(service, requests, j - 1);
    }
  }

  lemma {:induction false} FirstDirsDiffer(requests: seq<Request>, i: nat, j: nat)
    requires Distinct(FirstDirs(requests)) && i < j < |requests| && requests[i].page == 1 && requests[j].page == 1
    ensures requests[i].dir != requests[j].dir
    decreases |requests|
  {
    var n := |requests| - 1;
    var first := FirstDirs(requests[..n]);
    assert first == FirstDirs(requests)[..|first|];
    forall a, b | 0 <= a < b < |first| ensures first[a] != first[b] { assert FirstDirs(requests)[a] == first[a] && FirstDirs(requests)[b] == first[b]; }
    if j < n {
      FirstDirsDiffer(requests[..n], i, j);
    } else {
      FirstDirIn(requests[..n], i);
      var a :| 0 <= a < |first| && first[a] == requests[i].dir;
      assert FirstDirs(requests)[a] != FirstDirs(requests)[|first|];
    }
  }

  lemma {:induction false} FirstDirIn(requests: seq<Request>, i: nat)
    requires i < |requests| && requests[i].page == 1
    ensures requests[i].dir in FirstDirs(requests)
  {
    if i < |requests| - 1 { FirstDirIn(requests[..|requests| - 1], i); }
  }

  /** No page of any directory is asked for twice. */
  lemma AskedOnce(service: Service, g: Gathered)
    requires Walked(service, g)
    ensures Distinct(g.log.requests)
  {
    var requests := g.log.requests;
    forall i, j | 0 <= i < j < |requests| ensures requests[i] != requests[j] {
      var a := FirstDirAt(service, requests, i);
      var b := FirstDirAt(service, requests, j);
      if requests[i] == requests[j] { FirstDirsDiffer(requests, a, b); }
    }
  }

  // ----- one more page ----------------------------------------------------------------------------

  /** With the page taken in. */
  function Asked(log: Log, r: Request): Log {
    log.(requests := log.requests + [r])
  }

  function WithPage(g: Gathered, current: ScanDir, page: nat, st: PageState): Gathered {
    var log := Asked(g.log, Request(current.remote, page));
    Gathered(PrefixAfter(current, g.prefix, st.at), st.at, log.(dirs := log.dirs + st.dirs, files := log.files + st.files))
  }

  /** A page that passes every check is stored as it was listed. */
  lemma {:induction false} ItemsTell(start: Path, prefix: Option<Path>, current: ScanDir, st: PageState, items: seq<ShareItem>)
    requires InStep(start, prefix, current, st) && TakeItems(current, st, items).Some?
    ensures var st' := TakeItems(current, st, items).value;
            var prefix' := PrefixAfter(current, prefix, st'.at);
            && (items != [] ==> prefix'.Some?) && (prefix.Some? ==> prefix' == prefix)
            && st'.dirs == st.dirs + DirsListed(current.logical, items)
            && st'.files == st.files + FilesListed(if prefix'.Some? then prefix'.value else [], current.logical, items)
  {
    hide InStep, FullPath;
    if items == [] {
      InStepPrefix(start, prefix, current, st);
    } else {
      var n := |items| - 1;
      ItemsTell(start, prefix, current, st, items[..n]);
      ItemsKeep(start, prefix, current, st, items[..n]);
      var mid := TakeItems(current, st, items[..n]).value;
      Placed(start, PrefixAfter(current, prefix, mid.at), current, mid, items[n]);
      PrefixTwice(current, prefix, mid.at, TakeItem(current, mid, items[n]).value.at);
    }
  }

  lemma InStepPrefix(start: Path, prefix: Option<Path>, current: ScanDir, st: PageState)
    requires InStep(start, prefix, current, st)
    ensures PrefixAfter(current, prefix, st.at) == prefix
  {
  }

  lemma PrefixTwice(current: ScanDir, prefix: Option<Path>, mid: Frontier, at: Frontier)
    ensures PrefixAfter(current, PrefixAfter(current, prefix, mid), at) == PrefixAfter(current, prefix, at)
  {
  }

  /** What was queued keeps its place. */
  lemma {:induction false} PlacesStay(current: ScanDir, st: PageState, items: seq<ShareItem>)
    requires TakeItems(current, st, items).Some?
    ensures var at' := TakeItems(current, st, items).value.at;
            forall r :: r in st.at.queuedRemote ==> r in at'.queuedRemote && at'.queuedRemote[r] == st.at.queuedRemote[r]
  {
    if items != [] { PlacesStay(current, st, items[..|items| - 1]); }
  }

  /** What is queued by a page is reported by it. */
  lemma {:induction false} OnlyReported(current: ScanDir, st: PageState, items: seq<ShareItem>)
    requires TakeItems(current, st, items).Some?
    ensures var st' := TakeItems(current, st, items).value;
            && (forall l :: l in st.dirs ==> l in st'.dirs)
            && forall l :: l in st'.at.queuedLogical ==> l in st.at.queuedLogical || l in st'.dirs
  {
    if items != [] { OnlyReported(current, st, items[..|items| - 1]); }
  }

  lemma {:induction false} ToldStill(service: Service, prefix: Path, prefix': Path, places: map<Path, Path>, places': map<Path, Path>, requests: seq<Request>)
    requires forall j :: 0 <= j < |requests| ==> requests[j].dir in places && requests[j].dir in places' && places'[requests[j].dir] == places[requests[j].dir]
    requires prefix' == prefix || NoEntries(service, requests)
    ensures DirsTold(service, places', requests) == DirsTold(service, places, requests)
    ensures FilesTold(service, prefix', places', requests) == FilesTold(service, prefix, places, requests)
  {
    if requests != [] { ToldStill(service, prefix, prefix', places, places', requests[..|requests| - 1]); }
  }

  lemma OneMoreAnswer(service: Service, places: map<Path, Path>, places': map<Path, Path>, requests: seq<Request>, r: Request)
    requires AllAnswered(service, places, requests) && forall d :: d in places ==> d in places'
    requires service(|requests|, r.dir, r.page).Some? && r.dir in places'
    ensures AllAnswered(service, places', requests + [r])
    ensures NoEntries(service, requests) && service(|requests|, r.dir, r.page).value == [] ==> NoEntries(service, requests + [r])
  {
    forall j | 0 <= j < |requests + [r]| ensures service(j, (requests + [r])[j].dir, (requests + [r])[j].page).Some? && (requests + [r])[j].dir in places' {
      if j < |requests| { assert requests[j].dir in places; }
    }
  }

  lemma PageTold(service: Service, start: Path, g: Gathered, current: ScanDir, page: nat, items: seq<ShareItem>)
    requires Told(service, g) && InStep(start, g.prefix, current, PageState([], [], {}, g.at)) && current.remote in g.at.queuedRemote && g.at.queuedRemote[current.remote] == current.logical
    requires service(|g.log.requests|, current.remote, page) == Some(items) && TakeItems(current, PageState([], [], {}, g.at), items).Some?
    ensures Told(service, WithPage(g, current, page, TakeItems(current, PageState([], [], {}, g.at), items).value))
  {
    hide InStep, TakeItems, FirstDirs, AllAnswered, NoEntries, DirsTold, FilesTold, DirsListed, FilesListed;
    var st0 := PageState([], [], {}, g.at);
    var st := TakeItems(current, st0, items).value;
    var g' := WithPage(g, current, page, st);
    var requests, r := g.log.requests, Request(current.remote, page);
    ItemsTell(start, g.prefix, current, st0, items);
    OnlyReported(current, st0, items);
    PlacesStay(current, st0, items);
    assert forall j :: 0 <= j < |requests| ==> requests[j].dir in g.at.queuedRemote by { Placeable(service, g.at.queuedRemote, requests); }
    ToldStill(service, PrefixOf(g), PrefixOf(g'), g.at.queuedRemote, g'.at.queuedRemote, requests);
    OneMoreAnswer(service, g.at.queuedRemote, g'.at.queuedRemote, requests, r);
    OneMoreTold(service, PrefixOf(g'), g'.at.queuedRemote, requests, r);
  }

  lemma OneMoreTold(service: Service, prefix: Path, places: map<Path, Path>, requests: seq<Request>, r: Request)
    ensures DirsTold(service, places, requests + [r]) == DirsTold(service, places, requests) + DirsListed(Place(places, r.dir), AnswerTo(service, |requests|, r))
    ensures FilesTold(service, prefix, places, requests + [r]) == FilesTold(service, prefix, places, requests) + FilesListed(prefix, Place(places, r.dir), AnswerTo(service, |requests|, r))
  {
    assert (requests + [r])[..|requests|] == requests;
  }

  lemma Placeable(service: Service, places: map<Path, Path>, requests: seq<Request>)
    requires AllAnswered(service, places, requests)
    ensures forall j :: 0 <= j < |requests| ==> requests[j].dir in places
  {
  }

  /** The request that may be made next: a first page after a short one, or the page after a full one. */
  ghost predicate Due(service: Service, requests: seq<Request>, r: Request) {
    if r.page == 1 then ReadToEnd(service, requests)
    else requests != [] && requests[|requests| - 1].dir == r.dir && requests[|requests| - 1].page + 1 == r.page && |AnswerTo(service, |requests| - 1, requests[|requests| - 1])| >= PAGE_SIZE
  }

  lemma PagedOn(service: Service, requests: seq<Request>, r: Request)
    requires Paged(service, requests) && Due(service, requests, r)
    ensures Paged(service, requests + [r]) && FirstDirs(requests + [r]) == FirstDirs(requests) + if r.page == 1 then [r.dir] else []
  {
    assert (requests + [r])[..|requests|] == requests;
    forall j | 0 <= j < |requests + [r]| ensures Follows(service, requests + [r], j) {
      if j < |requests| { assert Follows(service, requests, j); }
    }
  }

  // ----- how the queue grows ------------------------------------------------------------------------

  /** Only children were queued, behind what was queued before, and every directory newly known is in the queue. */
  ghost predicate Grown(before: Frontier, after: Frontier) {
    && before.queue <= after.queue && OnlyChildrenAdded(before, after) && before.queuedRemote.Keys <= after.queuedRemote.Keys
    && forall r :: r in after.queuedRemote && r !in before.queuedRemote ==> exists i :: 0 <= i < |after.queue| && after.queue[i].remote == r
  }

  lemma {:induction false} ItemsQueue(current: ScanDir, st: PageState, items: seq<ShareItem>)
    requires TakeItems(current, st, items).Some?
    ensures Grown(st.at, TakeItems(current, st, items).value.at)
  {
    if items != [] {
      hide Grown;
      var n := |items| - 1;
      ItemsQueue(current, st, items[..n]);
      var mid := TakeItems(current, st, items[..n]).value;
      ItemQueue(current, mid, items[n]);
      GrownThen(st.at, mid.at, TakeItem(current, mid, items[n]).value.at);
    }
  }

  lemma ItemQueue(current: ScanDir, st: PageState, item: ShareItem)
    requires TakeItem(current, st, item).Some?
    ensures Grown(st.at, TakeItem(current, st, item).value.at)
  {
    var at, at' := st.at, TakeItem(current, st, item).value.at;
    if item.isDir { assert at'.queue[|at.queue|].remote in at'.queuedRemote; }
  }

  lemma GrownThen(a: Frontier, b: Frontier, c: Frontier)
    requires Grown(a, b) && Grown(b, c)
    ensures Grown(a, c)
  {
    forall r | r in c.queuedRemote && r !in a.queuedRemote ensures exists i :: 0 <= i < |c.queue| && c.queue[i].remote == r {
      if r in b.queuedRemote {
        var i :| 0 <= i < |b.queue| && b.queue[i].remote == r;
        assert c.queue[i].remote == r;
      }
    }
  }
}
