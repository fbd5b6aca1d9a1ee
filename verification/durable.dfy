/** Everything that survives a crash, and the atomic steps that change it. */
module Durable {
  import opened Wrappers
  import opened Model
  import opened Tables
  import opened Transactions
  import opened Runs

  /** An object in a Baidu staging directory; source is the share file it was made from. */
  datatype StagedObject = StagedObject(source: FileId, fsId: int, size: nat, md5: Digest, isDir: bool)

  /** The task's staging tree: its root directory and the batch directories below it. */
  datatype Baidu = Baidu(rootPresent: bool, dirs: map<BatchId, map<string, StagedObject>>)

  datatype DriveObject = DriveObject(path: Path, size: nat, md5: Digest, isDir: bool)

  /** The store, temp/cache, the Baidu staging tree and the Drive task root at one moment. */
  datatype Snap = Snap(db: Db, cache: map<CachePath, seq<Byte>>, baidu: Baidu, drive: map<DriveId, DriveObject>)

  /** A digest actually computed, as opposed to one not available. */
  type Md5 = d: Digest | d != "" witness "d41d8cd98f00b204e9800998ecf8427e"

  /** What no program step can change: the MD5 function, the contents behind each share file
      and the hash that names batches. */
  datatype Truth = Truth(md5: seq<Byte> -> Md5, source: FileId -> seq<Byte>, batchId: (string, Path, seq<FileId>) -> BatchId)

  /** One entry of a Baidu listing, as the service reports it. */
  datatype ListedObject = ListedObject(fsId: int, name: string, path: StagingPath, size: int, md5: Digest, isDir: bool)

  /** One regular file or directory of a Drive listing. */
  datatype DriveItem = DriveItem(id: DriveId, size: int, md5: Digest, isDir: bool)

  datatype Listing = NotFound | ListFailed | Found(items: seq<ListedObject>)

  /** An atomic step: a committed transaction, or one effect on the outside. */
  datatype Move =
    | Tx(op: Op)
    | RemoveLocal(path: CachePath)
    | InspectStaging(target: StagingPath, seen: Listing)
    | DeleteStaging(target: StagingPath)
    | MakeStaging(batch: BatchId)
    | Transfer(batch: BatchId, ids: seq<FileId>)
    | DiscardLocal(path: CachePath)
    | WriteLocal(path: CachePath)
    | RenameLocal(part: CachePath, bin: CachePath)
    | CopyTo(file: FileId)
    | RequestRange(file: FileId, offset: nat)
    | ListShare(dir: Path, page: nat)

  /** The states a sequence of steps went through, and the steps. */
  datatype Trace = Trace(states: seq<Snap>, moves: seq<Move>)

  /** What each kind of step may touch; how remotes fail within that is left open. */
  ghost predicate Step(s: Snap, m: Move, s': Snap) {
    match m
    case Tx(op) => Attempt(s.db, op).Some? && s' == s.(db := Attempt(s.db, op).value)
    case RemoveLocal(p) => s' == s.(cache := s.cache - {p})
    case InspectStaging(_, _) => s' == s
    case DeleteStaging(BatchDir(b)) => s' == s || s' == s.(baidu := s.baidu.(dirs := s.baidu.dirs - {b}))
    case DeleteStaging(TaskRoot) => s' == s || s' == s.(baidu := Baidu(false, map[]))
    case DeleteStaging(_) => s' == s
    case MakeStaging(b) => s' == s.(baidu := s'.baidu) && s'.baidu.dirs.Keys <= s.baidu.dirs.Keys + {b}
    case Transfer(b, _) => s' == s.(baidu := s'.baidu) && s'.baidu.dirs.Keys == s.baidu.dirs.Keys
    case DiscardLocal(p) => s' == s.(cache := s.cache - {p})
    case WriteLocal(p) => s' == s.(cache := s'.cache) && s'.cache - {p} == s.cache - {p}
    case RenameLocal(part, bin) => part in s.cache && s' == s.(cache := (s.cache - {part})[bin := s.cache[part]])
    case RequestRange(_, _) => s' == s
    case ListShare(_, _) => s' == s
    case CopyTo(f) => f in s.db.files && s' == s.(drive := s'.drive) && AtMostOneUpload(s.drive, s'.drive, s.db.files[f].path)
  }

  /** One copyto, or none, reached Drive: it adds a file object under a fresh ID and touches nothing else. */
  ghost predicate AtMostOneUpload(d: map<DriveId, DriveObject>, d': map<DriveId, DriveObject>, p: Path) {
    d' == d || exists id, size, md5 :: id !in d && id != "" && d' == d[id := DriveObject(p, size, md5, false)]
  }

  /** A run: the states a sequence of steps went through, from the creation of the task on.
      A crash keeps the last state; a restart goes on from it. */
  ghost predicate IsRun(states: seq<Snap>, moves: seq<Move>) {
    && |states| == |moves| + 1
    && states[0] == Snap(EmptyDb(states[0].db.task.id), map[], Baidu(false, map[]), map[])
    && forall i {:trigger moves[i]} :: 0 <= i < |moves| ==> Step(states[i], moves[i], states[i + 1])
  }

  ghost function Dbs(states: seq<Snap>): (dbs: seq<Db>)
    ensures |dbs| == |states| && forall i :: 0 <= i < |states| ==> dbs[i] == states[i].db
  {
    seq(|states|, i requires 0 <= i < |states| => states[i].db)
  }

  /** The tables of a run of the whole system form a run of the store. */
  lemma RunOfStore(states: seq<Snap>, moves: seq<Move>)
    requires IsRun(states, moves)
    ensures Run(Dbs(states))
  {
    var dbs := Dbs(states);
    forall i {:trigger dbs[i]} | 0 < i < |dbs| ensures Next(dbs[i - 1], dbs[i]) {
      assert Step(states[i - 1], moves[i - 1], states[i - 1 + 1]);
      match moves[i - 1]
      case Tx(op) => assert dbs[i] == Exec(dbs[i - 1], op);
      case _ =>
    }
  }

  /** A directory that has something below it is there. */
  predicate RootThere(baidu: Baidu) {
    baidu.rootPresent || baidu.dirs != map[]
  }

  /** What a truthful listing of a staging path reports. */
  ghost predicate Truthful(baidu: Baidu, target: StagingPath, seen: Listing) {
    match target
    case BatchDir(b) =>
      (match seen
       case NotFound => b !in baidu.dirs
       case ListFailed => true
       case Found(items) =>
         && b in baidu.dirs
         && (forall i :: 0 <= i < |items| ==> Reports(baidu.dirs[b], b, items[i]))
         && (forall n :: n in baidu.dirs[b] ==> exists i :: 0 <= i < |items| && items[i].name == n))
    case TaskRoot =>
      (match seen
       case NotFound => !RootThere(baidu)
       case ListFailed => true
       case Found(items) => RootThere(baidu) && (items == [] <==> baidu.dirs == map[]))
    case _ => true
  }

  predicate Reports(dir: map<string, StagedObject>, b: BatchId, item: ListedObject) {
    && item.name in dir && item.path == StagedFile(b, item.name)
    && item.fsId == dir[item.name].fsId && item.size == dir[item.name].size
    && item.md5 == dir[item.name].md5 && item.isDir == dir[item.name].isDir
  }

  // ----- what an honest outside does -----------------------------------------

  /** A transfer adds copies of requested files under their own names, and nothing else. */
  predicate AddsRequested(db: Db, dir: map<string, StagedObject>, dir': map<string, StagedObject>, ids: seq<FileId>) {
    && (forall n :: n in dir ==> n in dir' && dir'[n] == dir[n])
    && (forall n :: n in dir' && n !in dir ==>
          dir'[n].source in ids && dir'[n].source in db.files && Base(db.files[dir'[n].source].path) == n)
  }

  ghost predicate HonestTransfer(s: Snap, s': Snap, b: BatchId, ids: seq<FileId>) {
    && (forall c :: c in s.baidu.dirs ==> c in s'.baidu.dirs && (c != b ==> s'.baidu.dirs[c] == s.baidu.dirs[c]))
    && (b in s.baidu.dirs ==> AddsRequested(s.db, s.baidu.dirs[b], s'.baidu.dirs[b], ids))
  }

  /** Making a directory leaves everything already there alone. */
  ghost predicate HonestMake(s: Snap, s': Snap, b: BatchId) {
    && (forall c :: c in s.baidu.dirs ==> c in s'.baidu.dirs && s'.baidu.dirs[c] == s.baidu.dirs[c])
    && (b in s'.baidu.dirs && b !in s.baidu.dirs ==> s'.baidu.dirs[b] == map[])
  }

  /** A complete and true listing of the Drive objects at one logical path. */
  ghost predicate ListsAll(drive: map<DriveId, DriveObject>, p: Path, items: seq<DriveItem>) {
    && (forall i, j :: 0 <= i < j < |items| ==> items[i].id != items[j].id)
    && (forall i :: 0 <= i < |items| ==> IsObject(drive, p, items[i]))
    && (forall id :: id in drive && drive[id].path == p ==> exists i :: 0 <= i < |items| && items[i].id == id)
  }

  predicate IsObject(drive: map<DriveId, DriveObject>, p: Path, item: DriveItem) {
    && item.id in drive && drive[item.id].path == p
    && item.size == drive[item.id].size && item.md5 == drive[item.id].md5 && item.isDir == drive[item.id].isDir
  }

  function PartOf(cache: map<CachePath, seq<Byte>>, p: CachePath): seq<Byte> {
    if p in cache then cache[p] else []
  }
}
