/** Status enumerations and the declared transition table (internal/state/model.go). */
module Model {

  /** The decimal fs_id text of a file; only its number matters here. */
  type FileId = int

  /** The 80-bit hexadecimal prefix naming a staging batch, as a number, so that
      ORDER BY batch_id is numeric order. */
  type BatchId = nat

  /** A Drive object identifier; the empty string means "none persisted". */
  type DriveId = string

  /** A canonical hexadecimal digest; the empty string means "not available". */
  type Digest = string

  /** A share-relative path as its chain of names; [] is the root "/". */
  type Path = seq<string>

  newtype Byte = b: int | 0 <= b < 256

  datatype TaskStatus =
    | TaskNew | TaskAuthRequired | TaskScanning | TaskRunning
    | TaskPaused | TaskBlocked | TaskCompleted | TaskFailed

  datatype FileStatus =
    | Discovered | Planned | BaiduStaging | BaiduStaged | Downloading | LocalReady
    | DriveUploading | DriveUploaded | DriveVerified | CleanupPending | Done
    | FailedRetryable | FailedPermanent

  datatype BatchStatus =
    | BatchPending | BatchStaging | BatchStaged | BatchFailedRetryable | BatchFailedPermanent

  /** The table allowedFileTransitions, with the self loops ValidateFileTransition adds. */
  predicate TransitionAllowed(from: FileStatus, to: FileStatus) {
    from == to ||
    match from
    case Discovered => to in {Planned, FailedPermanent}
    case Planned => to in {BaiduStaging, FailedRetryable, FailedPermanent}
    case BaiduStaging => to in {BaiduStaged, FailedRetryable, FailedPermanent}
    case BaiduStaged => to in {Downloading, FailedRetryable, FailedPermanent}
    case Downloading => to in {LocalReady, FailedRetryable, FailedPermanent}
    case LocalReady => to in {DriveUploading, DriveUploaded, FailedRetryable, FailedPermanent}
    case DriveUploading => to in {DriveUploaded, FailedRetryable, FailedPermanent}
    case DriveUploaded => to in {DriveVerified, FailedRetryable, FailedPermanent}
    case DriveVerified => to in {CleanupPending, Done}
    case CleanupPending => to in {Done, FailedRetryable}
    case FailedRetryable =>
      to in {Planned, BaiduStaging, BaiduStaged, Downloading, LocalReady, DriveUploading,
             DriveUploaded, DriveVerified, CleanupPending, FailedPermanent}
    case Done => false
    case FailedPermanent => false
  }

  /** Position in the pipeline; the two failure states carry no progress. */
  function Rank(s: FileStatus): nat {
    match s
    case Discovered => 0
    case Planned => 1
    case BaiduStaging => 2
    case BaiduStaged => 3
    case Downloading => 4
    case LocalReady => 5
    case DriveUploading => 6
    case DriveUploaded => 7
    case DriveVerified => 8
    case CleanupPending => 9
    case Done => 10
    case FailedRetryable => 0
    case FailedPermanent => 0
  }

  /** Keeps or raises the rank, or sinks into FAILED_PERMANENT, and never leaves the sink. */
  predicate Advances(from: FileStatus, to: FileStatus) {
    if from.FailedPermanent? then to.FailedPermanent?
    else to.FailedPermanent? || (!to.FailedRetryable? && Rank(from) <= Rank(to))
  }

  /** stagingConfirmationAlreadyConsumed: BAIDU_STAGED or any later success state. */
  predicate StagedOrLater(s: FileStatus) {
    || s.BaiduStaged? || s.Downloading? || s.LocalReady? || s.DriveUploading? || s.DriveUploaded?
    || s.DriveVerified? || s.CleanupPending? || s.Done?
  }

  /** The statuses whose full size ReservedCacheBytes counts. */
  predicate HoldsCache(s: FileStatus) {
    || s.Downloading? || s.LocalReady? || s.DriveUploading? || s.DriveUploaded?
    || s.DriveVerified? || s.CleanupPending?
  }

  /** Not yet confirmed in staging, and not failed for good. */
  predicate AwaitsStaging(s: FileStatus) {
    s.Planned? || s.BaiduStaging? || s.FailedRetryable?
  }

  /** Not failed for good, and its download not yet begun. */
  predicate BeforeDownload(s: FileStatus) {
    !s.FailedPermanent? && Rank(s) < Rank(Downloading)
  }

  predicate AwaitsDownload(s: FileStatus) {
    s.BaiduStaged? || s.Downloading?
  }

  predicate AwaitsDrive(s: FileStatus) {
    s.LocalReady? || s.DriveUploading? || s.DriveUploaded?
  }

  predicate AwaitsCleanup(s: FileStatus) {
    s.DriveVerified? || s.CleanupPending?
  }

  predicate Verified(s: FileStatus) {
    s.DriveVerified? || s.CleanupPending? || s.Done?
  }
}
