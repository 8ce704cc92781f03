/**
 The types of one transfer: its states and errors, the chunks on the wire and
 the time stamps they carry.
 */
module Transfers {
  import opened Common
  import opened SourceTree

  datatype IoErrorKind =
    | NotFound | IoPermissionDenied | ReadOnlyFilesystem | IoStorageFull
    | IoFileTooLarge | IoInvalidFilename | IoOutOfMemory | IsADirectory | OtherKind(code: nat)

  datatype TransferError =
    | ConnectionLost
    | StorageFull
    | FailedToProcessFiles
    | FailedToStartTransfer
    | UnsafePath
    | FilesNotFound
    | PermissionError
    | FileTooLarge
    | InvalidFilename
    | OutOfMemory
    | IoError(kind: IoErrorKind)
    | RemoteError
    | VfsError(cause: VirtualFilesystemError)

  /** The error a failed call on a file is reported as. */
  function FromIo(kind: IoErrorKind): (e: TransferError)
    ensures e == FilesNotFound <==> kind == NotFound
    ensures e == PermissionError <==> kind == IoPermissionDenied || kind == ReadOnlyFilesystem
    ensures e == StorageFull <==> kind == IoStorageFull
    ensures e == FileTooLarge <==> kind == IoFileTooLarge
    ensures e == InvalidFilename <==> kind == IoInvalidFilename
    ensures e == OutOfMemory <==> kind == IoOutOfMemory
    ensures e.IoError? <==> kind == IsADirectory || kind.OtherKind?
    ensures e.IoError? ==> e.kind == kind
  {
    match kind
    case NotFound => FilesNotFound
    case IoPermissionDenied => PermissionError
    case ReadOnlyFilesystem => PermissionError
    case IoStorageFull => StorageFull
    case IoFileTooLarge => FileTooLarge
    case IoInvalidFilename => InvalidFilename
    case IoOutOfMemory => OutOfMemory
    case IsADirectory => IoError(kind)
    case OtherKind(_) => IoError(kind)
  }

  /** A call that failed: a send on the channel, a call on an open file, or a call of the virtual filesystem. */
  datatype Fault = SendFault | FileFault(kind: IoErrorKind) | VfsFault(cause: VirtualFilesystemError)

  function ErrorOf(f: Fault): TransferError {
    match f
    case SendFault => ConnectionLost
    case FileFault(kind) => FromIo(kind)
    case VfsFault(cause) => VfsError(cause)
  }

  /** `r` reports exactly the faults that came since `before`: at most one, which ended the work. */
  ghost predicate Reports<T>(r: Result<T, TransferError>, before: seq<Fault>, after: seq<Fault>) {
    if r.Ok? then after == before
    else exists f :: after == before + [f] && r.error == ErrorOf(f)
  }

  datatype TransferState =
    | Initializing | WaitingPermission | InProgress | Paused | Completed
    | Stopped | Canceled | Denied | Failed(error: TransferError)

  /** Whether two states are the same variant, whatever a failure carries. */
  predicate SameDiscriminant(a: TransferState, b: TransferState) {
    match a
    case Failed(_) => b.Failed?
    case _ => a == b
  }

  /** What a peer's stop makes of a record. */
  function StateAfterStop(outgoing: bool, error: bool): TransferState {
    if error then Failed(RemoteError) else if outgoing then Stopped else Canceled
  }

  /** The end of receiving does not overwrite a stop or a cancellation. */
  function EndOfReceiving(state: TransferState, result: TransferState): TransferState {
    if state.Stopped? || state.Canceled? then state else result
  }

  datatype FileType = FileKind | DirectoryKind | SymlinkKind

  function ToInt(t: FileType): int {
    match t
    case FileKind => 1
    case DirectoryKind => 2
    case SymlinkKind => 3
  }

  function FromInt(value: int): (t: Option<FileType>)
    ensures t.None? <==> value != 1 && value != 2 && value != 3
    ensures t.Some? ==> ToInt(t.value) == value
  {
    match value
    case 1 => Some(FileKind)
    case 2 => Some(DirectoryKind)
    case 3 => Some(SymlinkKind)
    case _ => None
  }

  lemma WireNumbers(t: FileType)
    ensures ToInt(FileKind) == 1 && ToInt(DirectoryKind) == 2 && ToInt(SymlinkKind) == 3
    ensures FromInt(ToInt(t)) == Some(t)
  {
  }

  datatype FileTime = FileTime(mtime: nat, mtimeUsec: nat)

  datatype FileChunk = FileChunk(
    relativePath: string, fileType: int, symlinkTarget: string,
    data: seq<byte>, fileMode: nat, time: Option<FileTime>)

  const CHUNK_SIZE: nat := 65536
  const NANOS_PER_SEC: nat := 1_000_000_000
  const NANOS_PER_MILLI: nat := 1_000_000

  /** The sender's stamp for a modification time in nanoseconds; times before the epoch count as zero. */
  function Stamp(modified: int): FileTime {
    var d := if modified < 0 then 0 else modified;
    FileTime(d / NANOS_PER_SEC, d % NANOS_PER_SEC / NANOS_PER_MILLI * 1000)
  }

  /** The modification time the receiver sets from a stamp. */
  function SetTime(t: FileTime): nat {
    t.mtime * NANOS_PER_SEC + t.mtimeUsec * 1000
  }

  /** A modification time as it arrives: known times lose what is below a millisecond. */
  function Arrived(modified: Option<int>): Option<nat> {
    match modified
    case None => None
    case Some(m) => Some(if m < 0 then 0 else m / NANOS_PER_MILLI * NANOS_PER_MILLI)
  }

  function StampOf(modified: Option<int>): Option<FileTime> {
    match modified
    case None => None
    case Some(m) => Some(Stamp(m))
  }

  /** A stamp is whole seconds, and the milliseconds of the rest in microseconds. */
  lemma StampIs(modified: int, seconds: nat, nanos: nat)
    requires nanos < 1_000_000_000 && modified == seconds * 1_000_000_000 + nanos
    ensures Stamp(modified).mtime == seconds
    ensures Stamp(modified).mtimeUsec <= nanos / 1000 < Stamp(modified).mtimeUsec + 1000
    ensures Stamp(modified).mtimeUsec % 1000 == 0 && Stamp(modified).mtimeUsec < 1_000_000
  {
    assert modified / 1_000_000_000 == seconds && modified % 1_000_000_000 == nanos;
  }

  /** Every stamp the sender makes keeps the receiver's u32 product below a second and survives as whole
      milliseconds. */
  lemma StampRoundTrip(modified: int)
    ensures Stamp(modified).mtimeUsec * 1000 < NANOS_PER_SEC < 0x1_0000_0000
    ensures Some(SetTime(Stamp(modified))) == Arrived(Some(modified))
    ensures SetTime(Stamp(modified)) == if modified < 0 then 0 else modified / 1_000_000 * 1_000_000
  {
    var d := if modified < 0 then 0 else modified;
    var s, r := d / NANOS_PER_SEC, d % NANOS_PER_SEC;
    var ms := r / NANOS_PER_MILLI;
    assert d == s * NANOS_PER_SEC + r;
    assert ms < 1000;
    assert r == ms * NANOS_PER_MILLI + r % NANOS_PER_MILLI;
    assert d == (s * 1000 + ms) * NANOS_PER_MILLI + r % NANOS_PER_MILLI;
    assert d / NANOS_PER_MILLI == s * 1000 + ms;
  }
}
