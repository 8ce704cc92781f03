/**
 The receiving task of the virtual-filesystem variant, step by step on mutable
 state, proved to follow `ReceiveSpec`.
 */
module Receiver {
  import opened Common
  import opened Paths
  import opened SourceTree
  import opened Transfers
  import opened MovingAverage
  import opened ReceiveSpec
  import opened Sender

  /** The destination side of the application's filesystem. Created files start empty; calls may fail, and do where
      a path of the other kind is in the way. `faults` are the calls so far that failed without such a reason. */
  class Destination {
    var files: map<string, FileData>
    var dirs: set<string>
    ghost var faults: seq<Fault>

    constructor ()
      ensures Contents() == EMPTY_DEST && faults == []
    {
      files := map[];
      dirs := {};
      faults := [];
    }

    function Contents(): Dest
      reads this
    {
      Dest(files, dirs)
    }

    method CreateDir(rel: string) returns (fault: Option<VirtualFilesystemError>)
      modifies this
      ensures files == old(files)
      ensures dirs == if fault.None? then old(dirs) + {rel} else old(dirs)
      ensures if rel in old(files) then fault.Some? && faults == old(faults)
              else faults == if fault.None? then old(faults) else old(faults) + [VfsFault(fault.value)]
    {
      var fails: bool, cause: VirtualFilesystemError := *, *;
      if rel in files {
        return Some(cause);
      }
      if fails {
        faults := faults + [VfsFault(cause)];
        return Some(cause);
      }
      dirs := dirs + {rel};
      return None;
    }

    method CreateFile(rel: string) returns (fault: Option<VirtualFilesystemError>)
      modifies this
      ensures dirs == old(dirs)
      ensures files == if fault.None? then old(files)[rel := FileData([], None)] else old(files)
      ensures if rel in old(dirs) then fault.Some? && faults == old(faults)
              else faults == if fault.None? then old(faults) else old(faults) + [VfsFault(fault.value)]
    {
      var fails: bool, cause: VirtualFilesystemError := *, *;
      if rel in dirs {
        return Some(cause);
      }
      if fails {
        faults := faults + [VfsFault(cause)];
        return Some(cause);
      }
      files := files[rel := FileData([], None)];
      return None;
    }

    /** Creating a directory and its ancestors, on a best-effort basis. */
    method CreateDirAll(rel: string)
      modifies this
      ensures files == old(files) && old(dirs) <= dirs && dirs - old(dirs) !! files.Keys && faults == old(faults)
    {
      var created: set<string> := *;
      dirs := dirs + (created - files.Keys);
    }

    /** `File::create`: an existing file is truncated. */
    method CreateOnDisk(rel: string) returns (fault: Option<IoErrorKind>)
      modifies this
      ensures dirs == old(dirs)
      ensures files == if fault.None? then old(files)[rel := FileData([], None)] else old(files)
      ensures if rel in old(dirs) then fault.Some? && faults == old(faults)
              else faults == if fault.None? then old(faults) else old(faults) + [FileFault(fault.value)]
    {
      var fails: bool, kind: IoErrorKind := *, *;
      if rel in dirs {
        return Some(kind);
      }
      if fails {
        faults := faults + [FileFault(kind)];
        return Some(kind);
      }
      files := files[rel := FileData([], None)];
      return None;
    }

    /** A write that fails may still have stored a part. */
    method WriteAll(f: string, data: seq<byte>) returns (fault: Option<IoErrorKind>)
      requires f in files
      modifies this
      ensures dirs == old(dirs)
      ensures fault.None? ==> files == old(files)[f := old(files)[f].(bytes := old(files)[f].bytes + data)]
      ensures faults == if fault.None? then old(faults) else old(faults) + [FileFault(fault.value)]
      ensures fault.Some? ==>
        exists n :: 0 <= n <= |data| &&
          files == old(files)[f := old(files)[f].(bytes := old(files)[f].bytes + data[..n])]
    {
      var fails: bool, kind: IoErrorKind := *, *;
      if fails {
        var n :| 0 <= n <= |data|;
        files := files[f := files[f].(bytes := files[f].bytes + data[..n])];
        faults := faults + [FileFault(kind)];
        return Some(kind);
      }
      files := files[f := files[f].(bytes := files[f].bytes + data)];
      return None;
    }

    method SetTimes(f: string, t: FileTime)
      requires f in files
      modifies this
      ensures Contents() == SetFileTime(old(Contents()), f, t) && faults == old(faults)
    {
      files := files[f := files[f].(mtime := Some(SetTime(t)))];
    }
  }

  class ReceiveState {
    var currentPath: Option<string>
    var currentFile: Option<string>
    var currentFileMtime: Option<FileTime>
    const speed: MovingAverageCalculator
    const dest: Destination
    const transfer: Progress
    /** Bytes counted before this stream began. */
    ghost const bytesBefore: nat

    constructor (dest: Destination, transfer: Progress)
      requires dest.Contents().Sound()
      ensures Valid() && Value() == FRESH.(dest := dest.Contents())
      ensures this.dest == dest && this.transfer == transfer && bytesBefore == transfer.bytesTransferred
      ensures fresh(speed)
    {
      var s := new MovingAverageCalculator(WINDOW);
      speed := s;
      this.dest := dest;
      this.transfer := transfer;
      currentPath := None;
      currentFile := None;
      currentFileMtime := None;
      bytesBefore := transfer.bytesTransferred;
    }

    ghost function Value(): Recv
      requires transfer.bytesTransferred >= bytesBefore
      reads this, dest, transfer
    {
      Recv(currentPath, currentFile, currentFileMtime, dest.Contents(), transfer.bytesTransferred - bytesBefore)
    }

    ghost predicate Valid()
      reads this, dest, speed, transfer
    {
      && transfer.bytesTransferred >= bytesBefore
      && speed.Covers(30)
      && Value().Consistent()
      && dest.Contents().Sound()
    }

    method FinalizeCurrentFile()
      requires Valid()
      modifies this, dest
      ensures Valid() && Value() == Close(old(Value())) && dest.faults == old(dest.faults)
    {
      if currentFile.Some? {
        var file := currentFile.value;
        currentFile := None;
        if currentFileMtime.Some? {
          var time := currentFileMtime.value;
          currentFileMtime := None;
          dest.SetTimes(file, time);
        }
      }
      currentPath := None;
    }

    method WriteChunk(data: seq<byte>) returns (r: Result<(), TransferError>)
      requires Valid()
      modifies dest, speed, transfer`bytesTransferred, transfer`bytesPerSecond
      ensures Valid()
      ensures r.Ok? ==> Value() == Write(old(Value()), data)
      ensures r.Ok? && currentFile.Some? ==>
        && |speed.pushes| > 0 && speed.pushes[..|speed.pushes| - 1] == old(speed.pushes)
        && speed.pushes[|speed.pushes| - 1].0 == |data| && speed.pushes[|speed.pushes| - 1].1 >= 0.001
        && transfer.bytesPerSecond == Mean(LastN(Rates(speed.pushes), 30))
      ensures Reports(r, old(dest.faults), dest.faults) && r != Err(ConnectionLost) && r != Err(UnsafePath)
      ensures r.Err? ==>
        exists n :: 0 <= n <= |data| && Value() == Write(old(Value()), data[..n]).(bytes := old(Value()).bytes)
    {
      if currentFile.None? {
        return Ok(());
      }
      var fault := dest.WriteAll(currentFile.value, data);
      if fault.Some? {
        return Err(FromIo(fault.value));
      }
      CountProgress(|data|, speed, transfer);
      return Ok(());
    }

    /** One chunk. Success means exactly the specified step, which there is none of where a path of the other kind is
        in the way; an unsafe path is refused before anything changes. */
    method ProcessChunk(chunk: FileChunk) returns (r: Result<(), TransferError>)
      requires Valid()
      modifies this, dest, speed, transfer`bytesTransferred, transfer`bytesPerSecond
      ensures Valid()
      ensures chunk.fileType == 3 ==> r.Ok? && Value() == old(Value())
      ensures r.Ok? ==> Step(old(Value()), chunk) == Ok(Value())
      ensures if Step(old(Value()), chunk).Err? then r.Err? && dest.faults == old(dest.faults)
              else Reports(r, old(dest.faults), dest.faults)
      ensures r != Err(ConnectionLost)
      ensures Step(old(Value()), chunk) == Err(UnsafePath) <==> r == Err(UnsafePath)
      ensures r == Err(UnsafePath) ==> Value() == old(Value())
      ensures r.Err? && r != Err(UnsafePath) ==>
        LeftByFailure(old(Value()), Turned(old(Value()), chunk), chunk, Value())
      ensures r.Err? ==> Value().bytes == old(Value()).bytes
    {
      var parsed := FromInt(chunk.fileType);
      var fileType := if parsed.Some? then parsed.value else FileKind;
      if fileType == SymlinkKind {
        return Ok(());
      }
      var sanitized := Sanitize(chunk.relativePath);
      if ContainsDotDot(sanitized) {
        return Err(UnsafePath);
      }
      if currentPath != Some(sanitized) {
        var fault := TurnToVirtual(sanitized, chunk.time, fileType);
        if fault.Some? {
          return Err(VfsError(fault.value));
        }
        if fileType == DirectoryKind {
          return Ok(());
        }
      }
      r := WriteChunk(chunk.data);
    }

    /** Closing the current file and creating a directory or an empty file. */
    method TurnToVirtual(path: string, time: Option<FileTime>, kind: FileType)
      returns (fault: Option<VirtualFilesystemError>)
      requires Valid()
      modifies this, dest
      ensures Valid()
      ensures fault.None? ==>
        !Clashes(old(dest.Contents()), path, kind) && Value() == Begin(old(Value()), path, time, kind)
      ensures if fault.None? || Clashes(old(dest.Contents()), path, kind) then dest.faults == old(dest.faults)
              else dest.faults == old(dest.faults) + [VfsFault(fault.value)]
      ensures fault.Some? ==> Value() == Close(old(Value())).(path := Some(path), mtime := time)
    {
      CloseKeepsPaths(Value());
      FinalizeCurrentFile();
      currentPath := Some(path);
      currentFileMtime := time;
      if kind == DirectoryKind {
        fault := dest.CreateDir(path);
        return;
      }
      fault := dest.CreateFile(path);
      if fault.None? {
        currentFile := Some(path);
      }
    }

    /** Closing the current file and starting a directory or an empty file on disk. */
    method TurnTo(path: string, time: Option<FileTime>, kind: FileType) returns (fault: Option<IoErrorKind>)
      requires Valid()
      modifies this, dest
      ensures Valid() && old(dest.dirs) <= dest.dirs
      ensures fault.None? ==>
        WithDirs(Value(), old(dest.dirs)) == BeginOnDisk(old(Value()), path, time, kind)
      ensures fault.Some? ==>
        WithDirs(Value(), old(dest.dirs)) == Close(old(Value())).(path := Some(path), mtime := time)
      ensures if fault.None? || path in dest.dirs then dest.faults == old(dest.faults)
              else dest.faults == old(dest.faults) + [FileFault(fault.value)]
    {
      FinalizeCurrentFile();
      currentPath := Some(path);
      currentFileMtime := time;
      dest.CreateDirAll(path);
      if kind == DirectoryKind {
        return None;
      }
      fault := dest.CreateOnDisk(path);
      if fault.None? {
        currentFile := Some(path);
      }
    }

    /** One chunk in the real-filesystem variant; `inside` says whether a path stays below the destination. */
    method ProcessChunkOnDisk(chunk: FileChunk, inside: string -> bool) returns (r: Result<(), TransferError>)
      requires Valid()
      modifies this, dest, speed, transfer`bytesTransferred, transfer`bytesPerSecond
      ensures Valid() && old(dest.dirs) <= dest.dirs
      ensures chunk.fileType == 3 ==> r.Ok? && Value() == old(Value())
      ensures r.Ok? ==> StepOnDisk(old(Value()), chunk, inside) == Ok(WithDirs(Value(), old(dest.dirs)))
      ensures StepOnDisk(old(Value()), chunk, inside).Err? <==> r == Err(UnsafePath)
      ensures r == Err(UnsafePath) ==> Value() == old(Value())
      ensures r.Err? && r != Err(UnsafePath) ==>
        LeftByFailure(old(Value()), TurnedOnDisk(old(Value()), chunk), chunk, WithDirs(Value(), old(dest.dirs)))
      ensures r.Err? ==> Value().bytes == old(Value()).bytes
      ensures r.Ok? || r == Err(UnsafePath) ==> dest.faults == old(dest.faults)
      ensures r.Err? && r != Err(UnsafePath) && Sanitize(chunk.relativePath) !in dest.dirs ==>
        Reports(r, old(dest.faults), dest.faults)
      ensures r != Err(ConnectionLost)
    {
      var parsed := FromInt(chunk.fileType);
      var fileType := if parsed.Some? then parsed.value else FileKind;
      if fileType == SymlinkKind {
        return Ok(());
      }
      var sanitized := Sanitize(chunk.relativePath);
      if ContainsDotDot(sanitized) && !inside(sanitized) {
        return Err(UnsafePath);
      }
      if currentPath != Some(sanitized) {
        var fault := TurnTo(sanitized, chunk.time, fileType);
        if fault.Some? {
          return Err(FromIo(fault.value));
        }
        if fileType == DirectoryKind {
          return Ok(());
        }
      }
      ghost var dirs := old(dest.dirs);
      WriteKeepsDirs(Value(), chunk.data, dirs);
      r := WriteChunk(chunk.data);
    }
  }

  /** How the incoming stream ends after its last chunk. */
  datatype StreamEnd = CleanEnd | Broken

  /** The token has been cancelled by the time `next` chunks have been taken; `cancelFrom` is None if it never is. */
  predicate IsCancelledAt(cancelFrom: Option<nat>, next: nat) {
    cancelFrom.Some? && cancelFrom.value <= next
  }

  /**
   The receive loop. A cancellation may win at any turn from the one on at which the token is cancelled. Unless a call
   of the filesystem fails, some prefix of the stream has been processed exactly as specified and the open file has
   been closed; `Ok(true)` means that prefix is the whole stream and the stream ended cleanly. It ends otherwise only
   for a reason: a cancelled token, a broken connection, a chunk that is refused, or a call that failed.
   */
  method ReceiveStreamInner(stream: seq<FileChunk>, end: StreamEnd, cancelFrom: Option<nat>, state: ReceiveState)
    returns (r: Result<bool, TransferError>, ghost taken: nat)
    requires state.Valid()
    modifies state, state.dest, state.speed, state.transfer`bytesTransferred, state.transfer`bytesPerSecond
    ensures state.Valid() && taken <= |stream|
    ensures Fold(old(state.Value()), stream[..taken]).Ok?
    ensures r.Ok? || r == Err(ConnectionLost) ==>
      state.Value() == Close(Fold(old(state.Value()), stream[..taken]).value)
    ensures r == Ok(true) ==> taken == |stream| && end == CleanEnd
    ensures r == Ok(false) ==> IsCancelledAt(cancelFrom, taken)
    ensures r == Err(ConnectionLost) ==> taken == |stream| && end == Broken
    ensures Fold(old(state.Value()), stream).Err? ==> r != Ok(true)
    ensures r == Err(UnsafePath) ==> Fold(old(state.Value()), stream).Err?
    ensures r.Ok? || r == Err(ConnectionLost) || Fold(old(state.Value()), stream).Err? ||
            Reports(r, old(state.dest.faults), state.dest.faults)
    ensures r.Ok? ==> state.dest.faults == old(state.dest.faults)
    ensures state.Value().bytes == Fold(old(state.Value()), stream[..taken]).value.bytes
  {
    taken := 0;
    var next := 0;
    while true
      invariant 0 <= next <= |stream| && taken == next
      invariant state.Valid() && state.dest.faults == old(state.dest.faults)
      invariant Fold(old(state.Value()), stream[..next]) == Ok(state.Value())
      decreases |stream| - next
    {
      var wins: bool := *;
      if wins && IsCancelledAt(cancelFrom, next) {
        state.FinalizeCurrentFile();
        return Ok(false), taken;
      }
      if next == |stream| {
        if end == Broken {
          state.FinalizeCurrentFile();
          return Err(ConnectionLost), taken;
        }
        break;
      }
      FoldSnoc(old(state.Value()), stream, next);
      var step := state.ProcessChunk(stream[next]);
      if step.Err? {
        return Err(step.error), taken;
      }
      next := next + 1;
      taken := next;
    }
    assert stream[..|stream|] == stream;
    state.FinalizeCurrentFile();
    return Ok(true), taken;
  }

  /** Closes the open file at the end of a stream; `dirs` are the directories that were there at its start. */
  method FinishOnDisk(state: ReceiveState, ghost dirs: set<string>)
    requires state.Valid() && dirs <= state.dest.dirs
    modifies state, state.dest
    ensures state.Valid() && dirs <= state.dest.dirs
    ensures WithDirs(state.Value(), dirs) == Close(WithDirs(old(state.Value()), dirs))
    ensures state.Value().bytes == old(state.Value()).bytes && state.dest.faults == old(state.dest.faults)
  {
    state.FinalizeCurrentFile();
  }

  lemma NextOnDisk(start: Recv, stream: seq<FileChunk>, n: nat, s: Recv, dirs: set<string>, inside: string -> bool)
    requires n < |stream| && FoldOnDisk(start, stream[..n], inside) == Ok(WithDirs(s, dirs))
    ensures FoldOnDisk(start, stream[..n + 1], inside)
         == match StepOnDisk(s, stream[n], inside) { case Err(e) => Err(e) case Ok(t) => Ok(WithDirs(t, dirs)) }
  {
    FoldOnDiskSnoc(start, stream[..n], stream[n], inside);
    assert stream[..n + 1] == stream[..n] + [stream[n]];
    StepOnDiskKeepsDirs(s, stream[n], inside, dirs);
  }

  /**
   The receive loop of the real-filesystem variant: some prefix of the stream has been processed exactly as
   specified, up to the directories, which are made as far as possible and never removed; the count is what that
   prefix wrote; and unless a call of the filesystem fails or a path is refused, the open file has been closed.
   */
  method ReceiveStreamInnerOnDisk(stream: seq<FileChunk>, end: StreamEnd, cancelFrom: Option<nat>,
                                  state: ReceiveState, inside: string -> bool)
    returns (r: Result<bool, TransferError>, ghost taken: nat)
    requires state.Valid()
    modifies state, state.dest, state.speed, state.transfer`bytesTransferred, state.transfer`bytesPerSecond
    ensures state.Valid() && taken <= |stream| && old(state.dest.dirs) <= state.dest.dirs
    ensures FoldOnDisk(old(state.Value()), stream[..taken], inside).Ok?
    ensures r.Ok? || r == Err(ConnectionLost) ==>
      WithDirs(state.Value(), old(state.dest.dirs))
      == Close(FoldOnDisk(old(state.Value()), stream[..taken], inside).value)
    ensures r == Ok(true) ==> taken == |stream| && end == CleanEnd
    ensures r == Ok(false) ==> IsCancelledAt(cancelFrom, taken)
    ensures r.Ok? ==> state.dest.faults == old(state.dest.faults)
    ensures r == Err(ConnectionLost) ==> taken == |stream| && end == Broken
    ensures r == Err(UnsafePath) ==>
      taken < |stream| && FoldOnDisk(old(state.Value()), stream[..taken + 1], inside) == Err(UnsafePath)
    ensures state.Value().bytes == FoldOnDisk(old(state.Value()), stream[..taken], inside).value.bytes
  {
    taken := 0;
    var next := 0;
    ghost var start, dirs := state.Value(), state.dest.dirs;
    while true
      invariant 0 <= next <= |stream| && taken == next
      invariant state.Valid() && dirs <= state.dest.dirs && state.dest.faults == old(state.dest.faults)
      invariant FoldOnDisk(start, stream[..next], inside) == Ok(WithDirs(state.Value(), dirs))
      decreases |stream| - next
    {
      var wins: bool := *;
      if wins && IsCancelledAt(cancelFrom, next) {
        FinishOnDisk(state, dirs);
        return Ok(false), taken;
      }
      if next == |stream| {
        if end == Broken {
          FinishOnDisk(state, dirs);
          return Err(ConnectionLost), taken;
        }
        break;
      }
      NextOnDisk(start, stream, next, state.Value(), dirs, inside);
      var step := state.ProcessChunkOnDisk(stream[next], inside);
      if step.Err? {
        return Err(step.error), taken;
      }
      next := next + 1;
      taken := next;
    }
    FinishOnDisk(state, dirs);
    return Ok(true), taken;
  }

  lemma FoldSnoc(s: Recv, stream: seq<FileChunk>, n: nat)
    requires n < |stream| && Fold(s, stream[..n]).Ok?
    ensures Fold(s, stream[..n + 1]) == Step(Fold(s, stream[..n]).value, stream[n])
    ensures Fold(s, stream[..n + 1]).Err? ==> Fold(s, stream).Err?
  {
    FoldAppend(s, stream[..n], [stream[n]]);
    assert stream[..n + 1] == stream[..n] + [stream[n]];
    var t := Fold(s, stream[..n]).value;
    assert [stream[n]][1..] == [];
    assert Step(t, stream[n]).Ok? ==> Fold(Step(t, stream[n]).value, []) == Ok(Step(t, stream[n]).value);
    FoldAppend(s, stream[..n + 1], stream[n + 1..]);
    assert stream == stream[..n + 1] + stream[n + 1..];
  }

  /**
   The receiving task. It has processed some prefix of the stream exactly as specified and counted the bytes
   written; unless a call of the filesystem failed or a path was refused, the open file was closed. A stop
   that already set the final state is not overwritten, and the speed ends at 0.
   */
  method ReceiveStream(stream: seq<FileChunk>, end: StreamEnd, cancelFrom: Option<nat>, dest: Destination,
                       transfer: Progress)
    returns (ghost result: Result<bool, TransferError>, ghost taken: nat)
    requires dest.Contents().Sound()
    modifies dest, transfer
    ensures dest.Contents().Sound()
    ensures taken <= |stream|
    ensures old(transfer.state) == Stopped || old(transfer.state) == Canceled ==> transfer.state == old(transfer.state)
    ensures old(transfer.state) != Stopped && old(transfer.state) != Canceled ==>
      transfer.state == match result
                        case Ok(completed) => if completed then Completed else Canceled
                        case Err(e) => Failed(e)
    ensures transfer.bytesPerSecond == 0
    ensures result == Ok(true) ==> taken == |stream| && end == CleanEnd
    ensures result == Ok(false) ==> IsCancelledAt(cancelFrom, taken)
    ensures result == Err(ConnectionLost) ==> taken == |stream| && end == Broken
    ensures var start := FRESH.(dest := old(dest.Contents()));
      && Fold(start, stream[..taken]).Ok?
      && (Fold(start, stream).Err? ==> result != Ok(true))
      && (result == Err(UnsafePath) ==> Fold(start, stream).Err?)
      && transfer.bytesTransferred == old(transfer.bytesTransferred) + Fold(start, stream[..taken]).value.bytes
      && (result.Ok? || result == Err(ConnectionLost) ==>
            dest.Contents() == Close(Fold(start, stream[..taken]).value).dest)
      && (result.Ok? || result == Err(ConnectionLost) || Fold(start, stream).Err?
          || Reports(result, old(dest.faults), dest.faults))
    ensures result.Ok? ==> dest.faults == old(dest.faults)
  {
    var state := new ReceiveState(dest, transfer);
    var outcome;
    outcome, taken := ReceiveStreamInner(stream, end, cancelFrom, state);
    result := outcome;
    var finalState := match outcome
      case Ok(true) => Completed
      case Ok(false) => Canceled
      case Err(e) => Failed(e);
    if !(transfer.state.Stopped? || transfer.state.Canceled?) {
      transfer.state := finalState;
    }
    transfer.bytesPerSecond := 0;
  }
}
