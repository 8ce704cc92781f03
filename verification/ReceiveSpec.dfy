/**
 What the receiver makes of a chunk, as a function on values: the framing state
 (`current_path`, `current_file`, `current_file_mtime`), the destination, and the
 number of bytes written. The virtual-filesystem variant.
 */
module ReceiveSpec {
  import opened Common
  import opened Paths
  import opened Transfers
  import SourceTree

  /** A file at the destination; `mtime` is None until the receiver sets it. */
  datatype FileData = FileData(bytes: seq<byte>, mtime: Option<nat>)

  datatype Dest = Dest(files: map<string, FileData>, dirs: set<string>)
  {
    /** No path is a file and a directory at once. */
    ghost predicate Sound() { files.Keys !! dirs }
  }

  const EMPTY_DEST := Dest(map[], {})

  datatype Recv = Recv(
    path: Option<string>, file: Option<string>, mtime: Option<FileTime>, dest: Dest, bytes: nat)
  {
    /** The open file, if any, is one of the destination's files and the current path. */
    ghost predicate Consistent() {
      file.Some? ==> file.value in dest.files && path == file
    }
  }

  const FRESH := Recv(None, None, None, EMPTY_DEST, 0)

  function SetFileTime(dest: Dest, f: string, t: FileTime): Dest {
    if f in dest.files then dest.(files := dest.files[f := dest.files[f].(mtime := Some(SetTime(t)))]) else dest
  }

  /** Finalizing: the open file gets its time stamp if one is pending, and the framing state is reset. */
  function Close(s: Recv): Recv {
    if s.file.None? then s.(path := None)
    else if s.mtime.None? then s.(path := None, file := None)
    else Recv(None, None, None, SetFileTime(s.dest, s.file.value, s.mtime.value), s.bytes)
  }

  /** Appending to the open file; without one the data is dropped. */
  function Write(s: Recv, data: seq<byte>): Recv {
    if s.file.None? || s.file.value !in s.dest.files then s
    else
      var f := s.file.value;
      var before := s.dest.files[f];
      s.(dest := s.dest.(files := s.dest.files[f := before.(bytes := before.bytes + data)]), bytes := s.bytes + |data|)
  }

  function KindOf(c: FileChunk): FileType {
    match FromInt(c.fileType)
    case None => FileKind
    case Some(k) => k
  }

  /** Turning to a new path: the previous file is closed and a directory or an empty file is created. */
  function Begin(s: Recv, path: string, time: Option<FileTime>, kind: FileType): Recv {
    var t := Close(s).(path := Some(path), mtime := time);
    if kind == DirectoryKind then t.(dest := t.dest.(dirs := t.dest.dirs + {path}))
    else t.(file := Some(path), dest := t.dest.(files := t.dest.files[path := FileData([], None)]))
  }

  /** A path of the other kind is in the way. */
  predicate Clashes(dest: Dest, path: string, kind: FileType) {
    if kind == DirectoryKind then path in dest.files else path in dest.dirs
  }

  function Step(s: Recv, c: FileChunk): Result<Recv, TransferError> {
    var kind := KindOf(c);
    var path := Sanitize(c.relativePath);
    if kind == SymlinkKind then Ok(s)
    else if ContainsDotDot(path) then Err(UnsafePath)
    else if s.path == Some(path) then Ok(Write(s, c.data))
    else if Clashes(s.dest, path, kind) then Err(VfsError(SourceTree.FileAlreadyExists))
    else
      var t := Begin(s, path, c.time, kind);
      Ok(if kind == DirectoryKind then t else Write(t, c.data))
  }

  /** The step in terms of the number on the wire: 3 is ignored, 2 makes a directory, and any other number, known or
      not, opens a file with the chunk's data. */
  lemma StepByWireNumber(s: Recv, c: FileChunk)
    ensures c.fileType == 3 ==> Step(s, c) == Ok(s)
    ensures var p, r := Sanitize(c.relativePath), Step(s, c);
      c.fileType != 3 && r.Ok? && s.path != Some(p) ==>
      && r.value.path == Some(p)
      && (c.fileType == 2 ==>
            && r.value.file == None && r.value.dest.dirs == s.dest.dirs + {p}
            && r.value.dest.files.Keys == s.dest.files.Keys && r.value.bytes == s.bytes)
      && (c.fileType != 2 ==>
            && r.value.file == Some(p) && r.value.dest.dirs == s.dest.dirs
            && r.value.dest.files.Keys == s.dest.files.Keys + {p}
            && r.value.dest.files[p] == FileData(c.data, None) && r.value.bytes == s.bytes + |c.data|)
  {
    assert [] + c.data == c.data;
  }

  function WithDirs(s: Recv, dirs: set<string>): Recv {
    s.(dest := s.dest.(dirs := dirs))
  }

  /** The real-filesystem variant. Directories are made as far as possible and not tracked here; creating a
      file truncates what was there. `inside` says whether a path stays below the destination. */
  function StepOnDisk(s: Recv, c: FileChunk, inside: string -> bool): Result<Recv, TransferError> {
    var kind := KindOf(c);
    var path := Sanitize(c.relativePath);
    if kind == SymlinkKind then Ok(s)
    else if ContainsDotDot(path) && !inside(path) then Err(UnsafePath)
    else if s.path == Some(path) then Ok(Write(s, c.data))
    else
      var t := BeginOnDisk(s, path, c.time, kind);
      Ok(if kind == DirectoryKind then t else Write(t, c.data))
  }

  function BeginOnDisk(s: Recv, path: string, time: Option<FileTime>, kind: FileType): Recv {
    var t := Close(s).(path := Some(path), mtime := time);
    if kind == DirectoryKind then t
    else t.(file := Some(path), dest := t.dest.(files := t.dest.files[path := FileData([], None)]))
  }

  /** What a failing call leaves of a step from `s`: nothing was created, or some of the data was written to the file
      that the step `begun` opened. Nothing is counted. */
  ghost predicate LeftByFailure(s: Recv, begun: Recv, c: FileChunk, t: Recv) {
    var path := Sanitize(c.relativePath);
    || (s.path != Some(path) && t == Close(s).(path := Some(path), mtime := c.time))
    || exists n :: 0 <= n <= |c.data| && t == Write(begun, c.data[..n]).(bytes := s.bytes)
  }

  /** The state a chunk's data is written in: the step has turned to the chunk's path. */
  function Turned(s: Recv, c: FileChunk): Recv {
    var path := Sanitize(c.relativePath);
    if s.path == Some(path) then s else Begin(s, path, c.time, KindOf(c))
  }

  function TurnedOnDisk(s: Recv, c: FileChunk): Recv {
    var path := Sanitize(c.relativePath);
    if s.path == Some(path) then s else BeginOnDisk(s, path, c.time, KindOf(c))
  }

  lemma WriteKeepsDirs(s: Recv, data: seq<byte>, dirs: set<string>)
    ensures Write(WithDirs(s, dirs), data) == WithDirs(Write(s, data), dirs)
  {
  }

  /** The steps on disk neither read nor change the directories of the specification. */
  lemma StepOnDiskKeepsDirs(s: Recv, c: FileChunk, inside: string -> bool, dirs: set<string>)
    ensures StepOnDisk(WithDirs(s, dirs), c, inside)
         == match StepOnDisk(s, c, inside) { case Err(e) => Err(e) case Ok(t) => Ok(WithDirs(t, dirs)) }
  {
  }

  function FoldOnDisk(s: Recv, chunks: seq<FileChunk>, inside: string -> bool): Result<Recv, TransferError>
    decreases |chunks|
  {
    if chunks == [] then Ok(s)
    else
      match StepOnDisk(s, chunks[0], inside)
      case Err(e) => Err(e)
      case Ok(t) => FoldOnDisk(t, chunks[1..], inside)
  }

  function Fold(s: Recv, chunks: seq<FileChunk>): Result<Recv, TransferError>
    decreases |chunks|
  {
    if chunks == [] then Ok(s)
    else
      match Step(s, chunks[0])
      case Err(e) => Err(e)
      case Ok(t) => Fold(t, chunks[1..])
  }

  lemma {:induction false} FoldOnDiskSnoc(s: Recv, chunks: seq<FileChunk>, c: FileChunk, inside: string -> bool)
    ensures FoldOnDisk(s, chunks + [c], inside)
         == match FoldOnDisk(s, chunks, inside) { case Err(e) => Err(e) case Ok(t) => StepOnDisk(t, c, inside) }
    decreases |chunks|
  {
    if chunks == [] {
      assert [] + [c] == [c] && [c][1..] == [];
      var r := StepOnDisk(s, c, inside);
      assert r.Ok? ==> FoldOnDisk(r.value, [], inside) == r;
    } else {
      assert (chunks + [c])[1..] == chunks[1..] + [c];
      var r := StepOnDisk(s, chunks[0], inside);
      if r.Ok? {
        FoldOnDiskSnoc(r.value, chunks[1..], c, inside);
      }
    }
  }

  lemma {:induction false} FoldAppend(s: Recv, a: seq<FileChunk>, b: seq<FileChunk>)
    ensures Fold(s, a + b) == match Fold(s, a) { case Err(e) => Err(e) case Ok(t) => Fold(t, b) }
    decreases |a|
  {
    if a == [] {
      assert a + b == b;
    } else {
      assert (a + b)[1..] == a[1..] + b;
      if Step(s, a[0]).Ok? {
        FoldAppend(Step(s, a[0]).value, a[1..], b);
      }
    }
  }

  lemma CloseKeepsPaths(s: Recv)
    ensures Close(s).dest.dirs == s.dest.dirs && Close(s).dest.files.Keys == s.dest.files.Keys
  {
  }

  lemma StepKeepsSound(s: Recv, c: FileChunk)
    requires s.dest.Sound() && Step(s, c).Ok?
    ensures Step(s, c).value.dest.Sound()
  {
    CloseKeepsPaths(s);
  }

  /** Whatever is received, no path becomes a file and a directory at once. */
  lemma {:induction false} FoldKeepsSound(s: Recv, chunks: seq<FileChunk>)
    requires s.dest.Sound() && Fold(s, chunks).Ok?
    ensures Fold(s, chunks).value.dest.Sound()
    decreases |chunks|
  {
    if chunks == [] {
    } else {
      StepKeepsSound(s, chunks[0]);
      FoldKeepsSound(Step(s, chunks[0]).value, chunks[1..]);
    }
  }

  lemma StepConsistent(s: Recv, c: FileChunk)
    requires s.Consistent() && Step(s, c).Ok?
    ensures Step(s, c).value.Consistent()
    ensures Step(s, c).value.bytes >= s.bytes
  {
  }

  lemma {:induction false} FoldPrefixOk(s: Recv, chunks: seq<FileChunk>, n: nat)
    requires n <= |chunks| && Fold(s, chunks).Ok?
    ensures Fold(s, chunks[..n]).Ok?
  {
    FoldAppend(s, chunks[..n], chunks[n..]);
    assert chunks == chunks[..n] + chunks[n..];
  }
}
