/**
 What an arbitrary chunk stream means at the destination of the
 real-filesystem variant, said without the receiver's state: split what is not a
 symlink into maximal runs of equal paths and look at the last run of each path.
 */
module Denotation {
  import opened Common
  import opened Paths
  import opened Transfers
  import opened ReceiveSpec

  function PathOf(c: FileChunk): string { Sanitize(c.relativePath) }

  // File types are read here as the numbers on the wire: 2 is a directory, 3 a symlink, all else a file.

  function WithoutSymlinks(chunks: seq<FileChunk>): seq<FileChunk> {
    if chunks == [] then []
    else if chunks[0].fileType == 3 then WithoutSymlinks(chunks[1..])
    else [chunks[0]] + WithoutSymlinks(chunks[1..])
  }

  function Flatten(runs: seq<seq<FileChunk>>): seq<FileChunk> {
    if runs == [] then [] else Flatten(runs[..|runs| - 1]) + runs[|runs| - 1]
  }

  /** The runs make up the stream; each has one path, and neighbours have different ones. */
  ghost predicate IsRunSplit(chunks: seq<FileChunk>, runs: seq<seq<FileChunk>>) {
    && Flatten(runs) == chunks
    && (forall i :: 0 <= i < |runs| ==> runs[i] != [])
    && (forall i, j :: 0 <= i < |runs| && 0 <= j < |runs[i]| ==> PathOf(runs[i][j]) == PathOf(runs[i][0]))
    && (forall i :: 0 <= i < |runs| - 1 ==> PathOf(runs[i][0]) != PathOf(runs[i + 1][0]))
  }

  function DataOf(run: seq<FileChunk>): seq<byte> {
    if run == [] then [] else DataOf(run[..|run| - 1]) + run[|run| - 1].data
  }

  /** A run opens a file unless it begins with a directory chunk. */
  predicate OpensFile(run: seq<FileChunk>)
    requires run != []
  {
    run[0].fileType != 2
  }

  /** The last run that opens a file at a path. */
  function LastRun(runs: seq<seq<FileChunk>>, p: string): (r: Option<seq<FileChunk>>)
    requires forall i :: 0 <= i < |runs| ==> runs[i] != []
    ensures r.Some? ==> r.value in runs && r.value != [] && PathOf(r.value[0]) == p && OpensFile(r.value)
  {
    if runs == [] then None
    else
      var last := runs[|runs| - 1];
      if PathOf(last[0]) == p && OpensFile(last) then Some(last) else LastRun(runs[..|runs| - 1], p)
  }

  /** The file a run leaves behind: all its data, and the time of its first chunk only. */
  function FileOf(run: seq<FileChunk>): FileData
    requires run != []
  {
    FileData(DataOf(run), match run[0].time { case None => None case Some(t) => Some(SetTime(t)) })
  }

  /** How many bytes the runs write. */
  function BytesOf(runs: seq<seq<FileChunk>>): nat
    requires forall i :: 0 <= i < |runs| ==> runs[i] != []
  {
    if runs == [] then 0
    else
      var last := runs[|runs| - 1];
      BytesOf(runs[..|runs| - 1]) + if OpensFile(last) then |DataOf(last)| else 0
  }

  ghost predicate Safe(chunks: seq<FileChunk>, inside: string -> bool) {
    forall i :: 0 <= i < |chunks| && chunks[i].fileType != 3 ==>
      ContainsDotDot(PathOf(chunks[i])) ==> inside(PathOf(chunks[i]))
  }

  // ----- every stream has a run split -----

  lemma GrowLastRun(chunks: seq<FileChunk>, front: seq<seq<FileChunk>>, c: FileChunk)
    requires IsRunSplit(chunks, front) && front != [] && PathOf(front[|front| - 1][0]) == PathOf(c)
    ensures exists runs :: IsRunSplit(chunks + [c], runs)
  {
    var m := |front| - 1;
    var runs := front[m := front[m] + [c]];
    assert runs[..m] == front[..m];
    assert Flatten(front[..m]) + (front[m] + [c]) == (Flatten(front[..m]) + front[m]) + [c];
    assert IsRunSplit(chunks + [c], runs);
  }

  lemma {:induction false} RunSplitExists(chunks: seq<FileChunk>)
    ensures exists runs :: IsRunSplit(chunks, runs)
  {
    if chunks == [] {
      assert IsRunSplit(chunks, []);
    } else {
      var n := |chunks| - 1;
      var c := chunks[n];
      RunSplitExists(chunks[..n]);
      var front :| IsRunSplit(chunks[..n], front);
      assert chunks == chunks[..n] + [c];
      if front != [] && PathOf(front[|front| - 1][0]) == PathOf(c) {
        GrowLastRun(chunks[..n], front, c);
      } else {
        var runs := front + [[c]];
        assert runs[..|front|] == front;
        assert IsRunSplit(chunks, runs);
      }
    }
  }

  // ----- the machine meets the meaning -----

  lemma {:induction false} SymlinksAreIgnored(s: Recv, chunks: seq<FileChunk>, inside: string -> bool)
    ensures FoldOnDisk(s, chunks, inside) == FoldOnDisk(s, WithoutSymlinks(chunks), inside)
    decreases |chunks|
  {
    if chunks == [] {
    } else {
      var step := StepOnDisk(s, chunks[0], inside);
      if step.Ok? {
        SymlinksAreIgnored(step.value, chunks[1..], inside);
      }
      if chunks[0].fileType != 3 {
        assert WithoutSymlinks(chunks)[1..] == WithoutSymlinks(chunks[1..]);
      }
    }
  }

  lemma {:induction false} FoldOnDiskAppend(s: Recv, a: seq<FileChunk>, b: seq<FileChunk>, inside: string -> bool)
    requires FoldOnDisk(s, a, inside).Ok?
    ensures FoldOnDisk(s, a + b, inside) == FoldOnDisk(FoldOnDisk(s, a, inside).value, b, inside)
    decreases |a|
  {
    if a == [] {
      assert a + b == b;
    } else {
      assert (a + b)[1..] == a[1..] + b;
      FoldOnDiskAppend(StepOnDisk(s, a[0], inside).value, a[1..], b, inside);
    }
  }

  /** The state in the middle of a run that began in `s` with `first`. */
  ghost predicate InRun(s: Recv, run: seq<FileChunk>, t: Recv)
    requires run != []
  {
    var p := PathOf(run[0]);
    && t.path == Some(p)
    && if OpensFile(run) then
         && t.file == Some(p)
         && t.mtime == run[0].time
         && t.dest.files == Close(s).dest.files[p := FileData(DataOf(run), None)]
         && t.bytes == s.bytes + |DataOf(run)|
       else
         && t.file == None
         && t.dest.files == Close(s).dest.files
         && t.bytes == s.bytes
  }

  lemma RunBegins(s: Recv, c: FileChunk, inside: string -> bool)
    requires s.Consistent() && s.path != Some(PathOf(c)) && c.fileType != 3
    requires ContainsDotDot(PathOf(c)) ==> inside(PathOf(c))
    ensures StepOnDisk(s, c, inside).Ok? && InRun(s, [c], StepOnDisk(s, c, inside).value)
  {
    assert [c][..0] == [] && DataOf([]) == [];
    assert [] + c.data == c.data;
    assert DataOf([c]) == c.data;
  }

  lemma RunContinues(s: Recv, front: seq<FileChunk>, t: Recv, c: FileChunk, inside: string -> bool)
    requires s.Consistent() && front != [] && InRun(s, front, t)
    requires PathOf(c) == PathOf(front[0]) && c.fileType != 3
    requires ContainsDotDot(PathOf(c)) ==> inside(PathOf(c))
    ensures StepOnDisk(t, c, inside) == Ok(Write(t, c.data)) && InRun(s, front + [c], Write(t, c.data))
  {
    var run := front + [c];
    assert run[..|run| - 1] == front && run[0] == front[0];
    assert DataOf(run) == DataOf(front) + c.data;
  }

  lemma {:induction false} OneRun(s: Recv, run: seq<FileChunk>, inside: string -> bool)
    requires s.Consistent() && run != [] && s.path != Some(PathOf(run[0]))
    requires forall j :: 0 <= j < |run| ==> PathOf(run[j]) == PathOf(run[0]) && run[j].fileType != 3
    requires Safe(run, inside)
    ensures FoldOnDisk(s, run, inside).Ok? && InRun(s, run, FoldOnDisk(s, run, inside).value)
    decreases |run|
  {
    var n := |run| - 1;
    var front, c := run[..n], run[n];
    assert run == front + [c];
    assert ContainsDotDot(PathOf(c)) ==> inside(PathOf(c));
    FoldOnDiskSnoc(s, front, c, inside);
    if n > 0 {
      OneRun(s, front, inside);
      RunContinues(s, front, FoldOnDisk(s, front, inside).value, c, inside);
    } else {
      RunBegins(s, c, inside);
      assert run == [c];
    }
  }

  /** What the destination's files are, in terms of the runs and of the files that were there before. */
  ghost predicate Denotes(runs: seq<seq<FileChunk>>, before: map<string, FileData>, files: map<string, FileData>)
    requires forall i :: 0 <= i < |runs| ==> runs[i] != []
  {
    forall p ::
      && (p in files <==> LastRun(runs, p).Some? || p in before)
      && (p in files ==> files[p] == match LastRun(runs, p) { case Some(run) => FileOf(run) case None => before[p] })
  }

  /** A receiver that has not taken a chunk yet, at a destination with whatever is there. */
  function At(dest: Dest): Recv { FRESH.(dest := dest) }

  ghost predicate IsSplitWithoutSymlinks(runs: seq<seq<FileChunk>>) {
    && IsRunSplit(Flatten(runs), runs)
    && forall i, j :: 0 <= i < |runs| && 0 <= j < |runs[i]| ==> runs[i][j].fileType != 3
  }

  lemma ClosedRun(s: Recv, run: seq<FileChunk>, t: Recv)
    requires s.Consistent() && run != [] && InRun(s, run, t)
    ensures t.Consistent()
    ensures Close(t).dest.files ==
      if OpensFile(run) then Close(s).dest.files[PathOf(run[0]) := FileOf(run)] else Close(s).dest.files
  {
  }

  lemma SplitFront(front: seq<seq<FileChunk>>, run: seq<FileChunk>)
    requires IsSplitWithoutSymlinks(front + [run])
    ensures IsSplitWithoutSymlinks(front)
    ensures front != [] ==> PathOf(front[|front| - 1][0]) != PathOf(run[0])
  {
    var runs := front + [run];
    assert forall i :: 0 <= i < |front| ==> runs[i] == front[i];
    if front != [] {
      var n := |front| - 1;
      assert PathOf(runs[n][0]) != PathOf(runs[n + 1][0]);
    }
    forall i | 0 <= i < |front| - 1
      ensures PathOf(front[i][0]) != PathOf(front[i + 1][0])
    {
      assert PathOf(runs[i][0]) != PathOf(runs[i + 1][0]);
    }
  }

  lemma LastRunNext(front: seq<seq<FileChunk>>, run: seq<FileChunk>, p: string)
    requires (forall i :: 0 <= i < |front| ==> front[i] != []) && run != []
    ensures LastRun(front + [run], p)
         == if PathOf(run[0]) == p && OpensFile(run) then Some(run) else LastRun(front, p)
  {
    assert (front + [run])[..|front|] == front;
  }

  lemma DenotesNext(front: seq<seq<FileChunk>>, run: seq<FileChunk>, before: map<string, FileData>,
                    files: map<string, FileData>)
    requires (forall i :: 0 <= i < |front| ==> front[i] != []) && run != [] && Denotes(front, before, files)
    ensures Denotes(front + [run], before, if OpensFile(run) then files[PathOf(run[0]) := FileOf(run)] else files)
  {
    var after := if OpensFile(run) then files[PathOf(run[0]) := FileOf(run)] else files;
    var runs := front + [run];
    forall p
      ensures p in after <==> LastRun(runs, p).Some? || p in before
      ensures p in after ==>
        after[p] == match LastRun(runs, p) { case Some(last) => FileOf(last) case None => before[p] }
    {
      LastRunNext(front, run, p);
    }
  }

  lemma BytesOfNext(front: seq<seq<FileChunk>>, run: seq<FileChunk>)
    requires (forall i :: 0 <= i < |front| ==> front[i] != []) && run != []
    ensures BytesOf(front + [run]) == BytesOf(front) + if OpensFile(run) then |DataOf(run)| else 0
  {
    assert (front + [run])[..|front|] == front;
  }

  /** One more run, received after the others. */
  lemma NextRun(dest: Dest, front: seq<seq<FileChunk>>, run: seq<FileChunk>, s: Recv, inside: string -> bool)
    requires (forall i :: 0 <= i < |front| ==> front[i] != []) && run != []
    requires forall j :: 0 <= j < |run| ==> PathOf(run[j]) == PathOf(run[0]) && run[j].fileType != 3
    requires Safe(run, inside) && s.Consistent() && s.path != Some(PathOf(run[0]))
    requires Denotes(front, dest.files, Close(s).dest.files) && s.bytes == BytesOf(front)
    ensures var r := FoldOnDisk(s, run, inside);
      && r.Ok? && r.value.Consistent() && r.value.path == Some(PathOf(run[0]))
      && Denotes(front + [run], dest.files, Close(r.value).dest.files)
      && r.value.bytes == BytesOf(front + [run])
  {
    OneRun(s, run, inside);
    ClosedRun(s, run, FoldOnDisk(s, run, inside).value);
    DenotesNext(front, run, dest.files, Close(s).dest.files);
    BytesOfNext(front, run);
  }

  lemma {:induction false} AllRuns(dest: Dest, runs: seq<seq<FileChunk>>, inside: string -> bool)
    requires IsSplitWithoutSymlinks(runs) && forall i :: 0 <= i < |runs| ==> Safe(runs[i], inside)
    ensures var r := FoldOnDisk(At(dest), Flatten(runs), inside);
      && r.Ok? && r.value.Consistent()
      && r.value.path == (if runs == [] then None else Some(PathOf(runs[|runs| - 1][0])))
      && Denotes(runs, dest.files, Close(r.value).dest.files)
      && r.value.bytes == BytesOf(runs)
    decreases |runs|
  {
    if runs == [] {
    } else {
      var n := |runs| - 1;
      var front, run := runs[..n], runs[n];
      assert runs == front + [run];
      SplitFront(front, run);
      AllRuns(dest, front, inside);
      var s := FoldOnDisk(At(dest), Flatten(front), inside).value;
      NextRun(dest, front, run, s, inside);
      FoldOnDiskAppend(At(dest), Flatten(front), run, inside);
    }
  }

  lemma {:induction false} MembersOfFlatten(runs: seq<seq<FileChunk>>, i: nat, j: nat)
    requires i < |runs| && j < |runs[i]|
    ensures runs[i][j] in Flatten(runs)
  {
    if i < |runs| - 1 {
      MembersOfFlatten(runs[..|runs| - 1], i, j);
    }
  }

  lemma {:induction false} WithoutSymlinksMembers(chunks: seq<FileChunk>)
    ensures forall c :: c in WithoutSymlinks(chunks) ==> c in chunks && c.fileType != 3
  {
    if chunks == [] {
    } else {
      WithoutSymlinksMembers(chunks[1..]);
    }
  }

  /**
   For every stream whose paths are accepted and every destination: after closing, each path holds the data of its
   last run that opens a file, stamped with that run's own first time, however long the file was that was there;
   files at other paths are as before; and the byte count is what the file-opening runs carry. `runs` is any split
   of the stream into maximal runs.
   */
  lemma StreamDenotation(dest: Dest, chunks: seq<FileChunk>, runs: seq<seq<FileChunk>>, inside: string -> bool)
    requires IsRunSplit(WithoutSymlinks(chunks), runs)
    requires Safe(chunks, inside)
    ensures var r := FoldOnDisk(At(dest), chunks, inside);
      && r.Ok?
      && Denotes(runs, dest.files, Close(r.value).dest.files)
      && r.value.bytes == BytesOf(runs)
  {
    SymlinksAreIgnored(At(dest), chunks, inside);
    WithoutSymlinksMembers(chunks);
    forall i, j | 0 <= i < |runs| && 0 <= j < |runs[i]|
      ensures runs[i][j].fileType != 3
      ensures ContainsDotDot(PathOf(runs[i][j])) ==> inside(PathOf(runs[i][j]))
    {
      MembersOfFlatten(runs, i, j);
    }
    AllRuns(dest, runs, inside);
  }

  /** A stream is refused exactly when some chunk that is not a symlink has an unsafe path. */
  lemma {:induction false} RefusedIffUnsafe(s: Recv, chunks: seq<FileChunk>, inside: string -> bool)
    ensures FoldOnDisk(s, chunks, inside).Ok? <==> Safe(chunks, inside)
    ensures FoldOnDisk(s, chunks, inside).Err? ==> FoldOnDisk(s, chunks, inside) == Err(UnsafePath)
    decreases |chunks|
  {
    if chunks == [] {
    } else {
      var r := StepOnDisk(s, chunks[0], inside);
      if r.Ok? {
        RefusedIffUnsafe(r.value, chunks[1..], inside);
        if Safe(chunks, inside) {
          assert forall i :: 0 <= i < |chunks[1..]| ==> chunks[1..][i] == chunks[i + 1];
        } else {
          var i :| 0 <= i < |chunks| && chunks[i].fileType != 3
            && ContainsDotDot(PathOf(chunks[i])) && !inside(PathOf(chunks[i]));
          assert chunks[1..][i - 1] == chunks[i];
        }
      } else {
        assert chunks[0].fileType != 3;
      }
    }
  }
}
