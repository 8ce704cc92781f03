/**
 The sender's stream at the real-filesystem receiver: its maximal runs are the jobs, so
 each file arrives complete, and what else was at the destination stays.
 */
module OnDisk {
  import opened Common
  import opened Paths
  import opened SourceTree
  import opened WalkDir
  import opened Transfers
  import opened SendPlan
  import opened ReceiveSpec
  import opened Pipeline
  import opened Collisions
  import opened Denotation

  /** The chunks of each job that shows on the wire. */
  function Pieces(jobs: seq<Visit>, sizes: ReadSizes): seq<seq<FileChunk>> {
    if jobs == [] then []
    else
      var n := |jobs| - 1;
      Pieces(jobs[..n], sizes) + if Carries(jobs[n]) then [JobChunks(jobs[n], n, sizes)] else []
  }

  /** Every job that shows on the wire turns to its path. */
  ghost predicate AllOpen(jobs: seq<Visit>) {
    forall j :: 0 <= j < |jobs| && Carries(jobs[j]) ==> Opens(jobs, j)
  }

  // ----- the chunks of one job -----

  /** The chunk belongs to the job: it is for its path, of its kind, and no symlink. */
  predicate ChunkOf(c: FileChunk, v: Visit) {
    && PathOf(c) == Target(v)
    && c.fileType == if v.node.Dir? then 2 else 1
  }

  lemma {:induction false} FileChunksAre(v: Visit, k: nat, sizes: ReadSizes, off: nat)
    requires v.node.File? && off <= |v.node.data|
    ensures forall c :: c in FileChunks(v, k, sizes, off) ==> ChunkOf(c, v)
    decreases |v.node.data| - off
  {
    if off == |v.node.data| {
    } else {
      var n := ReadLen(sizes, k, off, |v.node.data| - off);
      FileChunksAre(v, k, sizes, off + n);
      assert ChunkOf(DataChunk(v, off, n), v);
    }
  }

  lemma JobChunksAre(v: Visit, k: nat, sizes: ReadSizes)
    ensures forall c :: c in JobChunks(v, k, sizes) ==> ChunkOf(c, v)
    ensures JobChunks(v, k, sizes) != [] <==> Carries(v)
  {
    if v.node.File? {
      FileChunksAre(v, k, sizes, 0);
    } else {
      assert ChunkOf(DirChunk(v), v);
    }
  }

  lemma DataOfSnoc(run: seq<FileChunk>, c: FileChunk)
    ensures DataOf(run + [c]) == DataOf(run) + c.data
  {
    assert (run + [c])[..|run|] == run;
  }

  lemma {:induction false} DataOfAppend(a: seq<FileChunk>, b: seq<FileChunk>)
    ensures DataOf(a + b) == DataOf(a) + DataOf(b)
  {
    if b == [] {
      assert a + b == a;
    } else {
      var front, c := b[..|b| - 1], b[|b| - 1];
      assert b == front + [c];
      DataOfAppend(a, front);
      DataOfSnoc(front, c);
      DataOfSnoc(a + front, c);
      Regroup(a, front, [c]);
      Regroup(DataOf(a), DataOf(front), c.data);
    }
  }

  lemma DataOfOne(c: FileChunk)
    ensures DataOf([c]) == c.data
  {
    assert [c][..0] == [] && [] + c.data == c.data;
  }

  lemma SplitAt<T>(s: seq<T>, i: nat, j: nat)
    requires i <= j <= |s|
    ensures s[i..j] + s[j..] == s[i..]
  {
  }

  lemma DataOfFirst(c: FileChunk, rest: seq<FileChunk>)
    ensures DataOf([c] + rest) == c.data + DataOf(rest)
  {
    DataOfOne(c);
    DataOfAppend([c], rest);
  }

  lemma {:induction false} FileChunksHoldFile(v: Visit, k: nat, sizes: ReadSizes, off: nat)
    requires v.node.File? && off <= |v.node.data|
    ensures DataOf(FileChunks(v, k, sizes, off)) == v.node.data[off..]
    decreases |v.node.data| - off
  {
    if off == |v.node.data| {
      assert DataOf([]) == [];
    } else {
      var n := ReadLen(sizes, k, off, |v.node.data| - off);
      FileChunksHoldFile(v, k, sizes, off + n);
      DataOfFirst(DataChunk(v, off, n), FileChunks(v, k, sizes, off + n));
      SplitAt(v.node.data, off, off + n);
    }
  }

  /** The run of a non-empty file leaves that file, with its own time. */
  lemma FileOfJob(v: Visit, k: nat, sizes: ReadSizes)
    requires v.node.File? && v.node.data != []
    ensures JobChunks(v, k, sizes) != []
    ensures FileOf(JobChunks(v, k, sizes)) == Arrival(v, |v.node.data|)
  {
    FileChunksHoldFile(v, k, sizes, 0);
    assert v.node.data[0..] == v.node.data == v.node.data[..|v.node.data|];
    var n := ReadLen(sizes, k, 0, |v.node.data|);
    assert FileChunks(v, k, sizes, 0)[0] == DataChunk(v, 0, n);
    if v.node.modified.Some? {
      StampRoundTrip(v.node.modified.value);
    }
  }

  // ----- the runs are the jobs -----

  lemma {:induction false} PiecesMakeStream(jobs: seq<Visit>, sizes: ReadSizes)
    ensures Flatten(Pieces(jobs, sizes)) == Stream(jobs, 0, sizes)
  {
    if jobs == [] {
    } else {
      var n := |jobs| - 1;
      PiecesMakeStream(jobs[..n], sizes);
      StreamSnoc(jobs[..n], jobs[n], 0, sizes);
      assert jobs == jobs[..n] + [jobs[n]];
      PiecesNext(jobs, sizes);
      AddPiece(Pieces(jobs[..n], sizes), jobs[n], n, sizes);
    }
  }

  lemma AddPiece(runs: seq<seq<FileChunk>>, v: Visit, k: nat, sizes: ReadSizes)
    ensures var more := if Carries(v) then runs + [JobChunks(v, k, sizes)] else runs;
      Flatten(more) == Flatten(runs) + JobChunks(v, k, sizes)
  {
    JobChunksAre(v, k, sizes);
    FlattenSnoc(runs, JobChunks(v, k, sizes));
  }

  lemma PiecesNext(jobs: seq<Visit>, sizes: ReadSizes)
    requires jobs != []
    ensures var n := |jobs| - 1;
      Pieces(jobs, sizes)
      == if Carries(jobs[n]) then Pieces(jobs[..n], sizes) + [JobChunks(jobs[n], n, sizes)]
         else Pieces(jobs[..n], sizes)
  {
  }

  lemma FlattenSnoc(runs: seq<seq<FileChunk>>, run: seq<FileChunk>)
    ensures Flatten(runs + [run]) == Flatten(runs) + run
  {
    assert (runs + [run])[..|runs|] == runs;
  }

  /** Non-empty runs, each of one path, and none of a symlink. */
  ghost predicate GoodRuns(runs: seq<seq<FileChunk>>) {
    && (forall i :: 0 <= i < |runs| ==> runs[i] != [])
    && (forall i, j :: 0 <= i < |runs| && 0 <= j < |runs[i]| ==>
          PathOf(runs[i][j]) == PathOf(runs[i][0]) && runs[i][j].fileType != 3)
    && (forall i :: 0 <= i < |runs| - 1 ==> PathOf(runs[i][0]) != PathOf(runs[i + 1][0]))
  }

  function PathAtEnd(runs: seq<seq<FileChunk>>): Option<string>
    requires forall i :: 0 <= i < |runs| ==> runs[i] != []
  {
    if runs == [] then None else Some(PathOf(runs[|runs| - 1][0]))
  }

  lemma GoodRunsSnoc(runs: seq<seq<FileChunk>>, run: seq<FileChunk>, v: Visit)
    requires GoodRuns(runs) && run != [] && forall c :: c in run ==> ChunkOf(c, v)
    requires PathAtEnd(runs) != Some(Target(v))
    ensures GoodRuns(runs + [run]) && PathAtEnd(runs + [run]) == Some(Target(v))
  {
    var all := runs + [run];
    assert run[0] in run && all[|runs|] == run;
    forall i | 0 <= i < |all| - 1
      ensures PathOf(all[i][0]) != PathOf(all[i + 1][0])
    {
      assert run[0] in run;
      if i + 1 < |runs| { assert all[i + 1] == runs[i + 1]; }
    }
    forall i, j | 0 <= i < |all| && 0 <= j < |all[i]|
      ensures PathOf(all[i][j]) == PathOf(all[i][0]) && all[i][j].fileType != 3
    {
      if i == |runs| { assert run[j] in run && run[0] in run; }
    }
  }

  lemma NeighboursInFront(jobs: seq<Visit>, n: nat, i: int, j: int)
    requires n <= |jobs| && Neighbours(jobs[..n], i, j)
    ensures Neighbours(jobs, i, j)
  {
    var front := jobs[..n];
    forall x | i < x < j
      ensures !Carries(jobs[x])
    {
      assert front[x] == jobs[x];
    }
  }

  lemma OpenFront(jobs: seq<Visit>, n: nat)
    requires n <= |jobs| && AllOpen(jobs)
    ensures AllOpen(jobs[..n])
  {
    var front := jobs[..n];
    forall j | 0 <= j < |front| && Carries(front[j])
      ensures Opens(front, j)
    {
      assert jobs[j] == front[j];
      forall i | Neighbours(front, i, j)
        ensures Target(front[i]) != Target(front[j])
      {
        NeighboursInFront(jobs, n, i, j);
        assert jobs[i] == front[i];
      }
    }
  }

  lemma {:induction false} PiecesAreRuns(jobs: seq<Visit>, sizes: ReadSizes)
    requires AllOpen(jobs)
    ensures GoodRuns(Pieces(jobs, sizes)) && PathAtEnd(Pieces(jobs, sizes)) == LastPath(jobs)
  {
    if jobs == [] {
    } else {
      var n := |jobs| - 1;
      OpenFront(jobs, n);
      PiecesAreRuns(jobs[..n], sizes);
      if Carries(jobs[n]) {
        JobChunksAre(jobs[n], n, sizes);
        assert Opens(jobs, n);
        LastPathIsNeighbour(jobs, n, n);
        GoodRunsSnoc(Pieces(jobs[..n], sizes), JobChunks(jobs[n], n, sizes), jobs[n]);
      }
    }
  }

  lemma {:induction false} NoSymlinks(chunks: seq<FileChunk>)
    requires forall c :: c in chunks ==> c.fileType != 3
    ensures WithoutSymlinks(chunks) == chunks
  {
    if chunks == [] {
    } else {
      assert chunks[0] in chunks;
      NoSymlinks(chunks[1..]);
    }
  }

  lemma {:induction false} FlattenHas(runs: seq<seq<FileChunk>>, c: FileChunk)
    requires c in Flatten(runs)
    ensures exists i, j :: 0 <= i < |runs| && 0 <= j < |runs[i]| && runs[i][j] == c
  {
    var n := |runs| - 1;
    if c in runs[n] {
      assert exists j :: 0 <= j < |runs[n]| && runs[n][j] == c;
    } else {
      FlattenHas(runs[..n], c);
      var i, j :| 0 <= i < n && 0 <= j < |runs[i]| && runs[i][j] == c;
    }
  }

  /** The maximal runs of the sender's stream are exactly its jobs. */
  lemma StreamSplits(jobs: seq<Visit>, sizes: ReadSizes)
    requires AllOpen(jobs)
    ensures IsRunSplit(WithoutSymlinks(Stream(jobs, 0, sizes)), Pieces(jobs, sizes))
  {
    PiecesMakeStream(jobs, sizes);
    PiecesAreRuns(jobs, sizes);
    forall c | c in Stream(jobs, 0, sizes)
      ensures c.fileType != 3
    {
      FlattenHas(Pieces(jobs, sizes), c);
    }
    NoSymlinks(Stream(jobs, 0, sizes));
  }

  /** The number of the last non-empty file at a path. */
  function LastFile(jobs: seq<Visit>, p: string): (r: Option<nat>)
    ensures r.Some? ==> r.value < |jobs| && IsFullFile(jobs[r.value], p)
  {
    if jobs == [] then None
    else if IsFullFile(jobs[|jobs| - 1], p) then Some(|jobs| - 1)
    else LastFile(jobs[..|jobs| - 1], p)
  }

  lemma {:induction false} LastFileIs(jobs: seq<Visit>, p: string)
    ensures forall j :: LastAt(jobs, j, p) ==> LastFile(jobs, p) == Some(j)
    ensures LastFile(jobs, p).None? ==> !FileTarget(jobs, p)
    ensures LastFile(jobs, p).Some? ==> FileTarget(jobs, p)
  {
    if jobs == [] {
    } else {
      var front, v := jobs[..|jobs| - 1], jobs[|jobs| - 1];
      assert jobs == front + [v];
      LastFileIs(front, p);
      FileTargetSnoc(front, v, p);
      if !IsFullFile(v, p) {
        LastAtSnoc(front, v, p);
      }
    }
  }

  ghost predicate NonEmptyRuns(runs: seq<seq<FileChunk>>) {
    forall i :: 0 <= i < |runs| ==> runs[i] != []
  }

  lemma {:induction false} PiecesAreNotEmpty(jobs: seq<Visit>, sizes: ReadSizes)
    ensures NonEmptyRuns(Pieces(jobs, sizes))
  {
    if jobs == [] {
    } else {
      PiecesAreNotEmpty(jobs[..|jobs| - 1], sizes);
      JobChunksAre(jobs[|jobs| - 1], |jobs| - 1, sizes);
    }
  }

  function RunOf(jobs: seq<Visit>, sizes: ReadSizes, j: Option<nat>): Option<seq<FileChunk>>
    requires j.Some? ==> j.value < |jobs|
  {
    match j
    case None => None
    case Some(i) => Some(JobChunks(jobs[i], i, sizes))
  }

  lemma LastPieceNext(front: seq<Visit>, v: Visit, sizes: ReadSizes, p: string, runs: seq<seq<FileChunk>>)
    requires NonEmptyRuns(runs) && LastRun(runs, p) == RunOf(front, sizes, LastFile(front, p))
    requires LastFile(front + [v], p) == if IsFullFile(v, p) then Some(|front|) else LastFile(front, p)
    ensures var more := if Carries(v) then runs + [JobChunks(v, |front|, sizes)] else runs;
      NonEmptyRuns(more) && LastRun(more, p) == RunOf(front + [v], sizes, LastFile(front + [v], p))
  {
    JobChunksAre(v, |front|, sizes);
    if Carries(v) {
      LastRunSnoc(runs, JobChunks(v, |front|, sizes), v, p);
    }
  }

  /** The last run that opens a file at a path is that of the last non-empty file there. */
  lemma {:induction false} LastPiece(jobs: seq<Visit>, sizes: ReadSizes, p: string)
    ensures NonEmptyRuns(Pieces(jobs, sizes))
    ensures LastRun(Pieces(jobs, sizes), p) == RunOf(jobs, sizes, LastFile(jobs, p))
  {
    PiecesAreNotEmpty(jobs, sizes);
    if jobs == [] {
    } else {
      var front, v := jobs[..|jobs| - 1], jobs[|jobs| - 1];
      assert jobs == front + [v];
      LastPiece(front, sizes, p);
      PiecesNext(jobs, sizes);
      LastPieceNext(front, v, sizes, p, Pieces(front, sizes));
    }
  }

  lemma LastRunSnoc(runs: seq<seq<FileChunk>>, run: seq<FileChunk>, v: Visit, p: string)
    requires (forall i :: 0 <= i < |runs| ==> runs[i] != []) && run != []
    requires Carries(v) && forall c :: c in run ==> ChunkOf(c, v)
    ensures LastRun(runs + [run], p) == if IsFullFile(v, p) then Some(run) else LastRun(runs, p)
  {
    assert run[0] in run;
    LastRunNext(runs, run, p);
  }

  lemma {:induction false} BytesOfPieces(jobs: seq<Visit>, sizes: ReadSizes)
    ensures NonEmptyRuns(Pieces(jobs, sizes))
    ensures BytesOf(Pieces(jobs, sizes)) == TotalData(jobs)
  {
    PiecesAreNotEmpty(jobs, sizes);
    if jobs == [] {
    } else {
      var front, v := jobs[..|jobs| - 1], jobs[|jobs| - 1];
      assert jobs == front + [v];
      BytesOfPieces(front, sizes);
      DeliverAllSnoc(EMPTY_DEST, front, v);
      PiecesNext(jobs, sizes);
      PieceBytes(Pieces(front, sizes), v, |front|, sizes);
    }
  }

  lemma PieceBytes(runs: seq<seq<FileChunk>>, v: Visit, k: nat, sizes: ReadSizes)
    requires NonEmptyRuns(runs)
    ensures var more := if Carries(v) then runs + [JobChunks(v, k, sizes)] else runs;
      NonEmptyRuns(more) && BytesOf(more) == BytesOf(runs) + JobBytes(v)
  {
    JobChunksAre(v, k, sizes);
    if Carries(v) {
      BytesOfSnoc(runs, JobChunks(v, k, sizes), v, k, sizes);
    }
  }

  lemma BytesOfSnoc(runs: seq<seq<FileChunk>>, run: seq<FileChunk>, v: Visit, k: nat, sizes: ReadSizes)
    requires (forall i :: 0 <= i < |runs| ==> runs[i] != []) && run != []
    requires run == JobChunks(v, k, sizes) && forall c :: c in run ==> ChunkOf(c, v)
    ensures BytesOf(runs + [run]) == BytesOf(runs) + JobBytes(v)
  {
    assert run[0] in run;
    BytesOfNext(runs, run);
    if v.node.File? {
      FileChunksHoldFile(v, k, sizes, 0);
    }
  }

  // ----- main results -----

  ghost predicate PathsInside(jobs: seq<Visit>, inside: string -> bool) {
    forall j :: 0 <= j < |jobs| && ContainsDotDot(Target(jobs[j])) ==> inside(Target(jobs[j]))
  }

  lemma StreamIsSafe(jobs: seq<Visit>, sizes: ReadSizes, inside: string -> bool)
    requires AllOpen(jobs) && PathsInside(jobs, inside)
    ensures Safe(Stream(jobs, 0, sizes), inside)
  {
    forall i | 0 <= i < |Stream(jobs, 0, sizes)|
      ensures ContainsDotDot(PathOf(Stream(jobs, 0, sizes)[i])) ==> inside(PathOf(Stream(jobs, 0, sizes)[i]))
    {
      var j := StreamHas(jobs, sizes, Stream(jobs, 0, sizes)[i]);
    }
  }

  lemma {:induction false} StreamHas(jobs: seq<Visit>, sizes: ReadSizes, c: FileChunk) returns (j: nat)
    requires c in Stream(jobs, 0, sizes)
    ensures j < |jobs| && PathOf(c) == Target(jobs[j])
  {
    var n := |jobs| - 1;
    var front, v := jobs[..n], jobs[n];
    assert jobs == front + [v];
    StreamSnoc(front, v, 0, sizes);
    if c in JobChunks(v, n, sizes) {
      JobChunksAre(v, n, sizes);
      j := n;
    } else {
      j := StreamHas(front, sizes, c);
    }
  }

  /** What the sender's stream leaves on disk, when each job turns to its own path: of the non-empty files that share a
      path the last one, complete and with its own time; files at all other paths as they were; all bytes counted. */
  lemma DiskOutcome(dest: Dest, jobs: seq<Visit>, sizes: ReadSizes, inside: string -> bool)
    requires AllOpen(jobs) && PathsInside(jobs, inside)
    ensures var r := FoldOnDisk(At(dest), Stream(jobs, 0, sizes), inside);
      && r.Ok? && r.value.bytes == TotalData(jobs)
      && var files := Close(r.value).dest.files;
      && (forall j, p :: LastAt(jobs, j, p) ==> p in files && files[p] == Arrival(jobs[j], |jobs[j].node.data|))
      && (forall p :: !FileTarget(jobs, p) ==>
            (p in files <==> p in dest.files) && (p in files ==> files[p] == dest.files[p]))
  {
    var runs := Pieces(jobs, sizes);
    StreamSplits(jobs, sizes);
    StreamIsSafe(jobs, sizes, inside);
    StreamDenotation(dest, Stream(jobs, 0, sizes), runs, inside);
    BytesOfPieces(jobs, sizes);
    var files := Close(FoldOnDisk(At(dest), Stream(jobs, 0, sizes), inside).value).dest.files;
    forall j, p | LastAt(jobs, j, p)
      ensures p in files && files[p] == Arrival(jobs[j], |jobs[j].node.data|)
    {
      LastFileIs(jobs, p);
      LastPiece(jobs, sizes, p);
      FileOfJob(jobs[j], j, sizes);
    }
    forall p | !FileTarget(jobs, p)
      ensures (p in files <==> p in dest.files) && (p in files ==> files[p] == dest.files[p])
    {
      LastFileIs(jobs, p);
      LastPiece(jobs, sizes, p);
    }
  }

  /**
   A well-named forest received on disk, into any destination: every reachable non-empty file is complete at its own
   path with its own time, whatever file was there, and every other file is as before.
   */
  lemma DiskRoundTrip(forest: seq<Tree>, dest: Dest, sizes: ReadSizes, inside: string -> bool)
    requires WellNamed(forest)
    ensures var r := FoldOnDisk(At(dest), Stream(ForestJobs(forest, 0), 0, sizes), inside);
      && r.Ok? && r.value.bytes == TotalData(ForestJobs(forest, 0))
      && var files := Close(r.value).dest.files;
      && (forall addr, p :: FilePlace(forest, addr, p) ==>
            var v := Find(forest, addr).value; p in files && files[p] == Arrival(v, |v.node.data|))
      && (forall p :: (forall addr :: !FilePlace(forest, addr, p)) ==>
            (p in files <==> p in dest.files) && (p in files ==> files[p] == dest.files[p]))
  {
    var jobs := ForestJobs(forest, 0);
    JobsAreSeparate(forest);
    ForestJobsAreTheForest(forest, 0);
    DiskOutcome(dest, jobs, sizes, inside);
    forall addr, p | FilePlace(forest, addr, p)
      ensures LastAt(jobs, JobNumber(forest, jobs, addr), p)
      ensures jobs[JobNumber(forest, jobs, addr)] == Find(forest, addr).value
    {
      OnlyFileAt(forest, jobs, addr, p);
    }
    forall p | forall addr :: !FilePlace(forest, addr, p)
      ensures !FileTarget(jobs, p)
    {
      SomeFileAt(forest, jobs, p);
    }
  }

  /** The number of the job for a place. */
  ghost function JobNumber(forest: seq<Tree>, jobs: seq<Visit>, addr: seq<nat>): (j: nat)
    requires ListsPlaces(forest, 0, jobs) && Place(forest, addr)
    ensures j < |jobs| && jobs[j] == Find(forest, addr).value
  {
    AddressPrefix(forest, addr);
    var j :| 0 <= j < |jobs| && jobs[j] == Find(forest, addr).value;
    j
  }

  lemma OnlyFileAt(forest: seq<Tree>, jobs: seq<Visit>, addr: seq<nat>, p: string)
    requires ListsPlaces(forest, 0, jobs) && Separate(jobs) && FilePlace(forest, addr, p)
    ensures LastAt(jobs, JobNumber(forest, jobs, addr), p)
  {
  }

  lemma SomeFileAt(forest: seq<Tree>, jobs: seq<Visit>, p: string)
    requires ListsPlaces(forest, 0, jobs)
    ensures FileTarget(jobs, p) ==> exists addr :: FilePlace(forest, addr, p)
  {
    if FileTarget(jobs, p) {
      var j :| 0 <= j < |jobs| && jobs[j].node.File? && jobs[j].node.data != [] && Target(jobs[j]) == p;
      assert FilePlace(forest, jobs[j].addr, p);
    }
  }
}
