/**
 From the source forest to the destination: what arrives when the whole stream
 is received, and what is there when the stream is cut anywhere.
 */
module Pipeline {
  import opened Common
  import opened Paths
  import opened SourceTree
  import opened WalkDir
  import opened Transfers
  import opened SendPlan
  import opened ReceiveSpec

  /** Where the receiver puts a node. */
  function Target(v: Visit): string { Sanitize(v.Rel()) }

  /** A file as it should arrive; the first `len` bytes of it when it is cut. */
  function Arrival(v: Visit, len: nat): FileData
    requires v.node.File? && len <= |v.node.data|
  {
    FileData(v.node.data[..len], Arrived(v.node.modified))
  }

  function Deliver(dest: Dest, v: Visit): Dest {
    match v.node
    case Dir(_, _, _, _) => dest.(dirs := dest.dirs + {Target(v)})
    case File(_, _, data, _) =>
      if data == [] then dest else dest.(files := dest.files[Target(v) := Arrival(v, |data|)])
  }

  function DeliverAll(dest: Dest, jobs: seq<Visit>): Dest
    decreases |jobs|
  {
    if jobs == [] then dest else DeliverAll(Deliver(dest, jobs[0]), jobs[1..])
  }

  function TotalData(jobs: seq<Visit>): nat {
    if jobs == [] then 0
    else (if jobs[0].node.File? then |jobs[0].node.data| else 0) + TotalData(jobs[1..])
  }

  /** No two jobs share a target, and no target is unsafe. */
  ghost predicate Separate(jobs: seq<Visit>) {
    && (forall i, j :: 0 <= i < j < |jobs| ==> Target(jobs[i]) != Target(jobs[j]))
    && (forall i :: 0 <= i < |jobs| ==> !ContainsDotDot(Target(jobs[i])))
  }

  /** Nothing of the other kind is in the way of a job. */
  ghost predicate Room(dest: Dest, v: Visit) {
    if v.node.Dir? then Target(v) !in dest.files else v.node.data != [] ==> Target(v) !in dest.dirs
  }

  // ----- one file -----

  lemma WriteTwice(s: Recv, a: seq<byte>, b: seq<byte>)
    requires s.file.Some? && s.file.value in s.dest.files
    ensures Write(Write(s, a), b) == Write(s, a + b)
  {
    var before := s.dest.files[s.file.value].bytes;
    assert (before + a) + b == before + (a + b);
  }

  lemma WriteSlices(s: Recv, data: seq<byte>, a: nat, b: nat, c: nat)
    requires s.file.Some? && s.file.value in s.dest.files && a <= b <= c <= |data|
    ensures Write(Write(s, data[a..b]), data[b..c]) == Write(s, data[a..c])
  {
    WriteTwice(s, data[a..b], data[b..c]);
    assert data[a..b] + data[b..c] == data[a..c];
  }

  lemma WriteNothing(s: Recv)
    ensures Write(s, []) == s
  {
    if s.file.Some? && s.file.value in s.dest.files {
      assert s.dest.files[s.file.value].bytes + [] == s.dest.files[s.file.value].bytes;
    }
  }

  lemma TakeAfterFirst<T>(c: T, rest: seq<T>, m: nat)
    requires 0 < m <= 1 + |rest|
    ensures ([c] + rest)[..m] == [c] + rest[..m - 1]
  {
  }

  lemma FoldFirst(s: Recv, c: FileChunk, rest: seq<FileChunk>)
    requires Step(s, c).Ok?
    ensures Fold(s, [c] + rest) == Fold(Step(s, c).value, rest)
  {
    assert ([c] + rest)[1..] == rest;
  }

  /** A chunk under the current path is appended to the open file. */
  lemma StepAppends(s: Recv, v: Visit, off: nat, n: nat)
    requires v.node.File? && off + n <= |v.node.data|
    requires !ContainsDotDot(Target(v)) && s.path == Some(Target(v))
    ensures Step(s, DataChunk(v, off, n)) == Ok(Write(s, v.node.data[off..off + n]))
  {
  }

  /** The first `m` chunks from offset `off` on have appended the file's bytes up to `end`. */
  ghost predicate Appended(s: Recv, v: Visit, k: nat, sizes: ReadSizes, off: nat, m: nat, end: nat)
    requires v.node.File? && off <= |v.node.data| && m <= |FileChunks(v, k, sizes, off)|
  {
    && off <= end <= |v.node.data|
    && (m == |FileChunks(v, k, sizes, off)| ==> end == |v.node.data|)
    && Fold(s, FileChunks(v, k, sizes, off)[..m]) == Ok(Write(s, v.node.data[off..end]))
  }

  lemma AppendedNext(s: Recv, v: Visit, k: nat, sizes: ReadSizes, off: nat, m: nat, end: nat)
    requires v.node.File? && off < |v.node.data| && 0 < m <= |FileChunks(v, k, sizes, off)|
    requires !ContainsDotDot(Target(v))
    requires s.path == Some(Target(v)) && s.file == s.path && s.file.value in s.dest.files
    requires var n := ReadLen(sizes, k, off, |v.node.data| - off);
      Appended(Write(s, v.node.data[off..off + n]), v, k, sizes, off + n, m - 1, end)
    ensures Appended(s, v, k, sizes, off, m, end)
  {
    var n := ReadLen(sizes, k, off, |v.node.data| - off);
    StepAppends(s, v, off, n);
    FoldFirst(s, DataChunk(v, off, n), FileChunks(v, k, sizes, off + n)[..m - 1]);
    TakeAfterFirst(DataChunk(v, off, n), FileChunks(v, k, sizes, off + n), m);
    WriteSlices(s, v.node.data, off, off + n, end);
  }

  /** The first `m` chunks from an offset on append the next bytes of the file; all chunks append all of them. */
  lemma {:induction false} AppendChunks(s: Recv, v: Visit, k: nat, sizes: ReadSizes, off: nat, m: nat)
    requires v.node.File? && off <= |v.node.data| && m <= |FileChunks(v, k, sizes, off)|
    requires !ContainsDotDot(Target(v))
    requires s.path == Some(Target(v)) && s.file == s.path && s.file.value in s.dest.files
    ensures exists end :: Appended(s, v, k, sizes, off, m, end)
    decreases |v.node.data| - off
  {
    var chunks := FileChunks(v, k, sizes, off);
    if m == 0 {
      assert chunks[..m] == [] && v.node.data[off..off] == [];
      WriteNothing(s);
      assert Appended(s, v, k, sizes, off, m, off);
    } else {
      var n := ReadLen(sizes, k, off, |v.node.data| - off);
      var t := Write(s, v.node.data[off..off + n]);
      AppendChunks(t, v, k, sizes, off + n, m - 1);
      var end :| Appended(t, v, k, sizes, off + n, m - 1, end);
      AppendedNext(s, v, k, sizes, off, m, end);
    }
  }

  /** What is at the destination after the first `m > 0` chunks of a job, if the job is closed there. */
  function PartOf(dest: Dest, v: Visit, len: nat): Dest
    requires v.node.File? ==> len <= |v.node.data|
  {
    if v.node.Dir? then Deliver(dest, v)
    else dest.(files := dest.files[Target(v) := Arrival(v, len)])
  }

  /** The first chunk of a file brings `n` bytes, and opens the file with them. */
  ghost predicate FirstChunk(s: Recv, v: Visit, k: nat, sizes: ReadSizes, n: nat)
    requires v.node.File?
  {
    && 0 < n <= |v.node.data|
    && FileChunks(v, k, sizes, 0) == [DataChunk(v, 0, n)] + FileChunks(v, k, sizes, n)
    && Step(s, DataChunk(v, 0, n))
       == Ok(Write(Begin(s, Target(v), StampOf(v.node.modified), FileKind), v.node.data[..n]))
  }

  lemma OpenFirstChunk(s: Recv, v: Visit, k: nat, sizes: ReadSizes)
    requires s.Consistent() && v.node.File? && v.node.data != []
    requires s.path != Some(Target(v)) && !ContainsDotDot(Target(v)) && Room(s.dest, v)
    ensures exists n :: FirstChunk(s, v, k, sizes, n)
  {
    var n := ReadLen(sizes, k, 0, |v.node.data|);
    assert v.node.data[0..n] == v.node.data[..n];
    assert FirstChunk(s, v, k, sizes, n);
  }

  /** Closing after some data of a freshly opened file. */
  lemma CloseAfter(s: Recv, v: Visit, len: nat)
    requires s.Consistent() && v.node.File? && len <= |v.node.data|
    ensures var t := Write(Begin(s, Target(v), StampOf(v.node.modified), FileKind), v.node.data[..len]);
      && t.Consistent() && t.file == Some(Target(v)) && t.path == t.file
      && Close(t).dest == PartOf(Close(s).dest, v, len)
      && t.bytes == s.bytes + len
  {
    if v.node.modified.Some? {
      StampRoundTrip(v.node.modified.value);
    }
    assert [] + v.node.data[..len] == v.node.data[..len];
  }

  /** The first `m` chunks of a file have opened it and written its first `len` bytes. */
  ghost predicate OpenedWith(s: Recv, v: Visit, k: nat, sizes: ReadSizes, m: nat, len: nat)
    requires v.node.File? && m <= |FileChunks(v, k, sizes, 0)|
  {
    && len <= |v.node.data| && (m == |FileChunks(v, k, sizes, 0)| ==> len == |v.node.data|)
    && Fold(s, FileChunks(v, k, sizes, 0)[..m])
       == Ok(Write(Begin(s, Target(v), StampOf(v.node.modified), FileKind), v.node.data[..len]))
  }

  /** The first `m > 0` chunks of a file, received after anything that does not have its path open. */
  lemma PartOfFile(s: Recv, v: Visit, k: nat, sizes: ReadSizes, m: nat)
    requires s.Consistent() && v.node.File? && 0 < m <= |FileChunks(v, k, sizes, 0)|
    requires s.path != Some(Target(v)) && !ContainsDotDot(Target(v)) && Room(s.dest, v)
    ensures exists len :: OpenedWith(s, v, k, sizes, m, len)
  {
    OpenFirstChunk(s, v, k, sizes);
    var n :| FirstChunk(s, v, k, sizes, n);
    var t := Step(s, DataChunk(v, 0, n)).value;
    CloseAfter(s, v, n);
    AppendChunks(t, v, k, sizes, n, m - 1);
    var len :| Appended(t, v, k, sizes, n, m - 1, len);
    FoldFirst(s, DataChunk(v, 0, n), FileChunks(v, k, sizes, n)[..m - 1]);
    TakeAfterFirst(DataChunk(v, 0, n), FileChunks(v, k, sizes, n), m);
    assert forall i :: 0 <= i <= |v.node.data| ==> v.node.data[0..i] == v.node.data[..i];
    WriteSlices(Begin(s, Target(v), StampOf(v.node.modified), FileKind), v.node.data, 0, n, len);
    assert OpenedWith(s, v, k, sizes, m, len);
  }

  lemma WholeFile(s: Recv, v: Visit, k: nat, sizes: ReadSizes)
    requires s.Consistent() && v.node.File? && v.node.data != []
    requires s.path != Some(Target(v)) && !ContainsDotDot(Target(v)) && Room(s.dest, v)
    ensures Fold(s, FileChunks(v, k, sizes, 0))
         == Ok(Write(Begin(s, Target(v), StampOf(v.node.modified), FileKind), v.node.data))
  {
    var chunks := FileChunks(v, k, sizes, 0);
    PartOfFile(s, v, k, sizes, |chunks|);
    assert chunks[..|chunks|] == chunks && v.node.data[..|v.node.data|] == v.node.data;
  }

  /** The first `m` chunks of a job, `len` bytes of it. */
  ghost predicate ReceivedPart(s: Recv, v: Visit, k: nat, sizes: ReadSizes, m: nat, len: nat)
    requires m <= |JobChunks(v, k, sizes)|
  {
    var r := Fold(s, JobChunks(v, k, sizes)[..m]);
    && (if v.node.Dir? || m == 0 then len == 0 else len <= |v.node.data|)
    && (v.node.File? && m == |JobChunks(v, k, sizes)| ==> len == |v.node.data|)
    && r.Ok?
    && r.value.Consistent()
    && Close(r.value).dest == (if m == 0 then Close(s).dest else PartOf(Close(s).dest, v, len))
    && r.value.bytes == s.bytes + len
    && r.value.path == (if m == 0 then s.path else Some(Target(v)))
  }

  /** The first `m` chunks of one job, received after anything that does not have its path open. */
  lemma PartOfJob(s: Recv, v: Visit, k: nat, sizes: ReadSizes, m: nat)
    requires s.Consistent() && m <= |JobChunks(v, k, sizes)|
    requires s.path != Some(Target(v)) && !ContainsDotDot(Target(v)) && Room(s.dest, v)
    ensures exists len :: ReceivedPart(s, v, k, sizes, m, len)
  {
    var chunks := JobChunks(v, k, sizes);
    if m == 0 {
      assert chunks[..m] == [];
      assert ReceivedPart(s, v, k, sizes, m, 0);
    } else if v.node.Dir? {
      assert chunks[..m] == [DirChunk(v)] && [DirChunk(v)][1..] == [];
      assert Fold(Step(s, DirChunk(v)).value, []) == Step(s, DirChunk(v));
      assert ReceivedPart(s, v, k, sizes, m, 0);
    } else {
      PartOfFile(s, v, k, sizes, m);
      var len :| OpenedWith(s, v, k, sizes, m, len);
      CloseAfter(s, v, len);
      assert ReceivedPart(s, v, k, sizes, m, len);
    }
  }

  ghost predicate ReceivedWhole(s: Recv, v: Visit, t: Recv) {
    && t.Consistent()
    && Close(t).dest == Deliver(Close(s).dest, v)
    && t.bytes == s.bytes + (if v.node.File? then |v.node.data| else 0)
    && (t.path == s.path || t.path == Some(Target(v)))
  }

  lemma WholeJob(s: Recv, v: Visit, k: nat, sizes: ReadSizes)
    requires s.Consistent() && s.path != Some(Target(v)) && !ContainsDotDot(Target(v)) && Room(s.dest, v)
    ensures exists t :: Fold(s, JobChunks(v, k, sizes)) == Ok(t) && ReceivedWhole(s, v, t)
  {
    var chunks := JobChunks(v, k, sizes);
    PartOfJob(s, v, k, sizes, |chunks|);
    var len :| ReceivedPart(s, v, k, sizes, |chunks|, len);
    assert chunks[..|chunks|] == chunks;
    if v.node.File? {
      assert |chunks| == 0 <==> v.node.data == [];
    }
    assert ReceivedWhole(s, v, Fold(s, chunks).value);
  }

  // ----- the whole stream -----

  lemma SeparateTail(jobs: seq<Visit>)
    requires Separate(jobs) && jobs != []
    ensures Separate(jobs[1..])
    ensures forall i :: 0 <= i < |jobs[1..]| ==> Target(jobs[1..][i]) != Target(jobs[0])
  {
  }

  /** A receiver that has none of the jobs' paths open and nothing in their way. */
  ghost predicate Ready(s: Recv, jobs: seq<Visit>) {
    && s.Consistent() && Separate(jobs)
    && forall i :: 0 <= i < |jobs| ==> s.path != Some(Target(jobs[i])) && Room(s.dest, jobs[i])
  }

  lemma ReadyAfter(s: Recv, jobs: seq<Visit>, t: Recv)
    requires Ready(s, jobs) && jobs != [] && t.Consistent()
    requires t.path == s.path || t.path == Some(Target(jobs[0]))
    requires Close(t).dest == Deliver(Close(s).dest, jobs[0])
    ensures Ready(t, jobs[1..])
  {
    SeparateTail(jobs);
    CloseKeepsPaths(s);
    CloseKeepsPaths(t);
    forall i | 0 <= i < |jobs[1..]|
      ensures t.path != Some(Target(jobs[1..][i])) && Room(t.dest, jobs[1..][i])
    {
      assert jobs[1..][i] == jobs[i + 1];
    }
  }

  /** Receiving the full stream delivers every job, and counts exactly its bytes. */
  lemma {:induction false} ReceiveAll(s: Recv, jobs: seq<Visit>, k: nat, sizes: ReadSizes)
    requires Ready(s, jobs)
    ensures var r := Fold(s, Stream(jobs, k, sizes));
      && r.Ok?
      && Close(r.value).dest == DeliverAll(Close(s).dest, jobs)
      && r.value.bytes == s.bytes + TotalData(jobs)
    decreases |jobs|
  {
    if jobs == [] {
    } else {
      WholeJob(s, jobs[0], k, sizes);
      var t := Fold(s, JobChunks(jobs[0], k, sizes)).value;
      ReadyAfter(s, jobs, t);
      FoldAppend(s, JobChunks(jobs[0], k, sizes), Stream(jobs[1..], k + 1, sizes));
      ReceiveAll(t, jobs[1..], k + 1, sizes);
    }
  }

  /** A destination at which the jobs before number `i` are delivered and number `i` at most in part. */
  ghost predicate CutState(start: Dest, jobs: seq<Visit>, i: nat, d: Dest) {
    && i <= |jobs|
    && var done := DeliverAll(start, jobs[..i]);
    d == done
    || (i < |jobs| && jobs[i].node.File?
        && exists len :: 0 <= len <= |jobs[i].node.data| && d == PartOf(done, jobs[i], len))
  }

  lemma CutStateNext(start: Dest, jobs: seq<Visit>, j: nat, d: Dest)
    requires jobs != [] && CutState(Deliver(start, jobs[0]), jobs[1..], j, d)
    ensures CutState(start, jobs, j + 1, d)
  {
    assert jobs[..j + 1][1..] == jobs[1..][..j];
    assert j + 1 < |jobs| ==> jobs[j + 1] == jobs[1..][j];
  }

  /** A cut inside the first job. */
  lemma CutInFirst(s: Recv, jobs: seq<Visit>, k: nat, sizes: ReadSizes, n: nat)
    requires Ready(s, jobs) && jobs != []
    requires n < |JobChunks(jobs[0], k, sizes)|
    ensures n <= |Stream(jobs, k, sizes)|
    ensures var r := Fold(s, Stream(jobs, k, sizes)[..n]);
      r.Ok? && CutState(Close(s).dest, jobs, 0, Close(r.value).dest)
  {
    var first, later := JobChunks(jobs[0], k, sizes), Stream(jobs[1..], k + 1, sizes);
    assert (first + later)[..n] == first[..n];
    PartOfJob(s, jobs[0], k, sizes, n);
    var len :| ReceivedPart(s, jobs[0], k, sizes, n, len);
    assert jobs[..0] == [];
  }

  /** From `t` on, after the first job, receiving the stream cut at `n` goes on with the other jobs. */
  ghost predicate Continues(s: Recv, jobs: seq<Visit>, k: nat, sizes: ReadSizes, n: nat, t: Recv)
    requires jobs != [] && |JobChunks(jobs[0], k, sizes)| <= n <= |Stream(jobs, k, sizes)|
  {
    var later, m := Stream(jobs[1..], k + 1, sizes), n - |JobChunks(jobs[0], k, sizes)|;
    && m <= |later| && Fold(s, Stream(jobs, k, sizes)[..n]) == Fold(t, later[..m])
    && Ready(t, jobs[1..])
    && Close(t).dest == Deliver(Close(s).dest, jobs[0])
  }

  /** A cut after the first job is a cut of the rest, received after the first job. */
  lemma CutAfterFirst(s: Recv, jobs: seq<Visit>, k: nat, sizes: ReadSizes, n: nat)
    requires Ready(s, jobs) && jobs != []
    requires |JobChunks(jobs[0], k, sizes)| <= n <= |Stream(jobs, k, sizes)|
    ensures exists t :: Continues(s, jobs, k, sizes, n, t)
  {
    var first, later := JobChunks(jobs[0], k, sizes), Stream(jobs[1..], k + 1, sizes);
    assert (first + later)[..n] == first + later[..n - |first|];
    FoldAppend(s, first, later[..n - |first|]);
    WholeJob(s, jobs[0], k, sizes);
    var t := Fold(s, first).value;
    ReadyAfter(s, jobs, t);
    assert Continues(s, jobs, k, sizes, n, t);
  }

  /** Receiving any prefix of the stream stops inside at most one job. */
  lemma {:induction false} ReceiveSome(s: Recv, jobs: seq<Visit>, k: nat, sizes: ReadSizes, n: nat)
    requires Ready(s, jobs)
    requires n <= |Stream(jobs, k, sizes)|
    ensures exists t, i: nat ::
      Fold(s, Stream(jobs, k, sizes)[..n]) == Ok(t) && CutState(Close(s).dest, jobs, i, Close(t).dest)
    decreases |jobs|
  {
    if jobs == [] {
      assert Stream(jobs, k, sizes)[..n] == [];
      assert CutState(Close(s).dest, jobs, 0, Close(s).dest);
    } else if n < |JobChunks(jobs[0], k, sizes)| {
      CutInFirst(s, jobs, k, sizes, n);
    } else {
      CutAfterFirst(s, jobs, k, sizes, n);
      var t :| Continues(s, jobs, k, sizes, n, t);
      var m := n - |JobChunks(jobs[0], k, sizes)|;
      ReceiveSome(t, jobs[1..], k + 1, sizes, m);
      var u, j: nat :| Fold(t, Stream(jobs[1..], k + 1, sizes)[..m]) == Ok(u)
        && CutState(Close(t).dest, jobs[1..], j, Close(u).dest);
      CutStateNext(Close(s).dest, jobs, j, Close(u).dest);
    }
  }

  ghost predicate DirTarget(jobs: seq<Visit>, p: string) {
    exists j :: 0 <= j < |jobs| && jobs[j].node.Dir? && Target(jobs[j]) == p
  }

  ghost predicate FileTarget(jobs: seq<Visit>, p: string) {
    exists j :: 0 <= j < |jobs| && jobs[j].node.File? && jobs[j].node.data != [] && Target(jobs[j]) == p
  }

  /** The delivered jobs, path by path. */
  ghost predicate Holds(d: Dest, v: Visit) {
    if v.node.Dir? then Target(v) in d.dirs
    else v.node.data != [] ==> Target(v) in d.files && d.files[Target(v)] == Arrival(v, |v.node.data|)
  }

  /** What delivering some jobs leaves: all of them, nothing else, and other paths as they were. */
  ghost predicate DeliveredIn(start: Dest, jobs: seq<Visit>, d: Dest) {
    && start.dirs <= d.dirs
    && (forall j :: 0 <= j < |jobs| ==> Holds(d, jobs[j]))
    && (forall p :: p in d.dirs ==> p in start.dirs || DirTarget(jobs, p))
    && (forall p :: p in d.files ==> (p in start.files && d.files[p] == start.files[p]) || FileTarget(jobs, p))
    && (forall p :: p in start.files && NoTarget(jobs, p) ==> p in d.files && d.files[p] == start.files[p])
  }

  ghost predicate NoTarget(jobs: seq<Visit>, p: string) {
    forall j :: 0 <= j < |jobs| ==> Target(jobs[j]) != p
  }

  lemma TargetsCons(v: Visit, rest: seq<Visit>, p: string)
    ensures DirTarget([v] + rest, p) <==> (v.node.Dir? && Target(v) == p) || DirTarget(rest, p)
    ensures FileTarget([v] + rest, p) <==> (v.node.File? && v.node.data != [] && Target(v) == p) || FileTarget(rest, p)
    ensures NoTarget([v] + rest, p) <==> Target(v) != p && NoTarget(rest, p)
  {
    var jobs := [v] + rest;
    assert jobs[0] == v;
    assert forall j :: 0 <= j < |rest| ==> rest[j] == jobs[j + 1];
    assert forall j :: 0 < j < |jobs| ==> jobs[j] == rest[j - 1];
  }

  lemma DeliveredCons(start: Dest, v: Visit, rest: seq<Visit>, d: Dest)
    requires NoTarget(rest, Target(v)) && DeliveredIn(Deliver(start, v), rest, d)
    ensures DeliveredIn(start, [v] + rest, d)
  {
    var jobs := [v] + rest;
    forall p
      ensures DirTarget(jobs, p) <==> (v.node.Dir? && Target(v) == p) || DirTarget(rest, p)
      ensures FileTarget(jobs, p) <==> (v.node.File? && v.node.data != [] && Target(v) == p) || FileTarget(rest, p)
      ensures NoTarget(jobs, p) <==> Target(v) != p && NoTarget(rest, p)
    {
      TargetsCons(v, rest, p);
    }
    assert forall j :: 0 < j < |jobs| ==> jobs[j] == rest[j - 1];
  }

  lemma {:induction false} Delivered(start: Dest, jobs: seq<Visit>)
    requires Separate(jobs)
    ensures DeliveredIn(start, jobs, DeliverAll(start, jobs))
    decreases |jobs|
  {
    if jobs == [] {
    } else {
      var v, rest := jobs[0], jobs[1..];
      assert jobs == [v] + rest;
      SeparateTail(jobs);
      Delivered(Deliver(start, v), rest);
      DeliveredCons(start, v, rest, DeliverAll(start, jobs));
    }
  }

  // ----- the jobs of a forest -----

  /** The jobs are exactly the places of the sources from number `i` on, none of them twice. */
  ghost predicate ListsPlaces(forest: seq<Tree>, i: nat, jobs: seq<Visit>) {
    && (forall j :: 0 <= j < |jobs| ==> Find(forest, jobs[j].addr) == Some(jobs[j]))
    && (forall j :: 0 <= j < |jobs| ==> jobs[j].addr[0] >= i)
    && (forall a, b :: 0 <= a < b < |jobs| ==> jobs[a].addr != jobs[b].addr)
    && (forall addr {:trigger Place(forest, addr)} :: Place(forest, addr) && addr[0] >= i ==>
          Find(forest, addr).value in jobs)
  }

  lemma AppendPlaces(forest: seq<Tree>, i: nat, walk: seq<Visit>, rest: seq<Visit>)
    requires i < |forest| && walk == Bfs([Root(forest, i)])
    requires ListsPlaces(forest, i + 1, rest)
    ensures ListsPlaces(forest, i, walk + rest)
  {
    WalkIsLevelOrder(forest, i);
    var jobs := walk + rest;
    forall a, b | 0 <= a < b < |jobs|
      ensures jobs[a].addr != jobs[b].addr
    {
      if b < |walk| {
        assert Before(walk[a].addr, walk[b].addr);
      } else if a < |walk| {
        assert walk[a].addr[0] == i && rest[b - |walk|].addr[0] >= i + 1;
      } else {
        assert rest[a - |walk|].addr != rest[b - |walk|].addr;
      }
    }
    forall addr {:trigger Place(forest, addr)} | Place(forest, addr) && addr[0] >= i
      ensures Find(forest, addr).value in jobs
    {
      if addr[0] > i { assert Find(forest, addr).value in rest; }
    }
  }

  lemma NoPlacesBehind(forest: seq<Tree>)
    ensures ListsPlaces(forest, |forest|, [])
  {
    forall addr {:trigger Place(forest, addr)} | Place(forest, addr)
      ensures addr[0] < |forest|
    {
      AddressPrefix(forest, addr);
    }
  }

  lemma {:induction false} ForestJobsAreTheForest(forest: seq<Tree>, i: nat)
    requires i <= |forest|
    ensures ListsPlaces(forest, i, ForestJobs(forest, i))
    decreases |forest| - i
  {
    if i < |forest| {
      ForestJobsAreTheForest(forest, i + 1);
      AppendPlaces(forest, i, Bfs([Root(forest, i)]), ForestJobs(forest, i + 1));
    } else {
      NoPlacesBehind(forest);
    }
  }

  ghost predicate DirectoryEarlier(jobs: seq<Visit>, j: nat)
    requires j < |jobs|
  {
    jobs[j].base == "" || exists p :: 0 <= p < j && jobs[p].node.Dir? && jobs[p].Rel() == jobs[j].base
  }

  ghost predicate DirectoriesEarlier(jobs: seq<Visit>) {
    forall j :: 0 <= j < |jobs| ==> DirectoryEarlier(jobs, j)
  }

  lemma AppendDirectories(root: Visit, walk: seq<Visit>, rest: seq<Visit>)
    requires walk == Bfs([root]) && root.base == "" && DirectoriesEarlier(rest)
    ensures DirectoriesEarlier(walk + rest)
  {
    var jobs := walk + rest;
    forall j | 0 <= j < |jobs|
      ensures DirectoryEarlier(jobs, j)
    {
      if j < |walk| {
        ParentsFirst([root], j);
        if walk[j] !in [root] {
          var p :| 0 <= p < j && walk[p].node.Dir? && walk[j].base == walk[p].Rel();
          assert jobs[p] == walk[p];
        }
      } else {
        assert DirectoryEarlier(rest, j - |walk|);
        if jobs[j].base != "" {
          var p :| 0 <= p < j - |walk| && rest[p].node.Dir? && rest[p].Rel() == rest[j - |walk|].base;
          assert jobs[p + |walk|] == rest[p];
        }
      }
    }
  }

  lemma {:induction false} DirectoriesFirst(forest: seq<Tree>, i: nat)
    requires i <= |forest|
    ensures DirectoriesEarlier(ForestJobs(forest, i))
    decreases |forest| - i
  {
    if i == |forest| {
    } else {
      DirectoriesFirst(forest, i + 1);
      AppendDirectories(Root(forest, i), Bfs([Root(forest, i)]), ForestJobs(forest, i + 1));
    }
  }

  lemma ListedAreSeparate(forest: seq<Tree>, jobs: seq<Visit>)
    requires WellNamed(forest) && ListsPlaces(forest, 0, jobs)
    ensures Separate(jobs)
  {
    forall i | 0 <= i < |jobs| ensures !ContainsDotDot(Target(jobs[i])) {
      SanitizedPathIsSafe(forest, jobs[i].addr);
    }
    forall i, j | 0 <= i < j < |jobs| ensures Target(jobs[i]) != Target(jobs[j]) {
      if Target(jobs[i]) == Target(jobs[j]) {
        SanitizedPathsDiffer(forest, jobs[i].addr, jobs[j].addr);
      }
    }
  }

  lemma JobsAreSeparate(forest: seq<Tree>)
    requires WellNamed(forest)
    ensures Separate(ForestJobs(forest, 0))
  {
    ForestJobsAreTheForest(forest, 0);
    ListedAreSeparate(forest, ForestJobs(forest, 0));
  }

  // ----- main results -----

  /** The place is a directory, or a non-empty file, whose target is `p`. */
  ghost predicate DirPlace(forest: seq<Tree>, addr: seq<nat>, p: string) {
    Place(forest, addr) && var v := Find(forest, addr).value; v.node.Dir? && Target(v) == p
  }

  ghost predicate FilePlace(forest: seq<Tree>, addr: seq<nat>, p: string) {
    Place(forest, addr) && var v := Find(forest, addr).value; v.node.File? && v.node.data != [] && Target(v) == p
  }

  /** The forest as it should look at the destination, said place by place: all of it, and nothing else. */
  ghost predicate Mirrors(forest: seq<Tree>, d: Dest) {
    && (forall addr {:trigger Place(forest, addr)} :: Place(forest, addr) ==> Holds(d, Find(forest, addr).value))
    && (forall p :: p in d.dirs ==> exists addr :: DirPlace(forest, addr, p))
    && (forall p :: p in d.files ==> exists addr :: FilePlace(forest, addr, p))
  }

  lemma DeliveredMirrors(forest: seq<Tree>, jobs: seq<Visit>, d: Dest)
    requires ListsPlaces(forest, 0, jobs) && Separate(jobs) && d == DeliverAll(EMPTY_DEST, jobs)
    ensures Mirrors(forest, d)
  {
    Delivered(EMPTY_DEST, jobs);
    forall p | p in d.dirs
      ensures exists addr :: DirPlace(forest, addr, p)
    {
      assert DirTarget(jobs, p);
      var j :| 0 <= j < |jobs| && jobs[j].node.Dir? && Target(jobs[j]) == p;
      assert DirPlace(forest, jobs[j].addr, p);
    }
    forall p | p in d.files
      ensures exists addr :: FilePlace(forest, addr, p)
    {
      assert FileTarget(jobs, p);
      var j :| 0 <= j < |jobs| && jobs[j].node.File? && jobs[j].node.data != [] && Target(jobs[j]) == p;
      assert FilePlace(forest, jobs[j].addr, p);
    }
  }

  /**
   Walking, sending and receiving a well-named forest into an empty destination, with any pattern of short
   reads, is accepted throughout and reproduces every reachable directory and every non-empty file byte for
   byte with its own time stamp, and nothing else.
   */
  lemma RoundTrip(forest: seq<Tree>, sizes: ReadSizes)
    requires WellNamed(forest)
    ensures var r := Fold(FRESH, Stream(ForestJobs(forest, 0), 0, sizes));
      && r.Ok?
      && Mirrors(forest, Close(r.value).dest)
      && r.value.bytes == TotalData(ForestJobs(forest, 0))
  {
    JobsAreSeparate(forest);
    var jobs := ForestJobs(forest, 0);
    ReceiveAll(FRESH, jobs, 0, sizes);
    ForestJobsAreTheForest(forest, 0);
    DeliveredMirrors(forest, jobs, DeliverAll(EMPTY_DEST, jobs));
  }

  /** The job at `j` is there in part: a prefix of its bytes, under its own time stamp. */
  ghost predicate HoldsPrefix(d: Dest, v: Visit) {
    v.node.File? && Target(v) in d.files
    && exists len :: 0 <= len <= |v.node.data| && d.files[Target(v)] == Arrival(v, len)
  }

  /** `d` holds the jobs before number `i` completely, number `i` at most as a prefix, and nothing of the later ones. */
  ghost predicate CutAt(jobs: seq<Visit>, i: nat, d: Dest) {
    && i <= |jobs|
    && (forall j :: 0 <= j < i ==> Holds(d, jobs[j]))
    && (i < |jobs| && Target(jobs[i]) in d.files ==> HoldsPrefix(d, jobs[i]))
    && (forall p :: p in d.files ==> FileTarget(jobs[..i], p) || (i < |jobs| && p == Target(jobs[i])))
    && (forall p :: p in d.dirs ==> DirTarget(jobs[..i], p))
  }

  /** Whatever is at the destination has its parent directory there, and so all its ancestors. */
  ghost predicate ParentsPresent(jobs: seq<Visit>, d: Dest) {
    forall j :: 0 <= j < |jobs| && (Target(jobs[j]) in d.files || Target(jobs[j]) in d.dirs) ==>
      jobs[j].base == "" || Sanitize(jobs[j].base) in d.dirs
  }

  lemma CutStateIsCutAt(jobs: seq<Visit>, i: nat, d: Dest)
    requires Separate(jobs) && CutState(EMPTY_DEST, jobs, i, d)
    ensures CutAt(jobs, i, d)
  {
    var front := jobs[..i];
    Delivered(EMPTY_DEST, front);
    var done := DeliverAll(EMPTY_DEST, front);
    if i < |jobs| {
      assert !FileTarget(front, Target(jobs[i])) by {
        forall j | 0 <= j < |front| ensures Target(front[j]) != Target(jobs[i]) {
          assert front[j] == jobs[j];
        }
      }
    }
    forall j | 0 <= j < i
      ensures Holds(d, jobs[j])
    {
      assert Holds(done, front[j]);
    }
  }

  /** The job that accounts for something present at the destination is not behind the cut. */
  lemma PresentIsNotLater(jobs: seq<Visit>, i: nat, d: Dest, j: nat)
    requires Separate(jobs) && CutAt(jobs, i, d) && j < |jobs|
    requires Target(jobs[j]) in d.files || Target(jobs[j]) in d.dirs
    ensures j <= i
  {
    var front, p := jobs[..i], Target(jobs[j]);
    if FileTarget(front, p) || DirTarget(front, p) {
      var q :| 0 <= q < |front| && Target(front[q]) == p;
      assert Target(jobs[q]) == p;
    } else {
      assert Target(jobs[i]) == p;
    }
  }

  lemma CutKeepsParents(jobs: seq<Visit>, i: nat, d: Dest)
    requires Separate(jobs) && DirectoriesEarlier(jobs) && CutAt(jobs, i, d)
    ensures ParentsPresent(jobs, d)
  {
    forall j | 0 <= j < |jobs| && (Target(jobs[j]) in d.files || Target(jobs[j]) in d.dirs)
      ensures jobs[j].base == "" || Sanitize(jobs[j].base) in d.dirs
    {
      PresentIsNotLater(jobs, i, d, j);
      assert DirectoryEarlier(jobs, j);
      if jobs[j].base != "" {
        var p :| 0 <= p < j && jobs[p].node.Dir? && jobs[p].Rel() == jobs[j].base;
        assert Holds(d, jobs[p]);
      }
    }
  }

  /**
   Wherever the stream is cut, the receiver accepts what came and, after closing, holds every file before the
   cut complete with its own time stamp, at most one file as a prefix, nothing later, and every parent directory.
   */
  lemma CutConsistency(forest: seq<Tree>, sizes: ReadSizes, n: nat) returns (i: nat)
    requires WellNamed(forest)
    requires n <= |Stream(ForestJobs(forest, 0), 0, sizes)|
    ensures var r := Fold(FRESH, Stream(ForestJobs(forest, 0), 0, sizes)[..n]);
      && r.Ok?
      && CutAt(ForestJobs(forest, 0), i, Close(r.value).dest)
      && ParentsPresent(ForestJobs(forest, 0), Close(r.value).dest)
  {
    var jobs := ForestJobs(forest, 0);
    JobsAreSeparate(forest);
    ReceiveSome(FRESH, jobs, 0, sizes, n);
    var d := Close(Fold(FRESH, Stream(jobs, 0, sizes)[..n]).value).dest;
    i :| CutState(EMPTY_DEST, jobs, i, d);
    CutStateIsCutAt(jobs, i, d);
    DirectoriesFirst(forest, 0);
    CutKeepsParents(jobs, i, d);
  }

  /** The stream of a one-byte file at the top of the forest. */
  lemma OneByteFile(v: Visit, k: nat, sizes: ReadSizes)
    requires v.node.File? && |v.node.data| == 1
    ensures JobChunks(v, k, sizes) == [DataChunk(v, 0, 1)]
  {
    assert FileChunks(v, k, sizes, 1) == [];
  }

  /** Two sources without anything below them. */
  lemma TwoLeaves(forest: seq<Tree>)
    requires |forest| == 2 && Kids(Root(forest, 0)) == [] && Kids(Root(forest, 1)) == []
    ensures ForestJobs(forest, 0) == [Root(forest, 0), Root(forest, 1)]
  {
    var v, w := Root(forest, 0), Root(forest, 1);
    assert [v][1..] + Kids(v) == [] && [w][1..] + Kids(w) == [];
    assert Bfs([]) == [];
    assert Bfs([v]) == [v] && Bfs([w]) == [w];
    assert ForestJobs(forest, 2) == [];
    assert ForestJobs(forest, 1) == [w];
  }

  lemma FoldTwo(s: Recv, c: FileChunk, d: FileChunk)
    requires Step(s, c).Ok?
    ensures Fold(s, [c, d]) == Step(Step(s, c).value, d)
  {
    assert [c, d][1..] == [d] && [d][1..] == [];
    var t := Step(s, c).value;
    assert Fold(t, [d]) == match Step(t, d) { case Err(e) => Err(e) case Ok(u) => Fold(u, []) };
  }

  lemma TwoJobStream(v: Visit, w: Visit, sizes: ReadSizes)
    ensures Stream([v, w], 0, sizes) == JobChunks(v, 0, sizes) + JobChunks(w, 1, sizes)
  {
    StreamOne(v, 0, sizes);
    StreamSnoc([v], w, 0, sizes);
    assert [v] + [w] == [v, w];
  }

  lemma TwoByteStream(forest: seq<Tree>, sizes: ReadSizes)
    requires |forest| == 2 && forest[0].File? && forest[1].File?
    requires |forest[0].data| == 1 && |forest[1].data| == 1
    ensures Stream(ForestJobs(forest, 0), 0, sizes)
         == [DataChunk(Root(forest, 0), 0, 1), DataChunk(Root(forest, 1), 0, 1)]
  {
    var v, w := Root(forest, 0), Root(forest, 1);
    TwoLeaves(forest);
    OneByteFile(v, 0, sizes);
    OneByteFile(w, 1, sizes);
    TwoJobStream(v, w, sizes);
  }

  lemma TwoChunksMerge(c: FileChunk, d: FileChunk)
    requires Sanitize(c.relativePath) == "a_" == Sanitize(d.relativePath)
    requires KindOf(c) == FileKind == KindOf(d) && c.data == [1] && d.data == [2] && c.time == None
    ensures var r := Fold(FRESH, [c, d]);
      r.Ok? && Close(r.value).dest.files == map["a_" := FileData([1, 2], None)]
  {
    assert [] + [1] == [1] && [1] + [2] == [1, 2];
    FoldTwo(FRESH, c, d);
  }

  /** Distinct sanitized names are needed: two neighbours that sanitize alike arrive as one file. */
  lemma NeighboursMerge(sizes: ReadSizes)
    ensures var a, b := File("/1", "a:", [1], None), File("/2", "a?", [2], None);
      var r := Fold(FRESH, Stream(ForestJobs([a, b], 0), 0, sizes));
      r.Ok? && Close(r.value).dest.files == map["a_" := FileData([1, 2], None)]
  {
    var forest := [File("/1", "a:", [1], None), File("/2", "a?", [2], None)];
    TwoByteStream(forest, sizes);
    SanitizesToA();
    TwoChunksMerge(DataChunk(Root(forest, 0), 0, 1), DataChunk(Root(forest, 1), 0, 1));
  }

  lemma SanitizesToA()
    ensures Sanitize("a:") == "a_" && Sanitize("a?") == "a_" && !ContainsDotDot("a_")
  {
    assert Sanitize("a:")[0] == 'a' && Sanitize("a?")[0] == 'a';
  }
}
