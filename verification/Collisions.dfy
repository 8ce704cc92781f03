/**
 Which source names survive the transfer: exactly when every job arrives as it should, whatever the names
 sanitize to, what is at each path then, and what becomes of a job that does not arrive.
 */
module Collisions {
  import opened Common
  import opened Paths
  import opened SourceTree
  import opened WalkDir
  import opened Transfers
  import opened SendPlan
  import opened ReceiveSpec
  import opened Pipeline

  /** The job shows on the wire: a directory, or a file that is not empty. */
  predicate Carries(v: Visit) { v.node.Dir? || v.node.data != [] }

  function JobBytes(v: Visit): nat { if v.node.File? then |v.node.data| else 0 }

  /** The receiver after the first `m` jobs. */
  function After(jobs: seq<Visit>, m: nat, sizes: ReadSizes): Result<Recv, TransferError>
    requires m <= |jobs|
  {
    Fold(FRESH, Stream(jobs[..m], 0, sizes))
  }

  /** So far everything is accepted, the destination holds what was delivered, and all bytes are counted. */
  ghost predicate ArrivesUpTo(jobs: seq<Visit>, m: nat, sizes: ReadSizes)
    requires m <= |jobs|
  {
    var r := After(jobs, m, sizes);
    && r.Ok?
    && Close(r.value).dest == DeliverAll(EMPTY_DEST, jobs[..m])
    && r.value.bytes == TotalData(jobs[..m])
  }

  ghost predicate EveryJobArrives(jobs: seq<Visit>, sizes: ReadSizes) {
    forall m :: 0 <= m <= |jobs| ==> ArrivesUpTo(jobs, m, sizes)
  }

  /** Jobs `i` and `j` show on the wire one right after the other. */
  ghost predicate Neighbours(jobs: seq<Visit>, i: int, j: int) {
    && 0 <= i < j < |jobs| && Carries(jobs[i]) && Carries(jobs[j])
    && forall x :: i < x < j ==> !Carries(jobs[x])
  }

  /** Jobs that show on the wire under the same sanitized path are of the same kind. */
  ghost predicate KindsAgree(jobs: seq<Visit>, i: int, j: int) {
    0 <= i < |jobs| && 0 <= j < |jobs| && Carries(jobs[i]) && Carries(jobs[j]) && Target(jobs[i]) == Target(jobs[j]) ==>
      (jobs[i].node.Dir? <==> jobs[j].node.Dir?)
  }

  /** The sanitized path of job `j` is safe, no earlier job of the other kind has it, and if it is the one just before
      on the wire, the job is a directory. */
  ghost predicate Harmless(jobs: seq<Visit>, j: nat)
    requires j < |jobs|
  {
    Carries(jobs[j]) ==>
      && !ContainsDotDot(Target(jobs[j]))
      && (forall i :: 0 <= i < j ==> KindsAgree(jobs, i, j))
      && (forall i :: Neighbours(jobs, i, j) && Target(jobs[i]) == Target(jobs[j]) ==> jobs[j].node.Dir?)
  }

  ghost predicate AllHarmless(jobs: seq<Visit>) {
    forall j :: 0 <= j < |jobs| ==> Harmless(jobs, j)
  }

  // ----- one job after any state -----

  /** The open file, if any, has got some data; and a current path that is a file is open. */
  ghost predicate FileHasData(s: Recv) {
    && (s.file.Some? && s.file.value in s.dest.files ==> s.dest.files[s.file.value].bytes != [])
    && (s.path.Some? && s.path.value in s.dest.files ==> s.file == s.path)
  }

  /** What holds of the receiver between two jobs. */
  ghost predicate Between(s: Recv) {
    s.Consistent() && FileHasData(s) && s.dest.Sound()
  }

  ghost predicate BetweenAt(s: Recv, path: Option<string>) {
    Between(s) && s.path == path
  }

  /** Without an open file the data under the current path is dropped: a file right after a directory of the same
      sanitized path is lost without a trace. */
  lemma {:induction false} DirectoryEatsFile(s: Recv, v: Visit, k: nat, sizes: ReadSizes, off: nat)
    requires v.node.File? && off <= |v.node.data|
    requires !ContainsDotDot(Target(v)) && s.path == Some(Target(v)) && s.file.None?
    ensures Fold(s, FileChunks(v, k, sizes, off)) == Ok(s)
    decreases |v.node.data| - off
  {
    if off == |v.node.data| {
    } else {
      var n := ReadLen(sizes, k, off, |v.node.data| - off);
      StepAppends(s, v, off, n);
      FoldFirst(s, DataChunk(v, off, n), FileChunks(v, k, sizes, off + n));
      DirectoryEatsFile(s, v, k, sizes, off + n);
    }
  }

  /** With a file open under the current path the data goes to its end: a file right after another of the same
      sanitized path is appended to it. */
  lemma FileGrows(s: Recv, v: Visit, k: nat, sizes: ReadSizes)
    requires s.Consistent() && v.node.File?
    requires !ContainsDotDot(Target(v)) && s.path == Some(Target(v)) && s.file.Some?
    ensures Fold(s, FileChunks(v, k, sizes, 0)) == Ok(Write(s, v.node.data))
  {
    var chunks := FileChunks(v, k, sizes, 0);
    AppendChunks(s, v, k, sizes, 0, |chunks|);
    assert chunks[..|chunks|] == chunks && v.node.data[0..|v.node.data|] == v.node.data;
  }

  /** A directory right under the current path changes nothing, so it is not made if it is not there. */
  lemma DirectoryIsSkipped(s: Recv, v: Visit, k: nat, sizes: ReadSizes)
    requires v.node.Dir? && !ContainsDotDot(Target(v)) && s.path == Some(Target(v))
    ensures Fold(s, JobChunks(v, k, sizes)) == Ok(s)
  {
    WriteNothing(s);
    FoldFirst(s, DirChunk(v), []);
    assert JobChunks(v, k, sizes) == [DirChunk(v)] + [];
  }

  /** The path is unsafe, or it is new and a path of the other kind is in the way. */
  ghost predicate Refused(s: Recv, v: Visit) {
    Carries(v) && (ContainsDotDot(Target(v)) || (s.path != Some(Target(v)) && !Room(s.dest, v)))
  }

  /** Refusal comes at the job's first chunk. */
  lemma RefusedIsErr(s: Recv, v: Visit, k: nat, sizes: ReadSizes)
    requires Refused(s, v)
    ensures Fold(s, JobChunks(v, k, sizes)).Err?
  {
    assert JobChunks(v, k, sizes) != [];
    assert Step(s, JobChunks(v, k, sizes)[0]).Err?;
  }

  /** A new path: the job arrives, and the receiver has its file open. */
  lemma NewPathArrives(s: Recv, v: Visit, k: nat, sizes: ReadSizes)
    requires Between(s) && Carries(v) && s.path != Some(Target(v))
    requires !ContainsDotDot(Target(v)) && Room(s.dest, v)
    ensures exists t ::
      Fold(s, JobChunks(v, k, sizes)) == Ok(t) && BetweenAt(t, Some(Target(v))) && JobArrives(s, v, t)
  {
    WholeJob(s, v, k, sizes);
    var chunks := JobChunks(v, k, sizes);
    FoldKeepsSound(s, chunks);
    if v.node.Dir? {
      FoldFirst(s, DirChunk(v), []);
      assert chunks == [DirChunk(v)] + [];
    } else {
      WholeFile(s, v, k, sizes);
      assert [] + v.node.data == v.node.data;
    }
    assert BetweenAt(Fold(s, chunks).value, Some(Target(v)));
  }

  /** The job turns to another path that it can have, or is a directory that is there. */
  ghost predicate Fits(s: Recv, v: Visit) {
    Carries(v) ==>
      if s.path == Some(Target(v)) then v.node.Dir? && Target(v) in s.dest.dirs else Room(s.dest, v)
  }

  ghost predicate JobArrives(s: Recv, v: Visit, t: Recv) {
    Close(t).dest == Deliver(Close(s).dest, v) && t.bytes == s.bytes + JobBytes(v)
  }

  lemma GrownFileDiffers(s: Recv, v: Visit)
    requires Between(s) && s.file.Some? && s.path == Some(Target(v))
    requires v.node.File? && v.node.data != []
    ensures !JobArrives(s, v, Write(s, v.node.data))
  {
    var p, t := Target(v), Write(s, v.node.data);
    assert |Close(t).dest.files[p].bytes| == |s.dest.files[p].bytes| + |v.node.data|;
    assert |Deliver(Close(s).dest, v).files[p].bytes| == |v.node.data|;
  }

  /** A safe job under the current path arrives exactly if it fits. */
  lemma SamePathArrivesIffFits(s: Recv, v: Visit, k: nat, sizes: ReadSizes)
    requires Between(s)
    requires Carries(v) && s.path == Some(Target(v)) && !ContainsDotDot(Target(v))
    ensures exists t ::
      Fold(s, JobChunks(v, k, sizes)) == Ok(t) && BetweenAt(t, s.path) && (JobArrives(s, v, t) <==> Fits(s, v))
  {
    if v.node.Dir? {
      DirectoryIsSkipped(s, v, k, sizes);
      CloseKeepsPaths(s);
      assert Target(v) in Deliver(Close(s).dest, v).dirs;
      assert Target(v) in s.dest.dirs ==> s.dest.dirs + {Target(v)} == s.dest.dirs;
    } else if s.file.None? {
      DirectoryEatsFile(s, v, k, sizes, 0);
    } else {
      FileGrows(s, v, k, sizes);
      GrownFileDiffers(s, v);
    }
    assert BetweenAt(Fold(s, JobChunks(v, k, sizes)).value, s.path);
  }

  /** Any job after any state: accepted exactly if it is not refused, and then it arrives exactly if it fits. */
  lemma NextJob(s: Recv, v: Visit, k: nat, sizes: ReadSizes)
    requires Between(s)
    ensures Fold(s, JobChunks(v, k, sizes)).Err? <==> Refused(s, v)
    ensures !Refused(s, v) ==>
      exists t ::
        && Fold(s, JobChunks(v, k, sizes)) == Ok(t)
        && BetweenAt(t, if Carries(v) then Some(Target(v)) else s.path)
        && (JobArrives(s, v, t) <==> Fits(s, v))
  {
    if !Carries(v) {
      assert JobChunks(v, k, sizes) == [] && BetweenAt(s, s.path);
    } else if Refused(s, v) {
      RefusedIsErr(s, v, k, sizes);
    } else if s.path == Some(Target(v)) {
      SamePathArrivesIffFits(s, v, k, sizes);
    } else {
      NewPathArrives(s, v, k, sizes);
    }
  }

  // ----- all jobs -----

  /** The path of the last job that shows on the wire. */
  function LastPath(jobs: seq<Visit>): Option<string> {
    if jobs == [] then None
    else if Carries(jobs[|jobs| - 1]) then Some(Target(jobs[|jobs| - 1]))
    else LastPath(jobs[..|jobs| - 1])
  }

  lemma AfterNext(jobs: seq<Visit>, m: nat, sizes: ReadSizes)
    requires m < |jobs|
    ensures After(jobs, m + 1, sizes)
         == match After(jobs, m, sizes) { case Err(e) => Err(e) case Ok(s) => Fold(s, JobChunks(jobs[m], m, sizes)) }
  {
    assert jobs[..m + 1] == jobs[..m] + [jobs[m]];
    StreamSnoc(jobs[..m], jobs[m], 0, sizes);
    FoldAppend(FRESH, Stream(jobs[..m], 0, sizes), JobChunks(jobs[m], m, sizes));
  }

  lemma LastPathNext(jobs: seq<Visit>, m: nat)
    requires m < |jobs|
    ensures LastPath(jobs[..m + 1]) == if Carries(jobs[m]) then Some(Target(jobs[m])) else LastPath(jobs[..m])
  {
    assert jobs[..m + 1][..m] == jobs[..m];
  }

  /** After `m` jobs the receiver is between two jobs, at the path of the last of them. */
  ghost predicate StateKnown(jobs: seq<Visit>, m: nat, sizes: ReadSizes)
    requires m <= |jobs|
  {
    exists s :: After(jobs, m, sizes) == Ok(s) && BetweenAt(s, LastPath(jobs[..m]))
  }

  lemma StateNext(jobs: seq<Visit>, m: nat, sizes: ReadSizes)
    requires m < |jobs| && StateKnown(jobs, m, sizes) && After(jobs, m + 1, sizes).Ok?
    ensures StateKnown(jobs, m + 1, sizes)
  {
    AfterNext(jobs, m, sizes);
    NextJob(After(jobs, m, sizes).value, jobs[m], m, sizes);
    LastPathNext(jobs, m);
    assert BetweenAt(After(jobs, m + 1, sizes).value, LastPath(jobs[..m + 1]));
  }

  lemma {:induction false} StateAfter(jobs: seq<Visit>, m: nat, sizes: ReadSizes)
    requires m <= |jobs| && After(jobs, m, sizes).Ok?
    ensures StateKnown(jobs, m, sizes)
  {
    if m == 0 {
      assert jobs[..0] == [];
      assert BetweenAt(FRESH, LastPath(jobs[..0]));
    } else {
      AfterNext(jobs, m - 1, sizes);
      StateAfter(jobs, m - 1, sizes);
      StateNext(jobs, m - 1, sizes);
    }
  }

  lemma {:induction false} DeliverAllSnoc(dest: Dest, jobs: seq<Visit>, v: Visit)
    ensures DeliverAll(dest, jobs + [v]) == Deliver(DeliverAll(dest, jobs), v)
    ensures TotalData(jobs + [v]) == TotalData(jobs) + JobBytes(v)
    decreases |jobs|
  {
    if jobs == [] {
      assert [] + [v] == [v] && [v][1..] == [];
      assert DeliverAll(Deliver(dest, v), []) == Deliver(dest, v);
    } else {
      assert (jobs + [v])[1..] == jobs[1..] + [v];
      DeliverAllSnoc(Deliver(dest, jobs[0]), jobs[1..], v);
    }
  }

  lemma {:induction false} DeliveredDirs(jobs: seq<Visit>, p: string)
    ensures p in DeliverAll(EMPTY_DEST, jobs).dirs <==> DirTarget(jobs, p)
  {
    if jobs == [] {
    } else {
      var n := |jobs| - 1;
      var front, v := jobs[..n], jobs[n];
      assert jobs == front + [v];
      DeliverAllSnoc(EMPTY_DEST, front, v);
      DeliveredDirs(front, p);
      DirTargetSnoc(front, v, p);
    }
  }

  lemma {:induction false} DeliveredFiles(jobs: seq<Visit>, p: string)
    ensures p in DeliverAll(EMPTY_DEST, jobs).files <==> FileTarget(jobs, p)
  {
    if jobs == [] {
    } else {
      var n := |jobs| - 1;
      var front, v := jobs[..n], jobs[n];
      assert jobs == front + [v];
      DeliverAllSnoc(EMPTY_DEST, front, v);
      DeliveredFiles(front, p);
      FileTargetSnoc(front, v, p);
    }
  }

  lemma FileTargetSnoc(front: seq<Visit>, v: Visit, p: string)
    ensures FileTarget(front + [v], p) <==> FileTarget(front, p) || IsFullFile(v, p)
  {
    var jobs := front + [v];
    if FileTarget(front, p) {
      var j :| 0 <= j < |front| && front[j].node.File? && front[j].node.data != [] && Target(front[j]) == p;
      assert jobs[j] == front[j];
    }
    if IsFullFile(v, p) {
      assert jobs[|front|] == v;
    }
  }

  lemma DirTargetSnoc(front: seq<Visit>, v: Visit, p: string)
    ensures DirTarget(front + [v], p) <==> DirTarget(front, p) || (v.node.Dir? && Target(v) == p)
  {
    var jobs := front + [v];
    if DirTarget(front, p) {
      var j :| 0 <= j < |front| && front[j].node.Dir? && Target(front[j]) == p;
      assert jobs[j] == front[j];
    }
    if v.node.Dir? && Target(v) == p {
      assert jobs[|front|] == v;
    }
  }

  /** The path before job `j` is the one of its neighbour on the wire. */
  lemma {:induction false} LastPathIsNeighbour(jobs: seq<Visit>, m: nat, j: nat)
    requires m <= j < |jobs| && Carries(jobs[j]) && forall x :: m <= x < j ==> !Carries(jobs[x])
    ensures forall i :: Neighbours(jobs, i, j) ==> LastPath(jobs[..m]) == Some(Target(jobs[i]))
    ensures LastPath(jobs[..m]).Some? ==> exists i :: Neighbours(jobs, i, j)
  {
    if m == 0 {
      assert jobs[..0] == [];
    } else {
      assert jobs[..m][..m - 1] == jobs[..m - 1];
      if Carries(jobs[m - 1]) {
        assert Neighbours(jobs, m - 1, j);
      } else {
        LastPathIsNeighbour(jobs, m - 1, j);
      }
    }
  }

  /** The destination has exactly the paths of the first `m` jobs. */
  ghost predicate HasPaths(jobs: seq<Visit>, m: nat, d: Dest)
    requires m <= |jobs|
  {
    && (forall p :: p in d.dirs <==> DirTarget(jobs[..m], p))
    && (forall p :: p in d.files <==> FileTarget(jobs[..m], p))
  }

  lemma ArrivedHasPaths(jobs: seq<Visit>, m: nat, s: Recv)
    requires m <= |jobs| && Close(s).dest == DeliverAll(EMPTY_DEST, jobs[..m])
    ensures HasPaths(jobs, m, s.dest)
  {
    CloseKeepsPaths(s);
    forall p
      ensures p in s.dest.dirs <==> DirTarget(jobs[..m], p)
      ensures p in s.dest.files <==> FileTarget(jobs[..m], p)
    {
      DeliveredDirs(jobs[..m], p);
      DeliveredFiles(jobs[..m], p);
    }
  }

  /** After jobs that all arrived, the next arrives exactly if it is harmless. */
  lemma NextArrivesIffFits(jobs: seq<Visit>, m: nat, sizes: ReadSizes)
    requires m < |jobs| && ArrivesUpTo(jobs, m, sizes)
    ensures var s := After(jobs, m, sizes).value;
      ArrivesUpTo(jobs, m + 1, sizes) <==> Fits(s, jobs[m]) && !Refused(s, jobs[m])
  {
    var v, s := jobs[m], After(jobs, m, sizes).value;
    AfterNext(jobs, m, sizes);
    StateAfter(jobs, m, sizes);
    NextJob(s, v, m, sizes);
    assert jobs[..m + 1] == jobs[..m] + [v];
    DeliverAllSnoc(EMPTY_DEST, jobs[..m], v);
  }

  lemma NextArrivesIffHarmless(jobs: seq<Visit>, m: nat, sizes: ReadSizes)
    requires m < |jobs| && ArrivesUpTo(jobs, m, sizes)
    ensures ArrivesUpTo(jobs, m + 1, sizes) <==> Harmless(jobs, m)
  {
    var s := After(jobs, m, sizes).value;
    NextArrivesIffFits(jobs, m, sizes);
    StateAfter(jobs, m, sizes);
    ArrivedHasPaths(jobs, m, s);
    FitsIffHarmless(jobs, m, s);
  }

  lemma PathsTellKinds(jobs: seq<Visit>, m: nat, d: Dest)
    requires m < |jobs| && HasPaths(jobs, m, d) && Carries(jobs[m])
    ensures (forall i :: 0 <= i < m ==> KindsAgree(jobs, i, m)) <==> Room(d, jobs[m])
  {
    var front, p := jobs[..m], Target(jobs[m]);
    if Room(d, jobs[m]) {
      forall i | 0 <= i < m
        ensures KindsAgree(jobs, i, m)
      {
        assert front[i] == jobs[i];
      }
    } else if jobs[m].node.Dir? {
      var i :| 0 <= i < |front| && front[i].node.File? && front[i].node.data != [] && Target(front[i]) == p;
      assert jobs[i] == front[i] && !KindsAgree(jobs, i, m);
    } else {
      var i :| 0 <= i < |front| && front[i].node.Dir? && Target(front[i]) == p;
      assert jobs[i] == front[i] && !KindsAgree(jobs, i, m);
    }
  }

  lemma FitsIffHarmless(jobs: seq<Visit>, m: nat, s: Recv)
    requires m < |jobs| && s.path == LastPath(jobs[..m]) && s.dest.Sound() && HasPaths(jobs, m, s.dest)
    ensures Harmless(jobs, m) <==> Fits(s, jobs[m]) && !Refused(s, jobs[m])
  {
    if Carries(jobs[m]) {
      LastPathIsNeighbour(jobs, m, m);
      PathsTellKinds(jobs, m, s.dest);
      if s.path == Some(Target(jobs[m])) {
        var i :| Neighbours(jobs, i, m);
        assert jobs[..m][i] == jobs[i];
      }
    }
  }

  lemma {:induction false} HarmlessArrive(jobs: seq<Visit>, m: nat, sizes: ReadSizes)
    requires m <= |jobs| && AllHarmless(jobs)
    ensures ArrivesUpTo(jobs, m, sizes)
  {
    if m == 0 {
      assert jobs[..0] == [];
    } else {
      HarmlessArrive(jobs, m - 1, sizes);
      NextArrivesIffHarmless(jobs, m - 1, sizes);
    }
  }

  /**
   For any jobs and any short reads: at every point between two jobs the receiver holds exactly the jobs sent so far
   if and only if every job is harmless, which depends on the sanitized paths, the kinds and the emptiness alone.
   */
  lemma ArrivesIffHarmless(jobs: seq<Visit>, sizes: ReadSizes)
    ensures EveryJobArrives(jobs, sizes) <==> AllHarmless(jobs)
  {
    if AllHarmless(jobs) {
      forall m | 0 <= m <= |jobs|
        ensures ArrivesUpTo(jobs, m, sizes)
      {
        HarmlessArrive(jobs, m, sizes);
      }
    }
    if EveryJobArrives(jobs, sizes) {
      forall j | 0 <= j < |jobs|
        ensures Harmless(jobs, j)
      {
        assert ArrivesUpTo(jobs, j, sizes) && ArrivesUpTo(jobs, j + 1, sizes);
        NextArrivesIffHarmless(jobs, j, sizes);
      }
    }
  }

  /** Well-named forests are harmless. */
  lemma WellNamedIsHarmless(forest: seq<Tree>)
    requires WellNamed(forest)
    ensures AllHarmless(ForestJobs(forest, 0))
  {
    var jobs := ForestJobs(forest, 0);
    JobsAreSeparate(forest);
    forall j | 0 <= j < |jobs|
      ensures Harmless(jobs, j)
    {
    }
  }

  // ----- what is at each path -----

  predicate IsFullFile(v: Visit, p: string) {
    v.node.File? && v.node.data != [] && Target(v) == p
  }

  /** Job `j` is the last non-empty file at its path. */
  ghost predicate LastAt(jobs: seq<Visit>, j: int, p: string) {
    0 <= j < |jobs| && IsFullFile(jobs[j], p) && forall i :: j < i < |jobs| ==> !IsFullFile(jobs[i], p)
  }

  lemma {:induction false} LastFileWins(jobs: seq<Visit>, p: string)
    ensures p in DeliverAll(EMPTY_DEST, jobs).files <==> exists j :: LastAt(jobs, j, p)
    ensures forall j :: LastAt(jobs, j, p) ==>
      p in DeliverAll(EMPTY_DEST, jobs).files
      && DeliverAll(EMPTY_DEST, jobs).files[p] == Arrival(jobs[j], |jobs[j].node.data|)
  {
    if jobs == [] {
    } else {
      var n := |jobs| - 1;
      var front, v := jobs[..n], jobs[n];
      assert jobs == front + [v];
      DeliverAllSnoc(EMPTY_DEST, front, v);
      LastFileWins(front, p);
      if IsFullFile(v, p) {
        assert LastAt(jobs, n, p);
      } else {
        LastAtSnoc(front, v, p);
      }
    }
  }

  lemma LastAtSnoc(front: seq<Visit>, v: Visit, p: string)
    requires !IsFullFile(v, p)
    ensures forall j :: LastAt(front + [v], j, p) <==> LastAt(front, j, p)
  {
    var jobs := front + [v];
    forall j
      ensures LastAt(jobs, j, p) <==> LastAt(front, j, p)
    {
      if LastAt(front, j, p) {
        assert forall i :: j < i < |jobs| ==> !IsFullFile(jobs[i], p);
      }
      if LastAt(jobs, j, p) {
        assert j < |front|;
        forall i | j < i < |front| ensures !IsFullFile(front[i], p) {
          assert jobs[i] == front[i];
        }
      }
    }
  }

  /** What the whole stream leaves at each path when all jobs are harmless: every directory, and of the files that
      share a path the last one, complete and with its own time. */
  lemma HarmlessOutcome(jobs: seq<Visit>, sizes: ReadSizes)
    requires AllHarmless(jobs)
    ensures var r := Fold(FRESH, Stream(jobs, 0, sizes));
      && r.Ok? && r.value.bytes == TotalData(jobs)
      && (forall p :: p in Close(r.value).dest.dirs <==> DirTarget(jobs, p))
      && (forall p :: p in Close(r.value).dest.files <==> exists j :: LastAt(jobs, j, p))
      && (forall p, j :: LastAt(jobs, j, p) ==>
            p in Close(r.value).dest.files
            && Close(r.value).dest.files[p] == Arrival(jobs[j], |jobs[j].node.data|))
  {
    HarmlessArrive(jobs, |jobs|, sizes);
    assert jobs[..|jobs|] == jobs;
    forall p
      ensures p in DeliverAll(EMPTY_DEST, jobs).dirs <==> DirTarget(jobs, p)
    {
      DeliveredDirs(jobs, p);
    }
    forall p
      ensures p in DeliverAll(EMPTY_DEST, jobs).files <==> exists j :: LastAt(jobs, j, p)
      ensures forall j :: LastAt(jobs, j, p) ==>
        p in DeliverAll(EMPTY_DEST, jobs).files
        && DeliverAll(EMPTY_DEST, jobs).files[p] == Arrival(jobs[j], |jobs[j].node.data|)
    {
      LastFileWins(jobs, p);
    }
  }

  /** Non-empty files that share a path are the same file, as far as arrives. */
  ghost predicate FilesAgree(jobs: seq<Visit>) {
    forall i, j :: 0 <= i < |jobs| && 0 <= j < |jobs| && SamePlaceFiles(jobs[i], jobs[j]) ==>
      jobs[i].node.data == jobs[j].node.data && Arrived(jobs[i].node.modified) == Arrived(jobs[j].node.modified)
  }

  predicate SamePlaceFiles(v: Visit, w: Visit) {
    IsFullFile(v, Target(v)) && IsFullFile(w, Target(v))
  }

  lemma {:induction false} SomeFileIsLast(jobs: seq<Visit>, i: nat, p: string)
    requires i < |jobs| && IsFullFile(jobs[i], p)
    ensures exists j :: LastAt(jobs, j, p)
    decreases |jobs| - i
  {
    if x :| i < x < |jobs| && IsFullFile(jobs[x], p) {
      SomeFileIsLast(jobs, x, p);
    } else {
      assert LastAt(jobs, i, p);
    }
  }

  lemma FilesAtPlaceAgree(d: Dest, v: Visit, w: Visit)
    requires Holds(d, v) && Holds(d, w) && SamePlaceFiles(v, w)
    ensures v.node.data == w.node.data && Arrived(v.node.modified) == Arrived(w.node.modified)
  {
    assert v.node.data[..|v.node.data|] == v.node.data && w.node.data[..|w.node.data|] == w.node.data;
  }

  lemma MirrorHolds(forest: seq<Tree>, jobs: seq<Visit>, d: Dest, i: nat)
    requires ListsPlaces(forest, 0, jobs) && Mirrors(forest, d) && i < |jobs|
    ensures Holds(d, jobs[i])
  {
    assert Place(forest, jobs[i].addr);
  }

  lemma MirrorNeedsAgreement(forest: seq<Tree>, jobs: seq<Visit>, d: Dest)
    requires ListsPlaces(forest, 0, jobs) && Mirrors(forest, d)
    ensures FilesAgree(jobs)
  {
    forall i, j | 0 <= i < |jobs| && 0 <= j < |jobs| && SamePlaceFiles(jobs[i], jobs[j])
      ensures jobs[i].node.data == jobs[j].node.data && Arrived(jobs[i].node.modified) == Arrived(jobs[j].node.modified)
    {
      MirrorHolds(forest, jobs, d, i);
      MirrorHolds(forest, jobs, d, j);
      FilesAtPlaceAgree(d, jobs[i], jobs[j]);
    }
  }

  lemma AgreementMirrors(forest: seq<Tree>, jobs: seq<Visit>, d: Dest)
    requires ListsPlaces(forest, 0, jobs) && FilesAgree(jobs)
    requires forall p :: p in d.dirs <==> DirTarget(jobs, p)
    requires forall p :: p in d.files <==> exists j :: LastAt(jobs, j, p)
    requires forall p, j :: LastAt(jobs, j, p) ==>
      p in d.files && d.files[p] == Arrival(jobs[j], |jobs[j].node.data|)
    ensures Mirrors(forest, d)
  {
    forall addr {:trigger Place(forest, addr)} | Place(forest, addr)
      ensures Holds(d, Find(forest, addr).value)
    {
      AddressPrefix(forest, addr);
      var v := Find(forest, addr).value;
      var i :| 0 <= i < |jobs| && jobs[i] == v;
      if v.node.File? && v.node.data != [] {
        SomeFileIsLast(jobs, i, Target(v));
        var j :| LastAt(jobs, j, Target(v));
        assert SamePlaceFiles(jobs[i], jobs[j]);
      }
    }
    forall p | p in d.dirs
      ensures exists addr :: DirPlace(forest, addr, p)
    {
      var j :| 0 <= j < |jobs| && jobs[j].node.Dir? && Target(jobs[j]) == p;
      assert DirPlace(forest, jobs[j].addr, p);
    }
    forall p | p in d.files
      ensures exists addr :: FilePlace(forest, addr, p)
    {
      var j :| LastAt(jobs, j, p);
      assert FilePlace(forest, jobs[j].addr, p);
    }
  }

  // ----- the final destination, for any names -----

  ghost predicate AllSafe(jobs: seq<Visit>) {
    forall j :: 0 <= j < |jobs| && Carries(jobs[j]) ==> !ContainsDotDot(Target(jobs[j]))
  }

  ghost predicate AllKindsAgree(jobs: seq<Visit>) {
    forall i, j :: KindsAgree(jobs, i, j)
  }

  /** Job `j` turns to its path: the job just before it on the wire has another one. */
  ghost predicate Opens(jobs: seq<Visit>, j: int)
    requires 0 <= j < |jobs|
  {
    forall i :: Neighbours(jobs, i, j) ==> Target(jobs[i]) != Target(jobs[j])
  }

  /** Of the non-empty files that share a path the last one turns to it. */
  ghost predicate LastOpens(jobs: seq<Visit>) {
    forall j, p :: LastAt(jobs, j, p) ==> Opens(jobs, j)
  }

  /** A file holds exactly the last job at its path, if that job turned to it, and more than that otherwise. */
  ghost predicate HoldsLast(jobs: seq<Visit>, j: int, d: Dest)
    requires 0 <= j < |jobs| && jobs[j].node.File?
  {
    var p, data := Target(jobs[j]), jobs[j].node.data;
    && p in d.files
    && (Opens(jobs, j) ==> d.files[p] == Arrival(jobs[j], |data|))
    && (!Opens(jobs, j) ==> |d.files[p].bytes| > |data|)
  }

  /** What the first `m` jobs leave, when kinds agree and paths are safe. */
  ghost predicate Leaves(jobs: seq<Visit>, m: nat, s: Recv)
    requires m <= |jobs|
  {
    && HasPaths(jobs, m, s.dest)
    && forall j, p :: LastAt(jobs[..m], j, p) ==> HoldsLast(jobs, j, Close(s).dest)
  }

  lemma PathsNext(jobs: seq<Visit>, m: nat, d: Dest, e: Dest)
    requires m < |jobs| && HasPaths(jobs, m, d)
    requires e.dirs == (if jobs[m].node.Dir? then d.dirs + {Target(jobs[m])} else d.dirs)
    requires e.files.Keys
      == (if IsFullFile(jobs[m], Target(jobs[m])) then d.files.Keys + {Target(jobs[m])} else d.files.Keys)
    ensures HasPaths(jobs, m + 1, e)
  {
    assert jobs[..m + 1] == jobs[..m] + [jobs[m]];
    forall p
      ensures p in e.dirs <==> DirTarget(jobs[..m + 1], p)
      ensures p in e.files <==> FileTarget(jobs[..m + 1], p)
    {
      DirTargetSnoc(jobs[..m], jobs[m], p);
      FileTargetSnoc(jobs[..m], jobs[m], p);
    }
  }

  lemma LastAtNext(jobs: seq<Visit>, m: nat, j: int, p: string)
    requires m < |jobs| && LastAt(jobs[..m + 1], j, p)
    ensures if IsFullFile(jobs[m], p) then j == m else LastAt(jobs[..m], j, p)
  {
    assert jobs[..m + 1] == jobs[..m] + [jobs[m]];
    if IsFullFile(jobs[m], p) {
      assert jobs[..m + 1][m] == jobs[m];
    } else {
      LastAtSnoc(jobs[..m], jobs[m], p);
    }
  }

  /** A job that arrives leaves what it should. */
  lemma ArrivalLeaves(jobs: seq<Visit>, m: nat, s: Recv, t: Recv)
    requires m < |jobs| && Leaves(jobs, m, s) && JobArrives(s, jobs[m], t)
    requires IsFullFile(jobs[m], Target(jobs[m])) ==> Opens(jobs, m)
    ensures Leaves(jobs, m + 1, t)
  {
    CloseKeepsPaths(s);
    CloseKeepsPaths(t);
    PathsNext(jobs, m, s.dest, t.dest);
    var front := jobs[..m + 1];
    forall j, p | LastAt(front, j, p)
      ensures HoldsLast(jobs, j, Close(t).dest)
    {
      LastAtNext(jobs, m, j, p);
      assert front[j] == jobs[j];
    }
  }

  /** A file that grows holds more than its last job. */
  lemma GrowthLeaves(jobs: seq<Visit>, m: nat, s: Recv)
    requires m < |jobs| && Leaves(jobs, m, s) && Between(s)
    requires IsFullFile(jobs[m], Target(jobs[m])) && !Opens(jobs, m)
    requires s.path == Some(Target(jobs[m])) && s.file == s.path
    ensures Leaves(jobs, m + 1, Write(s, jobs[m].node.data))
  {
    var q, t := Target(jobs[m]), Write(s, jobs[m].node.data);
    PathsNext(jobs, m, s.dest, t.dest);
    assert |Close(t).dest.files[q].bytes| > |jobs[m].node.data|;
    var front := jobs[..m + 1];
    forall j, p | LastAt(front, j, p)
      ensures HoldsLast(jobs, j, Close(t).dest)
    {
      LastAtNext(jobs, m, j, p);
      assert front[j] == jobs[j];
      if p != q {
        assert HoldsLast(jobs, j, Close(s).dest);
        assert Close(t).dest.files[p] == Close(s).dest.files[p];
      }
    }
  }

  /** With kinds that agree, the job before on the wire tells whether the next one grows it. */
  lemma NeighbourKind(jobs: seq<Visit>, m: nat, s: Recv)
    requires m < |jobs| && Carries(jobs[m]) && AllKindsAgree(jobs)
    requires s.path == LastPath(jobs[..m]) && HasPaths(jobs, m, s.dest) && FileHasData(s)
    ensures Opens(jobs, m) <==> s.path != Some(Target(jobs[m]))
    ensures s.path == Some(Target(jobs[m])) && jobs[m].node.Dir? ==> Target(jobs[m]) in s.dest.dirs
    ensures s.path == Some(Target(jobs[m])) && jobs[m].node.File? ==> s.file == s.path
  {
    LastPathIsNeighbour(jobs, m, m);
    if s.path == Some(Target(jobs[m])) {
      var i :| Neighbours(jobs, i, m);
      assert KindsAgree(jobs, i, m);
      assert jobs[..m][i] == jobs[i];
    }
  }

  lemma NextLeaves(jobs: seq<Visit>, m: nat, sizes: ReadSizes, s: Recv)
    requires m < |jobs| && AllSafe(jobs) && AllKindsAgree(jobs)
    requires Between(s) && s.path == LastPath(jobs[..m]) && Leaves(jobs, m, s)
    ensures var r := Fold(s, JobChunks(jobs[m], m, sizes)); r.Ok? && Leaves(jobs, m + 1, r.value)
  {
    var v := jobs[m];
    NextJob(s, v, m, sizes);
    if Carries(v) {
      assert forall i :: 0 <= i < m ==> KindsAgree(jobs, i, m);
      PathsTellKinds(jobs, m, s.dest);
      NeighbourKind(jobs, m, s);
    }
    var t := Fold(s, JobChunks(v, m, sizes)).value;
    if Carries(v) && s.path == Some(Target(v)) && v.node.File? {
      FileGrows(s, v, m, sizes);
      GrowthLeaves(jobs, m, s);
    } else {
      ArrivalLeaves(jobs, m, s, t);
    }
  }

  lemma NextAfterLeaves(jobs: seq<Visit>, m: nat, sizes: ReadSizes)
    requires m < |jobs| && AllSafe(jobs) && AllKindsAgree(jobs)
    requires After(jobs, m, sizes).Ok? && Leaves(jobs, m, After(jobs, m, sizes).value)
    ensures After(jobs, m + 1, sizes).Ok? && Leaves(jobs, m + 1, After(jobs, m + 1, sizes).value)
  {
    AfterNext(jobs, m, sizes);
    StateAfter(jobs, m, sizes);
    NextLeaves(jobs, m, sizes, After(jobs, m, sizes).value);
  }

  lemma LeavesAtStart(jobs: seq<Visit>, sizes: ReadSizes)
    ensures After(jobs, 0, sizes) == Ok(FRESH) && Leaves(jobs, 0, FRESH)
  {
    assert jobs[..0] == [];
  }

  lemma {:induction false} AllLeave(jobs: seq<Visit>, m: nat, sizes: ReadSizes)
    requires m <= |jobs| && AllSafe(jobs) && AllKindsAgree(jobs)
    ensures exists s :: After(jobs, m, sizes) == Ok(s) && Leaves(jobs, m, s)
  {
    if m == 0 {
      LeavesAtStart(jobs, sizes);
    } else {
      AllLeave(jobs, m - 1, sizes);
      NextAfterLeaves(jobs, m - 1, sizes);
    }
  }

  lemma {:induction false} EarlierIsOk(jobs: seq<Visit>, m: nat, n: nat, sizes: ReadSizes)
    requires m <= n <= |jobs| && After(jobs, n, sizes).Ok?
    ensures After(jobs, m, sizes).Ok?
    decreases n - m
  {
    if m == n {
    } else {
      AfterNext(jobs, n - 1, sizes);
      EarlierIsOk(jobs, m, n - 1, sizes);
    }
  }

  lemma AcceptedJobIsSafe(jobs: seq<Visit>, j: nat, sizes: ReadSizes)
    requires j < |jobs| && Carries(jobs[j]) && After(jobs, j + 1, sizes).Ok?
    ensures !ContainsDotDot(Target(jobs[j]))
  {
    EarlierIsOk(jobs, j, j + 1, sizes);
    AfterNext(jobs, j, sizes);
    StateAfter(jobs, j, sizes);
    NextJob(After(jobs, j, sizes).value, jobs[j], j, sizes);
  }

  lemma AcceptedIsSafe(jobs: seq<Visit>, sizes: ReadSizes)
    requires After(jobs, |jobs|, sizes).Ok?
    ensures AllSafe(jobs)
  {
    forall j | 0 <= j < |jobs| && Carries(jobs[j])
      ensures !ContainsDotDot(Target(jobs[j]))
    {
      EarlierIsOk(jobs, j + 1, |jobs|, sizes);
      AcceptedJobIsSafe(jobs, j, sizes);
    }
  }

  /** A mirror has every path of the forest, and no path is a file and a directory. */
  lemma MirrorKindsAgree(forest: seq<Tree>, jobs: seq<Visit>, d: Dest)
    requires ListsPlaces(forest, 0, jobs) && Mirrors(forest, d) && d.Sound()
    ensures AllKindsAgree(jobs)
  {
    forall i, j
      ensures KindsAgree(jobs, i, j)
    {
      if 0 <= i < |jobs| && 0 <= j < |jobs| {
        assert Place(forest, jobs[i].addr) && Place(forest, jobs[j].addr);
        assert Holds(d, jobs[i]) && Holds(d, jobs[j]);
      }
    }
  }

  lemma MirrorLastOpens(forest: seq<Tree>, jobs: seq<Visit>, s: Recv)
    requires ListsPlaces(forest, 0, jobs) && Leaves(jobs, |jobs|, s) && Mirrors(forest, Close(s).dest)
    ensures LastOpens(jobs)
  {
    assert jobs[..|jobs|] == jobs;
    forall j, p | LastAt(jobs, j, p)
      ensures Opens(jobs, j)
    {
      assert HoldsLast(jobs, j, Close(s).dest);
      assert Place(forest, jobs[j].addr);
      assert Holds(Close(s).dest, jobs[j]);
    }
  }

  lemma LeftMirrors(forest: seq<Tree>, jobs: seq<Visit>, s: Recv)
    requires ListsPlaces(forest, 0, jobs) && Leaves(jobs, |jobs|, s)
    requires FilesAgree(jobs) && LastOpens(jobs)
    ensures Mirrors(forest, Close(s).dest)
  {
    assert jobs[..|jobs|] == jobs;
    CloseKeepsPaths(s);
    var d := Close(s).dest;
    forall p
      ensures p in d.files <==> exists j :: LastAt(jobs, j, p)
    {
      if FileTarget(jobs, p) {
        var i :| 0 <= i < |jobs| && IsFullFile(jobs[i], p);
        SomeFileIsLast(jobs, i, p);
      }
    }
    AgreementMirrors(forest, jobs, d);
  }

  /**
   The exact condition for a mirror in the end, for any forest, however its names sanitize: every path is safe, none is
   shared by a directory and a non-empty file, non-empty files that share one agree in bytes and time, and the last of
   them is not right behind another on the wire.
   */
  lemma MirrorsIff(forest: seq<Tree>, sizes: ReadSizes)
    ensures var jobs := ForestJobs(forest, 0);
      var r := Fold(FRESH, Stream(jobs, 0, sizes));
      r.Ok? && Mirrors(forest, Close(r.value).dest)
      <==> AllSafe(jobs) && AllKindsAgree(jobs) && FilesAgree(jobs) && LastOpens(jobs)
  {
    var jobs := ForestJobs(forest, 0);
    var r := Fold(FRESH, Stream(jobs, 0, sizes));
    assert jobs[..|jobs|] == jobs;
    ForestJobsAreTheForest(forest, 0);
    if r.Ok? && Mirrors(forest, Close(r.value).dest) {
      AcceptedIsSafe(jobs, sizes);
      FoldKeepsSound(FRESH, Stream(jobs, 0, sizes));
      CloseKeepsPaths(r.value);
      MirrorKindsAgree(forest, jobs, Close(r.value).dest);
      AllLeave(jobs, |jobs|, sizes);
      MirrorNeedsAgreement(forest, jobs, Close(r.value).dest);
      MirrorLastOpens(forest, jobs, r.value);
    }
    if AllSafe(jobs) && AllKindsAgree(jobs) && FilesAgree(jobs) && LastOpens(jobs) {
      AllLeave(jobs, |jobs|, sizes);
      LeftMirrors(forest, jobs, r.value);
    }
  }

  /** The exact condition for every job of a forest to arrive when it is sent. */
  lemma ForestArrivesIff(forest: seq<Tree>, sizes: ReadSizes)
    ensures var jobs := ForestJobs(forest, 0);
      EveryJobArrives(jobs, sizes) <==> AllHarmless(jobs)
  {
    ArrivesIffHarmless(ForestJobs(forest, 0), sizes);
  }

  /** The directory of each job is a job before it, so among harmless jobs it is there when the job arrives. */
  lemma ParentArrivesFirst(forest: seq<Tree>, j: nat, sizes: ReadSizes)
    requires AllHarmless(ForestJobs(forest, 0)) && j < |ForestJobs(forest, 0)|
    ensures var jobs := ForestJobs(forest, 0);
      && After(jobs, j, sizes).Ok?
      && (jobs[j].base == "" || Sanitize(jobs[j].base) in After(jobs, j, sizes).value.dest.dirs)
  {
    var jobs := ForestJobs(forest, 0);
    DirectoriesFirst(forest, 0);
    HarmlessArrive(jobs, j, sizes);
    var s := After(jobs, j, sizes).value;
    ArrivedHasPaths(jobs, j, s);
    assert DirectoryEarlier(jobs, j);
    if jobs[j].base != "" {
      var p :| 0 <= p < j && jobs[p].node.Dir? && jobs[p].Rel() == jobs[j].base;
      assert jobs[..j][p] == jobs[p];
    }
  }

  /** A directory and a file of one sanitized path that are no neighbours on the wire end the transfer, whichever
      comes first. */
  lemma OtherKindIsRefused(jobs: seq<Visit>, i: nat, m: nat, sizes: ReadSizes)
    requires i < m < |jobs| && ArrivesUpTo(jobs, m, sizes)
    requires !KindsAgree(jobs, i, m) && Opens(jobs, m)
    ensures After(jobs, m + 1, sizes).Err?
  {
    var s := After(jobs, m, sizes).value;
    StateAfter(jobs, m, sizes);
    ArrivedHasPaths(jobs, m, s);
    PathsTellKinds(jobs, m, s.dest);
    LastPathIsNeighbour(jobs, m, m);
    AfterNext(jobs, m, sizes);
    RefusedIsErr(s, jobs[m], m, sizes);
  }

  /** A lost file: a directory and then a file with the same sanitized path are accepted, and no file arrives. */
  lemma FileAfterDirectoryIsLost(data: seq<byte>, sizes: ReadSizes)
    ensures var a, b := Dir("/1", "a:", true, []), File("/2", "a?", data, None);
      var r := Fold(FRESH, Stream(ForestJobs([a, b], 0), 0, sizes));
      r.Ok? && Close(r.value).dest.files == map[] && r.value.bytes == 0
  {
    var forest := [Dir("/1", "a:", true, []), File("/2", "a?", data, None)];
    var v, w := Root(forest, 0), Root(forest, 1);
    TwoLeaves(forest);
    StreamOne(v, 0, sizes);
    StreamOne(w, 1, sizes);
    assert [v, w] == [v] + [w];
    StreamAppend([v], [w], 0, sizes);
    SanitizesToA();
    NewPathArrives(FRESH, v, 0, sizes);
    var s := Fold(FRESH, JobChunks(v, 0, sizes)).value;
    FoldFirst(FRESH, DirChunk(v), []);
    assert JobChunks(v, 0, sizes) == [DirChunk(v)] + [];
    FoldAppend(FRESH, JobChunks(v, 0, sizes), JobChunks(w, 1, sizes));
    DirectoryEatsFile(s, w, 1, sizes, 0);
  }
}
