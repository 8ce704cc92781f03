/**
 What the sender means to send, as plain functions: the jobs in walk order, the
 full chunk stream for them, and what is sent when cancellation becomes visible
 after a given number of checks.
 */
module SendPlan {
  import opened Common
  import opened SourceTree
  import opened WalkDir
  import opened Transfers

  /** The length each read asks for, by job number and offset; any function is allowed. */
  type ReadSizes = (nat, nat) -> nat

  /** A read returns at least one byte and at most what is left and what the buffer holds. */
  function ReadLen(sizes: ReadSizes, k: nat, off: nat, remaining: nat): (n: nat)
    requires remaining > 0
    ensures 1 <= n <= remaining && n <= CHUNK_SIZE
  {
    var want := sizes(k, off);
    var most := if remaining < CHUNK_SIZE then remaining else CHUNK_SIZE;
    if want == 0 then 1 else if want > most then most else want
  }

  function DirChunk(v: Visit): FileChunk {
    FileChunk(v.Rel(), ToInt(DirectoryKind), "", [], 0x1ED, None)
  }

  /** The chunk for `n` bytes at `off`; only the first one of a file carries the time stamp. */
  function DataChunk(v: Visit, off: nat, n: nat): FileChunk
    requires v.node.File? && off + n <= |v.node.data|
  {
    FileChunk(v.Rel(), ToInt(FileKind), "", v.node.data[off..off + n], 0x1A4,
              if off == 0 then StampOf(v.node.modified) else None)
  }

  /** All chunks of a file from an offset on; none for an empty file. */
  function FileChunks(v: Visit, k: nat, sizes: ReadSizes, off: nat): seq<FileChunk>
    requires v.node.File? && off <= |v.node.data|
    decreases |v.node.data| - off
  {
    if off == |v.node.data| then []
    else
      var n := ReadLen(sizes, k, off, |v.node.data| - off);
      [DataChunk(v, off, n)] + FileChunks(v, k, sizes, off + n)
  }

  function JobChunks(v: Visit, k: nat, sizes: ReadSizes): seq<FileChunk> {
    if v.node.Dir? then [DirChunk(v)] else FileChunks(v, k, sizes, 0)
  }

  /** The full stream for a list of jobs, the first of which has number `k`. */
  function Stream(jobs: seq<Visit>, k: nat, sizes: ReadSizes): seq<FileChunk> {
    if jobs == [] then [] else JobChunks(jobs[0], k, sizes) + Stream(jobs[1..], k + 1, sizes)
  }

  lemma {:induction false} FileChunkFields(v: Visit, k: nat, sizes: ReadSizes, off: nat, i: nat)
    requires v.node.File? && off <= |v.node.data| && i < |FileChunks(v, k, sizes, off)|
    ensures var c := FileChunks(v, k, sizes, off)[i];
      && c.relativePath == v.Rel() && c.symlinkTarget == "" && c.fileType == 1 && c.fileMode == 0x1A4
      && 1 <= |c.data| <= 65536
      && c.time == if off == 0 && i == 0 then StampOf(v.node.modified) else None
    decreases i
  {
    if i > 0 {
      FileChunkFields(v, k, sizes, off + ReadLen(sizes, k, off, |v.node.data| - off), i - 1);
    }
  }

  /** What is on the wire: a chunk of a directory is of type 2, mode 0755 and empty; one of a file is of type 1, mode
      0644 and holds 1 to 65536 bytes. Only the first chunk of a file has a time, and none names a symlink target. */
  lemma JobChunkFields(v: Visit, k: nat, sizes: ReadSizes, i: nat)
    requires i < |JobChunks(v, k, sizes)|
    ensures var c := JobChunks(v, k, sizes)[i];
      && c.relativePath == v.Rel() && c.symlinkTarget == ""
      && (v.node.Dir? ==> c.fileType == 2 && c.fileMode == 0x1ED && c.data == [] && c.time == None)
      && (v.node.File? ==> c.fileType == 1 && c.fileMode == 0x1A4 && 1 <= |c.data| <= 65536)
      && (v.node.File? ==> c.time == if i == 0 then StampOf(v.node.modified) else None)
  {
    if v.node.File? {
      FileChunkFields(v, k, sizes, 0, i);
    }
  }

  /** The sender's work list: a check of the token, or one file or directory to send. */
  datatype Op = Poll | Emit(visit: Visit)

  function WalkOps(queue: seq<Visit>): seq<Op>
    decreases PendingSize(queue)
  {
    if queue == [] then []
    else
      StepShrinks(queue);
      [Poll, Emit(queue[0])] + WalkOps(queue[1..] + Kids(queue[0]))
  }

  function SourceOps(forest: seq<Tree>, i: nat): seq<Op>
    requires i < |forest|
  {
    var root := Root(forest, i);
    [Poll] + if root.node.File? then [Emit(root)] else WalkOps([root])
  }

  /** The work list for the sources from number `i` on. */
  function ForestOps(forest: seq<Tree>, i: nat): seq<Op>
    requires i <= |forest|
    decreases |forest| - i
  {
    if i == |forest| then [] else SourceOps(forest, i) + ForestOps(forest, i + 1)
  }

  function Jobs(ops: seq<Op>): seq<Visit> {
    if ops == [] then []
    else if ops[0].Emit? then [ops[0].visit] + Jobs(ops[1..])
    else Jobs(ops[1..])
  }

  /** What has been sent, whether the work list was finished, and how many checks would still pass. */
  datatype Outcome = Outcome(chunks: seq<FileChunk>, finished: bool, budget: nat)

  /** Sending one file when the next `budget` checks pass: a failed check ends the file quietly. */
  function RunFile(v: Visit, k: nat, sizes: ReadSizes, off: nat, budget: nat): (seq<FileChunk>, nat)
    requires v.node.File? && off <= |v.node.data|
    decreases |v.node.data| - off
  {
    if budget == 0 then ([], 0)
    else if off == |v.node.data| then ([], budget - 1)
    else
      var n := ReadLen(sizes, k, off, |v.node.data| - off);
      var (rest, left) := RunFile(v, k, sizes, off + n, budget - 1);
      ([DataChunk(v, off, n)] + rest, left)
  }

  function RunJob(v: Visit, k: nat, sizes: ReadSizes, budget: nat): (seq<FileChunk>, nat) {
    if v.node.Dir? then ([DirChunk(v)], budget) else RunFile(v, k, sizes, 0, budget)
  }

  /** Working through a list when the next `budget` checks pass: a failed check between jobs ends the run. */
  function Run(ops: seq<Op>, k: nat, sizes: ReadSizes, budget: nat): Outcome {
    if ops == [] then Outcome([], true, budget)
    else
      match ops[0]
      case Poll =>
        if budget == 0 then Outcome([], false, 0) else Run(ops[1..], k, sizes, budget - 1)
      case Emit(v) =>
        var (chunks, left) := RunJob(v, k, sizes, budget);
        var rest := Run(ops[1..], k + 1, sizes, left);
        Outcome(chunks + rest.chunks, rest.finished, rest.budget)
  }

  // ----- what the work list is -----

  lemma {:induction false} JobsAppend(a: seq<Op>, b: seq<Op>)
    ensures Jobs(a + b) == Jobs(a) + Jobs(b)
  {
    if a == [] {
      assert a + b == b;
    } else {
      JobsAppend(a[1..], b);
      assert (a + b)[1..] == a[1..] + b;
    }
  }

  lemma {:induction false} WalkJobs(queue: seq<Visit>)
    ensures Jobs(WalkOps(queue)) == Bfs(queue)
    decreases PendingSize(queue)
  {
    if queue == [] {
    } else {
      StepShrinks(queue);
      var next := queue[1..] + Kids(queue[0]);
      WalkJobs(next);
      JobsAppend([Poll, Emit(queue[0])], WalkOps(next));
      assert Jobs([Emit(queue[0])]) == [queue[0]] + Jobs([]);
      assert Jobs([Poll, Emit(queue[0])]) == Jobs([Emit(queue[0])]);
    }
  }

  /** The jobs for all sources from number `i` on: source by source, each in walk order. */
  function ForestJobs(forest: seq<Tree>, i: nat): seq<Visit>
    requires i <= |forest|
    decreases |forest| - i
  {
    if i == |forest| then [] else Bfs([Root(forest, i)]) + ForestJobs(forest, i + 1)
  }

  lemma JobsOfSource(forest: seq<Tree>, i: nat)
    requires i < |forest|
    ensures Jobs(SourceOps(forest, i)) == Bfs([Root(forest, i)])
  {
    var root := Root(forest, i);
    var body := if root.node.File? then [Emit(root)] else WalkOps([root]);
    JobsAppend([Poll], body);
    assert Jobs([Poll]) == Jobs([]);
    WalkJobs([root]);
    if root.node.File? {
      assert Jobs([Emit(root)]) == [root] + Jobs([]);
      assert [root][1..] + Kids(root) == [];
      assert Bfs([root]) == [root] + Bfs([]);
    }
  }

  lemma JobsOfParts(a: seq<Op>, b: seq<Op>, x: seq<Visit>, y: seq<Visit>)
    requires Jobs(a) == x && Jobs(b) == y
    ensures Jobs(a + b) == x + y
  {
    JobsAppend(a, b);
  }

  lemma JobsOfForestStep(forest: seq<Tree>, i: nat)
    requires i < |forest| && Jobs(ForestOps(forest, i + 1)) == ForestJobs(forest, i + 1)
    ensures Jobs(ForestOps(forest, i)) == ForestJobs(forest, i)
  {
    JobsOfSource(forest, i);
    JobsOfParts(SourceOps(forest, i), ForestOps(forest, i + 1), Bfs([Root(forest, i)]), ForestJobs(forest, i + 1));
  }

  lemma NoJobsLeft(forest: seq<Tree>)
    ensures Jobs(ForestOps(forest, |forest|)) == ForestJobs(forest, |forest|) == []
  {
    assert ForestOps(forest, |forest|) == [];
  }

  lemma {:induction false} JobsOfForest(forest: seq<Tree>, i: nat)
    requires i <= |forest|
    ensures Jobs(ForestOps(forest, i)) == ForestJobs(forest, i)
    decreases |forest| - i
  {
    if i == |forest| {
      NoJobsLeft(forest);
    } else {
      JobsOfForest(forest, i + 1);
      JobsOfForestStep(forest, i);
    }
  }

  // ----- what a cancelled run sends -----

  lemma {:induction false} RunFilePrefix(v: Visit, k: nat, sizes: ReadSizes, off: nat, budget: nat)
    requires v.node.File? && off <= |v.node.data|
    ensures var (chunks, left) := RunFile(v, k, sizes, off, budget);
      var all := FileChunks(v, k, sizes, off);
      && chunks <= all
      && |chunks| == (if budget < |all| then budget else |all|)
      && left == (if budget > |all| then budget - |all| - 1 else 0)
    decreases |v.node.data| - off
  {
    if budget > 0 && off < |v.node.data| {
      var n := ReadLen(sizes, k, off, |v.node.data| - off);
      RunFilePrefix(v, k, sizes, off + n, budget - 1);
    }
  }

  /** Between one job and the next there is always a check of the token. */
  ghost predicate Guarded(ops: seq<Op>) {
    forall i :: 0 <= i < |ops| - 1 && ops[i].Emit? ==> ops[i + 1].Poll?
  }

  /** A list that starts with a check and ends with a check and a job. */
  predicate Framed(ops: seq<Op>) {
    |ops| >= 2 && ops[0].Poll? && ops[|ops| - 2].Poll? && ops[|ops| - 1].Emit?
  }

  lemma GuardedAppend(a: seq<Op>, b: seq<Op>)
    requires Guarded(a) && Guarded(b) && (b != [] ==> Framed(b)) && (a != [] ==> Framed(a))
    ensures Guarded(a + b) && (a + b != [] ==> Framed(a + b))
  {
    var ops := a + b;
    forall i | 0 <= i < |ops| - 1 && ops[i].Emit?
      ensures ops[i + 1].Poll?
    {
      if i < |a| {
        assert a[i].Emit?;
      } else {
        assert b[i - |a|].Emit? && ops[i + 1] == b[i - |a| + 1];
      }
    }
    if b == [] {
      assert ops == a;
    } else {
      assert ops[|ops| - 2] == b[|b| - 2] && ops[|ops| - 1] == b[|b| - 1];
    }
  }

  lemma {:induction false} WalkIsGuarded(queue: seq<Visit>)
    ensures Guarded(WalkOps(queue))
    ensures queue != [] ==> Framed(WalkOps(queue))
    decreases PendingSize(queue)
  {
    if queue == [] {
    } else {
      StepShrinks(queue);
      var next := queue[1..] + Kids(queue[0]);
      WalkIsGuarded(next);
      GuardedAppend([Poll, Emit(queue[0])], WalkOps(next));
    }
  }

  lemma SourceIsGuarded(forest: seq<Tree>, i: nat)
    requires i < |forest|
    ensures Guarded(SourceOps(forest, i)) && Framed(SourceOps(forest, i))
  {
    var root := Root(forest, i);
    WalkIsGuarded([root]);
    var walk := WalkOps([root]);
    var ops := [Poll] + walk;
    assert forall j :: 0 < j < |ops| ==> ops[j] == walk[j - 1];
  }

  /** The work list checks the token before each source and each entry, and a job comes last. */
  lemma {:induction false} ForestIsGuarded(forest: seq<Tree>, i: nat)
    requires i <= |forest|
    ensures Guarded(ForestOps(forest, i))
    ensures i < |forest| ==> Framed(ForestOps(forest, i))
    decreases |forest| - i
  {
    if i == |forest| {
    } else {
      SourceIsGuarded(forest, i);
      ForestIsGuarded(forest, i + 1);
      GuardedAppend(SourceOps(forest, i), ForestOps(forest, i + 1));
    }
  }

  /** A job that is cut short leaves no budget, so the check behind it ends the run. */
  lemma EmitPrefix(ops: seq<Op>, k: nat, sizes: ReadSizes, budget: nat)
    requires Guarded(ops) && ops != [] && ops[0].Emit?
    requires var left := RunJob(ops[0].visit, k, sizes, budget).1;
      Run(ops[1..], k + 1, sizes, left).chunks <= Stream(Jobs(ops[1..]), k + 1, sizes)
    ensures Run(ops, k, sizes, budget).chunks <= Stream(Jobs(ops), k, sizes)
  {
    var v := ops[0].visit;
    var (chunks, left) := RunJob(v, k, sizes, budget);
    if v.node.File? { RunFilePrefix(v, k, sizes, 0, budget); }
    StreamOfEmit(ops, k, sizes);
    if chunks != JobChunks(v, k, sizes) {
      NothingAfterCut(ops[1..], k + 1, sizes);
    }
  }

  /** Without budget, a list that is empty or starts with a check sends nothing. */
  lemma NothingAfterCut(ops: seq<Op>, k: nat, sizes: ReadSizes)
    requires ops == [] || ops[0].Poll?
    ensures Run(ops, k, sizes, 0).chunks == []
  {
  }

  lemma GuardedTail(ops: seq<Op>)
    requires Guarded(ops) && ops != []
    ensures Guarded(ops[1..])
  {
  }

  /** Every run sends a prefix of the full stream. */
  lemma {:induction false} RunPrefix(ops: seq<Op>, k: nat, sizes: ReadSizes, budget: nat)
    requires Guarded(ops)
    ensures Run(ops, k, sizes, budget).chunks <= Stream(Jobs(ops), k, sizes)
    decreases |ops|
  {
    if ops == [] {
    } else {
      GuardedTail(ops);
      match ops[0]
      case Poll =>
        if budget > 0 {
          RunPrefix(ops[1..], k, sizes, budget - 1);
        }
      case Emit(v) =>
        RunPrefix(ops[1..], k + 1, sizes, RunJob(v, k, sizes, budget).1);
        EmitPrefix(ops, k, sizes, budget);
    }
  }

  lemma {:induction false} RunSpendsBudget(ops: seq<Op>, k: nat, sizes: ReadSizes, budget: nat)
    ensures Run(ops, k, sizes, budget).budget <= budget
  {
    if ops == [] {
    } else {
      match ops[0]
      case Poll =>
        if budget > 0 { RunSpendsBudget(ops[1..], k, sizes, budget - 1); }
      case Emit(v) =>
        if v.node.File? { RunFilePrefix(v, k, sizes, 0, budget); }
        RunSpendsBudget(ops[1..], k + 1, sizes, RunJob(v, k, sizes, budget).1);
    }
  }

  /** If the token is still uncancelled afterwards, the run was finished and sent the full stream. */
  lemma {:induction false} UncancelledRunIsFull(ops: seq<Op>, k: nat, sizes: ReadSizes, budget: nat)
    requires Run(ops, k, sizes, budget).budget > 0
    ensures Run(ops, k, sizes, budget).finished
    ensures Run(ops, k, sizes, budget).chunks == Stream(Jobs(ops), k, sizes)
  {
    if ops == [] {
    } else {
      match ops[0]
      case Poll =>
        UncancelledRunIsFull(ops[1..], k, sizes, budget - 1);
      case Emit(v) =>
        var (chunks, left) := RunJob(v, k, sizes, budget);
        if v.node.File? { RunFilePrefix(v, k, sizes, 0, budget); }
        RunSpendsBudget(ops[1..], k + 1, sizes, left);
        UncancelledRunIsFull(ops[1..], k + 1, sizes, left);
        assert Jobs(ops) == [v] + Jobs(ops[1..]);
    }
  }

  /** How many checks an undisturbed run makes: one per `Poll`, and one more than its chunks per file. */
  function Checks(ops: seq<Op>, k: nat, sizes: ReadSizes): nat {
    if ops == [] then 0
    else
      match ops[0]
      case Poll => 1 + Checks(ops[1..], k, sizes)
      case Emit(v) =>
        (if v.node.File? then |JobChunks(v, k, sizes)| + 1 else 0) + Checks(ops[1..], k + 1, sizes)
  }

  lemma StreamOfEmit(ops: seq<Op>, k: nat, sizes: ReadSizes)
    requires ops != [] && ops[0].Emit?
    ensures var v := ops[0].visit;
      Stream(Jobs(ops), k, sizes) == JobChunks(v, k, sizes) + Stream(Jobs(ops[1..]), k + 1, sizes)
  {
    assert Jobs(ops) == [ops[0].visit] + Jobs(ops[1..]);
    assert Jobs(ops)[1..] == Jobs(ops[1..]);
  }

  /** One job of a run: everything is sent and then the checks are paid for, or nothing is left for later ones. */
  lemma RunJobCost(v: Visit, k: nat, sizes: ReadSizes, budget: nat)
    ensures var (chunks, left) := RunJob(v, k, sizes, budget);
      var cost := if v.node.File? then |JobChunks(v, k, sizes)| + 1 else 0;
      && (left > 0 ==> left + cost == budget)
      && (left == 0 ==> budget <= cost)
      && (budget >= cost ==> chunks == JobChunks(v, k, sizes))
  {
    if v.node.File? { RunFilePrefix(v, k, sizes, 0, budget); }
  }

  /** A list that ends in a check is finished exactly when there is budget for all its checks. */
  lemma {:induction false} RunOfPolledList(ops: seq<Op>, k: nat, sizes: ReadSizes, budget: nat)
    requires Guarded(ops) && ops != [] && ops[|ops| - 1].Poll?
    ensures var out := Run(ops, k, sizes, budget);
      && (out.finished <==> budget >= Checks(ops, k, sizes))
      && (out.finished ==> out.budget == budget - Checks(ops, k, sizes))
      && (out.finished ==> out.chunks == Stream(Jobs(ops), k, sizes))
    ensures Checks(ops, k, sizes) > 0
    decreases |ops|
  {
    match ops[0]
    case Poll =>
      if |ops| > 1 {
        RunOfPolledList(ops[1..], k, sizes, if budget > 0 then budget - 1 else 0);
      } else {
        assert ops[1..] == [];
      }
    case Emit(v) =>
      var (chunks, left) := RunJob(v, k, sizes, budget);
      RunJobCost(v, k, sizes, budget);
      RunOfPolledList(ops[1..], k + 1, sizes, left);
      StreamOfEmit(ops, k, sizes);
  }

  /** Running a list in two parts. */
  lemma {:induction false} RunAppend(a: seq<Op>, b: seq<Op>, k: nat, sizes: ReadSizes, budget: nat)
    ensures var first := Run(a, k, sizes, budget);
      var all := Run(a + b, k, sizes, budget);
      if !first.finished then all == first
      else
        var second := Run(b, k + |Jobs(a)|, sizes, first.budget);
        all == Outcome(first.chunks + second.chunks, second.finished, second.budget)
  {
    if a == [] {
      assert a + b == b;
    } else {
      assert (a + b)[1..] == a[1..] + b;
      match a[0]
      case Poll =>
        if budget > 0 { RunAppend(a[1..], b, k, sizes, budget - 1); }
      case Emit(v) =>
        RunAppend(a[1..], b, k + 1, sizes, RunJob(v, k, sizes, budget).1);
        assert |Jobs(a)| == 1 + |Jobs(a[1..])|;
    }
  }

  lemma {:induction false} StreamAppend(a: seq<Visit>, b: seq<Visit>, k: nat, sizes: ReadSizes)
    ensures Stream(a + b, k, sizes) == Stream(a, k, sizes) + Stream(b, k + |a|, sizes)
  {
    if a == [] {
      assert a + b == b;
    } else {
      assert (a + b)[1..] == a[1..] + b;
      StreamAppend(a[1..], b, k + 1, sizes);
    }
  }

  lemma {:induction false} StreamSnoc(front: seq<Visit>, v: Visit, k: nat, sizes: ReadSizes)
    ensures Stream(front + [v], k, sizes) == Stream(front, k, sizes) + JobChunks(v, k + |front|, sizes)
    decreases |front|
  {
    if front == [] {
      assert [] + [v] == [v];
      StreamOne(v, k, sizes);
    } else {
      assert (front + [v])[1..] == front[1..] + [v];
      StreamSnoc(front[1..], v, k + 1, sizes);
    }
  }

  lemma RunOne(v: Visit, k: nat, sizes: ReadSizes, budget: nat)
    ensures Run([Emit(v)], k, sizes, budget)
         == Outcome(RunJob(v, k, sizes, budget).0, true, RunJob(v, k, sizes, budget).1)
  {
    var ops := [Emit(v)];
    assert ops[0] == Emit(v) && ops[1..] == [];
    assert Run([], k + 1, sizes, RunJob(v, k, sizes, budget).1) == Outcome([], true, RunJob(v, k, sizes, budget).1);
  }

  lemma StreamOne(v: Visit, k: nat, sizes: ReadSizes)
    ensures Stream([v], k, sizes) == JobChunks(v, k, sizes)
  {
    var jobs := [v];
    assert jobs[0] == v && jobs[1..] == [];
    assert Stream([], k + 1, sizes) == [];
  }

  /**
   Exactly when "completed" is reported for an incomplete stream: the cancellation becomes visible inside
   the last job, that job is a file, and some of its chunks have not been read yet.
   */
  lemma FinishedButShort(front: seq<Op>, v: Visit, sizes: ReadSizes, budget: nat)
    requires Guarded(front + [Emit(v)]) && front != [] && front[|front| - 1].Poll?
    ensures var ops := front + [Emit(v)];
      var out := Run(ops, 0, sizes, budget);
      var before := Checks(front, 0, sizes);
      out.finished && out.chunks != Stream(Jobs(ops), 0, sizes)
      <==> v.node.File? && before <= budget < before + |JobChunks(v, |Jobs(front)|, sizes)|
  {
    var ops := front + [Emit(v)];
    GuardedPrefix(front, v);
    RunOfPolledList(front, 0, sizes, budget);
    RunWithLast(front, v, sizes, budget);
    StreamWithLast(front, v, sizes);
    if Run(front, 0, sizes, budget).finished && v.node.File? {
      RunFilePrefix(v, |Jobs(front)|, sizes, 0, Run(front, 0, sizes, budget).budget);
    }
  }

  lemma LastIsJob(ops: seq<Op>)
    requires Framed(ops)
    ensures ops == ops[..|ops| - 1] + [Emit(ops[|ops| - 1].visit)]
    ensures ops[..|ops| - 1] != [] && ops[..|ops| - 1][|ops| - 2].Poll?
  {
  }

  /** The same for a whole forest, whose work list always ends with a check and a job. */
  lemma CompletedIffNotCutInLastFile(forest: seq<Tree>, sizes: ReadSizes, budget: nat)
    requires forest != []
    ensures var ops := ForestOps(forest, 0);
      var out := Run(ops, 0, sizes, budget);
      && |ops| >= 2 && ops[|ops| - 1].Emit?
      && var front, v := ops[..|ops| - 1], ops[|ops| - 1].visit;
      var before := Checks(front, 0, sizes);
      && (out.finished && out.chunks != Stream(ForestJobs(forest, 0), 0, sizes)
          <==> v.node.File? && before <= budget < before + |JobChunks(v, |Jobs(front)|, sizes)|)
  {
    var ops := ForestOps(forest, 0);
    ForestIsGuarded(forest, 0);
    JobsOfForest(forest, 0);
    LastIsJob(ops);
    FinishedButShort(ops[..|ops| - 1], ops[|ops| - 1].visit, sizes, budget);
  }

  lemma GuardedPrefix(front: seq<Op>, v: Visit)
    requires Guarded(front + [Emit(v)])
    ensures Guarded(front)
  {
    var ops := front + [Emit(v)];
    forall i | 0 <= i < |front| - 1 && front[i].Emit?
      ensures front[i + 1].Poll?
    {
      assert ops[i].Emit? && ops[i + 1] == front[i + 1];
    }
  }

  lemma RunWithLast(front: seq<Op>, v: Visit, sizes: ReadSizes, budget: nat)
    ensures var first, out := Run(front, 0, sizes, budget), Run(front + [Emit(v)], 0, sizes, budget);
      && (!first.finished ==> out == first)
      && (first.finished ==> out.finished)
      && (first.finished ==> out.chunks == first.chunks + RunJob(v, |Jobs(front)|, sizes, first.budget).0)
  {
    RunAppend(front, [Emit(v)], 0, sizes, budget);
    RunOne(v, |Jobs(front)|, sizes, Run(front, 0, sizes, budget).budget);
  }

  lemma StreamWithLast(front: seq<Op>, v: Visit, sizes: ReadSizes)
    ensures Stream(Jobs(front + [Emit(v)]), 0, sizes)
         == Stream(Jobs(front), 0, sizes) + JobChunks(v, |Jobs(front)|, sizes)
  {
    JobsWithLast(front, v);
    StreamSnoc(Jobs(front), v, 0, sizes);
  }

  lemma JobsWithLast(front: seq<Op>, v: Visit)
    ensures Jobs(front + [Emit(v)]) == Jobs(front) + [v]
  {
    JobsAppend(front, [Emit(v)]);
    assert [Emit(v)][0] == Emit(v) && [Emit(v)][1..] == [];
  }

  /** The stronger promise fails: one file of two bytes, cancelled after its first chunk, still counts as completed. */
  lemma CompletedButCut()
    ensures exists forest: seq<Tree>, sizes: ReadSizes, budget: nat ::
      var out := Run(ForestOps(forest, 0), 0, sizes, budget);
      out.finished && out.chunks != Stream(ForestJobs(forest, 0), 0, sizes)
  {
    var forest := [File("/f", "f", [1, 2], None)];
    var sizes: ReadSizes := (k, off) => 1;
    var v := Root(forest, 0);
    OneFileOps(forest);
    OnePoll(sizes);
    TwoByteChunks(v, sizes);
    FinishedButShort([Poll], v, sizes, 1);
    JobsOfForest(forest, 0);
    var out := Run(ForestOps(forest, 0), 0, sizes, 1);
    assert out.finished && out.chunks != Stream(ForestJobs(forest, 0), 0, sizes);
  }

  lemma OneFileOps(forest: seq<Tree>)
    requires |forest| == 1 && forest[0].File?
    ensures ForestOps(forest, 0) == [Poll] + [Emit(Root(forest, 0))]
  {
    assert ForestOps(forest, 1) == [];
    assert SourceOps(forest, 0) == [Poll] + [Emit(Root(forest, 0))];
  }

  lemma OnePoll(sizes: ReadSizes)
    ensures Checks([Poll], 0, sizes) == 1 && Jobs([Poll]) == []
  {
    assert Checks([Poll], 0, sizes) == 1 + Checks([], 0, sizes) && Jobs([Poll]) == Jobs([]);
  }

  lemma TwoByteChunks(v: Visit, sizes: ReadSizes)
    requires v.node.File? && |v.node.data| == 2
    ensures |JobChunks(v, 0, sizes)| > 0
  {
  }
}
