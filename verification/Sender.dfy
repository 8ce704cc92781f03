/**
 The sending task: nested loops over sources, walker entries and reads, proved
 to send exactly what `SendPlan.Run` says.
 */
module Sender {
  import opened Common
  import opened SourceTree
  import opened WalkDir
  import opened Transfers
  import opened MovingAverage
  import opened SendPlan

  /** A token seen through its checks: the first `cancelAt` of them find it uncancelled, the later ones do not. */
  class CancellationToken {
    const cancelAt: nat
    var checks: nat

    constructor (cancelAt: nat)
      ensures this.cancelAt == cancelAt && checks == 0
    {
      this.cancelAt := cancelAt;
      checks := 0;
    }

    /** How many further checks pass. */
    function Budget(): nat
      reads this
    {
      if checks < cancelAt then cancelAt - checks else 0
    }

    method IsCancelled() returns (cancelled: bool)
      modifies this`checks
      ensures checks == old(checks) + 1 && (cancelled <==> old(checks) >= cancelAt)
      ensures cancelled <==> old(Budget()) == 0
      ensures Budget() == if old(Budget()) == 0 then 0 else old(Budget()) - 1
    {
      cancelled := checks >= cancelAt;
      checks := checks + 1;
    }
  }

  /** The sending half of the channel; a send may fail at any time and then nothing is queued. `faults` are the calls
      that have failed so far to the sender that fills it, on the channel or on the filesystem. */
  class ChunkSender {
    var sent: seq<FileChunk>
    ghost var faults: seq<Fault>

    constructor ()
      ensures sent == [] && faults == []
    {
      sent := [];
      faults := [];
    }

    method Send(chunk: FileChunk) returns (ok: bool)
      modifies this
      ensures sent == if ok then old(sent) + [chunk] else old(sent)
      ensures faults == if ok then old(faults) else old(faults) + [SendFault]
    {
      ok := *;
      if ok {
        sent := sent + [chunk];
      } else {
        faults := faults + [SendFault];
      }
    }

    /** A call on an open file, which may fail at any time. */
    method CallFile() returns (fault: Option<IoErrorKind>)
      modifies this`faults
      ensures faults == if fault.None? then old(faults) else old(faults) + [FileFault(fault.value)]
    {
      var fails: bool := *;
      if !fails {
        return None;
      }
      var kind: IoErrorKind := *;
      faults := faults + [FileFault(kind)];
      return Some(kind);
    }

    /** A call of the application's filesystem, which may fail at any time. */
    method CallVfs() returns (fault: Option<VirtualFilesystemError>)
      modifies this`faults
      ensures faults == if fault.None? then old(faults) else old(faults) + [VfsFault(fault.value)]
    {
      var fails: bool := *;
      if !fails {
        return None;
      }
      var cause: VirtualFilesystemError := *;
      faults := faults + [VfsFault(cause)];
      return Some(cause);
    }
  }

  /** The fields of a transfer record that a stream task touches. */
  class Progress {
    var state: TransferState
    var bytesTransferred: nat
    var bytesPerSecond: nat

    constructor (state: TransferState)
      ensures this.state == state && bytesTransferred == 0 && bytesPerSecond == 0
    {
      this.state := state;
      bytesTransferred := 0;
      bytesPerSecond := 0;
    }
  }

  function DataLength(chunks: seq<FileChunk>): nat {
    if chunks == [] then 0 else DataLength(chunks[..|chunks| - 1]) + |chunks[|chunks| - 1].data|
  }

  lemma DataLengthSnoc(chunks: seq<FileChunk>, c: FileChunk)
    ensures DataLength(chunks + [c]) == DataLength(chunks) + |c.data|
  {
    assert (chunks + [c])[..|chunks|] == chunks;
  }

  /** Accounts for `n` bytes: they are counted, and the speed shown is the mean of the last 30 rates. */
  method CountProgress(n: nat, speed: MovingAverageCalculator, transfer: Progress)
    requires speed.Covers(30)
    modifies speed, transfer`bytesTransferred, transfer`bytesPerSecond
    ensures speed.Covers(30) && |speed.pushes| > 0 && speed.pushes[..|speed.pushes| - 1] == old(speed.pushes)
    ensures speed.pushes[|speed.pushes| - 1].0 == n && speed.pushes[|speed.pushes| - 1].1 >= 0.001
    ensures transfer.bytesPerSecond == Mean(LastN(Rates(speed.pushes), 30))
    ensures transfer.bytesTransferred == old(transfer.bytesTransferred) + n
  {
    var elapsed: real := *;
    if elapsed < 0.001 {
      elapsed := 0.001;
    }
    var average := speed.Push(n, elapsed);
    transfer.bytesTransferred := transfer.bytesTransferred + n;
    transfer.bytesPerSecond := average;
  }

  /** Sends one chunk and, for file data, accounts for it. */
  method SendData(chunk: FileChunk, speed: MovingAverageCalculator, tx: ChunkSender, transfer: Progress)
    returns (ok: bool)
    requires speed.Covers(30)
    modifies speed, tx, transfer`bytesTransferred, transfer`bytesPerSecond
    ensures speed.Covers(30)
    ensures tx.sent == if ok then old(tx.sent) + [chunk] else old(tx.sent)
    ensures tx.faults == if ok then old(tx.faults) else old(tx.faults) + [SendFault]
    ensures ok ==>
      && |speed.pushes| > 0 && speed.pushes[..|speed.pushes| - 1] == old(speed.pushes)
      && speed.pushes[|speed.pushes| - 1].0 == |chunk.data| && speed.pushes[|speed.pushes| - 1].1 >= 0.001
      && transfer.bytesPerSecond == Mean(LastN(Rates(speed.pushes), 30))
    ensures transfer.bytesTransferred - DataLength(tx.sent) == old(transfer.bytesTransferred - DataLength(tx.sent))
  {
    ok := tx.Send(chunk);
    if !ok {
      return;
    }
    DataLengthSnoc(old(tx.sent), chunk);
    CountProgress(|chunk.data|, speed, transfer);
  }

  /** What is still to be sent of a file from an offset on completes what the whole file's run sends. */
  ghost predicate FileOnTrack(all: (seq<FileChunk>, nat), sentBefore: seq<FileChunk>, sentNow: seq<FileChunk>,
                              v: Visit, k: nat, sizes: ReadSizes, off: nat, budget: nat)
    requires v.node.File? && off <= |v.node.data|
  {
    var todo := RunFile(v, k, sizes, off, budget);
    sentBefore <= sentNow && sentBefore + all.0 == sentNow + todo.0 && all.1 == todo.1
  }

  lemma FileOnTrackPrefix(all: (seq<FileChunk>, nat), sentBefore: seq<FileChunk>, sentNow: seq<FileChunk>,
                          v: Visit, k: nat, sizes: ReadSizes, off: nat, budget: nat)
    requires v.node.File? && off <= |v.node.data|
    requires FileOnTrack(all, sentBefore, sentNow, v, k, sizes, off, budget)
    ensures sentBefore <= sentNow <= sentBefore + all.0
    ensures budget == 0 ==> sentNow == sentBefore + all.0 && all.1 == 0
    ensures budget > 0 && off == |v.node.data| ==> sentNow == sentBefore + all.0 && all.1 == budget - 1
  {
  }

  lemma FileOnTrackNext(all: (seq<FileChunk>, nat), sentBefore: seq<FileChunk>, sentNow: seq<FileChunk>,
                        v: Visit, k: nat, sizes: ReadSizes, off: nat, budget: nat)
    requires v.node.File? && off < |v.node.data| && budget > 0
    requires FileOnTrack(all, sentBefore, sentNow, v, k, sizes, off, budget)
    ensures var n := ReadLen(sizes, k, off, |v.node.data| - off);
      FileOnTrack(all, sentBefore, sentNow + [DataChunk(v, off, n)], v, k, sizes, off + n, budget - 1)
  {
    var n := ReadLen(sizes, k, off, |v.node.data| - off);
    Regroup(sentNow, [DataChunk(v, off, n)], RunFile(v, k, sizes, off + n, budget - 1).0);
  }

  /** Reads from an offset and sends what was read as the next chunk; 0 at the end of the file. */
  method SendNextPiece(v: Visit, fileNo: nat, sizes: ReadSizes, off: nat, time: Option<FileTime>,
                       speed: MovingAverageCalculator, tx: ChunkSender, transfer: Progress)
    returns (r: Result<nat, TransferError>)
    requires v.node.File? && off <= |v.node.data|
    requires time == if off == 0 then StampOf(v.node.modified) else None
    requires speed.Covers(30)
    modifies speed, tx, transfer`bytesTransferred, transfer`bytesPerSecond
    ensures speed.Covers(30)
    ensures Reports(r, old(tx.faults), tx.faults)
    ensures r.Err? || off == |v.node.data| ==> tx.sent == old(tx.sent)
    ensures r.Ok? ==>
      if off == |v.node.data| then r.value == 0
      else
        && r.value == ReadLen(sizes, fileNo, off, |v.node.data| - off)
        && tx.sent == old(tx.sent) + [DataChunk(v, off, r.value)]
    ensures transfer.bytesTransferred - DataLength(tx.sent) == old(transfer.bytesTransferred - DataLength(tx.sent))
  {
    var fault := tx.CallFile();
    if fault.Some? {
      return Err(FromIo(fault.value));
    }
    if off == |v.node.data| {
      return Ok(0);
    }
    var n := ReadLen(sizes, fileNo, off, |v.node.data| - off);
    var chunk := FileChunk(v.Rel(), ToInt(FileKind), "", v.node.data[off..off + n], 0x1A4, time);
    var ok := SendData(chunk, speed, tx, transfer);
    return if ok then Ok(n) else Err(ConnectionLost);
  }

  /** Reads and sends one piece on the way to what the whole file's run sends; `budget` was there before the check. */
  method SendPieceOnTrack(v: Visit, fileNo: nat, sizes: ReadSizes, off: nat, time: Option<FileTime>,
                          speed: MovingAverageCalculator, tx: ChunkSender, transfer: Progress,
                          ghost all: (seq<FileChunk>, nat), ghost sentBefore: seq<FileChunk>, ghost budget: nat)
    returns (r: Result<nat, TransferError>)
    requires v.node.File? && off <= |v.node.data| && budget > 0
    requires time == if off == 0 then StampOf(v.node.modified) else None
    requires speed.Covers(30) && FileOnTrack(all, sentBefore, tx.sent, v, fileNo, sizes, off, budget)
    modifies speed, tx, transfer`bytesTransferred, transfer`bytesPerSecond
    ensures speed.Covers(30) && Reports(r, old(tx.faults), tx.faults)
    ensures r.Err? ==> sentBefore <= tx.sent <= sentBefore + all.0
    ensures r == Ok(0) ==> tx.sent == sentBefore + all.0 && all.1 == budget - 1
    ensures r.Ok? && r.value > 0 ==>
      && off + r.value <= |v.node.data|
      && FileOnTrack(all, sentBefore, tx.sent, v, fileNo, sizes, off + r.value, budget - 1)
    ensures transfer.bytesTransferred - DataLength(tx.sent) == old(transfer.bytesTransferred - DataLength(tx.sent))
  {
    FileOnTrackPrefix(all, sentBefore, tx.sent, v, fileNo, sizes, off, budget);
    if off < |v.node.data| {
      FileOnTrackNext(all, sentBefore, tx.sent, v, fileNo, sizes, off, budget);
    }
    r := SendNextPiece(v, fileNo, sizes, off, time, speed, tx, transfer);
  }

  /** One round of the reading loop: the check, then a piece. None when the loop is over. */
  method SendFileRound(v: Visit, fileNo: nat, sizes: ReadSizes, off: nat, time: Option<FileTime>,
                       speed: MovingAverageCalculator, tx: ChunkSender, token: CancellationToken, transfer: Progress,
                       ghost all: (seq<FileChunk>, nat), ghost sentBefore: seq<FileChunk>)
    returns (r: Result<Option<nat>, TransferError>)
    requires v.node.File? && off <= |v.node.data|
    requires time == if off == 0 then StampOf(v.node.modified) else None
    requires speed.Covers(30) && FileOnTrack(all, sentBefore, tx.sent, v, fileNo, sizes, off, token.Budget())
    modifies speed, tx, token`checks, transfer`bytesTransferred, transfer`bytesPerSecond
    ensures speed.Covers(30) && Reports(r, old(tx.faults), tx.faults)
    ensures r.Err? ==> sentBefore <= tx.sent <= sentBefore + all.0
    ensures r == Ok(None) ==> tx.sent == sentBefore + all.0 && token.Budget() == all.1
    ensures r.Ok? && r.value.Some? ==>
      && 0 < r.value.value && off + r.value.value <= |v.node.data|
      && FileOnTrack(all, sentBefore, tx.sent, v, fileNo, sizes, off + r.value.value, token.Budget())
    ensures transfer.bytesTransferred - DataLength(tx.sent) == old(transfer.bytesTransferred - DataLength(tx.sent))
  {
    ghost var budget := token.Budget();
    FileOnTrackPrefix(all, sentBefore, tx.sent, v, fileNo, sizes, off, budget);
    var cancelled := token.IsCancelled();
    if cancelled {
      return Ok(None);
    }
    var read := SendPieceOnTrack(v, fileNo, sizes, off, time, speed, tx, transfer, all, sentBefore, budget);
    match read {
      case Err(e) => return Err(e);
      case Ok(n) => return Ok(if n == 0 then None else Some(n));
    }
  }

  /** Reads and sends one open file; stops quietly at the first check that finds the token cancelled. */
  method SendFileInner(v: Visit, fileNo: nat, sizes: ReadSizes, speed: MovingAverageCalculator,
                       tx: ChunkSender, token: CancellationToken, transfer: Progress)
    returns (r: Result<(), TransferError>)
    requires v.node.File? && speed.Covers(30)
    modifies speed, tx, token`checks, transfer`bytesTransferred, transfer`bytesPerSecond
    ensures speed.Covers(30) && Reports(r, old(tx.faults), tx.faults)
    ensures var (chunks, left) := RunFile(v, fileNo, sizes, 0, old(token.Budget()));
      if r.Ok? then tx.sent == old(tx.sent) + chunks && token.Budget() == left
      else old(tx.sent) <= tx.sent <= old(tx.sent) + chunks
    ensures transfer.bytesTransferred - DataLength(tx.sent) == old(transfer.bytesTransferred - DataLength(tx.sent))
  {
    var fileTime := StampOf(v.node.modified);
    var firstChunk := true;
    var off := 0;
    ghost var all := RunFile(v, fileNo, sizes, 0, token.Budget());
    while true
      invariant 0 <= off <= |v.node.data|
      invariant firstChunk <==> off == 0
      invariant speed.Covers(30) && tx.faults == old(tx.faults)
      invariant FileOnTrack(all, old(tx.sent), tx.sent, v, fileNo, sizes, off, token.Budget())
      invariant transfer.bytesTransferred - DataLength(tx.sent) == old(transfer.bytesTransferred - DataLength(tx.sent))
      decreases |v.node.data| - off
    {
      var round := SendFileRound(v, fileNo, sizes, off, if firstChunk then fileTime else None,
                                 speed, tx, token, transfer, all, old(tx.sent));
      match round {
        case Err(e) => return Err(e);
        case Ok(None) => return Ok(());
        case Ok(Some(n)) =>
          firstChunk := false;
          off := off + n;
      }
    }
  }

  /** Everything still to do once the loops have worked the list down to `rest`. */
  ghost predicate OnTrack(all: Outcome, sentBefore: seq<FileChunk>, sentNow: seq<FileChunk>,
                          rest: seq<Op>, k: nat, sizes: ReadSizes, budget: nat)
  {
    var todo := Run(rest, k, sizes, budget);
    && sentBefore <= sentNow
    && sentBefore + all.chunks == sentNow + todo.chunks
    && all.finished == todo.finished
    && all.budget == todo.budget
  }

  /** Emitting one job moves the list one step. */
  lemma OnTrackEmit(all: Outcome, sentBefore: seq<FileChunk>, sentNow: seq<FileChunk>,
                    v: Visit, rest: seq<Op>, k: nat, sizes: ReadSizes, budget: nat)
    requires OnTrack(all, sentBefore, sentNow, [Emit(v)] + rest, k, sizes, budget)
    ensures var (chunks, left) := RunJob(v, k, sizes, budget);
      && OnTrack(all, sentBefore, sentNow + chunks, rest, k + 1, sizes, left)
      && sentNow + chunks <= sentBefore + all.chunks
  {
    var ops := [Emit(v)] + rest;
    assert ops[1..] == rest && ops[0] == Emit(v);
    var (chunks, left) := RunJob(v, k, sizes, budget);
    var todo := Run(rest, k + 1, sizes, left);
    assert sentNow + (chunks + todo.chunks) == (sentNow + chunks) + todo.chunks;
  }

  lemma OnTrackPoll(all: Outcome, sentBefore: seq<FileChunk>, sentNow: seq<FileChunk>,
                    rest: seq<Op>, k: nat, sizes: ReadSizes, budget: nat)
    requires OnTrack(all, sentBefore, sentNow, [Poll] + rest, k, sizes, budget)
    ensures budget > 0 ==> OnTrack(all, sentBefore, sentNow, rest, k, sizes, budget - 1)
    ensures budget == 0 ==> sentNow == sentBefore + all.chunks && !all.finished && all.budget == 0
  {
    var ops := [Poll] + rest;
    assert ops[1..] == rest && ops[0] == Poll;
  }

  /** How far an early result of the whole call has got: nothing more can follow, or an error cut the run short. */
  ghost predicate EndsEarly(stop: Result<bool, TransferError>, all: Outcome, sentBefore: seq<FileChunk>,
                            sentNow: seq<FileChunk>, budget: nat)
  {
    match stop
    case Ok(completed) =>
      !completed && !all.finished && all.budget == 0 && budget == 0 && sentNow == sentBefore + all.chunks
    case Err(_) => sentBefore <= sentNow <= sentBefore + all.chunks
  }

  /** Going on, or an early end, tells what failed. */
  ghost predicate StopReports(stop: Option<Result<bool, TransferError>>, before: seq<Fault>, after: seq<Fault>) {
    if stop.None? then after == before else Reports(stop.value, before, after)
  }

  /** The work list of one source after its first check. */
  function SourceBody(root: Visit): seq<Op> {
    if root.node.File? then [Emit(root)] else WalkOps([root])
  }

  lemma NextSource(forest: seq<Tree>, i: nat)
    requires i < |forest|
    ensures ForestOps(forest, i) == [Poll] + (SourceBody(Root(forest, i)) + ForestOps(forest, i + 1))
  {
  }

  lemma AllSourcesDone(all: Outcome, sentBefore: seq<FileChunk>, sentNow: seq<FileChunk>, forest: seq<Tree>, k: nat,
                       sizes: ReadSizes, budget: nat)
    requires OnTrack(all, sentBefore, sentNow, ForestOps(forest, |forest|), k, sizes, budget)
    ensures sentNow == sentBefore + all.chunks && all.finished && budget == all.budget
  {
  }

  /** Sends every source in turn. `forest` is what the filesystem holds at `sources`. */
  method SendStreamInner(vfs: Vfs, sources: seq<string>, ghost forest: seq<Tree>, sizes: ReadSizes,
                         tx: ChunkSender, token: CancellationToken, transfer: Progress)
    returns (r: Result<bool, TransferError>)
    requires |forest| == |sources|
    requires forall i :: 0 <= i < |forest| ==> forest[i].path == sources[i] && Mounted(vfs, forest[i])
    modifies tx, token`checks, transfer`bytesTransferred, transfer`bytesPerSecond
    ensures var all := Run(ForestOps(forest, 0), 0, sizes, old(token.Budget()));
      if r.Ok? then tx.sent == old(tx.sent) + all.chunks && r.value == all.finished && token.Budget() == all.budget
      else old(tx.sent) <= tx.sent <= old(tx.sent) + all.chunks
    ensures Reports(r, old(tx.faults), tx.faults) && (r == Ok(false) ==> token.checks > token.cancelAt)
    ensures transfer.bytesTransferred - DataLength(tx.sent) == old(transfer.bytesTransferred - DataLength(tx.sent))
  {
    var speed := new MovingAverageCalculator(WINDOW);
    var jobNo := 0;
    ghost var all := Run(ForestOps(forest, 0), 0, sizes, token.Budget());
    assert OnTrack(all, tx.sent, tx.sent, ForestOps(forest, 0), 0, sizes, token.Budget());
    for i := 0 to |sources|
      invariant fresh(speed) && speed.Covers(30) && tx.faults == old(tx.faults)
      invariant OnTrack(all, old(tx.sent), tx.sent, ForestOps(forest, i), jobNo, sizes, token.Budget())
      invariant transfer.bytesTransferred - DataLength(tx.sent) == old(transfer.bytesTransferred - DataLength(tx.sent))
    {
      var stop: Option<Result<bool, TransferError>>;
      stop, jobNo := SendSource(vfs, sources[i], forest, i, all, old(tx.sent), jobNo, sizes,
                                speed, tx, token, transfer);
      if stop.Some? {
        return stop.value;
      }
    }
    AllSourcesDone(all, old(tx.sent), tx.sent, forest, jobNo, sizes, token.Budget());
    return Ok(true);
  }

  /** A metadata call; it may fail at any time. */
  method QueryMetadata(vfs: Vfs, path: string, tx: ChunkSender)
    returns (r: Result<VirtualEntry, VirtualFilesystemError>)
    requires vfs.Metadata(path).Ok?
    modifies tx`faults
    ensures r.Ok? ==> r == vfs.Metadata(path)
    ensures tx.faults == if r.Ok? then old(tx.faults) else old(tx.faults) + [VfsFault(r.error)]
  {
    var fault := tx.CallVfs();
    r := if fault.Some? then Err(fault.value) else vfs.Metadata(path);
  }

  /** Opening a file; it may fail at any time. */
  method QueryFile(vfs: Vfs, path: string, tx: ChunkSender)
    returns (r: Result<(seq<byte>, Option<int>), VirtualFilesystemError>)
    requires vfs.OpenFile(path).Ok?
    modifies tx`faults
    ensures r.Ok? ==> r == vfs.OpenFile(path)
    ensures tx.faults == if r.Ok? then old(tx.faults) else old(tx.faults) + [VfsFault(r.error)]
  {
    var fault := tx.CallVfs();
    r := if fault.Some? then Err(fault.value) else vfs.OpenFile(path);
  }

  /** One round of the loop over the sources; `stop` is the early result of the whole call, if any. */
  method SendSource(vfs: Vfs, source: string, ghost forest: seq<Tree>, ghost i: nat, ghost all: Outcome,
                    ghost sentBefore: seq<FileChunk>, jobNo: nat, sizes: ReadSizes,
                    speed: MovingAverageCalculator, tx: ChunkSender, token: CancellationToken, transfer: Progress)
    returns (stop: Option<Result<bool, TransferError>>, nextJob: nat)
    requires i < |forest| && forest[i].path == source && Mounted(vfs, forest[i])
    requires speed.Covers(30)
    requires OnTrack(all, sentBefore, tx.sent, ForestOps(forest, i), jobNo, sizes, token.Budget())
    modifies speed, tx, token`checks, transfer`bytesTransferred, transfer`bytesPerSecond
    ensures speed.Covers(30)
    ensures stop.None? ==> OnTrack(all, sentBefore, tx.sent, ForestOps(forest, i + 1), nextJob, sizes, token.Budget())
    ensures stop.Some? ==> EndsEarly(stop.value, all, sentBefore, tx.sent, token.Budget())
    ensures StopReports(stop, old(tx.faults), tx.faults) && (stop == Some(Ok(false)) ==> token.checks > token.cancelAt)
    ensures transfer.bytesTransferred - DataLength(tx.sent) == old(transfer.bytesTransferred - DataLength(tx.sent))
  {
    ghost var root, later := Root(forest, i), ForestOps(forest, i + 1);
    NextSource(forest, i);
    nextJob := jobNo;
    OnTrackPoll(all, sentBefore, tx.sent, SourceBody(root) + later, jobNo, sizes, token.Budget());
    var cancelled := token.IsCancelled();
    if cancelled {
      return Some(Ok(false)), nextJob;
    }
    var metadata := QueryMetadata(vfs, source, tx);
    if metadata.Err? {
      return Some(Err(VfsError(metadata.error))), nextJob;
    }
    if !metadata.value.isDir {
      OnTrackEmit(all, sentBefore, tx.sent, root, later, jobNo, sizes, token.Budget());
      var sent := SendFile(vfs, source, metadata.value.name, root, jobNo, sizes, speed, tx, token, transfer);
      if sent.Err? {
        return Some(Err(sent.error)), nextJob;
      }
      return None, jobNo + 1;
    }
    stop, nextJob := SendWalk(vfs, source, metadata.value.name, root, all, sentBefore, later, jobNo, sizes,
                              speed, tx, token, transfer);
  }

  /** Opens a file of the virtual filesystem and sends it under a relative path. */
  method SendFile(vfs: Vfs, path: string, rel: string, ghost v: Visit, fileNo: nat, sizes: ReadSizes,
                  speed: MovingAverageCalculator, tx: ChunkSender, token: CancellationToken, transfer: Progress)
    returns (r: Result<(), TransferError>)
    requires v.node.File? && v.node.path == path && v.Rel() == rel && Mounted(vfs, v.node) && speed.Covers(30)
    modifies speed, tx, token`checks, transfer`bytesTransferred, transfer`bytesPerSecond
    ensures speed.Covers(30) && Reports(r, old(tx.faults), tx.faults)
    ensures var (chunks, left) := RunJob(v, fileNo, sizes, old(token.Budget()));
      if r.Ok? then tx.sent == old(tx.sent) + chunks && token.Budget() == left
      else old(tx.sent) <= tx.sent <= old(tx.sent) + chunks
    ensures transfer.bytesTransferred - DataLength(tx.sent) == old(transfer.bytesTransferred - DataLength(tx.sent))
  {
    var handle := QueryFile(vfs, path, tx);
    if handle.Err? {
      return Err(VfsError(handle.error));
    }
    var fault := tx.CallFile();
    if fault.Some? {
      return Err(FromIo(fault.value));
    }
    var (data, modified) := handle.value;
    // The open file, under the path it is sent with.
    var file := Visit([], "", File(path, rel, data, modified));
    SameFileSameRun(v, file, fileNo, sizes, 0, token.Budget());
    r := SendFileInner(file, fileNo, sizes, speed, tx, token, transfer);
  }

  /** What is sent for a file depends only on its path on the wire, its bytes and its time. */
  lemma {:induction false} SameFileSameRun(v: Visit, w: Visit, k: nat, sizes: ReadSizes, off: nat, budget: nat)
    requires v.node.File? && w.node.File? && v.Rel() == w.Rel()
    requires v.node.data == w.node.data && v.node.modified == w.node.modified
    requires off <= |v.node.data|
    ensures RunFile(v, k, sizes, off, budget) == RunFile(w, k, sizes, off, budget)
    decreases |v.node.data| - off
  {
    if budget > 0 && off < |v.node.data| {
      SameFileSameRun(v, w, k, sizes, off + ReadLen(sizes, k, off, |v.node.data| - off), budget - 1);
    }
  }

  /** Sends one entry of a walk. */
  method SendEntry(vfs: Vfs, entry: WalkDirEntry, ghost v: Visit, jobNo: nat, sizes: ReadSizes,
                   speed: MovingAverageCalculator, tx: ChunkSender, token: CancellationToken, transfer: Progress)
    returns (r: Result<(), TransferError>)
    requires entry == EntryOf(v) && Mounted(vfs, v.node) && speed.Covers(30)
    modifies speed, tx, token`checks, transfer`bytesTransferred, transfer`bytesPerSecond
    ensures speed.Covers(30) && Reports(r, old(tx.faults), tx.faults)
    ensures var (chunks, left) := RunJob(v, jobNo, sizes, old(token.Budget()));
      if r.Ok? then tx.sent == old(tx.sent) + chunks && token.Budget() == left
      else old(tx.sent) <= tx.sent <= old(tx.sent) + chunks
    ensures transfer.bytesTransferred - DataLength(tx.sent) == old(transfer.bytesTransferred - DataLength(tx.sent))
  {
    if entry.isDir {
      var chunk := FileChunk(entry.Rel(), ToInt(DirectoryKind), "", [], 0x1ED, None);
      DataLengthSnoc(tx.sent, chunk);
      var ok := tx.Send(chunk);
      return if ok then Ok(()) else Err(ConnectionLost);
    }
    r := SendFile(vfs, entry.path, entry.Rel(), v, jobNo, sizes, speed, tx, token, transfer);
  }

  lemma NextEntry(queue: seq<Visit>, later: seq<Op>)
    requires queue != []
    ensures WalkOps(queue) + later
      == [Poll] + ([Emit(queue[0])] + (WalkOps(queue[1..] + Kids(queue[0])) + later))
  {
  }

  /** One job with the check in front of it, and what is still to do after it. */
  lemma {:induction false} JobOnTrack(all: Outcome, sentBefore: seq<FileChunk>, sentNow: seq<FileChunk>,
                                      v: Visit, rest: seq<Op>, k: nat, sizes: ReadSizes, budget: nat)
    requires OnTrack(all, sentBefore, sentNow, [Poll] + ([Emit(v)] + rest), k, sizes, budget)
    ensures budget == 0 ==> sentNow == sentBefore + all.chunks && !all.finished && all.budget == 0
    ensures budget > 0 ==>
      var (chunks, left) := RunJob(v, k, sizes, budget - 1);
      && OnTrack(all, sentBefore, sentNow + chunks, rest, k + 1, sizes, left)
      && sentBefore <= sentNow <= sentNow + chunks <= sentBefore + all.chunks
  {
    OnTrackPoll(all, sentBefore, sentNow, [Emit(v)] + rest, k, sizes, budget);
    if budget > 0 {
      OnTrackEmit(all, sentBefore, sentNow, v, rest, k, sizes, budget - 1);
    }
  }

  /** One round of the walk: the check, then the entry; `stop` is the early result of the whole call, if any. */
  method SendEntryOnTrack(vfs: Vfs, entry: WalkDirEntry, ghost v: Visit, ghost all: Outcome,
                          ghost sentBefore: seq<FileChunk>, ghost rest: seq<Op>, jobNo: nat, sizes: ReadSizes,
                          speed: MovingAverageCalculator, tx: ChunkSender, token: CancellationToken,
                          transfer: Progress)
    returns (stop: Option<Result<bool, TransferError>>)
    requires entry == EntryOf(v) && Mounted(vfs, v.node) && speed.Covers(30)
    requires OnTrack(all, sentBefore, tx.sent, [Poll] + ([Emit(v)] + rest), jobNo, sizes, token.Budget())
    modifies speed, tx, token`checks, transfer`bytesTransferred, transfer`bytesPerSecond
    ensures speed.Covers(30)
    ensures stop.None? ==> OnTrack(all, sentBefore, tx.sent, rest, jobNo + 1, sizes, token.Budget())
    ensures stop.Some? ==> EndsEarly(stop.value, all, sentBefore, tx.sent, token.Budget())
    ensures StopReports(stop, old(tx.faults), tx.faults) && (stop == Some(Ok(false)) ==> token.checks > token.cancelAt)
    ensures transfer.bytesTransferred - DataLength(tx.sent) == old(transfer.bytesTransferred - DataLength(tx.sent))
  {
    JobOnTrack(all, sentBefore, tx.sent, v, rest, jobNo, sizes, token.Budget());
    var cancelled := token.IsCancelled();
    if cancelled {
      return Some(Ok(false));
    }
    var sent := SendEntry(vfs, entry, v, jobNo, sizes, speed, tx, token, transfer);
    return if sent.Err? then Some(Err(sent.error)) else None;
  }

  /** Sends one directory source entry by entry; `stop` is the early result of the whole call, if any. */
  method SendWalk(vfs: Vfs, path: string, name: string, ghost root: Visit, ghost all: Outcome,
                  ghost sentBefore: seq<FileChunk>, ghost later: seq<Op>, jobNo: nat, sizes: ReadSizes,
                  speed: MovingAverageCalculator, tx: ChunkSender, token: CancellationToken, transfer: Progress)
    returns (stop: Option<Result<bool, TransferError>>, nextJob: nat)
    requires root.node.Dir? && EntryOf(root) == WalkDirEntry(true, path, name, "") && Mounted(vfs, root.node)
    requires speed.Covers(30)
    requires OnTrack(all, sentBefore, tx.sent, WalkOps([root]) + later, jobNo, sizes, token.Budget())
    modifies speed, tx, token`checks, transfer`bytesTransferred, transfer`bytesPerSecond
    ensures speed.Covers(30)
    ensures stop.None? ==> OnTrack(all, sentBefore, tx.sent, later, nextJob, sizes, token.Budget())
    ensures stop.Some? ==> EndsEarly(stop.value, all, sentBefore, tx.sent, token.Budget())
    ensures StopReports(stop, old(tx.faults), tx.faults) && (stop == Some(Ok(false)) ==> token.checks > token.cancelAt)
    ensures transfer.bytesTransferred - DataLength(tx.sent) == old(transfer.bytesTransferred - DataLength(tx.sent))
  {
    var walker := new VirtualWalkDir(path, name);
    ghost var pending := [root];
    nextJob := jobNo;
    while true
      invariant fresh(walker) && Represents(vfs, walker.queue, pending) && speed.Covers(30)
      invariant tx.faults == old(tx.faults)
      invariant OnTrack(all, sentBefore, tx.sent, WalkOps(pending) + later, nextJob, sizes, token.Budget())
      invariant transfer.bytesTransferred - DataLength(tx.sent) == old(transfer.bytesTransferred - DataLength(tx.sent))
      decreases PendingSize(pending)
    {
      ghost var queue := pending;
      var next := walker.Next(vfs, pending);
      if next.None? {
        assert WalkOps(pending) + later == later;
        return None, nextJob;
      }
      pending := queue[1..] + Kids(queue[0]);
      StepShrinks(queue);
      NextEntry(queue, later);
      stop := SendEntryOnTrack(vfs, next.value, queue[0], all, sentBefore, WalkOps(pending) + later, nextJob, sizes,
                               speed, tx, token, transfer);
      if stop.Some? {
        return;
      }
      nextJob := nextJob + 1;
    }
  }

  /** A run over a whole forest sends a prefix of the full stream, and all of it if the token is uncancelled after. */
  lemma RunOfForest(forest: seq<Tree>, sizes: ReadSizes, budget: nat)
    ensures var out := Run(ForestOps(forest, 0), 0, sizes, budget);
      && out.chunks <= Stream(ForestJobs(forest, 0), 0, sizes)
      && (out.budget > 0 ==> out.finished && out.chunks == Stream(ForestJobs(forest, 0), 0, sizes))
  {
    var ops := ForestOps(forest, 0);
    ForestIsGuarded(forest, 0);
    RunPrefix(ops, 0, sizes, budget);
    JobsOfForest(forest, 0);
    if Run(ops, 0, sizes, budget).budget > 0 {
      UncancelledRunIsFull(ops, 0, sizes, budget);
    }
  }

  /**
   The sending task. It accounts for exactly the bytes it sends, sends a prefix of the full stream, and
   overwrites the state whatever it was. It fails exactly if a call has failed, which it reports unless its last
   check, made then, found the token cancelled. Without a failed call and a check that found it cancelled it
   completes; and if it completes with the token uncancelled, the full stream was sent.
   */
  method SendStream(vfs: Vfs, sources: seq<string>, ghost forest: seq<Tree>, sizes: ReadSizes,
                    tx: ChunkSender, token: CancellationToken, transfer: Progress)
    returns (ghost result: Result<bool, TransferError>)
    requires |forest| == |sources|
    requires forall i :: 0 <= i < |forest| ==> forest[i].path == sources[i] && Mounted(vfs, forest[i])
    modifies tx, token`checks, transfer
    ensures old(tx.sent) <= tx.sent <= old(tx.sent) + Stream(ForestJobs(forest, 0), 0, sizes)
    ensures transfer.bytesTransferred - DataLength(tx.sent) == old(transfer.bytesTransferred - DataLength(tx.sent))
    ensures transfer.bytesPerSecond == 0
    ensures match result
            case Ok(completed) => transfer.state == if completed then Completed else Canceled
            case Err(e) => transfer.state == if token.checks > token.cancelAt then Canceled else Failed(e)
    ensures Reports(result, old(tx.faults), tx.faults)
    ensures result == Ok(false) ==> token.checks > token.cancelAt
    ensures tx.faults == old(tx.faults) && token.checks <= token.cancelAt ==> transfer.state == Completed
    ensures result.Ok? ==>
      var out := Run(ForestOps(forest, 0), 0, sizes, old(token.Budget()));
      result.value == out.finished && tx.sent == old(tx.sent) + out.chunks && token.Budget() == out.budget
    ensures transfer.state.Completed? && token.Budget() > 0 ==>
      tx.sent == old(tx.sent) + Stream(ForestJobs(forest, 0), 0, sizes)
    ensures transfer.state.Canceled? ==> token.Budget() == 0
  {
    var outcome := SendStreamInner(vfs, sources, forest, sizes, tx, token, transfer);
    result := outcome;
    ghost var budget := old(token.Budget());
    RunOfForest(forest, sizes, budget);
    var finalState: TransferState;
    match outcome {
      case Ok(true) => finalState := Completed;
      case Ok(false) => finalState := Canceled;
      case Err(e) =>
        var cancelled := token.IsCancelled();
        finalState := if cancelled then Canceled else Failed(e);
    }
    transfer.state := finalState;
    transfer.bytesPerSecond := 0;
  }
}
