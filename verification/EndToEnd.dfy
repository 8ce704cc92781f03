/**
 Both tasks on one stream: what the two methods' contracts and the pipeline's
 theorems give together.
 */
module EndToEnd {
  import opened Common
  import opened SourceTree
  import opened Transfers
  import opened SendPlan
  import opened ReceiveSpec
  import opened Sender
  import opened Receiver
  import opened Pipeline
  import opened Announce

  lemma DataLengthFirst(c: FileChunk, rest: seq<FileChunk>)
    ensures DataLength([c] + rest) == |c.data| + DataLength(rest)
  {
    DataLengthAppend([c], rest);
    DataLengthSnoc([], c);
    assert [] + [c] == [c];
  }

  /** Whatever the stream is, the receiver never counts a byte that was not in it. */
  lemma {:induction false} CountsAtMostWhatCame(s: Recv, chunks: seq<FileChunk>)
    requires Fold(s, chunks).Ok?
    ensures Fold(s, chunks).value.bytes <= s.bytes + DataLength(chunks)
    decreases |chunks|
  {
    if chunks == [] {
    } else {
      var c, rest := chunks[0], chunks[1..];
      CountsAtMostWhatCame(Step(s, c).value, rest);
      DataLengthFirst(c, rest);
      assert chunks == [c] + rest;
    }
  }

  lemma DataLengthOfPrefix(front: seq<FileChunk>, all: seq<FileChunk>)
    requires front <= all
    ensures DataLength(front) <= DataLength(all)
  {
    DataLengthAppend(front, all[|front|..]);
    assert all == front + all[|front|..];
  }

  /** What the receiver has taken of what the sender has sent is a prefix of the full stream. */
  lemma TakenIsPrefix(stream: seq<FileChunk>, sent: seq<FileChunk>, taken: nat)
    requires sent <= stream && taken <= |sent|
    ensures sent[..taken] == stream[..taken]
    ensures DataLength(sent[..taken]) <= DataLength(sent)
  {
    DataLengthAppend(sent[..taken], sent[taken..]);
    assert sent == sent[..taken] + sent[taken..];
  }

  /** `d` shows the stream cut somewhere: complete files, at most one in part, parents present, nothing else. */
  ghost predicate CutSomewhere(forest: seq<Tree>, d: Dest) {
    exists i: nat :: CutAt(ForestJobs(forest, 0), i, d) && ParentsPresent(ForestJobs(forest, 0), d)
  }

  /** What arrives when `taken` chunks of what was sent are received. */
  lemma WhatArrives(forest: seq<Tree>, sizes: ReadSizes, sent: seq<FileChunk>, taken: nat)
    requires WellNamed(forest)
    requires sent <= Stream(ForestJobs(forest, 0), 0, sizes) && taken <= |sent|
    ensures Fold(FRESH, sent).Ok? && Fold(FRESH, sent[..taken]).Ok?
    ensures var r := Fold(FRESH, sent[..taken]).value;
      r.bytes <= DataLength(sent) && CutSomewhere(forest, Close(r).dest)
  {
    var stream := Stream(ForestJobs(forest, 0), 0, sizes);
    TakenIsPrefix(stream, sent, taken);
    RoundTrip(forest, sizes);
    FoldPrefixOk(FRESH, stream, |sent|);
    assert stream[..|sent|] == sent;
    var i := CutConsistency(forest, sizes, taken);
    CountsAtMostWhatCame(FRESH, sent[..taken]);
  }

  lemma AllArrives(forest: seq<Tree>, sizes: ReadSizes)
    requires WellNamed(forest)
    ensures var stream := Stream(ForestJobs(forest, 0), 0, sizes);
      && Fold(FRESH, stream).Ok?
      && Mirrors(forest, Close(Fold(FRESH, stream).value).dest)
      && Fold(FRESH, stream).value.bytes == DataLength(stream) == TreesData(forest) - HiddenInAll(forest)
  {
    RoundTrip(forest, sizes);
    StreamData(ForestJobs(forest, 0), 0, sizes);
    ForestData(forest, 0);
    assert forest[0..] == forest;
  }

  /** What both tasks leave behind: the chunks sent and those of them that arrived, both results, how many chunks the
      receiver took, the destination and both byte counts; `full` says that the sender completed without being
      cancelled. */
  datatype Ends = Ends(
    sent: seq<FileChunk>, arrived: seq<FileChunk>, outcome: Result<bool, TransferError>, full: bool,
    received: Result<bool, TransferError>, taken: nat, dest: Dest, bytesSent: nat, bytesReceived: nat)

  /** What the contract of `SendStream` says about it. */
  ghost predicate SentAsContracted(forest: seq<Tree>, sizes: ReadSizes, sent: seq<FileChunk>, full: bool, bytes: nat) {
    var stream := Stream(ForestJobs(forest, 0), 0, sizes);
    sent <= stream && (full ==> sent == stream) && bytes == DataLength(sent)
  }

  /** What the contract of `ReceiveStream` says about it. */
  ghost predicate ReceivedAsContracted(
    sent: seq<FileChunk>, received: Result<bool, TransferError>, taken: nat, dest: Dest, bytes: nat)
  {
    && taken <= |sent|
    && Fold(FRESH, sent[..taken]).Ok?
    && bytes == Fold(FRESH, sent[..taken]).value.bytes
    && (received == Ok(true) ==> taken == |sent|)
    && (received == Err(UnsafePath) ==> Fold(FRESH, sent).Err?)
    && (received.Ok? || received == Err(ConnectionLost) ==> dest == Close(Fold(FRESH, sent[..taken]).value).dest)
  }

  /** No byte is counted that was not sent; a cut leaves the destination consistent; and if both complete, it
      mirrors the forest and both counts are the announced bytes, but for those hidden. */
  ghost predicate Faithful(forest: seq<Tree>, e: Ends) {
    && e.bytesReceived <= e.bytesSent
    && e.received != Err(UnsafePath)
    && (e.received.Ok? || e.received == Err(ConnectionLost) ==> CutSomewhere(forest, e.dest))
    && (e.full && e.received == Ok(true) ==>
          Mirrors(forest, e.dest) && e.bytesReceived == e.bytesSent == TreesData(forest) - HiddenInAll(forest))
  }

  lemma ContractsGiveFaithful(forest: seq<Tree>, sizes: ReadSizes, e: Ends)
    requires WellNamed(forest) && SentAsContracted(forest, sizes, e.sent, e.full, e.bytesSent)
    requires ReceivedAsContracted(e.arrived, e.received, e.taken, e.dest, e.bytesReceived)
    requires e.arrived <= e.sent && (e.received == Ok(true) ==> e.arrived == e.sent)
    ensures Faithful(forest, e)
  {
    WhatArrives(forest, sizes, e.arrived, e.taken);
    DataLengthOfPrefix(e.arrived, e.sent);
    AllArrives(forest, sizes);
    assert e.arrived[..|e.arrived|] == e.arrived;
  }

  /** The connection in between: when it breaks, any number of the last chunks sent may be lost. */
  method Transport(sent: seq<FileChunk>, end: StreamEnd) returns (arrived: seq<FileChunk>)
    ensures arrived <= sent && (end == CleanEnd ==> arrived == sent)
  {
    arrived := sent;
    if end == Broken {
      var n :| 0 <= n <= |sent|;
      arrived := sent[..n];
    }
  }

  /** The state the sender's record ends in; `cancelled` is the answer of the sender's last check of the token. */
  function SenderEnds(outcome: Result<bool, TransferError>, cancelled: bool): TransferState {
    match outcome
    case Ok(completed) => if completed then Completed else Canceled
    case Err(e) => if cancelled then Canceled else Failed(e)
  }

  /** The state the receiver's record ends in. */
  function ReceiverEnds(received: Result<bool, TransferError>): TransferState {
    match received
    case Ok(completed) => if completed then Completed else Canceled
    case Err(e) => Failed(e)
  }

  /** The sending task on a new channel; `faults` are the calls that failed to it. */
  method SendSide(vfs: Vfs, sources: seq<string>, ghost forest: seq<Tree>, sizes: ReadSizes,
                  token: CancellationToken, outgoing: Progress)
    returns (sent: seq<FileChunk>, ghost outcome: Result<bool, TransferError>, ghost faults: seq<Fault>)
    requires |forest| == |sources| && outgoing.bytesTransferred == 0
    requires forall i :: 0 <= i < |forest| ==> forest[i].path == sources[i] && Mounted(vfs, forest[i])
    modifies token`checks, outgoing
    ensures SentAsContracted(forest, sizes, sent, outgoing.state.Completed? && token.Budget() > 0,
                             outgoing.bytesTransferred)
    ensures outgoing.state == SenderEnds(outcome, token.checks > token.cancelAt)
    ensures Reports(outcome, [], faults) && (outcome == Ok(false) ==> token.checks > token.cancelAt)
  {
    var tx := new ChunkSender();
    ghost var stream := Stream(ForestJobs(forest, 0), 0, sizes);
    assert DataLength(tx.sent) == 0 && [] + stream == stream;
    outcome := SendStream(vfs, sources, forest, sizes, tx, token, outgoing);
    sent, faults := tx.sent, tx.faults;
  }

  /** The receiving task into an empty destination. */
  method ReceiveSide(arrived: seq<FileChunk>, end: StreamEnd, cancelFrom: Option<nat>, dest: Destination,
                     incoming: Progress)
    returns (ghost received: Result<bool, TransferError>, ghost taken: nat)
    requires incoming.bytesTransferred == 0 && incoming.state == InProgress && dest.Contents() == EMPTY_DEST
    modifies dest, incoming
    ensures ReceivedAsContracted(arrived, received, taken, dest.Contents(), incoming.bytesTransferred)
    ensures received == Ok(true) ==> end == CleanEnd
    ensures received == Ok(false) ==> cancelFrom.Some?
    ensures received == Err(ConnectionLost) ==> end == Broken
    ensures received.Ok? || received == Err(ConnectionLost) || Fold(FRESH, arrived).Err? ||
            Reports(received, old(dest.faults), dest.faults)
    ensures incoming.state == ReceiverEnds(received)
  {
    received, taken := ReceiveStream(arrived, end, cancelFrom, dest, incoming);
  }

  /**
   One transfer: the sending task, then the receiving task on what arrives of what was sent, which is all of it
   unless the connection breaks. Cancellation and failures may strike either side at any point. If none does, both
   sides complete and the destination mirrors the source.
   */
  method TransferOnce(vfs: Vfs, sources: seq<string>, ghost forest: seq<Tree>, sizes: ReadSizes, end: StreamEnd,
                      token: CancellationToken, cancelFrom: Option<nat>, outgoing: Progress, dest: Destination,
                      incoming: Progress)
    returns (ghost e: Ends, ghost faults: seq<Fault>)
    requires outgoing != incoming
    requires |forest| == |sources| && WellNamed(forest)
    requires forall i :: 0 <= i < |forest| ==> forest[i].path == sources[i] && Mounted(vfs, forest[i])
    requires outgoing.bytesTransferred == 0 == incoming.bytesTransferred
    requires incoming.state == InProgress && dest.Contents() == EMPTY_DEST && dest.faults == []
    modifies token`checks, outgoing, dest, incoming
    ensures Faithful(forest, e)
    ensures e.dest == dest.Contents()
    ensures e.bytesSent == outgoing.bytesTransferred && e.bytesReceived == incoming.bytesTransferred
    ensures e.full <==> outgoing.state.Completed? && token.Budget() > 0
    ensures outgoing.state == SenderEnds(e.outcome, token.checks > token.cancelAt)
    ensures incoming.state == ReceiverEnds(e.received)
    ensures e.outcome.Err? <==> faults != []
    ensures faults == dest.faults == [] && token.checks < token.cancelAt && cancelFrom == None && end == CleanEnd ==>
      outgoing.state == Completed && incoming.state == Completed && Mirrors(forest, dest.Contents())
  {
    ghost var outcome: Result<bool, TransferError>;
    var sent;
    sent, outcome, faults := SendSide(vfs, sources, forest, sizes, token, outgoing);
    ghost var full, bytesSent := outgoing.state.Completed? && token.Budget() > 0, outgoing.bytesTransferred;
    var arrived := Transport(sent, end);
    ghost var received, taken := ReceiveSide(arrived, end, cancelFrom, dest, incoming);
    e := Ends(sent, arrived, outcome, full, received, taken, dest.Contents(), bytesSent, incoming.bytesTransferred);
    ContractsGiveFaithful(forest, sizes, e);
    WhatArrives(forest, sizes, arrived, taken);
  }
}
