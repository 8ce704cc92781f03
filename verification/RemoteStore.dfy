/**
 The locked store of remotes and the event channel behind it. Every mutation
 and its event are one atomic step, because the event is sent under the lock.
 */
module RemoteStore {
  import opened Common
  import opened Transfers

  datatype RemoteConnectionError = SslError | GroupCodeMismatch | NoCertificate | DuplexError

  datatype RemoteState = Error(cause: RemoteConnectionError) | Disconnected | Connecting | AwaitingDuplex | Connected

  datatype TransferRecord = TransferRecord(
    uuid: string, protocolId: nat, state: TransferState,
    totalBytes: nat, bytesTransferred: nat, bytesPerSecond: nat)

  datatype Remote = Remote(uuid: string, state: RemoteState, transfers: seq<TransferRecord>)

  datatype WarpEvent =
    | RemoteAdded(remote: string)
    | RemoteUpdated(remote: string)
    | TransferAdded(remote: string, transfer: string)
    | TransferUpdated(remote: string, transfer: string)
    | TransferRemoved(remote: string, transfer: string)

  /** A queued event; `progress` records whether it was a transfer update that left the state variant alone. */
  datatype Queued = Queued(event: WarpEvent, progress: bool)

  datatype UpdateError = NotFound

  const CAPACITY: nat := 256
  const THROTTLE: nat := 128

  /** The store: its remotes, the events not yet seen by every receiver, oldest first, and the receiver count. */
  datatype Store = Store(remotes: map<string, Remote>, queue: seq<Queued>, receivers: nat)

  /** The channel: without receivers nothing is queued, and a full queue loses its oldest event. */
  function Publish(queue: seq<Queued>, receivers: nat, q: Queued): seq<Queued> {
    if receivers == 0 then queue
    else if |queue| >= CAPACITY then queue[1..] + [q]
    else queue + [q]
  }

  function PublishOn(s: Store, e: WarpEvent, progress: bool): Store {
    s.(queue := Publish(s.queue, s.receivers, Queued(e, progress)))
  }

  /** The first transfer with a uuid, or the length when there is none. */
  function IndexOf(ts: seq<TransferRecord>, uuid: string): (i: nat)
    ensures i <= |ts|
    ensures i < |ts| ==> ts[i].uuid == uuid
    ensures forall j :: 0 <= j < i ==> ts[j].uuid != uuid
  {
    if ts == [] || ts[0].uuid == uuid then 0 else 1 + IndexOf(ts[1..], uuid)
  }

  function TransfersOf(remotes: map<string, Remote>, r: string): seq<TransferRecord> {
    if r in remotes then remotes[r].transfers else []
  }

  function SetTransfers(remotes: map<string, Remote>, r: string, ts: seq<TransferRecord>): map<string, Remote>
    requires r in remotes
  {
    remotes[r := remotes[r].(transfers := ts)]
  }

  /** The first half of `add_remote`; its event follows as a step of its own, after the lock is released. */
  function InsertRemote(s: Store, r: string, remote: Remote): Store {
    s.(remotes := s.remotes[r := remote])
  }

  function UpdateRemote(s: Store, r: string, f: Remote -> Remote): Store {
    if r !in s.remotes then s
    else PublishOn(s.(remotes := s.remotes[r := f(s.remotes[r])]), RemoteUpdated(r), false)
  }

  function AddTransfer(s: Store, r: string, t: TransferRecord): Store {
    if r !in s.remotes then s
    else PublishOn(s.(remotes := SetTransfers(s.remotes, r, TransfersOf(s.remotes, r) + [t])),
                   TransferAdded(r, t.uuid), false)
  }

  function UpdateTransfer(s: Store, r: string, uuid: string, f: TransferRecord -> TransferRecord): Store {
    var ts := TransfersOf(s.remotes, r);
    var i := IndexOf(ts, uuid);
    if i == |ts| then s
    else
      var updated := s.(remotes := SetTransfers(s.remotes, r, ts[i := f(ts[i])]));
      var progress := SameDiscriminant(f(ts[i]).state, ts[i].state);
      if |s.queue| < THROTTLE || !progress then PublishOn(updated, TransferUpdated(r, uuid), progress) else updated
  }

  function RemoveTransfer(s: Store, r: string, uuid: string): Store {
    var ts := TransfersOf(s.remotes, r);
    var i := IndexOf(ts, uuid);
    if i == |ts| then s
    else PublishOn(s.(remotes := SetTransfers(s.remotes, r, ts[..i] + ts[i + 1..])), TransferRemoved(r, uuid), false)
  }

  class RemoteManager {
    var remotes: map<string, Remote>
    var queue: seq<Queued>
    var receivers: nat

    constructor ()
      ensures Value() == Store(map[], [], 0)
    {
      remotes := map[];
      queue := [];
      receivers := 0;
    }

    function Value(): Store
      reads this
    {
      Store(remotes, queue, receivers)
    }

    method Subscribe()
      modifies this`receivers
      ensures Value() == old(Value()).(receivers := old(receivers) + 1)
    {
      receivers := receivers + 1;
    }

    /** The channel's `send`; its result is ignored everywhere. */
    method SendEvent(e: WarpEvent, progress: bool)
      modifies this`queue
      ensures Value() == PublishOn(old(Value()), e, progress)
    {
      if receivers > 0 {
        if |queue| >= CAPACITY {
          queue := queue[1..];
        }
        queue := queue + [Queued(e, progress)];
      }
    }

    method AddRemote(r: string, remote: Remote)
      modifies this
      ensures Value() == PublishOn(InsertRemote(old(Value()), r, remote), RemoteAdded(r), false)
    {
      remotes := remotes[r := remote];
      SendEvent(RemoteAdded(r), false);
    }

    method UpdateRemoteWith(r: string, f: Remote -> Remote) returns (result: Result<(), UpdateError>)
      modifies this
      ensures Value() == UpdateRemote(old(Value()), r, f)
      ensures result.Ok? <==> r in old(remotes)
    {
      if r in remotes {
        remotes := remotes[r := f(remotes[r])];
        SendEvent(RemoteUpdated(r), false);
        return Ok(());
      }
      return Err(UpdateError.NotFound);
    }

    method PushTransfer(r: string, t: TransferRecord) returns (result: Result<(), UpdateError>)
      modifies this
      ensures Value() == AddTransfer(old(Value()), r, t)
      ensures result.Ok? <==> r in old(remotes)
    {
      if r in remotes {
        var remote := remotes[r];
        remotes := remotes[r := remote.(transfers := remote.transfers + [t])];
        SendEvent(TransferAdded(r, t.uuid), false);
        return Ok(());
      }
      return Err(UpdateError.NotFound);
    }

    method Position(ts: seq<TransferRecord>, uuid: string) returns (i: nat)
      ensures i == IndexOf(ts, uuid)
    {
      i := 0;
      while i < |ts| && ts[i].uuid != uuid
        invariant i <= |ts|
        invariant i + IndexOf(ts[i..], uuid) == IndexOf(ts, uuid)
      {
        assert ts[i..][1..] == ts[i + 1..];
        i := i + 1;
      }
    }

    method UpdateTransferWith(r: string, uuid: string, f: TransferRecord -> TransferRecord)
      returns (result: Result<(), UpdateError>)
      modifies this
      ensures Value() == UpdateTransfer(old(Value()), r, uuid, f)
      ensures result.Ok? <==> IndexOf(TransfersOf(old(remotes), r), uuid) < |TransfersOf(old(remotes), r)|
    {
      if r in remotes {
        var remote := remotes[r];
        var i := Position(remote.transfers, uuid);
        if i < |remote.transfers| {
          var oldState := remote.transfers[i].state;
          var transfer := f(remote.transfers[i]);
          remotes := remotes[r := remote.(transfers := remote.transfers[i := transfer])];
          var progress := SameDiscriminant(transfer.state, oldState);
          if |queue| < THROTTLE || !progress {
            SendEvent(TransferUpdated(r, uuid), progress);
          }
          return Ok(());
        }
      }
      return Err(UpdateError.NotFound);
    }

    method RemoveTransferAt(r: string, uuid: string) returns (result: Result<(), UpdateError>)
      modifies this
      ensures Value() == RemoveTransfer(old(Value()), r, uuid)
      ensures result.Ok? <==> IndexOf(TransfersOf(old(remotes), r), uuid) < |TransfersOf(old(remotes), r)|
    {
      if r in remotes {
        var remote := remotes[r];
        var i := Position(remote.transfers, uuid);
        if i < |remote.transfers| {
          remotes := remotes[r := remote.(transfers := remote.transfers[..i] + remote.transfers[i + 1..])];
          SendEvent(TransferRemoved(r, uuid), false);
          return Ok(());
        }
      }
      return Err(UpdateError.NotFound);
    }

    /** `transfer_by_protocol_id`: the first match wins. */
    method TransferByProtocolId(r: string, id: nat) returns (found: Option<TransferRecord>)
      ensures found.Some? ==> found.value in TransfersOf(remotes, r) && found.value.protocolId == id
      ensures found.None? ==> forall t :: t in TransfersOf(remotes, r) ==> t.protocolId != id
      ensures (forall i, j :: 0 <= i < j < |TransfersOf(remotes, r)| ==>
                 TransfersOf(remotes, r)[i].protocolId != TransfersOf(remotes, r)[j].protocolId) ==>
        forall t :: t in TransfersOf(remotes, r) && t.protocolId == id ==> found == Some(t)
    {
      var ts := if r in remotes then remotes[r].transfers else [];
      for i := 0 to |ts|
        invariant forall j :: 0 <= j < i ==> ts[j].protocolId != id
      {
        if ts[i].protocolId == id {
          return Some(ts[i]);
        }
      }
      return None;
    }
  }

  // ----- the throttle, over every run -----

  /** One step of the store or of its receivers. */
  ghost predicate Next(s: Store, t: Store) {
    || (exists r, remote :: t == InsertRemote(s, r, remote))
    || (exists r :: t == PublishOn(s, RemoteAdded(r), false))
    || (exists r, f :: t == UpdateRemote(s, r, f))
    || (exists r, tr :: t == AddTransfer(s, r, tr))
    || (exists r, uuid, f :: t == UpdateTransfer(s, r, uuid, f))
    || (exists r, uuid :: t == RemoveTransfer(s, r, uuid))
    || (exists n: nat :: n <= |s.queue| && t == s.(queue := s.queue[n..]))   // seen by the slowest receiver
    || (exists n: nat :: t == s.(receivers := n))                            // receivers come and go
  }

  ghost predicate IsRun(run: seq<Store>) {
    && run != []
    && run[0].queue == []
    && forall i :: 0 <= i < |run| - 1 ==> Next(run[i], run[i + 1])
  }

  /** Progress events stay in the first half of the channel, and the channel within its capacity. */
  ghost predicate Throttled(queue: seq<Queued>) {
    && |queue| <= CAPACITY
    && forall i :: 0 <= i < |queue| && queue[i].progress ==> i < THROTTLE
  }

  lemma PublishKeepsThrottled(s: Store, e: WarpEvent, progress: bool)
    requires Throttled(s.queue) && (progress ==> |s.queue| < THROTTLE)
    ensures Throttled(PublishOn(s, e, progress).queue)
  {
  }

  lemma UpdateKeepsThrottled(s: Store, r: string, uuid: string, f: TransferRecord -> TransferRecord)
    requires Throttled(s.queue)
    ensures Throttled(UpdateTransfer(s, r, uuid, f).queue)
  {
  }

  lemma DropKeepsThrottled(queue: seq<Queued>, n: nat)
    requires Throttled(queue) && n <= |queue|
    ensures Throttled(queue[n..])
  {
  }

  /** A step that publishes one event that is not progress, or changes the remotes or receivers only. */
  lemma NewsKeepsThrottled(s: Store, t: Store)
    requires Throttled(s.queue)
    requires t.queue == s.queue || exists e :: t.queue == Publish(s.queue, s.receivers, Queued(e, false))
    ensures Throttled(t.queue)
  {
    if e :| t.queue == Publish(s.queue, s.receivers, Queued(e, false)) {
      PublishKeepsThrottled(s, e, false);
    }
  }

  lemma NextKeepsThrottled(s: Store, t: Store)
    requires Throttled(s.queue) && Next(s, t)
    ensures Throttled(t.queue)
  {
    if r, uuid, f :| t == UpdateTransfer(s, r, uuid, f) {
      UpdateKeepsThrottled(s, r, uuid, f);
    } else if n: nat :| n <= |s.queue| && t == s.(queue := s.queue[n..]) {
      DropKeepsThrottled(s.queue, n);
    } else {
      OtherStepsAreNews(s, t);
      NewsKeepsThrottled(s, t);
    }
  }

  lemma OtherStepsAreNews(s: Store, t: Store)
    requires Next(s, t) && !exists r, uuid, f :: t == UpdateTransfer(s, r, uuid, f)
    requires !exists n: nat :: n <= |s.queue| && t == s.(queue := s.queue[n..])
    ensures t.queue == s.queue || exists e :: t.queue == Publish(s.queue, s.receivers, Queued(e, false))
  {
  }

  lemma {:induction false} AlwaysThrottled(run: seq<Store>, i: nat)
    requires IsRun(run) && i < |run|
    ensures Throttled(run[i].queue)
  {
    if i == 0 {
    } else {
      AlwaysThrottled(run, i - 1);
      assert Next(run[i - 1], run[i - 1 + 1]);
      NextKeepsThrottled(run[i - 1], run[i]);
    }
  }

  function ProgressCount(queue: seq<Queued>): nat {
    if queue == [] then 0 else ProgressCount(queue[..|queue| - 1]) + if queue[|queue| - 1].progress then 1 else 0
  }

  lemma {:induction false} ProgressCountBound(queue: seq<Queued>, n: nat)
    requires forall i :: 0 <= i < |queue| && queue[i].progress ==> i < n
    ensures ProgressCount(queue) <= n && ProgressCount(queue) <= |queue|
  {
    if queue == [] {
    } else {
      var m := |queue| - 1;
      if m < n {
        ProgressCountBound(queue[..m], m);
      } else {
        ProgressCountBound(queue[..m], n);
      }
    }
  }

  /** In every run, a full channel holds at least 128 events that are not progress events. */
  lemma FullChannelIsMostlyNews(run: seq<Store>, i: nat)
    requires IsRun(run) && i < |run| && |run[i].queue| == CAPACITY
    ensures |run[i].queue| - ProgressCount(run[i].queue) >= 128
  {
    AlwaysThrottled(run, i);
    ProgressCountBound(run[i].queue, THROTTLE);
  }

  /** An update that changes the state variant always reaches the queue; only progress is ever dropped. */
  lemma StateChangeIsPublished(s: Store, r: string, uuid: string, f: TransferRecord -> TransferRecord)
    requires s.receivers > 0
    requires var ts := TransfersOf(s.remotes, r);
      IndexOf(ts, uuid) < |ts| && !SameDiscriminant(f(ts[IndexOf(ts, uuid)]).state, ts[IndexOf(ts, uuid)].state)
    ensures var queue := UpdateTransfer(s, r, uuid, f).queue;
      queue != [] && queue[|queue| - 1] == Queued(TransferUpdated(r, uuid), false)
  {
  }

  /** Any update of a transfer is published as long as fewer than 128 events wait, and beyond that exactly if it changes
      the state variant. */
  lemma PublishedIff(s: Store, r: string, uuid: string, f: TransferRecord -> TransferRecord)
    requires s.receivers > 0 && |s.queue| <= 256
    requires var ts := TransfersOf(s.remotes, r); IndexOf(ts, uuid) < |ts|
    ensures var ts := TransfersOf(s.remotes, r);
      var i, after := IndexOf(ts, uuid), UpdateTransfer(s, r, uuid, f);
      var news := f(ts[i]).state != ts[i].state && !(f(ts[i]).state.Failed? && ts[i].state.Failed?);
      && TransfersOf(after.remotes, r) == ts[i := f(ts[i])]
      && (|s.queue| < 128 ==> after.queue == s.queue + [Queued(TransferUpdated(r, uuid), !news)])
      && (|s.queue| >= 128 && !news ==> after.queue == s.queue)
      && (128 <= |s.queue| < 256 && news ==> after.queue == s.queue + [Queued(TransferUpdated(r, uuid), false)])
      && (|s.queue| == 256 && news ==> after.queue == s.queue[1..] + [Queued(TransferUpdated(r, uuid), false)])
  {
  }

  ghost predicate SameUuids(xs: seq<TransferRecord>, ys: seq<TransferRecord>) {
    |xs| == |ys| && forall k :: 0 <= k < |xs| ==> xs[k].uuid == ys[k].uuid
  }

  /** The newest event is about the transfer itself or about its remote, and not mere progress. */
  ghost predicate NewsAbout(queue: seq<Queued>, r: string, uuid: string) {
    && queue != []
    && (queue[|queue| - 1] == Queued(TransferUpdated(r, uuid), false)
        || queue[|queue| - 1] == Queued(RemoteUpdated(r), false))
  }

  lemma UpdateTouchesOne(s: Store, r: string, uuid: string, f: TransferRecord -> TransferRecord, q: string, k: nat)
    requires s.receivers > 0 && k < |TransfersOf(s.remotes, q)|
    requires var t := UpdateTransfer(s, r, uuid, f);
      && |TransfersOf(t.remotes, q)| == |TransfersOf(s.remotes, q)|
      && !SameDiscriminant(TransfersOf(t.remotes, q)[k].state, TransfersOf(s.remotes, q)[k].state)
    ensures NewsAbout(UpdateTransfer(s, r, uuid, f).queue, q, TransfersOf(s.remotes, q)[k].uuid)
  {
    var ts := TransfersOf(s.remotes, r);
    var i := IndexOf(ts, uuid);
    if i < |ts| && q == r {
      assert k == i;
      StateChangeIsPublished(s, r, uuid, f);
    }
  }

  /** Any other step than an update of a transfer or of its remote leaves the stored transfers of a remote alone, or
      makes them more or fewer, or replaces the remote. */
  lemma OthersKeepTransfers(s: Store, t: Store, r: string)
    requires Next(s, t)
    requires !exists q, uuid, f :: t == UpdateTransfer(s, q, uuid, f)
    requires !exists f :: t == UpdateRemote(s, r, f)
    requires forall remote :: t != InsertRemote(s, r, remote)
    requires |TransfersOf(t.remotes, r)| == |TransfersOf(s.remotes, r)|
    ensures TransfersOf(t.remotes, r) == TransfersOf(s.remotes, r)
  {
  }

  lemma SameIsSameDiscriminant(a: TransferState)
    ensures SameDiscriminant(a, a)
  {
  }

  /**
   In every run, whichever step it is: when a stored transfer changes its state variant, news about it is the newest
   event in the channel. Only replacing the whole remote, which `add_remote` announces later, is excepted.
   */
  lemma VariantChangeIsNews(run: seq<Store>, i: nat, r: string, k: nat)
    requires IsRun(run) && i + 1 < |run| && run[i].receivers > 0
    requires SameUuids(TransfersOf(run[i].remotes, r), TransfersOf(run[i + 1].remotes, r))
    requires k < |TransfersOf(run[i].remotes, r)|
    requires !SameDiscriminant(TransfersOf(run[i + 1].remotes, r)[k].state, TransfersOf(run[i].remotes, r)[k].state)
    requires forall remote :: run[i + 1] != InsertRemote(run[i], r, remote)
    ensures NewsAbout(run[i + 1].queue, r, TransfersOf(run[i].remotes, r)[k].uuid)
  {
    var s, t := run[i], run[i + 1];
    assert Next(s, t);
    SameIsSameDiscriminant(TransfersOf(s.remotes, r)[k].state);
    if q, uuid, f :| t == UpdateTransfer(s, q, uuid, f) {
      UpdateTouchesOne(s, q, uuid, f, r, k);
    } else if f :| t == UpdateRemote(s, r, f) {
      assert r in s.remotes;
    } else {
      OthersKeepTransfers(s, t, r);
    }
  }
}
