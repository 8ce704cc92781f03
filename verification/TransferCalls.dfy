/**
 The public calls on a transfer, made by one peer on the other: what they leave in
 the two peers' records, and that each is steps of the two-peer system.
 */
module TransferCalls {
  import opened Common
  import opened Transfers
  import opened Announce
  import opened TransferAgreement

  /** The records and the token that both peers have for a transfer are those of `e`. */
  ghost predicate Shows(e: Pair, id: nat, sender: TransferServer, receiver: TransferServer)
    reads sender, receiver
  {
    && e.outgoing == (if id in sender.records then Some(sender.records[id]) else None)
    && e.incoming == (if id in receiver.records then Some(receiver.records[id]) else None)
    && e.cancelled == (id in sender.cancelled)
  }

  /** The same, told by the kind of record that the caller holds. */
  ghost predicate ShowsFrom(e: Pair, id: nat, caller: Kind, here: TransferServer, peer: TransferServer)
    reads here, peer
  {
    if caller == Outgoing then Shows(e, id, here, peer) else Shows(e, id, peer, here)
  }

  /** A call on the network: it may not reach the peer, and its answer may not come back. */
  method Network() returns (reaches: bool, answered: bool)
    ensures answered ==> reaches
  {
    reaches, answered := *, *;
    answered := answered && reaches;
  }

  /** `send_transfer_request`: the record is there before the paths are processed, and it waits for permission only once
      the peer has taken the request. */
  method SendTransferRequest(here: TransferServer, peer: TransferServer, id: nat, vfs: SizeVfs, paths: seq<string>,
                             mimeOf: string -> string, service: string)
    returns (ok: bool)
    requires here != peer && id !in here.records && id !in peer.records
    modifies here`records, peer`records
    ensures id in here.records && here.records[id].kind == Outgoing && here.records[id].bytes == 0
    ensures here.records == old(here.records)[id := here.records[id]]
    ensures match Announced(vfs, paths, mimeOf)
            case Err(_) =>
              && !ok && peer.records == old(peer.records)
              && here.records[id].state == Failed(FailedToProcessFiles)
            case Ok(d) =>
              var received := Rec(Incoming, FromRequest(AsProto(id, d, service)).2, WaitingPermission, 0);
              if ok then
                && here.records[id] == Rec(Outgoing, d, WaitingPermission, 0)
                && peer.records == old(peer.records)[id := received]
                && (SurvivesWire(d) ==> received.details == d)
              else
                && here.records[id] == Rec(Outgoing, ZERO, Initializing, 0)
                && (peer.records == old(peer.records) || peer.records == old(peer.records)[id := received])
  {
    here.records := here.records[id := Rec(Outgoing, ZERO, Initializing, 0)];
    var announcement := new Announcement();
    var processed := announcement.ProcessPaths(vfs, paths, mimeOf);
    if processed.Err? {
      here.records := here.records[id := here.records[id].(state := Failed(FailedToProcessFiles))];
      return false;
    }
    var reaches, answered := Network();
    if !reaches {
      return false;
    }
    var details := announcement.Value();
    RequestRoundTrip(id, details, service);
    peer.ProcessTransferOpRequest(AsProto(id, details, service));
    if !answered {
      return false;
    }
    here.records := here.records[id := here.records[id].(details := details, state := WaitingPermission)];
    return true;
  }

  /** What the steps of a stop leave of the records and the token. */
  lemma StopSteps(id: nat, service: string, e: Pair, k: Kind, error: bool)
    requires Can(e, StopReaches(k, error)) && e.outgoing.value.kind == Outgoing && e.incoming.value.kind == Incoming
    ensures var x := Do(id, service, e, StopFails(k));
      x.outgoing == e.outgoing && x.incoming == e.incoming && x.cancelled == (e.cancelled || k == Outgoing)
    ensures var f := Do(id, service, e, StopReaches(k, error));
      var lost, done := Do(id, service, f, CallLost), Do(id, service, f, StopEnds);
      && lost.cancelled && done.cancelled
      && (k == Outgoing ==>
            && lost.outgoing == e.outgoing && lost.incoming == Some(OnStop(e.incoming.value, error))
            && done.outgoing == Some(e.outgoing.value.(state := Stopped)) && done.incoming == lost.incoming)
      && (k == Incoming ==>
            && lost.incoming == e.incoming && lost.outgoing == Some(OnStop(e.outgoing.value, error))
            && done.incoming == Some(e.incoming.value.(state := Stopped)) && done.outgoing == lost.outgoing)
  {
  }

  /** `stop_transfer`: the caller's own token is cancelled first; the caller's record changes only if the peer answers
      that it has stopped. */
  method StopTransfer(here: TransferServer, peer: TransferServer, id: nat, error: bool, ghost service: string,
                      ghost e: Pair)
    returns (ok: bool)
    requires here != peer && id in here.records
    requires id in peer.records ==> peer.records[id].kind != here.records[id].kind
    requires ShowsFrom(e, id, here.records[id].kind, here, peer)
    modifies here`records, here`cancelled, peer`records, peer`cancelled
    ensures ok ==>
      && id in old(peer.records) && id in peer.records
      && here.records == old(here.records)[id := old(here.records)[id].(state := Stopped)]
      && peer.records == old(peer.records)[id := old(peer.records)[id].(state := peer.records[id].state)]
      && (error ==> peer.records[id].state == Failed(RemoteError))
      && (!error ==> peer.records[id].state == if peer.records[id].kind == Outgoing then Stopped else Canceled)
      && id in (if here.records[id].kind == Outgoing then here.cancelled else peer.cancelled)
    ensures !ok ==> here.records == old(here.records)
    ensures var k := old(here.records)[id].kind;
      Can(e, StopReaches(k, error)) ==>
        var f := Do(id, service, e, StopReaches(k, error));
        if ok then ShowsFrom(Do(id, service, f, StopEnds), id, k, here, peer)
        else
          || ShowsFrom(Do(id, service, e, StopFails(k)), id, k, here, peer)
          || ShowsFrom(Do(id, service, f, CallLost), id, k, here, peer)
  {
    var transfer := here.records[id];
    if Can(e, StopReaches(transfer.kind, error)) {
      StopSteps(id, service, e, transfer.kind, error);
    }
    if transfer.kind == Outgoing {
      here.cancelled := here.cancelled + {id};
    }
    var reaches, answered := Network();
    if !reaches {
      return false;
    }
    var status := peer.StopTransfer(id, error);
    if status.Some? || !answered {
      return false;
    }
    here.records := here.records[id := transfer.(state := Stopped)];
    return true;
  }

  /** `cancel_transfer`: rejects an incoming transfer, or cancels an outgoing one and first of all its token. */
  method CancelTransfer(here: TransferServer, peer: TransferServer, id: nat, ghost service: string, ghost e: Pair)
    returns (ok: bool)
    requires here != peer && id in here.records
    requires id in peer.records ==> peer.records[id].kind != here.records[id].kind
    requires ShowsFrom(e, id, here.records[id].kind, here, peer)
    modifies here`records, here`cancelled, peer`records
    ensures ok ==>
      && id in old(peer.records) && old(peer.records)[id].state == WaitingPermission
      && var st := if old(here.records)[id].kind == Outgoing then Canceled else Denied;
      && here.records == old(here.records)[id := old(here.records)[id].(state := st)]
      && peer.records == old(peer.records)[id := old(peer.records)[id].(state := st)]
      && (here.records[id].kind == Outgoing ==> id in here.cancelled)
    ensures !ok ==> here.records == old(here.records)
    ensures var k := old(here.records)[id].kind;
      Can(e, CancelReaches(k)) ==>
        var f := Do(id, service, e, CancelReaches(k));
        if ok then f.call == Canceling(k) && ShowsFrom(Do(id, service, f, CancelEnds), id, k, here, peer)
        else ShowsFrom(f, id, k, here, peer) || ShowsFrom(Do(id, service, e, CancelFails(k)), id, k, here, peer)
  {
    var transfer := here.records[id];
    var newState;
    match transfer.kind {
      case Incoming => newState := Denied;
      case Outgoing =>
        here.cancelled := here.cancelled + {id};
        newState := Canceled;
    }
    var reaches, answered := Network();
    if !reaches {
      return false;
    }
    var status := peer.CancelTransferOpRequest(id);
    if status.Some? || !answered {
      return false;
    }
    here.records := here.records[id := transfer.(state := newState)];
    return true;
  }

  /** `accept_transfer`: only an incoming transfer; the sender starts its stream before the receiver's record changes,
      whatever state either record is in. */
  method AcceptTransfer(here: TransferServer, peer: TransferServer, id: nat, ghost service: string, ghost e: Pair)
    returns (ok: bool)
    requires here != peer && id in here.records
    requires id in peer.records ==> peer.records[id].kind != here.records[id].kind
    requires ShowsFrom(e, id, here.records[id].kind, here, peer)
    modifies here`records, peer`records, peer`started
    ensures old(here.records)[id].kind == Outgoing ==> !ok && peer.records == old(peer.records)
    ensures ok ==>
      && id in old(peer.records)
      && here.records == old(here.records)[id := old(here.records)[id].(state := InProgress)]
      && peer.records == old(peer.records)[id := old(peer.records)[id].(state := InProgress)]
      && peer.started == old(peer.started) + [(id, id !in peer.cancelled)]
    ensures !ok ==> here.records == old(here.records)
    ensures Can(e, AcceptReaches) && old(here.records)[id].kind == Incoming ==>
      var f := Do(id, service, e, AcceptReaches);
      if ok then
        && f.call == Accepting && f.streams == e.streams + [Stream(!e.cancelled, true, false, 0, 0, 0)]
        && Shows(Do(id, service, f, AcceptEnds), id, peer, here)
      else Shows(e, id, peer, here) || Shows(Do(id, service, f, CallLost), id, peer, here)
  {
    var transfer := here.records[id];
    if transfer.kind == Outgoing {
      return false;
    }
    var reaches, answered := Network();
    if !reaches {
      return false;
    }
    var status := peer.StartTransfer(id);
    if status.Some? || !answered {
      return false;
    }
    here.records := here.records[id := transfer.(state := InProgress)];
    return true;
  }
}
