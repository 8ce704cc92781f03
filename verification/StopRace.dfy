/**
 A stop against the end of a running stream: which of the two states survives on
 the receiving and on the sending side, in every interleaving.
 */
module StopRace {
  import opened Transfers
  import opened TransferAgreement

  /** A record and its speed, which a stream and a stop both touch. */
  datatype Tally = Tally(record: Rec, speed: nat)

  /** What happens to one record: a chunk is accounted for, the stream task ends, or a stop sets its state, asked for by
      the peer or on this side. */
  datatype Event = Progress(n: nat, speed: nat) | End(result: TransferState) | Stop(byPeer: bool, error: bool)

  function OnProgress(r: Tally, n: nat, speed: nat): Tally {
    Tally(r.record.(bytes := r.record.bytes + n), speed)
  }

  function OnStopEvent(r: Tally, byPeer: bool, error: bool): Tally {
    r.(record := if byPeer then OnStop(r.record, error) else OnStopHere(r.record))
  }

  /** The receiving task respects a stop that came first. */
  function OnReceiver(r: Tally, e: Event): Tally {
    match e
    case Progress(n, v) => OnProgress(r, n, v)
    case End(result) => Tally(r.record.(state := EndOfReceiving(r.record.state, result)), 0)
    case Stop(byPeer, error) => OnStopEvent(r, byPeer, error)
  }

  /** The sending task overwrites whatever is there. */
  function OnSender(r: Tally, e: Event): Tally {
    match e
    case Progress(n, v) => OnProgress(r, n, v)
    case End(result) => Tally(r.record.(state := result), 0)
    case Stop(byPeer, error) => OnStopEvent(r, byPeer, error)
  }

  function ReceiverAfter(r: Tally, es: seq<Event>): Tally {
    if es == [] then r else OnReceiver(ReceiverAfter(r, es[..|es| - 1]), es[|es| - 1])
  }

  function SenderAfter(r: Tally, es: seq<Event>): Tally {
    if es == [] then r else OnSender(SenderAfter(r, es[..|es| - 1]), es[|es| - 1])
  }

  /** One stop, one end of the stream, and no chunk after the end. */
  ghost predicate Interleaving(es: seq<Event>, stopAt: nat, endAt: nat) {
    && stopAt < |es| && es[stopAt].Stop?
    && endAt < |es| && es[endAt].End?
    && (forall i :: 0 <= i < |es| && i != stopAt ==> !es[i].Stop?)
    && (forall i :: 0 <= i < |es| && i != endAt ==> !es[i].End?)
    && (forall i :: endAt < i < |es| ==> !es[i].Progress?)
  }

  function Moved(es: seq<Event>): nat {
    if es == [] then 0
    else Moved(es[..|es| - 1]) + if es[|es| - 1].Progress? then es[|es| - 1].n else 0
  }

  /** With the error flag, only a stop that comes after the stream's end lasts. */
  predicate StopLasts(e: Event, stopAt: nat, endAt: nat)
    requires e.Stop?
  {
    !(e.byPeer && e.error) || stopAt > endAt
  }

  lemma {:induction false} ReceiverPrefix(r: Tally, es: seq<Event>, stopAt: nat, endAt: nat, n: nat)
    requires Interleaving(es, stopAt, endAt) && n <= |es|
    requires r.record.state == InProgress && r.record.kind == Incoming
    ensures var t := ReceiverAfter(r, es[..n]);
      && (n > stopAt && (n <= endAt || StopLasts(es[stopAt], stopAt, endAt)) ==>
            t.record.state == if es[stopAt].byPeer && es[stopAt].error then Failed(RemoteError)
                              else if es[stopAt].byPeer then Canceled else Stopped)
      && (n <= stopAt && n <= endAt ==> t.record.state == InProgress)
      && (n > endAt && (n <= stopAt || !StopLasts(es[stopAt], stopAt, endAt)) ==>
            t.record.state == es[endAt].result)
      && (n > endAt ==> t.speed == 0)
      && t.record == r.record.(state := t.record.state, bytes := r.record.bytes + Moved(es[..n]))
  {
    if n == 0 {
    } else {
      ReceiverPrefix(r, es, stopAt, endAt, n - 1);
      assert es[..n][..n - 1] == es[..n - 1];
    }
  }

  /** On the receiver a stop wins against the stream's end, in either order: the state is `Stopped` if this side asked
      for it and `Canceled` if the sender did. Only an error that the sender tells of is overwritten by a later end. The
      speed ends at 0, and no byte is forgotten. */
  lemma StopWinsOnReceiver(r: Tally, es: seq<Event>, stopAt: nat, endAt: nat)
    requires Interleaving(es, stopAt, endAt)
    requires r.record.state == InProgress && r.record.kind == Incoming
    ensures var t, stop := ReceiverAfter(r, es), es[stopAt];
      && t == Tally(r.record.(state := t.record.state, bytes := r.record.bytes + Moved(es)), 0)
      && (!stop.byPeer ==> t.record.state == Stopped)
      && (stop.byPeer && !stop.error ==> t.record.state == Canceled)
      && (stop.byPeer && stop.error ==>
            t.record.state == if stopAt > endAt then Failed(RemoteError) else es[endAt].result)
  {
    ReceiverPrefix(r, es, stopAt, endAt, |es|);
    assert es[..|es|] == es;
  }

  lemma {:induction false} SenderPrefix(r: Tally, es: seq<Event>, stopAt: nat, endAt: nat, n: nat)
    requires Interleaving(es, stopAt, endAt) && n <= |es| && r.record.kind == Outgoing
    ensures var t := SenderAfter(r, es[..n]);
      && (n > stopAt && (n <= endAt || stopAt > endAt) ==>
            t.record.state == if es[stopAt].byPeer && es[stopAt].error then Failed(RemoteError) else Stopped)
      && (n > endAt && (n <= stopAt || stopAt < endAt) ==> t.record.state == es[endAt].result)
      && (n > endAt ==> t.speed == 0)
      && t.record == r.record.(state := t.record.state, bytes := r.record.bytes + Moved(es[..n]))
  {
    if n == 0 {
    } else {
      SenderPrefix(r, es, stopAt, endAt, n - 1);
      assert es[..n][..n - 1] == es[..n - 1];
    }
  }

  /** On the sender the later of the two wins: a stop that comes before the stream's end is overwritten. */
  lemma LastWriteWinsOnSender(r: Tally, es: seq<Event>, stopAt: nat, endAt: nat)
    requires Interleaving(es, stopAt, endAt) && r.record.kind == Outgoing
    ensures var t, stop := SenderAfter(r, es), es[stopAt];
      && t == Tally(r.record.(state := t.record.state, bytes := r.record.bytes + Moved(es)), 0)
      && t.record.state == (if stopAt < endAt then es[endAt].result
                            else if stop.byPeer && stop.error then Failed(RemoteError) else Stopped)
  {
    SenderPrefix(r, es, stopAt, endAt, |es|);
    assert es[..|es|] == es;
  }
}
