/**
 The calls two peers make on a transfer and the handlers they reach, with the
 stream tasks running in between: what the two records agree on.
 */
module TransferAgreement {
  import opened Common
  import opened Transfers
  import opened Announce

  datatype Kind = Outgoing | Incoming

  datatype Rec = Rec(kind: Kind, details: Details, state: TransferState, bytes: nat)

  const ZERO := Details(0, 0, [], None, None)

  datatype Status = NotFoundStatus | InvalidArgument | FailedPrecondition

  // ----- what the handlers do to a record -----

  function OnStart(r: Rec): Result<Rec, Status> {
    if r.kind == Incoming then Err(InvalidArgument) else Ok(r.(state := InProgress))
  }

  /** A stop by the peer. */
  function OnStop(r: Rec, error: bool): Rec {
    r.(state := StateAfterStop(r.kind == Outgoing, error))
  }

  /** A stop that this side has asked for and the peer has agreed to. */
  function OnStopHere(r: Rec): Rec {
    r.(state := Stopped)
  }

  function OnCancel(r: Rec): Result<Rec, Status> {
    if r.state != WaitingPermission then Err(FailedPrecondition)
    else Ok(r.(state := if r.kind == Outgoing then Denied else Canceled))
  }

  /** The serving side of one peer: its records by protocol id, the cancelled tokens, and the sending tasks started,
      each with whether its token was still uncancelled then. */
  class TransferServer {
    var records: map<nat, Rec>
    var cancelled: set<nat>
    var started: seq<(nat, bool)>

    constructor ()
      ensures records == map[] && cancelled == {} && started == []
    {
      records, cancelled, started := map[], {}, [];
    }

    method ProcessTransferOpRequest(request: TransferOpRequest)
      modifies this`records
      ensures var (_, id, details) := FromRequest(request);
        records == old(records)[id := Rec(Incoming, details, WaitingPermission, 0)]
    {
      var (ident, id, details) := FromRequest(request);
      records := records[id := Rec(Incoming, details, WaitingPermission, 0)];
    }

    method StartTransfer(id: nat) returns (status: Option<Status>)
      modifies this`records, this`started
      ensures status == if id !in old(records) then Some(NotFoundStatus)
                        else match OnStart(old(records)[id]) { case Ok(_) => None case Err(e) => Some(e) }
      ensures status.Some? ==> records == old(records) && started == old(started)
      ensures status.None? ==>
        && records == old(records)[id := OnStart(old(records)[id]).value]
        && started == old(started) + [(id, id !in cancelled)]
    {
      if id !in records {
        return Some(NotFoundStatus);
      }
      var transfer := records[id];
      match transfer.kind {
        case Incoming => return Some(InvalidArgument);
        case Outgoing =>
      }
      records := records[id := transfer.(state := InProgress)];
      started := started + [(id, id !in cancelled)];
      return None;
    }

    method StopTransfer(id: nat, error: bool) returns (status: Option<Status>)
      modifies this`records, this`cancelled
      ensures status.None? <==> id in old(records)
      ensures status.Some? ==> records == old(records) && cancelled == old(cancelled)
      ensures status.None? ==> records == old(records)[id := OnStop(old(records)[id], error)]
      ensures status.None? ==>
        var r := records[id];
        && (error ==> r.state == Failed(RemoteError))
        && (!error && r.kind == Outgoing ==> r.state == Stopped)
        && (!error && r.kind == Incoming ==> r.state == Canceled)
      ensures status.None? ==>
        cancelled == if old(records)[id].kind == Outgoing then old(cancelled) + {id} else old(cancelled)
    {
      if id !in records {
        return Some(NotFoundStatus);
      }
      var transfer := records[id];
      var newState;
      match transfer.kind {
        case Outgoing =>
          cancelled := cancelled + {id};
          newState := if error then Failed(RemoteError) else Stopped;
        case Incoming =>
          newState := if error then Failed(RemoteError) else Canceled;
      }
      records := records[id := transfer.(state := newState)];
      return None;
    }

    method CancelTransferOpRequest(id: nat) returns (status: Option<Status>)
      modifies this`records
      ensures status == if id !in old(records) then Some(NotFoundStatus)
                        else match OnCancel(old(records)[id]) { case Ok(_) => None case Err(e) => Some(e) }
      ensures records == if status.None? then old(records)[id := OnCancel(old(records)[id]).value] else old(records)
    {
      if id !in records {
        return Some(NotFoundStatus);
      }
      var transfer := records[id];
      if transfer.state.WaitingPermission? {
        var newState := if transfer.kind == Outgoing then Denied else Canceled;
        records := records[id := transfer.(state := newState)];
      } else {
        return Some(FailedPrecondition);
      }
      return None;
    }
  }

  // ----- one transfer at both peers -----

  /** The public call under way on a transfer; calls on one transfer do not overlap. */
  datatype Call =
    | Idle
    | Requesting              // send_transfer_request: recorded here, paths processed
    | Delivered               // ... and recorded at the peer
    | Accepting               // accept_transfer: the sender has started its stream
    | Canceling(caller: Kind) // cancel_transfer: the peer has agreed; `caller` is the kind of record the caller holds
    | Stopping(caller: Kind)  // stop_transfer: the peer has been told

  /** One accepted stream: whether the token was uncancelled when its sending task started, whether its tasks run,
      the bytes handed to it, and how many of them each side has counted. */
  datatype Stream = Stream(live: bool, sending: bool, receiving: bool, sent: nat, counted: nat, received: nat)

  /** One transfer: its record at the sender and at the receiver, if there, the sender's token, and the streams
      accepted so far. `announced` is what the paths were processed to (see `AnnouncedSurvivesWire`); `available` are
      the bytes that can be read from them, which is the announced total when nothing is hidden (see
      `BytesMeetAnnouncement`); `confirmed` says that the request call has succeeded. */
  datatype Pair = Pair(
    outgoing: Option<Rec>, incoming: Option<Rec>, cancelled: bool, streams: seq<Stream>,
    announced: Details, available: nat, confirmed: bool, call: Call)

  function NewPair(d: Details, available: nat): Pair {
    Pair(Some(Rec(Outgoing, ZERO, Initializing, 0)), None, false, [], d, available, false, Requesting)
  }

  function SetState(r: Option<Rec>, st: TransferState): Option<Rec> {
    match r
    case None => None
    case Some(rec) => Some(rec.(state := st))
  }

  function StopHere(r: Option<Rec>): Option<Rec> {
    match r
    case None => None
    case Some(rec) => Some(OnStopHere(rec))
  }

  function AddBytes(r: Option<Rec>, n: nat): Option<Rec> {
    match r
    case None => None
    case Some(rec) => Some(rec.(bytes := rec.bytes + n))
  }

  function IncomingRecord(id: nat, service: string, d: Details): Rec {
    Rec(Incoming, FromRequest(AsProto(id, d, service)).2, WaitingPermission, 0)
  }

  predicate InState(r: Option<Rec>, st: TransferState) { r.Some? && r.value.state == st }

  datatype Action =
    | Deliver | Confirm | ProcessingFails
    | AcceptReaches | AcceptEnds
    | CancelReaches(caller: Kind) | CancelEnds | CancelFails(caller: Kind)
    | StopReaches(caller: Kind, error: bool) | StopEnds | StopFails(caller: Kind)
    | CallLost
    | Shutdown
    | Remove(at: Kind)
    | Send(k: nat, n: nat) | Count(k: nat) | SenderEnds(k: nat, result: TransferState)
    | Receive(k: nat, n: nat) | ReceiverEnds(k: nat, result: TransferState)

  predicate CallerIn(e: Pair, caller: Kind, st: TransferState) {
    InState(if caller == Incoming then e.incoming else e.outgoing, st)
  }

  predicate TaskResult(st: TransferState) {
    st == Completed || st == Canceled || st.Failed?
  }

  /** What can happen: calls start only when none is under way and as documented; tasks run at any time. A sending
      task whose token was cancelled before it started sends nothing, and a receiving one takes only what was sent. */
  predicate Can(e: Pair, a: Action) {
    match a
    case Deliver => e.call == Requesting
    case Confirm => e.call == Delivered
    case ProcessingFails => e.call == Requesting
    case AcceptReaches => e.call == Idle && e.incoming.Some? && e.outgoing.Some?
    case AcceptEnds => e.call == Accepting && e.streams != []
    case CancelReaches(caller) =>
      e.call == Idle && e.outgoing.Some? && e.incoming.Some? && CallerIn(e, caller, WaitingPermission)
    case CancelEnds => e.call.Canceling?
    case CancelFails(caller) => e.call == Idle && CallerIn(e, caller, WaitingPermission)
    case StopReaches(caller, _) =>
      e.call == Idle && e.outgoing.Some? && e.incoming.Some? && CallerIn(e, caller, InProgress)
    case StopEnds => e.call.Stopping?
    case StopFails(caller) => e.call == Idle && CallerIn(e, caller, InProgress)
    case CallLost => e.call != Idle
    case Shutdown => true
    case Remove(at) => e.call == Idle && (if at == Outgoing then e.outgoing.Some? else e.incoming.Some?)
    case Send(k, n) =>
      k < |e.streams| && e.streams[k].sending && e.streams[k].live && e.streams[k].sent + n <= e.available
    case Count(k) => k < |e.streams| && e.streams[k].sending && e.streams[k].counted <= e.streams[k].sent
    case SenderEnds(k, result) =>
      k < |e.streams| && e.streams[k].sending && e.streams[k].counted == e.streams[k].sent && TaskResult(result)
    case Receive(k, n) =>
      k < |e.streams| && e.streams[k].receiving && e.streams[k].received + n <= e.streams[k].sent
    case ReceiverEnds(k, result) => k < |e.streams| && e.streams[k].receiving && TaskResult(result)
  }

  function SetStream(e: Pair, k: nat, st: Stream): Pair
    requires k < |e.streams|
  {
    e.(streams := e.streams[k := st])
  }

  /** The sender's own cancel and stop cancel its token first, whatever becomes of the call. */
  function CancelToken(e: Pair, caller: Kind): Pair {
    if caller == Outgoing then e.(cancelled := true) else e
  }

  function DoCancel(e: Pair, caller: Kind): Pair
    requires e.outgoing.Some? && e.incoming.Some?
  {
    var c := CancelToken(e, caller);
    if caller == Incoming then
      match OnCancel(c.outgoing.value)
      case Err(_) => c
      case Ok(r) => c.(outgoing := Some(r), call := Canceling(caller))
    else
      match OnCancel(c.incoming.value)
      case Err(_) => c
      case Ok(r) => c.(incoming := Some(r), call := Canceling(caller))
  }

  /** A stop cancels the sender's token from either side. */
  function DoStop(e: Pair, caller: Kind, error: bool): Pair
    requires e.outgoing.Some? && e.incoming.Some?
  {
    var c := e.(cancelled := true, call := Stopping(caller));
    if caller == Incoming then c.(outgoing := Some(OnStop(c.outgoing.value, error)))
    else c.(incoming := Some(OnStop(c.incoming.value, error)))
  }

  predicate IsTask(a: Action) {
    a.Send? || a.Count? || a.SenderEnds? || a.Receive? || a.ReceiverEnds?
  }

  /** What a task does to its stream and to the record of its side. */
  function DoTask(e: Pair, a: Action): Pair
    requires Can(e, a) && IsTask(a)
  {
    var st := e.streams[a.k];
    match a
    case Send(k, n) => SetStream(e, k, st.(sent := st.sent + n))
    case Count(k) =>
      SetStream(e, k, st.(counted := st.sent)).(outgoing := AddBytes(e.outgoing, st.sent - st.counted))
    case SenderEnds(k, result) => SetStream(e, k, st.(sending := false)).(outgoing := SetState(e.outgoing, result))
    case Receive(k, n) =>
      SetStream(e, k, st.(received := st.received + n)).(incoming := AddBytes(e.incoming, n))
    case ReceiverEnds(k, result) =>
      SetStream(e, k, st.(receiving := false))
      .(incoming := if e.incoming.None? then None
                    else SetState(e.incoming, EndOfReceiving(e.incoming.value.state, result)))
  }

  function Do(id: nat, service: string, e: Pair, a: Action): Pair
    requires Can(e, a)
  {
    match a
    case Deliver => e.(incoming := Some(IncomingRecord(id, service, e.announced)), call := Delivered)
    case Confirm =>
      e.(outgoing := if e.outgoing.None? then None
                     else Some(e.outgoing.value.(details := e.announced, state := WaitingPermission)),
         confirmed := true, call := Idle)
    case ProcessingFails => e.(outgoing := SetState(e.outgoing, Failed(FailedToProcessFiles)), call := Idle)
    case AcceptReaches =>
      (match OnStart(e.outgoing.value)
       case Err(_) => e
       case Ok(r) =>
         e.(outgoing := Some(r), call := Accepting,
            streams := e.streams + [Stream(!e.cancelled, true, false, 0, 0, 0)]))
    case AcceptEnds =>
      var last := |e.streams| - 1;
      SetStream(e, last, e.streams[last].(receiving := true))
      .(incoming := SetState(e.incoming, InProgress), call := Idle)
    case CancelReaches(caller) => DoCancel(e, caller)
    case CancelEnds =>
      if e.call.caller == Incoming then e.(incoming := SetState(e.incoming, Denied), call := Idle)
      else e.(outgoing := SetState(e.outgoing, Canceled), call := Idle)
    case CancelFails(caller) => CancelToken(e, caller)
    case StopReaches(caller, error) => DoStop(e, caller, error)
    case StopEnds =>
      if e.call.caller == Incoming then e.(incoming := StopHere(e.incoming), call := Idle)
      else e.(outgoing := StopHere(e.outgoing), call := Idle)
    case StopFails(caller) => CancelToken(e, caller)
    case CallLost => e.(call := Idle)
    case Shutdown => e.(cancelled := true)
    case Remove(at) => if at == Outgoing then e.(outgoing := None) else e.(incoming := None)
    case _ => DoTask(e, a)
  }

  /** A step of the two peers: some transfer acts, or a new one with an unused protocol id is requested. */
  type System = map<nat, Pair>

  ghost predicate Next(service: string, s: System, t: System) {
    || (exists id, a :: id in s && Can(s[id], a) && t == s[id := Do(id, service, s[id], a)])
    || (exists id: nat, d, n :: id !in s && SurvivesWire(d) && t == s[id := NewPair(d, n)])
  }

  ghost predicate IsRun(service: string, run: seq<System>) {
    && run != [] && run[0] == map[]
    && forall i :: 0 <= i < |run| - 1 ==> Next(service, run[i], run[i + 1])
  }

  // ----- what every run keeps -----

  /** The states a transfer is in before anybody accepts it. */
  predicate Early(st: TransferState) {
    st == Initializing || st == WaitingPermission || st == Denied
  }

  predicate IsEarly(r: Option<Rec>) { r.Some? && Early(r.value.state) }

  /** Before acceptance the sender has no stream, and the receiver takes nothing from one. */
  predicate EarlyIsUntouched(e: Pair) {
    && (IsEarly(e.outgoing) ==> e.streams == [])
    && (IsEarly(e.incoming) ==> forall st :: st in e.streams ==> !st.receiving && st.received == 0)
  }

  /** The incoming record tells what was announced; so does the outgoing one once the request call has succeeded. */
  predicate Mirror(e: Pair) {
    && (e.incoming.Some? ==> e.incoming.value.kind == Incoming && e.incoming.value.details == e.announced)
    && (e.outgoing.Some? ==>
          && e.outgoing.value.kind == Outgoing
          && e.outgoing.value.details == if e.confirmed then e.announced else ZERO)
  }

  /** The step of a call that the peer has already taken. */
  predicate CallInv(e: Pair) {
    match e.call
    case Requesting => InState(e.outgoing, Initializing) && e.incoming.None? && !e.confirmed
    case Delivered => InState(e.outgoing, Initializing) && InState(e.incoming, WaitingPermission) && !e.confirmed
    case Accepting => e.outgoing.Some? && !Early(e.outgoing.value.state) && e.incoming.Some? && e.streams != []
    case Canceling(caller) =>
      && e.streams == []
      && (if caller == Incoming then InState(e.outgoing, Denied) && InState(e.incoming, WaitingPermission)
          else InState(e.outgoing, WaitingPermission) && InState(e.incoming, Canceled) && e.cancelled)
    case Stopping(_) => e.outgoing.Some? && e.incoming.Some?
    case Idle => true
  }

  function Counted(streams: seq<Stream>): nat {
    if streams == [] then 0 else Counted(streams[..|streams| - 1]) + streams[|streams| - 1].counted
  }

  function Received(streams: seq<Stream>): nat {
    if streams == [] then 0 else Received(streams[..|streams| - 1]) + streams[|streams| - 1].received
  }

  function Sent(streams: seq<Stream>): nat {
    if streams == [] then 0 else Sent(streams[..|streams| - 1]) + streams[|streams| - 1].sent
  }

  /** Neither side counts more than the stream carried, which is at most what there is to read, and nothing if it
      started under a cancelled token. */
  predicate StreamInv(st: Stream, available: nat) {
    st.counted <= st.sent && st.received <= st.sent && st.sent <= available && (!st.live ==> st.sent == 0)
  }

  /** Each side's count is what its tasks have counted. */
  predicate BytesInv(e: Pair) {
    && (forall st :: st in e.streams ==> StreamInv(st, e.available))
    && (e.outgoing.Some? ==> e.outgoing.value.bytes == Counted(e.streams))
    && (e.incoming.Some? ==> e.incoming.value.bytes == Received(e.streams))
  }

  predicate PairInv(e: Pair) {
    SurvivesWire(e.announced) && Mirror(e) && CallInv(e) && EarlyIsUntouched(e) && BytesInv(e)
  }

  /** The record is there as before, for the same transfer, and not in an early state unless it was. */
  predicate OnlyProgress(r: Option<Rec>, t: Option<Rec>) {
    if r.None? then t.None?
    else
      && t.Some? && t.value.kind == r.value.kind && t.value.details == r.value.details
      && (Early(t.value.state) ==> t.value.state == r.value.state)
  }

  predicate SameReception(xs: seq<Stream>, ys: seq<Stream>) {
    && |xs| == |ys|
    && forall i :: 0 <= i < |xs| ==> ys[i].receiving == xs[i].receiving && ys[i].received == xs[i].received
  }

  lemma TaskKeepsOutgoing(e: Pair, a: Action)
    requires Can(e, a) && IsTask(a)
    ensures OnlyProgress(e.outgoing, DoTask(e, a).outgoing)
  {
  }

  lemma TaskKeepsIncoming(e: Pair, a: Action)
    requires Can(e, a) && IsTask(a)
    ensures OnlyProgress(e.incoming, DoTask(e, a).incoming)
  {
  }

  /** Tasks leave the calls, the token and what was announced alone. */
  lemma TaskOutline(e: Pair, a: Action)
    requires Can(e, a) && IsTask(a)
    ensures var f := DoTask(e, a);
      && f == e.(outgoing := f.outgoing, incoming := f.incoming, streams := f.streams)
      && OnlyProgress(e.outgoing, f.outgoing) && OnlyProgress(e.incoming, f.incoming)
      && |f.streams| == |e.streams|
  {
    TaskKeepsOutgoing(e, a);
    TaskKeepsIncoming(e, a);
  }

  lemma SenderTaskReception(e: Pair, a: Action)
    requires Can(e, a) && IsTask(a) && !a.Receive? && !a.ReceiverEnds?
    ensures SameReception(e.streams, DoTask(e, a).streams)
  {
  }

  lemma TaskKeepsMirror(e: Pair, a: Action)
    requires PairInv(e) && Can(e, a) && IsTask(a)
    ensures var f := DoTask(e, a); Mirror(f) && CallInv(f)
  {
    TaskOutline(e, a);
  }

  lemma TaskKeepsReceiver(e: Pair, a: Action)
    requires EarlyIsUntouched(e) && Can(e, a) && IsTask(a) && IsEarly(e.incoming)
    ensures forall st :: st in DoTask(e, a).streams ==> !st.receiving && st.received == 0
  {
    assert e.streams[a.k] in e.streams;
    SenderTaskReception(e, a);
    SameReceptionStays(e.streams, DoTask(e, a).streams);
  }

  lemma TaskKeepsUntouched(e: Pair, a: Action)
    requires EarlyIsUntouched(e) && Can(e, a) && IsTask(a)
    ensures EarlyIsUntouched(DoTask(e, a))
  {
    TaskOutline(e, a);
    if IsEarly(DoTask(e, a).incoming) {
      TaskKeepsReceiver(e, a);
    }
  }

  lemma SameReceptionStays(xs: seq<Stream>, ys: seq<Stream>)
    requires SameReception(xs, ys) && forall st :: st in xs ==> !st.receiving && st.received == 0
    ensures forall st :: st in ys ==> !st.receiving && st.received == 0
  {
    forall st | st in ys
      ensures !st.receiving && st.received == 0
    {
      var i :| 0 <= i < |ys| && ys[i] == st;
      assert xs[i] in xs;
    }
  }

  lemma DeliveredMirrors(id: nat, service: string, d: Details)
    requires SurvivesWire(d)
    ensures IncomingRecord(id, service, d).details == d
  {
    RequestRoundTrip(id, d, service);
  }

  lemma CallKeepsMirror(id: nat, service: string, e: Pair, a: Action)
    requires PairInv(e) && Can(e, a) && !IsTask(a)
    ensures Mirror(Do(id, service, e, a))
  {
    if a.Deliver? {
      DeliveredMirrors(id, service, e.announced);
    } else {
      CallKeepsIncoming(id, service, e, a);
      CallKeepsOutgoing(id, service, e, a);
      AnnouncedStays(id, service, e, a);
    }
  }

  /** The record is gone, or it is the same but for its state. */
  predicate OnlyState(r: Option<Rec>, t: Option<Rec>) {
    t.Some? ==> r.Some? && t.value == r.value.(state := t.value.state)
  }

  lemma CallKeepsIncoming(id: nat, service: string, e: Pair, a: Action)
    requires Can(e, a) && !IsTask(a) && !a.Deliver?
    ensures OnlyState(e.incoming, Do(id, service, e, a).incoming)
  {
    if a.CancelReaches? || a.StopReaches? {
      AnswersKeepRecords(id, service, e, a);
    }
  }

  /** A step of a call keeps the sender's record but for its state, and for its details when they are confirmed. */
  lemma CallKeepsOutgoing(id: nat, service: string, e: Pair, a: Action)
    requires Can(e, a) && !IsTask(a)
    ensures var f := Do(id, service, e, a);
      && (if a.Confirm?
          then f.outgoing.Some? ==>
            && e.outgoing.Some?
            && f.outgoing.value == e.outgoing.value.(details := e.announced, state := WaitingPermission)
          else OnlyState(e.outgoing, f.outgoing))
      && f.confirmed == (a.Confirm? || e.confirmed)
  {
    if a.CancelReaches? || a.StopReaches? {
      AnswersKeepRecords(id, service, e, a);
    }
  }

  lemma AnswersKeepRecords(id: nat, service: string, e: Pair, a: Action)
    requires Can(e, a) && (a.CancelReaches? || a.StopReaches?)
    ensures var f := Do(id, service, e, a);
      OnlyState(e.outgoing, f.outgoing) && OnlyState(e.incoming, f.incoming) && f.confirmed == e.confirmed
  {
  }

  /** The peer's answer to a cancel is what `CallInv` remembers of it. */
  lemma CancelKeepsCallInv(e: Pair, caller: Kind)
    requires PairInv(e) && Can(e, CancelReaches(caller))
    ensures CallInv(DoCancel(e, caller))
  {
  }

  lemma CallKeepsCallInv(id: nat, service: string, e: Pair, a: Action)
    requires PairInv(e) && Can(e, a) && !IsTask(a)
    ensures CallInv(Do(id, service, e, a))
  {
    if a.CancelReaches? {
      CancelKeepsCallInv(e, a.caller);
    }
  }

  lemma SenderStaysUntouched(id: nat, service: string, e: Pair, a: Action)
    requires CallInv(e) && EarlyIsUntouched(e) && Can(e, a) && !IsTask(a)
    ensures var f := Do(id, service, e, a); IsEarly(f.outgoing) ==> f.streams == []
  {
  }

  lemma ReceiverStaysUntouched(id: nat, service: string, e: Pair, a: Action)
    requires CallInv(e) && EarlyIsUntouched(e) && Can(e, a) && !IsTask(a)
    ensures var f := Do(id, service, e, a);
      IsEarly(f.incoming) ==> forall st :: st in f.streams ==> !st.receiving && st.received == 0
  {
  }

  lemma CallKeepsUntouched(id: nat, service: string, e: Pair, a: Action)
    requires PairInv(e) && Can(e, a) && !IsTask(a)
    ensures EarlyIsUntouched(Do(id, service, e, a))
  {
    SenderStaysUntouched(id, service, e, a);
    ReceiverStaysUntouched(id, service, e, a);
  }

  /** Changing one stream changes the sums by what it changes itself. */
  lemma {:induction false} SumsAfterSet(streams: seq<Stream>, k: nat, st: Stream)
    requires k < |streams|
    ensures Counted(streams[k := st]) == Counted(streams) - streams[k].counted + st.counted
    ensures Received(streams[k := st]) == Received(streams) - streams[k].received + st.received
  {
    var n := |streams| - 1;
    if k == n {
      assert streams[k := st][..n] == streams[..n];
    } else {
      SumsAfterSet(streams[..n], k, st);
      assert streams[k := st][..n] == streams[..n][k := st];
    }
  }

  /** A step of a call changes no count; only acceptance changes the streams. */
  lemma CallKeepsCounts(id: nat, service: string, e: Pair, a: Action)
    requires Can(e, a) && !IsTask(a) && !a.Deliver?
    ensures var f := Do(id, service, e, a);
      && (f.outgoing.Some? ==> e.outgoing.Some? && f.outgoing.value.bytes == e.outgoing.value.bytes)
      && (f.incoming.Some? ==> e.incoming.Some? && f.incoming.value.bytes == e.incoming.value.bytes)
  {
    CallKeepsOutgoing(id, service, e, a);
    CallKeepsIncoming(id, service, e, a);
  }

  lemma CallKeepsStreams(id: nat, service: string, e: Pair, a: Action)
    requires Can(e, a) && !IsTask(a) && !a.AcceptReaches? && !a.AcceptEnds?
    ensures Do(id, service, e, a).streams == e.streams
  {
  }

  lemma NewStreamKeepsSums(streams: seq<Stream>, live: bool)
    ensures var all := streams + [Stream(live, true, false, 0, 0, 0)];
      Counted(all) == Counted(streams) && Received(all) == Received(streams)
  {
    assert (streams + [Stream(live, true, false, 0, 0, 0)])[..|streams|] == streams;
  }

  /** Accepting changes no count and no bytes of a stream. */
  lemma AcceptKeepsStreams(streams: seq<Stream>, live: bool, available: nat)
    requires forall st :: st in streams ==> StreamInv(st, available)
    ensures var all := streams + [Stream(live, true, false, 0, 0, 0)];
      forall st :: st in all ==> StreamInv(st, available)
    ensures streams != [] ==>
      var n := |streams| - 1;
      var all := streams[n := streams[n].(receiving := true)];
      && (forall st :: st in all ==> StreamInv(st, available))
      && Counted(all) == Counted(streams) && Received(all) == Received(streams)
  {
    if streams != [] {
      var n := |streams| - 1;
      assert streams[n] in streams;
      SumsAfterSet(streams, n, streams[n].(receiving := true));
    }
  }

  lemma AcceptKeepsBytes(id: nat, service: string, e: Pair, a: Action)
    requires BytesInv(e) && Can(e, a) && (a.AcceptReaches? || a.AcceptEnds?)
    ensures BytesInv(Do(id, service, e, a))
  {
    CallKeepsCounts(id, service, e, a);
    NewStreamKeepsSums(e.streams, !e.cancelled);
    AcceptKeepsStreams(e.streams, !e.cancelled, e.available);
  }

  lemma CallKeepsBytes(id: nat, service: string, e: Pair, a: Action)
    requires PairInv(e) && Can(e, a) && !IsTask(a)
    ensures BytesInv(Do(id, service, e, a))
  {
    if a.AcceptReaches? || a.AcceptEnds? {
      AcceptKeepsBytes(id, service, e, a);
    } else if !a.Deliver? {
      CallKeepsCounts(id, service, e, a);
      CallKeepsStreams(id, service, e, a);
    }
  }

  /** What a task adds to its stream's counts it adds to its side's record. */
  lemma TaskCounts(e: Pair, a: Action)
    requires Can(e, a) && IsTask(a) && StreamInv(e.streams[a.k], e.available)
    ensures var f := DoTask(e, a);
      var st, after := e.streams[a.k], f.streams[a.k];
      && f.streams == e.streams[a.k := after] && StreamInv(after, e.available) && f.available == e.available
      && (f.outgoing.Some? ==>
            e.outgoing.Some? && f.outgoing.value.bytes - e.outgoing.value.bytes == after.counted - st.counted)
      && (f.incoming.Some? ==>
            e.incoming.Some? && f.incoming.value.bytes - e.incoming.value.bytes == after.received - st.received)
  {
    match a
    case Send(_, _) =>
    case Count(_) =>
    case SenderEnds(_, _) =>
    case Receive(_, _) =>
    case ReceiverEnds(_, _) =>
  }

  lemma TaskKeepsBytes(e: Pair, a: Action)
    requires BytesInv(e) && Can(e, a) && IsTask(a)
    ensures BytesInv(DoTask(e, a))
  {
    assert e.streams[a.k] in e.streams;
    TaskCounts(e, a);
    SumsAfterSet(e.streams, a.k, DoTask(e, a).streams[a.k]);
  }

  lemma CallKeepsPairInv(id: nat, service: string, e: Pair, a: Action)
    requires PairInv(e) && Can(e, a) && !IsTask(a)
    ensures PairInv(Do(id, service, e, a))
  {
    CallKeepsMirror(id, service, e, a);
    CallKeepsCallInv(id, service, e, a);
    CallKeepsUntouched(id, service, e, a);
    CallKeepsBytes(id, service, e, a);
    AnnouncedStays(id, service, e, a);
  }

  lemma AnnouncedStays(id: nat, service: string, e: Pair, a: Action)
    requires Can(e, a)
    ensures Do(id, service, e, a).announced == e.announced
  {
  }

  lemma TaskKeepsPairInv(e: Pair, a: Action)
    requires PairInv(e) && Can(e, a) && IsTask(a)
    ensures PairInv(DoTask(e, a))
  {
    TaskOutline(e, a);
    TaskKeepsMirror(e, a);
    TaskKeepsUntouched(e, a);
    TaskKeepsBytes(e, a);
  }

  lemma StepKeepsPairInv(id: nat, service: string, e: Pair, a: Action)
    requires PairInv(e) && Can(e, a)
    ensures PairInv(Do(id, service, e, a))
  {
    if IsTask(a) {
      TaskKeepsPairInv(e, a);
    } else {
      CallKeepsPairInv(id, service, e, a);
    }
  }

  ghost predicate AllPairs(s: System) {
    forall id :: id in s ==> PairInv(s[id])
  }

  lemma {:induction false} AlwaysPairInv(service: string, run: seq<System>, i: nat)
    requires IsRun(service, run) && i < |run|
    ensures AllPairs(run[i])
  {
    if i == 0 {
    } else {
      AlwaysPairInv(service, run, i - 1);
      var s, t := run[i - 1], run[i];
      assert Next(service, s, t);
      if id, a :| id in s && Can(s[id], a) && t == s[id := Do(id, service, s[id], a)] {
        StepKeepsPairInv(id, service, s[id], a);
      }
    }
  }

  // ----- main results -----

  /** In every run the two records of one transfer agree on what is transferred, as soon as both sides hold it. */
  lemma RecordsMirror(service: string, run: seq<System>, i: nat, id: nat)
    requires IsRun(service, run) && i < |run| && id in run[i]
    ensures Mirror(run[i][id])
    ensures var e := run[i][id];
      e.incoming.Some? && e.outgoing.Some? && e.confirmed ==> e.incoming.value.details == e.outgoing.value.details
  {
    AlwaysPairInv(service, run, i);
  }

  lemma {:induction false} SumsAreBounded(streams: seq<Stream>, available: nat)
    requires forall st :: st in streams ==> StreamInv(st, available)
    ensures Counted(streams) <= Sent(streams) && Received(streams) <= Sent(streams)
    ensures (forall st :: st in streams ==> st.counted == st.sent) ==> Counted(streams) == Sent(streams)
  {
    if streams == [] {
    } else {
      var n := |streams| - 1;
      assert streams[n] in streams;
      SumsAreBounded(streams[..n], available);
    }
  }

  /** In every run no side counts a byte that no stream carried, between sends the sender counts all of them, and no
      stream carries more than there is to read. */
  lemma BytesAreCarried(service: string, run: seq<System>, i: nat, id: nat)
    requires IsRun(service, run) && i < |run| && id in run[i]
    ensures var e := run[i][id];
      && (e.incoming.Some? ==> e.incoming.value.bytes <= Sent(e.streams))
      && (e.outgoing.Some? ==> e.outgoing.value.bytes <= Sent(e.streams))
      && (e.outgoing.Some? && (forall st :: st in e.streams ==> st.counted == st.sent) ==>
            e.outgoing.value.bytes == Sent(e.streams))
      && (forall st :: st in e.streams ==> st.sent <= e.available)
  {
    AlwaysPairInv(service, run, i);
    SumsAreBounded(run[i][id].streams, run[i][id].available);
  }

  function BytesOf(r: Option<Rec>): nat {
    if r.Some? then r.value.bytes else 0
  }

  predicate NoBytes(e: Pair) { BytesOf(e.outgoing) + BytesOf(e.incoming) == 0 }

  function AtRest(r: Option<Rec>, st: TransferState): Option<Rec> {
    if r.Some? then Some(r.value.(state := st, bytes := 0)) else None
  }

  /** Both records are in state `st`, nothing has moved and nothing was ever accepted. */
  predicate BothAt(e: Pair, st: TransferState) {
    e == e.(call := Idle, streams := [], outgoing := AtRest(e.outgoing, st), incoming := AtRest(e.incoming, st))
  }

  /** A cancel call that succeeds leaves both sides Denied (the receiver called), or both Canceled and the token
      cancelled (the sender called), with no byte moved on either side. */
  lemma CancelAgrees(service: string, run: seq<System>, i: nat, id: nat)
    requires IsRun(service, run) && i < |run| && id in run[i]
    requires Can(run[i][id], CancelEnds)
    ensures var e := run[i][id];
      var after := Do(id, service, e, CancelEnds);
      && BothAt(after, if e.call.caller == Incoming then Denied else Canceled)
      && after.outgoing.Some? && after.incoming.Some?
      && (e.call.caller == Outgoing ==> after.cancelled)
  {
    AlwaysPairInv(service, run, i);
  }

  function DoAll(id: nat, service: string, e: Pair, actions: seq<Action>): (r: Option<Pair>)
    decreases |actions|
  {
    if actions == [] then Some(e)
    else if Can(e, actions[0]) then DoAll(id, service, Do(id, service, e, actions[0]), actions[1..])
    else None
  }

  predicate OnlyTasks(actions: seq<Action>) {
    forall a :: a in actions ==> IsTask(a)
  }

  predicate SenderEnded(actions: seq<Action>) {
    exists a :: a in actions && a.SenderEnds?
  }

  /** Tasks that end do not lift a stop or a cancellation from the receiver's record; the sender's record changes its
      state only when its task ends. */
  lemma {:induction false} TasksKeepStop(id: nat, service: string, e: Pair, actions: seq<Action>)
    requires OnlyTasks(actions) && DoAll(id, service, e, actions).Some?
    ensures var f := DoAll(id, service, e, actions).value;
      && f.call == e.call && f.cancelled == e.cancelled
      && f.incoming.Some? == e.incoming.Some? && f.outgoing.Some? == e.outgoing.Some?
      && (InState(e.incoming, Stopped) ==> InState(f.incoming, Stopped))
      && (InState(e.incoming, Canceled) ==> InState(f.incoming, Canceled))
      && (e.outgoing.Some? && !SenderEnded(actions) ==> f.outgoing.value.state == e.outgoing.value.state)
    decreases |actions|
  {
    if actions == [] {
    } else {
      var a, rest := actions[0], actions[1..];
      assert a in actions && forall b :: b in rest ==> b in actions;
      assert SenderEnded(rest) ==> SenderEnded(actions);
      TaskKeepsStop(e, a);
      TasksKeepStop(id, service, Do(id, service, e, a), rest);
    }
  }

  lemma TaskKeepsStop(e: Pair, a: Action)
    requires IsTask(a) && Can(e, a)
    ensures var f := DoTask(e, a);
      && f.call == e.call && f.cancelled == e.cancelled
      && f.incoming.Some? == e.incoming.Some? && f.outgoing.Some? == e.outgoing.Some?
      && (InState(e.incoming, Stopped) ==> InState(f.incoming, Stopped))
      && (InState(e.incoming, Canceled) ==> InState(f.incoming, Canceled))
      && (e.outgoing.Some? && !a.SenderEnds? ==> f.outgoing.value.state == e.outgoing.value.state)
  {
  }

  /** What a task writes when it ends: the sender's its result, whatever was there; the receiver's too, unless it was
      stopped or canceled before. Neither touches the other side's record or any count. */
  lemma TaskEnds(e: Pair, k: nat, result: TransferState)
    requires k < |e.streams|
    ensures Can(e, SenderEnds(k, result)) ==>
      var f := DoTask(e, SenderEnds(k, result));
      && f.incoming == e.incoming && !f.streams[k].sending
      && (e.outgoing.Some? ==> f.outgoing == Some(e.outgoing.value.(state := result)))
    ensures Can(e, ReceiverEnds(k, result)) ==>
      var f := DoTask(e, ReceiverEnds(k, result));
      && f.outgoing == e.outgoing && !f.streams[k].receiving
      && (e.incoming.Some? ==>
            var st := e.incoming.value.state;
            f.incoming == Some(e.incoming.value.(state := if st == Stopped || st == Canceled then st else result)))
  {
  }

  /** Removing a record leaves the other side's record, the token and running streams alone, and no later step brings
      the record back. */
  lemma RemovedStaysGone(id: nat, service: string, e: Pair, at: Kind, actions: seq<Action>)
    requires Can(e, Remove(at)) && DoAll(id, service, Do(id, service, e, Remove(at)), actions).Some?
    ensures var f := Do(id, service, e, Remove(at));
      var g := DoAll(id, service, f, actions).value;
      && f.streams == e.streams && f.cancelled == e.cancelled
      && (if at == Outgoing then f.incoming == e.incoming && g.outgoing == None
          else f.outgoing == e.outgoing && g.incoming == None)
  {
    var f := Do(id, service, e, Remove(at));
    NoneStaysNone(id, service, f, actions);
  }

  lemma {:induction false} NoneStaysNone(id: nat, service: string, e: Pair, actions: seq<Action>)
    requires e.call != Requesting && DoAll(id, service, e, actions).Some?
    ensures e.outgoing.None? ==> DoAll(id, service, e, actions).value.outgoing == None
    ensures e.incoming.None? ==> DoAll(id, service, e, actions).value.incoming == None
    decreases |actions|
  {
    if actions == [] {
    } else {
      NoneNext(id, service, e, actions[0]);
      NoneStaysNone(id, service, Do(id, service, e, actions[0]), actions[1..]);
    }
  }

  lemma NoneNext(id: nat, service: string, e: Pair, a: Action)
    requires e.call != Requesting && Can(e, a)
    ensures var f := Do(id, service, e, a);
      && f.call != Requesting
      && (e.outgoing.None? ==> f.outgoing == None) && (e.incoming.None? ==> f.incoming == None)
  {
    if IsTask(a) {
      TaskKeepsStop(e, a);
    }
  }

  /** A stop call that succeeds, whatever both tasks do while it is under way (`during`) and after it (`later`). The
      receiver's record ends `Stopped` if the receiver called, and `Canceled` if the sender did, unless it told of an
      error; the sender's is `Stopped` until its task ends; and the token is cancelled. */
  lemma StopAgrees(service: string, run: seq<System>, i: nat, id: nat, caller: Kind, error: bool,
                   during: seq<Action>, later: seq<Action>)
    requires IsRun(service, run) && i < |run| && id in run[i] && Can(run[i][id], StopReaches(caller, error))
    requires OnlyTasks(during) && OnlyTasks(later)
    requires var e := Do(id, service, run[i][id], StopReaches(caller, error));
      var f := DoAll(id, service, e, during);
      f.Some? && Can(f.value, StopEnds) && DoAll(id, service, Do(id, service, f.value, StopEnds), later).Some?
    ensures var e := Do(id, service, run[i][id], StopReaches(caller, error));
      var f := Do(id, service, DoAll(id, service, e, during).value, StopEnds);
      var g := DoAll(id, service, f, later).value;
      && f.cancelled && g.cancelled
      && (caller == Outgoing ==> InState(f.outgoing, Stopped))
      && (caller == Outgoing && error ==> InState(e.incoming, Failed(RemoteError)))
      && (caller == Outgoing && !error ==> InState(f.incoming, Canceled) && InState(g.incoming, Canceled))
      && (caller == Incoming ==> InState(f.incoming, Stopped) && InState(g.incoming, Stopped))
      && (caller == Incoming && !SenderEnded(during) ==>
            InState(f.outgoing, if error then Failed(RemoteError) else Stopped))
      && (!SenderEnded(later) && !(caller == Incoming && (error || SenderEnded(during))) ==>
            InState(g.outgoing, Stopped))
  {
    AlwaysPairInv(service, run, i);
    var e := Do(id, service, run[i][id], StopReaches(caller, error));
    TasksKeepStop(id, service, e, during);
    var f := Do(id, service, DoAll(id, service, e, during).value, StopEnds);
    TasksKeepStop(id, service, f, later);
  }

  /** A request that goes through leaves both records waiting for permission, with the announced details; one whose
      paths cannot be processed fails the sender's record before the peer hears of it. */
  lemma RequestAgrees(id: nat, service: string, d: Details, available: nat)
    requires SurvivesWire(d)
    ensures var e := NewPair(d, available);
      && e.outgoing == Some(Rec(Outgoing, Details(0, 0, [], None, None), Initializing, 0)) && e.incoming == None
      && Can(e, Deliver) && Can(e, ProcessingFails) && !e.cancelled
      && (var f := Do(id, service, e, Deliver);
          && Can(f, Confirm)
          && var g := Do(id, service, f, Confirm);
          && g.outgoing == Some(Rec(Outgoing, d, WaitingPermission, 0))
          && g.incoming == Some(Rec(Incoming, d, WaitingPermission, 0))
          && g.call == Idle && g.streams == [] && !g.cancelled)
      && (var f := Do(id, service, e, ProcessingFails);
          InState(f.outgoing, Failed(FailedToProcessFiles)) && f.incoming == None && f.call == Idle)
  {
    DeliveredMirrors(id, service, d);
  }

  /** A transfer that is accepted is `InProgress` on both sides, with one more stream, which sends if and only if the
      sender's token was not cancelled. */
  lemma AcceptAgrees(id: nat, service: string, e: Pair)
    requires Can(e, AcceptReaches) && e.outgoing.value.kind == Outgoing
    ensures var f := Do(id, service, e, AcceptReaches);
      && InState(f.outgoing, InProgress) && f.incoming == e.incoming && Can(f, AcceptEnds)
      && var g := Do(id, service, f, AcceptEnds);
      && InState(g.outgoing, InProgress) && InState(g.incoming, InProgress) && g.call == Idle
      && g.streams == e.streams + [Stream(!e.cancelled, true, true, 0, 0, 0)]
  {
  }

  predicate IsEmpty(st: Stream) { st.sent == 0 && st.counted == 0 && st.received == 0 }

  /** Nothing has moved and nothing can: there is nothing to read, or the token is cancelled and no stream started
      before that. */
  predicate Barren(e: Pair) {
    && NoBytes(e) && (forall st :: st in e.streams ==> IsEmpty(st))
    && (e.available == 0 || (e.cancelled && forall st :: st in e.streams ==> !st.live))
  }

  lemma TaskKeepsBarren(e: Pair, a: Action)
    requires Barren(e) && Can(e, a) && IsTask(a)
    ensures Barren(DoTask(e, a))
  {
    var st, f := e.streams[a.k], DoTask(e, a);
    assert st in e.streams;
    assert f.streams == e.streams[a.k := f.streams[a.k]];
    assert IsEmpty(f.streams[a.k]) && f.streams[a.k].live == st.live;
    assert NoBytes(f);
  }

  lemma AcceptKeepsBarren(id: nat, service: string, e: Pair, a: Action)
    requires Barren(e) && Can(e, a) && (a.AcceptReaches? || a.AcceptEnds?)
    ensures Barren(Do(id, service, e, a))
  {
    if a.AcceptEnds? {
      assert e.streams[|e.streams| - 1] in e.streams;
    }
  }

  lemma StepKeepsBarren(id: nat, service: string, e: Pair, a: Action)
    requires Barren(e) && Can(e, a)
    ensures Barren(Do(id, service, e, a))
  {
    if IsTask(a) {
      TaskKeepsBarren(e, a);
    } else if a.AcceptReaches? || a.AcceptEnds? {
      AcceptKeepsBarren(id, service, e, a);
    } else if !a.Deliver? {
      CallKeepsCounts(id, service, e, a);
      CallKeepsStreams(id, service, e, a);
      CallKeepsToken(id, service, e, a);
    }
  }

  /** A call never lifts a cancellation, and does not change what there is to read. */
  lemma CallKeepsToken(id: nat, service: string, e: Pair, a: Action)
    requires Can(e, a) && !IsTask(a)
    ensures var f := Do(id, service, e, a); (e.cancelled ==> f.cancelled) && f.available == e.available
  {
  }

  lemma {:induction false} BarrenForever(id: nat, service: string, e: Pair, actions: seq<Action>)
    requires Barren(e) && DoAll(id, service, e, actions).Some?
    ensures exists f :: DoAll(id, service, e, actions) == Some(f) && Barren(f)
    decreases |actions|
  {
    if actions == [] {
    } else {
      StepKeepsBarren(id, service, e, actions[0]);
      BarrenForever(id, service, Do(id, service, e, actions[0]), actions[1..]);
    }
  }

  /** After a sender's successful cancel nothing ever moves on either side, whatever happens next, accepts included. */
  lemma CanceledMovesNothing(service: string, run: seq<System>, i: nat, id: nat, actions: seq<Action>)
    requires IsRun(service, run) && i < |run| && id in run[i]
    requires run[i][id].call == Canceling(Outgoing)
    requires DoAll(id, service, Do(id, service, run[i][id], CancelEnds), actions).Some?
    ensures NoBytes(DoAll(id, service, Do(id, service, run[i][id], CancelEnds), actions).value)
  {
    CancelAgrees(service, run, i, id);
    BarrenForever(id, service, Do(id, service, run[i][id], CancelEnds), actions);
  }

  lemma NextKeepsBarren(service: string, s: System, t: System, id: nat)
    requires Next(service, s, t) && id in s && Barren(s[id])
    ensures id in t && Barren(t[id])
  {
    if x, a :| x in s && Can(s[x], a) && t == s[x := Do(x, service, s[x], a)] {
      if x == id {
        StepKeepsBarren(id, service, s[id], a);
      }
    }
  }

  /** Nor does anything move once the peer has been shut down before anything was accepted. */
  lemma ShutdownMovesNothing(service: string, run: seq<System>, i: nat, id: nat, actions: seq<Action>)
    requires IsRun(service, run) && i < |run| && id in run[i] && run[i][id].streams == []
    requires DoAll(id, service, Do(id, service, run[i][id], Shutdown), actions).Some?
    ensures NoBytes(DoAll(id, service, Do(id, service, run[i][id], Shutdown), actions).value)
  {
    AlwaysPairInv(service, run, i);
    BarrenForever(id, service, Do(id, service, run[i][id], Shutdown), actions);
  }

  /** The same over runs, for every token cancelled before anything was accepted, by a call that succeeds or fails. */
  lemma {:induction false} CancelledTokenMovesNothing(service: string, run: seq<System>, i: nat, j: nat, id: nat)
    requires IsRun(service, run) && i <= j < |run| && id in run[i]
    requires run[i][id].cancelled && run[i][id].streams == []
    ensures id in run[j] && Barren(run[j][id])
  {
    if j == i {
      AlwaysPairInv(service, run, i);
    } else {
      CancelledTokenMovesNothing(service, run, i, j - 1, id);
      assert Next(service, run[j - 1], run[j - 1 + 1]);
      NextKeepsBarren(service, run[j - 1], run[j], id);
    }
  }

  /** After a denial, which cancels no token, both sides stay as they are until somebody accepts. */
  lemma {:induction false} DeniedStaysUntouched(id: nat, service: string, e: Pair, actions: seq<Action>)
    requires BothAt(e, Denied)
    requires AcceptReaches !in actions && DoAll(id, service, e, actions).Some?
    ensures BothAt(DoAll(id, service, e, actions).value, Denied)
    decreases |actions|
  {
    if actions == [] {
    } else {
      DeniedStaysUntouched(id, service, Do(id, service, e, actions[0]), actions[1..]);
    }
  }

  ghost predicate CanStillMove(id: nat, service: string, e: Pair) {
    exists actions :: DoAll(id, service, e, actions).Some? && !NoBytes(DoAll(id, service, e, actions).value)
  }

  lemma {:induction false} DoAllSnoc(id: nat, service: string, e: Pair, actions: seq<Action>, a: Action)
    requires DoAll(id, service, e, actions).Some? && Can(DoAll(id, service, e, actions).value, a)
    ensures DoAll(id, service, e, actions + [a])
         == Some(Do(id, service, DoAll(id, service, e, actions).value, a))
    decreases |actions|
  {
    if actions == [] {
      assert [] + [a] == [a] && [a][1..] == [];
    } else {
      assert (actions + [a])[1..] == actions[1..] + [a];
      DoAllSnoc(id, service, Do(id, service, e, actions[0]), actions[1..], a);
    }
  }

  ghost predicate Reaches(id: nat, service: string, e: Pair, f: Pair) {
    exists actions :: DoAll(id, service, e, actions) == Some(f)
  }

  lemma ReachesNext(id: nat, service: string, e: Pair, f: Pair, a: Action)
    requires Reaches(id, service, e, f) && Can(f, a)
    ensures Reaches(id, service, e, Do(id, service, f, a))
  {
    var actions :| DoAll(id, service, e, actions) == Some(f);
    DoAllSnoc(id, service, e, actions, a);
  }

  /** A stream has been opened at both ends. */
  predicate Opened(e: Pair, f: Pair) {
    f.streams == [Stream(true, true, true, 0, 0, 0)] && f.incoming.Some? && f.available == e.available
  }

  lemma Accepted(id: nat, service: string, e: Pair, st: TransferState)
    requires BothAt(e, st) && e.outgoing.Some? && e.incoming.Some? && e.outgoing.value.kind == Outgoing && !e.cancelled
    ensures exists f :: Reaches(id, service, e, f) && Opened(e, f)
  {
    assert DoAll(id, service, e, []) == Some(e);
    ReachesNext(id, service, e, e, AcceptReaches);
    var e1 := Do(id, service, e, AcceptReaches);
    ReachesNext(id, service, e, e1, AcceptEnds);
    assert Opened(e, Do(id, service, e1, AcceptEnds));
  }

  /** Accepting a transfer whose token lives makes bytes move, whatever state both records are in. */
  lemma AcceptMoves(id: nat, service: string, e: Pair, st: TransferState)
    requires BothAt(e, st) && e.outgoing.Some? && e.incoming.Some? && e.outgoing.value.kind == Outgoing
    requires !e.cancelled && e.available > 0
    ensures CanStillMove(id, service, e)
  {
    Accepted(id, service, e, st);
    var e2 :| Reaches(id, service, e, e2) && Opened(e, e2);
    ReachesNext(id, service, e, e2, Send(0, 1));
    var e3 := Do(id, service, e2, Send(0, 1));
    ReachesNext(id, service, e, e3, Receive(0, 1));
    assert Do(id, service, e3, Receive(0, 1)).incoming.value.bytes >= 1;
  }

  /** Neither side checks the state when a transfer is accepted, so one that was denied or canceled can still move
      bytes exactly when there are any and the sender's token has not been cancelled. */
  lemma MovesIffTokenLives(id: nat, service: string, e: Pair, st: TransferState)
    requires BothAt(e, st) && e.outgoing.Some? && e.incoming.Some? && e.outgoing.value.kind == Outgoing
    ensures CanStillMove(id, service, e) <==> !e.cancelled && e.available > 0
  {
    if e.cancelled || e.available == 0 {
      forall actions | DoAll(id, service, e, actions).Some?
        ensures NoBytes(DoAll(id, service, e, actions).value)
      {
        BarrenForever(id, service, e, actions);
      }
    } else {
      AcceptMoves(id, service, e, st);
    }
  }

  /** In every run a side that is initializing, waiting or denied has counted nothing; on the sender's side nothing
      was accepted at all. */
  lemma NothingMovesBeforeAcceptance(service: string, run: seq<System>, i: nat, id: nat)
    requires IsRun(service, run) && i < |run| && id in run[i]
    ensures var e := run[i][id];
      && (IsEarly(e.outgoing) ==> e.streams == [] && e.outgoing.value.bytes == 0)
      && (IsEarly(e.incoming) ==> e.incoming.value.bytes == 0 && forall st :: st in e.streams ==> !st.receiving)
  {
    AlwaysPairInv(service, run, i);
    if IsEarly(run[i][id].incoming) {
      NothingReceived(run[i][id].streams);
    }
  }

  lemma {:induction false} NothingReceived(streams: seq<Stream>)
    requires forall st :: st in streams ==> st.received == 0
    ensures Received(streams) == 0
  {
    if streams == [] {
    } else {
      assert streams[|streams| - 1] in streams;
      NothingReceived(streams[..|streams| - 1]);
    }
  }
}
