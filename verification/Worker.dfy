/**
 One `RemoteWorker` whose calls do not overlap: its watch value, its client and the
 manager's record of the remote, over any sequence of calls.
 */
module Worker {
  import opened Common
  import opened RemoteStore

  datatype CertError = WrongGroupCode | Offline | OtherCertError

  datatype ConnectError = CertificateError(cause: CertError) | TlsError | PingError | DuplexFailure

  /** How far a connection attempt gets. */
  datatype Outcome = CertFailed(cause: CertError) | TlsFailed | PingFailed | DuplexFailed | Success

  function OutcomeOf(r: Result<(), ConnectError>): Outcome {
    match r
    case Ok(_) => Success
    case Err(CertificateError(e)) => CertFailed(e)
    case Err(TlsError) => TlsFailed
    case Err(PingError) => PingFailed
    case Err(DuplexFailure) => DuplexFailed
  }

  /** What a worker's calls are answered: the certificate, the channel that is built, pings and the duplex wait. */
  datatype Reply =
    | CertReply(fault: Option<CertError>) | ChannelReply(ok: bool) | PingReply(ok: bool) | DuplexReply(ok: bool)

  /** What a worker does that others see: the states it sets and the calls it makes, with their answers. */
  datatype Entry = Sets(state: RemoteState) | Gets(reply: Reply)

  /** The watch and the manager's record. The state loop holds one receiver of the watch, and every `subscribe_state`
      another one; without a receiver a state that is set does not reach the watch. */
  datatype Watch = Watch(value: RemoteState, record: RemoteState, loop: bool, subscribers: nat)
  {
    predicate Listened() { loop || subscribers > 0 }
  }

  /** What can happen to it. Subscribing, dropping a receiver and the end of the loop may come at any time. */
  datatype Event = SetTo(state: RemoteState) | Subscribes | Drops | LoopEnds

  function Apply(w: Watch, e: Event): Watch {
    match e
    case SetTo(st) => w.(value := if w.Listened() then st else w.value, record := st)
    case Subscribes => w.(subscribers := w.subscribers + 1)
    case Drops => w.(subscribers := if w.subscribers > 0 then w.subscribers - 1 else 0)
    case LoopEnds => w.(loop := false)
  }

  function ApplyAll(w: Watch, es: seq<Event>): Watch {
    if es == [] then w else Apply(ApplyAll(w, es[..|es| - 1]), es[|es| - 1])
  }

  /** What is visible of a worker; `log` is what it has done so far. */
  datatype View = View(watch: Watch, client: bool, log: seq<Entry>)

  function Set(v: View, st: RemoteState): View {
    v.(watch := Apply(v.watch, SetTo(st)), log := v.log + [Sets(st)])
  }

  function Get(v: View, reply: Reply): View {
    v.(log := v.log + [Gets(reply)])
  }

  function CertState(e: CertError): RemoteState {
    match e
    case WrongGroupCode => Error(GroupCodeMismatch)
    case Offline => Disconnected
    case OtherCertError => Error(NoCertificate)
  }

  function AfterConnect(v: View, o: Outcome): View {
    var begun := Set(v, Connecting);
    var certified := Get(begun, CertReply(None));
    match o
    case CertFailed(e) => Set(Get(begun, CertReply(Some(e))), CertState(e))
    case TlsFailed => Set(Get(certified, ChannelReply(false)), Error(SslError))
    case _ => AfterChannel(Get(certified, ChannelReply(true)).(client := true), o)
  }

  /** The rest of an attempt, once the client is there. */
  function AfterChannel(v: View, o: Outcome): View {
    var awaiting := Set(Get(v, PingReply(true)), AwaitingDuplex);
    match o
    case PingFailed => Set(Get(v, PingReply(false)).(client := false), Error(SslError))
    case DuplexFailed => Set(Get(awaiting, DuplexReply(false)).(client := false), Error(DuplexError))
    case _ => Set(Get(awaiting, DuplexReply(true)), Connected)
  }

  /** What one attempt does, call by call and state by state. */
  function ConnectLog(o: Outcome): seq<Entry> {
    match o
    case CertFailed(e) => [Sets(Connecting), Gets(CertReply(Some(e))), Sets(CertState(e))]
    case TlsFailed => [Sets(Connecting), Gets(CertReply(None)), Gets(ChannelReply(false)), Sets(Error(SslError))]
    case PingFailed =>
      [Sets(Connecting), Gets(CertReply(None)), Gets(ChannelReply(true)), Gets(PingReply(false)),
       Sets(Error(SslError))]
    case DuplexFailed =>
      [Sets(Connecting), Gets(CertReply(None)), Gets(ChannelReply(true)), Gets(PingReply(true)), Sets(AwaitingDuplex),
       Gets(DuplexReply(false)), Sets(Error(DuplexError))]
    case Success =>
      [Sets(Connecting), Gets(CertReply(None)), Gets(ChannelReply(true)), Gets(PingReply(true)), Sets(AwaitingDuplex),
       Gets(DuplexReply(true)), Sets(Connected)]
  }

  function AfterDisconnect(v: View): View {
    Set(v.(client := false), Disconnected)
  }

  function AfterLoopPing(v: View, ok: bool): View {
    var pinged := Get(v, PingReply(ok));
    if ok then pinged else Set(pinged, Disconnected).(client := false)
  }

  /** The worker while its manager is alive. */
  class RemoteWorker {
    var value: RemoteState
    var record: RemoteState
    var client: bool
    var loop: bool
    var subscribers: nat
    ghost var log: seq<Entry>

    constructor ()
      ensures Value() == NEW
    {
      value, record := Disconnected, Disconnected;
      client, loop, subscribers := false, true, 0;
      log := [];
    }

    ghost function Value(): View
      reads this
    {
      View(Watch(value, record, loop, subscribers), client, log)
    }

    /** Sends on the watch, which fails silently without receivers, and updates the manager's record. */
    method SetState(st: RemoteState)
      modifies this
      ensures Value() == Set(old(Value()), st)
    {
      if loop || subscribers > 0 {
        value := st;
      }
      record := st;
      log := log + [Sets(st)];
    }

    /** A new receiver of the watch, for the application. */
    method SubscribeState() returns (current: RemoteState)
      modifies this`subscribers
      ensures Value() == old(Value()).(watch := Apply(old(Value()).watch, Subscribes)) && current == value
    {
      subscribers := subscribers + 1;
      current := value;
    }

    method DropReceiver()
      requires subscribers > 0
      modifies this`subscribers
      ensures Value() == old(Value()).(watch := Apply(old(Value()).watch, Drops))
    {
      subscribers := subscribers - 1;
    }

    method ClearChannel()
      modifies this`client
      ensures Value() == old(Value()).(client := false)
    {
      client := false;
    }

    method ReceiveCertificate() returns (fault: Option<CertError>)
      modifies this`log
      ensures Value() == Get(old(Value()), CertReply(fault))
    {
      var fails: bool, cause: CertError := *, *;
      fault := if fails then Some(cause) else None;
      log := log + [Gets(CertReply(fault))];
    }

    method BuildChannel() returns (ok: bool)
      modifies this`log
      ensures Value() == Get(old(Value()), ChannelReply(ok))
    {
      ok := *;
      log := log + [Gets(ChannelReply(ok))];
    }

    /** A ping of the peer, which needs a client and may fail anyway. */
    method Ping() returns (ok: bool)
      modifies this`log
      ensures Value() == Get(old(Value()), PingReply(ok)) && (ok ==> client)
    {
      ok := *;
      ok := ok && client;
      log := log + [Gets(PingReply(ok))];
    }

    /** The duplex call, which needs a client; `ok` is a reply that says yes. */
    method WaitForDuplex() returns (ok: bool)
      modifies this`log
      ensures Value() == Get(old(Value()), DuplexReply(ok)) && (ok ==> client)
    {
      ok := *;
      ok := ok && client;
      log := log + [Gets(DuplexReply(ok))];
    }

    /** The states, the client and the result follow from what the calls answer: each is made only if those before it
        went well, and AwaitingDuplex is set between the ping and the duplex call. */
    method Connect() returns (r: Result<(), ConnectError>)
      modifies this
      ensures Value() == AfterConnect(old(Value()), OutcomeOf(r))
      ensures r.Ok? ==>
        && log == old(log) + [Sets(Connecting), Gets(CertReply(None)), Gets(ChannelReply(true)), Gets(PingReply(true)),
                              Sets(AwaitingDuplex), Gets(DuplexReply(true)), Sets(Connected)]
        && record == Connected && client
      ensures r == Err(DuplexFailure) ==>
        && log == old(log) + [Sets(Connecting), Gets(CertReply(None)), Gets(ChannelReply(true)), Gets(PingReply(true)),
                              Sets(AwaitingDuplex), Gets(DuplexReply(false)), Sets(Error(DuplexError))]
        && record == Error(DuplexError) && !client
      ensures r == Err(PingError) ==>
        && log == old(log) + [Sets(Connecting), Gets(CertReply(None)), Gets(ChannelReply(true)), Gets(PingReply(false)),
                              Sets(Error(SslError))]
        && record == Error(SslError) && !client
      ensures r == Err(TlsError) ==>
        && log == old(log) + [Sets(Connecting), Gets(CertReply(None)), Gets(ChannelReply(false)), Sets(Error(SslError))]
        && record == Error(SslError) && client == old(client)
      ensures r.Err? && r.error.CertificateError? ==>
        && var e := r.error.cause;
        && log == old(log) + [Sets(Connecting), Gets(CertReply(Some(e))), Sets(record)]
        && record == (if e == WrongGroupCode then Error(GroupCodeMismatch)
                      else if e == Offline then Disconnected else Error(NoCertificate))
        && client == old(client)
    {
      ghost var before := Value();
      SetState(Connecting);
      var fault := ReceiveCertificate();
      if fault.Some? {
        var st := match fault.value
          case WrongGroupCode => Error(GroupCodeMismatch)
          case Offline => Disconnected
          case OtherCertError => Error(NoCertificate);
        SetState(st);
        AttemptLogged(before, CertFailed(fault.value));
        return Err(CertificateError(fault.value));
      }
      var built := BuildChannel();
      if !built {
        SetState(Error(SslError));
        AttemptLogged(before, TlsFailed);
        return Err(TlsError);
      }
      client := true;
      r := UseChannel();
      AttemptLogged(before, OutcomeOf(r));
    }

    /** The rest of an attempt: the ping and the duplex call. */
    method UseChannel() returns (r: Result<(), ConnectError>)
      requires client
      modifies this
      ensures r.Ok? || r.error == PingError || r.error == DuplexFailure
      ensures Value() == AfterChannel(old(Value()), OutcomeOf(r)) && client == r.Ok?
    {
      var pinged := Ping();
      if !pinged {
        ClearChannel();
        SetState(Error(SslError));
        return Err(PingError);
      }
      SetState(AwaitingDuplex);
      var duplex := WaitForDuplex();
      if !duplex {
        ClearChannel();
        SetState(Error(DuplexError));
        return Err(DuplexFailure);
      }
      SetState(Connected);
      return Ok(());
    }

    method Disconnect()
      modifies this
      ensures Value() == AfterDisconnect(old(Value()))
    {
      ClearChannel();
      SetState(Disconnected);
    }

    /** The state loop's ping: on failure the state is set before the client is cleared. */
    method LoopPing()
      modifies this
      ensures |log| > |old(log)| && log[|old(log)|].Gets? && log[|old(log)|].reply.PingReply?
      ensures var ok := log[|old(log)|].reply.ok;
        && Value() == AfterLoopPing(old(Value()), ok)
        && log == old(log) + [Gets(PingReply(ok))] + (if ok then [] else [Sets(Disconnected)])
        && record == (if ok then old(record) else Disconnected)
        && client == (ok && old(client))
    {
      var pinged := Ping();
      if !pinged {
        SetState(Disconnected);
        ClearChannel();
      }
    }

    /** The state loop ends, and with it its receiver of the watch. */
    method EndLoop()
      modifies this`loop
      ensures Value() == old(Value()).(watch := Apply(old(Value()).watch, LoopEnds))
    {
      loop := false;
    }
  }

  // ----- every sequence of calls -----

  datatype Call = Connects(outcome: Outcome) | Disconnects | Pings(ok: bool) | Elsewhere(event: Event)

  function After(v: View, c: Call): View {
    match c
    case Connects(o) => AfterConnect(v, o)
    case Disconnects => AfterDisconnect(v)
    case Pings(ok) => AfterLoopPing(v, ok)
    case Elsewhere(e) => if e.SetTo? then v else v.(watch := Apply(v.watch, e))
  }

  function AfterAll(v: View, calls: seq<Call>): View {
    if calls == [] then v else After(AfterAll(v, calls[..|calls| - 1]), calls[|calls| - 1])
  }

  const NEW_WATCH := Watch(Disconnected, Disconnected, true, 0)
  const NEW := View(NEW_WATCH, false, [])

  /** What comes right before AwaitingDuplex is set. */
  const BEFORE_AWAITING: seq<Entry> :=
    [Sets(Connecting), Gets(CertReply(None)), Gets(ChannelReply(true)), Gets(PingReply(true))]

  /** AwaitingDuplex is only ever set right after a ping that succeeded, and Connected right after a duplex call that
      did, in an attempt whose calls have all succeeded. */
  ghost predicate ConnectedInOrder(log: seq<Entry>) {
    && (forall i :: 0 <= i < |log| && log[i] == Sets(AwaitingDuplex) ==> i >= 4 && log[i - 4..i] == BEFORE_AWAITING)
    && (forall i :: 0 <= i < |log| && log[i] == Sets(Connected) ==>
          i >= 6 && log[i - 6..i] == BEFORE_AWAITING + [Sets(AwaitingDuplex), Gets(DuplexReply(true))])
  }

  lemma OrderAppend(log: seq<Entry>, more: seq<Entry>)
    requires ConnectedInOrder(log) && ConnectedInOrder(more)
    ensures ConnectedInOrder(log + more)
  {
    var all := log + more;
    forall i | 0 <= i < |all| && all[i] == Sets(AwaitingDuplex)
      ensures i >= 4 && all[i - 4..i] == BEFORE_AWAITING
    {
      if i < |log| {
        assert all[i - 4..i] == log[i - 4..i];
      } else {
        assert all[i - 4..i] == more[i - |log| - 4..i - |log|];
      }
    }
    forall i | 0 <= i < |all| && all[i] == Sets(Connected)
      ensures i >= 6 && all[i - 6..i] == BEFORE_AWAITING + [Sets(AwaitingDuplex), Gets(DuplexReply(true))]
    {
      if i < |log| {
        assert all[i - 6..i] == log[i - 6..i];
      } else {
        assert all[i - 6..i] == more[i - |log| - 6..i - |log|];
      }
    }
  }

  lemma AttemptLogged(v: View, o: Outcome)
    ensures AfterConnect(v, o).log == v.log + ConnectLog(o)
  {
    var log := v.log + [Sets(Connecting)] + [Gets(CertReply(None))] + [Gets(ChannelReply(true))];
    assert log == v.log + [Sets(Connecting), Gets(CertReply(None)), Gets(ChannelReply(true))];
    if o == DuplexFailed || o == Success {
      ChannelLogged(View(v.watch, true, log), o);
    }
  }

  lemma ChannelLogged(v: View, o: Outcome)
    requires o == DuplexFailed || o == Success
    ensures AfterChannel(v, o).log
         == v.log + [Gets(PingReply(true)), Sets(AwaitingDuplex), Gets(DuplexReply(o == Success)),
                     Sets(if o == Success then Connected else Error(DuplexError))]
  {
  }

  lemma AttemptInOrder(o: Outcome)
    ensures ConnectedInOrder(ConnectLog(o))
  {
    var log := ConnectLog(o);
    if o == Success || o == DuplexFailed {
      assert log[0..4] == BEFORE_AWAITING;
      assert log[0..6] == BEFORE_AWAITING + [Sets(AwaitingDuplex), log[5]];
    }
  }

  lemma ConnectKeepsOrder(v: View, o: Outcome)
    requires ConnectedInOrder(v.log)
    ensures ConnectedInOrder(AfterConnect(v, o).log)
  {
    AttemptInOrder(o);
    OrderAppend(v.log, ConnectLog(o));
    AttemptLogged(v, o);
  }

  function LastState(log: seq<Entry>): RemoteState {
    if log == [] then Disconnected
    else
      match log[|log| - 1]
      case Sets(st) => st
      case Gets(_) => LastState(log[..|log| - 1])
  }

  /** The record is the last state set, and the watch shows it while the loop lives. */
  ghost predicate Agrees(v: View) {
    v.watch.record == LastState(v.log) && (v.watch.loop ==> v.watch.value == v.watch.record)
  }

  predicate ClientMatches(v: View) {
    (v.watch.record == Connected ==> v.client) && (v.watch.record == Error(DuplexError) ==> !v.client)
  }

  /** What every call keeps. */
  ghost predicate Inv(v: View) {
    ClientMatches(v) && ConnectedInOrder(v.log) && Agrees(v)
  }

  lemma SetAgrees(v: View, st: RemoteState)
    ensures Agrees(Set(v, st))
  {
  }

  lemma CallAgrees(v: View, c: Call)
    requires Agrees(v)
    ensures Agrees(After(v, c))
  {
    match c
    case Connects(o) => ConnectAgrees(v, o);
    case Disconnects => SetAgrees(v.(client := false), Disconnected);
    case Pings(ok) =>
      var pinged := Get(v, PingReply(ok));
      assert pinged.log[..|pinged.log| - 1] == v.log;
      SetAgrees(pinged, Disconnected);
    case Elsewhere(_) =>
  }

  /** Every attempt ends by setting a state. */
  lemma ConnectAgrees(v: View, o: Outcome)
    ensures Agrees(AfterConnect(v, o))
  {
  }

  lemma CallKeepsClientMatches(v: View, c: Call)
    requires ClientMatches(v)
    ensures ClientMatches(After(v, c))
  {
  }

  lemma CallKeepsOrder(v: View, c: Call)
    requires ConnectedInOrder(v.log)
    ensures ConnectedInOrder(After(v, c).log)
  {
    match c
    case Connects(o) => ConnectKeepsOrder(v, o);
    case Disconnects => OrderAppend(v.log, [Sets(Disconnected)]);
    case Pings(ok) =>
      OrderAppend(v.log, [Gets(PingReply(ok))]);
      OrderAppend(v.log + [Gets(PingReply(ok))], [Sets(Disconnected)]);
    case Elsewhere(_) =>
  }

  lemma CallKeepsInv(v: View, c: Call)
    requires Inv(v)
    ensures Inv(After(v, c))
  {
    CallAgrees(v, c);
    CallKeepsClientMatches(v, c);
    CallKeepsOrder(v, c);
  }

  lemma AfterSnoc(v: View, calls: seq<Call>, c: Call)
    ensures AfterAll(v, calls + [c]) == After(AfterAll(v, calls), c)
  {
    assert (calls + [c])[..|calls|] == calls;
  }

  /** After any calls the watch agrees with the record as long as the loop lives, Connected implies a client, and
      Connected was reached in order within one attempt. */
  lemma {:induction false} Lifecycle(calls: seq<Call>)
    ensures Inv(AfterAll(NEW, calls))
  {
    if calls == [] {
    } else {
      var n := |calls| - 1;
      Lifecycle(calls[..n]);
      CallKeepsInv(AfterAll(NEW, calls[..n]), calls[n]);
    }
  }

  /** A call after which no client is left. */
  predicate Clears(c: Call) {
    match c
    case Connects(o) => o == PingFailed || o == DuplexFailed
    case Disconnects => true
    case Pings(ok) => !ok
    case Elsewhere(_) => false
  }

  /** Call number `i` succeeded in connecting, and no later one cleared the client. */
  ghost predicate KeepsClient(calls: seq<Call>, i: int) {
    && 0 <= i < |calls| && calls[i] == Connects(Success)
    && forall j :: i < j < |calls| ==> !Clears(calls[j])
  }

  lemma KeepsClientSnoc(calls: seq<Call>, c: Call)
    ensures (exists i :: KeepsClient(calls + [c], i)) <==>
      c == Connects(Success) || (!Clears(c) && exists i :: KeepsClient(calls, i))
  {
    var all := calls + [c];
    if c == Connects(Success) {
      assert KeepsClient(all, |calls|);
    }
    if i :| KeepsClient(calls, i) && !Clears(c) {
      assert KeepsClient(all, i);
    }
    if i :| KeepsClient(all, i) && i < |calls| {
      assert all[|calls|] == c;
      assert forall j :: i < j < |calls| ==> calls[j] == all[j];
      assert KeepsClient(calls, i);
    }
  }

  /** Exactly when a client is present: some attempt succeeded, and nothing has cleared the client since. An attempt
      that fails before it has built a channel clears nothing. */
  lemma {:induction false} ClientIff(calls: seq<Call>)
    ensures AfterAll(NEW, calls).client <==> exists i :: KeepsClient(calls, i)
  {
    if calls == [] {
    } else {
      var n := |calls| - 1;
      assert calls == calls[..n] + [calls[n]];
      ClientIff(calls[..n]);
      KeepsClientSnoc(calls[..n], calls[n]);
    }
  }

  /** So an attempt that fails on the certificate leaves an older client in place, even as Disconnected. */
  lemma ClientOutlivesFailure()
    ensures exists calls :: AfterAll(NEW, calls).watch.record == Disconnected && AfterAll(NEW, calls).client
  {
    AfterSnoc(NEW, [], Connects(Success));
    AfterSnoc(NEW, [] + [Connects(Success)], Connects(CertFailed(Offline)));
    var v := AfterAll(NEW, [] + [Connects(Success)] + [Connects(CertFailed(Offline))]);
    assert v.watch.record == Disconnected && v.client;
  }

  // ----- the watch, over every interleaving of what is set with who listens -----

  /** The receivers that applications hold after these events. */
  function Subscribers(es: seq<Event>): nat {
    if es == [] then 0
    else
      var n := Subscribers(es[..|es| - 1]);
      match es[|es| - 1]
      case Subscribes => n + 1
      case Drops => if n > 0 then n - 1 else 0
      case _ => n
  }

  /** Somebody listens after these events: the loop, or a subscriber. */
  predicate Listens(es: seq<Event>) {
    LoopEnds !in es || Subscribers(es) > 0
  }

  predicate IsSet(es: seq<Event>, k: int) {
    0 <= k < |es| && es[k].SetTo?
  }

  /** State number `k` was set while somebody listened. */
  predicate IsHeard(es: seq<Event>, k: int) {
    IsSet(es, k) && Listens(es[..k])
  }

  ghost predicate LastSet(es: seq<Event>, k: int) {
    IsSet(es, k) && forall j :: k < j < |es| ==> !IsSet(es, j)
  }

  ghost predicate LastHeard(es: seq<Event>, k: int) {
    IsHeard(es, k) && forall j :: k < j < |es| ==> !IsHeard(es, j)
  }

  /** `st` is the last state set, or the initial one. */
  ghost predicate WasSet(es: seq<Event>, st: RemoteState) {
    || (exists k :: LastSet(es, k) && es[k].state == st)
    || (st == Disconnected && forall k :: !IsSet(es, k))
  }

  /** `st` is the last state set while somebody listened, or the initial one. */
  ghost predicate WasHeard(es: seq<Event>, st: RemoteState) {
    || (exists k :: LastHeard(es, k) && es[k].state == st)
    || (st == Disconnected && forall k :: !IsHeard(es, k))
  }

  lemma ListensSnoc(es: seq<Event>, e: Event)
    ensures Subscribers(es + [e]) == match e {
      case Subscribes => Subscribers(es) + 1
      case Drops => if Subscribers(es) > 0 then Subscribers(es) - 1 else 0
      case _ => Subscribers(es) }
    ensures LoopEnds in es + [e] <==> LoopEnds in es || e == LoopEnds
  {
    assert (es + [e])[..|es|] == es;
  }

  lemma {:induction false} ReceiversAre(es: seq<Event>)
    ensures ApplyAll(NEW_WATCH, es).subscribers == Subscribers(es)
    ensures ApplyAll(NEW_WATCH, es).loop <==> LoopEnds !in es
  {
    if es == [] {
    } else {
      var n := |es| - 1;
      assert es == es[..n] + [es[n]];
      ReceiversAre(es[..n]);
      ListensSnoc(es[..n], es[n]);
    }
  }

  lemma SameBefore(es: seq<Event>, e: Event, k: int)
    requires k < |es|
    ensures IsSet(es + [e], k) <==> IsSet(es, k)
    ensures IsHeard(es + [e], k) <==> IsHeard(es, k)
  {
    if 0 <= k { assert (es + [e])[..k] == es[..k]; }
  }

  lemma LastAtEnd(es: seq<Event>, e: Event)
    requires e.SetTo?
    ensures LastSet(es + [e], |es|) && (Listens(es) ==> LastHeard(es + [e], |es|))
  {
    assert (es + [e])[..|es|] == es;
  }

  /** An event that sets nothing, or a state that nobody hears, leaves what was set, or heard, last. */
  lemma NotAtEnd(es: seq<Event>, e: Event, st: RemoteState)
    ensures !e.SetTo? && WasSet(es, st) ==> WasSet(es + [e], st)
    ensures !(e.SetTo? && Listens(es)) && WasHeard(es, st) ==> WasHeard(es + [e], st)
  {
    var all := es + [e];
    assert all[..|es|] == es;
    forall k | 0 <= k < |es|
      ensures IsSet(all, k) <==> IsSet(es, k)
      ensures IsHeard(all, k) <==> IsHeard(es, k)
    {
      SameBefore(es, e, k);
    }
    if !e.SetTo? && WasSet(es, st) {
      if k :| LastSet(es, k) && es[k].state == st {
        assert LastSet(all, k) && all[k].state == st;
      }
    }
    if !(e.SetTo? && Listens(es)) && WasHeard(es, st) {
      if k :| LastHeard(es, k) && es[k].state == st {
        assert LastHeard(all, k) && all[k].state == st;
      }
    }
  }

  /** After any events the record is the last state set, and the watch shows the last one set while somebody
      listened. */
  lemma {:induction false} WatchIsLastHeard(es: seq<Event>)
    ensures WasSet(es, ApplyAll(NEW_WATCH, es).record)
    ensures WasHeard(es, ApplyAll(NEW_WATCH, es).value)
  {
    if es == [] {
    } else {
      var n := |es| - 1;
      var front, e := es[..n], es[n];
      assert es == front + [e];
      var w := ApplyAll(NEW_WATCH, front);
      WatchIsLastHeard(front);
      ReceiversAre(front);
      NotAtEnd(front, e, w.record);
      NotAtEnd(front, e, w.value);
      if e.SetTo? {
        LastAtEnd(front, e);
        assert es[n].state == e.state;
      }
    }
  }

  lemma LastIsOne(es: seq<Event>, st: RemoteState, other: RemoteState)
    ensures WasSet(es, st) && WasSet(es, other) ==> st == other
    ensures WasHeard(es, st) && WasHeard(es, other) ==> st == other
  {
    forall j, k | LastSet(es, j) && LastSet(es, k)
      ensures j == k
    {
      assert !(j < k) && !(k < j);
    }
    forall j, k | LastHeard(es, j) && LastHeard(es, k)
      ensures j == k
    {
      assert !(j < k) && !(k < j);
    }
  }

  /** Exactly when the watch tells the truth: the last state set is also the last one set while somebody listened. */
  lemma WatchAgreesIff(es: seq<Event>, st: RemoteState)
    requires WasSet(es, st)
    ensures var w := ApplyAll(NEW_WATCH, es);
      w.value == w.record <==> WasHeard(es, st)
  {
    var w := ApplyAll(NEW_WATCH, es);
    WatchIsLastHeard(es);
    LastIsOne(es, st, w.record);
    LastIsOne(es, st, w.value);
  }

  /** So it does whenever somebody has listened to the last state set, and always while the loop lives. */
  lemma HeardWatchAgrees(es: seq<Event>, k: nat)
    requires LastSet(es, k) && IsHeard(es, k)
    ensures ApplyAll(NEW_WATCH, es).value == ApplyAll(NEW_WATCH, es).record == es[k].state
  {
    var w := ApplyAll(NEW_WATCH, es);
    assert LastHeard(es, k);
    WatchIsLastHeard(es);
    LastIsOne(es, w.record, es[k].state);
    LastIsOne(es, w.value, es[k].state);
  }

  /** The states a call sets are events of the watch, so any calls, with anything in between, are covered. */
  function Events(c: Call): seq<Event> {
    match c
    case Connects(o) =>
      [SetTo(Connecting)] + (match o
                             case CertFailed(e) => [SetTo(CertState(e))]
                             case TlsFailed => [SetTo(Error(SslError))]
                             case PingFailed => [SetTo(Error(SslError))]
                             case DuplexFailed => [SetTo(AwaitingDuplex), SetTo(Error(DuplexError))]
                             case Success => [SetTo(AwaitingDuplex), SetTo(Connected)])
    case Disconnects => [SetTo(Disconnected)]
    case Pings(ok) => if ok then [] else [SetTo(Disconnected)]
    case Elsewhere(e) => if e.SetTo? then [] else [e]
  }

  function AllEvents(calls: seq<Call>): seq<Event> {
    if calls == [] then [] else AllEvents(calls[..|calls| - 1]) + Events(calls[|calls| - 1])
  }

  lemma {:induction false} ApplyAllAppend(w: Watch, a: seq<Event>, b: seq<Event>)
    ensures ApplyAll(w, a + b) == ApplyAll(ApplyAll(w, a), b)
  {
    if b == [] {
      assert a + b == a;
    } else {
      ApplyAllAppend(w, a, b[..|b| - 1]);
      assert (a + b)[..|a + b| - 1] == a + b[..|b| - 1];
    }
  }

  lemma ApplyOne(w: Watch, e: Event)
    ensures ApplyAll(w, [e]) == Apply(w, e)
  {
    assert [e][..0] == [];
  }

  lemma ApplyThree(w: Watch, a: Event, b: Event, c: Event)
    ensures ApplyAll(w, [a] + [b]) == Apply(Apply(w, a), b)
    ensures ApplyAll(w, [a] + [b, c]) == Apply(Apply(Apply(w, a), b), c)
  {
    ApplyOne(w, a);
    ApplyOne(Apply(w, a), b);
    ApplyAllAppend(w, [a], [b]);
    ApplyOne(Apply(Apply(w, a), b), c);
    ApplyAllAppend(w, [a] + [b], [c]);
    assert [a] + [b] + [c] == [a] + [b, c];
  }

  lemma CallIsEvents(v: View, c: Call)
    ensures After(v, c).watch == ApplyAll(v.watch, Events(c))
  {
    match c
    case Connects(o) =>
      match o {
        case CertFailed(e) => ApplyThree(v.watch, SetTo(Connecting), SetTo(CertState(e)), Drops);
        case TlsFailed => ApplyThree(v.watch, SetTo(Connecting), SetTo(Error(SslError)), Drops);
        case PingFailed => ApplyThree(v.watch, SetTo(Connecting), SetTo(Error(SslError)), Drops);
        case DuplexFailed =>
          ApplyThree(v.watch, SetTo(Connecting), SetTo(AwaitingDuplex), SetTo(Error(DuplexError)));
        case Success => ApplyThree(v.watch, SetTo(Connecting), SetTo(AwaitingDuplex), SetTo(Connected));
      }
    case Disconnects => ApplyOne(v.watch, SetTo(Disconnected));
    case Pings(ok) => ApplyOne(v.watch, SetTo(Disconnected));
    case Elsewhere(e) => ApplyOne(v.watch, e);
  }

  lemma {:induction false} CallsAreEvents(calls: seq<Call>)
    ensures AfterAll(NEW, calls).watch == ApplyAll(NEW_WATCH, AllEvents(calls))
  {
    if calls == [] {
    } else {
      var n := |calls| - 1;
      CallsAreEvents(calls[..n]);
      CallIsEvents(AfterAll(NEW, calls[..n]), calls[n]);
      ApplyAllAppend(NEW_WATCH, AllEvents(calls[..n]), Events(calls[n]));
    }
  }

  ghost predicate IsStale(v: View) {
    v.watch.record == Connected && v.watch.value == Error(GroupCodeMismatch)
  }

  /** A mismatch, the end of the loop, and a success, from any state. */
  lemma MismatchThenSuccess(v: View)
    requires v.watch.loop
    ensures var after :=
        After(After(After(v, Connects(CertFailed(WrongGroupCode))), Elsewhere(LoopEnds)), Connects(Success));
      IsStale(after) <==> v.watch.subscribers == 0
  {
    var mismatch := After(v, Connects(CertFailed(WrongGroupCode)));
    assert mismatch.watch == v.watch.(value := Error(GroupCodeMismatch), record := Error(GroupCodeMismatch));
    var ended := After(mismatch, Elsewhere(LoopEnds));
    assert ended.watch == mismatch.watch.(loop := false);
  }

  /** The state loop gives up on a group-code mismatch; without another receiver a later successful connect then leaves
      the watch stale, and with one it does not. */
  lemma StaleWatch(subscribed: bool)
    ensures var c, d := Connects(CertFailed(WrongGroupCode)), Connects(Success);
      var calls := (if subscribed then [Elsewhere(Subscribes)] else []) + [c] + [Elsewhere(LoopEnds)] + [d];
      IsStale(AfterAll(NEW, calls)) <==> !subscribed
  {
    var c, d := Connects(CertFailed(WrongGroupCode)), Connects(Success);
    var first := if subscribed then [Elsewhere(Subscribes)] else [];
    if subscribed {
      AfterSnoc(NEW, [], Elsewhere(Subscribes));
      assert [] + [Elsewhere(Subscribes)] == first;
    }
    AfterSnoc(NEW, first, c);
    AfterSnoc(NEW, first + [c], Elsewhere(LoopEnds));
    AfterSnoc(NEW, first + [c] + [Elsewhere(LoopEnds)], d);
    MismatchThenSuccess(AfterAll(NEW, first));
  }
}
