/**
 Two peers that connect to each other: any number of concurrent `connect` calls on
 each side, each going through the handshake step by step, and the other side's
 `waiting_for_duplex` handlers, interleaved in any order, with any failures.
 */
module Duplex {
  import opened Common
  import opened RemoteStore

  datatype Peer = A | B

  function Other(p: Peer): Peer { if p == A then B else A }

  /**
   Where one `connect` call is. From `Subscribed` to `Deaf` its duplex call is under way: it holds the read
   guard of its client, and the handler it called on the other side is part of this state. `unread` are the
   events the handler has not taken; true marks one about the caller.
   */
  datatype Thread =
    | Start                             // called, nothing done
    | Certify                           // Connecting is set
    | Build                             // the certificate is stored
    | StoreClient                       // the channel is built; waiting to write the client
    | Ping                              // the client is stored
    | Announce                          // the ping succeeded
    | Call                              // AwaitingDuplex is set
    | Subscribed(unread: seq<bool>)     // handler: subscribed, state not read yet
    | Parked(unread: seq<bool>)         // handler: waiting for an event
    | Checking(unread: seq<bool>)       // handler: took an event about the caller, about to read the state
    | Deaf                              // handler: lagged, only the deadline is left
    | Granted                           // the reply was true
    | Fetch                             // Connected is set
    | Failing(next: RemoteState)        // about to set a failure state
    | Done

  /** One peer: its record of the other (None while unknown), its connect calls, and whether a ping ever succeeded. */
  datatype Side = Side(record: Option<RemoteState>, threads: seq<Thread>, pinged: bool)

  datatype State = State(a: Side, b: Side)
  {
    function At(p: Peer): Side { if p == A then a else b }

    function With(p: Peer, side: Side): State {
      if p == A then this.(a := side) else this.(b := side)
    }
  }

  predicate IsReady(record: Option<RemoteState>) {
    record == Some(AwaitingDuplex) || record == Some(Connected)
  }

  predicate IsDown(record: Option<RemoteState>) {
    record == Some(Disconnected) || (record.Some? && record.value.Error?)
  }

  /** The duplex call is under way and holds the read guard of the caller's client. */
  predicate InCall(t: Thread) {
    t.Subscribed? || t.Parked? || t.Checking? || t.Deaf?
  }

  predicate HasUnread(t: Thread) {
    t.Subscribed? || t.Parked? || t.Checking?
  }

  function Hear(t: Thread, about: bool): Thread {
    match t
    case Subscribed(u) => Subscribed(u + [about])
    case Parked(u) => Parked(u + [about])
    case Checking(u) => Checking(u + [about])
    case _ => t
  }

  datatype Action =
    // the steps of a connect call that goes well
    | Begin(p: Peer, i: nat)
    | Certified(p: Peer, i: nat)
    | Built(p: Peer, i: nat)
    | Stored(p: Peer, i: nat)
    | PingOk(p: Peer, i: nat)
    | Await(p: Peer, i: nat)
    | CallPeer(p: Peer, i: nat)
    | Finish(p: Peer, i: nat)
    | Fetched(p: Peer, i: nat)
    // the steps of its handler on the other side
    | Read(p: Peer, i: nat)
    | Receive(p: Peer, i: nat)
    | Check(p: Peer, i: nat)
    // everything else that can happen
    | NewConnect(p: Peer)
    | CertFails(p: Peer, i: nat, next: RemoteState)
    | BuildFails(p: Peer, i: nat)
    | PingFails(p: Peer, i: nat)
    | CallFails(p: Peer, i: nat)
    | Lag(p: Peer, i: nat)
    | Deadline(p: Peer, i: nat)
    | GiveUp(p: Peer, i: nat)
    | GoDown(p: Peer)
    | Learn(p: Peer)
    | Noise(p: Peer)

  predicate FaultFree(a: Action) {
    a.Begin? || a.Certified? || a.Built? || a.Stored? || a.PingOk? || a.Await? || a.CallPeer? || a.Finish?
    || a.Fetched? || a.Read? || a.Receive? || a.Check?
  }

  predicate NoGuard(ts: seq<Thread>) {
    forall j :: 0 <= j < |ts| ==> !InCall(ts[j])
  }

  /** The thread of an action, or `Done` where the action has none. */
  function ThreadOf(s: State, a: Action): Thread {
    if a.NewConnect? || a.GoDown? || a.Learn? || a.Noise? then Done
    else if a.i < |s.At(a.p).threads| then s.At(a.p).threads[a.i] else Done
  }

  /** An action is possible in a state. Writing the client waits for every read guard on it. */
  predicate Can(s: State, a: Action) {
    var t := ThreadOf(s, a);
    match a
    case Begin(_, _) => t.Start?
    case Certified(_, _) => t.Certify?
    case Built(_, _) => t.Build?
    case Stored(p, _) => t.StoreClient? && NoGuard(s.At(p).threads)
    case PingOk(_, _) => t.Ping?
    case Await(_, _) => t.Announce?
    case CallPeer(_, _) => t.Call?
    case Finish(_, _) => t.Granted?
    case Fetched(_, _) => t.Fetch?
    case Read(_, _) => t.Subscribed?
    case Receive(_, _) => t.Parked? && t.unread != []
    case Check(_, _) => t.Checking?
    case NewConnect(_) => true
    case CertFails(_, _, next) =>
      t.Certify? && (next == Disconnected || next == Error(GroupCodeMismatch) || next == Error(NoCertificate))
    case BuildFails(_, _) => t.Build?
    case PingFails(_, _) => t.Ping?
    case CallFails(_, _) => t.Call? || InCall(t)
    case Lag(_, _) => t.Parked? && |t.unread| > CAPACITY
    case Deadline(_, _) => t.Parked? || t.Deaf?
    case GiveUp(_, _) => t.Failing?
    case GoDown(_) => true
    case Learn(p) => s.At(p).record.None?
    case Noise(_) => true
  }

  /** Where an action leaves its own thread. */
  function NextThread(s: State, a: Action): Thread
    requires Can(s, a)
  {
    var t := ThreadOf(s, a);
    match a
    case Begin(_, _) => Certify
    case Certified(_, _) => Build
    case Built(_, _) => StoreClient
    case Stored(_, _) => Ping
    case PingOk(_, _) => Announce
    case Await(_, _) => Call
    case CallPeer(_, _) => Subscribed([])
    case Finish(_, _) => Fetch
    case Fetched(_, _) => Done
    case Read(p, _) => if IsReady(s.At(Other(p)).record) then Granted else Parked(t.unread)
    case Receive(_, _) => if t.unread[0] then Checking(t.unread[1..]) else Parked(t.unread[1..])
    case Check(p, _) => if IsReady(s.At(Other(p)).record) then Granted else Parked(t.unread)
    case CertFails(_, _, next) => Failing(next)
    case BuildFails(_, _) => Failing(Error(SslError))
    case PingFails(_, _) => Failing(Error(SslError))
    case CallFails(_, _) => Failing(Error(DuplexError))
    case Lag(_, _) => Deaf
    case Deadline(_, _) => Failing(Error(DuplexError))
    case GiveUp(_, _) => Done
    case NewConnect(_) => t
    case GoDown(_) => t
    case Learn(_) => t
    case Noise(_) => t
  }

  predicate HasThread(a: Action) {
    !(a.NewConnect? || a.GoDown? || a.Learn? || a.Noise?)
  }

  /** The argument of the action's `set_state`, if it has one. */
  function StateSet(s: State, a: Action): Option<RemoteState> {
    match a
    case Begin(_, _) => Some(Connecting)
    case Await(_, _) => Some(AwaitingDuplex)
    case Finish(_, _) => Some(Connected)
    case GiveUp(_, _) => if ThreadOf(s, a).Failing? then Some(ThreadOf(s, a).next) else None
    case GoDown(_) => Some(Disconnected)
    case _ => None
  }

  /** `set_state` changes a record only if there is one. */
  function NextRecord(s: State, a: Action, p: Peer): Option<RemoteState> {
    var record := s.At(p).record;
    if a.p != p then record
    else if a.Learn? then Some(Disconnected)
    else if record.Some? && StateSet(s, a).Some? then StateSet(s, a)
    else record
  }

  /** The manager of `a.p` sends an event, under the same lock as the change. */
  predicate Emits(s: State, a: Action) {
    a.Noise? || a.Learn? || (s.At(a.p).record.Some? && (StateSet(s, a).Some? || a.Certified? || a.Fetched?))
  }

  /** The thread of `p` at `i` afterwards: it acted, or its handler heard an event, or nothing happened to it. */
  function NewThread(s: State, a: Action, p: Peer, i: nat): Thread
    requires Can(s, a) && i < |s.At(p).threads|
  {
    var t := s.At(p).threads[i];
    if p == a.p then (if HasThread(a) && i == a.i then NextThread(s, a) else t)
    else if Emits(s, a) then Hear(t, !a.Noise?)
    else t
  }

  /** A handler that finds its caller down starts a connect call of its own. */
  predicate Spawns(s: State, a: Action, p: Peer) {
    || (a.NewConnect? && p == a.p)
    || (a.Read? && p == Other(a.p) && IsDown(s.At(p).record))
  }

  function NewThreads(s: State, a: Action, p: Peer): (r: seq<Thread>)
    requires Can(s, a)
    ensures |r| == |s.At(p).threads| + if Spawns(s, a, p) then 1 else 0
    ensures forall i :: 0 <= i < |s.At(p).threads| ==> r[i] == NewThread(s, a, p, i)
    ensures Spawns(s, a, p) ==> r[|s.At(p).threads|] == Start
  {
    seq(|s.At(p).threads|, i requires 0 <= i < |s.At(p).threads| => NewThread(s, a, p, i))
    + if Spawns(s, a, p) then [Start] else []
  }

  function NewSide(s: State, a: Action, p: Peer): Side
    requires Can(s, a)
  {
    Side(NextRecord(s, a, p), NewThreads(s, a, p), s.At(p).pinged || (a.PingOk? && a.p == p))
  }

  function Do(s: State, a: Action): State
    requires Can(s, a)
  {
    State(NewSide(s, a, A), NewSide(s, a, B))
  }

  lemma DoAt(s: State, a: Action, p: Peer)
    requires Can(s, a)
    ensures Do(s, a).At(p) == NewSide(s, a, p)
  {
  }

  /** Whatever changes a peer's record, every handler that waits for it hears of; of events about others it hears too.
      A service that goes away makes a known record Disconnected. */
  lemma HandlersHear(s: State, a: Action, p: Peer, i: nat)
    requires Can(s, a) && a.p == Other(p) && i < |s.At(p).threads| && HasUnread(s.At(p).threads[i])
    ensures var before, after := s.At(Other(p)).record, Do(s, a).At(Other(p)).record;
      var t, u := s.At(p).threads[i], Do(s, a).At(p).threads[i];
      && HasUnread(u)
      && (after != before ==> u.unread == t.unread + [true])
      && (a.Learn? ==> u.unread == t.unread + [true] && after == Some(Disconnected))
      && (before.Some? && (a.Begin? || a.Certified? || a.Await? || a.Finish? || a.Fetched?) ==>
            u.unread == t.unread + [true])
      && (before.Some? && (a.GiveUp? || a.GoDown?) ==> u.unread == t.unread + [true])
      && (a.Noise? ==> u.unread == t.unread + [false])
      && (a.GoDown? && before.Some? ==> after == Some(Disconnected))
  {
    DoAt(s, a, p);
    DoAt(s, a, Other(p));
    assert Do(s, a).At(p).threads[i] == NewThread(s, a, p, i);
  }

  /** A duplex call can fail at any time from when it is made to when it is answered. */
  lemma CallFailsAnyTime(s: State, p: Peer, i: nat)
    requires i < |s.At(p).threads|
    requires var t := s.At(p).threads[i]; t.Call? || t.Subscribed? || t.Parked? || t.Checking? || t.Deaf?
    ensures Can(s, CallFails(p, i)) && Do(s, CallFails(p, i)).At(p).threads[i] == Failing(Error(DuplexError))
  {
    var a := CallFails(p, i);
    DoAt(s, a, p);
    assert NewThreads(s, a, p)[i] == NewThread(s, a, p, i);
  }

  /** A handler only loses events when more than 256 of them wait. */
  lemma LagNeedsFullQueue(s: State, p: Peer, i: nat)
    requires Can(s, Lag(p, i))
    ensures s.At(p).threads[i].Parked? && |s.At(p).threads[i].unread| > 256
  {
  }

  /** What the first read of a handler of `p`'s call does on the other side: an unready caller that is down, by an error
      or not, is called back; a ready one is granted; otherwise the handler waits. */
  lemma ReadDecides(s: State, p: Peer, i: nat)
    requires Can(s, Read(p, i))
    ensures var record, t := s.At(Other(p)).record, Do(s, Read(p, i));
      && |t.At(Other(p)).threads| == |s.At(Other(p)).threads|
           + (if record.Some? && (record.value == Disconnected || record.value.Error?) then 1 else 0)
      && (t.At(p).threads[i] == Granted <==>
            record.Some? && (record.value == AwaitingDuplex || record.value == Connected))
      && (t.At(p).threads[i] != Granted ==> t.At(p).threads[i] == Parked(s.At(p).threads[i].unread))
  {
    DoAt(s, Read(p, i), p);
    DoAt(s, Read(p, i), Other(p));
    assert NewThread(s, Read(p, i), p, i) == NextThread(s, Read(p, i));
  }

  /** A run: states joined by actions, from two peers that have not done anything. */
  ghost predicate IsRun(states: seq<State>, acts: seq<Action>) {
    && |states| == |acts| + 1
    && (forall p :: states[0].At(p).threads == [] && !states[0].At(p).pinged)
    && (forall p :: states[0].At(p).record == None || states[0].At(p).record == Some(Disconnected))
    && forall k :: 0 <= k < |acts| ==> Can(states[k], acts[k]) && states[k + 1] == Do(states[k], acts[k])
  }

  // ----- soundness -----

  /** The thread's ping has succeeded in this attempt. */
  predicate PastPing(t: Thread) {
    t.Announce? || t.Call? || InCall(t) || t.Granted? || t.Fetch?
  }

  ghost predicate PingedFirstAt(side: Side) {
    && (IsReady(side.record) ==> side.pinged)
    && (forall i :: 0 <= i < |side.threads| && PastPing(side.threads[i]) ==> side.pinged)
  }

  /** A record becomes ready only by a call that is past its ping. */
  lemma ReadyComesFromPing(s: State, a: Action, p: Peer)
    requires PingedFirstAt(s.At(p)) && Can(s, a)
    requires a.GiveUp? ==> !IsReady(Some(ThreadOf(s, a).next))
    ensures IsReady(NextRecord(s, a, p)) ==> s.At(p).pinged
  {
  }

  lemma StepKeepsPingedFirst(s: State, a: Action, p: Peer)
    requires PingedFirstAt(s.At(p)) && Can(s, a)
    requires a.GiveUp? ==> !IsReady(Some(ThreadOf(s, a).next))
    ensures PingedFirstAt(Do(s, a).At(p))
  {
    DoAt(s, a, p);
    ReadyComesFromPing(s, a, p);
    var threads := NewThreads(s, a, p);
    forall i | 0 <= i < |threads| && PastPing(threads[i])
      ensures NewSide(s, a, p).pinged
    {
      if i < |s.At(p).threads| {
        assert threads[i] == NewThread(s, a, p, i);
        ThreadComesFrom(s, a, p, i);
      }
    }
  }

  /** No thread ever waits to announce a failure state that counts as ready. */
  ghost predicate FailuresAreFailures(side: Side) {
    forall i :: 0 <= i < |side.threads| && side.threads[i].Failing? ==> !IsReady(Some(side.threads[i].next))
  }

  lemma FailureComesFrom(s: State, a: Action, p: Peer, i: nat)
    requires Can(s, a) && i < |s.At(p).threads| && NewThread(s, a, p, i).Failing?
    ensures NewThread(s, a, p, i) == s.At(p).threads[i] || !IsReady(Some(NewThread(s, a, p, i).next))
  {
  }

  lemma StepKeepsFailures(s: State, a: Action, p: Peer)
    requires FailuresAreFailures(s.At(p)) && Can(s, a)
    ensures FailuresAreFailures(Do(s, a).At(p))
  {
    DoAt(s, a, p);
    var threads := NewThreads(s, a, p);
    forall i | 0 <= i < |threads| && threads[i].Failing?
      ensures !IsReady(Some(threads[i].next))
    {
      assert i < |s.At(p).threads| && threads[i] == NewThread(s, a, p, i);
      FailureComesFrom(s, a, p, i);
    }
  }

  lemma GiveUpIsNotReady(s: State, a: Action)
    requires Can(s, a) && FailuresAreFailures(s.At(a.p))
    ensures a.GiveUp? ==> !IsReady(Some(ThreadOf(s, a).next))
  {
  }

  lemma {:induction false} AlwaysPingedFirst(states: seq<State>, acts: seq<Action>, n: nat)
    requires IsRun(states, acts) && n < |states|
    ensures forall p :: PingedFirstAt(states[n].At(p)) && FailuresAreFailures(states[n].At(p))
  {
    if n == 0 {
    } else {
      AlwaysPingedFirst(states, acts, n - 1);
      var s, a := states[n - 1], acts[n - 1];
      assert Can(s, a) && states[n - 1 + 1] == Do(s, a);
      GiveUpIsNotReady(s, a);
      forall p
        ensures PingedFirstAt(states[n].At(p)) && FailuresAreFailures(states[n].At(p))
      {
        StepKeepsPingedFirst(s, a, p);
        StepKeepsFailures(s, a, p);
      }
    }
  }

  ghost predicate PingedBefore(acts: seq<Action>, n: nat, p: Peer) {
    exists h :: 0 <= h < n && h < |acts| && acts[h].PingOk? && acts[h].p == p
  }

  lemma {:induction false} PingedMeansPingOk(states: seq<State>, acts: seq<Action>, n: nat, p: Peer)
    requires IsRun(states, acts) && n < |states| && states[n].At(p).pinged
    ensures PingedBefore(acts, n, p)
  {
    if n == 0 {
    } else {
      assert Can(states[n - 1], acts[n - 1]) && states[n - 1 + 1] == Do(states[n - 1], acts[n - 1]);
      DoAt(states[n - 1], acts[n - 1], p);
      if states[n - 1].At(p).pinged {
        PingedMeansPingOk(states, acts, n - 1, p);
      }
    }
  }

  /** Call `i` of `p` has pinged the other peer successfully before moment `n`. */
  ghost predicate PingedBy(acts: seq<Action>, n: nat, p: Peer, i: nat) {
    exists h :: 0 <= h < n && h < |acts| && acts[h] == PingOk(p, i)
  }

  /** At moment `j` the handler of call `i` of `p` finds the other peer ready for `p`, and both have pinged. */
  ghost predicate FoundReady(states: seq<State>, acts: seq<Action>, j: nat, p: Peer, i: nat) {
    && j < |acts| && j < |states|
    && (acts[j] == Read(p, i) || acts[j] == Check(p, i))
    && IsReady(states[j].At(Other(p)).record)
    && PingedBefore(acts, j, Other(p))
    && PingedBy(acts, j, p, i)
  }

  ghost predicate FoundReadyBefore(states: seq<State>, acts: seq<Action>, n: nat, p: Peer, i: nat) {
    exists j :: 0 <= j < n && FoundReady(states, acts, j, p, i)
  }

  /** What a call's stage says about its own past. */
  ghost predicate CallPast(states: seq<State>, acts: seq<Action>, n: nat, p: Peer, i: nat)
    requires n < |states|
  {
    i < |states[n].At(p).threads| ==>
      && (PastPing(states[n].At(p).threads[i]) ==> PingedBy(acts, n, p, i))
      && (states[n].At(p).threads[i].Granted? ==> FoundReadyBefore(states, acts, n, p, i))
  }

  /** A call that is past its ping, or granted, was so before, or it has just got there. */
  lemma ThreadComesFrom(s: State, a: Action, p: Peer, i: nat)
    requires Can(s, a) && i < |s.At(p).threads|
    ensures PastPing(NewThread(s, a, p, i)) ==> PastPing(s.At(p).threads[i]) || a == PingOk(p, i)
    ensures NewThread(s, a, p, i).Granted? ==>
      || s.At(p).threads[i].Granted?
      || (&& (a == Read(p, i) || a == Check(p, i))
          && InCall(s.At(p).threads[i]) && IsReady(s.At(Other(p)).record))
  {
  }

  lemma PingedByLater(acts: seq<Action>, n: nat, m: nat, p: Peer, i: nat)
    requires PingedBy(acts, n, p, i) && n <= m
    ensures PingedBy(acts, m, p, i)
  {
  }

  lemma StepKeepsCallPast(states: seq<State>, acts: seq<Action>, n: nat, p: Peer, i: nat)
    requires IsRun(states, acts) && n < |acts| && CallPast(states, acts, n, p, i)
    ensures CallPast(states, acts, n + 1, p, i)
  {
    var s, a := states[n], acts[n];
    assert Can(s, a) && states[n + 1] == Do(s, a);
    DoAt(s, a, p);
    if i < |s.At(p).threads| {
      ThreadComesFrom(s, a, p, i);
      var before, after := s.At(p).threads[i], NewThread(s, a, p, i);
      if PastPing(before) {
        PingedByLater(acts, n, n + 1, p, i);
      }
      if after.Granted? && !before.Granted? {
        AlwaysPingedFirst(states, acts, n);
        PingedMeansPingOk(states, acts, n, Other(p));
        assert FoundReady(states, acts, n, p, i);
      }
    }
  }

  lemma {:induction false} AlwaysCallPast(states: seq<State>, acts: seq<Action>, n: nat, p: Peer, i: nat)
    requires IsRun(states, acts) && n < |states|
    ensures CallPast(states, acts, n, p, i)
  {
    if n == 0 {
      assert states[0].At(p).threads == [];
    } else {
      AlwaysCallPast(states, acts, n - 1, p, i);
      StepKeepsCallPast(states, acts, n - 1, p, i);
    }
  }

  /** Call `i` of `p` set Connected at moment `k`, and the record has been Connected up to `n` ever since. */
  ghost predicate ConnectedSince(states: seq<State>, acts: seq<Action>, k: nat, n: nat, p: Peer, i: nat) {
    && k < n < |states| && k < |acts| && acts[k] == Finish(p, i)
    && forall m :: k < m <= n ==> states[m].At(p).record == Some(Connected)
  }

  /** Only a call that has been granted makes the record Connected. */
  lemma {:induction false} ConnectedByCall(states: seq<State>, acts: seq<Action>, n: nat, p: Peer)
    requires IsRun(states, acts) && n < |states| && states[n].At(p).record == Some(Connected)
    ensures exists k: nat, i: nat :: ConnectedSince(states, acts, k, n, p, i)
  {
    if n == 0 {
      assert false;
    } else {
      var s, a := states[n - 1], acts[n - 1];
      assert Can(s, a) && states[n - 1 + 1] == Do(s, a);
      DoAt(s, a, p);
      if s.At(p).record == Some(Connected) {
        ConnectedByCall(states, acts, n - 1, p);
        var k: nat, i: nat :| ConnectedSince(states, acts, k, n - 1, p, i);
        assert ConnectedSince(states, acts, k, n, p, i);
      } else {
        AlwaysPingedFirst(states, acts, n - 1);
        GiveUpIsNotReady(s, a);
        assert ConnectedSince(states, acts, n - 1, n, p, a.i);
      }
    }
  }

  /**
   In every run, whatever fails and however many calls run at once, a peer that is Connected owes it to one call:
   that call set Connected and nothing has changed it since; during its own duplex call its handler found the other
   peer AwaitingDuplex or Connected towards it; and before that both this very call and the other peer had pinged
   successfully.
   */
  lemma DuplexSoundness(states: seq<State>, acts: seq<Action>, n: nat, p: Peer)
    requires IsRun(states, acts) && n < |states| && states[n].At(p).record == Some(Connected)
    ensures exists k: nat, i: nat :: ConnectedSince(states, acts, k, n, p, i) && FoundReadyBefore(states, acts, k, p, i)
  {
    ConnectedByCall(states, acts, n, p);
    var k: nat, i: nat :| ConnectedSince(states, acts, k, n, p, i);
    assert Can(states[k], acts[k]);
    AlwaysCallPast(states, acts, k, p, i);
  }

  // ----- no lost wakeup -----

  /** A parked handler whose record is ready still has an event about its caller to read. */
  predicate WillWake(t: Thread, record: Option<RemoteState>) {
    t.Parked? && IsReady(record) ==> true in t.unread
  }

  ghost predicate NoLostWakeup(s: State, p: Peer) {
    forall i :: 0 <= i < |s.At(p).threads| ==> WillWake(s.At(p).threads[i], s.At(Other(p)).record)
  }

  lemma ThreadWillWake(s: State, a: Action, p: Peer, i: nat)
    requires Can(s, a) && i < |s.At(p).threads|
    requires WillWake(s.At(p).threads[i], s.At(Other(p)).record)
    ensures WillWake(NewThread(s, a, p, i), NextRecord(s, a, Other(p)))
  {
    var before, after := s.At(p).threads[i], NewThread(s, a, p, i);
    if p == a.p {
      assert NextRecord(s, a, Other(p)) == s.At(Other(p)).record;
    } else if before.Parked? && Emits(s, a) {
      assert after.unread[|after.unread| - 1] == !a.Noise?;
      if true in before.unread {
        var k :| 0 <= k < |before.unread| && before.unread[k];
        assert after.unread[k];
      }
    }
  }

  lemma StepKeepsNoLostWakeup(s: State, a: Action, p: Peer)
    requires NoLostWakeup(s, p) && Can(s, a)
    ensures NoLostWakeup(Do(s, a), p)
  {
    DoAt(s, a, p);
    DoAt(s, a, Other(p));
    var threads := NewThreads(s, a, p);
    forall i | 0 <= i < |threads|
      ensures WillWake(threads[i], NextRecord(s, a, Other(p)))
    {
      if i < |s.At(p).threads| {
        ThreadWillWake(s, a, p, i);
      }
    }
  }

  lemma {:induction false} NeverLostWakeup(states: seq<State>, acts: seq<Action>, n: nat, p: Peer)
    requires IsRun(states, acts) && n < |states|
    ensures NoLostWakeup(states[n], p)
  {
    if n == 0 {
    } else {
      NeverLostWakeup(states, acts, n - 1, p);
      assert Can(states[n - 1], acts[n - 1]) && states[n - 1 + 1] == Do(states[n - 1], acts[n - 1]);
      StepKeepsNoLostWakeup(states[n - 1], acts[n - 1], p);
    }
  }

  /** A refusal at the deadline by a handler that has not lagged and has nothing unread is never wrong. */
  lemma RefusalIsJustified(states: seq<State>, acts: seq<Action>, n: nat)
    requires IsRun(states, acts) && n < |acts| && acts[n].Deadline?
    requires ThreadOf(states[n], acts[n]).Parked? && ThreadOf(states[n], acts[n]).unread == []
    ensures !IsReady(states[n].At(Other(acts[n].p)).record)
  {
    NeverLostWakeup(states, acts, n, acts[n].p);
    assert Can(states[n], acts[n]);
  }
}
