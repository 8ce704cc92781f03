/**
 How three or more initial calls block each other, and the exact condition
 under which the handshake always connects.
 */
module DuplexDeadlock {
  import opened Common
  import opened RemoteStore
  import opened Duplex
  import opened DuplexProgress

  ghost predicate Reach(s: State, t: State) {
    exists acts :: Path(s, acts, t, true)
  }

  lemma {:induction false} PathTrans(s: State, a: seq<Action>, t: State, b: seq<Action>, u: State)
    requires Path(s, a, t, true) && Path(t, b, u, true)
    ensures Path(s, a + b, u, true)
    decreases |a|
  {
    if a == [] {
      assert a + b == b;
    } else {
      assert (a + b)[1..] == a[1..] + b;
      PathTrans(Do(s, a[0]), a[1..], t, b, u);
    }
  }

  lemma ReachTrans(s: State, t: State, u: State)
    requires Reach(s, t) && Reach(t, u)
    ensures Reach(s, u)
  {
    var a :| Path(s, a, t, true);
    var b :| Path(t, b, u, true);
    PathTrans(s, a, t, b, u);
  }

  lemma ReachSelf(s: State)
    ensures Reach(s, s)
  {
    assert Path(s, [], s, true);
  }

  lemma ReachByStep(s: State, act: Action)
    requires FaultFree(act) && Free(s, act)
    ensures Reach(s, Do(s, act))
  {
    assert Path(Do(s, act), [], Do(s, act), true);
    assert [act][1..] == [];
    assert Path(s, [act], Do(s, act), true);
  }

  lemma {:induction false} PathUnfair(s: State, acts: seq<Action>, t: State)
    requires Path(s, acts, t, true)
    ensures Path(s, acts, t, false)
    decreases |acts|
  {
    if acts == [] {
    } else {
      PathUnfair(Do(s, acts[0]), acts[1..], t);
    }
  }

  /** The same stage; only what a handler has to read may differ. */
  predicate SameStage(t: Thread, u: Thread) {
    t == u || (t.Parked? && u.Parked?) || (t.Subscribed? && u.Subscribed?) || (t.Checking? && u.Checking?)
  }

  ghost predicate SameStages(ts: seq<Thread>, us: seq<Thread>) {
    |ts| == |us| && forall i :: 0 <= i < |ts| ==> SameStage(ts[i], us[i])
  }

  /** One step of a call of `p`: only that call moves, and handlers for the other side may hear of it. */
  ghost predicate Moved(s: State, t: State, p: Peer, i: nat, stage: Thread, record: Option<RemoteState>) {
    && Reach(s, t)
    && i < |s.At(p).threads|
    && t.At(p).threads == s.At(p).threads[i := stage]
    && t.At(p).record == record
    && SameStages(s.At(Other(p)).threads, t.At(Other(p)).threads)
    && t.At(Other(p)).record == s.At(Other(p)).record
  }

  ghost predicate CanMove(s: State, p: Peer, i: nat, stage: Thread, record: Option<RemoteState>) {
    exists t :: Moved(s, t, p, i, stage, record)
  }

  lemma ActorMoves(s: State, act: Action)
    requires FaultFree(act) && Can(s, act) && !Spawns(s, act, act.p)
    ensures NewThreads(s, act, act.p) == s.At(act.p).threads[act.i := NextThread(s, act)]
  {
    var ts, us := s.At(act.p).threads, NewThreads(s, act, act.p);
    forall j | 0 <= j < |ts|
      ensures us[j] == ts[act.i := NextThread(s, act)][j]
    {
      assert us[j] == NewThread(s, act, act.p, j);
    }
  }

  lemma OthersHear(s: State, act: Action)
    requires FaultFree(act) && Can(s, act) && !Spawns(s, act, Other(act.p))
    ensures SameStages(s.At(Other(act.p)).threads, NewThreads(s, act, Other(act.p)))
  {
    var q := Other(act.p);
    forall j | 0 <= j < |s.At(q).threads|
      ensures SameStage(s.At(q).threads[j], NewThreads(s, act, q)[j])
    {
      assert NewThreads(s, act, q)[j] == NewThread(s, act, q, j);
    }
  }

  lemma OneStep(s: State, act: Action)
    requires FaultFree(act) && Free(s, act)
    requires !Spawns(s, act, Other(act.p))
    ensures CanMove(s, act.p, act.i, NextThread(s, act), NextRecord(s, act, act.p))
  {
    DoAt(s, act, act.p);
    DoAt(s, act, Other(act.p));
    ReachByStep(s, act);
    ActorMoves(s, act);
    OthersHear(s, act);
    assert Moved(s, Do(s, act), act.p, act.i, NextThread(s, act), NextRecord(s, act, act.p));
  }

  /** A call that has moved can move once more. */
  lemma MoveOn(s: State, t: State, p: Peer, i: nat, x: Thread, y: Thread,
               r1: Option<RemoteState>, r2: Option<RemoteState>)
    requires Moved(s, t, p, i, x, r1) && CanMove(t, p, i, y, r2)
    ensures CanMove(s, p, i, y, r2)
  {
    var u :| Moved(t, u, p, i, y, r2);
    ReachTrans(s, t, u);
    assert Moved(s, u, p, i, y, r2);
  }

  lemma StartToCertify(s: State, p: Peer, i: nat)
    requires i < |s.At(p).threads| && s.At(p).threads[i] == Start && s.At(p).record.Some?
    ensures CanMove(s, p, i, Certify, Some(Connecting))
  {
    OneStep(s, Begin(p, i));
  }

  lemma CertifyToStore(s: State, p: Peer, i: nat)
    requires i < |s.At(p).threads| && s.At(p).threads[i] == Certify && s.At(p).record == Some(Connecting)
    ensures CanMove(s, p, i, StoreClient, Some(Connecting))
  {
    OneStep(s, Certified(p, i));
    var u :| Moved(s, u, p, i, Build, Some(Connecting));
    OneStep(u, Built(p, i));
    MoveOn(s, u, p, i, Build, StoreClient, Some(Connecting), Some(Connecting));
  }

  /** A new call gets as far as waiting for the lock. */
  lemma ToStore(s: State, p: Peer, i: nat)
    requires i < |s.At(p).threads| && s.At(p).threads[i] == Start && s.At(p).record.Some?
    ensures CanMove(s, p, i, StoreClient, Some(Connecting))
  {
    StartToCertify(s, p, i);
    var u :| Moved(s, u, p, i, Certify, Some(Connecting));
    CertifyToStore(u, p, i);
    MoveOn(s, u, p, i, Certify, StoreClient, Some(Connecting), Some(Connecting));
  }

  /** With no call of the same peer under way it also stores its client. */
  lemma ToPing(s: State, p: Peer, i: nat)
    requires i < |s.At(p).threads| && s.At(p).threads[i] == Start && s.At(p).record.Some?
    requires NoGuard(s.At(p).threads)
    ensures CanMove(s, p, i, Ping, Some(Connecting))
  {
    ToStore(s, p, i);
    var u :| Moved(s, u, p, i, StoreClient, Some(Connecting));
    OneStep(u, Stored(p, i));
    MoveOn(s, u, p, i, StoreClient, Ping, Some(Connecting), Some(Connecting));
  }

  lemma PingToAnnounce(s: State, p: Peer, i: nat)
    requires i < |s.At(p).threads| && s.At(p).threads[i] == Ping && NoWriterWaits(s.At(p).threads)
    ensures CanMove(s, p, i, Announce, s.At(p).record)
  {
    OneStep(s, PingOk(p, i));
  }

  lemma AnnounceToCall(s: State, p: Peer, i: nat)
    requires i < |s.At(p).threads| && s.At(p).threads[i] == Announce && s.At(p).record.Some?
    ensures CanMove(s, p, i, Call, Some(AwaitingDuplex))
  {
    OneStep(s, Await(p, i));
  }

  lemma CallToSubscribed(s: State, p: Peer, i: nat)
    requires i < |s.At(p).threads| && s.At(p).threads[i] == Call && NoWriterWaits(s.At(p).threads)
    ensures CanMove(s, p, i, Subscribed([]), s.At(p).record)
  {
    OneStep(s, CallPeer(p, i));
  }

  /** And then it makes its duplex call, unless a writer waits. */
  lemma PingToCall(s: State, p: Peer, i: nat)
    requires i < |s.At(p).threads| && s.At(p).threads[i] == Ping && s.At(p).record.Some?
    requires NoWriterWaits(s.At(p).threads)
    ensures CanMove(s, p, i, Subscribed([]), Some(AwaitingDuplex))
  {
    PingToAnnounce(s, p, i);
    var u :| Moved(s, u, p, i, Announce, s.At(p).record);
    AnnounceToCall(u, p, i);
    var v :| Moved(u, v, p, i, Call, Some(AwaitingDuplex));
    CallToSubscribed(v, p, i);
    MoveOn(u, v, p, i, Call, Subscribed([]), Some(AwaitingDuplex), Some(AwaitingDuplex));
    MoveOn(s, u, p, i, Announce, Subscribed([]), s.At(p).record, Some(AwaitingDuplex));
  }

  /** The handler of call `i` has parked and started a call on its own side. */
  ghost predicate Spawned(s: State, t: State, p: Peer, i: nat) {
    && i < |s.At(p).threads| && s.At(p).threads[i].Subscribed?
    && t.At(p).threads == s.At(p).threads[i := Parked(s.At(p).threads[i].unread)]
    && t.At(Other(p)).threads == s.At(Other(p)).threads + [Start]
    && t.At(p).record == s.At(p).record && t.At(Other(p)).record == s.At(Other(p)).record
  }

  lemma ReaderParks(s: State, p: Peer, i: nat)
    requires i < |s.At(p).threads| && s.At(p).threads[i].Subscribed? && IsDown(s.At(Other(p)).record)
    ensures NewThreads(s, Read(p, i), p) == s.At(p).threads[i := Parked(s.At(p).threads[i].unread)]
  {
    var ts, us := s.At(p).threads, NewThreads(s, Read(p, i), p);
    forall j | 0 <= j < |ts|
      ensures us[j] == ts[i := Parked(ts[i].unread)][j]
    {
      assert us[j] == NewThread(s, Read(p, i), p, j);
    }
  }

  lemma PeerGetsCall(s: State, p: Peer, i: nat)
    requires i < |s.At(p).threads| && s.At(p).threads[i].Subscribed? && IsDown(s.At(Other(p)).record)
    ensures NewThreads(s, Read(p, i), Other(p)) == s.At(Other(p)).threads + [Start]
  {
    var q := Other(p);
    var xs, ys := s.At(q).threads, NewThreads(s, Read(p, i), q);
    forall j | 0 <= j < |xs|
      ensures ys[j] == xs[j]
    {
      assert ys[j] == NewThread(s, Read(p, i), q, j);
    }
  }

  /** A handler that finds its caller down starts a call on its own side and parks. */
  lemma ReadSpawns(s: State, p: Peer, i: nat)
    requires i < |s.At(p).threads| && s.At(p).threads[i].Subscribed?
    requires IsDown(s.At(Other(p)).record)
    ensures exists t :: Reach(s, t) && Spawned(s, t, p, i)
  {
    var act := Read(p, i);
    DoAt(s, act, p);
    DoAt(s, act, Other(p));
    ReachByStep(s, act);
    ReaderParks(s, p, i);
    PeerGetsCall(s, p, i);
    assert Spawned(s, Do(s, act), p, i);
  }

  /** All calls of `p` from number `k` on have got as far as the lock, and nothing else has moved. */
  ghost predicate AllAtStore(s: State, t: State, p: Peer, k: nat) {
    && Reach(s, t)
    && k <= |s.At(p).threads| == |t.At(p).threads|
    && t.At(p).threads[..k] == s.At(p).threads[..k]
    && (forall j :: k <= j < |t.At(p).threads| ==> t.At(p).threads[j] == StoreClient)
    && t.At(p).record == (if k < |s.At(p).threads| then Some(Connecting) else s.At(p).record)
    && SameStages(s.At(Other(p)).threads, t.At(Other(p)).threads)
    && t.At(Other(p)).record == s.At(Other(p)).record
  }

  lemma PrefixAfterSet<T>(xs: seq<T>, ys: seq<T>, k: nat, x: T)
    requires k < |xs| == |ys| && ys[..k + 1] == xs[k := x][..k + 1]
    ensures ys[..k] == xs[..k] && ys[k] == x
  {
    assert ys[..k + 1][..k] == ys[..k] && xs[k := x][..k + 1][..k] == xs[..k];
    assert ys[..k + 1][k] == ys[k];
  }

  lemma SameStagesTrans(xs: seq<Thread>, ys: seq<Thread>, zs: seq<Thread>)
    requires SameStages(xs, ys) && SameStages(ys, zs)
    ensures SameStages(xs, zs)
  {
  }

  lemma OneMoreAtStore(s: State, u: State, t: State, p: Peer, k: nat)
    requires Moved(s, u, p, k, StoreClient, Some(Connecting)) && AllAtStore(u, t, p, k + 1)
    ensures AllAtStore(s, t, p, k)
  {
    ReachTrans(s, u, t);
    PrefixAfterSet(s.At(p).threads, t.At(p).threads, k, StoreClient);
    SameStagesTrans(s.At(Other(p)).threads, u.At(Other(p)).threads, t.At(Other(p)).threads);
  }

  /** All calls from number `k` on can get as far as the lock. */
  lemma {:induction false} AllToStore(s: State, p: Peer, k: nat)
    requires k <= |s.At(p).threads| && s.At(p).record.Some?
    requires forall j :: k <= j < |s.At(p).threads| ==> s.At(p).threads[j] == Start
    ensures exists t :: AllAtStore(s, t, p, k)
    decreases |s.At(p).threads| - k
  {
    if k == |s.At(p).threads| {
      ReachSelf(s);
      assert AllAtStore(s, s, p, k);
    } else {
      ToStore(s, p, k);
      var u :| Moved(s, u, p, k, StoreClient, Some(Connecting));
      AllToStore(u, p, k + 1);
      var t :| AllAtStore(u, t, p, k + 1);
      OneMoreAtStore(s, u, t, p, k);
    }
  }

  /** Handling events does not change anything but the handlers, which are `threads` afterwards. */
  ghost predicate OnlyHandled(s: State, t: State, p: Peer, threads: seq<Thread>) {
    && Reach(s, t)
    && t.At(p).threads == threads
    && t.At(Other(p)) == s.At(Other(p))
    && t.At(p).record == s.At(p).record
  }

  ghost predicate CanHandle(s: State, p: Peer, threads: seq<Thread>) {
    exists t :: OnlyHandled(s, t, p, threads)
  }

  lemma HandlerStep(s: State, act: Action)
    requires act.Receive? || act.Check?
    requires Can(s, act) && !IsReady(s.At(Other(act.p)).record)
    ensures CanHandle(s, act.p, s.At(act.p).threads[act.i := NextThread(s, act)])
  {
    var q := Other(act.p);
    DoAt(s, act, q);
    DoAt(s, act, act.p);
    ReachByStep(s, act);
    ActorMoves(s, act);
    assert NewThreads(s, act, q) == s.At(q).threads;
    assert OnlyHandled(s, Do(s, act), act.p, s.At(act.p).threads[act.i := NextThread(s, act)]);
  }

  lemma HandledTwice(s: State, t: State, u: State, p: Peer, xs: seq<Thread>, ys: seq<Thread>)
    requires OnlyHandled(s, t, p, xs) && OnlyHandled(t, u, p, ys)
    ensures CanHandle(s, p, ys)
  {
    ReachTrans(s, t, u);
    assert OnlyHandled(s, u, p, ys);
  }

  /** A parked handler whose record is not ready takes one event and stays parked. */
  lemma TakeOne(s: State, p: Peer, i: nat)
    requires i < |s.At(p).threads| && s.At(p).threads[i].Parked? && s.At(p).threads[i].unread != []
    requires !IsReady(s.At(Other(p)).record)
    ensures CanHandle(s, p, s.At(p).threads[i := Parked(s.At(p).threads[i].unread[1..])])
  {
    var ts, unread := s.At(p).threads, s.At(p).threads[i].unread;
    HandlerStep(s, Receive(p, i));
    if unread[0] {
      var u :| OnlyHandled(s, u, p, ts[i := Checking(unread[1..])]);
      HandlerStep(u, Check(p, i));
      var v :| OnlyHandled(u, v, p, u.At(p).threads[i := Parked(unread[1..])]);
      assert u.At(p).threads[i := Parked(unread[1..])] == ts[i := Parked(unread[1..])];
      HandledTwice(s, u, v, p, ts[i := Checking(unread[1..])], ts[i := Parked(unread[1..])]);
    }
  }

  /** So it reads all its events and stays parked. */
  lemma {:induction false} DrainOne(s: State, p: Peer, i: nat)
    requires i < |s.At(p).threads| && s.At(p).threads[i].Parked?
    requires !IsReady(s.At(Other(p)).record)
    ensures CanHandle(s, p, s.At(p).threads[i := Parked([])])
    decreases |s.At(p).threads[i].unread|
  {
    var ts, unread := s.At(p).threads, s.At(p).threads[i].unread;
    if unread == [] {
      ReachSelf(s);
      assert OnlyHandled(s, s, p, ts[i := Parked([])]);
    } else {
      TakeOne(s, p, i);
      var u :| OnlyHandled(s, u, p, ts[i := Parked(unread[1..])]);
      DrainOne(u, p, i);
      var t :| OnlyHandled(u, t, p, u.At(p).threads[i := Parked([])]);
      assert u.At(p).threads[i := Parked([])] == ts[i := Parked([])];
      HandledTwice(s, u, t, p, ts[i := Parked(unread[1..])], ts[i := Parked([])]);
    }
  }

  function AllDrained(ts: seq<Thread>, k: nat): (r: seq<Thread>)
    requires k <= |ts|
    ensures |r| == |ts|
    ensures forall j :: 0 <= j < |ts| ==> r[j] == if j < k then Parked([]) else ts[j]
  {
    seq(|ts|, j requires 0 <= j < |ts| => if j < k then Parked([]) else ts[j])
  }

  lemma {:induction false} DrainAll(s: State, p: Peer, k: nat)
    requires k <= |s.At(p).threads|
    requires forall j :: 0 <= j < k ==> s.At(p).threads[j].Parked?
    requires !IsReady(s.At(Other(p)).record)
    ensures CanHandle(s, p, AllDrained(s.At(p).threads, k))
  {
    var ts := s.At(p).threads;
    if k == 0 {
      ReachSelf(s);
      assert AllDrained(ts, 0) == ts;
      assert OnlyHandled(s, s, p, AllDrained(ts, 0));
    } else {
      DrainAll(s, p, k - 1);
      var u :| OnlyHandled(s, u, p, AllDrained(ts, k - 1));
      DrainOne(u, p, k - 1);
      var t :| OnlyHandled(u, t, p, u.At(p).threads[k - 1 := Parked([])]);
      assert u.At(p).threads[k - 1 := Parked([])] == AllDrained(ts, k);
      HandledTwice(s, u, t, p, AllDrained(ts, k - 1), AllDrained(ts, k));
    }
  }

  /** Calls under way in front of calls not begun, facing a peer that is down with at least two calls to begin. */
  ghost predicate Poised(s: State, p: Peer, k: nat) {
    var mine, theirs := s.At(p), s.At(Other(p));
    && 1 <= k < |mine.threads| && mine.record.Some?
    && (forall j :: 0 <= j < k ==> mine.threads[j].Parked?)
    && (forall j :: k <= j < |mine.threads| ==> mine.threads[j] == Start)
    && |theirs.threads| >= 2 && theirs.record == Some(Disconnected)
    && (forall j :: 0 <= j < |theirs.threads| ==> theirs.threads[j] == Start)
  }

  /** Both sides: parked calls with nothing to read in front, calls kept out by the lock behind. */
  ghost predicate Blocked(side: Side, k: nat) {
    && 1 <= k < |side.threads| && side.record == Some(Connecting)
    && (forall j :: 0 <= j < k ==> side.threads[j] == Parked([]))
    && (forall j :: k <= j < |side.threads| ==> side.threads[j] == StoreClient)
  }

  lemma BlockedIsStuck(s: State, k: nat, m: nat)
    requires Blocked(s.a, k) && Blocked(s.b, m)
    ensures Stuck(s) && !Finished(s)
  {
    assert InCall(s.a.threads[0]) && InCall(s.b.threads[0]);
    assert s.At(A).record != Some(Connected);
  }

  /** `Poised`, but the peer's first call is already in its duplex call. */
  ghost predicate PeerAhead(t: State, p: Peer, k: nat) {
    var mine, theirs := t.At(p), t.At(Other(p));
    && 1 <= k < |mine.threads| && mine.record.Some?
    && (forall j :: 0 <= j < k ==> mine.threads[j].Parked?)
    && (forall j :: k <= j < |mine.threads| ==> mine.threads[j] == Start)
    && |theirs.threads| >= 2 && theirs.threads[0].Subscribed? && theirs.record == Some(AwaitingDuplex)
    && (forall j :: 1 <= j < |theirs.threads| ==> theirs.threads[j] == Start)
  }

  lemma PeerGoesFirst(s: State, p: Peer, k: nat)
    requires Poised(s, p, k)
    ensures exists t :: Reach(s, t) && PeerAhead(t, p, k)
  {
    var q := Other(p);
    assert Other(q) == p;
    FirstCall(s, q);
    var t :| Moved(s, t, q, 0, Subscribed([]), Some(AwaitingDuplex));
    assert PeerAhead(t, p, k);
  }

  /** Parked calls of `p` and one duplex call of the peer under way, everything else at the lock. */
  ghost predicate Crowded(s: State, p: Peer, k: nat) {
    var mine, theirs := s.At(p), s.At(Other(p));
    && 1 <= k < |mine.threads| && mine.record == Some(Connecting)
    && (forall j :: 0 <= j < k ==> mine.threads[j].Parked?)
    && (forall j :: k <= j < |mine.threads| ==> mine.threads[j] == StoreClient)
    && |theirs.threads| >= 2 && theirs.record == Some(Connecting)
    && (theirs.threads[0].Subscribed? || theirs.threads[0].Parked?)
    && (forall j :: 1 <= j < |theirs.threads| ==> theirs.threads[j] == StoreClient)
  }

  lemma CrowdedAfter(u: State, v: State, t: State, p: Peer, k: nat)
    requires PeerAhead(u, p, k)
    requires AllAtStore(u, v, p, k) && AllAtStore(v, t, Other(p), 1)
    ensures Crowded(t, p, k) && t.At(Other(p)).threads[0].Subscribed?
  {
    var q := Other(p);
    assert Other(q) == p;
    forall j | 0 <= j < k
      ensures v.At(p).threads[j].Parked?
    {
      assert v.At(p).threads[j] == v.At(p).threads[..k][j] == u.At(p).threads[..k][j] == u.At(p).threads[j];
    }
    assert t.At(q).threads[0] == t.At(q).threads[..1][0] == v.At(q).threads[..1][0];
  }

  lemma OthersCrowdIn(s: State, p: Peer, k: nat)
    requires Poised(s, p, k)
    ensures exists t :: Reach(s, t) && Crowded(t, p, k) && t.At(Other(p)).threads[0].Subscribed?
  {
    PeerGoesFirst(s, p, k);
    var u :| Reach(s, u) && PeerAhead(u, p, k);
    AllToStore(u, p, k);
    var v :| AllAtStore(u, v, p, k);
    AllToStore(v, Other(p), 1);
    var t :| AllAtStore(v, t, Other(p), 1);
    ReachTrans(s, u, v);
    ReachTrans(s, v, t);
    CrowdedAfter(u, v, t, p, k);
  }

  ghost predicate GetsStuck(s: State) {
    exists t :: Reach(s, t) && Stuck(t) && !Finished(t)
  }

  lemma GetsStuckLater(s: State, t: State)
    requires Reach(s, t) && GetsStuck(t)
    ensures GetsStuck(s)
  {
    var u :| Reach(t, u) && Stuck(u) && !Finished(u);
    ReachTrans(s, t, u);
  }

  lemma DrainedIsBlocked(s: State, u: State, t: State, p: Peer, k: nat)
    requires Crowded(s, p, k) && s.At(Other(p)).threads[0].Parked?
    requires OnlyHandled(s, u, Other(p), s.At(Other(p)).threads[0 := Parked([])])
    requires OnlyHandled(u, t, p, AllDrained(u.At(p).threads, k))
    ensures Stuck(t) && !Finished(t)
  {
    var q := Other(p);
    assert Other(q) == p;
    assert Blocked(t.At(p), k);
    assert Blocked(t.At(q), 1);
    if p == A { BlockedIsStuck(t, k, 1); } else { BlockedIsStuck(t, 1, k); }
  }

  lemma CrowdedGetsStuck(s: State, p: Peer, k: nat)
    requires Crowded(s, p, k) && s.At(Other(p)).threads[0].Parked?
    ensures GetsStuck(s)
  {
    var q := Other(p);
    assert Other(q) == p;
    DrainOne(s, q, 0);
    var u :| OnlyHandled(s, u, q, s.At(q).threads[0 := Parked([])]);
    DrainAll(u, p, k);
    var t :| OnlyHandled(u, t, p, AllDrained(u.At(p).threads, k));
    ReachTrans(s, u, t);
    DrainedIsBlocked(s, u, t, p, k);
  }

  lemma StaysCrowded(u: State, v: State, p: Peer, k: nat)
    requires Crowded(u, p, k) && u.At(Other(p)).threads[0].Subscribed?
    requires Moved(u, v, Other(p), 0, Parked(u.At(Other(p)).threads[0].unread), u.At(Other(p)).record)
    ensures Crowded(v, p, k) && v.At(Other(p)).threads[0].Parked?
  {
    assert Other(Other(p)) == p;
  }

  lemma PoisedGetsStuck(s: State, p: Peer, k: nat)
    requires Poised(s, p, k)
    ensures GetsStuck(s)
  {
    var q := Other(p);
    assert Other(q) == p;
    OthersCrowdIn(s, p, k);
    var u :| Reach(s, u) && Crowded(u, p, k) && u.At(q).threads[0].Subscribed?;
    OneStep(u, Read(q, 0));
    var v :| Moved(u, v, q, 0, Parked(u.At(q).threads[0].unread), u.At(q).record);
    StaysCrowded(u, v, p, k);
    CrowdedGetsStuck(v, p, k);
    GetsStuckLater(u, v);
    GetsStuckLater(s, u);
  }

  /** One call of `p` goes ahead as far as its duplex call. */
  lemma FirstCall(s: State, p: Peer)
    requires s.At(p).threads != [] && s.At(p).record.Some?
    requires forall j :: 0 <= j < |s.At(p).threads| ==> s.At(p).threads[j] == Start
    ensures CanMove(s, p, 0, Subscribed([]), Some(AwaitingDuplex))
  {
    ToPing(s, p, 0);
    var u :| Moved(s, u, p, 0, Ping, Some(Connecting));
    PingToCall(u, p, 0);
    MoveOn(s, u, p, 0, Ping, Subscribed([]), Some(Connecting), Some(AwaitingDuplex));
  }

  ghost predicate AllStart(side: Side, n: nat) {
    && |side.threads| == n && side.record == Some(Disconnected)
    && forall j :: 0 <= j < n ==> side.threads[j] == Start
  }

  lemma StaysAllStart(s: State, t: State, q: Peer, n: nat)
    requires AllStart(s.At(q), n)
    requires SameStages(s.At(q).threads, t.At(q).threads) && t.At(q).record == s.At(q).record
    ensures AllStart(t.At(q), n)
  {
  }

  /** Two calls here, one there: the first call makes the peer start a second one. */
  lemma TwoAgainstOne(s: State, p: Peer, n: nat, m: nat)
    requires AllStart(s.At(p), n) && AllStart(s.At(Other(p)), m) && n >= 2 && m >= 1
    ensures GetsStuck(s)
  {
    FirstCall(s, p);
    var u :| Moved(s, u, p, 0, Subscribed([]), Some(AwaitingDuplex));
    StaysAllStart(s, u, Other(p), m);
    ReadSpawns(u, p, 0);
    var t :| Reach(u, t) && Spawned(u, t, p, 0);
    assert Poised(t, p, 1);
    PoisedGetsStuck(t, p, 1);
    GetsStuckLater(u, t);
    GetsStuckLater(s, u);
  }

  /** A side whose first two calls have got somewhere and whose others have not begun; the peer has no calls. */
  ghost predicate Front(s: State, p: Peer, n: nat, x: Thread, y: Thread) {
    && |s.At(p).threads| == n >= 3 && s.At(p).record.Some?
    && s.At(p).threads[0] == x && s.At(p).threads[1] == y
    && (forall j :: 2 <= j < n ==> s.At(p).threads[j] == Start)
    && AllStart(s.At(Other(p)), 0)
  }

  lemma FrontMoves(s: State, t: State, p: Peer, n: nat, x: Thread, y: Thread, i: nat, stage: Thread,
                   record: Option<RemoteState>)
    requires Front(s, p, n, x, y) && Moved(s, t, p, i, stage, record) && i < 2 && record.Some?
    ensures Front(t, p, n, if i == 0 then stage else x, if i == 1 then stage else y)
  {
    StaysAllStart(s, t, Other(p), 0);
  }

  ghost predicate FrontReaches(s: State, p: Peer, n: nat, x: Thread, y: Thread) {
    exists t :: Reach(s, t) && Front(t, p, n, x, y)
  }

  lemma FrontTrans(s: State, t: State, p: Peer, n: nat, x: Thread, y: Thread)
    requires Reach(s, t) && FrontReaches(t, p, n, x, y)
    ensures FrontReaches(s, p, n, x, y)
  {
    var u :| Reach(t, u) && Front(u, p, n, x, y);
    ReachTrans(s, t, u);
  }

  lemma FirstMoves(s: State, p: Peer, n: nat, x: Thread, y: Thread, stage: Thread, record: Option<RemoteState>)
    requires Front(s, p, n, x, y) && CanMove(s, p, 0, stage, record) && record.Some?
    ensures FrontReaches(s, p, n, stage, y)
  {
    var t :| Moved(s, t, p, 0, stage, record);
    FrontMoves(s, t, p, n, x, y, 0, stage, record);
  }

  lemma SecondMoves(s: State, p: Peer, n: nat, x: Thread, y: Thread, stage: Thread, record: Option<RemoteState>)
    requires Front(s, p, n, x, y) && CanMove(s, p, 1, stage, record) && record.Some?
    ensures FrontReaches(s, p, n, x, stage)
  {
    var t :| Moved(s, t, p, 1, stage, record);
    FrontMoves(s, t, p, n, x, y, 1, stage, record);
  }

  lemma SecondStores(s: State, p: Peer, n: nat)
    requires Front(s, p, n, Ping, Start)
    ensures FrontReaches(s, p, n, Ping, Ping)
  {
    ToPing(s, p, 1);
    SecondMoves(s, p, n, Ping, Start, Ping, Some(Connecting));
  }

  /** Two calls of an otherwise untouched side store their clients, before either holds the lock for its duplex call. */
  lemma TwoStore(s: State, p: Peer, n: nat)
    requires Front(s, p, n, Start, Start)
    ensures FrontReaches(s, p, n, Ping, Ping)
  {
    ToPing(s, p, 0);
    FirstMoves(s, p, n, Start, Start, Ping, Some(Connecting));
    var u :| Reach(s, u) && Front(u, p, n, Ping, Start);
    SecondStores(u, p, n);
    FrontTrans(s, u, p, n, Ping, Ping);
  }

  lemma SecondCalls(s: State, p: Peer, n: nat)
    requires Front(s, p, n, Subscribed([]), Ping)
    ensures FrontReaches(s, p, n, Subscribed([]), Subscribed([]))
  {
    PingToCall(s, p, 1);
    SecondMoves(s, p, n, Subscribed([]), Ping, Subscribed([]), Some(AwaitingDuplex));
  }

  lemma TwoCall(s: State, p: Peer, n: nat)
    requires Front(s, p, n, Ping, Ping)
    ensures FrontReaches(s, p, n, Subscribed([]), Subscribed([]))
  {
    PingToCall(s, p, 0);
    FirstMoves(s, p, n, Ping, Ping, Subscribed([]), Some(AwaitingDuplex));
    var u :| Reach(s, u) && Front(u, p, n, Subscribed([]), Ping);
    SecondCalls(u, p, n);
    FrontTrans(s, u, p, n, Subscribed([]), Subscribed([]));
  }

  lemma TwoSpawnedIsPoised(s: State, u: State, t: State, p: Peer, n: nat)
    requires Front(s, p, n, Subscribed([]), Subscribed([]))
    requires Spawned(s, u, p, 0) && Spawned(u, t, p, 1)
    ensures Poised(t, p, 2)
  {
    assert t.At(Other(p)).threads == [Start, Start];
  }

  lemma TwoRead(s: State, p: Peer, n: nat)
    requires Front(s, p, n, Subscribed([]), Subscribed([]))
    ensures GetsStuck(s)
  {
    ReadSpawns(s, p, 0);
    var u :| Reach(s, u) && Spawned(s, u, p, 0);
    ReadSpawns(u, p, 1);
    var t :| Reach(u, t) && Spawned(u, t, p, 1);
    TwoSpawnedIsPoised(s, u, t, p, n);
    PoisedGetsStuck(t, p, 2);
    GetsStuckLater(u, t);
    GetsStuckLater(s, u);
  }

  /** Three calls here, none there: two calls make the peer start two. */
  lemma ThreeAgainstNone(s: State, p: Peer, n: nat)
    requires AllStart(s.At(p), n) && AllStart(s.At(Other(p)), 0) && n >= 3
    ensures GetsStuck(s)
  {
    TwoStore(s, p, n);
    var u :| Reach(s, u) && Front(u, p, n, Ping, Ping);
    TwoCall(u, p, n);
    var v :| Reach(u, v) && Front(v, p, n, Subscribed([]), Subscribed([]));
    TwoRead(v, p, n);
    GetsStuckLater(u, v);
    GetsStuckLater(s, u);
  }

  /** With three or more initial calls, a schedule that even a fair lock allows ends with both peers waiting. */
  lemma ManyCallsGetStuck(a: nat, b: nat)
    requires a + b >= 3
    ensures GetsStuck(Init(a, b))
  {
    var s := Init(a, b);
    assert Other(A) == B && Other(B) == A;
    if a >= 2 && b >= 1 {
      TwoAgainstOne(s, A, a, b);
    } else if b >= 2 && a >= 1 {
      TwoAgainstOne(s, B, b, a);
    } else if b == 0 {
      ThreeAgainstNone(s, A, a);
    } else {
      ThreeAgainstNone(s, B, b);
    }
  }

  /** Every schedule that cannot be continued connects both peers exactly when one or two calls are made at first. */
  lemma ConnectsIff(a: nat, b: nat)
    ensures AlwaysConnects(a, b) <==> 1 <= a + b <= 2
  {
    if a + b == 0 {
      var s := Init(0, 0);
      assert Path(s, [], s, false);
      assert Stuck(s);
      assert s.At(A).record == Some(Disconnected);
      assert !Finished(s);
    } else if a + b <= 2 {
      FewCallsConnect(a, b);
    } else {
      ManyCallsGetStuck(a, b);
      var t :| Reach(Init(a, b), t) && Stuck(t) && !Finished(t);
      var acts :| Path(Init(a, b), acts, t, true);
      PathUnfair(Init(a, b), acts, t);
    }
  }

  /** From every state a schedule reaches it can be continued to its end. */
  lemma {:induction false} ScheduleEnds(s: State, a: nat, b: nat)
    requires Inv(s, a, b)
    ensures exists t :: Reach(s, t) && Stuck(t) && Inv(t, a, b)
    decreases Work(s), Events(s)
  {
    if Stuck(s) {
      ReachSelf(s);
    } else {
      var act :| FaultFree(act) && Free(s, act);
      EveryStepDecreases(s, act, a, b);
      StepKeepsInv(s, act, a, b);
      ReachByStep(s, act);
      ScheduleEnds(Do(s, act), a, b);
      var t :| Reach(Do(s, act), t) && Stuck(t) && Inv(t, a, b);
      ReachTrans(s, Do(s, act), t);
    }
  }

  /** One or two calls: whatever has happened so far, both peers can still be connected, and cannot fail to be. */
  lemma FewCallsReachConnection(a: nat, b: nat, acts: seq<Action>, s: State)
    requires 1 <= a + b <= 2 && Path(Init(a, b), acts, s, true)
    ensures exists t :: Reach(s, t) && Finished(t)
  {
    InitInv(a, b);
    PathKeepsInv(Init(a, b), acts, s, true, a, b);
    ScheduleEnds(s, a, b);
    var t :| Reach(s, t) && Stuck(t) && Inv(t, a, b);
    FewCallsConnect(a, b);
    assert Reach(Init(a, b), s);
    ReachTrans(Init(a, b), s, t);
    var all :| Path(Init(a, b), all, t, true);
    PathUnfair(Init(a, b), all, t);
  }
}
