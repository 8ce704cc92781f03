/**
 The handshake without failures, deadlines or timers: every schedule ends, and
 it ends with both peers connected exactly when one or two calls were made at first.
 With three or more, calls can block each other: a call under way holds the read
 guard of its client, a second one on the same peer has already set Connecting
 and waits to write that client, and on the other peer the same has happened.
 */
module DuplexProgress {
  import opened Common
  import opened RemoteStore
  import opened Duplex

  // ----- runs -----

  function Fresh(n: nat): Side {
    Side(Some(Disconnected), seq(n, i => Start), false)
  }

  /** Two peers that know each other, with so many connect calls just made on each. */
  function Init(a: nat, b: nat): State {
    State(Fresh(a), Fresh(b))
  }

  function Calls(a: nat, b: nat, p: Peer): nat { if p == A then a else b }

  predicate NoWriterWaits(ts: seq<Thread>) {
    forall j :: 0 <= j < |ts| ==> !ts[j].StoreClient?
  }

  /** The action is possible even if a waiting writer of the client keeps new readers out. */
  predicate Free(s: State, a: Action) {
    Can(s, a) && (a.PingOk? || a.CallPeer? || a.Fetched? ==> NoWriterWaits(s.At(a.p).threads))
  }

  /** A schedule of fault-free actions; with `fair`, one that a lock in which writers go first also allows. */
  ghost predicate Path(s: State, acts: seq<Action>, t: State, fair: bool)
    decreases |acts|
  {
    if acts == [] then s == t
    else
      && FaultFree(acts[0]) && Can(s, acts[0]) && (fair ==> Free(s, acts[0]))
      && Path(Do(s, acts[0]), acts[1..], t, fair)
  }

  /** Nothing fault-free can happen any more, with writers going first. */
  ghost predicate Stuck(s: State) {
    forall a: Action :: FaultFree(a) ==> !Free(s, a)
  }

  ghost predicate Finished(s: State) {
    forall p ::
      && s.At(p).record == Some(Connected)
      && forall i :: 0 <= i < |s.At(p).threads| ==> s.At(p).threads[i] == Done
  }

  /** Every schedule that cannot be continued has connected both peers. */
  ghost predicate AlwaysConnects(a: nat, b: nat) {
    forall acts, t :: Path(Init(a, b), acts, t, false) && Stuck(t) ==> Finished(t)
  }

  // ----- invariant of fault-free schedules -----

  /** The call has set Connecting and not yet AwaitingDuplex. */
  predicate Opening(t: Thread) {
    t.Certify? || t.Build? || t.StoreClient? || t.Ping? || t.Announce?
  }

  /** The call has set AwaitingDuplex and not yet Connected. */
  predicate Waiting(t: Thread) {
    t.Call? || InCall(t) || t.Granted?
  }

  /** The call's handler has read the record. */
  predicate HasRead(t: Thread) {
    t.Parked? || t.Checking? || t.Granted? || t.Fetch? || t.Done?
  }

  function ReadCount(ts: seq<Thread>): nat {
    if ts == [] then 0 else ReadCount(ts[..|ts| - 1]) + if HasRead(ts[|ts| - 1]) then 1 else 0
  }

  ghost predicate SomeOpening(ts: seq<Thread>) {
    exists i :: 0 <= i < |ts| && Opening(ts[i])
  }

  ghost predicate SomeWaiting(ts: seq<Thread>) {
    exists i :: 0 <= i < |ts| && Waiting(ts[i])
  }

  predicate Healthy(t: Thread) { !t.Failing? && !t.Deaf? }

  /** What one side keeps: no failures, and a record that some call accounts for. */
  ghost predicate SideInv(side: Side) {
    && (forall i :: 0 <= i < |side.threads| ==> Healthy(side.threads[i]))
    && side.record.Some?
    && match side.record.value
       case Disconnected => forall i :: 0 <= i < |side.threads| ==> side.threads[i] == Start
       case Connecting => SomeOpening(side.threads)
       case AwaitingDuplex => SomeWaiting(side.threads)
       case Connected => side.threads != []
       case Error(_) => false
  }

  /** New calls on one side are paid for by handlers there that have read, and only one side ever gets any. */
  ghost predicate SpawnInv(s: State, a: nat, b: nat, p: Peer) {
    var mine, theirs := s.At(p).threads, s.At(Other(p)).threads;
    && Calls(a, b, p) <= |mine| <= Calls(a, b, p) + ReadCount(theirs)
    && (|mine| > Calls(a, b, p) ==> |theirs| == Calls(a, b, Other(p)))
    && (ReadCount(theirs) > 0 ==> mine != [])
  }

  ghost predicate Inv(s: State, a: nat, b: nat) {
    forall p :: SideInv(s.At(p)) && SpawnInv(s, a, b, p) && NoLostWakeup(s, p)
  }

  lemma {:induction false} ReadCountOfStarts(ts: seq<Thread>)
    requires forall i :: 0 <= i < |ts| ==> ts[i] == Start
    ensures ReadCount(ts) == 0
  {
    if ts == [] {
    } else {
      ReadCountOfStarts(ts[..|ts| - 1]);
    }
  }

  lemma {:induction false} ReadCountBound(ts: seq<Thread>, i: nat)
    requires i < |ts| && !HasRead(ts[i])
    ensures ReadCount(ts) <= |ts| - 1
  {
    if i < |ts| - 1 {
      ReadCountBound(ts[..|ts| - 1], i);
    } else {
      ReadCountMax(ts[..|ts| - 1]);
    }
  }

  lemma {:induction false} ReadCountMax(ts: seq<Thread>)
    ensures ReadCount(ts) <= |ts|
  {
    if ts == [] {
    } else {
      ReadCountMax(ts[..|ts| - 1]);
    }
  }

  lemma {:induction false} ReadCountPositive(ts: seq<Thread>, i: nat)
    requires i < |ts| && HasRead(ts[i])
    ensures ReadCount(ts) > 0
  {
    if i < |ts| - 1 {
      ReadCountPositive(ts[..|ts| - 1], i);
    }
  }

  /** Threads that only move on count at least as before; one that reads now counts one more. */
  lemma {:induction false} ReadCountGrows(ts: seq<Thread>, us: seq<Thread>)
    requires |ts| <= |us|
    requires forall i :: 0 <= i < |ts| && HasRead(ts[i]) ==> HasRead(us[i])
    ensures ReadCount(ts) <= ReadCount(us)
    ensures (exists i :: 0 <= i < |ts| && !HasRead(ts[i]) && HasRead(us[i])) ==> ReadCount(ts) < ReadCount(us)
    decreases |us|
  {
    if us == [] {
    } else {
      var n := |us| - 1;
      if |ts| <= n {
        ReadCountGrows(ts, us[..n]);
      } else {
        ReadCountGrows(ts[..n], us[..n]);
      }
    }
  }

  lemma InitInv(a: nat, b: nat)
    ensures Inv(Init(a, b), a, b)
  {
    var s := Init(a, b);
    ReadCountOfStarts(s.a.threads);
    ReadCountOfStarts(s.b.threads);
  }

  lemma ThreadStays(s: State, act: Action, p: Peer, i: nat)
    requires Can(s, act) && FaultFree(act) && i < |s.At(p).threads|
    ensures var before, after := s.At(p).threads[i], NewThread(s, act, p, i);
      && (Healthy(before) ==> Healthy(after))
      && (Opening(before) && !(act.Await? && act.p == p) ==> Opening(after))
      && (Waiting(before) && !(act.Finish? && act.p == p) ==> Waiting(after))
      && (before == Start && !(act.Begin? && act.p == p) ==> after == Start)
      && (HasRead(before) ==> HasRead(after))
      && (HasRead(after) && !HasRead(before) ==> act == Read(p, i))
  {
  }

  lemma StepKeepsSideInv(s: State, act: Action, p: Peer)
    requires SideInv(s.At(p)) && Can(s, act) && FaultFree(act)
    ensures SideInv(Do(s, act).At(p))
  {
    DoAt(s, act, p);
    var side, next := s.At(p), NewSide(s, act, p);
    forall i | 0 <= i < |side.threads|
      ensures Healthy(next.threads[i])
      ensures side.threads[i] == Start && !(act.Begin? && act.p == p) ==> next.threads[i] == Start
      ensures Opening(side.threads[i]) && !(act.Await? && act.p == p) ==> Opening(next.threads[i])
      ensures Waiting(side.threads[i]) && !(act.Finish? && act.p == p) ==> Waiting(next.threads[i])
    {
      ThreadStays(s, act, p, i);
    }
    RecordHasItsCall(s, act, p);
  }

  /** The action that changes a record leaves its own call at the stage the record speaks of. */
  lemma RecordHasItsCall(s: State, act: Action, p: Peer)
    requires SideInv(s.At(p)) && Can(s, act) && FaultFree(act)
    ensures NextRecord(s, act, p).Some?
    ensures NextRecord(s, act, p) != s.At(p).record ==>
      && act.p == p && act.i < |s.At(p).threads|
      && match NextRecord(s, act, p).value
         case Connecting => Opening(NewThreads(s, act, p)[act.i])
         case AwaitingDuplex => Waiting(NewThreads(s, act, p)[act.i])
         case Connected => true
         case Disconnected => false
         case Error(_) => false
    ensures act.p == p && act.Begin? ==>
      NextRecord(s, act, p) == Some(Connecting) && Opening(NewThreads(s, act, p)[act.i])
    ensures act.p == p && act.Await? ==>
      NextRecord(s, act, p) == Some(AwaitingDuplex) && Waiting(NewThreads(s, act, p)[act.i])
    ensures act.p == p && act.Finish? ==> NextRecord(s, act, p) == Some(Connected)
  {
    if act.p == p {
      assert NewThreads(s, act, p)[act.i] == NewThread(s, act, p, act.i);
    }
  }

  lemma StartsCountNothing(ts: seq<Thread>, n: nat)
    requires n <= |ts| <= n + 1 && (|ts| > n ==> ts[n] == Start)
    ensures ReadCount(ts) == ReadCount(ts[..n])
  {
    if |ts| == n { assert ts[..n] == ts; }
  }

  /** Calls never stop counting as read, and only reading makes one count. */
  lemma ReadsOverStep(s: State, act: Action, p: Peer)
    requires Can(s, act) && FaultFree(act)
    ensures var before, after := ReadCount(s.At(p).threads), ReadCount(Do(s, act).At(p).threads);
      if act.Read? && act.p == p then before < after else before == after
  {
    DoAt(s, act, p);
    var ts, us := s.At(p).threads, NewThreads(s, act, p);
    forall i | 0 <= i < |ts|
      ensures us[i] == NewThread(s, act, p, i)
      ensures HasRead(ts[i]) ==> HasRead(us[i])
      ensures HasRead(us[i]) && !HasRead(ts[i]) ==> act == Read(p, i)
    {
      ThreadStays(s, act, p, i);
    }
    if act.Read? && act.p == p {
      ReadCountGrows(ts, us);
      assert !HasRead(ts[act.i]) && HasRead(us[act.i]);
    } else {
      ReadCountSame(ts, us[..|ts|]);
      StartsCountNothing(us, |ts|);
    }
  }

  lemma {:induction false} ReadCountSame(ts: seq<Thread>, us: seq<Thread>)
    requires |ts| == |us| && forall i :: 0 <= i < |ts| ==> HasRead(us[i]) == HasRead(ts[i])
    ensures ReadCount(us) == ReadCount(ts)
  {
    if ts == [] {
    } else {
      ReadCountSame(ts[..|ts| - 1], us[..|us| - 1]);
    }
  }

  /** A side that gets a new call has none beyond `Start`, so it has not paid for any call of the other side. */
  lemma OnlyOneSideSpawns(s: State, act: Action, a: nat, b: nat, p: Peer)
    requires SideInv(s.At(p)) && SpawnInv(s, a, b, p) && SpawnInv(s, a, b, Other(p))
    requires Can(s, act) && FaultFree(act) && Spawns(s, act, p)
    ensures |s.At(Other(p)).threads| == Calls(a, b, Other(p))
    ensures ReadCount(s.At(p).threads) == 0
  {
    ReadCountOfStarts(s.At(p).threads);
  }

  lemma StepKeepsSpawnInv(s: State, act: Action, a: nat, b: nat, p: Peer)
    requires SideInv(s.At(p)) && SideInv(s.At(Other(p)))
    requires SpawnInv(s, a, b, p) && SpawnInv(s, a, b, Other(p))
    requires Can(s, act) && FaultFree(act)
    ensures SpawnInv(Do(s, act), a, b, p)
  {
    var q := Other(p);
    var t := Do(s, act);
    DoAt(s, act, p);
    DoAt(s, act, q);
    ReadsOverStep(s, act, q);
    assert |t.At(p).threads| == |s.At(p).threads| + if Spawns(s, act, p) then 1 else 0;
    assert |t.At(q).threads| == |s.At(q).threads| + if Spawns(s, act, q) then 1 else 0;
    if Spawns(s, act, p) {
      OnlyOneSideSpawns(s, act, a, b, p);
    }
    if Spawns(s, act, q) {
      OnlyOneSideSpawns(s, act, a, b, q);
    }
    if act.Read? && act.p == q && s.At(p).threads == [] {
      assert s.At(p).record == Some(Disconnected);
    }
  }

  lemma StepKeepsInv(s: State, act: Action, a: nat, b: nat)
    requires Inv(s, a, b) && Can(s, act) && FaultFree(act)
    ensures Inv(Do(s, act), a, b)
  {
    forall p
      ensures SideInv(Do(s, act).At(p)) && SpawnInv(Do(s, act), a, b, p) && NoLostWakeup(Do(s, act), p)
    {
      assert SideInv(s.At(p)) && NoLostWakeup(s, p) && SpawnInv(s, a, b, p);
      assert SideInv(s.At(Other(p))) && SpawnInv(s, a, b, Other(p));
      StepKeepsSideInv(s, act, p);
      StepKeepsSpawnInv(s, act, a, b, p);
      StepKeepsNoLostWakeup(s, act, p);
    }
  }

  lemma {:induction false} PathKeepsInv(s: State, acts: seq<Action>, t: State, fair: bool, a: nat, b: nat)
    requires Path(s, acts, t, fair) && Inv(s, a, b)
    ensures Inv(t, a, b)
    decreases |acts|
  {
    if acts == [] {
    } else {
      StepKeepsInv(s, acts[0], a, b);
      PathKeepsInv(Do(s, acts[0]), acts[1..], t, fair, a, b);
    }
  }

  // ----- where a schedule can end -----

  /** Where calls can stand when nothing can move: done, parked with nothing to read, or kept out by the lock. */
  predicate AtRest(t: Thread) {
    t.Done? || t == Parked([]) || t.StoreClient? || t.Ping? || t.Call? || t.Fetch?
  }

  ghost predicate SomeParked(ts: seq<Thread>) {
    exists i :: 0 <= i < |ts| && ts[i] == Parked([])
  }

  ghost predicate SomeWriter(ts: seq<Thread>) {
    exists i :: 0 <= i < |ts| && ts[i] == StoreClient
  }

  /** The action that would move a call on, if nothing keeps it back. */
  function Onward(t: Thread, p: Peer, i: nat): Action {
    match t
    case Start => Begin(p, i)
    case Certify => Certified(p, i)
    case Build => Built(p, i)
    case StoreClient => Stored(p, i)
    case Ping => PingOk(p, i)
    case Announce => Await(p, i)
    case Call => CallPeer(p, i)
    case Subscribed(_) => Read(p, i)
    case Parked(_) => Receive(p, i)
    case Checking(_) => Check(p, i)
    case Granted => Finish(p, i)
    case Fetch => Fetched(p, i)
    case Deaf => Fetched(p, i)
    case Failing(_) => Fetched(p, i)
    case Done => Fetched(p, i)
  }

  lemma StuckIsAtRest(s: State, p: Peer, i: nat)
    requires Stuck(s) && i < |s.At(p).threads| && Healthy(s.At(p).threads[i])
    ensures AtRest(s.At(p).threads[i])
    ensures s.At(p).threads[i] == StoreClient ==> !NoGuard(s.At(p).threads)
    ensures s.At(p).threads[i].Ping? || s.At(p).threads[i].Call? || s.At(p).threads[i].Fetch? ==>
      !NoWriterWaits(s.At(p).threads)
  {
    var act := Onward(s.At(p).threads[i], p, i);
    assert FaultFree(act) && !Free(s, act);
  }

  /** In a stuck state, a side with an unfinished call has a parked one. */
  lemma UnfinishedIsParked(s: State, p: Peer, i: nat)
    requires Stuck(s) && SideInv(s.At(p))
    requires i < |s.At(p).threads| && s.At(p).threads[i] != Done
    ensures SomeParked(s.At(p).threads)
  {
    var ts := s.At(p).threads;
    forall j | 0 <= j < |ts|
      ensures AtRest(ts[j]) && (ts[j] == StoreClient ==> !NoGuard(ts))
      ensures ts[j].Ping? || ts[j].Call? || ts[j].Fetch? ==> !NoWriterWaits(ts)
    {
      StuckIsAtRest(s, p, j);
    }
    if ts[i] != Parked([]) {
      if ts[i] != StoreClient {
        var w :| 0 <= w < |ts| && ts[w].StoreClient?;
        assert ts[w] == StoreClient;
      }
      var g :| 0 <= g < |ts| && InCall(ts[g]);
      assert ts[g] == Parked([]);
    }
  }

  /** A parked call waits for a peer that is Connecting. */
  lemma ParkedPeerIsConnecting(s: State, a: nat, b: nat, p: Peer)
    requires Stuck(s) && SomeParked(s.At(p).threads)
    requires SideInv(s.At(Other(p))) && NoLostWakeup(s, p) && SpawnInv(s, a, b, Other(p))
    ensures s.At(Other(p)).record == Some(Connecting)
  {
    var q := Other(p);
    var i :| 0 <= i < |s.At(p).threads| && s.At(p).threads[i] == Parked([]);
    assert WillWake(s.At(p).threads[i], s.At(q).record);
    ReadCountPositive(s.At(p).threads, i);
    StuckIsAtRest(s, q, 0);
  }

  lemma OpeningNeedsWriter(s: State, q: Peer)
    requires Stuck(s) && SideInv(s.At(q)) && s.At(q).record == Some(Connecting)
    ensures SomeWriter(s.At(q).threads)
  {
    var ts := s.At(q).threads;
    var j :| 0 <= j < |ts| && Opening(ts[j]);
    StuckIsAtRest(s, q, j);
    if ts[j] != StoreClient {
      var w :| 0 <= w < |ts| && ts[w].StoreClient?;
      assert ts[w] == StoreClient;
    }
  }

  /** So the peer of a parked call has another call in front of its own lock. */
  lemma ParkedNeedsWriter(s: State, a: nat, b: nat, p: Peer)
    requires Stuck(s) && Inv(s, a, b) && SomeParked(s.At(p).threads)
    ensures SomeWriter(s.At(Other(p)).threads)
  {
    assert SideInv(s.At(Other(p))) && NoLostWakeup(s, p) && SpawnInv(s, a, b, Other(p));
    ParkedPeerIsConnecting(s, a, b, p);
    OpeningNeedsWriter(s, Other(p));
  }

  /** So an unfinished stuck state has a parked and a blocked call on both sides. */
  lemma MutualWait(s: State, a: nat, b: nat, p: Peer, i: nat)
    requires Stuck(s) && Inv(s, a, b)
    requires i < |s.At(p).threads| && s.At(p).threads[i] != Done
    ensures WaitsOnItself(s.a) && WaitsOnItself(s.b)
  {
    var q := Other(p);
    assert SideInv(s.At(p)) && SideInv(s.At(q));
    UnfinishedIsParked(s, p, i);
    ParkedNeedsWriter(s, a, b, p);
    var j :| 0 <= j < |s.At(q).threads| && s.At(q).threads[j] == StoreClient;
    UnfinishedIsParked(s, q, j);
    ParkedNeedsWriter(s, a, b, q);
  }

  lemma ParkedAndWriter(ts: seq<Thread>)
    requires SomeParked(ts) && SomeWriter(ts)
    ensures |ts| >= 2 && ReadCount(ts) <= |ts| - 1
  {
    var i :| 0 <= i < |ts| && ts[i] == Parked([]);
    var j :| 0 <= j < |ts| && ts[j] == StoreClient;
    ReadCountBound(ts, j);
  }

  /** A side with a parked and a blocked call. */
  ghost predicate WaitsOnItself(side: Side) {
    SomeParked(side.threads) && SomeWriter(side.threads)
  }

  /** With at most two initial calls in all there are never enough of them for that on both sides. */
  lemma FewCallsDoNotWait(s: State, a: nat, b: nat)
    requires Inv(s, a, b) && a + b <= 2
    ensures !(WaitsOnItself(s.a) && WaitsOnItself(s.b))
  {
    assert SpawnInv(s, a, b, A) && SpawnInv(s, a, b, B);
    if WaitsOnItself(s.a) { ParkedAndWriter(s.a.threads); }
    if WaitsOnItself(s.b) { ParkedAndWriter(s.b.threads); }
  }

  ghost predicate AllDone(ts: seq<Thread>) {
    forall i :: 0 <= i < |ts| ==> ts[i] == Done
  }

  /** A side without calls would have been given one by the other side's handlers. */
  lemma EverySideHasCalls(s: State, a: nat, b: nat, p: Peer)
    requires SpawnInv(s, a, b, p) && SpawnInv(s, a, b, Other(p)) && a + b >= 1
    requires AllDone(s.At(Other(p)).threads)
    ensures s.At(p).threads != []
  {
    assert Calls(a, b, p) + Calls(a, b, Other(p)) == a + b;
    if s.At(Other(p)).threads != [] {
      ReadCountPositive(s.At(Other(p)).threads, 0);
    }
  }

  lemma AllDoneIsConnected(s: State, a: nat, b: nat, p: Peer)
    requires SideInv(s.At(p)) && SpawnInv(s, a, b, p) && SpawnInv(s, a, b, Other(p)) && a + b >= 1
    requires AllDone(s.At(p).threads) && AllDone(s.At(Other(p)).threads)
    ensures s.At(p).record == Some(Connected)
  {
    EverySideHasCalls(s, a, b, p);
    assert s.At(p).threads[0] == Done;
  }

  lemma AllDoneIsFinished(s: State, a: nat, b: nat)
    requires Inv(s, a, b) && a + b >= 1
    requires AllDone(s.a.threads) && AllDone(s.b.threads)
    ensures Finished(s)
  {
    forall p
      ensures s.At(p).record == Some(Connected) && AllDone(s.At(p).threads)
    {
      assert AllDone(s.At(p).threads) && AllDone(s.At(Other(p)).threads);
      assert SideInv(s.At(p)) && SpawnInv(s, a, b, p) && SpawnInv(s, a, b, Other(p));
      AllDoneIsConnected(s, a, b, p);
    }
  }

  lemma FewCallsAllDone(s: State, a: nat, b: nat, p: Peer)
    requires Stuck(s) && Inv(s, a, b) && a + b <= 2
    ensures AllDone(s.At(p).threads)
  {
    FewCallsDoNotWait(s, a, b);
    forall i | 0 <= i < |s.At(p).threads|
      ensures s.At(p).threads[i] == Done
    {
      if s.At(p).threads[i] != Done {
        MutualWait(s, a, b, p, i);
      }
    }
  }

  /** With one or two initial calls, every schedule that cannot be continued has connected both peers. */
  lemma FewCallsConnect(a: nat, b: nat)
    requires 1 <= a + b <= 2
    ensures AlwaysConnects(a, b)
  {
    forall acts, t | Path(Init(a, b), acts, t, false) && Stuck(t)
      ensures Finished(t)
    {
      InitInv(a, b);
      PathKeepsInv(Init(a, b), acts, t, false, a, b);
      FewCallsAllDone(t, a, b, A);
      FewCallsAllDone(t, a, b, B);
      AllDoneIsFinished(t, a, b);
    }
  }

  // ----- every schedule ends -----

  /** How many steps a call has left, not counting events. */
  function Rank(t: Thread): nat {
    match t
    case Start => 11
    case Certify => 10
    case Build => 9
    case StoreClient => 8
    case Ping => 7
    case Announce => 6
    case Call => 5
    case Subscribed(_) => 4
    case Parked(_) => 3
    case Checking(_) => 3
    case Granted => 2
    case Fetch => 1
    case Deaf => 0
    case Failing(_) => 0
    case Done => 0
  }

  /** A call whose handler may still find the peer down might start one more call there. */
  function Weight(t: Thread, peerDown: bool): nat {
    Rank(t) + if peerDown && Rank(t) >= 4 then 12 else 0
  }

  function TotalWeight(ts: seq<Thread>, peerDown: bool): nat {
    if ts == [] then 0 else TotalWeight(ts[..|ts| - 1], peerDown) + Weight(ts[|ts| - 1], peerDown)
  }

  /** The events waiting to be taken, twice, and the checks under way. */
  function Backlog(t: Thread): nat {
    if HasUnread(t) then 2 * |t.unread| + (if t.Checking? then 1 else 0) else 0
  }

  function TotalBacklog(ts: seq<Thread>): nat {
    if ts == [] then 0 else TotalBacklog(ts[..|ts| - 1]) + Backlog(ts[|ts| - 1])
  }

  /** The measure: first the work of the calls, then the events. */
  function Work(s: State): nat {
    TotalWeight(s.a.threads, IsDown(s.b.record)) + TotalWeight(s.b.threads, IsDown(s.a.record))
  }

  function Events(s: State): nat {
    TotalBacklog(s.a.threads) + TotalBacklog(s.b.threads)
  }

  lemma {:induction false} WeightDrops(ts: seq<Thread>, us: seq<Thread>, d: bool, e: bool)
    requires |ts| == |us| && forall i :: 0 <= i < |ts| ==> Weight(us[i], e) <= Weight(ts[i], d)
    ensures TotalWeight(us, e) <= TotalWeight(ts, d)
  {
    if ts == [] {
    } else {
      WeightDrops(ts[..|ts| - 1], us[..|us| - 1], d, e);
    }
  }

  lemma {:induction false} WeightDropsAt(ts: seq<Thread>, us: seq<Thread>, d: bool, e: bool, k: nat)
    requires |ts| == |us| && forall i :: 0 <= i < |ts| ==> Weight(us[i], e) <= Weight(ts[i], d)
    requires k < |ts|
    ensures TotalWeight(us, e) + Weight(ts[k], d) <= TotalWeight(ts, d) + Weight(us[k], e)
  {
    if k < |ts| - 1 {
      WeightDropsAt(ts[..|ts| - 1], us[..|us| - 1], d, e, k);
    } else {
      WeightDrops(ts[..|ts| - 1], us[..|us| - 1], d, e);
    }
  }

  lemma {:induction false} BacklogDropsAt(ts: seq<Thread>, us: seq<Thread>, k: nat)
    requires |ts| == |us| && forall i :: 0 <= i < |ts| ==> Backlog(us[i]) <= Backlog(ts[i])
    requires k < |ts| && Backlog(us[k]) < Backlog(ts[k])
    ensures TotalBacklog(us) < TotalBacklog(ts)
  {
    if k < |ts| - 1 {
      BacklogDropsAt(ts[..|ts| - 1], us[..|us| - 1], k);
    } else {
      BacklogKeeps(ts[..|ts| - 1], us[..|us| - 1]);
    }
  }

  lemma {:induction false} BacklogKeeps(ts: seq<Thread>, us: seq<Thread>)
    requires |ts| == |us| && forall i :: 0 <= i < |ts| ==> Backlog(us[i]) <= Backlog(ts[i])
    ensures TotalBacklog(us) <= TotalBacklog(ts)
  {
    if ts == [] {
    } else {
      BacklogKeeps(ts[..|ts| - 1], us[..|us| - 1]);
    }
  }

  /** Neither record ever goes down, so no call gets heavier; the acting one gets lighter unless it only handles an
      event. */
  lemma ThreadWeight(s: State, act: Action, p: Peer, i: nat)
    requires Can(s, act) && FaultFree(act) && i < |s.At(p).threads|
    requires SideInv(s.At(Other(p)))
    ensures var q := Other(p);
      Weight(NewThread(s, act, p, i), IsDown(NextRecord(s, act, q)))
      <= Weight(s.At(p).threads[i], IsDown(s.At(q).record))
    ensures var q := Other(p);
      act.p == p && act.i == i && !act.Receive? && !act.Check? ==>
        Weight(NewThread(s, act, p, i), IsDown(NextRecord(s, act, q))) + (if Spawns(s, act, q) then 12 else 0)
        < Weight(s.At(p).threads[i], IsDown(s.At(q).record))
  {
  }

  /** The calls a side has already: none gets heavier, and the acting one gets lighter. */
  lemma KeptWeight(s: State, act: Action, p: Peer)
    requires Can(s, act) && FaultFree(act) && SideInv(s.At(Other(p)))
    ensures var q, n := Other(p), |s.At(p).threads|;
      var before := TotalWeight(s.At(p).threads, IsDown(s.At(q).record));
      var after := TotalWeight(NewThreads(s, act, p)[..n], IsDown(NextRecord(s, act, q)));
      && after <= before
      && (act.p == p && !act.Receive? && !act.Check? ==> after + (if Spawns(s, act, q) then 12 else 0) < before)
  {
    var q := Other(p);
    var ts, kept := s.At(p).threads, NewThreads(s, act, p)[..|s.At(p).threads|];
    var d, e := IsDown(s.At(q).record), IsDown(NextRecord(s, act, q));
    forall i | 0 <= i < |ts|
      ensures Weight(kept[i], e) <= Weight(ts[i], d)
    {
      ThreadWeight(s, act, p, i);
    }
    WeightDrops(ts, kept, d, e);
    if act.p == p && !act.Receive? && !act.Check? {
      ThreadWeight(s, act, p, act.i);
      WeightDropsAt(ts, kept, d, e, act.i);
    }
  }

  /** A new call weighs less than what its reader has given up: the reader's own peer is not down. */
  lemma SideWeight(s: State, act: Action, p: Peer)
    requires Can(s, act) && FaultFree(act) && SideInv(s.At(p)) && SideInv(s.At(Other(p)))
    ensures var q := Other(p);
      var before := TotalWeight(s.At(p).threads, IsDown(s.At(q).record));
      var after := TotalWeight(NewThreads(s, act, p), IsDown(NextRecord(s, act, q)));
      && after <= before + (if Spawns(s, act, p) then 11 else 0)
      && (act.p == p && !act.Receive? && !act.Check? ==>
            !Spawns(s, act, p) && after + (if Spawns(s, act, q) then 12 else 0) < before)
  {
    KeptWeight(s, act, p);
    var us, n := NewThreads(s, act, p), |s.At(p).threads|;
    if Spawns(s, act, p) {
      assert us == us[..n] + [Start] && us[..|us| - 1] == us[..n];
      assert s.At(Other(p)).threads[act.i].Subscribed?;
      assert !IsDown(s.At(Other(p)).record);
    } else {
      assert us == us[..n];
    }
  }

  lemma SideBacklog(s: State, act: Action, p: Peer)
    requires Can(s, act) && (act.Receive? || act.Check?)
    requires act.Check? ==> !IsReady(s.At(Other(act.p)).record)
    ensures TotalBacklog(NewThreads(s, act, p)) <= TotalBacklog(s.At(p).threads)
    ensures act.p == p ==> TotalBacklog(NewThreads(s, act, p)) < TotalBacklog(s.At(p).threads)
  {
    var ts, us := s.At(p).threads, NewThreads(s, act, p);
    forall i | 0 <= i < |ts|
      ensures Backlog(us[i]) <= Backlog(ts[i])
      ensures act.p == p && act.i == i ==> Backlog(us[i]) < Backlog(ts[i])
    {
      assert us[i] == NewThread(s, act, p, i);
    }
    BacklogKeeps(ts, us);
    if act.p == p {
      BacklogDropsAt(ts, us, act.i);
    }
  }

  /** A step other than an event without effect takes work off the calls. */
  lemma WorkDrops(s: State, act: Action)
    requires Can(s, act) && FaultFree(act) && SideInv(s.a) && SideInv(s.b)
    requires !act.Receive? && (act.Check? ==> IsReady(s.At(Other(act.p)).record))
    ensures Work(Do(s, act)) < Work(s)
  {
    SideWeight(s, act, A);
    SideWeight(s, act, B);
    if act.Check? { GrantIsLighter(s, act); }
  }

  /** Any other takes an event off the handlers. */
  lemma EventsDrop(s: State, act: Action)
    requires Can(s, act) && FaultFree(act) && SideInv(s.a) && SideInv(s.b)
    requires act.Receive? || (act.Check? && !IsReady(s.At(Other(act.p)).record))
    ensures Work(Do(s, act)) <= Work(s) && Events(Do(s, act)) < Events(s)
  {
    SideWeight(s, act, A);
    SideWeight(s, act, B);
    SideBacklog(s, act, A);
    SideBacklog(s, act, B);
  }

  /**
   Every fault-free step, from any state such schedules reach, takes work off the calls or leaves that alone and
   takes an event off the handlers. So no schedule goes on forever, however many calls there are.
   */
  lemma EveryStepDecreases(s: State, act: Action, a: nat, b: nat)
    requires Inv(s, a, b) && Can(s, act) && FaultFree(act)
    ensures var t := Do(s, act);
      Work(t) < Work(s) || (Work(t) == Work(s) && Events(t) < Events(s))
  {
    assert SideInv(s.At(A)) && SideInv(s.At(B));
    if act.Receive? || (act.Check? && !IsReady(s.At(Other(act.p)).record)) {
      EventsDrop(s, act);
    } else {
      WorkDrops(s, act);
    }
  }

  lemma GrantIsLighter(s: State, act: Action)
    requires Can(s, act) && act.Check? && IsReady(s.At(Other(act.p)).record)
    ensures TotalWeight(NewThreads(s, act, act.p), IsDown(NextRecord(s, act, Other(act.p))))
          < TotalWeight(s.At(act.p).threads, IsDown(s.At(Other(act.p)).record))
  {
    var p, q := act.p, Other(act.p);
    var ts, us := s.At(p).threads, NewThreads(s, act, p);
    forall i | 0 <= i < |ts|
      ensures us[i] == NewThread(s, act, p, i)
      ensures Weight(us[i], false) <= Weight(ts[i], false)
    {
    }
    WeightDropsAt(ts, us, false, false, act.i);
  }
}
