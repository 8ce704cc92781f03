/**
 The handshake's calls are attempts of the worker: whatever runs beside it, what one
 call of the two-peer system does, call by call and state by state, is what
 `RemoteWorker.Connect` does.
 */
module DuplexCalls {
  import opened Common
  import opened RemoteStore
  import opened Duplex
  import Worker

  /** The certificate error behind a failure state. */
  function CertErrorOf(next: RemoteState): Worker.CertError {
    if next == Disconnected then Worker.Offline
    else if next == Error(GroupCodeMismatch) then Worker.WrongGroupCode
    else Worker.OtherCertError
  }

  /** The answer that an action brings to its call, if it brings one. */
  function ReplyOf(a: Action): Option<Worker.Reply> {
    match a
    case Certified(_, _) => Some(Worker.CertReply(None))
    case CertFails(_, _, next) => Some(Worker.CertReply(Some(CertErrorOf(next))))
    case Built(_, _) => Some(Worker.ChannelReply(true))
    case BuildFails(_, _) => Some(Worker.ChannelReply(false))
    case PingOk(_, _) => Some(Worker.PingReply(true))
    case PingFails(_, _) => Some(Worker.PingReply(false))
    case Finish(_, _) => Some(Worker.DuplexReply(true))
    case CallFails(_, _) => Some(Worker.DuplexReply(false))
    case Deadline(_, _) => Some(Worker.DuplexReply(false))
    case _ => None
  }

  /** What an action does to its own call: an answer comes, or a state is set. */
  function Does(s: State, a: Action): seq<Worker.Entry> {
    (if ReplyOf(a).Some? then [Worker.Gets(ReplyOf(a).value)] else [])
    + (if StateSet(s, a).Some? then [Worker.Sets(StateSet(s, a).value)] else [])
  }

  predicate IsBy(a: Action, p: Peer, i: nat) {
    HasThread(a) && a.p == p && a.i == i
  }

  /** What call number `i` of `p` has done in the first `n` steps. */
  function CallLog(states: seq<State>, acts: seq<Action>, n: nat, p: Peer, i: nat): seq<Worker.Entry>
    requires n <= |acts| && n <= |states|
  {
    if n == 0 then []
    else
      CallLog(states, acts, n - 1, p, i)
      + if IsBy(acts[n - 1], p, i) then Does(states[n - 1], acts[n - 1]) else []
  }

  const BEGUN: seq<Worker.Entry> := [] + [Worker.Sets(Connecting)]
  const CERTIFIED: seq<Worker.Entry> := BEGUN + [Worker.Gets(Worker.CertReply(None))]
  const BUILT: seq<Worker.Entry> := CERTIFIED + [Worker.Gets(Worker.ChannelReply(true))]
  const PINGED: seq<Worker.Entry> := BUILT + [Worker.Gets(Worker.PingReply(true))]
  const AWAITING: seq<Worker.Entry> := PINGED + [Worker.Sets(AwaitingDuplex)]
  const CONNECTED: seq<Worker.Entry> := AWAITING + [Worker.Gets(Worker.DuplexReply(true)), Worker.Sets(Connected)]

  /** What an attempt has done by the time it is at a stage. */
  function LogUntil(t: Thread): seq<Worker.Entry> {
    match t
    case Start => []
    case Certify => BEGUN
    case Build => CERTIFIED
    case StoreClient => BUILT
    case Ping => BUILT
    case Announce => PINGED
    case Call => AWAITING
    case Subscribed(_) => AWAITING
    case Parked(_) => AWAITING
    case Checking(_) => AWAITING
    case Deaf => AWAITING
    case Granted => AWAITING
    case Fetch => CONNECTED
    case Failing(_) => []
    case Done => []
  }

  lemma SuccessLog()
    ensures CONNECTED == Worker.ConnectLog(Worker.Success)
  {
  }

  /** The logs of the attempts that fail, by where they do. */
  lemma FailureLogs(e: Worker.CertError)
    ensures BEGUN + [Worker.Gets(Worker.CertReply(Some(e)))] + [Worker.Sets(Worker.CertState(e))]
         == Worker.ConnectLog(Worker.CertFailed(e))
    ensures CERTIFIED + [Worker.Gets(Worker.ChannelReply(false))] + [Worker.Sets(Error(SslError))]
         == Worker.ConnectLog(Worker.TlsFailed)
    ensures BUILT + [Worker.Gets(Worker.PingReply(false))] + [Worker.Sets(Error(SslError))]
         == Worker.ConnectLog(Worker.PingFailed)
    ensures AWAITING + [Worker.Gets(Worker.DuplexReply(false))] + [Worker.Sets(Error(DuplexError))]
         == Worker.ConnectLog(Worker.DuplexFailed)
  {
  }

  lemma StagesArePrefixes(t: Thread)
    ensures LogUntil(t) <= CONNECTED
    ensures !t.Fetch? ==> Worker.Sets(Connected) !in LogUntil(t)
  {
  }

  ghost predicate FitsStage(log: seq<Worker.Entry>, t: Thread) {
    match t
    case Failing(next) => exists o :: o != Worker.Success && log + [Worker.Sets(next)] == Worker.ConnectLog(o)
    case Done => exists o :: log == Worker.ConnectLog(o)
    case _ => log == LogUntil(t)
  }

  /** The call's own steps that go well. */
  lemma StepFits(s: State, a: Action)
    requires HasThread(a) && Can(s, a) && FaultFree(a)
    ensures FitsStage(LogUntil(ThreadOf(s, a)) + Does(s, a), NextThread(s, a))
  {
    var log := LogUntil(ThreadOf(s, a));
    if a.Fetched? {
      SuccessLog();
      assert log + [] == log;
    } else if Does(s, a) == [] {
      assert log + [] == log;
    } else if a.Finish? {
      assert Does(s, a) == [Worker.Gets(Worker.DuplexReply(true)), Worker.Sets(Connected)];
    }
  }

  function FailureOf(a: Action): Worker.Outcome {
    match a
    case CertFails(_, _, next) => Worker.CertFailed(CertErrorOf(next))
    case BuildFails(_, _) => Worker.TlsFailed
    case PingFails(_, _) => Worker.PingFailed
    case _ => Worker.DuplexFailed
  }

  /** A failing step leads to the failure state that the worker sets for it. */
  lemma FailureFits(s: State, a: Action)
    requires HasThread(a) && Can(s, a) && !FaultFree(a) && !a.GiveUp? && !a.Lag?
    ensures FitsStage(LogUntil(ThreadOf(s, a)) + Does(s, a), NextThread(s, a))
  {
    FailureLogs(if a.CertFails? then CertErrorOf(a.next) else Worker.Offline);
    var reply := ReplyOf(a).value;
    assert Does(s, a) == [Worker.Gets(reply)];
    assert LogUntil(ThreadOf(s, a)) + Does(s, a) + [Worker.Sets(NextThread(s, a).next)]
        == Worker.ConnectLog(FailureOf(a));
  }

  lemma OwnStepFits(s: State, a: Action, log: seq<Worker.Entry>)
    requires HasThread(a) && Can(s, a) && FitsStage(log, ThreadOf(s, a))
    ensures FitsStage(log + Does(s, a), NextThread(s, a))
  {
    if a.GiveUp? {
      assert Does(s, a) == [Worker.Sets(ThreadOf(s, a).next)];
    } else if a.Lag? {
      assert log + Does(s, a) == log;
    } else if FaultFree(a) {
      StepFits(s, a);
    } else {
      FailureFits(s, a);
    }
  }

  lemma HearingFits(log: seq<Worker.Entry>, t: Thread, about: bool)
    requires FitsStage(log, t)
    ensures FitsStage(log, Hear(t, about))
  {
  }

  /** What a call has done fits its stage; a call that is not there has done nothing. */
  ghost predicate FitsAt(s: State, p: Peer, i: nat, log: seq<Worker.Entry>) {
    if i < |s.At(p).threads| then FitsStage(log, s.At(p).threads[i]) else log == []
  }

  /** A step for a call that is there: its own, or one that its handler may hear of. */
  lemma StepKeepsFit(s: State, a: Action, p: Peer, i: nat, log: seq<Worker.Entry>)
    requires Can(s, a) && i < |s.At(p).threads| && FitsStage(log, s.At(p).threads[i])
    ensures FitsAt(Do(s, a), p, i, if IsBy(a, p, i) then log + Does(s, a) else log)
  {
    DoAt(s, a, p);
    assert Do(s, a).At(p).threads[i] == NewThread(s, a, p, i);
    if IsBy(a, p, i) {
      OwnStepFits(s, a, log);
    } else {
      HearingFits(log, s.At(p).threads[i], !a.Noise?);
    }
  }

  /** What a step does for a call that is not there: it is not by that call, and at most it starts it. */
  lemma StepBefore(s: State, a: Action, p: Peer, i: nat)
    requires Can(s, a) && i >= |s.At(p).threads|
    ensures !IsBy(a, p, i) && FitsAt(Do(s, a), p, i, [])
  {
    DoAt(s, a, p);
  }

  lemma StepFrom(states: seq<State>, acts: seq<Action>, n: nat)
    requires Duplex.IsRun(states, acts) && n < |acts|
    ensures Can(states[n], acts[n]) && states[n + 1] == Do(states[n], acts[n])
  {
  }

  lemma {:induction false} AlwaysFits(states: seq<State>, acts: seq<Action>, n: nat, p: Peer, i: nat)
    requires Duplex.IsRun(states, acts) && n <= |acts|
    ensures FitsAt(states[n], p, i, CallLog(states, acts, n, p, i))
  {
    if n > 0 {
      AlwaysFits(states, acts, n - 1, p, i);
      StepFrom(states, acts, n - 1);
      CallLogNext(states, acts, n - 1, p, i);
      FitsNext(states[n - 1], acts[n - 1], p, i, CallLog(states, acts, n - 1, p, i));
    }
  }

  lemma CallLogNext(states: seq<State>, acts: seq<Action>, n: nat, p: Peer, i: nat)
    requires n < |acts| && n + 1 <= |states|
    ensures CallLog(states, acts, n + 1, p, i)
      == if IsBy(acts[n], p, i) then CallLog(states, acts, n, p, i) + Does(states[n], acts[n])
         else CallLog(states, acts, n, p, i)
  {
  }

  lemma FitsNext(s: State, a: Action, p: Peer, i: nat, log: seq<Worker.Entry>)
    requires Can(s, a) && FitsAt(s, p, i, log)
    ensures FitsAt(Do(s, a), p, i, if IsBy(a, p, i) then log + Does(s, a) else log)
  {
    if i < |s.At(p).threads| {
      StepKeepsFit(s, a, p, i, log);
    } else {
      StepBefore(s, a, p, i);
    }
  }

  ghost predicate IsPartOfAttempt(log: seq<Worker.Entry>) {
    exists o :: log <= Worker.ConnectLog(o)
  }

  ghost predicate IsAttempt(log: seq<Worker.Entry>) {
    exists o :: log == Worker.ConnectLog(o)
  }

  predicate ConnectedOnlyBySuccess(log: seq<Worker.Entry>) {
    Worker.Sets(Connected) in log ==> log == Worker.ConnectLog(Worker.Success)
  }

  lemma FailedAttempt(log: seq<Worker.Entry>, o: Worker.Outcome)
    requires o != Worker.Success && log <= Worker.ConnectLog(o)
    ensures Worker.Sets(Connected) !in log
  {
    assert forall e :: e in log ==> e in Worker.ConnectLog(o);
  }

  lemma UnderWayIsPart(log: seq<Worker.Entry>, t: Thread)
    requires FitsStage(log, t) && !t.Failing? && !t.Done?
    ensures IsPartOfAttempt(log) && ConnectedOnlyBySuccess(log)
  {
    StagesArePrefixes(t);
    SuccessLog();
    assert log <= Worker.ConnectLog(Worker.Success);
  }

  lemma EndedIsPart(log: seq<Worker.Entry>, t: Thread)
    requires FitsStage(log, t) && (t.Failing? || t.Done?)
    ensures IsPartOfAttempt(log) && ConnectedOnlyBySuccess(log) && (t.Done? ==> IsAttempt(log))
  {
    if t.Failing? {
      var o :| o != Worker.Success && log + [Worker.Sets(t.next)] == Worker.ConnectLog(o);
      assert log <= Worker.ConnectLog(o);
      FailedAttempt(log, o);
    } else {
      var o :| log == Worker.ConnectLog(o);
      assert log <= Worker.ConnectLog(o);
      if o != Worker.Success { FailedAttempt(log, o); }
    }
  }

  /**
   In every run of the two peers, with any failures and any number of calls at once, each call has done a part of one
   attempt as `RemoteWorker.Connect` makes it, and all of one when it is done; it has set Connected only in one that
   succeeds.
   */
  lemma CallsAreAttempts(states: seq<State>, acts: seq<Action>, n: nat, p: Peer, i: nat)
    requires Duplex.IsRun(states, acts) && n <= |acts| && i < |states[n].At(p).threads|
    ensures var log, t := CallLog(states, acts, n, p, i), states[n].At(p).threads[i];
      IsPartOfAttempt(log) && (t == Done ==> IsAttempt(log)) && ConnectedOnlyBySuccess(log)
  {
    AlwaysFits(states, acts, n, p, i);
    var log, t := CallLog(states, acts, n, p, i), states[n].At(p).threads[i];
    if t.Failing? || t.Done? {
      EndedIsPart(log, t);
    } else {
      UnderWayIsPart(log, t);
    }
  }

  // ----- and every way an attempt can fail happens to some call -----

  /** The only call of `p` is at a stage, and the other side does not know of anything. */
  ghost predicate Alone(s: State, p: Peer, t: Thread) {
    s.At(p).threads == [t] && s.At(Other(p)).record == None
  }

  ghost predicate RunsTo(states: seq<State>, acts: seq<Action>, p: Peer, log: seq<Worker.Entry>, t: Thread) {
    Duplex.IsRun(states, acts) && CallLog(states, acts, |acts|, p, 0) == log && Alone(states[|acts|], p, t)
  }

  ghost predicate Happens(p: Peer, log: seq<Worker.Entry>, t: Thread) {
    exists states, acts :: RunsTo(states, acts, p, log, t)
  }

  lemma {:induction false} CallLogOfPrefix(states: seq<State>, acts: seq<Action>, n: nat, p: Peer, s: State, a: Action)
    requires n <= |acts| && n <= |states|
    ensures CallLog(states + [s], acts + [a], n, p, 0) == CallLog(states, acts, n, p, 0)
  {
    if n > 0 {
      CallLogOfPrefix(states, acts, n - 1, p, s, a);
    }
  }

  lemma LongerRun(states: seq<State>, acts: seq<Action>, a: Action)
    requires Duplex.IsRun(states, acts) && Can(states[|acts|], a)
    ensures Duplex.IsRun(states + [Do(states[|acts|], a)], acts + [a])
  {
  }

  /** What an action does to a call that is alone. */
  ghost predicate StepsAlone(p: Peer, t: Thread, a: Action, u: Thread, d: seq<Worker.Entry>) {
    && IsBy(a, p, 0)
    && forall s :: Alone(s, p, t) ==> Can(s, a) && NextThread(s, a) == u && Does(s, a) == d
  }

  lemma Goes(p: Peer, log: seq<Worker.Entry>, t: Thread, a: Action, u: Thread, d: seq<Worker.Entry>)
    requires Happens(p, log, t) && StepsAlone(p, t, a, u, d)
    ensures Happens(p, log + d, u)
  {
    var states, acts :| RunsTo(states, acts, p, log, t);
    var s := states[|acts|];
    assert Alone(s, p, t);
    RunGoes(states, acts, p, log, t, a, u, d);
  }

  lemma RunGoes(states: seq<State>, acts: seq<Action>, p: Peer, log: seq<Worker.Entry>, t: Thread, a: Action, u: Thread,
                d: seq<Worker.Entry>)
    requires RunsTo(states, acts, p, log, t) && IsBy(a, p, 0)
    requires var s := states[|acts|]; Can(s, a) && NextThread(s, a) == u && Does(s, a) == d
    ensures Happens(p, log + d, u)
  {
    var n, s := |acts|, states[|acts|];
    LongerRun(states, acts, a);
    CallLogOfPrefix(states, acts, n, p, Do(s, a), a);
    AloneGoes(s, p, t, a, u);
    CallLogNext(states + [Do(s, a)], acts + [a], n, p, 0);
    assert RunsTo(states + [Do(s, a)], acts + [a], p, log + d, u);
  }

  lemma AloneGoes(s: State, p: Peer, t: Thread, a: Action, u: Thread)
    requires Alone(s, p, t) && IsBy(a, p, 0) && Can(s, a) && NextThread(s, a) == u
    ensures Alone(Do(s, a), p, u)
  {
    DoAt(s, a, p);
    DoAt(s, a, Other(p));
    assert NewThreads(s, a, p)[0] == NewThread(s, a, p, 0);
  }

  lemma BeginsAlone(p: Peer)
    ensures Happens(p, [], Start)
  {
    var idle := Side(None, [], false);
    var s := State(idle, idle);
    var a := NewConnect(p);
    LongerRun([s], [], a);
    DoAt(s, a, p);
    DoAt(s, a, Other(p));
    assert [s] + [Do(s, a)] == [s, Do(s, a)] && [] + [a] == [a];
    assert CallLog([s, Do(s, a)], [a], 0, p, 0) == [];
    assert RunsTo([s, Do(s, a)], [a], p, [], Start);
  }

  // What each action does to a call that is alone.

  lemma BeginsAt(p: Peer)
    ensures StepsAlone(p, Start, Begin(p, 0), Certify, [Worker.Sets(Connecting)])
  {
  }

  lemma CertifiedAt(p: Peer)
    ensures StepsAlone(p, Certify, Certified(p, 0), Build, [Worker.Gets(Worker.CertReply(None))])
  {
  }

  lemma BuiltAt(p: Peer)
    ensures StepsAlone(p, Build, Built(p, 0), StoreClient, [Worker.Gets(Worker.ChannelReply(true))])
  {
  }

  lemma StoredAt(p: Peer)
    ensures StepsAlone(p, StoreClient, Stored(p, 0), Ping, [])
  {
  }

  lemma PingedAt(p: Peer)
    ensures StepsAlone(p, Ping, PingOk(p, 0), Announce, [Worker.Gets(Worker.PingReply(true))])
  {
  }

  lemma AwaitsAt(p: Peer)
    ensures StepsAlone(p, Announce, Await(p, 0), Call, [Worker.Sets(AwaitingDuplex)])
  {
  }

  lemma CallsAt(p: Peer)
    ensures StepsAlone(p, Call, CallPeer(p, 0), Subscribed([]), [])
  {
  }

  lemma ReadsAt(p: Peer)
    ensures StepsAlone(p, Subscribed([]), Read(p, 0), Parked([]), [])
  {
  }

  lemma CertFailsAt(p: Peer, e: Worker.CertError)
    ensures var next := Worker.CertState(e);
      StepsAlone(p, Certify, CertFails(p, 0, next), Failing(next), [Worker.Gets(Worker.CertReply(Some(e)))])
  {
  }

  lemma BuildFailsAt(p: Peer)
    ensures StepsAlone(p, Build, BuildFails(p, 0), Failing(Error(SslError)), [Worker.Gets(Worker.ChannelReply(false))])
  {
  }

  lemma PingFailsAt(p: Peer)
    ensures StepsAlone(p, Ping, PingFails(p, 0), Failing(Error(SslError)), [Worker.Gets(Worker.PingReply(false))])
  {
  }

  lemma CallFailsAt(p: Peer)
    ensures StepsAlone(p, Call, CallFails(p, 0), Failing(Error(DuplexError)), [Worker.Gets(Worker.DuplexReply(false))])
  {
  }

  lemma DeadlineAt(p: Peer)
    ensures StepsAlone(p, Parked([]), Deadline(p, 0), Failing(Error(DuplexError)),
                       [Worker.Gets(Worker.DuplexReply(false))])
  {
  }

  lemma GivesUpAt(p: Peer, next: RemoteState)
    ensures StepsAlone(p, Failing(next), GiveUp(p, 0), Done, [Worker.Sets(next)])
  {
  }

  /** A step without an entry. */
  lemma GoesQuietly(p: Peer, log: seq<Worker.Entry>, t: Thread, a: Action, u: Thread)
    requires Happens(p, log, t) && StepsAlone(p, t, a, u, [])
    ensures Happens(p, log, u)
  {
    Goes(p, log, t, a, u, []);
    assert log + [] == log;
  }

  lemma ToCertify(p: Peer)
    ensures Happens(p, BEGUN, Certify)
  {
    BeginsAlone(p);
    BeginsAt(p);
    Goes(p, [], Start, Begin(p, 0), Certify, [Worker.Sets(Connecting)]);
  }

  lemma ToBuild(p: Peer)
    ensures Happens(p, CERTIFIED, Build)
  {
    ToCertify(p);
    CertifiedAt(p);
    Goes(p, BEGUN, Certify, Certified(p, 0), Build, [Worker.Gets(Worker.CertReply(None))]);
  }

  lemma ToPing(p: Peer)
    ensures Happens(p, BUILT, Ping)
  {
    ToBuild(p);
    BuiltAt(p);
    Goes(p, CERTIFIED, Build, Built(p, 0), StoreClient, [Worker.Gets(Worker.ChannelReply(true))]);
    StoredAt(p);
    GoesQuietly(p, BUILT, StoreClient, Stored(p, 0), Ping);
  }

  lemma ToAnnounce(p: Peer)
    ensures Happens(p, PINGED, Announce)
  {
    ToPing(p);
    PingedAt(p);
    Goes(p, BUILT, Ping, PingOk(p, 0), Announce, [Worker.Gets(Worker.PingReply(true))]);
  }

  lemma ToCall(p: Peer)
    ensures Happens(p, AWAITING, Call)
  {
    ToAnnounce(p);
    AwaitsAt(p);
    Goes(p, PINGED, Announce, Await(p, 0), Call, [Worker.Sets(AwaitingDuplex)]);
  }

  lemma ToParked(p: Peer)
    ensures Happens(p, AWAITING, Parked([]))
  {
    ToCall(p);
    CallsAt(p);
    GoesQuietly(p, AWAITING, Call, CallPeer(p, 0), Subscribed([]));
    ReadsAt(p);
    GoesQuietly(p, AWAITING, Subscribed([]), Read(p, 0), Parked([]));
  }

  /** A call that fails sets its failure state and is done. */
  lemma FailsAt(p: Peer, log: seq<Worker.Entry>, t: Thread, a: Action, next: RemoteState, reply: Worker.Reply)
    requires Happens(p, log, t) && StepsAlone(p, t, a, Failing(next), [Worker.Gets(reply)])
    ensures Happens(p, log + [Worker.Gets(reply)] + [Worker.Sets(next)], Done)
  {
    Goes(p, log, t, a, Failing(next), [Worker.Gets(reply)]);
    GivesUpAt(p, next);
    Goes(p, log + [Worker.Gets(reply)], Failing(next), GiveUp(p, 0), Done, [Worker.Sets(next)]);
  }

  lemma CertFailureHappens(p: Peer, e: Worker.CertError)
    ensures Happens(p, Worker.ConnectLog(Worker.CertFailed(e)), Done)
  {
    ToCertify(p);
    CertFailsAt(p, e);
    var next := Worker.CertState(e);
    FailsAt(p, BEGUN, Certify, CertFails(p, 0, next), next, Worker.CertReply(Some(e)));
    FailureLogs(e);
  }

  lemma BuildFailureHappens(p: Peer)
    ensures Happens(p, Worker.ConnectLog(Worker.TlsFailed), Done)
  {
    ToBuild(p);
    BuildFailsAt(p);
    FailsAt(p, CERTIFIED, Build, BuildFails(p, 0), Error(SslError), Worker.ChannelReply(false));
    FailureLogs(Worker.Offline);
  }

  lemma PingFailureHappens(p: Peer)
    ensures Happens(p, Worker.ConnectLog(Worker.PingFailed), Done)
  {
    ToPing(p);
    PingFailsAt(p);
    FailsAt(p, BUILT, Ping, PingFails(p, 0), Error(SslError), Worker.PingReply(false));
    FailureLogs(Worker.Offline);
  }

  /** The duplex call itself can fail. */
  lemma DuplexFailureHappens(p: Peer)
    ensures Happens(p, Worker.ConnectLog(Worker.DuplexFailed), Done)
  {
    ToCall(p);
    CallFailsAt(p);
    FailsAt(p, AWAITING, Call, CallFails(p, 0), Error(DuplexError), Worker.DuplexReply(false));
    FailureLogs(Worker.Offline);
  }

  /** So does one whose handler waits in vain, at its deadline. */
  lemma DeadlineHappens(p: Peer)
    ensures Happens(p, AWAITING, Parked([])) && Happens(p, Worker.ConnectLog(Worker.DuplexFailed), Done)
  {
    ToParked(p);
    DeadlineAt(p);
    FailsAt(p, AWAITING, Parked([]), Deadline(p, 0), Error(DuplexError), Worker.DuplexReply(false));
    FailureLogs(Worker.Offline);
  }

  /** Each way an attempt can fail happens to some call of the two peers. */
  lemma FailuresHappen(p: Peer, o: Worker.Outcome)
    requires o != Worker.Success
    ensures Happens(p, Worker.ConnectLog(o), Done)
  {
    match o
    case CertFailed(e) => CertFailureHappens(p, e);
    case TlsFailed => BuildFailureHappens(p);
    case PingFailed => PingFailureHappens(p);
    case DuplexFailed => DuplexFailureHappens(p);
  }
}
