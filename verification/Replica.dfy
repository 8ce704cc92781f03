/**
 The event-fed copy of the transfer lists: events are hydrated late, from whatever
 the store holds by then, and applied through a second queue.
 */
module Replica {
  import opened Common
  import opened Transfers
  import opened RemoteStore

  /** An event together with what was found in the store when it was read. */
  datatype AppEvent =
    | AppRemoteAdded(remote: Remote)
    | AppRemoteUpdated(remote: Remote)
    | AppTransferAdded(remoteUuid: string, transfer: TransferRecord)
    | AppTransferUpdated(remoteUuid: string, transfer: TransferRecord)
    | AppTransferRemoved(remoteUuid: string, transferUuid: string)

  type View = map<string, seq<TransferRecord>>

  function FindTransfer(remotes: map<string, Remote>, r: string, uuid: string): Option<TransferRecord> {
    var ts := TransfersOf(remotes, r);
    var i := IndexOf(ts, uuid);
    if i < |ts| then Some(ts[i]) else None
  }

  /** Nothing comes of an event whose subject is gone by the time it is read. */
  function Hydrate(e: WarpEvent, remotes: map<string, Remote>): Option<AppEvent> {
    match e
    case RemoteAdded(r) => if r in remotes then Some(AppRemoteAdded(remotes[r])) else None
    case RemoteUpdated(r) => if r in remotes then Some(AppRemoteUpdated(remotes[r])) else None
    case TransferAdded(r, u) =>
      (match FindTransfer(remotes, r, u) case None => None case Some(t) => Some(AppTransferAdded(r, t)))
    case TransferUpdated(r, u) =>
      (match FindTransfer(remotes, r, u) case None => None case Some(t) => Some(AppTransferUpdated(r, t)))
    case TransferRemoved(r, u) => Some(AppTransferRemoved(r, u))
  }

  function Get(view: View, r: string): seq<TransferRecord> {
    if r in view then view[r] else []
  }

  /** Replacing the first record with the same uuid, if there is one. */
  function SetFirst(ts: seq<TransferRecord>, t: TransferRecord): seq<TransferRecord> {
    var i := IndexOf(ts, t.uuid);
    if i < |ts| then ts[i := t] else ts
  }

  function Without(ts: seq<TransferRecord>, uuid: string): seq<TransferRecord> {
    if ts == [] then []
    else if ts[0].uuid == uuid then Without(ts[1..], uuid)
    else [ts[0]] + Without(ts[1..], uuid)
  }

  function Apply(view: View, e: AppEvent): View {
    match e
    case AppRemoteAdded(remote) => if remote.uuid in view then view else view[remote.uuid := []]
    case AppRemoteUpdated(_) => view
    case AppTransferAdded(r, t) => view[r := Get(view, r) + [t]]
    case AppTransferUpdated(r, t) => if r in view then view[r := SetFirst(view[r], t)] else view
    case AppTransferRemoved(r, u) => if r in view then view[r := Without(view[r], u)] else view
  }

  /** The part of the example application that follows the transfers. */
  class App {
    var transfers: View

    constructor ()
      ensures transfers == map[]
    {
      transfers := map[];
    }

    method HandleEvent(e: AppEvent)
      modifies this
      ensures transfers == Apply(old(transfers), e)
    {
      match e {
        case AppRemoteAdded(remote) =>
          if remote.uuid !in transfers {
            transfers := transfers[remote.uuid := []];
          }
        case AppRemoteUpdated(_) =>
        case AppTransferAdded(r, t) =>
          var before := if r in transfers then transfers[r] else [];
          transfers := transfers[r := before + [t]];
        case AppTransferUpdated(r, t) =>
          if r in transfers {
            var ts := transfers[r];
            var i := 0;
            while i < |ts| && ts[i].uuid != t.uuid
              invariant i <= |ts| && transfers == old(transfers)
              invariant i + IndexOf(ts[i..], t.uuid) == IndexOf(ts, t.uuid)
            {
              assert ts[i..][1..] == ts[i + 1..];
              i := i + 1;
            }
            if i < |ts| {
              ts := ts[i := t];
            }
            transfers := transfers[r := ts];
          }
        case AppTransferRemoved(r, u) =>
          if r in transfers {
            var kept := Retain(transfers[r], u);
            transfers := transfers[r := kept];
          }
      }
    }

    method Retain(ts: seq<TransferRecord>, u: string) returns (kept: seq<TransferRecord>)
      ensures kept == Without(ts, u)
    {
      kept := [];
      for i := 0 to |ts|
        invariant kept + Without(ts[i..], u) == Without(ts, u)
      {
        assert ts[i..][1..] == ts[i + 1..];
        if ts[i].uuid != u {
          kept := kept + [ts[i]];
        }
      }
      assert ts[|ts|..] == [];
    }
  }

  // ----- the system -----

  /** The store's remotes, the events the reader has not taken, the hydrated ones not applied, and the view.
      `used` remembers every transfer ever added. */
  datatype State = State(
    remotes: map<string, Remote>, unread: seq<WarpEvent>, outbox: seq<AppEvent>, view: View,
    used: set<(string, string)>)

  /** A store mutation reaches the reader as one more unread event, or not at all. */
  ghost predicate Mutates(s: State, t: State, remotes: map<string, Remote>, e: Option<WarpEvent>) {
    t == s.(remotes := remotes, unread := s.unread + match e { case None => [] case Some(ev) => [ev] }, used := t.used)
  }

  ghost predicate AddTransferStep(s: State, t: State, r: string, tr: TransferRecord) {
    && r in s.remotes && (r, tr.uuid) !in s.used
    && t.used == s.used + {(r, tr.uuid)}
    && Mutates(s, t, SetTransfers(s.remotes, r, s.remotes[r].transfers + [tr]), Some(TransferAdded(r, tr.uuid)))
  }

  /** The throttle may drop the event of an update that keeps the state variant. */
  ghost predicate UpdateTransferStep(s: State, t: State, r: string, i: nat, tr: TransferRecord, dropped: bool) {
    && i < |TransfersOf(s.remotes, r)|
    && var ts := TransfersOf(s.remotes, r);
    && tr.uuid == ts[i].uuid
    && (dropped ==> SameDiscriminant(tr.state, ts[i].state))
    && t.used == s.used
    && Mutates(s, t, SetTransfers(s.remotes, r, ts[i := tr]),
               if dropped then None else Some(TransferUpdated(r, tr.uuid)))
  }

  ghost predicate RemoveTransferStep(s: State, t: State, r: string, i: nat) {
    && i < |TransfersOf(s.remotes, r)|
    && var ts := TransfersOf(s.remotes, r);
    && t.used == s.used
    && Mutates(s, t, SetTransfers(s.remotes, r, ts[..i] + ts[i + 1..]), Some(TransferRemoved(r, ts[i].uuid)))
  }

  /** A new remote appears without transfers; its event comes later, possibly after events about its transfers. */
  ghost predicate AddRemoteStep(s: State, t: State, remote: Remote) {
    && remote.uuid !in s.remotes && remote.transfers == []
    && t.used == s.used
    && Mutates(s, t, s.remotes[remote.uuid := remote], None)
  }

  ghost predicate AnnounceRemoteStep(s: State, t: State, r: string) {
    r in s.remotes && t.used == s.used && Mutates(s, t, s.remotes, Some(RemoteAdded(r)))
  }

  ghost predicate UpdateRemoteStep(s: State, t: State, remote: Remote) {
    && remote.uuid in s.remotes && remote.transfers == s.remotes[remote.uuid].transfers
    && t.used == s.used
    && Mutates(s, t, s.remotes[remote.uuid := remote], Some(RemoteUpdated(remote.uuid)))
  }

  ghost predicate HydrateStep(s: State, t: State) {
    && s.unread != []
    && t == s.(unread := s.unread[1..],
               outbox := s.outbox + match Hydrate(s.unread[0], s.remotes) { case None => [] case Some(e) => [e] })
  }

  ghost predicate ApplyStep(s: State, t: State) {
    s.outbox != [] && t == s.(outbox := s.outbox[1..], view := Apply(s.view, s.outbox[0]))
  }

  ghost predicate Next(s: State, t: State) {
    || (exists r, tr :: AddTransferStep(s, t, r, tr))
    || (exists r, i, tr, dropped :: UpdateTransferStep(s, t, r, i, tr, dropped))
    || (exists r, i :: RemoveTransferStep(s, t, r, i))
    || (exists remote :: AddRemoteStep(s, t, remote))
    || (exists r :: AnnounceRemoteStep(s, t, r))
    || (exists remote :: UpdateRemoteStep(s, t, remote))
    || HydrateStep(s, t)
    || ApplyStep(s, t)
  }

  ghost predicate IsRun(run: seq<State>) {
    && run != []
    && run[0] == State(map[], [], [], map[], {})
    && forall i :: 0 <= i < |run| - 1 ==> Next(run[i], run[i + 1])
  }

  // ----- one remote's list once everything pending has been worked off -----

  function ApplyAll(view: View, events: seq<AppEvent>): View
    decreases |events|
  {
    if events == [] then view else ApplyAll(Apply(view, events[0]), events[1..])
  }

  /** What reading and applying one event at once does to the list of remote `r`, when the store holds `stored`. */
  function StepList(ts: seq<TransferRecord>, e: WarpEvent, r: string, stored: seq<TransferRecord>)
    : seq<TransferRecord>
  {
    match e
    case RemoteAdded(_) => ts
    case RemoteUpdated(_) => ts
    case TransferAdded(q, u) =>
      if q == r && IndexOf(stored, u) < |stored| then ts + [stored[IndexOf(stored, u)]] else ts
    case TransferUpdated(q, u) =>
      if q == r && IndexOf(stored, u) < |stored| then SetFirst(ts, stored[IndexOf(stored, u)]) else ts
    case TransferRemoved(q, u) => if q == r then Without(ts, u) else ts
  }

  function Drain(ts: seq<TransferRecord>, unread: seq<WarpEvent>, r: string, stored: seq<TransferRecord>)
    : seq<TransferRecord>
    decreases |unread|
  {
    if unread == [] then ts else Drain(StepList(ts, unread[0], r, stored), unread[1..], r, stored)
  }

  function Settled(s: State, r: string): seq<TransferRecord> {
    Drain(Get(ApplyAll(s.view, s.outbox), r), s.unread, r, TransfersOf(s.remotes, r))
  }

  /** Same uuids in the same order, and same state variants except possibly for one uuid. */
  ghost predicate Alike(xs: seq<TransferRecord>, ys: seq<TransferRecord>, except: Option<string>) {
    && |xs| == |ys|
    && forall i :: 0 <= i < |xs| ==>
         && xs[i].uuid == ys[i].uuid
         && (except == Some(xs[i].uuid) || SameDiscriminant(xs[i].state, ys[i].state))
  }

  ghost predicate DistinctUuids(ts: seq<TransferRecord>) {
    forall i, j :: 0 <= i < j < |ts| ==> ts[i].uuid != ts[j].uuid
  }

  predicate Mentions(e: WarpEvent, r: string, u: string) {
    (e.TransferAdded? || e.TransferUpdated? || e.TransferRemoved?) && e.remote == r && e.transfer == u
  }

  ghost predicate KnownUuids(s: State, r: string) {
    && DistinctUuids(TransfersOf(s.remotes, r))
    && (forall t :: t in TransfersOf(s.remotes, r) ==> (r, t.uuid) in s.used)
    && (forall k, u :: 0 <= k < |s.unread| && Mentions(s.unread[k], r, u) ==> (r, u) in s.used)
  }

  ghost predicate InvAt(s: State, r: string) {
    KnownUuids(s, r) && Alike(Settled(s, r), TransfersOf(s.remotes, r), None)
  }

  ghost predicate Inv(s: State) {
    forall r :: InvAt(s, r)
  }

  lemma {:induction false} DrainSnoc(ts: seq<TransferRecord>, unread: seq<WarpEvent>, e: WarpEvent, r: string,
                                     stored: seq<TransferRecord>)
    ensures Drain(ts, unread + [e], r, stored) == StepList(Drain(ts, unread, r, stored), e, r, stored)
    decreases |unread|
  {
    if unread == [] {
      assert [] + [e] == [e] && [e][1..] == [];
    } else {
      assert (unread + [e])[1..] == unread[1..] + [e];
      DrainSnoc(StepList(ts, unread[0], r, stored), unread[1..], e, r, stored);
    }
  }

  lemma {:induction false} ApplyAllSnoc(view: View, events: seq<AppEvent>, e: AppEvent)
    ensures ApplyAll(view, events + [e]) == Apply(ApplyAll(view, events), e)
    decreases |events|
  {
    if events == [] {
      assert [] + [e] == [e] && [e][1..] == [];
    } else {
      assert (events + [e])[1..] == events[1..] + [e];
      ApplyAllSnoc(Apply(view, events[0]), events[1..], e);
    }
  }

  /** Hydrating and applying through the queues does to each list what `StepList` says. */
  lemma HydrateThenApply(view: View, e: WarpEvent, remotes: map<string, Remote>, r: string)
    ensures var v := match Hydrate(e, remotes) { case None => view case Some(a) => Apply(view, a) };
      Get(v, r) == StepList(Get(view, r), e, r, TransfersOf(remotes, r))
  {
  }

  // ----- draining against two similar stores -----

  lemma {:induction false} IndexOfAlike(xs: seq<TransferRecord>, ys: seq<TransferRecord>, except: Option<string>,
                                        uuid: string)
    requires Alike(xs, ys, except)
    ensures IndexOf(xs, uuid) == IndexOf(ys, uuid)
  {
    if xs == [] {
    } else {
      IndexOfAlike(xs[1..], ys[1..], except, uuid);
    }
  }

  lemma {:induction false} IndexOfDistinct(ts: seq<TransferRecord>, i: nat)
    requires DistinctUuids(ts) && i < |ts|
    ensures IndexOf(ts, ts[i].uuid) == i
  {
    if i == 0 {
    } else {
      assert ts[0].uuid != ts[i].uuid && ts[1..][i - 1] == ts[i];
      IndexOfDistinct(ts[1..], i - 1);
    }
  }

  lemma {:induction false} WithoutAlike(xs: seq<TransferRecord>, ys: seq<TransferRecord>, except: Option<string>,
                                        uuid: string)
    requires Alike(xs, ys, except)
    ensures Alike(Without(xs, uuid), Without(ys, uuid), except)
  {
    if xs == [] {
    } else {
      WithoutAlike(xs[1..], ys[1..], except, uuid);
    }
  }

  lemma SetFirstAlike(xs: seq<TransferRecord>, ys: seq<TransferRecord>, t: TransferRecord, u: TransferRecord,
                      except: Option<string>)
    requires Alike(xs, ys, except) && Alike([t], [u], except)
    ensures Alike(SetFirst(xs, t), SetFirst(ys, u), except)
  {
    assert t == [t][0] && u == [u][0];
    IndexOfAlike(xs, ys, except, t.uuid);
  }

  lemma AppendAlike(xs: seq<TransferRecord>, ys: seq<TransferRecord>, us: seq<TransferRecord>,
                    vs: seq<TransferRecord>, except: Option<string>)
    requires Alike(xs, ys, except) && Alike(us, vs, except)
    ensures Alike(xs + us, ys + vs, except)
  {
  }

  lemma FoundAlike(m: seq<TransferRecord>, n: seq<TransferRecord>, except: Option<string>, id: string)
    requires Alike(m, n, except)
    ensures IndexOf(m, id) == IndexOf(n, id)
    ensures IndexOf(m, id) < |m| ==> Alike([m[IndexOf(m, id)]], [n[IndexOf(m, id)]], except)
  {
    IndexOfAlike(m, n, except, id);
  }

  lemma StepAlike(xs: seq<TransferRecord>, ys: seq<TransferRecord>, e: WarpEvent, r: string,
                  m: seq<TransferRecord>, n: seq<TransferRecord>, except: Option<string>)
    requires Alike(xs, ys, except) && Alike(m, n, except)
    ensures Alike(StepList(xs, e, r, m), StepList(ys, e, r, n), except)
  {
    match e
    case RemoteAdded(_) =>
    case RemoteUpdated(_) =>
    case TransferAdded(_, id) =>
      FoundAlike(m, n, except, id);
      if IndexOf(m, id) < |m| {
        AppendAlike(xs, ys, [m[IndexOf(m, id)]], [n[IndexOf(m, id)]], except);
      }
    case TransferUpdated(_, id) =>
      FoundAlike(m, n, except, id);
      if IndexOf(m, id) < |m| {
        SetFirstAlike(xs, ys, m[IndexOf(m, id)], n[IndexOf(m, id)], except);
      }
    case TransferRemoved(_, id) => WithoutAlike(xs, ys, except, id);
  }

  lemma {:induction false} DrainAlike(xs: seq<TransferRecord>, ys: seq<TransferRecord>, unread: seq<WarpEvent>,
                                      r: string, m: seq<TransferRecord>, n: seq<TransferRecord>, except: Option<string>)
    requires Alike(xs, ys, except) && Alike(m, n, except)
    ensures Alike(Drain(xs, unread, r, m), Drain(ys, unread, r, n), except)
    decreases |unread|
  {
    if unread == [] {
    } else {
      StepAlike(xs, ys, unread[0], r, m, n, except);
      DrainAlike(StepList(xs, unread[0], r, m), StepList(ys, unread[0], r, n), unread[1..], r, m, n, except);
    }
  }

  // ----- draining against a store that has lost one transfer -----

  lemma WithoutCons(x: TransferRecord, rest: seq<TransferRecord>, u: string)
    ensures Without([x] + rest, u) == if x.uuid == u then Without(rest, u) else [x] + Without(rest, u)
  {
    assert ([x] + rest)[1..] == rest;
  }

  lemma IndexOfCons(x: TransferRecord, rest: seq<TransferRecord>, u: string)
    ensures IndexOf([x] + rest, u) == if x.uuid == u then 0 else 1 + IndexOf(rest, u)
  {
    assert ([x] + rest)[1..] == rest;
  }

  lemma {:induction false} WithoutAppend(xs: seq<TransferRecord>, ys: seq<TransferRecord>, u: string)
    ensures Without(xs + ys, u) == Without(xs, u) + Without(ys, u)
  {
    if xs == [] {
      assert xs + ys == ys;
    } else {
      var x, rest := xs[0], xs[1..];
      assert xs == [x] + rest && xs + ys == [x] + (rest + ys);
      WithoutAppend(rest, ys, u);
      WithoutCons(x, rest, u);
      WithoutCons(x, rest + ys, u);
    }
  }

  lemma {:induction false} WithoutCommutes(xs: seq<TransferRecord>, u: string, v: string)
    ensures Without(Without(xs, u), v) == Without(Without(xs, v), u)
  {
    if xs == [] {
    } else {
      WithoutCommutes(xs[1..], u, v);
    }
  }

  lemma SetFirstCons(x: TransferRecord, rest: seq<TransferRecord>, t: TransferRecord)
    ensures SetFirst([x] + rest, t) == if x.uuid == t.uuid then [t] + rest else [x] + SetFirst(rest, t)
  {
    assert ([x] + rest)[1..] == rest;
  }

  lemma {:induction false} WithoutSetFirst(xs: seq<TransferRecord>, t: TransferRecord, u: string)
    ensures Without(SetFirst(xs, t), u) == if t.uuid == u then Without(xs, u) else SetFirst(Without(xs, u), t)
  {
    if xs == [] {
    } else {
      var x, rest := xs[0], xs[1..];
      assert xs == [x] + rest;
      WithoutSetFirst(rest, t, u);
      SetFirstCons(x, rest, t);
      WithoutCons(x, rest, u);
      SetFirstCons(x, Without(rest, u), t);
      WithoutCons(t, rest, u);
      WithoutCons(x, SetFirst(rest, t), u);
    }
  }

  /** Apart from `u`, what is found does not depend on whether `u` is there. */
  ghost predicate FindsAlike(xs: seq<TransferRecord>, ws: seq<TransferRecord>, u: string, id: string) {
    if id == u then IndexOf(ws, id) == |ws|
    else
      && (IndexOf(ws, id) < |ws| <==> IndexOf(xs, id) < |xs|)
      && (IndexOf(xs, id) < |xs| ==> ws[IndexOf(ws, id)] == xs[IndexOf(xs, id)])
  }

  lemma FindsAlikeKept(x: TransferRecord, xs: seq<TransferRecord>, ws: seq<TransferRecord>, u: string, id: string)
    requires FindsAlike(xs, ws, u, id)
    ensures x.uuid != u ==> FindsAlike([x] + xs, [x] + ws, u, id)
    ensures x.uuid == u ==> FindsAlike([x] + xs, ws, u, id)
  {
    IndexOfCons(x, xs, id);
    IndexOfCons(x, ws, id);
  }

  lemma {:induction false} FindWithout(xs: seq<TransferRecord>, u: string, id: string)
    ensures FindsAlike(xs, Without(xs, u), u, id)
  {
    if xs == [] {
    } else {
      var x, rest := xs[0], xs[1..];
      assert xs == [x] + rest;
      FindWithout(rest, u, id);
      WithoutCons(x, rest, u);
      FindsAlikeKept(x, rest, Without(rest, u), u, id);
    }
  }

  lemma WithoutOne(t: TransferRecord, u: string)
    ensures Without([t], u) == if t.uuid == u then [] else [t]
  {
    assert [t][1..] == [];
  }

  lemma AddWithout(xs: seq<TransferRecord>, ys: seq<TransferRecord>, t: TransferRecord, u: string)
    requires Without(xs, u) == Without(ys, u)
    ensures Without(xs + [t], u) == Without(ys + [t], u)
    ensures t.uuid == u ==> Without(xs + [t], u) == Without(ys, u)
  {
    WithoutAppend(xs, [t], u);
    WithoutAppend(ys, [t], u);
    WithoutOne(t, u);
  }

  lemma SetWithout(xs: seq<TransferRecord>, ys: seq<TransferRecord>, t: TransferRecord, u: string)
    requires Without(xs, u) == Without(ys, u)
    ensures Without(SetFirst(xs, t), u) == Without(SetFirst(ys, t), u)
    ensures t.uuid == u ==> Without(SetFirst(xs, t), u) == Without(ys, u)
  {
    WithoutSetFirst(xs, t, u);
    WithoutSetFirst(ys, t, u);
  }

  /** One event, read with and without the transfer `u` in the store: afterwards only `u` may differ. */
  lemma StepWithout(xs: seq<TransferRecord>, ys: seq<TransferRecord>, e: WarpEvent, r: string,
                    m: seq<TransferRecord>, u: string)
    requires Without(xs, u) == Without(ys, u)
    ensures Without(StepList(xs, e, r, m), u) == Without(StepList(ys, e, r, Without(m, u)), u)
  {
    match e {
      case RemoteAdded(_) =>
      case RemoteUpdated(_) =>
      case TransferAdded(q, id) =>
        FindWithout(m, u, id);
        if q == r && IndexOf(m, id) < |m| {
          AddWithout(xs, ys, m[IndexOf(m, id)], u);
        }
      case TransferUpdated(q, id) =>
        FindWithout(m, u, id);
        if q == r && IndexOf(m, id) < |m| {
          SetWithout(xs, ys, m[IndexOf(m, id)], u);
        }
      case TransferRemoved(q, id) =>
        WithoutCommutes(xs, id, u);
        WithoutCommutes(ys, id, u);
    }
  }

  lemma {:induction false} DrainWithout(xs: seq<TransferRecord>, ys: seq<TransferRecord>, unread: seq<WarpEvent>,
                                        r: string, m: seq<TransferRecord>, u: string)
    requires Without(xs, u) == Without(ys, u)
    ensures Without(Drain(xs, unread, r, m), u) == Without(Drain(ys, unread, r, Without(m, u)), u)
    decreases |unread|
  {
    if unread == [] {
    } else {
      StepWithout(xs, ys, unread[0], r, m, u);
      DrainWithout(StepList(xs, unread[0], r, m), StepList(ys, unread[0], r, Without(m, u)), unread[1..], r, m, u);
    }
  }

  lemma {:induction false} WithoutDistinct(ts: seq<TransferRecord>, i: nat)
    requires DistinctUuids(ts) && i < |ts|
    ensures Without(ts, ts[i].uuid) == ts[..i] + ts[i + 1..]
  {
    if i == 0 {
      WithoutAbsent(ts[1..], ts[0].uuid);
    } else {
      assert ts[0].uuid != ts[i].uuid;
      WithoutDistinct(ts[1..], i - 1);
      assert ts[1..][i - 1] == ts[i];
      assert [ts[0]] + (ts[1..][..i - 1] + ts[1..][i..]) == ts[..i] + ts[i + 1..];
    }
  }

  lemma {:induction false} WithoutAbsent(xs: seq<TransferRecord>, u: string)
    requires forall i :: 0 <= i < |xs| ==> xs[i].uuid != u
    ensures Without(xs, u) == xs
  {
    if xs == [] {
    } else {
      WithoutAbsent(xs[1..], u);
    }
  }

  // ----- draining against a store that has gained one transfer no event mentions -----

  lemma {:induction false} IndexOfAppend(ts: seq<TransferRecord>, t: TransferRecord, uuid: string)
    requires t.uuid != uuid
    ensures if IndexOf(ts, uuid) < |ts| then IndexOf(ts + [t], uuid) == IndexOf(ts, uuid)
            else IndexOf(ts + [t], uuid) == |ts| + 1
  {
    if ts == [] {
      assert [] + [t] == [t] && [t][1..] == [];
      assert IndexOf([], uuid) == 0;
    } else {
      assert (ts + [t])[1..] == ts[1..] + [t];
      IndexOfAppend(ts[1..], t, uuid);
    }
  }

  lemma {:induction false} DrainGained(xs: seq<TransferRecord>, unread: seq<WarpEvent>, r: string,
                                       m: seq<TransferRecord>, t: TransferRecord)
    requires forall k :: 0 <= k < |unread| ==> !Mentions(unread[k], r, t.uuid)
    ensures Drain(xs, unread, r, m + [t]) == Drain(xs, unread, r, m)
    decreases |unread|
  {
    if unread == [] {
    } else {
      var e := unread[0];
      assert !Mentions(e, r, t.uuid);
      if (e.TransferAdded? || e.TransferUpdated?) && e.remote == r {
        IndexOfAppend(m, t, e.transfer);
      }
      DrainGained(StepList(xs, e, r, m), unread[1..], r, m, t);
    }
  }

  // ----- every step keeps the invariant -----

  lemma OtherRemoteUnchanged(s: State, t: State, r: string, e: WarpEvent)
    requires InvAt(s, r) && s.used <= t.used
    requires TransfersOf(t.remotes, r) == TransfersOf(s.remotes, r)
    requires t.view == s.view && t.outbox == s.outbox && t.unread == s.unread + [e]
    requires e.RemoteAdded? || e.RemoteUpdated? || e.remote != r
    ensures InvAt(t, r)
  {
    DrainSnoc(Get(ApplyAll(s.view, s.outbox), r), s.unread, e, r, TransfersOf(s.remotes, r));
  }

  lemma NothingPublished(s: State, t: State, r: string)
    requires InvAt(s, r) && s.used <= t.used
    requires TransfersOf(t.remotes, r) == TransfersOf(s.remotes, r)
    requires t.view == s.view && t.outbox == s.outbox && t.unread == s.unread
    ensures InvAt(t, r)
  {
  }

  /** The list of the remote that gets the transfer. */
  lemma AddKeepsInvHere(s: State, t: State, r: string, tr: TransferRecord)
    requires InvAt(s, r) && AddTransferStep(s, t, r, tr)
    ensures Alike(Settled(t, r), TransfersOf(t.remotes, r), None)
  {
    var base, stored := Get(ApplyAll(s.view, s.outbox), r), TransfersOf(s.remotes, r);
    assert TransfersOf(t.remotes, r) == stored + [tr];
    DrainSnoc(base, s.unread, TransferAdded(r, tr.uuid), r, stored + [tr]);
    DrainGained(base, s.unread, r, stored, tr);
    AddKeepsDistinct(s, r, tr);
    IndexOfDistinct(stored + [tr], |stored|);
  }

  lemma AddKeepsDistinct(s: State, r: string, tr: TransferRecord)
    requires KnownUuids(s, r) && (r, tr.uuid) !in s.used
    ensures DistinctUuids(TransfersOf(s.remotes, r) + [tr])
  {
    var stored := TransfersOf(s.remotes, r);
    forall i | 0 <= i < |stored| ensures stored[i].uuid != tr.uuid {
      assert stored[i] in stored;
    }
  }

  lemma AddKeepsKnown(s: State, t: State, r: string, tr: TransferRecord)
    requires KnownUuids(s, r) && AddTransferStep(s, t, r, tr)
    ensures KnownUuids(t, r)
  {
    AddKeepsDistinct(s, r, tr);
  }

  lemma AddKeepsInv(s: State, t: State, r: string, tr: TransferRecord)
    requires Inv(s) && AddTransferStep(s, t, r, tr)
    ensures Inv(t)
  {
    forall q
      ensures InvAt(t, q)
    {
      assert InvAt(s, q);
      if q == r {
        AddKeepsInvHere(s, t, r, tr);
        AddKeepsKnown(s, t, r, tr);
      } else {
        OtherRemoteUnchanged(s, t, q, TransferAdded(r, tr.uuid));
      }
    }
  }

  lemma UpdateOneAlike(stored: seq<TransferRecord>, i: nat, tr: TransferRecord)
    requires i < |stored| && tr.uuid == stored[i].uuid && DistinctUuids(stored)
    ensures Alike(stored, stored[i := tr], Some(tr.uuid))
    ensures SameDiscriminant(tr.state, stored[i].state) ==> Alike(stored, stored[i := tr], None)
    ensures DistinctUuids(stored[i := tr])
  {
  }

  /** Reading the event then puts that place right. */
  lemma SetFirstRepairs(xs: seq<TransferRecord>, stored: seq<TransferRecord>, i: nat)
    requires i < |stored| && DistinctUuids(stored)
    requires Alike(xs, stored, Some(stored[i].uuid))
    ensures Alike(SetFirst(xs, stored[i]), stored, None)
  {
    IndexOfDistinct(stored, i);
    IndexOfAlike(xs, stored, Some(stored[i].uuid), stored[i].uuid);
    forall j | 0 <= j < |xs| && j != i
      ensures SameDiscriminant(xs[j].state, stored[j].state)
    {
      if j < i { assert stored[j].uuid != stored[i].uuid; } else { assert stored[i].uuid != stored[j].uuid; }
    }
  }

  lemma AlikeTrans(xs: seq<TransferRecord>, ys: seq<TransferRecord>, zs: seq<TransferRecord>, except: Option<string>)
    requires Alike(xs, ys, except) && Alike(ys, zs, except)
    ensures Alike(xs, zs, except)
  {
  }

  /** What is pending, worked off against the updated list, is like that list but for the updated transfer. */
  lemma UpdatedDrain(base: seq<TransferRecord>, unread: seq<WarpEvent>, r: string, before: seq<TransferRecord>, i: nat,
                     tr: TransferRecord, except: Option<string>)
    requires i < |before| && tr.uuid == before[i].uuid && DistinctUuids(before)
    requires Alike(Drain(base, unread, r, before), before, None)
    requires SameDiscriminant(tr.state, before[i].state) || except == Some(tr.uuid)
    ensures Alike(Drain(base, unread, r, before[i := tr]), before[i := tr], except)
  {
    var after := before[i := tr];
    var x, y := Drain(base, unread, r, before), Drain(base, unread, r, after);
    UpdateOneAlike(before, i, tr);
    DrainAlike(base, base, unread, r, after, before, except);
    AlikeTrans(y, x, before, except);
    AlikeTrans(y, before, after, except);
  }

  /** The list of the remote whose transfer is updated. */
  lemma UpdateKeepsInvHere(s: State, t: State, r: string, i: nat, tr: TransferRecord, dropped: bool)
    requires InvAt(s, r) && UpdateTransferStep(s, t, r, i, tr, dropped)
    ensures Alike(Settled(t, r), TransfersOf(t.remotes, r), None)
  {
    var base, before, after := Get(ApplyAll(s.view, s.outbox), r), TransfersOf(s.remotes, r), TransfersOf(t.remotes, r);
    assert after == before[i := tr];
    if dropped {
      UpdatedDrain(base, s.unread, r, before, i, tr, None);
      assert s.unread + [] == s.unread;
    } else {
      UpdatedDrain(base, s.unread, r, before, i, tr, Some(tr.uuid));
      DrainSnoc(base, s.unread, TransferUpdated(r, tr.uuid), r, after);
      UpdateKeepsKnown(s, t, r, i, tr, dropped);
      IndexOfDistinct(after, i);
      SetFirstRepairs(Drain(base, s.unread, r, after), after, i);
    }
  }

  lemma UpdateKeepsKnown(s: State, t: State, r: string, i: nat, tr: TransferRecord, dropped: bool)
    requires KnownUuids(s, r) && UpdateTransferStep(s, t, r, i, tr, dropped)
    ensures KnownUuids(t, r)
  {
    var before, after := TransfersOf(s.remotes, r), TransfersOf(t.remotes, r);
    assert after == before[i := tr];
    assert before[i] in before;
    forall v | v in after ensures (r, v.uuid) in t.used {
      var k :| 0 <= k < |after| && after[k] == v;
      assert before[k] in before;
    }
  }

  lemma UpdateKeepsInv(s: State, t: State, r: string, i: nat, tr: TransferRecord, dropped: bool)
    requires Inv(s) && UpdateTransferStep(s, t, r, i, tr, dropped)
    ensures Inv(t)
  {
    forall q
      ensures InvAt(t, q)
    {
      assert InvAt(s, q);
      if q == r {
        UpdateKeepsInvHere(s, t, r, i, tr, dropped);
        UpdateKeepsKnown(s, t, r, i, tr, dropped);
      } else if dropped {
        NothingPublished(s, t, q);
      } else {
        OtherRemoteUnchanged(s, t, q, TransferUpdated(r, tr.uuid));
      }
    }
  }

  /** The list of the remote whose transfer is removed. */
  lemma RemoveKeepsAlike(s: State, t: State, r: string, i: nat)
    requires InvAt(s, r) && RemoveTransferStep(s, t, r, i)
    ensures Alike(Settled(t, r), TransfersOf(t.remotes, r), None)
  {
    var stored := TransfersOf(s.remotes, r);
    var u := stored[i].uuid;
    var base := Get(ApplyAll(s.view, s.outbox), r);
    RemovedList(s, t, r, i);
    DrainSnoc(base, s.unread, TransferRemoved(r, u), r, Without(stored, u));
    DrainWithout(base, base, s.unread, r, stored, u);
    WithoutAlike(Drain(base, s.unread, r, stored), stored, None, u);
  }

  lemma RemovedList(s: State, t: State, r: string, i: nat)
    requires KnownUuids(s, r) && RemoveTransferStep(s, t, r, i)
    ensures TransfersOf(t.remotes, r) == Without(TransfersOf(s.remotes, r), TransfersOf(s.remotes, r)[i].uuid)
  {
    WithoutDistinct(TransfersOf(s.remotes, r), i);
  }

  lemma RemoveKeepsKnown(s: State, t: State, r: string, i: nat)
    requires KnownUuids(s, r) && RemoveTransferStep(s, t, r, i)
    ensures KnownUuids(t, r)
  {
    var stored := TransfersOf(s.remotes, r);
    assert stored[i] in stored;
  }

  lemma RemoveKeepsInv(s: State, t: State, r: string, i: nat)
    requires Inv(s) && RemoveTransferStep(s, t, r, i)
    ensures Inv(t)
  {
    forall q
      ensures InvAt(t, q)
    {
      assert InvAt(s, q);
      if q == r {
        RemoveKeepsAlike(s, t, r, i);
        RemoveKeepsKnown(s, t, r, i);
      } else {
        OtherRemoteUnchanged(s, t, q, TransferRemoved(r, TransfersOf(s.remotes, r)[i].uuid));
      }
    }
  }

  lemma HydrateKeepsInv(s: State, t: State)
    requires Inv(s) && HydrateStep(s, t)
    ensures Inv(t)
  {
    forall q
      ensures InvAt(t, q)
    {
      assert InvAt(s, q);
      var e := s.unread[0];
      var v := ApplyAll(s.view, s.outbox);
      HydrateThenApply(v, e, s.remotes, q);
      var h := Hydrate(e, s.remotes);
      if h.Some? {
        ApplyAllSnoc(s.view, s.outbox, h.value);
      } else {
        assert s.outbox + [] == s.outbox;
      }
      forall k, u | 0 <= k < |t.unread| && Mentions(t.unread[k], q, u)
        ensures (q, u) in t.used
      {
        assert Mentions(s.unread[k + 1], q, u);
      }
    }
  }

  lemma ApplyKeepsInv(s: State, t: State)
    requires Inv(s) && ApplyStep(s, t)
    ensures Inv(t)
  {
    forall q
      ensures InvAt(t, q)
    {
      assert InvAt(s, q);
    }
  }

  lemma RemoteStepsKeepInv(s: State, t: State)
    requires Inv(s)
    requires (exists remote :: AddRemoteStep(s, t, remote)) || (exists r :: AnnounceRemoteStep(s, t, r))
          || (exists remote :: UpdateRemoteStep(s, t, remote))
    ensures Inv(t)
  {
    forall q
      ensures InvAt(t, q)
    {
      assert InvAt(s, q);
      if remote :| AddRemoteStep(s, t, remote) {
        assert t.unread == s.unread;
        NothingPublished(s, t, q);
      } else if r :| AnnounceRemoteStep(s, t, r) {
        OtherRemoteUnchanged(s, t, q, RemoteAdded(r));
      } else {
        var remote :| UpdateRemoteStep(s, t, remote);
        OtherRemoteUnchanged(s, t, q, RemoteUpdated(remote.uuid));
      }
    }
  }

  lemma NextKeepsInv(s: State, t: State)
    requires Inv(s) && Next(s, t)
    ensures Inv(t)
  {
    if r, tr :| AddTransferStep(s, t, r, tr) {
      AddKeepsInv(s, t, r, tr);
    } else if r, i, tr, dropped :| UpdateTransferStep(s, t, r, i, tr, dropped) {
      UpdateKeepsInv(s, t, r, i, tr, dropped);
    } else if r, i :| RemoveTransferStep(s, t, r, i) {
      RemoveKeepsInv(s, t, r, i);
    } else if HydrateStep(s, t) {
      HydrateKeepsInv(s, t);
    } else if ApplyStep(s, t) {
      ApplyKeepsInv(s, t);
    } else {
      RemoteStepsKeepInv(s, t);
    }
  }

  lemma {:induction false} AlwaysInv(run: seq<State>, i: nat)
    requires IsRun(run) && i < |run|
    ensures Inv(run[i])
  {
    if i == 0 {
      forall r
        ensures InvAt(run[0], r)
      {
        assert Settled(run[0], r) == [];
      }
    } else {
      AlwaysInv(run, i - 1);
      assert Next(run[i - 1], run[i - 1 + 1]);
      NextKeepsInv(run[i - 1], run[i]);
    }
  }

  /**
   In every run, whenever both queues are empty, the view of each remote lists the same transfers in the same
   order and with the same state variants as the store, whichever progress events were dropped on the way.
   */
  lemma Converges(run: seq<State>, i: nat, r: string)
    requires IsRun(run) && i < |run| && run[i].unread == [] && run[i].outbox == []
    ensures Alike(Get(run[i].view, r), TransfersOf(run[i].remotes, r), None)
  {
    AlwaysInv(run, i);
    assert InvAt(run[i], r);
  }

  // ----- every announced remote is shown -----

  ghost predicate Keyed(s: State) {
    forall r :: r in s.remotes ==> s.remotes[r].uuid == r
  }

  predicate AddsRemote(e: AppEvent, r: string) {
    e.AppRemoteAdded? && e.remote.uuid == r
  }

  /** The copy has a list for the remote, or the event that makes one is pending. */
  ghost predicate OnItsWay(s: State, r: string) {
    r in s.view || RemoteAdded(r) in s.unread || exists k :: 0 <= k < |s.outbox| && AddsRemote(s.outbox[k], r)
  }

  lemma NextKeepsKeyed(s: State, t: State)
    requires Next(s, t) && Keyed(s)
    ensures Keyed(t) && forall r :: r in s.remotes ==> r in t.remotes
  {
  }

  lemma HydrateKeepsOnItsWay(s: State, t: State, r: string)
    requires HydrateStep(s, t) && Keyed(s) && r in s.remotes && OnItsWay(s, r)
    ensures OnItsWay(t, r)
  {
    if k :| 0 <= k < |s.outbox| && AddsRemote(s.outbox[k], r) {
      assert t.outbox[k] == s.outbox[k];
    } else if s.unread[0] == RemoteAdded(r) {
      assert AddsRemote(t.outbox[|s.outbox|], r);
    } else if RemoteAdded(r) in s.unread {
      assert s.unread == [s.unread[0]] + s.unread[1..];
    }
  }

  lemma ApplyKeepsOnItsWay(s: State, t: State, r: string)
    requires ApplyStep(s, t) && OnItsWay(s, r)
    ensures OnItsWay(t, r)
  {
    if k :| 0 <= k < |s.outbox| && AddsRemote(s.outbox[k], r) {
      if k > 0 { assert t.outbox[k - 1] == s.outbox[k]; }
    }
  }

  lemma NextKeepsOnItsWay(s: State, t: State, r: string)
    requires Next(s, t) && Keyed(s) && r in s.remotes && OnItsWay(s, r)
    ensures OnItsWay(t, r)
  {
    if HydrateStep(s, t) {
      HydrateKeepsOnItsWay(s, t, r);
    } else if ApplyStep(s, t) {
      ApplyKeepsOnItsWay(s, t, r);
    } else {
      assert s.unread <= t.unread && t.outbox == s.outbox && t.view == s.view;
    }
  }

  lemma {:induction false} AlwaysKeyed(run: seq<State>, i: nat)
    requires IsRun(run) && i < |run|
    ensures Keyed(run[i])
  {
    if i > 0 {
      AlwaysKeyed(run, i - 1);
      assert Next(run[i - 1], run[i - 1 + 1]);
      NextKeepsKeyed(run[i - 1], run[i]);
    }
  }

  lemma {:induction false} StaysOnItsWay(run: seq<State>, i: nat, j: nat, r: string)
    requires IsRun(run) && i <= j < |run| && r in run[i].remotes && OnItsWay(run[i], r)
    ensures r in run[j].remotes && OnItsWay(run[j], r)
  {
    if i < j {
      StaysOnItsWay(run, i, j - 1, r);
      AlwaysKeyed(run, j - 1);
      assert Next(run[j - 1], run[j - 1 + 1]);
      NextKeepsKeyed(run[j - 1], run[j]);
      NextKeepsOnItsWay(run[j - 1], run[j], r);
    }
  }

  /** In every run, once a remote has been announced, the copy has a list for it whenever both queues are empty. */
  lemma AnnouncedIsShown(run: seq<State>, i: nat, j: nat, r: string)
    requires IsRun(run) && i < j < |run| && AnnounceRemoteStep(run[i], run[i + 1], r)
    requires run[j].unread == [] && run[j].outbox == []
    ensures r in run[j].view
  {
    var n := |run[i].unread|;
    assert run[i + 1].unread[n] == RemoteAdded(r);
    StaysOnItsWay(run, i + 1, j, r);
  }

  // ----- the store's operations are steps of this system -----

  /** The reader's store is the manager's, and its channel takes one more event without losing any. */
  ghost predicate Follows(s: State, store: Store) {
    s.remotes == store.remotes && store.receivers > 0 && |store.queue| < CAPACITY
  }

  /** The step the reader sees when an operation of the store has published `e`. */
  function Seen(s: State, after: Store, e: WarpEvent): State {
    s.(remotes := after.remotes, unread := s.unread + [e])
  }

  lemma StoreAddIsAStep(store: Store, s: State, r: string, tr: TransferRecord)
    requires Follows(s, store) && r in store.remotes && (r, tr.uuid) !in s.used
    ensures var after, e := AddTransfer(store, r, tr), TransferAdded(r, tr.uuid);
      && after.queue == store.queue + [Queued(e, false)]
      && AddTransferStep(s, Seen(s, after, e).(used := s.used + {(r, tr.uuid)}), r, tr)
  {
  }

  lemma StoreRemoveIsAStep(store: Store, s: State, r: string, u: string)
    requires Follows(s, store)
    requires var ts := TransfersOf(store.remotes, r); IndexOf(ts, u) < |ts|
    ensures var after, e := RemoveTransfer(store, r, u), TransferRemoved(r, u);
      && after.queue == store.queue + [Queued(e, false)]
      && RemoveTransferStep(s, Seen(s, after, e), r, IndexOf(TransfersOf(store.remotes, r), u))
  {
  }

  lemma StoreUpdateRemoteIsAStep(store: Store, s: State, r: string, f: Remote -> Remote)
    requires Follows(s, store) && r in store.remotes
    requires f(store.remotes[r]).uuid == r && f(store.remotes[r]).transfers == store.remotes[r].transfers
    ensures var after, e := UpdateRemote(store, r, f), RemoteUpdated(r);
      && after.queue == store.queue + [Queued(e, false)]
      && UpdateRemoteStep(s, Seen(s, after, e), f(store.remotes[r]))
  {
  }

  /** Adding a remote is two steps: the record under the lock, and its event after that. */
  lemma StoreInsertIsAStep(store: Store, s: State, remote: Remote)
    requires Follows(s, store) && remote.uuid !in store.remotes && remote.transfers == []
    ensures var after := InsertRemote(store, remote.uuid, remote);
      after.queue == store.queue && AddRemoteStep(s, s.(remotes := after.remotes), remote)
  {
    assert s.unread + [] == s.unread;
  }

  lemma StoreAnnounceIsAStep(store: Store, s: State, r: string)
    requires Follows(s, store) && r in store.remotes
    ensures var after, e := PublishOn(store, RemoteAdded(r), false), RemoteAdded(r);
      && after.queue == store.queue + [Queued(e, false)]
      && AnnounceRemoteStep(s, Seen(s, after, e), r)
  {
  }

  /** The store's throttled update is such a step: it publishes, or drops the event of a mere progress change. */
  lemma StoreUpdateIsAStep(store: Store, s: State, r: string, u: string, f: TransferRecord -> TransferRecord)
    requires Follows(s, store)
    requires forall t :: f(t).uuid == t.uuid
    requires var ts := TransfersOf(store.remotes, r); IndexOf(ts, u) < |ts|
    ensures var after := UpdateTransfer(store, r, u, f);
      var i := IndexOf(TransfersOf(store.remotes, r), u);
      var dropped := after.queue == store.queue;
      var t := s.(remotes := after.remotes, unread := s.unread + if dropped then [] else [TransferUpdated(r, u)]);
      UpdateTransferStep(s, t, r, i, f(TransfersOf(store.remotes, r)[i]), dropped)
  {
    assert |store.queue + [Queued(TransferUpdated(r, u), true)]| != |store.queue|;
  }
}
