/**
 The breadth-first walker over the virtual filesystem, and what its order
 means: every reachable node once, level by level, parents first.
 */
module WalkDir {
  import opened Common
  import opened Paths
  import opened SourceTree

  datatype WalkDirEntry = WalkDirEntry(isDir: bool, path: string, name: string, basePath: string)
  {
    function Rel(): string { RelativePath(basePath, name) }
  }

  function EntryOf(v: Visit): WalkDirEntry {
    WalkDirEntry(v.node.Dir?, v.node.path, v.node.name, v.base)
  }

  /** The queue holds exactly the given places, and the filesystem shows them faithfully. */
  ghost predicate Represents(vfs: Vfs, queue: seq<WalkDirEntry>, pending: seq<Visit>) {
    && |queue| == |pending|
    && forall i :: 0 <= i < |queue| ==> queue[i] == EntryOf(pending[i]) && Mounted(vfs, pending[i].node)
  }

  /** The queue entries for listed children. */
  function Listed(children: seq<VirtualEntry>, base: string): (r: seq<WalkDirEntry>)
    ensures |r| == |children|
    ensures forall i :: 0 <= i < |r| ==>
      r[i] == WalkDirEntry(children[i].isDir, children[i].path, children[i].name, base)
  {
    seq(|children|, i requires 0 <= i < |children| =>
      WalkDirEntry(children[i].isDir, children[i].path, children[i].name, base))
  }

  lemma ListedNext(waiting: seq<WalkDirEntry>, children: seq<VirtualEntry>, i: nat, base: string)
    requires i < |children|
    ensures var child := children[i];
      waiting + Listed(children[..i], base) + [WalkDirEntry(child.isDir, child.path, child.name, base)]
      == waiting + Listed(children[..i + 1], base)
  {
    var child := children[i];
    assert Listed(children[..i + 1], base)
        == Listed(children[..i], base) + [WalkDirEntry(child.isDir, child.path, child.name, base)];
  }

  /** What a listing adds to the queue stands for the node's children. */
  lemma ListedAreKids(vfs: Vfs, v: Visit)
    requires Mounted(vfs, v.node)
    ensures v.node.Dir? && vfs.ListDir(v.node.path).Ok? ==>
      Represents(vfs, Listed(vfs.ListDir(v.node.path).value, v.Rel()), Kids(v))
    ensures !(v.node.Dir? && vfs.ListDir(v.node.path).Ok?) ==> Kids(v) == []
  {
  }

  lemma RepresentsAppend(vfs: Vfs, q1: seq<WalkDirEntry>, p1: seq<Visit>, q2: seq<WalkDirEntry>, p2: seq<Visit>)
    requires Represents(vfs, q1, p1) && Represents(vfs, q2, p2)
    ensures Represents(vfs, q1 + q2, p1 + p2)
  {
  }

  class VirtualWalkDir {
    var queue: seq<WalkDirEntry>

    constructor (rootPath: string, rootName: string)
      ensures queue == [WalkDirEntry(true, rootPath, rootName, "")]
    {
      queue := [WalkDirEntry(true, rootPath, rootName, "")];
    }

    /** Hands out the head of the queue and puts its children at the back; a failed listing adds nothing. */
    method Next(vfs: Vfs, ghost pending: seq<Visit>) returns (entry: Option<WalkDirEntry>)
      requires Represents(vfs, queue, pending)
      modifies this
      ensures entry.None? <==> pending == []
      ensures entry.None? ==> queue == old(queue)
      ensures entry.Some? ==> entry.value == EntryOf(pending[0])
      ensures entry.Some? ==> Represents(vfs, queue, pending[1..] + Kids(pending[0]))
    {
      if queue == [] {
        return None;
      }
      var current := queue[0];
      queue := queue[1..];
      ghost var waiting, v := queue, pending[0];
      ListedAreKids(vfs, v);
      if current.isDir {
        var listing := vfs.ListDir(current.path);
        match listing {
          case Ok(children) =>
            for i := 0 to |children|
              invariant queue == waiting + Listed(children[..i], current.Rel())
            {
              var child := children[i];
              ListedNext(waiting, children, i, current.Rel());
              queue := queue + [WalkDirEntry(child.isDir, child.path, child.name, current.Rel())];
            }
            assert children[..|children|] == children;
            RepresentsAppend(vfs, waiting, pending[1..], Listed(children, current.Rel()), Kids(v));
          case Err(_) =>
            RepresentsAppend(vfs, waiting, pending[1..], [], []);
        }
      } else {
        RepresentsAppend(vfs, waiting, pending[1..], [], []);
      }
      return Some(current);
    }
  }

  // ----- sizes, for termination -----

  function Size(t: Tree): nat
    decreases t, 0
  {
    match t
    case File(_, _, _, _) => 1
    case Dir(_, _, _, children) => 1 + SizeAll(children)
  }

  function SizeAll(nodes: seq<Tree>): nat
    decreases nodes, 1
  {
    if nodes == [] then 0 else Size(nodes[0]) + SizeAll(nodes[1..])
  }

  /** How many nodes are still at or below the queue. */
  function PendingSize(queue: seq<Visit>): nat {
    if queue == [] then 0 else Size(queue[0].node) + PendingSize(queue[1..])
  }

  lemma {:induction false} PendingSizeAppend(a: seq<Visit>, b: seq<Visit>)
    ensures PendingSize(a + b) == PendingSize(a) + PendingSize(b)
  {
    if a == [] {
      assert a + b == b;
    } else {
      PendingSizeAppend(a[1..], b);
      assert (a + b)[1..] == a[1..] + b;
    }
  }

  lemma {:induction false} PendingSizeOfKids(vs: seq<Visit>, nodes: seq<Tree>)
    requires |vs| == |nodes| && forall i :: 0 <= i < |vs| ==> vs[i].node == nodes[i]
    ensures PendingSize(vs) == SizeAll(nodes)
  {
    if vs == [] {
    } else {
      PendingSizeOfKids(vs[1..], nodes[1..]);
    }
  }

  lemma StepShrinks(queue: seq<Visit>)
    requires queue != []
    ensures PendingSize(queue[1..] + Kids(queue[0])) < PendingSize(queue)
  {
    PendingSizeAppend(queue[1..], Kids(queue[0]));
    if Kids(queue[0]) != [] {
      PendingSizeOfKids(Kids(queue[0]), queue[0].node.children);
    }
  }

  // ----- the order of the walk -----

  /** The places handed out by repeated `next`, starting with a given queue. */
  function Bfs(queue: seq<Visit>): seq<Visit>
    decreases PendingSize(queue)
  {
    if queue == [] then []
    else
      StepShrinks(queue);
      [queue[0]] + Bfs(queue[1..] + Kids(queue[0]))
  }

  function AllKids(level: seq<Visit>): seq<Visit> {
    if level == [] then [] else Kids(level[0]) + AllKids(level[1..])
  }

  lemma BfsStep(first: Visit, rest: seq<Visit>)
    ensures Bfs([first] + rest) == [first] + Bfs(rest + Kids(first))
  {
    var queue := [first] + rest;
    assert queue[0] == first && queue[1..] == rest;
  }

  lemma AllKidsStep(first: Visit, rest: seq<Visit>, waiting: seq<Visit>)
    ensures waiting + AllKids([first] + rest) == (waiting + Kids(first)) + AllKids(rest)
  {
    var level := [first] + rest;
    assert level[0] == first && level[1..] == rest;
  }

  lemma Regroup<T>(a: seq<T>, b: seq<T>, c: seq<T>)
    ensures (a + b) + c == a + (b + c)
  {
  }

  /** Working through the front of the queue puts all its children behind what was waiting. */
  lemma {:induction false} BfsSplit(front: seq<Visit>, waiting: seq<Visit>)
    ensures Bfs(front + waiting) == front + Bfs(waiting + AllKids(front))
    decreases |front|
  {
    if front == [] {
      assert front + waiting == waiting && waiting + AllKids(front) == waiting;
    } else {
      var first, rest := front[0], front[1..];
      assert front == [first] + rest;
      Regroup([first], rest, waiting);
      BfsStep(first, rest + waiting);
      Regroup(rest, waiting, Kids(first));
      BfsSplit(rest, waiting + Kids(first));
      AllKidsStep(first, rest, waiting);
      Regroup([first], rest, Bfs(waiting + AllKids(front)));
    }
  }

  lemma BfsByLevel(level: seq<Visit>)
    ensures Bfs(level) == level + Bfs(AllKids(level))
  {
    BfsSplit(level, []);
    assert level + [] == level && [] + AllKids(level) == AllKids(level);
  }

  lemma {:induction false} AllKidsOrigin(level: seq<Visit>, x: Visit)
    requires x in AllKids(level)
    ensures exists j, i :: 0 <= j < |level| && 0 <= i < |Kids(level[j])| && x == Kids(level[j])[i]
  {
    if x in Kids(level[0]) {
      var i :| 0 <= i < |Kids(level[0])| && x == Kids(level[0])[i];
    } else {
      AllKidsOrigin(level[1..], x);
      var j, i :| 0 <= j < |level[1..]| && 0 <= i < |Kids(level[1..][j])| && x == Kids(level[1..][j])[i];
      assert level[1..][j] == level[j + 1];
    }
  }

  lemma {:induction false} AllKidsShrink(level: seq<Visit>)
    requires level != []
    ensures PendingSize(AllKids(level)) < PendingSize(level)
  {
    PendingSizeAppend(Kids(level[0]), AllKids(level[1..]));
    if Kids(level[0]) != [] {
      PendingSizeOfKids(Kids(level[0]), level[0].node.children);
    }
    if level[1..] != [] {
      AllKidsShrink(level[1..]);
    }
  }

  /** `a` is listed before `b` on the same level: at the first difference it has the smaller index. */
  predicate Lex(a: seq<nat>, b: seq<nat>) {
    && |a| == |b|
    && exists k :: 0 <= k < |a| && a[..k] == b[..k] && a[k] < b[k]
  }

  /** Level order: shallower first, then left to right. It is strict, so it also rules out repetitions. */
  predicate Before(a: seq<nat>, b: seq<nat>) {
    |a| < |b| || Lex(a, b)
  }

  ghost predicate InLevelOrder(vs: seq<Visit>) {
    forall i, j :: 0 <= i < j < |vs| ==> Before(vs[i].addr, vs[j].addr)
  }

  ghost predicate IsLevel(level: seq<Visit>, depth: nat) {
    && (forall i :: 0 <= i < |level| ==> |level[i].addr| == depth)
    && InLevelOrder(level)
  }

  lemma LexExtends(a: seq<nat>, b: seq<nat>, i: nat, j: nat)
    requires Lex(a, b) || (a == b && i < j)
    ensures Lex(a + [i], b + [j])
  {
    if a == b && i < j {
      assert (a + [i])[..|a|] == (b + [j])[..|a|];
    } else {
      var k :| 0 <= k < |a| && a[..k] == b[..k] && a[k] < b[k];
      assert (a + [i])[..k] == a[..k] && (b + [j])[..k] == b[..k];
      assert (a + [i])[k] < (b + [j])[k];
    }
  }

  /** All children of a node come before all children of the nodes right of it. */
  lemma CousinsInOrder(first: Visit, rest: seq<Visit>, i: nat, y: Visit)
    requires i < |Kids(first)| && y in AllKids(rest)
    requires forall k :: 0 <= k < |rest| ==> Lex(first.addr, rest[k].addr)
    ensures Lex(Kids(first)[i].addr, y.addr)
  {
    AllKidsOrigin(rest, y);
    var p, q :| 0 <= p < |rest| && 0 <= q < |Kids(rest[p])| && y == Kids(rest[p])[q];
    LexExtends(first.addr, rest[p].addr, i, q);
  }

  lemma KidsAreLevel(v: Visit)
    ensures IsLevel(Kids(v), |v.addr| + 1)
  {
    forall i, j | 0 <= i < j < |Kids(v)|
      ensures Before(Kids(v)[i].addr, Kids(v)[j].addr)
    {
      LexExtends(v.addr, v.addr, i, j);
    }
  }

  lemma JoinLevels(a: seq<Visit>, b: seq<Visit>, depth: nat)
    requires IsLevel(a, depth) && IsLevel(b, depth)
    requires forall i, j :: 0 <= i < |a| && 0 <= j < |b| ==> Lex(a[i].addr, b[j].addr)
    ensures IsLevel(a + b, depth)
  {
    var all := a + b;
    forall i, j | 0 <= i < j < |all|
      ensures Before(all[i].addr, all[j].addr)
    {
      if i < |a| <= j {
        assert Lex(a[i].addr, b[j - |a|].addr);
      } else if |a| <= i {
        assert Before(b[i - |a|].addr, b[j - |a|].addr);
      }
    }
  }

  lemma {:induction false} NextLevel(level: seq<Visit>, depth: nat)
    requires IsLevel(level, depth)
    ensures IsLevel(AllKids(level), depth + 1)
  {
    if level == [] {
    } else {
      var first, rest := level[0], level[1..];
      forall k | 0 <= k < |rest|
        ensures Lex(first.addr, rest[k].addr)
      {
        assert Before(level[0].addr, level[k + 1].addr);
      }
      NextLevel(rest, depth);
      KidsAreLevel(first);
      forall i, j | 0 <= i < |Kids(first)| && 0 <= j < |AllKids(rest)|
        ensures Lex(Kids(first)[i].addr, AllKids(rest)[j].addr)
      {
        CousinsInOrder(first, rest, i, AllKids(rest)[j]);
      }
      JoinLevels(Kids(first), AllKids(rest), depth + 1);
    }
  }

  /** From any level on, the walk is in level order and never goes up again. */
  lemma {:induction false} BfsOrdered(level: seq<Visit>, depth: nat)
    requires IsLevel(level, depth)
    ensures InLevelOrder(Bfs(level))
    ensures forall i :: 0 <= i < |Bfs(level)| ==> |Bfs(level)[i].addr| >= depth
    decreases PendingSize(level)
  {
    if level == [] {
    } else {
      BfsByLevel(level);
      NextLevel(level, depth);
      AllKidsShrink(level);
      BfsOrdered(AllKids(level), depth + 1);
    }
  }

  ghost predicate ArePlaces(forest: seq<Tree>, vs: seq<Visit>) {
    forall i :: 0 <= i < |vs| ==> Find(forest, vs[i].addr) == Some(vs[i])
  }

  lemma KidsArePlaces(forest: seq<Tree>, v: Visit)
    requires Find(forest, v.addr) == Some(v)
    ensures ArePlaces(forest, Kids(v))
  {
    forall i | 0 <= i < |Kids(v)|
      ensures Find(forest, Kids(v)[i].addr) == Some(Kids(v)[i])
    {
      FindKid(forest, v, i);
    }
  }

  lemma PlacesAppend(forest: seq<Tree>, a: seq<Visit>, b: seq<Visit>)
    requires ArePlaces(forest, a) && ArePlaces(forest, b)
    ensures ArePlaces(forest, a + b)
  {
  }

  lemma PlacesTail(forest: seq<Tree>, queue: seq<Visit>)
    requires ArePlaces(forest, queue) && queue != []
    ensures Find(forest, queue[0].addr) == Some(queue[0]) && ArePlaces(forest, queue[1..])
  {
  }

  /** Everything handed out is a real place of the forest. */
  lemma {:induction false} BfsSound(forest: seq<Tree>, queue: seq<Visit>)
    requires ArePlaces(forest, queue)
    ensures ArePlaces(forest, Bfs(queue))
    decreases PendingSize(queue)
  {
    if queue == [] {
    } else {
      StepShrinks(queue);
      var first, rest := queue[0], queue[1..];
      PlacesTail(forest, queue);
      KidsArePlaces(forest, first);
      PlacesAppend(forest, rest, Kids(first));
      BfsSound(forest, rest + Kids(first));
      PlacesAppend(forest, [first], Bfs(rest + Kids(first)));
    }
  }

  ghost predicate HandsOut(walk: seq<Visit>, queue: seq<Visit>) {
    forall i :: 0 <= i < |queue| ==> queue[i] in walk
  }

  ghost predicate KeepsKids(walk: seq<Visit>) {
    forall v, i :: v in walk && 0 <= i < |Kids(v)| ==> Kids(v)[i] in walk
  }

  lemma HandsOutFirst(first: Visit, rest: seq<Visit>, walk: seq<Visit>)
    requires HandsOut(walk, rest + Kids(first)) && KeepsKids(walk)
    ensures HandsOut([first] + walk, [first] + rest) && KeepsKids([first] + walk)
  {
    var next := rest + Kids(first);
    forall i | 0 <= i < |rest|
      ensures rest[i] in walk
    {
      assert next[i] == rest[i];
    }
    forall i | 0 <= i < |Kids(first)|
      ensures Kids(first)[i] in walk
    {
      assert next[|rest| + i] == Kids(first)[i];
    }
  }

  /** What waits in the queue is handed out, and so are the children of whatever is handed out. */
  lemma {:induction false} BfsClosed(queue: seq<Visit>)
    ensures HandsOut(Bfs(queue), queue) && KeepsKids(Bfs(queue))
    decreases PendingSize(queue)
  {
    if queue == [] {
    } else {
      StepShrinks(queue);
      var first, rest := queue[0], queue[1..];
      assert queue == [first] + rest;
      BfsClosed(rest + Kids(first));
      HandsOutFirst(first, rest, Bfs(rest + Kids(first)));
      BfsStep(first, rest);
    }
  }

  /** Every place below the root of source `i` is handed out when the walk starts there. */
  lemma {:induction false} BfsComplete(forest: seq<Tree>, i: nat, addr: seq<nat>)
    requires i < |forest| && addr != [] && addr[0] == i && Find(forest, addr).Some?
    ensures Find(forest, addr).value in Bfs([Root(forest, i)])
  {
    BfsClosed([Root(forest, i)]);
    var n := |addr| - 1;
    if n == 0 {
      assert [Root(forest, i)][0] in Bfs([Root(forest, i)]);
    } else {
      BfsComplete(forest, i, addr[..n]);
      assert Kids(Find(forest, addr[..n]).value)[addr[n]] in Bfs([Root(forest, i)]);
    }
  }

  lemma AddressPrefix(forest: seq<Tree>, addr: seq<nat>)
    requires Find(forest, addr).Some?
    ensures addr[0] < |forest|
  {
    if |addr| > 1 {
      AddressPrefix(forest, addr[..|addr| - 1]);
    }
  }

  lemma {:induction false} BfsStaysBelowRoot(queue: seq<Visit>, i: nat)
    requires forall k :: 0 <= k < |queue| ==> queue[k].addr != [] && queue[k].addr[0] == i
    ensures forall k :: 0 <= k < |Bfs(queue)| ==> Bfs(queue)[k].addr != [] && Bfs(queue)[k].addr[0] == i
    decreases PendingSize(queue)
  {
    if queue == [] {
    } else {
      StepShrinks(queue);
      BfsStaysBelowRoot(queue[1..] + Kids(queue[0]), i);
    }
  }

  /**
   The whole contract of a walk that starts at source `i`: it hands out exactly the places that can be
   reached through readable directories, each once, in level order, with the joined names as path.
   */
  lemma WalkIsLevelOrder(forest: seq<Tree>, i: nat)
    requires i < |forest|
    ensures var walk := Bfs([Root(forest, i)]);
      && InLevelOrder(walk)
      && (forall k :: 0 <= k < |walk| ==>
            && Find(forest, walk[k].addr) == Some(walk[k])
            && walk[k].addr[0] == i
            && walk[k].Rel() == Join(Names(forest, walk[k].addr)))
      && (forall addr {:trigger Place(forest, addr)} :: Place(forest, addr) && addr[0] == i ==>
            Find(forest, addr).value in walk)
  {
    var walk := Bfs([Root(forest, i)]);
    BfsOrdered([Root(forest, i)], 1);
    BfsSound(forest, [Root(forest, i)]);
    BfsStaysBelowRoot([Root(forest, i)], i);
    forall k | 0 <= k < |walk|
      ensures walk[k].Rel() == Join(Names(forest, walk[k].addr))
    {
      RelIsJoin(forest, walk[k].addr);
    }
    forall addr {:trigger Place(forest, addr)} | Place(forest, addr) && addr[0] == i
      ensures Find(forest, addr).value in walk
    {
      BfsComplete(forest, i, addr);
    }
  }

  /** Number `j` was waiting from the start, or its directory was handed out before it. */
  ghost predicate WaitedOrParentFirst(walk: seq<Visit>, queue: seq<Visit>, j: nat)
    requires j < |walk|
  {
    walk[j] in queue || exists p :: 0 <= p < j && walk[p].node.Dir? && walk[j].base == walk[p].Rel()
  }

  lemma WaitedAfterFirst(first: Visit, rest: seq<Visit>, walk: seq<Visit>, j: nat)
    requires j < |walk| && WaitedOrParentFirst(walk, rest + Kids(first), j)
    ensures WaitedOrParentFirst([first] + walk, [first] + rest, j + 1)
  {
    var all := [first] + walk;
    assert all[j + 1] == walk[j];
    if walk[j] in rest + Kids(first) {
      if walk[j] in Kids(first) {
        assert all[0] == first;
      }
    } else {
      var p :| 0 <= p < j && walk[p].node.Dir? && walk[j].base == walk[p].Rel();
      assert all[p + 1] == walk[p];
    }
  }

  /** Whatever is handed out was waiting from the start, or its directory was handed out before it. */
  lemma {:induction false} ParentsFirst(queue: seq<Visit>, j: nat)
    requires j < |Bfs(queue)|
    ensures WaitedOrParentFirst(Bfs(queue), queue, j)
    decreases PendingSize(queue)
  {
    if j == 0 {
    } else {
      StepShrinks(queue);
      var first, rest := queue[0], queue[1..];
      assert queue == [first] + rest;
      BfsStep(first, rest);
      ParentsFirst(rest + Kids(first), j - 1);
      WaitedAfterFirst(first, rest, Bfs(rest + Kids(first)), j - 1);
    }
  }
}
