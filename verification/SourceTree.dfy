/**
 What is on the sending side: a forest of files and directories, the virtual
 filesystem that shows it to the library, and the place of every node in it.
 */
module SourceTree {
  import opened Common
  import opened Paths

  datatype VirtualFilesystemError =
    | AlreadySet | NotSet | FileNotFound | FileAlreadyExists | PermissionDenied | InvalidPath | FileCreateError

  /** A node of the source. `modified` counts nanoseconds since the epoch and may be negative or unknown.
      A directory that is not `readable` makes `list_dir` fail. */
  datatype Tree =
    | File(path: string, name: string, data: seq<byte>, modified: Option<int>)
    | Dir(path: string, name: string, readable: bool, children: seq<Tree>)

  datatype VirtualEntry = VirtualEntry(isDir: bool, path: string, name: string)

  /** The replies the application's filesystem gives, one table per kind of call. */
  datatype Vfs = Vfs(
    entries: map<string, VirtualEntry>,
    listings: map<string, Result<seq<VirtualEntry>, VirtualFilesystemError>>,
    files: map<string, (seq<byte>, Option<int>)>)
  {
    function Metadata(path: string): Result<VirtualEntry, VirtualFilesystemError> {
      if path in entries then Ok(entries[path]) else Err(FileNotFound)
    }

    function ListDir(path: string): Result<seq<VirtualEntry>, VirtualFilesystemError> {
      if path in listings then listings[path] else Err(FileNotFound)
    }

    function OpenFile(path: string): Result<(seq<byte>, Option<int>), VirtualFilesystemError> {
      if path in files then Ok(files[path]) else Err(FileNotFound)
    }
  }

  function EntryFor(t: Tree): VirtualEntry {
    VirtualEntry(t.Dir?, t.path, t.name)
  }

  function Entries(nodes: seq<Tree>): (r: seq<VirtualEntry>)
    ensures |r| == |nodes|
    ensures forall i :: 0 <= i < |nodes| ==> r[i] == EntryFor(nodes[i])
  {
    if nodes == [] then [] else [EntryFor(nodes[0])] + Entries(nodes[1..])
  }

  /** The filesystem answers every call about `t` and what is below it as the tree says. */
  ghost predicate Mounted(vfs: Vfs, t: Tree) {
    && vfs.Metadata(t.path) == Ok(EntryFor(t))
    && match t
       case File(path, _, data, modified) => vfs.OpenFile(path) == Ok((data, modified))
       case Dir(path, _, readable, children) =>
         if readable then
           && vfs.ListDir(path) == Ok(Entries(children))
           && forall i :: 0 <= i < |children| ==> Mounted(vfs, children[i])
         else vfs.ListDir(path).Err?
  }

  /** A node together with where it is: child indices from the root, and the path of its parent. */
  datatype Visit = Visit(addr: seq<nat>, base: string, node: Tree)
  {
    function Rel(): string { RelativePath(base, node.name) }
  }

  function Kids(v: Visit): (r: seq<Visit>)
    ensures |r| == (if v.node.Dir? && v.node.readable then |v.node.children| else 0)
    ensures forall i :: 0 <= i < |r| ==> r[i] == Visit(v.addr + [i], v.Rel(), v.node.children[i])
  {
    if v.node.Dir? && v.node.readable then
      seq(|v.node.children|, i requires 0 <= i < |v.node.children| => Visit(v.addr + [i], v.Rel(), v.node.children[i]))
    else []
  }

  function Root(forest: seq<Tree>, i: nat): Visit
    requires i < |forest|
  {
    Visit([i], "", forest[i])
  }

  /** The node at an address, unless the address leaves the forest or passes an unreadable directory. */
  function Find(forest: seq<Tree>, addr: seq<nat>): Option<Visit> {
    if addr == [] then None
    else
      var n := |addr| - 1;
      if n == 0 then
        if addr[0] < |forest| then Some(Root(forest, addr[0])) else None
      else
        match Find(forest, addr[..n])
        case None => None
        case Some(parent) =>
          if addr[n] < |Kids(parent)| then Some(Kids(parent)[addr[n]]) else None
  }

  /** The address leads to a node. */
  predicate Place(forest: seq<Tree>, addr: seq<nat>) {
    Find(forest, addr).Some?
  }

  /** The names met on the way to an address, outermost first. */
  function Names(forest: seq<Tree>, addr: seq<nat>): (names: seq<string>)
    requires Find(forest, addr).Some?
    ensures |names| == |addr|
  {
    var n := |addr| - 1;
    (if n == 0 then [] else Names(forest, addr[..n])) + [Find(forest, addr).value.node.name]
  }

  /** The relative path of a node is the slash-joined list of names from its root. */
  lemma {:induction false} RelIsJoin(forest: seq<Tree>, addr: seq<nat>)
    requires Find(forest, addr).Some?
    ensures Find(forest, addr).value.Rel() == Join(Names(forest, addr))
  {
    var n := |addr| - 1;
    var v := Find(forest, addr).value;
    if n == 0 {
      assert Join([]) == "";
      assert Names(forest, addr) == [v.node.name];
    } else {
      RelIsJoin(forest, addr[..n]);
      var names := Names(forest, addr);
      assert names[..n] == Names(forest, addr[..n]);
    }
  }

  lemma FindKid(forest: seq<Tree>, v: Visit, i: nat)
    requires Find(forest, v.addr) == Some(v)
    requires i < |Kids(v)|
    ensures Find(forest, Kids(v)[i].addr) == Some(Kids(v)[i])
  {
    var addr := v.addr + [i];
    assert addr[..|addr| - 1] == v.addr;
  }

  /** Names as the transfer expects them: usable as one path component, no "..", and siblings
      still different after sanitizing. The sources themselves count as siblings. */
  ghost predicate WellNamed(forest: seq<Tree>) {
    && (forall i :: 0 <= i < |forest| ==> GoodName(forest[i].name) && !ContainsDotDot(forest[i].name))
    && (forall i, j :: 0 <= i < j < |forest| ==> Sanitize(forest[i].name) != Sanitize(forest[j].name))
    && (forall i :: 0 <= i < |forest| ==> WellNamedBelow(forest[i]))
  }

  ghost predicate WellNamedBelow(t: Tree) {
    t.Dir? ==>
      && (forall i :: 0 <= i < |t.children| ==>
            GoodName(t.children[i].name) && !ContainsDotDot(t.children[i].name))
      && (forall i, j :: 0 <= i < j < |t.children| ==>
            Sanitize(t.children[i].name) != Sanitize(t.children[j].name))
      && (forall i :: 0 <= i < |t.children| ==> WellNamedBelow(t.children[i]))
  }

  lemma {:induction false} FoundIsWellNamed(forest: seq<Tree>, addr: seq<nat>)
    requires WellNamed(forest) && Find(forest, addr).Some?
    ensures WellNamedBelow(Find(forest, addr).value.node)
    ensures GoodNames(Names(forest, addr))
    ensures forall k :: 0 <= k < |addr| ==> !ContainsDotDot(Names(forest, addr)[k])
  {
    var n := |addr| - 1;
    if n > 0 {
      FoundIsWellNamed(forest, addr[..n]);
    }
  }

  /** The sanitized names on the way: those of the parent place, and the node's own. */
  lemma SanitizedNames(forest: seq<Tree>, addr: seq<nat>)
    requires Find(forest, addr).Some?
    ensures var x := SanitizeAll(Names(forest, addr));
      && |x| == |addr|
      && x[|addr| - 1] == Sanitize(Find(forest, addr).value.node.name)
      && (|addr| > 1 ==> x[..|addr| - 1] == SanitizeAll(Names(forest, addr[..|addr| - 1])))
  {
    var n := |addr| - 1;
    var x := SanitizeAll(Names(forest, addr));
    if n > 0 {
      var y := SanitizeAll(Names(forest, addr[..n]));
      assert forall i :: 0 <= i < n ==> x[i] == y[i];
    }
  }

  lemma SameRoot(forest: seq<Tree>, i: nat, j: nat)
    requires WellNamed(forest) && i < |forest| && j < |forest|
    requires Sanitize(forest[i].name) == Sanitize(forest[j].name)
    ensures i == j
  {
  }

  lemma SameKid(parent: Tree, i: nat, j: nat)
    requires WellNamedBelow(parent) && parent.Dir? && i < |parent.children| && j < |parent.children|
    requires Sanitize(parent.children[i].name) == Sanitize(parent.children[j].name)
    ensures i == j
  {
  }

  lemma FoundIsKid(forest: seq<Tree>, addr: seq<nat>)
    requires |addr| > 1 && Find(forest, addr).Some?
    ensures Place(forest, addr[..|addr| - 1])
    ensures var parent := Find(forest, addr[..|addr| - 1]).value.node;
      var i := addr[|addr| - 1];
      parent.Dir? && i < |parent.children| && Find(forest, addr).value.node == parent.children[i]
  {
  }

  lemma SameAddress(a: seq<nat>, b: seq<nat>)
    requires |a| == |b| > 0 && a[..|a| - 1] == b[..|a| - 1] && a[|a| - 1] == b[|a| - 1]
    ensures a == b
  {
    assert a == a[..|a| - 1] + [a[|a| - 1]];
  }

  /** Siblings with the same sanitized name are the same child. */
  lemma SameChild(forest: seq<Tree>, a: seq<nat>, b: seq<nat>)
    requires WellNamed(forest) && Find(forest, a).Some? && Find(forest, b).Some?
    requires |a| == |b| && a[..|a| - 1] == b[..|a| - 1]
    requires Sanitize(Find(forest, a).value.node.name) == Sanitize(Find(forest, b).value.node.name)
    ensures a == b
  {
    var n := |a| - 1;
    if n == 0 {
      assert Find(forest, a).value == Root(forest, a[0]) && Find(forest, b).value == Root(forest, b[0]);
      SameRoot(forest, a[0], b[0]);
    } else {
      FoundIsKid(forest, a);
      FoundIsKid(forest, b);
      FoundIsWellNamed(forest, a[..n]);
      SameKid(Find(forest, a[..n]).value.node, a[n], b[n]);
    }
    SameAddress(a, b);
  }

  /** Different places have different sanitized name lists. */
  lemma {:induction false} SanitizedNamesDiffer(forest: seq<Tree>, a: seq<nat>, b: seq<nat>)
    requires WellNamed(forest) && Find(forest, a).Some? && Find(forest, b).Some?
    requires SanitizeAll(Names(forest, a)) == SanitizeAll(Names(forest, b))
    ensures a == b
  {
    var n := |a| - 1;
    SanitizedNames(forest, a);
    SanitizedNames(forest, b);
    if n > 0 {
      SanitizedNamesDiffer(forest, a[..n], b[..n]);
    }
    SameChild(forest, a, b);
  }

  /** The paths the receiver uses tell all nodes apart, and none of them holds "..". */
  lemma SanitizedPathsDiffer(forest: seq<Tree>, a: seq<nat>, b: seq<nat>)
    requires WellNamed(forest) && Find(forest, a).Some? && Find(forest, b).Some?
    requires Sanitize(Find(forest, a).value.Rel()) == Sanitize(Find(forest, b).value.Rel())
    ensures a == b
  {
    var x, y := Names(forest, a), Names(forest, b);
    RelIsJoin(forest, a);
    RelIsJoin(forest, b);
    SanitizeJoin(x);
    SanitizeJoin(y);
    FoundIsWellNamed(forest, a);
    FoundIsWellNamed(forest, b);
    forall i | 0 <= i < |x| ensures GoodName(SanitizeAll(x)[i]) { SanitizeKeepsGoodName(x[i]); }
    forall i | 0 <= i < |y| ensures GoodName(SanitizeAll(y)[i]) { SanitizeKeepsGoodName(y[i]); }
    JoinInjective(SanitizeAll(x), SanitizeAll(y));
    SanitizedNamesDiffer(forest, a, b);
  }

  lemma SanitizedPathIsSafe(forest: seq<Tree>, addr: seq<nat>)
    requires WellNamed(forest) && Find(forest, addr).Some?
    ensures !ContainsDotDot(Sanitize(Find(forest, addr).value.Rel()))
  {
    RelIsJoin(forest, addr);
    FoundIsWellNamed(forest, addr);
    DotDotInJoin(Names(forest, addr));
    DotDotSanitize(Find(forest, addr).value.Rel());
  }
}
