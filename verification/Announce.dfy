/**
 What a sender announces before anything moves (`process_paths`, `as_proto`),
 what the other side makes of it, and how it compares with the bytes that move.
 */
module Announce {
  import opened Common
  import opened SourceTree
  import opened WalkDir
  import opened Transfers
  import opened SendPlan
  import opened Pipeline
  import ReceiveSpec
  import Sender

  /** The metadata an application's filesystem computes; for a directory entry, recursively. */
  datatype VirtualMetadata = VirtualMetadata(isDir: bool, name: string, size: nat, fileCount: nat)

  /** What its calls answer; a path it does not know is not found. */
  datatype SizeVfs = SizeVfs(
    entries: map<string, Result<VirtualMetadata, VirtualFilesystemError>>,
    listings: map<string, Result<seq<VirtualMetadata>, VirtualFilesystemError>>)
  {
    function Metadata(path: string): Result<VirtualMetadata, VirtualFilesystemError> {
      if path in entries then entries[path] else Err(FileNotFound)
    }

    function ReadDir(path: string): Result<seq<VirtualMetadata>, VirtualFilesystemError> {
      if path in listings then listings[path] else Err(FileNotFound)
    }
  }

  /** All bytes at or below a node, readable or not. */
  function TreeData(t: Tree): nat
    decreases t, 0
  {
    match t
    case File(_, _, data, _) => |data|
    case Dir(_, _, _, children) => TreesData(children)
  }

  function TreesData(nodes: seq<Tree>): nat
    decreases nodes, 1
  {
    if nodes == [] then 0 else TreeData(nodes[0]) + TreesData(nodes[1..])
  }

  /** How many files there are at or below a node, readable or not. */
  function FilesOf(t: Tree): nat
    decreases t, 0
  {
    match t
    case File(_, _, _, _) => 1
    case Dir(_, _, _, children) => FilesIn(children)
  }

  function FilesIn(nodes: seq<Tree>): nat
    decreases nodes, 1
  {
    if nodes == [] then 0 else FilesOf(nodes[0]) + FilesIn(nodes[1..])
  }

  /** The bytes below directories that cannot be listed. */
  function HiddenData(t: Tree): nat
    decreases t, 0
  {
    match t
    case File(_, _, _, _) => 0
    case Dir(_, _, readable, children) => if readable then HiddenInAll(children) else TreesData(children)
  }

  function HiddenInAll(nodes: seq<Tree>): nat
    decreases nodes, 1
  {
    if nodes == [] then 0 else HiddenData(nodes[0]) + HiddenInAll(nodes[1..])
  }

  /** The documented contract of the size calls, for one source: an entry of a listing tells the bytes and the files at
      or below it. */
  ghost predicate MeetsSizeContract(vfs: SizeVfs, t: Tree) {
    && vfs.Metadata(t.path).Ok?
    && var m := vfs.Metadata(t.path).value;
    && m.isDir == t.Dir? && m.name == t.name
    && match t
       case File(_, _, data, _) => m.size == |data| && m.fileCount == 0
       case Dir(_, _, _, children) =>
         && vfs.ReadDir(t.path).Ok?
         && var entries := vfs.ReadDir(t.path).value;
         && |entries| == |children|
         && forall i :: 0 <= i < |children| ==>
              entries[i].size == TreeData(children[i]) && entries[i].fileCount == FilesOf(children[i])
  }

  lemma {:induction false} TreesDataSnoc(nodes: seq<Tree>, n: nat)
    requires n < |nodes|
    ensures TreesData(nodes[..n + 1]) == TreesData(nodes[..n]) + TreeData(nodes[n])
    decreases n
  {
    if n == 0 {
      assert nodes[..0] == [] && nodes[..1] == [nodes[0]] && nodes[..1][1..] == [];
    } else {
      TreesDataSnoc(nodes[1..], n - 1);
      assert nodes[..n + 1][1..] == nodes[1..][..n] && nodes[..n][1..] == nodes[1..][..n - 1];
    }
  }

  lemma {:induction false} FilesInSnoc(nodes: seq<Tree>, n: nat)
    requires n < |nodes|
    ensures FilesIn(nodes[..n + 1]) == FilesIn(nodes[..n]) + FilesOf(nodes[n])
    decreases n
  {
    if n == 0 {
      assert nodes[..0] == [] && nodes[..1] == [nodes[0]] && nodes[..1][1..] == [];
    } else {
      FilesInSnoc(nodes[1..], n - 1);
      assert nodes[..n + 1][1..] == nodes[1..][..n] && nodes[..n][1..] == nodes[1..][..n - 1];
    }
  }

  datatype Details = Details(
    totalBytes: nat, fileCount: nat, entryNames: seq<string>,
    singleName: Option<string>, singleMimeType: Option<string>)

  /** What listed entries add: all their bytes and counts. */
  function ListedTotals(entries: seq<VirtualMetadata>): (nat, nat) {
    if entries == [] then (0, 0)
    else
      var (size, count) := ListedTotals(entries[..|entries| - 1]);
      (size + entries[|entries| - 1].size, count + entries[|entries| - 1].fileCount)
  }

  /** What one source adds: bytes, count and name. */
  function OneSource(vfs: SizeVfs, path: string): Result<(nat, nat, string), VirtualFilesystemError> {
    match vfs.Metadata(path)
    case Err(e) => Err(e)
    case Ok(m) =>
      if !m.isDir then Ok((m.size, 1, m.name))
      else
        match vfs.ReadDir(path)
        case Err(e) => Err(e)
        case Ok(entries) => var (size, count) := ListedTotals(entries); Ok((size, count, m.name))
  }

  /** The sources together, or the fault of the first that has one. */
  function AllSources(vfs: SizeVfs, paths: seq<string>): (r: Result<Details, VirtualFilesystemError>)
    ensures r.Ok? ==> |r.value.entryNames| == |paths| && r.value.singleName == r.value.singleMimeType == None
  {
    if paths == [] then Ok(Details(0, 0, [], None, None))
    else
      match AllSources(vfs, paths[..|paths| - 1])
      case Err(e) => Err(e)
      case Ok(d) =>
        match OneSource(vfs, paths[|paths| - 1])
        case Err(e) => Err(e)
        case Ok((size, count, name)) =>
          Ok(Details(d.totalBytes + size, d.fileCount + count, d.entryNames + [name], None, None))
  }

  /** The whole announcement: a single file is also named and typed. */
  function Announced(vfs: SizeVfs, paths: seq<string>, mimeOf: string -> string)
    : Result<Details, VirtualFilesystemError>
  {
    match AllSources(vfs, paths)
    case Err(e) => Err(e)
    case Ok(d) =>
      if |paths| == 1 && !vfs.Metadata(paths[0]).value.isDir
      then Ok(d.(singleName := Some(d.entryNames[0]), singleMimeType := Some(mimeOf(d.entryNames[0]))))
      else Ok(d)
  }

  lemma AllSourcesSnoc(vfs: SizeVfs, front: seq<string>, path: string, d: Details)
    requires AllSources(vfs, front) == Ok(d)
    ensures AllSources(vfs, front + [path])
         == match OneSource(vfs, path)
            case Err(e) => Err(e)
            case Ok((size, count, name)) =>
              Ok(Details(d.totalBytes + size, d.fileCount + count, d.entryNames + [name], None, None))
  {
    assert (front + [path])[..|front|] == front;
  }

  /** One more source: its totals are added, its fault is the fault of all. */
  lemma AllSourcesStep(vfs: SizeVfs, paths: seq<string>, i: nat, d: Details)
    requires i < |paths| && AllSources(vfs, paths[..i]) == Ok(d)
    ensures match OneSource(vfs, paths[i])
            case Err(e) => AllSources(vfs, paths) == Err(e)
            case Ok((size, count, name)) =>
              AllSources(vfs, paths[..i + 1])
              == Ok(Details(d.totalBytes + size, d.fileCount + count, d.entryNames + [name], None, None))
  {
    assert paths[..i + 1] == paths[..i] + [paths[i]];
    AllSourcesSnoc(vfs, paths[..i], paths[i], d);
    if OneSource(vfs, paths[i]).Err? {
      FaultStays(vfs, paths, i + 1);
    }
  }

  lemma {:induction false} FaultStays(vfs: SizeVfs, paths: seq<string>, i: nat)
    requires i <= |paths| && AllSources(vfs, paths[..i]).Err?
    ensures AllSources(vfs, paths) == AllSources(vfs, paths[..i])
    decreases |paths| - i
  {
    if i < |paths| {
      assert paths[..i + 1][..i] == paths[..i];
      FaultStays(vfs, paths, i + 1);
    } else {
      assert paths[..i] == paths;
    }
  }

  lemma SingleSource(vfs: SizeVfs, path: string)
    ensures AllSources(vfs, [path])
      == match OneSource(vfs, path)
         case Err(e) => Err(e)
         case Ok((size, count, name)) => Ok(Details(size, count, [name], None, None))
  {
    var paths := [path];
    assert paths[..|paths| - 1] == [];
    assert AllSources(vfs, paths[..|paths| - 1]) == Ok(Details(0, 0, [], None, None));
    if OneSource(vfs, path).Ok? {
      assert [] + [OneSource(vfs, path).value.2] == [OneSource(vfs, path).value.2];
    }
  }

  /** The fields `process_paths` fills in. */
  class Announcement {
    var totalBytes: nat
    var fileCount: nat
    var entryNames: seq<string>
    var singleName: Option<string>
    var singleMimeType: Option<string>

    constructor ()
      ensures Value() == Details(0, 0, [], None, None)
    {
      totalBytes, fileCount, entryNames := 0, 0, [];
      singleName, singleMimeType := None, None;
    }

    function Value(): Details
      reads this
    {
      Details(totalBytes, fileCount, entryNames, singleName, singleMimeType)
    }

    /** Adds up the sources; fills in the fields only if every call of the filesystem succeeds. */
    method ProcessPaths(vfs: SizeVfs, paths: seq<string>, mimeOf: string -> string)
      returns (outcome: Result<(), VirtualFilesystemError>)
      modifies this
      ensures match Announced(vfs, paths, mimeOf)
              case Err(e) => outcome == Err(e) && Value() == old(Value())
              case Ok(d) => outcome.Ok? && Value() == d
    {
      if |paths| == 1 {
        assert paths == [paths[0]];
        SingleSource(vfs, paths[0]);
        match vfs.Metadata(paths[0]) {
          case Err(e) => return Err(e);
          case Ok(metadata) =>
            if !metadata.isDir {
              singleName := Some(metadata.name);
              singleMimeType := Some(mimeOf(metadata.name));
              totalBytes := metadata.size;
              entryNames := [metadata.name];
              fileCount := 1;
              return Ok(());
            }
        }
      }
      var all := AddAll(vfs, paths);
      if all.Err? {
        return Err(all.error);
      }
      singleName, singleMimeType := None, None;
      totalBytes := all.value.totalBytes;
      entryNames := all.value.entryNames;
      fileCount := all.value.fileCount;
      return Ok(());
    }
  }

  /** The loop over the sources. */
  method AddAll(vfs: SizeVfs, paths: seq<string>) returns (r: Result<Details, VirtualFilesystemError>)
    ensures r == AllSources(vfs, paths)
  {
    var totalSize: nat, count: nat, names: seq<string> := 0, 0, [];
    for i := 0 to |paths|
      invariant AllSources(vfs, paths[..i]) == Ok(Details(totalSize, count, names, None, None))
    {
      AllSourcesStep(vfs, paths, i, Details(totalSize, count, names, None, None));
      var source := AddSource(vfs, paths[i], totalSize, count);
      if source.Err? {
        return Err(source.error);
      }
      totalSize, count := source.value.0, source.value.1;
      names := names + [source.value.2];
    }
    assert paths[..|paths|] == paths;
    return Ok(Details(totalSize, count, names, None, None));
  }

  /** One round of the loop over the sources: the new totals and the source's name. */
  method AddSource(vfs: SizeVfs, path: string, size: nat, count: nat)
    returns (r: Result<(nat, nat, string), VirtualFilesystemError>)
    ensures r == match OneSource(vfs, path)
                 case Err(e) => Err(e)
                 case Ok((s, c, name)) => Ok((size + s, count + c, name))
  {
    match vfs.Metadata(path) {
      case Err(e) => return Err(e);
      case Ok(metadata) =>
        if metadata.isDir {
          match vfs.ReadDir(path) {
            case Err(e) => return Err(e);
            case Ok(entries) =>
              var totalSize, fileCount := AddListed(entries, size, count);
              return Ok((totalSize, fileCount, metadata.name));
          }
        } else {
          return Ok((size + metadata.size, count + 1, metadata.name));
        }
    }
  }

  method AddListed(entries: seq<VirtualMetadata>, size: nat, count: nat) returns (totalSize: nat, fileCount: nat)
    ensures totalSize == size + ListedTotals(entries).0 && fileCount == count + ListedTotals(entries).1
  {
    totalSize, fileCount := size, count;
    for j := 0 to |entries|
      invariant totalSize == size + ListedTotals(entries[..j]).0 && fileCount == count + ListedTotals(entries[..j]).1
    {
      assert entries[..j + 1][..j] == entries[..j];
      totalSize := totalSize + entries[j].size;
      fileCount := fileCount + entries[j].fileCount;
    }
    assert entries[..|entries|] == entries;
  }

  lemma {:induction false} EntriesAreChildren(entries: seq<VirtualMetadata>, children: seq<Tree>)
    requires |entries| == |children|
    requires forall i :: 0 <= i < |children| ==>
      entries[i].size == TreeData(children[i]) && entries[i].fileCount == FilesOf(children[i])
    ensures ListedTotals(entries) == (TreesData(children), FilesIn(children))
  {
    if entries == [] {
    } else {
      var n := |entries| - 1;
      EntriesAreChildren(entries[..n], children[..n]);
      TreesDataSnoc(children, n);
      FilesInSnoc(children, n);
      assert children[..n + 1] == children;
    }
  }

  ghost predicate SourcesMeetContract(vfs: SizeVfs, paths: seq<string>, forest: seq<Tree>) {
    && |forest| == |paths|
    && forall i :: 0 <= i < |forest| ==> forest[i].path == paths[i] && MeetsSizeContract(vfs, forest[i])
  }

  lemma OneSourceAddsUp(vfs: SizeVfs, t: Tree)
    requires MeetsSizeContract(vfs, t)
    ensures OneSource(vfs, t.path) == Ok((TreeData(t), FilesOf(t), t.name))
  {
    if t.Dir? {
      EntriesAreChildren(vfs.ReadDir(t.path).value, t.children);
    }
  }

  lemma {:induction false} SourcesAddUp(vfs: SizeVfs, paths: seq<string>, forest: seq<Tree>)
    requires SourcesMeetContract(vfs, paths, forest)
    ensures AllSources(vfs, paths).Ok?
    ensures AllSources(vfs, paths).value.totalBytes == TreesData(forest)
    ensures AllSources(vfs, paths).value.fileCount == FilesIn(forest)
    ensures AllSources(vfs, paths).value.entryNames == seq(|forest|, i requires 0 <= i < |forest| => forest[i].name)
    decreases |paths|
  {
    if paths == [] {
    } else {
      var n := |paths| - 1;
      SourcesAddUp(vfs, paths[..n], forest[..n]);
      TreesDataSnoc(forest, n);
      FilesInSnoc(forest, n);
      assert forest[..n + 1] == forest;
      OneSourceAddsUp(vfs, forest[n]);
    }
  }

  /** A filesystem that meets its size contract makes the announcement exact: every byte and every file of the recursive
      sums, and the names of the sources; a single file is also named and typed. */
  lemma ContractMakesAnnouncementExact(vfs: SizeVfs, paths: seq<string>, forest: seq<Tree>, mimeOf: string -> string)
    requires SourcesMeetContract(vfs, paths, forest)
    ensures Announced(vfs, paths, mimeOf).Ok?
    ensures var d := Announced(vfs, paths, mimeOf).value;
      && d.totalBytes == TreesData(forest)
      && d.fileCount == FilesIn(forest)
      && d.entryNames == seq(|forest|, i requires 0 <= i < |forest| => forest[i].name)
      && (d.singleName.Some? <==> |forest| == 1 && forest[0].File?)
      && (d.singleMimeType.Some? <==> |forest| == 1 && forest[0].File?)
      && (d.singleName.Some? ==>
            d.singleName.value == forest[0].name && d.singleMimeType.value == mimeOf(forest[0].name))
  {
    SourcesAddUp(vfs, paths, forest);
  }

  // ----- the announced total against the bytes that move -----

  function QueueData(queue: seq<Visit>): nat {
    if queue == [] then 0 else TreeData(queue[0].node) - HiddenWithin(queue[0].node) + QueueData(queue[1..])
  }

  /** `HiddenData`, known to be at most all data. */
  function HiddenWithin(t: Tree): (h: nat)
    ensures h == HiddenData(t) <= TreeData(t)
  {
    HiddenIsPart(t);
    HiddenData(t)
  }

  lemma {:induction false} HiddenIsPart(t: Tree)
    ensures HiddenData(t) <= TreeData(t)
    decreases t, 0
  {
    if t.Dir? { HiddenIsPartOfAll(t.children); }
  }

  lemma {:induction false} HiddenIsPartOfAll(nodes: seq<Tree>)
    ensures HiddenInAll(nodes) <= TreesData(nodes)
    decreases nodes, 1
  {
    if nodes == [] {
    } else {
      HiddenIsPart(nodes[0]);
      HiddenIsPartOfAll(nodes[1..]);
    }
  }

  lemma {:induction false} QueueDataAppend(a: seq<Visit>, b: seq<Visit>)
    ensures QueueData(a + b) == QueueData(a) + QueueData(b)
  {
    if a == [] {
      assert a + b == b;
    } else {
      QueueDataAppend(a[1..], b);
      assert (a + b)[1..] == a[1..] + b;
    }
  }

  lemma {:induction false} QueueDataOfNodes(vs: seq<Visit>, nodes: seq<Tree>)
    requires |vs| == |nodes| && forall i :: 0 <= i < |vs| ==> vs[i].node == nodes[i]
    ensures QueueData(vs) == TreesData(nodes) - HiddenInAll(nodes)
  {
    if vs == [] {
    } else {
      QueueDataOfNodes(vs[1..], nodes[1..]);
    }
  }

  /** The sum in queue order is the recursive sum of what is not hidden. */
  lemma {:induction false} WalkData(queue: seq<Visit>)
    ensures TotalData(Bfs(queue)) == QueueData(queue)
    decreases PendingSize(queue)
  {
    if queue == [] {
    } else {
      StepShrinks(queue);
      var head := queue[0];
      var next := queue[1..] + Kids(head);
      WalkData(next);
      QueueDataAppend(queue[1..], Kids(head));
      if head.node.Dir? && head.node.readable {
        QueueDataOfNodes(Kids(head), head.node.children);
      }
    }
  }

  lemma {:induction false} TotalDataAppend(a: seq<Visit>, b: seq<Visit>)
    ensures TotalData(a + b) == TotalData(a) + TotalData(b)
  {
    if a == [] {
      assert a + b == b;
    } else {
      TotalDataAppend(a[1..], b);
      assert (a + b)[1..] == a[1..] + b;
    }
  }

  lemma {:induction false} ForestData(forest: seq<Tree>, i: nat)
    requires i <= |forest|
    ensures TotalData(ForestJobs(forest, i)) + HiddenInAll(forest[i..]) == TreesData(forest[i..])
    decreases |forest| - i
  {
    if i == |forest| {
    } else {
      ForestData(forest, i + 1);
      assert forest[i..][1..] == forest[i + 1..];
      TotalDataAppend(Bfs([Root(forest, i)]), ForestJobs(forest, i + 1));
      WalkData([Root(forest, i)]);
      assert [Root(forest, i)][1..] == [];
    }
  }

  lemma {:induction false} DataLengthAppend(a: seq<FileChunk>, b: seq<FileChunk>)
    ensures Sender.DataLength(a + b) == Sender.DataLength(a) + Sender.DataLength(b)
  {
    if b == [] {
      assert a + b == a;
    } else {
      DataLengthAppend(a, b[..|b| - 1]);
      assert (a + b)[..|a + b| - 1] == a + b[..|b| - 1];
    }
  }

  lemma {:induction false} FileChunksData(v: Visit, k: nat, sizes: ReadSizes, off: nat)
    requires v.node.File? && off <= |v.node.data|
    ensures Sender.DataLength(FileChunks(v, k, sizes, off)) == |v.node.data| - off
    decreases |v.node.data| - off
  {
    if off == |v.node.data| {
    } else {
      var n := ReadLen(sizes, k, off, |v.node.data| - off);
      FileChunksData(v, k, sizes, off + n);
      Sender.DataLengthSnoc([], DataChunk(v, off, n));
      assert [] + [DataChunk(v, off, n)] == [DataChunk(v, off, n)];
      DataLengthAppend([DataChunk(v, off, n)], FileChunks(v, k, sizes, off + n));
    }
  }

  lemma {:induction false} StreamData(jobs: seq<Visit>, k: nat, sizes: ReadSizes)
    ensures Sender.DataLength(Stream(jobs, k, sizes)) == TotalData(jobs)
    decreases |jobs|
  {
    if jobs == [] {
    } else {
      var v := jobs[0];
      StreamData(jobs[1..], k + 1, sizes);
      DataLengthAppend(JobChunks(v, k, sizes), Stream(jobs[1..], k + 1, sizes));
      if v.node.File? {
        FileChunksData(v, k, sizes, 0);
      } else {
        Sender.DataLengthSnoc([], DirChunk(v));
        assert [] + [DirChunk(v)] == [DirChunk(v)];
      }
    }
  }

  /**
   Both ends finish at the same count whenever the full stream is sent and received, and that count is the
   announced total exactly when no unreadable directory hides any bytes.
   */
  lemma BytesMeetAnnouncement(forest: seq<Tree>, sizes: ReadSizes)
    requires WellNamed(forest)
    ensures var stream := Stream(ForestJobs(forest, 0), 0, sizes);
      var received := ReceiveSpec.Fold(ReceiveSpec.FRESH, stream);
      && received.Ok?
      && received.value.bytes == Sender.DataLength(stream)
      && (Sender.DataLength(stream) == TreesData(forest) <==> HiddenInAll(forest) == 0)
  {
    RoundTrip(forest, sizes);
    StreamData(ForestJobs(forest, 0), 0, sizes);
    ForestData(forest, 0);
    assert forest[0..] == forest;
  }

  // ----- the request on the wire -----

  datatype TransferOpRequest = TransferOpRequest(
    ident: string, timestamp: nat, receiver: string, size: nat, count: nat,
    nameIfSingle: string, mimeIfSingle: string, topDirBasenames: seq<string>)

  function OrEmpty(s: Option<string>): string {
    match s
    case None => ""
    case Some(v) => v
  }

  function AsProto(protocolId: nat, d: Details, serviceId: string): TransferOpRequest {
    TransferOpRequest(serviceId, protocolId, serviceId, d.totalBytes, d.fileCount,
                      OrEmpty(d.singleName), OrEmpty(d.singleMimeType), d.entryNames)
  }

  /** What the other side records: the remote's id, the protocol id and the details. */
  function FromRequest(r: TransferOpRequest): (string, nat, Details) {
    (r.ident, r.timestamp,
     Details(r.size, r.count, r.topDirBasenames,
             if r.count == 1 && r.nameIfSingle != "" then Some(r.nameIfSingle) else None,
             if r.count == 1 && r.mimeIfSingle != "" then Some(r.mimeIfSingle) else None))
  }

  /** Single names and types are non-empty and go with one file. */
  predicate SurvivesWire(d: Details) {
    && (d.singleName.Some? ==> d.fileCount == 1 && d.singleName.value != "")
    && (d.singleMimeType.Some? ==> d.fileCount == 1 && d.singleMimeType.value != "")
  }

  /** The details survive the wire exactly when single names and types are non-empty and go with one file. */
  lemma RequestRoundTrip(protocolId: nat, d: Details, serviceId: string)
    ensures FromRequest(AsProto(protocolId, d, serviceId)) == (serviceId, protocolId, d)
      <==> SurvivesWire(d)
  {
    var r := FromRequest(AsProto(protocolId, d, serviceId)).2;
    assert r == d <==> r.singleName == d.singleName && r.singleMimeType == d.singleMimeType;
  }

  /** What the peer is told about sources that meet the contract: all their bytes and files, their names, and name and
      type of a single file. */
  lemma RequestTellsForest(vfs: SizeVfs, paths: seq<string>, forest: seq<Tree>, mimeOf: string -> string,
                           protocolId: nat, serviceId: string)
    requires SourcesMeetContract(vfs, paths, forest)
    ensures Announced(vfs, paths, mimeOf).Ok?
    ensures var r := AsProto(protocolId, Announced(vfs, paths, mimeOf).value, serviceId);
      && r.ident == serviceId && r.timestamp == protocolId
      && r.size == TreesData(forest) && r.count == FilesIn(forest)
      && r.topDirBasenames == seq(|forest|, i requires 0 <= i < |forest| => forest[i].name)
      && (if |forest| == 1 && forest[0].File?
          then r.nameIfSingle == forest[0].name && r.mimeIfSingle == mimeOf(forest[0].name)
          else r.nameIfSingle == r.mimeIfSingle == "")
  {
    ContractMakesAnnouncementExact(vfs, paths, forest, mimeOf);
  }

  /** What is announced always survives it, if files have non-empty names and types. */
  lemma AnnouncedSurvivesWire(vfs: SizeVfs, paths: seq<string>, mimeOf: string -> string)
    requires forall name :: mimeOf(name) != ""
    requires forall path :: path in vfs.entries && vfs.entries[path].Ok? ==> vfs.entries[path].value.name != ""
    ensures Announced(vfs, paths, mimeOf).Ok? ==> SurvivesWire(Announced(vfs, paths, mimeOf).value)
  {
    if |paths| == 1 {
      assert paths[..0] == [];
      assert AllSources(vfs, paths[..0]) == Ok(Details(0, 0, [], None, None));
    }
  }
}
