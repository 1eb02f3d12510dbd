/** The walk over release evidence and the attachment manifest that must equal it (release_contract.py:1536-1674). */
module EvidenceWalk {
  import opened LengthFraming
  import opened TreeRecords
  import opened TreeWalk
  import opened TreeAcceptance
  import Release = ReleaseModels
  import References = ReleaseReferences
  import Finalization = ReleaseFinalization

  type Sha = string

  type Bytes = seq<Octet>

  /** The digest of a file and the scan that it must pass. */
  datatype Reading = Reading(sha: Bytes -> Sha, clean: Bytes -> bool)

  /** Nothing is excluded, no link is kept, and only files and directories may occur. */
  const EVIDENCE := Policy((path: Path) => false, false, false)

  // ----- what a walk leaves behind -----

  /** The walk without its tree. */
  function Reach(graph: Graph, entries: seq<Entry>, parts: Path, seen: Seen): (r: Result<Seen>)
    ensures r.Ok? ==> Extends(seen, r.value)
  {
    match Walk(graph, EVIDENCE, entries, parts, seen)
    case Refused => Refused
    case Ok((_, after)) => Ok(after)
  }

  /** Files as a walk saw them: each with its path. */
  type Files = map<Inode, Path>

  predicate AllFiles(graph: Graph, files: Files) { forall i :: i in files ==> i in graph && graph[i].FileNode? }

  /** Every file reached is clean and no two hold bytes of the same digest. */
  predicate Distinguished(reading: Reading, graph: Graph, files: Files) {
    && AllFiles(graph, files)
    && (forall i :: i in files ==> reading.clean(graph[i].data))
    && (forall i, j :: i in files && j in files && i != j ==> reading.sha(graph[i].data) != reading.sha(graph[j].data))
  }

  ghost predicate Mapped(files: Files, i: Inode, k: string) { i in files && k == Join(files[i]) }

  ghost predicate Kept(reading: Reading, graph: Graph, files: Files, i: Inode, d: Sha)
    requires AllFiles(graph, files)
  {
    i in files && d == reading.sha(graph[i].data)
  }

  ghost predicate OnlyMapped(files: Files, actual: map<string, Sha>) {
    forall k :: k in actual ==> exists i :: Mapped(files, i, k)
  }

  /** `actual` holds the digest of every file reached, by path, and nothing else. */
  ghost predicate ActualIs(reading: Reading, graph: Graph, files: Files, actual: map<string, Sha>)
    requires AllFiles(graph, files)
  {
    && (forall i :: i in files ==> Join(files[i]) in actual && actual[Join(files[i])] == reading.sha(graph[i].data))
    && OnlyMapped(files, actual)
  }

  /** `contents` holds the bytes of every file reached, by digest, and nothing else. */
  ghost predicate ContentsAre(reading: Reading, graph: Graph, files: Files, contents: map<Sha, Bytes>)
    requires AllFiles(graph, files)
  {
    && (forall i :: i in files ==>
          reading.sha(graph[i].data) in contents && contents[reading.sha(graph[i].data)] == graph[i].data)
    && (forall d :: d in contents ==> exists i :: Kept(reading, graph, files, i, d))
  }

  lemma OnlyFiles(reading: Reading, graph: Graph, files: Files)
    requires Distinguished(reading, graph, files)
    ensures AllFiles(graph, files)
  {}

  lemma NoNames(graph: Graph, root: Inode)
    ensures Leads(graph, EVIDENCE, root, [], [], root)
  {}

  /** A later walk never undoes a clash. */
  lemma ClashStays(reading: Reading, graph: Graph, before: Seen, after: Seen)
    requires Extends(before, after) && Distinguished(reading, graph, after.files)
    ensures Distinguished(reading, graph, before.files)
  {}

  // ----- paths and inodes -----

  /** One path leads to one inode. */
  lemma {:induction false} OneInodeEach(graph: Graph, policy: Policy, from: Inode, parts: Path, rest: Path, i: Inode,
                                        j: Inode)
    requires WellFormed(graph) && Leads(graph, policy, from, parts, rest, i)
        && Leads(graph, policy, from, parts, rest, j)
    ensures i == j
    decreases |rest|
  {
    if rest != [] {
      var e :| e in graph[from].entries && Continues(graph, policy, e, parts, rest, i);
      var f :| f in graph[from].entries && Continues(graph, policy, f, parts, rest, j);
      assert DistinctNames(graph[from].entries) && e.name == f.name;
      OneInodeEach(graph, policy, e.inode, parts + [rest[0]], rest[1..], i, j);
    }
  }

  lemma {:induction false} VisitTraced(graph: Graph, root: Inode, inode: Inode, path: Path, seen: Seen)
    requires Visit(graph, EVIDENCE, inode, path, seen).Ok? && Leads(graph, EVIDENCE, root, [], path, inode)
    requires Traced(graph, EVIDENCE, root, seen)
    ensures Traced(graph, EVIDENCE, root, Visit(graph, EVIDENCE, inode, path, seen).value.1)
    decreases graph.Keys - seen.directories.Keys, 0
  {
    if graph[inode].DirectoryNode? {
      var entered := Enter(graph, seen, inode, path);
      assert graph[inode].entries[0..] == graph[inode].entries;
      WalkTraced(graph, root, inode, 0, path, entered);
    }
  }

  lemma {:induction false} WalkTraced(graph: Graph, root: Inode, from: Inode, k: nat, parts: Path, seen: Seen)
    requires from in graph && graph[from].DirectoryNode? && k <= |graph[from].entries|
    requires Leads(graph, EVIDENCE, root, [], parts, from) && Traced(graph, EVIDENCE, root, seen)
    requires Walk(graph, EVIDENCE, graph[from].entries[k..], parts, seen).Ok?
    ensures Traced(graph, EVIDENCE, root, Walk(graph, EVIDENCE, graph[from].entries[k..], parts, seen).value.1)
    decreases graph.Keys - seen.directories.Keys, |graph[from].entries| - k + 1
  {
    var entries := graph[from].entries;
    if k < |entries| {
      assert entries[k..][0] == entries[k] && entries[k..][1..] == entries[k + 1..];
      EntryLeads(graph, root, from, k, parts);
      VisitTraced(graph, root, entries[k].inode, parts + [entries[k].name], seen);
      var after := Visit(graph, EVIDENCE, entries[k].inode, parts + [entries[k].name], seen).value.1;
      FewerLeft(graph, seen, after);
      WalkTraced(graph, root, from, k + 1, parts, after);
    }
  }

  lemma EntryLeads(graph: Graph, root: Inode, from: Inode, k: nat, parts: Path)
    requires from in graph && graph[from].DirectoryNode? && k < |graph[from].entries|
    requires Leads(graph, EVIDENCE, root, [], parts, from)
    ensures Leads(graph, EVIDENCE, root, [], parts + [graph[from].entries[k].name], graph[from].entries[k].inode)
  {
    LeadsSnoc(graph, EVIDENCE, root, [], parts, from, graph[from].entries[k]);
  }

  /** A new file has a new path. */
  lemma NewPath(graph: Graph, root: Inode, inode: Inode, path: Path, seen: Seen, i: Inode)
    requires WellFormed(graph) && root in graph && graph[root].DirectoryNode?
    requires inode in graph && graph[inode].FileNode? && Leads(graph, EVIDENCE, root, [], path, inode)
    requires Traced(graph, EVIDENCE, root, seen) && i in seen.files && i != inode
    ensures Join(seen.files[i]) != Join(path)
  {
    var p := seen.files[i];
    assert p != [] && path != [];
    if Join(p) == Join(path) {
      JoinInjective(p, path);
      OneInodeEach(graph, EVIDENCE, root, [], path, i, inode);
      assert false;
    }
  }

  /** One more file is distinguished from the others when its digest is not kept yet. */
  lemma FileDiffers(reading: Reading, graph: Graph, inode: Inode, path: Path, files: Files, contents: map<Sha, Bytes>)
    requires inode in graph && graph[inode].FileNode? && inode !in files
    requires Distinguished(reading, graph, files) && ContentsAre(reading, graph, files, contents)
    ensures Distinguished(reading, graph, files[inode := path])
            <==> reading.clean(graph[inode].data) && reading.sha(graph[inode].data) !in contents
  {
    var after, sha := files[inode := path], reading.sha(graph[inode].data);
    if sha in contents {
      var i :| Kept(reading, graph, files, i, sha);
      assert i in after && inode in after;
    } else {
      assert forall i :: i in files ==> reading.sha(graph[i].data) != sha;
    }
  }

  lemma ContentsGrow(reading: Reading, graph: Graph, inode: Inode, path: Path, files: Files,
                     contents: map<Sha, Bytes>)
    requires inode in graph && graph[inode].FileNode? && inode !in files
    requires AllFiles(graph, files) && ContentsAre(reading, graph, files, contents)
    requires reading.sha(graph[inode].data) !in contents
    ensures AllFiles(graph, files[inode := path])
    ensures ContentsAre(reading, graph, files[inode := path],
                        contents[reading.sha(graph[inode].data) := graph[inode].data])
  {
    var after, sha := files[inode := path], reading.sha(graph[inode].data);
    var more := contents[sha := graph[inode].data];
    assert AllFiles(graph, after);
    forall d | d in more
      ensures exists i :: Kept(reading, graph, after, i, d)
    {
      if d == sha {
        assert Kept(reading, graph, after, inode, d);
      } else {
        var i :| Kept(reading, graph, files, i, d);
        assert Kept(reading, graph, after, i, d);
      }
    }
  }

  lemma MappedGrows(inode: Inode, path: Path, files: Files, actual: map<string, Sha>, sha: Sha)
    requires inode !in files && OnlyMapped(files, actual)
    ensures OnlyMapped(files[inode := path], actual[Join(path) := sha])
  {
    hide Join;
    var after, wider := files[inode := path], actual[Join(path) := sha];
    forall k | k in wider
      ensures exists i :: Mapped(after, i, k)
    {
      if k == Join(path) {
        assert Mapped(after, inode, k);
      } else {
        var i :| Mapped(files, i, k);
        assert Mapped(after, i, k);
      }
    }
  }

  lemma ActualGrows(reading: Reading, graph: Graph, inode: Inode, path: Path, files: Files, actual: map<string, Sha>)
    requires inode in graph && graph[inode].FileNode? && inode !in files
    requires AllFiles(graph, files) && ActualIs(reading, graph, files, actual)
    requires forall i :: i in files ==> Join(files[i]) != Join(path)
    ensures AllFiles(graph, files[inode := path])
    ensures ActualIs(reading, graph, files[inode := path], actual[Join(path) := reading.sha(graph[inode].data)])
  {
    hide Join, OnlyMapped;
    MappedGrows(inode, path, files, actual, reading.sha(graph[inode].data));
  }

  lemma NewPaths(graph: Graph, root: Inode, inode: Inode, path: Path, seen: Seen)
    requires WellFormed(graph) && root in graph && graph[root].DirectoryNode?
    requires inode in graph && graph[inode].FileNode? && Leads(graph, EVIDENCE, root, [], path, inode)
    requires Traced(graph, EVIDENCE, root, seen) && inode !in seen.files
    ensures forall i :: i in seen.files ==> Join(seen.files[i]) != Join(path)
  {
    hide Leads, Traced, Join, WellFormed;
    forall i | i in seen.files
      ensures Join(seen.files[i]) != Join(path)
    {
      NewPath(graph, root, inode, path, seen, i);
    }
  }

  lemma EnterTraced(graph: Graph, root: Inode, inode: Inode, path: Path, seen: Seen)
    requires inode in graph && graph[inode].DirectoryNode? && Leads(graph, EVIDENCE, root, [], path, inode)
    requires inode !in seen.directories && Traced(graph, EVIDENCE, root, seen)
    ensures Traced(graph, EVIDENCE, root, Enter(graph, seen, inode, path))
  {}

  lemma TraceGrows(graph: Graph, root: Inode, inode: Inode, path: Path, seen: Seen)
    requires inode in graph && graph[inode].FileNode? && Leads(graph, EVIDENCE, root, [], path, inode)
    requires Traced(graph, EVIDENCE, root, seen)
    ensures Traced(graph, EVIDENCE, root, seen.(files := seen.files[inode := path]))
  {}

  // ----- the walk in place -----

  lemma ReachStep(graph: Graph, entries: seq<Entry>, k: nat, parts: Path, now: Seen)
    requires k < |entries|
    ensures var whole := Reach(graph, entries[k..], parts, now);
            match Gained(Visit(graph, EVIDENCE, entries[k].inode, parts + [entries[k].name], now))
            case Refused => whole == Refused
            case Ok(after) => Extends(now, after) && whole == Reach(graph, entries[k + 1..], parts, after)
  {
    assert entries[k..][0] == entries[k] && entries[k..][1..] == entries[k + 1..];
  }

  /** One entry, without its item. */
  function Gained(r: Result<(Item, Seen)>): Result<Seen> {
    match r case Refused => Refused case Ok((_, after)) => Ok(after)
  }

  lemma VisitCases(graph: Graph, inode: Inode, path: Path, now: Seen)
    ensures var r := Gained(Visit(graph, EVIDENCE, inode, path, now));
            if inode !in graph then r == Refused
            else match graph[inode]
              case LinkNode(_, _, _) => r == Refused
              case SpecialNode(_, _) => r == Refused
              case FileNode(_, _, _) => r == Gained(VisitFile(EVIDENCE, graph[inode], inode, path, now))
              case DirectoryNode(_, entries) =>
                r == if inode in now.directories then Refused
                     else Reach(graph, entries, path, Enter(graph, now, inode, path))
  {}

  class EvidenceCollection {
    const reading: Reading
    var actual: map<string, Sha>
    var contentByHash: map<Sha, Bytes>
    var seenFiles: set<Inode>
    var seenDirectories: set<Inode>

    ghost predicate Holds(graph: Graph, root: Inode, seen: Seen)
      reads this
    {
      && WellFormed(graph) && root in graph && graph[root].DirectoryNode?
      && seenFiles == seen.files.Keys && seenDirectories == seen.directories.Keys
      && Traced(graph, EVIDENCE, root, seen) && Distinguished(reading, graph, seen.files)
      && ActualIs(reading, graph, seen.files, actual) && ContentsAre(reading, graph, seen.files, contentByHash)
    }

    constructor (reading: Reading, graph: Graph, root: Inode)
      requires WellFormed(graph) && root in graph && graph[root].DirectoryNode?
      ensures this.reading == reading && Holds(graph, root, Start(root))
    {
      this.reading := reading;
      actual, contentByHash := map[], map[];
      seenFiles, seenDirectories := {}, {root};
    }

    method CollectFile(graph: Graph, ghost root: Inode, inode: Inode, path: Path, ghost seen: Seen) returns (ok: bool)
      requires Holds(graph, root, seen) && inode in graph && graph[inode].FileNode?
      requires Leads(graph, EVIDENCE, root, [], path, inode)
      modifies this
      ensures var r := VisitFile(EVIDENCE, graph[inode], inode, path, seen);
              && ok == (r.Ok? && Distinguished(reading, graph, r.value.1.files))
              && (ok ==> Holds(graph, root, r.value.1))
    {
      hide Leads, Traced, ActualIs, ContentsAre, Join, WellFormed;
      var node := graph[inode];
      if node.links != 1 || inode in seenFiles {
        return false;
      }
      FileDiffers(reading, graph, inode, path, seen.files, contentByHash);
      TraceGrows(graph, root, inode, path, seen);
      seenFiles := seenFiles + {inode};
      if !reading.clean(node.data) {
        return false;
      }
      var digest := reading.sha(node.data);
      if digest in contentByHash {
        return false;
      }
      NewPaths(graph, root, inode, path, seen);
      ActualGrows(reading, graph, inode, path, seen.files, actual);
      ContentsGrow(reading, graph, inode, path, seen.files, contentByHash);
      actual := actual[Join(path) := digest];
      contentByHash := contentByHash[digest := node.data];
      return true;
    }

    /** One name of a directory. */
    method CollectNext(graph: Graph, ghost root: Inode, ghost from: Inode, entries: seq<Entry>, k: nat, parts: Path,
                       ghost now: Seen)
      returns (ok: bool, ghost now': Seen)
      requires Holds(graph, root, now) && Leads(graph, EVIDENCE, root, [], parts, from)
      requires from in graph && graph[from].DirectoryNode? && entries == graph[from].entries && k < |entries|
      modifies this
      ensures ok ==> Holds(graph, root, now') && Extends(now, now')
      ensures ok ==> Reach(graph, entries[k..], parts, now) == Reach(graph, entries[k + 1..], parts, now')
      ensures !ok ==> var r := Reach(graph, entries[k..], parts, now);
                      r.Ok? ==> !Distinguished(reading, graph, r.value.files)
      decreases graph.Keys - now.directories.Keys, 1
    {
      hide Leads, Traced, ActualIs, ContentsAre, Distinguished, Join, WellFormed, Reach, Visit;
      var inode, path := entries[k].inode, parts + [entries[k].name];
      ReachStep(graph, entries, k, parts, now);
      VisitCases(graph, inode, path, now);
      EntryLeads(graph, root, from, k, parts);
      now', ok := now, false;
      if inode !in graph {
        return;
      }
      ghost var r := Gained(Visit(graph, EVIDENCE, inode, path, now));
      match graph[inode] {
        case LinkNode(_, _, _) =>
        case SpecialNode(_, _) =>
        case FileNode(_, _, _) => ok := CollectFile(graph, root, inode, path, now);
        case DirectoryNode(_, children) =>
          if inode !in seenDirectories {
            ghost var entered := Enter(graph, now, inode, path);
            seenDirectories := seenDirectories + {inode};
            EnterTraced(graph, root, inode, path, now);
            assert entered.files == now.files;
            ok := Collect(graph, root, inode, children, path, entered);
          }
      }
      if ok {
        now' := r.value;
      } else if r.Ok? {
        ghost var whole := Reach(graph, entries[k + 1..], parts, r.value);
        if whole.Ok? && Distinguished(reading, graph, whole.value.files) {
          ClashStays(reading, graph, r.value, whole.value);
        }
      }
    }

    method Collect(graph: Graph, ghost root: Inode, ghost from: Inode, entries: seq<Entry>, parts: Path,
                   ghost seen: Seen)
      returns (ok: bool)
      requires Holds(graph, root, seen) && Leads(graph, EVIDENCE, root, [], parts, from)
      requires from in graph && graph[from].DirectoryNode? && entries == graph[from].entries
      modifies this
      ensures var r := Reach(graph, entries, parts, seen);
              && ok == (r.Ok? && Distinguished(reading, graph, r.value.files))
              && (ok ==> Holds(graph, root, r.value))
      decreases graph.Keys - seen.directories.Keys, |entries| + 2
    {
      hide Leads, Traced, ActualIs, ContentsAre, Distinguished, Join, WellFormed, Visit;
      ghost var now := seen;
      var k := 0;
      assert entries[0..] == entries;
      while k < |entries|
        invariant 0 <= k <= |entries|
        invariant Holds(graph, root, now) && Extends(seen, now)
        invariant Reach(graph, entries, parts, seen) == Reach(graph, entries[k..], parts, now)
      {
        FewerLeft(graph, seen, now);
        ok, now := CollectNext(graph, root, from, entries, k, parts, now);
        if !ok {
          return;
        }
        k := k + 1;
      }
      return true;
    }
  }

  // ----- the manifest -----

  ghost predicate LeadsToFile(graph: Graph, root: Inode, p: Path, i: Inode) {
    Leads(graph, EVIDENCE, root, [], p, i) && i in graph && graph[i].FileNode?
  }

  /** Every file under the root is clean and no two of its paths hold bytes of the same digest. */
  ghost predicate FilesDiffer(reading: Reading, graph: Graph, root: Inode) {
    && (forall p, i :: LeadsToFile(graph, root, p, i) ==> reading.clean(graph[i].data))
    && (forall p, q, i, j :: LeadsToFile(graph, root, p, i) && LeadsToFile(graph, root, q, j) && p != q ==>
          reading.sha(graph[i].data) != reading.sha(graph[j].data))
  }

  function DeclaredFiles(attachments: seq<Release.Attachment>): map<string, Sha> {
    if attachments == [] then map[]
    else var n := |attachments| - 1;
         DeclaredFiles(attachments[..n])[attachments[n].path := attachments[n].sha]
  }

  function Paths(attachments: seq<Release.Attachment>): set<string> { set a | a in attachments :: a.path }

  lemma DistinctSnoc(front: seq<Release.Attachment>, last: Release.Attachment)
    ensures References.DistinctPaths(front + [last])
            <==> References.DistinctPaths(front) && last.path !in Paths(front)
    ensures Paths(front + [last]) == Paths(front) + {last.path}
  {
    var all := front + [last];
    assert forall i :: 0 <= i < |front| ==> all[i] == front[i];
    assert all[|front|] == last;
    if last.path in Paths(front) {
      var a :| a in front && a.path == last.path;
      var i :| 0 <= i < |front| && front[i] == a;
      assert all[i].path == all[|front|].path;
    } else {
      assert forall i :: 0 <= i < |front| ==> front[i] in front && front[i].path in Paths(front);
    }
  }

  lemma {:induction false} DeclaredFilesAre(attachments: seq<Release.Attachment>)
    ensures DeclaredFiles(attachments).Keys == Paths(attachments)
    ensures |DeclaredFiles(attachments)| <= |attachments|
    ensures |DeclaredFiles(attachments)| == |attachments| <==> References.DistinctPaths(attachments)
    ensures References.DistinctPaths(attachments) ==>
              forall a :: a in attachments ==> a.path in DeclaredFiles(attachments)
                                               && DeclaredFiles(attachments)[a.path] == a.sha
  {
    if attachments != [] {
      hide References.DistinctPaths;
      var n := |attachments| - 1;
      var front, last := attachments[..n], attachments[n];
      assert attachments == front + [last];
      DeclaredFilesAre(front);
      DistinctSnoc(front, last);
      hide Paths;
      var some := DeclaredFiles(front);
      SizeOfUpdate(some, last.path, last.sha);
      if References.DistinctPaths(attachments) {
        forall a | a in attachments
          ensures a.path in DeclaredFiles(attachments) && DeclaredFiles(attachments)[a.path] == a.sha
        {
          if a != last {
            assert a in front && a.path in some;
          }
        }
      }
    }
  }

  lemma SizeOfUpdate(m: map<string, Sha>, k: string, v: Sha)
    ensures m[k := v].Keys == m.Keys + {k}
    ensures |m[k := v]| == if k in m then |m| else |m| + 1
  {
    var wider := m[k := v];
    if k in m {
      assert wider.Keys == m.Keys;
    } else {
      assert wider.Keys == m.Keys + {k} && |wider.Keys| == |m.Keys| + 1;
    }
    assert |wider| == |wider.Keys| && |m| == |m.Keys|;
  }

  /** The comparison made here is the one finalization states of its evidence. */
  lemma EqualMeansMatches(r: Release.Receipt, actual: map<string, Sha>)
    requires forall d :: d in References.Declared(r) ==> exists a :: a in r.attachments && a.sha == d
    ensures Finalization.ManifestMatches(r, actual)
            <==> r.attachments != [] && References.DistinctPaths(r.attachments)
                 && DeclaredFiles(r.attachments) == actual
  {
    hide References.Declared;
    DeclaredFilesAre(r.attachments);
    var files := DeclaredFiles(r.attachments);
    if Finalization.ManifestMatches(r, actual) {
      assert files.Keys <= actual.Keys;
      assert |files.Keys| == |actual.Keys|;
      SameKeys(files.Keys, actual.Keys);
      forall k | k in files
        ensures files[k] == actual[k]
      {
        var a :| a in r.attachments && a.path == k;
      }
    }
  }

  lemma SameKeys(a: set<string>, b: set<string>)
    requires a <= b && |a| == |b|
    ensures a == b
  {
    assert |b - a| == 0;
  }

  /** The manifest lists every file under the root at its one path, and nothing else; nothing under the root is
      anything but a file or a directory, nothing has two paths, no two files have the same digest, and every digest
      the receipt refers to is listed. */
  ghost predicate ManifestHolds(reading: Reading, r: Release.Receipt, graph: Graph, root: Inode) {
    && r.attachments != [] && References.DistinctPaths(r.attachments)
    && Acceptable(graph, EVIDENCE, root) && FilesDiffer(reading, graph, root)
    && ListsExactly(reading, r.attachments, graph, root)
    && (forall d :: d in References.Declared(r) ==> exists a :: a in r.attachments && a.sha == d)
  }

  ghost predicate Lists(reading: Reading, graph: Graph, root: Inode, a: Release.Attachment, p: Path, i: Inode) {
    LeadsToFile(graph, root, p, i) && a == Release.Attachment(Join(p), reading.sha(graph[i].data))
  }

  /** The files a successful walk reached are the files that paths lead to. */
  lemma ReachedAreLed(graph: Graph, root: Inode, i: Inode)
    requires Included(graph, EVIDENCE, root).Ok?
    ensures var seen := Included(graph, EVIDENCE, root).value.1;
            && Traced(graph, EVIDENCE, root, seen)
            && (forall p :: LeadsToFile(graph, root, p, i) ==> i in seen.files && seen.files[i] == p)
  {
    assert graph[root].entries[0..] == graph[root].entries;
    WalkTraced(graph, root, root, 0, [], Start(root));
    forall p | LeadsToFile(graph, root, p, i)
      ensures Place(graph, Included(graph, EVIDENCE, root).value.1, i) == Some(p)
    {
      RootPlaces(graph, EVIDENCE, root, p, i);
    }
  }

  lemma DistinguishedIff(reading: Reading, graph: Graph, root: Inode)
    requires WellFormed(graph) && Included(graph, EVIDENCE, root).Ok?
    ensures Distinguished(reading, graph, Included(graph, EVIDENCE, root).value.1.files)
        <==> FilesDiffer(reading, graph, root)
  {
    hide Leads, Included;
    var seen := Included(graph, EVIDENCE, root).value.1;
    forall i
      ensures Traced(graph, EVIDENCE, root, seen)
      ensures forall p :: LeadsToFile(graph, root, p, i) ==> i in seen.files && seen.files[i] == p
      ensures i in seen.files ==> LeadsToFile(graph, root, seen.files[i], i)
    {
      ReachedAreLed(graph, root, i);
      if i in seen.files {
        ReachedIsFile(graph, root, i);
      }
    }
    if FilesDiffer(reading, graph, root) {
      forall i, j | i in seen.files && j in seen.files && i != j
        ensures reading.sha(graph[i].data) != reading.sha(graph[j].data)
      {
        if seen.files[i] == seen.files[j] {
          OneInodeEach(graph, EVIDENCE, root, [], seen.files[i], i, j);
        }
      }
    }
  }

  lemma ReachedIsFile(graph: Graph, root: Inode, i: Inode)
    requires Included(graph, EVIDENCE, root).Ok? && i in Included(graph, EVIDENCE, root).value.1.files
    ensures LeadsToFile(graph, root, Included(graph, EVIDENCE, root).value.1.files[i], i)
  {
    ReachedAreLed(graph, root, i);
    var p := Included(graph, EVIDENCE, root).value.1.files[i];
    assert p != [];
    SuccessIsSound(graph, EVIDENCE, root, p, i);
  }

  /** Every file found is listed, and every listing is of a file found. */
  ghost predicate ListsExactly(reading: Reading, attachments: seq<Release.Attachment>, graph: Graph, root: Inode) {
    && (forall p, i :: LeadsToFile(graph, root, p, i) ==>
          Release.Attachment(Join(p), reading.sha(graph[i].data)) in attachments)
    && (forall a :: a in attachments ==> exists p, i :: Lists(reading, graph, root, a, p, i))
  }

  lemma EqualListsExactly(reading: Reading, attachments: seq<Release.Attachment>, graph: Graph, root: Inode,
                          actual: map<string, Sha>)
    requires WellFormed(graph) && Included(graph, EVIDENCE, root).Ok? && References.DistinctPaths(attachments)
    requires var files := Included(graph, EVIDENCE, root).value.1.files;
             Distinguished(reading, graph, files) && ActualIs(reading, graph, files, actual)
    requires actual == DeclaredFiles(attachments)
    ensures ListsExactly(reading, attachments, graph, root)
  {
    hide Leads, Included, Traced, Join, WellFormed, DeclaredFiles, References.DistinctPaths, LeadsToFile;
    DeclaredFilesAre(attachments);
    var seen := Included(graph, EVIDENCE, root).value.1;
    forall p, i | LeadsToFile(graph, root, p, i)
      ensures i in graph && graph[i].FileNode?
      ensures Release.Attachment(Join(p), reading.sha(graph[i].data)) in attachments
    {
      ReachedAreLed(graph, root, i);
      assert i in seen.files && seen.files[i] == p;
      assert Join(p) in actual;
      var a :| a in attachments && a.path == Join(p);
      assert a == Release.Attachment(Join(p), reading.sha(graph[i].data));
    }
    forall a | a in attachments
      ensures exists p, i :: Lists(reading, graph, root, a, p, i)
    {
      assert a.path in actual;
      var i :| Mapped(seen.files, i, a.path);
      ReachedIsFile(graph, root, i);
      assert Lists(reading, graph, root, a, seen.files[i], i);
    }
  }

  lemma ListsExactlyEqual(reading: Reading, attachments: seq<Release.Attachment>, graph: Graph, root: Inode,
                          actual: map<string, Sha>)
    requires WellFormed(graph) && Included(graph, EVIDENCE, root).Ok? && References.DistinctPaths(attachments)
    requires var files := Included(graph, EVIDENCE, root).value.1.files;
             Distinguished(reading, graph, files) && ActualIs(reading, graph, files, actual)
    requires ListsExactly(reading, attachments, graph, root)
    ensures actual == DeclaredFiles(attachments)
  {
    hide Leads, Included, Traced, Join, WellFormed, DeclaredFiles, References.DistinctPaths;
    DeclaredFilesAre(attachments);
    var seen, files := Included(graph, EVIDENCE, root).value.1, DeclaredFiles(attachments);
    forall k | k in actual
      ensures k in files && files[k] == actual[k]
    {
      var i :| Mapped(seen.files, i, k);
      ReachedIsFile(graph, root, i);
      var a := Release.Attachment(k, reading.sha(graph[i].data));
      assert a in attachments && a.path == k;
    }
    forall k | k in files
      ensures k in actual
    {
      var a :| a in attachments && a.path == k;
      var p, i :| Lists(reading, graph, root, a, p, i);
      ReachedAreLed(graph, root, i);
    }
  }

  /** The kept bytes, by digest, are those of the listed files. */
  lemma KeptAreDeclared(reading: Reading, r: Release.Receipt, graph: Graph, files: Files, actual: map<string, Sha>,
                        contents: map<Sha, Bytes>)
    requires AllFiles(graph, files) && ActualIs(reading, graph, files, actual)
    requires ContentsAre(reading, graph, files, contents)
    requires References.DistinctPaths(r.attachments) && actual == DeclaredFiles(r.attachments)
    ensures contents.Keys == set a | a in r.attachments :: a.sha
    ensures forall d :: d in contents ==> reading.sha(contents[d]) == d
  {
    hide Join;
    DeclaredFilesAre(r.attachments);
    forall d | d in contents
      ensures reading.sha(contents[d]) == d && exists a :: a in r.attachments && a.sha == d
    {
      var i :| Kept(reading, graph, files, i, d);
      assert Join(files[i]) in actual;
      var a :| a in r.attachments && a.path == Join(files[i]);
      assert a.sha == d;
    }
    forall a | a in r.attachments
      ensures a.sha in contents
    {
      assert a.path in actual;
      var i :| Mapped(files, i, a.path);
      assert a.sha == reading.sha(graph[i].data);
    }
  }

  predicate AllCovered(needed: set<Sha>, attachments: seq<Release.Attachment>) {
    forall d :: d in needed ==> exists a :: a in attachments && a.sha == d
  }

  /** The whole check: it passes exactly when the manifest is the file system's, and hands back the bytes of every
      listed file under its digest. */
  method VerifyAttachmentManifest(reading: Reading, r: Release.Receipt, graph: Graph, root: Inode)
    returns (out: Result<map<Sha, Bytes>>)
    requires WellFormed(graph)
    ensures out.Ok? <==> ManifestHolds(reading, r, graph, root)
    ensures out.Ok? ==> out.value.Keys == (set a | a in r.attachments :: a.sha)
    ensures out.Ok? ==> forall d :: d in out.value ==> reading.sha(out.value[d]) == d
  {
    hide Leads, References.Declared, Traced, ActualIs, ContentsAre, Distinguished, WellFormed, FilesDiffer, AllSound,
         NoAlias, ListsExactly;
    var declared := DeclaredFiles(r.attachments);
    DeclaredFilesAre(r.attachments);
    if r.attachments == [] || |declared| != |r.attachments| {
      return Refused;
    }
    if root !in graph || !graph[root].DirectoryNode? {
      return Refused;
    }
    SucceedsIff(graph, EVIDENCE, root);
    var collection := new EvidenceCollection(reading, graph, root);
    NoNames(graph, root);
    var ok := collection.Collect(graph, root, root, graph[root].entries, [], Start(root));
    if Included(graph, EVIDENCE, root).Ok? {
      DistinguishedIff(reading, graph, root);
    }
    if !ok {
      return Refused;
    }
    ghost var files := Included(graph, EVIDENCE, root).value.1.files;
    OnlyFiles(reading, graph, files);
    assert ActualIs(reading, graph, files, collection.actual);
    if collection.actual == declared {
      EqualListsExactly(reading, r.attachments, graph, root, collection.actual);
    } else if ListsExactly(reading, r.attachments, graph, root) {
      ListsExactlyEqual(reading, r.attachments, graph, root, collection.actual);
    }
    if collection.actual != declared {
      return Refused;
    }
    if !AllCovered(References.Declared(r), r.attachments) {
      return Refused;
    }
    KeptAreDeclared(reading, r, graph, files, collection.actual, collection.contentByHash);
    return Ok(collection.contentByHash);
  }
}
