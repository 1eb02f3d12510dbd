/** The confined walk over an inode graph (release_contract.py:773-953, 1565-1629): what it includes, when it refuses,
    and that it ends on every finite graph. The graph does not change during a walk. */
module TreeWalk {
  import opened LengthFraming
  import opened TreeRecords

  type Inode = (int, int)

  datatype Entry = Entry(name: Name, inode: Inode)

  /** The entries of a directory are in the sorted order of their names. */
  datatype Node =
    | DirectoryNode(mode: Mode, entries: seq<Entry>)
    | FileNode(mode: Mode, links: nat, data: seq<Octet>)
    | LinkNode(mode: Mode, links: nat, target: seq<Octet>)
    | SpecialNode(mode: Mode, format: Format)

  type Graph = map<Inode, Node>

  /** A walk that feeds a digest frames every path and content and keeps special entries; a walk that collects
      evidence does neither. */
  datatype Policy = Policy(excluded: Path -> bool, preserveLinks: bool, hashing: bool)

  /** A framed length must fit its eight bytes. */
  predicate Room(policy: Policy, bytes: seq<Octet>) { policy.hashing ==> Fits(bytes) }

  /** Where each directory, and each file or link, was first reached. The source keeps the inodes only. */
  datatype Seen = Seen(files: map<Inode, Path>, directories: map<Inode, Path>)

  datatype Result<+T> = Ok(value: T) | Refused

  predicate Extends(before: Seen, after: Seen) {
    && (forall i :: i in before.files ==> i in after.files && after.files[i] == before.files[i])
    && (forall i :: i in before.directories ==> i in after.directories && after.directories[i] == before.directories[i])
  }

  predicate DistinctNames(entries: seq<Entry>) {
    forall i, j :: 0 <= i < j < |entries| ==> entries[i].name != entries[j].name
  }

  lemma FewerLeft(graph: Graph, before: Seen, after: Seen)
    requires Extends(before, after)
    ensures graph.Keys - after.directories.Keys <= graph.Keys - before.directories.Keys
  {}

  /** What every file system guarantees: the entries of one directory have distinct names. */
  predicate WellFormed(graph: Graph) {
    forall i :: i in graph && graph[i].DirectoryNode? ==> DistinctNames(graph[i].entries)
  }

  // ----- the walk -----

  function VisitFile(policy: Policy, node: Node, inode: Inode, path: Path, seen: Seen): Result<(Item, Seen)>
    requires node.FileNode?
  {
    if node.links != 1 || inode in seen.files || !Room(policy, node.data) then Refused
    else Ok((Regular(node.mode, node.data), seen.(files := seen.files[inode := path])))
  }

  function VisitLink(policy: Policy, node: Node, inode: Inode, path: Path, seen: Seen): Result<(Item, Seen)>
    requires node.LinkNode?
  {
    if !policy.preserveLinks || node.links != 1 || inode in seen.files || !Room(policy, node.target) then Refused
    else Ok((LinkItem(node.mode, node.target), seen.(files := seen.files[inode := path])))
  }

  /** Entering a directory leaves fewer directories to enter: this is why every walk ends. */
  function Enter(graph: Graph, seen: Seen, inode: Inode, path: Path): (entered: Seen)
    requires inode in graph && inode !in seen.directories
    ensures Extends(seen, entered) && entered.directories.Keys == seen.directories.Keys + {inode}
    ensures graph.Keys - entered.directories.Keys < graph.Keys - seen.directories.Keys
  {
    var entered := seen.(directories := seen.directories[inode := path]);
    assert inode in graph.Keys - seen.directories.Keys && inode !in graph.Keys - entered.directories.Keys;
    entered
  }

  /** One included entry. */
  function Visit(graph: Graph, policy: Policy, inode: Inode, path: Path, seen: Seen): (r: Result<(Item, Seen)>)
    ensures r.Ok? ==> Extends(seen, r.value.1)
    decreases graph.Keys - seen.directories.Keys, 0
  {
    if inode !in graph || !Room(policy, PathBytes(path)) then Refused
    else
      var node := graph[inode];
      match node
      case LinkNode(_, _, _) => VisitLink(policy, node, inode, path, seen)
      case FileNode(_, _, _) => VisitFile(policy, node, inode, path, seen)
      case SpecialNode(mode, format) => if policy.hashing then Ok((Other(mode, format), seen)) else Refused
      case DirectoryNode(mode, entries) =>
        if inode in seen.directories then Refused
        else
          match Walk(graph, policy, entries, path, Enter(graph, seen, inode, path))
          case Refused => Refused
          case Ok((children, after)) => Ok((Folder(mode, children), after))
  }

  /** The entries of one directory, in order. */
  function Walk(graph: Graph, policy: Policy, entries: seq<Entry>, parts: Path,
                seen: Seen): (r: Result<(Listing, Seen)>)
    ensures r.Ok? ==> Extends(seen, r.value.1)
    decreases graph.Keys - seen.directories.Keys, |entries| + 1
  {
    if entries == [] then Ok(([], seen))
    else
      var name, path := entries[0].name, parts + [entries[0].name];
      if policy.excluded(path) then Walk(graph, policy, entries[1..], parts, seen)
      else match Visit(graph, policy, entries[0].inode, path, seen)
        case Refused => Refused
        case Ok((item, after)) =>
          match Walk(graph, policy, entries[1..], parts, after)
          case Refused => Refused
          case Ok((others, final)) => Ok(([Child(name, item)] + others, final))
  }

  function Start(root: Inode): Seen { Seen(map[], map[root := []]) }

  /** The whole walk from a root directory. */
  function Included(graph: Graph, policy: Policy, root: Inode): Result<(Listing, Seen)> {
    if root !in graph || !graph[root].DirectoryNode? then Refused
    else Walk(graph, policy, graph[root].entries, [], Start(root))
  }

  // ----- included paths, without reference to a walk -----

  /** Following the names of `rest` from the directory reached at `parts`, through included entries only, ends at
      `to`. */
  predicate Leads(graph: Graph, policy: Policy, from: Inode, parts: Path, rest: Path, to: Inode)
    decreases |rest|, 1
  {
    if rest == [] then from == to
    else from in graph && graph[from].DirectoryNode? && LeadsVia(graph, policy, graph[from].entries, parts, rest, to)
  }

  /** The first of these names is an included one of these entries. */
  predicate LeadsVia(graph: Graph, policy: Policy, entries: seq<Entry>, parts: Path, rest: Path, to: Inode)
    requires rest != []
    decreases |rest|, 0
  {
    && !policy.excluded(parts + [rest[0]])
    && exists e :: e in entries && Continues(graph, policy, e, parts, rest, to)
  }

  predicate Continues(graph: Graph, policy: Policy, e: Entry, parts: Path, rest: Path, to: Inode)
    requires rest != []
    decreases |rest| - 1, 2
  {
    e.name == rest[0] && Leads(graph, policy, e.inode, parts + [rest[0]], rest[1..], to)
  }

  /** Anything for which the walk refuses a second path. */
  predicate Tracked(graph: Graph, i: Inode) { i in graph && !graph[i].SpecialNode? }

  function Place(graph: Graph, seen: Seen, i: Inode): Option<Path>
    requires i in graph
  {
    if graph[i].DirectoryNode? then (if i in seen.directories then Some(seen.directories[i]) else None)
    else if i in seen.files then Some(seen.files[i]) else None
  }

  lemma PlaceExtends(graph: Graph, before: Seen, after: Seen, i: Inode)
    requires i in graph && Extends(before, after) && Place(graph, before, i).Some?
    ensures Place(graph, after, i) == Place(graph, before, i)
  {}

  // ----- one inode, one path -----

  lemma {:induction false} VisitPlaces(graph: Graph, policy: Policy, inode: Inode, path: Path, seen: Seen, rest: Path,
                                       i: Inode)
    requires Visit(graph, policy, inode, path, seen).Ok?
    requires Leads(graph, policy, inode, path, rest, i) && Tracked(graph, i)
    ensures Place(graph, Visit(graph, policy, inode, path, seen).value.1, i) == Some(path + rest)
    decreases graph.Keys - seen.directories.Keys, 0
  {
    if rest == [] {
      assert path + rest == path;
    } else {
      var entered := Enter(graph, seen, inode, path);
      WalkPlaces(graph, policy, graph[inode].entries, path, entered, rest, i);
    }
  }

  /** After the entries of a directory were walked, whatever an included path through them leads to is recorded at
      that very path. */
  lemma {:induction false} WalkPlaces(graph: Graph, policy: Policy, entries: seq<Entry>, parts: Path, seen: Seen,
                                      rest: Path, i: Inode)
    requires Walk(graph, policy, entries, parts, seen).Ok?
    requires rest != [] && LeadsVia(graph, policy, entries, parts, rest, i) && Tracked(graph, i)
    ensures Place(graph, Walk(graph, policy, entries, parts, seen).value.1, i) == Some(parts + rest)
    decreases graph.Keys - seen.directories.Keys, |entries| + 1
  {
    var path := parts + [entries[0].name];
    var e :| e in entries && Continues(graph, policy, e, parts, rest, i);
    if policy.excluded(path) {
      assert e in entries[1..];
      WalkPlaces(graph, policy, entries[1..], parts, seen, rest, i);
    } else {
      var after := Visit(graph, policy, entries[0].inode, path, seen).value.1;
      var final := Walk(graph, policy, entries[1..], parts, after).value.1;
      if e == entries[0] {
        VisitPlaces(graph, policy, e.inode, path, seen, rest[1..], i);
        PlaceExtends(graph, after, final, i);
        assert path + rest[1..] == parts + rest;
      } else {
        assert e in entries[1..];
        WalkPlaces(graph, policy, entries[1..], parts, after, rest, i);
      }
    }
  }

  /** A walk that succeeds reached every included directory, file and link by exactly one path. */
  lemma OnePathEach(graph: Graph, policy: Policy, root: Inode, p: Path, q: Path, i: Inode)
    requires Included(graph, policy, root).Ok? && Tracked(graph, i)
    requires Leads(graph, policy, root, [], p, i) && Leads(graph, policy, root, [], q, i)
    ensures p == q
  {
    RootPlaces(graph, policy, root, p, i);
    RootPlaces(graph, policy, root, q, i);
  }

  lemma RootPlaces(graph: Graph, policy: Policy, root: Inode, p: Path, i: Inode)
    requires Included(graph, policy, root).Ok? && Tracked(graph, i)
    requires Leads(graph, policy, root, [], p, i)
    ensures Place(graph, Included(graph, policy, root).value.1, i) == Some(p)
  {
    if p == [] {
      PlaceExtends(graph, Start(root), Included(graph, policy, root).value.1, i);
    } else {
      WalkPlaces(graph, policy, graph[root].entries, [], Start(root), p, i);
      assert [] + p == p;
    }
  }
}
