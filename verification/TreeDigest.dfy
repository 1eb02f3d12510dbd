/** What equal tree digests say about two inode graphs (release_contract.py:654-682, 800-953). */
module TreeDigest {
  import opened LengthFraming
  import opened TreeRecords
  import opened TreeWalk

  // ----- the walk's tree is the graph seen through included paths -----

  function Lookup(listing: Listing, path: Path): Option<Item>
    requires path != []
    decreases |path|, |listing|
  {
    if listing == [] then None
    else if listing[0].name != path[0] then Lookup(listing[1..], path)
    else if |path| == 1 then Some(listing[0].item)
    else if listing[0].item.Folder? then Lookup(listing[0].item.children, path[1..])
    else None
  }

  /** The item holds what the node holds; for a directory only its mode, its entries being items of their own. */
  predicate Shows(item: Item, node: Node) {
    match node
    case DirectoryNode(mode, _) => item.Folder? && item.mode == mode
    case FileNode(mode, _, data) => item == Regular(mode, data)
    case LinkNode(mode, _, target) => item == LinkItem(mode, target)
    case SpecialNode(mode, format) => item == Other(mode, format)
  }

  lemma {:induction false} AbsentName(graph: Graph, policy: Policy, entries: seq<Entry>, parts: Path, seen: Seen,
                                      rest: Path)
    requires rest != [] && Walk(graph, policy, entries, parts, seen).Ok?
    requires forall e :: e in entries ==> e.name != rest[0]
    ensures Lookup(Walk(graph, policy, entries, parts, seen).value.0, rest) == None
    decreases graph.Keys - seen.directories.Keys, |entries| + 1
  {
    if entries != [] {
      var path := parts + [entries[0].name];
      assert forall e :: e in entries[1..] ==> e in entries;
      if policy.excluded(path) {
        AbsentName(graph, policy, entries[1..], parts, seen, rest);
      } else {
        var after := Visit(graph, policy, entries[0].inode, path, seen).value.1;
        AbsentName(graph, policy, entries[1..], parts, after, rest);
        var listing := Walk(graph, policy, entries, parts, seen).value.0;
        assert listing[1..] == Walk(graph, policy, entries[1..], parts, after).value.0;
      }
    }
  }

  /** An included path below one visited entry is found in the item made of it. */
  predicate VisitFinds(graph: Graph, item: Item, rest: Path, i: Inode) {
    && i in graph
    && if rest == [] then Shows(item, graph[i])
       else item.Folder? && Lookup(item.children, rest).Some? && Shows(Lookup(item.children, rest).value, graph[i])
  }

  lemma {:induction false} VisitLooksUp(graph: Graph, policy: Policy, inode: Inode, path: Path, seen: Seen, rest: Path,
                                        i: Inode)
    requires WellFormed(graph) && Visit(graph, policy, inode, path, seen).Ok?
    requires Leads(graph, policy, inode, path, rest, i)
    ensures VisitFinds(graph, Visit(graph, policy, inode, path, seen).value.0, rest, i)
    decreases graph.Keys - seen.directories.Keys, 0
  {
    if rest != [] {
      var entered := Enter(graph, seen, inode, path);
      WalkLooksUp(graph, policy, graph[inode].entries, path, entered, rest, i);
    }
  }

  lemma {:induction false} WalkLooksUp(graph: Graph, policy: Policy, entries: seq<Entry>, parts: Path, seen: Seen,
                                       rest: Path, i: Inode)
    requires WellFormed(graph) && DistinctNames(entries) && Walk(graph, policy, entries, parts, seen).Ok?
    requires rest != [] && LeadsVia(graph, policy, entries, parts, rest, i)
    ensures var found := Lookup(Walk(graph, policy, entries, parts, seen).value.0, rest);
            i in graph && found.Some? && Shows(found.value, graph[i])
    decreases graph.Keys - seen.directories.Keys, |entries| + 1
  {
    var path := parts + [entries[0].name];
    var e :| e in entries && Continues(graph, policy, e, parts, rest, i);
    if policy.excluded(path) {
      assert e in entries[1..];
      WalkLooksUp(graph, policy, entries[1..], parts, seen, rest, i);
    } else {
      var after := Visit(graph, policy, entries[0].inode, path, seen).value.1;
      var listing := Walk(graph, policy, entries, parts, seen).value.0;
      assert listing[1..] == Walk(graph, policy, entries[1..], parts, after).value.0;
      if e == entries[0] {
        VisitLooksUp(graph, policy, e.inode, path, seen, rest[1..], i);
      } else {
        assert e in entries[1..];
        WalkLooksUp(graph, policy, entries[1..], parts, after, rest, i);
      }
    }
  }

  /** Every item found at a path comes from an inode that the path leads to. */
  lemma {:induction false} WalkComesFrom(graph: Graph, policy: Policy, entries: seq<Entry>, parts: Path, seen: Seen,
                                         rest: Path) returns (i: Inode)
    requires WellFormed(graph) && DistinctNames(entries) && Walk(graph, policy, entries, parts, seen).Ok?
    requires rest != [] && Lookup(Walk(graph, policy, entries, parts, seen).value.0, rest).Some?
    ensures LeadsVia(graph, policy, entries, parts, rest, i)
    decreases graph.Keys - seen.directories.Keys, |entries| + 1
  {
    var path := parts + [entries[0].name];
    if policy.excluded(path) {
      i := WalkComesFrom(graph, policy, entries[1..], parts, seen, rest);
    } else {
      var inode := entries[0].inode;
      var after := Visit(graph, policy, inode, path, seen).value.1;
      var listing := Walk(graph, policy, entries, parts, seen).value.0;
      assert listing[1..] == Walk(graph, policy, entries[1..], parts, after).value.0;
      if entries[0].name != rest[0] {
        i := WalkComesFrom(graph, policy, entries[1..], parts, after, rest);
      } else {
        if |rest| == 1 {
          i := inode;
        } else {
          var entered := Enter(graph, seen, inode, path);
          i := WalkComesFrom(graph, policy, graph[inode].entries, path, entered, rest[1..]);
        }
        assert Continues(graph, policy, entries[0], parts, rest, i);
      }
    }
  }

  /** What a reader of the included tree finds at a path: the inode it leads to, if any. */
  ghost predicate Finds(graph: Graph, policy: Policy, root: Inode, path: Path, item: Item) {
    exists i :: i in graph && Leads(graph, policy, root, [], path, i) && Shows(item, graph[i])
  }

  /** The tree of a successful walk is the graph as its included paths show it, no more and no less. */
  lemma TreeIsTheGraph(graph: Graph, policy: Policy, root: Inode, path: Path)
    requires WellFormed(graph) && Included(graph, policy, root).Ok? && path != []
    ensures var found := Lookup(Included(graph, policy, root).value.0, path);
            && (found.Some? ==> Finds(graph, policy, root, path, found.value))
            && (forall i :: Leads(graph, policy, root, [], path, i) ==>
                  i in graph && found.Some? && Shows(found.value, graph[i]))
  {
    var entries := graph[root].entries;
    var found := Lookup(Included(graph, policy, root).value.0, path);
    forall i | Leads(graph, policy, root, [], path, i)
      ensures i in graph && found.Some? && Shows(found.value, graph[i])
    {
      WalkLooksUp(graph, policy, entries, [], Start(root), path, i);
    }
    if found.Some? {
      var i := WalkComesFrom(graph, policy, entries, [], Start(root), path);
      assert Leads(graph, policy, root, [], path, i);
    }
  }

  // ----- every record of a walk fits the stream -----

  lemma EncodableJoins(a: seq<Record>, b: seq<Record>)
    requires AllEncodable(a) && AllEncodable(b)
    ensures AllEncodable(a + b)
  {}

  function ItemRecords(path: Path, item: Item): seq<Record> {
    [Record(path, item.mode, Kind(item))] + (if item.Folder? then Records(path, item.children) else [])
  }

  lemma {:induction false} VisitFits(graph: Graph, policy: Policy, inode: Inode, path: Path, seen: Seen)
    requires policy.hashing && path != [] && Visit(graph, policy, inode, path, seen).Ok?
    ensures AllEncodable(ItemRecords(path, Visit(graph, policy, inode, path, seen).value.0))
    decreases graph.Keys - seen.directories.Keys, 0
  {
    if graph[inode].DirectoryNode? {
      var entered := Enter(graph, seen, inode, path);
      WalkFits(graph, policy, graph[inode].entries, path, entered);
    }
  }

  lemma {:induction false} WalkFits(graph: Graph, policy: Policy, entries: seq<Entry>, parts: Path, seen: Seen)
    requires policy.hashing && Walk(graph, policy, entries, parts, seen).Ok?
    ensures AllEncodable(Records(parts, Walk(graph, policy, entries, parts, seen).value.0))
    decreases graph.Keys - seen.directories.Keys, |entries| + 1
  {
    if entries != [] {
      var path := parts + [entries[0].name];
      if policy.excluded(path) {
        WalkFits(graph, policy, entries[1..], parts, seen);
      } else {
        VisitFits(graph, policy, entries[0].inode, path, seen);
        var visited := Visit(graph, policy, entries[0].inode, path, seen).value;
        WalkFits(graph, policy, entries[1..], parts, visited.1);
        var others := Walk(graph, policy, entries[1..], parts, visited.1).value.0;
        EncodableJoins(ItemRecords(path, visited.0), Records(parts, others));
        assert ([Child(entries[0].name, visited.0)] + others)[1..] == others;
      }
    }
  }

  // ----- digests -----

  function TreeStream(graph: Graph, policy: Policy, root: Inode): Option<seq<Octet>> {
    match Included(graph, policy, root)
    case Refused => None
    case Ok((listing, _)) => Some(Stream(Records([], listing)))
  }

  /** Two trees with the same digest show the same thing at every path: the same entries are included, with the same
      modes, kinds and contents, whatever inodes, graphs and exclusions they come from. The one hypothesis is that
      the digests of the two streams do not collide. */
  lemma DigestNamesTheTree(sha: seq<Octet> -> string, a: Graph, b: Graph, p: Policy, q: Policy, r: Inode, s: Inode,
                           path: Path, item: Item)
    requires WellFormed(a) && WellFormed(b) && p.hashing && q.hashing && path != []
    requires TreeStream(a, p, r).Some? && TreeStream(b, q, s).Some?
    requires sha(TreeStream(a, p, r).value) == sha(TreeStream(b, q, s).value)
    requires var x, y := TreeStream(a, p, r).value, TreeStream(b, q, s).value; sha(x) == sha(y) ==> x == y
    requires Finds(a, p, r, path, item)
    ensures Included(a, p, r).value.0 == Included(b, q, s).value.0
    ensures exists other :: Finds(b, q, s, path, other) && other.mode == item.mode && Kind(other) == Kind(item)
  {
    WalkFits(a, p, a[r].entries, [], Start(r));
    WalkFits(b, q, b[s].entries, [], Start(s));
    var tree := Included(a, p, r).value.0;
    StreamDeterminesTheTree(tree, Included(b, q, s).value.0);
    TreeIsTheGraph(a, p, r, path);
    TreeIsTheGraph(b, q, s, path);
    var found := Lookup(tree, path).value;
    assert Finds(b, q, s, path, found);
    assert found.mode == item.mode && Kind(found) == Kind(item);
  }
}
