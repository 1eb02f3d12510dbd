/** The traversal object and the recursive methods that feed its digest (release_contract.py:760-999). */
module TreeTraversal {
  import opened LengthFraming
  import opened TreeRecords
  import opened TreeWalk
  import opened TreeDigest

  lemma Associate<T>(a: seq<T>, b: seq<T>, c: seq<T>)
    ensures a + b + c == a + (b + c)
  {}

  lemma {:induction false} FlattenAppend(a: seq<seq<Octet>>, b: seq<seq<Octet>>)
    ensures Flatten(a + b) == Flatten(a) + Flatten(b)
  {
    if a == [] {
      assert a + b == b;
    } else {
      FlattenAppend(a[1..], b);
      assert (a + b)[1..] == a[1..] + b;
      Associate(a[0], Flatten(a[1..]), Flatten(b));
    }
  }

  lemma MapAppend<T, U>(f: T -> U, a: seq<T>, b: seq<T>)
    ensures Map(f, a + b) == Map(f, a) + Map(f, b)
  {}

  lemma StreamAppend(a: seq<Record>, b: seq<Record>)
    ensures Stream(a + b) == Stream(a) + Stream(b)
  {
    MapAppend(Encode, a, b);
    FlattenAppend(Encodings(a), Encodings(b));
  }

  lemma StreamCons(head: Record, tail: seq<Record>)
    ensures Stream([head] + tail) == Encode(head) + Stream(tail)
  {
    MapAppend(Encode, [head], tail);
    FlattenAppend(Encodings([head]), Encodings(tail));
    FlattenOne(Encode(head));
    assert Encodings([head]) == [Encode(head)];
  }

  lemma FlattenOne(block: seq<Octet>)
    ensures Flatten([block]) == block
  {
    assert [block][1..] == [] && Flatten([block]) == block + Flatten([]);
  }

  lemma RecordsCons(parts: Path, first: Child, others: Listing)
    ensures Records(parts, [first] + others) == ItemRecords(parts + [first.name], first.item) + Records(parts, others)
  {
    assert ([first] + others)[1..] == others;
  }

  lemma {:induction false} RecordsSnoc(parts: Path, done: Listing, last: Child)
    ensures Records(parts, done + [last]) == Records(parts, done) + ItemRecords(parts + [last.name], last.item)
  {
    if done == [] {
      assert done + [last] == [last] + [];
      RecordsCons(parts, last, []);
    } else {
      RecordsSnoc(parts, done[1..], last);
      assert done + [last] == [done[0]] + (done[1..] + [last]) && done == [done[0]] + done[1..];
      RecordsCons(parts, done[0], done[1..] + [last]);
      RecordsCons(parts, done[0], done[1..]);
      Associate(ItemRecords(parts + [done[0].name], done[0].item), Records(parts, done[1..]),
                ItemRecords(parts + [last.name], last.item));
    }
  }

  /** The bytes of one entry before its tag. */
  function Header(path: Path, mode: Mode): seq<Octet> { Frame(PathBytes(path)) + BigEndian(mode, MODE_WIDTH) }

  /** Its tag and payload, then whatever is below it. */
  function Body(path: Path, item: Item): seq<Octet> {
    EncodePayload(Kind(item)) + (if item.Folder? then Stream(Records(path, item.children)) else [])
  }

  lemma ItemStream(path: Path, item: Item)
    ensures Stream(ItemRecords(path, item)) == Header(path, item.mode) + Body(path, item)
  {
    var head, below := Record(path, item.mode, Kind(item)), if item.Folder? then Records(path, item.children) else [];
    StreamCons(head, below);
    Associate(Frame(PathBytes(path)), BigEndian(item.mode, MODE_WIDTH), EncodePayload(head.payload));
    Associate(Header(path, item.mode), EncodePayload(head.payload), Stream(below));
  }

  /** What a walk yields after `done` was already listed. */
  function After(done: Listing, r: Result<(Listing, Seen)>): Result<(Listing, Seen)> {
    match r case Refused => Refused case Ok((others, seen)) => Ok((done + others, seen))
  }

  lemma WalkStarts(graph: Graph, policy: Policy, entries: seq<Entry>, parts: Path, seen: Seen)
    ensures Walk(graph, policy, entries, parts, seen) == After([], Walk(graph, policy, entries[0..], parts, seen))
  {
    var r := Walk(graph, policy, entries, parts, seen);
    assert entries[0..] == entries && (r.Ok? ==> [] + r.value.0 == r.value.0);
  }

  lemma WalkEnds(graph: Graph, policy: Policy, entries: seq<Entry>, parts: Path, done: Listing, now: Seen)
    ensures After(done, Walk(graph, policy, entries[|entries|..], parts, now)) == Ok((done, now))
  {
    assert done + [] == done;
  }

  lemma AfterAppend(done: Listing, child: Child, r: Result<(Listing, Seen)>)
    ensures After(done, After([child], r)) == After(done + [child], r)
  {
    if r.Ok? {
      Associate(done, [child], r.value.0);
    }
  }

  lemma WalkStep(graph: Graph, policy: Policy, entries: seq<Entry>, k: nat, parts: Path, now: Seen)
    requires k < |entries|
    ensures var path, whole := parts + [entries[k].name], Walk(graph, policy, entries[k..], parts, now);
            if policy.excluded(path) then whole == Walk(graph, policy, entries[k + 1..], parts, now)
            else match Visit(graph, policy, entries[k].inode, path, now)
              case Refused => whole == Refused
              case Ok((item, after)) =>
                whole == After([Child(entries[k].name, item)], Walk(graph, policy, entries[k + 1..], parts, after))
  {
    assert entries[k..][0] == entries[k] && entries[k..][1..] == entries[k + 1..];
  }

  lemma StreamSnoc(parts: Path, done: Listing, child: Child)
    ensures Stream(Records(parts, done + [child]))
         == Stream(Records(parts, done)) + Stream(ItemRecords(parts + [child.name], child.item))
  {
    RecordsSnoc(parts, done, child);
    StreamAppend(Records(parts, done), ItemRecords(parts + [child.name], child.item));
  }

  class Traversal {
    var fed: seq<Octet>
    var seenFiles: set<Inode>
    var seenDirectories: set<Inode>

    predicate Holds(seen: Seen)
      reads this
    {
      seenFiles == seen.files.Keys && seenDirectories == seen.directories.Keys
    }

    constructor (root: Inode)
      ensures fed == [] && Holds(Start(root))
    {
      fed := [];
      seenFiles := {};
      seenDirectories := {root};
    }

    method Update(bytes: seq<Octet>)
      modifies this`fed
      ensures fed == old(fed) + bytes
    {
      fed := fed + bytes;
    }

    method UpdateFramed(tag: Octet, bytes: seq<Octet>)
      modifies this`fed
      ensures fed == old(fed) + ([tag] + Frame(bytes))
    {
      Update([tag]);
      Update(BigEndian(|bytes|, LENGTH_WIDTH));
      Update(bytes);
    }

    method UpdateHeader(path: Path, mode: Mode)
      modifies this`fed
      ensures fed == old(fed) + Header(path, mode)
    {
      var relative := PathBytes(path);
      Update(BigEndian(|relative|, LENGTH_WIDTH));
      Update(relative);
      Update(BigEndian(mode, MODE_WIDTH));
    }

    method HashFile(policy: Policy, node: Node, inode: Inode, ghost path: Path, ghost seen: Seen) returns (ok: bool)
      requires policy.hashing && node.FileNode? && Holds(seen)
      modifies this
      ensures var r := VisitFile(policy, node, inode, path, seen);
              ok == r.Ok? && (ok ==> Holds(r.value.1) && fed == old(fed) + Body(path, r.value.0))
    {
      if node.links != 1 || inode in seenFiles || !Fits(node.data) {
        return false;
      }
      seenFiles := seenFiles + {inode};
      UpdateFramed(TAG_FILE, node.data);
      return true;
    }

    method HashSymlink(policy: Policy, node: Node, inode: Inode, ghost path: Path, ghost seen: Seen) returns (ok: bool)
      requires policy.hashing && node.LinkNode? && Holds(seen)
      modifies this
      ensures var r := VisitLink(policy, node, inode, path, seen);
              ok == r.Ok? && (ok ==> Holds(r.value.1) && fed == old(fed) + Body(path, r.value.0))
    {
      if !policy.preserveLinks || node.links != 1 || inode in seenFiles || !Fits(node.target) {
        return false;
      }
      seenFiles := seenFiles + {inode};
      UpdateFramed(TAG_LINK, node.target);
      return true;
    }

    method HashSpecial(ghost path: Path, node: Node)
      requires node.SpecialNode?
      modifies this`fed
      ensures fed == old(fed) + Body(path, Other(node.mode, node.format))
    {
      Update([TAG_SPECIAL]);
      Update(BigEndian(node.format, MODE_WIDTH));
    }

    method HashChildDirectory(graph: Graph, policy: Policy, inode: Inode, path: Path,
                              ghost seen: Seen) returns (ok: bool)
      requires policy.hashing && Holds(seen)
      requires inode in graph && graph[inode].DirectoryNode? && Fits(PathBytes(path))
      modifies this
      ensures var r := Visit(graph, policy, inode, path, seen);
              ok == r.Ok? && (ok ==> Holds(r.value.1) && fed == old(fed) + Body(path, r.value.0))
      decreases graph.Keys - seen.directories.Keys, 0
    {
      if inode in seenDirectories {
        return false;
      }
      seenDirectories := seenDirectories + {inode};
      Update([TAG_DIRECTORY]);
      ghost var entered := Enter(graph, seen, inode, path);
      ok := HashDirectory(graph, policy, graph[inode].entries, path, entered);
      if ok {
        ghost var below := Stream(Records(path, Walk(graph, policy, graph[inode].entries, path, entered).value.0));
        Associate(old(fed), [TAG_DIRECTORY], below);
      }
    }

    /** What follows the header of one included entry. */
    method HashBody(graph: Graph, policy: Policy, inode: Inode, path: Path, ghost seen: Seen) returns (ok: bool)
      requires policy.hashing && inode in graph && Fits(PathBytes(path)) && Holds(seen)
      modifies this
      ensures var r := Visit(graph, policy, inode, path, seen);
              ok == r.Ok? && (ok ==> Holds(r.value.1) && fed == old(fed) + Body(path, r.value.0))
      decreases graph.Keys - seen.directories.Keys, 1
    {
      var node := graph[inode];
      match node
      case LinkNode(_, _, _) => ok := HashSymlink(policy, node, inode, path, seen);
      case FileNode(_, _, _) => ok := HashFile(policy, node, inode, path, seen);
      case DirectoryNode(_, _) => ok := HashChildDirectory(graph, policy, inode, path, seen);
      case SpecialNode(_, _) =>
        HashSpecial(path, node);
        ok := true;
    }

    method HashEntry(graph: Graph, policy: Policy, inode: Inode, path: Path, ghost seen: Seen) returns (ok: bool)
      requires policy.hashing && Holds(seen)
      modifies this
      ensures var r := Visit(graph, policy, inode, path, seen);
              ok == r.Ok? && (ok ==> Holds(r.value.1) && fed == old(fed) + Stream(ItemRecords(path, r.value.0)))
      decreases graph.Keys - seen.directories.Keys, 2
    {
      if inode !in graph || !Fits(PathBytes(path)) {
        return false;
      }
      UpdateHeader(path, graph[inode].mode);
      ok := HashBody(graph, policy, inode, path, seen);
      if ok {
        ghost var item := Visit(graph, policy, inode, path, seen).value.0;
        ItemStream(path, item);
        Associate(old(fed), Header(path, item.mode), Body(path, item));
      }
    }

    /** One name of a directory: skipped, hashed or refused. */
    method HashNext(graph: Graph, policy: Policy, entries: seq<Entry>, k: nat, parts: Path,
                    ghost base: seq<Octet>, ghost done: Listing, ghost now: Seen)
      returns (ok: bool, ghost done': Listing, ghost now': Seen)
      requires policy.hashing && k < |entries| && Holds(now) && fed == base + Stream(Records(parts, done))
      modifies this
      ensures ok ==> Holds(now') && Extends(now, now') && fed == base + Stream(Records(parts, done'))
      ensures ok ==> var whole := Walk(graph, policy, entries[k..], parts, now);
                     var rest := Walk(graph, policy, entries[k + 1..], parts, now');
                     After(done, whole) == After(done', rest)
      ensures !ok ==> Walk(graph, policy, entries[k..], parts, now) == Refused
      decreases graph.Keys - now.directories.Keys, 3
    {
      var path := parts + [entries[k].name];
      WalkStep(graph, policy, entries, k, parts, now);
      if policy.excluded(path) {
        return true, done, now;
      }
      ghost var r := Visit(graph, policy, entries[k].inode, path, now);
      done', now' := done, now;
      ok := HashEntry(graph, policy, entries[k].inode, path, now);
      if ok {
        ghost var child := Child(entries[k].name, r.value.0);
        StreamSnoc(parts, done, child);
        Associate(base, Stream(Records(parts, done)), Stream(ItemRecords(path, r.value.0)));
        AfterAppend(done, child, Walk(graph, policy, entries[k + 1..], parts, r.value.1));
        done', now' := done + [child], r.value.1;
      }
    }

    method HashDirectory(graph: Graph, policy: Policy, entries: seq<Entry>, parts: Path, ghost seen: Seen)
      returns (ok: bool)
      requires policy.hashing && Holds(seen)
      modifies this
      ensures var r := Walk(graph, policy, entries, parts, seen);
              ok == r.Ok? && (ok ==> Holds(r.value.1) && fed == old(fed) + Stream(Records(parts, r.value.0)))
      decreases graph.Keys - seen.directories.Keys, |entries| + 4
    {
      ghost var done: Listing, now, base, whole := [], seen, fed, Walk(graph, policy, entries, parts, seen);
      var k := 0;
      WalkStarts(graph, policy, entries, parts, seen);
      while k < |entries|
        invariant 0 <= k <= |entries|
        invariant Extends(seen, now) && Holds(now)
        invariant fed == base + Stream(Records(parts, done))
        invariant whole == After(done, Walk(graph, policy, entries[k..], parts, now))
      {
        FewerLeft(graph, seen, now);
        ok, done, now := HashNext(graph, policy, entries, k, parts, base, done, now);
        if !ok {
          return;
        }
        k := k + 1;
      }
      WalkEnds(graph, policy, entries, parts, done, now);
      return true;
    }
  }

  /** The whole digest: it is taken of exactly the stream of the included tree, or refused. */
  method TreeSha(sha: seq<Octet> -> string, graph: Graph, policy: Policy, root: Inode) returns (r: Result<string>)
    requires policy.hashing
    ensures var s := TreeStream(graph, policy, root);
            r == if s.Some? then Ok(sha(s.value)) else Refused
  {
    if root !in graph || !graph[root].DirectoryNode? {
      return Refused;
    }
    var traversal := new Traversal(root);
    var ok := traversal.HashDirectory(graph, policy, graph[root].entries, [], Start(root));
    if ok {
      ghost var stream := Stream(Records([], Walk(graph, policy, graph[root].entries, [], Start(root)).value.0));
      assert [] + stream == stream;
    }
    r := if ok then Ok(sha(traversal.fed)) else Refused;
  }
}
