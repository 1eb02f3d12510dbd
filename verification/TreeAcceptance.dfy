/** Exactly when a walk succeeds (release_contract.py:800-953). */
module TreeAcceptance {
  import opened LengthFraming
  import opened TreeRecords
  import opened TreeWalk

  // ----- the condition, without reference to a walk -----

  /** What the walk demands of one included entry on its own. */
  predicate Sound(graph: Graph, policy: Policy, path: Path, i: Inode) {
    && i in graph && Room(policy, PathBytes(path))
    && match graph[i]
       case FileNode(_, links, data) => links == 1 && Room(policy, data)
       case LinkNode(_, links, target) => policy.preserveLinks && links == 1 && Room(policy, target)
       case SpecialNode(_, _) => policy.hashing
       case DirectoryNode(_, _) => true
  }

  ghost predicate AllSound(graph: Graph, policy: Policy, root: Inode) {
    forall p, i :: p != [] && Leads(graph, policy, root, [], p, i) ==> Sound(graph, policy, p, i)
  }

  /** No included directory, file or link has two included paths. A cycle would give one infinitely many. */
  ghost predicate NoAlias(graph: Graph, policy: Policy, root: Inode) {
    forall p, q, i :: Leads(graph, policy, root, [], p, i) && Leads(graph, policy, root, [], q, i) && Tracked(graph, i)
                      ==> p == q
  }

  ghost predicate Acceptable(graph: Graph, policy: Policy, root: Inode) {
    && root in graph && graph[root].DirectoryNode?
    && AllSound(graph, policy, root) && NoAlias(graph, policy, root)
  }

  // ----- success implies the condition -----

  lemma {:induction false} VisitSound(graph: Graph, policy: Policy, inode: Inode, path: Path, seen: Seen, rest: Path,
                                      i: Inode)
    requires Visit(graph, policy, inode, path, seen).Ok? && Leads(graph, policy, inode, path, rest, i)
    ensures Sound(graph, policy, path + rest, i)
    decreases graph.Keys - seen.directories.Keys, 0
  {
    if rest == [] {
      assert path + rest == path;
    } else {
      var entered := Enter(graph, seen, inode, path);
      WalkSound(graph, policy, graph[inode].entries, path, entered, rest, i);
    }
  }

  lemma {:induction false} WalkSound(graph: Graph, policy: Policy, entries: seq<Entry>, parts: Path, seen: Seen,
                                     rest: Path, i: Inode)
    requires Walk(graph, policy, entries, parts, seen).Ok?
    requires rest != [] && LeadsVia(graph, policy, entries, parts, rest, i)
    ensures Sound(graph, policy, parts + rest, i)
    decreases graph.Keys - seen.directories.Keys, |entries| + 1
  {
    var path := parts + [entries[0].name];
    var e :| e in entries && Continues(graph, policy, e, parts, rest, i);
    if policy.excluded(path) {
      assert e in entries[1..];
      WalkSound(graph, policy, entries[1..], parts, seen, rest, i);
    } else if e == entries[0] {
      VisitSound(graph, policy, e.inode, path, seen, rest[1..], i);
      assert path + rest[1..] == parts + rest;
    } else {
      assert e in entries[1..];
      var after := Visit(graph, policy, entries[0].inode, path, seen).value.1;
      WalkSound(graph, policy, entries[1..], parts, after, rest, i);
    }
  }

  lemma SuccessIsSound(graph: Graph, policy: Policy, root: Inode, p: Path, i: Inode)
    requires Included(graph, policy, root).Ok? && p != [] && Leads(graph, policy, root, [], p, i)
    ensures Sound(graph, policy, p, i)
  {
    WalkSound(graph, policy, graph[root].entries, [], Start(root), p, i);
    assert [] + p == p;
  }

  // ----- the condition implies success -----

  lemma {:induction false} LeadsSnoc(graph: Graph, policy: Policy, from: Inode, parts: Path, rest: Path, mid: Inode,
                                     e: Entry)
    requires Leads(graph, policy, from, parts, rest, mid)
    requires mid in graph && graph[mid].DirectoryNode? && e in graph[mid].entries
    requires !policy.excluded(parts + rest + [e.name])
    ensures Leads(graph, policy, from, parts, rest + [e.name], e.inode)
    decreases |rest|
  {
    if rest == [] {
      assert parts + rest + [e.name] == parts + [e.name] && (rest + [e.name])[1..] == [];
      assert Continues(graph, policy, e, parts, rest + [e.name], e.inode);
    } else {
      var first :| first in graph[from].entries && Continues(graph, policy, first, parts, rest, mid);
      assert parts + rest + [e.name] == parts + [rest[0]] + rest[1..] + [e.name];
      LeadsSnoc(graph, policy, first.inode, parts + [rest[0]], rest[1..], mid, e);
      assert (rest + [e.name])[1..] == rest[1..] + [e.name];
      assert Continues(graph, policy, first, parts, rest + [e.name], e.inode);
    }
  }

  /** Everything recorded is recorded at an included path that leads to it. */
  ghost predicate Traced(graph: Graph, policy: Policy, root: Inode, seen: Seen) {
    && (forall i :: i in seen.directories ==>
          i in graph && graph[i].DirectoryNode? && Leads(graph, policy, root, [], seen.directories[i], i))
    && (forall i :: i in seen.files ==>
          i in graph && (graph[i].FileNode? || graph[i].LinkNode?) && Leads(graph, policy, root, [], seen.files[i], i))
  }

  predicate Under(path: Path, top: Path) { |top| <= |path| && path[..|top|] == top }

  predicate NothingUnder(seen: Seen, top: Path) {
    && (forall i :: i in seen.directories ==> !Under(seen.directories[i], top))
    && (forall i :: i in seen.files ==> !Under(seen.files[i], top))
  }

  /** Everything newly recorded is under `top`. */
  predicate AddsUnder(before: Seen, after: Seen, top: Path) {
    && (forall i :: i in after.directories && i !in before.directories ==> Under(after.directories[i], top))
    && (forall i :: i in after.files && i !in before.files ==> Under(after.files[i], top))
  }

  lemma UnderDeeper(path: Path, top: Path, name: Name)
    requires Under(path, top + [name])
    ensures Under(path, top)
  {
    assert path[..|top| + 1][..|top|] == path[..|top|];
  }

  lemma UnderOne(path: Path, top: Path, a: Name, b: Name)
    requires Under(path, top + [a]) && Under(path, top + [b])
    ensures a == b
  {
    assert path[..|top| + 1][|top|] == a && path[..|top| + 1][|top|] == b;
  }

  /** Once one entry was visited nothing is yet under a later one of another name. */
  lemma StillAhead(before: Seen, after: Seen, parts: Path, visited: Name, later: Name)
    requires Extends(before, after) && AddsUnder(before, after, parts + [visited]) && visited != later
    requires NothingUnder(before, parts + [later])
    ensures NothingUnder(after, parts + [later])
  {
    forall i | i in after.directories
      ensures !Under(after.directories[i], parts + [later])
    {
      if i !in before.directories && Under(after.directories[i], parts + [later]) {
        UnderOne(after.directories[i], parts, visited, later);
      }
    }
    forall i | i in after.files
      ensures !Under(after.files[i], parts + [later])
    {
      if i !in before.files && Under(after.files[i], parts + [later]) {
        UnderOne(after.files[i], parts, visited, later);
      }
    }
  }

  lemma NothingUnderDeeper(seen: Seen, inode: Inode, path: Path, name: Name)
    requires NothingUnder(seen, path)
    ensures NothingUnder(seen.(directories := seen.directories[inode := path]), path + [name])
  {
    forall p | Under(p, path + [name])
      ensures Under(p, path)
    {
      UnderDeeper(p, path, name);
    }
  }

  lemma NotYetSeen(graph: Graph, policy: Policy, root: Inode, inode: Inode, path: Path, seen: Seen)
    requires NoAlias(graph, policy, root) && Leads(graph, policy, root, [], path, inode)
    requires Traced(graph, policy, root, seen) && NothingUnder(seen, path)
    ensures inode !in seen.directories && inode !in seen.files
  {
    assert Under(path, path);
  }

  lemma {:induction false} VisitAccepts(graph: Graph, policy: Policy, root: Inode, inode: Inode, path: Path, seen: Seen)
    requires WellFormed(graph) && Acceptable(graph, policy, root)
    requires path != [] && Leads(graph, policy, root, [], path, inode)
    requires Traced(graph, policy, root, seen) && NothingUnder(seen, path)
    ensures Visit(graph, policy, inode, path, seen).Ok?
    ensures var after := Visit(graph, policy, inode, path, seen).value.1;
            Traced(graph, policy, root, after) && AddsUnder(seen, after, path)
    decreases graph.Keys - seen.directories.Keys, 0
  {
    assert Sound(graph, policy, path, inode);
    NotYetSeen(graph, policy, root, inode, path, seen);
    if graph[inode].DirectoryNode? {
      var entered := Enter(graph, seen, inode, path);
      forall j | 0 <= j < |graph[inode].entries|
        ensures NothingUnder(entered, path + [graph[inode].entries[j].name])
      {
        NothingUnderDeeper(seen, inode, path, graph[inode].entries[j].name);
      }
      WalkAccepts(graph, policy, root, inode, 0, path, entered);
      assert graph[inode].entries[0..] == graph[inode].entries;
    }
  }

  predicate Ahead(seen: Seen, parts: Path, entries: seq<Entry>, k: nat) {
    forall j :: k <= j < |entries| ==> NothingUnder(seen, parts + [entries[j].name])
  }

  lemma {:induction false} WalkAccepts(graph: Graph, policy: Policy, root: Inode, from: Inode, k: nat, parts: Path,
                                       seen: Seen)
    requires WellFormed(graph) && Acceptable(graph, policy, root)
    requires from in graph && graph[from].DirectoryNode? && k <= |graph[from].entries|
    requires Leads(graph, policy, root, [], parts, from)
    requires Traced(graph, policy, root, seen) && Ahead(seen, parts, graph[from].entries, k)
    ensures Walk(graph, policy, graph[from].entries[k..], parts, seen).Ok?
    ensures var after := Walk(graph, policy, graph[from].entries[k..], parts, seen).value.1;
            Traced(graph, policy, root, after) && AddsUnder(seen, after, parts)
    decreases graph.Keys - seen.directories.Keys, |graph[from].entries| - k + 1
  {
    var entries := graph[from].entries;
    if k < |entries| {
      var e, path := entries[k], parts + [entries[k].name];
      assert entries[k..][0] == e && entries[k..][1..] == entries[k + 1..];
      if policy.excluded(path) {
        WalkAccepts(graph, policy, root, from, k + 1, parts, seen);
      } else {
        assert [] + parts + [e.name] == path;
        LeadsSnoc(graph, policy, root, [], parts, from, e);
        VisitAccepts(graph, policy, root, e.inode, path, seen);
        var after := Visit(graph, policy, e.inode, path, seen).value.1;
        forall j | k + 1 <= j < |entries|
          ensures NothingUnder(after, parts + [entries[j].name])
        {
          StillAhead(seen, after, parts, e.name, entries[j].name);
        }
        FewerLeft(graph, seen, after);
        WalkAccepts(graph, policy, root, from, k + 1, parts, after);
        AddsCompose(seen, after, Walk(graph, policy, entries[k + 1..], parts, after).value.1, parts, e.name);
      }
    }
  }

  lemma AddsCompose(a: Seen, b: Seen, c: Seen, parts: Path, name: Name)
    requires Extends(a, b) && Extends(b, c) && AddsUnder(a, b, parts + [name]) && AddsUnder(b, c, parts)
    ensures AddsUnder(a, c, parts)
  {
    forall p | Under(p, parts + [name])
      ensures Under(p, parts)
    {
      UnderDeeper(p, parts, name);
    }
  }

  /** The walk succeeds exactly when every included entry is sound on its own and none of them has two paths: it
      refuses every cycle and every shared directory, file or link, and refuses nothing else. */
  lemma SucceedsIff(graph: Graph, policy: Policy, root: Inode)
    requires WellFormed(graph)
    ensures Included(graph, policy, root).Ok? <==> Acceptable(graph, policy, root)
  {
    if Included(graph, policy, root).Ok? {
      forall p, i | p != [] && Leads(graph, policy, root, [], p, i)
        ensures Sound(graph, policy, p, i)
      {
        SuccessIsSound(graph, policy, root, p, i);
      }
      forall p, q, i | Leads(graph, policy, root, [], p, i) && Leads(graph, policy, root, [], q, i) && Tracked(graph, i)
        ensures p == q
      {
        OnePathEach(graph, policy, root, p, q, i);
      }
    }
    if Acceptable(graph, policy, root) {
      var entries := graph[root].entries;
      assert Leads(graph, policy, root, [], [], root);
      assert entries[0..] == entries;
      WalkAccepts(graph, policy, root, root, 0, [], Start(root));
    }
  }

  /** A directory that contains itself, at any depth, is always refused. */
  lemma CyclesAreRefused(graph: Graph, policy: Policy, root: Inode, p: Path)
    requires p != [] && Leads(graph, policy, root, [], p, root)
    ensures Included(graph, policy, root) == Refused
  {
    if Included(graph, policy, root).Ok? {
      OnePathEach(graph, policy, root, p, [], root);
    }
  }
}
