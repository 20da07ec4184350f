/** The browser's cache of a file tree: deep reads registered level by level, a tree built from whatever
    is registered, and a pruning that drops what the root no longer leads to. */
module FileTreeCache {
  import opened Wrappers
  import opened Sequences
  import opened IgnoreRules
  import opened FileTree

  type Levels = map<string, seq<TreeNode>>

  const TREE_FETCH_DEPTH: nat := 5

  // ---------------------------------------------------------------------------------------------
  // The server's tree, and what a read of some depth answers.

  datatype Item = Item(name: string, isDir: bool)

  type Server = map<string, seq<Item>>

  /** Every directory the server lists can be listed in turn. */
  ghost predicate WellFormed(server: Server) {
    forall p, item :: p in server && item in server[p] ==>
      IsName(item.name) && (item.isDir ==> ChildPath(p, item.name) in server)
  }

  /** A read of `depth` levels. A directory past the last one is there, with no children. */
  function Deep(server: Server, path: string, depth: nat): seq<TreeNode>
    requires WellFormed(server) && path in server
    decreases depth, 1
  {
    if depth == 0 then []
    else seq(|server[path]|, i requires 0 <= i < |server[path]| => DeepNode(server, path, server[path][i], depth))
  }

  function DeepNode(server: Server, path: string, item: Item, depth: nat): TreeNode
    requires WellFormed(server) && path in server && item in server[path] && depth >= 1
    decreases depth, 0
  {
    var own := ChildPath(path, item.name);
    if item.isDir then DirNode(item.name, own, Deep(server, own, depth - 1), None, false)
    else FileNode(item.name, own)
  }

  /** The server's table lists this directory tree, with every directory readable. */
  ghost predicate Serves(server: Server, dir: Entry, path: string, contract: Contract)
    requires dir.Dir?
    decreases dir, 0
  {
    && dir.readable
    && path in server
    && ServesEntries(server, server[path], dir.entries, path, contract)
  }

  ghost predicate ServesEntries(server: Server, items: seq<Item>, entries: seq<Entry>, path: string, contract: Contract)
    decreases entries
  {
    if entries == [] then items == []
    else
      var e := entries[0];
      if Hidden(e, contract) then ServesEntries(server, items, entries[1..], path, contract)
      else
        && items != [] && items[0] == Item(e.name, e.Dir?)
        && (e.Dir? ==> Serves(server, e, ChildPath(path, e.name), contract))
        && ServesEntries(server, items[1..], entries[1..], path, contract)
  }

  /** The recursive walker answers exactly those reads. */
  lemma {:induction false} WalkIsDeep(server: Server, dir: Entry, path: string, depth: nat, maxDepth: nat, contract: Contract)
    requires WellFormed(server) && dir.Dir? && Serves(server, dir, path, contract) && depth <= maxDepth
    ensures Walk(dir, path, depth, Options(Some(maxDepth), None, false, contract)).nodes ==
            Deep(server, path, maxDepth - depth)
    decreases dir, 1
  {
    if depth < maxDepth {
      WalkEntriesIsDeep(server, dir.entries, path, 0, depth, maxDepth, contract);
    }
  }

  lemma {:induction false} WalkEntriesIsDeep(server: Server, entries: seq<Entry>, path: string, k: nat, depth: nat,
                                             maxDepth: nat, contract: Contract)
    requires WellFormed(server) && path in server && k <= |server[path]| && depth < maxDepth
    requires ServesEntries(server, server[path][k..], entries, path, contract)
    ensures WalkEntries(entries, path, depth, None, Options(Some(maxDepth), None, false, contract)).nodes ==
            Deep(server, path, maxDepth - depth)[k..]
    decreases entries, 1
  {
    if entries != [] {
      var e := entries[0];
      if Hidden(e, contract) {
        WalkEntriesIsDeep(server, entries[1..], path, k, depth, maxDepth, contract);
      } else {
        DropOne(server[path], k);
        WalkEntriesIsDeep(server, entries[1..], path, k + 1, depth, maxDepth, contract);
        EntryIsDeep(server, entries, path, k, depth, maxDepth, contract);
        DropOne(Deep(server, path, maxDepth - depth), k);
      }
    }
  }

  /** The node of the first entry shown is the one the read has for it. */
  lemma {:induction false} EntryIsDeep(server: Server, entries: seq<Entry>, path: string, k: nat, depth: nat,
                                       maxDepth: nat, contract: Contract)
    requires WellFormed(server) && path in server && k < |server[path]| && depth < maxDepth
    requires entries != [] && !Hidden(entries[0], contract)
    requires server[path][k] == Item(entries[0].name, entries[0].Dir?)
    requires entries[0].Dir? ==> Serves(server, entries[0], ChildPath(path, entries[0].name), contract)
    ensures var o := Options(Some(maxDepth), None, false, contract);
            WalkEntries(entries, path, depth, None, o).nodes ==
            [Deep(server, path, maxDepth - depth)[k]] + WalkEntries(entries[1..], path, depth, None, o).nodes
    decreases entries, 0
  {
    var e, own := entries[0], ChildPath(path, entries[0].name);
    var o := Options(Some(maxDepth), None, false, contract);
    assert Deep(server, path, maxDepth - depth)[k] == DeepNode(server, path, server[path][k], maxDepth - depth);
    if e.Dir? {
      WalkIsDeep(server, e, own, depth + 1, maxDepth, contract);
      TruncatedIffFlagged(e.entries, own, depth + 1, None, o);
    }
  }

  // ---------------------------------------------------------------------------------------------
  // Registering a deep read, and building the tree on screen.

  /** Node paths extend the path of the directory they stand in, all the way down. */
  ghost predicate Rooted(nodes: seq<TreeNode>, path: string)
    decreases nodes
  {
    forall n :: n in nodes ==>
      && IsName(n.name) && n.path == ChildPath(path, n.name)
      && (n.DirNode? ==> Rooted(n.children, n.path))
  }

  lemma RootedParts(nodes: seq<TreeNode>, path: string)
    requires Rooted(nodes, path) && nodes != []
    ensures IsName(nodes[0].name) && nodes[0].path == ChildPath(path, nodes[0].name)
    ensures nodes[0].DirNode? ==> Rooted(nodes[0].children, nodes[0].path)
    ensures Rooted(nodes[1..], path)
  {
    assert nodes[0] in nodes;
  }

  ghost predicate Grounded(levels: Levels) {
    forall p :: p in levels ==> Rooted(levels[p], p)
  }

  lemma {:induction false} DeepIsRooted(server: Server, path: string, depth: nat)
    requires WellFormed(server) && path in server
    ensures Rooted(Deep(server, path, depth), path)
    decreases depth
  {
    if depth > 0 {
      forall item | item in server[path] && item.isDir
        ensures Rooted(Deep(server, ChildPath(path, item.name), depth - 1), ChildPath(path, item.name))
      {
        DeepIsRooted(server, ChildPath(path, item.name), depth - 1);
      }
    }
  }

  function Registered(levels: Levels, nodes: seq<TreeNode>, depth: nat): Levels
    decreases nodes
  {
    if depth >= TREE_FETCH_DEPTH || nodes == [] then levels
    else if nodes[0].FileNode? then Registered(levels, nodes[1..], depth)
    else
      var node := nodes[0];
      Registered(Registered(levels[node.path := node.children], node.children, depth + 1), nodes[1..], depth)
  }

  /** A read listing `nodes`, which stand at level `depth`, lists the directory `path` with these children, above
      the cut. An empty directory is no exception. */
  ghost predicate ListsAbove(nodes: seq<TreeNode>, depth: nat, path: string, children: seq<TreeNode>)
    decreases nodes
  {
    depth < TREE_FETCH_DEPTH &&
    exists n :: n in nodes && ListedBy(n, depth, path, children)
  }

  ghost predicate ListedBy(n: TreeNode, depth: nat, path: string, children: seq<TreeNode>)
    decreases n
  {
    n.DirNode? && ((n.path == path && n.children == children) || ListsAbove(n.children, depth + 1, path, children))
  }

  lemma ListsAboveParts(nodes: seq<TreeNode>, depth: nat, path: string, children: seq<TreeNode>)
    requires nodes != [] && depth < TREE_FETCH_DEPTH
    ensures ListsAbove(nodes, depth, path, children) <==>
            ListedBy(nodes[0], depth, path, children) || ListsAbove(nodes[1..], depth, path, children)
  {
    assert forall n :: n in nodes <==> n == nodes[0] || n in nodes[1..];
  }

  ghost predicate Lists(nodes: seq<TreeNode>, depth: nat, path: string) {
    exists children :: ListsAbove(nodes, depth, path, children)
  }

  /** What one level holds after a read: the read's own listing of that directory if it lists it above the cut, and
      otherwise what it held before. */
  ghost predicate Holds(before: Levels, after: Levels, nodes: seq<TreeNode>, depth: nat, path: string) {
    if Lists(nodes, depth, path) then path in after && ListsAbove(nodes, depth, path, after[path])
    else (path in after <==> path in before) && (path in after ==> after[path] == before[path])
  }

  lemma {:induction false} RegisteredHolds(levels: Levels, nodes: seq<TreeNode>, depth: nat, path: string)
    ensures Holds(levels, Registered(levels, nodes, depth), nodes, depth, path)
    decreases nodes
  {
    if depth < TREE_FETCH_DEPTH && nodes != [] {
      var node, rest := nodes[0], nodes[1..];
      assert nodes == [node] + rest;
      if node.FileNode? {
        RegisteredHolds(levels, rest, depth, path);
        FileListsNothing(node, rest, depth, path);
      } else {
        var own := levels[node.path := node.children];
        var below := Registered(own, node.children, depth + 1);
        RegisteredHolds(own, node.children, depth + 1, path);
        RegisteredHolds(below, rest, depth, path);
        HoldsTogether(levels, below, Registered(below, rest, depth), node, rest, depth, path);
      }
    }
  }

  lemma FileListsNothing(node: TreeNode, rest: seq<TreeNode>, depth: nat, path: string)
    requires node.FileNode? && depth < TREE_FETCH_DEPTH
    ensures Lists([node] + rest, depth, path) <==> Lists(rest, depth, path)
    ensures forall children :: ListsAbove([node] + rest, depth, path, children) <==> ListsAbove(rest, depth, path, children)
  {
    forall children
      ensures ListsAbove([node] + rest, depth, path, children) <==> ListsAbove(rest, depth, path, children)
    {
      ListsAboveParts([node] + rest, depth, path, children);
    }
  }

  lemma HoldsTogether(levels: Levels, below: Levels, after: Levels, node: TreeNode, rest: seq<TreeNode>, depth: nat, path: string)
    requires node.DirNode? && depth < TREE_FETCH_DEPTH
    requires Holds(levels[node.path := node.children], below, node.children, depth + 1, path)
    requires Holds(below, after, rest, depth, path)
    ensures Holds(levels, after, [node] + rest, depth, path)
  {
    var nodes := [node] + rest;
    forall children
      ensures ListsAbove(nodes, depth, path, children) <==>
              ListedBy(node, depth, path, children) || ListsAbove(rest, depth, path, children)
    {
      ListsAboveParts(nodes, depth, path, children);
    }
    if Lists(rest, depth, path) {
      assert ListsAbove(nodes, depth, path, after[path]);
    } else if Lists(node.children, depth + 1, path) {
      assert ListedBy(node, depth, path, after[path]);
      assert ListsAbove(nodes, depth, path, after[path]);
    } else if node.path == path {
      assert ListedBy(node, depth, path, after[path]);
      assert ListsAbove(nodes, depth, path, after[path]);
    } else {
      forall children
        ensures !ListsAbove(nodes, depth, path, children)
      {
        assert !ListsAbove(node.children, depth + 1, path, children);
      }
    }
  }

  function Absorbed(levels: Levels, root: string, tree: seq<TreeNode>): Levels {
    Registered(levels[root := tree], tree, 1)
  }

  ghost function Longer(levels: Levels, path: string): set<string> {
    set p | p in levels && |p| > |path|
  }

  /** The tree below one path: a registered directory shows its registered level, another shows whatever
      its node carried. It ends because the paths get longer. */
  function Build(levels: Levels, path: string): seq<TreeNode>
    requires Grounded(levels)
    decreases Longer(levels, path), 1
  {
    if path !in levels then []
    else seq(|levels[path]|, i requires 0 <= i < |levels[path]| => BuildNode(levels, path, levels[path][i]))
  }

  function BuildNode(levels: Levels, path: string, node: TreeNode): TreeNode
    requires Grounded(levels) && path in levels && node in levels[path]
    decreases Longer(levels, path), 0
  {
    if node.DirNode? && node.path in levels then
      assert node.path in Longer(levels, path) && node.path !in Longer(levels, node.path);
      node.(children := Build(levels, node.path))
    else node
  }

  /** Every directory named in a tree. */
  function Reach(nodes: seq<TreeNode>): set<string>
    decreases nodes
  {
    if nodes == [] then {}
    else (if nodes[0].DirNode? then {nodes[0].path} + Reach(nodes[0].children) else {}) + Reach(nodes[1..])
  }

  lemma {:induction false} ReachIff(nodes: seq<TreeNode>, p: string)
    ensures p in Reach(nodes) <==> exists n :: n in nodes && n.DirNode? && (p == n.path || p in Reach(n.children))
    decreases nodes
  {
    if nodes != [] {
      ReachIff(nodes[1..], p);
      assert forall n :: n in nodes <==> n == nodes[0] || n in nodes[1..];
    }
  }

  /** What the root leads to. */
  function Live(levels: Levels): set<string>
    requires Grounded(levels)
  {
    {""} + Reach(Build(levels, ""))
  }

  function Pruned(levels: Levels): Levels
    requires Grounded(levels)
  {
    if "" !in levels then levels else OnlyAt(levels, Live(levels))
  }

  // ---------------------------------------------------------------------------------------------
  // Whatever the server answered: pruning and stale reads never change the tree on screen.

  lemma {:induction false} BuildOnReached(levels: Levels, kept: Levels, path: string)
    requires Grounded(levels) && Grounded(kept) && path in levels && path in kept
    requires forall p :: p in kept ==> p in levels && kept[p] == levels[p]
    requires forall p :: p in levels && p in Reach(Build(levels, path)) ==> p in kept
    ensures Build(kept, path) == Build(levels, path)
    decreases Longer(levels, path)
  {
    var nodes := Build(levels, path);
    forall i | 0 <= i < |levels[path]|
      ensures BuildNode(kept, path, levels[path][i]) == BuildNode(levels, path, levels[path][i])
    {
      var node := levels[path][i];
      assert nodes[i] in nodes;
      if node.DirNode? && node.path in levels {
        assert node.path in Longer(levels, path) && node.path !in Longer(levels, node.path);
        assert nodes[i] == BuildNode(levels, path, node);
        ReachIff(nodes, node.path);
        forall p | p in levels && p in Reach(Build(levels, node.path))
          ensures p in kept
        {
          ReachIff(nodes, p);
          assert nodes[i].children == Build(levels, node.path);
        }
        BuildOnReached(levels, kept, node.path);
      }
    }
  }

  /** Pruning removes exactly what the root does not lead to, and the tree it builds is untouched. */
  lemma PruneKeepsTree(levels: Levels)
    requires Grounded(levels)
    ensures Grounded(Pruned(levels)) && Build(Pruned(levels), "") == Build(levels, "")
    ensures "" in levels ==> Live(Pruned(levels)) == Live(levels) && Pruned(levels).Keys == levels.Keys * Live(levels)
    ensures Pruned(Pruned(levels)) == Pruned(levels)
  {
    if "" in levels {
      BuildOnReached(levels, Pruned(levels), "");
    }
  }

  /** `q` lies strictly below the directory `path`. */
  predicate Under(path: string, q: string) {
    path + "/" <= q
  }

  lemma UnderIsTransitive(path: string, name: string, q: string)
    requires path != ""
    ensures Under(ChildPath(path, name), q) ==> Under(path, q)
  {
    if Under(ChildPath(path, name), q) {
      assert q[..|path| + 1] == ChildPath(path, name)[..|path| + 1] == path + "/";
    }
  }

  /** The parent of a directory below `path` is `path` itself or below it too. */
  lemma ParentOfUnder(path: string, q: string, name: string)
    requires path != "" && IsName(name)
    ensures Under(path, ChildPath(q, name)) ==> q == path || Under(path, q)
  {
    var child := ChildPath(q, name);
    assert forall k :: 0 <= k < |name| ==> name[k] != '/';
    if Under(path, child) {
      assert child[|path|] == (path + "/")[|path|] == '/';
      assert q == child[..|q|];
      assert path == child[..|path|];
      if |path| < |q| {
        assert q[..|path| + 1] == child[..|path| + 1];
      }
    }
  }

  lemma {:induction false} RegisteredOnlyUnder(levels: Levels, nodes: seq<TreeNode>, path: string, depth: nat, q: string)
    requires Rooted(nodes, path) && path != "" && !Under(path, q)
    ensures q in Registered(levels, nodes, depth) <==> q in levels
    ensures q in levels ==> Registered(levels, nodes, depth)[q] == levels[q]
    decreases nodes
  {
    if depth < TREE_FETCH_DEPTH && nodes != [] {
      RootedParts(nodes, path);
      if nodes[0].FileNode? {
        RegisteredOnlyUnder(levels, nodes[1..], path, depth, q);
      } else {
        var node := nodes[0];
        var first := levels[node.path := node.children];
        UnderIsTransitive(path, node.name, q);
        RegisteredOnlyUnder(first, node.children, node.path, depth + 1, q);
        RegisteredOnlyUnder(Registered(first, node.children, depth + 1), nodes[1..], path, depth, q);
      }
    }
  }

  lemma {:induction false} RegisteredIsGrounded(levels: Levels, nodes: seq<TreeNode>, path: string, depth: nat)
    requires Grounded(levels) && Rooted(nodes, path)
    ensures Grounded(Registered(levels, nodes, depth))
    decreases nodes
  {
    if depth < TREE_FETCH_DEPTH && nodes != [] {
      RootedParts(nodes, path);
      if nodes[0].FileNode? {
        RegisteredIsGrounded(levels, nodes[1..], path, depth);
      } else {
        var node := nodes[0];
        RegisteredIsGrounded(levels[node.path := node.children], node.children, node.path, depth + 1);
        RegisteredIsGrounded(Registered(levels[node.path := node.children], node.children, depth + 1), nodes[1..], path, depth);
      }
    }
  }

  lemma {:induction false} BuildOutside(before: Levels, after: Levels, path: string, q: string)
    requires Grounded(before) && Grounded(after) && path != ""
    requires forall p :: p != path && !Under(path, p) ==> (p in after <==> p in before) && (p in before ==> after[p] == before[p])
    requires q != path && !Under(path, q)
    requires path !in Reach(Build(after, q))
    ensures Build(after, q) == Build(before, q)
    decreases Longer(after, q)
  {
    if q in after {
      var nodes := Build(after, q);
      forall i | 0 <= i < |after[q]|
        ensures BuildNode(after, q, after[q][i]) == BuildNode(before, q, after[q][i])
      {
        var node := after[q][i];
        assert nodes[i] == BuildNode(after, q, node);
        if node.DirNode? {
          ReachIff(nodes, path);
          ParentOfUnder(path, q, node.name);
          if node.path in after {
            assert node.path in Longer(after, q) && node.path !in Longer(after, node.path);
            assert nodes[i].children == Build(after, node.path);
            BuildOutside(before, after, path, node.path);
          }
        }
      }
    }
  }

  /** A deep read of a directory the root no longer leads to is registered and pruned again without a
      trace on the tree. */
  lemma AbsorbUnreached(levels: Levels, path: string, tree: seq<TreeNode>)
    requires Grounded(levels) && Rooted(tree, path)
    ensures Grounded(Absorbed(levels, path, tree))
    ensures path !in Live(Absorbed(levels, path, tree)) ==>
              Build(Absorbed(levels, path, tree), "") == Build(levels, "")
  {
    var after := Absorbed(levels, path, tree);
    RegisteredIsGrounded(levels[path := tree], tree, path, 1);
    if path !in Live(after) {
      forall p | p != path && !Under(path, p)
        ensures (p in after <==> p in levels) && (p in levels ==> after[p] == levels[p])
      {
        RegisteredOnlyUnder(levels[path := tree], tree, path, 1, p);
      }
      BuildOutside(levels, after, path, "");
    }
  }

  // ---------------------------------------------------------------------------------------------
  // A server that does not change: the cache is faithful to it.

  /** Every registered level is a whole listing: at least one level of a read, never the emptied branch at
      the cut. */
  ghost predicate Exact(levels: Levels, server: Server)
    requires WellFormed(server)
  {
    forall p :: p in levels ==> p in server && exists d: nat :: d >= 1 && levels[p] == Deep(server, p, d)
  }

  /** A directory with children to show has them registered. */
  ghost predicate Shut(levels: Levels, p: string)
    requires p in levels
  {
    forall n :: n in levels[p] && n.DirNode? && n.children != [] ==> n.path in levels
  }

  ghost predicate Faithful(levels: Levels, server: Server)
    requires WellFormed(server)
  {
    Exact(levels, server) && forall p :: p in levels ==> Shut(levels, p)
  }

  lemma ExactIsGrounded(levels: Levels, server: Server)
    requires WellFormed(server) && Exact(levels, server)
    ensures Grounded(levels)
  {
    forall p | p in levels
      ensures Rooted(levels[p], p)
    {
      var d: nat :| d >= 1 && levels[p] == Deep(server, p, d);
      DeepIsRooted(server, p, d);
    }
  }

  ghost function Further(server: Server, path: string): set<string> {
    set p | p in server && |p| > |path|
  }

  /** What a faithful cache must show: a function of the server and of which paths are registered alone. */
  function View(server: Server, keys: set<string>, path: string): seq<TreeNode>
    requires WellFormed(server) && path in server
    decreases Further(server, path), 1
  {
    seq(|server[path]|, i requires 0 <= i < |server[path]| => ViewNode(server, keys, path, server[path][i]))
  }

  function ViewNode(server: Server, keys: set<string>, path: string, item: Item): TreeNode
    requires WellFormed(server) && path in server && item in server[path]
    decreases Further(server, path), 0
  {
    var own := ChildPath(path, item.name);
    if item.isDir then
      assert own in Further(server, path) && own !in Further(server, own);
      DirNode(item.name, own, if own in keys then View(server, keys, own) else [], None, false)
    else FileNode(item.name, own)
  }

  /** The tree on screen agrees with the server on every registered directory, and shows nothing below
      the others. */
  lemma {:induction false} BuildIsView(levels: Levels, server: Server, path: string)
    requires WellFormed(server) && Faithful(levels, server) && Grounded(levels) && path in levels
    ensures Build(levels, path) == View(server, levels.Keys, path)
    decreases Longer(levels, path)
  {
    var d: nat :| d >= 1 && levels[path] == Deep(server, path, d);
    forall i | 0 <= i < |server[path]|
      ensures BuildNode(levels, path, levels[path][i]) == ViewNode(server, levels.Keys, path, server[path][i])
    {
      var node := levels[path][i];
      assert node == DeepNode(server, path, server[path][i], d);
      if node.DirNode? && node.path in levels {
        assert node.path in Longer(levels, path) && node.path !in Longer(levels, node.path);
        BuildIsView(levels, server, node.path);
      }
      assert Shut(levels, path);
    }
  }

  /** A registered directory shows one node for each item the server lists in it, in order, with its name, path and
      kind. A directory among them shows as many as the server lists there if it is registered, and none if not. */
  lemma ScreenIsComplete(levels: Levels, server: Server, path: string, i: nat)
    requires WellFormed(server) && Faithful(levels, server) && Grounded(levels) && path in levels
    requires path in server && i < |server[path]|
    ensures |Build(levels, path)| == |server[path]|
    ensures var node, item := Build(levels, path)[i], server[path][i];
            && node.name == item.name && node.path == ChildPath(path, item.name) && (node.DirNode? <==> item.isDir)
            && (item.isDir ==> node.path in server
                               && |node.children| == if node.path in levels then |server[node.path]| else 0)
  {
    BuildIsView(levels, server, path);
    assert Build(levels, path)[i] == ViewNode(server, levels.Keys, path, server[path][i]);
  }

  ghost predicate ShutBut(levels: Levels, open: set<string>) {
    forall q :: q in levels && q !in open ==> Shut(levels, q)
  }

  /** What registering the rest of one listing promises: nothing is forgotten, paths no longer than the
      directory's own are left alone, levels stay exact, and every directory with children to show,
      `open` ones aside, has them registered. */
  ghost predicate RegisteredWell(before: Levels, after: Levels, server: Server, nodes: seq<TreeNode>, path: string,
                                 open: set<string>)
    requires WellFormed(server)
  {
    && before.Keys <= after.Keys
    && (forall q :: q in after && |q| <= |path| ==> q in before && after[q] == before[q])
    && Exact(after, server)
    && ShutBut(after, open)
    && (forall n :: n in nodes && n.DirNode? && n.children != [] ==> n.path in after)
  }

  /** Nodes out of one listing of a read `d` levels deep. */
  ghost predicate Listed(nodes: seq<TreeNode>, server: Server, path: string, d: nat)
    requires WellFormed(server) && d >= 1
  {
    forall n :: n in nodes && n.DirNode? ==>
      n.path in server && |n.path| > |path| && n.children == Deep(server, n.path, d - 1)
  }

  lemma DeepIsListed(server: Server, path: string, d: nat)
    requires WellFormed(server) && path in server && d >= 1
    ensures Listed(Deep(server, path, d), server, path, d)
  {
    var nodes := Deep(server, path, d);
    forall n | n in nodes && n.DirNode?
      ensures n.path in server && |n.path| > |path| && n.children == Deep(server, n.path, d - 1)
    {
      var i :| 0 <= i < |nodes| && nodes[i] == n;
      assert n == DeepNode(server, path, server[path][i], d);
    }
  }

  lemma ListedParts(nodes: seq<TreeNode>, server: Server, path: string, d: nat)
    requires WellFormed(server) && d >= 1 && nodes != [] && Listed(nodes, server, path, d)
    ensures Listed(nodes[1..], server, path, d)
    ensures nodes[0].DirNode? ==>
              && nodes[0].path in server && |nodes[0].path| > |path|
              && nodes[0].children == Deep(server, nodes[0].path, d - 1)
  {
    assert nodes[0] in nodes;
  }

  lemma RegisteredFile(levels: Levels, after: Levels, server: Server, nodes: seq<TreeNode>, path: string, open: set<string>)
    requires WellFormed(server) && nodes != [] && nodes[0].FileNode?
    requires RegisteredWell(levels, after, server, nodes[1..], path, open)
    ensures RegisteredWell(levels, after, server, nodes, path, open)
  {
    forall n | n in nodes && n.DirNode? && n.children != []
      ensures n.path in after
    {
      assert n in nodes[1..];
    }
  }

  lemma OpenOne(levels: Levels, server: Server, node: TreeNode, d: nat, open: set<string>)
    requires WellFormed(server) && Exact(levels, server) && d >= 1
    requires node.DirNode? && node.path in server && node.children == Deep(server, node.path, d)
    requires ShutBut(levels, open)
    ensures var first := levels[node.path := node.children];
            && Exact(first, server)
            && ShutBut(first, open + {node.path})
  {
    var first := levels[node.path := node.children];
    forall q | q in first && q !in open + {node.path}
      ensures Shut(first, q)
    {
      assert Shut(levels, q);
    }
  }

  lemma CloseOne(first: Levels, second: Levels, server: Server, node: TreeNode, open: set<string>)
    requires WellFormed(server) && node.DirNode? && node.path in first && first[node.path] == node.children
    requires RegisteredWell(first, second, server, node.children, node.path, open + {node.path})
    ensures node.path in second
    ensures ShutBut(second, open)
  {
    assert second[node.path] == node.children;
    assert Shut(second, node.path);
  }

  lemma RegisteredBoth(levels: Levels, second: Levels, third: Levels, server: Server, nodes: seq<TreeNode>, path: string,
                       open: set<string>)
    requires WellFormed(server) && nodes != [] && nodes[0].DirNode? && |nodes[0].path| > |path|
    requires nodes[0].path in second
    requires RegisteredWell(levels[nodes[0].path := nodes[0].children], second, server, nodes[0].children, nodes[0].path,
                            open + {nodes[0].path})
    requires RegisteredWell(second, third, server, nodes[1..], path, open)
    ensures RegisteredWell(levels, third, server, nodes, path, open)
  {
    forall n | n in nodes && n.DirNode? && n.children != []
      ensures n.path in third
    {
      assert n == nodes[0] || n in nodes[1..];
    }
  }

  lemma {:induction false} RegisteredIsExact(levels: Levels, server: Server, nodes: seq<TreeNode>, path: string, d: nat,
                                             open: set<string>)
    requires WellFormed(server) && Exact(levels, server) && 1 <= d <= TREE_FETCH_DEPTH
    requires Listed(nodes, server, path, d) && ShutBut(levels, open)
    ensures RegisteredWell(levels, Registered(levels, nodes, TREE_FETCH_DEPTH + 1 - d), server, nodes, path, open)
    decreases nodes, 1
  {
    var depth := TREE_FETCH_DEPTH + 1 - d;
    if d > 1 && nodes != [] {
      var node := nodes[0];
      ListedParts(nodes, server, path, d);
      if node.FileNode? {
        RegisteredIsExact(levels, server, nodes[1..], path, d, open);
        RegisteredFile(levels, Registered(levels, nodes[1..], depth), server, nodes, path, open);
      } else {
        ChildRegistered(levels, server, node, d, open);
        var second := Registered(levels[node.path := node.children], node.children, depth + 1);
        RegisteredIsExact(second, server, nodes[1..], path, d, open);
        RegisteredBoth(levels, second, Registered(second, nodes[1..], depth), server, nodes, path, open);
      }
    }
  }

  lemma {:induction false} ChildRegistered(levels: Levels, server: Server, node: TreeNode, d: nat, open: set<string>)
    requires WellFormed(server) && Exact(levels, server) && ShutBut(levels, open) && 1 < d <= TREE_FETCH_DEPTH
    requires node.DirNode? && node.path in server && node.children == Deep(server, node.path, d - 1)
    ensures var first := levels[node.path := node.children];
            var second := Registered(first, node.children, TREE_FETCH_DEPTH + 2 - d);
            && RegisteredWell(first, second, server, node.children, node.path, open + {node.path})
            && node.path in second && ShutBut(second, open)
    decreases node, 0
  {
    var first := levels[node.path := node.children];
    OpenOne(levels, server, node, d - 1, open);
    DeepIsListed(server, node.path, d - 1);
    RegisteredIsExact(first, server, node.children, node.path, d - 1, open + {node.path});
    CloseOne(first, Registered(first, node.children, TREE_FETCH_DEPTH + 2 - d), server, node, open);
  }

  /** A landed read keeps the cache faithful, and forgets nothing. */
  lemma AbsorbIsFaithful(levels: Levels, server: Server, path: string)
    requires WellFormed(server) && Faithful(levels, server) && path in server
    ensures var after := Absorbed(levels, path, Deep(server, path, TREE_FETCH_DEPTH));
            Faithful(after, server) && levels.Keys + {path} <= after.Keys
  {
    var tree := Deep(server, path, TREE_FETCH_DEPTH);
    var first := levels[path := tree];
    DeepIsListed(server, path, TREE_FETCH_DEPTH);
    RegisteredIsExact(first, server, tree, path, TREE_FETCH_DEPTH, {path});
    var after := Absorbed(levels, path, tree);
    assert after[path] == tree;
    assert Shut(after, path);
  }

  /** Everything below a reached, registered directory is reached. */
  lemma {:induction false} ReachIsClosed(levels: Levels, server: Server, path: string, q: string)
    requires WellFormed(server) && Faithful(levels, server) && Grounded(levels) && path in levels
    requires q in Reach(Build(levels, path)) && q in levels
    ensures Reach(Build(levels, q)) <= Reach(Build(levels, path))
    decreases Longer(levels, path)
  {
    var nodes := Build(levels, path);
    ReachIff(nodes, q);
    var n :| n in nodes && n.DirNode? && (q == n.path || q in Reach(n.children));
    var i :| 0 <= i < |nodes| && nodes[i] == n;
    var node := levels[path][i];
    assert n == BuildNode(levels, path, node);
    assert Shut(levels, path);
    assert n.path in levels;
    assert n.children == Build(levels, n.path);
    if q != n.path {
      assert n.path in Longer(levels, path) && n.path !in Longer(levels, n.path);
      ReachIsClosed(levels, server, n.path, q);
    }
    forall p | p in Reach(Build(levels, q))
      ensures p in Reach(nodes)
    {
      ReachIff(nodes, p);
    }
  }

  lemma PruneIsFaithful(levels: Levels, server: Server)
    requires WellFormed(server) && Faithful(levels, server) && Grounded(levels)
    ensures Faithful(Pruned(levels), server)
  {
    var after := Pruned(levels);
    forall q | q in after
      ensures Shut(after, q)
    {
      assert Shut(levels, q);
      forall n | n in levels[q] && n.DirNode? && n.children != []
        ensures n.path in after
      {
        if "" in levels {
          var i :| 0 <= i < |levels[q]| && levels[q][i] == n;
          var built := Build(levels, q);
          assert built[i] == BuildNode(levels, q, n);
          assert built[i] in built;
          ReachIff(built, n.path);
          if q != "" {
            ReachIsClosed(levels, server, "", q);
          }
        }
      }
    }
  }

  lemma {:induction false} ViewGrows(server: Server, few: set<string>, many: set<string>, path: string)
    requires WellFormed(server) && path in server && few <= many
    ensures Reach(View(server, few, path)) <= Reach(View(server, many, path))
    decreases Further(server, path)
  {
    var a, b := View(server, few, path), View(server, many, path);
    forall p | p in Reach(a)
      ensures p in Reach(b)
    {
      ReachIff(a, p);
      var n :| n in a && n.DirNode? && (p == n.path || p in Reach(n.children));
      var i :| 0 <= i < |a| && a[i] == n;
      assert n == ViewNode(server, few, path, server[path][i]);
      assert b[i] == ViewNode(server, many, path, server[path][i]);
      assert b[i] in b;
      if p != n.path {
        assert n.path in Further(server, path) && n.path !in Further(server, n.path);
        ViewGrows(server, few, many, n.path);
      }
      ReachIff(b, p);
    }
  }

  /** Refreshing loses nothing: against an unchanged server, a read landing in a pruned cache leaves every
      registered directory registered and every directory on screen on screen. */
  lemma RefreshLosesNothing(levels: Levels, server: Server, path: string)
    requires WellFormed(server) && Faithful(levels, server) && Grounded(levels)
    requires "" in levels && Pruned(levels) == levels && path in server
    ensures var tree := Deep(server, path, TREE_FETCH_DEPTH);
            && Grounded(Absorbed(levels, path, tree))
            && levels.Keys <= Pruned(Absorbed(levels, path, tree)).Keys
            && Live(levels) <= Live(Pruned(Absorbed(levels, path, tree)))
  {
    var after := Absorbed(levels, path, Deep(server, path, TREE_FETCH_DEPTH));
    AbsorbIsFaithful(levels, server, path);
    ExactIsGrounded(after, server);
    BuildIsView(levels, server, "");
    BuildIsView(after, server, "");
    ViewGrows(server, levels.Keys, after.Keys, "");
    PruneKeepsTree(after);
    forall p | p in levels
      ensures p in Live(levels)
    {
      assert p in Pruned(levels);
    }
  }

  // ---------------------------------------------------------------------------------------------
  // The object itself: reads start, answers come back in any order, and a superseded one is dropped.

  class FileTreeResource {
    var levels: Levels
    var requests: map<string, nat>
    var aborted: set<nat>
    var errors: set<string>
    var roots: set<string>
    var tree: seq<TreeNode>
    /** The reads whose response is still to come, by controller. */
    var inFlight: map<nat, string>
    var next: nat

    /** The tree on screen is the one the registered levels build, always; a request in the table is in
        flight and not aborted, and an answer that still counts belongs to the path's own request. */
    ghost predicate Valid()
      reads this
    {
      && Grounded(levels)
      && tree == Build(levels, "")
      && Tracked(requests, aborted, inFlight, next)
    }

    constructor ()
      ensures Valid() && Look() == Snapshot(Held(map[], map[], {}, {}), [], map[], {}, 0)
    {
      levels, requests, aborted, errors, roots, tree := map[], map[], {}, {}, {}, [];
      inFlight, next := map[], 0;
    }

    method Publish()
      requires Grounded(levels)
      modifies this`tree
      ensures tree == Build(levels, "")
    {
      tree := Build(levels, "");
    }

    /** Registers every directory of a deep read that stands above the cut. */
    method Register(nodes: seq<TreeNode>, depth: nat)
      modifies this`levels
      ensures levels == Registered(old(levels), nodes, depth)
      decreases nodes
    {
      if depth >= TREE_FETCH_DEPTH {
        return;
      }
      for i := 0 to |nodes|
        invariant Registered(levels, nodes[i..], depth) == Registered(old(levels), nodes, depth)
      {
        var node := nodes[i];
        assert nodes[i..][1..] == nodes[i + 1..];
        if node.DirNode? {
          levels := levels[node.path := node.children];
          Register(node.children, depth + 1);
        }
      }
    }

    method Absorb(root: string, read: seq<TreeNode>)
      modifies this`levels
      ensures levels == Absorbed(old(levels), root, read)
    {
      levels := levels[root := read];
      Register(read, 1);
    }

    method Visit(nodes: seq<TreeNode>, seen: set<string>) returns (reachable: set<string>)
      ensures reachable == seen + Reach(nodes)
      decreases nodes
    {
      reachable := seen;
      for i := 0 to |nodes|
        invariant reachable + Reach(nodes[i..]) == seen + Reach(nodes)
      {
        assert nodes[i..][1..] == nodes[i + 1..];
        if nodes[i].DirNode? {
          reachable := Visit(nodes[i].children, reachable + {nodes[i].path});
        }
      }
    }

    /** Drops every path the root does not lead to, with its request. */
    method Prune()
      requires Grounded(levels) && Tracked(requests, aborted, inFlight, next)
      modifies this`levels, this`errors, this`roots, this`requests, this`aborted
      ensures State() == if old("" !in levels) then old(State()) else old(State()).At(old(Live(levels)))
      ensures Tracked(requests, aborted, inFlight, next) && old(aborted) <= aborted
    {
      if "" !in levels {
        return;
      }
      var reachable := Visit(Build(levels, ""), {""});
      var todo := levels.Keys + requests.Keys + errors + roots;
      ghost var was := State();
      AtAll(was, reachable, todo);
      while todo != {}
        invariant State() == was.At(reachable + todo)
        invariant Tracked(requests, aborted, inFlight, next) && old(aborted) <= aborted
        decreases todo
      {
        var path :| path in todo;
        AtLess(was, reachable, todo, path);
        todo := todo - {path};
        if path !in reachable {
          Drop(path);
        }
      }
      assert reachable + {} == reachable;
    }

    method Drop(path: string)
      requires Tracked(requests, aborted, inFlight, next)
      modifies this`levels, this`errors, this`roots, this`requests, this`aborted
      ensures State() == old(State()).Without(path)
      ensures Tracked(requests, aborted, inFlight, next)
      ensures aborted == old(aborted) + if old(path in requests) then {old(requests)[path]} else {}
    {
      levels := levels - {path};
      errors := errors - {path};
      roots := roots - {path};
      if path in requests {
        Untrack(requests, aborted, inFlight, next, path);
        aborted := aborted + {requests[path]};
      }
      requests := requests - {path};
    }

    /** A read starts: it aborts the one it replaces and is the path's own request from now on. */
    method Begin(path: string)
      requires Valid()
      modifies this`requests, this`aborted, this`errors, this`roots, this`tree, this`inFlight, this`next
      ensures Valid() && tree == old(tree)
      ensures requests == old(requests)[path := old(next)] && inFlight == old(inFlight)[old(next) := path]
      ensures aborted == old(aborted) + if path in old(requests) then {old(requests)[path]} else {}
      ensures roots == old(roots) + {path} && errors == old(errors) - {path} && next == old(next) + 1
    {
      Track(requests, aborted, inFlight, next, path);
      if path in requests {
        aborted := aborted + {requests[path]};
      }
      requests := requests[path := next];
      inFlight := inFlight[next := path];
      next := next + 1;
      roots := roots + {path};
      errors := errors - {path};
      Publish();
    }

    /** What came back is absorbed and the cache pruned. If the request does not survive that, the read left no
        trace on the tree. */
    method Land(path: string, read: seq<TreeNode>)
      requires Valid() && Rooted(read, path) && path in requests
      modifies this`levels, this`errors, this`roots, this`requests, this`aborted
      ensures Grounded(Absorbed(old(levels), path, read)) && levels == Pruned(Absorbed(old(levels), path, read))
      ensures Grounded(levels) && Tracked(requests, aborted, inFlight, next) && old(aborted) <= aborted
      ensures requests - {path} == old(State()).Landed(path, read).requests
      ensures errors == old(State()).Landed(path, read).errors && roots == old(State()).Landed(path, read).roots
      ensures path in requests ==> requests[path] == old(requests)[path]
      ensures path !in requests ==> tree == Build(levels, "")
    {
      AbsorbUnreached(levels, path, read);
      Absorb(path, read);
      PruneKeepsTree(levels);
      Prune();
    }

    /** A response comes back, or fails to. One whose controller was aborted changes nothing; another
        lands, is pruned, and is published if its request survived the pruning. */
    method Settle(id: nat, answer: Option<seq<TreeNode>>)
      requires Valid() && id in inFlight
      requires answer.Some? ==> Rooted(answer.value, inFlight[id])
      modifies this`levels, this`requests, this`aborted, this`errors, this`roots, this`tree, this`inFlight
      ensures Valid() && inFlight == old(inFlight) - {id}
      ensures id in old(aborted) ==> State() == old(State()) && tree == old(tree) && aborted == old(aborted)
      ensures id !in old(aborted) && answer.Some? ==>
                var absorbed := Absorbed(old(levels), old(inFlight)[id], answer.value);
                Grounded(absorbed) && levels == Pruned(absorbed)
      ensures id !in old(aborted) && answer.Some? ==> State() == old(State()).Landed(old(inFlight)[id], answer.value)
      ensures old(aborted) <= aborted && (answer.None? ==> tree == old(tree) && aborted == old(aborted))
      ensures id !in old(aborted) && answer.None? ==>
                State() == old(State()).(requests := old(requests) - {old(inFlight)[id]},
                                         errors := old(errors) + {old(inFlight)[id]})
    {
      var path := inFlight[id];
      if id !in aborted {
        if answer.Some? {
          Land(path, answer.value);
        } else {
          errors := errors + {path};
        }
      }
      if path in requests && requests[path] == id {
        requests := requests - {path};
        inFlight := inFlight - {id};
        Publish();
      } else {
        inFlight := inFlight - {id};
      }
    }

    /** Expanding a folder reads it only if the tree still names it, nothing is reading it, and it is not
        registered already; a failed one is read again on request, not on its own. */
    method LoadChildren(path: string, auto: bool) returns (started: bool)
      requires Valid()
      modifies this`requests, this`aborted, this`errors, this`roots, this`tree, this`inFlight, this`next
      ensures Valid()
      ensures started <==> path in Reach(old(tree)) && path !in old(requests)
                           && (path in old(errors) ==> !auto) && (path in levels ==> path in old(errors))
      ensures tree == old(tree) && aborted == old(aborted)
      ensures started ==> State() == old(State()).Begun(path, old(next)) && next == old(next) + 1
                          && inFlight == old(inFlight)[old(next) := path]
      ensures !started ==> State() == old(State()) && inFlight == old(inFlight) && next == old(next)
    {
      started := false;
      if path !in Reach(tree) || path in requests {
        return;
      }
      if auto && path in errors {
        return;
      }
      if path in levels && path !in errors {
        return;
      }
      Begin(path);
      started := true;
    }

    /** Reads the root again and everything ever read, so that no read still in flight counts. */
    method Refresh()
      requires Valid()
      modifies this`requests, this`aborted, this`errors, this`roots, this`tree, this`inFlight, this`next
      ensures Valid() && tree == old(tree) && errors == {}
      ensures requests.Keys == roots == {""} + old(roots) + old(requests).Keys + old(errors)
      ensures (forall p :: p in requests ==> requests[p] >= old(next)) && next >= old(next) && old(aborted) <= aborted
      ensures forall id :: id in old(inFlight) ==> id in inFlight && id in aborted
    {
      var paths := {""} + roots + requests.Keys + errors;
      ghost var all, was, flying, first := paths, requests, inFlight, next;
      while paths != {}
        invariant Valid() && tree == old(tree)
        invariant paths <= all && errors == old(errors) * paths
        invariant roots == old(roots) + (all - paths) && old(aborted) <= aborted
        invariant Superseded(was, requests, all - paths, first) && Flying(flying, inFlight, first) && first <= next
        decreases paths
      {
        var path :| path in paths;
        SupersedeOne(was, requests, all - paths, first, path, next);
        assert all - (paths - {path}) == all - paths + {path};
        paths := paths - {path};
        Begin(path);
      }
      assert all - paths == all;
      AllSuperseded(was, requests, all, first, flying, inFlight, aborted, next);
    }

    /** Aborts every read and forgets the requests. */
    method Cancel()
      requires Valid()
      modifies this`requests, this`aborted
      ensures Valid() && requests == map[] && aborted == old(aborted) + old(requests).Values
      ensures forall id :: id in inFlight ==> id in aborted
    {
      aborted := aborted + requests.Values;
      requests := map[];
    }

    ghost function Look(): Snapshot
      reads this
    {
      Snapshot(State(), tree, inFlight, aborted, next)
    }

    function State(): Held
      reads this
    {
      Held(levels, requests, errors, roots)
    }
  }

  /** The four collections pruning works on. */
  datatype Held = Held(levels: Levels, requests: map<string, nat>, errors: set<string>, roots: set<string>) {
    /** What is held at some paths only. */
    function At(keys: set<string>): Held {
      Held(OnlyAt(levels, keys), OnlyAt(requests, keys), errors * keys, roots * keys)
    }

    /** A read of `path` has started. */
    function Begun(path: string, id: nat): Held {
      Held(levels, requests[path := id], errors - {path}, roots + {path})
    }

    /** A read of `path` has come back with `tree`: it is absorbed, what the root no longer leads to is dropped,
        and the request is over. */
    function Landed(path: string, tree: seq<TreeNode>): Held
      requires Grounded(Absorbed(levels, path, tree))
    {
      var held := Held(Absorbed(levels, path, tree), requests, errors, roots);
      var kept := if "" in held.levels then held.At(Live(held.levels)) else held;
      Held(kept.levels, kept.requests - {path}, kept.errors, kept.roots)
    }

    function Without(path: string): Held {
      Held(levels - {path}, requests - {path}, errors - {path}, roots - {path})
    }
  }

  function OnlyAt<V>(m: map<string, V>, keys: set<string>): map<string, V> {
    map p | p in m && p in keys :: m[p]
  }

  lemma AtAll(held: Held, reachable: set<string>, todo: set<string>)
    requires todo == held.levels.Keys + held.requests.Keys + held.errors + held.roots
    ensures held.At(reachable + todo) == held
  {
  }

  lemma AtLess(held: Held, reachable: set<string>, todo: set<string>, path: string)
    requires path in todo
    ensures held.At(reachable + (todo - {path})) ==
            if path in reachable then held.At(reachable + todo) else held.At(reachable + todo).Without(path)
  {
    if path in reachable {
      assert reachable + (todo - {path}) == reachable + todo;
    }
  }

  lemma Track(requests: map<string, nat>, aborted: set<nat>, inFlight: map<nat, string>, next: nat, path: string)
    requires Tracked(requests, aborted, inFlight, next)
    ensures Tracked(requests[path := next], aborted + if path in requests then {requests[path]} else {},
                    inFlight[next := path], next + 1)
  {
  }

  /** The requests of the paths in `done` were made since `first`; the others are as they were. */
  ghost predicate Superseded(was: map<string, nat>, now: map<string, nat>, done: set<string>, first: nat) {
    && now.Keys == was.Keys + done
    && forall p :: p in now ==> if p in done then now[p] >= first else now[p] == was[p]
  }

  ghost predicate Flying(was: map<nat, string>, now: map<nat, string>, first: nat) {
    forall id :: id in was ==> id < first && id in now && now[id] == was[id]
  }

  lemma SupersedeOne(was: map<string, nat>, now: map<string, nat>, done: set<string>, first: nat, path: string, next: nat)
    requires Superseded(was, now, done, first) && first <= next
    ensures Superseded(was, now[path := next], done + {path}, first)
  {
  }

  lemma AllSuperseded(was: map<string, nat>, now: map<string, nat>, all: set<string>, first: nat,
                      flying: map<nat, string>, inFlight: map<nat, string>, aborted: set<nat>, next: nat)
    requires Superseded(was, now, all, first) && was.Keys <= all && Flying(flying, inFlight, first)
    requires Tracked(now, aborted, inFlight, next)
    ensures forall id :: id in flying ==> id in inFlight && id in aborted
  {
  }

  lemma Untrack(requests: map<string, nat>, aborted: set<nat>, inFlight: map<nat, string>, next: nat, path: string)
    requires Tracked(requests, aborted, inFlight, next) && path in requests
    ensures Tracked(requests - {path}, aborted + {requests[path]}, inFlight, next)
  {
  }

  ghost predicate Tracked(requests: map<string, nat>, aborted: set<nat>, inFlight: map<nat, string>, next: nat) {
    && (forall p :: p in requests ==> requests[p] in inFlight && inFlight[requests[p]] == p && requests[p] !in aborted)
    && (forall id :: id in inFlight ==> id < next)
    && (forall id :: id in inFlight && id !in aborted ==> inFlight[id] in requests && requests[inFlight[id]] == id)
    && (forall id :: id in aborted ==> id < next)
  }

  /** What can happen to the cache. */
  datatype Event = Expand(path: string, auto: bool) | Reload | Stop | Arrives(id: nat, ok: bool)

  /** The cache as values. Which reads in flight no longer count is told by the requests, by `Tracked`. */
  datatype Snapshot = Snapshot(held: Held, tree: seq<TreeNode>, inFlight: map<nat, string>, aborted: set<nat>, next: nat)

  /** One event takes the cache from `was` to `now`. A refresh reads its paths in some order. */
  ghost predicate Moves(server: Server, was: Snapshot, event: Event, now: Snapshot)
    requires WellFormed(server)
  {
    && Tracked(now.held.requests, now.aborted, now.inFlight, now.next) && was.aborted <= now.aborted
    && match event
       case Expand(path, auto) =>
         now == if Reads(was, path, auto)
                then was.(held := was.held.Begun(path, was.next), inFlight := was.inFlight[was.next := path], next := was.next + 1)
                else was
       case Reload =>
         && now.tree == was.tree && now.held.levels == was.held.levels && now.held.errors == {}
         && now.held.requests.Keys == now.held.roots == {""} + was.held.roots + was.held.requests.Keys + was.held.errors
         && (forall p :: p in now.held.requests ==> now.held.requests[p] >= was.next)
         && (forall id :: id in was.inFlight ==> id in now.inFlight && id in now.aborted)
       case Stop => now == was.(held := was.held.(requests := map[]), aborted := was.aborted + was.held.requests.Values)
       case Arrives(id, ok) =>
         if id !in was.inFlight then now == was
         else
           var path := was.inFlight[id];
           && now.inFlight == was.inFlight - {id} && now.next == was.next
           && if id in was.aborted then now.held == was.held && now.tree == was.tree
              else if ok && path in server then
                var read := Deep(server, path, TREE_FETCH_DEPTH);
                && Grounded(Absorbed(was.held.levels, path, read)) && now.held == was.held.Landed(path, read)
                && Grounded(now.held.levels) && now.tree == Build(now.held.levels, "")
              else
                && now.tree == was.tree && now.aborted == was.aborted
                && now.held == was.held.(requests := was.held.requests - {path}, errors := was.held.errors + {path})
  }

  /** Expanding starts a read. */
  predicate Reads(c: Snapshot, path: string, auto: bool) {
    && path in Reach(c.tree) && path !in c.held.requests
    && (path in c.held.errors ==> !auto) && (path in c.held.levels ==> path in c.held.errors)
  }

  /** The cache, one snapshot before each event and one at the end. */
  ghost predicate Follows(server: Server, events: seq<Event>, trace: seq<Snapshot>)
    requires WellFormed(server)
  {
    && |trace| == |events| + 1 && trace[0] == Snapshot(Held(map[], map[], {}, {}), [], map[], {}, 0)
    && forall i {:trigger events[i]} :: 0 <= i < |events| ==> Moves(server, trace[i], events[i], trace[i + 1])
  }

  lemma FollowsOn(server: Server, events: seq<Event>, trace: seq<Snapshot>, event: Event, now: Snapshot)
    requires WellFormed(server) && Follows(server, events, trace) && Moves(server, trace[|events|], event, now)
    ensures Follows(server, events + [event], trace + [now])
  {
    var longer, more := trace + [now], events + [event];
    forall i | 0 <= i < |more|
      ensures Moves(server, longer[i], more[i], longer[i + 1])
    {
      assert i < |events| ==> Moves(server, trace[i], events[i], trace[i + 1]);
    }
  }

  /** One event. */
  method Take(cache: FileTreeResource, server: Server, event: Event)
    requires WellFormed(server) && cache.Valid() && Faithful(cache.levels, server)
    modifies cache
    ensures cache.Valid() && Faithful(cache.levels, server)
    ensures Moves(server, old(cache.Look()), event, cache.Look())
  {
    match event {
      case Expand(path, auto) =>
        var _ := cache.LoadChildren(path, auto);
      case Reload =>
        cache.Refresh();
      case Stop =>
        cache.Cancel();
      case Arrives(id, ok) =>
        if id in cache.inFlight {
          var path := cache.inFlight[id];
          var answer := None;
          if ok && path in server {
            DeepIsRooted(server, path, TREE_FETCH_DEPTH);
            AbsorbIsFaithful(cache.levels, server, path);
            ExactIsGrounded(Absorbed(cache.levels, path, Deep(server, path, TREE_FETCH_DEPTH)), server);
            PruneIsFaithful(Absorbed(cache.levels, path, Deep(server, path, TREE_FETCH_DEPTH)), server);
            answer := Some(Deep(server, path, TREE_FETCH_DEPTH));
          }
          cache.Settle(id, answer);
        }
    }
  }

  /** Against a server that does not change, under any interleaving of reads, failures and aborts, the
      tree on screen is the one the server and the registered paths determine. */
  method Run(server: Server, events: seq<Event>)
    returns (tree: seq<TreeNode>, registered: set<string>, ghost trace: seq<Snapshot>)
    requires WellFormed(server) && "" in server
    ensures Follows(server, events, trace)
    ensures tree == trace[|events|].tree && registered == trace[|events|].held.levels.Keys
    ensures registered <= server.Keys
    ensures tree == if "" in registered then View(server, registered, "") else []
  {
    var cache := new FileTreeResource();
    trace := [cache.Look()];
    for i := 0 to |events|
      invariant fresh(cache) && cache.Valid() && Faithful(cache.levels, server)
      invariant Follows(server, events[..i], trace) && trace[i] == cache.Look()
    {
      Take(cache, server, events[i]);
      FollowsOn(server, events[..i], trace, events[i], cache.Look());
      assert events[..i + 1] == events[..i] + [events[i]];
      trace := trace + [cache.Look()];
    }
    assert events[..|events|] == events;
    tree, registered := cache.tree, cache.levels.Keys;
    if "" in registered {
      BuildIsView(cache.levels, server, "");
    }
  }
}
