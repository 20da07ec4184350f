/** What a link dragged on the graph editor's canvas may become: the client-side breadth-first search
    that refuses loops before the store would, and the rules that keep one drive link per pair. */
module ConnectionRules {
  import opened Wrappers
  import opened Digraph

  /** A handle as JavaScript holds it: `null` and `undefined` are different values to `===`. */
  datatype Handle = Undefined | Null | Named(name: string)

  const WORKSPACE_TOP_HANDLE := "workspace-target-top"
  const WORKSPACE_BOTTOM_HANDLE := "workspace-source-bottom"

  function NormalizeIncoming(handle: Handle): (r: Handle)
    ensures r == Named(WORKSPACE_TOP_HANDLE) || r == Named(WORKSPACE_BOTTOM_HANDLE)
    ensures handle.Named? && handle.name in {WORKSPACE_TOP_HANDLE, WORKSPACE_BOTTOM_HANDLE} ==> r == handle
    ensures handle == Named("workspace-target-bottom") ==> r == Named(WORKSPACE_BOTTOM_HANDLE)
  {
    if handle == Named("workspace-target-bottom") then Named(WORKSPACE_BOTTOM_HANDLE)
    else if handle == Named(WORKSPACE_BOTTOM_HANDLE) then handle
    else Named(WORKSPACE_TOP_HANDLE)
  }

  datatype CanvasEdge = CanvasEdge(id: string, source: Node, target: Node,
                                   sourceHandle: Handle, targetHandle: Handle, drive: bool)

  datatype Connection = Connection(source: Node, target: Node, sourceHandle: Handle, targetHandle: Handle)

  datatype Outcome =
    | Ignored
    | RejectedSelf
    | RejectedDrives
    | RejectedLoop
    | AgentLink(connection: Connection)
    | DriveLink(edge: CanvasEdge, replacing: Option<string>)

  /** The agent-call edges of a canvas, as the editor sends them to the store. */
  function AgentEdges(edges: seq<CanvasEdge>): seq<Edge> {
    if edges == [] then []
    else
      var rest := AgentEdges(edges[..|edges| - 1]);
      var last := edges[|edges| - 1];
      if last.drive then rest else rest + [Edge(last.id, last.source, last.target)]
  }

  lemma AgentEdgesStep(edges: seq<CanvasEdge>, i: nat)
    requires i < |edges|
    ensures AgentEdges(edges[..i + 1]) ==
            AgentEdges(edges[..i]) +
            if edges[i].drive then [] else [Edge(edges[i].id, edges[i].source, edges[i].target)]
  {
    assert edges[..i + 1][..i] == edges[..i];
  }

  /** One workspace links another exactly if an edge that is not a drive's joins them, that way round. */
  lemma {:induction false} AgentEdgesAre(edges: seq<CanvasEdge>, a: Node, b: Node)
    ensures HasEdge(AgentEdges(edges), a, b) <==> exists e :: e in edges && !e.drive && e.source == a && e.target == b
  {
    if edges != [] {
      var n := |edges| - 1;
      var rest, last := AgentEdges(edges[..n]), edges[n];
      AgentEdgesAre(edges[..n], a, b);
      assert forall e :: e in edges <==> e in edges[..n] || e == last;
      if !last.drive {
        assert AgentEdges(edges)[|rest|] == Edge(last.id, last.source, last.target);
        assert forall i :: 0 <= i < |rest| ==> AgentEdges(edges)[i] == rest[i];
        if HasEdge(rest, a, b) {
          var k :| 0 <= k < |rest| && rest[k].source == a && rest[k].target == b;
          assert AgentEdges(edges)[k] == rest[k];
        }
      }
    }
  }

  /** The nodes `found` has not visited yet can only be reached through the queue. */
  ghost predicate Frontier(edges: seq<Edge>, visited: set<Node>, queue: seq<Node>) {
    forall a, b :: a in visited && HasEdge(edges, a, b) ==> b in visited || b in queue
  }

  /** A walk that leaves `visited` does so through the queue. */
  lemma {:induction false} WalkMeetsQueue(edges: seq<Edge>, visited: set<Node>, queue: seq<Node>, p: seq<Node>)
    requires Frontier(edges, visited, queue) && IsWalk(edges, p)
    requires p[0] in visited || p[0] in queue
    requires p[|p| - 1] !in visited
    ensures queue != []
    decreases |p|
  {
    if p[0] in visited {
      assert HasEdge(edges, p[0], p[1]);
      var rest := p[1..];
      forall i | 0 <= i < |rest| - 1
        ensures HasEdge(edges, rest[i], rest[i + 1])
      {
        assert HasEdge(edges, p[i + 1], p[i + 1 + 1]);
      }
      WalkMeetsQueue(edges, visited, queue, rest);
    }
  }

  lemma ReachesExtends(edges: seq<Edge>, a: Node, b: Node, c: Node)
    requires Reaches(edges, a, b) && HasEdge(edges, b, c)
    ensures Reaches(edges, a, c)
  {
    var p :| IsWalkFromTo(edges, p, a, b);
    assert IsWalkFromTo(edges, p + [c], a, c);
  }

  method OnlyAgentEdges(edges: seq<CanvasEdge>) returns (agentEdges: seq<Edge>)
    ensures agentEdges == AgentEdges(edges)
  {
    agentEdges := [];
    for i := 0 to |edges|
      invariant agentEdges == AgentEdges(edges[..i])
    {
      AgentEdgesStep(edges, i);
      var e := edges[i];
      if !e.drive {
        agentEdges := agentEdges + [Edge(e.id, e.source, e.target)];
      }
    }
    assert edges[..|edges|] == edges;
  }

  /** The canvas's search: the link `source -> target` is a loop exactly when `target` already reaches
      `source` along agent edges. Terminates because a node is expanded once. */
  method WouldCreateCycle(edges: seq<CanvasEdge>, source: Node, target: Node) returns (loops: bool)
    ensures loops <==> Reaches(AgentEdges(edges), target, source)
  {
    var agentEdges := OnlyAgentEdges(edges);
    var adjacency := BuildAdjacency(agentEdges);
    var visited: set<Node> := {};
    var queue := [target];
    ghost var universe := Nodes(agentEdges) + {target};
    assert IsWalkFromTo(agentEdges, [target], target, target);
    while queue != []
      invariant visited <= universe && source !in visited
      invariant forall n :: n in queue ==> n in universe && Reaches(agentEdges, target, n)
      invariant forall n :: n in visited ==> Reaches(agentEdges, target, n)
      invariant target in visited || target in queue
      invariant Frontier(agentEdges, visited, queue)
      decreases universe - visited, |queue|
    {
      var node := queue[0];
      queue := queue[1..];
      if node == source {
        return true;
      }
      if node in visited {
        continue;
      }
      visited := visited + {node};
      var next := if node in adjacency then adjacency[node] else [];
      forall n | n in next
        ensures n in universe && Reaches(agentEdges, target, n)
      {
        assert HasEdge(agentEdges, node, n);
        ReachesExtends(agentEdges, target, node, n);
      }
      queue := queue + next;
    }
    if Reaches(agentEdges, target, source) {
      var p :| IsWalkFromTo(agentEdges, p, target, source);
      WalkMeetsQueue(agentEdges, visited, queue, p);
      assert false;
    }
    return false;
  }

  // ---------------------------------------------------------------------------------------------
  // The canvas refuses exactly what the store would.

  lemma WalkInLargerGraph(edges: seq<Edge>, more: seq<Edge>, p: seq<Node>)
    requires IsWalk(edges, p)
    ensures IsWalk(edges + more, p)
  {
    forall i | 0 <= i < |p| - 1
      ensures HasEdge(edges + more, p[i], p[i + 1])
    {
      assert HasEdge(edges, p[i], p[i + 1]);
      var k :| 0 <= k < |edges| && edges[k].source == p[i] && edges[k].target == p[i + 1];
      assert (edges + more)[k] == edges[k];
    }
  }

  lemma EdgeOfExtension(edges: seq<Edge>, e: Edge, a: Node, b: Node)
    requires HasEdge(edges + [e], a, b)
    ensures HasEdge(edges, a, b) || (a == e.source && b == e.target)
  {
    var k :| 0 <= k < |edges| + 1 && (edges + [e])[k].source == a && (edges + [e])[k].target == b;
    if k < |edges| {
      assert edges[k].source == a && edges[k].target == b;
    }
  }

  /** Following a walk through `e` backwards from its end: either it never uses `e`, or the part after
      the last use of `e` is a walk of the original edges from `e.target`. */
  lemma {:induction false} LastUse(edges: seq<Edge>, e: Edge, p: seq<Node>)
    requires IsWalk(edges + [e], p)
    ensures IsWalk(edges, p) || Reaches(edges, e.target, p[|p| - 1])
    decreases |p|
  {
    if |p| > 1 {
      var rest := p[1..];
      forall i | 0 <= i < |rest| - 1
        ensures HasEdge(edges + [e], rest[i], rest[i + 1])
      {
        assert HasEdge(edges + [e], p[i + 1], p[i + 1 + 1]);
      }
      LastUse(edges, e, rest);
      if IsWalk(edges, rest) {
        assert HasEdge(edges + [e], p[0], p[1]);
        EdgeOfExtension(edges, e, p[0], p[1]);
        if HasEdge(edges, p[0], p[1]) {
          forall i | 0 <= i < |p| - 1
            ensures HasEdge(edges, p[i], p[i + 1])
          {
            if i > 0 {
              assert HasEdge(edges, rest[i - 1], rest[i]);
            }
          }
        } else {
          assert IsWalkFromTo(edges, rest, e.target, p[|p| - 1]);
        }
      }
    }
  }

  /** A cycle of the extended graph that is not one of the original passes through `e`, so its part
      before the first use of `e` and after the last use join `e.target` to `e.source`. */
  lemma {:induction false} FirstUse(edges: seq<Edge>, e: Edge, p: seq<Node>)
    requires IsWalk(edges + [e], p)
    ensures IsWalk(edges, p) || Reaches(edges, p[0], e.source)
    decreases |p|
  {
    if |p| > 1 {
      assert HasEdge(edges + [e], p[0], p[1]);
      EdgeOfExtension(edges, e, p[0], p[1]);
      if HasEdge(edges, p[0], p[1]) {
        var rest := p[1..];
        forall i | 0 <= i < |rest| - 1
          ensures HasEdge(edges + [e], rest[i], rest[i + 1])
        {
          assert HasEdge(edges + [e], p[i + 1], p[i + 1 + 1]);
        }
        FirstUse(edges, e, rest);
        if IsWalk(edges, rest) {
          forall i | 0 <= i < |p| - 1
            ensures HasEdge(edges, p[i], p[i + 1])
          {
            if i > 0 {
              assert HasEdge(edges, rest[i - 1], rest[i]);
            }
          }
        } else {
          var q :| IsWalkFromTo(edges, q, p[1], e.source);
          var longer := [p[0]] + q;
          forall i | 0 <= i < |longer| - 1
            ensures HasEdge(edges, longer[i], longer[i + 1])
          {
            if i > 0 {
              assert HasEdge(edges, q[i - 1], q[i]);
            }
          }
          assert IsWalkFromTo(edges, longer, p[0], e.source);
        }
      } else {
        assert IsWalkFromTo(edges, [p[0]], p[0], e.source);
      }
    }
  }

  lemma ReachesJoins(edges: seq<Edge>, a: Node, b: Node, c: Node)
    requires Reaches(edges, a, b) && Reaches(edges, b, c)
    ensures Reaches(edges, a, c)
  {
    var p :| IsWalkFromTo(edges, p, a, b);
    var q :| IsWalkFromTo(edges, q, b, c);
    var joined := p + q[1..];
    forall i | 0 <= i < |joined| - 1
      ensures HasEdge(edges, joined[i], joined[i + 1])
    {
      if i < |p| - 1 {
        assert HasEdge(edges, p[i], p[i + 1]);
      } else {
        assert HasEdge(edges, q[i - |p| + 1], q[i - |p| + 1 + 1]);
      }
    }
    assert IsWalkFromTo(edges, joined, a, c);
  }

  /** Adding one edge to an acyclic list closes a cycle exactly when its target reaches its source. */
  lemma LinkClosesCycle(edges: seq<Edge>, e: Edge)
    requires !Cyclic(edges)
    ensures Cyclic(edges + [e]) <==> Reaches(edges, e.target, e.source)
  {
    if Cyclic(edges + [e]) {
      var p :| IsCycle(edges + [e], p);
      assert !IsCycle(edges, p);
      LastUse(edges, e, p);
      FirstUse(edges, e, p);
      ReachesJoins(edges, e.target, p[0], e.source);
    }
    if Reaches(edges, e.target, e.source) {
      var p :| IsWalkFromTo(edges, p, e.target, e.source);
      WalkInLargerGraph(edges, [e], p);
      assert (edges + [e])[|edges|] == e;
      assert HasEdge(edges + [e], e.source, e.target);
      assert IsCycle(edges + [e], p + [e.target]);
    }
  }

  /** Taking edges away from an acyclic list leaves it acyclic. */
  lemma SubgraphIsAcyclic(edges: seq<Edge>, fewer: seq<Edge>)
    requires !Cyclic(edges)
    requires forall a, b :: HasEdge(fewer, a, b) ==> HasEdge(edges, a, b)
    ensures !Cyclic(fewer)
  {
    if Cyclic(fewer) {
      var p :| IsCycle(fewer, p);
      assert IsCycle(edges, p);
      assert false;
    }
  }

  // ---------------------------------------------------------------------------------------------
  // Deciding and applying a dragged link.

  ghost predicate IsDrivePair(e: CanvasEdge, driveId: Node, workspaceId: Node) {
    e.drive && e.source == driveId && e.target == workspaceId
  }

  function FindDriveEdge(edges: seq<CanvasEdge>, driveId: Node, workspaceId: Node): (r: Option<CanvasEdge>)
    ensures r.Some? ==> r.value in edges && IsDrivePair(r.value, driveId, workspaceId)
    ensures r.None? ==> forall e :: e in edges ==> !IsDrivePair(e, driveId, workspaceId)
  {
    if edges == [] then None
    else if edges[0].drive && edges[0].source == driveId && edges[0].target == workspaceId then Some(edges[0])
    else FindDriveEdge(edges[1..], driveId, workspaceId)
  }

  function ResolveDriveLink(c: Connection, sourceIsDrive: bool, edges: seq<CanvasEdge>, uuid: string): Outcome {
    var driveId := if sourceIsDrive then c.source else c.target;
    var workspaceId := if sourceIsDrive then c.target else c.source;
    var sourceHandle := if sourceIsDrive then c.sourceHandle else c.targetHandle;
    var targetHandle := NormalizeIncoming(if sourceIsDrive then c.targetHandle else c.sourceHandle);
    match FindDriveEdge(edges, driveId, workspaceId)
    case None =>
      DriveLink(CanvasEdge(uuid, driveId, workspaceId, sourceHandle, targetHandle, true), None)
    case Some(existing) =>
      if existing.sourceHandle == sourceHandle && existing.targetHandle == targetHandle then Ignored
      else DriveLink(CanvasEdge(existing.id, driveId, workspaceId, sourceHandle, targetHandle, true),
                     Some(existing.id))
  }

  /** The whole decision. `uuid` is the temporary id a new drive link is drawn under. */
  ghost function Resolution(c: Connection, driveIds: set<Node>, edges: seq<CanvasEdge>, uuid: string): Outcome {
    if c.source == "" || c.target == "" then Ignored
    else if c.source == c.target then RejectedSelf
    else if c.source in driveIds && c.target in driveIds then RejectedDrives
    else if c.source in driveIds || c.target in driveIds then
      ResolveDriveLink(c, c.source in driveIds, edges, uuid)
    else if Reaches(AgentEdges(edges), c.target, c.source) then RejectedLoop
    else AgentLink(c)
  }

  method ResolveConnection(c: Connection, driveIds: set<Node>, edges: seq<CanvasEdge>, uuid: string)
    returns (outcome: Outcome)
    ensures outcome == Resolution(c, driveIds, edges, uuid)
  {
    if c.source == "" || c.target == "" {
      return Ignored;
    }
    if c.source == c.target {
      return RejectedSelf;
    }
    var sourceIsDrive := c.source in driveIds;
    var targetIsDrive := c.target in driveIds;
    if sourceIsDrive && targetIsDrive {
      return RejectedDrives;
    }
    if sourceIsDrive || targetIsDrive {
      return ResolveDriveLink(c, sourceIsDrive, edges, uuid);
    }
    var loops := WouldCreateCycle(edges, c.source, c.target);
    if loops {
      return RejectedLoop;
    }
    return AgentLink(c);
  }

  /** Between two workspaces the canvas draws exactly the links the store's cycle test would let
      through, and refuses the rest. */
  lemma CanvasRefusesWhatStoreWould(c: Connection, driveIds: set<Node>, edges: seq<CanvasEdge>, uuid: string, id: string)
    requires !Cyclic(AgentEdges(edges))
    requires c.source != "" && c.target != "" && c.source !in driveIds && c.target !in driveIds
    ensures var refused := Cyclic(AgentEdges(edges) + [Edge(id, c.source, c.target)]);
            && (Resolution(c, driveIds, edges, uuid) == AgentLink(c) <==> !refused)
            && (Resolution(c, driveIds, edges, uuid) in {RejectedSelf, RejectedLoop} <==> refused)
  {
    LinkClosesCycle(AgentEdges(edges), Edge(id, c.source, c.target));
    if c.source == c.target {
      assert IsWalkFromTo(AgentEdges(edges), [c.source], c.target, c.source);
    }
  }

  function Replace(edges: seq<CanvasEdge>, id: string, edge: CanvasEdge): (r: seq<CanvasEdge>)
    ensures |r| == |edges|
    ensures forall i :: 0 <= i < |r| ==> r[i] == if edges[i].id == id then edge else edges[i]
  {
    seq(|edges|, i requires 0 <= i < |edges| => if edges[i].id == id then edge else edges[i])
  }

  /** Fold an accepted outcome into the canvas. An agent link goes through the canvas library's own
      `addEdge`, which answers with the same list when that connection is already drawn. */
  function ApplyConnection(outcome: Outcome, edges: seq<CanvasEdge>, newId: string): seq<CanvasEdge> {
    match outcome
    case AgentLink(c) =>
      if exists i :: 0 <= i < |edges| && !edges[i].drive && edges[i].source == c.source && edges[i].target == c.target
                     && edges[i].sourceHandle == c.sourceHandle && edges[i].targetHandle == c.targetHandle
      then edges
      else edges + [CanvasEdge(newId, c.source, c.target, c.sourceHandle, c.targetHandle, false)]
    case DriveLink(edge, replacing) =>
      if replacing.Some? && replacing.value != "" then Replace(edges, replacing.value, edge) else edges + [edge]
    case _ => edges
  }

  /** What every edit keeps: agent edges form no loop, ids are distinct, each drive/workspace pair has
      one drive link, and drive links land on a handle the workspace node renders. */
  ghost predicate Coherent(edges: seq<CanvasEdge>) {
    && !Cyclic(AgentEdges(edges))
    && (forall i :: 0 <= i < |edges| ==> edges[i].id != "")
    && (forall i, j :: 0 <= i < j < |edges| ==> edges[i].id != edges[j].id)
    && (forall i, j :: 0 <= i < j < |edges| && edges[i].drive && edges[j].drive ==>
          edges[i].source != edges[j].source || edges[i].target != edges[j].target)
    && (forall i :: 0 <= i < |edges| && edges[i].drive ==>
          edges[i].targetHandle == NormalizeIncoming(edges[i].targetHandle))
  }

  /** Replacing one drive link by another leaves the agent edges alone. */
  lemma {:induction false} ReplaceKeepsAgentEdges(edges: seq<CanvasEdge>, id: string, edge: CanvasEdge)
    requires edge.drive
    requires forall i :: 0 <= i < |edges| && edges[i].id == id ==> edges[i].drive
    ensures AgentEdges(Replace(edges, id, edge)) == AgentEdges(edges)
  {
    if edges != [] {
      var rest := edges[..|edges| - 1];
      ReplaceKeepsAgentEdges(rest, id, edge);
      assert Replace(edges, id, edge)[..|edges| - 1] == Replace(rest, id, edge);
    }
  }

  /** Moving the handles of the link at `k` keeps the canvas coherent. */
  lemma {:induction false} RedrawKeepsCoherent(edges: seq<CanvasEdge>, k: nat, edge: CanvasEdge)
    requires Coherent(edges) && k < |edges| && edges[k].drive && edge.drive
    requires edge.id == edges[k].id && edge.source == edges[k].source && edge.target == edges[k].target
    requires edge.targetHandle == NormalizeIncoming(edge.targetHandle)
    ensures Replace(edges, edge.id, edge) == edges[k := edge]
    ensures Coherent(edges[k := edge])
  {
    assert Replace(edges, edge.id, edge) == edges[k := edge];
    ReplaceKeepsAgentEdges(edges, edge.id, edge);
  }

  lemma {:induction false} NewDriveLinkKeepsCoherent(edges: seq<CanvasEdge>, edge: CanvasEdge)
    requires Coherent(edges) && edge.drive && edge.id != ""
    requires forall i :: 0 <= i < |edges| ==> edges[i].id != edge.id && !IsDrivePair(edges[i], edge.source, edge.target)
    requires edge.targetHandle == NormalizeIncoming(edge.targetHandle)
    ensures Coherent(edges + [edge])
  {
    assert (edges + [edge])[..|edges|] == edges;
  }

  lemma {:induction false} NewAgentLinkKeepsCoherent(edges: seq<CanvasEdge>, edge: CanvasEdge)
    requires Coherent(edges) && !edge.drive && edge.id != ""
    requires forall i :: 0 <= i < |edges| ==> edges[i].id != edge.id
    requires !Reaches(AgentEdges(edges), edge.target, edge.source)
    ensures Coherent(edges + [edge])
  {
    assert (edges + [edge])[..|edges|] == edges;
    LinkClosesCycle(AgentEdges(edges), Edge(edge.id, edge.source, edge.target));
  }

  lemma {:induction false} MovedLinkKeepsCoherent(edges: seq<CanvasEdge>, edge: CanvasEdge)
    requires Coherent(edges) && edge.drive && edge.targetHandle == NormalizeIncoming(edge.targetHandle)
    requires FindDriveEdge(edges, edge.source, edge.target).Some?
    requires edge.id == FindDriveEdge(edges, edge.source, edge.target).value.id
    ensures Coherent(Replace(edges, edge.id, edge)) && edge.id != ""
  {
    var k :| 0 <= k < |edges| && edges[k] == FindDriveEdge(edges, edge.source, edge.target).value;
    RedrawKeepsCoherent(edges, k, edge);
  }

  /** Whatever is dragged, the canvas stays coherent. */
  lemma {:induction false} EditsKeepCanvasCoherent(c: Connection, driveIds: set<Node>, edges: seq<CanvasEdge>, uuid: string)
    requires Coherent(edges)
    requires uuid != "" && forall i :: 0 <= i < |edges| ==> edges[i].id != uuid
    ensures Coherent(ApplyConnection(Resolution(c, driveIds, edges, uuid), edges, uuid))
  {
    match Resolution(c, driveIds, edges, uuid) {
      case AgentLink(_) =>
        NewAgentLinkKeepsCoherent(edges, CanvasEdge(uuid, c.source, c.target, c.sourceHandle, c.targetHandle, false));
      case DriveLink(edge, replacing) =>
        if replacing.Some? {
          MovedLinkKeepsCoherent(edges, edge);
        } else {
          NewDriveLinkKeepsCoherent(edges, edge);
        }
      case _ =>
    }
  }

  /** The canvas after a drag. */
  ghost function Dragged(c: Connection, driveIds: set<Node>, edges: seq<CanvasEdge>, uuid: string): seq<CanvasEdge> {
    ApplyConnection(Resolution(c, driveIds, edges, uuid), edges, uuid)
  }

  /** An agent link that is let through is on the canvas afterwards, between the nodes and handles dragged; every
      edge there was is still there, in its place, and nothing else is new. One that would close a loop changes
      nothing. */
  lemma {:induction false} AgentDragDraws(c: Connection, driveIds: set<Node>, edges: seq<CanvasEdge>, uuid: string)
    requires c.source != "" && c.target != "" && c.source !in driveIds && c.target !in driveIds
    ensures var after := Dragged(c, driveIds, edges, uuid);
            if c.source == c.target || Reaches(AgentEdges(edges), c.target, c.source) then after == edges
            else && edges <= after && |after| <= |edges| + 1
                 && (exists e :: e in after && !e.drive && e.source == c.source && e.target == c.target
                                 && e.sourceHandle == c.sourceHandle && e.targetHandle == c.targetHandle)
                 && (|after| > |edges| ==> after[|edges|].id == uuid && after[|edges|].source == c.source
                                           && after[|edges|].target == c.target && !after[|edges|].drive)
  {
    var after := Dragged(c, driveIds, edges, uuid);
    if |after| > |edges| {
      assert after[|edges|] in after;
    } else if i :| 0 <= i < |edges| && !edges[i].drive && edges[i].source == c.source && edges[i].target == c.target
                   && edges[i].sourceHandle == c.sourceHandle && edges[i].targetHandle == c.targetHandle {
      assert edges[i] in edges;
    }
  }

  /** Where a drag between a drive and a workspace, from either end, puts its link. */
  ghost predicate JoinsDrive(e: CanvasEdge, c: Connection, fromDrive: bool) {
    && e.drive
    && (if fromDrive then e.source == c.source && e.target == c.target && e.sourceHandle == c.sourceHandle
                          && e.targetHandle == NormalizeIncoming(c.targetHandle)
        else e.source == c.target && e.target == c.source && e.sourceHandle == c.targetHandle
             && e.targetHandle == NormalizeIncoming(c.sourceHandle))
  }

  /** The link drawn stands at place `k`: in place of the pair's own, under its id, or new at the end. */
  ghost predicate DrawnAt(edges: seq<CanvasEdge>, after: seq<CanvasEdge>, k: nat, c: Connection, fromDrive: bool, uuid: string) {
    && k < |after| && JoinsDrive(after[k], c, fromDrive)
    && if k < |edges| then after == edges[k := after[k]] && after[k].id == edges[k].id
                           && IsDrivePair(edges[k], after[k].source, after[k].target)
       else after == edges + [after[k]] && after[k].id == uuid
  }

  lemma {:induction false} MovedInPlace(c: Connection, fromDrive: bool, edges: seq<CanvasEdge>, uuid: string, k: nat)
    requires k < |edges| && edges[k].id != "" && forall i :: 0 <= i < |edges| && i != k ==> edges[i].id != edges[k].id
    requires FindDriveEdge(edges, if fromDrive then c.source else c.target, if fromDrive then c.target else c.source)
             == Some(edges[k])
    ensures DrawnAt(edges, ApplyConnection(ResolveDriveLink(c, fromDrive, edges, uuid), edges, uuid), k, c, fromDrive, uuid)
  {
    var outcome := ResolveDriveLink(c, fromDrive, edges, uuid);
    if outcome.DriveLink? {
      assert Replace(edges, edges[k].id, outcome.edge) == edges[k := outcome.edge];
    } else {
      assert edges == edges[k := edges[k]];
    }
  }

  /** A drive link is on the canvas afterwards, from the drive to the workspace at the handles dragged, whichever
      end the drag started from. A pair already linked keeps its link's id and place; every other edge stays. */
  lemma {:induction false} DriveDragDraws(c: Connection, driveIds: set<Node>, edges: seq<CanvasEdge>, uuid: string)
    requires Coherent(edges) && uuid != "" && c.source != "" && c.target != ""
    requires (c.source in driveIds) != (c.target in driveIds)
    ensures var fromDrive := c.source in driveIds;
            var (drive, workspace) := if fromDrive then (c.source, c.target) else (c.target, c.source);
            var after := Dragged(c, driveIds, edges, uuid);
            && (exists k :: DrawnAt(edges, after, k, c, fromDrive, uuid))
            && (|after| == |edges| <==> exists e :: e in edges && IsDrivePair(e, drive, workspace))
  {
    var fromDrive := c.source in driveIds;
    var (drive, workspace) := if fromDrive then (c.source, c.target) else (c.target, c.source);
    match FindDriveEdge(edges, drive, workspace) {
      case None =>
        assert DrawnAt(edges, Dragged(c, driveIds, edges, uuid), |edges|, c, fromDrive, uuid);
      case Some(existing) =>
        var k :| 0 <= k < |edges| && edges[k] == existing;
        MovedInPlace(c, fromDrive, edges, uuid, k);
    }
  }

  /** Any other drag changes nothing. */
  lemma OtherDragsChangeNothing(c: Connection, driveIds: set<Node>, edges: seq<CanvasEdge>, uuid: string)
    requires c.source == "" || c.target == "" || c.source == c.target || (c.source in driveIds && c.target in driveIds)
    ensures Dragged(c, driveIds, edges, uuid) == edges
  {
  }
}
