/** The vocabulary of connection ids: the prefix says which graph an id belongs to. */
module ConnectionIds {
  import opened Wrappers

  datatype Kind = Link | Call

  function Prefix(kind: Kind): string {
    match kind case Link => "link_" case Call => "call_"
  }

  function Mint(kind: Kind, uuid: string): string {
    Prefix(kind) + uuid
  }

  function KindOf(id: string): Option<Kind> {
    if Prefix(Link) <= id && |id| > |Prefix(Link)| then Some(Link)
    else if Prefix(Call) <= id && |id| > |Prefix(Call)| then Some(Call)
    else None
  }

  /** A minted id is recognised as its own kind and as no other. */
  lemma MintRecognised(kind: Kind, uuid: string)
    requires uuid != ""
    ensures KindOf(Mint(kind, uuid)) == Some(kind)
  {
    assert Mint(Call, uuid)[0] == 'c';
    assert Prefix(Link)[0] == 'l';
  }

  lemma MintInjective(kind: Kind, a: string, b: string)
    requires a != b
    ensures Mint(kind, a) != Mint(kind, b)
  {
    assert Mint(kind, a)[5..] == a && Mint(kind, b)[5..] == b;
  }
}

/** The server's store of agent-call edges, and what every sequence of edits to it keeps. */
module CallGraph {
  import opened Wrappers
  import opened Sequences
  import opened Digraph
  import opened ConnectionIds
  import ConnectionRules

  datatype Position = Cell(col: int, row: int) | Pixel(x: real, y: real)

  datatype GraphFile = GraphFile(edges: seq<Edge>, positions: map<Node, Position>)

  /** The graph in memory and the last one written to disk. */
  datatype State = State(memory: GraphFile, disk: GraphFile)

  datatype Refusal = Cycle | PersistFailed

  function Ids(edges: seq<Edge>): set<string> {
    set e <- edges :: e.id
  }

  ghost predicate DistinctCallIds(edges: seq<Edge>) {
    && (forall i :: 0 <= i < |edges| ==> KindOf(edges[i].id) == Some(Call))
    && (forall i, j :: 0 <= i < j < |edges| ==> edges[i].id != edges[j].id)
  }

  /** What the store promises of any graph it holds. */
  ghost predicate Sound(graph: GraphFile) {
    !Cyclic(graph.edges) && DistinctCallIds(graph.edges)
  }

  /** UUIDs as the platform mints them: non-empty, distinct, and in none of the ids already issued. */
  ghost predicate FreshUuids(uuids: seq<string>, issued: set<string>) {
    && (forall i :: 0 <= i < |uuids| ==> uuids[i] != "" && Mint(Call, uuids[i]) !in issued)
    && (forall i, j :: 0 <= i < j < |uuids| ==> uuids[i] != uuids[j])
  }

  predicate Keeps(edge: Edge, issued: set<string>, claimed: set<string>) {
    KindOf(edge.id) == Some(Call) && edge.id in issued && edge.id !in claimed
  }

  /** The ids a save gives: an edge keeps its own only if this store issued it and no earlier edge of
      the same save claimed it. */
  function Minted(edges: seq<Edge>, issued: set<string>, uuids: seq<string>): (r: seq<Edge>)
    requires |uuids| == |edges|
    ensures |r| == |edges|
    ensures forall i :: 0 <= i < |r| ==> r[i].source == edges[i].source && r[i].target == edges[i].target
    ensures forall i :: 0 <= i < |r| ==>
              (r[i].id == edges[i].id && edges[i].id in issued) || r[i].id == Mint(Call, uuids[i])
  {
    if edges == [] then []
    else
      var n := |edges| - 1;
      var before := Minted(edges[..n], issued, uuids[..n]);
      var last := edges[n];
      before + [if Keeps(last, issued, Ids(before)) then last else last.(id := Mint(Call, uuids[n]))]
  }

  lemma MintedNext(edges: seq<Edge>, issued: set<string>, uuids: seq<string>, i: nat)
    requires |uuids| == |edges| && i < |edges|
    ensures var before := Minted(edges[..i], issued, uuids[..i]);
            var id := if Keeps(edges[i], issued, Ids(before)) then edges[i].id else Mint(Call, uuids[i]);
            Minted(edges[..i + 1], issued, uuids[..i + 1]) == before + [edges[i].(id := id)]
  {
    assert edges[..i + 1][..i] == edges[..i] && uuids[..i + 1][..i] == uuids[..i];
  }

  lemma IdsGrow(edges: seq<Edge>, e: Edge)
    ensures Ids(edges + [e]) == Ids(edges) + {e.id}
  {
    var more := edges + [e];
    assert more[|edges|] == e;
    assert forall i :: 0 <= i < |edges| ==> more[i] == edges[i];
  }

  method MintAll(edges: seq<Edge>, issued: set<string>, uuids: seq<string>) returns (r: seq<Edge>)
    requires |uuids| == |edges|
    ensures r == Minted(edges, issued, uuids)
  {
    r := [];
    var claimed: set<string> := {};
    for i := 0 to |edges|
      invariant r == Minted(edges[..i], issued, uuids[..i])
      invariant claimed == Ids(r)
    {
      MintedNext(edges, issued, uuids, i);
      IdsGrow(r, edges[i].(id := if Keeps(edges[i], issued, claimed) then edges[i].id else Mint(Call, uuids[i])));
      var edge := edges[i];
      var id := if Keeps(edge, issued, claimed) then edge.id else Mint(Call, uuids[i]);
      claimed := claimed + {id};
      r := r + [edge.(id := id)];
    }
    assert edges[..|edges|] == edges && uuids[..|edges|] == uuids;
  }

  /** Endpoints and order survive minting, so reachability does too. */
  lemma SameEndpointsSameCycles(a: seq<Edge>, b: seq<Edge>)
    requires |a| == |b|
    requires forall i :: 0 <= i < |a| ==> a[i].source == b[i].source && a[i].target == b[i].target
    ensures Cyclic(a) <==> Cyclic(b)
  {
    forall x, y
      ensures HasEdge(a, x, y) <==> HasEdge(b, x, y)
    {
      if HasEdge(a, x, y) {
        var k :| 0 <= k < |a| && a[k].source == x && a[k].target == y;
        assert b[k].source == x && b[k].target == y;
      }
    }
    forall p
      ensures IsCycle(a, p) <==> IsCycle(b, p)
    {}
  }

  /** Minted ids are distinct and of call kind whatever ids were sent. */
  lemma {:induction false} MintedDistinct(edges: seq<Edge>, issued: set<string>, uuids: seq<string>)
    requires |uuids| == |edges| && FreshUuids(uuids, issued)
    ensures DistinctCallIds(Minted(edges, issued, uuids))
  {
    if edges != [] {
      var n := |edges| - 1;
      var before := Minted(edges[..n], issued, uuids[..n]);
      MintedDistinct(edges[..n], issued, uuids[..n]);
      MintRecognised(Call, uuids[n]);
      if !Keeps(edges[n], issued, Ids(before)) {
        forall i | 0 <= i < n
          ensures before[i].id != Mint(Call, uuids[n])
        {
          MintInjective(Call, uuids[i], uuids[n]);
        }
      } else {
        forall i | 0 <= i < n
          ensures before[i].id != edges[n].id
        {
          assert before[i].id in Ids(before);
        }
      }
    }
  }

  /** Edge `i` keeps its id: a call id this store issued, and sent with no earlier edge of the same save. */
  ghost predicate KeepsId(edges: seq<Edge>, issued: set<string>, i: nat)
    requires i < |edges|
  {
    KindOf(edges[i].id) == Some(Call) && edges[i].id in issued && forall j :: 0 <= j < i ==> edges[j].id != edges[i].id
  }

  /** An issued call id is claimed by a save exactly if it was sent. */
  lemma {:induction false} ClaimedIff(edges: seq<Edge>, issued: set<string>, uuids: seq<string>, id: string)
    requires |uuids| == |edges| && id in issued && KindOf(id) == Some(Call)
    requires forall i :: 0 <= i < |uuids| ==> Mint(Call, uuids[i]) !in issued
    ensures id in Ids(Minted(edges, issued, uuids)) <==> id in Ids(edges)
  {
    if edges != [] {
      var n := |edges| - 1;
      var before := Minted(edges[..n], issued, uuids[..n]);
      ClaimedIff(edges[..n], issued, uuids[..n], id);
      assert edges == edges[..n] + [edges[n]];
      IdsGrow(edges[..n], edges[n]);
      IdsGrow(before, if Keeps(edges[n], issued, Ids(before)) then edges[n] else edges[n].(id := Mint(Call, uuids[n])));
    }
  }

  /** What becomes of edge `i` does not depend on those after it. */
  lemma {:induction false} MintedPrefix(edges: seq<Edge>, issued: set<string>, uuids: seq<string>, i: nat)
    requires |uuids| == |edges| && i < |edges|
    ensures Minted(edges, issued, uuids)[i] == Minted(edges[..i + 1], issued, uuids[..i + 1])[i]
    decreases |edges|
  {
    var n := |edges| - 1;
    if i < n {
      MintedPrefix(edges[..n], issued, uuids[..n], i);
      assert edges[..n][..i + 1] == edges[..i + 1] && uuids[..n][..i + 1] == uuids[..i + 1];
    } else {
      assert edges[..i + 1] == edges && uuids[..i + 1] == uuids;
    }
  }

  lemma EarlierIds(edges: seq<Edge>, i: nat)
    requires i < |edges|
    ensures edges[i].id in Ids(edges[..i]) <==> exists j :: 0 <= j < i && edges[j].id == edges[i].id
  {
    forall j | 0 <= j < i && edges[j].id == edges[i].id
      ensures edges[i].id in Ids(edges[..i])
    {
      assert edges[..i][j] == edges[j];
    }
  }

  /** Which ids a save keeps, told from what was sent and issued alone; every other edge gets its fresh one. */
  lemma MintedKeepsIff(edges: seq<Edge>, issued: set<string>, uuids: seq<string>, i: nat)
    requires |uuids| == |edges| && FreshUuids(uuids, issued) && i < |edges|
    ensures Minted(edges, issued, uuids)[i].id == if KeepsId(edges, issued, i) then edges[i].id else Mint(Call, uuids[i])
  {
    MintedPrefix(edges, issued, uuids, i);
    MintedNext(edges, issued, uuids, i);
    EarlierIds(edges, i);
    if edges[i].id in issued && KindOf(edges[i].id) == Some(Call) {
      ClaimedIff(edges[..i], issued, uuids[..i], edges[i].id);
    }
  }

  lemma DistinctPrefix(edges: seq<Edge>, n: nat)
    requires DistinctCallIds(edges) && n < |edges|
    ensures DistinctCallIds(edges[..n]) && edges[n].id !in Ids(edges[..n]) && KindOf(edges[n].id) == Some(Call)
    ensures forall i :: 0 <= i < n ==> edges[..n][i] == edges[i]
  {
  }

  /** Re-saving the edges the store answered with keeps every id. */
  lemma {:induction false} ResaveKeepsIds(edges: seq<Edge>, issued: set<string>, uuids: seq<string>)
    requires |uuids| == |edges| && DistinctCallIds(edges)
    requires forall i :: 0 <= i < |edges| ==> edges[i].id in issued
    ensures Minted(edges, issued, uuids) == edges
  {
    if edges != [] {
      var n := |edges| - 1;
      var before := edges[..n];
      DistinctPrefix(edges, n);
      ResaveKeepsIds(before, issued, uuids[..n]);
      assert Keeps(edges[n], issued, Ids(before));
      assert Minted(edges, issued, uuids) == before + [edges[n]];
      assert edges == before + [edges[n]];
    }
  }

  // ---------------------------------------------------------------------------------------------
  // The four edits, as the state they leave.

  datatype Edit =
    | Save(edges: seq<Edge>, positions: map<Node, Position>, uuids: seq<string>)
    | Add(source: Node, target: Node, uuid: string)
    | Remove(connectionId: string)
    | RemoveWorkspace(workspaceId: Node)

  function EditUuids(edit: Edit): seq<string> {
    match edit
    case Save(_, _, uuids) => uuids
    case Add(_, _, uuid) => [uuid]
    case _ => []
  }

  /** Writing to disk may fail; the graph in memory has already changed by then. */
  function Stored(state: State, graph: GraphFile, diskWorks: bool): State {
    State(graph, if diskWorks then graph else state.disk)
  }

  lemma {:induction false} FilterKeepsDistinct(edges: seq<Edge>, keep: Edge -> bool)
    requires DistinctCallIds(edges)
    ensures DistinctCallIds(Filter(edges, keep))
  {
    FilterFacts(edges, keep);
    FilterKeepsPairwise(edges, keep, (a: Edge, b: Edge) => a.id != b.id);
    var kept := Filter(edges, keep);
    forall i | 0 <= i < |kept|
      ensures KindOf(kept[i].id) == Some(Call)
    {
      assert kept[i] in edges;
    }
  }

  function WithoutId(edges: seq<Edge>, id: string): (r: seq<Edge>)
    ensures forall e :: e in r <==> e in edges && e.id != id
    ensures |r| == |edges| <==> r == edges
    ensures id !in Ids(edges) ==> r == edges
  {
    FilterFacts(edges, (e: Edge) => e.id != id);
    assert forall e :: e in edges ==> e.id in Ids(edges);
    Filter(edges, (e: Edge) => e.id != id)
  }

  function WithoutNode(edges: seq<Edge>, n: Node): (r: seq<Edge>)
    ensures forall e :: e in r <==> e in edges && e.source != n && e.target != n
    ensures |r| == |edges| <==> r == edges
  {
    FilterFacts(edges, (e: Edge) => e.source != n && e.target != n);
    Filter(edges, (e: Edge) => e.source != n && e.target != n)
  }

  predicate WellFormedEdit(edit: Edit) {
    edit.Save? ==> |edit.uuids| == |edit.edges|
  }

  ghost function Apply(state: State, edit: Edit, diskWorks: bool): State
    requires WellFormedEdit(edit)
  {
    var graph := state.memory;
    match edit
    case Save(edges, positions, uuids) =>
      if Cyclic(edges) then state
      else Stored(state, GraphFile(Minted(edges, Ids(graph.edges), uuids), positions), diskWorks)
    case Add(source, target, uuid) =>
      var edge := Edge(Mint(Call, uuid), source, target);
      if HasEdge(graph.edges, source, target) || Cyclic(graph.edges + [edge]) then state
      else Stored(state, graph.(edges := graph.edges + [edge]), diskWorks)
    case Remove(id) =>
      if id !in Ids(graph.edges) then state
      else Stored(state, graph.(edges := WithoutId(graph.edges, id)), diskWorks)
    case RemoveWorkspace(n) =>
      var edges := WithoutNode(graph.edges, n);
      if |edges| == |graph.edges| && n !in graph.positions then state
      else Stored(state, GraphFile(edges, graph.positions - {n}), diskWorks)
  }

  lemma SubsetKeepsAcyclic(edges: seq<Edge>, fewer: seq<Edge>)
    requires !Cyclic(edges) && forall e :: e in fewer ==> e in edges
    ensures !Cyclic(fewer)
  {
    forall a, b | HasEdge(fewer, a, b)
      ensures HasEdge(edges, a, b)
    {
      var k :| 0 <= k < |fewer| && fewer[k].source == a && fewer[k].target == b;
      assert fewer[k] in edges;
    }
    ConnectionRules.SubgraphIsAcyclic(edges, fewer);
  }

  lemma OneMoreIsDistinct(edges: seq<Edge>, e: Edge)
    requires DistinctCallIds(edges) && e.id !in Ids(edges) && KindOf(e.id) == Some(Call)
    ensures DistinctCallIds(edges + [e])
  {
    assert forall i :: 0 <= i < |edges| ==> edges[i].id in Ids(edges);
  }

  /** One edit keeps the graph acyclic with distinct call ids, in memory and on disk alike. */
  lemma {:induction false} EditKeepsSound(state: State, edit: Edit, diskWorks: bool)
    requires Sound(state.memory) && Sound(state.disk) && WellFormedEdit(edit)
    requires FreshUuids(EditUuids(edit), Ids(state.memory.edges))
    ensures Sound(Apply(state, edit, diskWorks).memory) && Sound(Apply(state, edit, diskWorks).disk)
    ensures Ids(Apply(state, edit, diskWorks).memory.edges)
         <= Ids(state.memory.edges) + set u <- EditUuids(edit) :: Mint(Call, u)
  {
    var edges := state.memory.edges;
    match edit {
      case Save(sent, _, uuids) =>
        var minted := Minted(sent, Ids(edges), uuids);
        MintedDistinct(sent, Ids(edges), uuids);
        SameEndpointsSameCycles(sent, minted);
      case Add(source, target, uuid) =>
        assert EditUuids(edit)[0] == uuid;
        MintRecognised(Call, uuid);
        OneMoreIsDistinct(edges, Edge(Mint(Call, uuid), source, target));
        IdsGrow(edges, Edge(Mint(Call, uuid), source, target));
      case Remove(id) =>
        SubsetKeepsAcyclic(edges, WithoutId(edges, id));
        FilterKeepsDistinct(edges, (e: Edge) => e.id != id);
      case RemoveWorkspace(n) =>
        SubsetKeepsAcyclic(edges, WithoutNode(edges, n));
        FilterKeepsDistinct(edges, (e: Edge) => e.source != n && e.target != n);
    }
  }

  function AllUuids(edits: seq<Edit>): seq<string> {
    if edits == [] then [] else EditUuids(edits[0]) + AllUuids(edits[1..])
  }

  ghost function ApplyAll(state: State, edits: seq<Edit>, diskWorks: seq<bool>): State
    requires |diskWorks| == |edits| && forall i :: 0 <= i < |edits| ==> WellFormedEdit(edits[i])
    decreases |edits|
  {
    if edits == [] then state
    else ApplyAll(Apply(state, edits[0], diskWorks[0]), edits[1..], diskWorks[1..])
  }

  /** Over every sequence of saves, additions and removals, whichever disk writes fail, the graph in
      memory and the graph on disk stay acyclic with distinct call ids. */
  lemma {:induction false} EveryHistoryIsSound(state: State, edits: seq<Edit>, diskWorks: seq<bool>)
    requires Sound(state.memory) && Sound(state.disk)
    requires |diskWorks| == |edits| && forall i :: 0 <= i < |edits| ==> WellFormedEdit(edits[i])
    requires FreshUuids(AllUuids(edits), Ids(state.memory.edges))
    ensures Sound(ApplyAll(state, edits, diskWorks).memory) && Sound(ApplyAll(state, edits, diskWorks).disk)
    decreases |edits|
  {
    if edits != [] {
      FirstAreFresh(EditUuids(edits[0]), AllUuids(edits[1..]), Ids(state.memory.edges));
      EditKeepsSound(state, edits[0], diskWorks[0]);
      var next := Apply(state, edits[0], diskWorks[0]);
      LaterStayFresh(EditUuids(edits[0]), AllUuids(edits[1..]), Ids(state.memory.edges), Ids(next.memory.edges));
      EveryHistoryIsSound(next, edits[1..], diskWorks[1..]);
    }
  }

  lemma FirstAreFresh(now: seq<string>, later: seq<string>, issued: set<string>)
    requires FreshUuids(now + later, issued)
    ensures FreshUuids(now, issued)
  {
    assert forall i :: 0 <= i < |now| ==> (now + later)[i] == now[i];
  }

  /** The uuids of later edits are fresh for whatever an edit could issue with its own. */
  lemma LaterStayFresh(now: seq<string>, later: seq<string>, issued: set<string>, next: set<string>)
    requires FreshUuids(now + later, issued) && next <= issued + set u <- now :: Mint(Call, u)
    ensures FreshUuids(later, next)
  {
    var all := now + later;
    assert forall i :: 0 <= i < |now| ==> all[i] == now[i];
    assert forall i :: 0 <= i < |later| ==> all[|now| + i] == later[i];
    forall i | 0 <= i < |later|
      ensures Mint(Call, later[i]) !in next
    {
      forall u | u in now
        ensures Mint(Call, u) != Mint(Call, later[i])
      {
        var k :| 0 <= k < |now| && now[k] == u;
        assert all[k] != all[|now| + i];
        MintInjective(Call, u, later[i]);
      }
    }
  }

  /** An accepted save answers in the order sent with the endpoints sent, and saving that answer again
      changes nothing. */
  lemma {:induction false} SaveThenResave(state: State, edges: seq<Edge>, positions: map<Node, Position>,
                       uuids: seq<string>, again: seq<string>)
    requires |uuids| == |edges| == |again| && FreshUuids(uuids, Ids(state.memory.edges)) && !Cyclic(edges)
    ensures var first := Apply(state, Save(edges, positions, uuids), true);
            && |first.memory.edges| == |edges|
            && (forall i :: 0 <= i < |edges| ==>
                  first.memory.edges[i].source == edges[i].source && first.memory.edges[i].target == edges[i].target)
            && Apply(first, Save(first.memory.edges, positions, again), true) == first
  {
    var minted := Minted(edges, Ids(state.memory.edges), uuids);
    MintedDistinct(edges, Ids(state.memory.edges), uuids);
    SameEndpointsSameCycles(edges, minted);
    ResaveKeepsIds(minted, Ids(minted), again);
  }

  /** A link the canvas accepts between workspaces is one the store adds or already has; a link it
      refuses is one the store refuses or already has. */
  lemma StoreAgreesWithCanvas(state: State, canvas: seq<ConnectionRules.CanvasEdge>, c: ConnectionRules.Connection,
                              driveIds: set<Node>, uuid: string)
    requires Sound(state.memory) && ConnectionRules.AgentEdges(canvas) == state.memory.edges
    requires c.source != "" && c.target != "" && c.source !in driveIds && c.target !in driveIds
    ensures var next := Apply(state, Add(c.source, c.target, uuid), true);
            ConnectionRules.Resolution(c, driveIds, canvas, uuid) == ConnectionRules.AgentLink(c) <==>
            HasEdge(next.memory.edges, c.source, c.target)
  {
    var edges := state.memory.edges;
    var edge := Edge(Mint(Call, uuid), c.source, c.target);
    ConnectionRules.CanvasRefusesWhatStoreWould(c, driveIds, canvas, uuid, edge.id);
    assert (edges + [edge])[|edges|] == edge;
    if HasEdge(edges, c.source, c.target) {
      forall a, b | HasEdge(edges + [edge], a, b)
        ensures HasEdge(edges, a, b)
      {
        ConnectionRules.EdgeOfExtension(edges, edge, a, b);
      }
      ConnectionRules.SubgraphIsAcyclic(edges, edges + [edge]);
    }
  }

  // ---------------------------------------------------------------------------------------------
  // The store itself.

  class GraphStore {
    var graph: GraphFile
    var disk: GraphFile

    constructor (file: GraphFile)
      ensures graph == disk == file
    {
      graph, disk := file, file;
    }

    ghost function View(): State
      reads this
    {
      State(graph, disk)
    }

    method AtomicSave(diskWorks: bool)
      modifies this`disk
      ensures disk == if diskWorks then graph else old(disk)
    {
      if diskWorks {
        disk := graph;
      }
    }

    method SaveGraph(edges: seq<Edge>, positions: map<Node, Position>, uuids: seq<string>, diskWorks: bool)
      returns (r: Result<GraphFile, Refusal>)
      requires |uuids| == |edges|
      modifies this
      ensures View() == Apply(old(View()), Save(edges, positions, uuids), diskWorks)
      ensures r == if Cyclic(edges) then Err(Cycle) else if diskWorks then Ok(graph) else Err(PersistFailed)
      ensures Cyclic(edges) ==> graph == old(graph) && disk == old(disk)
      ensures !Cyclic(edges) ==>
                && graph.positions == positions && |graph.edges| == |edges|
                && (forall i :: 0 <= i < |edges| ==>
                      graph.edges[i].source == edges[i].source && graph.edges[i].target == edges[i].target)
                && disk == if diskWorks then graph else old(disk)
      ensures !Cyclic(edges) && FreshUuids(uuids, Ids(old(graph.edges))) ==>
                forall i :: 0 <= i < |edges| ==>
                  graph.edges[i].id == if KeepsId(edges, Ids(old(graph.edges)), i) then edges[i].id else Mint(Call, uuids[i])
    {
      var cycle := HasCycle(edges);
      if cycle {
        return Err(Cycle);
      }
      var minted := MintAll(edges, Ids(graph.edges), uuids);
      forall i | 0 <= i < |edges| && FreshUuids(uuids, Ids(graph.edges))
        ensures minted[i].id == if KeepsId(edges, Ids(graph.edges), i) then edges[i].id else Mint(Call, uuids[i])
      {
        MintedKeepsIff(edges, Ids(graph.edges), uuids, i);
      }
      graph := GraphFile(minted, positions);
      AtomicSave(diskWorks);
      return if diskWorks then Ok(graph) else Err(PersistFailed);
    }

    /** One edge more, positions untouched; a pair that is linked already gets its own edge back. */
    method AddCallEdge(source: Node, target: Node, uuid: string, diskWorks: bool)
      returns (r: Result<Edge, Refusal>)
      modifies this
      ensures View() == Apply(old(View()), Add(source, target, uuid), diskWorks)
      ensures HasEdge(old(graph.edges), source, target) ==>
                r.Ok? && r.value in old(graph.edges) && r.value.source == source && r.value.target == target
      ensures !HasEdge(old(graph.edges), source, target) ==>
                var edge := Edge(Mint(Call, uuid), source, target);
                r == if Cyclic(old(graph.edges) + [edge]) then Err(Cycle)
                     else if diskWorks then Ok(edge) else Err(PersistFailed)
      ensures HasEdge(old(graph.edges), source, target) || r == Err(Cycle) ==> graph == old(graph) && disk == old(disk)
      ensures !HasEdge(old(graph.edges), source, target) && r != Err(Cycle) ==>
                && graph.edges == old(graph.edges) + [Edge(Mint(Call, uuid), source, target)]
                && graph.positions == old(graph.positions) && disk == if diskWorks then graph else old(disk)
    {
      for i := 0 to |graph.edges|
        invariant graph == old(graph) && disk == old(disk)
        invariant forall k :: 0 <= k < i ==> graph.edges[k].source != source || graph.edges[k].target != target
      {
        if graph.edges[i].source == source && graph.edges[i].target == target {
          return Ok(graph.edges[i]);
        }
      }
      var edge := Edge(Mint(Call, uuid), source, target);
      var cycle := HasCycle(graph.edges + [edge]);
      if cycle {
        return Err(Cycle);
      }
      graph := graph.(edges := graph.edges + [edge]);
      AtomicSave(diskWorks);
      return if diskWorks then Ok(edge) else Err(PersistFailed);
    }

    method RemoveCallEdge(connectionId: string, diskWorks: bool) returns (r: Result<bool, Refusal>)
      modifies this
      ensures View() == Apply(old(View()), Remove(connectionId), diskWorks)
      ensures r == if connectionId !in Ids(old(graph.edges)) then Ok(false)
                   else if diskWorks then Ok(true) else Err(PersistFailed)
      ensures forall e :: e in graph.edges <==> e in old(graph.edges) && e.id != connectionId
      ensures graph.positions == old(graph.positions)
      ensures r == Ok(true) ==> disk == graph
      ensures r != Ok(true) ==> disk == old(disk)
      ensures r == Ok(false) ==> graph == old(graph)
    {
      var edges := WithoutId(graph.edges, connectionId);
      if |edges| == |graph.edges| {
        return Ok(false);
      }
      graph := graph.(edges := edges);
      AtomicSave(diskWorks);
      return if diskWorks then Ok(true) else Err(PersistFailed);
    }

    /** Called in the middle of a workspace deletion, so a failed write is swallowed. */
    method RemoveWorkspaceFromGraph(workspaceId: Node, diskWorks: bool)
      modifies this
      ensures View() == Apply(old(View()), RemoveWorkspace(workspaceId), diskWorks)
      ensures forall e :: e in graph.edges <==> e in old(graph.edges) && e.source != workspaceId && e.target != workspaceId
      ensures graph.positions == old(graph.positions) - {workspaceId}
      ensures graph == old(graph) || !diskWorks ==> disk == old(disk)
      ensures graph != old(graph) && diskWorks ==> disk == graph
    {
      var edges := WithoutNode(graph.edges, workspaceId);
      var positions := graph.positions - {workspaceId};
      if |edges| == |graph.edges| && workspaceId !in graph.positions {
        return;
      }
      graph := GraphFile(edges, positions);
      AtomicSave(diskWorks);
    }

    /** Gates delegation: a workspace may call exactly the targets of its outgoing edges. */
    method CanCall(from: Node, to: Node) returns (r: bool)
      ensures r <==> HasEdge(graph.edges, from, to)
    {
      for i := 0 to |graph.edges|
        invariant forall k :: 0 <= k < i ==> graph.edges[k].source != from || graph.edges[k].target != to
      {
        if graph.edges[i].source == from && graph.edges[i].target == to {
          return true;
        }
      }
      return false;
    }
  }
}
