/** The server's table of drive links. Only one link per drive/workspace pair exists. */
module DriveStore {
  import opened Wrappers
  import opened Sequences
  import opened ConnectionIds
  import opened ConnectionRules

  datatype DriveConnection = DriveConnection(
    id: string, driveId: string, workspaceId: string, sourceHandle: Handle, targetHandle: Handle)

  /** How a call to the server goes: it works, it fails with nothing changed, or (deleting a drive only)
      it fails after the links were dropped and before the drive was. */
  datatype Fate = Works | FailsBefore | FailsHalfway

  /** Absent and null both mean that no handle is recorded. */
  function Recorded(handle: Handle): Handle {
    if handle.Null? then Undefined else handle
  }

  predicate Links(c: DriveConnection, driveId: string, workspaceId: string) {
    c.driveId == driveId && c.workspaceId == workspaceId
  }

  /** A row of the table: a link id, and an unrecorded handle is left out. */
  ghost predicate Stored(c: DriveConnection) {
    !c.sourceHandle.Null? && !c.targetHandle.Null? && KindOf(c.id) == Some(Link)
  }

  /** Two rows differ in id and in the pair they link. */
  predicate Apart(c: DriveConnection, d: DriveConnection) {
    c.id != d.id && !Links(c, d.driveId, d.workspaceId)
  }

  ghost predicate Table(connections: seq<DriveConnection>) {
    && (forall c {:trigger Stored(c)} :: c in connections ==> Stored(c))
    && (forall i, j {:trigger Apart(connections[i], connections[j])} :: 0 <= i < j < |connections| ==>
          Apart(connections[i], connections[j]))
  }

  lemma {:induction false} FilterKeepsTable(connections: seq<DriveConnection>, keep: DriveConnection -> bool)
    requires Table(connections)
    ensures Table(Filter(connections, keep))
  {
    FilterFacts(connections, keep);
    FilterKeepsPairwise(connections, keep, Apart);
    var kept := Filter(connections, keep);
    assert Pairwise(kept, Apart);
  }

  function OtherDrives(connections: seq<DriveConnection>, driveId: string): (r: seq<DriveConnection>)
    ensures forall c :: c in r <==> c in connections && c.driveId != driveId
  {
    FilterFacts(connections, (c: DriveConnection) => c.driveId != driveId);
    Filter(connections, (c: DriveConnection) => c.driveId != driveId)
  }

  function OtherIds(connections: seq<DriveConnection>, id: string): (r: seq<DriveConnection>)
    ensures forall c :: c in r <==> c in connections && c.id != id
    ensures |r| == |connections| ==> r == connections
  {
    FilterFacts(connections, (c: DriveConnection) => c.id != id);
    Filter(connections, (c: DriveConnection) => c.id != id)
  }

  lemma TableGrows(connections: seq<DriveConnection>, c: DriveConnection)
    requires Table(connections) && Stored(c) && forall k :: 0 <= k < |connections| ==> Apart(connections[k], c)
    ensures Table(connections + [c])
  {
    var more := connections + [c];
    forall i, j | 0 <= i < j < |more|
      ensures Apart(more[i], more[j])
    {
      assert more[i] == connections[i];
      assert j < |connections| ==> Apart(connections[i], connections[j]);
    }
  }

  lemma MovingHandlesKeepsTable(connections: seq<DriveConnection>, i: nat, c: DriveConnection)
    requires Table(connections) && i < |connections| && Stored(c)
    requires c.id == connections[i].id && c.driveId == connections[i].driveId && c.workspaceId == connections[i].workspaceId
    ensures Table(connections[i := c])
  {
    var moved := connections[i := c];
    forall j, k | 0 <= j < k < |moved|
      ensures Apart(moved[j], moved[k])
    {
      assert Apart(connections[j], connections[k]);
    }
  }

  class Server {
    var drives: set<string>
    var workspaces: set<string>
    var connections: seq<DriveConnection>

    constructor (drives: set<string>, workspaces: set<string>, connections: seq<DriveConnection>)
      ensures this.drives == drives && this.workspaces == workspaces && this.connections == connections
    {
      this.drives, this.workspaces, this.connections := drives, workspaces, connections;
    }

    /** Content, links, registry, in that order: the registry entry stays as the handle for a retry. */
    method DeleteDrive(driveId: string, fate: Fate) returns (ok: bool)
      requires Table(connections)
      modifies this`drives, this`connections
      ensures Table(connections)
      ensures ok <==> driveId in old(drives) && fate.Works?
      ensures drives == if ok then old(drives) - {driveId} else old(drives)
      ensures connections == if driveId in old(drives) && !fate.FailsBefore?
                             then OtherDrives(old(connections), driveId) else old(connections)
    {
      if driveId !in drives || fate.FailsBefore? {
        return false;
      }
      FilterKeepsTable(connections, (c: DriveConnection) => c.driveId != driveId);
      connections := OtherDrives(connections, driveId);
      if fate.FailsHalfway? {
        return false;
      }
      drives := drives - {driveId};
      return true;
    }

    /** Link a drive to a workspace. A pair already linked keeps its id and takes the new handles. */
    method ConnectDrive(driveId: string, workspaceId: string, sourceHandle: Handle, targetHandle: Handle,
                        uuid: string, fate: Fate) returns (r: Option<DriveConnection>)
      requires Table(connections)
      requires uuid != "" && forall c :: c in connections ==> c.id != Mint(Link, uuid)
      modifies this`connections
      ensures Table(connections)
      ensures r.None? ==> connections == old(connections)
      ensures r.Some? <==> driveId in drives && workspaceId in workspaces && fate.Works?
      ensures r.Some? ==> Links(r.value, driveId, workspaceId) && r.value in connections
                          && r.value.sourceHandle == Recorded(sourceHandle)
                          && r.value.targetHandle == Recorded(targetHandle)
      ensures r.Some? && (forall c :: c in old(connections) ==> !Links(c, driveId, workspaceId)) ==>
                r.value.id == Mint(Link, uuid) && connections == old(connections) + [r.value]
      ensures r.Some? && (exists c :: c in old(connections) && Links(c, driveId, workspaceId)) ==>
                exists k :: 0 <= k < |old(connections)| && Links(old(connections)[k], driveId, workspaceId)
                            && r.value.id == old(connections)[k].id && connections == old(connections)[k := r.value]
    {
      if driveId !in drives || workspaceId !in workspaces || !fate.Works? {
        return None;
      }
      for i := 0 to |connections|
        invariant connections == old(connections)
        invariant forall k :: 0 <= k < i ==> !Links(connections[k], driveId, workspaceId)
      {
        if connections[i].driveId == driveId && connections[i].workspaceId == workspaceId {
          var moved := connections[i].(sourceHandle := Recorded(sourceHandle), targetHandle := Recorded(targetHandle));
          assert connections[i] in connections && Stored(connections[i]);
          MovingHandlesKeepsTable(connections, i, moved);
          connections := connections[i := moved];
          assert connections[i] == moved;
          assert old(connections)[i] in old(connections);
          return Some(moved);
        }
      }
      MintRecognised(Link, uuid);
      var c := DriveConnection(Mint(Link, uuid), driveId, workspaceId, Recorded(sourceHandle), Recorded(targetHandle));
      assert forall k :: 0 <= k < |connections| ==> connections[k] in connections;
      TableGrows(connections, c);
      connections := connections + [c];
      return Some(c);
    }

    /** A link already gone is a state established, not an error; an id of another kind is refused. */
    method DisconnectDrive(connectionId: string, fate: Fate) returns (ok: bool)
      requires Table(connections)
      modifies this`connections
      ensures Table(connections)
      ensures ok <==> KindOf(connectionId) == Some(Link) && fate.Works?
      ensures connections == if ok then OtherIds(old(connections), connectionId) else old(connections)
    {
      if KindOf(connectionId) != Some(Link) || !fate.Works? {
        return false;
      }
      FilterKeepsTable(connections, (c: DriveConnection) => c.id != connectionId);
      connections := OtherIds(connections, connectionId);
      return true;
    }
  }
}

/** What saving a canvas does about drives, in three loops of calls: the queued deletions, then the links the
    canvas no longer draws as they are saved, then the links it draws anew. */
module DriveSync {
  import opened Wrappers
  import opened ConnectionIds
  import opened ConnectionRules
  import opened DriveStore

  type Saved = map<string, DriveConnection>

  /** The mirror holds row `c` of the table. */
  ghost predicate Known(saved: Saved, c: DriveConnection) {
    c.id in saved && saved[c.id] == c
  }

  /** What the mirror holds under `id` is a row of the table, under its own id. */
  ghost predicate Backed(saved: Saved, connections: seq<DriveConnection>, id: string) {
    id in saved && saved[id].id == id && saved[id] in connections
  }

  /** The client's mirror and the server's table agree on every link of a drive outside `drives`. */
  ghost predicate AgreeOutside(saved: Saved, connections: seq<DriveConnection>, drives: set<string>) {
    && (forall c {:trigger Known(saved, c)} :: c in connections && c.driveId !in drives ==> Known(saved, c))
    && (forall id {:trigger Backed(saved, connections, id)} :: id in saved && saved[id].driveId !in drives ==>
          Backed(saved, connections, id))
  }

  ghost predicate Mirrors(saved: Saved, connections: seq<DriveConnection>) {
    AgreeOutside(saved, connections, {})
  }

  predicate IsSaved(edge: CanvasEdge, saved: Saved) {
    && edge.id in saved
    && saved[edge.id].sourceHandle == edge.sourceHandle
    && NormalizeIncoming(saved[edge.id].targetHandle) == edge.targetHandle
  }

  function DriveEdges(edges: seq<CanvasEdge>): seq<CanvasEdge>
  {
    if edges == [] then []
    else if edges[0].drive then [edges[0]] + DriveEdges(edges[1..]) else DriveEdges(edges[1..])
  }

  /** Two drawn links differ in id and in the pair they join. */
  predicate EdgesApart(e: CanvasEdge, f: CanvasEdge) {
    e.id != f.id && (e.source != f.source || e.target != f.target)
  }

  predicate Normal(e: CanvasEdge) {
    e.targetHandle == NormalizeIncoming(e.targetHandle)
  }

  /** The part of a coherent canvas a sync relies on, of its drive edges alone. */
  ghost predicate DrawnLinks(drawn: seq<CanvasEdge>) {
    && (forall i, j {:trigger EdgesApart(drawn[i], drawn[j])} :: 0 <= i < j < |drawn| ==> EdgesApart(drawn[i], drawn[j]))
    && (forall i {:trigger Normal(drawn[i])} :: 0 <= i < |drawn| ==> Normal(drawn[i]))
  }

  /** The drive edges of a canvas are all of them, and only they. */
  lemma {:induction false} DriveEdgesAre(edges: seq<CanvasEdge>)
    ensures forall e :: e in DriveEdges(edges) <==> e in edges && e.drive
  {
    if edges != [] {
      DriveEdgesAre(edges[1..]);
      assert forall e :: e in edges <==> e == edges[0] || e in edges[1..];
    }
  }

  lemma {:induction false} OneOfTheEdges(edges: seq<CanvasEdge>, i: nat)
    requires i < |DriveEdges(edges)|
    ensures DriveEdges(edges)[i] in edges && DriveEdges(edges)[i].drive
  {
    if !edges[0].drive {
      OneOfTheEdges(edges[1..], i);
    } else if i > 0 {
      OneOfTheEdges(edges[1..], i - 1);
    }
  }

  lemma {:induction false} CoherentCanvasDrawsLinks(edges: seq<CanvasEdge>)
    requires forall i, j :: 0 <= i < j < |edges| ==> edges[i].id != edges[j].id
    requires forall i, j :: 0 <= i < j < |edges| && edges[i].drive && edges[j].drive ==>
               edges[i].source != edges[j].source || edges[i].target != edges[j].target
    requires forall i :: 0 <= i < |edges| && edges[i].drive ==>
               Normal(edges[i])
    ensures DrawnLinks(DriveEdges(edges))
  {
    if edges != [] {
      var rest := edges[1..];
      CoherentCanvasDrawsLinks(rest);
      var drawn := DriveEdges(edges);
      forall i, j | 0 <= i < j < |drawn|
        ensures EdgesApart(drawn[i], drawn[j])
      {
        if edges[0].drive && i == 0 {
          OneOfTheEdges(rest, j - 1);
          assert drawn[j] == DriveEdges(rest)[j - 1];
        } else {
          var k := if edges[0].drive then 1 else 0;
          assert EdgesApart(DriveEdges(rest)[i - k], DriveEdges(rest)[j - k]);
        }
      }
    }
  }

  /** An edge drawn under a saved id draws that link: an edit never moves an edge to another pair. */
  ghost predicate SameLink(saved: Saved, e: CanvasEdge) {
    e.id in saved ==> Links(saved[e.id], e.source, e.target)
  }

  ghost predicate SameLinks(drawn: seq<CanvasEdge>, saved: Saved) {
    forall i {:trigger SameLink(saved, drawn[i])} :: 0 <= i < |drawn| ==> SameLink(saved, drawn[i])
  }

  /** The id an edge has once the canvas has adopted what the server named it. */
  function FinalId(edge: CanvasEdge, renamed: map<string, string>): string {
    if edge.id in renamed then renamed[edge.id] else edge.id
  }

  /** `saved` holds the link of edge `e` as drawn. */
  ghost predicate Holds(saved: Saved, id: string, e: CanvasEdge) {
    && id in saved
    && Links(saved[id], e.source, e.target)
    && saved[id].sourceHandle == Recorded(e.sourceHandle)
    && NormalizeIncoming(saved[id].targetHandle) == e.targetHandle
  }

  /** Canvas and mirror agree link by link, on pairs and handles, with nothing left over. */
  ghost predicate Converged(saved: Saved, drawn: seq<CanvasEdge>, renamed: map<string, string>) {
    && (forall i :: 0 <= i < |drawn| ==> Holds(saved, FinalId(drawn[i], renamed), drawn[i]))
    && (forall id :: id in saved ==> exists i :: 0 <= i < |drawn| && FinalId(drawn[i], renamed) == id)
  }

  /** How a sync ends: it went through, or some call failed, a deletion halfway or any call with no effect. */
  datatype SyncEnd = Completed | Failed(halfway: bool)

  /** Calls number `from` up to `to` all work. */
  ghost predicate AllWork(fates: nat -> Fate, from: nat, to: nat) {
    forall k: nat :: from <= k < to ==> fates(k).Works?
  }

  lemma WorkStep(fates: nat -> Fate, from: nat, to: nat)
    requires from <= to
    ensures AllWork(fates, from, to + 1) <==> AllWork(fates, from, to) && fates(to).Works?
  {}

  lemma WorkSplits(fates: nat -> Fate, from: nat, middle: nat, to: nat)
    requires from <= middle <= to
    ensures AllWork(fates, from, to) <==> AllWork(fates, from, middle) && AllWork(fates, middle, to)
  {}

  /** A call that fails among them. */
  lemma OneFails(fates: nat -> Fate, from: nat, k: nat, to: nat)
    requires from <= k < to && !fates(k).Works?
    ensures !AllWork(fates, from, to)
  {}

  /** Every link of a drive outside `drives`. */
  function Without(saved: Saved, drives: set<string>): Saved {
    map id | id in saved && saved[id].driveId !in drives :: saved[id]
  }

  /** Every link under one of `ids`. */
  function Only(saved: Saved, ids: set<string>): Saved {
    map id | id in saved && id in ids :: saved[id]
  }

  /** The drives queued before place `n`, and from it on. */
  function Before(pending: seq<string>, n: nat): set<string> {
    set k | 0 <= k < |pending| && k < n :: pending[k]
  }

  function From(pending: seq<string>, n: nat): set<string> {
    set k | n <= k < |pending| :: pending[k]
  }

  /** Deletion number `n` finds its drive, which no earlier one has deleted. */
  ghost predicate Finds(drives: set<string>, pending: seq<string>, n: nat) {
    n < |pending| && pending[n] in drives && pending[n] !in Before(pending, n)
  }

  /** The first `n` deletions of a sync whose calls start at number `first` go through. */
  ghost predicate AllDeleted(drives: set<string>, pending: seq<string>, fates: nat -> Fate, first: nat, n: nat) {
    (forall k: nat :: k < n ==> Finds(drives, pending, k)) && AllWork(fates, first, first + n)
  }

  lemma DeletedStep(drives: set<string>, pending: seq<string>, fates: nat -> Fate, first: nat, n: nat)
    requires AllDeleted(drives, pending, fates, first, n)
    ensures AllDeleted(drives, pending, fates, first, n + 1) <==> Finds(drives, pending, n) && fates(first + n).Works?
  {
    WorkStep(fates, first, first + n);
  }

  /** What is left of the table once every link of `drives` is gone. */
  ghost predicate Remains(connections: seq<DriveConnection>, was: seq<DriveConnection>, drives: set<string>) {
    forall c {:trigger Remaining(c, connections, was, drives)} :: Remaining(c, connections, was, drives)
  }

  ghost predicate Remaining(c: DriveConnection, connections: seq<DriveConnection>, was: seq<DriveConnection>, drives: set<string>) {
    c in connections <==> (c in was && c.driveId !in drives)
  }

  lemma RemainsStep(connections: seq<DriveConnection>, was: seq<DriveConnection>, drives: set<string>, driveId: string)
    requires Remains(connections, was, drives)
    ensures Remains(OtherDrives(connections, driveId), was, drives + {driveId})
  {
    forall c | true
      ensures Remaining(c, OtherDrives(connections, driveId), was, drives + {driveId})
    {
      assert Remaining(c, connections, was, drives);
    }
  }

  ghost predicate Lists(saved: Saved, driveId: string) {
    exists id :: id in saved && saved[id].driveId == driveId
  }

  lemma QueueStep(pending: seq<string>, n: nat)
    requires n < |pending|
    ensures From(pending, n) == {pending[n]} + From(pending, n + 1)
    ensures Before(pending, n + 1) == Before(pending, n) + {pending[n]}
  {}

  lemma QueueEnds(pending: seq<string>)
    ensures Before(pending, 0) == {} && From(pending, |pending|) == {}
    ensures From(pending, 0) == Before(pending, |pending|)
  {}

  /** The client's mirror, and the drives and links of the server. */
  datatype Sides = Sides(saved: Saved, drives: set<string>, connections: seq<DriveConnection>)

  /** Both sides after the first `n` deletions. */
  ghost predicate Deleted(was: Sides, now: Sides, pending: seq<string>, n: nat) {
    && Table(now.connections) && AgreeOutside(now.saved, now.connections, From(pending, n))
    && now.saved == Without(was.saved, Before(pending, n)) && now.drives == was.drives - Before(pending, n)
    && Remains(now.connections, was.connections, Before(pending, n))
    && (Mirrors(was.saved, was.connections) ==> Mirrors(now.saved, now.connections))
  }

  lemma NothingDeleted(was: Sides, pending: seq<string>, fates: nat -> Fate, first: nat)
    requires Table(was.connections) && AgreeOutside(was.saved, was.connections, From(pending, 0))
    ensures Deleted(was, was, pending, 0) && AllDeleted(was.drives, pending, fates, first, 0)
  {
    QueueEnds(pending);
    WithoutNone(was.saved);
  }

  lemma WithoutBoth(saved: Saved, drives: set<string>, driveId: string)
    ensures Without(Without(saved, drives), {driveId}) == Without(saved, drives + {driveId})
  {}

  lemma WithoutNone(saved: Saved)
    ensures Without(saved, {}) == saved
  {}

  /** A deletion that goes through, followed by what the client forgets of it. */
  lemma DeletionAgrees(saved: Saved, connections: seq<DriveConnection>, driveId: string, drives: set<string>)
    requires AgreeOutside(saved, connections, {driveId} + drives)
    ensures AgreeOutside(Without(saved, {driveId}), OtherDrives(connections, driveId), drives)
  {
    forall c | c in OtherDrives(connections, driveId) && c.driveId !in drives
      ensures Known(Without(saved, {driveId}), c)
    {
      assert Known(saved, c);
    }
    forall id | id in Without(saved, {driveId}) && saved[id].driveId !in drives
      ensures Backed(Without(saved, {driveId}), OtherDrives(connections, driveId), id)
    {
      assert Backed(saved, connections, id);
    }
  }

  /** A deletion that drops the links alone. */
  lemma HalfDeletionAgrees(saved: Saved, connections: seq<DriveConnection>, driveId: string, drives: set<string>)
    requires AgreeOutside(saved, connections, drives) && driveId in drives
    ensures AgreeOutside(saved, OtherDrives(connections, driveId), drives)
  {
    forall id | id in saved && saved[id].driveId !in drives
      ensures Backed(saved, OtherDrives(connections, driveId), id)
    {
      assert Backed(saved, connections, id);
    }
  }

  /** What a deletion that fails halfway leaves: the server has dropped the drive's links, the mirror
      still lists them, so the two agree exactly when it listed none. */
  lemma HalfwayLeavesMirrorBehind(saved: Saved, connections: seq<DriveConnection>, driveId: string)
    requires Mirrors(saved, connections)
    ensures Mirrors(saved, OtherDrives(connections, driveId)) <==> !Lists(saved, driveId)
  {
    if Lists(saved, driveId) {
      var id :| id in saved && saved[id].driveId == driveId;
      assert !Backed(saved, OtherDrives(connections, driveId), id);
    } else {
      DeletionAgrees(saved, connections, driveId, {});
      assert Without(saved, {driveId}) == saved;
    }
  }

  lemma SavedUnderLinkId(saved: Saved, connections: seq<DriveConnection>, id: string)
    requires Table(connections) && Mirrors(saved, connections) && id in saved
    ensures KindOf(id) == Some(Link)
  {
    assert Backed(saved, connections, id) && Stored(saved[id]);
  }

  lemma DropAgrees(saved: Saved, connections: seq<DriveConnection>, id: string)
    requires Mirrors(saved, connections)
    ensures Mirrors(saved - {id}, OtherIds(connections, id))
  {
    forall c | c in OtherIds(connections, id)
      ensures Known(saved - {id}, c)
    {
      assert Known(saved, c);
    }
    forall other | other in saved - {id}
      ensures Backed(saved - {id}, OtherIds(connections, id), other)
    {
      assert Backed(saved, connections, other);
    }
  }

  lemma RowIsListed(saved: Saved, connections: seq<DriveConnection>, c: DriveConnection)
    requires Mirrors(saved, connections) && c in connections
    ensures c.id in saved && saved[c.id] == c
  {
    assert Known(saved, c);
  }

  lemma CreationAgrees(saved: Saved, connections: seq<DriveConnection>, c: DriveConnection)
    requires Mirrors(saved, connections) && c.id !in saved
    ensures Mirrors(saved[c.id := c], connections + [c])
  {
    forall d | d in connections + [c]
      ensures Known(saved[c.id := c], d)
    {
      assert d != c ==> Known(saved, d);
    }
    var more := saved[c.id := c];
    forall id | id in more
      ensures Backed(more, connections + [c], id)
    {
      assert id != c.id ==> Backed(saved, connections, id);
    }
  }

  /** `ids` lists the links to drop, each once. */
  ghost predicate Drops(ids: seq<string>, saved: Saved, kept: set<string>) {
    && Before(ids, |ids|) == saved.Keys - kept && |ids| == |saved.Keys - kept|
    && forall i, j :: 0 <= i < j < |ids| ==> ids[i] != ids[j]
  }

  lemma StillSaved(ids: seq<string>, saved: Saved, kept: set<string>, n: nat)
    requires Drops(ids, saved, kept) && n < |ids|
    ensures ids[n] in saved - Before(ids, n)
    ensures saved - Before(ids, n) - {ids[n]} == saved - Before(ids, n + 1)
  {
    assert ids[n] in Before(ids, |ids|);
    QueueStep(ids, n);
  }

  lemma AllDropped(ids: seq<string>, saved: Saved, kept: set<string>)
    requires Drops(ids, saved, kept)
    ensures saved - Before(ids, |ids|) == Only(saved, kept)
  {}

  method ListIds(ids: set<string>) returns (listed: seq<string>)
    ensures |listed| == |ids| && Before(listed, |listed|) == ids
    ensures forall i, j :: 0 <= i < j < |listed| ==> listed[i] != listed[j]
  {
    listed := [];
    var todo := ids;
    while todo != {}
      invariant todo <= ids && (forall id :: id in listed <==> id in ids - todo)
      invariant |listed| + |todo| == |ids|
      invariant forall i, j :: 0 <= i < j < |listed| ==> listed[i] != listed[j]
      decreases todo
    {
      var id :| id in todo;
      listed, todo := listed + [id], todo - {id};
    }
    BeforeAll(listed);
  }

  lemma BeforeAll(ids: seq<string>)
    ensures forall id :: id in Before(ids, |ids|) <==> id in ids
  {}

  class Client {
    var saved: Saved
    const server: Server
    /** The fate of the n-th call of this sync. */
    const fates: nat -> Fate
    var calls: nat

    constructor (saved: Saved, server: Server, fates: nat -> Fate)
      ensures this.saved == saved && this.server == server && this.fates == fates && calls == 0
    {
      this.saved, this.server, this.fates, calls := saved, server, fates, 0;
    }

    ghost function Look(): Sides
      reads this, server
    {
      Sides(saved, server.drives, server.connections)
    }

    method NextFate() returns (fate: Fate)
      modifies this`calls
      ensures calls == old(calls) + 1 && fate == fates(old(calls))
    {
      fate := fates(calls);
      calls := calls + 1;
    }

    /** `saved` loses every link of `driveId`. */
    method ForgetDrive(driveId: string)
      modifies this`saved
      ensures saved == Without(old(saved), {driveId})
    {
      var todo := saved.Keys;
      while todo != {}
        invariant todo <= old(saved).Keys
        invariant saved == map id | id in old(saved) && (id in todo || old(saved)[id].driveId != driveId) :: old(saved)[id]
        decreases todo
      {
        var id :| id in todo;
        todo := todo - {id};
        if saved[id].driveId == driveId {
          saved := saved - {id};
        }
      }
    }

    /** One turn of the first loop. */
    method DeleteNth(pending: seq<string>, n: nat) returns (ok: bool, halfway: bool)
      requires n < |pending| && Table(server.connections)
      requires AgreeOutside(saved, server.connections, From(pending, n))
      modifies this`saved, this`calls, server`drives, server`connections
      ensures Table(server.connections) && calls == old(calls) + 1
      ensures ok <==> pending[n] in old(server.drives) && fates(old(calls)).Works?
      ensures halfway <==> pending[n] in old(server.drives) && fates(old(calls)).FailsHalfway?
      ensures server.drives == if ok then old(server.drives) - {pending[n]} else old(server.drives)
      ensures server.connections == if ok || halfway then OtherDrives(old(server.connections), pending[n])
                                    else old(server.connections)
      ensures saved == if ok then Without(old(saved), {pending[n]}) else old(saved)
      ensures AgreeOutside(saved, server.connections, From(pending, if ok then n + 1 else n))
      ensures old(Mirrors(saved, server.connections)) ==>
                (Mirrors(saved, server.connections) <==> !(halfway && Lists(saved, pending[n])))
    {
      var drive := pending[n];
      QueueStep(pending, n);
      DeletionAgrees(saved, server.connections, drive, From(pending, n + 1));
      HalfDeletionAgrees(saved, server.connections, drive, From(pending, n));
      if Mirrors(saved, server.connections) {
        DeletionAgrees(saved, server.connections, drive, {});
        HalfwayLeavesMirrorBehind(saved, server.connections, drive);
      }
      var fate := NextFate();
      halfway := drive in server.drives && fate.FailsHalfway?;
      ok := server.DeleteDrive(drive, fate);
      if ok {
        ForgetDrive(drive);
      }
    }

    /** The first loop: it stops at the first deletion that does not find its drive or whose call fails.
        The mirror is left behind exactly when that call fails halfway and the mirror lists a link of the
        drive, which stays queued. */
    method DeleteDrives(pending: seq<string>) returns (end: SyncEnd, deleted: nat)
      requires Table(server.connections)
      requires AgreeOutside(saved, server.connections, From(pending, 0))
      modifies this`saved, this`calls, server`drives, server`connections
      ensures Table(server.connections)
      ensures deleted <= |pending| && AllDeleted(old(server.drives), pending, fates, old(calls), deleted)
      ensures end.Completed? <==> deleted == |pending|
      ensures deleted < |pending| ==> !AllDeleted(old(server.drives), pending, fates, old(calls), deleted + 1)
      ensures end == Failed(true) <==>
                Finds(old(server.drives), pending, deleted) && fates(old(calls) + deleted).FailsHalfway?
      ensures calls == old(calls) + deleted + if end.Completed? then 0 else 1
      ensures server.drives == old(server.drives) - Before(pending, deleted)
      ensures saved == Without(old(saved), Before(pending, deleted))
      ensures Remains(server.connections, old(server.connections),
                      Before(pending, if end == Failed(true) then deleted + 1 else deleted))
      ensures AgreeOutside(saved, server.connections, From(pending, deleted))
      ensures old(Mirrors(saved, server.connections)) ==>
                (Mirrors(saved, server.connections) <==>
                 !(end == Failed(true) && Lists(saved, pending[deleted])))
    {
      deleted := 0;
      ghost var was, first := Look(), calls;
      NothingDeleted(was, pending, fates, first);
      while deleted < |pending|
        invariant deleted <= |pending| && calls == first + deleted
        invariant AllDeleted(was.drives, pending, fates, first, deleted) && Deleted(was, Look(), pending, deleted)
      {
        var ok, halfway := DeleteNext(pending, deleted, was, first);
        if !ok {
          return Failed(halfway), deleted;
        }
        deleted := deleted + 1;
      }
      return Completed, deleted;
    }

    /** One turn of the first loop, in terms of where it started. */
    method DeleteNext(pending: seq<string>, n: nat, ghost was: Sides, ghost first: nat) returns (ok: bool, halfway: bool)
      requires n < |pending| && calls == first + n
      requires AllDeleted(was.drives, pending, fates, first, n) && Deleted(was, Look(), pending, n)
      modifies this`saved, this`calls, server`drives, server`connections
      ensures calls == old(calls) + 1
      ensures ok <==> AllDeleted(was.drives, pending, fates, first, n + 1)
      ensures ok ==> !halfway && Deleted(was, Look(), pending, n + 1)
      ensures halfway <==> Finds(was.drives, pending, n) && fates(first + n).FailsHalfway?
      ensures !ok ==>
                && Table(server.connections) && AgreeOutside(saved, server.connections, From(pending, n))
                && saved == Without(was.saved, Before(pending, n)) && server.drives == was.drives - Before(pending, n)
                && Remains(server.connections, was.connections, Before(pending, if halfway then n + 1 else n))
                && (Mirrors(was.saved, was.connections) ==>
                      (Mirrors(saved, server.connections) <==> !(halfway && Lists(saved, pending[n]))))
    {
      QueueStep(pending, n);
      WithoutBoth(was.saved, Before(pending, n), pending[n]);
      RemainsStep(server.connections, was.connections, Before(pending, n), pending[n]);
      DeletedStep(was.drives, pending, fates, first, n);
      ok, halfway := DeleteNth(pending, n);
    }

    /** One call of the second loop. */
    method DropLink(id: string) returns (ok: bool)
      requires Table(server.connections) && Mirrors(saved, server.connections) && id in saved
      modifies this`saved, this`calls, server`connections
      ensures Table(server.connections) && Mirrors(saved, server.connections)
      ensures calls == old(calls) + 1 && (ok <==> fates(old(calls)).Works?)
      ensures saved == if ok then old(saved) - {id} else old(saved)
    {
      SavedUnderLinkId(saved, server.connections, id);
      DropAgrees(saved, server.connections, id);
      var fate := NextFate();
      ok := server.DisconnectDrive(id, fate);
      if ok {
        saved := saved - {id};
      }
    }

    /** The second loop: whatever is saved but not drawn as saved goes, one call each. */
    method DropLinks(kept: set<string>) returns (end: SyncEnd)
      requires Table(server.connections) && Mirrors(saved, server.connections)
      modifies this`saved, this`calls, server`connections
      ensures Table(server.connections) && Mirrors(saved, server.connections)
      ensures end == if AllWork(fates, old(calls), old(calls) + |old(saved).Keys - kept|) then Completed else Failed(false)
      ensures end.Completed? ==> saved == Only(old(saved), kept) && calls == old(calls) + |old(saved).Keys - kept|
    {
      var ids := ListIds(saved.Keys - kept);
      assert Before(ids, 0) == {};
      ghost var was, first := saved, calls;
      for i := 0 to |ids|
        invariant Dropping(ids, i, kept, was, first)
      {
        var ok := DropNth(ids, i, kept, was, first);
        if !ok {
          return Failed(false);
        }
      }
      AllDropped(ids, was, kept);
      return Completed;
    }

    /** The second loop after `n` links of those listed. */
    ghost predicate Dropping(ids: seq<string>, n: nat, kept: set<string>, was: Saved, first: nat)
      reads this, server
    {
      && Drops(ids, was, kept) && saved == was - Before(ids, n)
      && calls == first + n && AllWork(fates, first, calls)
      && Table(server.connections) && Mirrors(saved, server.connections)
    }

    /** One turn of the second loop. */
    method DropNth(ids: seq<string>, n: nat, kept: set<string>, ghost was: Saved, ghost first: nat) returns (ok: bool)
      requires n < |ids| && Dropping(ids, n, kept, was, first)
      modifies this`saved, this`calls, server`connections
      ensures ok ==> Dropping(ids, n + 1, kept, was, first)
      ensures Table(server.connections) && Mirrors(saved, server.connections)
      ensures !ok ==> !AllWork(fates, first, first + |ids|)
    {
      StillSaved(ids, was, kept, n);
      WorkStep(fates, first, calls);
      ok := DropLink(ids[n]);
      if !ok {
        OneFails(fates, first, first + n, first + |ids|);
      }
    }

    /** One call of the third loop: link the pair of `edge`, which no link joins yet, under a fresh id. */
    method CreateLink(edge: CanvasEdge, uuid: string) returns (created: Option<string>)
      requires Table(server.connections) && Mirrors(saved, server.connections)
      requires uuid != "" && Mint(Link, uuid) !in saved
      requires forall id :: id in saved ==> !Links(saved[id], edge.source, edge.target)
      requires edge.targetHandle == NormalizeIncoming(edge.targetHandle)
      modifies this`saved, this`calls, server`connections
      ensures Table(server.connections) && Mirrors(saved, server.connections)
      ensures calls == old(calls) + 1
      ensures created.Some? <==> Joinable(edge, server.drives, server.workspaces) && fates(old(calls)).Works?
      ensures created.None? ==> saved == old(saved)
      ensures created.Some? ==>
                && created.value == Mint(Link, uuid) && created.value in saved
                && saved == old(saved)[created.value := saved[created.value]]
                && Holds(saved, created.value, edge)
    {
      var fate := NextFate();
      ghost var was := server.connections;
      forall c | c in was
        ensures c.id != Mint(Link, uuid) && !Links(c, edge.source, edge.target)
      {
        RowIsListed(saved, was, c);
      }
      var r := server.ConnectDrive(edge.source, edge.target, edge.sourceHandle, edge.targetHandle, uuid, fate);
      if r.None? {
        return None;
      }
      CreationAgrees(saved, was, r.value);
      saved := saved[r.value.id := r.value];
      return Some(r.value.id);
    }
  }

  /** Both ends of the link exist on the server. */
  predicate Joinable(edge: CanvasEdge, drives: set<string>, workspaces: set<string>) {
    edge.source in drives && edge.target in workspaces
  }

  /** How many of the first `n` drawn links are not saved: the calls the third loop makes for them. */
  function Unsaved(drawn: seq<CanvasEdge>, saved: Saved, n: nat): nat
    requires n <= |drawn|
  {
    if n == 0 then 0 else Unsaved(drawn, saved, n - 1) + if IsSaved(drawn[n - 1], saved) then 0 else 1
  }

  predicate Creatable(edge: CanvasEdge, saved: Saved, drives: set<string>, workspaces: set<string>) {
    IsSaved(edge, saved) || Joinable(edge, drives, workspaces)
  }

  /** Every one of the first `n` drawn links that is not saved can be made. */
  ghost predicate AllJoinable(drawn: seq<CanvasEdge>, saved: Saved, drives: set<string>, workspaces: set<string>, n: nat)
    requires n <= |drawn|
  {
    forall i {:trigger Creatable(drawn[i], saved, drives, workspaces)} :: 0 <= i < n ==>
      Creatable(drawn[i], saved, drives, workspaces)
  }

  lemma UnsavedGrows(drawn: seq<CanvasEdge>, saved: Saved, n: nat, m: nat)
    requires n <= m <= |drawn|
    ensures Unsaved(drawn, saved, n) <= Unsaved(drawn, saved, m)
    decreases m
  {
    if n < m {
      UnsavedGrows(drawn, saved, n, m - 1);
    }
  }

  /** The count and the condition depend on which drawn links are saved alone. */
  lemma SameUnsaved(drawn: seq<CanvasEdge>, saved: Saved, other: Saved, n: nat)
    requires n <= |drawn| && forall i :: 0 <= i < |drawn| ==> (IsSaved(drawn[i], saved) <==> IsSaved(drawn[i], other))
    ensures Unsaved(drawn, saved, n) == Unsaved(drawn, other, n)
  {}

  /** The links a save keeps: drawn under their saved id with their saved handles. */
  function KeptIds(drawn: seq<CanvasEdge>, saved: Saved): set<string> {
    set i | 0 <= i < |drawn| && IsSaved(drawn[i], saved) :: drawn[i].id
  }

  /** The first `n` drawn links that were not kept are held under the id they were created with. */
  ghost predicate NewHeld(saved: Saved, before: Saved, drawn: seq<CanvasEdge>, renamed: map<string, string>, n: nat)
    requires n <= |drawn|
  {
    forall i {:trigger HeldIfNew(saved, before, drawn[i], renamed)} :: 0 <= i < n ==>
      HeldIfNew(saved, before, drawn[i], renamed)
  }

  ghost predicate HeldIfNew(saved: Saved, before: Saved, edge: CanvasEdge, renamed: map<string, string>) {
    IsSaved(edge, before) || (edge.id in renamed && Holds(saved, renamed[edge.id], edge))
  }

  /** Edge `i` is one of the first `n` and was created under the name `id`. */
  ghost predicate Named(before: Saved, drawn: seq<CanvasEdge>, i: int, n: nat, id: string)
    requires n <= |drawn|
  {
    0 <= i < n && !IsSaved(drawn[i], before) && drawn[i].id == id
  }

  ghost predicate OnlyNewRenamed(before: Saved, drawn: seq<CanvasEdge>, renamed: map<string, string>, n: nat)
    requires n <= |drawn|
  {
    forall id :: id in renamed ==> exists i :: Named(before, drawn, i, n, id)
  }

  ghost predicate NothingElse(saved: Saved, before: Saved, renamed: map<string, string>) {
    forall id :: id in saved && id !in before ==> IsAnswered(renamed, id)
  }

  ghost predicate IsAnswered(renamed: map<string, string>, id: string) {
    exists name :: Answers(renamed, name, id)
  }

  /** The server answered `id` for the link drawn as `name`. */
  ghost predicate Answers(renamed: map<string, string>, name: string, id: string) {
    name in renamed && renamed[name] == id
  }

  /** The third loop after `n` drawn links: those it created are held, the mirror holds nothing but these
      and the links kept. */
  ghost predicate Created(saved: Saved, before: Saved, drawn: seq<CanvasEdge>, renamed: map<string, string>, n: nat)
    requires n <= |drawn|
  {
    && (forall id :: id in before ==> id in saved && saved[id] == before[id])
    && NewHeld(saved, before, drawn, renamed, n)
    && OnlyNewRenamed(before, drawn, renamed, n)
    && NothingElse(saved, before, renamed)
  }

  lemma TwoApart(drawn: seq<CanvasEdge>, i: nat, j: nat)
    requires i < |drawn| && j < |drawn| && i != j && DrawnLinks(drawn)
    ensures drawn[i].id != drawn[j].id && (drawn[i].source != drawn[j].source || drawn[i].target != drawn[j].target)
  {
    assert if i < j then EdgesApart(drawn[i], drawn[j]) else EdgesApart(drawn[j], drawn[i]);
  }

  /** No saved link joins the pair of a drawn link that is yet to be created. */
  lemma PairIsFree(saved: Saved, before: Saved, drawn: seq<CanvasEdge>, renamed: map<string, string>, n: nat)
    requires n < |drawn| && DrawnLinks(drawn) && SameLinks(drawn, before)
    requires before.Keys <= KeptIds(drawn, before) && Created(saved, before, drawn, renamed, n)
    requires !IsSaved(drawn[n], before)
    ensures forall id :: id in saved ==> !Links(saved[id], drawn[n].source, drawn[n].target)
  {
    forall id | id in saved
      ensures !Links(saved[id], drawn[n].source, drawn[n].target)
    {
      if id in before {
        assert id in KeptIds(drawn, before);
        var k :| 0 <= k < |drawn| && IsSaved(drawn[k], before) && drawn[k].id == id;
        assert SameLink(before, drawn[k]);
        TwoApart(drawn, k, n);
      } else {
        var name :| Answers(renamed, name, id);
        var k :| Named(before, drawn, k, n, name);
        assert HeldIfNew(saved, before, drawn[k], renamed);
        TwoApart(drawn, k, n);
      }
    }
  }

  lemma NewHeldStep(saved: Saved, before: Saved, drawn: seq<CanvasEdge>, renamed: map<string, string>, n: nat,
                    id: string, c: DriveConnection)
    requires n < |drawn| && DrawnLinks(drawn) && NewHeld(saved, before, drawn, renamed, n)
    requires id !in saved && Holds(saved[id := c], id, drawn[n])
    ensures NewHeld(saved[id := c], before, drawn, renamed[drawn[n].id := id], n + 1)
  {
    var more, renamed' := saved[id := c], renamed[drawn[n].id := id];
    forall i | 0 <= i < n + 1
      ensures HeldIfNew(more, before, drawn[i], renamed')
    {
      if i < n {
        assert HeldIfNew(saved, before, drawn[i], renamed);
        TwoApart(drawn, i, n);
      }
    }
  }

  lemma RenamedGrows(before: Saved, drawn: seq<CanvasEdge>, renamed: map<string, string>, n: nat, m: nat)
    requires n <= m <= |drawn| && OnlyNewRenamed(before, drawn, renamed, n)
    ensures OnlyNewRenamed(before, drawn, renamed, m)
  {
    forall name | name in renamed
      ensures exists i :: Named(before, drawn, i, m, name)
    {
      var i :| Named(before, drawn, i, n, name);
      assert Named(before, drawn, i, m, name);
    }
  }

  lemma RenamedAdds(before: Saved, drawn: seq<CanvasEdge>, renamed: map<string, string>, n: nat, id: string)
    requires n < |drawn| && OnlyNewRenamed(before, drawn, renamed, n) && !IsSaved(drawn[n], before)
    ensures OnlyNewRenamed(before, drawn, renamed[drawn[n].id := id], n + 1)
  {
    RenamedGrows(before, drawn, renamed, n, n + 1);
    assert Named(before, drawn, n, n + 1, drawn[n].id);
  }

  lemma AnsweredStep(saved: Saved, before: Saved, drawn: seq<CanvasEdge>, renamed: map<string, string>, n: nat,
                     id: string, c: DriveConnection)
    requires n < |drawn| && DrawnLinks(drawn) && OnlyNewRenamed(before, drawn, renamed, n)
    requires NothingElse(saved, before, renamed)
    ensures NothingElse(saved[id := c], before, renamed[drawn[n].id := id])
  {
    var renamed' := renamed[drawn[n].id := id];
    forall other | other in saved[id := c] && other !in before
      ensures IsAnswered(renamed', other)
    {
      if other == id {
        assert Answers(renamed', drawn[n].id, id);
      } else {
        StillAnswered(before, drawn, renamed, n, id, other);
      }
    }
  }

  lemma StillAnswered(before: Saved, drawn: seq<CanvasEdge>, renamed: map<string, string>, n: nat, id: string, other: string)
    requires n < |drawn| && DrawnLinks(drawn) && OnlyNewRenamed(before, drawn, renamed, n)
    requires IsAnswered(renamed, other)
    ensures IsAnswered(renamed[drawn[n].id := id], other)
  {
    var name :| Answers(renamed, name, other);
    var i :| Named(before, drawn, i, n, name);
    TwoApart(drawn, i, n);
    assert Answers(renamed[drawn[n].id := id], name, other);
  }

  lemma CreatedStep(saved: Saved, before: Saved, drawn: seq<CanvasEdge>, renamed: map<string, string>, n: nat,
                    id: string, c: DriveConnection)
    requires n < |drawn| && DrawnLinks(drawn) && Created(saved, before, drawn, renamed, n)
    requires !IsSaved(drawn[n], before) && id !in saved && Holds(saved[id := c], id, drawn[n])
    ensures Created(saved[id := c], before, drawn, renamed[drawn[n].id := id], n + 1)
  {
    NewHeldStep(saved, before, drawn, renamed, n, id, c);
    RenamedAdds(before, drawn, renamed, n, id);
    AnsweredStep(saved, before, drawn, renamed, n, id, c);
  }

  lemma KeptIsNotRenamed(before: Saved, drawn: seq<CanvasEdge>, renamed: map<string, string>, k: nat)
    requires k < |drawn| && DrawnLinks(drawn) && OnlyNewRenamed(before, drawn, renamed, |drawn|)
    requires IsSaved(drawn[k], before)
    ensures drawn[k].id !in renamed
  {
    if drawn[k].id in renamed {
      var i :| Named(before, drawn, i, |drawn|, drawn[k].id);
      TwoApart(drawn, i, k);
    }
  }

  /** At the end of the third loop canvas and mirror have converged. */
  lemma CreatedAllConverges(saved: Saved, before: Saved, drawn: seq<CanvasEdge>, renamed: map<string, string>)
    requires DrawnLinks(drawn) && SameLinks(drawn, before) && before.Keys <= KeptIds(drawn, before)
    requires forall id :: id in before ==> !before[id].sourceHandle.Null?
    requires Created(saved, before, drawn, renamed, |drawn|)
    ensures Converged(saved, drawn, renamed)
  {
    forall i | 0 <= i < |drawn|
      ensures Holds(saved, FinalId(drawn[i], renamed), drawn[i])
    {
      if IsSaved(drawn[i], before) {
        KeptIsNotRenamed(before, drawn, renamed, i);
        assert SameLink(before, drawn[i]);
      } else {
        assert HeldIfNew(saved, before, drawn[i], renamed);
      }
    }
    forall id | id in saved
      ensures exists i :: 0 <= i < |drawn| && FinalId(drawn[i], renamed) == id
    {
      if id in before {
        assert id in KeptIds(drawn, before);
        var k :| 0 <= k < |drawn| && IsSaved(drawn[k], before) && drawn[k].id == id;
        KeptIsNotRenamed(before, drawn, renamed, k);
        assert FinalId(drawn[k], renamed) == id;
      } else {
        var name :| Answers(renamed, name, id);
        var k :| Named(before, drawn, k, |drawn|, name);
        assert FinalId(drawn[k], renamed) == id;
      }
    }
  }

  predicate Differ(id: string, other: string) {
    id != other
  }

  /** Fresh ids for the links to be drawn: distinct, and unknown to the mirror. */
  ghost predicate FreshLinks(uuids: seq<string>, saved: Saved, from: nat) {
    && (forall i :: from <= i < |uuids| ==> uuids[i] != "" && Mint(Link, uuids[i]) !in saved)
    && (forall i, j {:trigger Differ(uuids[i], uuids[j])} :: from <= i < j < |uuids| ==> Differ(uuids[i], uuids[j]))
  }

  lemma FreshStep(uuids: seq<string>, known: Saved, saved: Saved, n: nat)
    requires n < |uuids| && FreshLinks(uuids, known, n) && saved.Keys <= known.Keys + {Mint(Link, uuids[n])}
    ensures FreshLinks(uuids, saved, n + 1)
  {
    forall j | n < j < |uuids|
      ensures Mint(Link, uuids[j]) !in saved
    {
      assert Differ(uuids[n], uuids[j]);
      MintInjective(Link, uuids[n], uuids[j]);
    }
  }

  lemma StepDone(uuids: seq<string>, known: Saved, saved: Saved, before: Saved, drawn: seq<CanvasEdge>,
                 renamed: map<string, string>, n: nat, id: string)
    requires n < |drawn| == |uuids| && DrawnLinks(drawn) && Created(known, before, drawn, renamed, n)
    requires FreshLinks(uuids, known, n) && !IsSaved(drawn[n], before)
    requires id == Mint(Link, uuids[n]) && id in saved && saved == known[id := saved[id]] && Holds(saved, id, drawn[n])
    ensures Created(saved, before, drawn, renamed[drawn[n].id := id], n + 1) && FreshLinks(uuids, saved, n + 1)
  {
    CreatedStep(known, before, drawn, renamed, n, id, saved[id]);
    FreshStep(uuids, known, saved, n);
  }

  lemma KeptStep(saved: Saved, before: Saved, drawn: seq<CanvasEdge>, renamed: map<string, string>, n: nat)
    requires n < |drawn| && Created(saved, before, drawn, renamed, n) && IsSaved(drawn[n], before)
    ensures Created(saved, before, drawn, renamed, n + 1)
  {
    RenamedGrows(before, drawn, renamed, n, n + 1);
  }

  /** One turn of the third loop. */
  method CreateNth(client: Client, drawn: seq<CanvasEdge>, uuids: seq<string>, before: Saved,
                   renamed: map<string, string>, n: nat)
    returns (ok: bool, renamed': map<string, string>)
    requires Table(client.server.connections) && Mirrors(client.saved, client.server.connections)
    requires n < |drawn| == |uuids| && DrawnLinks(drawn) && SameLinks(drawn, before)
    requires before.Keys <= KeptIds(drawn, before) && Created(client.saved, before, drawn, renamed, n)
    requires FreshLinks(uuids, client.saved, n)
    modifies client`saved, client`calls, client.server`connections
    ensures Table(client.server.connections) && Mirrors(client.saved, client.server.connections)
    ensures client.calls == old(client.calls) + if IsSaved(drawn[n], before) then 0 else 1
    ensures ok <==> IsSaved(drawn[n], before)
                    || (Joinable(drawn[n], client.server.drives, client.server.workspaces)
                        && client.fates(old(client.calls)).Works?)
    ensures ok ==> Created(client.saved, before, drawn, renamed', n + 1) && FreshLinks(uuids, client.saved, n + 1)
  {
    if IsSaved(drawn[n], before) {
      KeptStep(client.saved, before, drawn, renamed, n);
      return true, renamed;
    }
    PairIsFree(client.saved, before, drawn, renamed, n);
    assert Normal(drawn[n]);
    ghost var known := client.saved;
    var created := client.CreateLink(drawn[n], uuids[n]);
    if created.None? {
      return false, renamed;
    }
    StepDone(uuids, known, client.saved, before, drawn, renamed, n, created.value);
    return true, renamed[drawn[n].id := created.value];
  }

  /** The third loop goes through: every link it has to make can be made, and every call works. */
  ghost predicate CreationsGo(drawn: seq<CanvasEdge>, saved: Saved, drives: set<string>, workspaces: set<string>,
                              fates: nat -> Fate, first: nat)
  {
    && AllJoinable(drawn, saved, drives, workspaces, |drawn|)
    && AllWork(fates, first, first + Unsaved(drawn, saved, |drawn|))
  }

  /** The third loop after `n` drawn links and `calls` calls. */
  ghost predicate Going(drawn: seq<CanvasEdge>, saved: Saved, drives: set<string>, workspaces: set<string>,
                        fates: nat -> Fate, first: nat, n: nat, calls: nat)
    requires n <= |drawn|
  {
    && AllJoinable(drawn, saved, drives, workspaces, n)
    && calls == first + Unsaved(drawn, saved, n) && AllWork(fates, first, calls)
  }

  lemma GoesOn(drawn: seq<CanvasEdge>, saved: Saved, drives: set<string>, workspaces: set<string>,
               fates: nat -> Fate, first: nat, n: nat, calls: nat)
    requires n < |drawn| && Going(drawn, saved, drives, workspaces, fates, first, n, calls)
    ensures IsSaved(drawn[n], saved) ==> Going(drawn, saved, drives, workspaces, fates, first, n + 1, calls)
    ensures !IsSaved(drawn[n], saved) && Joinable(drawn[n], drives, workspaces) && fates(calls).Works? ==>
              Going(drawn, saved, drives, workspaces, fates, first, n + 1, calls + 1)
    ensures !IsSaved(drawn[n], saved) && !(Joinable(drawn[n], drives, workspaces) && fates(calls).Works?) ==>
              !CreationsGo(drawn, saved, drives, workspaces, fates, first)
  {
    WorkStep(fates, first, calls);
    UnsavedGrows(drawn, saved, n + 1, |drawn|);
    assert Creatable(drawn[n], saved, drives, workspaces) <==>
           (IsSaved(drawn[n], saved) || Joinable(drawn[n], drives, workspaces));
    if !IsSaved(drawn[n], saved) && !fates(calls).Works? {
      OneFails(fates, first, calls, first + Unsaved(drawn, saved, |drawn|));
    }
  }

  /** The third loop: each link drawn but not saved is created, and the edge takes the server's id. */
  method CreateLinks(client: Client, drawn: seq<CanvasEdge>, uuids: seq<string>)
    returns (end: SyncEnd, renamed: map<string, string>)
    requires Table(client.server.connections) && Mirrors(client.saved, client.server.connections)
    requires DrawnLinks(drawn) && SameLinks(drawn, client.saved)
    requires client.saved.Keys <= KeptIds(drawn, client.saved)
    requires |uuids| == |drawn| && FreshLinks(uuids, client.saved, 0)
    modifies client`saved, client`calls, client.server`connections
    ensures Table(client.server.connections) && Mirrors(client.saved, client.server.connections)
    ensures end == if CreationsGo(drawn, old(client.saved), client.server.drives, client.server.workspaces,
                                  client.fates, old(client.calls)) then Completed else Failed(false)
    ensures end.Completed? ==> Converged(client.saved, drawn, renamed)
                               && AllSettled(old(client.saved), client.saved, drawn, renamed)
                               && client.calls == old(client.calls) + Unsaved(drawn, old(client.saved), |drawn|)
  {
    renamed := map[];
    var before := client.saved;
    NothingCreatedYet(before, drawn);
    for i := 0 to |drawn|
      invariant Table(client.server.connections) && Mirrors(client.saved, client.server.connections)
      invariant Created(client.saved, before, drawn, renamed, i)
      invariant FreshLinks(uuids, client.saved, i)
      invariant Going(drawn, before, client.server.drives, client.server.workspaces, client.fates,
                      old(client.calls), i, client.calls)
    {
      GoesOn(drawn, before, client.server.drives, client.server.workspaces, client.fates,
             old(client.calls), i, client.calls);
      var ok;
      ok, renamed := CreateNth(client, drawn, uuids, before, renamed, i);
      if !ok {
        return Failed(false), renamed;
      }
    }
    EverythingCreated(client.saved, before, client.server.connections, drawn, renamed);
    CreatedIsSettled(client.saved, before, drawn, renamed);
    return Completed, renamed;
  }

  /** A link drawn as it was saved, under its id and at its handles, is left alone; any other is made anew. */
  ghost predicate Settled(was: Saved, now: Saved, e: CanvasEdge, renamed: map<string, string>) {
    if e.id in was && was[e.id].sourceHandle == e.sourceHandle && NormalizeIncoming(was[e.id].targetHandle) == e.targetHandle
    then e.id in now && now[e.id] == was[e.id] && e.id !in renamed
    else e.id in renamed
  }

  ghost predicate AllSettled(was: Saved, now: Saved, drawn: seq<CanvasEdge>, renamed: map<string, string>) {
    forall i {:trigger Settled(was, now, drawn[i], renamed)} :: 0 <= i < |drawn| ==> Settled(was, now, drawn[i], renamed)
  }

  lemma CreatedIsSettled(saved: Saved, before: Saved, drawn: seq<CanvasEdge>, renamed: map<string, string>)
    requires DrawnLinks(drawn) && Created(saved, before, drawn, renamed, |drawn|)
    ensures AllSettled(before, saved, drawn, renamed)
  {
    forall i | 0 <= i < |drawn|
      ensures Settled(before, saved, drawn[i], renamed)
    {
      if IsSaved(drawn[i], before) {
        KeptIsNotRenamed(before, drawn, renamed, i);
      } else {
        assert HeldIfNew(saved, before, drawn[i], renamed);
      }
    }
  }

  /** Links that were dropped first were not drawn as saved. */
  lemma SettledSinceDrops(was: Saved, kept: Saved, now: Saved, drawn: seq<CanvasEdge>, renamed: map<string, string>)
    requires kept == Only(was, KeptIds(drawn, was)) && AllSettled(kept, now, drawn, renamed)
    ensures AllSettled(was, now, drawn, renamed)
  {
    KeptStaySaved(drawn, was);
    forall i | 0 <= i < |drawn|
      ensures Settled(was, now, drawn[i], renamed)
    {
      assert Settled(kept, now, drawn[i], renamed);
      assert IsSaved(drawn[i], kept) <==> IsSaved(drawn[i], was);
    }
  }

  lemma NothingCreatedYet(saved: Saved, drawn: seq<CanvasEdge>)
    ensures Created(saved, saved, drawn, map[], 0)
  {
  }

  lemma EverythingCreated(saved: Saved, before: Saved, connections: seq<DriveConnection>, drawn: seq<CanvasEdge>,
                          renamed: map<string, string>)
    requires Table(connections) && Mirrors(saved, connections)
    requires DrawnLinks(drawn) && SameLinks(drawn, before) && before.Keys <= KeptIds(drawn, before)
    requires Created(saved, before, drawn, renamed, |drawn|)
    ensures Converged(saved, drawn, renamed)
  {
    HandlesAreRecorded(saved, before, connections);
    CreatedAllConverges(saved, before, drawn, renamed);
  }

  lemma HandlesAreRecorded(saved: Saved, before: Saved, connections: seq<DriveConnection>)
    requires Table(connections) && Mirrors(saved, connections)
    requires forall id :: id in before ==> id in saved && saved[id] == before[id]
    ensures forall id :: id in before ==> !before[id].sourceHandle.Null?
  {
    forall id | id in before
      ensures !before[id].sourceHandle.Null?
    {
      assert Backed(saved, connections, id) && Stored(saved[id]);
    }
  }

  /** The calls the second and third loops make when every one works. */
  ghost function CallsToReconcile(drawn: seq<CanvasEdge>, saved: Saved): nat {
    |saved.Keys - KeptIds(drawn, saved)| + Unsaved(drawn, saved, |drawn|)
  }

  /** Both ends of each link drawn anew are there, and every call works. */
  ghost predicate Reconciles(drawn: seq<CanvasEdge>, saved: Saved, drives: set<string>, workspaces: set<string>,
                             fates: nat -> Fate, first: nat)
  {
    && AllJoinable(drawn, saved, drives, workspaces, |drawn|)
    && AllWork(fates, first, first + CallsToReconcile(drawn, saved))
  }

  /** There is nothing to call about exactly if every link drawn is saved as drawn, and every link saved is drawn. */
  lemma NoCallsIff(drawn: seq<CanvasEdge>, saved: Saved)
    ensures CallsToReconcile(drawn, saved) == 0 <==>
            && (forall i :: 0 <= i < |drawn| ==>
                  && drawn[i].id in saved && saved[drawn[i].id].sourceHandle == drawn[i].sourceHandle
                  && NormalizeIncoming(saved[drawn[i].id].targetHandle) == drawn[i].targetHandle)
            && (forall id :: id in saved ==> exists i :: 0 <= i < |drawn| && drawn[i].id == id)
  {
    NoneUnsavedIff(drawn, saved, |drawn|);
    assert |saved.Keys - KeptIds(drawn, saved)| == 0 <==> saved.Keys - KeptIds(drawn, saved) == {};
    if saved.Keys - KeptIds(drawn, saved) == {} {
      forall id | id in saved
        ensures exists i :: 0 <= i < |drawn| && drawn[i].id == id
      {
        assert id in KeptIds(drawn, saved);
      }
    } else if forall i :: 0 <= i < |drawn| ==> IsSaved(drawn[i], saved) {
      var id :| id in saved.Keys - KeptIds(drawn, saved);
      assert forall i :: 0 <= i < |drawn| ==> drawn[i].id in KeptIds(drawn, saved);
    }
  }

  lemma {:induction false} NoneUnsavedIff(drawn: seq<CanvasEdge>, saved: Saved, n: nat)
    requires n <= |drawn|
    ensures Unsaved(drawn, saved, n) == 0 <==> forall i :: 0 <= i < n ==> IsSaved(drawn[i], saved)
  {
    if n > 0 {
      NoneUnsavedIff(drawn, saved, n - 1);
    }
  }

  /** A sync goes through: each queued drive is there, and queued once; what is left of the mirror then
      reconciles with the canvas; every call works. */
  ghost predicate GoesThrough(saved: Saved, drawn: seq<CanvasEdge>, pending: seq<string>,
                              drives: set<string>, workspaces: set<string>, fates: nat -> Fate, first: nat)
  {
    var queued := Before(pending, |pending|);
    && AllDeleted(drives, pending, fates, first, |pending|)
    && Reconciles(drawn, Without(saved, queued), drives - queued, workspaces, fates, first + |pending|)
  }

  lemma KeptStaySaved(drawn: seq<CanvasEdge>, saved: Saved)
    ensures var kept := Only(saved, KeptIds(drawn, saved));
            && kept.Keys <= KeptIds(drawn, kept)
            && forall i :: 0 <= i < |drawn| ==> (IsSaved(drawn[i], kept) <==> IsSaved(drawn[i], saved))
  {
    var kept := Only(saved, KeptIds(drawn, saved));
    forall i | 0 <= i < |drawn|
      ensures IsSaved(drawn[i], kept) <==> IsSaved(drawn[i], saved)
    {
      assert IsSaved(drawn[i], saved) ==> drawn[i].id in KeptIds(drawn, saved);
    }
    forall id | id in kept
      ensures id in KeptIds(drawn, kept)
    {
      var k :| 0 <= k < |drawn| && IsSaved(drawn[k], saved) && drawn[k].id == id;
      assert IsSaved(drawn[k], kept);
    }
  }

  lemma ReconcilesInTwo(drawn: seq<CanvasEdge>, saved: Saved, kept: Saved, drives: set<string>, workspaces: set<string>,
                        fates: nat -> Fate, first: nat, next: nat)
    requires kept == Only(saved, KeptIds(drawn, saved)) && next == first + |saved.Keys - KeptIds(drawn, saved)|
    ensures next + Unsaved(drawn, kept, |drawn|) == first + CallsToReconcile(drawn, saved)
    ensures Reconciles(drawn, saved, drives, workspaces, fates, first) <==>
            AllWork(fates, first, next) && CreationsGo(drawn, kept, drives, workspaces, fates, next)
  {
    KeptStaySaved(drawn, saved);
    SameUnsaved(drawn, kept, saved, |drawn|);
    WorkSplits(fates, first, next, first + CallsToReconcile(drawn, saved));
    forall i | 0 <= i < |drawn|
      ensures Creatable(drawn[i], saved, drives, workspaces) <==> Creatable(drawn[i], kept, drives, workspaces)
    {}
  }

  lemma FewerLinks(drawn: seq<CanvasEdge>, uuids: seq<string>, saved: Saved, fewer: Saved)
    requires SameLinks(drawn, saved) && FreshLinks(uuids, saved, 0)
    requires fewer.Keys <= saved.Keys && forall id :: id in fewer ==> fewer[id] == saved[id]
    ensures SameLinks(drawn, fewer) && FreshLinks(uuids, fewer, 0)
  {
    forall i | 0 <= i < |drawn|
      ensures SameLink(fewer, drawn[i])
    {
      assert SameLink(saved, drawn[i]);
    }
  }

  /** The second and third loops, for a mirror that equals the table. */
  method Reconcile(client: Client, drawn: seq<CanvasEdge>, uuids: seq<string>)
    returns (end: SyncEnd, renamed: map<string, string>)
    requires Table(client.server.connections) && Mirrors(client.saved, client.server.connections)
    requires DrawnLinks(drawn) && SameLinks(drawn, client.saved)
    requires |uuids| == |drawn| && FreshLinks(uuids, client.saved, 0)
    modifies client`saved, client`calls, client.server`connections
    ensures Table(client.server.connections) && Mirrors(client.saved, client.server.connections)
    ensures end == if Reconciles(drawn, old(client.saved), client.server.drives, client.server.workspaces,
                                 client.fates, old(client.calls)) then Completed else Failed(false)
    ensures end.Completed? ==> Converged(client.saved, drawn, renamed)
                               && AllSettled(old(client.saved), client.saved, drawn, renamed)
                               && client.calls == old(client.calls) + CallsToReconcile(drawn, old(client.saved))
  {
    renamed := map[];
    var saved := client.saved;
    var kept := KeptIds(drawn, saved);
    KeptStaySaved(drawn, saved);
    FewerLinks(drawn, uuids, saved, Only(saved, kept));
    ReconcilesInTwo(drawn, saved, Only(saved, kept), client.server.drives, client.server.workspaces, client.fates,
                    client.calls, client.calls + |saved.Keys - kept|);
    end := client.DropLinks(kept);
    if end.Completed? {
      end, renamed := CreateLinks(client, drawn, uuids);
      if end.Completed? {
        SettledSinceDrops(saved, Only(saved, kept), client.saved, drawn, renamed);
      }
    }
  }

  /** The whole sync. It completes exactly when it goes through, and then canvas, mirror and table agree on
      every pair and its handles. Whichever call fails, the mirror equals the server's table at every end,
      except exactly when the deletion that failed did so halfway and the mirror lists a link of its drive.
      That drive stays queued, and syncing again is open to it. */
  method SyncDrives(client: Client, edges: seq<CanvasEdge>, pending: seq<string>, uuids: seq<string>)
    returns (end: SyncEnd, deleted: nat, renamed: map<string, string>)
    requires Table(client.server.connections)
    requires AgreeOutside(client.saved, client.server.connections, From(pending, 0))
    requires DrawnLinks(DriveEdges(edges)) && SameLinks(DriveEdges(edges), client.saved)
    requires |uuids| == |DriveEdges(edges)| && FreshLinks(uuids, client.saved, 0)
    modifies client`saved, client`calls, client.server`drives, client.server`connections
    ensures Table(client.server.connections)
    ensures end.Completed? <==> GoesThrough(old(client.saved), DriveEdges(edges), pending, old(client.server.drives),
                                            client.server.workspaces, client.fates, old(client.calls))
    ensures end.Completed? ==>
              && Mirrors(client.saved, client.server.connections)
              && Converged(client.saved, DriveEdges(edges), renamed)
              && AllSettled(Without(old(client.saved), Before(pending, |pending|)), client.saved, DriveEdges(edges), renamed)
              && client.calls == old(client.calls) + |pending|
                 + CallsToReconcile(DriveEdges(edges), Without(old(client.saved), Before(pending, |pending|)))
    ensures deleted <= |pending| && AllDeleted(old(client.server.drives), pending, client.fates, old(client.calls), deleted)
    ensures deleted < |pending| ==>
              !AllDeleted(old(client.server.drives), pending, client.fates, old(client.calls), deleted + 1)
    ensures client.server.drives == old(client.server.drives) - Before(pending, deleted)
    ensures end == Failed(true) <==> Finds(old(client.server.drives), pending, deleted)
                                     && client.fates(old(client.calls) + deleted).FailsHalfway?
    ensures deleted < |pending| ==>
              && client.saved == Without(old(client.saved), Before(pending, deleted))
              && Remains(client.server.connections, old(client.server.connections),
                         Before(pending, if end == Failed(true) then deleted + 1 else deleted))
    ensures AgreeOutside(client.saved, client.server.connections, From(pending, deleted))
    ensures old(Mirrors(client.saved, client.server.connections)) ==>
              (Mirrors(client.saved, client.server.connections) <==>
               !(end == Failed(true) && Lists(client.saved, pending[deleted])))
  {
    renamed := map[];
    var drawn := DriveEdges(edges);
    ghost var was := client.saved;
    end, deleted := client.DeleteDrives(pending);
    if !end.Completed? {
      return;
    }
    QueueEnds(pending);
    FewerLinks(drawn, uuids, was, client.saved);
    end, renamed := Reconcile(client, drawn, uuids);
  }

  /** After a successful sync, saving the renamed canvas again has nothing to drop and nothing to create
      exactly when no drawn link carries a `null` handle: the server records that as absent, and the
      client's strict comparison never calls such a link saved. */
  lemma ResaveIsQuietIff(saved: Saved, drawn: seq<CanvasEdge>, renamed: map<string, string>)
    requires Converged(saved, drawn, renamed)
    ensures (forall i :: 0 <= i < |drawn| ==> IsSaved(drawn[i].(id := FinalId(drawn[i], renamed)), saved)) <==>
            (forall i :: 0 <= i < |drawn| ==> !drawn[i].sourceHandle.Null?)
  {
    forall i | 0 <= i < |drawn|
      ensures IsSaved(drawn[i].(id := FinalId(drawn[i], renamed)), saved) <==> !drawn[i].sourceHandle.Null?
    {
      assert Holds(saved, FinalId(drawn[i], renamed), drawn[i]);
    }
  }

  lemma OneLinkMirrored(link: DriveConnection)
    requires Stored(link)
    ensures Table([link]) && Mirrors(map[link.id := link], [link])
  {
    var saved := map[link.id := link];
    assert link in [link];
    assert forall c :: c in [link] ==> Known(saved, c);
    assert forall id :: id in saved ==> Backed(saved, [link], id);
  }

  lemma NothingDrawn(saved: Saved)
    ensures DrawnLinks(DriveEdges([])) && SameLinks(DriveEdges([]), saved) && FreshLinks([], saved, 0)
  {}

  lemma FewerAgree(saved: Saved, connections: seq<DriveConnection>, drives: set<string>)
    requires Mirrors(saved, connections)
    ensures AgreeOutside(saved, connections, drives)
  {
    assert forall c :: c in connections ==> Known(saved, c);
    assert forall id :: id in saved ==> Backed(saved, connections, id);
  }

  lemma OneQueued(driveId: string)
    ensures Before([driveId], 0) == {} && Before([driveId], 1) == {driveId} == From([driveId], 0)
  {
    assert [driveId][0] == driveId;
  }

  /** Deleting the one drive whose links are all that is saved goes through. */
  lemma OneDeletionGoesThrough(saved: Saved, driveId: string, workspaces: set<string>)
    requires Without(saved, {driveId}) == map[]
    ensures GoesThrough(saved, DriveEdges([]), [driveId], {driveId}, workspaces, (n: nat) => Works, 0)
  {
    OneQueued(driveId);
  }

  lemma RowRemains(c: DriveConnection, connections: seq<DriveConnection>, was: seq<DriveConnection>, drives: set<string>)
    requires Remains(connections, was, drives) && c in connections
    ensures c in was && c.driveId !in drives
  {
    assert Remaining(c, connections, was, drives);
  }

  lemma NothingRemains(connections: seq<DriveConnection>, link: DriveConnection)
    requires Remains(connections, [link], {link.driveId})
    ensures connections == []
  {
    if connections != [] {
      RowRemains(connections[0], connections, [link], {link.driveId});
    }
  }

  lemma NothingSaved(saved: Saved, connections: seq<DriveConnection>, renamed: map<string, string>)
    requires Converged(saved, [], renamed) && Mirrors(saved, connections)
    ensures saved == map[] && connections == []
  {
    if connections != [] {
      RowIsListed(saved, connections, connections[0]);
    }
  }

  /** One drive with one link: its deletion fails halfway and leaves the mirror behind. */
  method HalfwayOnce(server: Server, link: DriveConnection) returns (end: SyncEnd, mirror: Saved)
    requires server.connections == [link] && Stored(link) && link.driveId in server.drives
    modifies server`drives, server`connections
    ensures end == Failed(true) && mirror == map[link.id := link]
    ensures server.connections == [] && server.drives == old(server.drives)
  {
    mirror := map[link.id := link];
    OneLinkMirrored(link);
    FewerAgree(mirror, [link], From([link.driveId], 0));
    NothingDrawn(mirror);
    OneQueued(link.driveId);
    WithoutNone(mirror);
    var client := new Client(mirror, server, (n: nat) => FailsHalfway);
    var deleted, renamed;
    end, deleted, renamed := SyncDrives(client, [], [link.driveId], []);
    assert !AllWork(client.fates, 0, 1) by { OneFails(client.fates, 0, 0, 1); }
    NothingRemains(server.connections, link);
    mirror := client.saved;
  }

  /** Deleting the drive again repairs it. */
  method DeleteAgain(server: Server, mirror: Saved, driveId: string) returns (end: SyncEnd, mirrorAfter: Saved)
    requires server.connections == [] && server.drives == {driveId}
    requires forall id :: id in mirror ==> mirror[id].driveId == driveId
    modifies server`drives, server`connections
    ensures end == Completed && mirrorAfter == map[] && server.connections == [] && server.drives == {}
  {
    NothingDrawn(mirror);
    OneQueued(driveId);
    assert Without(mirror, {driveId}) == map[];
    var fates := (n: nat) => Works;
    OneDeletionGoesThrough(mirror, driveId, server.workspaces);
    var client := new Client(mirror, server, fates);
    var deleted, renamed;
    end, deleted, renamed := SyncDrives(client, [], [driveId], []);
    NothingSaved(client.saved, server.connections, renamed);
    mirrorAfter := client.saved;
  }

  /** The mirror left behind, and repaired, from nothing. */
  method HalfwayHappens()
    returns (first: SyncEnd, behind: Saved, table: seq<DriveConnection>, again: SyncEnd, after: Saved, left: seq<DriveConnection>)
    ensures first == Failed(true) && |behind| == 1 && table == []
    ensures again == Completed && after == map[] && left == []
  {
    var link := DriveConnection(Mint(Link, "u"), "drive", "workspace", Undefined, Undefined);
    MintRecognised(Link, "u");
    var server := new Server({"drive"}, {"workspace"}, [link]);
    first, behind := HalfwayOnce(server, link);
    table := server.connections;
    again, after := DeleteAgain(server, behind, "drive");
    left := server.connections;
  }
}
