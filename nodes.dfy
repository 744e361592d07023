/** The nodes service: node CRUD behind two ownership checks. Every mutation
    runs its check first and leaves the node table as it was when the check
    fails; a successful mutation touches only the one node it names. */
module Nodes {
  import opened Common
  import opened Entities
  import opened Store
  import Tables

  /** The fields `create` accepts; a missing `position` is `None`. */
  datatype CreateNodeDto = CreateNodeDto(
    nodeType: NodeType,
    name: string,
    content: Option<NodeContent>,
    position: Option<Position>)

  /** The fields `update` accepts; a missing field is `None` and leaves the column as it is. */
  datatype UpdateNodeDto = UpdateNodeDto(
    name: Option<string>,
    content: Option<NodeContent>,
    position: Option<Position>)

  /** `checkNodeAccess`: a missing node is NotFound; a node whose funnel
      belongs to another user is Forbidden. */
  function CheckNodeAccess(funnels: map<string, Funnel>, nodes: map<string, Node>, nodeId: string, userId: string): (r: Result<Node>)
    requires NodesOwned(funnels, nodes)
    ensures r.Err? && r.error.NotFound? <==> nodeId !in nodes
    ensures r.Err? && r.error.Forbidden? <==> nodeId in nodes && funnels[nodes[nodeId].funnelId].userId != userId
    ensures r.Ok? <==> nodeId in nodes && funnels[nodes[nodeId].funnelId].userId == userId
    ensures r.Ok? ==> r.value == nodes[nodeId]
  {
    if nodeId !in nodes then Err(NotFound("Node not found"))
    else if funnels[nodes[nodeId].funnelId].userId != userId then Err(Forbidden("Access denied"))
    else Ok(nodes[nodeId])
  }

  /** The node `update` writes: each field the DTO carries replaces the column. */
  function ApplyUpdate(n: Node, dto: UpdateNodeDto): (m: Node)
    ensures m.id == n.id && m.funnelId == n.funnelId && m.nodeType == n.nodeType && m.createdAt == n.createdAt
    ensures m.name == dto.name.GetOr(n.name)
    ensures m.content == (if dto.content.Some? then dto.content else n.content)
    ensures m.position == dto.position.GetOr(n.position)
  {
    n.(name := dto.name.GetOr(n.name),
       content := if dto.content.Some? then dto.content else n.content,
       position := dto.position.GetOr(n.position))
  }

  /** `findAllByFunnel`: after the funnel check, exactly the funnel's nodes,
      each once, oldest first. */
  method FindAllByFunnel(db: Db, funnelId: string, userId: string) returns (r: Result<seq<Node>>)
    requires db.Valid()
    ensures r.Err? <==> CheckFunnelAccess(db.funnels, funnelId, userId).Err?
    ensures r.Err? ==> r.error == CheckFunnelAccess(db.funnels, funnelId, userId).error
    ensures r.Ok? ==> forall n :: n in r.value <==> n in db.nodes.Values && n.funnelId == funnelId
    ensures r.Ok? ==> forall i, j :: 0 <= i < j < |r.value| ==> r.value[i].id != r.value[j].id
    ensures r.Ok? ==> forall i, j :: 0 <= i < j < |r.value| ==> r.value[i].createdAt <= r.value[j].createdAt
  {
    var access := CheckFunnelAccess(db.funnels, funnelId, userId);
    if access.Err? {
      return Err(access.error);
    }
    var rows := NodesOfFunnel(db, funnelId);
    return Ok(rows);
  }

  /** The nodes of one funnel in `createdAt` order, without any access check
      (the query behind `findAllByFunnel`, `findOne` and the bot's start handler). */
  method NodesOfFunnel(db: Db, funnelId: string) returns (rows: seq<Node>)
    requires db.Valid()
    ensures forall n :: n in rows <==> n in db.nodes.Values && n.funnelId == funnelId
    ensures forall i, j :: 0 <= i < j < |rows| ==> rows[i].id != rows[j].id
    ensures forall i, j :: 0 <= i < j < |rows| ==> rows[i].createdAt <= rows[j].createdAt
  {
    var ids := Tables.FindMany(db.nodes, (n: Node) => n.funnelId == funnelId, (n: Node) => n.createdAt);
    rows := Tables.Rows(db.nodes, ids);
    forall n | n in db.nodes.Values && n.funnelId == funnelId
      ensures n in rows
    {
      var k :| k in db.nodes && db.nodes[k] == n;
      assert k in ids;
      var i :| 0 <= i < |ids| && ids[i] == k;
      assert rows[i] == n;
    }
  }

  /** `create`: the funnel check, then one new node under `newId` with the
      path's funnel id and position (0, 0) when none is given. */
  method Create(db: Db, funnelId: string, userId: string, dto: CreateNodeDto, newId: string, now: int)
    returns (r: Result<Node>)
    requires db.Valid() && newId !in db.nodes
    modifies db
    ensures db.Valid() && OnlyNodesChanged(db)
    ensures r.Err? <==> CheckFunnelAccess(db.funnels, funnelId, userId).Err?
    ensures r.Err? ==> r.error == CheckFunnelAccess(db.funnels, funnelId, userId).error && db.nodes == old(db.nodes)
    ensures r.Ok? ==> r.value == Node(newId, funnelId, dto.nodeType, dto.name, dto.content,
                                     dto.position.GetOr(Position(0, 0)), now)
    ensures r.Ok? ==> db.nodes == old(db.nodes)[newId := r.value]
  {
    var access := CheckFunnelAccess(db.funnels, funnelId, userId);
    if access.Err? {
      return Err(access.error);
    }
    var node := Node(newId, funnelId, dto.nodeType, dto.name, dto.content, dto.position.GetOr(Position(0, 0)), now);
    db.nodes := db.nodes[newId := node];
    return Ok(node);
  }

  /** `update`: the node check, then the DTO's fields written over that one node. */
  method Update(db: Db, id: string, userId: string, dto: UpdateNodeDto) returns (r: Result<Node>)
    requires db.Valid()
    modifies db
    ensures db.Valid() && OnlyNodesChanged(db)
    ensures r.Err? <==> CheckNodeAccess(db.funnels, old(db.nodes), id, userId).Err?
    ensures r.Err? ==> r.error == CheckNodeAccess(db.funnels, old(db.nodes), id, userId).error && db.nodes == old(db.nodes)
    ensures r.Ok? ==> r.value == ApplyUpdate(old(db.nodes)[id], dto) && db.nodes == old(db.nodes)[id := r.value]
  {
    var access := CheckNodeAccess(db.funnels, db.nodes, id, userId);
    if access.Err? {
      return Err(access.error);
    }
    var node := ApplyUpdate(access.value, dto);
    db.nodes := db.nodes[id := node];
    return Ok(node);
  }

  /** `remove`: the node check, then that one node deleted. */
  method Remove(db: Db, id: string, userId: string) returns (r: Result<Node>)
    requires db.Valid()
    modifies db
    ensures db.Valid() && OnlyNodesChanged(db)
    ensures r.Err? <==> CheckNodeAccess(db.funnels, old(db.nodes), id, userId).Err?
    ensures r.Err? ==> r.error == CheckNodeAccess(db.funnels, old(db.nodes), id, userId).error && db.nodes == old(db.nodes)
    ensures r.Ok? ==> r.value == old(db.nodes)[id] && db.nodes == old(db.nodes) - {id}
  {
    var access := CheckNodeAccess(db.funnels, db.nodes, id, userId);
    if access.Err? {
      return Err(access.error);
    }
    db.nodes := db.nodes - {id};
    return Ok(access.value);
  }

  /** A node is accessible exactly when its funnel is: the node check is the
      funnel check applied to the node's funnel. */
  lemma NodeAccessIsFunnelAccess(funnels: map<string, Funnel>, nodes: map<string, Node>, id: string, userId: string)
    requires NodesOwned(funnels, nodes) && id in nodes
    ensures CheckNodeAccess(funnels, nodes, id, userId).Ok? <==> CheckFunnelAccess(funnels, nodes[id].funnelId, userId).Ok?
  {
  }
}
