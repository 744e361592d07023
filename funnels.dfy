/** The funnels service: paged listing with its filter, owner-checked
    read/update/remove, and funnels instantiated from the built-in templates. */
module Funnels {
  import opened Common
  import opened Entities
  import opened Store
  import opened FunnelQuery
  import Tables
  import Nodes

  // ---------------------------------------------------------------------
  // Templates

  datatype TemplateNode = TemplateNode(nodeType: NodeType, name: string, content: NodeContent)

  datatype Template = Template(key: string, name: string, description: string, nodes: seq<TemplateNode>)

  /** An entry of `getTemplates`. */
  datatype TemplateInfo = TemplateInfo(id: string, name: string, description: string, nodesCount: nat)

  function MessageNode(name: string, text: string): TemplateNode {
    TemplateNode(NodeType.Message, name, NoContent.(text := Some(text)))
  }

  function PaymentNode(name: string, product: string, price: int): TemplateNode {
    TemplateNode(NodeType.Payment, name, NoContent.(productName := Some(product), price := Some(price)))
  }

  /** The keys of the template table, in declaration order. */
  const TemplateKeys: seq<string> := ["course", "consultation", "leadmagnet", "empty"]

  /** The template stored under one of the table's keys. */
  function TemplateOf(key: string): (t: Template)
    requires key in TemplateKeys
    ensures t.key == key && |t.nodes| <= MaxTemplateNodes
  {
    if key == "course" then
      Template("course", "Продажа курса", "Шаблон для продажи онлайн-курса", CourseNodes())
    else if key == "consultation" then
      Template("consultation", "Запись на консультацию", "Шаблон для записи на консультацию", ConsultationNodes())
    else if key == "leadmagnet" then
      Template("leadmagnet", "Лид-магнит", "Бесплатный материал для сбора контактов", LeadMagnetNodes())
    else
      Template("empty", "Пустая воронка", "Начните с чистого листа", [])
  }

  /** The template table, in declaration order. */
  function Templates(): (ts: seq<Template>)
    ensures |ts| == |TemplateKeys| && forall i :: 0 <= i < |ts| ==> ts[i] == TemplateOf(TemplateKeys[i])
  {
    seq(|TemplateKeys|, i requires 0 <= i < |TemplateKeys| => TemplateOf(TemplateKeys[i]))
  }

  function CourseNodes(): (ns: seq<TemplateNode>)
    ensures |ns| == 5
  {
    [ MessageNode("Приветствие", "Привет! 👋 Добро пожаловать на мой курс."),
      MessageNode("О курсе", "В этом курсе вы узнаете..."),
      TemplateNode(NodeType.Button, "Выбор",
        NoContent.(text := Some("Хотите узнать больше?"), buttons := Some([ButtonSpec(Some("Да, расскажите!"), None)]))),
      PaymentNode("Оплата", "Онлайн-курс", 4990),
      MessageNode("Спасибо", "Спасибо за покупку! Вот ваш доступ...") ]
  }

  function ConsultationNodes(): (ns: seq<TemplateNode>)
    ensures |ns| == 4
  {
    [ MessageNode("Приветствие", "Здравствуйте! Я помогу записать вас на консультацию."),
      MessageNode("Описание", "На консультации мы разберём..."),
      PaymentNode("Оплата", "Консультация 60 мин", 2990),
      MessageNode("Подтверждение", "Отлично! Я свяжусь с вами для выбора времени.") ]
  }

  function LeadMagnetNodes(): (ns: seq<TemplateNode>)
    ensures |ns| == 3
  {
    [ MessageNode("Приветствие", "Привет! У меня есть для тебя подарок 🎁"),
      MessageNode("Описание", "Это бесплатный гайд/чеклист/..."),
      MessageNode("Выдача", "Держи ссылку на материал: ...") ]
  }

  /** `getTemplates`: one entry per template of the table, in its order, with
      the template's key, name and description and its node count. */
  function GetTemplates(): (r: seq<TemplateInfo>)
    ensures |r| == |TemplateKeys|
    ensures forall i :: 0 <= i < |r| ==>
      var t := TemplateOf(TemplateKeys[i]);
      r[i].id == TemplateKeys[i] && r[i].name == t.name && r[i].description == t.description && r[i].nodesCount == |t.nodes|
  {
    var ts := Templates();
    seq(|ts|, i requires 0 <= i < |ts| => TemplateInfo(ts[i].key, ts[i].name, ts[i].description, |ts[i].nodes|))
  }

  /** The listing names course, consultation, leadmagnet and empty, with 5, 4,
      3 and 0 nodes. */
  lemma TemplatesListed()
    ensures var r := GetTemplates();
      && |r| == 4
      && r[0].id == "course" && r[1].id == "consultation" && r[2].id == "leadmagnet" && r[3].id == "empty"
      && r[0].nodesCount == 5 && r[1].nodesCount == 4 && r[2].nodesCount == 3 && r[3].nodesCount == 0
  {
  }

  /** The template stored under `key`, if the table has one: only the
      table's own keys name a template. */
  function FindTemplate(key: string): (r: Option<Template>)
    ensures r.Some? <==> key in TemplateKeys
    ensures r.Some? ==> r.value == TemplateOf(key) && r.value.key == key
    ensures r.Some? ==> |r.value.nodes| <= MaxTemplateNodes
  {
    if key in TemplateKeys then Some(TemplateOf(key)) else None
  }

  /** A template is found exactly when it is an entry of the table. */
  lemma FindTemplateInTable(key: string)
    ensures FindTemplate(key).Some? <==> exists i :: 0 <= i < |Templates()| && Templates()[i].key == key
    ensures FindTemplate(key).Some? ==> FindTemplate(key).value in Templates()
  {
    if key in TemplateKeys {
      var i :| 0 <= i < |TemplateKeys| && TemplateKeys[i] == key;
      assert Templates()[i] == TemplateOf(key);
    }
  }

  // ---------------------------------------------------------------------
  // The template lookup as written: `this.templates[templateId]` is a plain
  // property read, so it also finds what every object inherits.

  /** Members every object inherits from `Object.prototype`, with the `name`
      each one carries (`__proto__` is an object without one). */
  function InheritedMember(key: string): Option<Option<string>> {
    if key == "constructor" then Some(Some("Object"))
    else if key == "__proto__" then Some(None)
    else if key in ["toString", "toLocaleString", "valueOf", "hasOwnProperty", "isPrototypeOf",
                    "propertyIsEnumerable", "__defineGetter__", "__defineSetter__",
                    "__lookupGetter__", "__lookupSetter__"] then Some(Some(key))
    else None
  }

  datatype Lookup = Own(template: Template) | Inherited(nameProp: Option<string>) | Absent

  /** What `this.templates[templateId]` yields. */
  function LookupAsWritten(key: string): Lookup {
    match FindTemplate(key)
    case Some(t) => Own(t)
    case None =>
      match InheritedMember(key)
      case Some(n) => Inherited(n)
      case None => Absent
  }

  /** How `createFromTemplate` as written ends. */
  datatype TemplateOutcome =
    | Instantiated(funnelName: string, nodeCount: nat)
    | NotFoundNothingWritten
    | FunnelWrittenThenTypeError(funnelName: string)
    | RejectedNothingWritten

  /** `createFromTemplate` as written: an inherited member passes the
      `!template` guard, the funnel row is created, and reading
      `template.nodes.length` then throws, leaving the funnel behind. */
  function CreateFromTemplateAsWritten(key: string, name: Option<string>): (o: TemplateOutcome)
    ensures LookupAsWritten(key).Absent? <==> o.NotFoundNothingWritten?
  {
    match LookupAsWritten(key)
    case Own(t) => Instantiated(OrString(name, t.name), |t.nodes|)
    case Absent => NotFoundNothingWritten
    case Inherited(n) =>
      if Truthy(name) then FunnelWrittenThenTypeError(name.value)
      else if n.Some? then FunnelWrittenThenTypeError(n.value)
      else RejectedNothingWritten
  }

  /** The guard lets a key that names no template through: "toString" is not
      a template, yet a funnel named "toString" is written before the call fails. */
  lemma InheritedKeyPassesGuard()
    ensures FindTemplate("toString").None?
    ensures CreateFromTemplateAsWritten("toString", None) == FunnelWrittenThenTypeError("toString")
  {
  }

  /** The nodes `createFromTemplate` writes: node `i` copies the template's
      type, name and content and sits at (0, 100·i). */
  function TemplateNodeRows(t: Template, funnelId: string, ids: seq<string>, now: int): (rows: seq<Node>)
    requires |ids| >= |t.nodes|
    ensures |rows| == |t.nodes|
    ensures forall i :: 0 <= i < |rows| ==>
      && rows[i].id == ids[i] && rows[i].funnelId == funnelId
      && rows[i].nodeType == t.nodes[i].nodeType && rows[i].name == t.nodes[i].name
      && rows[i].content == Some(t.nodes[i].content)
      && rows[i].position == Position(0, 100 * i)
  {
    seq(|t.nodes|, i requires 0 <= i < |t.nodes| =>
      Node(ids[i], funnelId, t.nodes[i].nodeType, t.nodes[i].name, Some(t.nodes[i].content), Position(0, i * 100), now))
  }

  // ---------------------------------------------------------------------
  // Listing

  /** The `where` of `findAll`: always the owner; the status only when one is
      given; a case-insensitive name match only when the search is non-empty. */
  predicate Matches(f: Funnel, userId: string, q: Query) {
    && f.userId == userId
    && (q.status.Some? ==> f.status == q.status.value)
    && (Truthy(q.search) ==> ContainsInsensitive(f.name, q.search.value))
  }

  /** Rows skipped before the requested page. */
  function Skip(q: Query): (s: nat)
    requires ValidQuery(q)
    ensures s == (q.page - 1) * q.limit
  {
    (q.page - 1) * q.limit
  }

  /** `Math.ceil(total / limit)`. */
  function TotalPages(total: nat, limit: int): (p: nat)
    requires limit >= 1
  {
    (total + limit - 1) / limit
  }

  /** The page count covers every row and no page is wholly empty; no rows, no pages. */
  lemma TotalPagesBounds(total: nat, limit: int)
    requires limit >= 1
    ensures total == 0 <==> TotalPages(total, limit) == 0
    ensures total > 0 ==> TotalPages(total, limit) * limit >= total
    ensures total > 0 ==> (TotalPages(total, limit) - 1) * limit < total
  {
    var p := TotalPages(total, limit);
    var m := total + limit - 1;
    assert m == p * limit + m % limit;
    assert 0 <= m % limit < limit;
  }

  /** A requested page holds rows exactly when it is one of the counted pages. */
  lemma PageHoldsRowsIff(total: nat, q: Query)
    requires ValidQuery(q)
    ensures Skip(q) < total <==> q.page <= TotalPages(total, q.limit)
  {
    TotalPagesBounds(total, q.limit);
    var p := TotalPages(total, q.limit);
    if q.page <= p && total > 0 {
      assert (q.page - 1) * q.limit <= (p - 1) * q.limit by {
        MulMonotone(q.page - 1, p - 1, q.limit);
      }
    }
    if q.page > p {
      assert p * q.limit <= (q.page - 1) * q.limit by {
        MulMonotone(p, q.page - 1, q.limit);
      }
    }
  }

  lemma MulMonotone(a: int, b: int, c: int)
    requires 0 <= a <= b && c >= 0
    ensures a * c <= b * c
  {
  }

  datatype Meta = Meta(total: nat, page: int, limit: int, totalPages: nat)

  /** A listed funnel with its node count (`_count.nodes`). */
  datatype FunnelRow = FunnelRow(funnel: Funnel, nodesCount: nat)

  datatype FunnelPage = FunnelPage(data: seq<FunnelRow>, meta: Meta)

  function NodeCount(nodes: map<string, Node>, funnelId: string): nat {
    |set k | k in nodes && nodes[k].funnelId == funnelId|
  }

  /** The ids of every funnel the query selects. */
  function MatchingIds(funnels: map<string, Funnel>, userId: string, q: Query): set<string> {
    set k | k in funnels && Matches(funnels[k], userId, q)
  }

  /** `findAll`: the selected funnels newest first (`all`), the requested page
      of it, and the page count of the whole selection. */
  method FindAll(db: Db, userId: string, q: Query) returns (page: FunnelPage, ghost all: seq<Funnel>)
    requires db.Valid() && ValidQuery(q)
    ensures forall f :: f in all <==> f in db.funnels.Values && Matches(f, userId, q)
    ensures forall i, j :: 0 <= i < j < |all| ==> all[i].id != all[j].id && all[i].createdAt >= all[j].createdAt
    ensures page.meta == Meta(|all|, q.page, q.limit, TotalPages(|all|, q.limit))
    ensures |all| == |MatchingIds(db.funnels, userId, q)|
    ensures |page.data| <= q.limit
    ensures forall i :: 0 <= i < |page.data| ==>
      Skip(q) + i < |all| && page.data[i] == FunnelRow(all[Skip(q) + i], NodeCount(db.nodes, all[Skip(q) + i].id))
    ensures Skip(q) < |all| ==> |page.data| == if Skip(q) + q.limit <= |all| then q.limit else |all| - Skip(q)
    ensures Skip(q) >= |all| ==> page.data == []
  {
    var ids := Tables.FindMany(db.funnels, (f: Funnel) => Matches(f, userId, q), (f: Funnel) => -f.createdAt);
    var rows := Tables.Rows(db.funnels, ids);
    all := rows;
    forall f | f in db.funnels.Values && Matches(f, userId, q)
      ensures f in rows
    {
      var k :| k in db.funnels && db.funnels[k] == f;
      assert k in ids;
      var i :| 0 <= i < |ids| && ids[i] == k;
      assert rows[i] == f;
    }
    Tables.DistinctCardinality(ids);
    assert (set id | id in ids) == MatchingIds(db.funnels, userId, q);
    var selected := Tables.SkipTake(rows, Skip(q), q.limit);
    var nodes := db.nodes;
    var data := seq(|selected|, i requires 0 <= i < |selected| => FunnelRow(selected[i], NodeCount(nodes, selected[i].id)));
    page := FunnelPage(data, Meta(|rows|, q.page, q.limit, TotalPages(|rows|, q.limit)));
  }

  // ---------------------------------------------------------------------
  // Owner-checked access

  datatype FunnelWithNodes = FunnelWithNodes(funnel: Funnel, nodes: seq<Node>)

  /** `findOne`: NotFound, then Forbidden; otherwise the funnel with its nodes oldest first. */
  method FindOne(db: Db, id: string, userId: string) returns (r: Result<FunnelWithNodes>)
    requires db.Valid()
    ensures r.Err? <==> CheckFunnelAccess(db.funnels, id, userId).Err?
    ensures r.Err? ==> r.error == CheckFunnelAccess(db.funnels, id, userId).error
    ensures r.Ok? ==> r.value.funnel == db.funnels[id]
    ensures r.Ok? ==> forall n :: n in r.value.nodes <==> n in db.nodes.Values && n.funnelId == id
    ensures r.Ok? ==> forall i, j :: 0 <= i < j < |r.value.nodes| ==>
      r.value.nodes[i].id != r.value.nodes[j].id && r.value.nodes[i].createdAt <= r.value.nodes[j].createdAt
  {
    var access := CheckFunnelAccess(db.funnels, id, userId);
    if access.Err? {
      return Err(access.error);
    }
    var nodes := Nodes.NodesOfFunnel(db, id);
    return Ok(FunnelWithNodes(access.value, nodes));
  }

  datatype CreateFunnelDto = CreateFunnelDto(name: string, description: Option<string>)

  datatype UpdateFunnelDto = UpdateFunnelDto(name: Option<string>, description: Option<string>, status: Option<FunnelStatus>)

  /** The funnel `update` writes: each field the DTO carries replaces the column. */
  function ApplyUpdate(f: Funnel, dto: UpdateFunnelDto): (g: Funnel)
    ensures g.id == f.id && g.userId == f.userId && g.createdAt == f.createdAt
    ensures g.name == dto.name.GetOr(f.name)
    ensures g.description == (if dto.description.Some? then dto.description else f.description)
    ensures g.status == dto.status.GetOr(f.status)
  {
    f.(name := dto.name.GetOr(f.name),
       description := if dto.description.Some? then dto.description else f.description,
       status := dto.status.GetOr(f.status))
  }

  /** `create`: a new DRAFT funnel owned by the caller. */
  method Create(db: Db, userId: string, dto: CreateFunnelDto, newId: string, now: int) returns (f: Funnel)
    requires db.Valid() && newId !in db.funnels
    modifies db
    ensures db.Valid()
    ensures f == Funnel(newId, userId, dto.name, dto.description, FunnelStatus.Draft, now)
    ensures db.funnels == old(db.funnels)[newId := f]
    ensures db.nodes == old(db.nodes) && db.sessions == old(db.sessions) && OnlyFunnelTablesChanged(db)
  {
    f := Funnel(newId, userId, dto.name, dto.description, FunnelStatus.Draft, now);
    db.funnels := db.funnels[newId := f];
  }

  /** `update`: `findOne`'s checks first; on failure nothing changes. */
  method Update(db: Db, id: string, userId: string, dto: UpdateFunnelDto) returns (r: Result<Funnel>)
    requires db.Valid()
    modifies db
    ensures db.Valid()
    ensures db.nodes == old(db.nodes) && db.sessions == old(db.sessions) && OnlyFunnelTablesChanged(db)
    ensures r.Err? <==> CheckFunnelAccess(old(db.funnels), id, userId).Err?
    ensures r.Err? ==> r.error == CheckFunnelAccess(old(db.funnels), id, userId).error && db.funnels == old(db.funnels)
    ensures r.Ok? ==> r.value == ApplyUpdate(old(db.funnels)[id], dto) && db.funnels == old(db.funnels)[id := r.value]
  {
    var access := CheckFunnelAccess(db.funnels, id, userId);
    if access.Err? {
      return Err(access.error);
    }
    var f := ApplyUpdate(access.value, dto);
    db.funnels := db.funnels[id := f];
    return Ok(f);
  }

  /** `remove`: `findOne`'s checks first; on success the funnel goes, and with
      it (by the schema's cascade) its nodes and sessions. */
  method Remove(db: Db, id: string, userId: string) returns (r: Result<Funnel>)
    requires db.Valid()
    modifies db
    ensures db.Valid() && OnlyFunnelTablesChanged(db)
    ensures r.Err? <==> CheckFunnelAccess(old(db.funnels), id, userId).Err?
    ensures r.Err? ==> r.error == CheckFunnelAccess(old(db.funnels), id, userId).error
    ensures r.Err? ==> db.funnels == old(db.funnels) && db.nodes == old(db.nodes) && db.sessions == old(db.sessions)
    ensures r.Ok? ==> r.value == old(db.funnels)[id] && db.funnels == old(db.funnels) - {id}
    ensures r.Ok? ==> db.nodes == map k | k in old(db.nodes) && old(db.nodes)[k].funnelId != id :: old(db.nodes)[k]
    ensures r.Ok? ==> db.sessions == map k | k in old(db.sessions) && old(db.sessions)[k].funnelId != id :: old(db.sessions)[k]
  {
    var access := CheckFunnelAccess(db.funnels, id, userId);
    if access.Err? {
      return Err(access.error);
    }
    db.nodes := map k | k in db.nodes && db.nodes[k].funnelId != id :: db.nodes[k];
    db.sessions := map k | k in db.sessions && db.sessions[k].funnelId != id :: db.sessions[k];
    db.funnels := db.funnels - {id};
    return Ok(access.value);
  }

  /** The most nodes a template has. */
  const MaxTemplateNodes := 5

  /** The node table after `createMany` of `rows`, row `i` under `ids[i]`. */
  function AddRows(nodes: map<string, Node>, rows: seq<Node>, ids: seq<string>): map<string, Node>
    requires |rows| == |ids|
    decreases |rows|
  {
    if rows == [] then nodes
    else
      var n := |rows| - 1;
      AddRows(nodes, rows[..n], ids[..n])[ids[n] := rows[n]]
  }

  /** With new, distinct ids, `createMany` adds exactly the rows and keeps every
      existing node as it was. */
  lemma {:induction false} AddRowsFacts(nodes: map<string, Node>, rows: seq<Node>, ids: seq<string>, funnels: map<string, Funnel>)
    requires |rows| == |ids|
    requires forall i, j :: 0 <= i < j < |ids| ==> ids[i] != ids[j]
    requires forall i :: 0 <= i < |ids| ==> ids[i] !in nodes
    requires forall k :: k in nodes ==> nodes[k].id == k && nodes[k].funnelId in funnels
    requires forall i :: 0 <= i < |rows| ==> rows[i].id == ids[i] && rows[i].funnelId in funnels
    ensures forall k :: k in AddRows(nodes, rows, ids) ==>
      AddRows(nodes, rows, ids)[k].id == k && AddRows(nodes, rows, ids)[k].funnelId in funnels
    ensures forall k :: k in AddRows(nodes, rows, ids) <==> k in nodes || k in ids
    ensures forall k :: k in nodes ==> AddRows(nodes, rows, ids)[k] == nodes[k]
    ensures forall i :: 0 <= i < |rows| ==> AddRows(nodes, rows, ids)[ids[i]] == rows[i]
    decreases |rows|
  {
    if rows != [] {
      var n := |rows| - 1;
      var rs, front := rows[..n], ids[..n];
      assert forall i :: 0 <= i < n ==> rs[i] == rows[i] && front[i] == ids[i];
      AddRowsFacts(nodes, rs, front, funnels);
      assert ids == front + [ids[n]];
      assert forall i :: 0 <= i < n ==> ids[i] != ids[n];
    }
  }

  /** The writes of `createFromTemplate` once it has its rows: the funnel,
      then its nodes under the first `|rows|` of the fresh ids `ids`, every
      other row untouched. */
  method CreateWithNodes(db: Db, funnel: Funnel, rows: seq<Node>, ids: seq<string>)
    requires db.Valid() && funnel.id !in db.funnels
    requires |rows| <= |ids|
    requires forall i, j :: 0 <= i < j < |ids| ==> ids[i] != ids[j]
    requires forall i :: 0 <= i < |ids| ==> ids[i] !in db.nodes
    requires forall i :: 0 <= i < |rows| ==> rows[i].id == ids[i] && rows[i].funnelId == funnel.id
    modifies db
    ensures db.Valid() && OnlyFunnelTablesChanged(db) && db.sessions == old(db.sessions)
    ensures db.funnels == old(db.funnels)[funnel.id := funnel]
    ensures db.nodes == AddRows(old(db.nodes), rows, ids[..|rows|])
  {
    var funnels := db.funnels[funnel.id := funnel];
    var used := ids[..|rows|];
    AddRowsFacts(db.nodes, rows, used, funnels);
    db.funnels, db.nodes := funnels, AddRows(db.nodes, rows, used);
  }

  /** `createFromTemplate`: an unknown template is NotFound before anything is
      written; otherwise the template is instantiated. */
  method CreateFromTemplate(db: Db, userId: string, templateId: string, name: Option<string>,
                            funnelId: string, nodeIds: seq<string>, now: int)
    returns (r: Result<FunnelWithNodes>)
    requires db.Valid() && funnelId !in db.funnels
    requires |nodeIds| >= MaxTemplateNodes
    requires forall i, j :: 0 <= i < j < |nodeIds| ==> nodeIds[i] != nodeIds[j]
    requires forall i :: 0 <= i < |nodeIds| ==> nodeIds[i] !in db.nodes
    modifies db
    ensures db.Valid() && OnlyFunnelTablesChanged(db) && db.sessions == old(db.sessions)
    ensures match FindTemplate(templateId)
      case None =>
        r == Err(NotFound("Template not found")) && db.funnels == old(db.funnels) && db.nodes == old(db.nodes)
      case Some(t) =>
        && r.Ok? && |t.nodes| <= |nodeIds|
        && r.value.funnel == Funnel(funnelId, userId, OrString(name, t.name), Some(t.description), FunnelStatus.Draft, now)
        && db.funnels == old(db.funnels)[funnelId := r.value.funnel]
        && r.value.nodes == TemplateNodeRows(t, funnelId, nodeIds, now)
        && db.nodes == AddRows(old(db.nodes), r.value.nodes, nodeIds[..|t.nodes|])
  {
    var found := FindTemplate(templateId);
    if found.None? {
      return Err(NotFound("Template not found"));
    }
    var t := found.value;
    var funnel := Funnel(funnelId, userId, OrString(name, t.name), Some(t.description), FunnelStatus.Draft, now);
    var rows := TemplateNodeRows(t, funnelId, nodeIds, now);
    CreateWithNodes(db, funnel, rows, nodeIds);
    return Ok(FunnelWithNodes(funnel, rows));
  }
}
