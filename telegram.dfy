/** The Telegram bot: what it answers to `/start <funnel id>`, how it renders
    one funnel node, and the deep link that starts a funnel. Sending replies,
    waiting and launching the bot are left to the Telegram client; the model
    stops at the action chosen. */
module Telegram {
  import opened Common
  import opened Entities
  import opened Store
  import Nodes
  import Funnels

  /** One inline keyboard button: its label and its `callback_data`. */
  datatype KeyboardButton = KeyboardButton(text: Option<string>, callbackData: string)

  /** What the bot does for a node or a `/start`: one reply (a BUTTON reply
      carries a one-row inline keyboard), a wait without a reply, or nothing. */
  datatype Action =
    | Reply(text: string, keyboard: Option<seq<KeyboardButton>>)
    | Wait(ms: int)
    | NoAction

  const EmptyMessage := "Пустое сообщение"
  const ChooseAction := "Выберите действие:"
  const UnknownType := "Неизвестный тип узла: "
  const InvalidLink := "Добро пожаловать! Эта ссылка недействительна."
  const FunnelUnavailable := "Воронка не найдена или неактивна."

  /** A template literal's rendering of an optional value: `undefined` when absent. */
  function Interpolate(s: Option<string>): string {
    if s.Some? then s.value else "undefined"
  }

  function InterpolateNum(n: Option<int>): string {
    if n.Some? then IntToString(n.value) else "undefined"
  }

  /** The keyboard button of one configured button. */
  function KeyButton(b: ButtonSpec): (k: KeyboardButton)
    ensures k.text == b.text
    ensures b.nextNodeId.Some? ==> k.callbackData == "node_" + b.nextNodeId.value
  {
    KeyboardButton(b.text, "node_" + Interpolate(b.nextNodeId))
  }

  const PaymentLabel := "💳 Оплата: "
  const PriceLabel := "\nЦена: "
  const PaymentFooter := "₽\n\n(Интеграция с ЮKassa будет добавлена позже)"

  /** The PAYMENT reply: the product and the price as the template literal renders them. */
  function PaymentText(c: NodeContent): string {
    PaymentLabel + Interpolate(c.productName) + PriceLabel + InterpolateNum(c.price) + PaymentFooter
  }

  /** `processNode`: the one action a node calls for, by its type; a node
      without content reads as `{}`. */
  function ProcessNode(n: Node): (a: Action)
    ensures n.nodeType == Message ==> a == Reply(OrString(n.content.GetOr(NoContent).text, EmptyMessage), None)
    ensures n.nodeType == Button <==> a.Reply? && a.keyboard.Some?
    ensures n.nodeType == Delay <==> a.Wait?
    ensures a.Wait? ==> a.ms >= 1000 || a.ms <= -1000
    ensures n.nodeType == NodeType.Payment ==> a == Reply(PaymentText(n.content.GetOr(NoContent)), None)
    ensures n.nodeType == Condition ==> a == Reply(UnknownType + "CONDITION", None)
    ensures !a.NoAction?
  {
    var c := n.content.GetOr(NoContent);
    match n.nodeType
    case Message => Reply(OrString(c.text, EmptyMessage), None)
    case Button =>
      var buttons := c.buttons.GetOr([]);
      Reply(OrString(c.text, ChooseAction), Some(seq(|buttons|, i requires 0 <= i < |buttons| => KeyButton(buttons[i]))))
    case Delay => Wait((if TruthyNum(c.seconds) then c.seconds.value else 1) * 1000)
    case Payment => Reply(PaymentText(c), None)
    case Condition => Reply(UnknownType + n.nodeType.Name(), None)
  }

  /** The BUTTON keyboard: one button per configured button, in order, each
      with its label and `node_` + its target; none configured, none shown. */
  lemma ButtonKeyboard(n: Node)
    requires n.nodeType == Button
    ensures var c := n.content.GetOr(NoContent);
      var buttons := c.buttons.GetOr([]);
      var a := ProcessNode(n);
      && a.text == OrString(c.text, ChooseAction)
      && |a.keyboard.value| == |buttons|
      && forall i :: 0 <= i < |buttons| ==>
           a.keyboard.value[i].text == buttons[i].text
           && a.keyboard.value[i].callbackData == "node_" + Interpolate(buttons[i].nextNodeId)
  {
  }

  /** A DELAY waits a second per configured second, and one second when none (or 0) is set. */
  lemma DelayMillis(n: Node)
    requires n.nodeType == Delay
    ensures var s := n.content.GetOr(NoContent).seconds;
      ProcessNode(n) == Wait(if s.Some? && s.value != 0 then s.value * 1000 else 1000)
  {
  }

  /** Where the parts of a five-part concatenation sit. */
  lemma FiveParts(l: string, x: string, m: string, y: string, f: string)
    ensures var t := l + x + m + y + f;
      var at := |l| + |x| + |m|;
      && IsPrefix(l, t) && |t| == at + |y| + |f|
      && t[|l|..|l| + |x|] == x && t[at..at + |y|] == y
  {
    var t := l + x + m + y + f;
    assert t == l + (x + (m + (y + f)));
  }

  /** The PAYMENT reply has no keyboard and names, after its label, the
      product and then the price (`undefined` for a missing one). */
  lemma PaymentReplyNamesProductAndPrice(n: Node)
    requires n.nodeType == NodeType.Payment
    ensures var c := n.content.GetOr(NoContent);
      var a := ProcessNode(n);
      var name := Interpolate(c.productName);
      var price := InterpolateNum(c.price);
      var at := |PaymentLabel| + |name| + |PriceLabel|;
      && a.Reply? && a.keyboard.None?
      && IsPrefix(PaymentLabel, a.text)
      && |a.text| == at + |price| + |PaymentFooter|
      && a.text[|PaymentLabel|..|PaymentLabel| + |name|] == name
      && a.text[at..at + |price|] == price
  {
    var c := n.content.GetOr(NoContent);
    FiveParts(PaymentLabel, Interpolate(c.productName), PriceLabel, InterpolateNum(c.price), PaymentFooter);
  }

  /** The `/start` handler: an empty payload is an invalid link, and the
      funnel named by it is not even looked up (`funnel` is that lookup);
      a missing or non-ACTIVE funnel is unavailable; otherwise its first
      node is rendered, and a funnel without nodes gets no answer. */
  function StartAction(payload: string, funnel: Option<Funnels.FunnelWithNodes>): (a: Action)
    ensures payload == "" ==> a == Reply(InvalidLink, None)
    ensures payload != "" && (funnel.None? || funnel.value.funnel.status != FunnelStatus.Active) ==> a == Reply(FunnelUnavailable, None)
    ensures payload != "" && funnel.Some? && funnel.value.funnel.status == FunnelStatus.Active ==>
      a == (if funnel.value.nodes == [] then NoAction else ProcessNode(funnel.value.nodes[0]))
  {
    if payload == "" then Reply(InvalidLink, None)
    else if funnel.None? || funnel.value.funnel.status != FunnelStatus.Active then Reply(FunnelUnavailable, None)
    else if funnel.value.nodes == [] then NoAction
    else ProcessNode(funnel.value.nodes[0])
  }

  /** An empty payload never depends on what a lookup would have found. */
  lemma EmptyPayloadIgnoresFunnel(f: Option<Funnels.FunnelWithNodes>, g: Option<Funnels.FunnelWithNodes>)
    ensures StartAction("", f) == StartAction("", g)
  {
  }

  /** Only the funnel's first node is ever rendered: whatever its later nodes,
      the answer is the same. */
  lemma OnlyFirstNodeRendered(payload: string, f: Funnel, first: Node, rest: seq<Node>, rest': seq<Node>)
    ensures StartAction(payload, Some(Funnels.FunnelWithNodes(f, [first] + rest)))
         == StartAction(payload, Some(Funnels.FunnelWithNodes(f, [first] + rest')))
  {
  }

  /** The `/start` handler over the tables: `funnel` is what the lookup by the
      payload finds (nothing is looked up for an empty payload), with its nodes
      oldest first, and it decides the answer; a node that is answered is one
      of the funnel's oldest. */
  method Start(db: Db, payload: string) returns (a: Action, funnel: Option<Funnels.FunnelWithNodes>)
    requires db.Valid()
    ensures payload == "" ==> a == Reply(InvalidLink, None)
    ensures payload != "" ==> (funnel.Some? <==> payload in db.funnels)
    ensures payload != "" && funnel.Some? ==>
      && funnel.value.funnel == db.funnels[payload]
      && (forall n :: n in funnel.value.nodes <==> n in db.nodes.Values && n.funnelId == payload)
      && (forall i, j :: 0 <= i < j < |funnel.value.nodes| ==> funnel.value.nodes[i].createdAt <= funnel.value.nodes[j].createdAt)
    ensures a == StartAction(payload, funnel)
    ensures payload != "" && funnel.Some? && funnel.value.funnel.status == FunnelStatus.Active && funnel.value.nodes != [] ==>
      exists first :: first in db.nodes.Values && first.funnelId == payload && a == ProcessNode(first) &&
        forall n :: n in db.nodes.Values && n.funnelId == payload ==> first.createdAt <= n.createdAt
  {
    funnel := None;
    if payload == "" {
      return Reply(InvalidLink, None), funnel;
    }
    if payload in db.funnels {
      var nodes := Nodes.NodesOfFunnel(db, payload);
      funnel := Some(Funnels.FunnelWithNodes(db.funnels[payload], nodes));
      if nodes != [] {
        var first := nodes[0];
        assert first in nodes;
        forall n | n in db.nodes.Values && n.funnelId == payload ensures first.createdAt <= n.createdAt {
          var i :| 0 <= i < |nodes| && nodes[i] == n;
          if i > 0 { assert nodes[0].createdAt <= nodes[i].createdAt; }
        }
      }
    }
    a := StartAction(payload, funnel);
  }

  // ---------------------------------------------------------------------
  // The deep link

  const LinkPrefix := "https://t.me/"
  const StartQuery := "?start="

  /** `getBotLink`: the bot's `t.me` link carrying the funnel id as its start
      parameter (an unset bot name renders as `undefined`). */
  function BotLink(username: Option<string>, funnelId: string): string {
    LinkPrefix + Interpolate(username) + StartQuery + funnelId
  }

  /** The text after the first `?` of `s`, if any. */
  function AfterQuestion(s: string): (r: Option<string>)
    ensures r.None? <==> '?' !in s
    ensures r.Some? ==> var i := |s| - |r.value| - 1;
      0 <= i && s[i] == '?' && '?' !in s[..i] && s[i + 1..] == r.value
  {
    if s == [] then None
    else if s[0] == '?' then Some(s[1..])
    else AfterQuestion(s[1..])
  }

  /** The start parameter Telegram hands to the bot for a `t.me` link: the
      value after `start=` in the query. */
  function StartParameter(link: string): Option<string> {
    if !IsPrefix(LinkPrefix, link) then None
    else
      match AfterQuestion(link[|LinkPrefix|..])
      case None => None
      case Some(query) =>
        if IsPrefix("start=", query) then Some(query[|"start="|..]) else None
  }

  lemma {:induction false} AfterQuestionSkips(a: string, b: string)
    requires '?' !in a
    ensures AfterQuestion(a + "?" + b) == Some(b)
    decreases |a|
  {
    if a == [] {
      assert a + "?" + b == ['?'] + b;
    } else {
      assert (a + "?" + b)[1..] == a[1..] + "?" + b;
      AfterQuestionSkips(a[1..], b);
    }
  }

  /** The link's start parameter is the funnel id, so `/start` looks up the
      funnel the link was made for (when the bot name holds no `?`). */
  lemma BotLinkStartsFunnel(username: Option<string>, funnelId: string)
    requires '?' !in Interpolate(username)
    ensures StartParameter(BotLink(username, funnelId)) == Some(funnelId)
  {
    var link := BotLink(username, funnelId);
    var u := Interpolate(username);
    assert link == LinkPrefix + (u + "?" + ("start=" + funnelId));
    assert link[|LinkPrefix|..] == u + "?" + ("start=" + funnelId);
    AfterQuestionSkips(u, "start=" + funnelId);
    assert ("start=" + funnelId)[|"start="|..] == funnelId;
  }
}
