/** The database the services share, one map per table, and the ownership
    check every funnel-scoped operation starts with. */
module Store {
  import opened Common
  import opened Entities

  class Db {
    var funnels: map<string, Funnel>
    var nodes: map<string, Node>
    var sessions: map<string, Session>
    var payments: map<string, Payment>
    /** Keyed by user id: a user has at most one subscription. */
    var subscriptions: map<string, Subscription>
    var users: map<string, User>

    /** The schema's keys and constraints: every row sits under its own id,
        nodes and sessions belong to an existing funnel, order ids and
        Telegram ids are unique. */
    ghost predicate Valid()
      reads this
    {
      FunnelTablesValid(funnels, nodes, sessions) && BillingValid(payments, subscriptions) && UsersValid(users)
    }

    constructor ()
      ensures Valid()
      ensures funnels == map[] && nodes == map[] && sessions == map[]
      ensures payments == map[] && subscriptions == map[] && users == map[]
    {
      funnels, nodes, sessions := map[], map[], map[];
      payments, subscriptions, users := map[], map[], map[];
    }
  }

  /** Funnels under their ids; nodes and sessions under theirs, each in an existing funnel. */
  ghost predicate FunnelTablesValid(funnels: map<string, Funnel>, nodes: map<string, Node>, sessions: map<string, Session>) {
    && (forall k :: k in funnels ==> funnels[k].id == k)
    && (forall k :: k in nodes ==> nodes[k].id == k)
    && NodesOwned(funnels, nodes)
    && SessionsKeyed(sessions)
    && (forall k :: k in sessions ==> sessions[k].funnelId in funnels)
  }

  /** Every node belongs to a funnel of the table (the foreign key). */
  ghost predicate NodesOwned(funnels: map<string, Funnel>, nodes: map<string, Node>) {
    forall k :: k in nodes ==> nodes[k].funnelId in funnels
  }

  /** Each session is filed under its id. */
  ghost predicate SessionsKeyed(sessions: map<string, Session>) {
    forall k :: k in sessions ==> sessions[k].id == k
  }

  /** Payments under their ids with unique order ids; subscriptions under their user. */
  ghost predicate BillingValid(payments: map<string, Payment>, subscriptions: map<string, Subscription>) {
    && (forall k :: k in payments ==> payments[k].id == k)
    && OrderIdsUnique(payments)
    && (forall u :: u in subscriptions ==> subscriptions[u].userId == u)
  }

  /** Users under their ids with unique Telegram ids. */
  ghost predicate UsersValid(users: map<string, User>) {
    (forall k :: k in users ==> users[k].id == k) && TelegramIdsUnique(users)
  }

  ghost predicate OrderIdsUnique(payments: map<string, Payment>) {
    forall k, k' :: k in payments && k' in payments && payments[k].orderId == payments[k'].orderId ==> k == k'
  }

  ghost predicate TelegramIdsUnique(users: map<string, User>) {
    forall k, k' :: k in users && k' in users && users[k].telegramId == users[k'].telegramId ==> k == k'
  }

  /** Between two states of a mutating call, only the tables named may differ. */
  twostate predicate OnlyFunnelTablesChanged(db: Db)
    reads db
  {
    old(db.payments) == db.payments && old(db.subscriptions) == db.subscriptions && old(db.users) == db.users
  }

  twostate predicate OnlyNodesChanged(db: Db)
    reads db
  {
    OnlyFunnelTablesChanged(db) && old(db.funnels) == db.funnels && old(db.sessions) == db.sessions
  }

  twostate predicate OnlyBillingChanged(db: Db)
    reads db
  {
    && old(db.funnels) == db.funnels && old(db.nodes) == db.nodes && old(db.sessions) == db.sessions
    && old(db.users) == db.users
  }

  /** A write to the billing tables that keeps them valid keeps the database valid. */
  twostate lemma BillingWriteKeepsValid(db: Db)
    requires old(db.Valid()) && OnlyBillingChanged(db) && BillingValid(db.payments, db.subscriptions)
    ensures db.Valid()
  {
  }

  twostate predicate OnlyUsersChanged(db: Db)
    reads db
  {
    && old(db.funnels) == db.funnels && old(db.nodes) == db.nodes && old(db.sessions) == db.sessions
    && old(db.payments) == db.payments && old(db.subscriptions) == db.subscriptions
  }

  /** The `checkFunnelAccess` of the analytics and nodes services (and the
      guard of the funnels service's `findOne`): a missing funnel is NotFound,
      checked before a funnel of another user is Forbidden. */
  function CheckFunnelAccess(funnels: map<string, Funnel>, funnelId: string, userId: string): (r: Result<Funnel>)
    ensures r.Err? && r.error.NotFound? <==> funnelId !in funnels
    ensures r.Err? && r.error.Forbidden? <==> funnelId in funnels && funnels[funnelId].userId != userId
    ensures r.Ok? <==> funnelId in funnels && funnels[funnelId].userId == userId
    ensures r.Ok? ==> r.value == funnels[funnelId]
  {
    if funnelId !in funnels then Err(NotFound("Funnel not found"))
    else if funnels[funnelId].userId != userId then Err(Forbidden("Access denied"))
    else Ok(funnels[funnelId])
  }
}
