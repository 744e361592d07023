/** The rows of the backend's tables (funnels, nodes, sessions, payments,
    subscriptions, users) as plain values. A row's own `id` is its key in
    the table that holds it; the subscription table is keyed by `userId`,
    which the schema declares unique. */
module Entities {
  import opened Common

  datatype FunnelStatus = Draft | Active | Archived

  datatype Funnel = Funnel(
    id: string,
    userId: string,
    name: string,
    description: Option<string>,
    status: FunnelStatus,
    createdAt: int)

  datatype NodeType = Message | Button | Delay | Payment | Condition {
    /** The enum literal, as the bot prints it. */
    function Name(): string {
      match this
      case Message => "MESSAGE"
      case Button => "BUTTON"
      case Delay => "DELAY"
      case Payment => "PAYMENT"
      case Condition => "CONDITION"
    }
  }

  /** One entry of a BUTTON node's `buttons` list. */
  datatype ButtonSpec = ButtonSpec(text: Option<string>, nextNodeId: Option<string>)

  /** A node's JSON `content`, reduced to the keys the bot reads; a key the
      JSON does not have is `None`. */
  datatype NodeContent = NodeContent(
    text: Option<string>,
    buttons: Option<seq<ButtonSpec>>,
    seconds: Option<int>,
    productName: Option<string>,
    price: Option<int>)

  /** The `{}` that stands in for a node without content. */
  const NoContent := NodeContent(None, None, None, None, None)

  datatype Position = Position(x: int, y: int)

  datatype Node = Node(
    id: string,
    funnelId: string,
    nodeType: NodeType,
    name: string,
    content: Option<NodeContent>,
    position: Position,
    createdAt: int)

  datatype SessionStatus = Active | Completed | Abandoned | Paid

  /** A visitor's pass through a funnel; this backend only reads these rows. */
  datatype Session = Session(
    id: string,
    funnelId: string,
    visitorName: Option<string>,
    status: SessionStatus,
    startedAt: int,
    completedAt: Option<int>,
    paidAmount: Option<int>)

  datatype PaymentStatus = Pending | Succeeded | Cancelled | WaitingForCapture | Refunded

  /** A payment row; `orderId` is the column the source spells `oderId`, unique
      across the table. Amounts are in kopecks. */
  datatype Payment = Payment(
    id: string,
    orderId: string,
    userId: string,
    amount: int,
    description: Option<string>,
    funnelId: Option<string>,
    status: PaymentStatus,
    paymentMethod: Option<string>,
    confirmationUrl: Option<string>,
    createdAt: int)

  datatype Plan = Free | Pro {
    function Name(): string {
      match this
      case Free => "FREE"
      case Pro => "PRO"
    }
  }

  /** `Active`, the only status this code writes, or any other status of the schema. */
  datatype SubscriptionStatus = Active | Inactive(status: string)

  datatype Subscription = Subscription(
    userId: string,
    plan: Plan,
    status: SubscriptionStatus,
    expiresAt: Option<int>)

  datatype User = User(
    id: string,
    telegramId: string,
    username: Option<string>,
    firstName: Option<string>,
    lastName: Option<string>,
    avatarUrl: Option<string>)
}
