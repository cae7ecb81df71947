/**
 * The trade-session actor of one account as a state machine.
 *
 * The actor awaits in different places: the select loop, the login loop, the cancel loop and the
 * query loop. `Mode` says where it is waiting. One step is one thing received there. An input the
 * current wait does not poll (a command while a nested loop runs, an event while logged out) stays
 * where it is, so offering it changes nothing.
 */
module TradeActor {
  import opened Wrappers
  import opened TradeTypes
  import OrderRef

  datatype Mode =
    | Main
    | LoggingIn(accountId: AccountId, replyTo: Channel, loginIds: Option<Ids>)
    | Cancelling(cancel: CancelRequest, requestId: int, replyTo: Channel)
    | Querying(kind: QueryKind, queried: AccountId, requestId: int, replyTo: Channel)

  /** `ok` is the return code, as success or failure, of the exchange call the input leads to. */
  datatype Input =
    | FromMailbox(command: Command, ok: bool)
    | FromExchange(event: Event, ok: bool)
    | ClientRegistered(clientId: ClientId, channel: Channel)

  /** `session` is the number of requests issued on the live CTP session, if there is one. */
  datatype Actor = Actor(
    accountId: AccountId,
    session: Option<nat>,
    ids: Option<Ids>,
    registry: map<string, OrderContext>,
    mode: Mode,
    routes: map<ClientId, Channel>,
    pushes: seq<Push>,
    replies: seq<Reply>,
    calls: seq<ApiCall>,
    stateWrites: seq<ConnectionState>)

  const TWO_31 := 0x8000_0000

  /** The id of the `n`-th request of a session: a signed 32-bit counter that wraps. */
  function RequestId(n: nat): int {
    (n + TWO_31) % TWO_32 - TWO_31
  }

  function Started(accountId: AccountId, routes: map<ClientId, Channel>): Actor {
    Actor(accountId, None, None, map[], Main, routes, [], [], [], [])
  }

  // ---- routing of returns ----

  function PushTo(a: Actor, clientId: ClientId, message: Message): Actor {
    var channel := if clientId in a.routes then Some(a.routes[clientId]) else None;
    a.(pushes := a.pushes + [Push(clientId, channel, message)])
  }

  function PushOrderReport(a: Actor, report: OrderReport): Actor {
    var key := OrderRef.NormalizeOrderRef(report.clientOrderId);
    if key !in a.registry then a
    else PushTo(a, a.registry[key].clientId, OrderUpdate(report, a.registry[key]))
  }

  function PushTradeReport(a: Actor, report: TradeReport): Actor {
    if report.clientOrderId.None? then a
    else
      var key := OrderRef.NormalizeOrderRef(report.clientOrderId.value);
      if key !in a.registry then a
      else PushTo(a, a.registry[key].clientId, TradeUpdate(report, a.registry[key].accountId))
  }

  // ---- small state updates ----

  function ReplyWith(a: Actor, replyTo: Channel, message: Message): Actor {
    a.(replies := a.replies + [Reply(replyTo, message)])
  }

  function ReplyState(a: Actor, replyTo: Channel, accountId: AccountId, state: ConnectionState): Actor {
    ReplyWith(a, replyTo, AccountStateUpdate(accountId, state, None))
  }

  /** The id the next request gets; only read while a session exists. */
  function NextId(a: Actor): int {
    RequestId(a.session.GetOr(0) + 1)
  }

  function Issue(a: Actor, call: ApiCall): Actor {
    a.(session := Some(a.session.GetOr(0) + 1), calls := a.calls + [call])
  }

  // ---- commands ----

  function LoggedOutCommand(a: Actor, command: Command, ok: bool): Actor {
    match command
    case Login(accountId, replyTo) =>
      if a.session.None? && !ok then ReplyState(a, replyTo, a.accountId, Error)
      else
        var b := if a.session.None? then a.(session := Some(0)) else a;
        ReplyState(b, replyTo, accountId, Connecting).(mode := LoggingIn(accountId, replyTo, None))
    case PlaceOrder(_, _, replyTo) => ReplyWith(a, replyTo, ErrorResponse(ORDER_REJECTED))
    case CancelOrder(_, replyTo) => ReplyWith(a, replyTo, ErrorResponse(COMMAND_REJECTED))
    case Query(_, _, _, replyTo) => ReplyWith(a, replyTo, ErrorResponse(COMMAND_REJECTED))
    case Logout(replyTo) => ReplyState(a, replyTo, a.accountId, Disconnected)
  }

  const ORDER_REJECTED := ErrorInfo(-11, "account is not logged in; place order rejected")
  const COMMAND_REJECTED := ErrorInfo(-11, "account is not logged in; command rejected")
  const INSERT_FAILED := ErrorInfo(-10, "req_order_insert failed")

  function Register(a: Actor, context: OrderContext): Actor {
    a.(registry := a.registry[context.OrderRefKey() := context])
  }

  function LoggedInCommand(a: Actor, command: Command, ok: bool): Actor
    requires a.ids.Some?
  {
    match command
    case Login(accountId, replyTo) =>
      ReplyWith(a, replyTo, AccountStateUpdate(accountId, LoggedIn, a.ids))
    case PlaceOrder(clientId, order, replyTo) =>
      if a.session.None? then a
      else
        var b := Issue(Register(a, ContextOf(clientId, order)),
                       ReqInsert(OrderRef.NormalizeOrderRef(order.clientOrderId), NextId(a)));
        if ok then b else ReplyWith(b, replyTo, ErrorResponse(INSERT_FAILED))
    case CancelOrder(cancel, replyTo) =>
      if a.session.None? then a
      else
        var orderRef := match cancel.clientOrderId
                        case None => None
                        case Some(id) => Some(OrderRef.NormalizeOrderRef(id));
        var b := Issue(a, ReqCancel(a.ids.value, orderRef, cancel.exchangeOrderId, NextId(a)));
        if ok then b.(mode := Cancelling(cancel, NextId(a), replyTo)) else b
    case Query(kind, queried, instrumentId, replyTo) =>
      if a.session.None? then a
      else
        var filter := if kind.Positions? then instrumentId else None;
        var b := Issue(a, ReqQuery(kind, filter, NextId(a)));
        if ok then b.(mode := Querying(kind, queried, NextId(a), replyTo)) else b
    case Logout(replyTo) =>
      ReplyState(a.(session := None, ids := None, registry := map[]), replyTo, a.accountId, Disconnected)
  }

  // ---- events ----

  function LoggedInEvent(a: Actor, event: Event): Actor {
    match event
    case OrderReturn(report) => PushOrderReport(a, report)
    case TradeReturn(report) => PushTradeReport(a, report)
    case FrontDisconnected(_) => a.(ids := None, stateWrites := a.stateWrites + [Disconnected])
    case _ => a
  }

  function LoginFails(a: Actor, replyTo: Channel): Actor {
    ReplyState(a, replyTo, a.accountId, Error).(mode := Main)
  }

  function LoginEvent(a: Actor, event: Event, ok: bool): Actor
    requires a.mode.LoggingIn?
  {
    var LoggingIn(accountId, replyTo, loginIds) := a.mode;
    match event
    case FrontConnected =>
      var b := Issue(ReplyState(a, replyTo, accountId, Authenticating), ReqAuthenticate(NextId(a)));
      if ok then b else LoginFails(b, replyTo)
    case AuthenticateOk =>
      var b := Issue(a, ReqLogin(NextId(a)));
      if ok then b else LoginFails(b, replyTo)
    case LoginOk(ids) =>
      var b := Issue(a.(mode := LoggingIn(accountId, replyTo, Some(ids))), ReqConfirmSettlement(NextId(a)));
      if ok then b else LoginFails(b, replyTo)
    case SettlementConfirmed =>
      var ids := loginIds.GetOr(Ids(0, 0));
      ReplyWith(a.(ids := Some(ids), mode := Main), replyTo, AccountStateUpdate(accountId, LoggedIn, Some(ids)))
    case FrontDisconnected(_) => ReplyState(a, replyTo, accountId, Disconnected)
    case AuthenticateFailed(_) => LoginFails(a, replyTo)
    case LoginFailed(_) => LoginFails(a, replyTo)
    case SettlementConfirmFailed(_) => LoginFails(a, replyTo)
    case ResponseError(_, _) => LoginFails(a, replyTo)
    case _ => a
  }

  predicate IsTarget(cancel: CancelRequest, report: OrderReport) {
    || (cancel.clientOrderId.Some? && cancel.clientOrderId.value == report.clientOrderId)
    || (cancel.exchangeOrderId.Some? && cancel.exchangeOrderId == report.exchangeOrderId)
  }

  predicate IsTerminal(status: OrderStatus) {
    status.Cancelled? || status.Filled? || status.Rejected?
  }

  function CancelEvent(a: Actor, event: Event): Actor
    requires a.mode.Cancelling?
  {
    var Cancelling(cancel, requestId, replyTo) := a.mode;
    match event
    case OrderReturn(report) =>
      var b := PushOrderReport(a, report);
      if IsTarget(cancel, report) && IsTerminal(report.status) then b.(mode := Main) else b
    case TradeReturn(report) => PushTradeReport(a, report)
    case CancelActionOk(id) => if id == requestId then a.(mode := Main) else a
    case CancelActionFailed(id, error) =>
      if id == requestId then ReplyWith(a.(mode := Main), replyTo, ErrorResponse(error)) else a
    case FrontDisconnected(_) => a.(mode := Main)
    case _ => a
  }

  function RegisteredClients(registry: map<string, OrderContext>): set<ClientId> {
    set key | key in registry :: registry[key].clientId
  }

  /** The clients a wire order may be attributed to: its registered owner, else some registered client. */
  function Attribution(registry: map<string, OrderContext>, report: OrderReport): (r: set<ClientId>)
    ensures r != {}
  {
    var key := OrderRef.NormalizeOrderRef(report.clientOrderId);
    if key in registry then {registry[key].clientId}
    else if registry == map[] then {"query"}
    else
      assert exists k :: k in registry;
      assert forall k | k in registry :: registry[k].clientId in RegisteredClients(registry);
      RegisteredClients(registry)
  }

  function RowOf(registry: map<string, OrderContext>, queried: AccountId, record: Record): AnswerRow {
    match record
    case BalanceRecord(balance) => BalanceRow(balance)
    case PositionRecord(position) => PositionRow(position)
    case OrderRecord(order) => OrderRow(order, queried, Attribution(registry, order))
    case TradeRecord(trade) => TradeRow(trade, queried)
  }

  function RowsOf(registry: map<string, OrderContext>, queried: AccountId, records: seq<Record>): (r: seq<AnswerRow>)
    ensures |r| == |records|
    ensures forall i | 0 <= i < |r| :: r[i] == RowOf(registry, queried, records[i])
  {
    seq(|records|, i requires 0 <= i < |records| => RowOf(registry, queried, records[i]))
  }

  function QueryEvent(a: Actor, event: Event): Actor
    requires a.mode.Querying?
  {
    var Querying(kind, queried, requestId, replyTo) := a.mode;
    match event
    case OrderReturn(report) => PushOrderReport(a, report)
    case TradeReturn(report) => PushTradeReport(a, report)
    case QueryReady(answered, id, records) =>
      if answered == kind && id == requestId
      then ReplyWith(a.(mode := Main), replyTo, QueryResult(kind, RowsOf(a.registry, queried, records)))
      else a
    case QueryFailed(id, error) =>
      if id == requestId then ReplyWith(a.(mode := Main), replyTo, ErrorResponse(error)) else a
    case _ => a
  }

  // ---- one step, and runs ----

  /** True when the wait the actor is in polls the exchange's event stream. */
  predicate PollsExchange(a: Actor) {
    !a.mode.Main? || (a.ids.Some? && a.session.Some?)
  }

  function Step(a: Actor, input: Input): Actor {
    match input
    case ClientRegistered(clientId, channel) => a.(routes := a.routes[clientId := channel])
    case FromMailbox(command, ok) =>
      if !a.mode.Main? then a
      else if a.ids.Some? then LoggedInCommand(a, command, ok)
      else LoggedOutCommand(a, command, ok)
    case FromExchange(event, ok) =>
      match a.mode
      case Main => if PollsExchange(a) then LoggedInEvent(a, event) else a
      case LoggingIn(_, _, _) => LoginEvent(a, event, ok)
      case Cancelling(_, _, _) => CancelEvent(a, event)
      case Querying(_, _, _, _) => QueryEvent(a, event)
  }

  function Run(a: Actor, inputs: seq<Input>): Actor {
    if inputs == [] then a
    else Step(Run(a, inputs[..|inputs| - 1]), inputs[|inputs| - 1])
  }
}
