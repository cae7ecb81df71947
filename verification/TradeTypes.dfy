/** Commands, exchange events, wire messages and effects of one account's trade session. */
module TradeTypes {
  import opened Wrappers
  import OrderRef

  type ClientId = string
  type AccountId = string
  type InstrumentId = string
  /** The outbound side of one TCP connection. */
  type Channel = nat

  datatype Direction = Buy | Sell
  datatype OffsetFlag = Open | Close | CloseToday | CloseYesterday
  datatype OrderType = Limit | Market | FAK | FOK
  datatype OrderStatus = Submitted | Accepted | PartiallyFilled | Filled | Cancelled | Rejected | Unknown
  datatype ConnectionState = Disconnected | Connecting | Connected | Authenticating | LoggedIn | Error
  datatype ErrorInfo = ErrorInfo(id: int, message: string)
  datatype Ids = Ids(frontId: int, sessionId: int)

  datatype OrderRequest = OrderRequest(
    clientOrderId: string, accountId: AccountId, instrumentId: InstrumentId, direction: Direction,
    offset: OffsetFlag, orderType: OrderType, volume: int, price: real)

  datatype CancelRequest = CancelRequest(
    accountId: AccountId, instrumentId: InstrumentId, clientOrderId: Option<string>, exchangeOrderId: Option<string>)

  /** What the server remembers about an order when it submits it. */
  datatype OrderContext = OrderContext(
    clientId: ClientId, clientOrderId: string, accountId: AccountId, instrumentId: InstrumentId,
    direction: Direction, offset: OffsetFlag, orderType: OrderType, price: real, volume: int)
  {
    function OrderRefKey(): string { OrderRef.NormalizeOrderRef(clientOrderId) }
  }

  function ContextOf(clientId: ClientId, order: OrderRequest): OrderContext {
    OrderContext(clientId, order.clientOrderId, order.accountId, order.instrumentId,
                 order.direction, order.offset, order.orderType, order.price, order.volume)
  }

  datatype OrderReport = OrderReport(
    clientOrderId: string, exchangeOrderId: Option<string>, instrumentId: InstrumentId, direction: Direction,
    offset: OffsetFlag, price: real, volumeTotal: int, volumeTraded: int, status: OrderStatus,
    statusMsg: Option<string>)

  datatype TradeReport = TradeReport(
    tradeId: string, clientOrderId: Option<string>, exchangeOrderId: string, instrumentId: InstrumentId,
    direction: Direction, offset: OffsetFlag, price: real, volume: int, tradeDate: string, tradeTime: string)

  datatype Position = Position(
    accountId: AccountId, instrumentId: InstrumentId, direction: Direction, volume: int, ydVolume: int, useMargin: real)

  datatype Balance = Balance(accountId: AccountId, balance: real, available: real)

  datatype QueryKind = Account | Positions | Orders | Trades

  datatype Record =
    | BalanceRecord(balance: Balance)
    | PositionRecord(position: Position)
    | OrderRecord(order: OrderReport)
    | TradeRecord(trade: TradeReport)

  datatype Command =
    | Login(accountId: AccountId, replyTo: Channel)
    | PlaceOrder(clientId: ClientId, order: OrderRequest, replyTo: Channel)
    | CancelOrder(cancel: CancelRequest, replyTo: Channel)
    | Query(kind: QueryKind, queried: AccountId, instrumentId: Option<InstrumentId>, replyTo: Channel)
    | Logout(replyTo: Channel)

  datatype Event =
    | FrontConnected
    | FrontDisconnected(reason: int)
    | HeartBeatWarning(timeLapse: int)
    | AuthenticateOk
    | AuthenticateFailed(error: ErrorInfo)
    | LoginOk(ids: Ids)
    | LoginFailed(error: ErrorInfo)
    | SettlementConfirmed
    | SettlementConfirmFailed(error: ErrorInfo)
    | ResponseError(error: ErrorInfo, requestId: int)
    | OrderInsertRejected(error: ErrorInfo)
    | OrderReturn(order: OrderReport)
    | TradeReturn(trade: TradeReport)
    | QueryReady(kind: QueryKind, requestId: int, records: seq<Record>)
    | QueryFailed(requestId: int, error: ErrorInfo)
    | CancelActionOk(requestId: int)
    | CancelActionFailed(requestId: int, error: ErrorInfo)

  /** A row of a query answer. An order no registry entry explains may carry any of `clients`. */
  datatype AnswerRow =
    | BalanceRow(balance: Balance)
    | PositionRow(position: Position)
    | OrderRow(order: OrderReport, accountId: AccountId, clients: set<ClientId>)
    | TradeRow(trade: TradeReport, accountId: AccountId)

  datatype Message =
    | OrderUpdate(order: OrderReport, context: OrderContext)
    | TradeUpdate(trade: TradeReport, accountId: AccountId)
    | AccountStateUpdate(accountId: AccountId, state: ConnectionState, ids: Option<Ids>)
    | ErrorResponse(error: ErrorInfo)
    | QueryResult(kind: QueryKind, rows: seq<AnswerRow>)

  /** An attempt to push to a client: `channel` is the outbound it had registered, if any. */
  datatype Push = Push(clientId: ClientId, channel: Option<Channel>, message: Message)
  datatype Reply = Reply(channel: Channel, message: Message)

  /** Requests issued on the CTP trader API, with their request id. */
  datatype ApiCall =
    | ReqAuthenticate(requestId: int)
    | ReqLogin(requestId: int)
    | ReqConfirmSettlement(requestId: int)
    | ReqInsert(newRef: string, requestId: int)
    | ReqCancel(ids: Ids, orderRef: Option<string>, exchangeOrderId: Option<string>, requestId: int)
    | ReqQuery(kind: QueryKind, instrumentId: Option<InstrumentId>, requestId: int)
}
