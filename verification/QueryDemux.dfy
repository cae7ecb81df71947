/** The callback side of a trade session: multi-part answers accumulate per request id. */
module QueryDemux {
  import opened Wrappers
  import opened TradeTypes

  /** What is pending for a request id; a positions, orders or trades query collects records. */
  datatype Pending =
    | PendingAccount
    | PendingRecords(kind: QueryKind, items: seq<Record>)
    | PendingCancel

  /** A record as the exchange hands it over; `mapped` when its fields translate. */
  datatype Raw = Raw(record: Record, mapped: bool)

  /** The request an event answers. */
  function EventId(event: Event): Option<int> {
    match event
    case QueryReady(_, id, _) => Some(id)
    case QueryFailed(id, _) => Some(id)
    case CancelActionOk(id) => Some(id)
    case CancelActionFailed(id, _) => Some(id)
    case _ => None
  }

  /** The events callbacks emit directly: all but the answers to requests. */
  type PlainEvent = event: Event | EventId(event).None? witness FrontConnected

  /** `error` is set when the response carries a non-zero error id. */
  datatype Callback =
    | RspQuery(kind: QueryKind, requestId: int, error: Option<ErrorInfo>, raw: Option<Raw>, isLast: bool)
    | RspOrderAction(requestId: int, error: Option<ErrorInfo>)
    | Direct(event: PlainEvent)

  type PendingMap = map<int, Pending>

  const NO_BALANCE := BalanceRecord(Balance("", 0.0, 0.0))

  /** Records that do not translate, and positions of volume zero, are dropped. */
  predicate Accepts(kind: QueryKind, raw: Raw) {
    raw.mapped && (kind.Positions? ==> raw.record.PositionRecord? && raw.record.position.volume != 0)
  }

  function PendingFor(kind: QueryKind): Pending {
    if kind.Account? then PendingAccount else PendingRecords(kind, [])
  }

  function Append(pending: PendingMap, kind: QueryKind, requestId: int, record: Record): PendingMap {
    if requestId in pending && pending[requestId].PendingRecords? && pending[requestId].kind == kind
    then pending[requestId := PendingRecords(kind, pending[requestId].items + [record])]
    else pending
  }

  function Items(pending: PendingMap, kind: QueryKind, requestId: int): seq<Record> {
    if requestId in pending && pending[requestId].PendingRecords? && pending[requestId].kind == kind
    then pending[requestId].items
    else []
  }

  function OnQuery(pending: PendingMap, kind: QueryKind, requestId: int, raw: Option<Raw>, isLast: bool)
    : (PendingMap, seq<Event>)
  {
    if kind.Account? then
      if isLast
      then (pending - {requestId},
            [QueryReady(Account, requestId, [if raw.Some? then raw.value.record else NO_BALANCE])])
      else (pending, [])
    else
      var collected := if raw.Some? && Accepts(kind, raw.value)
                       then Append(pending, kind, requestId, raw.value.record) else pending;
      if isLast
      then (collected - {requestId}, [QueryReady(kind, requestId, Items(collected, kind, requestId))])
      else (collected, [])
  }

  /** The pending map after a callback, and the events it emits. */
  function OnCallback(pending: PendingMap, callback: Callback): (PendingMap, seq<Event>) {
    match callback
    case Direct(event) => (pending, [event])
    case RspOrderAction(requestId, error) =>
      (pending - {requestId},
       [if error.Some? then CancelActionFailed(requestId, error.value) else CancelActionOk(requestId)])
    case RspQuery(kind, requestId, error, raw, isLast) =>
      if error.Some? then (pending - {requestId}, [QueryFailed(requestId, error.value)])
      else OnQuery(pending, kind, requestId, raw, isLast)
  }

  /** The request a callback answers. */
  function CallbackId(callback: Callback): Option<int> {
    match callback
    case RspQuery(_, id, _, _, _) => Some(id)
    case RspOrderAction(id, _) => Some(id)
    case Direct(_) => None
  }

  function PendingAfter(pending: PendingMap, callbacks: seq<Callback>): PendingMap {
    if callbacks == [] then pending
    else OnCallback(PendingAfter(pending, callbacks[..|callbacks| - 1]), callbacks[|callbacks| - 1]).0
  }

  /** The callbacks that close a request: an error, a last part, or the answer to a cancel. */
  predicate Closes(callback: Callback, requestId: int) {
    && CallbackId(callback) == Some(requestId)
    && (callback.RspQuery? ==> callback.error.Some? || callback.isLast)
  }

  /** A closed request stays closed whatever follows, so its id collects nothing until it is registered again. */
  lemma {:induction false} ClosedRequestStaysClosed(pending: PendingMap, callback: Callback, later: seq<Callback>,
                                                    kind: QueryKind, requestId: int)
    requires Closes(callback, requestId)
    ensures var after := PendingAfter(OnCallback(pending, callback).0, later);
            requestId !in after && Items(after, kind, requestId) == []
  {
    if later != [] {
      ClosedRequestStaysClosed(pending, callback, later[..|later| - 1], kind, requestId);
    }
  }

  /** The state the callback thread shares with the session: pending queries and the event channel. */
  class SharedState {
    var pendingQueries: PendingMap
    var events: seq<Event>

    constructor ()
      ensures pendingQueries == map[] && events == []
    {
      pendingQueries, events := map[], [];
    }

    method RegisterQuery(requestId: int, kind: Pending)
      modifies this`pendingQueries
      ensures pendingQueries == old(pendingQueries)[requestId := kind]
    {
      pendingQueries := pendingQueries[requestId := kind];
    }

    method Emit(event: Event)
      modifies this`events
      ensures events == old(events) + [event]
    {
      events := events + [event];
    }

    method FinishQuery(requestId: int, event: Event)
      modifies this
      ensures pendingQueries == old(pendingQueries) - {requestId}
      ensures events == old(events) + [event]
    {
      pendingQueries := pendingQueries - {requestId};
      Emit(event);
    }

    method AppendRecord(kind: QueryKind, requestId: int, record: Record)
      modifies this`pendingQueries
      ensures pendingQueries == Append(old(pendingQueries), kind, requestId, record)
    {
      if requestId in pendingQueries {
        match pendingQueries[requestId]
        case PendingRecords(registered, items) =>
          if registered == kind {
            pendingQueries := pendingQueries[requestId := PendingRecords(kind, items + [record])];
          }
        case _ =>
      }
    }

    method TakeRecords(kind: QueryKind, requestId: int) returns (items: seq<Record>)
      modifies this`pendingQueries
      ensures items == Items(old(pendingQueries), kind, requestId)
      ensures pendingQueries == old(pendingQueries) - {requestId}
    {
      items := [];
      if requestId in pendingQueries {
        var taken := pendingQueries[requestId];
        if taken.PendingRecords? && taken.kind == kind {
          items := taken.items;
        }
      }
      pendingQueries := pendingQueries - {requestId};
    }

    /** `on_rsp_qry_*`, `on_rsp_order_action` and the callbacks that emit directly. */
    method On(callback: Callback)
      modifies this
      ensures pendingQueries == OnCallback(old(pendingQueries), callback).0
      ensures events == old(events) + OnCallback(old(pendingQueries), callback).1
    {
      match callback
      case Direct(event) => Emit(event);
      case RspOrderAction(requestId, error) =>
        if error.Some? {
          FinishQuery(requestId, CancelActionFailed(requestId, error.value));
        } else {
          FinishQuery(requestId, CancelActionOk(requestId));
        }
      case RspQuery(kind, requestId, error, raw, isLast) =>
        if error.Some? {
          FinishQuery(requestId, QueryFailed(requestId, error.value));
          return;
        }
        if kind.Account? {
          if isLast {
            pendingQueries := pendingQueries - {requestId};
            Emit(QueryReady(Account, requestId, [if raw.Some? then raw.value.record else NO_BALANCE]));
          }
          return;
        }
        if raw.Some? && Accepts(kind, raw.value) {
          AppendRecord(kind, requestId, raw.value.record);
        }
        if isLast {
          var items := TakeRecords(kind, requestId);
          Emit(QueryReady(kind, requestId, items));
        }
    }
  }
}
