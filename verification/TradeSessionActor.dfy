/**
 * The actor's task in its own shape: a select loop that calls handlers, three of which run nested
 * receive loops on the same event stream. It is proved to compute the run of the state machine
 * `TradeActor` over the inputs it is given.
 */
module TradeSessionActor {
  import opened Wrappers
  import opened TradeTypes
  import opened TradeActor
  import OrderRef

  class TradeSessionActor {
    const accountId: AccountId
    var session: Option<nat>
    var loggedInIds: Option<Ids>
    var orderRegistry: map<string, OrderContext>
    var tradingClients: map<ClientId, Channel>
    var pushes: seq<Push>
    var replies: seq<Reply>
    var calls: seq<ApiCall>
    var stateWrites: seq<ConnectionState>
    /** What the mailbox, the exchange and the TCP server offer next. */
    var tape: seq<Input>

    /** Where the task is waiting, where it started, and what it has taken from the tape so far. */
    ghost var waiting: Mode
    ghost const origin: Actor
    ghost var taken: seq<Input>

    ghost function State(): Actor
      reads this
    {
      Actor(accountId, session, loggedInIds, orderRegistry, waiting, tradingClients,
            pushes, replies, calls, stateWrites)
    }

    ghost predicate Valid()
      reads this
    {
      State() == Run(origin, taken)
    }

    constructor (accountId: AccountId, tradingClients: map<ClientId, Channel>, tape: seq<Input>)
      ensures Valid() && State() == origin == Started(accountId, tradingClients)
      ensures taken == [] && this.tape == tape
    {
      this.accountId, this.tradingClients, this.tape := accountId, tradingClients, tape;
      session, loggedInIds, orderRegistry := None, None, map[];
      pushes, replies, calls, stateWrites := [], [], [], [];
      waiting, taken, origin := Main, [], Started(accountId, tradingClients);
    }

    /** Records that `input` has been fully handled. */
    ghost method Handled(input: Input)
      requires State() == Step(Run(origin, taken), input)
      modifies this`taken
      ensures Valid() && taken == old(taken) + [input]
    {
      assert (taken + [input])[..|taken|] == taken;
      taken := taken + [input];
    }

    method NextRequestId() returns (id: int)
      requires session.Some?
      modifies this`session
      ensures session == Some(old(session).value + 1) && id == RequestId(session.value)
    {
      session := Some(session.value + 1);
      id := RequestId(session.value);
    }

    method SendAccountState(replyTo: Channel, account: AccountId, state: ConnectionState, ids: Option<Ids>)
      modifies this`replies
      ensures replies == old(replies) + [Reply(replyTo, AccountStateUpdate(account, state, ids))]
    {
      replies := replies + [Reply(replyTo, AccountStateUpdate(account, state, ids))];
    }

    method SendError(replyTo: Channel, error: ErrorInfo)
      modifies this`replies
      ensures replies == old(replies) + [Reply(replyTo, ErrorResponse(error))]
    {
      replies := replies + [Reply(replyTo, ErrorResponse(error))];
    }

    method PushEnvelopeToClient(clientId: ClientId, message: Message)
      modifies this`pushes
      ensures State() == PushTo(old(State()), clientId, message)
    {
      var channel := None;
      if clientId in tradingClients {
        channel := Some(tradingClients[clientId]);
      }
      pushes := pushes + [Push(clientId, channel, message)];
    }

    method PushReport(event: Event)
      requires event.OrderReturn? || event.TradeReturn?
      modifies this`pushes
      ensures State() == if event.OrderReturn? then PushOrderReport(old(State()), event.order)
                         else PushTradeReport(old(State()), event.trade)
    {
      if event.OrderReturn? {
        var key := OrderRef.NormalizeOrderRef(event.order.clientOrderId);
        if key in orderRegistry {
          var context := orderRegistry[key];
          PushEnvelopeToClient(context.clientId, OrderUpdate(event.order, context));
        }
      } else if event.trade.clientOrderId.Some? {
        var key := OrderRef.NormalizeOrderRef(event.trade.clientOrderId.value);
        if key in orderRegistry {
          var context := orderRegistry[key];
          PushEnvelopeToClient(context.clientId, TradeUpdate(event.trade, context.accountId));
        }
      }
    }

    /** The task: runs until everything offered has been consumed. */
    method Serve()
      requires Valid() && waiting.Main?
      modifies this
      ensures tape == [] && taken == old(taken + tape)
      ensures State() == Run(origin, old(taken + tape))
    {
      ghost var all := taken + tape;
      while tape != []
        invariant Valid() && taken + tape == all
        invariant waiting.Main? || tape == []
        decreases |tape|
      {
        var input := tape[0];
        tape := tape[1..];
        assert taken + [input] + tape == all;
        match input
        case ClientRegistered(clientId, channel) =>
          tradingClients := tradingClients[clientId := channel];
          Handled(input);
        case FromMailbox(command, ok) =>
          if loggedInIds.Some? {
            HandleLoggedInCommand(command, ok);
          } else {
            HandleLoggedOutCommand(command, ok);
          }
        case FromExchange(event, ok) =>
          if loggedInIds.Some? && session.Some? {
            HandleLoggedInEvent(event, ok);
          } else {
            Handled(input);
          }
      }
    }

    method HandleLoggedOutCommand(command: Command, ok: bool)
      requires Valid() && waiting.Main? && loggedInIds.None?
      modifies this
      ensures Valid() && taken + tape == old(taken) + [FromMailbox(command, ok)] + old(tape)
      ensures |tape| <= old(|tape|) && (waiting.Main? || tape == [])
    {
      match command
      case Login(account, replyTo) =>
        DriveTradeLogin(account, replyTo, ok);
      case PlaceOrder(_, _, replyTo) =>
        SendError(replyTo, ORDER_REJECTED);
        Handled(FromMailbox(command, ok));
      case CancelOrder(_, replyTo) =>
        SendError(replyTo, COMMAND_REJECTED);
        Handled(FromMailbox(command, ok));
      case Query(_, _, _, replyTo) =>
        SendError(replyTo, COMMAND_REJECTED);
        Handled(FromMailbox(command, ok));
      case Logout(replyTo) =>
        SendAccountState(replyTo, accountId, Disconnected, None);
        Handled(FromMailbox(command, ok));
    }

    method HandleLoggedInCommand(command: Command, ok: bool)
      requires Valid() && waiting.Main? && loggedInIds.Some?
      modifies this
      ensures Valid() && taken + tape == old(taken) + [FromMailbox(command, ok)] + old(tape)
      ensures |tape| <= old(|tape|) && (waiting.Main? || tape == [])
    {
      match command
      case Login(account, replyTo) =>
        SendAccountState(replyTo, account, LoggedIn, loggedInIds);
        Handled(FromMailbox(command, ok));
      case PlaceOrder(clientId, order, replyTo) =>
        if session.Some? {
          RegisterAndInsertOrder(clientId, order);
          if !ok {
            SendError(replyTo, INSERT_FAILED);
          }
        }
        Handled(FromMailbox(command, ok));
      case CancelOrder(cancel, replyTo) =>
        if session.Some? {
          DriveCancelOrder(cancel, loggedInIds.value, replyTo, ok);
        } else {
          Handled(FromMailbox(command, ok));
        }
      case Query(kind, queried, instrumentId, replyTo) =>
        if session.Some? {
          DriveQuery(kind, queried, instrumentId, replyTo, ok);
        } else {
          Handled(FromMailbox(command, ok));
        }
      case Logout(replyTo) =>
        session, loggedInIds, orderRegistry := None, None, map[];
        SendAccountState(replyTo, accountId, Disconnected, None);
        Handled(FromMailbox(command, ok));
    }

    method HandleLoggedInEvent(event: Event, ok: bool)
      requires Valid() && waiting.Main? && loggedInIds.Some? && session.Some?
      modifies this
      ensures Valid() && taken == old(taken) + [FromExchange(event, ok)] && tape == old(tape)
      ensures waiting.Main?
    {
      match event {
        case OrderReturn(_) => PushReport(event);
        case TradeReturn(_) => PushReport(event);
        case FrontDisconnected(_) =>
          loggedInIds := None;
          stateWrites := stateWrites + [Disconnected];
        case _ =>
      }
      Handled(FromExchange(event, ok));
    }

    method RegisterAndInsertOrder(clientId: ClientId, order: OrderRequest)
      requires session.Some?
      modifies this`orderRegistry, this`session, this`calls
      ensures State() == Issue(Register(old(State()), ContextOf(clientId, order)),
                               ReqInsert(OrderRef.NormalizeOrderRef(order.clientOrderId), NextId(old(State()))))
    {
      var context := ContextOf(clientId, order);
      orderRegistry := orderRegistry[context.OrderRefKey() := context];
      var id := NextRequestId();
      calls := calls + [ReqInsert(OrderRef.NormalizeOrderRef(order.clientOrderId), id)];
    }

    /** Starts the login loop, unless the session cannot be created. */
    method BeginLogin(account: AccountId, replyTo: Channel, ok: bool) returns (started: bool)
      requires waiting.Main? && loggedInIds.None?
      modifies this
      ensures State() == LoggedOutCommand(old(State()), Login(account, replyTo), ok)
      ensures unchanged(`taken) && unchanged(`tape)
      ensures waiting == if started then LoggingIn(account, replyTo, None) else Main
      ensures started ==> session.Some?
    {
      if session.None? {
        if !ok {
          SendAccountState(replyTo, accountId, Error, None);
          return false;
        }
        session := Some(0);
      }
      SendAccountState(replyTo, account, Connecting, None);
      waiting := LoggingIn(account, replyTo, None);
      started := true;
    }

    /** One event of the login loop: issues the next request of the handshake, or ends the login. */
    method OnLoginEvent(event: Event, accepted: bool, account: AccountId, replyTo: Channel, loginIds: Option<Ids>)
      returns (done: bool, newIds: Option<Ids>)
      requires waiting == LoggingIn(account, replyTo, loginIds) && session.Some?
      modifies this
      ensures State() == LoginEvent(old(State()), event, accepted)
      ensures unchanged(`taken) && unchanged(`tape) && session.Some?
      ensures waiting == if done then Main else LoggingIn(account, replyTo, newIds)
    {
      done, newIds := false, loginIds;
      match event {
        case FrontConnected =>
          newIds := Handshake(event, account, replyTo, loginIds);
          done := !accepted;
        case AuthenticateOk =>
          newIds := Handshake(event, account, replyTo, loginIds);
          done := !accepted;
        case LoginOk(_) =>
          newIds := Handshake(event, account, replyTo, loginIds);
          done := !accepted;
        case SettlementConfirmed =>
          CompleteLogin(account, replyTo, loginIds);
          return true, loginIds;
        case FrontDisconnected(_) =>
          SendAccountState(replyTo, account, Disconnected, None);
        case AuthenticateFailed(_) => done := true;
        case LoginFailed(_) => done := true;
        case SettlementConfirmFailed(_) => done := true;
        case ResponseError(_, _) => done := true;
        case _ =>
      }
      if done {
        FailLogin(replyTo);
      }
    }

    method FailLogin(replyTo: Channel)
      modifies this`replies, this`waiting
      ensures State() == LoginFails(old(State()), replyTo)
    {
      SendAccountState(replyTo, accountId, Error, None);
      waiting := Main;
    }

    method CompleteLogin(account: AccountId, replyTo: Channel, loginIds: Option<Ids>)
      requires waiting == LoggingIn(account, replyTo, loginIds)
      modifies this`loggedInIds, this`replies, this`waiting
      ensures State() == LoginEvent(old(State()), SettlementConfirmed, true) && waiting.Main?
    {
      var ids := loginIds.GetOr(Ids(0, 0));
      loggedInIds := Some(ids);
      SendAccountState(replyTo, account, LoggedIn, Some(ids));
      waiting := Main;
    }

    /** The request a handshake event calls for: authenticate, log in, or confirm the settlement. */
    method Handshake(event: Event, account: AccountId, replyTo: Channel, loginIds: Option<Ids>)
      returns (newIds: Option<Ids>)
      requires waiting == LoggingIn(account, replyTo, loginIds) && session.Some?
      requires event.FrontConnected? || event.AuthenticateOk? || event.LoginOk?
      modifies this
      ensures State() == LoginEvent(old(State()), event, true)
      ensures unchanged(`taken) && unchanged(`tape) && session.Some?
      ensures waiting == LoggingIn(account, replyTo, newIds)
    {
      newIds := loginIds;
      if event.FrontConnected? {
        SendAccountState(replyTo, account, Authenticating, None);
        var id := NextRequestId();
        calls := calls + [ReqAuthenticate(id)];
      } else if event.AuthenticateOk? {
        var id := NextRequestId();
        calls := calls + [ReqLogin(id)];
      } else {
        newIds := Some(event.ids);
        waiting := LoggingIn(account, replyTo, newIds);
        var id := NextRequestId();
        calls := calls + [ReqConfirmSettlement(id)];
      }
    }

    method DriveTradeLogin(account: AccountId, replyTo: Channel, ok: bool)
      requires Valid() && waiting.Main? && loggedInIds.None?
      modifies this
      ensures Valid() && taken + tape == old(taken) + [FromMailbox(Login(account, replyTo), ok)] + old(tape)
      ensures |tape| <= old(|tape|) && (waiting.Main? || tape == [])
    {
      ghost var all := taken + [FromMailbox(Login(account, replyTo), ok)] + tape;
      var started := BeginLogin(account, replyTo, ok);
      Handled(FromMailbox(Login(account, replyTo), ok));

      var done, loginIds := !started, None;
      while !done && tape != []
        invariant Valid() && taken + tape == all && |tape| <= old(|tape|)
        invariant waiting == if done then Main else LoggingIn(account, replyTo, loginIds)
        invariant !done ==> session.Some?
        decreases |tape|
      {
        var input := tape[0];
        tape := tape[1..];
        assert taken + [input] + tape == all;
        match input {
          case FromMailbox(_, _) =>
          case ClientRegistered(clientId, channel) =>
            tradingClients := tradingClients[clientId := channel];
          case FromExchange(event, accepted) =>
            done, loginIds := OnLoginEvent(event, accepted, account, replyTo, loginIds);
        }
        Handled(input);
      }
    }

    /** The cancel request proper: one API call, then the cancel loop if the call was taken. */
    method BeginCancel(cancel: CancelRequest, ids: Ids, replyTo: Channel, ok: bool) returns (requestId: int)
      requires waiting.Main? && loggedInIds == Some(ids) && session.Some?
      modifies this
      ensures State() == LoggedInCommand(old(State()), CancelOrder(cancel, replyTo), ok)
      ensures unchanged(`taken) && unchanged(`tape)
      ensures waiting == if ok then Cancelling(cancel, requestId, replyTo) else Main
    {
      var orderRef := None;
      if cancel.clientOrderId.Some? {
        orderRef := Some(OrderRef.NormalizeOrderRef(cancel.clientOrderId.value));
      }
      requestId := NextRequestId();
      calls := calls + [ReqCancel(ids, orderRef, cancel.exchangeOrderId, requestId)];
      waiting := if ok then Cancelling(cancel, requestId, replyTo) else Main;
    }

    /** One event of the cancel loop. */
    method OnCancelEvent(event: Event, cancel: CancelRequest, requestId: int, replyTo: Channel) returns (done: bool)
      requires waiting == Cancelling(cancel, requestId, replyTo)
      modifies this
      ensures State() == CancelEvent(old(State()), event)
      ensures unchanged(`taken) && unchanged(`tape)
      ensures waiting == if done then Main else old(waiting)
    {
      done := false;
      match event {
        case OrderReturn(report) =>
          PushReport(event);
          done := IsTarget(cancel, report) && IsTerminal(report.status);
        case TradeReturn(_) =>
          PushReport(event);
        case CancelActionOk(id) =>
          done := id == requestId;
        case CancelActionFailed(id, error) =>
          if id == requestId {
            SendError(replyTo, error);
            done := true;
          }
        case FrontDisconnected(_) =>
          done := true;
        case _ =>
      }
      if done {
        waiting := Main;
      }
    }

    method DriveCancelOrder(cancel: CancelRequest, ids: Ids, replyTo: Channel, ok: bool)
      requires Valid() && waiting.Main? && loggedInIds == Some(ids) && session.Some?
      modifies this
      ensures Valid() && taken + tape == old(taken) + [FromMailbox(CancelOrder(cancel, replyTo), ok)] + old(tape)
      ensures |tape| <= old(|tape|) && (waiting.Main? || tape == [])
    {
      ghost var all := taken + [FromMailbox(CancelOrder(cancel, replyTo), ok)] + tape;
      var requestId := BeginCancel(cancel, ids, replyTo, ok);
      Handled(FromMailbox(CancelOrder(cancel, replyTo), ok));

      var done := !ok;
      while !done && tape != []
        invariant Valid() && taken + tape == all && |tape| <= old(|tape|)
        invariant waiting == if done then Main else Cancelling(cancel, requestId, replyTo)
        decreases |tape|
      {
        var input := tape[0];
        tape := tape[1..];
        assert taken + [input] + tape == all;
        match input {
          case FromMailbox(_, _) =>
          case ClientRegistered(clientId, channel) =>
            tradingClients := tradingClients[clientId := channel];
          case FromExchange(event, _) =>
            done := OnCancelEvent(event, cancel, requestId, replyTo);
        }
        Handled(input);
      }
    }

    /** The next event the query loops act on; returns are pushed on the way. `None`: still waiting. */
    method WaitActionableEvent() returns (found: Option<Input>)
      requires Valid() && waiting.Querying?
      modifies this
      ensures Valid() && waiting == old(waiting)
      ensures |tape| <= old(|tape|)
      ensures found.None? ==> tape == [] && taken + tape == old(taken + tape)
      ensures found.Some? ==> |tape| < old(|tape|) && taken + [found.value] + tape == old(taken + tape)
      ensures found.Some? ==> found.value.FromExchange?
                              && !found.value.event.OrderReturn? && !found.value.event.TradeReturn?
    {
      ghost var all := taken + tape;
      while tape != []
        invariant Valid() && waiting == old(waiting)
        invariant taken + tape == all && |tape| <= old(|tape|)
        decreases |tape|
      {
        var input := tape[0];
        tape := tape[1..];
        assert taken + [input] + tape == all;
        match input {
          case FromMailbox(_, _) =>
          case ClientRegistered(clientId, channel) =>
            tradingClients := tradingClients[clientId := channel];
          case FromExchange(event, _) =>
            if event.OrderReturn? || event.TradeReturn? {
              PushReport(event);
            } else {
              return Some(input);
            }
        }
        Handled(input);
      }
      found := None;
    }

    method BeginQuery(kind: QueryKind, queried: AccountId, instrumentId: Option<InstrumentId>, replyTo: Channel,
                      ok: bool)
      returns (requestId: int)
      requires waiting.Main? && loggedInIds.Some? && session.Some?
      modifies this
      ensures State() == LoggedInCommand(old(State()), Query(kind, queried, instrumentId, replyTo), ok)
      ensures unchanged(`taken) && unchanged(`tape)
      ensures waiting == if ok then Querying(kind, queried, requestId, replyTo) else Main
    {
      requestId := NextRequestId();
      calls := calls + [ReqQuery(kind, if kind.Positions? then instrumentId else None, requestId)];
      waiting := if ok then Querying(kind, queried, requestId, replyTo) else Main;
    }

    /** One actionable event of a query loop: answers the requester if it is this query's own. */
    method OnQueryEvent(event: Event, kind: QueryKind, queried: AccountId, requestId: int, replyTo: Channel)
      returns (done: bool)
      requires waiting == Querying(kind, queried, requestId, replyTo)
      requires !event.OrderReturn? && !event.TradeReturn?
      modifies this
      ensures State() == QueryEvent(old(State()), event)
      ensures unchanged(`taken) && unchanged(`tape)
      ensures waiting == if done then Main else old(waiting)
    {
      done := false;
      match event {
        case QueryReady(answered, id, records) =>
          if answered == kind && id == requestId {
            replies := replies + [Reply(replyTo, QueryResult(kind, RowsOf(orderRegistry, queried, records)))];
            done := true;
          }
        case QueryFailed(id, error) =>
          if id == requestId {
            SendError(replyTo, error);
            done := true;
          }
        case _ =>
      }
      if done {
        waiting := Main;
      }
    }

    method DriveQuery(kind: QueryKind, queried: AccountId, instrumentId: Option<InstrumentId>, replyTo: Channel,
                      ok: bool)
      requires Valid() && waiting.Main? && loggedInIds.Some? && session.Some?
      modifies this
      ensures Valid()
      ensures taken + tape == old(taken) + [FromMailbox(Query(kind, queried, instrumentId, replyTo), ok)] + old(tape)
      ensures |tape| <= old(|tape|) && (waiting.Main? || tape == [])
    {
      ghost var asked := FromMailbox(Query(kind, queried, instrumentId, replyTo), ok);
      ghost var all := taken + [asked] + tape;
      var requestId := BeginQuery(kind, queried, instrumentId, replyTo, ok);
      Handled(asked);

      var done := !ok;
      while !done && tape != []
        invariant Valid() && taken + tape == all && |tape| <= old(|tape|)
        invariant waiting == if done then Main else Querying(kind, queried, requestId, replyTo)
        decreases |tape|
      {
        var found := WaitActionableEvent();
        if found.None? {
          return;
        }
        done := OnQueryEvent(found.value.event, kind, queried, requestId, replyTo);
        Handled(found.value);
      }
    }
  }
}
