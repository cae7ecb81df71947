/** What the commands a session takes come to: pushes, answers and requests, read off the commands. */
module TradeCommands {
  import opened Wrappers
  import opened TradeTypes
  import opened TradeActor
  import opened TradeRuns
  import OrderRef

  // ---- orders ----

  /** An order command as it was taken from the mailbox. */
  datatype Placed = Placed(clientId: ClientId, order: OrderRequest)

  /** The order commands taken while logged in, since the last logout that was. */
  function PlacedSince(a: Actor, inputs: seq<Input>): seq<Placed> {
    if inputs == [] then []
    else
      var before := Run(a, inputs[..|inputs| - 1]);
      var earlier := PlacedSince(a, inputs[..|inputs| - 1]);
      var last := inputs[|inputs| - 1];
      if last.FromMailbox? && before.mode.Main? && before.ids.Some? then
        match last.command
        case PlaceOrder(clientId, order, _) => earlier + [Placed(clientId, order)]
        case Logout(_) => []
        case _ => earlier
      else earlier
  }

  /** What is remembered of an order is what its command said, field by field. */
  predicate Remembers(context: OrderContext, placed: Placed) {
    && context.clientId == placed.clientId && context.clientOrderId == placed.order.clientOrderId
    && context.accountId == placed.order.accountId && context.instrumentId == placed.order.instrumentId
    && context.direction == placed.order.direction && context.offset == placed.order.offset
    && context.orderType == placed.order.orderType && context.price == placed.order.price
    && context.volume == placed.order.volume
  }

  lemma {:induction false} AttemptsRemember(a: Actor, inputs: seq<Input>)
    ensures |Attempts(a, inputs)| == |PlacedSince(a, inputs)|
    ensures forall k | 0 <= k < |PlacedSince(a, inputs)| :: Remembers(Attempts(a, inputs)[k], PlacedSince(a, inputs)[k])
  {
    if inputs != [] {
      AttemptsRemember(a, inputs[..|inputs| - 1]);
    }
  }

  /** The reference an order was written under. */
  function WrittenRef(placed: Placed): string {
    OrderRef.NormalizeOrderRef(placed.order.clientOrderId)
  }

  /** `placed[k]` is the latest of the orders written under its reference. */
  ghost predicate IsLatestPlaced(placed: seq<Placed>, k: nat) {
    k < |placed| && forall j | k < j < |placed| :: WrittenRef(placed[j]) != WrittenRef(placed[k])
  }

  /** The event is a return that carries the reference. */
  predicate ReturnsRef(event: Event, orderRef: string) {
    || (event.OrderReturn? && event.order.clientOrderId == orderRef)
    || (event.TradeReturn? && event.trade.clientOrderId == Some(orderRef))
  }

  /** What a client is told of a return of an order it placed. */
  ghost predicate TellsOf(event: Event, placed: Placed, message: Message) {
    match event
    case OrderReturn(report) =>
      message.OrderUpdate? && message.order == report && Remembers(message.context, placed)
    case TradeReturn(report) => message == TradeUpdate(report, placed.order.accountId)
    case _ => false
  }

  /**
   * After any run, a return that carries the reference an order was written under, whatever padding
   * surrounds it, makes one push: to the client of the latest such order command since the last
   * logout, on the channel it is registered with, telling what that command said.
   */
  lemma ReturnReachesLatestCommand(accountId: AccountId, routes: map<ClientId, Channel>, inputs: seq<Input>,
                                   k: nat, orderRef: string, event: Event, ok: bool)
    requires var a := Run(Started(accountId, routes), inputs);
             var placed := PlacedSince(Started(accountId, routes), inputs);
             && PollsExchange(a) && !a.mode.LoggingIn?
             && IsLatestPlaced(placed, k) && ReturnsRef(event, orderRef)
             && OrderRef.IsPaddingOf(orderRef, WrittenRef(placed[k]))
    ensures var a := Run(Started(accountId, routes), inputs);
            var placed := PlacedSince(Started(accountId, routes), inputs)[k];
            var pushes := Step(a, FromExchange(event, ok)).pushes;
            && |pushes| == |a.pushes| + 1 && pushes[..|a.pushes|] == a.pushes
            && var push := pushes[|a.pushes|];
               && push.clientId == placed.clientId && TellsOf(event, placed, push.message)
               && push.channel == if placed.clientId in a.routes then Some(a.routes[placed.clientId]) else None
  {
    var start := Started(accountId, routes);
    AttemptsRemember(start, inputs);
    var attempts := Attempts(start, inputs);
    assert IsLatest(attempts, attempts[k].OrderRefKey(), k);
    StepPushes(Run(start, inputs), FromExchange(event, ok));
    ReturnReachesLatestOrder(accountId, routes, inputs, k, event, ok);
  }

  lemma RegisteredRefWasPlaced(a: Actor, inputs: seq<Input>, key: string)
    requires Coherent(a) && a.registry == map[] && key in Run(a, inputs).registry
    ensures exists k :: 0 <= k < |PlacedSince(a, inputs)| && WrittenRef(PlacedSince(a, inputs)[k]) == key
  {
    AttemptsRemember(a, inputs);
    RegistryIsLastWriterWins(a, inputs);
    var l :| IsLatest(Attempts(a, inputs), key, l);
    assert WrittenRef(PlacedSince(a, inputs)[l]) == key;
  }

  /** A return whose reference no order command since the last logout was written under is not pushed to anyone. */
  lemma UnknownReturnIsDropped(accountId: AccountId, routes: map<ClientId, Channel>, inputs: seq<Input>,
                               orderRef: string, event: Event, ok: bool)
    requires ReturnsRef(event, orderRef)
    requires var placed := PlacedSince(Started(accountId, routes), inputs);
             forall k | 0 <= k < |placed| :: WrittenRef(placed[k]) != OrderRef.NormalizeOrderRef(orderRef)
    ensures var a := Run(Started(accountId, routes), inputs); Step(a, FromExchange(event, ok)).pushes == a.pushes
  {
    var start := Started(accountId, routes);
    var a := Run(start, inputs);
    if OrderRef.NormalizeOrderRef(orderRef) in a.registry {
      RegisteredRefWasPlaced(start, inputs, OrderRef.NormalizeOrderRef(orderRef));
    }
    StepPushes(a, FromExchange(event, ok));
  }

  /** A trade return without a reference is not pushed to anyone. */
  lemma AnonymousTradeIsDropped(a: Actor, report: TradeReport, ok: bool)
    requires report.clientOrderId.None?
    ensures Step(a, FromExchange(TradeReturn(report), ok)).pushes == a.pushes
  {
    StepPushes(a, FromExchange(TradeReturn(report), ok));
  }

  /** The channel a client registered last, if it did. */
  function LastRegistration(inputs: seq<Input>, clientId: ClientId): Option<Channel> {
    if inputs == [] then None
    else
      var last := inputs[|inputs| - 1];
      if last.ClientRegistered? && last.clientId == clientId then Some(last.channel)
      else LastRegistration(inputs[..|inputs| - 1], clientId)
  }

  lemma CommandKeepsRoutes(a: Actor, command: Command, ok: bool)
    ensures a.ids.Some? ==> LoggedInCommand(a, command, ok).routes == a.routes
    ensures LoggedOutCommand(a, command, ok).routes == a.routes
  {
  }

  lemma EventKeepsRoutes(a: Actor, event: Event, ok: bool)
    ensures LoggedInEvent(a, event).routes == a.routes
    ensures a.mode.LoggingIn? ==> LoginEvent(a, event, ok).routes == a.routes
    ensures a.mode.Cancelling? ==> CancelEvent(a, event).routes == a.routes
    ensures a.mode.Querying? ==> QueryEvent(a, event).routes == a.routes
  {
  }

  /** Over every run, pushes go by each client's last registration. */
  lemma {:induction false} RoutesAreLastRegistrations(accountId: AccountId, inputs: seq<Input>, clientId: ClientId)
    ensures var a := Run(Started(accountId, map[]), inputs);
            LastRegistration(inputs, clientId) == if clientId in a.routes then Some(a.routes[clientId]) else None
  {
    if inputs != [] {
      var earlier, last := inputs[..|inputs| - 1], inputs[|inputs| - 1];
      RoutesAreLastRegistrations(accountId, earlier, clientId);
      var a := Run(Started(accountId, map[]), earlier);
      match last
      case ClientRegistered(_, _) =>
      case FromMailbox(command, ok) => CommandKeepsRoutes(a, command, ok);
      case FromExchange(event, ok) => EventKeepsRoutes(a, event, ok);
    }
  }

  // ---- what commands are answered ----

  /** Without a login only a login is taken: orders and other commands are refused with error -11. */
  lemma LoggedOutAnswers(a: Actor, command: Command, ok: bool)
    requires a.mode.Main? && a.ids.None?
    ensures var b := Step(a, FromMailbox(command, ok));
            match command
            case Login(accountId, replyTo) =>
              if a.session.None? && !ok
              then b == a.(replies := a.replies + [Reply(replyTo, AccountStateUpdate(a.accountId, Error, None))])
              else && b.replies == a.replies + [Reply(replyTo, AccountStateUpdate(accountId, Connecting, None))]
                   && b.mode == LoggingIn(accountId, replyTo, None) && b.session == Some(a.session.GetOr(0))
                   && b.calls == a.calls
            case Logout(replyTo) =>
              b == a.(replies := a.replies + [Reply(replyTo, AccountStateUpdate(a.accountId, Disconnected, None))])
            case _ =>
              && b.mode == a.mode && b.calls == a.calls && b.session == a.session && b.registry == a.registry
              && |b.replies| == |a.replies| + 1 && b.replies[..|a.replies|] == a.replies
              && b.replies[|a.replies|].channel == command.replyTo
              && b.replies[|a.replies|].message.ErrorResponse? && b.replies[|a.replies|].message.error.id == -11
  {
  }

  /** An order whose submission the API refuses is answered with error -10, and stays registered all the same. */
  lemma OrderAnswers(a: Actor, clientId: ClientId, order: OrderRequest, replyTo: Channel, ok: bool)
    requires a.mode.Main? && a.ids.Some? && a.session.Some?
    ensures var b := Step(a, FromMailbox(PlaceOrder(clientId, order, replyTo), ok));
            var key := OrderRef.NormalizeOrderRef(order.clientOrderId);
            && b.mode.Main? && key in b.registry && Remembers(b.registry[key], Placed(clientId, order))
            && (ok ==> b.replies == a.replies)
            && (!ok ==> && |b.replies| == |a.replies| + 1 && b.replies[..|a.replies|] == a.replies
                        && b.replies[|a.replies|].channel == replyTo
                        && b.replies[|a.replies|].message.ErrorResponse?
                        && b.replies[|a.replies|].message.error.id == -10)
  {
  }

  /** A cancel or query the API refuses is not answered, and the actor goes on to the next command. */
  lemma RefusedRequestIsSilent(a: Actor, command: Command)
    requires a.mode.Main? && a.ids.Some? && a.session.Some? && (command.CancelOrder? || command.Query?)
    ensures var b := Step(a, FromMailbox(command, false)); b.mode.Main? && b.replies == a.replies
    ensures !Step(a, FromMailbox(command, true)).mode.Main? && Step(a, FromMailbox(command, true)).replies == a.replies
  {
  }

  /** A cancel by exchange id alone names no reference, and carries the ids of the live login. */
  lemma CancelByExchangeId(a: Actor, cancel: CancelRequest, replyTo: Channel, ok: bool)
    requires a.mode.Main? && a.ids.Some? && a.session.Some? && cancel.clientOrderId.None?
    ensures Step(a, FromMailbox(CancelOrder(cancel, replyTo), ok)).calls
            == a.calls + [ReqCancel(a.ids.value, None, cancel.exchangeOrderId, RequestId(a.session.value + 1))]
  {
  }

  /** A login command while logged in is answered with the account and ids of the login there is. */
  lemma RepeatedLoginIsAnswered(a: Actor, accountId: AccountId, replyTo: Channel, ok: bool)
    requires a.mode.Main? && a.ids.Some?
    ensures Step(a, FromMailbox(Login(accountId, replyTo), ok))
            == a.(replies := a.replies + [Reply(replyTo, AccountStateUpdate(accountId, LoggedIn, a.ids))])
  {
  }

  /** A logout of a login reports it, forgets the orders and releases the session. */
  lemma LogoutForgetsSession(a: Actor, replyTo: Channel, ok: bool)
    requires a.mode.Main? && a.ids.Some?
    ensures Step(a, FromMailbox(Logout(replyTo), ok))
            == a.(session := None, ids := None, registry := map[],
                  replies := a.replies + [Reply(replyTo, AccountStateUpdate(a.accountId, Disconnected, None))])
  {
  }

  /** So the next login starts a new session, whose requests are numbered from 1 again. */
  lemma LoginAfterLogoutStartsOver(a: Actor, accountId: AccountId, replyTo: Channel, ok: bool, accepted: bool)
    requires a.mode.Main? && a.ids.Some?
    ensures var b := Step(Step(a, FromMailbox(Logout(replyTo), ok)), FromMailbox(Login(accountId, replyTo), true));
            && b.session == Some(0)
            && Step(b, FromExchange(FrontConnected, accepted)).calls == a.calls + [ReqAuthenticate(1)]
  {
    LogoutForgetsSession(a, replyTo, ok);
    LoggedOutAnswers(Step(a, FromMailbox(Logout(replyTo), ok)), Login(accountId, replyTo), true);
  }

  /** Request ids are 32-bit and count up from one. */
  lemma RequestIdIsWrapped(n: nat)
    ensures -0x8000_0000 <= RequestId(n) < 0x8000_0000 && (n - RequestId(n)) % 0x1_0000_0000 == 0
    ensures n < 0x8000_0000 ==> RequestId(n) == n
  {
    var x := n + TWO_31;
    assert x == TWO_32 * (x / TWO_32) + x % TWO_32;
    assert n - RequestId(n) == TWO_32 * (x / TWO_32);
  }
}
