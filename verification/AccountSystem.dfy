/**
 * From a client's request to the exchange: the server's entry points fill an account's mailbox, the
 * account's actor empties it in order.
 */
module AccountSystem {
  import opened Wrappers
  import opened TradeTypes
  import opened TradeActor
  import opened Sessions
  import opened ServerState
  import opened Permissions
  import OrderRef
  import TradeRuns

  /** The server, one account's actor, and how much of the account's mailbox it has taken. */
  datatype AccountState = AccountState(server: Server, actor: Actor, taken: nat)

  datatype AccountInput =
    | Arrive(arrival: Arrival)
    | TakeNext(ok: bool)
    | Exchange(event: Event, ok: bool)

  function StartedAccount(config: seq<ConfigEntry>, accountId: AccountId): AccountState {
    AccountState(Configured(config), Started(accountId, map[]), 0)
  }

  function Box(s: AccountState): seq<Command> {
    Mailbox(s.server, s.actor.accountId)
  }

  /** The actor takes from its mailbox only in its main loop. */
  predicate Takes(s: AccountState, input: AccountInput) {
    input.TakeNext? && s.actor.mode.Main? && s.taken < |Box(s)|
  }

  function AccountStep(s: AccountState, input: AccountInput): AccountState {
    match input
    case Arrive(arrival) =>
      s.(server := ArrivalStep(s.server, arrival).0,
         actor := if arrival.request.Hello?
                  then Step(s.actor, ClientRegistered(arrival.request.c, arrival.request.channel)) else s.actor)
    case TakeNext(ok) =>
      if Takes(s, input) then s.(actor := Step(s.actor, FromMailbox(Box(s)[s.taken], ok)), taken := s.taken + 1) else s
    case Exchange(event, ok) => s.(actor := Step(s.actor, FromExchange(event, ok)))
  }

  function AccountRun(s: AccountState, inputs: seq<AccountInput>): AccountState {
    if inputs == [] then s else AccountStep(AccountRun(s, inputs[..|inputs| - 1]), inputs[|inputs| - 1])
  }

  function Arrivals(inputs: seq<AccountInput>): seq<Arrival> {
    if inputs == [] then []
    else
      var last := inputs[|inputs| - 1];
      Arrivals(inputs[..|inputs| - 1]) + if last.Arrive? then [last.arrival] else []
  }

  // ---- the orders, cancels and queries an actor issues ----

  predicate IsClientCall(call: ApiCall) {
    call.ReqInsert? || call.ReqCancel? || call.ReqQuery?
  }

  function ClientCalls(calls: seq<ApiCall>): seq<ApiCall> {
    if calls == [] then []
    else
      var last := calls[|calls| - 1];
      ClientCalls(calls[..|calls| - 1]) + if IsClientCall(last) then [last] else []
  }

  /** The call asks the exchange for what the command says. */
  predicate Carries(call: ApiCall, command: Command) {
    match command
    case PlaceOrder(_, order, _) => call.ReqInsert? && call.newRef == OrderRef.NormalizeOrderRef(order.clientOrderId)
    case CancelOrder(cancel, _) =>
      && call.ReqCancel? && call.exchangeOrderId == cancel.exchangeOrderId
      && call.orderRef == (match cancel.clientOrderId
                           case None => None
                           case Some(id) => Some(OrderRef.NormalizeOrderRef(id)))
    case Query(kind, _, instrumentId, _) =>
      call.ReqQuery? && call.kind == kind && call.instrumentId == if kind == Positions then instrumentId else None
    case _ => false
  }

  predicate NeedsCall(command: Command) {
    command.PlaceOrder? || command.CancelOrder? || command.Query?
  }

  /** The command an input makes the actor carry out at the exchange, if it does. */
  function CommandServed(s: AccountState, input: AccountInput): seq<Command> {
    if Takes(s, input) && s.actor.ids.Some? && NeedsCall(Box(s)[s.taken]) then [Box(s)[s.taken]] else []
  }

  function CommandsServed(s: AccountState, inputs: seq<AccountInput>): seq<Command> {
    if inputs == [] then []
    else
      CommandsServed(s, inputs[..|inputs| - 1])
      + CommandServed(AccountRun(s, inputs[..|inputs| - 1]), inputs[|inputs| - 1])
  }

  /** `b` has made at most one call more than `a`, and it is a client's exactly when it carries the one command. */
  ghost predicate Orderly(a: Actor, b: Actor, commands: seq<Command>) {
    || (b.calls == a.calls && commands == [])
    || (&& |b.calls| == |a.calls| + 1 && b.calls[..|a.calls|] == a.calls
        && (if IsClientCall(b.calls[|a.calls|]) then |commands| == 1 && Carries(b.calls[|a.calls|], commands[0])
            else commands == []))
  }

  lemma CommandOrderly(a: Actor, command: Command, ok: bool)
    requires TradeRuns.Coherent(a) && a.mode.Main?
    ensures Orderly(a, Step(a, FromMailbox(command, ok)),
                    if a.ids.Some? && NeedsCall(command) then [command] else [])
  {
  }

  lemma LoginOrderly(a: Actor, event: Event, ok: bool)
    requires a.mode.LoggingIn?
    ensures Orderly(a, LoginEvent(a, event, ok), [])
  {
  }

  lemma EventOrderly(a: Actor, event: Event, ok: bool)
    ensures Orderly(a, Step(a, FromExchange(event, ok)), [])
  {
    if a.mode.LoggingIn? {
      LoginOrderly(a, event, ok);
    } else {
      TradeRuns.EventFrame(a, event);
    }
  }

  lemma StepOrderly(s: AccountState, input: AccountInput)
    requires TradeRuns.Coherent(s.actor)
    ensures var t := AccountStep(s, input);
            Orderly(s.actor, t.actor, CommandServed(s, input)) && TradeRuns.Coherent(t.actor)
  {
    match input
    case Arrive(arrival) =>
    case TakeNext(ok) =>
      if Takes(s, input) {
        CommandOrderly(s.actor, Box(s)[s.taken], ok);
        TradeRuns.StepCoherent(s.actor, FromMailbox(Box(s)[s.taken], ok));
      }
    case Exchange(event, ok) =>
      EventOrderly(s.actor, event, ok);
      TradeRuns.StepCoherent(s.actor, FromExchange(event, ok));
  }

  ghost predicate Carried(calls: seq<ApiCall>, commands: seq<Command>) {
    |calls| == |commands| && forall k | 0 <= k < |calls| :: Carries(calls[k], commands[k])
  }

  lemma CarriedStep(a: Actor, b: Actor, commands: seq<Command>, more: seq<Command>)
    requires Carried(ClientCalls(a.calls), commands) && Orderly(a, b, more)
    ensures Carried(ClientCalls(b.calls), commands + more)
  {
    if b.calls == a.calls {
      assert more == [] || |b.calls| == |a.calls| + 1;
    } else {
      assert ClientCalls(b.calls) == ClientCalls(a.calls)
             + if IsClientCall(b.calls[|a.calls|]) then [b.calls[|a.calls|]] else [];
    }
  }

  /** Every insert, cancel or query the actor issues carries a command it took, in the order it took them. */
  lemma {:induction false} CallsCarryCommandsTaken(s: AccountState, inputs: seq<AccountInput>)
    requires TradeRuns.Coherent(s.actor) && ClientCalls(s.actor.calls) == []
    ensures Carried(ClientCalls(AccountRun(s, inputs).actor.calls), CommandsServed(s, inputs))
    ensures TradeRuns.Coherent(AccountRun(s, inputs).actor)
  {
    if inputs != [] {
      var earlier, last := inputs[..|inputs| - 1], inputs[|inputs| - 1];
      CallsCarryCommandsTaken(s, earlier);
      var before := AccountRun(s, earlier);
      StepOrderly(before, last);
      CarriedStep(before.actor, AccountStep(before, last).actor, CommandsServed(s, earlier),
                  CommandServed(before, last));
    }
  }

  // ---- and the commands come from authorised requests, in order ----

  predicate IsSubsequence<T(==)>(xs: seq<T>, ys: seq<T>) {
    if xs == [] then true
    else if ys == [] then false
    else
      || (xs[|xs| - 1] == ys[|ys| - 1] && IsSubsequence(xs[..|xs| - 1], ys[..|ys| - 1]))
      || IsSubsequence(xs, ys[..|ys| - 1])
  }

  lemma SubsequenceGrows<T>(xs: seq<T>, ys: seq<T>, y: T)
    requires IsSubsequence(xs, ys)
    ensures IsSubsequence(xs, ys + [y]) && IsSubsequence(xs + [y], ys + [y])
  {
    assert (ys + [y])[..|ys|] == ys && (xs + [y])[..|xs|] == xs;
  }

  lemma {:induction false} SubsequenceIsContained<T>(xs: seq<T>, ys: seq<T>, k: nat)
    requires IsSubsequence(xs, ys) && k < |xs|
    ensures xs[k] in ys
  {
    if IsSubsequence(xs, ys[..|ys| - 1]) {
      SubsequenceIsContained(xs, ys[..|ys| - 1], k);
    } else if k < |xs| - 1 {
      SubsequenceIsContained(xs[..|xs| - 1], ys[..|ys| - 1], k);
    }
  }

  lemma CommandKeepsAccount(a: Actor, command: Command, ok: bool)
    ensures a.ids.Some? ==> LoggedInCommand(a, command, ok).accountId == a.accountId
    ensures LoggedOutCommand(a, command, ok).accountId == a.accountId
  {
  }

  lemma EventKeepsAccount(a: Actor, event: Event)
    ensures LoggedInEvent(a, event).accountId == a.accountId
    ensures a.mode.Cancelling? ==> CancelEvent(a, event).accountId == a.accountId
    ensures a.mode.Querying? ==> QueryEvent(a, event).accountId == a.accountId
  {
  }

  lemma LoginKeepsAccount(a: Actor, event: Event, ok: bool)
    requires a.mode.LoggingIn?
    ensures LoginEvent(a, event, ok).accountId == a.accountId
  {
  }

  lemma StepKeepsAccount(a: Actor, input: Input)
    ensures Step(a, input).accountId == a.accountId
  {
    match input
    case ClientRegistered(_, _) =>
    case FromMailbox(command, ok) => CommandKeepsAccount(a, command, ok);
    case FromExchange(event, ok) =>
      match a.mode
      case LoggingIn(_, _, _) => LoginKeepsAccount(a, event, ok);
      case _ => EventKeepsAccount(a, event);
  }

  lemma {:induction false} ServerIsRunOfArrivals(config: seq<ConfigEntry>, accountId: AccountId,
                                                 inputs: seq<AccountInput>)
    ensures var s := AccountRun(StartedAccount(config, accountId), inputs);
            s.server == ServerRun(Configured(config), Arrivals(inputs)) && s.actor.accountId == accountId
  {
    if inputs != [] {
      var earlier, last := inputs[..|inputs| - 1], inputs[|inputs| - 1];
      ServerIsRunOfArrivals(config, accountId, earlier);
      var before := AccountRun(StartedAccount(config, accountId), earlier);
      assert Arrivals(earlier) + [] == Arrivals(earlier);
      match last
      case Arrive(arrival) =>
        assert (Arrivals(earlier) + [arrival])[..|Arrivals(earlier)|] == Arrivals(earlier);
      case TakeNext(ok) =>
        if Takes(before, last) {
          StepKeepsAccount(before.actor, FromMailbox(Box(before)[before.taken], ok));
        }
      case Exchange(event, ok) => StepKeepsAccount(before.actor, FromExchange(event, ok));
    }
  }

  /** What the actor has taken is a prefix of its mailbox, and its orders are some of it in order. */
  ghost predicate TakenInOrder(s: AccountState, orders: seq<Command>) {
    s.taken <= |Box(s)| && IsSubsequence(orders, Box(s)[..s.taken])
  }

  lemma ArrivalKeepsTaken(s: AccountState, arrival: Arrival, orders: seq<Command>)
    requires TakenInOrder(s, orders)
    ensures TakenInOrder(AccountStep(s, Arrive(arrival)), orders)
  {
    var t := AccountStep(s, Arrive(arrival));
    StepMailbox(s.server, arrival, s.actor.accountId);
    assert Box(t)[..s.taken] == Box(s)[..s.taken];
  }

  lemma TakeKeepsTaken(s: AccountState, ok: bool, orders: seq<Command>)
    requires TakenInOrder(s, orders)
    ensures TakenInOrder(AccountStep(s, TakeNext(ok)), orders + CommandServed(s, TakeNext(ok)))
  {
    if Takes(s, TakeNext(ok)) {
      var command := Box(s)[s.taken];
      StepKeepsAccount(s.actor, FromMailbox(command, ok));
      assert Box(s)[..s.taken + 1] == Box(s)[..s.taken] + [command];
      SubsequenceGrows(orders, Box(s)[..s.taken], command);
    }
    assert orders + [] == orders;
  }

  lemma {:induction false} TakesInOrder(s: AccountState, inputs: seq<AccountInput>)
    requires TakenInOrder(s, [])
    ensures TakenInOrder(AccountRun(s, inputs), CommandsServed(s, inputs))
  {
    if inputs != [] {
      var earlier, last := inputs[..|inputs| - 1], inputs[|inputs| - 1];
      TakesInOrder(s, earlier);
      var before, orders := AccountRun(s, earlier), CommandsServed(s, earlier);
      assert orders + [] == orders;
      match last
      case Arrive(arrival) => ArrivalKeepsTaken(before, arrival, orders);
      case TakeNext(ok) => TakeKeepsTaken(before, ok, orders);
      case Exchange(event, ok) => StepKeepsAccount(before.actor, FromExchange(event, ok));
    }
  }

  /**
   * End to end, over every run: the inserts, cancels and queries an account's session issues carry, one
   * for one and in order, commands of the requests the configuration authorises for that account; those
   * commands are taken first in, first out.
   */
  lemma CallsTraceToRequests(config: seq<ConfigEntry>, accountId: AccountId, inputs: seq<AccountInput>)
    ensures var start := StartedAccount(config, accountId);
            var s := AccountRun(start, inputs);
            var expected := Expected(config, Arrivals(inputs), accountId);
            && Carried(ClientCalls(s.actor.calls), CommandsServed(start, inputs))
            && s.taken <= |expected| && IsSubsequence(CommandsServed(start, inputs), expected[..s.taken])
  {
    var start := StartedAccount(config, accountId);
    CallsCarryCommandsTaken(start, inputs);
    assert Box(start)[..0] == [];
    TakesInOrder(start, inputs);
    ServerIsRunOfArrivals(config, accountId, inputs);
    MailboxesHoldAuthorisedRequests(config, Arrivals(inputs), accountId);
  }

  /** A request that accounts for a call: it asks for the same, on this account, and its client's rule allows it. */
  ghost predicate Warrants(config: seq<ConfigEntry>, request: Request, accountId: AccountId, call: ApiCall) {
    match call
    case ReqInsert(orderRef, _) =>
      && request.PlaceOrderRequest? && request.order.accountId == accountId
      && orderRef == OrderRef.NormalizeOrderRef(request.order.clientOrderId)
      && LastRule(config, request.c, accountId) in {Some(Full), Some(TradeOnly)}
    case ReqCancel(_, orderRef, exchangeOrderId, _) =>
      && request.CancelOrderRequest? && request.cancel.accountId == accountId
      && exchangeOrderId == request.cancel.exchangeOrderId
      && orderRef == (match request.cancel.clientOrderId
                      case None => None
                      case Some(id) => Some(OrderRef.NormalizeOrderRef(id)))
      && LastRule(config, request.c, accountId) in {Some(Full), Some(TradeOnly)}
    case ReqQuery(kind, instrumentId, _) =>
      && request.QueryRequest? && request.queried == accountId && request.kind == kind
      && instrumentId == (if kind == Positions then request.instrumentId else None)
      && LastRule(config, request.c, accountId) in {Some(Full), Some(QueryOnly)}
    case _ => false
  }

  /** So behind every insert, cancel or query there is a request that accounts for it. */
  lemma EveryCallIsAuthorised(config: seq<ConfigEntry>, accountId: AccountId, inputs: seq<AccountInput>, n: nat)
    requires n < |ClientCalls(AccountRun(StartedAccount(config, accountId), inputs).actor.calls)|
    ensures exists k :: 0 <= k < |Arrivals(inputs)|
              && Warrants(config, Arrivals(inputs)[k].request, accountId,
                          ClientCalls(AccountRun(StartedAccount(config, accountId), inputs).actor.calls)[n])
  {
    CallsTraceToRequests(config, accountId, inputs);
    var start := StartedAccount(config, accountId);
    var box := Mailbox(ServerRun(Configured(config), Arrivals(inputs)), accountId);
    MailboxesHoldAuthorisedRequests(config, Arrivals(inputs), accountId);
    var taken := AccountRun(start, inputs).taken;
    SubsequenceIsContained(CommandsServed(start, inputs), box[..taken], n);
    var m :| 0 <= m < taken && box[..taken][m] == CommandsServed(start, inputs)[n];
    MailboxCommandIsPermitted(config, Arrivals(inputs), accountId, m);
    var k :| 0 <= k < |Arrivals(inputs)| && Asks(Arrivals(inputs)[k].request, accountId, box[m])
             && (box[m].Query? ==>
                   LastRule(config, Arrivals(inputs)[k].request.c, accountId) in {Some(Full), Some(QueryOnly)})
             && (box[m].PlaceOrder? || box[m].CancelOrder? ==>
                   LastRule(config, Arrivals(inputs)[k].request.c, accountId) in {Some(Full), Some(TradeOnly)});
    assert Warrants(config, Arrivals(inputs)[k].request, accountId,
                    ClientCalls(AccountRun(start, inputs).actor.calls)[n]);
  }
}
