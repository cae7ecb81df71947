/** What every run of the trade-session actor keeps, whatever the exchange and the clients do. */
module TradeRuns {
  import opened Wrappers
  import opened TradeTypes
  import opened TradeActor
  import OrderRef

  // ---- the login state machine ----

  /** A login implies a live session, and a nested loop runs only where its commands are accepted. */
  ghost predicate Coherent(a: Actor) {
    && (a.ids.Some? ==> a.session.Some?)
    && (a.mode.LoggingIn? ==> a.ids.None? && a.session.Some?)
    && (a.mode.Cancelling? || a.mode.Querying? ==> a.ids.Some?)
    && (a.mode.Cancelling? || a.mode.Querying? ==> a.mode.requestId == RequestId(a.session.value))
  }

  lemma CommandCoherent(a: Actor, command: Command, ok: bool)
    requires Coherent(a) && a.mode.Main?
    ensures a.ids.Some? ==> Coherent(LoggedInCommand(a, command, ok))
    ensures a.ids.None? ==> Coherent(LoggedOutCommand(a, command, ok))
  {
  }

  lemma EventCoherent(a: Actor, event: Event, ok: bool)
    requires Coherent(a)
    ensures a.mode.Main? ==> Coherent(LoggedInEvent(a, event))
    ensures a.mode.Cancelling? ==> Coherent(CancelEvent(a, event))
    ensures a.mode.Querying? ==> Coherent(QueryEvent(a, event))
  {
  }

  lemma LoginEventCoherent(a: Actor, event: Event, ok: bool)
    requires Coherent(a) && a.mode.LoggingIn?
    ensures Coherent(LoginEvent(a, event, ok))
  {
  }

  lemma StepCoherent(a: Actor, input: Input)
    requires Coherent(a)
    ensures Coherent(Step(a, input))
  {
    match input
    case ClientRegistered(_, _) =>
    case FromMailbox(command, ok) =>
      if a.mode.Main? {
        CommandCoherent(a, command, ok);
      }
    case FromExchange(event, ok) =>
      match a.mode
      case LoggingIn(_, _, _) => LoginEventCoherent(a, event, ok);
      case _ => EventCoherent(a, event, ok);
  }

  lemma {:induction false} RunCoherent(a: Actor, inputs: seq<Input>)
    requires Coherent(a)
    ensures Coherent(Run(a, inputs))
  {
    if inputs != [] {
      RunCoherent(a, inputs[..|inputs| - 1]);
      StepCoherent(Run(a, inputs[..|inputs| - 1]), inputs[|inputs| - 1]);
    }
  }

  /** In every reachable state the "trade session is not connected" branches are dead. */
  lemma NotConnectedIsUnreachable(accountId: AccountId, routes: map<ClientId, Channel>, inputs: seq<Input>)
    ensures var a := Run(Started(accountId, routes), inputs);
            a.ids.Some? ==> a.session.Some? && PollsExchange(a)
  {
    RunCoherent(Started(accountId, routes), inputs);
  }

  predicate SaysLoggedIn(message: Message) {
    message.AccountStateUpdate? && message.state.LoggedIn?
  }

  /** `b` keeps the replies of `a`, and each `LoggedIn` reply it adds carries the ids `b` holds. */
  ghost predicate NewLoginsCarryIds(a: Actor, b: Actor) {
    && a.replies <= b.replies
    && forall k | |a.replies| <= k < |b.replies| && SaysLoggedIn(b.replies[k].message) ::
         b.ids.Some? && b.replies[k].message.ids == b.ids
  }

  lemma CommandLoginsCarryIds(a: Actor, command: Command, ok: bool)
    ensures a.ids.Some? ==> NewLoginsCarryIds(a, LoggedInCommand(a, command, ok))
    ensures NewLoginsCarryIds(a, LoggedOutCommand(a, command, ok))
  {
  }

  lemma LoginLoopLoginsCarryIds(a: Actor, event: Event, ok: bool)
    requires a.mode.LoggingIn?
    ensures NewLoginsCarryIds(a, LoginEvent(a, event, ok))
  {
  }

  /** Every `LoggedIn` message carries the ids the actor holds once the message is sent. */
  lemma LoggedInMessagesCarryStoredIds(a: Actor, input: Input)
    ensures NewLoginsCarryIds(a, Step(a, input))
  {
    match input
    case ClientRegistered(_, _) =>
    case FromMailbox(command, ok) => CommandLoginsCarryIds(a, command, ok);
    case FromExchange(event, ok) =>
      match a.mode
      case LoggingIn(_, _, _) => LoginLoopLoginsCarryIds(a, event, ok);
      case _ => assert Step(a, input).replies == a.replies
                || exists r: Reply :: !SaysLoggedIn(r.message) && Step(a, input).replies == a.replies + [r];
  }

  /** Ids appear only when a settlement confirmation is consumed by the login loop, and never change in place. */
  lemma IdsComeFromSettlement(a: Actor, input: Input)
    requires Coherent(a) && Step(a, input).ids.Some? && Step(a, input).ids != a.ids
    ensures a.ids.None? && a.mode.LoggingIn?
    ensures input.FromExchange? && input.event.SettlementConfirmed?
    ensures Step(a, input).ids == Some(a.mode.loginIds.GetOr(Ids(0, 0)))
  {
    match input
    case ClientRegistered(_, _) =>
    case FromMailbox(command, ok) => CommandFrame(a, command, ok);
    case FromExchange(event, ok) =>
      match a.mode
      case LoggingIn(_, _, _) =>
      case _ => EventFrame(a, event);
  }

  /** What commands leave alone. */
  lemma CommandFrame(a: Actor, command: Command, ok: bool)
    ensures var b := LoggedOutCommand(a, command, ok);
            b.pushes == a.pushes && b.registry == a.registry && b.ids == a.ids && b.stateWrites == a.stateWrites
    ensures a.ids.Some? ==>
              var b := LoggedInCommand(a, command, ok);
              && b.pushes == a.pushes && b.stateWrites == a.stateWrites
              && (if command.Logout? then b.ids.None? && b.registry == map[] else b.ids == a.ids)
              && (!command.Logout? && !command.PlaceOrder? ==> b.registry == a.registry)
  {
  }

  /** What events outside the login loop leave alone. */
  lemma EventFrame(a: Actor, event: Event)
    ensures var b := LoggedInEvent(a, event);
            && b.registry == a.registry && b.calls == a.calls && b.session == a.session && b.replies == a.replies
            && b.ids == if event.FrontDisconnected? then None else a.ids
    ensures a.mode.Cancelling? ==>
              var b := CancelEvent(a, event);
              && b.registry == a.registry && b.calls == a.calls && b.session == a.session && b.ids == a.ids
              && b.stateWrites == a.stateWrites
    ensures a.mode.Querying? ==>
              var b := QueryEvent(a, event);
              && b.registry == a.registry && b.calls == a.calls && b.session == a.session && b.ids == a.ids
              && b.stateWrites == a.stateWrites
  {
  }

  lemma LoginEventFrame(a: Actor, event: Event, ok: bool)
    requires a.mode.LoggingIn?
    ensures var b := LoginEvent(a, event, ok);
            b.pushes == a.pushes && b.registry == a.registry && b.stateWrites == a.stateWrites
  {
  }

  /** The ids of the last `LoginOk` among the inputs. */
  function LastLoginOk(inputs: seq<Input>): Option<Ids> {
    if inputs == [] then None
    else
      var last := inputs[|inputs| - 1];
      if last.FromExchange? && last.event.LoginOk? then Some(last.event.ids)
      else LastLoginOk(inputs[..|inputs| - 1])
  }

  /** `inputs` all arrive while one and the same login call runs. */
  ghost predicate StaysInLogin(a: Actor, inputs: seq<Input>) {
    Run(a, inputs).mode.LoggingIn? && (inputs == [] || StaysInLogin(a, inputs[..|inputs| - 1]))
  }

  lemma {:induction false} LoginRemembersLatestIds(a: Actor, inputs: seq<Input>)
    requires a.mode.LoggingIn? && a.mode.loginIds.None? && StaysInLogin(a, inputs)
    ensures Run(a, inputs).mode == a.mode.(loginIds := LastLoginOk(inputs))
  {
    if inputs != [] {
      LoginRemembersLatestIds(a, inputs[..|inputs| - 1]);
    }
  }

  /** A login call that ends in a settlement confirmation stores the ids of its latest `LoginOk`. */
  lemma LoginStoresLatestIds(a: Actor, inputs: seq<Input>, ok: bool)
    requires a.mode.LoggingIn? && a.mode.loginIds.None? && StaysInLogin(a, inputs)
    ensures Step(Run(a, inputs), FromExchange(SettlementConfirmed, ok)).ids
            == Some(LastLoginOk(inputs).GetOr(Ids(0, 0)))
  {
    LoginRemembersLatestIds(a, inputs);
  }

  /** The inputs that end a login call: a confirmation, a failure, or a handshake request the API refuses. */
  predicate LoginDone(input: Input) {
    && input.FromExchange?
    && match input.event
       case SettlementConfirmed => true
       case AuthenticateFailed(_) => true
       case LoginFailed(_) => true
       case SettlementConfirmFailed(_) => true
       case ResponseError(_, _) => true
       case FrontConnected => !input.ok
       case AuthenticateOk => !input.ok
       case LoginOk(_) => !input.ok
       case _ => false
  }

  /** The connection states a running login reports for an input. */
  function Notice(input: Input): (r: seq<ConnectionState>)
    ensures forall state | state in r :: !state.LoggedIn? && !state.Error?
  {
    if !input.FromExchange? then []
    else if input.event.FrontConnected? then [Authenticating]
    else if input.event.FrontDisconnected? then [Disconnected]
    else []
  }

  function Notices(inputs: seq<Input>): seq<ConnectionState> {
    if inputs == [] then [] else Notices(inputs[..|inputs| - 1]) + Notice(inputs[|inputs| - 1])
  }

  function StateReplies(accountId: AccountId, replyTo: Channel, states: seq<ConnectionState>): (r: seq<Reply>)
    ensures |r| == |states|
  {
    seq(|states|, i requires 0 <= i < |states| => Reply(replyTo, AccountStateUpdate(accountId, states[i], None)))
  }

  /** The last word of a login call: the ids on a confirmation, else an error. */
  function Verdict(a: Actor, inputs: seq<Input>, last: Input): Message
    requires a.mode.LoggingIn? && LoginDone(last)
  {
    if last.event.SettlementConfirmed?
    then AccountStateUpdate(a.mode.accountId, LoggedIn, Some(LastLoginOk(inputs).GetOr(Ids(0, 0))))
    else AccountStateUpdate(a.accountId, Error, None)
  }

  ghost predicate NothingEndsLogin(inputs: seq<Input>) {
    inputs == [] || (NothingEndsLogin(inputs[..|inputs| - 1]) && !LoginDone(inputs[|inputs| - 1]))
  }

  /** `b` is still in the login call `a` is in, and has reported `states` since. */
  ghost predicate LoginGoesOn(a: Actor, b: Actor, states: seq<ConnectionState>) {
    && a.mode.LoggingIn? && b.mode.LoggingIn? && b.mode == a.mode.(loginIds := b.mode.loginIds)
    && b.accountId == a.accountId && b.ids == a.ids
    && b.replies == a.replies + StateReplies(a.mode.accountId, a.mode.replyTo, states)
  }

  lemma LoginStepGoesOn(a: Actor, input: Input)
    requires a.mode.LoggingIn? && !LoginDone(input)
    ensures LoginGoesOn(a, Step(a, input), Notice(input))
  {
  }

  lemma LoginGoesOnAppend(a: Actor, b: Actor, c: Actor, states: seq<ConnectionState>, more: seq<ConnectionState>)
    requires LoginGoesOn(a, b, states) && LoginGoesOn(b, c, more)
    ensures LoginGoesOn(a, c, states + more)
  {
  }

  lemma {:induction false} LoginKeepsWaiting(a: Actor, inputs: seq<Input>)
    requires a.mode.LoggingIn? && NothingEndsLogin(inputs)
    ensures StaysInLogin(a, inputs) && LoginGoesOn(a, Run(a, inputs), Notices(inputs))
  {
    if inputs != [] {
      var earlier, last := inputs[..|inputs| - 1], inputs[|inputs| - 1];
      LoginKeepsWaiting(a, earlier);
      LoginStepGoesOn(Run(a, earlier), last);
      LoginGoesOnAppend(a, Run(a, earlier), Step(Run(a, earlier), last), Notices(earlier), Notice(last));
    }
  }

  lemma LoginStepEnds(a: Actor, input: Input)
    requires a.mode.LoggingIn? && LoginDone(input)
    ensures var b := Step(a, input);
            && b.mode.Main?
            && (if input.event.SettlementConfirmed? then b.ids == Some(a.mode.loginIds.GetOr(Ids(0, 0)))
                else b.ids == a.ids)
            && b.replies == a.replies + StateReplies(a.mode.accountId, a.mode.replyTo, Notice(input))
                 + [Reply(a.mode.replyTo,
                          if input.event.SettlementConfirmed? then AccountStateUpdate(a.mode.accountId, LoggedIn, b.ids)
                          else AccountStateUpdate(a.accountId, Error, None))]
  {
  }

  /**
   * The login loop stops at the first input that ends it and not before. Over the whole call the
   * requester is told of each connect and disconnect in order and then, once, how it ended.
   */
  lemma LoginStopsAtFirstEnd(a: Actor, inputs: seq<Input>, last: Input)
    requires a.mode.LoggingIn? && a.mode.loginIds.None? && NothingEndsLogin(inputs)
    ensures var b := Step(Run(a, inputs), last);
            && (if LoginDone(last) then b.mode.Main? else b.mode.LoggingIn?)
            && b.ids == (if LoginDone(last) && last.event.SettlementConfirmed?
                         then Some(LastLoginOk(inputs).GetOr(Ids(0, 0))) else a.ids)
            && b.replies == a.replies
                 + StateReplies(a.mode.accountId, a.mode.replyTo, Notices(inputs) + Notice(last))
                 + if LoginDone(last) then [Reply(a.mode.replyTo, Verdict(a, inputs, last))] else []
  {
    LoginKeepsWaiting(a, inputs);
    LoginRemembersLatestIds(a, inputs);
    var before := Run(a, inputs);
    if LoginDone(last) {
      LoginStepEnds(before, last);
      var account, replyTo := a.mode.accountId, a.mode.replyTo;
      assert StateReplies(account, replyTo, Notices(inputs)) + StateReplies(account, replyTo, Notice(last))
          == StateReplies(account, replyTo, Notices(inputs) + Notice(last));
    } else {
      LoginStepGoesOn(before, last);
      LoginGoesOnAppend(a, before, Step(before, last), Notices(inputs), Notice(last));
    }
  }

  /** The inputs that end a login: a logout, or a disconnect received by the main loop. */
  predicate EndsLogin(a: Actor, input: Input) {
    && a.mode.Main?
    && match input
       case FromMailbox(command, _) => command.Logout?
       case FromExchange(event, _) => event.FrontDisconnected?
       case ClientRegistered(_, _) => false
  }

  /** A disconnect seen by a cancel or query loop leaves the login in place; only the main loop drops it. */
  lemma LoginEndsExactly(a: Actor, input: Input)
    requires Coherent(a) && a.ids.Some?
    ensures EndsLogin(a, input) ==> Step(a, input).ids.None?
    ensures !EndsLogin(a, input) ==> Step(a, input).ids == a.ids
    ensures Step(a, input).stateWrites
            == a.stateWrites + if EndsLogin(a, input) && input.FromExchange? then [Disconnected] else []
  {
    match input
    case ClientRegistered(_, _) =>
    case FromMailbox(command, ok) => CommandFrame(a, command, ok);
    case FromExchange(event, ok) =>
      match a.mode
      case Main =>
      case _ => EventFrame(a, event);
  }

  // ---- replies and requests ----

  /** The channel of the command being served when `input` is received. */
  function Requester(a: Actor, input: Input): Option<Channel> {
    if !a.mode.Main? then Some(a.mode.replyTo)
    else if input.FromMailbox? then Some(input.command.replyTo)
    else None
  }

  ghost predicate NewRepliesGoTo(a: Actor, b: Actor, requester: Option<Channel>) {
    && a.replies <= b.replies
    && forall k | |a.replies| <= k < |b.replies| :: requester == Some(b.replies[k].channel)
  }

  lemma LoginEventReplies(a: Actor, event: Event, ok: bool)
    requires a.mode.LoggingIn?
    ensures NewRepliesGoTo(a, LoginEvent(a, event, ok), Some(a.mode.replyTo))
  {
  }

  lemma CancelEventReplies(a: Actor, event: Event)
    requires a.mode.Cancelling?
    ensures NewRepliesGoTo(a, CancelEvent(a, event), Some(a.mode.replyTo))
  {
  }

  lemma QueryEventReplies(a: Actor, event: Event)
    requires a.mode.Querying?
    ensures NewRepliesGoTo(a, QueryEvent(a, event), Some(a.mode.replyTo))
  {
  }

  lemma CommandReplies(a: Actor, command: Command, ok: bool)
    ensures a.ids.Some? ==> NewRepliesGoTo(a, LoggedInCommand(a, command, ok), Some(command.replyTo))
    ensures NewRepliesGoTo(a, LoggedOutCommand(a, command, ok), Some(command.replyTo))
  {
  }

  /** Whatever loop answers, every reply goes to the client whose command is being served. */
  lemma RepliesReachTheirRequester(a: Actor, input: Input)
    ensures NewRepliesGoTo(a, Step(a, input), Requester(a, input))
  {
    match input
    case ClientRegistered(_, _) =>
    case FromMailbox(command, ok) => CommandReplies(a, command, ok);
    case FromExchange(event, ok) =>
      match a.mode
      case Main => assert Step(a, input).replies == a.replies;
      case LoggingIn(_, _, _) => LoginEventReplies(a, event, ok);
      case Cancelling(_, _, replyTo) => CancelEventReplies(a, event);
      case Querying(_, _, _, replyTo) => QueryEventReplies(a, event);
  }

  /** The session is live after every one of the inputs. */
  ghost predicate SessionLives(a: Actor, inputs: seq<Input>) {
    Run(a, inputs).session.Some? && (inputs == [] || SessionLives(a, inputs[..|inputs| - 1]))
  }

  /** `after` adds to `before` the requests whose ids count from `n + 1` up to `m`. */
  ghost predicate Numbered(before: seq<ApiCall>, after: seq<ApiCall>, n: nat, m: nat) {
    && before <= after && m - n == |after| - |before|
    && forall k | |before| <= k < |after| :: after[k].requestId == RequestId(n + 1 + k - |before|)
  }

  /** A step issues at most one request, with the next id of the session. */
  ghost predicate IssuesNext(a: Actor, b: Actor)
    requires a.session.Some?
  {
    b.session.Some? ==>
      || (b.calls == a.calls && b.session == a.session)
      || (&& b.session.value == a.session.value + 1
          && |b.calls| == |a.calls| + 1 && b.calls[..|a.calls|] == a.calls
          && b.calls[|a.calls|].requestId == RequestId(b.session.value))
  }

  lemma NumberedStep(start: seq<ApiCall>, n: nat, a: Actor, b: Actor)
    requires a.session.Some? && b.session.Some? && IssuesNext(a, b)
    requires Numbered(start, a.calls, n, a.session.value)
    ensures Numbered(start, b.calls, n, b.session.value)
  {
    if b.calls != a.calls {
      forall k | |start| <= k < |b.calls| ensures b.calls[k].requestId == RequestId(n + 1 + k - |start|) {
        if k < |a.calls| {
          assert b.calls[k] == b.calls[..|a.calls|][k];
        } else {
          assert n + 1 + k - |start| == b.session.value;
        }
      }
    }
  }

  lemma CommandIssuesNext(a: Actor, command: Command, ok: bool)
    requires a.session.Some?
    ensures a.ids.Some? ==> IssuesNext(a, LoggedInCommand(a, command, ok))
    ensures IssuesNext(a, LoggedOutCommand(a, command, ok))
  {
  }

  lemma LoginIssuesNext(a: Actor, event: Event, ok: bool)
    requires a.session.Some? && a.mode.LoggingIn?
    ensures IssuesNext(a, LoginEvent(a, event, ok))
  {
  }

  lemma EventIssuesNext(a: Actor, event: Event, ok: bool)
    requires a.session.Some?
    ensures IssuesNext(a, Step(a, FromExchange(event, ok)))
  {
    if a.mode.LoggingIn? {
      LoginIssuesNext(a, event, ok);
    } else {
      EventFrame(a, event);
    }
  }

  /** The requests of one session carry the ids 1, 2, 3, ... of its counter, in order, none twice or skipped. */
  lemma {:induction false} RequestsAreNumbered(a: Actor, inputs: seq<Input>)
    requires SessionLives(a, inputs)
    ensures a.session.Some? && Numbered(a.calls, Run(a, inputs).calls, a.session.value, Run(a, inputs).session.value)
  {
    if inputs != [] {
      var earlier, last := inputs[..|inputs| - 1], inputs[|inputs| - 1];
      RequestsAreNumbered(a, earlier);
      StepIssuesNext(Run(a, earlier), last);
      NumberedStep(a.calls, a.session.value, Run(a, earlier), Step(Run(a, earlier), last));
    }
  }

  lemma StepIssuesNext(a: Actor, input: Input)
    requires a.session.Some?
    ensures IssuesNext(a, Step(a, input))
  {
    match input
    case ClientRegistered(_, _) =>
    case FromMailbox(command, ok) => CommandIssuesNext(a, command, ok);
    case FromExchange(event, ok) => EventIssuesNext(a, event, ok);
  }

  /** The request a running login makes on an input, if any. */
  function Handshake(input: Input, requestId: int): (r: seq<ApiCall>)
    ensures |r| <= 1
  {
    if !input.FromExchange? then []
    else
      match input.event
      case FrontConnected => [ReqAuthenticate(requestId)]
      case AuthenticateOk => [ReqLogin(requestId)]
      case LoginOk(_) => [ReqConfirmSettlement(requestId)]
      case _ => []
  }

  /** The requests the events of one login call for, numbered from `n + 1`. */
  function HandshakeOf(inputs: seq<Input>, n: nat): seq<ApiCall> {
    if inputs == [] then []
    else
      var earlier := HandshakeOf(inputs[..|inputs| - 1], n);
      earlier + Handshake(inputs[|inputs| - 1], RequestId(n + 1 + |earlier|))
  }

  /** `b` made the requests `made` after `a`, and counted each. */
  ghost predicate Made(a: Actor, b: Actor, made: seq<ApiCall>) {
    a.session.Some? && b.calls == a.calls + made && b.session == Some(a.session.value + |made|)
  }

  lemma LoginStepHandshake(a: Actor, input: Input)
    requires a.mode.LoggingIn? && a.session.Some? && Step(a, input).mode.LoggingIn?
    ensures Made(a, Step(a, input), Handshake(input, NextId(a)))
  {
  }

  lemma MadeAppend(a: Actor, b: Actor, c: Actor, made: seq<ApiCall>, more: seq<ApiCall>)
    requires Made(a, b, made) && Made(b, c, more)
    ensures Made(a, c, made + more)
  {
  }

  /** A running login authenticates on each connect, logs in on each authentication, confirms on each login. */
  lemma {:induction false} LoginMakesHandshake(a: Actor, inputs: seq<Input>)
    requires a.mode.LoggingIn? && a.session.Some? && StaysInLogin(a, inputs)
    ensures Made(a, Run(a, inputs), HandshakeOf(inputs, a.session.value))
  {
    if inputs != [] {
      var earlier, last := inputs[..|inputs| - 1], inputs[|inputs| - 1];
      LoginMakesHandshake(a, earlier);
      var before, n := Run(a, earlier), a.session.value;
      LoginStepHandshake(before, last);
      assert NextId(before) == RequestId(n + 1 + |HandshakeOf(earlier, n)|);
      MadeAppend(a, before, Step(before, last), HandshakeOf(earlier, n), Handshake(last, NextId(before)));
    }
  }

  // ---- conservation of returns ----

  /** An exchange event the actor consumed, with the tables as they stood then. */
  datatype Seen = Seen(registry: map<string, OrderContext>, routes: map<ClientId, Channel>, event: Event)

  /** The event an input makes the actor consume outside login, if it does. */
  function Consumed(a: Actor, input: Input): seq<Seen> {
    if input.FromExchange? && PollsExchange(a) && !a.mode.LoggingIn? then [Seen(a.registry, a.routes, input.event)]
    else []
  }

  function ReceivedOutsideLogin(a: Actor, inputs: seq<Input>): seq<Seen> {
    if inputs == [] then []
    else
      ReceivedOutsideLogin(a, inputs[..|inputs| - 1])
      + Consumed(Run(a, inputs[..|inputs| - 1]), inputs[|inputs| - 1])
  }

  function ReturnRef(event: Event): Option<string> {
    match event
    case OrderReturn(report) => Some(report.clientOrderId)
    case TradeReturn(report) => report.clientOrderId
    case _ => None
  }

  /** The push one consumed event is due: none unless it is a return whose order is registered. */
  function Due(seen: Seen): seq<Push> {
    match ReturnRef(seen.event)
    case None => []
    case Some(orderRef) =>
      var key := OrderRef.NormalizeOrderRef(orderRef);
      if key !in seen.registry then []
      else
        var context := seen.registry[key];
        var message := if seen.event.OrderReturn? then OrderUpdate(seen.event.order, context)
                       else if seen.event.TradeReturn? then TradeUpdate(seen.event.trade, context.accountId)
                       else assert false; ErrorResponse(ErrorInfo(0, ""));
        [Push(context.clientId,
              if context.clientId in seen.routes then Some(seen.routes[context.clientId]) else None,
              message)]
  }

  function AllDue(seens: seq<Seen>): seq<Push> {
    if seens == [] then [] else AllDue(seens[..|seens| - 1]) + Due(seens[|seens| - 1])
  }

  lemma AllDueAppend(seens: seq<Seen>, more: seq<Seen>)
    requires |more| <= 1
    ensures AllDue(seens + more) == AllDue(seens) + AllDue(more)
  {
    if more != [] {
      assert (seens + more)[..|seens|] == seens && more[..0] == [];
    } else {
      assert seens + more == seens;
    }
  }

  lemma StepPushes(a: Actor, input: Input)
    ensures Step(a, input).pushes
            == a.pushes + (if input.FromExchange? && PollsExchange(a) && !a.mode.LoggingIn?
                           then Due(Seen(a.registry, a.routes, input.event)) else [])
    ensures Step(a, input).pushes == a.pushes + AllDue(Consumed(a, input))
  {
    match input
    case ClientRegistered(_, _) =>
    case FromMailbox(command, ok) => CommandFrame(a, command, ok);
    case FromExchange(event, ok) =>
      match a.mode
      case LoggingIn(_, _, _) => LoginEventFrame(a, event, ok);
      case Main => EventPushes(a, event);
      case Cancelling(_, _, _) => EventPushes(a, event);
      case Querying(_, _, _, _) => EventPushes(a, event);
  }

  lemma EventPushes(a: Actor, event: Event)
    ensures LoggedInEvent(a, event).pushes == a.pushes + Due(Seen(a.registry, a.routes, event))
    ensures a.mode.Cancelling? ==> CancelEvent(a, event).pushes == a.pushes + Due(Seen(a.registry, a.routes, event))
    ensures a.mode.Querying? ==> QueryEvent(a, event).pushes == a.pushes + Due(Seen(a.registry, a.routes, event))
  {
  }

  /**
   * The pushes of a run are the returns it consumed outside login, in consumption order, each once,
   * each resolved against the registry and routes of that moment, whichever loop consumed it.
   */
  lemma {:induction false} PushesAreReturnsConsumed(a: Actor, inputs: seq<Input>)
    ensures Run(a, inputs).pushes == a.pushes + AllDue(ReceivedOutsideLogin(a, inputs))
  {
    if inputs != [] {
      var earlier := inputs[..|inputs| - 1];
      var last := inputs[|inputs| - 1];
      var before := Run(a, earlier);
      PushesAreReturnsConsumed(a, earlier);
      StepPushes(before, last);
      AllDueAppend(ReceivedOutsideLogin(a, earlier), Consumed(before, last));
    }
  }

  // ---- the registry is a last-writer-wins history ----

  /** The orders attempted since the registry was last cleared, oldest first. */
  function Attempts(a: Actor, inputs: seq<Input>): seq<OrderContext> {
    if inputs == [] then []
    else
      var before := Run(a, inputs[..|inputs| - 1]);
      var earlier := Attempts(a, inputs[..|inputs| - 1]);
      var last := inputs[|inputs| - 1];
      if !(last.FromMailbox? && before.mode.Main? && before.ids.Some?) then earlier
      else
        match last.command
        case PlaceOrder(clientId, order, _) => earlier + [ContextOf(clientId, order)]
        case Logout(_) => []
        case _ => earlier
  }

  /** `attempts[k]` is the latest attempt whose written reference is `key`. */
  ghost predicate IsLatest(attempts: seq<OrderContext>, key: string, k: int) {
    && 0 <= k < |attempts|
    && attempts[k].OrderRefKey() == key
    && forall j | k < j < |attempts| :: attempts[j].OrderRefKey() != key
  }

  ghost predicate RegistryIsLatest(registry: map<string, OrderContext>, attempts: seq<OrderContext>) {
    && (forall key | key in registry :: exists k :: IsLatest(attempts, key, k) && registry[key] == attempts[k])
    && (forall k | 0 <= k < |attempts| :: attempts[k].OrderRefKey() in registry)
  }

  lemma RegisterKeepsLatest(registry: map<string, OrderContext>, attempts: seq<OrderContext>, context: OrderContext)
    requires RegistryIsLatest(registry, attempts)
    ensures RegistryIsLatest(registry[context.OrderRefKey() := context], attempts + [context])
  {
    var registry' := registry[context.OrderRefKey() := context];
    var attempts' := attempts + [context];
    forall key | key in registry'
      ensures exists k :: IsLatest(attempts', key, k) && registry'[key] == attempts'[k]
    {
      if key == context.OrderRefKey() {
        assert IsLatest(attempts', key, |attempts|);
      } else {
        var k :| IsLatest(attempts, key, k) && registry[key] == attempts[k];
        assert IsLatest(attempts', key, k);
      }
    }
  }

  lemma StepRegistry(a: Actor, input: Input)
    requires Coherent(a)
    ensures Step(a, input).registry
            == if input.FromMailbox? && a.mode.Main? && a.ids.Some? && input.command.PlaceOrder?
               then var context := ContextOf(input.command.clientId, input.command.order);
                    a.registry[context.OrderRefKey() := context]
               else if input.FromMailbox? && a.mode.Main? && a.ids.Some? && input.command.Logout? then map[]
               else a.registry
  {
    match input
    case ClientRegistered(_, _) =>
    case FromMailbox(command, ok) => CommandFrame(a, command, ok);
    case FromExchange(event, ok) =>
      match a.mode
      case LoggingIn(_, _, _) => LoginEventFrame(a, event, ok);
      case _ => EventFrame(a, event);
  }

  lemma {:induction false} RegistryIsLastWriterWins(a: Actor, inputs: seq<Input>)
    requires Coherent(a) && a.registry == map[]
    ensures RegistryIsLatest(Run(a, inputs).registry, Attempts(a, inputs))
  {
    if inputs != [] {
      var earlier := inputs[..|inputs| - 1];
      var last := inputs[|inputs| - 1];
      RegistryIsLastWriterWins(a, earlier);
      RunCoherent(a, earlier);
      var before := Run(a, earlier);
      StepRegistry(before, last);
      if last.FromMailbox? && before.mode.Main? && before.ids.Some? && last.command.PlaceOrder? {
        var context := ContextOf(last.command.clientId, last.command.order);
        RegisterKeepsLatest(before.registry, Attempts(a, earlier), context);
      }
    }
  }

  /**
   * A return whose reference is the one written for an attempted order, whatever padding surrounds
   * it, produces exactly one push: to the client of the latest attempt with that reference.
   */
  lemma ReturnReachesLatestOrder(accountId: AccountId, routes: map<ClientId, Channel>, inputs: seq<Input>,
                                 k: nat, event: Event, ok: bool)
    requires var a := Run(Started(accountId, routes), inputs);
             var attempts := Attempts(Started(accountId, routes), inputs);
             && PollsExchange(a) && !a.mode.LoggingIn?
             && k < |attempts| && IsLatest(attempts, attempts[k].OrderRefKey(), k)
             && ReturnRef(event).Some?
             && OrderRef.IsPaddingOf(ReturnRef(event).value, attempts[k].OrderRefKey())
    ensures var a := Run(Started(accountId, routes), inputs);
            var context := Attempts(Started(accountId, routes), inputs)[k];
            var b := Step(a, FromExchange(event, ok));
            && |b.pushes| == |a.pushes| + 1 && b.pushes[..|a.pushes|] == a.pushes
            && b.pushes[|a.pushes|].clientId == context.clientId
            && (context.clientId in a.routes ==> b.pushes[|a.pushes|].channel == Some(a.routes[context.clientId]))
            && (event.OrderReturn? ==> b.pushes[|a.pushes|].message == OrderUpdate(event.order, context))
            && (event.TradeReturn? ==> b.pushes[|a.pushes|].message == TradeUpdate(event.trade, context.accountId))
  {
    var start := Started(accountId, routes);
    var attempts := Attempts(start, inputs);
    RegistryIsLastWriterWins(start, inputs);
    OrderRef.NormalizeIgnoresPadding(attempts[k].clientOrderId, ReturnRef(event).value);
    var key := attempts[k].OrderRefKey();
    var a := Run(start, inputs);
    var l :| IsLatest(attempts, key, l) && a.registry[key] == attempts[l];
    assert l == k;
    StepPushes(a, FromExchange(event, ok));
  }

  // ---- orders reach the exchange under the reference they are registered by ----

  /** The order references submitted to the exchange, in order. */
  function Submitted(calls: seq<ApiCall>): seq<string> {
    if calls == [] then []
    else
      var last := calls[|calls| - 1];
      Submitted(calls[..|calls| - 1]) + if last.ReqInsert? then [last.newRef] else []
  }

  /** The registry key of the order an input places, if the actor takes it. */
  function PlacedRef(a: Actor, input: Input): seq<string> {
    if input.FromMailbox? && a.mode.Main? && a.ids.Some? && input.command.PlaceOrder?
    then [ContextOf(input.command.clientId, input.command.order).OrderRefKey()]
    else []
  }

  function PlacedRefs(a: Actor, inputs: seq<Input>): seq<string> {
    if inputs == [] then []
    else PlacedRefs(a, inputs[..|inputs| - 1]) + PlacedRef(Run(a, inputs[..|inputs| - 1]), inputs[|inputs| - 1])
  }

  /** `b` has made at most one request more than `a`, and submitted the references `refs`. */
  ghost predicate Submits(a: Actor, b: Actor, refs: seq<string>) {
    || (b.calls == a.calls && refs == [])
    || (&& |b.calls| == |a.calls| + 1 && b.calls[..|a.calls|] == a.calls
        && refs == if b.calls[|a.calls|].ReqInsert? then [b.calls[|a.calls|].newRef] else [])
  }

  lemma CommandSubmits(a: Actor, command: Command, ok: bool)
    requires Coherent(a) && a.mode.Main?
    ensures Submits(a, if a.ids.Some? then LoggedInCommand(a, command, ok) else LoggedOutCommand(a, command, ok),
                    PlacedRef(a, FromMailbox(command, ok)))
  {
  }

  lemma LoginSubmits(a: Actor, event: Event, ok: bool)
    requires a.mode.LoggingIn?
    ensures Submits(a, LoginEvent(a, event, ok), [])
  {
  }

  lemma StepSubmits(a: Actor, input: Input)
    requires Coherent(a)
    ensures Submits(a, Step(a, input), PlacedRef(a, input))
  {
    match input
    case ClientRegistered(_, _) =>
    case FromMailbox(command, ok) =>
      if a.mode.Main? {
        CommandSubmits(a, command, ok);
      }
    case FromExchange(event, ok) =>
      match a.mode
      case LoggingIn(_, _, _) => LoginSubmits(a, event, ok);
      case _ => EventFrame(a, event);
  }

  /**
   * Over every run the references submitted to the exchange are the registry keys of the orders
   * taken from the mailbox, in order, each once; nothing is submitted while logged out.
   */
  lemma {:induction false} OrdersAreSubmittedUnderTheirKey(a: Actor, inputs: seq<Input>)
    requires Coherent(a)
    ensures Submitted(Run(a, inputs).calls) == Submitted(a.calls) + PlacedRefs(a, inputs)
  {
    if inputs != [] {
      var earlier, last := inputs[..|inputs| - 1], inputs[|inputs| - 1];
      OrdersAreSubmittedUnderTheirKey(a, earlier);
      RunCoherent(a, earlier);
      StepSubmits(Run(a, earlier), last);
    }
  }

  // ---- request ids ----

  /** Two requests of one session share an id exactly when they are a multiple of 2^32 apart. */
  lemma RequestIdsCollideExactly(m: nat, n: nat)
    ensures RequestId(m) == RequestId(n) <==> (n - m) % TWO_32 == 0
  {
    var x, y := m + TWO_31, n + TWO_31;
    assert x == TWO_32 * (x / TWO_32) + x % TWO_32;
    assert y == TWO_32 * (y / TWO_32) + y % TWO_32;
    assert n - m == TWO_32 * (y / TWO_32 - x / TWO_32) + (y % TWO_32 - x % TWO_32);
  }

  // ---- the cancel loop ----

  /** The events that end a cancel. */
  predicate CancelDone(cancel: CancelRequest, requestId: int, event: Event) {
    match event
    case OrderReturn(report) => IsTarget(cancel, report) && IsTerminal(report.status)
    case CancelActionOk(id) => id == requestId
    case CancelActionFailed(id, _) => id == requestId
    case FrontDisconnected(_) => true
    case _ => false
  }

  ghost predicate NothingEndsCancel(mode: Mode, inputs: seq<Input>)
    requires mode.Cancelling?
  {
    forall i | 0 <= i < |inputs| && inputs[i].FromExchange? ::
      !CancelDone(mode.cancel, mode.requestId, inputs[i].event)
  }

  lemma {:induction false} CancelKeepsWaiting(a: Actor, inputs: seq<Input>)
    requires a.mode.Cancelling? && NothingEndsCancel(a.mode, inputs)
    ensures var b := Run(a, inputs);
            && b.mode == a.mode && b.replies == a.replies && b.calls == a.calls
            && b.ids == a.ids && b.registry == a.registry && b.session == a.session
  {
    if inputs != [] {
      CancelKeepsWaiting(a, inputs[..|inputs| - 1]);
    }
  }

  /**
   * The cancel loop stops at the first event that ends it and not before, and over the whole
   * cancel the requester gets the exchange's refusal if that is what ended it, else nothing.
   */
  lemma CancelStopsAtFirstEnd(a: Actor, inputs: seq<Input>, event: Event, ok: bool)
    requires a.mode.Cancelling? && NothingEndsCancel(a.mode, inputs)
    ensures var b := Step(Run(a, inputs), FromExchange(event, ok));
            && (b.mode.Main? <==> CancelDone(a.mode.cancel, a.mode.requestId, event))
            && (!b.mode.Main? ==> b.mode == a.mode)
            && b.ids == a.ids && b.registry == a.registry && b.session == a.session
            && b.replies == a.replies
                 + if event.CancelActionFailed? && event.requestId == a.mode.requestId
                   then [Reply(a.mode.replyTo, ErrorResponse(event.error))] else []
  {
    CancelKeepsWaiting(a, inputs);
  }

  /**
   * A cancel that names its order by client order id alone compares that id with the reference a
   * return carries, not with its normal form: among the terminal returns of the very order, whatever
   * their padding, exactly the one that repeats the id character by character ends the cancel.
   */
  lemma CancelRecognisesItsOrderExactly(a: Actor, report: OrderReport, ok: bool)
    requires a.mode.Cancelling? && a.mode.cancel.clientOrderId.Some? && a.mode.cancel.exchangeOrderId.None?
    requires IsTerminal(report.status)
    requires OrderRef.IsPaddingOf(report.clientOrderId, OrderRef.NormalizeOrderRef(a.mode.cancel.clientOrderId.value))
    ensures Step(a, FromExchange(OrderReturn(report), ok)).mode.Main?
            <==> report.clientOrderId == a.mode.cancel.clientOrderId.value
  {
    assert CancelDone(a.mode.cancel, a.mode.requestId, OrderReturn(report))
      <==> a.mode.cancel.clientOrderId.value == report.clientOrderId;
    CancelStopsAtFirstEnd(a, [], OrderReturn(report), ok);
  }

  /** In particular a return without padding ends the cancel exactly when the id is written unchanged. */
  lemma CancelRecognisesUnpaddedReturnExactly(a: Actor, report: OrderReport, ok: bool)
    requires a.mode.Cancelling? && a.mode.cancel.clientOrderId.Some? && a.mode.cancel.exchangeOrderId.None?
    requires IsTerminal(report.status)
    requires report.clientOrderId == OrderRef.NormalizeOrderRef(a.mode.cancel.clientOrderId.value)
    ensures Step(a, FromExchange(OrderReturn(report), ok)).mode.Main?
            <==> OrderRef.IsWritable(a.mode.cancel.clientOrderId.value)
  {
    OrderRef.PaddingOfItself(report.clientOrderId);
    OrderRef.NormalizeIsIdentityExactly(a.mode.cancel.clientOrderId.value);
    CancelRecognisesItsOrderExactly(a, report, ok);
  }

  /**
   * After any run, a cancel that names an attempted order, with any padding, asks the exchange for
   * the reference that order was submitted and registered under, with the ids of the live login.
   */
  lemma CancelAsksForSubmittedOrder(accountId: AccountId, routes: map<ClientId, Channel>, inputs: seq<Input>,
                                    k: nat, cancel: CancelRequest, replyTo: Channel, ok: bool)
    requires var a := Run(Started(accountId, routes), inputs);
             var attempts := Attempts(Started(accountId, routes), inputs);
             && a.mode.Main? && a.ids.Some? && k < |attempts| && cancel.clientOrderId.Some?
             && OrderRef.IsPaddingOf(cancel.clientOrderId.value, attempts[k].OrderRefKey())
    ensures var a := Run(Started(accountId, routes), inputs);
            var key := Attempts(Started(accountId, routes), inputs)[k].OrderRefKey();
            && a.session.Some? && key in a.registry
            && Step(a, FromMailbox(CancelOrder(cancel, replyTo), ok)).calls
               == a.calls + [ReqCancel(a.ids.value, Some(key), cancel.exchangeOrderId, NextId(a))]
  {
    var start := Started(accountId, routes);
    RegistryIsLastWriterWins(start, inputs);
    RunCoherent(start, inputs);
    OrderRef.NormalizeIgnoresPadding(Attempts(start, inputs)[k].clientOrderId, cancel.clientOrderId.value);
    CancelCall(Run(start, inputs), cancel, replyTo, ok);
  }

  lemma CancelCall(a: Actor, cancel: CancelRequest, replyTo: Channel, ok: bool)
    requires a.mode.Main? && a.ids.Some? && a.session.Some? && cancel.clientOrderId.Some?
    ensures Step(a, FromMailbox(CancelOrder(cancel, replyTo), ok)).calls
            == a.calls + [ReqCancel(a.ids.value, Some(OrderRef.NormalizeOrderRef(cancel.clientOrderId.value)),
                                    cancel.exchangeOrderId, NextId(a))]
  {
  }

  // ---- runs that reach the nested loops ----

  lemma RunSnoc(a: Actor, inputs: seq<Input>, input: Input)
    ensures Run(a, inputs + [input]) == Step(Run(a, inputs), input)
  {
    assert (inputs + [input])[..|inputs|] == inputs;
  }

  function LoginScript(accountId: AccountId, replyTo: Channel, ids: Ids): seq<Input> {
    [FromMailbox(Login(accountId, replyTo), true)] + [FromExchange(FrontConnected, true)]
    + [FromExchange(AuthenticateOk, true)] + [FromExchange(LoginOk(ids), true)]
    + [FromExchange(SettlementConfirmed, true)]
  }

  lemma LoginScriptLogsIn(accountId: AccountId, routes: map<ClientId, Channel>, replyTo: Channel, ids: Ids)
    ensures var a := Run(Started(accountId, routes), LoginScript(accountId, replyTo, ids));
            && a.mode.Main? && a.ids == Some(ids) && a.session.Some? && a.routes == routes
  {
    var a := Started(accountId, routes);
    var script: seq<Input> := [FromMailbox(Login(accountId, replyTo), true)];
    assert [] + script == script;
    RunSnoc(a, [], script[0]);
    RunSnoc(a, script, FromExchange(FrontConnected, true));
    script := script + [FromExchange(FrontConnected, true)];
    RunSnoc(a, script, FromExchange(AuthenticateOk, true));
    script := script + [FromExchange(AuthenticateOk, true)];
    RunSnoc(a, script, FromExchange(LoginOk(ids), true));
    script := script + [FromExchange(LoginOk(ids), true)];
    RunSnoc(a, script, FromExchange(SettlementConfirmed, true));
  }

  function CancelByOwnId(order: OrderRequest): CancelRequest {
    CancelRequest(order.accountId, order.instrumentId, Some(order.clientOrderId), None)
  }

  /** Log in, place an order, cancel it by its client order id. */
  function CancelScript(clientId: ClientId, order: OrderRequest, replyTo: Channel, ids: Ids): seq<Input> {
    LoginScript(order.accountId, replyTo, ids) + [FromMailbox(PlaceOrder(clientId, order, replyTo), true)]
    + [FromMailbox(CancelOrder(CancelByOwnId(order), replyTo), true)]
  }

  lemma CancelScriptWaits(routes: map<ClientId, Channel>, clientId: ClientId, order: OrderRequest,
                          replyTo: Channel, ids: Ids)
    ensures var a := Run(Started(order.accountId, routes), CancelScript(clientId, order, replyTo, ids));
            var context := ContextOf(clientId, order);
            && a.mode.Cancelling? && a.mode.cancel == CancelByOwnId(order) && a.ids == Some(ids) && a.routes == routes
            && context.OrderRefKey() in a.registry && a.registry[context.OrderRefKey()] == context
  {
    var start, script := Started(order.accountId, routes), LoginScript(order.accountId, replyTo, ids);
    LoginScriptLogsIn(order.accountId, routes, replyTo, ids);
    RunSnoc(start, script, FromMailbox(PlaceOrder(clientId, order, replyTo), true));
    RunSnoc(start, script + [FromMailbox(PlaceOrder(clientId, order, replyTo), true)],
            FromMailbox(CancelOrder(CancelByOwnId(order), replyTo), true));
  }

  /**
   * So no client order id is safe: for every order there is a reachable cancel of it, and a terminal
   * return of that order, padded or not, that is pushed to the order's client and leaves the cancel
   * waiting.
   */
  lemma EveryCancelCanMissItsOrder(routes: map<ClientId, Channel>, clientId: ClientId, order: OrderRequest,
                                   replyTo: Channel, ids: Ids, report: OrderReport, ok: bool)
    requires IsTerminal(report.status) && report.clientOrderId == OrderRef.MissedReturn(order.clientOrderId)
    ensures OrderRef.IsPaddingOf(report.clientOrderId, OrderRef.NormalizeOrderRef(order.clientOrderId))
    ensures var a := Run(Started(order.accountId, routes), CancelScript(clientId, order, replyTo, ids));
            var b := Step(a, FromExchange(OrderReturn(report), ok));
            && a.mode.Cancelling? && b.mode == a.mode
            && b.pushes == a.pushes + [Push(clientId, if clientId in routes then Some(routes[clientId]) else None,
                                            OrderUpdate(report, ContextOf(clientId, order)))]
  {
    CancelScriptWaits(routes, clientId, order, replyTo, ids);
    OrderRef.MissedReturnIsPadding(order.clientOrderId);
    OrderRef.NormalizeIgnoresPadding(order.clientOrderId, report.clientOrderId);
    var a := Run(Started(order.accountId, routes), CancelScript(clientId, order, replyTo, ids));
    CancelRecognisesItsOrderExactly(a, report, ok);
    CancelStopsAtFirstEnd(a, [], OrderReturn(report), ok);
    StepPushes(a, FromExchange(OrderReturn(report), ok));
  }

  /** A reachable disconnect that the cancel loop swallows: the cancel ends, the stored login stays. */
  lemma CancelLoopSwallowsDisconnect(routes: map<ClientId, Channel>, clientId: ClientId, order: OrderRequest,
                                     replyTo: Channel, ids: Ids, reason: int, ok: bool)
    ensures var a := Run(Started(order.accountId, routes), CancelScript(clientId, order, replyTo, ids));
            var b := Step(a, FromExchange(FrontDisconnected(reason), ok));
            && a.mode.Cancelling? && b.mode.Main? && b.ids == Some(ids) && b.stateWrites == a.stateWrites
  {
    CancelScriptWaits(routes, clientId, order, replyTo, ids);
  }

  /** A reachable disconnect that a query loop swallows: the query goes on, the stored login stays. */
  lemma QueryLoopSwallowsDisconnect(accountId: AccountId, routes: map<ClientId, Channel>, kind: QueryKind,
                                    instrumentId: Option<InstrumentId>, replyTo: Channel, ids: Ids, reason: int,
                                    ok: bool)
    ensures var script := LoginScript(accountId, replyTo, ids)
                          + [FromMailbox(Query(kind, accountId, instrumentId, replyTo), true)];
            var a := Run(Started(accountId, routes), script);
            var b := Step(a, FromExchange(FrontDisconnected(reason), ok));
            && a.mode.Querying? && b.mode == a.mode && b.ids == Some(ids) && b.stateWrites == a.stateWrites
  {
    LoginScriptLogsIn(accountId, routes, replyTo, ids);
    RunSnoc(Started(accountId, routes), LoginScript(accountId, replyTo, ids),
            FromMailbox(Query(kind, accountId, instrumentId, replyTo), true));
  }

  /** An answer to an earlier request of the session neither ends a cancel nor changes anything. */
  lemma StaleCancelAnswerIsIgnored(accountId: AccountId, routes: map<ClientId, Channel>, inputs: seq<Input>,
                                   m: nat, event: Event, ok: bool)
    requires var a := Run(Started(accountId, routes), inputs);
             a.mode.Cancelling? && a.session.Some? && m < a.session.value && a.session.value - m < TWO_32
    requires event.CancelActionOk? || event.CancelActionFailed?
    requires event.requestId == RequestId(m)
    ensures var a := Run(Started(accountId, routes), inputs);
            Step(a, FromExchange(event, ok)) == a
  {
    RunCoherent(Started(accountId, routes), inputs);
    StaleAnswerChangesNothing(Run(Started(accountId, routes), inputs), m, event, ok);
  }

  lemma StaleAnswerChangesNothing(a: Actor, m: nat, event: Event, ok: bool)
    requires Coherent(a) && a.mode.Cancelling? && m < a.session.value && a.session.value - m < TWO_32
    requires event.CancelActionOk? || event.CancelActionFailed?
    requires event.requestId == RequestId(m)
    ensures Step(a, FromExchange(event, ok)) == a
  {
    RequestIdsCollideExactly(m, a.session.value);
  }
}
