/** The server's entry points for trading requests: access checks, bindings and account mailboxes. */
module ServerState {
  import opened Wrappers
  import opened TradeTypes
  import opened Sessions

  /** A trading request as it arrives; every one but a hello names the client it claims to be from. */
  datatype Request =
    | Hello(c: ClientId, channel: Channel)
    | AccountLogin(c: ClientId, accountId: AccountId, replyTo: Channel)
    | PlaceOrderRequest(c: ClientId, order: OrderRequest, replyTo: Channel)
    | CancelOrderRequest(c: ClientId, cancel: CancelRequest, replyTo: Channel)
    | QueryRequest(c: ClientId, kind: QueryKind, queried: AccountId, instrumentId: Option<InstrumentId>,
                   replyTo: Channel)
    | AccountLogout(c: ClientId, accountId: AccountId, replyTo: Channel)

  /** `open` is whether the account's actor still takes commands. */
  datatype Arrival = Arrival(request: Request, open: bool)

  datatype Outcome = Taken | Denied | NotLoggedIn | ChannelClosed

  datatype Server = Server(
    sessions: SessionState,
    tradingClients: map<ClientId, Channel>,
    mailboxes: map<AccountId, seq<Command>>)

  // ---- what a request asks for ----

  function AccountOf(request: Request): Option<AccountId> {
    match request
    case Hello(_, _) => None
    case AccountLogin(_, a, _) => Some(a)
    case PlaceOrderRequest(_, order, _) => Some(order.accountId)
    case CancelOrderRequest(_, cancel, _) => Some(cancel.accountId)
    case QueryRequest(_, _, a, _, _) => Some(a)
    case AccountLogout(_, a, _) => Some(a)
  }

  /** Reading is for queries, writing for orders, cancels and logouts; any rule lets a client log in. */
  predicate Permits(permission: Option<Permission>, request: Request) {
    match request
    case Hello(_, _) => true
    case AccountLogin(_, _, _) => permission.Some?
    case QueryRequest(_, _, _, _, _) => permission in {Some(Full), Some(QueryOnly)}
    case _ => permission in {Some(Full), Some(TradeOnly)}
  }

  function CommandOf(request: Request): Command
    requires AccountOf(request).Some?
  {
    match request
    case AccountLogin(_, a, replyTo) => Login(a, replyTo)
    case PlaceOrderRequest(c, order, replyTo) => PlaceOrder(c, order, replyTo)
    case CancelOrderRequest(_, cancel, replyTo) => CancelOrder(cancel, replyTo)
    case QueryRequest(_, kind, queried, instrumentId, replyTo) => Query(kind, queried, instrumentId, replyTo)
    case AccountLogout(_, _, replyTo) => Logout(replyTo)
  }

  // ---- the state machine ----

  function Mailbox(s: Server, a: AccountId): seq<Command> {
    if a in s.mailboxes then s.mailboxes[a] else []
  }

  function Deliver(s: Server, a: AccountId, command: Command): Server {
    s.(mailboxes := s.mailboxes[a := Mailbox(s, a) + [command]])
  }

  function LoginStep(s: Server, c: ClientId, a: AccountId, replyTo: Channel, open: bool): (Server, Outcome) {
    if PermissionFor(s.sessions, c, a).None? then (s, Denied)
    else
      var bound := s.(sessions := WithAccountState(Bind(s.sessions, c, a), a, Connecting),
                      mailboxes := s.mailboxes[a := Mailbox(s, a)]);
      if open then (Deliver(bound, a, Login(a, replyTo)), Taken)
      else (bound.(sessions := WithAccountState(bound.sessions, a, Error)), ChannelClosed)
  }

  function ArrivalStep(s: Server, arrival: Arrival): (Server, Outcome) {
    var request := arrival.request;
    match request
    case Hello(c, channel) =>
      (s.(sessions := WithClient(s.sessions, c), tradingClients := s.tradingClients[c := channel]), Taken)
    case AccountLogin(c, a, replyTo) => LoginStep(s, c, a, replyTo, arrival.open)
    case _ =>
      var a := AccountOf(request).value;
      if !Permits(PermissionFor(s.sessions, request.c, a), request) then (s, Denied)
      else if a !in s.mailboxes then (s, NotLoggedIn)
      else if !arrival.open then (s, ChannelClosed)
      else (Deliver(s, a, CommandOf(request)), Taken)
  }

  function Configured(config: seq<ConfigEntry>): Server {
    Server(FromConfig(config), map[], map[])
  }

  function ServerRun(s: Server, arrivals: seq<Arrival>): Server {
    if arrivals == [] then s
    else ArrivalStep(ServerRun(s, arrivals[..|arrivals| - 1]), arrivals[|arrivals| - 1]).0
  }

  // ---- mailboxes hold exactly the authorised requests ----

  predicate Authorised(config: seq<ConfigEntry>, request: Request, a: AccountId) {
    AccountOf(request) == Some(a) && Permits(LastRule(config, request.c, a), request)
  }

  /** Some authorised login addressed the account. */
  predicate EverLoggedIn(config: seq<ConfigEntry>, arrivals: seq<Arrival>, a: AccountId) {
    exists k :: 0 <= k < |arrivals| && arrivals[k].request.AccountLogin? && Authorised(config, arrivals[k].request, a)
  }

  /** The commands of the authorised requests for an account since its first authorised login, in order. */
  function Expected(config: seq<ConfigEntry>, arrivals: seq<Arrival>, a: AccountId): seq<Command> {
    if arrivals == [] then []
    else
      var earlier := arrivals[..|arrivals| - 1];
      var last := arrivals[|arrivals| - 1];
      if Authorised(config, last.request, a) && last.open
         && (last.request.AccountLogin? || EverLoggedIn(config, earlier, a))
      then Expected(config, earlier, a) + [CommandOf(last.request)]
      else Expected(config, earlier, a)
  }

  lemma StepKeepsRules(s: Server, arrival: Arrival)
    ensures ArrivalStep(s, arrival).0.sessions.rules == s.sessions.rules
  {
  }

  lemma {:induction false} RunKeepsRules(s: Server, arrivals: seq<Arrival>)
    ensures ServerRun(s, arrivals).sessions.rules == s.sessions.rules
  {
    if arrivals != [] {
      RunKeepsRules(s, arrivals[..|arrivals| - 1]);
      StepKeepsRules(ServerRun(s, arrivals[..|arrivals| - 1]), arrivals[|arrivals| - 1]);
    }
  }

  lemma EverLoggedInGrows(config: seq<ConfigEntry>, arrivals: seq<Arrival>, a: AccountId)
    requires arrivals != []
    ensures EverLoggedIn(config, arrivals, a)
            <==> EverLoggedIn(config, arrivals[..|arrivals| - 1], a)
                 || (arrivals[|arrivals| - 1].request.AccountLogin?
                     && Authorised(config, arrivals[|arrivals| - 1].request, a))
  {
    var earlier := arrivals[..|arrivals| - 1];
    if k :| 0 <= k < |earlier| && earlier[k].request.AccountLogin? && Authorised(config, earlier[k].request, a) {
      assert arrivals[k] == earlier[k];
    }
    if EverLoggedIn(config, arrivals, a) {
      var k :| 0 <= k < |arrivals| && arrivals[k].request.AccountLogin? && Authorised(config, arrivals[k].request, a);
      assert k < |earlier| ==> earlier[k] == arrivals[k];
    }
  }

  /**
   * In every reachable state the mailbox of an account holds the commands of exactly the requests
   * that the configuration authorises for that account, in order, from its first login on.
   */
  lemma {:induction false} MailboxesHoldAuthorisedRequests(config: seq<ConfigEntry>, arrivals: seq<Arrival>,
                                                           a: AccountId)
    ensures var s := ServerRun(Configured(config), arrivals);
            && (a in s.mailboxes <==> EverLoggedIn(config, arrivals, a))
            && Mailbox(s, a) == Expected(config, arrivals, a)
  {
    if arrivals != [] {
      var earlier := arrivals[..|arrivals| - 1];
      var last := arrivals[|arrivals| - 1];
      var before := ServerRun(Configured(config), earlier);
      MailboxesHoldAuthorisedRequests(config, earlier, a);
      EverLoggedInGrows(config, arrivals, a);
      RunKeepsRules(Configured(config), earlier);
      var request := last.request;
      if AccountOf(request).Some? {
        var b := AccountOf(request).value;
        RulesAreLastWins(config, request.c, b);
        assert PermissionFor(before.sessions, request.c, b) == LastRule(config, request.c, b);
      }
      StepMailbox(before, last, a);
    }
  }

  lemma StepMailbox(s: Server, arrival: Arrival, a: AccountId)
    ensures var t := ArrivalStep(s, arrival).0;
            var request := arrival.request;
            var mine := AccountOf(request) == Some(a) && Permits(PermissionFor(s.sessions, request.c, a), request);
            && (a in t.mailboxes <==> a in s.mailboxes || (mine && request.AccountLogin?))
            && Mailbox(t, a) == Mailbox(s, a) + if mine && arrival.open && (request.AccountLogin? || a in s.mailboxes)
                                                then [CommandOf(request)] else []
  {
  }

  /** Every command ever put in a mailbox came from a request, for that account, of a client its rule permits. */
  lemma {:induction false} EveryCommandIsAuthorised(config: seq<ConfigEntry>, arrivals: seq<Arrival>, a: AccountId,
                                                    n: nat)
    requires n < |Mailbox(ServerRun(Configured(config), arrivals), a)|
    ensures exists k :: 0 <= k < |arrivals| && Authorised(config, arrivals[k].request, a)
                        && CommandOf(arrivals[k].request) == Mailbox(ServerRun(Configured(config), arrivals), a)[n]
  {
    MailboxesHoldAuthorisedRequests(config, arrivals, a);
    ExpectedIsAuthorised(config, arrivals, a, n);
  }

  lemma {:induction false} ExpectedIsAuthorised(config: seq<ConfigEntry>, arrivals: seq<Arrival>, a: AccountId, n: nat)
    requires n < |Expected(config, arrivals, a)|
    ensures exists k :: 0 <= k < |arrivals| && Authorised(config, arrivals[k].request, a)
                        && CommandOf(arrivals[k].request) == Expected(config, arrivals, a)[n]
  {
    var earlier := arrivals[..|arrivals| - 1];
    if n < |Expected(config, earlier, a)| {
      ExpectedIsAuthorised(config, earlier, a, n);
      var k :| 0 <= k < |earlier| && Authorised(config, earlier[k].request, a)
               && CommandOf(earlier[k].request) == Expected(config, earlier, a)[n];
      assert arrivals[k] == earlier[k];
    } else {
      assert Authorised(config, arrivals[|arrivals| - 1].request, a);
    }
  }

  // ---- the session maps over every run ----

  /** Over every run: lists without repeats, bound accounts that list their client, subscriptions backed by a rule. */
  lemma {:induction false} RunKeepsSessions(config: seq<ConfigEntry>, arrivals: seq<Arrival>)
    ensures SessionInv(ServerRun(Configured(config), arrivals).sessions)
  {
    if arrivals == [] {
      FreshSessions(config);
    } else {
      RunKeepsSessions(config, arrivals[..|arrivals| - 1]);
      StepKeepsSessions(ServerRun(Configured(config), arrivals[..|arrivals| - 1]), arrivals[|arrivals| - 1]);
    }
  }

  lemma {:induction false} FreshSessions(config: seq<ConfigEntry>)
    ensures FromConfig(config).clients == map[] && FromConfig(config).subscribers == map[]
  {
    if config != [] {
      var last := config[|config| - 1];
      FreshSessions(config[..|config| - 1]);
      AllowAllKeepsMaps(FromConfig(config[..|config| - 1]), Trim(last.clientId), last.accounts, last.permission);
    }
  }

  lemma {:induction false} AllowAllKeepsMaps(s: SessionState, c: ClientId, accounts: seq<string>,
                                             permission: Permission)
    ensures AllowAll(s, c, accounts, permission).clients == s.clients
    ensures AllowAll(s, c, accounts, permission).subscribers == s.subscribers
  {
    if accounts != [] {
      AllowAllKeepsMaps(s, c, accounts[..|accounts| - 1], permission);
    }
  }

  lemma StepKeepsSessions(s: Server, arrival: Arrival)
    requires SessionInv(s.sessions)
    ensures SessionInv(ArrivalStep(s, arrival).0.sessions)
  {
    match arrival.request
    case Hello(c, _) => RegisterKeepsSessions(s.sessions, c);
    case AccountLogin(c, a, _) =>
      if PermissionFor(s.sessions, c, a).Some? {
        BindKeepsSessions(s.sessions, c, a);
        StateKeepsSessions(Bind(s.sessions, c, a), a, Connecting);
        StateKeepsSessions(WithAccountState(Bind(s.sessions, c, a), a, Connecting), a, Error);
      }
    case _ =>
  }

  lemma StateKeepsSessions(s: SessionState, a: AccountId, state: ConnectionState)
    requires SessionInv(s)
    ensures SessionInv(WithAccountState(s, a, state))
  {
    var t := WithAccountState(s, a, state);
    assert forall d, b :: PermissionFor(t, d, b) == PermissionFor(s, d, b);
    assert forall b :: SubscribersOf(t, b) == SubscribersOf(s, b);
  }

  // ---- the server object ----

  class ServerActorState {
    const sessions: SessionManager
    var tradingClients: map<ClientId, Channel>
    var mailboxes: map<AccountId, seq<Command>>

    ghost function State(): Server
      reads this, sessions
    {
      Server(sessions.State(), tradingClients, mailboxes)
    }

    constructor (sessions: SessionManager)
      ensures this.sessions == sessions
      ensures State() == Server(sessions.State(), map[], map[])
    {
      this.sessions, tradingClients, mailboxes := sessions, map[], map[];
    }

    method RegisterTradingClient(c: ClientId, channel: Channel)
      modifies this, sessions
      ensures State() == ArrivalStep(old(State()), Arrival(Hello(c, channel), true)).0
    {
      sessions.RegisterClient(c);
      tradingClients := tradingClients[c := channel];
    }

    method BindAccount(c: ClientId, a: AccountId, replyTo: Channel, open: bool) returns (outcome: Outcome)
      modifies this, sessions
      ensures (State(), outcome) == LoginStep(old(State()), c, a, replyTo, open)
    {
      var allowed := sessions.EnsureAccountAccess(c, a);
      if !allowed {
        return Denied;
      }
      sessions.BindAccount(c, a);
      sessions.SetAccountState(a, Connecting);
      if a !in mailboxes {
        mailboxes := mailboxes[a := []];
      }
      assert mailboxes == old(mailboxes)[a := Mailbox(old(State()), a)];
      if !open {
        sessions.SetAccountState(a, Error);
        return ChannelClosed;
      }
      mailboxes := mailboxes[a := mailboxes[a] + [Login(a, replyTo)]];
      outcome := Taken;
    }

    method SendTradeCommand(a: AccountId, command: Command, open: bool) returns (outcome: Outcome)
      modifies this`mailboxes
      ensures outcome == if a !in old(mailboxes) then NotLoggedIn else if !open then ChannelClosed else Taken
      ensures State() == if outcome == Taken then Deliver(old(State()), a, command) else old(State())
    {
      if a !in mailboxes {
        return NotLoggedIn;
      }
      if !open {
        return ChannelClosed;
      }
      mailboxes := mailboxes[a := mailboxes[a] + [command]];
      outcome := Taken;
    }

    method PlaceOrder(c: ClientId, order: OrderRequest, replyTo: Channel, open: bool) returns (outcome: Outcome)
      modifies this`mailboxes
      ensures (State(), outcome) == ArrivalStep(old(State()), Arrival(PlaceOrderRequest(c, order, replyTo), open))
    {
      var allowed := sessions.EnsureWriteAccess(c, order.accountId);
      if !allowed {
        return Denied;
      }
      outcome := SendTradeCommand(order.accountId, Command.PlaceOrder(c, order, replyTo), open);
    }

    method CancelOrder(c: ClientId, cancel: CancelRequest, replyTo: Channel, open: bool) returns (outcome: Outcome)
      modifies this`mailboxes
      ensures (State(), outcome) == ArrivalStep(old(State()), Arrival(CancelOrderRequest(c, cancel, replyTo), open))
    {
      var allowed := sessions.EnsureWriteAccess(c, cancel.accountId);
      if !allowed {
        return Denied;
      }
      outcome := SendTradeCommand(cancel.accountId, Command.CancelOrder(cancel, replyTo), open);
    }

    /** The four query entry points differ in their kind only. */
    method Query(c: ClientId, kind: QueryKind, queried: AccountId, instrumentId: Option<InstrumentId>,
                 replyTo: Channel, open: bool) returns (outcome: Outcome)
      modifies this`mailboxes
      ensures (State(), outcome)
              == ArrivalStep(old(State()), Arrival(QueryRequest(c, kind, queried, instrumentId, replyTo), open))
    {
      var allowed := sessions.EnsureReadAccess(c, queried);
      if !allowed {
        return Denied;
      }
      outcome := SendTradeCommand(queried, Command.Query(kind, queried, instrumentId, replyTo), open);
    }

    method LogoutAccount(c: ClientId, a: AccountId, replyTo: Channel, open: bool) returns (outcome: Outcome)
      modifies this`mailboxes
      ensures (State(), outcome) == ArrivalStep(old(State()), Arrival(AccountLogout(c, a, replyTo), open))
    {
      var allowed := sessions.EnsureWriteAccess(c, a);
      if !allowed {
        return Denied;
      }
      outcome := SendTradeCommand(a, Logout(replyTo), open);
    }

    method HandleRequest(arrival: Arrival) returns (outcome: Outcome)
      modifies this, sessions
      ensures (State(), outcome) == ArrivalStep(old(State()), arrival)
    {
      match arrival.request
      case Hello(c, channel) =>
        RegisterTradingClient(c, channel);
        outcome := Taken;
      case AccountLogin(c, a, replyTo) => outcome := BindAccount(c, a, replyTo, arrival.open);
      case PlaceOrderRequest(c, order, replyTo) => outcome := PlaceOrder(c, order, replyTo, arrival.open);
      case CancelOrderRequest(c, cancel, replyTo) => outcome := CancelOrder(c, cancel, replyTo, arrival.open);
      case QueryRequest(c, kind, a, instrumentId, replyTo) =>
        outcome := Query(c, kind, a, instrumentId, replyTo, arrival.open);
      case AccountLogout(c, a, replyTo) => outcome := LogoutAccount(c, a, replyTo, arrival.open);
    }

    method Serve(arrivals: seq<Arrival>)
      modifies this, sessions
      ensures State() == ServerRun(old(State()), arrivals)
    {
      for n := 0 to |arrivals|
        invariant State() == ServerRun(old(State()), arrivals[..n])
      {
        var _ := HandleRequest(arrivals[n]);
        assert arrivals[..n + 1][..n] == arrivals[..n];
      }
      assert arrivals[..|arrivals|] == arrivals;
    }
  }
}
