/**
 * Who may do what, read off the configuration and the requests: what the mailboxes hold, what is
 * refused, and what the session maps remember.
 */
module Permissions {
  import opened Wrappers
  import opened Selection
  import opened TradeTypes
  import opened Sessions
  import opened ServerState

  /** The request, made for the account, asks for this command. */
  predicate Asks(request: Request, account: AccountId, command: Command) {
    match command
    case Login(a, replyTo) =>
      request.AccountLogin? && request.accountId == account && a == account && request.replyTo == replyTo
    case PlaceOrder(c, order, replyTo) =>
      request == PlaceOrderRequest(c, order, replyTo) && order.accountId == account
    case CancelOrder(cancel, replyTo) =>
      request.CancelOrderRequest? && request.cancel == cancel && cancel.accountId == account
      && request.replyTo == replyTo
    case Query(kind, queried, instrumentId, replyTo) =>
      request.QueryRequest? && queried == account
      && request == QueryRequest(request.c, kind, account, instrumentId, replyTo)
    case Logout(replyTo) =>
      request.AccountLogout? && request.accountId == account && request.replyTo == replyTo
  }

  /** Any rule for a login; one that reads for a query; one that trades for an order, a cancel or a logout. */
  predicate MayAsk(rule: Option<Permission>, request: Request) {
    match request
    case Hello(_, _) => false
    case AccountLogin(_, _, _) => rule.Some?
    case QueryRequest(_, _, _, _, _) => rule == Some(Full) || rule == Some(QueryOnly)
    case PlaceOrderRequest(_, _, _) => rule == Some(Full) || rule == Some(TradeOnly)
    case CancelOrderRequest(_, _, _) => rule == Some(Full) || rule == Some(TradeOnly)
    case AccountLogout(_, _, _) => rule == Some(Full) || rule == Some(TradeOnly)
  }

  /** The request is for the account. */
  predicate IsFor(request: Request, account: AccountId) {
    match request
    case Hello(_, _) => false
    case AccountLogin(_, a, _) => a == account
    case PlaceOrderRequest(_, order, _) => order.accountId == account
    case CancelOrderRequest(_, cancel, _) => cancel.accountId == account
    case QueryRequest(_, _, a, _, _) => a == account
    case AccountLogout(_, a, _) => a == account
  }

  predicate MayAskFor(config: seq<ConfigEntry>, request: Request, account: AccountId) {
    IsFor(request, account) && MayAsk(LastRule(config, request.c, account), request)
  }

  ghost predicate LoginBefore(config: seq<ConfigEntry>, arrivals: seq<Arrival>, account: AccountId, n: nat) {
    exists k :: 0 <= k < n && k < |arrivals| && arrivals[k].request.AccountLogin?
                && MayAskFor(config, arrivals[k].request, account)
  }

  /** The arrival is permitted, finds the account's mailbox, and the mailbox is open. */
  ghost predicate Reaches(config: seq<ConfigEntry>, arrivals: seq<Arrival>, account: AccountId, n: nat)
    requires n < |arrivals|
  {
    && arrivals[n].open && MayAskFor(config, arrivals[n].request, account)
    && (arrivals[n].request.AccountLogin? || LoginBefore(config, arrivals, account, n))
  }

  ghost function Reaching(config: seq<ConfigEntry>, arrivals: seq<Arrival>, account: AccountId): seq<bool> {
    seq(|arrivals|, n requires 0 <= n < |arrivals| => Reaches(config, arrivals, account, n))
  }

  lemma AuthorisedMeansMayAsk(config: seq<ConfigEntry>, request: Request, account: AccountId)
    ensures Authorised(config, request, account) <==> MayAskFor(config, request, account)
    ensures Authorised(config, request, account) ==> Asks(request, account, CommandOf(request))
  {
  }

  lemma EverLoggedInMeansLoginBefore(config: seq<ConfigEntry>, arrivals: seq<Arrival>, account: AccountId)
    ensures EverLoggedIn(config, arrivals, account) <==> LoginBefore(config, arrivals, account, |arrivals|)
  {
    forall k | 0 <= k < |arrivals|
      ensures Authorised(config, arrivals[k].request, account) <==> MayAskFor(config, arrivals[k].request, account)
    {
      AuthorisedMeansMayAsk(config, arrivals[k].request, account);
    }
  }

  lemma ReachingNext(config: seq<ConfigEntry>, earlier: seq<Arrival>, last: Arrival, account: AccountId)
    ensures Reaching(config, earlier + [last], account)
            == Reaching(config, earlier, account) + [Reaches(config, earlier + [last], account, |earlier|)]
    ensures LoginBefore(config, earlier + [last], account, |earlier|)
            <==> LoginBefore(config, earlier, account, |earlier|)
  {
    var all := earlier + [last];
    assert forall k | 0 <= k < |earlier| :: all[k] == earlier[k];
    forall n | 0 <= n < |earlier| ensures Reaches(config, all, account, n) <==> Reaches(config, earlier, account, n) {
      assert LoginBefore(config, all, account, n) <==> LoginBefore(config, earlier, account, n);
    }
  }

  ghost function Reached(config: seq<ConfigEntry>, arrivals: seq<Arrival>, account: AccountId): seq<Arrival> {
    Pick(arrivals, Reaching(config, arrivals, account))
  }

  lemma ReachedNext(config: seq<ConfigEntry>, earlier: seq<Arrival>, last: Arrival, account: AccountId)
    ensures Reached(config, earlier + [last], account)
            == Reached(config, earlier, account)
               + if last.open && MayAskFor(config, last.request, account)
                    && (last.request.AccountLogin? || LoginBefore(config, earlier, account, |earlier|))
                 then [last] else []
  {
    ReachingNext(config, earlier, last, account);
    PickSnoc(earlier, Reaching(config, earlier, account), last, Reaches(config, earlier + [last], account, |earlier|));
  }

  /** The arrivals ask for the commands, one for one. */
  ghost predicate AskFor(arrivals: seq<Arrival>, account: AccountId, commands: seq<Command>) {
    && |arrivals| == |commands|
    && forall k | 0 <= k < |arrivals| :: Asks(arrivals[k].request, account, commands[k])
  }

  lemma AskForSnoc(arrivals: seq<Arrival>, account: AccountId, commands: seq<Command>, last: Arrival, command: Command)
    requires AskFor(arrivals, account, commands) && Asks(last.request, account, command)
    ensures AskFor(arrivals + [last], account, commands + [command])
  {
  }

  lemma {:induction false} ExpectedReaches(config: seq<ConfigEntry>, arrivals: seq<Arrival>, account: AccountId)
    ensures AskFor(Reached(config, arrivals, account), account, Expected(config, arrivals, account))
  {
    if arrivals == [] {
      assert Reached(config, arrivals, account) == [];
    } else {
      var earlier, last := arrivals[..|arrivals| - 1], arrivals[|arrivals| - 1];
      ExpectedReaches(config, earlier, account);
      EverLoggedInMeansLoginBefore(config, earlier, account);
      AuthorisedMeansMayAsk(config, last.request, account);
      assert arrivals == earlier + [last];
      ReachedNext(config, earlier, last, account);
      if Authorised(config, last.request, account) {
        AskForSnoc(Reached(config, earlier, account), account, Expected(config, earlier, account),
                   last, CommandOf(last.request));
      }
      assert Reached(config, earlier, account) + [] == Reached(config, earlier, account);
    }
  }

  /**
   * In every reachable state an account's mailbox holds, in arrival order and each once, what the
   * permitted requests for that account asked for, from the first permitted login on.
   */
  lemma MailboxIsWhatWasPermitted(config: seq<ConfigEntry>, arrivals: seq<Arrival>, account: AccountId)
    ensures var box := Mailbox(ServerRun(Configured(config), arrivals), account);
            AskFor(Reached(config, arrivals, account), account, box)
    ensures account in ServerRun(Configured(config), arrivals).mailboxes
            <==> LoginBefore(config, arrivals, account, |arrivals|)
  {
    MailboxesHoldAuthorisedRequests(config, arrivals, account);
    ExpectedReaches(config, arrivals, account);
    EverLoggedInMeansLoginBefore(config, arrivals, account);
  }

  /** Behind every command in a mailbox is a request for it from a client whose rule allows it. */
  lemma MailboxCommandIsPermitted(config: seq<ConfigEntry>, arrivals: seq<Arrival>, account: AccountId, n: nat)
    requires n < |Mailbox(ServerRun(Configured(config), arrivals), account)|
    ensures var command := Mailbox(ServerRun(Configured(config), arrivals), account)[n];
            exists k :: 0 <= k < |arrivals| && Asks(arrivals[k].request, account, command)
                        && match command
                           case Login(_, _) => LastRule(config, arrivals[k].request.c, account).Some?
                           case Query(_, _, _, _) =>
                             LastRule(config, arrivals[k].request.c, account) in {Some(Full), Some(QueryOnly)}
                           case _ => LastRule(config, arrivals[k].request.c, account) in {Some(Full), Some(TradeOnly)}
  {
    MailboxIsWhatWasPermitted(config, arrivals, account);
    var mask := Reaching(config, arrivals, account);
    var k := Kept(mask)[n];
    assert Reached(config, arrivals, account)[n] == arrivals[k];
    KeptExactly(mask, k);
  }

  lemma RunHasLastRules(config: seq<ConfigEntry>, arrivals: seq<Arrival>, c: ClientId, account: AccountId)
    ensures PermissionFor(ServerRun(Configured(config), arrivals).sessions, c, account) == LastRule(config, c, account)
  {
    RunKeepsRules(Configured(config), arrivals);
    RulesAreLastWins(config, c, account);
  }

  /** A request its client's rule does not allow is denied and changes nothing. */
  lemma UnpermittedChangesNothing(config: seq<ConfigEntry>, arrivals: seq<Arrival>, arrival: Arrival,
                                  account: AccountId)
    requires IsFor(arrival.request, account)
    requires !MayAsk(LastRule(config, arrival.request.c, account), arrival.request)
    ensures var s := ServerRun(Configured(config), arrivals); ArrivalStep(s, arrival) == (s, Denied)
  {
    RunHasLastRules(config, arrivals, arrival.request.c, account);
  }

  /** One it allows is taken exactly when the account has a mailbox, or the request is a login, and it is open. */
  lemma PermittedIsTakenExactly(config: seq<ConfigEntry>, arrivals: seq<Arrival>, arrival: Arrival, account: AccountId)
    requires MayAskFor(config, arrival.request, account)
    ensures var s := ServerRun(Configured(config), arrivals);
            var (t, outcome) := ArrivalStep(s, arrival);
            && outcome == (if !arrival.request.AccountLogin? && account !in s.mailboxes then NotLoggedIn
                           else if arrival.open then Taken else ChannelClosed)
            && (outcome == Taken ==>
                  && |Mailbox(t, account)| == |Mailbox(s, account)| + 1
                  && Mailbox(t, account)[..|Mailbox(s, account)|] == Mailbox(s, account)
                  && Asks(arrival.request, account, Mailbox(t, account)[|Mailbox(s, account)|]))
            && (forall b | b != account :: Mailbox(t, b) == Mailbox(s, b))
  {
    RunHasLastRules(config, arrivals, arrival.request.c, account);
  }

  // ---- what the session maps remember ----

  predicate LogsIn(config: seq<ConfigEntry>, arrival: Arrival, c: ClientId, account: AccountId) {
    && arrival.request.AccountLogin? && arrival.request.c == c && arrival.request.accountId == account
    && LastRule(config, c, account).Some?
  }

  /** Some permitted login of the client to the account has arrived. */
  predicate HasLoggedIn(config: seq<ConfigEntry>, arrivals: seq<Arrival>, c: ClientId, account: AccountId) {
    arrivals != []
    && (HasLoggedIn(config, arrivals[..|arrivals| - 1], c, account)
        || LogsIn(config, arrivals[|arrivals| - 1], c, account))
  }

  /** The channel of the client's last hello. */
  function LastHello(arrivals: seq<Arrival>, c: ClientId): Option<Channel> {
    if arrivals == [] then None
    else
      var request := arrivals[|arrivals| - 1].request;
      if request.Hello? && request.c == c then Some(request.channel) else LastHello(arrivals[..|arrivals| - 1], c)
  }

  /** A permitted login of the client to the account has arrived since its last hello. */
  predicate LoggedInSinceHello(config: seq<ConfigEntry>, arrivals: seq<Arrival>, c: ClientId, account: AccountId) {
    && arrivals != []
    && !(arrivals[|arrivals| - 1].request.Hello? && arrivals[|arrivals| - 1].request.c == c)
    && (LoggedInSinceHello(config, arrivals[..|arrivals| - 1], c, account)
        || (LastHello(arrivals[..|arrivals| - 1], c).Some? && LogsIn(config, arrivals[|arrivals| - 1], c, account)))
  }

  /** The state the last permitted login put the account in. */
  function LastLoginState(config: seq<ConfigEntry>, arrivals: seq<Arrival>, account: AccountId)
    : Option<ConnectionState>
  {
    if arrivals == [] then None
    else
      var last := arrivals[|arrivals| - 1];
      if last.request.AccountLogin? && LogsIn(config, last, last.request.c, account)
      then Some(if last.open then Connecting else Error)
      else LastLoginState(config, arrivals[..|arrivals| - 1], account)
  }

  /** What the session maps and the client map say of a client and an account. */
  ghost predicate Recalls(s: Server, config: seq<ConfigEntry>, arrivals: seq<Arrival>, c: ClientId,
                          account: AccountId)
  {
    && (c in SubscribersOf(s.sessions, account) <==> HasLoggedIn(config, arrivals, c, account))
    && (LastHello(arrivals, c) == if c in s.tradingClients then Some(s.tradingClients[c]) else None)
    && (c in s.sessions.clients <==> LastHello(arrivals, c).Some?)
    && (c in s.sessions.clients ==>
          (account in s.sessions.clients[c] <==> LoggedInSinceHello(config, arrivals, c, account)))
    && (LastLoginState(config, arrivals, account)
        == if account in s.sessions.accountStates then Some(s.sessions.accountStates[account]) else None)
  }

  lemma StepRecalls(s: Server, config: seq<ConfigEntry>, earlier: seq<Arrival>, last: Arrival,
                    c: ClientId, account: AccountId)
    requires Recalls(s, config, earlier, c, account)
    requires last.request.AccountLogin? ==>
               PermissionFor(s.sessions, last.request.c, last.request.accountId)
               == LastRule(config, last.request.c, last.request.accountId)
    ensures Recalls(ArrivalStep(s, last).0, config, earlier + [last], c, account)
  {
    assert (earlier + [last])[..|earlier|] == earlier;
    match last.request
    case Hello(_, _) => HelloRecalls(s, config, earlier, last, c, account);
    case AccountLogin(_, _, _) => LoginRecalls(s, config, earlier, last, c, account);
    case _ => assert ArrivalStep(s, last).0.sessions == s.sessions;
  }

  lemma HelloRecalls(s: Server, config: seq<ConfigEntry>, earlier: seq<Arrival>, last: Arrival,
                     c: ClientId, account: AccountId)
    requires Recalls(s, config, earlier, c, account) && last.request.Hello?
    ensures Recalls(ArrivalStep(s, last).0, config, earlier + [last], c, account)
  {
    assert (earlier + [last])[..|earlier|] == earlier;
    assert SubscribersOf(WithClient(s.sessions, last.request.c), account) == SubscribersOf(s.sessions, account);
  }

  /** What a permitted login does to the maps, and leaves alone. */
  lemma LoginBinds(s: Server, c: ClientId, a: AccountId, replyTo: Channel, open: bool, d: ClientId, b: AccountId)
    requires PermissionFor(s.sessions, c, a).Some?
    ensures var t := LoginStep(s, c, a, replyTo, open).0;
            && t.tradingClients == s.tradingClients
            && (d in SubscribersOf(t.sessions, b) <==> d in SubscribersOf(s.sessions, b) || (d == c && b == a))
            && (d in t.sessions.clients <==> d in s.sessions.clients)
            && (d in s.sessions.clients ==>
                  (b in t.sessions.clients[d] <==> b in s.sessions.clients[d] || (d == c && b == a)))
            && t.sessions.accountStates == s.sessions.accountStates[a := if open then Connecting else Error]
  {
    var bound := Bind(s.sessions, c, a);
    assert SubscribersOf(bound, b) == if b == a then AddOnce(SubscribersOf(s.sessions, a), c)
                                      else SubscribersOf(s.sessions, b);
  }

  lemma LoginRecalls(s: Server, config: seq<ConfigEntry>, earlier: seq<Arrival>, last: Arrival,
                     c: ClientId, account: AccountId)
    requires Recalls(s, config, earlier, c, account) && last.request.AccountLogin?
    requires PermissionFor(s.sessions, last.request.c, last.request.accountId)
             == LastRule(config, last.request.c, last.request.accountId)
    ensures Recalls(ArrivalStep(s, last).0, config, earlier + [last], c, account)
  {
    assert (earlier + [last])[..|earlier|] == earlier;
    var request := last.request;
    if PermissionFor(s.sessions, request.c, request.accountId).Some? {
      LoginBinds(s, request.c, request.accountId, request.replyTo, last.open, c, account);
    }
  }

  /** Over every run: subscribers, bound accounts, channels and account states are what the requests make them. */
  lemma {:induction false} SessionMapsRecallRequests(config: seq<ConfigEntry>, arrivals: seq<Arrival>,
                                                     c: ClientId, account: AccountId)
    ensures Recalls(ServerRun(Configured(config), arrivals), config, arrivals, c, account)
  {
    if arrivals == [] {
      FreshSessions(config);
      FreshStates(config);
    } else {
      var earlier, last := arrivals[..|arrivals| - 1], arrivals[|arrivals| - 1];
      SessionMapsRecallRequests(config, earlier, c, account);
      if last.request.AccountLogin? {
        RunHasLastRules(config, earlier, last.request.c, last.request.accountId);
      }
      assert arrivals == earlier + [last];
      StepRecalls(ServerRun(Configured(config), earlier), config, earlier, last, c, account);
    }
  }

  lemma {:induction false} FreshStates(config: seq<ConfigEntry>)
    ensures FromConfig(config).accountStates == map[]
  {
    if config != [] {
      var last := config[|config| - 1];
      FreshStates(config[..|config| - 1]);
      AllowAllKeepsStates(FromConfig(config[..|config| - 1]), Trim(last.clientId), last.accounts, last.permission);
    }
  }

  lemma {:induction false} AllowAllKeepsStates(s: SessionState, c: ClientId, accounts: seq<string>,
                                               permission: Permission)
    ensures AllowAll(s, c, accounts, permission).accountStates == s.accountStates
  {
    if accounts != [] {
      AllowAllKeepsStates(s, c, accounts[..|accounts| - 1], permission);
    }
  }
}
