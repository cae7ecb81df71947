/**
 * The market-data code in its own shape: the shared subscription table with its loops, and the
 * actor task with its login wait nested in command handling. Both are proved against `MarketData`.
 */
module MarketDataActor {
  import opened Wrappers
  import opened TradeTypes
  import opened SubscriptionTable
  import opened SubscriptionQueue
  import opened MarketData

  /** The market-data part of the state shared by all connection handlers and the actor. */
  class MarketDataState {
    var subscriptions: Table
    var clients: map<ClientId, Channel>
    /** Whether the actor exists, what its mailbox was sent so far, and what handlers have yet to send. */
    var started: bool
    var queue: seq<MdCommand>
    var inFlight: seq<MdCommand>
    /** All commands, in the order the table produced them. */
    ghost var log: seq<MdCommand>

    ghost function DeskOf(): Desk
      reads this
    {
      Desk(subscriptions, started, inFlight, queue, log)
    }

    constructor ()
      ensures DeskOf() == EMPTY_DESK && clients == map[]
    {
      subscriptions, clients, started, queue, inFlight, log := map[], map[], false, [], [], [];
    }

    method RegisterMarketDataClient(c: ClientId, channel: Channel)
      modifies this`clients
      ensures clients == old(clients)[c := channel]
    {
      clients := clients[c := channel];
    }

    method SubscribeMarketData(c: ClientId, instruments: seq<InstrumentId>) returns (out: seq<InstrumentId>)
      modifies this`subscriptions
      ensures (subscriptions, out) == Subscribe(old(subscriptions), c, instruments)
    {
      out := [];
      for n := 0 to |instruments|
        invariant (subscriptions, out) == Subscribe(old(subscriptions), c, instruments[..n])
      {
        var i := instruments[n];
        var entry := if i in subscriptions then subscriptions[i] else {};
        var wasEmpty := entry == {};
        var inserted := c !in entry;
        subscriptions := subscriptions[i := entry + {c}];
        if wasEmpty && inserted {
          out := out + [i];
        }
        assert instruments[..n + 1][..n] == instruments[..n];
      }
      assert instruments[..|instruments|] == instruments;
    }

    method UnsubscribeMarketData(c: ClientId, instruments: seq<InstrumentId>) returns (out: seq<InstrumentId>)
      modifies this`subscriptions
      ensures (subscriptions, out) == Unsubscribe(old(subscriptions), c, instruments)
    {
      out := [];
      for n := 0 to |instruments|
        invariant (subscriptions, out) == Unsubscribe(old(subscriptions), c, instruments[..n])
      {
        var i := instruments[n];
        var shouldRemove := false;
        if i in subscriptions {
          var rest := subscriptions[i] - {c};
          subscriptions := subscriptions[i := rest];
          shouldRemove := rest == {};
        }
        if shouldRemove {
          subscriptions := subscriptions - {i};
          assert subscriptions == Unsubscribe(old(subscriptions), c, instruments[..n]).0 - {i};
          out := out + [i];
        }
        assert instruments[..n + 1][..n] == instruments[..n];
      }
      assert instruments[..|instruments|] == instruments;
    }

    /** Takes the client out of every entry, in any order, and lists the entries left empty. */
    method RemoveFromEntries(c: ClientId) returns (empty: seq<InstrumentId>)
      modifies this`subscriptions
      ensures subscriptions == map i | i in old(subscriptions) :: old(subscriptions)[i] - {c}
      ensures NoDuplicates(empty) && forall i :: i in empty <==> i in Orphans(old(subscriptions), c)
    {
      ghost var t := subscriptions;
      var pending := subscriptions.Keys;
      empty := [];
      while pending != {}
        invariant pending <= t.Keys == subscriptions.Keys
        invariant forall i | i in t :: subscriptions[i] == if i in pending then t[i] else t[i] - {c}
        invariant NoDuplicates(empty)
        invariant forall i :: i in empty <==> i in t && i !in pending && t[i] - {c} == {}
        decreases pending
      {
        var i :| i in pending;
        pending := pending - {i};
        subscriptions := subscriptions[i := subscriptions[i] - {c}];
        if subscriptions[i] == {} {
          empty := empty + [i];
        }
      }
    }

    /** Drops the client from every entry, then the entries left empty. */
    method RemoveMarketDataClientSubscriptions(c: ClientId) returns (out: seq<InstrumentId>)
      modifies this`subscriptions
      ensures subscriptions == RemoveClient(old(subscriptions), c)
      ensures NoDuplicates(out) && forall i :: i in out <==> i in Orphans(old(subscriptions), c)
    {
      ghost var t := subscriptions;
      out := RemoveFromEntries(c);
      for n := 0 to |out|
        invariant subscriptions == map i | i in t && i !in out[..n] :: t[i] - {c}
      {
        subscriptions := subscriptions - {out[n]};
        assert out[..n + 1] == out[..n] + [out[n]];
      }
      assert out[..|out|] == out;
    }

    /** A handler's work under the lock; what it then has to send stays with it until `SendInFlight`. */
    method HandleRequest(op: Op) returns (ghost out: seq<InstrumentId>)
      modifies this
      ensures Emits(old(subscriptions), op, out)
      ensures DeskOf() == DeskNext(old(DeskOf()), Mutate(op, out))
      ensures clients == if op.OpDisconnect? then old(clients) - {op.c} else old(clients)
    {
      var asked;
      match op {
        case OpSubscribe(c, instruments) =>
          asked := SubscribeMarketData(c, instruments);
          if !started {
            started := true;
          }
        case OpUnsubscribe(c, instruments) =>
          asked := UnsubscribeMarketData(c, instruments);
        case OpDisconnect(c) =>
          clients := clients - {c};
          asked := RemoveMarketDataClientSubscriptions(c);
      }
      out := asked;
      if started && asked != [] {
        inFlight := inFlight + [CommandFor(op, asked)];
      }
      log := log + Commands(started, op, out);
    }

    /** Some handler that released the lock gets to send its command. */
    method SendInFlight(k: nat)
      modifies this`queue, this`inFlight
      ensures DeskOf() == DeskNext(old(DeskOf()), Send(k))
    {
      if k < |inFlight| {
        queue := queue + [inFlight[k]];
        inFlight := inFlight[..k] + inFlight[k + 1..];
      }
    }
  }

  /** What happens next around the actor: a handler's doing, its mailbox being ready, or an event. */
  datatype Offer =
    | ClientHello(c: ClientId, channel: Channel)
    | ClientRequest(op: Op)
    | HandlerSends(k: nat)
    | CommandReady(ok: bool)
    | ExchangeEvent(event: MdEvent, ok: bool)

  function OfferOf(input: MdInput): Offer {
    match input
    case Register(c, channel) => ClientHello(c, channel)
    case Request(op, _) => ClientRequest(op)
    case SendCommand(k) => HandlerSends(k)
    case TakeCommand(ok) => CommandReady(ok)
    case MdEventIn(event, ok) => ExchangeEvent(event, ok)
  }

  function OffersOf(inputs: seq<MdInput>): seq<Offer> {
    if inputs == [] then [] else OffersOf(inputs[..|inputs| - 1]) + [OfferOf(inputs[|inputs| - 1])]
  }

  class MarketDataSessionActor {
    const state: MarketDataState
    var consumed: nat
    var session: bool
    var loggedIn: bool
    var exchange: set<InstrumentId>
    var fanouts: seq<Fanout>
    var tape: seq<Offer>

    ghost var waiting: Option<MdCommand>
    ghost var taken: seq<MdInput>

    ghost function State(): Service
      reads this, state
    {
      Service(state.DeskOf(), state.clients, consumed, session, loggedIn, waiting, exchange, fanouts)
    }

    ghost predicate Valid()
      reads this, state
    {
      State() == ServiceRun(IDLE, taken) && ConsistentRun(IDLE, taken)
    }

    constructor (state: MarketDataState, tape: seq<Offer>)
      requires state.DeskOf() == EMPTY_DESK && state.clients == map[]
      ensures Valid() && this.state == state && this.tape == tape && taken == []
    {
      this.state, this.tape := state, tape;
      consumed, session, loggedIn, exchange, fanouts := 0, false, false, {}, [];
      waiting, taken := None, [];
    }

    ghost method Handled(input: MdInput)
      requires ConsistentRun(IDLE, taken) && Consistent(ServiceRun(IDLE, taken), input)
      requires State() == ServiceStep(ServiceRun(IDLE, taken), input)
      modifies this`taken
      ensures Valid() && OffersOf(taken) == old(OffersOf(taken)) + [OfferOf(input)]
    {
      assert (taken + [input])[..|taken|] == taken;
      taken := taken + [input];
    }

    /** Handles whatever offers there are; what it did is a consistent run that took them in order. */
    method Serve()
      requires Valid() && taken == [] && waiting.None?
      modifies this, state
      ensures tape == [] && Valid() && OffersOf(taken) == old(tape)
    {
      ghost var all := tape;
      assert OffersOf(taken) + tape == all;
      while tape != []
        invariant Valid() && OffersOf(taken) + tape == all
        invariant waiting.None? || tape == []
        decreases |tape|
      {
        var offer := tape[0];
        tape := tape[1..];
        assert OffersOf(taken) + [offer] + tape == all;
        match offer
        case CommandReady(ok) =>
          TakeOne(ok);
        case ExchangeEvent(event, ok) =>
          if session {
            HandleMarketDataEvent(event, ok);
          }
          Handled(MdEventIn(event, ok));
        case _ =>
          ClientDoes(offer);
      }
    }

    /** A connection handler runs between two awaits of the actor. */
    method ClientDoes(offer: Offer)
      requires Valid() && (offer.ClientHello? || offer.ClientRequest? || offer.HandlerSends?)
      modifies this`taken, state
      ensures Valid() && OffersOf(taken) == old(OffersOf(taken)) + [offer]
    {
      match offer
      case ClientHello(c, channel) =>
        state.RegisterMarketDataClient(c, channel);
        Handled(Register(c, channel));
      case ClientRequest(op) =>
        ghost var out := state.HandleRequest(op);
        Handled(Request(op, out));
      case HandlerSends(k) =>
        state.SendInFlight(k);
        Handled(SendCommand(k));
    }

    method ApplyCommand(command: MdCommand, ok: bool)
      modifies this`exchange
      ensures exchange == if ok then Replay([command], old(exchange)) else old(exchange)
    {
      if ok {
        match command
        case SubscribeExchange(instruments) => exchange := exchange + set i | i in instruments;
        case UnsubscribeExchange(instruments) => exchange := exchange - set i | i in instruments;
      }
      assert [command][..0] == [];
    }

    /** Takes one command off the queue, if there is one, creating the session if needed. */
    method BeginTake(ok: bool) returns (mustWait: bool, command: MdCommand)
      requires waiting.None?
      modifies this
      ensures unchanged(`taken) && unchanged(`tape)
      ensures State() == TakeStep(old(State()), ok)
      ensures waiting == if mustWait then Some(command) else None
      ensures mustWait ==> session
    {
      mustWait, command := false, SubscribeExchange([]);
      if consumed >= |state.queue| {
        return;
      }
      command := state.queue[consumed];
      consumed := consumed + 1;
      if !session && !ok {
        return;
      }
      if session && loggedIn {
        ApplyCommand(command, ok);
        return;
      }
      session, mustWait := true, true;
      waiting := Some(command);
    }

    method TakeOne(ok: bool)
      requires Valid() && waiting.None?
      modifies this, state
      ensures Valid() && OffersOf(taken) + tape == old(OffersOf(taken)) + [CommandReady(ok)] + old(tape)
      ensures |tape| <= old(|tape|) && (waiting.None? || tape == [])
    {
      var mustWait, command := BeginTake(ok);
      Handled(TakeCommand(ok));
      if mustWait {
        WaitMarketDataLogin(command);
      }
    }

    /** One event while a command waits for the login. */
    method OnWaitEvent(event: MdEvent, ok: bool, command: MdCommand) returns (done: bool)
      requires session && waiting == Some(command)
      modifies this
      ensures unchanged(`taken) && unchanged(`tape)
      ensures State() == WaitEvent(old(State()), event, ok)
      ensures waiting == if done then None else Some(command)
      ensures session
    {
      done := false;
      match event {
        case MdFrontConnected => done := !ok;
        case MdLoginOk =>
          loggedIn := true;
          exchange := {};
          ApplyCommand(command, ok);
          done := true;
        case MdLoginFailed => done := true;
        case MdError => done := true;
        case _ =>
      }
      if done {
        waiting := None;
      }
    }

    method WaitMarketDataLogin(command: MdCommand)
      requires Valid() && session && waiting == Some(command)
      modifies this, state
      ensures Valid() && OffersOf(taken) + tape == old(OffersOf(taken) + tape)
      ensures |tape| <= old(|tape|) && (waiting.None? || tape == [])
    {
      ghost var all := OffersOf(taken) + tape;
      var done := false;
      while !done && tape != []
        invariant Valid() && session && OffersOf(taken) + tape == all && |tape| <= old(|tape|)
        invariant waiting == if done then None else Some(command)
        decreases |tape|
      {
        var offer := tape[0];
        tape := tape[1..];
        assert OffersOf(taken) + [offer] + tape == all;
        match offer
        case ExchangeEvent(event, ok) =>
          done := OnWaitEvent(event, ok, command);
          Handled(MdEventIn(event, ok));
        case CommandReady(ok) =>
          Handled(TakeCommand(ok));
        case _ =>
          ClientDoes(offer);
      }
    }

    method HandleMarketDataEvent(event: MdEvent, ok: bool)
      requires session && waiting.None?
      modifies this
      ensures unchanged(`taken) && unchanged(`tape) && waiting.None?
      ensures State() == MainEvent(old(State()), event, ok)
    {
      match event {
        case MdLoginOk =>
          loggedIn := true;
          ResubscribeMarketData(ok);
        case MdTick(i) =>
          FanoutMarketDataTick(i);
        case MdFrontDisconnected => loggedIn := false;
        case MdLoginFailed => loggedIn := false;
        case _ =>
      }
    }

    /** The login began an empty exchange session; every instrument of the table is asked for again. */
    method ResubscribeMarketData(ok: bool)
      modifies this`exchange
      ensures exchange == if ok then state.subscriptions.Keys else {}
    {
      exchange := {};
      var instruments := state.subscriptions.Keys;
      if instruments == {} {
        return;
      }
      if ok {
        exchange := exchange + instruments;
      }
    }

    /** Sends the tick once to each subscribed client that is registered, visiting them in any order. */
    method FanoutMarketDataTick(i: InstrumentId)
      modifies this`fanouts
      ensures fanouts == old(fanouts) + [Fanout(i, multiset(Recipients(state.subscriptions, state.clients, i)))]
    {
      var pending := if i in state.subscriptions then state.subscriptions[i] else {};
      var sent: multiset<(ClientId, Channel)> := multiset{};
      ghost var reached: set<(ClientId, Channel)> := {};
      while pending != {}
        invariant pending <= ClientsOf(state.subscriptions, i)
        invariant sent == multiset(reached)
        invariant reached == set c | c in ClientsOf(state.subscriptions, i) && c !in pending && c in state.clients
                                   :: (c, state.clients[c])
        decreases pending
      {
        var c :| c in pending;
        if c in state.clients {
          assert (c, state.clients[c]) !in reached;
          sent := sent + multiset{(c, state.clients[c])};
          reached := reached + {(c, state.clients[c])};
        }
        pending := pending - {c};
      }
      assert reached == Recipients(state.subscriptions, state.clients, i);
      fanouts := fanouts + [Fanout(i, sent)];
    }
  }
}
