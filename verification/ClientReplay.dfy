/** The market-data client's replay buffer, and what replaying it does to the server's table. */
module ClientReplay {
  import opened TradeTypes
  import opened SubscriptionTable
  import opened SubscriptionQueue
  import MarketData

  datatype Envelope =
    | MarketDataHello(c: ClientId)
    | SubscribeMarketData(c: ClientId, instruments: seq<InstrumentId>)
    | UnsubscribeMarketData(c: ClientId, instruments: seq<InstrumentId>)

  /** A hello, then one subscription listing the whole set, if there is anything to list. */
  ghost predicate IsReplay(buffer: seq<Envelope>, c: ClientId, subscriptions: set<InstrumentId>) {
    if subscriptions == {} then buffer == [MarketDataHello(c)]
    else
      && |buffer| == 2 && buffer[0] == MarketDataHello(c)
      && buffer[1].SubscribeMarketData? && buffer[1].c == c
      && NoDuplicates(buffer[1].instruments)
      && forall i :: i in buffer[1].instruments <==> i in subscriptions
  }

  function Listed(instruments: seq<InstrumentId>): set<InstrumentId> {
    set i | i in instruments
  }

  lemma ListedNext(instruments: seq<InstrumentId>, n: nat)
    requires n < |instruments|
    ensures Listed(instruments[..n + 1]) == Listed(instruments[..n]) + {instruments[n]}
  {
    assert instruments[..n + 1] == instruments[..n] + [instruments[n]];
  }

  /** What an envelope makes of the instruments held for its client. */
  function ApplyEnvelope(held: set<InstrumentId>, envelope: Envelope): set<InstrumentId> {
    match envelope
    case MarketDataHello(_) => held
    case SubscribeMarketData(_, instruments) => held + Listed(instruments)
    case UnsubscribeMarketData(_, instruments) => held - Listed(instruments)
  }

  function ApplyEnvelopes(held: set<InstrumentId>, envelopes: seq<Envelope>): set<InstrumentId> {
    if envelopes == [] then held
    else ApplyEnvelope(ApplyEnvelopes(held, envelopes[..|envelopes| - 1]), envelopes[|envelopes| - 1])
  }

  /** The set a client that sent these envelopes is subscribed to. */
  function SetAfter(sent: seq<Envelope>): set<InstrumentId> {
    ApplyEnvelopes({}, sent)
  }

  /** The client facade. `sent` lists the envelopes it handed to the transport. */
  class MarketDataClient {
    const clientId: ClientId
    var connected: bool
    var subscriptions: set<InstrumentId>
    var reconnectEnvelopes: seq<Envelope>
    var sent: seq<Envelope>

    /** The buffer of a connection is empty until the first update, and exact from then on. */
    ghost predicate Valid()
      reads this
    {
      && (reconnectEnvelopes == [] || IsReplay(reconnectEnvelopes, clientId, subscriptions))
      && subscriptions == SetAfter(sent)
      && forall e | e in sent :: e.c == clientId
    }

    constructor (clientId: ClientId)
      ensures Valid() && this.clientId == clientId && !connected && subscriptions == {}
    {
      this.clientId, connected, subscriptions := clientId, false, {};
      reconnectEnvelopes, sent := [], [];
    }

    /** A send fails without a connection, or when the transport refuses it. */
    method SendEnvelope(envelope: Envelope, transportOk: bool) returns (ok: bool)
      modifies this`sent
      ensures ok == (connected && transportOk)
      ensures sent == if ok then old(sent) + [envelope] else old(sent)
    {
      ok := connected && transportOk;
      if ok {
        sent := sent + [envelope];
      }
    }

    method UpdateReconnectEnvelopes()
      requires connected
      modifies this`reconnectEnvelopes
      ensures IsReplay(reconnectEnvelopes, clientId, subscriptions)
    {
      reconnectEnvelopes := [MarketDataHello(clientId)];
      if subscriptions != {} {
        var listed, rest := [], subscriptions;
        while rest != {}
          invariant rest <= subscriptions && NoDuplicates(listed)
          invariant forall i :: i in listed <==> i in subscriptions && i !in rest
          decreases rest
        {
          var i :| i in rest;
          rest := rest - {i};
          listed := listed + [i];
        }
        reconnectEnvelopes := reconnectEnvelopes + [SubscribeMarketData(clientId, listed)];
      }
    }

    /** A new connection starts with an empty buffer; only a hello that is taken fills it. */
    method Connect(tcpOk: bool, helloOk: bool) returns (ok: bool)
      requires Valid()
      modifies this
      ensures Valid() && subscriptions == old(subscriptions)
      ensures ok == (tcpOk && helloOk) && (tcpOk ==> connected)
      ensures ok ==> IsReplay(reconnectEnvelopes, clientId, subscriptions)
      ensures tcpOk && !ok ==> reconnectEnvelopes == []
      ensures !tcpOk ==> connected == old(connected) && reconnectEnvelopes == old(reconnectEnvelopes)
    {
      if !tcpOk {
        return false;
      }
      connected, reconnectEnvelopes := true, [];
      ok := SendEnvelope(MarketDataHello(clientId), helloOk);
      if ok {
        assert sent[..|sent| - 1] == old(sent);
        UpdateReconnectEnvelopes();
      }
    }

    method Subscribe(instruments: seq<InstrumentId>, transportOk: bool) returns (ok: bool)
      requires Valid()
      modifies this
      ensures Valid() && connected == old(connected) && ok == (connected && transportOk)
      ensures ok ==> subscriptions == old(subscriptions) + Listed(instruments)
      ensures ok ==> IsReplay(reconnectEnvelopes, clientId, subscriptions)
      ensures !ok ==> subscriptions == old(subscriptions) && reconnectEnvelopes == old(reconnectEnvelopes)
    {
      ok := SendEnvelope(SubscribeMarketData(clientId, instruments), transportOk);
      if ok {
        assert sent[..|sent| - 1] == old(sent);
        for n := 0 to |instruments|
          invariant subscriptions == old(subscriptions) + Listed(instruments[..n])
          modifies this`subscriptions
        {
          subscriptions := subscriptions + {instruments[n]};
          ListedNext(instruments, n);
        }
        assert instruments[..|instruments|] == instruments;
        UpdateReconnectEnvelopes();
      }
    }

    method Unsubscribe(instruments: seq<InstrumentId>, transportOk: bool) returns (ok: bool)
      requires Valid()
      modifies this
      ensures Valid() && connected == old(connected) && ok == (connected && transportOk)
      ensures ok ==> subscriptions == old(subscriptions) - Listed(instruments)
      ensures ok ==> IsReplay(reconnectEnvelopes, clientId, subscriptions)
      ensures !ok ==> subscriptions == old(subscriptions) && reconnectEnvelopes == old(reconnectEnvelopes)
    {
      ok := SendEnvelope(UnsubscribeMarketData(clientId, instruments), transportOk);
      if ok {
        assert sent[..|sent| - 1] == old(sent);
        for n := 0 to |instruments|
          invariant subscriptions == old(subscriptions) - Listed(instruments[..n])
          modifies this`subscriptions
        {
          subscriptions := subscriptions - {instruments[n]};
          ListedNext(instruments, n);
        }
        assert instruments[..|instruments|] == instruments;
        UpdateReconnectEnvelopes();
      }
    }
  }

  // ---- the server's side ----

  /** The server's table after handling envelopes; a hello leaves it alone. */
  function ServerAfter(t: Table, envelopes: seq<Envelope>): Table {
    if envelopes == [] then t
    else
      var before := ServerAfter(t, envelopes[..|envelopes| - 1]);
      match envelopes[|envelopes| - 1]
      case MarketDataHello(_) => before
      case SubscribeMarketData(c, instruments) => SubscriptionTable.Subscribe(before, c, instruments).0
      case UnsubscribeMarketData(c, instruments) => SubscriptionTable.Unsubscribe(before, c, instruments).0
  }

  /** `u` holds for client `c` exactly `subscriptions`, and for everyone else what `t` holds. */
  ghost predicate HoldsExactly(u: Table, t: Table, c: ClientId, subscriptions: set<InstrumentId>) {
    && NoEmpty(u)
    && forall d, i :: Row(u, d, i) <==> if d == c then i in subscriptions else Row(t, d, i)
  }

  /** A server that handled all a client sent holds exactly the client's set, and nobody else's rows moved. */
  lemma {:induction false} ServerFollowsClient(t: Table, c: ClientId, sent: seq<Envelope>)
    requires NoEmpty(t) && (forall i :: !Row(t, c, i))
    requires forall e | e in sent :: e.c == c
    ensures HoldsExactly(ServerAfter(t, sent), t, c, SetAfter(sent))
  {
    if sent != [] {
      ServerFollowsClient(t, c, sent[..|sent| - 1]);
      var before := ServerAfter(t, sent[..|sent| - 1]);
      match sent[|sent| - 1]
      case MarketDataHello(_) =>
      case SubscribeMarketData(d, instruments) => SubscribeAddsRows(before, d, instruments);
      case UnsubscribeMarketData(d, instruments) => UnsubscribeDropsRows(before, d, instruments);
    }
  }

  lemma ReplayAddsSet(t: Table, c: ClientId, buffer: seq<Envelope>, subscriptions: set<InstrumentId>)
    requires NoEmpty(t) && IsReplay(buffer, c, subscriptions)
    ensures var u := ServerAfter(t, buffer);
            NoEmpty(u) && forall d, i :: Row(u, d, i) <==> Row(t, d, i) || (d == c && i in subscriptions)
  {
    assert buffer[..1] == [MarketDataHello(c)] && buffer[..1][..0] == [];
    assert ServerAfter(t, buffer[..1]) == t;
    if subscriptions != {} {
      assert buffer[..|buffer| - 1] == buffer[..1];
      SubscribeAddsRows(t, c, buffer[1].instruments);
    } else {
      assert buffer == buffer[..1];
    }
  }

  /** Cleanup of the lost connection, then the replay: the server holds the client's set again. */
  lemma ReconnectRestoresClient(t: Table, c: ClientId, buffer: seq<Envelope>, subscriptions: set<InstrumentId>)
    requires NoEmpty(t) && IsReplay(buffer, c, subscriptions)
    ensures HoldsExactly(ServerAfter(RemoveClient(t, c), buffer), t, c, subscriptions)
  {
    RemoveClientDropsRows(t, c);
    ReplayAddsSet(RemoveClient(t, c), c, buffer, subscriptions);
  }

  ghost predicate HeldAlone(t: Table, c: ClientId, i: InstrumentId) {
    Row(t, c, i) && forall d :: Row(t, d, i) ==> d == c
  }

  /**
   * When client and server agreed before the connection was lost, cleanup unsubscribes and replay
   * subscribes again exactly the instruments the client held alone, each once, and the table is back.
   */
  lemma ReconnectTouchesOnlyInstrumentsHeldAlone(t: Table, c: ClientId, subscriptions: set<InstrumentId>,
                                                 listed: seq<InstrumentId>)
    requires NoEmpty(t) && (forall i :: Row(t, c, i) <==> i in subscriptions)
    requires forall i :: i in listed <==> i in subscriptions
    ensures forall i :: i in Orphans(t, c) <==> HeldAlone(t, c, i)
    ensures var (u, out) := SubscriptionTable.Subscribe(RemoveClient(t, c), c, listed);
            u == t && NoDuplicates(out) && forall i :: i in out <==> HeldAlone(t, c, i)
  {
    var gone := RemoveClient(t, c);
    RemoveClientDropsRows(t, c);
    SubscribeAddsRows(gone, c, listed);
    SubscribeEmits(gone, c, listed);
    var (u, out) := SubscriptionTable.Subscribe(gone, c, listed);
    RowsDetermineTable(u, t);
    forall i ensures i in Orphans(t, c) <==> HeldAlone(t, c, i) {
      OrphansAreHeldAlone(t, c, i);
    }
    forall i ensures i in out <==> HeldAlone(t, c, i) {
      assert i in out <==> i in t && i !in gone;
      assert i in Orphans(t, c) <==> i in t && i !in gone;
    }
  }

  lemma OrphansAreHeldAlone(t: Table, c: ClientId, i: InstrumentId)
    requires NoEmpty(t)
    ensures i in Orphans(t, c) <==> HeldAlone(t, c, i)
  {
    if i in t {
      assert forall d :: Row(t, d, i) <==> d in t[i];
      if i in Orphans(t, c) {
        assert forall d | d in t[i] && d != c :: d in t[i] - {c};
        var d :| d in t[i];
      } else {
        var d :| d in t[i] - {c};
        assert Row(t, d, i);
      }
    }
  }

  /**
   * If the cleanup never runs, because the old connection broke rather than ended, the replay restores
   * the client's set exactly when the old rows hold nothing the client has since dropped.
   */
  lemma MissingCleanupAgreesExactly(t: Table, c: ClientId, buffer: seq<Envelope>, subscriptions: set<InstrumentId>)
    requires NoEmpty(t) && IsReplay(buffer, c, subscriptions)
    ensures HoldsExactly(ServerAfter(t, buffer), t, c, subscriptions)
            <==> forall i | Row(t, c, i) :: i in subscriptions
  {
    ReplayAddsSet(t, c, buffer, subscriptions);
  }

  // ---- a cleanup that comes late ----

  /** What the server keeps of market-data clients: their rows and their registered outbounds. */
  datatype Served = Served(table: Table, clients: map<ClientId, Channel>)

  /** An envelope handled on the connection whose outbound is `channel`. */
  function Handle(s: Served, envelope: Envelope, channel: Channel): Served {
    match envelope
    case MarketDataHello(c) => s.(clients := s.clients[c := channel])
    case SubscribeMarketData(c, instruments) => s.(table := SubscriptionTable.Subscribe(s.table, c, instruments).0)
    case UnsubscribeMarketData(c, instruments) => s.(table := SubscriptionTable.Unsubscribe(s.table, c, instruments).0)
  }

  function HandleAll(s: Served, envelopes: seq<Envelope>, channel: Channel): Served {
    if envelopes == [] then s
    else Handle(HandleAll(s, envelopes[..|envelopes| - 1], channel), envelopes[|envelopes| - 1], channel)
  }

  /** The cleanup of a lost connection drops the client's registration and its rows. */
  function Cleanup(s: Served, c: ClientId): Served {
    Served(RemoveClient(s.table, c), s.clients - {c})
  }

  /** The replay arrives on `channel`, and the old connection's cleanup is handled after `n` of its envelopes. */
  function CleanupAfter(s: Served, c: ClientId, buffer: seq<Envelope>, channel: Channel, n: nat): Served
    requires n <= |buffer|
  {
    HandleAll(Cleanup(HandleAll(s, buffer[..n], channel), c), buffer[n..], channel)
  }

  lemma {:induction false} HandledTable(s: Served, envelopes: seq<Envelope>, channel: Channel)
    ensures HandleAll(s, envelopes, channel).table == ServerAfter(s.table, envelopes)
  {
    if envelopes != [] {
      HandledTable(s, envelopes[..|envelopes| - 1], channel);
    }
  }

  /** Only a hello registers, and it registers its sender. */
  lemma {:induction false} HandledClients(s: Served, c: ClientId, envelopes: seq<Envelope>, channel: Channel)
    requires forall e | e in envelopes :: e.c == c
    ensures HandleAll(s, envelopes, channel).clients
            == if exists k :: 0 <= k < |envelopes| && envelopes[k].MarketDataHello? then s.clients[c := channel]
               else s.clients
  {
    if envelopes != [] {
      var earlier, last := envelopes[..|envelopes| - 1], envelopes[|envelopes| - 1];
      HandledClients(s, c, earlier, channel);
      assert last in envelopes;
      if k :| 0 <= k < |earlier| && earlier[k].MarketDataHello? {
        assert envelopes[k] == earlier[k];
      }
      if k :| 0 <= k < |envelopes| && envelopes[k].MarketDataHello? {
        assert k < |earlier| ==> earlier[k] == envelopes[k];
      }
    }
  }

  lemma HelloOnly(t: Table, c: ClientId)
    ensures ServerAfter(t, [MarketDataHello(c)]) == t
  {
    assert [MarketDataHello(c)][..0] == [];
  }

  /** Before the subscription is handled, cleanup and replay leave exactly the client's rows. */
  lemma EarlyCleanupRows(t: Table, c: ClientId, buffer: seq<Envelope>, subscriptions: set<InstrumentId>, n: nat)
    requires NoEmpty(t) && IsReplay(buffer, c, subscriptions) && n <= 1
    ensures HoldsExactly(ServerAfter(RemoveClient(ServerAfter(t, buffer[..n]), c), buffer[n..]), t, c, subscriptions)
  {
    var gone := RemoveClient(t, c);
    ReconnectRestoresClient(t, c, buffer, subscriptions);
    if n == 0 {
      assert buffer[..0] == [] && buffer[0..] == buffer;
    } else {
      assert buffer[..1] == [MarketDataHello(c)];
      HelloOnly(t, c);
      RemoveClientDropsRows(t, c);
      if subscriptions == {} {
        assert buffer[1..] == [];
      } else {
        assert buffer[1..] == [buffer[1]] && [buffer[1]][..0] == [];
        SubscribeAddsRows(gone, c, buffer[1].instruments);
      }
    }
  }

  /** After the whole replay, cleanup takes the replayed rows with it. */
  lemma LateCleanupRows(t: Table, c: ClientId, buffer: seq<Envelope>, subscriptions: set<InstrumentId>)
    requires NoEmpty(t) && IsReplay(buffer, c, subscriptions)
    ensures HoldsExactly(RemoveClient(ServerAfter(t, buffer), c), t, c, subscriptions) <==> subscriptions == {}
  {
    var v := ServerAfter(t, buffer);
    ReplayAddsSet(t, c, buffer, subscriptions);
    RemoveClientDropsRows(v, c);
    if subscriptions != {} {
      var i :| i in subscriptions;
      assert !Row(RemoveClient(v, c), c, i);
    }
  }

  lemma CleanupAfterTable(s: Served, c: ClientId, buffer: seq<Envelope>, channel: Channel, n: nat)
    requires n <= |buffer|
    ensures CleanupAfter(s, c, buffer, channel, n).table
            == ServerAfter(RemoveClient(ServerAfter(s.table, buffer[..n]), c), buffer[n..])
  {
    HandledTable(s, buffer[..n], channel);
    HandledTable(Cleanup(HandleAll(s, buffer[..n], channel), c), buffer[n..], channel);
  }

  lemma CleanupAfterClients(s: Served, c: ClientId, buffer: seq<Envelope>, subscriptions: set<InstrumentId>,
                            channel: Channel, n: nat)
    requires IsReplay(buffer, c, subscriptions) && n <= |buffer|
    ensures CleanupAfter(s, c, buffer, channel, n).clients
            == if n == 0 then s.clients[c := channel] else s.clients - {c}
  {
    var before := HandleAll(s, buffer[..n], channel);
    HandledClients(s, c, buffer[..n], channel);
    HandledClients(Cleanup(before, c), c, buffer[n..], channel);
    if n == 0 {
      assert buffer[n..][0].MarketDataHello?;
      assert (s.clients - {c})[c := channel] == s.clients[c := channel];
    } else {
      assert (s.clients[c := channel]) - {c} == s.clients - {c};
    }
  }

  /**
   * Wherever in the replay the old connection's cleanup is handled: the client's rows agree with its
   * set exactly when that is before its subscription, or there is none; it is registered on the new
   * connection, and so sent ticks, exactly when it is before its hello. Other clients are not touched.
   */
  lemma LateCleanupAgreesExactly(s: Served, c: ClientId, buffer: seq<Envelope>, subscriptions: set<InstrumentId>,
                                 channel: Channel, n: nat)
    requires NoEmpty(s.table) && IsReplay(buffer, c, subscriptions) && n <= |buffer|
    ensures var u := CleanupAfter(s, c, buffer, channel, n);
            && (HoldsExactly(u.table, s.table, c, subscriptions) <==> n <= 1 || subscriptions == {})
            && (c in u.clients <==> n == 0)
            && (forall i :: (c, channel) in MarketData.Recipients(u.table, u.clients, i)
                            <==> n == 0 && i in subscriptions)
            && u.clients - {c} == s.clients - {c}
  {
    CleanupAfterTable(s, c, buffer, channel, n);
    CleanupAfterClients(s, c, buffer, subscriptions, channel, n);
    var u := CleanupAfter(s, c, buffer, channel, n);
    if n <= 1 {
      EarlyCleanupRows(s.table, c, buffer, subscriptions, n);
    } else {
      LateCleanupRows(s.table, c, buffer, subscriptions);
      assert buffer[..n] == buffer && buffer[n..] == [];
    }
    forall i ensures (c, channel) in MarketData.Recipients(u.table, u.clients, i) <==> n == 0 && i in subscriptions {
      MarketData.RecipientsExactly(u.table, u.clients, i, c, channel);
    }
  }

  /** A client whose registration was taken stays without ticks whatever it then sends, short of another hello. */
  lemma UnregisteredStaysWithoutTicks(s: Served, c: ClientId, sent: seq<Envelope>, channel: Channel,
                                      i: InstrumentId, outbound: Channel)
    requires c !in s.clients && forall e | e in sent :: e.c == c && !e.MarketDataHello?
    ensures var u := HandleAll(s, sent, channel); (c, outbound) !in MarketData.Recipients(u.table, u.clients, i)
  {
    HandledClients(s, c, sent, channel);
    var u := HandleAll(s, sent, channel);
    MarketData.RecipientsExactly(u.table, u.clients, i, c, outbound);
  }
}
