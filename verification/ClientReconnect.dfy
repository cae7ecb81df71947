/**
 * A market-data client's calls while its connection comes and goes. A call hands its envelope to the
 * writer and only then updates the replay buffer; the writer, and the controller that reconnects and
 * replays the buffer, run beside it.
 */
module ClientReconnect {
  import opened Wrappers
  import opened TradeTypes
  import opened SubscriptionTable
  import opened ClientReplay

  /** Lost; with a new connection not yet marked active; active with the replay due; replayed. */
  datatype Phase = Down | Swapped | Marked | Up

  /**
   * `calling` is the envelope of a call that has been handed over and not yet recorded, `queue` what
   * the writer has not taken, `held` what the server holds for the client's current connection.
   */
  datatype Wire = Wire(
    subscriptions: set<InstrumentId>,
    buffer: seq<Envelope>,
    calling: Option<Envelope>,
    queue: seq<Envelope>,
    phase: Phase,
    held: set<InstrumentId>)

  /** `Record` carries the new buffer, whose order is open. Losing the connection has the server clean up. */
  datatype WireEvent =
    | HandOver(call: Envelope)
    | Record(buffer: seq<Envelope>)
    | WriterTakes
    | Lose
    | Swap
    | Mark
    | Replay

  function JustConnected(c: ClientId): Wire {
    Wire({}, [MarketDataHello(c)], None, [], Up, {})
  }

  /** The writer drops what it takes while the connection is not active. */
  function WriterStep(s: Wire): Wire {
    if s.queue == [] then s
    else
      s.(queue := s.queue[1..],
         held := if s.phase in {Marked, Up} then ApplyEnvelope(s.held, s.queue[0]) else s.held)
  }

  /** The swap of the writer waits its turn in the queue, so whatever was queued before it is dropped. */
  function WireStep(s: Wire, event: WireEvent): Wire {
    match event
    case HandOver(call) =>
      if s.calling.Some? then s else s.(queue := s.queue + [call], calling := Some(call))
    case Record(buffer) =>
      if s.calling.None? then s
      else s.(subscriptions := ApplyEnvelope(s.subscriptions, s.calling.value), buffer := buffer, calling := None)
    case WriterTakes => WriterStep(s)
    case Lose => s.(phase := Down, held := {})
    case Swap => if s.phase.Down? then s.(phase := Swapped, queue := []) else s
    case Mark => if s.phase.Swapped? then s.(phase := Marked) else s
    case Replay => if s.phase.Marked? then s.(phase := Up, queue := s.queue + s.buffer) else s
  }

  function WireRun(s: Wire, events: seq<WireEvent>): Wire {
    if events == [] then s else WireStep(WireRun(s, events[..|events| - 1]), events[|events| - 1])
  }

  /** Calls subscribe or unsubscribe, and a recorded buffer is a hello and the new set. */
  ghost predicate WireConsistent(c: ClientId, s: Wire, event: WireEvent) {
    match event
    case HandOver(call) => call.c == c && !call.MarketDataHello?
    case Record(buffer) => s.calling.Some? ==> IsReplay(buffer, c, ApplyEnvelope(s.subscriptions, s.calling.value))
    case _ => true
  }

  ghost predicate WireConsistentRun(c: ClientId, events: seq<WireEvent>) {
    events == []
    || (WireConsistentRun(c, events[..|events| - 1])
        && WireConsistent(c, WireRun(JustConnected(c), events[..|events| - 1]), events[|events| - 1]))
  }

  /** What the client is, or once its call is recorded will be, subscribed to. */
  function Wanted(s: Wire): set<InstrumentId> {
    if s.calling.Some? then ApplyEnvelope(s.subscriptions, s.calling.value) else s.subscriptions
  }

  /** What the server holds once the writer has emptied its queue. */
  function Coming(s: Wire): set<InstrumentId> {
    ApplyEnvelopes(s.held, s.queue)
  }

  function Differ(a: set<InstrumentId>, b: set<InstrumentId>): set<InstrumentId> {
    (a - b) + (b - a)
  }

  // ---- what goes wrong, read off the events ----

  /**
   * What a replay of the old buffer gets wrong in the middle of a call: of a subscription whose
   * envelope was dropped, the instruments that are new; of an unsubscription, those that were held.
   */
  function ReplayMisses(s: Wire): set<InstrumentId> {
    match s.calling
    case None => {}
    case Some(SubscribeMarketData(_, instruments)) => Listed(instruments) - s.subscriptions - Coming(s)
    case Some(UnsubscribeMarketData(_, instruments)) => Listed(instruments) * s.subscriptions
    case Some(MarketDataHello(_)) => {}
  }

  function Named(call: Envelope): set<InstrumentId> {
    match call
    case MarketDataHello(_) => {}
    case SubscribeMarketData(_, instruments) => Listed(instruments)
    case UnsubscribeMarketData(_, instruments) => Listed(instruments)
  }

  /** What the last replay got wrong and no later call has named. */
  function Wrong(c: ClientId, events: seq<WireEvent>): set<InstrumentId> {
    if events == [] then {}
    else
      var before := WireRun(JustConnected(c), events[..|events| - 1]);
      var earlier := Wrong(c, events[..|events| - 1]);
      match events[|events| - 1]
      case Replay => if before.phase.Marked? then ReplayMisses(before) else earlier
      case HandOver(call) => if before.calling.None? then earlier - Named(call) else earlier
      case _ => earlier
  }

  // ---- the server is wrong about exactly that ----

  lemma {:induction false} ApplyEnvelopesAppend(held: set<InstrumentId>, xs: seq<Envelope>, ys: seq<Envelope>)
    ensures ApplyEnvelopes(held, xs + ys) == ApplyEnvelopes(ApplyEnvelopes(held, xs), ys)
  {
    if ys == [] {
      assert xs + ys == xs;
    } else {
      assert (xs + ys)[..|xs + ys| - 1] == xs + ys[..|ys| - 1];
      ApplyEnvelopesAppend(held, xs, ys[..|ys| - 1]);
    }
  }

  lemma {:induction false} ApplyEnvelopesGrows(a: set<InstrumentId>, b: set<InstrumentId>, envelopes: seq<Envelope>)
    requires a <= b
    ensures ApplyEnvelopes(a, envelopes) <= ApplyEnvelopes(b, envelopes)
  {
    if envelopes != [] {
      ApplyEnvelopesGrows(a, b, envelopes[..|envelopes| - 1]);
    }
  }

  lemma ApplyOneEnvelope(held: set<InstrumentId>, envelope: Envelope)
    ensures ApplyEnvelopes(held, [envelope]) == ApplyEnvelope(held, envelope)
  {
    assert [envelope][..0] == [];
  }

  lemma ApplyReplay(held: set<InstrumentId>, buffer: seq<Envelope>, c: ClientId, subscriptions: set<InstrumentId>)
    requires IsReplay(buffer, c, subscriptions)
    ensures ApplyEnvelopes(held, buffer) == held + subscriptions
  {
    var hello: seq<Envelope> := [MarketDataHello(c)];
    ApplyOneEnvelope(held, hello[0]);
    if subscriptions == {} {
      assert buffer == hello;
    } else {
      assert buffer == hello + [buffer[1]];
      ApplyEnvelopesAppend(held, hello, [buffer[1]]);
      ApplyOneEnvelope(held, buffer[1]);
      assert Listed(buffer[1].instruments) == subscriptions;
    }
  }

  /** A new connection holds nothing yet, and is never to hold more than the client wants. */
  ghost predicate WireInv(c: ClientId, s: Wire) {
    && IsReplay(s.buffer, c, s.subscriptions)
    && (s.phase in {Down, Swapped} ==> s.held == {})
    && (s.phase in {Swapped, Marked} ==> Coming(s) <= Wanted(s))
    && (s.calling.Some? ==> !s.calling.value.MarketDataHello?)
  }

  lemma HandOverComes(s: Wire, call: Envelope)
    requires s.calling.None?
    ensures var t := WireStep(s, HandOver(call));
            Coming(t) == ApplyEnvelope(Coming(s), call) && Wanted(t) == ApplyEnvelope(Wanted(s), call)
  {
    ApplyEnvelopesAppend(s.held, s.queue, [call]);
    ApplyOneEnvelope(Coming(s), call);
  }

  lemma TakeComes(s: Wire)
    ensures s.phase in {Marked, Up} ==> Coming(WriterStep(s)) == Coming(s)
    ensures s.held == {} ==> Coming(WriterStep(s)) <= Coming(s) || s.phase in {Marked, Up}
  {
    if s.queue != [] {
      assert s.queue == [s.queue[0]] + s.queue[1..];
      ApplyEnvelopesAppend(s.held, [s.queue[0]], s.queue[1..]);
      ApplyOneEnvelope(s.held, s.queue[0]);
      if s.held == {} {
        ApplyEnvelopesGrows({}, ApplyEnvelope({}, s.queue[0]), s.queue[1..]);
      }
    }
  }

  lemma ReplayComes(c: ClientId, s: Wire)
    requires s.phase.Marked? && IsReplay(s.buffer, c, s.subscriptions)
    ensures Coming(WireStep(s, Replay)) == Coming(s) + s.subscriptions
  {
    ApplyEnvelopesAppend(s.held, s.queue, s.buffer);
    ApplyReplay(Coming(s), s.buffer, c, s.subscriptions);
  }

  lemma StepKeepsWire(c: ClientId, s: Wire, event: WireEvent)
    requires WireInv(c, s) && WireConsistent(c, s, event)
    ensures WireInv(c, WireStep(s, event))
  {
    match event
    case HandOver(call) =>
      if s.calling.None? {
        HandOverComes(s, call);
      }
    case WriterTakes => TakeComes(s);
    case _ =>
  }

  lemma {:induction false} RunKeepsWire(c: ClientId, events: seq<WireEvent>)
    requires WireConsistentRun(c, events)
    ensures WireInv(c, WireRun(JustConnected(c), events))
  {
    if events != [] {
      RunKeepsWire(c, events[..|events| - 1]);
      StepKeepsWire(c, WireRun(JustConnected(c), events[..|events| - 1]), events[|events| - 1]);
    }
  }

  lemma ReplayDiffers(c: ClientId, s: Wire)
    requires WireInv(c, s) && s.phase.Marked?
    ensures var t := WireStep(s, Replay); Differ(Coming(t), Wanted(t)) == ReplayMisses(s)
  {
    ReplayComes(c, s);
  }

  /**
   * Over every run, wherever losses, reconnects and replays fall between and within the calls: on a
   * replayed connection the server comes to be wrong about exactly the instruments read off the events.
   */
  lemma {:induction false} ServerIsWrongAboutExactly(c: ClientId, events: seq<WireEvent>)
    requires WireConsistentRun(c, events)
    ensures var s := WireRun(JustConnected(c), events);
            s.phase.Up? ==> Differ(Coming(s), Wanted(s)) == Wrong(c, events)
  {
    if events != [] {
      var earlier, last := events[..|events| - 1], events[|events| - 1];
      ServerIsWrongAboutExactly(c, earlier);
      RunKeepsWire(c, earlier);
      var before := WireRun(JustConnected(c), earlier);
      match last
      case HandOver(call) =>
        if before.calling.None? {
          HandOverComes(before, call);
        }
      case WriterTakes => TakeComes(before);
      case Replay =>
        if before.phase.Marked? {
          ReplayDiffers(c, before);
        }
      case _ =>
    }
  }

  /** At rest, the server holds the client's set exactly when that is nothing. */
  lemma ServerAgreesExactly(c: ClientId, events: seq<WireEvent>)
    requires WireConsistentRun(c, events)
    requires var s := WireRun(JustConnected(c), events); s.phase.Up? && s.queue == [] && s.calling.None?
    ensures var s := WireRun(JustConnected(c), events);
            s.held == s.subscriptions <==> Wrong(c, events) == {}
  {
    ServerIsWrongAboutExactly(c, events);
    var s := WireRun(JustConnected(c), events);
    assert Differ(s.held, s.subscriptions) == {} ==> s.held == s.subscriptions;
  }

  /** No replay is queued between the two halves of a call. */
  ghost predicate NoReplayInCall(c: ClientId, events: seq<WireEvent>) {
    events == []
    || (NoReplayInCall(c, events[..|events| - 1])
        && (events[|events| - 1].Replay? ==> WireRun(JustConnected(c), events[..|events| - 1]).calling.None?))
  }

  /** Then nothing goes wrong, whatever is lost or dropped. */
  lemma {:induction false} NothingWrongOutsideCalls(c: ClientId, events: seq<WireEvent>)
    requires NoReplayInCall(c, events)
    ensures Wrong(c, events) == {}
  {
    if events != [] {
      NothingWrongOutsideCalls(c, events[..|events| - 1]);
    }
  }

  lemma WireRunSnoc(c: ClientId, events: seq<WireEvent>, event: WireEvent)
    ensures WireRun(JustConnected(c), events + [event]) == WireStep(WireRun(JustConnected(c), events), event)
    ensures WireConsistentRun(c, events + [event])
            <==> WireConsistentRun(c, events) && WireConsistent(c, WireRun(JustConnected(c), events), event)
  {
    assert (events + [event])[..|events|] == events;
  }

  function RaceEvent(c: ClientId, i: InstrumentId, n: nat): WireEvent
    requires n < 7
  {
    match n
    case 0 => HandOver(SubscribeMarketData(c, [i]))
    case 1 => Lose
    case 2 => Swap
    case 3 => Mark
    case 4 => Replay
    case 5 => Record([MarketDataHello(c), SubscribeMarketData(c, [i])])
    case 6 => WriterTakes
  }

  /** A subscription is handed over, the connection lost and replayed, and only then the buffer updated. */
  function Race(c: ClientId, i: InstrumentId, n: nat): seq<WireEvent>
    requires n <= 7
  {
    if n == 0 then [] else Race(c, i, n - 1) + [RaceEvent(c, i, n - 1)]
  }

  function RaceWire(c: ClientId, i: InstrumentId, n: nat): Wire
    requires n <= 7
  {
    var hello, call := MarketDataHello(c), SubscribeMarketData(c, [i]);
    match n
    case 0 => JustConnected(c)
    case 1 => Wire({}, [hello], Some(call), [call], Up, {})
    case 2 => Wire({}, [hello], Some(call), [call], Down, {})
    case 3 => Wire({}, [hello], Some(call), [], Swapped, {})
    case 4 => Wire({}, [hello], Some(call), [], Marked, {})
    case 5 => Wire({}, [hello], Some(call), [hello], Up, {})
    case 6 => Wire({i}, [hello, call], None, [hello], Up, {})
    case 7 => Wire({i}, [hello, call], None, [], Up, {})
  }

  lemma RaceNext(c: ClientId, i: InstrumentId, n: nat)
    requires n < 7
    ensures WireConsistent(c, RaceWire(c, i, n), RaceEvent(c, i, n))
    ensures WireStep(RaceWire(c, i, n), RaceEvent(c, i, n)) == RaceWire(c, i, n + 1)
  {
    assert Listed([i]) == {i};
  }

  lemma {:induction false} RaceRuns(c: ClientId, i: InstrumentId, n: nat)
    requires n <= 7
    ensures WireRun(JustConnected(c), Race(c, i, n)) == RaceWire(c, i, n) && WireConsistentRun(c, Race(c, i, n))
  {
    if n > 0 {
      RaceRuns(c, i, n - 1);
      WireRunSnoc(c, Race(c, i, n - 1), RaceEvent(c, i, n - 1));
      RaceNext(c, i, n - 1);
    }
  }

  /** A reachable loss: a successful call, nothing left to send, and the server does not hold the instrument. */
  lemma ReplayInCallLosesInstrument(c: ClientId, i: InstrumentId)
    ensures var s := WireRun(JustConnected(c), Race(c, i, 7));
            && WireConsistentRun(c, Race(c, i, 7))
            && s.phase.Up? && s.queue == [] && s.calling.None? && i in s.subscriptions && i !in s.held
  {
    RaceRuns(c, i, 7);
  }
}
