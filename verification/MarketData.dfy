/**
 * The market-data service as a state machine. Connection handlers change the shared table and later
 * send the command that follows from it; one actor applies the commands to the shared exchange
 * session, resubscribes after logins and fans ticks out. Sends may overtake each other.
 */
module MarketData {
  import opened Wrappers
  import opened TradeTypes
  import opened SubscriptionTable
  import opened SubscriptionQueue

  datatype MdEvent =
    | MdFrontConnected
    | MdFrontDisconnected
    | MdLoginOk
    | MdLoginFailed
    | MdError
    | MdTick(instrument: InstrumentId)
    | MdNotice

  /**
   * `Request` is a handler's work under the lock, `SendCommand(k)` the send of the handler that holds
   * the `k`-th unsent command. `ok` is the outcome of the exchange call the input leads to.
   */
  datatype MdInput =
    | Register(c: ClientId, channel: Channel)
    | Request(op: Op, out: seq<InstrumentId>)
    | SendCommand(k: nat)
    | TakeCommand(ok: bool)
    | MdEventIn(event: MdEvent, ok: bool)

  /** How often each registered client was sent a tick; the order among clients is left open. */
  datatype Fanout = Fanout(instrument: InstrumentId, recipients: multiset<(ClientId, Channel)>)

  /** Of the commands in the desk's queue the actor has taken `consumed`. */
  datatype Service = Service(
    desk: Desk,
    clients: map<ClientId, Channel>,
    consumed: nat,
    session: bool,
    loggedIn: bool,
    waiting: Option<MdCommand>,
    exchange: set<InstrumentId>,
    fanouts: seq<Fanout>)

  const IDLE := Service(EMPTY_DESK, map[], 0, false, false, None, {}, [])

  function RequestStep(s: Service, op: Op, out: seq<InstrumentId>): Service {
    s.(desk := DeskNext(s.desk, Mutate(op, out)),
       clients := if op.OpDisconnect? then s.clients - {op.c} else s.clients)
  }

  function Apply(s: Service, command: MdCommand, ok: bool): Service {
    if ok then s.(exchange := Replay([command], s.exchange)) else s
  }

  /** Takes the next command: creates the session if needed, waits for a login if needed, else applies it. */
  function TakeStep(s: Service, ok: bool): Service {
    if s.waiting.Some? || s.consumed >= |s.desk.queue| then s
    else
      var command := s.desk.queue[s.consumed];
      var t := s.(consumed := s.consumed + 1);
      if !s.session && !ok then t
      else if s.session && s.loggedIn then Apply(t, command, ok)
      else t.(session := true, waiting := Some(command))
  }

  /** A login starts with nothing subscribed; the command waited for is applied, nothing else is. */
  function WaitEvent(s: Service, event: MdEvent, ok: bool): Service
    requires s.waiting.Some?
  {
    match event
    case MdFrontConnected => if ok then s else s.(waiting := None)
    case MdLoginOk => Apply(s.(loggedIn := true, waiting := None, exchange := {}), s.waiting.value, ok)
    case MdLoginFailed => s.(waiting := None)
    case MdError => s.(waiting := None)
    case _ => s
  }

  function Recipients(t: Table, clients: map<ClientId, Channel>, i: InstrumentId): set<(ClientId, Channel)> {
    set c | c in ClientsOf(t, i) && c in clients :: (c, clients[c])
  }

  /** Events seen by the main loop; a login resubscribes every instrument of the table. */
  function MainEvent(s: Service, event: MdEvent, ok: bool): Service {
    match event
    case MdLoginOk => s.(loggedIn := true, exchange := if ok then s.desk.table.Keys else {})
    case MdTick(i) => s.(fanouts := s.fanouts + [Fanout(i, multiset(Recipients(s.desk.table, s.clients, i)))])
    case MdFrontDisconnected => s.(loggedIn := false)
    case MdLoginFailed => s.(loggedIn := false)
    case _ => s
  }

  function EventStep(s: Service, event: MdEvent, ok: bool): Service {
    if !s.session then s
    else if s.waiting.Some? then WaitEvent(s, event, ok)
    else MainEvent(s, event, ok)
  }

  function ServiceStep(s: Service, input: MdInput): Service {
    match input
    case Register(c, channel) => s.(clients := s.clients[c := channel])
    case Request(op, out) => RequestStep(s, op, out)
    case SendCommand(k) => s.(desk := DeskNext(s.desk, Send(k)))
    case TakeCommand(ok) => TakeStep(s, ok)
    case MdEventIn(event, ok) => EventStep(s, event, ok)
  }

  function ServiceRun(s: Service, inputs: seq<MdInput>): Service {
    if inputs == [] then s else ServiceStep(ServiceRun(s, inputs[..|inputs| - 1]), inputs[|inputs| - 1])
  }

  ghost predicate Consistent(s: Service, input: MdInput) {
    input.Request? ==> Emits(s.desk.table, input.op, input.out)
  }

  ghost predicate ConsistentRun(s: Service, inputs: seq<MdInput>) {
    inputs == []
    || (ConsistentRun(s, inputs[..|inputs| - 1])
        && Consistent(ServiceRun(s, inputs[..|inputs| - 1]), inputs[|inputs| - 1]))
  }

  lemma ServiceRunSnoc(s: Service, inputs: seq<MdInput>, input: MdInput)
    ensures ServiceRun(s, inputs + [input]) == ServiceStep(ServiceRun(s, inputs), input)
    ensures ConsistentRun(s, inputs + [input])
            <==> ConsistentRun(s, inputs) && Consistent(ServiceRun(s, inputs), input)
  {
    assert (inputs + [input])[..|inputs|] == inputs;
  }

  // ---- what every run keeps ----

  /** A command waited for is the last one taken. */
  ghost predicate WaitInv(s: Service) {
    && s.consumed <= |s.desk.queue|
    && (!s.session ==> !s.loggedIn)
    && (s.waiting.Some? ==>
          s.session && !s.loggedIn && 0 < s.consumed && s.waiting.value == s.desk.queue[s.consumed - 1])
  }

  ghost predicate ServiceInv(s: Service) {
    DeskInv(s.desk) && SameCommands(s.desk) && WaitInv(s)
  }

  lemma SendKeepsDesk(d: Desk, k: nat)
    requires DeskInv(d) && SameCommands(d)
    ensures DeskInv(DeskNext(d, Send(k))) && SameCommands(DeskNext(d, Send(k)))
  {
    StepKeepsCommands(d, Send(k));
    if k < |d.inFlight| {
      StepKeepsDesk(d, Send(k));
    }
  }

  /** A desk step only adds to the queue. */
  lemma DeskKeepsQueue(d: Desk, step: DeskStep)
    ensures d.queue <= DeskNext(d, step).queue
  {
  }

  lemma TakeFrame(s: Service, ok: bool)
    ensures TakeStep(s, ok).desk == s.desk && TakeStep(s, ok).clients == s.clients
    ensures WaitInv(s) ==> WaitInv(TakeStep(s, ok))
  {
  }

  lemma ServiceEventFrame(s: Service, event: MdEvent, ok: bool)
    ensures var t := EventStep(s, event, ok);
            && t.desk == s.desk && t.clients == s.clients && t.consumed == s.consumed
            && (WaitInv(s) ==> WaitInv(t))
  {
  }

  lemma StepKeepsService(s: Service, input: MdInput)
    requires ServiceInv(s) && Consistent(s, input)
    ensures ServiceInv(ServiceStep(s, input))
  {
    match input
    case Register(_, _) =>
    case Request(op, out) =>
      StepKeepsDesk(s.desk, Mutate(op, out));
      StepKeepsCommands(s.desk, Mutate(op, out));
    case SendCommand(k) =>
      SendKeepsDesk(s.desk, k);
      DeskKeepsQueue(s.desk, Send(k));
    case TakeCommand(ok) => TakeFrame(s, ok);
    case MdEventIn(event, ok) => ServiceEventFrame(s, event, ok);
  }

  lemma {:induction false} RunKeepsService(inputs: seq<MdInput>)
    requires ConsistentRun(IDLE, inputs)
    ensures ServiceInv(ServiceRun(IDLE, inputs))
  {
    if inputs != [] {
      RunKeepsService(inputs[..|inputs| - 1]);
      StepKeepsService(ServiceRun(IDLE, inputs[..|inputs| - 1]), inputs[|inputs| - 1]);
    }
  }

  /** No send overtakes another; sending right after the mutation is the special case. */
  ghost predicate SendsInOrder(inputs: seq<MdInput>) {
    inputs == [] || (SendsInOrder(inputs[..|inputs| - 1])
                     && (inputs[|inputs| - 1].SendCommand? ==> inputs[|inputs| - 1].k == 0))
  }

  lemma {:induction false} InOrderCommandsAreLog(inputs: seq<MdInput>)
    requires SendsInOrder(inputs)
    ensures var d := ServiceRun(IDLE, inputs).desk; d.queue + d.inFlight == d.log
  {
    if inputs != [] {
      var earlier, last := inputs[..|inputs| - 1], inputs[|inputs| - 1];
      InOrderCommandsAreLog(earlier);
      var s := ServiceRun(IDLE, earlier);
      match last
      case Request(op, out) => InOrderStep(s.desk, Mutate(op, out));
      case SendCommand(k) => InOrderStep(s.desk, Send(k));
      case TakeCommand(ok) => TakeFrame(s, ok);
      case MdEventIn(event, ok) => ServiceEventFrame(s, event, ok);
      case Register(_, _) =>
    }
  }

  // ---- resubscription converges ----

  /** The commands not yet taken: those queued, then those still to be sent. */
  function Ahead(s: Service): seq<MdCommand>
    requires s.consumed <= |s.desk.queue|
  {
    s.desk.queue[s.consumed..] + s.desk.inFlight
  }

  /** Once the commands ahead are applied, the exchange holds exactly the table's instruments. */
  ghost predicate Converging(s: Service) {
    s.consumed <= |s.desk.queue| && Replay(Ahead(s), s.exchange) == s.desk.table.Keys
  }

  /** Subscribed and fully logged in, with no command held up. */
  ghost predicate OnCourse(s: Service) {
    Converging(s) && s.session && s.loggedIn && s.waiting.None?
  }

  lemma {:induction false} ReplayAppend(xs: seq<MdCommand>, ys: seq<MdCommand>, subscribed: set<InstrumentId>)
    ensures Replay(xs + ys, subscribed) == Replay(ys, Replay(xs, subscribed))
  {
    if ys == [] {
      assert xs + ys == xs;
    } else {
      assert (xs + ys)[..|xs + ys| - 1] == xs + ys[..|ys| - 1];
      ReplayAppend(xs, ys[..|ys| - 1], subscribed);
    }
  }

  /** A tail of the commands settles each instrument it names, whatever it starts from. */
  lemma TailSettlesMentioned(commands: seq<MdCommand>, n: nat, subscribed: set<InstrumentId>, i: InstrumentId)
    requires n <= |commands|
    ensures i in Replay(commands[n..], subscribed)
            <==> if LastKind(commands[n..], i).Some? then i in Replay(commands, {}) else i in subscribed
  {
    assert commands == commands[..n] + commands[n..];
    LastKindAppend(commands[..n], commands[n..], i);
    LastKindDecides(commands, {}, i);
    LastKindDecides(commands[n..], subscribed, i);
  }

  /** Subscribing the table's instruments and then replaying the stale commands gives the table. */
  lemma StaleCommandsAreHarmless(commands: seq<MdCommand>, n: nat)
    requires n <= |commands|
    ensures Replay(commands[n..], Replay(commands, {})) == Replay(commands, {})
  {
    forall i ensures i in Replay(commands[n..], Replay(commands, {})) <==> i in Replay(commands, {}) {
      TailSettlesMentioned(commands, n, Replay(commands, {}), i);
    }
  }

  /** What the commands ahead do last to an instrument they name is what the table says of it. */
  ghost predicate AheadAgrees(s: Service, i: InstrumentId)
    requires s.consumed <= |s.desk.queue|
  {
    LastKind(Ahead(s), i) in {None, Some(i in s.desk.table)}
  }

  lemma ResubscribedConverges(s: Service)
    requires s.consumed <= |s.desk.queue| && s.exchange == s.desk.table.Keys
    ensures Converging(s) <==> forall i :: AheadAgrees(s, i)
  {
    forall i ensures (i in Replay(Ahead(s), s.exchange) <==> i in s.desk.table.Keys) <==> AheadAgrees(s, i) {
      LastKindDecides(Ahead(s), s.exchange, i);
    }
  }

  /**
   * A login the main loop handles puts the service on course exactly when, for every instrument, the
   * commands still ahead end as the table stands, whatever the sends have done before.
   */
  lemma LoginInMainLoopConvergesExactly(inputs: seq<MdInput>)
    requires ConsistentRun(IDLE, inputs)
    requires ServiceRun(IDLE, inputs).session && ServiceRun(IDLE, inputs).waiting.None?
    ensures var s := ServiceRun(IDLE, inputs);
            && s.consumed <= |s.desk.queue|
            && (OnCourse(ServiceStep(s, MdEventIn(MdLoginOk, true))) <==> forall i :: AheadAgrees(s, i))
  {
    RunKeepsService(inputs);
    var s := ServiceRun(IDLE, inputs);
    var t := ServiceStep(s, MdEventIn(MdLoginOk, true));
    ResubscribedConverges(t);
    assert Ahead(t) == Ahead(s) && forall i :: AheadAgrees(t, i) <==> AheadAgrees(s, i);
  }

  /** The commands ahead are a tail of all commands. */
  lemma AheadIsTail(s: Service, n: nat)
    requires n <= s.consumed <= |s.desk.queue|
    ensures s.desk.queue[n..] + s.desk.inFlight == (s.desk.queue + s.desk.inFlight)[n..]
  {
  }

  /** In particular it always does when no send has overtaken another. */
  lemma LoginInMainLoopConverges(inputs: seq<MdInput>)
    requires ConsistentRun(IDLE, inputs) && SendsInOrder(inputs)
    requires ServiceRun(IDLE, inputs).session && ServiceRun(IDLE, inputs).waiting.None?
    ensures OnCourse(ServiceStep(ServiceRun(IDLE, inputs), MdEventIn(MdLoginOk, true)))
  {
    RunKeepsService(inputs);
    InOrderCommandsAreLog(inputs);
    var s := ServiceRun(IDLE, inputs);
    AheadIsTail(s, s.consumed);
    StaleCommandsAreHarmless(s.desk.log, s.consumed);
  }

  /** Inputs that neither fail nor touch the login; a send may overtake, as long as that is harmless. */
  ghost predicate Calm(s: Service, input: MdInput) {
    match input
    case SendCommand(k) =>
      k < |s.desk.inFlight| ==>
        forall i | i in s.desk.inFlight[k].instruments :: HarmlessFor(s.desk.inFlight, k, i)
    case TakeCommand(ok) => ok
    case MdEventIn(event, _) => !event.MdLoginOk? && !event.MdFrontDisconnected? && !event.MdLoginFailed?
    case _ => true
  }

  ghost predicate CalmRun(s: Service, inputs: seq<MdInput>) {
    inputs == []
    || (CalmRun(s, inputs[..|inputs| - 1]) && Calm(ServiceRun(s, inputs[..|inputs| - 1]), inputs[|inputs| - 1]))
  }

  /** A send in order is always harmless. */
  lemma FirstSendIsCalm(s: Service)
    ensures Calm(s, SendCommand(0))
  {
    if s.desk.inFlight != [] {
      assert s.desk.inFlight[..0] == [];
      assert forall i :: LastKind(s.desk.inFlight[..0], i).None?;
    }
  }

  lemma RequestConverges(s: Service, op: Op, out: seq<InstrumentId>)
    requires ServiceInv(s) && Converging(s) && Emits(s.desk.table, op, out)
    ensures Converging(RequestStep(s, op, out))
  {
    var added := Commands(s.desk.started || op.OpSubscribe?, op, out);
    AppendBehind(s.desk.queue[s.consumed..], s.desk.inFlight, added);
    ReplayAppend(Ahead(s), added, s.exchange);
    AddedFollowsTable(s.desk, op, out);
  }

  /** What a mutation emits takes the exchange from the old table to the new one. */
  lemma AddedFollowsTable(d: Desk, op: Op, out: seq<InstrumentId>)
    requires DeskInv(d) && Emits(d.table, op, out)
    ensures Replay(Commands(d.started || op.OpSubscribe?, op, out), d.table.Keys) == NextTable(d.table, op).Keys
  {
    EmitsKeyChanges(d.table, op, out);
    if out == [] {
      assert (set i | i in out) == {};
    } else {
      assert out[0] in out;
      assert op.OpSubscribe? || out[0] in d.table.Keys;
      assert [CommandFor(op, out)][..0] == [];
    }
  }

  /** A send keeps the service on course exactly when overtaking is harmless for each instrument it names. */
  lemma SendConvergesExactly(s: Service, k: nat)
    requires Converging(s) && k < |s.desk.inFlight|
    ensures Converging(ServiceStep(s, SendCommand(k)))
            <==> forall i | i in s.desk.inFlight[k].instruments :: HarmlessFor(s.desk.inFlight, k, i)
  {
    var t, p := ServiceStep(s, SendCommand(k)), s.desk.inFlight;
    assert t.desk.queue[t.consumed..] == s.desk.queue[s.consumed..] + [p[k]];
    OvertakingIsHarmlessExactly(s.desk.queue[s.consumed..], p, k, s.exchange);
  }

  lemma TakeConverges(s: Service)
    requires OnCourse(s)
    ensures OnCourse(TakeStep(s, true))
  {
    if s.consumed < |s.desk.queue| {
      var command, t := s.desk.queue[s.consumed], TakeStep(s, true);
      assert Ahead(s) == [command] + Ahead(t);
      ReplayAppend([command], Ahead(t), s.exchange);
    }
  }

  lemma CalmStepConverges(s: Service, input: MdInput)
    requires ServiceInv(s) && OnCourse(s) && Consistent(s, input) && Calm(s, input)
    ensures OnCourse(ServiceStep(s, input))
  {
    match input
    case Register(_, _) => SameCourse(s, ServiceStep(s, input));
    case Request(op, out) => RequestConverges(s, op, out);
    case SendCommand(k) =>
      if k < |s.desk.inFlight| {
        SendConvergesExactly(s, k);
      }
    case TakeCommand(ok) => TakeConverges(s);
    case MdEventIn(event, ok) =>
      CalmEventFrame(s, event, ok);
      SameCourse(s, EventStep(s, event, ok));
  }

  lemma CalmEventFrame(s: Service, event: MdEvent, ok: bool)
    requires s.session && s.waiting.None? && Calm(s, MdEventIn(event, ok))
    ensures var t := EventStep(s, event, ok);
            && t.desk == s.desk && t.consumed == s.consumed && t.exchange == s.exchange
            && t.session && t.loggedIn == s.loggedIn && t.waiting.None?
  {
  }

  lemma SameCourse(s: Service, t: Service)
    requires OnCourse(s) && t.desk == s.desk && t.consumed == s.consumed && t.exchange == s.exchange
    requires t.session && t.loggedIn && t.waiting.None?
    ensures OnCourse(t)
  {
  }

  /**
   * From such a login on, through any requests, harmless sends, takes and ticks without a failure or a
   * new login, the service stays on course; once all is sent and taken the exchange set is the table.
   */
  lemma {:induction false} CalmRunConverges(s: Service, inputs: seq<MdInput>)
    requires ServiceInv(s) && OnCourse(s) && ConsistentRun(s, inputs) && CalmRun(s, inputs)
    ensures var t := ServiceRun(s, inputs);
            && ServiceInv(t) && OnCourse(t)
            && (t.consumed == |t.desk.queue| && t.desk.inFlight == [] ==> t.exchange == t.desk.table.Keys)
  {
    if inputs != [] {
      CalmRunConverges(s, inputs[..|inputs| - 1]);
      var before := ServiceRun(s, inputs[..|inputs| - 1]);
      StepKeepsService(before, inputs[|inputs| - 1]);
      CalmStepConverges(before, inputs[|inputs| - 1]);
    }
    var t := ServiceRun(s, inputs);
    assert t.consumed == |t.desk.queue| && t.desk.inFlight == [] ==> Ahead(t) == [];
  }

  /** No exchange call fails, and the login stays as it is. */
  predicate FailureFree(inputs: seq<MdInput>) {
    forall k | 0 <= k < |inputs| ::
      match inputs[k]
      case TakeCommand(ok) => ok
      case MdEventIn(event, _) => !event.MdLoginOk? && !event.MdFrontDisconnected? && !event.MdLoginFailed?
      case _ => true
  }

  lemma {:induction false} InOrderIsCalm(s: Service, inputs: seq<MdInput>)
    requires SendsInOrder(inputs) && FailureFree(inputs)
    ensures CalmRun(s, inputs)
  {
    if inputs != [] {
      var earlier, last := inputs[..|inputs| - 1], inputs[|inputs| - 1];
      assert forall k | 0 <= k < |earlier| :: earlier[k] == inputs[k];
      InOrderIsCalm(s, earlier);
      FirstSendIsCalm(ServiceRun(s, earlier));
      assert last == inputs[|inputs| - 1];
    }
  }

  /**
   * End to end: after any past in which no send overtook another, a login handled by the main loop,
   * and any further requests, in-order sends, takes and ticks without a failure, the service is on
   * course; once all is sent and taken the exchange holds exactly the instruments of the table.
   */
  lemma LoginSettlesSubscription(past: seq<MdInput>, inputs: seq<MdInput>)
    requires ConsistentRun(IDLE, past) && SendsInOrder(past)
    requires ServiceRun(IDLE, past).session && ServiceRun(IDLE, past).waiting.None?
    requires ConsistentRun(ServiceStep(ServiceRun(IDLE, past), MdEventIn(MdLoginOk, true)), inputs)
    requires SendsInOrder(inputs) && FailureFree(inputs)
    ensures var t := ServiceRun(ServiceStep(ServiceRun(IDLE, past), MdEventIn(MdLoginOk, true)), inputs);
            && OnCourse(t)
            && (t.consumed == |t.desk.queue| && t.desk.inFlight == [] ==> t.exchange == t.desk.table.Keys)
  {
    RunKeepsService(past);
    LoginInMainLoopConverges(past);
    var login := MdEventIn(MdLoginOk, true);
    var s := ServiceStep(ServiceRun(IDLE, past), login);
    StepKeepsService(ServiceRun(IDLE, past), login);
    InOrderIsCalm(s, inputs);
    CalmRunConverges(s, inputs);
  }

  // ---- a login consumed while a command waits ----

  /** The command being waited for, then the commands ahead. */
  function Unapplied(s: Service): seq<MdCommand>
    requires 0 < s.consumed <= |s.desk.queue|
  {
    s.desk.queue[s.consumed - 1..] + s.desk.inFlight
  }

  lemma WaitLoginReplaysUnapplied(s: Service)
    requires ServiceInv(s) && s.waiting.Some?
    ensures var t := WaitEvent(s, MdLoginOk, true);
            Replay(Ahead(t), t.exchange) == Replay(Unapplied(s), {})
  {
    assert Unapplied(s) == [s.waiting.value] + Ahead(s);
    ReplayAppend([s.waiting.value], Ahead(s), {});
  }

  lemma WaitLoginConvergesExactly(s: Service)
    requires ServiceInv(s) && s.waiting.Some?
    ensures OnCourse(WaitEvent(s, MdLoginOk, true))
            <==> forall i :: i in s.desk.table <==> LastKind(Unapplied(s), i) == Some(true)
  {
    WaitLoginReplaysUnapplied(s);
    forall i ensures i in Replay(Unapplied(s), {}) <==> LastKind(Unapplied(s), i) == Some(true) {
      LastKindDecides(Unapplied(s), {}, i);
    }
    assert forall i :: i in s.desk.table <==> i in s.desk.table.Keys;
  }

  /**
   * A login consumed while a command waits does not resubscribe. Whatever the sends have done before,
   * it leaves the service on course exactly when the instruments of the table are those that the
   * commands not yet applied subscribe last.
   */
  lemma LoginInWaitLoopConvergesExactly(inputs: seq<MdInput>)
    requires ConsistentRun(IDLE, inputs) && ServiceRun(IDLE, inputs).waiting.Some?
    ensures var s := ServiceRun(IDLE, inputs);
            && 0 < s.consumed <= |s.desk.queue|
            && (OnCourse(ServiceStep(s, MdEventIn(MdLoginOk, true)))
                <==> forall i :: i in s.desk.table <==> LastKind(Unapplied(s), i) == Some(true))
  {
    RunKeepsService(inputs);
    WaitLoginConvergesExactly(ServiceRun(IDLE, inputs));
  }

  /** When no send has overtaken another: exactly when each instrument of the table is still named by one of them. */
  lemma InOrderLoginInWaitLoopConvergesExactly(inputs: seq<MdInput>)
    requires ConsistentRun(IDLE, inputs) && SendsInOrder(inputs) && ServiceRun(IDLE, inputs).waiting.Some?
    ensures var s := ServiceRun(IDLE, inputs);
            && 0 < s.consumed <= |s.desk.queue|
            && (OnCourse(ServiceStep(s, MdEventIn(MdLoginOk, true)))
                <==> forall i | i in s.desk.table :: exists c :: c in Unapplied(s) && i in c.instruments)
  {
    LoginInWaitLoopConvergesExactly(inputs);
    RunKeepsService(inputs);
    InOrderCommandsAreLog(inputs);
    var s := ServiceRun(IDLE, inputs);
    AheadIsTail(s, s.consumed - 1);
    forall i
      ensures LastKind(Unapplied(s), i) == Some(true)
              <==> i in s.desk.table && exists c :: c in Unapplied(s) && i in c.instruments
    {
      TailSettlesMentioned(s.desk.log, s.consumed - 1, {}, i);
      LastKindDecides(Unapplied(s), {}, i);
      NamedExactly(Unapplied(s), i);
    }
  }

  lemma NamedExactly(commands: seq<MdCommand>, i: InstrumentId)
    ensures LastKind(commands, i).Some? <==> exists c :: c in commands && i in c.instruments
  {
    MentionedExactly(commands, i);
    if c :| c in commands && i in c.instruments {
      var k :| 0 <= k < |commands| && commands[k] == c;
    }
  }

  /** The first login of a fresh service is always on course: nothing was applied before it. */
  lemma FirstLoginConverges(inputs: seq<MdInput>)
    requires ConsistentRun(IDLE, inputs) && SendsInOrder(inputs)
    requires ServiceRun(IDLE, inputs).waiting.Some? && ServiceRun(IDLE, inputs).consumed == 1
    ensures OnCourse(ServiceStep(ServiceRun(IDLE, inputs), MdEventIn(MdLoginOk, true)))
  {
    RunKeepsService(inputs);
    InOrderCommandsAreLog(inputs);
    var s := ServiceRun(IDLE, inputs);
    WaitLoginReplaysUnapplied(s);
    assert Unapplied(s) == s.desk.log;
  }

  /** One client holds `i` when the front drops; another asks for `j` before the front is back. */
  function DroppedScript(a: ClientId, b: ClientId, i: InstrumentId, j: InstrumentId, n: nat): seq<MdInput>
    requires n <= 9
  {
    if n == 0 then [] else DroppedScript(a, b, i, j, n - 1) + [DroppedInput(a, b, i, j, n - 1)]
  }

  function DroppedInput(a: ClientId, b: ClientId, i: InstrumentId, j: InstrumentId, n: nat): MdInput
    requires n < 9
  {
    match n
    case 0 => Request(OpSubscribe(a, [i]), [i])
    case 1 => SendCommand(0)
    case 2 => TakeCommand(true)
    case 3 => MdEventIn(MdLoginOk, true)
    case 4 => MdEventIn(MdFrontDisconnected, true)
    case 5 => Request(OpSubscribe(b, [j]), [j])
    case 6 => SendCommand(0)
    case 7 => TakeCommand(true)
    case 8 => MdEventIn(MdLoginOk, true)
  }

  /** The service after `n` of those inputs. */
  function DroppedService(a: ClientId, b: ClientId, i: InstrumentId, j: InstrumentId, n: nat): Service
    requires n <= 9
  {
    var p, q := SubscribeExchange([i]), SubscribeExchange([j]);
    var one, two := map[i := {a}], map[i := {a}, j := {b}];
    match n
    case 0 => IDLE
    case 1 => Service(Desk(one, true, [p], [], [p]), map[], 0, false, false, None, {}, [])
    case 2 => Service(Desk(one, true, [], [p], [p]), map[], 0, false, false, None, {}, [])
    case 3 => Service(Desk(one, true, [], [p], [p]), map[], 1, true, false, Some(p), {}, [])
    case 4 => Service(Desk(one, true, [], [p], [p]), map[], 1, true, true, None, {i}, [])
    case 5 => Service(Desk(one, true, [], [p], [p]), map[], 1, true, false, None, {i}, [])
    case 6 => Service(Desk(two, true, [q], [p], [p, q]), map[], 1, true, false, None, {i}, [])
    case 7 => Service(Desk(two, true, [], [p, q], [p, q]), map[], 1, true, false, None, {i}, [])
    case 8 => Service(Desk(two, true, [], [p, q], [p, q]), map[], 2, true, false, Some(q), {i}, [])
    case 9 => Service(Desk(two, true, [], [p, q], [p, q]), map[], 2, true, true, None, {j}, [])
  }

  lemma ReplayOne(i: InstrumentId, subscribed: set<InstrumentId>)
    ensures Replay([SubscribeExchange([i])], subscribed) == subscribed + {i}
  {
    var one := [SubscribeExchange([i])];
    assert Replay(one[..0], subscribed) == subscribed;
    assert (set k | k in one[0].instruments) == {i};
  }

  lemma DroppedRequest(a: ClientId, b: ClientId, i: InstrumentId, j: InstrumentId, n: nat)
    requires i != j && n in {0, 5}
    ensures Consistent(DroppedService(a, b, i, j, n), DroppedInput(a, b, i, j, n))
    ensures ServiceStep(DroppedService(a, b, i, j, n), DroppedInput(a, b, i, j, n)) == DroppedService(a, b, i, j, n + 1)
  {
    var d := DroppedService(a, b, i, j, n).desk;
    if n == 0 {
      FirstSubscriber(d, a, i);
    } else {
      FirstSubscriber(d, b, j);
    }
  }

  lemma DroppedStep(a: ClientId, b: ClientId, i: InstrumentId, j: InstrumentId, n: nat)
    requires i != j && n < 9 && n !in {0, 5}
    ensures ServiceStep(DroppedService(a, b, i, j, n), DroppedInput(a, b, i, j, n)) == DroppedService(a, b, i, j, n + 1)
  {
    var d := DroppedService(a, b, i, j, n).desk;
    if n in {1, 6} {
      assert d.inFlight[..0] + d.inFlight[1..] == [];
    } else if n in {3, 8} {
      ReplayOne(if n == 3 then i else j, {});
    }
  }

  lemma {:induction false} DroppedRun(a: ClientId, b: ClientId, i: InstrumentId, j: InstrumentId, n: nat)
    requires i != j && n <= 9
    ensures ServiceRun(IDLE, DroppedScript(a, b, i, j, n)) == DroppedService(a, b, i, j, n)
    ensures ConsistentRun(IDLE, DroppedScript(a, b, i, j, n))
  {
    if n > 0 {
      DroppedRun(a, b, i, j, n - 1);
      ServiceRunSnoc(IDLE, DroppedScript(a, b, i, j, n - 1), DroppedInput(a, b, i, j, n - 1));
      DroppedNext(a, b, i, j, n - 1);
    }
  }

  lemma DroppedNext(a: ClientId, b: ClientId, i: InstrumentId, j: InstrumentId, n: nat)
    requires i != j && n < 9
    ensures Consistent(DroppedService(a, b, i, j, n), DroppedInput(a, b, i, j, n))
    ensures ServiceStep(DroppedService(a, b, i, j, n), DroppedInput(a, b, i, j, n)) == DroppedService(a, b, i, j, n + 1)
  {
    if n in {0, 5} {
      DroppedRequest(a, b, i, j, n);
    } else {
      DroppedStep(a, b, i, j, n);
    }
  }

  lemma {:induction false} DroppedSendsInOrder(a: ClientId, b: ClientId, i: InstrumentId, j: InstrumentId, n: nat)
    requires n <= 9
    ensures SendsInOrder(DroppedScript(a, b, i, j, n))
  {
    if n > 0 {
      var earlier, input := DroppedScript(a, b, i, j, n - 1), DroppedInput(a, b, i, j, n - 1);
      DroppedSendsInOrder(a, b, i, j, n - 1);
      assert (earlier + [input])[..|earlier|] == earlier;
    }
  }

  /**
   * A reachable loss, with every send in order: after a disconnect and a login consumed by a waiting
   * command, all is sent and taken, an instrument has a client, and the exchange does not send it.
   */
  lemma WaitLoopLoginLosesInstrument(a: ClientId, b: ClientId, i: InstrumentId, j: InstrumentId)
    requires i != j
    ensures ConsistentRun(IDLE, DroppedScript(a, b, i, j, 9)) && SendsInOrder(DroppedScript(a, b, i, j, 9))
    ensures var s := ServiceRun(IDLE, DroppedScript(a, b, i, j, 9));
            && s.loggedIn && s.consumed == |s.desk.queue| && s.desk.inFlight == []
            && Row(s.desk.table, a, i) && i !in s.exchange
  {
    DroppedRun(a, b, i, j, 9);
    DroppedSendsInOrder(a, b, i, j, 9);
  }

  // ---- what a lost login and a failed wait leave behind ----

  /** After a disconnect or a failed login seen by the main loop, the next command waits for a login. */
  lemma NextCommandWaitsForLogin(s: Service, event: MdEvent, ok: bool, takeOk: bool)
    requires s.session && s.waiting.None? && s.consumed < |s.desk.queue|
    requires event == MdFrontDisconnected || event == MdLoginFailed
    ensures TakeStep(EventStep(s, event, ok), takeOk)
            == s.(loggedIn := false, waiting := Some(s.desk.queue[s.consumed]), consumed := s.consumed + 1)
  {
  }

  /** A login in the main loop whose resubscription is refused leaves the exchange with nothing. */
  lemma RefusedResubscriptionLeavesNothing(s: Service)
    requires s.session && s.waiting.None?
    ensures EventStep(s, MdLoginOk, false) == s.(loggedIn := true, exchange := {})
  {
  }

  /**
   * A wait ends exactly on a login, a failure, an error, or a refused login call. Only a login applies
   * the command that waited, and only if that call is accepted; otherwise the command is dropped.
   */
  lemma WaitEndsExactly(s: Service, event: MdEvent, ok: bool)
    requires s.session && s.waiting.Some?
    ensures var t := EventStep(s, event, ok);
            && (t.waiting.None? <==> event == MdLoginOk || event == MdLoginFailed || event == MdError
                                     || (event == MdFrontConnected && !ok))
            && (event != MdLoginOk ==> t.exchange == s.exchange && t.loggedIn == s.loggedIn)
            && (event == MdLoginOk ==>
                  && t.loggedIn
                  && t.exchange == if ok && s.waiting.value.SubscribeExchange?
                                   then set i | i in s.waiting.value.instruments else {})
            && t.consumed == s.consumed && t.desk == s.desk && t.fanouts == s.fanouts
  {
    ReplayOneCommand(s.waiting.value, {});
    assert {} - (set i | i in s.waiting.value.instruments) == {};
  }

  /** A command that finds no session and cannot connect is dropped. */
  lemma FailedConnectDropsCommand(s: Service)
    requires !s.session && s.waiting.None? && s.consumed < |s.desk.queue|
    ensures TakeStep(s, false) == s.(consumed := s.consumed + 1)
  {
  }

  /** Logged in, a command is applied as it is taken if the call is accepted, and dropped if it is not. */
  lemma LoggedInCommandIsApplied(s: Service, ok: bool)
    requires s.session && s.loggedIn && s.waiting.None? && s.consumed < |s.desk.queue|
    ensures var t, command := TakeStep(s, ok), s.desk.queue[s.consumed];
            && t.waiting.None? && t.loggedIn
            && t.exchange == (if !ok then s.exchange
                              else if command.SubscribeExchange? then s.exchange + set i | i in command.instruments
                              else s.exchange - set i | i in command.instruments)
  {
    ReplayOneCommand(s.desk.queue[s.consumed], s.exchange);
  }

  lemma ReplayOneCommand(command: MdCommand, subscribed: set<InstrumentId>)
    ensures Replay([command], subscribed)
            == if command.SubscribeExchange? then subscribed + set i | i in command.instruments
               else subscribed - set i | i in command.instruments
  {
    var one := [command];
    assert Replay(one[..0], subscribed) == subscribed;
  }

  // ---- ticks reach exactly the subscribed, registered clients ----

  /** The flat relation a history of inputs defines. */
  predicate Subscribed(inputs: seq<MdInput>, c: ClientId, i: InstrumentId) {
    if inputs == [] then false
    else
      var before := Subscribed(inputs[..|inputs| - 1], c, i);
      match inputs[|inputs| - 1]
      case Request(OpSubscribe(d, instruments), _) => before || (c == d && i in instruments)
      case Request(OpUnsubscribe(d, instruments), _) => before && !(c == d && i in instruments)
      case Request(OpDisconnect(d), _) => before && c != d
      case _ => before
  }

  /** The outbound a client last registered and has not since lost. */
  function Outbound(inputs: seq<MdInput>, c: ClientId): Option<Channel> {
    if inputs == [] then None
    else
      match inputs[|inputs| - 1]
      case Register(d, channel) => if c == d then Some(channel) else Outbound(inputs[..|inputs| - 1], c)
      case Request(OpDisconnect(d), _) => if c == d then None else Outbound(inputs[..|inputs| - 1], c)
      case _ => Outbound(inputs[..|inputs| - 1], c)
  }

  ghost predicate RowsMatch(t: Table, inputs: seq<MdInput>) {
    NoEmpty(t) && forall c, i :: Row(t, c, i) <==> Subscribed(inputs, c, i)
  }

  ghost predicate ClientsMatch(clients: map<ClientId, Channel>, inputs: seq<MdInput>) {
    forall c :: Outbound(inputs, c) == if c in clients then Some(clients[c]) else None
  }

  /** Over every run the index is the flat relation of its history, and the clients are its registrations. */
  lemma {:induction false} TableRefinesFlatRelation(inputs: seq<MdInput>)
    requires ConsistentRun(IDLE, inputs)
    ensures RowsMatch(ServiceRun(IDLE, inputs).desk.table, inputs)
    ensures ClientsMatch(ServiceRun(IDLE, inputs).clients, inputs)
  {
    if inputs != [] {
      TableRefinesFlatRelation(inputs[..|inputs| - 1]);
      var before := ServiceRun(IDLE, inputs[..|inputs| - 1]);
      if inputs[|inputs| - 1].Request? {
        RowsMatchNext(before.desk.table, inputs);
      } else {
        StepKeepsRows(before, inputs[|inputs| - 1]);
      }
    }
  }

  lemma StepKeepsRows(s: Service, input: MdInput)
    requires !input.Request?
    ensures var t := ServiceStep(s, input);
            && t.desk.table == s.desk.table
            && t.clients == if input.Register? then s.clients[input.c := input.channel] else s.clients
  {
    match input
    case TakeCommand(ok) => TakeFrame(s, ok);
    case MdEventIn(event, ok) => ServiceEventFrame(s, event, ok);
    case SendCommand(_) =>
    case Register(_, _) =>
  }

  lemma RowsMatchNext(t: Table, inputs: seq<MdInput>)
    requires inputs != [] && inputs[|inputs| - 1].Request?
    requires RowsMatch(t, inputs[..|inputs| - 1])
    ensures RowsMatch(NextTable(t, inputs[|inputs| - 1].op), inputs)
  {
    match inputs[|inputs| - 1].op
    case OpSubscribe(c, instruments) => SubscribeAddsRows(t, c, instruments);
    case OpUnsubscribe(c, instruments) => UnsubscribeDropsRows(t, c, instruments);
    case OpDisconnect(c) => RemoveClientDropsRows(t, c);
  }

  /** Each client then subscribed and registered is sent the tick once on its channel, and nobody else is. */
  ghost predicate ReachesSubscribers(inputs: seq<MdInput>, i: InstrumentId, recipients: multiset<(ClientId, Channel)>) {
    forall c, channel: Channel ::
      recipients[(c, channel)] == if Subscribed(inputs, c, i) && Outbound(inputs, c) == Some(channel) then 1 else 0
  }

  /** After any run, a tick goes to exactly the clients then subscribed and registered, once each. */
  lemma TickReachesSubscribers(inputs: seq<MdInput>, i: InstrumentId, ok: bool)
    requires ConsistentRun(IDLE, inputs)
    requires ServiceRun(IDLE, inputs).session && ServiceRun(IDLE, inputs).waiting.None?
    ensures var s := ServiceRun(IDLE, inputs);
            var t := ServiceStep(s, MdEventIn(MdTick(i), ok));
            && |t.fanouts| == |s.fanouts| + 1 && t.fanouts[..|s.fanouts|] == s.fanouts
            && t.fanouts[|s.fanouts|].instrument == i
            && ReachesSubscribers(inputs, i, t.fanouts[|s.fanouts|].recipients)
  {
    TickAppends(ServiceRun(IDLE, inputs), i, ok);
    RecipientsReach(inputs, i);
  }

  lemma TickAppends(s: Service, i: InstrumentId, ok: bool)
    requires s.session && s.waiting.None?
    ensures ServiceStep(s, MdEventIn(MdTick(i), ok)).fanouts
            == s.fanouts + [Fanout(i, multiset(Recipients(s.desk.table, s.clients, i)))]
  {
  }

  lemma RecipientsReach(inputs: seq<MdInput>, i: InstrumentId)
    requires ConsistentRun(IDLE, inputs)
    ensures var s := ServiceRun(IDLE, inputs);
            ReachesSubscribers(inputs, i, multiset(Recipients(s.desk.table, s.clients, i)))
  {
    TableRefinesFlatRelation(inputs);
    var s := ServiceRun(IDLE, inputs);
    forall c, channel: Channel
      ensures multiset(Recipients(s.desk.table, s.clients, i))[(c, channel)]
              == if Subscribed(inputs, c, i) && Outbound(inputs, c) == Some(channel) then 1 else 0
    {
      RecipientsExactly(s.desk.table, s.clients, i, c, channel);
    }
  }

  lemma RecipientsExactly(t: Table, clients: map<ClientId, Channel>, i: InstrumentId, c: ClientId, channel: Channel)
    ensures (c, channel) in Recipients(t, clients, i) <==> Row(t, c, i) && c in clients && clients[c] == channel
  {
  }
}
