/**
 * One account's trade session end to end: the callback thread fills the pending map and the event
 * queue, the actor drains the queue. Callbacks of any requests interleave with everything else.
 */
module TradeSystem {
  import opened Wrappers
  import opened TradeTypes
  import opened TradeActor
  import opened QueryDemux
  import OrderRef
  import TradeRuns

  datatype System = System(actor: Actor, pending: PendingMap, queue: seq<Event>)

  datatype SystemInput =
    | Ask(command: Command, ok: bool)
    | Spi(callback: Callback)
    | Deliver(ok: bool)
    | Hello(clientId: ClientId, channel: Channel)

  function Registration(command: Command): Option<Pending> {
    match command
    case CancelOrder(_, _) => Some(PendingCancel)
    case Query(kind, _, _, _) => Some(PendingFor(kind))
    case _ => None
  }

  /** Queries and cancels register their request id before the API call, whether or not it succeeds. */
  function AskStep(s: System, command: Command, ok: bool): System {
    var actor := Step(s.actor, FromMailbox(command, ok));
    if actor.session.None? || s.actor.session.None? then System(actor, map[], [])
    else if s.actor.mode.Main? && s.actor.ids.Some? && Registration(command).Some?
    then System(actor, s.pending[NextId(s.actor) := Registration(command).value], s.queue)
    else s.(actor := actor)
  }

  function SystemStep(s: System, input: SystemInput): System {
    match input
    case Ask(command, ok) => AskStep(s, command, ok)
    case Hello(clientId, channel) => s.(actor := Step(s.actor, ClientRegistered(clientId, channel)))
    case Spi(callback) =>
      if s.actor.session.None? then s
      else
        var (pending, events) := OnCallback(s.pending, callback);
        s.(pending := pending, queue := s.queue + events)
    case Deliver(ok) =>
      if s.queue == [] || !PollsExchange(s.actor) then s
      else System(Step(s.actor, FromExchange(s.queue[0], ok)), s.pending, s.queue[1..])
  }

  function SystemRun(s: System, inputs: seq<SystemInput>): System {
    if inputs == [] then s
    else SystemStep(SystemRun(s, inputs[..|inputs| - 1]), inputs[|inputs| - 1])
  }

  /** What the actor itself receives when the system does a step, if anything. */
  function ActorInput(s: System, input: SystemInput): Option<Input> {
    match input
    case Ask(command, ok) => Some(FromMailbox(command, ok))
    case Hello(clientId, channel) => Some(ClientRegistered(clientId, channel))
    case Spi(_) => None
    case Deliver(ok) => if s.queue == [] || !PollsExchange(s.actor) then None else Some(FromExchange(s.queue[0], ok))
  }

  function ActorInputs(s: System, inputs: seq<SystemInput>): seq<Input> {
    if inputs == [] then []
    else
      var earlier := ActorInputs(s, inputs[..|inputs| - 1]);
      match ActorInput(SystemRun(s, inputs[..|inputs| - 1]), inputs[|inputs| - 1])
      case None => earlier
      case Some(received) => earlier + [received]
  }

  lemma StepRefinesActor(s: System, input: SystemInput)
    ensures SystemStep(s, input).actor == match ActorInput(s, input)
                                          case None => s.actor
                                          case Some(received) => Step(s.actor, received)
  {
  }

  /** The actor inside the system is a run of the actor alone, so all that holds of its runs holds here. */
  lemma {:induction false} SystemRefinesActor(s: System, inputs: seq<SystemInput>)
    ensures SystemRun(s, inputs).actor == Run(s.actor, ActorInputs(s, inputs))
  {
    if inputs != [] {
      var earlier, last := inputs[..|inputs| - 1], inputs[|inputs| - 1];
      SystemRefinesActor(s, earlier);
      StepRefinesActor(SystemRun(s, earlier), last);
      match ActorInput(SystemRun(s, earlier), last)
      case None =>
      case Some(received) => TradeRuns.RunSnoc(s.actor, ActorInputs(s, earlier), received);
    }
  }

  // ---- request ids are fresh ----

  ghost predicate Issued(n: nat, id: int) {
    exists m: nat :: 1 <= m <= n && id == RequestId(m)
  }

  /** The exchange answers only requests made on this session. */
  ghost predicate Causal(s: System, input: SystemInput) {
    input.Spi? && s.actor.session.Some? && CallbackId(input.callback).Some? ==>
      Issued(s.actor.session.value, CallbackId(input.callback).value)
  }

  ghost predicate CausalRun(s: System, inputs: seq<SystemInput>) {
    inputs == []
    || (CausalRun(s, inputs[..|inputs| - 1])
        && Causal(SystemRun(s, inputs[..|inputs| - 1]), inputs[|inputs| - 1]))
  }

  ghost predicate QueueIssued(s: System) {
    && (s.actor.session.None? ==> s.queue == [])
    && (s.actor.session.Some? ==>
          forall e | e in s.queue && EventId(e).Some? :: Issued(s.actor.session.value, EventId(e).value))
  }

  /** A session's request counter moves from `n` to `n` or `n + 1`, or the session is released. */
  ghost predicate Grows(before: Option<nat>, after: Option<nat>) {
    before.Some? && after.Some? ==> before.value <= after.value
  }

  lemma CommandGrows(a: Actor, command: Command, ok: bool)
    ensures a.ids.Some? ==> Grows(a.session, LoggedInCommand(a, command, ok).session)
    ensures Grows(a.session, LoggedOutCommand(a, command, ok).session)
  {
  }

  lemma EventGrows(a: Actor, event: Event, ok: bool)
    requires a.session.Some?
    ensures Step(a, FromExchange(event, ok)).session.Some?
    ensures Grows(a.session, Step(a, FromExchange(event, ok)).session)
  {
    if !a.mode.LoggingIn? {
      TradeRuns.EventFrame(a, event);
    }
  }

  lemma StepQueueIssued(s: System, input: SystemInput)
    requires QueueIssued(s) && Causal(s, input) && TradeRuns.Coherent(s.actor)
    ensures QueueIssued(SystemStep(s, input)) && TradeRuns.Coherent(SystemStep(s, input).actor)
  {
    match input
    case Ask(command, ok) =>
      TradeRuns.StepCoherent(s.actor, FromMailbox(command, ok));
      CommandGrows(s.actor, command, ok);
    case Hello(clientId, channel) =>
    case Spi(callback) => EventsAnswerCallback(s.pending, callback);
    case Deliver(ok) => DeliverQueueIssued(s, ok);
  }

  lemma EventsAnswerCallback(pending: PendingMap, callback: Callback)
    ensures forall e | e in OnCallback(pending, callback).1 && EventId(e).Some? :: EventId(e) == CallbackId(callback)
  {
  }

  lemma DeliverQueueIssued(s: System, ok: bool)
    requires QueueIssued(s) && TradeRuns.Coherent(s.actor)
    ensures var t := SystemStep(s, Deliver(ok)); QueueIssued(t) && TradeRuns.Coherent(t.actor)
  {
    if s.queue != [] && PollsExchange(s.actor) {
      TradeRuns.StepCoherent(s.actor, FromExchange(s.queue[0], ok));
      EventGrows(s.actor, s.queue[0], ok);
    }
  }

  lemma {:induction false} RunQueueIssued(s: System, inputs: seq<SystemInput>)
    requires QueueIssued(s) && CausalRun(s, inputs) && TradeRuns.Coherent(s.actor)
    ensures QueueIssued(SystemRun(s, inputs)) && TradeRuns.Coherent(SystemRun(s, inputs).actor)
  {
    if inputs != [] {
      var earlier := inputs[..|inputs| - 1];
      RunQueueIssued(s, earlier);
      StepQueueIssued(SystemRun(s, earlier), inputs[|inputs| - 1]);
    }
  }

  lemma StepWithoutSession(s: System, input: SystemInput)
    requires s.actor.session.None? ==> s.pending == map[] && s.queue == []
    ensures var t := SystemStep(s, input); t.actor.session.None? ==> t.pending == map[] && t.queue == []
  {
    if input.Deliver? && s.queue != [] && PollsExchange(s.actor) {
      EventGrows(s.actor, s.queue[0], input.ok);
    }
  }

  /** A released session takes its entries and its queued events with it: the next one starts from nothing. */
  lemma {:induction false} ReleasedSessionLeavesNothing(accountId: AccountId, routes: map<ClientId, Channel>,
                                                        inputs: seq<SystemInput>)
    ensures var t := SystemRun(System(Started(accountId, routes), map[], []), inputs);
            t.actor.session.None? ==> t.pending == map[] && t.queue == []
  {
    if inputs != [] {
      var earlier := inputs[..|inputs| - 1];
      ReleasedSessionLeavesNothing(accountId, routes, earlier);
      StepWithoutSession(SystemRun(System(Started(accountId, routes), map[], []), earlier), inputs[|inputs| - 1]);
    }
  }

  // ---- an answer is exactly the records of its own request ----

  function Callbacks(inputs: seq<SystemInput>): seq<Callback> {
    if inputs == [] then []
    else
      var earlier := Callbacks(inputs[..|inputs| - 1]);
      var last := inputs[|inputs| - 1];
      if last.Spi? then earlier + [last.callback] else earlier
  }

  /** A part of the answer to the request, of the kind that was asked for. */
  predicate Own(kind: QueryKind, requestId: int, callback: Callback) {
    callback.RspQuery? && callback.requestId == requestId && callback.kind == kind
  }

  /** The accepted record of one of the request's own callbacks, if it has one. */
  function RecordOf(kind: QueryKind, requestId: int, callback: Callback): seq<Record> {
    if Own(kind, requestId, callback) && callback.error.None? && callback.raw.Some?
       && Accepts(kind, callback.raw.value)
    then [callback.raw.value.record] else []
  }

  /** The accepted records among the request's own callbacks, in arrival order. */
  function Collected(kind: QueryKind, requestId: int, callbacks: seq<Callback>): seq<Record> {
    if callbacks == [] then []
    else
      Collected(kind, requestId, callbacks[..|callbacks| - 1])
      + RecordOf(kind, requestId, callbacks[|callbacks| - 1])
  }

  /** What a last part without an error completes, given the records collected with it. */
  function ReadyWith(kind: QueryKind, requestId: int, last: Callback, records: seq<Record>): Event
    requires last.RspQuery?
  {
    QueryReady(kind, requestId,
               if !kind.Account? then records else [if last.raw.Some? then last.raw.value.record else NO_BALANCE])
  }

  /** The answer a request is owed: fixed by its first own callback that is an error or the last part. */
  function Answer(kind: QueryKind, requestId: int, callbacks: seq<Callback>): Option<Event> {
    if callbacks == [] then None
    else
      var earlier := Answer(kind, requestId, callbacks[..|callbacks| - 1]);
      var last := callbacks[|callbacks| - 1];
      if earlier.Some? || !Own(kind, requestId, last) then earlier
      else if last.error.Some? then Some(QueryFailed(requestId, last.error.value))
      else if !last.isLast then None
      else Some(ReadyWith(kind, requestId, last, Collected(kind, requestId, callbacks)))
  }

  // ---- callbacks of the wrong kind ----

  /** Closes the request without answering it: a last part of another kind, or an answer to a cancel. */
  predicate Discards(kind: QueryKind, requestId: int, callback: Callback) {
    && Closes(callback, requestId)
    && (callback.RspQuery? ==> callback.error.None? && callback.kind != kind)
  }

  predicate Discarded(kind: QueryKind, requestId: int, callbacks: seq<Callback>) {
    callbacks != []
    && (Discarded(kind, requestId, callbacks[..|callbacks| - 1])
        || Discards(kind, requestId, callbacks[|callbacks| - 1]))
  }

  /**
   * What a callback makes the code answer: an error of any kind ends the query, and a discarded entry
   * holds no records.
   */
  function DeliveredBy(kind: QueryKind, requestId: int, last: Callback, discarded: bool, records: seq<Record>)
    : Option<Event>
  {
    if !last.RspQuery? || last.requestId != requestId then None
    else if last.error.Some? then Some(QueryFailed(requestId, last.error.value))
    else if last.kind != kind || !last.isLast then None
    else Some(ReadyWith(kind, requestId, last, if discarded then [] else records))
  }

  function Delivered(kind: QueryKind, requestId: int, callbacks: seq<Callback>): Option<Event> {
    if callbacks == [] then None
    else
      var before := callbacks[..|callbacks| - 1];
      if Delivered(kind, requestId, before).Some? then Delivered(kind, requestId, before)
      else DeliveredBy(kind, requestId, callbacks[|callbacks| - 1], Discarded(kind, requestId, before),
                       Collected(kind, requestId, callbacks))
  }

  /** The first error of another kind that carries the id before the request is answered. */
  function ForeignError(kind: QueryKind, requestId: int, callbacks: seq<Callback>): Option<ErrorInfo> {
    if callbacks == [] then None
    else
      var before := callbacks[..|callbacks| - 1];
      var last := callbacks[|callbacks| - 1];
      if ForeignError(kind, requestId, before).Some? || Answer(kind, requestId, before).Some?
      then ForeignError(kind, requestId, before)
      else if last.RspQuery? && last.requestId == requestId && last.kind != kind then last.error
      else None
  }

  /** A callback that discards the entry comes before the request is answered. */
  predicate DiscardedEarly(kind: QueryKind, requestId: int, callbacks: seq<Callback>) {
    callbacks != []
    && (DiscardedEarly(kind, requestId, callbacks[..|callbacks| - 1])
        || (&& Answer(kind, requestId, callbacks[..|callbacks| - 1]).None?
            && Discards(kind, requestId, callbacks[|callbacks| - 1])))
  }

  /**
   * Callbacks of the wrong kind change nothing: no error of another kind comes first (unless the
   * request fails with that very error), and none discards the entry first (unless there is nothing to
   * lose: an account query, an error, an answer without records, or no answer yet).
   */
  predicate Undisturbed(kind: QueryKind, requestId: int, callbacks: seq<Callback>) {
    var answer := Answer(kind, requestId, callbacks);
    match ForeignError(kind, requestId, callbacks)
    case Some(error) => answer == Some(QueryFailed(requestId, error))
    case None =>
      DiscardedEarly(kind, requestId, callbacks) && answer.Some? && answer.value.QueryReady? ==>
        kind.Account? || answer.value.records == []
  }

  lemma {:induction false} DiscardedBeforeAnswer(kind: QueryKind, requestId: int, callbacks: seq<Callback>)
    requires Answer(kind, requestId, callbacks).None?
    ensures Discarded(kind, requestId, callbacks) <==> DiscardedEarly(kind, requestId, callbacks)
  {
    if callbacks != [] {
      DiscardedBeforeAnswer(kind, requestId, callbacks[..|callbacks| - 1]);
    }
  }

  lemma {:induction false} DeliveredInClosedForm(kind: QueryKind, requestId: int, callbacks: seq<Callback>)
    ensures var answer := Answer(kind, requestId, callbacks);
            var foreign := ForeignError(kind, requestId, callbacks);
            Delivered(kind, requestId, callbacks)
            == if foreign.Some? then Some(QueryFailed(requestId, foreign.value))
               else if answer.Some? && answer.value.QueryReady? && !kind.Account?
                       && DiscardedEarly(kind, requestId, callbacks)
               then Some(QueryReady(kind, requestId, []))
               else answer
  {
    if callbacks != [] {
      var before := callbacks[..|callbacks| - 1];
      DeliveredInClosedForm(kind, requestId, before);
      if Answer(kind, requestId, before).None? {
        DiscardedBeforeAnswer(kind, requestId, before);
      }
      AnswerShape(kind, requestId, before);
      AnswerShape(kind, requestId, callbacks);
    }
  }

  /** The code gives a request the answer its own callbacks define exactly when they are undisturbed. */
  lemma OwnAnswerIsDeliveredExactly(kind: QueryKind, requestId: int, callbacks: seq<Callback>)
    ensures Delivered(kind, requestId, callbacks) == Answer(kind, requestId, callbacks)
            <==> Undisturbed(kind, requestId, callbacks)
  {
    DeliveredInClosedForm(kind, requestId, callbacks);
    AnswerShape(kind, requestId, callbacks);
  }

  /** Parts of another kind that are neither last nor errors never matter. */
  lemma {:induction false} ForeignPartsAreHarmless(kind: QueryKind, requestId: int, callbacks: seq<Callback>)
    requires forall c | c in callbacks && Closes(c, requestId) :: Own(kind, requestId, c)
    ensures Undisturbed(kind, requestId, callbacks)
    ensures ForeignError(kind, requestId, callbacks).None? && !DiscardedEarly(kind, requestId, callbacks)
  {
    if callbacks != [] {
      ForeignPartsAreHarmless(kind, requestId, callbacks[..|callbacks| - 1]);
      assert callbacks[|callbacks| - 1] in callbacks;
    }
  }

  lemma {:induction false} AnswerShape(kind: QueryKind, requestId: int, callbacks: seq<Callback>)
    ensures var answer := Answer(kind, requestId, callbacks);
            answer.Some? ==> Answers(answer.value, kind, requestId)
  {
    if callbacks != [] {
      AnswerShape(kind, requestId, callbacks[..|callbacks| - 1]);
    }
  }

  lemma {:induction false} DeliveredShape(kind: QueryKind, requestId: int, callbacks: seq<Callback>)
    ensures var delivered := Delivered(kind, requestId, callbacks);
            delivered.Some? ==> Answers(delivered.value, kind, requestId)
  {
    if callbacks != [] {
      DeliveredShape(kind, requestId, callbacks[..|callbacks| - 1]);
    }
  }

  // ---- what the query loop finds ----

  /** The events a query loop stops at. */
  predicate Answers(event: Event, kind: QueryKind, requestId: int) {
    || (event.QueryReady? && event.kind == kind && event.requestId == requestId)
    || (event.QueryFailed? && event.requestId == requestId)
  }

  function FirstAnswer(queue: seq<Event>, kind: QueryKind, requestId: int): Option<Event> {
    if queue == [] then None
    else if Answers(queue[0], kind, requestId) then Some(queue[0])
    else FirstAnswer(queue[1..], kind, requestId)
  }

  lemma {:induction false} FirstAnswerAppend(queue: seq<Event>, events: seq<Event>, kind: QueryKind, requestId: int)
    ensures FirstAnswer(queue + events, kind, requestId)
            == if FirstAnswer(queue, kind, requestId).Some? then FirstAnswer(queue, kind, requestId)
               else FirstAnswer(events, kind, requestId)
  {
    if queue == [] {
      assert queue + events == events;
    } else {
      assert (queue + events)[1..] == queue[1..] + events;
      FirstAnswerAppend(queue[1..], events, kind, requestId);
    }
  }

  lemma {:induction false} NoAnswerQueued(queue: seq<Event>, kind: QueryKind, requestId: int)
    requires forall e | e in queue :: EventId(e) != Some(requestId)
    ensures FirstAnswer(queue, kind, requestId).None?
  {
    if queue != [] {
      assert EventId(queue[0]) != Some(requestId);
      NoAnswerQueued(queue[1..], kind, requestId);
    }
  }

  /** The state right after a query was issued: its entry is fresh and nothing queued answers it. */
  ghost predicate JustAsked(s: System) {
    && s.actor.mode.Querying? && s.actor.session.Some?
    && s.actor.mode.requestId in s.pending
    && s.pending[s.actor.mode.requestId] == PendingFor(s.actor.mode.kind)
    && FirstAnswer(s.queue, s.actor.mode.kind, s.actor.mode.requestId).None?
  }

  /** The query is still running throughout `inputs`. */
  ghost predicate StillQuerying(s: System, inputs: seq<SystemInput>) {
    SystemRun(s, inputs).actor.mode.Querying? && (inputs == [] || StillQuerying(s, inputs[..|inputs| - 1]))
  }

  /** What the pending map holds for a query not yet answered. */
  ghost predicate Entry(pending: PendingMap, kind: QueryKind, requestId: int, discarded: bool, records: seq<Record>) {
    if discarded then requestId !in pending
    else
      && requestId in pending
      && pending[requestId] == if kind.Account? then PendingAccount else PendingRecords(kind, records)
  }

  lemma EntryStep(pending: PendingMap, kind: QueryKind, requestId: int, discarded: bool, records: seq<Record>,
                  callback: Callback)
    requires Entry(pending, kind, requestId, discarded, records)
    requires DeliveredBy(kind, requestId, callback, discarded, records + RecordOf(kind, requestId, callback)).None?
    ensures Entry(OnCallback(pending, callback).0, kind, requestId, discarded || Discards(kind, requestId, callback),
                  records + RecordOf(kind, requestId, callback))
  {
    assert records + [] == records;
  }

  lemma EventsStep(pending: PendingMap, kind: QueryKind, requestId: int, discarded: bool, records: seq<Record>,
                   callback: Callback)
    requires Entry(pending, kind, requestId, discarded, records)
    ensures FirstAnswer(OnCallback(pending, callback).1, kind, requestId)
            == DeliveredBy(kind, requestId, callback, discarded, records + RecordOf(kind, requestId, callback))
  {
    assert records + [] == records;
    FirstAnswerOfOne(OnCallback(pending, callback).1, kind, requestId);
  }

  lemma FirstAnswerOfOne(events: seq<Event>, kind: QueryKind, requestId: int)
    requires |events| <= 1
    ensures FirstAnswer(events, kind, requestId)
            == if events != [] && Answers(events[0], kind, requestId) then Some(events[0]) else None
  {
  }

  /** What the pending map and the queue hold for a running query, given its callbacks so far. */
  ghost predicate Correlated(t: System, kind: QueryKind, requestId: int, callbacks: seq<Callback>) {
    && FirstAnswer(t.queue, kind, requestId) == Delivered(kind, requestId, callbacks)
    && (Delivered(kind, requestId, callbacks).None? ==>
          Entry(t.pending, kind, requestId, Discarded(kind, requestId, callbacks),
                Collected(kind, requestId, callbacks)))
  }

  lemma OneMoreCallback(kind: QueryKind, requestId: int, callbacks: seq<Callback>, callback: Callback)
    ensures Collected(kind, requestId, callbacks + [callback])
            == Collected(kind, requestId, callbacks) + RecordOf(kind, requestId, callback)
    ensures Discarded(kind, requestId, callbacks + [callback])
            <==> Discarded(kind, requestId, callbacks) || Discards(kind, requestId, callback)
    ensures Delivered(kind, requestId, callbacks + [callback])
            == if Delivered(kind, requestId, callbacks).Some? then Delivered(kind, requestId, callbacks)
               else DeliveredBy(kind, requestId, callback, Discarded(kind, requestId, callbacks),
                                Collected(kind, requestId, callbacks) + RecordOf(kind, requestId, callback))
  {
    assert (callbacks + [callback])[..|callbacks|] == callbacks;
  }

  lemma SpiCorrelated(t: System, kind: QueryKind, requestId: int, callbacks: seq<Callback>, callback: Callback)
    requires t.actor.session.Some? && Correlated(t, kind, requestId, callbacks)
    ensures Correlated(SystemStep(t, Spi(callback)), kind, requestId, callbacks + [callback])
  {
    OneMoreCallback(kind, requestId, callbacks, callback);
    FirstAnswerAppend(t.queue, OnCallback(t.pending, callback).1, kind, requestId);
    if Delivered(kind, requestId, callbacks).None? {
      var discarded, records := Discarded(kind, requestId, callbacks), Collected(kind, requestId, callbacks);
      EventsStep(t.pending, kind, requestId, discarded, records, callback);
      if DeliveredBy(kind, requestId, callback, discarded, records + RecordOf(kind, requestId, callback)).None? {
        EntryStep(t.pending, kind, requestId, discarded, records, callback);
      }
    }
  }

  lemma {:induction false} QueryStaysCorrelated(s: System, inputs: seq<SystemInput>)
    requires JustAsked(s) && StillQuerying(s, inputs)
    ensures var t := SystemRun(s, inputs);
            && t.actor.mode == s.actor.mode && t.actor.replies == s.actor.replies
            && t.actor.session == s.actor.session && t.actor.registry == s.actor.registry
            && Correlated(t, s.actor.mode.kind, s.actor.mode.requestId, Callbacks(inputs))
  {
    var mode := s.actor.mode;
    if inputs != [] {
      var earlier := inputs[..|inputs| - 1];
      var last := inputs[|inputs| - 1];
      QueryStaysCorrelated(s, earlier);
      var t := SystemRun(s, earlier);
      assert SystemRun(s, inputs).actor.mode.Querying?;
      match last
      case Spi(callback) => SpiCorrelated(t, mode.kind, mode.requestId, Callbacks(earlier), callback);
      case Deliver(ok) => DeliverCorrelated(t, ok, Callbacks(earlier));
      case _ =>
    }
  }

  lemma QueryLoopStep(a: Actor, event: Event, ok: bool)
    requires a.mode.Querying?
    ensures var b := Step(a, FromExchange(event, ok));
            if Answers(event, a.mode.kind, a.mode.requestId) then b.mode.Main?
            else b.mode == a.mode && b.replies == a.replies && b.session == a.session && b.registry == a.registry
  {
  }

  /** Consuming an event either leaves the query waiting as before, or the event is what it is answered with. */
  lemma DeliverCorrelated(t: System, ok: bool, callbacks: seq<Callback>)
    requires t.actor.mode.Querying?
    requires Correlated(t, t.actor.mode.kind, t.actor.mode.requestId, callbacks)
    ensures var u := SystemStep(t, Deliver(ok));
            var mode := t.actor.mode;
            var delivered := Delivered(mode.kind, mode.requestId, callbacks);
            if u.actor.mode.Querying? then
              && u.actor.mode == mode && u.actor.replies == t.actor.replies
              && u.actor.session == t.actor.session && u.actor.registry == t.actor.registry
              && Correlated(u, mode.kind, mode.requestId, callbacks)
            else
              && delivered.Some? && u.actor == Step(t.actor, FromExchange(delivered.value, ok))
  {
    if t.queue != [] {
      QueryLoopStep(t.actor, t.queue[0], ok);
    }
  }

  /** What the requester is told when its query's answer arrives. */
  function AnswerMessage(registry: map<string, OrderContext>, queried: AccountId, answer: Event): Message
    requires answer.QueryReady? || answer.QueryFailed?
  {
    if answer.QueryReady? then QueryResult(answer.kind, RowsOf(registry, queried, answer.records))
    else ErrorResponse(answer.error)
  }

  lemma OnlyDeliveryEndsQuery(t: System, last: SystemInput)
    requires t.actor.mode.Querying? && !SystemStep(t, last).actor.mode.Querying?
    ensures last.Deliver?
  {
  }

  lemma AnswerIsSent(a: Actor, answer: Event, ok: bool)
    requires a.mode.Querying? && Answers(answer, a.mode.kind, a.mode.requestId)
    ensures Step(a, FromExchange(answer, ok)).replies
            == a.replies + [Reply(a.mode.replyTo, AnswerMessage(a.registry, a.mode.queried, answer))]
  {
  }

  /**
   * However the callbacks of all requests, the deliveries and the offered commands interleave, a query
   * sends one reply, fixed by the callbacks with its id. It is the answer its own callbacks define, the
   * accepted records in arrival order or the error, exactly when no callback of another kind disturbs
   * them. Answers to earlier requests are never sent.
   */
  lemma QueryAnswerIsOwnRecords(s: System, inputs: seq<SystemInput>, last: SystemInput)
    requires JustAsked(s) && StillQuerying(s, inputs)
    requires !SystemStep(SystemRun(s, inputs), last).actor.mode.Querying?
    ensures var mode := s.actor.mode;
            var delivered := Delivered(mode.kind, mode.requestId, Callbacks(inputs));
            && delivered.Some? && (delivered.value.QueryReady? || delivered.value.QueryFailed?)
            && SystemStep(SystemRun(s, inputs), last).actor.replies
               == s.actor.replies
                  + [Reply(mode.replyTo, AnswerMessage(s.actor.registry, mode.queried, delivered.value))]
            && (delivered == Answer(mode.kind, mode.requestId, Callbacks(inputs))
                <==> Undisturbed(mode.kind, mode.requestId, Callbacks(inputs)))
  {
    var mode := s.actor.mode;
    QueryStaysCorrelated(s, inputs);
    var t := SystemRun(s, inputs);
    OnlyDeliveryEndsQuery(t, last);
    DeliverCorrelated(t, last.ok, Callbacks(inputs));
    DeliveredShape(mode.kind, mode.requestId, Callbacks(inputs));
    AnswerIsSent(t.actor, Delivered(mode.kind, mode.requestId, Callbacks(inputs)).value, last.ok);
    OwnAnswerIsDeliveredExactly(mode.kind, mode.requestId, Callbacks(inputs));
  }

  /** In every causal run of at most 2^32 requests, an accepted query starts out fresh. */
  lemma AcceptedQueryIsFresh(accountId: AccountId, routes: map<ClientId, Channel>, inputs: seq<SystemInput>,
                             kind: QueryKind, queried: AccountId, instrumentId: Option<InstrumentId>, replyTo: Channel)
    requires CausalRun(System(Started(accountId, routes), map[], []), inputs)
    requires var s := SystemRun(System(Started(accountId, routes), map[], []), inputs);
             && s.actor.mode.Main? && s.actor.ids.Some?
             && (s.actor.session.Some? ==> s.actor.session.value + 1 <= TWO_32)
    ensures var s := SystemRun(System(Started(accountId, routes), map[], []), inputs);
            var t := SystemStep(s, Ask(Query(kind, queried, instrumentId, replyTo), true));
            && JustAsked(t) && t.actor.mode.kind == kind
            && t.actor.mode.queried == queried && t.actor.mode.replyTo == replyTo
  {
    var start := System(Started(accountId, routes), map[], []);
    RunQueueIssued(start, inputs);
    QueryIsFresh(SystemRun(start, inputs), kind, queried, instrumentId, replyTo);
  }

  /**
   * End to end: from an empty session, through any causal past of at most 2^32 requests, a query
   * the API takes is answered once: by the answer its own callbacks define exactly when callbacks of
   * another kind do not disturb them.
   */
  lemma QueryEndToEnd(accountId: AccountId, routes: map<ClientId, Channel>, past: seq<SystemInput>,
                      kind: QueryKind, queried: AccountId, instrumentId: Option<InstrumentId>, replyTo: Channel,
                      inputs: seq<SystemInput>, last: SystemInput)
    requires CausalRun(System(Started(accountId, routes), map[], []), past)
    requires var s := SystemRun(System(Started(accountId, routes), map[], []), past);
             && s.actor.mode.Main? && s.actor.ids.Some?
             && (s.actor.session.Some? ==> s.actor.session.value + 1 <= TWO_32)
    requires var s := SystemRun(System(Started(accountId, routes), map[], []), past);
             var t := SystemStep(s, Ask(Query(kind, queried, instrumentId, replyTo), true));
             StillQuerying(t, inputs) && !SystemStep(SystemRun(t, inputs), last).actor.mode.Querying?
    ensures var s := SystemRun(System(Started(accountId, routes), map[], []), past);
            var t := SystemStep(s, Ask(Query(kind, queried, instrumentId, replyTo), true));
            var delivered := Delivered(kind, NextId(s.actor), Callbacks(inputs));
            && delivered.Some? && (delivered.value.QueryReady? || delivered.value.QueryFailed?)
            && SystemStep(SystemRun(t, inputs), last).actor.replies
               == s.actor.replies + [Reply(replyTo, AnswerMessage(s.actor.registry, queried, delivered.value))]
            && (delivered == Answer(kind, NextId(s.actor), Callbacks(inputs))
                <==> Undisturbed(kind, NextId(s.actor), Callbacks(inputs)))
  {
    AcceptedQueryIsFresh(accountId, routes, past, kind, queried, instrumentId, replyTo);
    var s := SystemRun(System(Started(accountId, routes), map[], []), past);
    var t := SystemStep(s, Ask(Query(kind, queried, instrumentId, replyTo), true));
    RunQueueIssued(System(Started(accountId, routes), map[], []), past);
    assert t.actor.mode.requestId == NextId(s.actor);
    assert t.actor.replies == s.actor.replies && t.actor.registry == s.actor.registry;
    QueryAnswerIsOwnRecords(t, inputs, last);
  }

  lemma QueryIsFresh(s: System, kind: QueryKind, queried: AccountId, instrumentId: Option<InstrumentId>,
                     replyTo: Channel)
    requires QueueIssued(s) && s.actor.mode.Main? && s.actor.ids.Some? && s.actor.session.Some?
    requires s.actor.session.value + 1 <= TWO_32
    ensures var t := SystemStep(s, Ask(Query(kind, queried, instrumentId, replyTo), true));
            && JustAsked(t) && t.actor.mode.kind == kind
            && t.actor.mode.queried == queried && t.actor.mode.replyTo == replyTo
  {
    var n := s.actor.session.value;
    forall e | e in s.queue ensures EventId(e) != Some(RequestId(n + 1)) {
      if EventId(e).Some? {
        var m: nat :| 1 <= m <= n && EventId(e).value == RequestId(m);
        TradeRuns.RequestIdsCollideExactly(m, n + 1);
      }
    }
    NoAnswerQueued(s.queue, kind, RequestId(n + 1));
  }

  /** A disturbance: a last part of another kind discards what was collected. */
  lemma ForeignLastPartLosesRecords(record: Record, requestId: int)
    requires Accepts(Orders, Raw(record, true))
    ensures var part := RspQuery(Orders, requestId, None, Some(Raw(record, true)), false);
            var foreign := RspQuery(Trades, requestId, None, None, true);
            var end := RspQuery(Orders, requestId, None, None, true);
            var callbacks := [part] + [foreign] + [end];
            && Answer(Orders, requestId, callbacks) == Some(QueryReady(Orders, requestId, [record]))
            && Delivered(Orders, requestId, callbacks) == Some(QueryReady(Orders, requestId, []))
            && !Undisturbed(Orders, requestId, callbacks)
  {
    var part := RspQuery(Orders, requestId, None, Some(Raw(record, true)), false);
    var foreign := RspQuery(Trades, requestId, None, None, true);
    var end := RspQuery(Orders, requestId, None, None, true);
    var first, two: seq<Callback> := [part], [part] + [foreign];
    var three := two + [end];
    assert first[..0] == [] && two[..1] == first && three[..2] == two;
    assert Answer(Orders, requestId, []).None? && ForeignError(Orders, requestId, []).None?;
    assert Collected(Orders, requestId, first) == [record];
    assert Answer(Orders, requestId, first).None? && ForeignError(Orders, requestId, first).None?;
    assert Collected(Orders, requestId, two) == [record];
    assert Answer(Orders, requestId, two).None? && ForeignError(Orders, requestId, two).None?;
    assert Collected(Orders, requestId, three) == [record] && DiscardedEarly(Orders, requestId, two);
    assert Answer(Orders, requestId, three) == Some(QueryReady(Orders, requestId, [record]));
    DeliveredInClosedForm(Orders, requestId, three);
    OwnAnswerIsDeliveredExactly(Orders, requestId, three);
  }

  // ---- a run in which it happens ----

  lemma {:induction false} SystemRunAppend(s: System, xs: seq<SystemInput>, ys: seq<SystemInput>)
    requires CausalRun(s, xs) && CausalRun(SystemRun(s, xs), ys)
    ensures CausalRun(s, xs + ys) && SystemRun(s, xs + ys) == SystemRun(SystemRun(s, xs), ys)
  {
    if ys == [] {
      assert xs + ys == xs;
    } else {
      assert (xs + ys)[..|xs + ys| - 1] == xs + ys[..|ys| - 1];
      SystemRunAppend(s, xs, ys[..|ys| - 1]);
    }
  }

  /** The exchange emits an event and the actor consumes it. */
  function Emit(event: PlainEvent): seq<SystemInput> {
    [Spi(Direct(event))] + [Deliver(true)]
  }

  lemma OneInput(s: System, x: SystemInput)
    ensures SystemRun(s, [x]) == SystemStep(s, x) && (CausalRun(s, [x]) <==> Causal(s, x))
    ensures StillQuerying(s, [x]) <==> s.actor.mode.Querying? && SystemStep(s, x).actor.mode.Querying?
  {
    assert [x][..0] == [];
    assert SystemRun(s, []) == s && CausalRun(s, []);
  }

  lemma OneMoreInput(s: System, inputs: seq<SystemInput>, x: SystemInput)
    ensures SystemRun(s, inputs + [x]) == SystemStep(SystemRun(s, inputs), x)
    ensures CausalRun(s, inputs + [x]) <==> CausalRun(s, inputs) && Causal(SystemRun(s, inputs), x)
    ensures StillQuerying(s, inputs + [x])
            <==> StillQuerying(s, inputs) && SystemStep(SystemRun(s, inputs), x).actor.mode.Querying?
  {
    assert (inputs + [x])[..|inputs|] == inputs;
  }

  lemma EmittedSteps(s: System, event: PlainEvent)
    requires s.queue == [] && s.actor.session.Some? && PollsExchange(s.actor)
    ensures SystemStep(SystemStep(s, Spi(Direct(event))), Deliver(true))
            == s.(actor := Step(s.actor, FromExchange(event, true)))
  {
    assert SystemStep(s, Spi(Direct(event))) == s.(queue := [event]);
    assert [event][1..] == [];
  }

  lemma EmittedIsConsumed(s: System, event: PlainEvent)
    requires s.queue == [] && s.actor.session.Some? && PollsExchange(s.actor)
    ensures CausalRun(s, Emit(event))
    ensures SystemRun(s, Emit(event)) == s.(actor := Step(s.actor, FromExchange(event, true)))
  {
    OneInput(s, Spi(Direct(event)));
    OneMoreInput(s, [Spi(Direct(event))], Deliver(true));
    EmittedSteps(s, event);
  }

  /** The events of a login that goes well. */
  function LoginEventAt(ids: Ids, n: nat): PlainEvent
    requires 1 <= n < 5
  {
    match n
    case 1 => FrontConnected
    case 2 => AuthenticateOk
    case 3 => LoginOk(ids)
    case 4 => SettlementConfirmed
  }

  /** The login request, then one event after another. */
  function LoginPast(accountId: AccountId, replyTo: Channel, ids: Ids, n: nat): seq<SystemInput>
    requires n <= 5
  {
    if n == 0 then []
    else if n == 1 then [Ask(Login(accountId, replyTo), true)]
    else LoginPast(accountId, replyTo, ids, n - 1) + Emit(LoginEventAt(ids, n - 1))
  }

  /** How far the login is after the request and `n - 1` events. */
  ghost predicate LoginStage(a: Actor, ids: Ids, n: nat) {
    && a.registry == map[]
    && if n == 5 then a.mode.Main? && a.ids == Some(ids) && a.session == Some(3)
       else a.mode.LoggingIn? && a.session == Some(n - 1) && (n == 4 ==> a.mode.loginIds == Some(ids))
  }

  lemma LoginStageNext(a: Actor, ids: Ids, n: nat)
    requires 1 <= n < 5 && LoginStage(a, ids, n)
    ensures LoginStage(LoginEvent(a, LoginEventAt(ids, n), true), ids, n + 1)
  {
  }

  lemma {:induction false} LoginPastLogsIn(accountId: AccountId, routes: map<ClientId, Channel>, replyTo: Channel,
                                           ids: Ids, n: nat)
    requires 1 <= n <= 5
    ensures var start := System(Started(accountId, routes), map[], []);
            var s := SystemRun(start, LoginPast(accountId, replyTo, ids, n));
            && CausalRun(start, LoginPast(accountId, replyTo, ids, n))
            && LoginStage(s.actor, ids, n) && s.pending == map[] && s.queue == []
  {
    var start := System(Started(accountId, routes), map[], []);
    if n == 1 {
      OneInput(start, Ask(Login(accountId, replyTo), true));
    } else {
      var before := LoginPast(accountId, replyTo, ids, n - 1);
      LoginPastLogsIn(accountId, routes, replyTo, ids, n - 1);
      var s := SystemRun(start, before);
      EmittedIsConsumed(s, LoginEventAt(ids, n - 1));
      LoginStageNext(s.actor, ids, n - 1);
      SystemRunAppend(start, before, Emit(LoginEventAt(ids, n - 1)));
    }
  }

  /** The callbacks of `ForeignLastPartLosesRecords`, and the delivery of the foreign answer. */
  function ForeignInputs(record: Record, requestId: int): seq<SystemInput> {
    [Spi(RspQuery(Orders, requestId, None, Some(Raw(record, true)), false))]
    + [Spi(RspQuery(Trades, requestId, None, None, true))]
    + [Spi(RspQuery(Orders, requestId, None, None, true))] + [Deliver(true)]
  }

  /** The query's own part, the foreign last part and its own last part, one by one. */
  lemma ForeignCallbackSteps(t: System, record: Record, id: int)
    requires t.actor.session.Some? && t.queue == [] && Accepts(Orders, Raw(record, true))
    requires id in t.pending && t.pending[id] == PendingFor(Orders)
    ensures var u := SystemStep(t, Spi(RspQuery(Orders, id, None, Some(Raw(record, true)), false)));
            var v := SystemStep(u, Spi(RspQuery(Trades, id, None, None, true)));
            var w := SystemStep(v, Spi(RspQuery(Orders, id, None, None, true)));
            && u.actor == v.actor == w.actor == t.actor
            && w.queue == [QueryReady(Trades, id, []), QueryReady(Orders, id, [])]
  {
  }

  lemma ForeignAnswerIsSkipped(w: System, id: int)
    requires w.actor.mode.Querying? && w.actor.mode.kind.Orders? && w.actor.mode.requestId == id
    requires w.queue == [QueryReady(Trades, id, []), QueryReady(Orders, id, [])]
    ensures SystemStep(w, Deliver(true)) == w.(queue := [QueryReady(Orders, id, [])])
  {
    assert w.queue[1..] == [QueryReady(Orders, id, [])];
  }

  lemma ForeignInputsKeepQuerying(t: System, record: Record)
    requires JustAsked(t) && t.actor.mode.kind.Orders? && t.queue == [] && Accepts(Orders, Raw(record, true))
    ensures var inputs := ForeignInputs(record, t.actor.mode.requestId);
            var u := SystemRun(t, inputs);
            && StillQuerying(t, inputs) && u.actor == t.actor
            && u.queue == [QueryReady(Orders, t.actor.mode.requestId, [])]
  {
    var id := t.actor.mode.requestId;
    var part := Spi(RspQuery(Orders, id, None, Some(Raw(record, true)), false));
    var foreign := Spi(RspQuery(Trades, id, None, None, true));
    var end := Spi(RspQuery(Orders, id, None, None, true));
    OneInput(t, part);
    OneMoreInput(t, [part], foreign);
    OneMoreInput(t, [part] + [foreign], end);
    OneMoreInput(t, [part] + [foreign] + [end], Deliver(true));
    ForeignCallbackSteps(t, record, id);
    ForeignAnswerIsSkipped(SystemRun(t, [part] + [foreign] + [end]), id);
  }

  lemma EmptiedReply(u: System)
    requires u.actor.mode.Querying? && u.actor.mode.kind.Orders?
    requires u.queue == [QueryReady(Orders, u.actor.mode.requestId, [])]
    ensures var v := SystemStep(u, Deliver(true));
            && v.actor.mode.Main?
            && v.actor.replies == u.actor.replies + [Reply(u.actor.mode.replyTo, QueryResult(Orders, []))]
  {
    assert RowsOf(u.actor.registry, u.actor.mode.queried, []) == [];
  }

  lemma OrdersAreAsked(s: System, accountId: AccountId, replyTo: Channel, ids: Ids)
    requires LoginStage(s.actor, ids, 5) && s.pending == map[] && s.queue == []
    ensures var t := SystemStep(s, Ask(Query(Orders, accountId, None, replyTo), true));
            && JustAsked(t) && t.actor.mode == Querying(Orders, accountId, RequestId(4), replyTo) && t.queue == []
  {
    QueryIsFresh(s, Orders, accountId, None, replyTo);
  }

  /**
   * From an empty session: log in, ask for the orders, receive one order, a last part of another kind
   * and the last part. The requester is answered with no orders at all.
   */
  lemma RequesterGetsEmptiedAnswer(accountId: AccountId, routes: map<ClientId, Channel>, replyTo: Channel, ids: Ids,
                                   record: Record)
    requires Accepts(Orders, Raw(record, true))
    ensures var start := System(Started(accountId, routes), map[], []);
            var past := LoginPast(accountId, replyTo, ids, 5);
            var t := SystemStep(SystemRun(start, past), Ask(Query(Orders, accountId, None, replyTo), true));
            var inputs := ForeignInputs(record, RequestId(4));
            && CausalRun(start, past) && LoginStage(SystemRun(start, past).actor, ids, 5) && StillQuerying(t, inputs)
            && Answer(Orders, RequestId(4), Callbacks(inputs)) == Some(QueryReady(Orders, RequestId(4), [record]))
            && SystemStep(SystemRun(t, inputs), Deliver(true)).actor.mode.Main?
            && SystemStep(SystemRun(t, inputs), Deliver(true)).actor.replies
               == t.actor.replies + [Reply(replyTo, QueryResult(Orders, []))]
  {
    LoginPastLogsIn(accountId, routes, replyTo, ids, 5);
    var s := SystemRun(System(Started(accountId, routes), map[], []), LoginPast(accountId, replyTo, ids, 5));
    var t := SystemStep(s, Ask(Query(Orders, accountId, None, replyTo), true));
    OrdersAreAsked(s, accountId, replyTo, ids);
    ForeignInputsKeepQuerying(t, record);
    EmptiedReply(SystemRun(t, ForeignInputs(record, RequestId(4))));
    ForeignCallbacks(record, RequestId(4));
    ForeignLastPartLosesRecords(record, RequestId(4));
  }

  lemma ForeignCallbacks(record: Record, requestId: int)
    ensures Callbacks(ForeignInputs(record, requestId))
            == [RspQuery(Orders, requestId, None, Some(Raw(record, true)), false)]
               + [RspQuery(Trades, requestId, None, None, true)] + [RspQuery(Orders, requestId, None, None, true)]
  {
    var part := Spi(RspQuery(Orders, requestId, None, Some(Raw(record, true)), false));
    var foreign := Spi(RspQuery(Trades, requestId, None, None, true));
    var end := Spi(RspQuery(Orders, requestId, None, None, true));
    assert [] + [part] == [part];
    CallbacksOfOneMore([], part);
    CallbacksOfOneMore([part], foreign);
    CallbacksOfOneMore([part] + [foreign], end);
    CallbacksOfOneMore([part] + [foreign] + [end], Deliver(true));
  }

  lemma CallbacksOfOneMore(inputs: seq<SystemInput>, x: SystemInput)
    ensures Callbacks(inputs + [x]) == Callbacks(inputs) + if x.Spi? then [x.callback] else []
  {
    assert (inputs + [x])[..|inputs|] == inputs;
  }

  // ---- the session's side of a request ----

  function Spis(callbacks: seq<Callback>): seq<SystemInput> {
    if callbacks == [] then [] else Spis(callbacks[..|callbacks| - 1]) + [Spi(callbacks[|callbacks| - 1])]
  }

  lemma SpisSnoc(s: System, callbacks: seq<Callback>, callback: Callback)
    requires SystemRun(s, Spis(callbacks)).actor.session.Some?
    ensures var t := SystemRun(s, Spis(callbacks));
            var (pending, events) := OnCallback(t.pending, callback);
            SystemRun(s, Spis(callbacks + [callback])) == t.(pending := pending, queue := t.queue + events)
  {
    assert (callbacks + [callback])[..|callbacks|] == callbacks;
    assert (Spis(callbacks) + [Spi(callback)])[..|Spis(callbacks)|] == Spis(callbacks);
  }

  /** The part of a trade session that issues queries and cancels. */
  class TradeSession {
    const shared: SharedState
    var issued: nat
    var calls: seq<ApiCall>

    /** The system around this session, whose account's actor is `a`. */
    ghost function Around(a: Actor): System
      reads this, shared
    {
      System(a.(session := Some(issued), calls := calls), shared.pendingQueries, shared.events)
    }

    constructor (shared: SharedState)
      ensures this.shared == shared && issued == 0 && calls == []
    {
      this.shared, issued, calls := shared, 0, [];
    }

    /** Registers the id, then makes the call; `early` are the callbacks that arrive before the call returns. */
    method Issue(call: ApiCall, entry: Pending, early: seq<Callback>, ghost after: System)
      requires call.requestId == RequestId(issued + 1) && after.actor.session.Some?
      requires after.pending == shared.pendingQueries[call.requestId := entry] && after.queue == shared.events
      modifies this, shared
      ensures issued == old(issued) + 1 && calls == old(calls) + [call]
      ensures shared.pendingQueries == SystemRun(after, Spis(early)).pending
      ensures shared.events == SystemRun(after, Spis(early)).queue
      ensures SystemRun(after, Spis(early)).actor == after.actor
    {
      issued := issued + 1;
      shared.RegisterQuery(call.requestId, entry);
      calls := calls + [call];
      for n := 0 to |early|
        invariant issued == old(issued) + 1 && calls == old(calls) + [call]
        invariant SystemRun(after, Spis(early[..n]))
                  == after.(pending := shared.pendingQueries, queue := shared.events)
      {
        SpisSnoc(after, early[..n], early[n]);
        assert early[..n + 1] == early[..n] + [early[n]];
        shared.On(early[n]);
      }
      assert early[..|early|] == early;
    }

    /**
     * The four query calls. Because the id is registered before the call, callbacks that arrive before
     * it returns have the effect they would have after it.
     */
    method Query(ghost a: Actor, kind: QueryKind, ghost queried: AccountId, instrumentId: Option<InstrumentId>,
                 ghost replyTo: Channel, early: seq<Callback>, ok: bool) returns (requestId: int)
      requires a.mode.Main? && a.ids.Some?
      modifies this, shared
      ensures requestId == RequestId(issued)
      ensures var asked := Command.Query(kind, queried, instrumentId, replyTo);
              var s := SystemRun(SystemStep(old(Around(a)), Ask(asked, ok)), Spis(early));
              Around(s.actor) == s
    {
      requestId := RequestId(issued + 1);
      var call := ReqQuery(kind, if kind.Positions? then instrumentId else None, requestId);
      Issue(call, PendingFor(kind), early,
            SystemStep(Around(a), Ask(Command.Query(kind, queried, instrumentId, replyTo), ok)));
    }

    method CancelOrder(ghost a: Actor, cancel: CancelRequest, ids: Ids, ghost replyTo: Channel,
                       early: seq<Callback>, ok: bool) returns (requestId: int)
      requires a.mode.Main? && a.ids == Some(ids)
      modifies this, shared
      ensures requestId == RequestId(issued)
      ensures var asked := Command.CancelOrder(cancel, replyTo);
              var s := SystemRun(SystemStep(old(Around(a)), Ask(asked, ok)), Spis(early));
              Around(s.actor) == s
    {
      requestId := RequestId(issued + 1);
      var orderRef := None;
      if cancel.clientOrderId.Some? {
        orderRef := Some(OrderRef.NormalizeOrderRef(cancel.clientOrderId.value));
      }
      Issue(ReqCancel(ids, orderRef, cancel.exchangeOrderId, requestId), PendingCancel, early,
            SystemStep(Around(a), Ask(Command.CancelOrder(cancel, replyTo), ok)));
    }
  }
}
