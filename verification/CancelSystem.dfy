/** A cancel end to end, from the exchange's callbacks to what the requester is told. */
module CancelSystem {
  import opened Wrappers
  import opened TradeTypes
  import opened TradeActor
  import opened QueryDemux
  import opened TradeSystem
  import TradeRuns

  /** The return of the order a cancel names, in a state that leaves nothing to cancel. */
  predicate ClosesOrder(cancel: CancelRequest, report: OrderReport) {
    && (report.status == Cancelled || report.status == Filled || report.status == Rejected)
    && (cancel.clientOrderId == Some(report.clientOrderId)
        || (cancel.exchangeOrderId.Some? && cancel.exchangeOrderId == report.exchangeOrderId))
  }

  /** The events other than its own answer that end a cancel. */
  predicate Overtakes(cancel: CancelRequest, event: Event) {
    (event.OrderReturn? && ClosesOrder(cancel, event.order)) || event.FrontDisconnected?
  }

  /** The callbacks that end a cancel: its own answer, the closing return, a disconnect. */
  predicate EndsCancel(cancel: CancelRequest, requestId: int, callback: Callback) {
    match callback
    case RspOrderAction(id, _) => id == requestId
    case Direct(event) => Overtakes(cancel, event)
    case RspQuery(_, _, _, _, _) => false
  }

  ghost predicate FirstCancelEnd(cancel: CancelRequest, requestId: int, callbacks: seq<Callback>, n: nat) {
    && n < |callbacks| && EndsCancel(cancel, requestId, callbacks[n])
    && forall i | 0 <= i < n :: !EndsCancel(cancel, requestId, callbacks[i])
  }

  /** A cancel was just issued, and nothing queued answers its request. */
  ghost predicate JustCancelled(s: System) {
    && s.actor.mode.Cancelling? && s.actor.session.Some?
    && forall e | e in s.queue :: EventId(e) != Some(s.actor.mode.requestId)
  }

  ghost predicate StillCancelling(s: System, inputs: seq<SystemInput>) {
    SystemRun(s, inputs).actor.mode.Cancelling? && (inputs == [] || StillCancelling(s, inputs[..|inputs| - 1]))
  }

  // ---- the first event that ends the cancel ----

  function FirstDone(queue: seq<Event>, cancel: CancelRequest, requestId: int): Option<Event> {
    if queue == [] then None
    else if TradeRuns.CancelDone(cancel, requestId, queue[0]) then Some(queue[0])
    else FirstDone(queue[1..], cancel, requestId)
  }

  lemma {:induction false} FirstDoneAppend(queue: seq<Event>, events: seq<Event>, cancel: CancelRequest, requestId: int)
    ensures FirstDone(queue + events, cancel, requestId)
            == if FirstDone(queue, cancel, requestId).Some? then FirstDone(queue, cancel, requestId)
               else FirstDone(events, cancel, requestId)
  {
    if queue == [] {
      assert queue + events == events;
    } else {
      assert (queue + events)[1..] == queue[1..] + events;
      FirstDoneAppend(queue[1..], events, cancel, requestId);
    }
  }

  /** The event a callback that ends the cancel hands to the actor. */
  function EventOf(requestId: int, callback: Callback): Event
    requires callback.RspOrderAction? || callback.Direct?
  {
    match callback
    case Direct(event) => event
    case RspOrderAction(_, error) =>
      if error.Some? then CancelActionFailed(requestId, error.value) else CancelActionOk(requestId)
  }

  lemma EmittedEnd(pending: PendingMap, callback: Callback, cancel: CancelRequest, requestId: int)
    ensures FirstDone(OnCallback(pending, callback).1, cancel, requestId)
            == if EndsCancel(cancel, requestId, callback) then Some(EventOf(requestId, callback)) else None
  {
    var events := OnCallback(pending, callback).1;
    assert events == [] || events == [events[0]];
    assert events != [] ==> events[1..] == [];
  }

  /** The event that is to end the cancel: one already queued, else that of the first callback that ends it. */
  function Due(queue: seq<Event>, cancel: CancelRequest, requestId: int, callbacks: seq<Callback>): Option<Event> {
    if callbacks == [] then FirstDone(queue, cancel, requestId)
    else
      var earlier := Due(queue, cancel, requestId, callbacks[..|callbacks| - 1]);
      var last := callbacks[|callbacks| - 1];
      if earlier.Some? then earlier
      else if EndsCancel(cancel, requestId, last) then Some(EventOf(requestId, last)) else None
  }

  lemma CancelLoopStep(a: Actor, event: Event, ok: bool)
    requires a.mode.Cancelling?
    ensures var b := Step(a, FromExchange(event, ok));
            if TradeRuns.CancelDone(a.mode.cancel, a.mode.requestId, event) then b.mode.Main?
            else b.mode == a.mode && b.replies == a.replies && b.session == a.session
  {
  }

  lemma {:induction false} CancelStaysDue(s: System, inputs: seq<SystemInput>)
    requires JustCancelled(s) && StillCancelling(s, inputs)
    ensures var t := SystemRun(s, inputs);
            && t.actor.mode == s.actor.mode && t.actor.replies == s.actor.replies && t.actor.session == s.actor.session
            && FirstDone(t.queue, s.actor.mode.cancel, s.actor.mode.requestId)
               == Due(s.queue, s.actor.mode.cancel, s.actor.mode.requestId, Callbacks(inputs))
  {
    if inputs != [] {
      var earlier, last := inputs[..|inputs| - 1], inputs[|inputs| - 1];
      CancelStaysDue(s, earlier);
      var t := SystemRun(s, earlier);
      assert SystemStep(t, last).actor.mode.Cancelling?;
      match last
      case Spi(callback) => SpiStaysDue(s, t, Callbacks(earlier), callback);
      case Deliver(ok) =>
        if t.queue != [] {
          CancelLoopStep(t.actor, t.queue[0], ok);
        }
      case _ =>
    }
  }

  lemma SpiStaysDue(s: System, t: System, callbacks: seq<Callback>, callback: Callback)
    requires s.actor.mode.Cancelling? && t.actor.session.Some?
    requires FirstDone(t.queue, s.actor.mode.cancel, s.actor.mode.requestId)
             == Due(s.queue, s.actor.mode.cancel, s.actor.mode.requestId, callbacks)
    ensures FirstDone(SystemStep(t, Spi(callback)).queue, s.actor.mode.cancel, s.actor.mode.requestId)
            == Due(s.queue, s.actor.mode.cancel, s.actor.mode.requestId, callbacks + [callback])
  {
    var mode := s.actor.mode;
    assert (callbacks + [callback])[..|callbacks|] == callbacks;
    FirstDoneAppend(t.queue, OnCallback(t.pending, callback).1, mode.cancel, mode.requestId);
    EmittedEnd(t.pending, callback, mode.cancel, mode.requestId);
  }

  // ---- what the requester hears ----

  lemma {:induction false} QueuedIsDue(queue: seq<Event>, cancel: CancelRequest, requestId: int)
    requires forall e | e in queue :: EventId(e) != Some(requestId)
    ensures match FirstDone(queue, cancel, requestId)
            case Some(event) => event in queue && Overtakes(cancel, event)
            case None => forall e | e in queue :: !Overtakes(cancel, e)
  {
    if queue != [] {
      assert EventId(queue[0]) != Some(requestId);
      QueuedIsDue(queue[1..], cancel, requestId);
    }
  }

  lemma {:induction false} DueIsFirst(queue: seq<Event>, cancel: CancelRequest, requestId: int,
                                      callbacks: seq<Callback>)
    ensures var due := Due(queue, cancel, requestId, callbacks);
            if FirstDone(queue, cancel, requestId).Some? then due == FirstDone(queue, cancel, requestId)
            else if due.Some? then
              exists n: nat :: FirstCancelEnd(cancel, requestId, callbacks, n)
                               && due.value == EventOf(requestId, callbacks[n])
            else forall i | 0 <= i < |callbacks| :: !EndsCancel(cancel, requestId, callbacks[i])
  {
    if callbacks != [] {
      var earlier := callbacks[..|callbacks| - 1];
      DueIsFirst(queue, cancel, requestId, earlier);
      if FirstDone(queue, cancel, requestId).None? {
        if Due(queue, cancel, requestId, earlier).Some? {
          var n: nat :| FirstCancelEnd(cancel, requestId, earlier, n)
                   && Due(queue, cancel, requestId, earlier).value == EventOf(requestId, earlier[n]);
          assert FirstCancelEnd(cancel, requestId, callbacks, n);
        } else if EndsCancel(cancel, requestId, callbacks[|callbacks| - 1]) {
          assert FirstCancelEnd(cancel, requestId, callbacks, |callbacks| - 1);
        }
      }
    }
  }

  /** The replies that the end of a cancel adds, by what ended it. */
  ghost predicate Heard(s: System, callbacks: seq<Callback>, after: seq<Reply>)
    requires s.actor.mode.Cancelling?
  {
    var Cancelling(cancel, requestId, replyTo) := s.actor.mode;
    if exists e :: e in s.queue && Overtakes(cancel, e) then after == s.actor.replies
    else exists n: nat :: FirstCancelEnd(cancel, requestId, callbacks, n)
           && after == s.actor.replies + match callbacks[n]
                                         case RspOrderAction(_, Some(error)) => [Reply(replyTo, ErrorResponse(error))]
                                         case _ => []
  }

  lemma CancelEnds(a: Actor, event: Event, ok: bool)
    requires a.mode.Cancelling? && TradeRuns.CancelDone(a.mode.cancel, a.mode.requestId, event)
    ensures Step(a, FromExchange(event, ok)).replies
            == a.replies + if event.CancelActionFailed? then [Reply(a.mode.replyTo, ErrorResponse(event.error))] else []
  {
  }

  lemma OnlyDeliveryEndsCancel(t: System, last: SystemInput)
    requires t.actor.mode.Cancelling? && !SystemStep(t, last).actor.mode.Cancelling?
    ensures last.Deliver? && t.queue != []
    ensures TradeRuns.CancelDone(t.actor.mode.cancel, t.actor.mode.requestId, t.queue[0])
    ensures SystemStep(t, last).actor == Step(t.actor, FromExchange(t.queue[0], last.ok))
  {
    if last.Deliver? && t.queue != [] {
      CancelLoopStep(t.actor, t.queue[0], last.ok);
    }
  }

  /**
   * However callbacks, deliveries and offered commands interleave: unless a closing return or a
   * disconnect was queued before it, the first callback that ends a cancel decides what its requester
   * hears. That is the exchange's error if the callback refuses the cancel, and nothing if it accepts
   * it, returns the order in a closing state, or reports a disconnect.
   */
  lemma CancelReplyContents(s: System, inputs: seq<SystemInput>, last: SystemInput)
    requires JustCancelled(s) && StillCancelling(s, inputs)
    requires !SystemStep(SystemRun(s, inputs), last).actor.mode.Cancelling?
    ensures Heard(s, Callbacks(inputs), SystemStep(SystemRun(s, inputs), last).actor.replies)
  {
    var Cancelling(cancel, requestId, replyTo) := s.actor.mode;
    CancelStaysDue(s, inputs);
    var t := SystemRun(s, inputs);
    OnlyDeliveryEndsCancel(t, last);
    CancelEnds(t.actor, t.queue[0], last.ok);
    QueuedIsDue(s.queue, cancel, requestId);
    DueIsFirst(s.queue, cancel, requestId, Callbacks(inputs));
    assert Due(s.queue, cancel, requestId, Callbacks(inputs)) == Some(t.queue[0]);
  }

  /** In every causal run of at most 2^32 requests, an accepted cancel starts out fresh. */
  lemma CancelIsFresh(s: System, cancel: CancelRequest, replyTo: Channel)
    requires QueueIssued(s) && s.actor.mode.Main? && s.actor.ids.Some? && s.actor.session.Some?
    requires s.actor.session.value + 1 <= TWO_32
    ensures var t := SystemStep(s, Ask(CancelOrder(cancel, replyTo), true));
            && JustCancelled(t) && t.actor.mode == Cancelling(cancel, NextId(s.actor), replyTo)
            && t.actor.replies == s.actor.replies && t.queue == s.queue
            && t.pending == s.pending[NextId(s.actor) := PendingCancel]
  {
    var n := s.actor.session.value;
    forall e | e in s.queue ensures EventId(e) != Some(RequestId(n + 1)) {
      if EventId(e).Some? {
        var m: nat :| 1 <= m <= n && EventId(e).value == RequestId(m);
        TradeRuns.RequestIdsCollideExactly(m, n + 1);
      }
    }
  }

  /** End to end: the same from an empty session, through any causal past of at most 2^32 requests. */
  lemma CancelEndToEnd(accountId: AccountId, routes: map<ClientId, Channel>, past: seq<SystemInput>,
                       cancel: CancelRequest, replyTo: Channel, inputs: seq<SystemInput>, last: SystemInput)
    requires CausalRun(System(Started(accountId, routes), map[], []), past)
    requires var s := SystemRun(System(Started(accountId, routes), map[], []), past);
             var t := SystemStep(s, Ask(CancelOrder(cancel, replyTo), true));
             && s.actor.mode.Main? && s.actor.ids.Some?
             && (s.actor.session.Some? ==> s.actor.session.value + 1 <= TWO_32)
             && StillCancelling(t, inputs) && !SystemStep(SystemRun(t, inputs), last).actor.mode.Cancelling?
    ensures var s := SystemRun(System(Started(accountId, routes), map[], []), past);
            var t := SystemStep(s, Ask(CancelOrder(cancel, replyTo), true));
            && t.actor.mode == Cancelling(cancel, NextId(s.actor), replyTo) && t.actor.replies == s.actor.replies
            && Heard(t, Callbacks(inputs), SystemStep(SystemRun(t, inputs), last).actor.replies)
  {
    RunQueueIssued(System(Started(accountId, routes), map[], []), past);
    var s := SystemRun(System(Started(accountId, routes), map[], []), past);
    CancelIsFresh(s, cancel, replyTo);
    CancelReplyContents(SystemStep(s, Ask(CancelOrder(cancel, replyTo), true)), inputs, last);
  }
}
