/**
 * The reconnect controller of the internal TCP client and the two tasks beside it. The reader and the
 * writer may stop between any two steps of the controller.
 */
module Reconnect {
  import opened Wrappers
  import B = Backoff

  datatype Mode = Active | Reconnecting | Closed

  /**
   * What happens to a client nobody closes. `TryConnect` is a reconnect up to the start of the new
   * reader; `MarkActive` is the rest of it, once the connect has succeeded.
   */
  datatype LinkEvent =
    | ReaderStops
    | WriterStops
    | TryConnect(clock: nat, reachable: bool)
    | MarkActive

  /**
   * `marking` says that a reconnect has started its reader and not yet marked the connection active.
   * `connects` counts TCP connects, `replays` the times the writer was handed the replay buffer.
   */
  datatype Link = Link(
    mode: Mode, reading: bool, writing: bool, marking: bool, attempts: nat, connects: nat, replays: nat)

  const FRESH := Link(Active, true, true, false, 0, 0, 0)

  // ---- the steps ----

  /** The reader's last act: begin an outage, but only if it finds the connection marked active. */
  function ReaderStep(s: Link): Link {
    if !s.reading then s
    else s.(reading := false, mode := if s.mode == Active then Reconnecting else s.mode)
  }

  predicate OverBudget(maxAttempts: Option<nat>, attempts: nat) {
    maxAttempts.Some? && attempts > maxAttempts.value
  }

  /** One reconnect, up to the new reader: refused over budget, failed without a peer or a writer to swap. */
  function Connect(maxAttempts: Option<nat>, s: Link, reachable: bool): (Link, bool) {
    var t := s.(attempts := s.attempts + 1);
    if OverBudget(maxAttempts, t.attempts) then (t, false)
    else if !reachable || !t.writing then (t.(connects := t.connects + 1), false)
    else (t.(connects := t.connects + 1, reading := true, marking := true), true)
  }

  /** The controller's turn: it closes the client when the attempt that failed was over budget. */
  function ConnectStep(maxAttempts: Option<nat>, s: Link, reachable: bool): Link {
    if s.mode != Reconnecting || s.marking then s
    else
      var (t, ok) := Connect(maxAttempts, s, reachable);
      if !ok && OverBudget(maxAttempts, t.attempts) then t.(mode := Closed) else t
  }

  /** The rest of the reconnect; the replay fails silently without a writer. */
  function MarkStep(s: Link): Link {
    if !s.marking then s
    else s.(marking := false, attempts := 0, mode := Active, replays := s.replays + if s.writing then 1 else 0)
  }

  function LinkStep(maxAttempts: Option<nat>, s: Link, event: LinkEvent): Link {
    match event
    case ReaderStops => ReaderStep(s)
    case WriterStops => s.(writing := false)
    case TryConnect(_, reachable) => ConnectStep(maxAttempts, s, reachable)
    case MarkActive => MarkStep(s)
  }

  function LinkRun(maxAttempts: Option<nat>, s: Link, events: seq<LinkEvent>): Link {
    if events == [] then s
    else LinkStep(maxAttempts, LinkRun(maxAttempts, s, events[..|events| - 1]), events[|events| - 1])
  }

  // ---- an outage that is lost ----

  /** A reconnect is under way only in an outage, and an outage has no reader but the one just started. */
  ghost predicate LinkInv(s: Link) {
    && (s.marking ==> s.mode == Reconnecting)
    && (s.mode == Reconnecting && !s.marking ==> !s.reading)
    && (s.mode == Active ==> s.attempts == 0)
  }

  lemma {:induction false} RunKeepsLink(maxAttempts: Option<nat>, s: Link, events: seq<LinkEvent>)
    requires LinkInv(s)
    ensures LinkInv(LinkRun(maxAttempts, s, events))
  {
    if events != [] {
      RunKeepsLink(maxAttempts, s, events[..|events| - 1]);
    }
  }

  /** Marked active with no reader left to begin another outage. */
  predicate IsLost(s: Link) {
    s.mode == Active && !s.reading && !s.marking
  }

  /** A reader has stopped since the connect whose mark is still due. */
  predicate StopBeforeMark(maxAttempts: Option<nat>, events: seq<LinkEvent>) {
    && events != []
    && LinkRun(maxAttempts, FRESH, events[..|events| - 1]).marking
    && !events[|events| - 1].MarkActive?
    && (events[|events| - 1].ReaderStops? || StopBeforeMark(maxAttempts, events[..|events| - 1]))
  }

  /** Some reader stopped between a successful connect and its mark, and the mark was made. */
  predicate StopInWindow(maxAttempts: Option<nat>, events: seq<LinkEvent>) {
    && events != []
    && (StopInWindow(maxAttempts, events[..|events| - 1])
        || (events[|events| - 1].MarkActive? && StopBeforeMark(maxAttempts, events[..|events| - 1])))
  }

  /** Nothing the client does leads out of a lost connection; it makes no connect any more. */
  lemma {:induction false} LostForGood(maxAttempts: Option<nat>, s: Link, events: seq<LinkEvent>)
    requires IsLost(s)
    ensures var t := LinkRun(maxAttempts, s, events);
            IsLost(t) && t.connects == s.connects && t.replays == s.replays
  {
    if events != [] {
      LostForGood(maxAttempts, s, events[..|events| - 1]);
    }
  }

  lemma {:induction false} MarkingReader(maxAttempts: Option<nat>, events: seq<LinkEvent>)
    ensures var s := LinkRun(maxAttempts, FRESH, events);
            s.marking ==> (!s.reading <==> StopBeforeMark(maxAttempts, events))
    ensures !LinkRun(maxAttempts, FRESH, events).marking ==> !StopBeforeMark(maxAttempts, events)
  {
    if events != [] {
      MarkingReader(maxAttempts, events[..|events| - 1]);
    }
  }

  /**
   * Over every run: the connection is marked active and has no reader exactly when some reader stopped
   * between a successful connect and its mark. It then found the connection not active and began no
   * outage, and no later step can.
   */
  lemma {:induction false} OutageIsLostExactly(maxAttempts: Option<nat>, events: seq<LinkEvent>)
    ensures IsLost(LinkRun(maxAttempts, FRESH, events)) <==> StopInWindow(maxAttempts, events)
  {
    if events != [] {
      var earlier := events[..|events| - 1];
      OutageIsLostExactly(maxAttempts, earlier);
      MarkingReader(maxAttempts, earlier);
      RunKeepsLink(maxAttempts, FRESH, earlier);
    }
  }

  lemma LinkRunSnoc(maxAttempts: Option<nat>, s: Link, events: seq<LinkEvent>, event: LinkEvent)
    ensures LinkRun(maxAttempts, s, events + [event])
            == LinkStep(maxAttempts, LinkRun(maxAttempts, s, events), event)
  {
    assert (events + [event])[..|events|] == events;
  }

  /** Such a run: the reader stops, a reconnect connects, its reader stops too, the mark is made. */
  lemma OutageCanBeLost(maxAttempts: Option<nat>, clock: nat)
    requires maxAttempts != Some(0)
    ensures var events := [ReaderStops] + [TryConnect(clock, true)] + [ReaderStops] + [MarkActive];
            LinkRun(maxAttempts, FRESH, events) == Link(Active, false, true, false, 0, 1, 1)
  {
    var outage: seq<LinkEvent> := [ReaderStops];
    assert [] + outage == outage;
    LinkRunSnoc(maxAttempts, FRESH, [], ReaderStops);
    LinkRunSnoc(maxAttempts, FRESH, outage, TryConnect(clock, true));
    LinkRunSnoc(maxAttempts, FRESH, outage + [TryConnect(clock, true)], ReaderStops);
    LinkRunSnoc(maxAttempts, FRESH, outage + [TryConnect(clock, true)] + [ReaderStops], MarkActive);
  }

  // ---- the budget of an outage ----

  /** An outage begins: no reader, no reconnect under way, the whole budget left. */
  predicate OutageBegins(s: Link) {
    s.mode == Reconnecting && !s.reading && !s.marking && s.attempts == 0
  }

  function Tries(events: seq<LinkEvent>): nat {
    if events == [] then 0
    else Tries(events[..|events| - 1]) + if events[|events| - 1].TryConnect? then 1 else 0
  }

  predicate WriterLasts(writing: bool, events: seq<LinkEvent>) {
    writing && WriterStops !in events
  }

  /** One of the first `m` attempts finds the peer reachable while the writer is still there. */
  predicate GetsThrough(m: nat, writing: bool, events: seq<LinkEvent>) {
    && events != []
    && var earlier, last := events[..|events| - 1], events[|events| - 1];
       || GetsThrough(m, writing, earlier)
       || (last.TryConnect? && last.reachable && WriterLasts(writing, earlier) && Tries(earlier) < m)
  }

  /** The run has connected and started a reader at some point. */
  predicate Connected(m: nat, s: Link, events: seq<LinkEvent>) {
    || LinkRun(Some(m), s, events).marking
    || (events != [] && Connected(m, s, events[..|events| - 1]))
  }

  /**
   * With a limit of `m`, whatever stops in between: an outage connects exactly when one of its first
   * `m` attempts gets through. Until it does it has made a connect for each of the first `m` attempts,
   * and the attempt after those closes the client.
   */
  lemma {:induction false} OutageLaw(m: nat, s: Link, events: seq<LinkEvent>)
    requires OutageBegins(s)
    ensures Connected(m, s, events) <==> GetsThrough(m, s.writing, events)
    ensures !GetsThrough(m, s.writing, events) ==>
              LinkRun(Some(m), s, events)
              == s.(mode := if Tries(events) > m then Closed else Reconnecting,
                    writing := WriterLasts(s.writing, events),
                    attempts := B.Min(Tries(events), m + 1),
                    connects := s.connects + B.Min(Tries(events), m))
  {
    if events != [] {
      OutageLaw(m, s, events[..|events| - 1]);
      assert events == events[..|events| - 1] + [events[|events| - 1]];
    }
  }

  predicate NoMark(events: seq<LinkEvent>) {
    MarkActive !in events
  }

  /** So an outage makes at most `m` connects before it is over, connected or closed. */
  lemma {:induction false} OutageStaysInBudget(m: nat, s: Link, events: seq<LinkEvent>)
    requires OutageBegins(s) && NoMark(events)
    ensures LinkRun(Some(m), s, events).connects <= s.connects + m
    ensures LinkRun(Some(m), s, events).connects <= s.connects + LinkRun(Some(m), s, events).attempts
    ensures LinkRun(Some(m), s, events).mode != Active
  {
    if events != [] {
      assert events == events[..|events| - 1] + [events[|events| - 1]];
      OutageStaysInBudget(m, s, events[..|events| - 1]);
    }
  }

  lemma {:induction false} NothingGetsThrough(m: nat, writing: bool, events: seq<LinkEvent>)
    requires !writing || forall e | e in events && e.TryConnect? :: !e.reachable
    ensures !GetsThrough(m, writing, events)
  {
    if events != [] {
      assert forall e | e in events[..|events| - 1] :: e in events;
      assert events[|events| - 1] in events;
      NothingGetsThrough(m, writing, events[..|events| - 1]);
    }
  }

  /** Against a peer that is never reachable, `m + 1` attempts reach `Closed` after exactly `m` connects. */
  lemma FailingOutageTerminates(m: nat, s: Link, events: seq<LinkEvent>)
    requires OutageBegins(s) && Tries(events) == m + 1
    requires forall e | e in events && e.TryConnect? :: !e.reachable
    ensures LinkRun(Some(m), s, events).mode == Closed && LinkRun(Some(m), s, events).connects == s.connects + m
  {
    NothingGetsThrough(m, s.writing, events);
    OutageLaw(m, s, events);
  }

  /**
   * A writer that has stopped is never replaced: an outage that begins without one does not connect,
   * however reachable the peer, and its attempt after the first `m` closes the client.
   */
  lemma OutageWithoutWriterCloses(m: nat, s: Link, events: seq<LinkEvent>)
    requires OutageBegins(s) && !s.writing
    ensures !Connected(m, s, events)
    ensures LinkRun(Some(m), s, events).mode == (if Tries(events) > m then Closed else Reconnecting)
    ensures LinkRun(Some(m), s, events).connects == s.connects + B.Min(Tries(events), m)
  {
    NothingGetsThrough(m, false, events);
    OutageLaw(m, s, events);
  }

  /** With or without a limit: once the writer is gone, a connection that is down stays down. */
  lemma {:induction false} NoWriterNoReturn(maxAttempts: Option<nat>, s: Link, events: seq<LinkEvent>)
    requires !s.writing && !s.marking && s.mode != Active
    ensures var t := LinkRun(maxAttempts, s, events);
            !t.writing && !t.marking && t.mode != Active && t.replays == s.replays
  {
    if events != [] {
      NoWriterNoReturn(maxAttempts, s, events[..|events| - 1]);
    }
  }

  /** A client that closed stays closed and connects no more, whatever stops or is tried. */
  lemma {:induction false} ClosedForGood(maxAttempts: Option<nat>, s: Link, events: seq<LinkEvent>)
    requires s.mode == Closed && !s.marking
    ensures var t := LinkRun(maxAttempts, s, events);
            t.mode == Closed && !t.marking && t.connects == s.connects && t.replays == s.replays
  {
    if events != [] {
      ClosedForGood(maxAttempts, s, events[..|events| - 1]);
    }
  }

  /** The reconnects completed while the writer was there. */
  function CompletedWithWriter(maxAttempts: Option<nat>, events: seq<LinkEvent>): nat {
    if events == [] then 0
    else
      var earlier, last := events[..|events| - 1], events[|events| - 1];
      CompletedWithWriter(maxAttempts, earlier)
      + if last.MarkActive? && LinkRun(maxAttempts, FRESH, earlier).marking && WriterStops !in earlier then 1 else 0
  }

  /** Over every run the buffer is replayed once for each of those, and the writer is there until it stops. */
  lemma {:induction false} ReplaysExactly(maxAttempts: Option<nat>, events: seq<LinkEvent>)
    ensures LinkRun(maxAttempts, FRESH, events).replays == CompletedWithWriter(maxAttempts, events)
    ensures LinkRun(maxAttempts, FRESH, events).writing <==> WriterStops !in events
  {
    if events != [] {
      assert events == events[..|events| - 1] + [events[|events| - 1]];
      ReplaysExactly(maxAttempts, events[..|events| - 1]);
    }
  }

  // ---- the controller ----

  class Controller {
    const maxAttempts: Option<nat>
    const backoff: B.ExponentialBackoff
    const reconnectPayloads: seq<seq<nat>>
    var mode: Mode
    var reading: bool
    var writing: bool
    /** Where the controller is: between starting a reader and marking the connection active, or not. */
    var marking: bool
    var attemptCount: nat
    /** Totals since construction: TCP connects tried and milliseconds slept. */
    var connects: nat
    var slept: nat
    /** The payloads queued for the writer, reconnect by reconnect. */
    var replayed: seq<seq<seq<nat>>>

    ghost var replays: nat

    ghost function State(): Link
      reads this
    {
      Link(mode, reading, writing, marking, attemptCount, connects, replays)
    }

    ghost predicate Valid()
      reads this, backoff
    {
      && backoff.Valid() && LinkInv(State()) && |replayed| == replays
      && forall k | 0 <= k < replays :: replayed[k] == reconnectPayloads
    }

    constructor (maxAttempts: Option<nat>, backoff: B.ExponentialBackoff, reconnectPayloads: seq<seq<nat>>)
      requires backoff.Valid()
      ensures Valid() && State() == FRESH && slept == 0
      ensures this.maxAttempts == maxAttempts && this.backoff == backoff && this.reconnectPayloads == reconnectPayloads
    {
      this.maxAttempts, this.backoff, this.reconnectPayloads := maxAttempts, backoff, reconnectPayloads;
      mode, reading, writing, attemptCount, connects, slept, replayed := Active, true, true, 0, 0, 0, [];
      marking, replays := false, 0;
    }

    /** The end of the reader task. */
    method ReaderStopped()
      requires Valid()
      modifies this`mode, this`reading
      ensures Valid() && State() == ReaderStep(old(State()))
    {
      if reading {
        reading := false;
        if mode == Active {
          mode := Reconnecting;
        }
      }
    }

    method WriterStopped()
      requires Valid()
      modifies this`writing
      ensures Valid() && State() == old(State()).(writing := false)
    {
      writing := false;
    }

    /** `reconnect` up to the start of the reader: budget, sleep, connect, swap of the writer. */
    method TryReconnect(clock: nat, reachable: bool) returns (ok: bool)
      requires Valid() && mode == Reconnecting && !marking
      modifies this, backoff
      ensures Valid() && (State(), ok) == Connect(maxAttempts, old(State()), reachable)
      ensures replayed == old(replayed)
      ensures var refused := connects == old(connects);
              && slept == old(slept) + (if refused then 0 else B.Delay(old(backoff.State()), clock))
              && backoff.State() == if refused then old(backoff.State())
                                    else B.AfterCall(old(backoff.State()), B.Next(clock))
    {
      attemptCount := attemptCount + 1;
      if maxAttempts.Some? && attemptCount > maxAttempts.value {
        return false;
      }
      var delay := backoff.NextDuration(clock);
      slept := slept + delay;
      connects := connects + 1;
      if !reachable {
        return false;
      }
      if !writing {
        return false;
      }
      reading, marking := true, true;
      ok := true;
    }

    /** The rest of `reconnect`: reset, mark active, replay the buffer if the writer still takes it. */
    method FinishReconnect()
      requires Valid() && marking
      modifies this, backoff
      ensures Valid() && State() == MarkStep(old(State())) && slept == old(slept)
      ensures backoff.State() == B.AfterCall(old(backoff.State()), B.Reset)
    {
      backoff.Reset();
      attemptCount := 0;
      mode := Active;
      marking := false;
      if writing {
        replayed := replayed + [reconnectPayloads];
        replays := replays + 1;
      }
    }

    /** One event; the controller takes its turns only when they are due. */
    method OnEvent(event: LinkEvent)
      requires Valid()
      modifies this, backoff
      ensures Valid() && State() == LinkStep(maxAttempts, old(State()), event)
      ensures old(connects) <= connects <= old(connects) + 1
      ensures slept <= old(slept) + if connects == old(connects) then 0 else backoff.delayMax + backoff.jitterMs
    {
      match event
      case ReaderStops => ReaderStopped();
      case WriterStops => WriterStopped();
      case TryConnect(clock, reachable) =>
        if mode == Reconnecting && !marking {
          B.DelayIsBounded(backoff.State(), clock);
          var ok := TryReconnect(clock, reachable);
          if !ok && maxAttempts.Some? && attemptCount > maxAttempts.value {
            mode := Closed;
          }
        }
      case MarkActive =>
        if marking {
          FinishReconnect();
        }
    }

    /**
     * The client through any events. It sleeps at most one maximal delay per connect; within one
     * outage, with a limit of m, that is at most m connects and m maximal delays.
     */
    method Serve(events: seq<LinkEvent>)
      requires Valid()
      modifies this, backoff
      ensures Valid() && State() == LinkRun(maxAttempts, old(State()), events)
      ensures old(connects) <= connects
      ensures slept <= old(slept) + (connects - old(connects)) * (backoff.delayMax + backoff.jitterMs)
      ensures maxAttempts.Some? && OutageBegins(old(State())) && NoMark(events) ==>
                && connects <= old(connects) + maxAttempts.value
                && slept <= old(slept) + maxAttempts.value * (backoff.delayMax + backoff.jitterMs)
    {
      ghost var bound: nat, made: nat := backoff.delayMax + backoff.jitterMs, 0;
      for n := 0 to |events|
        invariant Valid() && State() == LinkRun(maxAttempts, old(State()), events[..n])
        invariant connects == old(connects) + made && slept <= old(slept) + made * bound
      {
        ghost var before := made;
        assert events[..n + 1][..n] == events[..n];
        OnEvent(events[n]);
        made := connects - old(connects);
        OneMoreSleep(before, made, bound);
      }
      assert events[..|events|] == events;
      if maxAttempts.Some? && OutageBegins(old(State())) && NoMark(events) {
        OutageStaysInBudget(maxAttempts.value, old(State()), events);
        MoreConnects(made, maxAttempts.value, bound);
      }
    }
  }

  /** One more connect allows one more delay. */
  lemma OneMoreSleep(made: nat, now: nat, bound: nat)
    requires now in {made, made + 1}
    ensures now * bound == made * bound + if now == made then 0 else bound
  {
    assert (made + 1) * bound == made * bound + bound;
  }

  lemma MoreConnects(made: nat, m: nat, bound: nat)
    requires made <= m
    ensures made * bound <= m * bound
  {
    assert m * bound == made * bound + (m - made) * bound;
  }
}
