/**
 * From the shared table to the one exchange subscription: each handler changes the table under the
 * lock and sends the resulting command after releasing it, so sends of different handlers may
 * overtake each other.
 */
module SubscriptionQueue {
  import opened Wrappers
  import opened TradeTypes
  import opened SubscriptionTable

  datatype MdCommand =
    | SubscribeExchange(instruments: seq<InstrumentId>)
    | UnsubscribeExchange(instruments: seq<InstrumentId>)

  datatype Op =
    | OpSubscribe(c: ClientId, instruments: seq<InstrumentId>)
    | OpUnsubscribe(c: ClientId, instruments: seq<InstrumentId>)
    | OpDisconnect(c: ClientId)

  function NextTable(t: Table, op: Op): Table {
    match op
    case OpSubscribe(c, instruments) => Subscribe(t, c, instruments).0
    case OpUnsubscribe(c, instruments) => Unsubscribe(t, c, instruments).0
    case OpDisconnect(c) => RemoveClient(t, c)
  }

  /** `out` is what the operation asks of the exchange; a removal lists its orphans in any order. */
  ghost predicate Emits(t: Table, op: Op, out: seq<InstrumentId>) {
    match op
    case OpSubscribe(c, instruments) => out == Subscribe(t, c, instruments).1
    case OpUnsubscribe(c, instruments) => out == Unsubscribe(t, c, instruments).1
    case OpDisconnect(c) => NoDuplicates(out) && forall i :: i in out <==> i in Orphans(t, c)
  }

  function CommandFor(op: Op, out: seq<InstrumentId>): MdCommand {
    if op.OpSubscribe? then SubscribeExchange(out) else UnsubscribeExchange(out)
  }

  /** `log` lists every command in the order the table produced it. */
  datatype Desk = Desk(
    table: Table, started: bool, inFlight: seq<MdCommand>, queue: seq<MdCommand>, log: seq<MdCommand>)

  datatype DeskStep = Mutate(op: Op, out: seq<InstrumentId>) | Send(k: nat)

  const EMPTY_DESK := Desk(map[], false, [], [], [])

  ghost predicate Allowed(d: Desk, step: DeskStep) {
    match step
    case Mutate(op, out) => Emits(d.table, op, out)
    case Send(k) => k < |d.inFlight|
  }

  /** What is sent for `out`: nothing when it is empty or there is no market-data actor. */
  function Commands(started: bool, op: Op, out: seq<InstrumentId>): seq<MdCommand> {
    if out == [] || !started then [] else [CommandFor(op, out)]
  }

  /** An unsubscription that finds no market-data actor is dropped; a subscription starts the actor. */
  function DeskNext(d: Desk, step: DeskStep): Desk {
    match step
    case Mutate(op, out) =>
      var started := d.started || op.OpSubscribe?;
      var commands := Commands(started, op, out);
      d.(table := NextTable(d.table, op), started := started,
         inFlight := d.inFlight + commands, log := d.log + commands)
    case Send(k) =>
      if k < |d.inFlight|
      then d.(inFlight := d.inFlight[..k] + d.inFlight[k + 1..], queue := d.queue + [d.inFlight[k]])
      else d
  }

  function DeskRun(d: Desk, steps: seq<DeskStep>): Desk {
    if steps == [] then d else DeskNext(DeskRun(d, steps[..|steps| - 1]), steps[|steps| - 1])
  }

  ghost predicate AllowedRun(d: Desk, steps: seq<DeskStep>) {
    steps == []
    || (AllowedRun(d, steps[..|steps| - 1])
        && Allowed(DeskRun(d, steps[..|steps| - 1]), steps[|steps| - 1]))
  }

  // ---- what a sequence of commands does at the exchange ----

  function Replay(commands: seq<MdCommand>, subscribed: set<InstrumentId>): set<InstrumentId> {
    if commands == [] then subscribed
    else
      var before := Replay(commands[..|commands| - 1], subscribed);
      match commands[|commands| - 1]
      case SubscribeExchange(instruments) => before + set i | i in instruments
      case UnsubscribeExchange(instruments) => before - set i | i in instruments
  }

  /** Subscribe commands minus Unsubscribe commands for one instrument, counting repetitions. */
  function Net(commands: seq<MdCommand>, i: InstrumentId): int {
    if commands == [] then 0
    else
      var count: int := multiset(commands[|commands| - 1].instruments)[i];
      Net(commands[..|commands| - 1], i) + if commands[|commands| - 1].SubscribeExchange? then count else -count
  }

  /** The commands that mention one instrument, as true for Subscribe and false for Unsubscribe. */
  function Signs(commands: seq<MdCommand>, i: InstrumentId): seq<bool> {
    if commands == [] then []
    else
      var before := Signs(commands[..|commands| - 1], i);
      var last := commands[|commands| - 1];
      if i in last.instruments then before + [last.SubscribeExchange?] else before
  }

  ghost predicate Alternates(signs: seq<bool>) {
    forall k | 0 <= k < |signs| :: signs[k] <==> k % 2 == 0
  }

  lemma {:induction false} NetAppend(xs: seq<MdCommand>, ys: seq<MdCommand>, i: InstrumentId)
    ensures Net(xs + ys, i) == Net(xs, i) + Net(ys, i)
  {
    if ys == [] {
      assert xs + ys == xs;
    } else {
      assert (xs + ys)[..|xs + ys| - 1] == xs + ys[..|ys| - 1];
      NetAppend(xs, ys[..|ys| - 1], i);
    }
  }

  lemma {:induction false} SignsAppend(xs: seq<MdCommand>, ys: seq<MdCommand>, i: InstrumentId)
    ensures Signs(xs + ys, i) == Signs(xs, i) + Signs(ys, i)
  {
    if ys == [] {
      assert xs + ys == xs;
    } else {
      assert (xs + ys)[..|xs + ys| - 1] == xs + ys[..|ys| - 1];
      SignsAppend(xs, ys[..|ys| - 1], i);
    }
  }

  /** An instrument ends up subscribed when its last mention says so; unmentioned, it stays as it was. */
  lemma {:induction false} ReplayByLastMention(commands: seq<MdCommand>, subscribed: set<InstrumentId>, i: InstrumentId)
    ensures var signs := Signs(commands, i);
            i in Replay(commands, subscribed) <==> if signs == [] then i in subscribed else signs[|signs| - 1]
  {
    if commands != [] {
      ReplayByLastMention(commands[..|commands| - 1], subscribed, i);
    }
  }

  lemma {:induction false} MentionedExactly(commands: seq<MdCommand>, i: InstrumentId)
    ensures Signs(commands, i) == [] <==> forall k | 0 <= k < |commands| :: i !in commands[k].instruments
  {
    if commands != [] {
      MentionedExactly(commands[..|commands| - 1], i);
    }
  }

  // ---- commands as the table produces them ----

  /** Each command changes what it names: nothing is subscribed or unsubscribed twice. */
  ghost predicate Fits(subscribed: set<InstrumentId>, command: MdCommand) {
    && NoDuplicates(command.instruments)
    && forall i | i in command.instruments :: i in subscribed <==> command.UnsubscribeExchange?
  }

  ghost predicate WellFormed(commands: seq<MdCommand>) {
    commands == []
    || (WellFormed(commands[..|commands| - 1])
        && Fits(Replay(commands[..|commands| - 1], {}), commands[|commands| - 1]))
  }

  lemma {:induction false} NoDuplicatesCount(s: seq<InstrumentId>, i: InstrumentId)
    requires NoDuplicates(s)
    ensures multiset(s)[i] == if i in s then 1 else 0
  {
    if s != [] {
      var rest := s[..|s| - 1];
      assert s == rest + [s[|s| - 1]];
      NoDuplicatesCount(rest, i);
    }
  }

  lemma {:induction false} WellFormedNet(commands: seq<MdCommand>, i: InstrumentId)
    requires WellFormed(commands)
    ensures Net(commands, i) == if i in Replay(commands, {}) then 1 else 0
  {
    if commands != [] {
      WellFormedNet(commands[..|commands| - 1], i);
      NoDuplicatesCount(commands[|commands| - 1].instruments, i);
    }
  }

  lemma {:induction false} WellFormedAlternates(commands: seq<MdCommand>, i: InstrumentId)
    requires WellFormed(commands)
    ensures Alternates(Signs(commands, i))
    ensures i in Replay(commands, {}) <==> |Signs(commands, i)| % 2 == 1
  {
    if commands != [] {
      var rest, last := commands[..|commands| - 1], commands[|commands| - 1];
      WellFormedAlternates(rest, i);
      if i in last.instruments {
        assert i in Replay(rest, {}) <==> last.UnsubscribeExchange?;
        AlternatesAppend(Signs(rest, i), last.SubscribeExchange?);
      }
    }
  }

  lemma AlternatesAppend(signs: seq<bool>, sign: bool)
    requires Alternates(signs) && (sign <==> |signs| % 2 == 0)
    ensures Alternates(signs + [sign])
  {
  }

  // ---- what every run keeps ----

  ghost predicate DeskInv(d: Desk) {
    && NoEmpty(d.table)
    && (d.table.Keys != {} ==> d.started)
    && WellFormed(d.log) && Replay(d.log, {}) == d.table.Keys
    && forall i :: Net(d.queue, i) + Net(d.inFlight, i) == Net(d.log, i)
  }

  /** An operation asks for exactly the instruments that enter or leave the table. */
  lemma EmitsKeyChanges(t: Table, op: Op, out: seq<InstrumentId>)
    requires NoEmpty(t) && Emits(t, op, out)
    ensures NoEmpty(NextTable(t, op)) && Fits(t.Keys, CommandFor(op, out))
    ensures var changed := set i | i in out;
            NextTable(t, op).Keys == if op.OpSubscribe? then t.Keys + changed else t.Keys - changed
  {
    match op
    case OpSubscribe(c, instruments) =>
      SubscribeEmits(t, c, instruments);
      SubscribeAddsRows(t, c, instruments);
    case OpUnsubscribe(c, instruments) =>
      UnsubscribeEmits(t, c, instruments);
      UnsubscribeDropsRows(t, c, instruments);
    case OpDisconnect(c) =>
      RemoveClientDropsRows(t, c);
  }

  lemma AppendKeepsWellFormed(log: seq<MdCommand>, command: MdCommand)
    requires WellFormed(log) && Fits(Replay(log, {}), command)
    ensures WellFormed(log + [command])
    ensures Replay(log + [command], {}) == if command.SubscribeExchange?
                                           then Replay(log, {}) + set i | i in command.instruments
                                           else Replay(log, {}) - set i | i in command.instruments
  {
    assert (log + [command])[..|log|] == log;
  }

  lemma LogKeepsKeys(d: Desk, op: Op, out: seq<InstrumentId>)
    requires NoEmpty(d.table) && (d.table.Keys != {} ==> d.started)
    requires WellFormed(d.log) && Replay(d.log, {}) == d.table.Keys && Emits(d.table, op, out)
    ensures var e := DeskNext(d, Mutate(op, out));
            && WellFormed(e.log) && Replay(e.log, {}) == e.table.Keys
            && NoEmpty(e.table) && (e.table.Keys != {} ==> e.started)
  {
    EmitsKeyChanges(d.table, op, out);
    var e := DeskNext(d, Mutate(op, out));
    if out == [] {
      assert (set i | i in out) == {};
      assert e.log == d.log;
    } else {
      assert out[0] in out;
      assert op.OpSubscribe? || out[0] in d.table.Keys;
      assert e.log == d.log + [CommandFor(op, out)];
      AppendKeepsWellFormed(d.log, CommandFor(op, out));
    }
  }

  lemma SendKeepsNet(d: Desk, k: nat, i: InstrumentId)
    requires k < |d.inFlight|
    ensures var e := DeskNext(d, Send(k));
            Net(e.queue, i) + Net(e.inFlight, i) == Net(d.queue, i) + Net(d.inFlight, i)
  {
    var p, x, q := d.inFlight[..k], [d.inFlight[k]], d.inFlight[k + 1..];
    assert d.inFlight == p + (x + q);
    NetAppend(p, x + q, i);
    NetAppend(x, q, i);
    NetAppend(p, q, i);
    NetAppend(d.queue, x, i);
  }

  lemma StepKeepsDesk(d: Desk, step: DeskStep)
    requires DeskInv(d) && Allowed(d, step)
    ensures DeskInv(DeskNext(d, step))
  {
    var e := DeskNext(d, step);
    match step
    case Mutate(op, out) =>
      LogKeepsKeys(d, op, out);
      var added := e.log[|d.log|..];
      forall i ensures Net(e.queue, i) + Net(e.inFlight, i) == Net(e.log, i) {
        NetAppend(d.inFlight, added, i);
        NetAppend(d.log, added, i);
      }
    case Send(k) =>
      forall i ensures Net(e.queue, i) + Net(e.inFlight, i) == Net(e.log, i) {
        SendKeepsNet(d, k, i);
      }
  }

  lemma {:induction false} RunKeepsDesk(steps: seq<DeskStep>)
    requires AllowedRun(EMPTY_DESK, steps)
    ensures DeskInv(DeskRun(EMPTY_DESK, steps))
  {
    if steps != [] {
      var earlier := steps[..|steps| - 1];
      RunKeepsDesk(earlier);
      StepKeepsDesk(DeskRun(EMPTY_DESK, earlier), steps[|steps| - 1]);
    }
  }

  /**
   * However handlers interleave, Subscribe minus Unsubscribe commands emitted for an instrument,
   * sent or still in flight, is one while the instrument has a client and zero otherwise.
   */
  lemma SubscriptionsAreConserved(steps: seq<DeskStep>, i: InstrumentId)
    requires AllowedRun(EMPTY_DESK, steps)
    ensures var d := DeskRun(EMPTY_DESK, steps);
            Net(d.queue + d.inFlight, i) == if i in d.table then 1 else 0
  {
    RunKeepsDesk(steps);
    var d := DeskRun(EMPTY_DESK, steps);
    NetAppend(d.queue, d.inFlight, i);
    WellFormedNet(d.log, i);
  }

  /** The optional-actor check never drops a non-empty unsubscription. */
  lemma UnsubscriptionsAreNeverDropped(steps: seq<DeskStep>, op: Op, out: seq<InstrumentId>)
    requires AllowedRun(EMPTY_DESK, steps)
    requires Emits(DeskRun(EMPTY_DESK, steps).table, op, out) && out != []
    ensures var d := DeskRun(EMPTY_DESK, steps);
            DeskNext(d, Mutate(op, out)).inFlight == d.inFlight + [CommandFor(op, out)]
  {
    RunKeepsDesk(steps);
    var d := DeskRun(EMPTY_DESK, steps);
    EmitsKeyChanges(d.table, op, out);
    assert out[0] in out;
    assert op.OpSubscribe? || out[0] in d.table.Keys;
  }

  // ---- sends in mutation order ----

  /** No send overtakes an earlier one; mutate and send back to back is the special case. */
  ghost predicate InOrder(steps: seq<DeskStep>) {
    forall n | 0 <= n < |steps| && steps[n].Send? :: steps[n].k == 0
  }

  lemma {:induction false} InOrderQueueIsLog(d: Desk, steps: seq<DeskStep>)
    requires d.queue + d.inFlight == d.log && InOrder(steps)
    ensures var e := DeskRun(d, steps); e.queue + e.inFlight == e.log
  {
    if steps != [] {
      InOrderQueueIsLog(d, steps[..|steps| - 1]);
      InOrderStep(DeskRun(d, steps[..|steps| - 1]), steps[|steps| - 1]);
    }
  }

  lemma AppendBehind(queue: seq<MdCommand>, inFlight: seq<MdCommand>, added: seq<MdCommand>)
    ensures queue + (inFlight + added) == (queue + inFlight) + added
  {
  }

  lemma SendFirst(queue: seq<MdCommand>, inFlight: seq<MdCommand>)
    requires inFlight != []
    ensures (queue + [inFlight[0]]) + (inFlight[..0] + inFlight[1..]) == queue + inFlight
  {
  }

  lemma InOrderStep(d: Desk, step: DeskStep)
    requires d.queue + d.inFlight == d.log && (step.Send? ==> step.k == 0)
    ensures var e := DeskNext(d, step); e.queue + e.inFlight == e.log
  {
    match step
    case Mutate(op, out) => AppendBehind(d.queue, d.inFlight, Commands(d.started || op.OpSubscribe?, op, out));
    case Send(_) =>
      if d.inFlight != [] {
        SendFirst(d.queue, d.inFlight);
      }
  }

  /**
   * With sends in mutation order the commands for each instrument alternate Subscribe, Unsubscribe,
   * and replaying them all on an empty exchange gives exactly the instruments of the table.
   */
  lemma InOrderReplayIsTable(steps: seq<DeskStep>)
    requires AllowedRun(EMPTY_DESK, steps) && InOrder(steps)
    ensures var d := DeskRun(EMPTY_DESK, steps);
            && Replay(d.queue + d.inFlight, {}) == d.table.Keys
            && forall i :: Alternates(Signs(d.queue + d.inFlight, i))
  {
    RunKeepsDesk(steps);
    InOrderQueueIsLog(EMPTY_DESK, steps);
    var d := DeskRun(EMPTY_DESK, steps);
    forall i ensures Alternates(Signs(d.log, i)) {
      WellFormedAlternates(d.log, i);
    }
  }

  // ---- a send that overtakes ----

  /** The kind of the last command that names an instrument: true for Subscribe, false for Unsubscribe. */
  function LastKind(commands: seq<MdCommand>, i: InstrumentId): Option<bool> {
    var signs := Signs(commands, i);
    if signs == [] then None else Some(signs[|signs| - 1])
  }

  lemma LastKindAppend(xs: seq<MdCommand>, ys: seq<MdCommand>, i: InstrumentId)
    ensures LastKind(xs + ys, i) == if LastKind(ys, i).Some? then LastKind(ys, i) else LastKind(xs, i)
  {
    SignsAppend(xs, ys, i);
  }

  lemma LastKindOfOne(command: MdCommand, i: InstrumentId)
    ensures LastKind([command], i) == if i in command.instruments then Some(command.SubscribeExchange?) else None
  {
    var one := [command];
    assert Signs(one[..0], i) == [];
    assert Signs(one, i) == if i in command.instruments then [command.SubscribeExchange?] else [];
  }

  lemma LastKindDecides(commands: seq<MdCommand>, subscribed: set<InstrumentId>, i: InstrumentId)
    ensures i in Replay(commands, subscribed) <==> LastKind(commands, i).GetOr(i in subscribed)
  {
    ReplayByLastMention(commands, subscribed, i);
  }

  /**
   * Sending `p[k]` ahead of `p[..k]` is harmless for `i`: it does not name it, or no overtaken command
   * does, or the last of those that do is of its kind, or a command behind it names `i`.
   */
  ghost predicate HarmlessFor(p: seq<MdCommand>, k: nat, i: InstrumentId)
    requires k < |p|
  {
    || i !in p[k].instruments
    || LastKind(p[..k], i).None?
    || LastKind(p[..k], i) == Some(p[k].SubscribeExchange?)
    || LastKind(p[k + 1..], i).Some?
  }

  lemma LastKindAround(queue: seq<MdCommand>, a: seq<MdCommand>, x: MdCommand, b: seq<MdCommand>, i: InstrumentId)
    ensures LastKind(queue + (a + [x] + b), i)
            == if LastKind(b, i).Some? then LastKind(b, i) else if i in x.instruments then Some(x.SubscribeExchange?)
               else if LastKind(a, i).Some? then LastKind(a, i) else LastKind(queue, i)
    ensures LastKind(queue + [x] + (a + b), i)
            == if LastKind(b, i).Some? then LastKind(b, i) else if LastKind(a, i).Some? then LastKind(a, i)
               else if i in x.instruments then Some(x.SubscribeExchange?) else LastKind(queue, i)
  {
    LastKindOfOne(x, i);
    LastKindAppend(queue, a + [x] + b, i);
    LastKindAppend(a + [x], b, i);
    LastKindAppend(a, [x], i);
    LastKindAppend(queue + [x], a + b, i);
    LastKindAppend(a, b, i);
    LastKindAppend(queue, [x], i);
  }

  lemma OvertakingFor(queue: seq<MdCommand>, p: seq<MdCommand>, k: nat, subscribed: set<InstrumentId>, i: InstrumentId)
    requires k < |p|
    ensures (i in Replay(queue + [p[k]] + (p[..k] + p[k + 1..]), subscribed) <==> i in Replay(queue + p, subscribed))
            <==> HarmlessFor(p, k, i)
  {
    assert p == p[..k] + [p[k]] + p[k + 1..];
    LastKindAround(queue, p[..k], p[k], p[k + 1..], i);
    LastKindDecides(queue + p, subscribed, i);
    LastKindDecides(queue + [p[k]] + (p[..k] + p[k + 1..]), subscribed, i);
  }

  /**
   * Exactly when a send may overtake earlier ones without changing what the exchange ends up with,
   * whatever was sent before and in whatever order: it is harmless for each instrument it names.
   */
  lemma OvertakingIsHarmlessExactly(queue: seq<MdCommand>, p: seq<MdCommand>, k: nat, subscribed: set<InstrumentId>)
    requires k < |p|
    ensures Replay(queue + [p[k]] + (p[..k] + p[k + 1..]), subscribed) == Replay(queue + p, subscribed)
            <==> forall i | i in p[k].instruments :: HarmlessFor(p, k, i)
  {
    forall i
      ensures (i in Replay(queue + [p[k]] + (p[..k] + p[k + 1..]), subscribed) <==> i in Replay(queue + p, subscribed))
              <==> HarmlessFor(p, k, i)
    {
      OvertakingFor(queue, p, k, subscribed, i);
    }
  }

  /** The same of a desk: sending command `k` next, and the rest in order after it. */
  lemma SendIsHarmlessExactly(d: Desk, k: nat)
    requires k < |d.inFlight|
    ensures var e := DeskNext(d, Send(k));
            Replay(e.queue + e.inFlight, {}) == Replay(d.queue + d.inFlight, {})
            <==> forall i | i in d.inFlight[k].instruments :: HarmlessFor(d.inFlight, k, i)
  {
    OvertakingIsHarmlessExactly(d.queue, d.inFlight, k, {});
  }

  // ---- what any order of sends ends in ----

  /** Sending moves commands; none is lost, invented or doubled. */
  ghost predicate SameCommands(d: Desk) {
    multiset(d.queue + d.inFlight) == multiset(d.log)
  }

  lemma MovedCommands(queue: seq<MdCommand>, p: seq<MdCommand>, k: nat)
    requires k < |p|
    ensures multiset(queue + [p[k]] + (p[..k] + p[k + 1..])) == multiset(queue + p)
  {
    assert p == p[..k] + [p[k]] + p[k + 1..];
  }

  lemma StepKeepsCommands(d: Desk, step: DeskStep)
    requires SameCommands(d)
    ensures SameCommands(DeskNext(d, step))
  {
    match step
    case Mutate(op, out) => AppendBehind(d.queue, d.inFlight, Commands(d.started || op.OpSubscribe?, op, out));
    case Send(k) =>
      if k < |d.inFlight| {
        MovedCommands(d.queue, d.inFlight, k);
      }
  }

  lemma {:induction false} RunKeepsCommands(d: Desk, steps: seq<DeskStep>)
    requires SameCommands(d)
    ensures SameCommands(DeskRun(d, steps))
  {
    if steps != [] {
      RunKeepsCommands(d, steps[..|steps| - 1]);
      StepKeepsCommands(DeskRun(d, steps[..|steps| - 1]), steps[|steps| - 1]);
    }
  }

  /** The same commands in another order name the same instruments. */
  lemma SameCommandsNameTheSame(xs: seq<MdCommand>, ys: seq<MdCommand>, i: InstrumentId)
    requires multiset(xs) == multiset(ys)
    ensures LastKind(xs, i).None? <==> LastKind(ys, i).None?
  {
    MentionedExactly(xs, i);
    MentionedExactly(ys, i);
    assert forall c :: c in xs <==> c in multiset(xs);
    assert forall c :: c in ys <==> c in multiset(ys);
    assert (forall k | 0 <= k < |xs| :: i !in xs[k].instruments) <==> (forall c | c in xs :: i !in c.instruments);
    assert (forall k | 0 <= k < |ys| :: i !in ys[k].instruments) <==> (forall c | c in ys :: i !in c.instruments);
  }

  /** What was sent and is in flight gives an instrument the state the table gives it. */
  ghost predicate Settles(d: Desk, i: InstrumentId) {
    i in Replay(d.queue + d.inFlight, {}) <==> i in d.table
  }

  lemma DeskSettlesFor(d: Desk, i: InstrumentId)
    requires DeskInv(d) && SameCommands(d)
    ensures Settles(d, i) <==> LastKind(d.queue + d.inFlight, i) == LastKind(d.log, i)
  {
    LastKindDecides(d.queue + d.inFlight, {}, i);
    LastKindDecides(d.log, {}, i);
    SameCommandsNameTheSame(d.queue + d.inFlight, d.log, i);
  }

  /**
   * Over every interleaving, sends in any order: an instrument ends up subscribed at the exchange
   * exactly when it has clients if and only if the last command sent that names it is of the kind of
   * the last one the table produced (or none names it). So the whole subscription is the table
   * exactly when the two orders agree on the last kind for every instrument.
   */
  lemma SettledExactly(steps: seq<DeskStep>)
    requires AllowedRun(EMPTY_DESK, steps)
    ensures var d := DeskRun(EMPTY_DESK, steps);
            && (forall i :: Settles(d, i) <==> LastKind(d.queue + d.inFlight, i) == LastKind(d.log, i))
            && (Replay(d.queue + d.inFlight, {}) == d.table.Keys <==> forall i :: Settles(d, i))
  {
    RunKeepsDesk(steps);
    RunKeepsCommands(EMPTY_DESK, steps);
    var d := DeskRun(EMPTY_DESK, steps);
    forall i ensures Settles(d, i) <==> LastKind(d.queue + d.inFlight, i) == LastKind(d.log, i) {
      DeskSettlesFor(d, i);
    }
    assert forall i :: Settles(d, i) <==> (i in Replay(d.queue + d.inFlight, {}) <==> i in d.table.Keys);
  }

  // ---- the race that leaves an instrument out ----

  function CrossedStepAt(a: ClientId, b: ClientId, i: InstrumentId, n: nat): DeskStep
    requires n < 6
  {
    match n
    case 0 => Mutate(OpSubscribe(a, [i]), [i])
    case 1 => Send(0)
    case 2 => Mutate(OpUnsubscribe(a, [i]), [i])
    case 3 => Mutate(OpSubscribe(b, [i]), [i])
    case 4 => Send(1)
    case 5 => Send(0)
  }

  /** One client subscribes and leaves as another joins; the last two sends cross. */
  function CrossedSteps(a: ClientId, b: ClientId, i: InstrumentId, n: nat): seq<DeskStep>
    requires n <= 6
  {
    if n == 0 then [] else CrossedSteps(a, b, i, n - 1) + [CrossedStepAt(a, b, i, n - 1)]
  }

  /** The desk after `n` of those steps. */
  function CrossedDesk(a: ClientId, b: ClientId, i: InstrumentId, n: nat): Desk
    requires n <= 6
  {
    var sub, unsub := SubscribeExchange([i]), UnsubscribeExchange([i]);
    match n
    case 0 => EMPTY_DESK
    case 1 => Desk(map[i := {a}], true, [sub], [], [sub])
    case 2 => Desk(map[i := {a}], true, [], [sub], [sub])
    case 3 => Desk(map[], true, [unsub], [sub], [sub, unsub])
    case 4 => Desk(map[i := {b}], true, [unsub, sub], [sub], [sub, unsub, sub])
    case 5 => Desk(map[i := {b}], true, [unsub], [sub, sub], [sub, unsub, sub])
    case 6 => Desk(map[i := {b}], true, [], [sub, sub, unsub], [sub, unsub, sub])
  }

  lemma FirstSubscriber(d: Desk, c: ClientId, i: InstrumentId)
    requires i !in d.table
    ensures var command := SubscribeExchange([i]);
            && Allowed(d, Mutate(OpSubscribe(c, [i]), [i]))
            && DeskNext(d, Mutate(OpSubscribe(c, [i]), [i]))
               == Desk(d.table[i := {c}], true, d.inFlight + [command], d.queue, d.log + [command])
  {
    OneInstrument(d.table, c, i);
    assert {} + {c} == {c};
  }

  lemma LastSubscriber(d: Desk, c: ClientId, i: InstrumentId)
    requires d.started && i in d.table && d.table[i] == {c}
    ensures var command := UnsubscribeExchange([i]);
            && Allowed(d, Mutate(OpUnsubscribe(c, [i]), [i]))
            && DeskNext(d, Mutate(OpUnsubscribe(c, [i]), [i]))
               == Desk(d.table - {i}, true, d.inFlight + [command], d.queue, d.log + [command])
  {
    OneInstrument(d.table, c, i);
    assert {c} - {c} == {};
  }

  lemma CrossedMutation(a: ClientId, b: ClientId, i: InstrumentId, n: nat)
    requires n in {0, 2, 3}
    ensures Allowed(CrossedDesk(a, b, i, n), CrossedStepAt(a, b, i, n))
    ensures DeskNext(CrossedDesk(a, b, i, n), CrossedStepAt(a, b, i, n)) == CrossedDesk(a, b, i, n + 1)
  {
    var d := CrossedDesk(a, b, i, n);
    if n == 0 {
      FirstSubscriber(d, a, i);
    } else if n == 2 {
      LastSubscriber(d, a, i);
      assert d.table - {i} == map[];
    } else {
      FirstSubscriber(d, b, i);
    }
  }

  lemma CrossedSend(a: ClientId, b: ClientId, i: InstrumentId, n: nat)
    requires n in {1, 4, 5}
    ensures Allowed(CrossedDesk(a, b, i, n), CrossedStepAt(a, b, i, n))
    ensures DeskNext(CrossedDesk(a, b, i, n), CrossedStepAt(a, b, i, n)) == CrossedDesk(a, b, i, n + 1)
  {
    var d := CrossedDesk(a, b, i, n);
    if n == 4 {
      assert d.inFlight[..1] + d.inFlight[2..] == [UnsubscribeExchange([i])];
    } else {
      assert d.inFlight[..0] + d.inFlight[1..] == [];
    }
  }

  lemma {:induction false} CrossedRun(a: ClientId, b: ClientId, i: InstrumentId, n: nat)
    requires n <= 6
    ensures DeskRun(EMPTY_DESK, CrossedSteps(a, b, i, n)) == CrossedDesk(a, b, i, n)
    ensures AllowedRun(EMPTY_DESK, CrossedSteps(a, b, i, n))
  {
    if n > 0 {
      CrossedRun(a, b, i, n - 1);
      if n - 1 in {0, 2, 3} {
        CrossedMutation(a, b, i, n - 1);
      } else {
        CrossedSend(a, b, i, n - 1);
      }
      StepsOf(EMPTY_DESK, CrossedSteps(a, b, i, n - 1), CrossedStepAt(a, b, i, n - 1));
    }
  }

  /** The race in the handlers: one client leaves an instrument as another joins, and the sends cross. */
  lemma CrossedSendsLoseInstrument(a: ClientId, b: ClientId, i: InstrumentId)
    ensures AllowedRun(EMPTY_DESK, CrossedSteps(a, b, i, 6))
    ensures var d := DeskRun(EMPTY_DESK, CrossedSteps(a, b, i, 6));
            d.inFlight == [] && i in d.table && i !in Replay(d.queue, {})
  {
    CrossedRun(a, b, i, 6);
    UnsubscribedLast(CrossedDesk(a, b, i, 6).queue, i);
  }

  lemma UnsubscribedLast(queue: seq<MdCommand>, i: InstrumentId)
    requires queue != [] && queue[|queue| - 1] == UnsubscribeExchange([i])
    ensures i !in Replay(queue, {})
  {
    assert i in queue[|queue| - 1].instruments;
  }

  lemma OneInstrument(t: Table, c: ClientId, i: InstrumentId)
    ensures Subscribe(t, c, [i]) == (SubscribeOne(t, c, i).0, if SubscribeOne(t, c, i).1 then [i] else [])
    ensures Unsubscribe(t, c, [i]) == (UnsubscribeOne(t, c, i).0, if UnsubscribeOne(t, c, i).1 then [i] else [])
  {
    var one: seq<InstrumentId> := [i];
    assert one[..0] == [] && [] + one == one;
    assert Subscribe(t, c, one[..0]) == (t, []) && Unsubscribe(t, c, one[..0]) == (t, []);
  }

  lemma StepsOf(d: Desk, steps: seq<DeskStep>, step: DeskStep)
    ensures DeskRun(d, steps + [step]) == DeskNext(DeskRun(d, steps), step)
    ensures AllowedRun(d, steps + [step]) <==> AllowedRun(d, steps) && Allowed(DeskRun(d, steps), step)
  {
    assert (steps + [step])[..|steps|] == steps;
  }
}
