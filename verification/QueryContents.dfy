/**
 * What a query's requester is told, read off the exchange's callbacks one by one: which records, in
 * which order, in which rows.
 */
module QueryContents {
  import opened Wrappers
  import opened Selection
  import opened TradeTypes
  import opened TradeActor
  import opened QueryDemux
  import opened TradeSystem
  import OrderRef

  /** A part of the query's own answer that closes it. */
  predicate EndsQuery(kind: QueryKind, requestId: int, callback: Callback) {
    && callback.RspQuery? && callback.requestId == requestId && callback.kind == kind
    && (callback.error.Some? || callback.isLast)
  }

  ghost predicate FirstQueryEnd(kind: QueryKind, requestId: int, callbacks: seq<Callback>, n: nat) {
    && n < |callbacks| && EndsQuery(kind, requestId, callbacks[n])
    && forall i | 0 <= i < n :: !EndsQuery(kind, requestId, callbacks[i])
  }

  /** A part of the query's own answer with a record to show: one that translates, and no empty position. */
  predicate HasRow(kind: QueryKind, requestId: int, callback: Callback) {
    && callback.RspQuery? && callback.requestId == requestId && callback.kind == kind && callback.error.None?
    && callback.raw.Some? && callback.raw.value.mapped
    && (kind.Positions? ==>
          callback.raw.value.record.PositionRecord? && callback.raw.value.record.position.volume != 0)
  }

  function RowMask(kind: QueryKind, requestId: int, callbacks: seq<Callback>): seq<bool> {
    seq(|callbacks|, i requires 0 <= i < |callbacks| => HasRow(kind, requestId, callbacks[i]))
  }

  /** The callbacks that have a row, in arrival order. */
  function WithRows(kind: QueryKind, requestId: int, callbacks: seq<Callback>): (r: seq<Callback>)
    ensures forall k | 0 <= k < |r| :: HasRow(kind, requestId, r[k])
  {
    var mask := RowMask(kind, requestId, callbacks);
    assert forall k | 0 <= k < |Kept(mask)| :: Kept(mask)[k] < |mask|;
    KeptHolds(mask);
    Pick(callbacks, mask)
  }

  lemma KeptHolds(mask: seq<bool>)
    ensures forall k | 0 <= k < |Kept(mask)| :: mask[Kept(mask)[k]]
  {
    forall k | 0 <= k < |Kept(mask)| ensures mask[Kept(mask)[k]] {
      KeptExactly(mask, Kept(mask)[k]);
    }
  }

  lemma WithRowsSnoc(kind: QueryKind, requestId: int, callbacks: seq<Callback>, last: Callback)
    ensures WithRows(kind, requestId, callbacks + [last])
            == WithRows(kind, requestId, callbacks) + if HasRow(kind, requestId, last) then [last] else []
  {
    PickSnoc(callbacks, RowMask(kind, requestId, callbacks), last, HasRow(kind, requestId, last));
    assert RowMask(kind, requestId, callbacks + [last])
        == RowMask(kind, requestId, callbacks) + [HasRow(kind, requestId, last)];
  }

  /** The records are those of the callbacks, one for one. */
  ghost predicate AreRecordsOf(records: seq<Record>, callbacks: seq<Callback>) {
    && |records| == |callbacks|
    && forall k | 0 <= k < |callbacks| ::
         callbacks[k].RspQuery? && callbacks[k].raw.Some? && records[k] == callbacks[k].raw.value.record
  }

  lemma AreRecordsSnoc(records: seq<Record>, callbacks: seq<Callback>, last: Callback)
    requires AreRecordsOf(records, callbacks) && last.RspQuery? && last.raw.Some?
    ensures AreRecordsOf(records + [last.raw.value.record], callbacks + [last])
  {
  }

  lemma RecordOfRow(kind: QueryKind, requestId: int, callback: Callback)
    ensures RecordOf(kind, requestId, callback)
            == if HasRow(kind, requestId, callback) then [callback.raw.value.record] else []
  {
  }

  lemma {:induction false} CollectedHasRows(kind: QueryKind, requestId: int, callbacks: seq<Callback>)
    ensures AreRecordsOf(Collected(kind, requestId, callbacks), WithRows(kind, requestId, callbacks))
  {
    if callbacks != [] {
      var earlier, last := callbacks[..|callbacks| - 1], callbacks[|callbacks| - 1];
      CollectedHasRows(kind, requestId, earlier);
      assert callbacks == earlier + [last];
      WithRowsSnoc(kind, requestId, earlier, last);
      RecordOfRow(kind, requestId, last);
      if HasRow(kind, requestId, last) {
        AreRecordsSnoc(Collected(kind, requestId, earlier), WithRows(kind, requestId, earlier), last);
      } else {
        assert Collected(kind, requestId, callbacks) == Collected(kind, requestId, earlier);
        assert WithRows(kind, requestId, callbacks) == WithRows(kind, requestId, earlier);
      }
    }
  }

  // ---- the answer is fixed by its first end ----

  lemma {:induction false} NoEndNoAnswer(kind: QueryKind, requestId: int, callbacks: seq<Callback>)
    requires forall i | 0 <= i < |callbacks| :: !EndsQuery(kind, requestId, callbacks[i])
    ensures Answer(kind, requestId, callbacks).None?
  {
    if callbacks != [] {
      NoEndNoAnswer(kind, requestId, callbacks[..|callbacks| - 1]);
    }
  }

  lemma {:induction false} AnswerStays(kind: QueryKind, requestId: int, callbacks: seq<Callback>, n: nat)
    requires n <= |callbacks| && Answer(kind, requestId, callbacks[..n]).Some?
    ensures Answer(kind, requestId, callbacks) == Answer(kind, requestId, callbacks[..n])
  {
    if n < |callbacks| {
      assert callbacks[..|callbacks| - 1][..n] == callbacks[..n];
      AnswerStays(kind, requestId, callbacks[..|callbacks| - 1], n);
    } else {
      assert callbacks[..n] == callbacks;
    }
  }

  /** The records an answer that ends at `n` is made of. */
  ghost predicate MadeOf(kind: QueryKind, requestId: int, callbacks: seq<Callback>, n: nat, records: seq<Record>)
    requires n < |callbacks| && callbacks[n].RspQuery?
  {
    if kind.Account? then
      |records| == 1 && records[0] == match callbacks[n].raw
                                      case None => BalanceRecord(Balance("", 0.0, 0.0))
                                      case Some(raw) => raw.record
    else
      AreRecordsOf(records, WithRows(kind, requestId, callbacks[..n + 1]))
  }

  lemma AnswerAtFirstEnd(kind: QueryKind, requestId: int, callbacks: seq<Callback>, n: nat)
    requires FirstQueryEnd(kind, requestId, callbacks, n)
    ensures Answer(kind, requestId, callbacks).Some?
    ensures match callbacks[n].error
            case Some(error) => Answer(kind, requestId, callbacks).value == QueryFailed(requestId, error)
            case None =>
              var answer := Answer(kind, requestId, callbacks).value;
              && answer.QueryReady? && answer.kind == kind && answer.requestId == requestId
              && MadeOf(kind, requestId, callbacks, n, answer.records)
  {
    var upTo := callbacks[..n + 1];
    assert upTo[..n] == callbacks[..n] && upTo[n] == callbacks[n];
    NoEndNoAnswer(kind, requestId, callbacks[..n]);
    CollectedHasRows(kind, requestId, upTo);
    AnswerStays(kind, requestId, callbacks, n + 1);
  }

  lemma {:induction false} AnswerHasFirstEnd(kind: QueryKind, requestId: int, callbacks: seq<Callback>) returns (n: nat)
    requires Answer(kind, requestId, callbacks).Some?
    ensures FirstQueryEnd(kind, requestId, callbacks, n)
  {
    var earlier := callbacks[..|callbacks| - 1];
    if Answer(kind, requestId, earlier).Some? {
      n := AnswerHasFirstEnd(kind, requestId, earlier);
      assert forall i | 0 <= i < |earlier| :: callbacks[i] == earlier[i];
    } else {
      n := |callbacks| - 1;
      forall i | 0 <= i < n ensures !EndsQuery(kind, requestId, callbacks[i]) {
        if EndsQuery(kind, requestId, callbacks[i]) {
          EndGivesAnswer(kind, requestId, earlier, i);
        }
      }
    }
  }

  lemma {:induction false} EndGivesAnswer(kind: QueryKind, requestId: int, callbacks: seq<Callback>, i: nat)
    requires i < |callbacks| && EndsQuery(kind, requestId, callbacks[i])
    ensures Answer(kind, requestId, callbacks).Some?
  {
    if i < |callbacks| - 1 {
      EndGivesAnswer(kind, requestId, callbacks[..|callbacks| - 1], i);
    }
  }

  // ---- the rows ----

  /** The row a record is shown in: an order under the client its registry entry names, if it has one. */
  ghost predicate Shows(registry: map<string, OrderContext>, queried: AccountId, record: Record, row: AnswerRow) {
    match record
    case BalanceRecord(balance) => row == BalanceRow(balance)
    case PositionRecord(position) => row == PositionRow(position)
    case TradeRecord(trade) => row == TradeRow(trade, queried)
    case OrderRecord(order) =>
      && row.OrderRow? && row.order == order && row.accountId == queried
      && var key := OrderRef.NormalizeOrderRef(order.clientOrderId);
         if key in registry then row.clients == {registry[key].clientId}
         else if registry == map[] then row.clients == {"query"}
         else forall c :: c in row.clients <==> exists k :: k in registry && registry[k].clientId == c
  }

  lemma RowShowsRecord(registry: map<string, OrderContext>, queried: AccountId, record: Record)
    ensures Shows(registry, queried, record, RowOf(registry, queried, record))
  {
  }

  /** The message an answer that ends at `n` gives the requester. */
  ghost predicate Tells(registry: map<string, OrderContext>, queried: AccountId, kind: QueryKind, requestId: int,
                        callbacks: seq<Callback>, n: nat, message: Message)
    requires n < |callbacks| && callbacks[n].RspQuery?
  {
    match callbacks[n].error
    case Some(error) => message == ErrorResponse(error)
    case None =>
      && message.QueryResult? && message.kind == kind
      && exists records ::
           && MadeOf(kind, requestId, callbacks, n, records) && |message.rows| == |records|
           && forall k | 0 <= k < |records| :: Shows(registry, queried, records[k], message.rows[k])
  }

  lemma AnswerTells(registry: map<string, OrderContext>, queried: AccountId, kind: QueryKind, requestId: int,
                    callbacks: seq<Callback>, n: nat)
    requires FirstQueryEnd(kind, requestId, callbacks, n)
    ensures Answer(kind, requestId, callbacks).Some?
    ensures var answer := Answer(kind, requestId, callbacks).value;
            && (answer.QueryReady? || answer.QueryFailed?)
            && Tells(registry, queried, kind, requestId, callbacks, n, AnswerMessage(registry, queried, answer))
  {
    AnswerAtFirstEnd(kind, requestId, callbacks, n);
    var answer := Answer(kind, requestId, callbacks).value;
    if answer.QueryReady? {
      var rows := RowsOf(registry, queried, answer.records);
      forall k | 0 <= k < |rows| ensures Shows(registry, queried, answer.records[k], rows[k]) {
        RowShowsRecord(registry, queried, answer.records[k]);
      }
    }
  }

  /** `after` adds to `before` one reply, to the query's requester, that its own callbacks account for. */
  ghost predicate Answered(a: Actor, callbacks: seq<Callback>, before: seq<Reply>, after: seq<Reply>)
    requires a.mode.Querying?
  {
    && |after| == |before| + 1 && after[..|before|] == before && after[|before|].channel == a.mode.replyTo
    && exists n: nat ::
         && FirstQueryEnd(a.mode.kind, a.mode.requestId, callbacks, n)
         && Tells(a.registry, a.mode.queried, a.mode.kind, a.mode.requestId, callbacks, n, after[|before|].message)
  }

  /**
   * Undisturbed by callbacks of another kind, a query sends one reply: the first of its own callbacks
   * that is an error or the last part fixes it. An error is passed on. Otherwise the rows are, in
   * arrival order and each once, the records that its own callbacks up to that one carry.
   */
  lemma QueryReplyContents(s: System, inputs: seq<SystemInput>, last: SystemInput)
    requires JustAsked(s) && StillQuerying(s, inputs)
    requires !SystemStep(SystemRun(s, inputs), last).actor.mode.Querying?
    requires Undisturbed(s.actor.mode.kind, s.actor.mode.requestId, Callbacks(inputs))
    ensures Answered(s.actor, Callbacks(inputs), s.actor.replies, SystemStep(SystemRun(s, inputs), last).actor.replies)
  {
    var mode := s.actor.mode;
    QueryAnswerIsOwnRecords(s, inputs, last);
    var n := AnswerHasFirstEnd(mode.kind, mode.requestId, Callbacks(inputs));
    AnswerTells(s.actor.registry, mode.queried, mode.kind, mode.requestId, Callbacks(inputs), n);
  }

  /** The same from an empty session, through any causal past of at most 2^32 requests. */
  lemma QueryContentsEndToEnd(accountId: AccountId, routes: map<ClientId, Channel>, past: seq<SystemInput>,
                              kind: QueryKind, queried: AccountId, instrumentId: Option<InstrumentId>, replyTo: Channel,
                              inputs: seq<SystemInput>, last: SystemInput)
    requires CausalRun(System(Started(accountId, routes), map[], []), past)
    requires var s := SystemRun(System(Started(accountId, routes), map[], []), past);
             var t := SystemStep(s, Ask(Query(kind, queried, instrumentId, replyTo), true));
             && s.actor.mode.Main? && s.actor.ids.Some?
             && (s.actor.session.Some? ==> s.actor.session.value + 1 <= TWO_32)
             && StillQuerying(t, inputs) && !SystemStep(SystemRun(t, inputs), last).actor.mode.Querying?
             && Undisturbed(kind, NextId(s.actor), Callbacks(inputs))
    ensures var s := SystemRun(System(Started(accountId, routes), map[], []), past);
            var t := SystemStep(s, Ask(Query(kind, queried, instrumentId, replyTo), true));
            && t.actor.mode == Querying(kind, queried, NextId(s.actor), replyTo)
            && Answered(t.actor, Callbacks(inputs), s.actor.replies,
                        SystemStep(SystemRun(t, inputs), last).actor.replies)
  {
    AcceptedQueryIsFresh(accountId, routes, past, kind, queried, instrumentId, replyTo);
    RunQueueIssued(System(Started(accountId, routes), map[], []), past);
    var s := SystemRun(System(Started(accountId, routes), map[], []), past);
    AskedQuery(s, kind, queried, instrumentId, replyTo);
    QueryReplyContents(SystemStep(s, Ask(Query(kind, queried, instrumentId, replyTo), true)), inputs, last);
  }

  lemma AskedQuery(s: System, kind: QueryKind, queried: AccountId, instrumentId: Option<InstrumentId>, replyTo: Channel)
    requires s.actor.mode.Main? && s.actor.ids.Some? && s.actor.session.Some?
    ensures var t := SystemStep(s, Ask(Query(kind, queried, instrumentId, replyTo), true));
            t.actor.mode == Querying(kind, queried, NextId(s.actor), replyTo) && t.actor.replies == s.actor.replies
  {
  }

  /** A callback of the query that hands over a position the account holds. */
  ghost predicate HandsOver(requestId: int, callback: Callback, position: Position) {
    && callback.RspQuery? && callback.kind == Positions && callback.requestId == requestId && callback.error.None?
    && callback.raw == Some(Raw(PositionRecord(position), true)) && position.volume != 0
  }

  lemma HandedPositionHasRow(requestId: int, callbacks: seq<Callback>, i: nat, position: Position) returns (k: nat)
    requires i < |callbacks| && HandsOver(requestId, callbacks[i], position)
    ensures var picked := WithRows(Positions, requestId, callbacks); k < |picked| && picked[k] == callbacks[i]
  {
    var mask := RowMask(Positions, requestId, callbacks);
    assert mask[i];
    KeptExactly(mask, i);
    k :| 0 <= k < |Kept(mask)| && Kept(mask)[k] == i;
  }

  lemma RowWasHandedOver(requestId: int, callbacks: seq<Callback>, k: nat, position: Position) returns (i: nat)
    requires k < |WithRows(Positions, requestId, callbacks)|
    requires WithRows(Positions, requestId, callbacks)[k].raw.value.record == PositionRecord(position)
    ensures i < |callbacks| && HandsOver(requestId, callbacks[i], position)
  {
    i := Kept(RowMask(Positions, requestId, callbacks))[k];
    assert callbacks[i] == WithRows(Positions, requestId, callbacks)[k];
  }

  /** So an undisturbed positions query shows exactly the positions it was handed, those of volume zero aside. */
  lemma PositionsShownExactly(registry: map<string, OrderContext>, queried: AccountId, requestId: int,
                              callbacks: seq<Callback>, n: nat, message: Message, position: Position)
    requires FirstQueryEnd(Positions, requestId, callbacks, n) && callbacks[n].error.None?
    requires Tells(registry, queried, Positions, requestId, callbacks, n, message)
    ensures PositionRow(position) in message.rows
            <==> exists i :: 0 <= i <= n && HandsOver(requestId, callbacks[i], position)
  {
    var upTo := callbacks[..n + 1];
    var records :| MadeOf(Positions, requestId, callbacks, n, records) && |message.rows| == |records|
                   && forall k | 0 <= k < |records| :: Shows(registry, queried, records[k], message.rows[k]);
    if PositionRow(position) in message.rows {
      var k :| 0 <= k < |message.rows| && message.rows[k] == PositionRow(position);
      assert records[k] == PositionRecord(position);
      var i := RowWasHandedOver(requestId, upTo, k, position);
      assert upTo[i] == callbacks[i];
    }
    if i :| 0 <= i <= n && HandsOver(requestId, callbacks[i], position) {
      assert upTo[i] == callbacks[i];
      var k := HandedPositionHasRow(requestId, upTo, i, position);
      assert records[k] == PositionRecord(position);
    }
  }
}
