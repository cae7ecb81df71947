/** The instrument-to-clients index, and the flat relation of (client, instrument) pairs it stands for. */
module SubscriptionTable {
  import opened TradeTypes

  type Table = map<InstrumentId, set<ClientId>>

  // ---- the index ----

  function ClientsOf(t: Table, i: InstrumentId): set<ClientId> {
    if i in t then t[i] else {}
  }

  /** Adds one row; the exchange is asked when the instrument had no client. */
  function SubscribeOne(t: Table, c: ClientId, i: InstrumentId): (Table, bool) {
    var clients := ClientsOf(t, i);
    (t[i := clients + {c}], clients == {} && c !in clients)
  }

  /** Drops one row; the exchange is asked when the entry is left without clients. */
  function UnsubscribeOne(t: Table, c: ClientId, i: InstrumentId): (Table, bool) {
    if i !in t then (t, false)
    else if t[i] - {c} == {} then (t - {i}, true)
    else (t[i := t[i] - {c}], false)
  }

  function Subscribe(t: Table, c: ClientId, instruments: seq<InstrumentId>): (Table, seq<InstrumentId>) {
    if instruments == [] then (t, [])
    else
      var (t1, out) := Subscribe(t, c, instruments[..|instruments| - 1]);
      var i := instruments[|instruments| - 1];
      var (t2, ask) := SubscribeOne(t1, c, i);
      (t2, if ask then out + [i] else out)
  }

  function Unsubscribe(t: Table, c: ClientId, instruments: seq<InstrumentId>): (Table, seq<InstrumentId>) {
    if instruments == [] then (t, [])
    else
      var (t1, out) := Unsubscribe(t, c, instruments[..|instruments| - 1]);
      var i := instruments[|instruments| - 1];
      var (t2, ask) := UnsubscribeOne(t1, c, i);
      (t2, if ask then out + [i] else out)
  }

  /** The instruments left without clients once `c` is gone. */
  function Orphans(t: Table, c: ClientId): set<InstrumentId> {
    set i | i in t && t[i] - {c} == {}
  }

  function RemoveClient(t: Table, c: ClientId): Table {
    map i | i in t && t[i] - {c} != {} :: t[i] - {c}
  }

  // ---- the flat relation ----

  predicate Row(t: Table, c: ClientId, i: InstrumentId) {
    i in t && c in t[i]
  }

  /** No instrument is kept with an empty client set. */
  ghost predicate NoEmpty(t: Table) {
    forall i | i in t :: t[i] != {}
  }

  /** Two tables without empty entries that hold the same rows are the same table. */
  lemma RowsDetermineTable(t: Table, u: Table)
    requires NoEmpty(t) && NoEmpty(u)
    requires forall c, i :: Row(t, c, i) <==> Row(u, c, i)
    ensures t == u
  {
    forall i ensures i in t <==> i in u {
      if i in t { var c :| c in t[i]; assert Row(t, c, i); }
      if i in u { var c :| c in u[i]; assert Row(u, c, i); }
    }
    forall i | i in t ensures t[i] == u[i] {
      assert forall c :: c in t[i] <==> Row(t, c, i);
      assert forall c :: c in u[i] <==> Row(u, c, i);
    }
  }

  lemma {:induction false} SubscribeAddsRows(t: Table, c: ClientId, instruments: seq<InstrumentId>)
    requires NoEmpty(t)
    ensures var u := Subscribe(t, c, instruments).0;
            NoEmpty(u) && forall d, i :: Row(u, d, i) <==> Row(t, d, i) || (d == c && i in instruments)
  {
    if instruments != [] {
      var earlier := instruments[..|instruments| - 1];
      SubscribeAddsRows(t, c, earlier);
      var last := instruments[|instruments| - 1];
      assert instruments == earlier + [last];
      var t1, u := Subscribe(t, c, earlier).0, Subscribe(t, c, instruments).0;
      forall d, i ensures Row(u, d, i) <==> Row(t, d, i) || (d == c && i in instruments) {
        assert Row(u, d, i) <==> Row(t1, d, i) || (d == c && i == last);
      }
    }
  }

  lemma {:induction false} UnsubscribeDropsRows(t: Table, c: ClientId, instruments: seq<InstrumentId>)
    requires NoEmpty(t)
    ensures var u := Unsubscribe(t, c, instruments).0;
            NoEmpty(u) && forall d, i :: Row(u, d, i) <==> Row(t, d, i) && !(d == c && i in instruments)
  {
    if instruments != [] {
      var earlier := instruments[..|instruments| - 1];
      UnsubscribeDropsRows(t, c, earlier);
      assert instruments == earlier + [instruments[|instruments| - 1]];
      var t1 := Unsubscribe(t, c, earlier).0;
      var last := instruments[|instruments| - 1];
      assert forall d | Row(t1, d, last) && d != c :: d in t1[last] - {c};
    }
  }

  lemma RemoveClientDropsRows(t: Table, c: ClientId)
    ensures var u := RemoveClient(t, c);
            NoEmpty(u) && forall d, i :: Row(u, d, i) <==> Row(t, d, i) && d != c
  {
    var u := RemoveClient(t, c);
    forall d, i ensures Row(u, d, i) <==> Row(t, d, i) && d != c {
      if Row(t, d, i) && d != c {
        assert d in t[i] - {c};
      }
    }
  }

  /** Removing a client is unsubscribing exactly the instruments it holds. */
  lemma RemoveIsUnsubscribeAll(t: Table, c: ClientId, held: seq<InstrumentId>)
    requires NoEmpty(t)
    requires forall i :: i in held <==> Row(t, c, i)
    ensures RemoveClient(t, c) == Unsubscribe(t, c, held).0
    ensures forall i :: i in Orphans(t, c) <==> i in Unsubscribe(t, c, held).1
  {
    RemoveClientDropsRows(t, c);
    UnsubscribeDropsRows(t, c, held);
    RowsDetermineTable(RemoveClient(t, c), Unsubscribe(t, c, held).0);
    UnsubscribeEmits(t, c, held);
    forall i ensures i in Orphans(t, c) <==> i in Unsubscribe(t, c, held).1 {
      assert i in Orphans(t, c) <==> i in t && i !in RemoveClient(t, c);
    }
  }

  // ---- what is emitted ----

  predicate NoDuplicates(s: seq<InstrumentId>) {
    forall j, k | 0 <= j < k < |s| :: s[j] != s[k]
  }

  lemma {:induction false} SubscribeEmits(t: Table, c: ClientId, instruments: seq<InstrumentId>)
    requires NoEmpty(t)
    ensures var (u, out) := Subscribe(t, c, instruments);
            && NoDuplicates(out)
            && (forall i :: i in out <==> i in u && i !in t)
            && (forall i | i in t :: i in u)
  {
    if instruments != [] {
      var earlier := instruments[..|instruments| - 1];
      SubscribeEmits(t, c, earlier);
      SubscribeAddsRows(t, c, earlier);
    }
  }

  lemma {:induction false} UnsubscribeEmits(t: Table, c: ClientId, instruments: seq<InstrumentId>)
    ensures var (u, out) := Unsubscribe(t, c, instruments);
            && NoDuplicates(out)
            && (forall i :: i in out <==> i in t && i !in u)
            && (forall i | i in u :: i in t)
  {
    if instruments != [] {
      UnsubscribeEmits(t, c, instruments[..|instruments| - 1]);
    }
  }
}
