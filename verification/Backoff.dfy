/** Exponential backoff for reconnect delays, in whole milliseconds. */
module Backoff {

  datatype Schedule = Schedule(
    delayInitial: nat, delayMax: nat, delayCurrent: nat, factor: real, jitterMs: nat, immediateReconnect: bool)

  /** `Next` carries the clock value the jitter is taken from. */
  datatype Call = Next(clock: nat) | Reset

  predicate ValidParameters(delayInitial: nat, delayMax: nat, factor: real) {
    0 < delayInitial <= delayMax && 1.0 <= factor <= 100.0
  }

  function Fresh(delayInitial: nat, delayMax: nat, factor: real, jitterMs: nat, immediateFirst: bool): Schedule {
    Schedule(delayInitial, delayMax, delayInitial, factor, jitterMs, immediateFirst)
  }

  function Min(a: int, b: int): int { if a < b then a else b }
  function Max(a: int, b: int): int { if a < b then b else a }

  predicate SkipsDelay(s: Schedule) {
    s.immediateReconnect && s.delayCurrent == s.delayInitial
  }

  function Jitter(s: Schedule, clock: nat): nat {
    if s.jitterMs == 0 then 0 else clock % (s.jitterMs + 1)
  }

  function Advance(s: Schedule): Schedule
    requires s.factor >= 0.0
  {
    var grown := (s.delayCurrent as real * s.factor).Floor;
    s.(delayCurrent := Max(Min(grown, s.delayMax), s.delayInitial))
  }

  function AfterCall(s: Schedule, call: Call): Schedule
    requires s.factor >= 0.0
  {
    match call
    case Reset => s.(delayCurrent := s.delayInitial, immediateReconnect := false)
    case Next(_) => if SkipsDelay(s) then s.(immediateReconnect := false) else Advance(s)
  }

  function Delay(s: Schedule, clock: nat): nat {
    if SkipsDelay(s) then 0 else s.delayCurrent + Jitter(s, clock)
  }

  class ExponentialBackoff {
    const delayInitial: nat
    const delayMax: nat
    const factor: real
    const jitterMs: nat
    var delayCurrent: nat
    var immediateReconnect: bool

    ghost function State(): Schedule
      reads this
    {
      Schedule(delayInitial, delayMax, delayCurrent, factor, jitterMs, immediateReconnect)
    }

    ghost predicate Valid()
      reads this
    {
      ValidState(State())
    }

    constructor (delayInitial: nat, delayMax: nat, factor: real, jitterMs: nat, immediateFirst: bool)
      requires ValidParameters(delayInitial, delayMax, factor)
      ensures Valid() && State() == Fresh(delayInitial, delayMax, factor, jitterMs, immediateFirst)
    {
      this.delayInitial, this.delayMax, this.factor, this.jitterMs := delayInitial, delayMax, factor, jitterMs;
      delayCurrent, immediateReconnect := delayInitial, immediateFirst;
    }

    /** Parameters that make no sense are an error, not a precondition. */
    static method New(delayInitial: nat, delayMax: nat, factor: real, jitterMs: nat, immediateFirst: bool)
      returns (backoff: ExponentialBackoff?)
      ensures backoff != null <==> 0 < delayInitial <= delayMax && 1.0 <= factor <= 100.0
      ensures backoff != null ==> fresh(backoff) && backoff.Valid()
      ensures backoff != null ==>
                backoff.State()
                == Schedule(delayInitial, delayMax, delayInitial, factor, jitterMs, immediateFirst)
    {
      if delayInitial == 0 || delayMax < delayInitial || !(1.0 <= factor <= 100.0) {
        return null;
      }
      backoff := new ExponentialBackoff(delayInitial, delayMax, factor, jitterMs, immediateFirst);
    }

    method NextDuration(clock: nat) returns (delay: nat)
      requires Valid()
      modifies this
      ensures Valid() && State() == AfterCall(old(State()), Next(clock))
      ensures delay == Delay(old(State()), clock)
    {
      if immediateReconnect && delayCurrent == delayInitial {
        immediateReconnect := false;
        return 0;
      }
      var jitter := 0;
      if jitterMs != 0 {
        jitter := clock % (jitterMs + 1);
      }
      delay := delayCurrent + jitter;
      var grown := (delayCurrent as real * factor).Floor;
      var next := if grown < delayMax then grown else delayMax;
      delayCurrent := if next < delayInitial then delayInitial else next;
    }

    method Reset()
      requires Valid()
      modifies this
      ensures Valid() && State() == AfterCall(old(State()), Call.Reset)
    {
      delayCurrent := delayInitial;
      immediateReconnect := false;
    }
  }

  // ---- laws over every sequence of calls ----

  predicate ValidState(s: Schedule) {
    ValidParameters(s.delayInitial, s.delayMax, s.factor) && s.delayInitial <= s.delayCurrent <= s.delayMax
  }

  lemma GrownIsLonger(delay: nat, factor: real)
    requires 1.0 <= factor
    ensures delay <= (delay as real * factor).Floor
  {
    assert delay as real * factor >= delay as real * 1.0;
  }

  lemma AdvanceGrows(s: Schedule)
    requires ValidState(s)
    ensures ValidState(Advance(s)) && s.delayCurrent <= Advance(s).delayCurrent
  {
    GrownIsLonger(s.delayCurrent, s.factor);
  }

  /** Only the immediate attempt, and only from the initial delay, is made without waiting. */
  lemma DelayIsSkippedExactly(s: Schedule, clock: nat)
    requires ValidState(s)
    ensures Delay(s, clock)
            == if s.immediateReconnect && s.delayCurrent == s.delayInitial then 0
               else s.delayCurrent + clock % (s.jitterMs + 1)
  {
  }

  lemma DelayIsBounded(s: Schedule, clock: nat)
    requires ValidState(s)
    ensures Delay(s, clock) <= s.delayMax + s.jitterMs
  {
  }

  function AfterCalls(s: Schedule, calls: seq<Call>): (t: Schedule)
    requires ValidState(s)
    ensures ValidState(t) && t.delayInitial == s.delayInitial && t.delayMax == s.delayMax
    ensures t.factor == s.factor && t.jitterMs == s.jitterMs
  {
    if calls == [] then s
    else
      var before := AfterCalls(s, calls[..|calls| - 1]);
      AfterCall(before, calls[|calls| - 1])
  }

  /** The delays the calls return, in order. */
  function Delays(s: Schedule, calls: seq<Call>): seq<nat>
    requires ValidState(s)
  {
    if calls == [] then []
    else
      var before := AfterCalls(s, calls[..|calls| - 1]);
      var earlier := Delays(s, calls[..|calls| - 1]);
      match calls[|calls| - 1]
      case Next(clock) => earlier + [Delay(before, clock)]
      case Reset => earlier
  }

  /** The current delay never leaves its bounds, and every delay returned is within the jitter of them. */
  lemma {:induction false} DelaysAreBounded(s: Schedule, calls: seq<Call>)
    requires ValidState(s)
    ensures forall k | 0 <= k < |Delays(s, calls)| :: Delays(s, calls)[k] <= s.delayMax + s.jitterMs
    ensures forall k | 0 <= k < |Delays(s, calls)| :: Delays(s, calls)[k] == 0 || s.delayInitial <= Delays(s, calls)[k]
  {
    if calls != [] {
      DelaysAreBounded(s, calls[..|calls| - 1]);
    }
  }

  predicate NoReset(calls: seq<Call>) {
    forall k | 0 <= k < |calls| :: calls[k].Next?
  }

  /** Between resets the delay without jitter never shrinks, from any reachable state. */
  lemma {:induction false} DelaysGrowBetweenResets(s: Schedule, calls: seq<Call>)
    requires ValidState(s) && NoReset(calls)
    ensures s.delayCurrent <= AfterCalls(s, calls).delayCurrent
  {
    if calls != [] {
      DelaysGrowBetweenResets(s, calls[..|calls| - 1]);
      AdvanceGrows(AfterCalls(s, calls[..|calls| - 1]));
    }
  }

  function Zeros(delays: seq<nat>): nat {
    if delays == [] then 0
    else Zeros(delays[..|delays| - 1]) + if delays[|delays| - 1] == 0 then 1 else 0
  }

  /** One zero delay in all if immediate reconnect was asked for and the first call takes it, else none. */
  lemma {:induction false} ZeroDelaysExactly(s: Schedule, calls: seq<Call>)
    requires ValidState(s) && s.delayCurrent == s.delayInitial
    ensures Zeros(Delays(s, calls)) == if s.immediateReconnect && calls != [] && calls[0].Next? then 1 else 0
    ensures calls != [] ==> !AfterCalls(s, calls).immediateReconnect
    ensures calls == [] ==> AfterCalls(s, calls) == s
  {
    if calls != [] {
      var earlier := calls[..|calls| - 1];
      ZeroDelaysExactly(s, earlier);
      var all := Delays(s, calls);
      if calls[|calls| - 1].Next? {
        assert all[..|all| - 1] == Delays(s, earlier);
      }
    }
  }

  function Power(f: nat, k: nat): nat {
    if k == 0 then 1 else Power(f, k - 1) * f
  }

  function Advances(s: Schedule, k: nat): (t: Schedule)
    requires ValidState(s)
    ensures ValidState(t)
  {
    if k == 0 then s
    else
      AdvanceGrows(Advances(s, k - 1));
      Advance(Advances(s, k - 1))
  }

  lemma IntegerProduct(a: nat, f: nat)
    ensures (a as real * f as real).Floor == a * f
  {
    assert a as real * f as real == (a * f) as real;
  }

  lemma MinTimes(m: nat, x: nat, f: nat)
    requires 1 <= f
    ensures Min(Min(m, x) * f, m) == Min(m, x * f)
  {
    if m <= x {
      assert m * f >= m && x * f >= x;
    }
  }

  lemma AdvanceByInteger(s: Schedule, f: nat)
    requires ValidState(s) && s.factor == f as real
    ensures 1 <= f && Advance(s) == s.(delayCurrent := Min(s.delayCurrent * f, s.delayMax))
  {
    IntegerProduct(s.delayCurrent, f);
    AdvanceGrows(s);
    GrownIsLonger(s.delayCurrent, s.factor);
  }

  /** With an integer factor, `k` advances from the initial delay give `min(max, initial * f^k)`. */
  lemma {:induction false} IntegerFactorLaw(s: Schedule, f: nat, k: nat)
    requires ValidState(s) && s.delayCurrent == s.delayInitial && s.factor == f as real
    ensures Advances(s, k) == s.(delayCurrent := Min(s.delayMax, s.delayInitial * Power(f, k)))
  {
    if k == 0 {
      assert s.delayInitial * Power(f, 0) == s.delayInitial;
    } else {
      IntegerFactorLaw(s, f, k - 1);
      AdvanceByInteger(Advances(s, k - 1), f);
      IntegerStep(s, f, k);
    }
  }

  /** Once the immediate first attempt is spent, `k` calls between resets are `k` advances. */
  lemma {:induction false} CallsAdvance(s: Schedule, calls: seq<Call>)
    requires ValidState(s) && !s.immediateReconnect && NoReset(calls)
    ensures AfterCalls(s, calls) == Advances(s, |calls|)
    ensures !AfterCalls(s, calls).immediateReconnect
  {
    if calls != [] {
      CallsAdvance(s, calls[..|calls| - 1]);
    }
  }

  /**
   * The delays returned, with an integer factor, the immediate attempt spent and no reset: the k-th is
   * `min(max, initial * f^k)` and the clock's jitter.
   */
  lemma {:induction false} DelaysFollowPowers(s: Schedule, calls: seq<Call>, f: nat, k: nat)
    requires ValidState(s) && s.delayCurrent == s.delayInitial && !s.immediateReconnect && s.factor == f as real
    requires NoReset(calls) && k < |calls|
    ensures |Delays(s, calls)| == |calls|
    ensures Delays(s, calls)[k]
            == Min(s.delayMax, s.delayInitial * Power(f, k)) + calls[k].clock % (s.jitterMs + 1)
  {
    var earlier := calls[..|calls| - 1];
    DelaysOfCalls(s, calls);
    if k == |calls| - 1 {
      CallsAdvance(s, earlier);
      IntegerFactorLaw(s, f, k);
      DelaysOfCalls(s, earlier);
    } else {
      DelaysFollowPowers(s, earlier, f, k);
      assert Delays(s, calls)[k] == Delays(s, earlier)[k];
    }
  }

  lemma OneCall(s: Schedule, call: Call)
    requires ValidState(s)
    ensures AfterCalls(s, [call]) == AfterCall(s, call)
    ensures Delays(s, [call]) == if call.Next? then [Delay(s, call.clock)] else []
  {
    assert [call][..0] == [];
    assert AfterCalls(s, []) == s && Delays(s, []) == [];
  }

  /** With the immediate attempt still to come, the first delay is none and the powers follow. */
  lemma ImmediateThenPowers(s: Schedule, calls: seq<Call>, f: nat, k: nat)
    requires ValidState(s) && s.delayCurrent == s.delayInitial && s.immediateReconnect && s.factor == f as real
    requires NoReset(calls) && k < |calls|
    ensures |Delays(s, calls)| == |calls|
    ensures Delays(s, calls)[k]
            == if k == 0 then 0
               else Min(s.delayMax, s.delayInitial * Power(f, k - 1)) + calls[k].clock % (s.jitterMs + 1)
  {
    var first, rest := [calls[0]], calls[1..];
    assert calls == first + rest;
    OneCall(s, calls[0]);
    DelaysAppend(s, first, rest);
    DelaysOfCalls(s, calls);
    if k > 0 {
      DelaysFollowPowers(AfterCalls(s, first), rest, f, k - 1);
    }
  }

  lemma {:induction false} DelaysOfCalls(s: Schedule, calls: seq<Call>)
    requires ValidState(s) && NoReset(calls)
    ensures |Delays(s, calls)| == |calls|
  {
    if calls != [] {
      DelaysOfCalls(s, calls[..|calls| - 1]);
    }
  }

  /** For any factor: without jitter and resets, the delays returned never shrink. */
  lemma {:induction false} DelaysNeverShrink(s: Schedule, calls: seq<Call>, j: nat, k: nat)
    requires ValidState(s) && s.jitterMs == 0 && NoReset(calls) && j <= k < |calls|
    ensures |Delays(s, calls)| == |calls| && Delays(s, calls)[j] <= Delays(s, calls)[k]
    ensures Delays(s, calls)[k] <= AfterCalls(s, calls).delayCurrent
  {
    var earlier := calls[..|calls| - 1];
    DelaysOfCalls(s, calls);
    DelaysOfCalls(s, earlier);
    AdvanceGrows(AfterCalls(s, earlier));
    if k < |calls| - 1 {
      DelaysNeverShrink(s, earlier, j, k);
    } else if j < k {
      DelaysNeverShrink(s, earlier, j, k - 1);
      if SkipsDelay(AfterCalls(s, earlier)) {
        ImmediateIsFirst(s, earlier);
      }
    }
  }

  /** Between resets only the first call can skip its delay. */
  lemma {:induction false} ImmediateIsFirst(s: Schedule, calls: seq<Call>)
    requires ValidState(s) && NoReset(calls) && calls != []
    ensures s.delayCurrent == s.delayInitial ==> !AfterCalls(s, calls).immediateReconnect
    ensures s.delayCurrent != s.delayInitial ==> s.delayInitial < AfterCalls(s, calls).delayCurrent
  {
    if |calls| > 1 {
      ImmediateIsFirst(s, calls[..|calls| - 1]);
      AdvanceGrows(AfterCalls(s, calls[..|calls| - 1]));
    } else {
      assert calls[..0] == [];
      AdvanceGrows(s);
    }
  }

  lemma {:induction false} DelaysAppend(s: Schedule, xs: seq<Call>, ys: seq<Call>)
    requires ValidState(s)
    ensures AfterCalls(s, xs + ys) == AfterCalls(AfterCalls(s, xs), ys)
    ensures Delays(s, xs + ys) == Delays(s, xs) + Delays(AfterCalls(s, xs), ys)
  {
    if ys == [] {
      assert xs + ys == xs;
    } else {
      assert (xs + ys)[..|xs + ys| - 1] == xs + ys[..|ys| - 1];
      DelaysAppend(s, xs, ys[..|ys| - 1]);
    }
  }

  /** After a reset, whatever came before, the delays start over from the initial one. */
  lemma DelaysStartOver(s: Schedule, before: seq<Call>, calls: seq<Call>, f: nat, k: nat)
    requires ValidState(s) && s.factor == f as real && NoReset(calls) && k < |calls|
    ensures var all := Delays(s, before + [Reset] + calls);
            && |all| == |Delays(s, before)| + |calls|
            && all[|Delays(s, before)| + k]
               == Min(s.delayMax, s.delayInitial * Power(f, k)) + calls[k].clock % (s.jitterMs + 1)
  {
    var one: seq<Call> := [Reset];
    assert one[..0] == [];
    assert Delays(AfterCalls(s, before), one) == [];
    DelaysAppend(s, before, one);
    DelaysAppend(s, before + one, calls);
    DelaysFollowPowers(AfterCalls(s, before + one), calls, f, k);
  }

  lemma IntegerStep(s: Schedule, f: nat, k: nat)
    requires k > 0 && 1 <= f
    ensures Min(Min(s.delayMax, s.delayInitial * Power(f, k - 1)) * f, s.delayMax)
            == Min(s.delayMax, s.delayInitial * Power(f, k))
  {
    MinTimes(s.delayMax, s.delayInitial * Power(f, k - 1), f);
    assert s.delayInitial * Power(f, k - 1) * f == s.delayInitial * Power(f, k);
  }
}
