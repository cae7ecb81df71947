/** The elements of a sequence that a condition keeps, in order: what the filtering loops are stated by. */
module Selection {

  ghost predicate Increasing(at: seq<nat>, n: nat) {
    && (forall k | 0 <= k < |at| :: at[k] < n)
    && (forall j, k | 0 <= j < k < |at| :: at[j] < at[k])
  }

  /** The positions at which the mask is true, in order. */
  function Kept(mask: seq<bool>): (at: seq<nat>)
    ensures forall k | 0 <= k < |at| :: at[k] < |mask|
  {
    if mask == [] then []
    else Kept(mask[..|mask| - 1]) + if mask[|mask| - 1] then [|mask| - 1] else []
  }

  function Pick<T>(xs: seq<T>, mask: seq<bool>): (r: seq<T>)
    requires |mask| == |xs|
    ensures |r| == |Kept(mask)| && forall k | 0 <= k < |r| :: r[k] == xs[Kept(mask)[k]]
  {
    seq(|Kept(mask)|, k requires 0 <= k < |Kept(mask)| => xs[Kept(mask)[k]])
  }

  lemma IncreasingSnoc(at: seq<nat>, n: nat)
    requires Increasing(at, n)
    ensures Increasing(at, n + 1) && Increasing(at + [n], n + 1)
  {
  }

  lemma {:induction false} KeptIncreases(mask: seq<bool>)
    ensures Increasing(Kept(mask), |mask|)
  {
    if mask != [] {
      KeptIncreases(mask[..|mask| - 1]);
      IncreasingSnoc(Kept(mask[..|mask| - 1]), |mask| - 1);
    }
  }

  /** Every position the mask holds at is kept once, no other is, and the order is theirs. */
  lemma {:induction false} KeptExactly(mask: seq<bool>, i: nat)
    requires i < |mask|
    ensures Increasing(Kept(mask), |mask|) && (i in Kept(mask) <==> mask[i])
  {
    KeptIncreases(mask);
    KeptIncreases(mask[..|mask| - 1]);
    if i < |mask| - 1 {
      KeptExactly(mask[..|mask| - 1], i);
    }
  }

  lemma {:induction false} NoneKept(mask: seq<bool>)
    requires forall i | 0 <= i < |mask| :: !mask[i]
    ensures Kept(mask) == []
  {
    if mask != [] {
      NoneKept(mask[..|mask| - 1]);
    }
  }

  lemma PickSnoc<T>(xs: seq<T>, mask: seq<bool>, x: T, keep: bool)
    requires |mask| == |xs|
    ensures Pick(xs + [x], mask + [keep]) == Pick(xs, mask) + if keep then [x] else []
  {
    assert (mask + [keep])[..|mask|] == mask;
  }
}
