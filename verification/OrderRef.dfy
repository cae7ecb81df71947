/** CTP order references: the key that ties an exchange return to the order that caused it. */
module OrderRef {
  import opened Selection

  const MAX_REF_LENGTH := 12

  predicate IsAsciiAlphanumeric(c: char) {
    '0' <= c <= '9' || 'A' <= c <= 'Z' || 'a' <= c <= 'z'
  }

  function Filter(value: string): (r: string)
    ensures forall c | c in r :: IsAsciiAlphanumeric(c)
    ensures |r| <= |value|
  {
    if value == [] then []
    else if IsAsciiAlphanumeric(value[0]) then [value[0]] + Filter(value[1..])
    else Filter(value[1..])
  }

  function Take(value: string, n: nat): string {
    if |value| <= n then value else value[..n]
  }

  function NormalizeOrderRef(value: string): string {
    Take(Filter(value), MAX_REF_LENGTH)
  }

  /** `padded` is `core` with any number of non-alphanumeric characters inserted anywhere. */
  predicate IsPaddingOf(padded: string, core: string) {
    if padded == [] then core == []
    else
      || (core != [] && padded[0] == core[0] && IsPaddingOf(padded[1..], core[1..]))
      || (!IsAsciiAlphanumeric(padded[0]) && IsPaddingOf(padded[1..], core))
  }

  lemma {:induction false} FilterIgnoresPadding(padded: string, core: string)
    requires IsPaddingOf(padded, core)
    ensures Filter(padded) == Filter(core)
  {
    if padded == [] {
    } else if !IsAsciiAlphanumeric(padded[0]) && IsPaddingOf(padded[1..], core) {
      FilterIgnoresPadding(padded[1..], core);
    } else {
      FilterIgnoresPadding(padded[1..], core[1..]);
    }
  }

  lemma {:induction false} FilterKeepsAlphanumeric(value: string)
    requires forall c | c in value :: IsAsciiAlphanumeric(c)
    ensures Filter(value) == value
  {
    if value != [] {
      assert value[0] in value;
      FilterKeepsAlphanumeric(value[1..]);
    }
  }

  lemma {:induction false} FilterIsPaddingsCore(value: string)
    ensures IsPaddingOf(value, Filter(value))
  {
    if value != [] {
      FilterIsPaddingsCore(value[1..]);
      if IsAsciiAlphanumeric(value[0]) {
        assert Filter(value)[1..] == Filter(value[1..]);
      }
    }
  }

  /** A reference that comes back from the exchange, with any padding, normalises to what was written. */
  lemma NormalizeIgnoresPadding(clientOrderId: string, returned: string)
    requires IsPaddingOf(returned, NormalizeOrderRef(clientOrderId))
    ensures NormalizeOrderRef(returned) == NormalizeOrderRef(clientOrderId)
  {
    var written := NormalizeOrderRef(clientOrderId);
    FilterIgnoresPadding(returned, written);
    FilterKeepsAlphanumeric(written);
  }

  /**
   * A returned reference of at most twelve alphanumeric characters resolves to an order exactly when
   * it is what was written for that order, with any padding.
   */
  lemma NormalizeEqualityIsPadding(clientOrderId: string, returned: string)
    requires |Filter(returned)| <= MAX_REF_LENGTH
    ensures NormalizeOrderRef(returned) == NormalizeOrderRef(clientOrderId)
            <==> IsPaddingOf(returned, NormalizeOrderRef(clientOrderId))
  {
    if NormalizeOrderRef(returned) == NormalizeOrderRef(clientOrderId) {
      FilterIsPaddingsCore(returned);
    } else if IsPaddingOf(returned, NormalizeOrderRef(clientOrderId)) {
      NormalizeIgnoresPadding(clientOrderId, returned);
    }
  }

  lemma NormalizeIsIdempotent(value: string)
    ensures NormalizeOrderRef(NormalizeOrderRef(value)) == NormalizeOrderRef(value)
  {
    FilterKeepsAlphanumeric(NormalizeOrderRef(value));
  }

  lemma {:induction false} FilterSnoc(value: string, c: char)
    ensures Filter(value + [c]) == Filter(value) + if IsAsciiAlphanumeric(c) then [c] else []
  {
    if value == [] {
      assert value + [c] == [c] && [c][1..] == [];
    } else {
      assert (value + [c])[1..] == value[1..] + [c];
      FilterSnoc(value[1..], c);
    }
  }

  /** Where a string has ASCII letters and digits. */
  function LettersAndDigits(value: string): seq<bool> {
    seq(|value|, i requires 0 <= i < |value| =>
      '0' <= value[i] <= '9' || 'A' <= value[i] <= 'Z' || 'a' <= value[i] <= 'z')
  }

  lemma {:induction false} FilterPicks(value: string)
    ensures Filter(value) == Pick(value, LettersAndDigits(value))
  {
    if value != [] {
      var earlier, c := value[..|value| - 1], value[|value| - 1];
      FilterPicks(earlier);
      FilterSnoc(earlier, c);
      PickSnoc(earlier, LettersAndDigits(earlier), c, IsAsciiAlphanumeric(c));
      assert value == earlier + [c];
      assert LettersAndDigits(value) == LettersAndDigits(earlier) + [IsAsciiAlphanumeric(c)];
    }
  }

  /** A written reference is the ASCII letters and digits of the id, in order, the first twelve of them. */
  lemma WrittenReferenceExactly(value: string)
    ensures var picked := Pick(value, LettersAndDigits(value));
            NormalizeOrderRef(value) == if |picked| <= 12 then picked else picked[..12]
  {
    FilterPicks(value);
  }

  /** What can be written unchanged. */
  ghost predicate IsWritable(value: string) {
    |value| <= MAX_REF_LENGTH && forall c | c in value :: IsAsciiAlphanumeric(c)
  }

  lemma NormalizeIsIdentityExactly(value: string)
    ensures NormalizeOrderRef(value) == value <==> IsWritable(value)
  {
    if IsWritable(value) {
      FilterKeepsAlphanumeric(value);
    }
  }

  lemma {:induction false} PaddingOfItself(value: string)
    ensures IsPaddingOf(value, value)
  {
    if value != [] {
      PaddingOfItself(value[1..]);
    }
  }

  /** A reference that comes back for an order and is not, character by character, its client order id. */
  function MissedReturn(clientOrderId: string): string {
    var written := NormalizeOrderRef(clientOrderId);
    if written != clientOrderId then written else " " + written
  }

  lemma MissedReturnIsPadding(clientOrderId: string)
    ensures MissedReturn(clientOrderId) != clientOrderId
    ensures IsPaddingOf(MissedReturn(clientOrderId), NormalizeOrderRef(clientOrderId))
  {
    var written := NormalizeOrderRef(clientOrderId);
    PaddingOfItself(written);
    assert (" " + written)[1..] == written;
  }
}
