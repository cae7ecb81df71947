/** Length-prefixed framing: a four-byte big-endian length, then the payload. */
module Framing {
  import opened Selection
  import opened Wrappers

  type byte = b: int | 0 <= b < 0x100
  type Payload = seq<byte>

  const MAX_FRAME := 16 * 1024 * 1024

  /** The `k` low base-256 digits of `n`, most significant first. */
  function Digits(n: nat, k: nat): (r: seq<byte>)
    ensures |r| == k
  {
    if k == 0 then [] else Digits(n / 0x100, k - 1) + [n % 0x100]
  }

  function Number(digits: seq<byte>): nat {
    if digits == [] then 0
    else Number(digits[..|digits| - 1]) * 0x100 + digits[|digits| - 1] as int
  }

  function Pow256(k: nat): nat {
    if k == 0 then 1 else Pow256(k - 1) * 0x100
  }

  /** `(len as u32).to_be_bytes()`: lengths of 2^32 and more lose their high part. */
  function ToBeBytes(length: nat): (r: seq<byte>)
    ensures |r| == 4
  {
    Digits(length % TWO_32, 4)
  }

  function FromBeBytes(b: seq<byte>): nat
    requires |b| == 4
  {
    Number(b)
  }

  function EncodeFrame(payload: Payload): seq<byte> {
    ToBeBytes(|payload|) + payload
  }

  function EncodeAll(payloads: seq<Payload>): seq<byte> {
    if payloads == [] then [] else EncodeFrame(payloads[0]) + EncodeAll(payloads[1..])
  }

  /** Why reading stopped: end of stream within a length, within a payload, an oversized length, a refused payload. */
  datatype End = EofInLength | EofInPayload | TooLarge(length: nat) | Refused

  datatype Read = Read(frames: seq<Payload>, end: End)

  /**
   * The frames a reader delivers from a byte stream. `accept` is what handling a payload says: on a
   * refusal reading stops.
   */
  function Decode(stream: seq<byte>, accept: Payload -> bool): Read {
    if |stream| < 4 then Read([], EofInLength)
    else
      var length := FromBeBytes(stream[..4]);
      if length > MAX_FRAME then Read([], TooLarge(length))
      else if |stream| - 4 < length then Read([], EofInPayload)
      else
        var payload := stream[4..4 + length];
        if !accept(payload) then Read([payload], Refused)
        else
          var rest := Decode(stream[4 + length..], accept);
          Read([payload] + rest.frames, rest.end)
  }

  function All(payload: Payload): bool { true }

  ghost predicate WithinLimit(payloads: seq<Payload>) {
    forall p | p in payloads :: |p| <= MAX_FRAME
  }

  lemma {:induction false} NumberOfDigits(n: nat, k: nat)
    requires n < Pow256(k)
    ensures Number(Digits(n, k)) == n
  {
    if k > 0 {
      NumberOfDigits(n / 0x100, k - 1);
      assert Digits(n, k)[..k - 1] == Digits(n / 0x100, k - 1);
    }
  }

  lemma {:induction false} DigitsOfNumber(digits: seq<byte>)
    ensures Number(digits) < Pow256(|digits|) && Digits(Number(digits), |digits|) == digits
  {
    if digits != [] {
      var front := digits[..|digits| - 1];
      DigitsOfNumber(front);
      assert digits == front + [digits[|digits| - 1]];
      assert Number(digits) / 0x100 == Number(front);
    }
  }

  lemma PowFour()
    ensures Pow256(4) == TWO_32
  {
    assert Pow256(1) == 0x100 && Pow256(2) == 0x1_0000 && Pow256(3) == 0x100_0000;
  }

  lemma BeBytesRoundTrip(length: nat)
    ensures FromBeBytes(ToBeBytes(length)) == length % TWO_32
  {
    PowFour();
    NumberOfDigits(length % TWO_32, 4);
  }

  lemma BeBytesInjective(b: seq<byte>)
    requires |b| == 4
    ensures FromBeBytes(b) < TWO_32 && ToBeBytes(FromBeBytes(b)) == b
  {
    PowFour();
    DigitsOfNumber(b);
  }

  lemma DecodeOneFrame(payload: Payload, rest: seq<byte>, accept: Payload -> bool)
    requires |payload| <= MAX_FRAME
    ensures Decode(EncodeFrame(payload) + rest, accept)
            == if accept(payload)
               then Read([payload] + Decode(rest, accept).frames, Decode(rest, accept).end)
               else Read([payload], Refused)
  {
    var stream := EncodeFrame(payload) + rest;
    BeBytesRoundTrip(|payload|);
    assert stream[..4] == ToBeBytes(|payload|);
    assert stream[4..4 + |payload|] == payload;
    assert stream[4 + |payload|..] == rest;
  }

  /** Reading encoded frames followed by anything delivers the frames, then what the rest holds. */
  lemma {:induction false} DecodeFramesThenRest(payloads: seq<Payload>, rest: seq<byte>)
    requires WithinLimit(payloads)
    ensures Decode(EncodeAll(payloads) + rest, All)
            == Read(payloads + Decode(rest, All).frames, Decode(rest, All).end)
  {
    if payloads == [] {
      assert EncodeAll(payloads) + rest == rest;
    } else {
      DecodeFramesThenRest(payloads[1..], rest);
      DecodeFirstOfMany(payloads, rest, Decode(rest, All));
    }
  }

  lemma Reassociate<T>(a: seq<T>, b: seq<T>, c: seq<T>)
    ensures (a + b) + c == a + (b + c)
  {
  }

  lemma DecodeFirstOfMany(payloads: seq<Payload>, rest: seq<byte>, read: Read)
    requires payloads != [] && |payloads[0]| <= MAX_FRAME
    requires Decode(EncodeAll(payloads[1..]) + rest, All) == Read(payloads[1..] + read.frames, read.end)
    ensures Decode(EncodeAll(payloads) + rest, All) == Read(payloads + read.frames, read.end)
  {
    var first, others := payloads[0], payloads[1..];
    Reassociate(EncodeFrame(first), EncodeAll(others), rest);
    DecodeOneFrame(first, EncodeAll(others) + rest, All);
    Reassociate([first], others, read.frames);
    assert [first] + others == payloads;
  }

  /** Round trip: what was framed is what is delivered, and reading ends between frames. */
  lemma FramingRoundTrip(payloads: seq<Payload>)
    requires WithinLimit(payloads)
    ensures Decode(EncodeAll(payloads), All) == Read(payloads, EofInLength)
  {
    DecodeFramesThenRest(payloads, []);
    assert EncodeAll(payloads) + [] == EncodeAll(payloads);
  }

  /** A payload above 16 MiB at the head of a stream is not what a reader delivers first. */
  lemma OversizedIsNotDelivered(payload: Payload, rest: seq<byte>)
    requires |payload| > MAX_FRAME
    ensures var frames := Decode(EncodeFrame(payload) + rest, All).frames; frames == [] || frames[0] != payload
  {
    var stream := EncodeFrame(payload) + rest;
    BeBytesRoundTrip(|payload|);
    assert stream[..4] == ToBeBytes(|payload|);
    var frames := Decode(stream, All).frames;
    assert frames != [] ==> |frames[0]| == |payload| % TWO_32 <= MAX_FRAME;
  }

  /**
   * Payloads of any lengths come back as they were exactly when each is at most 16 MiB; a wrapped length
   * never helps.
   */
  lemma {:induction false} PayloadsSurviveExactly(payloads: seq<Payload>)
    ensures Decode(EncodeAll(payloads), All).frames == payloads <==> forall p | p in payloads :: |p| <= 16_777_216
  {
    if WithinLimit(payloads) {
      FramingRoundTrip(payloads);
    } else {
      var first, others := payloads[0], payloads[1..];
      if |first| > MAX_FRAME {
        OversizedIsNotDelivered(first, EncodeAll(others));
      } else {
        assert payloads == [first] + others;
        PayloadsSurviveExactly(others);
        DecodeOneFrame(first, EncodeAll(others), All);
        assert ([first] + Decode(EncodeAll(others), All).frames)[1..] == Decode(EncodeAll(others), All).frames;
      }
    }
  }

  /** A length above 16 MiB stops the reader after every earlier frame was delivered. */
  lemma OversizedLengthStopsReading(payloads: seq<Payload>, length: nat, rest: seq<byte>)
    requires WithinLimit(payloads) && MAX_FRAME < length < TWO_32
    ensures Decode(EncodeAll(payloads) + (ToBeBytes(length) + rest), All) == Read(payloads, TooLarge(length))
  {
    OversizedDeliversNothing(length, rest);
    DecodeFramesThenRest(payloads, ToBeBytes(length) + rest);
    assert payloads + [] == payloads;
  }

  lemma OversizedDeliversNothing(length: nat, rest: seq<byte>)
    requires MAX_FRAME < length < TWO_32
    ensures Decode(ToBeBytes(length) + rest, All) == Read([], TooLarge(length))
  {
    BeBytesRoundTrip(length);
    assert (ToBeBytes(length) + rest)[..4] == ToBeBytes(length);
  }

  // ---- cut streams ----

  /** How many frames lie completely within the first `n` bytes. */
  function CompleteWithin(payloads: seq<Payload>, n: nat): (k: nat)
    ensures k <= |payloads|
  {
    if payloads == [] || n < |EncodeFrame(payloads[0])| then 0
    else 1 + CompleteWithin(payloads[1..], n - |EncodeFrame(payloads[0])|)
  }

  lemma {:induction false} CompleteWithinExactly(payloads: seq<Payload>, n: nat)
    ensures var k := CompleteWithin(payloads, n);
            && k <= |payloads| && |EncodeAll(payloads[..k])| <= n
            && (k < |payloads| ==> n < |EncodeAll(payloads[..k + 1])|)
  {
    var k := CompleteWithin(payloads, n);
    if k == 0 {
      assert payloads[..0] == [];
      if payloads != [] {
        assert payloads[..1][1..] == [];
        assert EncodeAll(payloads[..1]) == EncodeFrame(payloads[0]) + EncodeAll([]);
      }
    } else {
      CompleteWithinExactly(payloads[1..], n - |EncodeFrame(payloads[0])|);
      assert payloads[..k][1..] == payloads[1..][..k - 1];
      if k < |payloads| {
        assert payloads[..k + 1][1..] == payloads[1..][..k];
      }
    }
  }

  /** A stream cut inside its first frame delivers nothing. */
  lemma CutInFirstFrame(payload: Payload, rest: seq<byte>, n: nat)
    requires |payload| <= MAX_FRAME && n < |EncodeFrame(payload)|
    ensures var read := Decode((EncodeFrame(payload) + rest)[..n], All);
            read.frames == [] && (read.end.EofInLength? <==> n < 4)
  {
    var stream := (EncodeFrame(payload) + rest)[..n];
    BeBytesRoundTrip(|payload|);
    if n >= 4 {
      assert stream[..4] == ToBeBytes(|payload|);
    }
  }

  /**
   * Cut after `n` bytes, the stream delivers the first `k` frames, and ends in a length rather than in
   * a payload exactly when fewer than four bytes follow them.
   */
  ghost predicate CutDelivers(payloads: seq<Payload>, n: nat, k: nat)
    requires k <= |payloads| && n <= |EncodeAll(payloads)|
  {
    var read := Decode(EncodeAll(payloads)[..n], All);
    read.frames == payloads[..k] && (read.end.EofInLength? <==> n - |EncodeAll(payloads[..k])| < 4)
  }

  lemma CutInTail(payloads: seq<Payload>, n: nat, k: nat)
    requires payloads != [] && |payloads[0]| <= MAX_FRAME && k < |payloads|
    requires |EncodeFrame(payloads[0])| <= n <= |EncodeAll(payloads)|
    requires CutDelivers(payloads[1..], n - |EncodeFrame(payloads[0])|, k)
    ensures CutDelivers(payloads, n, k + 1)
  {
    CutAfterFirstFrame(payloads[0], EncodeAll(payloads[1..]), n);
    DecodeOneFrame(payloads[0], EncodeAll(payloads[1..])[..n - |EncodeFrame(payloads[0])|], All);
    FirstAndTail(payloads, k);
  }

  lemma FirstAndTail(payloads: seq<Payload>, k: nat)
    requires k < |payloads|
    ensures payloads[..k + 1] == [payloads[0]] + payloads[1..][..k]
    ensures |EncodeAll(payloads[..k + 1])| == |EncodeFrame(payloads[0])| + |EncodeAll(payloads[1..][..k])|
  {
    EncodeAllCons(payloads[0], payloads[1..][..k]);
  }

  /** Any byte prefix of the encoding delivers exactly the frames complete in it. */
  lemma {:induction false} CutStreamKeepsCompleteFrames(payloads: seq<Payload>, n: nat)
    requires WithinLimit(payloads) && n <= |EncodeAll(payloads)|
    ensures CutDelivers(payloads, n, CompleteWithin(payloads, n))
  {
    var k := CompleteWithin(payloads, n);
    if k == 0 {
      assert payloads[..0] == [];
      if payloads != [] {
        CutInFirstFrame(payloads[0], EncodeAll(payloads[1..]), n);
      }
    } else {
      CutStreamKeepsCompleteFrames(payloads[1..], n - |EncodeFrame(payloads[0])|);
      CutInTail(payloads, n, k - 1);
    }
  }

  lemma CutAfterFirstFrame(payload: Payload, rest: seq<byte>, n: nat)
    requires |EncodeFrame(payload)| <= n <= |EncodeFrame(payload) + rest|
    ensures (EncodeFrame(payload) + rest)[..n] == EncodeFrame(payload) + rest[..n - |EncodeFrame(payload)|]
  {
  }

  lemma EncodeAllCons(payload: Payload, payloads: seq<Payload>)
    ensures EncodeAll([payload] + payloads) == EncodeFrame(payload) + EncodeAll(payloads)
  {
    assert ([payload] + payloads)[1..] == payloads;
  }

  /** A stream whose first length is in range and satisfied starts with that frame. */
  lemma SplitFirstFrame(stream: seq<byte>)
    requires |stream| >= 4 && FromBeBytes(stream[..4]) <= |stream| - 4
    ensures var length := FromBeBytes(stream[..4]);
            stream == EncodeFrame(stream[4..4 + length]) + stream[4 + length..]
  {
    BeBytesInjective(stream[..4]);
  }

  lemma PrefixOfConcat(a: seq<byte>, b: seq<byte>, c: seq<byte>)
    requires b <= c
    ensures a + b <= a + c
  {
  }

  /** Any delivered frames are the stream: it starts with their encoding, and decoding is the only parse. */
  lemma {:induction false} DecodedFramesAreThePrefix(stream: seq<byte>)
    ensures WithinLimit(Decode(stream, All).frames) && EncodeAll(Decode(stream, All).frames) <= stream
  {
    if |stream| >= 4 && FromBeBytes(stream[..4]) <= MAX_FRAME && FromBeBytes(stream[..4]) <= |stream| - 4 {
      var length := FromBeBytes(stream[..4]);
      var payload, rest := stream[4..4 + length], stream[4 + length..];
      DecodedFramesAreThePrefix(rest);
      SplitFirstFrame(stream);
      DecodeOneFrame(payload, rest, All);
      EncodeAllCons(payload, Decode(rest, All).frames);
      PrefixOfConcat(EncodeFrame(payload), EncodeAll(Decode(rest, All).frames), rest);
    }
  }

  // ---- the reader ----

  /** The client the last hello among the payloads introduced. */
  function Introduced(payloads: seq<Payload>, hello: Payload -> Option<string>): Option<string> {
    if payloads == [] then None
    else if hello(payloads[|payloads| - 1]).Some? then hello(payloads[|payloads| - 1])
    else Introduced(payloads[..|payloads| - 1], hello)
  }

  /** It is the last of them whose payload is a hello. */
  lemma {:induction false} IntroducedByLastHello(payloads: seq<Payload>, hello: Payload -> Option<string>)
    ensures match Introduced(payloads, hello)
            case None => forall k | 0 <= k < |payloads| :: hello(payloads[k]).None?
            case Some(client) =>
              exists k :: && 0 <= k < |payloads| && hello(payloads[k]) == Some(client)
                          && forall j | k < j < |payloads| :: hello(payloads[j]).None?
  {
    if payloads != [] && hello(payloads[|payloads| - 1]).None? {
      IntroducedByLastHello(payloads[..|payloads| - 1], hello);
    }
  }

  /**
   * The server's read loop: the delivered frames, why it stopped, and the client whose market data it
   * then cleans up. `marketData` is the kind of the endpoint, `hello` the client a payload introduces,
   * `broken` whether the stream ends in a transport error rather than in its end.
   */
  method ReadLoop(stream: seq<byte>, broken: bool, marketData: bool, hello: Payload -> Option<string>,
                  accept: Payload -> bool)
    returns (frames: seq<Payload>, end: End, cleanup: Option<string>)
    ensures Read(frames, end) == Decode(stream, accept)
    ensures cleanup == if end.EofInLength? && !broken && marketData then Introduced(frames, hello) else None
  {
    ghost var whole := Decode(stream, accept);
    var left := stream;
    var connected: Option<string> := None;
    frames, end, cleanup := [], EofInLength, None;
    while true
      invariant whole == Read(frames + Decode(left, accept).frames, Decode(left, accept).end)
      invariant connected == if marketData then Introduced(frames, hello) else None
      invariant cleanup.None?
      decreases |left|
    {
      if |left| < 4 {
        if !broken && marketData {
          cleanup := connected;
        }
        return;
      }
      var length := FromBeBytes(left[..4]);
      if length > MAX_FRAME {
        end := TooLarge(length);
        return;
      }
      if |left| - 4 < length {
        end := EofInPayload;
        return;
      }
      var payload := left[4..4 + length];
      var rest := left[4 + length..];
      if marketData && hello(payload).Some? {
        connected := hello(payload);
      }
      assert (frames + [payload])[..|frames|] == frames;
      if !accept(payload) {
        frames, end := frames + [payload], Refused;
        return;
      }
      Reassociate(frames, [payload], Decode(rest, accept).frames);
      frames := frames + [payload];
      left := rest;
    }
  }

  // ---- the writer ----

  /**
   * A command to the writer task. `active` is whether the connection was active, `room` how many bytes
   * go out before the transport fails.
   */
  datatype WriterCommand =
    | Send(payload: Payload, active: bool, room: Option<nat>)
    | Update

  /** The payloads put on the current connection, one after another. */
  function Written(commands: seq<WriterCommand>): seq<Payload> {
    if commands == [] then []
    else
      match commands[|commands| - 1]
      case Update => []
      case Send(payload, active, _) =>
        Written(commands[..|commands| - 1]) + if active then [payload] else []
  }

  /** The writer took it while the connection was active, and has not swapped connections since. */
  ghost predicate GoesOut(commands: seq<WriterCommand>, i: nat) {
    && i < |commands| && commands[i].Send? && commands[i].active
    && forall j | i < j < |commands| :: commands[j].Send?
  }

  ghost function Going(commands: seq<WriterCommand>): seq<bool> {
    seq(|commands|, i requires 0 <= i < |commands| => GoesOut(commands, i))
  }

  lemma GoesOutNext(commands: seq<WriterCommand>, command: WriterCommand, i: nat)
    requires i < |commands|
    ensures GoesOut(commands + [command], i) <==> command.Send? && GoesOut(commands, i)
  {
    var all := commands + [command];
    assert all[i] == commands[i] && all[|commands|] == command;
    assert forall j | i < j < |commands| :: all[j] == commands[j];
  }

  lemma GoingNext(commands: seq<WriterCommand>, command: WriterCommand)
    ensures command.Update? ==> Kept(Going(commands + [command])) == []
    ensures command.Send? ==> Going(commands + [command]) == Going(commands) + [command.active]
  {
    var all := commands + [command];
    forall i | 0 <= i < |commands| ensures GoesOut(all, i) <==> command.Send? && GoesOut(commands, i) {
      GoesOutNext(commands, command, i);
    }
    if command.Update? {
      NoneKept(Going(all));
    }
  }

  /** What is on the wire is exactly the payloads that go out, in order, each once. */
  lemma {:induction false} WrittenExactly(commands: seq<WriterCommand>)
    ensures var sent := Pick(commands, Going(commands));
            && |Written(commands)| == |sent|
            && forall k | 0 <= k < |sent| :: sent[k].Send? && Written(commands)[k] == sent[k].payload
  {
    if commands != [] {
      var earlier, last := commands[..|commands| - 1], commands[|commands| - 1];
      WrittenExactly(earlier);
      assert commands == earlier + [last];
      GoingNext(earlier, last);
      if last.Send? {
        PickSnoc(earlier, Going(earlier), last, last.active);
      }
    }
  }

  lemma {:induction false} EncodeAllAppend(payloads: seq<Payload>, payload: Payload)
    ensures EncodeAll(payloads + [payload]) == EncodeAll(payloads) + EncodeFrame(payload)
  {
    if payloads == [] {
      assert [payload][1..] == [] && payloads + [payload] == [payload];
      assert EncodeAll([payload]) == EncodeFrame(payload) + EncodeAll([]);
    } else {
      assert (payloads + [payload])[1..] == payloads[1..] + [payload];
      EncodeAllAppend(payloads[1..], payload);
    }
  }

  /** The writer task: `wire` is what reached the current connection when it ran out of commands or failed. */
  method WriteLoop(commands: seq<WriterCommand>) returns (wire: seq<byte>, taken: nat, failed: bool)
    ensures taken <= |commands| && (failed || taken == |commands|)
    ensures !failed ==> wire == EncodeAll(Written(commands[..taken]))
    ensures failed ==> taken > 0 && commands[taken - 1].Send? && wire <= EncodeAll(Written(commands[..taken]))
  {
    wire, taken, failed := [], 0, false;
    while taken < |commands|
      invariant taken <= |commands|
      invariant wire == EncodeAll(Written(commands[..taken]))
    {
      var command := commands[taken];
      assert commands[..taken + 1][..taken] == commands[..taken];
      taken := taken + 1;
      match command
      case Update =>
        wire := [];
      case Send(payload, active, room) =>
        if !active {
          assert Written(commands[..taken - 1]) + [] == Written(commands[..taken - 1]);
          continue;
        }
        EncodeAllAppend(Written(commands[..taken - 1]), payload);
        var frame := EncodeFrame(payload);
        if room.Some? && room.value < |frame| {
          wire := wire + frame[..room.value];
          failed := true;
          return;
        }
        wire := wire + frame;
    }
  }

  /**
   * Whatever the writer sent and however the connection was cut, the peer is handed a prefix of the
   * payloads put on that connection, in order, none altered.
   */
  lemma PeerReceivesPrefix(commands: seq<WriterCommand>, wire: seq<byte>)
    requires WithinLimit(Written(commands)) && wire <= EncodeAll(Written(commands))
    ensures Decode(wire, All).frames <= Written(commands)
    ensures wire == EncodeAll(Written(commands)) ==> Decode(wire, All).frames == Written(commands)
  {
    var payloads := Written(commands);
    CutStreamKeepsCompleteFrames(payloads, |wire|);
    assert EncodeAll(payloads)[..|wire|] == wire;
    CompleteWithinExactly(payloads, |wire|);
    if wire == EncodeAll(payloads) {
      FramingRoundTrip(payloads);
    }
  }
}
