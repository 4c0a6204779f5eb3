/**
 Length-prefixed framing over a byte stream: four big-endian length bytes, then the payload.
 `Encode` and `Decode` specify one frame; `FramedWriter` and `FramedReader` do the work on streams
 that hand over their bytes in arbitrary pieces.
 */
module Framing {
  import opened Protocol

  type Byte = x: int | 0 <= x < 256

  const U32_LIMIT: nat := 0x1_0000_0000

  datatype FrameError = FrameTooLarge(actual: nat, maximum: nat) | UnexpectedEof

  function ToBigEndian(n: nat): (bytes: seq<Byte>)
    requires n < U32_LIMIT
    ensures |bytes| == 4
  {
    [n / 0x100_0000, n / 0x1_0000 % 0x100, n / 0x100 % 0x100, n % 0x100]
  }

  function FromBigEndian(bytes: seq<Byte>): (n: nat)
    requires |bytes| == 4
    ensures n < U32_LIMIT
  {
    var b0: int, b1: int, b2: int, b3: int := bytes[0], bytes[1], bytes[2], bytes[3];
    b0 * 0x100_0000 + b1 * 0x1_0000 + b2 * 0x100 + b3
  }

  lemma LengthRoundTrip(n: nat)
    requires n < U32_LIMIT
    ensures FromBigEndian(ToBigEndian(n)) == n
  {
    assert n / 0x1_0000 == n / 0x100_0000 * 0x100 + n / 0x1_0000 % 0x100;
    assert n / 0x100 == n / 0x1_0000 * 0x100 + n / 0x100 % 0x100;
    assert n == n / 0x100 * 0x100 + n % 0x100;
  }

  lemma BytesRoundTrip(bytes: seq<Byte>)
    requires |bytes| == 4
    ensures ToBigEndian(FromBigEndian(bytes)) == bytes
  {
    var n := FromBigEndian(bytes);
    var b0: int, b1: int, b2: int, b3: int := bytes[0], bytes[1], bytes[2], bytes[3];
    assert n % 0x100 == b3 && n / 0x100 == b0 * 0x1_0000 + b1 * 0x100 + b2;
    assert n / 0x100 % 0x100 == b2 && n / 0x1_0000 == b0 * 0x100 + b1;
  }

  /** `p` comes before `q` when they are compared byte by byte, the first byte counting most. */
  predicate Precedes(p: seq<Byte>, q: seq<Byte>)
    requires |p| == |q|
  {
    exists k :: 0 <= k < |p| && p[..k] == q[..k] && p[k] < q[k]
  }

  /** The byte order on the wire is big-endian: smaller lengths have earlier bytes. */
  lemma LengthsOrderLikeBytes(n: nat, m: nat)
    requires n < m < U32_LIMIT
    ensures Precedes(ToBigEndian(n), ToBigEndian(m))
  {
    var p, q := ToBigEndian(n), ToBigEndian(m);
    LengthRoundTrip(n);
    LengthRoundTrip(m);
    var k := if p[0] != q[0] then 0 else if p[1] != q[1] then 1 else if p[2] != q[2] then 2 else 3;
    assert p[..k] == q[..k] && p[k] < q[k];
  }

  function ValidateSize(actual: nat, maximum: nat): Result<(), FrameError> {
    if actual > maximum then Err(FrameTooLarge(actual, maximum)) else Ok(())
  }

  /** The bytes a sender with limit `maximum` puts on the stream for one payload. */
  function Encode(payload: seq<Byte>, maximum: nat): Result<seq<Byte>, FrameError> {
    if ValidateSize(|payload|, maximum).Err? || |payload| >= U32_LIMIT
    then Err(FrameTooLarge(|payload|, maximum))
    else Ok(ToBigEndian(|payload|) + payload)
  }

  datatype Parsed = Frame(payload: seq<Byte>, rest: seq<Byte>) | Broken(error: FrameError)

  /** What a reader with limit `maximum` makes of a stream that carries `bytes` and then ends. */
  function Decode(bytes: seq<Byte>, maximum: nat): Parsed {
    if |bytes| < 4 then Broken(UnexpectedEof)
    else
      var length := FromBigEndian(bytes[..4]);
      if length > maximum then Broken(FrameTooLarge(length, maximum))
      else if |bytes| < 4 + length then Broken(UnexpectedEof)
      else Frame(bytes[4..4 + length], bytes[4 + length..])
  }

  // ---------------------------------------------------------------- streams

  function Flatten(chunks: seq<seq<Byte>>): seq<Byte> {
    if chunks == [] then [] else chunks[0] + Flatten(chunks[1..])
  }

  /** The receiving end of a byte stream; its bytes arrive in `chunks` of any sizes, and then the stream ends. */
  class ByteSource {
    var chunks: seq<seq<Byte>>

    constructor (chunks: seq<seq<Byte>>)
      ensures this.chunks == chunks
    {
      this.chunks := chunks;
    }

    function Content(): seq<Byte>
      reads this
    {
      Flatten(chunks)
    }

    /** Takes at most `limit` bytes of whatever has arrived; nothing only at the end of the stream. */
    method Read(limit: nat) returns (got: seq<Byte>)
      requires limit > 0
      modifies this
      ensures |got| <= limit && old(Content()) == got + Content()
      ensures got == [] ==> old(Content()) == []
    {
      while chunks != [] && chunks[0] == []
        invariant Content() == old(Content())
        decreases |chunks|
      {
        chunks := chunks[1..];
      }
      if chunks == [] {
        return [];
      }
      var first := chunks[0];
      if |first| <= limit {
        chunks := chunks[1..];
        return first;
      }
      chunks := [first[limit..]] + chunks[1..];
      assert first == first[..limit] + first[limit..];
      return first[..limit];
    }

    /** Fills `buffer` completely, or fails having consumed the rest of the stream. */
    method ReadExact(buffer: array<Byte>) returns (filled: bool)
      modifies this, buffer
      ensures filled <==> buffer.Length <= |old(Content())|
      ensures filled ==> buffer[..] + Content() == old(Content())
    {
      var at := 0;
      while at < buffer.Length
        invariant at <= buffer.Length
        invariant buffer[..at] + Content() == old(Content())
      {
        var got := Read(buffer.Length - at);
        if got == [] {
          return false;
        }
        label Received:
        forall k | 0 <= k < |got| {
          buffer[at + k] := got[k];
        }
        assert buffer[..at + |got|] == old@Received(buffer[..at]) + got;
        at := at + |got|;
      }
      assert buffer[..at] == buffer[..];
      return true;
    }
  }

  class FramedReader {
    const source: ByteSource
    const maxFrameSize: nat
    /** The largest payload buffer allocated so far. */
    ghost var largestAllocation: nat

    constructor (source: ByteSource, maxFrameSize: nat)
      ensures this.source == source && this.maxFrameSize == maxFrameSize && largestAllocation == 0
    {
      this.source := source;
      this.maxFrameSize := maxFrameSize;
      largestAllocation := 0;
    }

    /** Receives one frame; the outcome depends on the bytes alone, not on how they were cut into chunks. */
    method Receive() returns (r: Result<seq<Byte>, FrameError>)
      requires largestAllocation <= maxFrameSize
      modifies source, this`largestAllocation
      ensures largestAllocation <= maxFrameSize
      ensures
        match Decode(old(source.Content()), maxFrameSize)
        case Frame(payload, rest) => r == Ok(payload) && source.Content() == rest
        case Broken(error) => r == Err(error)
    {
      var lengthBytes := new Byte[4];
      ghost var bytes := source.Content();
      var filled := source.ReadExact(lengthBytes);
      if !filled {
        return Err(UnexpectedEof);
      }
      assert lengthBytes[..] == bytes[..4] && source.Content() == bytes[4..];
      var length := FromBigEndian(lengthBytes[..]);
      var size := ValidateSize(length, maxFrameSize);
      if size.Err? {
        return Err(size.error);
      }
      var payload := new Byte[length];
      if length > largestAllocation {
        largestAllocation := length;
      }
      filled := source.ReadExact(payload);
      if !filled {
        return Err(UnexpectedEof);
      }
      ghost var tail := bytes[4..];
      assert payload[..] == tail[..length] == bytes[4..4 + length];
      assert source.Content() == tail[length..] == bytes[4 + length..];
      return Ok(payload[..]);
    }

    /** Receives until the stream breaks. */
    method ReceiveAll() returns (payloads: seq<seq<Byte>>, error: FrameError)
      requires largestAllocation <= maxFrameSize
      modifies source, this`largestAllocation
      ensures largestAllocation <= maxFrameSize
      ensures (payloads, error) == DecodeAll(old(source.Content()), maxFrameSize)
    {
      payloads := [];
      ghost var all := DecodeAll(source.Content(), maxFrameSize);
      assert payloads + all.0 == all.0;
      while true
        invariant largestAllocation <= maxFrameSize
        invariant
          var left := DecodeAll(source.Content(), maxFrameSize);
          all == (payloads + left.0, left.1)
        decreases |source.Content()|
      {
        ghost var left := DecodeAll(source.Content(), maxFrameSize);
        var r := Receive();
        match r {
          case Err(e) =>
            assert payloads + [] == payloads;
            return payloads, e;
          case Ok(payload) =>
            ghost var rest := DecodeAll(source.Content(), maxFrameSize).0;
            assert payloads + ([payload] + rest) == payloads + [payload] + rest;
            payloads := payloads + [payload];
        }
      }
    }
  }

  class FramedWriter {
    const maxFrameSize: nat
    /** Everything put on the stream so far. */
    var written: seq<Byte>

    constructor (maxFrameSize: nat)
      ensures this.maxFrameSize == maxFrameSize && written == []
    {
      this.maxFrameSize := maxFrameSize;
      written := [];
    }

    /** Sends one frame, or refuses an oversized payload before writing anything. */
    method Send(payload: seq<Byte>) returns (r: Result<(), FrameError>)
      modifies this
      ensures
        match Encode(payload, maxFrameSize)
        case Ok(frame) => r == Ok(()) && written == old(written) + frame
        case Err(error) => r == Err(error) && written == old(written)
    {
      var size := ValidateSize(|payload|, maxFrameSize);
      if size.Err? {
        return Err(size.error);
      }
      if |payload| >= U32_LIMIT {
        return Err(FrameTooLarge(|payload|, maxFrameSize));
      }
      written := written + ToBigEndian(|payload|);
      written := written + payload;
      return Ok(());
    }
  }

  // ---------------------------------------------------------------- properties

  /** Every frame of a stream up to the error that ends it. */
  function DecodeAll(bytes: seq<Byte>, maximum: nat): (seq<seq<Byte>>, FrameError)
    decreases |bytes|
  {
    match Decode(bytes, maximum)
    case Broken(error) => ([], error)
    case Frame(payload, rest) =>
      var (payloads, error) := DecodeAll(rest, maximum);
      ([payload] + payloads, error)
  }

  /** What a sender may send: payloads within its limit and within the range of the length field. */
  predicate Sendable(payloads: seq<seq<Byte>>, maximum: nat) {
    forall i :: 0 <= i < |payloads| ==> Encode(payloads[i], maximum).Ok?
  }

  function EncodeAll(payloads: seq<seq<Byte>>, maximum: nat): seq<Byte>
    requires Sendable(payloads, maximum)
  {
    if payloads == [] then []
    else Encode(payloads[0], maximum).value + EncodeAll(payloads[1..], maximum)
  }

  /** Anything a sender accepts is read back whole by any reader at least as generous, whatever follows it. */
  lemma FrameRoundTrip(payload: seq<Byte>, sendLimit: nat, readLimit: nat, rest: seq<Byte>)
    requires Encode(payload, sendLimit).Ok? && sendLimit <= readLimit
    ensures Decode(Encode(payload, sendLimit).value + rest, readLimit) == Frame(payload, rest)
  {
    var bytes := Encode(payload, sendLimit).value + rest;
    assert bytes[..4] == ToBigEndian(|payload|);
    LengthRoundTrip(|payload|);
    assert bytes[4..4 + |payload|] == payload && bytes[4 + |payload|..] == rest;
  }

  /** A reader yields a payload only off bytes that a sender with the same limit would have sent for it. */
  lemma OnlyFramesAreRead(bytes: seq<Byte>, maximum: nat)
    requires Decode(bytes, maximum).Frame?
    ensures
      var Frame(payload, rest) := Decode(bytes, maximum);
      Encode(payload, maximum).Ok? && bytes == Encode(payload, maximum).value + rest
  {
    BytesRoundTrip(bytes[..4]);
  }

  /** A sender refuses exactly what is over its limit or does not fit the length field, naming both sizes. */
  lemma SendersRefuseExactly(payload: seq<Byte>, maximum: nat)
    ensures Encode(payload, maximum).Ok? <==> |payload| <= maximum && |payload| < U32_LIMIT
    ensures Encode(payload, maximum).Err? ==> Encode(payload, maximum).error == FrameTooLarge(|payload|, maximum)
  {
  }

  /** A reader decides on the length alone whether to go on, and then on whether the payload arrives whole. */
  lemma ReadersDecideExactly(n: nat, rest: seq<Byte>, maximum: nat)
    requires n < U32_LIMIT
    ensures
      Decode(ToBigEndian(n) + rest, maximum) ==
      if n > maximum then Broken(FrameTooLarge(n, maximum))
      else if |rest| < n then Broken(UnexpectedEof)
      else Frame(rest[..n], rest[n..])
  {
    var bytes := ToBigEndian(n) + rest;
    assert bytes[..4] == ToBigEndian(n) && bytes[4..] == rest;
    LengthRoundTrip(n);
    if n <= |rest| {
      assert bytes[4..4 + n] == rest[..n] && bytes[4 + n..] == rest[n..];
    }
  }

  lemma OneFrameReadBack(payload: seq<Byte>, sendLimit: nat, readLimit: nat, rest: seq<Byte>)
    requires Encode(payload, sendLimit).Ok? && sendLimit <= readLimit
    ensures
      DecodeAll(Encode(payload, sendLimit).value + rest, readLimit) ==
      ([payload] + DecodeAll(rest, readLimit).0, DecodeAll(rest, readLimit).1)
  {
    FrameRoundTrip(payload, sendLimit, readLimit, rest);
  }

  lemma AppendsAssociate<T>(first: seq<T>, middle: seq<T>, last: seq<T>)
    ensures (first + middle) + last == first + (middle + last)
  {
  }

  /** A stream of frames, followed by anything, reads back as the payloads sent and then what follows. */
  lemma {:induction false} StreamRoundTrip(payloads: seq<seq<Byte>>, sendLimit: nat, readLimit: nat, tail: seq<Byte>)
    requires Sendable(payloads, sendLimit) && sendLimit <= readLimit
    ensures
      DecodeAll(EncodeAll(payloads, sendLimit) + tail, readLimit) ==
      (payloads + DecodeAll(tail, readLimit).0, DecodeAll(tail, readLimit).1)
    decreases |payloads|
  {
    var after := DecodeAll(tail, readLimit).0;
    if payloads == [] {
      assert EncodeAll(payloads, sendLimit) + tail == tail;
      assert payloads + after == after;
    } else {
      var first, others := Encode(payloads[0], sendLimit).value, EncodeAll(payloads[1..], sendLimit);
      OneFrameReadBack(payloads[0], sendLimit, readLimit, others + tail);
      StreamRoundTrip(payloads[1..], sendLimit, readLimit, tail);
      AppendsAssociate(first, others, tail);
      AppendsAssociate([payloads[0]], payloads[1..], after);
      assert payloads == [payloads[0]] + payloads[1..];
    }
  }

  /** A frame cut short reads as an unexpected end of the stream. */
  lemma CutFrameIsEof(payload: seq<Byte>, sendLimit: nat, readLimit: nat, cut: nat)
    requires Encode(payload, sendLimit).Ok? && sendLimit <= readLimit
    requires cut < |Encode(payload, sendLimit).value|
    ensures Decode(Encode(payload, sendLimit).value[..cut], readLimit) == Broken(UnexpectedEof)
  {
    var frame := Encode(payload, sendLimit).value;
    if cut >= 4 {
      assert frame[..cut][..4] == ToBigEndian(|payload|);
      LengthRoundTrip(|payload|);
    }
  }

  /** How many whole frames survive in the first `cut` bytes. */
  function WholeFrames(payloads: seq<seq<Byte>>, cut: nat): nat {
    if payloads == [] || cut < 4 + |payloads[0]| then 0
    else 1 + WholeFrames(payloads[1..], cut - (4 + |payloads[0]|))
  }

  /** A stream truncated anywhere yields exactly its complete frames and then the end-of-input error. */
  lemma {:induction false} TruncatedStream(payloads: seq<seq<Byte>>, sendLimit: nat, readLimit: nat, cut: nat)
    requires Sendable(payloads, sendLimit) && sendLimit <= readLimit
    requires cut <= |EncodeAll(payloads, sendLimit)|
    ensures WholeFrames(payloads, cut) <= |payloads|
    ensures DecodeAll(EncodeAll(payloads, sendLimit)[..cut], readLimit) ==
            (payloads[..WholeFrames(payloads, cut)], UnexpectedEof)
    decreases |payloads|
  {
    if payloads != [] {
      var all := EncodeAll(payloads, sendLimit);
      var first, others := Encode(payloads[0], sendLimit).value, EncodeAll(payloads[1..], sendLimit);
      if cut < |first| {
        assert all[..cut] == first[..cut];
        CutFrameIsEof(payloads[0], sendLimit, readLimit, cut);
      } else {
        assert all[..cut] == first + others[..cut - |first|];
        OneFrameReadBack(payloads[0], sendLimit, readLimit, others[..cut - |first|]);
        TruncatedStream(payloads[1..], sendLimit, readLimit, cut - |first|);
        FirstOnes(payloads, WholeFrames(payloads[1..], cut - |first|));
      }
    }
  }

  lemma FirstOnes<T>(s: seq<T>, n: nat)
    requires s != [] && n < |s|
    ensures [s[0]] + s[1..][..n] == s[..1 + n]
  {
  }

  /** No frame is a proper prefix of another: the stream can be cut into frames in one way only. */
  lemma FramesArePrefixFree(p: seq<Byte>, q: seq<Byte>, maximum: nat, more: seq<Byte>)
    requires Encode(p, maximum).Ok? && Encode(q, maximum).Ok?
    requires Encode(p, maximum).value + more == Encode(q, maximum).value
    ensures p == q && more == []
  {
    FrameRoundTrip(p, maximum, maximum, more);
    FrameRoundTrip(q, maximum, maximum, []);
    assert Encode(q, maximum).value + [] == Encode(q, maximum).value;
  }
}
