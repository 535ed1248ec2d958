/**
  Length-prefixed frames: a four-byte big-endian length and then the payload.
  A reader may be given its bytes in any fragments and a writer may take them in
  any portions; what is read and written does not depend on it.
*/
module Framing {
  import opened Wrappers

  type Byte = b: int | 0 <= b < 256 witness 0

  const TWO_32: int := 0x1_0000_0000

  const DEFAULT_MAX_FRAME_SIZE: int := 0x10_0000

  /** How a byte stream ends: cleanly, or with some error of the connection. */
  datatype Ending = Clean | Broken(error: string)

  datatype ReadError = EOF | UnexpectedEOF | FrameTooLarge | ConnError(error: string)

  datatype ReadResult = Payload(payload: seq<Byte>) | ReadFailed(err: ReadError)

  datatype WriteError = ShortWrite | WriteFailed(error: string)

  // ----- the header

  function LowByte(n: nat): Byte { n % 256 }

  /** The last `width` digits of `n` to the base 256, the highest first. */
  function BigEndian(n: nat, width: nat): (h: seq<Byte>)
    ensures |h| == width
  {
    if width == 0 then [] else BigEndian(n / 256, width - 1) + [LowByte(n)]
  }

  /** `uint32(n)`, big end first. */
  function Header(n: nat): (h: seq<Byte>)
    ensures |h| == 4
  {
    BigEndian(n, 4)
  }

  function Weigh(a: int, b: int, c: int, d: int): int { ((a * 256 + b) * 256 + c) * 256 + d }

  function Value(h: seq<Byte>): (n: nat)
    requires |h| == 4
    ensures n < TWO_32
  {
    Weigh(h[0], h[1], h[2], h[3])
  }

  /** The four bytes that `PutUint32` writes: the length shifted by three bytes, by two, by one and not at all. */
  lemma HeaderBytes(n: nat)
    ensures Header(n) == [LowByte(n / 256 / 256 / 256), LowByte(n / 256 / 256), LowByte(n / 256), LowByte(n)]
  {
    var a := n / 256;
    var b := a / 256;
    var c := b / 256;
    assert BigEndian(c, 1) == [] + [LowByte(c)];
    assert BigEndian(b, 2) == [LowByte(c)] + [LowByte(b)];
    assert BigEndian(a, 3) == [LowByte(c), LowByte(b)] + [LowByte(a)];
  }

  lemma Remainder(n: nat, q: nat, r: nat)
    requires n == TWO_32 * q + r && r < TWO_32
    ensures n % TWO_32 == r
  {
  }

  /** What four digits leave out is a multiple of two to the 32. */
  lemma Digits(n: nat, a: nat, b: nat, c: nat, q: nat)
    requires a == n / 256 && b == a / 256 && c == b / 256 && q == c / 256
    ensures n == TWO_32 * q + Weigh(c % 256, b % 256, a % 256, n % 256)
  {
    assert n == 256 * a + n % 256 && a == 256 * b + a % 256;
    assert b == 256 * c + b % 256 && c == 256 * q + c % 256;
  }

  /** The header keeps a length below two to the 32, and any other only modulo that. */
  lemma HeaderValue(n: nat)
    ensures Value(Header(n)) == n % TWO_32
  {
    var a := n / 256;
    var b := a / 256;
    var c := b / 256;
    HeaderBytes(n);
    Digits(n, a, b, c, c / 256);
    Remainder(n, c / 256, Value(Header(n)));
  }

  lemma Shift(x: nat, y: nat)
    requires y < 256
    ensures (x * 256 + y) / 256 == x && (x * 256 + y) % 256 == y
  {
  }

  lemma ValueHeader(h: seq<Byte>)
    requires |h| == 4
    ensures Header(Value(h)) == h
  {
    HeaderBytes(Value(h));
    var a: int, b: int, c: int, d: int := h[0], h[1], h[2], h[3];
    Shift((a * 256 + b) * 256 + c, d);
    Shift(a * 256 + b, c);
    Shift(a, b);
  }

  // ----- what a frame means

  function Encode(payload: seq<Byte>): seq<Byte> { Header(|payload|) + payload }

  /** A limit that is not positive means the default. */
  function EffectiveMax(maxFrameSize: int): (m: int)
    ensures m > 0
  {
    if maxFrameSize <= 0 then DEFAULT_MAX_FRAME_SIZE else maxFrameSize
  }

  /** The error of reading a buffer full when only `got` bytes, too few, are there. */
  function Short(got: nat, ending: Ending): ReadError {
    match ending
    case Broken(error) => ConnError(error)
    case Clean => if got == 0 then EOF else UnexpectedEOF
  }

  /** One frame off the front of the input, and what is left of it. */
  function Decode(input: seq<Byte>, maxFrameSize: int, ending: Ending): (ReadResult, seq<Byte>) {
    if |input| < 4 then (ReadFailed(Short(|input|, ending)), [])
    else DecodeBody(Value(input[..4]), input[4..], maxFrameSize, ending)
  }

  /** Behind a header that announces `size` bytes. */
  function DecodeBody(size: nat, rest: seq<Byte>, maxFrameSize: int, ending: Ending): (ReadResult, seq<Byte>) {
    if size > EffectiveMax(maxFrameSize) then (ReadFailed(FrameTooLarge), rest)
    else if |rest| < size then (ReadFailed(Short(|rest|, ending)), [])
    else (Payload(rest[..size]), rest[size..])
  }

  /** The payload can be framed, and the reader will take it. */
  predicate Fits(payload: seq<Byte>, maxFrameSize: int) {
    |payload| < TWO_32 && |payload| <= EffectiveMax(maxFrameSize)
  }

  /** What a frame can carry of a payload: only its length modulo two to the 32 travels with it. */
  function Carried(payload: seq<Byte>): (c: seq<Byte>)
    ensures c <= payload && (c == payload <==> |payload| < TWO_32)
  {
    payload[..|payload| % TWO_32]
  }

  lemma BodyOf(size: nat, payload: seq<Byte>, rest: seq<Byte>, maxFrameSize: int, ending: Ending)
    requires size <= |payload|
    ensures DecodeBody(size, payload + rest, maxFrameSize, ending) ==
              if size > EffectiveMax(maxFrameSize) then (ReadFailed(FrameTooLarge), payload + rest)
              else (Payload(payload[..size]), payload[size..] + rest)
  {
    assert (payload + rest)[..size] == payload[..size];
    assert (payload + rest)[size..] == payload[size..] + rest;
  }

  lemma Regroup(a: seq<Byte>, b: seq<Byte>, c: seq<Byte>)
    ensures a + b + c == a + (b + c)
  {
  }

  lemma DecodeBehind(h: seq<Byte>, rest: seq<Byte>, maxFrameSize: int, ending: Ending)
    requires |h| == 4
    ensures Decode(h + rest, maxFrameSize, ending) == DecodeBody(Value(h), rest, maxFrameSize, ending)
  {
    assert (h + rest)[..4] == h && (h + rest)[4..] == rest;
  }

  lemma DecodeAnnounced(h: seq<Byte>, payload: seq<Byte>, rest: seq<Byte>, maxFrameSize: int, ending: Ending)
    requires |h| == 4 && Value(h) <= |payload|
    ensures Decode(h + payload + rest, maxFrameSize, ending) ==
              if Value(h) > EffectiveMax(maxFrameSize) then (ReadFailed(FrameTooLarge), payload + rest)
              else (Payload(payload[..Value(h)]), payload[Value(h)..] + rest)
  {
    Regroup(h, payload, rest);
    DecodeBehind(h, payload + rest, maxFrameSize, ending);
    BodyOf(Value(h), payload, rest, maxFrameSize, ending);
  }

  /** What any frame at all decodes to. */
  lemma DecodeFrame(payload: seq<Byte>, rest: seq<Byte>, maxFrameSize: int, ending: Ending)
    ensures Decode(Encode(payload) + rest, maxFrameSize, ending) ==
              if |Carried(payload)| > EffectiveMax(maxFrameSize) then (ReadFailed(FrameTooLarge), payload + rest)
              else (Payload(Carried(payload)), payload[|Carried(payload)|..] + rest)
  {
    HeaderValue(|payload|);
    DecodeAnnounced(Header(|payload|), payload, rest, maxFrameSize, ending);
  }

  /** A frame reads back as its payload, with later bytes untouched, exactly when the payload fits. */
  lemma RoundTrip(payload: seq<Byte>, rest: seq<Byte>, maxFrameSize: int, ending: Ending)
    ensures Decode(Encode(payload) + rest, maxFrameSize, ending) == (Payload(payload), rest)
            <==> Fits(payload, maxFrameSize)
  {
    DecodeFrame(payload, rest, maxFrameSize, ending);
    if |payload| < TWO_32 {
      assert payload[|Carried(payload)|..] + rest == rest;
    }
  }

  /** In numbers: a limit that is not positive means 1048576 bytes, any other what it says. */
  lemma LimitExactly(payload: seq<Byte>, rest: seq<Byte>, maxFrameSize: int, ending: Ending)
    ensures Decode(Encode(payload) + rest, maxFrameSize, ending) == (Payload(payload), rest) <==>
            |payload| < 4294967296 && |payload| <= if maxFrameSize > 0 then maxFrameSize else 1048576
    ensures (if maxFrameSize > 0 then maxFrameSize else 1048576) < |payload| < 4294967296 ==>
              Decode(Encode(payload) + rest, maxFrameSize, ending) == (ReadFailed(FrameTooLarge), payload + rest)
  {
    RoundTrip(payload, rest, maxFrameSize, ending);
    if EffectiveMax(maxFrameSize) < |payload| < TWO_32 {
      Oversized(payload, rest, maxFrameSize, ending);
    }
  }

  /** A reader that has its frame, or has refused it, needs none of the bytes that come later. */
  lemma LaterBytesDoNotMatter(input: seq<Byte>, later: seq<Byte>, maxFrameSize: int, ending: Ending)
    requires var r := Decode(input, maxFrameSize, ending).0; r.Payload? || r.err == FrameTooLarge
    ensures Decode(input + later, maxFrameSize, ending) ==
            (Decode(input, maxFrameSize, ending).0, Decode(input, maxFrameSize, ending).1 + later)
  {
    var size, rest := Value(input[..4]), input[4..];
    assert input + later == input[..4] + (rest + later);
    DecodeBehind(input[..4], rest + later, maxFrameSize, ending);
    if size <= |rest| {
      BodyOf(size, rest, later, maxFrameSize, ending);
    }
  }

  /** Whatever reads as a payload was the frame of that payload: the reader accepts nothing else. */
  lemma OnlyFrames(input: seq<Byte>, maxFrameSize: int, ending: Ending)
    requires Decode(input, maxFrameSize, ending).0.Payload?
    ensures var (r, rest) := Decode(input, maxFrameSize, ending);
            input == Encode(r.payload) + rest && Fits(r.payload, maxFrameSize)
  {
    var size := Value(input[..4]);
    ValueHeader(input[..4]);
    assert input == input[..4] + input[4..][..size] + input[4..][size..];
  }

  /** A frame over the limit is refused once its header is consumed, and nothing more. */
  lemma Oversized(payload: seq<Byte>, rest: seq<Byte>, maxFrameSize: int, ending: Ending)
    requires EffectiveMax(maxFrameSize) < |payload| < TWO_32
    ensures Decode(Encode(payload) + rest, maxFrameSize, ending) == (ReadFailed(FrameTooLarge), payload + rest)
  {
    DecodeFrame(payload, rest, maxFrameSize, ending);
  }

  lemma CutDecode(payload: seq<Byte>, k: nat, maxFrameSize: int, ending: Ending)
    requires Fits(payload, maxFrameSize) && k < |Encode(payload)|
    ensures Decode(Encode(payload)[..k], maxFrameSize, ending) ==
            (ReadFailed(Short(if k < 4 then k else k - 4, ending)), [])
  {
    if k >= 4 {
      HeaderValue(|payload|);
      Remainder(|payload|, 0, |payload|);
      assert Encode(payload)[..k] == Header(|payload|) + payload[..k - 4];
      DecodeBehind(Header(|payload|), payload[..k - 4], maxFrameSize, ending);
    }
  }

  /**
    A stream cut inside a frame is an error; when it ends cleanly the error is
    the plain end of file exactly when the cut is before the header or just
    behind it, and when it breaks off it is that error of the connection.
  */
  lemma Truncated(payload: seq<Byte>, k: nat, maxFrameSize: int, ending: Ending)
    requires Fits(payload, maxFrameSize) && k < |Encode(payload)|
    ensures Decode(Encode(payload)[..k], maxFrameSize, ending).0.ReadFailed?
    ensures Decode(Encode(payload)[..k], maxFrameSize, Clean).0 ==
            ReadFailed(if k == 0 || k == 4 then EOF else UnexpectedEOF)
    ensures ending.Broken? ==>
              Decode(Encode(payload)[..k], maxFrameSize, ending).0 == ReadFailed(ConnError(ending.error))
  {
    CutDecode(payload, k, maxFrameSize, ending);
    CutDecode(payload, k, maxFrameSize, Clean);
  }

  // ----- many frames

  function EncodeAll(payloads: seq<seq<Byte>>): seq<Byte> {
    if payloads == [] then [] else Encode(payloads[0]) + EncodeAll(payloads[1..])
  }

  /** Up to `n` frames, stopping at the first error. */
  function DecodeMany(input: seq<Byte>, n: nat, maxFrameSize: int, ending: Ending): (seq<ReadResult>, seq<Byte>) {
    if n == 0 then ([], input)
    else
      var (r, rest) := Decode(input, maxFrameSize, ending);
      if r.ReadFailed? then ([r], rest)
      else
        var (more, last) := DecodeMany(rest, n - 1, maxFrameSize, ending);
        ([r] + more, last)
  }

  function Results(payloads: seq<seq<Byte>>): seq<ReadResult> {
    seq(|payloads|, k requires 0 <= k < |payloads| => Payload(payloads[k]))
  }

  lemma ResultsGrow(payloads: seq<seq<Byte>>)
    requires payloads != []
    ensures Results(payloads) == [Payload(payloads[0])] + Results(payloads[1..])
  {
  }

  lemma DecodeOneMore(
      input: seq<Byte>, n: nat, maxFrameSize: int, ending: Ending, payload: seq<Byte>, rest: seq<Byte>)
    requires Decode(input, maxFrameSize, ending) == (Payload(payload), rest)
    ensures var (more, last) := DecodeMany(rest, n, maxFrameSize, ending);
            DecodeMany(input, n + 1, maxFrameSize, ending) == ([Payload(payload)] + more, last)
  {
  }

  /** The results begin with that of the first frame. */
  lemma DecodeFirst(input: seq<Byte>, n: nat, maxFrameSize: int, ending: Ending)
    requires n > 0
    ensures var results := DecodeMany(input, n, maxFrameSize, ending).0;
            results != [] && results[0] == Decode(input, maxFrameSize, ending).0
  {
  }

  predicate AllFit(payloads: seq<seq<Byte>>, maxFrameSize: int) {
    forall k :: 0 <= k < |payloads| ==> Fits(payloads[k], maxFrameSize)
  }

  lemma AllFitRest(payloads: seq<seq<Byte>>, maxFrameSize: int)
    requires payloads != []
    ensures AllFit(payloads, maxFrameSize) <==> Fits(payloads[0], maxFrameSize) && AllFit(payloads[1..], maxFrameSize)
  {
    var rest := payloads[1..];
    assert forall k :: 0 < k < |payloads| ==> payloads[k] == rest[k - 1];
    assert forall k :: 0 <= k < |rest| ==> rest[k] == payloads[k + 1];
  }

  /** A list of frames reads back as exactly that list, with later bytes untouched, exactly when every payload fits. */
  lemma {:induction false} RoundTripMany(payloads: seq<seq<Byte>>, rest: seq<Byte>, maxFrameSize: int, ending: Ending)
    ensures DecodeMany(EncodeAll(payloads) + rest, |payloads|, maxFrameSize, ending) == (Results(payloads), rest)
            <==> AllFit(payloads, maxFrameSize)
  {
    if payloads == [] {
      assert EncodeAll(payloads) + rest == rest && Results(payloads) == [];
    } else {
      var tail := EncodeAll(payloads[1..]) + rest;
      Regroup(Encode(payloads[0]), EncodeAll(payloads[1..]), rest);
      AllFitRest(payloads, maxFrameSize);
      ResultsGrow(payloads);
      if Fits(payloads[0], maxFrameSize) {
        RoundTrip(payloads[0], tail, maxFrameSize, ending);
        RoundTripMany(payloads[1..], rest, maxFrameSize, ending);
        DecodeOneMore(Encode(payloads[0]) + tail, |payloads| - 1, maxFrameSize, ending, payloads[0], tail);
        var more := DecodeMany(tail, |payloads| - 1, maxFrameSize, ending).0;
        SameTail(Payload(payloads[0]), more, Results(payloads[1..]));
      } else {
        DecodeFrame(payloads[0], tail, maxFrameSize, ending);
        DecodeFirst(Encode(payloads[0]) + tail, |payloads|, maxFrameSize, ending);
      }
    }
  }

  lemma SameTail(r: ReadResult, a: seq<ReadResult>, b: seq<ReadResult>)
    ensures [r] + a == [r] + b <==> a == b
  {
    if [r] + a == [r] + b {
      assert a == ([r] + a)[1..] && b == ([r] + b)[1..];
    }
  }

  // ----- reading

  /**
    A connection to read from: the bytes still to come, how they end, and how many
    more times a read may come back with nothing. A read may give any part of the
    bytes, and the last part alone or together with the end.
  */
  class Source {
    var data: seq<Byte>
    const ending: Ending
    var idle: nat

    constructor (data: seq<Byte>, ending: Ending, idle: nat)
      ensures this.data == data && this.ending == ending
    {
      this.data, this.ending, this.idle := data, ending, idle;
    }

    /** Into the buffer from index `from` on. */
    method Read(buf: array<Byte>, from: nat) returns (n: nat, ended: bool)
      requires from < buf.Length
      modifies this, buf
      ensures n <= buf.Length - from && n <= |old(data)| && data == old(data)[n..]
      ensures ended ==> data == []
      ensures n == 0 && !ended ==> idle < old(idle)
      ensures idle <= old(idle)
      ensures buf[..] == old(buf[..from]) + old(data)[..n] + old(buf[from + n..])
    {
      var empty: bool := *;
      if idle > 0 && empty {
        n, ended := 0, false;
        idle := idle - 1;
        assert buf[..] == buf[..from] + buf[from..];
      } else if data == [] {
        n, ended := 0, true;
        assert buf[..] == buf[..from] + buf[from..];
      } else {
        n :| 1 <= n <= |data| && n <= buf.Length - from by {
          assert 1 <= 1 <= |data| && 1 <= buf.Length - from;
        }
        forall i | 0 <= i < n {
          buf[from + i] := data[i];
        }
        data := data[n..];
        ended := *;
        ended := ended && data == [];
      }
    }

    /** `io.ReadFull`. */
    method ReadFull(buf: array<Byte>) returns (err: Option<ReadError>)
      modifies this, buf
      ensures |old(data)| >= buf.Length ==>
                err.None? && buf[..] == old(data)[..buf.Length] && data == old(data)[buf.Length..]
      ensures |old(data)| < buf.Length ==> err == Some(Short(|old(data)|, ending)) && data == []
    {
      var got, ended := 0, false;
      while got < buf.Length && !ended
        invariant got <= buf.Length && got <= |old(data)|
        invariant data == old(data)[got..] && (ended ==> data == [])
        invariant buf[..got] == old(data)[..got]
        decreases buf.Length - got, !ended, idle
      {
        var n;
        n, ended := Read(buf, got);
        got := got + n;
      }
      err := if got >= buf.Length then None else Some(Short(got, ending));
    }
  }

  /** Reads what `Decode` says, whatever the fragments. */
  method ReadFrame(r: Source, maxFrameSize: int) returns (result: ReadResult)
    modifies r
    ensures (result, r.data) == Decode(old(r.data), maxFrameSize, r.ending)
  {
    var limit := if maxFrameSize <= 0 then DEFAULT_MAX_FRAME_SIZE else maxFrameSize;
    var header := new Byte[4];
    var err := r.ReadFull(header);
    if err.Some? {
      return ReadFailed(err.value);
    }
    var size := Value(header[..]);
    if size > limit {
      return ReadFailed(FrameTooLarge);
    }
    var payload := new Byte[size];
    err := r.ReadFull(payload);
    if err.Some? {
      return ReadFailed(err.value);
    }
    result := Payload(payload[..]);
  }

  // ----- writing

  /**
    A connection to write to; a write may take any part of its bytes, and may fail.
    `reported` is the history of what went wrong: a write that failed, or one that
    took nothing. With a `reliable` connection nothing does.
  */
  class Sink {
    var written: seq<Byte>
    const reliable: bool
    ghost var reported: seq<WriteError>

    constructor (reliable: bool)
      ensures written == [] && reported == [] && this.reliable == reliable
    {
      written, reported := [], [];
      this.reliable := reliable;
    }

    method Write(data: seq<Byte>) returns (n: nat, err: Option<string>)
      requires data != []
      modifies this
      ensures n <= |data| && written == old(written) + data[..n]
      ensures reported == old(reported) +
                          (if err.Some? then [WriteFailed(err.value)] else if n == 0 then [ShortWrite] else [])
      ensures reliable ==> reported == old(reported)
    {
      n :| 1 <= n <= |data| by {
        assert 1 <= 1 <= |data|;
      }
      err := None;
      if !reliable {
        n :| 0 <= n <= |data|;
        err := *;
      }
      written := written + data[..n];
      reported := reported +
        (if err.Some? then [WriteFailed(err.value)] else if n == 0 then [ShortWrite] else []);
    }
  }

  /** A call on the connection says what went wrong there, and success exactly if nothing did. */
  ghost predicate SaysSo(before: seq<WriteError>, err: Option<WriteError>, after: seq<WriteError>) {
    after == before + (if err.Some? then [err.value] else [])
  }

  /**
    Success means every byte was taken; a failure leaves a prefix. It fails exactly
    when a write failed or took nothing, with that very error; writes that take a
    part only are gone on with.
  */
  method WriteAll(w: Sink, data: seq<Byte>) returns (err: Option<WriteError>)
    modifies w
    ensures SaysSo(old(w.reported), err, w.reported) && (w.reliable ==> err.None?)
    ensures err.None? ==> w.written == old(w.written) + data
    ensures exists k :: 0 <= k <= |data| && w.written == old(w.written) + data[..k]
  {
    var rest := data;
    ghost var k := 0;
    assert data[..0] == [];
    while |rest| > 0
      invariant 0 <= k <= |data| && rest == data[k..] && w.written == old(w.written) + data[..k]
      invariant w.reported == old(w.reported)
      decreases |rest|
    {
      var n, failure := w.Write(rest);
      assert data[..k] + rest[..n] == data[..k + n];
      k := k + n;
      if failure.Some? {
        return Some(WriteFailed(failure.value));
      }
      if n == 0 {
        return Some(ShortWrite);
      }
      rest := rest[n..];
    }
    assert data[..k] == data;
    err := None;
  }

  /** Header and payload in one buffer, written out. */
  method WriteFrame(w: Sink, payload: seq<Byte>) returns (err: Option<WriteError>)
    modifies w
    ensures SaysSo(old(w.reported), err, w.reported) && (w.reliable ==> err.None?)
    ensures err.None? ==> w.written == old(w.written) + Encode(payload)
    ensures exists k :: 0 <= k <= |Encode(payload)| && w.written == old(w.written) + Encode(payload)[..k]
  {
    var frame := new Byte[4 + |payload|];
    var n := |payload|;
    frame[0], frame[1] := LowByte(n / 256 / 256 / 256), LowByte(n / 256 / 256);
    frame[2], frame[3] := LowByte(n / 256), LowByte(n);
    forall i | 0 <= i < n {
      frame[4 + i] := payload[i];
    }
    HeaderBytes(n);
    assert frame[..] == Encode(payload);
    err := WriteAll(w, frame[..]);
  }

  /** Frame by frame, until a write fails. */
  method SendAll(w: Sink, payloads: seq<seq<Byte>>) returns (err: Option<WriteError>)
    modifies w
    ensures SaysSo(old(w.reported), err, w.reported) && (w.reliable ==> err.None?)
    ensures err.None? ==> w.written == old(w.written) + EncodeAll(payloads)
  {
    assert payloads[0..] == payloads;
    for i := 0 to |payloads|
      invariant w.written + EncodeAll(payloads[i..]) == old(w.written) + EncodeAll(payloads)
      invariant w.reported == old(w.reported)
    {
      ghost var before := w.written;
      err := WriteFrame(w, payloads[i]);
      if err.Some? {
        return;
      }
      assert payloads[i..][1..] == payloads[i + 1..];
      Regroup(before, Encode(payloads[i]), EncodeAll(payloads[i + 1..]));
    }
    assert payloads[|payloads|..] == [];
    assert w.written + EncodeAll([]) == w.written;
    err := None;
  }

  lemma DecodeUnfold(input: seq<Byte>, n: nat, maxFrameSize: int, ending: Ending, received: seq<ReadResult>)
    requires n > 0
    ensures var (r, rest) := Decode(input, maxFrameSize, ending);
            var (results, end) := DecodeMany(input, n, maxFrameSize, ending);
            var (more, last) := DecodeMany(rest, n - 1, maxFrameSize, ending);
            (received + results, end) ==
            if r.ReadFailed? then (received + [r], rest) else (received + [r] + more, last)
  {
    var (r, rest) := Decode(input, maxFrameSize, ending);
    var more := DecodeMany(rest, n - 1, maxFrameSize, ending).0;
    assert received + ([r] + more) == received + [r] + more;
  }

  /** Up to `n` frames, until a read fails. */
  method ReceiveMany(r: Source, n: nat, maxFrameSize: int) returns (received: seq<ReadResult>)
    modifies r
    ensures (received, r.data) == DecodeMany(old(r.data), n, maxFrameSize, r.ending)
  {
    received := [];
    ghost var (results, end) := DecodeMany(r.data, n, maxFrameSize, r.ending);
    assert received + results == results;
    for k := n downto 0
      invariant var (more, last) := DecodeMany(r.data, k, maxFrameSize, r.ending);
                (received + more, last) == (results, end)
    {
      DecodeUnfold(r.data, k + 1, maxFrameSize, r.ending, received);
      var result := ReadFrame(r, maxFrameSize);
      received := received + [result];
      if result.ReadFailed? {
        return;
      }
    }
    assert received + [] == received;
  }

  /**
    A list of payloads written frame by frame and, with other bytes behind it,
    read back frame by frame: unless a write fails, exactly that list comes back,
    and the other bytes are left, if and only if every payload fits. Sending fails
    exactly with what went wrong on the connection, on a reliable one never.
  */
  method Relay(payloads: seq<seq<Byte>>, later: seq<Byte>, maxFrameSize: int, ending: Ending, reliable: bool)
    returns (sent: Option<WriteError>, received: seq<ReadResult>, left: seq<Byte>, ghost reported: seq<WriteError>)
    ensures SaysSo([], sent, reported) && (reliable ==> sent.None?)
    ensures sent.None? ==> (received == Results(payloads) && left == later <==> AllFit(payloads, maxFrameSize))
  {
    received, left := [], [];
    var w := new Sink(reliable);
    sent := SendAll(w, payloads);
    reported := w.reported;
    if sent.None? {
      var idle: nat := *;
      var r := new Source(w.written + later, ending, idle);
      assert [] + EncodeAll(payloads) == EncodeAll(payloads);
      ghost var whole := DecodeMany(r.data, |payloads|, maxFrameSize, ending);
      received := ReceiveMany(r, |payloads|, maxFrameSize);
      left := r.data;
      assert whole == (received, left);
      RoundTripMany(payloads, later, maxFrameSize, ending);
    }
  }

  // ----- one request, one response

  datatype SessionConfig = SessionConfig(maxFrameSize: int, deadline: int)

  datatype Handled = Responded(response: seq<Byte>) | HandlerFailed(error: string)

  datatype ServeResult =
    | Served
    | ServeDeadline(error: string)
    | ServeRead(cause: ReadError)
    | ServeHandler(error: string)
    | ServeWrite(err: WriteError)

  datatype ExchangeResult = Received(result: ReadResult) | NoDeadline(error: string) | NotSent(err: WriteError)

  // A call with a deadline sets it first, and is over when that fails; `failure` is what setting it says.

  /** Some part of the frame, from its beginning, has been written. */
  ghost predicate PartWritten(before: seq<Byte>, after: seq<Byte>, payload: seq<Byte>) {
    exists k :: 0 <= k <= |Encode(payload)| && after == before + Encode(payload)[..k]
  }

  method Exchange(out: Sink, in_: Source, request: seq<Byte>, cfg: SessionConfig, failure: Option<string>)
    returns (r: ExchangeResult)
    modifies out, in_
    ensures SaysSo(old(out.reported), if r.NotSent? then Some(r.err) else None, out.reported)
    ensures out.reliable ==> !r.NotSent?
    ensures r.NoDeadline? <==> cfg.deadline > 0 && failure.Some?
    ensures r.NoDeadline? ==> r.error == failure.value && out.written == old(out.written) && in_.data == old(in_.data)
    ensures r.Received? ==>
              out.written == old(out.written) + Encode(request) &&
              (r.result, in_.data) == Decode(old(in_.data), cfg.maxFrameSize, in_.ending)
    ensures r.NotSent? ==> in_.data == old(in_.data) && PartWritten(old(out.written), out.written, request)
  {
    if cfg.deadline > 0 && failure.Some? {
      return NoDeadline(failure.value);
    }
    var err := WriteFrame(out, request);
    if err.Some? {
      return NotSent(err.value);
    }
    var result := ReadFrame(in_, cfg.maxFrameSize);
    r := Received(result);
  }

  method ServeOne(
      in_: Source, out: Sink, cfg: SessionConfig, failure: Option<string>, handler: seq<Byte> -> Handled)
    returns (r: ServeResult)
    modifies in_, out
    ensures SaysSo(old(out.reported), if r.ServeWrite? then Some(r.err) else None, out.reported)
    ensures out.reliable ==> !r.ServeWrite?
    ensures r.ServeDeadline? <==> cfg.deadline > 0 && failure.Some?
    ensures r.ServeDeadline? ==>
              r.error == failure.value && in_.data == old(in_.data) && out.written == old(out.written)
    ensures !r.ServeDeadline? ==>
              var (read, rest) := Decode(old(in_.data), cfg.maxFrameSize, in_.ending);
              && in_.data == rest
              && (read.ReadFailed? ==> r == ServeRead(read.err) && out.written == old(out.written))
              && (read.Payload? && handler(read.payload).HandlerFailed? ==>
                    r == ServeHandler(handler(read.payload).error) && out.written == old(out.written))
              && (read.Payload? && handler(read.payload).Responded? ==>
                    var response := handler(read.payload).response;
                    (r.Served? || r.ServeWrite?) && PartWritten(old(out.written), out.written, response) &&
                    (r.Served? ==> out.written == old(out.written) + Encode(response)))
  {
    if cfg.deadline > 0 && failure.Some? {
      return ServeDeadline(failure.value);
    }
    var read := ReadFrame(in_, cfg.maxFrameSize);
    if read.ReadFailed? {
      return ServeRead(read.err);
    }
    var handled := handler(read.payload);
    if handled.HandlerFailed? {
      return ServeHandler(handled.error);
    }
    var err := WriteFrame(out, handled.response);
    r := if err.Some? then ServeWrite(err.value) else Served;
  }

  /** A request or a response that the reader with this limit does not refuse. */
  predicate Taken(payload: seq<Byte>, maxFrameSize: int) { |Carried(payload)| <= EffectiveMax(maxFrameSize) }

  /**
    A client and a server on the two ends of one connection, each closing its
    side when it is through: what the client wrote is what the server reads, and
    the other way round. If neither end failed to write, a request that fits
    comes back as the handler's response if that fits as well, and a response
    too large is refused; a request too large, or one the handler fails on, ends
    the client's read at the end of file.
  */
  method ExchangeWithServer(
      request: seq<Byte>, handler: seq<Byte> -> Handled, clientMax: int, serverMax: int, reliable: bool)
    returns (sent: Option<WriteError>, served: ServeResult, received: ReadResult,
             ghost there: Sink, ghost back: Sink)
    ensures fresh(there) && fresh(back)
    ensures SaysSo([], sent, there.reported)
    ensures SaysSo([], if served.ServeWrite? then Some(served.err) else None, back.reported)
    ensures reliable ==> sent.None? && !served.ServeWrite?
    ensures reliable && Fits(request, serverMax) && handler(request).Responded? &&
            Fits(handler(request).response, clientMax) ==>
              served.Served? && received == Payload(handler(request).response)
    ensures sent.None? && Taken(request, serverMax) && handler(Carried(request)).Responded? ==>
              served.Served? || served.ServeWrite?
    ensures sent.None? && served.Served? && Fits(request, serverMax) ==>
              handler(request).Responded? &&
              (Fits(handler(request).response, clientMax) ==> received == Payload(handler(request).response))
    ensures sent.None? && served.Served? ==>
              Taken(request, serverMax) && handler(Carried(request)).Responded? &&
              received == (if Taken(handler(Carried(request)).response, clientMax)
                           then Payload(Carried(handler(Carried(request)).response)) else ReadFailed(FrameTooLarge))
    ensures sent.None? && Taken(request, serverMax) && handler(Carried(request)).HandlerFailed? ==>
              served == ServeHandler(handler(Carried(request)).error) && received == ReadFailed(EOF)
    ensures sent.None? && !Taken(request, serverMax) ==>
              served == ServeRead(FrameTooLarge) && received == ReadFailed(EOF)
    ensures sent.None? && served.ServeRead? ==> !Taken(request, serverMax)
  {
    var out := new Sink(reliable);
    var reply := new Sink(reliable);
    there, back := out, reply;
    sent := WriteFrame(out, request);
    var idle: nat := *;
    var serverIn := new Source(out.written, Clean, idle);
    served := ServeOne(serverIn, reply, SessionConfig(serverMax, 0), None, handler);
    idle := *;
    var clientIn := new Source(reply.written, Clean, idle);
    received := ReadFrame(clientIn, clientMax);
    if sent.None? {
      assert serverIn.ending == Clean && out.written == Encode(request) + [];
      DecodeFrame(request, [], serverMax, Clean);
      if served.Served? {
        var response := handler(Carried(request)).response;
        assert reply.written == Encode(response) + [];
        DecodeFrame(response, [], clientMax, Clean);
      }
    }
  }
}
