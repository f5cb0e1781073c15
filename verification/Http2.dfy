/** The resumable reader of a client's HTTP/2 frames (sections 4.1, 6.2 and 6.10 of RFC
    9113): it counts the authorities of requests and passes over all other frames. */
module Http2 {
  import opened Prelude
  import opened Evidence

  const MAX_BLOCK := 65536
  const HEADERS: byte := 1
  const CONTINUATION: byte := 9

  datatype Field = Field(name: string, value: string)

  /** HPACK as a deterministic decoder whose state is the blocks it has decoded,
      and the reader of an authority; both are the environment's. */
  datatype Codec = Codec(decode: (seq<seq<byte>>, seq<byte>) -> Option<seq<Field>>, normalize: string -> string)

  /** `header` grows to nine bytes, whose fields are then `kind`, `flags`, `stream` and the
      payload length, of which `remaining` is outstanding. `frame` collects the payload if
      it is read at all, and `block` the fragments that are decoded together. A stream up
      to `last` was counted before. The decoder is what it was given so far, `decoded`. */
  datatype Parser = Parser(
    header: seq<byte>, kind: byte, flags: byte, stream: nat, remaining: nat, frame: seq<byte>, block: seq<byte>,
    last: nat, decoded: seq<seq<byte>>, stopped: bool)

  const FRESH := Parser([], 0, 0, 0, 0, [], [], 0, [], false)

  datatype Error = BlockLimit | Padding | Priority | Hpack | HostLimit

  datatype Outcome = Outcome(p: Parser, e: Evidence, error: Option<Error>)

  predicate HeaderFrame(p: Parser) { p.kind == HEADERS || p.kind == CONTINUATION }

  predicate Flag(flags: byte, bit: byte)
    requires bit > 0
  {
    (flags / bit) % 2 == 1
  }

  /** Between calls: a complete header has payload to come, unless parsing stopped,
      and every buffer is bounded. */
  predicate Ready(p: Parser) {
    && |p.header| <= 9
    && (|p.header| == 9 && !p.stopped ==> p.remaining > 0)
    && (|p.header| < 9 ==> p.frame == [])
    && (HeaderFrame(p) && !p.stopped && |p.header| == 9 ==> |p.frame| + p.remaining <= MAX_BLOCK)
    && (!HeaderFrame(p) ==> p.frame == [])
    && |p.block| <= MAX_BLOCK
  }

  /** The first name given for the request's destination. */
  function Authority(fields: seq<Field>): string {
    if fields == [] then ""
    else
      var prior := Authority(fields[..|fields| - 1]);
      var last := fields[|fields| - 1];
      if prior == "" && last.name in {":authority", "host"} then last.value else prior
  }

  predicate Grpc(fields: seq<Field>) {
    exists f :: f in fields && f.name == "content-type" && "application/grpc" <= f.value
  }

  /** The header block fragment inside a frame: without padding and priority. */
  function Unpadded(p: Parser): Option<seq<byte>> {
    if p.kind != HEADERS || !Flag(p.flags, 8) then Some(p.frame)
    else if |p.frame| == 0 || p.frame[0] as int >= |p.frame| then None
    else Some(p.frame[1..|p.frame| - p.frame[0] as int])
  }

  function Unprioritized(p: Parser, fragment: seq<byte>): Option<seq<byte>> {
    if p.kind != HEADERS || !Flag(p.flags, 32) then Some(fragment)
    else if |fragment| < 5 then None
    else Some(fragment[5..])
  }

  /** A decoded header block. A stream counts once, so what follows its request does not. */
  function CountRequest(c: Codec, p: Parser, e: Evidence, fields: seq<Field>): Outcome {
    var seen := e.(grpc := e.grpc || Grpc(fields));
    if p.stream <= p.last then Outcome(p, seen, None)
    else
      var q := p.(last := p.stream);
      match CountHost(seen, c.normalize(Authority(fields)))
      case None => Outcome(q, seen, Some(HostLimit))
      case Some(counted) => Outcome(q, counted, None)
  }

  function AppendFragment(c: Codec, p: Parser, e: Evidence, fragment: seq<byte>): Outcome {
    if |p.block| + |fragment| > MAX_BLOCK then Outcome(p, e, Some(BlockLimit))
    else
      var q := p.(block := p.block + fragment);
      if !Flag(p.flags, 4) then Outcome(q, e, None)
      else
        match c.decode(q.decoded, q.block)
        case None => Outcome(q, e, Some(Hpack))
        case Some(fields) => CountRequest(c, q.(decoded := q.decoded + [q.block]), e, fields)
  }

  /** A complete HEADERS or CONTINUATION payload. */
  function ReadHeaders(c: Codec, p: Parser, e: Evidence): Outcome {
    match Unpadded(p)
    case None => Outcome(p, e, Some(Padding))
    case Some(padded) =>
      match Unprioritized(p, padded)
      case None => Outcome(p, e, Some(Priority))
      case Some(fragment) => AppendFragment(c, if p.kind == HEADERS then p.(block := []) else p, e, fragment)
  }

  /** The end of a frame. */
  function EndFrame(c: Codec, p: Parser, e: Evidence): Outcome {
    if !HeaderFrame(p) then Outcome(p.(header := [], frame := []), e, None)
    else
      var r := ReadHeaders(c, p, e);
      if r.error.Some? then r.(p := r.p.(stopped := true)) else r.(p := r.p.(header := [], frame := []))
  }

  /** The fields of a complete frame header (section 4.1 of RFC 9113). */
  function Opened(p: Parser): Parser
    requires |p.header| == 9
  {
    var h := p.header;
    p.(remaining := h[0] as int * 65536 + h[1] as int * 256 + h[2] as int,
       kind := h[3], flags := h[4],
       stream := (h[5] as int * 16777216 + h[6] as int * 65536 + h[7] as int * 256 + h[8] as int) % 0x8000_0000)
  }

  /** The ninth byte of a frame header. */
  function BeginFrame(c: Codec, p: Parser, e: Evidence): Outcome
    requires |p.header| == 9
  {
    var q := Opened(p);
    if HeaderFrame(q) && q.remaining > MAX_BLOCK then Outcome(q.(stopped := true), e, Some(BlockLimit))
    else if q.remaining == 0 then EndFrame(c, q, e)
    else Outcome(q, e, None)
  }

  /** The frame with part of its payload taken. */
  function Taking(p: Parser, data: seq<byte>): Parser
    requires |data| <= p.remaining
  {
    p.(frame := if HeaderFrame(p) then p.frame + data else p.frame, remaining := p.remaining - |data|)
  }

  /** Part of the open frame's payload, or all that is outstanding. */
  function Payload(c: Codec, p: Parser, e: Evidence, data: seq<byte>): Outcome
    requires |data| <= p.remaining
  {
    var q := Taking(p, data);
    if q.remaining > 0 then Outcome(q, e, None) else EndFrame(c, q, e)
  }

  /** The protocol's own machine: one byte at a time. */
  function Byte(c: Codec, p: Parser, e: Evidence, x: byte): Outcome
    requires Ready(p) && !p.stopped
  {
    if |p.header| < 9 then
      var q := p.(header := p.header + [x]);
      if |q.header| < 9 then Outcome(q, e, None) else BeginFrame(c, q, e)
    else Payload(c, p, e, [x])
  }

  lemma EndFrameReady(c: Codec, p: Parser, e: Evidence)
    requires |p.header| == 9 && |p.block| <= MAX_BLOCK && (!HeaderFrame(p) ==> p.frame == [])
    ensures var r := EndFrame(c, p, e); Ready(r.p) && (r.error.Some? ==> r.p.stopped)
  {
  }

  lemma ByteReady(c: Codec, p: Parser, e: Evidence, x: byte)
    requires Ready(p) && !p.stopped
    ensures var r := Byte(c, p, e, x); Ready(r.p) && (r.error.Some? ==> r.p.stopped)
  {
    if |p.header| == 8 {
      var q := p.(header := p.header + [x]);
      var r := BeginFrame(c, q, e);
    }
  }

  /** Bytes one at a time, until the input or the parser ends. */
  function Bytes(c: Codec, p: Parser, e: Evidence, data: seq<byte>): (r: Outcome)
    requires Ready(p)
    ensures Ready(r.p) && (r.error.Some? ==> r.p.stopped)
    decreases |data|
  {
    if data == [] || p.stopped then Outcome(p, e, None)
    else
      ByteReady(c, p, e, data[0]);
      var r := Byte(c, p, e, data[0]);
      if r.error.Some? then r else Bytes(c, r.p, r.e, data[1..])
  }

  // ----- Segmentation -----

  /** Two results of feeding, the second on what the first left. The error is the
      first one: a stopped parser reports no more. */
  function Then(c: Codec, r: Outcome, b: seq<byte>): Outcome
    requires Ready(r.p)
  {
    var s := Bytes(c, r.p, r.e, b);
    if r.error.Some? then s.(error := r.error) else s
  }

  /** Feeding a and then b is feeding a + b, after errors too. */
  lemma {:induction false} FeedSplits(c: Codec, p: Parser, e: Evidence, a: seq<byte>, b: seq<byte>)
    requires Ready(p)
    ensures Bytes(c, p, e, a + b) == Then(c, Bytes(c, p, e, a), b)
    decreases |a|
  {
    if a == [] {
      assert a + b == b;
    } else if !p.stopped {
      ByteReady(c, p, e, a[0]);
      var r := Byte(c, p, e, a[0]);
      assert (a + b)[0] == a[0] && (a + b)[1..] == a[1..] + b;
      if r.error.None? { FeedSplits(c, r.p, r.e, a[1..], b); }
    }
  }

  lemma {:induction false} HeaderChunk(c: Codec, p: Parser, e: Evidence, data: seq<byte>)
    requires Ready(p) && !p.stopped && data != [] && |p.header| + |data| <= 9
    ensures var q := p.(header := p.header + data);
            Bytes(c, p, e, data) == if |q.header| < 9 then Outcome(q, e, None) else BeginFrame(c, q, e)
    decreases |data|
  {
    var q := p.(header := p.header + [data[0]]);
    ByteReady(c, p, e, data[0]);
    if |data| == 1 {
      assert data == [data[0]] && data[1..] == [];
      assert p.header + data == q.header;
    } else {
      HeaderChunk(c, q, e, data[1..]);
      assert q.header + data[1..] == p.header + data;
    }
  }

  /** A HEADERS frame that announces more than a block may hold is an error at once. */
  lemma LongBlockErrs(c: Codec, e: Evidence)
    ensures var r := Bytes(c, FRESH, e, [1, 0, 1, HEADERS, 0, 0, 0, 0, 1]);
            r.error == Some(BlockLimit) && r.p.stopped && r.e == e
  {
    var data: seq<byte> := [1, 0, 1, HEADERS, 0, 0, 0, 0, 1];
    HeaderChunk(c, FRESH, e, data);
    assert [] + data == data;
  }

  lemma TakingMore(p: Parser, x: byte, more: seq<byte>)
    requires 1 + |more| <= p.remaining
    ensures Taking(Taking(p, [x]), more) == Taking(p, [x] + more)
  {
    assert (p.frame + [x]) + more == p.frame + ([x] + more);
  }

  lemma PayloadByte(c: Codec, p: Parser, e: Evidence, data: seq<byte>)
    requires Ready(p) && !p.stopped && |p.header| == 9 && 0 < |data| <= p.remaining
    ensures |data| == 1 ==> Bytes(c, p, e, data) == Payload(c, p, e, data)
    ensures |data| > 1 ==>
              Ready(Taking(p, [data[0]])) && Bytes(c, p, e, data) == Bytes(c, Taking(p, [data[0]]), e, data[1..])
  {
    ByteReady(c, p, e, data[0]);
    if |data| == 1 { assert data == [data[0]] && data[1..] == []; }
  }

  lemma {:induction false} PayloadChunk(c: Codec, p: Parser, e: Evidence, data: seq<byte>)
    requires Ready(p) && !p.stopped && |p.header| == 9 && 0 < |data| <= p.remaining
    ensures Bytes(c, p, e, data) == Payload(c, p, e, data)
    decreases |data|
  {
    PayloadByte(c, p, e, data);
    if |data| > 1 {
      var q, more := Taking(p, [data[0]]), data[1..];
      PayloadChunk(c, q, e, more);
      assert [data[0]] + more == data;
      TakingMore(p, data[0], more);
    }
  }

  /** Inside a frame, whose payload may be empty. */
  predicate InFrame(p: Parser) {
    && |p.header| == 9 && !p.stopped
    && (HeaderFrame(p) ==> |p.frame| + p.remaining <= MAX_BLOCK)
    && (!HeaderFrame(p) ==> p.frame == [])
    && |p.block| <= MAX_BLOCK
  }

  lemma PayloadReady(c: Codec, p: Parser, e: Evidence, data: seq<byte>)
    requires InFrame(p) && |data| <= p.remaining
    ensures var r := Payload(c, p, e, data); Ready(r.p) && (r.error.Some? ==> r.p.stopped)
  {
    var q := p.(frame := if HeaderFrame(p) then p.frame + data else p.frame, remaining := p.remaining - |data|);
    EndFrameReady(c, q, e);
  }

  function Min(a: nat, b: nat): nat { if a < b then a else b }

  /** The rest of the input, taken as one chunk of the current frame and then bytes. */
  function Continue(c: Codec, p: Parser, e: Evidence, data: seq<byte>): Outcome
    requires InFrame(p)
  {
    var n := Min(|data|, p.remaining);
    PayloadReady(c, p, e, data[..n]);
    Then(c, Payload(c, p, e, data[..n]), data[n..])
  }

  lemma ContinueSteps(c: Codec, p: Parser, e: Evidence, data: seq<byte>)
    requires InFrame(p)
    ensures var n := Min(|data|, p.remaining);
            var r := Payload(c, p, e, data[..n]);
            && Ready(r.p)
            && (r.error.Some? || r.p.remaining > 0 ==> Continue(c, p, e, data) == r)
            && (r.error.None? ==> Continue(c, p, e, data) == Bytes(c, r.p, r.e, data[n..]))
  {
    PayloadReady(c, p, e, data[..Min(|data|, p.remaining)]);
  }

  /** A chunk of payload is its bytes. */
  lemma PayloadFirst(c: Codec, p: Parser, e: Evidence, data: seq<byte>)
    requires Ready(p) && InFrame(p)
    ensures Bytes(c, p, e, data) == Continue(c, p, e, data)
  {
    if data != [] {
      var n := Min(|data|, p.remaining);
      PayloadReady(c, p, e, data[..n]);
      PayloadChunk(c, p, e, data[..n]);
      FeedSplits(c, p, e, data[..n], data[n..]);
      assert data[..n] + data[n..] == data;
    } else {
      NoPayload(c, p, e);
    }
  }

  lemma NoPayload(c: Codec, p: Parser, e: Evidence)
    requires Ready(p) && InFrame(p)
    ensures Bytes(c, p, e, []) == Continue(c, p, e, [])
  {
    assert p.frame + [] == p.frame;
  }

  /** A chunk of frame header is its bytes. */
  lemma HeaderFirst(c: Codec, p: Parser, e: Evidence, data: seq<byte>, n: nat)
    requires Ready(p) && !p.stopped && |p.header| < 9 && data != [] && n == Min(|data|, 9 - |p.header|)
    ensures var q := p.(header := p.header + data[..n]);
            && (|q.header| < 9 ==> Ready(q) && Bytes(c, p, e, data) == Outcome(q, e, None))
            && (|q.header| == 9 ==>
                  var m := Opened(q);
                  if HeaderFrame(m) && m.remaining > MAX_BLOCK then
                    Ready(m.(stopped := true))
                      && Bytes(c, p, e, data) == Outcome(m.(stopped := true), e, Some(BlockLimit))
                  else
                    InFrame(m) && Bytes(c, p, e, data) == Continue(c, m, e, data[n..]))
  {
    var q := p.(header := p.header + data[..n]);
    HeaderChunk(c, p, e, data[..n]);
    FeedSplits(c, p, e, data[..n], data[n..]);
    assert data[..n] + data[n..] == data;
    if |q.header| == 9 {
      var m := Opened(q);
      if !(HeaderFrame(m) && m.remaining > MAX_BLOCK) {
        if m.remaining > 0 {
          PayloadFirst(c, m, e, data[n..]);
        } else {
          assert m.frame + data[n..][..0] == m.frame && data[n..][0..] == data[n..];
        }
      }
    }
  }

  // ----- What frames amount to -----

  /** A frame as section 4.1 of RFC 9113 lays it out. */
  datatype Frame = Frame(kind: byte, flags: byte, reserved: bool, stream: nat, payload: seq<byte>)

  predicate Sendable(f: Frame) { |f.payload| < 16777216 && f.stream < 2147483648 }

  function EncodeHead(f: Frame): seq<byte>
    requires Sendable(f)
  {
    var n, top := |f.payload|, f.stream / 16777216 + if f.reserved then 128 else 0;
    [(n / 65536) as byte, (n / 256 % 256) as byte, (n % 256) as byte, f.kind, f.flags,
     top as byte, (f.stream / 65536 % 256) as byte, (f.stream / 256 % 256) as byte, (f.stream % 256) as byte]
  }

  function Encode(f: Frame): seq<byte>
    requires Sendable(f)
  {
    EncodeHead(f) + f.payload
  }

  /** Between two frames. */
  predicate Between(p: Parser) { Ready(p) && p.header == [] && !p.stopped }

  /** The parser with a frame's header read, and its payload if that is collected. */
  function Read(p: Parser, f: Frame): Parser
    requires Sendable(f)
  {
    p.(header := EncodeHead(f), kind := f.kind, flags := f.flags, stream := f.stream, remaining := 0,
       frame := if f.kind in {1, 9} then f.payload else [])
  }

  lemma ThreeBytes(n: nat)
    requires n < 16777216
    ensures n / 65536 < 256 && n / 65536 * 65536 + n / 256 % 256 * 256 + n % 256 == n
  {
  }

  lemma FourBytes(s: nat, reserved: bool)
    requires s < 2147483648
    ensures var top := s / 16777216 + if reserved then 128 else 0;
            && top < 256
            && (top * 16777216 + s / 65536 % 256 * 65536 + s / 256 % 256 * 256 + s % 256) % 2147483648 == s
  {
    var top := s / 16777216 + if reserved then 128 else 0;
    assert s == s / 16777216 * 16777216 + s / 65536 % 256 * 65536 + s / 256 % 256 * 256 + s % 256;
    assert top * 16777216 == s / 16777216 * 16777216 + if reserved then 2147483648 else 0;
  }

  lemma HeadReads(p: Parser, f: Frame)
    requires Sendable(f) && p.header == EncodeHead(f) && p.frame == []
    ensures Opened(p) == Read(p, f).(remaining := |f.payload|, frame := [])
  {
    ThreeBytes(|f.payload|);
    FourBytes(f.stream, f.reserved);
  }

  /** A frame header and as much payload as it announces make one turn. */
  lemma FrameTurn(c: Codec, p: Parser, e: Evidence, head: seq<byte>, payload: seq<byte>, rest: seq<byte>)
    requires Between(p) && |head| == 9 && Opened(p.(header := head)).remaining == |payload|
    ensures var m := Opened(p.(header := head));
            if HeaderFrame(m) && |payload| > MAX_BLOCK then
              Bytes(c, p, e, head + (payload + rest)) == Outcome(m.(stopped := true), e, Some(BlockLimit))
            else
              var r := EndFrame(c, m.(remaining := 0, frame := if HeaderFrame(m) then payload else []), e);
              Ready(r.p) && Bytes(c, p, e, head + (payload + rest)) == Then(c, r, rest)
  {
    var data := head + (payload + rest);
    var m := Opened(p.(header := head));
    assert data[..9] == head && data[9..] == payload + rest && [] + head == head;
    HeaderFirst(c, p, e, data, 9);
    if !(HeaderFrame(m) && |payload| > MAX_BLOCK) {
      assert (payload + rest)[..|payload|] == payload && (payload + rest)[|payload|..] == rest;
      ContinueSteps(c, m, e, payload + rest);
      assert [] + payload == payload;
    }
  }

  /** A frame is read as what was sent, unless it announces too long a header block. */
  lemma FrameRuns(c: Codec, p: Parser, e: Evidence, f: Frame, rest: seq<byte>)
    requires Between(p) && Sendable(f)
    ensures f.kind in {1, 9} && |f.payload| > 65536 ==>
              var r := Bytes(c, p, e, Encode(f) + rest);
              r.error == Some(BlockLimit) && r.p.stopped && r.e == e
    ensures f.kind !in {1, 9} || |f.payload| <= 65536 ==>
              var r := EndFrame(c, Read(p, f), e);
              Ready(r.p) && Bytes(c, p, e, Encode(f) + rest) == Then(c, r, rest)
  {
    var head := EncodeHead(f);
    HeadReads(p.(header := head), f);
    FrameTurn(c, p, e, head, f.payload, rest);
    assert Encode(f) + rest == head + (f.payload + rest);
  }

  /** A frame of another kind changes nothing that is kept from frame to frame. */
  lemma OtherFramesPass(c: Codec, p: Parser, e: Evidence, f: Frame, rest: seq<byte>) returns (q: Parser)
    requires Between(p) && Sendable(f) && f.kind !in {1, 9}
    ensures Between(q) && q.block == p.block && q.last == p.last && q.decoded == p.decoded
    ensures Bytes(c, p, e, Encode(f) + rest) == Bytes(c, q, e, rest)
  {
    FrameRuns(c, p, e, f, rest);
    q := EndFrame(c, Read(p, f), e).p;
  }

  /** A piece of a header block in a CONTINUATION frame. */
  datatype Piece = Piece(flags: byte, reserved: bool, bytes: seq<byte>)

  /** A header block as it is sent: in a HEADERS frame, padded or not, with the five bytes
      of a priority or not, and any CONTINUATION frames. */
  datatype Block = Block(stream: nat, flags: byte, reserved: bool, padding: Option<seq<byte>>,
                         priority: Option<seq<byte>>, first: seq<byte>, more: seq<Piece>)

  function Joined(pieces: seq<Piece>): seq<byte>
    decreases |pieces|
  {
    if pieces == [] then [] else pieces[0].bytes + Joined(pieces[1..])
  }

  /** What the sender's HPACK encoder wrote. */
  function Content(b: Block): seq<byte> { b.first + Joined(b.more) }

  function HeadersPayload(b: Block): seq<byte> {
    (if b.padding.Some? then [(|b.padding.value| % 256) as byte] else [])
    + ((if b.priority.Some? then b.priority.value else [])
       + (b.first + if b.padding.Some? then b.padding.value else []))
  }

  function First(b: Block): Frame { Frame(1, b.flags, b.reserved, b.stream, HeadersPayload(b)) }

  function Next(stream: nat, piece: Piece): Frame { Frame(9, piece.flags, piece.reserved, stream, piece.bytes) }

  function EncodePieces(stream: nat, pieces: seq<Piece>): seq<byte>
    requires stream < 2147483648 && forall piece :: piece in pieces ==> |piece.bytes| <= 65536
    decreases |pieces|
  {
    if pieces == [] then [] else Encode(Next(stream, pieces[0])) + EncodePieces(stream, pieces[1..])
  }

  /** The third bit says that the block ends, the fourth that there is padding, and the
      sixth that there is a priority. Other bits are free, and so is the reserved one. */
  ghost predicate LegalBlock(b: Block) {
    && b.stream < 2147483648 && |HeadersPayload(b)| <= 65536 && |Content(b)| <= 65536
    && (b.flags / 4 % 2 == 1 <==> b.more == [])
    && (b.flags / 8 % 2 == 1 <==> b.padding.Some?) && (b.padding.Some? ==> |b.padding.value| < 256)
    && (b.flags / 32 % 2 == 1 <==> b.priority.Some?) && (b.priority.Some? ==> |b.priority.value| == 5)
    && LegalPieces(b.more)
  }

  ghost predicate LegalPieces(pieces: seq<Piece>) {
    && (forall piece :: piece in pieces ==> |piece.bytes| <= 65536)
    && forall k :: 0 <= k < |pieces| ==> (pieces[k].flags / 4 % 2 == 1 <==> k == |pieces| - 1)
  }

  function EncodeBlock(b: Block): seq<byte>
    requires LegalBlock(b)
  {
    Encode(First(b)) + EncodePieces(b.stream, b.more)
  }

  /** Padding and priority are taken off. */
  lemma FirstFragment(b: Block, p: Parser)
    requires LegalBlock(b)
    requires p.kind == 1 && p.flags == b.flags && p.frame == HeadersPayload(b)
    ensures Unpadded(p).Some? && Unprioritized(p, Unpadded(p).value) == Some(b.first)
  {
    var inner := (if b.priority.Some? then b.priority.value else []) + b.first;
    var padding := if b.padding.Some? then b.padding.value else [];
    var length: seq<byte> := if b.padding.Some? then [|b.padding.value| as byte] else [];
    assert HeadersPayload(b) == length + (inner + padding);
    assert Unpadded(p) == Some(inner) by {
      if b.padding.Some? {
        assert p.frame[1..|p.frame| - |padding|] == inner;
      } else {
        assert p.frame == inner;
      }
    }
    if b.priority.Some? { assert inner[5..] == b.first; } else { assert inner == b.first; }
  }

  function Prior(p: Parser, f: Frame): seq<byte> { if f.kind == 1 then [] else p.block }

  /** `fragment` is what a frame adds to a block that stays within the limit. */
  ghost predicate Adds(p: Parser, f: Frame, fragment: seq<byte>) {
    && Sendable(f) && f.kind in {1, 9} && |f.payload| <= 65536
    && Unpadded(Read(p, f)).Some? && Unprioritized(Read(p, f), Unpadded(Read(p, f)).value) == Some(fragment)
    && |Prior(p, f) + fragment| <= 65536
  }

  /** A frame that does not end a block is kept for the next one. */
  lemma FragmentKept(c: Codec, p: Parser, e: Evidence, f: Frame, fragment: seq<byte>, rest: seq<byte>)
    returns (q: Parser)
    requires Between(p) && Adds(p, f, fragment) && f.flags / 4 % 2 == 0
    ensures Between(q) && q.block == Prior(p, f) + fragment && q.last == p.last && q.decoded == p.decoded
    ensures Bytes(c, p, e, Encode(f) + rest) == Bytes(c, q, e, rest)
  {
    FrameRuns(c, p, e, f, rest);
    q := EndFrame(c, Read(p, f), e).p;
  }

  /** What a decoded block adds: its stream's request, unless the stream had one. */
  function Noted(c: Codec, e: Evidence, last: nat, stream: nat, fields: seq<Field>): Option<Evidence> {
    var seen := e.(grpc := e.grpc || Grpc(fields));
    if stream > last then CountHost(seen, c.normalize(Authority(fields))) else Some(seen)
  }

  function Max(a: nat, b: nat): nat { if a < b then b else a }

  /** The frame that ends a block has all of it decoded, once. */
  lemma BlockEnds(c: Codec, p: Parser, e: Evidence, f: Frame, fragment: seq<byte>, rest: seq<byte>)
    returns (q: Parser)
    requires Between(p) && Adds(p, f, fragment) && f.flags / 4 % 2 == 1
    requires var fields := c.decode(p.decoded, Prior(p, f) + fragment);
             fields.Some? && Noted(c, e, p.last, f.stream, fields.value).Some?
    ensures Between(q) && q.last == Max(p.last, f.stream) && q.decoded == p.decoded + [Prior(p, f) + fragment]
    ensures Bytes(c, p, e, Encode(f) + rest) ==
            Bytes(c, q, Noted(c, e, p.last, f.stream, c.decode(p.decoded, Prior(p, f) + fragment).value).value, rest)
  {
    FrameRuns(c, p, e, f, rest);
    q := EndFrame(c, Read(p, f), e).p;
  }

  /** What the rest of a block leads to: it is decoded as a whole. */
  ghost predicate Decodes(c: Codec, p: Parser, e: Evidence, stream: nat, content: seq<byte>) {
    var fields := c.decode(p.decoded, content);
    fields.Some? && Noted(c, e, p.last, stream, fields.value).Some?
  }

  function After(c: Codec, p: Parser, e: Evidence, stream: nat, content: seq<byte>): Evidence
    requires Decodes(c, p, e, stream, content)
  {
    Noted(c, e, p.last, stream, c.decode(p.decoded, content).value).value
  }

  lemma {:induction false} PiecesRun(c: Codec, p: Parser, e: Evidence, stream: nat, pieces: seq<Piece>,
                                     rest: seq<byte>)
    returns (q: Parser)
    requires Between(p) && stream < 2147483648 && pieces != [] && LegalPieces(pieces)
    requires |p.block + Joined(pieces)| <= 65536 && Decodes(c, p, e, stream, p.block + Joined(pieces))
    ensures Between(q) && q.last == Max(p.last, stream) && q.decoded == p.decoded + [p.block + Joined(pieces)]
    ensures Bytes(c, p, e, EncodePieces(stream, pieces) + rest) ==
            Bytes(c, q, After(c, p, e, stream, p.block + Joined(pieces)), rest)
    decreases |pieces|
  {
    var piece, later := pieces[0], pieces[1..];
    var f := Next(stream, piece);
    assert piece in pieces && Adds(p, f, piece.bytes);
    var more := EncodePieces(stream, later) + rest;
    assert EncodePieces(stream, pieces) + rest == Encode(f) + more;
    if later == [] {
      assert Joined(pieces) == piece.bytes && more == rest;
      q := BlockEnds(c, p, e, f, piece.bytes, rest);
    } else {
      var kept := FragmentKept(c, p, e, f, piece.bytes, more);
      assert p.block + Joined(pieces) == kept.block + Joined(later);
      q := PiecesRun(c, kept, e, stream, later, rest);
    }
  }

  /** A header block, however it is padded, given a priority and cut into frames, has its
      content decoded in one piece. */
  lemma BlockRuns(c: Codec, p: Parser, e: Evidence, b: Block, rest: seq<byte>) returns (q: Parser)
    requires Between(p) && LegalBlock(b) && Decodes(c, p, e, b.stream, Content(b))
    ensures Between(q) && q.last == Max(p.last, b.stream) && q.decoded == p.decoded + [Content(b)]
    ensures Bytes(c, p, e, EncodeBlock(b) + rest) == Bytes(c, q, After(c, p, e, b.stream, Content(b)), rest)
  {
    var f := First(b);
    FirstFragment(b, Read(p, f));
    assert [] + b.first == b.first;
    assert Adds(p, f, b.first);
    var more := EncodePieces(b.stream, b.more) + rest;
    assert EncodeBlock(b) + rest == Encode(f) + more;
    if b.more == [] {
      assert Content(b) == b.first && more == rest;
      q := BlockEnds(c, p, e, f, b.first, rest);
    } else {
      var kept := FragmentKept(c, p, e, f, b.first, more);
      q := PiecesRun(c, kept, e, b.stream, b.more, rest);
    }
  }

  ghost predicate Stops(r: Outcome, why: Error) { r.error == Some(why) && r.p.stopped }

  /** Padding that does not fit into the payload, and a priority that is not there. */
  lemma RefusedFrames(c: Codec, p: Parser, e: Evidence, f: Frame, rest: seq<byte>)
    requires Between(p) && Sendable(f) && f.kind == 1 && |f.payload| <= 65536
    ensures var r, n := Bytes(c, p, e, Encode(f) + rest), |f.payload|;
            var padded, prioritized := f.flags / 8 % 2 == 1, f.flags / 32 % 2 == 1;
            var fits := padded ==> n > 0 && f.payload[0] as int < n;
            && (!fits ==> Stops(r, Padding) && r.e == e)
            && (fits && prioritized && (if padded then n - 1 - f.payload[0] as int else n) < 5 ==>
                  Stops(r, Priority) && r.e == e)
  {
    FrameRuns(c, p, e, f, rest);
  }

  /** Too long a block, one that does not decode, and one that asks for one host too many. */
  lemma RefusedBlocks(c: Codec, p: Parser, e: Evidence, f: Frame, fragment: seq<byte>, rest: seq<byte>)
    requires Between(p) && Sendable(f) && f.kind in {1, 9} && |f.payload| <= 65536
    requires Unpadded(Read(p, f)).Some? && Unprioritized(Read(p, f), Unpadded(Read(p, f)).value) == Some(fragment)
    ensures var r, content := Bytes(c, p, e, Encode(f) + rest), Prior(p, f) + fragment;
            && (|content| > 65536 ==> Stops(r, BlockLimit) && r.e == e)
            && (|content| <= 65536 && f.flags / 4 % 2 == 1 ==>
                  match c.decode(p.decoded, content)
                  case None => Stops(r, Hpack) && r.e == e
                  case Some(fields) =>
                    var host := c.normalize(Authority(fields));
                    f.stream > p.last && host != "" && host !in e.hosts && |e.hosts| >= 256 ==>
                      Stops(r, HostLimit) && r.e.hosts == e.hosts)
  {
    FrameRuns(c, p, e, f, rest);
  }

  // ----- What a client's side of a connection amounts to -----

  datatype Item = Passed(frame: Frame) | Fields(block: Block)

  ghost predicate Legal(item: Item) {
    match item
    case Passed(f) => Sendable(f) && f.kind !in {1, 9}
    case Fields(b) => LegalBlock(b)
  }

  function EncodeItem(item: Item): seq<byte>
    requires Legal(item)
  {
    match item
    case Passed(f) => Encode(f)
    case Fields(b) => EncodeBlock(b)
  }

  function EncodeAll(items: seq<Item>): seq<byte>
    requires forall item :: item in items ==> Legal(item)
    decreases |items|
  {
    if items == [] then [] else EncodeItem(items[0]) + EncodeAll(items[1..])
  }

  function Contents(items: seq<Item>): seq<seq<byte>>
    decreases |items|
  {
    if items == [] then []
    else (if items[0].Fields? then [Content(items[0].block)] else []) + Contents(items[1..])
  }

  /** Every header block can be decoded after those before it. */
  ghost predicate Decodable(c: Codec, decoded: seq<seq<byte>>, items: seq<Item>)
    decreases |items|
  {
    items != [] ==>
      match items[0]
      case Passed(_) => Decodable(c, decoded, items[1..])
      case Fields(b) => c.decode(decoded, Content(b)).Some? && Decodable(c, decoded + [Content(b)], items[1..])
  }

  datatype Said = Said(stream: nat, fields: seq<Field>)

  /** The header fields that the client sent. */
  function FieldsOf(c: Codec, decoded: seq<seq<byte>>, items: seq<Item>): seq<Said>
    requires Decodable(c, decoded, items)
    decreases |items|
  {
    if items == [] then []
    else
      match items[0]
      case Passed(_) => FieldsOf(c, decoded, items[1..])
      case Fields(b) =>
        [Said(b.stream, c.decode(decoded, Content(b)).value)]
        + FieldsOf(c, decoded + [Content(b)], items[1..])
  }

  /** The destination that each stream's first header block names; later ones are trailers. */
  function Asked(c: Codec, last: nat, said: seq<Said>): seq<string>
    decreases |said|
  {
    if said == [] then []
    else
      (if said[0].stream > last then [c.normalize(Authority(said[0].fields))] else [])
      + Asked(c, Max(last, said[0].stream), said[1..])
  }

  ghost predicate SaysGrpc(said: seq<Said>) {
    exists s, f :: s in said && f in s.fields && f.name == "content-type" && "application/grpc" <= f.value
  }

  /** The authority is the first value that is not empty of a field that may name one. */
  lemma {:induction false} AuthorityMeans(fields: seq<Field>)
    ensures Authority(fields) != "" ==>
              exists k :: 0 <= k < |fields| && fields[k].name in {":authority", "host"}
                          && fields[k].value == Authority(fields)
                          && forall i :: 0 <= i < k && fields[i].name in {":authority", "host"} ==>
                               fields[i].value == ""
    ensures Authority(fields) == "" ==>
              forall i :: 0 <= i < |fields| && fields[i].name in {":authority", "host"} ==> fields[i].value == ""
    decreases |fields|
  {
    if fields != [] { AuthorityMeans(fields[..|fields| - 1]); }
  }

  /** After the items every block was handed to the decoder once, every stream's first
      destination is counted once, and nothing else changed but that gRPC may be noted. */
  ghost predicate Heard(c: Codec, p: Parser, e: Evidence, items: seq<Item>)
    requires Between(p) && (forall item :: item in items ==> Legal(item)) && Decodable(c, p.decoded, items)
  {
    var r, said := Bytes(c, p, e, EncodeAll(items)), FieldsOf(c, p.decoded, items);
    && r.error.None? && Between(r.p) && r.p.decoded == p.decoded + Contents(items)
    && CountsEach(e, Asked(c, p.last, said), r.e) && r.e.proxy == e.proxy
    && (r.e.grpc <==> e.grpc || SaysGrpc(said))
  }

  lemma NothingHeard(c: Codec, p: Parser, e: Evidence)
    requires Between(p)
    ensures Heard(c, p, e, [])
  {
    assert p.decoded + [] == p.decoded && Named([]) == {};
  }

  lemma FrameHeard(c: Codec, p: Parser, e: Evidence, items: seq<Item>, q: Parser)
    requires items != [] && (forall item :: item in items ==> Legal(item)) && items[0].Passed?
    requires Between(p) && Between(q) && q.last == p.last && q.decoded == p.decoded && Decodable(c, p.decoded, items)
    requires Bytes(c, p, e, EncodeAll(items)) == Bytes(c, q, e, EncodeAll(items[1..]))
    requires Heard(c, q, e, items[1..])
    ensures Heard(c, p, e, items)
  {
    assert [] + Contents(items[1..]) == Contents(items[1..]);
  }

  /** The evidence after a header block, and after what follows. */
  lemma BlockCounted(c: Codec, e: Evidence, last: nat, said: seq<Said>)
    requires said != [] && HasRoom(e, Asked(c, last, said))
    ensures var after := Noted(c, e, last, said[0].stream, said[0].fields);
            after.Some? && HasRoom(after.value, Asked(c, Max(last, said[0].stream), said[1..]))
  {
    var seen := e.(grpc := e.grpc || Grpc(said[0].fields));
    var hosts := Asked(c, last, said);
    assert HasRoom(seen, hosts);
    if said[0].stream > last {
      assert hosts[1..] == Asked(c, Max(last, said[0].stream), said[1..]);
      FirstCounts(seen, hosts);
    } else {
      assert hosts == Asked(c, Max(last, said[0].stream), said[1..]);
    }
  }

  lemma LaterCounted(c: Codec, e: Evidence, last: nat, said: seq<Said>, after: Evidence)
    requires said != [] && Noted(c, e, last, said[0].stream, said[0].fields).Some?
    requires CountsEach(Noted(c, e, last, said[0].stream, said[0].fields).value,
                        Asked(c, Max(last, said[0].stream), said[1..]), after)
    ensures CountsEach(e, Asked(c, last, said), after)
  {
    var seen := e.(grpc := e.grpc || Grpc(said[0].fields));
    var hosts := Asked(c, last, said);
    if said[0].stream > last {
      assert hosts[1..] == Asked(c, Max(last, said[0].stream), said[1..]);
      CountsFirst(seen, hosts, after);
      assert CountsEach(seen, hosts, after);
    } else {
      assert hosts == Asked(c, Max(last, said[0].stream), said[1..]);
    }
  }

  lemma GrpcLater(said: seq<Said>)
    requires said != []
    ensures SaysGrpc(said) <==> Grpc(said[0].fields) || SaysGrpc(said[1..])
  {
    assert said == [said[0]] + said[1..];
    if Grpc(said[0].fields) {
      var f :| f in said[0].fields && f.name == "content-type" && "application/grpc" <= f.value;
      assert said[0] in said && f in said[0].fields;
    }
    if SaysGrpc(said[1..]) {
      var s, f :| s in said[1..] && f in s.fields && f.name == "content-type" && "application/grpc" <= f.value;
      assert s in said && f in s.fields;
    }
  }

  lemma NotedKeeps(c: Codec, e: Evidence, last: nat, stream: nat, fields: seq<Field>)
    requires Noted(c, e, last, stream, fields).Some?
    ensures var noted := Noted(c, e, last, stream, fields).value;
            noted.proxy == e.proxy && noted.grpc == (e.grpc || Grpc(fields))
  {
  }

  lemma ContentsLater(items: seq<Item>, decoded: seq<seq<byte>>)
    requires items != [] && items[0].Fields?
    ensures decoded + Contents(items) == decoded + [Content(items[0].block)] + Contents(items[1..])
  {
  }

  lemma BlockHeard(c: Codec, p: Parser, e: Evidence, items: seq<Item>, q: Parser, e': Evidence)
    requires items != [] && (forall item :: item in items ==> Legal(item)) && items[0].Fields?
    requires Between(p) && Decodable(c, p.decoded, items)
    requires var b := items[0].block;
             && Decodes(c, p, e, b.stream, Content(b)) && e' == After(c, p, e, b.stream, Content(b))
             && Between(q) && q.last == Max(p.last, b.stream) && q.decoded == p.decoded + [Content(b)]
    requires Bytes(c, p, e, EncodeAll(items)) == Bytes(c, q, e', EncodeAll(items[1..]))
    requires Heard(c, q, e', items[1..])
    ensures Heard(c, p, e, items)
  {
    var b, said := items[0].block, FieldsOf(c, p.decoded, items);
    assert said[0] == Said(b.stream, c.decode(p.decoded, Content(b)).value);
    assert said[1..] == FieldsOf(c, q.decoded, items[1..]);
    LaterCounted(c, e, p.last, said, Bytes(c, p, e, EncodeAll(items)).e);
    GrpcLater(said);
    NotedKeeps(c, e, p.last, b.stream, said[0].fields);
    ContentsLater(items, p.decoded);
  }

  /** Any frames at all of which the header blocks can be decoded, whatever is between
      them and however they are padded, prioritized and cut. */
  lemma {:induction false} ConversationIsCounted(c: Codec, p: Parser, e: Evidence, items: seq<Item>)
    requires Between(p) && (forall item :: item in items ==> Legal(item)) && Decodable(c, p.decoded, items)
    requires HasRoom(e, Asked(c, p.last, FieldsOf(c, p.decoded, items)))
    ensures Heard(c, p, e, items)
    decreases |items|
  {
    if items == [] {
      NothingHeard(c, p, e);
    } else {
      var rest := EncodeAll(items[1..]);
      assert items[0] in items;
      match items[0]
      case Passed(f) =>
        var q := OtherFramesPass(c, p, e, f, rest);
        ConversationIsCounted(c, q, e, items[1..]);
        FrameHeard(c, p, e, items, q);
      case Fields(b) =>
        BlockCounted(c, e, p.last, FieldsOf(c, p.decoded, items));
        var said := FieldsOf(c, p.decoded, items);
        assert said[1..] == FieldsOf(c, p.decoded + [Content(b)], items[1..]);
        var q := BlockRuns(c, p, e, b, rest);
        var e' := After(c, p, e, b.stream, Content(b));
        ConversationIsCounted(c, q, e', items[1..]);
        BlockHeard(c, p, e, items, q, e');
    }
  }

  // ----- Skipping -----

  function SkipResult(p: Parser, n: nat): Option<Parser> {
    if |p.header| < 9 || HeaderFrame(p) || n > p.remaining then None
    else
      var q := p.(remaining := p.remaining - n);
      Some(if q.remaining == 0 then q.(header := []) else q)
  }

  /** Passing over `n` bytes of a frame is feeding any `n` bytes. */
  lemma SkipIsFeed(c: Codec, p: Parser, e: Evidence, data: seq<byte>)
    requires Ready(p) && !p.stopped && SkipResult(p, |data|).Some?
    ensures Bytes(c, p, e, data) == Outcome(SkipResult(p, |data|).value, e, None)
  {
    if data != [] { PayloadChunk(c, p, e, data); }
  }

  // ----- The parser as the source keeps it -----

  class H2Parser {
    var header: seq<byte>
    var kind: byte
    var flags: byte
    var stream: nat
    var remaining: nat
    var frame: seq<byte>
    var block: seq<byte>
    var last: nat
    var decoded: seq<seq<byte>>
    var stopped: bool

    function View(): Parser
      reads this
    {
      Parser(header, kind, flags, stream, remaining, frame, block, last, decoded, stopped)
    }

    constructor ()
      ensures View() == FRESH && Ready(View())
    {
      header, kind, flags, stream, remaining := [], 0, 0, 0, 0;
      frame, block, last, decoded, stopped := [], [], 0, [], false;
    }

    /** Walks the decoded fields of one header block. */
    method Scan(fields: seq<Field>, evidence: Evidence) returns (authority: string, after: Evidence)
      ensures authority == Authority(fields)
      ensures after == evidence.(grpc := evidence.grpc || Grpc(fields))
    {
      authority, after := "", evidence;
      for i := 0 to |fields|
        invariant authority == Authority(fields[..i])
        invariant after == evidence.(grpc := evidence.grpc || Grpc(fields[..i]))
      {
        var field := fields[i];
        assert fields[..i + 1][..i] == fields[..i];
        assert Grpc(fields[..i + 1]) <==>
                 Grpc(fields[..i]) || (field.name == "content-type" && "application/grpc" <= field.value) by {
          assert fields[..i + 1] == fields[..i] + [field];
        }
        if field.name == ":authority" || field.name == "host" {
          if authority == "" {
            authority := field.value;
          }
        } else if field.name == "content-type" {
          after := after.(grpc := after.grpc || "application/grpc" <= field.value);
        }
      }
      assert fields[..|fields|] == fields;
    }

    /** The header block fragment of the frame just read. */
    method Fragment() returns (fragment: seq<byte>, error: Option<Error>)
      ensures match Unpadded(View())
              case None => error == Some(Padding)
              case Some(padded) =>
                match Unprioritized(View(), padded)
                case None => error == Some(Priority)
                case Some(f) => error == None && fragment == f
    {
      fragment, error := frame, None;
      if kind == HEADERS {
        if Flag(flags, 8) {
          if |fragment| == 0 || fragment[0] as int >= |fragment| {
            return fragment, Some(Padding);
          }
          fragment := fragment[1..|fragment| - fragment[0] as int];
        }
        if Flag(flags, 32) {
          if |fragment| < 5 {
            return fragment, Some(Priority);
          }
          fragment := fragment[5..];
        }
      }
    }

    method Append(c: Codec, fragment: seq<byte>, evidence: Evidence) returns (after: Evidence, error: Option<Error>)
      modifies this
      ensures Outcome(View(), after, error) == AppendFragment(c, old(View()), evidence, fragment)
    {
      after, error := evidence, None;
      if |block| + |fragment| > MAX_BLOCK {
        return after, Some(BlockLimit);
      }
      block := block + fragment;
      if !Flag(flags, 4) {
        return;
      }
      match c.decode(decoded, block) {
        case None =>
          error := Some(Hpack);
        case Some(fields) =>
          decoded := decoded + [block];
          after, error := Count(c, fields, after);
      }
    }

    method Count(c: Codec, fields: seq<Field>, evidence: Evidence) returns (after: Evidence, error: Option<Error>)
      modifies this`last
      ensures Outcome(View(), after, error) == CountRequest(c, old(View()), evidence, fields)
    {
      error := None;
      var authority;
      authority, after := Scan(fields, evidence);
      if stream <= last {
        return;
      }
      last := stream;
      match CountHost(after, c.normalize(authority)) {
        case None => error := Some(HostLimit);
        case Some(counted) => after := counted;
      }
    }

    /** Takes the fragment out of a complete frame; the last one of a block has it read. */
    method Headers(c: Codec, evidence: Evidence) returns (after: Evidence, error: Option<Error>)
      modifies this
      ensures Outcome(View(), after, error) == ReadHeaders(c, old(View()), evidence)
    {
      var fragment;
      fragment, error := Fragment();
      if error.Some? {
        return evidence, error;
      }
      if kind == HEADERS {
        block := [];
      }
      after, error := Append(c, fragment, evidence);
    }

    /** Feeds the next bytes in the chunks the frames allow. The result is that of
        feeding them one at a time. */
    method Feed(c: Codec, input: seq<byte>, evidence: Evidence) returns (after: Evidence, error: Option<Error>)
      requires Ready(View())
      modifies this
      ensures Outcome(View(), after, error) == Bytes(c, old(View()), evidence, input)
      ensures Ready(View())
    {
      after, error := evidence, None;
      var data := input;
      while |data| > 0 && !stopped
        invariant Ready(View()) && error.None?
        invariant Bytes(c, View(), after, data) == Bytes(c, old(View()), evidence, input)
        decreases |data|
      {
        var open;
        open, error, data := Head(c, data, after);
        if !open {
          return;
        }
        ContinueSteps(c, View(), after, data);
        after, error, data := Body(c, data, Min(|data|, remaining), after);
        if error.Some? || remaining > 0 {
          return;
        }
      }
    }

    /** Completes the current frame's header, if it is not complete yet; `open` tells
        whether payload comes next. */
    method Head(c: Codec, input: seq<byte>, ghost evidence: Evidence)
      returns (open: bool, error: Option<Error>, data: seq<byte>)
      requires Ready(View()) && !stopped && input != []
      modifies this
      ensures open ==> InFrame(View()) && error.None? && |data| <= |input| && (|data| < |input| || remaining > 0)
      ensures open ==> Bytes(c, old(View()), evidence, input) == Continue(c, View(), evidence, data)
      ensures !open ==> Ready(View()) && Bytes(c, old(View()), evidence, input) == Outcome(View(), evidence, error)
    {
      open, error, data := true, None, input;
      if |header| < 9 {
        var n := Min(|data|, 9 - |header|);
        HeaderFirst(c, View(), evidence, data, n);
        header, data := header + data[..n], data[n..];
        if |header| < 9 {
          return false, None, data;
        }
        OpenFrame();
        if HeaderFrame(View()) && remaining > MAX_BLOCK {
          stopped := true;
          return false, Some(BlockLimit), data;
        }
      } else {
        PayloadFirst(c, View(), evidence, data);
      }
    }

    method OpenFrame()
      requires |header| == 9
      modifies this
      ensures View() == Opened(old(View()))
    {
      remaining := header[0] as int * 65536 + header[1] as int * 256 + header[2] as int;
      kind, flags := header[3], header[4];
      stream := (header[5] as int * 16777216 + header[6] as int * 65536 + header[7] as int * 256
        + header[8] as int) % 0x8000_0000;
    }

    /** Consumes n payload bytes and ends the frame with its last one. */
    method Body(c: Codec, input: seq<byte>, n: nat, evidence: Evidence)
      returns (after: Evidence, error: Option<Error>, data: seq<byte>)
      requires n <= |input| && n <= remaining
      modifies this
      ensures Outcome(View(), after, error) == Payload(c, old(View()), evidence, input[..n]) && data == input[n..]
    {
      after, error := evidence, None;
      if HeaderFrame(View()) {
        frame := frame + input[..n];
      }
      remaining, data := remaining - n, input[n..];
      if remaining > 0 {
        return;
      }
      if HeaderFrame(View()) {
        after, error := Headers(c, after);
        if error.Some? {
          stopped := true;
          return;
        }
      }
      header, frame := [], [];
    }

    /** Passes over `n` missing bytes of a frame's payload, or refuses and changes nothing. */
    method Skip(n: nat) returns (ok: bool)
      modifies this
      ensures ok == SkipResult(old(View()), n).Some?
      ensures View() == if ok then SkipResult(old(View()), n).value else old(View())
    {
      if |header| < 9 || HeaderFrame(View()) || n > remaining {
        return false;
      }
      remaining := remaining - n;
      if remaining == 0 {
        header := [];
      }
      return true;
    }
  }
}
