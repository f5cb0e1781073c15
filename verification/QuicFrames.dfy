/** The frames of a QUIC Initial packet (sections 16 and 19 of RFC 9000): which CRYPTO
    data a payload carries, however its integers are encoded. */
module QuicFrames {
  import opened Prelude

  const MAX_RANGES := 256

  // ----- Variable-length integers -----

  /** How many bytes follow the first one. */
  function Following(first: byte): (n: nat)
    ensures n in {0, 1, 3, 7}
  {
    if first < 64 then 0 else if first < 128 then 1 else if first < 192 then 3 else 7
  }

  /** The first byte without its length bits. */
  function Low6(first: byte): (v: nat)
    ensures v < 64
  {
    first as int % 64
  }

  function BigEndian(high: nat, tail: seq<byte>): nat
    decreases |tail|
  {
    if tail == [] then high else BigEndian(high, tail[..|tail| - 1]) * 256 + tail[|tail| - 1] as int
  }

  datatype Integer = Truncated | Read(value: nat, rest: seq<byte>)

  function ReadVarint(data: seq<byte>): (r: Integer)
    ensures r.Read? ==> |r.rest| < |data|
  {
    if data == [] || Following(data[0]) + 1 > |data| then Truncated
    else Read(BigEndian(Low6(data[0]), data[1..Following(data[0]) + 1]), data[Following(data[0]) + 1..])
  }

  /** Reads one integer at an offset, byte by byte. */
  method TakeVarint(data: seq<byte>, offset: nat) returns (ok: bool, value: nat, next: nat)
    requires offset <= |data|
    ensures offset <= next <= |data|
    ensures ReadVarint(data[offset..]) == if ok then Read(value, data[next..]) else Truncated
  {
    if offset >= |data| { return false, 0, offset; }
    var length := Following(data[offset]) + 1;
    if length > |data| - offset { return false, 0, offset; }
    value := Low6(data[offset]);
    ghost var tail := data[offset + 1..offset + length];
    for i := 1 to length
      invariant value == BigEndian(Low6(data[offset]), tail[..i - 1])
    {
      assert tail[..i][..i - 1] == tail[..i - 1];
      value := value * 256 + data[offset + i] as int;
    }
    assert tail[..length - 1] == tail == data[offset..][1..length];
    ok, next := true, offset + length;
  }

  /** An integer with the length it is sent in. */
  datatype Varint = Varint(value: nat, following: nat)

  function HighPart(v: nat, n: nat): nat
    decreases n
  {
    if n == 0 then v else HighPart(v / 256, n - 1)
  }

  function LowBytes(v: nat, n: nat): (r: seq<byte>)
    ensures |r| == n
    decreases n
  {
    if n == 0 then [] else LowBytes(v / 256, n - 1) + [(v % 256) as byte]
  }

  /** The integer fits the length: 6, 14, 30 or 62 bits. */
  predicate Sendable(v: Varint) { v.following in {0, 1, 3, 7} && HighPart(v.value, v.following) < 64 }

  function LengthBits(following: nat): nat {
    if following == 0 then 0 else if following == 1 then 64 else if following == 3 then 128 else 192
  }

  function Encode(v: Varint): (r: seq<byte>)
    requires Sendable(v)
    ensures |r| == v.following + 1
  {
    [(LengthBits(v.following) + HighPart(v.value, v.following)) as byte] + LowBytes(v.value, v.following)
  }

  lemma {:induction false} BytesGiveValue(v: nat, n: nat)
    ensures BigEndian(HighPart(v, n), LowBytes(v, n)) == v
    decreases n
  {
    if n > 0 {
      BytesGiveValue(v / 256, n - 1);
      assert LowBytes(v, n)[..n - 1] == LowBytes(v / 256, n - 1);
    }
  }

  /** An integer reads back as itself, in whichever length it was sent. */
  lemma VarintRoundTrip(v: Varint, rest: seq<byte>)
    requires Sendable(v)
    ensures ReadVarint(Encode(v) + rest) == Read(v.value, rest)
  {
    var data := Encode(v) + rest;
    BytesGiveValue(v.value, v.following);
    assert Following(data[0]) == v.following && Low6(data[0]) == HighPart(v.value, v.following);
    assert data[1..v.following + 1] == LowBytes(v.value, v.following);
    assert data[v.following + 1..] == rest;
  }

  /** Reads and drops so many integers. */
  function SkipVarints(data: seq<byte>, count: nat): (r: Integer)
    ensures r.Read? ==> |r.rest| <= |data|
    decreases count
  {
    if count == 0 then Read(0, data)
    else match ReadVarint(data) case Truncated => Truncated case Read(_, rest) => SkipVarints(rest, count - 1)
  }

  // ----- Frames -----

  datatype Error =
    | TruncatedType | TruncatedAck | BadAckRanges | TruncatedRanges | TruncatedEcn | TruncatedOffset | TruncatedData
    | TruncatedClose | TruncatedReason | UnsupportedFrame

  /** CRYPTO data: where it starts, and its bytes. */
  type Crypto = (nat, seq<byte>)

  /** One frame read: what is left, and its CRYPTO data if it has any. */
  datatype One = Bad(why: Error) | Good(crypto: seq<Crypto>, rest: seq<byte>)

  function ReadAck(data: seq<byte>, ecn: bool): (r: One)
    ensures r.Good? ==> |r.rest| <= |data|
  {
    match SkipVarints(data, 2)
    case Truncated => Bad(TruncatedAck)
    case Read(_, afterDelay) =>
      match ReadVarint(afterDelay)
      case Truncated => Bad(BadAckRanges)
      case Read(ranges, afterCount) =>
        if ranges > MAX_RANGES then Bad(BadAckRanges)
        else
          match ReadVarint(afterCount)
          case Truncated => Bad(TruncatedAck)
          case Read(_, afterFirst) => ReadRanges(afterFirst, 2 * ranges, ecn)
  }

  function ReadRanges(data: seq<byte>, count: nat, ecn: bool): (r: One)
    ensures r.Good? ==> |r.rest| <= |data|
  {
    match SkipVarints(data, count)
    case Truncated => Bad(TruncatedRanges)
    case Read(_, afterRanges) =>
      if !ecn then Good([], afterRanges)
      else match SkipVarints(afterRanges, 3) case Truncated => Bad(TruncatedEcn) case Read(_, rest) => Good([], rest)
  }

  function ReadCrypto(data: seq<byte>): (r: One)
    ensures r.Good? ==> |r.rest| <= |data|
  {
    match ReadVarint(data)
    case Truncated => Bad(TruncatedOffset)
    case Read(start, afterStart) =>
      match ReadVarint(afterStart)
      case Truncated => Bad(TruncatedData)
      case Read(length, rest) =>
        if length > |rest| then Bad(TruncatedData) else Good([(start, rest[..length])], rest[length..])
  }

  function ReadClose(data: seq<byte>, fields: nat): (r: One)
    ensures r.Good? ==> |r.rest| <= |data|
  {
    match SkipVarints(data, fields)
    case Truncated => Bad(TruncatedClose)
    case Read(_, afterFields) =>
      match ReadVarint(afterFields)
      case Truncated => Bad(TruncatedReason)
      case Read(length, rest) => if length > |rest| then Bad(TruncatedReason) else Good([], rest[length..])
  }

  function ReadFrame(kind: nat, data: seq<byte>): (r: One)
    ensures r.Good? ==> |r.rest| <= |data|
  {
    if kind == 0 || kind == 1 then Good([], data)
    else if kind == 2 || kind == 3 then ReadAck(data, kind == 3)
    else if kind == 6 then ReadCrypto(data)
    else if kind == 0x1c then ReadClose(data, 2)
    else if kind == 0x1d then ReadClose(data, 1)
    else Bad(UnsupportedFrame)
  }

  /** The CRYPTO data found, in order, up to the first error. */
  datatype Found = Found(crypto: seq<Crypto>, error: Option<Error>)

  function After(crypto: seq<Crypto>, f: Found): Found { f.(crypto := crypto + f.crypto) }

  function ReadFrames(data: seq<byte>): Found
    decreases |data|
  {
    if data == [] then Found([], None)
    else
      match ReadVarint(data)
      case Truncated => Found([], Some(TruncatedType))
      case Read(kind, rest) =>
        match ReadFrame(kind, rest)
        case Bad(why) => Found([], Some(why))
        case Good(crypto, left) => After(crypto, ReadFrames(left))
  }

  /** Walks the payload once and hands on each CRYPTO frame as it comes. */
  method Frames(plain: seq<byte>) returns (found: Found)
    ensures found == ReadFrames(plain)
  {
    var data := plain;
    var crypto: seq<Crypto> := [];
    while |data| > 0
      invariant ReadFrames(plain) == After(crypto, ReadFrames(data))
      decreases |data|
    {
      var kind := ReadVarint(data);
      if kind.Truncated? { return Found(crypto, Some(TruncatedType)); }
      var one := ReadFrame(kind.value, kind.rest);
      if one.Bad? { return Found(crypto, Some(one.why)); }
      AfterTwice(crypto, one.crypto, ReadFrames(one.rest));
      crypto := crypto + one.crypto;
      data := one.rest;
    }
    found := Found(crypto, None);
  }

  lemma AfterTwice(a: seq<Crypto>, b: seq<Crypto>, f: Found)
    ensures After(a, After(b, f)) == After(a + b, f)
  {
    assert a + (b + f.crypto) == (a + b) + f.crypto;
  }

  // ----- What a sender may write -----

  datatype Frame =
    | Plain(kind: Varint)
    | Ack(kind: Varint, opening: seq<Varint>, count: Varint, first: Varint, ranges: seq<Varint>, ecn: seq<Varint>)
    | CryptoData(kind: Varint, start: Varint, length: Varint, data: seq<byte>)
    | Close(kind: Varint, fields: seq<Varint>, length: Varint, reason: seq<byte>)

  predicate AllSendable(vs: seq<Varint>) { forall i :: 0 <= i < |vs| ==> Sendable(vs[i]) }

  predicate WellFormed(f: Frame) {
    && Sendable(f.kind)
    && match f
       case Plain(kind) => kind.value == 0 || kind.value == 1
       case Ack(kind, opening, count, first, ranges, ecn) =>
         && (kind.value == 2 || kind.value == 3) && |opening| == 2 && AllSendable(opening) && Sendable(count)
         && Sendable(first)
         && AllSendable(ranges) && AllSendable(ecn) && count.value <= 256
         && |ranges| == 2 * count.value && |ecn| == if kind.value == 3 then 3 else 0
       case CryptoData(kind, start, length, data) =>
         kind.value == 6 && Sendable(start) && Sendable(length) && length.value == |data|
       case Close(kind, fields, length, reason) =>
         && (kind.value == 0x1c || kind.value == 0x1d) && AllSendable(fields) && Sendable(length)
         && length.value == |reason|
         && |fields| == if kind.value == 0x1c then 2 else 1
  }

  function EncodeAll(vs: seq<Varint>): seq<byte>
    requires AllSendable(vs)
    decreases |vs|
  {
    if vs == [] then [] else Encode(vs[0]) + EncodeAll(vs[1..])
  }

  function Body(f: Frame): seq<byte>
    requires WellFormed(f)
  {
    match f
    case Plain(_) => []
    case Ack(_, opening, count, first, ranges, ecn) =>
      EncodeAll(opening) + (Encode(count) + (Encode(first) + (EncodeAll(ranges) + EncodeAll(ecn))))
    case CryptoData(_, start, length, data) => Encode(start) + (Encode(length) + data)
    case Close(_, fields, length, reason) => EncodeAll(fields) + (Encode(length) + reason)
  }

  function Payload(frames: seq<Frame>): seq<byte>
    requires forall i :: 0 <= i < |frames| ==> WellFormed(frames[i])
    decreases |frames|
  {
    if frames == [] then []
    else
      assert WellFormed(frames[0]);
      Encode(frames[0].kind) + (Body(frames[0]) + Payload(frames[1..]))
  }

  function CryptoOf(f: Frame): seq<Crypto> { if f.CryptoData? then [(f.start.value, f.data)] else [] }

  function AllCrypto(frames: seq<Frame>): seq<Crypto>
    decreases |frames|
  {
    if frames == [] then [] else CryptoOf(frames[0]) + AllCrypto(frames[1..])
  }

  lemma {:induction false} SkipReads(vs: seq<Varint>, rest: seq<byte>)
    requires AllSendable(vs)
    ensures SkipVarints(EncodeAll(vs) + rest, |vs|) == Read(0, rest)
    decreases |vs|
  {
    if vs == [] {
      assert EncodeAll(vs) + rest == rest;
    } else {
      var head, tail := Encode(vs[0]), EncodeAll(vs[1..]);
      SkipReads(vs[1..], rest);
      VarintRoundTrip(vs[0], tail + rest);
      Regroup(head, tail, rest);
    }
  }

  lemma Regroup(a: seq<byte>, b: seq<byte>, c: seq<byte>)
    ensures (a + b) + c == a + (b + c)
  {
  }

  lemma AckReads(f: Frame, rest: seq<byte>)
    requires WellFormed(f) && f.Ack?
    ensures ReadFrame(f.kind.value, Body(f) + rest) == Good([], rest)
  {
    var tail := EncodeAll(f.ranges) + (EncodeAll(f.ecn) + rest);
    var b := Encode(f.first) + tail;
    var a := Encode(f.count) + b;
    AckLayout(EncodeAll(f.opening), Encode(f.count), Encode(f.first), EncodeAll(f.ranges), EncodeAll(f.ecn), rest);
    SkipReads(f.opening, a);
    VarintRoundTrip(f.count, b);
    VarintRoundTrip(f.first, tail);
    RangesRead(f.ranges, f.ecn, rest);
  }

  lemma AckLayout(a: seq<byte>, b: seq<byte>, c: seq<byte>, d: seq<byte>, e: seq<byte>, rest: seq<byte>)
    ensures (a + (b + (c + (d + e)))) + rest == a + (b + (c + (d + (e + rest))))
  {
    Regroup(a, b + (c + (d + e)), rest);
    Regroup(b, c + (d + e), rest);
    Regroup(c, d + e, rest);
    Regroup(d, e, rest);
  }

  lemma RangesRead(ranges: seq<Varint>, ecn: seq<Varint>, rest: seq<byte>)
    requires AllSendable(ranges) && AllSendable(ecn) && |ecn| in {0, 3}
    ensures ReadRanges(EncodeAll(ranges) + (EncodeAll(ecn) + rest), |ranges|, |ecn| == 3) == Good([], rest)
  {
    SkipReads(ranges, EncodeAll(ecn) + rest);
    SkipReads(ecn, rest);
    if ecn == [] { assert EncodeAll(ecn) + rest == rest; }
  }

  lemma CryptoReads(f: Frame, rest: seq<byte>)
    requires WellFormed(f) && f.CryptoData?
    ensures ReadFrame(f.kind.value, Body(f) + rest) == Good([(f.start.value, f.data)], rest)
  {
    var tail := f.data + rest;
    assert Body(f) + rest == Encode(f.start) + (Encode(f.length) + tail);
    VarintRoundTrip(f.start, Encode(f.length) + tail);
    VarintRoundTrip(f.length, tail);
    assert tail[..|f.data|] == f.data && tail[|f.data|..] == rest;
  }

  lemma CloseLayout(a: seq<byte>, b: seq<byte>, c: seq<byte>, rest: seq<byte>)
    ensures (a + (b + c)) + rest == a + (b + (c + rest))
  {
    Regroup(a, b + c, rest);
    Regroup(b, c, rest);
  }

  lemma CloseReads(f: Frame, rest: seq<byte>)
    requires WellFormed(f) && f.Close?
    ensures ReadFrame(f.kind.value, Body(f) + rest) == Good([], rest)
  {
    var tail := f.reason + rest;
    CloseLayout(EncodeAll(f.fields), Encode(f.length), f.reason, rest);
    SkipReads(f.fields, Encode(f.length) + tail);
    VarintRoundTrip(f.length, tail);
    assert tail[|f.reason|..] == rest;
  }

  /** A frame of any kind that an Initial packet may not hold is refused. */
  lemma RefusedKinds(kind: nat, data: seq<byte>)
    ensures kind !in {0, 1, 2, 3, 6, 0x1c, 0x1d} ==> ReadFrame(kind, data) == Bad(UnsupportedFrame)
    ensures kind in {0, 1} ==> ReadFrame(kind, data) == Good([], data)
    ensures ReadFrame(0x1c, data) == ReadClose(data, 2) && ReadFrame(0x1d, data) == ReadClose(data, 1)
  {
  }

  /** So are CRYPTO data shorter than announced. */
  lemma RefusedCrypto(start: Varint, length: Varint, bytes: seq<byte>)
    requires Sendable(start) && Sendable(length) && |bytes| < length.value
    ensures ReadFrame(6, Encode(start) + (Encode(length) + bytes)) == Bad(TruncatedData)
  {
    VarintRoundTrip(start, Encode(length) + bytes);
    VarintRoundTrip(length, bytes);
  }

  /** So are more than 256 ranges. */
  lemma RefusedRanges(kind: nat, opening: seq<Varint>, count: Varint, bytes: seq<byte>)
    requires kind in {2, 3} && AllSendable(opening) && |opening| == 2 && Sendable(count) && count.value > 256
    ensures ReadFrame(kind, EncodeAll(opening) + (Encode(count) + bytes)) == Bad(BadAckRanges)
  {
    SkipReads(opening, Encode(count) + bytes);
    VarintRoundTrip(count, bytes);
  }

  /** And a reason shorter than announced, after any fields. */
  lemma RefusedReason(fields: seq<Varint>, length: Varint, bytes: seq<byte>)
    requires AllSendable(fields) && Sendable(length) && |bytes| < length.value
    ensures ReadClose(EncodeAll(fields) + (Encode(length) + bytes), |fields|) == Bad(TruncatedReason)
  {
    SkipReads(fields, Encode(length) + bytes);
    VarintRoundTrip(length, bytes);
  }

  lemma FrameReads(f: Frame, rest: seq<byte>)
    requires WellFormed(f)
    ensures ReadFrame(f.kind.value, Body(f) + rest) == Good(CryptoOf(f), rest)
  {
    match f {
      case Plain(_) => assert Body(f) + rest == rest;
      case Ack(_, _, _, _, _, _) => AckReads(f, rest);
      case CryptoData(_, _, _, _) => CryptoReads(f, rest);
      case Close(_, _, _, _) => CloseReads(f, rest);
    }
  }

  /** Whatever frames a sender packs, in whatever integer lengths, exactly their CRYPTO
      data is found, in order, and no error. */
  lemma {:induction false} PayloadGivesCrypto(frames: seq<Frame>)
    requires forall i :: 0 <= i < |frames| ==> WellFormed(frames[i])
    ensures ReadFrames(Payload(frames)) == Found(AllCrypto(frames), None)
    decreases |frames|
  {
    if frames != [] {
      var f, rest := frames[0], Payload(frames[1..]);
      PayloadGivesCrypto(frames[1..]);
      VarintRoundTrip(f.kind, Body(f) + rest);
      FrameReads(f, rest);
    }
  }
}
