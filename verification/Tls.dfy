/** The ClientHello reader: TLS records (section 5.1 of RFC 8446) in any pieces are
    joined into one handshake message, whose body goes to the hello parser. */
module Tls {
  import opened Prelude

  const MAX_HELLO := 65536
  const MAX_RECORD := 18432
  const MAX_PIECE := 65536

  datatype Error = SizeLimit | UnexpectedRecord | BadRecordLength | NotClientHello | HelloLimit | BadHello

  /** `hello` is the body handed to the hello parser, once there is one. */
  datatype Parser = Parser(record: seq<byte>, handshake: seq<byte>, done: bool, hello: Option<seq<byte>>)

  const FRESH := Parser([], [], false, None)

  datatype Outcome = Ok(p: Parser) | Err(error: Error)

  function RecordLength(record: seq<byte>): nat
    requires |record| >= 5
  {
    record[3] as int * 256 + record[4] as int
  }

  function MessageLength(handshake: seq<byte>): nat
    requires |handshake| >= 4
  {
    handshake[1] as int * 65536 + handshake[2] as int * 256 + handshake[3] as int
  }

  /** What the handshake bytes so far say: None while the message is incomplete. */
  function Message(parse: seq<byte> -> bool, handshake: seq<byte>): Option<Outcome> {
    if |handshake| < 4 then None
    else if handshake[0] != 1 then Some(Err(NotClientHello))
    else
      var n := MessageLength(handshake);
      if n > MAX_HELLO then Some(Err(HelloLimit))
      else if |handshake| < 4 + n then None
      else if parse(handshake[4..4 + n]) then Some(Ok(Parser([], [], true, Some(handshake[4..4 + n]))))
      else Some(Err(BadHello))
  }

  /** The parser's loop over the buffered records. */
  function Run(parse: seq<byte> -> bool, p: Parser): Outcome
    decreases |p.record|
  {
    if |p.record| < 5 then Ok(p)
    else if p.record[0] != 22 || p.record[1] != 3 then Err(UnexpectedRecord)
    else
      var n := RecordLength(p.record);
      if n < 1 || n > MAX_RECORD then Err(BadRecordLength)
      else if |p.record| < 5 + n then Ok(p)
      else
        var handshake := p.handshake + p.record[5..5 + n];
        match Message(parse, handshake)
        case Some(r) => r
        case None => Run(parse, p.(handshake := handshake, record := p.record[5 + n..]))
  }

  /** The loop once more bytes have arrived. */
  function Resume(parse: seq<byte> -> bool, p: Parser, data: seq<byte>): Outcome {
    if p.done then Ok(p) else Run(parse, p.(record := p.record + data))
  }

  /** One call of feed. */
  function FeedResult(parse: seq<byte> -> bool, p: Parser, data: seq<byte>): Outcome {
    if p.done then Ok(p)
    else if |p.record| + |data| > MAX_HELLO + 2 * MAX_RECORD then Err(SizeLimit)
    else Resume(parse, p, data)
  }

  function FeedAll(parse: seq<byte> -> bool, p: Parser, pieces: seq<seq<byte>>): Outcome
    decreases |pieces|
  {
    if pieces == [] then Ok(p)
    else
      match FeedResult(parse, p, pieces[0])
      case Err(error) => Err(error)
      case Ok(q) => FeedAll(parse, q, pieces[1..])
  }

  function Concat(pieces: seq<seq<byte>>): seq<byte>
    decreases |pieces|
  {
    if pieces == [] then [] else pieces[0] + Concat(pieces[1..])
  }

  // ----- Segmentation -----

  /** Between calls, less than one record is buffered and no turn is possible. */
  predicate Resting(parse: seq<byte> -> bool, p: Parser) {
    p.done || (|p.record| < 5 + MAX_RECORD && Run(parse, p) == Ok(p))
  }

  lemma {:induction false} RunRests(parse: seq<byte> -> bool, p: Parser)
    requires !p.done && Run(parse, p).Ok?
    ensures Resting(parse, Run(parse, p).p)
    decreases |p.record|
  {
    if |p.record| >= 5 && |p.record| >= 5 + RecordLength(p.record) {
      var n := RecordLength(p.record);
      var q := p.(handshake := p.handshake + p.record[5..5 + n], record := p.record[5 + n..]);
      if Message(parse, q.handshake).None? { RunRests(parse, q); }
    }
  }

  lemma RecordExtend(record: seq<byte>, b: seq<byte>)
    requires |record| >= 5
    ensures |record + b| >= 5 && RecordLength(record + b) == RecordLength(record)
    ensures var n := RecordLength(record);
            |record| >= 5 + n ==>
              (record + b)[5..5 + n] == record[5..5 + n] && (record + b)[5 + n..] == record[5 + n..] + b
  {
  }

  /** The parser once its first record is taken. */
  function Taken(p: Parser): Parser
    requires |p.record| >= 5 && |p.record| >= 5 + RecordLength(p.record)
  {
    var n := RecordLength(p.record);
    p.(handshake := p.handshake + p.record[5..5 + n], record := p.record[5 + n..])
  }

  lemma TakenExtend(p: Parser, b: seq<byte>)
    requires |p.record| >= 5 && |p.record| >= 5 + RecordLength(p.record)
    ensures var more := p.(record := p.record + b);
            && |more.record| >= 5 + RecordLength(more.record) == 5 + RecordLength(p.record)
            && Taken(more) == Taken(p).(record := Taken(p).record + b)
  {
    RecordExtend(p.record, b);
  }

  lemma RunTurn(parse: seq<byte> -> bool, p: Parser)
    requires |p.record| >= 5 && |p.record| >= 5 + RecordLength(p.record)
    requires p.record[0] == 22 && p.record[1] == 3 && 1 <= RecordLength(p.record) <= MAX_RECORD
    ensures Run(parse, p) ==
            match Message(parse, Taken(p).handshake) { case Some(r) => r case None => Run(parse, Taken(p)) }
  {
  }

  /** The loop over more bytes is the loop over the first ones, resumed. */
  lemma {:induction false} RunSplits(parse: seq<byte> -> bool, p: Parser, b: seq<byte>)
    requires !p.done
    ensures Run(parse, p.(record := p.record + b)) ==
            match Run(parse, p) { case Ok(q) => Resume(parse, q, b) case Err(error) => Err(error) }
    decreases |p.record|
  {
    var more := p.(record := p.record + b);
    if |p.record| >= 5 {
      RecordExtend(p.record, b);
      if |p.record| >= 5 + RecordLength(p.record) {
        TakenExtend(p, b);
        if p.record[0] == 22 && p.record[1] == 3 && 1 <= RecordLength(p.record) <= MAX_RECORD {
          RunTurn(parse, p);
          RunTurn(parse, more);
          if Message(parse, Taken(p).handshake).None? { RunSplits(parse, Taken(p), b); }
        }
      }
    }
  }

  /** Pieces of at most 64 KiB never hit the record buffer's limit, and however they
      cut the bytes the result is that of all bytes at once. */
  lemma {:induction false} SegmentationIrrelevant(parse: seq<byte> -> bool, p: Parser, pieces: seq<seq<byte>>)
    requires Resting(parse, p) && forall piece :: piece in pieces ==> |piece| <= MAX_PIECE
    ensures FeedAll(parse, p, pieces) == Resume(parse, p, Concat(pieces))
    ensures FeedAll(parse, p, pieces) != Err(SizeLimit)
    decreases |pieces|
  {
    if pieces == [] {
      assert p.record + [] == p.record;
    } else {
      assert pieces[0] in pieces;
      var q := p.(record := p.record + pieces[0]);
      NoSizeLimit(parse, q);
      if !p.done {
        RunSplits(parse, q, Concat(pieces[1..]));
        assert p.record + Concat(pieces) == q.record + Concat(pieces[1..]);
        if Run(parse, q).Ok? {
          RunRests(parse, q);
          SegmentationIrrelevant(parse, Run(parse, q).p, pieces[1..]);
        }
      } else {
        SegmentationIrrelevant(parse, p, pieces[1..]);
      }
    }
  }

  lemma {:induction false} NoSizeLimit(parse: seq<byte> -> bool, p: Parser)
    ensures Run(parse, p) != Err(SizeLimit)
    decreases |p.record|
  {
    if |p.record| >= 5 && |p.record| >= 5 + RecordLength(p.record) {
      var n := RecordLength(p.record);
      NoSizeLimit(parse, p.(handshake := p.handshake + p.record[5..5 + n], record := p.record[5 + n..]));
    }
  }

  // ----- Framing -----

  /** One handshake record: content type 22, version 3.`minor`, a length, a fragment. */
  datatype Record = Record(minor: byte, fragment: seq<byte>)

  predicate Legal(r: Record) { 1 <= |r.fragment| <= 18432 }

  function Encode(r: Record): seq<byte>
    requires Legal(r)
  {
    [22, 3, r.minor, (|r.fragment| / 256) as byte, (|r.fragment| % 256) as byte] + r.fragment
  }

  function EncodeAll(records: seq<Record>): seq<byte>
    requires forall r :: r in records ==> Legal(r)
    decreases |records|
  {
    if records == [] then [] else Encode(records[0]) + EncodeAll(records[1..])
  }

  function Fragments(records: seq<Record>): seq<byte>
    decreases |records|
  {
    if records == [] then [] else records[0].fragment + Fragments(records[1..])
  }

  /** A handshake message (section 4 of RFC 8446): its type, three length bytes, most
      significant first, and its body. */
  function Handshake(kind: byte, body: seq<byte>): seq<byte>
    requires |body| < 0x100_0000
  {
    var n := |body|;
    [kind, (n / 65536) as byte, (n / 256 % 256) as byte, (n % 256) as byte] + body
  }

  lemma HandshakeLength(kind: byte, body: seq<byte>)
    requires |body| < 0x100_0000
    ensures MessageLength(Handshake(kind, body)) == |body|
    ensures Handshake(kind, body)[0] == kind && Handshake(kind, body)[4..] == body
  {
  }

  /** What the body's parser makes of it. */
  function Parsed(parse: seq<byte> -> bool, body: seq<byte>): Outcome {
    if parse(body) then Ok(Parser([], [], true, Some(body))) else Err(BadHello)
  }

  lemma EncodedRecord(r: Record, rest: seq<byte>)
    requires Legal(r)
    ensures var bytes := Encode(r) + rest;
            && |bytes| >= 5 + |r.fragment| && bytes[0] == 22 && bytes[1] == 3
            && RecordLength(bytes) == |r.fragment|
            && bytes[5..5 + |r.fragment|] == r.fragment && bytes[5 + |r.fragment|..] == rest
  {
    var n := |r.fragment|;
    assert (n / 256) * 256 + n % 256 == n;
  }

  /** A proper prefix of the message says nothing yet. */
  lemma PrefixSaysNothing(parse: seq<byte> -> bool, message: seq<byte>, body: seq<byte>, handshake: seq<byte>)
    requires |body| <= 65536 && message == Handshake(1, body) && handshake <= message
    ensures |handshake| < |message| ==> Message(parse, handshake) == None
    ensures |handshake| == |message| ==> Message(parse, handshake) == Some(Parsed(parse, body))
  {
    HandshakeLength(1, body);
    if |handshake| >= 4 {
      assert forall i :: 0 <= i < 4 ==> handshake[i] == message[i];
      if |handshake| == |message| { assert handshake == message && handshake[4..4 + |body|] == body; }
    }
  }

  /** Any other first message is refused as soon as its header is there: by its type, or
      by its length. */
  lemma OthersAreRefused(parse: seq<byte> -> bool, kind: byte, body: seq<byte>, handshake: seq<byte>)
    requires |body| < 0x100_0000 && handshake <= Handshake(kind, body)
    ensures |handshake| >= 4 && kind != 1 ==> Message(parse, handshake) == Some(Err(NotClientHello))
    ensures |handshake| >= 4 && kind == 1 && |body| > 65536 ==> Message(parse, handshake) == Some(Err(HelloLimit))
  {
    HandshakeLength(kind, body);
    if |handshake| >= 4 { assert forall i :: 0 <= i < 4 ==> handshake[i] == Handshake(kind, body)[i]; }
  }

  /** So is a record of another type or version, one of no allowed length, and a call that
      would have too much buffered. */
  lemma RefusedRecords(parse: seq<byte> -> bool, p: Parser, kind: byte, major: byte, minor: byte, n: nat,
                       rest: seq<byte>, data: seq<byte>)
    requires !p.done && n < 65536
    requires p.record == [kind, major, minor, (n / 256) as byte, (n % 256) as byte] + rest
    ensures kind != 22 || major != 3 ==> Run(parse, p) == Err(UnexpectedRecord)
    ensures kind == 22 && major == 3 && (n == 0 || n > 18432) ==> Run(parse, p) == Err(BadRecordLength)
    ensures |p.record| + |data| > 102400 ==> FeedResult(parse, p, data) == Err(SizeLimit)
  {
    assert RecordLength(p.record) == n;
  }

  lemma {:induction false} RecordsGiveMessage(parse: seq<byte> -> bool, p: Parser, message: seq<byte>, body: seq<byte>,
                                              records: seq<Record>, tail: seq<byte>)
    requires |body| <= 65536 && message == Handshake(1, body) && (forall r :: r in records ==> Legal(r)) && !p.done
    requires p.handshake + Fragments(records) == message && |p.handshake| < |message|
    requires p.record == EncodeAll(records) + tail
    ensures Run(parse, p) == Parsed(parse, body)
    decreases |records|
  {
    assert p.handshake + Fragments([]) == p.handshake;
    var r, rest := records[0], EncodeAll(records[1..]) + tail;
    assert r in records;
    assert p.record == Encode(r) + rest;
    EncodedRecord(r, rest);
    var handshake := p.handshake + r.fragment;
    assert handshake + Fragments(records[1..]) == message;
    assert handshake == message[..|handshake|];
    PrefixSaysNothing(parse, message, body, handshake);
    if |handshake| < |message| {
      RecordsGiveMessage(parse, p.(handshake := handshake, record := rest), message, body, records[1..], tail);
    }
  }

  /** However a ClientHello is split into records, and however their bytes and what
      follows are cut into pieces of at most 64 KiB, the hello parser is handed the
      same body, once. */
  lemma HelloIsFramingIndependent(parse: seq<byte> -> bool, body: seq<byte>, records: seq<Record>,
                                  tail: seq<byte>, pieces: seq<seq<byte>>)
    requires |body| <= 65536 && Fragments(records) == Handshake(1, body)
    requires forall r :: r in records ==> Legal(r)
    requires Concat(pieces) == EncodeAll(records) + tail
    requires forall piece :: piece in pieces ==> |piece| <= MAX_PIECE
    ensures FeedAll(parse, FRESH, pieces) == Parsed(parse, body)
  {
    var message := Handshake(1, body);
    SegmentationIrrelevant(parse, FRESH, pieces);
    assert [] + Concat(pieces) == Concat(pieces);
    assert [] + Fragments(records) == message;
    RecordsGiveMessage(parse, FRESH.(record := Concat(pieces)), message, body, records, tail);
  }

  // ----- The parser as the source keeps it -----

  class TlsParser {
    var record: seq<byte>
    var handshake: seq<byte>
    var done: bool
    var hello: Option<seq<byte>>

    function View(): Parser
      reads this
    {
      Parser(record, handshake, done, hello)
    }

    constructor ()
      ensures View() == FRESH
    {
      record, handshake, done, hello := [], [], false, None;
    }

    method Feed(parse: seq<byte> -> bool, data: seq<byte>) returns (error: Option<Error>)
      modifies this
      ensures match FeedResult(parse, old(View()), data)
              case Ok(p) => View() == p && error == None
              case Err(why) => error == Some(why)
    {
      if done {
        return None;
      }
      if |record| + |data| > MAX_HELLO + 2 * MAX_RECORD {
        return Some(SizeLimit);
      }
      record := record + data;
      while |record| >= 5
        invariant !done && Run(parse, View()) == FeedResult(parse, old(View()), data)
        decreases |record|
      {
        if record[0] != 22 || record[1] != 3 {
          return Some(UnexpectedRecord);
        }
        var length := record[3] as int * 256 + record[4] as int;
        if length < 1 || length > MAX_RECORD {
          return Some(BadRecordLength);
        }
        if |record| < 5 + length {
          return None;
        }
        handshake, record := handshake + record[5..5 + length], record[5 + length..];
        var finished;
        finished, error := Finish(parse);
        if finished || error.Some? {
          return;
        }
      }
      return None;
    }

    /** Hands the body to the hello parser once the message is complete. */
    method Finish(parse: seq<byte> -> bool) returns (finished: bool, error: Option<Error>)
      requires !done
      modifies this
      ensures match Message(parse, old(handshake))
              case None => !finished && error == None && View() == old(View())
              case Some(Ok(p)) => finished && error == None && View() == p
              case Some(Err(why)) => error == Some(why)
    {
      if |handshake| < 4 {
        return false, None;
      }
      if handshake[0] != 1 {
        return false, Some(NotClientHello);
      }
      var messageLen := MessageLength(handshake);
      if messageLen > MAX_HELLO {
        return false, Some(HelloLimit);
      }
      if |handshake| < 4 + messageLen {
        return false, None;
      }
      if !parse(handshake[4..4 + messageLen]) {
        return false, Some(BadHello);
      }
      hello, done := Some(handshake[4..4 + messageLen]), true;
      record, handshake := [], [];
      return true, None;
    }
  }
}
