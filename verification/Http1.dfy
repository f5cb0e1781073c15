/** The resumable HTTP/1.1 parser. */
module Http1 {
  import opened Prelude
  import opened Evidence

  const MAX_HEADER := 16384
  const MAX_CHUNK_LINE := 256

  const CR: byte := 13
  const LF: byte := 10
  const SEMICOLON: byte := 59
  const CRLF: seq<byte> := [CR, LF]
  const CRLFCRLF: seq<byte> := [CR, LF, CR, LF]

  /** "PRI * HTTP/2.0\r\n\r\nSM\r\n\r\n" */
  const PREFACE: seq<byte> :=
    [80, 82, 73, 32, 42, 32, 72, 84, 84, 80, 47, 50, 46, 48, 13, 10, 13, 10, 83, 77, 13, 10, 13, 10]

  datatype Upgrade = NoUpgrade | UpgradeH2c | UpgradeOther

  /** What a complete request header says. `connect` is the proxied destination. */
  datatype Request = BadHeader | Request(connect: Option<string>, host: string, upgrade: Upgrade, chunked: bool,
                                         bodyLength: nat)

  /** The pure readers of complete lines: a header block and a chunk size text. */
  datatype Grammar = Grammar(header: seq<byte> -> Request, chunkSize: seq<byte> -> Option<nat>)

  datatype State = Headers | FixedBody | ChunkSize | ChunkData | ChunkEnd | ChunkTrailer | Tunnel | H2C | Stopped

  datatype Parser = Parser(buffer: seq<byte>, remaining: nat, state: State, h2c: bool)

  datatype Error =
    | HeaderLimit | InvalidHeader | HostLimit | ChunkLineLimit | InvalidChunkSize | InvalidChunkEnd | TrailerLimit

  datatype Outcome =
    | More(p: Parser, e: Evidence)               // go round the loop
    | Ok(p: Parser, e: Evidence)                 // return without an error
    | Err(error: Error, p: Parser, e: Evidence)

  /** Bytes that leave HTTP are the next parser's, not this one's. */
  predicate Leaves(p: Parser) { p.state == Tunnel || p.state == H2C }

  /** What a valid request header leads to; `p` holds the bytes after it. */
  function Accept(request: Request, p: Parser, e: Evidence): Outcome
    requires request.Request?
  {
    if request.connect.Some? then Ok(p.(state := Tunnel), e.(proxy := request.connect))
    else
      match CountHost(e, request.host)
      case None => Err(HostLimit, p, e)
      case Some(e') =>
        if request.upgrade == UpgradeOther then Ok(p.(state := Stopped, buffer := []), e')
        else
          var r := if request.upgrade == UpgradeH2c then p.(h2c := true) else p;
          if request.chunked then More(r.(state := ChunkSize), e')
          else if request.bodyLength > 0 then More(r.(state := FixedBody, remaining := request.bodyLength), e')
          else More(r, e')
  }

  function HeaderStep(g: Grammar, p: Parser, e: Evidence): Outcome {
    var end := Index(p.buffer, CRLFCRLF);
    if end < 0 then
      if |p.buffer| > MAX_HEADER then Err(HeaderLimit, p, e) else Ok(p, e)
    else if end + 4 > MAX_HEADER then Err(HeaderLimit, p, e)
    else
      var request := g.header(p.buffer[..end]);
      if request.BadHeader? then Err(InvalidHeader, p, e)
      else Accept(request, p.(buffer := p.buffer[end + 4..]), e)
  }

  function HeadersStep(g: Grammar, p: Parser, e: Evidence): Outcome {
    if p.h2c && PREFACE <= p.buffer then Ok(p.(state := H2C), e)
    else if p.h2c && p.buffer <= PREFACE then Ok(p, e)
    else HeaderStep(g, p.(h2c := false), e)
  }

  function BodyStep(p: Parser, e: Evidence): Outcome {
    var consume := if |p.buffer| < p.remaining then |p.buffer| else p.remaining;
    var q := p.(buffer := p.buffer[consume..], remaining := p.remaining - consume);
    if q.remaining > 0 then Ok(q, e)
    else More(q.(state := if p.state == FixedBody then Headers else ChunkEnd), e)
  }

  /** The text before any chunk extension. */
  function SizeText(line: seq<byte>): seq<byte> {
    var cut := Index(line, [SEMICOLON]);
    if cut < 0 then line else line[..cut]
  }

  function ChunkSizeStep(g: Grammar, p: Parser, e: Evidence): Outcome {
    var end := Index(p.buffer, CRLF);
    if end < 0 then
      if |p.buffer| > MAX_CHUNK_LINE then Err(ChunkLineLimit, p, e) else Ok(p, e)
    else if end > MAX_CHUNK_LINE then Err(ChunkLineLimit, p, e)
    else
      match g.chunkSize(SizeText(p.buffer[..end]))
      case None => Err(InvalidChunkSize, p, e)
      case Some(size) =>
        var q := p.(buffer := p.buffer[end + 2..]);
        if size == 0 then More(q.(state := ChunkTrailer), e)
        else More(q.(state := ChunkData, remaining := size), e)
  }

  function ChunkEndStep(p: Parser, e: Evidence): Outcome {
    if |p.buffer| < 2 then Ok(p, e)
    else if p.buffer[..2] != CRLF then Err(InvalidChunkEnd, p, e)
    else More(p.(buffer := p.buffer[2..], state := ChunkSize), e)
  }

  function TrailerStep(p: Parser, e: Evidence): Outcome {
    if CRLF <= p.buffer then More(p.(buffer := p.buffer[2..], state := Headers), e)
    else
      var end := Index(p.buffer, CRLFCRLF);
      if end < 0 then
        if |p.buffer| > MAX_HEADER then Err(TrailerLimit, p, e) else Ok(p, e)
      else More(p.(buffer := p.buffer[end + 4..], state := Headers), e)
  }

  /** One turn of the parser's loop. */
  function Step(g: Grammar, p: Parser, e: Evidence): (r: Outcome)
    requires !Leaves(p)
    ensures r.More? ==> !Leaves(r.p) && r.p.state != Stopped && (Rank(r.p.state) == 1 ==> r.p.remaining > 0)
    ensures r.More? ==> |r.p.buffer| < |p.buffer| || (|r.p.buffer| == |p.buffer| && Rank(r.p.state) < Rank(p.state))
  {
    match p.state
    case Headers => HeadersStep(g, p, e)
    case FixedBody => BodyStep(p, e)
    case ChunkData => BodyStep(p, e)
    case ChunkSize => ChunkSizeStep(g, p, e)
    case ChunkEnd => ChunkEndStep(p, e)
    case ChunkTrailer => TrailerStep(p, e)
    case Stopped => Ok(p.(buffer := []), e)
  }

  /** A body whose last byte arrived earlier ends without consuming another. */
  function Rank(state: State): nat { if state == FixedBody || state == ChunkData then 1 else 0 }

  /** The parser's loop from a given buffer on. */
  function Run(g: Grammar, p: Parser, e: Evidence): (r: Outcome)
    requires !Leaves(p)
    ensures !r.More?
    decreases |p.buffer|, Rank(p.state)
  {
    match Step(g, p, e)
    case More(q, e') => if q.buffer == [] then Ok(q, e') else Run(g, q, e')
    case done => done
  }

  /** One call of feed. */
  function FeedResult(g: Grammar, p: Parser, e: Evidence, data: seq<byte>): (r: Outcome)
    requires !Leaves(p)
    ensures !r.More?
  {
    if p.state == Stopped then Ok(p, e) else Run(g, p.(buffer := p.buffer + data), e)
  }

  /** Passing over `n` bytes of a body that the capture lacks, if that many are known to
      belong to it. */
  function SkipResult(p: Parser, n: nat): Option<Parser> {
    if p.buffer != [] || (p.state != FixedBody && p.state != ChunkData) || n > p.remaining then None
    else
      var q := p.(remaining := p.remaining - n);
      if q.remaining > 0 then Some(q)
      else Some(q.(state := if p.state == FixedBody then Headers else ChunkEnd))
  }

  // ----- More bytes do not change what a turn does with the ones it has -----

  function Extend(p: Parser, b: seq<byte>): Parser { p.(buffer := p.buffer + b) }

  /** The same outcome, with more bytes after it. */
  function Later(r: Outcome, b: seq<byte>): Outcome {
    match r
    case More(q, e) => More(Extend(q, b), e)
    case Ok(q, e) => Ok(if q.state == Stopped then q else Extend(q, b), e)
    case Err(error, q, e) => Err(error, Extend(q, b), e)
  }

  lemma AcceptExtend(request: Request, p: Parser, e: Evidence, b: seq<byte>)
    requires request.Request?
    ensures Accept(request, Extend(p, b), e) == Later(Accept(request, p, e), b)
  {
  }

  lemma HeaderExtend(g: Grammar, p: Parser, e: Evidence, b: seq<byte>)
    requires Index(p.buffer, CRLFCRLF) >= 0
    ensures HeaderStep(g, Extend(p, b), e) == Later(HeaderStep(g, p, e), b)
  {
    IndexExtend(p.buffer, b, CRLFCRLF);
    var end := Index(p.buffer, CRLFCRLF);
    assert (p.buffer + b)[..end] == p.buffer[..end];
    assert (p.buffer + b)[end + 4..] == p.buffer[end + 4..] + b;
    var request, rest := g.header(p.buffer[..end]), p.(buffer := p.buffer[end + 4..]);
    assert Extend(p, b).(buffer := (p.buffer + b)[end + 4..]) == Extend(rest, b);
    if request.Request? { AcceptExtend(request, rest, e, b); }
  }

  lemma HeadersExtend(g: Grammar, p: Parser, e: Evidence, b: seq<byte>)
    requires HeadersStep(g, p, e).More?
    ensures var r := HeadersStep(g, p, e); HeadersStep(g, Extend(p, b), e) == More(Extend(r.p, b), r.e)
  {
    PrefaceExtend(p.buffer, b);
    assert Extend(p.(h2c := false), b) == Extend(p, b).(h2c := false);
    HeaderExtend(g, p.(h2c := false), e, b);
  }

  lemma ChunkSizeExtend(g: Grammar, p: Parser, e: Evidence, b: seq<byte>)
    requires ChunkSizeStep(g, p, e).More?
    ensures var r := ChunkSizeStep(g, p, e); ChunkSizeStep(g, Extend(p, b), e) == More(Extend(r.p, b), r.e)
  {
    IndexExtend(p.buffer, b, CRLF);
    var end := Index(p.buffer, CRLF);
    assert (p.buffer + b)[..end] == p.buffer[..end];
    assert (p.buffer + b)[end + 2..] == p.buffer[end + 2..] + b;
  }

  lemma TrailerExtend(p: Parser, e: Evidence, b: seq<byte>)
    requires TrailerStep(p, e).More?
    ensures var r := TrailerStep(p, e); TrailerStep(Extend(p, b), e) == More(Extend(r.p, b), r.e)
  {
    IndexExtend(p.buffer, b, CRLFCRLF);
    var end := Index(p.buffer, CRLFCRLF);
    if CRLF <= p.buffer {
      assert (p.buffer + b)[2..] == p.buffer[2..] + b;
    } else {
      OccursStart(p.buffer, b);
      assert (p.buffer + b)[end + 4..] == p.buffer[end + 4..] + b;
    }
  }

  lemma ChunkEndExtend(p: Parser, e: Evidence, b: seq<byte>)
    requires ChunkEndStep(p, e).More?
    ensures var r := ChunkEndStep(p, e); ChunkEndStep(Extend(p, b), e) == More(Extend(r.p, b), r.e)
  {
    assert (p.buffer + b)[..2] == p.buffer[..2];
    assert (p.buffer + b)[2..] == p.buffer[2..] + b;
  }

  /** A turn that goes round consumes the same bytes when more follow. */
  lemma MoreExtend(g: Grammar, p: Parser, e: Evidence, b: seq<byte>)
    requires !Leaves(p) && Step(g, p, e).More?
    ensures var r := Step(g, p, e); Step(g, Extend(p, b), e) == More(Extend(r.p, b), r.e)
  {
    match p.state
    case Headers => HeadersExtend(g, p, e, b);
    case FixedBody => BodyExtend(p, e, b);
    case ChunkData => BodyExtend(p, e, b);
    case ChunkSize => ChunkSizeExtend(g, p, e, b);
    case ChunkEnd => ChunkEndExtend(p, e, b);
    case ChunkTrailer => TrailerExtend(p, e, b);
  }

  lemma BodyExtend(p: Parser, e: Evidence, b: seq<byte>)
    requires BodyStep(p, e).More?
    ensures BodyStep(Extend(p, b), e) == More(Extend(BodyStep(p, e).p, b), e)
  {
    assert (p.buffer + b)[p.remaining..] == p.buffer[p.remaining..] + b;
  }

  /** A buffer that is neither before nor past the preface stays so. */
  lemma PrefaceExtend(buffer: seq<byte>, b: seq<byte>)
    ensures PREFACE <= buffer ==> PREFACE <= buffer + b
    ensures !(PREFACE <= buffer) && !(buffer <= PREFACE) ==> !(PREFACE <= buffer + b) && !(buffer + b <= PREFACE)
  {
    if !(PREFACE <= buffer) && PREFACE <= buffer + b && |buffer| <= |PREFACE| {
      assert buffer == (buffer + b)[..|buffer|] == PREFACE[..|buffer|];
    }
    if PREFACE <= buffer + b && |buffer| > |PREFACE| {
      assert buffer[..|PREFACE|] == (buffer + b)[..|PREFACE|];
    }
    if buffer + b <= PREFACE { assert buffer == (buffer + b)[..|buffer|] == PREFACE[..|buffer|]; }
  }

  /** Two bytes decide whether a buffer starts with a line end. */
  lemma OccursStart(buffer: seq<byte>, b: seq<byte>)
    requires |buffer| >= 2
    ensures CRLF <= buffer + b <==> CRLF <= buffer
  {
    assert (buffer + b)[..2] == buffer[..2];
  }

  /** A turn that leaves HTTP or stops does the same when more bytes follow. */
  lemma DoneExtend(g: Grammar, p: Parser, e: Evidence, b: seq<byte>)
    requires !Leaves(p) && Step(g, p, e).Ok?
    requires Leaves(Step(g, p, e).p) || Step(g, p, e).p.state == Stopped
    ensures var r := Step(g, p, e);
            Step(g, Extend(p, b), e) == Ok(if r.p.state == Stopped then r.p else Extend(r.p, b), r.e)
  {
    if p.state == Headers {
      PrefaceExtend(p.buffer, b);
      if !(p.h2c && PREFACE <= p.buffer) {
        HeaderExtend(g, p.(h2c := false), e, b);
        assert Extend(p.(h2c := false), b) == Extend(p, b).(h2c := false);
      }
    }
  }

  lemma HeadersWait(g: Grammar, p: Parser, e: Evidence, b: seq<byte>)
    requires HeadersStep(g, p, e).Ok? && HeadersStep(g, p, e).p.state == p.state == Headers
    ensures var r := HeadersStep(g, p, e);
            r.e == e && HeadersStep(g, Extend(p, b), e) == HeadersStep(g, Extend(r.p, b), e)
  {
    PrefaceExtend(p.buffer, b);
    assert Extend(p.(h2c := false), b) == Extend(p, b).(h2c := false);
    assert HeadersStep(g, p, e).p in {p, p.(h2c := false)};
  }

  lemma LineWaits(g: Grammar, p: Parser, e: Evidence)
    requires p.state in {ChunkSize, ChunkEnd, ChunkTrailer} && Step(g, p, e).Ok?
    ensures Step(g, p, e) == Ok(p, e)
  {
  }

  /** A turn that waits picks up later exactly where more bytes would have put it. */
  lemma WaitExtend(g: Grammar, p: Parser, e: Evidence, b: seq<byte>)
    requires !Leaves(p) && Step(g, p, e).Ok?
    requires !Leaves(Step(g, p, e).p) && Step(g, p, e).p.state != Stopped
    ensures var r := Step(g, p, e); r.e == e && Step(g, Extend(p, b), e) == Step(g, Extend(r.p, b), e)
  {
    match p.state
    case Headers => HeadersWait(g, p, e, b);
    case FixedBody => BodyResumes(p, e, b);
    case ChunkData => BodyResumes(p, e, b);
    case _ => LineWaits(g, p, e);
  }

  lemma BodyResumes(p: Parser, e: Evidence, b: seq<byte>)
    requires BodyStep(p, e).Ok?
    ensures BodyStep(Extend(p, b), e) == BodyStep(Extend(BodyStep(p, e).p, b), e)
  {
    var q := BodyStep(p, e).p;
    assert q.buffer == [] && Extend(q, b).buffer == b;
    var n := if |b| < q.remaining then |b| else q.remaining;
    assert (p.buffer + b)[|p.buffer| + n..] == b[n..];
  }

  /** A parser between turns with nothing buffered stays where it is. */
  lemma EmptyRests(g: Grammar, p: Parser, e: Evidence)
    requires !Leaves(p) && p.state != Stopped && p.buffer == [] && (Rank(p.state) == 1 ==> p.remaining > 0)
    ensures Run(g, p, e) == Ok(p, e)
  {
  }

  lemma RunTurn(g: Grammar, p: Parser, e: Evidence)
    requires !Leaves(p)
    ensures match Step(g, p, e)
            case More(q, e') => Run(g, p, e) == if q.buffer == [] then Ok(q, e') else Run(g, q, e')
            case done => Run(g, p, e) == done
  {
  }

  /** What remains of a run, given more bytes, once the first ones are used up. */
  function Resume(g: Grammar, r: Outcome, b: seq<byte>): Outcome
    requires !r.More?
  {
    if r.Err? || r.p.state == Stopped then r
    else if Leaves(r.p) then Ok(Extend(r.p, b), r.e)
    else Run(g, Extend(r.p, b), r.e)
  }

  /** The loop over a + b is the loop over a, resumed with b. */
  lemma {:induction false} RunSplits(g: Grammar, p: Parser, e: Evidence, b: seq<byte>)
    requires !Leaves(p) && Run(g, p, e).Ok?
    ensures Run(g, Extend(p, b), e) == Resume(g, Run(g, p, e), b)
    decreases |p.buffer|, Rank(p.state)
  {
    var r := Step(g, p, e);
    if r.More? {
      MoreExtend(g, p, e, b);
      if r.p.buffer != [] {
        RunSplits(g, r.p, r.e, b);
        RunMore(g, Extend(p, b), e);
      } else {
        EmptyRests(g, r.p, r.e);
        RunMore(g, Extend(p, b), e);
      }
      RunMore(g, p, e);
    } else if Leaves(r.p) || r.p.state == Stopped {
      DoneExtend(g, p, e, b);
    } else {
      WaitExtend(g, p, e, b);
    }
  }

  /** A turn that goes round with an empty buffer might as well go on. */
  lemma RunMore(g: Grammar, p: Parser, e: Evidence)
    requires !Leaves(p) && Step(g, p, e).More?
    ensures var r := Step(g, p, e); Run(g, p, e) == Run(g, r.p, r.e)
  {
    var r := Step(g, p, e);
    if r.p.buffer == [] { EmptyRests(g, r.p, r.e); }
  }

  // ----- Segmentation -----

  /** What a later piece adds to a result: bytes for the next protocol once the
      parser left HTTP, and a further call of feed while it has not. */
  function Then(g: Grammar, r: Outcome, b: seq<byte>): Outcome
    requires !r.More?
  {
    if r.Err? then r
    else if Leaves(r.p) then Ok(Extend(r.p, b), r.e)
    else FeedResult(g, r.p, r.e, b)
  }

  /** Feeding a and then b, when the first call does not err, gives in state,
      evidence, unread bytes and error what one call on a + b gives. */
  lemma FeedSplits(g: Grammar, p: Parser, e: Evidence, a: seq<byte>, b: seq<byte>)
    requires !Leaves(p) && FeedResult(g, p, e, a).Ok?
    ensures FeedResult(g, p, e, a + b) == Then(g, FeedResult(g, p, e, a), b)
  {
    if p.state != Stopped {
      assert Extend(Extend(p, a), b) == Extend(p, a + b) by { assert (p.buffer + a) + b == p.buffer + (a + b); }
      RunSplits(g, Extend(p, a), e, b);
    }
  }

  /** The turn at which a failing run fails is reached whatever bytes follow. */
  lemma {:induction false} FailingTurn(g: Grammar, p: Parser, e: Evidence) returns (f: Parser, e': Evidence)
    requires !Leaves(p) && Run(g, p, e).Err?
    ensures !Leaves(f) && Step(g, f, e') == Run(g, p, e)
    ensures forall b: seq<byte> :: Run(g, Extend(p, b), e) == Run(g, Extend(f, b), e')
    decreases |p.buffer|, Rank(p.state)
  {
    var r := Step(g, p, e);
    if r.More? {
      f, e' := FailingTurn(g, r.p, r.e);
      forall b: seq<byte> ensures Run(g, Extend(p, b), e) == Run(g, Extend(f, b), e') {
        MoreExtend(g, p, e, b);
        RunMore(g, Extend(p, b), e);
      }
    } else {
      f, e' := p, e;
    }
  }

  /** The guards of the branches that fail only because the input stopped there: a
      chunk size line of the greatest length cut inside its line end, and an
      unfinished trailer longer than a header may be. Both would pass in one piece. */
  predicate CutAtLimit(g: Grammar, p: Parser) {
    match p.state
    case ChunkSize =>
      && |p.buffer| == MAX_CHUNK_LINE + 1 && p.buffer[MAX_CHUNK_LINE] == CR && Index(p.buffer, CRLF) < 0
      && g.chunkSize(SizeText(p.buffer[..MAX_CHUNK_LINE])).Some?
    case ChunkTrailer =>
      |p.buffer| > MAX_HEADER && !(CRLF <= p.buffer) && Index(p.buffer, CRLFCRLF) < 0
    case _ => false
  }

  predicate StallsAtLimit(g: Grammar, r: Outcome) { r.Err? && CutAtLimit(g, r.p) }

  /** Where a run stops at one of these guards, its outcome is that limit's error. */
  lemma CutsFail(g: Grammar, p: Parser, e: Evidence)
    requires CutAtLimit(g, p)
    ensures !Leaves(p) && Step(g, p, e) == Err(if p.state == ChunkSize then ChunkLineLimit else TrailerLimit, p, e)
  {
  }

  /** Both happen: a trailer of 16385 bytes with no line end in them, and a chunk size
      line of 256 bytes whose line end was cut. */
  lemma StallsHappen(g: Grammar, e: Evidence, line: seq<byte>)
    requires |line| == MAX_CHUNK_LINE && CR !in line && g.chunkSize(SizeText(line)).Some?
    ensures var trailer := seq(MAX_HEADER + 1, i => 65);
            StallsAtLimit(g, FeedResult(g, Parser([], 0, ChunkTrailer, false), e, trailer))
    ensures StallsAtLimit(g, FeedResult(g, Parser([], 0, ChunkSize, false), e, line + [CR]))
    ensures FeedResult(g, Parser([], 0, ChunkSize, false), e, line + [CR]).error == ChunkLineLimit
  {
    var trailer: seq<byte> := seq(MAX_HEADER + 1, i => 65);
    var p, q := Parser(trailer, 0, ChunkTrailer, false), Parser(line + [CR], 0, ChunkSize, false);
    assert [] + trailer == trailer && [] + (line + [CR]) == line + [CR];
    forall i: nat ensures !OccursAt(trailer, CRLFCRLF, i) {
      if i + 4 <= |trailer| { assert trailer[i..i + 4][0] == trailer[i]; }
    }
    forall i: nat ensures !OccursAt(line + [CR], CRLF, i) {
      if i + 2 <= |line + [CR]| { assert (line + [CR])[i..i + 2][0] == line[i]; }
    }
    assert (line + [CR])[..MAX_CHUNK_LINE] == line && trailer[0] == 65;
    CutsFail(g, p, e);
    CutsFail(g, q, e);
  }

  /** A turn that fails for any other reason fails whatever bytes follow. */
  lemma FailExtend(g: Grammar, f: Parser, e: Evidence, b: seq<byte>)
    requires !Leaves(f) && Step(g, f, e).Err? && !StallsAtLimit(g, Step(g, f, e))
    ensures Step(g, Extend(f, b), e).Err?
  {
    match f.state
    case Headers =>
      PrefaceExtend(f.buffer, b);
      assert Extend(f.(h2c := false), b) == Extend(f, b).(h2c := false);
      IndexExtend(f.buffer, b, CRLFCRLF);
      if Index(f.buffer, CRLFCRLF) >= 0 { HeaderExtend(g, f.(h2c := false), e, b); }
    case ChunkSize => ChunkLineExtend(g, f, e, b);
    case ChunkEnd => assert (f.buffer + b)[..2] == f.buffer[..2];
    case _ =>
  }

  lemma ChunkLineExtend(g: Grammar, f: Parser, e: Evidence, b: seq<byte>)
    requires f.state == ChunkSize && Step(g, f, e).Err? && !StallsAtLimit(g, Step(g, f, e))
    ensures Step(g, Extend(f, b), e).Err?
  {
    IndexExtend(f.buffer, b, CRLF);
    var end := Index(f.buffer + b, CRLF);
    if Index(f.buffer, CRLF) >= 0 {
      assert (f.buffer + b)[..end] == f.buffer[..end];
    } else if end == MAX_CHUNK_LINE {
      assert OccursAt(f.buffer + b, CRLF, end);
      assert (f.buffer + b)[end] == (f.buffer + b)[end..end + 2][0] == CR;
      assert (f.buffer + b)[..end] == f.buffer[..end];
    }
  }

  lemma LineEnds(line: seq<byte>)
    requires |line| == MAX_CHUNK_LINE + 1 && line[MAX_CHUNK_LINE] == CR && Index(line, CRLF) < 0
    ensures Index(line + [LF], CRLF) == MAX_CHUNK_LINE
    ensures (line + [LF])[..MAX_CHUNK_LINE] == line[..MAX_CHUNK_LINE] && (line + [LF])[MAX_CHUNK_LINE + 2..] == []
  {
    var whole := line + [LF];
    assert whole[MAX_CHUNK_LINE..MAX_CHUNK_LINE + 2] == CRLF;
    assert OccursAt(whole, CRLF, MAX_CHUNK_LINE);
    IndexExtend(line, [LF], CRLF);
  }

  lemma LinePasses(g: Grammar, f: Parser, e: Evidence)
    requires f.state == ChunkSize && CutAtLimit(g, f)
    ensures Run(g, Extend(f, [LF]), e).Ok?
  {
    LineEnds(f.buffer);
    RunTurn(g, Extend(f, [LF]), e);
  }

  /** A stalled call would have succeeded with the bytes that it was cut before. */
  lemma StallPasses(g: Grammar, f: Parser, e: Evidence) returns (b: seq<byte>)
    requires !Leaves(f) && StallsAtLimit(g, Step(g, f, e))
    ensures Run(g, Extend(f, b), e).Ok?
  {
    if f.state == ChunkSize {
      b := [LF];
      LinePasses(g, f, e);
    } else {
      b := CRLFCRLF;
      TrailerPasses(g, f, e);
    }
  }

  lemma NoPreface(s: seq<byte>)
    requires s != [] && s[0] in {CR, LF}
    ensures !(s <= PREFACE) && !(PREFACE <= s)
  {
    assert PREFACE[0] == 80;
  }

  lemma TooShort(s: seq<byte>)
    requires |s| < 4
    ensures Index(s, CRLFCRLF) < 0
  {
  }

  /** The first blank line of an extended trailer that had none ends in the extension. */
  lemma BlankLine(s: seq<byte>)
    requires Index(s, CRLFCRLF) < 0
    ensures var end := Index(s + CRLFCRLF, CRLFCRLF);
            && |s| < end + 4 <= |s| + 4
            && (s + CRLFCRLF)[end + 4..] == CRLFCRLF[end + 4 - |s|..]
  {
    IndexExtend(s, CRLFCRLF, CRLFCRLF);
    assert (s + CRLFCRLF)[|s|..] == CRLFCRLF;
    assert OccursAt(s + CRLFCRLF, CRLFCRLF, |s|);
  }

  /** What is left after a trailer is then too little to be anything but waited for. */
  lemma LeftoverWaits(g: Grammar, q: Parser, e: Evidence, k: nat)
    requires q.state == Headers && 0 < k <= 4 && q.buffer == CRLFCRLF[k..]
    ensures Step(g, q, e).Ok?
  {
    TooShort(q.buffer);
    if q.buffer != [] { NoPreface(q.buffer); }
  }

  lemma TrailerPasses(g: Grammar, f: Parser, e: Evidence)
    requires f.state == ChunkTrailer && CutAtLimit(g, f)
    ensures Run(g, Extend(f, CRLFCRLF), e).Ok?
  {
    var whole := f.buffer + CRLFCRLF;
    BlankLine(f.buffer);
    var end := Index(whole, CRLFCRLF);
    assert whole[..2] == f.buffer[..2];
    var q := f.(buffer := whole[end + 4..], state := Headers);
    RunTurn(g, Extend(f, CRLFCRLF), e);
    LeftoverWaits(g, q, e, end + 4 - |f.buffer|);
    RunTurn(g, q, e);
  }

  lemma ExtendTwice(p: Parser, a: seq<byte>, b: seq<byte>)
    ensures Extend(Extend(p, a), b) == Extend(p, a + b)
  {
    assert (p.buffer + a) + b == p.buffer + (a + b);
  }

  /** A call that fails without stalling fails on every longer input. */
  lemma FailureIsFinal(g: Grammar, p: Parser, e: Evidence, a: seq<byte>, b: seq<byte>)
    requires !Leaves(p) && FeedResult(g, p, e, a).Err? && !StallsAtLimit(g, FeedResult(g, p, e, a))
    ensures FeedResult(g, p, e, a + b).Err?
  {
    var f, e' := FailingTurn(g, Extend(p, a), e);
    ExtendTwice(p, a, b);
    FailExtend(g, f, e', b);
    assert Run(g, Extend(Extend(p, a), b), e) == Run(g, Extend(f, b), e');
  }

  /** A call that stalls would have succeeded with some continuation. */
  lemma StallIsEarly(g: Grammar, p: Parser, e: Evidence, a: seq<byte>) returns (b: seq<byte>)
    requires !Leaves(p) && StallsAtLimit(g, FeedResult(g, p, e, a))
    ensures FeedResult(g, p, e, a + b).Ok?
  {
    var f, e' := FailingTurn(g, Extend(p, a), e);
    b := StallPasses(g, f, e');
    ExtendTwice(p, a, b);
    assert Run(g, Extend(Extend(p, a), b), e) == Run(g, Extend(f, b), e');
  }

  /** Splitting the input after `a` loses nothing that one piece would accept, for
      every continuation, if and only if the first call does not stall at a limit. */
  lemma SplitLosesOnlyAtLimits(g: Grammar, p: Parser, e: Evidence, a: seq<byte>)
    requires !Leaves(p)
    ensures (forall b: seq<byte> :: FeedResult(g, p, e, a + b).Ok? ==> FeedResult(g, p, e, a).Ok?) <==>
            !StallsAtLimit(g, FeedResult(g, p, e, a))
  {
    if StallsAtLimit(g, FeedResult(g, p, e, a)) {
      var b := StallIsEarly(g, p, e, a);
    } else if FeedResult(g, p, e, a).Err? {
      forall b: seq<byte> ensures FeedResult(g, p, e, a + b).Err? {
        FailureIsFinal(g, p, e, a, b);
      }
    }
  }

  // ----- What requests amount to -----

  /** `size` and `extension` make up the line before `data` (section 7.1 of RFC 9112). */
  datatype Chunk = Chunk(size: seq<byte>, extension: seq<byte>, data: seq<byte>)

  /** `last` is the line of the last chunk, and `trailer` the lines after it, if any. */
  datatype Body = Plain(bytes: seq<byte>) | Chunked(chunks: seq<Chunk>, last: Chunk, trailer: seq<byte>)

  /** One request: its header block without the blank line, and its body. `retries` says
      that it asks for h2c and is answered in HTTP/1.1. */
  datatype Message = Message(head: seq<byte>, host: string, retries: bool, body: Body)

  function Line(c: Chunk): seq<byte> { c.size + c.extension }

  function EncodeChunk(c: Chunk): seq<byte> { Line(c) + ([13, 10] + (c.data + [13, 10])) }

  function EncodeChunks(chunks: seq<Chunk>): seq<byte>
    decreases |chunks|
  {
    if chunks == [] then [] else EncodeChunk(chunks[0]) + EncodeChunks(chunks[1..])
  }

  function EncodeTrailer(trailer: seq<byte>): seq<byte> {
    if trailer == [] then [13, 10] else trailer + [13, 10, 13, 10]
  }

  function EncodeBody(body: Body): seq<byte> {
    match body
    case Plain(bytes) => bytes
    case Chunked(chunks, last, trailer) =>
      EncodeChunks(chunks) + (Line(last) + ([13, 10] + EncodeTrailer(trailer)))
  }

  function Encode(m: Message): seq<byte> { m.head + ([13, 10, 13, 10] + EncodeBody(m.body)) }

  function EncodeAll(ms: seq<Message>): seq<byte>
    decreases |ms|
  {
    if ms == [] then [] else Encode(ms[0]) + EncodeAll(ms[1..])
  }

  /** `text` has no end mark before the one that follows it. */
  ghost predicate EndsAt(text: seq<byte>, mark: seq<byte>) {
    forall i: nat :: i < |text| ==> !OccursAt(text + mark, mark, i)
  }

  /** The line is short enough, and its text before an extension means `n`. */
  ghost predicate LegalLine(g: Grammar, c: Chunk, n: nat) {
    && |Line(c)| <= 256 && EndsAt(Line(c), [13, 10])
    && 59 !in c.size && (c.extension != [] ==> c.extension[0] == 59)
    && g.chunkSize(c.size) == Some(n)
  }

  ghost predicate LegalBody(g: Grammar, body: Body) {
    match body
    case Plain(_) => true
    case Chunked(chunks, last, trailer) =>
      && (forall c :: c in chunks ==> c.data != [] && LegalLine(g, c, |c.data|)) && LegalLine(g, last, 0)
      && (trailer != [] ==> EndsAt(trailer, [13, 10, 13, 10]) && !([13, 10] <= trailer + [13, 10, 13, 10]))
  }

  /** The header's reader finds in the block what the message was made of. */
  ghost predicate LegalHead(g: Grammar, m: Message) {
    && EndsAt(m.head, [13, 10, 13, 10]) && |m.head| + 4 <= 16384
    && var r := g.header(m.head);
    && r.Request? && r.connect == None && r.host == m.host
    && r.upgrade == (if m.retries then UpgradeH2c else NoUpgrade)
    && r.chunked == m.body.Chunked? && (m.body.Plain? ==> r.bodyLength == |m.body.bytes|)
  }

  /** A request that nobody takes for the start of HTTP/2. */
  ghost predicate Legal(g: Grammar, m: Message) {
    LegalHead(g, m) && LegalBody(g, m.body) && !(PREFACE <= Encode(m)) && !(Encode(m) <= PREFACE)
  }

  lemma MarkFound(text: seq<byte>, mark: seq<byte>, rest: seq<byte>)
    requires mark != [] && EndsAt(text, mark)
    ensures Index(text + (mark + rest), mark) == |text|
    ensures (text + (mark + rest))[..|text|] == text && (text + (mark + rest))[|text| + |mark|..] == rest
  {
    var whole := text + (mark + rest);
    assert whole == (text + mark) + rest;
    assert whole[|text|..|text| + |mark|] == mark;
    assert OccursAt(whole, mark, |text|);
    forall i: nat | i < |text| ensures !OccursAt(whole, mark, i) {
      assert !OccursAt(text + mark, mark, i);
      assert whole[i..i + |mark|] == (text + mark)[i..i + |mark|];
    }
  }

  lemma SizeFound(c: Chunk)
    requires SEMICOLON !in c.size && (c.extension != [] ==> c.extension[0] == SEMICOLON)
    ensures SizeText(Line(c)) == c.size
  {
    var line := Line(c);
    forall i: nat | i < |c.size| ensures !OccursAt(line, [SEMICOLON], i) {
      assert line[i..i + 1] == [c.size[i]];
    }
    if c.extension != [] {
      assert line[|c.size|..|c.size| + 1] == [SEMICOLON];
      assert OccursAt(line, [SEMICOLON], |c.size|);
    }
    assert line[..|c.size|] == c.size;
  }

  /** A chunk size line leads to its data, or to the trailer. */
  lemma LineRuns(g: Grammar, p: Parser, e: Evidence, c: Chunk, n: nat, rest: seq<byte>)
    requires LegalLine(g, c, n) && p.state == ChunkSize && p.buffer == Line(c) + (CRLF + rest)
    ensures Run(g, p, e) ==
            Run(g, if n == 0 then p.(buffer := rest, state := ChunkTrailer)
                   else p.(buffer := rest, state := ChunkData, remaining := n), e)
  {
    MarkFound(Line(c), CRLF, rest);
    SizeFound(c);
    RunMore(g, p, e);
  }

  lemma DataRuns(g: Grammar, p: Parser, e: Evidence, data: seq<byte>, rest: seq<byte>)
    requires Rank(p.state) == 1 && p.remaining == |data| > 0 && p.buffer == data + rest
    ensures Run(g, p, e) ==
            Run(g, Parser(rest, 0, if p.state == FixedBody then Headers else ChunkEnd, p.h2c), e)
  {
    assert p.buffer[|data|..] == rest;
    RunMore(g, p, e);
  }

  lemma EndRuns(g: Grammar, p: Parser, e: Evidence, rest: seq<byte>)
    requires p.state == ChunkEnd && p.buffer == CRLF + rest
    ensures Run(g, p, e) == Run(g, p.(buffer := rest, state := ChunkSize), e)
  {
    assert p.buffer[..2] == CRLF && p.buffer[2..] == rest;
    RunMore(g, p, e);
  }

  lemma ChunkRuns(g: Grammar, p: Parser, e: Evidence, c: Chunk, rest: seq<byte>)
    requires p.state == ChunkSize && p.remaining == 0 && p.buffer == EncodeChunk(c) + rest
    requires c.data != [] && LegalLine(g, c, |c.data|)
    ensures Run(g, p, e) == Run(g, p.(buffer := rest), e)
  {
    var more := c.data + (CRLF + rest);
    assert p.buffer == Line(c) + (CRLF + more);
    LineRuns(g, p, e, c, |c.data|, more);
    DataRuns(g, p.(buffer := more, state := ChunkData, remaining := |c.data|), e, c.data, CRLF + rest);
    EndRuns(g, Parser(CRLF + rest, 0, ChunkEnd, p.h2c), e, rest);
  }

  lemma {:induction false} ChunksRun(g: Grammar, p: Parser, e: Evidence, chunks: seq<Chunk>, rest: seq<byte>)
    requires p.state == ChunkSize && p.remaining == 0 && p.buffer == EncodeChunks(chunks) + rest
    requires forall c :: c in chunks ==> c.data != [] && LegalLine(g, c, |c.data|)
    ensures Run(g, p, e) == Run(g, p.(buffer := rest), e)
    decreases |chunks|
  {
    if chunks == [] {
      assert p.buffer == rest;
    } else {
      var more := EncodeChunks(chunks[1..]) + rest;
      assert p.buffer == EncodeChunk(chunks[0]) + more;
      ChunkRuns(g, p, e, chunks[0], more);
      ChunksRun(g, p.(buffer := more), e, chunks[1..], rest);
    }
  }

  lemma TrailerRuns(g: Grammar, p: Parser, e: Evidence, trailer: seq<byte>, rest: seq<byte>)
    requires p.state == ChunkTrailer
    requires trailer != [] ==> EndsAt(trailer, [13, 10, 13, 10]) && !([13, 10] <= trailer + [13, 10, 13, 10])
    requires p.buffer == EncodeTrailer(trailer) + rest
    ensures Run(g, p, e) == Run(g, p.(buffer := rest, state := Headers), e)
  {
    if trailer == [] {
      assert p.buffer[..2] == CRLF && p.buffer[2..] == rest;
    } else {
      assert p.buffer == trailer + (CRLFCRLF + rest);
      MarkFound(trailer, CRLFCRLF, rest);
      assert p.buffer[..2] == (trailer + CRLFCRLF)[..2];
    }
    RunMore(g, p, e);
  }

  /** Where the parser stands before a body. */
  function BeforeBody(m: Message, rest: seq<byte>): Parser {
    match m.body
    case Plain(bytes) =>
      if bytes == [] then Parser(rest, 0, Headers, m.retries) else Parser(bytes + rest, |bytes|, FixedBody, m.retries)
    case Chunked(_, _, _) => Parser(EncodeBody(m.body) + rest, 0, ChunkSize, m.retries)
  }

  lemma BodyRuns(g: Grammar, m: Message, e: Evidence, rest: seq<byte>)
    requires LegalBody(g, m.body)
    ensures Run(g, BeforeBody(m, rest), e) == Run(g, Parser(rest, 0, Headers, m.retries), e)
  {
    var p := BeforeBody(m, rest);
    match m.body
    case Plain(bytes) =>
      if bytes != [] { DataRuns(g, p, e, bytes, rest); }
    case Chunked(chunks, last, trailer) =>
      var end := EncodeTrailer(trailer);
      var tail := Line(last) + (CRLF + (end + rest));
      assert p.buffer == EncodeChunks(chunks) + tail;
      ChunksRun(g, p, e, chunks, tail);
      LineRuns(g, p.(buffer := tail), e, last, 0, end + rest);
      TrailerRuns(g, p.(buffer := end + rest, state := ChunkTrailer), e, trailer, rest);
  }

  /** Two texts of which neither begins with the other differ somewhere. */
  lemma Differ(a: seq<byte>, b: seq<byte>) returns (k: nat)
    requires !(a <= b) && !(b <= a)
    ensures k < |a| && k < |b| && a[k] != b[k]
  {
    var n := if |a| < |b| then |a| else |b|;
    assert a[..n] != b[..n] by {
      assert a[..n] == a || b[..n] == b;
    }
    k :| 0 <= k < n && a[k] != b[k];
  }

  /** What was asked for before matters only to an HTTP/2 preface. */
  lemma NoPrefaceThere(start: seq<byte>, rest: seq<byte>)
    requires !(PREFACE <= start) && !(start <= PREFACE)
    ensures !(PREFACE <= start + rest) && !(start + rest <= PREFACE)
  {
    var k := Differ(PREFACE, start);
    assert (start + rest)[k] == start[k];
  }

  lemma HeadAccepted(g: Grammar, m: Message, p: Parser, e: Evidence, more: seq<byte>)
    requires LegalHead(g, m) && p.buffer == m.head + (CRLFCRLF + more)
    ensures HeaderStep(g, p, e) == Accept(g.header(m.head), p.(buffer := more), e)
  {
    MarkFound(m.head, CRLFCRLF, more);
  }

  lemma AcceptedBefore(g: Grammar, m: Message, p: Parser, e: Evidence, rest: seq<byte>)
    requires LegalHead(g, m) && CountHost(e, m.host).Some?
    requires p == Parser(EncodeBody(m.body) + rest, 0, Headers, false)
    ensures Accept(g.header(m.head), p, e) == More(BeforeBody(m, rest), CountHost(e, m.host).value)
  {
    if m.body.Plain? && m.body.bytes == [] { assert p.buffer == rest; }
  }

  lemma HeadRuns(g: Grammar, m: Message, h2c: bool, e: Evidence, rest: seq<byte>)
    requires Legal(g, m) && CountHost(e, m.host).Some?
    ensures Run(g, Parser(Encode(m) + rest, 0, Headers, h2c), e) ==
            Run(g, BeforeBody(m, rest), CountHost(e, m.host).value)
  {
    var p := Parser(Encode(m) + rest, 0, Headers, h2c);
    var more := EncodeBody(m.body) + rest;
    assert p.buffer == m.head + (CRLFCRLF + more);
    NoPrefaceThere(Encode(m), rest);
    HeadAccepted(g, m, p.(h2c := false), e, more);
    AcceptedBefore(g, m, Parser(more, 0, Headers, false), e, rest);
    RunMore(g, p, e);
  }

  function HostsOf(ms: seq<Message>): seq<string> { seq(|ms|, i requires 0 <= i < |ms| => ms[i].host) }

  lemma HostsLater(ms: seq<Message>, e: Evidence)
    requires ms != [] && HasRoom(e, HostsOf(ms))
    ensures CountHost(e, ms[0].host).Some? && HasRoom(CountHost(e, ms[0].host).value, HostsOf(ms[1..]))
  {
    assert HostsOf(ms)[1..] == HostsOf(ms[1..]);
    FirstCounts(e, HostsOf(ms));
  }

  lemma CountsLater(ms: seq<Message>, e: Evidence, after: Evidence)
    requires ms != [] && CountHost(e, ms[0].host).Some?
    requires CountsEach(CountHost(e, ms[0].host).value, HostsOf(ms[1..]), after)
    requires after == CountHost(e, ms[0].host).value.(hosts := after.hosts)
    ensures CountsEach(e, HostsOf(ms), after) && after == e.(hosts := after.hosts)
  {
    assert HostsOf(ms)[1..] == HostsOf(ms[1..]);
    CountsFirst(e, HostsOf(ms), after);
    CountedHosts(e, ms[0].host);
  }

  lemma FirstRuns(g: Grammar, ms: seq<Message>, h2c: bool, e: Evidence)
    requires ms != [] && Legal(g, ms[0]) && CountHost(e, ms[0].host).Some?
    ensures Run(g, Parser(EncodeAll(ms), 0, Headers, h2c), e) ==
            Run(g, Parser(EncodeAll(ms[1..]), 0, Headers, ms[0].retries), CountHost(e, ms[0].host).value)
  {
    HeadRuns(g, ms[0], h2c, e, EncodeAll(ms[1..]));
    BodyRuns(g, ms[0], CountHost(e, ms[0].host).value, EncodeAll(ms[1..]));
  }

  function LastRetries(ms: seq<Message>, h2c: bool): bool { if ms == [] then h2c else ms[|ms| - 1].retries }

  /** The parser ends between two requests with nothing left over, and every host was
      counted once per request. */
  ghost predicate Counted(g: Grammar, ms: seq<Message>, h2c: bool, e: Evidence) {
    var r := Run(g, Parser(EncodeAll(ms), 0, Headers, h2c), e);
    && r.Ok? && r.p == Parser([], 0, Headers, LastRetries(ms, h2c))
    && CountsEach(e, HostsOf(ms), r.e) && r.e == e.(hosts := r.e.hosts)
  }

  lemma NoneCounted(g: Grammar, h2c: bool, e: Evidence)
    ensures Counted(g, [], h2c, e)
  {
    EmptyRests(g, Parser([], 0, Headers, h2c), e);
    assert HostsOf([]) == [];
  }

  lemma FirstCounted(g: Grammar, ms: seq<Message>, h2c: bool, e: Evidence)
    requires ms != [] && Legal(g, ms[0]) && CountHost(e, ms[0].host).Some?
    requires Counted(g, ms[1..], ms[0].retries, CountHost(e, ms[0].host).value)
    ensures Counted(g, ms, h2c, e)
  {
    FirstRuns(g, ms, h2c, e);
    assert LastRetries(ms, h2c) == LastRetries(ms[1..], ms[0].retries);
    CountsLater(ms, e, Run(g, Parser(EncodeAll(ms), 0, Headers, h2c), e).e);
  }

  /** Any requests, each with the body that its header announces, whether of a stated
      length or in chunks with extensions and trailers. */
  lemma {:induction false} RequestsAreCounted(g: Grammar, ms: seq<Message>, h2c: bool, e: Evidence)
    requires (forall m :: m in ms ==> Legal(g, m)) && HasRoom(e, HostsOf(ms))
    ensures Counted(g, ms, h2c, e)
    decreases |ms|
  {
    if ms == [] {
      NoneCounted(g, h2c, e);
    } else {
      assert ms[0] in ms && forall n :: n in ms[1..] ==> n in ms;
      HostsLater(ms, e);
      RequestsAreCounted(g, ms[1..], ms[0].retries, CountHost(e, ms[0].host).value);
      FirstCounted(g, ms, h2c, e);
    }
  }

  /** So it is for a fresh parser, whether the bytes come at once or in two calls of
      which the first does not err. */
  lemma RequestsInPieces(g: Grammar, ms: seq<Message>, e: Evidence, a: seq<byte>, b: seq<byte>)
    requires (forall m :: m in ms ==> Legal(g, m)) && HasRoom(e, HostsOf(ms)) && a + b == EncodeAll(ms)
    requires FeedResult(g, Parser([], 0, Headers, false), e, a).Ok?
    ensures var r := Then(g, FeedResult(g, Parser([], 0, Headers, false), e, a), b);
            && r.Ok? && r.p.buffer == [] && r.p.state == Headers
            && CountsEach(e, HostsOf(ms), r.e) && r.e == e.(hosts := r.e.hosts)
  {
    var idle := Parser([], 0, Headers, false);
    RequestsAreCounted(g, ms, false, e);
    FeedSplits(g, idle, e, a, b);
    assert [] + (a + b) == EncodeAll(ms);
  }

  /** Whatever follows any requests is read as by a parser between two requests. */
  lemma RequestsThen(g: Grammar, ms: seq<Message>, e: Evidence, tail: seq<byte>) returns (after: Evidence)
    requires (forall m :: m in ms ==> Legal(g, m)) && HasRoom(e, HostsOf(ms))
    ensures CountsEach(e, HostsOf(ms), after) && after == e.(hosts := after.hosts)
    ensures FeedResult(g, Parser([], 0, Headers, false), e, EncodeAll(ms) + tail) ==
            Run(g, Parser(tail, 0, Headers, LastRetries(ms, false)), after)
  {
    var idle := Parser([], 0, Headers, false);
    RequestsAreCounted(g, ms, false, e);
    assert [] + EncodeAll(ms) == EncodeAll(ms) && [] + tail == tail;
    FeedSplits(g, idle, e, EncodeAll(ms), tail);
    after := FeedResult(g, idle, e, EncodeAll(ms)).e;
  }

  // ----- What ends a conversation in HTTP/1.1 -----

  /** A header block of an allowed length, and its blank line, that nobody takes for the
      start of HTTP/2. */
  ghost predicate Block(head: seq<byte>) {
    && EndsAt(head, [13, 10, 13, 10]) && |head| + 4 <= 16384
    && !(PREFACE <= head + [13, 10, 13, 10]) && !(head + [13, 10, 13, 10] <= PREFACE)
  }

  lemma BlockRead(g: Grammar, head: seq<byte>, rest: seq<byte>, h2c: bool, e: Evidence)
    requires Block(head)
    ensures var p := Parser(head + ([13, 10, 13, 10] + rest), 0, Headers, h2c);
            Step(g, p, e) == if g.header(head).BadHeader? then Err(InvalidHeader, p.(h2c := false), e)
                             else Accept(g.header(head), Parser(rest, 0, Headers, false), e)
  {
    MarkFound(head, CRLFCRLF, rest);
    assert head + (CRLFCRLF + rest) == (head + CRLFCRLF) + rest;
    NoPrefaceThere(head + CRLFCRLF, rest);
  }

  /** After a CONNECT the bytes are the tunnel's: all of them, and no host is counted.
      After any other protocol's upgrade they are nobody's, but its host is counted. */
  lemma LeavingHttp(g: Grammar, head: seq<byte>, rest: seq<byte>, h2c: bool, e: Evidence)
    requires Block(head) && g.header(head).Request?
    ensures var said, r := g.header(head), Run(g, Parser(head + ([13, 10, 13, 10] + rest), 0, Headers, h2c), e);
            && (said.connect.Some? ==> r == Ok(Parser(rest, 0, Tunnel, false), e.(proxy := said.connect)))
            && (said.connect.None? && said.upgrade == UpgradeOther && CountHost(e, said.host).Some? ==>
                  r == Ok(Parser([], 0, Stopped, false), CountHost(e, said.host).value))
  {
    BlockRead(g, head, rest, h2c, e);
  }

  /** A block that is no header is refused, and one too long, finished or not, and one
      that asks for one host too many. */
  lemma RefusedHeaders(g: Grammar, head: seq<byte>, rest: seq<byte>, h2c: bool, e: Evidence)
    ensures var r := Run(g, Parser(head + ([13, 10, 13, 10] + rest), 0, Headers, h2c), e);
            Block(head) && g.header(head).BadHeader? ==> r.Err? && r.error == InvalidHeader && r.e == e
    ensures var said, r := g.header(head), Run(g, Parser(head + ([13, 10, 13, 10] + rest), 0, Headers, h2c), e);
            (Block(head) && said.Request? && said.connect.None? && said.host != "" && said.host !in e.hosts
             && |e.hosts| >= 256) ==> r.Err? && r.error == HostLimit && r.e == e
    ensures var r := Run(g, Parser(head + ([13, 10, 13, 10] + rest), 0, Headers, false), e);
            EndsAt(head, [13, 10, 13, 10]) && |head| + 4 > 16384 ==> r.Err? && r.error == HeaderLimit && r.e == e
    ensures var r := Run(g, Parser(head, 0, Headers, false), e);
            (forall i: nat :: !OccursAt(head, [13, 10, 13, 10], i)) ==>
              if |head| > 16384 then r.Err? && r.error == HeaderLimit && r.e == e
              else r == Ok(Parser(head, 0, Headers, false), e)
  {
    if Block(head) { BlockRead(g, head, rest, h2c, e); }
    if EndsAt(head, CRLFCRLF) { MarkFound(head, CRLFCRLF, rest); }
  }

  function Ascii(text: string): seq<byte> {
    seq(|text|, i requires 0 <= i < |text| => if text[i] < 128 as char then text[i] as byte else 0)
  }

  lemma PrefaceText()
    ensures Ascii("PRI * HTTP/2.0\r\n\r\nSM\r\n\r\n") == PREFACE
  {
  }

  lemma PrefacePasses(g: Grammar, rest: seq<byte>, e: Evidence)
    ensures Run(g, Parser(PREFACE + rest, 0, Headers, true), e) == Ok(Parser(PREFACE + rest, 0, H2C, true), e)
  {
    assert PREFACE <= PREFACE + rest;
  }

  lemma PrefaceWaits(g: Grammar, k: nat, e: Evidence)
    requires k < |PREFACE|
    ensures Run(g, Parser(PREFACE[..k], 0, Headers, true), e) == Ok(Parser(PREFACE[..k], 0, Headers, true), e)
  {
    assert PREFACE[..k] <= PREFACE;
  }

  /** After a request for h2c the HTTP/2 preface starts HTTP/2, which is to read all of
      it again; a part of the preface is waited on. */
  lemma PrefaceSwitches(g: Grammar, preface: seq<byte>, rest: seq<byte>, k: nat, e: Evidence)
    requires preface == Ascii("PRI * HTTP/2.0\r\n\r\nSM\r\n\r\n")
    ensures Run(g, Parser(preface + rest, 0, Headers, true), e) == Ok(Parser(preface + rest, 0, H2C, true), e)
    ensures k < |preface| ==>
              Run(g, Parser(preface[..k], 0, Headers, true), e) == Ok(Parser(preface[..k], 0, Headers, true), e)
  {
    PrefaceText();
    PrefacePasses(g, rest, e);
    if k < |preface| { PrefaceWaits(g, k, e); }
  }

  /** Chunks go on being read until a size line is no number, or too long, finished or not. */
  lemma RefusedLine(g: Grammar, chunks: seq<Chunk>, c: Chunk, rest: seq<byte>, h2c: bool, e: Evidence)
    requires forall d :: d in chunks ==> d.data != [] && LegalLine(g, d, |d.data|)
    requires EndsAt(Line(c), [13, 10]) && 59 !in c.size && (c.extension != [] ==> c.extension[0] == 59)
    requires |Line(c)| > 256 || g.chunkSize(c.size).None?
    ensures var r := Run(g, Parser(EncodeChunks(chunks) + (Line(c) + ([13, 10] + rest)), 0, ChunkSize, h2c), e);
            r.Err? && r.error == (if |Line(c)| > 256 then ChunkLineLimit else InvalidChunkSize) && r.e == e
  {
    var tail := Line(c) + (CRLF + rest);
    ChunksRun(g, Parser(EncodeChunks(chunks) + tail, 0, ChunkSize, h2c), e, chunks, tail);
    MarkFound(Line(c), CRLF, rest);
    SizeFound(c);
  }

  lemma UnfinishedLine(g: Grammar, line: seq<byte>, h2c: bool, e: Evidence)
    requires forall i: nat :: !OccursAt(line, [13, 10], i)
    ensures var r := Run(g, Parser(line, 0, ChunkSize, h2c), e);
            if |line| > 256 then r.Err? && r.error == ChunkLineLimit && r.e == e
            else r == Ok(Parser(line, 0, ChunkSize, h2c), e)
  {
  }

  /** So it is when the two bytes after a chunk's data are not a line end. */
  lemma RefusedEnd(g: Grammar, c: Chunk, end: seq<byte>, rest: seq<byte>, h2c: bool, e: Evidence)
    requires c.data != [] && LegalLine(g, c, |c.data|) && |end| == 2 && end != [13, 10]
    ensures var r := Run(g, Parser(Line(c) + ([13, 10] + (c.data + (end + rest))), 0, ChunkSize, h2c), e);
            r.Err? && r.error == InvalidChunkEnd && r.e == e
  {
    var more := c.data + (end + rest);
    LineRuns(g, Parser(Line(c) + (CRLF + more), 0, ChunkSize, h2c), e, c, |c.data|, more);
    DataRuns(g, Parser(more, |c.data|, ChunkData, h2c), e, c.data, end + rest);
    assert (end + rest)[..2] == end;
  }

  /** A trailer has to end within the length of a header. */
  lemma UnfinishedTrailer(g: Grammar, trailer: seq<byte>, h2c: bool, e: Evidence)
    requires !([13, 10] <= trailer) && forall i: nat :: !OccursAt(trailer, [13, 10, 13, 10], i)
    ensures var r := Run(g, Parser(trailer, 0, ChunkTrailer, h2c), e);
            if |trailer| > 16384 then r.Err? && r.error == TrailerLimit && r.e == e
            else r == Ok(Parser(trailer, 0, ChunkTrailer, h2c), e)
  {
  }

  // ----- Skipping -----

  /** Skipping n body bytes is feeding any n bytes. */
  lemma SkipIsFeed(g: Grammar, p: Parser, e: Evidence, data: seq<byte>)
    requires SkipResult(p, |data|).Some?
    ensures !Leaves(p) && FeedResult(g, p, e, data) == Ok(SkipResult(p, |data|).value, e)
  {
    assert p.buffer + data == data;
    assert data[|data|..] == [];
  }

  // ----- The parser as the source keeps it -----

  class HttpParser {
    var buffer: seq<byte>
    var remaining: nat
    var state: State
    var h2c: bool

    function View(): Parser
      reads this
    {
      Parser(buffer, remaining, state, h2c)
    }

    constructor ()
      ensures View() == Parser([], 0, Headers, false)
    {
      buffer, remaining, state, h2c := [], 0, Headers, false;
    }

    /** What a turn returns, as an outcome. */
    ghost function Result(done: bool, after: Evidence, error: Option<Error>): Outcome
      reads this
    {
      match error
      case Some(why) => Err(why, View(), after)
      case None => if done then Ok(View(), after) else More(View(), after)
    }

    method HeaderTurn(g: Grammar, evidence: Evidence) returns (done: bool, after: Evidence, error: Option<Error>)
      requires state == Headers
      modifies this
      ensures Result(done, after, error) == HeaderStep(g, old(View()), evidence) && (error.Some? ==> done)
    {
      done, after, error := true, evidence, None;
      var end := Index(buffer, CRLFCRLF);
      if end < 0 {
        if |buffer| > MAX_HEADER {
          error := Some(HeaderLimit);
        }
        return;
      }
      if end + 4 > MAX_HEADER {
        error := Some(HeaderLimit);
        return;
      }
      match g.header(buffer[..end]) {
        case BadHeader =>
          error := Some(InvalidHeader);
        case Request(connect, host, upgrade, chunked, bodyLength) =>
          buffer := buffer[end + 4..];
          if connect.Some? {
            after := after.(proxy := connect);
            state := Tunnel;
            return;
          }
          match CountHost(after, host) {
            case None =>
              error := Some(HostLimit);
              return;
            case Some(counted) =>
              after := counted;
          }
          if upgrade == UpgradeH2c {
            h2c := true;
          } else if upgrade == UpgradeOther {
            state, buffer := Stopped, [];
            return;
          }
          if chunked {
            state := ChunkSize;
          } else if bodyLength > 0 {
            state, remaining := FixedBody, bodyLength;
          }
          done := false;
      }
    }

    method LineTurn(g: Grammar, evidence: Evidence) returns (done: bool, after: Evidence, error: Option<Error>)
      requires state in {ChunkSize, ChunkEnd, ChunkTrailer}
      modifies this
      ensures Result(done, after, error) == Step(g, old(View()), evidence) && (error.Some? ==> done)
    {
      done, after, error := true, evidence, None;
      if state == ChunkSize {
        var end := Index(buffer, CRLF);
        if end < 0 {
          if |buffer| > MAX_CHUNK_LINE {
            error := Some(ChunkLineLimit);
          }
          return;
        }
        if end > MAX_CHUNK_LINE {
          error := Some(ChunkLineLimit);
          return;
        }
        match g.chunkSize(SizeText(buffer[..end])) {
          case None =>
            error := Some(InvalidChunkSize);
            return;
          case Some(size) =>
            buffer := buffer[end + 2..];
            if size == 0 {
              state := ChunkTrailer;
            } else {
              state, remaining := ChunkData, size;
            }
        }
      } else if state == ChunkEnd {
        if |buffer| < 2 {
          return;
        }
        if buffer[0] != CR || buffer[1] != LF {
          error := Some(InvalidChunkEnd);
          return;
        }
        buffer, state := buffer[2..], ChunkSize;
      } else if |buffer| >= 2 && buffer[0] == CR && buffer[1] == LF {
        buffer, state := buffer[2..], Headers;
      } else {
        var end := Index(buffer, CRLFCRLF);
        if end < 0 {
          if |buffer| > MAX_HEADER {
            error := Some(TrailerLimit);
          }
          return;
        }
        buffer, state := buffer[end + 4..], Headers;
      }
      done := false;
    }

    /** One turn of feed's loop. */
    method Turn(g: Grammar, evidence: Evidence) returns (done: bool, after: Evidence, error: Option<Error>)
      requires !Leaves(View())
      modifies this
      ensures Result(done, after, error) == Step(g, old(View()), evidence) && (error.Some? ==> done)
    {
      done, after, error := true, evidence, None;
      match state {
        case Headers =>
          if h2c {
            if PREFACE <= buffer {
              state := H2C;
              return;
            }
            if buffer <= PREFACE {
              return;
            }
            h2c := false;
          }
          done, after, error := HeaderTurn(g, evidence);
        case FixedBody | ChunkData =>
          var consume := if |buffer| < remaining then |buffer| else remaining;
          buffer, remaining := buffer[consume..], remaining - consume;
          if remaining > 0 {
            return;
          }
          state := if state == FixedBody then Headers else ChunkEnd;
          done := false;
        case ChunkSize | ChunkEnd | ChunkTrailer =>
          done, after, error := LineTurn(g, evidence);
        case Stopped =>
          buffer := [];
      }
    }

    /** Feeds the next bytes. It terminates, because a turn that goes round consumes
        bytes or ends a body, provided the parser has not already left HTTP: the
        source's loop has no case for a parser that has. */
    method Feed(g: Grammar, data: seq<byte>, evidence: Evidence) returns (after: Evidence, error: Option<Error>)
      requires !Leaves(View())
      modifies this
      ensures Result(true, after, error) == FeedResult(g, old(View()), evidence, data)
    {
      after, error := evidence, None;
      if state == Stopped {
        return;
      }
      buffer := buffer + data;
      while true
        invariant !Leaves(View())
        invariant Run(g, View(), after) == FeedResult(g, old(View()), evidence, data)
        decreases |buffer|, Rank(state)
      {
        RunTurn(g, View(), after);
        var done;
        done, after, error := Turn(g, after);
        if done || |buffer| == 0 {
          return;
        }
      }
    }

    /** Passes over `n` missing bytes of a body, or refuses and changes nothing. */
    method Skip(n: nat) returns (ok: bool)
      modifies this
      ensures ok == SkipResult(old(View()), n).Some?
      ensures View() == if ok then SkipResult(old(View()), n).value else old(View())
    {
      if |buffer| != 0 || (state != FixedBody && state != ChunkData) || n > remaining {
        return false;
      }
      remaining := remaining - n;
      if remaining == 0 && state == FixedBody {
        state := Headers;
      } else if remaining == 0 {
        state := ChunkEnd;
      }
      return true;
    }
  }
}
