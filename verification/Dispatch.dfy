/** The stream's parser once its kind is chosen: which protocol reads the next
    bytes, what it hands on, and that all of them meet what reassembly relies on. */
module Dispatch {
  import opened Prelude
  import opened Evidence
  import opened Coverage
  import opened TcpStream
  import Http1
  import Http2
  import Tls

  /** HTTP/1.1 that has not left HTTP, and HTTP/2 between calls. */
  type HttpActive = p: Http1.Parser | !Http1.Leaves(p) witness Http1.Parser([], 0, Http1.Headers, false)
  type H2Ready = p: Http2.Parser | Http2.Ready(p) witness Http2.FRESH

  /** `Handoff` holds the bytes of a CONNECT tunnel, which the next protocol reads. */
  datatype Parser =
    | Http(http: HttpActive, e: Evidence)
    | H2(h2: H2Ready, e: Evidence)
    | TlsHello(tls: Tls.Parser)
    | Handoff(bytes: seq<byte>, e: Evidence)

  /** The readers that the models leave to their environment. */
  datatype Env = Env(grammar: Http1.Grammar, codec: Http2.Codec, hello: seq<byte> -> bool)

  predicate Finished(p: Parser) {
    match p
    case Http(http, _) => http.state == Http1.Stopped
    case H2(h2, _) => h2.stopped
    case TlsHello(tls) => tls.done
    case Handoff(_, _) => false
  }

  function FromH2(r: Http2.Outcome): Fed<Parser>
    requires Http2.Ready(r.p)
  {
    Fed(H2(r.p, r.e), if r.error.Some? then Some("HTTP/2 error") else None)
  }

  /** The bytes after the preface of a connection upgraded to HTTP/2. */
  function AfterPreface(buffer: seq<byte>): seq<byte> {
    if |buffer| >= |Http1.PREFACE| then buffer[|Http1.PREFACE|..] else []
  }

  /** A result of the HTTP/1.1 parser, with any switch of protocol. */
  function FromHttp(env: Env, before: HttpActive, r: Http1.Outcome): Fed<Parser>
    requires !r.More?
  {
    match r
    case Err(_, _, e) => Fed(Http(before, e), Some("HTTP error"))
    case Ok(p, e) =>
      if p.state == Http1.Tunnel then Fed(Handoff(p.buffer, e), None)
      else if p.state == Http1.H2C then FromH2(Http2.Bytes(env.codec, Http2.FRESH, e, AfterPreface(p.buffer)))
      else Fed(Http(p, e), None)
  }

  function FromTls(before: Tls.Parser, r: Tls.Outcome): Fed<Parser> {
    match r
    case Ok(p) => Fed(TlsHello(p), None)
    case Err(_) => Fed(TlsHello(before), Some("TLS error"))
  }

  function Feed(env: Env, p: Parser, data: seq<byte>): Fed<Parser> {
    match p
    case Http(http, e) => FromHttp(env, http, Http1.FeedResult(env.grammar, http, e, data))
    case H2(h2, e) => FromH2(Http2.Bytes(env.codec, h2, e, data))
    case TlsHello(tls) => FromTls(tls, Tls.FeedResult(env.hello, tls, data))
    case Handoff(bytes, e) => Fed(Handoff(bytes + data, e), None)
  }

  /** The same without the TLS parser's limit on what one call may add. */
  function Whole(env: Env, p: Parser, data: seq<byte>): Fed<Parser> {
    match p
    case TlsHello(tls) => FromTls(tls, Tls.Resume(env.hello, tls, data))
    case _ => Feed(env, p, data)
  }

  function Skip(p: Parser, n: nat): Option<Parser> {
    if Finished(p) then Some(p)
    else
      match p
      case Http(http, e) =>
        (match Http1.SkipResult(http, n)
         case None => None
         case Some(q) => Some(Http(q, e)))
      case H2(h2, e) =>
        (match Http2.SkipResult(h2, n)
         case None => None
         case Some(q) => Some(H2(q, e)))
      case _ => None
  }

  /** The parser as the stream calls it. */
  function Ops(env: Env): ParserOps<Parser> {
    ParserOps((p, data) => Feed(env, p, data), p => Finished(p), (p, n) => Skip(p, n))
  }

  function Means(env: Env): Meaning<Parser> { (p, data) => Whole(env, p, data) }

  // ----- The laws -----

  /** An upgrade is recognized only by the whole preface. */
  lemma {:induction false} UpgradeHasPreface(g: Http1.Grammar, p: Http1.Parser, e: Evidence)
    requires !Http1.Leaves(p) && Http1.Run(g, p, e).Ok? && Http1.Run(g, p, e).p.state == Http1.H2C
    ensures Http1.PREFACE <= Http1.Run(g, p, e).p.buffer
    decreases |p.buffer|, Http1.Rank(p.state)
  {
    Http1.RunTurn(g, p, e);
    var r := Http1.Step(g, p, e);
    if r.More? {
      if r.p.buffer != [] { UpgradeHasPreface(g, r.p, r.e); }
    }
  }

  /** What two calls amount to: an error that finished the parser stays the result. */
  function Both(fed: Fed<Parser>, next: Fed<Parser>): Fed<Parser> { if fed.error.Some? then fed else next }

  /** The bytes behind a preface go on to HTTP/2 as they would in one piece. */
  lemma UpgradeSplits(env: Env, http: HttpActive, e: Evidence, a: seq<byte>, b: seq<byte>)
    requires var r := Http1.FeedResult(env.grammar, http, e, a); r.Ok? && r.p.state == Http1.H2C
    ensures Feed(env, Http(http, e), a + b) ==
            Both(Feed(env, Http(http, e), a), Feed(env, Feed(env, Http(http, e), a).parser, b))
  {
    var r := Http1.FeedResult(env.grammar, http, e, a);
    Http1.FeedSplits(env.grammar, http, e, a, b);
    UpgradeHasPreface(env.grammar, http.(buffer := http.buffer + a), e);
    var rest := AfterPreface(r.p.buffer);
    assert AfterPreface(r.p.buffer + b) == rest + b;
    Http2.FeedSplits(env.codec, Http2.FRESH, r.e, rest, b);
  }

  /** Two calls that fail no stream do what one does, across a switch of protocol. */
  lemma HttpSplits(env: Env, http: HttpActive, e: Evidence, a: seq<byte>, b: seq<byte>)
    requires Holds(Ops(env), Feed(env, Http(http, e), a))
    requires Holds(Ops(env), Feed(env, Feed(env, Http(http, e), a).parser, b))
    ensures Feed(env, Http(http, e), a + b) ==
            Both(Feed(env, Http(http, e), a), Feed(env, Feed(env, Http(http, e), a).parser, b))
  {
    var r := Http1.FeedResult(env.grammar, http, e, a);
    if r.Ok? && r.p.state == Http1.H2C {
      UpgradeSplits(env, http, e, a, b);
    } else {
      Http1.FeedSplits(env.grammar, http, e, a, b);
    }
  }

  lemma TlsSplits(env: Env, tls: Tls.Parser, a: seq<byte>, b: seq<byte>)
    requires Holds(Ops(env), Whole(env, TlsHello(tls), a))
    requires Holds(Ops(env), Feed(env, Whole(env, TlsHello(tls), a).parser, b))
    ensures Whole(env, TlsHello(tls), a + b) ==
            Both(Whole(env, TlsHello(tls), a), Feed(env, Whole(env, TlsHello(tls), a).parser, b))
  {
    if !tls.done {
      Tls.RunSplits(env.hello, tls.(record := tls.record + a), b);
      assert (tls.record + a) + b == tls.record + (a + b);
    }
  }

  lemma AnySplits(env: Env, p: Parser, a: seq<byte>, b: seq<byte>)
    ensures Splits(Ops(env), Means(env), p, a, b)
  {
    var fed := Whole(env, p, a);
    if Holds(Ops(env), fed) && Holds(Ops(env), Feed(env, fed.parser, b)) {
      match p
      case Http(http, e) => HttpSplits(env, http, e, a, b);
      case H2(h2, e) => Http2.FeedSplits(env.codec, h2, e, a, b);
      case TlsHello(tls) => TlsSplits(env, tls, a, b);
      case Handoff(bytes, e) => assert (bytes + a) + b == bytes + (a + b);
    }
  }

  lemma AnySkipFeeds(env: Env, p: Parser, data: seq<byte>)
    ensures SkipFeeds(Ops(env), p, data)
  {
    if Skip(p, |data|).Some? && !Finished(p) {
      match p
      case Http(http, e) => Http1.SkipIsFeed(env.grammar, http, e, data);
      case H2(h2, e) => Http2.SkipIsFeed(env.codec, h2, e, data);
      case _ =>
    }
  }

  /** Every parser state meets the laws, so reassembly is exact for all of them. */
  lemma DispatchIsLawful(env: Env)
    ensures Lawful(Ops(env), Means(env))
  {
    forall p, a, b ensures Splits(Ops(env), Means(env), p, a, b) { AnySplits(env, p, a, b); }
    forall p, data ensures SkipFeeds(Ops(env), p, data) { AnySkipFeeds(env, p, data); }
    forall p, data ensures Agrees(Ops(env), Means(env), p, data) { }
    forall p, data ensures Absorbs(Ops(env), p, data) { }
  }

  /** The evidence of two captures of one connection is the same whenever they saw the
      same stretches of it and neither failed, in whatever order and pieces, and whether
      body bytes were captured or skipped; and it is that of one uninterrupted read. This
      includes captures that ended with their evidence complete, such as a ClientHello,
      or in an HTTP/2 error; those may have missed anything that came after. */
  lemma EvidenceIsOrderIndependent(env: Env, w: World<Parser>, u: View<Parser>, v: View<Parser>)
    requires w.ops == Ops(env) && w.whole == Means(env) && TcpStream.Sound(w, u) && TcpStream.Sound(w, v)
    requires Finished(u.parser) || Union(v.log.seen) <= Union(u.log.seen)
    requires Finished(v.parser) || Union(u.log.seen) <= Union(v.log.seen)
    ensures u.parser == v.parser
    ensures u.log.read > 0 ==>
              var whole := Whole(env, w.parser0, w.wire[..u.log.read]);
              whole.parser == u.parser && (whole.error.None? || u.parser.H2?)
  {
    DispatchIsLawful(env);
    ArrivalOrderIrrelevant(w, u, v);
    if u.log.read > 0 { ErrorsFinishHttp2Only(env, w.parser0, w.wire[..u.log.read]); }
  }

  // ----- Whole connections -----

  const FRESH: HttpActive := Http1.Parser([], 0, Http1.Headers, false)

  lemma PrefaceFeeds(env: Env, ms: seq<Http1.Message>, preface: seq<byte>, rest: seq<byte>, e: Evidence,
                     middle: Evidence)
    requires preface == Http1.PREFACE
    requires Http1.FeedResult(env.grammar, FRESH, e, Http1.EncodeAll(ms) + (preface + rest)) ==
             Http1.Run(env.grammar, Http1.Parser(preface + rest, 0, Http1.Headers, true), middle)
    ensures Feed(env, Http(FRESH, e), Http1.EncodeAll(ms) + (preface + rest)) ==
            FromH2(Http2.Bytes(env.codec, Http2.FRESH, middle, rest))
  {
    Http1.PrefacePasses(env.grammar, rest, middle);
    assert AfterPreface(preface + rest) == rest;
  }

  lemma PrefaceSwitches(env: Env, e: Evidence, ms: seq<Http1.Message>, rest: seq<byte>) returns (middle: Evidence)
    requires (forall m :: m in ms ==> Http1.Legal(env.grammar, m)) && Http1.LastRetries(ms, false)
    requires HasRoom(e, Http1.HostsOf(ms))
    ensures CountsEach(e, Http1.HostsOf(ms), middle) && middle == e.(hosts := middle.hosts)
    ensures Feed(env, Http(FRESH, e), Http1.EncodeAll(ms) + (Preface() + rest)) ==
            FromH2(Http2.Bytes(env.codec, Http2.FRESH, middle, rest))
  {
    middle := Http1.RequestsThen(env.grammar, ms, e, Preface() + rest);
    Http1.PrefaceText();
    PrefaceFeeds(env, ms, Http1.PREFACE, rest, e, middle);
  }

  function Preface(): seq<byte> { Http1.Ascii("PRI * HTTP/2.0\r\n\r\nSM\r\n\r\n") }

  /** A client that asks for h2c last and then speaks HTTP/2: every host of its requests in
      either protocol is counted, once each. */
  lemma UpgradedConnection(env: Env, e: Evidence, ms: seq<Http1.Message>, items: seq<Http2.Item>)
    requires (forall m :: m in ms ==> Http1.Legal(env.grammar, m)) && Http1.LastRetries(ms, false)
    requires (forall item :: item in items ==> Http2.Legal(item)) && Http2.Decodable(env.codec, [], items)
    requires HasRoom(e, Http1.HostsOf(ms) + Http2.Asked(env.codec, 0, Http2.FieldsOf(env.codec, [], items)))
    ensures var said := Http2.FieldsOf(env.codec, [], items);
            var fed := Feed(env, Http(FRESH, e), Http1.EncodeAll(ms) + (Preface() + Http2.EncodeAll(items)));
            && fed.error.None? && fed.parser.H2? && fed.parser.e.proxy == e.proxy
            && CountsEach(e, Http1.HostsOf(ms) + Http2.Asked(env.codec, 0, said), fed.parser.e)
            && (fed.parser.e.grpc <==> e.grpc || Http2.SaysGrpc(said))
  {
    var hosts, rest := Http2.Asked(env.codec, 0, Http2.FieldsOf(env.codec, [], items)), Http2.EncodeAll(items);
    RoomSplits(e, Http1.HostsOf(ms), hosts, e);
    var middle := PrefaceSwitches(env, e, ms, rest);
    RoomSplits(e, Http1.HostsOf(ms), hosts, middle);
    Http2.ConversationIsCounted(env.codec, Http2.FRESH, middle, items);
    CountsJoin(e, Http1.HostsOf(ms), middle, hosts, Http2.Bytes(env.codec, Http2.FRESH, middle, rest).e);
  }

  /** A client that asks for a tunnel: the bytes after its CONNECT are handed on, and its
      earlier requests are counted. */
  lemma TunnelledConnection(env: Env, e: Evidence, ms: seq<Http1.Message>, head: seq<byte>, rest: seq<byte>)
    returns (middle: Evidence)
    requires (forall m :: m in ms ==> Http1.Legal(env.grammar, m)) && HasRoom(e, Http1.HostsOf(ms))
    requires Http1.Block(head) && env.grammar.header(head).Request? && env.grammar.header(head).connect.Some?
    ensures CountsEach(e, Http1.HostsOf(ms), middle)
    ensures Feed(env, Http(FRESH, e), Http1.EncodeAll(ms) + (head + ([13, 10, 13, 10] + rest))) ==
            Fed(Handoff(rest, middle.(proxy := env.grammar.header(head).connect)), None)
  {
    middle := Http1.RequestsThen(env.grammar, ms, e, head + ([13, 10, 13, 10] + rest));
    Http1.LeavingHttp(env.grammar, head, rest, Http1.LastRetries(ms, false), middle);
  }

  lemma ErrorsFinishHttp2Only(env: Env, p: Parser, data: seq<byte>)
    ensures Whole(env, p, data).error.Some? && Finished(Whole(env, p, data).parser) ==> Whole(env, p, data).parser.H2?
  {
  }

  /** HTTP/2 marks itself stopped when it errs, and Fail leaves a finished parser
      alone. So an error becomes the stream's failure if and only if it is not one of
      HTTP/2, also when the call that errs is the one that upgraded from HTTP/1.1. */
  lemma H2ErrorsAreNotRecorded(env: Env, w: World<Parser>, v: View<Parser>, payload: seq<byte>, now: int)
    requires w.ops == Ops(env) && v.failure.None?
    ensures var fed, after := Feed(env, v.parser, payload), Pushed(w, v, payload, now);
            && (after.failure.Some? <==> fed.error.Some? && !fed.parser.H2?)
            && (fed.error.Some? ==> Stopped(w, after))
  {
  }

  /** It happens: the header of a HEADERS frame that is longer than a block may be. */
  lemma H2ErrorHappens(env: Env, w: World<Parser>, v: View<Parser>, e: Evidence, now: int)
    requires w.ops == Ops(env) && v.failure.None? && v.parser == H2(Http2.FRESH, e)
    ensures var payload: seq<byte> := [1, 0, 1, 1, 0, 0, 0, 0, 1];
            && Feed(env, v.parser, payload).error.Some? && Stopped(w, Pushed(w, v, payload, now))
            && Pushed(w, v, payload, now).failure.None?
  {
    var payload: seq<byte> := [1, 0, 1, 1, 0, 0, 0, 0, 1];
    Http2.LongBlockErrs(env.codec, e);
    H2ErrorsAreNotRecorded(env, w, v, payload, now);
  }
}
