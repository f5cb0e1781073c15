/** TCP reassembly: segments in any order become the parser's byte stream. */
module TcpStream {
  import opened Coverage
  import opened MapSums
  import opened Prelude
  import opened Sequence32

  const MAX_PENDING_BYTES := 65536
  const MAX_PENDING_PARTS := 64

  /** What one call of the parser leaves behind. */
  datatype Fed<+S> = Fed(parser: S, error: Option<string>)

  /** The parser behind a stream, as the functions the stream calls. */
  datatype ParserOps<!S> = ParserOps(
    feed: (S, seq<byte>) -> Fed<S>,
    finished: S -> bool,
    skip: (S, nat) -> Option<S>)

  /** The meaning of a stretch of bytes to a parser, however long it is: what
      feed does with it, but for a limit on the size of one call. */
  type Meaning<!S> = (S, seq<byte>) -> Fed<S>

  /** A result that fails no stream: there was no error, or the parser finished with it. */
  predicate Holds<S>(ops: ParserOps<S>, fed: Fed<S>) { fed.error.None? || ops.finished(fed.parser) }

  /** A call that fails no stream does what the bytes mean. */
  ghost predicate Agrees<S>(ops: ParserOps<S>, whole: Meaning<S>, s: S, data: seq<byte>) {
    Holds(ops, ops.feed(s, data)) ==> whole(s, data) == ops.feed(s, data)
  }

  /** Bytes already understood and one more call mean what all of them mean; after an
      error that finished the parser the rest means nothing more. */
  ghost predicate Splits<S>(ops: ParserOps<S>, whole: Meaning<S>, s: S, a: seq<byte>, b: seq<byte>) {
    var fed := whole(s, a);
    var next := ops.feed(fed.parser, b);
    Holds(ops, fed) && Holds(ops, next) ==> whole(s, a + b) == if fed.error.Some? then fed else next
  }

  /** Skipping |data| bytes, where allowed, is feeding any bytes of that number. */
  ghost predicate SkipFeeds<S>(ops: ParserOps<S>, s: S, data: seq<byte>) {
    ops.skip(s, |data|).Some? ==> ops.feed(s, data) == Fed(ops.skip(s, |data|).value, None)
  }

  /** A finished parser ignores its input. */
  ghost predicate Absorbs<S>(ops: ParserOps<S>, s: S, data: seq<byte>) {
    ops.finished(s) ==> ops.feed(s, data) == Fed(s, None)
  }

  /** What reassembly relies on. */
  ghost predicate Lawful<S(!new)>(ops: ParserOps<S>, whole: Meaning<S>) {
    && (forall s, data :: Agrees(ops, whole, s, data))
    && (forall s, a, b :: Splits(ops, whole, s, a, b))
    && (forall s, data :: SkipFeeds(ops, s, data))
    && (forall s, data :: Absorbs(ops, s, data))
  }

  // ----- Facts about the pending map, free of the heap -----

  type Pending = map<int, seq<byte>>

  ghost predicate WellFormed(pending: Pending, bytes: int) {
    && bytes == Sum(pending, Length)
    && forall k :: k in pending ==> pending[k] != []
  }

  /** Every pending part lies far enough inside the int32 range that advancing
      over all pending bytes cannot make its difference wrap. */
  ghost predicate Slack(pending: Pending, expected: int, bytes: int) {
    forall k {:trigger Diff(k, expected)} :: k in pending ==> Diff(k, expected) - bytes >= -HALF + 1
  }

  lemma SlackAdvance(pending: Pending, expected: int, bytes: nat, n: nat)
    requires Slack(pending, expected, bytes + n)
    ensures Slack(pending, Wrap(expected + n), bytes)
  {
    forall k | k in pending ensures Diff(k, Wrap(expected + n)) == Diff(k, expected) - n {
      assert Diff(k, expected) - n >= -HALF;
      DiffShift(k, expected, n);
    }
  }

  ghost predicate Ahead(pending: Pending, expected: int) {
    forall k {:trigger Diff(k, expected)} :: k in pending ==> Diff(k, expected) > 0
  }

  /** Storing a part in place of a shorter one, or of none, counts its bytes. */
  lemma StoreCounts(pending: Pending, bytes: nat, k: int, payload: seq<byte>)
    requires WellFormed(pending, bytes) && payload != []
    ensures var was := if k in pending then |pending[k]| else 0;
            && was <= bytes
            && WellFormed(pending[k := payload], bytes - was + |payload|)
            && |pending[k := payload]| == |pending| + if k in pending then 0 else 1
  {
    SumInsert(pending, Length, k, payload);
    if k in pending { SumMember(pending, Length, k); }
  }

  lemma AheadLeavesSlack(pending: Pending, expected: int, bytes: nat)
    requires Ahead(pending, expected) && bytes <= HALF
    ensures Slack(pending, expected, bytes)
    ensures LeavesOnly(pending, pending, expected, bytes)
  {
  }

  /** Every pending part is the stretch of the wire its sequence number names. */
  ghost predicate Placed(pending: Pending, expected: int, read: nat, wire: seq<byte>) {
    forall k {:trigger Diff(k, expected)} :: k in pending ==>
      read + Diff(k, expected) >= 0 && OnWire(wire, read + Diff(k, expected), pending[k])
  }

  /** The segments that the pending parts are. */
  ghost function Parts(pending: Pending, expected: int, read: nat): set<Segment> {
    set k | k in pending :: Segment(read + Diff(k, expected), |pending[k]|)
  }

  /** The segments that were delivered or are contained in a pending part. */
  ghost function Held(pending: Pending, start: int, read: nat): iset<Segment> {
    iset g: Segment |
      || g.offset + g.length <= read
      || (&& -HALF < g.offset - read < HALF
          && Wrap(start + g.offset) in pending
          && |pending[Wrap(start + g.offset)]| >= g.length)
  }

  ghost predicate Accounted(pending: Pending, start: int, read: nat, seen: set<Segment>) {
    forall g :: g in seen ==> g in Held(pending, start, read)
  }

  /** What waits or was read came in a segment; this holds for stopped streams too. */
  ghost predicate Backed(pending: Pending, expected: int, read: nat, seen: set<Segment>) {
    Parts(pending, expected, read) <= seen && Below(read) <= Union(seen)
  }

  /** The account of the segments seen, also between two deliveries of one drain. */
  ghost predicate Tracks(pending: Pending, expected: int, start: int, read: nat, seen: set<Segment>) {
    && expected == Wrap(start + read)
    && Backed(pending, expected, read, seen)
    && Accounted(pending, start, read, seen)
  }

  /** When every pending part is ahead, nothing seen covers the next byte. */
  lemma AheadIsLongest(pending: Pending, expected: int, start: int, read: nat, seen: set<Segment>)
    requires Tracks(pending, expected, start, read, seen) && Ahead(pending, expected)
    ensures LongestPrefix(seen, read)
  {
    forall g | g in seen ensures !Covers(g, read) {
      assert g in Held(pending, start, read);
      if g.offset + g.length > read { DiffExact(start + g.offset, start + read); }
    }
  }

  /** `rest` is what remains pending once `n` bytes past `read` are delivered:
      the parts left out lie within those bytes, the others have room to move. */
  ghost predicate LeavesOnly(pending: Pending, rest: Pending, expected: int, n: nat) {
    && (forall k {:trigger Diff(k, expected)} :: k in rest ==>
          k in pending && pending[k] == rest[k] && Diff(k, expected) - n > -HALF)
    && (forall k {:trigger Diff(k, expected)} :: k in pending && k !in rest ==>
          Diff(k, expected) <= 0 && Diff(k, expected) + |pending[k]| <= n)
  }

  lemma PlacedAdvance(pending: Pending, rest: Pending, expected: int, read: nat, wire: seq<byte>, n: nat)
    requires Placed(pending, expected, read, wire) && LeavesOnly(pending, rest, expected, n)
    ensures Placed(rest, Wrap(expected + n), read + n, wire)
  {
    forall k | k in rest
      ensures read + n + Diff(k, Wrap(expected + n)) == read + Diff(k, expected)
    {
      DiffShift(k, expected, n);
    }
  }

  lemma PartsAdvance(pending: Pending, rest: Pending, expected: int, read: nat, n: nat)
    requires LeavesOnly(pending, rest, expected, n)
    ensures Parts(rest, Wrap(expected + n), read + n) <= Parts(pending, expected, read)
  {
    forall k | k in rest
      ensures Segment(read + n + Diff(k, Wrap(expected + n)), |rest[k]|) in Parts(pending, expected, read)
    {
      assert Diff(k, expected) - n > -HALF;
      DiffShift(k, expected, n);
    }
  }

  lemma AccountedAdvance(pending: Pending, rest: Pending, expected: int, start: int, read: nat, seen: set<Segment>,
                         n: nat)
    requires expected == Wrap(start + read) && n < HALF
    requires Accounted(pending, start, read, seen) && LeavesOnly(pending, rest, expected, n)
    ensures Accounted(rest, start, read + n, seen)
  {
    forall h | h in seen ensures h in Held(rest, start, read + n) {
      assert h in Held(pending, start, read);
      if h.offset + h.length > read + n {
        DiffExact(start + h.offset, start + read);
        assert Diff(Wrap(start + h.offset), expected) == h.offset - read;
      }
    }
  }

  lemma BackedAdvance(pending: Pending, rest: Pending, expected: int, read: nat, seen: set<Segment>, g: Segment, n: nat)
    requires Backed(pending, expected, read, seen) && LeavesOnly(pending, rest, expected, n)
    requires g.offset <= read && g.offset + g.length == read + n
    ensures Backed(rest, Wrap(expected + n), read + n, seen + {g})
  {
    PartsAdvance(pending, rest, expected, read, n);
    UnionGrows(seen, g);
    forall i | i in Below(read + n) ensures i in Union(seen + {g}) {
      if i >= read { assert Covers(g, i); } else { assert i in Below(read); }
    }
  }

  /** Delivering the `n` bytes that `g` holds past the read point keeps the account. */
  lemma TracksAdvance(pending: Pending, rest: Pending, expected: int, start: int, read: nat, seen: set<Segment>,
                      g: Segment, n: nat)
    requires Tracks(pending, expected, start, read, seen) && LeavesOnly(pending, rest, expected, n)
    requires g.offset <= read && g.offset + g.length == read + n
    requires n < HALF
    ensures Tracks(rest, Wrap(expected + n), start, read + n, seen + {g})
  {
    BackedAdvance(pending, rest, expected, read, seen, g, n);
    AccountedAdvance(pending, rest, expected, start, read, seen, n);
    WrapSum(start + read, n);
    assert g in Held(rest, start, read + n);
  }

  lemma BackedDeliver(pending: Pending, rest: Pending, expected: int, read: nat, seen: set<Segment>, k: int)
    requires Backed(pending, expected, read, seen)
    requires k in pending && Diff(k, expected) <= 0 < Diff(k, expected) + |pending[k]|
    requires LeavesOnly(pending, rest, expected, Diff(k, expected) + |pending[k]|)
    ensures var n := Diff(k, expected) + |pending[k]|;
            Backed(rest, Wrap(expected + n), read + n, seen)
  {
    var g := Segment(read + Diff(k, expected), |pending[k]|);
    BackedAdvance(pending, rest, expected, read, seen, g, Diff(k, expected) + |pending[k]|);
    assert g in Parts(pending, expected, read);
    assert seen + {g} == seen;
  }

  /** Delivering what a pending part holds past the read point keeps the account. */
  lemma TracksDeliver(pending: Pending, rest: Pending, expected: int, start: int, read: nat, seen: set<Segment>, k: int)
    requires Tracks(pending, expected, start, read, seen)
    requires k in pending && Diff(k, expected) <= 0 < Diff(k, expected) + |pending[k]| < HALF
    requires LeavesOnly(pending, rest, expected, Diff(k, expected) + |pending[k]|)
    ensures var n := Diff(k, expected) + |pending[k]|;
            Tracks(rest, Wrap(expected + n), start, read + n, seen)
  {
    var n := Diff(k, expected) + |pending[k]|;
    BackedDeliver(pending, rest, expected, read, seen, k);
    AccountedAdvance(pending, rest, expected, start, read, seen, n);
    WrapSum(start + read, n);
  }

  /** Dropping a part that ends at or before the read point keeps it too. */
  lemma TracksDrop(pending: Pending, expected: int, start: int, read: nat, seen: set<Segment>, k: int)
    requires Tracks(pending, expected, start, read, seen)
    requires k in pending && Diff(k, expected) + |pending[k]| <= 0
    ensures Tracks(pending - {k}, expected, start, read, seen)
  {
    forall h | h in seen ensures h in Held(pending - {k}, start, read) {
      assert h in Held(pending, start, read);
      if h.offset + h.length > read { DiffExact(start + h.offset, start + read); }
    }
  }

  /** Noting a segment that was delivered or is held already keeps the account. */
  lemma TracksNote(pending: Pending, expected: int, start: int, read: nat, seen: set<Segment>, g: Segment)
    requires Tracks(pending, expected, start, read, seen) && g in Held(pending, start, read)
    ensures Tracks(pending, expected, start, read, seen + {g})
  {
    UnionGrows(seen, g);
  }

  /** So does storing a segment in place of a shorter one with the same start. */
  lemma TracksStore(pending: Pending, expected: int, start: int, read: nat, seen: set<Segment>, offset: int,
                    payload: seq<byte>)
    requires Tracks(pending, expected, start, read, seen)
    requires 0 < offset - read < HALF
    requires Wrap(start + offset) in pending ==> |pending[Wrap(start + offset)]| <= |payload|
    ensures Tracks(pending[Wrap(start + offset) := payload], expected, start, read, seen + {Segment(offset, |payload|)})
  {
    var after, g := pending[Wrap(start + offset) := payload], Segment(offset, |payload|);
    DiffExact(start + offset, start + read);
    UnionGrows(seen, g);
    assert Parts(after, expected, read) <= Parts(pending, expected, read) + {g};
    assert Held(pending, start, read) <= Held(after, start, read);
  }

  // ----- Facts about what the parser was given -----

  /** `p` is what the wire's first `read` bytes mean to `p0`. */
  ghost predicate Reached<S>(ops: ParserOps<S>, whole: Meaning<S>, p0: S, p: S, wire: seq<byte>, read: nat) {
    && read <= |wire|
    && if read == 0 then p == p0 else whole(p0, wire[..read]).parser == p && Holds(ops, whole(p0, wire[..read]))
  }

  lemma ReachedMore<S(!new)>(ops: ParserOps<S>, whole: Meaning<S>, p0: S, p: S, wire: seq<byte>, read: nat,
                             more: seq<byte>)
    requires Lawful(ops, whole) && Reached(ops, whole, p0, p, wire, read) && more != [] && OnWire(wire, read, more)
    requires Holds(ops, ops.feed(p, more))
    ensures Reached(ops, whole, p0, ops.feed(p, more).parser, wire, read + |more|)
  {
    assert wire[..read] + more == wire[..read + |more|];
    assert Splits(ops, whole, p0, wire[..read], more) && Agrees(ops, whole, p, more) && Absorbs(ops, p, more);
    if read == 0 { assert wire[..read] + more == more; }
  }

  // ----- The stream as a value -----

  /** The parser with its meaning, the stream that accepted segments are meant to
      be slices of, the position of its first byte, and the parser's initial state. */
  datatype World<!S> = World(ops: ParserOps<S>, whole: Meaning<S>, wire: seq<byte>, start: int, parser0: S)

  /** The account of a run: how many bytes the stream has moved past, how many of
      them the parser skipped instead of reading, every segment offered, whether all
      of those were slices of the wire near the read point, and whether no feed has
      erred with a parser that then went on. */
  datatype Log = Log(read: nat, skipped: nat, seen: set<Segment>, inWindow: bool, clean: bool)

  datatype View<S> = View(
    parser: S, pending: Pending, pendingBytes: int, expected: int, failure: Option<string>,
    gapSince: Option<int>, lastProgress: int, log: Log)

  ghost predicate Stopped<S>(w: World<S>, v: View<S>) { v.failure.Some? || w.ops.finished(v.parser) }

  /** The pending map is bounded and counted, and fits the int32 range. */
  ghost predicate Buffered<S>(w: World<S>, v: View<S>) {
    && WellFormed(v.pending, v.pendingBytes)
    && |v.pending| <= MAX_PENDING_PARTS && v.pendingBytes <= MAX_PENDING_BYTES
    && (v.failure.Some? ==> v.pending == map[])
    && Slack(v.pending, v.expected, v.pendingBytes)
    && v.expected == Wrap(w.start + v.log.read)
    && (v.pendingBytes > 0 ==> v.gapSince.Some?)
  }

  /** What is pending are the wire's bytes at their offsets. */
  ghost predicate Located<S>(w: World<S>, v: View<S>) {
    v.log.inWindow ==> v.log.read <= |w.wire| && Placed(v.pending, v.expected, v.log.read, w.wire)
  }

  /** The parser is where one feed of all the wire's bytes so far would have put it. */
  ghost predicate Understood<S>(w: World<S>, v: View<S>) {
    v.log.inWindow && v.log.clean ==> Reached(w.ops, w.whole, w.parser0, v.parser, w.wire, v.log.read)
  }

  /** The bookkeeping, which holds at every step. */
  ghost predicate Recorded<S>(w: World<S>, v: View<S>) {
    Buffered(w, v) && Located(w, v) && Understood(w, v)
  }

  /** Between two deliveries such an error has also failed the stream. */
  ghost predicate Booked<S>(w: World<S>, v: View<S>) {
    Recorded(w, v) && (v.failure.None? ==> v.log.clean)
  }

  /** Holds throughout a drain. */
  ghost predicate Draining<S>(w: World<S>, v: View<S>) {
    && Booked(w, v)
    && (v.log.inWindow ==> Backed(v.pending, v.expected, v.log.read, v.log.seen))
    && (v.log.inWindow && !Stopped(w, v) ==>
          Tracks(v.pending, v.expected, w.start, v.log.read, v.log.seen))
  }

  /** Holds between calls: nothing deliverable waits, the parser has had the
      longest prefix that the segments cover, and the gap clock runs exactly
      while bytes wait. */
  ghost predicate Settled<S>(w: World<S>, v: View<S>) {
    && Draining(w, v)
    && (!Stopped(w, v) ==> Ahead(v.pending, v.expected) && (v.gapSince.Some? <==> v.pendingBytes > 0))
    && (!Stopped(w, v) && v.log.inWindow ==> LongestPrefix(v.log.seen, v.log.read))
  }

  /** The states themselves, so that a method can speak of one without unfolding it. */
  ghost function DrainingViews<S(!new)>(w: World<S>): iset<View<S>> { iset v: View<S> | Draining(w, v) }

  ghost function SettledViews<S(!new)>(w: World<S>): iset<View<S>> { iset v: View<S> | Settled(w, v) }

  /** What Fail does: nothing once parsing has stopped. */
  ghost function Failed<S>(w: World<S>, v: View<S>, reason: string): View<S> {
    if Stopped(w, v) then v else v.(failure := Some(reason), pending := map[], pendingBytes := 0)
  }

  /** What Push does before it looks at the parser's answer ... */
  ghost function AfterFeed<S>(w: World<S>, v: View<S>, payload: seq<byte>, now: int): View<S> {
    var r := w.ops.feed(v.parser, payload);
    v.(parser := r.parser, expected := Wrap(v.expected + |payload|), lastProgress := now,
       gapSince := if v.pendingBytes > 0 then Some(now) else v.gapSince,
       log := v.log.(read := v.log.read + |payload|,
                     clean := v.log.clean && Holds(w.ops, r)))
  }

  /** ... and after: an error fails the stream unless the parser finished with
      it, and a clean finish drops what is pending. */
  ghost function Pushed<S>(w: World<S>, v: View<S>, payload: seq<byte>, now: int): View<S> {
    var after := AfterFeed(w, v, payload, now);
    match w.ops.feed(v.parser, payload).error
    case Some(reason) => Failed(w, after, reason)
    case None => if w.ops.finished(after.parser) then after.(pending := map[], pendingBytes := 0) else after
  }

  /** `payload` holds the wire's next bytes and leaves room for the rest. */
  ghost predicate Next<S>(w: World<S>, v: View<S>, payload: seq<byte>) {
    && 0 < |payload| < HALF && Slack(v.pending, v.expected, v.pendingBytes + |payload|)
    && (v.log.inWindow ==>
          && OnWire(w.wire, v.log.read, payload)
          && Placed(v.pending, Wrap(v.expected + |payload|), v.log.read + |payload|, w.wire))
  }

  /** The account of the segments holds once `n` more bytes are delivered. */
  ghost predicate NextTracks<S>(w: World<S>, v: View<S>, n: nat) {
    v.log.inWindow ==>
      && Backed(v.pending, Wrap(v.expected + n), v.log.read + n, v.log.seen)
      && (!Stopped(w, v) ==> Tracks(v.pending, Wrap(v.expected + n), w.start, v.log.read + n, v.log.seen))
  }

  lemma FedBuffered<S>(w: World<S>, v: View<S>, payload: seq<byte>, now: int)
    requires Buffered(w, v) && Slack(v.pending, v.expected, v.pendingBytes + |payload|)
    ensures Buffered(w, AfterFeed(w, v, payload, now))
  {
    SlackAdvance(v.pending, v.expected, v.pendingBytes, |payload|);
    WrapSum(w.start + v.log.read, |payload|);
  }

  lemma FedLocated<S>(w: World<S>, v: View<S>, payload: seq<byte>, now: int)
    requires Located(w, v)
    requires v.log.inWindow ==>
               OnWire(w.wire, v.log.read, payload)
                 && Placed(v.pending, Wrap(v.expected + |payload|), v.log.read + |payload|, w.wire)
    ensures Located(w, AfterFeed(w, v, payload, now))
  {
    var after := AfterFeed(w, v, payload, now);
    if v.log.inWindow {
      assert Placed(after.pending, after.expected, after.log.read, w.wire);
    }
  }

  lemma FedUnderstood<S(!new)>(w: World<S>, v: View<S>, payload: seq<byte>, now: int)
    requires Lawful(w.ops, w.whole) && Understood(w, v) && payload != []
    requires v.log.inWindow ==> OnWire(w.wire, v.log.read, payload)
    ensures Understood(w, AfterFeed(w, v, payload, now))
  {
    if v.log.inWindow && v.log.clean && Holds(w.ops, w.ops.feed(v.parser, payload)) {
      ReachedMore(w.ops, w.whole, w.parser0, v.parser, w.wire, v.log.read, payload);
    }
  }

  /** Dropping what is pending keeps the bookkeeping, failed or not. */
  lemma ClearedKeeps<S>(w: World<S>, v: View<S>, failure: Option<string>)
    requires Recorded(w, v)
    ensures Recorded(w, v.(failure := failure, pending := map[], pendingBytes := 0))
  {
  }

  lemma PushedBooked<S(!new)>(w: World<S>, v: View<S>, payload: seq<byte>, now: int)
    requires Lawful(w.ops, w.whole) && Booked(w, v)
    requires Next(w, v, payload)
    ensures Booked(w, Pushed(w, v, payload, now))
  {
    var after, pushed := AfterFeed(w, v, payload, now), Pushed(w, v, payload, now);
    FedBuffered(w, v, payload, now);
    FedLocated(w, v, payload, now);
    FedUnderstood(w, v, payload, now);
    if pushed != after {
      ClearedKeeps(w, after, pushed.failure);
      assert pushed == after.(failure := pushed.failure, pending := map[], pendingBytes := 0);
    }
    assert Recorded(w, pushed);
    if !Stopped(w, pushed) { PushedRuns(w, v, payload, now); }
  }

  /** A stream that still runs after a push ran before it, and the push did no
      more than feed the parser. */
  lemma PushedRuns<S(!new)>(w: World<S>, v: View<S>, payload: seq<byte>, now: int)
    requires Lawful(w.ops, w.whole) && !Stopped(w, Pushed(w, v, payload, now))
    ensures !Stopped(w, v) && Pushed(w, v, payload, now) == AfterFeed(w, v, payload, now)
  {
    assert Absorbs(w.ops, v.parser, payload);
  }

  /** Delivering the next bytes of the stream keeps the invariant, given that the
      account of the segments allows for them. */
  lemma PushedKeeps<S(!new)>(w: World<S>, v: View<S>, payload: seq<byte>, now: int)
    requires Lawful(w.ops, w.whole) && Booked(w, v)
    requires Next(w, v, payload) && NextTracks(w, v, |payload|)
    ensures Draining(w, Pushed(w, v, payload, now))
  {
    var pushed := Pushed(w, v, payload, now);
    PushedBooked(w, v, payload, now);
    if !Stopped(w, pushed) {
      PushedRuns(w, v, payload, now);
      if pushed.log.inWindow {
        assert Tracks(pushed.pending, pushed.expected, w.start, pushed.log.read, pushed.log.seen);
      }
    }
  }

  /** What feeding pieces one after another leaves: an error ends it, unless the parser
      finished with that error. */
  datatype Ran<S> = Ran(parser: S, failure: Option<string>, clean: bool)

  ghost function FeedEach<S>(ops: ParserOps<S>, p: S, pieces: seq<seq<byte>>): Ran<S>
    decreases |pieces|
  {
    if pieces == [] then Ran(p, None, true)
    else
      var r := FeedEach(ops, p, pieces[..|pieces| - 1]);
      if r.failure.Some? then r
      else
        var fed := ops.feed(r.parser, pieces[|pieces| - 1]);
        Ran(fed.parser, if ops.finished(fed.parser) then None else fed.error, r.clean && Holds(ops, fed))
  }

  function Count(pieces: seq<seq<byte>>): nat
    decreases |pieces|
  {
    if pieces == [] then 0 else Count(pieces[..|pieces| - 1]) + |pieces[|pieces| - 1]|
  }

  /** `after` is the stream `v` once its parser was fed the pieces: how far it read, what
      the parser is, and whether and why it failed. */
  ghost predicate Delivered<S>(w: World<S>, v: View<S>, after: View<S>, pieces: seq<seq<byte>>) {
    var ran := FeedEach(w.ops, v.parser, pieces);
    && after.parser == ran.parser && after.failure == ran.failure
    && after.log == v.log.(read := v.log.read + Count(pieces), clean := v.log.clean && ran.clean)
  }

  lemma DeliveredNone<S>(w: World<S>, v: View<S>)
    requires v.failure.None?
    ensures Delivered(w, v, v, [])
  {
  }

  lemma FeedMore<S>(ops: ParserOps<S>, p: S, pieces: seq<seq<byte>>, piece: seq<byte>)
    ensures Count(pieces + [piece]) == Count(pieces) + |piece|
    ensures var r := FeedEach(ops, p, pieces);
            r.failure.None? ==>
              var fed := ops.feed(r.parser, piece);
              FeedEach(ops, p, pieces + [piece]) ==
              Ran(fed.parser, if ops.finished(fed.parser) then None else fed.error, r.clean && Holds(ops, fed))
  {
    assert (pieces + [piece])[..|pieces|] == pieces;
  }

  lemma DeliveredMore<S>(w: World<S>, v: View<S>, mid: View<S>, x: View<S>, pieces: seq<seq<byte>>, piece: seq<byte>,
                         now: int)
    requires Delivered(w, v, mid, pieces) && mid.failure.None?
    requires x == mid.(pending := x.pending, pendingBytes := x.pendingBytes)
    ensures Delivered(w, v, Pushed(w, x, piece, now), pieces + [piece])
    ensures |Pushed(w, x, piece, now).pending| <= |x.pending|
  {
    FeedMore(w.ops, v.parser, pieces, piece);
  }

  lemma DeliveredOne<S>(w: World<S>, v: View<S>, piece: seq<byte>, now: int)
    requires v.failure.None?
    ensures Delivered(w, v, Pushed(w, v, piece, now), [piece])
    ensures |Pushed(w, v, piece, now).pending| <= |v.pending|
  {
    DeliveredNone(w, v);
    DeliveredMore(w, v, v, v, [], piece, now);
    assert [] + [piece] == [piece];
  }

  ghost function Without<S>(v: View<S>, k: int): View<S>
    requires k in v.pending
  {
    v.(pending := v.pending - {k}, pendingBytes := v.pendingBytes - |v.pending[k]|)
  }

  lemma WithoutShrinks(pending: Pending, k: int)
    requires k in pending
    ensures |pending - {k}| == |pending| - 1
  {
    assert (pending - {k}).Keys == pending.Keys - {k};
  }

  lemma WithoutBooked<S>(w: World<S>, v: View<S>, k: int)
    requires Booked(w, v) && k in v.pending
    ensures Booked(w, Without(v, k))
  {
    SumRemove(v.pending, Length, k);
    WithoutShrinks(v.pending, k);
    assert WellFormed(v.pending - {k}, v.pendingBytes - |v.pending[k]|);
  }

  /** A drain deletes parts that are entirely behind the read point. */
  lemma DropKeeps<S>(w: World<S>, v: View<S>, k: int)
    requires Draining(w, v) && k in v.pending && Diff(k, v.expected) + |v.pending[k]| <= 0
    ensures Draining(w, Without(v, k))
  {
    var dropped := Without(v, k);
    WithoutBooked(w, v, k);
    if v.log.inWindow && !Stopped(w, v) {
      TracksDrop(v.pending, v.expected, w.start, v.log.read, v.log.seen, k);
      assert Tracks(dropped.pending, dropped.expected, w.start, dropped.log.read, dropped.log.seen);
    }
  }

  /** The bytes of a pending part from the read point on. */
  ghost function Fresh<S>(v: View<S>, k: int): seq<byte>
    requires k in v.pending && Diff(k, v.expected) <= 0 < Diff(k, v.expected) + |v.pending[k]|
  {
    v.pending[k][-Diff(k, v.expected)..]
  }

  /** Taking out one deliverable part leaves the others room to move past it. */
  lemma FreshLeaves<S>(v: View<S>, k: int)
    requires WellFormed(v.pending, v.pendingBytes) && Slack(v.pending, v.expected, v.pendingBytes)
    requires k in v.pending && Diff(k, v.expected) <= 0 < Diff(k, v.expected) + |v.pending[k]|
    ensures |Fresh(v, k)| == Diff(k, v.expected) + |v.pending[k]| <= |v.pending[k]| <= v.pendingBytes
    ensures LeavesOnly(v.pending, Without(v, k).pending, v.expected, |Fresh(v, k)|)
    ensures Slack(Without(v, k).pending, v.expected, Without(v, k).pendingBytes + |Fresh(v, k)|)
  {
    SumMember(v.pending, Length, k);
  }

  /** ... and its fresh bytes are the wire's next ones. */
  lemma FreshOnWire<S>(v: View<S>, k: int, wire: seq<byte>, read: nat)
    requires Placed(v.pending, v.expected, read, wire)
    requires k in v.pending && Diff(k, v.expected) <= 0 < Diff(k, v.expected) + |v.pending[k]|
    ensures OnWire(wire, read, Fresh(v, k))
  {
    var d := Diff(k, v.expected);
    assert OnWire(wire, read + d, v.pending[k]);
  }

  lemma DeliverNext<S>(w: World<S>, v: View<S>, k: int)
    requires Booked(w, v)
    requires k in v.pending && Diff(k, v.expected) <= 0 < Diff(k, v.expected) + |v.pending[k]|
    ensures Next(w, Without(v, k), Fresh(v, k))
  {
    FreshLeaves(v, k);
    if v.log.inWindow {
      FreshOnWire(v, k, w.wire, v.log.read);
      PlacedAdvance(v.pending, Without(v, k).pending, v.expected, v.log.read, w.wire, |Fresh(v, k)|);
    }
  }

  lemma DeliverTracks<S>(w: World<S>, v: View<S>, k: int, n: nat)
    requires k in v.pending && Diff(k, v.expected) <= 0 < n == Diff(k, v.expected) + |v.pending[k]| < HALF
    requires LeavesOnly(v.pending, Without(v, k).pending, v.expected, n)
    requires v.log.inWindow ==> Backed(v.pending, v.expected, v.log.read, v.log.seen)
    requires v.log.inWindow && !Stopped(w, v) ==> Tracks(v.pending, v.expected, w.start, v.log.read, v.log.seen)
    ensures NextTracks(w, Without(v, k), n)
  {
    if v.log.inWindow {
      BackedDeliver(v.pending, Without(v, k).pending, v.expected, v.log.read, v.log.seen, k);
      if !Stopped(w, v) {
        TracksDeliver(v.pending, Without(v, k).pending, v.expected, w.start, v.log.read, v.log.seen, k);
      }
    }
  }

  /** A drain delivers the rest of a part that reaches past the read point. */
  lemma DeliverKeeps<S(!new)>(w: World<S>, v: View<S>, k: int, now: int)
    requires Lawful(w.ops, w.whole) && Draining(w, v)
    requires k in v.pending && Diff(k, v.expected) <= 0 < Diff(k, v.expected) + |v.pending[k]|
    ensures Draining(w, Pushed(w, Without(v, k), Fresh(v, k), now))
  {
    WithoutBooked(w, v, k);
    FreshLeaves(v, k);
    DeliverNext(w, v, k);
    DeliverTracks(w, v, k, |Fresh(v, k)|);
    PushedKeeps(w, Without(v, k), Fresh(v, k), now);
  }

  /** Slack keeps a difference above the least int32, whose negation wraps. */
  lemma NotLeast<S>(w: World<S>, v: View<S>, k: int)
    requires Draining(w, v) && k in v.pending
    ensures Diff(k, v.expected) > -HALF && v.pending[k] != []
  {
  }

  /** What a drain does last: the gap clock stops when nothing waits. */
  ghost function Rested<S>(v: View<S>): View<S> {
    v.(gapSince := if v.pendingBytes == 0 then None else v.gapSince)
  }

  /** With every part ahead, the invariant between calls holds again. */
  lemma RestedSettles<S>(w: World<S>, v: View<S>)
    requires Draining(w, v) && Ahead(v.pending, v.expected)
    ensures Settled(w, Rested(v)) && Rested(v).log == v.log && Rested(v).failure == v.failure
  {
    if v.log.inWindow && !Stopped(w, v) {
      AheadIsLongest(v.pending, v.expected, w.start, v.log.read, v.log.seen);
    }
  }

  // ----- Segments that arrive -----

  /** A segment of `length` bytes, of which `captured` is the start, is a slice of
      the wire at offset `o`, and its sequence number is within half the space. */
  ghost predicate Fits<S>(w: World<S>, v: View<S>, seqno: int, captured: seq<byte>, length: nat, o: int) {
    && o >= 0 && seqno == Wrap(w.start + o)
    && -HALF < o - v.log.read && o + length - v.log.read < HALF
    && |captured| <= length && o + length <= |w.wire|
    && OnWire(w.wire, o, captured)
  }

  ghost function Judged<S>(w: World<S>, v: View<S>, seqno: int, captured: seq<byte>, length: nat, o: int): View<S> {
    v.(log := v.log.(inWindow := v.log.inWindow && Fits(w, v, seqno, captured, length, o)))
  }

  ghost function Offered<S>(v: View<S>, o: int, length: nat): View<S> {
    v.(log := v.log.(seen := v.log.seen + {Segment(o, length)}))
  }

  lemma FitsDiff<S>(w: World<S>, v: View<S>, seqno: int, captured: seq<byte>, length: nat, o: int)
    requires v.expected == Wrap(w.start + v.log.read) && Fits(w, v, seqno, captured, length, o)
    ensures Diff(seqno, v.expected) == o - v.log.read
    ensures Diff(Wrap(seqno + length), v.expected) == o + length - v.log.read
  {
    DiffExact(w.start + o, w.start + v.log.read);
    DiffExact(w.start + o + length, w.start + v.log.read);
    WrapSum(w.start + o, length);
  }

  /** Judging a segment can only withdraw the promise that all of them fit. */
  lemma JudgedKeeps<S>(w: World<S>, v: View<S>, seqno: int, captured: seq<byte>, length: nat, o: int)
    requires Settled(w, v)
    ensures Settled(w, Judged(w, v, seqno, captured, length, o))
  {
  }

  /** A segment that ends at or before the read point changes nothing. */
  lemma OldKeeps<S>(w: World<S>, v: View<S>, o: int, length: nat)
    requires Settled(w, v) && (v.log.inWindow ==> o + length <= v.log.read)
    ensures Settled(w, Offered(v, o, length))
  {
    var after := Offered(v, o, length);
    if v.log.inWindow && !Stopped(w, v) {
      TracksNote(v.pending, v.expected, w.start, v.log.read, v.log.seen, Segment(o, length));
      AheadIsLongest(v.pending, v.expected, w.start, v.log.read, after.log.seen);
      assert Tracks(after.pending, after.expected, w.start, after.log.read, after.log.seen);
    }
  }

  /** The gap clock starts with the first byte that waits. */
  ghost function Waiting<S>(v: View<S>, now: int): View<S> {
    v.(gapSince := if v.gapSince.None? then Some(now) else v.gapSince)
  }

  /** What Add does with a segment that starts past the read point. */
  ghost function Queued<S>(v: View<S>, seqno: int, payload: seq<byte>, now: int): View<S> {
    var waiting := Waiting(v, now);
    if seqno !in v.pending then
      waiting.(pending := v.pending[seqno := payload], pendingBytes := v.pendingBytes + |payload|)
    else if |v.pending[seqno]| >= |payload| then
      waiting
    else
      waiting.(pending := v.pending[seqno := payload], pendingBytes := v.pendingBytes - |v.pending[seqno]| + |payload|)
  }

  ghost predicate LimitHit<S>(v: View<S>, length: nat) {
    |v.pending| >= 64 || v.pendingBytes + length > 65536
  }

  lemma QueuedBuffered<S>(w: World<S>, v: View<S>, seqno: int, payload: seq<byte>, now: int)
    requires Buffered(w, v) && Ahead(v.pending, v.expected) && v.failure.None?
    requires payload != [] && Diff(seqno, v.expected) > 0 && !LimitHit(v, |payload|)
    ensures var q := Queued(v, seqno, payload, now);
            Buffered(w, q) && Ahead(q.pending, q.expected) && q.gapSince.Some? && q.pendingBytes > 0
  {
    var q := Queued(v, seqno, payload, now);
    if q.pending != v.pending || q.pendingBytes != v.pendingBytes {
      StoreCounts(v.pending, v.pendingBytes, seqno, payload);
    } else {
      SumMember(v.pending, Length, seqno);
    }
    assert Ahead(q.pending, q.expected);
    AheadLeavesSlack(q.pending, q.expected, q.pendingBytes);
  }

  lemma QueuedLocated<S>(w: World<S>, v: View<S>, seqno: int, payload: seq<byte>, now: int, o: int)
    requires v.expected == Wrap(w.start + v.log.read) && Located(w, v)
    requires v.log.inWindow ==> Fits(w, v, seqno, payload, |payload|, o)
    ensures Located(w, Queued(v, seqno, payload, now))
  {
    if v.log.inWindow { FitsDiff(w, v, seqno, payload, |payload|, o); }
  }

  lemma QueuedTracks<S>(w: World<S>, v: View<S>, seqno: int, payload: seq<byte>, now: int, o: int)
    requires Tracks(v.pending, v.expected, w.start, v.log.read, v.log.seen)
    requires Fits(w, v, seqno, payload, |payload|, o) && Diff(seqno, v.expected) > 0
    ensures var seen := v.log.seen + {Segment(o, |payload|)};
            Tracks(Queued(v, seqno, payload, now).pending, v.expected, w.start, v.log.read, seen)
  {
    FitsDiff(w, v, seqno, payload, |payload|, o);
    if seqno in v.pending && |v.pending[seqno]| >= |payload| {
      TracksNote(v.pending, v.expected, w.start, v.log.read, v.log.seen, Segment(o, |payload|));
    } else {
      TracksStore(v.pending, v.expected, w.start, v.log.read, v.log.seen, o, payload);
    }
  }

  /** Queueing a segment keeps the invariant. */
  lemma QueuedKeeps<S>(w: World<S>, v: View<S>, seqno: int, payload: seq<byte>, now: int, o: int)
    requires Settled(w, v) && !Stopped(w, v)
    requires payload != [] && Diff(seqno, v.expected) > 0 && !LimitHit(v, |payload|)
    requires v.log.inWindow ==> Fits(w, v, seqno, payload, |payload|, o)
    ensures Settled(w, Offered(Queued(v, seqno, payload, now), o, |payload|))
  {
    var q := Queued(v, seqno, payload, now);
    var after := Offered(q, o, |payload|);
    QueuedBuffered(w, v, seqno, payload, now);
    QueuedLocated(w, v, seqno, payload, now, o);
    assert Buffered(w, after) && Located(w, after) && Understood(w, after);
    if v.log.inWindow {
      QueuedTracks(w, v, seqno, payload, now, o);
      assert Tracks(after.pending, after.expected, w.start, after.log.read, after.log.seen);
      AheadIsLongest(after.pending, after.expected, w.start, after.log.read, after.log.seen);
    }
  }

  /** `n` more bytes can be delivered: they leave every pending part in range. */
  ghost predicate Room<S>(v: View<S>, n: nat) {
    Slack(v.pending, v.expected, v.pendingBytes + n) && LeavesOnly(v.pending, v.pending, v.expected, n)
  }

  lemma SettledRoom<S>(w: World<S>, v: View<S>, n: nat)
    requires Settled(w, v) && !Stopped(w, v) && n <= HALF - MAX_PENDING_BYTES
    ensures Room(v, n)
  {
    AheadLeavesSlack(v.pending, v.expected, v.pendingBytes + n);
    AheadLeavesSlack(v.pending, v.expected, n);
  }

  lemma ArrivedNext<S>(w: World<S>, v: View<S>, more: seq<byte>)
    requires Draining(w, v) && more != [] && Room(v, |more|) && |more| < HALF
    requires v.log.inWindow ==> OnWire(w.wire, v.log.read, more)
    ensures Next(w, v, more)
  {
    if v.log.inWindow { PlacedAdvance(v.pending, v.pending, v.expected, v.log.read, w.wire, |more|); }
  }

  lemma ArrivedTracks<S>(w: World<S>, v: View<S>, n: nat, o: int, length: nat)
    requires Draining(w, v) && Room(v, n) && n < HALF
    requires v.log.inWindow ==> o <= v.log.read && o + length == v.log.read + n
    ensures NextTracks(w, Offered(v, o, length), n)
  {
    if v.log.inWindow {
      BackedAdvance(v.pending, v.pending, v.expected, v.log.read, v.log.seen, Segment(o, length), n);
      if !Stopped(w, v) {
        TracksAdvance(v.pending, v.pending, v.expected, w.start, v.log.read, v.log.seen, Segment(o, length), n);
      }
    }
  }

  lemma OfferedBooked<S>(w: World<S>, v: View<S>, o: int, length: nat)
    requires Booked(w, v)
    ensures Booked(w, Offered(v, o, length))
  {
  }

  /** Delivering the part of a segment past the read point keeps the invariant. */
  lemma ArrivedKeeps<S(!new)>(w: World<S>, v: View<S>, more: seq<byte>, o: int, length: nat, now: int)
    requires Lawful(w.ops, w.whole) && Draining(w, v) && more != [] && Room(v, |more|) && |more| < HALF
    requires v.log.inWindow ==>
               o <= v.log.read && o + length == v.log.read + |more| && OnWire(w.wire, v.log.read, more)
    ensures Draining(w, Pushed(w, Offered(v, o, length), more, now))
  {
    OfferedBooked(w, v, o, length);
    ArrivedNext(w, v, more);
    ArrivedTracks(w, v, |more|, o, length);
    PushedKeeps(w, Offered(v, o, length), more, now);
  }

  /** What AddSegment does once the parser has skipped `n` uncaptured bytes. */
  ghost function Skipped<S>(v: View<S>, n: nat, parser: S): View<S> {
    v.(parser := parser, expected := Wrap(v.expected + n),
       log := v.log.(read := v.log.read + n, skipped := v.log.skipped + n,
         seen := v.log.seen + {Segment(v.log.read, n)}))
  }

  lemma SkippedUnderstood<S(!new)>(w: World<S>, v: View<S>, n: nat, parser: S)
    requires Lawful(w.ops, w.whole) && Understood(w, v) && w.ops.skip(v.parser, n) == Some(parser) && n > 0
    requires v.log.inWindow ==> v.log.read + n <= |w.wire|
    ensures Understood(w, Skipped(v, n, parser))
  {
    if v.log.inWindow && v.log.clean {
      var missing := w.wire[v.log.read..v.log.read + n];
      assert SkipFeeds(w.ops, v.parser, missing);
      ReachedMore(w.ops, w.whole, w.parser0, v.parser, w.wire, v.log.read, missing);
    }
  }

  /** Skipping uncaptured bytes leaves the stream as a full capture would have. */
  lemma SkippedKeeps<S(!new)>(w: World<S>, v: View<S>, n: nat, parser: S)
    requires Lawful(w.ops, w.whole) && Draining(w, v) && !Stopped(w, v)
    requires w.ops.skip(v.parser, n) == Some(parser) && 0 < n < HALF && Room(v, n)
    requires v.log.inWindow ==> v.log.read + n <= |w.wire|
    ensures Draining(w, Skipped(v, n, parser))
  {
    var after := Skipped(v, n, parser);
    SkippedUnderstood(w, v, n, parser);
    SlackAdvance(v.pending, v.expected, v.pendingBytes, n);
    WrapSum(w.start + v.log.read, n);
    assert Buffered(w, after);
    if v.log.inWindow {
      PlacedAdvance(v.pending, v.pending, v.expected, v.log.read, w.wire, n);
      TracksAdvance(v.pending, v.pending, v.expected, w.start, v.log.read, v.log.seen, Segment(v.log.read, n), n);
      assert Tracks(after.pending, after.expected, w.start, after.log.read, after.log.seen);
    }
    assert Located(w, after);
  }

  /** Room for more bytes than are pushed leaves room for the rest. */
  lemma RoomAfterPush<S(!new)>(w: World<S>, v: View<S>, payload: seq<byte>, now: int, n: nat)
    requires Lawful(w.ops, w.whole) && Buffered(w, v) && Room(v, |payload| + n)
             && !Stopped(w, Pushed(w, v, payload, now))
    ensures Room(Pushed(w, v, payload, now), n)
  {
    var after := Pushed(w, v, payload, now);
    PushedRuns(w, v, payload, now);
    SlackAdvance(v.pending, v.expected, v.pendingBytes + n, |payload|);
    forall k | k in v.pending ensures Diff(k, after.expected) - n > -HALF {
      assert Diff(k, v.expected) - (|payload| + n) > -HALF;
      DiffShift(k, v.expected, |payload|);
    }
  }

  ghost function Enqueued<S>(w: World<S>, v: View<S>, seqno: int, payload: seq<byte>, now: int): View<S> {
    if LimitHit(v, |payload|) then Failed(w, Waiting(v, now), "TCP reassembly limit")
    else Queued(v, seqno, payload, now)
  }

  lemma EnqueuedKeeps<S>(w: World<S>, v: View<S>, seqno: int, payload: seq<byte>, now: int, o: int)
    requires Settled(w, v) && !Stopped(w, v) && payload != [] && Diff(seqno, v.expected) > 0
    requires v.log.inWindow ==> Fits(w, v, seqno, payload, |payload|, o)
    ensures Settled(w, Enqueued(w, Offered(v, o, |payload|), seqno, payload, now))
  {
    if LimitHit(v, |payload|) {
      FailedSettles(w, v, o, |payload|, Waiting(v, now).gapSince, "TCP reassembly limit");
      assert Enqueued(w, Offered(v, o, |payload|), seqno, payload, now)
          == Failed(w, Offered(v.(gapSince := Waiting(v, now).gapSince), o, |payload|), "TCP reassembly limit");
    } else {
      QueuedKeeps(w, v, seqno, payload, now, o);
      assert Enqueued(w, Offered(v, o, |payload|), seqno, payload, now)
             == Offered(Queued(v, seqno, payload, now), o, |payload|);
    }
  }

  lemma OldSettles<S>(w: World<S>, v: View<S>, seqno: int, payload: seq<byte>, o: int)
    requires Settled(w, v) && Diff(seqno, v.expected) + |payload| <= 0
    requires v.log.inWindow ==> Fits(w, v, seqno, payload, |payload|, o)
    ensures Settled(w, Offered(v, o, |payload|))
  {
    if v.log.inWindow { FitsDiff(w, v, seqno, payload, |payload|, o); }
    OldKeeps(w, v, o, |payload|);
  }

  /** The segment once it is noted. */
  ghost function Noted<S>(w: World<S>, v: View<S>, seqno: int, payload: seq<byte>, o: int): View<S> {
    Offered(Judged(w, v, seqno, payload, |payload|, o), o, |payload|)
  }

  /** What one accepted segment does. Past the read point it waits, or hits a limit. One
      that ends at or before it is only noted. Any other is fed to the parser from the
      read point on, and then whatever it unblocked. */
  ghost predicate Admits<S>(w: World<S>, v: View<S>, after: View<S>, seqno: int, payload: seq<byte>, now: int, o: int,
                            pieces: seq<seq<byte>>) {
    var noted, d := Noted(w, v, seqno, payload, o), Diff(seqno, v.expected);
    if d > 0 then pieces == [] && after == Enqueued(w, noted, seqno, payload, now)
    else if d + |payload| <= 0 then pieces == [] && after == noted
    else pieces != [] && pieces[0] == Tail(v, seqno, payload) && Delivered(w, noted, after, pieces)
  }

  lemma CountAtLeast(pieces: seq<seq<byte>>)
    requires pieces != []
    ensures Count(pieces) >= |pieces[0]|
    decreases |pieces|
  {
    if |pieces| > 1 { CountAtLeast(pieces[..|pieces| - 1]); }
  }

  /** So an accepted segment is noted once and skips nothing, and the read point never
      moves back and passes the segment unless that waits. The stream stops if and only
      if a limit is hit, a feed errs, or the parser finishes. */
  lemma AdmitsMeans<S>(w: World<S>, v: View<S>, after: View<S>, seqno: int, payload: seq<byte>, now: int, o: int,
                       pieces: seq<seq<byte>>)
    requires !Stopped(w, v) && Admits(w, v, after, seqno, payload, now, o, pieces)
    ensures after.log.seen == v.log.seen + {Segment(o, |payload|)} && after.log.skipped == v.log.skipped
    ensures after.log.inWindow == (v.log.inWindow && Fits(w, v, seqno, payload, |payload|, o))
    ensures var d := Diff(seqno, v.expected);
            && after.log.read >= v.log.read + (if d > 0 || d + |payload| <= 0 then 0 else d + |payload|)
            && (d > 0 ==> after.log.read == v.log.read && after.parser == v.parser)
    ensures var ran, limit := FeedEach(w.ops, v.parser, pieces), Diff(seqno, v.expected) > 0 && LimitHit(v, |payload|);
            && after.parser == ran.parser
            && after.failure == (if limit then Some("TCP reassembly limit") else ran.failure)
            && (Stopped(w, after) <==> limit || ran.failure.Some? || w.ops.finished(ran.parser))
  {
    if pieces != [] { CountAtLeast(pieces); }
  }

  /** Once failed, a stream holds nothing and stays settled. */
  lemma FailedSettles<S>(w: World<S>, v: View<S>, o: int, length: nat, gap: Option<int>, reason: string)
    requires Settled(w, v) && (v.pendingBytes > 0 ==> gap.Some?)
    ensures Stopped(w, v) || Settled(w, Failed(w, Offered(v.(gapSince := gap), o, length), reason))
  {
    var after := Failed(w, Offered(v.(gapSince := gap), o, length), reason);
    if !Stopped(w, v) {
      assert Buffered(w, after) && Located(w, after) && Understood(w, after);
    }
  }

  lemma FailedDrains<S>(w: World<S>, v: View<S>, reason: string)
    requires Draining(w, v)
    ensures Stopped(w, v) || Settled(w, Failed(w, v, reason))
  {
    if !Stopped(w, v) { ClearedKeeps(w, v, Some(reason)); }
  }

  /** The bytes of a segment past the read point. */
  ghost function Tail<S>(v: View<S>, seqno: int, payload: seq<byte>): seq<byte>
    requires Diff(seqno, v.expected) <= 0 <= Diff(seqno, v.expected) + |payload|
  {
    payload[-Diff(seqno, v.expected)..]
  }

  /** A segment that reaches past the read point is delivered at once. */
  lemma TailKeeps<S(!new)>(w: World<S>, v: View<S>, seqno: int, payload: seq<byte>, o: int, now: int)
    requires Lawful(w.ops, w.whole) && Settled(w, v) && !Stopped(w, v) && |payload| <= HALF - MAX_PENDING_BYTES
    requires Diff(seqno, v.expected) <= 0 < Diff(seqno, v.expected) + |payload|
    requires v.log.inWindow ==> Fits(w, v, seqno, payload, |payload|, o)
    ensures Draining(w, Pushed(w, Offered(v, o, |payload|), Tail(v, seqno, payload), now))
  {
    SettledRoom(w, v, |Tail(v, seqno, payload)|);
    if v.log.inWindow { FitsDiff(w, v, seqno, payload, |payload|, o); }
    ArrivedKeeps(w, v, Tail(v, seqno, payload), o, |payload|, now);
  }

  lemma TailReady<S(!new)>(w: World<S>, v: View<S>, seqno: int, payload: seq<byte>, o: int, now: int)
    requires Lawful(w.ops, w.whole) && v in SettledViews(w) && !Stopped(w, v) && |payload| <= HALF - MAX_PENDING_BYTES
    requires Diff(seqno, v.expected) <= 0 < Diff(seqno, v.expected) + |payload|
    requires v.log.inWindow ==> Fits(w, v, seqno, payload, |payload|, o)
    ensures var x, tail := Offered(v, o, |payload|), Tail(v, seqno, payload);
            Pushed(w, x, tail, now) in DrainingViews(w) && Delivered(w, x, Pushed(w, x, tail, now), [tail])
  {
    TailKeeps(w, v, seqno, payload, o, now);
    DeliveredOne(w, Offered(v, o, |payload|), Tail(v, seqno, payload), now);
  }

  lemma StoppedSettles<S>(w: World<S>, v: View<S>)
    requires Draining(w, v) && Stopped(w, v)
    ensures Settled(w, v)
  {
  }

  /** The captured start of a truncated segment at the read point. */
  ghost function Captured<S>(w: World<S>, v: View<S>, prefix: seq<byte>, o: int, now: int): View<S> {
    if prefix == [] then v else Pushed(w, Offered(v, o, |prefix|), prefix, now)
  }

  lemma CapturedKeeps<S(!new)>(w: World<S>, v: View<S>, seqno: int, prefix: seq<byte>, n: nat, o: int, now: int)
    requires Lawful(w.ops, w.whole) && Settled(w, v) && !Stopped(w, v) && |prefix| + n <= HALF - MAX_PENDING_BYTES
    requires seqno == v.expected && (v.log.inWindow ==> Fits(w, v, seqno, prefix, |prefix| + n, o))
    ensures Draining(w, Captured(w, v, prefix, o, now))
    ensures v.log.inWindow ==> v.log.read + |prefix| + n <= |w.wire|
  {
    if v.log.inWindow { FitsDiff(w, v, seqno, prefix, |prefix| + n, o); }
    if prefix != [] {
      assert Tail(v, seqno, prefix) == prefix;
      TailKeeps(w, v, seqno, prefix, o, now);
    }
  }

  lemma CapturedRuns<S(!new)>(w: World<S>, v: View<S>, prefix: seq<byte>, n: nat, o: int, now: int)
    requires Lawful(w.ops, w.whole) && Settled(w, v) && !Stopped(w, v) && |prefix| + n <= HALF - MAX_PENDING_BYTES
    ensures var after := Captured(w, v, prefix, o, now);
            && after.log == v.log.(read := v.log.read + |prefix|, clean := after.log.clean, seen := after.log.seen)
            && (!Stopped(w, after) ==> Room(after, n))
  {
    SettledRoom(w, v, |prefix| + n);
    if prefix != [] {
      var x := Offered(v, o, |prefix|);
      if !Stopped(w, Pushed(w, x, prefix, now)) {
        assert Buffered(w, x) && Room(x, |prefix| + n);
        RoomAfterPush(w, x, prefix, now, n);
      }
    }
  }

  lemma CapturedReady<S(!new)>(w: World<S>, v: View<S>, seqno: int, prefix: seq<byte>, n: nat, o: int, now: int)
    requires Lawful(w.ops, w.whole) && v in SettledViews(w) && !Stopped(w, v) && seqno == v.expected
    requires |prefix| + n <= HALF - MAX_PENDING_BYTES
    ensures var after := Captured(w, Judged(w, v, seqno, prefix, |prefix| + n, o), prefix, o, now);
            && after in DrainingViews(w) && (!Stopped(w, after) ==> Room(after, n))
            && (after.log.inWindow ==> after.log.read + n <= |w.wire|)
  {
    var judged := Judged(w, v, seqno, prefix, |prefix| + n, o);
    JudgedKeeps(w, v, seqno, prefix, |prefix| + n, o);
    CapturedKeeps(w, judged, seqno, prefix, n, o, now);
    CapturedRuns(w, judged, prefix, n, o, now);
  }

  /** What a truncated segment does after its captured start was read: unless the stream
      stopped, the parser skips the rest or the stream fails, and what that unblocked is
      fed to the parser. */
  ghost predicate SkipsRest<S>(w: World<S>, mid: View<S>, after: View<S>, n: nat, pieces: seq<seq<byte>>) {
    if Stopped(w, mid) then after == mid && pieces == []
    else
      match w.ops.skip(mid.parser, n)
      case None => after == Failed(w, mid, "TCP payload capture truncated") && pieces == []
      case Some(p) => Delivered(w, Skipped(mid, n, p), after, pieces)
  }

  ghost function SkipsRests<S(!new)>(w: World<S>, mid: View<S>, n: nat, pieces: seq<seq<byte>>): iset<View<S>> {
    iset after: View<S> | SkipsRest(w, mid, after, n, pieces)
  }

  /** What a truncated segment does: an old one is noted, one that is not next fails the
      stream, and the next one is read as far as it was captured and skipped beyond. */
  ghost predicate AdmitsTruncated<S(!new)>(w: World<S>, v: View<S>, after: View<S>, seqno: int, prefix: seq<byte>,
                                           length: nat, now: int, o: int, pieces: seq<seq<byte>>)
    requires |prefix| < length
  {
    var judged := Judged(w, v, seqno, prefix, length, o);
    if Diff(Wrap(seqno + length), v.expected) <= 0 then after == Offered(judged, o, length) && pieces == []
    else if seqno != v.expected then after == Failed(w, judged, "TCP payload capture truncated") && pieces == []
    else after in SkipsRests(w, Captured(w, judged, prefix, o, now), length - |prefix|, pieces)
  }

  /** So the next truncated segment stops the stream if and only if its captured start
      does, the parser cannot skip the rest, or what follows errs or finishes; and
      otherwise exactly the uncaptured bytes are skipped. */
  lemma TruncatedMeans<S(!new)>(w: World<S>, v: View<S>, after: View<S>, prefix: seq<byte>, length: nat, now: int,
                                o: int, pieces: seq<seq<byte>>)
    requires !Stopped(w, v) && |prefix| < length && Diff(Wrap(v.expected + length), v.expected) > 0
    requires AdmitsTruncated(w, v, after, v.expected, prefix, length, now, o, pieces)
    ensures var n, first := length - |prefix|, FeedEach(w.ops, v.parser, if prefix == [] then [] else [prefix]);
            var skip := if first.failure.Some? || w.ops.finished(first.parser) then None
              else w.ops.skip(first.parser, n);
            if skip.None? then
              && Stopped(w, after) && after.log.skipped == v.log.skipped && after.parser == first.parser
              && after.failure == (if first.failure.Some? || w.ops.finished(first.parser) then first.failure
                                   else Some("TCP payload capture truncated"))
            else
              var ran := FeedEach(w.ops, skip.value, pieces);
              && after.parser == ran.parser && after.failure == ran.failure
              && after.log.skipped == v.log.skipped + n && after.log.read == v.log.read + length + Count(pieces)
  {
    var judged := Judged(w, v, v.expected, prefix, length, o);
    if prefix != [] { CapturedFeeds(w, judged, prefix, o, now); }
  }

  /** A truncated segment that is not the next one gives the parser nothing. An old one
      leaves the stream as it is, and any other, past a gap or over what was read, makes
      it fail. */
  lemma TruncatedElsewhere<S(!new)>(w: World<S>, v: View<S>, after: View<S>, seqno: int, prefix: seq<byte>, length: nat,
                                    now: int, o: int, pieces: seq<seq<byte>>)
    requires !Stopped(w, v) && |prefix| < length && seqno != v.expected
    requires AdmitsTruncated(w, v, after, seqno, prefix, length, now, o, pieces)
    ensures pieces == [] && after.parser == v.parser && after.expected == v.expected && after.log.read == v.log.read
    ensures if Diff(Wrap(seqno + length), v.expected) <= 0
            then after.failure == v.failure && after.pending == v.pending && !Stopped(w, after)
            else after.failure == Some("TCP payload capture truncated") && after.pending == map[] && Stopped(w, after)
  {
  }

  lemma CapturedFeeds<S>(w: World<S>, v: View<S>, prefix: seq<byte>, o: int, now: int)
    requires !Stopped(w, v) && prefix != []
    ensures Delivered(w, Offered(v, o, |prefix|), Captured(w, v, prefix, o, now), [prefix])
  {
    DeliveredOne(w, Offered(v, o, |prefix|), prefix, now);
  }

  // ----- What a whole run promises -----

  /** A parser that finished early holds what any longer read of the wire gives. */
  lemma FinishedIsFinal<S(!new)>(w: World<S>, u: View<S>, v: View<S>)
    requires Lawful(w.ops, w.whole)
    requires Settled(w, u) && u.log.inWindow && u.log.clean && w.ops.finished(u.parser)
    requires Settled(w, v) && v.log.inWindow && v.log.clean
    requires u.log.read <= v.log.read
    ensures u.parser == v.parser
  {
    var a, b := w.wire[..u.log.read], w.wire[u.log.read..v.log.read];
    assert a + b == w.wire[..v.log.read];
    assert Splits(w.ops, w.whole, w.parser0, a, b) && Absorbs(w.ops, u.parser, b);
    assert Agrees(w.ops, w.whole, u.parser, b);
    if a == [] { assert a + b == b; }
  }

  /** What was read lies within what another running stream saw only if that one read it. */
  lemma BackedIsRead<S>(w: World<S>, u: View<S>, v: View<S>)
    requires Settled(w, u) && u.log.inWindow && Settled(w, v) && v.log.inWindow && !Stopped(w, v)
    requires Union(u.log.seen) <= Union(v.log.seen)
    ensures u.log.read <= v.log.read
  {
    assert u.log.read > v.log.read ==> v.log.read in Below(u.log.read);
  }

  /** A stream whose segments all fit and that did not fail, running or finished. */
  ghost predicate Sound<S>(w: World<S>, v: View<S>) {
    Settled(w, v) && v.failure.None? && v.log.inWindow
  }

  /** Two streams over one wire that saw the same stretches of it leave the same parser,
      and while they run they read equally far, whatever the order, overlaps, duplicates,
      sequence wraps and map iterations of either run. A stream whose parser finished
      notes no more segments, and what it then missed makes no difference. */
  lemma {:induction false} ArrivalOrderIrrelevant<S(!new)>(w: World<S>, u: View<S>, v: View<S>)
    requires Lawful(w.ops, w.whole) && Sound(w, u) && Sound(w, v)
    requires w.ops.finished(u.parser) || Union(v.log.seen) <= Union(u.log.seen)
    requires w.ops.finished(v.parser) || Union(u.log.seen) <= Union(v.log.seen)
    ensures u.parser == v.parser
    ensures !w.ops.finished(u.parser) ==> u.log.read == v.log.read && u.expected == v.expected
  {
    if !w.ops.finished(v.parser) { BackedIsRead(w, u, v); }
    if !w.ops.finished(u.parser) { BackedIsRead(w, v, u); }
    if w.ops.finished(u.parser) && u.log.read <= v.log.read {
      FinishedIsFinal(w, u, v);
    } else if w.ops.finished(v.parser) && v.log.read <= u.log.read {
      FinishedIsFinal(w, v, u);
    }
  }

  lemma LeastDiff(o: int, read: int, start: int)
    ensures Diff(Wrap(start + o), Wrap(start + read)) == -HALF <==> (o - read) % WORD == HALF
  {
    var d := Diff(Wrap(start + o), Wrap(start + read));
    var turns := DiffTurns(start + o, start + read);
    if d < 0 { ModOf(o - read, turns - 1, d + WORD); } else { ModOf(o - read, turns, d); }
  }

  /** The slice offset int(-d) of a segment that starts at or before the read point of a
      running or draining stream is in range, and leaves the bytes past the read point,
      if and only if the segment is not 2^31 behind. No part that waits ever is. */
  lemma OverlapInRange<S>(w: World<S>, v: View<S>, seqno: int, payload: seq<byte>, o: int)
    requires Draining(w, v) && seqno == Wrap(w.start + o) && Diff(seqno, v.expected) <= 0
    ensures var offset, d := Negated(Diff(seqno, v.expected)), Diff(seqno, v.expected);
            && (offset >= 0 <==> (o - v.log.read) % WORD != HALF)
            && (offset >= 0 ==> (offset >= |payload| <==> d + |payload| <= 0))
            && (0 <= offset < |payload| ==> payload[offset..] == Tail(v, seqno, payload))
    ensures forall k :: k in v.pending ==> Negated(Diff(k, v.expected)) == -Diff(k, v.expected)
  {
    LeastDiff(o, v.log.read, w.start);
    forall k | k in v.pending ensures Negated(Diff(k, v.expected)) == -Diff(k, v.expected) { NotLeast(w, v, k); }
  }

  /** It happens on the first segment of any stream. */
  lemma HalfTheSpaceBehind<S>(w: World<S>, now: int)
    ensures var v := View(w.parser0, map[], 0, Wrap(w.start), None, None, now, Log(0, 0, {}, true, true));
            Settled(w, v) && Negated(Diff(Wrap(w.start - HALF), v.expected)) == -HALF
  {
    LeastDiff(-HALF, 0, w.start);
    assert Below(0) <= Union({}) && 0 !in Union({});
  }

  /** One direction of one TCP connection. */
  class Stream<S(!new)> {
    const ops: ParserOps<S>
    var parser: S
    var pending: Pending
    var pendingBytes: int
    var expected: int
    var failure: Option<string>
    var gapSince: Option<int>
    var lastProgress: int

    ghost const whole: Meaning<S>
    ghost const wire: seq<byte>
    ghost const start: int
    ghost const parser0: S
    ghost var log: Log

    ghost function W(): World<S> { World(ops, whole, wire, start, parser0) }

    ghost function V(): View<S>
      reads this
    {
      View(parser, pending, pendingBytes, expected, failure, gapSince, lastProgress, log)
    }

    ghost predicate Valid()
      reads this
    {
      Lawful(ops, whole) && V() in SettledViews(W())
    }

    constructor (ops: ParserOps<S>, parser: S, initialSeq: uint32, now: int,
                 ghost whole: Meaning<S>, ghost wire: seq<byte>, ghost start: int)
      requires Lawful(ops, whole) && Wrap(start) == initialSeq
      ensures Valid() && W() == World(ops, whole, wire, start, parser)
      ensures V() == View(parser, map[], 0, initialSeq, None, None, now, Log(0, 0, {}, true, true))
    {
      this.ops, this.parser, this.expected := ops, parser, initialSeq;
      this.pending, this.pendingBytes, this.failure := map[], 0, None;
      this.gapSince, this.lastProgress := None, now;
      this.whole, this.wire, this.start, this.parser0 := whole, wire, start, parser;
      this.log := Log(0, 0, {}, true, true);
    }

    /** Records why parsing stopped, unless it already had. */
    method Fail(reason: string)
      modifies this
      ensures V() == Failed(W(), old(V()), reason)
    {
      if failure.Some? || ops.finished(parser) {
        return;
      }
      failure := Some(reason);
      pending, pendingBytes := map[], 0;
    }

    /** Delivers bytes that continue the stream to the parser. */
    method Push(payload: seq<byte>, now: int)
      modifies this
      ensures V() == Pushed(W(), old(V()), payload, now)
    {
      expected := Wrap(expected + |payload|);
      lastProgress := now;
      if pendingBytes > 0 {
        gapSince := Some(now);
      }
      var r := ops.feed(parser, payload);
      parser := r.parser;
      log := log.(read := log.read + |payload|, clean := log.clean && Holds(ops, r));
      if r.error.Some? {
        Fail(r.error.value);
      } else if ops.finished(parser) {
        pending, pendingBytes := map[], 0;
      }
    }

    /** Finds a pending part that reaches past the read point, in whatever order
        the map yields them, and deletes the ones it meets that fell behind. */
    method NextPart() returns (chosen: Option<int>, ghost v: View<S>)
      requires V() in DrainingViews(W())
      modifies this`pending, this`pendingBytes
      ensures v == V() && v in DrainingViews(W()) && |pending| <= old(|pending|)
      ensures v == old(V()).(pending := v.pending, pendingBytes := v.pendingBytes)
      ensures chosen.Some? ==>
                chosen.value in v.pending &&
                -HALF < Diff(chosen.value, v.expected) <= 0 < Diff(chosen.value, v.expected) + |v.pending[chosen.value]|
      ensures chosen.None? ==> Ahead(v.pending, v.expected)
    {
      var todo := pending.Keys;
      v := V();
      while todo != {}
        invariant v == V() && v in DrainingViews(W()) && |pending| <= old(|pending|)
        invariant todo <= pending.Keys
        invariant forall k {:trigger Diff(k, expected)} :: k in pending && k !in todo ==> Diff(k, expected) > 0
        decreases |todo|
      {
        ghost var some := Member(todo);
        var k :| k in todo;
        var d := Diff(k, expected);
        NotLeast(W(), v, k);
        if d <= 0 && Negated(d) < |pending[k]| {
          return Some(k), v;
        }
        if d < 0 && Negated(d) >= |pending[k]| {
          DropKeeps(W(), v, k);
          WithoutShrinks(pending, k);
          v := Without(v, k);
          pending, pendingBytes := pending - {k}, pendingBytes - |pending[k]|;
        }
        todo := todo - {k};
      }
      return None, v;
    }

    /** Delivers the pending parts that became contiguous. Since `origin` the parser has
        been fed `before`, and then is fed the rest of `pieces`. */
    method Drain(now: int, ghost start: View<S>, ghost origin: View<S>, ghost before: seq<seq<byte>>)
      returns (ghost pieces: seq<seq<byte>>)
      requires Lawful(ops, whole) && start == V() && start in DrainingViews(W())
      requires Delivered(W(), origin, start, before)
      modifies this
      ensures Valid() && before <= pieces && Delivered(W(), origin, V(), pieces)
    {
      ghost var v := start;
      pieces := before;
      while failure.None?
        invariant v == V() && v in DrainingViews(W())
        invariant before <= pieces && Delivered(W(), origin, v, pieces)
        decreases |pending|, failure.None?
      {
        var chosen, found := NextPart();
        if chosen.None? {
          RestedSettles(W(), found);
          if pendingBytes == 0 {
            gapSince := None;
          }
          assert V() == Rested(found);
          return;
        }
        DeliverKeeps(W(), found, chosen.value, now);
        WithoutShrinks(found.pending, chosen.value);
        DeliveredMore(W(), origin, v, Without(found, chosen.value), pieces, Fresh(found, chosen.value), now);
        pieces := pieces + [Fresh(found, chosen.value)];
        Deliver(chosen.value, now);
        v := Pushed(W(), Without(found, chosen.value), Fresh(found, chosen.value), now);
      }
    }

    /** Takes one pending part out and delivers its bytes past the read point. */
    method Deliver(k: int, now: int)
      requires k in pending && -HALF < Diff(k, expected) <= 0 < Diff(k, expected) + |pending[k]|
      modifies this
      ensures V() == Pushed(W(), Without(old(V()), k), Fresh(old(V()), k), now)
    {
      var part, d := pending[k], Diff(k, expected);
      pending, pendingBytes := pending - {k}, pendingBytes - |part|;
      Push(part[Negated(d)..], now);
    }

    /** Accepts TCP payload by its sequence number. The segment must not lie exactly
        2^31 behind the read point, where the negated difference wraps and the
        source's slice panics, and must be short enough for the int32 arithmetic.
        `o` is the wire offset that the segment is meant to start at. */
    method Add(seqno: uint32, payload: seq<byte>, now: int, ghost o: int) returns (ghost pieces: seq<seq<byte>>)
      requires Valid() && |payload| <= HALF - MAX_PENDING_BYTES
      requires Stopped(W(), V()) || payload == [] || Diff(seqno, expected) != -HALF
      modifies this
      ensures Valid()
      ensures if old(Stopped(W(), V())) || payload == [] then V() == old(V())
              else Admits(W(), old(V()), V(), seqno, payload, now, o, pieces)
    {
      pieces := [];
      if failure.Some? || ops.finished(parser) || |payload| == 0 {
        return;
      }
      ghost var w, v := W(), Judged(W(), V(), seqno, payload, |payload|, o);
      JudgedKeeps(w, V(), seqno, payload, |payload|, o);
      log := v.log;
      assert V() == v;
      var d := Diff(seqno, expected);
      if d > 0 {
        EnqueuedKeeps(w, v, seqno, payload, now, o);
        log := Offered(v, o, |payload|).log;
        assert V() == Offered(v, o, |payload|);
        Enqueue(seqno, payload, now);
      } else if Negated(d) >= |payload| {
        OldSettles(w, v, seqno, payload, o);
        log := Offered(v, o, |payload|).log;
        assert V() == Offered(v, o, |payload|);
      } else {
        pieces := Arrive(seqno, payload, now, o);
      }
    }

    /** Delivers a segment that reaches past the read point and what it unblocks. */
    method Arrive(seqno: int, payload: seq<byte>, now: int, ghost o: int) returns (ghost pieces: seq<seq<byte>>)
      requires Valid() && !Stopped(W(), V()) && |payload| <= HALF - MAX_PENDING_BYTES
      requires -HALF < Diff(seqno, expected) <= 0 < Diff(seqno, expected) + |payload|
      requires log.inWindow ==> Fits(W(), V(), seqno, payload, |payload|, o)
      modifies this
      ensures Valid() && pieces != [] && pieces[0] == Tail(old(V()), seqno, payload)
      ensures Delivered(W(), Offered(old(V()), o, |payload|), V(), pieces)
    {
      ghost var w, v, tail := W(), Offered(V(), o, |payload|), Tail(V(), seqno, payload);
      TailReady(w, V(), seqno, payload, o, now);
      log := v.log;
      assert V() == v;
      Push(payload[Negated(Diff(seqno, expected))..], now);
      pieces := Drain(now, Pushed(w, v, tail, now), v, [tail]);
    }

    /** Keeps a segment that starts past the read point, within the limits. */
    method Enqueue(seqno: int, payload: seq<byte>, now: int)
      modifies this
      ensures V() == Enqueued(W(), old(V()), seqno, payload, now)
    {
      if gapSince.None? {
        gapSince := Some(now);
      }
      if |pending| >= MAX_PENDING_PARTS || pendingBytes + |payload| > MAX_PENDING_BYTES {
        Fail("TCP reassembly limit");
        return;
      }
      if seqno in pending {
        if |pending[seqno]| >= |payload| {
          return;
        }
        pendingBytes := pendingBytes - |pending[seqno]|;
      }
      pending, pendingBytes := pending[seqno := payload], pendingBytes + |payload|;
    }

    /** Accepts a segment of `length` bytes whose capture may have kept less, `prefix`. */
    method AddSegment(seqno: uint32, prefix: seq<byte>, length: nat, now: int, ghost o: int)
      returns (ghost pieces: seq<seq<byte>>)
      requires Valid() && |prefix| <= HALF - MAX_PENDING_BYTES && length <= HALF - MAX_PENDING_BYTES
      requires length <= |prefix| ==> Stopped(W(), V()) || prefix == [] || Diff(seqno, expected) != -HALF
      modifies this
      ensures Valid()
      ensures if old(Stopped(W(), V())) || (length <= |prefix| && prefix == []) then V() == old(V())
              else if length <= |prefix| then Admits(W(), old(V()), V(), seqno, prefix, now, o, pieces)
              else AdmitsTruncated(W(), old(V()), V(), seqno, prefix, length, now, o, pieces)
    {
      pieces := [];
      if length <= |prefix| {
        pieces := Add(seqno, prefix, now, o);
      } else if failure.None? && !ops.finished(parser) {
        if Diff(Wrap(seqno + length), expected) <= 0 {
          NoteOld(seqno, prefix, length, o);
        } else if seqno != expected {
          RejectGap(seqno, prefix, length, o);
        } else {
          pieces := ReadAndSkip(seqno, prefix, length, now, o);
        }
      }
    }

    /** An old retransmission: only the account of the run hears of it. */
    ghost method NoteOld(seqno: int, prefix: seq<byte>, length: nat, o: int)
      requires Valid() && !Stopped(W(), V()) && length > |prefix| && Diff(Wrap(seqno + length), expected) <= 0
      modifies this`log
      ensures Valid() && V() == Offered(Judged(W(), old(V()), seqno, prefix, length, o), o, length)
    {
      var w, v := W(), Judged(W(), V(), seqno, prefix, length, o);
      JudgedKeeps(w, V(), seqno, prefix, length, o);
      if v.log.inWindow { FitsDiff(w, v, seqno, prefix, length, o); }
      OldKeeps(w, v, o, length);
      log := Offered(v, o, length).log;
      assert V() == Offered(v, o, length);
    }

    /** A truncated segment that is not the next one ends the parse. */
    method RejectGap(seqno: int, prefix: seq<byte>, length: nat, ghost o: int)
      requires Valid() && !Stopped(W(), V())
      modifies this
      ensures Valid()
      ensures V() == Failed(W(), Judged(W(), old(V()), seqno, prefix, length, o), "TCP payload capture truncated")
    {
      ghost var w, v := W(), Judged(W(), V(), seqno, prefix, length, o);
      JudgedKeeps(w, V(), seqno, prefix, length, o);
      FailedDrains(w, v, "TCP payload capture truncated");
      log := v.log;
      assert V() == v;
      Fail("TCP payload capture truncated");
    }

    /** The next segment is read as far as it was captured and skipped beyond. */
    method ReadAndSkip(seqno: int, prefix: seq<byte>, length: nat, now: int, ghost o: int)
      returns (ghost pieces: seq<seq<byte>>)
      requires Valid() && !Stopped(W(), V()) && |prefix| < length <= HALF - MAX_PENDING_BYTES && seqno == expected
      requires Diff(Wrap(seqno + length), expected) > 0
      modifies this
      ensures Valid()
      ensures V() in SkipsRests(W(), Captured(W(), Judged(W(), old(V()), seqno, prefix, length, o), prefix, o, now),
                                length - |prefix|, pieces)
    {
      ghost var w, v := W(), Judged(W(), V(), seqno, prefix, length, o);
      CapturedReady(w, V(), seqno, prefix, length - |prefix|, o, now);
      log := v.log;
      assert V() == v;
      ghost var captured := Captured(w, v, prefix, o, now);
      Capture(prefix, now, o);
      assert V() == captured && W() == w;
      pieces := SkipRest(length - |prefix|, now, captured);
      assert W() == w && V() in SkipsRests(w, captured, length - |prefix|, pieces);
    }

    method Capture(prefix: seq<byte>, now: int, ghost o: int)
      modifies this
      ensures V() == Captured(W(), old(V()), prefix, o, now)
    {
      if |prefix| > 0 {
        log := Offered(V(), o, |prefix|).log;
        Push(prefix, now);
      }
    }

    /** Skips the uncaptured end of the segment whose start was just delivered. */
    method SkipRest(n: nat, now: int, ghost v: View<S>) returns (ghost pieces: seq<seq<byte>>)
      requires Lawful(ops, whole) && v == V() && v in DrainingViews(W()) && 0 < n < HALF
      requires !Stopped(W(), v) ==> Room(v, n)
      requires v.log.inWindow ==> v.log.read + n <= |wire|
      modifies this
      ensures Valid() && V() in SkipsRests(W(), v, n, pieces)
    {
      pieces := [];
      if failure.Some? || ops.finished(parser) {
        StoppedSettles(W(), v);
        return;
      }
      match ops.skip(parser, n) {
        case None =>
          FailedDrains(W(), v, "TCP payload capture truncated");
          Fail("TCP payload capture truncated");
        case Some(p) =>
          SkippedKeeps(W(), v, n, p);
          DeliveredNone(W(), Skipped(v, n, p));
          log := Skipped(v, n, p).log;
          parser, expected := p, Wrap(expected + n);
          pieces := Drain(now, Skipped(v, n, p), Skipped(v, n, p), []);
      }
    }
  }
}
