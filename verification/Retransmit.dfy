/** The capture's guess at retransmissions. Each direction remembers its latest payload
    ranges and how far they reached; data past that needs no comparison with them. */
module Retransmit {
  import opened Prelude
  import opened Rings
  import opened Sequence32

  const MAX_TRACKED := 128

  /** A range of sequence numbers as the packet carries it. */
  datatype SequenceRange = SequenceRange(start: int, end: int)

  predicate Overlaps(a: SequenceRange, b: SequenceRange) { Diff(a.start, b.end) < 0 && Diff(b.start, a.end) < 0 }

  /** The payload a range stands for: `length` bytes of the stream from `start`. */
  datatype Span = Span(start: int, length: nat) {
    function End(): int { start + length }
  }

  function OnWire(s: Span): SequenceRange { SequenceRange(Wrap(s.start), Wrap(s.End())) }

  predicate Intersects(s: Span, r: Span) { s.start < r.End() && r.start < s.End() }

  function FurthestEnd(history: seq<Span>): int
    requires history != []
    decreases |history|
  {
    var k := |history| - 1;
    if k == 0 || history[k].End() > FurthestEnd(history[..k]) then history[k].End() else FurthestEnd(history[..k])
  }

  lemma {:induction false} FurthestIsMax(history: seq<Span>, i: nat)
    requires i < |history|
    ensures history[i].End() <= FurthestEnd(history)
    ensures exists j :: 0 <= j < |history| && history[j].End() == FurthestEnd(history)
    decreases |history|
  {
    var k := |history| - 1;
    if k > 0 {
      FurthestIsMax(history[..k], if i < k then i else 0);
      var j :| 0 <= j < k && history[..k][j].End() == FurthestEnd(history[..k]);
      assert history[j].End() == FurthestEnd(history[..k]);
    }
    assert history[k].End() <= FurthestEnd(history);
  }

  predicate Near(x: int, y: int) { -HALF < x - y < HALF }

  /** The new span lies within 2^31 of every tracked range. */
  ghost predicate InSight(history: seq<Span>, s: Span) {
    forall r :: r in Recent(history, 128) ==> Near(s.start, r.End()) && Near(r.start, s.End())
  }

  /** And it starts no farther back than that from the furthest end. */
  ghost predicate InReach(history: seq<Span>, s: Span) {
    InSight(history, s) && (history != [] ==> FurthestEnd(history) - s.start <= HALF)
  }

  /** It ends within 2^31 of the furthest end. */
  ghost predicate Continues(history: seq<Span>, s: Span) { history != [] ==> Near(s.End(), FurthestEnd(history)) }

  /** A start this far behind the furthest end compares as lying at or past it. */
  predicate Lost(distance: int) { distance % WORD == 0 || distance % WORD > HALF }

  /** What a scan of every tracked range is there to find. */
  ghost predicate Repeats(history: seq<Span>, s: Span) {
    exists r :: r in Recent(history, 128) && Intersects(s, r)
  }

  // ----- The ring -----

  function OnWires(history: seq<Span>): (r: seq<SequenceRange>)
    ensures |r| == |history|
  {
    seq(|history|, i requires 0 <= i < |history| => OnWire(history[i]))
  }

  /** The ring holds exactly the most recent spans, as the packets carried them. */
  ghost predicate Tracks(seen: seq<SequenceRange>, next: nat, history: seq<Span>) {
    Holds(seen, next, OnWires(history), MAX_TRACKED)
  }

  lemma StoreTracks(seen: seq<SequenceRange>, next: nat, history: seq<Span>, s: Span)
    requires Tracks(seen, next, history)
    ensures var (after, n) := Pushed(seen, next, OnWire(s), MAX_TRACKED); Tracks(after, n, history + [s])
  {
    PushHolds(seen, next, OnWires(history), OnWire(s), MAX_TRACKED);
    assert OnWires(history + [s]) == OnWires(history) + [OnWire(s)];
  }

  /** Every slot in use holds one of the most recent spans, and each of these has one. */
  lemma SlotsHold(seen: seq<SequenceRange>, next: nat, history: seq<Span>)
    requires Tracks(seen, next, history)
    ensures forall w :: w in seen ==> exists r :: r in Recent(history, MAX_TRACKED) && OnWire(r) == w
    ensures forall r :: r in Recent(history, MAX_TRACKED) ==> OnWire(r) in seen
  {
    var recent := Recent(history, MAX_TRACKED);
    assert Recent(OnWires(history), MAX_TRACKED) == OnWires(recent);
    forall w | w in seen ensures exists r :: r in recent && OnWire(r) == w {
      SameEntries(seen, next, OnWires(history), w, MAX_TRACKED);
      var i :| 0 <= i < |recent| && OnWires(recent)[i] == w;
      assert recent[i] in recent;
    }
    forall r | r in recent ensures OnWire(r) in seen {
      var i :| 0 <= i < |recent| && recent[i] == r;
      assert OnWires(recent)[i] == OnWire(r);
      SameEntries(seen, next, OnWires(history), OnWire(r), MAX_TRACKED);
    }
  }

  // ----- The guard against the scan -----

  ghost predicate Scan(seen: seq<SequenceRange>, span: SequenceRange) {
    exists prior :: prior in seen && Overlaps(span, prior)
  }

  /** In reach, comparing wrapped numbers tells whether the bytes intersect. */
  lemma OverlapIsIntersection(s: Span, r: Span)
    requires Near(s.start, r.End()) && Near(r.start, s.End())
    ensures Overlaps(OnWire(s), OnWire(r)) <==> Intersects(s, r)
  {
    DiffExact(s.start, r.End());
    DiffExact(r.start, s.End());
  }

  lemma ScanIsRepeats(seen: seq<SequenceRange>, next: nat, history: seq<Span>, s: Span)
    requires Tracks(seen, next, history) && InSight(history, s)
    ensures Scan(seen, OnWire(s)) <==> Repeats(history, s)
  {
    SlotsHold(seen, next, history);
    forall r | r in Recent(history, MAX_TRACKED) ensures Overlaps(OnWire(s), OnWire(r)) <==> Intersects(s, r) {
      OverlapIsIntersection(s, r);
    }
  }

  lemma RepeatsStartBelow(history: seq<Span>, s: Span)
    requires Repeats(history, s)
    ensures history != [] && s.start < FurthestEnd(history)
  {
    var r :| r in Recent(history, MAX_TRACKED) && Intersects(s, r);
    var i :| 0 <= i < |history| && history[i] == r;
    FurthestIsMax(history, i);
  }

  /** The comparison that moves the furthest end moves it as it should. */
  lemma FurthestMoves(history: seq<Span>, s: Span, seenEnd: int)
    requires Continues(history, s) && (history != [] ==> seenEnd == Wrap(FurthestEnd(history)))
    ensures (if history == [] || Diff(OnWire(s).end, seenEnd) > 0 then OnWire(s).end else seenEnd)
         == Wrap(FurthestEnd(history + [s]))
  {
    assert (history + [s])[..|history|] == history;
    if history != [] {
      DiffExact(s.End(), FurthestEnd(history));
    }
  }

  /** The guard lets a payload pass unscanned exactly when its start compares as no
      earlier than the furthest end. */
  lemma LostIsPassed(x: int, y: int)
    ensures Diff(Wrap(x), Wrap(y)) >= 0 <==> Lost(y - x)
  {
    var d := Diff(Wrap(x), Wrap(y));
    var turns := DiffTurns(x, y);
    if d > 0 { ModOf(y - x, -turns - 1, WORD - d); } else { ModOf(y - x, -turns, -d); }
  }

  // ----- One direction -----

  /** A direction's fields, what it has seen, and whether no range ended 2^31 or more
      from the furthest end before it. */
  datatype Tracking = Tracking(seen: seq<SequenceRange>, next: nat, end: int, history: seq<Span>, close: bool)

  /** The ring is exact always; the furthest end while ranges continued one another. */
  ghost predicate Exact(t: Tracking) {
    Tracks(t.seen, t.next, t.history) && (t.close && t.history != [] ==> t.end == Wrap(FurthestEnd(t.history)))
  }

  ghost function Exacts(): iset<Tracking> { iset t | Exact(t) }

  predicate Room(t: Tracking) {
    t.next <= |t.seen| <= MAX_TRACKED && (|t.seen| == MAX_TRACKED ==> t.next < |t.seen|)
  }

  ghost function Observed(t: Tracking, s: Span): Tracking {
    var (seen, next) := if Room(t) then Pushed(t.seen, t.next, OnWire(s), MAX_TRACKED) else (t.seen, t.next);
    var end := if |t.seen| == 0 || Diff(OnWire(s).end, t.end) > 0 then OnWire(s).end else t.end;
    Tracking(seen, next, end, t.history + [s], t.close && Continues(t.history, s))
  }

  lemma ObservedKeeps(t: Tracking, s: Span)
    requires t in Exacts()
    ensures Observed(t, s) in Exacts()
  {
    StoreTracks(t.seen, t.next, t.history, s);
    if t.close && Continues(t.history, s) {
      FurthestMoves(t.history, s, t.end);
    }
  }

  ghost predicate Guarded(t: Tracking, s: Span) { Diff(OnWire(s).start, t.end) < 0 && Scan(t.seen, OnWire(s)) }

  /** The guard changes the verdict of a full scan if and only if the scan finds
      something and the payload's start is lost behind the furthest end. */
  lemma GuardMissesExactly(t: Tracking, s: Span)
    requires t in Exacts() && t.close && t.history != []
    ensures (Guarded(t, s) <==> Scan(t.seen, OnWire(s)))
            <==> !(Scan(t.seen, OnWire(s)) && Lost(FurthestEnd(t.history) - s.start))
    ensures InSight(t.history, s) ==> (Scan(t.seen, OnWire(s)) <==> Repeats(t.history, s))
    ensures InSight(t.history, s) && FurthestEnd(t.history) - s.start < WORD + HALF ==>
              ((Guarded(t, s) <==> Scan(t.seen, OnWire(s))) <==>
               !(Repeats(t.history, s) && HALF < FurthestEnd(t.history) - s.start <= WORD))
  {
    LostIsPassed(s.start, FurthestEnd(t.history));
    if InSight(t.history, s) {
      ScanIsRepeats(t.seen, t.next, t.history, s);
      if Repeats(t.history, s) { RepeatsStartBelow(t.history, s); }
    }
  }

  /** So within 2^31 the guarded verdict is what a full scan finds, and what there is
      to find. */
  lemma GuardRefinesScan(t: Tracking, s: Span)
    requires t in Exacts() && t.close && InReach(t.history, s)
    ensures Guarded(t, s) <==> Scan(t.seen, OnWire(s))
    ensures Guarded(t, s) <==> Repeats(t.history, s)
  {
    ScanIsRepeats(t.seen, t.next, t.history, s);
    if t.history != [] { GuardMissesExactly(t, s); }
  }

  lemma ObservedNext(t: Tracking, s: Span) returns (u: Tracking)
    requires t in Exacts() && t.close && Continues(t.history, s)
    ensures u in Exacts() && u.close && u.history == t.history + [s]
    ensures FurthestEnd(u.history) ==
            if t.history == [] || s.End() > FurthestEnd(t.history) then s.End() else FurthestEnd(t.history)
  {
    ObservedKeeps(t, s);
    assert (t.history + [s])[..|t.history|] == t.history;
    u := Observed(t, s);
  }

  /** It happens: once data has moved more than 2^31 ahead, a full scan still finds
      that bytes 5 to 7 repeat bytes 0 to 10, while the guard takes them for new. */
  lemma GuardMissesFarBack() returns (t: Tracking)
    ensures t in Exacts() && t.close && t.history == [Span(0, 10), Span(HALF - 100, 50), Span(HALF - 50, 200)]
    ensures FurthestEnd(t.history) == HALF + 150
    ensures Scan(t.seen, OnWire(Span(5, 2))) && !Guarded(t, Span(5, 2))
  {
    t := Tracking([], 0, 0, [], true);
    t := ObservedNext(t, Span(0, 10));
    t := ObservedNext(t, Span(HALF - 100, 50));
    t := ObservedNext(t, Span(HALF - 50, 200));
    FarBackScans(t);
    GuardMissesExactly(t, Span(5, 2));
  }

  lemma FarBackScans(t: Tracking)
    requires t in Exacts() && t.history == [Span(0, 10), Span(HALF - 100, 50), Span(HALF - 50, 200)]
    ensures Scan(t.seen, OnWire(Span(5, 2)))
  {
    SlotsHold(t.seen, t.next, t.history);
    assert Recent(t.history, MAX_TRACKED)[0] == Span(0, 10);
    OverlapIsIntersection(Span(5, 2), Span(0, 10));
  }

  lemma NextInRing(t: Tracking)
    requires t in Exacts()
    ensures Room(t)
  {
  }

  // ----- Packets -----

  datatype Packet = Packet(tcp: bool, reversed: bool, syn: bool, ack: bool, number: uint32, payload: nat, cut: bool)

  /** Whether the packet carries payload the detector looks at. */
  predicate Counts(p: Packet) { p.tcp && p.payload > 0 && !p.cut }

  predicate PureSyn(p: Packet) { p.tcp && p.syn && !p.ack }

  /** Where the payload lies in the stream: a SYN takes one number before it. */
  function Payload(p: Packet, at: int): Span { Span(if p.syn then at + 1 else at, p.payload) }

  /** What a direction remembers: its payload and its last SYN number. */
  datatype Memory = Memory(tracking: Tracking, syn: Option<int>)

  ghost predicate SynAgain(m: Memory, p: Packet) { PureSyn(p) && m.syn == Some(p.number) }

  /** The verdict on a packet of the direction. */
  ghost predicate Verdict(m: Memory, p: Packet, at: int) {
    SynAgain(m, p) || (Counts(p) && Guarded(m.tracking, Payload(p, at)))
  }

  ghost function Remembered(m: Memory, p: Packet, at: int): Memory {
    Memory(if Counts(p) then Observed(m.tracking, Payload(p, at)) else m.tracking,
           if PureSyn(p) then Some(p.number) else m.syn)
  }

  class Direction {
    var seen: seq<SequenceRange>
    var seenNext: nat
    var seenEnd: int
    var synSeen: bool
    var synSeq: int
    ghost var history: seq<Span>
    ghost var close: bool

    ghost function State(): Tracking
      reads this
    {
      Tracking(seen, seenNext, seenEnd, history, close)
    }

    ghost function Recall(): Memory
      reads this
    {
      Memory(State(), if synSeen then Some(synSeq) else None)
    }

    ghost predicate Valid()
      reads this
    {
      State() in Exacts()
    }

    constructor ()
      ensures Valid() && State() == Tracking([], 0, 0, [], true) && !synSeen
    {
      seen, seenNext, seenEnd, history, close, synSeen, synSeq := [], 0, 0, [], true, false, 0;
    }

    /** Records one payload. `s` is where it lies in the stream. */
    method ObservePayload(start: uint32, length: nat, ghost s: Span) returns (retransmitted: bool)
      requires Valid() && length > 0 && s.length == length && Wrap(s.start) == start
      modifies this`seen, this`seenNext, this`seenEnd, this`history, this`close
      ensures Valid() && State() == Observed(old(State()), s)
      ensures retransmitted <==> Guarded(old(State()), s)
      ensures old(close) && InReach(old(history), s) ==> (retransmitted <==> Repeats(old(history), s))
    {
      WrapSum(s.start, length);
      var span := SequenceRange(start, Wrap(start + length));
      retransmitted := false;
      if Diff(span.start, seenEnd) < 0 {
        retransmitted := OverlapsAny(span);
      }
      if close && InReach(history, s) {
        GuardRefinesScan(State(), s);
      }
      ObservedKeeps(State(), s);
      NextInRing(State());
      Store(span);
      close := close && Continues(history, s);
      history := history + [s];
    }

    method Store(span: SequenceRange)
      requires Room(State())
      modifies this`seen, this`seenNext, this`seenEnd
      ensures (seen, seenNext) == Pushed(old(seen), old(seenNext), span, MAX_TRACKED)
      ensures seenEnd == if |old(seen)| == 0 || Diff(span.end, old(seenEnd)) > 0 then span.end else old(seenEnd)
    {
      if |seen| == 0 || Diff(span.end, seenEnd) > 0 {
        seenEnd := span.end;
      }
      if |seen| < MAX_TRACKED {
        seen := seen + [span];
      } else {
        seen := seen[seenNext := span];
        seenNext := (seenNext + 1) % MAX_TRACKED;
      }
    }

    method OverlapsAny(span: SequenceRange) returns (found: bool)
      ensures found <==> Scan(seen, span)
    {
      for k := 0 to |seen|
        invariant forall prior :: prior in seen[..k] ==> !Overlaps(span, prior)
      {
        if Overlaps(span, seen[k]) { return true; }
        assert seen[..k + 1] == seen[..k] + [seen[k]];
      }
      assert seen[..|seen|] == seen;
      found := false;
    }

    /** A SYN repeats when its number is that of the last new one. */
    method ObserveSyn(number: int) returns (retransmitted: bool)
      modifies this`synSeen, this`synSeq
      ensures retransmitted <==> old(synSeen) && old(synSeq) == number
      ensures synSeen && synSeq == number
    {
      retransmitted := synSeen && synSeq == number;
      if !retransmitted {
        synSeen, synSeq := true, number;
      }
    }
  }

  // ----- A whole run -----

  /** A packet and the position of its sequence number. */
  datatype Heard = Heard(packet: Packet, at: int)

  /** The payload that one direction carried, in the order it was captured. */
  function Spans(run: seq<Heard>, reversed: bool): seq<Span>
    decreases |run|
  {
    if run == [] then []
    else
      var earlier, h := Spans(run[..|run| - 1], reversed), run[|run| - 1];
      if h.packet.reversed == reversed && Counts(h.packet) then earlier + [Payload(h.packet, h.at)] else earlier
  }

  /** The number of the last SYN of one direction. */
  function LastSyn(run: seq<Heard>, reversed: bool): Option<int>
    decreases |run|
  {
    if run == [] then None
    else
      var h := run[|run| - 1];
      if h.packet.reversed == reversed && PureSyn(h.packet) then Some(h.packet.number)
      else LastSyn(run[..|run| - 1], reversed)
  }

  ghost function After(history: seq<Span>): Tracking
    decreases |history|
  {
    if history == [] then Tracking([], 0, 0, [], true)
    else Observed(After(history[..|history| - 1]), history[|history| - 1])
  }

  /** What a run leaves in one direction's memory. */
  ghost function MemoryOf(run: seq<Heard>, reversed: bool): Memory {
    Memory(After(Spans(run, reversed)), LastSyn(run, reversed))
  }

  /** The detector's verdict on a packet that follows the run. */
  ghost predicate Judged(run: seq<Heard>, h: Heard) {
    Verdict(MemoryOf(run, h.packet.reversed), h.packet, h.at)
  }

  /** What the verdict is meant to be: a SYN number, or some byte of the last payloads of
      its direction, comes again. */
  ghost predicate Repeated(run: seq<Heard>, h: Heard) {
    || SynAgain(MemoryOf(run, h.packet.reversed), h.packet)
    || (Counts(h.packet) && Repeats(Spans(run, h.packet.reversed), Payload(h.packet, h.at)))
  }

  ghost function Number(run: seq<Heard>, verdict: (seq<Heard>, Heard) -> bool): nat
    decreases |run|
  {
    if run == [] then 0
    else
      var init, h := run[..|run| - 1], run[|run| - 1];
      Number(init, verdict) + if verdict(init, h) then 1 else 0
  }

  /** Every payload continues its direction, within 2^31 of what is tracked of it. */
  ghost predicate Steady(run: seq<Heard>)
    decreases |run|
  {
    run != [] ==>
      var init, h := run[..|run| - 1], run[|run| - 1];
      var history, s := Spans(init, h.packet.reversed), Payload(h.packet, h.at);
      Steady(init) && (Counts(h.packet) ==> Continues(history, s) && InReach(history, s))
  }

  lemma NothingTracked()
    ensures Tracking([], 0, 0, [], true) in Exacts()
  {
  }

  lemma {:induction false} AfterExact(history: seq<Span>)
    ensures After(history) in Exacts() && After(history).history == history
    decreases |history|
  {
    if history == [] {
      NothingTracked();
    } else {
      var init, s := history[..|history| - 1], history[|history| - 1];
      AfterExact(init);
      ObservedKeeps(After(init), s);
      assert init + [s] == history;
    }
  }

  lemma {:induction false} SteadyIsClose(run: seq<Heard>, reversed: bool)
    requires Steady(run)
    ensures After(Spans(run, reversed)).close
    decreases |run|
  {
    if run != [] {
      var init, h := run[..|run| - 1], run[|run| - 1];
      SteadyIsClose(init, reversed);
      AfterExact(Spans(init, reversed));
      AfterMore(Spans(init, reversed), Payload(h.packet, h.at));
    }
  }

  lemma AfterMore(history: seq<Span>, s: Span)
    ensures After(history + [s]) == Observed(After(history), s)
  {
    assert (history + [s])[..|history|] == history;
  }

  /** As long as the run is steady, the detector counts exactly the packets that repeat. */
  lemma {:induction false} JudgedIsRepeated(run: seq<Heard>)
    requires Steady(run)
    ensures Number(run, Judged) == Number(run, Repeated)
    decreases |run|
  {
    if run != [] {
      var init, h := run[..|run| - 1], run[|run| - 1];
      JudgedIsRepeated(init);
      SteadyIsClose(init, h.packet.reversed);
      AfterExact(Spans(init, h.packet.reversed));
      if Counts(h.packet) {
        GuardRefinesScan(After(Spans(init, h.packet.reversed)), Payload(h.packet, h.at));
      }
    }
  }

  // ----- What it means that a packet repeats -----

  /** A SYN counts for one number before the payload. */
  predicate Carries(h: Heard, b: int) {
    var first := h.at + if h.packet.syn then 1 else 0;
    h.packet.tcp && !h.packet.cut && first <= b < first + h.packet.payload
  }

  /** How many packets of a direction carry payload. */
  function Carriers(run: seq<Heard>, reversed: bool): nat
    decreases |run|
  {
    if run == [] then 0
    else
      var p := run[|run| - 1].packet;
      Carriers(run[..|run| - 1], reversed) + if p.reversed == reversed && p.tcp && !p.cut && p.payload > 0 then 1 else 0
  }

  lemma {:induction false} SpansCount(run: seq<Heard>, reversed: bool)
    ensures |Spans(run, reversed)| == Carriers(run, reversed)
    decreases |run|
  {
    if run != [] { SpansCount(run[..|run| - 1], reversed); }
  }

  lemma {:induction false} SpansSplit(a: seq<Heard>, b: seq<Heard>, reversed: bool)
    ensures Spans(a + b, reversed) == Spans(a, reversed) + Spans(b, reversed)
    decreases |b|
  {
    if b == [] {
      assert a + b == a;
    } else {
      var k := |b| - 1;
      SpansSplit(a, b[..k], reversed);
      assert (a + b)[..|a + b| - 1] == a + b[..k];
    }
  }

  lemma {:induction false} SpanAt(run: seq<Heard>, reversed: bool, k: nat) returns (i: nat)
    requires k < |Spans(run, reversed)|
    ensures i < |run| && run[i].packet.reversed == reversed && Counts(run[i].packet)
    ensures Spans(run, reversed)[k] == Payload(run[i].packet, run[i].at) && |Spans(run[..i], reversed)| == k
    decreases |run|
  {
    var init := run[..|run| - 1];
    if k < |Spans(init, reversed)| {
      i := SpanAt(init, reversed, k);
      assert init[..i] == run[..i];
    } else {
      i := |run| - 1;
    }
  }

  lemma SpanOf(run: seq<Heard>, reversed: bool, i: nat)
    requires i < |run| && run[i].packet.reversed == reversed && Counts(run[i].packet)
    ensures var before, after := Spans(run[..i], reversed), Spans(run[i + 1..], reversed);
            Spans(run, reversed) == before + [Payload(run[i].packet, run[i].at)] + after
  {
    assert run == run[..i] + [run[i]] + run[i + 1..];
    SpansSplit(run[..i] + [run[i]], run[i + 1..], reversed);
    SpansSplit(run[..i], [run[i]], reversed);
    assert Spans([run[i]], reversed) == [Payload(run[i].packet, run[i].at)] by { assert [run[i]][..0] == []; }
  }

  /** One of the last 128 payloads of the packet's direction has a byte in common with it. */
  ghost predicate Shares(run: seq<Heard>, h: Heard) {
    exists i: nat, b: int :: i < |run| && run[i].packet.reversed == h.packet.reversed
                             && Carriers(run[i + 1..], h.packet.reversed) < 128 && Carries(run[i], b) && Carries(h, b)
  }

  lemma SharedRepeats(run: seq<Heard>, h: Heard, i: nat, b: int)
    requires i < |run| && run[i].packet.reversed == h.packet.reversed
    requires Carriers(run[i + 1..], h.packet.reversed) < 128 && Carries(run[i], b) && Carries(h, b)
    ensures Counts(h.packet) && Repeats(Spans(run, h.packet.reversed), Payload(h.packet, h.at))
  {
    var reversed, r := h.packet.reversed, Payload(run[i].packet, run[i].at);
    SpanOf(run, reversed, i);
    SpansCount(run[i + 1..], reversed);
    var history, k := Spans(run, reversed), |Spans(run[..i], reversed)|;
    assert history[k] == r;
    assert r in Recent(history, 128) by {
      if |history| > 128 { assert history[|history| - 128..][k - (|history| - 128)] == r; }
    }
  }

  lemma RepeatsShared(run: seq<Heard>, h: Heard)
    requires Counts(h.packet) && Repeats(Spans(run, h.packet.reversed), Payload(h.packet, h.at))
    ensures Shares(run, h)
  {
    var reversed, s := h.packet.reversed, Payload(h.packet, h.at);
    var history := Spans(run, reversed);
    var r :| r in Recent(history, 128) && Intersects(s, r);
    var from := if |history| > 128 then |history| - 128 else 0;
    assert Recent(history, 128) == history[from..];
    var j :| 0 <= j < |history[from..]| && history[from..][j] == r;
    var i := SpanAt(run, reversed, from + j);
    SpanOf(run, reversed, i);
    SpansCount(run[i + 1..], reversed);
    var b := if s.start < r.start then r.start else s.start;
    assert Carries(run[i], b) && Carries(h, b);
  }

  predicate IsSyn(h: Heard, reversed: bool) {
    h.packet.reversed == reversed && h.packet.tcp && h.packet.syn && !h.packet.ack
  }

  lemma {:induction false} LastSynMeans(run: seq<Heard>, reversed: bool, number: int)
    ensures LastSyn(run, reversed) == Some(number) <==>
            exists i :: 0 <= i < |run| && IsSyn(run[i], reversed) && run[i].packet.number == number
                        && forall j :: i < j < |run| ==> !IsSyn(run[j], reversed)
    decreases |run|
  {
    if run != [] {
      var init := run[..|run| - 1];
      LastSynMeans(init, reversed, number);
      if IsSyn(run[|run| - 1], reversed) {
      } else if LastSyn(init, reversed) == Some(number) {
        var i :| 0 <= i < |init| && IsSyn(init[i], reversed) && init[i].packet.number == number
                 && forall j :: i < j < |init| ==> !IsSyn(init[j], reversed);
        assert IsSyn(run[i], reversed);
      }
    }
  }

  /** A packet repeats if and only if it is a SYN with the number of the last SYN of its
      direction, or shares a byte with one of the last 128 payloads there. */
  lemma RepeatedMeans(run: seq<Heard>, h: Heard)
    ensures Repeated(run, h) <==>
            (IsSyn(h, h.packet.reversed) && LastSyn(run, h.packet.reversed) == Some(h.packet.number)) || Shares(run, h)
  {
    if Counts(h.packet) && Repeats(Spans(run, h.packet.reversed), Payload(h.packet, h.at)) { RepeatsShared(run, h); }
    if Shares(run, h) {
      var i: nat, b: int :| i < |run| && run[i].packet.reversed == h.packet.reversed
                            && Carriers(run[i + 1..], h.packet.reversed) < 128 && Carries(run[i], b) && Carries(h, b);
      SharedRepeats(run, h, i, b);
    }
  }

  lemma RunMore(run: seq<Heard>, h: Heard, reversed: bool)
    ensures MemoryOf(run + [h], reversed) ==
            if h.packet.reversed == reversed then Remembered(MemoryOf(run, reversed), h.packet, h.at)
            else MemoryOf(run, reversed)
  {
    assert (run + [h])[..|run|] == run;
    AfterMore(Spans(run, reversed), Payload(h.packet, h.at));
  }

  lemma NumberMore(run: seq<Heard>, h: Heard)
    ensures Number(run + [h], Judged) == Number(run, Judged) + if Judged(run, h) then 1 else 0
  {
    assert (run + [h])[..|run|] == run;
  }

  class TcpHealth {
    const forward: Direction
    const backward: Direction
    var retransmits: nat
    ghost var run: seq<Heard>

    ghost predicate Valid()
      reads this, forward, backward
    {
      && forward != backward && forward.Valid() && backward.Valid()
      && forward.Recall() == MemoryOf(run, false) && backward.Recall() == MemoryOf(run, true)
      && retransmits == Number(run, Judged)
    }

    constructor ()
      ensures Valid() && fresh(forward) && fresh(backward) && retransmits == 0 && run == []
    {
      forward := new Direction();
      backward := new Direction();
      retransmits := 0;
      run := [];
    }

    /** At any time, if the run was steady, the count is the number of its packets whose
        SYN number or payload came again. */
    lemma CountsRepeats()
      requires Valid() && Steady(run)
      ensures retransmits == Number(run, Repeated)
    {
      JudgedIsRepeated(run);
    }

    function Side(p: Packet): Direction { if p.reversed then backward else forward }

    /** Counts the packet at most once, for a repeated SYN or repeated payload of its
        own direction, and leaves the other direction alone. */
    method Listen(p: Packet, ghost at: int)
      requires Side(p).Valid() && Wrap(at) == p.number
      modifies this`retransmits, Side(p)
      ensures Side(p).Valid() && Side(p).Recall() == Remembered(old(Side(p).Recall()), p, at)
      ensures retransmits == old(retransmits) + if Verdict(old(Side(p).Recall()), p, at) then 1 else 0
    {
      if !p.tcp { return; }
      var side := Side(p);
      var retransmitted := false;
      if p.syn && !p.ack {
        retransmitted := side.ObserveSyn(p.number);
      }
      if Counts(p) {
        WrapSum(at, 1);
        var start := if p.syn then Wrap(p.number + 1) else p.number;
        WrapIsMod(p.number + 1);
        var again := side.ObservePayload(start, p.payload, Payload(p, at));
        retransmitted := retransmitted || again;
      }
      if retransmitted {
        retransmits := retransmits + 1;
      }
    }

    /** Observes one packet. `at` is the position of its sequence number. */
    method Observe(p: Packet, ghost at: int)
      requires Valid() && Wrap(at) == p.number
      modifies this`retransmits, this`run, Side(p)
      ensures Valid() && run == old(run) + [Heard(p, at)]
      ensures Side(p).Recall() == Remembered(old(Side(p).Recall()), p, at)
      ensures retransmits == old(retransmits) + if Verdict(old(Side(p).Recall()), p, at) then 1 else 0
      ensures var t, s := old(Side(p).Recall()).tracking, Payload(p, at);
              t.close && InReach(t.history, s) ==> (Guarded(t, s) <==> Repeats(t.history, s))
    {
      if Side(p).close && InReach(Side(p).history, Payload(p, at)) {
        GuardRefinesScan(Side(p).State(), Payload(p, at));
      }
      RunMore(run, Heard(p, at), false);
      RunMore(run, Heard(p, at), true);
      NumberMore(run, Heard(p, at));
      Listen(p, at);
      run := run + [Heard(p, at)];
    }
  }
}
