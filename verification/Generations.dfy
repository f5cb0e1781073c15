/** What the flows of one tuple are: the stretches of its packets between SYNs of a new
    number. Stated on packets alone, and proved of every run of the collector. */
module Generations {
  import opened Prelude
  import opened FlowTable
  import opened Ledgers
  import opened Collector

  // ----- Stretches of packets -----

  predicate PureSyn(p: Packet) { p.syn && !p.ack }

  /** A SYN whose number none of the stretch has. */
  predicate StartsAnother(part: seq<Packet>, p: Packet) {
    p.key.protocol == 6 && PureSyn(p) && forall q :: q in part && PureSyn(q) ==> q.seqno != p.seqno
  }

  /** The packets of a tuple, cut before each SYN of a new number. */
  function Stretches(key: Key, ps: seq<Packet>): (parts: seq<seq<Packet>>)
    decreases |ps|
  {
    if ps == [] then []
    else
      var parts, p := Stretches(key, ps[..|ps| - 1]), ps[|ps| - 1];
      if p.key != key then parts
      else if parts == [] || StartsAnother(parts[|parts| - 1], p) then parts + [[p]]
      else parts[|parts| - 1 := parts[|parts| - 1] + [p]]
  }

  /** The bytes that went out, or came in. */
  function BytesOut(part: seq<Packet>, outgoing: bool): nat
    decreases |part|
  {
    if part == [] then 0
    else
      var p := part[|part| - 1];
      BytesOut(part[..|part| - 1], outgoing) + if p.outgoing == outgoing then p.bytes else 0
  }

  function LastSyn(part: seq<Packet>): Option<Packet>
    decreases |part|
  {
    if part == [] then None
    else if PureSyn(part[|part| - 1]) then Some(part[|part| - 1])
    else LastSyn(part[..|part| - 1])
  }

  function FirstMessage(part: seq<Packet>): Option<Packet>
    decreases |part|
  {
    if part == [] then None
    else
      var before := FirstMessage(part[..|part| - 1]);
      if before.None? && part[|part| - 1].clientMessage then Some(part[|part| - 1]) else before
  }

  /** The packet that names the ends: the last SYN, or without one the first message. */
  function Naming(part: seq<Packet>): Option<Packet> {
    if LastSyn(part).Some? then LastSyn(part) else FirstMessage(part)
  }

  predicate Finishes(part: seq<Packet>, a: Endpoint, fromA: bool) {
    exists q :: q in part && q.fin && !q.rst && (q.source == a) == fromA
  }

  predicate WasReset(part: seq<Packet>) { exists q :: q in part && q.rst }

  /** A SYN that nothing but further SYNs followed. */
  predicate Unanswered(part: seq<Packet>) {
    exists i :: 0 <= i < |part| && PureSyn(part[i]) && !part[i].fin && !part[i].rst
                && forall j :: i < j < |part| ==> !part[j].ack && !part[j].fin && !part[j].rst
  }

  /** The target of the connection accepted it. */
  predicate WasAnswered(part: seq<Packet>) {
    exists j :: 0 <= j < |part| && part[j].syn && part[j].ack && Naming(part[..j]).Some?
                && Naming(part[..j]).value.destination == part[j].source
  }

  // ----- What a flow tells of its stretch -----

  ghost predicate TellsNumber(t: Tcp, part: seq<Packet>) {
    && (t.synSeen <==> LastSyn(part).Some?)
    && forall q :: q in part && PureSyn(q) ==> t.synSeen && q.seqno == t.synSeq
  }

  ghost predicate TellsClosing(t: Tcp, part: seq<Packet>, a: Endpoint) {
    && (t.finA <==> Finishes(part, a, true)) && (t.finB <==> Finishes(part, a, false))
    && (t.closed <==> WasReset(part) || (Finishes(part, a, true) && Finishes(part, a, false)))
  }

  ghost predicate TellsAttempt(t: Tcp, part: seq<Packet>) {
    (t.state == SynSent <==> Unanswered(part)) && (t.state == SynSent ==> t.synSeen)
  }

  ghost predicate TellsEnds(t: Tcp, part: seq<Packet>) {
    && t.wire == Naming(part).Some?
    && t.initiator == (if t.wire then Some(Naming(part).value.source) else None)
    && t.target == (if t.wire then Some(Naming(part).value.destination) else None)
    && (t.synAck <==> WasAnswered(part))
  }

  ghost predicate Shakes(t: Tcp, part: seq<Packet>, a: Endpoint) {
    TellsNumber(t, part) && TellsClosing(t, part, a) && TellsAttempt(t, part) && TellsEnds(t, part)
  }

  ghost predicate Tells(f: Flow, part: seq<Packet>) {
    && f.packets == |part| && f.rx == BytesOut(part, false) && f.tx == BytesOut(part, true)
    && (f.key.protocol == 6 ==> Shakes(f.tcp, part, f.key.a))
  }

  lemma LastOf(part: seq<Packet>, p: Packet)
    ensures (part + [p])[..|part|] == part && (part + [p])[|part|] == p
    ensures BytesOut(part + [p], false) == BytesOut(part, false) + (if p.outgoing then 0 else p.bytes)
    ensures BytesOut(part + [p], true) == BytesOut(part, true) + (if p.outgoing then p.bytes else 0)
    ensures LastSyn(part + [p]) == if PureSyn(p) then Some(p) else LastSyn(part)
    ensures FirstMessage(part + [p]) ==
            if FirstMessage(part).None? && p.clientMessage then Some(p) else FirstMessage(part)
  {
  }

  lemma EndsMore(part: seq<Packet>, p: Packet, a: Endpoint)
    ensures forall fromA :: Finishes(part + [p], a, fromA) <==>
                            Finishes(part, a, fromA) || (p.fin && !p.rst && (p.source == a) == fromA)
    ensures WasReset(part + [p]) <==> WasReset(part) || p.rst
  {
  }

  lemma UnansweredMore(part: seq<Packet>, p: Packet)
    ensures Unanswered(part + [p]) <==> !p.fin && !p.rst && (PureSyn(p) || (Unanswered(part) && !p.ack))
  {
    var more := part + [p];
    if Unanswered(more) {
      var i :| 0 <= i < |more| && PureSyn(more[i]) && !more[i].fin && !more[i].rst
               && forall j :: i < j < |more| ==> !more[j].ack && !more[j].fin && !more[j].rst;
      assert more[|part|] == p;
      if i < |part| {
        assert part[i] == more[i];
        assert forall j :: i < j < |part| ==> part[j] == more[j];
      }
    }
    if PureSyn(p) && !p.fin && !p.rst { assert more[|part|] == p; }
    if Unanswered(part) && !p.ack && !p.fin && !p.rst {
      var i :| 0 <= i < |part| && PureSyn(part[i]) && !part[i].fin && !part[i].rst
               && forall j :: i < j < |part| ==> !part[j].ack && !part[j].fin && !part[j].rst;
      assert more[i] == part[i];
    }
  }

  lemma AnsweredMore(part: seq<Packet>, p: Packet)
    ensures WasAnswered(part + [p]) <==>
            WasAnswered(part) || (p.syn && p.ack && Naming(part).Some? && Naming(part).value.destination == p.source)
  {
    var more := part + [p];
    assert more[..|part|] == part && more[|part|] == p;
    assert forall j :: 0 <= j < |part| ==> more[j] == part[j] && more[..j] == part[..j];
  }

  predicate OneNumber(part: seq<Packet>, p: Packet) {
    PureSyn(p) ==> forall q :: q in part && PureSyn(q) ==> q.seqno == p.seqno
  }

  lemma {:induction false} LastSynIn(part: seq<Packet>)
    ensures match LastSyn(part)
            case Some(q) => q in part && PureSyn(q)
            case None => forall q :: q in part ==> !PureSyn(q)
    decreases |part|
  {
    if part != [] {
      LastSynIn(part[..|part| - 1]);
      assert part == part[..|part| - 1] + [part[|part| - 1]];
    }
  }

  function Next(t: Tcp, p: Packet, a: Endpoint): Tcp { Ended(Opened(t, p), p, p.source == a) }

  predicate SameNames(t: Tcp, u: Tcp) {
    && u.synSeen == t.synSeen && u.synSeq == t.synSeq && u.wire == t.wire && u.synAck == t.synAck
    && u.initiator == t.initiator && u.target == t.target
  }

  lemma EndedNames(t: Tcp, p: Packet, fromA: bool)
    ensures SameNames(t, Ended(t, p, fromA))
  {
  }

  function Shaken(t: Tcp, p: Packet): Tcp { Acknowledged(Answered(if PureSyn(p) then Asked(t, p) else t, p), p) }

  lemma ShakenNames(t: Tcp, p: Packet)
    ensures var u := Shaken(t, p);
            && u.synSeen == (t.synSeen || PureSyn(p)) && u.synSeq == (if PureSyn(p) then p.seqno else t.synSeq)
            && u.wire == (t.wire || PureSyn(p))
            && u.synAck == (t.synAck || (p.syn && p.ack && t.target == Some(p.source)))
            && u.initiator == (if PureSyn(p) then Some(p.source) else t.initiator)
            && u.target == (if PureSyn(p) then Some(p.destination) else t.target)
  {
    var asked := if PureSyn(p) then Asked(t, p) else t;
    var answered := Answered(asked, p);
    assert SameNames(answered, Acknowledged(answered, p));
  }

  lemma HeardNames(t: Tcp, u: Tcp, p: Packet)
    requires u.synSeen == (t.synSeen || PureSyn(p)) && u.synSeq == (if PureSyn(p) then p.seqno else t.synSeq)
    requires u.wire == (t.wire || PureSyn(p))
    requires u.synAck == (t.synAck || (p.syn && p.ack && t.target == Some(p.source)))
    requires u.initiator == (if PureSyn(p) then Some(p.source) else t.initiator)
    requires u.target == (if PureSyn(p) then Some(p.destination) else t.target)
    ensures Names(t, Heard(u, p), p)
  {
  }

  lemma OpenedNames(t: Tcp, p: Packet)
    ensures Names(t, Opened(t, p), p)
  {
    ShakenNames(t, p);
    HeardNames(t, Shaken(t, p), p);
    assert Opened(t, p) == Heard(Shaken(t, p), p);
  }

  /** What a packet does to the names of a connection's ends, and to its SYN. */
  predicate Names(t: Tcp, u: Tcp, p: Packet) {
    var said := PureSyn(p) || (!t.wire && p.clientMessage);
    && u.synSeen == (t.synSeen || PureSyn(p)) && u.synSeq == (if PureSyn(p) then p.seqno else t.synSeq)
    && u.wire == (t.wire || said)
    && u.synAck == (t.synAck || (p.syn && p.ack && t.target == Some(p.source)))
    && (t.wire || (t.initiator.None? && t.target.None?) ==>
          && u.initiator == (if said then Some(p.source) else t.initiator)
          && u.target == (if said then Some(p.destination) else t.target))
  }

  lemma NextNames(t: Tcp, p: Packet, a: Endpoint)
    ensures Names(t, Next(t, p, a), p)
  {
    OpenedNames(t, p);
    EndedNames(Opened(t, p), p, p.source == a);
  }

  /** The same for any value with these fields. */
  lemma NumberFollows(t: Tcp, u: Tcp, part: seq<Packet>, p: Packet)
    requires TellsNumber(t, part) && OneNumber(part, p) && Names(t, u, p)
    ensures TellsNumber(u, part + [p])
  {
    LastOf(part, p);
  }

  lemma NextNumber(t: Tcp, part: seq<Packet>, p: Packet, a: Endpoint)
    requires TellsNumber(t, part) && OneNumber(part, p)
    ensures TellsNumber(Next(t, p, a), part + [p])
  {
    NextNames(t, p, a);
    NumberFollows(t, Next(t, p, a), part, p);
  }

  lemma NextClosing(t: Tcp, part: seq<Packet>, p: Packet, a: Endpoint)
    requires TellsClosing(t, part, a)
    ensures TellsClosing(Next(t, p, a), part + [p], a)
  {
    EndsMore(part, p, a);
    assert SameEnds(t, Opened(t, p));
  }

  lemma NextAttempt(t: Tcp, part: seq<Packet>, p: Packet, a: Endpoint)
    requires TellsAttempt(t, part)
    ensures TellsAttempt(Next(t, p, a), part + [p])
  {
    UnansweredMore(part, p);
  }

  lemma EndsFollow(t: Tcp, u: Tcp, part: seq<Packet>, p: Packet)
    requires TellsEnds(t, part) && Names(t, u, p)
    ensures TellsEnds(u, part + [p])
  {
    LastOf(part, p);
    AnsweredMore(part, p);
  }

  lemma NextEnds(t: Tcp, part: seq<Packet>, p: Packet, a: Endpoint)
    requires TellsEnds(t, part)
    ensures TellsEnds(Next(t, p, a), part + [p])
  {
    NextNames(t, p, a);
    EndsFollow(t, Next(t, p, a), part, p);
  }

  lemma NextShakes(t: Tcp, part: seq<Packet>, p: Packet, a: Endpoint)
    requires Shakes(t, part, a) && OneNumber(part, p)
    ensures Shakes(Next(t, p, a), part + [p], a)
  {
    NextNumber(t, part, p, a);
    NextClosing(t, part, p, a);
    NextAttempt(t, part, p, a);
    NextEnds(t, part, p, a);
  }

  lemma NextTells(f: Flow, part: seq<Packet>, p: Packet, now: int)
    requires Tells(f, part) && (f.key.protocol == 6 ==> OneNumber(part, p))
    ensures Tells(Touched(f, p, now), part + [p])
  {
    LastOf(part, p);
    if f.key.protocol == 6 { NextShakes(f.tcp, part, p, f.key.a); }
  }

  lemma FirstTells(p: Packet, waiting: seq<Sample>, now: int)
    ensures Tells(Touched(Opening(p, waiting, now), p, now), [p])
  {
    assert Tells(Opening(p, waiting, now), []);
    NextTells(Opening(p, waiting, now), [], p, now);
    assert [] + [p] == [p];
  }

  /** The model's test for a new connection is the one on packets. */
  lemma OpensAsStarts(f: Flow, part: seq<Packet>, p: Packet)
    requires Tells(f, part) && p.key == f.key
    ensures OpensAnother(f, p) <==> StartsAnother(part, p)
    ensures !OpensAnother(f, p) && f.key.protocol == 6 ==> OneNumber(part, p)
  {
    LastSynIn(part);
  }

  /** What may make room: a connection that was reset or finished by both ends, or an
      attempt that nothing answered; and one or two datagrams, or any that all went the
      same way. */
  lemma WhatMakesRoom(f: Flow, part: seq<Packet>)
    requires Tells(f, part)
    ensures f.key.protocol == 6 ==>
              (Disposable(f) <==>
               WasReset(part) || (Finishes(part, f.key.a, true) && Finishes(part, f.key.a, false))
               || (Unanswered(part) && !WasAnswered(part)))
    ensures f.key.protocol == 17 ==>
              (Disposable(f) <==> |part| <= 2 && (BytesOut(part, false) == 0 || BytesOut(part, true) == 0))
    ensures f.key.protocol !in {6, 17} ==> !Disposable(f)
  {
  }

  // ----- A run -----

  /** One packet at the collector, with what its outcome depends on. */
  datatype Arrival = Arrival(p: Packet, now: int, waiting: seq<Sample>, limit: nat, gone: set<Key>, lost: bool)

  /** The tables before and after each of some packets, of whatever tuples, during which
      the tuple's own flow is not swept and its packets find room. */
  ghost predicate Run(key: Key, tables: seq<Flows>, arrivals: seq<Arrival>) {
    && |tables| == |arrivals| + 1
    && forall i :: 0 <= i < |arrivals| ==> Steps(key, tables[i], tables[i + 1], arrivals[i])
  }

  ghost predicate Steps(key: Key, before: Flows, after: Flows, x: Arrival) {
    && Outcome(Generation(before, x.p), after, x.waiting, x.p, x.now, x.limit, x.gone, x.lost)
    && key !in x.gone && (x.p.key == key ==> !x.lost)
  }

  function PacketsOf(arrivals: seq<Arrival>): (ps: seq<Packet>)
    ensures |ps| == |arrivals|
  {
    seq(|arrivals|, i requires 0 <= i < |arrivals| => arrivals[i].p)
  }

  function Of(flows: seq<Flow>, key: Key): seq<Flow>
    decreases |flows|
  {
    if flows == [] then []
    else Of(flows[..|flows| - 1], key) + if flows[|flows| - 1].key == key then [flows[|flows| - 1]] else []
  }

  /** The flows of a tuple, oldest first. */
  function FlowsOf(fs: Flows, key: Key): seq<Flow> {
    Of(fs.retired, key) + if key in fs.active then [fs.active[key]] else []
  }

  ghost predicate Matches(key: Key, fs: Flows, parts: seq<seq<Packet>>) {
    && Keyed(fs.active) && (parts != [] <==> key in fs.active)
    && |FlowsOf(fs, key)| == |parts|
    && forall k :: 0 <= k < |parts| ==> FlowsOf(fs, key)[k].key == key && Tells(FlowsOf(fs, key)[k], parts[k])
  }

  lemma OfMore(flows: seq<Flow>, f: Flow, key: Key)
    ensures Of(flows + [f], key) == Of(flows, key) + if f.key == key then [f] else []
  {
    assert (flows + [f])[..|flows|] == flows;
  }

  lemma OthersPass(key: Key, before: Flows, after: Flows, x: Arrival, parts: seq<seq<Packet>>)
    requires Matches(key, before, parts) && Steps(key, before, after, x) && x.p.key != key
    ensures Matches(key, after, parts)
  {
    if Reuses(before, x.p) { OfMore(before.retired, before.active[x.p.key], key); }
    assert FlowsOf(after, key) == FlowsOf(before, key);
  }

  lemma OneMore(key: Key, before: Flows, after: Flows, x: Arrival, parts: seq<seq<Packet>>)
    requires Matches(key, before, parts) && Steps(key, before, after, x) && x.p.key == key
    requires parts == [] || StartsAnother(parts[|parts| - 1], x.p)
    ensures Matches(key, after, parts + [[x.p]])
  {
    FirstTells(x.p, x.waiting, x.now);
    if parts != [] {
      OpensAsStarts(before.active[key], parts[|parts| - 1], x.p);
      OfMore(before.retired, before.active[key], key);
    }
    assert FlowsOf(after, key) == FlowsOf(before, key) + [after.active[key]];
  }

  lemma SameFlow(key: Key, before: Flows, after: Flows, x: Arrival, parts: seq<seq<Packet>>)
    requires Matches(key, before, parts) && Steps(key, before, after, x) && x.p.key == key
    requires parts != [] && !StartsAnother(parts[|parts| - 1], x.p)
    ensures Matches(key, after, parts[|parts| - 1 := parts[|parts| - 1] + [x.p]])
  {
    var last := |parts| - 1;
    OpensAsStarts(before.active[key], parts[last], x.p);
    NextTells(before.active[key], parts[last], x.p, x.now);
    assert FlowsOf(after, key) == FlowsOf(before, key)[last := after.active[key]];
  }

  lemma StretchesMore(key: Key, arrivals: seq<Arrival>)
    requires arrivals != []
    ensures PacketsOf(arrivals)[..|arrivals| - 1] == PacketsOf(arrivals[..|arrivals| - 1])
  {
  }

  /** A tuple's flows are the stretches of its packets: as many, in their order, each with
      the sums of its own stretch, its SYN, its ends and its state. */
  lemma {:induction false} FlowsAreStretches(key: Key, tables: seq<Flows>, arrivals: seq<Arrival>)
    requires Run(key, tables, arrivals) && Keyed(tables[0].active) && FlowsOf(tables[0], key) == []
    ensures Matches(key, tables[|arrivals|], Stretches(key, PacketsOf(arrivals)))
    decreases |arrivals|
  {
    if arrivals != [] {
      var n := |arrivals| - 1;
      var x, ps := arrivals[n], PacketsOf(arrivals);
      FlowsAreStretches(key, tables[..n + 1], arrivals[..n]);
      StretchesMore(key, arrivals);
      var parts := Stretches(key, PacketsOf(arrivals[..n]));
      assert Steps(key, tables[n], tables[n + 1], x);
      if x.p.key != key {
        OthersPass(key, tables[n], tables[n + 1], x, parts);
      } else if parts == [] || StartsAnother(parts[|parts| - 1], x.p) {
        OneMore(key, tables[n], tables[n + 1], x, parts);
      } else {
        SameFlow(key, tables[n], tables[n + 1], x, parts);
      }
    }
  }
}
