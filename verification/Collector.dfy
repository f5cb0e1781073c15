/** The per-interface collector: a bounded flow table with generations, eviction and
    expiry, and the accounts of captured and socket bytes it keeps through all of them. */
module Collector {
  import opened Prelude
  import opened MapSums
  import opened FlowTable
  import opened Ledgers
  import Sorting

  const MINUTE := 60 * SECOND
  const LATE_EVENT_WINDOW := 2 * SECOND

  // ----- Candidates for eviction -----

  function Candidates(flows: map<Key, Flow>): set<Key> { set k | k in flows && Disposable(flows[k]) }

  function Min(a: nat, b: nat): nat { if a < b then a else b }

  /** How many flows one sweep frees. */
  function SweepSize(flows: map<Key, Flow>, maxFlows: nat): nat { Min(|Candidates(flows)|, maxFlows / 10 + 1) }

  /** A sweep frees more than a tenth of the limit, and no more than one beyond it, unless
      there are fewer candidates. */
  lemma SweepsATenth(flows: map<Key, Flow>, maxFlows: nat)
    ensures var n := SweepSize(flows, maxFlows);
            n <= |Candidates(flows)| && (n == |Candidates(flows)| || (maxFlows < n * 10 <= maxFlows + 10))
  {
  }

  /** `gone` are the oldest of the candidates. */
  ghost predicate OldestOf(gone: set<Key>, flows: map<Key, Flow>) {
    && gone <= Candidates(flows)
    && forall e, k :: e in gone && k in Candidates(flows) - gone ==> flows[e].last <= flows[k].last
  }

  /** One sweep: the oldest candidates are gone, as many as it may free, and nothing else. */
  ghost predicate Evicted(before: map<Key, Flow>, after: map<Key, Flow>, gone: set<Key>, maxFlows: nat) {
    OldestOf(gone, before) && |gone| == SweepSize(before, maxFlows) && after == before - gone
  }

  lemma NothingToEvict(flows: map<Key, Flow>, maxFlows: nat)
    requires |Candidates(flows)| == 0
    ensures Candidates(flows) == {} && Evicted(flows, flows, {}, maxFlows)
  {
    assert flows - {} == flows;
  }

  ghost predicate Ordered(keys: seq<Key>, flows: map<Key, Flow>) {
    && (forall i :: 0 <= i < |keys| ==> keys[i] in flows)
    && forall i, j :: 0 <= i < j < |keys| ==> flows[keys[i]].last <= flows[keys[j]].last
  }

  function Prefix(keys: seq<Key>, n: nat): set<Key>
    requires n <= |keys|
  {
    set k | k in keys[..n]
  }

  lemma {:induction false} PrefixCount(keys: seq<Key>, all: set<Key>, n: nat)
    requires multiset(keys) == multiset(all) && n <= |keys|
    ensures |Prefix(keys, n)| == n && Prefix(keys, n) <= all
    ensures n < |keys| ==> keys[n] in all && keys[n] !in Prefix(keys, n)
  {
    if n > 0 {
      PrefixCount(keys, all, n - 1);
      PrefixMore(keys, n - 1);
    }
    if n < |keys| {
      var k := keys[n];
      var before, after := multiset(keys[..n]), multiset(keys[n..]);
      assert keys == keys[..n] + keys[n..] && keys[n..][0] == k;
      assert multiset(keys)[k] == before[k] + after[k] && after[k] >= 1;
      assert multiset(all)[k] <= 1;
      assert before[k] == 0;
    }
  }

  lemma PrefixMore(keys: seq<Key>, n: nat)
    requires n < |keys|
    ensures Prefix(keys, n + 1) == Prefix(keys, n) + {keys[n]}
  {
    assert keys[..n + 1] == keys[..n] + [keys[n]];
  }

  lemma PrefixIsOldest(keys: seq<Key>, flows: map<Key, Flow>, n: nat)
    requires multiset(keys) == multiset(Candidates(flows)) && Ordered(keys, flows) && n <= |keys|
    ensures OldestOf(Prefix(keys, n), flows)
  {
    PrefixCount(keys, Candidates(flows), n);
    forall e, k | e in Prefix(keys, n) && k in Candidates(flows) - Prefix(keys, n)
      ensures flows[e].last <= flows[k].last
    {
      assert k in multiset(keys);
      var i :| 0 <= i < n && keys[..n][i] == e;
      var j :| 0 <= j < |keys| && keys[j] == k;
      assert forall i :: 0 <= i < n ==> keys[..n][i] == keys[i];
    }
  }

  predicate Distinct(keys: seq<Key>) { forall i, j :: 0 <= i < j < |keys| ==> keys[i] != keys[j] }

  lemma NextVictim(victims: seq<Key>, i: nat, flows: map<Key, Flow>)
    requires Distinct(victims) && i < |victims| && Prefix(victims, |victims|) <= flows.Keys
    ensures victims[i] in flows - Prefix(victims, i)
    ensures flows - Prefix(victims, i) - {victims[i]} == flows - Prefix(victims, i + 1)
  {
    PrefixMore(victims, i);
    assert victims[..|victims|] == victims;
    assert victims[i] in Prefix(victims, |victims|);
  }

  /** The oldest disposable flows, at most `cap` of them. */
  method ChooseVictims(flows: map<Key, Flow>, cap: nat) returns (victims: seq<Key>)
    ensures Distinct(victims) && OldestOf(Prefix(victims, |victims|), flows)
    ensures |victims| == |Prefix(victims, |victims|)| == Min(|Candidates(flows)|, cap)
  {
    var candidates := CollectDisposable(flows);
    CandidateCount(candidates, flows);
    candidates := SortByLast(candidates, flows);
    var n := Min(|candidates|, cap);
    PrefixIsOldest(candidates, flows, n);
    PrefixCount(candidates, Candidates(flows), n);
    AllDistinct(candidates, Candidates(flows));
    victims := candidates[..n];
    assert victims[..|victims|] == victims;
    assert Prefix(victims, |victims|) == Prefix(candidates, n);
  }

  lemma AllDistinct(keys: seq<Key>, all: set<Key>)
    requires multiset(keys) == multiset(all)
    ensures Distinct(keys)
  {
    forall i, j | 0 <= i < j < |keys| ensures keys[i] != keys[j] {
      PrefixCount(keys, all, j);
      assert keys[..j][i] == keys[i];
    }
  }

  method CollectDisposable(flows: map<Key, Flow>) returns (candidates: seq<Key>)
    ensures multiset(candidates) == multiset(Candidates(flows))
  {
    candidates := [];
    var todo := flows.Keys;
    ghost var done: set<Key> := {};
    while todo != {}
      invariant done !! todo && done + todo == flows.Keys
      invariant multiset(candidates) == multiset(Candidates(flows) * done)
      decreases |todo|
    {
      ghost var some := Member(todo);
      var k :| k in todo;
      if Disposable(flows[k]) {
        candidates := candidates + [k];
        assert Candidates(flows) * (done + {k}) == Candidates(flows) * done + {k};
      } else {
        assert Candidates(flows) * (done + {k}) == Candidates(flows) * done;
      }
      todo := todo - {k};
      done := done + {k};
    }
    assert Candidates(flows) * done == Candidates(flows);
  }

  /** Oldest first; the order among equals is left open. */
  method SortByLast(keys: seq<Key>, flows: map<Key, Flow>) returns (sorted: seq<Key>)
    requires forall i :: 0 <= i < |keys| ==> keys[i] in flows
    ensures multiset(sorted) == multiset(keys) && |sorted| == |keys| && Ordered(sorted, flows)
  {
    var last := (k: Key) => if k in flows then flows[k].last else 0;
    sorted := Sorting.SortBy(keys, last);
    forall i | 0 <= i < |sorted| ensures sorted[i] in flows {
      assert sorted[i] in multiset(sorted) && sorted[i] in multiset(keys);
    }
    forall i, j | 0 <= i < j < |sorted| ensures flows[sorted[i]].last <= flows[sorted[j]].last {
      assert last(sorted[i]) <= last(sorted[j]);
    }
  }

  // ----- Expiry -----

  function Lifetime(f: Flow): int { if f.tcp.closed then MINUTE else 5 * MINUTE }

  predicate Expired(f: Flow, now: int) { now - f.last > Lifetime(f) }

  predicate TakesEvents(f: Flow, now: int) { !f.tcp.closed || now - f.last < LATE_EVENT_WINDOW }

  // ----- Where a packet goes -----

  predicate Full(fs: Flows, limit: nat) { |fs.active| + |fs.retired| >= limit }

  predicate Reuses(fs: Flows, p: Packet) { p.key in fs.active && OpensAnother(fs.active[p.key], p) }

  /** A new SYN on a known tuple retires the connection it had. */
  function Generation(fs: Flows, p: Packet): Flows { if Reuses(fs, p) then Retire(fs, p.key) else fs }

  /** The flow that a packet ends: that of its tuple, if the packet is a TCP SYN and the
      flow has seen none or one with another number. */
  function Ends(p: Packet, flows: map<Key, Flow>): seq<Flow> {
    if p.key in flows && p.key.protocol == 6 && p.syn && !p.ack
       && (flows[p.key].tcp.synSeen ==> p.seqno != flows[p.key].tcp.synSeq)
    then [flows[p.key]] else []
  }

  /** The samples that a packet's new entry would take. */
  function WaitingFor(q: Queue, p: Packet): seq<Sample> { if Reuses(q.fs, p) then [] else Waiting(q, p.key) }

  predicate TakesPending(p: Packet) { p.key.protocol == UDP || (p.key.protocol == TCP && p.syn && !p.ack) }

  /** The entry a packet opens, given the samples that waited for its tuple. */
  function Opening(p: Packet, waiting: seq<Sample>, now: int): (f: Flow)
    ensures f.key == p.key && f.rx == f.tx == 0
  {
    WithIo(NewFlow(p.key, now), if TakesPending(p) then Attached(map[], waiting, now) else map[])
  }

  /** A datagram or a SYN opens its entry with what waited for the tuple, any other packet
      with nothing. */
  lemma OpeningTakes(p: Packet, waiting: seq<Sample>, now: int, id: Process)
    ensures var takes := p.key.protocol == 17 || (p.key.protocol == 6 && p.syn && !p.ack);
            Entry(Opening(p, waiting, now).io, id) ==
            if takes then IoBytes(FreshBytes(waiting, id, false, now), FreshBytes(waiting, id, true, now)) else NOTHING
  {
    AttachedByProcess(map[], waiting, now, id);
  }

  lemma OverwriteTwice(flows: map<Key, Flow>, f: Flow, g: Flow)
    requires f.key == g.key
    ensures flows[f.key := f][f.key := g] == flows[f.key := g]
  {
  }

  /** The flow a packet is counted in is known, or there is room, or room can be made. */
  predicate Indexable(fs: Flows, key: Key, limit: nat) {
    key in fs.active || !Full(fs, limit) || Candidates(fs.active) != {}
  }

  /** What the table was swept of before a packet could open an entry. */
  ghost predicate Swept(fs: Flows, key: Key, limit: nat, gone: set<Key>) {
    if key in fs.active || !Full(fs, limit) then gone == {}
    else OldestOf(gone, fs.active) && |gone| == SweepSize(fs.active, limit)
  }

  /** The table after an indexable packet. */
  ghost function Placed(fs: Flows, waiting: seq<Sample>, p: Packet, now: int, gone: set<Key>): Flows {
    var start := if p.key in fs.active then fs.active[p.key] else Opening(p, waiting, now);
    fs.(active := (fs.active - gone)[p.key := Touched(start, p, now)])
  }

  /** What became of a packet: `lost` says that it was left unindexed. */
  ghost predicate Outcome(fs: Flows, after: Flows, waiting: seq<Sample>, p: Packet, now: int, limit: nat,
                          gone: set<Key>, lost: bool) {
    && Swept(fs, p.key, limit, gone) && (lost <==> !Indexable(fs, p.key, limit))
    && after == if lost then fs else Placed(fs, waiting, p, now, gone)
  }

  lemma GenerationEnds(fs: Flows, p: Packet)
    ensures Generation(fs, p).retired == fs.retired + Ends(p, fs.active)
  {
  }

  lemma FewerCandidates(flows: map<Key, Flow>, gone: set<Key>)
    ensures Candidates(flows - gone) <= Candidates(flows)
  {
  }

  lemma FlagAfter(flows: map<Key, Flow>, f: Flow)
    requires Candidates(flows - {f.key}) == {} && !Disposable(f)
    ensures Candidates(flows[f.key := f]) == {}
  {
    assert Candidates(flows[f.key := f]) <= Candidates(flows - {f.key});
  }

  // ----- Probe events -----

  /** `connect` holds, for a connection attempt's result, whether it failed. */
  datatype Event = Event(
    key: Key, local: Endpoint, remote: Endpoint, id: Process, send: bool, bytes: nat, accepted: bool,
    connect: Option<bool>, stateOnly: bool, echo: bool)

  datatype Connect = Connect(key: Key, local: Endpoint, remote: Endpoint, accepted: bool, failed: bool)

  /** The entry for a connection attempt that no packet showed. */
  function Attempt(c: Connect, now: int): (f: Flow)
    ensures f.key == c.key && f.rx == f.tx == 0 && f.io == map[]
  {
    var f := NewFlow(c.key, now);
    f.(tcp := f.tcp.(state := SynSent, initiator := Some(c.local), target := Some(c.remote)))
  }

  function Connected(f: Flow, c: Connect, now: int): (r: Flow)
    ensures r.key == f.key && r.io == f.io && r.rx == f.rx && r.tx == f.tx
  {
    if c.failed then f.(last := now, tcp := f.tcp.(failed := true, closed := true)) else f
  }

  /** What becomes of the flow table when an attempt's result arrives. */
  ghost predicate Concluded(fs: Flows, after: Flows, c: Connect, isBase: bool, now: int, limit: nat, gone: set<Key>) {
    var late := c.key in fs.active && !TakesEvents(fs.active[c.key], now);
    if !c.accepted || (!isBase && (late || c.key !in fs.active)) then after == fs && gone == {}
    else
      var gen := if late then Retire(fs, c.key) else fs;
      && Swept(gen, c.key, limit, gone)
      && after == if !Indexable(gen, c.key, limit) then gen
                  else gen.(active := (gen.active - gone)[c.key :=
                              Connected(if c.key in gen.active then gen.active[c.key] else Attempt(c, now), c, now)])
  }

  predicate NoRoomFor(p: Pids, id: Process) { id !in p.io && p.limit > 0 && |p.io| >= p.limit }

  /** Whose an event's bytes are. */
  function Charged(p: Pids, e: Event, now: int): (r: Pids)
    ensures r.received + r.sent == p.received + p.sent + e.bytes
  {
    if NoRoomFor(p, e.id) then Overflowed(p, e.send, e.bytes) else Owned(p, e.id, e.send, e.bytes, now)
  }

  /** Where an indexed event's bytes go. */
  function Routed(q: Queue, e: Event, now: int): Queue {
    var sample := Sample(e.id, e.send, e.bytes, now);
    if !e.accepted then Unmatched(q, e.bytes)
    else if e.key in q.fs.active && TakesEvents(q.fs.active[e.key], now) then InFlow(q, e.key, sample)
    else if e.key !in q.fs.active && q.count < MAX_SAMPLES then Queued(q, e.key, sample)
    else Unmatched(q, e.bytes)
  }

  /** Whether an event's flow is known and open, or closed less than two seconds ago. */
  predicate IsOpen(q: Queue, e: Event, now: int) {
    e.key in q.fs.active && (q.fs.active[e.key].tcp.closed ==> now - q.fs.active[e.key].last < 2_000_000_000)
  }

  predicate Waits(q: Queue, e: Event) { e.key !in q.fs.active && q.count < 4096 }

  /** Where an event's bytes end up: in its flow if that takes them; with the samples that
      wait if no flow is known and fewer than 4096 wait; otherwise, and for a port that is
      filtered out, unmatched. */
  lemma WhereBytesGo(q: Queue, e: Event, now: int)
    ensures e.accepted && IsOpen(q, e, now) ==>
              Routed(q, e, now) == InFlow(q, e.key, Sample(e.id, e.send, e.bytes, now))
    ensures e.accepted && Waits(q, e) ==>
              Routed(q, e, now) ==
              q.(pending := q.pending[e.key := Waiting(q, e.key) + [Sample(e.id, e.send, e.bytes, now)]],
                 count := q.count + 1, indexed := q.indexed + e.bytes)
    ensures !e.accepted || (!IsOpen(q, e, now) && !Waits(q, e)) ==>
              Routed(q, e, now) == q.(indexed := q.indexed + e.bytes, unmatched := q.unmatched + e.bytes)
  {
  }

  /** The entry for an attempt holds no packet and may make room at once; it has ended iff
      the attempt failed. */
  lemma AttemptMeans(c: Connect, now: int)
    ensures var f := Connected(Attempt(c, now), c, now);
            && f.last == now && f.packets == 0 && f.tcp.failed == f.tcp.closed == c.failed && !f.tcp.synSeen
            && f.tcp.initiator == Some(c.local) && f.tcp.target == Some(c.remote)
            && (c.key.protocol == 6 ==> Disposable(f))
  {
  }

  function ChargedFor(p: Pids, e: Event, now: int): Pids { if Carries(e) then Charged(p, e, now) else p }

  /** Where the bytes of an event go that finds a process entry or room for one. */
  function RoutedFor(q: Queue, p: Pids, e: Event, now: int): Queue {
    if Carries(e) && !NoRoomFor(p, e.id) then Routed(q, e, now) else q
  }

  function Marked(q: Queue, key: Key, entry: Link): Queue
    requires key in q.fs.active
  {
    q.(fs := q.fs.(active := q.fs.active[key := q.fs.active[key].(link := Some(entry))]))
  }

  /** One tuple of a NAT entry: its flow, if captured and not yet linked, is marked and
      gets what waited for the socket's tuple, unless that is captured as well. */
  function Linked(q: Queue, key: Key, socket: Key, entry: Link, now: int): Queue {
    if key !in q.fs.active || q.fs.active[key].link == Some(entry) then q
    else if socket in q.fs.active then Marked(q, key, entry)
    else Attach(Marked(q, key, entry), socket, key, now)
  }

  function LinkedBoth(q: Queue, original: Key, reply: Key, entry: Link, now: int): Queue {
    Linked(Linked(q, original, reply, entry, now), reply, original, entry, now)
  }

  /** Linking captures nothing and releases nothing. Where one tuple alone is captured,
      nothing goes on waiting for the other; and linking again changes nothing, whatever
      came to wait in between. */
  lemma LinkingIsOnce(q: Queue, original: Key, reply: Key, entry: Link, now: int, more: map<Key, seq<Sample>>,
                      later: int)
    requires Keyed(q.fs.active) && original != reply
    ensures var r := LinkedBoth(q, original, reply, entry, now);
            && r.fs.active.Keys == q.fs.active.Keys && r.released == q.released
            && (original in q.fs.active && reply !in q.fs.active && q.fs.active[original].link != Some(entry) ==>
                  reply !in r.pending && r.pending == q.pending - {reply})
            && (reply in q.fs.active && original !in q.fs.active && q.fs.active[reply].link != Some(entry) ==>
                  r.pending == q.pending - {original})
            && LinkedBoth(r.(pending := more), original, reply, entry, later) == r.(pending := more)
  {
  }

  // The table and the two ledgers as one value, and the set of those whose accounts all
  // balance, but for the `owed` bytes of a packet counted and not yet placed in a flow.
  datatype Books = Books(table: Table, queue: Queue, pids: Pids)

  ghost function Sound(owed: IoBytes): iset<Books> {
    iset b: Books | b.table in Balances(owed) && b.queue in Settleds() && b.pids in Attributeds()
  }

  lemma SoundArrived(b: Books, bytes: IoBytes)
    requires b in Sound(NOTHING)
    ensures Books(Arrived(b.table, bytes), b.queue, b.pids) in Sound(bytes)
  {
    ArrivedKeeps(b.table, bytes);
  }

  lemma NothingYet(t: Table, q: Queue, p: Pids)
    requires t.fs.active == map[] && t.fs.retired == [] && q.fs == t.fs && t.rx == t.tx == t.bytes == 0
    requires t.expired == t.unindexed == p.expired == p.unindexed == NOTHING
    requires q.pending == map[] && q.count == q.unmatched == q.indexed == q.released == 0
    requires p.io == map[] && p.seen == map[] && p.received == p.sent == p.indexed == 0
    ensures Books(t, q, p) in Sound(NOTHING) && Candidates(t.fs.active) == {}
  {
    NoFlowsYet(t);
    NoSamplesYet(q);
    NoProcessesYet(p);
    Together(t, q, p);
  }

  lemma Together(t: Table, q: Queue, p: Pids)
    requires t in Balances(NOTHING) && q in Settleds() && p in Attributeds()
    ensures Books(t, q, p) in Sound(NOTHING)
  {
  }

  lemma NoFlowsYet(t: Table)
    requires t.fs.active == map[] && t.fs.retired == [] && t.rx == t.tx == t.bytes == 0
    requires t.expired == t.unindexed == NOTHING
    ensures t in Balances(NOTHING)
  {
  }

  lemma NoSamplesYet(q: Queue)
    requires q.fs.active == map[] && q.fs.retired == [] && q.pending == map[]
    requires q.count == q.unmatched == q.indexed == q.released == 0
    ensures q in Settleds()
  {
  }

  lemma NoKeysYet(p: Pids)
    requires p.io == map[] && p.seen == map[]
    ensures p.io.Keys == p.seen.Keys && |p.io| == 0
  {
  }

  lemma NoneAttributed(p: Pids)
    requires p.io.Keys == p.seen.Keys && |p.io| <= p.limit && Sum(p.io, Received) == 0 && Sum(p.io, Sent) == 0
    requires p.received == p.sent == p.indexed == 0 && p.expired == p.unindexed == NOTHING
    ensures Attributed(p)
  {
  }

  lemma NoProcessesYet(p: Pids)
    requires p.io == map[] && p.seen == map[] && p.received == p.sent == p.indexed == 0
    requires p.expired == p.unindexed == NOTHING
    ensures p in Attributeds()
  {
    NoIoYet(p);
    NoKeysYet(p);
    NoneAttributed(p);
  }

  lemma NoIoYet(p: Pids)
    requires p.io == map[]
    ensures Sum(p.io, Received) == 0 && Sum(p.io, Sent) == 0
  {
    SumNone<Process, IoBytes>(Received);
    SumNone<Process, IoBytes>(Sent);
  }

  ghost function Aged(fs: Flows, ids: set<Process>, now: int): Flows {
    Flows(LiveBut(StrippedBut(fs.active, {}, ids), {}, now), Survivors(StrippedSeq(fs.retired, |fs.retired|, ids), now))
  }

  // ----- Ageing, flow by flow -----

  /** All flows but those still to do, without the I/O of these processes. */
  ghost function StrippedBut(flows: map<Key, Flow>, todo: set<Key>, ids: set<Process>): map<Key, Flow> {
    map k | k in flows :: if k in todo then flows[k] else Stripped(flows[k], ids)
  }

  ghost function StrippedSeq(flows: seq<Flow>, n: nat, ids: set<Process>): (r: seq<Flow>)
    ensures |r| == |flows|
  {
    seq(|flows|, i requires 0 <= i < |flows| => if i < n then Stripped(flows[i], ids) else flows[i])
  }

  lemma StripEnds(flows: map<Key, Flow>, retired: seq<Flow>, ids: set<Process>)
    ensures StrippedBut(flows, flows.Keys, ids) == flows && StrippedSeq(retired, 0, ids) == retired
  {
  }

  lemma StripNext(flows: map<Key, Flow>, todo: set<Key>, key: Key, ids: set<Process>)
    requires key in todo && key in flows
    ensures var before := StrippedBut(flows, todo, ids);
            key in before && StrippedBut(flows, todo - {key}, ids) == before[key := Stripped(before[key], ids)]
  {
  }

  lemma StripNextRetired(flows: seq<Flow>, i: nat, ids: set<Process>)
    requires i < |flows|
    ensures var before := StrippedSeq(flows, i, ids);
            StrippedSeq(flows, i + 1, ids) == before[i := Stripped(before[i], ids)]
  {
  }

  /** All flows but the expired ones among those done. */
  ghost function LiveBut(flows: map<Key, Flow>, todo: set<Key>, now: int): map<Key, Flow> {
    map k | k in flows && (k in todo || !Expired(flows[k], now)) :: flows[k]
  }

  lemma LiveEnds(flows: map<Key, Flow>, now: int)
    ensures LiveBut(flows, flows.Keys, now) == flows
  {
  }

  lemma LiveNext(flows: map<Key, Flow>, todo: set<Key>, key: Key, now: int)
    requires key in todo && key in flows
    ensures var before := LiveBut(flows, todo, now);
            && key in before && before[key] == flows[key]
            && LiveBut(flows, todo - {key}, now) == if Expired(flows[key], now) then before - {key} else before
  {
  }

  ghost function Survivors(flows: seq<Flow>, now: int): seq<Flow>
    decreases |flows|
  {
    if flows == [] then []
    else
      var k := |flows| - 1;
      Survivors(flows[..k], now) + if Expired(flows[k], now) then [] else [flows[k]]
  }

  /** The first `done` flows of `all` have been looked at, and `i` of them kept. */
  ghost predicate SweptTo(all: seq<Flow>, flows: seq<Flow>, done: nat, i: nat, now: int) {
    done <= |all| && flows == Survivors(all[..done], now) + all[done..] && i == |Survivors(all[..done], now)|
  }

  function StepOver(flows: seq<Flow>, i: nat, now: int): (seq<Flow>, nat)
    requires i < |flows|
  {
    if Expired(flows[i], now) then (flows[..i] + flows[i + 1..], i) else (flows, i + 1)
  }

  lemma SurvivorNext(all: seq<Flow>, flows: seq<Flow>, done: nat, i: nat, now: int)
    requires SweptTo(all, flows, done, i, now) && i < |flows|
    ensures var (after, next) := StepOver(flows, i, now);
            SweptTo(all, after, done + 1, next, now) && |after| - next < |flows| - i
  {
    assert all[..done + 1][..done] == all[..done];
    assert all[done..] == [all[done]] + all[done + 1..];
  }

  lemma SurvivorEnd(all: seq<Flow>, flows: seq<Flow>, done: nat, i: nat, now: int)
    requires SweptTo(all, flows, done, i, now) && i >= |flows|
    ensures flows == Survivors(all, now)
  {
    assert all[..done] == all;
  }

  lemma AgedCandidates(fs: Flows, ids: set<Process>, now: int)
    ensures Candidates(Aged(fs, ids, now).active) <= Candidates(fs.active)
  {
  }

  /** A closed flow stays for a minute after its last packet, any other for five. */
  predicate Stays(f: Flow, now: int) { now - f.last <= if f.tcp.closed then 60_000_000_000 else 300_000_000_000 }

  lemma {:induction false} SurvivorsStay(flows: seq<Flow>, now: int, f: Flow)
    ensures f in Survivors(flows, now) <==> f in flows && Stays(f, now)
    decreases |flows|
  {
    if flows != [] {
      var k := |flows| - 1;
      SurvivorsStay(flows[..k], now, f);
      assert flows == flows[..k] + [flows[k]];
    }
  }

  /** What ageing leaves: the flows that stay, with all they had but the I/O of processes
      that are not known any more. */
  lemma WhatStays(fs: Flows, ids: set<Process>, now: int, key: Key, f: Flow)
    ensures var aged := Aged(fs, ids, now).active;
            && (key in aged <==> key in fs.active && Stays(fs.active[key], now))
            && (key in aged ==> aged[key] == fs.active[key].(io := fs.active[key].io - ids))
    ensures f in Aged(fs, ids, now).retired <==>
            Stays(f, now) && exists g :: g in fs.retired && f == g.(io := g.io - ids)
  {
    var stripped := StrippedSeq(fs.retired, |fs.retired|, ids);
    SurvivorsStay(stripped, now, f);
    if f in stripped {
      var i :| 0 <= i < |stripped| && stripped[i] == f;
      assert fs.retired[i] in fs.retired && f == Stripped(fs.retired[i], ids);
    }
    forall g | g in fs.retired && f == g.(io := g.io - ids) ensures f in stripped {
      var i :| 0 <= i < |fs.retired| && fs.retired[i] == g;
      assert stripped[i] == f;
    }
  }

  /** The samples that stay are those of the last two seconds. */
  lemma {:induction false} WhatWaits(samples: seq<Sample>, now: int, s: Sample)
    ensures s in Kept(samples, now, false) <==> s in samples && now - s.seen <= 2_000_000_000
    ensures Kept(samples, now, true) == []
    decreases |samples|
  {
    if samples != [] {
      var k := |samples| - 1;
      WhatWaits(samples[..k], now, s);
      assert samples == samples[..k] + [samples[k]];
    }
  }

  /** A process is known for five minutes after its last event. */
  lemma WhoIsForgotten(seen: map<Process, int>, now: int, id: Process)
    ensures id in Unseen(seen, now) <==> id in seen && now - seen[id] > 300_000_000_000
  {
  }

  function Result(e: Event): Connect
    requires e.connect.Some?
  {
    Connect(e.key, e.local, e.remote, e.accepted, e.connect.value)
  }

  ghost predicate ConcludedFor(e: Event, before: Flows, after: Flows, isBase: bool, now: int, limit: nat,
                               gone: set<Key>) {
    if e.connect.Some? then Concluded(before, after, Result(e), isBase, now, limit, gone)
    else after == before && gone == {}
  }

  /** Processes last seen more than five minutes ago. */
  function Unseen(seen: map<Process, int>, now: int): set<Process> {
    set id | id in seen && now - seen[id] > 5 * MINUTE
  }

  lemma SameProcesses(p: Pids)
    requires p in Attributeds()
    ensures p.io.Keys == p.seen.Keys
  {
  }

  lemma UnseenNext(seen: map<Process, int>, todo: set<Process>, id: Process, now: int)
    requires id in todo && todo <= seen.Keys
    ensures id !in Unseen(seen, now) - todo
    ensures Unseen(seen, now) - (todo - {id}) ==
            (Unseen(seen, now) - todo) + if now - seen[id] > 5 * MINUTE then {id} else {}
  {
  }

  lemma MinusOne<K, V>(m: map<K, V>, gone: set<K>, k: K)
    ensures m - gone - {k} == m - (gone + {k})
  {
  }

  /** The queues once all but those still to do are trimmed. */
  ghost function PartlyKept(pending: map<Key, seq<Sample>>, todo: set<Key>, now: int,
                            flushAll: bool): map<Key, seq<Sample>> {
    map k | k in pending && (k in todo || Kept(pending[k], now, flushAll) != []) ::
      if k in todo then pending[k] else Kept(pending[k], now, flushAll)
  }

  lemma PartlyEnds(pending: map<Key, seq<Sample>>, now: int, flushAll: bool)
    ensures PartlyKept(pending, pending.Keys, now, flushAll) == pending
    ensures PartlyKept(pending, {}, now, flushAll) == KeptQueues(pending, now, flushAll)
  {
  }

  lemma PartlyNext(pending: map<Key, seq<Sample>>, todo: set<Key>, key: Key, now: int, flushAll: bool)
    requires key in todo && key in pending
    ensures var before, kept := PartlyKept(pending, todo, now, flushAll), Kept(pending[key], now, flushAll);
            && key in before && before[key] == pending[key]
            && PartlyKept(pending, todo - {key}, now, flushAll) ==
                 if kept == [] then before - {key} else before[key := kept]
  {
  }

  /** Events whose bytes are accounted: not those that only carry socket state, nor
      those of ICMP sockets. */
  predicate Carries(e: Event) { !e.stateOnly && !e.echo && e.bytes > 0 }

  lemma SameCandidates(flows: map<Key, Flow>, key: Key, f: Flow)
    requires key in flows && (Disposable(f) <==> Disposable(flows[key]))
    ensures Candidates(flows[key := f]) == Candidates(flows)
  {
  }

  lemma RoutedIndexes(q: Queue, e: Event, now: int)
    ensures Routed(q, e, now).indexed == q.indexed + e.bytes
  {
  }

  lemma RoutedKeeps(t: Table, q: Queue, e: Event, now: int)
    requires t in Balances(NOTHING) && q in Settleds() && q.fs == t.fs
    ensures Routed(q, e, now) in Settleds() && t.(fs := Routed(q, e, now).fs) in Balances(NOTHING)
    ensures Candidates(Routed(q, e, now).fs.active) == Candidates(q.fs.active)
  {
    var sample := Sample(e.id, e.send, e.bytes, now);
    UnmatchedKeeps(q, e.bytes);
    if e.key in q.fs.active {
      KeyedAt(t, e.key, NOTHING);
      InFlowKeeps(q, e.key, sample);
      var f := q.fs.active[e.key];
      var g := Grown(f, sample);
      AttachBalances(t, g, NOTHING);
      SameCandidates(q.fs.active, e.key, g);
    } else if q.count < MAX_SAMPLES {
      QueuedKeeps(q, e.key, sample);
    }
  }

  lemma StoredAside(flows: map<Key, Flow>, f: Flow)
    requires f.key !in flows
    ensures flows[f.key := f] - {f.key} == flows
  {
  }

  lemma KeptWhole(flows: map<Key, Flow>, gone: set<Key>, maxFlows: nat)
    requires Candidates(flows) == {} && gone <= Candidates(flows)
    ensures flows - gone == flows
  {
  }

  lemma TableBounded(t: Table, owed: IoBytes)
    requires t in Balances(owed)
    ensures |t.fs.active| + |t.fs.retired| <= t.limit
  {
  }

  lemma SweptRoom(before: map<Key, Flow>, after: map<Key, Flow>, gone: set<Key>, retired: nat, limit: nat)
    requires Evicted(before, after, gone, limit) && |before| + retired == limit
    ensures |after| + retired < limit <==> Candidates(before) != {}
  {
    RemoveAllCount(before, gone);
  }

  lemma KeyedAt(t: Table, key: Key, owed: IoBytes)
    requires t in Balances(owed) && key in t.fs.active
    ensures t.fs.active[key].key == key
  {
  }

  lemma AttachBalances(t: Table, f: Flow, owed: IoBytes)
    requires t in Balances(owed) && f.key in t.fs.active
    requires f.rx == t.fs.active[f.key].rx && f.tx == t.fs.active[f.key].tx
    ensures t.(fs := Put(t.fs, f)) in Balances(owed)
  {
    assert Plus(NOTHING, owed) == owed;
    ReplaceKeeps(t, f, NOTHING, owed);
  }

  lemma RemoveAllCount(flows: map<Key, Flow>, gone: set<Key>)
    requires gone <= flows.Keys
    ensures |flows - gone| == |flows| - |gone|
  {
    assert (flows - gone).Keys == flows.Keys - gone;
  }

  lemma CandidateCount(candidates: seq<Key>, flows: map<Key, Flow>)
    requires multiset(candidates) == multiset(Candidates(flows))
    ensures |candidates| == |Candidates(flows)|
    ensures forall i :: 0 <= i < |candidates| ==> candidates[i] in flows
  {
    assert |multiset(candidates)| == |candidates|;
    assert |multiset(Candidates(flows))| == |Candidates(flows)|;
    forall i | 0 <= i < |candidates| ensures candidates[i] in flows {
      assert candidates[i] in multiset(candidates);
    }
  }

  class Collector {
    const maxFlows: nat
    const isBase: bool
    var flows: map<Key, Flow>
    var retired: seq<Flow>
    var evictionBlocked: bool
    var packets: nat
    var bytes: nat
    var rxBytes: nat
    var txBytes: nat
    var expired: IoBytes
    var expiredFlows: nat
    var unindexed: IoBytes
    var droppedFlow: nat
    var pidIO: map<Process, IoBytes>
    var pidSeen: map<Process, int>
    var expiredPIDIO: IoBytes
    var ioUnindexed: IoBytes
    var pendingIO: map<Key, seq<Sample>>
    var pendingIOCount: int
    var ioUnmatched: nat
    ghost var received: nat
    ghost var sent: nat
    ghost var indexed: nat
    ghost var released: nat

    ghost function FlowsView(): Flows
      reads this
    {
      Flows(flows, retired)
    }

    ghost function TableView(): Table
      reads this
    {
      Table(FlowsView(), maxFlows, rxBytes, txBytes, bytes, expired, unindexed)
    }

    ghost function QueueView(): Queue
      reads this
    {
      Queue(FlowsView(), pendingIO, pendingIOCount, ioUnmatched, indexed, released)
    }

    ghost function PidsView(): Pids
      reads this
    {
      Pids(maxFlows, pidIO, pidSeen, expiredPIDIO, ioUnindexed, received, sent, indexed)
    }

    /** The accounts balance, but for `owed` bytes of the packet in hand. */
    ghost predicate Accounted(owed: IoBytes)
      reads this
    {
      Books(TableView(), QueueView(), PidsView()) in Sound(owed)
    }

    /** The flag agrees with the scan it saves. */
    ghost predicate FlagIsRight()
      reads this
    {
      evictionBlocked ==> Candidates(flows) == {}
    }

    ghost predicate Valid()
      reads this
    {
      Accounted(NOTHING) && FlagIsRight()
    }

    constructor (maxFlows: nat, isBase: bool)
      ensures Valid() && this.maxFlows == maxFlows && this.isBase == isBase
      ensures flows == map[] && retired == [] && bytes == received == sent == 0
    {
      this.maxFlows, this.isBase := maxFlows, isBase;
      flows, retired, evictionBlocked, packets, bytes, rxBytes, txBytes := map[], [], false, 0, 0, 0, 0;
      expired, expiredFlows, unindexed, droppedFlow := NOTHING, 0, NOTHING, 0;
      pidIO, pidSeen, expiredPIDIO, ioUnindexed := map[], map[], NOTHING, NOTHING;
      pendingIO, pendingIOCount, ioUnmatched := map[], 0, 0;
      received, sent, indexed, released := 0, 0, 0, 0;
      new;
      NothingYet(TableView(), QueueView(), PidsView());
    }

    // ----- Removing flows -----

    /** Drops a flow from the table; what it carried is counted as expired. */
    method ExpireFlow(key: Key)
      requires key in flows
      modifies this`flows, this`expired, this`expiredFlows, this`released
      ensures TableView() == Dropped(old(TableView()), key) && QueueView() == Released(old(QueueView()), key)
      ensures expiredFlows == old(expiredFlows) + 1
    {
      expiredFlows := expiredFlows + 1;
      expired := IoBytes(expired.rx + flows[key].rx, expired.tx + flows[key].tx);
      released := released + Io(flows[key]);
      flows := flows - {key};
    }

    method ExpireFlowKeeping(key: Key, ghost owed: IoBytes)
      requires Accounted(owed) && key in flows
      modifies this`flows, this`expired, this`expiredFlows, this`released
      ensures Accounted(owed) && flows == old(flows) - {key}
    {
      DroppedKeeps(TableView(), key, owed);
      ReleasedKeeps(QueueView(), key);
      ExpireFlow(key);
    }

    /** Frees the oldest of the disposable flows, a tenth of the table at most. The
        outcome does not depend on the flag: skipping the scan loses nothing. */
    method Evict(ghost owed: IoBytes) returns (ghost gone: set<Key>)
      requires Accounted(owed) && FlagIsRight()
      modifies this`flows, this`expired, this`expiredFlows, this`released, this`evictionBlocked
      ensures Accounted(owed) && FlagIsRight()
      ensures Evicted(old(flows), flows, gone, maxFlows)
    {
      if evictionBlocked {
        NothingToEvict(flows, maxFlows);
        gone := {};
      } else {
        gone := EvictScanning(owed);
      }
    }

    method EvictScanning(ghost owed: IoBytes) returns (ghost gone: set<Key>)
      requires Accounted(owed) && !evictionBlocked
      modifies this`flows, this`expired, this`expiredFlows, this`released, this`evictionBlocked
      ensures Accounted(owed) && FlagIsRight()
      ensures Evicted(old(flows), flows, gone, maxFlows)
    {
      var victims := ChooseVictims(flows, maxFlows / 10 + 1);
      gone := Prefix(victims, |victims|);
      if |victims| == 0 {
        NothingToEvict(flows, maxFlows);
        assert gone == {};
        evictionBlocked := true;
      } else {
        SweepOldest(victims, owed);
      }
    }

    method SweepOldest(victims: seq<Key>, ghost owed: IoBytes)
      requires Accounted(owed) && Distinct(victims) && OldestOf(Prefix(victims, |victims|), flows)
      requires |Prefix(victims, |victims|)| == SweepSize(flows, maxFlows)
      modifies this`flows, this`expired, this`expiredFlows, this`released
      ensures Accounted(owed) && Evicted(old(flows), flows, Prefix(victims, |victims|), maxFlows)
    {
      Sweep(victims, owed);
    }

    method Sweep(victims: seq<Key>, ghost owed: IoBytes)
      requires Accounted(owed) && Distinct(victims) && Prefix(victims, |victims|) <= flows.Keys
      modifies this`flows, this`expired, this`expiredFlows, this`released
      ensures Accounted(owed) && flows == old(flows) - Prefix(victims, |victims|)
    {
      for i := 0 to |victims|
        invariant Accounted(owed) && flows == old(flows) - Prefix(victims, i)
      {
        NextVictim(victims, i, old(flows));
        ExpireFlowKeeping(victims[i], owed);
      }
    }

    // ----- Pending I/O -----

    method FlushPendingKey(key: Key)
      modifies this`pendingIO, this`pendingIOCount, this`ioUnmatched
      ensures QueueView() == Flushed(old(QueueView()), key)
    {
      var samples := if key in pendingIO then pendingIO[key] else [];
      for i := 0 to |samples|
        invariant ioUnmatched == old(ioUnmatched) + Bytes(samples[..i])
        invariant pendingIOCount == old(pendingIOCount) - i && pendingIO == old(pendingIO)
      {
        assert samples[..i + 1][..i] == samples[..i];
        ioUnmatched := ioUnmatched + samples[i].bytes;
        pendingIOCount := pendingIOCount - 1;
      }
      assert samples[..|samples|] == samples;
      pendingIO := pendingIO - {key};
    }

    /** Gives the flow under `key` the fresh samples that wait under `socket`. */
    method AttachPendingIO(socket: Key, key: Key, now: int)
      requires key in flows && flows[key].key == key
      modifies this`flows, this`pendingIO, this`pendingIOCount, this`ioUnmatched
      ensures QueueView() == Attach(old(QueueView()), socket, key, now)
    {
      var samples := if socket in pendingIO then pendingIO[socket] else [];
      var io := flows[key].io;
      for i := 0 to |samples|
        invariant io == Attached(old(flows)[key].io, samples[..i], now)
        invariant ioUnmatched == old(ioUnmatched) + StaleBytes(samples[..i], now)
        invariant pendingIOCount == old(pendingIOCount) - i && pendingIO == old(pendingIO) && flows == old(flows)
      {
        assert samples[..i + 1][..i] == samples[..i];
        if now - samples[i].seen <= PENDING_TTL {
          io := AddIo(io, samples[i].id, samples[i].send, samples[i].bytes);
        } else {
          ioUnmatched := ioUnmatched + samples[i].bytes;
        }
        pendingIOCount := pendingIOCount - 1;
      }
      assert samples[..|samples|] == samples;
      pendingIO := pendingIO - {socket};
      flows := flows[key := WithIo(flows[key], io)];
    }

    method AttachKeeping(socket: Key, key: Key, now: int, ghost owed: IoBytes)
      requires Accounted(owed) && key in flows
      modifies this`flows, this`pendingIO, this`pendingIOCount, this`ioUnmatched
      ensures Accounted(owed) && QueueView() == Attach(old(QueueView()), socket, key, now)
    {
      KeyedAt(TableView(), key, owed);
      AttachKeeps(QueueView(), socket, key, now);
      ghost var f := WithIo(flows[key], Attached(flows[key].io, Waiting(QueueView(), socket), now));
      AttachBalances(TableView(), f, owed);
      AttachPendingIO(socket, key, now);
      assert TableView() == old(TableView()).(fs := Put(old(FlowsView()), f));
    }

    // ----- Packets -----

    method Arrive(p: Packet)
      modifies this`packets, this`bytes, this`rxBytes, this`txBytes
      ensures packets == old(packets) + 1 && bytes == old(bytes) + p.bytes
      ensures rxBytes == old(rxBytes) + BytesOf(p).rx && txBytes == old(txBytes) + BytesOf(p).tx
    {
      packets := packets + 1;
      bytes := bytes + p.bytes;
      if p.outgoing {
        txBytes := txBytes + p.bytes;
      } else {
        rxBytes := rxBytes + p.bytes;
      }
    }

    method ArriveKeeping(p: Packet)
      requires Valid()
      modifies this`packets, this`bytes, this`rxBytes, this`txBytes
      ensures Accounted(BytesOf(p)) && FlagIsRight()
      ensures FlowsView() == old(FlowsView()) && QueueView() == old(QueueView())
      ensures packets == old(packets) + 1 && bytes == old(bytes) + p.bytes
      ensures rxBytes == old(rxBytes) + BytesOf(p).rx && txBytes == old(txBytes) + BytesOf(p).tx
    {
      SoundArrived(Books(TableView(), QueueView(), PidsView()), BytesOf(p));
      Arrive(p);
      assert TableView() == Arrived(old(TableView()), BytesOf(p));
      assert QueueView() == old(QueueView()) && PidsView() == old(PidsView());
    }

    method StartGeneration(p: Packet, ghost owed: IoBytes)
      requires Accounted(owed) && FlagIsRight()
      modifies this`flows, this`retired, this`pendingIO, this`pendingIOCount, this`ioUnmatched
      ensures Accounted(owed) && FlagIsRight() && FlowsView() == Generation(old(FlowsView()), p)
      ensures pendingIO == if Reuses(old(FlowsView()), p) then old(pendingIO) - {p.key} else old(pendingIO)
    {
      if p.key in flows && OpensAnother(flows[p.key], p) {
        FewerCandidates(flows, {p.key});
        RetireGeneration(p.key, owed);
      }
    }

    method RetireGeneration(key: Key, ghost owed: IoBytes)
      requires Accounted(owed) && key in flows
      modifies this`flows, this`retired, this`pendingIO, this`pendingIOCount, this`ioUnmatched
      ensures Accounted(owed) && FlowsView() == Retire(old(FlowsView()), key) && pendingIO == old(pendingIO) - {key}
    {
      FlushKeeping(key, owed);
      RetireFlow(key, owed);
    }

    method FlushKeeping(key: Key, ghost owed: IoBytes)
      requires Accounted(owed)
      modifies this`pendingIO, this`pendingIOCount, this`ioUnmatched
      ensures Accounted(owed) && pendingIO == old(pendingIO) - {key}
    {
      FlushedKeeps(QueueView(), key);
      FlushPendingKey(key);
    }

    method RetireFlow(key: Key, ghost owed: IoBytes)
      requires Accounted(owed) && key in flows
      modifies this`flows, this`retired
      ensures Accounted(owed) && FlowsView() == Retire(old(FlowsView()), key)
    {
      RetireKeeps(TableView(), key, owed);
      RetireSettles(QueueView(), key);
      retired := retired + [flows[key]];
      flows := flows - {key};
    }

    /** Sweeps a full table; afterwards there is room, or nothing could be freed. */
    method MakeRoom(ghost key: Key, ghost owed: IoBytes) returns (room: bool, ghost gone: set<Key>)
      requires Accounted(owed) && FlagIsRight() && key !in flows
      modifies this`flows, this`expired, this`expiredFlows, this`released, this`evictionBlocked
      ensures Accounted(owed) && FlagIsRight()
      ensures room == !Full(FlowsView(), maxFlows) == Indexable(old(FlowsView()), key, maxFlows)
      ensures flows == old(flows) - gone && Swept(old(FlowsView()), key, maxFlows, gone)
    {
      gone := {};
      if |flows| + |retired| >= maxFlows {
        TableBounded(TableView(), owed);
        gone := Evict(owed);
        SweptRoom(old(flows), flows, gone, |retired|, maxFlows);
      } else {
        assert flows - {} == flows;
      }
      room := |flows| + |retired| < maxFlows;
    }

    method LeaveUnindexed(p: Packet)
      requires Accounted(BytesOf(p))
      modifies this`droppedFlow, this`unindexed
      ensures Accounted(NOTHING) && droppedFlow == old(droppedFlow) + 1
      ensures unindexed == Plus(old(unindexed), BytesOf(p))
    {
      UnindexedKeeps(TableView(), BytesOf(p));
      droppedFlow := droppedFlow + 1;
      unindexed := if p.outgoing then unindexed.(tx := unindexed.tx + p.bytes)
                   else unindexed.(rx := unindexed.rx + p.bytes);
      assert TableView() == old(TableView()).(unindexed := Plus(old(unindexed), BytesOf(p)));
    }

    method Create(f: Flow, ghost owed: IoBytes)
      requires Accounted(owed) && f.key !in flows && !Full(FlowsView(), maxFlows)
      requires f.rx == f.tx == 0 && f.io == map[]
      modifies this`flows
      ensures Accounted(owed) && flows == old(flows)[f.key := f]
    {
      CreateKeeps(TableView(), f, owed);
      CreateSettles(QueueView(), f);
      flows := flows[f.key := f];
    }

    /** Opens an entry, with the samples that waited for it. */
    method OpenEntry(p: Packet, now: int, ghost owed: IoBytes)
      requires Accounted(owed) && p.key !in flows && !Full(FlowsView(), maxFlows)
      modifies this`flows, this`pendingIO, this`pendingIOCount, this`ioUnmatched
      ensures Accounted(owed)
      ensures flows == old(flows)[p.key := Opening(p, old(Waiting(QueueView(), p.key)), now)]
      ensures pendingIO == if TakesPending(p) then old(pendingIO) - {p.key} else old(pendingIO)
    {
      var f := NewFlow(p.key, now);
      OverwriteTwice(flows, f, Opening(p, Waiting(QueueView(), p.key), now));
      Create(f, owed);
      if p.key.protocol == UDP || (p.key.protocol == TCP && p.syn && !p.ack) {
        AttachKeeping(p.key, p.key, now, owed);
      }
    }

    /** Counts a packet in its flow, which pays what was owed. */
    method CountPacket(p: Packet, now: int)
      requires Accounted(BytesOf(p)) && p.key in flows
      requires evictionBlocked ==> Candidates(flows - {p.key}) == {}
      modifies this`flows, this`evictionBlocked
      ensures Accounted(NOTHING) && FlagIsRight()
      ensures flows == old(flows)[p.key := Touched(old(flows)[p.key], p, now)]
    {
      KeyedAt(TableView(), p.key, BytesOf(p));
      var f := Touched(flows[p.key], p, now);
      ReplaceFlow(f, BytesOf(p));
      if Disposable(f) {
        evictionBlocked := false;
      } else if evictionBlocked {
        FlagAfter(old(flows), f);
      }
    }

    method ReplaceFlow(f: Flow, ghost grown: IoBytes)
      requires Accounted(grown) && f.key in flows && f.io == flows[f.key].io
      requires f.rx == flows[f.key].rx + grown.rx && f.tx == flows[f.key].tx + grown.tx
      modifies this`flows
      ensures Accounted(NOTHING) && flows == old(flows)[f.key := f]
    {
      assert Plus(grown, NOTHING) == grown;
      ReplaceKeeps(TableView(), f, grown, NOTHING);
      ReplaceSettles(QueueView(), f);
      flows := flows[f.key := f];
    }

    method OpenAndCount(p: Packet, now: int)
      requires Accounted(BytesOf(p)) && FlagIsRight() && p.key !in flows && !Full(FlowsView(), maxFlows)
      modifies this`flows, this`evictionBlocked, this`pendingIO, this`pendingIOCount, this`ioUnmatched
      ensures Accounted(NOTHING) && FlagIsRight()
      ensures flows == old(flows)[p.key := Touched(Opening(p, old(Waiting(QueueView(), p.key)), now), p, now)]
    {
      ghost var start := Opening(p, Waiting(QueueView(), p.key), now);
      OverwriteTwice(flows, start, Touched(start, p, now));
      StoredAside(flows, start);
      OpenEntry(p, now, BytesOf(p));
      CountPacket(p, now);
    }

    method PlaceNew(p: Packet, now: int) returns (lost: bool, ghost gone: set<Key>)
      requires Accounted(BytesOf(p)) && FlagIsRight() && p.key !in flows
      modifies this`flows, this`expired, this`expiredFlows, this`released, this`evictionBlocked
      modifies this`pendingIO, this`pendingIOCount, this`ioUnmatched, this`droppedFlow, this`unindexed
      ensures Accounted(NOTHING) && FlagIsRight()
      ensures Outcome(old(FlowsView()), FlowsView(), old(Waiting(QueueView(), p.key)), p, now, maxFlows, gone, lost)
      ensures unindexed == if lost then Plus(old(unindexed), BytesOf(p)) else old(unindexed)
    {
      var room;
      room, gone := MakeRoom(p.key, BytesOf(p));
      lost := !room;
      if room {
        OpenAndCount(p, now);
        assert FlowsView() == Placed(old(FlowsView()), Waiting(old(QueueView()), p.key), p, now, gone);
      } else {
        KeptWhole(old(flows), gone, maxFlows);
        LeaveUnindexed(p);
      }
    }

    method PlacePacket(p: Packet, now: int) returns (lost: bool, ghost gone: set<Key>)
      requires Accounted(BytesOf(p)) && FlagIsRight()
      modifies this`flows, this`expired, this`expiredFlows, this`released, this`evictionBlocked
      modifies this`pendingIO, this`pendingIOCount, this`ioUnmatched, this`droppedFlow, this`unindexed
      ensures Accounted(NOTHING) && FlagIsRight()
      ensures Outcome(old(FlowsView()), FlowsView(), old(Waiting(QueueView(), p.key)), p, now, maxFlows, gone, lost)
      ensures unindexed == if lost then Plus(old(unindexed), BytesOf(p)) else old(unindexed)
    {
      if p.key in flows {
        lost, gone := false, {};
        FewerCandidates(flows, {p.key});
        assert flows - {} == flows;
        CountPacket(p, now);
      } else {
        lost, gone := PlaceNew(p, now);
      }
    }

    /** One captured packet. It is counted whole in one flow, or is unindexed, and
        that exactly when its flow is unknown, the table is full, and no active flow
        is disposable. */
    method PacketAt(p: Packet, now: int) returns (lost: bool, ghost gone: set<Key>)
      requires Valid()
      modifies this
      ensures Valid()
      ensures if p.accepted then packets == old(packets) + 1 && bytes == old(bytes) + p.bytes else unchanged(this)
      ensures p.accepted ==> rxBytes == old(rxBytes) + BytesOf(p).rx && txBytes == old(txBytes) + BytesOf(p).tx
      ensures retired == if p.accepted then old(retired) + Ends(p, old(flows)) else old(retired)
      ensures p.accepted ==>
              Outcome(Generation(old(FlowsView()), p), FlowsView(), WaitingFor(old(QueueView()), p), p, now, maxFlows,
                      gone, lost)
      ensures unindexed == if lost then Plus(old(unindexed), BytesOf(p)) else old(unindexed)
    {
      lost, gone := false, {};
      if p.accepted {
        lost, gone := CountAndPlace(p, now);
      }
    }

    method CountAndPlace(p: Packet, now: int) returns (lost: bool, ghost gone: set<Key>)
      requires Valid()
      modifies this
      ensures Valid() && retired == old(retired) + Ends(p, old(flows))
      ensures packets == old(packets) + 1 && bytes == old(bytes) + p.bytes
      ensures rxBytes == old(rxBytes) + BytesOf(p).rx && txBytes == old(txBytes) + BytesOf(p).tx
      ensures Outcome(Generation(old(FlowsView()), p), FlowsView(), WaitingFor(old(QueueView()), p), p, now, maxFlows,
                      gone, lost)
      ensures unindexed == if lost then Plus(old(unindexed), BytesOf(p)) else old(unindexed)
    {
      ArriveKeeping(p);
      lost, gone := PlaceGeneration(p, now);
    }

    method PlaceGeneration(p: Packet, now: int) returns (lost: bool, ghost gone: set<Key>)
      requires Accounted(BytesOf(p)) && FlagIsRight()
      modifies this`flows, this`retired, this`expired, this`expiredFlows, this`released, this`evictionBlocked
      modifies this`pendingIO, this`pendingIOCount, this`ioUnmatched, this`droppedFlow, this`unindexed
      ensures Accounted(NOTHING) && FlagIsRight() && retired == old(retired) + Ends(p, old(flows))
      ensures Outcome(Generation(old(FlowsView()), p), FlowsView(), WaitingFor(old(QueueView()), p), p, now, maxFlows,
                      gone, lost)
      ensures unindexed == if lost then Plus(old(unindexed), BytesOf(p)) else old(unindexed)
    {
      GenerationEnds(FlowsView(), p);
      StartGeneration(p, BytesOf(p));
      assert Waiting(QueueView(), p.key) == WaitingFor(old(QueueView()), p);
      lost, gone := PlacePacket(p, now);
    }

    // ----- Probe events -----

    /** Puts a flow under its key; the flag follows it. */
    method StoreAndFlag(f: Flow)
      requires Accounted(NOTHING) && f.key in flows && f.io == flows[f.key].io
      requires f.rx == flows[f.key].rx && f.tx == flows[f.key].tx
      requires evictionBlocked ==> Candidates(flows - {f.key}) == {}
      modifies this`flows, this`evictionBlocked
      ensures Accounted(NOTHING) && FlagIsRight() && flows == old(flows)[f.key := f]
    {
      ReplaceFlow(f, NOTHING);
      if Disposable(f) {
        evictionBlocked := false;
      } else if evictionBlocked {
        FlagAfter(old(flows), f);
      }
    }

    /** A new entry that no packet opened. */
    method OpenFor(f: Flow, result: Flow)
      requires Accounted(NOTHING) && FlagIsRight() && f.key !in flows && !Full(FlowsView(), maxFlows)
      requires f.rx == f.tx == 0 && f.io == map[] && result.key == f.key
      requires result.rx == result.tx == 0 && result.io == map[]
      modifies this`flows, this`evictionBlocked
      ensures Accounted(NOTHING) && FlagIsRight() && flows == old(flows)[f.key := result]
    {
      OverwriteTwice(flows, f, result);
      StoredAside(flows, f);
      Create(f, NOTHING);
      StoreAndFlag(result);
    }

    /** The kernel's verdict on a connection attempt. Where no packet showed the
        attempt, the base collector opens an entry for it and the others ignore it. */
    method ConnectResult(c: Connect, now: int) returns (ghost gone: set<Key>)
      requires Valid()
      modifies this`flows, this`retired, this`expired, this`expiredFlows, this`released, this`evictionBlocked
      ensures Valid() && Concluded(old(FlowsView()), FlowsView(), c, isBase, now, maxFlows, gone)
    {
      gone := {};
      if !c.accepted { return; }
      if c.key in flows && !TakesEvents(flows[c.key], now) {
        if !isBase { return; }
        RetireStale(c.key);
      }
      if c.key in flows {
        StoreResult(c, now);
      } else if isBase {
        gone := ConcludeUnseen(c, now);
      }
    }

    method RetireStale(key: Key)
      requires Valid() && key in flows
      modifies this`flows, this`retired
      ensures Valid() && FlowsView() == Retire(old(FlowsView()), key)
    {
      FewerCandidates(flows, {key});
      RetireFlow(key, NOTHING);
    }

    method StoreResult(c: Connect, now: int)
      requires Valid() && c.key in flows
      modifies this`flows, this`evictionBlocked
      ensures Valid() && flows == old(flows)[c.key := Connected(old(flows)[c.key], c, now)]
    {
      KeyedAt(TableView(), c.key, NOTHING);
      FewerCandidates(flows, {c.key});
      StoreAndFlag(Connected(flows[c.key], c, now));
    }

    method ConcludeUnseen(c: Connect, now: int) returns (ghost gone: set<Key>)
      requires Valid() && c.key !in flows
      modifies this`flows, this`expired, this`expiredFlows, this`released, this`evictionBlocked
      ensures Valid() && retired == old(retired) && Swept(old(FlowsView()), c.key, maxFlows, gone)
      ensures flows == if Indexable(old(FlowsView()), c.key, maxFlows)
                       then (old(flows) - gone)[c.key := Connected(Attempt(c, now), c, now)] else old(flows)
    {
      var room;
      room, gone := MakeRoom(c.key, NOTHING);
      if room {
        OpenFor(Attempt(c, now), Connected(Attempt(c, now), c, now));
      } else {
        KeptWhole(old(flows), gone, maxFlows);
      }
    }

    /** A packet the kernel discarded. It may open an entry, but frees none for it. */
    method RecordDrop(key: Key, accepted: bool, create: bool, knownSocket: bool, now: int)
      requires Valid()
      modifies this`flows, this`evictionBlocked
      ensures Valid()
      ensures if !accepted || (key !in old(flows) && (!create || !knownSocket || Full(old(FlowsView()), maxFlows)))
              then flows == old(flows)
              else
                var f := if key in old(flows) then old(flows)[key] else NewFlow(key, now);
                flows == old(flows)[key := f.(last := now)]
    {
      if !accepted { return; }
      if key in flows {
        KeyedAt(TableView(), key, NOTHING);
        FewerCandidates(flows, {key});
        StoreAndFlag(flows[key].(last := now));
      } else if create && knownSocket && |flows| + |retired| < maxFlows {
        OpenFor(NewFlow(key, now), NewFlow(key, now).(last := now));
      }
    }

    /** A NAT entry links the two tuples of a connection. */
    method LinkNAT(original: Key, reply: Key, entry: Link, now: int)
      requires Valid()
      modifies this`flows, this`pendingIO, this`pendingIOCount, this`ioUnmatched
      ensures Valid() && QueueView() == LinkedBoth(old(QueueView()), original, reply, entry, now)
    {
      LinkOne(original, reply, entry, now);
      LinkOne(reply, original, entry, now);
    }

    method LinkOne(key: Key, socket: Key, entry: Link, now: int)
      requires Valid()
      modifies this`flows, this`pendingIO, this`pendingIOCount, this`ioUnmatched
      ensures Valid() && QueueView() == Linked(old(QueueView()), key, socket, entry, now)
    {
      if key in flows && flows[key].link != Some(entry) {
        Mark(key, entry);
        if socket !in flows {
          SameCandidates(flows, key, WithIo(flows[key], Attached(flows[key].io, Waiting(QueueView(), socket), now)));
          KeyedAt(TableView(), key, NOTHING);
          AttachKeeping(socket, key, now, NOTHING);
        }
      }
    }

    method Mark(key: Key, entry: Link)
      requires Valid() && key in flows
      modifies this`flows
      ensures Valid() && QueueView() == Marked(old(QueueView()), key, entry)
    {
      var f := flows[key].(link := Some(entry));
      KeyedAt(TableView(), key, NOTHING);
      SameCandidates(flows, key, f);
      ReplaceFlow(f, NOTHING);
    }

    /** The accounts, spelled out: every captured byte is in a flow, expired or
        unindexed; every socket byte is a process's, an expired one's or unindexed,
        and once indexed is in a flow, waiting, unmatched or released. */
    lemma Conservation()
      requires Valid()
      ensures rxBytes == Total(FlowsView(), Rx) + expired.rx + unindexed.rx
      ensures txBytes == Total(FlowsView(), Tx) + expired.tx + unindexed.tx
      ensures bytes == rxBytes + txBytes && |flows| + |retired| <= maxFlows
      ensures forall k :: k in flows ==> flows[k].key == k && (evictionBlocked ==> !Disposable(flows[k]))
      ensures received == Sum(pidIO, Received) + expiredPIDIO.rx + ioUnindexed.rx
      ensures sent == Sum(pidIO, Sent) + expiredPIDIO.tx + ioUnindexed.tx
      ensures pidIO.Keys == pidSeen.Keys && (maxFlows > 0 ==> |pidIO| <= maxFlows)
      ensures indexed == Total(FlowsView(), Io) + Sum(pendingIO, Bytes) + ioUnmatched + released
      ensures indexed + Both(ioUnindexed) == received + sent
      ensures pendingIOCount == Sum(pendingIO, Length) <= MAX_SAMPLES
    {
      forall k | k in flows ensures flows[k].key == k && (evictionBlocked ==> !Disposable(flows[k])) {
        KeyedAt(TableView(), k, NOTHING);
        assert Disposable(flows[k]) ==> k in Candidates(flows);
      }
      assert Balanced(TableView(), NOTHING) && Settled(QueueView()) && Attributed(PidsView());
    }

    // ----- Process I/O -----

    method CountOverflow(e: Event)
      modifies this`ioUnindexed, this`received, this`sent
      ensures PidsView() == Overflowed(old(PidsView()), e.send, e.bytes)
    {
      if e.send {
        ioUnindexed := ioUnindexed.(tx := ioUnindexed.tx + e.bytes);
        sent := sent + e.bytes;
      } else {
        ioUnindexed := ioUnindexed.(rx := ioUnindexed.rx + e.bytes);
        received := received + e.bytes;
      }
    }

    method CountOwned(e: Event, now: int)
      modifies this`pidIO, this`pidSeen, this`received, this`sent
      ensures PidsView().(indexed := PidsView().indexed + e.bytes) == Owned(old(PidsView()), e.id, e.send, e.bytes, now)
      ensures PidsView().indexed == old(PidsView()).indexed
    {
      pidIO := AddIo(pidIO, e.id, e.send, e.bytes);
      pidSeen := pidSeen[e.id := now];
      if e.send { sent := sent + e.bytes; } else { received := received + e.bytes; }
    }

    method Enqueue(key: Key, sample: Sample)
      modifies this`pendingIO, this`pendingIOCount, this`indexed
      ensures QueueView() == Queued(old(QueueView()), key, sample)
    {
      var samples := if key in pendingIO then pendingIO[key] else [];
      pendingIO := pendingIO[key := samples + [sample]];
      pendingIOCount := pendingIOCount + 1;
      indexed := indexed + sample.bytes;
    }

    method AddFlowIO(key: Key, sample: Sample)
      requires key in flows && flows[key].key == key
      modifies this`flows, this`indexed
      ensures QueueView() == InFlow(old(QueueView()), key, sample)
    {
      flows := flows[key := Grown(flows[key], sample)];
      indexed := indexed + sample.bytes;
    }

    /** An indexed event's bytes go to its flow, wait for one, or stay unmatched. */
    method Route(e: Event, now: int)
      requires e.key in flows ==> flows[e.key].key == e.key
      modifies this`flows, this`pendingIO, this`pendingIOCount, this`ioUnmatched, this`indexed
      ensures QueueView() == Routed(old(QueueView()), e, now)
    {
      if e.accepted && e.key in flows && TakesEvents(flows[e.key], now) {
        AddFlowIO(e.key, Sample(e.id, e.send, e.bytes, now));
      } else if e.accepted && e.key !in flows && pendingIOCount < MAX_SAMPLES {
        Enqueue(e.key, Sample(e.id, e.send, e.bytes, now));
      } else {
        ioUnmatched := ioUnmatched + e.bytes;
        indexed := indexed + e.bytes;
      }
    }

    method OwnAndRoute(e: Event, now: int)
      requires e.key in flows ==> flows[e.key].key == e.key
      modifies this`flows, this`pendingIO, this`pendingIOCount, this`ioUnmatched, this`indexed
      modifies this`pidIO, this`pidSeen, this`received, this`sent
      ensures PidsView() == Owned(old(PidsView()), e.id, e.send, e.bytes, now)
      ensures QueueView() == Routed(old(QueueView()), e, now)
      ensures TableView() == old(TableView()).(fs := QueueView().fs)
    {
      CountOwned(e, now);
      ghost var counted := PidsView();
      RoutedIndexes(QueueView(), e, now);
      Route(e, now);
      assert PidsView() == counted.(indexed := counted.indexed + e.bytes);
    }

    method AccountOwned(e: Event, now: int)
      requires Valid() && !NoRoomFor(PidsView(), e.id)
      modifies this`flows, this`pendingIO, this`pendingIOCount, this`ioUnmatched, this`indexed
      modifies this`pidIO, this`pidSeen, this`received, this`sent
      ensures Valid()
      ensures PidsView() == Owned(old(PidsView()), e.id, e.send, e.bytes, now)
      ensures QueueView() == Routed(old(QueueView()), e, now)
    {
      OwnedKeeps(PidsView(), e.id, e.send, e.bytes, now);
      RoutedKeeps(TableView(), QueueView(), e, now);
      if e.key in flows { KeyedAt(TableView(), e.key, NOTHING); }
      OwnAndRoute(e, now);
      Together(TableView(), QueueView(), PidsView());
    }

    method AccountOverflow(e: Event)
      requires Valid()
      modifies this`ioUnindexed, this`received, this`sent
      ensures Valid() && PidsView() == Overflowed(old(PidsView()), e.send, e.bytes)
    {
      OverflowedKeeps(PidsView(), e.send, e.bytes);
      CountOverflow(e);
    }

    /** Accounts one event's bytes, once. */
    method Account(e: Event, now: int)
      requires Valid()
      modifies this`flows, this`pendingIO, this`pendingIOCount, this`ioUnmatched, this`indexed
      modifies this`pidIO, this`pidSeen, this`received, this`sent, this`ioUnindexed
      ensures Valid() && PidsView() == Charged(old(PidsView()), e, now)
      ensures QueueView() ==
              if NoRoomFor(old(PidsView()), e.id) then old(QueueView()) else Routed(old(QueueView()), e, now)
    {
      if e.id !in pidIO && maxFlows > 0 && |pidIO| >= maxFlows {
        AccountOverflow(e);
      } else {
        AccountOwned(e, now);
      }
    }

    method Conclude(e: Event, now: int) returns (ghost gone: set<Key>)
      requires Valid()
      modifies this`flows, this`retired, this`expired, this`expiredFlows, this`released, this`evictionBlocked
      ensures Valid() && ConcludedFor(e, old(FlowsView()), FlowsView(), isBase, now, maxFlows, gone)
      ensures PidsView() == old(PidsView())
      ensures QueueView() == old(QueueView()).(fs := FlowsView(), released := QueueView().released)
    {
      gone := {};
      if e.connect.Some? {
        gone := ConnectResult(Result(e), now);
      }
    }

    /** One probe event, up to where it starts to name the flow's processes: first the
        result of a connection attempt, then the bytes, which reach their place in the
        table as that result left it. */
    method EventAt(e: Event, now: int) returns (ghost gone: set<Key>, ghost between: Queue)
      requires Valid()
      modifies this`flows, this`retired, this`expired, this`expiredFlows, this`released, this`evictionBlocked
      modifies this`pendingIO, this`pendingIOCount, this`ioUnmatched, this`indexed
      modifies this`pidIO, this`pidSeen, this`received, this`sent, this`ioUnindexed
      ensures Valid()
      ensures between == old(QueueView()).(fs := between.fs, released := between.released) && between in Settleds()
      ensures ConcludedFor(e, old(FlowsView()), between.fs, isBase, now, maxFlows, gone)
      ensures PidsView() == ChargedFor(old(PidsView()), e, now)
      ensures QueueView() == RoutedFor(between, old(PidsView()), e, now)
    {
      gone := Conclude(e, now);
      between := QueueView();
      AccountCarried(e, now);
    }

    method AccountCarried(e: Event, now: int)
      requires Valid()
      modifies this`flows, this`pendingIO, this`pendingIOCount, this`ioUnmatched, this`indexed
      modifies this`pidIO, this`pidSeen, this`received, this`sent, this`ioUnindexed
      ensures Valid() && PidsView() == ChargedFor(old(PidsView()), e, now)
      ensures QueueView() == RoutedFor(old(QueueView()), old(PidsView()), e, now)
    {
      if Carries(e) {
        Account(e, now);
      }
    }

    // ----- Expiry -----

    /** Parts the samples that still wait from the bytes of those that do not. */
    static method Sift(samples: seq<Sample>, now: int, flushAll: bool) returns (kept: seq<Sample>, stale: nat)
      ensures kept == Kept(samples, now, flushAll) && stale + Bytes(kept) == Bytes(samples)
    {
      kept, stale := [], 0;
      for i := 0 to |samples|
        invariant kept == Kept(samples[..i], now, flushAll) && stale + Bytes(kept) == Bytes(samples[..i])
      {
        assert samples[..i + 1][..i] == samples[..i];
        if flushAll || now - samples[i].seen > PENDING_TTL {
          stale := stale + samples[i].bytes;
        } else {
          SumSeqMore(kept, samples[i], SampleBytes);
          kept := kept + [samples[i]];
        }
      }
      assert samples[..|samples|] == samples;
    }

    method Trim(key: Key, now: int, flushAll: bool)
      requires key in pendingIO && Bytes(Kept(pendingIO[key], now, flushAll)) <= Bytes(pendingIO[key])
      modifies this`pendingIO, this`pendingIOCount, this`ioUnmatched
      ensures QueueView() == Trimmed(old(QueueView()), key, Kept(old(pendingIO)[key], now, flushAll))
    {
      var kept, stale := Sift(pendingIO[key], now, flushAll);
      ioUnmatched := ioUnmatched + stale;
      pendingIOCount := pendingIOCount - (|pendingIO[key]| - |kept|);
      pendingIO := if |kept| == 0 then pendingIO - {key} else pendingIO[key := kept];
    }

    method TrimKeeping(key: Key, now: int, flushAll: bool, ghost owed: IoBytes)
      requires Accounted(owed) && key in pendingIO
      modifies this`pendingIO, this`pendingIOCount, this`ioUnmatched
      ensures Accounted(owed)
      ensures pendingIO == var kept := Kept(old(pendingIO)[key], now, flushAll);
                           if kept == [] then old(pendingIO) - {key} else old(pendingIO)[key := kept]
    {
      KeptBytes(pendingIO[key], now, flushAll);
      TrimmedKeeps(QueueView(), key, Kept(pendingIO[key], now, flushAll));
      Trim(key, now, flushAll);
    }

    /** Gives up on samples that waited too long for their flow. */
    method ExpirePendingIO(now: int, flushAll: bool, ghost owed: IoBytes)
      requires Accounted(owed)
      modifies this`pendingIO, this`pendingIOCount, this`ioUnmatched
      ensures Accounted(owed) && pendingIO == KeptQueues(old(pendingIO), now, flushAll)
    {
      var todo := pendingIO.Keys;
      PartlyEnds(pendingIO, now, flushAll);
      while todo != {}
        invariant Accounted(owed) && todo <= old(pendingIO).Keys
        invariant pendingIO == PartlyKept(old(pendingIO), todo, now, flushAll)
        decreases |todo|
      {
        ghost var some := Member(todo);
        var key :| key in todo;
        PartlyNext(old(pendingIO), todo, key, now, flushAll);
        TrimKeeping(key, now, flushAll, owed);
        todo := todo - {key};
      }
    }

    method Forget(id: Process)
      requires id in pidIO
      modifies this`pidIO, this`pidSeen, this`expiredPIDIO
      ensures PidsView() == Forgotten(old(PidsView()), id)
    {
      expiredPIDIO := IoBytes(expiredPIDIO.rx + pidIO[id].rx, expiredPIDIO.tx + pidIO[id].tx);
      pidIO := pidIO - {id};
      pidSeen := pidSeen - {id};
    }

    method ForgetKeeping(id: Process)
      requires PidsView() in Attributeds() && id in pidSeen
      modifies this`pidIO, this`pidSeen, this`expiredPIDIO
      ensures PidsView() in Attributeds() && pidIO == old(pidIO) - {id} && pidSeen == old(pidSeen) - {id}
    {
      SameProcesses(PidsView());
      ForgottenKeeps(PidsView(), id);
      Forget(id);
    }

    /** Moves the totals of processes not seen for long to the expired ones. */
    method ForgetProcesses(now: int) returns (ids: set<Process>)
      requires PidsView() in Attributeds()
      modifies this`pidIO, this`pidSeen, this`expiredPIDIO
      ensures PidsView() in Attributeds() && ids == Unseen(old(pidSeen), now)
      ensures pidIO == old(pidIO) - ids && pidSeen == old(pidSeen) - ids
    {
      ids := {};
      var todo := pidSeen.Keys;
      assert pidIO - {} == pidIO && pidSeen - {} == pidSeen;
      while todo != {}
        invariant PidsView() in Attributeds() && todo <= old(pidSeen).Keys
        invariant ids == Unseen(old(pidSeen), now) - todo
        invariant pidIO == old(pidIO) - ids && pidSeen == old(pidSeen) - ids
        decreases |todo|
      {
        ghost var some := Member(todo);
        var id :| id in todo;
        UnseenNext(old(pidSeen), todo, id, now);
        if now - pidSeen[id] > 5 * MINUTE {
          MinusOne(old(pidIO), ids, id);
          MinusOne(old(pidSeen), ids, id);
          ForgetKeeping(id);
          ids := ids + {id};
        }
        todo := todo - {id};
      }
    }

    method StripActive(key: Key, ids: set<Process>, ghost owed: IoBytes)
      requires Accounted(owed) && key in flows
      modifies this`flows, this`released
      ensures Accounted(owed) && flows == old(flows)[key := Stripped(old(flows)[key], ids)]
    {
      ActiveStrippedKeeps(TableView(), QueueView(), key, ids, owed);
      ghost var queue := ActiveStripped(QueueView(), key, ids);
      released := queue.released;
      flows := flows[key := Stripped(flows[key], ids)];
      assert QueueView() == queue;
    }

    method StripRetired(i: nat, ids: set<Process>, ghost owed: IoBytes)
      requires Accounted(owed) && i < |retired|
      modifies this`retired, this`released
      ensures Accounted(owed) && retired == old(retired)[i := Stripped(old(retired)[i], ids)]
    {
      RetiredStrippedKeeps(TableView(), QueueView(), i, ids, owed);
      ghost var queue := RetiredStripped(QueueView(), i, ids);
      released := queue.released;
      retired := retired[i := Stripped(retired[i], ids)];
      assert QueueView() == queue;
    }

    method StripAllActive(ids: set<Process>, ghost owed: IoBytes)
      requires Accounted(owed)
      modifies this`flows, this`released
      ensures Accounted(owed) && flows == StrippedBut(old(flows), {}, ids)
    {
      var todo := flows.Keys;
      StripEnds(flows, retired, ids);
      while todo != {}
        invariant Accounted(owed) && todo <= old(flows).Keys
        invariant flows == StrippedBut(old(flows), todo, ids)
        decreases |todo|
      {
        ghost var some := Member(todo);
        var key :| key in todo;
        StripNext(old(flows), todo, key, ids);
        StripActive(key, ids, owed);
        todo := todo - {key};
      }
    }

    method StripAllRetired(ids: set<Process>, ghost owed: IoBytes)
      requires Accounted(owed)
      modifies this`retired, this`released
      ensures Accounted(owed) && retired == StrippedSeq(old(retired), |old(retired)|, ids)
    {
      StripEnds(flows, retired, ids);
      for i := 0 to |retired|
        invariant Accounted(owed)
        invariant |retired| == |old(retired)| && retired == StrippedSeq(old(retired), i, ids)
      {
        StripNextRetired(old(retired), i, ids);
        StripRetired(i, ids, owed);
      }
    }

    /** Removes the active flows that had nothing for long. */
    method ExpireActive(now: int, ghost owed: IoBytes)
      requires Accounted(owed)
      modifies this`flows, this`expired, this`expiredFlows, this`released
      ensures Accounted(owed) && flows == LiveBut(old(flows), {}, now)
    {
      var todo := flows.Keys;
      LiveEnds(flows, now);
      while todo != {}
        invariant Accounted(owed) && todo <= old(flows).Keys
        invariant flows == LiveBut(old(flows), todo, now)
        decreases |todo|
      {
        ghost var some := Member(todo);
        var key :| key in todo;
        LiveNext(old(flows), todo, key, now);
        if Expired(flows[key], now) {
          ExpireFlowKeeping(key, owed);
        }
        todo := todo - {key};
      }
    }

    method ExpireRetiredFlow(i: nat)
      requires i < |retired|
      modifies this`retired, this`expired, this`expiredFlows, this`released
      ensures TableView() == RetiredDropped(old(TableView()), i) && QueueView() == RetiredReleased(old(QueueView()), i)
    {
      expiredFlows := expiredFlows + 1;
      expired := IoBytes(expired.rx + retired[i].rx, expired.tx + retired[i].tx);
      released := released + Io(retired[i]);
      retired := retired[..i] + retired[i + 1..];
    }

    method ExpireRetiredKeeping(i: nat, ghost owed: IoBytes)
      requires Accounted(owed) && i < |retired|
      modifies this`retired, this`expired, this`expiredFlows, this`released
      ensures Accounted(owed) && retired == old(retired)[..i] + old(retired)[i + 1..]
    {
      RetiredDroppedKeeps(TableView(), i, owed);
      RetiredReleasedKeeps(QueueView(), i);
      ExpireRetiredFlow(i);
    }

    /** Drops the retired flow at `i`, or passes over it. */
    method AgeRetired(i: nat, now: int, ghost owed: IoBytes) returns (next: nat)
      requires Accounted(owed) && i < |retired|
      modifies this`retired, this`expired, this`expiredFlows, this`released
      ensures Accounted(owed)
      ensures (retired, next) == StepOver(old(retired), i, now)
    {
      if Expired(retired[i], now) {
        ExpireRetiredKeeping(i, owed);
        next := i;
      } else {
        next := i + 1;
      }
    }

    method ExpireRetired(now: int, ghost owed: IoBytes)
      requires Accounted(owed)
      modifies this`retired, this`expired, this`expiredFlows, this`released
      ensures Accounted(owed) && retired == Survivors(old(retired), now)
    {
      var i: nat := 0;
      ghost var done: nat := 0;
      while i < |retired|
        invariant Accounted(owed) && SweptTo(old(retired), retired, done, i, now)
        decreases |retired| - i
      {
        SurvivorNext(old(retired), retired, done, i, now);
        i := AgeRetired(i, now, owed);
        done := done + 1;
      }
      SurvivorEnd(old(retired), retired, done, i, now);
    }

    /** What is left of the flows once those not seen lately, and the I/O of these
        processes, are gone. */
    method ExpireFlows(ids: set<Process>, now: int)
      requires Accounted(NOTHING)
      modifies this`flows, this`retired, this`expired, this`expiredFlows, this`released
      ensures Accounted(NOTHING)
      ensures FlowsView() == Aged(old(FlowsView()), ids, now)
    {
      StripAllActive(ids, NOTHING);
      StripAllRetired(ids, NOTHING);
      ExpireActive(now, NOTHING);
      ExpireRetired(now, NOTHING);
    }

    method ExpireIO(now: int) returns (ids: set<Process>)
      requires Accounted(NOTHING)
      modifies this`pendingIO, this`pendingIOCount, this`ioUnmatched, this`pidIO, this`pidSeen, this`expiredPIDIO
      ensures Accounted(NOTHING) && ids == Unseen(old(pidSeen), now)
      ensures pendingIO == KeptQueues(old(pendingIO), now, false)
      ensures pidIO == old(pidIO) - ids && pidSeen == old(pidSeen) - ids
    {
      ExpirePendingIO(now, false, NOTHING);
      ids := ForgetProcessesKeeping(now);
    }

    method ForgetProcessesKeeping(now: int) returns (ids: set<Process>)
      requires Accounted(NOTHING)
      modifies this`pidIO, this`pidSeen, this`expiredPIDIO
      ensures Accounted(NOTHING) && ids == Unseen(old(pidSeen), now)
      ensures pidIO == old(pidIO) - ids && pidSeen == old(pidSeen) - ids
    {
      ids := ForgetProcesses(now);
    }

    method ExpireFlowsKeeping(ids: set<Process>, now: int)
      requires Valid()
      modifies this`flows, this`retired, this`expired, this`expiredFlows, this`released
      ensures Valid() && FlowsView() == Aged(old(FlowsView()), ids, now)
    {
      AgedCandidates(FlowsView(), ids, now);
      ExpireFlows(ids, now);
    }

    /** One tick of ageing: what is left is exactly what had something to show lately. */
    method Expire(now: int)
      requires Valid()
      modifies this`pendingIO, this`pendingIOCount, this`ioUnmatched, this`pidIO, this`pidSeen, this`expiredPIDIO
      modifies this`flows, this`retired, this`expired, this`expiredFlows, this`released
      ensures Valid()
      ensures pendingIO == KeptQueues(old(pendingIO), now, false)
      ensures pidIO == old(pidIO) - Unseen(old(pidSeen), now) && pidSeen == old(pidSeen) - Unseen(old(pidSeen), now)
      ensures FlowsView() == Aged(old(FlowsView()), Unseen(old(pidSeen), now), now)
    {
      var ids := ExpireIO(now);
      ExpireFlowsKeeping(ids, now);
    }
  }
}
