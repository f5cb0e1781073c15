/** The accounts a collector keeps, as values: where every captured byte is (Table),
    whose every socket byte is (Pids), and where the indexed ones went (Queue). */
module Ledgers {
  import opened Prelude
  import opened MapSums
  import opened FlowTable

  const MAX_SAMPLES := 4096
  const SECOND := 1_000_000_000
  const PENDING_TTL := 2 * SECOND

  // ----- Captured bytes -----

  datatype Table = Table(
    fs: Flows, limit: nat, rx: nat, tx: nat, bytes: nat, expired: IoBytes, unindexed: IoBytes)

  predicate Keyed(active: map<Key, Flow>) { forall k :: k in active ==> active[k].key == k }

  /** Every captured byte is in a flow, expired, unindexed or still `owed`, and the
      table is no larger than its limit. */
  ghost predicate Balanced(t: Table, owed: IoBytes) {
    && Keyed(t.fs.active) && |t.fs.active| + |t.fs.retired| <= t.limit && t.bytes == t.rx + t.tx
    && t.rx == Total(t.fs, Rx) + t.expired.rx + t.unindexed.rx + owed.rx
    && t.tx == Total(t.fs, Tx) + t.expired.tx + t.unindexed.tx + owed.tx
  }

  ghost function Balances(owed: IoBytes): iset<Table> { iset t | Balanced(t, owed) }

  function Plus(a: IoBytes, b: IoBytes): IoBytes { IoBytes(a.rx + b.rx, a.tx + b.tx) }

  const NOTHING := IoBytes(0, 0)

  /** A packet arrives: its bytes are owed. */
  function Arrived(t: Table, b: IoBytes): Table { t.(rx := t.rx + b.rx, tx := t.tx + b.tx, bytes := t.bytes + Both(b)) }

  lemma ArrivedKeeps(t: Table, b: IoBytes)
    requires t in Balances(NOTHING)
    ensures Arrived(t, b) in Balances(b)
  {
  }

  function Dropped(t: Table, key: Key): Table
    requires key in t.fs.active
  {
    var f := t.fs.active[key];
    t.(fs := Remove(t.fs, key), expired := Plus(t.expired, IoBytes(f.rx, f.tx)))
  }

  lemma DroppedKeeps(t: Table, key: Key, owed: IoBytes)
    requires t in Balances(owed) && key in t.fs.active
    ensures Dropped(t, key) in Balances(owed) && |Dropped(t, key).fs.active| == |t.fs.active| - 1
  {
    RemoveTotal(t.fs, key, Rx);
    RemoveTotal(t.fs, key, Tx);
    RemoveCount(t.fs.active, key);
  }

  lemma RemoveCount<K, V>(m: map<K, V>, key: K)
    requires key in m
    ensures |m - {key}| == |m| - 1
  {
    assert (m - {key}).Keys == m.Keys - {key};
  }

  lemma PutCount<K, V>(m: map<K, V>, key: K, v: V)
    ensures |m[key := v]| == if key in m then |m| else |m| + 1
  {
    if key in m {
      assert m[key := v].Keys == m.Keys;
    } else {
      assert m[key := v].Keys == m.Keys + {key};
    }
  }

  lemma RetireKeeps(t: Table, key: Key, owed: IoBytes)
    requires t in Balances(owed) && key in t.fs.active
    ensures t.(fs := Retire(t.fs, key)) in Balances(owed)
  {
    RetireTotal(t.fs, key, Rx);
    RetireTotal(t.fs, key, Tx);
    RemoveCount(t.fs.active, key);
  }

  lemma CreateKeeps(t: Table, f: Flow, owed: IoBytes)
    requires t in Balances(owed) && f.key !in t.fs.active && f.rx == f.tx == 0
    requires |t.fs.active| + |t.fs.retired| < t.limit
    ensures t.(fs := Put(t.fs, f)) in Balances(owed)
  {
    PutTotal(t.fs, f, Rx);
    PutTotal(t.fs, f, Tx);
    PutCount(t.fs.active, f.key, f);
  }

  /** Replacing a flow pays for the bytes it grew by. */
  lemma ReplaceKeeps(t: Table, f: Flow, grown: IoBytes, owed: IoBytes)
    requires t in Balances(Plus(grown, owed)) && f.key in t.fs.active
    requires f.rx == t.fs.active[f.key].rx + grown.rx && f.tx == t.fs.active[f.key].tx + grown.tx
    ensures t.(fs := Put(t.fs, f)) in Balances(owed)
  {
    PutTotal(t.fs, f, Rx);
    PutTotal(t.fs, f, Tx);
    PutCount(t.fs.active, f.key, f);
  }

  lemma UnindexedKeeps(t: Table, b: IoBytes)
    requires t in Balances(b)
    ensures t.(unindexed := Plus(t.unindexed, b)) in Balances(NOTHING)
  {
  }

  // ----- Indexed socket bytes -----

  datatype Sample = Sample(id: Process, send: bool, bytes: nat, seen: int)

  datatype Queue = Queue(
    fs: Flows, pending: map<Key, seq<Sample>>, count: int, unmatched: nat, indexed: nat, released: nat)

  ghost function Bytes(s: seq<Sample>): nat { SumSeq(s, SampleBytes) }

  function SampleBytes(s: Sample): nat { s.bytes }

  function Length(s: seq<Sample>): nat { |s| }

  /** Every indexed byte is in a flow, pending, unmatched or released with an expired
      flow or process, and the count is that of the samples waiting. */
  ghost predicate Settled(q: Queue) {
    && q.indexed == Total(q.fs, Io) + Sum(q.pending, Bytes) + q.unmatched + q.released
    && q.count == Sum(q.pending, Length) && q.count <= MAX_SAMPLES
    && forall k :: k in q.pending ==> q.pending[k] != []
  }

  ghost function Settleds(): iset<Queue> { iset q | Settled(q) }

  function Waiting(q: Queue, key: Key): seq<Sample> { if key in q.pending then q.pending[key] else [] }

  ghost function Flushed(q: Queue, key: Key): Queue {
    q.(pending := q.pending - {key}, count := q.count - |Waiting(q, key)|,
      unmatched := q.unmatched + Bytes(Waiting(q, key)))
  }

  lemma FlushedKeeps(q: Queue, key: Key)
    requires q in Settleds()
    ensures Flushed(q, key) in Settleds()
  {
    if key in q.pending {
      SumRemove(q.pending, Bytes, key);
      SumRemove(q.pending, Length, key);
    } else {
      assert q.pending - {key} == q.pending;
    }
  }

  predicate Fresh(s: Sample, now: int) { now - s.seen <= PENDING_TTL }

  /** The flow's I/O once the fresh samples are attached. */
  function Attached(io: map<Process, IoBytes>, samples: seq<Sample>, now: int): map<Process, IoBytes>
    decreases |samples|
  {
    if samples == [] then io
    else
      var k := |samples| - 1;
      var rest := Attached(io, samples[..k], now);
      if Fresh(samples[k], now) then AddIo(rest, samples[k].id, samples[k].send, samples[k].bytes) else rest
  }

  function StaleBytes(samples: seq<Sample>, now: int): nat
    decreases |samples|
  {
    if samples == [] then 0
    else
      var k := |samples| - 1;
      StaleBytes(samples[..k], now) + if Fresh(samples[k], now) then 0 else samples[k].bytes
  }

  lemma {:induction false} AttachedTotal(io: map<Process, IoBytes>, samples: seq<Sample>, now: int)
    ensures Sum(Attached(io, samples, now), Both) + StaleBytes(samples, now) == Sum(io, Both) + Bytes(samples)
    decreases |samples|
  {
    if samples != [] {
      var k := |samples| - 1;
      AttachedTotal(io, samples[..k], now);
      AddIoTotal(Attached(io, samples[..k], now), samples[k].id, samples[k].send, samples[k].bytes);
    }
  }

  /** The bytes of a process, in one direction, in the fresh samples. */
  function FreshBytes(samples: seq<Sample>, id: Process, send: bool, now: int): nat
    decreases |samples|
  {
    if samples == [] then 0
    else
      var k := |samples| - 1;
      var s := samples[k];
      FreshBytes(samples[..k], id, send, now)
      + if s.id == id && s.send == send && Fresh(s, now) then s.bytes else 0
  }

  lemma {:induction false} AttachedReceived(io: map<Process, IoBytes>, samples: seq<Sample>, now: int, id: Process)
    ensures Entry(Attached(io, samples, now), id).rx == Entry(io, id).rx + FreshBytes(samples, id, false, now)
    decreases |samples|
  {
    if samples != [] { AttachedReceived(io, samples[..|samples| - 1], now, id); }
  }

  lemma {:induction false} AttachedSent(io: map<Process, IoBytes>, samples: seq<Sample>, now: int, id: Process)
    ensures Entry(Attached(io, samples, now), id).tx == Entry(io, id).tx + FreshBytes(samples, id, true, now)
    decreases |samples|
  {
    if samples != [] { AttachedSent(io, samples[..|samples| - 1], now, id); }
  }

  /** Every process gets its own fresh bytes, in their direction. */
  lemma AttachedByProcess(io: map<Process, IoBytes>, samples: seq<Sample>, now: int, id: Process)
    ensures Entry(Attached(io, samples, now), id).rx == Entry(io, id).rx + FreshBytes(samples, id, false, now)
    ensures Entry(Attached(io, samples, now), id).tx == Entry(io, id).tx + FreshBytes(samples, id, true, now)
  {
    AttachedReceived(io, samples, now, id);
    AttachedSent(io, samples, now, id);
  }

  function WithIo(f: Flow, io: map<Process, IoBytes>): Flow { f.(io := io) }

  /** The samples waiting under `socket` go to the flow under `key`. */
  function Attach(q: Queue, socket: Key, key: Key, now: int): Queue
    requires key in q.fs.active
  {
    var f := q.fs.active[key];
    var samples := Waiting(q, socket);
    q.(fs := Put(q.fs, WithIo(f, Attached(f.io, samples, now))), pending := q.pending - {socket},
       count := q.count - |samples|, unmatched := q.unmatched + StaleBytes(samples, now))
  }

  lemma AttachKeeps(q: Queue, socket: Key, key: Key, now: int)
    requires q in Settleds() && key in q.fs.active && q.fs.active[key].key == key
    ensures Attach(q, socket, key, now) in Settleds()
  {
    var f, samples := q.fs.active[key], Waiting(q, socket);
    AttachedTotal(f.io, samples, now);
    PutTotal(q.fs, WithIo(f, Attached(f.io, samples, now)), Io);
    FlushedKeeps(q, socket);
  }

  /** A flow leaves the table with its I/O. */
  ghost function Released(q: Queue, key: Key): Queue
    requires key in q.fs.active
  {
    q.(fs := Remove(q.fs, key), released := q.released + Io(q.fs.active[key]))
  }

  lemma ReleasedKeeps(q: Queue, key: Key)
    requires q in Settleds() && key in q.fs.active
    ensures Released(q, key) in Settleds()
  {
    RemoveTotal(q.fs, key, Io);
  }

  lemma RetireSettles(q: Queue, key: Key)
    requires q in Settleds() && key in q.fs.active
    ensures q.(fs := Retire(q.fs, key)) in Settleds()
  {
    RetireTotal(q.fs, key, Io);
  }

  lemma CreateSettles(q: Queue, f: Flow)
    requires q in Settleds() && f.key !in q.fs.active && f.io == map[]
    ensures q.(fs := Put(q.fs, f)) in Settleds()
  {
    PutTotal(q.fs, f, Io);
  }

  lemma ReplaceSettles(q: Queue, f: Flow)
    requires q in Settleds() && f.key in q.fs.active && f.io == q.fs.active[f.key].io
    ensures q.(fs := Put(q.fs, f)) in Settleds()
  {
    PutTotal(q.fs, f, Io);
  }

  // ----- The three ways an indexed event goes -----

  function Unmatched(q: Queue, bytes: nat): Queue { q.(indexed := q.indexed + bytes, unmatched := q.unmatched + bytes) }

  lemma UnmatchedKeeps(q: Queue, bytes: nat)
    requires q in Settleds()
    ensures Unmatched(q, bytes) in Settleds()
  {
  }

  function Grown(f: Flow, s: Sample): (r: Flow)
    ensures r.key == f.key
  {
    WithIo(f, AddIo(f.io, s.id, s.send, s.bytes))
  }

  function InFlow(q: Queue, key: Key, s: Sample): Queue
    requires key in q.fs.active
  {
    q.(fs := Put(q.fs, Grown(q.fs.active[key], s)), indexed := q.indexed + s.bytes)
  }

  lemma InFlowKeeps(q: Queue, key: Key, s: Sample)
    requires q in Settleds() && key in q.fs.active && q.fs.active[key].key == key
    ensures InFlow(q, key, s) in Settleds()
  {
    var f := q.fs.active[key];
    AddIoTotal(f.io, s.id, s.send, s.bytes);
    assert Io(Grown(f, s)) == Io(f) + s.bytes;
    PutTotal(q.fs, Grown(f, s), Io);
  }

  function Queued(q: Queue, key: Key, s: Sample): Queue {
    q.(pending := q.pending[key := Waiting(q, key) + [s]], count := q.count + 1, indexed := q.indexed + s.bytes)
  }

  lemma QueuedKeeps(q: Queue, key: Key, s: Sample)
    requires q in Settleds() && q.count < MAX_SAMPLES
    ensures Queued(q, key, s) in Settleds()
  {
    SumSeqMore(Waiting(q, key), s, SampleBytes);
    SumInsert(q.pending, Bytes, key, Waiting(q, key) + [s]);
    SumInsert(q.pending, Length, key, Waiting(q, key) + [s]);
  }

  // ----- Socket bytes by process -----

  datatype Pids = Pids(
    limit: nat, io: map<Process, IoBytes>, seen: map<Process, int>, expired: IoBytes, unindexed: IoBytes,
    received: nat, sent: nat, indexed: nat)

  function Received(b: IoBytes): nat { b.rx }

  function Sent(b: IoBytes): nat { b.tx }

  /** Every accounted byte is a live process's, an expired one's, or unindexed. */
  ghost predicate Attributed(p: Pids) {
    && p.io.Keys == p.seen.Keys && (p.limit > 0 ==> |p.io| <= p.limit)
    && p.received == Sum(p.io, Received) + p.expired.rx + p.unindexed.rx
    && p.sent == Sum(p.io, Sent) + p.expired.tx + p.unindexed.tx
    && p.indexed + Both(p.unindexed) == p.received + p.sent
  }

  ghost function Attributeds(): iset<Pids> { iset p | Attributed(p) }

  function Sized(p: Pids, send: bool, bytes: nat): Pids {
    if send then p.(sent := p.sent + bytes) else p.(received := p.received + bytes)
  }

  /** An event of a process the index has no room for. */
  function Overflowed(p: Pids, send: bool, bytes: nat): Pids {
    Sized(p, send, bytes).(unindexed := AddBytes(p.unindexed, send, bytes))
  }

  /** An event of an indexed process. */
  function Owned(p: Pids, id: Process, send: bool, bytes: nat, now: int): Pids {
    Sized(p, send, bytes).(io := AddIo(p.io, id, send, bytes), seen := p.seen[id := now], indexed := p.indexed + bytes)
  }

  lemma OverflowedKeeps(p: Pids, send: bool, bytes: nat)
    requires p in Attributeds()
    ensures Overflowed(p, send, bytes) in Attributeds()
  {
  }

  /** Adding to an entry adds as much to the total. */
  lemma AddedSum(io: map<Process, IoBytes>, id: Process, send: bool, bytes: nat, f: IoBytes -> nat, more: nat)
    requires f(NOTHING) == 0 && f(AddBytes(Entry(io, id), send, bytes)) == f(Entry(io, id)) + more
    ensures Sum(AddIo(io, id, send, bytes), f) == Sum(io, f) + more
  {
    SumStore(io, f, id, AddBytes(Entry(io, id), send, bytes));
  }

  lemma AddedKeys(p: Pids, id: Process, send: bool, bytes: nat, now: int)
    requires p.io.Keys == p.seen.Keys && (p.limit > 0 ==> |p.io| <= p.limit)
    requires id in p.io || p.limit == 0 || |p.io| < p.limit
    ensures var io := AddIo(p.io, id, send, bytes);
            io.Keys == p.seen[id := now].Keys && (p.limit > 0 ==> |io| <= p.limit)
  {
    var b := AddBytes(Entry(p.io, id), send, bytes);
    PutCount(p.io, id, b);
    SameKeys(p.io, p.seen, id, b, now);
  }

  lemma OwnedAttributed(p: Pids, id: Process, send: bool, bytes: nat, now: int)
    requires Attributed(p) && (id in p.io || p.limit == 0 || |p.io| < p.limit)
    ensures Attributed(Owned(p, id, send, bytes, now))
  {
    AddedSum(p.io, id, send, bytes, Received, if send then 0 else bytes);
    AddedSum(p.io, id, send, bytes, Sent, if send then bytes else 0);
    AddedKeys(p, id, send, bytes, now);
  }

  lemma OwnedKeeps(p: Pids, id: Process, send: bool, bytes: nat, now: int)
    requires p in Attributeds() && (id in p.io || p.limit == 0 || |p.io| < p.limit)
    ensures Owned(p, id, send, bytes, now) in Attributeds()
  {
    OwnedAttributed(p, id, send, bytes, now);
  }

  lemma SameKeys<K, V, W>(m: map<K, V>, n: map<K, W>, k: K, v: V, w: W)
    requires m.Keys == n.Keys
    ensures m[k := v].Keys == n[k := w].Keys
  {
  }

  function Forgotten(p: Pids, id: Process): Pids
    requires id in p.io
  {
    p.(io := p.io - {id}, seen := p.seen - {id}, expired := Plus(p.expired, p.io[id]))
  }

  lemma ForgottenKeeps(p: Pids, id: Process)
    requires p in Attributeds() && id in p.io
    ensures Forgotten(p, id) in Attributeds()
  {
    SumRemove(p.io, Received, id);
    SumRemove(p.io, Sent, id);
    RemoveCount(p.io, id);
    assert (p.io - {id}).Keys == p.io.Keys - {id} && (p.seen - {id}).Keys == p.seen.Keys - {id};
  }

  // ----- Ageing -----

  function Kept(samples: seq<Sample>, now: int, flushAll: bool): (r: seq<Sample>)
    ensures |r| <= |samples|
    decreases |samples|
  {
    if samples == [] then []
    else
      var k := |samples| - 1;
      var rest := Kept(samples[..k], now, flushAll);
      if !flushAll && Fresh(samples[k], now) then rest + [samples[k]] else rest
  }

  /** The queues without their stale samples; no empty queue is left. */
  function KeptQueues(pending: map<Key, seq<Sample>>, now: int, flushAll: bool): map<Key, seq<Sample>> {
    map k | k in pending && Kept(pending[k], now, flushAll) != [] :: Kept(pending[k], now, flushAll)
  }

  lemma {:induction false} KeptBytes(samples: seq<Sample>, now: int, flushAll: bool)
    ensures Bytes(Kept(samples, now, flushAll)) <= Bytes(samples)
    decreases |samples|
  {
    if samples != [] {
      var k := |samples| - 1;
      KeptBytes(samples[..k], now, flushAll);
      SumSeqMore(Kept(samples[..k], now, flushAll), samples[k], SampleBytes);
    }
  }

  ghost function Trimmed(q: Queue, key: Key, kept: seq<Sample>): Queue
    requires key in q.pending && |kept| <= |q.pending[key]| && Bytes(kept) <= Bytes(q.pending[key])
  {
    q.(pending := if kept == [] then q.pending - {key} else q.pending[key := kept],
       count := q.count - (|q.pending[key]| - |kept|), unmatched := q.unmatched + (Bytes(q.pending[key]) - Bytes(kept)))
  }

  lemma TrimmedKeeps(q: Queue, key: Key, kept: seq<Sample>)
    requires q in Settleds() && key in q.pending && |kept| <= |q.pending[key]| && Bytes(kept) <= Bytes(q.pending[key])
    ensures Trimmed(q, key, kept) in Settleds()
  {
    SumInsert(q.pending, Bytes, key, kept);
    SumInsert(q.pending, Length, key, kept);
    SumRemove(q.pending, Bytes, key);
    SumRemove(q.pending, Length, key);
  }

  /** The I/O entries of the processes that are still known. */
  function Stripped(f: Flow, ids: set<Process>): Flow { WithIo(f, f.io - ids) }

  lemma {:induction false} StripTotal(io: map<Process, IoBytes>, ids: set<Process>)
    ensures Sum(io - ids, Both) <= Sum(io, Both)
    decreases |ids|
  {
    if ids == {} {
      assert io - ids == io;
    } else {
      var id := Member(ids);
      StripTotal(io, ids - {id});
      var rest := io - (ids - {id});
      if id in rest { SumRemove(rest, Both, id); }
      assert io - ids == rest - {id};
      assert id !in rest ==> rest - {id} == rest;
    }
  }

  function RetiredAt(fs: Flows, i: nat, f: Flow): Flows
    requires i < |fs.retired|
  {
    fs.(retired := fs.retired[i := f])
  }

  lemma {:induction false} SumSeqUpdate<V>(s: seq<V>, i: nat, v: V, w: V -> nat)
    requires i < |s|
    ensures SumSeq(s[i := v], w) + w(s[i]) == SumSeq(s, w) + w(v)
    decreases |s|
  {
    var k := |s| - 1;
    if i < k {
      SumSeqUpdate(s[..k], i, v, w);
      assert s[i := v][..k] == s[..k][i := v];
    } else {
      assert s[i := v][..k] == s[..k];
    }
  }

  lemma {:induction false} SumSeqRemove<V>(s: seq<V>, i: nat, w: V -> nat)
    requires i < |s|
    ensures SumSeq(s[..i] + s[i + 1..], w) + w(s[i]) == SumSeq(s, w)
    decreases |s|
  {
    var k := |s| - 1;
    if i < k {
      SumSeqRemove(s[..k], i, w);
      assert s[..i] + s[i + 1..] == (s[..k][..i] + s[..k][i + 1..]) + [s[k]];
      SumSeqMore(s[..k][..i] + s[..k][i + 1..], s[k], w);
    } else {
      assert s[..i] + s[i + 1..] == s[..k];
    }
  }

  function RetiredWithout(fs: Flows, i: nat): Flows
    requires i < |fs.retired|
  {
    fs.(retired := fs.retired[..i] + fs.retired[i + 1..])
  }

  /** A retired flow is given up with its bytes. */
  function RetiredDropped(t: Table, i: nat): Table
    requires i < |t.fs.retired|
  {
    var f := t.fs.retired[i];
    t.(fs := RetiredWithout(t.fs, i), expired := Plus(t.expired, IoBytes(f.rx, f.tx)))
  }

  lemma RetiredDroppedKeeps(t: Table, i: nat, owed: IoBytes)
    requires t in Balances(owed) && i < |t.fs.retired|
    ensures RetiredDropped(t, i) in Balances(owed)
  {
    SumSeqRemove(t.fs.retired, i, Rx);
    SumSeqRemove(t.fs.retired, i, Tx);
  }

  ghost function RetiredReleased(q: Queue, i: nat): Queue
    requires i < |q.fs.retired|
  {
    q.(fs := RetiredWithout(q.fs, i), released := q.released + Io(q.fs.retired[i]))
  }

  lemma RetiredReleasedKeeps(q: Queue, i: nat)
    requires q in Settleds() && i < |q.fs.retired|
    ensures RetiredReleased(q, i) in Settleds()
  {
    SumSeqRemove(q.fs.retired, i, Io);
  }

  // ----- Stripping -----

  ghost function ActiveStripped(q: Queue, key: Key, ids: set<Process>): Queue
    requires key in q.fs.active
  {
    var f := q.fs.active[key];
    StripTotal(f.io, ids);
    q.(fs := q.fs.(active := q.fs.active[key := Stripped(f, ids)]),
      released := q.released + (Io(f) - Io(Stripped(f, ids))))
  }

  lemma ActiveStrippedKeeps(t: Table, q: Queue, key: Key, ids: set<Process>, owed: IoBytes)
    requires t in Balances(owed) && q in Settleds() && key in t.fs.active && q.fs == t.fs
    ensures ActiveStripped(q, key, ids) in Settleds()
    ensures t.(fs := ActiveStripped(q, key, ids).fs) in Balances(owed)
  {
    var f := q.fs.active[key];
    StripTotal(f.io, ids);
    SumInsert(q.fs.active, Io, key, Stripped(f, ids));
    SumInsert(q.fs.active, Rx, key, Stripped(f, ids));
    SumInsert(q.fs.active, Tx, key, Stripped(f, ids));
    PutCount(q.fs.active, key, Stripped(f, ids));
  }

  ghost function RetiredStripped(q: Queue, i: nat, ids: set<Process>): Queue
    requires i < |q.fs.retired|
  {
    var f := q.fs.retired[i];
    StripTotal(f.io, ids);
    q.(fs := RetiredAt(q.fs, i, Stripped(f, ids)), released := q.released + (Io(f) - Io(Stripped(f, ids))))
  }

  lemma RetiredStrippedKeeps(t: Table, q: Queue, i: nat, ids: set<Process>, owed: IoBytes)
    requires t in Balances(owed) && q in Settleds() && i < |t.fs.retired| && q.fs == t.fs
    ensures RetiredStripped(q, i, ids) in Settleds()
    ensures t.(fs := RetiredStripped(q, i, ids).fs) in Balances(owed)
  {
    StripSettles(q, i, ids);
    StripBalances(t, i, ids, owed);
  }

  lemma StripSettles(q: Queue, i: nat, ids: set<Process>)
    requires q in Settleds() && i < |q.fs.retired|
    ensures RetiredStripped(q, i, ids) in Settleds()
  {
    var f := q.fs.retired[i];
    StripTotal(f.io, ids);
    SumSeqUpdate(q.fs.retired, i, Stripped(f, ids), Io);
  }

  lemma StripBalances(t: Table, i: nat, ids: set<Process>, owed: IoBytes)
    requires t in Balances(owed) && i < |t.fs.retired|
    ensures t.(fs := RetiredAt(t.fs, i, Stripped(t.fs.retired[i], ids))) in Balances(owed)
  {
    SumSeqUpdate(t.fs.retired, i, Stripped(t.fs.retired[i], ids), Rx);
    SumSeqUpdate(t.fs.retired, i, Stripped(t.fs.retired[i], ids), Tx);
  }
}
