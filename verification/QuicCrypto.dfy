/** QUIC CRYPTO reassembly (section 19.6 of RFC 9000): fragments in any order
    become the client's first handshake message. */
module QuicCrypto {
  import opened Coverage
  import opened MapSums
  import opened Prelude
  import QuicFrames
  import Tls

  const MAX_CRYPTO_BYTES := 65540
  const MAX_CRYPTO_PARTS := 64

  datatype Error =
    | SizeLimit | Conflict | FragmentLimit | BufferLimit | NotClientHello | Unreadable(frame: QuicFrames.Error)

  type Parts = map<int, seq<byte>>

  // ----- Facts about the parts, free of the heap -----

  /** The byte at offset x of a part that starts at i. */
  ghost function At(i: int, part: seq<byte>, x: int): Option<byte> {
    if i <= x < i + |part| then Some(part[x - i]) else None
  }

  /** Two parts agree where they overlap. */
  ghost predicate Agree(i: int, a: seq<byte>, j: int, b: seq<byte>) {
    forall x {:trigger At(i, a, x)} {:trigger At(j, b, x)} ::
      At(i, a, x).Some? && At(j, b, x).Some? ==> At(i, a, x) == At(j, b, x)
  }

  ghost predicate AllAgree(parts: Parts) {
    forall i, j :: i in parts && j in parts ==> Agree(i, parts[i], j, parts[j])
  }

  ghost predicate Counted(parts: Parts, size: int) {
    && size == Sum(parts, Length)
    && forall k :: k in parts ==> parts[k] != []
  }

  ghost predicate Beyond(parts: Parts, n: nat) { forall k :: k in parts ==> k > n }

  ghost predicate InBounds(parts: Parts) { forall k :: k in parts ==> 0 <= k && k + |parts[k]| <= MAX_CRYPTO_BYTES }

  /** Every part is the stretch of the wire at its offset. */
  ghost predicate Placed(parts: Parts, wire: seq<byte>) {
    forall k :: k in parts ==> k >= 0 && OnWire(wire, k, parts[k])
  }

  ghost function Segments(parts: Parts): set<Segment> { set k | k in parts :: Segment(k, |parts[k]|) }

  /** The fragments that were appended or are contained in a part. */
  ghost function Held(parts: Parts, n: nat): iset<Segment> {
    iset g: Segment | g.length == 0 || g.offset + g.length <= n || (g.offset in parts && |parts[g.offset]| >= g.length)
  }

  ghost predicate Accounted(parts: Parts, n: nat, seen: set<Segment>) { forall g :: g in seen ==> g in Held(parts, n) }

  ghost predicate Tracks(parts: Parts, n: nat, seen: set<Segment>) {
    && Segments(parts) <= seen
    && Accounted(parts, n, seen)
    && Below(n) <= Union(seen)
  }

  /** When every part lies beyond, no fragment covers the next byte. */
  lemma BeyondIsLongest(parts: Parts, n: nat, seen: set<Segment>)
    requires Tracks(parts, n, seen) && Beyond(parts, n)
    ensures LongestPrefix(seen, n)
  {
    forall g | g in seen ensures !Covers(g, n) {
      assert g in Held(parts, n);
    }
  }

  /** Taking a part out that starts at or before the end of the prefix, and appending
      what it holds past it, keeps the account. */
  lemma TracksPull(parts: Parts, n: nat, seen: set<Segment>, k: int, n': nat)
    requires Tracks(parts, n, seen) && k in parts && k <= n
    requires n' == if k + |parts[k]| > n then k + |parts[k]| else n
    ensures Tracks(parts - {k}, n', seen)
  {
    var g := Segment(k, |parts[k]|);
    assert g in Segments(parts);
    assert Segments(parts - {k}) <= Segments(parts);
    forall h | h in seen ensures h in Held(parts - {k}, n') {
      assert h in Held(parts, n);
    }
    forall i | i in Below(n') ensures i in Union(seen) {
      if i >= n { assert Covers(g, i); } else { assert i in Below(n); }
    }
  }

  /** Noting a fragment that ends at the new end of the prefix. */
  lemma TracksAppend(parts: Parts, n: nat, seen: set<Segment>, g: Segment, n': nat)
    requires Tracks(parts, n, seen) && g.offset <= n
    requires n' == if g.offset + g.length > n then g.offset + g.length else n
    ensures Tracks(parts, n', seen + {g})
  {
    UnionGrows(seen, g);
    forall h | h in seen + {g} ensures h in Held(parts, n') {
      if h != g { assert h in Held(parts, n); }
    }
    forall i | i in Below(n') ensures i in Union(seen + {g}) {
      if i >= n { assert Covers(g, i); } else { assert i in Below(n); }
    }
  }

  lemma TracksNote(parts: Parts, n: nat, seen: set<Segment>, g: Segment)
    requires Tracks(parts, n, seen) && g in Held(parts, n)
    ensures Tracks(parts, n, seen + {g})
  {
    UnionGrows(seen, g);
  }

  lemma TracksStore(parts: Parts, n: nat, seen: set<Segment>, k: int, data: seq<byte>)
    requires Tracks(parts, n, seen)
    requires k in parts ==> |parts[k]| <= |data|
    ensures Tracks(parts[k := data], n, seen + {Segment(k, |data|)})
  {
    UnionGrows(seen, Segment(k, |data|));
    assert Segments(parts[k := data]) <= Segments(parts) + {Segment(k, |data|)};
    assert Held(parts, n) <= Held(parts[k := data], n);
  }

  /** Slices of one wire never conflict. */
  lemma SlicesAgree(wire: seq<byte>, i: nat, a: seq<byte>, j: nat, b: seq<byte>)
    requires OnWire(wire, i, a) && OnWire(wire, j, b)
    ensures Agree(i, a, j, b)
  {
    forall x | At(i, a, x).Some? && At(j, b, x).Some? ensures At(i, a, x) == At(j, b, x) {
      assert a[x - i] == wire[x] && b[x - j] == wire[x];
    }
  }

  /** The source's slice comparison is agreement on the overlap. */
  lemma SharedAgree(i: int, a: seq<byte>, j: int, b: seq<byte>, from: int, to: int)
    requires from == (if i > j then i else j) && to == (if i + |a| < j + |b| then i + |a| else j + |b|)
    ensures from < to ==> (a[from - i..to - i] == b[from - j..to - j] <==> Agree(i, a, j, b))
    ensures from >= to ==> Agree(i, a, j, b)
  {
    if from < to {
      var s, t := a[from - i..to - i], b[from - j..to - j];
      if s == t {
        forall x | At(i, a, x).Some? && At(j, b, x).Some? ensures At(i, a, x) == At(j, b, x) {
          assert s[x - from] == t[x - from];
        }
      }
      if Agree(i, a, j, b) {
        assert |s| == |t|;
        forall y | 0 <= y < |s| ensures s[y] == t[y] {
          var x := from + y;
          assert At(i, a, x) == At(j, b, x);
          assert s[y] == a[x - i] && t[y] == b[x - j];
        }
      }
    }
  }

  // ----- The tracker as a value -----

  /** The crypto stream, the parts beyond it and their size, every fragment accepted,
      and whether all of those were slices of the wire. */
  datatype View = View(crypto: seq<byte>, parts: Parts, size: int, seen: set<Segment>, fits: bool)

  ghost predicate Bounded(v: View) {
    && Counted(v.parts, v.size) && |v.parts| <= MAX_CRYPTO_PARTS && v.size <= MAX_CRYPTO_BYTES
    && |v.crypto| <= MAX_CRYPTO_BYTES && InBounds(v.parts)
  }

  ghost predicate OnStream(wire: seq<byte>, v: View) {
    v.fits ==> OnWire(wire, 0, v.crypto) && Placed(v.parts, wire) && Tracks(v.parts, |v.crypto|, v.seen)
  }

  /** Holds while parts are being pulled. */
  ghost predicate Pulling(wire: seq<byte>, v: View) { Bounded(v) && AllAgree(v.parts) && OnStream(wire, v) }

  /** Holds between calls. */
  ghost predicate Settled(wire: seq<byte>, v: View) {
    && Pulling(wire, v)
    && Beyond(v.parts, |v.crypto|)
    && (v.fits ==> LongestPrefix(v.seen, |v.crypto|))
  }

  ghost function PullingViews(wire: seq<byte>): iset<View> { iset v: View | Pulling(wire, v) }

  ghost function SettledViews(wire: seq<byte>): iset<View> { iset v: View | Settled(wire, v) }

  /** What a part holds past the end of the prefix. */
  ghost function Rest(n: nat, start: int, part: seq<byte>): seq<byte>
    requires start <= n
  {
    if n - start < |part| then part[n - start..] else []
  }

  ghost function Pulled(v: View, k: int): View
    requires k in v.parts && k <= |v.crypto|
  {
    v.(crypto := v.crypto + Rest(|v.crypto|, k, v.parts[k]), parts := v.parts - {k}, size := v.size - |v.parts[k]|)
  }

  lemma RestOnWire(wire: seq<byte>, crypto: seq<byte>, start: int, part: seq<byte>)
    requires 0 <= start <= |crypto| && OnWire(wire, 0, crypto) && OnWire(wire, start, part)
    ensures OnWire(wire, 0, crypto + Rest(|crypto|, start, part))
  {
    var n := |crypto|;
    if n - start < |part| {
      assert part[n - start..] == wire[n..start + |part|];
      assert wire[..n] + wire[n..start + |part|] == wire[..start + |part|];
    } else {
      assert crypto + [] == crypto;
    }
  }

  lemma WithoutCounts(parts: Parts, size: int, k: int)
    requires Counted(parts, size) && k in parts
    ensures Counted(parts - {k}, size - |parts[k]|) && |parts - {k}| == |parts| - 1
    ensures 0 <= size - |parts[k]|
  {
    SumRemove(parts, Length, k);
    assert (parts - {k}).Keys == parts.Keys - {k};
  }

  lemma PullKeeps(wire: seq<byte>, v: View, k: int)
    requires Pulling(wire, v) && k in v.parts && k <= |v.crypto|
    ensures Pulling(wire, Pulled(v, k)) && |Pulled(v, k).parts| == |v.parts| - 1
  {
    var after := Pulled(v, k);
    WithoutCounts(v.parts, v.size, k);
    if v.fits {
      RestOnWire(wire, v.crypto, k, v.parts[k]);
      TracksPull(v.parts, |v.crypto|, v.seen, k, |after.crypto|);
    }
  }

  lemma PulledPulls(wire: seq<byte>, v: View, k: int)
    requires v in PullingViews(wire) && k in v.parts && k <= |v.crypto|
    ensures Pulled(v, k) in PullingViews(wire) && |Pulled(v, k).parts| == |v.parts| - 1
  {
    PullKeeps(wire, v, k);
  }

  lemma PulledSettles(wire: seq<byte>, v: View)
    requires Pulling(wire, v) && Beyond(v.parts, |v.crypto|)
    ensures Settled(wire, v)
  {
    if v.fits { BeyondIsLongest(v.parts, |v.crypto|, v.seen); }
  }

  /** A fragment at or before the end of the prefix goes straight onto it. */
  ghost function Appended(v: View, start: nat, data: seq<byte>): View
    requires start <= |v.crypto|
  {
    v.(crypto := v.crypto + Rest(|v.crypto|, start, data), seen := v.seen + {Segment(start, |data|)})
  }

  ghost function Judged(wire: seq<byte>, v: View, start: nat, data: seq<byte>): View {
    v.(fits := v.fits && OnWire(wire, start, data))
  }

  lemma AppendKeeps(wire: seq<byte>, v: View, start: nat, data: seq<byte>)
    requires Settled(wire, v) && start <= |v.crypto| && start + |data| <= MAX_CRYPTO_BYTES
    ensures Pulling(wire, Appended(Judged(wire, v, start, data), start, data))
    ensures start + |data| <= |v.crypto| ==> Settled(wire, Appended(Judged(wire, v, start, data), start, data))
  {
    var after := Appended(Judged(wire, v, start, data), start, data);
    if after.fits {
      RestOnWire(wire, v.crypto, start, data);
      TracksAppend(v.parts, |v.crypto|, v.seen, Segment(start, |data|), |after.crypto|);
    }
    if start + |data| <= |v.crypto| { PulledSettles(wire, after); }
  }

  /** A fragment beyond the prefix waits, unless a longer one with the same start does. */
  ghost function Stored(v: View, start: nat, data: seq<byte>): View {
    var noted := v.(seen := v.seen + {Segment(start, |data|)});
    if start !in v.parts then noted.(parts := v.parts[start := data], size := v.size + |data|)
    else if |v.parts[start]| >= |data| then noted
    else noted.(parts := v.parts[start := data], size := v.size - |v.parts[start]| + |data|)
  }

  lemma StoredBounded(v: View, start: nat, data: seq<byte>)
    requires Bounded(v) && data != [] && start + |data| <= MAX_CRYPTO_BYTES
    requires start in v.parts || |v.parts| < MAX_CRYPTO_PARTS
    requires Stored(v, start, data).size <= MAX_CRYPTO_BYTES
    ensures Bounded(Stored(v, start, data))
  {
    SumInsert(v.parts, Length, start, data);
    assert v.parts[start := data].Keys == v.parts.Keys + {start};
  }

  lemma StoredTracks(wire: seq<byte>, v: View, start: nat, data: seq<byte>)
    requires OnStream(wire, v) && start > |v.crypto|
    ensures OnStream(wire, Stored(Judged(wire, v, start, data), start, data))
  {
    if v.fits && OnWire(wire, start, data) {
      if start in v.parts && |v.parts[start]| >= |data| {
        TracksNote(v.parts, |v.crypto|, v.seen, Segment(start, |data|));
      } else {
        TracksStore(v.parts, |v.crypto|, v.seen, start, data);
      }
    }
  }

  lemma StoredSize(v: View, start: nat, data: seq<byte>)
    requires Counted(v.parts, v.size) && v.size >= 0
    ensures start in v.parts ==> |v.parts[start]| <= v.size
  {
    if start in v.parts { SumMember(v.parts, Length, start); }
  }

  /** An empty frame is accepted anywhere and changes nothing. */
  lemma EmptyKeeps(wire: seq<byte>, v: View, start: nat)
    requires Settled(wire, v)
    ensures Settled(wire, v.(seen := v.seen + {Segment(start, 0)}, fits := v.fits && OnWire(wire, start, [])))
  {
    var after := v.(seen := v.seen + {Segment(start, 0)}, fits := v.fits && OnWire(wire, start, []));
    if after.fits { TracksNote(v.parts, |v.crypto|, v.seen, Segment(start, 0)); }
    PulledSettles(wire, after);
  }

  /** Every part agrees with the fragment. */
  ghost predicate Accepts(parts: Parts, start: int, data: seq<byte>) {
    forall k :: k in parts ==> Agree(start, data, k, parts[k])
  }

  lemma StoredAgrees(parts: Parts, start: int, data: seq<byte>)
    requires AllAgree(parts) && Accepts(parts, start, data)
    ensures AllAgree(parts[start := data])
  {
    var after := parts[start := data];
    forall i, j | i in after && j in after ensures Agree(i, after[i], j, after[j]) {
    }
  }

  lemma StoreKeeps(wire: seq<byte>, v: View, start: nat, data: seq<byte>)
    requires Settled(wire, v) && start > |v.crypto| && data != [] && start + |data| <= MAX_CRYPTO_BYTES
    requires Accepts(v.parts, start, data)
    requires start in v.parts || |v.parts| < MAX_CRYPTO_PARTS
    requires Stored(v, start, data).size <= MAX_CRYPTO_BYTES
    ensures Settled(wire, Stored(Judged(wire, v, start, data), start, data))
  {
    var after := Stored(Judged(wire, v, start, data), start, data);
    StoredBounded(v, start, data);
    StoredTracks(wire, v, start, data);
    StoredAgrees(v.parts, start, data);
    assert Bounded(after) && AllAgree(after.parts);
    PulledSettles(wire, after);
  }

  /** Slices of one wire never conflict with what the tracker holds. */
  lemma SlicesAccepted(wire: seq<byte>, v: View, start: nat, data: seq<byte>)
    requires Settled(wire, v) && v.fits && OnWire(wire, start, data)
    ensures Accepts(v.parts, start, data)
    ensures Agree(start, data, 0, v.crypto)
  {
    forall k | k in v.parts ensures Agree(start, data, k, v.parts[k]) {
      SlicesAgree(wire, start, data, k, v.parts[k]);
    }
    SlicesAgree(wire, start, data, 0, v.crypto);
  }

  // ----- When a fragment is refused -----

  /** A fragment is refused as a conflict: up to the end of the prefix it is compared
      with the prefix alone, and beyond it with the parts that wait. */
  ghost predicate Refused(v: View, start: nat, data: seq<byte>) {
    start + |data| <= 65540 &&
    if start <= |v.crypto| then !Agree(start, data, 0, v.crypto) else data != [] && !Accepts(v.parts, start, data)
  }

  /** The bytes that a stored fragment takes the place of. */
  ghost function Replaced(v: View, start: nat): nat { if start in v.parts then |v.parts[start]| else 0 }

  /** A fragment goes to the parts: it is beyond the prefix, agrees, and is longer than
      what waits at its offset. */
  ghost predicate ToStore(v: View, start: nat, data: seq<byte>) {
    start + |data| <= 65540 && start > |v.crypto| && Accepts(v.parts, start, data)
      && |data| > Replaced(v, start)
  }

  ghost predicate TooMany(v: View, start: nat, data: seq<byte>) {
    ToStore(v, start, data) && start !in v.parts && |v.parts| >= 64
  }

  ghost predicate TooLarge(v: View, start: nat, data: seq<byte>) {
    ToStore(v, start, data) && !TooMany(v, start, data) && v.size - Replaced(v, start) + |data| > 65540
  }

  /** The first reason there is to refuse a fragment, if any. */
  ghost function Refusal(v: View, start: nat, data: seq<byte>): Option<Error> {
    if start + |data| > 65540 then Some(SizeLimit)
    else if Refused(v, start, data) then Some(Conflict)
    else if TooMany(v, start, data) then Some(FragmentLimit)
    else if TooLarge(v, start, data) then Some(BufferLimit)
    else None
  }

  /** Comparing what a fragment shares with the prefix decides whether it is refused. */
  lemma PrefixCompared(v: View, start: nat, data: seq<byte>, overlap: nat)
    requires start <= |v.crypto| && start + |data| <= MAX_CRYPTO_BYTES
    requires overlap == (if start + |data| < |v.crypto| then start + |data| else |v.crypto|) - start
    ensures Refusal(v, start, data) ==
            if v.crypto[start..start + overlap] != data[..overlap] then Some(Conflict) else None
  {
    SharedAgree(start, data, 0, v.crypto, start, start + overlap);
    assert v.crypto[start - 0..start + overlap - 0] == v.crypto[start..start + overlap];
  }

  lemma AppendedPulls(wire: seq<byte>, v: View, start: nat, data: seq<byte>)
    requires v in SettledViews(wire) && start <= |v.crypto| && start + |data| <= MAX_CRYPTO_BYTES
    ensures var after := Appended(Judged(wire, v, start, data), start, data);
            after in PullingViews(wire) && (start + |data| <= |v.crypto| ==> after in SettledViews(wire))
  {
    AppendKeeps(wire, v, start, data);
  }

  lemma AcceptedBeyond(v: View, start: nat, data: seq<byte>)
    requires start > |v.crypto| && data != [] && start + |data| <= MAX_CRYPTO_BYTES && Accepts(v.parts, start, data)
    ensures Refusal(v, start, data) ==
            if |data| <= Replaced(v, start) then None
            else if start !in v.parts && |v.parts| >= MAX_CRYPTO_PARTS then Some(FragmentLimit)
            else if v.size - Replaced(v, start) + |data| > MAX_CRYPTO_BYTES then Some(BufferLimit)
            else None
  {
  }

  /** A fragment that no limit refuses can be kept. */
  lemma KeptSettles(wire: seq<byte>, v: View, start: nat, data: seq<byte>)
    requires v in SettledViews(wire) && start > |v.crypto| && data != [] && Refusal(v, start, data) == None
    ensures Stored(Judged(wire, v, start, data), start, data) in SettledViews(wire)
  {
    StoredSize(v, start, data);
    StoreKeeps(wire, v, start, data);
  }

  /** What agrees with a part agrees with its bytes from the same offset on. */
  lemma SameOffset(parts: Parts, start: nat, data: seq<byte>)
    requires Accepts(parts, start, data) && start in parts
    ensures var overlap := if |parts[start]| < |data| then |parts[start]| else |data|;
            parts[start][..overlap] == data[..overlap]
  {
    var overlap := if |parts[start]| < |data| then |parts[start]| else |data|;
    SharedAgree(start, data, start, parts[start], start, start + overlap);
  }

  /** A fragment within the size limit that disagrees with anything held goes unnoticed
      if and only if it starts at or before the end of the prefix and agrees with that;
      it then disagrees with a part that waits. */
  lemma ConflictMissed(v: View, start: nat, data: seq<byte>)
    requires start + |data| <= MAX_CRYPTO_BYTES
    ensures var disagrees := !Agree(start, data, 0, v.crypto) || !Accepts(v.parts, start, data);
            disagrees && !Refused(v, start, data) <==>
            start <= |v.crypto| && Agree(start, data, 0, v.crypto) && !Accepts(v.parts, start, data)
  {
    if start > |v.crypto| && data == [] {
      forall k | k in v.parts ensures Agree(start, data, k, v.parts[k]) { }
    }
  }

  /** It happens: after byte 0, byte 2 waits as 7, and then bytes 1 and 2 arrive as 8
      and 9. They are appended, and the part that waited is dropped unread. */
  lemma AppendedOverWaiting(wire: seq<byte>)
    ensures var v := View([0], map[2 := [7]], 1, {Segment(0, 1), Segment(2, 1)}, false);
            && Settled(wire, v) && Refusal(v, 1, [8, 9]) == None && !Accepts(v.parts, 1, [8, 9])
            && Pulled(Appended(v, 1, [8, 9]), 2) == View([0, 8, 9], map[], 0, v.seen + {Segment(1, 2)}, false)
  {
    var v := View([0], map[2 := [7]], 1, {Segment(0, 1), Segment(2, 1)}, false);
    SumInsert(map[], Length, 2, [7]);
    assert At(1, [8, 9], 2) != At(2, [7], 2);
    assert v.parts - {2} == map[] && Rest(1, 1, [8, 9]) == [8, 9] && [0, 8, 9] + [] == [0, 8, 9];
    assert Agree(2, [7], 2, [7]);
  }

  // ----- What a whole run promises -----

  datatype HelloResult = Incomplete | Hello(message: seq<byte>) | Invalid(error: Error)

  /** The first handshake message of the stream, once it is complete. */
  function ClientHello(crypto: seq<byte>): HelloResult {
    if |crypto| < 4 then Incomplete
    else if crypto[0] != 1 then Invalid(NotClientHello)
    else
      var length := crypto[1] as int * 65536 + crypto[2] as int * 256 + crypto[3] as int;
      if length > MAX_CRYPTO_BYTES - 4 then Invalid(SizeLimit)
      else if |crypto| < length + 4 then Incomplete
      else Hello(crypto[..length + 4])
  }

  /** Of a stream that starts with a handshake message exactly a ClientHello is returned,
      as soon as all of it is there; one of another type or of too great a length is
      refused as soon as its header is there. */
  lemma MessageIsFound(kind: byte, body: seq<byte>, crypto: seq<byte>)
    requires |body| < 0x100_0000
    requires crypto <= Tls.Handshake(kind, body) || Tls.Handshake(kind, body) <= crypto
    ensures ClientHello(crypto) ==
            if |crypto| < 4 then Incomplete
            else if kind != 1 then Invalid(NotClientHello)
            else if |body| > 65536 then Invalid(SizeLimit)
            else if |crypto| < 4 + |body| then Incomplete
            else Hello(Tls.Handshake(1, body))
  {
    var message := Tls.Handshake(kind, body);
    if |crypto| >= 4 {
      assert forall i :: 0 <= i < 4 ==> crypto[i] == message[i];
      if |crypto| >= |message| { assert crypto[..|message|] == message; }
    }
  }

  /** Two trackers that saw the same stretches of one stream hold the same prefix of
      it, and so the same message, in whatever order and fragments it came. */
  lemma {:induction false} FragmentOrderIrrelevant(wire: seq<byte>, u: View, v: View)
    requires Settled(wire, u) && u.fits && Settled(wire, v) && v.fits
    requires Union(u.seen) == Union(v.seen)
    ensures u.crypto == v.crypto == wire[..|u.crypto|] && ClientHello(u.crypto) == ClientHello(v.crypto)
  {
    LongestPrefixUnique(u.seen, v.seen, |u.crypto|, |v.crypto|);
  }

  /** A message read from a longer prefix is the message read from a shorter one. */
  lemma HelloIsStable(crypto: seq<byte>, more: seq<byte>)
    requires ClientHello(crypto) != Incomplete
    ensures ClientHello(crypto + more) == ClientHello(crypto)
  {
    if ClientHello(crypto).Hello? {
      var n := |ClientHello(crypto).message|;
      assert (crypto + more)[..n] == crypto[..n];
    }
  }

  lemma HelloOnWire(wire: seq<byte>, v: View)
    requires Settled(wire, v) && ClientHello(v.crypto).Hello?
    ensures v.fits ==>
              var message := ClientHello(v.crypto).message;
              message <= wire && ClientHello(wire[..|message|]) == Hello(message)
  {
    if v.fits {
      var message := ClientHello(v.crypto).message;
      assert wire[..|message|] == message;
      assert message[..|message|] == message;
    }
  }

  /** The stretches that a packet's CRYPTO frames hold. */
  ghost function Noted(frames: seq<(nat, seq<byte>)>): set<Segment> { set f | f in frames :: Segment(f.0, |f.1|) }

  /** A stream has one first message: whatever was still missing behind it, every
      tracker of the stream that returns a message returns that one. */
  lemma HelloIsUnique(wire: seq<byte>, a: seq<byte>, b: seq<byte>)
    requires a <= wire && ClientHello(wire[..|a|]) == Hello(a)
    requires b <= wire && ClientHello(wire[..|b|]) == Hello(b)
    ensures a == b
  {
    var short, long := if |a| <= |b| then a else b, if |a| <= |b| then b else a;
    assert wire[..|short|] + wire[|short|..|long|] == wire[..|long|];
    HelloIsStable(wire[..|short|], wire[|short|..|long|]);
  }

  /** The reassembly state of one client's Initial packets. */
  class Tracker {
    var crypto: seq<byte>
    var parts: Parts
    var pendingSize: int
    var done: bool
    var failure: Option<Error>

    ghost const wire: seq<byte>
    ghost var seen: set<Segment>
    ghost var fits: bool

    ghost function V(): View
      reads this
    {
      View(crypto, parts, pendingSize, seen, fits)
    }

    ghost predicate Valid()
      reads this
    {
      && (!done ==> V() in SettledViews(wire))
      && (failure.Some? ==> done)
    }

    constructor (ghost wire: seq<byte>)
      ensures Valid() && !done && failure == None && this.wire == wire && V() == View([], map[], 0, {}, true)
    {
      this.crypto, this.parts, this.pendingSize, this.done, this.failure := [], map[], 0, false, None;
      this.wire, this.seen, this.fits := wire, {}, true;
      new;
      assert Below(0) <= Union({});
      assert 0 !in Union({});
    }

    /** Appends the parts that became contiguous, in whatever order the map yields
        them. It terminates because a pass that progresses removes a part. */
    method PullParts()
      requires V() in PullingViews(wire)
      modifies this`crypto, this`parts, this`pendingSize
      ensures V() in SettledViews(wire) && old(crypto) <= crypto
    {
      var progress := true;
      while progress
        invariant V() in PullingViews(wire) && old(crypto) <= crypto
        invariant !progress ==> Beyond(parts, |crypto|)
        decreases |parts|, progress
      {
        progress := PullPass();
      }
      PulledSettles(wire, V());
    }

    /** One pass over the parts held at its start. */
    method PullPass() returns (progress: bool)
      requires V() in PullingViews(wire)
      modifies this`crypto, this`parts, this`pendingSize
      ensures V() in PullingViews(wire) && old(crypto) <= crypto
      ensures |parts| <= old(|parts|) && (progress ==> |parts| < old(|parts|))
      ensures !progress ==> Beyond(parts, |crypto|)
    {
      progress := false;
      var todo := parts.Keys;
      while todo != {}
        invariant V() in PullingViews(wire) && old(crypto) <= crypto
        invariant |parts| <= old(|parts|) && (progress ==> |parts| < old(|parts|))
        invariant todo <= parts.Keys
        invariant !progress ==> forall k :: k in parts && k !in todo ==> k > |crypto|
        decreases |todo|
      {
        ghost var some := Member(todo);
        var start :| start in todo;
        todo := todo - {start};
        if start <= |crypto| {
          var moved := PullOne(start);
          progress := progress || moved;
        }
      }
    }

    /** Takes a part out and appends what it holds past the prefix. */
    method PullOne(start: int) returns (moved: bool)
      requires V() in PullingViews(wire) && start in parts && start <= |crypto|
      modifies this`crypto, this`parts, this`pendingSize
      ensures V() in PullingViews(wire) && V() == Pulled(old(V()), start) && |parts| == old(|parts|) - 1
      ensures old(crypto) <= crypto && (moved <==> crypto != old(crypto))
    {
      PulledPulls(wire, V(), start);
      moved := TakeOut(start);
    }

    method TakeOut(start: int) returns (moved: bool)
      requires start in parts && start <= |crypto|
      modifies this`crypto, this`parts, this`pendingSize
      ensures V() == Pulled(old(V()), start)
      ensures old(crypto) <= crypto && (moved <==> crypto != old(crypto))
    {
      var part := parts[start];
      parts, pendingSize := parts - {start}, pendingSize - |part|;
      var used := |crypto| - start;
      moved := used < |part|;
      if moved {
        crypto := crypto + part[used..];
      } else {
        assert crypto + [] == crypto;
      }
    }

    /** Accepts one CRYPTO frame. */
    method AddCrypto(start: nat, data: seq<byte>) returns (error: Option<Error>)
      requires Valid() && !done
      modifies this`crypto, this`parts, this`pendingSize, this`seen, this`fits
      ensures error.None? ==> Valid()
      ensures error.None? ==>
                seen == old(seen) + {Segment(start, |data|)} && fits == (old(fits) && OnWire(wire, start, data))
      ensures error.None? ==>
                if start <= old(|crypto|) then Appended(old(V()), start, data).crypto <= crypto
                else crypto == old(crypto)
      ensures error == Refusal(old(V()), start, data)
      ensures old(fits) && OnWire(wire, start, data) ==> error != Some(Conflict)
    {
      if start > MAX_CRYPTO_BYTES || |data| > MAX_CRYPTO_BYTES - start {
        return Some(SizeLimit);
      }
      ghost var v := V();
      if fits && OnWire(wire, start, data) {
        SlicesAccepted(wire, v, start, data);
      }
      if start <= |crypto| {
        error := Append(start, data);
      } else if |data| == 0 {
        error := None;
        EmptyKeeps(wire, V(), start);
        seen, fits := seen + {Segment(start, 0)}, fits && OnWire(wire, start, data);
      } else {
        error := Store(start, data);
      }
    }

    /** A frame that starts at or before the end of the prefix: what it repeats must
        match, and the rest is appended. */
    method Append(start: nat, data: seq<byte>) returns (error: Option<Error>)
      requires Valid() && !done && start <= |crypto| && start + |data| <= MAX_CRYPTO_BYTES
      modifies this`crypto, this`parts, this`pendingSize, this`seen, this`fits
      ensures error == Refusal(old(V()), start, data)
      ensures error.None? ==> Valid() && Appended(old(V()), start, data).crypto <= crypto
      ensures error.None? ==>
                seen == old(seen) + {Segment(start, |data|)} && fits == (old(fits) && OnWire(wire, start, data))
    {
      var end := start + |data|;
      var overlap := (if end < |crypto| then end else |crypto|) - start;
      PrefixCompared(V(), start, data, overlap);
      if crypto[start..start + overlap] != data[..overlap] {
        return Some(Conflict);
      }
      AppendedPulls(wire, V(), start, data);
      AppendRest(start, data, overlap);
      if overlap == |data| {
        return None;
      }
      PullParts();
      return None;
    }

    method AppendRest(start: nat, data: seq<byte>, overlap: nat)
      requires start <= |crypto| && overlap <= |data|
      requires overlap == (if start + |data| < |crypto| then start + |data| else |crypto|) - start
      modifies this`crypto, this`seen, this`fits
      ensures V() == Appended(Judged(wire, old(V()), start, data), start, data)
    {
      Note(start, data);
      if overlap == |data| {
        assert crypto + [] == crypto;
        return;
      }
      crypto := crypto + data[overlap..];
    }

    /** A frame beyond the prefix waits; it must agree with every part. */
    method Store(start: nat, data: seq<byte>) returns (error: Option<Error>)
      requires Valid() && !done && start > |crypto| && data != [] && start + |data| <= MAX_CRYPTO_BYTES
      modifies this`parts, this`pendingSize, this`seen, this`fits
      ensures error == Refusal(old(V()), start, data)
      ensures error.None? ==> Valid()
      ensures error.None? ==>
                seen == old(seen) + {Segment(start, |data|)} && fits == (old(fits) && OnWire(wire, start, data))
    {
      var agrees := Agrees(start, data);
      if !agrees {
        return Some(Conflict);
      }
      error := Keep(start, data);
    }

    /** Keeps a frame that agrees, unless a longer one is kept at its offset, or refuses it
        at a limit. */
    method Keep(start: nat, data: seq<byte>) returns (error: Option<Error>)
      requires V() in SettledViews(wire) && start > |crypto| && data != [] && start + |data| <= MAX_CRYPTO_BYTES
      requires Accepts(parts, start, data)
      modifies this`parts, this`pendingSize, this`seen, this`fits
      ensures error == Refusal(old(V()), start, data)
      ensures error.None? ==>
                V() in SettledViews(wire) && V() == Stored(Judged(wire, old(V()), start, data), start, data)
    {
      AcceptedBeyond(V(), start, data);
      if Refusal(V(), start, data) == None { KeptSettles(wire, V(), start, data); }
      if start in parts {
        SameOffset(parts, start, data);  // so the source's second comparison never fails
        if |parts[start]| >= |data| {
          Note(start, data);
          assert V() == Stored(Judged(wire, old(V()), start, data), start, data);
          return None;
        }
        pendingSize := pendingSize - |parts[start]|;
      } else if |parts| >= MAX_CRYPTO_PARTS {
        return Some(FragmentLimit);
      }
      if pendingSize + |data| > MAX_CRYPTO_BYTES {
        return Some(BufferLimit);
      }
      parts, pendingSize := parts[start := data], pendingSize + |data|;
      Note(start, data);
      assert V() == Stored(Judged(wire, old(V()), start, data), start, data);
      return None;
    }

    ghost method Note(start: nat, data: seq<byte>)
      modifies this`seen, this`fits
      ensures seen == old(seen) + {Segment(start, |data|)} && fits == (old(fits) && OnWire(wire, start, data))
    {
      seen, fits := seen + {Segment(start, |data|)}, fits && OnWire(wire, start, data);
    }

    /** Whether a frame agrees with every part on what they share. */
    method Agrees(start: nat, data: seq<byte>) returns (ok: bool)
      ensures ok <==> Accepts(parts, start, data)
    {
      var todo := parts.Keys;
      while todo != {}
        invariant todo <= parts.Keys
        invariant forall k :: k in parts && k !in todo ==> Agree(start, data, k, parts[k])
        decreases |todo|
      {
        ghost var some := Member(todo);
        var k :| k in todo;
        todo := todo - {k};
        var part := parts[k];
        var from := if start > k then start else k;
        var to := if start + |data| < k + |part| then start + |data| else k + |part|;
        SharedAgree(start, data, k, part, from, to);
        if from < to && data[from - start..to - start] != part[from - k..to - k] {
          return false;
        }
      }
      return true;
    }

    /** Ends the tracking for a reason and drops what is held. */
    method Fail(why: Error)
      modifies this`crypto, this`parts, this`pendingSize, this`done, this`failure
      ensures done && failure == if old(done) then old(failure) else Some(why)
    {
      if done {
        return;
      }
      done, failure := true, Some(why);
      crypto, parts, pendingSize := [], map[], 0;
    }

    /** The plaintext of one authenticated Initial packet: its CRYPTO data in order, up
        to the first frame that cannot be read; `held` is the prefix after it. A complete
        ClientHello ends the tracking; so does the first error. */
    method Packet(plain: seq<byte>) returns (hello: Option<seq<byte>>, error: Option<Error>, ghost held: seq<byte>)
      requires Valid() && !done
      modifies this
      ensures Valid()
      ensures done <==> hello.Some? || error.Some?
      ensures failure == error
      ensures var frames := QuicFrames.ReadFrames(plain);
              && (old(fits) && (forall f :: f in frames.crypto ==> OnWire(wire, f.0, f.1)) ==> error != Some(Conflict))
              && (error.None? ==>
                    && frames.error.None?
                    && fits == (old(fits) && forall f :: f in frames.crypto ==> OnWire(wire, f.0, f.1)))
              && (frames.error.Some? ==> error.Some?)
              && (error.None? ==> seen == old(seen) + Noted(frames.crypto))
      ensures error.None? ==>
                old(crypto) <= held && ClientHello(held) == if hello.Some? then Hello(hello.value) else Incomplete
      ensures !done ==> crypto == held
      ensures hello.Some? && fits ==> hello.value <= wire && ClientHello(wire[..|hello.value|]) == Hello(hello.value)
    {
      var found := QuicFrames.Frames(plain);
      hello := None;
      error := AddAll(found.crypto);
      held := crypto;
      if error.Some? { return; }
      if found.error.Some? {
        error := Some(Unreadable(found.error.value));
        Fail(error.value);
        return;
      }
      match ClientHello(crypto) {
        case Incomplete =>
        case Invalid(why) =>
          error := Some(why);
          Fail(why);
        case Hello(message) =>
          HelloOnWire(wire, V());
          hello, done := Some(message), true;
          crypto, parts, pendingSize := [], map[], 0;
      }
    }

    method AddAll(frames: seq<(nat, seq<byte>)>) returns (error: Option<Error>)
      requires Valid() && !done
      modifies this
      ensures Valid() && failure == error && (done <==> error.Some?)
      ensures error.None? ==> seen == old(seen) + Noted(frames) && old(crypto) <= crypto
      ensures error.None? ==> fits == (old(fits) && forall f :: f in frames ==> OnWire(wire, f.0, f.1))
      ensures old(fits) && (forall f :: f in frames ==> OnWire(wire, f.0, f.1)) ==> error != Some(Conflict)
    {
      for i := 0 to |frames|
        invariant Valid() && !done && failure == None
        invariant fits == (old(fits) && forall f :: f in frames[..i] ==> OnWire(wire, f.0, f.1))
        invariant seen == old(seen) + Noted(frames[..i]) && old(crypto) <= crypto
      {
        assert frames[..i + 1] == frames[..i] + [frames[i]];
        error := AddCrypto(frames[i].0, frames[i].1);
        if error.Some? {
          assert frames[i] in frames && forall f :: f in frames[..i] ==> f in frames;
          Fail(error.value);
          return;
        }
      }
      assert frames[..|frames|] == frames;
      error := None;
    }
  }
}
