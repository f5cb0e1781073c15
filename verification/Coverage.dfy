/** Stretches of a byte stream, what they cover, and the longest prefix of it. */
module Coverage {
  import opened Prelude

  function Length(part: seq<byte>): nat { |part| }

  /** A stretch of the stream: the offset of its first byte and its length. */
  datatype Segment = Segment(offset: int, length: nat)

  /** `bytes` is the stretch of the wire that starts at `offset`. */
  ghost predicate OnWire(wire: seq<byte>, offset: nat, bytes: seq<byte>) {
    offset + |bytes| <= |wire| && bytes == wire[offset..offset + |bytes|]
  }

  ghost predicate Covers(g: Segment, i: int) { g.offset <= i < g.offset + g.length }

  ghost predicate Covered(seen: set<Segment>, i: int) { exists g :: g in seen && Covers(g, i) }

  /** The offsets that the segments cover. */
  ghost function Union(seen: set<Segment>): iset<int> { iset i: int | Covered(seen, i) }

  ghost function Below(read: nat): iset<int> { iset i: int | Covers(Segment(0, read), i) }

  /** `read` is the length of the longest prefix that the segments cover. */
  ghost predicate LongestPrefix(seen: set<Segment>, read: nat) {
    Below(read) <= Union(seen) && read !in Union(seen)
  }

  lemma UnionGrows(seen: set<Segment>, g: Segment)
    ensures Union(seen) <= Union(seen + {g})
  {
    forall i | i in Union(seen) ensures i in Union(seen + {g}) {
      var h :| h in seen && Covers(h, i);
      assert h in seen + {g};
    }
  }

  /** Coverage determines the longest prefix. */
  lemma LongestPrefixUnique(s: set<Segment>, t: set<Segment>, m: nat, n: nat)
    requires Union(s) == Union(t)
    requires LongestPrefix(s, m) && LongestPrefix(t, n)
    ensures m == n
  {
    assert m < n ==> m in Below(n);
    assert n < m ==> n in Below(m);
  }
}
