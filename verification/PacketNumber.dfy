/** QUIC packet number recovery (section 17.1 and Appendix A.3 of RFC 9000). */
module PacketNumber {
  import opened Prelude

  const MAX_PACKET_NUMBER := 0x4000_0000_0000_0000  // 2^62
  const WORD64 := 0x1_0000_0000_0000_0000

  /** uint64(1) << (length * 8) */
  function Window(length: nat): nat
    requires 1 <= length <= 4
  {
    match length
    case 1 => 0x100
    case 2 => 0x1_0000
    case 3 => 0x100_0000
    case 4 => 0x1_0000_0000
  }

  /** expected &^ (window - 1) | truncated: for a power of two and truncated < window
      the low bits are cleared and replaced. */
  function Candidate(expected: nat, window: nat, truncated: nat): nat
    requires 0 < window
  {
    expected - expected % window + truncated
  }

  // The source's mask and or are Candidate's arithmetic, on 64-bit words: the mask
  // keeps expected - expected % window, and the low bits are then added.

  lemma CandidateBits1(expected: bv64, truncated: bv64)
    ensures (expected & !0xff) + expected % 0x100 == expected
    ensures truncated < 0x100 ==> (expected & !0xff) | truncated == (expected & !0xff) + truncated
  {
  }

  lemma CandidateBits2(expected: bv64, truncated: bv64)
    ensures (expected & !0xffff) + expected % 0x1_0000 == expected
    ensures truncated < 0x1_0000 ==> (expected & !0xffff) | truncated == (expected & !0xffff) + truncated
  {
  }

  lemma CandidateBits3(expected: bv64, truncated: bv64)
    ensures (expected & !0xff_ffff) + expected % 0x100_0000 == expected
    ensures truncated < 0x100_0000 ==> (expected & !0xff_ffff) | truncated == (expected & !0xff_ffff) + truncated
  {
  }

  lemma CandidateBits4(expected: bv64, truncated: bv64)
    ensures (expected & !0xffff_ffff) + expected % 0x1_0000_0000 == expected
    ensures truncated < 0x1_0000_0000 ==> (expected & !0xffff_ffff) | truncated == (expected & !0xffff_ffff) + truncated
  {
  }

  function Recover(largest: Option<nat>, truncated: nat, length: nat): nat
    requires 1 <= length <= 4 && truncated < Window(length)
  {
    match largest
    case None => truncated
    case Some(pn) =>
      var window, expected := Window(length), pn + 1;
      var candidate := Candidate(expected, window, truncated);
      if candidate + window / 2 <= expected && candidate + window < MAX_PACKET_NUMBER then candidate + window
      else if candidate > expected + window / 2 && candidate >= window then candidate - window
      else candidate
  }

  /** No sum the source forms leaves 64 bits while packet numbers stay in range. */
  lemma NoOverflow(pn: nat, truncated: nat, length: nat)
    requires 1 <= length <= 4 && truncated < Window(length) && pn < 0x4000_0000_0000_0000
    ensures var window, expected := Window(length), pn + 1;
            Candidate(expected, window, truncated) + window < WORD64 && expected + window / 2 < WORD64
  {
  }

  lemma MulMonotone(a: int, b: int, w: nat)
    requires a >= b
    ensures a * w >= b * w
  {
  }

  /** Which of the three congruent numbers is nearest to the expected one. */
  lemma Nearest(expected: nat, window: nat, truncated: nat, pn: nat, q: int, p: int)
    requires window > 0 && window % 2 == 0 && truncated < window
    requires q * window <= expected < q * window + window && pn == p * window + truncated
    requires expected - window / 2 < pn <= expected + window / 2
    ensures -1 <= p - q <= 1
  {
    if p - q >= 2 { MulMonotone(p, q + 2, window); }
    if p - q <= -2 { MulMonotone(q, p + 2, window); }
  }

  lemma Division(x: nat, w: nat)
    requires w > 0
    ensures x == x / w * w + x % w && x % w < w
  {
  }

  /** The candidate is off by as many windows as the two numbers are apart. */
  lemma CandidateOff(expected: nat, window: nat, pn: nat)
    requires window > 0
    ensures pn == Candidate(expected, window, pn % window) + (pn / window - expected / window) * window
  {
    Division(expected, window);
    Division(pn, window);
    var p, q := pn / window, expected / window;
    assert (p - q) * window == p * window - q * window;
  }

  lemma NearestWindow(expected: nat, window: nat, pn: nat)
    requires window > 0 && window % 2 == 0 && expected - window / 2 < pn <= expected + window / 2
    ensures -1 <= pn / window - expected / window <= 1
  {
    Division(expected, window);
    Division(pn, window);
    Nearest(expected, window, pn % window, pn, expected / window, pn / window);
  }

  /** A packet number within half a window of the expected one is recovered exactly
      from its low bytes, whatever was received before. */
  lemma RecoversExactly(largest: nat, length: nat, pn: nat)
    requires 1 <= length <= 4 && pn < 0x4000_0000_0000_0000
    requires largest + 1 - Window(length) / 2 < pn <= largest + 1 + Window(length) / 2
    ensures Recover(Some(largest), pn % Window(length), length) == pn
  {
    var expected, window := largest + 1, Window(length);
    NearestWindow(expected, window, pn);
    CandidateOff(expected, window, pn);
    var off := pn / window - expected / window;
    var candidate := Candidate(expected, window, pn % window);
    Division(expected, window);
    assert off == 1 ==> pn == candidate + window;
    assert off == 0 ==> pn == candidate;
    assert off == -1 ==> pn == candidate - window;
  }

  /** The first packet of a connection carries its number in full. */
  lemma FirstIsTruncated(pn: nat, length: nat)
    requires 1 <= length <= 4 && pn < Window(length)
    ensures Recover(None, pn % Window(length), length) == pn
  {
  }
}
