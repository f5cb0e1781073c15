/** TCP sequence numbers: 32-bit unsigned values compared through int32
    differences, as section 3.4 of RFC 9293 prescribes. A position is the
    unbounded integer a sequence number stands for. The functions take any
    integers, as residues; `%` is avoided because the verifier handles the
    subtraction far better, and WrapIsMod and DiffIsMod tell the two apart. */
module Sequence32 {

  const WORD := 0x1_0000_0000
  const HALF := 0x8000_0000

  type uint32 = x: int | 0 <= x < WORD

  /** uint32(x) */
  function Wrap(x: int): int
    decreases if x < 0 then WORD - x else x
  {
    if x < 0 then Wrap(x + WORD) else if x >= WORD then Wrap(x - WORD) else x
  }

  /** int32(a - b) */
  function Diff(a: int, b: int): (d: int)
    ensures -HALF <= d < HALF
    decreases if a < b then 2 * (b - a) else 2 * (a - b) + 1
  {
    if a - b >= HALF then Diff(a - WORD, b) else if a - b < -HALF then Diff(a + WORD, b) else a - b
  }

  /** int(-d) for an int32 d: negating the least int32 wraps to itself. */
  function Negated(d: int): int { if d == -HALF then -HALF else -d }

  lemma {:induction false} WrapIsMod(x: int)
    ensures Wrap(x) == x % WORD
    decreases if x < 0 then WORD - x else x
  {
    if x < 0 { WrapIsMod(x + WORD); } else if x >= WORD { WrapIsMod(x - WORD); }
  }

  lemma {:induction false} DiffIsMod(a: int, b: int)
    ensures (Diff(a, b) - (a - b)) % WORD == 0
    decreases if a < b then 2 * (b - a) else 2 * (a - b) + 1
  {
    if a - b >= HALF { DiffIsMod(a - WORD, b); } else if a - b < -HALF { DiffIsMod(a + WORD, b); }
  }

  /** Within half the space, the wrapped comparison sees the true distance. */
  lemma DiffExact(x: int, y: int)
    requires -HALF <= x - y < HALF
    ensures Diff(Wrap(x), Wrap(y)) == x - y
  {
    WrapIsMod(x);
    WrapIsMod(y);
    DiffIsMod(Wrap(x), Wrap(y));
  }

  /** The wrapped comparison sees the distance but for whole turns. */
  lemma DiffTurns(x: int, y: int) returns (turns: int)
    ensures x - y == Diff(Wrap(x), Wrap(y)) + turns * WORD
  {
    WrapIsMod(x);
    WrapIsMod(y);
    DiffIsMod(Wrap(x), Wrap(y));
    turns := (Wrap(x) - Wrap(y) - Diff(Wrap(x), Wrap(y))) / WORD + x / WORD - y / WORD;
  }

  lemma ModOf(x: int, turns: int, r: int)
    requires 0 <= r < WORD && x == r + turns * WORD
    ensures x % WORD == r
  {
  }

  /** Advancing the reference point by n moves every difference down by n,
      until it would pass the bottom of the int32 range. */
  lemma DiffShift(a: int, b: int, n: nat)
    requires Diff(a, b) - n >= -HALF
    ensures Diff(a, Wrap(b + n)) == Diff(a, b) - n
  {
    WrapIsMod(b + n);
    DiffIsMod(a, b);
    DiffIsMod(a, Wrap(b + n));
  }

  lemma WrapSum(x: int, y: int)
    ensures Wrap(Wrap(x) + y) == Wrap(x + y)
  {
    WrapIsMod(x);
    WrapIsMod(Wrap(x) + y);
    WrapIsMod(x + y);
  }
}
