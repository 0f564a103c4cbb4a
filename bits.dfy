/**
 * The engine's 64-bit boards (`uint64_t`) as `bv64`: bit s stands for
 * square s, counted row-major from the top-left corner (rank = s / 8,
 * file = s % 8). Membership of a square is stated once, by `Has`, and
 * every fact about `^`, `|`, `&` and `1ULL << s` that the model needs is
 * proved here square by square.
 *
 * Proof style: each fact about bits is proved as single implications in
 * lemmas of their own and then joined into an equation; the updates
 * `b ^= 1ULL << s` and `b |= 1ULL << s` are the named functions `Toggle`
 * and `Join`. Both keep the solver's bit-level reasoning small.
 */
module Bits {

  /** A square index as the 6-bit shift amount of `1ULL << s`. */
  function ToBv(s: int): bv6
    requires 0 <= s < 64
    decreases s
  {
    if s == 0 then 0 else ToBv(s - 1) + 1
  }

  /** `ToBv` is the 6-bit value of its argument. */
  lemma {:induction false} ToBvValue(s: int)
    requires 0 <= s < 64
    ensures ToBv(s) as int == s
    decreases s
  {
    if s > 0 {
      ToBvValue(s - 1);
    }
  }

  lemma ToBvInjective(s: int, t: int)
    requires 0 <= s < 64 && 0 <= t < 64
    ensures ToBv(s) == ToBv(t) <==> s == t
  {
    ToBvValue(s);
    ToBvValue(t);
  }

  /** `1ULL << s`. */
  function Bit(s: int): bv64
    requires 0 <= s < 64
  {
    1 << ToBv(s)
  }

  /** Square `s` is on the board `b`: `(b & (1ULL << s)) > 0`. */
  predicate Has(b: bv64, s: int)
  {
    0 <= s < 64 && b & Bit(s) != 0
  }

  /** `b ^ (1ULL << s)`. */
  function Toggle(b: bv64, s: int): bv64
    requires 0 <= s < 64
  {
    b ^ Bit(s)
  }

  /** `b | (1ULL << s)`. */
  function Join(b: bv64, s: int): bv64
    requires 0 <= s < 64
  {
    b | Bit(s)
  }

  /** Square s joined to `b` when `on`: one step of a board being read. */
  function Mark(b: bv64, s: int, on: bool): bv64
    requires 0 <= s < 64
  {
    if on then Join(b, s) else b
  }

  lemma HasMark(a: bv64, s: int, on: bool, t: int)
    requires 0 <= s < 64
    ensures Has(Mark(a, s, on), t) == (Has(a, t) || (on && s == t))
  {
    if on {
      HasJoin(a, s, t);
    }
  }

  /** `b` holds exactly the cells that are not -1. */
  ghost predicate Occupancy(b: bv64, cells: seq<int>) {
    forall k :: Has(b, k) <==> 0 <= k < |cells| && cells[k] != -1
  }

  /** The board of the occupied cells grows by one cell. */
  lemma MarkCells(b: bv64, cells: seq<int>, v: int)
    requires |cells| < 64 && Occupancy(b, cells)
    ensures Occupancy(Mark(b, |cells|, v != -1), cells + [v])
  {
    var grown, on := cells + [v], v != -1;
    forall k ensures Has(Mark(b, |cells|, on), k) <==> 0 <= k < |grown| && grown[k] != -1 {
      HasMark(b, |cells|, on, k);
      if 0 <= k < |cells| {
        assert grown[k] == cells[k];
      }
    }
  }

  /** `a | b`, as a named function so that updates compare by name. */
  function Union(a: bv64, b: bv64): bv64 {
    a | b
  }

  /** `a ^ b`. */
  function Flip(a: bv64, b: bv64): bv64 {
    a ^ b
  }

  /** The empty board has no square. */
  lemma HasZero(t: int)
    ensures !Has(0, t)
  {
  }

  /** `1ULL << s` holds square s and nothing else. */
  lemma HasBit(s: int, t: int)
    requires 0 <= s < 64
    ensures Has(Bit(s), t) == (s == t)
  {
    BitSelf(s);
    if 0 <= t < 64 && s != t {
      ToBvInjective(s, t);
      BitOther(s, t);
    }
  }

  lemma BitSelf(s: int)
    requires 0 <= s < 64
    ensures Has(Bit(s), s)
  {
  }

  lemma BitOther(s: int, t: int)
    requires 0 <= s < 64 && 0 <= t < 64 && ToBv(s) != ToBv(t)
    ensures !Has(Bit(s), t)
  {
  }

  /** Toggling square s flips s and keeps every other square. */
  lemma HasToggle(a: bv64, s: int, t: int)
    requires 0 <= s < 64
    ensures Has(Toggle(a, s), t) == (Has(a, t) != (s == t))
  {
    ToggleSame(a, s);
    ToggleSameSet(a, s);
    if s != t && 0 <= t < 64 {
      ToBvInjective(s, t);
      ToggleOtherIn(a, s, t);
      ToggleOtherOut(a, s, t);
    }
  }

  lemma ToggleSame(a: bv64, s: int)
    requires 0 <= s < 64
    ensures !Has(a, s) ==> Has(Toggle(a, s), s)
  {
  }

  lemma ToggleSameSet(a: bv64, s: int)
    requires 0 <= s < 64
    ensures Has(a, s) ==> !Has(Toggle(a, s), s)
  {
  }

  lemma ToggleOtherIn(a: bv64, s: int, t: int)
    requires 0 <= s < 64 && 0 <= t < 64 && ToBv(s) != ToBv(t)
    ensures Has(Toggle(a, s), t) ==> Has(a, t)
  {
  }

  lemma ToggleOtherOut(a: bv64, s: int, t: int)
    requires 0 <= s < 64 && 0 <= t < 64 && ToBv(s) != ToBv(t)
    ensures Has(a, t) ==> Has(Toggle(a, s), t)
  {
  }

  /** Joining square s adds s and keeps every other square. */
  lemma HasJoin(a: bv64, s: int, t: int)
    requires 0 <= s < 64
    ensures Has(Join(a, s), t) == (Has(a, t) || s == t)
  {
    JoinSame(a, s);
    JoinKeeps(a, s, t);
    if s != t && 0 <= t < 64 {
      ToBvInjective(s, t);
      JoinOtherIn(a, s, t);
    }
  }

  lemma JoinSame(a: bv64, s: int)
    requires 0 <= s < 64
    ensures Has(Join(a, s), s)
  {
  }

  lemma JoinKeeps(a: bv64, s: int, t: int)
    requires 0 <= s < 64
    ensures Has(a, t) ==> Has(Join(a, s), t)
  {
  }

  lemma JoinOtherIn(a: bv64, s: int, t: int)
    requires 0 <= s < 64 && 0 <= t < 64 && ToBv(s) != ToBv(t)
    ensures Has(Join(a, s), t) ==> Has(a, t)
  {
  }

  /** `a ^ b` holds a square iff exactly one of a, b does. */
  lemma HasXor(a: bv64, b: bv64, t: int)
    ensures Has(Flip(a, b), t) == (Has(a, t) != Has(b, t))
  {
    if 0 <= t < 64 {
      if Has(a, t) {
        if Has(b, t) { XorBoth(a, b, t); } else { XorLeft(a, b, t); }
      } else {
        if Has(b, t) { XorLeft(b, a, t); XorSwap(a, b); } else { XorNeither(a, b, t); }
      }
    }
  }
  lemma XorSwap(a: bv64, b: bv64)
    ensures a ^ b == b ^ a
  {
  }
  lemma XorLeft(a: bv64, b: bv64, t: int)
    requires Has(a, t) && !Has(b, t)
    ensures Has(a ^ b, t)
  {
  }
  lemma XorBoth(a: bv64, b: bv64, t: int)
    requires Has(a, t) && Has(b, t)
    ensures !Has(a ^ b, t)
  {
  }
  lemma XorNeither(a: bv64, b: bv64, t: int)
    requires 0 <= t < 64 && !Has(a, t) && !Has(b, t)
    ensures !Has(a ^ b, t)
  {
  }
  /** `a | b` holds the squares of both. */
  lemma HasOr(a: bv64, b: bv64, t: int)
    ensures Has(Union(a, b), t) == (Has(a, t) || Has(b, t))
  {
    if 0 <= t < 64 {
      OrIn(a, b, t);
      OrOut(a, b, t);
    }
  }
  lemma OrIn(a: bv64, b: bv64, t: int)
    requires 0 <= t < 64
    ensures Has(a | b, t) ==> (Has(a, t) || Has(b, t))
  {
  }
  lemma OrOut(a: bv64, b: bv64, t: int)
    requires 0 <= t < 64
    ensures (Has(a, t) || Has(b, t)) ==> Has(a | b, t)
  {
  }

  /** A board with no square is 0. */
  /** Two boards holding the same squares are the same board. */
  lemma SameSquares(a: bv64, b: bv64)
    requires forall s :: 0 <= s < 64 ==> (Has(a, s) <==> Has(b, s))
    ensures a == b
  {
    forall s | 0 <= s < 64 ensures !Has(Flip(a, b), s) {
      HasXor(a, b, s);
    }
    NoSquares(Flip(a, b));
  }

  lemma NoSquares(b: bv64)
    requires forall s :: 0 <= s < 64 ==> !Has(b, s)
    ensures b == 0
  {
    SomeSquare(b);
  }

  /** A non-zero board holds its lowest set bit as a square. */
  lemma SomeSquare(b: bv64)
    ensures b != 0 ==> Has(b, Lowest(b) as int)
  {
    var k := Lowest(b);
    ToBvOf(k);
    LowestSet(b);
  }

  /** Every 6-bit shift amount is the image of a square. */
  lemma ToBvOf(k: bv6)
    ensures 0 <= k as int < 64 && ToBv(k as int) == k
  {
    ToBvValue(k as int);
  }

  /** The lowest set bit of a non-empty board, found by halving. */
  function Lowest(b: bv64): bv6
  {
    var k5: bv6 := if b & 0xFFFF_FFFF == 0 then 32 else 0;
    var b5 := b >> k5;
    var k4: bv6 := if b5 & 0xFFFF == 0 then 16 else 0;
    var b4 := b5 >> k4;
    var k3: bv6 := if b4 & 0xFF == 0 then 8 else 0;
    var b3 := b4 >> k3;
    var k2: bv6 := if b3 & 0xF == 0 then 4 else 0;
    var b2 := b3 >> k2;
    var k1: bv6 := if b2 & 0x3 == 0 then 2 else 0;
    var b1 := b2 >> k1;
    var k0: bv6 := if b1 & 0x1 == 0 then 1 else 0;
    k5 + k4 + k3 + k2 + k1 + k0
  }

  lemma LowestSet(b: bv64)
    ensures b != 0 ==> b & (1 << Lowest(b)) != 0
  {
  }
}
