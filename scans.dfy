/**
 * The engine's two bit counters and its ray scan (`Enginegton::RayIndex`
 * and both `Enginegton::BitCount`). They read no engine state besides the
 * constant table `origin_masks`, whose entry o is `1ULL << o` (`Bit(o)`).
 */
module Scans {
  import opened Bits

  /** The squares set on a board. */
  ghost function Squares(b: bv64): set<int> {
    set s | 0 <= s < 64 && Has(b, s)
  }

  /** The number of entries of `indices` whose square is set on `bits`. */
  function CountIn(bits: bv64, indices: seq<int>): (n: nat)
    ensures n <= |indices|
    decreases |indices|
  {
    if indices == [] then 0
    else CountIn(bits, indices[..|indices| - 1]) + (if Has(bits, indices[|indices| - 1]) then 1 else 0)
  }

  /** The listed squares that are set. */
  ghost function SetAmong(bits: bv64, indices: seq<int>): set<int> {
    set x | x in indices && Has(bits, x)
  }

  /** Over a list of distinct squares, `CountIn` is the number of listed
      squares that are set. */
  lemma {:induction false} CountInDistinct(bits: bv64, indices: seq<int>)
    requires forall i, j :: 0 <= i < j < |indices| ==> indices[i] != indices[j]
    ensures CountIn(bits, indices) == |SetAmong(bits, indices)|
    decreases |indices|
  {
    if indices == [] {
      assert SetAmong(bits, indices) == {};
    } else {
      var front, last := indices[..|indices| - 1], indices[|indices| - 1];
      CountInDistinct(bits, front);
      assert indices == front + [last];
      assert last !in front by {
        forall i | 0 <= i < |front| ensures front[i] != last {
          assert front[i] == indices[i];
        }
      }
      if Has(bits, last) {
        assert SetAmong(bits, indices) == SetAmong(bits, front) + {last};
      } else {
        assert SetAmong(bits, indices) == SetAmong(bits, front);
      }
    }
  }

  /** `BitCount(bits, indices)`: the listed squares that are set. */
  method BitCountAt(bits: bv64, indices: seq<int>) returns (count: int)
    ensures count == CountIn(bits, indices)
  {
    count := 0;
    var i := 0;
    while i < |indices|
      invariant 0 <= i <= |indices|
      invariant count == CountIn(bits, indices[..i])
    {
      assert indices[..i + 1][..i] == indices[..i];
      if Has(bits, indices[i]) {
        count := count + 1;
      }
      i := i + 1;
    }
    assert indices[..|indices|] == indices;
  }

  /** Toggling a set square takes it out of the board's squares. */
  lemma SquaresToggle(b: bv64, s: int)
    requires 0 <= s < 64 && Has(b, s)
    ensures Squares(Toggle(b, s)) == Squares(b) - {s}
  {
    forall t ensures t in Squares(Toggle(b, s)) <==> t in Squares(b) - {s} {
      HasToggle(b, s, t);
    }
  }

  /** A board with a set square is not 0. */
  lemma NonZero(b: bv64, s: int)
    requires Has(b, s)
    ensures b != 0
  {
    HasZero(s);
  }

  /** A board whose squares all lie below 0 is empty. */
  lemma NoneBelow(b: bv64)
    requires forall s :: Has(b, s) ==> s < 0
    ensures b == 0
  {
    NoSquares(b);
  }

  /** `BitCount(bits, from)`: walks down from square `from`, clearing each
      set square it meets, until the board is empty. The walk never leaves
      the board when no set square lies above `from`. */
  method BitCountFrom(bits: bv64, from: int) returns (count: int)
    requires from < 64 && forall s :: Has(bits, s) ==> s <= from
    ensures count == |Squares(bits)|
  {
    count := 0;
    var b, f := bits, from;
    if bits != 0 {
      SomeSquare(bits);
    }
    while b != 0
      invariant f < 64 && forall s :: Has(b, s) ==> s <= f
      invariant count + |Squares(b)| == |Squares(bits)|
      invariant b != 0 ==> f >= 0
      decreases f + 1
    {
      var next := b;
      if Has(b, f) {
        SquaresToggle(b, f);
        next := Toggle(b, f);
        count := count + 1;
      }
      forall s | Has(next, s) ensures s <= f - 1 {
        if Has(b, f) {
          HasToggle(b, f, s);
        }
      }
      b := next;
      if b != 0 && f - 1 < 0 {
        NoneBelow(b);
      }
      f := f - 1;
    }
    assert Squares(b) == {} by {
      forall s | s in Squares(b) ensures false {
        NonZero(b, s);
      }
    }
  }

  /** `RayIndex(mask, start)`: the first set square from `start` upward.
      The source loops past square 63 when there is none, so one must be
      there. */
  method RayIndex(mask: bv64, start: int) returns (sqr: int)
    requires 0 <= start < 64 && exists t :: start <= t < 64 && Has(mask, t)
    ensures start <= sqr < 64 && Has(mask, sqr)
    ensures forall t :: start <= t < sqr ==> !Has(mask, t)
  {
    sqr := start;
    while !Has(mask, sqr)
      invariant start <= sqr < 64
      invariant forall t :: start <= t < sqr ==> !Has(mask, t)
      invariant exists t :: sqr <= t < 64 && Has(mask, t)
      decreases 64 - sqr
    {
      sqr := sqr + 1;
    }
  }
}
