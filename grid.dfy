/**
 * The 8x8 board of signed piece codes that Chessington keeps as a list of
 * ranks, and the 180-degree turn `Board.flip` performs when the display
 * orientation changes.
 */
module Grid {

  /** Eight ranks of eight squares. */
  predicate IsBoard(b: seq<seq<int>>) {
    |b| == 8 && forall r :: 0 <= r < 8 ==> |b[r]| == 8
  }

  /** `list.reverse()` on a rank, and `s[::-1]` on a string. */
  function Reverse<T>(s: seq<T>): (t: seq<T>)
    ensures |t| == |s| && forall i :: 0 <= i < |s| ==> t[i] == s[|s| - 1 - i]
  {
    seq(|s|, i requires 0 <= i < |s| => s[|s| - 1 - i])
  }

  /** `flip`: every rank reversed, then the order of the ranks reversed. */
  function Rotated(b: seq<seq<int>>): (t: seq<seq<int>>)
    ensures |t| == |b|
    ensures forall r :: 0 <= r < |b| ==> t[r] == Reverse(b[|b| - 1 - r])
  {
    seq(|b|, r requires 0 <= r < |b| => Reverse(b[|b| - 1 - r]))
  }

  /** On a board, square (r, f) after the turn holds what (7 - r, 7 - f) held. */
  lemma RotatedSquares(b: seq<seq<int>>)
    requires IsBoard(b)
    ensures IsBoard(Rotated(b))
    ensures forall r, f :: 0 <= r < 8 && 0 <= f < 8 ==> Rotated(b)[r][f] == b[7 - r][7 - f]
  {
  }

  lemma ReverseInvolution<T>(s: seq<T>)
    ensures Reverse(Reverse(s)) == s
  {
    assert forall i :: 0 <= i < |s| ==> Reverse(Reverse(s))[i] == s[i];
  }

  /** Turning the board twice gives it back. */
  lemma RotatedInvolution(b: seq<seq<int>>)
    ensures Rotated(Rotated(b)) == b
  {
    forall r | 0 <= r < |b| ensures Rotated(Rotated(b))[r] == b[r] {
      ReverseInvolution(b[r]);
    }
  }
}
