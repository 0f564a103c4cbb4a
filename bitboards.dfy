/**
 * The pure bitboard generators of Enginegton's `Move.cpp`: control and push
 * masks for pawns, kings and knights, free and blocked sliding rays for
 * rooks and bishops, the sliding-piece index masks, `GetIndices` and
 * `GetDistance`. Square s = 8 * y + x has rank y = s / 8 and file
 * x = s % 8; the player's pawns move towards rank 0.
 */
module Bitboards {
  import opened Bits

  function Rank(s: int): int { s / 8 }
  function File(s: int): int { s % 8 }

  /** The square on rank `r` and file `f` (`y * 8 + x` in the source). */
  function Sq(r: int, f: int): int { r * 8 + f }

  predicate OnSquare(y: int, x: int)
  {
    0 <= y < 8 && 0 <= x < 8
  }

  lemma SquareCoords(r: int, f: int)
    requires OnSquare(r, f)
    ensures 0 <= Sq(r, f) < 64 && Rank(Sq(r, f)) == r && File(Sq(r, f)) == f
  {
  }

  lemma CoordsSquare(t: int)
    requires 0 <= t < 64
    ensures OnSquare(Rank(t), File(t)) && Sq(Rank(t), File(t)) == t
  {
  }

  predicate OnBoard(l: seq<int>)
  {
    forall i :: 0 <= i < |l| ==> 0 <= l[i] < 64
  }

  predicate Distinct<T(==)>(l: seq<T>)
  {
    forall i, j :: 0 <= i < j < |l| ==> l[i] != l[j]
  }

  /** `mask ^= (1ULL << s)` for each square s of `l`, in order, from 0. */
  function FromSquares(l: seq<int>): bv64
    requires OnBoard(l)
  {
    if l == [] then 0 else Toggle(FromSquares(l[..|l| - 1]), l[|l| - 1])
  }

  /** Toggling distinct squares into an empty board sets exactly those squares. */
  lemma {:induction false} FromSquaresHas(l: seq<int>, t: int)
    requires OnBoard(l) && Distinct(l)
    ensures Has(FromSquares(l), t) == (t in l)
  {
    if l == [] {
      HasZero(t);
    } else {
      var p, s := l[..|l| - 1], l[|l| - 1];
      SplitLast(l, t);
      FromSquaresHas(p, t);
      HasToggle(FromSquares(p), s, t);
    }
  }

  lemma SplitLast(l: seq<int>, t: int)
    requires OnBoard(l) && Distinct(l) && l != []
    ensures OnBoard(l[..|l| - 1]) && Distinct(l[..|l| - 1])
    ensures (t in l) == (t in l[..|l| - 1] || t == l[|l| - 1])
    ensures l[|l| - 1] !in l[..|l| - 1]
  {
    var p, s := l[..|l| - 1], l[|l| - 1];
    assert l == p + [s];
    forall i | 0 <= i < |p| ensures p[i] != s {
      assert l[i] == p[i];
    }
  }

  // ---------------------------------------------------------------------
  // Fixed-offset generators: pawn, king and knight
  // ---------------------------------------------------------------------

  /** The squares `origin + 8 * dr + df` for each step (dr, df) of `ds`, in
      order, each kept only when its rank and file stay on the board. */
  function Jumps(y: int, x: int, ds: seq<(int, int)>): seq<int>
  {
    if ds == [] then []
    else
      (if OnSquare(y + ds[0].0, x + ds[0].1) then [Sq(y + ds[0].0, x + ds[0].1)] else [])
      + Jumps(y, x, ds[1..])
  }

  /** A jump target is a board square whose offset from the origin is one of the steps. */
  lemma {:induction false} JumpsHas(y: int, x: int, ds: seq<(int, int)>, t: int)
    requires OnSquare(y, x)
    ensures (t in Jumps(y, x, ds)) == (0 <= t < 64 && (Rank(t) - y, File(t) - x) in ds)
  {
    if ds != [] {
      var d, rest := ds[0], ds[1..];
      var dt := (Rank(t) - y, File(t) - x);
      JumpsHas(y, x, rest, t);
      JumpHead(y, x, d, t);
      assert ds == [d] + rest;
      assert (dt in ds) == (dt == d || dt in rest);
    }
  }

  /** The one-step case of `JumpsHas`. */
  lemma JumpHead(y: int, x: int, d: (int, int), t: int)
    requires OnSquare(y, x)
    ensures (t in (if OnSquare(y + d.0, x + d.1) then [Sq(y + d.0, x + d.1)] else []))
            == (0 <= t < 64 && (Rank(t) - y, File(t) - x) == d)
  {
    if OnSquare(y + d.0, x + d.1) {
      SquareCoords(y + d.0, x + d.1);
    }
    if 0 <= t < 64 {
      CoordsSquare(t);
    }
  }

  lemma {:induction false} JumpsOnBoard(y: int, x: int, ds: seq<(int, int)>)
    requires OnSquare(y, x) && Distinct(ds)
    ensures OnBoard(Jumps(y, x, ds)) && Distinct(Jumps(y, x, ds))
  {
    if ds != [] {
      var d := ds[0];
      assert Distinct(ds[1..]) by {
        forall i, j | 0 <= i < j < |ds[1..]| ensures ds[1..][i] != ds[1..][j] {
          assert ds[1..][i] == ds[i + 1] && ds[1..][j] == ds[j + 1];
        }
      }
      JumpsOnBoard(y, x, ds[1..]);
      if OnSquare(y + d.0, x + d.1) {
        var s := Sq(y + d.0, x + d.1);
        SquareCoords(y + d.0, x + d.1);
        JumpsHas(y, x, ds[1..], s);
        assert d !in ds[1..] by {
          forall i | 0 <= i < |ds[1..]| ensures ds[1..][i] != d {
            assert ds[1..][i] == ds[i + 1];
          }
        }
      }
    }
  }

  /** The board of the squares reached from (y, x) by the steps `ds`. */
  function JumpMask(y: int, x: int, ds: seq<(int, int)>): bv64
    requires OnSquare(y, x) && Distinct(ds)
  {
    JumpsOnBoard(y, x, ds);
    FromSquares(Jumps(y, x, ds))
  }

  /** A square is on the jump mask exactly when its offset is one of the steps. */
  lemma JumpMaskHas(y: int, x: int, ds: seq<(int, int)>, t: int)
    requires OnSquare(y, x) && Distinct(ds)
    ensures Has(JumpMask(y, x, ds), t) == (0 <= t < 64 && (Rank(t) - y, File(t) - x) in ds)
  {
    JumpsOnBoard(y, x, ds);
    FromSquaresHas(Jumps(y, x, ds), t);
    JumpsHas(y, x, ds, t);
  }

  function Abs(n: int): int { if n < 0 then -n else n }

  /** Control of a pawn of the side whose pawns move towards rank 0: the two
      squares diagonally one rank forward. The source shifts by a negative
      amount for y = 0 (undefined behaviour), so rank 0 is excluded; such a
      pawn would already have promoted. */
  function PlayerPawnControl(y: int, x: int): (control: bv64)
    requires 1 <= y < 8 && 0 <= x < 8
  {
    JumpMask(y, x, [(-1, 1), (-1, -1)])
  }

  /** Control of a pawn of the side moving towards rank 7 (y = 7 excluded
      likewise). */
  function OpponentPawnControl(y: int, x: int): (control: bv64)
    requires 0 <= y < 7 && 0 <= x < 8
  {
    JumpMask(y, x, [(1, -1), (1, 1)])
  }

  /** One of the two squares a pawn on (y, x) attacks, moving by `dir` ranks. */
  predicate PawnStrike(y: int, x: int, dir: int, t: int)
  {
    0 <= t < 64 && Rank(t) == y + dir && Abs(File(t) - x) == 1
  }

  lemma PlayerPawnControlSquares(y: int, x: int, t: int)
    requires 1 <= y < 8 && 0 <= x < 8
    ensures Has(PlayerPawnControl(y, x), t) == PawnStrike(y, x, -1, t)
  {
    JumpMaskHas(y, x, [(-1, 1), (-1, -1)], t);
  }

  lemma OpponentPawnControlSquares(y: int, x: int, t: int)
    requires 0 <= y < 7 && 0 <= x < 8
    ensures Has(OpponentPawnControl(y, x), t) == PawnStrike(y, x, 1, t)
  {
    JumpMaskHas(y, x, [(1, -1), (1, 1)], t);
  }

  /** The squares a pawn moving towards rank 0 may advance to: one rank,
      and two from its starting rank 6. */
  function PlayerPawnPush(y: int, x: int): (push: bv64)
    requires 1 <= y < 8 && 0 <= x < 8
  {
    var origin := Sq(y, x);
    FromSquares(if y == 6 then [origin - 8, origin - 16] else [origin - 8])
  }

  /** The same for the side moving towards rank 7, starting from rank 1. */
  function OpponentPawnPush(y: int, x: int): (push: bv64)
    requires 0 <= y < 7 && 0 <= x < 8
  {
    var origin := Sq(y, x);
    FromSquares(if y == 1 then [origin + 8, origin + 16] else [origin + 8])
  }

  lemma PlayerPawnPushSquares(y: int, x: int, t: int)
    requires 1 <= y < 8 && 0 <= x < 8
    ensures Has(PlayerPawnPush(y, x), t) == (t == Sq(y - 1, x) || (y == 6 && t == Sq(4, x)))
  {
    var origin := Sq(y, x);
    FromSquaresHas(if y == 6 then [origin - 8, origin - 16] else [origin - 8], t);
  }

  lemma OpponentPawnPushSquares(y: int, x: int, t: int)
    requires 0 <= y < 7 && 0 <= x < 8
    ensures Has(OpponentPawnPush(y, x), t) == (t == Sq(y + 1, x) || (y == 1 && t == Sq(3, x)))
  {
    var origin := Sq(y, x);
    FromSquaresHas(if y == 1 then [origin + 8, origin + 16] else [origin + 8], t);
  }

  /** `KingControl`'s eight steps, in the source's order. */
  const KingSteps: seq<(int, int)> :=
    [(0, 1), (0, -1), (-1, 0), (1, 0), (-1, -1), (1, 1), (1, -1), (-1, 1)]

  /** `KingArea`'s eight double steps, in the source's order. */
  const KingAreaSteps: seq<(int, int)> :=
    [(0, 2), (0, -2), (-2, 0), (2, 0), (-2, -2), (2, 2), (2, -2), (-2, 2)]

  /** `KnightControl`'s eight jumps, in the source's order. */
  const KnightJumps: seq<(int, int)> :=
    [(1, 2), (1, -2), (-1, 2), (-1, -2), (2, 1), (-2, 1), (2, -1), (-2, -1)]

  function KingControl(y: int, x: int): (control: bv64)
    requires OnSquare(y, x)
  {
    JumpMask(y, x, KingSteps)
  }

  function KingArea(y: int, x: int): (area: bv64)
    requires OnSquare(y, x)
  {
    JumpMask(y, x, KingAreaSteps)
  }

  function KnightControl(y: int, x: int): (control: bv64)
    requires OnSquare(y, x)
  {
    JumpMask(y, x, KnightJumps)
  }

  /** A different square at most one rank and one file away. */
  predicate KingStep(y: int, x: int, t: int)
  {
    0 <= t < 64 && t != Sq(y, x) && Abs(Rank(t) - y) <= 1 && Abs(File(t) - x) <= 1
  }

  /** A different square two ranks, two files, or both, away. */
  predicate KingAreaStep(y: int, x: int, t: int)
  {
    0 <= t < 64 && t != Sq(y, x)
    && (Rank(t) - y == 0 || Abs(Rank(t) - y) == 2)
    && (File(t) - x == 0 || Abs(File(t) - x) == 2)
  }

  /** One rank and two files away, or two ranks and one file. */
  predicate KnightStep(y: int, x: int, t: int)
  {
    0 <= t < 64
    && ((Abs(Rank(t) - y) == 1 && Abs(File(t) - x) == 2)
        || (Abs(Rank(t) - y) == 2 && Abs(File(t) - x) == 1))
  }

  /** King control is exactly the squares one king step away: never the
      origin, and never a square reached by wrapping round a board edge. */
  lemma KingControlSquares(y: int, x: int, t: int)
    requires OnSquare(y, x)
    ensures Has(KingControl(y, x), t) == KingStep(y, x, t)
  {
    JumpMaskHas(y, x, KingSteps, t);
    if 0 <= t < 64 {
      CoordsSquare(t);
    }
  }

  lemma KingAreaSquares(y: int, x: int, t: int)
    requires OnSquare(y, x)
    ensures Has(KingArea(y, x), t) == KingAreaStep(y, x, t)
  {
    JumpMaskHas(y, x, KingAreaSteps, t);
    if 0 <= t < 64 {
      CoordsSquare(t);
    }
  }

  lemma KnightControlSquares(y: int, x: int, t: int)
    requires OnSquare(y, x)
    ensures Has(KnightControl(y, x), t) == KnightStep(y, x, t)
  {
    JumpMaskHas(y, x, KnightJumps, t);
  }

  // ---------------------------------------------------------------------
  // Sliding rays: rook and bishop
  // ---------------------------------------------------------------------

  /** A ray direction: one step of -1, 0 or 1 on each axis, not both 0. */
  predicate Direction(dy: int, dx: int)
  {
    -1 <= dy <= 1 && -1 <= dx <= 1 && (dy != 0 || dx != 0)
  }

  /** Coordinate v moved m steps in direction d. */
  function Off(v: int, d: int, m: int): int
  {
    if d == 1 then v + m else if d == -1 then v - m else v
  }

  /** The `for` condition on one loop variable: `i >= lo` when it counts down,
      `i < hi` when it counts up, nothing when it stays put. */
  predicate Guard(v: int, d: int, lo: int, hi: int)
  {
    if d == -1 then lo <= v else if d == 1 then v < hi else true
  }

  /** How many steps one coordinate may take before its guard fails. */
  function Reach(v: int, d: int, lo: int, hi: int): int
  {
    if d == 1 then hi - 1 - v else if d == -1 then v - lo else 8
  }

  /** The number of squares a loop from (y, x) in direction (dy, dx) visits. */
  function RayLen(y: int, x: int, dy: int, dx: int, lo: int, hi: int): int
  {
    var r, f := Reach(y, dy, lo, hi), Reach(x, dx, lo, hi);
    var m := if r < f then r else f;
    if m < 0 then 0 else m
  }

  /** The square m steps along the ray. */
  function RaySq(y: int, x: int, dy: int, dx: int, m: int): int
  {
    Sq(Off(y, dy, m), Off(x, dx, m))
  }

  /** The step count at which square t would lie on the ray, read off the
      moving coordinate. */
  function StepOf(y: int, x: int, dy: int, dx: int, t: int): int
  {
    if dy == 1 then Rank(t) - y
    else if dy == -1 then y - Rank(t)
    else if dx == 1 then File(t) - x
    else x - File(t)
  }

  /** Square t is one of the first n squares of the ray. */
  predicate OnRay(y: int, x: int, dy: int, dx: int, n: int, t: int)
  {
    var k := StepOf(y, x, dy, dx, t);
    0 <= t < 64 && 1 <= k <= n && Rank(t) == Off(y, dy, k) && File(t) == Off(x, dx, k)
  }

  /** Square t is on the whole ray that a loop with bounds lo .. hi visits. */
  predicate Ray(y: int, x: int, dy: int, dx: int, lo: int, hi: int, t: int)
  {
    OnRay(y, x, dy, dx, RayLen(y, x, dy, dx, lo, hi), t)
  }

  /** The loop condition holds at step k exactly while k is within the ray,
      and every square within the ray is on the board. */
  lemma GuardStep(y: int, x: int, dy: int, dx: int, lo: int, hi: int, k: int)
    requires OnSquare(y, x) && Direction(dy, dx) && 0 <= lo && hi <= 8 && k >= 1
    ensures (Guard(Off(y, dy, k), dy, lo, hi) && Guard(Off(x, dx, k), dx, lo, hi))
            == (k <= RayLen(y, x, dy, dx, lo, hi))
    ensures k <= RayLen(y, x, dy, dx, lo, hi) ==> OnSquare(Off(y, dy, k), Off(x, dx, k))
  {
  }

  /** Growing the ray by its k-th square adds that square and nothing else. */
  lemma RayGrow(y: int, x: int, dy: int, dx: int, k: int, t: int)
    requires OnSquare(y, x) && Direction(dy, dx) && k >= 1
    requires OnSquare(Off(y, dy, k), Off(x, dx, k))
    ensures OnRay(y, x, dy, dx, k, t) == (OnRay(y, x, dy, dx, k - 1, t) != (t == RaySq(y, x, dy, dx, k)))
  {
    SquareCoords(Off(y, dy, k), Off(x, dx, k));
    if 0 <= t < 64 {
      CoordsSquare(t);
    }
  }

  /** One `for` loop of `RookFreeControl`, `BishopFreeControl`, `RookMask`
      or `BishopMask`: starting one step from (y, x), toggle each square of
      the ray into `c0` while the loop condition holds. */
  method ToggleRay(c0: bv64, y: int, x: int, dy: int, dx: int, lo: int, hi: int) returns (c: bv64)
    requires OnSquare(y, x) && Direction(dy, dx) && 0 <= lo && hi <= 8
    ensures forall t :: Has(c, t) == (Has(c0, t) != Ray(y, x, dy, dx, lo, hi, t))
  {
    c := c0;
    var i, j := y + dy, x + dx;
    ghost var k := 1;
    GuardStep(y, x, dy, dx, lo, hi, 1);
    while Guard(i, dy, lo, hi) && Guard(j, dx, lo, hi)
      invariant 1 <= k <= RayLen(y, x, dy, dx, lo, hi) + 1
      invariant i == Off(y, dy, k) && j == Off(x, dx, k)
      invariant (Guard(i, dy, lo, hi) && Guard(j, dx, lo, hi)) == (k <= RayLen(y, x, dy, dx, lo, hi))
      invariant forall t :: Has(c, t) == (Has(c0, t) != OnRay(y, x, dy, dx, k - 1, t))
      decreases RayLen(y, x, dy, dx, lo, hi) + 1 - k
    {
      var s := i * 8 + j;
      forall t ensures Has(Toggle(c, s), t) == (Has(c0, t) != OnRay(y, x, dy, dx, k, t)) {
        HasToggle(c, s, t);
        RayGrow(y, x, dy, dx, k, t);
      }
      c := Toggle(c, s);
      i, j := i + dy, j + dx;
      k := k + 1;
      GuardStep(y, x, dy, dx, lo, hi, k);
    }
  }

  /** No square strictly before step m of the ray is a blocker. */
  predicate Unblocked(y: int, x: int, dy: int, dx: int, blockers: bv64, m: int)
  {
    forall n :: 1 <= n < m ==> !Has(blockers, RaySq(y, x, dy, dx, n))
  }

  /** Square t is attacked along the ray: it is on the ray to the board's
      edge and no blocker lies strictly between the origin and t. The first
      blocker itself is attacked. */
  predicate Reaches(y: int, x: int, dy: int, dx: int, blockers: bv64, t: int)
  {
    Ray(y, x, dy, dx, 0, 8, t) && Unblocked(y, x, dy, dx, blockers, StepOf(y, x, dy, dx, t))
  }

  /** Stopping after a blocker at step k: the squares joined so far are the attacked ones. */
  lemma StopAt(y: int, x: int, dy: int, dx: int, blockers: bv64, k: int, t: int)
    requires OnSquare(y, x) && Direction(dy, dx) && 1 <= k <= RayLen(y, x, dy, dx, 0, 8)
    requires Unblocked(y, x, dy, dx, blockers, k) && Has(blockers, RaySq(y, x, dy, dx, k))
    ensures OnRay(y, x, dy, dx, k, t) == Reaches(y, x, dy, dx, blockers, t)
  {
  }

  /** Passing a square that is not a blocker keeps the ray unblocked. */
  lemma PassBy(y: int, x: int, dy: int, dx: int, blockers: bv64, k: int)
    requires Unblocked(y, x, dy, dx, blockers, k) && !Has(blockers, RaySq(y, x, dy, dx, k))
    ensures Unblocked(y, x, dy, dx, blockers, k + 1)
  {
  }

  /** Running off the board with no blocker met: the whole ray is attacked. */
  lemma RunOut(y: int, x: int, dy: int, dx: int, blockers: bv64, t: int)
    requires OnSquare(y, x) && Direction(dy, dx)
    requires Unblocked(y, x, dy, dx, blockers, RayLen(y, x, dy, dx, 0, 8) + 1)
    ensures Ray(y, x, dy, dx, 0, 8, t) == Reaches(y, x, dy, dx, blockers, t)
  {
  }

  /** One `for` loop of `RookAttack` or `BishopAttack`: join each square of
      the ray into `a0`, and stop after the first square that is a blocker. */
  method JoinRay(a0: bv64, blockers: bv64, y: int, x: int, dy: int, dx: int) returns (a: bv64)
    requires OnSquare(y, x) && Direction(dy, dx)
    ensures forall t :: Has(a, t) == (Has(a0, t) || Reaches(y, x, dy, dx, blockers, t))
  {
    a := a0;
    var i, j := y + dy, x + dx;
    ghost var k := 1;
    GuardStep(y, x, dy, dx, 0, 8, 1);
    while Guard(i, dy, 0, 8) && Guard(j, dx, 0, 8)
      invariant 1 <= k <= RayLen(y, x, dy, dx, 0, 8) + 1
      invariant i == Off(y, dy, k) && j == Off(x, dx, k)
      invariant (Guard(i, dy, 0, 8) && Guard(j, dx, 0, 8)) == (k <= RayLen(y, x, dy, dx, 0, 8))
      invariant Unblocked(y, x, dy, dx, blockers, k)
      invariant forall t :: Has(a, t) == (Has(a0, t) || OnRay(y, x, dy, dx, k - 1, t))
      decreases RayLen(y, x, dy, dx, 0, 8) + 1 - k
    {
      var s := i * 8 + j;
      assert s == RaySq(y, x, dy, dx, k);
      forall t ensures Has(Join(a, s), t) == (Has(a0, t) || OnRay(y, x, dy, dx, k, t)) {
        HasJoin(a, s, t);
        RayGrow(y, x, dy, dx, k, t);
      }
      a := Join(a, s);
      if Has(blockers, s) {
        forall t ensures Has(a, t) == (Has(a0, t) || Reaches(y, x, dy, dx, blockers, t)) {
          StopAt(y, x, dy, dx, blockers, k, t);
        }
        return;
      }
      PassBy(y, x, dy, dx, blockers, k);
      i, j := i + dy, j + dx;
      k := k + 1;
      GuardStep(y, x, dy, dx, 0, 8, k);
    }
    forall t ensures Has(a, t) == (Has(a0, t) || Reaches(y, x, dy, dx, blockers, t)) {
      RunOut(y, x, dy, dx, blockers, t);
    }
  }

  /** Squares other than (y, x) on its rank or file, the moving coordinate
      kept within lo .. hi - 1. */
  predicate RookSpan(y: int, x: int, lo: int, hi: int, t: int)
  {
    0 <= t < 64
    && ((File(t) == x && Rank(t) != y && lo <= Rank(t) < hi)
        || (Rank(t) == y && File(t) != x && lo <= File(t) < hi))
  }

  /** Squares other than (y, x) on its two diagonals, both coordinates kept
      within lo .. hi - 1. */
  predicate BishopSpan(y: int, x: int, lo: int, hi: int, t: int)
  {
    0 <= t < 64 && t != Sq(y, x) && Abs(Rank(t) - y) == Abs(File(t) - x)
    && lo <= Rank(t) < hi && lo <= File(t) < hi
  }

  /** The rook's four rays, in the source's loop order (up, down, right,
      left), are disjoint and together make up the span. */
  lemma RookRays(y: int, x: int, lo: int, hi: int, t: int)
    requires OnSquare(y, x) && 0 <= lo <= 1 && 7 <= hi <= 8
    ensures RookSpan(y, x, lo, hi, t)
            == (Ray(y, x, -1, 0, lo, hi, t) || Ray(y, x, 1, 0, lo, hi, t)
                || Ray(y, x, 0, 1, lo, hi, t) || Ray(y, x, 0, -1, lo, hi, t))
    ensures !(Ray(y, x, -1, 0, lo, hi, t) && Ray(y, x, 1, 0, lo, hi, t))
    ensures !((Ray(y, x, -1, 0, lo, hi, t) || Ray(y, x, 1, 0, lo, hi, t))
              && (Ray(y, x, 0, 1, lo, hi, t) || Ray(y, x, 0, -1, lo, hi, t)))
    ensures !(Ray(y, x, 0, 1, lo, hi, t) && Ray(y, x, 0, -1, lo, hi, t))
  {
  }

  /** The bishop's four rays, in the source's loop order (up-right,
      down-right, up-left, down-left), are disjoint and make up the span. */
  lemma BishopRays(y: int, x: int, lo: int, hi: int, t: int)
    requires OnSquare(y, x) && 0 <= lo <= 1 && 7 <= hi <= 8
    ensures BishopSpan(y, x, lo, hi, t)
            == (Ray(y, x, -1, 1, lo, hi, t) || Ray(y, x, 1, 1, lo, hi, t)
                || Ray(y, x, -1, -1, lo, hi, t) || Ray(y, x, 1, -1, lo, hi, t))
    ensures !(Ray(y, x, -1, 1, lo, hi, t) && Ray(y, x, 1, 1, lo, hi, t))
    ensures !((Ray(y, x, -1, 1, lo, hi, t) || Ray(y, x, 1, 1, lo, hi, t))
              && (Ray(y, x, -1, -1, lo, hi, t) || Ray(y, x, 1, -1, lo, hi, t)))
    ensures !(Ray(y, x, -1, -1, lo, hi, t) && Ray(y, x, 1, -1, lo, hi, t))
  {
  }

  /** The squares a rook on (y, x) controls on an empty board. */
  predicate RookLine(y: int, x: int, t: int)
  {
    0 <= t < 64 && t != Sq(y, x) && (Rank(t) == y || File(t) == x)
  }

  /** The squares a bishop on (y, x) controls on an empty board. */
  predicate BishopLine(y: int, x: int, t: int)
  {
    0 <= t < 64 && t != Sq(y, x) && Abs(Rank(t) - y) == Abs(File(t) - x)
  }

  /** Square t is the last square of a ray, on the board's edge. */
  predicate RayEnd(y: int, x: int, dy: int, dx: int, t: int)
  {
    Ray(y, x, dy, dx, 0, 8, t) && StepOf(y, x, dy, dx, t) == RayLen(y, x, dy, dx, 0, 8)
  }

  predicate RookEdge(y: int, x: int, t: int)
  {
    RayEnd(y, x, -1, 0, t) || RayEnd(y, x, 1, 0, t) || RayEnd(y, x, 0, 1, t) || RayEnd(y, x, 0, -1, t)
  }

  predicate BishopEdge(y: int, x: int, t: int)
  {
    RayEnd(y, x, -1, 1, t) || RayEnd(y, x, 1, 1, t) || RayEnd(y, x, -1, -1, t) || RayEnd(y, x, 1, -1, t)
  }

  /** The rook's relevant-occupancy squares: its line without the edge
      square at the end of each ray. */
  predicate RookMaskSquare(y: int, x: int, t: int)
  {
    RookLine(y, x, t) && (File(t) == x ==> 1 <= Rank(t) <= 6) && (Rank(t) == y ==> 1 <= File(t) <= 6)
  }

  /** The bishop's relevant-occupancy squares: its diagonals off the rim. */
  predicate BishopMaskSquare(y: int, x: int, t: int)
  {
    BishopLine(y, x, t) && 1 <= Rank(t) <= 6 && 1 <= File(t) <= 6
  }

  /** The squares a rook attacks when `blockers` are occupied. */
  predicate RookReach(y: int, x: int, blockers: bv64, t: int)
  {
    Reaches(y, x, -1, 0, blockers, t) || Reaches(y, x, 1, 0, blockers, t)
    || Reaches(y, x, 0, 1, blockers, t) || Reaches(y, x, 0, -1, blockers, t)
  }

  /** The squares a bishop attacks when `blockers` are occupied. */
  predicate BishopReach(y: int, x: int, blockers: bv64, t: int)
  {
    Reaches(y, x, -1, 1, blockers, t) || Reaches(y, x, 1, 1, blockers, t)
    || Reaches(y, x, -1, -1, blockers, t) || Reaches(y, x, 1, -1, blockers, t)
  }

  /** `x = origin % 8; y = (origin - x) >> 3` recovers file and rank. */
  lemma OriginCoords(origin: int)
    requires 0 <= origin < 64
    ensures (origin - origin % 8) / 8 == Rank(origin) && OnSquare(Rank(origin), File(origin))
  {
  }

  method RookFreeControl(y: int, x: int) returns (control: bv64)
    requires OnSquare(y, x)
    ensures forall t :: Has(control, t) == RookLine(y, x, t)
  {
    var c0 := ToggleRay(0, y, x, -1, 0, 0, 8);
    var c1 := ToggleRay(c0, y, x, 1, 0, 0, 8);
    var c2 := ToggleRay(c1, y, x, 0, 1, 0, 8);
    control := ToggleRay(c2, y, x, 0, -1, 0, 8);
    forall t ensures Has(control, t) == RookLine(y, x, t) {
      HasZero(t);
      RookRays(y, x, 0, 8, t);
    }
  }

  method BishopFreeControl(y: int, x: int) returns (control: bv64)
    requires OnSquare(y, x)
    ensures forall t :: Has(control, t) == BishopLine(y, x, t)
  {
    var c0 := ToggleRay(0, y, x, -1, 1, 0, 8);
    var c1 := ToggleRay(c0, y, x, 1, 1, 0, 8);
    var c2 := ToggleRay(c1, y, x, -1, -1, 0, 8);
    control := ToggleRay(c2, y, x, 1, -1, 0, 8);
    forall t ensures Has(control, t) == BishopLine(y, x, t) {
      HasZero(t);
      BishopRays(y, x, 0, 8, t);
    }
  }

  /** The loops stop one square short of the rim (`>= 1`, `< 7`). */
  method RookMask(origin: int) returns (control: bv64)
    requires 0 <= origin < 64
    ensures forall t :: Has(control, t) == RookMaskSquare(Rank(origin), File(origin), t)
  {
    var x := origin % 8;
    var y := (origin - x) / 8;
    OriginCoords(origin);
    assert y == Rank(origin) && x == File(origin);
    var c0 := ToggleRay(0, y, x, -1, 0, 1, 7);
    var c1 := ToggleRay(c0, y, x, 1, 0, 1, 7);
    var c2 := ToggleRay(c1, y, x, 0, 1, 1, 7);
    control := ToggleRay(c2, y, x, 0, -1, 1, 7);
    forall t ensures Has(control, t) == RookMaskSquare(y, x, t) {
      HasZero(t);
      RookRays(y, x, 1, 7, t);
    }
  }

  method BishopMask(origin: int) returns (control: bv64)
    requires 0 <= origin < 64
    ensures forall t :: Has(control, t) == BishopMaskSquare(Rank(origin), File(origin), t)
  {
    var x := origin % 8;
    var y := (origin - x) / 8;
    OriginCoords(origin);
    assert y == Rank(origin) && x == File(origin);
    var c0 := ToggleRay(0, y, x, -1, 1, 1, 7);
    var c1 := ToggleRay(c0, y, x, 1, 1, 1, 7);
    var c2 := ToggleRay(c1, y, x, -1, -1, 1, 7);
    control := ToggleRay(c2, y, x, 1, -1, 1, 7);
    forall t ensures Has(control, t) == BishopMaskSquare(y, x, t) {
      HasZero(t);
      BishopRays(y, x, 1, 7, t);
    }
  }

  method RookAttack(origin: int, blockers: bv64) returns (attack: bv64)
    requires 0 <= origin < 64
    ensures forall t :: Has(attack, t) == RookReach(Rank(origin), File(origin), blockers, t)
  {
    var x := origin % 8;
    var y := (origin - x) / 8;
    OriginCoords(origin);
    assert y == Rank(origin) && x == File(origin);
    var a0 := JoinRay(0, blockers, y, x, -1, 0);
    var a1 := JoinRay(a0, blockers, y, x, 1, 0);
    var a2 := JoinRay(a1, blockers, y, x, 0, 1);
    attack := JoinRay(a2, blockers, y, x, 0, -1);
    forall t ensures Has(attack, t) == RookReach(y, x, blockers, t) {
      HasZero(t);
    }
  }

  method BishopAttack(origin: int, blockers: bv64) returns (attack: bv64)
    requires 0 <= origin < 64
    ensures forall t :: Has(attack, t) == BishopReach(Rank(origin), File(origin), blockers, t)
  {
    var x := origin % 8;
    var y := (origin - x) / 8;
    OriginCoords(origin);
    assert y == Rank(origin) && x == File(origin);
    var a0 := JoinRay(0, blockers, y, x, -1, 1);
    var a1 := JoinRay(a0, blockers, y, x, 1, 1);
    var a2 := JoinRay(a1, blockers, y, x, -1, -1);
    attack := JoinRay(a2, blockers, y, x, 1, -1);
    forall t ensures Has(attack, t) == BishopReach(y, x, blockers, t) {
      HasZero(t);
    }
  }

  /** The rook mask is the rook's empty-board control without the last
      square of each ray. */
  lemma RookMaskTrimmed(y: int, x: int, t: int)
    requires OnSquare(y, x)
    ensures RookMaskSquare(y, x, t) == (RookLine(y, x, t) && !RookEdge(y, x, t))
  {
  }

  /** The same for the bishop. */
  lemma BishopMaskTrimmed(y: int, x: int, t: int)
    requires OnSquare(y, x)
    ensures BishopMaskSquare(y, x, t) == (BishopLine(y, x, t) && !BishopEdge(y, x, t))
  {
    BishopRays(y, x, 0, 8, t);
    DiagonalEnd(y, x, -1, 1, t);
    DiagonalEnd(y, x, 1, 1, t);
    DiagonalEnd(y, x, -1, -1, t);
    DiagonalEnd(y, x, 1, -1, t);
  }

  /** A square on a diagonal ray is its last one exactly when it is on the rim. */
  lemma DiagonalEnd(y: int, x: int, dy: int, dx: int, t: int)
    requires OnSquare(y, x) && (dy == 1 || dy == -1) && (dx == 1 || dx == -1)
    ensures Ray(y, x, dy, dx, 0, 8, t) ==> (RayEnd(y, x, dy, dx, t) == !(1 <= Rank(t) <= 6 && 1 <= File(t) <= 6))
  {
  }

  /** With no blockers every ray runs to the edge. */
  lemma NoBlockers(y: int, x: int, dy: int, dx: int, t: int)
    requires OnSquare(y, x) && Direction(dy, dx)
    ensures Reaches(y, x, dy, dx, 0, t) == Ray(y, x, dy, dx, 0, 8, t)
  {
    forall n | 1 <= n < StepOf(y, x, dy, dx, t) ensures !Has(0, RaySq(y, x, dy, dx, n)) {
      HasZero(RaySq(y, x, dy, dx, n));
    }
  }

  /** `RookAttack(o, 0)` is `RookFreeControl`, and a rook's attack never
      leaves its lines. */
  lemma RookAttackFree(y: int, x: int, blockers: bv64, t: int)
    requires OnSquare(y, x)
    ensures RookReach(y, x, 0, t) == RookLine(y, x, t)
    ensures RookReach(y, x, blockers, t) ==> RookLine(y, x, t)
  {
    NoBlockers(y, x, -1, 0, t);
    NoBlockers(y, x, 1, 0, t);
    NoBlockers(y, x, 0, 1, t);
    NoBlockers(y, x, 0, -1, t);
    RookRays(y, x, 0, 8, t);
  }

  /** `BishopAttack(o, 0)` is `BishopFreeControl`, and a bishop's attack
      never leaves its diagonals. */
  lemma BishopAttackFree(y: int, x: int, blockers: bv64, t: int)
    requires OnSquare(y, x)
    ensures BishopReach(y, x, 0, t) == BishopLine(y, x, t)
    ensures BishopReach(y, x, blockers, t) ==> BishopLine(y, x, t)
  {
    NoBlockers(y, x, -1, 1, t);
    NoBlockers(y, x, 1, 1, t);
    NoBlockers(y, x, -1, -1, t);
    NoBlockers(y, x, 1, -1, t);
    BishopRays(y, x, 0, 8, t);
  }

  /** More blockers never attack more squares. */
  lemma RookAttackShrinks(y: int, x: int, b1: bv64, b2: bv64, t: int)
    requires forall s :: Has(b1, s) ==> Has(b2, s)
    ensures RookReach(y, x, b2, t) ==> RookReach(y, x, b1, t)
  {
  }

  lemma BishopAttackShrinks(y: int, x: int, b1: bv64, b2: bv64, t: int)
    requires forall s :: Has(b1, s) ==> Has(b2, s)
    ensures BishopReach(y, x, b2, t) ==> BishopReach(y, x, b1, t)
  {
  }

  // ---------------------------------------------------------------------
  // GetIndices and GetDistance
  // ---------------------------------------------------------------------

  /** The squares of `moveMask` in increasing order, found by testing bit
      after bit and clearing each one found until the mask is empty. The
      source's `move = move_mask & (1ULL << bit)` is non-zero exactly when
      `Has(mm, bit)`, and `move_mask ^= move` then clears that one bit. */
  method GetIndices(moveMask: bv64) returns (indices: seq<int>)
    ensures forall i, j :: 0 <= i < j < |indices| ==> indices[i] < indices[j]
    ensures forall t :: t in indices <==> Has(moveMask, t)
  {
    indices := [];
    var mm := moveMask;
    var bit := 0;
    while mm != 0
      invariant 0 <= bit <= 64
      invariant forall t :: Has(mm, t) == (Has(moveMask, t) && t >= bit)
      invariant forall t :: t in indices <==> (Has(moveMask, t) && t < bit)
      invariant forall i, j :: 0 <= i < j < |indices| ==> indices[i] < indices[j]
      invariant forall i :: 0 <= i < |indices| ==> indices[i] < bit
      decreases 64 - bit
    {
      assert bit < 64 by {
        SomeSquare(mm);
      }
      if Has(mm, bit) {
        indices := indices + [bit];
        forall t ensures Has(Toggle(mm, bit), t) == (Has(moveMask, t) && t >= bit + 1) {
          HasToggle(mm, bit, t);
        }
        mm := Toggle(mm, bit);
      } else {
        forall t ensures Has(mm, t) == (Has(moveMask, t) && t >= bit + 1) {
        }
      }
      bit := bit + 1;
    }
    forall t ensures !(Has(moveMask, t) && t >= bit) {
      HasZero(t);
    }
  }

  /** `sqr % 8` in C++: the remainder truncated toward zero, so it takes
      the sign of sqr. */
  function CFile(sqr: int): (f: int)
    ensures -8 < f < 8 && (sqr - f) % 8 == 0
    ensures (sqr >= 0 ==> 0 <= f) && (sqr < 0 ==> f <= 0)
  {
    if sqr >= 0 then sqr % 8 else -((-sqr) % 8)
  }

  /** `(sqr - sqr % 8) >> 3`: the subtraction leaves a multiple of 8, so
      the arithmetic shift divides exactly. */
  function CRank(sqr: int): int { (sqr - CFile(sqr)) / 8 }

  lemma CoordsSplit(sqr: int)
    ensures sqr == CRank(sqr) * 8 + CFile(sqr)
    ensures 0 <= sqr < 64 ==> CRank(sqr) == Rank(sqr) && CFile(sqr) == File(sqr)
  {
  }

  /** The Manhattan distance between two squares. */
  function GetDistance(sqr1: int, sqr2: int): (d: int)
    ensures d >= 0
  {
    Abs(CFile(sqr1) - CFile(sqr2)) + Abs(CRank(sqr1) - CRank(sqr2))
  }

  /** The distance is symmetric and is 0 only between equal squares. */
  lemma GetDistanceMetric(sqr1: int, sqr2: int)
    ensures GetDistance(sqr1, sqr2) == GetDistance(sqr2, sqr1)
    ensures GetDistance(sqr1, sqr2) == 0 <==> sqr1 == sqr2
  {
    CoordsSplit(sqr1);
    CoordsSplit(sqr2);
  }

  /** On the board it is the file difference plus the rank difference,
      at most 14. */
  lemma GetDistanceOnBoard(sqr1: int, sqr2: int)
    requires 0 <= sqr1 < 64 && 0 <= sqr2 < 64
    ensures GetDistance(sqr1, sqr2) == Abs(File(sqr1) - File(sqr2)) + Abs(Rank(sqr1) - Rank(sqr2))
    ensures GetDistance(sqr1, sqr2) <= 14
  {
    CoordsSplit(sqr1);
    CoordsSplit(sqr2);
  }

  // ---------------------------------------------------------------------
  // Index-shift tables
  // ---------------------------------------------------------------------

  /** `rook_index_shifts`: the number of relevant-occupancy bits per origin,
      written rank by rank. */
  const RookIndexShifts: seq<int> :=
    [12, 11, 11, 11, 11, 11, 11, 12]
    + [11, 10, 10, 10, 10, 10, 10, 11]
    + [11, 10, 10, 10, 10, 10, 10, 11]
    + [11, 10, 10, 10, 10, 10, 10, 11]
    + [11, 10, 10, 10, 10, 10, 10, 11]
    + [11, 10, 10, 10, 10, 10, 10, 11]
    + [11, 10, 10, 10, 10, 10, 10, 11]
    + [12, 11, 11, 11, 11, 11, 11, 12]

  /** `bishop_index_shifts`. */
  const BishopIndexShifts: seq<int> :=
    [6, 5, 5, 5, 5, 5, 5, 6]
    + [5, 5, 5, 5, 5, 5, 5, 5]
    + [5, 5, 7, 7, 7, 7, 5, 5]
    + [5, 5, 7, 9, 9, 7, 5, 5]
    + [5, 5, 7, 9, 9, 7, 5, 5]
    + [5, 5, 7, 7, 7, 7, 5, 5]
    + [5, 5, 5, 5, 5, 5, 5, 5]
    + [6, 5, 5, 5, 5, 5, 5, 6]

  /** The number of squares `RookMask`'s four loops toggle. */
  function RookMaskSize(y: int, x: int): int
  {
    RayLen(y, x, -1, 0, 1, 7) + RayLen(y, x, 1, 0, 1, 7) + RayLen(y, x, 0, 1, 1, 7) + RayLen(y, x, 0, -1, 1, 7)
  }

  /** The number of squares `BishopMask`'s four loops toggle. */
  function BishopMaskSize(y: int, x: int): int
  {
    RayLen(y, x, -1, 1, 1, 7) + RayLen(y, x, 1, 1, 1, 7) + RayLen(y, x, -1, -1, 1, 7) + RayLen(y, x, 1, -1, 1, 7)
  }

  lemma RookShiftsRank0(y: int, x: int)
    requires y == 0 && 0 <= x < 8
    ensures RookIndexShifts[8 * y + x] == RookMaskSize(y, x)
  {
  }

  lemma RookShiftsRank1(y: int, x: int)
    requires y == 1 && 0 <= x < 8
    ensures RookIndexShifts[8 * y + x] == RookMaskSize(y, x)
  {
  }

  lemma RookShiftsRank2(y: int, x: int)
    requires y == 2 && 0 <= x < 8
    ensures RookIndexShifts[8 * y + x] == RookMaskSize(y, x)
  {
  }

  lemma RookShiftsRank3(y: int, x: int)
    requires y == 3 && 0 <= x < 8
    ensures RookIndexShifts[8 * y + x] == RookMaskSize(y, x)
  {
  }

  lemma RookShiftsRank4(y: int, x: int)
    requires y == 4 && 0 <= x < 8
    ensures RookIndexShifts[8 * y + x] == RookMaskSize(y, x)
  {
  }

  lemma RookShiftsRank5(y: int, x: int)
    requires y == 5 && 0 <= x < 8
    ensures RookIndexShifts[8 * y + x] == RookMaskSize(y, x)
  {
  }

  lemma RookShiftsRank6(y: int, x: int)
    requires y == 6 && 0 <= x < 8
    ensures RookIndexShifts[8 * y + x] == RookMaskSize(y, x)
  {
  }

  lemma RookShiftsRank7(y: int, x: int)
    requires y == 7 && 0 <= x < 8
    ensures RookIndexShifts[8 * y + x] == RookMaskSize(y, x)
  {
  }

  lemma RookIndexShiftsCount(y: int, x: int)
    requires 0 <= y < 8 && 0 <= x < 8
    ensures |RookIndexShifts| == 64 && RookIndexShifts[8 * y + x] == RookMaskSize(y, x)
  {
    if y == 0 {
      RookShiftsRank0(y, x);
    } else if y == 1 {
      RookShiftsRank1(y, x);
    } else if y == 2 {
      RookShiftsRank2(y, x);
    } else if y == 3 {
      RookShiftsRank3(y, x);
    } else if y == 4 {
      RookShiftsRank4(y, x);
    } else if y == 5 {
      RookShiftsRank5(y, x);
    } else if y == 6 {
      RookShiftsRank6(y, x);
    } else {
      RookShiftsRank7(y, x);
    }
  }

  lemma BishopShiftsRank0(y: int, x: int)
    requires y == 0 && 0 <= x < 8
    ensures BishopIndexShifts[8 * y + x] == BishopMaskSize(y, x)
  {
  }

  lemma BishopShiftsRank1(y: int, x: int)
    requires y == 1 && 0 <= x < 8
    ensures BishopIndexShifts[8 * y + x] == BishopMaskSize(y, x)
  {
  }

  lemma BishopShiftsRank2(y: int, x: int)
    requires y == 2 && 0 <= x < 8
    ensures BishopIndexShifts[8 * y + x] == BishopMaskSize(y, x)
  {
  }

  lemma BishopShiftsRank3(y: int, x: int)
    requires y == 3 && 0 <= x < 8
    ensures BishopIndexShifts[8 * y + x] == BishopMaskSize(y, x)
  {
  }

  lemma BishopShiftsRank4(y: int, x: int)
    requires y == 4 && 0 <= x < 8
    ensures BishopIndexShifts[8 * y + x] == BishopMaskSize(y, x)
  {
  }

  lemma BishopShiftsRank5(y: int, x: int)
    requires y == 5 && 0 <= x < 8
    ensures BishopIndexShifts[8 * y + x] == BishopMaskSize(y, x)
  {
  }

  lemma BishopShiftsRank6(y: int, x: int)
    requires y == 6 && 0 <= x < 8
    ensures BishopIndexShifts[8 * y + x] == BishopMaskSize(y, x)
  {
  }

  lemma BishopShiftsRank7(y: int, x: int)
    requires y == 7 && 0 <= x < 8
    ensures BishopIndexShifts[8 * y + x] == BishopMaskSize(y, x)
  {
  }

  lemma BishopIndexShiftsCount(y: int, x: int)
    requires 0 <= y < 8 && 0 <= x < 8
    ensures |BishopIndexShifts| == 64 && BishopIndexShifts[8 * y + x] == BishopMaskSize(y, x)
  {
    if y == 0 {
      BishopShiftsRank0(y, x);
    } else if y == 1 {
      BishopShiftsRank1(y, x);
    } else if y == 2 {
      BishopShiftsRank2(y, x);
    } else if y == 3 {
      BishopShiftsRank3(y, x);
    } else if y == 4 {
      BishopShiftsRank4(y, x);
    } else if y == 5 {
      BishopShiftsRank5(y, x);
    } else if y == 6 {
      BishopShiftsRank6(y, x);
    } else {
      BishopShiftsRank7(y, x);
    }
  }
}
