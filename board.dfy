/**
 * Chessington's `Board`: the 8x8 grid of signed piece codes a move is
 * applied to (codes 1 pawn, 2 knight, 3 bishop, 5 rook, 9 queen, 10 king,
 * negative for black), the algebraic notation written for the move (pawns
 * without a letter, `x` for captures, a file or rank to tell two pieces
 * apart, `0-0`/`0-0-0` for castling), the captured-material record and the
 * castling rights packed as `(white << 2) + black`, each half holding 2 for
 * the short and 1 for the long castle.
 */
module Board {
  import opened Wrappers
  import opened Text
  import opened Grid
  import opened Position

  /** A square as (rank, file); rank 0 is the top row of the display. */
  datatype Square = Square(rank: int, file: int)

  predicate OnBoard(s: Square) {
    0 <= s.rank < 8 && 0 <= s.file < 8
  }

  function Abs(x: int): nat {
    if x < 0 then -x else x
  }

  predicate IsPawn(p: int) {
    p == 1 || p == -1
  }

  predicate IsKing(p: int) {
    p == 10 || p == -10
  }

  /** The codes `piece_dict` has a letter for. */
  predicate Lettered(p: int) {
    Abs(p) == 2 || Abs(p) == 3 || Abs(p) == 5 || Abs(p) == 9 || Abs(p) == 10
  }

  function PieceLetter(p: int): char
    requires Lettered(p)
  {
    match Abs(p)
    case 2 => 'N'
    case 3 => 'B'
    case 5 => 'R'
    case 9 => 'Q'
    case _ => 'K'
  }

  /** `promotion_dict`: the engine's promotion type (1..4) as a white piece code. */
  function PromotionCode(k: int): int
    requires 1 <= k <= 4
  {
    if k == 1 then 2 else if k == 2 then 3 else if k == 3 then 5 else 9
  }

  /** `file_dict` as the board starts: file 0 is "a". */
  const Files: string := "abcdefgh"

  /** `start_pos`: black on ranks 0 and 1, white on ranks 6 and 7. */
  function StartPos(): (b: seq<seq<int>>)
    ensures IsBoard(b)
  {
    [[-5, -2, -3, -9, -10, -3, -2, -5],
     [-1, -1, -1, -1, -1, -1, -1, -1],
     [0, 0, 0, 0, 0, 0, 0, 0],
     [0, 0, 0, 0, 0, 0, 0, 0],
     [0, 0, 0, 0, 0, 0, 0, 0],
     [0, 0, 0, 0, 0, 0, 0, 0],
     [1, 1, 1, 1, 1, 1, 1, 1],
     [5, 2, 3, 9, 10, 3, 2, 5]]
  }

  function At(b: seq<seq<int>>, s: Square): int
    requires IsBoard(b) && OnBoard(s)
  {
    b[s.rank][s.file]
  }

  /** One square written, every other square kept. */
  function Put(b: seq<seq<int>>, s: Square, v: int): (r: seq<seq<int>>)
    requires IsBoard(b) && OnBoard(s)
    ensures IsBoard(r)
    ensures forall q :: OnBoard(q) ==> At(r, q) == if q == s then v else At(b, q)
  {
    b[s.rank := b[s.rank][s.file := v]]
  }

  /** Python's reading of a list index: -1 is the last entry. */
  function Wrapped(i: int): int {
    if i < 0 then i + 8 else i
  }

  /** Python's `//`: the quotient rounded down, for either sign of divisor. */
  function FloorDiv(a: int, b: int): (q: int)
    requires b != 0
    ensures b > 0 ==> b * q <= a < b * q + b
    ensures b < 0 ==> b * q + b < a <= b * q
  {
    if b > 0 then a / b else (-a) / (-b)
  }

  /** `50 // piece` is the rook of the castling king's colour. */
  lemma CastlingRookCode()
    ensures FloorDiv(50, 10) == 5 && FloorDiv(50, -10) == -5
  {
  }

  // ---------------------------------------------------------------------
  // Notation

  /** The rank as notation writes it: `8 - rank` when white is at the
      bottom of the display, `rank + 1` otherwise. */
  function RankDigit(rank: int, orient: int): char
    requires 0 <= rank < 8
  {
    if orient == 1 then DigitChar(8 - rank) else DigitChar(rank + 1)
  }

  /** A legal move as the game keeps it: four coordinates on the board, then
      the promotion type. */
  predicate IsMoveList(m: seq<int>) {
    |m| >= 4 && 0 <= m[0] < 8 && 0 <= m[1] < 8 && 0 <= m[2] < 8 && 0 <= m[3] < 8
  }

  predicate AllMoves(legal: seq<seq<int>>) {
    forall i :: 0 <= i < |legal| ==> IsMoveList(legal[i])
  }

  /** A legal move reaching `d` with the same piece code on its origin. */
  predicate SameTarget(b: seq<seq<int>>, m: seq<int>, piece: int, d: Square)
    requires IsBoard(b) && IsMoveList(m)
  {
    m[2] == d.rank && m[3] == d.file && b[m[0]][m[1]] == piece
  }

  /** Such a move from another square than the one being played. */
  predicate Rival(b: seq<seq<int>>, m: seq<int>, piece: int, o: Square, d: Square)
    requires IsBoard(b) && IsMoveList(m)
  {
    SameTarget(b, m, piece, d) && (m[0] != o.rank || m[1] != o.file)
  }

  /** What tells the played move apart from a rival: its origin file when the
      files differ, else its origin rank. */
  function Tag(files: string, m: seq<int>, o: Square, orient: int): string
    requires |files| == 8 && |m| >= 2 && OnBoard(o)
  {
    if o.file != m[1] then [files[o.file]] else [RankDigit(o.rank, orient)]
  }

  /** `notation_ambiguity` from the i-th legal move on. */
  function Disambiguation(b: seq<seq<int>>, files: string, legal: seq<seq<int>>, piece: int,
                          o: Square, d: Square, orient: int, i: nat): string
    requires IsBoard(b) && |files| == 8 && OnBoard(o) && AllMoves(legal) && i <= |legal|
    decreases |legal| - i
  {
    if i == |legal| then ""
    else if SameTarget(b, legal[i], piece, d) && o.file != legal[i][1] then [files[o.file]]
    else if SameTarget(b, legal[i], piece, d) && o.rank != legal[i][0] then [RankDigit(o.rank, orient)]
    else Disambiguation(b, files, legal, piece, o, d, orient, i + 1)
  }

  /** No mark is needed exactly when no rival move exists. */
  lemma {:induction false} DisambiguationEmpty(b: seq<seq<int>>, files: string, legal: seq<seq<int>>, piece: int,
                                               o: Square, d: Square, orient: int, i: nat)
    requires IsBoard(b) && |files| == 8 && OnBoard(o) && AllMoves(legal) && i <= |legal|
    ensures Disambiguation(b, files, legal, piece, o, d, orient, i) == "" <==>
              forall j :: i <= j < |legal| ==> !Rival(b, legal[j], piece, o, d)
    decreases |legal| - i
  {
    if i < |legal| {
      DisambiguationEmpty(b, files, legal, piece, o, d, orient, i + 1);
    }
  }

  /** Otherwise the mark is the tag against the first rival in the list. */
  lemma {:induction false} DisambiguationFirstRival(b: seq<seq<int>>, files: string, legal: seq<seq<int>>, piece: int,
                                                    o: Square, d: Square, orient: int, i: nat, k: nat)
    requires IsBoard(b) && |files| == 8 && OnBoard(o) && AllMoves(legal) && i <= k < |legal|
    requires Rival(b, legal[k], piece, o, d)
    requires forall j :: i <= j < k ==> !Rival(b, legal[j], piece, o, d)
    ensures Disambiguation(b, files, legal, piece, o, d, orient, i) == Tag(files, legal[k], o, orient)
    decreases k - i
  {
    if i < k {
      assert !Rival(b, legal[i], piece, o, d);
      DisambiguationFirstRival(b, files, legal, piece, o, d, orient, i + 1, k);
    }
  }

  /** The destination is occupied, or a pawn changes file (en passant). */
  predicate Captures(b: seq<seq<int>>, piece: int, o: Square, d: Square)
    requires IsBoard(b) && OnBoard(d)
  {
    At(b, d) != 0 || (IsPawn(piece) && d.file != o.file && At(b, d) == 0)
  }

  /** `get_notation`, read on the board before the move. */
  function Notation(b: seq<seq<int>>, files: string, legal: seq<seq<int>>, piece: int,
                    o: Square, d: Square, orient: int): string
    requires IsBoard(b) && |files| == 8 && OnBoard(o) && OnBoard(d) && AllMoves(legal)
    requires IsPawn(piece) || Lettered(piece)
  {
    var lead := if IsPawn(piece) then "" else [PieceLetter(piece)] + Disambiguation(b, files, legal, piece, o, d, orient, 0);
    var mark := if !Captures(b, piece, o, d) then "" else if IsPawn(piece) then [files[o.file]] + "x" else "x";
    lead + mark + [files[d.file]] + [RankDigit(d.rank, orient)]
  }

  /** The parts of a move's notation: a piece letter unless a pawn moves,
      `x` just before the destination for a capture, and the destination
      square (file letter, then rank digit) at the end. A pawn's capture
      starts with its origin file; a quiet pawn move is the square alone. */
  lemma NotationParts(b: seq<seq<int>>, files: string, legal: seq<seq<int>>, piece: int,
                      o: Square, d: Square, orient: int)
    requires IsBoard(b) && |files| == 8 && OnBoard(o) && OnBoard(d) && AllMoves(legal)
    requires IsPawn(piece) || Lettered(piece)
    ensures var n := Notation(b, files, legal, piece, o, d, orient);
      && |n| >= 2 && n[|n| - 2] == files[d.file] && n[|n| - 1] == RankDigit(d.rank, orient)
      && (!IsPawn(piece) ==> n[0] == PieceLetter(piece))
      && (Captures(b, piece, o, d) ==> |n| >= 3 && n[|n| - 3] == 'x')
      && (IsPawn(piece) && Captures(b, piece, o, d) ==> n == [files[o.file], 'x', files[d.file], RankDigit(d.rank, orient)])
      && (IsPawn(piece) && !Captures(b, piece, o, d) ==> n == [files[d.file], RankDigit(d.rank, orient)])
  {
  }

  /** The rank digit counts from white's side whichever way the board is shown. */
  lemma RankDigitFromWhite(rank: int, orient: int)
    requires 0 <= rank < 8 && (orient == 1 || orient == -1)
    ensures Digit(RankDigit(rank, orient)) == if orient == 1 then 8 - rank else rank + 1
    ensures RankDigit(7 - rank, -orient) == RankDigit(rank, orient)
  {
  }

  /** The king's pawn advancing two squares from the start is "e4". */
  lemma KingsPawnOpening()
    ensures IsBoard(StartPos())
    ensures Notation(StartPos(), Files, [[6, 4, 4, 4, 0]], 1, Square(6, 4), Square(4, 4), 1) == "e4"
  {
    assert At(StartPos(), Square(4, 4)) == 0;
  }

  function CastleText(short: bool): string {
    if short then "0-0" else "0-0-0"
  }

  // ---------------------------------------------------------------------
  // The display turned around

  function Mirror(s: Square): Square {
    Square(7 - s.rank, 7 - s.file)
  }

  /** `flip_file_notation`: the letter of file i moves to file 7 - i. */
  function Mirrored(files: string): (r: string)
    requires |files| == 8
    ensures |r| == 8 && forall i :: 0 <= i < 8 ==> r[i] == files[7 - i]
  {
    seq(8, i requires 0 <= i < 8 => files[7 - i])
  }

  lemma MirroredInvolution(files: string)
    requires |files| == 8
    ensures Mirrored(Mirrored(files)) == files
  {
    assert forall i :: 0 <= i < 8 ==> Mirrored(Mirrored(files))[i] == files[i];
  }

  /** The legal moves as `flip_board` leaves them: each one mirrored. */
  function MirrorMoves(legal: seq<seq<int>>): (r: seq<seq<int>>)
    ensures |r| == |legal| && forall i :: 0 <= i < |legal| ==> r[i] == ReverseMove(legal[i])
  {
    seq(|legal|, i requires 0 <= i < |legal| => ReverseMove(legal[i]))
  }

  lemma MirrorMovesInvolution(legal: seq<seq<int>>)
    requires forall i :: 0 <= i < |legal| ==> |legal[i]| <= 5
    ensures MirrorMoves(MirrorMoves(legal)) == legal
  {
    forall i | 0 <= i < |legal| ensures MirrorMoves(MirrorMoves(legal))[i] == legal[i] {
      ReverseMoveInvolution(legal[i]);
    }
  }

  lemma MirrorMovesOnBoard(legal: seq<seq<int>>)
    requires AllMoves(legal)
    ensures AllMoves(MirrorMoves(legal))
  {
  }

  /** One legal move seen on the turned board: it reaches the mirrored
      destination from the mirrored origin exactly when it did before, and
      the origin's file letter and rank digit read the same. */
  lemma MoveFlip(b: seq<seq<int>>, files: string, m: seq<int>, piece: int, o: Square, d: Square, orient: int)
    requires IsBoard(b) && |files| == 8 && OnBoard(o) && OnBoard(d) && IsMoveList(m)
    requires orient == 1 || orient == -1
    ensures IsBoard(Rotated(b)) && IsMoveList(ReverseMove(m))
    ensures SameTarget(Rotated(b), ReverseMove(m), piece, Mirror(d)) == SameTarget(b, m, piece, d)
    ensures (Mirror(o).file != ReverseMove(m)[1]) == (o.file != m[1])
    ensures (Mirror(o).rank != ReverseMove(m)[0]) == (o.rank != m[0])
    ensures Mirrored(files)[Mirror(o).file] == files[o.file]
    ensures RankDigit(Mirror(o).rank, -orient) == RankDigit(o.rank, orient)
  {
    RotatedSquares(b);
    RankDigitFromWhite(o.rank, orient);
  }

  lemma {:induction false} DisambiguationFlip(b: seq<seq<int>>, files: string, legal: seq<seq<int>>, piece: int,
                                              o: Square, d: Square, orient: int, i: nat)
    requires IsBoard(b) && |files| == 8 && OnBoard(o) && OnBoard(d) && AllMoves(legal) && i <= |legal|
    requires orient == 1 || orient == -1
    requires IsBoard(Rotated(b)) && AllMoves(MirrorMoves(legal))
    ensures Disambiguation(Rotated(b), Mirrored(files), MirrorMoves(legal), piece, Mirror(o), Mirror(d), -orient, i)
         == Disambiguation(b, files, legal, piece, o, d, orient, i)
    decreases |legal| - i
  {
    if i < |legal| {
      assert MirrorMoves(legal)[i] == ReverseMove(legal[i]);
      MoveFlip(b, files, legal[i], piece, o, d, orient);
      DisambiguationFlip(b, files, legal, piece, o, d, orient, i + 1);
    }
  }

  /** What `flip_board` relies on: with the board turned, the file letters
      mirrored, the legal moves mirrored and the orientation negated, every
      move is written exactly as before. */
  lemma NotationFlip(b: seq<seq<int>>, files: string, legal: seq<seq<int>>, piece: int,
                     o: Square, d: Square, orient: int)
    requires IsBoard(b) && |files| == 8 && OnBoard(o) && OnBoard(d) && AllMoves(legal)
    requires IsPawn(piece) || Lettered(piece)
    requires orient == 1 || orient == -1
    ensures IsBoard(Rotated(b)) && AllMoves(MirrorMoves(legal))
    ensures Notation(Rotated(b), Mirrored(files), MirrorMoves(legal), piece, Mirror(o), Mirror(d), -orient)
         == Notation(b, files, legal, piece, o, d, orient)
  {
    RotatedSquares(b);
    MirrorMovesOnBoard(legal);
    DisambiguationFlip(b, files, legal, piece, o, d, orient, 0);
    RankDigitFromWhite(d.rank, orient);
    assert At(Rotated(b), Mirror(d)) == At(b, d);
  }

  // ---------------------------------------------------------------------
  // valid_move, valid_piece

  /** The first four entries of a legal move name this origin and destination. */
  predicate Targets(m: seq<int>, s: Square, d: Square)
    requires |m| >= 4
  {
    m[0] == s.rank && m[1] == s.file && m[2] == d.rank && m[3] == d.file
  }

  predicate IsValidMove(legal: seq<seq<int>>, s: Square, d: Square)
    requires forall i :: 0 <= i < |legal| ==> |legal[i]| >= 4
  {
    s != d && exists i :: 0 <= i < |legal| && Targets(legal[i], s, d)
  }

  /** `valid_move`: a move that stays put is never valid; otherwise some legal
      move must have these coordinates. */
  method ValidMove(legal: seq<seq<int>>, s: Square, d: Square) returns (ok: bool)
    requires forall i :: 0 <= i < |legal| ==> |legal[i]| >= 4
    ensures ok <==> IsValidMove(legal, s, d)
  {
    if s == d {
      return false;
    }
    var i := 0;
    while i < |legal|
      invariant 0 <= i <= |legal|
      invariant forall j :: 0 <= j < i ==> !Targets(legal[j], s, d)
    {
      var m := legal[i];
      if m[0] == s.rank && m[1] == s.file && m[2] == d.rank && m[3] == d.file {
        return true;
      }
      i := i + 1;
    }
    return false;
  }

  /** Turning the display keeps a move valid: the mirrored move is checked
      against the mirrored legal moves. */
  lemma ValidMoveFlip(legal: seq<seq<int>>, s: Square, d: Square)
    requires forall i :: 0 <= i < |legal| ==> |legal[i]| >= 4
    ensures forall i :: 0 <= i < |legal| ==> |MirrorMoves(legal)[i]| >= 4
    ensures IsValidMove(MirrorMoves(legal), Mirror(s), Mirror(d)) <==> IsValidMove(legal, s, d)
  {
    var ml := MirrorMoves(legal);
    forall i | 0 <= i < |legal| ensures Targets(ml[i], Mirror(s), Mirror(d)) <==> Targets(legal[i], s, d) {
    }
    assert Mirror(s) == Mirror(d) <==> s == d;
  }

  /** `valid_piece`: no piece can be picked up while the engine searches;
      otherwise only a piece of the side to move. */
  function ValidPiece(piece: int, turn: int, engine: bool): (ok: bool)
    ensures ok <==> !engine && (turn == 1 || turn == -1) && piece * turn > 0
  {
    if !engine then (piece > 0 && turn == 1) || (piece < 0 && turn == -1) else false
  }

  // ---------------------------------------------------------------------
  // Captured material

  /** The codes whose count `set_pos` keeps. */
  const TalliedCodes: set<int> := {2, -2, 3, -3, 5, -5, 9, -9}

  /** The codes `process_move` looks up in the count (a missing one raises). */
  predicate Tallied(c: int) {
    c == 9 || c == -9 || 2 <= Abs(c) <= 5
  }

  /** The capture record of one move: a captured queen while another of its
      colour is counted, or a captured knight, bishop or rook while two
      others of its code are counted, is recorded as a pawn of the side that
      lost it (it can only have come from a promotion); any other captured
      code as itself; nothing when the destination is empty. */
  function Recorded(cap: int, counts: map<int, int>, turn: int): (r: seq<int>)
    requires Tallied(cap) ==> cap in counts
    ensures cap == 0 <==> r == []
    ensures (cap == 9 || cap == -9) && counts[cap] > 1 ==> r == [-turn]
    ensures cap != 9 && cap != -9 && Tallied(cap) && counts[cap] > 2 ==> r == [-turn]
    ensures cap != 0 && !(Tallied(cap) && counts[cap] > (if cap == 9 || cap == -9 then 1 else 2)) ==> r == [cap]
  {
    if cap == 9 || cap == -9 then [if counts[cap] > 1 then -turn else cap]
    else if 2 <= Abs(cap) <= 5 then [if counts[cap] > 2 then -turn else cap]
    else if cap != 0 then [cap]
    else []
  }

  /** The count of the captured code drops by one; no other count changes. */
  function Recounted(cap: int, counts: map<int, int>): (r: map<int, int>)
    requires Tallied(cap) ==> cap in counts
    ensures r.Keys == counts.Keys
    ensures forall c :: c in r ==> r[c] == counts[c] - (if c == cap && Tallied(cap) then 1 else 0)
  {
    if Tallied(cap) then counts[cap := counts[cap] - 1] else counts
  }

  /** How often code k occurs in the first n ranks. */
  function InRanks(b: seq<seq<int>>, k: int, n: nat): nat
    requires n <= |b|
  {
    if n == 0 then 0 else InRanks(b, k, n - 1) + multiset(b[n - 1])[k]
  }

  /** How often code k occurs on the board. */
  function Occurrences(b: seq<seq<int>>, k: int): nat {
    InRanks(b, k, |b|)
  }

  /** `set_pos`'s count: the tallied codes and how often each occurs. */
  function Tally(b: seq<seq<int>>): (t: map<int, int>)
    ensures t.Keys == TalliedCodes
    ensures forall c :: c in t ==> t[c] == Occurrences(b, c)
  {
    map c | c in TalliedCodes :: Occurrences(b, c)
  }

  lemma {:induction false} InRanksRow(b: seq<seq<int>>, r: nat, row: seq<int>, k: int, n: nat)
    requires r < |b| && n <= |b|
    ensures InRanks(b[r := row], k, n) + (if r < n then multiset(b[r])[k] else 0)
         == InRanks(b, k, n) + (if r < n then multiset(row)[k] else 0)
  {
    if n > 0 {
      InRanksRow(b, r, row, k, n - 1);
    }
  }

  /** Writing one square changes the count of code k by what left and what arrived. */
  lemma OccurrencesPut(b: seq<seq<int>>, s: Square, v: int, k: int)
    requires IsBoard(b) && OnBoard(s)
    ensures Occurrences(Put(b, s, v), k)
         == Occurrences(b, k) - (if At(b, s) == k then 1 else 0) + (if v == k then 1 else 0)
  {
    var row := b[s.rank];
    InRanksRow(b, s.rank, row[s.file := v], k, 8);
    assert multiset(row[s.file := v]) == multiset(row) - multiset{row[s.file]} + multiset{v};
  }

  // ---------------------------------------------------------------------
  // Castling rights

  function WhiteHalf(castle: int): int {
    (castle - castle % 4) / 4
  }

  function BlackHalf(castle: int): int {
    castle % 4
  }

  /** Whether a side's half (0..3) holds a right: 2 is the short castle, 1 the long. */
  predicate Holds(half: int, right: int)
    requires right == 1 || right == 2
  {
    if right == 2 then half == 2 || half == 3 else half == 1 || half == 3
  }

  /** Losing one right. As written the source subtracts it whether or not it
      is held; `heldOnly` subtracts it only when it is held. */
  function Strip(half: int, right: int, heldOnly: bool): int
    requires right == 1 || right == 2
  {
    if !heldOnly || Holds(half, right) then half - right else half
  }

  /** One side's half after that side's own move: a rook leaving the
      kingside file (7, or 0 with the board turned) loses the short castle,
      one leaving the other corner file the long castle, a king move both. */
  function MoverHalf(half: int, piece: int, rook: int, king: int, file: int, orient: int, heldOnly: bool): int {
    if half > 0 then
      var h1 := if piece == rook && ((file == 7 && orient == 1) || (file == 0 && orient == -1)) then Strip(half, 2, heldOnly) else half;
      var h2 := if piece == rook && ((file == 0 && orient == 1) || (file == 7 && orient == -1)) then Strip(h1, 1, heldOnly) else h1;
      if piece == king then 0 else h2
    else half
  }

  /** One side's half after the opponent captures its rook on a corner file. */
  function TakenHalf(half: int, cap: int, rook: int, file: int, orient: int, heldOnly: bool): int {
    if cap == rook && half > 0 then
      if (file == 7 && orient == 1) || (file == 0 && orient == -1) then Strip(half, 2, heldOnly)
      else if (file == 0 && orient == 1) || (file == 7 && orient == -1) then Strip(half, 1, heldOnly)
      else half
    else half
  }

  function Clamp(h: int): int {
    if h < 0 then 0 else h
  }

  function RightsAfter(castle: int, piece: int, o: Square, d: Square, orient: int, cap: int, heldOnly: bool): int {
    var w := Clamp(TakenHalf(MoverHalf(WhiteHalf(castle), piece, 5, 10, o.file, orient, heldOnly), cap, 5, d.file, orient, heldOnly));
    var bl := Clamp(TakenHalf(MoverHalf(BlackHalf(castle), piece, -5, -10, o.file, orient, heldOnly), cap, -5, d.file, orient, heldOnly));
    w * 4 + bl
  }

  /** The rights update of `process_move` as written. */
  function RightsAsWritten(castle: int, piece: int, o: Square, d: Square, orient: int, cap: int): int {
    RightsAfter(castle, piece, o, d, orient, cap, false)
  }

  /** The rights update with each right removed only when it is held. */
  function Rights(castle: int, piece: int, o: Square, d: Square, orient: int, cap: int): int {
    RightsAfter(castle, piece, o, d, orient, cap, true)
  }

  lemma StripBounds(half: int, right: int, heldOnly: bool)
    requires 0 <= half <= 3 && (right == 1 || right == 2)
    ensures Strip(half, right, heldOnly) <= half
    ensures heldOnly ==> 0 <= Strip(half, right, heldOnly)
    ensures heldOnly ==> !Holds(Strip(half, right, heldOnly), right)
    ensures heldOnly ==> forall other :: (other == 1 || other == 2) && other != right ==>
              Holds(Strip(half, right, heldOnly), other) == Holds(half, other)
  {
  }

  lemma HalvesSplit(castle: int)
    requires 0 <= castle <= 15
    ensures 0 <= WhiteHalf(castle) <= 3 && 0 <= BlackHalf(castle) <= 3
    ensures WhiteHalf(castle) * 4 + BlackHalf(castle) == castle
  {
  }

  lemma HalvesOf(w: int, b: int)
    requires 0 <= w && 0 <= b <= 3
    ensures WhiteHalf(w * 4 + b) == w && BlackHalf(w * 4 + b) == b
  {
  }

  lemma MoverHalfBounds(half: int, piece: int, rook: int, king: int, file: int, orient: int, heldOnly: bool)
    requires 0 <= half <= 3
    ensures Clamp(MoverHalf(half, piece, rook, king, file, orient, heldOnly)) <= half
    ensures heldOnly ==> 0 <= MoverHalf(half, piece, rook, king, file, orient, heldOnly)
    ensures heldOnly ==> forall right :: (right == 1 || right == 2) && Holds(MoverHalf(half, piece, rook, king, file, orient, heldOnly), right) ==> Holds(half, right)
  {
  }

  lemma TakenHalfBounds(half: int, cap: int, rook: int, file: int, orient: int, heldOnly: bool)
    requires 0 <= half <= 3
    ensures TakenHalf(half, cap, rook, file, orient, heldOnly) <= half
    ensures heldOnly ==> 0 <= TakenHalf(half, cap, rook, file, orient, heldOnly)
    ensures heldOnly ==> forall right :: (right == 1 || right == 2) && Holds(TakenHalf(half, cap, rook, file, orient, heldOnly), right) ==> Holds(half, right)
  {
  }

  /** Both the update as written and the corrected one keep the packed value
      in 0..15 and never let a half grow; a king move clears its own half. */
  lemma RightsNeverGrow(castle: int, piece: int, o: Square, d: Square, orient: int, cap: int, heldOnly: bool)
    requires 0 <= castle <= 15
    ensures var r := RightsAfter(castle, piece, o, d, orient, cap, heldOnly);
      && 0 <= r <= 15
      && WhiteHalf(r) <= WhiteHalf(castle) && BlackHalf(r) <= BlackHalf(castle)
      && (piece == 10 ==> WhiteHalf(r) == 0)
      && (piece == -10 ==> BlackHalf(r) == 0)
  {
    var w := WhiteHalf(castle);
    var bl := BlackHalf(castle);
    HalvesSplit(castle);
    MoverHalfBounds(w, piece, 5, 10, o.file, orient, heldOnly);
    MoverHalfBounds(bl, piece, -5, -10, o.file, orient, heldOnly);
    var mw := Clamp(MoverHalf(w, piece, 5, 10, o.file, orient, heldOnly));
    var mb := Clamp(MoverHalf(bl, piece, -5, -10, o.file, orient, heldOnly));
    TakenHalfBounds(mw, cap, 5, d.file, orient, heldOnly);
    TakenHalfBounds(mb, cap, -5, d.file, orient, heldOnly);
    var tw := Clamp(TakenHalf(MoverHalf(w, piece, 5, 10, o.file, orient, heldOnly), cap, 5, d.file, orient, heldOnly));
    var tb := Clamp(TakenHalf(MoverHalf(bl, piece, -5, -10, o.file, orient, heldOnly), cap, -5, d.file, orient, heldOnly));
    assert 0 <= tw <= w && 0 <= tb <= bl;
    HalvesOf(tw, tb);
  }

  /** The corrected update only ever takes rights away: a right held after
      the move was held before it, on both sides. */
  lemma RightsOnlyLost(castle: int, piece: int, o: Square, d: Square, orient: int, cap: int, right: int)
    requires 0 <= castle <= 15 && (right == 1 || right == 2)
    ensures var r := Rights(castle, piece, o, d, orient, cap);
      && (Holds(WhiteHalf(r), right) ==> Holds(WhiteHalf(castle), right))
      && (Holds(BlackHalf(r), right) ==> Holds(BlackHalf(castle), right))
  {
    var w := WhiteHalf(castle);
    var bl := BlackHalf(castle);
    HalvesSplit(castle);
    MoverHalfBounds(w, piece, 5, 10, o.file, orient, true);
    MoverHalfBounds(bl, piece, -5, -10, o.file, orient, true);
    var mw := MoverHalf(w, piece, 5, 10, o.file, orient, true);
    var mb := MoverHalf(bl, piece, -5, -10, o.file, orient, true);
    TakenHalfBounds(mw, cap, 5, d.file, orient, true);
    TakenHalfBounds(mb, cap, -5, d.file, orient, true);
    HalvesOf(TakenHalf(mw, cap, 5, d.file, orient, true), TakenHalf(mb, cap, -5, d.file, orient, true));
  }

  /** With the corrected update, white's rook leaving the kingside corner
      file loses white's short castle and keeps the long one as it was
      (unless a rook is captured on the same move). */
  lemma RookMoveLosesItsSide(castle: int, o: Square, d: Square, cap: int)
    requires 0 <= castle <= 15 && o.file == 7 && cap != 5 && cap != -5
    ensures var r := Rights(castle, 5, o, d, 1, cap);
      && !Holds(WhiteHalf(r), 2)
      && Holds(WhiteHalf(r), 1) == Holds(WhiteHalf(castle), 1)
      && BlackHalf(r) == BlackHalf(castle)
  {
    var w := WhiteHalf(castle);
    HalvesSplit(castle);
    StripBounds(w, 2, true);
    var mw := MoverHalf(w, 5, 5, 10, 7, 1, true);
    assert 0 <= mw <= 3;
    HalvesOf(mw, BlackHalf(castle));
  }

  /** As written, a rook leaving a corner file removes 2 or 1 from its
      side's half even when that right is already gone. White holding only
      the short castle (8) whose queen's rook leaves file 0 ends up holding
      only the long castle (4); the corrected update keeps 8. */
  lemma RightsAsWrittenGrantsLong()
    ensures Holds(WhiteHalf(8), 2) && !Holds(WhiteHalf(8), 1)
    ensures RightsAsWritten(8, 5, Square(7, 0), Square(5, 0), 1, 0) == 4
    ensures Holds(WhiteHalf(4), 1) && !Holds(WhiteHalf(4), 2)
    ensures Rights(8, 5, Square(7, 0), Square(5, 0), 1, 0) == 8
  {
  }

  /** When the right of the rook's corner is still held, the update as
      written and the corrected one agree: white's rook leaving file 7 with
      the short castle held, or file 0 with the long castle held, and no
      rook taken on the move. */
  lemma RightsAgreeWhenHeld(castle: int, o: Square, d: Square, cap: int)
    requires 0 <= castle <= 15 && cap != 5 && cap != -5
    requires o.file == 7 ==> Holds(WhiteHalf(castle), 2)
    requires o.file == 0 ==> Holds(WhiteHalf(castle), 1)
    ensures RightsAsWritten(castle, 5, o, d, 1, cap) == Rights(castle, 5, o, d, 1, cap)
  {
    HalvesSplit(castle);
  }

  /** White holding only the long castle (4) whose king's rook leaves file 7
      loses the long castle as written. */
  lemma RightsAsWrittenDropsLong()
    ensures Holds(WhiteHalf(4), 1) && RightsAsWritten(4, 5, Square(7, 7), Square(5, 7), 1, 0) == 0
  {
  }

  // ---------------------------------------------------------------------
  // process_move

  /** The keyword arguments `Game.get_kwargs` passes (`engine_promo` only when present). */
  datatype Kwargs = Kwargs(turn: int, orient: int, legal: seq<seq<int>>, castle: int, promo: Option<int>)

  /** The rook goes toward file 7 (+1), toward file 0 (-1), or nowhere for
      an orientation other than 1 and -1. */
  function RookStep(short: bool, orient: int): int {
    if (short && orient == 1) || (!short && orient == -1) then 1
    else if (short && orient == -1) || (!short && orient == 1) then -1
    else 0
  }

  /** The king moved right from file 4 (white at the bottom) or left from file 3 (board turned). */
  predicate ShortCastle(o: Square, d: Square, orient: int) {
    (o.file == 4 && orient == 1 && d.file > o.file) || (o.file == 3 && orient == -1 && d.file < o.file)
  }

  predicate Castling(piece: int, o: Square, d: Square) {
    IsKing(piece) && Abs(o.file - d.file) > 1
  }

  predicate Passing(b: seq<seq<int>>, piece: int, o: Square, d: Square)
    requires IsBoard(b) && OnBoard(d)
  {
    !Castling(piece, o, d) && IsPawn(piece) && d.file != o.file && At(b, d) == 0
  }

  /** `castle`: the rook of the king's colour goes beside the king's origin
      and its corner square is emptied. */
  function Castled(b: seq<seq<int>>, short: bool, piece: int, o: Square, orient: int): seq<seq<int>>
    requires IsBoard(b) && OnBoard(o) && piece != 0
    requires RookStep(short, orient) == 1 ==> o.file < 7
  {
    if RookStep(short, orient) == 1 then
      Put(Put(b, Square(o.rank, o.file + 1), FloorDiv(50, piece)), Square(o.rank, 7), 0)
    else if RookStep(short, orient) == -1 then
      Put(Put(b, Square(o.rank, Wrapped(o.file - 1)), FloorDiv(50, piece)), Square(o.rank, 0), 0)
    else b
  }

  /** `en_passant`: the square beside the origin, toward the destination, is emptied. */
  function EnPassanted(b: seq<seq<int>>, o: Square, d: Square): seq<seq<int>>
    requires IsBoard(b) && OnBoard(o) && OnBoard(d)
  {
    if d.file > o.file then Put(b, Square(o.rank, o.file + 1), 0)
    else Put(b, Square(o.rank, Wrapped(o.file - 1)), 0)
  }

  /** What the source needs to apply a move without raising: squares on the
      board, a piece `piece_dict` knows (or a pawn), a count for a captured
      tallied code, room for the castling rook, and a promotion type with a
      letter. */
  predicate Notable(b: seq<seq<int>>, files: string, piece: int, o: Square, d: Square, kw: Kwargs) {
    && IsBoard(b) && |files| == 8 && OnBoard(o) && OnBoard(d) && AllMoves(kw.legal)
    && (IsPawn(piece) || Lettered(piece))
    && (kw.promo.Some? ==> 1 <= kw.promo.value <= 4 && Lettered(PromotionCode(kw.promo.value) * kw.turn))
  }

  predicate CanApply(b: seq<seq<int>>, counts: map<int, int>, files: string, piece: int, o: Square, d: Square, kw: Kwargs) {
    && Notable(b, files, piece, o, d, kw)
    && (Tallied(At(b, d)) ==> At(b, d) in counts)
    && (Castling(piece, o, d) && RookStep(ShortCastle(o, d, kw.orient), kw.orient) == 1 ==> o.file < 7)
  }

  /** The piece that lands: the promotion piece of the side to move when the engine promotes. */
  function Landing(piece: int, kw: Kwargs): int
    requires kw.promo.Some? ==> 1 <= kw.promo.value <= 4
  {
    if kw.promo.Some? then PromotionCode(kw.promo.value) * kw.turn else piece
  }

  /** The board after `process_move`: origin emptied, the castling rook or
      the pawn taken en passant handled, then the landing piece placed. */
  function MovedBoard(b: seq<seq<int>>, piece: int, o: Square, d: Square, kw: Kwargs): seq<seq<int>>
    requires IsBoard(b) && OnBoard(o) && OnBoard(d) && (kw.promo.Some? ==> 1 <= kw.promo.value <= 4)
    requires Castling(piece, o, d) && RookStep(ShortCastle(o, d, kw.orient), kw.orient) == 1 ==> o.file < 7
  {
    var cleared := Put(b, o, 0);
    var middle :=
      if Castling(piece, o, d) then Castled(cleared, ShortCastle(o, d, kw.orient), piece, o, kw.orient)
      else if Passing(b, piece, o, d) then EnPassanted(cleared, o, d)
      else cleared;
    Put(middle, d, Landing(piece, kw))
  }

  /** The notation `process_move` records. */
  function MoveNotation(b: seq<seq<int>>, files: string, piece: int, o: Square, d: Square, kw: Kwargs): string
    requires Notable(b, files, piece, o, d, kw)
  {
    var written := if Castling(piece, o, d) then CastleText(ShortCastle(o, d, kw.orient)) else Notation(b, files, kw.legal, piece, o, d, kw.orient);
    if kw.promo.Some? then written + "=" + [PieceLetter(Landing(piece, kw))] else written
  }

  datatype Outcome = Outcome(board: seq<seq<int>>, counts: map<int, int>, node: Node)

  /** `process_move`: the new board, the new counts and the new position. */
  function Applied(b: seq<seq<int>>, counts: map<int, int>, files: string, piece: int, o: Square, d: Square, kw: Kwargs): Outcome
    requires CanApply(b, counts, files, piece, o, d, kw)
  {
    var cap := At(b, d);
    var board := MovedBoard(b, piece, o, d, kw);
    var captured := Recorded(cap, counts, kw.turn) + (if Passing(b, piece, o, d) then [-piece] else []);
    var final := Landing(piece, kw);
    Outcome(board, Recounted(cap, counts),
            NewNode(kw.turn, kw.orient, [o.rank, o.file, d.rank, d.file], MoveNotation(b, files, piece, o, d, kw),
                    IsPawn(final) && (d.rank == 0 || d.rank == 7), board, RightsAsWritten(kw.castle, piece, o, d, kw.orient, cap),
                    captured, Unkeyed))
  }

  /** `Applied` taken apart, for the `Board` object's step-by-step proof. */
  lemma AppliedParts(b: seq<seq<int>>, counts: map<int, int>, files: string, piece: int, o: Square, d: Square, kw: Kwargs)
    requires CanApply(b, counts, files, piece, o, d, kw)
    ensures var board := MovedBoard(b, piece, o, d, kw);
      Applied(b, counts, files, piece, o, d, kw)
      == Outcome(board, Recounted(At(b, d), counts),
                 NewNode(kw.turn, kw.orient, [o.rank, o.file, d.rank, d.file], MoveNotation(b, files, piece, o, d, kw),
                         IsPawn(Landing(piece, kw)) && (d.rank == 0 || d.rank == 7), board,
                         RightsAsWritten(kw.castle, piece, o, d, kw.orient, At(b, d)),
                         Recorded(At(b, d), counts, kw.turn) + (if Passing(b, piece, o, d) then [-piece] else []), Unkeyed))
  {
  }

  /** The board after a move: the landing piece on the destination, the
      origin empty, and the `promotion` flag up exactly when a pawn lands on
      the first or last rank. */
  lemma AppliedLands(b: seq<seq<int>>, counts: map<int, int>, files: string, piece: int, o: Square, d: Square, kw: Kwargs)
    requires CanApply(b, counts, files, piece, o, d, kw)
    ensures var r := Applied(b, counts, files, piece, o, d, kw);
      && IsBoard(r.board) && r.node.board == r.board
      && At(r.board, d) == Landing(piece, kw)
      && (o != d ==> At(r.board, o) == 0)
      && r.node.move == [o.rank, o.file, d.rank, d.file] && r.node.turn == kw.turn && r.node.orientation == kw.orient
      && (r.node.promotion <==> IsPawn(Landing(piece, kw)) && (d.rank == 0 || d.rank == 7))
      && (kw.promo.Some? ==> Landing(piece, kw) == PromotionCode(kw.promo.value) * kw.turn)
  {
    var cleared := Put(b, o, 0);
    if Castling(piece, o, d) {
      var short := ShortCastle(o, d, kw.orient);
      assert At(Castled(cleared, short, piece, o, kw.orient), o) == 0;
    } else if Passing(b, piece, o, d) {
      assert At(EnPassanted(cleared, o, d), o) == 0;
    }
  }

  /** A move that neither castles nor takes en passant touches only its two squares. */
  lemma AppliedPlainMove(b: seq<seq<int>>, counts: map<int, int>, files: string, piece: int, o: Square, d: Square, kw: Kwargs)
    requires CanApply(b, counts, files, piece, o, d, kw)
    requires !Castling(piece, o, d) && !Passing(b, piece, o, d)
    ensures var r := Applied(b, counts, files, piece, o, d, kw);
      && IsBoard(r.board)
      && (forall q :: OnBoard(q) && q != o && q != d ==> At(r.board, q) == At(b, q))
      && r.node.captured == Recorded(At(b, d), counts, kw.turn)
      && r.counts == Recounted(At(b, d), counts)
  {
  }

  /** The square `castle` puts the rook on: beside the king's origin, on the rook's side. */
  function RookSquare(o: Square, step: int): Square {
    Square(o.rank, if step == 1 then o.file + 1 else Wrapped(o.file - 1))
  }

  /** The corner the rook leaves. */
  function CornerSquare(o: Square, step: int): Square {
    Square(o.rank, if step == 1 then 7 else 0)
  }

  /** `castle` empties the rook's corner, puts the king's-colour rook beside
      the king's origin (unless that is the corner itself), and leaves every
      other square alone; with no rook step nothing changes. */
  lemma CastledRook(b: seq<seq<int>>, short: bool, piece: int, o: Square, orient: int)
    requires IsBoard(b) && OnBoard(o) && (piece == 10 || piece == -10)
    requires RookStep(short, orient) == 1 ==> o.file < 7
    ensures var c := Castled(b, short, piece, o, orient); var step := RookStep(short, orient);
      && IsBoard(c)
      && (step == 0 ==> c == b)
      && (step != 0 ==>
            && At(c, CornerSquare(o, step)) == 0
            && (RookSquare(o, step) != CornerSquare(o, step) ==> At(c, RookSquare(o, step)) == (if piece == 10 then 5 else -5))
            && forall q :: OnBoard(q) && q != RookSquare(o, step) && q != CornerSquare(o, step) ==> At(c, q) == At(b, q))
  {
    CastlingRookCode();
  }

  /** Castling: the notation is `0-0` or `0-0-0`, and after the king lands
      the rook of the king's colour stands beside the king's origin on the
      side it came from, whose corner square is now empty. */
  lemma AppliedCastles(b: seq<seq<int>>, counts: map<int, int>, files: string, piece: int, o: Square, d: Square, kw: Kwargs)
    requires CanApply(b, counts, files, piece, o, d, kw) && Castling(piece, o, d) && kw.promo.None?
    ensures var r := Applied(b, counts, files, piece, o, d, kw); var step := RookStep(ShortCastle(o, d, kw.orient), kw.orient);
      && r.node.notation == CastleText(ShortCastle(o, d, kw.orient))
      && (step != 0 && d != CornerSquare(o, step) ==> At(r.board, CornerSquare(o, step)) == 0)
      && (step != 0 && d != RookSquare(o, step) && RookSquare(o, step) != CornerSquare(o, step) ==>
            At(r.board, RookSquare(o, step)) == (if piece == 10 then 5 else -5))
  {
    var short := ShortCastle(o, d, kw.orient);
    var cleared := Put(b, o, 0);
    var c := Castled(cleared, short, piece, o, kw.orient);
    CastledRook(cleared, short, piece, o, kw.orient);
    assert MovedBoard(b, piece, o, d, kw) == Put(c, d, piece);
  }

  /** En passant: the pawn beside the origin, on the side the capturing pawn
      moves to, is removed, and the record holds one pawn of the other side. */
  lemma AppliedEnPassant(b: seq<seq<int>>, counts: map<int, int>, files: string, piece: int, o: Square, d: Square, kw: Kwargs)
    requires CanApply(b, counts, files, piece, o, d, kw) && Passing(b, piece, o, d)
    ensures var r := Applied(b, counts, files, piece, o, d, kw);
      && IsBoard(r.board)
      && var beside := Square(o.rank, if d.file > o.file then o.file + 1 else o.file - 1);
      && OnBoard(beside) && (beside != d ==> At(r.board, beside) == 0)
      && r.node.captured == [-piece] && r.counts == counts
  {
  }

  /** Moving the piece on o to d removes one occurrence of whatever stood on
      d, so the recount after a capture there matches a fresh count of
      code k on the new board. */
  lemma OccurrencesAfterMove(b: seq<seq<int>>, o: Square, d: Square, k: int)
    requires IsBoard(b) && OnBoard(o) && OnBoard(d) && o != d && k in TalliedCodes
    requires Tallied(At(b, d)) ==> At(b, d) in TalliedCodes
    ensures Occurrences(Put(Put(b, o, 0), d, At(b, o)), k) == Recounted(At(b, d), Tally(b))[k]
  {
    OccurrencesPut(b, o, 0, k);
    OccurrencesPut(Put(b, o, 0), d, At(b, o), k);
  }

  /** The same for the whole count. */
  lemma TallyAfterMove(b: seq<seq<int>>, o: Square, d: Square)
    requires IsBoard(b) && OnBoard(o) && OnBoard(d) && o != d && (Tallied(At(b, d)) ==> At(b, d) in TalliedCodes)
    ensures Recounted(At(b, d), Tally(b)) == Tally(Put(Put(b, o, 0), d, At(b, o)))
  {
    var after := Recounted(At(b, d), Tally(b));
    var board := Put(Put(b, o, 0), d, At(b, o));
    forall k | k in TalliedCodes ensures after[k] == Tally(board)[k] {
      OccurrencesAfterMove(b, o, d, k);
    }
    assert after.Keys == Tally(board).Keys;
  }

  /** With the count taken from the board (`set_pos`) and the piece still on
      its origin, a plain move that promotes nothing leaves the count equal
      to that of the new board. */
  lemma AppliedKeepsTally(b: seq<seq<int>>, files: string, piece: int, o: Square, d: Square, kw: Kwargs)
    requires CanApply(b, Tally(b), files, piece, o, d, kw) && o != d && At(b, o) == piece
    requires !Castling(piece, o, d) && !Passing(b, piece, o, d) && kw.promo.None?
    ensures Applied(b, Tally(b), files, piece, o, d, kw).counts == Tally(Applied(b, Tally(b), files, piece, o, d, kw).board)
  {
    assert MovedBoard(b, piece, o, d, kw) == Put(Put(b, o, 0), d, piece);
    TallyAfterMove(b, o, d);
  }

  // ---------------------------------------------------------------------
  // The Board object

  class Board {
    /** The grid shown, `position` in the source. */
    var position: seq<seq<int>>
    /** `piece_count`: how many of each tallied code the board had at `set_pos`. */
    var pieceCount: map<int, int>
    /** `file_dict`: the letter written for each file. */
    var fileNames: string

    ghost predicate Valid()
      reads this
    {
      IsBoard(position) && |fileNames| == 8
    }

    /** A board with no position yet, no counts, and file 0 named "a". */
    constructor ()
      ensures position == [] && pieceCount == map[] && fileNames == Files
    {
      position, pieceCount, fileNames := [], map[], Files;
    }

    /** `set_pos`: show a copy of the given grid and count its pieces. */
    method SetPos(pos: seq<seq<int>>)
      requires IsBoard(pos) && |fileNames| == 8
      modifies this`position, this`pieceCount
      ensures Valid() && position == pos && pieceCount == Tally(pos)
      ensures fileNames == old(fileNames)
    {
      position := pos;
      pieceCount := Tally(pos);
    }

    /** `flip_file_notation`: the file letters mirrored. */
    method FlipFileNotation()
      requires Valid()
      modifies this`fileNames
      ensures Valid() && fileNames == Mirrored(old(fileNames))
    {
      var names := "";
      var f := 0;
      while f < 8
        invariant 0 <= f <= 8 && |names| == f
        invariant forall i :: 0 <= i < f ==> names[i] == fileNames[7 - i]
      {
        names := names + [fileNames[7 - f]];
        f := f + 1;
      }
      fileNames := names;
    }

    /** `notation_ambiguity`: scan the legal moves for the first rival. */
    method NotationAmbiguity(piece: int, o: Square, d: Square, orient: int, legal: seq<seq<int>>) returns (mark: string)
      requires Valid() && OnBoard(o) && AllMoves(legal)
      ensures mark == Disambiguation(position, fileNames, legal, piece, o, d, orient, 0)
    {
      var i := 0;
      while i < |legal|
        invariant 0 <= i <= |legal|
        invariant Disambiguation(position, fileNames, legal, piece, o, d, orient, 0)
               == Disambiguation(position, fileNames, legal, piece, o, d, orient, i)
      {
        var m := legal[i];
        if m[2] == d.rank && m[3] == d.file && position[m[0]][m[1]] == piece {
          if o.file != m[1] {
            return [fileNames[o.file]];
          }
          if o.rank != m[0] {
            return if orient == 1 then [DigitChar(8 - o.rank)] else [DigitChar(o.rank + 1)];
          }
        }
        i := i + 1;
      }
      return "";
    }

    /** `get_notation`. */
    method GetNotation(piece: int, o: Square, d: Square, orient: int, legal: seq<seq<int>>) returns (n: string)
      requires Valid() && OnBoard(o) && OnBoard(d) && AllMoves(legal) && (IsPawn(piece) || Lettered(piece))
      ensures n == Notation(position, fileNames, legal, piece, o, d, orient)
    {
      var lead := "";
      var pawnFile := "";
      if piece != 1 && piece != -1 {
        var ambiguity := NotationAmbiguity(piece, o, d, orient, legal);
        lead := [PieceLetter(piece)] + ambiguity;
      } else {
        pawnFile := [fileNames[o.file]];
      }
      var mark := "";
      var target := position[d.rank][d.file];
      if target != 0 || ((piece == 1 || piece == -1) && d.file != o.file && target == 0) {
        mark := pawnFile + "x";
      }
      assert mark == if !Captures(position, piece, o, d) then "" else if IsPawn(piece) then [fileNames[o.file]] + "x" else "x";
      var rank := if orient == 1 then DigitChar(8 - d.rank) else DigitChar(d.rank + 1);
      n := lead + mark + [fileNames[d.file]] + [rank];
    }

    /** `castle`: place the rook and empty its corner; the notation is the castling symbol. */
    method Castle(short: bool, piece: int, o: Square, orient: int) returns (notation: string)
      requires Valid() && OnBoard(o) && piece != 0 && (RookStep(short, orient) == 1 ==> o.file < 7)
      modifies this`position
      ensures Valid() && position == Castled(old(position), short, piece, o, orient)
      ensures notation == CastleText(short)
    {
      notation := if short then "0-0" else "0-0-0";
      if (short && orient == 1) || (!short && orient == -1) {
        position := Put(position, Square(o.rank, o.file + 1), FloorDiv(50, piece));
        position := Put(position, Square(o.rank, 7), 0);
      } else if (short && orient == -1) || (!short && orient == 1) {
        position := Put(position, Square(o.rank, Wrapped(o.file - 1)), FloorDiv(50, piece));
        position := Put(position, Square(o.rank, 0), 0);
      }
    }

    /** `en_passant`. */
    method EnPassant(o: Square, d: Square)
      requires Valid() && OnBoard(o) && OnBoard(d)
      modifies this`position
      ensures Valid() && position == EnPassanted(old(position), o, d)
    {
      if d.file > o.file {
        position := Put(position, Square(o.rank, o.file + 1), 0);
      } else {
        position := Put(position, Square(o.rank, Wrapped(o.file - 1)), 0);
      }
    }

    /** `process_move`: record the capture, empty the origin, castle or take
        en passant, update the castling rights, promote, place the piece,
        and return the new position (not yet in any tree). */
    method ProcessMove(piece: int, o: Square, d: Square, kw: Kwargs) returns (node: Node)
      requires Valid() && CanApply(position, pieceCount, fileNames, piece, o, d, kw)
      modifies this`position, this`pieceCount
      ensures Valid()
      ensures Outcome(position, pieceCount, node) == Applied(old(position), old(pieceCount), fileNames, piece, o, d, kw)
    {
      AppliedParts(position, pieceCount, fileNames, piece, o, d, kw);
      var orient := kw.orient;
      var notation := GetNotation(piece, o, d, orient, kw.legal);
      var cap := position[d.rank][d.file];
      var captured := RecordCapture(cap, kw.turn);
      var castleText, passed := MovePieces(piece, o, d, kw);
      if castleText.Some? {
        notation := castleText.value;
      } else if passed {
        captured := captured + [-piece];
      }
      var castle := UpdateRights(kw.castle, piece, o, d, orient, cap);
      var landing := Landing(piece, kw);
      if kw.promo.Some? {
        notation := notation + "=" + [PieceLetter(landing)];
      }
      assert notation == MoveNotation(old(position), fileNames, piece, o, d, kw);
      node := NewNode(kw.turn, orient, [o.rank, o.file, d.rank, d.file], notation,
                      (landing == 1 || landing == -1) && (d.rank == 0 || d.rank == 7),
                      position, castle, captured, Unkeyed);
    }

    /** The board half of `process_move`: empty the origin, castle or take
        en passant, and place the landing piece. Reports the castling
        symbol when the king castled and whether a pawn took en passant. */
    method MovePieces(piece: int, o: Square, d: Square, kw: Kwargs) returns (castleText: Option<string>, passed: bool)
      requires Valid() && OnBoard(o) && OnBoard(d) && (kw.promo.Some? ==> 1 <= kw.promo.value <= 4)
      requires Castling(piece, o, d) && RookStep(ShortCastle(o, d, kw.orient), kw.orient) == 1 ==> o.file < 7
      modifies this`position
      ensures Valid() && position == MovedBoard(old(position), piece, o, d, kw)
      ensures castleText == if Castling(piece, o, d) then Some(CastleText(ShortCastle(o, d, kw.orient))) else None
      ensures passed == Passing(old(position), piece, o, d)
    {
      var cap := position[d.rank][d.file];
      position := Put(position, o, 0);
      castleText, passed := None, false;
      if (piece == 10 || piece == -10) && Abs(o.file - d.file) > 1 {
        var text := Castle(ShortCastle(o, d, kw.orient), piece, o, kw.orient);
        castleText := Some(text);
      } else if (piece == 1 || piece == -1) && d.file != o.file && cap == 0 {
        passed := true;
        EnPassant(o, d);
      }
      if kw.promo.Some? {
        position := Put(position, d, PromotionCode(kw.promo.value) * kw.turn);
      } else {
        position := Put(position, d, piece);
      }
    }

    /** The capture bookkeeping of `process_move`: what is recorded for the
        piece on the destination, and its count lowered. */
    method RecordCapture(cap: int, turn: int) returns (captured: seq<int>)
      requires Tallied(cap) ==> cap in pieceCount
      modifies this`pieceCount
      ensures captured == Recorded(cap, old(pieceCount), turn)
      ensures pieceCount == Recounted(cap, old(pieceCount))
    {
      captured := [];
      if cap == 9 || cap == -9 {
        captured := captured + [if pieceCount[cap] > 1 then -turn else cap];
        pieceCount := pieceCount[cap := pieceCount[cap] - 1];
      } else if 2 <= Abs(cap) <= 5 {
        captured := captured + [if pieceCount[cap] > 2 then -turn else cap];
        pieceCount := pieceCount[cap := pieceCount[cap] - 1];
      } else if cap != 0 {
        captured := captured + [cap];
      }
    }

    /** The rights bookkeeping of `process_move`, step by step: a rook's
        right is subtracted whenever its side's half is positive, and a
        negative half is clamped to 0 at the end. */
    static method UpdateRights(castle: int, piece: int, o: Square, d: Square, orient: int, cap: int) returns (c: int)
      ensures c == RightsAsWritten(castle, piece, o, d, orient, cap)
    {
      var blackC := castle % 4;
      var whiteC := (castle - blackC) / 4;
      whiteC := MoverRights(whiteC, piece, 5, 10, o.file, orient);
      blackC := MoverRights(blackC, piece, -5, -10, o.file, orient);
      if cap == 5 && whiteC > 0 {
        whiteC := TakenRights(whiteC, d.file, orient);
      } else if cap == -5 && blackC > 0 {
        blackC := TakenRights(blackC, d.file, orient);
      }
      assert whiteC == TakenHalf(MoverHalf(WhiteHalf(castle), piece, 5, 10, o.file, orient, false), cap, 5, d.file, orient, false);
      assert blackC == TakenHalf(MoverHalf(BlackHalf(castle), piece, -5, -10, o.file, orient, false), cap, -5, d.file, orient, false);
      if whiteC < 0 {
        whiteC := 0;
      }
      if blackC < 0 {
        blackC := 0;
      }
      c := whiteC * 4 + blackC;
    }

    /** One side's rights after its own move (`rook` and `king` are that side's codes). */
    static method MoverRights(half: int, piece: int, rook: int, king: int, file: int, orient: int) returns (h: int)
      ensures h == MoverHalf(half, piece, rook, king, file, orient, false)
    {
      h := half;
      if h > 0 {
        if (piece == rook && file == 7 && orient == 1) || (piece == rook && file == 0 && orient == -1) {
          h := h - 2;
        }
        if (piece == rook && file == 0 && orient == 1) || (piece == rook && file == 7 && orient == -1) {
          h := h - 1;
        }
        if piece == king {
          h := 0;
        }
      }
    }

    /** One side's rights after its rook is captured on `file`; the capture
        block runs only while that side still has a positive half. */
    static method TakenRights(half: int, file: int, orient: int) returns (h: int)
      requires half > 0
      ensures h == TakenHalf(half, 5, 5, file, orient, false)
    {
      h := half;
      if (file == 7 && orient == 1) || (file == 0 && orient == -1) {
        h := h - 2;
      } else if (file == 0 && orient == 1) || (file == 7 && orient == -1) {
        h := h - 1;
      }
    }
  }
}
