/**
 * The engine object of Enginegton.h / Enginegton.cpp: the request codec
 * (`ParseRequest`, the `GetMoves` and `PostMove` replies, `Flip`), the
 * make/unmake pair `ProcessMove`/`UndoMove` with its three logs, and the
 * small counting loops `RayIndex` and `BitCount`.
 *
 * Squares are numbered row-major from the top-left corner of the engine's
 * board, which always has White at the bottom; a request sent from Black's
 * side is mirrored square by square (`63 - i`). The Zobrist tables are
 * random numbers chosen at start-up: the model takes them as arbitrary
 * functions fixed when the engine is constructed.
 */
module Engine {
  import opened Bits
  import opened Text
  import opened Bitboards
  import opened MoveQueues
  import opened PieceGroups
  import opened Zobrist

  // ---------------------------------------------------------------------
  // Lookup tables of the class
  // ---------------------------------------------------------------------

  /** `fen_read`: '0' is an empty square, upper case letters White's pieces
      0 .. 5 and lower case letters Black's 6 .. 11. `operator[]` on any
      other character inserts and returns the default 0. */
  function FenRead(ch: char): (id: int)
    ensures -1 <= id < 12
    ensures id == -1 <==> ch == '0'
  {
    match ch
    case '0' => -1
    case 'P' => 0 case 'N' => 1 case 'B' => 2 case 'R' => 3 case 'Q' => 4 case 'K' => 5
    case 'p' => 6 case 'n' => 7 case 'b' => 8 case 'r' => 9 case 'q' => 10 case 'k' => 11
    case _ => 0
  }

  const WhiteLetters: string := "PNBRQK"
  const BlackLetters: string := "pnbrqk"

  /** The letter of kind k (pawn, knight, bishop, rook, queen, king) reads as
      k for White and k + 6 for Black. */
  lemma FenReadLetters(k: int)
    requires 0 <= k < 6
    ensures FenRead(WhiteLetters[k]) == k && FenRead(BlackLetters[k]) == k + 6
  {
  }

  /** `requests`: the four request words of the mailbox. */
  const Requests: map<string, int> := map["get" := 0, "find" := 1, "stop" := 2, "term" := 3]

  lemma RequestWords()
    ensures Requests.Keys == {"get", "find", "stop", "term"}
    ensures forall r | r in Requests :: 0 <= Requests[r] < 4
  {
  }

  /** The castling masks: the squares between king and rook that must be
      empty (and, for the long side, the two squares the king crosses). */
  const WhiteLongCastle: bv64 := 0x0E00_0000_0000_0000
  const WhiteShortCastle: bv64 := 0x6000_0000_0000_0000
  const WhiteLongSub: bv64 := 0x0C00_0000_0000_0000
  const BlackLongCastle: bv64 := 0x0000_0000_0000_000E
  const BlackShortCastle: bv64 := 0x0000_0000_0000_0060
  const BlackLongSub: bv64 := 0x0000_0000_0000_000C

  /** Each castling mask holds exactly its squares. */
  lemma CastlingMaskSquares(t: int)
    ensures Has(WhiteLongCastle, t) <==> t == 57 || t == 58 || t == 59
    ensures Has(WhiteShortCastle, t) <==> t == 61 || t == 62
    ensures Has(WhiteLongSub, t) <==> t == 58 || t == 59
    ensures Has(BlackLongCastle, t) <==> t == 1 || t == 2 || t == 3
    ensures Has(BlackShortCastle, t) <==> t == 5 || t == 6
    ensures Has(BlackLongSub, t) <==> t == 2 || t == 3
  {
    WhiteMaskJoins();
    BlackMaskJoins();
    ThreeSquares(57, 58, 59, t);
    ThreeSquares(1, 2, 3, t);
    TwoSquaresOf(61, 62, t);
    TwoSquaresOf(58, 59, t);
    TwoSquaresOf(5, 6, t);
    TwoSquaresOf(2, 3, t);
  }

  /** The literals of the masks, square by square. */
  lemma WhiteMaskJoins()
    ensures WhiteLongCastle == Join(Join(Bit(57), 58), 59)
    ensures WhiteShortCastle == Join(Bit(61), 62)
    ensures WhiteLongSub == Join(Bit(58), 59)
  {
    ToBvValue(57); ToBvValue(58); ToBvValue(59); ToBvValue(61); ToBvValue(62);
  }

  lemma BlackMaskJoins()
    ensures BlackLongCastle == Join(Join(Bit(1), 2), 3)
    ensures BlackShortCastle == Join(Bit(5), 6)
    ensures BlackLongSub == Join(Bit(2), 3)
  {
    ToBvValue(1); ToBvValue(2); ToBvValue(3); ToBvValue(5); ToBvValue(6);
  }

  lemma TwoSquaresOf(a: int, b: int, t: int)
    requires 0 <= a < 64 && 0 <= b < 64
    ensures Has(Join(Bit(a), b), t) <==> t == a || t == b
  {
    var m := Bit(a);
    HasJoin(m, b, t);
    HasBit(a, t);
  }

  lemma ThreeSquares(a: int, b: int, c: int, t: int)
    requires 0 <= a < 64 && 0 <= b < 64 && 0 <= c < 64
    ensures Has(Join(Join(Bit(a), b), c), t) <==> t == a || t == b || t == c
  {
    var m := Join(Bit(a), b);
    HasJoin(m, c, t);
    TwoSquaresOf(a, b, t);
  }

  // ---------------------------------------------------------------------
  // Moves as text
  // ---------------------------------------------------------------------

  /** `Flip(move)`: the move seen from the other side of the board. */
  function FlipMove(m: Move): (f: Move)
    ensures f.kind == m.kind && f.rating == m.rating && f.moveMask == m.moveMask
    ensures f.origin + m.origin == 63 && f.destination + m.destination == 63
  {
    m.(origin := 63 - m.origin, destination := 63 - m.destination)
  }

  lemma FlipMoveInvolution(m: Move)
    ensures FlipMove(FlipMove(m)) == m
  {
  }

  /** Mirroring a square of the board mirrors both its rank and its file. */
  lemma FlipMoveMirrors(m: Move)
    requires 0 <= m.origin < 64 && 0 <= m.destination < 64
    ensures var f := FlipMove(m);
      && 0 <= f.origin < 64 && 0 <= f.destination < 64
      && Rank(f.origin) == 7 - Rank(m.origin) && File(f.origin) == 7 - File(m.origin)
      && Rank(f.destination) == 7 - Rank(m.destination) && File(f.destination) == 7 - File(m.destination)
  {
  }

  /** The move as the requester sees it: mirrored when the request came
      from Black's side. */
  function Oriented(m: Move, orientation: int): Move {
    if orientation == -1 then FlipMove(m) else m
  }

  /** C++'s `sq % 8`, which truncates toward zero. */
  function CppRem8(a: int): (r: int)
    ensures a >= 0 ==> r == a % 8
    ensures -8 < r < 8 && (a - r) % 8 == 0
  {
    if a >= 0 then a % 8 else -((-a) % 8)
  }

  /** `to_string((sq - sq % 8) >> 3) + to_string(sq % 8)`; `sq - sq % 8`
      is a multiple of 8, so the shift is an exact division. */
  function SquareText(sq: int): string {
    var f := CppRem8(sq);
    IntToString((sq - f) / 8) + IntToString(f)
  }

  /** One move of a reply: both squares, then the type. */
  function MoveText(m: Move): string {
    SquareText(m.origin) + SquareText(m.destination) + IntToString(m.kind)
  }

  /** On the board, a move is written as five digits: rank and file of the
      origin, rank and file of the destination, and the type. */
  lemma MoveTextDigits(m: Move)
    requires 0 <= m.origin < 64 && 0 <= m.destination < 64 && 0 <= m.kind < 10
    ensures MoveText(m) == [DigitChar(Rank(m.origin)), DigitChar(File(m.origin)),
                            DigitChar(Rank(m.destination)), DigitChar(File(m.destination)), DigitChar(m.kind)]
  {
    SquareDigits(m.origin);
    SquareDigits(m.destination);
  }

  lemma SquareDigits(sq: int)
    requires 0 <= sq < 64
    ensures SquareText(sq) == [DigitChar(Rank(sq)), DigitChar(File(sq))]
  {
    assert (sq - sq % 8) / 8 == sq / 8;
  }

  /** The moves of a `GetMoves` reply, one after another. */
  function MovesText(ms: seq<Move>, orientation: int): string
    decreases |ms|
  {
    if ms == [] then "" else MovesText(ms[..|ms| - 1], orientation) + MoveText(Oriented(ms[|ms| - 1], orientation))
  }

  /** The one character `std::to_string` writes for a flag. */
  function FlagDigit(b: bool): char {
    if b then '1' else '0'
  }

  /** A move the five-digit reply format can carry: both squares on the
      board and a one-digit type. */
  predicate Writable(m: Move) {
    0 <= m.origin < 64 && 0 <= m.destination < 64 && 0 <= m.kind < 10
  }

  /** The five digits of a writable move as the requester sees it. */
  function MoveDigits5(m: Move, orientation: int): (s: string)
    requires Writable(m)
    ensures |s| == 5 && AllDigits(s)
  {
    var o := Oriented(m, orientation);
    [DigitChar(Rank(o.origin)), DigitChar(File(o.origin)), DigitChar(Rank(o.destination)), DigitChar(File(o.destination)), DigitChar(o.kind)]
  }

  lemma OrientedWritable(m: Move, orientation: int)
    requires Writable(m)
    ensures Writable(Oriented(m, orientation)) && Oriented(m, orientation).kind == m.kind
  {
  }

  /** `PostMove(move)`: "f/" and the move as `GetMoves` writes it, after
      `Flip` when the request came from Black's side. */
  function PostText(m: Move, orientation: int): string {
    "f/" + MoveText(Oriented(m, orientation))
  }

  /** A writable move is posted as "f/" and five digits, seven characters. */
  lemma PostTextDigits(m: Move, orientation: int)
    requires Writable(m)
    ensures PostText(m, orientation) == "f/" + MoveDigits5(m, orientation)
    ensures |PostText(m, orientation)| == 7
  {
    OrientedWritable(m, orientation);
    MoveTextDigits(Oriented(m, orientation));
  }

  /** A list of writable moves is written as five digits each, in order:
      block i holds move i. */
  lemma {:induction false} MovesTextBlocks(ms: seq<Move>, orientation: int)
    requires forall i :: 0 <= i < |ms| ==> Writable(ms[i])
    ensures |MovesText(ms, orientation)| == 5 * |ms|
    ensures forall i :: 0 <= i < |ms| ==> Block(MovesText(ms, orientation), i) == MoveDigits5(ms[i], orientation)
    decreases |ms|
  {
    if ms != [] {
      var front, last := ms[..|ms| - 1], ms[|ms| - 1];
      MovesTextBlocks(front, orientation);
      MovesTextSnoc(ms, orientation);
      var t, u := MovesText(front, orientation), MoveDigits5(last, orientation);
      forall i | 0 <= i < |ms| ensures Block(t + u, i) == MoveDigits5(ms[i], orientation) {
        if i < |front| {
          BlockAppend(t, u, i);
          assert ms[i] == front[i];
        } else {
          BlockLast(t, u, i);
        }
      }
    }
  }

  /** Writing one more move appends its five digits. */
  lemma MovesTextSnoc(ms: seq<Move>, orientation: int)
    requires ms != [] && Writable(ms[|ms| - 1])
    ensures MovesText(ms, orientation) == MovesText(ms[..|ms| - 1], orientation) + MoveDigits5(ms[|ms| - 1], orientation)
  {
    var last := ms[|ms| - 1];
    OrientedWritable(last, orientation);
    MoveTextDigits(Oriented(last, orientation));
  }

  lemma BlockLast(t: string, u: string, k: int)
    requires |t| == 5 * k && |u| == 5 && k >= 0
    ensures Block(t + u, k) == u
  {
    assert (t + u)[5 * k..5 * k + 5] == u;
  }

  /** Block i of five characters. */
  function Block(s: string, i: int): string
    requires 0 <= 5 * i && 5 * i + 5 <= |s|
  {
    s[5 * i..5 * i + 5]
  }

  lemma BlockAppend(t: string, u: string, i: int)
    requires 0 <= 5 * i && 5 * i + 5 <= |t|
    ensures Block(t + u, i) == Block(t, i)
  {
  }

  /** The reply of `GetMoves`: "/", the moves, a newline and the four flags
      (check, checkmate, stalemate, insufficient material). */
  function MovesReply(ms: seq<Move>, orientation: int, check: int, checkmate: bool, stalemate: bool, drawn: bool): string {
    "/" + MovesText(ms, orientation) + "\n" + [FlagDigit(check > 0), FlagDigit(checkmate), FlagDigit(stalemate), FlagDigit(drawn)]
  }

  /** The reply's layout: the slash, five characters per move, the newline
      and the four flag digits. */
  lemma MovesReplyLayout(ms: seq<Move>, orientation: int, check: int, checkmate: bool, stalemate: bool, drawn: bool)
    requires forall i :: 0 <= i < |ms| ==> Writable(ms[i])
    ensures var r := MovesReply(ms, orientation, check, checkmate, stalemate, drawn);
      && |r| == 5 * |ms| + 6 && r[0] == '/' && r[5 * |ms| + 1] == '\n'
      && r[5 * |ms| + 2..] == [FlagDigit(check > 0), FlagDigit(checkmate), FlagDigit(stalemate), FlagDigit(drawn)]
  {
    assert |MovesText(ms, orientation)| == 5 * |ms| by {
      MovesTextBlocks(ms, orientation);
    }
  }

  // ---------------------------------------------------------------------
  // Insufficient material
  // ---------------------------------------------------------------------

  /** The side cannot force mate: three pieces of which two are knights, or
      under a rook's worth of material and no pawn left to promote. */
  predicate CannotMate(g: Group) {
    || (|g.pieces| == 3 && |Holding(g.pieces, g.pieces.Keys, 1, 7)| == 2)
    || (g.material < 50 && |Holding(g.pieces, g.pieces.Keys, 0, 6)| == 0)
  }

  /** No square adds a negative amount, so a sum is at least what any one
      of its squares adds. */
  lemma {:induction false} TallyAtLeast(p: map<int, int>, s: int, upto: int, pawns: bool)
    requires 0 <= s < upto
    ensures Tally(p, upto, pawns) >= Share(p, s, pawns)
    decreases upto
  {
    if s < upto - 1 {
      TallyAtLeast(p, s, upto - 1, pawns);
      assert Tally(p, upto - 1, pawns) >= 0 by {
        TallyNonNegative(p, upto - 1, pawns);
      }
    } else {
      TallyNonNegative(p, upto - 1, pawns);
    }
  }

  lemma {:induction false} TallyNonNegative(p: map<int, int>, upto: int, pawns: bool)
    ensures Tally(p, upto, pawns) >= 0
    decreases upto
  {
    if upto > 0 {
      TallyNonNegative(p, upto - 1, pawns);
    }
  }

  /** A sum over squares that add nothing is 0. */
  lemma {:induction false} TallyNothing(p: map<int, int>, upto: int, pawns: bool)
    requires forall s :: 0 <= s < upto ==> Share(p, s, pawns) == 0
    ensures Tally(p, upto, pawns) == 0
    decreases upto
  {
    if upto > 0 {
      TallyNothing(p, upto - 1, pawns);
    }
  }

  /** A side left with its king alone cannot mate. */
  lemma LoneKingCannotMate(g: Group)
    requires g.material == Material(g.pieces)
    requires forall s :: s in g.pieces ==> IsKing(g.pieces[s])
    ensures CannotMate(g)
  {
    forall s | 0 <= s < 64 ensures Share(g.pieces, s, true) == 0 {
      if s in g.pieces {
        assert g.pieces[s] == 5 || g.pieces[s] == 11;
      }
    }
    TallyNothing(g.pieces, 64, true);
    assert forall t :: t in g.pieces ==> !(g.pieces[t] == 0 || g.pieces[t] == 6);
    assert Holding(g.pieces, g.pieces.Keys, 0, 6) == {};
  }

  /** A side with its king and a rook, a queen or a pawn on the board
      keeps mating material. */
  lemma MajorPieceCanMate(g: Group, k: int, r: int)
    requires Placed(g) && g.material == Material(g.pieces)
    requires k in g.pieces && IsKing(g.pieces[k]) && 0 <= r < 64 && r in g.pieces
    requires g.pieces[r] in {0, 3, 4, 6, 9, 10}
    ensures !CannotMate(g)
  {
    if IsPawn(g.pieces[r]) {
      assert r in Holding(g.pieces, g.pieces.Keys, 0, 6);
    } else {
      TallyAtLeast(g.pieces, r, 64, true);
      assert g.material >= 50;
    }
    var knights := Holding(g.pieces, g.pieces.Keys, 1, 7);
    if |g.pieces| == 3 && |knights| == 2 {
      assert k !in knights && r !in knights && k != r;
      assert knights + {k, r} <= g.pieces.Keys;
      assert |knights + {k, r}| == 4;
      SubsetCard(knights + {k, r}, g.pieces.Keys);
      assert false;
    }
  }

  /** The fourth flag of the `GetMoves` reply: neither side can force mate. */
  predicate InsufficientMaterial(w: Group, b: Group) {
    CannotMate(w) && CannotMate(b)
  }

  lemma SubsetCard(a: set<int>, b: set<int>)
    requires a <= b
    ensures |a| <= |b|
  {
    assert b == a + (b - a);
  }

  // ---------------------------------------------------------------------
  // Castling rights of a request
  // ---------------------------------------------------------------------

  /** `b = c % 4`, `w = (c - b) >> 2`: the request packs White's rights in
      the upper two bits and Black's in the lower two. C++'s `%` truncates
      toward zero, so a negative value gives a remainder of its own sign;
      `c - b` is then a multiple of 4, which the shift divides exactly. */
  function CastleSplit(c: int): (wb: (int, int))
    ensures wb.0 * 4 + wb.1 == c
    ensures c >= 0 ==> 0 <= wb.1 <= 3 && wb.0 >= 0
    ensures c < 0 ==> -3 <= wb.1 <= 0 && wb.0 <= 0
  {
    var b := if c >= 0 then c % 4 else -((-c) % 4);
    ((c - b) / 4, b)
  }

  /** The split and the packing `(w << 2) + b` used to index `zob_castle`
      undo each other on 0 .. 15. */
  lemma CastleSplitJoin(c: int)
    requires 0 <= c <= 15
    ensures var (w, b) := CastleSplit(c); 0 <= w <= 3 && 0 <= b <= 3 && w * 4 + b == c
  {
  }

  lemma CastleJoinSplit(w: int, b: int)
    requires 0 <= w <= 3 && 0 <= b <= 3
    ensures CastleSplit(w * 4 + b) == (w, b)
  {
  }

  /** The value -8, which the application sends for a White king off its
      square (see `App.CastlingChoicesAsWrittenWrong`), splits into rights
      -2 for White and 0 for Black, and the key index `(w << 2) + b` is -8,
      outside `zob_castle`. */
  lemma NegativeCastlingSplit()
    ensures CastleSplit(-8) == (-2, 0)
    ensures var (w, b) := CastleSplit(-8); !(0 <= w * 4 + b < 16)
  {
  }

  // ---------------------------------------------------------------------
  // Promotion ids
  // ---------------------------------------------------------------------

  /** `Promote(in)`: the piece a pawn of the side to move becomes. */
  function PromotedId(turn: int, kind: int): int {
    if turn == -1 then kind + 6 else kind
  }

  /** `Unpromote()`: the pawn of the side to move. */
  function PawnId(turn: int): int {
    if turn == -1 then 6 else 0
  }

  /** Promotion types 1 .. 4 give a knight, bishop, rook or queen of the
      side to move, and `Unpromote` gives its pawn. */
  lemma PromotionIds(turn: int, kind: int)
    requires turn == 1 || turn == -1
    requires 1 <= kind <= 4
    ensures IsId(PromotedId(turn, kind)) && Belongs(PromotedId(turn, kind), turn)
    ensures !IsPawn(PromotedId(turn, kind)) && !IsKing(PromotedId(turn, kind))
    ensures IsPawn(PawnId(turn)) && Belongs(PawnId(turn), turn)
    ensures PromotedId(turn, kind) - PawnId(turn) == kind
  {
  }

  // ---------------------------------------------------------------------
  // The en passant key
  // ---------------------------------------------------------------------

  /** The index `ProcessMove` gives `zob_en_passant` for a double pawn
      step: `en_p_sqr % 7`. */
  function EnPassantKeyAsWritten(passed: int): int {
    passed % 7
  }

  /** It is not the file: after e2-e4 (52 to 36) the passed square 44 is on
      file 4 and gets key 2, and the a- and h-file squares of the sixth rank
      (16 and 23) share key 2. */
  lemma EnPassantKeyAsWrittenMisfiles()
    ensures EnPassantKeyAsWritten(52 + 8 * -2 + 8) == 2 && File(52) == 4
    ensures EnPassantKeyAsWritten(16) == EnPassantKeyAsWritten(23) && File(16) != File(23)
  {
  }

  /** The key by the file of the passed square, as `ParseRequest` indexes
      `zob_en_passant` with the file of the last move. */
  function EnPassantKey(passed: int): (k: int)
    requires 0 <= passed < 64
    ensures 0 <= k < 8
  {
    passed % 8
  }

  /** For a double step the key is the file the pawn moved along, which is
      the index `ParseRequest` uses for the same move. */
  lemma EnPassantKeyIsFile(origin: int, destination: int, turn: int)
    requires 0 <= origin < 64 && 0 <= destination < 64 && Abs(origin - destination) == 16
    requires turn == 1 || turn == -1
    requires 0 <= destination + 8 * turn < 64
    ensures EnPassantKey(destination + 8 * turn) == File(origin) == File(destination)
  {
  }

  // ---------------------------------------------------------------------
  // The hash of a request's board
  // ---------------------------------------------------------------------

  /** `zob_table[sq][id]`: the key of a piece on a square (0 off the table). */
  function Key(table: seq<seq<bv64>>, sq: int, id: int): bv64 {
    if 0 <= sq < |table| && 0 <= id < |table[sq]| then table[sq][id] else 0
  }

  /** `keys[i]` of a one-dimensional key table (0 off the table). */
  function Entry(keys: seq<bv64>, i: int): bv64 {
    if 0 <= i < |keys| then keys[i] else 0
  }

  /** The key of cell k: at square k, or at square 63 - k when `mirrored`. */
  function CellKey(zob: seq<seq<bv64>>, k: int, cell: int, mirrored: bool): bv64 {
    if mirrored then Key(zob, 63 - k, cell) else Key(zob, k, cell)
  }

  /** The xor of the keys of the pieces in the first n cells of the board. */
  function BoardHash(zob: seq<seq<bv64>>, board: seq<int>, n: int, mirrored: bool): bv64
    requires 0 <= n <= |board|
    decreases n
  {
    if n == 0 then 0
    else Toggled(BoardHash(zob, board, n - 1, mirrored), board[n - 1] != -1, CellKey(zob, n - 1, board[n - 1], mirrored))
  }

  /** Cells share their hash when they agree on the first n cells. */
  lemma {:induction false} BoardHashPrefix(zob: seq<seq<bv64>>, a: seq<int>, b: seq<int>, n: int, mirrored: bool)
    requires 0 <= n <= |a| && n <= |b| && a[..n] == b[..n]
    ensures BoardHash(zob, a, n, mirrored) == BoardHash(zob, b, n, mirrored)
    decreases n
  {
    if n > 0 {
      assert a[n - 1] == a[..n][n - 1] == b[..n][n - 1] == b[n - 1];
      assert a[..n - 1] == a[..n][..n - 1] == b[..n][..n - 1] == b[..n - 1];
      BoardHashPrefix(zob, a, b, n - 1, mirrored);
    }
  }

  /** `board_state_bitboard` after the first n cells: the bits of the cells
      that hold a piece. */
  function Occupied(board: seq<int>, n: int): bv64
    requires 0 <= n <= |board| && n <= 64
    decreases n
  {
    if n == 0 then 0 else Mark(Occupied(board, n - 1), n - 1, board[n - 1] != -1)
  }

  /** Cells share their occupied squares when they agree on the first n. */
  lemma {:induction false} OccupiedPrefix(a: seq<int>, b: seq<int>, n: int)
    requires 0 <= n <= |a| && n <= |b| && n <= 64 && a[..n] == b[..n]
    ensures Occupied(a, n) == Occupied(b, n)
    decreases n
  {
    if n > 0 {
      assert a[..n - 1] == a[..n][..n - 1] && b[..n - 1] == b[..n][..n - 1];
      assert a[n - 1] == a[..n][n - 1] && b[n - 1] == b[..n][n - 1];
      OccupiedPrefix(a, b, n - 1);
    }
  }

  /** Bit k of the occupied squares is set exactly when cell k holds a piece. */
  lemma {:induction false} OccupiedCells(board: seq<int>, n: int)
    requires 0 <= n <= |board| && n <= 64
    ensures Occupancy(Occupied(board, n), board[..n])
    decreases n
  {
    if n > 0 {
      OccupiedCells(board, n - 1);
      var prior := Occupied(board, n - 1);
      MarkCells(prior, board[..n - 1], board[n - 1]);
      assert board[..n - 1] + [board[n - 1]] == board[..n];
    }
  }

  // ---------------------------------------------------------------------
  // Reading a request
  // ---------------------------------------------------------------------

  /** `t[0] == '-'` means Black to move. */
  function TurnOf(t: string): int
    requires |t| >= 1
  {
    if t[0] == '-' then -1 else 1
  }

  /** `t[1] == '-'` means the board was sent from Black's side. */
  function OrientationOf(t: string): int
    requires |t| >= 2
  {
    if t[1] != '-' then 1 else -1
  }

  /** Cell k of the engine's board: request character k, or 63 - k when
      the request was sent from Black's side, read through `fen_read`. */
  function Cell(b: string, orientation: int, k: int): (id: int)
    requires |b| >= 64 && 0 <= k < 64
    ensures -1 <= id < 12
  {
    if orientation == -1 then FenRead(b[63 - k]) else FenRead(b[k])
  }

  /** The first n cells, in the order the board vector is pushed. */
  function Cells(b: string, orientation: int, n: int): (board: seq<int>)
    requires |b| >= 64 && 0 <= n <= 64
    ensures |board| == n && forall k {:trigger board[k]} :: 0 <= k < n ==> board[k] == Cell(b, orientation, k)
    decreases n
  {
    if n == 0 then [] else Cells(b, orientation, n - 1) + [Cell(b, orientation, n - 1)]
  }

  /** The engine's board for a request. */
  function RequestBoard(b: string, orientation: int): (board: seq<int>)
    requires |b| >= 64
    ensures |board| == 64 && forall k {:trigger board[k]} :: 0 <= k < 64 ==> board[k] == Cell(b, orientation, k) && -1 <= board[k] < 12
  {
    Cells(b, orientation, 64)
  }

  /** The last move as four digits 0 .. 7: rank and file of both squares. */
  predicate MoveDigits(m: string) {
    |m| >= 4 && forall k :: 0 <= k < 4 ==> '0' <= m[k] <= '7'
  }

  /** The last move of a request as four coordinates of the engine's board. */
  function LastMove(m: string, orientation: int): (mv: seq<int>)
    requires MoveDigits(m)
    ensures |mv| == 4 && forall k :: 0 <= k < 4 ==> 0 <= mv[k] < 8
  {
    var r0, f0, r1, f1 := m[0] as int - '0' as int, m[1] as int - '0' as int, m[2] as int - '0' as int, m[3] as int - '0' as int;
    if orientation == 1 then [r0, f0, r1, f1] else [7 - r0, 7 - f0, 7 - r1, 7 - f1]
  }

  /** The last move stayed on its file, covered two ranks and ended on a pawn. */
  predicate DoubleStep(board: seq<int>, mv: seq<int>)
    requires |board| == 64 && |mv| == 4 && forall k :: 0 <= k < 4 ==> 0 <= mv[k] < 8
  {
    mv[1] == mv[3] && Abs(mv[0] - mv[2]) == 2 && IsPawn(board[mv[2] * 8 + mv[3]])
  }

  /** The square the double step passed over, seen from the side to move. */
  function PassedSquare(mv: seq<int>, turn: int): int
    requires |mv| == 4
  {
    if turn == 1 then mv[0] * 8 + mv[1] + 8 else mv[0] * 8 + mv[1] - 8
  }

  /** What `ParseRequest` demands of its request: a 64-character board, the
      two turn characters, the castling number 0 .. 15 in decimal and a last
      move of four square digits or starting with '-'; a double step onto a
      pawn must have passed over a square of the board. */
  predicate WellFormedRequest(b: string, t: string, m: string, c: string) {
    && |b| >= 64 && |t| >= 2 && |m| >= 1
    && |c| >= 1 && AllDigits(c) && StringToNat(c) < 16
    && (m[0] != '-' ==> MoveDigits(m))
    && (m[0] != '-' && DoubleStep(RequestBoard(b, OrientationOf(t)), LastMove(m, OrientationOf(t)))
        ==> 0 <= PassedSquare(LastMove(m, OrientationOf(t)), TurnOf(t)) < 64)
  }

  /** A last move was sent and it was a double step onto a pawn. */
  predicate EnPassantLive(board: seq<int>, m: string, orientation: int)
    requires |board| == 64 && |m| >= 1 && (m[0] != '-' ==> MoveDigits(m))
  {
    m[0] != '-' && DoubleStep(board, LastMove(m, orientation))
  }

  /** The file of the last move's destination, which keys `zob_en_passant`. */
  function EnPassantFile(m: string, orientation: int): (f: int)
    requires |m| >= 1 && (m[0] != '-' ==> MoveDigits(m))
    ensures 0 <= f < 8
  {
    if m[0] != '-' then LastMove(m, orientation)[1] else 0
  }

  /** The en passant mask a request leaves: the square the double step
      passed over, or nothing. */
  function RequestEnPassant(b: string, t: string, m: string): bv64
    requires |b| >= 64 && |t| >= 2 && |m| >= 1 && (m[0] != '-' ==> MoveDigits(m))
  {
    var o := OrientationOf(t);
    if EnPassantLive(RequestBoard(b, o), m, o) && 0 <= PassedSquare(LastMove(m, o), TurnOf(t)) < 64
    then Bit(PassedSquare(LastMove(m, o), TurnOf(t)))
    else 0
  }

  // ---------------------------------------------------------------------
  // The board hash ignores the orientation
  // ---------------------------------------------------------------------

  /** The keys of request characters lo .. 63, each at its request index. */
  function RequestHashFrom(zob: seq<seq<bv64>>, b: string, lo: int): bv64
    requires |b| >= 64 && 0 <= lo <= 64
    decreases 64 - lo
  {
    if lo == 64 then 0
    else Toggled(RequestHashFrom(zob, b, lo + 1), FenRead(b[lo]) != -1, Key(zob, lo, FenRead(b[lo])))
  }

  /** The mirrored board keyed at mirrored squares is the request keyed at
      its own indices, read from the end. */
  lemma {:induction false} MirroredHashIsRequestHash(zob: seq<seq<bv64>>, b: string, n: int)
    requires |b| >= 64 && 0 <= n <= 64
    ensures BoardHash(zob, RequestBoard(b, -1), n, true) == RequestHashFrom(zob, b, 64 - n)
    decreases n
  {
    if n > 0 {
      MirroredHashIsRequestHash(zob, b, n - 1);
    }
  }

  /** Folding the same keys from either end meets in the middle. */
  lemma {:induction false} HashesMeet(zob: seq<seq<bv64>>, b: string, i: int)
    requires |b| >= 64 && 0 <= i <= 64
    ensures Mix(BoardHash(zob, RequestBoard(b, 1), i, false), RequestHashFrom(zob, b, i)) == BoardHash(zob, RequestBoard(b, 1), 64, false)
    decreases 64 - i
  {
    var u := RequestBoard(b, 1);
    if i == 64 {
      ZeroUnit(BoardHash(zob, u, 64, false));
    } else {
      HashesMeet(zob, b, i + 1);
      var on, key := FenRead(b[i]) != -1, Key(zob, i, FenRead(b[i]));
      var head, tail := BoardHash(zob, u, i, false), RequestHashFrom(zob, b, i + 1);
      assert u[i] == FenRead(b[i]);
      assert BoardHash(zob, u, i + 1, false) == Toggled(head, on, key);
      assert RequestHashFrom(zob, b, i) == Toggled(tail, on, key);
      MoveIn(head, tail, on, key);
    }
  }

  /** `ParseRequest` keys the cell of engine square k with the request's
      index of that cell, 63 - k, when the board was sent from Black's side:
      the hash of the mirrored board is the hash of the request as sent,
      square for square, not the hash of the position the engine holds. */
  lemma ParseHashIgnoresOrientation(zob: seq<seq<bv64>>, b: string)
    requires |b| >= 64
    ensures BoardHash(zob, RequestBoard(b, -1), 64, true) == BoardHash(zob, RequestBoard(b, 1), 64, false)
  {
    MirroredHashIsRequestHash(zob, b, 64);
    HashesMeet(zob, b, 0);
    ZeroUnit(RequestHashFrom(zob, b, 0));
  }

  // ---------------------------------------------------------------------
  // The engine
  // ---------------------------------------------------------------------

  /** `zob_table`, `zob_castle`, `zob_en_passant` and `zob_turn`: the random
      keys fixed at start-up. */
  datatype ZobristKeys = ZobristKeys(table: seq<seq<bv64>>, castle: seq<bv64>, enPassant: seq<bv64>, turn: bv64)

  /** The declared sizes: `zob_table[64][12]`, `zob_castle[16]` and
      `zob_en_passant[8]`. */
  predicate KeysSized(z: ZobristKeys) {
    && |z.table| == 64 && (forall sq :: 0 <= sq < 64 ==> |z.table[sq]| == 12)
    && |z.castle| == 16 && |z.enPassant| == 8
  }

  /** With rights between -1 and 3, the castle key index `(white << 2) + black`
      leaves the table exactly when White's rights are -1, or White has none
      and Black's are -1; everywhere else the key read is the table's. */
  lemma CastleKeyBounds(z: ZobristKeys, w: int, b: int)
    requires KeysSized(z) && -1 <= w <= 3 && -1 <= b <= 3
    ensures (0 <= w * 4 + b < |z.castle|) <==> !(w == -1 || (w == 0 && b == -1))
    ensures 0 <= w * 4 + b < |z.castle| ==> Entry(z.castle, w * 4 + b) == z.castle[w * 4 + b]
    ensures !(0 <= w * 4 + b < |z.castle|) ==> Entry(z.castle, w * 4 + b) == 0
  {
  }

  /** The keys `ParseRequest` xors into the board's hash: the castling
      rights, the turn when Black is to move, and the en passant file when
      the last move was a double step. */
  function SealHash(z: ZobristKeys, h: bv64, w: int, bl: int, t: int, live: bool, file: int): bv64 {
    Toggled(Toggled(Mix(h, Entry(z.castle, w * 4 + bl)), t == -1, z.turn), live, Entry(z.enPassant, file))
  }

  /** The hash `ParseRequest` starts the log with. */
  function RequestHash(z: ZobristKeys, b: string, t: string, m: string, c: string): bv64
    requires WellFormedRequest(b, t, m, c)
  {
    var o := OrientationOf(t);
    var board := RequestBoard(b, o);
    var (w, bl) := CastleSplit(StringToNat(c));
    SealHash(z, BoardHash(z.table, board, 64, o == -1), w, bl, TurnOf(t), EnPassantLive(board, m, o), EnPassantFile(m, o))
  }

  /** What `ParseRequest` takes from a request: the turn and orientation, the
      engine's board, its occupied squares, both sides' castling rights, the
      en passant mask and the starting hash. */
  datatype Request = Request(
    turn: int, orientation: int, board: seq<int>, occupied: bv64,
    whiteCastle: int, blackCastle: int, enPassant: bv64, hash: bv64)

  /** The request as `ParseRequest` reads it. */
  function ParseOf(z: ZobristKeys, b: string, t: string, m: string, c: string): (r: Request)
    requires WellFormedRequest(b, t, m, c)
    ensures r.turn == 1 || r.turn == -1
    ensures r.orientation == 1 || r.orientation == -1
    ensures |r.board| == 64 && forall k :: 0 <= k < 64 ==> -1 <= r.board[k] < 12
    ensures 0 <= r.whiteCastle <= 3 && 0 <= r.blackCastle <= 3 && r.whiteCastle * 4 + r.blackCastle == StringToNat(c)
  {
    var o := OrientationOf(t);
    var board := RequestBoard(b, o);
    CastleSplitJoin(StringToNat(c));
    var (w, bl) := CastleSplit(StringToNat(c));
    Request(TurnOf(t), o, board, Occupied(board, 64), w, bl, RequestEnPassant(b, t, m), RequestHash(z, b, t, m, c))
  }

  /** A parsed request's bits are set exactly on the squares that hold a piece. */
  lemma ParsedOccupancy(z: ZobristKeys, b: string, t: string, m: string, c: string)
    requires WellFormedRequest(b, t, m, c)
    ensures var r := ParseOf(z, b, t, m, c); Occupancy(r.occupied, r.board)
  {
    var r := ParseOf(z, b, t, m, c);
    OccupiedCells(r.board, 64);
    assert r.board[..64] == r.board;
  }

  // ---------------------------------------------------------------------
  // Making a move, on values
  // ---------------------------------------------------------------------

  /** The squares `ProcessMove` reaches through `origin_masks`: both squares
      of the move, and the square behind the destination for an en passant
      capture. */
  predicate MoveOnBoard(m: Move) {
    && 0 <= m.origin < 64 && 0 <= m.destination < 64
    && (m.kind == 7 ==> m.destination + 8 < 64)
    && (m.kind == 8 ==> m.destination - 8 >= 0)
  }

  /** A pawn moved two ranks. */
  predicate DoublePawnStep(piece: int, m: Move) {
    IsPawn(piece) && Abs(m.origin - m.destination) == 16
  }

  /** The square a double step passed over, `destination + 8 * turn`, is on
      the board. */
  predicate PassedOnBoard(mover: Group, m: Move, t: int) {
    PassedOnBoardFor(PieceId(mover, m.origin), m, t)
  }

  predicate PassedOnBoardFor(piece: int, m: Move, t: int) {
    DoublePawnStep(piece, m) ==> 0 <= m.destination + 8 * t < 64
  }

  /** `white_pawn_control_bitboards[s]`, filled for ranks 1 .. 6 only. */
  function WhitePawnTable(s: int): bv64 {
    if 0 <= s < 64 && 1 <= Rank(s) <= 6 then PlayerPawnControl(Rank(s), File(s)) else 0
  }

  /** `black_pawn_control_bitboards[s]`, likewise. */
  function BlackPawnTable(s: int): bv64 {
    if 0 <= s < 64 && 1 <= Rank(s) <= 6 then OpponentPawnControl(Rank(s), File(s)) else 0
  }

  /** The test `ProcessMove` makes of square s beside a double step: the
      other side has a white pawn there whose control table holds the passed
      square, or a black pawn whose table does (the mask tested is the
      passed square's own bit). */
  predicate Catches(other: Group, s: int, passed: int) {
    || (PieceId(other, s) == 0 && Has(WhitePawnTable(s), passed))
    || (PieceId(other, s) == 6 && Has(BlackPawnTable(s), passed))
  }

  /** The en passant key goes into the hash: a pawn stands beside the double
      step, on either side, ready to take on the passed square. */
  predicate EnPassantShown(other: Group, m: Move, t: int) {
    var passed := m.destination + 8 * t;
    Catches(other, m.destination - 1, passed) || Catches(other, m.destination + 1, passed)
  }

  /** `en_passant_mask` after the move. */
  function PassedMask(piece: int, m: Move, t: int): bv64
    requires PassedOnBoardFor(piece, m, t)
  {
    if DoublePawnStep(piece, m) then Bit(m.destination + 8 * t) else 0
  }

  /** The pair pushed on `capture_log`, from the square and id of the
      piece taken on the destination: the pawn taken en passant replaces
      them. */
  function LoggedCapture(m: Move, sqr: int, id: int): (entry: seq<int>)
    ensures |entry| == 2
  {
    if m.kind == 7 then [m.destination + 8, 6]
    else if m.kind == 8 then [m.destination - 8, 0]
    else [sqr, id]
  }

  /** The pair pushed on `capture_log`: the square and id of the piece
      taken, or (0, -1) when none was. */
  function Captured(other: Group, m: Move): (entry: seq<int>)
    ensures |entry| == 2
  {
    var id := PieceId(other, m.destination);
    LoggedCapture(m, if id > -1 then m.destination else 0, id)
  }

  /** `RemovePiece` on the destination, when the other side holds it. */
  function TakenOn(other: Group, sqr: int, c: Corners): Group
    requires Placed(other) && 0 <= sqr < 64
  {
    if PieceId(other, sqr) > -1 then WithoutPiece(other, sqr, Bit(sqr), c) else other
  }

  /** The pawn taken en passant (types 7 and 8) is removed behind the
      destination. */
  function EnPassantTaken(other: Group, m: Move, c: Corners): Group
    requires Placed(other) && MoveOnBoard(m)
  {
    if m.kind == 7 then WithoutPiece(other, m.destination + 8, Bit(m.destination + 8), c)
    else if m.kind == 8 then WithoutPiece(other, m.destination - 8, Bit(m.destination - 8), c)
    else other
  }

  /** The side not to move after the move: the piece on the destination is
      removed, and so is the pawn taken en passant. */
  function OtherAfter(other: Group, m: Move, c: Corners): Group
    requires Placed(other) && MoveOnBoard(m)
  {
    EnPassantTaken(TakenOn(other, m.destination, c), m, c)
  }

  /** The type's own step for the side to move: a promotion (types 1 .. 4)
      replaces the pawn on its origin, castling (types 5 and 6) moves the
      rook. */
  function MoverSpecial(mover: Group, m: Move, t: int, c: Corners): Group
    requires Placed(mover) && (t == 1 || t == -1)
  {
    if 1 <= m.kind <= 4 then PromotedAsWritten(mover, m.origin, PromotedId(t, m.kind))
    else if m.kind == 5 then CastledShort(mover, c)
    else if m.kind == 6 then CastledLong(mover, c)
    else mover
  }

  /** The side to move after the move: the type's step, then the piece
      goes from origin to destination. */
  function MoverAfter(mover: Group, m: Move, t: int, c: Corners): Group
    requires Placed(mover) && MoveOnBoard(m) && (t == 1 || t == -1)
  {
    Moved(MoverSpecial(mover, m, t, c), m.origin, m.destination, Bit(m.origin), Bit(m.destination), c)
  }

  /** The moving piece leaves its origin's key and takes its destination's. */
  function PieceHash(z: ZobristKeys, h: bv64, piece: int, m: Move): bv64 {
    Flip(Flip(h, Key(z.table, m.origin, piece)), Key(z.table, m.destination, piece))
  }

  /** A piece taken on `sqr` takes its key away. */
  function CaptureHash(z: ZobristKeys, h: bv64, taken: int, sqr: int): bv64 {
    if taken > -1 then Flip(h, Key(z.table, sqr, taken)) else h
  }

  /** The keys of the move's type on the side to move: the pawn's key on
      the destination traded for the promoted piece's, and the rook's two
      squares in castling. */
  function MoverHash(z: ZobristKeys, h: bv64, m: Move, t: int, k: RookKeys): bv64 {
    if 1 <= m.kind <= 4 then Flip(Flip(h, Key(z.table, m.destination, PawnId(t))), Key(z.table, m.destination, PromotedId(t, m.kind)))
    else if m.kind == 5 then Flip(Flip(h, k.kingCorner), k.castledShort)
    else if m.kind == 6 then Flip(Flip(h, k.queenCorner), k.castledLong)
    else h
  }

  /** The key of the pawn taken en passant. */
  function EnPassantHash(z: ZobristKeys, h: bv64, m: Move): bv64 {
    if m.kind == 7 then Flip(h, Key(z.table, m.destination + 8, 6))
    else if m.kind == 8 then Flip(h, Key(z.table, m.destination - 8, 0))
    else h
  }

  /** The keys of the move's type. */
  function SpecialHash(z: ZobristKeys, h: bv64, m: Move, t: int, k: RookKeys): bv64 {
    EnPassantHash(z, MoverHash(z, h, m, t, k), m)
  }

  /** The last keys of `ProcessMove`: the en passant key when shown, the
      castling pair's key and, when Black is next to move, the turn key. */
  function SealPly(z: ZobristKeys, h: bv64, shown: bool, epKey: int, w: int, b: int, next: int): bv64 {
    Toggled(Mix(Toggled(h, shown, Entry(z.enPassant, epKey)), Entry(z.castle, w * 4 + b)), next == -1, z.turn)
  }

  /** The en passant, castling and turn keys, from the groups as the move
      left them. */
  function SealedHash(z: ZobristKeys, h: bv64, piece: int, m: Move, t: int, moved: Group, after: Group): bv64
    requires PassedOnBoardFor(piece, m, t)
  {
    var shown := DoublePawnStep(piece, m) && EnPassantShown(after, m, t);
    var w := if t == 1 then moved.rights else after.rights;
    var b := if t == 1 then after.rights else moved.rights;
    SealPly(z, h, shown, if shown then EnPassantKeyAsWritten(m.destination + 8 * t) else 0, w, b, -t)
  }

  /** The hash `ProcessMove` pushes, from the last one: each key is xored
      into the previous hash; none is taken out for the previous castling
      rights, turn or en passant square. */
  function PlyHash(z: ZobristKeys, h: bv64, mover: Group, other: Group, m: Move, t: int, k: RookKeys, mc: Corners, oc: Corners): bv64
    requires Placed(mover) && Placed(other) && MoveOnBoard(m) && (t == 1 || t == -1) && PassedOnBoard(mover, m, t)
  {
    var piece := PieceId(mover, m.origin);
    var h1 := SpecialHash(z, CaptureHash(z, PieceHash(z, h, piece, m), PieceId(other, m.destination), m.destination), m, t, k);
    SealedHash(z, h1, piece, m, t, MoverAfter(mover, m, t, mc), OtherAfter(other, m, oc))
  }

  // ---------------------------------------------------------------------
  // Unmaking a move, on values
  // ---------------------------------------------------------------------

  /** The side that moved, taken back: a promoted piece becomes the pawn
      again on the destination, a castled rook goes back, and the piece
      returns to its origin. The castling rights are set from the log
      afterwards. */
  function MoverUndone(mover: Group, m: Move, t: int, c: Corners): Group
    requires Placed(mover) && MoveOnBoard(m)
  {
    var g := if 1 <= m.kind <= 4 then PromotedAsWritten(mover, m.destination, PawnId(t))
      else if m.kind == 5 then UncastledShort(mover, c)
      else if m.kind == 6 then UncastledLong(mover, c)
      else mover;
    Moved(g, m.destination, m.origin, Bit(m.destination), Bit(m.origin), c)
  }

  /** The other side gets back the piece the capture log names, if any. */
  function OtherUndone(other: Group, sqr: int, id: int): Group
    requires id > -1 ==> IsId(id) && 0 <= sqr < 64
  {
    if id > -1 then WithPiece(other, sqr, id, Bit(sqr)) else other
  }

  /** `capture_log` as pairs (square, id) pushed by `ProcessMove`: the square is
      on the board and the id is -1 (nothing taken) or a piece. */
  ghost predicate CaptureLogged(log: seq<int>)
    decreases |log|
  {
    |log| == 0 || (|log| >= 2 && 0 <= log[|log| - 2] < 64 && -1 <= log[|log| - 1] < 12 && CaptureLogged(log[..|log| - 2]))
  }

  /** The engine's state as values: the turn, the orientation, the en
      passant mask, the occupied squares, the three logs and both groups. */
  datatype EngineState = EngineState(
    turn: int, orientation: int, enPassant: bv64, occupied: bv64,
    captureLog: seq<int>, castleLog: seq<int>, hashLog: seq<bv64>,
    white: Group, black: Group)

  /** What stays fixed while moves are made: the Zobrist keys and each
      group's rook keys and corner masks. */
  datatype Tables = Tables(zob: ZobristKeys, whiteKeys: RookKeys, blackKeys: RookKeys, whiteCorners: Corners, blackCorners: Corners)

  /** `GetPieces(t)` on values. */
  function Side(e: EngineState, t: int): Group {
    if t == 1 then e.white else e.black
  }

  function SideKeys(s: Tables, t: int): RookKeys {
    if t == 1 then s.whiteKeys else s.blackKeys
  }

  function SideCorners(s: Tables, t: int): Corners {
    if t == 1 then s.whiteCorners else s.blackCorners
  }

  /** The moves `ProcessMove` can make: both groups hold pieces, the turn is
      a colour, the squares it reaches are on the board and a hash is
      logged to start from. */
  ghost predicate Playable(e: EngineState, m: Move) {
    && Placed(e.white) && Placed(e.black) && (e.turn == 1 || e.turn == -1)
    && MoveOnBoard(m) && PassedOnBoard(Side(e, e.turn), m, e.turn) && |e.hashLog| >= 1
  }

  /** What a move does to the two groups from `mover`'s side: both groups
      after it, the capture-log pair, the en passant mask and the new hash. */
  datatype PlyOutcome = PlyOutcome(moved: Group, taken: Group, captured: seq<int>, ep: bv64, hash: bv64)

  function PlyResult(z: ZobristKeys, h: bv64, mover: Group, other: Group, m: Move, t: int, k: RookKeys, mc: Corners, oc: Corners): PlyOutcome
    requires Placed(mover) && Placed(other) && MoveOnBoard(m) && (t == 1 || t == -1) && PassedOnBoard(mover, m, t)
  {
    PlyOutcome(MoverAfter(mover, m, t, mc), OtherAfter(other, m, oc), Captured(other, m),
      PassedMask(PieceId(mover, m.origin), m, t), PlyHash(z, h, mover, other, m, t, k, mc, oc))
  }

  /** `ProcessMove(m)` on values. */
  function Played(e: EngineState, s: Tables, m: Move): EngineState
    requires Playable(e, m)
  {
    var t := e.turn;
    var o := PlyResult(s.zob, e.hashLog[|e.hashLog| - 1], Side(e, t), Side(e, -t), m, t, SideKeys(s, t), SideCorners(s, t), SideCorners(s, -t));
    var w := if t == 1 then o.moved else o.taken;
    var b := if t == 1 then o.taken else o.moved;
    EngineState(-t, e.orientation, o.ep, Union(w.bitboard, b.bitboard),
      e.captureLog + o.captured, e.castleLog + [w.rights, b.rights], e.hashLog + [o.hash], w, b)
  }

  /** `Played` in terms of the outcome of the move on the two groups. */
  lemma PlayedOf(e: EngineState, s: Tables, m: Move, o: PlyOutcome)
    requires Playable(e, m)
    requires o == PlyResult(s.zob, e.hashLog[|e.hashLog| - 1], Side(e, e.turn), Side(e, -e.turn), m, e.turn,
      SideKeys(s, e.turn), SideCorners(s, e.turn), SideCorners(s, -e.turn))
    ensures var w := if e.turn == 1 then o.moved else o.taken;
      var b := if e.turn == 1 then o.taken else o.moved;
      Played(e, s, m) == EngineState(-e.turn, e.orientation, o.ep, Union(w.bitboard, b.bitboard),
        e.captureLog + o.captured, e.castleLog + [w.rights, b.rights], e.hashLog + [o.hash], w, b)
  {
  }

  /** The states `UndoMove` can take back: the groups hold pieces, the turn
      is a colour, the move's squares are on the board and the logs hold at
      least one move's entries over a starting pair of rights. */
  ghost predicate Undoable(e: EngineState, m: Move) {
    && Placed(e.white) && Placed(e.black) && (e.turn == 1 || e.turn == -1) && MoveOnBoard(m)
    && |e.hashLog| >= 1 && |e.captureLog| >= 2 && |e.castleLog| >= 4 && CaptureLogged(e.captureLog)
  }

  /** `UndoMove(m)` on values. The en passant mask is left as it is. */
  function Undone(e: EngineState, s: Tables, m: Move): EngineState
    requires Undoable(e, m)
  {
    var t := -e.turn;
    var n, k := |e.captureLog|, |e.castleLog|;
    var mover := MoverUndone(Side(e, t), m, t, SideCorners(s, t));
    var other := OtherUndone(Side(e, -t), e.captureLog[n - 2], e.captureLog[n - 1]);
    var w := (if t == 1 then mover else other).(rights := e.castleLog[k - 4]);
    var b := (if t == 1 then other else mover).(rights := e.castleLog[k - 3]);
    EngineState(t, e.orientation, e.enPassant, Union(w.bitboard, b.bitboard),
      e.captureLog[..n - 2], e.castleLog[..k - 2], e.hashLog[..|e.hashLog| - 1], w, b)
  }

  /** `Undone` in terms of the two groups `UndoMove` restores before it
      reads the rights back. */
  lemma UndoneOf(e: EngineState, s: Tables, m: Move, mover: Group, other: Group)
    requires Undoable(e, m)
    requires mover == MoverUndone(Side(e, -e.turn), m, -e.turn, SideCorners(s, -e.turn))
    requires other == OtherUndone(Side(e, e.turn), e.captureLog[|e.captureLog| - 2], e.captureLog[|e.captureLog| - 1])
    ensures var k := |e.castleLog|;
      var w := (if e.turn == -1 then mover else other).(rights := e.castleLog[k - 4]);
      var b := (if e.turn == -1 then other else mover).(rights := e.castleLog[k - 3]);
      Undone(e, s, m) == EngineState(-e.turn, e.orientation, e.enPassant, Union(w.bitboard, b.bitboard),
        e.captureLog[..|e.captureLog| - 2], e.castleLog[..k - 2], e.hashLog[..|e.hashLog| - 1], w, b)
  {
  }

  /** `ProcessMove` pushes two entries on the capture log, the two new
      rights on the castle log and one hash on the hash log, keeping what
      they held, and the turn passes. */
  lemma PlayedLogs(e: EngineState, s: Tables, m: Move)
    requires Playable(e, m)
    ensures var r := Played(e, s, m);
      && r.turn == -e.turn && r.orientation == e.orientation
      && |r.captureLog| == |e.captureLog| + 2 && r.captureLog[..|e.captureLog|] == e.captureLog
      && |r.castleLog| == |e.castleLog| + 2 && r.castleLog[..|e.castleLog|] == e.castleLog
      && r.castleLog[|e.castleLog|] == r.white.rights && r.castleLog[|e.castleLog| + 1] == r.black.rights
      && |r.hashLog| == |e.hashLog| + 1 && r.hashLog[..|e.hashLog|] == e.hashLog
      && r.occupied == Union(r.white.bitboard, r.black.bitboard)
  {
  }

  /** `UndoMove` pops exactly the last entries of each log, the turn passes
      back and the castle log then ends with the rights both sides hold. */
  lemma UndoneLogs(e: EngineState, s: Tables, m: Move)
    requires Undoable(e, m)
    ensures var r := Undone(e, s, m);
      && r.turn == -e.turn && r.orientation == e.orientation && r.enPassant == e.enPassant
      && r.captureLog + e.captureLog[|e.captureLog| - 2..] == e.captureLog
      && r.castleLog + e.castleLog[|e.castleLog| - 2..] == e.castleLog
      && r.hashLog + [e.hashLog[|e.hashLog| - 1]] == e.hashLog
      && r.white.rights == r.castleLog[|r.castleLog| - 2] && r.black.rights == r.castleLog[|r.castleLog| - 1]
      && r.occupied == Union(r.white.bitboard, r.black.bitboard)
  {
  }

  /** The side to move still holds piece ids after its move. */
  lemma MoverAfterPlaced(g: Group, m: Move, t: int, c: Corners)
    requires Placed(g) && MoveOnBoard(m) && (t == 1 || t == -1)
    ensures Placed(MoverAfter(g, m, t, c))
  {
    var special := MoverSpecial(g, m, t, c);
    assert Placed(special) by {
      if 1 <= m.kind <= 4 {
        PromotionIds(t, m.kind);
      }
    }
  }

  /** The other side still holds piece ids after a move takes from it. */
  lemma OtherAfterPlaced(g: Group, m: Move, c: Corners)
    requires Placed(g) && MoveOnBoard(m)
    ensures Placed(OtherAfter(g, m, c))
  {
  }

  /** As written, a promotion and the `UndoMove` after it give the mover
      back its pieces and `material`, but leave `piece_material` raised by
      the promoted piece's worth. */
  lemma PromotionPlyDrifts(g: Group, m: Move, t: int, c: Corners)
    requires Placed(g) && MoveOnBoard(m) && (t == 1 || t == -1) && 1 <= m.kind <= 4
    requires m.origin in g.pieces && g.pieces[m.origin] == PawnId(t) && m.destination !in g.pieces
    ensures Placed(MoverAfter(g, m, t, c))
    ensures var r := MoverUndone(MoverAfter(g, m, t, c), m, t, c);
      && r.pieces == g.pieces && r.material == g.material
      && r.pieceMaterial == g.pieceMaterial + MaterialMap[PromotedId(t, m.kind)]
  {
    MoverAfterPlaced(g, m, t, c);
    PromotionIds(t, m.kind);
    var after := MoverAfter(g, m, t, c);
    assert after.pieces == (g.pieces - {m.origin})[m.destination := PromotedId(t, m.kind)];
    var r := MoverUndone(after, m, t, c);
    assert r.pieces == g.pieces;
  }

  /** `UndoMove` right after `ProcessMove` takes back every log entry the
      move pushed and the turn, and reads back the rights the castle log
      held before the move: when that log ended with both sides' rights,
      those are restored. The en passant mask is not restored. */
  lemma PlayThenUndo(e: EngineState, s: Tables, m: Move)
    requires Playable(e, m) && CaptureLogged(e.captureLog) && |e.castleLog| >= 2
    ensures Undoable(Played(e, s, m), m)
    ensures var r := Undone(Played(e, s, m), s, m);
      && r.turn == e.turn && r.orientation == e.orientation
      && r.captureLog == e.captureLog && r.castleLog == e.castleLog && r.hashLog == e.hashLog
      && r.white.rights == e.castleLog[|e.castleLog| - 2] && r.black.rights == e.castleLog[|e.castleLog| - 1]
  {
    PlayedUndoable(e, s, m);
    PlayedLogs(e, s, m);
    LogsPoppedBack(e, Played(e, s, m), s, m);
  }

  /** A move `ProcessMove` makes can be taken back. */
  lemma PlayedUndoable(e: EngineState, s: Tables, m: Move)
    requires Playable(e, m) && CaptureLogged(e.captureLog) && |e.castleLog| >= 2
    ensures Undoable(Played(e, s, m), m)
  {
    var p := Played(e, s, m);
    MoverAfterPlaced(Side(e, e.turn), m, e.turn, SideCorners(s, e.turn));
    OtherAfterPlaced(Side(e, -e.turn), m, SideCorners(s, -e.turn));
    assert Placed(p.white) && Placed(p.black);
    CaptureLogGrows(e.captureLog, Side(e, -e.turn), m);
    assert p.captureLog == e.captureLog + Captured(Side(e, -e.turn), m);
  }

  /** When `p`'s logs extend `e`'s by one move's entries, `UndoMove` on `p`
      gives `e`'s logs back, and the rights the castle log ended with. */
  lemma LogsPoppedBack(e: EngineState, p: EngineState, s: Tables, m: Move)
    requires Undoable(p, m) && p.turn == -e.turn && p.orientation == e.orientation && |e.castleLog| >= 2
    requires |p.captureLog| == |e.captureLog| + 2 && p.captureLog[..|e.captureLog|] == e.captureLog
    requires |p.castleLog| == |e.castleLog| + 2 && p.castleLog[..|e.castleLog|] == e.castleLog
    requires |p.hashLog| == |e.hashLog| + 1 && p.hashLog[..|e.hashLog|] == e.hashLog
    ensures var r := Undone(p, s, m);
      && r.turn == e.turn && r.orientation == e.orientation
      && r.captureLog == e.captureLog && r.castleLog == e.castleLog && r.hashLog == e.hashLog
      && r.white.rights == e.castleLog[|e.castleLog| - 2] && r.black.rights == e.castleLog[|e.castleLog| - 1]
  {
    UndoneLogs(p, s, m);
    var r := Undone(p, s, m);
    assert r.captureLog == e.captureLog by {
      assert p.captureLog == r.captureLog + p.captureLog[|p.captureLog| - 2..];
    }
    assert r.castleLog == e.castleLog by {
      assert p.castleLog == r.castleLog + p.castleLog[|p.castleLog| - 2..];
    }
    assert r.hashLog == e.hashLog by {
      assert p.hashLog == r.hashLog + [p.hashLog[|p.hashLog| - 1]];
    }
  }

  /** What the side to move holds when its move is legal and not a
      promotion: a piece on the origin and none on the destination; a
      castling king two squares from its start, beside an empty square, with
      a rook of its own where the corner mask says. */
  ghost predicate MoverLegal(g: Group, m: Move, c: Corners) {
    && m.origin in g.pieces && m.destination !in g.pieces
    && (m.kind == 5 ==>
          && IsKing(g.pieces[m.origin]) && m.destination == m.origin + 2
          && m.origin + 3 in g.pieces && !IsKing(g.pieces[m.origin + 3]) && m.origin + 1 !in g.pieces
          && TwoSquares(c.shortCastle, m.origin + 3, m.origin + 1))
    && (m.kind == 6 ==>
          && IsKing(g.pieces[m.origin]) && m.destination == m.origin - 2
          && m.origin - 4 in g.pieces && !IsKing(g.pieces[m.origin - 4]) && m.origin - 1 !in g.pieces
          && TwoSquares(c.longCastle, m.origin - 4, m.origin - 1))
  }

  /** What the other side holds when an en passant capture is legal: the
      destination is empty and the pawn to take stands behind it. */
  ghost predicate TakenLegal(g: Group, m: Move) {
    && (m.kind == 7 ==> m.destination !in g.pieces && m.destination + 8 in g.pieces && g.pieces[m.destination + 8] == 6)
    && (m.kind == 8 ==> m.destination !in g.pieces && m.destination - 8 in g.pieces && g.pieces[m.destination - 8] == 0)
  }

  /** A legal move that is not a promotion, taken back, gives the side that
      moved every field back but its rights, which `UndoMove` reads from the
      castle log. */
  lemma MoverRoundTrip(g: Group, m: Move, t: int, c: Corners)
    requires Consistent(g) && MoveOnBoard(m) && (t == 1 || t == -1) && !(1 <= m.kind <= 4)
    requires MoverLegal(g, m, c)
    ensures Placed(MoverAfter(g, m, t, c))
    ensures MoverUndone(MoverAfter(g, m, t, c), m, t, c).(rights := g.rights) == g
  {
    if m.kind == 5 {
      ShortCastleRoundTrip(g, m, t, c);
    } else if m.kind == 6 {
      LongCastleRoundTrip(g, m, t, c);
    } else {
      PlainMoveRoundTrip(g, m, t, c);
    }
  }

  /** `MoverRoundTrip` for castling short. */
  lemma ShortCastleRoundTrip(g: Group, m: Move, t: int, c: Corners)
    requires Consistent(g) && MoveOnBoard(m) && (t == 1 || t == -1) && m.kind == 5
    requires MoverLegal(g, m, c)
    ensures Placed(MoverAfter(g, m, t, c))
    ensures MoverUndone(MoverAfter(g, m, t, c), m, t, c).(rights := g.rights) == g
  {
    MoverAfterPlaced(g, m, t, c);
    var o := m.origin;
    var after := MoverAfter(g, m, t, c);
    assert g.kingSqr == o;
    assert after == Moved(CastledShort(g, c), o, o + 2, Bit(o), Bit(o + 2), c);
    CastledShortBack(g, c);
  }

  /** `MoverRoundTrip` for castling long. */
  lemma LongCastleRoundTrip(g: Group, m: Move, t: int, c: Corners)
    requires Consistent(g) && MoveOnBoard(m) && (t == 1 || t == -1) && m.kind == 6
    requires MoverLegal(g, m, c)
    ensures Placed(MoverAfter(g, m, t, c))
    ensures MoverUndone(MoverAfter(g, m, t, c), m, t, c).(rights := g.rights) == g
  {
    MoverAfterPlaced(g, m, t, c);
    var o := m.origin;
    var after := MoverAfter(g, m, t, c);
    assert g.kingSqr == o;
    assert after == Moved(CastledLong(g, c), o, o - 2, Bit(o), Bit(o - 2), c);
    CastledLongBack(g, c);
  }

  /** `MoverRoundTrip` for a move without a rook step or promotion. */
  lemma PlainMoveRoundTrip(g: Group, m: Move, t: int, c: Corners)
    requires Consistent(g) && MoveOnBoard(m) && (t == 1 || t == -1) && !(1 <= m.kind <= 6)
    requires MoverLegal(g, m, c)
    ensures Placed(MoverAfter(g, m, t, c))
    ensures MoverUndone(MoverAfter(g, m, t, c), m, t, c).(rights := g.rights) == g
  {
    MoverAfterPlaced(g, m, t, c);
    var o, d := m.origin, m.destination;
    var after := MoverAfter(g, m, t, c);
    assert after == Moved(g, o, d, Bit(o), Bit(d), c);
    MovedBack(g, o, d, c);
  }

  /** A legal move taken back gives the side it took from every field back
      but its rights: the capture log names the piece and square to put
      back. */
  lemma OtherRoundTrip(g: Group, m: Move, c: Corners)
    requires Consistent(g) && MoveOnBoard(m) && TakenLegal(g, m)
    ensures var entry := Captured(g, m);
      && Placed(OtherAfter(g, m, c))
      && (entry[1] > -1 ==> IsId(entry[1]) && 0 <= entry[0] < 64)
      && OtherUndone(OtherAfter(g, m, c), entry[0], entry[1]).(rights := g.rights) == g
  {
    OtherAfterPlaced(g, m, c);
    var d := m.destination;
    if m.kind == 7 || m.kind == 8 {
      var sqr := if m.kind == 7 then d + 8 else d - 8;
      TakenBack(g, m, c, sqr);
    } else if d in g.pieces {
      TakenBack(g, m, c, d);
    } else {
      assert Captured(g, m) == [0, -1] && OtherAfter(g, m, c) == g;
    }
  }

  /** The case of `OtherRoundTrip` where a piece is taken, on `sqr`. */
  lemma TakenBack(g: Group, m: Move, c: Corners, sqr: int)
    requires Consistent(g) && MoveOnBoard(m) && TakenLegal(g, m)
    requires if m.kind == 7 then sqr == m.destination + 8
      else if m.kind == 8 then sqr == m.destination - 8
      else sqr == m.destination && sqr in g.pieces
    ensures sqr in g.pieces && 0 <= sqr < 64
    ensures Captured(g, m) == [sqr, g.pieces[sqr]] && OtherAfter(g, m, c) == WithoutPiece(g, sqr, Bit(sqr), c)
    ensures WithPiece(WithoutPiece(g, sqr, Bit(sqr), c), sqr, g.pieces[sqr], Bit(sqr)).(rights := g.rights) == g
  {
    RemovedBack(g, sqr, c);
  }

  /** What `ProcessMove` leaves on each side and pushes on the capture log,
      in terms of the two groups before it. */
  lemma PlayedSides(e: EngineState, s: Tables, m: Move)
    requires Playable(e, m)
    ensures var p := Played(e, s, m); var n := |p.captureLog|;
      && p.turn == -e.turn && n >= 2
      && Side(p, e.turn) == MoverAfter(Side(e, e.turn), m, e.turn, SideCorners(s, e.turn))
      && Side(p, -e.turn) == OtherAfter(Side(e, -e.turn), m, SideCorners(s, -e.turn))
      && p.captureLog[n - 2] == Captured(Side(e, -e.turn), m)[0]
      && p.captureLog[n - 1] == Captured(Side(e, -e.turn), m)[1]
  {
    var p := Played(e, s, m);
    assert p.captureLog == e.captureLog + Captured(Side(e, -e.turn), m);
  }

  /** When taking the move back on each side gives that side of `e` back but
      for its rights, `UndoMove` on `p` gives White's and Black's groups of
      `e` back but for the rights it reads from the castle log. */
  lemma UndoneSides(e: EngineState, p: EngineState, s: Tables, m: Move)
    requires Undoable(p, m) && (e.turn == 1 || e.turn == -1) && p.turn == -e.turn
    requires var mover := Side(e, e.turn);
      MoverUndone(Side(p, e.turn), m, e.turn, SideCorners(s, e.turn)).(rights := mover.rights) == mover
    requires var other, n := Side(e, -e.turn), |p.captureLog|;
      OtherUndone(Side(p, -e.turn), p.captureLog[n - 2], p.captureLog[n - 1]).(rights := other.rights) == other
    ensures var r := Undone(p, s, m);
      && r.white.(rights := e.white.rights) == e.white && r.black.(rights := e.black.rights) == e.black
  {
    var t := e.turn;
    var mu := MoverUndone(Side(p, t), m, t, SideCorners(s, t));
    var n := |p.captureLog|;
    var ou := OtherUndone(Side(p, -t), p.captureLog[n - 2], p.captureLog[n - 1]);
    UndoneOf(p, s, m, mu, ou);
    if t == 1 {
      assert Side(e, t) == e.white && Side(e, -t) == e.black;
    } else {
      assert Side(e, t) == e.black && Side(e, -t) == e.white;
    }
  }

  /** A state `p` whose sides are what a legal move that is not a promotion
      made of `e`'s, and whose capture log ends with that move's pair:
      `UndoMove` gives `e`'s groups back but for the rights. */
  lemma UndoneAfterLegal(e: EngineState, p: EngineState, s: Tables, m: Move)
    requires Undoable(p, m) && (e.turn == 1 || e.turn == -1) && p.turn == -e.turn
    requires Consistent(e.white) && Consistent(e.black) && !(1 <= m.kind <= 4)
    requires MoverLegal(Side(e, e.turn), m, SideCorners(s, e.turn)) && TakenLegal(Side(e, -e.turn), m)
    requires Side(p, e.turn) == MoverAfter(Side(e, e.turn), m, e.turn, SideCorners(s, e.turn))
    requires Side(p, -e.turn) == OtherAfter(Side(e, -e.turn), m, SideCorners(s, -e.turn))
    requires p.captureLog[|p.captureLog| - 2] == Captured(Side(e, -e.turn), m)[0]
    requires p.captureLog[|p.captureLog| - 1] == Captured(Side(e, -e.turn), m)[1]
    ensures var r := Undone(p, s, m);
      && r.white.(rights := e.white.rights) == e.white && r.black.(rights := e.black.rights) == e.black
  {
    var t := e.turn;
    assert Consistent(Side(e, t)) && Consistent(Side(e, -t));
    MoverRoundTrip(Side(e, t), m, t, SideCorners(s, t));
    OtherRoundTrip(Side(e, -t), m, SideCorners(s, -t));
    UndoneSides(e, p, s, m);
  }

  /** `UndoMove` right after a legal `ProcessMove` that is not a promotion
      gives both sides back their pieces, bitboards, king squares and masks
      and both material sums. */
  lemma PlayThenUndoRestores(e: EngineState, s: Tables, m: Move)
    requires Playable(e, m) && CaptureLogged(e.captureLog) && |e.castleLog| >= 2
    requires Consistent(e.white) && Consistent(e.black) && !(1 <= m.kind <= 4)
    requires MoverLegal(Side(e, e.turn), m, SideCorners(s, e.turn)) && TakenLegal(Side(e, -e.turn), m)
    ensures Undoable(Played(e, s, m), m)
    ensures var r := Undone(Played(e, s, m), s, m);
      && r.white.(rights := e.white.rights) == e.white && r.black.(rights := e.black.rights) == e.black
  {
    PlayThenUndo(e, s, m);
    PlayedSides(e, s, m);
    UndoneAfterLegal(e, Played(e, s, m), s, m);
  }

  /** When, besides, the castle log ended with both sides' rights and the
      occupied board was the union of the two, the whole state comes back
      but the en passant mask. */
  lemma PlayThenUndoState(e: EngineState, s: Tables, m: Move)
    requires Playable(e, m) && CaptureLogged(e.captureLog) && |e.castleLog| >= 2
    requires Consistent(e.white) && Consistent(e.black) && !(1 <= m.kind <= 4)
    requires MoverLegal(Side(e, e.turn), m, SideCorners(s, e.turn)) && TakenLegal(Side(e, -e.turn), m)
    requires e.castleLog[|e.castleLog| - 2] == e.white.rights && e.castleLog[|e.castleLog| - 1] == e.black.rights
    requires e.occupied == Union(e.white.bitboard, e.black.bitboard)
    ensures Undoable(Played(e, s, m), m)
    ensures var r := Undone(Played(e, s, m), s, m); r == e.(enPassant := r.enPassant)
  {
    PlayThenUndoRestores(e, s, m);
    PlayThenUndo(e, s, m);
    var p := Played(e, s, m);
    UndoneLogs(p, s, m);
    var r := Undone(p, s, m);
    assert r.white == e.white && r.black == e.black;
  }

  class Enginegton {
    /** 1 when White is to move, -1 for Black. */
    var turn: int
    /** -1 when the request came from Black's side. */
    var orientation: int
    var enPassantMask: bv64
    /** `board_state_bitboard`: the squares of both groups. */
    var boardState: bv64
    var captureLog: seq<int>
    var castleLog: seq<int>
    var hashLog: seq<bv64>
    /** `white_pieces` and `black_pieces`. */
    var white: PieceGroup
    var black: PieceGroup

    /** The Zobrist keys, fixed at start-up. */
    const zob: ZobristKeys

    /** Two distinct groups, every stored id a piece, the turn a colour, the
        capture log made of pairs and the key tables of their declared sizes. */
    ghost predicate Valid()
      reads this, white, black
    {
      && KeysSized(zob)
      && white != black && white.Valid() && black.Valid()
      && (turn == 1 || turn == -1)
      && CaptureLogged(captureLog)
    }

    /** The default state: White to move, White's orientation, no en passant
        square, empty logs (the groups start empty). */
    constructor (keys: ZobristKeys)
      requires KeysSized(keys)
      ensures Valid() && fresh(white) && fresh(black)
      ensures turn == 1 && orientation == 1 && enPassantMask == 0 && boardState == 0
      ensures captureLog == [] && castleLog == [] && hashLog == []
      ensures white.pieces == map[] && black.pieces == map[]
      ensures zob == keys
    {
      turn, orientation, enPassantMask, boardState := 1, 1, 0, 0;
      captureLog, castleLog, hashLog := [], [], [];
      zob := keys;
      white := new PieceGroup.Empty();
      black := new PieceGroup.Empty();
    }

    /** `GetPieces(turn)`. */
    function GetPieces(t: int): PieceGroup
      reads this
    {
      if t == 1 then white else black
    }

    /** The side to move and the other side are different groups. */
    lemma SidesDiffer()
      requires Valid()
      ensures GetPieces(turn) != GetPieces(-turn)
      ensures {GetPieces(turn), GetPieces(-turn)} == {white, black}
    {
    }

    /** The insufficient-material rule of `GetMoves`, from each group's map
        size, knight count, material and pawn count. */
    method MaterialDrawn() returns (drawn: bool)
      requires Valid()
      ensures drawn <==> InsufficientMaterial(white.State(), black.State())
    {
      var whiteKnights := white.KnightCount();
      var whitePawns := white.PawnCount();
      var blackKnights := black.KnightCount();
      var blackPawns := black.PawnCount();
      var whiteMat := (|white.pieces| == 3 && whiteKnights == 2) || (white.material < 50 && whitePawns == 0);
      var blackMat := (|black.pieces| == 3 && blackKnights == 2) || (black.material < 50 && blackPawns == 0);
      drawn := whiteMat && blackMat;
    }

    /** The reply `GetMoves` posts for the legal moves in the order the
        queue gives them up: the fourth flag is the material rule above. */
    method MovesAnswer(ms: seq<Move>, check: int, checkmate: bool, stalemate: bool) returns (r: string)
      requires Valid()
      ensures r == MovesReply(ms, orientation, check, checkmate, stalemate, InsufficientMaterial(white.State(), black.State()))
    {
      var drawn := MaterialDrawn();
      r := MovesReply(ms, orientation, check, checkmate, stalemate, drawn);
    }

    /** The state `ParseRequest` leaves: the request's turn, orientation,
        occupied squares, en passant mask and a hash log holding its hash
        alone; both groups rebuilt from its board with their castling rights
        and their fields agreeing with their pieces. */
    ghost predicate Loaded(r: Request)
      reads this, white, black
    {
      && |r.board| == 64
      && turn == r.turn && orientation == r.orientation && boardState == r.occupied
      && enPassantMask == r.enPassant && hashLog == [r.hash]
      && white.pieces == Selection(r.board, 1, 64) && black.pieces == Selection(r.board, -1, 64)
      && white.castlingRights == r.whiteCastle && black.castlingRights == r.blackCastle
      && Sound(white.State()) && Sound(black.State())
    }

    /** The assignments of `ParseRequest`. */
    method Install(r: Request)
      requires r.turn == 1 || r.turn == -1
      requires |r.board| == 64 && forall k :: 0 <= k < 64 ==> -1 <= r.board[k] < 12
      requires 0 <= r.whiteCastle <= 3 && 0 <= r.blackCastle <= 3
      modifies this
      ensures fresh(white) && fresh(black) && white != black && white.Valid() && black.Valid()
      ensures Loaded(r)
      ensures captureLog == old(captureLog) && castleLog == old(castleLog)
    {
      var w, bl := NewGroups(r.board, r.whiteCastle, r.blackCastle, zob.table);
      turn, orientation, boardState, enPassantMask, hashLog, white, black := r.turn, r.orientation, r.occupied, r.enPassant, [r.hash], w, bl;
    }

    /** `ParseRequest(b, t, m, c)`: the engine holds the request as
        `ParseOf` reads it; the capture and castle logs are kept. */
    method ParseRequest(b: string, t: string, m: string, c: string)
      requires WellFormedRequest(b, t, m, c) && KeysSized(zob)
      modifies this
      ensures fresh(white) && fresh(black) && (CaptureLogged(captureLog) ==> Valid())
      ensures Loaded(ParseOf(zob, b, t, m, c))
      ensures captureLog == old(captureLog) && castleLog == old(castleLog)
    {
      var r := ReadRequest(zob, b, t, m, c);
      Install(r);
    }

    /** The engine's state as values. */
    function Snapshot(): EngineState
      reads this, white, black
    {
      EngineState(turn, orientation, enPassantMask, boardState, captureLog, castleLog, hashLog, white.State(), black.State())
    }

    /** The keys and masks fixed at construction. */
    function Fixed(): Tables
      reads this
    {
      Tables(zob, white.Keys(), black.Keys(), white.corners, black.corners)
    }

    /** `ProcessMove(move)`: the side to move plays the move; the capture
        log gains the taken piece, the castle log both sides' new rights and
        the hash log the new hash, and the turn passes. */
    method ProcessMove(move: Move)
      requires Valid() && Playable(Snapshot(), move)
      modifies this, white, black
      ensures Valid() && white == old(white) && black == old(black)
      ensures Snapshot() == Played(old(Snapshot()), Fixed(), move)
    {
      CaptureLogGrows(captureLog, GetPieces(-turn).State(), move);
      var captured, ep, h, rights := PlayOn(white, black, Snapshot(), Fixed(), move, turn, hashLog[|hashLog| - 1]);
      PushLogs(captured, rights, ep, h);
    }

    /** The end of `ProcessMove`: the logs grow, the en passant mask and the
        occupied squares are set and the turn passes. */
    method PushLogs(captured: seq<int>, rights: seq<int>, ep: bv64, h: bv64)
      modifies this
      ensures captureLog == old(captureLog) + captured && castleLog == old(castleLog) + rights
      ensures hashLog == old(hashLog) + [h] && turn == -old(turn)
      ensures enPassantMask == ep && boardState == Union(white.groupBitboard, black.groupBitboard)
      ensures white == old(white) && black == old(black) && orientation == old(orientation)
    {
      captureLog, castleLog, enPassantMask, boardState, turn, hashLog :=
        captureLog + captured, castleLog + rights, ep, Union(white.groupBitboard, black.groupBitboard), -turn, hashLog + [h];
    }

    /** `UndoMove(move)`: the turn passes back and the last entry of each log
        is popped; the capture log's entry puts the taken piece back and the
        castle log's remaining last pair gives both sides' rights. */
    method UndoMove(move: Move)
      requires Valid() && Undoable(Snapshot(), move)
      modifies this, white, black
      ensures Valid() && white == old(white) && black == old(black)
      ensures Snapshot() == Undone(old(Snapshot()), Fixed(), move)
    {
      var n, k := |captureLog|, |castleLog|;
      UndoOn(white, black, Snapshot(), Fixed(), move, turn, captureLog[n - 2], captureLog[n - 1], castleLog[k - 4], castleLog[k - 3]);
      PopLogs();
    }

    /** The log pops of `UndoMove`, the turn passing back and the occupied
        squares recomputed. */
    method PopLogs()
      requires |hashLog| >= 1 && |captureLog| >= 2 && |castleLog| >= 2 && CaptureLogged(captureLog)
      modifies this
      ensures CaptureLogged(captureLog)
      ensures hashLog == old(hashLog[..|hashLog| - 1]) && turn == -old(turn)
      ensures captureLog == old(captureLog[..|captureLog| - 2]) && castleLog == old(castleLog[..|castleLog| - 2])
      ensures boardState == Union(white.groupBitboard, black.groupBitboard)
      ensures white == old(white) && black == old(black) && orientation == old(orientation) && enPassantMask == old(enPassantMask)
    {
      turn, hashLog := -turn, hashLog[..|hashLog| - 1];
      captureLog, castleLog := captureLog[..|captureLog| - 2], castleLog[..|castleLog| - 2];
      boardState := Union(white.groupBitboard, black.groupBitboard);
    }
  }

  /** The last entry of a non-empty capture log is -1 or a piece on a
      square of the board. */
  lemma CaptureLogEntry(log: seq<int>)
    requires CaptureLogged(log) && |log| >= 2
    ensures log[|log| - 1] > -1 ==> IsId(log[|log| - 1]) && 0 <= log[|log| - 2] < 64
  {
  }

  /** A capture-log entry names a square of the board and -1 or a piece. */
  lemma CaptureLogGrows(log: seq<int>, other: Group, m: Move)
    requires CaptureLogged(log) && Placed(other) && MoveOnBoard(m)
    ensures CaptureLogged(log + Captured(other, m))
  {
    var grown := log + Captured(other, m);
    assert grown[..|grown| - 2] == log;
  }

  /** The group updates of `ProcessMove` on White's and Black's groups,
      whose values `e` holds: with the pair, mask and hash they return, the
      logs and fields give `Played`. */
  method PlayOn(w: PieceGroup, b: PieceGroup, ghost e: EngineState, s: Tables, m: Move, t: int, h0: bv64)
    returns (captured: seq<int>, ep: bv64, h: bv64, rights: seq<int>)
    requires w != b && w.Valid() && b.Valid() && e.white == w.State() && e.black == b.State()
    requires s.whiteKeys == w.Keys() && s.blackKeys == b.Keys() && s.whiteCorners == w.corners && s.blackCorners == b.corners
    requires Playable(e, m) && t == e.turn && h0 == e.hashLog[|e.hashLog| - 1]
    modifies w, b
    ensures w.Valid() && b.Valid()
    ensures Played(e, s, m) == EngineState(-e.turn, e.orientation, ep, Union(w.groupBitboard, b.groupBitboard),
      e.captureLog + captured, e.castleLog + rights, e.hashLog + [h], w.State(), b.State())
  {
    var mover, other := if t == 1 then w else b, if t == 1 then b else w;
    assert mover.State() == Side(e, t) && other.State() == Side(e, -t);
    assert mover.Keys() == SideKeys(s, t) && mover.corners == SideCorners(s, t) && other.corners == SideCorners(s, -t);
    captured, ep, h, rights := Ply(mover, other, m, t, s.zob, h0);
    PlayedOf(e, s, m, PlyOutcome(mover.State(), other.State(), captured, ep, h));
  }

  /** The group updates of `UndoMove` on White's and Black's groups, with
      the logged capture (sqr, id) and the logged rights of both sides. */
  method UndoOn(w: PieceGroup, b: PieceGroup, ghost e: EngineState, s: Tables, m: Move, t: int, sqr: int, id: int, wRights: int, bRights: int)
    requires w != b && w.Valid() && b.Valid() && e.white == w.State() && e.black == b.State()
    requires s.whiteCorners == w.corners && s.blackCorners == b.corners
    requires Undoable(e, m) && t == e.turn
    requires sqr == e.captureLog[|e.captureLog| - 2] && id == e.captureLog[|e.captureLog| - 1]
    requires wRights == e.castleLog[|e.castleLog| - 4] && bRights == e.castleLog[|e.castleLog| - 3]
    modifies w, b
    ensures w.Valid() && b.Valid()
    ensures Undone(e, s, m) == EngineState(-e.turn, e.orientation, e.enPassant, Union(w.groupBitboard, b.groupBitboard),
      e.captureLog[..|e.captureLog| - 2], e.castleLog[..|e.castleLog| - 2], e.hashLog[..|e.hashLog| - 1], w.State(), b.State())
  {
    CaptureLogEntry(e.captureLog);
    var mover, other := if t == -1 then w else b, if t == -1 then b else w;
    UndoGroups(mover, other, m, -t, sqr, id);
    UndoneOf(e, s, m, mover.State(), other.State());
    RestoreRights(w, b, wRights, bRights);
  }

  /** `ProcessMove` on the two groups: the group updates, the en passant
      mask, the new hash and the rights pair the castle log gains (White's
      first). */
  method Ply(mover: PieceGroup, other: PieceGroup, m: Move, t: int, z: ZobristKeys, h0: bv64)
    returns (captured: seq<int>, ep: bv64, h: bv64, rights: seq<int>)
    requires mover != other && mover.Valid() && other.Valid() && MoveOnBoard(m) && (t == 1 || t == -1)
    requires PassedOnBoard(mover.State(), m, t)
    modifies mover, other
    ensures mover.Valid() && other.Valid()
    ensures PlyOutcome(mover.State(), other.State(), captured, ep, h) == PlyResult(z, h0, old(mover.State()), old(other.State()), m, t, mover.Keys(), mover.corners, other.corners)
    ensures rights == if t == 1 then [mover.castlingRights, other.castlingRights] else [other.castlingRights, mover.castlingRights]
  {
    var piece;
    piece, captured, h := PlayGroups(mover, other, m, t, z, h0);
    ep := PassedMask(piece, m, t);
    h := SealedHash(z, h, piece, m, t, mover.State(), other.State());
    rights := if t == 1 then [mover.castlingRights, other.castlingRights] else [other.castlingRights, mover.castlingRights];
  }

  /** The group updates of `ProcessMove`, in its order, with the keys of the
      moving piece, of the piece taken on the destination and of the move's
      type xored into the hash. */
  method PlayGroups(mover: PieceGroup, other: PieceGroup, m: Move, t: int, z: ZobristKeys, h0: bv64)
    returns (piece: int, captured: seq<int>, h: bv64)
    requires mover != other && mover.Valid() && other.Valid() && MoveOnBoard(m) && (t == 1 || t == -1)
    modifies mover, other
    ensures mover.Valid() && other.Valid()
    ensures piece == PieceId(old(mover.State()), m.origin)
    ensures mover.State() == MoverAfter(old(mover.State()), m, t, mover.corners)
    ensures other.State() == OtherAfter(old(other.State()), m, other.corners)
    ensures captured == Captured(old(other.State()), m)
    ensures h == SpecialHash(z, CaptureHash(z, PieceHash(z, h0, piece, m), PieceId(old(other.State()), m.destination), m.destination), m, t, mover.Keys())
  {
    piece := mover.GetPieceID(m.origin);
    h := PieceHash(z, h0, piece, m);
    var remPiece := other.GetPieceID(m.destination);
    h := CaptureHash(z, h, remPiece, m.destination);
    var remSqr := 0;
    if remPiece > -1 {
      remSqr := m.destination;
      other.RemovePiece(remSqr, Bit(remSqr));
    }
    h := MoverStep(mover, m, t, z, h);
    remSqr, remPiece, h := EnPassantStep(other, m, z, h, remSqr, remPiece);
    captured := [remSqr, remPiece];
    mover.UpdatePiecePosition(m.origin, m.destination, Bit(m.origin), Bit(m.destination));
  }

  /** The cases of the `switch` of `ProcessMove` that act on the side to
      move: promotion and castling. */
  method MoverStep(mover: PieceGroup, m: Move, t: int, z: ZobristKeys, h0: bv64) returns (h: bv64)
    requires mover.Valid() && (t == 1 || t == -1)
    modifies mover
    ensures mover.Valid() && mover.State() == MoverSpecial(old(mover.State()), m, t, mover.corners)
    ensures h == MoverHash(z, h0, m, t, mover.Keys())
  {
    h := h0;
    if 1 <= m.kind <= 4 {
      mover.Promote(m.origin, PromotedId(t, m.kind));
      h := Flip(Flip(h, Key(z.table, m.destination, PawnId(t))), Key(z.table, m.destination, PromotedId(t, m.kind)));
    } else if m.kind == 5 {
      h := mover.CastleShort(h);
    } else if m.kind == 6 {
      h := mover.CastleLong(h);
    }
  }

  /** The cases of the `switch` that act on the other side: the pawn taken
      en passant, whose square and id replace the logged capture. */
  method EnPassantStep(other: PieceGroup, m: Move, z: ZobristKeys, h0: bv64, sqr0: int, id0: int) returns (sqr: int, id: int, h: bv64)
    requires other.Valid() && MoveOnBoard(m)
    modifies other
    ensures other.Valid() && other.State() == EnPassantTaken(old(other.State()), m, other.corners)
    ensures [sqr, id] == LoggedCapture(m, sqr0, id0)
    ensures h == EnPassantHash(z, h0, m)
  {
    sqr, id, h := sqr0, id0, h0;
    if m.kind == 7 {
      sqr, id := m.destination + 8, 6;
      other.RemovePiece(sqr, Bit(sqr));
      h := Flip(h, Key(z.table, sqr, id));
    } else if m.kind == 8 {
      sqr, id := m.destination - 8, 0;
      other.RemovePiece(sqr, Bit(sqr));
      h := Flip(h, Key(z.table, sqr, id));
    }
  }

  /** The group updates of `UndoMove`: the type's own undo and the move back
      on the side that moved, then the logged piece put back on the other. */
  method UndoGroups(mover: PieceGroup, other: PieceGroup, m: Move, t: int, sqr: int, id: int)
    requires mover != other && mover.Valid() && other.Valid() && MoveOnBoard(m)
    requires id > -1 ==> IsId(id) && 0 <= sqr < 64
    modifies mover, other
    ensures mover.Valid() && other.Valid()
    ensures mover.State() == MoverUndone(old(mover.State()), m, t, mover.corners)
    ensures other.State() == OtherUndone(old(other.State()), sqr, id)
  {
    if 1 <= m.kind <= 4 {
      mover.Promote(m.destination, PawnId(t));
    } else if m.kind == 5 {
      mover.UndoCastleShort();
    } else if m.kind == 6 {
      mover.UndoCastleLong();
    }
    mover.UpdatePiecePosition(m.destination, m.origin, Bit(m.destination), Bit(m.origin));
    if id > -1 {
      other.AddPiece(sqr, id, Bit(sqr));
    }
  }

  /** The castling rights `UndoMove` reads back from the castle log. */
  method RestoreRights(w: PieceGroup, b: PieceGroup, wRights: int, bRights: int)
    requires w != b
    modifies w, b
    ensures w.State() == old(w.State()).(rights := wRights) && b.State() == old(b.State()).(rights := bRights)
  {
    b.castlingRights := bRights;
    w.castlingRights := wRights;
  }

  /** The two groups `ParseRequest` builds from the board: White's takes
      the rook keys of squares 56, 63, 61 and 59, Black's those of 0, 7, 5
      and 3. */
  method NewGroups(board: seq<int>, wCastle: int, bCastle: int, zt: seq<seq<bv64>>) returns (w: PieceGroup, bl: PieceGroup)
    requires |board| == 64 && forall i :: 0 <= i < 64 ==> -1 <= board[i] < 12
    requires 0 <= wCastle <= 3 && 0 <= bCastle <= 3
    ensures fresh(w) && fresh(bl) && w != bl && w.Valid() && bl.Valid()
    ensures w.pieces == Selection(board, 1, 64) && bl.pieces == Selection(board, -1, 64)
    ensures w.castlingRights == wCastle && bl.castlingRights == bCastle
    ensures Sound(w.State()) && Sound(bl.State())
  {
    w := new PieceGroup(board, 1, wCastle, Key(zt, 56, 3), Key(zt, 63, 3), Key(zt, 61, 3), Key(zt, 59, 3));
    bl := new PieceGroup(board, -1, bCastle, Key(zt, 0, 9), Key(zt, 7, 9), Key(zt, 5, 9), Key(zt, 3, 9));
  }

  /** The reading half of `ParseRequest`: the turn characters, the board
      loop, the castling number and the last move. */
  method ReadRequest(z: ZobristKeys, b: string, t: string, m: string, c: string) returns (r: Request)
    requires WellFormedRequest(b, t, m, c)
    ensures r == ParseOf(z, b, t, m, c)
  {
    var tn := if t[0] == '-' then -1 else 1;
    var o := if t[1] != '-' then 1 else -1;
    var board, bs, hash := ReadBoard(z.table, b, o == -1);
    var cRights := StringToNat(c);
    var (wCastle, bCastle) := CastleSplit(cRights);
    var live, file, ep := ReadEnPassant(board, m, o, tn);
    hash := SealHash(z, hash, wCastle, bCastle, tn, live, file);
    r := Request(tn, o, board, bs, wCastle, bCastle, ep, hash);
  }

  /** The last-move part of `ParseRequest`: whether the last move was a
      double step onto a pawn, the file that keys `zob_en_passant`, and the
      mask of the square the pawn passed over. */
  method ReadEnPassant(board: seq<int>, m: string, o: int, tn: int) returns (live: bool, file: int, ep: bv64)
    requires |board| == 64 && |m| >= 1 && (m[0] != '-' ==> MoveDigits(m))
    requires EnPassantLive(board, m, o) ==> 0 <= PassedSquare(LastMove(m, o), tn) < 64
    ensures live == EnPassantLive(board, m, o) && file == EnPassantFile(m, o)
    ensures ep == if live then Bit(PassedSquare(LastMove(m, o), tn)) else 0
  {
    live, file, ep := false, 0, 0;
    if m[0] != '-' {
      var move := LastMove(m, o);
      file := move[1];
      if move[1] == move[3] && Abs(move[0] - move[2]) == 2 && (board[move[2] * 8 + move[3]] == 0 || board[move[2] * 8 + move[3]] == 6) {
        live := true;
        if tn == 1 {
          ep := Bit(move[0] * 8 + move[1] + 8);
        } else {
          ep := Bit(move[0] * 8 + move[1] - 8);
        }
      }
    }
  }

  /** The two board loops of `ParseRequest`: request character i goes to
      cell i, or to cell 63 - i (visiting i from 63 down) when `mirrored`;
      each piece sets its cell's bit and xors in the key of square i. */
  method ReadBoard(zob: seq<seq<bv64>>, b: string, mirrored: bool) returns (board: seq<int>, bs: bv64, hash: bv64)
    requires |b| >= 64
    ensures board == RequestBoard(b, if mirrored then -1 else 1)
    ensures bs == Occupied(board, 64)
    ensures hash == BoardHash(zob, board, 64, mirrored)
  {
    board, bs, hash := [], 0, 0;
    var o := if mirrored then -1 else 1;
    var n := 0;
    while n < 64
      invariant 0 <= n <= 64 && board == Cells(b, o, n)
      invariant bs == Occupied(board, n)
      invariant hash == BoardHash(zob, board, n, mirrored)
    {
      var i := if mirrored then 63 - n else n;
      var toInt := FenRead(b[i]);
      var next := board + [toInt];
      BoardHashPrefix(zob, board, next, n, mirrored);
      OccupiedPrefix(board, next, n);
      bs := Mark(bs, n, toInt != -1);
      assert CellKey(zob, n, toInt, mirrored) == Key(zob, i, toInt);
      hash := Toggled(hash, toInt != -1, Key(zob, i, toInt));
      board := next;
      n := n + 1;
    }
  }
}
