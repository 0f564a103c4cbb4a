/**
 * The parts of Chessington's application object that compute rather than
 * draw: reading the engine's "f/" reply, the castling check of the board
 * editor, the king count that lets a game start from the editor, turning
 * the board round, promoting a variation, and the window layout.
 */
module App {
  import opened Wrappers
  import opened Text
  import opened Grid
  import opened Position
  import opened Tree
  import opened MoveTrees
  import opened Games
  import Board

  // ---------------------------------------------------------------------
  // The engine's "f/" reply

  /** What `process_engine_move` makes of a reply. */
  datatype Reply =
    | Ignored                  // too short, not "f/", or no search running
    | Failed                   // `int` or an index fails on the characters
    | Found(move: seq<int>)    // the move handed on, in the user's orientation

  predicate DigitsBetween(res: string, lo: nat, hi: nat)
    requires lo <= hi <= |res|
  {
    forall i :: lo <= i < hi ==> IsDigit(res[i])
  }

  /** The digits of an accepted reply: five single digits when it has seven
      characters, otherwise four digits and a two-digit type. */
  function ReplyDigits(res: string): Option<seq<int>>
    requires |res| >= 2
  {
    if |res| == 7 then
      if DigitsBetween(res, 2, 7) then Some([Digit(res[2]), Digit(res[3]), Digit(res[4]), Digit(res[5]), Digit(res[6])])
      else None
    else if |res| >= 8 && DigitsBetween(res, 2, 8) then
      Some([Digit(res[2]), Digit(res[3]), Digit(res[4]), Digit(res[5]), 10 * Digit(res[6]) + Digit(res[7])])
    else None
  }

  /** `process_engine_move` up to the move it hands on, with the search flag
      afterwards: a reply is ignored unless a search is running and it starts
      "f/"; otherwise the search ends and the digits are read, mirrored
      (`reverse_move`) when the search started from the other orientation. */
  function EngineMove(res: string, searching: bool, searchOrientation: int, userOrientation: int): (Reply, bool) {
    if |res| < 2 || res[0] != 'f' || res[1] != '/' || !searching then (Ignored, searching)
    else
      match ReplyDigits(res)
      case None => (Failed, false)
      case Some(m) => (Found(if searchOrientation != userOrientation then ReverseMove(m) else m), false)
  }

  /** A reply is ignored, with the flag left alone, exactly when it is shorter
      than two characters, does not start "f/", or comes while no search is
      running; any other reply ends the search. */
  lemma EngineMoveIgnored(res: string, searching: bool, searchOrientation: int, userOrientation: int)
    ensures var r := EngineMove(res, searching, searchOrientation, userOrientation);
      && (r.0 == Ignored <==> |res| < 2 || !("f/" <= res) || !searching)
      && r.1 == (r.0 == Ignored && searching)
  {
    if |res| >= 2 {
      assert "f/" <= res <==> res[0] == 'f' && res[1] == '/' by {
        if res[0] == 'f' && res[1] == '/' {
          assert res[..2] == "f/";
        }
      }
    }
  }

  /** A seven-character reply of digits decodes to its five digits, mirrored
      each (the type kept) when the orientations differ; mirroring twice
      gives the digits back. */
  lemma EngineMoveSeven(res: string, searchOrientation: int, userOrientation: int)
    requires |res| == 7 && "f/" <= res && DigitsBetween(res, 2, 7)
    ensures var d: seq<int> := [Digit(res[2]), Digit(res[3]), Digit(res[4]), Digit(res[5]), Digit(res[6])];
      var r := EngineMove(res, true, searchOrientation, userOrientation);
      && r.1 == false && r.0.Found? && |r.0.move| == 5 && r.0.move[4] == d[4]
      && (searchOrientation == userOrientation ==> r.0.move == d)
      && (searchOrientation != userOrientation ==>
            (forall i :: 0 <= i < 4 ==> r.0.move[i] == 7 - d[i]) && ReverseMove(r.0.move) == d)
  {
    assert res[0] == 'f' && res[1] == '/';
    var d: seq<int> := [Digit(res[2]), Digit(res[3]), Digit(res[4]), Digit(res[5]), Digit(res[6])];
    ReverseMoveInvolution(d);
  }

  /** Any other accepted reply of at least eight characters carries a
      two-digit type; a shorter one fails. */
  lemma EngineMoveLong(res: string, searchOrientation: int, userOrientation: int)
    requires |res| != 7 && "f/" <= res
    ensures var r := EngineMove(res, true, searchOrientation, userOrientation);
      && (r.0 == Failed <==> |res| < 8 || !DigitsBetween(res, 2, 8))
      && (r.0.Found? ==> |r.0.move| == 5 && r.0.move[4] == 10 * Digit(res[6]) + Digit(res[7]))
  {
    assert res[0] == 'f' && res[1] == '/';
  }

  // ---------------------------------------------------------------------
  // The board editor's castling check

  /** The home squares of the four rights, as the editor tests them: the
      king and the rook of the right stand where they start. */
  predicate WhiteShortHome(b: seq<seq<int>>) requires IsBoard(b) { b[7][4] == 10 && b[7][7] == 5 }
  predicate WhiteLongHome(b: seq<seq<int>>) requires IsBoard(b) { b[7][4] == 10 && b[7][0] == 5 }
  predicate BlackShortHome(b: seq<seq<int>>) requires IsBoard(b) { b[0][4] == -10 && b[0][7] == -5 }
  predicate BlackLongHome(b: seq<seq<int>>) requires IsBoard(b) { b[0][4] == -10 && b[0][0] == -5 }

  /** `verify_castling_choices` as written: an elif chain, so the first
      failing test alone subtracts its value (8, 4, 2 or 1), whether or not
      that right was chosen. */
  function CastlingChoicesAsWritten(b: seq<seq<int>>, castle: int): int
    requires IsBoard(b)
  {
    if !WhiteShortHome(b) then castle - 8
    else if !WhiteLongHome(b) then castle - 4
    else if !BlackShortHome(b) then castle - 2
    else if !BlackLongHome(b) then castle - 1
    else castle
  }

  /** A board the editor lets through: one king of each colour and nothing
      else, Black's king on e8 and White's on e2, off its home square. */
  function KingsOnly(): (b: seq<seq<int>>)
    ensures IsBoard(b)
  {
    seq(8, r => seq(8, f => if f == 4 && r == 0 then -10 else if f == 4 && r == 6 then 10 else 0))
  }

  /** As written, the castling check drives the packed rights negative when no right
      was chosen and White's king is off e1, on a board the game starts
      from, and keeps three rights whose pieces are missing. */
  lemma CastlingChoicesAsWrittenWrong()
    ensures MayStart(true, KingsOnly())
    ensures CastlingChoicesAsWritten(KingsOnly(), 0) == -8
    ensures CastlingChoicesAsWritten(KingsOnly(), 15) == 7
  {
    assert KingsOnly()[7][4] == 0;
    KingsOnlyStarts();
  }

  /** The editor lets the kings-only board start a game. */
  lemma KingsOnlyStarts()
    ensures MayStart(true, KingsOnly())
  {
    var b := KingsOnly();
    forall i | 0 <= i < 8
      ensures multiset(b[i])[10] == (if i == 6 then 1 else 0)
      ensures multiset(b[i])[-10] == (if i == 0 then 1 else 0)
    {
      if i == 6 { OnlyAt(b[i], 4, 10); } else { Nowhere(b[i], 10); }
      if i == 0 { OnlyAt(b[i], 4, -10); } else { Nowhere(b[i], -10); }
    }
    CountedOnce(b, 10, 6);
    CountedOnce(b, -10, 0);
  }

  /** A code on square j of a rank and on no other square occurs once. */
  lemma OnlyAt(row: seq<int>, j: int, v: int)
    requires 0 <= j < |row| && row[j] == v
    requires forall i :: 0 <= i < |row| && i != j ==> row[i] != v
    ensures multiset(row)[v] == 1
  {
    assert row == row[..j] + [v] + row[j + 1..];
    assert v !in row[..j];
    assert v !in row[j + 1..];
  }

  /** A code on no square of a rank does not occur in it. */
  lemma Nowhere(row: seq<int>, v: int)
    requires forall i :: 0 <= i < |row| ==> row[i] != v
    ensures multiset(row)[v] == 0
  {
    assert v !in row;
  }

  /** Whether bit `v` (8, 4, 2 or 1) of the packed rights is set. */
  function Chosen(castle: int, v: nat): bool
    requires v > 0
  {
    (castle / v) % 2 == 1
  }

  /** The right worth `v`, kept when it was chosen and its pieces are home. */
  function Kept(castle: int, v: nat, home: bool): nat
    requires v > 0
  {
    if Chosen(castle, v) && home then v else 0
  }

  /** The check as evidently intended: every chosen right whose king or rook
      is away from home is dropped, and nothing else. */
  function CastlingChoices(b: seq<seq<int>>, castle: int): int
    requires IsBoard(b)
  {
    Kept(castle, 8, WhiteShortHome(b)) + Kept(castle, 4, WhiteLongHome(b))
      + Kept(castle, 2, BlackShortHome(b)) + Kept(castle, 1, BlackLongHome(b))
  }

  /** The corrected check keeps the packed rights in 0 .. 15, keeps a right
      exactly when it was chosen and its pieces are home, and agrees with
      the castling check as written whenever every test passes. */
  lemma CastlingChoicesMeaning(b: seq<seq<int>>, castle: int)
    requires IsBoard(b) && 0 <= castle < 16
    ensures var c := CastlingChoices(b, castle);
      && 0 <= c < 16 && c <= castle
      && (Chosen(c, 8) <==> Chosen(castle, 8) && WhiteShortHome(b))
      && (Chosen(c, 4) <==> Chosen(castle, 4) && WhiteLongHome(b))
      && (Chosen(c, 2) <==> Chosen(castle, 2) && BlackShortHome(b))
      && (Chosen(c, 1) <==> Chosen(castle, 1) && BlackLongHome(b))
      && (WhiteShortHome(b) && WhiteLongHome(b) && BlackShortHome(b) && BlackLongHome(b) ==>
            c == castle == CastlingChoicesAsWritten(b, castle))
  {
    var w8, w4, w2, w1 := Kept(castle, 8, WhiteShortHome(b)), Kept(castle, 4, WhiteLongHome(b)),
                          Kept(castle, 2, BlackShortHome(b)), Kept(castle, 1, BlackLongHome(b));
    PackedBits(castle);
    PackedBits(w8 + w4 + w2 + w1);
  }

  /** A number below 16 is the sum of its four bits. */
  lemma PackedBits(c: int)
    requires 0 <= c < 16
    ensures c == (if Chosen(c, 8) then 8 else 0) + (if Chosen(c, 4) then 4 else 0)
                 + (if Chosen(c, 2) then 2 else 0) + (if Chosen(c, 1) then 1 else 0)
  {
  }

  // ---------------------------------------------------------------------
  // Kings on the editor's board

  /** `row.count(v)`. */
  function Occurrences(row: seq<int>, v: int): nat {
    if row == [] then 0 else Occurrences(row[..|row| - 1], v) + (if row[|row| - 1] == v then 1 else 0)
  }

  /** `sum(row.count(v) for row in b)`. */
  function BoardOccurrences(b: seq<seq<int>>, v: int): nat {
    if b == [] then 0 else BoardOccurrences(b[..|b| - 1], v) + Occurrences(b[|b| - 1], v)
  }

  /** The squares rank by rank. */
  function Flatten(b: seq<seq<int>>): seq<int> {
    if b == [] then [] else Flatten(b[..|b| - 1]) + b[|b| - 1]
  }

  /** `king_count`: the white kings and the black kings. */
  function KingCount(b: seq<seq<int>>): (int, int) {
    (BoardOccurrences(b, 10), BoardOccurrences(b, -10))
  }

  /** A row's count is the multiplicity of the code among its squares. */
  lemma {:induction false} OccurrencesCount(row: seq<int>, v: int)
    ensures Occurrences(row, v) == multiset(row)[v]
  {
    if row != [] {
      OccurrencesCount(row[..|row| - 1], v);
      assert row == row[..|row| - 1] + [row[|row| - 1]];
    }
  }

  /** The board's count is the multiplicity of the code among all squares. */
  lemma {:induction false} BoardOccurrencesCount(b: seq<seq<int>>, v: int)
    ensures BoardOccurrences(b, v) == multiset(Flatten(b))[v]
  {
    if b != [] {
      BoardOccurrencesCount(b[..|b| - 1], v);
      OccurrencesCount(b[|b| - 1], v);
    }
  }

  /** A code on no row is not counted. */
  lemma {:induction false} NotCounted(b: seq<seq<int>>, v: int)
    requires forall i :: 0 <= i < |b| ==> multiset(b[i])[v] == 0
    ensures BoardOccurrences(b, v) == 0
  {
    if b != [] {
      NotCounted(b[..|b| - 1], v);
      OccurrencesCount(b[|b| - 1], v);
    }
  }

  /** A code on one square of row r and on no other row is counted once. */
  lemma {:induction false} CountedOnce(b: seq<seq<int>>, v: int, r: int)
    requires 0 <= r < |b| && multiset(b[r])[v] == 1
    requires forall i :: 0 <= i < |b| && i != r ==> multiset(b[i])[v] == 0
    ensures BoardOccurrences(b, v) == 1
  {
    var last := |b| - 1;
    OccurrencesCount(b[last], v);
    if r == last {
      NotCounted(b[..last], v);
    } else {
      CountedOnce(b[..last], v, r);
    }
  }

  /** `to_game`'s gate: a game from the editor starts only with one king of
      each colour; any other game always starts. */
  predicate MayStart(fromPos: bool, b: seq<seq<int>>) {
    !fromPos || KingCount(b) == (1, 1)
  }

  /** From the editor, a game starts exactly when the board holds one white
      king and one black king. */
  lemma MayStartKings(b: seq<seq<int>>)
    ensures MayStart(true, b) <==> multiset(Flatten(b))[10] == 1 && multiset(Flatten(b))[-10] == 1
  {
    BoardOccurrencesCount(b, 10);
    BoardOccurrencesCount(b, -10);
  }

  // ---------------------------------------------------------------------
  // Turning the board round

  /** Every legal move mirrored (`reverse_move` on each). */
  function MirroredMoves(ms: seq<seq<int>>): (r: seq<seq<int>>)
    ensures |r| == |ms|
  {
    seq(|ms|, i requires 0 <= i < |ms| => ReverseMove(ms[i]))
  }

  /** What `flip_board` does to the game: the user's orientation is negated,
      the shown position turned to face it, and the legal moves mirrored. */
  function Flipped(p: State): State
    requires p.current.InTree? ==> p.current.key in p.lookup
  {
    var uo := -p.userOrientation;
    var q := p.(userOrientation := uo, legalMoves := MirroredMoves(p.legalMoves));
    match p.current
    case InTree(k) => q.(lookup := p.lookup[k := Facing(p.lookup[k], uo)])
    case Loose(n) => q.(current := Loose(Facing(n, uo)))
  }

  /** Turning keeps the game well formed and changes nothing but the
      orientation, the legal moves and the shown position. */
  lemma FlippedWell(p: State)
    requires Well(p)
    ensures Well(Flipped(p))
    ensures Flipped(p).userOrientation == -p.userOrientation
    ensures Flipped(p) == p.(userOrientation := Flipped(p).userOrientation, legalMoves := MirroredMoves(p.legalMoves),
                            current := Flipped(p).current, lookup := Flipped(p).lookup)
    ensures Flipped(p).current.InTree? <==> p.current.InTree?
    ensures Shown(Flipped(p)) == Facing(Shown(p), -p.userOrientation)
    ensures p.current.InTree? ==>
      Flipped(p).current == p.current && Flipped(p).lookup == p.lookup[p.current.key := Shown(Flipped(p))]
    ensures p.current.Loose? ==> Flipped(p).lookup == p.lookup
  {
    if p.current.InTree? {
      var k := p.current.key;
      ReplaceKeepsValid(p.lookup, p.nextId, k, Facing(p.lookup[k], -p.userOrientation));
    }
  }

  /** Mirroring every move twice gives the moves back. */
  lemma MirroredTwice(ms: seq<seq<int>>)
    requires forall i :: 0 <= i < |ms| ==> |ms[i]| <= 5
    ensures MirroredMoves(MirroredMoves(ms)) == ms
  {
    forall i | 0 <= i < |ms| ensures MirroredMoves(MirroredMoves(ms))[i] == ms[i] {
      ReverseMoveInvolution(ms[i]);
    }
  }

  /** A position facing `o`, turned to face `-o` and back, is itself again. */
  lemma FacingTwice(n: Node, o: int)
    requires n.orientation == o && ValidNodeMove(n.move)
    ensures Facing(Facing(n, -o), o) == n
  {
    if o != 0 {
      ReorientedInvolution(n);
    }
  }

  /** Turning twice restores the orientation and the legal moves (moves of
      at most five entries); when the shown position faced the user and
      holds a move of the board, it restores the whole game. */
  lemma FlippedTwice(p: State)
    requires Well(p) && forall i :: 0 <= i < |p.legalMoves| ==> |p.legalMoves[i]| <= 5
    ensures Flipped(Flipped(p)).userOrientation == p.userOrientation
    ensures Flipped(Flipped(p)).legalMoves == p.legalMoves
    ensures Shown(p).orientation == p.userOrientation && ValidNodeMove(Shown(p).move) ==> Flipped(Flipped(p)) == p
  {
    MirroredTwice(p.legalMoves);
    var n, uo := Shown(p), p.userOrientation;
    if n.orientation == uo && ValidNodeMove(n.move) {
      FacingTwice(n, uo);
      if p.current.InTree? {
        var k := p.current.key;
        assert Flipped(Flipped(p)).lookup == p.lookup[k := n];
        assert p.lookup[k := n] == p.lookup;
      }
    }
  }

  /** `flip_board`: the game turned as `Flipped` says, the board shown turned
      (`Board.flip`) and its file letters mirrored. */
  method FlipBoard(game: Game, board: Board.Board)
    requires game.Valid() && board.Valid()
    modifies game`userOrientation, game`legalMoves, game`current, game.tree`lookup
    modifies board`position, board`fileNames
    ensures game.Snapshot() == Flipped(old(game.Snapshot()))
    ensures board.Valid() && board.position == Rotated(old(board.position))
    ensures board.fileNames == Board.Mirrored(old(board.fileNames))
  {
    RotatedSquares(board.position);
    board.position := Rotated(board.position);
    board.FlipFileNotation();
    var before := game.legalMoves;
    var moves := before;
    var i := 0;
    while i < |moves|
      invariant 0 <= i <= |moves| == |before|
      invariant forall j :: 0 <= j < i ==> moves[j] == ReverseMove(before[j])
      invariant forall j :: i <= j < |moves| ==> moves[j] == before[j]
    {
      moves := moves[i := ReverseMove(moves[i])];
      i := i + 1;
    }
    assert moves == MirroredMoves(before);
    ghost var p := game.Snapshot();
    var uo := -game.userOrientation;
    game.userOrientation, game.legalMoves := uo, moves;
    match game.current {
      case InTree(k) =>
        if game.tree.lookup[k].orientation != uo {
          game.tree.Reorient(k);
        }
        assert game.tree.lookup == p.lookup[k := Facing(p.lookup[k], uo)];
      case Loose(n) =>
        game.current := Loose(Facing(n, uo));
    }
  }

  // ---------------------------------------------------------------------
  // Promoting a variation

  /** `promote_variation` on the shown position: the branch ancestor trades
      places with the sibling before it. `ok` is false, and nothing changes,
      where the source raises: on the loose position of a redirect (it has no
      parent), on a position with no branch ancestor, or on one cut out of
      the tree. */
  method PromoteVariation(game: Game) returns (ok: bool)
    requires game.Valid()
    modifies game.tree`lookup
    ensures game.Valid()
    ensures game.current.Loose? ==> !ok && game.tree.lookup == old(game.tree.lookup)
    ensures game.current.InTree? ==>
      var a := old(game.tree.lookup); var b := FindBranchAncestor(a, game.current.key);
      && (b.None? || SiblingIndex(a, b.value).None? ==> !ok && game.tree.lookup == a)
      && (b.Some? && SiblingIndex(a, b.value).Some? ==>
            var p := Parent(a, b.value); var i := SiblingIndex(a, b.value).value;
            ok && i > 0 && game.tree.lookup == a[p := a[p].(children := SwapDown(a[p].children, i))])
  {
    match game.current {
      case Loose(_) =>
        return false;
      case InTree(k) =>
        ok := game.tree.PromoteVariation(k);
    }
  }

  // ---------------------------------------------------------------------
  // The window

  /** `get_dimensions(height)`: the screen width, the height, the square size
      and the side margin. Python's `//` by a positive number is Dafny's `/`. */
  function Dimensions(height: int): (int, int, int, int) {
    var margin := height / 2;
    var width := height + margin;
    (width, height, (width - margin) / 8, margin)
  }

  /** The square size is an eighth of the height, rounded down, so the eight
      squares fit the height; the width is the height plus the margin. */
  lemma DimensionsMeaning(height: int)
    ensures var d := Dimensions(height);
      && d.2 == height / 8 && 8 * d.2 <= height < 8 * d.2 + 8
      && d.0 == height + d.3 && d.3 == height / 2 && d.1 == height
  {
  }
}
