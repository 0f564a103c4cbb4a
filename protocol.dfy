/**
 * The mailbox between Chessington and Enginegton, read from both ends:
 * the request the game writes is split into lines the way the engine's
 * `std::getline` loop reads them and each field decodes to what the game
 * put in; the engine's `GetMoves` reply, after `get_gr` drops its leading
 * "/", parses to the legal moves and flags the engine wrote; and a posted
 * move reaches `process_engine_move` as the move the engine chose, seen
 * from the user's side of the board.
 */
module Protocol {
  import opened Text
  import opened Wrappers
  import opened Grid
  import opened Position
  import opened Games
  import opened Bitboards
  import Engine
  import MoveQueues
  import App

  // ---------------------------------------------------------------------
  // Lines

  /** No newline in the text. */
  predicate OneLine(t: string) {
    forall i :: 0 <= i < |t| ==> t[i] != '\n'
  }

  /** The lines `std::getline` yields until the end of the text: a final
      line without newline is yielded, an empty one after a final newline
      is not. */
  function Lines(s: string): seq<string>
    decreases |s|
  {
    if s == [] then []
    else
      var e := AnswerEnd(s);
      if e < |s| then [s[..e]] + Lines(s[e + 1..]) else [s]
  }

  /** The first newline of `t + "\n" + u` ends `t`. */
  lemma {:induction false} FirstNewline(t: string, u: string)
    requires OneLine(t)
    ensures AnswerEnd(t + "\n" + u) == |t|
  {
    if t != [] {
      FirstNewline(t[1..], u);
      assert (t + "\n" + u)[1..] == t[1..] + "\n" + u;
    }
  }

  /** A line followed by a newline is read as that line, then the rest. */
  lemma LinesCons(t: string, u: string)
    requires OneLine(t)
    ensures Lines(t + "\n" + u) == [t] + Lines(u)
  {
    FirstNewline(t, u);
    var s := t + "\n" + u;
    assert s[..|t|] == t;
    assert s[|t| + 1..] == u;
  }

  lemma LinesLast(t: string)
    requires OneLine(t) && t != []
    ensures Lines(t) == [t]
  {
  }

  lemma IntToStringOneLine(i: int)
    ensures OneLine(IntToString(i))
  {
    var s := IntToString(i);
    if i < 0 {
      assert forall j :: 1 <= j < |s| ==> s[j] == NatToString(-i)[j - 1];
    }
  }

  lemma {:induction false} MoveLineOneLine(move: seq<int>)
    ensures OneLine(MoveLine(move))
  {
    if move != [] {
      MoveLineOneLine(move[1..]);
      IntToStringOneLine(move[0]);
    }
  }

  lemma FenOneLine(b: seq<seq<int>>)
    requires IsBoard(b) && KnownBoard(b)
    ensures |FenOf(b)| == 64 && OneLine(FenOf(b))
  {
    FenSquare(b, 0, 0);
    forall i | 0 <= i < 64 ensures FenOf(b)[i] != '\n' {
      FenSquare(b, i / 8, i % 8);
      assert 8 * (i / 8) + i % 8 == i;
    }
  }

  // ---------------------------------------------------------------------
  // The request, as the engine reads it

  /** Lines joined by newlines, the last one unterminated. */
  function Joined(ls: seq<string>): string {
    if |ls| <= 1 then (if ls == [] then "" else ls[0]) else ls[0] + "\n" + Joined(ls[1..])
  }

  /** Joined lines are read back one by one, when none holds a newline and
      the last is not empty. */
  lemma {:induction false} LinesJoined(ls: seq<string>)
    requires |ls| >= 1 && ls[|ls| - 1] != [] && forall i :: 0 <= i < |ls| ==> OneLine(ls[i])
    ensures Lines(Joined(ls)) == ls
  {
    if |ls| == 1 {
      LinesLast(ls[0]);
    } else {
      LinesJoined(ls[1..]);
      LinesCons(ls[0], Joined(ls[1..]));
    }
  }

  /** A request the game writes is read as five lines: the command word,
      the fen, the turn line, the last move and the castling number. */
  lemma RequestLines(word: string, fen: string, turn: int, orientation: int, move: seq<int>, castling: int)
    requires OneLine(word) && OneLine(fen)
    ensures Lines(Request(word + "\n", fen, turn, orientation, move, castling).Text())
         == [word, fen, NVal(turn) + NVal(orientation), MoveLine(move), IntToString(castling)]
  {
    var tl, ml, cs := NVal(turn) + NVal(orientation), MoveLine(move), IntToString(castling);
    MoveLineOneLine(move);
    IntToStringOneLine(castling);
    IntToStringOneLine(turn);
    IntToStringOneLine(orientation);
    assert OneLine(tl);
    LinesJoined([word, fen, tl, ml, cs]);
    RequestJoined(word, fen, turn, orientation, move, castling);
  }

  /** The request text is its five lines joined. */
  lemma RequestJoined(word: string, fen: string, turn: int, orientation: int, move: seq<int>, castling: int)
    ensures Request(word + "\n", fen, turn, orientation, move, castling).Text()
         == Joined([word, fen, NVal(turn) + NVal(orientation), MoveLine(move), IntToString(castling)])
  {
    var tl, ml, cs := NVal(turn) + NVal(orientation), MoveLine(move), IntToString(castling);
    var ls := [word, fen, tl, ml, cs];
    assert Joined(ls[3..]) == ml + "\n" + cs by {
      assert ls[3..][1..] == [cs];
    }
    assert Joined(ls[2..]) == tl + "\n" + (ml + "\n" + cs) by {
      assert ls[2..][1..] == ls[3..];
    }
    assert Joined(ls[1..]) == fen + "\n" + (tl + "\n" + (ml + "\n" + cs)) by {
      assert ls[1..][1..] == ls[2..];
    }
    TextNests(word + "\n", fen, NVal(turn), NVal(orientation), ml, cs);
  }

  /** The request text, regrouped line by line. */
  lemma TextNests(pref: string, fen: string, t1: string, t2: string, ml: string, cs: string)
    ensures pref + fen + "\n" + t1 + t2 + "\n" + ml + "\n" + cs == pref + (fen + "\n" + ((t1 + t2) + "\n" + (ml + "\n" + cs)))
  {
  }

  /** The turn line decodes to the side to move and the orientation, and
      the castling line to the castling number. */
  lemma RequestFields(turn: int, orientation: int, castling: nat)
    requires (turn == 1 || turn == -1) && (orientation == 1 || orientation == -1)
    ensures var t := NVal(turn) + NVal(orientation);
      |t| == 2 && Engine.TurnOf(t) == turn && Engine.OrientationOf(t) == orientation
    ensures AllDigits(IntToString(castling)) && StringToNat(IntToString(castling)) == castling
  {
    NatToStringRoundTrip(castling);
  }

  /** The engine's piece id of a board code: -1 for an empty square, the
      kind (pawn, knight, bishop, rook, queen, king) as 0 .. 5 for White and
      6 .. 11 for Black. */
  function EngineId(c: int): int
    requires KnownCode(c)
  {
    var kind := match Board.Abs(c) case 1 => 0 case 2 => 1 case 3 => 2 case 5 => 3 case 9 => 4 case _ => 5;
    if c == 0 then -1 else if c > 0 then kind else kind + 6
  }

  /** `fen_read` reads a code's fen letter as the code's engine id. */
  lemma FenReadLetter(c: int)
    requires KnownCode(c)
    ensures Engine.FenRead(FenLetter(c)) == EngineId(c)
  {
  }

  /** The board as the engine holds it: White at the bottom, so the shown
      board turned round when it was sent from Black's side. */
  function Upright(b: seq<seq<int>>, orientation: int): seq<seq<int>>
    requires IsBoard(b)
  {
    if orientation == -1 then Rotated(b) else b
  }

  /** Engine square (r, f) of the request holds the piece on square (r, f)
      of the upright board, whichever side it was sent from. */
  lemma RequestSquare(b: seq<seq<int>>, orientation: int, r: nat, f: nat)
    requires IsBoard(b) && KnownBoard(b) && r < 8 && f < 8
    ensures |FenOf(b)| == 64
    ensures Engine.RequestBoard(FenOf(b), orientation)[8 * r + f] == EngineId(Upright(b, orientation)[r][f])
  {
    var fen := FenOf(b);
    var k := 8 * r + f;
    FenSquare(b, 0, 0);
    assert Engine.RequestBoard(fen, orientation)[k] == Engine.Cell(fen, orientation, k);
    if orientation == -1 {
      var c := b[7 - r][7 - f];
      UprightSquare(b, orientation, r, f);
      FenSquare(b, 7 - r, 7 - f);
      assert 8 * (7 - r) + (7 - f) == 63 - k;
      FenReadLetter(c);
    } else {
      FenSquare(b, r, f);
      FenReadLetter(b[r][f]);
    }
  }

  lemma UprightSquare(b: seq<seq<int>>, orientation: int, r: nat, f: nat)
    requires IsBoard(b) && r < 8 && f < 8
    ensures Upright(b, orientation)[r][f] == if orientation == -1 then b[7 - r][7 - f] else b[r][f]
  {
    if orientation == -1 {
      assert Rotated(b)[r] == Reverse(b[7 - r]);
    }
  }

  /** The last move's line: the engine reads a node's move (four square
      digits, and perhaps a promotion) as its two squares on the upright
      board. The root's move is written "-1-1-1-1" (`RootMoveLine`), whose
      leading '-' the engine reads as no last move. */
  lemma RequestLastMove(move: seq<int>, orientation: int)
    requires 4 <= |move| <= 5 && (forall i :: 0 <= i < 4 ==> 0 <= move[i] < 8) && (|move| == 5 ==> 0 <= move[4] < 10)
    ensures Engine.MoveDigits(MoveLine(move))
    ensures orientation == 1 ==> Engine.LastMove(MoveLine(move), orientation) == move[..4]
    ensures orientation != 1 ==> Engine.LastMove(MoveLine(move), orientation) == ReverseMove(move[..4])
  {
    MoveLineValues(move);
    LastMoveOf(MoveLine(move), move, orientation);
  }

  /** Four square digits read as the squares they spell. */
  lemma LastMoveOf(m: string, move: seq<int>, orientation: int)
    requires Engine.MoveDigits(m) && |move| >= 4
    requires forall i :: 0 <= i < 4 ==> m[i] as int - '0' as int == move[i]
    ensures orientation == 1 ==> Engine.LastMove(m, orientation) == move[..4]
    ensures orientation != 1 ==> Engine.LastMove(m, orientation) == ReverseMove(move[..4])
  {
    var d := [move[0], move[1], move[2], move[3]];
    assert move[..4] == d;
    ReverseFour(d);
  }

  lemma ReverseFour(d: seq<int>)
    requires |d| == 4
    ensures ReverseMove(d) == [7 - d[0], 7 - d[1], 7 - d[2], 7 - d[3]]
  {
  }

  /** The first four characters of a node's move line are its square digits. */
  lemma MoveLineValues(move: seq<int>)
    requires 4 <= |move| <= 5 && (forall i :: 0 <= i < 4 ==> 0 <= move[i] < 8) && (|move| == 5 ==> 0 <= move[4] < 10)
    ensures var m := MoveLine(move);
      && Engine.MoveDigits(m)
      && forall i :: 0 <= i < 4 ==> m[i] as int - '0' as int == move[i]
  {
    MoveLineDigits(move);
  }

  // ---------------------------------------------------------------------
  // The engine's moves, as the game reads them

  /** A move of the engine's board with the given type entry, as the user
      sees it: rank and file of both squares, mirrored from Black's side. */
  function Seen(m: MoveQueues.Move, orientation: int, kind: int): seq<int> {
    if orientation == -1 then [7 - Rank(m.origin), 7 - File(m.origin), 7 - Rank(m.destination), 7 - File(m.destination), kind]
    else [Rank(m.origin), File(m.origin), Rank(m.destination), File(m.destination), kind]
  }

  /** `reverse_move` turns the move seen from one side into the move seen
      from the other. */
  lemma SeenReversed(m: MoveQueues.Move, orientation: int, kind: int)
    requires orientation == 1 || orientation == -1
    ensures ReverseMove(Seen(m, orientation, kind)) == Seen(m, -orientation, kind)
  {
    var r := ReverseMove(Seen(m, orientation, kind));
    assert forall i :: 0 <= i < 5 ==> r[i] == Seen(m, -orientation, kind)[i];
  }

  /** A legal move as `parse_answer` lists it: seen from the request's side,
      with its promotion entry. */
  function Listed(m: MoveQueues.Move, orientation: int): seq<int>
    requires Engine.Writable(m)
  {
    Seen(m, orientation, PromotionEntry(m.kind))
  }

  /** The five digits the engine writes for a move are digits, and read back
      as the move seen from the request's side. */
  lemma DigitsOfMove(m: MoveQueues.Move, orientation: int)
    requires Engine.Writable(m)
    ensures var s := Engine.MoveDigits5(m, orientation);
      && |s| == 5 && (forall t :: 0 <= t < 5 ==> IsDigit(s[t]))
      && [Digit(s[0]), Digit(s[1]), Digit(s[2]), Digit(s[3]), Digit(s[4])] == Seen(m, orientation, m.kind)
  {
    Engine.OrientedWritable(m, orientation);
    if orientation == -1 {
      Engine.FlipMoveMirrors(m);
    }
  }

  /** The `GetMoves` reply without its "/" is all digits up to the newline. */
  lemma MovesTextDigits(ms: seq<MoveQueues.Move>, orientation: int)
    requires forall i :: 0 <= i < |ms| ==> Engine.Writable(ms[i])
    ensures var t := Engine.MovesText(ms, orientation);
      && |t| == 5 * |ms| && AllDigits(t)
      && forall i :: 0 <= i < |ms| ==> Engine.Block(t, i) == Engine.MoveDigits5(ms[i], orientation)
  {
    Engine.MovesTextBlocks(ms, orientation);
    MovesTextAllDigits(ms, orientation);
  }

  /** The moves part of the reply holds nothing but digits. */
  lemma {:induction false} MovesTextAllDigits(ms: seq<MoveQueues.Move>, orientation: int)
    requires forall i :: 0 <= i < |ms| ==> Engine.Writable(ms[i])
    ensures AllDigits(Engine.MovesText(ms, orientation))
    decreases |ms|
  {
    if ms != [] {
      var front, last := ms[..|ms| - 1], ms[|ms| - 1];
      MovesTextAllDigits(front, orientation);
      Engine.MovesTextSnoc(ms, orientation);
      AllDigitsConcat(Engine.MovesText(front, orientation), Engine.MoveDigits5(last, orientation));
    }
  }

  /** `parse_answer` on digits in blocks of five, a newline and four more
      digits: one move per block, then the four flags. */
  lemma BlocksParsed(t: string, fl: string)
    requires |t| % 5 == 0 && AllDigits(t) && |fl| == 4 && AllDigits(fl)
    ensures var res := t + "\n" + fl;
      && Parseable(res) && |AnswerMoves(res)| == |t| / 5
      && (forall j :: 0 <= j < |t| / 5 ==> AnswerMoves(res)[j] == AnswerMove(t, j))
      && AnswerFlags(res) == Some([Digit(fl[0]), Digit(fl[1]), Digit(fl[2]), Digit(fl[3])])
  {
    var res := t + "\n" + fl;
    FirstNewline(t, fl);
    assert Parseable(res);
  }

  /** `parse_answer` reads `res` without error as exactly the writable
      moves `ms`, listed from `orientation`, and the four flags. */
  predicate ParsedAs(res: string, ms: seq<MoveQueues.Move>, orientation: int, flags: seq<int>) {
    && Parseable(res)
    && |AnswerMoves(res)| == |ms|
    && (forall i :: 0 <= i < |ms| ==> Engine.Writable(ms[i]) && AnswerMoves(res)[i] == Listed(ms[i], orientation))
    && AnswerFlags(res) == Some(flags)
  }

  /** `parse_answer` on blocks that hold the digits of writable moves, a
      newline and four flag digits lists exactly those moves. */
  lemma ListedBlocks(t: string, fl: string, ms: seq<MoveQueues.Move>, orientation: int, flags: seq<int>)
    requires |t| == 5 * |ms| && AllDigits(t) && |fl| == 4 && AllDigits(fl)
    requires forall i :: 0 <= i < |ms| ==> Engine.Writable(ms[i]) && Engine.Block(t, i) == Engine.MoveDigits5(ms[i], orientation)
    requires flags == [Digit(fl[0]), Digit(fl[1]), Digit(fl[2]), Digit(fl[3])]
    ensures ParsedAs(t + "\n" + fl, ms, orientation, flags)
  {
    BlocksParsed(t, fl);
    forall i | 0 <= i < |ms| ensures AnswerMove(t, i) == Listed(ms[i], orientation) {
      BlockSeen(t, i, ms[i], orientation);
    }
  }

  /** `parse_answer` on the engine's `GetMoves` reply (what `get_gr` returns,
      after the "/") finds no malformed entry, recovers every legal move in
      order, seen from the request's side with its promotion entry, and
      returns the four flags the engine wrote. */
  lemma GetMovesParsed(ms: seq<MoveQueues.Move>, orientation: int, check: int, checkmate: bool, stalemate: bool, drawn: bool)
    requires forall i :: 0 <= i < |ms| ==> Engine.Writable(ms[i])
    ensures ParsedAs(Engine.MovesReply(ms, orientation, check, checkmate, stalemate, drawn)[1..], ms, orientation,
                     [Flag(check > 0), Flag(checkmate), Flag(stalemate), Flag(drawn)])
  {
    var t := Engine.MovesText(ms, orientation);
    var fl := [Engine.FlagDigit(check > 0), Engine.FlagDigit(checkmate), Engine.FlagDigit(stalemate), Engine.FlagDigit(drawn)];
    var flags := [Flag(check > 0), Flag(checkmate), Flag(stalemate), Flag(drawn)];
    ReplyBody(ms, orientation, check, checkmate, stalemate, drawn);
    MovesTextDigits(ms, orientation);
    FlagsRead(check > 0, checkmate, stalemate, drawn);
    ListedBlocks(t, fl, ms, orientation, flags);
  }

  /** The four flag digits the engine writes read back as the flags. */
  lemma FlagsRead(a: bool, b: bool, c: bool, d: bool)
    ensures var fl := [Engine.FlagDigit(a), Engine.FlagDigit(b), Engine.FlagDigit(c), Engine.FlagDigit(d)];
      && |fl| == 4 && AllDigits(fl)
      && [Digit(fl[0]), Digit(fl[1]), Digit(fl[2]), Digit(fl[3])] == [Flag(a), Flag(b), Flag(c), Flag(d)]
  {
  }

  /** What `get_gr` returns: the reply after its "/". */
  lemma ReplyBody(ms: seq<MoveQueues.Move>, orientation: int, check: int, checkmate: bool, stalemate: bool, drawn: bool)
    ensures Engine.MovesReply(ms, orientation, check, checkmate, stalemate, drawn)[1..]
         == Engine.MovesText(ms, orientation) + "\n"
            + [Engine.FlagDigit(check > 0), Engine.FlagDigit(checkmate), Engine.FlagDigit(stalemate), Engine.FlagDigit(drawn)]
  {
    var x := Engine.MovesText(ms, orientation);
    var fl := [Engine.FlagDigit(check > 0), Engine.FlagDigit(checkmate), Engine.FlagDigit(stalemate), Engine.FlagDigit(drawn)];
    var u := x + "\n" + fl;
    assert "/" + x + "\n" + fl == "/" + u;
    assert ("/" + u)[1..] == u;
  }

  /** Block i of the reply, read by `parse_answer`, is move m seen from the
      request's side, with its promotion entry. */
  lemma BlockSeen(t: string, i: nat, m: MoveQueues.Move, orientation: int)
    requires 5 * i + 5 <= |t| && AllDigits(t) && Engine.Writable(m) && Engine.Block(t, i) == Engine.MoveDigits5(m, orientation)
    ensures AnswerMove(t, i) == Listed(m, orientation)
  {
    var s := Engine.MoveDigits5(m, orientation);
    DigitsOfMove(m, orientation);
    BlockDigits(t, i, s);
  }

  lemma BlockDigits(t: string, i: nat, s: string)
    requires 5 * i + 5 <= |t| && Engine.Block(t, i) == s
    ensures |s| == 5 && t[5 * i] == s[0] && t[5 * i + 1] == s[1] && t[5 * i + 2] == s[2] && t[5 * i + 3] == s[3] && t[5 * i + 4] == s[4]
  {
  }

  /** A flag as `parse_answer` reads the digit the engine wrote for it. */
  function Flag(b: bool): int {
    if b then 1 else 0
  }

  /** A move the engine posts after a search started from `searchOrientation`
      reaches the game, while the search runs, as that move seen from the
      user's side, whatever the two orientations are; the search ends. */
  lemma PostedMoveSeen(m: MoveQueues.Move, searchOrientation: int, userOrientation: int)
    requires Engine.Writable(m)
    requires (searchOrientation == 1 || searchOrientation == -1) && (userOrientation == 1 || userOrientation == -1)
    ensures App.EngineMove(Engine.PostText(m, searchOrientation), true, searchOrientation, userOrientation)
         == (App.Found(Seen(m, userOrientation, m.kind)), false)
  {
    var res := Engine.PostText(m, searchOrientation);
    Engine.PostTextDigits(m, searchOrientation);
    DigitsOfMove(m, searchOrientation);
    var s := Engine.MoveDigits5(m, searchOrientation);
    assert res[2..] == s;
    assert App.DigitsBetween(res, 2, 7);
    assert [Digit(res[2]), Digit(res[3]), Digit(res[4]), Digit(res[5]), Digit(res[6])] == Seen(m, searchOrientation, m.kind);
    SeenReversed(m, searchOrientation, m.kind);
  }
}
