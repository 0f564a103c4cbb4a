/**
 * Chessington's `Game`: the side to move, the display orientation, the
 * legal moves last received from the engine, the variation tree with the
 * position shown, and the repetition count kept by fen string. The engine
 * is reached through text: `get_engine_args` writes a request, and the
 * reply to "get" (the legal moves and four flags) is read by
 * `parse_answer`. Here a request is returned as text and a reply is passed
 * in as text; the mailbox file and the waiting are not modelled.
 */
module Games {
  import opened Wrappers
  import opened Text
  import opened Grid
  import opened Position
  import opened Tree
  import opened Events
  import opened MoveTrees
  import Board

  // ---------------------------------------------------------------------
  // Fen strings

  /** The codes `fen_dict` has a letter for, of either sign. */
  predicate KnownCode(c: int) {
    var a := Board.Abs(c);
    a == 0 || a == 1 || a == 2 || a == 3 || a == 5 || a == 9 || a == 10
  }

  /** `fen_dict[abs(c)]`, lower-cased for a black piece; empty squares are '0'. */
  function FenLetter(c: int): (ch: char)
    requires KnownCode(c)
    ensures c == 0 <==> ch == '0'
    ensures c > 0 ==> 'A' <= ch <= 'Z'
    ensures c < 0 ==> 'a' <= ch <= 'z'
  {
    var upper := match Board.Abs(c)
      case 0 => '0' case 1 => 'P' case 2 => 'N' case 3 => 'B' case 5 => 'R' case 9 => 'Q' case _ => 'K';
    if c < 0 then (upper as int + 32) as char else upper
  }

  /** Different codes get different letters. */
  lemma FenLetterInjective(c: int, d: int)
    requires KnownCode(c) && KnownCode(d) && FenLetter(c) == FenLetter(d)
    ensures c == d
  {
  }

  predicate KnownRow(row: seq<int>) {
    forall f :: 0 <= f < |row| ==> KnownCode(row[f])
  }

  predicate KnownBoard(pos: seq<seq<int>>) {
    forall r :: 0 <= r < |pos| ==> KnownRow(pos[r])
  }

  /** The letters of one rank, file by file. */
  function RowFen(row: seq<int>): (s: string)
    requires KnownRow(row)
    ensures |s| == |row| && forall f :: 0 <= f < |row| ==> s[f] == FenLetter(row[f])
  {
    if row == [] then "" else RowFen(row[..|row| - 1]) + [FenLetter(row[|row| - 1])]
  }

  /** `to_fen`: the ranks' letters one after another. */
  function FenOf(pos: seq<seq<int>>): string
    requires KnownBoard(pos)
  {
    if pos == [] then "" else FenOf(pos[..|pos| - 1]) + RowFen(pos[|pos| - 1])
  }

  /** On ranks of eight, the fen has eight letters per rank, and the
      letter of square (r, f) stands at 8r + f. */
  lemma {:induction false} FenPrefix(pos: seq<seq<int>>)
    requires KnownBoard(pos) && forall r :: 0 <= r < |pos| ==> |pos[r]| == 8
    ensures |FenOf(pos)| == 8 * |pos|
    ensures forall r, f :: 0 <= r < |pos| && 0 <= f < 8 ==> FenOf(pos)[8 * r + f] == FenLetter(pos[r][f])
  {
    if pos != [] {
      var front := pos[..|pos| - 1];
      FenPrefix(front);
      forall r, f | 0 <= r < |pos| && 0 <= f < 8 ensures FenOf(pos)[8 * r + f] == FenLetter(pos[r][f]) {
        if r < |front| {
          assert FenOf(pos)[8 * r + f] == FenOf(front)[8 * r + f];
          assert pos[r] == front[r];
        } else {
          assert FenOf(pos)[8 * r + f] == RowFen(pos[r])[f];
        }
      }
    }
  }

  /** A board's fen: 64 letters, square (r, f) at 8r + f. */
  lemma FenLayout(b: seq<seq<int>>)
    requires IsBoard(b) && KnownBoard(b)
    ensures |FenOf(b)| == 64
    ensures forall r, f :: 0 <= r < 8 && 0 <= f < 8 ==> FenOf(b)[8 * r + f] == FenLetter(b[r][f])
  {
    FenPrefix(b);
  }

  lemma KnownRotated(b: seq<seq<int>>)
    requires IsBoard(b) && KnownBoard(b)
    ensures IsBoard(Rotated(b)) && KnownBoard(Rotated(b))
  {
    RotatedSquares(b);
  }

  /** One square of a board's fen. */
  lemma FenSquare(b: seq<seq<int>>, r: nat, f: nat)
    requires IsBoard(b) && KnownBoard(b) && r < 8 && f < 8
    ensures |FenOf(b)| == 64 && FenOf(b)[8 * r + f] == FenLetter(b[r][f])
  {
    FenPrefix(b);
  }

  /** One square of `FenRotated`. */
  lemma FenRotatedSquare(b: seq<seq<int>>, r: nat, f: nat)
    requires IsBoard(b) && KnownBoard(b) && r < 8 && f < 8
    ensures KnownBoard(Rotated(b)) && |FenOf(Rotated(b))| == |FenOf(b)| == 64
    ensures FenOf(Rotated(b))[8 * r + f] == Reverse(FenOf(b))[8 * r + f]
  {
    KnownRotated(b);
    RotatedSquares(b);
    FenSquare(b, 7 - r, 7 - f);
    FenSquare(Rotated(b), r, f);
    assert 63 - (8 * r + f) == 8 * (7 - r) + (7 - f);
    assert Rotated(b)[r][f] == b[7 - r][7 - f];
  }

  /** The fen of the turned board (`Board.flip`) is the fen read backwards. */
  lemma FenRotated(b: seq<seq<int>>)
    requires IsBoard(b) && KnownBoard(b)
    ensures KnownBoard(Rotated(b)) && FenOf(Rotated(b)) == Reverse(FenOf(b))
  {
    KnownRotated(b);
    FenLayout(b);
    FenLayout(Rotated(b));
    var s, t := FenOf(Rotated(b)), Reverse(FenOf(b));
    forall k | 0 <= k < 64 ensures s[k] == t[k] {
      var r, f := k / 8, k % 8;
      FenRotatedSquare(b, r, f);
      assert k == 8 * r + f;
    }
  }

  /** Two boards with the same fen are the same board, so the fen can key
      the repetition count. */
  lemma FenInjective(a: seq<seq<int>>, b: seq<seq<int>>)
    requires IsBoard(a) && KnownBoard(a) && IsBoard(b) && KnownBoard(b)
    requires FenOf(a) == FenOf(b)
    ensures a == b
  {
    forall r | 0 <= r < 8 ensures a[r] == b[r] {
      forall f | 0 <= f < 8 ensures a[r][f] == b[r][f] {
        FenSquare(a, r, f);
        FenSquare(b, r, f);
        FenLetterInjective(a[r][f], b[r][f]);
      }
    }
  }

  /** The key the repetition count is kept under: the fen as white sees the
      board, read backwards when the board is shown from black's side. */
  function RepetitionKey(fen: string, orientation: int): string {
    if orientation == -1 then Reverse(fen) else fen
  }

  /** The key does not depend on the side the board is shown from: the
      board shown from black's side is the white view turned. */
  lemma RepetitionKeyOfView(white: seq<seq<int>>, orientation: int)
    requires IsBoard(white) && KnownBoard(white) && (orientation == 1 || orientation == -1)
    ensures var shown := if orientation == -1 then Rotated(white) else white;
      KnownBoard(shown) && RepetitionKey(FenOf(shown), orientation) == FenOf(white)
  {
    FenRotated(white);
    var s := FenOf(white);
    assert Reverse(Reverse(s)) == s;
  }

  // ---------------------------------------------------------------------
  // The request text

  /** `n_val`: -1 is written "-", anything else as `str` writes it. */
  function NVal(v: int): (s: string)
    ensures |s| >= 1 && (s[0] == '-' <==> v < 0)
    ensures v == 1 || v == -1 ==> |s| == 1
  {
    if v == -1 then "-" else IntToString(v)
  }

  /** The move's entries written one after another. */
  function MoveLine(move: seq<int>): string {
    if move == [] then "" else IntToString(move[0]) + MoveLine(move[1..])
  }

  /** A move of single digits is written one character per entry. */
  lemma {:induction false} MoveLineDigits(move: seq<int>)
    requires forall i :: 0 <= i < |move| ==> 0 <= move[i] < 10
    ensures |MoveLine(move)| == |move| && forall i :: 0 <= i < |move| ==> MoveLine(move)[i] == DigitChar(move[i])
  {
    if move != [] {
      MoveLineDigits(move[1..]);
    }
  }

  /** The root's move is written "-1-1-1-1". */
  lemma RootMoveLine()
    ensures MoveLine([-1, -1, -1, -1]) == "-1-1-1-1"
  {
    var m := [-1, -1, -1, -1];
    assert IntToString(-1) == "-1";
    assert m[1..] == [-1, -1, -1] && m[1..][1..] == [-1, -1] && m[1..][1..][1..] == [-1];
  }

  /** `get_engine_args`: the tag line, the fen, the side to move and the
      orientation, the last move, and the castling rights. */
  function EngineArgs(pref: string, fen: string, turn: int, orientation: int, move: seq<int>, castling: int): string {
    pref + fen + "\n" + NVal(turn) + NVal(orientation) + "\n" + MoveLine(move) + "\n" + IntToString(castling)
  }

  /** A request to the engine: `pref` names the command; its text is
      `EngineArgs`. */
  datatype Request = Request(pref: string, fen: string, turn: int, orientation: int, move: seq<int>, castling: int)
  {
    function Text(): string {
      EngineArgs(pref, fen, turn, orientation, move, castling)
    }
  }

  // ---------------------------------------------------------------------
  // The reply to "get"

  /** Where the move list ends: the first newline, or the end of the text. */
  function AnswerEnd(res: string): (e: nat)
    ensures e <= |res| && forall i :: 0 <= i < e ==> res[i] != '\n'
    ensures e < |res| ==> res[e] == '\n'
  {
    if res == [] then 0 else if res[0] == '\n' then 0 else 1 + AnswerEnd(res[1..])
  }

  /** What `parse_answer` needs to convert without error: digits in every
      complete block of five before the newline, and four digits after it. */
  predicate Parseable(res: string) {
    var e := AnswerEnd(res);
    && (forall i :: 0 <= i < 5 * (e / 5) ==> IsDigit(res[i]))
    && (e < |res| ==> e + 4 < |res| && forall j :: e < j <= e + 4 ==> IsDigit(res[j]))
  }

  /** The promotion digit is kept only as a type 1 .. 4. */
  function PromotionEntry(p: nat): nat {
    if 0 < p < 5 then p else 0
  }

  /** Block j as a legal move: two squares and the promotion type. */
  function AnswerMove(res: string, j: nat): (m: seq<int>)
    requires 5 * j + 5 <= |res| && forall i :: 5 * j <= i < 5 * j + 5 ==> IsDigit(res[i])
    ensures |m| == 5 && forall i :: 0 <= i < 4 ==> 0 <= m[i] < 10
  {
    [Digit(res[5 * j]), Digit(res[5 * j + 1]), Digit(res[5 * j + 2]), Digit(res[5 * j + 3]),
     PromotionEntry(Digit(res[5 * j + 4]))]
  }

  /** The moves of a reply: one per complete block before the newline. */
  function AnswerMoves(res: string): (ms: seq<seq<int>>)
    requires Parseable(res)
    ensures |ms| == AnswerEnd(res) / 5
  {
    var e := AnswerEnd(res);
    seq(e / 5, j requires 0 <= j < e / 5 => AnswerMove(res, j))
  }

  /** A prefix one longer is the prefix and the next element. */
  lemma TakeOneMore<T>(s: seq<T>, j: int)
    requires 0 <= j < |s|
    ensures s[..j + 1] == s[..j] + [s[j]]
  {
  }

  /** The four flags after the newline; none without a newline. */
  function AnswerFlags(res: string): (flags: Option<seq<int>>)
    requires Parseable(res)
    ensures flags.Some? <==> AnswerEnd(res) < |res|
    ensures flags.Some? ==> |flags.value| == 4 && forall i :: 0 <= i < 4 ==> 0 <= flags.value[i] < 10
  {
    var e := AnswerEnd(res);
    if e < |res| then Some([Digit(res[e + 1]), Digit(res[e + 2]), Digit(res[e + 3]), Digit(res[e + 4])]) else None
  }

  // ---------------------------------------------------------------------
  // The engine's verdict on a position

  /** What `update_events` does with the flags (check, mate, stalemate,
      insufficient material): the marker added to the current move, and
      the board state put first among the events. */
  datatype Verdict = Verdict(mark: Option<string>, state: Option<Event>)

  function Judge(data: seq<int>, engineOn: bool, turn: int): (v: Verdict)
    requires |data| == 4
    ensures v.state.Some? ==> v.state.value.BoardState?
  {
    if data[3] == 1 && engineOn then Verdict(None, Some(BoardState(3, Some(InsufficientMaterial))))
    else if data[0] == 1 && data[1] == 0 then Verdict(Some("+"), Some(BoardState(1, None)))
    else if data[1] == 1 then
      Verdict(Some("#"),
              if engineOn && turn == 1 then Some(BoardState(2, Some(BlackWins)))
              else if engineOn && turn == -1 then Some(BoardState(2, Some(WhiteWins)))
              else if !engineOn then Some(BoardState(2, None))
              else None)
    else if data[2] == 1 then
      Verdict(Some("="), Some(BoardState(3, if engineOn then Some(Stalemate) else None)))
    else Verdict(None, None)
  }

  /** The marker and the board state agree: "+" goes with a check (board
      1), "#" with a mate (board 2) and "=" with a stalemate (board 3);
      insufficient material ends an engine game unmarked; a mate in an
      engine game is won by the side that is not to move; with no flag
      raised nothing changes. */
  lemma JudgeAgrees(data: seq<int>, engineOn: bool, turn: int)
    requires |data| == 4
    ensures var v := Judge(data, engineOn, turn);
      && (v.mark == Some("+") <==> v.state == Some(BoardState(1, None)))
      && (v.mark == Some("#") ==> v.state.None? || v.state.value.board == 2)
      && (v.mark == Some("=") ==> v.state.Some? && v.state.value.board == 3)
      && (v.mark.None? && v.state.Some? <==> data[3] == 1 && engineOn)
      && (v.state.Some? && v.state.value.board == 2 && v.state.value.winner.Some? ==>
            engineOn && v.state.value.winner.value == (if turn == 1 then BlackWins else WhiteWins))
      && (data[0] != 1 && data[1] != 1 && data[2] != 1 && data[3] != 1 ==> v == Verdict(None, None))
  {
  }

  /** A check that is also mate is written as mate, and insufficient
      material outranks every other flag in an engine game. */
  lemma JudgePriority(data: seq<int>, engineOn: bool, turn: int)
    requires |data| == 4
    ensures data[1] == 1 && !(data[3] == 1 && engineOn) ==> Judge(data, engineOn, turn).mark == Some("#")
    ensures data[3] == 1 && engineOn ==> Judge(data, engineOn, turn).state == Some(BoardState(3, Some(InsufficientMaterial)))
  {
  }

  // ---------------------------------------------------------------------
  // Repetitions

  /** The count after one more occurrence of `key`. */
  function Counted(reps: map<string, int>, key: string): (r: map<string, int>)
    ensures r.Keys == reps.Keys + {key}
    ensures forall k :: k in reps && k != key ==> r[k] == reps[k]
    ensures r[key] == if key in reps then reps[key] + 1 else 1
  {
    reps[key := if key in reps then reps[key] + 1 else 1]
  }

  /** Counting from nothing, a key reaches three on its third occurrence. */
  lemma CountedThrice(reps: map<string, int>, key: string)
    requires key !in reps
    ensures Counted(Counted(Counted(reps, key), key), key)[key] == 3
    ensures Counted(Counted(reps, key), key)[key] == 2
  {
  }

  /** `Judge`'s board state, or the "board 0" event `update` starts from. */
  function Settled(data: seq<int>, engineOn: bool, turn: int): (e: Event)
    requires |data| == 4
    ensures e.BoardState?
  {
    var v := Judge(data, engineOn, turn);
    if v.state.Some? then v.state.value else BoardState(0, None)
  }

  /** The game ends (a board state above 1) exactly on insufficient material
      in an engine game, on mate, or on stalemate. */
  lemma SettledOver(data: seq<int>, engineOn: bool, turn: int)
    requires |data| == 4
    ensures Settled(data, engineOn, turn).board > 1 <==>
              (data[3] == 1 && engineOn)
              || (!(data[0] == 1 && data[1] == 0) && data[1] == 1 && (!engineOn || turn == 1 || turn == -1))
              || (!(data[0] == 1 && data[1] == 0) && data[1] != 1 && data[2] == 1)
  {
  }

  /** `MoveLine` of a concatenation. */
  lemma {:induction false} MoveLineAppend(a: seq<int>, b: seq<int>)
    ensures MoveLine(a + b) == MoveLine(a) + MoveLine(b)
  {
    if a == [] {
      assert a + b == b;
    } else {
      assert (a + b)[1..] == a[1..] + b;
      MoveLineAppend(a[1..], b);
    }
  }

  lemma Associative(a: string, b: string, c: string)
    ensures a + (b + c) == a + b + c
  {
  }

  /** One more entry of the move written. */
  lemma MoveLineSnoc(move: seq<int>, i: nat)
    requires i < |move|
    ensures MoveLine(move[..i + 1]) == MoveLine(move[..i]) + IntToString(move[i])
  {
    assert move[..i + 1] == move[..i] + [move[i]];
    MoveLineAppend(move[..i], [move[i]]);
    assert [move[i]][1..] == [];
  }

  // ---------------------------------------------------------------------
  // Navigation

  /** One step of `switch_position`: to the parent (-1) or to the main-line
      child (+1) when there is one; otherwise nowhere. */
  function Step(a: Arena, k: Key, direction: int): (r: Key)
    requires Linked(a) && k in a
    ensures r in a
    ensures direction == -1 && k != Root ==> r == Parent(a, k)
    ensures direction == 1 && |a[k].children| > 0 ==> r == a[k].children[0]
    ensures !(direction == -1 && k != Root) && !(direction == 1 && |a[k].children| > 0) ==> r == k
  {
    if direction == -1 && a[k].parent.Some? then a[k].parent.value
    else if direction == 1 && |a[k].children| > 0 then
      ChildRanksAbove(a, k, 0);
      a[k].children[0]
    else k
  }

  /** Forward then back returns to the start whenever forward moved. */
  lemma ForwardBack(a: Arena, k: Key)
    requires Linked(a) && k in a && |a[k].children| > 0
    ensures Step(a, Step(a, k, 1), -1) == k
  {
    ChildRanksAbove(a, k, 0);
  }

  /** Back then forward returns to the start exactly when the start is its
      parent's main line. */
  lemma BackForward(a: Arena, k: Key)
    requires Linked(a) && k in a && k != Root
    ensures Step(a, Step(a, k, -1), 1) == k <==> |a[Parent(a, k)].children| > 0 && a[Parent(a, k)].children[0] == k
  {
    var p := Parent(a, k);
    if |a[p].children| == 0 {
      assert Step(a, p, 1) == p;
      assert Rank(p) < Rank(k);
    }
  }

  // ---------------------------------------------------------------------
  // The game as a value

  /** The position shown: a stored one, or the redirected move `add_move`
      left outside the tree (its key never set, no parent and no children). */
  datatype Current = InTree(key: Key) | Loose(node: Node)

  /** What the game's methods change: its own fields and its tree's table,
      key counter and height. */
  datatype State = State(userOrientation: int, turn: int, legalMoves: seq<seq<int>>, searchOrientation: int,
                         current: Current, repetitions: map<string, int>,
                         lookup: Arena, nextId: nat, height: int)

  /** What is fixed when the game is made. */
  datatype Settings = Settings(engineOn: bool, engineTurn: int, branchLimit: nat)

  ghost predicate Well(p: State) {
    && Sound(p.lookup, p.nextId)
    && (p.current.InTree? ==> p.current.key in p.lookup)
    && (p.current.Loose? ==> p.current.node.parent == None && p.current.node.children == [])
  }

  /** `current_position`. */
  function Shown(p: State): Node
    requires Well(p)
  {
    match p.current
    case InTree(k) => p.lookup[k]
    case Loose(n) => n
  }

  /** A position as the board hands it to `update`: not yet in any tree. */
  predicate Unplaced(n: Node) {
    n.children == [] && n.parent == None && n.key == Unkeyed && |n.notation| > 0
  }

  /** `update_notation(mark)` on the shown position, wherever it lives. */
  function Marked(p: State, mark: string): State
    requires Well(p)
  {
    match p.current
    case InTree(k) => p.(lookup := p.lookup[k := UpdateNotation(p.lookup[k], mark, false)])
    case Loose(n) => p.(current := Loose(UpdateNotation(n, mark, false)))
  }

  /** `update_events`: the verdict's marker on the shown position, its board
      state first among the events. */
  function Judged(g: Settings, p: State, data: seq<int>, events: seq<Event>): (State, seq<Event>)
    requires Well(p) && |data| == 4 && |events| >= 1
  {
    var v := Judge(data, g.engineOn, p.turn);
    (if v.mark.Some? then Marked(p, v.mark.value) else p,
     if v.state.Some? then events[0 := v.state.value] else events)
  }

  /** `get_legal_moves`: the "get" request for the shown position; the
      reply's moves are appended to the legal moves and its flags judged. */
  function Asked(g: Settings, p: State, events: seq<Event>, res: string): (State, seq<Event>, Request)
    requires Well(p) && KnownBoard(Shown(p).board) && |events| >= 1
    requires Parseable(res) && AnswerEnd(res) < |res|
  {
    var n := Shown(p);
    var j := Judged(g, p.(legalMoves := p.legalMoves + AnswerMoves(res)), AnswerFlags(res).value, events);
    (j.0, j.1, Request("get\n", FenOf(n.board), p.turn, p.userOrientation, n.move, n.castling))
  }

  /** The end of `update` when the game goes on: on the engine's turn a
      "find" request is posted (`start_engine`), and the shown position is
      counted under its fen as white sees it, with a draw claim appended at
      the third occurrence in an engine game when the user is to move. */
  function Concluded(g: Settings, p: State, events: seq<Event>, posted: seq<Request>): (State, seq<Event>, seq<Request>)
    requires Well(p) && KnownBoard(Shown(p).board)
  {
    var n := Shown(p);
    var fen := FenOf(n.board);
    var start := g.engineOn && p.turn == g.engineTurn;
    var key := RepetitionKey(fen, p.userOrientation);
    var reps := Counted(p.repetitions, key);
    (p.(repetitions := reps, searchOrientation := if start then p.userOrientation else p.searchOrientation),
     if reps[key] >= 3 && g.engineOn && p.turn != g.engineTurn then events + [DrawClaim] else events,
     if start then posted + [Request("find\n", fen, p.turn, p.userOrientation, n.move, n.castling)] else posted)
  }

  /** `update` once the move is in: `get_legal_moves`, then, unless the
      game is over (a board state above 1), `Concluded`. */
  function Responded(g: Settings, p: State, events: seq<Event>, res: string): (State, seq<Event>, seq<Request>)
    requires Well(p) && KnownBoard(Shown(p).board) && |events| >= 1 && events[0].BoardState?
    requires Parseable(res) && AnswerEnd(res) < |res|
  {
    var a := Asked(g, p, events, res);
    AskedKeeps(g, p, events, res);
    if a.1[0].board > 1 then (a.0, a.1, [a.2]) else Concluded(g, a.0, a.1, [a.2])
  }

  /** The first part of `update`: `add_move` from the shown position, then
      the legal moves are cleared; unless the move was refused (event 1),
      the played position is shown, the stored one or the loose one of a
      redirect, and the turn passes. */
  function Advanced(g: Settings, p: State, newPos: Node): (State, seq<Event>, bool)
    requires Well(p) && p.current.InTree? && Unplaced(newPos)
  {
    var r := Added(p.lookup, p.nextId, g.branchLimit, p.height, newPos, p.current.key);
    var events := [BoardState(0, None)] + r.tail;
    var q := p.(legalMoves := [], lookup := r.arena, nextId := r.next);
    if events[|events| - 1].ID() == 1 then (q, events, false)
    else (q.(current := if |events| == 1 then InTree(r.np.key) else Loose(r.np), turn := -p.turn), events, true)
  }

  /** `update`: the events, and the requests posted to the engine in order. */
  function Updated(g: Settings, p: State, newPos: Node, res: string): (State, seq<Event>, seq<Request>)
    requires Well(p) && p.current.InTree? && Unplaced(newPos) && KnownBoard(newPos.board)
    requires Parseable(res) && AnswerEnd(res) < |res|
  {
    var a := Advanced(g, p, newPos);
    AdvancedRefused(g, p, newPos);
    AdvancedPlayed(g, p, newPos);
    if !a.2 then (a.0, a.1, []) else Responded(g, a.0, a.1, res)
  }

  /** `Advanced` in terms of the outcome of `add_move`. */
  lemma AdvancedIs(g: Settings, p: State, newPos: Node, np: Node, events: seq<Event>, lookup: Arena, next: nat)
    requires Well(p) && p.current.InTree? && Unplaced(newPos)
    requires var r := Added(p.lookup, p.nextId, g.branchLimit, p.height, newPos, p.current.key);
      np == r.np && events == [BoardState(0, None)] + r.tail && lookup == r.arena && next == r.next
    ensures |events| >= 1
    ensures var q := p.(legalMoves := [], lookup := lookup, nextId := next);
      Advanced(g, p, newPos) ==
        if events[|events| - 1].ID() == 1 then (q, events, false)
        else (q.(current := if |events| == 1 then InTree(np.key) else Loose(np), turn := -p.turn), events, true)
  {
  }

  // ---------------------------------------------------------------------
  // What `update` promises

  /** The marker changes the shown position's notation and nothing else. */
  lemma MarkedKeeps(p: State, mark: string)
    requires Well(p)
    ensures Well(Marked(p, mark))
    ensures Shown(Marked(p, mark)) == UpdateNotation(Shown(p), mark, false)
    ensures Marked(p, mark) == p.(current := Marked(p, mark).current, lookup := Marked(p, mark).lookup)
  {
    if p.current.InTree? {
      var k := p.current.key;
      ReplaceKeepsValid(p.lookup, p.nextId, k, UpdateNotation(p.lookup[k], mark, false));
    }
  }

  /** `get_legal_moves` appends the reply's moves, may mark the shown
      position, replaces the first event by the verdict's board state, and
      changes nothing else. */
  lemma AskedKeeps(g: Settings, p: State, events: seq<Event>, res: string)
    requires Well(p) && KnownBoard(Shown(p).board) && |events| >= 1
    requires Parseable(res) && AnswerEnd(res) < |res|
    ensures var a := Asked(g, p, events, res); var v := Judge(AnswerFlags(res).value, g.engineOn, p.turn);
      && Well(a.0)
      && a.0 == p.(legalMoves := p.legalMoves + AnswerMoves(res), current := a.0.current, lookup := a.0.lookup)
      && Shown(a.0) == (if v.mark.Some? then UpdateNotation(Shown(p), v.mark.value, false) else Shown(p))
      && |a.1| == |events| && a.1[1..] == events[1..]
      && a.1[0] == if v.state.Some? then v.state.value else events[0]
  {
    var q := p.(legalMoves := p.legalMoves + AnswerMoves(res));
    var v := Judge(AnswerFlags(res).value, g.engineOn, p.turn);
    var a := Asked(g, p, events, res);
    assert Well(q) && Shown(q) == Shown(p);
    assert a.0 == if v.mark.Some? then Marked(q, v.mark.value) else q;
    assert a.1 == if v.state.Some? then events[0 := v.state.value] else events;
    if v.mark.Some? {
      MarkedKeeps(q, v.mark.value);
    }
  }

  /** `add_move` as `update` uses it: the move is refused exactly when the
      shown position's branches are full, and then only the legal moves
      change; no draw is claimed. */
  lemma AdvancedRefused(g: Settings, p: State, newPos: Node)
    requires Well(p) && p.current.InTree? && Unplaced(newPos)
    ensures var a := Advanced(g, p, newPos);
      && |a.1| >= 1 && a.1[0] == BoardState(0, None) && DrawClaim !in a.1
      && (a.2 <==> |p.lookup[p.current.key].children| < g.branchLimit)
      && (!a.2 ==> a.0 == p.(legalMoves := []) && a.1 == [BoardState(0, None), Takeback(-1)])
  {
    var cur := p.current.key;
    var r := Added(p.lookup, p.nextId, g.branchLimit, p.height, newPos, cur);
    AddedRefusal(p.lookup, p.nextId, g.branchLimit, p.height, newPos, cur);
    AddedRedirect(p.lookup, p.nextId, g.branchLimit, p.height, newPos, cur);
    AdvancedIs(g, p, newPos, r.np, [BoardState(0, None)] + r.tail, r.arena, r.next);
    if r.tail != [] {
      assert |r.tail| == 1;
    }
  }

  /** An accepted move passes the turn, clears the legal moves and shows a
      position holding the played board, move and castling rights; the
      orientation, the search orientation and the count stay. */
  lemma AdvancedPlayed(g: Settings, p: State, newPos: Node)
    requires Well(p) && p.current.InTree? && Unplaced(newPos)
    ensures Well(Advanced(g, p, newPos).0)
    ensures var a := Advanced(g, p, newPos);
      a.2 ==> && a.0.turn == -p.turn && a.0.legalMoves == [] && a.0.userOrientation == p.userOrientation
              && a.0.repetitions == p.repetitions && a.0.searchOrientation == p.searchOrientation
              && Shown(a.0).board == newPos.board && Shown(a.0).move == newPos.move
              && Shown(a.0).castling == newPos.castling
  {
    var cur := p.current.key;
    var r := Added(p.lookup, p.nextId, g.branchLimit, p.height, newPos, cur);
    AddedRefusal(p.lookup, p.nextId, g.branchLimit, p.height, newPos, cur);
    AdvancedIs(g, p, newPos, r.np, [BoardState(0, None)] + r.tail, r.arena, r.next);
    AdvancedWell(g, p, newPos);
    if r.tail == [] {
      AddedInsertion(p.lookup, p.nextId, g.branchLimit, p.height, newPos, cur);
      GrownShape(p.lookup, cur, r.np);
    }
    if Advanced(g, p, newPos).2 {
      assert Shown(Advanced(g, p, newPos).0) == r.np;
    }
  }

  /** `add_move` keeps the game state well formed. */
  lemma AdvancedWell(g: Settings, p: State, newPos: Node)
    requires Well(p) && p.current.InTree? && Unplaced(newPos)
    ensures Well(Advanced(g, p, newPos).0)
  {
    var cur := p.current.key;
    var r := Added(p.lookup, p.nextId, g.branchLimit, p.height, newPos, cur);
    AddedRefusal(p.lookup, p.nextId, g.branchLimit, p.height, newPos, cur);
    AddedRedirect(p.lookup, p.nextId, g.branchLimit, p.height, newPos, cur);
    AddedInsertion(p.lookup, p.nextId, g.branchLimit, p.height, newPos, cur);
    AddedSound(p.lookup, p.nextId, g.branchLimit, p.height, newPos, cur);
    AdvancedIs(g, p, newPos, r.np, [BoardState(0, None)] + r.tail, r.arena, r.next);
    if r.tail == [] {
      GrownShape(p.lookup, cur, r.np);
    }
  }

  /** Once the move is in, `update` posts the "get" request for the shown
      position first, replaces the first event by the verdict's board state
      and takes the reply's legal moves; a game that is over stops there. */
  lemma RespondedOutcome(g: Settings, p: State, events: seq<Event>, res: string)
    requires Well(p) && KnownBoard(Shown(p).board) && |events| >= 1 && events[0] == BoardState(0, None)
    requires DrawClaim !in events
    requires Parseable(res) && AnswerEnd(res) < |res|
    ensures var u := Responded(g, p, events, res); var n := Shown(p);
      var first := Settled(AnswerFlags(res).value, g.engineOn, p.turn);
      && Well(u.0) && u.0.turn == p.turn && u.0.legalMoves == p.legalMoves + AnswerMoves(res)
      && Shown(u.0).board == n.board
      && |u.1| >= 1 && u.1[0] == first
      && |u.2| >= 1 && u.2[0] == Request("get\n", FenOf(n.board), p.turn, p.userOrientation, n.move, n.castling)
      && (first.board > 1 ==> u.0.repetitions == p.repetitions && u.2 == [u.2[0]] && DrawClaim !in u.1)
  {
    AskedKeeps(g, p, events, res);
    var a := Asked(g, p, events, res);
    assert DrawClaim !in a.1;
    assert a.1[0] == Settled(AnswerFlags(res).value, g.engineOn, p.turn);
  }

  /** A game that goes on (a verdict board state of at most 1) counts the
      shown position under its white-side fen; a draw claim ends the events
      exactly at its third occurrence in an engine game with the user to
      move, and a "find" request follows exactly on the engine's turn. */
  lemma RespondedCounts(g: Settings, p: State, events: seq<Event>, res: string)
    requires Well(p) && KnownBoard(Shown(p).board) && |events| >= 1 && events[0] == BoardState(0, None)
    requires DrawClaim !in events
    requires Parseable(res) && AnswerEnd(res) < |res|
    ensures var u := Responded(g, p, events, res); var n := Shown(p);
      var first := Settled(AnswerFlags(res).value, g.engineOn, p.turn);
      first.board <= 1 ==>
        var key := RepetitionKey(FenOf(n.board), p.userOrientation);
        && u.0.repetitions == Counted(p.repetitions, key)
        && (DrawClaim in u.1 <==> u.0.repetitions[key] >= 3 && g.engineOn && p.turn != g.engineTurn)
        && (|u.2| == 2 <==> g.engineOn && p.turn == g.engineTurn)
        && (|u.2| == 2 ==> u.2[1] == Request("find\n", FenOf(n.board), p.turn, p.userOrientation, n.move, n.castling))
  {
    AskedKeeps(g, p, events, res);
    var a := Asked(g, p, events, res);
    assert DrawClaim !in a.1;
    assert a.1[0] == Settled(AnswerFlags(res).value, g.engineOn, p.turn);
  }

  /** `update`: a move onto full branches is refused, with only the legal
      moves cleared and nothing posted. */
  lemma UpdatedRefused(g: Settings, p: State, newPos: Node, res: string)
    requires Well(p) && p.current.InTree? && Unplaced(newPos) && KnownBoard(newPos.board)
    requires Parseable(res) && AnswerEnd(res) < |res|
    requires |p.lookup[p.current.key].children| >= g.branchLimit
    ensures Updated(g, p, newPos, res) == (p.(legalMoves := []), [BoardState(0, None), Takeback(-1)], [])
  {
    AdvancedRefused(g, p, newPos);
  }

  /** An accepted move: `update` is `Responded` from the state `add_move`
      left, which shows the played position with the turn passed. */
  lemma UpdatedAccepted(g: Settings, p: State, newPos: Node, res: string)
    requires Well(p) && p.current.InTree? && Unplaced(newPos) && KnownBoard(newPos.board)
    requires Parseable(res) && AnswerEnd(res) < |res|
    requires |p.lookup[p.current.key].children| < g.branchLimit
    ensures var a := Advanced(g, p, newPos);
      && Well(a.0) && |a.1| >= 1 && a.1[0] == BoardState(0, None) && DrawClaim !in a.1
      && a.0.turn == -p.turn && a.0.userOrientation == p.userOrientation && a.0.repetitions == p.repetitions
      && a.0.legalMoves == [] && Shown(a.0).board == newPos.board && Shown(a.0).move == newPos.move
      && Shown(a.0).castling == newPos.castling
      && Updated(g, p, newPos, res) == Responded(g, a.0, a.1, res)
  {
    AdvancedRefused(g, p, newPos);
    AdvancedPlayed(g, p, newPos);
  }

  /** `update` of an accepted move: the turn passes, the legal moves are the
      reply's, the shown position holds the played board, the first event is
      the verdict's board state and the "get" request for the played
      position is posted first; what follows is `RespondedOutcome` of the
      state `UpdatedAccepted` names. The table stays sound. */
  lemma UpdatedPlayed(g: Settings, p: State, newPos: Node, res: string)
    requires Well(p) && p.current.InTree? && Unplaced(newPos) && KnownBoard(newPos.board)
    requires Parseable(res) && AnswerEnd(res) < |res|
    requires |p.lookup[p.current.key].children| < g.branchLimit
    ensures var u := Updated(g, p, newPos, res);
      && Well(u.0)
      && u.0.turn == -p.turn && u.0.legalMoves == AnswerMoves(res) && Shown(u.0).board == newPos.board
      && |u.1| >= 1 && u.1[0] == Settled(AnswerFlags(res).value, g.engineOn, -p.turn)
      && |u.2| >= 1
      && u.2[0] == Request("get\n", FenOf(newPos.board), -p.turn, p.userOrientation, newPos.move, newPos.castling)
  {
    AdvancedRefused(g, p, newPos);
    AdvancedPlayed(g, p, newPos);
    var a := Advanced(g, p, newPos);
    RespondedOutcome(g, a.0, a.1, res);
    var u := Responded(g, a.0, a.1, res);
    assert Updated(g, p, newPos, res) == u;
    assert a.0.legalMoves + AnswerMoves(res) == AnswerMoves(res) by {
      assert a.0.legalMoves == [];
    }
    assert a.0.turn == -p.turn;
  }

  // ---------------------------------------------------------------------
  // Navigation: `set_to_position`, `switch_position`, `trim_tree`

  /** The orientation rule of both navigators: a position recorded in the
      other orientation is re-oriented (`reverse_rank_and_file` and `flip`). */
  function Facing(n: Node, orientation: int): Node {
    if n.orientation != orientation then Reoriented(n) else n
  }

  /** The turn rule of both navigators: the shown position's turn negated,
      except at the root, which keeps its own. */
  function TurnAt(n: Node): int {
    if n.key != Root then -n.turn else n.turn
  }

  /** `set_to_position(k)` for a key the tree holds. */
  function SetTo(p: State, k: Key): State
    requires Well(p) && k in p.lookup
  {
    var n := p.lookup[k];
    p.(current := InTree(k), turn := TurnAt(n), lookup := p.lookup[k := Facing(n, p.userOrientation)])
  }

  /** `switch_position(direction)`: a stored position steps to its parent or
      its main-line child (`Step`); the loose position of a redirect has
      neither and stays. */
  function Shifted(p: State, direction: int): State
    requires Well(p)
  {
    match p.current
    case InTree(k) => SetTo(p, Step(p.lookup, k, direction))
    case Loose(n) => p.(current := Loose(Facing(n, p.userOrientation)), turn := TurnAt(n))
  }

  /** `trim_tree`, with whether it ran to the end: nothing happens at the
      root; on the loose position the source fails before changing anything
      (it has no parent); otherwise the parent is shown (`set_to_position`)
      and the position is taken out of the parent's children, which fails,
      after the parent is shown, when an earlier trim already took it out. */
  function Trimmed(p: State): (State, bool)
    requires Well(p)
  {
    match p.current
    case Loose(_) => (p, false)
    case InTree(k) =>
      if k == Root then (p, true)
      else
        var par := Parent(p.lookup, k);
        var q := SetTo(p, par);
        var c := q.lookup[par];
        if k in c.children then (q.(lookup := q.lookup[par := c.(children := RemoveFirst(c.children, k))]), true)
        else (q, false)
  }

  /** `set_to_position` shows the stored position, turned to the user's side
      when it was recorded from the other, with the turn rule of `TurnAt`;
      no other position and nothing else of the game changes. */
  lemma SetToOutcome(p: State, k: Key)
    requires Well(p) && k in p.lookup
    ensures var q := SetTo(p, k); var n := p.lookup[k];
      && Well(q) && q.current == InTree(k) && q.lookup.Keys == p.lookup.Keys
      && (forall j | j in p.lookup && j != k :: q.lookup[j] == p.lookup[j])
      && (k == Root ==> q.turn == n.turn) && (k != Root ==> q.turn == -n.turn)
      && Shown(q).key == k && Shown(q).turn == n.turn && Shown(q).notation == n.notation
      && (n.orientation == p.userOrientation ==> Shown(q) == n)
      && (n.orientation != p.userOrientation ==>
            Shown(q).orientation == -n.orientation && Shown(q).board == Rotated(n.board))
      && q == p.(current := q.current, turn := q.turn, lookup := q.lookup)
  {
    var n := p.lookup[k];
    ReplaceKeepsValid(p.lookup, p.nextId, k, Facing(n, p.userOrientation));
  }

  /** Setting the same position twice is setting it once: after the first
      time it already faces the user (orientations are 1 or -1). */
  lemma SetToTwice(p: State, k: Key)
    requires Well(p) && k in p.lookup
    requires p.lookup[k].orientation == 1 || p.lookup[k].orientation == -1
    requires p.userOrientation == 1 || p.userOrientation == -1
    ensures Well(SetTo(p, k)) && SetTo(SetTo(p, k), k) == SetTo(p, k)
  {
    SetToOutcome(p, k);
    var q := SetTo(p, k);
    assert q.lookup[k].orientation == p.userOrientation;
  }

  /** `switch_position` forward then back returns to the start whenever
      forward moved. */
  lemma ShiftedForwardBack(p: State)
    requires Well(p) && p.current.InTree? && |p.lookup[p.current.key].children| > 0
    ensures Well(Shifted(p, 1)) && Shifted(Shifted(p, 1), -1).current == p.current
  {
    var k := p.current.key;
    var c := Step(p.lookup, k, 1);
    SetToOutcome(p, c);
    ChildRanksAbove(p.lookup, k, 0);
    var q := Shifted(p, 1);
    assert q.lookup[c].parent == p.lookup[c].parent;
    assert Step(q.lookup, c, -1) == k;
  }

  /** `switch_position` back then forward returns to the start exactly when
      the start is its parent's main line. */
  lemma ShiftedBackForward(p: State)
    requires Well(p) && p.current.InTree? && p.current.key != Root
    ensures var k := p.current.key; var par := Parent(p.lookup, k);
      Well(Shifted(p, -1)) &&
      (Shifted(Shifted(p, -1), 1).current == p.current <==>
        |p.lookup[par].children| > 0 && p.lookup[par].children[0] == k)
  {
    var k := p.current.key;
    var par := Step(p.lookup, k, -1);
    SetToOutcome(p, par);
    var q := Shifted(p, -1);
    assert q.lookup[par].children == p.lookup[par].children;
    BackForward(p.lookup, k);
    assert Step(q.lookup, par, 1) == Step(p.lookup, par, 1);
  }

  /** Where `switch_position` has nowhere to go (back from the root, forward
      from a leaf, either way from the loose position) the same position
      stays shown, turned to the user's side, with the turn of `TurnAt`. */
  lemma ShiftedStays(p: State, direction: int)
    requires Well(p)
    requires p.current.Loose? ||
      ((direction != -1 || p.current.key == Root) && (direction != 1 || |p.lookup[p.current.key].children| == 0))
    ensures var q := Shifted(p, direction);
      && Well(q) && Shown(q) == Facing(Shown(p), p.userOrientation) && q.turn == TurnAt(Shown(p))
      && q.lookup.Keys == p.lookup.Keys
  {
    if p.current.InTree? {
      SetToOutcome(p, p.current.key);
    }
  }

  /** `Trimmed` below the root, step by step. */
  lemma TrimmedAfter(p: State, k: Key)
    requires Well(p) && p.current == InTree(k) && k != Root
    ensures var par := Parent(p.lookup, k); var q := SetTo(p, par); var c := q.lookup[par];
      && Well(q) && par in q.lookup && c.children == p.lookup[par].children
      && Trimmed(p) == if k in c.children then (q.(lookup := q.lookup[par := c.(children := RemoveFirst(c.children, k))]), true)
                       else (q, false)
  {
    SetToOutcome(p, Parent(p.lookup, k));
  }

  /** `trim_tree` keeps the table sound; at the root it changes nothing,
      and on the loose position it fails with nothing changed. */
  lemma TrimmedEnds(p: State)
    requires Well(p)
    ensures Well(Trimmed(p).0)
    ensures p.current == InTree(Root) ==> Trimmed(p) == (p, true)
    ensures p.current.Loose? ==> Trimmed(p) == (p, false)
  {
    if p.current.InTree? && p.current.key != Root {
      var k := p.current.key;
      var par := Parent(p.lookup, k);
      SetToOutcome(p, par);
      var q := SetTo(p, par);
      var c := q.lookup[par];
      if k in c.children {
        RemoveFirstKeeps(c.children, k);
        ChildrenEditKeepsValid(q.lookup, q.nextId, par, RemoveFirst(c.children, k));
      }
    }
  }

  /** `trim_tree` below the root shows the parent (as `set_to_position`
      does) and takes the position out of the parent's children, the others
      keeping their order (`RemoveFirst`), exactly when it was still among
      them; the table keeps every node. */
  lemma TrimmedCut(p: State)
    requires Well(p) && p.current.InTree? && p.current.key != Root
    ensures var t := Trimmed(p); var k := p.current.key; var par := Parent(p.lookup, k);
      var kids := p.lookup[par].children;
      && t.0 == SetTo(p, par).(lookup := t.0.lookup)
      && t.0.lookup.Keys == p.lookup.Keys
      && (t.1 <==> k in kids)
      && (t.1 ==> t.0.lookup[par].children == RemoveFirst(kids, k) && k !in t.0.lookup[par].children)
  {
    var k := p.current.key;
    var par := Parent(p.lookup, k);
    SetToOutcome(p, par);
    var q := SetTo(p, par);
    var c := q.lookup[par];
    assert c.children == p.lookup[par].children;
    var t := Trimmed(p);
    if k in c.children {
      var r := RemoveFirst(c.children, k);
      RemoveFirstKeeps(c.children, k);
      assert t == (q.(lookup := q.lookup[par := c.(children := r)]), true);
      assert t.0.lookup[par].children == r;
    } else {
      assert t == (q, false);
    }
  }

  // ---------------------------------------------------------------------
  // The game object

  class Game {
    var userOrientation: int
    var turn: int
    const fromPosition: bool
    const engineOn: bool
    var legalMoves: seq<seq<int>>
    const engineTurn: int
    var engineSearchOrientation: int
    const tree: MoveTree
    var current: Current
    var repetitions: map<string, int>

    function Snapshot(): State
      reads this, tree`lookup, tree`nextId, tree`treeHeight
    {
      State(userOrientation, turn, legalMoves, engineSearchOrientation, current, repetitions,
            tree.lookup, tree.nextId, tree.treeHeight)
    }

    function Config(): Settings {
      Settings(engineOn, engineTurn, tree.branchLimit)
    }

    ghost predicate Valid()
      reads this, tree`lookup, tree`nextId, tree`treeHeight
    {
      Well(Snapshot())
    }

    function CurrentNode(): Node
      reads this, tree`lookup, tree`nextId, tree`treeHeight
      requires Valid()
    {
      Shown(Snapshot())
    }

    /** A game on `board` with `sideToMove` to move, shown from `orientation`:
        the given tree, or a new one whose root holds the board with the move
        `[-1, -1, -1, -1]` and no notation. The root is shown, the engine plays
        the other colour, and no position has been counted yet. */
    constructor (sideToMove: int, orientation: int, fromPos: bool, engine: bool,
                 board: seq<seq<int>>, castling: int, existing: Option<MoveTree>)
      requires existing.Some? ==> existing.value.Valid()
      ensures Valid()
      ensures userOrientation == orientation && turn == sideToMove && engineTurn == -orientation
      ensures fromPosition == fromPos && engineOn == engine
      ensures legalMoves == [] && engineSearchOrientation == 0 && repetitions == map[] && current == InTree(Root)
      ensures existing.Some? ==> tree == existing.value
      ensures existing.None? ==> fresh(tree)
      ensures existing.None? ==>
        tree.lookup == map[Root := NewNode(sideToMove, orientation, [-1, -1, -1, -1], "", false, board, castling, [], Root)]
    {
      userOrientation := orientation;
      turn := sideToMove;
      fromPosition := fromPos;
      engineOn := engine;
      legalMoves := [];
      engineTurn := -orientation;
      engineSearchOrientation := 0;
      if existing.None? {
        tree := new MoveTree(sideToMove, orientation, [-1, -1, -1, -1], "", false, board, castling);
      } else {
        tree := existing.value;
      }
      current := InTree(Root);
      repetitions := map[];
    }

    /** `to_fen`: the letters of the ranks, square by square. */
    static method ToFen(pos: seq<seq<int>>) returns (fen: string)
      requires KnownBoard(pos)
      ensures fen == FenOf(pos)
    {
      fen := "";
      var r := 0;
      while r < |pos|
        invariant 0 <= r <= |pos|
        invariant fen == FenOf(pos[..r])
      {
        var rank := pos[r];
        var f := 0;
        while f < |rank|
          invariant 0 <= f <= |rank|
          invariant fen == FenOf(pos[..r]) + RowFen(rank[..f])
        {
          assert rank[..f + 1][..f] == rank[..f];
          fen := fen + [FenLetter(rank[f])];
          f := f + 1;
        }
        assert rank[..f] == rank;
        assert pos[..r + 1][..r] == pos[..r];
        r := r + 1;
      }
      assert pos[..r] == pos;
    }

    /** `get_engine_args`: the text of the request for the shown position. */
    method GetEngineArgs(pref: string, fen: string) returns (s: string)
      requires Valid()
      ensures s == Request(pref, fen, turn, userOrientation, CurrentNode().move, CurrentNode().castling).Text()
    {
      var node := CurrentNode();
      s := WriteArgs(pref, fen, turn, userOrientation, node.move, node.castling);
    }

    /** The writing of `get_engine_args`, line by line. */
    static method WriteArgs(pref: string, fen: string, turn: int, orientation: int, move: seq<int>, castling: int)
      returns (s: string)
      ensures s == EngineArgs(pref, fen, turn, orientation, move, castling)
    {
      s := pref + fen + "\n";
      s := s + NVal(turn) + NVal(orientation) + "\n";
      var head := s;
      var i := 0;
      while i < |move|
        invariant 0 <= i <= |move|
        invariant s == head + MoveLine(move[..i])
      {
        MoveLineSnoc(move, i);
        Associative(head, MoveLine(move[..i]), IntToString(move[i]));
        s := s + IntToString(move[i]);
        i := i + 1;
      }
      assert move[..i] == move;
      s := s + "\n";
      s := s + IntToString(castling);
    }

    /** `parse_answer`: every complete block of five before the newline is
        appended as a move; the four digits after the newline are returned. */
    method ParseAnswer(res: string) returns (flags: Option<seq<int>>)
      requires Parseable(res)
      modifies this`legalMoves
      ensures legalMoves == old(legalMoves) + AnswerMoves(res)
      ensures flags == AnswerFlags(res)
    {
      var e := AnswerEnd(res);
      var i := 0;
      while i < |res|
        invariant 0 <= i <= e
        invariant legalMoves == old(legalMoves) + AnswerMoves(res)[..i / 5]
      {
        if res[i] == '\n' {
          assert i == e;
          assert AnswerMoves(res)[..i / 5] == AnswerMoves(res);
          return Some([Digit(res[i + 1]), Digit(res[i + 2]), Digit(res[i + 3]), Digit(res[i + 4])]);
        }
        FiveStep(i, e);
        if (i + 1) % 5 == 0 {
          var j := i / 5;
          var move := [Digit(res[i - 4]), Digit(res[i - 3])] + [Digit(res[i - 2]), Digit(res[i - 1])];
          if 0 < Digit(res[i]) < 5 {
            move := move + [Digit(res[i])];
          } else {
            move := move + [0];
          }
          assert move == AnswerMove(res, j);
          AnswerMovesGrow(res, j);
          legalMoves := legalMoves + [move];
        }
        i := i + 1;
      }
      assert AnswerMoves(res)[..i / 5] == AnswerMoves(res);
      return None;
    }

    /** Stepping past character i completes block i / 5 exactly when i + 1
        is a multiple of five. */
    static lemma FiveStep(i: int, e: int)
      requires 0 <= i < e
      ensures (i + 1) % 5 == 0 ==> (i + 1) / 5 == i / 5 + 1 && 5 * (i / 5) + 4 == i && i / 5 < e / 5
      ensures (i + 1) % 5 != 0 ==> (i + 1) / 5 == i / 5
    {
    }

    /** The first j + 1 moves of a reply are its first j and move j. */
    static lemma AnswerMovesGrow(res: string, j: int)
      requires Parseable(res) && 0 <= j < AnswerEnd(res) / 5
      ensures 5 * j + 5 <= |res| && forall i :: 5 * j <= i < 5 * j + 5 ==> IsDigit(res[i])
      ensures AnswerMoves(res)[..j + 1] == AnswerMoves(res)[..j] + [AnswerMove(res, j)]
    {
      var e, ms := AnswerEnd(res), AnswerMoves(res);
      assert 5 * (e / 5) <= e;
      assert 5 * j + 5 <= 5 * (e / 5);
      TakeOneMore(ms, j);
      assert ms[j] == AnswerMove(res, j);
    }

    /** `update_events`. */
    method UpdateEvents(data: seq<int>, events: seq<Event>) returns (events': seq<Event>)
      requires Valid() && |data| == 4 && |events| >= 1
      modifies this`current, tree`lookup
      ensures (Snapshot(), events') == Judged(Config(), old(Snapshot()), data, events)
    {
      var v := Judge(data, engineOn, turn);
      events' := if v.state.Some? then events[0 := v.state.value] else events;
      if v.mark.Some? {
        match current {
          case InTree(k) => tree.Annotate(k, v.mark.value);
          case Loose(n) => current := Loose(UpdateNotation(n, v.mark.value, false));
        }
      }
    }

    /** `get_legal_moves`, with the engine's reply passed in; the "get"
        request is returned. */
    method GetLegalMoves(events: seq<Event>, res: string) returns (events': seq<Event>, request: Request)
      requires Valid() && KnownBoard(CurrentNode().board) && |events| >= 1
      requires Parseable(res) && AnswerEnd(res) < |res|
      modifies this`legalMoves, this`current, tree`lookup
      ensures (Snapshot(), events', request) == Asked(Config(), old(Snapshot()), events, res)
    {
      var node := CurrentNode();
      var fen := ToFen(node.board);
      request := Request("get\n", fen, turn, userOrientation, node.move, node.castling);
      var flags := ParseAnswer(res);
      events' := UpdateEvents(flags.value, events);
    }

    /** `start_engine`: the search starts from the shown orientation; the
        "find" request carries the given fen, or the shown board's. */
    method StartEngine(fen: Option<string>) returns (request: Request)
      requires Valid() && (fen.None? ==> KnownBoard(CurrentNode().board))
      modifies this`engineSearchOrientation
      ensures engineSearchOrientation == userOrientation
      ensures request == Request("find\n", if fen.Some? then fen.value else FenOf(CurrentNode().board),
                                 turn, userOrientation, CurrentNode().move, CurrentNode().castling)
    {
      var f: string;
      if fen.None? {
        f := ToFen(CurrentNode().board);
      } else {
        f := fen.value;
      }
      engineSearchOrientation := userOrientation;
      var node := CurrentNode();
      request := Request("find\n", f, turn, userOrientation, node.move, node.castling);
    }

    /** The count kept by `update`: a fen seen before counts one more, and a
        draw may be claimed at three in an engine game when it is the user's
        move; a new fen counts one. */
    method Recur(key: string) returns (claim: bool)
      modifies this`repetitions
      ensures repetitions == Counted(old(repetitions), key)
      ensures claim <==> repetitions[key] >= 3 && engineOn && turn != engineTurn
    {
      if key in repetitions {
        repetitions := repetitions[key := repetitions[key] + 1];
        claim := repetitions[key] >= 3 && engineOn && turn != engineTurn;
      } else {
        repetitions := repetitions[key := 1];
        claim := false;
      }
    }

    /** The end of `update` when the game goes on. */
    method Conclude(events: seq<Event>, posted: seq<Request>) returns (events': seq<Event>, posted': seq<Request>)
      requires Valid() && KnownBoard(CurrentNode().board)
      modifies this`repetitions, this`engineSearchOrientation
      ensures (Snapshot(), events', posted') == Concluded(Config(), old(Snapshot()), events, posted)
    {
      var fen := ToFen(CurrentNode().board);
      posted' := posted;
      if engineOn && turn == engineTurn {
        var request := StartEngine(Some(fen));
        posted' := posted' + [request];
      }
      var claim := Recur(RepetitionKey(fen, userOrientation));
      events' := events;
      if claim {
        events' := events' + [DrawClaim];
      }
    }

    /** The first part of `update`. */
    method Advance(newPos: Node) returns (events: seq<Event>, accepted: bool)
      requires Valid() && current.InTree? && Unplaced(newPos)
      modifies this`current, this`turn, this`legalMoves, tree`lookup, tree`nextId
      ensures var a := Advanced(Config(), old(Snapshot()), newPos);
        Snapshot() == a.0 && events == a.1 && accepted == a.2
    {
      events := [BoardState(0, None)];
      var np;
      np, events := tree.AddMove(newPos, current.key, events);
      AdvancedIs(Config(), old(Snapshot()), newPos, np, events, tree.lookup, tree.nextId);
      accepted := events[|events| - 1].ID() != 1;
      if accepted {
        legalMoves, current, turn := [], if |events| == 1 then InTree(np.key) else Loose(np), -turn;
      } else {
        legalMoves := [];
      }
    }

    /** The rest of `update` once the move is in. */
    method Respond(events: seq<Event>, res: string) returns (events': seq<Event>, posted: seq<Request>)
      requires Valid() && KnownBoard(CurrentNode().board) && |events| >= 1 && events[0].BoardState?
      requires Parseable(res) && AnswerEnd(res) < |res|
      modifies this`current, this`legalMoves, this`repetitions, this`engineSearchOrientation, tree`lookup
      ensures (Snapshot(), events', posted) == Responded(Config(), old(Snapshot()), events, res)
    {
      AskedKeeps(Config(), Snapshot(), events, res);
      var get;
      events', get := GetLegalMoves(events, res);
      posted := [get];
      if events'[0].board <= 1 {
        events', posted := Conclude(events', posted);
      }
    }

    /** `update`, with the engine's reply to "get" passed in; the requests
        posted to the engine are returned in order. */
    method Update(newPos: Node, res: string) returns (events: seq<Event>, posted: seq<Request>)
      requires Valid() && current.InTree? && Unplaced(newPos) && KnownBoard(newPos.board)
      requires Parseable(res) && AnswerEnd(res) < |res|
      modifies this`current, this`turn, this`legalMoves, this`repetitions, this`engineSearchOrientation
      modifies tree`lookup, tree`nextId
      ensures (Snapshot(), events, posted) == Updated(Config(), old(Snapshot()), newPos, res)
    {
      AdvancedRefused(Config(), Snapshot(), newPos);
      AdvancedPlayed(Config(), Snapshot(), newPos);
      var accepted;
      events, accepted := Advance(newPos);
      posted := [];
      if accepted {
        events, posted := Respond(events, res);
      }
    }

    /** `set_to_position`: show the stored position `k`; `ok` is false, and
        nothing changes, for a key the tree does not hold (a `KeyError` in
        the source). */
    method SetToPosition(k: Key) returns (ok: bool)
      requires Valid()
      modifies this`current, this`turn, tree`lookup
      ensures ok <==> k in old(tree.lookup)
      ensures ok ==> Snapshot() == SetTo(old(Snapshot()), k)
      ensures !ok ==> Snapshot() == old(Snapshot())
    {
      var found := tree.KeySearch(k);
      if found.None? {
        return false;
      }
      var n := found.value;
      current, turn := InTree(k), TurnAt(n);
      if n.orientation != userOrientation {
        tree.Reorient(k);
      }
      ok := true;
    }

    /** `switch_position`. */
    method SwitchPosition(direction: int)
      requires Valid()
      modifies this`current, this`turn, tree`lookup
      ensures Snapshot() == Shifted(old(Snapshot()), direction)
    {
      match current {
        case InTree(k) =>
          var target := Step(tree.lookup, k, direction);
          var n := tree.lookup[target];
          current := InTree(target);
          if n.orientation != userOrientation {
            tree.Reorient(target);
          }
          turn := TurnAt(n);
        case Loose(n) =>
          current, turn := Loose(Facing(n, userOrientation)), TurnAt(n);
      }
    }

    /** `trim_tree`; `ok` is false where the source fails. */
    method TrimTree() returns (ok: bool)
      requires Valid()
      modifies this`current, this`turn, tree`lookup
      ensures (Snapshot(), ok) == Trimmed(old(Snapshot()))
    {
      match current {
        case Loose(_) =>
          return false;
        case InTree(k) =>
          if k == Root {
            return true;
          }
          TrimmedAfter(Snapshot(), k);
          var par := Parent(tree.lookup, k);
          ok := SetToPosition(par);
          if k !in tree.lookup[par].children {
            return false;
          }
          tree.RemoveChild(par, k);
      }
    }

    /** `get_kwargs`: what the board is told after a move; the engine's
        promotion piece is passed on only when it is one of the codes 1 to 4. */
    function GetKwargs(enginePromotion: int): (k: Board.Kwargs)
      reads this, tree`lookup, tree`nextId, tree`treeHeight
      requires Valid()
      ensures k.promo.Some? <==> 0 < enginePromotion < 5
      ensures k.promo.Some? ==> k.promo.value == enginePromotion
      ensures k.turn == turn && k.orient == userOrientation && k.legal == legalMoves
      ensures k.castle == CurrentNode().castling
    {
      Board.Kwargs(turn, userOrientation, legalMoves, CurrentNode().castling,
                   if 0 < enginePromotion < 5 then Some(enginePromotion) else None)
    }
  }
}
