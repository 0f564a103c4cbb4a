/**
 * One node of the variation tree (Chessington's `Position`), and the
 * operations of `Position` that only touch the node itself.
 *
 * Tree linkage is by key: `parent` and `children` hold keys into the tree's
 * lookup table (module Tree), which plays the role of the object references
 * of the original.
 */
module Position {
  import opened Wrappers

  /** Identity of a node: the reserved root key, the placeholder a node carries
      before it is added to a tree, or a fresh number handed out by the tree. */
  datatype Key = Root | Unkeyed | Id(n: nat)

  datatype Node = Node(
    turn: int,                  // the side whose move brought this position about
    orientation: int,           // display orientation the snapshot was recorded in
    move: seq<int>,             // [or_rank, or_file, de_rank, de_file], or the root's [-1, -1, -1, -1]
    notation: string,
    children: seq<Key>,         // index 0 is the main line
    parent: Option<Key>,
    promotion: bool,
    ply: nat,
    board: seq<seq<int>>,
    castling: int,
    key: Key,
    captured: seq<int>)
  {
    /** Equality of positions is equality of keys. */
    predicate Same(other: Node) {
      key == other.key
    }
  }

  /** A freshly built position: no linkage yet, ply 0. */
  function NewNode(turn: int, orientation: int, move: seq<int>, notation: string, promotion: bool,
                   board: seq<seq<int>>, castling: int, captured: seq<int>, key: Key): (n: Node)
    ensures n.children == [] && n.parent == None && n.ply == 0 && n.key == key
    ensures n.turn == turn && n.orientation == orientation && n.move == move && n.notation == notation
    ensures n.promotion == promotion && n.board == board && n.castling == castling && n.captured == captured
  {
    Node(turn, orientation, move, notation, [], None, promotion, 0, board, castling, key, captured)
  }

  /** Mirror a move for the other display orientation: every entry m other than
      the fifth becomes 7 - m; the fifth (a promotion code) takes the last entry. */
  function ReverseMove(m: seq<int>): (r: seq<int>)
    ensures |r| == |m|
    ensures forall i :: 0 <= i < |m| && i < 4 ==> r[i] == 7 - m[i]
    ensures |m| == 5 ==> r[4] == m[4]
  {
    seq(|m|, i requires 0 <= i < |m| => if i != 4 then 7 - m[i] else m[|m| - 1])
  }

  /** Moves in the source have four coordinates, or five entries with a promotion
      code; on those, mirroring twice gives the move back. */
  lemma ReverseMoveInvolution(m: seq<int>)
    requires |m| <= 5
    ensures ReverseMove(ReverseMove(m)) == m
  {
    var r := ReverseMove(m);
    var rr := ReverseMove(r);
    forall i | 0 <= i < |m| ensures rr[i] == m[i] {
      if i == 4 {
        assert |m| == 5;
        assert rr[4] == r[4] == m[4];
      }
    }
  }

  /** The move is mirrored unless it is empty or the root sentinel; the
      orientation is always negated. */
  function ReverseRankAndFile(n: Node): (r: Node)
    ensures r.orientation == -n.orientation
    ensures r.move == if |n.move| > 0 && n.move[0] != -1 then ReverseMove(n.move) else n.move
    ensures r == n.(orientation := r.orientation, move := r.move)
  {
    var mv := if |n.move| > 0 && n.move[0] != -1 then ReverseMove(n.move) else n.move;
    n.(orientation := -n.orientation, move := mv)
  }

  /** The moves a node can carry: the root sentinel, or coordinates on the board. */
  predicate ValidNodeMove(m: seq<int>) {
    |m| <= 5 && (|m| == 0 || m[0] == -1 || 0 <= m[0] <= 7)
  }

  lemma ReverseRankAndFileInvolution(n: Node)
    requires ValidNodeMove(n.move)
    ensures ReverseRankAndFile(ReverseRankAndFile(n)) == n
  {
    var r := ReverseRankAndFile(n);
    if |n.move| > 0 && n.move[0] != -1 {
      assert r.move[0] == 7 - n.move[0] != -1;
      ReverseMoveInvolution(n.move);
    }
  }

  /** Appending a marker (check, mate, stalemate) or prepending a prefix (move number). */
  function UpdateNotation(n: Node, add: string, prefix: bool): (r: Node)
    ensures |n.notation| == 0 ==> r == n
    ensures |n.notation| > 0 && prefix ==> r.notation == add + n.notation
    ensures |n.notation| > 0 && !prefix ==>
              r.notation == if [n.notation[|n.notation| - 1]] != add then n.notation + add else n.notation
    ensures r == n.(notation := r.notation)
  {
    if |n.notation| == 0 then n
    else if [n.notation[|n.notation| - 1]] != add && !prefix then n.(notation := n.notation + add)
    else if prefix then n.(notation := add + n.notation)
    else n
  }

  /** A one-character marker is appended at most once. */
  lemma UpdateNotationSuffixIdempotent(n: Node, add: string)
    requires |add| == 1
    ensures UpdateNotation(UpdateNotation(n, add, false), add, false) == UpdateNotation(n, add, false)
  {
    var once := UpdateNotation(n, add, false);
    if |n.notation| > 0 && [n.notation[|n.notation| - 1]] != add {
      assert once.notation[|once.notation| - 1] == add[0];
      assert [once.notation[|once.notation| - 1]] == add;
    }
  }

  /** A marker never disturbs the text already there, and keeps the notation non-empty. */
  lemma UpdateNotationExtends(n: Node, add: string, prefix: bool)
    ensures |n.notation| > 0 ==> |UpdateNotation(n, add, prefix).notation| > 0
    ensures !prefix ==> n.notation <= UpdateNotation(n, add, prefix).notation
  {
  }
}
