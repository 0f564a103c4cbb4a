# Chessington and Enginegton, modelled in Dafny

Chessington is a desktop chess program in Python. It keeps every game as a
tree of positions (`MoveTree`, `Position`): the main line plus up to five
variations at each position. A `Board` turns a dragged piece into a new
position, writes its algebraic notation and updates castling rights and the
captured-material list. A `Game` adds each new position to the tree and asks
the engine for the legal moves and the game state. It counts repetitions and
lets the user walk, trim and promote variations. Enginegton is the C++ engine
behind it. Chessington sends it a five-line text request (a command word,
the board as 64 letters, turn and orientation, the last move, and the
castling rights). For every request the engine rebuilds its two
`PieceGroup`s (one per colour: square → piece map, occupancy bitboard,
material, castling rights). It answers with the legal moves as five-digit
blocks followed by four status flags, or with one chosen move. Between
requests it plays and takes back moves on its groups: Zobrist hash,
en-passant square, and capture, castling and hash logs. It precomputes
bitboard masks for every piece, and a max-heap (`MoveQueue`) orders
candidate moves.

The Dafny project has one module per source file:

- The Python side:
  - `Position` (position.dfy).
  - `Tree` (tree.dfy) and `MoveTrees` (move_tree.dfy, class `MoveTree`).
  - `Board` (board.dfy, class `Board`).
  - `Games` (game.dfy, class `Game`).
  - `App` (chessington.dfy, the parts of the application class that are not drawing).
  - Two small shared modules: `Text` (decimal text) and `Grid` (board flipping).
  - `Events` (events.dfy, the event identifiers the core raises).
- The C++ side:
  - `MoveQueues` (move_queue.dfy, class `MoveQueue`).
  - `Bitboards` (bitboards.dfy) over the bit helpers in `Bits` (bits.dfy).
  - `Scans` (scans.dfy: bit counting and ray scanning).
  - `PieceGroups` (piece_group.dfy, class `PieceGroup`).
  - `Engine` (engine.dfy, class `Enginegton`), with `Zobrist` (xor.dfy) for hash algebra.
- `Protocol` (protocol.dfy) connects the two sides. It proves that what one
  writes is what the other reads.

Stateful code is modelled as classes whose methods are proved against value
functions. Examples:

- `MoveTree.AddMove` against `Added`.
- `Board.ProcessMove` against `Applied`.
- `Game.Update` against `Updated`.
- `Enginegton.ProcessMove` and `UndoMove` against `Played` and `Undone`.
- `PieceGroup` methods against `Group` transformers.
- `MoveQueue` against a multiset of moves.

The lemmas prove what those functions promise. The operations follow the
code as written, defects included. Each defect listed under Findings also
has a corrected rule defined beside it, with the intended property proved
for that rule.

Python object identity (`id(new_pos)`, used as a tree key) is modelled by a
counter: `Key` is `Root`, `Unkeyed` (a position not yet in the tree, key 0 in
the source) or `Id(n)` with fresh `n`.

## Model

| member | source | states |
|---|---|---|
| Text.Digit | Chessington/Game.py:117-121 | the value `int` gives a decimal digit character is below 10 |
| Text.DigitChar | Chessington/Board.py:240-242 | the character `str` writes for a digit value is a digit whose value is that number |
| Text.DigitCharOfDigit | Chessington/Game.py:117-121 | writing back the value of a digit character gives the same character |
| Text.NatToString | Chessington/Game.py:81-85 | `str` of a natural is non-empty and all digits, and has one character exactly when the number is below 10 |
| Text.IntToString | Chessington/Game.py:81-85 | `str` of a negative number is a minus sign before the digits of its magnitude |
| Text.NatToStringRoundTrip | Chessington/Game.py:85 | reading back the decimal text written for a natural gives that natural (the castling field crosses the protocol this way) |
| Grid.Reverse | Chessington/Board.py:397-398 | a reversed sequence holds at index i what the original held at the mirrored index; it serves for a rank here and for `fen[::-1]` in Chessington/Game.py:44 |
| Grid.Rotated | Chessington/Board.py:395-400 | `flip`: rank r of the flipped board is rank 7-r reversed |
| Grid.RotatedSquares | Chessington/Board.py:395-400 | on an 8x8 board, square (r, f) of the flipped board is square (7-r, 7-f) of the original |
| Grid.ReverseInvolution | Chessington/Board.py:397-398 | reversing a rank twice restores it |
| Grid.RotatedInvolution | Chessington/Board.py:395-400 | flipping a board twice restores it |
| Position.NewNode | Chessington/Position.py:2-18 | a new position has no parent and no children, ply 0, and exactly the move data it was given |
| Position.ReverseMove | Chessington/Position.py:93-95 | the first four coordinates of a move become 7 minus themselves; the promotion code in fifth place is kept |
| Position.ReverseMoveInvolution | Chessington/Position.py:93-95 | reversing a move of at most five entries twice restores it |
| Position.ReverseRankAndFile | Chessington/Position.py:59-62 | negates the orientation and reverses the move unless it is the root's `-1` placeholder; nothing else changes |
| Position.ReverseRankAndFileInvolution | Chessington/Position.py:59-62 | reorienting a position twice restores it |
| Position.UpdateNotation | Chessington/Position.py:64-70 | an empty notation is left alone; a prefix is put in front; a suffix is appended unless the notation already ends with it; nothing else changes |
| Position.UpdateNotationSuffixIdempotent | Chessington/Position.py:67-68 | marking a position twice with the same one-character mark (`+`, `#`, `=`) is the same as marking it once |
| Position.UpdateNotationExtends | Chessington/Position.py:64-70 | a non-empty notation stays non-empty, and a suffix edit only extends it |
| Events.Event.ID | Chessington/Game.py:27-49 | the event identifiers the core raises: go-to 0, takeback 1, board state 50, draw claim 51 |
| Scans.CountInDistinct | Enginegton/source/Enginegton.cpp:905-909 | over distinct indices, the count of set bits equals the size of the set of listed squares that are set |
| Scans.BitCountAt | Enginegton/source/Enginegton.cpp:905-909 | the loop counts the listed indices whose bit is set |
| Scans.BitCountFrom | Enginegton/source/Enginegton.cpp:911-922 | clearing the highest bit until none is left counts every set square of the board |
| Scans.RayIndex | Enginegton/source/Enginegton.cpp:769-772 | returns the first set square at or after the start, and no square between the start and it is set |
| Tree.ChildRanksAbove | Chessington/Position.py:40-41 | every child of a position is in the tree, has that position as parent, and was created after it |
| Tree.SiblingIndex | Chessington/Position.py:77-80 | `get_sibling_index`: the first index in the parent's children that holds the position, or none when it is not listed |
| Tree.HasSiblings | Chessington/Position.py:72-75 | a listed non-root position has siblings exactly when another position shares its parent |
| Tree.GetNext | Chessington/Position.py:87-91 | none exactly for a leaf; otherwise the first child, whose parent is the position |
| Tree.PathTo | Chessington/Position.py:36-50 | the parent chain from the root to a position: starts at the root, ends at the position, each step a child of the one before |
| Tree.AttachedPath | Chessington/Position.py:77-80 | a position is reachable from the root exactly when every position on its parent chain is listed among its parent's children |
| Tree.IsBranch | Chessington/Position.py:40 | a position starts a variation exactly when it is not the root and is not its parent's first child |
| Tree.FindBranchAncestor | Chessington/Position.py:82-85 | the ancestor found is a non-root position that is not its parent's first child |
| Tree.FindBranchAncestorNearest | Chessington/Position.py:82-85 | the ancestor found is the nearest one on the parent chain that is not a first child; when none is found, every position on the chain is a first child |
| Tree.MainLine | Chessington/Position.py:52-55 | `follow_line` collects a line that starts at the position and follows first children |
| Tree.Below | Chessington/MoveTree.py:49-50 | empty exactly for a leaf; otherwise the main line from the first child |
| Tree.BranchCountBound | Chessington/Position.py:40-48 | the number of variation starts on the way to a position is at most its distance from the root |
| Tree.PartLayers | Chessington/Position.py:30-50 | the layers `tree_backtrack` builds: one more than the number of variation starts, none empty, the first beginning at the root and the last ending at the position |
| Tree.OpenLayer | Chessington/Position.py:40-48 | opening a layer keeps the layers below, adds the followed line to the top layer and starts a new layer holding the position |
| Tree.PartLayersBranchPoints | Chessington/Position.py:30-50 | every layer joins the one above it at a branch point of the tree |
| Tree.PartTree | Chessington/MoveTree.py:45-51 | the part tree is the backtracked layers with the main line below the position added to the top layer |
| MoveTrees.NotationMatchMeaning | Chessington/MoveTree.py:59-66 | a sibling matches a notation exactly when it equals it or equals it followed by `+`, `=` or `#` |
| MoveTrees.FirstMatch | Chessington/MoveTree.py:59-67 | the index found is the first matching sibling, and none is found exactly when no sibling matches |
| MoveTrees.Numbered | Chessington/MoveTree.py:20-25 | the ply goes up by one after a white move, and the notation gets the move number or `... ` as its prefix; nothing else changes |
| MoveTrees.Reoriented | Chessington/Game.py:145-147 | reorienting a stored position reverses its move and orientation and flips its board, keeping its key, parent, children and ply |
| MoveTrees.ReorientedInvolution | Chessington/Game.py:145-147 | reorienting a stored position twice restores it |
| MoveTrees.RemoveFirst | Chessington/Game.py:168 | `list.remove` drops the first occurrence and keeps the rest in order; the multiset loses one copy |
| MoveTrees.SwapDown | Chessington/Chessington.py:512-514 | exchanges the child at index i with the one before it, leaving the others in place |
| MoveTrees.Inserted | Chessington/MoveTree.py:38-42 | inserting a fresh position under a listed one keeps the tree sound |
| MoveTrees.AddedRefusal | Chessington/MoveTree.py:27-29 | a takeback is raised exactly when the position already has as many children as the branch limit; the new position keeps the played board, move, turn and castling rights; at most one event follows, never a draw claim |
| MoveTrees.AddedRedirect | Chessington/MoveTree.py:30-36 | when an event is raised the tree is unchanged, and a go-to event names an existing child whose notation matches, or the height is at the limit |
| MoveTrees.GrownShape | Chessington/MoveTree.py:38-42 | inserting adds exactly one key, appends it to the parent's children and changes no other position |
| MoveTrees.AddedSound | Chessington/MoveTree.py:18-42 | `add_move` keeps the tree sound (linked, keyed, ply-consistent) on every path |
| MoveTrees.AddedInsertion | Chessington/MoveTree.py:38-42 | when no event is raised, the new position gets a fresh key and the current position as parent, and the key counter advances |
| MoveTrees.MoveTree.constructor | Chessington/MoveTree.py:6-13 | a new tree holds only the root; the branch limit is 5 and the height 0 |
| MoveTrees.MoveTree.KeySearch | Chessington/MoveTree.py:15-16 | a position is found exactly when its key is in the lookup, and it is the stored one |
| MoveTrees.MoveTree.PosInTree | Chessington/MoveTree.py:53-67 | found exactly when some sibling matches, and the index is the first match |
| MoveTrees.MoveTree.AddMove | Chessington/MoveTree.py:18-42 | updates the lookup and key counter as `Added` describes, and appends its events |
| MoveTrees.MoveTree.Insert | Chessington/MoveTree.py:38-42 | stores the new position under a fresh key with the joined captured list and appends it to the parent's children |
| MoveTrees.MoveTree.FollowLine | Chessington/Position.py:52-55 | appends the main line from a position to the given layer |
| MoveTrees.MoveTree.ShiftLayers | Chessington/Position.py:42-47 | moves every layer one place up and starts an empty layer 0 |
| MoveTrees.MoveTree.PutFirst | Chessington/Position.py:32-34 | puts the position at the front of layer 0, with the followed line when asked to continue it |
| MoveTrees.MoveTree.TreeBacktrack | Chessington/Position.py:30-50 | lays out the layers `PartLayers` describes, on top of the given ones |
| MoveTrees.MoveTree.OpenUp | Chessington/Position.py:40-48 | the variation-start step of `tree_backtrack` yields the layers of the position |
| MoveTrees.MoveTree.ExtendUp | Chessington/Position.py:49-50 | the same-line step of `tree_backtrack` yields the layers of the position |
| MoveTrees.MoveTree.GetPartTree | Chessington/MoveTree.py:45-51 | the tree height becomes the number of variation starts above the position, and from an empty start the result is `PartTree` |
| MoveTrees.MoveTree.FollowTopLayer | Chessington/MoveTree.py:49-50 | appends the line below the position to the top layer |
| MoveTrees.MoveTree.Reorient | Chessington/Game.py:145-147 | replaces one stored position by its reoriented copy and keeps the tree sound |
| MoveTrees.MoveTree.Annotate | Chessington/Game.py:61-73 | adds a status mark to one stored position and keeps the tree sound |
| MoveTrees.MoveTree.RemoveChild | Chessington/Game.py:168 | removes the first occurrence of a child from its parent's list and keeps the tree sound |
| MoveTrees.MoveTree.PromoteVariation | Chessington/Chessington.py:507-515 | when the branch ancestor exists and is listed, swaps it with its older sibling; otherwise changes nothing |
| MoveTrees.InsertKeepsValid | Chessington/MoveTree.py:38-42 | appending a fresh child keeps the tree linked, bounded, ply-consistent and annotated |
| MoveTrees.ReplaceKeepsValid | Chessington/Game.py:145-147 | replacing a position by one with the same links, ply and turn and a notation at least as long keeps the tree sound |
| MoveTrees.ChildrenEditKeepsValid | Chessington/Chessington.py:512-514 | replacing a children list by a duplicate-free selection of it keeps the tree sound |
| MoveTrees.RemoveFirstKeeps | Chessington/Game.py:168 | removing a child keeps the list duplicate-free and within the old list, and the child is gone |
| MoveTrees.SwapDownKeeps | Chessington/Chessington.py:512-514 | swapping two children keeps the list duplicate-free and within the old list |
| MoveTrees.BacktrackTop | Chessington/MoveTree.py:48 | the highest layer index after backtracking is the start height plus the number of variation starts |
| MoveTrees.PartTreeLaidOut | Chessington/MoveTree.py:45-51 | backtracking and then following the top line yields contiguous layers, equal to `PartTree` from an empty start |
| Board.StartPos | Chessington/Board.py:401-411 | the start position is an 8x8 board |
| Board.FloorDiv | Chessington/Board.py:211 | Python `//` rounds towards minus infinity: for a positive divisor b the quotient q has b*q <= a < b*q + b, and for a negative one b*q + b < a <= b*q |
| Board.CastlingRookCode | Chessington/Board.py:211 | `50 // piece` gives the rook code 5 for the white king and -5 for the black king |
| Board.DisambiguationEmpty | Chessington/Board.py:263-272 | the disambiguation is empty exactly when no other legal move brings a piece of the same kind to the destination |
| Board.DisambiguationFirstRival | Chessington/Board.py:263-272 | otherwise the first such rival decides the mark: the origin file when it differs, else the origin rank |
| Board.NotationParts | Chessington/Board.py:224-243 | notation ends with destination file and rank; pieces start with their letter; captures have `x` before the square; pawns write their origin file only when capturing |
| Board.RankDigitFromWhite | Chessington/Board.py:239-242 | the rank digit counts from white's side in either orientation, and mirroring the rank with the orientation gives the same digit |
| Board.KingsPawnOpening | Chessington/Board.py:224-243 | from the start position the pawn move e2-e4 is written `e4` |
| Board.Mirrored | Chessington/Board.py:280-284 | `flip_file_notation` puts the name of file 7-i at file i |
| Board.MirroredInvolution | Chessington/Board.py:280-284 | mirroring the file names twice restores them |
| Board.MirrorMoves | Chessington/Chessington.py:449-450 | each legal move is reversed in place |
| Board.MirrorMovesInvolution | Chessington/Chessington.py:449-450 | reversing the legal moves twice restores them |
| Board.DisambiguationFlip | Chessington/Board.py:263-272 | on the flipped board, with mirrored file names, mirrored moves and the other orientation, the disambiguation is the same |
| Board.NotationFlip | Chessington/Board.py:224-243 | the notation of a move does not depend on the side the board is viewed from |
| Board.ValidMove | Chessington/Board.py:245-253 | true exactly when the squares differ and some legal move goes from the origin to the destination |
| Board.ValidMoveFlip | Chessington/Board.py:245-253 | a move is valid exactly when its mirror is valid among the mirrored legal moves |
| Board.ValidPiece | Chessington/Board.py:255-260 | a piece may be picked up exactly when the engine is idle and the piece belongs to the side to move |
| Board.Recorded | Chessington/Board.py:132-142 | no capture records nothing; a captured piece the side still has a spare of records the opponent's pawn sign; otherwise the piece itself |
| Board.Recounted | Chessington/Board.py:135-140 | capturing a counted piece lowers its count by one and leaves the others |
| Board.Tally | Chessington/Board.py:382-385 | `set_pos` counts each knight, bishop, rook and queen code on the board |
| Board.HalvesSplit | Chessington/Board.py:158-159 | a castling value splits into a white half and a black half that recombine to it |
| Board.HalvesOf | Chessington/Board.py:203 | recombining two halves and splitting again gives them back |
| Board.RightsNeverGrow | Chessington/Board.py:156-203 | after a move the rights stay in 0..15, neither half grows, and a king move clears its side's rights |
| Board.RightsOnlyLost | Chessington/Board.py:156-203 | under the intended rule, a right held after the move was held before |
| Board.RookMoveLosesItsSide | Chessington/Board.py:163-167 | under the intended rule, a white rook leaving the king's corner loses exactly the short right and leaves the rest |
| Board.RightsAsWrittenGrantsLong | Chessington/Board.py:163-167 | as written, a queen's-rook move from the short-only value 8 yields 4, the long-only value (see Findings) |
| Board.RightsAgreeWhenHeld | Chessington/Board.py:163-188 | a white rook move that takes no rook, from a corner whose right is held, gives the same rights as written as under the intended rule |
| Board.RightsAsWrittenDropsLong | Chessington/Board.py:163-167 | as written, a king's-rook move from the long-only value 4 yields 0 (see Findings) |
| Board.AppliedLands | Chessington/Board.py:144-205 | the moving or promoted piece stands on the destination, the origin is empty, and the position records the move, turn, orientation and promotion |
| Board.AppliedPlainMove | Chessington/Board.py:127-205 | a move that is neither castling nor en passant changes only its two squares and records the capture |
| Board.CastledRook | Chessington/Board.py:207-216 | castling empties the rook's corner, puts the rook beside the king and changes no other square |
| Board.AppliedCastles | Chessington/Board.py:146-149 | a castling move is written `0-0` or `0-0-0` and moves the rook beside the king |
| Board.AppliedEnPassant | Chessington/Board.py:151-154 | an en-passant capture empties the square beside the origin and records the captured pawn |
| Board.OccurrencesAfterMove | Chessington/Board.py:135-140 | the count of a code after a plain move is the recount of the old counts |
| Board.TallyAfterMove | Chessington/Board.py:135-140 | recounting the tally after a capture gives the tally of the new board |
| Board.AppliedKeepsTally | Chessington/Board.py:135-140 | when the piece counts match the board before a plain move, they match it after |
| Board.Board.constructor | Chessington/Board.py:28-45 | a new board holds no position and no counts, and names the files a to h |
| Board.Board.SetPos | Chessington/Board.py:382-385 | stores the position and its piece tally |
| Board.Board.FlipFileNotation | Chessington/Board.py:280-284 | mirrors the file names |
| Board.Board.NotationAmbiguity | Chessington/Board.py:263-272 | the loop computes the disambiguation of the stored board |
| Board.Board.GetNotation | Chessington/Board.py:224-243 | computes the notation of the move on the stored board |
| Board.Board.Castle | Chessington/Board.py:207-216 | moves the rook as `Castled` describes and returns the castling notation |
| Board.Board.EnPassant | Chessington/Board.py:218-222 | empties the pawn square taken en passant |
| Board.Board.ProcessMove | Chessington/Board.py:127-205 | the new board, counts and position are those `Applied` describes, with the castling rights computed as the code does |
| Board.Board.MovePieces | Chessington/Board.py:144-154 | moves the pieces, reports castling notation and en-passant use |
| Board.Board.RecordCapture | Chessington/Board.py:132-142 | records the captured piece and lowers its count |
| Board.Board.UpdateRights | Chessington/Board.py:156-193 | computes the castling rights as written: the mover's rook subtractions while its half is positive, the capture elif chain, then clamping at 0 (see Findings) |
| Board.Board.MoverRights | Chessington/Board.py:163-177 | while the half is positive, a rook leaving the king's corner subtracts 2 and one leaving the queen's corner subtracts 1, held or not; a king move clears the half |
| Board.Board.TakenRights | Chessington/Board.py:179-188 | a positive half loses 2 or 1 when its rook is taken on the king's or queen's corner file, by orientation |
| App.EngineMoveIgnored | Chessington/Chessington.py:357-362 | a reply is ignored exactly when it is shorter than 2, lacks the `f/` prefix, or no search is running; otherwise the search flag is cleared |
| App.EngineMoveSeven | Chessington/Chessington.py:363-369 | a seven-character reply gives its five digits as the move, reversed when the search ran in the other orientation |
| App.EngineMoveLong | Chessington/Chessington.py:365-369 | a longer reply reads a two-digit promotion field, and fails exactly when it is too short or not digits |
| App.CastlingChoicesAsWrittenWrong | Chessington/Chessington.py:415-425 | as written, on a board the game starts from (one king of each colour, White's on e2), choice 0 becomes -8 and choice 15 becomes 7 (see Findings) |
| App.CastlingChoicesMeaning | Chessington/Chessington.py:415-425 | the corrected check keeps a chosen right exactly when its king and rook stand at home, and agrees with the source when all are home |
| App.OccurrencesCount | Chessington/Chessington.py:428-429 | counting a value in a row is its multiplicity |
| App.BoardOccurrencesCount | Chessington/Chessington.py:428-429 | counting over all ranks is the multiplicity in the flattened board |
| App.MayStartKings | Chessington/Chessington.py:188-189 | an edited position may start a game exactly when it holds one king of each colour |
| App.NotCounted | Chessington/Chessington.py:428-429 | a value on no rank is counted 0 times |
| App.CountedOnce | Chessington/Chessington.py:428-429 | a value on one square of one rank and on no other rank is counted once |
| App.OnlyAt | Chessington/Chessington.py:428-429 | a value on exactly one square of a rank occurs once in it |
| App.Nowhere | Chessington/Chessington.py:428-429 | a value on no square of a rank occurs in it zero times |
| App.KingsOnlyStarts | Chessington/Chessington.py:188-189 | the board with only the two kings passes the editor's one-king-each gate |
| App.MirroredMoves | Chessington/Chessington.py:449-450 | mirroring the legal moves keeps their number |
| App.FlippedWell | Chessington/Chessington.py:441-450 | flipping the view negates the user orientation, mirrors the legal moves, reorients only the current position and keeps the game sound |
| App.MirroredTwice | Chessington/Chessington.py:449-450 | mirroring the legal moves twice restores them |
| App.FacingTwice | Chessington/Chessington.py:444-446 | turning a position away and back restores it |
| App.FlippedTwice | Chessington/Chessington.py:441-450 | flipping twice restores orientation and legal moves, and the whole state when the shown position faced the user |
| App.FlipBoard | Chessington/Chessington.py:441-450 | the game becomes `Flipped`, the board is rotated and its file names mirrored |
| App.PromoteVariation | Chessington/Chessington.py:507-515 | when the branch ancestor of the current position is listed and not first, it changes places with its older sibling; otherwise nothing changes |
| App.DimensionsMeaning | Chessington/Chessington.py:589-594 | the margin is half the height, the width is height plus margin, and the square size is the height divided by 8 |
| Games.FenLetter | Chessington/Game.py:14 | an empty square is `0`, white pieces upper case, black pieces lower case |
| Games.FenLetterInjective | Chessington/Game.py:14 | different piece codes get different letters |
| Games.RowFen | Chessington/Game.py:127-132 | one letter per square of the rank, in order |
| Games.FenPrefix | Chessington/Game.py:125-133 | the letters of the ranks are laid out rank by rank, eight per rank |
| Games.FenLayout | Chessington/Game.py:125-133 | the string of a board has 64 letters, square (r, f) at 8r+f |
| Games.FenRotated | Chessington/Game.py:43-44 | the string of the flipped board is the string of the board reversed |
| Games.FenInjective | Chessington/Game.py:46-51 | equal strings come from equal boards, so the string is a faithful repetition key |
| Games.RepetitionKeyOfView | Chessington/Game.py:43-44 | the key written for the shown board is the string of the board seen from white, in either orientation |
| Games.NVal | Chessington/Game.py:88-93 | the text starts with `-` exactly for negative values, and is one character for 1 and -1 |
| Games.MoveLineDigits | Chessington/Game.py:82-83 | a move of digit values is written one character per entry |
| Games.RootMoveLine | Chessington/Game.py:82-83 | the root's placeholder move is written `-1-1-1-1` |
| Games.AnswerEnd | Chessington/Game.py:115-117 | the end of the move list is the first newline, or the end of the text |
| Games.AnswerMove | Chessington/Game.py:118-123 | a block gives a five-entry move whose four coordinates are digits |
| Games.AnswerMoves | Chessington/Game.py:114-124 | one move per complete block before the newline |
| Games.AnswerFlags | Chessington/Game.py:116-117 | the four flags after the newline are read exactly when there is a newline |
| Games.Judge | Chessington/Game.py:55-77 | any state change is a board-state event |
| Games.JudgeAgrees | Chessington/Game.py:55-77 | the mark and the event agree: `+` with check, `#` with mate (a winner only against the engine), `=` with stalemate, nothing when no flag is set |
| Games.JudgePriority | Chessington/Game.py:55-77 | insufficient material wins over everything, and mate over stalemate |
| Games.Counted | Chessington/Game.py:46-51 | counting a key adds one to it, starting from 1, and leaves other keys |
| Games.CountedThrice | Chessington/Game.py:46-49 | a new key counted three times reaches 3, the threshold for a draw claim |
| Games.Settled | Chessington/Game.py:55-77 | the first event after judging is a board-state event |
| Games.SettledOver | Chessington/Game.py:36-37 | the game is over exactly on insufficient material with the engine on, on mate, or on stalemate |
| Games.Step | Chessington/Game.py:149-154 | going back gives the parent, forward gives the first child, and otherwise the position stays |
| Games.ForwardBack | Chessington/Game.py:149-154 | a step forward then back returns to the position |
| Games.BackForward | Chessington/Game.py:149-154 | a step back then forward returns exactly when the position is its parent's first child |
| Games.MarkedKeeps | Chessington/Game.py:61-73 | marking the shown position keeps the game sound and changes nothing else |
| Games.AskedKeeps | Chessington/Game.py:109-112 | asking for legal moves appends the parsed moves, marks the position and sets the first event as judged |
| Games.AdvancedRefused | Chessington/Game.py:27-31 | the move is accepted exactly when the branch limit is not reached; a refusal raises a takeback |
| Games.AdvancedPlayed | Chessington/Game.py:27-34 | an accepted move switches turns and shows the new position's board, move and rights |
| Games.AdvancedWell | Chessington/Game.py:26-34 | the first half of `update` keeps the game sound |
| Games.RespondedOutcome | Chessington/Game.py:35-41 | the second half of `update` asks for legal moves first, and stops before counting when the game is over |
| Games.RespondedCounts | Chessington/Game.py:39-53 | otherwise the position is counted, a draw claim is raised at three repetitions on the user's turn, and the engine is started on its turn |
| Games.UpdatedRefused | Chessington/Game.py:26-31 | a move beyond the branch limit only clears the legal moves and raises a takeback |
| Games.UpdatedAccepted | Chessington/Game.py:26-53 | an accepted move is the first half followed by the second |
| Games.UpdatedPlayed | Chessington/Game.py:26-53 | after an accepted move the turn switches, the legal moves are the engine's answer and a `get` request for the new position is sent |
| Games.SetToOutcome | Chessington/Game.py:137-147 | going to a stored position makes it current, sets the turn and reorients it to the user's view, changing nothing else |
| Games.SetToTwice | Chessington/Game.py:137-147 | going to the same position twice is the same as once |
| Games.ShiftedForwardBack | Chessington/Game.py:149-161 | moving forward then back returns to the same position |
| Games.ShiftedBackForward | Chessington/Game.py:149-161 | moving back then forward returns exactly when the position is its parent's first child |
| Games.ShiftedStays | Chessington/Game.py:149-161 | when no step is possible, the position stays and is only reoriented |
| Games.TrimmedAfter | Chessington/Game.py:163-168 | trimming goes to the parent and removes the position from its children |
| Games.TrimmedEnds | Chessington/Game.py:163-168 | trimming keeps the game sound, and does nothing at the root |
| Games.TrimmedCut | Chessington/Game.py:163-168 | the trimmed position is no longer a child, and the lookup keeps its keys |
| Games.Game.constructor | Chessington/Game.py:9-24 | a new game starts at the root of a new or given tree, with no legal moves and no repetitions, the engine playing the other colour |
| Games.Game.ToFen | Chessington/Game.py:125-133 | the loop builds the board string |
| Games.Game.GetEngineArgs | Chessington/Game.py:79-86 | writes the request text for the current position |
| Games.Game.WriteArgs | Chessington/Game.py:80-85 | the loop writes the five request fields |
| Games.Game.ParseAnswer | Chessington/Game.py:114-124 | appends the parsed moves and returns the flags |
| Games.Game.AnswerMovesGrow | Chessington/Game.py:118-123 | each complete block adds exactly its move after the ones before it |
| Games.Game.UpdateEvents | Chessington/Game.py:55-77 | marks the position and sets the first event as judged |
| Games.Game.GetLegalMoves | Chessington/Game.py:109-112 | sends a `get` request and applies the answer |
| Games.Game.StartEngine | Chessington/Game.py:101-107 | records the search orientation and sends a `find` request |
| Games.Game.Recur | Chessington/Game.py:46-51 | counts the position and claims a draw at three repetitions on the user's turn with the engine on |
| Games.Game.Conclude | Chessington/Game.py:39-53 | starts the engine on its turn and counts the repetition |
| Games.Game.Advance | Chessington/Game.py:26-34 | the first half of `update` on the object |
| Games.Game.Respond | Chessington/Game.py:35-53 | the second half of `update` on the object |
| Games.Game.Update | Chessington/Game.py:26-53 | the new state, events and requests are those `Updated` describes |
| Games.Game.SetToPosition | Chessington/Game.py:137-147 | succeeds exactly when the key is stored, and then goes there; otherwise nothing changes |
| Games.Game.SwitchPosition | Chessington/Game.py:149-161 | moves one step up or down the tree |
| Games.Game.TrimTree | Chessington/Game.py:163-168 | trims the current position off the tree |
| Games.Game.GetKwargs | Chessington/Game.py:170-175 | the promotion is passed exactly when it is between 1 and 4, with turn, orientation, legal moves and rights |
| Protocol.RequestLines | Chessington/Game.py:79-86 | the request text splits back into the word, the board, turn and orientation, the move and the rights |
| Protocol.RequestJoined | Chessington/Game.py:79-86 | the request text is its five fields joined by newlines |
| Protocol.RequestFields | Enginegton/source/Enginegton.cpp:176-217 | the engine reads back the turn, orientation and castling value the application wrote |
| Protocol.FenReadLetter | Enginegton/include/Enginegton.h:27-28 | every letter the application writes is read as the engine's id of the same piece |
| Protocol.RequestSquare | Enginegton/source/Enginegton.cpp:185-212 | each square of the engine's board is the application's piece on that square seen from white |
| Protocol.RequestLastMove | Enginegton/source/Enginegton.cpp:228-236 | the engine reads back the last move, mirrored when the board is flipped |
| Protocol.SeenReversed | Chessington/Chessington.py:368-369 | reversing a move seen in one orientation gives it in the other |
| Protocol.DigitsOfMove | Enginegton/source/Enginegton.cpp:285-297 | each move is written as five digits that read back as the move seen in the orientation |
| Protocol.MovesTextDigits | Enginegton/source/Enginegton.cpp:285-297 | the move list is five digits per move, each block the move's digits |
| Protocol.MovesTextAllDigits | Enginegton/source/Enginegton.cpp:285-294 | the move list holds nothing but digits |
| Protocol.FlagsRead | Enginegton/source/Enginegton.cpp:296-297 | the four flag digits the engine writes read back as the four flags |
| Protocol.BlocksParsed | Chessington/Game.py:114-124 | reading blocks of digits and four flags gives one move per block and the flags |
| Protocol.ListedBlocks | Chessington/Game.py:114-124 | the application reads each engine move back from its block |
| Protocol.GetMovesParsed | Enginegton/source/Enginegton.cpp:268-300 | the application parses the engine's reply into the engine's moves and its four flags |
| Protocol.ReplyBody | Chessington/Chessington.py:92-99 | after the `/` marker, the reply is the move list, a newline and the four flags |
| Protocol.PostedMoveSeen | Enginegton/source/Enginegton.cpp:162-169 | the move the engine posts is read by the application as that move in the user's orientation |
| MoveQueues.NewMove | Enginegton/include/Move.h:23 | a move carries the given mask, squares and rating |
| MoveQueues.NewMoveDefaultKind | Enginegton/include/Move.h:23 | the move kind defaults to 0 |
| MoveQueues.ChildrenOfParent | Enginegton/include/Move.h:79-81 | the parent of both children of i is i, and only they have parent i |
| MoveQueues.HeapTop | Enginegton/source/Move.cpp:270-279 | in a heap no move outrates the first |
| MoveQueues.MoveQueue.constructor | Enginegton/include/Move.h:88 | a new queue holds only the sentinel and is empty |
| MoveQueues.MoveQueue.GetSize | Enginegton/include/Move.h:89 | the size is the number of queued moves |
| MoveQueues.MoveQueue.Enqueue | Enginegton/source/Move.cpp:264-268 | adds exactly the move and keeps the heap |
| MoveQueues.MoveQueue.Dequeue | Enginegton/source/Move.cpp:270-279 | removes and returns a move of the highest rating and keeps the heap |
| MoveQueues.MoveQueue.QueueUp | Enginegton/source/Move.cpp:281-287 | sifting up restores the heap and keeps the queued moves |
| MoveQueues.MoveQueue.QueueDown | Enginegton/source/Move.cpp:289-300 | sifting down restores the heap and keeps the queued moves |
| Bitboards.PlayerPawnControlSquares | Enginegton/source/Move.cpp:41-51 | the near side's pawn attacks the two diagonal squares one rank up |
| Bitboards.OpponentPawnControlSquares | Enginegton/source/Move.cpp:52-59 | the far side's pawn attacks the two diagonal squares one rank down |
| Bitboards.PlayerPawnPushSquares | Enginegton/source/Move.cpp:61-67 | one square up, or two from the starting rank |
| Bitboards.OpponentPawnPushSquares | Enginegton/source/Move.cpp:68-75 | one square down, or two from the starting rank |
| Bitboards.KingControlSquares | Enginegton/source/Move.cpp:77-92 | the board squares one king step away |
| Bitboards.KingAreaSquares | Enginegton/source/Move.cpp:93-109 | the squares of the king area around a square |
| Bitboards.KnightControlSquares | Enginegton/source/Move.cpp:110-124 | the board squares one knight jump away |
| Bitboards.RookFreeControl | Enginegton/source/Move.cpp:126-137 | the squares on the rook's rank and file, itself excluded |
| Bitboards.BishopFreeControl | Enginegton/source/Move.cpp:138-149 | the squares on the bishop's diagonals, itself excluded |
| Bitboards.RookMask | Enginegton/source/Move.cpp:151-165 | the rook's lines without the edge squares |
| Bitboards.BishopMask | Enginegton/source/Move.cpp:166-179 | the bishop's diagonals without the edge squares |
| Bitboards.RookAttack | Enginegton/source/Move.cpp:181-213 | each ray runs until and including the first blocker |
| Bitboards.BishopAttack | Enginegton/source/Move.cpp:214-246 | each diagonal runs until and including the first blocker |
| Bitboards.RookMaskTrimmed | Enginegton/source/Move.cpp:151-165 | the mask is the free control without its last square on each ray |
| Bitboards.BishopMaskTrimmed | Enginegton/source/Move.cpp:166-179 | the mask is the free control without the board edge |
| Bitboards.RookAttackFree | Enginegton/source/Move.cpp:181-213 | on an empty board the attack is the free control, and it never leaves it |
| Bitboards.BishopAttackFree | Enginegton/source/Move.cpp:214-246 | on an empty board the attack is the free control, and it never leaves it |
| Bitboards.RookAttackShrinks | Enginegton/source/Move.cpp:181-213 | more blockers never widen the attack |
| Bitboards.BishopAttackShrinks | Enginegton/source/Move.cpp:214-246 | more blockers never widen the attack |
| Bitboards.GetIndices | Enginegton/source/Move.cpp:248-261 | the indices are strictly increasing and are exactly the set squares |
| Bitboards.CFile | Enginegton/source/Move.cpp:33 | C++ `% 8` gives a file in -7..7 that differs from the square by a multiple of 8 and has the square's sign |
| Bitboards.CoordsSplit | Enginegton/source/Move.cpp:31-39 | C++ division splits a square into rank and file |
| Bitboards.GetDistance | Enginegton/source/Move.cpp:31-39 | the distance is never negative |
| Bitboards.GetDistanceMetric | Enginegton/source/Move.cpp:31-39 | the distance is symmetric and zero only between equal squares |
| Bitboards.GetDistanceOnBoard | Enginegton/source/Move.cpp:31-39 | on the board the distance is the Manhattan distance, at most 14 |
| Bitboards.RookIndexShiftsCount | Enginegton/include/Move.h:43-52 | the rook table holds, for every square, the size of its rook mask |
| Bitboards.BishopIndexShiftsCount | Enginegton/include/Move.h:54-63 | the bishop table holds, for every square, the size of its bishop mask |
| PieceGroups.MaterialValues | Enginegton/include/PieceGroup.h:21 | pawn 10, knight 30, bishop 35, rook 50, queen 90, king 0, the same for both colours |
| PieceGroups.CornersShifts | Enginegton/source/PieceGroup.cpp:22-34 | the castling masks of each colour are built from its corner and castled squares |
| PieceGroups.CornersSquares | Enginegton/source/PieceGroup.cpp:22-34 | each castling mask holds exactly the rook's corner and castled square, each rook mask its corner |
| PieceGroups.PieceId | Enginegton/source/PieceGroup.cpp:89-93 | -1 on an empty square, otherwise the id stored there |
| PieceGroups.PieceIdMatchesBitboard | Enginegton/source/PieceGroup.cpp:89-93 | a square holds a piece exactly when its bit is set |
| PieceGroups.LoseCornerAsWrittenBreaksRights | Enginegton/source/PieceGroup.cpp:54-57 | as written, removing a rook whose right is gone drives the rights negative or onto the wrong right (see Findings) |
| PieceGroups.LoseCornerClears | Enginegton/source/PieceGroup.cpp:54-57 | the corrected update clears only the leaving rook's right, and only when it was held |
| PieceGroups.LoseCornerAgreesWhenHeld | Enginegton/source/PieceGroup.cpp:78-81 | the corrected update agrees with the source whenever the right was held |
| PieceGroups.WithPieceKeeps | Enginegton/source/PieceGroup.cpp:37-44 | adding a piece keeps the group consistent and its material exact |
| PieceGroups.WithoutPieceKeeps | Enginegton/source/PieceGroup.cpp:46-58 | removing a piece keeps the group consistent (bitboard, king, material, rights between -1 and 3) and exactly drops the square |
| PieceGroups.MovedKeeps | Enginegton/source/PieceGroup.cpp:69-87 | moving a piece keeps material and consistency (rights between -1 and 3); a king move records the square and drops the rights |
| PieceGroups.ShiftedKeeps | Enginegton/source/PieceGroup.cpp:60-67 | shifting a piece keeps material and consistency |
| PieceGroups.PromotedKeeps | Enginegton/source/PieceGroup.cpp:95-100 | promotion as written replaces the id, adjusts `material` by the difference and adds the new piece's non-pawn worth to `piece_material`, keeping the group consistent |
| PieceGroups.PromotedIntendedKeeps | Enginegton/source/PieceGroup.cpp:95-100 | the corrected promotion keeps the group consistent and the non-pawn material exact |
| PieceGroups.PromotedAsWrittenPieceMaterial | Enginegton/source/PieceGroup.cpp:95-100 | as written, the non-pawn material stays exact only when a pawn or king is replaced (see Findings) |
| PieceGroups.PromoteUndoDrifts | Enginegton/source/PieceGroup.cpp:95-100 | as written, promoting and unpromoting inflates the non-pawn material by the promoted piece (see Findings) |
| PieceGroups.PromotedPieceMaterial | Enginegton/source/PieceGroup.cpp:95-100 | the corrected promotion keeps the non-pawn material exact |
| PieceGroups.PromoteUndone | Enginegton/source/PieceGroup.cpp:95-100 | the corrected promotion followed by its reverse restores the group |
| PieceGroups.CastleShortUndone | Enginegton/source/PieceGroup.cpp:102-118 | castling short and undoing it restores the pieces and bitboard |
| PieceGroups.CastleLongUndone | Enginegton/source/PieceGroup.cpp:109-122 | castling long and undoing it restores the pieces and bitboard |
| PieceGroups.MovedBack | Enginegton/source/PieceGroup.cpp:69-87 | moving a piece to an empty square and back restores the group's pieces, bitboard, king square and mask, `material` and `piece_material`; only the rights may differ |
| PieceGroups.RemovedBack | Enginegton/source/PieceGroup.cpp:37-58 | `RemovePiece` then `AddPiece` of the same id on the same square restores every field but the rights |
| PieceGroups.CastleMapsBack | Enginegton/source/PieceGroup.cpp:60-87 | the rook's shift and the king's move, then their reverses in the same order, give the square map back |
| PieceGroups.RookThenKing | Enginegton/source/PieceGroup.cpp:102-113 | after the rook's shift and the king's move the bitboard still matches the squares, the king's square and mask are its new square, and both material sums are unchanged |
| PieceGroups.CastledBack | Enginegton/source/PieceGroup.cpp:60-87 | the rook's shift and the king's move, taken back rook first, restore every field but the rights |
| PieceGroups.CastledShortBack | Enginegton/source/PieceGroup.cpp:102-118 | `CastleShort`, the king's move, `UndoCastleShort` and the king's move back restore every field but the rights |
| PieceGroups.CastledLongBack | Enginegton/source/PieceGroup.cpp:109-122 | the same for `CastleLong` and `UndoCastleLong` |
| PieceGroups.SelectionHas | Enginegton/source/PieceGroup.cpp:9-12 | a square is selected exactly when it holds a piece of the colour, with that piece |
| PieceGroups.Gather | Enginegton/source/PieceGroup.cpp:9-20 | the loop selects the colour's pieces, their bitboard, both material sums and the king |
| PieceGroups.PieceGroup.Empty | Enginegton/include/PieceGroup.h:37 | the default group is empty |
| PieceGroups.PieceGroup.constructor | Enginegton/source/PieceGroup.cpp:5-35 | the new group holds the colour's pieces with matching bitboard, material and masks |
| PieceGroups.PieceGroup.AddPiece | Enginegton/source/PieceGroup.cpp:37-44 | the group becomes `WithPiece` of the old one |
| PieceGroups.PieceGroup.RemovePiece | Enginegton/source/PieceGroup.cpp:46-58 | the group becomes `WithoutPiece` of the old one: a corner rook subtracts its right whenever the rights are positive |
| PieceGroups.PieceGroup.ShiftPiece | Enginegton/source/PieceGroup.cpp:60-67 | the group becomes `Shifted` of the old one |
| PieceGroups.PieceGroup.UpdatePiecePosition | Enginegton/source/PieceGroup.cpp:69-87 | the group becomes `Moved` of the old one: a king move clears the rights, and a corner rook subtracts its right whenever they are positive |
| PieceGroups.PieceGroup.GetPieceID | Enginegton/source/PieceGroup.cpp:89-93 | the id on a square of the current group |
| PieceGroups.PieceGroup.Promote | Enginegton/source/PieceGroup.cpp:95-100 | the group becomes `PromotedAsWritten` of the old one: `piece_material` gains a non-pawn new piece's worth and never loses the replaced piece's |
| PieceGroups.PieceGroup.CastleShort | Enginegton/source/PieceGroup.cpp:102-107 | moves the king's rook to its castled square and toggles both rook keys in the hash |
| PieceGroups.PieceGroup.CastleLong | Enginegton/source/PieceGroup.cpp:109-114 | moves the queen's rook and toggles both rook keys in the hash |
| PieceGroups.PieceGroup.UndoCastleShort | Enginegton/source/PieceGroup.cpp:116-118 | moves the king's rook back |
| PieceGroups.PieceGroup.UndoCastleLong | Enginegton/source/PieceGroup.cpp:120-122 | moves the queen's rook back |
| PieceGroups.PieceGroup.PawnCount | Enginegton/source/PieceGroup.cpp:128-134 | the number of pawns of the group |
| PieceGroups.PieceGroup.KnightCount | Enginegton/source/PieceGroup.cpp:136-142 | the number of knights of the group |
| Engine.FenRead | Enginegton/include/Enginegton.h:27-28 | every letter maps to an id in -1..11, and -1 exactly for `0` |
| Engine.FenReadLetters | Enginegton/include/Enginegton.h:27-28 | white letters map to ids 0..5, black ones to 6..11 |
| Engine.RequestWords | Enginegton/include/Enginegton.h:30 | the engine knows exactly the words get, find, stop and term |
| Engine.CastlingMaskSquares | Enginegton/include/Enginegton.h:79-84 | each castling mask holds exactly the squares between king and rook |
| Engine.FlipMove | Enginegton/source/Enginegton.cpp:157-160 | mirrors both squares through the centre and keeps the rest |
| Engine.FlipMoveInvolution | Enginegton/source/Enginegton.cpp:157-160 | flipping twice restores the move |
| Engine.FlipMoveMirrors | Enginegton/source/Enginegton.cpp:157-160 | a flipped square has rank and file 7 minus the original's |
| Engine.CppRem8 | Enginegton/source/Enginegton.cpp:165-166 | C++ `% 8` truncates: it agrees with the remainder on non-negative values and keeps the sign otherwise |
| Engine.MoveTextDigits | Enginegton/source/Enginegton.cpp:289-292 | a move is written as origin rank and file, destination rank and file, and kind |
| Engine.OrientedWritable | Enginegton/source/Enginegton.cpp:288 | orienting a writable move keeps it writable and keeps its kind |
| Engine.PostTextDigits | Enginegton/source/Enginegton.cpp:162-169 | the posted move is `f/` followed by its five digits |
| Engine.MovesTextBlocks | Enginegton/source/Enginegton.cpp:285-294 | the move list has one five-digit block per move |
| Engine.MovesTextSnoc | Enginegton/source/Enginegton.cpp:285-294 | writing one more move appends exactly its five digits |
| Engine.MovesReplyLayout | Enginegton/source/Enginegton.cpp:285-297 | the reply is `/`, the blocks, a newline and the four flags: check, checkmate, stalemate and insufficient material |
| Engine.LoneKingCannotMate | Enginegton/source/Enginegton.cpp:277-280 | a side with only its king has insufficient material |
| Engine.MajorPieceCanMate | Enginegton/source/Enginegton.cpp:277-280 | a side with a king and a rook, queen or pawn still has mating material |
| Engine.Enginegton.MaterialDrawn | Enginegton/source/Enginegton.cpp:277-280 | the flag is set exactly when neither side can mate: each has only king and two knights, or under 50 material and no pawn |
| Engine.Enginegton.MovesAnswer | Enginegton/source/Enginegton.cpp:277-297 | the reply to a moves request carries the insufficient-material flag of the two groups as its fourth flag |
| Engine.CastleSplit | Enginegton/source/Enginegton.cpp:214-216 | for any integer, the two halves recombine as `w * 4 + b` to it; a value of 0 or more gives b in 0..3, a negative one (C++'s `%` truncates) gives b in -3..0 and w of at most 0 |
| Engine.CastleSplitJoin | Enginegton/source/Enginegton.cpp:215-217 | the castling value splits into two halves that recombine to it |
| Engine.NegativeCastlingSplit | Enginegton/source/Enginegton.cpp:214-225 | the value -8 splits into rights -2 for White and 0 for Black, whose key index is outside `zob_castle` |
| Engine.CastleJoinSplit | Enginegton/source/Enginegton.cpp:225 | joining two halves and splitting gives them back |
| Engine.PromotionIds | Enginegton/source/Enginegton.cpp:628-636 | a promotion gives a non-pawn non-king id of the side, offset from the pawn by the kind |
| Engine.CastleKeyBounds | Enginegton/source/Enginegton.cpp:575 | with rights in -1..3 and tables of their declared sizes, the castle key index is outside `zob_castle` exactly when White's rights are -1 or White has none and Black's are -1; inside, the table's own key is read |
| Engine.EnPassantKeyAsWrittenMisfiles | Enginegton/source/Enginegton.cpp:570 | as written, `% 7` keys the square passed by e2-e4 as file 2, and squares 16 and 23 collide (see Findings) |
| Engine.EnPassantKey | Enginegton/source/Enginegton.cpp:570 | the corrected key is a file 0..7 |
| Engine.EnPassantKeyIsFile | Enginegton/source/Enginegton.cpp:242 | the corrected key of the passed square is the file of the pawn, as the request parser keys it |
| Engine.BoardHashPrefix | Enginegton/source/Enginegton.cpp:185-212 | the board hash depends only on the squares read so far |
| Engine.OccupiedPrefix | Enginegton/source/Enginegton.cpp:185-212 | the occupancy depends only on the squares read so far |
| Engine.OccupiedCells | Enginegton/source/Enginegton.cpp:185-212 | the occupancy has a bit exactly for each occupied square |
| Engine.Cell | Enginegton/source/Enginegton.cpp:185-212 | every square reads as an id in -1..11 |
| Engine.Cells | Enginegton/source/Enginegton.cpp:185-212 | one id per square read, in order |
| Engine.RequestBoard | Enginegton/source/Enginegton.cpp:185-212 | the board read from a request is 64 ids, each the letter of its square |
| Engine.LastMove | Enginegton/source/Enginegton.cpp:234-236 | the last move is four coordinates on the board |
| Engine.EnPassantFile | Enginegton/source/Enginegton.cpp:239-242 | the en-passant key is a file 0..7 |
| Engine.ParseHashIgnoresOrientation | Enginegton/source/Enginegton.cpp:201-205 | the hash of a flipped request read mirrored equals the hash of the same text read upright |
| Engine.ParseOf | Enginegton/source/Enginegton.cpp:171-245 | a parsed request has a turn and orientation of ±1, 64 ids and rights that recombine to the castling field |
| Engine.ParsedOccupancy | Enginegton/source/Enginegton.cpp:171-245 | the parsed occupancy matches the parsed board |
| Engine.PlayedLogs | Enginegton/source/Enginegton.cpp:557-584 | playing a move keeps the old logs as a prefix, adds two capture entries, the two new rights and one hash, switches the turn and keeps the orientation and the occupancy as the union of both groups |
| Engine.UndoneLogs | Enginegton/source/Enginegton.cpp:587-626 | undoing a move drops the last two capture and castling entries and the last hash, takes both rights from the remaining castling log, switches the turn and keeps the en-passant mask |
| Engine.PlayThenUndo | Enginegton/source/Enginegton.cpp:508-626 | playing and undoing a move restores the turn, orientation, logs and castling rights (the two groups: `Engine.PlayThenUndoRestores`) |
| Engine.MoverRoundTrip | Enginegton/source/Enginegton.cpp:587-611 | for a legal move that is not a promotion, `UndoMove` gives the side that moved back its pieces, bitboard, king square and mask and both material sums |
| Engine.OtherRoundTrip | Enginegton/source/Enginegton.cpp:612-618 | the capture-log pair `ProcessMove` pushed names a square on the board and a piece, and putting it back restores every field of the side taken from but the rights |
| Engine.PlayedSides | Enginegton/source/Enginegton.cpp:508-584 | after `ProcessMove` the side that moved and the other side are the moved and the taken groups, and the capture log has the pair appended |
| Engine.UndoneSides | Enginegton/source/Enginegton.cpp:587-626 | when each side's undo step gives its group back but for the rights, so does `UndoMove` |
| Engine.PlayThenUndoRestores | Enginegton/source/Enginegton.cpp:508-626 | after a legal move that is not a promotion, `UndoMove` gives both groups back all fields but the rights |
| Engine.PlayThenUndoState | Enginegton/source/Enginegton.cpp:508-626 | when the castle log ends with both sides' rights and the occupancy is the union of both groups, playing and undoing a legal move that is not a promotion gives the whole state back but the en passant mask |
| Engine.Enginegton.constructor | Enginegton/include/Enginegton.h:125-128 | the new engine has turn 1, orientation 1, no en-passant square, empty logs and empty groups |
| Engine.Enginegton.SidesDiffer | Enginegton/include/Enginegton.h:130-133 | the groups of the two sides are the two distinct groups |
| Engine.Enginegton.Install | Enginegton/source/Enginegton.cpp:220-228 | installs fresh groups and the parsed state |
| Engine.Enginegton.ParseRequest | Enginegton/source/Enginegton.cpp:171-245 | the engine holds what `ParseOf` describes, and keeps its capture and castling logs |
| Engine.Enginegton.ProcessMove | Enginegton/source/Enginegton.cpp:508-585 | the engine state becomes `Played` of the old one, as written (the `% 7` en-passant key, unchecked rook-right subtraction, promotion's `piece_material` drift) |
| Engine.Enginegton.PushLogs | Enginegton/source/Enginegton.cpp:557-584 | appends the logs, sets the en-passant mask and occupancy and switches the turn |
| Engine.Enginegton.UndoMove | Enginegton/source/Enginegton.cpp:587-626 | the engine state becomes `Undone` of the old one, with the pawn restored by `Promote` as written |
| Engine.Enginegton.PopLogs | Enginegton/source/Enginegton.cpp:589-625 | drops the last log entries, recomputes occupancy and switches the turn |
| Engine.PlayOn | Enginegton/source/Enginegton.cpp:508-584 | playing on the two groups yields the `Played` state, as written |
| Engine.UndoOn | Enginegton/source/Enginegton.cpp:587-626 | undoing on the two groups yields the `Undone` state, as written |
| Engine.Ply | Enginegton/source/Enginegton.cpp:508-584 | the group updates, capture, en-passant mask, hash (with the `% 7` key) and rights of one move |
| Engine.PlayGroups | Enginegton/source/Enginegton.cpp:510-561 | moves, captures and promotes on the groups as written, and updates the hash |
| Engine.MoverStep | Enginegton/source/Enginegton.cpp:523-541 | the mover's castling and promotion step, with `Promote` as written |
| Engine.EnPassantStep | Enginegton/source/Enginegton.cpp:542-553 | the en-passant capture on the other side |
| Engine.UndoGroups | Enginegton/source/Enginegton.cpp:593-618 | undoes the move on both groups, unpromoting with `Promote` as written, and restores the captured piece |
| Engine.PromotionPlyDrifts | Enginegton/source/Enginegton.cpp:523-541 | a promotion and the undo after it give the mover back its pieces and material, with `piece_material` raised by the promoted piece's worth (the undo is at lines 593-618, `Promote(in)`/`Unpromote` at 628-636) |
| Engine.RestoreRights | Enginegton/source/Enginegton.cpp:620-623 | restores both sides' rights |
| Engine.NewGroups | Enginegton/source/Enginegton.cpp:220-223 | builds both sides' groups from the board and rights |
| Engine.ReadRequest | Enginegton/source/Enginegton.cpp:171-245 | computes `ParseOf` of the request fields |
| Engine.ReadEnPassant | Enginegton/source/Enginegton.cpp:228-243 | finds whether the last move was a double pawn step and sets the passed square |
| Engine.ReadBoard | Enginegton/source/Enginegton.cpp:185-212 | reads the board, its occupancy and its hash |

## Left out

- The drawing, input handling and window layout of Chessington (pygame), its
  buttons and menus, and `main.py`: not part of the game logic.
- The file mailbox between the two processes. On the Python side this is
  `post_message`, `wait_for_ok`, the `get_gr` polling loop, `get_fr` and the
  searching flag's timing. On the C++ side it is `Run`, `CheckLog`,
  `GetReadOut`, `Post` and `WaitForEmptyLog`. This is file I/O and polling.
  The model treats a request as the text written and a reply as the text
  read.
- The engine's search and evaluation, magic-number tables, the move
  generator and the bit-scan intrinsics: outside the modelled core. Only the
  masks, attacks and counters it builds on are modelled.
- The Zobrist tables are random numbers in the source. The model takes them
  as parameters.
- `Game.get_moves` and `Game.get_draw_kwargs` (Chessington/Game.py:95-99,
  177-178): a wrapper around `get_legal_moves`, and a dictionary for drawing.
- The `depth` attribute written at Chessington/Game.py:144: nothing in the
  core reads it.
- `int()` accepting signs, whitespace or non-ASCII digits. The model reads
  only ASCII digits, which is all the engine writes.
- The dispatch of an engine move to `board.process_move`, `move_made` and
  `MoveGraphic` (Chessington/Chessington.py:370-374): user-interface
  plumbing. The move that reaches it is modelled.
- `trim_tree` leaves the removed positions in `position_lookup`. The model
  keeps them too, as the source does.
- Event.py is not part of this model. The event identifiers are taken from
  their uses.
- The private log that `ParseRequest` writes: file output.
- `PieceGroup::CountMaterial` (Enginegton/source/PieceGroup.cpp:124-126): never
  called.
- The hash at Enginegton/source/Enginegton.cpp:205 takes the key of the
  mirrored square. `Engine.ParseHashIgnoresOrientation` states the outcome
  (both orientations agree); the model keeps the code as written.
- Python object identity (`id()`) is replaced by a counter key.
- Engine.Enginegton.ProcessMove: a side's rights can reach -1 (see
  Findings). The castle key index `(white << 2) + black` is then negative
  when White's rights are -1, or when White has none and Black's are -1;
  the source reads outside `zob_castle` there, which is undefined in C++
  (and before C++20 so is shifting White's -1 left), and the model reads 0. When only Black's rights are -1 and White's are
  positive, the index lands on another pair of rights' key, and the model
  reads that key as the source does (`Engine.CastleKeyBounds`).
- Engine.WellFormedRequest: the castling field must be ASCII digits below
  16, so a negative value is excluded. The application sends one: choice 0
  with White's king off e1 writes "-8" (`App.CastlingChoicesAsWrittenWrong`).
  `stoi` reads it, `Engine.CastleSplit` gives rights -2 and 0
  (`Engine.NegativeCastlingSplit`), and the hash reads `zob_castle[-8]`,
  which is undefined in C++. Rights of -2 also fall outside the -1..3 range
  that the engine's group invariant and every move proof rest on.
- Engine.ParseOf: the same exclusion of a negative castling field, through
  `Engine.WellFormedRequest`.
- Engine.ReadRequest: the same exclusion of a negative castling field,
  through `Engine.WellFormedRequest`.
- Engine.Enginegton.ParseRequest: the same exclusion of a negative castling
  field, through `Engine.WellFormedRequest`.
- Protocol.RequestFields: the castling value is a `nat`, so the "-8" the
  application can write is not covered; its reading stops at the exclusion
  above.
- Engine.PlayThenUndoRestores: promotions are left out, because as written
  their undo does not restore `piece_material` (`Engine.PromotionPlyDrifts`
  and Findings).

## Findings

| source | as written | input that shows it | evidently intended | confidence | as-written member | corrected member |
|---|---|---|---|---|---|---|
| Chessington/Board.py:163-167 | a rook move subtracts the right of the wrong side of the mask when the other right is not held | white rook from a1 with castling 8 (short only), user orientation white: the result is 4 (long only); a rook from h1 with castling 4 gives 0 | a rook leaving its corner removes only its own side's right, if held | high; not executed | Board.RightsAsWrittenGrantsLong | Board.RightsOnlyLost |
| Chessington/Chessington.py:415-425 | the elif chain subtracts at most one right, and subtracts it even when it was not chosen | one king of each colour, White's on e2: the game starts, and choice 0 gives -8 while choice 15 gives 7 | drop each chosen right whose king or rook is not at home | high; not executed | App.CastlingChoicesAsWrittenWrong | App.CastlingChoicesMeaning |
| Enginegton/source/PieceGroup.cpp:54-57 | removing a corner rook subtracts its right without checking that it is held | rights 1 (long only) and the king's rook leaves: -1; rights 2 (short only) and the queen's rook leaves: 1 | clear the right only when it is held | high; not executed | PieceGroups.LoseCornerAsWrittenBreaksRights | PieceGroups.LoseCornerClears |
| Enginegton/source/PieceGroup.cpp:95-100 | `Promote` adds a non-pawn new piece's worth to `piece_material` but never subtracts the replaced piece's | promote a pawn to a queen and back: `piece_material` ends 90 higher | adjust `piece_material` by the non-pawn values replaced | high; not executed | PieceGroups.PromoteUndoDrifts | PieceGroups.PromoteUndone |
| Enginegton/source/Enginegton.cpp:570 | the en-passant hash key is `zob_en_passant[en_p_sqr % 7]` | e2-e4 passes square 44, keyed 2 instead of file 4; squares 16 and 23 share a key | key by the file (`% 8`), as `ParseRequest` does at line 242 | high; not executed | Engine.EnPassantKeyAsWrittenMisfiles | Engine.EnPassantKeyIsFile |
