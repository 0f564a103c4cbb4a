/**
 * Enginegton's `PieceGroup`: the pieces of one colour as a square -> id map,
 * kept in step with a 64-bit board of the squares they stand on, the king's
 * square and mask, two material sums and the side's castling rights
 * (0 none, 1 long only, 2 short only, 3 both).
 *
 * Piece ids: 0..5 are the white pawn, knight, bishop, rook, queen and king,
 * 6..11 the black ones in the same order.
 *
 * Every operation is first given as a function on a `Group` value, which the
 * lemmas reason about; the class `PieceGroup` holds the fields and its methods
 * update them exactly as those functions say.
 */
module PieceGroups {
  import opened Bits

  /** `material_map`, indexed by piece id. */
  const MaterialMap: seq<int> := [10, 30, 35, 50, 90, 0, 10, 30, 35, 50, 90, 0]

  predicate IsId(id: int) { 0 <= id < 12 }
  predicate IsPawn(id: int) { id == 0 || id == 6 }
  predicate IsKnight(id: int) { id == 1 || id == 7 }
  predicate IsRook(id: int) { id == 3 || id == 9 }
  predicate IsKing(id: int) { id == 5 || id == 11 }

  /** Pawn 10, knight 30, bishop 35, rook 50, queen 90, king 0, the same for both colours. */
  lemma MaterialValues(id: int)
    requires 0 <= id < 6
    ensures MaterialMap[id + 6] == MaterialMap[id]
    ensures MaterialMap[id] == if id == 0 then 10 else if id == 1 then 30 else if id == 2 then 35
                               else if id == 3 then 50 else if id == 4 then 90 else 0
  {
  }

  // ---------------------------------------------------------------------
  // Material sums
  // ---------------------------------------------------------------------

  /** What square s adds to a material sum; `pawns` says whether pawns count. */
  function Share(pieces: map<int, int>, s: int, pawns: bool): int {
    if s in pieces && IsId(pieces[s]) && (pawns || !IsPawn(pieces[s])) then MaterialMap[pieces[s]] else 0
  }

  /** The material standing on squares 0 .. upto - 1. */
  function Tally(pieces: map<int, int>, upto: int, pawns: bool): int
    decreases upto
  {
    if upto <= 0 then 0 else Tally(pieces, upto - 1, pawns) + Share(pieces, upto - 1, pawns)
  }

  /** `material`: the worth of every piece of the group. */
  function Material(pieces: map<int, int>): int { Tally(pieces, 64, true) }

  /** `piece_material`: the same sum without the pawns. */
  function PieceMaterial(pieces: map<int, int>): int { Tally(pieces, 64, false) }

  /** Two maps that agree on every square but k have sums that differ by
      what k adds. */
  lemma {:induction false} TallyExcept(p: map<int, int>, q: map<int, int>, k: int, upto: int, pawns: bool)
    requires 0 <= upto <= 64
    requires forall s :: 0 <= s < 64 && s != k ==> Share(p, s, pawns) == Share(q, s, pawns)
    ensures Tally(q, upto, pawns) == Tally(p, upto, pawns) + (if 0 <= k < upto then Share(q, k, pawns) - Share(p, k, pawns) else 0)
    decreases upto
  {
    if upto > 0 {
      TallyExcept(p, q, k, upto - 1, pawns);
    }
  }

  /** Setting square k changes both sums by the difference at k. */
  lemma TallyUpdate(p: map<int, int>, k: int, id: int, pawns: bool)
    requires 0 <= k < 64
    ensures Tally(p[k := id], 64, pawns) == Tally(p, 64, pawns) + Share(p[k := id], k, pawns) - Share(p, k, pawns)
  {
    TallyExcept(p, p[k := id], k, 64, pawns);
  }

  /** Erasing square k takes away what k added. */
  lemma TallyErase(p: map<int, int>, k: int, pawns: bool)
    ensures Tally(p - {k}, 64, pawns) == Tally(p, 64, pawns) - (if 0 <= k < 64 then Share(p, k, pawns) else 0)
  {
    TallyExcept(p, p - {k}, k, 64, pawns);
  }

  /** Moving a piece from one square to an empty one leaves both sums alone. */
  lemma TallyMove(p: map<int, int>, from: int, to: int, pawns: bool)
    requires from in p && 0 <= from < 64 && 0 <= to < 64 && to !in p
    ensures Tally((p - {from})[to := p[from]], 64, pawns) == Tally(p, 64, pawns)
  {
    TallyErase(p, from, pawns);
    TallyUpdate(p - {from}, to, p[from], pawns);
  }

  // ---------------------------------------------------------------------
  // The group as a value
  // ---------------------------------------------------------------------

  datatype Group = Group(
    pieces: map<int, int>,  // `map`: square -> piece id
    bitboard: bv64,         // `group_bitboard`
    kingMask: bv64,         // `king_mask`
    kingSqr: int,           // `king_sqr`
    rights: int,            // `castling_rights`
    material: int,          // `material`
    pieceMaterial: int)     // `piece_material`

  /** The private masks fixed by the constructor. */
  datatype Corners = Corners(shortCastle: bv64, longCastle: bv64, kingsideRook: bv64, queensideRook: bv64)

  /** The hash keys of the rook's squares in castling (`rook_queen_corner`,
      `rook_king_corner`, `rook_castled_short`, `rook_castled_long`). */
  datatype RookKeys = RookKeys(queenCorner: bv64, kingCorner: bv64, castledShort: bv64, castledLong: bv64)

  /** The masks of each side: the rook corners, and the corner with the
      rook's castled square. */
  function CornersOf(colour: int): Corners {
    if colour == 1 then Corners(0xA000_0000_0000_0000, 0x0900_0000_0000_0000, 0x8000_0000_0000_0000, 0x0100_0000_0000_0000)
    else Corners(0xA0, 0x09, 0x80, 0x01)
  }

  /** The literals are `1ULL << 63 | 1ULL << 61` and so on. */
  lemma CornersShifts(colour: int)
    ensures CornersOf(colour) == if colour == 1 then Corners(Join(Bit(63), 61), Join(Bit(56), 59), Bit(63), Bit(56))
      else Corners(Join(Bit(7), 5), Join(Bit(0), 3), Bit(7), Bit(0))
  {
    ToBvValue(63); ToBvValue(61); ToBvValue(56); ToBvValue(59);
    ToBvValue(7); ToBvValue(5); ToBvValue(0); ToBvValue(3);
  }

  /** The castling masks hold exactly the rook's corner and castled square. */
  lemma CornersSquares(colour: int, t: int)
    ensures var c := CornersOf(colour);
      var kr, ks, qr, qs := if colour == 1 then 63 else 7, if colour == 1 then 61 else 5,
                            if colour == 1 then 56 else 0, if colour == 1 then 59 else 3;
      && (Has(c.shortCastle, t) <==> t == kr || t == ks)
      && (Has(c.longCastle, t) <==> t == qr || t == qs)
      && (Has(c.kingsideRook, t) <==> t == kr)
      && (Has(c.queensideRook, t) <==> t == qr)
  {
    CornersShifts(colour);
    if colour == 1 {
      CornerMasks(63, 61, 56, 59, t);
    } else {
      CornerMasks(7, 5, 0, 3, t);
    }
  }

  lemma CornerMasks(kr: int, ks: int, qr: int, qs: int, t: int)
    requires 0 <= kr < 64 && 0 <= ks < 64 && 0 <= qr < 64 && 0 <= qs < 64
    ensures Has(Join(Bit(kr), ks), t) <==> t == kr || t == ks
    ensures Has(Join(Bit(qr), qs), t) <==> t == qr || t == qs
    ensures Has(Bit(kr), t) <==> t == kr
    ensures Has(Bit(qr), t) <==> t == qr
  {
    var k, q := Bit(kr), Bit(qr);
    HasJoin(k, ks, t);
    HasJoin(q, qs, t);
    HasBit(kr, t);
    HasBit(qr, t);
  }

  /** `map[s]`: the id on square s; a missing key reads as a default 0. */
  function At(pieces: map<int, int>, s: int): int {
    if s in pieces then pieces[s] else 0
  }

  /** Every stored id is a piece id. */
  ghost predicate Placed(g: Group) {
    forall s :: s in g.pieces ==> IsId(g.pieces[s])
  }

  /** Bit s of `group_bitboard` is set iff the map has key s. */
  ghost predicate BitsMatch(g: Group) {
    forall s :: Has(g.bitboard, s) <==> s in g.pieces
  }

  /** A king of the group stands on `king_sqr`, and `king_mask` is its bit. */
  ghost predicate KingKnown(g: Group) {
    forall s :: s in g.pieces && IsKing(g.pieces[s]) ==> s == g.kingSqr && 0 <= s < 64 && g.kingMask == Bit(s)
  }

  /** The invariants every operation keeps when its caller's conditions hold.
      The rights start in 0..3; the rook updates as written can take them one
      below, to -1, and no further. */
  ghost predicate Consistent(g: Group) {
    && Placed(g) && BitsMatch(g) && KingKnown(g)
    && g.material == Material(g.pieces)
    && -1 <= g.rights <= 3
  }

  /** `piece_material` agrees with the pieces on the board. */
  ghost predicate PieceMaterialExact(g: Group) {
    g.pieceMaterial == PieceMaterial(g.pieces)
  }

  /** `GetPieceID`: the id on the square, or -1 when the square is not in the map. */
  function PieceId(g: Group, sqr: int): (id: int)
    ensures sqr !in g.pieces ==> id == -1
    ensures sqr in g.pieces ==> id == g.pieces[sqr]
  {
    if sqr in g.pieces then g.pieces[sqr] else -1
  }

  /** On a consistent group the bitboard answers the same question as
      `GetPieceID`. */
  lemma PieceIdMatchesBitboard(g: Group, sqr: int)
    requires Consistent(g)
    ensures PieceId(g, sqr) != -1 <==> Has(g.bitboard, sqr)
    ensures PieceId(g, sqr) != -1 ==> 0 <= sqr < 64 && IsId(PieceId(g, sqr))
  {
    assert Has(g.bitboard, sqr) <==> sqr in g.pieces;
  }

  // ---------------------------------------------------------------------
  // Castling rights
  // ---------------------------------------------------------------------

  predicate CanShort(rights: int) { rights >= 2 }
  predicate CanLong(rights: int) { rights % 2 == 1 }

  /** The rights update as `RemovePiece` and `UpdatePiecePosition` write it:
      a rook leaving (or captured on) the kingside corner takes 2 away, on
      the queenside corner 1, whatever the rights were. */
  function LoseCornerAsWritten(rights: int, mask: bv64, c: Corners): int {
    if mask == c.kingsideRook then rights - 2 else if mask == c.queensideRook then rights - 1 else rights
  }

  /** A white rook that already left h1 once (rights 3 -> 1), returned and
      leaves again takes the rights to -1; a queenside rook leaving while
      only short castling is left (rights 2) turns them into "long only". */
  lemma LoseCornerAsWrittenBreaksRights()
    ensures LoseCornerAsWritten(1, CornersOf(1).kingsideRook, CornersOf(1)) == -1
    ensures LoseCornerAsWritten(2, CornersOf(1).queensideRook, CornersOf(1)) == 1
    ensures !CanLong(2) && CanLong(1)
  {
    var c := CornersOf(1);
    assert c.queensideRook != c.kingsideRook by {
      CornersSquares(1, 56);
    }
  }

  /** The evident intent: clear the bit of the side whose rook corner the
      mask names, and leave the rights alone when that bit is already clear. */
  function LoseCorner(rights: int, mask: bv64, c: Corners): int {
    if mask == c.kingsideRook then (if CanShort(rights) then rights - 2 else rights)
    else if mask == c.queensideRook then (if CanLong(rights) then rights - 1 else rights)
    else rights
  }

  /** The corrected update stays in 0..3, never grants a right, and clears
      exactly the named side. */
  lemma LoseCornerClears(rights: int, mask: bv64, c: Corners)
    requires 0 <= rights <= 3
    ensures var r := LoseCorner(rights, mask, c);
      && 0 <= r <= rights
      && (CanShort(r) <==> CanShort(rights) && mask != c.kingsideRook)
      && (CanLong(r) <==> CanLong(rights) && (mask == c.kingsideRook || mask != c.queensideRook))
  {
  }

  /** Where the side's right is still held, the source's arithmetic is the
      corrected update. */
  lemma LoseCornerAgreesWhenHeld(rights: int, mask: bv64, c: Corners)
    requires 0 <= rights <= 3
    requires mask == c.kingsideRook ==> CanShort(rights)
    requires mask != c.kingsideRook && mask == c.queensideRook ==> CanLong(rights)
    ensures LoseCorner(rights, mask, c) == LoseCornerAsWritten(rights, mask, c)
  {
  }

  // ---------------------------------------------------------------------
  // Operations on the value
  // ---------------------------------------------------------------------

  /** `AddPiece(sqr, id, mask)`. */
  function WithPiece(g: Group, sqr: int, id: int, mask: bv64): Group
    requires IsId(id)
  {
    g.(pieces := g.pieces[sqr := id], bitboard := Union(g.bitboard, mask),
       material := g.material + MaterialMap[id],
       pieceMaterial := if IsPawn(id) then g.pieceMaterial else g.pieceMaterial + MaterialMap[id])
  }

  /** The rights after piece `id` leaves the square of `mask`: only a rook,
      and only while the rights are positive, takes its corner's amount
      away, whether or not that side's right is held. */
  function RookLeaves(id: int, rights: int, mask: bv64, c: Corners): int {
    if IsRook(id) && rights > 0 then LoseCornerAsWritten(rights, mask, c) else rights
  }

  /** `RemovePiece(square, mask)`. */
  function WithoutPiece(g: Group, sqr: int, mask: bv64, c: Corners): Group
    requires IsId(At(g.pieces, sqr))
  {
    var id := At(g.pieces, sqr);
    g.(pieces := g.pieces - {sqr}, bitboard := Flip(g.bitboard, mask),
       material := g.material - MaterialMap[id],
       pieceMaterial := if IsPawn(id) then g.pieceMaterial else g.pieceMaterial - MaterialMap[id],
       rights := RookLeaves(id, g.rights, mask, c))
  }

  /** The private three-argument `UpdatePiecePosition(old_sqr, new_sqr, mask)`, which
      moves the castling rook: one mask toggles both squares. */
  function Shifted(g: Group, from: int, to: int, mask: bv64): Group {
    g.(bitboard := Flip(g.bitboard, mask), pieces := (g.pieces - {from})[to := At(g.pieces, from)])
  }

  /** `UpdatePiecePosition(old_sqr, new_sqr, old_mask, new_mask)`. */
  function Moved(g: Group, from: int, to: int, fromMask: bv64, toMask: bv64, c: Corners): Group {
    var id := At(g.pieces, from);
    var r := RookLeaves(id, g.rights, fromMask, c);
    g.(bitboard := Union(Flip(g.bitboard, fromMask), toMask),
       pieces := (g.pieces - {from})[to := id],
       kingMask := if IsKing(id) then toMask else g.kingMask,
       kingSqr := if IsKing(id) then to else g.kingSqr,
       rights := if IsKing(id) then 0 else r)
  }

  /** `Promote(sqr, new_id)` as written: `piece_material` gains the new
      piece's worth and never loses the replaced one's. */
  function PromotedAsWritten(g: Group, sqr: int, newId: int): Group
    requires IsId(newId) && IsId(At(g.pieces, sqr))
  {
    g.(material := g.material - MaterialMap[At(g.pieces, sqr)] + MaterialMap[newId],
       pieces := g.pieces[sqr := newId],
       pieceMaterial := if IsPawn(newId) then g.pieceMaterial else g.pieceMaterial + MaterialMap[newId])
  }

  /** What a piece adds to `piece_material`: its worth, or 0 for a pawn. */
  function NonPawnWorth(id: int): int
    requires IsId(id)
  {
    if IsPawn(id) then 0 else MaterialMap[id]
  }

  /** `Promote(sqr, new_id)` as intended: both sums trade the replaced
      piece's worth for the new one's. */
  function Promoted(g: Group, sqr: int, newId: int): Group
    requires IsId(newId) && IsId(At(g.pieces, sqr))
  {
    var oldId := At(g.pieces, sqr);
    g.(material := g.material - MaterialMap[oldId] + MaterialMap[newId],
       pieces := g.pieces[sqr := newId],
       pieceMaterial := g.pieceMaterial - NonPawnWorth(oldId) + NonPawnWorth(newId))
  }

  /** `CastleShort`/`CastleLong` (board part): the rook beside the king's origin. */
  function CastledShort(g: Group, c: Corners): Group { Shifted(g, g.kingSqr + 3, g.kingSqr + 1, c.shortCastle) }
  function CastledLong(g: Group, c: Corners): Group { Shifted(g, g.kingSqr - 4, g.kingSqr - 1, c.longCastle) }

  /** `UndoCastleShort`/`UndoCastleLong`, run while the king still stands on its
      castled square. */
  function UncastledShort(g: Group, c: Corners): Group { Shifted(g, g.kingSqr - 1, g.kingSqr + 1, c.shortCastle) }
  function UncastledLong(g: Group, c: Corners): Group { Shifted(g, g.kingSqr + 1, g.kingSqr - 2, c.longCastle) }

  // ---------------------------------------------------------------------
  // What the operations keep
  // ---------------------------------------------------------------------

  /** Adding a piece (other than a king) on an empty square with its own
      bit keeps the group consistent and both sums exact. */
  lemma WithPieceKeeps(g: Group, sqr: int, id: int, mask: bv64)
    requires Consistent(g) && 0 <= sqr < 64 && sqr !in g.pieces && mask == Bit(sqr)
    requires IsId(id) && !IsKing(id)
    ensures Consistent(WithPiece(g, sqr, id, mask))
    ensures PieceMaterialExact(g) ==> PieceMaterialExact(WithPiece(g, sqr, id, mask))
    ensures WithPiece(g, sqr, id, mask).pieces[sqr] == id
  {
    WithPieceBits(g, sqr, id, mask);
    TallyUpdate(g.pieces, sqr, id, true);
    TallyUpdate(g.pieces, sqr, id, false);
  }

  /** Removing an occupied square with its own bit keeps the group
      consistent and both sums exact. */
  lemma WithoutPieceKeeps(g: Group, sqr: int, mask: bv64, c: Corners)
    requires Consistent(g) && sqr in g.pieces && mask == Bit(sqr)
    ensures Consistent(WithoutPiece(g, sqr, mask, c))
    ensures PieceMaterialExact(g) ==> PieceMaterialExact(WithoutPiece(g, sqr, mask, c))
    ensures WithoutPiece(g, sqr, mask, c).pieces == g.pieces - {sqr}
  {
    assert 0 <= sqr < 64 by {
      assert Has(g.bitboard, sqr);
    }
    WithoutPieceBits(g, sqr, mask, c);
    TallyErase(g.pieces, sqr, true);
    TallyErase(g.pieces, sqr, false);
  }

  /** The bit-level halves of the lemmas above and below: each update
      keeps the board's bits in step with the map's keys. */
  lemma WithPieceBits(g: Group, sqr: int, id: int, mask: bv64)
    requires BitsMatch(g) && 0 <= sqr < 64 && mask == Bit(sqr) && IsId(id)
    ensures BitsMatch(WithPiece(g, sqr, id, mask))
  {
    forall t ensures Has(Union(g.bitboard, mask), t) <==> t in g.pieces[sqr := id] {
      HasOr(g.bitboard, mask, t);
      HasBit(sqr, t);
    }
  }

  lemma WithoutPieceBits(g: Group, sqr: int, mask: bv64, c: Corners)
    requires BitsMatch(g) && 0 <= sqr < 64 && sqr in g.pieces && mask == Bit(sqr) && IsId(At(g.pieces, sqr))
    ensures BitsMatch(WithoutPiece(g, sqr, mask, c))
  {
    forall t ensures Has(Flip(g.bitboard, mask), t) <==> t in g.pieces - {sqr} {
      HasXor(g.bitboard, mask, t);
      HasBit(sqr, t);
    }
  }

  lemma MovedBits(g: Group, from: int, to: int, fromMask: bv64, toMask: bv64, c: Corners)
    requires BitsMatch(g) && 0 <= from < 64 && 0 <= to < 64 && from in g.pieces
    requires fromMask == Bit(from) && toMask == Bit(to)
    ensures BitsMatch(Moved(g, from, to, fromMask, toMask, c))
  {
    var mid := Flip(g.bitboard, fromMask);
    forall t ensures Has(Union(mid, toMask), t) <==> t in (g.pieces - {from})[to := g.pieces[from]] {
      HasXor(g.bitboard, fromMask, t);
      HasOr(mid, toMask, t);
      HasBit(from, t);
      HasBit(to, t);
    }
  }

  lemma ShiftedBits(g: Group, from: int, to: int, mask: bv64)
    requires BitsMatch(g) && from in g.pieces && to !in g.pieces && TwoSquares(mask, from, to)
    ensures BitsMatch(Shifted(g, from, to, mask))
  {
    forall t ensures Has(Flip(g.bitboard, mask), t) <==> t in (g.pieces - {from})[to := g.pieces[from]] {
      HasXor(g.bitboard, mask, t);
    }
  }

  /** Moving a piece onto an empty square with the squares' own bits keeps
      the group consistent, the material unchanged, and a moved king known. */
  lemma MovedKeeps(g: Group, from: int, to: int, fromMask: bv64, toMask: bv64, c: Corners)
    requires Consistent(g) && from in g.pieces && 0 <= to < 64 && to !in g.pieces
    requires fromMask == Bit(from) && toMask == Bit(to)
    ensures var r := Moved(g, from, to, fromMask, toMask, c);
      && Consistent(r) && r.material == g.material
      && r.pieces[to] == g.pieces[from] && from !in r.pieces
      && (PieceMaterialExact(g) ==> PieceMaterialExact(r))
      && (IsKing(g.pieces[from]) ==> r.kingSqr == to && r.rights == 0)
  {
    assert 0 <= from < 64 && from != to by {
      assert Has(g.bitboard, from);
    }
    MovedBits(g, from, to, fromMask, toMask, c);
    TallyMove(g.pieces, from, to, true);
    TallyMove(g.pieces, from, to, false);
  }

  /** A mask that toggles exactly two squares. */
  ghost predicate TwoSquares(mask: bv64, a: int, b: int) {
    forall t :: Has(mask, t) <==> t == a || t == b
  }

  /** The rook move of castling (or its undo) keeps the group consistent
      and the material unchanged. */
  lemma ShiftedKeeps(g: Group, from: int, to: int, mask: bv64)
    requires Consistent(g) && from in g.pieces && !IsKing(g.pieces[from])
    requires 0 <= to < 64 && to !in g.pieces && TwoSquares(mask, from, to)
    ensures var r := Shifted(g, from, to, mask);
      && Consistent(r) && r.material == g.material && r.pieces[to] == g.pieces[from] && from !in r.pieces
      && (PieceMaterialExact(g) ==> PieceMaterialExact(r))
  {
    assert 0 <= from < 64 && from != to by {
      assert Has(g.bitboard, from);
    }
    ShiftedBits(g, from, to, mask);
    TallyMove(g.pieces, from, to, true);
    TallyMove(g.pieces, from, to, false);
  }

  /** `Promote` as written keeps the group consistent, replaces only the id
      on the square, and moves `material` by the difference of the two ids;
      `piece_material` only grows, by the new piece's worth. */
  lemma PromotedKeeps(g: Group, sqr: int, newId: int)
    requires Consistent(g) && sqr in g.pieces && IsId(newId) && !IsKing(newId) && !IsKing(g.pieces[sqr])
    ensures var r := PromotedAsWritten(g, sqr, newId);
      && Consistent(r) && r.pieces == g.pieces[sqr := newId]
      && r.material == g.material - MaterialMap[g.pieces[sqr]] + MaterialMap[newId]
      && r.pieceMaterial == g.pieceMaterial + NonPawnWorth(newId)
      && r.bitboard == g.bitboard && r.rights == g.rights && r.kingSqr == g.kingSqr
  {
    assert Has(g.bitboard, sqr);
    TallyUpdate(g.pieces, sqr, newId, true);
  }

  /** The intended `Promote` keeps the group consistent and both sums
      exact. */
  lemma PromotedIntendedKeeps(g: Group, sqr: int, newId: int)
    requires Consistent(g) && sqr in g.pieces && IsId(newId) && !IsKing(newId) && !IsKing(g.pieces[sqr])
    ensures var r := Promoted(g, sqr, newId);
      && Consistent(r) && r.pieces == g.pieces[sqr := newId]
      && r.material == g.material - MaterialMap[g.pieces[sqr]] + MaterialMap[newId]
      && (PieceMaterialExact(g) ==> PieceMaterialExact(r))
  {
    assert Has(g.bitboard, sqr);
    TallyUpdate(g.pieces, sqr, newId, true);
    if PieceMaterialExact(g) {
      PromotedPieceMaterial(g, sqr, newId);
    }
  }

  /** As written, `piece_material` stays exact after `Promote` iff the
      replaced piece added nothing to it, that is, iff it was a pawn (or a
      king). */
  lemma PromotedAsWrittenPieceMaterial(g: Group, sqr: int, newId: int)
    requires Placed(g) && PieceMaterialExact(g) && 0 <= sqr < 64 && IsId(newId) && IsId(At(g.pieces, sqr))
    ensures PieceMaterialExact(PromotedAsWritten(g, sqr, newId)) <==> (IsPawn(At(g.pieces, sqr)) || IsKing(At(g.pieces, sqr)))
  {
    TallyUpdate(g.pieces, sqr, newId, false);
    if sqr !in g.pieces {
      assert Share(g.pieces, sqr, false) == 0;
    }
  }

  /** As written, a promotion and its undo (`Promote` back to the pawn, as
      `UndoMove` does) restore the pieces and `material`, but leave
      `piece_material` raised by the promoted piece's worth: a pawn on e7
      promoted to a queen and taken back leaves it 90 too high. */
  lemma PromoteUndoDrifts(g: Group, sqr: int, newId: int)
    requires sqr in g.pieces && IsPawn(g.pieces[sqr]) && IsId(newId) && !IsPawn(newId)
    ensures var r := PromotedAsWritten(PromotedAsWritten(g, sqr, newId), sqr, g.pieces[sqr]);
      && r.pieces == g.pieces && r.material == g.material
      && r.pieceMaterial == g.pieceMaterial + MaterialMap[newId]
  {
  }

  /** The intended `Promote` keeps `piece_material` exact on every
      occupied square. */
  lemma PromotedPieceMaterial(g: Group, sqr: int, newId: int)
    requires Placed(g) && PieceMaterialExact(g) && sqr in g.pieces && 0 <= sqr < 64 && IsId(newId)
    ensures PieceMaterialExact(Promoted(g, sqr, newId))
  {
    TallyUpdate(g.pieces, sqr, newId, false);
  }

  /** The intended `Promote` undone by promoting back restores the group. */
  lemma PromoteUndone(g: Group, sqr: int, newId: int)
    requires sqr in g.pieces && IsId(g.pieces[sqr]) && IsId(newId)
    ensures Promoted(Promoted(g, sqr, newId), sqr, g.pieces[sqr]) == g
  {
    assert g.pieces[sqr := newId][sqr := g.pieces[sqr]] == g.pieces;
  }

  /** A piece moved onto an empty square and moved back leaves the group as
      it was, but for the rights, which `UndoMove` sets from its log. */
  lemma MovedBack(g: Group, from: int, to: int, c: Corners)
    requires Consistent(g) && from in g.pieces && 0 <= to < 64 && to !in g.pieces
    ensures Moved(Moved(g, from, to, Bit(from), Bit(to), c), to, from, Bit(to), Bit(from), c).(rights := g.rights) == g
  {
    MovedKeeps(g, from, to, Bit(from), Bit(to), c);
    var a := Moved(g, from, to, Bit(from), Bit(to), c);
    MovedKeeps(a, to, from, Bit(to), Bit(from), c);
    var r := Moved(a, to, from, Bit(to), Bit(from), c);
    assert r.pieces == g.pieces;
    SameBitboard(r, g);
  }

  /** The squares of castling and its undo: the rook goes from a to b, the
      king from k to k2; the rook comes back, then the king. */
  lemma CastleMapsBack(p: map<int, int>, a: int, b: int, k: int, k2: int)
    requires a in p && k in p && b !in p && k2 !in p && a != k && b != k2
    ensures var q := ((p - {a})[b := p[a]] - {k})[k2 := p[k]];
      && b in q && q[b] == p[a] && a !in q && k2 in q && k !in q
      && (q - {b})[a := p[a]] == (p - {k})[k2 := p[k]]
      && (((q - {b})[a := p[a]]) - {k2})[k := p[k]] == p
  {
    var q := ((p - {a})[b := p[a]] - {k})[k2 := p[k]];
    var q2 := (q - {b})[a := p[a]];
    assert q2 == (p - {k})[k2 := p[k]];
    assert (q2 - {k2})[k := p[k]] == p;
  }

  /** The first half of castling: the rook goes from a to b with one mask,
      then the king from its square k to k2. */
  lemma RookThenKing(g: Group, a: int, b: int, k2: int, mask: bv64, c: Corners)
    requires BitsMatch(g) && KingKnown(g) && g.kingSqr in g.pieces && IsKing(g.pieces[g.kingSqr])
    requires a in g.pieces && !IsKing(g.pieces[a]) && b !in g.pieces && 0 <= k2 < 64 && k2 !in g.pieces
    requires b != k2 && TwoSquares(mask, a, b)
    ensures var k := g.kingSqr;
      var h := Moved(Shifted(g, a, b, mask), k, k2, Bit(k), Bit(k2), c);
      && BitsMatch(h) && h.pieces == ((g.pieces - {a})[b := g.pieces[a]] - {k})[k2 := g.pieces[k]]
      && h.kingSqr == k2 && h.kingMask == Bit(k2)
      && h.material == g.material && h.pieceMaterial == g.pieceMaterial
  {
    var k := g.kingSqr;
    assert 0 <= k < 64 && k != a by {
      assert Has(g.bitboard, k);
    }
    var s1 := Shifted(g, a, b, mask);
    assert s1.pieces == (g.pieces - {a})[b := g.pieces[a]];
    ShiftedBits(g, a, b, mask);
    MovedBits(s1, k, k2, Bit(k), Bit(k2), c);
  }

  /** Castling and taking it back: the rook goes from a to b and the king
      from k to k2; then the rook comes back, then the king. The group is
      as it was, but for the rights. */
  lemma CastledBack(g: Group, a: int, b: int, k2: int, mask: bv64, c: Corners)
    requires BitsMatch(g) && KingKnown(g) && g.kingSqr in g.pieces && IsKing(g.pieces[g.kingSqr])
    requires a in g.pieces && !IsKing(g.pieces[a]) && b !in g.pieces && 0 <= k2 < 64 && k2 !in g.pieces
    requires b != k2 && TwoSquares(mask, a, b)
    ensures var k := g.kingSqr;
      var h := Moved(Shifted(g, a, b, mask), k, k2, Bit(k), Bit(k2), c);
      Moved(Shifted(h, b, a, mask), k2, k, Bit(k2), Bit(k), c).(rights := g.rights) == g
  {
    var k := g.kingSqr;
    assert 0 <= k < 64 && 0 <= a < 64 by {
      assert Has(g.bitboard, k) && Has(g.bitboard, a);
    }
    RookThenKing(g, a, b, k2, mask, c);
    CastleMapsBack(g.pieces, a, b, k, k2);
    var h := Moved(Shifted(g, a, b, mask), k, k2, Bit(k), Bit(k2), c);
    var s2 := Shifted(h, b, a, mask);
    assert s2.pieces == (h.pieces - {b})[a := g.pieces[a]];
    ShiftedBits(h, b, a, mask);
    var r := Moved(s2, k2, k, Bit(k2), Bit(k), c);
    MovedBits(s2, k2, k, Bit(k2), Bit(k), c);
    assert r.pieces == g.pieces;
    SameBitboard(r, g);
  }

  /** The undo's rook squares, once the king stands two squares from k. */
  lemma UncastledShortAt(h: Group, c: Corners, k: int)
    requires h.kingSqr == k + 2
    ensures UncastledShort(h, c) == Shifted(h, k + 1, k + 3, c.shortCastle)
  {
  }

  lemma UncastledLongAt(h: Group, c: Corners, k: int)
    requires h.kingSqr == k - 2
    ensures UncastledLong(h, c) == Shifted(h, k - 1, k - 4, c.longCastle)
  {
  }

  /** Castling short and taking it back gives the group back, but for the
      rights. */
  lemma CastledShortBack(g: Group, c: Corners)
    requires BitsMatch(g) && KingKnown(g) && g.kingSqr in g.pieces && IsKing(g.pieces[g.kingSqr])
    requires g.kingSqr + 3 in g.pieces && !IsKing(g.pieces[g.kingSqr + 3])
    requires g.kingSqr + 1 !in g.pieces && g.kingSqr + 2 !in g.pieces
    requires TwoSquares(c.shortCastle, g.kingSqr + 3, g.kingSqr + 1)
    ensures var k := g.kingSqr;
      var a := Moved(CastledShort(g, c), k, k + 2, Bit(k), Bit(k + 2), c);
      Moved(UncastledShort(a, c), k + 2, k, Bit(k + 2), Bit(k), c).(rights := g.rights) == g
  {
    var k := g.kingSqr;
    assert k + 3 < 64 by {
      assert Has(g.bitboard, k + 3);
    }
    var s1 := Shifted(g, k + 3, k + 1, c.shortCastle);
    assert CastledShort(g, c) == s1;
    RookThenKing(g, k + 3, k + 1, k + 2, c.shortCastle, c);
    var h := Moved(s1, k, k + 2, Bit(k), Bit(k + 2), c);
    UncastledShortAt(h, c, k);
    CastledBack(g, k + 3, k + 1, k + 2, c.shortCastle, c);
  }

  /** Castling long and taking it back gives the group back, but for the
      rights. */
  lemma CastledLongBack(g: Group, c: Corners)
    requires BitsMatch(g) && KingKnown(g) && g.kingSqr in g.pieces && IsKing(g.pieces[g.kingSqr])
    requires g.kingSqr - 4 in g.pieces && !IsKing(g.pieces[g.kingSqr - 4])
    requires g.kingSqr - 1 !in g.pieces && g.kingSqr - 2 !in g.pieces
    requires TwoSquares(c.longCastle, g.kingSqr - 4, g.kingSqr - 1)
    ensures var k := g.kingSqr;
      var a := Moved(CastledLong(g, c), k, k - 2, Bit(k), Bit(k - 2), c);
      Moved(UncastledLong(a, c), k - 2, k, Bit(k - 2), Bit(k), c).(rights := g.rights) == g
  {
    var k := g.kingSqr;
    assert k - 4 >= 0 by {
      assert Has(g.bitboard, k - 4);
    }
    var s1 := Shifted(g, k - 4, k - 1, c.longCastle);
    assert CastledLong(g, c) == s1;
    RookThenKing(g, k - 4, k - 1, k - 2, c.longCastle, c);
    var h := Moved(s1, k, k - 2, Bit(k), Bit(k - 2), c);
    UncastledLongAt(h, c, k);
    CastledBack(g, k - 4, k - 1, k - 2, c.longCastle, c);
  }

  /** A piece removed and put back on its square with its own id leaves the
      group as it was, but for the rights. */
  lemma RemovedBack(g: Group, sqr: int, c: Corners)
    requires Consistent(g) && sqr in g.pieces
    ensures 0 <= sqr < 64
    ensures WithPiece(WithoutPiece(g, sqr, Bit(sqr), c), sqr, g.pieces[sqr], Bit(sqr)).(rights := g.rights) == g
  {
    assert Has(g.bitboard, sqr);
    WithoutPieceKeeps(g, sqr, Bit(sqr), c);
    var a := WithoutPiece(g, sqr, Bit(sqr), c);
    WithPieceBits(a, sqr, g.pieces[sqr], Bit(sqr));
    var r := WithPiece(a, sqr, g.pieces[sqr], Bit(sqr));
    assert r.pieces == g.pieces;
    SameBitboard(r, g);
  }

  /** Castling short and undoing it once the king has gone two squares to
      the right gives back the rook's square and the bitboard. */
  lemma CastleShortUndone(g: Group, c: Corners)
    requires g.kingSqr + 3 in g.pieces && g.kingSqr + 1 !in g.pieces
    ensures var moved := CastledShort(g, c).(kingSqr := g.kingSqr + 2);
      var back := UncastledShort(moved, c);
      back.pieces == g.pieces && back.bitboard == g.bitboard
  {
    var k := g.kingSqr;
    var moved := CastledShort(g, c).(kingSqr := k + 2);
    var back := UncastledShort(moved, c);
    assert back.pieces == ((g.pieces - {k + 3})[k + 1 := g.pieces[k + 3]] - {k + 1})[k + 3 := g.pieces[k + 3]];
    assert back.pieces == g.pieces;
    XorTwice(g.bitboard, c.shortCastle);
  }

  /** The same for the long side: the rook goes from four squares left of
      the king to one square left, and back once the king stands two
      squares left of its origin. */
  lemma CastleLongUndone(g: Group, c: Corners)
    requires g.kingSqr - 4 in g.pieces && g.kingSqr - 1 !in g.pieces
    ensures var moved := CastledLong(g, c).(kingSqr := g.kingSqr - 2);
      var back := UncastledLong(moved, c);
      back.pieces == g.pieces && back.bitboard == g.bitboard
  {
    var k := g.kingSqr;
    var moved := CastledLong(g, c).(kingSqr := k - 2);
    var back := UncastledLong(moved, c);
    assert back.pieces == ((g.pieces - {k - 4})[k - 1 := g.pieces[k - 4]] - {k - 1})[k - 4 := g.pieces[k - 4]];
    assert back.pieces == g.pieces;
    XorTwice(g.bitboard, c.longCastle);
  }

  /** Two groups whose bitboards both match the same squares have the same bitboard. */
  lemma SameBitboard(g: Group, h: Group)
    requires BitsMatch(g) && BitsMatch(h) && g.pieces.Keys == h.pieces.Keys
    ensures g.bitboard == h.bitboard
  {
    forall s | 0 <= s < 64 ensures Has(g.bitboard, s) <==> Has(h.bitboard, s) {
      assert s in g.pieces <==> s in h.pieces;
    }
    SameSquares(g.bitboard, h.bitboard);
  }

  lemma XorTwice(a: bv64, m: bv64)
    ensures Flip(Flip(a, m), m) == a
  {
  }

  // ---------------------------------------------------------------------
  // Construction
  // ---------------------------------------------------------------------

  /** The constructor's test: ids 0..5 for white (colour 1), above 5 for black (-1). */
  predicate Belongs(id: int, colour: int) {
    (colour == 1 && id > -1 && id < 6) || (colour == -1 && id > 5)
  }

  /** The squares among 0 .. upto - 1 whose id belongs to the colour, met
      in the constructor's order. */
  function Selection(board: seq<int>, colour: int, upto: int): map<int, int>
    requires |board| == 64 && 0 <= upto <= 64
    decreases upto
  {
    if upto == 0 then map[]
    else if Belongs(board[upto - 1], colour) then Selection(board, colour, upto - 1)[upto - 1 := board[upto - 1]]
    else Selection(board, colour, upto - 1)
  }

  /** `Selection` keeps square s, with the board's id, exactly when s is
      below `upto` and its id belongs to the colour. */
  lemma {:induction false} SelectionHas(board: seq<int>, colour: int, upto: int, s: int)
    requires |board| == 64 && 0 <= upto <= 64
    ensures s in Selection(board, colour, upto) <==> 0 <= s < upto && Belongs(board[s], colour)
    ensures s in Selection(board, colour, upto) ==> Selection(board, colour, upto)[s] == board[s]
    decreases upto
  {
    if upto > 0 {
      SelectionHas(board, colour, upto - 1, s);
    }
  }

  /** `king_sqr`/`king_mask` name the last king met so far, or keep their
      defaults when none was met. */
  ghost predicate LastKing(p: map<int, int>, ks: int, km: bv64) {
    && (forall s :: s in p && IsKing(p[s]) ==> s <= ks)
    && ((ks in p && IsKing(p[ks]) && 0 <= ks < 64 && km == Bit(ks)) || ((forall s :: s in p ==> !IsKing(p[s])) && ks == 0 && km == 0))
  }

  /** One king at most, as in any position the engine is sent. */
  ghost predicate OneKing(p: map<int, int>) {
    forall s, t {:trigger IsKing(p[s]), IsKing(p[t])} :: s in p && t in p && IsKing(p[s]) && IsKing(p[t]) ==> s == t
  }

  /** With one king at most, the fields agree with the pieces. */
  ghost predicate Sound(g: Group) {
    OneKing(g.pieces) ==> Consistent(g) && PieceMaterialExact(g)
  }

  /** The constructor's loop over the 64 squares: the pieces of the colour,
      their bits, the king's square and mask, and both sums. */
  method Gather(board: seq<int>, colour: int) returns (p: map<int, int>, bb: bv64, km: bv64, ks: int, mat: int, pm: int)
    requires |board| == 64 && forall i :: 0 <= i < 64 ==> -1 <= board[i] < 12
    ensures p == Selection(board, colour, 64) && forall s :: s in p ==> IsId(p[s])
    ensures forall t :: Has(bb, t) <==> t in p
    ensures mat == Material(p) && pm == PieceMaterial(p)
    ensures LastKing(p, ks, km)
  {
    p := map[];
    bb := 0;
    km := 0;
    ks := 0;
    mat, pm := 0, 0;
    var i := 0;
    while i < 64
      invariant 0 <= i <= 64
      invariant p == Selection(board, colour, i)
      invariant forall s :: s in p ==> 0 <= s < i && IsId(p[s])
      invariant forall t :: Has(bb, t) <==> t in p
      invariant mat == Tally(p, i, true) && pm == Tally(p, i, false)
      invariant LastKing(p, ks, km)
    {
      if Belongs(board[i], colour) {
        var id := board[i];
        TallyGrow(p, i, id, true);
        TallyGrow(p, i, id, false);
        forall t ensures Has(Join(bb, i), t) <==> t in p[i := id] {
          HasJoin(bb, i, t);
        }
        p, bb := p[i := id], Join(bb, i);
        if IsKing(id) {
          km, ks := Bit(i), i;
        }
        mat := mat + MaterialMap[id];
        if !IsPawn(id) {
          pm := pm + MaterialMap[id];
        }
      } else {
        TallyGrow(p, i, 0, true);
        TallyGrow(p, i, 0, false);
      }
      i := i + 1;
    }
  }

  /** Placing a piece on the next square adds exactly its share. */
  lemma TallyGrow(p: map<int, int>, i: int, id: int, pawns: bool)
    requires 0 <= i < 64 && IsId(id) && forall s :: s in p ==> s < i
    ensures Tally(p[i := id], i + 1, pawns) == Tally(p, i, pawns) + (if pawns || !IsPawn(id) then MaterialMap[id] else 0)
    ensures Tally(p, i + 1, pawns) == Tally(p, i, pawns)
  {
    TallyExcept(p, p[i := id], i, i, pawns);
  }

  class PieceGroup {
    var pieces: map<int, int>
    var groupBitboard: bv64
    var kingMask: bv64
    var kingSqr: int
    var castlingRights: int
    var material: int
    var pieceMaterial: int

    const corners: Corners
    /** Hash values toggled when the rook castles: its corner, and its castled square. */
    const rookKingCorner: bv64
    const rookQueenCorner: bv64
    const rookCastledShort: bv64
    const rookCastledLong: bv64

    /** The rook keys the constructor was given. */
    function Keys(): RookKeys {
      RookKeys(rookQueenCorner, rookKingCorner, rookCastledShort, rookCastledLong)
    }

    function State(): Group
      reads this
    {
      Group(pieces, groupBitboard, kingMask, kingSqr, castlingRights, material, pieceMaterial)
    }

    ghost predicate Valid()
      reads this
    {
      Placed(State())
    }

    /** `PieceGroup() = default`: no pieces, every counter 0. The masks the
        source leaves uninitialised are 0 here. */
    constructor Empty()
      ensures Valid() && State() == Group(map[], 0, 0, 0, 0, 0, 0)
      ensures corners == Corners(0, 0, 0, 0)
    {
      pieces, groupBitboard, kingMask, kingSqr := map[], 0, 0, 0;
      castlingRights, material, pieceMaterial := 0, 0, 0;
      corners := Corners(0, 0, 0, 0);
      rookQueenCorner, rookKingCorner, rookCastledShort, rookCastledLong := 0, 0, 0, 0;
    }

    /** The constructor keeps the squares of the colour, sets their bits and
        both sums, and records the king. */
    constructor (board: seq<int>, colour: int, castle: int, rQC: bv64, rKC: bv64, rCS: bv64, rCL: bv64)
      requires |board| == 64 && forall i :: 0 <= i < 64 ==> -1 <= board[i] < 12
      ensures Valid()
      ensures pieces == Selection(board, colour, 64) && BitsMatch(State())
      ensures material == Material(pieces) && pieceMaterial == PieceMaterial(pieces)
      ensures LastKing(pieces, kingSqr, kingMask)
      ensures castlingRights == castle && corners == CornersOf(colour)
      ensures rookQueenCorner == rQC && rookKingCorner == rKC && rookCastledShort == rCS && rookCastledLong == rCL
      ensures 0 <= castle <= 3 ==> Sound(State())
    {
      var p, bb, km, ks, mat, pm := Gather(board, colour);
      pieces, groupBitboard, kingMask, kingSqr := p, bb, km, ks;
      castlingRights, material, pieceMaterial := castle, mat, pm;
      corners := CornersOf(colour);
      rookQueenCorner, rookKingCorner, rookCastledShort, rookCastledLong := rQC, rKC, rCS, rCL;
    }

    method AddPiece(sqr: int, id: int, mask: bv64)
      requires Valid() && IsId(id)
      modifies this
      ensures Valid() && State() == WithPiece(old(State()), sqr, id, mask)
    {
      var worth := MaterialMap[id];
      pieces, groupBitboard, material := pieces[sqr := id], Union(groupBitboard, mask), material + worth;
      if !IsPawn(id) {
        pieceMaterial := pieceMaterial + worth;
      }
    }

    method RemovePiece(square: int, mask: bv64)
      requires Valid()
      modifies this
      ensures Valid() && State() == WithoutPiece(old(State()), square, mask, corners)
    {
      var id := At(pieces, square);
      var worth := MaterialMap[id];
      groupBitboard, pieces, material := Flip(groupBitboard, mask), pieces - {square}, material - worth;
      if !IsPawn(id) {
        pieceMaterial := pieceMaterial - worth;
      }
      castlingRights := RookLeaves(id, castlingRights, mask, corners);
    }

    /** The private three-argument `UpdatePiecePosition`. */
    method ShiftPiece(oldSqr: int, newSqr: int, mask: bv64)
      requires Valid()
      modifies this
      ensures Valid() && State() == Shifted(old(State()), oldSqr, newSqr, mask)
    {
      var id := At(pieces, oldSqr);
      groupBitboard, pieces := Flip(groupBitboard, mask), (pieces - {oldSqr})[newSqr := id];
    }

    /** The public four-argument `UpdatePiecePosition`. */
    method UpdatePiecePosition(oldSqr: int, newSqr: int, oldMask: bv64, newMask: bv64)
      requires Valid()
      modifies this
      ensures Valid() && State() == Moved(old(State()), oldSqr, newSqr, oldMask, newMask, corners)
    {
      var id := At(pieces, oldSqr);
      groupBitboard, pieces := Union(Flip(groupBitboard, oldMask), newMask), (pieces - {oldSqr})[newSqr := id];
      var rights := RookLeaves(id, castlingRights, oldMask, corners);
      if IsKing(id) {
        kingMask, kingSqr, castlingRights := newMask, newSqr, 0;
      } else {
        castlingRights := rights;
      }
    }

    function GetPieceID(sqr: int): (id: int)
      reads this
      ensures id == PieceId(State(), sqr)
    {
      if sqr in pieces then pieces[sqr] else -1
    }

    method Promote(sqr: int, newId: int)
      requires Valid() && IsId(newId)
      modifies this
      ensures Valid() && State() == PromotedAsWritten(old(State()), sqr, newId)
    {
      var oldId := At(pieces, sqr);
      material, pieces := material - MaterialMap[oldId] + MaterialMap[newId], pieces[sqr := newId];
      if !IsPawn(newId) {
        pieceMaterial := pieceMaterial + MaterialMap[newId];
      }
    }

    /** `CastleShort(hash)`: the rook goes beside the king, and the hash
        loses the rook's corner and gains its castled square. */
    method CastleShort(hash: bv64) returns (h: bv64)
      requires Valid()
      modifies this
      ensures Valid() && State() == CastledShort(old(State()), corners)
      ensures h == Flip(Flip(hash, rookKingCorner), rookCastledShort)
    {
      ShiftPiece(kingSqr + 3, kingSqr + 1, corners.shortCastle);
      h := Flip(hash, rookKingCorner);
      h := Flip(h, rookCastledShort);
    }

    method CastleLong(hash: bv64) returns (h: bv64)
      requires Valid()
      modifies this
      ensures Valid() && State() == CastledLong(old(State()), corners)
      ensures h == Flip(Flip(hash, rookQueenCorner), rookCastledLong)
    {
      ShiftPiece(kingSqr - 4, kingSqr - 1, corners.longCastle);
      h := Flip(hash, rookQueenCorner);
      h := Flip(h, rookCastledLong);
    }

    method UndoCastleShort()
      requires Valid()
      modifies this
      ensures Valid() && State() == UncastledShort(old(State()), corners)
    {
      ShiftPiece(kingSqr - 1, kingSqr + 1, corners.shortCastle);
    }

    method UndoCastleLong()
      requires Valid()
      modifies this
      ensures Valid() && State() == UncastledLong(old(State()), corners)
    {
      ShiftPiece(kingSqr + 1, kingSqr - 2, corners.longCastle);
    }

    /** `PawnCount`: the number of squares holding id 0 or 6. */
    method PawnCount() returns (c: int)
      ensures c == |Holding(pieces, pieces.Keys, 0, 6)|
    {
      c := 0;
      var left, done := pieces.Keys, {};
      while left != {}
        invariant left + done == pieces.Keys && left !! done
        invariant c == |Holding(pieces, done, 0, 6)|
        decreases |left|
      {
        SomeKey(left);
        var s :| s in left;
        HoldingStep(pieces, done, s, 0, 6);
        if pieces[s] == 0 || pieces[s] == 6 {
          c := c + 1;
        }
        left, done := left - {s}, done + {s};
      }
    }

    /** `KnightCount`: the number of squares holding id 1 or 7. */
    method KnightCount() returns (c: int)
      ensures c == |Holding(pieces, pieces.Keys, 1, 7)|
    {
      c := 0;
      var left, done := pieces.Keys, {};
      while left != {}
        invariant left + done == pieces.Keys && left !! done
        invariant c == |Holding(pieces, done, 1, 7)|
        decreases |left|
      {
        SomeKey(left);
        var s :| s in left;
        HoldingStep(pieces, done, s, 1, 7);
        if pieces[s] == 1 || pieces[s] == 7 {
          c := c + 1;
        }
        left, done := left - {s}, done + {s};
      }
    }
  }

  /** A set that is not empty has an element to visit next. */
  lemma SomeKey(left: set<int>)
    requires left != {}
    ensures exists s :: s in left
  {
    if forall s :: s !in left {
      assert false;
    }
  }

  /** The squares among `keys` that hold id a or id b. */
  function Holding(p: map<int, int>, keys: set<int>, a: int, b: int): set<int> {
    set t | t in keys && t in p && (p[t] == a || p[t] == b)
  }

  /** The pawns are the squares holding 0 or 6, the knights those holding 1 or 7. */
  lemma HoldingKinds(p: map<int, int>, s: int)
    ensures s in Holding(p, p.Keys, 0, 6) <==> s in p && IsPawn(p[s])
    ensures s in Holding(p, p.Keys, 1, 7) <==> s in p && IsKnight(p[s])
  {
  }

  /** Visiting one more key adds it to the counted squares exactly when
      it holds one of the two ids. */
  lemma HoldingStep(p: map<int, int>, done: set<int>, s: int, a: int, b: int)
    requires s in p && s !in done
    ensures |Holding(p, done + {s}, a, b)| == |Holding(p, done, a, b)| + (if p[s] == a || p[s] == b then 1 else 0)
  {
    if p[s] == a || p[s] == b {
      assert Holding(p, done + {s}, a, b) == Holding(p, done, a, b) + {s};
    } else {
      assert Holding(p, done + {s}, a, b) == Holding(p, done, a, b);
    }
  }
}
