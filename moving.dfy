// Move application of chess/Board.h: `move<C>`, `promote<C>`,
// `moveHelper<C>` and `move(uciMove)`, as functions from the boards (and
// the side to move) to the outcome. The class in board.dfy performs the
// same updates in place and is proved equal to these functions.
module Moving {
  import opened Bits
  import opened Pieces
  import opened Files
  import opened Ranks
  import opened Tables
  import opened Position
  import opened Placement

  /** Whether a move was accepted, and the boards afterwards. */
  datatype Outcome = Outcome(accepted: bool, boards: Boards)

  /** `m_bitboards[k] ^= mask`. */
  function Toggle(bb: Boards, k: nat, mask: bv64): (t: Boards)
    requires k < 15
    ensures forall j | 0 <= j < 15 && j != k :: t[j] == bb[j]
  {
    bb[k := bb[k] ^ mask]
  }

  /** The five updates of an accepted `move<C>`, in the order of the source:
      the mover's board and the mover's colour toggle both squares, the empty
      board toggles the from-square, the board of whatever stood on the
      to-square toggles it, and, when that was a piece, so does the other
      colour's board. */
  function Applied(bb: Boards, c: Color, fromPiece: Piece, toPiece: Piece, from: bv64, to: bv64): Boards
  {
    var moved := Toggle(bb, PieceValue(fromPiece), from | to);
    var coloured := Toggle(moved, ColorValue(c), from | to);
    var vacated := Toggle(coloured, PieceValue(None), from);
    var taken := Toggle(vacated, PieceValue(toPiece), to);
    if toPiece != None then Toggle(taken, ColorValue(Opposite(c)), to) else taken
  }

  /** `move<C>(fromFile, fromRank, fromSquare, fromPiece, toFile, toRank)`:
      rejected, with the boards untouched, unless the to-square is among the
      moves `moves(fromPiece, …)` generates; otherwise the updates of
      `Applied`. */
  function MovePiece(bb: Boards, c: Color, ff: Coord, fr: Coord, fromPiece: Piece, tf: Coord, tr: Coord): Outcome
  {
    var to := Square(tf, tr);
    if Moves(bb, fromPiece, ff, fr) & to == 0 then Outcome(false, bb)
    else Outcome(true, Applied(bb, c, fromPiece, PieceAt(bb, to), Square(ff, fr), to))
  }

  // ---------------------------------------------------------------------
  // Bit-level effect of the updates.

  /** The toggled slot. */
  lemma ToggleHit(bb: Boards, j: nat, mask: bv64, k: nat)
    requires j < 15 && k == j
    ensures Toggle(bb, j, mask)[k] == bb[k] ^ mask
  {
  }

  /** Toggling a slot at the bit level. */
  lemma XorSlotBit(bb: Boards, k: nat, mask: bv64, i: bv8)
    requires k < 15 && i < 64
    ensures Bit(bb[k] ^ mask, i) <==> Bit(bb[k], i) != Bit(mask, i)
  {
    BitXor(bb[k], mask, i);
  }

  /** One toggle at the bit level. */
  lemma ToggleBit(bb: Boards, j: nat, mask: bv64, k: nat, i: bv8)
    requires j < 15 && k < 15 && i < 64
    ensures Bit(Toggle(bb, j, mask)[k], i) <==> Bit(bb[k], i) != (k == j && Bit(mask, i))
  {
    if k == j {
      ToggleHit(bb, j, mask, k);
      XorSlotBit(bb, k, mask, i);
    }
  }

  /** Two toggles at the bit level. */
  lemma ToggleTwiceBit(bb: Boards, a: nat, m1: bv64, b: nat, m2: bv64, k: nat, i: bv8)
    requires a < 15 && b < 15 && k < 15 && i < 64
    ensures Bit(Toggle(Toggle(bb, a, m1), b, m2)[k], i) <==>
      (Bit(bb[k], i) != (k == a && Bit(m1, i))) != (k == b && Bit(m2, i))
  {
    ToggleBit(bb, a, m1, k, i);
    ToggleBit(Toggle(bb, a, m1), b, m2, k, i);
  }

  /** Three toggles at the bit level. */
  lemma ToggleThriceBit(bb: Boards, a: nat, m1: bv64, b: nat, m2: bv64, c: nat, m3: bv64, k: nat, i: bv8)
    requires a < 15 && b < 15 && c < 15 && k < 15 && i < 64
    ensures Bit(Toggle(Toggle(Toggle(bb, a, m1), b, m2), c, m3)[k], i) <==>
      ((Bit(bb[k], i) != (k == a && Bit(m1, i))) != (k == b && Bit(m2, i))) != (k == c && Bit(m3, i))
  {
    ToggleTwiceBit(bb, a, m1, b, m2, k, i);
    ToggleBit(Toggle(Toggle(bb, a, m1), b, m2), c, m3, k, i);
  }

  /** Five toggles at the bit level. */
  lemma ToggleFiveBit(bb: Boards, a: nat, m1: bv64, b: nat, m2: bv64, c: nat, m3: bv64, d: nat, m4: bv64, e: nat, m5: bv64, k: nat, i: bv8)
    requires a < 15 && b < 15 && c < 15 && d < 15 && e < 15 && k < 15 && i < 64
    ensures Bit(Toggle(Toggle(Toggle(Toggle(Toggle(bb, a, m1), b, m2), c, m3), d, m4), e, m5)[k], i) <==>
      ((((Bit(bb[k], i) != (k == a && Bit(m1, i))) != (k == b && Bit(m2, i)))
        != (k == c && Bit(m3, i))) != (k == d && Bit(m4, i))) != (k == e && Bit(m5, i))
  {
    ToggleThriceBit(bb, a, m1, b, m2, c, m3, k, i);
    ToggleTwiceBit(Toggle(Toggle(Toggle(bb, a, m1), b, m2), c, m3), d, m4, e, m5, k, i);
  }

  /** Four toggles at the bit level. */
  lemma ToggleFourBit(bb: Boards, a: nat, m1: bv64, b: nat, m2: bv64, c: nat, m3: bv64, d: nat, m4: bv64, k: nat, i: bv8)
    requires a < 15 && b < 15 && c < 15 && d < 15 && k < 15 && i < 64
    ensures Bit(Toggle(Toggle(Toggle(Toggle(bb, a, m1), b, m2), c, m3), d, m4)[k], i) <==>
      (((Bit(bb[k], i) != (k == a && Bit(m1, i))) != (k == b && Bit(m2, i)))
        != (k == c && Bit(m3, i))) != (k == d && Bit(m4, i))
  {
    ToggleThriceBit(bb, a, m1, b, m2, c, m3, k, i);
    ToggleBit(Toggle(Toggle(Toggle(bb, a, m1), b, m2), c, m3), d, m4, k, i);
  }

  /** Bit `i` of slot `k` after a capture: flipped by each of the five
      toggles that names both. */
  lemma CaptureBit(bb: Boards, c: Color, fromPiece: Piece, toPiece: Piece, from: bv64, to: bv64, k: nat, i: bv8)
    requires k < 15 && i < 64 && toPiece != None
    ensures Bit(Applied(bb, c, fromPiece, toPiece, from, to)[k], i) <==>
      ((((Bit(bb[k], i) != (k == PieceValue(fromPiece) && Bit(from | to, i))) != (k == ColorValue(c) && Bit(from | to, i)))
        != (k == PieceValue(None) && Bit(from, i))) != (k == PieceValue(toPiece) && Bit(to, i)))
        != (k == ColorValue(Opposite(c)) && Bit(to, i))
  {
    ToggleFiveBit(bb, PieceValue(fromPiece), from | to, ColorValue(c), from | to, PieceValue(None), from,
      PieceValue(toPiece), to, ColorValue(Opposite(c)), to, k, i);
  }

  /** Bit `i` of slot `k` after a move onto an empty square: flipped by each
      of the four toggles that names both. */
  lemma QuietBit(bb: Boards, c: Color, fromPiece: Piece, from: bv64, to: bv64, k: nat, i: bv8)
    requires k < 15 && i < 64
    ensures Bit(Applied(bb, c, fromPiece, None, from, to)[k], i) <==>
      (((Bit(bb[k], i) != (k == PieceValue(fromPiece) && Bit(from | to, i))) != (k == ColorValue(c) && Bit(from | to, i)))
        != (k == PieceValue(None) && Bit(from, i))) != (k == PieceValue(None) && Bit(to, i))
  {
    ToggleFourBit(bb, PieceValue(fromPiece), from | to, ColorValue(c), from | to, PieceValue(None), from,
      PieceValue(None), to, k, i);
  }

  // ---------------------------------------------------------------------
  // An accepted move on a placement.

  /** The placement after the piece on square `s` moves to square `t`,
      replacing whatever stood there. */
  function Relocated(cs: Squares, s: bv8, t: bv8): Squares
    requires s < 64 && t < 64
  {
    cs[s := None][t := cs[s]]
  }

  /** What each square holds after a relocation. */
  lemma RelocatedAt(cs: Squares, s: bv8, t: bv8, i: bv8)
    requires s < 64 && t < 64 && i < 64
    ensures Relocated(cs, s, t)[i] == if i == t then cs[s] else if i == s then None else cs[i]
  {
    SameSquare(i, s);
    SameSquare(i, t);
  }

  /** The slot memberships of one square before and after a capture, as
      truth values: `atFrom`/`atTo` say whether it is the from- or
      to-square, `both` whether it is either. */
  lemma CaptureSlots(c: Color, fromPiece: Piece, toPiece: Piece, k: nat, here: Piece, after: Piece, both: bool, atFrom: bool, atTo: bool)
    requires fromPiece != None && ColorOf(fromPiece) == c && toPiece != None && ColorOf(toPiece) != c
    requires both == (atFrom || atTo) && !(atFrom && atTo)
    requires atFrom ==> here == fromPiece && after == None
    requires atTo ==> here == toPiece && after == fromPiece
    requires !atFrom && !atTo ==> after == here
    ensures ((((InSlot(here, k) != (k == PieceValue(fromPiece) && both)) != (k == ColorValue(c) && both))
        != (k == PieceValue(None) && atFrom)) != (k == PieceValue(toPiece) && atTo))
        != (k == ColorValue(Opposite(c)) && atTo)
      <==> InSlot(after, k)
  {
    ValuesDistinct(fromPiece, toPiece, c, Opposite(c));
    ValuesDistinct(None, toPiece, c, Opposite(c));
    ValuesDistinct(None, fromPiece, c, Opposite(c));
  }

  /** The slot memberships of one square before and after a move onto an
      empty square. */
  lemma QuietSlots(c: Color, fromPiece: Piece, k: nat, here: Piece, after: Piece, both: bool, atFrom: bool, atTo: bool)
    requires fromPiece != None && ColorOf(fromPiece) == c
    requires both == (atFrom || atTo) && !(atFrom && atTo)
    requires atFrom ==> here == fromPiece && after == None
    requires atTo ==> here == None && after == fromPiece
    requires !atFrom && !atTo ==> after == here
    ensures (((InSlot(here, k) != (k == PieceValue(fromPiece) && both)) != (k == ColorValue(c) && both))
        != (k == PieceValue(None) && atFrom)) != (k == PieceValue(None) && atTo)
      <==> InSlot(after, k)
  {
    ValuesDistinct(fromPiece, None, c, Opposite(c));
  }

  /** `m` is the board of square `s` alone. */
  ghost predicate SquareMask(m: bv64, s: bv8)
    requires s < 64
  {
    forall i: bv8 | i < 64 :: Bit(m, i) <==> i == s
  }

  /** `square(f, r)` is the board of square (f, r) alone. */
  lemma SquareIsMask(f: Coord, r: Coord)
    ensures SquareMask(Square(f, r), Index(f, r))
  {
    forall i: bv8 | i < 64 ensures Bit(Square(f, r), i) <==> i == Index(f, r) {
      BitSq(Index(f, r), i);
    }
  }

  /** One bit of one slot after a capture by a piece of the side to move,
      from square `s` to square `t`, on a placement's boards: it holds
      exactly when the relocated placement puts square `i` on slot `k`. */
  lemma CapturePlaceBit(cs: Squares, c: Color, s: bv8, t: bv8, from: bv64, to: bv64, k: nat, i: bv8)
    requires s < 64 && t < 64 && s != t && k < 15 && i < 64
    requires cs[s] != None && ColorOf(cs[s]) == c
    requires cs[t] != None && ColorOf(cs[t]) != c
    requires Bit(from, i) <==> i == s
    requires Bit(to, i) <==> i == t
    requires Bit(from | to, i) <==> i == s || i == t
    ensures Bit(Applied(Place(cs), c, cs[s], cs[t], from, to)[k], i) <==> InSlot(Relocated(cs, s, t)[i], k)
  {
    PlaceBit(cs, k, i);
    RelocatedAt(cs, s, t, i);
    CaptureBit(Place(cs), c, cs[s], cs[t], from, to, k, i);
    CaptureSlots(c, cs[s], cs[t], k, cs[i], Relocated(cs, s, t)[i], Bit(from | to, i), Bit(from, i), Bit(to, i));
  }

  /** The same for a move onto an empty square. */
  lemma QuietPlaceBit(cs: Squares, c: Color, s: bv8, t: bv8, from: bv64, to: bv64, k: nat, i: bv8)
    requires s < 64 && t < 64 && s != t && k < 15 && i < 64
    requires cs[s] != None && ColorOf(cs[s]) == c && cs[t] == None
    requires Bit(from, i) <==> i == s
    requires Bit(to, i) <==> i == t
    requires Bit(from | to, i) <==> i == s || i == t
    ensures Bit(Applied(Place(cs), c, cs[s], cs[t], from, to)[k], i) <==> InSlot(Relocated(cs, s, t)[i], k)
  {
    PlaceBit(cs, k, i);
    RelocatedAt(cs, s, t, i);
    QuietBit(Place(cs), c, cs[s], from, to, k, i);
    QuietSlots(c, cs[s], k, cs[i], Relocated(cs, s, t)[i], Bit(from | to, i), Bit(from, i), Bit(to, i));
  }

  /** One slot after such a move. */
  lemma AppliedPlaceSlot(cs: Squares, c: Color, s: bv8, t: bv8, from: bv64, to: bv64, k: nat)
    requires s < 64 && t < 64 && s != t && k < 15
    requires cs[s] != None && ColorOf(cs[s]) == c
    requires cs[t] == None || ColorOf(cs[t]) != c
    requires SquareMask(from, s) && SquareMask(to, t)
    ensures Applied(Place(cs), c, cs[s], cs[t], from, to)[k] == Place(Relocated(cs, s, t))[k]
  {
    forall i: bv8 | i < 64
      ensures Bit(Applied(Place(cs), c, cs[s], cs[t], from, to)[k], i) == Bit(Place(Relocated(cs, s, t))[k], i)
    {
      BitOr(from, to, i);
      if cs[t] != None {
        CapturePlaceBit(cs, c, s, t, from, to, k, i);
      } else {
        QuietPlaceBit(cs, c, s, t, from, to, k, i);
      }
      PlaceBit(Relocated(cs, s, t), k, i);
    }
    BitsEqual(Applied(Place(cs), c, cs[s], cs[t], from, to)[k], Place(Relocated(cs, s, t))[k]);
  }

  /** The five updates of `move<C>`, applied to the boards of a placement
      for a piece of the side to move going from square `s` to a different
      square `t` that holds no piece of that side, give the boards of the
      placement with the piece moved and anything on `t` removed. */
  lemma AppliedPlace(cs: Squares, c: Color, s: bv8, t: bv8, from: bv64, to: bv64)
    requires s < 64 && t < 64 && s != t
    requires cs[s] != None && ColorOf(cs[s]) == c
    requires cs[t] == None || ColorOf(cs[t]) != c
    requires SquareMask(from, s) && SquareMask(to, t)
    ensures Applied(Place(cs), c, cs[s], cs[t], from, to) == Place(Relocated(cs, s, t))
  {
    forall k | 0 <= k < 15
      ensures Applied(Place(cs), c, cs[s], cs[t], from, to)[k] == Place(Relocated(cs, s, t))[k]
    {
      AppliedPlaceSlot(cs, c, s, t, from, to, k);
    }
  }

  /** The to-square of an accepted move holds no piece of the mover's
      colour and is not the from-square. */
  lemma TargetOpen(cs: Squares, p: Piece, ff: Coord, fr: Coord, tf: Coord, tr: Coord)
    requires p != None && Bit(Moves(Place(cs), p, ff, fr), Index(tf, tr))
    ensures Index(tf, tr) != Index(ff, fr)
    ensures cs[Index(tf, tr)] == None || ColorOf(cs[Index(tf, tr)]) != ColorOf(p)
  {
    var legal := Moves(Place(cs), p, ff, fr);
    var own := Occupancy(Place(cs), ColorOf(p));
    PlacePartitioned(cs);
    MovesAvoidOrigin(Place(cs), p, ff, fr);
    MovesAvoidOwnColour(Place(cs), p, ff, fr);
    PlaceBoards(cs, Index(tf, tr));
    BitAnd(legal, own, Index(tf, tr));
    BitZero(Index(tf, tr));
  }

  /** `move<C>` on the boards of a placement, for a piece of the side to
      move (as `moveHelper` passes it, read with `piece`): accepted exactly
      when the to-square is among the generated moves; a rejected move
      changes no board, and an accepted one leaves the boards of the
      placement with the piece relocated and anything it captured gone. */
  lemma MovePieceOnPlacement(cs: Squares, c: Color, ff: Coord, fr: Coord, tf: Coord, tr: Coord)
    requires cs[Index(ff, fr)] != None && ColorOf(cs[Index(ff, fr)]) == c
    ensures MovePiece(Place(cs), c, ff, fr, cs[Index(ff, fr)], tf, tr).accepted <==>
      Bit(Moves(Place(cs), cs[Index(ff, fr)], ff, fr), Index(tf, tr))
    ensures !MovePiece(Place(cs), c, ff, fr, cs[Index(ff, fr)], tf, tr).accepted ==>
      MovePiece(Place(cs), c, ff, fr, cs[Index(ff, fr)], tf, tr).boards == Place(cs)
    ensures MovePiece(Place(cs), c, ff, fr, cs[Index(ff, fr)], tf, tr).accepted ==>
      MovePiece(Place(cs), c, ff, fr, cs[Index(ff, fr)], tf, tr).boards == Place(Relocated(cs, Index(ff, fr), Index(tf, tr)))
  {
    var s, t := Index(ff, fr), Index(tf, tr);
    var legal := Moves(Place(cs), cs[s], ff, fr);
    MaskSq(legal, t);
    if Bit(legal, t) {
      TargetOpen(cs, cs[s], ff, fr, tf, tr);
      PieceAtPlace(cs, t);
      SquareIsMask(ff, fr);
      SquareIsMask(tf, tr);
      AppliedPlace(cs, c, s, t, Square(ff, fr), Square(tf, tr));
    }
  }
}
