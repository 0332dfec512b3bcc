// The fifteen bitboards of a well-formed position are determined by the
// piece on each square. This module builds the boards from such a
// placement, shows that `piece` reads the placement back, and names the
// boards that arise this way; the move and FEN theorems are stated over it.
module Placement {
  import opened Bits
  import opened Pieces
  import opened Position

  /** The piece on each square, indexed by bit number (8 * rank + 7 - file). */
  type Squares = s: seq<Piece> | |s| == 64 witness seq(64, _ => None)

  /** The board slots a square holding `p` is set on: the board of `p`
      (slot 7 for an empty square) and, for a piece, its colour's board. */
  predicate InSlot(p: Piece, k: nat)
  {
    k == PieceValue(p) || (p != None && k == ColorValue(ColorOf(p)))
  }

  /** The board of slot `k` over the squares below `n`. */
  function SlotBoard(cs: Squares, k: nat, n: bv8): bv64
    requires n <= 64
  {
    if n == 0 then 0
    else if InSlot(cs[n - 1], k) then SlotBoard(cs, k, n - 1) | Sq(n - 1)
    else SlotBoard(cs, k, n - 1)
  }

  /** Adding square `n - 1` to the slot board of the squares below it. */
  lemma SlotBoardStep(cs: Squares, k: nat, n: bv8, i: bv8)
    requires 0 < n <= 64 && i < 64
    ensures Bit(SlotBoard(cs, k, n), i) <==>
      Bit(SlotBoard(cs, k, n - 1), i) || (InSlot(cs[n - 1], k) && i == n - 1)
  {
    BitOrSqIf(SlotBoard(cs, k, n), SlotBoard(cs, k, n - 1), InSlot(cs[n - 1], k), n - 1, i);
  }

  /** Bit `i` of a slot board is set exactly when square `i` belongs on the
      slot. */
  lemma {:induction false} SlotBoardBit(cs: Squares, k: nat, n: bv8, i: bv8)
    requires n <= 64 && i < 64
    ensures Bit(SlotBoard(cs, k, n), i) <==> i < n && InSlot(cs[i], k)
  {
    if n == 0 {
      BitZero(i);
    } else {
      SlotBoardBit(cs, k, n - 1, i);
      SlotBoardStep(cs, k, n, i);
    }
  }

  /** The fifteen boards of a placement. */
  function Place(cs: Squares): Boards
  {
    seq(15, k requires 0 <= k => SlotBoard(cs, k, 64))
  }

  /** Bit `i` of slot `k` of a placement's boards is set exactly when square
      `i` belongs on slot `k`. */
  lemma PlaceBit(cs: Squares, k: nat, i: bv8)
    requires k < 15 && i < 64
    ensures Bit(Place(cs)[k], i) <==> InSlot(cs[i], k)
  {
    SlotBoardBit(cs, k, 64, i);
  }

  /** Where a square's piece has its bits. */
  lemma PlaceBoards(cs: Squares, i: bv8)
    requires i < 64
    ensures forall q: Piece :: Bit(Board(Place(cs), q), i) <==> q == cs[i]
    ensures Bit(Occupancy(Place(cs), White), i) <==> cs[i] != None && ColorOf(cs[i]) == White
    ensures Bit(Occupancy(Place(cs), Black), i) <==> cs[i] != None && ColorOf(cs[i]) == Black
  {
    forall q: Piece ensures Bit(Board(Place(cs), q), i) <==> q == cs[i] {
      PlaceBit(cs, PieceValue(q), i);
      ValuesDistinct(q, cs[i], White, White);
      if cs[i] != None {
        ValuesDistinct(q, cs[i], ColorOf(cs[i]), ColorOf(cs[i]));
      }
    }
    PlaceBit(cs, ColorValue(White), i);
    PlaceBit(cs, ColorValue(Black), i);
    if cs[i] != None {
      ValuesDistinct(cs[i], cs[i], ColorOf(cs[i]), White);
      ValuesDistinct(cs[i], cs[i], ColorOf(cs[i]), Black);
    }
  }

  /** `piece` finds the placed piece on every square. */
  lemma PieceAtPlace(cs: Squares, i: bv8)
    requires i < 64
    ensures PieceAt(Place(cs), Sq(i)) == cs[i]
  {
    PlaceBoards(cs, i);
    if cs[i] == None {
      PieceAtNone(Place(cs), i);
    } else {
      PieceAtOnly(Place(cs), i, cs[i]);
    }
  }

  /** Two boards with no bit in common are disjoint. */
  lemma DisjointByBits(w: bv64, b: bv64)
    requires forall i: bv8 | i < 64 :: !(Bit(w, i) && Bit(b, i))
    ensures w & b == 0
  {
    var both := w & b;
    forall i: bv8 | i < 64 ensures !Bit(both, i) {
      BitAnd(w, b, i);
    }
    ZeroNoBits(both);
  }

  /** A board set exactly where neither of two others is, is the complement
      of their union. */
  lemma ComplementByBits(e: bv64, w: bv64, b: bv64)
    requires forall i: bv8 | i < 64 :: Bit(e, i) <==> !(Bit(w, i) || Bit(b, i))
    ensures e == !(w | b)
  {
    forall i: bv8 | i < 64 ensures Bit(e, i) == Bit(!(w | b), i) {
      BitNot(w | b, i);
      BitOr(w, b, i);
    }
    BitsEqual(e, !(w | b));
  }

  /** The boards of a placement are partitioned by the colours and the empty
      board. */
  lemma PlacePartitioned(cs: Squares)
    ensures Partitioned(Place(cs))
  {
    var bb := Place(cs);
    forall i: bv8 | i < 64
      ensures !(Bit(Occupancy(bb, White), i) && Bit(Occupancy(bb, Black), i))
      ensures Bit(Empty(bb), i) <==> !(Bit(Occupancy(bb, White), i) || Bit(Occupancy(bb, Black), i))
    {
      PlaceBoards(cs, i);
    }
    DisjointByBits(Occupancy(bb, White), Occupancy(bb, Black));
    ComplementByBits(Empty(bb), Occupancy(bb, White), Occupancy(bb, Black));
  }

  /** What `piece` reports on each square. */
  function Contents(bb: Boards): Squares
  {
    seq(64, i requires 0 <= i < 64 => PieceAt(bb, Sq(i as bv8)))
  }

  /** A square number below 64 survives the round trip through `bv8`. */
  lemma SquareNumber(i: int)
    requires 0 <= i < 64
    ensures (i as bv8) as int == i
  {
    assert i % 256 == i;
  }

  /** Two square numbers are equal as `bv8` exactly when they are equal as
      sequence indices. */
  lemma SameSquare(i: bv8, s: bv8)
    ensures i == s <==> i as int == s as int
  {
    assert (i as int) as bv8 == i;
    assert (s as int) as bv8 == s;
  }

  /** Reading a placement's boards square by square gives the placement. */
  lemma ContentsOfPlace(cs: Squares)
    ensures Contents(Place(cs)) == cs
  {
    forall i | 0 <= i < 64 ensures Contents(Place(cs))[i] == cs[i] {
      SquareNumber(i);
      PieceAtPlace(cs, i as bv8);
    }
  }

  /** The boards that some placement produces: every square on exactly the
      slots of its piece. */
  predicate WellFormed(bb: Boards)
  {
    bb == Place(Contents(bb))
  }

  /** Every placement's boards are well formed. */
  lemma PlaceWellFormed(cs: Squares)
    ensures WellFormed(Place(cs))
  {
    ContentsOfPlace(cs);
  }
  // ---------------------------------------------------------------------
  // How `set()` assembles the boards.

  /** No piece on any square. */
  function Vacant(): (cs: Squares)
    ensures forall i | 0 <= i < 64 :: cs[i] == None
  {
    seq(64, _ => None)
  }

  /** The slots `set()` fills square by square: the twelve piece boards. */
  predicate PieceSlot(k: nat)
  {
    k < 15 && k != ColorValue(White) && k != PieceValue(None) && k != ColorValue(Black)
  }

  /** With no piece placed, every piece board is empty. */
  lemma PlaceVacant(k: nat)
    requires PieceSlot(k)
    ensures Place(Vacant())[k] == 0
  {
    forall i: bv8 | i < 64 ensures !Bit(Place(Vacant())[k], i) {
      PlaceBit(Vacant(), k, i);
    }
    ZeroNoBits(Place(Vacant())[k]);
  }

  /** The slot memberships of one square before and after a piece is put
      on an empty square; `atS` says whether it is that square. */
  lemma PutSlots(p: Piece, k: nat, here: Piece, after: Piece, atS: bool)
    requires p != None && PieceSlot(k)
    requires atS ==> here == None && after == p
    requires !atS ==> after == here
    ensures InSlot(after, k) <==> InSlot(here, k) || (k == PieceValue(p) && atS)
  {
  }

  /** Square `i` of a piece board after putting `p` on the empty square
      `s`. */
  lemma PlacePutBit(cs: Squares, s: int, p: Piece, k: nat, i: bv8)
    requires 0 <= s < 64 && i < 64 && cs[s] == None && p != None && PieceSlot(k)
    ensures Bit(Place(cs[s := p])[k], i) <==> Bit(Place(cs)[k], i) || (k == PieceValue(p) && i as int == s)
  {
    PlaceBit(cs[s := p], k, i);
    PlaceBit(cs, k, i);
    PutSlots(p, k, cs[i], cs[s := p][i], i as int == s);
  }

  /** A square number is a bit index below 64. */
  lemma SquareIndex(s: int)
    requires 0 <= s < 64
    ensures s as bv8 < 64
  {
    SquareNumber(s);
  }

  /** A square number as a bit index. */
  lemma SquareOf(i: bv8, s: int)
    requires 0 <= s < 64
    ensures i == s as bv8 <==> i as int == s
  {
    SquareNumber(s);
  }

  /** A board set where another is and on square `s` is that board with `s`
      added. */
  lemma AddByBits(after: bv64, before: bv64, s: int)
    requires 0 <= s < 64
    requires forall i: bv8 | i < 64 :: Bit(after, i) <==> Bit(before, i) || i == s as bv8
    ensures after == before | Sq(s as bv8)
  {
    forall i: bv8 | i < 64 ensures Bit(after, i) == Bit(before | Sq(s as bv8), i) {
      BitOr(before, Sq(s as bv8), i);
      BitSq(s as bv8, i);
    }
    BitsEqual(after, before | Sq(s as bv8));
  }

  /** Putting piece `p` on the empty square `s` adds `s` to the board of
      `p` and leaves every other piece board as it was. */
  lemma PlacePut(cs: Squares, s: int, p: Piece, k: nat)
    requires 0 <= s < 64 && cs[s] == None && p != None && PieceSlot(k)
    ensures Place(cs[s := p])[k] == if k == PieceValue(p) then Place(cs)[k] | Sq(s as bv8) else Place(cs)[k]
  {
    var before := Place(cs)[k];
    var after := Place(cs[s := p])[k];
    forall i: bv8 | i < 64 ensures Bit(after, i) <==> Bit(before, i) || (k == PieceValue(p) && i == s as bv8) {
      PlacePutBit(cs, s, p, k, i);
      SquareOf(i, s);
    }
    if k == PieceValue(p) {
      AddByBits(after, before, s);
    } else {
      BitsEqual(after, before);
    }
  }

  /** A board set exactly where one of six others is, is their union. */
  lemma UnionByBits(x: bv64, a: bv64, b: bv64, c: bv64, d: bv64, e: bv64, f: bv64)
    requires forall i: bv8 | i < 64 :: Bit(x, i) <==>
      Bit(a, i) || Bit(b, i) || Bit(c, i) || Bit(d, i) || Bit(e, i) || Bit(f, i)
    ensures x == a | b | c | d | e | f
  {
    forall i: bv8 | i < 64 ensures Bit(x, i) == Bit(a | b | c | d | e | f, i) {
      BitOr(a, b, i);
      BitOr(a | b, c, i);
      BitOr(a | b | c, d, i);
      BitOr(a | b | c | d, e, i);
      BitOr(a | b | c | d | e, f, i);
    }
    BitsEqual(x, a | b | c | d | e | f);
  }

  /** Boards whose white board is the union of the white piece boards, in
      the order `set()` ors them together. */
  ghost predicate WhiteAssembled(bb: Boards)
  {
    Occupancy(bb, White) == Board(bb, WPawn) | Board(bb, WRook) | Board(bb, WKnight) |
      Board(bb, WBishop) | Board(bb, WQueen) | Board(bb, WKing)
  }

  /** The same for black. */
  ghost predicate BlackAssembled(bb: Boards)
  {
    Occupancy(bb, Black) == Board(bb, BPawn) | Board(bb, BRook) | Board(bb, BKnight) |
      Board(bb, BBishop) | Board(bb, BQueen) | Board(bb, BKing)
  }

  /** Boards whose empty board is the common complement of the colour
      boards, as `set()` computes it. */
  ghost predicate EmptyAssembled(bb: Boards)
  {
    Empty(bb) == !Occupancy(bb, White) & !Occupancy(bb, Black)
  }

  /** The six white pieces. */
  lemma WhitePieces(p: Piece)
    ensures (p != None && ColorOf(p) == White) <==>
      p == WPawn || p == WRook || p == WKnight || p == WBishop || p == WQueen || p == WKing
  {
  }

  /** The six black pieces. */
  lemma BlackPieces(p: Piece)
    ensures (p != None && ColorOf(p) == Black) <==>
      p == BPawn || p == BRook || p == BKnight || p == BBishop || p == BQueen || p == BKing
  {
  }

  /** Whether square `i` is on a white piece's board. */
  lemma PlaceWhiteBit(cs: Squares, i: bv8)
    requires i < 64
    ensures Bit(Occupancy(Place(cs), White), i) <==>
      Bit(Board(Place(cs), WPawn), i) || Bit(Board(Place(cs), WRook), i) || Bit(Board(Place(cs), WKnight), i) ||
      Bit(Board(Place(cs), WBishop), i) || Bit(Board(Place(cs), WQueen), i) || Bit(Board(Place(cs), WKing), i)
  {
    PlaceBoards(cs, i);
    WhitePieces(cs[i]);
  }

  /** Whether square `i` is on a black piece's board. */
  lemma PlaceBlackBit(cs: Squares, i: bv8)
    requires i < 64
    ensures Bit(Occupancy(Place(cs), Black), i) <==>
      Bit(Board(Place(cs), BPawn), i) || Bit(Board(Place(cs), BRook), i) || Bit(Board(Place(cs), BKnight), i) ||
      Bit(Board(Place(cs), BBishop), i) || Bit(Board(Place(cs), BQueen), i) || Bit(Board(Place(cs), BKing), i)
  {
    PlaceBoards(cs, i);
    BlackPieces(cs[i]);
  }

  /** On the boards of a placement the white board is the union of the
      white piece boards. */
  lemma PlaceWhite(cs: Squares)
    ensures WhiteAssembled(Place(cs))
  {
    var bb := Place(cs);
    forall i: bv8 | i < 64 ensures Bit(Occupancy(bb, White), i) <==>
      Bit(Board(bb, WPawn), i) || Bit(Board(bb, WRook), i) || Bit(Board(bb, WKnight), i) ||
      Bit(Board(bb, WBishop), i) || Bit(Board(bb, WQueen), i) || Bit(Board(bb, WKing), i)
    {
      PlaceWhiteBit(cs, i);
    }
    UnionByBits(Occupancy(bb, White), Board(bb, WPawn), Board(bb, WRook), Board(bb, WKnight),
      Board(bb, WBishop), Board(bb, WQueen), Board(bb, WKing));
  }

  /** The same for black. */
  lemma PlaceBlack(cs: Squares)
    ensures BlackAssembled(Place(cs))
  {
    var bb := Place(cs);
    forall i: bv8 | i < 64 ensures Bit(Occupancy(bb, Black), i) <==>
      Bit(Board(bb, BPawn), i) || Bit(Board(bb, BRook), i) || Bit(Board(bb, BKnight), i) ||
      Bit(Board(bb, BBishop), i) || Bit(Board(bb, BQueen), i) || Bit(Board(bb, BKing), i)
    {
      PlaceBlackBit(cs, i);
    }
    UnionByBits(Occupancy(bb, Black), Board(bb, BPawn), Board(bb, BRook), Board(bb, BKnight),
      Board(bb, BBishop), Board(bb, BQueen), Board(bb, BKing));
  }

  /** The complement of a union is the meet of the complements. */
  lemma NotOr(w: bv64, b: bv64)
    ensures !(w | b) == !w & !b
  {
  }

  /** On the boards of a placement the empty board is the common complement
      of the colour boards. */
  lemma PlaceEmpty(cs: Squares)
    ensures EmptyAssembled(Place(cs))
  {
    PlacePartitioned(cs);
    NotOr(Occupancy(Place(cs), White), Occupancy(Place(cs), Black));
  }
}
