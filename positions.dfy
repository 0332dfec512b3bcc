// The read-only queries of chess/Board.h over the fifteen bitboards: the
// `all`/`empty` boards, the `piece` lookup, the colour-aware move
// generators and their dispatch `moves`, and the attack queries
// `attackedBy`, `find` and `inCheck`.
module Position {
  import opened Bits
  import opened Pieces
  import opened Tables
  import opened Attacks

  /** `m_bitboards`: one board per colour value and per piece value. Slot 0
      holds the white squares, 1..6 the white pieces, 7 the empty squares,
      8 the black squares and 9..14 the black pieces. */
  type Boards = b: seq<bv64> | |b| == 15 witness [0, 0, 0, 0, 0, 0, 0, 0, 0, 0, 0, 0, 0, 0, 0]

  /** The board of piece `p` (`m_bitboards[p]`); for None, the empty squares. */
  function Board(bb: Boards, p: Piece): bv64
  {
    bb[PieceValue(p)]
  }

  /** The squares of colour `c` (`m_bitboards[C]`). */
  function Occupancy(bb: Boards, c: Color): bv64
  {
    bb[ColorValue(c)]
  }

  /** `all()`: the complement of the empty board. */
  function All(bb: Boards): bv64
  {
    !Board(bb, None)
  }

  /** `empty()`. */
  function Empty(bb: Boards): bv64
  {
    Board(bb, None)
  }

  /** The two colours and the empty squares split the board: the colours
      are disjoint and the empty board is the complement of their union. */
  predicate Partitioned(bb: Boards)
  {
    Occupancy(bb, White) & Occupancy(bb, Black) == 0 &&
    Empty(bb) == !(Occupancy(bb, White) | Occupancy(bb, Black))
  }

  // ---------------------------------------------------------------------
  // `piece(square)`

  /** `s_piecesList`, the order in which `piece` tries the boards. */
  const PiecesList: seq<Piece> :=
    [WPawn, WRook, WKnight, WBishop, WQueen, WKing, BPawn, BRook, BKnight, BBishop, BQueen, BKing]

  /** Where a piece stands in `s_piecesList`. */
  function ListPosition(p: Piece): (j: nat)
    requires p != None
    ensures j < |PiecesList| && PiecesList[j] == p
  {
    match p
    case WPawn => 0 case WRook => 1 case WKnight => 2 case WBishop => 3
    case WQueen => 4 case WKing => 5 case BPawn => 6 case BRook => 7
    case BKnight => 8 case BBishop => 9 case BQueen => 10 case BKing => 11
  }

  /** The board of `q` shares a square with `square`. */
  predicate Meets(bb: Boards, q: Piece, square: bv64)
  {
    Board(bb, q) & square != 0
  }

  /** Each position of the list holds the piece found there. */
  lemma ListPositionInverse(k: nat)
    requires k < |PiecesList|
    ensures PiecesList[k] != None && ListPosition(PiecesList[k]) == k
  {
  }

  /** The search of `piece` from position `k` of the list on: the first
      piece whose board meets `square`, or None when no board does. */
  function FirstPieceFrom(bb: Boards, square: bv64, k: nat): (p: Piece)
    requires k <= |PiecesList|
    ensures p == None <==> forall j :: k <= j < |PiecesList| ==> !Meets(bb, PiecesList[j], square)
    ensures p != None ==> k <= ListPosition(p) && Meets(bb, p, square)
    ensures p != None ==> forall j :: k <= j < ListPosition(p) ==> !Meets(bb, PiecesList[j], square)
    decreases |PiecesList| - k
  {
    if k == |PiecesList| then None
    else if Meets(bb, PiecesList[k], square) then
      ListPositionInverse(k);
      PiecesList[k]
    else FirstPieceFrom(bb, square, k + 1)
  }

  /** `piece(square)`: the first piece of `s_piecesList` whose board meets
      `square`, or None. */
  function PieceAt(bb: Boards, square: bv64): (p: Piece)
  {
    FirstPieceFrom(bb, square, 0)
  }

  /** The list holds every piece and never None. */
  lemma PiecesListComplete(p: Piece)
    ensures p in PiecesList <==> p != None
  {
    if p != None {
      assert PiecesList[ListPosition(p)] == p;
    }
  }

  /** A square on the board of a piece does not hold None. */
  lemma PieceAtSome(bb: Boards, i: bv8, p: Piece)
    requires i < 64 && p != None && Bit(Board(bb, p), i)
    ensures PieceAt(bb, Sq(i)) != None
  {
    MaskSq(Board(bb, p), i);
    assert Meets(bb, PiecesList[ListPosition(p)], Sq(i));
  }

  /** The piece found on a square has that square on its board. */
  lemma PieceAtOnBoard(bb: Boards, i: bv8)
    requires i < 64 && PieceAt(bb, Sq(i)) != None
    ensures Bit(Board(bb, PieceAt(bb, Sq(i))), i)
  {
    MaskSq(Board(bb, PieceAt(bb, Sq(i))), i);
  }

  /** A square on exactly one piece board holds that piece. */
  lemma PieceAtOnly(bb: Boards, i: bv8, p: Piece)
    requires i < 64 && p != None && Bit(Board(bb, p), i)
    requires forall q :: q != None && q != p ==> !Bit(Board(bb, q), i)
    ensures PieceAt(bb, Sq(i)) == p
  {
    PieceAtSome(bb, i, p);
    PieceAtOnBoard(bb, i);
  }

  /** A square on no piece board holds None. */
  lemma PieceAtNone(bb: Boards, i: bv8)
    requires i < 64
    requires forall q :: q != None ==> !Bit(Board(bb, q), i)
    ensures PieceAt(bb, Sq(i)) == None
  {
    if PieceAt(bb, Sq(i)) != None {
      PieceAtOnBoard(bb, i);
    }
  }

  // ---------------------------------------------------------------------
  // The colour-aware generators.

  /** `pawnAttacks<C>(f, r)`: the diagonal squares ahead holding a piece of
      the other colour. */
  function PawnAttacks(bb: Boards, c: Color, f: Coord, r: Coord): bv64
  {
    if c == White then WhitePawnAttacks(f, r) & Occupancy(bb, Black)
    else BlackPawnAttacks(f, r) & Occupancy(bb, White)
  }

  /** `pawnMoves<C>(f, r)`: captures, the push onto an empty square, and
      from the home rank the double push over two empty squares. */
  function PawnMoves(bb: Boards, c: Color, f: Coord, r: Coord): bv64
  {
    if c == White then
      PawnMovesOn(PawnAttacks(bb, c, f, r), WhitePawnPushes(f, r), Empty(bb), r == 1, true)
    else
      PawnMovesOn(PawnAttacks(bb, c, f, r), BlackPawnPushes(f, r), Empty(bb), r == 6, false)
  }

  /** The body of `pawnMoves<C>` over the looked-up tables: `up` is the
      direction white pawns move in, `home` whether the pawn stands on its
      starting rank. */
  function PawnMovesOn(attacks: bv64, pushes: bv64, free: bv64, home: bool, up: bool): bv64
  {
    attacks | (pushes & free) | DoublePush(pushes & free, free, home, up)
  }

  /** The double push: the free single push moved one more rank and masked
      by the free squares again, only from the home rank. */
  function DoublePush(moves: bv64, free: bv64, home: bool, up: bool): bv64
  {
    if !home then 0 else if up then (moves << 8) & free else (moves >> 8) & free
  }

  /** `knightMoves<C>(f, r)`. */
  function KnightMoves(bb: Boards, c: Color, f: Coord, r: Coord): bv64
  {
    KnightTable(f, r) & !Occupancy(bb, c)
  }

  /** `kingMoves<C>(f, r)`. */
  function KingMoves(bb: Boards, c: Color, f: Coord, r: Coord): bv64
  {
    KingTable(f, r) & !Occupancy(bb, c)
  }

  /** `rookMoves<C>(f, r, occupancy)`. */
  function RookMovesOf(bb: Boards, c: Color, f: Coord, r: Coord, occupancy: bv64): bv64
  {
    RookMoves(f, r, occupancy) & !Occupancy(bb, c)
  }

  /** `bishopMoves<C>(f, r, occupancy)`. */
  function BishopMovesOf(bb: Boards, c: Color, f: Coord, r: Coord, occupancy: bv64): bv64
  {
    BishopMoves(f, r, occupancy) & !Occupancy(bb, c)
  }

  /** `queenMoves<C>(f, r, occupancy)`. */
  function QueenMovesOf(bb: Boards, c: Color, f: Coord, r: Coord, occupancy: bv64): bv64
  {
    QueenMoves(f, r, occupancy) & !Occupancy(bb, c)
  }

  /** `moves(p, f, r)`: the generator of the piece's kind and colour, with
      the sliders blocked by every occupied square; nothing for None. */
  function Moves(bb: Boards, p: Piece, f: Coord, r: Coord): bv64
  {
    match p
    case WPawn => PawnMoves(bb, White, f, r)
    case WRook => RookMovesOf(bb, White, f, r, All(bb))
    case WKnight => KnightMoves(bb, White, f, r)
    case WBishop => BishopMovesOf(bb, White, f, r, All(bb))
    case WQueen => QueenMovesOf(bb, White, f, r, All(bb))
    case WKing => KingMoves(bb, White, f, r)
    case BPawn => PawnMoves(bb, Black, f, r)
    case BRook => RookMovesOf(bb, Black, f, r, All(bb))
    case BKnight => KnightMoves(bb, Black, f, r)
    case BBishop => BishopMovesOf(bb, Black, f, r, All(bb))
    case BQueen => QueenMovesOf(bb, Black, f, r, All(bb))
    case BKing => KingMoves(bb, Black, f, r)
    case None => 0
  }

  /** A single push square `t`, masked by the free squares. */
  lemma PushBit(free: bv64, t: bv8, i: bv8)
    requires t < 64 && i < 64
    ensures Bit(Sq(t) & free, i) <==> i == t && Bit(free, i)
  {
    BitAnd(Sq(t), free, i);
    BitSq(t, i);
  }

  /** The free push square `t`, shifted one rank up and masked again. */
  lemma DoublePushUpBit(free: bv64, t: bv8, i: bv8)
    requires t < 56 && i < 64
    ensures Bit(((Sq(t) & free) << 8) & free, i) <==> i == t + 8 && Bit(free, t) && Bit(free, i)
  {
    var m := Sq(t) & free;
    var up := m << 8;
    BitAnd(up, free, i);
    BitShl8(m, i);
    if 8 <= i {
      PushBit(free, t, i - 8);
    }
  }

  /** The free push square `t`, shifted one rank down and masked again. */
  lemma DoublePushDownBit(free: bv64, t: bv8, i: bv8)
    requires 8 <= t < 64 && i < 64
    ensures Bit(((Sq(t) & free) >> 8) & free, i) <==> i == t - 8 && Bit(free, t) && Bit(free, i)
  {
    var m := Sq(t) & free;
    var down := m >> 8;
    BitAnd(down, free, i);
    BitShr8(m, i);
    if i < 56 {
      PushBit(free, t, i + 8);
    }
  }

  /** A bit of a three-way union. */
  lemma BitOr3(a: bv64, b: bv64, c: bv64, i: bv8)
    requires i < 64
    ensures Bit(a | b | c, i) <==> Bit(a, i) || Bit(b, i) || Bit(c, i)
  {
  }

  /** `PawnMovesOn` is the union of its three parts. */
  lemma PawnMovesOnParts(attacks: bv64, pushes: bv64, free: bv64, home: bool, up: bool)
    ensures PawnMovesOn(attacks, pushes, free, home, up) ==
      attacks | (pushes & free) | DoublePush(pushes & free, free, home, up)
  {
  }

  /** A pawn generator holds the captures, the single push and the double push. */
  lemma PawnMovesOnBits(attacks: bv64, pushes: bv64, free: bv64, home: bool, up: bool, i: bv8)
    requires i < 64
    ensures Bit(PawnMovesOn(attacks, pushes, free, home, up), i) <==>
      Bit(attacks, i) || Bit(pushes & free, i) || Bit(DoublePush(pushes & free, free, home, up), i)
  {
    PawnMovesOnParts(attacks, pushes, free, home, up);
    BitOr3(attacks, pushes & free, DoublePush(pushes & free, free, home, up), i);
  }

  /** The single push of a pawn moving up from `Index(f, r)`. */
  lemma UpPushBits(pushes: bv64, free: bv64, f: Coord, r: Coord, i: bv8)
    requires i < 64
    requires pushes == if r < 7 then Sq(Index(f, r + 1)) else 0
    ensures Bit(pushes & free, i) <==> r < 7 && i == Index(f, r + 1) && Bit(free, i)
  {
    if r < 7 {
      PushBit(free, Index(f, r + 1), i);
    } else {
      BitAnd(0, free, i);
      BitZero(i);
    }
  }

  /** The single push of a pawn moving down from `Index(f, r)`. */
  lemma DownPushBits(pushes: bv64, free: bv64, f: Coord, r: Coord, i: bv8)
    requires i < 64
    requires pushes == if 0 < r then Sq(Index(f, r - 1)) else 0
    ensures Bit(pushes & free, i) <==> 0 < r && i == Index(f, r - 1) && Bit(free, i)
  {
    if 0 < r {
      PushBit(free, Index(f, r - 1), i);
    } else {
      BitAnd(0, free, i);
      BitZero(i);
    }
  }

  /** The double push of a pawn moving up from `Index(f, r)`. */
  lemma UpDoubleBits(pushes: bv64, free: bv64, f: Coord, r: Coord, i: bv8)
    requires i < 64
    requires pushes == if r < 7 then Sq(Index(f, r + 1)) else 0
    ensures Bit(DoublePush(pushes & free, free, r == 1, true), i) <==>
      r == 1 && i == Index(f, 3) && Bit(free, Index(f, 2)) && Bit(free, i)
  {
    if r == 1 {
      DoublePushUpBit(free, Index(f, 2), i);
    } else {
      BitZero(i);
    }
  }

  /** The double push of a pawn moving down from `Index(f, r)`. */
  lemma DownDoubleBits(pushes: bv64, free: bv64, f: Coord, r: Coord, i: bv8)
    requires i < 64
    requires pushes == if 0 < r then Sq(Index(f, r - 1)) else 0
    ensures Bit(DoublePush(pushes & free, free, r == 6, false), i) <==>
      r == 6 && i == Index(f, 4) && Bit(free, Index(f, 5)) && Bit(free, i)
  {
    if r == 6 {
      DoublePushDownBit(free, Index(f, 5), i);
    } else {
      BitZero(i);
    }
  }

  /** A pawn moving up from `Index(f, r)` whose captures are `targets & opponents`. */
  lemma UpPawnBits(targets: bv64, opponents: bv64, pushes: bv64, free: bv64, f: Coord, r: Coord, i: bv8)
    requires i < 64
    requires pushes == if r < 7 then Sq(Index(f, r + 1)) else 0
    ensures Bit(PawnMovesOn(targets & opponents, pushes, free, r == 1, true), i) <==>
      (Bit(targets, i) && Bit(opponents, i)) ||
      (r < 7 && i == Index(f, r + 1) && Bit(free, i)) ||
      (r == 1 && i == Index(f, 3) && Bit(free, Index(f, 2)) && Bit(free, i))
  {
    PawnMovesOnBits(targets & opponents, pushes, free, r == 1, true, i);
    UpPushBits(pushes, free, f, r, i);
    UpDoubleBits(pushes, free, f, r, i);
    BitAnd(targets, opponents, i);
  }

  /** A pawn moving down from `Index(f, r)` whose captures are `targets & opponents`. */
  lemma DownPawnBits(targets: bv64, opponents: bv64, pushes: bv64, free: bv64, f: Coord, r: Coord, i: bv8)
    requires i < 64
    requires pushes == if 0 < r then Sq(Index(f, r - 1)) else 0
    ensures Bit(PawnMovesOn(targets & opponents, pushes, free, r == 6, false), i) <==>
      (Bit(targets, i) && Bit(opponents, i)) ||
      (0 < r && i == Index(f, r - 1) && Bit(free, i)) ||
      (r == 6 && i == Index(f, 4) && Bit(free, Index(f, 5)) && Bit(free, i))
  {
    PawnMovesOnBits(targets & opponents, pushes, free, r == 6, false, i);
    DownPushBits(pushes, free, f, r, i);
    DownDoubleBits(pushes, free, f, r, i);
    BitAnd(targets, opponents, i);
  }

  /** A white pawn captures onto a diagonal square ahead that black holds,
      pushes one rank up onto an empty square, and from rank 2 also two
      ranks up when both squares ahead are empty. */
  lemma WhitePawnMovesBits(bb: Boards, f: Coord, r: Coord, i: bv8)
    requires i < 64
    ensures Bit(PawnMoves(bb, White, f, r), i) <==>
      (Bit(WhitePawnAttacks(f, r), i) && Bit(Occupancy(bb, Black), i)) ||
      (r < 7 && i == Index(f, r + 1) && Bit(Empty(bb), i)) ||
      (r == 1 && i == Index(f, 3) && Bit(Empty(bb), Index(f, 2)) && Bit(Empty(bb), i))
  {
    WhitePawnPushesAhead(f, r);
    UpPawnBits(WhitePawnAttacks(f, r), Occupancy(bb, Black), WhitePawnPushes(f, r), Empty(bb), f, r, i);
  }

  /** A black pawn captures onto a diagonal square ahead that white holds,
      pushes one rank down onto an empty square, and from rank 7 also two
      ranks down when both squares ahead are empty. */
  lemma BlackPawnMovesBits(bb: Boards, f: Coord, r: Coord, i: bv8)
    requires i < 64
    ensures Bit(PawnMoves(bb, Black, f, r), i) <==>
      (Bit(BlackPawnAttacks(f, r), i) && Bit(Occupancy(bb, White), i)) ||
      (0 < r && i == Index(f, r - 1) && Bit(Empty(bb), i)) ||
      (r == 6 && i == Index(f, 4) && Bit(Empty(bb), Index(f, 5)) && Bit(Empty(bb), i))
  {
    BlackPawnPushesAhead(f, r);
    DownPawnBits(BlackPawnAttacks(f, r), Occupancy(bb, White), BlackPawnPushes(f, r), Empty(bb), f, r, i);
  }

  // ---------------------------------------------------------------------
  // The generators never reach the mover's own squares.

  /** A board masked by the complement of `own` avoids `own`. */
  lemma MaskedAvoids(x: bv64, own: bv64)
    ensures x & !own & own == 0
  {
  }

  /** Pawn captures restricted to the other colour and pushes restricted to
      the free squares avoid `own` when `own`, `other` and `free` split the
      board. */
  lemma PawnMovesOnPartitioned(own: bv64, other: bv64, free: bv64, targets: bv64, pushes: bv64, home: bool, up: bool)
    requires own & other == 0 && free == !(own | other)
    ensures PawnMovesOn(targets & other, pushes, free, home, up) & own == 0
  {
    PawnMovesOnParts(targets & other, pushes, free, home, up);
  }

  lemma WhitePawnMovesUnfold(bb: Boards, f: Coord, r: Coord)
    ensures PawnMoves(bb, White, f, r) ==
      PawnMovesOn(WhitePawnAttacks(f, r) & Occupancy(bb, Black), WhitePawnPushes(f, r), Empty(bb), r == 1, true)
  {
  }

  lemma BlackPawnMovesUnfold(bb: Boards, f: Coord, r: Coord)
    ensures PawnMoves(bb, Black, f, r) ==
      PawnMovesOn(BlackPawnAttacks(f, r) & Occupancy(bb, White), BlackPawnPushes(f, r), Empty(bb), r == 6, false)
  {
  }

  /** A white pawn never moves onto a white piece. */
  lemma WhitePawnMovesAvoid(bb: Boards, f: Coord, r: Coord)
    requires Partitioned(bb)
    ensures PawnMoves(bb, White, f, r) & Occupancy(bb, White) == 0
  {
    WhitePawnMovesUnfold(bb, f, r);
    PawnMovesOnPartitioned(Occupancy(bb, White), Occupancy(bb, Black), Empty(bb),
      WhitePawnAttacks(f, r), WhitePawnPushes(f, r), r == 1, true);
  }

  /** A black pawn never moves onto a black piece. */
  lemma BlackPawnMovesAvoid(bb: Boards, f: Coord, r: Coord)
    requires Partitioned(bb)
    ensures PawnMoves(bb, Black, f, r) & Occupancy(bb, Black) == 0
  {
    BlackPawnMovesUnfold(bb, f, r);
    PawnMovesOnPartitioned(Occupancy(bb, Black), Occupancy(bb, White), Empty(bb),
      BlackPawnAttacks(f, r), BlackPawnPushes(f, r), r == 6, false);
  }

  /** Knights, kings and sliders are masked with the complement of their
      own colour. */
  lemma KnightMovesAvoid(bb: Boards, c: Color, f: Coord, r: Coord)
    ensures KnightMoves(bb, c, f, r) & Occupancy(bb, c) == 0
  {
    MaskedAvoids(KnightTable(f, r), Occupancy(bb, c));
  }

  lemma KingMovesAvoid(bb: Boards, c: Color, f: Coord, r: Coord)
    ensures KingMoves(bb, c, f, r) & Occupancy(bb, c) == 0
  {
    MaskedAvoids(KingTable(f, r), Occupancy(bb, c));
  }

  lemma RookMovesOfAvoid(bb: Boards, c: Color, f: Coord, r: Coord, occupancy: bv64)
    ensures RookMovesOf(bb, c, f, r, occupancy) & Occupancy(bb, c) == 0
  {
    MaskedAvoids(RookMoves(f, r, occupancy), Occupancy(bb, c));
  }

  lemma BishopMovesOfAvoid(bb: Boards, c: Color, f: Coord, r: Coord, occupancy: bv64)
    ensures BishopMovesOf(bb, c, f, r, occupancy) & Occupancy(bb, c) == 0
  {
    MaskedAvoids(BishopMoves(f, r, occupancy), Occupancy(bb, c));
  }

  lemma QueenMovesOfAvoid(bb: Boards, c: Color, f: Coord, r: Coord, occupancy: bv64)
    ensures QueenMovesOf(bb, c, f, r, occupancy) & Occupancy(bb, c) == 0
  {
    MaskedAvoids(QueenMoves(f, r, occupancy), Occupancy(bb, c));
  }

  lemma PawnsAvoidOwnColour(bb: Boards, p: Piece, f: Coord, r: Coord)
    requires Partitioned(bb) && (p == WPawn || p == BPawn)
    ensures Moves(bb, p, f, r) & Occupancy(bb, ColorOf(p)) == 0
  {
    match p
    case WPawn => WhitePawnMovesAvoid(bb, f, r);
    case BPawn => BlackPawnMovesAvoid(bb, f, r);
  }

  lemma KnightsAvoidOwnColour(bb: Boards, p: Piece, f: Coord, r: Coord)
    requires p == WKnight || p == BKnight
    ensures Moves(bb, p, f, r) & Occupancy(bb, ColorOf(p)) == 0
  {
    KnightMovesAvoid(bb, ColorOf(p), f, r);
  }

  lemma KingsAvoidOwnColour(bb: Boards, p: Piece, f: Coord, r: Coord)
    requires p == WKing || p == BKing
    ensures Moves(bb, p, f, r) & Occupancy(bb, ColorOf(p)) == 0
  {
    KingMovesAvoid(bb, ColorOf(p), f, r);
  }

  lemma RooksAvoidOwnColour(bb: Boards, p: Piece, f: Coord, r: Coord)
    requires p == WRook || p == BRook
    ensures Moves(bb, p, f, r) & Occupancy(bb, ColorOf(p)) == 0
  {
    RookMovesOfAvoid(bb, ColorOf(p), f, r, All(bb));
  }

  lemma BishopsAvoidOwnColour(bb: Boards, p: Piece, f: Coord, r: Coord)
    requires p == WBishop || p == BBishop
    ensures Moves(bb, p, f, r) & Occupancy(bb, ColorOf(p)) == 0
  {
    BishopMovesOfAvoid(bb, ColorOf(p), f, r, All(bb));
  }

  lemma QueensAvoidOwnColour(bb: Boards, p: Piece, f: Coord, r: Coord)
    requires p == WQueen || p == BQueen
    ensures Moves(bb, p, f, r) & Occupancy(bb, ColorOf(p)) == 0
  {
    match p
    case WQueen => QueenMovesOfAvoid(bb, White, f, r, All(bb));
    case BQueen => QueenMovesOfAvoid(bb, Black, f, r, All(bb));
  }

  /** On a partitioned board no generator includes a square of the moving
      piece's own colour: knights, kings and sliders are masked with the
      complement of their colour, pawns capture only onto the other colour
      and push only onto empty squares. */
  lemma MovesAvoidOwnColour(bb: Boards, p: Piece, f: Coord, r: Coord)
    requires Partitioned(bb) && p != None
    ensures Moves(bb, p, f, r) & Occupancy(bb, ColorOf(p)) == 0
  {
    if p == WPawn || p == BPawn {
      PawnsAvoidOwnColour(bb, p, f, r);
    } else if p == WKnight || p == BKnight {
      KnightsAvoidOwnColour(bb, p, f, r);
    } else if p == WKing || p == BKing {
      KingsAvoidOwnColour(bb, p, f, r);
    } else if p == WQueen || p == BQueen {
      QueensAvoidOwnColour(bb, p, f, r);
    } else if p == WRook || p == BRook {
      RooksAvoidOwnColour(bb, p, f, r);
    } else {
      BishopsAvoidOwnColour(bb, p, f, r);
    }
  }

  // ---------------------------------------------------------------------
  // The generators never include the mover's own square.

  /** Masking keeps a bit clear. */
  lemma MaskedKeepsClear(x: bv64, own: bv64, s: bv8)
    requires s < 64 && !Bit(x, s)
    ensures !Bit(x & !own, s)
  {
    BitAnd(x, !own, s);
  }

  lemma WhitePawnMovesAvoidOrigin(bb: Boards, f: Coord, r: Coord)
    ensures !Bit(PawnMoves(bb, White, f, r), Index(f, r))
  {
    WhitePawnAttacksAvoidOrigin(f, r);
    WhitePawnMovesBits(bb, f, r, Index(f, r));
  }

  lemma BlackPawnMovesAvoidOrigin(bb: Boards, f: Coord, r: Coord)
    ensures !Bit(PawnMoves(bb, Black, f, r), Index(f, r))
  {
    BlackPawnAttacksAvoidOrigin(f, r);
    BlackPawnMovesBits(bb, f, r, Index(f, r));
  }

  lemma PawnsAvoidOrigin(bb: Boards, p: Piece, f: Coord, r: Coord)
    requires p == WPawn || p == BPawn
    ensures !Bit(Moves(bb, p, f, r), Index(f, r))
  {
    match p
    case WPawn => WhitePawnMovesAvoidOrigin(bb, f, r);
    case BPawn => BlackPawnMovesAvoidOrigin(bb, f, r);
  }

  lemma KnightsAvoidOrigin(bb: Boards, p: Piece, f: Coord, r: Coord)
    requires p == WKnight || p == BKnight
    ensures !Bit(Moves(bb, p, f, r), Index(f, r))
  {
    KnightTableAvoidsOrigin(f, r);
    MaskedKeepsClear(KnightTable(f, r), Occupancy(bb, ColorOf(p)), Index(f, r));
  }

  lemma KingsAvoidOrigin(bb: Boards, p: Piece, f: Coord, r: Coord)
    requires p == WKing || p == BKing
    ensures !Bit(Moves(bb, p, f, r), Index(f, r))
  {
    KingTableAvoidsOrigin(f, r);
    MaskedKeepsClear(KingTable(f, r), Occupancy(bb, ColorOf(p)), Index(f, r));
  }

  lemma RooksAvoidOrigin(bb: Boards, p: Piece, f: Coord, r: Coord)
    requires p == WRook || p == BRook
    ensures !Bit(Moves(bb, p, f, r), Index(f, r))
  {
    RookMovesAvoidOrigin(f, r, All(bb));
    MaskedKeepsClear(RookMoves(f, r, All(bb)), Occupancy(bb, ColorOf(p)), Index(f, r));
  }

  lemma BishopsAvoidOrigin(bb: Boards, p: Piece, f: Coord, r: Coord)
    requires p == WBishop || p == BBishop
    ensures !Bit(Moves(bb, p, f, r), Index(f, r))
  {
    BishopMovesAvoidOrigin(f, r, All(bb));
    MaskedKeepsClear(BishopMoves(f, r, All(bb)), Occupancy(bb, ColorOf(p)), Index(f, r));
  }

  lemma QueensAvoidOrigin(bb: Boards, p: Piece, f: Coord, r: Coord)
    requires p == WQueen || p == BQueen
    ensures !Bit(Moves(bb, p, f, r), Index(f, r))
  {
    QueenMovesAvoidOrigin(f, r, All(bb));
    MaskedKeepsClear(QueenMoves(f, r, All(bb)), Occupancy(bb, ColorOf(p)), Index(f, r));
  }

  /** No piece's moves include the square it stands on, so an accepted move
      always changes squares. */
  lemma MovesAvoidOrigin(bb: Boards, p: Piece, f: Coord, r: Coord)
    ensures !Bit(Moves(bb, p, f, r), Index(f, r))
  {
    if p == None {
      BitZero(Index(f, r));
    } else if p == WPawn || p == BPawn {
      PawnsAvoidOrigin(bb, p, f, r);
    } else if p == WKnight || p == BKnight {
      KnightsAvoidOrigin(bb, p, f, r);
    } else if p == WKing || p == BKing {
      KingsAvoidOrigin(bb, p, f, r);
    } else if p == WRook || p == BRook {
      RooksAvoidOrigin(bb, p, f, r);
    } else if p == WBishop || p == BBishop {
      BishopsAvoidOrigin(bb, p, f, r);
    } else {
      QueensAvoidOrigin(bb, p, f, r);
    }
  }
}
