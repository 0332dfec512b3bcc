// Attack and check queries of chess/Board.h: `attackedBy<C>`, `find<P>` and
// `inCheck<C>`. `attackedBy` looks outwards from the attacked square with
// the generators of the other colour and keeps the squares that hold an
// attacker of the matching kind; the lemmas below show that this finds
// exactly the leapers that could move onto the square, because the leaper
// tables are symmetric.
module Checks {
  import opened Bits
  import opened Pieces
  import opened Tables
  import opened Attacks
  import opened Position

  // ---------------------------------------------------------------------
  // `attackedBy<C>(f, r)`, one function per term of its union.

  /** Pawns of colour `c` on the capture squares of an opposite pawn on
      (f, r). */
  function PawnAttackers(bb: Boards, c: Color, f: Coord, r: Coord): bv64
  {
    PawnAttacks(bb, Opposite(c), f, r) & Board(bb, Colored(Pawn, c))
  }

  /** Rooks and queens of colour `c` on the lines a rook on (f, r) sees. */
  function RookAttackers(bb: Boards, c: Color, f: Coord, r: Coord): bv64
  {
    RookMovesOf(bb, Opposite(c), f, r, All(bb)) & (Board(bb, Colored(Rook, c)) | Board(bb, Colored(Queen, c)))
  }

  /** Knights of colour `c` a knight's move away from (f, r). */
  function KnightAttackers(bb: Boards, c: Color, f: Coord, r: Coord): bv64
  {
    KnightMoves(bb, Opposite(c), f, r) & Board(bb, Colored(Knight, c))
  }

  /** Bishops and queens of colour `c` on the diagonals a bishop on (f, r)
      sees. */
  function BishopAttackers(bb: Boards, c: Color, f: Coord, r: Coord): bv64
  {
    BishopMovesOf(bb, Opposite(c), f, r, All(bb)) & (Board(bb, Colored(Bishop, c)) | Board(bb, Colored(Queen, c)))
  }

  /** The king of colour `c` next to (f, r). */
  function KingAttackers(bb: Boards, c: Color, f: Coord, r: Coord): bv64
  {
    KingMoves(bb, Opposite(c), f, r) & Board(bb, Colored(King, c))
  }

  /** `attackedBy<C>(f, r)`: the pieces of colour `c` attacking (f, r). */
  function AttackedBy(bb: Boards, c: Color, f: Coord, r: Coord): bv64
  {
    PawnAttackers(bb, c, f, r) | RookAttackers(bb, c, f, r) | KnightAttackers(bb, c, f, r) |
    BishopAttackers(bb, c, f, r) | KingAttackers(bb, c, f, r)
  }

  /** The squares of the six piece boards of colour `c`. */
  function Forces(bb: Boards, c: Color): bv64
  {
    Board(bb, Colored(Pawn, c)) | Board(bb, Colored(Rook, c)) | Board(bb, Colored(Knight, c)) |
    Board(bb, Colored(Bishop, c)) | Board(bb, Colored(Queen, c)) | Board(bb, Colored(King, c))
  }

  // ---------------------------------------------------------------------
  // Only pieces of the attacking colour are reported.

  /** A generator result masked by a board that lies within `forces` lies
      within `forces`. */
  lemma MaskedWithin(moves: bv64, pieces: bv64, forces: bv64)
    requires pieces & !forces == 0
    ensures moves & pieces & !forces == 0
  {
  }

  /** The rook-and-queen and bishop-and-queen terms lie within the six
      boards. */
  lemma RookTermWithin(moves: bv64, p: bv64, r: bv64, n: bv64, b: bv64, q: bv64, k: bv64)
    ensures moves & (r | q) & !(p | r | n | b | q | k) == 0
  {
  }

  lemma BishopTermWithin(moves: bv64, p: bv64, r: bv64, n: bv64, b: bv64, q: bv64, k: bv64)
    ensures moves & (b | q) & !(p | r | n | b | q | k) == 0
  {
  }

  lemma UnionWithin(t1: bv64, t2: bv64, t3: bv64, t4: bv64, t5: bv64, forces: bv64)
    requires t1 & !forces == 0 && t2 & !forces == 0 && t3 & !forces == 0
    requires t4 & !forces == 0 && t5 & !forces == 0
    ensures (t1 | t2 | t3 | t4 | t5) & !forces == 0
  {
  }

  /** Each of six boards lies within their union. */
  lemma ForcesCover(p: bv64, r: bv64, n: bv64, b: bv64, q: bv64, k: bv64)
    ensures p & !(p | r | n | b | q | k) == 0 && r & !(p | r | n | b | q | k) == 0
    ensures n & !(p | r | n | b | q | k) == 0 && b & !(p | r | n | b | q | k) == 0
    ensures q & !(p | r | n | b | q | k) == 0 && k & !(p | r | n | b | q | k) == 0
  {
  }

  lemma PawnAttackersWithin(bb: Boards, c: Color, f: Coord, r: Coord)
    ensures PawnAttackers(bb, c, f, r) & !Forces(bb, c) == 0
  {
    ForcesCover(Board(bb, Colored(Pawn, c)), Board(bb, Colored(Rook, c)), Board(bb, Colored(Knight, c)),
      Board(bb, Colored(Bishop, c)), Board(bb, Colored(Queen, c)), Board(bb, Colored(King, c)));
    MaskedWithin(PawnAttacks(bb, Opposite(c), f, r), Board(bb, Colored(Pawn, c)), Forces(bb, c));
  }

  lemma RookAttackersWithin(bb: Boards, c: Color, f: Coord, r: Coord)
    ensures RookAttackers(bb, c, f, r) & !Forces(bb, c) == 0
  {
    RookTermWithin(RookMovesOf(bb, Opposite(c), f, r, All(bb)),
      Board(bb, Colored(Pawn, c)), Board(bb, Colored(Rook, c)), Board(bb, Colored(Knight, c)),
      Board(bb, Colored(Bishop, c)), Board(bb, Colored(Queen, c)), Board(bb, Colored(King, c)));
  }

  lemma KnightAttackersWithin(bb: Boards, c: Color, f: Coord, r: Coord)
    ensures KnightAttackers(bb, c, f, r) & !Forces(bb, c) == 0
  {
    ForcesCover(Board(bb, Colored(Pawn, c)), Board(bb, Colored(Rook, c)), Board(bb, Colored(Knight, c)),
      Board(bb, Colored(Bishop, c)), Board(bb, Colored(Queen, c)), Board(bb, Colored(King, c)));
    MaskedWithin(KnightMoves(bb, Opposite(c), f, r), Board(bb, Colored(Knight, c)), Forces(bb, c));
  }

  lemma BishopAttackersWithin(bb: Boards, c: Color, f: Coord, r: Coord)
    ensures BishopAttackers(bb, c, f, r) & !Forces(bb, c) == 0
  {
    BishopTermWithin(BishopMovesOf(bb, Opposite(c), f, r, All(bb)),
      Board(bb, Colored(Pawn, c)), Board(bb, Colored(Rook, c)), Board(bb, Colored(Knight, c)),
      Board(bb, Colored(Bishop, c)), Board(bb, Colored(Queen, c)), Board(bb, Colored(King, c)));
  }

  lemma KingAttackersWithin(bb: Boards, c: Color, f: Coord, r: Coord)
    ensures KingAttackers(bb, c, f, r) & !Forces(bb, c) == 0
  {
    ForcesCover(Board(bb, Colored(Pawn, c)), Board(bb, Colored(Rook, c)), Board(bb, Colored(Knight, c)),
      Board(bb, Colored(Bishop, c)), Board(bb, Colored(Queen, c)), Board(bb, Colored(King, c)));
    MaskedWithin(KingMoves(bb, Opposite(c), f, r), Board(bb, Colored(King, c)), Forces(bb, c));
  }

  /** `attackedBy<C>` only ever reports squares holding a piece of colour
      `c`. */
  lemma AttackersHaveColour(bb: Boards, c: Color, f: Coord, r: Coord)
    ensures AttackedBy(bb, c, f, r) & !Forces(bb, c) == 0
  {
    PawnAttackersWithin(bb, c, f, r);
    RookAttackersWithin(bb, c, f, r);
    KnightAttackersWithin(bb, c, f, r);
    BishopAttackersWithin(bb, c, f, r);
    KingAttackersWithin(bb, c, f, r);
    UnionWithin(PawnAttackers(bb, c, f, r), RookAttackers(bb, c, f, r), KnightAttackers(bb, c, f, r),
      BishopAttackers(bb, c, f, r), KingAttackers(bb, c, f, r), Forces(bb, c));
  }

  // ---------------------------------------------------------------------
  // Leapers that could move onto the square are reported.

  /** A bit of a board within another is a bit of the other. */
  lemma WithinBit(x: bv64, y: bv64, i: bv8)
    requires i < 64 && x & !y == 0 && Bit(x, i)
    ensures Bit(y, i)
  {
    BitAnd(x, !y, i);
    BitNot(y, i);
    BitZero(i);
  }

  lemma ThirdWithin(t1: bv64, t2: bv64, t3: bv64, t4: bv64, t5: bv64)
    ensures t3 & !(t1 | t2 | t3 | t4 | t5) == 0 && t1 & !(t1 | t2 | t3 | t4 | t5) == 0
    ensures t5 & !(t1 | t2 | t3 | t4 | t5) == 0
  {
  }

  /** The pawn, knight and king terms lie within `attackedBy`. */
  lemma LeaperTermsWithin(bb: Boards, c: Color, f: Coord, r: Coord)
    ensures PawnAttackers(bb, c, f, r) & !AttackedBy(bb, c, f, r) == 0
    ensures KnightAttackers(bb, c, f, r) & !AttackedBy(bb, c, f, r) == 0
    ensures KingAttackers(bb, c, f, r) & !AttackedBy(bb, c, f, r) == 0
  {
    ThirdWithin(PawnAttackers(bb, c, f, r), RookAttackers(bb, c, f, r), KnightAttackers(bb, c, f, r),
      BishopAttackers(bb, c, f, r), KingAttackers(bb, c, f, r));
  }

  /** A square of `own` is not a square of the other colour. */
  lemma OtherColourClear(bb: Boards, c: Color, i: bv8)
    requires i < 64 && Partitioned(bb) && Bit(Occupancy(bb, c), i)
    ensures !Bit(Occupancy(bb, Opposite(c)), i)
  {
    BitAnd(Occupancy(bb, White), Occupancy(bb, Black), i);
    BitZero(i);
  }

  /** A table square not of colour `o`, masked with the complement of `o`,
      stays. */
  lemma MaskedKeeps(table: bv64, o: bv64, pieces: bv64, i: bv8)
    requires i < 64 && Bit(table, i) && !Bit(o, i) && Bit(pieces, i)
    ensures Bit(table & !o & pieces, i)
  {
    BitAnd(table & !o, pieces, i);
    BitAnd(table, !o, i);
    BitNot(o, i);
  }

  /** A knight of colour `c` on (g, s) that could move onto (f, r) is
      reported as attacking (f, r). */
  lemma KnightAttacks(bb: Boards, c: Color, f: Coord, r: Coord, g: Coord, s: Coord)
    requires Partitioned(bb)
    requires Bit(Board(bb, Colored(Knight, c)), Index(g, s)) && Bit(Occupancy(bb, c), Index(g, s))
    requires Bit(KnightTable(g, s), Index(f, r))
    ensures Bit(AttackedBy(bb, c, f, r), Index(g, s))
  {
    var i := Index(g, s);
    KnightSymmetric(f, r, g, s);
    OtherColourClear(bb, c, i);
    MaskedKeeps(KnightTable(f, r), Occupancy(bb, Opposite(c)), Board(bb, Colored(Knight, c)), i);
    LeaperTermsWithin(bb, c, f, r);
    WithinBit(KnightAttackers(bb, c, f, r), AttackedBy(bb, c, f, r), i);
  }

  /** A king of colour `c` next to (f, r) is reported as attacking it. */
  lemma KingAttacks(bb: Boards, c: Color, f: Coord, r: Coord, g: Coord, s: Coord)
    requires Partitioned(bb)
    requires Bit(Board(bb, Colored(King, c)), Index(g, s)) && Bit(Occupancy(bb, c), Index(g, s))
    requires Bit(KingTable(g, s), Index(f, r))
    ensures Bit(AttackedBy(bb, c, f, r), Index(g, s))
  {
    var i := Index(g, s);
    KingSymmetric(f, r, g, s);
    OtherColourClear(bb, c, i);
    MaskedKeeps(KingTable(f, r), Occupancy(bb, Opposite(c)), Board(bb, Colored(King, c)), i);
    LeaperTermsWithin(bb, c, f, r);
    WithinBit(KingAttackers(bb, c, f, r), AttackedBy(bb, c, f, r), i);
  }

  /** The capture squares of a pawn of colour `c` on (g, s). */
  function PawnCaptureTable(c: Color, g: Coord, s: Coord): bv64
  {
    if c == White then WhitePawnAttacks(g, s) else BlackPawnAttacks(g, s)
  }

  /** The squares of `c` in an opposite pawn's capture table. */
  lemma PawnTermBit(table: bv64, own: bv64, pawns: bv64, i: bv8)
    requires i < 64 && Bit(table, i) && Bit(own, i) && Bit(pawns, i)
    ensures Bit(table & own & pawns, i)
  {
    BitAnd(table & own, pawns, i);
    BitAnd(table, own, i);
  }

  /** A pawn of colour `c` on (g, s) that could capture on (f, r) is
      reported as attacking (f, r). */
  lemma PawnAttacksFrom(bb: Boards, c: Color, f: Coord, r: Coord, g: Coord, s: Coord)
    requires Bit(Board(bb, Colored(Pawn, c)), Index(g, s)) && Bit(Occupancy(bb, c), Index(g, s))
    requires Bit(PawnCaptureTable(c, g, s), Index(f, r))
    ensures Bit(AttackedBy(bb, c, f, r), Index(g, s))
  {
    var i := Index(g, s);
    if c == White {
      PawnAttacksSymmetric(g, s, f, r);
      PawnTermBit(BlackPawnAttacks(f, r), Occupancy(bb, White), Board(bb, WPawn), i);
    } else {
      PawnAttacksSymmetric(f, r, g, s);
      PawnTermBit(WhitePawnAttacks(f, r), Occupancy(bb, Black), Board(bb, BPawn), i);
    }
    LeaperTermsWithin(bb, c, f, r);
    WithinBit(PawnAttackers(bb, c, f, r), AttackedBy(bb, c, f, r), i);
  }

  // ---------------------------------------------------------------------
  // Sliders with a clear line to the square are reported.

  lemma SecondFourthWithin(t1: bv64, t2: bv64, t3: bv64, t4: bv64, t5: bv64)
    ensures t2 & !(t1 | t2 | t3 | t4 | t5) == 0 && t4 & !(t1 | t2 | t3 | t4 | t5) == 0
  {
  }

  /** The rook-and-queen and bishop-and-queen terms lie within
      `attackedBy`. */
  lemma SliderTermsWithin(bb: Boards, c: Color, f: Coord, r: Coord)
    ensures RookAttackers(bb, c, f, r) & !AttackedBy(bb, c, f, r) == 0
    ensures BishopAttackers(bb, c, f, r) & !AttackedBy(bb, c, f, r) == 0
  {
    SecondFourthWithin(PawnAttackers(bb, c, f, r), RookAttackers(bb, c, f, r), KnightAttackers(bb, c, f, r),
      BishopAttackers(bb, c, f, r), KingAttackers(bb, c, f, r));
  }

  /** A square reached along one of two lines is reached by their union. */
  lemma EitherLine(a: bv64, b: bv64, i: bv8)
    requires i < 64 && (Bit(a, i) || Bit(b, i))
    ensures Bit(a | b, i)
  {
    BitOr(a, b, i);
  }

  /** `lineAttacks` along the file of (f, r) reaches (g, s) when nothing
      stands between them. */
  lemma FileReaches(occ: bv64, f: Coord, r: Coord, g: Coord, s: Coord)
    requires g == f && s != r
    requires Unobstructed(occ, FileLine, f, r, g, s)
    ensures Bit(LineAttacks(occ, FileRays(f, r)), Index(g, s))
  {
    FileRaysFit(f, r);
    FileRaysHalves(f, r);
    LineReaches(occ, FileRays(f, r), FileLine, f, r, g, s);
  }

  /** `lineAttacks` along the rank of (f, r) reaches (g, s) when nothing
      stands between them. */
  lemma RankReaches(occ: bv64, f: Coord, r: Coord, g: Coord, s: Coord)
    requires s == r && g != f
    requires Unobstructed(occ, RankLine, f, r, g, s)
    ensures Bit(LineAttacks(occ, RankRays(f, r)), Index(g, s))
  {
    RankRaysFit(f, r);
    RankRaysHalves(f, r);
    LineReaches(occ, RankRays(f, r), RankLine, f, r, g, s);
  }

  /** `lineAttacks` along the diagonal of (f, r) reaches (g, s) when nothing
      stands between them. */
  lemma DiagonalReaches(occ: bv64, f: Coord, r: Coord, g: Coord, s: Coord)
    requires f != g && Dist(f, g) == Dist(r, s) && (f < g) == (r < s)
    requires Unobstructed(occ, DiagonalLine, f, r, g, s)
    ensures Bit(LineAttacks(occ, DiagonalRays(f, r)), Index(g, s))
  {
    DiagonalRaysFit(f, r);
    DiagonalRaysHalves(f, r);
    LineReaches(occ, DiagonalRays(f, r), DiagonalLine, f, r, g, s);
  }

  /** `lineAttacks` along the anti-diagonal of (f, r) reaches (g, s) when nothing
      stands between them. */
  lemma AntiDiagonalReaches(occ: bv64, f: Coord, r: Coord, g: Coord, s: Coord)
    requires f != g && Dist(f, g) == Dist(r, s) && (f < g) != (r < s)
    requires Unobstructed(occ, AntiDiagonalLine, f, r, g, s)
    ensures Bit(LineAttacks(occ, AntiDiagonalRays(f, r)), Index(g, s))
  {
    AntiDiagonalRaysFit(f, r);
    AntiDiagonalRaysHalves(f, r);
    LineReaches(occ, AntiDiagonalRays(f, r), AntiDiagonalLine, f, r, g, s);
  }

  /** A square either line reaches is in the union of the two; stated over
      arbitrary rays so that the tables stay folded. */
  lemma EitherRays(occ: bv64, a: SquareRays, b: SquareRays, i: bv8)
    requires i < 64 && (Bit(LineAttacks(occ, a), i) || Bit(LineAttacks(occ, b), i))
    ensures Bit(LineAttacks(occ, a) | LineAttacks(occ, b), i)
  {
    EitherLine(LineAttacks(occ, a), LineAttacks(occ, b), i);
  }

  /** `rookMoves` reaches a square on the file or the rank with no
      occupied square in between. */
  lemma RookReaches(occ: bv64, f: Coord, r: Coord, g: Coord, s: Coord)
    requires (g == f) != (s == r)
    requires Unobstructed(occ, if g == f then FileLine else RankLine, f, r, g, s)
    ensures Bit(RookMoves(f, r, occ), Index(g, s))
  {
    if g == f {
      FileReaches(occ, f, r, g, s);
    } else {
      RankReaches(occ, f, r, g, s);
    }
    RookMovesBit(occ, f, r, Index(g, s));
  }

  lemma RookMovesBit(occ: bv64, f: Coord, r: Coord, i: bv8)
    requires i < 64
    requires Bit(LineAttacks(occ, FileRays(f, r)), i) || Bit(LineAttacks(occ, RankRays(f, r)), i)
    ensures Bit(RookMoves(f, r, occ), i)
  {
    EitherRays(occ, FileRays(f, r), RankRays(f, r), i);
  }

  /** `bishopMoves` reaches a square on a diagonal with no occupied square
      in between. */
  lemma BishopReaches(occ: bv64, f: Coord, r: Coord, g: Coord, s: Coord)
    requires f != g && Dist(f, g) == Dist(r, s)
    requires Unobstructed(occ, if (f < g) == (r < s) then DiagonalLine else AntiDiagonalLine, f, r, g, s)
    ensures Bit(BishopMoves(f, r, occ), Index(g, s))
  {
    if (f < g) == (r < s) {
      DiagonalReaches(occ, f, r, g, s);
    } else {
      AntiDiagonalReaches(occ, f, r, g, s);
    }
    BishopMovesBit(occ, f, r, Index(g, s));
  }

  lemma BishopMovesBit(occ: bv64, f: Coord, r: Coord, i: bv8)
    requires i < 64
    requires Bit(LineAttacks(occ, DiagonalRays(f, r)), i) || Bit(LineAttacks(occ, AntiDiagonalRays(f, r)), i)
    ensures Bit(BishopMoves(f, r, occ), i)
  {
    EitherRays(occ, DiagonalRays(f, r), AntiDiagonalRays(f, r), i);
  }

  /** A rook or queen of colour `c` that `rookMoves` reaches from (f, r) is
      kept by the rook term of `attackedBy`. */
  lemma RookTermBit(bb: Boards, c: Color, f: Coord, r: Coord, i: bv8)
    requires i < 64 && Partitioned(bb) && Bit(RookMoves(f, r, All(bb)), i)
    requires Bit(Board(bb, Colored(Rook, c)) | Board(bb, Colored(Queen, c)), i) && Bit(Occupancy(bb, c), i)
    ensures Bit(RookAttackers(bb, c, f, r), i)
  {
    OtherColourClear(bb, c, i);
    MaskedKeeps(RookMoves(f, r, All(bb)), Occupancy(bb, Opposite(c)),
      Board(bb, Colored(Rook, c)) | Board(bb, Colored(Queen, c)), i);
  }

  /** A bishop or queen of colour `c` that `bishopMoves` reaches from (f, r) is
      kept by the bishop term of `attackedBy`. */
  lemma BishopTermBit(bb: Boards, c: Color, f: Coord, r: Coord, i: bv8)
    requires i < 64 && Partitioned(bb) && Bit(BishopMoves(f, r, All(bb)), i)
    requires Bit(Board(bb, Colored(Bishop, c)) | Board(bb, Colored(Queen, c)), i) && Bit(Occupancy(bb, c), i)
    ensures Bit(BishopAttackers(bb, c, f, r), i)
  {
    OtherColourClear(bb, c, i);
    MaskedKeeps(BishopMoves(f, r, All(bb)), Occupancy(bb, Opposite(c)),
      Board(bb, Colored(Bishop, c)) | Board(bb, Colored(Queen, c)), i);
  }

  /** A rook or queen of colour `c` on the file or the rank of (f, r), with
      no occupied square between them, is reported as attacking (f, r). */
  lemma RookAttacks(bb: Boards, c: Color, f: Coord, r: Coord, g: Coord, s: Coord)
    requires Partitioned(bb) && (g == f) != (s == r)
    requires Bit(Board(bb, Colored(Rook, c)) | Board(bb, Colored(Queen, c)), Index(g, s))
    requires Bit(Occupancy(bb, c), Index(g, s))
    requires Unobstructed(All(bb), if g == f then FileLine else RankLine, f, r, g, s)
    ensures Bit(AttackedBy(bb, c, f, r), Index(g, s))
  {
    RookReaches(All(bb), f, r, g, s);
    RookTermBit(bb, c, f, r, Index(g, s));
    SliderTermsWithin(bb, c, f, r);
    WithinBit(RookAttackers(bb, c, f, r), AttackedBy(bb, c, f, r), Index(g, s));
  }

  /** A bishop or queen of colour `c` on a diagonal of (f, r), with no
      occupied square between them, is reported as attacking (f, r). */
  lemma BishopAttacks(bb: Boards, c: Color, f: Coord, r: Coord, g: Coord, s: Coord)
    requires Partitioned(bb) && f != g && Dist(f, g) == Dist(r, s)
    requires Bit(Board(bb, Colored(Bishop, c)) | Board(bb, Colored(Queen, c)), Index(g, s))
    requires Bit(Occupancy(bb, c), Index(g, s))
    requires Unobstructed(All(bb), if (f < g) == (r < s) then DiagonalLine else AntiDiagonalLine, f, r, g, s)
    ensures Bit(AttackedBy(bb, c, f, r), Index(g, s))
  {
    BishopReaches(All(bb), f, r, g, s);
    BishopTermBit(bb, c, f, r, Index(g, s));
    SliderTermsWithin(bb, c, f, r);
    WithinBit(BishopAttackers(bb, c, f, r), AttackedBy(bb, c, f, r), Index(g, s));
  }

  // ---------------------------------------------------------------------
  // `find<P>` and `inCheck<C>`.

  /** The file and rank of the lowest set bit of a non-empty board, as
      `find` computes them: with `loc = ffs(board) - 1`, the file
      `7 - (loc & 7)` and the rank `loc >> 3`. */
  function LowestSquare(b: bv64): (fr: (Coord, Coord))
    requires b != 0
    ensures Bit(b, Index(fr.0, fr.1)) && Clear(b, 0, Index(fr.0, fr.1))
  {
    var loc := Ffs(b) - 1;
    (7 - (loc & 7), loc >> 3)
  }

  /** `find<P>()`. For an empty board `ffs` gives 0, so `loc` is -1, and on
      two's-complement integers `7 - (-1 & 7)` is 0 and `-1 >> 3` is -1:
      the pair (0, -1), whose rank is outside the board. */
  function Find(bb: Boards, p: Piece): (fr: (int, int))
    ensures Board(bb, p) == 0 ==> fr == (0, -1)
    ensures Board(bb, p) != 0 ==>
      (0 <= fr.0 < 8 && 0 <= fr.1 < 8 &&
       Bit(Board(bb, p), Index(fr.0 as bv8, fr.1 as bv8)) &&
       Clear(Board(bb, p), 0, Index(fr.0 as bv8, fr.1 as bv8)))
  {
    if Board(bb, p) == 0 then (0, -1)
    else
      var fr := LowestSquare(Board(bb, p));
      (fr.0 as int, fr.1 as int)
  }

  /** `inCheck<C>()`: whether the opposite colour attacks the square `find`
      reports for the king of colour `c`. With no king of colour `c` the
      rank is -1 and the tables would be read out of bounds, so a king is
      required. */
  function InCheck(bb: Boards, c: Color): bool
    requires Board(bb, Colored(King, c)) != 0
  {
    var fr := LowestSquare(Board(bb, Colored(King, c)));
    AttackedBy(bb, Opposite(c), fr.0, fr.1) != 0
  }

  /** A position in check has an attacking piece of the other colour: some
      square holds a piece of the other side and is in the attacker set that
      `attackedBy` computes for the king's square. */
  lemma InCheckHasAttacker(bb: Boards, c: Color)
    requires Board(bb, Colored(King, c)) != 0 && InCheck(bb, c)
    ensures Forces(bb, Opposite(c)) != 0
    ensures exists i: bv8 | i < 64 :: Bit(KingAttackerSet(bb, c), i) && Bit(Forces(bb, Opposite(c)), i)
  {
    var fr := LowestSquare(Board(bb, Colored(King, c)));
    AttackersHaveColour(bb, Opposite(c), fr.0, fr.1);
    SharedBit(KingAttackerSet(bb, c), Forces(bb, Opposite(c)));
  }

  /** The pieces of the other colour that attack the king's square. */
  function KingAttackerSet(bb: Boards, c: Color): (x: bv64)
    requires Board(bb, Colored(King, c)) != 0
    ensures InCheck(bb, c) <==> x != 0
  {
    var fr := LowestSquare(Board(bb, Colored(King, c)));
    AttackedBy(bb, Opposite(c), fr.0, fr.1)
  }

  /** A knight of the other colour that could move onto the king's square
      gives check. */
  lemma KnightGivesCheck(bb: Boards, c: Color, g: Coord, s: Coord)
    requires Partitioned(bb) && Board(bb, Colored(King, c)) != 0
    requires Bit(Board(bb, Colored(Knight, Opposite(c))), Index(g, s)) && Bit(Occupancy(bb, Opposite(c)), Index(g, s))
    requires Bit(KnightTable(g, s), Index(LowestSquare(Board(bb, Colored(King, c))).0, LowestSquare(Board(bb, Colored(King, c))).1))
    ensures InCheck(bb, c)
  {
    var fr := LowestSquare(Board(bb, Colored(King, c)));
    KnightAttacks(bb, Opposite(c), fr.0, fr.1, g, s);
    BitZero(Index(g, s));
  }

  /** A rook or queen of the other colour on the file or rank of the king
      on (f, r), with nothing between them, gives check. */
  lemma RookGivesCheck(bb: Boards, c: Color, f: Coord, r: Coord, g: Coord, s: Coord)
    requires Partitioned(bb) && Board(bb, Colored(King, c)) != 0
    requires LowestSquare(Board(bb, Colored(King, c))) == (f, r)
    requires (g == f) != (s == r) && Unobstructed(All(bb), if g == f then FileLine else RankLine, f, r, g, s)
    requires Bit(Board(bb, Colored(Rook, Opposite(c))) | Board(bb, Colored(Queen, Opposite(c))), Index(g, s))
    requires Bit(Occupancy(bb, Opposite(c)), Index(g, s))
    ensures InCheck(bb, c)
  {
    RookAttacks(bb, Opposite(c), f, r, g, s);
    BitZero(Index(g, s));
  }

  /** A bishop or queen of the other colour on a diagonal of the king on
      (f, r), with nothing between them, gives check. */
  lemma BishopGivesCheck(bb: Boards, c: Color, f: Coord, r: Coord, g: Coord, s: Coord)
    requires Partitioned(bb) && Board(bb, Colored(King, c)) != 0
    requires LowestSquare(Board(bb, Colored(King, c))) == (f, r)
    requires f != g && Dist(f, g) == Dist(r, s)
    requires Unobstructed(All(bb), if (f < g) == (r < s) then DiagonalLine else AntiDiagonalLine, f, r, g, s)
    requires Bit(Board(bb, Colored(Bishop, Opposite(c))) | Board(bb, Colored(Queen, Opposite(c))), Index(g, s))
    requires Bit(Occupancy(bb, Opposite(c)), Index(g, s))
    ensures InCheck(bb, c)
  {
    BishopAttacks(bb, Opposite(c), f, r, g, s);
    BitZero(Index(g, s));
  }
}
