// Concrete positions that exercise the model of chess/Board.h: a rook
// giving check down an open file, the same check blocked by any piece
// between, the boards of the default constructor, which do not describe the
// starting position, and the standard FEN read by `set()`.
module Scenarios {
  import opened Bits
  import opened Pieces
  import opened Tables
  import opened Attacks
  import opened Position
  import opened Checks
  import opened Placement
  import opened Fen
  import Chessboard

  /** A white king on e1 and a black rook on e8, with the white pawns on
      `blocker`. */
  function EFile(blocker: bv64): Boards
  {
    var white: bv64 := 0x08 | blocker;
    var black: bv64 := 0x0800_0000_0000_0000;
    [white, blocker, 0, 0, 0, 0, 0x08, !white & !black, black, 0, 0, black, 0, 0, 0]
  }

  /** A rook on e1 with only the rook on e8 on its file sees the whole file
      and the first rank. */
  lemma EFileOpen()
    ensures RookMoves(4, 0, 0x0800_0000_0000_0008) == 0x0808_0808_0808_08F7
  {
    assert FileRays(4, 0) == SquareRays(0, 0x0808_0808_0808_0800, 0x0808_0808_0808_0800);
    assert RankRays(4, 0) == SquareRays(0x07, 0xF0, 0xF7);
    Ms1BEmpty(0);
  }

  /** `find` reports e1 for a king on bit 3. */
  lemma KingOnE1(king: bv64)
    requires king == 0x08
    ensures LowestSquare(king) == (4, 0)
  {
  }

  /** A black rook or queen that sees the white king's square gives check. */
  lemma WhiteCheckedByRook(bb: Boards, f: Coord, r: Coord)
    requires Board(bb, WKing) != 0 && LowestSquare(Board(bb, WKing)) == (f, r)
    requires RookAttackers(bb, Black, f, r) != 0
    ensures Board(bb, Colored(King, White)) != 0 && InCheck(bb, White)
  {
    ColoredPieces();
    OrNonZero(PawnAttackers(bb, Black, f, r), RookAttackers(bb, Black, f, r), KnightAttackers(bb, Black, f, r),
      BishopAttackers(bb, Black, f, r), KingAttackers(bb, Black, f, r));
  }

  /** One non-empty term makes the union non-empty. Stated on five plain
      words so that the lemmas about `attackedBy` need not unfold it. */
  lemma OrNonZero(a: bv64, b: bv64, c: bv64, d: bv64, e: bv64)
    requires b != 0
    ensures a | b | c | d | e != 0
  {
  }

  /** The rook term of `attackedBy` on the open e-file. */
  lemma RookTerm(x: bv64, m: bv64, moves: bv64, own: bv64, rooks: bv64, queens: bv64)
    requires x == m & (rooks | queens) && m == moves & !own
    requires moves == 0x0808_0808_0808_08F7 && own == 0x08 && rooks == 0x0800_0000_0000_0000 && queens == 0
    ensures x != 0
  {
  }

  /** The rook generator of one colour. */
  lemma RookMovesOfUnfold(bb: Boards, c: Color, f: Coord, r: Coord, occ: bv64)
    ensures RookMovesOf(bb, c, f, r, occ) == RookMoves(f, r, occ) & !Occupancy(bb, c)
  {
  }

  /** Any boards with the king on e1 and the rook on e8, nothing between
      them, are check for white. */
  lemma RookChecks(bb: Boards)
    requires Board(bb, WKing) == 0x08 && Occupancy(bb, White) == 0x08
    requires Board(bb, BRook) == 0x0800_0000_0000_0000 && Board(bb, BQueen) == 0
    requires All(bb) == 0x0800_0000_0000_0008
    ensures Board(bb, WKing) != 0 && InCheck(bb, White)
  {
    KingOnE1(Board(bb, WKing));
    EFileOpen();
    ColoredPieces();
    OppositeInvolution(Black);
    RookMovesOfUnfold(bb, Opposite(Black), 4, 0, All(bb));
    RookTerm(RookAttackers(bb, Black, 4, 0), RookMovesOf(bb, Opposite(Black), 4, 0, All(bb)), RookMoves(4, 0, All(bb)),
      Occupancy(bb, Opposite(Black)), Board(bb, Colored(Rook, Black)), Board(bb, Colored(Queen, Black)));
    WhiteCheckedByRook(bb, 4, 0);
  }

  /** With the e-file open the white king is in check. */
  lemma RookOnE8Checks()
    ensures Board(EFile(0), WKing) != 0 && InCheck(EFile(0), White)
  {
    RookChecks(EFile(0));
  }

  /** The squares e2 to e7, between the king on e1 and the rook on e8. */
  const BetweenE1E8: bv64 := 0x0008_0808_0808_0800

  /** The squares (4, k) for k from 1 to 6 are the squares e2 .. e7. */
  lemma BlockerBetween(k: Coord)
    requires 1 <= k <= 6
    ensures Sq(Index(4, k)) & !BetweenE1E8 == 0
  {
    match k
    case 1 => assert Sq(Index(4, k)) == 0x0800;
    case 2 => assert Sq(Index(4, k)) == 0x08_0000;
    case 3 => assert Sq(Index(4, k)) == 0x0800_0000;
    case 4 => assert Sq(Index(4, k)) == 0x08_0000_0000;
    case 5 => assert Sq(Index(4, k)) == 0x0800_0000_0000;
    case 6 => assert Sq(Index(4, k)) == 0x08_0000_0000_0000;
  }

  /** A piece on e2 .. e7 stops the rook's file below e8: with the king on
      e1, the rook on e8 and the blocker on (4, k), the rook generator of
      e1 does not reach e8. */
  lemma EFileBlocked(k: Coord)
    requires 1 <= k <= 6
    ensures RookMoves(4, 0, 0x0800_0000_0000_0008 | Sq(Index(4, k))) & 0x0800_0000_0000_0000 == 0
  {
    assert FileRays(4, 0) == SquareRays(0, 0x0808_0808_0808_0800, 0x0808_0808_0808_0800);
    assert RankRays(4, 0) == SquareRays(0x07, 0xF0, 0xF7);
    Ms1BEmpty(0);
    match k
    case 1 =>
      assert Sq(Index(4, k)) == 0x0800;
      assert RookMoves(4, 0, 0x0800_0000_0000_0808) == 0x0000_0000_0000_08F7;
    case 2 =>
      assert Sq(Index(4, k)) == 0x08_0000;
      assert RookMoves(4, 0, 0x0800_0000_0008_0008) == 0x0000_0000_0008_08F7;
    case 3 =>
      assert Sq(Index(4, k)) == 0x0800_0000;
      assert RookMoves(4, 0, 0x0800_0000_0800_0008) == 0x0000_0000_0808_08F7;
    case 4 =>
      assert Sq(Index(4, k)) == 0x08_0000_0000;
      assert RookMoves(4, 0, 0x0800_0008_0000_0008) == 0x0000_0008_0808_08F7;
    case 5 =>
      assert Sq(Index(4, k)) == 0x0800_0000_0000;
      assert RookMoves(4, 0, 0x0800_0800_0000_0008) == 0x0000_0808_0808_08F7;
    case 6 =>
      assert Sq(Index(4, k)) == 0x08_0000_0000_0000;
      assert RookMoves(4, 0, 0x0808_0000_0000_0008) == 0x0008_0808_0808_08F7;
  }

  /** The pawn capture, knight and bishop tables of e1 miss the e-file. */
  lemma E1TablesMissFile()
    ensures WhitePawnAttacks(4, 0) & BetweenE1E8 == 0
    ensures KnightTable(4, 0) & BetweenE1E8 == 0
    ensures BishopTable(4, 0) & BetweenE1E8 == 0
  {
  }

  /** The bishop generator from e1 stays within the bishop table of e1. */
  lemma E1BishopWithinTable(bb: Boards)
    ensures BishopMovesOf(bb, White, 4, 0, All(bb)) & !BishopTable(4, 0) == 0
  {
    BishopTableLines(4, 0);
    LineAttacksWithinLine(All(bb), DiagonalRays(4, 0));
    LineAttacksWithinLine(All(bb), AntiDiagonalRays(4, 0));
  }

  /** The bishop term of `attackedBy` for white's king, one step unfolded. */
  lemma BishopAttackersUnfold(bb: Boards, f: Coord, r: Coord)
    ensures BishopAttackers(bb, Black, f, r) == BishopMovesOf(bb, White, f, r, All(bb)) & (Board(bb, BBishop) | Board(bb, BQueen))
  {
    ColoredPieces();
  }

  /** A term whose generator stays inside `table` and whose pieces stay
      inside `square`, a square of `file`, with `table` and `file` apart,
      is empty. */
  lemma TermOffFile(term: bv64, moves: bv64, pieces: bv64, table: bv64, square: bv64, file: bv64)
    requires term == moves & pieces
    requires moves & !table == 0 && table & file == 0 && pieces & !square == 0 && square & !file == 0
    ensures term == 0
  {
  }

  /** The rook term of `attackedBy` when the rook generator misses the
      rook. */
  lemma RookBlockedTerm(x: bv64, m: bv64, moves: bv64, own: bv64, rooks: bv64, queens: bv64)
    requires x == m & (rooks | queens) && m == moves & !own
    requires moves & 0x0800_0000_0000_0000 == 0 && rooks == 0x0800_0000_0000_0000 && queens == 0
    ensures x == 0
  {
  }

  /** A term masked with an empty piece board is empty. Stated on plain
      words so that its callers keep the board functions folded. */
  lemma MaskZero(x: bv64, m: bv64, p: bv64)
    requires x == m & p && p == 0
    ensures x == 0
  {
  }

  /** With every term of `attackedBy` empty the white king is not in check. */
  lemma WhiteNotChecked(bb: Boards, f: Coord, r: Coord)
    requires Board(bb, WKing) != 0 && LowestSquare(Board(bb, WKing)) == (f, r)
    requires PawnAttackers(bb, Black, f, r) == 0 && RookAttackers(bb, Black, f, r) == 0
    requires KnightAttackers(bb, Black, f, r) == 0 && BishopAttackers(bb, Black, f, r) == 0
    requires KingAttackers(bb, Black, f, r) == 0
    ensures Board(bb, Colored(King, White)) != 0 && !InCheck(bb, White)
  {
    ColoredPieces();
    OrZero(PawnAttackers(bb, Black, f, r), RookAttackers(bb, Black, f, r), KnightAttackers(bb, Black, f, r),
      BishopAttackers(bb, Black, f, r), KingAttackers(bb, Black, f, r));
  }

  /** A union of empty terms is empty. Stated on five plain words so that
      `WhiteNotChecked` need not unfold the five terms of `attackedBy`. */
  lemma OrZero(a: bv64, b: bv64, c: bv64, d: bv64, e: bv64)
    requires a == 0 && b == 0 && c == 0 && d == 0 && e == 0
    ensures a | b | c | d | e == 0
  {
  }

  /** The rook term of e1 is empty once the file is blocked below e8. */
  lemma BlockedRookTerm(bb: Boards, k: Coord)
    requires 1 <= k <= 6
    requires Board(bb, BRook) == 0x0800_0000_0000_0000 && Board(bb, BQueen) == 0
    requires All(bb) == 0x0800_0000_0000_0008 | Sq(Index(4, k))
    ensures RookAttackers(bb, Black, 4, 0) == 0
  {
    BlackRookAttackersUnfold(bb);
    EFileBlockedAll(bb, k);
    RookMovesOfUnfold(bb, White, 4, 0, All(bb));
    RookBlockedTerm(RookAttackers(bb, Black, 4, 0), RookMovesOf(bb, White, 4, 0, All(bb)), RookMoves(4, 0, All(bb)),
      Occupancy(bb, White), Board(bb, BRook), Board(bb, BQueen));
  }

  /** The black rook term of e1, with the colours resolved. */
  lemma BlackRookAttackersUnfold(bb: Boards)
    ensures RookAttackers(bb, Black, 4, 0) == RookMovesOf(bb, White, 4, 0, All(bb)) & (Board(bb, BRook) | Board(bb, BQueen))
  {
    ColoredPieces();
  }

  /** `EFileBlocked` for boards whose occupancy is the blocked e-file. */
  lemma EFileBlockedAll(bb: Boards, k: Coord)
    requires 1 <= k <= 6 && All(bb) == 0x0800_0000_0000_0008 | Sq(Index(4, k))
    ensures RookMoves(4, 0, All(bb)) & 0x0800_0000_0000_0000 == 0
  {
    EFileBlocked(k);
  }

  /** The black pawn term of e1, with the colours resolved; it lies within
      the white pawn table of e1. */
  lemma BlackPawnAttackersUnfold(bb: Boards)
    ensures PawnAttackers(bb, Black, 4, 0) == PawnAttacks(bb, White, 4, 0) & Board(bb, BPawn)
    ensures PawnAttacks(bb, White, 4, 0) & !WhitePawnAttacks(4, 0) == 0
  {
    ColoredPieces();
  }

  /** The black knight term of e1, with the colours resolved; it lies
      within the knight table of e1. */
  lemma BlackKnightAttackersUnfold(bb: Boards)
    ensures KnightAttackers(bb, Black, 4, 0) == KnightMoves(bb, White, 4, 0) & Board(bb, BKnight)
    ensures KnightMoves(bb, White, 4, 0) & !KnightTable(4, 0) == 0
  {
    ColoredPieces();
  }

  /** The pawn term of e1 is empty when black pawns stand only on the
      blocker's square. */
  lemma BlockedPawnTerm(bb: Boards, k: Coord)
    requires 1 <= k <= 6 && Board(bb, BPawn) & !Sq(Index(4, k)) == 0
    ensures PawnAttackers(bb, Black, 4, 0) == 0
  {
    BlackPawnAttackersUnfold(bb);
    BlockerBetween(k);
    E1TablesMissFile();
    TermOffFile(PawnAttackers(bb, Black, 4, 0), PawnAttacks(bb, White, 4, 0),
      Board(bb, BPawn), WhitePawnAttacks(4, 0), Sq(Index(4, k)), BetweenE1E8);
  }

  /** The knight term of e1 is empty when black knights stand only on the
      blocker's square. */
  lemma BlockedKnightTerm(bb: Boards, k: Coord)
    requires 1 <= k <= 6 && Board(bb, BKnight) & !Sq(Index(4, k)) == 0
    ensures KnightAttackers(bb, Black, 4, 0) == 0
  {
    BlackKnightAttackersUnfold(bb);
    BlockerBetween(k);
    E1TablesMissFile();
    TermOffFile(KnightAttackers(bb, Black, 4, 0), KnightMoves(bb, White, 4, 0),
      Board(bb, BKnight), KnightTable(4, 0), Sq(Index(4, k)), BetweenE1E8);
  }

  /** The bishop term of e1 is empty when black bishops stand only on the
      blocker's square and there is no black queen. */
  lemma BlockedBishopTerm(bb: Boards, k: Coord)
    requires 1 <= k <= 6 && Board(bb, BBishop) & !Sq(Index(4, k)) == 0 && Board(bb, BQueen) == 0
    ensures BishopAttackers(bb, Black, 4, 0) == 0
  {
    BlockerBetween(k);
    E1TablesMissFile();
    E1BishopWithinTable(bb);
    BishopAttackersUnfold(bb, 4, 0);
    TermOffFile(BishopAttackers(bb, Black, 4, 0), BishopMovesOf(bb, White, 4, 0, All(bb)),
      Board(bb, BBishop) | Board(bb, BQueen), BishopTable(4, 0), Sq(Index(4, k)), BetweenE1E8);
  }

  /** Any boards with the king on e1, the rook on e8 and one more piece on
      the e-file between them are not check for white. The blocker may be
      of either colour: any white piece, or a black pawn, knight or bishop.
      A black king is excluded (the boards hold none), and a black rook or
      queen on the file would itself attack e1. */
  lemma RookBlocked(bb: Boards, k: Coord)
    requires 1 <= k <= 6
    requires Board(bb, WKing) == 0x08
    requires Board(bb, BRook) == 0x0800_0000_0000_0000 && Board(bb, BQueen) == 0 && Board(bb, BKing) == 0
    requires Board(bb, BPawn) & !Sq(Index(4, k)) == 0 && Board(bb, BKnight) & !Sq(Index(4, k)) == 0
    requires Board(bb, BBishop) & !Sq(Index(4, k)) == 0
    requires All(bb) == 0x0800_0000_0000_0008 | Sq(Index(4, k))
    ensures Board(bb, WKing) != 0 && !InCheck(bb, White)
  {
    BlockedRookTerm(bb, k);
    BlockedPawnTerm(bb, k);
    BlockedKnightTerm(bb, k);
    BlockedBishopTerm(bb, k);
    ColoredPieces();
    MaskZero(KingAttackers(bb, Black, 4, 0), KingMoves(bb, White, 4, 0), Board(bb, BKing));
    KingOnE1(Board(bb, WKing));
    WhiteNotChecked(bb, 4, 0);
  }

  /** The boards of `EFile`, piece by piece. */
  lemma EFileBoards(blocker: bv64)
    ensures Board(EFile(blocker), WKing) == 0x08
    ensures Board(EFile(blocker), BRook) == 0x0800_0000_0000_0000
    ensures Board(EFile(blocker), BQueen) == 0 && Board(EFile(blocker), BKing) == 0
    ensures Board(EFile(blocker), BPawn) == 0 && Board(EFile(blocker), BKnight) == 0
    ensures Board(EFile(blocker), BBishop) == 0
    ensures All(EFile(blocker)) == 0x0800_0000_0000_0008 | blocker
  {
  }

  /** A white pawn on e4 shields the king from the rook. */
  lemma PawnOnE4Blocks()
    ensures Board(EFile(0x0800_0000), WKing) != 0 && !InCheck(EFile(0x0800_0000), White)
  {
    EFileBoards(0x0800_0000);
    assert Sq(Index(4, 3)) == 0x0800_0000;
    RookBlocked(EFile(0x0800_0000), 3);
  }

  /** A white king on e1, a black rook on e8 and a black knight on e6. */
  function KnightOnE6(): Boards
  {
    var white: bv64 := 0x08;
    var black: bv64 := 0x0800_0800_0000_0000;
    [white, 0, 0, 0, 0, 0, 0x08, !white & !black, black, 0, 0x0000_0800_0000_0000, 0x0800_0000_0000_0000, 0, 0, 0]
  }

  /** A black knight on e6 shields the white king from its own rook. */
  lemma KnightOnE6Blocks()
    ensures Board(KnightOnE6(), WKing) != 0 && !InCheck(KnightOnE6(), White)
  {
    assert Sq(Index(4, 5)) == 0x0800_0000_0000;
    RookBlocked(KnightOnE6(), 5);
  }

  /** Two different pieces on one square: no placement has such boards. */
  lemma SharedSquareNotWellFormed(bb: Boards, p: Piece, q: Piece, i: bv8)
    requires i < 64 && p != q
    requires Bit(Board(bb, p), i) && Bit(Board(bb, q), i)
    ensures !WellFormed(bb)
  {
    PlaceBoards(Contents(bb), i);
  }

  /** Bit 63 (a8) is set in the black king and black rook boards of the
      default constructor. A separate lemma on the literal word, so that
      `StartingNotWellFormed` need not evaluate the whole constant. */
  lemma HighBit(x: bv64)
    requires x == 0x8000_0000_0000_0000 || x == 0x8100_0000_0000_0000
    ensures Bit(x, 63)
  {
  }

  /** The default constructor's boards put the black king on a8, where a
      black rook already is. */
  lemma StartingNotWellFormed()
    ensures Bit(Board(Chessboard.StartingPosition(), BKing), 63) && Bit(Board(Chessboard.StartingPosition(), BRook), 63)
    ensures !WellFormed(Chessboard.StartingPosition())
  {
    HighBit(Board(Chessboard.StartingPosition(), BKing));
    HighBit(Board(Chessboard.StartingPosition(), BRook));
    SharedSquareNotWellFormed(Chessboard.StartingPosition(), BKing, BRook, 63);
  }

  /** The white occupancy and white pawn boards of the default constructor
      share no square. */
  lemma DisjointBoards(own: bv64, pawns: bv64)
    requires own == 0xFFFF_0000_0000_0000 && pawns == 0xFF00
    ensures pawns != 0 && own & pawns == 0
  {
  }

  /** In the default constructor's boards the white pawns lie outside the
      white occupancy board. */
  lemma StartingColoursSwapped()
    ensures Board(Chessboard.StartingPosition(), WPawn) != 0
    ensures Occupancy(Chessboard.StartingPosition(), White) & Board(Chessboard.StartingPosition(), WPawn) == 0
  {
    DisjointBoards(Occupancy(Chessboard.StartingPosition(), White), Board(Chessboard.StartingPosition(), WPawn));
  }

  // ---------------------------------------------------------------------
  // The starting position through `set()`.

  /** The piece on square `i` of the standard starting position: the white
      back rank h1 .. a1, the white pawns, four empty ranks, the black
      pawns and the black back rank h8 .. a8. */
  function StartPiece(i: int): Piece
    requires 0 <= i < 64
  {
    if i < 8 then [WRook, WKnight, WBishop, WKing, WQueen, WBishop, WKnight, WRook][i]
    else if i < 16 then WPawn
    else if i < 48 then None
    else if i < 56 then BPawn
    else [BRook, BKnight, BBishop, BKing, BQueen, BBishop, BKnight, BRook][i - 56]
  }

  /** The standard starting placement. */
  function StandardSquares(): Squares
  {
    seq(64, i requires 0 <= i < 64 => StartPiece(i))
  }

  /** The starting position in Forsyth–Edwards Notation. */
  const StandardFen: string := "rnbqkbnr/pppppppp/8/8/8/8/PPPPPPPP/RNBQKBNR w KQkq - 0 1"

  /** `cs` holds the starting placement. */
  predicate IsStandard(cs: Squares)
  {
    forall i | 0 <= i < 64 :: cs[i] == StartPiece(i)
  }

  /** A rank of eight pieces above rank 1, with its letters from file a to
      file h. */
  lemma PieceRankText(cs: Squares, r: int, letters: string)
    requires 1 <= r < 8 && forall j | 8 * r <= j < 8 * r + 8 :: cs[j] != None
    requires letters == [PieceChar(cs[8 * r + 7]), PieceChar(cs[8 * r + 6]), PieceChar(cs[8 * r + 5]), PieceChar(cs[8 * r + 4]),
                         PieceChar(cs[8 * r + 3]), PieceChar(cs[8 * r + 2]), PieceChar(cs[8 * r + 1]), PieceChar(cs[8 * r])]
    ensures PlacementText(cs, 8 * r + 7, 0) == letters + "/" + PlacementText(cs, 8 * r - 1, 0)
  {
    var below := PlacementText(cs, 8 * r - 1, 0);
    assert PlacementText(cs, 8 * r + 7, 0) == letters + (Slash(8 * r) + below) by {
      FullRankText(cs, r);
    }
    assert Slash(8 * r) == "/" by {
      OnRank(r, 0);
    }
    Associative(letters, "/", below);
  }

  /** Rank 1 of the starting placement. */
  lemma StandardRank1Text(cs: Squares)
    requires IsStandard(cs)
    ensures PlacementText(cs, 7, 0) == "RNBQKBNR"
  {
    FullRankText(cs, 0);
  }

  /** Rank 2 of the starting placement. */
  lemma StandardRank2Text(cs: Squares)
    requires IsStandard(cs)
    ensures PlacementText(cs, 15, 0) == "PPPPPPPP" + "/" + PlacementText(cs, 7, 0)
  {
    assert forall j | 8 <= j < 16 :: cs[j] == WPawn;
    assert PieceChar(WPawn) == 'P';
    PieceRankText(cs, 1, "PPPPPPPP");
  }

  /** Ranks 3 to 6 of the starting placement. */
  lemma StandardEmptyRankText(cs: Squares, r: int)
    requires IsStandard(cs) && 2 <= r <= 5
    ensures PlacementText(cs, 8 * r + 7, 0) == "8" + "/" + PlacementText(cs, 8 * r - 1, 0)
  {
    var below := PlacementText(cs, 8 * r - 1, 0);
    assert PlacementText(cs, 8 * r + 7, 0) == ['8'] + Slash(8 * r) + below by {
      assert forall j | 8 * r <= j < 8 * r + 8 :: cs[j] == None;
      EmptyRankText(cs, r);
    }
    assert Slash(8 * r) == "/" by {
      OnRank(r, 0);
    }
  }

  /** Rank 7 of the starting placement. */
  lemma StandardRank7Text(cs: Squares)
    requires IsStandard(cs)
    ensures PlacementText(cs, 55, 0) == "pppppppp" + "/" + PlacementText(cs, 47, 0)
  {
    assert forall j | 48 <= j < 56 :: cs[j] == BPawn;
    assert PieceChar(BPawn) == 'p';
    PieceRankText(cs, 6, "pppppppp");
  }

  /** Rank 8 of the starting placement. */
  lemma StandardRank8Text(cs: Squares)
    requires IsStandard(cs)
    ensures PlacementText(cs, 63, 0) == "rnbqkbnr" + "/" + PlacementText(cs, 55, 0)
  {
    PieceRankText(cs, 7, "rnbqkbnr");
  }

  /** The ranks' texts, joined from rank 8 down to rank 1: one lemma per
      step keeps each string comparison small. */
  lemma JoinWhite(t1: string, t2: string, t3: string)
    requires t1 == "RNBQKBNR" && t2 == "PPPPPPPP" + "/" + t1 && t3 == "8" + "/" + t2
    ensures t3 == "8/PPPPPPPP/RNBQKBNR"
  {
    assert t2 == "PPPPPPPP/RNBQKBNR";
  }

  /** Ranks 4 to 6, all empty, on top of the text of ranks 1 to 3. */
  lemma JoinEmpty(t3: string, t4: string, t5: string, t6: string)
    requires t3 == "8/PPPPPPPP/RNBQKBNR" && t4 == "8" + "/" + t3 && t5 == "8" + "/" + t4 && t6 == "8" + "/" + t5
    ensures t6 == "8/8/8/8/PPPPPPPP/RNBQKBNR"
  {
    assert t4 == "8/8/PPPPPPPP/RNBQKBNR";
  }

  /** Rank 7, the black pawns, on top of ranks 1 to 6. */
  lemma JoinBlack(t6: string, t7: string)
    requires t6 == "8/8/8/8/PPPPPPPP/RNBQKBNR" && t7 == "pppppppp" + "/" + t6
    ensures t7 == "pppppppp/8/8/8/8/PPPPPPPP/RNBQKBNR"
  {
  }

  /** Rank 8, the black pieces, on top of ranks 1 to 7. */
  lemma JoinTop(t7: string, t8: string)
    requires t7 == "pppppppp/8/8/8/8/PPPPPPPP/RNBQKBNR" && t8 == "rnbqkbnr" + "/" + t7
    ensures t8 == "rnbqkbnr/pppppppp/8/8/8/8/PPPPPPPP/RNBQKBNR"
  {
  }

  /** The side-to-move field after the placement. */
  lemma JoinTurn(t8: string)
    requires t8 == "rnbqkbnr/pppppppp/8/8/8/8/PPPPPPPP/RNBQKBNR"
    ensures t8 + " " + "w" == "rnbqkbnr/pppppppp/8/8/8/8/PPPPPPPP/RNBQKBNR w"
  {
  }

  /** Ranks 1 to 3 of the starting placement. */
  lemma StandardLowerText(cs: Squares)
    requires IsStandard(cs)
    ensures PlacementText(cs, 23, 0) == "8/PPPPPPPP/RNBQKBNR"
  {
    StandardRank1Text(cs);
    StandardRank2Text(cs);
    StandardEmptyRankText(cs, 2);
    JoinWhite(PlacementText(cs, 7, 0), PlacementText(cs, 15, 0), PlacementText(cs, 23, 0));
  }

  /** Ranks 1 to 6 of the starting placement. */
  lemma StandardMiddleText(cs: Squares)
    requires IsStandard(cs)
    ensures PlacementText(cs, 47, 0) == "8/8/8/8/PPPPPPPP/RNBQKBNR"
  {
    StandardLowerText(cs);
    StandardEmptyRankText(cs, 3);
    StandardEmptyRankText(cs, 4);
    StandardEmptyRankText(cs, 5);
    JoinEmpty(PlacementText(cs, 23, 0), PlacementText(cs, 31, 0), PlacementText(cs, 39, 0), PlacementText(cs, 47, 0));
  }

  /** The two fields `fen()` writes for the starting placement. */
  lemma StandardFenText(cs: Squares)
    requires IsStandard(cs)
    ensures FenText(cs, White) == "rnbqkbnr/pppppppp/8/8/8/8/PPPPPPPP/RNBQKBNR w"
  {
    StandardMiddleText(cs);
    StandardRank7Text(cs);
    StandardRank8Text(cs);
    JoinBlack(PlacementText(cs, 47, 0), PlacementText(cs, 55, 0));
    JoinTop(PlacementText(cs, 55, 0), PlacementText(cs, 63, 0));
    JoinTurn(PlacementText(cs, 63, 0));
  }

  /** The sequence built square by square holds the starting placement. */
  lemma StandardSquaresStandard()
    ensures IsStandard(StandardSquares())
  {
  }

  /** The fields after the side to move. */
  lemma JoinFen(t: string)
    requires t == "rnbqkbnr/pppppppp/8/8/8/8/PPPPPPPP/RNBQKBNR w"
    ensures StandardFen == t + " KQkq - 0 1"
  {
  }

  /** `set()` reads the standard FEN as the starting placement with white to
      move, and `fen()` writes its first two fields back. */
  lemma StandardDecode()
    ensures Decode(StandardFen) == Decoded(StandardSquares(), White)
    ensures FenText(Contents(Place(StandardSquares())), White) == "rnbqkbnr/pppppppp/8/8/8/8/PPPPPPPP/RNBQKBNR w"
  {
    var cs := StandardSquares();
    StandardSquaresStandard();
    StandardFenText(cs);
    JoinFen(FenText(cs, White));
    SetThenFen(cs, White, " KQkq - 0 1");
  }

  /** A board set from the standard FEN holds the starting placement, white
      to move, and writes the standard FEN's first two fields. */
  method StandardBoard() returns (board: Chessboard.Board, s: string)
    ensures fresh(board)
    ensures board.bitboards == Place(StandardSquares()) && board.turn == White
    ensures s == "rnbqkbnr/pppppppp/8/8/8/8/PPPPPPPP/RNBQKBNR w"
  {
    StandardDecode();
    board := new Chessboard.Board.FromFen(StandardFen);
    s := board.Fen();
  }
}
