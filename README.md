# Chess board model

A Dafny model of the board of a small bitboard chess engine: the piece, file
and rank enumerations (`chess/Piece.h`, `chess/File.h`, `chess/Rank.h`) and
the class `Board` of `chess/Board.h`. The board keeps fifteen 64-bit boards:
one per colour, one per piece, and one for empty squares. A square (f, r) is
bit `8r + 7 - f`, so a1 is bit 7 and h1 is bit 0. The model covers:

- the lookup tables and `lineAttacks`;
- `piece`, the move generators, `moves`, `attackedBy`, `find` and `inCheck`;
- reading and writing the placement and side-to-move fields of
  Forsyth–Edwards Notation (`set` and `fen`);
- `move<C>`, `promote<C>`, `moveHelper<C>` and `move(uciMove)`.

How the files split the work:

- pieces.dfy, files.dfy, ranks.dfy: the enumerations and their character
  decoders.
- bits.dfy: bit access, `__builtin_clzll` and `__builtin_ffsll`.
- tables.dfy: the source's constant tables, copied literally, with lemmas
  that check every entry against the board geometry: the knight and king
  moves, the pawn pushes and captures, and the two halves of each file,
  rank and diagonal ray.
- attacks.dfy: `lineAttacks` (the obstruction-difference trick) and the three
  slider functions.
- positions.dfy: the queries over the fifteen boards.
- checks.dfy: `attackedBy`, `find` and `inCheck`.
- placement.dfy: `Place`, which builds the boards of a placement (what
  piece stands on each of the 64 squares).
- fen.dfy: the FEN text as functions, and the round trip between them.
- moving.dfy and playing.dfy: the move functions.
- board.dfy: the class `Board`. Its methods run the loops and XOR updates of
  the source in place, and are proved equal to the functions above.
- scenarios.dfy: concrete positions.

`Place` is the reference the rest is measured against:

- `set` builds `Place` of the placement it reads.
- `fen` writes the placement that `piece()` reports square by square.
- An accepted move turns `Place(cs)` into `Place` of `cs` with the piece
  moved.

## Model

| member | source | states |
|---|---|---|
| Pieces.ColorValue | chess/Piece.h:8 | White is 0 and Black is 8, both valid board indices |
| Pieces.PieceValue | chess/Piece.h:10-21 | every piece value is 1..14 and never 8 (Black's slot); the value is 7 exactly for None |
| Pieces.ValuesDistinct | chess/Piece.h:8-21 | distinct pieces have distinct values, distinct colours distinct values, and no piece value equals a colour value |
| Pieces.BlackIsWhitePlusBlack | chess/Piece.h:18-20 | each black piece's value is the white piece's value plus Black's 8 |
| Pieces.ColorOf | chess/Piece.h:10-21 | a piece is white exactly when its value is below 8 |
| Pieces.Opposite | chess/Piece.h:25 | the opposite colour differs from the colour |
| Pieces.OppositeInvolution | chess/Piece.h:25 | taking the opposite twice gives the colour back; white and black are each other's opposite |
| Pieces.Colored | chess/Piece.h:27-32 | `Colored::Pawn<C>` … `King<C>` is a piece of colour C |
| Pieces.ColoredOnto | chess/Piece.h:27-32 | every piece is the colored instance of some kind, in its own colour |
| Pieces.ColoredInjective | chess/Piece.h:27-32 | different kinds or colours give different pieces |
| Pieces.ColoredPieces | chess/Piece.h:27-32 | the twelve instances are WPawn … BKing |
| Pieces.CharPiece | chess/Piece.h:35-55 | `charPiece<C>` gives None exactly for characters other than "pnrbqk", and otherwise a piece of colour C |
| Pieces.CharPieceLetters | chess/Piece.h:35-55 | each kind's lowercase letter decodes to that kind in colour C; its uppercase letter decodes to None |
| Pieces.KindLetter | chess/Piece.h:40-51 | the lowercase letter of each `case` of `charPiece`; `CharPieceLetters` states that it decodes to its kind |
| Files.FileValue | chess/File.h:8 | the enumerators A..H have values 0..7 |
| Files.FileOf | chess/File.h:8 | the conversion `File(v)` of a value 0..7 gives the enumerator with that value |
| Files.FileValueBijective | chess/File.h:8 | value and conversion are inverse bijections between A..H and 0..7 |
| Files.CharFile | chess/File.h:11 | `charFile(c)` is in 0..7 exactly when c is 'A'..'H' |
| Files.CharFileLetters | chess/File.h:11 | 'A'..'H' decode to A..H in order |
| Files.CharFileIncreasing | chess/File.h:11 | `charFile` is strictly increasing, hence injective |
| Files.CharFileLowerCase | chess/File.h:11 | lowercase 'a'..'h' decode to 32..39, outside the enumeration |
| Ranks.RankValue | chess/Rank.h:8 | the enumerators One..Eight have values 0..7 |
| Ranks.RankOf | chess/Rank.h:8 | the conversion `Rank(v)` of a value 0..7 gives the enumerator with that value |
| Ranks.RankValueBijective | chess/Rank.h:8 | value and conversion are inverse bijections between One..Eight and 0..7 |
| Ranks.CharRank | chess/Rank.h:11 | `charRank(c)` is in 0..7 exactly when c is '1'..'8' |
| Ranks.CharRankLetters | chess/Rank.h:11 | '1'..'8' decode to One..Eight in order |
| Ranks.CharRankIncreasing | chess/Rank.h:11 | `charRank` is strictly increasing, hence injective |
| Ranks.CharRankOutOfRange | chess/Rank.h:11 | a character outside '1'..'8' decodes to a value outside 0..7 |
| Bits.Clz | chess/Board.h:207 | for a non-zero board, the count n of leading zeros: bit 63 − n is set and every bit above it is clear |
| Bits.Ffs | chess/Board.h:105 | `__builtin_ffsll`: 0 exactly for the empty board; otherwise n, where bit n − 1 is set and every bit below it is clear |
| Bits.LowRun | chess/Board.h:208 | bit i of `x ^ (x - 1)` is set exactly when bits 0..i − 1 of x are clear |
| Bits.Borrow | chess/Board.h:208 | when bits 0..k of x are clear, `x ^ (x - Sq(k))` is the run `x ^ (x - 1)` cut to the bits from k up |
| Bits.TopShift | chess/Board.h:207 | `0x8000000000000000 >> n` is the single bit 63 − n |
| Tables.Index | chess/Board.h:198 | the index of (f, r) is below 64, its rank part is r and its file part is 7 − f, as `square(int)` decodes it |
| Tables.Square | chess/Board.h:200 | `square(f, r)` is the single bit of (f, r) |
| Tables.SquareTableBits | chess/Board.h:235-251 | each entry `s_squares[f][r]` is the single bit 8r + 7 − f |
| Tables.SquareAt | chess/Board.h:198 | `square(index)` is the single bit `index` |
| Tables.SquareTable | chess/Board.h:235-251 | the literal `s_squares`; `SquareTableBits` states what each entry is |
| Tables.WhitePawnPushes | chess/Board.h:259-275 | the literal `s_wPawnMoves`; `WhitePawnPushesAhead` states what each entry is |
| Tables.BlackPawnPushes | chess/Board.h:277-293 | the literal `s_bPawnMoves`; `BlackPawnPushesAhead` states what each entry is |
| Tables.WhitePawnAttacks | chess/Board.h:295-311 | the literal `s_wPawnAttacks`; `WhitePawnAttacksDiagonal` states what each entry is |
| Tables.BlackPawnAttacks | chess/Board.h:313-329 | the literal `s_bPawnAttacks`; `BlackPawnAttacksDiagonal` states what each entry is |
| Tables.KnightTable | chess/Board.h:331-347 | the literal `s_knightMoves`; `KnightTableGeometry` states what each entry is |
| Tables.RookTable | chess/Board.h:349-365 | the literal `s_rookMoves`; `RookTableLines` relates it to the ray tables |
| Tables.BishopTable | chess/Board.h:367-383 | the literal `s_bishopMoves`; `BishopTableLines` relates it to the ray tables |
| Tables.QueenTable | chess/Board.h:385-401 | the literal `s_queenMoves`; `QueenTableLines` relates it to the rook and bishop tables |
| Tables.KingTable | chess/Board.h:403-419 | the literal `s_kingMoves`; `KingTableGeometry` states what each entry is |
| Tables.FileRays | chess/Board.h:421-485 | the literal `s_fileRays`; `FileRaysFit` and `FileRaysGeometry` state what each entry is |
| Tables.RankRays | chess/Board.h:487-551 | the literal `s_rankRays`; `RankRaysFit` and `RankRaysGeometry` state what each entry is |
| Tables.DiagonalRays | chess/Board.h:553-617 | the literal `s_diagonalRays`; `DiagonalRaysFit` and `DiagonalRaysGeometry` state what each entry is |
| Tables.AntiDiagonalRays | chess/Board.h:619-683 | the literal `s_antidiagonalRays`; `AntiDiagonalRaysFit` and `AntiDiagonalRaysGeometry` state what each entry is |
| Tables.FileRaysFit | chess/Board.h:421-485 | each file ray entry: line = lower ∪ upper, lower below the square, upper above it |
| Tables.RankRaysFit | chess/Board.h:487-551 | the same for the rank rays |
| Tables.DiagonalRaysFit | chess/Board.h:553-617 | the same for the diagonal rays |
| Tables.AntiDiagonalRaysFit | chess/Board.h:619-683 | the same for the anti-diagonal rays |
| Tables.RookTableLines | chess/Board.h:349-365 | each rook table entry is the union of its file and rank lines |
| Tables.BishopTableLines | chess/Board.h:367-383 | each bishop table entry is the union of its two diagonal lines |
| Tables.QueenTableLines | chess/Board.h:385-401 | each queen table entry is the rook entry united with the bishop entry |
| Tables.WhitePawnPushesAhead | chess/Board.h:259-275 | a white pawn pushes to the square one rank up, and nowhere from rank 8 |
| Tables.BlackPawnPushesAhead | chess/Board.h:277-293 | a black pawn pushes to the square one rank down, and nowhere from rank 1 |
| Tables.WhitePawnAttacksDiagonal | chess/Board.h:295-311 | a white pawn captures on the two squares diagonally up that exist |
| Tables.BlackPawnAttacksDiagonal | chess/Board.h:313-329 | a black pawn captures on the two squares diagonally down that exist |
| Tables.KnightTableAvoidsOrigin | chess/Board.h:331-347 | no knight entry contains its own square |
| Tables.KingTableAvoidsOrigin | chess/Board.h:403-419 | no king entry contains its own square |
| Tables.KnightSymmetric | chess/Board.h:331-347 | a knight on (f, r) reaches (g, s) exactly when a knight on (g, s) reaches (f, r) |
| Tables.KingSymmetric | chess/Board.h:403-419 | the same for the king table |
| Tables.PawnAttacksSymmetric | chess/Board.h:295-329 | a white pawn on (f, r) captures on (g, s) exactly when a black pawn on (g, s) captures on (f, r) |
| Tables.KnightTableGeometry | chess/Board.h:331-347 | a knight on (f, r) reaches (g, s) exactly when the two squares are one file and two ranks apart, or two files and one rank |
| Tables.KingTableGeometry | chess/Board.h:403-419 | a king on (f, r) reaches (g, s) exactly when (g, s) is a different square at most one file and one rank away |
| Tables.FileRaysGeometry | chess/Board.h:421-485 | the lower half of a file ray entry holds exactly the squares below (f, r) on its file, the upper half exactly those above |
| Tables.RankRaysGeometry | chess/Board.h:487-551 | the lower half of a rank ray entry holds exactly the squares of its rank towards the h-file, the upper half those towards the a-file |
| Tables.DiagonalRaysGeometry | chess/Board.h:553-617 | the two halves of a diagonal ray entry are exactly the squares of its a1-h8 diagonal below and above (f, r) |
| Tables.AntiDiagonalRaysGeometry | chess/Board.h:619-683 | the two halves of an anti-diagonal ray entry are exactly the squares of its a8-h1 diagonal below and above (f, r) |
| Tables.FileRaysHalves | chess/Board.h:421-485 | every file ray entry is split at its square into the two sides of its file |
| Tables.RankRaysHalves | chess/Board.h:487-551 | every rank ray entry is split at its square into the two sides of its rank |
| Tables.DiagonalRaysHalves | chess/Board.h:553-617 | every diagonal ray entry is split at its square into the two sides of its diagonal |
| Tables.AntiDiagonalRaysHalves | chess/Board.h:619-683 | every anti-diagonal ray entry is split at its square into the two sides of its anti-diagonal |
| Attacks.Ms1BHighest | chess/Board.h:207 | when the occupied part of the lower ray has a highest bit k, `ms1B` is the single bit k |
| Attacks.Ms1BEmpty | chess/Board.h:207 | when the occupied part of the lower ray is empty, `ms1B` is bit 0, because the ray is OR-ed with 1 first |
| Attacks.LineAttacks | chess/Board.h:202-210 | `lineAttacks` as written, with `ms1B` from `__builtin_clzll`; the lemmas below state what it computes |
| Attacks.LineAttacksOn | chess/Board.h:205-209 | the body of `lineAttacks` on the three ray words; `LineAttacksExact` states what it computes |
| Attacks.Ms1B | chess/Board.h:207 | `ms1B`, the top bit of the occupied lower ray OR-ed with 1, found with `__builtin_clzll`; `Ms1BHighest` and `Ms1BEmpty` state which bit it is |
| Attacks.ObstructionDiff | chess/Board.h:208 | `upper ^ (upper - ms1B)`; `Bits.Borrow` and `LineAttacksExact` state its bits |
| Attacks.LineAttacksExact | chess/Board.h:203-210 | bit i of `lineAttacks` is set exactly when i is on the line, no occupied lower-ray square lies above i, and no occupied upper-ray square lies below i |
| Attacks.LineAttacksRaysExact | chess/Board.h:203-210 | for a table entry that fits its square, bit i of `lineAttacks` is set exactly when i is on the line, no occupied square of the lower half lies above i, and no occupied square of the upper half lies below i |
| Attacks.LineAttacksReachUpper | chess/Board.h:203-210 | a square of the upper half is attacked when no lower square of the upper half is occupied |
| Attacks.LineAttacksReachLower | chess/Board.h:203-210 | a square of the lower half is attacked when no higher square of the lower half is occupied |
| Attacks.LineReaches | chess/Board.h:203-210 | a square on either side of a line through (f, r) is attacked when no square between the two is occupied |
| Attacks.LineAttacksEmptyBoard | chess/Board.h:203-210 | with nothing on the board `lineAttacks` is the whole line |
| Attacks.LineAttacksWithinLine | chess/Board.h:203-210 | `lineAttacks` stays on its line |
| Attacks.LineAttacksAvoidOrigin | chess/Board.h:203-210 | `lineAttacks` never contains the square itself |
| Attacks.RookMoves | chess/Board.h:212-215 | `rookMoves(f, r, occupancy)`: the file and rank line attacks; the lemmas below and `Checks.RookReaches` state what it computes |
| Attacks.BishopMoves | chess/Board.h:217-220 | `bishopMoves(f, r, occupancy)`: the two diagonal line attacks; the lemmas below and `Checks.BishopReaches` state what it computes |
| Attacks.QueenMoves | chess/Board.h:222-225 | `queenMoves(f, r, occupancy)`: the rook and bishop attacks together; the lemmas below state what it computes |
| Attacks.RookMovesEmptyBoard | chess/Board.h:212-215 | on an empty board `rookMoves` is the rook table entry |
| Attacks.BishopMovesEmptyBoard | chess/Board.h:217-220 | on an empty board `bishopMoves` is the bishop table entry |
| Attacks.QueenMovesEmptyBoard | chess/Board.h:222-225 | on an empty board `queenMoves` is the queen table entry |
| Attacks.RookMovesAvoidOrigin | chess/Board.h:212-215 | `rookMoves` never contains the rook's square |
| Attacks.BishopMovesAvoidOrigin | chess/Board.h:217-220 | `bishopMoves` never contains the bishop's square |
| Attacks.QueenMovesAvoidOrigin | chess/Board.h:222-225 | `queenMoves` never contains the queen's square |
| Attacks.RookOnD4Example | chess/Board.h:212-215 | a rook on d4 with pieces on d6 and g4 sees exactly d5, d6, g4, f4, e4, c4, b4, a4, d3, d2, d1 |
| Position.ListPosition | chess/Board.h:228-230 | every piece but None has a position in `s_piecesList` |
| Position.PiecesListComplete | chess/Board.h:228-230 | `s_piecesList` holds exactly the twelve pieces |
| Position.Board | chess/Board.h:18 | `m_bitboards[p]`, the board of one piece; `Placement.PlaceBoards` states what it holds for a placement |
| Position.Occupancy | chess/Board.h:18 | `m_bitboards[C]`, the board of one colour; `Placement.PlaceWhite` and `Placement.PlaceBlack` state what it holds for a placement |
| Position.All | chess/Board.h:73 | `all()`, the complement of the empty board; `Placement.PlacePartitioned` states that it is the union of the colour boards on a placement |
| Position.Empty | chess/Board.h:74 | `empty()`, the empty board; `Placement.PlaceEmpty` states what it holds for a placement |
| Position.PieceAt | chess/Board.h:75-82 | `piece(square)` as the scan of `s_piecesList`; the lemmas below state what it returns |
| Position.Meets | chess/Board.h:78 | the test `m_bitboards[p] & square` of the scan in `piece()`; `FirstPieceFrom` states how the scan uses it |
| Position.FirstPieceFrom | chess/Board.h:75-82 | the scan of `piece()` returns the first listed piece whose board meets the square, or None exactly when no board does |
| Position.PieceAtOnBoard | chess/Board.h:75-82 | when `piece()` reports a piece for a square, the square is on that piece's board |
| Position.PieceAtOnly | chess/Board.h:75-82 | a square on the board of exactly one piece reads as that piece |
| Position.PieceAtNone | chess/Board.h:75-82 | a square on no piece board reads as None |
| Position.PawnAttacks | chess/Board.h:141-146 | `pawnAttacks<C>`: the capture table masked by the other colour's board; `WhitePawnMovesBits`, `BlackPawnMovesBits` and `Checks.PawnAttacksFrom` state its squares |
| Position.PawnMoves | chess/Board.h:148-166 | `pawnMoves<C>`; `WhitePawnMovesBits` and `BlackPawnMovesBits` state what it contains |
| Position.PawnMovesOn | chess/Board.h:151-164 | the body of `pawnMoves<C>` over the looked-up tables; `WhitePawnMovesBits` and `BlackPawnMovesBits` state its squares |
| Position.DoublePush | chess/Board.h:156-163 | the double push, `(moves << 8) & free` from rank 2 or `(moves >> 8) & free` from rank 7; `WhitePawnMovesBits` and `BlackPawnMovesBits` state its squares |
| Position.KnightMoves | chess/Board.h:168-172 | `knightMoves<C>`: the knight table masked by the complement of C's board; `Checks.KnightAttacks` and `KnightMovesAvoid` state its properties |
| Position.KingMoves | chess/Board.h:174-178 | `kingMoves<C>`: the king table masked the same way; `Checks.KingAttacks` and `KingMovesAvoid` state its properties |
| Position.RookMovesOf | chess/Board.h:180-184 | `rookMoves<C>`: `rookMoves` masked by the complement of C's board; `RookMovesOfAvoid` states its property |
| Position.BishopMovesOf | chess/Board.h:186-190 | `bishopMoves<C>`, masked the same way; `BishopMovesOfAvoid` states its property |
| Position.QueenMovesOf | chess/Board.h:192-196 | `queenMoves<C>`, masked the same way; `QueenMovesOfAvoid` states its property |
| Position.Moves | chess/Board.h:84-100 | `moves(p, f, r)` with the dispatch of `moves<P>` and the empty board for None (lines 821-853); `MovesAvoidOwnColour` and `MovesAvoidOrigin` state its properties |
| Position.WhitePawnMovesBits | chess/Board.h:141-166 | the white pawn's targets are exactly its capture squares that hold black, the free square ahead, and from rank 2 the square two ahead when both are free |
| Position.BlackPawnMovesBits | chess/Board.h:141-166 | the same for black, downwards, with the double step from rank 7 |
| Position.KnightMovesAvoid | chess/Board.h:168-172 | `knightMoves<C>` contains no square of colour C |
| Position.KingMovesAvoid | chess/Board.h:174-178 | `kingMoves<C>` contains no square of colour C |
| Position.RookMovesOfAvoid | chess/Board.h:180-184 | `rookMoves<C>` contains no square of colour C |
| Position.BishopMovesOfAvoid | chess/Board.h:186-190 | `bishopMoves<C>` contains no square of colour C |
| Position.QueenMovesOfAvoid | chess/Board.h:192-196 | `queenMoves<C>` contains no square of colour C |
| Position.MovesAvoidOwnColour | chess/Board.h:821-853 | on boards whose colour boards are disjoint, `moves(p, f, r)` contains no square of p's colour |
| Position.MovesAvoidOrigin | chess/Board.h:821-853 | `moves(p, f, r)` never contains (f, r) |
| Checks.AttackersHaveColour | chess/Board.h:121-139 | every square `attackedBy<C>` reports lies on a piece board of colour C |
| Checks.LeaperTermsWithin | chess/Board.h:121-139 | the pawn, knight and king terms are each contained in `attackedBy<C>` |
| Checks.KnightAttacks | chess/Board.h:121-139 | on partitioned boards, a knight of colour C a knight's move from (f, r) is reported as attacking (f, r) |
| Checks.KingAttacks | chess/Board.h:121-139 | the same for a king of colour C next to (f, r) |
| Checks.PawnAttacksFrom | chess/Board.h:121-139 | a pawn of colour C that could capture on (f, r) is reported as attacking (f, r) |
| Checks.AttackedBy | chess/Board.h:121-139 | `attackedBy<C>`: the five terms OR-ed together; the lemmas around it state which attackers it reports |
| Checks.PawnAttackers | chess/Board.h:134 | the pawn term of `attackedBy<C>`; `PawnAttacksFrom` and `AttackersHaveColour` state its squares |
| Checks.RookAttackers | chess/Board.h:135 | the rook-and-queen term of `attackedBy<C>`; `RookAttacks` and `AttackersHaveColour` state its squares |
| Checks.KnightAttackers | chess/Board.h:136 | the knight term of `attackedBy<C>`; `KnightAttacks` and `AttackersHaveColour` state its squares |
| Checks.BishopAttackers | chess/Board.h:137 | the bishop-and-queen term of `attackedBy<C>`; `BishopAttacks` and `AttackersHaveColour` state its squares |
| Checks.KingAttackers | chess/Board.h:138 | the king term of `attackedBy<C>`; `KingAttacks` and `AttackersHaveColour` state its squares |
| Checks.RookReaches | chess/Board.h:212-215 | a rook on (f, r) reaches any square of its file or rank when no square between them is occupied |
| Checks.BishopReaches | chess/Board.h:217-220 | a bishop on (f, r) reaches any square of its two diagonals when no square between them is occupied |
| Checks.RookAttacks | chess/Board.h:121-139 | a rook or queen of colour C on the file or rank of (f, r), with nothing between, is reported as attacking (f, r) |
| Checks.BishopAttacks | chess/Board.h:121-139 | a bishop or queen of colour C on a diagonal of (f, r), with nothing between, is reported as attacking (f, r) |
| Checks.LowestSquare | chess/Board.h:105-108 | for a non-empty board, the file and rank `find` computes name its lowest set bit |
| Checks.Find | chess/Board.h:102-109 | `find<P>` gives (0, −1) for an empty board; otherwise an on-board square holding P's lowest bit |
| Checks.InCheck | chess/Board.h:111-119 | `inCheck<C>`: `attackedBy` of the other colour on the square `find` gives for C's king; the lemmas below state when it holds |
| Checks.InCheckHasAttacker | chess/Board.h:111-119 | a side in check faces at least one piece of the other colour, and some square is both in the attacker set `attackedBy` computes for the king's square and held by a piece of the other side; `KingAttackerSet` is that set, non-empty exactly when the side is in check |
| Checks.KnightGivesCheck | chess/Board.h:111-119 | a knight of the other colour that could move onto the king's square gives check |
| Checks.RookGivesCheck | chess/Board.h:111-139 | a rook or queen of the other colour on the king's file or rank, with nothing between, gives check |
| Checks.BishopGivesCheck | chess/Board.h:111-139 | a bishop or queen of the other colour on the king's diagonal, with nothing between, gives check |
| Placement.PlaceBoards | chess/Board.h:18 | on the boards of a placement, a square is on piece q's board exactly when q stands there, and on a colour's board exactly when a piece of that colour does |
| Placement.Place | chess/Board.h:18 | the fifteen boards of a placement of the 64 squares; `PlaceBoards` states what they hold |
| Placement.Contents | chess/Board.h:75-82 | `piece()` read on all 64 squares; `ContentsOfPlace` states that it inverts `Place` |
| Placement.PieceAtPlace | chess/Board.h:75-82 | `piece()` on the boards of a placement returns the piece placed on the square |
| Placement.ContentsOfPlace | chess/Board.h:75-82 | reading every square back with `piece()` gives the placement |
| Placement.PlacePartitioned | chess/Board.h:73-74 | on the boards of a placement the colour boards are disjoint, and the empty board (whose complement is `all()`) is the complement of their union |
| Placement.PlaceWhite | chess/Board.h:803-805 | the white board of a placement is the union of the six white piece boards |
| Placement.PlaceBlack | chess/Board.h:807-809 | the black board of a placement is the union of the six black piece boards |
| Placement.PlaceEmpty | chess/Board.h:811 | the empty board of a placement is the common complement of the colour boards |
| Placement.PlacePut | chess/Board.h:738-773 | putting a piece on an empty square ORs that square's bit into the piece's board and leaves the other piece boards alone |
| Fen.TurnChar | chess/Board.h:720 | the side-to-move character is 'w' exactly for white |
| Fen.PieceChar | chess/Board.h:232-233 | `s_pieceChars[p]`, the letter `fen` writes for a piece (the table itself is the constant `PieceChars`); `FenPieceChar` states that `set` reads it back |
| Fen.FenPiece | chess/Board.h:738-773 | the piece cases of the `switch` in `set`; `FenPieceChar` states that it inverts `PieceChar` |
| Fen.Slash | chess/Board.h:713-716 | the '/' written after a square that ends a rank other than the last; `EmitText` and `FullRankText` state where it appears |
| Fen.FenPieceChar | chess/Board.h:738-773 | the letter `fen` writes for a piece is the one `set` reads back as that piece, and the reverse |
| Fen.Digit | chess/Board.h:704 | a count of one to eight is written as the single digit '1'..'8' |
| Fen.Emit | chess/Board.h:694-716 | after one square, the empty count grows by one for an empty square inside a rank and drops to 0 otherwise, and it never exceeds the squares left in the rank |
| Fen.EmitText | chess/Board.h:694-716 | one square writes: the digit at the end of a rank of empty squares, or the pending digit and the letter before a piece, then '/' after every rank but the last |
| Fen.EmitSquare | chess/Board.h:694-716 | the loop body of `fen` produces the text and count of `Emit` |
| Fen.PlacementText | chess/Board.h:692-718 | the loop of `fen` from square idx down, with the pending empty count; the lemmas below state what it writes |
| Fen.FenText | chess/Board.h:688-727 | the text `fen` writes: the placement, a space and the side-to-move letter; `StandardFenText` and `DecodeFen` state its properties |
| Fen.PiecesText | chess/Board.h:692-718 | the first k squares of a rank, all occupied, are written as their k letters, in order from the a-file |
| Fen.FullRankText | chess/Board.h:692-718 | a fully occupied rank is written as its eight letters, from the a-file to the h-file, then '/' unless it is rank 1 |
| Fen.EmptyRankText | chess/Board.h:692-718 | an empty rank is written as '8', then '/' unless it is rank 1 |
| Fen.Scan | chess/Board.h:732-801 | the `while` loop of `set` over the characters, as a function of the text; `ScanEmit` and `ScanPlacement` state what it reads |
| Fen.Decode | chess/Board.h:729-819 | `set(fenString)` as a function of the text; `DecodeFen` and `SetThenFen` state what it reads |
| Fen.ScanEmit | chess/Board.h:734-800 | scanning what one square wrote moves the scan to the next square, with the piece (if any) placed |
| Fen.ScanPlacement | chess/Board.h:734-800 | scanning the placement text from the top square reads back the placement written |
| Fen.DecodeFen | chess/Board.h:688-819 | `set` reads back exactly the placement and side to move that `fen` writes |
| Fen.SetThenFen | chess/Board.h:688-819 | `set` reads back the placement and turn `fen` writes, whatever text follows, and `fen` of the boards `set` builds writes the same text again |
| Moving.Toggle | chess/Board.h:50-55 | `m_bitboards[k] ^= mask` leaves every other board unchanged |
| Moving.ToggleBit | chess/Board.h:50-55 | after the toggle, bit i of board k flips exactly when k is the toggled board and the mask has bit i |
| Moving.RelocatedAt | chess/Board.h:40-58 | a move puts the from-square's piece on the to-square, empties the from-square, and changes no other square |
| Moving.Applied | chess/Board.h:48-55 | the five XOR updates of an accepted `move<C>`; `AppliedPlace` states their effect on a placement |
| Moving.MovePiece | chess/Board.h:40-58 | `move<C>` as a function of the boards; `MovePieceOnPlacement` states its outcome and boards |
| Moving.TargetOpen | chess/Board.h:45-46 | on the boards of a placement, a square that `moves` generates is not the from-square and holds no piece of the mover's colour |
| Moving.AppliedPlace | chess/Board.h:48-55 | the five XOR updates turn the boards of a placement into the boards of the placement after the move, when the piece is the mover's and the target is empty or the other colour's |
| Moving.MovePieceOnPlacement | chess/Board.h:40-58 | `move<C>` of the mover's own piece is accepted exactly when `moves` generates the target; a rejected move leaves the boards, and an accepted one gives the boards of the moved placement |
| Playing.PromoteRejectedUnchanged | chess/Board.h:60-71 | an invalid promotion piece is rejected, and a rejected promotion leaves the boards untouched |
| Playing.Promote | chess/Board.h:60-71 | `promote<C>` as a function of the boards; `PromotionOnPlacement` and `PromotionKeepsPawn` state its effect |
| Playing.ValidPromotion | chess/Board.h:63 | the `valid` test of `promote`; `PromotionPieceValid` and `PromoteRejectedUnchanged` state which pieces pass |
| Playing.MoveHelper | chess/Board.h:21-38 | `moveHelper<C>` as a function of the boards; `HelperOnPlacement` and `PromotionOnPlacement` state its effect |
| Playing.PromotionPiece | chess/Board.h:34-35 | the piece `moveHelper` promotes to: the queen for a four-character move, else `charPiece<C>` of the fifth character; `PromotionPieceValid` states when it passes `valid` |
| Playing.MoveHelperRejectedUnchanged | chess/Board.h:21-38 | a move `moveHelper` rejects leaves the boards untouched |
| Playing.PromotionPieceValid | chess/Board.h:34-36 | the promotion piece passes `promote`'s test exactly for a 4-character move or a fifth character in "nrbqk"; 'k' promotes to a king |
| Playing.HelperOnPlacement | chess/Board.h:21-38 | without a promotion, `moveHelper` on a placement accepts exactly the generated targets and gives the moved placement |
| Playing.PromotionOnPlacement | chess/Board.h:27-36 | a pawn move to rank 8 is accepted exactly when the promotion piece is valid and the target is generated; on acceptance the pawn board and the promotion piece's board are toggled on top of the moved placement |
| Playing.PromotionKeepsPawn | chess/Board.h:60-71 | after an accepted white promotion the pawn is still on the to-square, a pawn is back on the emptied from-square, and the promotion piece shares the to-square |
| Playing.EmptySquareRejected | chess/Board.h:24-30 | a move from an empty square is rejected and changes nothing |
| Playing.BlackPawnMovesBelowEight | chess/Board.h:160-165 | a black pawn never generates a square on rank 8 |
| Playing.BlackRankEightRejected | chess/Board.h:27 | a black pawn's move to rank 8, the only one that triggers the promotion branch, is always rejected |
| Playing.BlackPawnNotPromoted | chess/Board.h:27-31 | a black pawn reaching rank 1 stays a pawn: the plain move is applied |
| Playing.WrongColourApplied | chess/Board.h:48-55 | moving a piece of the other colour sets the from-square on both colour boards |
| Playing.WrongColourBreaksPartition | chess/Board.h:40-58 | an accepted move of a piece of the other colour leaves colour boards that overlap |
| Playing.MoveTurn | chess/Board.h:855-874 | an accepted move hands the turn to the other side; a rejected one changes nothing |
| Playing.Move | chess/Board.h:855-874 | `move(uciMove)` as a function of the boards and turn; `MoveTurn`, `MoveOnPlacement` and `MoveKeepsWellFormed` state its effect |
| Playing.MoveOnPlacement | chess/Board.h:855-874 | without a promotion, `move(uciMove)` of the side to move's own piece is accepted exactly when the target is generated, and then gives the moved placement with the other side to move |
| Playing.MoveKeepsWellFormed | chess/Board.h:855-874 | an accepted non-promoting move of the side to move's own piece keeps the boards those of a placement, with disjoint colour boards |
| Chessboard.Board.constructor | chess/Board.h:685 | `Board()` holds the literal starting boards and white to move |
| Chessboard.StartingPosition | chess/Board.h:253-257 | the literal `s_startingPosition`, slot by slot; `Scenarios.StartingNotWellFormed` and `Scenarios.StartingColoursSwapped` state what is wrong with it |
| Chessboard.Board.FromFen | chess/Board.h:686 | `Board(fen)` holds the boards of the placement the text describes, and its side to move |
| Chessboard.Board.SetSquare | chess/Board.h:738-773 | one piece letter ORs the square's bit into its piece board: the piece boards are those of the placement with that piece added |
| Chessboard.Board.Assemble | chess/Board.h:803-811 | the three assignments after the loop complete the piece boards into the boards of the placement |
| Chessboard.Board.Set | chess/Board.h:729-819 | `set` leaves exactly the boards of the placement the text describes, and white to move exactly when the character after the space is 'w' |
| Chessboard.Board.Fen | chess/Board.h:688-727 | `fen` writes the FEN text of the square-by-square contents `piece()` reports and the side to move |
| Chessboard.Board.ToggleSlot | chess/Board.h:50-55 | one `^=` update: board k toggled by the mask, everything else unchanged |
| Chessboard.Board.Apply | chess/Board.h:48-55 | the five updates of an accepted `move<C>`, in the source's order |
| Chessboard.Board.MovePiece | chess/Board.h:40-58 | `move<C>` in place gives the outcome and boards of the move function |
| Chessboard.Board.Promote | chess/Board.h:60-71 | `promote<C>` in place gives the outcome and boards of the promotion function |
| Chessboard.Board.MoveHelper | chess/Board.h:21-38 | `moveHelper<C>` in place gives the outcome and boards of its function |
| Chessboard.Board.Move | chess/Board.h:855-874 | `move(uciMove)` in place gives the result, boards and turn of its function |
| Chessboard.FilledAssemble | chess/Board.h:803-811 | once the loop has filled the piece boards of a placement, the three assignments give exactly its boards |
| Chessboard.WhiteUnion | chess/Board.h:803-805 | the OR of the six white piece boards; `FilledAssemble` states that it gives the white board of the placement |
| Chessboard.BlackUnion | chess/Board.h:807-809 | the OR of the six black piece boards; `FilledAssemble` states that it gives the black board of the placement |
| Chessboard.Assembled | chess/Board.h:803-811 | the three final assignments of `set`; `FilledAssemble` states that they complete `Place(cs)` |
| Scenarios.RookOnE8Checks | chess/Board.h:111-139 | with the white king on e1 and a black rook on e8 on an open file, white is in check |
| Scenarios.PawnOnE4Blocks | chess/Board.h:111-139 | with a white pawn on e4 between them, white is not in check |
| Scenarios.RookBlocked | chess/Board.h:111-139 | with the white king on e1 and the black rook on e8, any white piece, or a black pawn, knight or bishop, on one of e2..e7, and nothing else on the board, white is not in check |
| Scenarios.KnightOnE6Blocks | chess/Board.h:111-139 | a black knight on e6 between the white king on e1 and the black rook on e8: white is not in check |
| Scenarios.SharedSquareNotWellFormed | chess/Board.h:75-82 | boards with two pieces on one square are not the boards of any placement |
| Scenarios.StartingNotWellFormed | chess/Board.h:253-257 | the starting constant puts the black king on a8, on the black rook's square, so it is not the boards of any placement |
| Scenarios.StartingColoursSwapped | chess/Board.h:253-257 | in the starting constant the white pawns lie outside the white occupancy board |
| Scenarios.StandardFenText | chess/Board.h:688-727 | `fen` of the standard starting placement, white to move, is "rnbqkbnr/pppppppp/8/8/8/8/PPPPPPPP/RNBQKBNR w" |
| Scenarios.StandardDecode | chess/Board.h:729-819 | `set` of the standard starting FEN reads the standard placement with white to move, and `fen` of its boards writes the placement and turn fields back |
| Scenarios.StandardBoard | chess/Board.h:686-819 | `Board(fen)` of the standard starting FEN holds the standard boards with white to move, and its `fen()` is "rnbqkbnr/pppppppp/8/8/8/8/PPPPPPPP/RNBQKBNR w" |

## Behaviour of the code as written

The lemmas above record where the code departs from the rules of chess.
The model keeps these departures: it follows the code, not the rules.

- A move counts as a promotion only when a pawn of the side to move goes to
  rank 8, for black as well as white. A black pawn cannot reach rank 8, so
  black never promotes, and a black pawn on rank 1 stays a pawn.
- `promote` XORs the from-square into the pawn board again, after `move`
  has cleared it, and never removes the pawn from the to-square. The pawn
  therefore stays on the to-square, reappears on the from-square, and shares
  the to-square with the promotion piece.
- A king passes `promote`'s validity test.
- `move<C>` does not check that the moving piece has colour C. A piece of
  the other colour is moved with C's colour board, and the colour boards
  then overlap.
- The constant `s_startingPosition` that `Board()` uses does not describe
  the starting position:
  - the colour boards are swapped;
  - the black king's board is a8, which is also on the black rooks' board.
- `charFile` expects capital letters, while UCI move text uses lowercase
  file letters.

Three constructs in `chess/Board.h` have no meaning in the headers as
given: two names that nothing defines, and enumerators used where an
integer is needed. The model reads them as follows:

- `TemplatePiece::X<C>` (Board.h:27, 35, 66, 114, 124-129) is read as
  `Colored::X<C>` of `chess/Piece.h:27-32`, the piece of kind X in colour C.
- `~C` for a colour (Board.h:55, 117, 131) is read as
  `Colored::Opposite<C>`, the other colour.
- The `enum class` values used to index `m_bitboards` (Board.h:50-55 and
  throughout), which do not convert to integers implicitly, are read as
  their underlying values: 0 and 8 for the colours, 1..14 for the pieces.

## Left out

- `m_bitboards` is a fixed array of fifteen words in the source. The class
  holds it as a sequence field that its methods reassign. The model does
  not capture aliasing of the array, which the source never exposes.
- `set` assigns the white, black and empty boards one after the other. The
  model computes the three with the function `Assembled` and assigns them
  in one statement. The values are the same.
- The other FEN fields (castling rights, en passant square, move clocks) and
  those moves themselves: the source has only TODO comments for them.
- Output streams: `fen` builds its text with `std::ostringstream`, modelled
  as string concatenation.
- `search/` and `chess/Result.h` are not part of this model; neither refers
  to the board. `main.cpp` is not part of this model either; it calls
  `Board::blockerMask` and `Board::blockerBoard`, which `chess/Board.h` does
  not declare.
- Chessboard.Board.Set: requires text that `Decode` accepts, meaning it has
  a space after the placement field, a character after that space, and no
  piece falling off the board. On other text the source reads out of
  bounds.
- Chessboard.Board.FromFen: has the same requirement as `Set`.
- Playing.Move: requires `ValidUci` (length at least 4, files 'A'..'H',
  ranks '1'..'8'). Other characters make the source index its tables out of
  range.
- Chessboard.Board.Move: has the same requirement as `Playing.Move`.
- Checks.InCheck: requires the side to have a king. Without one, `find`
  gives rank −1 and the source reads its tables out of range.
- Playing.MoveOnPlacement: states the result only for moves that are not
  promotions. Promotions are covered by Playing.PromotionOnPlacement and
  Playing.PromotionKeepsPawn.
- Playing.MoveKeepsWellFormed: covers only non-promoting moves of the
  mover's own piece. The other two cases do not keep the boards well formed
  (Playing.PromotionKeepsPawn and Playing.WrongColourBreaksPartition).
