// The colour and piece enumerations of chess/Piece.h, their underlying
// values (which the board uses as indices into its 15 bitboards), the
// colour-parametrised piece selectors and the letter decoder `charPiece`.
module Pieces {

  /** `enum class Color : unsigned char { White = 0, Black = 8 }`. */
  datatype Color = White | Black

  /** `enum class Piece`: white pieces 1..6, None 7, black pieces 9..14. */
  datatype Piece =
    | WPawn | WKnight | WRook | WBishop | WQueen | WKing
    | None
    | BPawn | BKnight | BRook | BBishop | BQueen | BKing

  /** The six kinds of piece that the `Colored` selectors range over. */
  datatype Kind = Pawn | Knight | Rook | Bishop | Queen | King

  /** The underlying value of a colour; it doubles as the index of that
      colour's occupancy bitboard. */
  function ColorValue(c: Color): (v: nat)
    ensures v == 0 <==> c == White
    ensures v == 8 <==> c == Black
    ensures v < 15
  {
    match c
    case White => 0
    case Black => 8
  }

  /** The underlying value of a piece: WPawn is 1, the other white pieces
      follow in declaration order, None is 7, and BPawn is WPawn + Black. */
  function PieceValue(p: Piece): (v: nat)
    ensures 1 <= v <= 14 && v != ColorValue(Black)
    ensures v == 7 <==> p == None
  {
    match p
    case WPawn => 1
    case WKnight => 2
    case WRook => 3
    case WBishop => 4
    case WQueen => 5
    case WKing => 6
    case None => 7
    case BPawn => 9
    case BKnight => 10
    case BRook => 11
    case BBishop => 12
    case BQueen => 13
    case BKing => 14
  }

  /** The colour a (non-empty) piece belongs to, read off its value. */
  function ColorOf(p: Piece): (c: Color)
    requires p != None
    ensures c == White <==> PieceValue(p) < ColorValue(Black)
  {
    if PieceValue(p) < 8 then White else Black
  }

  /** `Colored::Opposite<C>`. */
  function Opposite(c: Color): (o: Color)
    ensures o != c
  {
    if c == White then Black else White
  }

  /** `Colored::Pawn<C>` .. `Colored::King<C>`: the piece of kind `k` and colour `c`. */
  function Colored(k: Kind, c: Color): (p: Piece)
    ensures p != None && ColorOf(p) == c
  {
    match k
    case Pawn => if c == White then WPawn else BPawn
    case Knight => if c == White then WKnight else BKnight
    case Rook => if c == White then WRook else BRook
    case Bishop => if c == White then WBishop else BBishop
    case Queen => if c == White then WQueen else BQueen
    case King => if c == White then WKing else BKing
  }

  /** The lower-case letter `charPiece` decodes to a piece of kind `k`. */
  function KindLetter(k: Kind): char
  {
    match k
    case Pawn => 'p'
    case Knight => 'n'
    case Rook => 'r'
    case Bishop => 'b'
    case Queen => 'q'
    case King => 'k'
  }

  /** `charPiece<C>`: a lower-case piece letter gives the piece of colour
      `c`; every other character gives None. */
  function CharPiece(c: Color, ch: char): (p: Piece)
    ensures p == None <==> ch !in {'p', 'n', 'r', 'b', 'q', 'k'}
    ensures p != None ==> ColorOf(p) == c
  {
    match ch
    case 'p' => Colored(Pawn, c)
    case 'n' => Colored(Knight, c)
    case 'r' => Colored(Rook, c)
    case 'b' => Colored(Bishop, c)
    case 'q' => Colored(Queen, c)
    case 'k' => Colored(King, c)
    case _ => None
  }

  /** The two colour values, the twelve piece values and None are pairwise
      distinct and all index a 15-slot array. */
  lemma ValuesDistinct(p: Piece, q: Piece, c: Color, d: Color)
    ensures PieceValue(p) == PieceValue(q) ==> p == q
    ensures ColorValue(c) == ColorValue(d) ==> c == d
    ensures PieceValue(p) != ColorValue(c)
    ensures PieceValue(p) < 15 && ColorValue(c) < 15
  {
  }

  /** Every black piece value is the matching white value plus Black. */
  lemma BlackIsWhitePlusBlack(k: Kind)
    ensures PieceValue(Colored(k, Black)) == PieceValue(Colored(k, White)) + ColorValue(Black)
  {
  }

  /** Every piece other than None is selected by `Colored` for its own colour. */
  lemma ColoredOnto(p: Piece)
    requires p != None
    ensures exists k: Kind :: Colored(k, ColorOf(p)) == p
  {
    var k := match p
      case WPawn => Pawn case BPawn => Pawn
      case WKnight => Knight case BKnight => Knight
      case WRook => Rook case BRook => Rook
      case WBishop => Bishop case BBishop => Bishop
      case WQueen => Queen case BQueen => Queen
      case _ => King;
    assert Colored(k, ColorOf(p)) == p;
  }

  /** `Colored` is injective in both arguments, so the twelve selections are
      twelve different pieces. */
  lemma ColoredInjective(k: Kind, c: Color, k': Kind, c': Color)
    ensures Colored(k, c) == Colored(k', c') ==> k == k' && c == c'
  {
  }

  /** `Colored::X<White>` is the white piece of kind X and
      `Colored::X<Black>` the black one. */
  lemma ColoredPieces()
    ensures Colored(Pawn, White) == WPawn && Colored(Pawn, Black) == BPawn
    ensures Colored(Knight, White) == WKnight && Colored(Knight, Black) == BKnight
    ensures Colored(Rook, White) == WRook && Colored(Rook, Black) == BRook
    ensures Colored(Bishop, White) == WBishop && Colored(Bishop, Black) == BBishop
    ensures Colored(Queen, White) == WQueen && Colored(Queen, Black) == BQueen
    ensures Colored(King, White) == WKing && Colored(King, Black) == BKing
  {
  }

  /** `Colored::Opposite` swaps the two colours and is an involution. */
  lemma OppositeInvolution(c: Color)
    ensures Opposite(Opposite(c)) == c
    ensures Opposite(White) == Black && Opposite(Black) == White
  {
  }

  /** `charPiece<C>` inverts `KindLetter`: each lower-case letter yields the
      piece of its kind in colour `c`, and upper-case letters yield None. */
  lemma CharPieceLetters(c: Color, k: Kind)
    ensures CharPiece(c, KindLetter(k)) == Colored(k, c)
    ensures CharPiece(c, KindLetter(k) - 'a' + 'A') == None
  {
  }
}
