// The constant tables of chess/Board.h, one function per table from a file
// and a rank to the literal entry `[file][rank]`, and the facts about them
// that the rest of the model uses, which the verifier settles by evaluating
// the entries.
module Tables {
  import opened Bits

  /** A file or rank value, 0..7, as used to index the tables. */
  type Coord = x: bv8 | x < 8

  /** The bit of square (f, r): rank-major, with file A as the high bit of its
      rank byte, so a1 is bit 7, h1 bit 0 and a8 bit 63. */
  function Index(f: Coord, r: Coord): (i: bv8)
    ensures i < 64 && i / 8 == r && i % 8 == 7 - f
  {
    8 * r + 7 - f
  }

  /** One entry of a ray table: the squares of a line through a square on the
      low-bit side (`lower`) and the high-bit side (`upper`), and both. */
  datatype SquareRays = SquareRays(lower: bv64, upper: bv64, line: bv64)


  /** `s_squares` (chess/Board.h:235-251) */
  function SquareTable(f: Coord, r: Coord): bv64
  {
    match f
    case 0 =>
      (match r
       case 0 => 0x0000_0000_0000_0080
       case 1 => 0x0000_0000_0000_8000
       case 2 => 0x0000_0000_0080_0000
       case 3 => 0x0000_0000_8000_0000
       case 4 => 0x0000_0080_0000_0000
       case 5 => 0x0000_8000_0000_0000
       case 6 => 0x0080_0000_0000_0000
       case _ => 0x8000_0000_0000_0000)
    case 1 =>
      (match r
       case 0 => 0x0000_0000_0000_0040
       case 1 => 0x0000_0000_0000_4000
       case 2 => 0x0000_0000_0040_0000
       case 3 => 0x0000_0000_4000_0000
       case 4 => 0x0000_0040_0000_0000
       case 5 => 0x0000_4000_0000_0000
       case 6 => 0x0040_0000_0000_0000
       case _ => 0x4000_0000_0000_0000)
    case 2 =>
      (match r
       case 0 => 0x0000_0000_0000_0020
       case 1 => 0x0000_0000_0000_2000
       case 2 => 0x0000_0000_0020_0000
       case 3 => 0x0000_0000_2000_0000
       case 4 => 0x0000_0020_0000_0000
       case 5 => 0x0000_2000_0000_0000
       case 6 => 0x0020_0000_0000_0000
       case _ => 0x2000_0000_0000_0000)
    case 3 =>
      (match r
       case 0 => 0x0000_0000_0000_0010
       case 1 => 0x0000_0000_0000_1000
       case 2 => 0x0000_0000_0010_0000
       case 3 => 0x0000_0000_1000_0000
       case 4 => 0x0000_0010_0000_0000
       case 5 => 0x0000_1000_0000_0000
       case 6 => 0x0010_0000_0000_0000
       case _ => 0x1000_0000_0000_0000)
    case 4 =>
      (match r
       case 0 => 0x0000_0000_0000_0008
       case 1 => 0x0000_0000_0000_0800
       case 2 => 0x0000_0000_0008_0000
       case 3 => 0x0000_0000_0800_0000
       case 4 => 0x0000_0008_0000_0000
       case 5 => 0x0000_0800_0000_0000
       case 6 => 0x0008_0000_0000_0000
       case _ => 0x0800_0000_0000_0000)
    case 5 =>
      (match r
       case 0 => 0x0000_0000_0000_0004
       case 1 => 0x0000_0000_0000_0400
       case 2 => 0x0000_0000_0004_0000
       case 3 => 0x0000_0000_0400_0000
       case 4 => 0x0000_0004_0000_0000
       case 5 => 0x0000_0400_0000_0000
       case 6 => 0x0004_0000_0000_0000
       case _ => 0x0400_0000_0000_0000)
    case 6 =>
      (match r
       case 0 => 0x0000_0000_0000_0002
       case 1 => 0x0000_0000_0000_0200
       case 2 => 0x0000_0000_0002_0000
       case 3 => 0x0000_0000_0200_0000
       case 4 => 0x0000_0002_0000_0000
       case 5 => 0x0000_0200_0000_0000
       case 6 => 0x0002_0000_0000_0000
       case _ => 0x0200_0000_0000_0000)
    case _ =>
      (match r
       case 0 => 0x0000_0000_0000_0001
       case 1 => 0x0000_0000_0000_0100
       case 2 => 0x0000_0000_0001_0000
       case 3 => 0x0000_0000_0100_0000
       case 4 => 0x0000_0001_0000_0000
       case 5 => 0x0000_0100_0000_0000
       case 6 => 0x0001_0000_0000_0000
       case _ => 0x0100_0000_0000_0000)
  }

  /** `s_wPawnMoves` (chess/Board.h:259-275) */
  function WhitePawnPushes(f: Coord, r: Coord): bv64
  {
    match f
    case 0 =>
      (match r
       case 0 => 0x0000_0000_0000_8000
       case 1 => 0x0000_0000_0080_0000
       case 2 => 0x0000_0000_8000_0000
       case 3 => 0x0000_0080_0000_0000
       case 4 => 0x0000_8000_0000_0000
       case 5 => 0x0080_0000_0000_0000
       case 6 => 0x8000_0000_0000_0000
       case _ => 0x0000_0000_0000_0000)
    case 1 =>
      (match r
       case 0 => 0x0000_0000_0000_4000
       case 1 => 0x0000_0000_0040_0000
       case 2 => 0x0000_0000_4000_0000
       case 3 => 0x0000_0040_0000_0000
       case 4 => 0x0000_4000_0000_0000
       case 5 => 0x0040_0000_0000_0000
       case 6 => 0x4000_0000_0000_0000
       case _ => 0x0000_0000_0000_0000)
    case 2 =>
      (match r
       case 0 => 0x0000_0000_0000_2000
       case 1 => 0x0000_0000_0020_0000
       case 2 => 0x0000_0000_2000_0000
       case 3 => 0x0000_0020_0000_0000
       case 4 => 0x0000_2000_0000_0000
       case 5 => 0x0020_0000_0000_0000
       case 6 => 0x2000_0000_0000_0000
       case _ => 0x0000_0000_0000_0000)
    case 3 =>
      (match r
       case 0 => 0x0000_0000_0000_1000
       case 1 => 0x0000_0000_0010_0000
       case 2 => 0x0000_0000_1000_0000
       case 3 => 0x0000_0010_0000_0000
       case 4 => 0x0000_1000_0000_0000
       case 5 => 0x0010_0000_0000_0000
       case 6 => 0x1000_0000_0000_0000
       case _ => 0x0000_0000_0000_0000)
    case 4 =>
      (match r
       case 0 => 0x0000_0000_0000_0800
       case 1 => 0x0000_0000_0008_0000
       case 2 => 0x0000_0000_0800_0000
       case 3 => 0x0000_0008_0000_0000
       case 4 => 0x0000_0800_0000_0000
       case 5 => 0x0008_0000_0000_0000
       case 6 => 0x0800_0000_0000_0000
       case _ => 0x0000_0000_0000_0000)
    case 5 =>
      (match r
       case 0 => 0x0000_0000_0000_0400
       case 1 => 0x0000_0000_0004_0000
       case 2 => 0x0000_0000_0400_0000
       case 3 => 0x0000_0004_0000_0000
       case 4 => 0x0000_0400_0000_0000
       case 5 => 0x0004_0000_0000_0000
       case 6 => 0x0400_0000_0000_0000
       case _ => 0x0000_0000_0000_0000)
    case 6 =>
      (match r
       case 0 => 0x0000_0000_0000_0200
       case 1 => 0x0000_0000_0002_0000
       case 2 => 0x0000_0000_0200_0000
       case 3 => 0x0000_0002_0000_0000
       case 4 => 0x0000_0200_0000_0000
       case 5 => 0x0002_0000_0000_0000
       case 6 => 0x0200_0000_0000_0000
       case _ => 0x0000_0000_0000_0000)
    case _ =>
      (match r
       case 0 => 0x0000_0000_0000_0100
       case 1 => 0x0000_0000_0001_0000
       case 2 => 0x0000_0000_0100_0000
       case 3 => 0x0000_0001_0000_0000
       case 4 => 0x0000_0100_0000_0000
       case 5 => 0x0001_0000_0000_0000
       case 6 => 0x0100_0000_0000_0000
       case _ => 0x0000_0000_0000_0000)
  }

  /** `s_bPawnMoves` (chess/Board.h:277-293) */
  function BlackPawnPushes(f: Coord, r: Coord): bv64
  {
    match f
    case 0 =>
      (match r
       case 0 => 0x0000_0000_0000_0000
       case 1 => 0x0000_0000_0000_0080
       case 2 => 0x0000_0000_0000_8000
       case 3 => 0x0000_0000_0080_0000
       case 4 => 0x0000_0000_8000_0000
       case 5 => 0x0000_0080_0000_0000
       case 6 => 0x0000_8000_0000_0000
       case _ => 0x0080_0000_0000_0000)
    case 1 =>
      (match r
       case 0 => 0x0000_0000_0000_0000
       case 1 => 0x0000_0000_0000_0040
       case 2 => 0x0000_0000_0000_4000
       case 3 => 0x0000_0000_0040_0000
       case 4 => 0x0000_0000_4000_0000
       case 5 => 0x0000_0040_0000_0000
       case 6 => 0x0000_4000_0000_0000
       case _ => 0x0040_0000_0000_0000)
    case 2 =>
      (match r
       case 0 => 0x0000_0000_0000_0000
       case 1 => 0x0000_0000_0000_0020
       case 2 => 0x0000_0000_0000_2000
       case 3 => 0x0000_0000_0020_0000
       case 4 => 0x0000_0000_2000_0000
       case 5 => 0x0000_0020_0000_0000
       case 6 => 0x0000_2000_0000_0000
       case _ => 0x0020_0000_0000_0000)
    case 3 =>
      (match r
       case 0 => 0x0000_0000_0000_0000
       case 1 => 0x0000_0000_0000_0010
       case 2 => 0x0000_0000_0000_1000
       case 3 => 0x0000_0000_0010_0000
       case 4 => 0x0000_0000_1000_0000
       case 5 => 0x0000_0010_0000_0000
       case 6 => 0x0000_1000_0000_0000
       case _ => 0x0010_0000_0000_0000)
    case 4 =>
      (match r
       case 0 => 0x0000_0000_0000_0000
       case 1 => 0x0000_0000_0000_0008
       case 2 => 0x0000_0000_0000_0800
       case 3 => 0x0000_0000_0008_0000
       case 4 => 0x0000_0000_0800_0000
       case 5 => 0x0000_0008_0000_0000
       case 6 => 0x0000_0800_0000_0000
       case _ => 0x0008_0000_0000_0000)
    case 5 =>
      (match r
       case 0 => 0x0000_0000_0000_0000
       case 1 => 0x0000_0000_0000_0004
       case 2 => 0x0000_0000_0000_0400
       case 3 => 0x0000_0000_0004_0000
       case 4 => 0x0000_0000_0400_0000
       case 5 => 0x0000_0004_0000_0000
       case 6 => 0x0000_0400_0000_0000
       case _ => 0x0004_0000_0000_0000)
    case 6 =>
      (match r
       case 0 => 0x0000_0000_0000_0000
       case 1 => 0x0000_0000_0000_0002
       case 2 => 0x0000_0000_0000_0200
       case 3 => 0x0000_0000_0002_0000
       case 4 => 0x0000_0000_0200_0000
       case 5 => 0x0000_0002_0000_0000
       case 6 => 0x0000_0200_0000_0000
       case _ => 0x0002_0000_0000_0000)
    case _ =>
      (match r
       case 0 => 0x0000_0000_0000_0000
       case 1 => 0x0000_0000_0000_0001
       case 2 => 0x0000_0000_0000_0100
       case 3 => 0x0000_0000_0001_0000
       case 4 => 0x0000_0000_0100_0000
       case 5 => 0x0000_0001_0000_0000
       case 6 => 0x0000_0100_0000_0000
       case _ => 0x0001_0000_0000_0000)
  }

  /** `s_wPawnAttacks` (chess/Board.h:295-311) */
  function WhitePawnAttacks(f: Coord, r: Coord): bv64
  {
    match f
    case 0 =>
      (match r
       case 0 => 0x0000_0000_0000_4000
       case 1 => 0x0000_0000_0040_0000
       case 2 => 0x0000_0000_4000_0000
       case 3 => 0x0000_0040_0000_0000
       case 4 => 0x0000_4000_0000_0000
       case 5 => 0x0040_0000_0000_0000
       case 6 => 0x4000_0000_0000_0000
       case _ => 0x0000_0000_0000_0000)
    case 1 =>
      (match r
       case 0 => 0x0000_0000_0000_A000
       case 1 => 0x0000_0000_00A0_0000
       case 2 => 0x0000_0000_A000_0000
       case 3 => 0x0000_00A0_0000_0000
       case 4 => 0x0000_A000_0000_0000
       case 5 => 0x00A0_0000_0000_0000
       case 6 => 0xA000_0000_0000_0000
       case _ => 0x0000_0000_0000_0000)
    case 2 =>
      (match r
       case 0 => 0x0000_0000_0000_5000
       case 1 => 0x0000_0000_0050_0000
       case 2 => 0x0000_0000_5000_0000
       case 3 => 0x0000_0050_0000_0000
       case 4 => 0x0000_5000_0000_0000
       case 5 => 0x0050_0000_0000_0000
       case 6 => 0x5000_0000_0000_0000
       case _ => 0x0000_0000_0000_0000)
    case 3 =>
      (match r
       case 0 => 0x0000_0000_0000_2800
       case 1 => 0x0000_0000_0028_0000
       case 2 => 0x0000_0000_2800_0000
       case 3 => 0x0000_0028_0000_0000
       case 4 => 0x0000_2800_0000_0000
       case 5 => 0x0028_0000_0000_0000
       case 6 => 0x2800_0000_0000_0000
       case _ => 0x0000_0000_0000_0000)
    case 4 =>
      (match r
       case 0 => 0x0000_0000_0000_1400
       case 1 => 0x0000_0000_0014_0000
       case 2 => 0x0000_0000_1400_0000
       case 3 => 0x0000_0014_0000_0000
       case 4 => 0x0000_1400_0000_0000
       case 5 => 0x0014_0000_0000_0000
       case 6 => 0x1400_0000_0000_0000
       case _ => 0x0000_0000_0000_0000)
    case 5 =>
      (match r
       case 0 => 0x0000_0000_0000_0A00
       case 1 => 0x0000_0000_000A_0000
       case 2 => 0x0000_0000_0A00_0000
       case 3 => 0x0000_000A_0000_0000
       case 4 => 0x0000_0A00_0000_0000
       case 5 => 0x000A_0000_0000_0000
       case 6 => 0x0A00_0000_0000_0000
       case _ => 0x0000_0000_0000_0000)
    case 6 =>
      (match r
       case 0 => 0x0000_0000_0000_0500
       case 1 => 0x0000_0000_0005_0000
       case 2 => 0x0000_0000_0500_0000
       case 3 => 0x0000_0005_0000_0000
       case 4 => 0x0000_0500_0000_0000
       case 5 => 0x0005_0000_0000_0000
       case 6 => 0x0500_0000_0000_0000
       case _ => 0x0000_0000_0000_0000)
    case _ =>
      (match r
       case 0 => 0x0000_0000_0000_0200
       case 1 => 0x0000_0000_0002_0000
       case 2 => 0x0000_0000_0200_0000
       case 3 => 0x0000_0002_0000_0000
       case 4 => 0x0000_0200_0000_0000
       case 5 => 0x0002_0000_0000_0000
       case 6 => 0x0200_0000_0000_0000
       case _ => 0x0000_0000_0000_0000)
  }

  /** `s_bPawnAttacks` (chess/Board.h:313-329) */
  function BlackPawnAttacks(f: Coord, r: Coord): bv64
  {
    match f
    case 0 =>
      (match r
       case 0 => 0x0000_0000_0000_0000
       case 1 => 0x0000_0000_0000_0040
       case 2 => 0x0000_0000_0000_4000
       case 3 => 0x0000_0000_0040_0000
       case 4 => 0x0000_0000_4000_0000
       case 5 => 0x0000_0040_0000_0000
       case 6 => 0x0000_4000_0000_0000
       case _ => 0x0040_0000_0000_0000)
    case 1 =>
      (match r
       case 0 => 0x0000_0000_0000_0000
       case 1 => 0x0000_0000_0000_00A0
       case 2 => 0x0000_0000_0000_A000
       case 3 => 0x0000_0000_00A0_0000
       case 4 => 0x0000_0000_A000_0000
       case 5 => 0x0000_00A0_0000_0000
       case 6 => 0x0000_A000_0000_0000
       case _ => 0x00A0_0000_0000_0000)
    case 2 =>
      (match r
       case 0 => 0x0000_0000_0000_0000
       case 1 => 0x0000_0000_0000_0050
       case 2 => 0x0000_0000_0000_5000
       case 3 => 0x0000_0000_0050_0000
       case 4 => 0x0000_0000_5000_0000
       case 5 => 0x0000_0050_0000_0000
       case 6 => 0x0000_5000_0000_0000
       case _ => 0x0050_0000_0000_0000)
    case 3 =>
      (match r
       case 0 => 0x0000_0000_0000_0000
       case 1 => 0x0000_0000_0000_0028
       case 2 => 0x0000_0000_0000_2800
       case 3 => 0x0000_0000_0028_0000
       case 4 => 0x0000_0000_2800_0000
       case 5 => 0x0000_0028_0000_0000
       case 6 => 0x0000_2800_0000_0000
       case _ => 0x0028_0000_0000_0000)
    case 4 =>
      (match r
       case 0 => 0x0000_0000_0000_0000
       case 1 => 0x0000_0000_0000_0014
       case 2 => 0x0000_0000_0000_1400
       case 3 => 0x0000_0000_0014_0000
       case 4 => 0x0000_0000_1400_0000
       case 5 => 0x0000_0014_0000_0000
       case 6 => 0x0000_1400_0000_0000
       case _ => 0x0014_0000_0000_0000)
    case 5 =>
      (match r
       case 0 => 0x0000_0000_0000_0000
       case 1 => 0x0000_0000_0000_000A
       case 2 => 0x0000_0000_0000_0A00
       case 3 => 0x0000_0000_000A_0000
       case 4 => 0x0000_0000_0A00_0000
       case 5 => 0x0000_000A_0000_0000
       case 6 => 0x0000_0A00_0000_0000
       case _ => 0x000A_0000_0000_0000)
    case 6 =>
      (match r
       case 0 => 0x0000_0000_0000_0000
       case 1 => 0x0000_0000_0000_0005
       case 2 => 0x0000_0000_0000_0500
       case 3 => 0x0000_0000_0005_0000
       case 4 => 0x0000_0000_0500_0000
       case 5 => 0x0000_0005_0000_0000
       case 6 => 0x0000_0500_0000_0000
       case _ => 0x0005_0000_0000_0000)
    case _ =>
      (match r
       case 0 => 0x0000_0000_0000_0000
       case 1 => 0x0000_0000_0000_0002
       case 2 => 0x0000_0000_0000_0200
       case 3 => 0x0000_0000_0002_0000
       case 4 => 0x0000_0000_0200_0000
       case 5 => 0x0000_0002_0000_0000
       case 6 => 0x0000_0200_0000_0000
       case _ => 0x0002_0000_0000_0000)
  }

  /** `s_knightMoves` (chess/Board.h:331-347) */
  function KnightTable(f: Coord, r: Coord): bv64
  {
    match f
    case 0 =>
      (match r
       case 0 => 0x0000_0000_0040_2000
       case 1 => 0x0000_0000_4020_0020
       case 2 => 0x0000_0040_2000_2040
       case 3 => 0x0000_4020_0020_4000
       case 4 => 0x0040_2000_2040_0000
       case 5 => 0x4020_0020_4000_0000
       case 6 => 0x2000_2040_0000_0000
       case _ => 0x0020_4000_0000_0000)
    case 1 =>
      (match r
       case 0 => 0x0000_0000_00A0_1000
       case 1 => 0x0000_0000_A010_0010
       case 2 => 0x0000_00A0_1000_10A0
       case 3 => 0x0000_A010_0010_A000
       case 4 => 0x00A0_1000_10A0_0000
       case 5 => 0xA010_0010_A000_0000
       case 6 => 0x1000_10A0_0000_0000
       case _ => 0x0010_A000_0000_0000)
    case 2 =>
      (match r
       case 0 => 0x0000_0000_0050_8800
       case 1 => 0x0000_0000_5088_0088
       case 2 => 0x0000_0050_8800_8850
       case 3 => 0x0000_5088_0088_5000
       case 4 => 0x0050_8800_8850_0000
       case 5 => 0x5088_0088_5000_0000
       case 6 => 0x8800_8850_0000_0000
       case _ => 0x0088_5000_0000_0000)
    case 3 =>
      (match r
       case 0 => 0x0000_0000_0028_4400
       case 1 => 0x0000_0000_2844_0044
       case 2 => 0x0000_0028_4400_4428
       case 3 => 0x0000_2844_0044_2800
       case 4 => 0x0028_4400_4428_0000
       case 5 => 0x2844_0044_2800_0000
       case 6 => 0x4400_4428_0000_0000
       case _ => 0x0044_2800_0000_0000)
    case 4 =>
      (match r
       case 0 => 0x0000_0000_0014_2200
       case 1 => 0x0000_0000_1422_0022
       case 2 => 0x0000_0014_2200_2214
       case 3 => 0x0000_1422_0022_1400
       case 4 => 0x0014_2200_2214_0000
       case 5 => 0x1422_0022_1400_0000
       case 6 => 0x2200_2214_0000_0000
       case _ => 0x0022_1400_0000_0000)
    case 5 =>
      (match r
       case 0 => 0x0000_0000_000A_1100
       case 1 => 0x0000_0000_0A11_0011
       case 2 => 0x0000_000A_1100_110A
       case 3 => 0x0000_0A11_0011_0A00
       case 4 => 0x000A_1100_110A_0000
       case 5 => 0x0A11_0011_0A00_0000
       case 6 => 0x1100_110A_0000_0000
       case _ => 0x0011_0A00_0000_0000)
    case 6 =>
      (match r
       case 0 => 0x0000_0000_0005_0800
       case 1 => 0x0000_0000_0508_0008
       case 2 => 0x0000_0005_0800_0805
       case 3 => 0x0000_0508_0008_0500
       case 4 => 0x0005_0800_0805_0000
       case 5 => 0x0508_0008_0500_0000
       case 6 => 0x0800_0805_0000_0000
       case _ => 0x0008_0500_0000_0000)
    case _ =>
      (match r
       case 0 => 0x0000_0000_0002_0400
       case 1 => 0x0000_0000_0204_0004
       case 2 => 0x0000_0002_0400_0402
       case 3 => 0x0000_0204_0004_0200
       case 4 => 0x0002_0400_0402_0000
       case 5 => 0x0204_0004_0200_0000
       case 6 => 0x0400_0402_0000_0000
       case _ => 0x0004_0200_0000_0000)
  }

  /** `s_rookMoves` (chess/Board.h:349-365) */
  function RookTable(f: Coord, r: Coord): bv64
  {
    match f
    case 0 =>
      (match r
       case 0 => 0x8080_8080_8080_807F
       case 1 => 0x8080_8080_8080_7F80
       case 2 => 0x8080_8080_807F_8080
       case 3 => 0x8080_8080_7F80_8080
       case 4 => 0x8080_807F_8080_8080
       case 5 => 0x8080_7F80_8080_8080
       case 6 => 0x807F_8080_8080_8080
       case _ => 0x7F80_8080_8080_8080)
    case 1 =>
      (match r
       case 0 => 0x4040_4040_4040_40BF
       case 1 => 0x4040_4040_4040_BF40
       case 2 => 0x4040_4040_40BF_4040
       case 3 => 0x4040_4040_BF40_4040
       case 4 => 0x4040_40BF_4040_4040
       case 5 => 0x4040_BF40_4040_4040
       case 6 => 0x40BF_4040_4040_4040
       case _ => 0xBF40_4040_4040_4040)
    case 2 =>
      (match r
       case 0 => 0x2020_2020_2020_20DF
       case 1 => 0x2020_2020_2020_DF20
       case 2 => 0x2020_2020_20DF_2020
       case 3 => 0x2020_2020_DF20_2020
       case 4 => 0x2020_20DF_2020_2020
       case 5 => 0x2020_DF20_2020_2020
       case 6 => 0x20DF_2020_2020_2020
       case _ => 0xDF20_2020_2020_2020)
    case 3 =>
      (match r
       case 0 => 0x1010_1010_1010_10EF
       case 1 => 0x1010_1010_1010_EF10
       case 2 => 0x1010_1010_10EF_1010
       case 3 => 0x1010_1010_EF10_1010
       case 4 => 0x1010_10EF_1010_1010
       case 5 => 0x1010_EF10_1010_1010
       case 6 => 0x10EF_1010_1010_1010
       case _ => 0xEF10_1010_1010_1010)
    case 4 =>
      (match r
       case 0 => 0x0808_0808_0808_08F7
       case 1 => 0x0808_0808_0808_F708
       case 2 => 0x0808_0808_08F7_0808
       case 3 => 0x0808_0808_F708_0808
       case 4 => 0x0808_08F7_0808_0808
       case 5 => 0x0808_F708_0808_0808
       case 6 => 0x08F7_0808_0808_0808
       case _ => 0xF708_0808_0808_0808)
    case 5 =>
      (match r
       case 0 => 0x0404_0404_0404_04FB
       case 1 => 0x0404_0404_0404_FB04
       case 2 => 0x0404_0404_04FB_0404
       case 3 => 0x0404_0404_FB04_0404
       case 4 => 0x0404_04FB_0404_0404
       case 5 => 0x0404_FB04_0404_0404
       case 6 => 0x04FB_0404_0404_0404
       case _ => 0xFB04_0404_0404_0404)
    case 6 =>
      (match r
       case 0 => 0x0202_0202_0202_02FD
       case 1 => 0x0202_0202_0202_FD02
       case 2 => 0x0202_0202_02FD_0202
       case 3 => 0x0202_0202_FD02_0202
       case 4 => 0x0202_02FD_0202_0202
       case 5 => 0x0202_FD02_0202_0202
       case 6 => 0x02FD_0202_0202_0202
       case _ => 0xFD02_0202_0202_0202)
    case _ =>
      (match r
       case 0 => 0x0101_0101_0101_01FE
       case 1 => 0x0101_0101_0101_FE01
       case 2 => 0x0101_0101_01FE_0101
       case 3 => 0x0101_0101_FE01_0101
       case 4 => 0x0101_01FE_0101_0101
       case 5 => 0x0101_FE01_0101_0101
       case 6 => 0x01FE_0101_0101_0101
       case _ => 0xFE01_0101_0101_0101)
  }

  /** `s_bishopMoves` (chess/Board.h:367-383) */
  function BishopTable(f: Coord, r: Coord): bv64
  {
    match f
    case 0 =>
      (match r
       case 0 => 0x0102_0408_1020_4000
       case 1 => 0x0204_0810_2040_0040
       case 2 => 0x0408_1020_4000_4020
       case 3 => 0x0810_2040_0040_2010
       case 4 => 0x1020_4000_4020_1008
       case 5 => 0x2040_0040_2010_0804
       case 6 => 0x4000_4020_1008_0402
       case _ => 0x0040_2010_0804_0201)
    case 1 =>
      (match r
       case 0 => 0x0001_0204_0810_A000
       case 1 => 0x0102_0408_10A0_00A0
       case 2 => 0x0204_0810_A000_A010
       case 3 => 0x0408_10A0_00A0_1008
       case 4 => 0x0810_A000_A010_0804
       case 5 => 0x10A0_00A0_1008_0402
       case 6 => 0xA000_A010_0804_0201
       case _ => 0x00A0_1008_0402_0100)
    case 2 =>
      (match r
       case 0 => 0x0000_0102_0488_5000
       case 1 => 0x0001_0204_8850_0050
       case 2 => 0x0102_0488_5000_5088
       case 3 => 0x0204_8850_0050_8804
       case 4 => 0x0488_5000_5088_0402
       case 5 => 0x8850_0050_8804_0201
       case 6 => 0x5000_5088_0402_0100
       case _ => 0x0050_8804_0201_0000)
    case 3 =>
      (match r
       case 0 => 0x0000_0001_8244_2800
       case 1 => 0x0000_0182_4428_0028
       case 2 => 0x0001_8244_2800_2844
       case 3 => 0x0182_4428_0028_4482
       case 4 => 0x8244_2800_2844_8201
       case 5 => 0x4428_0028_4482_0100
       case 6 => 0x2800_2844_8201_0000
       case _ => 0x0028_4482_0100_0000)
    case 4 =>
      (match r
       case 0 => 0x0000_0080_4122_1400
       case 1 => 0x0000_8041_2214_0014
       case 2 => 0x0080_4122_1400_1422
       case 3 => 0x8041_2214_0014_2241
       case 4 => 0x4122_1400_1422_4180
       case 5 => 0x2214_0014_2241_8000
       case 6 => 0x1400_1422_4180_0000
       case _ => 0x0014_2241_8000_0000)
    case 5 =>
      (match r
       case 0 => 0x0000_8040_2011_0A00
       case 1 => 0x0080_4020_110A_000A
       case 2 => 0x8040_2011_0A00_0A11
       case 3 => 0x4020_110A_000A_1120
       case 4 => 0x2011_0A00_0A11_2040
       case 5 => 0x110A_000A_1120_4080
       case 6 => 0x0A00_0A11_2040_8000
       case _ => 0x000A_1120_4080_0000)
    case 6 =>
      (match r
       case 0 => 0x0080_4020_1008_0500
       case 1 => 0x8040_2010_0805_0005
       case 2 => 0x4020_1008_0500_0508
       case 3 => 0x2010_0805_0005_0810
       case 4 => 0x1008_0500_0508_1020
       case 5 => 0x0805_0005_0810_2040
       case 6 => 0x0500_0508_1020_4080
       case _ => 0x0005_0810_2040_8000)
    case _ =>
      (match r
       case 0 => 0x8040_2010_0804_0200
       case 1 => 0x4020_1008_0402_0002
       case 2 => 0x2010_0804_0200_0204
       case 3 => 0x1008_0402_0002_0408
       case 4 => 0x0804_0200_0204_0810
       case 5 => 0x0402_0002_0408_1020
       case 6 => 0x0200_0204_0810_2040
       case _ => 0x0002_0408_1020_4080)
  }

  /** `s_queenMoves` (chess/Board.h:385-401) */
  function QueenTable(f: Coord, r: Coord): bv64
  {
    match f
    case 0 =>
      (match r
       case 0 => 0x8182_8488_90A0_C07F
       case 1 => 0x8284_8890_A0C0_7FC0
       case 2 => 0x8488_90A0_C07F_C0A0
       case 3 => 0x8890_A0C0_7FC0_A090
       case 4 => 0x90A0_C07F_C0A0_9088
       case 5 => 0xA0C0_7FC0_A090_8884
       case 6 => 0xC07F_C0A0_9088_8482
       case _ => 0x7FC0_A090_8884_8281)
    case 1 =>
      (match r
       case 0 => 0x4041_4244_4850_E0BF
       case 1 => 0x4142_4448_50E0_BFE0
       case 2 => 0x4244_4850_E0BF_E050
       case 3 => 0x4448_50E0_BFE0_5048
       case 4 => 0x4850_E0BF_E050_4844
       case 5 => 0x50E0_BFE0_5048_4442
       case 6 => 0xE0BF_E050_4844_4241
       case _ => 0xBFE0_5048_4442_4140)
    case 2 =>
      (match r
       case 0 => 0x2020_2122_24A8_70DF
       case 1 => 0x2021_2224_A870_DF70
       case 2 => 0x2122_24A8_70DF_70A8
       case 3 => 0x2224_A870_DF70_A824
       case 4 => 0x24A8_70DF_70A8_2422
       case 5 => 0xA870_DF70_A824_2221
       case 6 => 0x70DF_70A8_2422_2120
       case _ => 0xDF70_A824_2221_2020)
    case 3 =>
      (match r
       case 0 => 0x1010_1011_9254_38EF
       case 1 => 0x1010_1192_5438_EF38
       case 2 => 0x1011_9254_38EF_3854
       case 3 => 0x1192_5438_EF38_5492
       case 4 => 0x9254_38EF_3854_9211
       case 5 => 0x5438_EF38_5492_1110
       case 6 => 0x38EF_3854_9211_1010
       case _ => 0xEF38_5492_1110_1010)
    case 4 =>
      (match r
       case 0 => 0x0808_0888_492A_1CF7
       case 1 => 0x0808_8849_2A1C_F71C
       case 2 => 0x0888_492A_1CF7_1C2A
       case 3 => 0x8849_2A1C_F71C_2A49
       case 4 => 0x492A_1CF7_1C2A_4988
       case 5 => 0x2A1C_F71C_2A49_8808
       case 6 => 0x1CF7_1C2A_4988_0808
       case _ => 0xF71C_2A49_8808_0808)
    case 5 =>
      (match r
       case 0 => 0x0404_8444_2415_0EFB
       case 1 => 0x0484_4424_150E_FB0E
       case 2 => 0x8444_2415_0EFB_0E15
       case 3 => 0x4424_150E_FB0E_1524
       case 4 => 0x2415_0EFB_0E15_2444
       case 5 => 0x150E_FB0E_1524_4484
       case 6 => 0x0EFB_0E15_2444_8404
       case _ => 0xFB0E_1524_4484_0404)
    case 6 =>
      (match r
       case 0 => 0x0282_4222_120A_07FD
       case 1 => 0x8242_2212_0A07_FD07
       case 2 => 0x4222_120A_07FD_070A
       case 3 => 0x2212_0A07_FD07_0A12
       case 4 => 0x120A_07FD_070A_1222
       case 5 => 0x0A07_FD07_0A12_2242
       case 6 => 0x07FD_070A_1222_4282
       case _ => 0xFD07_0A12_2242_8202)
    case _ =>
      (match r
       case 0 => 0x8141_2111_0905_03FE
       case 1 => 0x4121_1109_0503_FE03
       case 2 => 0x2111_0905_03FE_0305
       case 3 => 0x1109_0503_FE03_0509
       case 4 => 0x0905_03FE_0305_0911
       case 5 => 0x0503_FE03_0509_1121
       case 6 => 0x03FE_0305_0911_2141
       case _ => 0xFE03_0509_1121_4181)
  }

  /** `s_kingMoves` (chess/Board.h:403-419) */
  function KingTable(f: Coord, r: Coord): bv64
  {
    match f
    case 0 =>
      (match r
       case 0 => 0x0000_0000_0000_C040
       case 1 => 0x0000_0000_00C0_40C0
       case 2 => 0x0000_0000_C040_C000
       case 3 => 0x0000_00C0_40C0_0000
       case 4 => 0x0000_C040_C000_0000
       case 5 => 0x00C0_40C0_0000_0000
       case 6 => 0xC040_C000_0000_0000
       case _ => 0x40C0_0000_0000_0000)
    case 1 =>
      (match r
       case 0 => 0x0000_0000_0000_E0A0
       case 1 => 0x0000_0000_00E0_A0E0
       case 2 => 0x0000_0000_E0A0_E000
       case 3 => 0x0000_00E0_A0E0_0000
       case 4 => 0x0000_E0A0_E000_0000
       case 5 => 0x00E0_A0E0_0000_0000
       case 6 => 0xE0A0_E000_0000_0000
       case _ => 0xA0E0_0000_0000_0000)
    case 2 =>
      (match r
       case 0 => 0x0000_0000_0000_7050
       case 1 => 0x0000_0000_0070_5070
       case 2 => 0x0000_0000_7050_7000
       case 3 => 0x0000_0070_5070_0000
       case 4 => 0x0000_7050_7000_0000
       case 5 => 0x0070_5070_0000_0000
       case 6 => 0x7050_7000_0000_0000
       case _ => 0x5070_0000_0000_0000)
    case 3 =>
      (match r
       case 0 => 0x0000_0000_0000_3828
       case 1 => 0x0000_0000_0038_2838
       case 2 => 0x0000_0000_3828_3800
       case 3 => 0x0000_0038_2838_0000
       case 4 => 0x0000_3828_3800_0000
       case 5 => 0x0038_2838_0000_0000
       case 6 => 0x3828_3800_0000_0000
       case _ => 0x2838_0000_0000_0000)
    case 4 =>
      (match r
       case 0 => 0x0000_0000_0000_1C14
       case 1 => 0x0000_0000_001C_141C
       case 2 => 0x0000_0000_1C14_1C00
       case 3 => 0x0000_001C_141C_0000
       case 4 => 0x0000_1C14_1C00_0000
       case 5 => 0x001C_141C_0000_0000
       case 6 => 0x1C14_1C00_0000_0000
       case _ => 0x141C_0000_0000_0000)
    case 5 =>
      (match r
       case 0 => 0x0000_0000_0000_0E0A
       case 1 => 0x0000_0000_000E_0A0E
       case 2 => 0x0000_0000_0E0A_0E00
       case 3 => 0x0000_000E_0A0E_0000
       case 4 => 0x0000_0E0A_0E00_0000
       case 5 => 0x000E_0A0E_0000_0000
       case 6 => 0x0E0A_0E00_0000_0000
       case _ => 0x0A0E_0000_0000_0000)
    case 6 =>
      (match r
       case 0 => 0x0000_0000_0000_0705
       case 1 => 0x0000_0000_0007_0507
       case 2 => 0x0000_0000_0705_0700
       case 3 => 0x0000_0007_0507_0000
       case 4 => 0x0000_0705_0700_0000
       case 5 => 0x0007_0507_0000_0000
       case 6 => 0x0705_0700_0000_0000
       case _ => 0x0507_0000_0000_0000)
    case _ =>
      (match r
       case 0 => 0x0000_0000_0000_0302
       case 1 => 0x0000_0000_0003_0203
       case 2 => 0x0000_0000_0302_0300
       case 3 => 0x0000_0003_0203_0000
       case 4 => 0x0000_0302_0300_0000
       case 5 => 0x0003_0203_0000_0000
       case 6 => 0x0302_0300_0000_0000
       case _ => 0x0203_0000_0000_0000)
  }

  /** `s_fileRays` (chess/Board.h:421-485) */
  function FileRays(f: Coord, r: Coord): SquareRays
  {
    match f
    case 0 =>
      (match r
       case 0 => SquareRays(0x0000_0000_0000_0000, 0x8080_8080_8080_8000, 0x8080_8080_8080_8000)
       case 1 => SquareRays(0x0000_0000_0000_0080, 0x8080_8080_8080_0000, 0x8080_8080_8080_0080)
       case 2 => SquareRays(0x0000_0000_0000_8080, 0x8080_8080_8000_0000, 0x8080_8080_8000_8080)
       case 3 => SquareRays(0x0000_0000_0080_8080, 0x8080_8080_0000_0000, 0x8080_8080_0080_8080)
       case 4 => SquareRays(0x0000_0000_8080_8080, 0x8080_8000_0000_0000, 0x8080_8000_8080_8080)
       case 5 => SquareRays(0x0000_0080_8080_8080, 0x8080_0000_0000_0000, 0x8080_0080_8080_8080)
       case 6 => SquareRays(0x0000_8080_8080_8080, 0x8000_0000_0000_0000, 0x8000_8080_8080_8080)
       case _ => SquareRays(0x0080_8080_8080_8080, 0x0000_0000_0000_0000, 0x0080_8080_8080_8080))
    case 1 =>
      (match r
       case 0 => SquareRays(0x0000_0000_0000_0000, 0x4040_4040_4040_4000, 0x4040_4040_4040_4000)
       case 1 => SquareRays(0x0000_0000_0000_0040, 0x4040_4040_4040_0000, 0x4040_4040_4040_0040)
       case 2 => SquareRays(0x0000_0000_0000_4040, 0x4040_4040_4000_0000, 0x4040_4040_4000_4040)
       case 3 => SquareRays(0x0000_0000_0040_4040, 0x4040_4040_0000_0000, 0x4040_4040_0040_4040)
       case 4 => SquareRays(0x0000_0000_4040_4040, 0x4040_4000_0000_0000, 0x4040_4000_4040_4040)
       case 5 => SquareRays(0x0000_0040_4040_4040, 0x4040_0000_0000_0000, 0x4040_0040_4040_4040)
       case 6 => SquareRays(0x0000_4040_4040_4040, 0x4000_0000_0000_0000, 0x4000_4040_4040_4040)
       case _ => SquareRays(0x0040_4040_4040_4040, 0x0000_0000_0000_0000, 0x0040_4040_4040_4040))
    case 2 =>
      (match r
       case 0 => SquareRays(0x0000_0000_0000_0000, 0x2020_2020_2020_2000, 0x2020_2020_2020_2000)
       case 1 => SquareRays(0x0000_0000_0000_0020, 0x2020_2020_2020_0000, 0x2020_2020_2020_0020)
       case 2 => SquareRays(0x0000_0000_0000_2020, 0x2020_2020_2000_0000, 0x2020_2020_2000_2020)
       case 3 => SquareRays(0x0000_0000_0020_2020, 0x2020_2020_0000_0000, 0x2020_2020_0020_2020)
       case 4 => SquareRays(0x0000_0000_2020_2020, 0x2020_2000_0000_0000, 0x2020_2000_2020_2020)
       case 5 => SquareRays(0x0000_0020_2020_2020, 0x2020_0000_0000_0000, 0x2020_0020_2020_2020)
       case 6 => SquareRays(0x0000_2020_2020_2020, 0x2000_0000_0000_0000, 0x2000_2020_2020_2020)
       case _ => SquareRays(0x0020_2020_2020_2020, 0x0000_0000_0000_0000, 0x0020_2020_2020_2020))
    case 3 =>
      (match r
       case 0 => SquareRays(0x0000_0000_0000_0000, 0x1010_1010_1010_1000, 0x1010_1010_1010_1000)
       case 1 => SquareRays(0x0000_0000_0000_0010, 0x1010_1010_1010_0000, 0x1010_1010_1010_0010)
       case 2 => SquareRays(0x0000_0000_0000_1010, 0x1010_1010_1000_0000, 0x1010_1010_1000_1010)
       case 3 => SquareRays(0x0000_0000_0010_1010, 0x1010_1010_0000_0000, 0x1010_1010_0010_1010)
       case 4 => SquareRays(0x0000_0000_1010_1010, 0x1010_1000_0000_0000, 0x1010_1000_1010_1010)
       case 5 => SquareRays(0x0000_0010_1010_1010, 0x1010_0000_0000_0000, 0x1010_0010_1010_1010)
       case 6 => SquareRays(0x0000_1010_1010_1010, 0x1000_0000_0000_0000, 0x1000_1010_1010_1010)
       case _ => SquareRays(0x0010_1010_1010_1010, 0x0000_0000_0000_0000, 0x0010_1010_1010_1010))
    case 4 =>
      (match r
       case 0 => SquareRays(0x0000_0000_0000_0000, 0x0808_0808_0808_0800, 0x0808_0808_0808_0800)
       case 1 => SquareRays(0x0000_0000_0000_0008, 0x0808_0808_0808_0000, 0x0808_0808_0808_0008)
       case 2 => SquareRays(0x0000_0000_0000_0808, 0x0808_0808_0800_0000, 0x0808_0808_0800_0808)
       case 3 => SquareRays(0x0000_0000_0008_0808, 0x0808_0808_0000_0000, 0x0808_0808_0008_0808)
       case 4 => SquareRays(0x0000_0000_0808_0808, 0x0808_0800_0000_0000, 0x0808_0800_0808_0808)
       case 5 => SquareRays(0x0000_0008_0808_0808, 0x0808_0000_0000_0000, 0x0808_0008_0808_0808)
       case 6 => SquareRays(0x0000_0808_0808_0808, 0x0800_0000_0000_0000, 0x0800_0808_0808_0808)
       case _ => SquareRays(0x0008_0808_0808_0808, 0x0000_0000_0000_0000, 0x0008_0808_0808_0808))
    case 5 =>
      (match r
       case 0 => SquareRays(0x0000_0000_0000_0000, 0x0404_0404_0404_0400, 0x0404_0404_0404_0400)
       case 1 => SquareRays(0x0000_0000_0000_0004, 0x0404_0404_0404_0000, 0x0404_0404_0404_0004)
       case 2 => SquareRays(0x0000_0000_0000_0404, 0x0404_0404_0400_0000, 0x0404_0404_0400_0404)
       case 3 => SquareRays(0x0000_0000_0004_0404, 0x0404_0404_0000_0000, 0x0404_0404_0004_0404)
       case 4 => SquareRays(0x0000_0000_0404_0404, 0x0404_0400_0000_0000, 0x0404_0400_0404_0404)
       case 5 => SquareRays(0x0000_0004_0404_0404, 0x0404_0000_0000_0000, 0x0404_0004_0404_0404)
       case 6 => SquareRays(0x0000_0404_0404_0404, 0x0400_0000_0000_0000, 0x0400_0404_0404_0404)
       case _ => SquareRays(0x0004_0404_0404_0404, 0x0000_0000_0000_0000, 0x0004_0404_0404_0404))
    case 6 =>
      (match r
       case 0 => SquareRays(0x0000_0000_0000_0000, 0x0202_0202_0202_0200, 0x0202_0202_0202_0200)
       case 1 => SquareRays(0x0000_0000_0000_0002, 0x0202_0202_0202_0000, 0x0202_0202_0202_0002)
       case 2 => SquareRays(0x0000_0000_0000_0202, 0x0202_0202_0200_0000, 0x0202_0202_0200_0202)
       case 3 => SquareRays(0x0000_0000_0002_0202, 0x0202_0202_0000_0000, 0x0202_0202_0002_0202)
       case 4 => SquareRays(0x0000_0000_0202_0202, 0x0202_0200_0000_0000, 0x0202_0200_0202_0202)
       case 5 => SquareRays(0x0000_0002_0202_0202, 0x0202_0000_0000_0000, 0x0202_0002_0202_0202)
       case 6 => SquareRays(0x0000_0202_0202_0202, 0x0200_0000_0000_0000, 0x0200_0202_0202_0202)
       case _ => SquareRays(0x0002_0202_0202_0202, 0x0000_0000_0000_0000, 0x0002_0202_0202_0202))
    case _ =>
      (match r
       case 0 => SquareRays(0x0000_0000_0000_0000, 0x0101_0101_0101_0100, 0x0101_0101_0101_0100)
       case 1 => SquareRays(0x0000_0000_0000_0001, 0x0101_0101_0101_0000, 0x0101_0101_0101_0001)
       case 2 => SquareRays(0x0000_0000_0000_0101, 0x0101_0101_0100_0000, 0x0101_0101_0100_0101)
       case 3 => SquareRays(0x0000_0000_0001_0101, 0x0101_0101_0000_0000, 0x0101_0101_0001_0101)
       case 4 => SquareRays(0x0000_0000_0101_0101, 0x0101_0100_0000_0000, 0x0101_0100_0101_0101)
       case 5 => SquareRays(0x0000_0001_0101_0101, 0x0101_0000_0000_0000, 0x0101_0001_0101_0101)
       case 6 => SquareRays(0x0000_0101_0101_0101, 0x0100_0000_0000_0000, 0x0100_0101_0101_0101)
       case _ => SquareRays(0x0001_0101_0101_0101, 0x0000_0000_0000_0000, 0x0001_0101_0101_0101))
  }

  /** `s_rankRays` (chess/Board.h:487-551) */
  function RankRays(f: Coord, r: Coord): SquareRays
  {
    match f
    case 0 =>
      (match r
       case 0 => SquareRays(0x0000_0000_0000_007F, 0x0000_0000_0000_0000, 0x0000_0000_0000_007F)
       case 1 => SquareRays(0x0000_0000_0000_7F00, 0x0000_0000_0000_0000, 0x0000_0000_0000_7F00)
       case 2 => SquareRays(0x0000_0000_007F_0000, 0x0000_0000_0000_0000, 0x0000_0000_007F_0000)
       case 3 => SquareRays(0x0000_0000_7F00_0000, 0x0000_0000_0000_0000, 0x0000_0000_7F00_0000)
       case 4 => SquareRays(0x0000_007F_0000_0000, 0x0000_0000_0000_0000, 0x0000_007F_0000_0000)
       case 5 => SquareRays(0x0000_7F00_0000_0000, 0x0000_0000_0000_0000, 0x0000_7F00_0000_0000)
       case 6 => SquareRays(0x007F_0000_0000_0000, 0x0000_0000_0000_0000, 0x007F_0000_0000_0000)
       case _ => SquareRays(0x7F00_0000_0000_0000, 0x0000_0000_0000_0000, 0x7F00_0000_0000_0000))
    case 1 =>
      (match r
       case 0 => SquareRays(0x0000_0000_0000_003F, 0x0000_0000_0000_0080, 0x0000_0000_0000_00BF)
       case 1 => SquareRays(0x0000_0000_0000_3F00, 0x0000_0000_0000_8000, 0x0000_0000_0000_BF00)
       case 2 => SquareRays(0x0000_0000_003F_0000, 0x0000_0000_0080_0000, 0x0000_0000_00BF_0000)
       case 3 => SquareRays(0x0000_0000_3F00_0000, 0x0000_0000_8000_0000, 0x0000_0000_BF00_0000)
       case 4 => SquareRays(0x0000_003F_0000_0000, 0x0000_0080_0000_0000, 0x0000_00BF_0000_0000)
       case 5 => SquareRays(0x0000_3F00_0000_0000, 0x0000_8000_0000_0000, 0x0000_BF00_0000_0000)
       case 6 => SquareRays(0x003F_0000_0000_0000, 0x0080_0000_0000_0000, 0x00BF_0000_0000_0000)
       case _ => SquareRays(0x3F00_0000_0000_0000, 0x8000_0000_0000_0000, 0xBF00_0000_0000_0000))
    case 2 =>
      (match r
       case 0 => SquareRays(0x0000_0000_0000_001F, 0x0000_0000_0000_00C0, 0x0000_0000_0000_00DF)
       case 1 => SquareRays(0x0000_0000_0000_1F00, 0x0000_0000_0000_C000, 0x0000_0000_0000_DF00)
       case 2 => SquareRays(0x0000_0000_001F_0000, 0x0000_0000_00C0_0000, 0x0000_0000_00DF_0000)
       case 3 => SquareRays(0x0000_0000_1F00_0000, 0x0000_0000_C000_0000, 0x0000_0000_DF00_0000)
       case 4 => SquareRays(0x0000_001F_0000_0000, 0x0000_00C0_0000_0000, 0x0000_00DF_0000_0000)
       case 5 => SquareRays(0x0000_1F00_0000_0000, 0x0000_C000_0000_0000, 0x0000_DF00_0000_0000)
       case 6 => SquareRays(0x001F_0000_0000_0000, 0x00C0_0000_0000_0000, 0x00DF_0000_0000_0000)
       case _ => SquareRays(0x1F00_0000_0000_0000, 0xC000_0000_0000_0000, 0xDF00_0000_0000_0000))
    case 3 =>
      (match r
       case 0 => SquareRays(0x0000_0000_0000_000F, 0x0000_0000_0000_00E0, 0x0000_0000_0000_00EF)
       case 1 => SquareRays(0x0000_0000_0000_0F00, 0x0000_0000_0000_E000, 0x0000_0000_0000_EF00)
       case 2 => SquareRays(0x0000_0000_000F_0000, 0x0000_0000_00E0_0000, 0x0000_0000_00EF_0000)
       case 3 => SquareRays(0x0000_0000_0F00_0000, 0x0000_0000_E000_0000, 0x0000_0000_EF00_0000)
       case 4 => SquareRays(0x0000_000F_0000_0000, 0x0000_00E0_0000_0000, 0x0000_00EF_0000_0000)
       case 5 => SquareRays(0x0000_0F00_0000_0000, 0x0000_E000_0000_0000, 0x0000_EF00_0000_0000)
       case 6 => SquareRays(0x000F_0000_0000_0000, 0x00E0_0000_0000_0000, 0x00EF_0000_0000_0000)
       case _ => SquareRays(0x0F00_0000_0000_0000, 0xE000_0000_0000_0000, 0xEF00_0000_0000_0000))
    case 4 =>
      (match r
       case 0 => SquareRays(0x0000_0000_0000_0007, 0x0000_0000_0000_00F0, 0x0000_0000_0000_00F7)
       case 1 => SquareRays(0x0000_0000_0000_0700, 0x0000_0000_0000_F000, 0x0000_0000_0000_F700)
       case 2 => SquareRays(0x0000_0000_0007_0000, 0x0000_0000_00F0_0000, 0x0000_0000_00F7_0000)
       case 3 => SquareRays(0x0000_0000_0700_0000, 0x0000_0000_F000_0000, 0x0000_0000_F700_0000)
       case 4 => SquareRays(0x0000_0007_0000_0000, 0x0000_00F0_0000_0000, 0x0000_00F7_0000_0000)
       case 5 => SquareRays(0x0000_0700_0000_0000, 0x0000_F000_0000_0000, 0x0000_F700_0000_0000)
       case 6 => SquareRays(0x0007_0000_0000_0000, 0x00F0_0000_0000_0000, 0x00F7_0000_0000_0000)
       case _ => SquareRays(0x0700_0000_0000_0000, 0xF000_0000_0000_0000, 0xF700_0000_0000_0000))
    case 5 =>
      (match r
       case 0 => SquareRays(0x0000_0000_0000_0003, 0x0000_0000_0000_00F8, 0x0000_0000_0000_00FB)
       case 1 => SquareRays(0x0000_0000_0000_0300, 0x0000_0000_0000_F800, 0x0000_0000_0000_FB00)
       case 2 => SquareRays(0x0000_0000_0003_0000, 0x0000_0000_00F8_0000, 0x0000_0000_00FB_0000)
       case 3 => SquareRays(0x0000_0000_0300_0000, 0x0000_0000_F800_0000, 0x0000_0000_FB00_0000)
       case 4 => SquareRays(0x0000_0003_0000_0000, 0x0000_00F8_0000_0000, 0x0000_00FB_0000_0000)
       case 5 => SquareRays(0x0000_0300_0000_0000, 0x0000_F800_0000_0000, 0x0000_FB00_0000_0000)
       case 6 => SquareRays(0x0003_0000_0000_0000, 0x00F8_0000_0000_0000, 0x00FB_0000_0000_0000)
       case _ => SquareRays(0x0300_0000_0000_0000, 0xF800_0000_0000_0000, 0xFB00_0000_0000_0000))
    case 6 =>
      (match r
       case 0 => SquareRays(0x0000_0000_0000_0001, 0x0000_0000_0000_00FC, 0x0000_0000_0000_00FD)
       case 1 => SquareRays(0x0000_0000_0000_0100, 0x0000_0000_0000_FC00, 0x0000_0000_0000_FD00)
       case 2 => SquareRays(0x0000_0000_0001_0000, 0x0000_0000_00FC_0000, 0x0000_0000_00FD_0000)
       case 3 => SquareRays(0x0000_0000_0100_0000, 0x0000_0000_FC00_0000, 0x0000_0000_FD00_0000)
       case 4 => SquareRays(0x0000_0001_0000_0000, 0x0000_00FC_0000_0000, 0x0000_00FD_0000_0000)
       case 5 => SquareRays(0x0000_0100_0000_0000, 0x0000_FC00_0000_0000, 0x0000_FD00_0000_0000)
       case 6 => SquareRays(0x0001_0000_0000_0000, 0x00FC_0000_0000_0000, 0x00FD_0000_0000_0000)
       case _ => SquareRays(0x0100_0000_0000_0000, 0xFC00_0000_0000_0000, 0xFD00_0000_0000_0000))
    case _ =>
      (match r
       case 0 => SquareRays(0x0000_0000_0000_0000, 0x0000_0000_0000_00FE, 0x0000_0000_0000_00FE)
       case 1 => SquareRays(0x0000_0000_0000_0000, 0x0000_0000_0000_FE00, 0x0000_0000_0000_FE00)
       case 2 => SquareRays(0x0000_0000_0000_0000, 0x0000_0000_00FE_0000, 0x0000_0000_00FE_0000)
       case 3 => SquareRays(0x0000_0000_0000_0000, 0x0000_0000_FE00_0000, 0x0000_0000_FE00_0000)
       case 4 => SquareRays(0x0000_0000_0000_0000, 0x0000_00FE_0000_0000, 0x0000_00FE_0000_0000)
       case 5 => SquareRays(0x0000_0000_0000_0000, 0x0000_FE00_0000_0000, 0x0000_FE00_0000_0000)
       case 6 => SquareRays(0x0000_0000_0000_0000, 0x00FE_0000_0000_0000, 0x00FE_0000_0000_0000)
       case _ => SquareRays(0x0000_0000_0000_0000, 0xFE00_0000_0000_0000, 0xFE00_0000_0000_0000))
  }

  /** `s_diagonalRays` (chess/Board.h:553-617) */
  function DiagonalRays(f: Coord, r: Coord): SquareRays
  {
    match f
    case 0 =>
      (match r
       case 0 => SquareRays(0x0000_0000_0000_0000, 0x0102_0408_1020_4000, 0x0102_0408_1020_4000)
       case 1 => SquareRays(0x0000_0000_0000_0000, 0x0204_0810_2040_0000, 0x0204_0810_2040_0000)
       case 2 => SquareRays(0x0000_0000_0000_0000, 0x0408_1020_4000_0000, 0x0408_1020_4000_0000)
       case 3 => SquareRays(0x0000_0000_0000_0000, 0x0810_2040_0000_0000, 0x0810_2040_0000_0000)
       case 4 => SquareRays(0x0000_0000_0000_0000, 0x1020_4000_0000_0000, 0x1020_4000_0000_0000)
       case 5 => SquareRays(0x0000_0000_0000_0000, 0x2040_0000_0000_0000, 0x2040_0000_0000_0000)
       case 6 => SquareRays(0x0000_0000_0000_0000, 0x4000_0000_0000_0000, 0x4000_0000_0000_0000)
       case _ => SquareRays(0x0000_0000_0000_0000, 0x0000_0000_0000_0000, 0x0000_0000_0000_0000))
    case 1 =>
      (match r
       case 0 => SquareRays(0x0000_0000_0000_0000, 0x0001_0204_0810_2000, 0x0001_0204_0810_2000)
       case 1 => SquareRays(0x0000_0000_0000_0080, 0x0102_0408_1020_0000, 0x0102_0408_1020_0080)
       case 2 => SquareRays(0x0000_0000_0000_8000, 0x0204_0810_2000_0000, 0x0204_0810_2000_8000)
       case 3 => SquareRays(0x0000_0000_0080_0000, 0x0408_1020_0000_0000, 0x0408_1020_0080_0000)
       case 4 => SquareRays(0x0000_0000_8000_0000, 0x0810_2000_0000_0000, 0x0810_2000_8000_0000)
       case 5 => SquareRays(0x0000_0080_0000_0000, 0x1020_0000_0000_0000, 0x1020_0080_0000_0000)
       case 6 => SquareRays(0x0000_8000_0000_0000, 0x2000_0000_0000_0000, 0x2000_8000_0000_0000)
       case _ => SquareRays(0x0080_0000_0000_0000, 0x0000_0000_0000_0000, 0x0080_0000_0000_0000))
    case 2 =>
      (match r
       case 0 => SquareRays(0x0000_0000_0000_0000, 0x0000_0102_0408_1000, 0x0000_0102_0408_1000)
       case 1 => SquareRays(0x0000_0000_0000_0040, 0x0001_0204_0810_0000, 0x0001_0204_0810_0040)
       case 2 => SquareRays(0x0000_0000_0000_4080, 0x0102_0408_1000_0000, 0x0102_0408_1000_4080)
       case 3 => SquareRays(0x0000_0000_0040_8000, 0x0204_0810_0000_0000, 0x0204_0810_0040_8000)
       case 4 => SquareRays(0x0000_0000_4080_0000, 0x0408_1000_0000_0000, 0x0408_1000_4080_0000)
       case 5 => SquareRays(0x0000_0040_8000_0000, 0x0810_0000_0000_0000, 0x0810_0040_8000_0000)
       case 6 => SquareRays(0x0000_4080_0000_0000, 0x1000_0000_0000_0000, 0x1000_4080_0000_0000)
       case _ => SquareRays(0x0040_8000_0000_0000, 0x0000_0000_0000_0000, 0x0040_8000_0000_0000))
    case 3 =>
      (match r
       case 0 => SquareRays(0x0000_0000_0000_0000, 0x0000_0001_0204_0800, 0x0000_0001_0204_0800)
       case 1 => SquareRays(0x0000_0000_0000_0020, 0x0000_0102_0408_0000, 0x0000_0102_0408_0020)
       case 2 => SquareRays(0x0000_0000_0000_2040, 0x0001_0204_0800_0000, 0x0001_0204_0800_2040)
       case 3 => SquareRays(0x0000_0000_0020_4080, 0x0102_0408_0000_0000, 0x0102_0408_0020_4080)
       case 4 => SquareRays(0x0000_0000_2040_8000, 0x0204_0800_0000_0000, 0x0204_0800_2040_8000)
       case 5 => SquareRays(0x0000_0020_4080_0000, 0x0408_0000_0000_0000, 0x0408_0020_4080_0000)
       case 6 => SquareRays(0x0000_2040_8000_0000, 0x0800_0000_0000_0000, 0x0800_2040_8000_0000)
       case _ => SquareRays(0x0020_4080_0000_0000, 0x0000_0000_0000_0000, 0x0020_4080_0000_0000))
    case 4 =>
      (match r
       case 0 => SquareRays(0x0000_0000_0000_0000, 0x0000_0000_0102_0400, 0x0000_0000_0102_0400)
       case 1 => SquareRays(0x0000_0000_0000_0010, 0x0000_0001_0204_0000, 0x0000_0001_0204_0010)
       case 2 => SquareRays(0x0000_0000_0000_1020, 0x0000_0102_0400_0000, 0x0000_0102_0400_1020)
       case 3 => SquareRays(0x0000_0000_0010_2040, 0x0001_0204_0000_0000, 0x0001_0204_0010_2040)
       case 4 => SquareRays(0x0000_0000_1020_4080, 0x0102_0400_0000_0000, 0x0102_0400_1020_4080)
       case 5 => SquareRays(0x0000_0010_2040_8000, 0x0204_0000_0000_0000, 0x0204_0010_2040_8000)
       case 6 => SquareRays(0x0000_1020_4080_0000, 0x0400_0000_0000_0000, 0x0400_1020_4080_0000)
       case _ => SquareRays(0x0010_2040_8000_0000, 0x0000_0000_0000_0000, 0x0010_2040_8000_0000))
    case 5 =>
      (match r
       case 0 => SquareRays(0x0000_0000_0000_0000, 0x0000_0000_0001_0200, 0x0000_0000_0001_0200)
       case 1 => SquareRays(0x0000_0000_0000_0008, 0x0000_0000_0102_0000, 0x0000_0000_0102_0008)
       case 2 => SquareRays(0x0000_0000_0000_0810, 0x0000_0001_0200_0000, 0x0000_0001_0200_0810)
       case 3 => SquareRays(0x0000_0000_0008_1020, 0x0000_0102_0000_0000, 0x0000_0102_0008_1020)
       case 4 => SquareRays(0x0000_0000_0810_2040, 0x0001_0200_0000_0000, 0x0001_0200_0810_2040)
       case 5 => SquareRays(0x0000_0008_1020_4080, 0x0102_0000_0000_0000, 0x0102_0008_1020_4080)
       case 6 => SquareRays(0x0000_0810_2040_8000, 0x0200_0000_0000_0000, 0x0200_0810_2040_8000)
       case _ => SquareRays(0x0008_1020_4080_0000, 0x0000_0000_0000_0000, 0x0008_1020_4080_0000))
    case 6 =>
      (match r
       case 0 => SquareRays(0x0000_0000_0000_0000, 0x0000_0000_0000_0100, 0x0000_0000_0000_0100)
       case 1 => SquareRays(0x0000_0000_0000_0004, 0x0000_0000_0001_0000, 0x0000_0000_0001_0004)
       case 2 => SquareRays(0x0000_0000_0000_0408, 0x0000_0000_0100_0000, 0x0000_0000_0100_0408)
       case 3 => SquareRays(0x0000_0000_0004_0810, 0x0000_0001_0000_0000, 0x0000_0001_0004_0810)
       case 4 => SquareRays(0x0000_0000_0408_1020, 0x0000_0100_0000_0000, 0x0000_0100_0408_1020)
       case 5 => SquareRays(0x0000_0004_0810_2040, 0x0001_0000_0000_0000, 0x0001_0004_0810_2040)
       case 6 => SquareRays(0x0000_0408_1020_4080, 0x0100_0000_0000_0000, 0x0100_0408_1020_4080)
       case _ => SquareRays(0x0004_0810_2040_8000, 0x0000_0000_0000_0000, 0x0004_0810_2040_8000))
    case _ =>
      (match r
       case 0 => SquareRays(0x0000_0000_0000_0000, 0x0000_0000_0000_0000, 0x0000_0000_0000_0000)
       case 1 => SquareRays(0x0000_0000_0000_0002, 0x0000_0000_0000_0000, 0x0000_0000_0000_0002)
       case 2 => SquareRays(0x0000_0000_0000_0204, 0x0000_0000_0000_0000, 0x0000_0000_0000_0204)
       case 3 => SquareRays(0x0000_0000_0002_0408, 0x0000_0000_0000_0000, 0x0000_0000_0002_0408)
       case 4 => SquareRays(0x0000_0000_0204_0810, 0x0000_0000_0000_0000, 0x0000_0000_0204_0810)
       case 5 => SquareRays(0x0000_0002_0408_1020, 0x0000_0000_0000_0000, 0x0000_0002_0408_1020)
       case 6 => SquareRays(0x0000_0204_0810_2040, 0x0000_0000_0000_0000, 0x0000_0204_0810_2040)
       case _ => SquareRays(0x0002_0408_1020_4080, 0x0000_0000_0000_0000, 0x0002_0408_1020_4080))
  }

  /** `s_antidiagonalRays` (chess/Board.h:619-683) */
  function AntiDiagonalRays(f: Coord, r: Coord): SquareRays
  {
    match f
    case 0 =>
      (match r
       case 0 => SquareRays(0x0000_0000_0000_0000, 0x0000_0000_0000_0000, 0x0000_0000_0000_0000)
       case 1 => SquareRays(0x0000_0000_0000_0040, 0x0000_0000_0000_0000, 0x0000_0000_0000_0040)
       case 2 => SquareRays(0x0000_0000_0000_4020, 0x0000_0000_0000_0000, 0x0000_0000_0000_4020)
       case 3 => SquareRays(0x0000_0000_0040_2010, 0x0000_0000_0000_0000, 0x0000_0000_0040_2010)
       case 4 => SquareRays(0x0000_0000_4020_1008, 0x0000_0000_0000_0000, 0x0000_0000_4020_1008)
       case 5 => SquareRays(0x0000_0040_2010_0804, 0x0000_0000_0000_0000, 0x0000_0040_2010_0804)
       case 6 => SquareRays(0x0000_4020_1008_0402, 0x0000_0000_0000_0000, 0x0000_4020_1008_0402)
       case _ => SquareRays(0x0040_2010_0804_0201, 0x0000_0000_0000_0000, 0x0040_2010_0804_0201))
    case 1 =>
      (match r
       case 0 => SquareRays(0x0000_0000_0000_0000, 0x0000_0000_0000_8000, 0x0000_0000_0000_8000)
       case 1 => SquareRays(0x0000_0000_0000_0020, 0x0000_0000_0080_0000, 0x0000_0000_0080_0020)
       case 2 => SquareRays(0x0000_0000_0000_2010, 0x0000_0000_8000_0000, 0x0000_0000_8000_2010)
       case 3 => SquareRays(0x0000_0000_0020_1008, 0x0000_0080_0000_0000, 0x0000_0080_0020_1008)
       case 4 => SquareRays(0x0000_0000_2010_0804, 0x0000_8000_0000_0000, 0x0000_8000_2010_0804)
       case 5 => SquareRays(0x0000_0020_1008_0402, 0x0080_0000_0000_0000, 0x0080_0020_1008_0402)
       case 6 => SquareRays(0x0000_2010_0804_0201, 0x8000_0000_0000_0000, 0x8000_2010_0804_0201)
       case _ => SquareRays(0x0020_1008_0402_0100, 0x0000_0000_0000_0000, 0x0020_1008_0402_0100))
    case 2 =>
      (match r
       case 0 => SquareRays(0x0000_0000_0000_0000, 0x0000_0000_0080_4000, 0x0000_0000_0080_4000)
       case 1 => SquareRays(0x0000_0000_0000_0010, 0x0000_0000_8040_0000, 0x0000_0000_8040_0010)
       case 2 => SquareRays(0x0000_0000_0000_1008, 0x0000_0080_4000_0000, 0x0000_0080_4000_1008)
       case 3 => SquareRays(0x0000_0000_0010_0804, 0x0000_8040_0000_0000, 0x0000_8040_0010_0804)
       case 4 => SquareRays(0x0000_0000_1008_0402, 0x0080_4000_0000_0000, 0x0080_4000_1008_0402)
       case 5 => SquareRays(0x0000_0010_0804_0201, 0x8040_0000_0000_0000, 0x8040_0010_0804_0201)
       case 6 => SquareRays(0x0000_1008_0402_0100, 0x4000_0000_0000_0000, 0x4000_1008_0402_0100)
       case _ => SquareRays(0x0010_0804_0201_0000, 0x0000_0000_0000_0000, 0x0010_0804_0201_0000))
    case 3 =>
      (match r
       case 0 => SquareRays(0x0000_0000_0000_0000, 0x0000_0000_8040_2000, 0x0000_0000_8040_2000)
       case 1 => SquareRays(0x0000_0000_0000_0008, 0x0000_0080_4020_0000, 0x0000_0080_4020_0008)
       case 2 => SquareRays(0x0000_0000_0000_0804, 0x0000_8040_2000_0000, 0x0000_8040_2000_0804)
       case 3 => SquareRays(0x0000_0000_0008_0402, 0x0080_4020_0000_0000, 0x0080_4020_0008_0402)
       case 4 => SquareRays(0x0000_0000_0804_0201, 0x8040_2000_0000_0000, 0x8040_2000_0804_0201)
       case 5 => SquareRays(0x0000_0008_0402_0100, 0x4020_0000_0000_0000, 0x4020_0008_0402_0100)
       case 6 => SquareRays(0x0000_0804_0201_0000, 0x2000_0000_0000_0000, 0x2000_0804_0201_0000)
       case _ => SquareRays(0x0008_0402_0100_0000, 0x0000_0000_0000_0000, 0x0008_0402_0100_0000))
    case 4 =>
      (match r
       case 0 => SquareRays(0x0000_0000_0000_0000, 0x0000_0080_4020_1000, 0x0000_0080_4020_1000)
       case 1 => SquareRays(0x0000_0000_0000_0004, 0x0000_8040_2010_0000, 0x0000_8040_2010_0004)
       case 2 => SquareRays(0x0000_0000_0000_0402, 0x0080_4020_1000_0000, 0x0080_4020_1000_0402)
       case 3 => SquareRays(0x0000_0000_0004_0201, 0x8040_2010_0000_0000, 0x8040_2010_0004_0201)
       case 4 => SquareRays(0x0000_0000_0402_0100, 0x4020_1000_0000_0000, 0x4020_1000_0402_0100)
       case 5 => SquareRays(0x0000_0004_0201_0000, 0x2010_0000_0000_0000, 0x2010_0004_0201_0000)
       case 6 => SquareRays(0x0000_0402_0100_0000, 0x1000_0000_0000_0000, 0x1000_0402_0100_0000)
       case _ => SquareRays(0x0004_0201_0000_0000, 0x0000_0000_0000_0000, 0x0004_0201_0000_0000))
    case 5 =>
      (match r
       case 0 => SquareRays(0x0000_0000_0000_0000, 0x0000_8040_2010_0800, 0x0000_8040_2010_0800)
       case 1 => SquareRays(0x0000_0000_0000_0002, 0x0080_4020_1008_0000, 0x0080_4020_1008_0002)
       case 2 => SquareRays(0x0000_0000_0000_0201, 0x8040_2010_0800_0000, 0x8040_2010_0800_0201)
       case 3 => SquareRays(0x0000_0000_0002_0100, 0x4020_1008_0000_0000, 0x4020_1008_0002_0100)
       case 4 => SquareRays(0x0000_0000_0201_0000, 0x2010_0800_0000_0000, 0x2010_0800_0201_0000)
       case 5 => SquareRays(0x0000_0002_0100_0000, 0x1008_0000_0000_0000, 0x1008_0002_0100_0000)
       case 6 => SquareRays(0x0000_0201_0000_0000, 0x0800_0000_0000_0000, 0x0800_0201_0000_0000)
       case _ => SquareRays(0x0002_0100_0000_0000, 0x0000_0000_0000_0000, 0x0002_0100_0000_0000))
    case 6 =>
      (match r
       case 0 => SquareRays(0x0000_0000_0000_0000, 0x0080_4020_1008_0400, 0x0080_4020_1008_0400)
       case 1 => SquareRays(0x0000_0000_0000_0001, 0x8040_2010_0804_0000, 0x8040_2010_0804_0001)
       case 2 => SquareRays(0x0000_0000_0000_0100, 0x4020_1008_0400_0000, 0x4020_1008_0400_0100)
       case 3 => SquareRays(0x0000_0000_0001_0000, 0x2010_0804_0000_0000, 0x2010_0804_0001_0000)
       case 4 => SquareRays(0x0000_0000_0100_0000, 0x1008_0400_0000_0000, 0x1008_0400_0100_0000)
       case 5 => SquareRays(0x0000_0001_0000_0000, 0x0804_0000_0000_0000, 0x0804_0001_0000_0000)
       case 6 => SquareRays(0x0000_0100_0000_0000, 0x0400_0000_0000_0000, 0x0400_0100_0000_0000)
       case _ => SquareRays(0x0001_0000_0000_0000, 0x0000_0000_0000_0000, 0x0001_0000_0000_0000))
    case _ =>
      (match r
       case 0 => SquareRays(0x0000_0000_0000_0000, 0x8040_2010_0804_0200, 0x8040_2010_0804_0200)
       case 1 => SquareRays(0x0000_0000_0000_0000, 0x4020_1008_0402_0000, 0x4020_1008_0402_0000)
       case 2 => SquareRays(0x0000_0000_0000_0000, 0x2010_0804_0200_0000, 0x2010_0804_0200_0000)
       case 3 => SquareRays(0x0000_0000_0000_0000, 0x1008_0402_0000_0000, 0x1008_0402_0000_0000)
       case 4 => SquareRays(0x0000_0000_0000_0000, 0x0804_0200_0000_0000, 0x0804_0200_0000_0000)
       case 5 => SquareRays(0x0000_0000_0000_0000, 0x0402_0000_0000_0000, 0x0402_0000_0000_0000)
       case 6 => SquareRays(0x0000_0000_0000_0000, 0x0200_0000_0000_0000, 0x0200_0000_0000_0000)
       case _ => SquareRays(0x0000_0000_0000_0000, 0x0000_0000_0000_0000, 0x0000_0000_0000_0000))
  }

  /** `square(f, r)`: the board with only square (f, r). */
  function Square(f: Coord, r: Coord): (b: bv64)
    ensures b == Sq(Index(f, r))
  {
    SquareTableBits(f, r);
    SquareTable(f, r)
  }

  /** `square(index)` for a bit index 0..63: the table entry at file
      `7 - (index & 7)` and rank `index >> 3`. */
  function SquareAt(index: bv8): (b: bv64)
    requires index < 64
    ensures b == Sq(index)
  {
    var f: Coord := 7 - (index & 7);
    var r: Coord := index >> 3;
    assert Index(f, r) == index;
    Square(f, r)
  }

  /** `rays` lies on a line through bit `s`: its lower part strictly below
      `s`, its upper part strictly above, and `line` their union. */
  predicate Fits(rays: SquareRays, s: bv8)
    requires s < 64
  {
    rays.line == rays.lower | rays.upper && rays.lower & Above(s) == 0 && LowClear(rays.upper, s + 1)
  }


  /** Every entry of `s_squares` is the one-bit board of its square. */
  lemma SquareTableBits(f: Coord, r: Coord)
    ensures SquareTable(f, r) == Sq(Index(f, r))
  {
  }

  /** Each `FileRays` entry is the union of its two halves. */
  lemma FileRaysLines(f: Coord, r: Coord)
    ensures FileRays(f, r).line == FileRays(f, r).lower | FileRays(f, r).upper
  {
  }

  /** The lower half of each `FileRays` entry lies below its square. */
  lemma FileRaysLower(f: Coord, r: Coord)
    ensures FileRays(f, r).lower & Above(Index(f, r)) == 0
  {
  }

  /** The upper half of each `FileRays` entry lies above its square. */
  lemma FileRaysUpper(f: Coord, r: Coord)
    ensures LowClear(FileRays(f, r).upper, Index(f, r) + 1)
  {
  }

  /** Each `RankRays` entry is the union of its two halves. */
  lemma RankRaysLines(f: Coord, r: Coord)
    ensures RankRays(f, r).line == RankRays(f, r).lower | RankRays(f, r).upper
  {
  }

  /** The lower half of each `RankRays` entry lies below its square. */
  lemma RankRaysLower(f: Coord, r: Coord)
    ensures RankRays(f, r).lower & Above(Index(f, r)) == 0
  {
  }

  /** The upper half of each `RankRays` entry lies above its square. */
  lemma RankRaysUpper(f: Coord, r: Coord)
    ensures LowClear(RankRays(f, r).upper, Index(f, r) + 1)
  {
  }

  /** Each `DiagonalRays` entry is the union of its two halves. */
  lemma DiagonalRaysLines(f: Coord, r: Coord)
    ensures DiagonalRays(f, r).line == DiagonalRays(f, r).lower | DiagonalRays(f, r).upper
  {
  }

  /** The lower half of each `DiagonalRays` entry lies below its square. */
  lemma DiagonalRaysLower(f: Coord, r: Coord)
    ensures DiagonalRays(f, r).lower & Above(Index(f, r)) == 0
  {
  }

  /** The upper half of each `DiagonalRays` entry lies above its square. */
  lemma DiagonalRaysUpper(f: Coord, r: Coord)
    ensures LowClear(DiagonalRays(f, r).upper, Index(f, r) + 1)
  {
  }

  /** Each `AntiDiagonalRays` entry is the union of its two halves. */
  lemma AntiDiagonalRaysLines(f: Coord, r: Coord)
    ensures AntiDiagonalRays(f, r).line == AntiDiagonalRays(f, r).lower | AntiDiagonalRays(f, r).upper
  {
  }

  /** The lower half of each `AntiDiagonalRays` entry lies below its square. */
  lemma AntiDiagonalRaysLower(f: Coord, r: Coord)
    ensures AntiDiagonalRays(f, r).lower & Above(Index(f, r)) == 0
  {
  }

  /** The upper half of each `AntiDiagonalRays` entry lies above its square. */
  lemma AntiDiagonalRaysUpper(f: Coord, r: Coord)
    ensures LowClear(AntiDiagonalRays(f, r).upper, Index(f, r) + 1)
  {
  }

  /** `s_rookMoves` is the union of the file and rank lines. */
  lemma RookTableLines(f: Coord, r: Coord)
    ensures RookTable(f, r) == FileRays(f, r).line | RankRays(f, r).line
  {
  }

  /** `s_bishopMoves` is the union of the two diagonal lines. */
  lemma BishopTableLines(f: Coord, r: Coord)
    ensures BishopTable(f, r) == DiagonalRays(f, r).line | AntiDiagonalRays(f, r).line
  {
  }

  /** `s_queenMoves` is the union of the rook and bishop tables. */
  lemma QueenTableLines(f: Coord, r: Coord)
    ensures QueenTable(f, r) == RookTable(f, r) | BishopTable(f, r)
  {
  }

  /** A white pawn pushes to the square one rank up; none from rank 8. */
  lemma WhitePawnPushesAhead(f: Coord, r: Coord)
    ensures WhitePawnPushes(f, r) == if r < 7 then Sq(Index(f, r + 1)) else 0
  {
  }

  /** A black pawn pushes to the square one rank down; none from rank 1. */
  lemma BlackPawnPushesAhead(f: Coord, r: Coord)
    ensures BlackPawnPushes(f, r) == if r > 0 then Sq(Index(f, r - 1)) else 0
  {
  }

  /** No knight move leads back to its own square. */
  lemma KnightTableAvoidsOrigin(f: Coord, r: Coord)
    ensures !Bit(KnightTable(f, r), Index(f, r))
  {
  }

  /** No king move leads back to its own square. */
  lemma KingTableAvoidsOrigin(f: Coord, r: Coord)
    ensures !Bit(KingTable(f, r), Index(f, r))
  {
  }

  /** No pawn capture leads back to the pawn's own square. */
  lemma WhitePawnAttacksAvoidOrigin(f: Coord, r: Coord)
    ensures !Bit(WhitePawnAttacks(f, r), Index(f, r))
  {
  }

  lemma BlackPawnAttacksAvoidOrigin(f: Coord, r: Coord)
    ensures !Bit(BlackPawnAttacks(f, r), Index(f, r))
  {
  }

  /** A white pawn attacks the two squares diagonally one rank up. */
  lemma WhitePawnAttacksDiagonal(f: Coord, r: Coord)
    ensures WhitePawnAttacks(f, r) ==
      (if 0 < f && r < 7 then Sq(Index(f - 1, r + 1)) else 0) |
      (if f < 7 && r < 7 then Sq(Index(f + 1, r + 1)) else 0)
  {
  }

  /** A black pawn attacks the two squares diagonally one rank down. */
  lemma BlackPawnAttacksDiagonal(f: Coord, r: Coord)
    ensures BlackPawnAttacks(f, r) ==
      (if 0 < f && 0 < r then Sq(Index(f - 1, r - 1)) else 0) |
      (if f < 7 && 0 < r then Sq(Index(f + 1, r - 1)) else 0)
  {
  }

  /** Each `FileRays` entry lies on a line through its own square. */
  lemma FileRaysFit(f: Coord, r: Coord)
    ensures Fits(FileRays(f, r), Index(f, r))
  {
    FileRaysLines(f, r);
    FileRaysLower(f, r);
    FileRaysUpper(f, r);
  }

  /** Each `RankRays` entry lies on a line through its own square. */
  lemma RankRaysFit(f: Coord, r: Coord)
    ensures Fits(RankRays(f, r), Index(f, r))
  {
    RankRaysLines(f, r);
    RankRaysLower(f, r);
    RankRaysUpper(f, r);
  }

  /** Each `DiagonalRays` entry lies on a line through its own square. */
  lemma DiagonalRaysFit(f: Coord, r: Coord)
    ensures Fits(DiagonalRays(f, r), Index(f, r))
  {
    DiagonalRaysLines(f, r);
    DiagonalRaysLower(f, r);
    DiagonalRaysUpper(f, r);
  }

  /** Each `AntiDiagonalRays` entry lies on a line through its own square. */
  lemma AntiDiagonalRaysFit(f: Coord, r: Coord)
    ensures Fits(AntiDiagonalRays(f, r), Index(f, r))
  {
    AntiDiagonalRaysLines(f, r);
    AntiDiagonalRaysLower(f, r);
    AntiDiagonalRaysUpper(f, r);
  }

  // ---------------------------------------------------------------------
  // Symmetry of the leaper tables, checked two ranks of (f, r) at a time.

  lemma KnightSymmetricFrom0(f: Coord, r: Coord, g: Coord, s: Coord)
    requires 0 <= r < 2
    ensures Bit(KnightTable(f, r), Index(g, s)) == Bit(KnightTable(g, s), Index(f, r))
  {
  }

  lemma KnightSymmetricFrom2(f: Coord, r: Coord, g: Coord, s: Coord)
    requires 2 <= r < 4
    ensures Bit(KnightTable(f, r), Index(g, s)) == Bit(KnightTable(g, s), Index(f, r))
  {
  }

  lemma KnightSymmetricFrom4(f: Coord, r: Coord, g: Coord, s: Coord)
    requires 4 <= r < 6
    ensures Bit(KnightTable(f, r), Index(g, s)) == Bit(KnightTable(g, s), Index(f, r))
  {
  }

  lemma KnightSymmetricFrom6(f: Coord, r: Coord, g: Coord, s: Coord)
    requires 6 <= r < 8
    ensures Bit(KnightTable(f, r), Index(g, s)) == Bit(KnightTable(g, s), Index(f, r))
  {
  }

  /** A knight on (f, r) reaches (g, s) exactly when a knight on (g, s) reaches (f, r). */
  lemma KnightSymmetric(f: Coord, r: Coord, g: Coord, s: Coord)
    ensures Bit(KnightTable(f, r), Index(g, s)) == Bit(KnightTable(g, s), Index(f, r))
  {
    if r < 2 { KnightSymmetricFrom0(f, r, g, s); }
    else if r < 4 { KnightSymmetricFrom2(f, r, g, s); }
    else if r < 6 { KnightSymmetricFrom4(f, r, g, s); }
    else { KnightSymmetricFrom6(f, r, g, s); }
  }

  lemma KingSymmetricFrom0(f: Coord, r: Coord, g: Coord, s: Coord)
    requires 0 <= r < 2
    ensures Bit(KingTable(f, r), Index(g, s)) == Bit(KingTable(g, s), Index(f, r))
  {
  }

  lemma KingSymmetricFrom2(f: Coord, r: Coord, g: Coord, s: Coord)
    requires 2 <= r < 4
    ensures Bit(KingTable(f, r), Index(g, s)) == Bit(KingTable(g, s), Index(f, r))
  {
  }

  lemma KingSymmetricFrom4(f: Coord, r: Coord, g: Coord, s: Coord)
    requires 4 <= r < 6
    ensures Bit(KingTable(f, r), Index(g, s)) == Bit(KingTable(g, s), Index(f, r))
  {
  }

  lemma KingSymmetricFrom6(f: Coord, r: Coord, g: Coord, s: Coord)
    requires 6 <= r < 8
    ensures Bit(KingTable(f, r), Index(g, s)) == Bit(KingTable(g, s), Index(f, r))
  {
  }

  /** A king on (f, r) reaches (g, s) exactly when a king on (g, s) reaches (f, r). */
  lemma KingSymmetric(f: Coord, r: Coord, g: Coord, s: Coord)
    ensures Bit(KingTable(f, r), Index(g, s)) == Bit(KingTable(g, s), Index(f, r))
  {
    if r < 2 { KingSymmetricFrom0(f, r, g, s); }
    else if r < 4 { KingSymmetricFrom2(f, r, g, s); }
    else if r < 6 { KingSymmetricFrom4(f, r, g, s); }
    else { KingSymmetricFrom6(f, r, g, s); }
  }

  lemma PawnAttacksSymmetricFrom0(f: Coord, r: Coord, g: Coord, s: Coord)
    requires 0 <= r < 2
    ensures Bit(WhitePawnAttacks(f, r), Index(g, s)) == Bit(BlackPawnAttacks(g, s), Index(f, r))
  {
  }

  lemma PawnAttacksSymmetricFrom2(f: Coord, r: Coord, g: Coord, s: Coord)
    requires 2 <= r < 4
    ensures Bit(WhitePawnAttacks(f, r), Index(g, s)) == Bit(BlackPawnAttacks(g, s), Index(f, r))
  {
  }

  lemma PawnAttacksSymmetricFrom4(f: Coord, r: Coord, g: Coord, s: Coord)
    requires 4 <= r < 6
    ensures Bit(WhitePawnAttacks(f, r), Index(g, s)) == Bit(BlackPawnAttacks(g, s), Index(f, r))
  {
  }

  lemma PawnAttacksSymmetricFrom6(f: Coord, r: Coord, g: Coord, s: Coord)
    requires 6 <= r < 8
    ensures Bit(WhitePawnAttacks(f, r), Index(g, s)) == Bit(BlackPawnAttacks(g, s), Index(f, r))
  {
  }

  /** A white pawn on (f, r) attacks (g, s) exactly when a black pawn on (g, s) attacks (f, r). */
  lemma PawnAttacksSymmetric(f: Coord, r: Coord, g: Coord, s: Coord)
    ensures Bit(WhitePawnAttacks(f, r), Index(g, s)) == Bit(BlackPawnAttacks(g, s), Index(f, r))
  {
    if r < 2 { PawnAttacksSymmetricFrom0(f, r, g, s); }
    else if r < 4 { PawnAttacksSymmetricFrom2(f, r, g, s); }
    else if r < 6 { PawnAttacksSymmetricFrom4(f, r, g, s); }
    else { PawnAttacksSymmetricFrom6(f, r, g, s); }
  }

  // ---------------------------------------------------------------------
  // The tables against the geometry of the board, checked two ranks of
  // (f, r) at a time.

  /** How far apart two files, or two ranks, are. */
  function Dist(a: Coord, b: Coord): (d: bv8)
    ensures d < 8 && (d == 0 <==> a == b)
  {
    if a < b then b - a else a - b
  }

  /** (g, s) is a knight's jump from (f, r): one file and two ranks away, or
      two files and one rank. */
  predicate KnightJump(f: Coord, r: Coord, g: Coord, s: Coord)
  {
    (Dist(f, g) == 1 && Dist(r, s) == 2) || (Dist(f, g) == 2 && Dist(r, s) == 1)
  }

  /** (g, s) is next to (f, r), along a line or a diagonal. */
  predicate KingStep(f: Coord, r: Coord, g: Coord, s: Coord)
  {
    Dist(f, g) <= 1 && Dist(r, s) <= 1 && (f != g || r != s)
  }

  /** The four lines of the ray tables. */
  datatype Line = FileLine | RankLine | DiagonalLine | AntiDiagonalLine

  /** (g, s) lies on line `l` through (f, r), on the side of the lower bit
      indices: down the file, towards the h-file along the rank, down and
      towards the a-file along the diagonal, down and towards the h-file
      along the anti-diagonal. */
  predicate LowerHalf(l: Line, f: Coord, r: Coord, g: Coord, s: Coord)
  {
    match l
    case FileLine => g == f && s < r
    case RankLine => s == r && f < g
    case DiagonalLine => g < f && s < r && Dist(f, g) == Dist(r, s)
    case AntiDiagonalLine => f < g && s < r && Dist(f, g) == Dist(r, s)
  }

  /** (g, s) lies on line `l` through (f, r), on the side of the higher bit
      indices: the other direction of each line. */
  predicate UpperHalf(l: Line, f: Coord, r: Coord, g: Coord, s: Coord)
  {
    match l
    case FileLine => g == f && r < s
    case RankLine => s == r && g < f
    case DiagonalLine => f < g && r < s && Dist(f, g) == Dist(r, s)
    case AntiDiagonalLine => g < f && r < s && Dist(f, g) == Dist(r, s)
  }

  lemma KnightTableGeometryFrom0(f: Coord, r: Coord, g: Coord, s: Coord)
    requires 0 <= r < 2
    ensures Bit(KnightTable(f, r), Index(g, s)) <==> KnightJump(f, r, g, s)
  {
  }

  lemma KnightTableGeometryFrom2(f: Coord, r: Coord, g: Coord, s: Coord)
    requires 2 <= r < 4
    ensures Bit(KnightTable(f, r), Index(g, s)) <==> KnightJump(f, r, g, s)
  {
  }

  lemma KnightTableGeometryFrom4(f: Coord, r: Coord, g: Coord, s: Coord)
    requires 4 <= r < 6
    ensures Bit(KnightTable(f, r), Index(g, s)) <==> KnightJump(f, r, g, s)
  {
  }

  lemma KnightTableGeometryFrom6(f: Coord, r: Coord, g: Coord, s: Coord)
    requires 6 <= r < 8
    ensures Bit(KnightTable(f, r), Index(g, s)) <==> KnightJump(f, r, g, s)
  {
  }

  /** An `s_knightMoves` entry holds exactly the squares a knight's jump
      away. */
  lemma KnightTableGeometry(f: Coord, r: Coord, g: Coord, s: Coord)
    ensures Bit(KnightTable(f, r), Index(g, s)) <==> KnightJump(f, r, g, s)
  {
    if r < 2 { KnightTableGeometryFrom0(f, r, g, s); }
    else if r < 4 { KnightTableGeometryFrom2(f, r, g, s); }
    else if r < 6 { KnightTableGeometryFrom4(f, r, g, s); }
    else { KnightTableGeometryFrom6(f, r, g, s); }
  }

  lemma KingTableGeometryFrom0(f: Coord, r: Coord, g: Coord, s: Coord)
    requires 0 <= r < 2
    ensures Bit(KingTable(f, r), Index(g, s)) <==> KingStep(f, r, g, s)
  {
  }

  lemma KingTableGeometryFrom2(f: Coord, r: Coord, g: Coord, s: Coord)
    requires 2 <= r < 4
    ensures Bit(KingTable(f, r), Index(g, s)) <==> KingStep(f, r, g, s)
  {
  }

  lemma KingTableGeometryFrom4(f: Coord, r: Coord, g: Coord, s: Coord)
    requires 4 <= r < 6
    ensures Bit(KingTable(f, r), Index(g, s)) <==> KingStep(f, r, g, s)
  {
  }

  lemma KingTableGeometryFrom6(f: Coord, r: Coord, g: Coord, s: Coord)
    requires 6 <= r < 8
    ensures Bit(KingTable(f, r), Index(g, s)) <==> KingStep(f, r, g, s)
  {
  }

  /** A `s_kingMoves` entry holds exactly the eight neighbouring squares
      that are on the board. */
  lemma KingTableGeometry(f: Coord, r: Coord, g: Coord, s: Coord)
    ensures Bit(KingTable(f, r), Index(g, s)) <==> KingStep(f, r, g, s)
  {
    if r < 2 { KingTableGeometryFrom0(f, r, g, s); }
    else if r < 4 { KingTableGeometryFrom2(f, r, g, s); }
    else if r < 6 { KingTableGeometryFrom4(f, r, g, s); }
    else { KingTableGeometryFrom6(f, r, g, s); }
  }

  lemma FileRaysGeometryFrom0(f: Coord, r: Coord, g: Coord, s: Coord)
    requires 0 <= r < 2
    ensures (Bit(FileRays(f, r).lower, Index(g, s)) <==> LowerHalf(FileLine, f, r, g, s)) &&
      (Bit(FileRays(f, r).upper, Index(g, s)) <==> UpperHalf(FileLine, f, r, g, s))
  {
  }

  lemma FileRaysGeometryFrom2(f: Coord, r: Coord, g: Coord, s: Coord)
    requires 2 <= r < 4
    ensures (Bit(FileRays(f, r).lower, Index(g, s)) <==> LowerHalf(FileLine, f, r, g, s)) &&
      (Bit(FileRays(f, r).upper, Index(g, s)) <==> UpperHalf(FileLine, f, r, g, s))
  {
  }

  lemma FileRaysGeometryFrom4(f: Coord, r: Coord, g: Coord, s: Coord)
    requires 4 <= r < 6
    ensures (Bit(FileRays(f, r).lower, Index(g, s)) <==> LowerHalf(FileLine, f, r, g, s)) &&
      (Bit(FileRays(f, r).upper, Index(g, s)) <==> UpperHalf(FileLine, f, r, g, s))
  {
  }

  lemma FileRaysGeometryFrom6(f: Coord, r: Coord, g: Coord, s: Coord)
    requires 6 <= r < 8
    ensures (Bit(FileRays(f, r).lower, Index(g, s)) <==> LowerHalf(FileLine, f, r, g, s)) &&
      (Bit(FileRays(f, r).upper, Index(g, s)) <==> UpperHalf(FileLine, f, r, g, s))
  {
  }

  /** `s_fileRays`: the squares of the file below and above the square. */
  lemma FileRaysGeometry(f: Coord, r: Coord, g: Coord, s: Coord)
    ensures (Bit(FileRays(f, r).lower, Index(g, s)) <==> LowerHalf(FileLine, f, r, g, s)) &&
      (Bit(FileRays(f, r).upper, Index(g, s)) <==> UpperHalf(FileLine, f, r, g, s))
  {
    if r < 2 { FileRaysGeometryFrom0(f, r, g, s); }
    else if r < 4 { FileRaysGeometryFrom2(f, r, g, s); }
    else if r < 6 { FileRaysGeometryFrom4(f, r, g, s); }
    else { FileRaysGeometryFrom6(f, r, g, s); }
  }

  lemma RankRaysGeometryFrom0(f: Coord, r: Coord, g: Coord, s: Coord)
    requires 0 <= r < 2
    ensures (Bit(RankRays(f, r).lower, Index(g, s)) <==> LowerHalf(RankLine, f, r, g, s)) &&
      (Bit(RankRays(f, r).upper, Index(g, s)) <==> UpperHalf(RankLine, f, r, g, s))
  {
  }

  lemma RankRaysGeometryFrom2(f: Coord, r: Coord, g: Coord, s: Coord)
    requires 2 <= r < 4
    ensures (Bit(RankRays(f, r).lower, Index(g, s)) <==> LowerHalf(RankLine, f, r, g, s)) &&
      (Bit(RankRays(f, r).upper, Index(g, s)) <==> UpperHalf(RankLine, f, r, g, s))
  {
  }

  lemma RankRaysGeometryFrom4(f: Coord, r: Coord, g: Coord, s: Coord)
    requires 4 <= r < 6
    ensures (Bit(RankRays(f, r).lower, Index(g, s)) <==> LowerHalf(RankLine, f, r, g, s)) &&
      (Bit(RankRays(f, r).upper, Index(g, s)) <==> UpperHalf(RankLine, f, r, g, s))
  {
  }

  lemma RankRaysGeometryFrom6(f: Coord, r: Coord, g: Coord, s: Coord)
    requires 6 <= r < 8
    ensures (Bit(RankRays(f, r).lower, Index(g, s)) <==> LowerHalf(RankLine, f, r, g, s)) &&
      (Bit(RankRays(f, r).upper, Index(g, s)) <==> UpperHalf(RankLine, f, r, g, s))
  {
  }

  /** `s_rankRays`: the squares of the rank towards the h-file and towards
      the a-file. */
  lemma RankRaysGeometry(f: Coord, r: Coord, g: Coord, s: Coord)
    ensures (Bit(RankRays(f, r).lower, Index(g, s)) <==> LowerHalf(RankLine, f, r, g, s)) &&
      (Bit(RankRays(f, r).upper, Index(g, s)) <==> UpperHalf(RankLine, f, r, g, s))
  {
    if r < 2 { RankRaysGeometryFrom0(f, r, g, s); }
    else if r < 4 { RankRaysGeometryFrom2(f, r, g, s); }
    else if r < 6 { RankRaysGeometryFrom4(f, r, g, s); }
    else { RankRaysGeometryFrom6(f, r, g, s); }
  }

  lemma DiagonalRaysGeometryFrom0(f: Coord, r: Coord, g: Coord, s: Coord)
    requires 0 <= r < 2
    ensures (Bit(DiagonalRays(f, r).lower, Index(g, s)) <==> LowerHalf(DiagonalLine, f, r, g, s)) &&
      (Bit(DiagonalRays(f, r).upper, Index(g, s)) <==> UpperHalf(DiagonalLine, f, r, g, s))
  {
  }

  lemma DiagonalRaysGeometryFrom2(f: Coord, r: Coord, g: Coord, s: Coord)
    requires 2 <= r < 4
    ensures (Bit(DiagonalRays(f, r).lower, Index(g, s)) <==> LowerHalf(DiagonalLine, f, r, g, s)) &&
      (Bit(DiagonalRays(f, r).upper, Index(g, s)) <==> UpperHalf(DiagonalLine, f, r, g, s))
  {
  }

  lemma DiagonalRaysGeometryFrom4(f: Coord, r: Coord, g: Coord, s: Coord)
    requires 4 <= r < 6
    ensures (Bit(DiagonalRays(f, r).lower, Index(g, s)) <==> LowerHalf(DiagonalLine, f, r, g, s)) &&
      (Bit(DiagonalRays(f, r).upper, Index(g, s)) <==> UpperHalf(DiagonalLine, f, r, g, s))
  {
  }

  lemma DiagonalRaysGeometryFrom6(f: Coord, r: Coord, g: Coord, s: Coord)
    requires 6 <= r < 8
    ensures (Bit(DiagonalRays(f, r).lower, Index(g, s)) <==> LowerHalf(DiagonalLine, f, r, g, s)) &&
      (Bit(DiagonalRays(f, r).upper, Index(g, s)) <==> UpperHalf(DiagonalLine, f, r, g, s))
  {
  }

  /** `s_diagonalRays`: the squares of the a1-h8 diagonal below and above
      the square. */
  lemma DiagonalRaysGeometry(f: Coord, r: Coord, g: Coord, s: Coord)
    ensures (Bit(DiagonalRays(f, r).lower, Index(g, s)) <==> LowerHalf(DiagonalLine, f, r, g, s)) &&
      (Bit(DiagonalRays(f, r).upper, Index(g, s)) <==> UpperHalf(DiagonalLine, f, r, g, s))
  {
    if r < 2 { DiagonalRaysGeometryFrom0(f, r, g, s); }
    else if r < 4 { DiagonalRaysGeometryFrom2(f, r, g, s); }
    else if r < 6 { DiagonalRaysGeometryFrom4(f, r, g, s); }
    else { DiagonalRaysGeometryFrom6(f, r, g, s); }
  }

  lemma AntiDiagonalRaysGeometryFrom0(f: Coord, r: Coord, g: Coord, s: Coord)
    requires 0 <= r < 2
    ensures (Bit(AntiDiagonalRays(f, r).lower, Index(g, s)) <==> LowerHalf(AntiDiagonalLine, f, r, g, s)) &&
      (Bit(AntiDiagonalRays(f, r).upper, Index(g, s)) <==> UpperHalf(AntiDiagonalLine, f, r, g, s))
  {
  }

  lemma AntiDiagonalRaysGeometryFrom2(f: Coord, r: Coord, g: Coord, s: Coord)
    requires 2 <= r < 4
    ensures (Bit(AntiDiagonalRays(f, r).lower, Index(g, s)) <==> LowerHalf(AntiDiagonalLine, f, r, g, s)) &&
      (Bit(AntiDiagonalRays(f, r).upper, Index(g, s)) <==> UpperHalf(AntiDiagonalLine, f, r, g, s))
  {
  }

  lemma AntiDiagonalRaysGeometryFrom4(f: Coord, r: Coord, g: Coord, s: Coord)
    requires 4 <= r < 6
    ensures (Bit(AntiDiagonalRays(f, r).lower, Index(g, s)) <==> LowerHalf(AntiDiagonalLine, f, r, g, s)) &&
      (Bit(AntiDiagonalRays(f, r).upper, Index(g, s)) <==> UpperHalf(AntiDiagonalLine, f, r, g, s))
  {
  }

  lemma AntiDiagonalRaysGeometryFrom6(f: Coord, r: Coord, g: Coord, s: Coord)
    requires 6 <= r < 8
    ensures (Bit(AntiDiagonalRays(f, r).lower, Index(g, s)) <==> LowerHalf(AntiDiagonalLine, f, r, g, s)) &&
      (Bit(AntiDiagonalRays(f, r).upper, Index(g, s)) <==> UpperHalf(AntiDiagonalLine, f, r, g, s))
  {
  }

  /** `s_antiDiagonalRays`: the squares of the a8-h1 diagonal below and
      above the square. */
  lemma AntiDiagonalRaysGeometry(f: Coord, r: Coord, g: Coord, s: Coord)
    ensures (Bit(AntiDiagonalRays(f, r).lower, Index(g, s)) <==> LowerHalf(AntiDiagonalLine, f, r, g, s)) &&
      (Bit(AntiDiagonalRays(f, r).upper, Index(g, s)) <==> UpperHalf(AntiDiagonalLine, f, r, g, s))
  {
    if r < 2 { AntiDiagonalRaysGeometryFrom0(f, r, g, s); }
    else if r < 4 { AntiDiagonalRaysGeometryFrom2(f, r, g, s); }
    else if r < 6 { AntiDiagonalRaysGeometryFrom4(f, r, g, s); }
    else { AntiDiagonalRaysGeometryFrom6(f, r, g, s); }
  }

  /** The two halves of `rays` are exactly the two sides of line `l`
      through (f, r). */
  ghost predicate Halves(rays: SquareRays, l: Line, f: Coord, r: Coord)
  {
    forall g: Coord, s: Coord ::
      (Bit(rays.lower, Index(g, s)) <==> LowerHalf(l, f, r, g, s)) &&
      (Bit(rays.upper, Index(g, s)) <==> UpperHalf(l, f, r, g, s))
  }

  /** Every `FileRays` entry is split at its square into the two sides of its
      file. */
  lemma FileRaysHalves(f: Coord, r: Coord)
    ensures Halves(FileRays(f, r), FileLine, f, r)
  {
    forall g: Coord, s: Coord {
      FileRaysGeometry(f, r, g, s);
    }
  }

  /** Every `RankRays` entry is split at its square into the two sides of its
      rank. */
  lemma RankRaysHalves(f: Coord, r: Coord)
    ensures Halves(RankRays(f, r), RankLine, f, r)
  {
    forall g: Coord, s: Coord {
      RankRaysGeometry(f, r, g, s);
    }
  }

  /** Every `DiagonalRays` entry is split at its square into the two sides of its
      a1-h8 diagonal. */
  lemma DiagonalRaysHalves(f: Coord, r: Coord)
    ensures Halves(DiagonalRays(f, r), DiagonalLine, f, r)
  {
    forall g: Coord, s: Coord {
      DiagonalRaysGeometry(f, r, g, s);
    }
  }

  /** Every `AntiDiagonalRays` entry is split at its square into the two sides of its
      a8-h1 diagonal. */
  lemma AntiDiagonalRaysHalves(f: Coord, r: Coord)
    ensures Halves(AntiDiagonalRays(f, r), AntiDiagonalLine, f, r)
  {
    forall g: Coord, s: Coord {
      AntiDiagonalRaysGeometry(f, r, g, s);
    }
  }
}
