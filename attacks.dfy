// The sliding-piece attack generator of chess/Board.h: `lineAttacks`, the
// "obstruction difference" computation along one line, and the static
// `rookMoves`, `bishopMoves` and `queenMoves` built from it.
module Attacks {
  import opened Bits
  import opened Tables

  /** `lineAttacks(occupancy, rays)`, on the three masks of a ray entry. */
  function LineAttacks(occupancy: bv64, rays: SquareRays): bv64
  {
    LineAttacksOn(occupancy, rays.lower, rays.upper, rays.line)
  }

  /** The body of `lineAttacks`: the highest occupied lower square (or bit 0)
      becomes a one-bit `ms1B`; subtracting it from the occupied upper part
      and xor-ing back sets every bit from `ms1B` up to the lowest occupied
      upper square; the line keeps the squares of the line among them. */
  function LineAttacksOn(occupancy: bv64, rayLower: bv64, rayUpper: bv64, line: bv64): bv64
  {
    var lower := rayLower & occupancy;
    var upper := rayUpper & occupancy;
    var ms1B := Ms1B(lower);
    var diff := ObstructionDiff(upper, ms1B);
    line & diff
  }

  /** `0x8000000000000000 >> __builtin_clzll(lower | 1)`: the highest set bit
      of `lower`, or bit 0 when `lower` is empty. */
  function Ms1B(lower: bv64): bv64
  {
    OrOneNonZero(lower);
    TOP >> Clz(lower | 1)
  }

  /** `upper ^ (upper - ms1B)`, the obstruction difference. */
  function ObstructionDiff(upper: bv64, ms1B: bv64): bv64
  {
    upper ^ (upper - ms1B)
  }

  /** `rookMoves(f, r, occupancy)`: file attacks together with rank attacks. */
  function RookMoves(f: Coord, r: Coord, occupancy: bv64): bv64
  {
    LineAttacks(occupancy, FileRays(f, r)) | LineAttacks(occupancy, RankRays(f, r))
  }

  /** `bishopMoves(f, r, occupancy)`: attacks along both diagonals. */
  function BishopMoves(f: Coord, r: Coord, occupancy: bv64): bv64
  {
    LineAttacks(occupancy, DiagonalRays(f, r)) | LineAttacks(occupancy, AntiDiagonalRays(f, r))
  }

  /** `queenMoves(f, r, occupancy)`: rook and bishop attacks together. */
  function QueenMoves(f: Coord, r: Coord, occupancy: bv64): bv64
  {
    RookMoves(f, r, occupancy) | BishopMoves(f, r, occupancy)
  }

  lemma OrOneNonZero(x: bv64)
    ensures x | 1 != 0
  {
  }

  // ---------------------------------------------------------------------
  // The single steps of the argument, each about named values.

  /** The bit `63 - clz(x)` is the highest set bit of `x`. */
  lemma HighestBit(x: bv64, n: bv8, k: bv8)
    requires x != 0 && n == Clz(x) && k == 63 - n
    ensures k < 64 && Bit(x, k) && ClearOver(x, k, 63)
  {
  }

  /** The highest bit `k` of `lower | 1` is at most the origin `s`, because
      every lower square lies below `s`. */
  lemma HighestLowerAtMostOrigin(rl: bv64, occ: bv64, lower: bv64, x: bv64, s: bv8, k: bv8)
    requires s < 64 && k < 64
    requires lower == rl & occ && x == lower | 1
    requires rl & Above(s) == 0 && Bit(x, k)
    ensures k <= s
  {
    BitOr(lower, 1, k);
    BitAnd(rl, occ, k);
    BitAnd(rl, Above(s), k);
    BitZero(k);
    BitAbove(s, k);
    BitSq(0, k);
  }

  /** Every lower square is at most `i` exactly when `k <= i`. */
  lemma HighestLowerBound(lower: bv64, x: bv64, k: bv8, i: bv8)
    requires k < 64 && i < 64
    requires x == lower | 1 && Bit(x, k) && ClearOver(x, k, 63)
    ensures k <= i <==> ClearOver(lower, i, 63)
  {
    if k <= i {
      forall j: bv8 | i < j <= 63 ensures !Bit(lower, j) {
        BitOr(lower, 1, j);
      }
    } else {
      BitOr(lower, 1, k);
      BitSq(0, k);
    }
  }

  /** The occupied upper part has no bit at or below `k`. */
  lemma UpperClear(ru: bv64, occ: bv64, upper: bv64, s: bv8, k: bv8)
    requires s < 64 && k <= s
    requires upper == ru & occ && LowClear(ru, s + 1)
    ensures LowClear(upper, k + 1)
  {
    LowClearBits(ru, s + 1);
    forall j: bv8 | j < k + 1 ensures !Bit(upper, j) {
      BitAnd(ru, occ, j);
    }
    LowClearBits(upper, k + 1);
  }

  /** Subtracting `ms1B`, a single bit `k` at or below every upper bit,
      borrows through the run up to the lowest upper bit, starting at `k`. */
  lemma DiffIsRun(upper: bv64, k: bv8, m: bv64, diff: bv64, run: bv64, above: bv64)
    requires k < 64 && LowClear(upper, k + 1)
    requires m == Sq(k) && diff == upper ^ (upper - m)
    requires run == upper ^ (upper - 1) && above == Above(k)
    ensures diff == run & above
  {
    Borrow(upper, k);
  }

  /** The bits of `upper ^ (upper - ms1B)`: from `k` up to the lowest set bit
      of `upper`, inclusive. */
  lemma DiffBits(upper: bv64, k: bv8, m: bv64, diff: bv64, i: bv8)
    requires k < 64 && i < 64 && LowClear(upper, k + 1)
    requires m == Sq(k) && diff == upper ^ (upper - m)
    ensures Bit(diff, i) <==> k <= i && Clear(upper, 0, i)
  {
    var run := upper ^ (upper - 1);
    var above := Above(k);
    DiffIsRun(upper, k, m, diff, run, above);
    BitAnd(run, above, i);
    LowRun(upper, i);
    LowClearBits(upper, i);
    BitAbove(k, i);
  }

  /** `ms1B` is the single bit `k = 63 - clz(lower | 1)`. */
  lemma Ms1BIsSq(lower: bv64, x: bv64, n: bv8, k: bv8)
    requires x == lower | 1 && x != 0 && n == Clz(x) && k == 63 - n
    ensures k < 64 && Ms1B(lower) == Sq(k)
  {
    TopShift(n);
  }

  /** The bits of the obstruction difference, named. */
  lemma ObstructionDiffBits(upper: bv64, k: bv8, m: bv64, diff: bv64, i: bv8)
    requires k < 64 && i < 64 && LowClear(upper, k + 1)
    requires m == Sq(k) && diff == ObstructionDiff(upper, m)
    ensures Bit(diff, i) <==> k <= i && Clear(upper, 0, i)
  {
    DiffBits(upper, k, m, diff, i);
  }

  /** The steps above, put together for the values `lineAttacks` computes
      from the halves `rl`, `ru` of a ray entry through `s`. */
  lemma LineAttacksSteps(occ: bv64, rl: bv64, ru: bv64, s: bv8, i: bv8,
                        lower: bv64, upper: bv64, m: bv64, diff: bv64)
    requires s < 64 && i < 64 && rl & Above(s) == 0 && LowClear(ru, s + 1)
    requires lower == rl & occ && upper == ru & occ
    requires m == Ms1B(lower) && diff == ObstructionDiff(upper, m)
    ensures Bit(diff, i) <==> ClearOver(lower, i, 63) && Clear(upper, 0, i)
  {
    var x := lower | 1;
    OrOneNonZero(lower);
    var n := Clz(x);
    var k := 63 - n;
    Ms1BIsSq(lower, x, n, k);
    HighestBit(x, n, k);
    HighestLowerAtMostOrigin(rl, occ, lower, x, s, k);
    HighestLowerBound(lower, x, k, i);
    UpperClear(ru, occ, upper, s, k);
    ObstructionDiffBits(upper, k, m, diff, i);
  }

  /** A bit of the result is a bit of the line and of the difference. */
  lemma LineAttacksOnBit(occ: bv64, rl: bv64, ru: bv64, line: bv64, diff: bv64, i: bv8)
    requires i < 64 && diff == ObstructionDiff(ru & occ, Ms1B(rl & occ))
    ensures Bit(LineAttacksOn(occ, rl, ru, line), i) <==> Bit(line, i) && Bit(diff, i)
  {
    BitAnd(line, diff, i);
  }

  // ---------------------------------------------------------------------
  // What `lineAttacks` computes.

  /** On a well-formed ray entry through square `s`, the obstruction
      difference yields exactly the squares of the line that lie at or above
      every occupied lower square and at or below every occupied upper
      square: the line from the nearest blocker on one side to the nearest
      blocker on the other, blockers included. */
  lemma LineAttacksOnExact(occ: bv64, rl: bv64, ru: bv64, line: bv64, s: bv8, i: bv8, lower: bv64, upper: bv64)
    requires s < 64 && i < 64 && rl & Above(s) == 0 && LowClear(ru, s + 1)
    requires lower == rl & occ && upper == ru & occ
    ensures Bit(LineAttacksOn(occ, rl, ru, line), i) <==>
      Bit(line, i) && ClearOver(lower, i, 63) && Clear(upper, 0, i)
  {
    var m := Ms1B(lower);
    var diff := ObstructionDiff(upper, m);
    LineAttacksSteps(occ, rl, ru, s, i, lower, upper, m, diff);
    LineAttacksOnBit(occ, rl, ru, line, diff, i);
  }

  /** `lineAttacks` on a well-formed ray entry through square `s`: exactly
      the squares of the line that no occupied square separates from `s`,
      the first blocker in each direction included. */
  lemma LineAttacksExact(occ: bv64, rl: bv64, ru: bv64, line: bv64, s: bv8, i: bv8)
    requires s < 64 && i < 64 && Fits(SquareRays(rl, ru, line), s)
    ensures Bit(LineAttacks(occ, SquareRays(rl, ru, line)), i) <==>
      Bit(line, i) && ClearOver(rl & occ, i, 63) && Clear(ru & occ, 0, i)
  {
    LineAttacksOnExact(occ, rl, ru, line, s, i, rl & occ, ru & occ);
  }

  // ---------------------------------------------------------------------
  // Consequences.

  /** With nothing occupied below, `ms1B` is bit 0. */
  lemma Ms1BEmpty(lower: bv64)
    requires lower == 0
    ensures Ms1B(lower) == 1
  {
    var x := lower | 1;
    var n := Clz(x);
    var k := 63 - n;
    HighestBit(x, n, k);
    BitSq(0, k);
    Ms1BIsSq(lower, x, n, k);
  }

  /** With no occupied square on either half, the whole line is attacked. */
  lemma LineAttacksOnUnblocked(occ: bv64, rl: bv64, ru: bv64, line: bv64)
    requires rl & occ == 0 && ru & occ == 0
    ensures LineAttacksOn(occ, rl, ru, line) == line
  {
    Ms1BEmpty(rl & occ);
  }

  /** `lineAttacks` on an empty board is the whole line of the entry. */
  lemma LineAttacksEmptyBoard(rays: SquareRays)
    ensures LineAttacks(0, rays) == rays.line
  {
    LineAttacksOnUnblocked(0, rays.lower, rays.upper, rays.line);
  }

  /** `lineAttacks` never leaves the line of its entry. */
  lemma LineAttacksWithinLine(occ: bv64, rays: SquareRays)
    ensures LineAttacks(occ, rays) & rays.line == LineAttacks(occ, rays)
  {
  }

  /** The square of a well-formed entry is on neither half of its line. */
  lemma LineAvoidsOrigin(rl: bv64, ru: bv64, line: bv64, s: bv8)
    requires s < 64 && line == rl | ru && rl & Above(s) == 0 && LowClear(ru, s + 1)
    ensures !Bit(line, s)
  {
    BitOr(rl, ru, s);
    BitAnd(rl, Above(s), s);
    BitAbove(s, s);
    BitZero(s);
    LowClearBits(ru, s + 1);
  }

  /** A square off the line is never attacked along it. */
  lemma LineAttacksOnOffLine(occ: bv64, rl: bv64, ru: bv64, line: bv64, s: bv8)
    requires s < 64 && !Bit(line, s)
    ensures !Bit(LineAttacksOn(occ, rl, ru, line), s)
  {
    var diff := ObstructionDiff(ru & occ, Ms1B(rl & occ));
    LineAttacksOnBit(occ, rl, ru, line, diff, s);
  }

  /** `lineAttacks` never yields the square of the entry itself. */
  lemma LineAttacksAvoidOrigin(occ: bv64, rays: SquareRays, s: bv8)
    requires s < 64 && Fits(rays, s)
    ensures !Bit(LineAttacks(occ, rays), s)
  {
    LineAvoidsOrigin(rays.lower, rays.upper, rays.line, s);
    LineAttacksOnOffLine(occ, rays.lower, rays.upper, rays.line, s);
  }

  /** The highest set bit of `lower | 1` is the highest set bit of `lower`
      when there is one. */
  lemma HighestUnique(lower: bv64, x: bv64, h: bv8, k: bv8)
    requires h < 64 && k < 64 && x == lower | 1
    requires Bit(x, h) && ClearOver(x, h, 63) && Bit(lower, k) && ClearOver(lower, k, 63)
    ensures h == k
  {
    if h < k {
      BitOr(lower, 1, k);
    } else if k < h {
      BitOr(lower, 1, h);
      BitSq(0, h);
    }
  }

  /** `ms1B` is the highest set bit of `lower` whenever `lower` has one. */
  lemma Ms1BHighest(lower: bv64, k: bv8)
    requires k < 64 && Bit(lower, k) && ClearOver(lower, k, 63)
    ensures Ms1B(lower) == Sq(k)
  {
    var x := lower | 1;
    OrOneNonZero(lower);
    var n := Clz(x);
    var h := 63 - n;
    HighestBit(x, n, h);
    HighestUnique(lower, x, h, k);
    Ms1BIsSq(lower, x, n, h);
  }

  /** Nothing of a lower half lies above a square above the origin. */
  lemma LowerClearAbove(lower: bv64, occ: bv64, s: bv8, i: bv8)
    requires s <= i < 64 && lower & Above(s) == 0
    ensures ClearOver(lower & occ, i, 63)
  {
    var masked := lower & occ;
    forall j: bv8 | i < j <= 63 ensures !Bit(masked, j) {
      BitAnd(lower, occ, j);
      BitAnd(lower, Above(s), j);
      BitAbove(s, j);
      BitZero(j);
    }
  }

  /** Nothing of an upper half lies below a square below the origin. */
  lemma UpperClearBelow(upper: bv64, occ: bv64, s: bv8, i: bv8)
    requires i <= s < 64 && LowClear(upper, s + 1)
    ensures Clear(upper & occ, 0, i)
  {
    LowClearBits(upper, s + 1);
    var masked := upper & occ;
    forall j: bv8 | j < i ensures !Bit(masked, j) {
      BitAnd(upper, occ, j);
    }
  }

  /** A half whose squares on one side of `i` are all unoccupied has no
      occupied square there. */
  lemma HalfClearBelow(half: bv64, occ: bv64, i: bv8)
    requires i < 64 && forall j: bv8 | j < i && Bit(half, j) :: !Bit(occ, j)
    ensures Clear(half & occ, 0, i)
  {
    var masked := half & occ;
    forall j: bv8 | j < i ensures !Bit(masked, j) {
      BitAnd(half, occ, j);
    }
  }

  lemma HalfClearAbove(half: bv64, occ: bv64, i: bv8)
    requires i < 64 && forall j: bv8 | i < j < 64 && Bit(half, j) :: !Bit(occ, j)
    ensures ClearOver(half & occ, i, 63)
  {
    var masked := half & occ;
    forall j: bv8 | i < j <= 63 ensures !Bit(masked, j) {
      BitAnd(half, occ, j);
    }
  }

  /** A square of the upper half lies above the origin. */
  lemma UpperSide(upper: bv64, s: bv8, i: bv8)
    requires s < 64 && i < 64 && LowClear(upper, s + 1) && Bit(upper, i)
    ensures s < i
  {
    LowClearBits(upper, s + 1);
  }

  /** A square of the lower half lies below the origin. */
  lemma LowerSide(lower: bv64, s: bv8, i: bv8)
    requires s < 64 && i < 64 && lower & Above(s) == 0 && Bit(lower, i)
    ensures i < s
  {
    BitAnd(lower, Above(s), i);
    BitAbove(s, i);
    BitZero(i);
  }

  /** `LineAttacksExact`, on a ray entry as a whole. */
  lemma LineAttacksRaysExact(occ: bv64, rays: SquareRays, s: bv8, i: bv8)
    requires s < 64 && i < 64 && Fits(rays, s)
    ensures Bit(LineAttacks(occ, rays), i) <==>
      Bit(rays.line, i) && ClearOver(rays.lower & occ, i, 63) && Clear(rays.upper & occ, 0, i)
  {
    FitsParts(rays, s);
    LineAttacksUnfold(occ, rays);
    LineAttacksOnExact(occ, rays.lower, rays.upper, rays.line, s, i, rays.lower & occ, rays.upper & occ);
  }

  /** The two mask conditions of a well-formed entry. */
  lemma FitsParts(rays: SquareRays, s: bv8)
    requires s < 64 && Fits(rays, s)
    ensures rays.lower & Above(s) == 0 && LowClear(rays.upper, s + 1)
  {
  }

  /** `lineAttacks` reads the three masks of its entry. */
  lemma LineAttacksUnfold(occ: bv64, rays: SquareRays)
    ensures LineAttacks(occ, rays) == LineAttacksOn(occ, rays.lower, rays.upper, rays.line)
  {
  }

  /** A square of the upper half of a well-formed entry through `s`, with no
      occupied square of that half below it, is attacked along the line. */
  lemma LineAttacksReachUpper(occ: bv64, rays: SquareRays, s: bv8, i: bv8)
    requires s < 64 && i < 64 && Fits(rays, s) && Bit(rays.upper, i)
    requires forall j: bv8 | j < i && Bit(rays.upper, j) :: !Bit(occ, j)
    ensures Bit(LineAttacks(occ, rays), i)
  {
    assert Bit(rays.line, i) by {
      BitOr(rays.lower, rays.upper, i);
    }
    assert ClearOver(rays.lower & occ, i, 63) by {
      UpperSide(rays.upper, s, i);
      LowerClearAbove(rays.lower, occ, s, i);
    }
    assert Clear(rays.upper & occ, 0, i) by {
      HalfClearBelow(rays.upper, occ, i);
    }
    LineAttacksRaysExact(occ, rays, s, i);
  }

  /** A square of the lower half of a well-formed entry through `s`, with no
      occupied square of that half above it, is attacked along the line. */
  lemma LineAttacksReachLower(occ: bv64, rays: SquareRays, s: bv8, i: bv8)
    requires s < 64 && i < 64 && Fits(rays, s) && Bit(rays.lower, i)
    requires forall j: bv8 | i < j < 64 && Bit(rays.lower, j) :: !Bit(occ, j)
    ensures Bit(LineAttacks(occ, rays), i)
  {
    assert Bit(rays.line, i) by {
      BitOr(rays.lower, rays.upper, i);
    }
    assert Clear(rays.upper & occ, 0, i) by {
      LowerSide(rays.lower, s, i);
      UpperClearBelow(rays.upper, occ, s, i);
    }
    assert ClearOver(rays.lower & occ, i, 63) by {
      HalfClearAbove(rays.lower, occ, i);
    }
    LineAttacksRaysExact(occ, rays, s, i);
  }

  /** (h, t) lies strictly between (f, r) and (g, s) on line `l`: past
      (f, r) towards (g, s), and short of (g, s). */
  predicate Between(l: Line, f: Coord, r: Coord, g: Coord, s: Coord, h: Coord, t: Coord)
  {
    (UpperHalf(l, f, r, h, t) && LowerHalf(l, g, s, h, t)) ||
    (LowerHalf(l, f, r, h, t) && UpperHalf(l, g, s, h, t))
  }

  /** No square of `occ` lies strictly between (f, r) and (g, s) on line `l`. */
  ghost predicate Unobstructed(occ: bv64, l: Line, f: Coord, r: Coord, g: Coord, s: Coord)
  {
    forall h: Coord, t: Coord | Between(l, f, r, g, s, h, t) :: !Bit(occ, Index(h, t))
  }

  /** Of two squares on the upper side of (f, r) along line `l`, the one
      with the lower bit index lies between (f, r) and the other. */
  lemma UpperOrder(l: Line, f: Coord, r: Coord, g: Coord, s: Coord, h: Coord, t: Coord)
    requires UpperHalf(l, f, r, g, s) && UpperHalf(l, f, r, h, t) && Index(h, t) < Index(g, s)
    ensures Between(l, f, r, g, s, h, t)
  {
    match l
    case FileLine => UpperOrderFile(f, r, g, s, h, t);
    case RankLine => UpperOrderRank(f, r, g, s, h, t);
    case DiagonalLine => UpperOrderDiagonal(f, r, g, s, h, t);
    case AntiDiagonalLine => UpperOrderAntiDiagonal(f, r, g, s, h, t);
  }

  /** The same on the lower side, where the nearer square has the higher
      bit index. */
  lemma LowerOrder(l: Line, f: Coord, r: Coord, g: Coord, s: Coord, h: Coord, t: Coord)
    requires LowerHalf(l, f, r, g, s) && LowerHalf(l, f, r, h, t) && Index(g, s) < Index(h, t)
    ensures Between(l, f, r, g, s, h, t)
  {
    match l
    case FileLine => LowerOrderFile(f, r, g, s, h, t);
    case RankLine => LowerOrderRank(f, r, g, s, h, t);
    case DiagonalLine => LowerOrderDiagonal(f, r, g, s, h, t);
    case AntiDiagonalLine => LowerOrderAntiDiagonal(f, r, g, s, h, t);
  }

  // The two orders above, one line at a time.

  lemma UpperOrderFile(f: Coord, r: Coord, g: Coord, s: Coord, h: Coord, t: Coord)
    requires UpperHalf(FileLine, f, r, g, s) && UpperHalf(FileLine, f, r, h, t) && Index(h, t) < Index(g, s)
    ensures LowerHalf(FileLine, g, s, h, t)
  {
  }

  lemma LowerOrderFile(f: Coord, r: Coord, g: Coord, s: Coord, h: Coord, t: Coord)
    requires LowerHalf(FileLine, f, r, g, s) && LowerHalf(FileLine, f, r, h, t) && Index(g, s) < Index(h, t)
    ensures UpperHalf(FileLine, g, s, h, t)
  {
  }

  lemma UpperOrderRank(f: Coord, r: Coord, g: Coord, s: Coord, h: Coord, t: Coord)
    requires UpperHalf(RankLine, f, r, g, s) && UpperHalf(RankLine, f, r, h, t) && Index(h, t) < Index(g, s)
    ensures LowerHalf(RankLine, g, s, h, t)
  {
  }

  lemma LowerOrderRank(f: Coord, r: Coord, g: Coord, s: Coord, h: Coord, t: Coord)
    requires LowerHalf(RankLine, f, r, g, s) && LowerHalf(RankLine, f, r, h, t) && Index(g, s) < Index(h, t)
    ensures UpperHalf(RankLine, g, s, h, t)
  {
  }

  lemma UpperOrderDiagonal(f: Coord, r: Coord, g: Coord, s: Coord, h: Coord, t: Coord)
    requires UpperHalf(DiagonalLine, f, r, g, s) && UpperHalf(DiagonalLine, f, r, h, t) && Index(h, t) < Index(g, s)
    ensures LowerHalf(DiagonalLine, g, s, h, t)
  {
  }

  lemma LowerOrderDiagonal(f: Coord, r: Coord, g: Coord, s: Coord, h: Coord, t: Coord)
    requires LowerHalf(DiagonalLine, f, r, g, s) && LowerHalf(DiagonalLine, f, r, h, t) && Index(g, s) < Index(h, t)
    ensures UpperHalf(DiagonalLine, g, s, h, t)
  {
  }

  lemma UpperOrderAntiDiagonal(f: Coord, r: Coord, g: Coord, s: Coord, h: Coord, t: Coord)
    requires UpperHalf(AntiDiagonalLine, f, r, g, s) && UpperHalf(AntiDiagonalLine, f, r, h, t) && Index(h, t) < Index(g, s)
    ensures LowerHalf(AntiDiagonalLine, g, s, h, t)
  {
  }

  lemma LowerOrderAntiDiagonal(f: Coord, r: Coord, g: Coord, s: Coord, h: Coord, t: Coord)
    requires LowerHalf(AntiDiagonalLine, f, r, g, s) && LowerHalf(AntiDiagonalLine, f, r, h, t) && Index(g, s) < Index(h, t)
    ensures UpperHalf(AntiDiagonalLine, g, s, h, t)
  {
  }

  /** The file and rank of bit `j`. */
  lemma Coordinates(j: bv8) returns (h: Coord, t: Coord)
    requires j < 64
    ensures Index(h, t) == j
  {
    h := 7 - (j & 7);
    t := j >> 3;
  }

  /** Along a ray entry whose halves are the two sides of line `l` through
      (f, r), `lineAttacks` reaches every square of the line that no
      occupied square separates from (f, r). */
  lemma LineReaches(occ: bv64, rays: SquareRays, l: Line, f: Coord, r: Coord, g: Coord, s: Coord)
    requires Fits(rays, Index(f, r)) && Halves(rays, l, f, r)
    requires UpperHalf(l, f, r, g, s) || LowerHalf(l, f, r, g, s)
    requires Unobstructed(occ, l, f, r, g, s)
    ensures Bit(LineAttacks(occ, rays), Index(g, s))
  {
    var i := Index(g, s);
    if UpperHalf(l, f, r, g, s) {
      forall j: bv8 | j < i && Bit(rays.upper, j) ensures !Bit(occ, j) {
        var h, t := Coordinates(j);
        UpperOrder(l, f, r, g, s, h, t);
      }
      LineAttacksReachUpper(occ, rays, Index(f, r), i);
    } else {
      forall j: bv8 | i < j < 64 && Bit(rays.lower, j) ensures !Bit(occ, j) {
        var h, t := Coordinates(j);
        LowerOrder(l, f, r, g, s, h, t);
      }
      LineAttacksReachLower(occ, rays, Index(f, r), i);
    }
  }

  // ---------------------------------------------------------------------
  // The sliders.

  /** On an empty board two lines attack their whole lines. */
  lemma TwoLinesEmptyBoard(a: SquareRays, b: SquareRays, table: bv64)
    requires table == a.line | b.line
    ensures LineAttacks(0, a) | LineAttacks(0, b) == table
  {
    LineAttacksEmptyBoard(a);
    LineAttacksEmptyBoard(b);
  }

  /** On an empty board `rookMoves` is the `s_rookMoves` entry of the square. */
  lemma RookMovesEmptyBoard(f: Coord, r: Coord)
    ensures RookMoves(f, r, 0) == RookTable(f, r)
  {
    RookTableLines(f, r);
    TwoLinesEmptyBoard(FileRays(f, r), RankRays(f, r), RookTable(f, r));
  }

  /** On an empty board `bishopMoves` is the `s_bishopMoves` entry of the square. */
  lemma BishopMovesEmptyBoard(f: Coord, r: Coord)
    ensures BishopMoves(f, r, 0) == BishopTable(f, r)
  {
    BishopTableLines(f, r);
    TwoLinesEmptyBoard(DiagonalRays(f, r), AntiDiagonalRays(f, r), BishopTable(f, r));
  }

  /** On an empty board `queenMoves` is the `s_queenMoves` entry of the square. */
  lemma QueenMovesEmptyBoard(f: Coord, r: Coord)
    ensures QueenMoves(f, r, 0) == QueenTable(f, r)
  {
    RookMovesEmptyBoard(f, r);
    BishopMovesEmptyBoard(f, r);
    QueenTableLines(f, r);
  }

  /** A square in neither of two boards is not in their union. */
  lemma NotInEither(a: bv64, b: bv64, s: bv8)
    requires s < 64 && !Bit(a, s) && !Bit(b, s)
    ensures !Bit(a | b, s)
  {
    BitOr(a, b, s);
  }

  /** No slider ever reaches its own square: `rookMoves` leaves it out. */
  lemma RookMovesAvoidOrigin(f: Coord, r: Coord, occupancy: bv64)
    ensures !Bit(RookMoves(f, r, occupancy), Index(f, r))
  {
    FileRaysFit(f, r);
    RankRaysFit(f, r);
    LineAttacksAvoidOrigin(occupancy, FileRays(f, r), Index(f, r));
    LineAttacksAvoidOrigin(occupancy, RankRays(f, r), Index(f, r));
    NotInEither(LineAttacks(occupancy, FileRays(f, r)), LineAttacks(occupancy, RankRays(f, r)), Index(f, r));
  }

  /** `bishopMoves` leaves out the bishop's own square. */
  lemma BishopMovesAvoidOrigin(f: Coord, r: Coord, occupancy: bv64)
    ensures !Bit(BishopMoves(f, r, occupancy), Index(f, r))
  {
    DiagonalRaysFit(f, r);
    AntiDiagonalRaysFit(f, r);
    LineAttacksAvoidOrigin(occupancy, DiagonalRays(f, r), Index(f, r));
    LineAttacksAvoidOrigin(occupancy, AntiDiagonalRays(f, r), Index(f, r));
    NotInEither(LineAttacks(occupancy, DiagonalRays(f, r)), LineAttacks(occupancy, AntiDiagonalRays(f, r)), Index(f, r));
  }

  /** `queenMoves` leaves out the queen's own square. */
  lemma QueenMovesAvoidOrigin(f: Coord, r: Coord, occupancy: bv64)
    ensures !Bit(QueenMoves(f, r, occupancy), Index(f, r))
  {
    RookMovesAvoidOrigin(f, r, occupancy);
    BishopMovesAvoidOrigin(f, r, occupancy);
    NotInEither(RookMoves(f, r, occupancy), BishopMoves(f, r, occupancy), Index(f, r));
  }

  /** A rook on d4 with only d6 and g4 occupied (bits 44 and 25) reaches d5,
      d6, e4, f4, g4, d3, d2, d1, c4, b4 and a4: up to and including each
      blocker, and the whole ray where nothing blocks. */
  lemma RookOnD4Example()
    ensures RookMoves(3, 3, 0x0000_1000_0200_0000) == 0x0000_1010_EE10_1010
  {
    var occ: bv64 := 0x0000_1000_0200_0000;
    assert FileRays(3, 3) == SquareRays(0x0000_0000_0010_1010, 0x1010_1010_0000_0000, 0x1010_1010_0010_1010);
    assert RankRays(3, 3) == SquareRays(0x0000_0000_0F00_0000, 0x0000_0000_E000_0000, 0x0000_0000_EF00_0000);
    Ms1BEmpty(0x0000_0000_0010_1010 & occ);
    Ms1BHighest(0x0000_0000_0F00_0000 & occ, 25);
  }
}
