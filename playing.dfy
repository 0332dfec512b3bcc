// `promote<C>`, `moveHelper<C>` and the public `move(uciMove)` of
// chess/Board.h, as functions of the boards and the side to move, with
// what they guarantee on a position given by a placement, and the places
// where they depart from the rules of chess.
module Playing {
  import opened Bits
  import opened Pieces
  import opened Files
  import opened Ranks
  import opened Tables
  import opened Position
  import opened Placement
  import opened Moving

  /** The boards and the side to move (`m_bitboards`, `m_turn`). */
  datatype State = State(boards: Boards, turn: Color)

  /** What `move(uciMove)` returns, and the state it leaves. */
  datatype Played = Played(moved: bool, state: State)

  /** The validity test of `promote`: any piece except a pawn or None. A
      king passes it. */
  predicate ValidPromotion(p: Piece)
  {
    p != WPawn && p != BPawn && p != None
  }

  /** `promote<C>(…, piece)`: rejected, with the boards untouched, when the
      piece fails the validity test or `move<C>` rejects the move; otherwise
      the updates of `move<C>` followed by a toggle of the from-square on the
      mover's pawn board and of the to-square on the promotion piece's
      board. */
  function Promote(bb: Boards, c: Color, ff: Coord, fr: Coord, fromPiece: Piece, tf: Coord, tr: Coord, piece: Piece): Outcome
  {
    if !ValidPromotion(piece) then Outcome(false, bb)
    else
      var m := MovePiece(bb, c, ff, fr, fromPiece, tf, tr);
      if !m.accepted then m
      else Outcome(true, Toggle(Toggle(m.boards, PieceValue(Colored(Pawn, c)), Square(ff, fr)), PieceValue(piece), Square(tf, tr)))
  }

  /** `promote<C>` in terms of the outcome `m` of `move<C>`. */
  lemma PromoteSteps(bb: Boards, c: Color, ff: Coord, fr: Coord, fromPiece: Piece, tf: Coord, tr: Coord, piece: Piece, m: Outcome)
    requires m == MovePiece(bb, c, ff, fr, fromPiece, tf, tr)
    ensures Promote(bb, c, ff, fr, fromPiece, tf, tr, piece) ==
      if !ValidPromotion(piece) then Outcome(false, bb)
      else if !m.accepted then m
      else Outcome(true, Toggle(Toggle(m.boards, PieceValue(Colored(Pawn, c)), Square(ff, fr)), PieceValue(piece), Square(tf, tr)))
  {
  }

  /** The piece `moveHelper` promotes to: the mover's queen for a
      four-character move, otherwise `charPiece<C>` of the fifth character. */
  function PromotionPiece(c: Color, uci: string): Piece
    requires |uci| >= 4
  {
    if |uci| == 4 then Colored(Queen, c) else CharPiece(c, uci[4])
  }

  /** `moveHelper<C>`: a move of the mover's pawn to rank 8 (for either
      colour) goes through `promote<C>`, every other move through
      `move<C>`, with the from-piece read by `piece`. */
  function MoveHelper(bb: Boards, c: Color, ff: Coord, fr: Coord, tf: Coord, tr: Coord, uci: string): Outcome
    requires |uci| >= 4
  {
    var fromPiece := PieceAt(bb, Square(ff, fr));
    if fromPiece == Colored(Pawn, c) && tr == 7 then
      Promote(bb, c, ff, fr, fromPiece, tf, tr, PromotionPiece(c, uci))
    else
      MovePiece(bb, c, ff, fr, fromPiece, tf, tr)
  }

  /** `moveHelper` in terms of the piece found on the origin square. */
  lemma MoveHelperSteps(bb: Boards, c: Color, ff: Coord, fr: Coord, tf: Coord, tr: Coord, uci: string, fromPiece: Piece)
    requires |uci| >= 4
    requires fromPiece == PieceAt(bb, Square(ff, fr))
    ensures MoveHelper(bb, c, ff, fr, tf, tr, uci) ==
      if fromPiece == Colored(Pawn, c) && tr == 7 then Promote(bb, c, ff, fr, fromPiece, tf, tr, PromotionPiece(c, uci))
      else MovePiece(bb, c, ff, fr, fromPiece, tf, tr)
  {
  }

  /** Move text `move` can decode: four characters or more, files 'A'..'H'
      and ranks '1'..'8'. `charFile` and `charRank` do not check their
      input, and anything else indexes the tables out of range. */
  predicate ValidUci(uci: string)
  {
    |uci| >= 4 && 'A' <= uci[0] <= 'H' && '1' <= uci[1] <= '8' && 'A' <= uci[2] <= 'H' && '1' <= uci[3] <= '8'
  }

  /** The file or rank value a checked character decodes to. */
  function Coordinate(v: int): Coord
    requires 0 <= v < 8
  {
    v as bv8
  }

  /** `move(uciMove)`: decode the two squares, let `moveHelper` of the side
      to move play it, and hand the turn over when it was accepted. */
  function Move(st: State, uci: string): (p: Played)
    requires ValidUci(uci)
  {
    var o := MoveHelper(st.boards, st.turn, Coordinate(CharFile(uci[0])), Coordinate(CharRank(uci[1])),
      Coordinate(CharFile(uci[2])), Coordinate(CharRank(uci[3])), uci);
    Played(o.accepted, State(o.boards, if o.accepted then Opposite(st.turn) else st.turn))
  }

  // ---------------------------------------------------------------------
  // Rejection and the turn.

  /** A rejected promotion changes no board. */
  lemma PromoteRejectedUnchanged(bb: Boards, c: Color, ff: Coord, fr: Coord, fromPiece: Piece, tf: Coord, tr: Coord, piece: Piece)
    ensures !ValidPromotion(piece) ==> !Promote(bb, c, ff, fr, fromPiece, tf, tr, piece).accepted
    ensures !Promote(bb, c, ff, fr, fromPiece, tf, tr, piece).accepted ==>
      Promote(bb, c, ff, fr, fromPiece, tf, tr, piece).boards == bb
  {
  }

  /** A move `moveHelper` rejects changes no board. */
  lemma MoveHelperRejectedUnchanged(bb: Boards, c: Color, ff: Coord, fr: Coord, tf: Coord, tr: Coord, uci: string)
    requires |uci| >= 4
    ensures !MoveHelper(bb, c, ff, fr, tf, tr, uci).accepted ==> MoveHelper(bb, c, ff, fr, tf, tr, uci).boards == bb
  {
    var fromPiece := PieceAt(bb, Square(ff, fr));
    PromoteRejectedUnchanged(bb, c, ff, fr, fromPiece, tf, tr, PromotionPiece(c, uci));
  }

  /** `move` hands the turn to the other side exactly when it accepts the
      move, and a rejected move leaves the boards and the turn as they
      were. */
  lemma MoveTurn(st: State, uci: string)
    requires ValidUci(uci)
    ensures Move(st, uci).moved ==> Move(st, uci).state.turn == Opposite(st.turn)
    ensures !Move(st, uci).moved ==> Move(st, uci).state == st
  {
    MoveHelperRejectedUnchanged(st.boards, st.turn, Coordinate(CharFile(uci[0])), Coordinate(CharRank(uci[1])),
      Coordinate(CharFile(uci[2])), Coordinate(CharRank(uci[3])), uci);
  }

  // ---------------------------------------------------------------------
  // Moves on a position given by a placement.

  /** A move of a piece of the side to move that is not a pawn reaching
      rank 8: accepted exactly when the to-square is generated for the
      piece; a rejected move changes nothing, and an accepted one relocates
      the piece, removing whatever stood on the to-square. */
  lemma HelperOnPlacement(cs: Squares, c: Color, ff: Coord, fr: Coord, tf: Coord, tr: Coord, uci: string)
    requires |uci| >= 4
    requires cs[Index(ff, fr)] != None && ColorOf(cs[Index(ff, fr)]) == c
    requires !(cs[Index(ff, fr)] == Colored(Pawn, c) && tr == 7)
    ensures MoveHelper(Place(cs), c, ff, fr, tf, tr, uci).accepted <==>
      Bit(Moves(Place(cs), cs[Index(ff, fr)], ff, fr), Index(tf, tr))
    ensures MoveHelper(Place(cs), c, ff, fr, tf, tr, uci).boards ==
      if MoveHelper(Place(cs), c, ff, fr, tf, tr, uci).accepted then Place(Relocated(cs, Index(ff, fr), Index(tf, tr)))
      else Place(cs)
  {
    PieceAtPlace(cs, Index(ff, fr));
    MovePieceOnPlacement(cs, c, ff, fr, tf, tr);
  }

  /** A move of the mover's pawn to rank 8: accepted exactly when the
      promotion piece passes the validity test and the pawn can move there;
      when accepted, the boards are those of the relocated placement with
      the from-square toggled on the pawn board and the to-square on the
      promotion piece's board. */
  lemma PromotionOnPlacement(cs: Squares, c: Color, ff: Coord, fr: Coord, tf: Coord, uci: string)
    requires |uci| >= 4
    requires cs[Index(ff, fr)] == Colored(Pawn, c)
    ensures MoveHelper(Place(cs), c, ff, fr, tf, 7, uci).accepted <==>
      ValidPromotion(PromotionPiece(c, uci)) && Bit(Moves(Place(cs), Colored(Pawn, c), ff, fr), Index(tf, 7))
    ensures MoveHelper(Place(cs), c, ff, fr, tf, 7, uci).accepted ==>
      MoveHelper(Place(cs), c, ff, fr, tf, 7, uci).boards ==
        Toggle(Toggle(Place(Relocated(cs, Index(ff, fr), Index(tf, 7))), PieceValue(Colored(Pawn, c)), Square(ff, fr)),
          PieceValue(PromotionPiece(c, uci)), Square(tf, 7))
  {
    PieceAtPlace(cs, Index(ff, fr));
    MovePieceOnPlacement(cs, c, ff, fr, tf, 7);
  }

  /** `move` on a placement: a move of a piece of the side to move that is
      not a pawn reaching rank 8 is accepted exactly when the to-square is
      generated for the piece; then the piece is relocated and the turn
      passes, and otherwise nothing changes. */
  lemma MoveOnPlacement(cs: Squares, turn: Color, uci: string)
    requires ValidUci(uci)
    requires var ff, fr, tr := Coordinate(CharFile(uci[0])), Coordinate(CharRank(uci[1])), Coordinate(CharRank(uci[3]));
      cs[Index(ff, fr)] != None && ColorOf(cs[Index(ff, fr)]) == turn && !(cs[Index(ff, fr)] == Colored(Pawn, turn) && tr == 7)
    ensures var ff, fr, tf, tr := Coordinate(CharFile(uci[0])), Coordinate(CharRank(uci[1])),
        Coordinate(CharFile(uci[2])), Coordinate(CharRank(uci[3]));
      var played := Move(State(Place(cs), turn), uci);
      (played.moved <==> Bit(Moves(Place(cs), cs[Index(ff, fr)], ff, fr), Index(tf, tr))) &&
      played.state == if played.moved then State(Place(Relocated(cs, Index(ff, fr), Index(tf, tr))), Opposite(turn))
        else State(Place(cs), turn)
  {
    HelperOnPlacement(cs, turn, Coordinate(CharFile(uci[0])), Coordinate(CharRank(uci[1])),
      Coordinate(CharFile(uci[2])), Coordinate(CharRank(uci[3])), uci);
  }

  // ---------------------------------------------------------------------
  // Where the moves depart from chess.

  /** A square on the white pawn board holds a white pawn for `piece`,
      which tries that board first. */
  lemma PieceAtWhitePawn(bb: Boards, i: bv8)
    requires i < 64 && Bit(Board(bb, WPawn), i)
    ensures PieceAt(bb, Sq(i)) == WPawn
  {
    MaskSq(Board(bb, WPawn), i);
    assert Meets(bb, PiecesList[0], Sq(i));
  }

  /** The two toggles `promote` adds, on the relocated placement of a white
      pawn from square `s` to square `t`, given by their masks: the pawn
      board ends up set on both squares, the promotion piece's board on `t`,
      and the empty board keeps `s`. */
  lemma PromotedBits(cs: Squares, s: bv8, t: bv8, q: Piece, from: bv64, to: bv64)
    requires s < 64 && t < 64 && s != t
    requires cs[s] == WPawn && ValidPromotion(q) && ColorOf(q) == White
    requires Bit(from, s) && !Bit(from, t) && Bit(to, t) && !Bit(to, s)
    ensures var bb := Toggle(Toggle(Place(Relocated(cs, s, t)), PieceValue(WPawn), from), PieceValue(q), to);
      Bit(bb[PieceValue(WPawn)], s) && Bit(bb[PieceValue(WPawn)], t) &&
      Bit(bb[PieceValue(q)], t) && Bit(bb[PieceValue(None)], s)
  {
    var moved := Place(Relocated(cs, s, t));
    ValuesDistinct(q, WPawn, White, White);
    ValuesDistinct(q, None, White, White);
    ValuesDistinct(WPawn, None, White, White);
    RelocatedAt(cs, s, t, s);
    RelocatedAt(cs, s, t, t);
    PlaceBit(Relocated(cs, s, t), PieceValue(WPawn), s);
    PlaceBit(Relocated(cs, s, t), PieceValue(WPawn), t);
    PlaceBit(Relocated(cs, s, t), PieceValue(q), t);
    PlaceBit(Relocated(cs, s, t), PieceValue(None), s);
    ToggleTwiceBit(moved, PieceValue(WPawn), from, PieceValue(q), to, PieceValue(WPawn), s);
    ToggleTwiceBit(moved, PieceValue(WPawn), from, PieceValue(q), to, PieceValue(WPawn), t);
    ToggleTwiceBit(moved, PieceValue(WPawn), from, PieceValue(q), to, PieceValue(q), t);
    ToggleTwiceBit(moved, PieceValue(WPawn), from, PieceValue(q), to, PieceValue(None), s);
  }

  /** An accepted white promotion leaves the pawn where it was: `promote`
      toggles the pawn board on the from-square, which `move<C>` has just
      cleared, instead of on the to-square. Afterwards `piece` reports a
      white pawn on both squares, the to-square is also on the promotion
      piece's board, and the from-square is still on the empty board. */
  lemma PromotionKeepsPawn(cs: Squares, ff: Coord, fr: Coord, tf: Coord, uci: string)
    requires |uci| >= 4 && cs[Index(ff, fr)] == WPawn
    requires MoveHelper(Place(cs), White, ff, fr, tf, 7, uci).accepted
    ensures var bb := MoveHelper(Place(cs), White, ff, fr, tf, 7, uci).boards;
      PieceAt(bb, Square(ff, fr)) == WPawn && PieceAt(bb, Square(tf, 7)) == WPawn &&
      Bit(Board(bb, PromotionPiece(White, uci)), Index(tf, 7)) && Bit(Empty(bb), Index(ff, fr))
  {
    var s, t := Index(ff, fr), Index(tf, 7);
    PromotionOnPlacement(cs, White, ff, fr, tf, uci);
    TargetOpen(cs, WPawn, ff, fr, tf, 7);
    BitSq(s, s);
    BitSq(s, t);
    BitSq(t, t);
    BitSq(t, s);
    PromotedBits(cs, s, t, PromotionPiece(White, uci), Square(ff, fr), Square(tf, 7));
    var bb := MoveHelper(Place(cs), White, ff, fr, tf, 7, uci).boards;
    PieceAtWhitePawn(bb, s);
    PieceAtWhitePawn(bb, t);
  }

  /** The promotion piece passes the validity test exactly when the move
      has four characters or its fifth names a knight, rook, bishop, queen
      or king: a king is accepted, and an uppercase letter is not. */
  lemma PromotionPieceValid(c: Color, uci: string)
    requires |uci| >= 4
    ensures ValidPromotion(PromotionPiece(c, uci)) <==> |uci| == 4 || uci[4] in {'n', 'r', 'b', 'q', 'k'}
    ensures |uci| > 4 && uci[4] == 'k' ==> PromotionPiece(c, uci) == Colored(King, c)
  {
  }

  /** A move from a square `piece` finds empty is rejected and changes no
      board: `moves` generates nothing for None. */
  lemma EmptySquareRejected(bb: Boards, c: Color, ff: Coord, fr: Coord, tf: Coord, tr: Coord, uci: string)
    requires |uci| >= 4 && PieceAt(bb, Square(ff, fr)) == None
    ensures !MoveHelper(bb, c, ff, fr, tf, tr, uci).accepted
    ensures MoveHelper(bb, c, ff, fr, tf, tr, uci).boards == bb
  {
  }

  /** An accepted move of a piece of the side to move that is not a pawn
      reaching rank 8 keeps the boards well formed: the colours and the
      empty board still partition the squares, and each square is on the
      board of exactly one piece (or of None). */
  lemma MoveKeepsWellFormed(bb: Boards, turn: Color, uci: string)
    requires ValidUci(uci) && WellFormed(bb)
    requires var ff, fr, tr := Coordinate(CharFile(uci[0])), Coordinate(CharRank(uci[1])), Coordinate(CharRank(uci[3]));
      var p := Contents(bb)[Index(ff, fr)];
      p != None && ColorOf(p) == turn && !(p == Colored(Pawn, turn) && tr == 7)
    ensures Move(State(bb, turn), uci).moved ==>
      WellFormed(Move(State(bb, turn), uci).state.boards) && Partitioned(Move(State(bb, turn), uci).state.boards)
  {
    var cs := Contents(bb);
    MoveOnPlacement(cs, turn, uci);
    var s, t := Index(Coordinate(CharFile(uci[0])), Coordinate(CharRank(uci[1]))),
      Index(Coordinate(CharFile(uci[2])), Coordinate(CharRank(uci[3])));
    PlaceWellFormed(Relocated(cs, s, t));
    PlacePartitioned(Relocated(cs, s, t));
  }

  // Black never promotes: `moveHelper` tests for rank 8 whatever the colour.

  /** The board of a square below rank 8 has no bit on rank 8. */
  lemma OffRankEight(j: bv8, t: bv8)
    requires j < 64 && t < 64 && j / 8 < 7 && t / 8 == 7
    ensures !Bit(Sq(j), t)
  {
    BitSq(j, t);
  }

  /** The two squares diagonally one rank down are below rank 8. */
  lemma LowerDiagonalsBelowEight(f: Coord, r: Coord, t: bv8)
    requires t < 64 && t / 8 == 7
    ensures !Bit(if 0 < f && 0 < r then Sq(Index(f - 1, r - 1)) else 0, t)
    ensures !Bit(if f < 7 && 0 < r then Sq(Index(f + 1, r - 1)) else 0, t)
  {
    BitZero(t);
    if 0 < f && 0 < r {
      OffRankEight(Index(f - 1, r - 1), t);
    }
    if f < 7 && 0 < r {
      OffRankEight(Index(f + 1, r - 1), t);
    }
  }

  /** A black pawn attacks no square on rank 8. */
  lemma BlackPawnAttacksBelowEight(f: Coord, r: Coord, tf: Coord)
    ensures !Bit(BlackPawnAttacks(f, r), Index(tf, 7))
  {
    var t := Index(tf, 7);
    BlackPawnAttacksDiagonal(f, r);
    LowerDiagonalsBelowEight(f, r, t);
    BitOr(if 0 < f && 0 < r then Sq(Index(f - 1, r - 1)) else 0, if f < 7 && 0 < r then Sq(Index(f + 1, r - 1)) else 0, t);
  }

  /** A black pawn never moves to rank 8. */
  lemma BlackPawnMovesBelowEight(bb: Boards, f: Coord, r: Coord, tf: Coord)
    ensures !Bit(PawnMoves(bb, Black, f, r), Index(tf, 7))
  {
    BlackPawnMovesBits(bb, f, r, Index(tf, 7));
    BlackPawnAttacksBelowEight(f, r, tf);
  }

  /** So a black pawn's move to rank 8 is always rejected ... */
  lemma BlackRankEightRejected(bb: Boards, ff: Coord, fr: Coord, tf: Coord, uci: string)
    requires |uci| >= 4 && PieceAt(bb, Square(ff, fr)) == BPawn
    ensures !MoveHelper(bb, Black, ff, fr, tf, 7, uci).accepted
  {
    BlackPawnMovesBelowEight(bb, ff, fr, tf);
    MaskSq(PawnMoves(bb, Black, ff, fr), Index(tf, 7));
  }

  /** ... and its move to rank 1 goes through `move<C>` like any other: the
      pawn arrives on rank 1 and stays a pawn. */
  lemma BlackPawnNotPromoted(cs: Squares, ff: Coord, fr: Coord, tf: Coord, uci: string)
    requires |uci| >= 4 && cs[Index(ff, fr)] == BPawn
    requires Bit(Moves(Place(cs), BPawn, ff, fr), Index(tf, 0))
    ensures MoveHelper(Place(cs), Black, ff, fr, tf, 0, uci).accepted
    ensures MoveHelper(Place(cs), Black, ff, fr, tf, 0, uci).boards == Place(Relocated(cs, Index(ff, fr), Index(tf, 0)))
    ensures Relocated(cs, Index(ff, fr), Index(tf, 0))[Index(tf, 0)] == BPawn
  {
    HelperOnPlacement(cs, Black, ff, fr, tf, 0, uci);
    RelocatedAt(cs, Index(ff, fr), Index(tf, 0), Index(tf, 0));
  }

  // No colour check on the mover: `move<C>` toggles the board of colour C
  // whatever the colour of the piece.

  /** Bit `s` of the two colour boards after the updates of `move<C>` moves
      a piece of the other colour away from `s`: both colours hold it. */
  lemma WrongColourBits(bb: Boards, c: Color, fromPiece: Piece, toPiece: Piece, from: bv64, to: bv64, s: bv8)
    requires s < 64 && Bit(from, s) && !Bit(to, s) && fromPiece != None
    requires !Bit(bb[ColorValue(c)], s) && Bit(bb[ColorValue(Opposite(c))], s)
    ensures Bit(Applied(bb, c, fromPiece, toPiece, from, to)[ColorValue(c)], s)
    ensures Bit(Applied(bb, c, fromPiece, toPiece, from, to)[ColorValue(Opposite(c))], s)
  {
    BitOr(from, to, s);
    ValuesDistinct(fromPiece, toPiece, c, Opposite(c));
    ValuesDistinct(None, toPiece, c, Opposite(c));
    ValuesDistinct(fromPiece, None, Opposite(c), c);
    ValuesDistinct(None, toPiece, Opposite(c), c);
    if toPiece != None {
      CaptureBit(bb, c, fromPiece, toPiece, from, to, ColorValue(c), s);
      CaptureBit(bb, c, fromPiece, toPiece, from, to, ColorValue(Opposite(c)), s);
    } else {
      QuietBit(bb, c, fromPiece, from, to, ColorValue(c), s);
      QuietBit(bb, c, fromPiece, from, to, ColorValue(Opposite(c)), s);
    }
  }

  /** A square on both colour boards breaks the partition. */
  lemma BothColoursNotPartitioned(bb: Boards, c: Color, s: bv8)
    requires s < 64 && Bit(Occupancy(bb, c), s) && Bit(Occupancy(bb, Opposite(c)), s)
    ensures !Partitioned(bb)
  {
    OppositeInvolution(c);
    BitAnd(Occupancy(bb, White), Occupancy(bb, Black), s);
    BitZero(s);
  }

  /** The updates of `move<C>` for a generated move of a piece of the other
      colour, on a placement's boards, put the from-square on both colour
      boards. */
  lemma WrongColourApplied(cs: Squares, c: Color, ff: Coord, fr: Coord, tf: Coord, tr: Coord)
    requires cs[Index(ff, fr)] != None && ColorOf(cs[Index(ff, fr)]) == Opposite(c)
    requires Bit(Moves(Place(cs), cs[Index(ff, fr)], ff, fr), Index(tf, tr))
    ensures var bb := Applied(Place(cs), c, cs[Index(ff, fr)], PieceAt(Place(cs), Square(tf, tr)), Square(ff, fr), Square(tf, tr));
      Bit(Occupancy(bb, c), Index(ff, fr)) && Bit(Occupancy(bb, Opposite(c)), Index(ff, fr))
  {
    var s, t := Index(ff, fr), Index(tf, tr);
    TargetOpen(cs, cs[s], ff, fr, tf, tr);
    PlaceBoards(cs, s);
    OppositeInvolution(c);
    BitSq(s, s);
    BitSq(t, s);
    WrongColourBits(Place(cs), c, cs[s], PieceAt(Place(cs), Square(tf, tr)), Square(ff, fr), Square(tf, tr), s);
  }

  /** A piece of the side not to move that `moveHelper` lets move leaves its
      from-square on both colour boards, so the colours no longer partition
      the squares. */
  lemma WrongColourBreaksPartition(cs: Squares, c: Color, ff: Coord, fr: Coord, tf: Coord, tr: Coord, uci: string)
    requires |uci| >= 4 && cs[Index(ff, fr)] != None && ColorOf(cs[Index(ff, fr)]) == Opposite(c)
    requires MoveHelper(Place(cs), c, ff, fr, tf, tr, uci).accepted
    ensures !Partitioned(MoveHelper(Place(cs), c, ff, fr, tf, tr, uci).boards)
  {
    var s := Index(ff, fr);
    PieceAtPlace(cs, s);
    MaskSq(Moves(Place(cs), cs[s], ff, fr), Index(tf, tr));
    WrongColourApplied(cs, c, ff, fr, tf, tr);
    BothColoursNotPartitioned(MoveHelper(Place(cs), c, ff, fr, tf, tr, uci).boards, c, s);
  }
}
