// The `Board` class of chess/Board.h: fifteen bitboards, held as a sequence
// standing for the source's fixed-size array, and the side to move, changed in place by `set`, `move` and the
// private `moveHelper`, `move<C>` and `promote<C>`, and read by `fen`.
// Each method is proved to compute what the functions of the Fen, Moving
// and Playing modules say, so the theorems proved there hold of it.
module Chessboard {
  import opened Bits
  import opened Pieces
  import opened Files
  import opened Ranks
  import opened Tables
  import opened Position
  import opened Placement
  import opened Fen
  import opened Moving
  import opened Playing

  /** `s_startingPosition`, as written. */
  function StartingPosition(): Boards
  {
    [
    0xFFFF_0000_0000_0000, 0x0000_0000_0000_FF00, 0x0000_0000_0000_0042,
    0x0000_0000_0000_0081, 0x0000_0000_0000_0024, 0x0000_0000_0000_0010,
    0x0000_0000_0000_0008, 0x0000_FFFF_FFFF_0000, 0x0000_0000_0000_FFFF,
    0x00FF_0000_0000_0000, 0x4200_0000_0000_0000, 0x8100_0000_0000_0000,
    0x2400_0000_0000_0000, 0x1000_0000_0000_0000, 0x8000_0000_0000_0000]
  }

  /** Fifteen empty boards. */
  function Empty15(): (bb: Boards)
    ensures forall k | 0 <= k < 15 :: bb[k] == 0
  {
    seq(15, _ => 0)
  }

  /** What `set()` has filled in so far: the piece boards of `placed`, and
      nothing on the colour boards and the empty board. */
  ghost predicate Filled(bb: Boards, placed: Boards)
  {
    forall k | 0 <= k < 15 :: bb[k] == if PieceSlot(k) then placed[k] else 0
  }

  /** Cleared boards hold the empty placement. */
  lemma FilledVacant()
    ensures Filled(Empty15(), Place(Vacant()))
  {
    forall k: nat | PieceSlot(k) ensures Place(Vacant())[k] == 0 {
      PlaceVacant(k);
    }
  }

  /** Every piece has a board of its own. */
  lemma PieceSlots(p: Piece)
    requires p != None
    ensures PieceSlot(PieceValue(p))
  {
  }

  /** Setting square `sqr` on the board of `p` puts `p` on that empty
      square. */
  lemma FilledPut(bb: Boards, cs: Squares, sqr: int, p: Piece)
    requires Filled(bb, Place(cs)) && 0 <= sqr < 64 && cs[sqr] == None && p != None
    ensures Filled(bb[PieceValue(p) := bb[PieceValue(p)] | Sq(sqr as bv8)], Place(cs[sqr := p]))
  {
    PieceSlots(p);
    forall k: nat | PieceSlot(k) {
      PlacePut(cs, sqr, p, k);
    }
  }

  /** Filled boards agree with `placed` on the twelve piece boards. */
  lemma FilledPieces(pieces: Boards, placed: Boards)
    requires Filled(pieces, placed)
    ensures forall k | 1 <= k <= 6 || 9 <= k <= 14 :: pieces[k] == placed[k]
  {
    forall k | 1 <= k <= 6 || 9 <= k <= 14 ensures pieces[k] == placed[k] {
      assert PieceSlot(k);
    }
  }

  /** The white board `set()` computes from the piece boards is that of
      `placed`. */
  lemma FilledWhite(pieces: Boards, placed: Boards, white: bv64)
    requires forall k | 1 <= k <= 6 :: pieces[k] == placed[k]
    requires WhiteAssembled(placed)
    requires white == pieces[PieceValue(WPawn)] | pieces[PieceValue(WRook)] | pieces[PieceValue(WKnight)] |
      pieces[PieceValue(WBishop)] | pieces[PieceValue(WQueen)] | pieces[PieceValue(WKing)]
    ensures white == Occupancy(placed, White)
  {
  }

  /** The same for black. */
  lemma FilledBlack(pieces: Boards, placed: Boards, black: bv64)
    requires forall k | 9 <= k <= 14 :: pieces[k] == placed[k]
    requires BlackAssembled(placed)
    requires black == pieces[PieceValue(BPawn)] | pieces[PieceValue(BRook)] | pieces[PieceValue(BKnight)] |
      pieces[PieceValue(BBishop)] | pieces[PieceValue(BQueen)] | pieces[PieceValue(BKing)]
    ensures black == Occupancy(placed, Black)
  {
  }

  /** The union `set` computes of the six white piece boards. */
  function WhiteUnion(pieces: Boards): bv64
  {
    pieces[PieceValue(WPawn)] | pieces[PieceValue(WRook)] | pieces[PieceValue(WKnight)] |
      pieces[PieceValue(WBishop)] | pieces[PieceValue(WQueen)] | pieces[PieceValue(WKing)]
  }

  /** The union `set` computes of the six black piece boards. */
  function BlackUnion(pieces: Boards): bv64
  {
    pieces[PieceValue(BPawn)] | pieces[PieceValue(BRook)] | pieces[PieceValue(BKnight)] |
      pieces[PieceValue(BBishop)] | pieces[PieceValue(BQueen)] | pieces[PieceValue(BKing)]
  }

  /** The end of `set`: the white board is the union of the six white
      piece boards, the black board that of the six black ones, and the
      empty board the squares on neither. */
  function Assembled(pieces: Boards): Boards
  {
    pieces[ColorValue(White) := WhiteUnion(pieces)][ColorValue(Black) := BlackUnion(pieces)]
      [PieceValue(None) := !WhiteUnion(pieces) & !BlackUnion(pieces)]
  }

  /** Filled piece boards give the white board of the placement. */
  lemma AssembledWhite(pieces: Boards, cs: Squares)
    requires Filled(pieces, Place(cs))
    ensures WhiteUnion(pieces) == Occupancy(Place(cs), White)
  {
    FilledPieces(pieces, Place(cs));
    PlaceWhite(cs);
    FilledWhite(pieces, Place(cs), WhiteUnion(pieces));
  }

  /** The same for the black board. */
  lemma AssembledBlack(pieces: Boards, cs: Squares)
    requires Filled(pieces, Place(cs))
    ensures BlackUnion(pieces) == Occupancy(Place(cs), Black)
  {
    FilledPieces(pieces, Place(cs));
    PlaceBlack(cs);
    FilledBlack(pieces, Place(cs), BlackUnion(pieces));
  }

  /** With the colour boards of `placed` and their common complement
      written in, the boards are those of `placed`. */
  lemma FilledComplete(pieces: Boards, placed: Boards)
    requires Filled(pieces, placed) && EmptyAssembled(placed)
    requires WhiteUnion(pieces) == Occupancy(placed, White) && BlackUnion(pieces) == Occupancy(placed, Black)
    ensures Assembled(pieces) == placed
  {
    var bb := Assembled(pieces);
    forall k | 0 <= k < 15 ensures bb[k] == placed[k] {
      AssembledSlot(pieces, k);
      if k != 0 && k != 7 && k != 8 {
        assert PieceSlot(k);
      }
    }
  }

  /** Slot `k` of the assembled boards. */
  lemma AssembledSlot(pieces: Boards, k: int)
    requires 0 <= k < 15
    ensures Assembled(pieces)[k] ==
      if k == 0 then WhiteUnion(pieces) else if k == 8 then BlackUnion(pieces)
      else if k == 7 then !WhiteUnion(pieces) & !BlackUnion(pieces) else pieces[k]
  {
  }

  /** Assembling filled piece boards completes the placement. */
  lemma FilledAssemble(pieces: Boards, cs: Squares)
    requires Filled(pieces, Place(cs))
    ensures Assembled(pieces) == Place(cs)
  {
    AssembledWhite(pieces, cs);
    AssembledBlack(pieces, cs);
    PlaceEmpty(cs);
    FilledComplete(pieces, Place(cs));
  }

  /** One character of the placement field that is not the space. */
  lemma ScanNext(text: string, idx: nat, sqr: int, cs: Squares)
    requires idx < |text| && text[idx] != ' '
    ensures Scan(text[idx..], sqr, cs) ==
      if FenPiece(text[idx]) != None then
        if 0 <= sqr < 64 then Scan(text[idx + 1..], sqr - 1, cs[sqr := FenPiece(text[idx])]) else Overrun
      else if '1' <= text[idx] <= '8' then Scan(text[idx + 1..], sqr - (text[idx] as int - '0' as int), cs)
      else Scan(text[idx + 1..], sqr, cs)
  {
    assert text[idx..][1..] == text[idx + 1..];
  }

  /** A piece letter the scan accepts falls on a square. */
  lemma ScanPieceOnBoard(text: string, idx: nat, sqr: int, cs: Squares)
    requires idx < |text| && text[idx] != ' ' && FenPiece(text[idx]) != None
    requires Scan(text[idx..], sqr, cs).Scanned?
    ensures 0 <= sqr < 64
  {
    ScanNext(text, idx, sqr, cs);
  }

  /** The space ends the placement field. */
  lemma ScanEnd(text: string, idx: nat, sqr: int, cs: Squares)
    requires idx < |text| && text[idx] == ' '
    ensures Scan(text[idx..], sqr, cs) == Scanned(cs, text[idx + 1..])
  {
    assert text[idx..][1..] == text[idx + 1..];
  }

  /** What `piece(square(idx))` reads is the content of square `idx`. */
  lemma ContentsAt(bb: Boards, idx: int)
    requires 0 <= idx < 64
    ensures idx as bv8 < 64 && PieceAt(bb, SquareAt(idx as bv8)) == Contents(bb)[idx]
  {
    SquareIndex(idx);
  }

  class Board {
    /** `m_bitboards`, a `std::array` of fifteen boards held by value. */
    var bitboards: Boards
    /** `m_turn`. */
    var turn: Color

    /** `Board()`: the boards of `s_startingPosition`, white to move. */
    constructor ()
      ensures bitboards == StartingPosition() && turn == White
    {
      bitboards := StartingPosition();
      turn := White;
    }

    /** `Board(fenString)`: the position `set` reads from the text. */
    constructor FromFen(text: string)
      requires Decode(text).Decoded?
      ensures bitboards == Place(Decode(text).squares) && turn == Decode(text).turn
    {
      bitboards := Empty15();
      turn := White;
      new;
      Set(text);
    }

    /** One piece letter of `set`: the piece's bit on its board. */
    method SetSquare(ghost cs: Squares, sqr: int, p: Piece)
      requires Filled(bitboards, Place(cs)) && 0 <= sqr < 64 && cs[sqr] == None && p != None
      modifies this
      ensures Filled(bitboards, Place(cs[sqr := p])) && turn == old(turn)
    {
      var v := PieceValue(p);
      SquareIndex(sqr);
      FilledPut(bitboards, cs, sqr, p);
      bitboards := bitboards[v := bitboards[v] | SquareAt(sqr as bv8)];
    }

    /** The end of `set`: the colour boards and the empty board. */
    method Assemble(ghost cs: Squares)
      requires Filled(bitboards, Place(cs))
      modifies this
      ensures bitboards == Place(cs) && turn == old(turn)
    {
      FilledAssemble(bitboards, cs);
      bitboards := Assembled(bitboards);
    }

    /** `set(fenString)`: clear the boards, walk the placement field from
        square 63 down, setting each piece's bit on its board and skipping
        the squares a digit counts, then compute the two colour boards and
        the empty board, and read the side to move after the space. The
        text must be one `set` can read (see `Decode`); on any other text
        the source reads out of bounds. */
    method Set(text: string)
      requires Decode(text).Decoded?
      modifies this
      ensures bitboards == Place(Decode(text).squares) && turn == Decode(text).turn
    {
      bitboards := Empty15();
      FilledVacant();
      var sqr := 63;
      var idx := 0;
      ghost var cs := Vacant();
      while text[idx] != ' '
        invariant 0 <= idx < |text|
        invariant Scan(text[idx..], sqr, cs) == Scan(text, 63, Vacant())
        invariant Scan(text[idx..], sqr, cs).Scanned?
        invariant forall j | 0 <= j <= sqr && j < 64 :: cs[j] == None
        invariant Filled(bitboards, Place(cs))
        decreases |text| - idx
      {
        var ch := text[idx];
        ScanNext(text, idx, sqr, cs);
        idx := idx + 1;
        var p := FenPiece(ch);
        if p != None {
          ScanPieceOnBoard(text, idx - 1, sqr, cs);
          SetSquare(cs, sqr, p);
          cs := cs[sqr := p];
          sqr := sqr - 1;
        } else if '1' <= ch <= '8' {
          sqr := sqr - (ch as int - '0' as int);
        }
      }
      ScanEnd(text, idx, sqr, cs);
      Assemble(cs);
      idx := idx + 1;
      turn := if text[idx] == 'w' then White else Black;
    }

    /** `fen()`: walk the squares from 63 down, writing each piece's letter,
        the count of each run of empty squares before a piece or at the end
        of a rank, and '/' between ranks, then a space and the side to
        move. The result is the FEN text of what `piece` reads off the
        boards. */
    method Fen() returns (s: string)
      ensures s == FenText(Contents(bitboards), turn)
    {
      ghost var cs := Contents(bitboards);
      s := "";
      var emptyCount: nat := 0;
      var idx := 63;
      while idx >= 0
        invariant -1 <= idx < 64
        invariant 0 <= idx ==> emptyCount <= 7 - idx % 8
        invariant s + PlacementText(cs, idx, emptyCount) == PlacementText(cs, 63, 0)
        decreases idx
      {
        SquareIndex(idx);
        var p := PieceAt(bitboards, SquareAt(idx as bv8));
        ContentsAt(bitboards, idx);
        PlacementStep(cs, idx, emptyCount, s);
        var text;
        text, emptyCount := EmitSquare(p, idx, emptyCount);
        s := s + text;
        idx := idx - 1;
      }
      s := s + " " + [TurnChar(turn)];
    }

    /** `m_bitboards[k] ^= mask`. */
    method ToggleSlot(k: nat, mask: bv64)
      requires k < 15
      modifies this
      ensures bitboards == Toggle(old(bitboards), k, mask) && turn == old(turn)
    {
      bitboards := bitboards[k := bitboards[k] ^ mask];
    }

    /** `move<C>(fromFile, fromRank, fromSquare, fromPiece, toFile, toRank)`:
        reject a move whose to-square `moves` does not generate, otherwise
        apply the five updates in place. */
    method MovePiece(c: Color, ff: Coord, fr: Coord, fromSquare: bv64, fromPiece: Piece, tf: Coord, tr: Coord)
      returns (ok: bool)
      requires fromSquare == Square(ff, fr)
      modifies this
      ensures Outcome(ok, bitboards) == Moving.MovePiece(old(bitboards), c, ff, fr, fromPiece, tf, tr)
      ensures turn == old(turn)
    {
      var toSquare := Square(tf, tr);
      var legalMoves := Moves(bitboards, fromPiece, ff, fr);
      if legalMoves & toSquare == 0 {
        return false;
      }
      var toPiece := PieceAt(bitboards, toSquare);
      Apply(c, fromPiece, toPiece, fromSquare, toSquare);
      return true;
    }

    /** The five updates of an accepted `move<C>`: the mover's board and
        colour board toggle both squares, the empty board the from-square,
        the captured piece's board (the empty board when there is none) the
        to-square, and for a capture the other colour's board too. */
    method Apply(c: Color, fromPiece: Piece, toPiece: Piece, fromSquare: bv64, toSquare: bv64)
      modifies this
      ensures bitboards == Applied(old(bitboards), c, fromPiece, toPiece, fromSquare, toSquare)
      ensures turn == old(turn)
    {
      ToggleSlot(PieceValue(fromPiece), fromSquare | toSquare);
      ToggleSlot(ColorValue(c), fromSquare | toSquare);
      ToggleSlot(PieceValue(None), fromSquare);
      ToggleSlot(PieceValue(toPiece), toSquare);
      if toPiece != None {
        ToggleSlot(ColorValue(Opposite(c)), toSquare);
      }
    }

    /** `promote<C>(…, piece)`: check the promotion piece, play the pawn move
        with `move<C>`, then swap the pawn for the piece on the to-square. */
    method Promote(c: Color, ff: Coord, fr: Coord, fromSquare: bv64, fromPiece: Piece, tf: Coord, tr: Coord, piece: Piece)
      returns (ok: bool)
      requires fromSquare == Square(ff, fr)
      modifies this
      ensures Outcome(ok, bitboards) == Playing.Promote(old(bitboards), c, ff, fr, fromPiece, tf, tr, piece)
      ensures turn == old(turn)
    {
      ghost var before := bitboards;
      ghost var m := Moving.MovePiece(before, c, ff, fr, fromPiece, tf, tr);
      PromoteSteps(before, c, ff, fr, fromPiece, tf, tr, piece, m);
      var valid := piece != WPawn && piece != BPawn && piece != None;
      if valid {
        ok := MovePiece(c, ff, fr, fromSquare, fromPiece, tf, tr);
        if ok {
          ghost var moved := bitboards;
          ToggleSlot(PieceValue(Colored(Pawn, c)), Square(ff, fr));
          ToggleSlot(PieceValue(piece), Square(tf, tr));
          assert bitboards == Toggle(Toggle(moved, PieceValue(Colored(Pawn, c)), Square(ff, fr)), PieceValue(piece), Square(tf, tr));
          return true;
        }
      }
      return false;
    }

    /** `moveHelper<C>`: a pawn of the mover going to rank 8 is promoted (to
        the queen unless the text names a piece), anything else is moved. */
    method MoveHelper(c: Color, ff: Coord, fr: Coord, tf: Coord, tr: Coord, uci: string) returns (ok: bool)
      requires |uci| >= 4
      modifies this
      ensures Outcome(ok, bitboards) == Playing.MoveHelper(old(bitboards), c, ff, fr, tf, tr, uci)
      ensures turn == old(turn)
    {
      var fromSquare := Square(ff, fr);
      var fromPiece := PieceAt(bitboards, fromSquare);
      var promotion := fromPiece == Colored(Pawn, c) && tr == 7;
      MoveHelperSteps(bitboards, c, ff, fr, tf, tr, uci, fromPiece);
      if !promotion {
        ok := MovePiece(c, ff, fr, fromSquare, fromPiece, tf, tr);
      } else {
        var p := if |uci| == 4 then Colored(Queen, c) else CharPiece(c, uci[4]);
        assert p == PromotionPiece(c, uci);
        ok := Promote(c, ff, fr, fromSquare, fromPiece, tf, tr, p);
      }
    }

    /** `move(uciMove)`: decode the two squares, let the side to move play
        the move, and pass the turn when it was accepted. */
    method Move(uci: string) returns (moved: bool)
      requires ValidUci(uci)
      modifies this
      ensures Played(moved, State(bitboards, turn)) == Playing.Move(State(old(bitboards), old(turn)), uci)
    {
      var fromFile := Coordinate(CharFile(uci[0]));
      var fromRank := Coordinate(CharRank(uci[1]));
      var toFile := Coordinate(CharFile(uci[2]));
      var toRank := Coordinate(CharRank(uci[3]));
      if turn == White {
        moved := MoveHelper(White, fromFile, fromRank, toFile, toRank, uci);
        if moved {
          turn := Black;
        }
      } else {
        moved := MoveHelper(Black, fromFile, fromRank, toFile, toRank, uci);
        if moved {
          turn := White;
        }
      }
    }
  }
}
