// The two fields of Forsyth–Edwards Notation that chess/Board.h reads and
// writes (section 16.1 of the PGN Standard: piece placement and active
// colour). `PlacementText` is the text `fen()` writes, square by square,
// and `Scan` the placement `set()` reads back; the round trip between the
// two is proved here, and the class in board.dfy runs both loops in place.
module Fen {
  import opened Pieces
  import opened Placement

  /** `s_pieceChars`: the letter of each slot value, 'w' and 'b' for the two
      colours and '.' for None. */
  const PieceChars: seq<char> := ['w', 'P', 'N', 'R', 'B', 'Q', 'K', '.', 'b', 'p', 'n', 'r', 'b', 'q', 'k']

  /** `s_pieceChars[p]`. */
  function PieceChar(p: Piece): char
  {
    PieceChars[PieceValue(p)]
  }

  /** `s_pieceChars[m_turn]`. */
  function TurnChar(c: Color): (ch: char)
    ensures ch == 'w' <==> c == White
  {
    PieceChars[ColorValue(c)]
  }

  /** The piece cases of the `switch` in `set()`: uppercase letters for
      white, lowercase for black; every other character is no piece. */
  function FenPiece(ch: char): Piece
  {
    match ch
    case 'r' => BRook
    case 'n' => BKnight
    case 'b' => BBishop
    case 'q' => BQueen
    case 'k' => BKing
    case 'p' => BPawn
    case 'R' => WRook
    case 'N' => WKnight
    case 'B' => WBishop
    case 'Q' => WQueen
    case 'K' => WKing
    case 'P' => WPawn
    case _ => None
  }

  /** The letter `fen()` writes for a piece is the one `set()` reads as that
      piece, and every letter `set()` reads as a piece is that piece's
      letter. */
  lemma FenPieceChar(p: Piece, ch: char)
    ensures p != None ==> FenPiece(PieceChar(p)) == p
    ensures FenPiece(ch) != None ==> PieceChar(FenPiece(ch)) == ch
  {
  }

  /** The digit `ss << emptyCount` writes for a count of one to eight. */
  function Digit(n: int): (ch: char)
    requires 1 <= n <= 8
    ensures '1' <= ch <= '8' && ch as int - '0' as int == n
  {
    ('0' as int + n) as char
  }

  // ---------------------------------------------------------------------
  // Writing: `fen()`.

  /** What one iteration of the loop of `fen()` writes, and the count of
      empty squares it carries on. */
  datatype Emitted = Emitted(text: string, count: nat)

  /** The iteration for square `idx` holding `p`, with `count` empty squares
      of the same rank not yet written: an empty square adds to the count;
      the count is written as a digit before a piece and at the end of a
      rank; the piece's letter follows; a '/' closes every rank but the
      last. `count` never exceeds the squares of the rank already passed,
      so the digit is a single character. */
  function Emit(p: Piece, idx: int, count: nat): (e: Emitted)
    requires 0 <= idx < 64 && count <= 7 - idx % 8
    ensures e.count == if p == None && idx % 8 != 0 then count + 1 else 0
    ensures idx % 8 != 0 ==> e.count <= 7 - (idx - 1) % 8
  {
    var empty := p == None;
    var n := if empty then count + 1 else count;
    var endRank := idx % 8 == 0;
    var printEmpty := (!empty || endRank) && n > 0;
    Emitted((if printEmpty then [Digit(n)] else []) + (if !empty then [PieceChar(p)] else []) + (if endRank && idx != 0 then ['/'] else []),
      if printEmpty then 0 else n)
  }

  /** The '/' written after square `idx` when it ends a rank other than
      the last. */
  function Slash(idx: int): string
  {
    if idx % 8 == 0 && idx != 0 then ['/'] else []
  }

  /** What one iteration writes: for an empty square, the pending count
      plus one as a digit when the rank ends there and nothing otherwise;
      for a piece, the pending count (if any) and the piece's letter; then
      the rank's '/'. */
  lemma EmitText(p: Piece, idx: int, count: nat)
    requires 0 <= idx < 64 && count <= 7 - idx % 8
    ensures Emit(p, idx, count).text ==
      (if p == None then (if idx % 8 == 0 then [Digit(count + 1)] else [])
       else (if count > 0 then [Digit(count)] else []) + [PieceChar(p)]) + Slash(idx)
  {
  }

  /** The placement field as `fen()` writes it for the squares `idx` down
      to 0, with `count` empty squares pending. */
  function PlacementText(cs: Squares, idx: int, count: nat): string
    requires -1 <= idx < 64 && (0 <= idx ==> count <= 7 - idx % 8)
    decreases idx + 1
  {
    if idx < 0 then ""
    else
      var e := Emit(cs[idx], idx, count);
      e.text + PlacementText(cs, idx - 1, e.count)
  }

  /** One step of the placement field: what square `idx` writes, then the
      rest. */
  lemma PlacementStep(cs: Squares, idx: int, count: nat, s: string)
    requires 0 <= idx < 64 && count <= 7 - idx % 8
    ensures s + PlacementText(cs, idx, count) ==
      (s + Emit(cs[idx], idx, count).text) + PlacementText(cs, idx - 1, Emit(cs[idx], idx, count).count)
  {
    var e := Emit(cs[idx], idx, count);
    var below := PlacementText(cs, idx - 1, e.count);
    assert PlacementText(cs, idx, count) == e.text + below;
    Associative(s, e.text, below);
  }

  /** A piece inside a rank, with no empty squares pending, writes its
      letter. */
  lemma PieceText(cs: Squares, idx: int)
    requires 0 <= idx < 64 && idx % 8 != 0 && cs[idx] != None
    ensures PlacementText(cs, idx, 0) == [PieceChar(cs[idx])] + PlacementText(cs, idx - 1, 0)
  {
    EmitText(cs[idx], idx, 0);
  }

  /** An empty square inside a rank adds one to the pending count and
      writes nothing. */
  lemma EmptyText(cs: Squares, idx: int, count: nat)
    requires 0 <= idx < 64 && idx % 8 != 0 && count <= 7 - idx % 8 && cs[idx] == None
    ensures PlacementText(cs, idx, count) == PlacementText(cs, idx - 1, count + 1)
  {
    EmitText(cs[idx], idx, count);
  }

  /** Square `8 * r + k` lies on rank `r`, file index `k`. */
  lemma OnRank(r: int, k: int)
    requires 0 <= r < 8 && 0 <= k < 8
    ensures (8 * r + k) % 8 == k
  {
  }

  /** The letters of the pieces on squares `i + k - 1` down to `i`. */
  function Letters(cs: Squares, i: int, k: nat): (s: string)
    requires 0 <= i && i + k <= 64
    ensures |s| == k
  {
    if k == 0 then [] else [PieceChar(cs[i + k - 1])] + Letters(cs, i, k - 1)
  }

  /** The piece on the first square (file h) of a rank writes its letter
      and the rank's '/'. */
  lemma FirstPieceText(cs: Squares, i: int)
    requires 0 <= i < 64 && i % 8 == 0 && cs[i] != None
    ensures PlacementText(cs, i, 0) == Letters(cs, i, 1) + (Slash(i) + PlacementText(cs, i - 1, 0))
  {
    var below := PlacementText(cs, i - 1, 0);
    assert Letters(cs, i, 1) == [PieceChar(cs[i])];
    assert Emit(cs[i], i, 0).count == 0;
    assert PlacementText(cs, i, 0) == Emit(cs[i], i, 0).text + below;
    assert Emit(cs[i], i, 0).text == [PieceChar(cs[i])] + Slash(i) by {
      EmitText(cs[i], i, 0);
    }
    Associative([PieceChar(cs[i])], Slash(i), below);
  }

  /** One more piece of the same rank puts its letter in front. */
  lemma NextPieceText(cs: Squares, i: int, k: int, tail: string)
    requires 0 <= i && 2 <= k && i + k <= 64 && (i + k - 1) % 8 != 0 && cs[i + k - 1] != None
    requires PlacementText(cs, i + k - 2, 0) == Letters(cs, i, k - 1) + tail
    ensures PlacementText(cs, i + k - 1, 0) == Letters(cs, i, k) + tail
  {
    PieceText(cs, i + k - 1);
    Associative([PieceChar(cs[i + k - 1])], Letters(cs, i, k - 1), tail);
  }

  /** The first `k` squares of rank `r`, all holding pieces, write their
      letters, and the rank's '/' follows. */
  lemma {:induction false} PiecesText(cs: Squares, r: int, k: nat)
    requires 0 <= r < 8 && 1 <= k <= 8 && forall j | 8 * r <= j < 8 * r + k :: cs[j] != None
    ensures PlacementText(cs, 8 * r + k - 1, 0) == Letters(cs, 8 * r, k) + (Slash(8 * r) + PlacementText(cs, 8 * r - 1, 0))
  {
    var i := 8 * r;
    OnRank(r, k - 1);
    if k == 1 {
      FirstPieceText(cs, i);
    } else {
      PiecesText(cs, r, k - 1);
      NextPieceText(cs, i, k, Slash(i) + PlacementText(cs, i - 1, 0));
    }
  }

  /** Letter `j` of `Letters(cs, i, k)` is that of square `i + k - 1 - j`. */
  lemma {:induction false} LettersAt(cs: Squares, i: int, k: nat)
    requires 0 <= i && i + k <= 64
    ensures forall j | 0 <= j < k :: Letters(cs, i, k)[j] == PieceChar(cs[i + k - 1 - j])
  {
    if k > 0 {
      LettersAt(cs, i, k - 1);
    }
  }

  /** A rank's eight letters, from file a (the highest index) to file h. */
  lemma RankLetters(cs: Squares, i: int)
    requires 0 <= i <= 56
    ensures Letters(cs, i, 8) == [PieceChar(cs[i + 7]), PieceChar(cs[i + 6]), PieceChar(cs[i + 5]), PieceChar(cs[i + 4]),
                                  PieceChar(cs[i + 3]), PieceChar(cs[i + 2]), PieceChar(cs[i + 1]), PieceChar(cs[i])]
  {
    LettersAt(cs, i, 8);
  }

  /** A rank of eight pieces writes their eight letters, from file a to
      file h, and the rank's '/'. */
  lemma FullRankText(cs: Squares, r: int)
    requires 0 <= r < 8 && forall j | 8 * r <= j < 8 * r + 8 :: cs[j] != None
    ensures PlacementText(cs, 8 * r + 7, 0) ==
      [PieceChar(cs[8 * r + 7]), PieceChar(cs[8 * r + 6]), PieceChar(cs[8 * r + 5]), PieceChar(cs[8 * r + 4]),
       PieceChar(cs[8 * r + 3]), PieceChar(cs[8 * r + 2]), PieceChar(cs[8 * r + 1]), PieceChar(cs[8 * r])]
      + (Slash(8 * r) + PlacementText(cs, 8 * r - 1, 0))
  {
    var i := 8 * r;
    assert PlacementText(cs, i + 7, 0) == Letters(cs, i, 8) + (Slash(i) + PlacementText(cs, i - 1, 0)) by {
      PiecesText(cs, r, 8);
    }
    RankLetters(cs, i);
  }

  /** A rank of eight empty squares writes the digit 8 and the rank's '/'. */
  lemma EmptyRankText(cs: Squares, r: int)
    requires 0 <= r < 8 && forall j | 8 * r <= j < 8 * r + 8 :: cs[j] == None
    ensures PlacementText(cs, 8 * r + 7, 0) == ['8'] + Slash(8 * r) + PlacementText(cs, 8 * r - 1, 0)
  {
    var i := 8 * r;
    OnRank(r, 7);
    EmptyText(cs, i + 7, 0);
    OnRank(r, 6);
    EmptyText(cs, i + 6, 1);
    OnRank(r, 5);
    EmptyText(cs, i + 5, 2);
    OnRank(r, 4);
    EmptyText(cs, i + 4, 3);
    OnRank(r, 3);
    EmptyText(cs, i + 3, 4);
    OnRank(r, 2);
    EmptyText(cs, i + 2, 5);
    OnRank(r, 1);
    EmptyText(cs, i + 1, 6);
    OnRank(r, 0);
    assert PlacementText(cs, i, 7) == [Digit(8)] + Slash(i) + PlacementText(cs, i - 1, 0) by {
      EmitText(cs[i], i, 7);
    }
  }

  /** The body of the loop in `fen()` for square `idx` holding `p`: the
      text it appends and the count of empty squares it leaves pending. */
  method EmitSquare(p: Piece, idx: int, count: nat) returns (text: string, emptyCount: nat)
    requires 0 <= idx < 64 && count <= 7 - idx % 8
    ensures Emitted(text, emptyCount) == Emit(p, idx, count)
  {
    text := "";
    emptyCount := count;
    var empty := p == None;
    if empty {
      emptyCount := emptyCount + 1;
    }
    var endRank := idx % 8 == 0;
    var printEmpty := (!empty || endRank) && emptyCount > 0;
    if printEmpty {
      text := text + [Digit(emptyCount)];
      emptyCount := 0;
    }
    if !empty {
      text := text + [PieceChar(p)];
    }
    if endRank && idx != 0 {
      text := text + "/";
    }
  }

  /** `fen()`: the placement field, a space and the side to move. */
  function FenText(cs: Squares, turn: Color): string
  {
    PlacementText(cs, 63, 0) + " " + [TurnChar(turn)]
  }

  // ---------------------------------------------------------------------
  // Reading: `set()`.

  /** The end of the scan of `set()`: the placement read, and the text after
      the space that stopped it; or `Overrun` when the text has no space
      or a piece falls off the board, where `set()` reads or indexes out of
      bounds. */
  datatype Scanned = Overrun | Scanned(squares: Squares, rest: string)

  /** The loop of `set()` from the character `text[0]` on, with `sqr` the
      next square to fill: a piece letter puts its piece there and moves to
      the square below, a digit skips that many squares, and every other
      character, '/' included, changes nothing. */
  function Scan(text: string, sqr: int, cs: Squares): Scanned
    decreases |text|
  {
    if |text| == 0 then Overrun
    else if text[0] == ' ' then Scanned(cs, text[1..])
    else if FenPiece(text[0]) != None then
      if 0 <= sqr < 64 then Scan(text[1..], sqr - 1, cs[sqr := FenPiece(text[0])]) else Overrun
    else if '1' <= text[0] <= '8' then Scan(text[1..], sqr - (text[0] as int - '0' as int), cs)
    else Scan(text[1..], sqr, cs)
  }

  /** What `set()` reads: the placement and the side to move, white exactly
      when the character after the space is 'w'; or nothing, when the scan
      overruns or no character follows the space. */
  datatype Decoded = Invalid | Decoded(squares: Squares, turn: Color)

  /** `set(fenString)` as a function of the text. */
  function Decode(text: string): Decoded
  {
    var scanned := Scan(text, 63, Vacant());
    if scanned.Overrun? || |scanned.rest| == 0 then Invalid
    else Decoded(scanned.squares, if scanned.rest[0] == 'w' then White else Black)
  }

  // ---------------------------------------------------------------------
  // The round trip.

  /** Scanning a digit skips that many squares. */
  lemma ScanDigit(n: int, t: string, sqr: int, cs: Squares)
    requires 1 <= n <= 8
    ensures Scan([Digit(n)] + t, sqr, cs) == Scan(t, sqr - n, cs)
  {
    assert ([Digit(n)] + t)[1..] == t;
  }

  /** Scanning a '/' changes nothing. */
  lemma ScanSlash(t: string, sqr: int, cs: Squares)
    ensures Scan(['/'] + t, sqr, cs) == Scan(t, sqr, cs)
  {
    assert (['/'] + t)[1..] == t;
  }

  /** Scanning a piece letter places the piece. */
  lemma ScanPiece(p: Piece, t: string, sqr: int, cs: Squares)
    requires p != None && 0 <= sqr < 64
    ensures Scan([PieceChar(p)] + t, sqr, cs) == Scan(t, sqr - 1, cs[sqr := p])
  {
    FenPieceChar(p, ' ');
    assert ([PieceChar(p)] + t)[1..] == t;
  }

  /** Scanning the end of a rank: the '/' written after every rank but the
      last is skipped. */
  lemma ScanRankEnd(idx: int, t: string, sqr: int, cs: Squares)
    ensures Scan(Slash(idx) + t, sqr, cs) == Scan(t, sqr, cs)
  {
    if idx % 8 == 0 && idx != 0 {
      ScanSlash(t, sqr, cs);
    } else {
      assert Slash(idx) + t == t;
    }
  }

  /** Scanning what an iteration wrote for an empty square inside a rank:
      nothing, and the pending count grows. */
  lemma ScanEmitEmptyInside(idx: int, count: nat, t: string, cs: Squares)
    requires 0 <= idx < 64 && count <= 7 - idx % 8 && idx % 8 != 0
    ensures Scan(Emit(None, idx, count).text + t, idx + count, cs) == Scan(t, idx - 1 + (count + 1), cs)
  {
    EmitText(None, idx, count);
    assert Emit(None, idx, count).text + t == t;
  }

  /** Scanning what an iteration wrote for an empty square ending a rank:
      the digit skips the pending squares and this one. */
  lemma ScanEmitEmptyEnd(idx: int, count: nat, t: string, cs: Squares)
    requires 0 <= idx < 64 && count <= 7 - idx % 8 && idx % 8 == 0
    ensures Scan(Emit(None, idx, count).text + t, idx + count, cs) == Scan(t, idx - 1, cs)
  {
    calc {
      Scan(Emit(None, idx, count).text + t, idx + count, cs);
      { EmitEmptyEndText(idx, count, t); }
      Scan([Digit(count + 1)] + (Slash(idx) + t), idx + count, cs);
      { ScanDigit(count + 1, Slash(idx) + t, idx + count, cs); }
      Scan(Slash(idx) + t, idx - 1, cs);
      { ScanRankEnd(idx, t, idx - 1, cs); }
      Scan(t, idx - 1, cs);
    }
  }

  /** The text of an iteration for an empty square ending a rank, split at
      the digit. */
  lemma EmitEmptyEndText(idx: int, count: nat, t: string)
    requires 0 <= idx < 64 && count <= 7 - idx % 8 && idx % 8 == 0
    ensures Emit(None, idx, count).text + t == [Digit(count + 1)] + (Slash(idx) + t)
  {
    EmitText(None, idx, count);
    Associative([Digit(count + 1)], Slash(idx), t);
  }

  /** Scanning a piece letter and the rank's '/' after it. */
  lemma ScanLetter(p: Piece, idx: int, t: string, cs: Squares)
    requires 0 <= idx < 64 && p != None
    ensures Scan([PieceChar(p)] + (Slash(idx) + t), idx, cs) == Scan(t, idx - 1, cs[idx := p])
  {
    ScanPiece(p, Slash(idx) + t, idx, cs);
    ScanRankEnd(idx, t, idx - 1, cs[idx := p]);
  }

  /** The text of an iteration for a piece, split at the letter. */
  lemma EmitPieceText(p: Piece, idx: int, count: nat, t: string)
    requires 0 <= idx < 64 && count <= 7 - idx % 8 && p != None
    ensures Emit(p, idx, count).text + t ==
      (if count > 0 then [Digit(count)] else []) + ([PieceChar(p)] + (Slash(idx) + t))
  {
    EmitText(p, idx, count);
  }

  /** Scanning what an iteration wrote for a piece with empty squares
      pending: the digit skips them and the letter places the piece. */
  lemma ScanEmitCountedPiece(p: Piece, idx: int, count: nat, t: string, cs: Squares)
    requires 0 <= idx < 64 && 0 < count <= 7 - idx % 8 && p != None
    ensures Scan(Emit(p, idx, count).text + t, idx + count, cs) == Scan(t, idx - 1, cs[idx := p])
  {
    var rest := [PieceChar(p)] + (Slash(idx) + t);
    assert Emit(p, idx, count).text + t == [Digit(count)] + rest by {
      EmitPieceText(p, idx, count, t);
    }
    assert Scan([Digit(count)] + rest, idx + count, cs) == Scan(rest, idx, cs) by {
      assert count <= 7;
      ScanDigit(count, rest, idx + count, cs);
    }
    assert Scan(rest, idx, cs) == Scan(t, idx - 1, cs[idx := p]) by {
      ScanLetter(p, idx, t, cs);
    }
  }

  /** Scanning what an iteration wrote for a piece with no empty squares
      pending: the letter places the piece. */
  lemma ScanEmitBarePiece(p: Piece, idx: int, t: string, cs: Squares)
    requires 0 <= idx < 64 && p != None
    ensures Scan(Emit(p, idx, 0).text + t, idx, cs) == Scan(t, idx - 1, cs[idx := p])
  {
    EmitPieceText(p, idx, 0, t);
    assert Emit(p, idx, 0).text + t == [PieceChar(p)] + (Slash(idx) + t);
    ScanLetter(p, idx, t, cs);
  }

  /** Scanning what an iteration wrote for a piece: the digit (if any)
      skips the pending squares and the letter places the piece. */
  lemma ScanEmitPiece(p: Piece, idx: int, count: nat, t: string, cs: Squares)
    requires 0 <= idx < 64 && count <= 7 - idx % 8 && p != None
    ensures Scan(Emit(p, idx, count).text + t, idx + count, cs) == Scan(t, idx - 1, cs[idx := p])
  {
    if count > 0 {
      ScanEmitCountedPiece(p, idx, count, t, cs);
    } else {
      ScanEmitBarePiece(p, idx, t, cs);
    }
  }

  /** Scanning what one iteration of `fen()` wrote for square `idx` leaves
      the scan on the square the next iteration starts from, with the piece
      (if any) placed on square `idx`. */
  lemma ScanEmit(p: Piece, idx: int, count: nat, t: string, cs: Squares)
    requires 0 <= idx < 64 && count <= 7 - idx % 8
    ensures Scan(Emit(p, idx, count).text + t, idx + count, cs) ==
      Scan(t, idx - 1 + Emit(p, idx, count).count, if p == None then cs else cs[idx := p])
  {
    if p != None {
      ScanEmitPiece(p, idx, count, t, cs);
    } else if idx % 8 == 0 {
      ScanEmitEmptyEnd(idx, count, t, cs);
    } else {
      ScanEmitEmptyInside(idx, count, t, cs);
    }
  }

  /** The scan's placement `cs0` while reading back `cs` with squares
      `idx` down to 0 still to come and `count` empty squares pending:
      equal to `cs` above the pending squares, empty from there down, and
      the pending squares are empty in `cs` too. */
  ghost predicate Pending(cs: Squares, cs0: Squares, idx: int, count: nat)
  {
    (forall j | 0 <= j && idx + count < j < 64 :: cs0[j] == cs[j]) &&
    (forall j | 0 <= j <= idx + count && j < 64 :: cs0[j] == None) &&
    (forall j | 0 <= j && idx < j <= idx + count && j < 64 :: cs[j] == None)
  }

  /** One iteration of `fen()` keeps the scan's placement pending. */
  lemma PendingStep(cs: Squares, cs0: Squares, idx: int, count: nat)
    requires 0 <= idx < 64 && count <= 7 - idx % 8 && Pending(cs, cs0, idx, count)
    ensures Pending(cs, if cs[idx] == None then cs0 else cs0[idx := cs[idx]], idx - 1, Emit(cs[idx], idx, count).count)
  {
  }

  /** With no square to come, the pending placement is `cs`. */
  lemma PendingDone(cs: Squares, cs0: Squares)
    requires Pending(cs, cs0, -1, 0)
    ensures cs0 == cs
  {
    assert forall j | 0 <= j < 64 :: cs0[j] == cs[j];
  }

  /** The text written for squares `idx` down to 0 is that of square `idx`
      followed by that of the squares below. */
  lemma PlacementTextStep(cs: Squares, idx: int, count: nat, rest: string)
    requires 0 <= idx < 64 && count <= 7 - idx % 8
    ensures PlacementText(cs, idx, count) + " " + rest ==
      Emit(cs[idx], idx, count).text + (PlacementText(cs, idx - 1, Emit(cs[idx], idx, count).count) + " " + rest)
  {
    var e := Emit(cs[idx], idx, count);
    var below := PlacementText(cs, idx - 1, e.count);
    assert PlacementText(cs, idx, count) == e.text + below;
    Regroup(e.text, below, " ", rest);
  }

  /** Concatenation regrouped to the right. Dafny does not reassociate
      sequence concatenation by itself; the text lemmas above use this one
      step instead of asserting each regrouped sequence in full. */
  lemma Regroup(a: string, b: string, c: string, d: string)
    ensures ((a + b) + c) + d == a + ((b + c) + d)
  {
    Associative(a, b, c);
    Associative(a, b + c, d);
  }

  /** Concatenation is associative: one step of `Regroup`, also used alone
      by the text lemmas. */
  lemma Associative(a: string, b: string, c: string)
    ensures (a + b) + c == a + (b + c)
  {
  }

  /** Scanning the space and what follows stops the scan. */
  lemma ScanSpace(rest: string, sqr: int, cs: Squares)
    ensures Scan([' '] + rest, sqr, cs) == Scanned(cs, rest)
  {
    assert ([' '] + rest)[1..] == rest;
  }

  /** After the last square only the space is left to scan. */
  lemma ScanPlacementDone(cs: Squares, cs0: Squares, rest: string)
    requires Pending(cs, cs0, -1, 0)
    ensures Scan(PlacementText(cs, -1, 0) + " " + rest, -1, cs0) == Scanned(cs, rest)
  {
    PendingDone(cs, cs0);
    assert PlacementText(cs, -1, 0) + " " + rest == [' '] + rest;
    ScanSpace(rest, -1, cs0);
  }

  /** Scanning the text of square `idx` moves the scan on to the squares
      below it. */
  lemma ScanPlacementStep(cs: Squares, idx: int, count: nat, cs0: Squares, rest: string)
    requires 0 <= idx < 64 && count <= 7 - idx % 8
    ensures Scan(PlacementText(cs, idx, count) + " " + rest, idx + count, cs0) ==
      Scan(PlacementText(cs, idx - 1, Emit(cs[idx], idx, count).count) + " " + rest,
        idx - 1 + Emit(cs[idx], idx, count).count, if cs[idx] == None then cs0 else cs0[idx := cs[idx]])
  {
    var e := Emit(cs[idx], idx, count);
    var tail := PlacementText(cs, idx - 1, e.count) + " " + rest;
    assert PlacementText(cs, idx, count) + " " + rest == e.text + tail by {
      PlacementTextStep(cs, idx, count, rest);
    }
    ScanEmit(cs[idx], idx, count, tail, cs0);
  }

  /** Scanning the text `fen()` writes for squares `idx` down to 0, from a
      placement that already agrees with `cs` above the pending empty
      squares and is empty from there down, reads back `cs`. */
  lemma {:induction false} ScanPlacement(cs: Squares, idx: int, count: nat, cs0: Squares, rest: string)
    requires -1 <= idx < 64 && (0 <= idx ==> count <= 7 - idx % 8) && (idx < 0 ==> count == 0)
    requires Pending(cs, cs0, idx, count)
    ensures Scan(PlacementText(cs, idx, count) + " " + rest, idx + count, cs0) == Scanned(cs, rest)
    decreases idx + 1
  {
    if idx < 0 {
      ScanPlacementDone(cs, cs0, rest);
    } else {
      var e := Emit(cs[idx], idx, count);
      var cs1 := if cs[idx] == None then cs0 else cs0[idx := cs[idx]];
      PendingStep(cs, cs0, idx, count);
      ScanPlacement(cs, idx - 1, e.count, cs1, rest);
      ScanPlacementStep(cs, idx, count, cs0, rest);
    }
  }

  /** Before the first square every square of `cs` is pending. */
  lemma PendingVacant(cs: Squares)
    ensures Pending(cs, Vacant(), 63, 0)
  {
  }

  /** `set()` reads back what `fen()` writes: the placement and the side to
      move. */
  lemma DecodeFen(cs: Squares, turn: Color)
    ensures Decode(FenText(cs, turn)) == Decoded(cs, turn)
  {
    PendingVacant(cs);
    ScanPlacement(cs, 63, 0, Vacant(), [TurnChar(turn)]);
    assert PlacementText(cs, 63, 0) + " " + [TurnChar(turn)] == FenText(cs, turn);
  }

  /** `set()` ignores what follows the side to move (castling rights, en
      passant square and move counters are not read), and the boards it
      builds write back the same two fields: `set(fen() + rest)` then
      `fen()` gives `fen()` again. */
  lemma SetThenFen(cs: Squares, turn: Color, rest: string)
    ensures Decode(FenText(cs, turn) + rest) == Decoded(cs, turn)
    ensures FenText(Contents(Place(cs)), turn) == FenText(cs, turn)
  {
    var placement := PlacementText(cs, 63, 0);
    assert FenText(cs, turn) + rest == placement + " " + ([TurnChar(turn)] + rest) by {
      Associative(placement + " ", [TurnChar(turn)], rest);
    }
    assert Scan(placement + " " + ([TurnChar(turn)] + rest), 63, Vacant()) == Scanned(cs, [TurnChar(turn)] + rest) by {
      PendingVacant(cs);
      ScanPlacement(cs, 63, 0, Vacant(), [TurnChar(turn)] + rest);
    }
    ContentsOfPlace(cs);
  }
}
