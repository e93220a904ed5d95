// The invariant a game keeps while it is played with the moves getValidMoves
// returns: the position is sound (SoundPosition), and the side that has just
// moved did not leave its king where a move of the side to move ends. The
// starting position of GameState.__init__ has it; making any move of
// getValidMoves keeps it, and so do getValidMoves itself and a move made and
// taken back.
module Play {
  import opened ChessBoard
  import opened ChessMove
  import opened MoveRules
  import opened MakeUndo
  import opened MoveFacts
  import opened MoveDistinct
  import opened Legality
  import opened ValidMoveList

  /** No pseudo-legal move of the side to move ends on the king of the side that has just moved. */
  predicate WaitingKingSafe(b: Board, white: bool, ep: Option<(int, int)>, wk: (int, int), bk: (int, int))
    requires IsBoard(b) && NoStuckPawns(b)
  {
    var k := KingOf(!white, wk, bk);
    !EndsOn(AllPossibleMoves(b, white, ep), k.0, k.1)
  }

  /** What holds of every position of a game played with the moves getValidMoves returns. */
  ghost predicate InPlay(b: Board, white: bool, ep: Option<(int, int)>, cr: CastleRights, wk: (int, int), bk: (int, int)) {
    SoundPosition(b, white, ep, cr, wk, bk) && WaitingKingSafe(b, white, ep, wk, bk)
  }

  lemma EndsOnMember(s: seq<Move>, m: Move)
    requires m in s
    ensures EndsOn(s, m.endRow, m.endCol)
  {
    var i :| 0 <= i < |s| && s[i] == m;
  }

  lemma EndsOnSubset(s: seq<Move>, t: seq<Move>, r: int, c: int)
    requires forall m <- s :: m in t
    ensures EndsOn(s, r, c) ==> EndsOn(t, r, c)
  {
    if EndsOn(s, r, c) {
      var i :| 0 <= i < |s| && s[i].endRow == r && s[i].endCol == c;
      EndsOnMember(t, s[i]);
    }
  }

  // ---- the en-passant target only adds moves ----

  /** Every move a piece has without an en-passant target it also has with one. */
  lemma SquareMovesNoTarget(b: Board, white: bool, ep: Option<(int, int)>, r: int, c: int)
    requires IsBoard(b) && NoStuckPawns(b) && OnBoard(r, c)
    ensures forall m <- SquareMoves(b, white, None, r, c) :: m in SquareMoves(b, white, ep, r, c)
  {
    var sq := At(b, r, c);
    if HasColor(sq, SideColor(white)) && sq.kind == Pawn {
      var d := PawnDir(white);
      var left, right := PawnCapture(b, white, None, r, c, r + d, c - 1), PawnCapture(b, white, None, r, c, r + d, c + 1);
      assert left == [] || left == PawnCapture(b, white, ep, r, c, r + d, c - 1);
      assert right == [] || right == PawnCapture(b, white, ep, r, c, r + d, c + 1);
    }
  }

  lemma {:induction false} RowMovesNoTarget(b: Board, white: bool, ep: Option<(int, int)>, r: int, n: int)
    requires IsBoard(b) && NoStuckPawns(b) && 0 <= r < 8 && 0 <= n <= 8
    ensures forall m <- RowMoves(b, white, None, r, n) :: m in RowMoves(b, white, ep, r, n)
  {
    if n > 0 {
      RowMovesNoTarget(b, white, ep, r, n - 1);
      SquareMovesNoTarget(b, white, ep, r, n - 1);
    }
  }

  lemma {:induction false} RowsMovesNoTarget(b: Board, white: bool, ep: Option<(int, int)>, n: int)
    requires IsBoard(b) && NoStuckPawns(b) && 0 <= n <= 8
    ensures forall m <- RowsMoves(b, white, None, n) :: m in RowsMoves(b, white, ep, n)
  {
    if n > 0 {
      RowsMovesNoTarget(b, white, ep, n - 1);
      RowMovesNoTarget(b, white, ep, n - 1, 8);
    }
  }

  /** Clearing the en-passant target can only take moves away, so a king no move reaches with the
      target is reached by none without it. */
  lemma SafeWithoutTarget(b: Board, white: bool, ep: Option<(int, int)>, wk: (int, int), bk: (int, int))
    requires IsBoard(b) && NoStuckPawns(b) && WaitingKingSafe(b, white, ep, wk, bk)
    ensures WaitingKingSafe(b, white, None, wk, bk)
  {
    RowsMovesNoTarget(b, white, ep, 8);
    var k := KingOf(!white, wk, bk);
    EndsOnSubset(AllPossibleMoves(b, white, None), AllPossibleMoves(b, white, ep), k.0, k.1);
  }

  // ---- making a legal move ----

  /** The squares after makeMove of a move that is not a castle: the captured en-passant pawn's
      square and the start square are empty, the end square holds the moved (or promoted) piece,
      and every other square is as it was. */
  lemma MadeSquares(b: Board, m: Move, promo: Kind)
    requires IsBoard(b) && Applicable(m) && !m.isCastleMove
    ensures forall r, c :: OnBoard(r, c) ==>
      (At(MadeBoard(b, m, promo), r, c) ==
         if m.isEnpassantMove && (r, c) == (m.startRow, m.endCol) then Empty
         else if (r, c) == (m.endRow, m.endCol) then
           (if m.isPawnPromotion then Piece(m.pieceMoved.color, promo) else m.pieceMoved)
         else if (r, c) == (m.startRow, m.startCol) then Empty
         else At(b, r, c))
  {
  }

  /** After a pseudo-legal move that does not land on the waiting king, each king is still alone on
      its cached square. */
  lemma KingsAfterMove(b: Board, white: bool, ep: Option<(int, int)>, cr: CastleRights,
                       wk: (int, int), bk: (int, int), m: Move, promo: Kind, col: Color)
    requires SoundPosition(b, white, ep, cr, wk, bk) && Generated(b, white, ep, m) && PromotionKind(promo)
    requires (m.endRow, m.endCol) != KingOf(!white, wk, bk)
    ensures var loc := if col == White then wk else bk;
      KingAt(MadeBoard(b, m, promo), MovedKing(loc, Piece(col, King), m), col)
  {
    var loc := if col == White then wk else bk;
    var k := Piece(col, King);
    var b' := MadeBoard(b, m, promo);
    MadeSquares(b, m, promo);
    if m.pieceMoved == k {
      assert (m.startRow, m.startCol) == loc;
    } else {
      assert loc != (m.startRow, m.startCol);
      if m.isEnpassantMove {
        assert At(b, m.endRow, m.endCol) == Empty;
        assert At(b, m.startRow, m.endCol) == Piece(Opponent(SideColor(white)), Pawn);
      }
      assert loc != (m.endRow, m.endCol);
    }
    var loc' := MovedKing(loc, k, m);
    forall r, c | OnBoard(r, c) && At(b', r, c) == k
      ensures (r, c) == loc'
    {
    }
  }

  /** A pawn's two-row advance leaves a sound en-passant target for the other side: the square it
      skipped is empty and the pawn stands just beyond it. */
  lemma TargetAfterMove(b: Board, white: bool, ep: Option<(int, int)>, cr: CastleRights,
                        wk: (int, int), bk: (int, int), m: Move, promo: Kind)
    requires SoundPosition(b, white, ep, cr, wk, bk) && Generated(b, white, ep, m)
    ensures EnPassantSound(MadeBoard(b, m, promo), !white, NextEnPassant(m))
  {
    if IsDoublePawnPush(m) {
      MadeSquares(b, m, promo);
      assert (m.startRow + m.endRow) / 2 == m.startRow + PawnDir(white);
    }
  }

  /** A king that moves loses both of its rights, so every right still held has its king at home. */
  lemma RightsAfterMove(cr: CastleRights, wk: (int, int), bk: (int, int), m: Move)
    requires CastleHome(cr, wk, bk)
    ensures CastleHome(UpdatedRights(cr, m), MovedKing(wk, Piece(White, King), m), MovedKing(bk, Piece(Black, King), m))
  {
  }

  /** Making a move of getValidMoves keeps the invariant: the kings stay alone on their cached
      squares (the waiting king cannot be taken, since no move reaches it), a pawn's two-row
      advance leaves a sound en-passant target behind it, a king that moves loses its rights, and
      the side that moved did not leave its own king attacked. */
  lemma LegalMoveKeepsPlay(b: Board, white: bool, ep: Option<(int, int)>, cr: CastleRights,
                           wk: (int, int), bk: (int, int), m: Move, promo: Kind)
    requires InPlay(b, white, ep, cr, wk, bk) && PromotionKind(promo)
    requires m in LegalMoves(b, white, ep, wk, bk, promo)
    ensures Applicable(m)
    ensures InPlay(MadeBoard(b, m, promo), !white, NextEnPassant(m), UpdatedRights(cr, m),
                   MovedKing(wk, Piece(White, King), m), MovedKing(bk, Piece(Black, King), m))
  {
    LegalMovesExactly(b, white, ep, wk, bk, promo, m);
    AllPossibleMovesGenerated(b, white, ep);
    assert Generated(b, white, ep, m);
    EndsOnMember(AllPossibleMoves(b, white, ep), m);
    MadeBoardNoStuckPawns(b, m, promo);
    KingsAfterMove(b, white, ep, cr, wk, bk, m, promo, White);
    KingsAfterMove(b, white, ep, cr, wk, bk, m, promo, Black);
    TargetAfterMove(b, white, ep, cr, wk, bk, m, promo);
    RightsAfterMove(cr, wk, bk, m);
  }

  // ---- getValidMoves and the make/undo simulation ----

  /** Making a pseudo-legal move and taking it back, as getValidMoves does with every candidate,
      keeps the invariant: board and kings come back (SimulationRestores), the en-passant target
      is the old one or none, and rights are only lost. */
  lemma SimulationKeepsPlay(b: Board, white: bool, ep: Option<(int, int)>, cr: CastleRights,
                            wk: (int, int), bk: (int, int), m: Move)
    requires InPlay(b, white, ep, cr, wk, bk) && m in AllPossibleMoves(b, white, ep)
    ensures InPlay(b, white, UndoneEnPassant(NextEnPassant(m), m), UpdatedRights(cr, m), wk, bk)
  {
    AllPossibleMovesGenerated(b, white, ep);
    assert Generated(b, white, ep, m);
    MakeUndoEnPassant(ep, m);
    if UndoneEnPassant(NextEnPassant(m), m) == None {
      SafeWithoutTarget(b, white, ep, wk, bk);
    }
  }

  /** getValidMoves keeps the invariant: it gives back everything but the en-passant target, which
      for white it leaves as the filter did, the old one or none. */
  lemma ValidMovesKeepPlay(b: Board, white: bool, ep: Option<(int, int)>, cr: CastleRights,
                           wk: (int, int), bk: (int, int))
    requires InPlay(b, white, ep, cr, wk, bk)
    ensures InPlay(b, white, FilterEnPassant(b, white, ep), cr, wk, bk)
  {
    AllPossibleMovesGenerated(b, white, ep);
    EnPassantAfterFilterSound(b, white, ep, AllPossibleMoves(b, white, ep));
    if FilterEnPassant(b, white, ep) == None {
      SafeWithoutTarget(b, white, ep, wk, bk);
    }
  }

  // ---- the starting position ----

  /** The starting position is sound: one king of each colour on its home square, no en-passant target. */
  lemma InitialSound()
    ensures SoundPosition(InitialBoard, true, None, CastleRights(true, true, true, true), (7, 4), (0, 4))
  {
    var b := InitialBoard;
    assert IsBoard(b);
    forall r, c | OnBoard(r, c) && At(b, r, c).Piece? && At(b, r, c).kind == King
      ensures (r, c) == (7, 4) || (r, c) == (0, 4)
    {
      assert r == 0 || r == 7;
      assert BackRank[c] == King;
    }
  }

  /** From the back rank of the starting position every step runs into a white piece or off the
      board, so no ray has a move. */
  lemma InitialRayEmpty(c: int, dr: int, dc: int)
    requires 0 <= c < 8 && -1 <= dr <= 1 && -1 <= dc <= 1
    ensures Ray(InitialBoard, true, 7, c, dr, dc, 1) == []
  {
    InitialSound();
    RaySqProduct(7, dr, 1);
    RaySqProduct(c, dc, 1);
    var er, ec := 7 + dr, c + dc;
    if OnBoard(er, ec) {
      assert er == 6 || er == 7;
      assert At(InitialBoard, er, ec).Piece? && At(InitialBoard, er, ec).color == White;
    }
  }

  lemma {:induction false} InitialRaysEmpty(c: int, dirs: seq<(int, int)>)
    requires 0 <= c < 8 && forall d <- dirs :: -1 <= d.0 <= 1 && -1 <= d.1 <= 1
    ensures Rays(InitialBoard, true, 7, c, dirs) == []
  {
    InitialSound();
    if dirs != [] {
      var d := dirs[|dirs| - 1];
      InitialRaysEmpty(c, dirs[..|dirs| - 1]);
      InitialRayEmpty(c, d.0, d.1);
    }
  }

  /** A knight or king on white's back rank jumps at most two rows forward. */
  lemma BackRankJumpsEnd(c: int, offs: seq<(int, int)>)
    requires 0 <= c < 8 && DistinctOffsets(offs) && forall o <- offs :: o.0 >= -2
    ensures forall m <- Jumps(InitialBoard, true, 7, c, offs) :: m.endRow >= 5
  {
    InitialSound();
    JumpsEnds(InitialBoard, true, 7, c, offs);
  }

  /** A white piece on the back rank whose rays are all blocked moves at most two rows, as far as
      a knight's or king's jump reaches. */
  lemma BlockedBackRankEnds(b: Board, c: int)
    requires IsBoard(b) && NoStuckPawns(b) && 0 <= c < 8 && At(b, 7, c).Piece? && At(b, 7, c).kind != Pawn
    requires Rays(b, true, 7, c, RookDirections) == [] && Rays(b, true, 7, c, BishopDirections) == []
    requires forall m <- Jumps(b, true, 7, c, KnightOffsets) :: m.endRow >= 5
    requires forall m <- Jumps(b, true, 7, c, KingOffsets) :: m.endRow >= 5
    ensures forall m <- SquareMoves(b, true, None, 7, c) :: m.endRow >= 5
  {
  }

  /** White's back rank in the starting position holds no pawn. */
  lemma InitialBackRankPieces(c: int)
    requires 0 <= c < 8
    ensures IsBoard(InitialBoard) && NoStuckPawns(InitialBoard)
    ensures At(InitialBoard, 7, c).Piece? && At(InitialBoard, 7, c).kind != Pawn
  {
    InitialSound();
  }

  /** Every rook and bishop ray from white's back rank is blocked at once in the starting position. */
  lemma InitialBackRankRays(c: int)
    requires 0 <= c < 8
    ensures IsBoard(InitialBoard)
    ensures Rays(InitialBoard, true, 7, c, RookDirections) == [] && Rays(InitialBoard, true, 7, c, BishopDirections) == []
  {
    InitialSound();
    InitialRaysEmpty(c, RookDirections);
    InitialRaysEmpty(c, BishopDirections);
  }

  /** Knight and king jumps from white's back rank stay within two rows. */
  lemma InitialBackRankJumps(c: int)
    requires 0 <= c < 8
    ensures IsBoard(InitialBoard)
    ensures forall m <- Jumps(InitialBoard, true, 7, c, KnightOffsets) :: m.endRow >= 5
    ensures forall m <- Jumps(InitialBoard, true, 7, c, KingOffsets) :: m.endRow >= 5
  {
    InitialSound();
    KnightOffsetsDistinct();
    KingOffsetsDistinct();
    BackRankJumpsEnd(c, KnightOffsets);
    BackRankJumpsEnd(c, KingOffsets);
  }

  /** In the starting position the pieces of white's back rank move at most two rows. */
  lemma InitialBackRankEnds(c: int)
    requires 0 <= c < 8
    ensures IsBoard(InitialBoard) && NoStuckPawns(InitialBoard)
    ensures forall m <- SquareMoves(InitialBoard, true, None, 7, c) :: m.endRow >= 5
  {
    InitialBackRankPieces(c);
    InitialBackRankRays(c);
    InitialBackRankJumps(c);
    BlockedBackRankEnds(InitialBoard, c);
  }

  /** In the starting position every white move ends on row 4 or below it. */
  lemma InitialSquareEnds(r: int, c: int)
    requires OnBoard(r, c)
    ensures IsBoard(InitialBoard) && NoStuckPawns(InitialBoard)
    ensures forall m <- SquareMoves(InitialBoard, true, None, r, c) :: m.endRow >= 4
  {
    InitialSound();
    var b := InitialBoard;
    if r == 7 {
      InitialBackRankEnds(c);
    } else if r == 6 {
      assert At(b, 6, c) == Piece(White, Pawn);
    } else {
      assert !HasColor(At(b, r, c), White);
    }
  }

  lemma {:induction false} InitialRowEnds(r: int, n: int)
    requires 0 <= r < 8 && 0 <= n <= 8
    ensures IsBoard(InitialBoard) && NoStuckPawns(InitialBoard)
    ensures forall m <- RowMoves(InitialBoard, true, None, r, n) :: m.endRow >= 4
  {
    InitialSound();
    if n > 0 {
      InitialRowEnds(r, n - 1);
      InitialSquareEnds(r, n - 1);
    }
  }

  lemma {:induction false} InitialRowsEnds(n: int)
    requires 0 <= n <= 8
    ensures IsBoard(InitialBoard) && NoStuckPawns(InitialBoard)
    ensures forall m <- RowsMoves(InitialBoard, true, None, n) :: m.endRow >= 4
  {
    InitialSound();
    if n > 0 {
      InitialRowsEnds(n - 1);
      InitialRowEnds(n - 1, 8);
    }
  }

  /** The starting position has the invariant: it is sound, and no white move reaches the black
      king on (0, 4). */
  lemma InitialInPlay()
    ensures InPlay(InitialBoard, true, None, CastleRights(true, true, true, true), (7, 4), (0, 4))
  {
    InitialSound();
    InitialRowsEnds(8);
    var s := AllPossibleMoves(InitialBoard, true, None);
    assert forall i :: 0 <= i < |s| ==> s[i].endRow >= 4;
  }
}
