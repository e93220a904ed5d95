// Properties of the pseudo-legal move generators of MoveRules: what every
// generated move looks like, and which squares the sliding, jumping and pawn
// generators reach.
module MoveFacts {
  import opened ChessBoard
  import opened ChessMove
  import opened MoveRules
  import opened MakeUndo

  /** What every pseudo-legal move of the side to move satisfies: both squares on the board and
      distinct, the moved piece is the side's own piece on the start square, the promotion flag as
      Move.__init__ sets it, no castle flag, and the captured piece is what stands on the end square,
      except for an en-passant capture, which lands on the en-passant target one row ahead and takes
      the opponent's pawn. No move captures a piece of its own side. A pawn moves two rows only from
      its home row, straight ahead, over an empty square. */
  predicate Generated(b: Board, white: bool, ep: Option<(int, int)>, m: Move)
    requires IsBoard(b)
  {
    && SquaresOnBoard(m)
    && (m.startRow, m.startCol) != (m.endRow, m.endCol)
    && m.pieceMoved == At(b, m.startRow, m.startCol)
    && HasColor(m.pieceMoved, SideColor(white))
    && PromotionFlagged(m)
    && !m.isCastleMove
    && !HasColor(m.pieceCaptured, SideColor(white))
    && (if m.isEnpassantMove then
          && m.pieceMoved.kind == Pawn
          && ep == Some((m.endRow, m.endCol))
          && m.endRow == m.startRow + PawnDir(white)
          && Abs(m.endCol - m.startCol) == 1
          && m.pieceCaptured == EnPassantVictim(m.pieceMoved)
        else m.pieceCaptured == At(b, m.endRow, m.endCol))
    && (IsDoublePawnPush(m) ==>
          && m.startRow == (if white then 6 else 1)
          && m.endRow == m.startRow + 2 * PawnDir(white) && m.endCol == m.startCol
          && At(b, m.startRow + PawnDir(white), m.startCol) == Empty)
  }

  predicate AllGenerated(b: Board, white: bool, ep: Option<(int, int)>, s: seq<Move>)
    requires IsBoard(b)
  {
    forall m <- s :: Generated(b, white, ep, m)
  }

  predicate OwnPiece(b: Board, white: bool, r: int, c: int)
    requires IsBoard(b) && OnBoard(r, c)
  {
    HasColor(At(b, r, c), SideColor(white))
  }

  lemma PawnCaptureGenerated(b: Board, white: bool, ep: Option<(int, int)>, r: int, c: int, ec: int)
    requires IsBoard(b) && OnBoard(r, c) && OnBoard(r + PawnDir(white), c) && Abs(ec - c) == 1
    requires At(b, r, c) == Piece(SideColor(white), Pawn)
    ensures AllGenerated(b, white, ep, PawnCapture(b, white, ep, r, c, r + PawnDir(white), ec))
  {
  }

  lemma PawnMovesGenerated(b: Board, white: bool, ep: Option<(int, int)>, r: int, c: int)
    requires IsBoard(b) && OnBoard(r, c) && OnBoard(r + PawnDir(white), c)
    requires At(b, r, c) == Piece(SideColor(white), Pawn)
    ensures AllGenerated(b, white, ep, PawnMoves(b, white, ep, r, c))
  {
    PawnCaptureGenerated(b, white, ep, r, c, c - 1);
    PawnCaptureGenerated(b, white, ep, r, c, c + 1);
    assert AllGenerated(b, white, ep, PawnAdvance(b, white, r, c));
  }

  lemma {:induction false} RayGenerated(b: Board, white: bool, r: int, c: int, dr: int, dc: int, i: int)
    requires IsBoard(b) && OnBoard(r, c) && 1 <= i <= 8 && OwnPiece(b, white, r, c) && At(b, r, c).kind != Pawn
    ensures AllGenerated(b, white, None, Ray(b, white, r, c, dr, dc, i))
    decreases 8 - i
  {
    if i < 8 {
      RayGenerated(b, white, r, c, dr, dc, i + 1);
    }
  }

  /** A ray stops at the first occupied square: every square it passes before the end of its last
      move is on the board and empty. */
  lemma {:induction false} RayPassesEmpty(b: Board, white: bool, r: int, c: int, dr: int, dc: int, i: int)
    requires IsBoard(b) && OnBoard(r, c) && 1 <= i <= 8
    ensures forall k :: i <= k < i + |Ray(b, white, r, c, dr, dc, i)| - 1 ==>
      OnBoard(RaySq(r, dr, k), RaySq(c, dc, k)) && At(b, RaySq(r, dr, k), RaySq(c, dc, k)) == Empty
    decreases 8 - i
  {
    if i < 8 {
      RayPassesEmpty(b, white, r, c, dr, dc, i + 1);
      var er, ec := RaySq(r, dr, i), RaySq(c, dc, i);
      if OnBoard(er, ec) && At(b, er, ec) == Empty {
        assert |Ray(b, white, r, c, dr, dc, i)| == 1 + |Ray(b, white, r, c, dr, dc, i + 1)|;
      }
    }
  }

  lemma {:induction false} RaysGenerated(b: Board, white: bool, r: int, c: int, dirs: seq<(int, int)>)
    requires IsBoard(b) && OnBoard(r, c) && OwnPiece(b, white, r, c) && At(b, r, c).kind != Pawn
    ensures AllGenerated(b, white, None, Rays(b, white, r, c, dirs))
  {
    if dirs != [] {
      var d := dirs[|dirs| - 1];
      RaysGenerated(b, white, r, c, dirs[..|dirs| - 1]);
      RayGenerated(b, white, r, c, d.0, d.1, 1);
    }
  }

  lemma {:induction false} JumpsGenerated(b: Board, white: bool, r: int, c: int, offs: seq<(int, int)>)
    requires IsBoard(b) && OnBoard(r, c) && OwnPiece(b, white, r, c) && At(b, r, c).kind != Pawn
    ensures AllGenerated(b, white, None, Jumps(b, white, r, c, offs))
  {
    if offs != [] {
      JumpsGenerated(b, white, r, c, offs[..|offs| - 1]);
    }
  }

  /** A move generated without en passant is generated whatever the en-passant target. */
  lemma GeneratedAnyTarget(b: Board, white: bool, ep: Option<(int, int)>, s: seq<Move>)
    requires IsBoard(b) && AllGenerated(b, white, None, s)
    requires forall m <- s :: !m.isEnpassantMove
    ensures AllGenerated(b, white, ep, s)
  {
  }

  lemma {:induction false} RayNotEnPassant(b: Board, white: bool, r: int, c: int, dr: int, dc: int, i: int)
    requires IsBoard(b) && OnBoard(r, c) && 1 <= i <= 8
    ensures forall m <- Ray(b, white, r, c, dr, dc, i) :: !m.isEnpassantMove
    decreases 8 - i
  {
    if i < 8 {
      RayNotEnPassant(b, white, r, c, dr, dc, i + 1);
    }
  }

  lemma {:induction false} RaysNotEnPassant(b: Board, white: bool, r: int, c: int, dirs: seq<(int, int)>)
    requires IsBoard(b) && OnBoard(r, c)
    ensures forall m <- Rays(b, white, r, c, dirs) :: !m.isEnpassantMove
  {
    if dirs != [] {
      var d := dirs[|dirs| - 1];
      RaysNotEnPassant(b, white, r, c, dirs[..|dirs| - 1]);
      RayNotEnPassant(b, white, r, c, d.0, d.1, 1);
    }
  }

  lemma {:induction false} JumpsNotEnPassant(b: Board, white: bool, r: int, c: int, offs: seq<(int, int)>)
    requires IsBoard(b) && OnBoard(r, c)
    ensures forall m <- Jumps(b, white, r, c, offs) :: !m.isEnpassantMove
  {
    if offs != [] {
      JumpsNotEnPassant(b, white, r, c, offs[..|offs| - 1]);
    }
  }

  lemma SquareMovesGenerated(b: Board, white: bool, ep: Option<(int, int)>, r: int, c: int)
    requires IsBoard(b) && NoStuckPawns(b) && OnBoard(r, c)
    ensures AllGenerated(b, white, ep, SquareMoves(b, white, ep, r, c))
  {
    var sq := At(b, r, c);
    if HasColor(sq, SideColor(white)) {
      match sq.kind
      case Pawn => PawnMovesGenerated(b, white, ep, r, c);
      case Rook =>
        RaysGenerated(b, white, r, c, RookDirections);
        RaysNotEnPassant(b, white, r, c, RookDirections);
      case Bishop =>
        RaysGenerated(b, white, r, c, BishopDirections);
        RaysNotEnPassant(b, white, r, c, BishopDirections);
      case Queen =>
        RaysGenerated(b, white, r, c, RookDirections);
        RaysNotEnPassant(b, white, r, c, RookDirections);
        RaysGenerated(b, white, r, c, BishopDirections);
        RaysNotEnPassant(b, white, r, c, BishopDirections);
      case Knight =>
        JumpsGenerated(b, white, r, c, KnightOffsets);
        JumpsNotEnPassant(b, white, r, c, KnightOffsets);
      case King =>
        JumpsGenerated(b, white, r, c, KingOffsets);
        JumpsNotEnPassant(b, white, r, c, KingOffsets);
    }
  }

  lemma {:induction false} RowMovesGenerated(b: Board, white: bool, ep: Option<(int, int)>, r: int, n: int)
    requires IsBoard(b) && NoStuckPawns(b) && 0 <= r < 8 && 0 <= n <= 8
    ensures AllGenerated(b, white, ep, RowMoves(b, white, ep, r, n))
  {
    if n > 0 {
      RowMovesGenerated(b, white, ep, r, n - 1);
      SquareMovesGenerated(b, white, ep, r, n - 1);
    }
  }

  lemma {:induction false} RowsMovesGenerated(b: Board, white: bool, ep: Option<(int, int)>, n: int)
    requires IsBoard(b) && NoStuckPawns(b) && 0 <= n <= 8
    ensures AllGenerated(b, white, ep, RowsMoves(b, white, ep, n))
  {
    if n > 0 {
      RowsMovesGenerated(b, white, ep, n - 1);
      RowMovesGenerated(b, white, ep, n - 1, 8);
    }
  }

  /** Every move of getAllPossibleMoves is a move of the side to move from one of its pieces. */
  lemma AllPossibleMovesGenerated(b: Board, white: bool, ep: Option<(int, int)>)
    requires IsBoard(b) && NoStuckPawns(b)
    ensures AllGenerated(b, white, ep, AllPossibleMoves(b, white, ep))
  {
    RowsMovesGenerated(b, white, ep, 8);
  }
}
