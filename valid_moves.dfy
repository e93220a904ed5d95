// What GameState.getValidMoves (ChessEngine.py:134-158) returns, as a function
// of the position it starts from: the candidates that survive the legality
// filter, then the castles getCastleMoves adds. The castle step runs while
// the filter's side effects are still in place (the rights it cleared and
// the en-passant target it left), and the rights are given back only after
// it; as a consequence castling is never offered. CorrectedValidMoves is the
// evidently intended version, which gives both back first.
module ValidMoveList {
  import opened ChessBoard
  import opened ChessMove
  import opened MoveRules
  import opened MakeUndo
  import opened MoveFacts
  import opened MoveDistinct
  import opened Legality

  /** The cached square of the king of the side to move. */
  function KingOf(white: bool, wk: (int, int), bk: (int, int)): (int, int) {
    if white then wk else bk
  }

  /** enPassantPossible once the filter loop is over. */
  function FilterEnPassant(b: Board, white: bool, ep: Option<(int, int)>): Option<(int, int)>
    requires IsBoard(b) && NoStuckPawns(b)
  {
    EnPassantAfterFilter(ep, AllPossibleMoves(b, white, ep))
  }

  /** currentCastlingRight once the filter loop is over. */
  function FilterRights(b: Board, white: bool, ep: Option<(int, int)>, cr: CastleRights): CastleRights
    requires IsBoard(b) && NoStuckPawns(b)
  {
    RightsAfterSimulating(cr, AllPossibleMoves(b, white, ep))
  }

  /** getValidMoves as written: the castle moves are generated with the rights and the en-passant
      target the filter left behind. */
  function ValidMoves(b: Board, white: bool, ep: Option<(int, int)>, cr: CastleRights,
                      wk: (int, int), bk: (int, int), promo: Kind): seq<Move>
    requires SoundPosition(b, white, ep, cr, wk, bk) && PromotionKind(promo)
  {
    var king := KingOf(white, wk, bk);
    LegalMoves(b, white, ep, wk, bk, promo)
      + CastleMoves(b, white, FilterEnPassant(b, white, ep), FilterRights(b, white, ep, cr), king.0, king.1)
  }

  /** getValidMoves with enPassantPossible and currentCastlingRight given back before the castle
      step, as the saved copies tempEnpassantPossible and tempCastleRights evidently intend. */
  function CorrectedValidMoves(b: Board, white: bool, ep: Option<(int, int)>, cr: CastleRights,
                               wk: (int, int), bk: (int, int), promo: Kind): seq<Move>
    requires SoundPosition(b, white, ep, cr, wk, bk) && PromotionKind(promo)
  {
    var king := KingOf(white, wk, bk);
    LegalMoves(b, white, ep, wk, bk, promo) + CastleMoves(b, white, ep, cr, king.0, king.1)
  }

  /** What getValidMoves' loop and castle step rely on in a sound position: the candidates have
      distinct moveIDs and can each be simulated without trace, the castle step looks at squares on
      the board, and the en-passant target the loop leaves keeps the position sound. */
  lemma FilterFacts(b: Board, white: bool, ep: Option<(int, int)>, cr: CastleRights,
                    wk: (int, int), bk: (int, int), promo: Kind)
    requires SoundPosition(b, white, ep, cr, wk, bk) && PromotionKind(promo)
    ensures DistinctIDs(AllPossibleMoves(b, white, ep))
    ensures forall m <- AllPossibleMoves(b, white, ep) :: Restorable(b, wk, bk, m, promo)
    ensures CastleSquaresOk(FilterRights(b, white, ep, cr), white, KingOf(white, wk, bk).0, KingOf(white, wk, bk).1)
    ensures SoundPosition(b, white, FilterEnPassant(b, white, ep), cr, wk, bk)
  {
    AllPossibleMovesDistinct(b, white, ep);
    CandidatesRestorable(b, white, ep, cr, wk, bk, promo);
    AllPossibleMovesGenerated(b, white, ep);
    EnPassantAfterFilterSound(b, white, ep, AllPossibleMoves(b, white, ep));
  }

  // ---- where a king step sits in the candidate list ----

  lemma {:induction false} JumpsHas(b: Board, white: bool, r: int, c: int, offs: seq<(int, int)>, k: int)
    requires IsBoard(b) && OnBoard(r, c) && 0 <= k < |offs|
    ensures forall m <- Jump(b, white, r, c, offs[k]) :: m in Jumps(b, white, r, c, offs)
  {
    if k < |offs| - 1 {
      assert offs[..|offs| - 1][k] == offs[k];
      JumpsHas(b, white, r, c, offs[..|offs| - 1], k);
    }
  }

  lemma {:induction false} RowMovesGrow(b: Board, white: bool, ep: Option<(int, int)>, r: int, k: int, n: int)
    requires IsBoard(b) && NoStuckPawns(b) && 0 <= r < 8 && 0 <= k <= n <= 8
    ensures forall m <- RowMoves(b, white, ep, r, k) :: m in RowMoves(b, white, ep, r, n)
  {
    if k < n {
      RowMovesGrow(b, white, ep, r, k, n - 1);
    }
  }

  lemma {:induction false} RowsMovesGrow(b: Board, white: bool, ep: Option<(int, int)>, k: int, n: int)
    requires IsBoard(b) && NoStuckPawns(b) && 0 <= k <= n <= 8
    ensures forall m <- RowsMoves(b, white, ep, k) :: m in RowsMoves(b, white, ep, n)
  {
    if k < n {
      RowsMovesGrow(b, white, ep, k, n - 1);
    }
  }

  /** A king of the side to move with an empty square beside it has the step onto that square among
      the candidates, so the filter makes that step and clears both of its colour's rights. */
  lemma KingStepClearsRights(b: Board, white: bool, ep: Option<(int, int)>, cr: CastleRights, r: int, c: int, dc: int)
    requires IsBoard(b) && NoStuckPawns(b) && OnBoard(r, c) && OnBoard(r, c + dc) && (dc == 1 || dc == -1)
    requires At(b, r, c) == Piece(SideColor(white), King) && At(b, r, c + dc) == Empty
    ensures !KingsideRight(FilterRights(b, white, ep, cr), white)
    ensures !QueensideRight(FilterRights(b, white, ep, cr), white)
  {
    var m := NewMove(r, c, r, c + dc, b);
    var k := if dc == -1 then 3 else 4;
    assert KingOffsets[k] == (0, dc);
    assert Jump(b, white, r, c, KingOffsets[k]) == [m];
    JumpsHas(b, white, r, c, KingOffsets, k);
    assert m in SquareMoves(b, white, ep, r, c);
    assert m in RowMoves(b, white, ep, r, c + 1);
    RowMovesGrow(b, white, ep, r, c + 1, 8);
    assert m in RowsMoves(b, white, ep, r + 1);
    RowsMovesGrow(b, white, ep, r + 1, 8);
    var cand := AllPossibleMoves(b, white, ep);
    assert m in cand;
    var i :| 0 <= i < |cand| && cand[i] == m;
    SimulatedKingMoveClears(cr, cand, i);
  }

  // ---- the finding ----

  /** As written, getValidMoves never returns a castle: whichever right survives the filter belongs
      to a side whose castling square next to the king is occupied. */
  lemma CastlingNeverOffered(b: Board, white: bool, ep: Option<(int, int)>, cr: CastleRights,
                             wk: (int, int), bk: (int, int), promo: Kind)
    requires SoundPosition(b, white, ep, cr, wk, bk) && PromotionKind(promo)
    ensures ValidMoves(b, white, ep, cr, wk, bk, promo) == LegalMoves(b, white, ep, wk, bk, promo)
    ensures forall m <- ValidMoves(b, white, ep, cr, wk, bk, promo) :: !m.isCastleMove
  {
    var (r, c) := KingOf(white, wk, bk);
    var ep', cr' := FilterEnPassant(b, white, ep), FilterRights(b, white, ep, cr);
    assert At(b, r, c) == Piece(SideColor(white), King);
    if KingsideRight(cr', white) {
      if At(b, r, c + 1) == Empty {
        KingStepClearsRights(b, white, ep, cr, r, c, 1);
      }
    }
    if QueensideRight(cr', white) {
      if At(b, r, c - 1) == Empty {
        KingStepClearsRights(b, white, ep, cr, r, c, -1);
      }
    }
    assert CastleMoves(b, white, ep', cr', r, c) == [];
    AllPossibleMovesGenerated(b, white, ep);
    forall m <- ValidMoves(b, white, ep, cr, wk, bk, promo)
      ensures !m.isCastleMove
    {
      LegalMovesExactly(b, white, ep, wk, bk, promo, m);
    }
  }

  /** With the rights given back first, a kingside castle is offered whenever the right is held,
      the two squares beside the king are empty, and neither they nor the king's square is attacked. */
  lemma CorrectedOffersKingside(b: Board, white: bool, ep: Option<(int, int)>, cr: CastleRights,
                                wk: (int, int), bk: (int, int), promo: Kind)
    requires SoundPosition(b, white, ep, cr, wk, bk) && PromotionKind(promo) && KingsideRight(cr, white)
    requires var (r, c) := KingOf(white, wk, bk);
      && At(b, r, 5) == Empty && At(b, r, 6) == Empty
      && !UnderAttack(b, white, ep, r, 4) && !UnderAttack(b, white, ep, r, 5) && !UnderAttack(b, white, ep, r, 6)
    ensures var (r, c) := KingOf(white, wk, bk);
      NewMove(r, 4, r, 6, b, isCastleMove := true) in CorrectedValidMoves(b, white, ep, cr, wk, bk, promo)
  {
  }

  /** With the rights given back first, a queenside castle is offered whenever the right is held,
      the three squares between king and rook are empty, and neither the king's square nor the two
      squares it crosses is attacked. */
  lemma CorrectedOffersQueenside(b: Board, white: bool, ep: Option<(int, int)>, cr: CastleRights,
                                 wk: (int, int), bk: (int, int), promo: Kind)
    requires SoundPosition(b, white, ep, cr, wk, bk) && PromotionKind(promo) && QueensideRight(cr, white)
    requires var (r, c) := KingOf(white, wk, bk);
      && At(b, r, 3) == Empty && At(b, r, 2) == Empty && At(b, r, 1) == Empty
      && !UnderAttack(b, white, ep, r, 4) && !UnderAttack(b, white, ep, r, 3) && !UnderAttack(b, white, ep, r, 2)
    ensures var (r, c) := KingOf(white, wk, bk);
      NewMove(r, 4, r, 2, b, isCastleMove := true) in CorrectedValidMoves(b, white, ep, cr, wk, bk, promo)
  {
  }

  /** Every castle getCastleMoves adds starts from the unattacked king square and lands two columns
      away on the king's row. A kingside castle needs its right, the two squares to the right empty
      and neither attacked; a queenside castle needs its right, the three squares to the left empty
      and the two the king crosses not attacked. */
  lemma CastleMovesSound(b: Board, white: bool, ep: Option<(int, int)>, cr: CastleRights, r: int, c: int, m: Move)
    requires IsBoard(b) && NoStuckPawns(b) && CastleSquaresOk(cr, white, r, c)
    requires m in CastleMoves(b, white, ep, cr, r, c)
    ensures (m.startRow, m.startCol) == (r, c) && m.endRow == r && m.isCastleMove
    ensures !UnderAttack(b, white, ep, r, c)
    ensures m.endCol == c + 2 || m.endCol == c - 2
    ensures m.endCol == c + 2 ==>
      && KingsideRight(cr, white) && At(b, r, c + 1) == Empty && At(b, r, c + 2) == Empty
      && !UnderAttack(b, white, ep, r, c + 1) && !UnderAttack(b, white, ep, r, c + 2)
    ensures m.endCol == c - 2 ==>
      && QueensideRight(cr, white) && At(b, r, c - 1) == Empty && At(b, r, c - 2) == Empty && At(b, r, c - 3) == Empty
      && !UnderAttack(b, white, ep, r, c - 1) && !UnderAttack(b, white, ep, r, c - 2)
  {
    var ks := if KingsideRight(cr, white) then KingsideCastle(b, white, ep, r, c) else [];
    if m in ks {
      assert m == NewMove(r, c, r, c + 2, b, isCastleMove := true);
    } else {
      assert m == NewMove(r, c, r, c - 2, b, isCastleMove := true);
    }
  }

  /** The castles among the corrected version's moves are exactly getCastleMoves' with the rights
      and the en-passant target held on entry. */
  lemma CorrectedCastles(b: Board, white: bool, ep: Option<(int, int)>, cr: CastleRights,
                         wk: (int, int), bk: (int, int), promo: Kind, m: Move)
    requires SoundPosition(b, white, ep, cr, wk, bk) && PromotionKind(promo)
    ensures var (r, c) := KingOf(white, wk, bk);
      m in CorrectedValidMoves(b, white, ep, cr, wk, bk, promo) && m.isCastleMove
      <==> m in CastleMoves(b, white, ep, cr, r, c)
  {
    var (r, c) := KingOf(white, wk, bk);
    if m in CastleMoves(b, white, ep, cr, r, c) {
      CastleMovesSound(b, white, ep, cr, r, c, m);
    }
    LegalMovesExactly(b, white, ep, wk, bk, promo, m);
    AllPossibleMovesGenerated(b, white, ep);
  }
}
