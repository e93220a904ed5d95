// What GameState.makeMove, undoMove and updateCastleRights (ChessEngine.py:35-129)
// do to each part of the state, as functions of the old values; the GameState
// methods are proved to produce exactly these, and the lemmas here relate them.
module MakeUndo {
  import opened ChessBoard
  import opened ChessMove
  import opened MoveRules

  function Abs(x: int): int {
    if x < 0 then -x else x
  }

  /** The letters `input()` is expected to return at ChessEngine.py:48. */
  predicate PromotionKind(k: Kind) {
    k == Queen || k == Rook || k == Bishop || k == Knight
  }

  /** A move makeMove and undoMove can apply without indexing outside the board: squares on the
      board, the promotion flag as Move.__init__ sets it, and a castle that stays on one row with
      the rook squares it touches on the board. */
  predicate Applicable(m: Move) {
    && SquaresOnBoard(m)
    && PromotionFlagged(m)
    && (m.isCastleMove ==>
          m.startRow == m.endRow && m.endCol + 1 < 8 && (m.endCol - m.startCol != 2 ==> m.endCol - 2 >= 0))
  }

  predicate IsKingside(m: Move) {
    m.endCol - m.startCol == 2
  }

  /** The first two writes of makeMove: the start square emptied, the moved piece on the end square. */
  function PieceMoved(b: Board, m: Move): (b': Board)
    requires IsBoard(b) && SquaresOnBoard(m)
    ensures IsBoard(b')
  {
    Set(Set(b, m.startRow, m.startCol, Empty), m.endRow, m.endCol, m.pieceMoved)
  }

  /** A promoting pawn becomes a piece of its colour and of the chosen kind. */
  function Promoted(b: Board, m: Move, promo: Kind): (b': Board)
    requires IsBoard(b) && Applicable(m)
    ensures IsBoard(b')
  {
    if m.isPawnPromotion then Set(b, m.endRow, m.endCol, Piece(m.pieceMoved.color, promo)) else b
  }

  /** An en-passant capture removes the pawn beside the start square, on the end column. */
  function EnPassantCaptured(b: Board, m: Move): (b': Board)
    requires IsBoard(b) && Applicable(m)
    ensures IsBoard(b')
  {
    if m.isEnpassantMove then Set(b, m.startRow, m.endCol, Empty) else b
  }

  /** A castle moves the rook from its corner to the square the king passed over. */
  function RookCastled(b: Board, m: Move): (b': Board)
    requires IsBoard(b) && Applicable(m)
    ensures IsBoard(b')
  {
    if !m.isCastleMove then b
    else if IsKingside(m) then
      Set(Set(b, m.endRow, m.endCol - 1, At(b, m.endRow, m.endCol + 1)), m.endRow, m.endCol + 1, Empty)
    else
      Set(Set(b, m.endRow, m.endCol + 1, At(b, m.endRow, m.endCol - 2)), m.endRow, m.endCol - 2, Empty)
  }

  /** The board after makeMove(m), with `promo` standing for the letter read at line 48. */
  function MadeBoard(b: Board, m: Move, promo: Kind): (b': Board)
    requires IsBoard(b) && Applicable(m)
    ensures IsBoard(b')
  {
    RookCastled(EnPassantCaptured(Promoted(PieceMoved(b, m), m, promo), m), m)
  }

  /** The first two writes of undoMove: the moved piece back on the start square, the captured
      piece back on the end square. */
  function PiecesRestored(b: Board, m: Move): (b': Board)
    requires IsBoard(b) && SquaresOnBoard(m)
    ensures IsBoard(b')
  {
    Set(Set(b, m.startRow, m.startCol, m.pieceMoved), m.endRow, m.endCol, m.pieceCaptured)
  }

  /** Undoing an en-passant capture empties the landing square and puts the captured pawn back
      beside the start square. */
  function EnPassantUncaptured(b: Board, m: Move): (b': Board)
    requires IsBoard(b) && Applicable(m)
    ensures IsBoard(b')
  {
    if m.isEnpassantMove then Set(Set(b, m.endRow, m.endCol, Empty), m.startRow, m.endCol, m.pieceCaptured) else b
  }

  /** Undoing a castle moves the rook back to its corner. */
  function RookUncastled(b: Board, m: Move): (b': Board)
    requires IsBoard(b) && Applicable(m)
    ensures IsBoard(b')
  {
    if !m.isCastleMove then b
    else if IsKingside(m) then
      Set(Set(b, m.endRow, m.endCol + 1, At(b, m.endRow, m.endCol - 1)), m.endRow, m.endCol - 1, Empty)
    else
      Set(Set(b, m.endRow, m.endCol - 2, At(b, m.endRow, m.endCol + 1)), m.endRow, m.endCol + 1, Empty)
  }

  /** The board after undoMove pops m. */
  function UndoneBoard(b: Board, m: Move): (b': Board)
    requires IsBoard(b) && Applicable(m)
    ensures IsBoard(b')
  {
    RookUncastled(EnPassantUncaptured(PiecesRestored(b, m), m), m)
  }

  predicate IsDoublePawnPush(m: Move) {
    m.pieceMoved.Piece? && m.pieceMoved.kind == Pawn && Abs(m.startRow - m.endRow) == 2
  }

  /** enPassantPossible after makeMove(m): the square a pawn skipped over on a two-row advance,
      and no square after any other move. */
  function NextEnPassant(m: Move): (ep: Option<(int, int)>)
    ensures ep.Some? <==> IsDoublePawnPush(m)
    ensures ep.Some? ==> ep.value.1 == m.startCol && Abs(ep.value.0 - m.startRow) == 1 && Abs(ep.value.0 - m.endRow) == 1
  {
    if IsDoublePawnPush(m) then Some(((m.startRow + m.endRow) / 2, m.startCol)) else None
  }

  /** enPassantPossible after undoMove pops m: the landing square when m was an en-passant capture,
      no square when m was a two-row advance, otherwise whatever it was. */
  function UndoneEnPassant(ep: Option<(int, int)>, m: Move): (ep': Option<(int, int)>)
    ensures m.isEnpassantMove && !IsDoublePawnPush(m) ==> ep' == Some((m.endRow, m.endCol))
    ensures IsDoublePawnPush(m) ==> ep' == None
    ensures !m.isEnpassantMove && !IsDoublePawnPush(m) ==> ep' == ep
  {
    var e1 := if m.isEnpassantMove then Some((m.endRow, m.endCol)) else ep;
    if IsDoublePawnPush(m) then None else e1
  }

  /** whiteKingLocation (king == 'wK') or blackKingLocation (king == 'bK') after makeMove(m). */
  function MovedKing(loc: (int, int), king: Square, m: Move): (int, int) {
    if m.pieceMoved == king then (m.endRow, m.endCol) else loc
  }

  /** The same location after undoMove pops m. */
  function RestoredKing(loc: (int, int), king: Square, m: Move): (int, int) {
    if m.pieceMoved == king then (m.startRow, m.startCol) else loc
  }

  /** cr is no stronger than cr0: no flag of cr is set unless it is set in cr0. */
  predicate RightsWithin(cr: CastleRights, cr0: CastleRights) {
    (cr.wks ==> cr0.wks) && (cr.bks ==> cr0.bks) && (cr.wqs ==> cr0.wqs) && (cr.bqs ==> cr0.bqs)
  }

  /** updateCastleRights(m): never sets a right. */
  function UpdatedRights(cr: CastleRights, m: Move): (cr': CastleRights)
    ensures RightsWithin(cr', cr)
  {
    if m.pieceMoved == Piece(White, King) then cr.(wks := false, wqs := false)
    else if m.pieceMoved == Piece(Black, King) then cr.(bks := false, bqs := false)
    else if m.pieceMoved == Piece(White, Rook) then
      if m.startRow == 7 then
        if m.startCol == 0 then cr.(wqs := false)
        else if m.startCol == 7 then cr.(wks := false)
        else cr
      else cr
    else if m.pieceMoved == Piece(Black, Rook) then
      if m.startRow == 0 then
        if m.startCol == 0 then cr.(bqs := false)
        else if m.startCol == 7 then cr.(bks := false)
        else cr
      else cr
    else cr
  }

  /** A king move clears both of its colour's rights and nothing else. */
  lemma KingMoveClearsBoth(cr: CastleRights, m: Move)
    requires m.pieceMoved.Piece? && m.pieceMoved.kind == King
    ensures m.pieceMoved.color == White ==> UpdatedRights(cr, m) == cr.(wks := false, wqs := false)
    ensures m.pieceMoved.color == Black ==> UpdatedRights(cr, m) == cr.(bks := false, bqs := false)
  {
  }

  /** A rook leaving its corner clears exactly the matching right. */
  lemma CornerRookClearsOne(cr: CastleRights, m: Move)
    ensures m.pieceMoved == Piece(White, Rook) && m.startRow == 7 && m.startCol == 0 ==> UpdatedRights(cr, m) == cr.(wqs := false)
    ensures m.pieceMoved == Piece(White, Rook) && m.startRow == 7 && m.startCol == 7 ==> UpdatedRights(cr, m) == cr.(wks := false)
    ensures m.pieceMoved == Piece(Black, Rook) && m.startRow == 0 && m.startCol == 0 ==> UpdatedRights(cr, m) == cr.(bqs := false)
    ensures m.pieceMoved == Piece(Black, Rook) && m.startRow == 0 && m.startCol == 7 ==> UpdatedRights(cr, m) == cr.(bks := false)
  {
  }

  /** Every other move, a capture of a rook on its corner included, leaves the rights alone. */
  lemma OtherMovesKeepRights(cr: CastleRights, m: Move)
    requires !(m.pieceMoved.Piece? && m.pieceMoved.kind == King)
    requires !(m.pieceMoved == Piece(White, Rook) && m.startRow == 7 && (m.startCol == 0 || m.startCol == 7))
    requires !(m.pieceMoved == Piece(Black, Rook) && m.startRow == 0 && (m.startCol == 0 || m.startCol == 7))
    ensures UpdatedRights(cr, m) == cr
  {
  }

  // ---- the make/undo round trip ----

  /** What a move must agree with on the board for undoMove to put it back: the moved piece stands
      on the start square, the captured piece on the end square (for en passant: the end square is
      empty and the captured pawn stands beside the start square), and a castle's rook lands on an
      empty square. */
  predicate Consistent(b: Board, m: Move)
    requires IsBoard(b)
  {
    && Applicable(m)
    && (m.startRow, m.startCol) != (m.endRow, m.endCol)
    && m.pieceMoved == At(b, m.startRow, m.startCol)
    && !(m.isEnpassantMove && m.isCastleMove)
    && (if m.isEnpassantMove then
          m.startRow != m.endRow && m.startCol != m.endCol
          && At(b, m.endRow, m.endCol) == Empty && m.pieceCaptured == At(b, m.startRow, m.endCol)
        else m.pieceCaptured == At(b, m.endRow, m.endCol))
    && (m.isCastleMove ==>
          if IsKingside(m) then At(b, m.endRow, m.endCol - 1) == Empty
          else m.endCol - m.startCol == -2 && At(b, m.endRow, m.endCol + 1) == Empty)
  }

  /** makeMove followed by undoMove restores every square of the board, for plain moves, captures,
      promotions, en-passant captures and castles. */
  lemma MakeUndoRestoresBoard(b: Board, m: Move, promo: Kind)
    requires IsBoard(b) && Consistent(b, m)
    ensures UndoneBoard(MadeBoard(b, m, promo), m) == b
  {
    var b' := UndoneBoard(MadeBoard(b, m, promo), m);
    forall r, c | OnBoard(r, c)
      ensures At(b', r, c) == At(b, r, c)
    {
    }
    BoardExt(b', b);
  }

  /** The king locations come back too, provided the cached location is where the king stood. */
  lemma MakeUndoRestoresKing(loc: (int, int), king: Square, m: Move)
    requires m.pieceMoved == king ==> loc == (m.startRow, m.startCol)
    ensures RestoredKing(MovedKing(loc, king, m), king, m) == loc
  {
  }

  /** Making and undoing m leaves enPassantPossible as the landing square for an en-passant capture
      and empty otherwise, whatever it was before. */
  lemma MakeUndoEnPassant(ep: Option<(int, int)>, m: Move)
    ensures UndoneEnPassant(NextEnPassant(m), m) == if m.isEnpassantMove && !IsDoublePawnPush(m) then Some((m.endRow, m.endCol)) else None
  {
  }

  /** Emptying a square keeps every pawn off its last row. */
  lemma EmptiedNoStuckPawns(b: Board, r: int, c: int)
    requires IsBoard(b) && NoStuckPawns(b) && OnBoard(r, c)
    ensures NoStuckPawns(Set(b, r, c, Empty))
  {
    var b' := Set(b, r, c, Empty);
    forall k | 0 <= k < 8
      ensures At(b', 0, k) != Piece(White, Pawn) && At(b', 7, k) != Piece(Black, Pawn)
    {
    }
  }

  /** Copying a square to another square of the same row keeps every pawn off its last row. */
  lemma CopiedNoStuckPawns(b: Board, r: int, c: int, c0: int)
    requires IsBoard(b) && NoStuckPawns(b) && OnBoard(r, c) && OnBoard(r, c0)
    ensures NoStuckPawns(Set(b, r, c, At(b, r, c0)))
  {
    var b' := Set(b, r, c, At(b, r, c0));
    forall k | 0 <= k < 8
      ensures At(b', 0, k) != Piece(White, Pawn) && At(b', 7, k) != Piece(Black, Pawn)
    {
    }
  }

  /** A pawn moved onto its last row is promoted, so none is left there. */
  lemma PromotedNoStuckPawns(b: Board, m: Move, promo: Kind)
    requires IsBoard(b) && NoStuckPawns(b) && Applicable(m) && PromotionKind(promo)
    ensures NoStuckPawns(Promoted(PieceMoved(b, m), m, promo))
  {
    var b' := Promoted(PieceMoved(b, m), m, promo);
    forall k | 0 <= k < 8
      ensures At(b', 0, k) != Piece(White, Pawn) && At(b', 7, k) != Piece(Black, Pawn)
    {
    }
  }

  /** makeMove never leaves a pawn on its last row, so the pawn generator stays on the board. */
  lemma MadeBoardNoStuckPawns(b: Board, m: Move, promo: Kind)
    requires IsBoard(b) && NoStuckPawns(b) && Applicable(m) && PromotionKind(promo)
    ensures NoStuckPawns(MadeBoard(b, m, promo))
  {
    PromotedNoStuckPawns(b, m, promo);
    var b2 := Promoted(PieceMoved(b, m), m, promo);
    if m.isEnpassantMove {
      EmptiedNoStuckPawns(b2, m.startRow, m.endCol);
    }
    var b3 := EnPassantCaptured(b2, m);
    if m.isCastleMove {
      var r := m.endRow;
      if IsKingside(m) {
        CopiedNoStuckPawns(b3, r, m.endCol - 1, m.endCol + 1);
        EmptiedNoStuckPawns(Set(b3, r, m.endCol - 1, At(b3, r, m.endCol + 1)), r, m.endCol + 1);
      } else {
        CopiedNoStuckPawns(b3, r, m.endCol + 1, m.endCol - 2);
        EmptiedNoStuckPawns(Set(b3, r, m.endCol + 1, At(b3, r, m.endCol - 2)), r, m.endCol - 2);
      }
    }
  }

  // ---- the rights left by the legality filter ----

  /** The rights after getValidMoves' loop has made (and undone) s[|s|-1], ..., s[0] in that order:
      undoMove does not give the rights back. */
  function RightsAfterSimulating(cr: CastleRights, s: seq<Move>): (cr': CastleRights)
    ensures RightsWithin(cr', cr)
  {
    if s == [] then cr else UpdatedRights(RightsAfterSimulating(cr, s[1..]), s[0])
  }

  /** Once a king of colour col has been moved in the simulation, neither of its rights survives. */
  lemma {:induction false} SimulatedKingMoveClears(cr: CastleRights, s: seq<Move>, k: int)
    requires 0 <= k < |s| && s[k].pieceMoved.Piece? && s[k].pieceMoved.kind == King
    ensures s[k].pieceMoved.color == White ==> !RightsAfterSimulating(cr, s).wks && !RightsAfterSimulating(cr, s).wqs
    ensures s[k].pieceMoved.color == Black ==> !RightsAfterSimulating(cr, s).bks && !RightsAfterSimulating(cr, s).bqs
  {
    if k > 0 {
      SimulatedKingMoveClears(cr, s[1..], k - 1);
    }
  }
}
