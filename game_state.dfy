// GameState of ChessEngine.py: the board, the side to move, the move log, the
// cached king squares, the en-passant target and the castling rights, with the
// methods that change them in place and the loops that generate moves. Each
// method is proved against the functions of MoveRules, MakeUndo and Legality.
module ChessEngine {
  import opened ChessBoard
  import opened ChessMove
  import opened MoveRules
  import opened MakeUndo
  import opened MoveFacts
  import opened MoveDistinct
  import opened Legality
  import opened ValidMoveList
  import opened Play

  class GameState {
    var board: Board
    var whiteToMove: bool
    var moveLog: seq<Move>
    var whiteKingLocation: (int, int)
    var blackKingLocation: (int, int)
    var checkmate: bool
    var stalemate: bool
    var enPassantPossible: Option<(int, int)>
    var currentCastlingRight: CastleRights
    var castleRightsLog: seq<CastleRights>

    /** The board is 8x8 and every logged move can be undone. */
    predicate Valid()
      reads this
    {
      IsBoard(board) && AllApplicable(moveLog)
    }

    /** Valid, and the position invariant getValidMoves relies on. */
    ghost predicate Sound()
      reads this
    {
      Valid()
      && SoundPosition(board, whiteToMove, enPassantPossible, currentCastlingRight, whiteKingLocation, blackKingLocation)
    }

    /** Sound, and no move of the side to move reaches the other king: what a game played with the
        moves of getValidMoves keeps (Play.InPlay). */
    ghost predicate InPlay()
      reads this
    {
      Valid()
      && Play.InPlay(board, whiteToMove, enPassantPossible, currentCastlingRight, whiteKingLocation, blackKingLocation)
    }

    /** The cached square of the king of the side to move. */
    function KingLocation(): (int, int)
      reads this
    {
      if whiteToMove then whiteKingLocation else blackKingLocation
    }

    constructor ()
      ensures board == InitialBoard && whiteToMove && moveLog == []
      ensures whiteKingLocation == (7, 4) && blackKingLocation == (0, 4)
      ensures !checkmate && !stalemate && enPassantPossible == None
      ensures currentCastlingRight == CastleRights(true, true, true, true)
      ensures castleRightsLog == [CastleRights(true, true, true, true)]
      ensures Sound() && InPlay()
    {
      board := InitialBoard;
      whiteToMove := true;
      moveLog := [];
      whiteKingLocation := (7, 4);
      blackKingLocation := (0, 4);
      checkmate := false;
      stalemate := false;
      enPassantPossible := None;
      currentCastlingRight := CastleRights(true, true, true, true);
      castleRightsLog := [CastleRights(true, true, true, true)];
      InitialInPlay();
    }

    /** makeMove(move), with `promotion` standing for the letter typed at the prompt. A move of
        getValidMoves keeps the game in play (Play.LegalMoveKeepsPlay). */
    method MakeMove(move: Move, promotion: Kind)
      requires Valid() && Applicable(move) && PromotionKind(promotion)
      modifies this
      ensures Valid()
      ensures board == MadeBoard(old(board), move, promotion)
      ensures moveLog == old(moveLog) + [move]
      ensures whiteToMove == !old(whiteToMove)
      ensures whiteKingLocation == MovedKing(old(whiteKingLocation), Piece(White, King), move)
      ensures blackKingLocation == MovedKing(old(blackKingLocation), Piece(Black, King), move)
      ensures enPassantPossible == NextEnPassant(move)
      ensures currentCastlingRight == UpdatedRights(old(currentCastlingRight), move)
      ensures castleRightsLog == [currentCastlingRight]
      ensures checkmate == old(checkmate) && stalemate == old(stalemate)
      ensures old(InPlay()) && move in LegalMoves(old(board), old(whiteToMove), old(enPassantPossible),
                                                  old(whiteKingLocation), old(blackKingLocation), promotion)
        ==> InPlay()
    {
      ghost var b, w, ep, cr, wk, bk := board, whiteToMove, enPassantPossible, currentCastlingRight, whiteKingLocation, blackKingLocation;
      if InPlay() && move in LegalMoves(b, w, ep, wk, bk, promotion) {
        LegalMoveKeepsPlay(b, w, ep, cr, wk, bk, move, promotion);
      }
      MakeMoveSteps(move, promotion);
    }

    /** makeMove's writes, in the order the source makes them. */
    method MakeMoveSteps(move: Move, promotion: Kind)
      requires Valid() && Applicable(move) && PromotionKind(promotion)
      modifies this
      ensures Valid()
      ensures board == MadeBoard(old(board), move, promotion)
      ensures moveLog == old(moveLog) + [move]
      ensures whiteToMove == !old(whiteToMove)
      ensures whiteKingLocation == MovedKing(old(whiteKingLocation), Piece(White, King), move)
      ensures blackKingLocation == MovedKing(old(blackKingLocation), Piece(Black, King), move)
      ensures enPassantPossible == NextEnPassant(move)
      ensures currentCastlingRight == UpdatedRights(old(currentCastlingRight), move)
      ensures castleRightsLog == [currentCastlingRight]
      ensures checkmate == old(checkmate) && stalemate == old(stalemate)
    {
      MovePiece(move);
      moveLog := moveLog + [move];
      whiteToMove := !whiteToMove;
      MoveKingLocation(move);
      PromotePawn(move, promotion);
      CaptureEnPassant(move);
      SetEnPassantTarget(move);
      MoveCastleRook(move);
      UpdateCastleRights(move);
      castleRightsLog := [currentCastlingRight];
    }

    /** makeMove's first two writes: the start square is emptied and the piece lands on the end square. */
    method MovePiece(move: Move)
      requires IsBoard(board) && SquaresOnBoard(move)
      modifies this`board
      ensures board == PieceMoved(old(board), move)
    {
      board := Set(board, move.startRow, move.startCol, Empty);
      board := Set(board, move.endRow, move.endCol, move.pieceMoved);
    }

    /** makeMove's "Update king's position" step. */
    method MoveKingLocation(move: Move)
      modifies this`whiteKingLocation, this`blackKingLocation
      ensures whiteKingLocation == MovedKing(old(whiteKingLocation), Piece(White, King), move)
      ensures blackKingLocation == MovedKing(old(blackKingLocation), Piece(Black, King), move)
    {
      if move.pieceMoved == Piece(White, King) {
        whiteKingLocation := (move.endRow, move.endCol);
      } else if move.pieceMoved == Piece(Black, King) {
        blackKingLocation := (move.endRow, move.endCol);
      }
    }

    /** makeMove's "Pawn promotion" step. */
    method PromotePawn(move: Move, promotion: Kind)
      requires IsBoard(board) && Applicable(move)
      modifies this`board
      ensures board == Promoted(old(board), move, promotion)
    {
      if move.isPawnPromotion {
        board := Set(board, move.endRow, move.endCol, Piece(move.pieceMoved.color, promotion));
      }
    }

    /** makeMove's "Enpassant move" step: the captured pawn leaves the board. */
    method CaptureEnPassant(move: Move)
      requires IsBoard(board) && Applicable(move)
      modifies this`board
      ensures board == EnPassantCaptured(old(board), move)
    {
      if move.isEnpassantMove {
        board := Set(board, move.startRow, move.endCol, Empty);
      }
    }

    /** makeMove's "Update enPassantPossible variable" step. */
    method SetEnPassantTarget(move: Move)
      modifies this`enPassantPossible
      ensures enPassantPossible == NextEnPassant(move)
    {
      if move.pieceMoved.Piece? && move.pieceMoved.kind == Pawn && Abs(move.startRow - move.endRow) == 2 {
        enPassantPossible := Some(((move.startRow + move.endRow) / 2, move.startCol));
      } else {
        enPassantPossible := None;
      }
    }

    /** makeMove's "Castle move" step: the rook jumps over the king. */
    method MoveCastleRook(move: Move)
      requires IsBoard(board) && Applicable(move)
      modifies this`board
      ensures board == RookCastled(old(board), move)
    {
      if move.isCastleMove {
        if move.endCol - move.startCol == 2 {
          board := Set(board, move.endRow, move.endCol - 1, At(board, move.endRow, move.endCol + 1));
          board := Set(board, move.endRow, move.endCol + 1, Empty);
        } else {
          board := Set(board, move.endRow, move.endCol + 1, At(board, move.endRow, move.endCol - 2));
          board := Set(board, move.endRow, move.endCol - 2, Empty);
        }
      }
    }

    /** undoMove: pops the last move and puts its pieces back; an empty log changes nothing. The
        castling rights are not given back. */
    method UndoMove()
      requires Valid()
      modifies this
      ensures Valid()
      ensures old(moveLog) == [] ==>
        board == old(board) && moveLog == [] && whiteToMove == old(whiteToMove)
        && whiteKingLocation == old(whiteKingLocation) && blackKingLocation == old(blackKingLocation)
        && enPassantPossible == old(enPassantPossible)
      ensures old(moveLog) != [] ==>
        var m := old(moveLog)[|old(moveLog)| - 1];
        && moveLog == old(moveLog)[..|old(moveLog)| - 1]
        && board == UndoneBoard(old(board), m)
        && whiteToMove == !old(whiteToMove)
        && whiteKingLocation == RestoredKing(old(whiteKingLocation), Piece(White, King), m)
        && blackKingLocation == RestoredKing(old(blackKingLocation), Piece(Black, King), m)
        && enPassantPossible == UndoneEnPassant(old(enPassantPossible), m)
      ensures currentCastlingRight == old(currentCastlingRight) && castleRightsLog == old(castleRightsLog)
      ensures checkmate == old(checkmate) && stalemate == old(stalemate)
    {
      if |moveLog| != 0 {
        var move := moveLog[|moveLog| - 1];
        moveLog := moveLog[..|moveLog| - 1];
        RestorePieces(move);
        whiteToMove := !whiteToMove;
        RestoreKingLocation(move);
        UncaptureEnPassant(move);
        if move.pieceMoved.Piece? && move.pieceMoved.kind == Pawn && Abs(move.startRow - move.endRow) == 2 {
          enPassantPossible := None;
        }
        ReturnCastleRook(move);
      }
    }

    /** makeMove(move) then undoMove(): every square, the side to move, the king squares and the log
        come back. The rights stay as makeMove left them, and the en-passant target ends as the
        landing square of an en-passant capture and empty after any other move. */
    method MakeThenUndo(move: Move, promotion: Kind)
      requires Valid() && Consistent(board, move) && PromotionKind(promotion)
      requires move.pieceMoved == Piece(White, King) ==> whiteKingLocation == (move.startRow, move.startCol)
      requires move.pieceMoved == Piece(Black, King) ==> blackKingLocation == (move.startRow, move.startCol)
      modifies this
      ensures board == old(board) && whiteToMove == old(whiteToMove) && moveLog == old(moveLog)
      ensures whiteKingLocation == old(whiteKingLocation) && blackKingLocation == old(blackKingLocation)
      ensures enPassantPossible == if move.isEnpassantMove && !IsDoublePawnPush(move) then Some((move.endRow, move.endCol)) else None
      ensures currentCastlingRight == UpdatedRights(old(currentCastlingRight), move)
      ensures old(InPlay()) && move in AllPossibleMoves(old(board), old(whiteToMove), old(enPassantPossible)) ==> InPlay()
    {
      if InPlay() && move in AllPossibleMoves(board, whiteToMove, enPassantPossible) {
        SimulationKeepsPlay(board, whiteToMove, enPassantPossible, currentCastlingRight,
                            whiteKingLocation, blackKingLocation, move);
      }
      MakeUndoRestoresBoard(board, move, promotion);
      MakeUndoRestoresKing(whiteKingLocation, Piece(White, King), move);
      MakeUndoRestoresKing(blackKingLocation, Piece(Black, King), move);
      MakeUndoEnPassant(enPassantPossible, move);
      MakeMove(move, promotion);
      assert moveLog[..|moveLog| - 1] == old(moveLog);
      UndoMove();
    }

    /** undoMove's first two writes: the moved piece goes back to the start square and the captured
        piece (or the empty square) back to the end square. */
    method RestorePieces(move: Move)
      requires IsBoard(board) && SquaresOnBoard(move)
      modifies this`board
      ensures board == PiecesRestored(old(board), move)
    {
      board := Set(board, move.startRow, move.startCol, move.pieceMoved);
      board := Set(board, move.endRow, move.endCol, move.pieceCaptured);
    }

    /** undoMove's "Update king's position if needed" step. */
    method RestoreKingLocation(move: Move)
      modifies this`whiteKingLocation, this`blackKingLocation
      ensures whiteKingLocation == RestoredKing(old(whiteKingLocation), Piece(White, King), move)
      ensures blackKingLocation == RestoredKing(old(blackKingLocation), Piece(Black, King), move)
    {
      if move.pieceMoved == Piece(White, King) {
        whiteKingLocation := (move.startRow, move.startCol);
      } else if move.pieceMoved == Piece(Black, King) {
        blackKingLocation := (move.startRow, move.startCol);
      }
    }

    /** undoMove's "Undo en passant" step: the landing square is emptied, the pawn comes back and
        the landing square becomes the en-passant target again. */
    method UncaptureEnPassant(move: Move)
      requires IsBoard(board) && Applicable(move)
      modifies this`board, this`enPassantPossible
      ensures board == EnPassantUncaptured(old(board), move)
      ensures enPassantPossible == if move.isEnpassantMove then Some((move.endRow, move.endCol)) else old(enPassantPossible)
    {
      if move.isEnpassantMove {
        board := Set(board, move.endRow, move.endCol, Empty);
        board := Set(board, move.startRow, move.endCol, move.pieceCaptured);
        enPassantPossible := Some((move.endRow, move.endCol));
      }
    }

    /** undoMove's "Undo castle move" step: the rook goes back to its corner. */
    method ReturnCastleRook(move: Move)
      requires IsBoard(board) && Applicable(move)
      modifies this`board
      ensures board == RookUncastled(old(board), move)
    {
      if move.isCastleMove {
        if move.endCol - move.startCol == 2 {
          board := Set(board, move.endRow, move.endCol + 1, At(board, move.endRow, move.endCol - 1));
          board := Set(board, move.endRow, move.endCol - 1, Empty);
        } else {
          board := Set(board, move.endRow, move.endCol - 2, At(board, move.endRow, move.endCol + 1));
          board := Set(board, move.endRow, move.endCol + 1, Empty);
        }
      }
    }

    /** updateCastleRights(move): clears the flags the move forfeits, field by field. */
    method UpdateCastleRights(move: Move)
      modifies this`currentCastlingRight
      ensures currentCastlingRight == UpdatedRights(old(currentCastlingRight), move)
    {
      if move.pieceMoved == Piece(White, King) {
        currentCastlingRight := currentCastlingRight.(wks := false);
        currentCastlingRight := currentCastlingRight.(wqs := false);
      } else if move.pieceMoved == Piece(Black, King) {
        currentCastlingRight := currentCastlingRight.(bks := false);
        currentCastlingRight := currentCastlingRight.(bqs := false);
      } else if move.pieceMoved == Piece(White, Rook) {
        if move.startRow == 7 {
          if move.startCol == 0 {
            currentCastlingRight := currentCastlingRight.(wqs := false);
          } else if move.startCol == 7 {
            currentCastlingRight := currentCastlingRight.(wks := false);
          }
        }
      } else if move.pieceMoved == Piece(Black, Rook) {
        if move.startRow == 0 {
          if move.startCol == 0 {
            currentCastlingRight := currentCastlingRight.(bqs := false);
          } else if move.startCol == 7 {
            currentCastlingRight := currentCastlingRight.(bks := false);
          }
        }
      }
    }

    // ---- pseudo-legal move generation ----

    /** getAllPossibleMoves: every square row by row, dispatching on the kind of each piece of the
        side to move. */
    method GetAllPossibleMoves() returns (moves: seq<Move>)
      requires IsBoard(board) && NoStuckPawns(board)
      ensures moves == AllPossibleMoves(board, whiteToMove, enPassantPossible)
    {
      ghost var b, w, ep := board, whiteToMove, enPassantPossible;
      moves := [];
      var r := 0;
      while r < |board|
        invariant 0 <= r <= 8
        invariant moves == RowsMoves(b, w, ep, r)
      {
        var c := 0;
        while c < |board[r]|
          invariant 0 <= c <= 8
          invariant moves == RowsMoves(b, w, ep, r) + RowMoves(b, w, ep, r, c)
        {
          moves := GetSquareMoves(r, c, moves);
          AppendAssoc(RowsMoves(b, w, ep, r), RowMoves(b, w, ep, r, c), SquareMoves(b, w, ep, r, c));
          c := c + 1;
        }
        r := r + 1;
      }
    }

    /** The body of getAllPossibleMoves' inner loop: the moves of the piece on (r, c) when it
        belongs to the side to move, by the function table `moveFunctions`. */
    method GetSquareMoves(r: int, c: int, moves: seq<Move>) returns (res: seq<Move>)
      requires IsBoard(board) && NoStuckPawns(board) && OnBoard(r, c)
      ensures res == moves + SquareMoves(board, whiteToMove, enPassantPossible, r, c)
    {
      res := moves;
      var square := board[r][c];
      if (HasColor(square, White) && whiteToMove) || (HasColor(square, Black) && !whiteToMove) {
        match square.kind
        case Pawn =>
          assert At(board, r, c) == square;
          assert OnBoard(r + PawnDir(whiteToMove), c);
          res := GetPawnMoves(r, c, moves);
        case Rook => res := GetRookMoves(r, c, moves);
        case Knight => res := GetKnightMoves(r, c, moves);
        case Bishop => res := GetBishopMoves(r, c, moves);
        case Queen => res := GetQueenMoves(r, c, moves);
        case King => res := GetKingMoves(r, c, moves);
      }
    }

    /** getPawnMoves(r, c, moves): appends the pawn's pushes and captures. */
    method GetPawnMoves(r: int, c: int, moves: seq<Move>) returns (res: seq<Move>)
      requires IsBoard(board) && OnBoard(r, c) && OnBoard(r + PawnDir(whiteToMove), c)
      ensures res == moves + PawnMoves(board, whiteToMove, enPassantPossible, r, c)
    {
      ghost var b, w, ep := board, whiteToMove, enPassantPossible;
      res := moves;
      if whiteToMove {
        if board[r - 1][c] == Empty {
          res := res + [NewMove(r, c, r - 1, c, board)];
          if r == 6 && board[r - 2][c] == Empty {
            res := res + [NewMove(r, c, r - 2, c, board)];
          }
        }
        assert res == moves + PawnAdvance(b, w, r, c);
        res := AppendPawnCapture(r, c, r - 1, c - 1, res);
        res := AppendPawnCapture(r, c, r - 1, c + 1, res);
      } else {
        if board[r + 1][c] == Empty {
          res := res + [NewMove(r, c, r + 1, c, board)];
          if r == 1 && board[r + 2][c] == Empty {
            res := res + [NewMove(r, c, r + 2, c, board)];
          }
        }
        assert res == moves + PawnAdvance(b, w, r, c);
        res := AppendPawnCapture(r, c, r + 1, c - 1, res);
        res := AppendPawnCapture(r, c, r + 1, c + 1, res);
      }
      ghost var d := PawnDir(w);
      AppendAssoc(moves, PawnAdvance(b, w, r, c), PawnCapture(b, w, ep, r, c, r + d, c - 1));
      AppendAssoc(moves, PawnAdvance(b, w, r, c) + PawnCapture(b, w, ep, r, c, r + d, c - 1), PawnCapture(b, w, ep, r, c, r + d, c + 1));
    }

    /** One diagonal of getPawnMoves, written out four times in the source: when the column is on
        the board, a capture of an enemy piece, or else an en-passant capture onto the target. */
    method AppendPawnCapture(r: int, c: int, endRow: int, endCol: int, moves: seq<Move>) returns (res: seq<Move>)
      requires IsBoard(board) && OnBoard(r, c) && 0 <= endRow < 8
      ensures res == moves + PawnCapture(board, whiteToMove, enPassantPossible, r, c, endRow, endCol)
    {
      var enemyColor := if whiteToMove then Black else White;
      res := moves;
      if 0 <= endCol <= 7 {
        if HasColor(board[endRow][endCol], enemyColor) {
          res := res + [NewMove(r, c, endRow, endCol, board)];
        } else if Some((endRow, endCol)) == enPassantPossible {
          res := res + [NewMove(r, c, endRow, endCol, board, isEnpassantMove := true)];
        }
      }
    }

    /** The loops shared by getRookMoves and getBishopMoves: one ray per direction. */
    method AppendRays(r: int, c: int, directions: seq<(int, int)>, moves: seq<Move>) returns (res: seq<Move>)
      requires IsBoard(board) && OnBoard(r, c)
      ensures res == moves + Rays(board, whiteToMove, r, c, directions)
    {
      ghost var b, w := board, whiteToMove;
      res := moves;
      var k := 0;
      while k < |directions|
        invariant 0 <= k <= |directions|
        invariant res == moves + Rays(b, w, r, c, directions[..k])
      {
        var d := directions[k];
        res := AppendRay(r, c, d.0, d.1, res);
        AppendAssoc(moves, Rays(b, w, r, c, directions[..k]), Ray(b, w, r, c, d.0, d.1, 1));
        assert directions[..k + 1][..k] == directions[..k];
        k := k + 1;
      }
      assert directions[..k] == directions;
    }

    /** The inner `for i in range(1, 8)`: walk outward from (r, c), stopping at the edge, at a
        friendly piece, or after an enemy piece. */
    method AppendRay(r: int, c: int, dr: int, dc: int, moves: seq<Move>) returns (res: seq<Move>)
      requires IsBoard(board) && OnBoard(r, c)
      ensures res == moves + Ray(board, whiteToMove, r, c, dr, dc, 1)
    {
      ghost var b, w := board, whiteToMove;
      var enemyColor := if whiteToMove then Black else White;
      res := moves;
      var i := 1;
      while i < 8
        invariant 1 <= i <= 8
        invariant moves + Ray(b, w, r, c, dr, dc, 1) == res + Ray(b, w, r, c, dr, dc, i)
      {
        var endRow, endCol := r + dr * i, c + dc * i;
        RaySqProduct(r, dr, i);
        RaySqProduct(c, dc, i);
        if 0 <= endRow < 8 && 0 <= endCol < 8 {
          var endPiece := board[endRow][endCol];
          if endPiece == Empty {
            AppendAssoc(res, [NewMove(r, c, endRow, endCol, board)], Ray(b, w, r, c, dr, dc, i + 1));
            res := res + [NewMove(r, c, endRow, endCol, board)];
          } else if HasColor(endPiece, enemyColor) {
            res := res + [NewMove(r, c, endRow, endCol, board)];
            break;
          } else {
            break;
          }
        } else {
          break;
        }
        i := i + 1;
      }
    }

    /** getRookMoves(r, c, moves). */
    method GetRookMoves(r: int, c: int, moves: seq<Move>) returns (res: seq<Move>)
      requires IsBoard(board) && OnBoard(r, c)
      ensures res == moves + RookMoves(board, whiteToMove, r, c)
    {
      res := AppendRays(r, c, RookDirections, moves);
    }

    /** getBishopMoves(r, c, moves). */
    method GetBishopMoves(r: int, c: int, moves: seq<Move>) returns (res: seq<Move>)
      requires IsBoard(board) && OnBoard(r, c)
      ensures res == moves + BishopMoves(board, whiteToMove, r, c)
    {
      res := AppendRays(r, c, BishopDirections, moves);
    }

    /** getQueenMoves(r, c, moves): the rook's moves, then the bishop's. */
    method GetQueenMoves(r: int, c: int, moves: seq<Move>) returns (res: seq<Move>)
      requires IsBoard(board) && OnBoard(r, c)
      ensures res == moves + QueenMoves(board, whiteToMove, r, c)
    {
      ghost var b, w := board, whiteToMove;
      res := GetRookMoves(r, c, moves);
      assert res == moves + RookMoves(b, w, r, c);
      res := GetBishopMoves(r, c, res);
      AppendAssoc(moves, RookMoves(b, w, r, c), BishopMoves(b, w, r, c));
    }

    /** The loop shared by getKnightMoves and getKingMoves: each offset that lands on the board and
        not on an ally. */
    method AppendJumps(r: int, c: int, offsets: seq<(int, int)>, moves: seq<Move>) returns (res: seq<Move>)
      requires IsBoard(board) && OnBoard(r, c)
      ensures res == moves + Jumps(board, whiteToMove, r, c, offsets)
    {
      ghost var b, w := board, whiteToMove;
      var allyColor := if whiteToMove then White else Black;
      res := moves;
      var k := 0;
      while k < |offsets|
        invariant 0 <= k <= |offsets|
        invariant res == moves + Jumps(b, w, r, c, offsets[..k])
      {
        ghost var before := res;
        var endRow, endCol := r + offsets[k].0, c + offsets[k].1;
        if 0 <= endRow < 8 && 0 <= endCol < 8 {
          var endPiece := board[endRow][endCol];
          if !HasColor(endPiece, allyColor) {
            res := res + [NewMove(r, c, endRow, endCol, board)];
          }
        }
        assert res == before + Jump(b, w, r, c, offsets[k]);
        AppendAssoc(moves, Jumps(b, w, r, c, offsets[..k]), Jump(b, w, r, c, offsets[k]));
        assert offsets[..k + 1][..k] == offsets[..k];
        k := k + 1;
      }
      assert offsets[..k] == offsets;
    }

    /** getKnightMoves(r, c, moves). */
    method GetKnightMoves(r: int, c: int, moves: seq<Move>) returns (res: seq<Move>)
      requires IsBoard(board) && OnBoard(r, c)
      ensures res == moves + KnightMoves(board, whiteToMove, r, c)
    {
      res := AppendJumps(r, c, KnightOffsets, moves);
    }

    /** getKingMoves(r, c, moves). */
    method GetKingMoves(r: int, c: int, moves: seq<Move>) returns (res: seq<Move>)
      requires IsBoard(board) && OnBoard(r, c)
      ensures res == moves + KingMoves(board, whiteToMove, r, c)
    {
      res := AppendJumps(r, c, KingOffsets, moves);
    }

    // ---- legal moves ----

    /** getValidMoves: the pseudo-legal moves that do not leave the king in check, then the
        castles; sets checkmate or stalemate when no move survives the filter. The castle step sees
        the rights and (for white) the en-passant target as the filter left them. */
    method GetValidMoves(promotion: Kind) returns (moves: seq<Move>)
      requires Sound() && PromotionKind(promotion)
      modifies this
      ensures Sound()
      ensures board == old(board) && whiteToMove == old(whiteToMove) && moveLog == old(moveLog)
      ensures whiteKingLocation == old(whiteKingLocation) && blackKingLocation == old(blackKingLocation)
      ensures currentCastlingRight == old(currentCastlingRight)
      ensures moves == ValidMoves(board, whiteToMove, old(enPassantPossible), currentCastlingRight,
                                  whiteKingLocation, blackKingLocation, promotion)
      ensures enPassantPossible ==
        if whiteToMove then FilterEnPassant(board, whiteToMove, old(enPassantPossible)) else old(enPassantPossible)
      ensures castleRightsLog ==
        if AllPossibleMoves(board, whiteToMove, old(enPassantPossible)) == [] then old(castleRightsLog)
        else [FilterRights(board, whiteToMove, old(enPassantPossible), currentCastlingRight)]
      ensures var legal := LegalMoves(board, whiteToMove, old(enPassantPossible), whiteKingLocation, blackKingLocation, promotion);
        var attacked := UnderAttack(board, whiteToMove, FilterEnPassant(board, whiteToMove, old(enPassantPossible)),
                                    KingLocation().0, KingLocation().1);
        && checkmate == (old(checkmate) || (legal == [] && attacked))
        && stalemate == (old(stalemate) || (legal == [] && !attacked))
      ensures old(InPlay()) ==> InPlay()
    {
      ghost var b, w, ep0, cr0 := board, whiteToMove, enPassantPossible, currentCastlingRight;
      ghost var wk, bk := whiteKingLocation, blackKingLocation;
      if InPlay() {
        ValidMovesKeepPlay(b, w, ep0, cr0, wk, bk);
      }
      FilterFacts(b, w, ep0, cr0, wk, bk, promotion);
      moves := FilterThenCastle(promotion);
      assert SoundPosition(b, w, enPassantPossible, cr0, wk, bk);
    }

    /** getValidMoves with tempEnpassantPossible and tempCastleRights given back before the castle
        step instead of after it, as the saved copies evidently intend: the castles are generated
        from the position the call started in, and the call leaves the en-passant target and the
        rights as it found them. */
    method GetValidMovesCorrected(promotion: Kind) returns (moves: seq<Move>)
      requires Sound() && PromotionKind(promotion)
      modifies this
      ensures Sound()
      ensures board == old(board) && whiteToMove == old(whiteToMove) && moveLog == old(moveLog)
      ensures whiteKingLocation == old(whiteKingLocation) && blackKingLocation == old(blackKingLocation)
      ensures currentCastlingRight == old(currentCastlingRight) && enPassantPossible == old(enPassantPossible)
      ensures moves == CorrectedValidMoves(board, whiteToMove, enPassantPossible, currentCastlingRight,
                                           whiteKingLocation, blackKingLocation, promotion)
      ensures castleRightsLog ==
        if AllPossibleMoves(board, whiteToMove, enPassantPossible) == [] then old(castleRightsLog)
        else [FilterRights(board, whiteToMove, enPassantPossible, currentCastlingRight)]
      ensures var legal := LegalMoves(board, whiteToMove, enPassantPossible, whiteKingLocation, blackKingLocation, promotion);
        var attacked := UnderAttack(board, whiteToMove, FilterEnPassant(board, whiteToMove, enPassantPossible),
                                    KingLocation().0, KingLocation().1);
        && checkmate == (old(checkmate) || (legal == [] && attacked))
        && stalemate == (old(stalemate) || (legal == [] && !attacked))
      ensures old(InPlay()) ==> InPlay()
    {
      ghost var b, w, ep0, cr0 := board, whiteToMove, enPassantPossible, currentCastlingRight;
      ghost var wk, bk := whiteKingLocation, blackKingLocation;
      FilterFacts(b, w, ep0, cr0, wk, bk, promotion);
      moves := FilterRestoreCastle(promotion);
    }

    /** The body of the corrected getValidMoves, given what a sound position guarantees. */
    method FilterRestoreCastle(promotion: Kind) returns (moves: seq<Move>)
      requires Valid() && NoStuckPawns(board) && PromotionKind(promotion)
      requires DistinctIDs(AllPossibleMoves(board, whiteToMove, enPassantPossible))
      requires forall m <- AllPossibleMoves(board, whiteToMove, enPassantPossible) ::
        Restorable(board, whiteKingLocation, blackKingLocation, m, promotion)
      requires CastleSquaresOk(currentCastlingRight, whiteToMove, KingLocation().0, KingLocation().1)
      modifies this
      ensures board == old(board) && whiteToMove == old(whiteToMove) && moveLog == old(moveLog)
      ensures whiteKingLocation == old(whiteKingLocation) && blackKingLocation == old(blackKingLocation)
      ensures currentCastlingRight == old(currentCastlingRight) && enPassantPossible == old(enPassantPossible)
      ensures moves == LegalMoves(board, whiteToMove, enPassantPossible, whiteKingLocation, blackKingLocation, promotion)
        + CastleMoves(board, whiteToMove, enPassantPossible, currentCastlingRight, KingLocation().0, KingLocation().1)
      ensures castleRightsLog ==
        if AllPossibleMoves(board, whiteToMove, enPassantPossible) == [] then old(castleRightsLog)
        else [FilterRights(board, whiteToMove, enPassantPossible, currentCastlingRight)]
      ensures var legal := LegalMoves(board, whiteToMove, enPassantPossible, whiteKingLocation, blackKingLocation, promotion);
        var attacked := UnderAttack(board, whiteToMove, FilterEnPassant(board, whiteToMove, enPassantPossible),
                                    KingLocation().0, KingLocation().1);
        && checkmate == (old(checkmate) || (legal == [] && attacked))
        && stalemate == (old(stalemate) || (legal == [] && !attacked))
    {
      var tempEnpassantPossible := enPassantPossible;
      var tempCastleRights := currentCastlingRight;
      moves := FilterThenJudge(promotion);
      enPassantPossible := tempEnpassantPossible;
      currentCastlingRight := tempCastleRights;
      moves := AddCastleMoves(moves, tempEnpassantPossible);
    }

    /** The body of getValidMoves, given what a sound position guarantees. */
    method FilterThenCastle(promotion: Kind) returns (moves: seq<Move>)
      requires Valid() && NoStuckPawns(board) && PromotionKind(promotion)
      requires DistinctIDs(AllPossibleMoves(board, whiteToMove, enPassantPossible))
      requires forall m <- AllPossibleMoves(board, whiteToMove, enPassantPossible) ::
        Restorable(board, whiteKingLocation, blackKingLocation, m, promotion)
      requires CastleSquaresOk(FilterRights(board, whiteToMove, enPassantPossible, currentCastlingRight),
                               whiteToMove, KingLocation().0, KingLocation().1)
      modifies this
      ensures board == old(board) && whiteToMove == old(whiteToMove) && moveLog == old(moveLog)
      ensures whiteKingLocation == old(whiteKingLocation) && blackKingLocation == old(blackKingLocation)
      ensures currentCastlingRight == old(currentCastlingRight)
      ensures moves == LegalMoves(board, whiteToMove, old(enPassantPossible), whiteKingLocation, blackKingLocation, promotion)
        + CastleMoves(board, whiteToMove, FilterEnPassant(board, whiteToMove, old(enPassantPossible)),
                      FilterRights(board, whiteToMove, old(enPassantPossible), currentCastlingRight),
                      KingLocation().0, KingLocation().1)
      ensures enPassantPossible ==
        if whiteToMove then FilterEnPassant(board, whiteToMove, old(enPassantPossible)) else old(enPassantPossible)
      ensures castleRightsLog ==
        if AllPossibleMoves(board, whiteToMove, old(enPassantPossible)) == [] then old(castleRightsLog)
        else [FilterRights(board, whiteToMove, old(enPassantPossible), currentCastlingRight)]
      ensures var legal := LegalMoves(board, whiteToMove, old(enPassantPossible), whiteKingLocation, blackKingLocation, promotion);
        var attacked := UnderAttack(board, whiteToMove, FilterEnPassant(board, whiteToMove, old(enPassantPossible)),
                                    KingLocation().0, KingLocation().1);
        && checkmate == (old(checkmate) || (legal == [] && attacked))
        && stalemate == (old(stalemate) || (legal == [] && !attacked))
    {
      var tempEnpassantPossible := enPassantPossible;
      var tempCastleRights := currentCastlingRight;
      moves := FilterThenJudge(promotion);
      moves := AddCastleMoves(moves, tempEnpassantPossible);
      currentCastlingRight := tempCastleRights;
    }

    /** getValidMoves up to its castling step: the filtering loop, then the checkmate/stalemate test
        on what is left. */
    method FilterThenJudge(promotion: Kind) returns (moves: seq<Move>)
      requires Valid() && NoStuckPawns(board) && PromotionKind(promotion)
      requires DistinctIDs(AllPossibleMoves(board, whiteToMove, enPassantPossible))
      requires forall m <- AllPossibleMoves(board, whiteToMove, enPassantPossible) ::
        Restorable(board, whiteKingLocation, blackKingLocation, m, promotion)
      modifies this
      ensures board == old(board) && whiteToMove == old(whiteToMove) && moveLog == old(moveLog)
      ensures whiteKingLocation == old(whiteKingLocation) && blackKingLocation == old(blackKingLocation)
      ensures moves == LegalMoves(board, whiteToMove, old(enPassantPossible), whiteKingLocation, blackKingLocation, promotion)
      ensures enPassantPossible == FilterEnPassant(board, whiteToMove, old(enPassantPossible))
      ensures currentCastlingRight == FilterRights(board, whiteToMove, old(enPassantPossible), old(currentCastlingRight))
      ensures castleRightsLog ==
        if AllPossibleMoves(board, whiteToMove, old(enPassantPossible)) == [] then old(castleRightsLog)
        else [currentCastlingRight]
      ensures var attacked := UnderAttack(board, whiteToMove, enPassantPossible, KingLocation().0, KingLocation().1);
        && checkmate == (old(checkmate) || (moves == [] && attacked))
        && stalemate == (old(stalemate) || (moves == [] && !attacked))
    {
      moves := FilterLegal(promotion);
      CheckGameOver(moves);
    }

    /** getValidMoves' "Either checkmate or stalemate" step: with no move left, checkmate when the
        king is attacked and stalemate when it is not; neither flag is ever cleared. */
    method CheckGameOver(moves: seq<Move>)
      requires IsBoard(board) && NoStuckPawns(board)
      modifies this`whiteToMove, this`checkmate, this`stalemate
      ensures whiteToMove == old(whiteToMove)
      ensures var attacked := UnderAttack(board, whiteToMove, enPassantPossible, KingLocation().0, KingLocation().1);
        && checkmate == (old(checkmate) || (moves == [] && attacked))
        && stalemate == (old(stalemate) || (moves == [] && !attacked))
    {
      if |moves| == 0 {
        var check := InCheck();
        if check {
          checkmate := true;
        } else {
          stalemate := true;
        }
      }
    }

    /** The end of getValidMoves: getCastleMoves from the cached square of the king to move, and
        for black only, enPassantPossible given back. */
    method AddCastleMoves(moves: seq<Move>, tempEnpassantPossible: Option<(int, int)>) returns (res: seq<Move>)
      requires IsBoard(board) && NoStuckPawns(board)
      requires CastleSquaresOk(currentCastlingRight, whiteToMove, KingLocation().0, KingLocation().1)
      modifies this`whiteToMove, this`enPassantPossible
      ensures whiteToMove == old(whiteToMove)
      ensures res == moves + CastleMoves(board, whiteToMove, old(enPassantPossible), currentCastlingRight, KingLocation().0, KingLocation().1)
      ensures enPassantPossible == if whiteToMove then old(enPassantPossible) else tempEnpassantPossible
    {
      if whiteToMove {
        res := GetCastleMoves(whiteKingLocation.0, whiteKingLocation.1, moves);
      } else {
        res := GetCastleMoves(blackKingLocation.0, blackKingLocation.1, moves);
        enPassantPossible := tempEnpassantPossible;
      }
    }

    /** getValidMoves' generation and loop: from the last candidate to the first, make it, test
        whether the mover's king is attacked, undo it, and remove the candidate if it was. */
    method FilterLegal(promotion: Kind) returns (moves: seq<Move>)
      requires Valid() && NoStuckPawns(board) && PromotionKind(promotion)
      requires DistinctIDs(AllPossibleMoves(board, whiteToMove, enPassantPossible))
      requires forall m <- AllPossibleMoves(board, whiteToMove, enPassantPossible) ::
        Restorable(board, whiteKingLocation, blackKingLocation, m, promotion)
      modifies this
      ensures board == old(board) && whiteToMove == old(whiteToMove) && moveLog == old(moveLog)
      ensures whiteKingLocation == old(whiteKingLocation) && blackKingLocation == old(blackKingLocation)
      ensures checkmate == old(checkmate) && stalemate == old(stalemate)
      ensures moves == LegalMoves(board, whiteToMove, old(enPassantPossible), whiteKingLocation, blackKingLocation, promotion)
      ensures enPassantPossible == FilterEnPassant(board, whiteToMove, old(enPassantPossible))
      ensures currentCastlingRight == FilterRights(board, whiteToMove, old(enPassantPossible), old(currentCastlingRight))
      ensures castleRightsLog ==
        if AllPossibleMoves(board, whiteToMove, old(enPassantPossible)) == [] then old(castleRightsLog)
        else [currentCastlingRight]
    {
      var candidates := GetAllPossibleMoves();
      moves := FilterCandidates(candidates, promotion);
    }

    /** getValidMoves' loop over the candidates, from the last to the first: make the candidate,
        test whether the mover's king is attacked, undo it, and remove the candidate if it was. The
        en-passant target and the rights end as the simulation of the first candidate leaves them. */
    method FilterCandidates(candidates: seq<Move>, promotion: Kind) returns (moves: seq<Move>)
      requires Valid() && NoStuckPawns(board) && PromotionKind(promotion) && DistinctIDs(candidates)
      requires forall m <- candidates :: Restorable(board, whiteKingLocation, blackKingLocation, m, promotion)
      modifies this
      ensures board == old(board) && whiteToMove == old(whiteToMove) && moveLog == old(moveLog)
      ensures whiteKingLocation == old(whiteKingLocation) && blackKingLocation == old(blackKingLocation)
      ensures checkmate == old(checkmate) && stalemate == old(stalemate)
      ensures moves == Filtered(board, whiteToMove, whiteKingLocation, blackKingLocation, promotion, candidates)
      ensures enPassantPossible == EnPassantAfterFilter(old(enPassantPossible), candidates)
      ensures currentCastlingRight == RightsAfterSimulating(old(currentCastlingRight), candidates)
      ensures castleRightsLog == if candidates == [] then old(castleRightsLog) else [currentCastlingRight]
    {
      ghost var b, w, ep0, cr0 := board, whiteToMove, enPassantPossible, currentCastlingRight;
      ghost var wk, bk := whiteKingLocation, blackKingLocation;
      moves := candidates;
      var i := |candidates|;
      while i > 0
        invariant 0 <= i <= |candidates|
        invariant board == b && whiteToMove == w && moveLog == old(moveLog)
        invariant whiteKingLocation == wk && blackKingLocation == bk
        invariant checkmate == old(checkmate) && stalemate == old(stalemate)
        invariant moves == candidates[..i] + Filtered(b, w, wk, bk, promotion, candidates[i..])
        invariant DistinctIDs(moves)
        invariant enPassantPossible == EnPassantAfterFilter(ep0, candidates[i..])
        invariant currentCastlingRight == RightsAfterSimulating(cr0, candidates[i..])
        invariant castleRightsLog == if i == |candidates| then old(castleRightsLog) else [currentCastlingRight]
      {
        i := i - 1;
        var m := candidates[i];
        assert Restorable(b, wk, bk, m, promotion);
        var check := SimulateMove(m, promotion);
        FilteredFrom(b, w, wk, bk, promotion, candidates, i);
        FilterStep(candidates, i, moves, check, Filtered(b, w, wk, bk, promotion, candidates[i + 1..]),
                   Filtered(b, w, wk, bk, promotion, candidates[i..]));
        SimulationStep(ep0, cr0, candidates, i);
        if check {
          moves := RemoveFirst(moves, m);
        }
      }
      assert candidates[0..] == candidates;
    }

    /** One turn of getValidMoves' loop: makeMove(m), hand the turn back, inCheck(), hand it over
        again, undoMove(). Returns whether the mover's king was attacked. */
    method SimulateMove(m: Move, promotion: Kind) returns (check: bool)
      requires Valid() && NoStuckPawns(board) && PromotionKind(promotion)
      requires Restorable(board, whiteKingLocation, blackKingLocation, m, promotion)
      modifies this
      ensures board == old(board) && whiteToMove == old(whiteToMove) && moveLog == old(moveLog)
      ensures whiteKingLocation == old(whiteKingLocation) && blackKingLocation == old(blackKingLocation)
      ensures checkmate == old(checkmate) && stalemate == old(stalemate)
      ensures enPassantPossible == UndoneEnPassant(NextEnPassant(m), m)
      ensures currentCastlingRight == UpdatedRights(old(currentCastlingRight), m)
      ensures castleRightsLog == [currentCastlingRight]
      ensures check <==> !LeavesKingSafe(old(board), old(whiteToMove), old(whiteKingLocation), old(blackKingLocation), m, promotion)
    {
      MadeBoardNoStuckPawns(board, m, promotion);
      MakeMove(m, promotion);
      whiteToMove := !whiteToMove;
      check := InCheck();
      whiteToMove := !whiteToMove;
      assert moveLog[..|moveLog| - 1] == old(moveLog);
      UndoMove();
    }

    // ---- attacks ----

    /** squareUnderAttack(r, c): generates the opponent's moves with the turn flipped, flips it back,
        and scans for a move ending on (r, c). */
    method SquareUnderAttack(r: int, c: int) returns (attacked: bool)
      requires IsBoard(board) && NoStuckPawns(board)
      modifies this`whiteToMove
      ensures whiteToMove == old(whiteToMove)
      ensures attacked <==> UnderAttack(board, whiteToMove, enPassantPossible, r, c)
    {
      whiteToMove := !whiteToMove;
      var oppMoves := GetAllPossibleMoves();
      whiteToMove := !whiteToMove;
      for i := 0 to |oppMoves|
        invariant forall j :: 0 <= j < i ==> !(oppMoves[j].endRow == r && oppMoves[j].endCol == c)
      {
        if oppMoves[i].endRow == r && oppMoves[i].endCol == c {
          return true;
        }
      }
      return false;
    }

    /** inCheck: whether the king of the side to move stands on an attacked square. */
    method InCheck() returns (check: bool)
      requires IsBoard(board) && NoStuckPawns(board)
      modifies this`whiteToMove
      ensures whiteToMove == old(whiteToMove)
      ensures check <==> UnderAttack(board, whiteToMove, enPassantPossible, KingLocation().0, KingLocation().1)
    {
      if whiteToMove {
        check := SquareUnderAttack(whiteKingLocation.0, whiteKingLocation.1);
      } else {
        check := SquareUnderAttack(blackKingLocation.0, blackKingLocation.1);
      }
    }

    // ---- castling ----

    /** getCastleMoves(r, c, moves). */
    method GetCastleMoves(r: int, c: int, moves: seq<Move>) returns (res: seq<Move>)
      requires IsBoard(board) && NoStuckPawns(board) && CastleSquaresOk(currentCastlingRight, whiteToMove, r, c)
      modifies this`whiteToMove
      ensures whiteToMove == old(whiteToMove)
      ensures res == moves + CastleMoves(board, whiteToMove, enPassantPossible, currentCastlingRight, r, c)
    {
      res := moves;
      var inCheck := SquareUnderAttack(r, c);
      if inCheck {
        return;
      }
      if (whiteToMove && currentCastlingRight.wks) || (!whiteToMove && currentCastlingRight.bks) {
        res := GetKingsideCastleMoves(r, c, res);
      }
      if (whiteToMove && currentCastlingRight.wqs) || (!whiteToMove && currentCastlingRight.bqs) {
        res := GetQueensideCastleMoves(r, c, res);
      }
    }

    /** getKingsideCastleMoves(r, c, moves). */
    method GetKingsideCastleMoves(r: int, c: int, moves: seq<Move>) returns (res: seq<Move>)
      requires IsBoard(board) && NoStuckPawns(board) && OnBoard(r, c) && c + 2 < 8
      modifies this`whiteToMove
      ensures whiteToMove == old(whiteToMove)
      ensures res == moves + KingsideCastle(board, whiteToMove, enPassantPossible, r, c)
    {
      res := moves;
      if board[r][c + 1] == Empty && board[r][c + 2] == Empty {
        var a1 := SquareUnderAttack(r, c + 1);
        if !a1 {
          var a2 := SquareUnderAttack(r, c + 2);
          if !a2 {
            res := res + [NewMove(r, c, r, c + 2, board, isCastleMove := true)];
          }
        }
      }
    }

    /** getQueensideCastleMoves(r, c, moves). */
    method GetQueensideCastleMoves(r: int, c: int, moves: seq<Move>) returns (res: seq<Move>)
      requires IsBoard(board) && NoStuckPawns(board) && OnBoard(r, c) && c - 3 >= 0
      modifies this`whiteToMove
      ensures whiteToMove == old(whiteToMove)
      ensures res == moves + QueensideCastle(board, whiteToMove, enPassantPossible, r, c)
    {
      res := moves;
      if board[r][c - 1] == Empty && board[r][c - 2] == Empty && board[r][c - 3] == Empty {
        var a1 := SquareUnderAttack(r, c - 1);
        if !a1 {
          var a2 := SquareUnderAttack(r, c - 2);
          if !a2 {
            res := res + [NewMove(r, c, r, c - 2, board, isCastleMove := true)];
          }
        }
      }
    }
  }

  /** Appending move lists is associative; the generator loops append one piece's moves at a time. */
  lemma AppendAssoc(a: seq<Move>, b: seq<Move>, c: seq<Move>)
    ensures (a + b) + c == a + (b + c)
  {
  }
}
