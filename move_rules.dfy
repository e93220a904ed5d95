// What the move generators of GameState (ChessEngine.py:184-328) produce, as
// functions of the board, the side to move and the en-passant target. The
// GameState methods that build these lists with loops are proved equal to them.
module MoveRules {
  import opened ChessBoard
  import opened ChessMove

  /** CastleRights(wks, bks, wqs, bqs). */
  datatype CastleRights = CastleRights(wks: bool, bks: bool, wqs: bool, bqs: bool)

  // ---- pawns ----

  /** Row step of a pawn of the side to move: white moves toward row 0. */
  function PawnDir(white: bool): int {
    if white then -1 else 1
  }

  /** A diagonal pawn step onto (er, ec): a capture when an enemy piece stands there, otherwise an
      en-passant capture when (er, ec) is the en-passant target. The column test is the source's
      `c-1 >= 0` / `c+1 <= 7`. */
  function PawnCapture(b: Board, white: bool, ep: Option<(int, int)>, r: int, c: int, er: int, ec: int): seq<Move>
    requires IsBoard(b) && OnBoard(r, c) && 0 <= er < 8
  {
    if !(0 <= ec < 8) then []
    else if HasColor(At(b, er, ec), Opponent(SideColor(white))) then [NewMove(r, c, er, ec, b)]
    else if ep == Some((er, ec)) then [NewMove(r, c, er, ec, b, isEnpassantMove := true)]
    else []
  }

  /** The pushes of getPawnMoves: one step forward onto an empty square, then two from the home row
      when that square is empty too. */
  function PawnAdvance(b: Board, white: bool, r: int, c: int): seq<Move>
    requires IsBoard(b) && OnBoard(r, c) && OnBoard(r + PawnDir(white), c)
  {
    var d := PawnDir(white);
    var home := if white then 6 else 1;
    if At(b, r + d, c) == Empty then
      [NewMove(r, c, r + d, c, b)]
      + (if r == home && At(b, r + 2 * d, c) == Empty then [NewMove(r, c, r + 2 * d, c, b)] else [])
    else []
  }

  /** getPawnMoves: the pushes, then the left and the right diagonal. */
  function PawnMoves(b: Board, white: bool, ep: Option<(int, int)>, r: int, c: int): seq<Move>
    requires IsBoard(b) && OnBoard(r, c) && OnBoard(r + PawnDir(white), c)
  {
    var d := PawnDir(white);
    PawnAdvance(b, white, r, c) + PawnCapture(b, white, ep, r, c, r + d, c - 1) + PawnCapture(b, white, ep, r, c, r + d, c + 1)
  }

  // ---- sliding pieces ----

  /** The coordinate i steps of dr away from r, one step at a time; RaySqProduct shows it is the
      source's `r + d[0] * i`. */
  function RaySq(r: int, dr: int, i: nat): int {
    if i == 0 then r else RaySq(r, dr, i - 1) + dr
  }

  lemma {:induction false} RaySqProduct(r: int, dr: int, i: nat)
    ensures RaySq(r, dr, i) == r + dr * i
  {
    if i > 0 {
      RaySqProduct(r, dr, i - 1);
    }
  }

  /** The inner `for i in range(1, 8)` of getRookMoves/getBishopMoves, from step i on: empty squares
      are taken and the ray goes on; an enemy piece is taken and the ray stops; a friendly piece or
      the board's edge stops it. */
  function Ray(b: Board, white: bool, r: int, c: int, dr: int, dc: int, i: int): seq<Move>
    requires IsBoard(b) && OnBoard(r, c) && 1 <= i <= 8
    decreases 8 - i
  {
    if i == 8 then []
    else
      var er, ec := RaySq(r, dr, i), RaySq(c, dc, i);
      if !OnBoard(er, ec) then []
      else if At(b, er, ec) == Empty then [NewMove(r, c, er, ec, b)] + Ray(b, white, r, c, dr, dc, i + 1)
      else if HasColor(At(b, er, ec), Opponent(SideColor(white))) then [NewMove(r, c, er, ec, b)]
      else []
  }

  /** The rays along dirs, in order. */
  function Rays(b: Board, white: bool, r: int, c: int, dirs: seq<(int, int)>): seq<Move>
    requires IsBoard(b) && OnBoard(r, c)
  {
    if dirs == [] then []
    else
      var d := dirs[|dirs| - 1];
      Rays(b, white, r, c, dirs[..|dirs| - 1]) + Ray(b, white, r, c, d.0, d.1, 1)
  }

  const RookDirections: seq<(int, int)> := [(-1, 0), (0, -1), (1, 0), (0, 1)]
  const BishopDirections: seq<(int, int)> := [(-1, -1), (-1, 1), (1, -1), (1, 1)]

  function RookMoves(b: Board, white: bool, r: int, c: int): seq<Move>
    requires IsBoard(b) && OnBoard(r, c)
  {
    Rays(b, white, r, c, RookDirections)
  }

  function BishopMoves(b: Board, white: bool, r: int, c: int): seq<Move>
    requires IsBoard(b) && OnBoard(r, c)
  {
    Rays(b, white, r, c, BishopDirections)
  }

  /** getQueenMoves: the rook's moves, then the bishop's. */
  function QueenMoves(b: Board, white: bool, r: int, c: int): seq<Move>
    requires IsBoard(b) && OnBoard(r, c)
  {
    RookMoves(b, white, r, c) + BishopMoves(b, white, r, c)
  }

  // ---- knights and kings ----

  const KnightOffsets: seq<(int, int)> := [(-2, -1), (-2, 1), (-1, -2), (-1, 2), (1, -2), (1, 2), (2, -1), (2, 1)]
  const KingOffsets: seq<(int, int)> := [(-1, -1), (-1, 0), (-1, 1), (0, -1), (0, 1), (1, -1), (1, 0), (1, 1)]

  /** One offset of getKnightMoves/getKingMoves: kept when it lands on the board and not on an ally. */
  function Jump(b: Board, white: bool, r: int, c: int, off: (int, int)): seq<Move>
    requires IsBoard(b) && OnBoard(r, c)
  {
    var er, ec := r + off.0, c + off.1;
    if OnBoard(er, ec) && !HasColor(At(b, er, ec), SideColor(white)) then [NewMove(r, c, er, ec, b)] else []
  }

  function Jumps(b: Board, white: bool, r: int, c: int, offs: seq<(int, int)>): seq<Move>
    requires IsBoard(b) && OnBoard(r, c)
  {
    if offs == [] then [] else Jumps(b, white, r, c, offs[..|offs| - 1]) + Jump(b, white, r, c, offs[|offs| - 1])
  }

  function KnightMoves(b: Board, white: bool, r: int, c: int): seq<Move>
    requires IsBoard(b) && OnBoard(r, c)
  {
    Jumps(b, white, r, c, KnightOffsets)
  }

  function KingMoves(b: Board, white: bool, r: int, c: int): seq<Move>
    requires IsBoard(b) && OnBoard(r, c)
  {
    Jumps(b, white, r, c, KingOffsets)
  }

  // ---- all pieces ----

  /** The moves of the piece on (r, c) when it belongs to the side to move (`moveFunctions[piece]`). */
  function SquareMoves(b: Board, white: bool, ep: Option<(int, int)>, r: int, c: int): seq<Move>
    requires IsBoard(b) && NoStuckPawns(b) && OnBoard(r, c)
  {
    var sq := At(b, r, c);
    if !HasColor(sq, SideColor(white)) then []
    else
      match sq.kind
      case Pawn => PawnMoves(b, white, ep, r, c)
      case Rook => RookMoves(b, white, r, c)
      case Knight => KnightMoves(b, white, r, c)
      case Bishop => BishopMoves(b, white, r, c)
      case Queen => QueenMoves(b, white, r, c)
      case King => KingMoves(b, white, r, c)
  }

  /** The moves from squares (r, 0) .. (r, n-1). */
  function RowMoves(b: Board, white: bool, ep: Option<(int, int)>, r: int, n: int): seq<Move>
    requires IsBoard(b) && NoStuckPawns(b) && 0 <= r < 8 && 0 <= n <= 8
  {
    if n == 0 then [] else RowMoves(b, white, ep, r, n - 1) + SquareMoves(b, white, ep, r, n - 1)
  }

  /** The moves from rows 0 .. n-1, row by row. */
  function RowsMoves(b: Board, white: bool, ep: Option<(int, int)>, n: int): seq<Move>
    requires IsBoard(b) && NoStuckPawns(b) && 0 <= n <= 8
  {
    if n == 0 then [] else RowsMoves(b, white, ep, n - 1) + RowMoves(b, white, ep, n - 1, 8)
  }

  /** getAllPossibleMoves: the pseudo-legal moves of the side to move. */
  function AllPossibleMoves(b: Board, white: bool, ep: Option<(int, int)>): seq<Move>
    requires IsBoard(b) && NoStuckPawns(b)
  {
    RowsMoves(b, white, ep, 8)
  }

  /** Some move of the list ends on (r, c). */
  predicate EndsOn(moves: seq<Move>, r: int, c: int) {
    exists i :: 0 <= i < |moves| && moves[i].endRow == r && moves[i].endCol == c
  }

  /** squareUnderAttack(r, c) with `whiteToMove == white`: some pseudo-legal move of the opponent
      (pawn pushes included) ends on (r, c). */
  predicate UnderAttack(b: Board, white: bool, ep: Option<(int, int)>, r: int, c: int)
    requires IsBoard(b) && NoStuckPawns(b)
  {
    EndsOn(AllPossibleMoves(b, !white, ep), r, c)
  }

  // ---- castling ----

  predicate KingsideRight(cr: CastleRights, white: bool) {
    if white then cr.wks else cr.bks
  }

  predicate QueensideRight(cr: CastleRights, white: bool) {
    if white then cr.wqs else cr.bqs
  }

  /** Where getCastleMoves may look: the squares two to the right and three to the left of the king. */
  predicate CastleSquaresOk(cr: CastleRights, white: bool, r: int, c: int) {
    OnBoard(r, c) && (KingsideRight(cr, white) ==> c + 2 < 8) && (QueensideRight(cr, white) ==> c - 3 >= 0)
  }

  /** getKingsideCastleMoves. */
  function KingsideCastle(b: Board, white: bool, ep: Option<(int, int)>, r: int, c: int): seq<Move>
    requires IsBoard(b) && NoStuckPawns(b) && OnBoard(r, c) && c + 2 < 8
  {
    if At(b, r, c + 1) == Empty && At(b, r, c + 2) == Empty
       && !UnderAttack(b, white, ep, r, c + 1) && !UnderAttack(b, white, ep, r, c + 2)
    then [NewMove(r, c, r, c + 2, b, isCastleMove := true)]
    else []
  }

  /** getQueensideCastleMoves: three empty squares, but only two of them tested for attack. */
  function QueensideCastle(b: Board, white: bool, ep: Option<(int, int)>, r: int, c: int): seq<Move>
    requires IsBoard(b) && NoStuckPawns(b) && OnBoard(r, c) && c - 3 >= 0
  {
    if At(b, r, c - 1) == Empty && At(b, r, c - 2) == Empty && At(b, r, c - 3) == Empty
       && !UnderAttack(b, white, ep, r, c - 1) && !UnderAttack(b, white, ep, r, c - 2)
    then [NewMove(r, c, r, c - 2, b, isCastleMove := true)]
    else []
  }

  /** getCastleMoves for the king on (r, c): nothing while it is attacked, otherwise the kingside
      and then the queenside castle, each only while its right is held. */
  function CastleMoves(b: Board, white: bool, ep: Option<(int, int)>, cr: CastleRights, r: int, c: int): seq<Move>
    requires IsBoard(b) && NoStuckPawns(b) && CastleSquaresOk(cr, white, r, c)
  {
    if UnderAttack(b, white, ep, r, c) then []
    else
      (if KingsideRight(cr, white) then KingsideCastle(b, white, ep, r, c) else [])
      + (if QueensideRight(cr, white) then QueensideCastle(b, white, ep, r, c) else [])
  }
}
