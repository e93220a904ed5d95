// getValidMoves simulates every candidate with makeMove, and makeMove asks for
// the promotion piece. The piece chosen does not change which moves the
// filter keeps: the promoted piece belongs to the side that moved, and the
// opponent's generators look only at the colour of such a piece, never at its
// kind. Everything here compares two boards that differ at most in the kind
// of pieces of one colour, through the squares the generated moves end on.
module PromotionChoice {
  import opened ChessBoard
  import opened ChessMove
  import opened MoveRules
  import opened MakeUndo
  import opened MoveFacts
  import opened Legality
  import opened Play

  /** The end squares of a move list, in order. */
  function Ends(s: seq<Move>): seq<(int, int)> {
    seq(|s|, i requires 0 <= i < |s| => (s[i].endRow, s[i].endCol))
  }

  lemma EndsConcat(a: seq<Move>, b: seq<Move>)
    ensures Ends(a + b) == Ends(a) + Ends(b)
  {
    assert forall i :: 0 <= i < |a + b| ==> Ends(a + b)[i] == (Ends(a) + Ends(b))[i];
  }

  /** Lists with the same end squares end on the same squares. */
  lemma SameEndsOn(s: seq<Move>, t: seq<Move>, r: int, c: int)
    requires Ends(s) == Ends(t)
    ensures EndsOn(s, r, c) <==> EndsOn(t, r, c)
  {
    if EndsOn(s, r, c) {
      var i :| 0 <= i < |s| && s[i].endRow == r && s[i].endCol == c;
      assert Ends(t)[i] == (r, c);
    }
    if EndsOn(t, r, c) {
      var i :| 0 <= i < |t| && t[i].endRow == r && t[i].endCol == c;
      assert Ends(s)[i] == (r, c);
    }
  }

  /** The two boards look the same to the side `white`: every square is the same, or holds a piece
      of the other side in both, of the same colour but maybe of another kind. */
  ghost predicate SeenAlike(b1: Board, b2: Board, white: bool)
    requires IsBoard(b1) && IsBoard(b2)
  {
    forall r, c :: OnBoard(r, c) ==>
      At(b1, r, c) == At(b2, r, c)
      || (At(b1, r, c).Piece? && At(b2, r, c).Piece?
          && At(b1, r, c).color == At(b2, r, c).color == Opponent(SideColor(white)))
  }

  // ---- each generator ends on the same squares on boards seen alike ----

  lemma PawnMovesAlike(b1: Board, b2: Board, white: bool, ep: Option<(int, int)>, r: int, c: int)
    requires IsBoard(b1) && IsBoard(b2) && SeenAlike(b1, b2, white)
    requires OnBoard(r, c) && OnBoard(r + PawnDir(white), c)
    ensures Ends(PawnMoves(b1, white, ep, r, c)) == Ends(PawnMoves(b2, white, ep, r, c))
  {
    var d := PawnDir(white);
    var a1, a2 := PawnAdvance(b1, white, r, c), PawnAdvance(b2, white, r, c);
    var l1, l2 := PawnCapture(b1, white, ep, r, c, r + d, c - 1), PawnCapture(b2, white, ep, r, c, r + d, c - 1);
    var r1, r2 := PawnCapture(b1, white, ep, r, c, r + d, c + 1), PawnCapture(b2, white, ep, r, c, r + d, c + 1);
    assert Ends(a1) == Ends(a2);
    assert Ends(l1) == Ends(l2);
    assert Ends(r1) == Ends(r2);
    EndsConcat(a1, l1);
    EndsConcat(a2, l2);
    EndsConcat(a1 + l1, r1);
    EndsConcat(a2 + l2, r2);
  }

  lemma {:induction false} RayAlike(b1: Board, b2: Board, white: bool, r: int, c: int, dr: int, dc: int, i: int)
    requires IsBoard(b1) && IsBoard(b2) && SeenAlike(b1, b2, white) && OnBoard(r, c) && 1 <= i <= 8
    ensures Ends(Ray(b1, white, r, c, dr, dc, i)) == Ends(Ray(b2, white, r, c, dr, dc, i))
    decreases 8 - i
  {
    if i < 8 {
      var er, ec := RaySq(r, dr, i), RaySq(c, dc, i);
      if OnBoard(er, ec) && At(b1, er, ec) == Empty {
        RayAlike(b1, b2, white, r, c, dr, dc, i + 1);
        EndsConcat([NewMove(r, c, er, ec, b1)], Ray(b1, white, r, c, dr, dc, i + 1));
        EndsConcat([NewMove(r, c, er, ec, b2)], Ray(b2, white, r, c, dr, dc, i + 1));
      }
    }
  }

  lemma {:induction false} RaysAlike(b1: Board, b2: Board, white: bool, r: int, c: int, dirs: seq<(int, int)>)
    requires IsBoard(b1) && IsBoard(b2) && SeenAlike(b1, b2, white) && OnBoard(r, c)
    ensures Ends(Rays(b1, white, r, c, dirs)) == Ends(Rays(b2, white, r, c, dirs))
  {
    if dirs != [] {
      var init, d := dirs[..|dirs| - 1], dirs[|dirs| - 1];
      RaysAlike(b1, b2, white, r, c, init);
      RayAlike(b1, b2, white, r, c, d.0, d.1, 1);
      EndsConcat(Rays(b1, white, r, c, init), Ray(b1, white, r, c, d.0, d.1, 1));
      EndsConcat(Rays(b2, white, r, c, init), Ray(b2, white, r, c, d.0, d.1, 1));
    }
  }

  lemma {:induction false} JumpsAlike(b1: Board, b2: Board, white: bool, r: int, c: int, offs: seq<(int, int)>)
    requires IsBoard(b1) && IsBoard(b2) && SeenAlike(b1, b2, white) && OnBoard(r, c)
    ensures Ends(Jumps(b1, white, r, c, offs)) == Ends(Jumps(b2, white, r, c, offs))
  {
    if offs != [] {
      var init, o := offs[..|offs| - 1], offs[|offs| - 1];
      JumpsAlike(b1, b2, white, r, c, init);
      assert Ends(Jump(b1, white, r, c, o)) == Ends(Jump(b2, white, r, c, o));
      EndsConcat(Jumps(b1, white, r, c, init), Jump(b1, white, r, c, o));
      EndsConcat(Jumps(b2, white, r, c, init), Jump(b2, white, r, c, o));
    }
  }

  lemma SquareMovesAlike(b1: Board, b2: Board, white: bool, ep: Option<(int, int)>, r: int, c: int)
    requires IsBoard(b1) && IsBoard(b2) && NoStuckPawns(b1) && NoStuckPawns(b2)
    requires SeenAlike(b1, b2, white) && OnBoard(r, c)
    ensures Ends(SquareMoves(b1, white, ep, r, c)) == Ends(SquareMoves(b2, white, ep, r, c))
  {
    var sq := At(b1, r, c);
    if HasColor(sq, SideColor(white)) {
      assert At(b2, r, c) == sq;
      match sq.kind
      case Pawn => PawnMovesAlike(b1, b2, white, ep, r, c);
      case Rook => RaysAlike(b1, b2, white, r, c, RookDirections);
      case Bishop => RaysAlike(b1, b2, white, r, c, BishopDirections);
      case Queen =>
        RaysAlike(b1, b2, white, r, c, RookDirections);
        RaysAlike(b1, b2, white, r, c, BishopDirections);
        EndsConcat(RookMoves(b1, white, r, c), BishopMoves(b1, white, r, c));
        EndsConcat(RookMoves(b2, white, r, c), BishopMoves(b2, white, r, c));
      case Knight => JumpsAlike(b1, b2, white, r, c, KnightOffsets);
      case King => JumpsAlike(b1, b2, white, r, c, KingOffsets);
    } else {
      assert !HasColor(At(b2, r, c), SideColor(white));
    }
  }

  lemma {:induction false} RowMovesAlike(b1: Board, b2: Board, white: bool, ep: Option<(int, int)>, r: int, n: int)
    requires IsBoard(b1) && IsBoard(b2) && NoStuckPawns(b1) && NoStuckPawns(b2)
    requires SeenAlike(b1, b2, white) && 0 <= r < 8 && 0 <= n <= 8
    ensures Ends(RowMoves(b1, white, ep, r, n)) == Ends(RowMoves(b2, white, ep, r, n))
  {
    if n > 0 {
      RowMovesAlike(b1, b2, white, ep, r, n - 1);
      SquareMovesAlike(b1, b2, white, ep, r, n - 1);
      EndsConcat(RowMoves(b1, white, ep, r, n - 1), SquareMoves(b1, white, ep, r, n - 1));
      EndsConcat(RowMoves(b2, white, ep, r, n - 1), SquareMoves(b2, white, ep, r, n - 1));
    }
  }

  lemma {:induction false} RowsMovesAlike(b1: Board, b2: Board, white: bool, ep: Option<(int, int)>, n: int)
    requires IsBoard(b1) && IsBoard(b2) && NoStuckPawns(b1) && NoStuckPawns(b2)
    requires SeenAlike(b1, b2, white) && 0 <= n <= 8
    ensures Ends(RowsMoves(b1, white, ep, n)) == Ends(RowsMoves(b2, white, ep, n))
  {
    if n > 0 {
      RowsMovesAlike(b1, b2, white, ep, n - 1);
      RowMovesAlike(b1, b2, white, ep, n - 1, 8);
      EndsConcat(RowsMoves(b1, white, ep, n - 1), RowMoves(b1, white, ep, n - 1, 8));
      EndsConcat(RowsMoves(b2, white, ep, n - 1), RowMoves(b2, white, ep, n - 1, 8));
    }
  }

  /** squareUnderAttack gives the same answer on two boards that differ only in the kinds of the
      defending side's pieces. */
  lemma UnderAttackAlike(b1: Board, b2: Board, white: bool, ep: Option<(int, int)>, r: int, c: int)
    requires IsBoard(b1) && IsBoard(b2) && NoStuckPawns(b1) && NoStuckPawns(b2)
    requires SeenAlike(b1, b2, !white)
    ensures UnderAttack(b1, white, ep, r, c) <==> UnderAttack(b2, white, ep, r, c)
  {
    RowsMovesAlike(b1, b2, !white, ep, 8);
    SameEndsOn(AllPossibleMoves(b1, !white, ep), AllPossibleMoves(b2, !white, ep), r, c);
  }

  // ---- the promotion piece ----

  /** Making a move of the side `white` with two promotion pieces gives boards the opponent sees
      alike: they differ at most in the kind of the piece on the end square, which is white's. */
  lemma PromotionsSeenAlike(b: Board, white: bool, m: Move, p: Kind, q: Kind)
    requires IsBoard(b) && Applicable(m) && !m.isCastleMove && HasColor(m.pieceMoved, SideColor(white))
    ensures SeenAlike(MadeBoard(b, m, p), MadeBoard(b, m, q), !white)
  {
    MadeSquares(b, m, p);
    MadeSquares(b, m, q);
  }

  /** Whether a move leaves the king safe does not depend on the promotion piece. */
  lemma SafeAnyPromotion(b: Board, white: bool, wk: (int, int), bk: (int, int), m: Move, p: Kind, q: Kind)
    requires IsBoard(b) && NoStuckPawns(b) && PromotionKind(p) && PromotionKind(q)
    requires !m.isCastleMove && HasColor(m.pieceMoved, SideColor(white))
    ensures LeavesKingSafe(b, white, wk, bk, m, p) <==> LeavesKingSafe(b, white, wk, bk, m, q)
  {
    if Applicable(m) {
      MadeBoardNoStuckPawns(b, m, p);
      MadeBoardNoStuckPawns(b, m, q);
      PromotionsSeenAlike(b, white, m, p, q);
      var king := KingAfter(white, wk, bk, m);
      UnderAttackAlike(MadeBoard(b, m, p), MadeBoard(b, m, q), white, NextEnPassant(m), king.0, king.1);
    }
  }

  lemma {:induction false} FilteredAnyPromotion(b: Board, white: bool, ep: Option<(int, int)>, wk: (int, int), bk: (int, int),
                                                p: Kind, q: Kind, s: seq<Move>)
    requires IsBoard(b) && NoStuckPawns(b) && PromotionKind(p) && PromotionKind(q) && AllGenerated(b, white, ep, s)
    ensures Filtered(b, white, wk, bk, p, s) == Filtered(b, white, wk, bk, q, s)
  {
    if s != [] {
      assert Generated(b, white, ep, s[0]);
      SafeAnyPromotion(b, white, wk, bk, s[0], p, q);
      FilteredAnyPromotion(b, white, ep, wk, bk, p, q, s[1..]);
    }
  }

  /** getValidMoves keeps the same moves whichever piece is typed at the promotion prompt during
      its simulation. */
  lemma LegalMovesAnyPromotion(b: Board, white: bool, ep: Option<(int, int)>, wk: (int, int), bk: (int, int), p: Kind, q: Kind)
    requires IsBoard(b) && NoStuckPawns(b) && PromotionKind(p) && PromotionKind(q)
    ensures LegalMoves(b, white, ep, wk, bk, p) == LegalMoves(b, white, ep, wk, bk, q)
  {
    AllPossibleMovesGenerated(b, white, ep);
    FilteredAnyPromotion(b, white, ep, wk, bk, p, q, AllPossibleMoves(b, white, ep));
  }
}
