// The legality filter of GameState.getValidMoves (ChessEngine.py:134-158) as
// functions: the king-safety test each candidate move must pass, the filtered
// list, what the simulation leaves in enPassantPossible, the `list.remove` it
// relies on, and the position invariant under which the simulation puts
// everything back.
module Legality {
  import opened ChessBoard
  import opened ChessMove
  import opened MoveRules
  import opened MakeUndo
  import opened MoveFacts
  import opened MoveDistinct

  /** `list.remove(x)`: drops the first element equal to x under Move.__eq__. (Python raises
      ValueError when there is none; getValidMoves only removes elements of the list.) */
  function RemoveFirst(s: seq<Move>, x: Move): seq<Move> {
    if s == [] then []
    else if Equals(s[0], x) then s[1..]
    else [s[0]] + RemoveFirst(s[1..], x)
  }

  /** In a list without two equal moves, removing the i-th element's value removes the i-th element. */
  lemma {:induction false} RemoveFirstAt(s: seq<Move>, i: int)
    requires DistinctIDs(s) && 0 <= i < |s|
    ensures RemoveFirst(s, s[i]) == s[..i] + s[i + 1..]
    ensures DistinctIDs(s[..i] + s[i + 1..])
  {
    var t := s[..i] + s[i + 1..];
    forall j, k | 0 <= j < k < |t|
      ensures MoveID(t[j]) != MoveID(t[k])
    {
      var j', k' := if j < i then j else j + 1, if k < i then k else k + 1;
      assert t[j] == s[j'] && t[k] == s[k'];
    }
    if i > 0 {
      assert !Equals(s[0], s[i]);
      assert DistinctIDs(s[1..]) by {
        forall j, k | 0 <= j < k < |s| - 1
          ensures MoveID(s[1..][j]) != MoveID(s[1..][k])
        {
          assert s[1..][j] == s[j + 1] && s[1..][k] == s[k + 1];
        }
      }
      assert s[1..][i - 1] == s[i];
      RemoveFirstAt(s[1..], i - 1);
      assert s[1..][..i - 1] + s[1..][i..] == s[1..i] + s[i + 1..];
      assert [s[0]] + (s[1..i] + s[i + 1..]) == s[..i] + s[i + 1..];
    }
  }

  /** The cached location of the side's king after makeMove(m). */
  function KingAfter(white: bool, wk: (int, int), bk: (int, int), m: Move): (int, int) {
    if white then MovedKing(wk, Piece(White, King), m) else MovedKing(bk, Piece(Black, King), m)
  }

  /** The test at ChessEngine.py:139-141: after makeMove(m) and turning the side back, inCheck()
      is false, i.e. no pseudo-legal move of the opponent on the new board ends on the mover's king. */
  predicate LeavesKingSafe(b: Board, white: bool, wk: (int, int), bk: (int, int), m: Move, promo: Kind)
    requires IsBoard(b) && NoStuckPawns(b) && PromotionKind(promo)
  {
    Applicable(m) &&
      (MadeBoardNoStuckPawns(b, m, promo);
       var king := KingAfter(white, wk, bk, m);
       !UnderAttack(MadeBoard(b, m, promo), white, NextEnPassant(m), king.0, king.1))
  }

  predicate AllApplicable(s: seq<Move>) {
    forall i :: 0 <= i < |s| ==> Applicable(s[i])
  }

  /** r is s with some of its moves left out and the others kept in their order. */
  predicate Subsequence(r: seq<Move>, s: seq<Move>)
    decreases |s|
  {
    r == [] || (s != [] && ((r[0] == s[0] && Subsequence(r[1..], s[1..])) || Subsequence(r, s[1..])))
  }

  /** A subsequence of the tail of s stays one of s, with or without the head of s in front. */
  lemma SubsequenceCons(s: seq<Move>, t: seq<Move>, keep: bool)
    requires s != [] && Subsequence(t, s[1..])
    ensures Subsequence((if keep then [s[0]] else []) + t, s)
  {
    if keep {
      assert ([s[0]] + t)[1..] == t;
    } else {
      assert [] + t == t;
    }
  }

  /** The moves of s that leave the king safe, in their order. */
  function Filtered(b: Board, white: bool, wk: (int, int), bk: (int, int), promo: Kind, s: seq<Move>): (r: seq<Move>)
    requires IsBoard(b) && NoStuckPawns(b) && PromotionKind(promo)
    ensures Subsequence(r, s)
  {
    if s == [] then []
    else
      SubsequenceCons(s, Filtered(b, white, wk, bk, promo, s[1..]), LeavesKingSafe(b, white, wk, bk, s[0], promo));
      (if LeavesKingSafe(b, white, wk, bk, s[0], promo) then [s[0]] else [])
      + Filtered(b, white, wk, bk, promo, s[1..])
  }

  /** A move is kept by the filter exactly when it is one of the candidates and leaves the king safe. */
  lemma {:induction false} FilteredMembers(b: Board, white: bool, wk: (int, int), bk: (int, int), promo: Kind, s: seq<Move>, m: Move)
    requires IsBoard(b) && NoStuckPawns(b) && PromotionKind(promo)
    ensures m in Filtered(b, white, wk, bk, promo, s) <==> m in s && LeavesKingSafe(b, white, wk, bk, m, promo)
  {
    if s != [] {
      FilteredMembers(b, white, wk, bk, promo, s[1..], m);
      assert s == [s[0]] + s[1..];
    }
  }

  /** Every pseudo-legal move can be made and undone. */
  lemma GeneratedApplicable(b: Board, white: bool, ep: Option<(int, int)>)
    requires IsBoard(b) && NoStuckPawns(b)
    ensures AllApplicable(AllPossibleMoves(b, white, ep))
  {
    var s := AllPossibleMoves(b, white, ep);
    AllPossibleMovesGenerated(b, white, ep);
    forall i | 0 <= i < |s|
      ensures Applicable(s[i])
    {
      assert Generated(b, white, ep, s[i]);
    }
  }

  /** The non-castle moves getValidMoves returns. */
  function LegalMoves(b: Board, white: bool, ep: Option<(int, int)>, wk: (int, int), bk: (int, int), promo: Kind): seq<Move>
    requires IsBoard(b) && NoStuckPawns(b) && PromotionKind(promo)
  {
    Filtered(b, white, wk, bk, promo, AllPossibleMoves(b, white, ep))
  }

  /** A move is returned by the filter exactly when it is pseudo-legal and leaves the king safe. */
  lemma LegalMovesExactly(b: Board, white: bool, ep: Option<(int, int)>, wk: (int, int), bk: (int, int), promo: Kind, m: Move)
    requires IsBoard(b) && NoStuckPawns(b) && PromotionKind(promo)
    ensures m in LegalMoves(b, white, ep, wk, bk, promo) <==>
      m in AllPossibleMoves(b, white, ep) && LeavesKingSafe(b, white, wk, bk, m, promo)
  {
    FilteredMembers(b, white, wk, bk, promo, AllPossibleMoves(b, white, ep), m);
  }

  /** enPassantPossible after the filter loop has made and undone every candidate from the last to
      the first: decided by the first candidate alone. */
  function EnPassantAfterFilter(ep: Option<(int, int)>, cand: seq<Move>): Option<(int, int)> {
    if cand == [] then ep else UndoneEnPassant(NextEnPassant(cand[0]), cand[0])
  }

  // ---- the position invariant ----

  /** The cached king square holds that king, and no other square does. */
  ghost predicate KingAt(b: Board, loc: (int, int), col: Color)
    requires IsBoard(b)
  {
    && OnBoard(loc.0, loc.1)
    && At(b, loc.0, loc.1) == Piece(col, King)
    && forall r, c :: OnBoard(r, c) && At(b, r, c) == Piece(col, King) ==> (r, c) == loc
  }

  /** An en-passant target is an empty square with the opponent's pawn just behind it. */
  predicate EnPassantSound(b: Board, white: bool, ep: Option<(int, int)>)
    requires IsBoard(b)
  {
    ep.Some? ==>
      var (r, c) := ep.value;
      && OnBoard(r, c) && At(b, r, c) == Empty
      && OnBoard(r - PawnDir(white), c) && At(b, r - PawnDir(white), c) == Piece(Opponent(SideColor(white)), Pawn)
  }

  /** While a colour holds a castling right its king is on its home square. */
  predicate CastleHome(cr: CastleRights, wk: (int, int), bk: (int, int)) {
    ((cr.wks || cr.wqs) ==> wk == (7, 4)) && ((cr.bks || cr.bqs) ==> bk == (0, 4))
  }

  /** What holds of every position reached in play, and what getValidMoves relies on. */
  ghost predicate SoundPosition(b: Board, white: bool, ep: Option<(int, int)>, cr: CastleRights, wk: (int, int), bk: (int, int)) {
    && IsBoard(b) && NoStuckPawns(b)
    && KingAt(b, wk, White) && KingAt(b, bk, Black)
    && EnPassantSound(b, white, ep)
    && CastleHome(cr, wk, bk)
  }

  /** In a sound position, making and undoing any pseudo-legal move puts the board and both king
      locations back. */
  lemma SimulationRestores(b: Board, white: bool, ep: Option<(int, int)>, cr: CastleRights,
                           wk: (int, int), bk: (int, int), m: Move, promo: Kind)
    requires SoundPosition(b, white, ep, cr, wk, bk) && Generated(b, white, ep, m)
    ensures Applicable(m) && !m.isCastleMove
    ensures UndoneBoard(MadeBoard(b, m, promo), m) == b
    ensures RestoredKing(MovedKing(wk, Piece(White, King), m), Piece(White, King), m) == wk
    ensures RestoredKing(MovedKing(bk, Piece(Black, King), m), Piece(Black, King), m) == bk
  {
    assert Consistent(b, m);
    MakeUndoRestoresBoard(b, m, promo);
  }

  /** Making and then undoing m from board b with the kings cached at wk and bk puts all three back. */
  predicate Restorable(b: Board, wk: (int, int), bk: (int, int), m: Move, promo: Kind)
    requires IsBoard(b)
  {
    && Applicable(m)
    && UndoneBoard(MadeBoard(b, m, promo), m) == b
    && RestoredKing(MovedKing(wk, Piece(White, King), m), Piece(White, King), m) == wk
    && RestoredKing(MovedKing(bk, Piece(Black, King), m), Piece(Black, King), m) == bk
  }

  /** In a sound position every candidate of the filter can be simulated without a trace on the
      board or the king locations. */
  lemma CandidatesRestorable(b: Board, white: bool, ep: Option<(int, int)>, cr: CastleRights,
                             wk: (int, int), bk: (int, int), promo: Kind)
    requires SoundPosition(b, white, ep, cr, wk, bk)
    ensures forall m <- AllPossibleMoves(b, white, ep) :: Restorable(b, wk, bk, m, promo)
  {
    AllPossibleMovesGenerated(b, white, ep);
    forall m <- AllPossibleMoves(b, white, ep)
      ensures Restorable(b, wk, bk, m, promo)
    {
      SimulationRestores(b, white, ep, cr, wk, bk, m, promo);
    }
  }

  /** What the filter leaves in enPassantPossible is still a sound target. */
  lemma EnPassantAfterFilterSound(b: Board, white: bool, ep: Option<(int, int)>, cand: seq<Move>)
    requires IsBoard(b) && EnPassantSound(b, white, ep) && AllGenerated(b, white, ep, cand)
    ensures EnPassantSound(b, white, EnPassantAfterFilter(ep, cand))
    ensures EnPassantAfterFilter(ep, cand) == ep || EnPassantAfterFilter(ep, cand) == None
  {
    if cand != [] {
      assert Generated(b, white, ep, cand[0]);
    }
  }

  /** In a list without two equal moves, removing m by value from pre + [m] + rest leaves
      pre + rest, still without two equal moves. */
  lemma RemoveFromMiddle(pre: seq<Move>, m: Move, rest: seq<Move>)
    requires DistinctIDs(pre + [m] + rest)
    ensures RemoveFirst(pre + [m] + rest, m) == pre + rest
    ensures DistinctIDs(pre + rest)
  {
    var s := pre + [m] + rest;
    var i := |pre|;
    assert s[i] == m;
    RemoveFirstAt(s, i);
    assert s[..i] == pre && s[i + 1..] == rest;
  }

  /** The filter of cand[i..] decides cand[i], then filters the rest. */
  lemma FilteredFrom(b: Board, white: bool, wk: (int, int), bk: (int, int), promo: Kind, cand: seq<Move>, i: int)
    requires IsBoard(b) && NoStuckPawns(b) && PromotionKind(promo) && 0 <= i < |cand|
    ensures Filtered(b, white, wk, bk, promo, cand[i..])
      == (if LeavesKingSafe(b, white, wk, bk, cand[i], promo) then [cand[i]] else [])
         + Filtered(b, white, wk, bk, promo, cand[i + 1..])
  {
    assert cand[i..][0] == cand[i];
    assert cand[i..][1..] == cand[i + 1..];
  }

  /** One step of the filter loop, from the back of the candidate list, with the filter's verdict
      on cand[i] as `check` and the filtered tail as `rest`: removing cand[i] by value when it fails
      removes it by position, so the list keeps the form cand[..i] + filtered cand[i..]. */
  lemma FilterStep(cand: seq<Move>, i: int, moves: seq<Move>, check: bool, rest: seq<Move>, filtered: seq<Move>)
    requires 0 <= i < |cand|
    requires filtered == (if check then [] else [cand[i]]) + rest
    requires moves == cand[..i + 1] + rest && DistinctIDs(moves)
    ensures var moves' := if check then RemoveFirst(moves, cand[i]) else moves;
      moves' == cand[..i] + filtered && DistinctIDs(moves')
  {
    assert cand[..i + 1] == cand[..i] + [cand[i]];
    if check {
      RemoveFromMiddle(cand[..i], cand[i], rest);
    } else {
      assert (cand[..i] + [cand[i]]) + rest == cand[..i] + ([cand[i]] + rest);
    }
  }

  /** The en-passant target and the rights the loop leaves once it has also simulated cand[i]. */
  lemma SimulationStep(ep: Option<(int, int)>, cr: CastleRights, cand: seq<Move>, i: int)
    requires 0 <= i < |cand|
    ensures EnPassantAfterFilter(ep, cand[i..]) == UndoneEnPassant(NextEnPassant(cand[i]), cand[i])
    ensures RightsAfterSimulating(cr, cand[i..]) == UpdatedRights(RightsAfterSimulating(cr, cand[i + 1..]), cand[i])
  {
    assert cand[i..][0] == cand[i];
    assert cand[i..][1..] == cand[i + 1..];
  }
}
