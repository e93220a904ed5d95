// getAllPossibleMoves never lists two moves that Move.__eq__ calls equal: each
// piece reaches each square at most once, and moves of different pieces start on
// different squares. This is what makes `moves.remove(moves[i])` in
// getValidMoves remove exactly the i-th move.
module MoveDistinct {
  import opened ChessBoard
  import opened ChessMove
  import opened MoveRules
  import opened MoveFacts

  function Sign(x: int): int {
    if x > 0 then 1 else if x < 0 then -1 else 0
  }

  predicate Unit(d: (int, int)) {
    -1 <= d.0 <= 1 && -1 <= d.1 <= 1 && d != (0, 0)
  }

  predicate DistinctDirs(dirs: seq<(int, int)>) {
    (forall k :: 0 <= k < |dirs| ==> Unit(dirs[k]))
    && (forall i, j :: 0 <= i < j < |dirs| ==> dirs[i] != dirs[j])
  }

  predicate DistinctEnds(s: seq<Move>) {
    forall i, j :: 0 <= i < j < |s| ==> (s[i].endRow, s[i].endCol) != (s[j].endRow, s[j].endCol)
  }

  function Key(m: Move): (int, int, int, int) {
    (m.startRow, m.startCol, m.endRow, m.endCol)
  }

  predicate DistinctKeys(s: seq<Move>) {
    forall i, j :: 0 <= i < j < |s| ==> Key(s[i]) != Key(s[j])
  }

  /** No two moves of the list are equal under Move.__eq__. */
  predicate DistinctIDs(s: seq<Move>) {
    forall i, j :: 0 <= i < j < |s| ==> MoveID(s[i]) != MoveID(s[j])
  }

  lemma DistinctEndsConcat(a: seq<Move>, b: seq<Move>)
    requires DistinctEnds(a) && DistinctEnds(b)
    requires forall x, y :: x in a && y in b ==> (x.endRow, x.endCol) != (y.endRow, y.endCol)
    ensures DistinctEnds(a + b)
  {
    var s := a + b;
    forall i, j | 0 <= i < j < |s|
      ensures (s[i].endRow, s[i].endCol) != (s[j].endRow, s[j].endCol)
    {
      if j < |a| {
      } else if i >= |a| {
        assert s[i] == b[i - |a|] && s[j] == b[j - |a|];
      } else {
        assert s[i] in a && s[j] in b;
      }
    }
  }

  lemma DistinctKeysConcat(a: seq<Move>, b: seq<Move>)
    requires DistinctKeys(a) && DistinctKeys(b)
    requires forall x, y :: x in a && y in b ==> Key(x) != Key(y)
    ensures DistinctKeys(a + b)
  {
    var s := a + b;
    forall i, j | 0 <= i < j < |s|
      ensures Key(s[i]) != Key(s[j])
    {
      if j < |a| {
      } else if i >= |a| {
        assert s[i] == b[i - |a|] && s[j] == b[j - |a|];
      } else {
        assert s[i] in a && s[j] in b;
      }
    }
  }

  lemma RaySqInjective(r: int, dr: int, i: nat, k: nat)
    requires -1 <= dr <= 1 && dr != 0 && i != k
    ensures RaySq(r, dr, i) != RaySq(r, dr, k)
  {
    RaySqProduct(r, dr, i);
    RaySqProduct(r, dr, k);
    if dr == 1 {
    } else {
      assert dr == -1;
    }
  }

  lemma RaySqSign(r: int, dr: int, k: nat)
    requires -1 <= dr <= 1 && k >= 1
    ensures Sign(RaySq(r, dr, k) - r) == dr
  {
    RaySqProduct(r, dr, k);
    if dr == 1 {
    } else if dr == -1 {
    } else {
    }
  }

  /** The j-th move of s ends i + j steps from (r, c) along d. */
  predicate EndsAlong(s: seq<Move>, r: int, c: int, d: (int, int), i: nat) {
    forall j :: 0 <= j < |s| ==> s[j].endRow == RaySq(r, d.0, i + j) && s[j].endCol == RaySq(c, d.1, i + j)
  }

  lemma ConsEndsAlong(m: Move, t: seq<Move>, r: int, c: int, d: (int, int), i: nat)
    requires m.endRow == RaySq(r, d.0, i) && m.endCol == RaySq(c, d.1, i) && EndsAlong(t, r, c, d, i + 1)
    ensures EndsAlong([m] + t, r, c, d, i)
  {
    forall j | 1 <= j < |[m] + t|
      ensures ([m] + t)[j].endRow == RaySq(r, d.0, i + j) && ([m] + t)[j].endCol == RaySq(c, d.1, i + j)
    {
      assert ([m] + t)[j] == t[j - 1];
      assert (i + 1) + (j - 1) == i + j;
    }
  }

  /** The j-th move of a ray from step i ends i + j steps out. */
  lemma {:induction false} RayShape(b: Board, white: bool, r: int, c: int, dr: int, dc: int, i: int)
    requires IsBoard(b) && OnBoard(r, c) && 1 <= i <= 8
    ensures |Ray(b, white, r, c, dr, dc, i)| <= 8 - i
    ensures EndsAlong(Ray(b, white, r, c, dr, dc, i), r, c, (dr, dc), i)
    decreases 8 - i
  {
    if i < 8 {
      RayShape(b, white, r, c, dr, dc, i + 1);
      var er, ec := RaySq(r, dr, i), RaySq(c, dc, i);
      if OnBoard(er, ec) && At(b, er, ec) == Empty {
        ConsEndsAlong(NewMove(r, c, er, ec, b), Ray(b, white, r, c, dr, dc, i + 1), r, c, (dr, dc), i);
      }
    }
  }

  /** Along a unit direction the moves of a ray end on distinct squares, all in that direction. */
  lemma RayEnds(b: Board, white: bool, r: int, c: int, d: (int, int))
    requires IsBoard(b) && OnBoard(r, c) && Unit(d)
    ensures DistinctEnds(Ray(b, white, r, c, d.0, d.1, 1))
    ensures forall m <- Ray(b, white, r, c, d.0, d.1, 1) :: (Sign(m.endRow - r), Sign(m.endCol - c)) == d
  {
    RayShape(b, white, r, c, d.0, d.1, 1);
    EndsAlongDistinct(Ray(b, white, r, c, d.0, d.1, 1), r, c, d);
    EndsAlongSigns(Ray(b, white, r, c, d.0, d.1, 1), r, c, d);
  }

  lemma EndsAlongDistinct(s: seq<Move>, r: int, c: int, d: (int, int))
    requires Unit(d) && EndsAlong(s, r, c, d, 1)
    ensures DistinctEnds(s)
  {
    forall i, j | 0 <= i < j < |s|
      ensures (s[i].endRow, s[i].endCol) != (s[j].endRow, s[j].endCol)
    {
      if d.0 != 0 {
        RaySqInjective(r, d.0, 1 + i, 1 + j);
      } else {
        RaySqInjective(c, d.1, 1 + i, 1 + j);
      }
    }
  }

  lemma EndsAlongSigns(s: seq<Move>, r: int, c: int, d: (int, int))
    requires Unit(d) && EndsAlong(s, r, c, d, 1)
    ensures forall m <- s :: (Sign(m.endRow - r), Sign(m.endCol - c)) == d
  {
    forall j | 0 <= j < |s|
      ensures (Sign(s[j].endRow - r), Sign(s[j].endCol - c)) == d
    {
      RaySqSign(r, d.0, 1 + j);
      RaySqSign(c, d.1, 1 + j);
    }
  }

  lemma {:induction false} RaysEnds(b: Board, white: bool, r: int, c: int, dirs: seq<(int, int)>)
    requires IsBoard(b) && OnBoard(r, c) && DistinctDirs(dirs)
    ensures DistinctEnds(Rays(b, white, r, c, dirs))
    ensures forall m <- Rays(b, white, r, c, dirs) :: (Sign(m.endRow - r), Sign(m.endCol - c)) in dirs
  {
    if dirs != [] {
      var init, d := dirs[..|dirs| - 1], dirs[|dirs| - 1];
      RaysEnds(b, white, r, c, init);
      RayEnds(b, white, r, c, d);
      var a, t := Rays(b, white, r, c, init), Ray(b, white, r, c, d.0, d.1, 1);
      assert d !in init by {
        forall k | 0 <= k < |init| ensures init[k] != d { assert init[k] == dirs[k]; }
      }
      DistinctEndsConcat(a, t);
      assert Rays(b, white, r, c, dirs) == a + t;
    }
  }

  /** The direction tables of the sliding pieces: no entry repeats, rook directions lie along an
      axis and bishop directions do not. */
  lemma DirectionFacts()
    ensures DistinctDirs(RookDirections) && DistinctDirs(BishopDirections)
    ensures forall d <- RookDirections :: d.0 == 0 || d.1 == 0
    ensures forall d <- BishopDirections :: d.0 != 0 && d.1 != 0
  {
  }

  lemma KnightOffsetsDistinct()
    ensures DistinctOffsets(KnightOffsets)
  {
  }

  lemma KingOffsetsDistinct()
    ensures DistinctOffsets(KingOffsets)
  {
  }

  /** Moves straight out from (r, c) and moves diagonally out from it never end on the same square. */
  lemma AxisDiagonalApart(a: seq<Move>, t: seq<Move>, r: int, c: int)
    requires forall m <- a :: Sign(m.endRow - r) == 0 || Sign(m.endCol - c) == 0
    requires forall m <- t :: Sign(m.endRow - r) != 0 && Sign(m.endCol - c) != 0
    ensures forall x, y :: x in a && y in t ==> (x.endRow, x.endCol) != (y.endRow, y.endCol)
  {
  }

  /** getQueenMoves lists no square twice: its rook rays and bishop rays point in different directions. */
  lemma QueenEnds(b: Board, white: bool, r: int, c: int)
    requires IsBoard(b) && OnBoard(r, c)
    ensures DistinctEnds(QueenMoves(b, white, r, c))
  {
    DirectionFacts();
    RaysEnds(b, white, r, c, RookDirections);
    RaysEnds(b, white, r, c, BishopDirections);
    var a, t := RookMoves(b, white, r, c), BishopMoves(b, white, r, c);
    AxisDiagonalApart(a, t, r, c);
    DistinctEndsConcat(a, t);
  }

  predicate DistinctOffsets(offs: seq<(int, int)>) {
    forall i, j :: 0 <= i < j < |offs| ==> offs[i] != offs[j]
  }

  lemma {:induction false} JumpsEnds(b: Board, white: bool, r: int, c: int, offs: seq<(int, int)>)
    requires IsBoard(b) && OnBoard(r, c) && DistinctOffsets(offs)
    ensures DistinctEnds(Jumps(b, white, r, c, offs))
    ensures forall m <- Jumps(b, white, r, c, offs) :: (m.endRow - r, m.endCol - c) in offs
  {
    if offs != [] {
      var init, o := offs[..|offs| - 1], offs[|offs| - 1];
      JumpsEnds(b, white, r, c, init);
      assert o !in init by {
        forall k | 0 <= k < |init| ensures init[k] != o { assert init[k] == offs[k]; }
      }
      DistinctEndsConcat(Jumps(b, white, r, c, init), Jump(b, white, r, c, o));
    }
  }

  /** The pushes of a pawn stay in its column and end on different rows. */
  lemma PawnAdvanceShape(b: Board, white: bool, r: int, c: int)
    requires IsBoard(b) && OnBoard(r, c) && OnBoard(r + PawnDir(white), c)
    ensures DistinctEnds(PawnAdvance(b, white, r, c))
    ensures forall m <- PawnAdvance(b, white, r, c) :: m.startRow == r && m.startCol == c && m.endCol == c
  {
  }

  /** A diagonal pawn step yields at most one move, onto the column it looks at. */
  lemma PawnCaptureShape(b: Board, white: bool, ep: Option<(int, int)>, r: int, c: int, er: int, ec: int)
    requires IsBoard(b) && OnBoard(r, c) && 0 <= er < 8
    ensures |PawnCapture(b, white, ep, r, c, er, ec)| <= 1
    ensures forall m <- PawnCapture(b, white, ep, r, c, er, ec) :: m.startRow == r && m.startCol == c && m.endCol == ec
  {
  }

  lemma PawnEnds(b: Board, white: bool, ep: Option<(int, int)>, r: int, c: int)
    requires IsBoard(b) && OnBoard(r, c) && OnBoard(r + PawnDir(white), c)
    ensures DistinctEnds(PawnMoves(b, white, ep, r, c))
    ensures forall m <- PawnMoves(b, white, ep, r, c) :: m.startRow == r && m.startCol == c
  {
    var d := PawnDir(white);
    var advance := PawnAdvance(b, white, r, c);
    var left, right := PawnCapture(b, white, ep, r, c, r + d, c - 1), PawnCapture(b, white, ep, r, c, r + d, c + 1);
    PawnAdvanceShape(b, white, r, c);
    PawnCaptureShape(b, white, ep, r, c, r + d, c - 1);
    PawnCaptureShape(b, white, ep, r, c, r + d, c + 1);
    DistinctEndsConcat(advance, left);
    DistinctEndsConcat(advance + left, right);
  }

  /** The moves of one piece end on distinct squares and all start on that piece's square. */
  lemma SquareShape(b: Board, white: bool, ep: Option<(int, int)>, r: int, c: int)
    requires IsBoard(b) && NoStuckPawns(b) && OnBoard(r, c)
    ensures DistinctEnds(SquareMoves(b, white, ep, r, c))
    ensures forall m <- SquareMoves(b, white, ep, r, c) :: m.startRow == r && m.startCol == c
  {
    var sq := At(b, r, c);
    if HasColor(sq, SideColor(white)) {
      DirectionFacts();
      match sq.kind
      case Pawn =>
        PawnEnds(b, white, ep, r, c);
      case Rook =>
        RaysEnds(b, white, r, c, RookDirections);
        RaysFrom(b, white, r, c, RookDirections);
      case Bishop =>
        RaysEnds(b, white, r, c, BishopDirections);
        RaysFrom(b, white, r, c, BishopDirections);
      case Queen =>
        QueenEnds(b, white, r, c);
        RaysFrom(b, white, r, c, RookDirections);
        RaysFrom(b, white, r, c, BishopDirections);
      case Knight =>
        KnightOffsetsDistinct();
        JumpsEnds(b, white, r, c, KnightOffsets);
        JumpsFrom(b, white, r, c, KnightOffsets);
      case King =>
        KingOffsetsDistinct();
        JumpsEnds(b, white, r, c, KingOffsets);
        JumpsFrom(b, white, r, c, KingOffsets);
    }
  }

  /** Moves that all start on one square and end on distinct squares have distinct keys. */
  lemma EndsToKeys(s: seq<Move>, r: int, c: int)
    requires DistinctEnds(s)
    requires forall m <- s :: m.startRow == r && m.startCol == c
    ensures DistinctKeys(s)
  {
  }

  lemma SquareKeys(b: Board, white: bool, ep: Option<(int, int)>, r: int, c: int)
    requires IsBoard(b) && NoStuckPawns(b) && OnBoard(r, c)
    ensures DistinctKeys(SquareMoves(b, white, ep, r, c))
    ensures forall m <- SquareMoves(b, white, ep, r, c) :: m.startRow == r && m.startCol == c
  {
    SquareShape(b, white, ep, r, c);
    EndsToKeys(SquareMoves(b, white, ep, r, c), r, c);
  }

  lemma {:induction false} RayFrom(b: Board, white: bool, r: int, c: int, dr: int, dc: int, i: int)
    requires IsBoard(b) && OnBoard(r, c) && 1 <= i <= 8
    ensures forall m <- Ray(b, white, r, c, dr, dc, i) :: m.startRow == r && m.startCol == c
    decreases 8 - i
  {
    if i < 8 {
      RayFrom(b, white, r, c, dr, dc, i + 1);
    }
  }

  lemma {:induction false} RaysFrom(b: Board, white: bool, r: int, c: int, dirs: seq<(int, int)>)
    requires IsBoard(b) && OnBoard(r, c)
    ensures forall m <- Rays(b, white, r, c, dirs) :: m.startRow == r && m.startCol == c
  {
    if dirs != [] {
      var d := dirs[|dirs| - 1];
      RaysFrom(b, white, r, c, dirs[..|dirs| - 1]);
      RayFrom(b, white, r, c, d.0, d.1, 1);
    }
  }

  lemma {:induction false} JumpsFrom(b: Board, white: bool, r: int, c: int, offs: seq<(int, int)>)
    requires IsBoard(b) && OnBoard(r, c)
    ensures forall m <- Jumps(b, white, r, c, offs) :: m.startRow == r && m.startCol == c
  {
    if offs != [] {
      JumpsFrom(b, white, r, c, offs[..|offs| - 1]);
    }
  }

  lemma {:induction false} RowKeys(b: Board, white: bool, ep: Option<(int, int)>, r: int, n: int)
    requires IsBoard(b) && NoStuckPawns(b) && 0 <= r < 8 && 0 <= n <= 8
    ensures DistinctKeys(RowMoves(b, white, ep, r, n))
    ensures forall m <- RowMoves(b, white, ep, r, n) :: m.startRow == r && m.startCol < n
  {
    if n > 0 {
      RowKeys(b, white, ep, r, n - 1);
      SquareKeys(b, white, ep, r, n - 1);
      DistinctKeysConcat(RowMoves(b, white, ep, r, n - 1), SquareMoves(b, white, ep, r, n - 1));
    }
  }

  lemma {:induction false} RowsKeys(b: Board, white: bool, ep: Option<(int, int)>, n: int)
    requires IsBoard(b) && NoStuckPawns(b) && 0 <= n <= 8
    ensures DistinctKeys(RowsMoves(b, white, ep, n))
    ensures forall m <- RowsMoves(b, white, ep, n) :: m.startRow < n
  {
    if n > 0 {
      RowsKeys(b, white, ep, n - 1);
      RowKeys(b, white, ep, n - 1, 8);
      DistinctKeysConcat(RowsMoves(b, white, ep, n - 1), RowMoves(b, white, ep, n - 1, 8));
    }
  }

  /** No two moves of getAllPossibleMoves are equal under Move.__eq__. */
  lemma AllPossibleMovesDistinct(b: Board, white: bool, ep: Option<(int, int)>)
    requires IsBoard(b) && NoStuckPawns(b)
    ensures DistinctIDs(AllPossibleMoves(b, white, ep))
  {
    var s := AllPossibleMoves(b, white, ep);
    RowsKeys(b, white, ep, 8);
    AllPossibleMovesGenerated(b, white, ep);
    forall i, j | 0 <= i < j < |s|
      ensures MoveID(s[i]) != MoveID(s[j])
    {
      assert Generated(b, white, ep, s[i]) && Generated(b, white, ep, s[j]);
      EqualsIffSameSquares(s[i], s[j]);
    }
  }
}
