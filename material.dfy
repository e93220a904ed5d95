// The material evaluation of SmartMoveFinder.py: the pieceScore table and
// scoreMaterial, which walks the board row by row adding the value of every white
// piece and subtracting the value of every black one.
module MaterialScore {
  import opened ChessBoard

  /** pieceScore: K 0, Q 10, R 5, B 3, N 3, p 1. Only the king is worth nothing, and no piece is
      worth more than the queen. */
  function PieceScore(k: Kind): (v: int)
    ensures 0 <= v <= 10
    ensures v == 0 <==> k == King
  {
    match k
    case King => 0
    case Queen => 10
    case Rook => 5
    case Bishop => 3
    case Knight => 3
    case Pawn => 1
  }

  /** What one square adds to the score: its piece's value for 'w', minus it for 'b', nothing for '--'. */
  function SquareScore(s: Square): int {
    match s
    case Empty => 0
    case Piece(White, k) => PieceScore(k)
    case Piece(Black, k) => -PieceScore(k)
  }

  /** The score of the squares of one row, summed left to right. */
  function RowScore(row: seq<Square>): int {
    if row == [] then 0 else RowScore(row[..|row| - 1]) + SquareScore(row[|row| - 1])
  }

  /** The score of the rows of a board, summed top to bottom. */
  function BoardScore(b: seq<seq<Square>>): int {
    if b == [] then 0 else BoardScore(b[..|b| - 1]) + RowScore(b[|b| - 1])
  }

  /** scoreMaterial(board): the nested loop over rows and squares with its running score. */
  method ScoreMaterial(board: seq<seq<Square>>) returns (score: int)
    ensures score == BoardScore(board)
  {
    score := 0;
    for r := 0 to |board|
      invariant score == BoardScore(board[..r])
    {
      var row := board[r];
      for c := 0 to |row|
        invariant score == BoardScore(board[..r]) + RowScore(row[..c])
      {
        var square := row[c];
        if square.Piece? && square.color == White {
          score := score + PieceScore(square.kind);
        } else if square.Piece? && square.color == Black {
          score := score - PieceScore(square.kind);
        }
        assert row[..c + 1][..c] == row[..c];
      }
      assert row[..|row|] == row;
      assert board[..r + 1][..r] == board[..r];
    }
    assert board[..|board|] == board;
  }

  // ---- one square at a time ----

  /** Writing s on square c of a row changes its score by what s is worth minus what stood there. */
  lemma {:induction false} RowScoreUpdate(row: seq<Square>, c: int, s: Square)
    requires 0 <= c < |row|
    ensures RowScore(row[c := s]) == RowScore(row) - SquareScore(row[c]) + SquareScore(s)
  {
    var n := |row|;
    if c < n - 1 {
      assert row[c := s][..n - 1] == row[..n - 1][c := s];
      RowScoreUpdate(row[..n - 1], c, s);
    } else {
      assert row[c := s][..n - 1] == row[..n - 1];
    }
  }

  /** Writing s on (r, c) changes the board's score by what s is worth minus what stood there: an
      empty square and a king count for nothing, a white piece adds its value and a black piece
      subtracts it, wherever they stand. */
  lemma {:induction false} BoardScoreUpdate(b: seq<seq<Square>>, r: int, c: int, s: Square)
    requires 0 <= r < |b| && 0 <= c < |b[r]|
    ensures BoardScore(b[r := b[r][c := s]]) == BoardScore(b) - SquareScore(b[r][c]) + SquareScore(s)
  {
    var n := |b|;
    if r < n - 1 {
      assert b[r := b[r][c := s]][..n - 1] == b[..n - 1][r := b[r][c := s]];
      BoardScoreUpdate(b[..n - 1], r, c, s);
    } else {
      assert b[r := b[r][c := s]][..n - 1] == b[..n - 1];
      RowScoreUpdate(b[r], c, s);
    }
  }

  /** The same on a board, through the source's `board[r][c] = s`. */
  lemma SetScore(b: Board, r: int, c: int, s: Square)
    requires IsBoard(b) && OnBoard(r, c)
    ensures BoardScore(Set(b, r, c, s)) == BoardScore(b) - SquareScore(At(b, r, c)) + SquareScore(s)
    ensures s == Empty || s.kind == King ==> BoardScore(Set(b, r, c, s)) == BoardScore(b) - SquareScore(At(b, r, c))
    ensures At(b, r, c) == Empty && s.Piece? ==>
      BoardScore(Set(b, r, c, s)) == BoardScore(b) + (if s.color == White then PieceScore(s.kind) else -PieceScore(s.kind))
  {
    BoardScoreUpdate(b, r, c, s);
  }

  // ---- swapping colours ----

  function SwapSquare(s: Square): Square {
    match s
    case Empty => Empty
    case Piece(col, k) => Piece(Opponent(col), k)
  }

  function SwapRow(row: seq<Square>): (row': seq<Square>)
    ensures |row'| == |row|
    ensures forall i :: 0 <= i < |row| ==> row'[i] == SwapSquare(row[i])
  {
    seq(|row|, i requires 0 <= i < |row| => SwapSquare(row[i]))
  }

  /** Every piece of the board changed to the other colour. */
  function SwapColors(b: seq<seq<Square>>): (b': seq<seq<Square>>)
    ensures |b'| == |b|
    ensures forall i :: 0 <= i < |b| ==> b'[i] == SwapRow(b[i])
  {
    seq(|b|, i requires 0 <= i < |b| => SwapRow(b[i]))
  }

  lemma {:induction false} SwapRowNegates(row: seq<Square>)
    ensures RowScore(SwapRow(row)) == -RowScore(row)
  {
    if row != [] {
      var n := |row|;
      assert SwapRow(row)[..n - 1] == SwapRow(row[..n - 1]);
      SwapRowNegates(row[..n - 1]);
    }
  }

  /** Swapping the colour of every piece negates the score. */
  lemma {:induction false} SwapNegates(b: seq<seq<Square>>)
    ensures BoardScore(SwapColors(b)) == -BoardScore(b)
  {
    if b != [] {
      var n := |b|;
      assert SwapColors(b)[..n - 1] == SwapColors(b[..n - 1]);
      SwapNegates(b[..n - 1]);
      SwapRowNegates(b[n - 1]);
    }
  }

  // ---- the starting position ----

  /** The summed value of a list of kinds. */
  function KindsValue(ks: seq<Kind>): int {
    if ks == [] then 0 else KindsValue(ks[..|ks| - 1]) + PieceScore(ks[|ks| - 1])
  }

  /** A rank of white pieces scores their value, a rank of black pieces minus it. */
  lemma {:induction false} RankScore(col: Color, ks: seq<Kind>)
    ensures RowScore(Rank(col, ks)) == if col == White then KindsValue(ks) else -KindsValue(ks)
  {
    if ks != [] {
      var n := |ks|;
      assert Rank(col, ks)[..n - 1] == Rank(col, ks[..n - 1]);
      RankScore(col, ks[..n - 1]);
    }
  }

  lemma {:induction false} EmptyRowScore(row: seq<Square>)
    requires forall i :: 0 <= i < |row| ==> row[i] == Empty
    ensures RowScore(row) == 0
  {
    if row != [] {
      EmptyRowScore(row[..|row| - 1]);
    }
  }

  /** The score of an eight-row board is the sum of its rows' scores. */
  lemma EightRows(b: seq<seq<Square>>)
    requires |b| == 8
    ensures BoardScore(b) == RowScore(b[0]) + RowScore(b[1]) + RowScore(b[2]) + RowScore(b[3])
                             + RowScore(b[4]) + RowScore(b[5]) + RowScore(b[6]) + RowScore(b[7])
  {
    assert b[..8] == b;
    assert b[..0] == [];
    PrefixScore(b, 1); PrefixScore(b, 2); PrefixScore(b, 3); PrefixScore(b, 4);
    PrefixScore(b, 5); PrefixScore(b, 6); PrefixScore(b, 7); PrefixScore(b, 8);
  }

  lemma PrefixScore(b: seq<seq<Square>>, k: int)
    requires 1 <= k <= |b|
    ensures BoardScore(b[..k]) == BoardScore(b[..k - 1]) + RowScore(b[k - 1])
  {
    assert b[..k][..k - 1] == b[..k - 1];
  }

  /** The starting position of GameState.__init__ is level: it scores 0. */
  lemma InitialScore()
    ensures BoardScore(InitialBoard) == 0
  {
    var pawns := [Pawn, Pawn, Pawn, Pawn, Pawn, Pawn, Pawn, Pawn];
    RankScore(Black, BackRank);
    RankScore(Black, pawns);
    RankScore(White, pawns);
    RankScore(White, BackRank);
    EmptyRowScore(EmptyRow);
    EightRows(InitialBoard);
  }

  // ---- bounds ----

  function RowPieces(row: seq<Square>): nat {
    if row == [] then 0 else RowPieces(row[..|row| - 1]) + (if row[|row| - 1] == Empty then 0 else 1)
  }

  /** The number of occupied squares of the board. */
  function PieceCount(b: seq<seq<Square>>): nat {
    if b == [] then 0 else PieceCount(b[..|b| - 1]) + RowPieces(b[|b| - 1])
  }

  lemma {:induction false} RowBound(row: seq<Square>)
    ensures -10 * RowPieces(row) <= RowScore(row) <= 10 * RowPieces(row)
    ensures RowPieces(row) <= |row|
  {
    if row != [] {
      RowBound(row[..|row| - 1]);
    }
  }

  /** No score is more than ten points per piece on the board away from 0, so an 8x8 board scores
      between -640 and 640. */
  lemma {:induction false} ScoreBound(b: seq<seq<Square>>)
    ensures -10 * PieceCount(b) <= BoardScore(b) <= 10 * PieceCount(b)
    ensures (forall i :: 0 <= i < |b| ==> |b[i]| <= 8) ==> PieceCount(b) <= 8 * |b|
  {
    if b != [] {
      var n := |b|;
      ScoreBound(b[..n - 1]);
      RowBound(b[n - 1]);
      if forall i :: 0 <= i < |b| ==> |b[i]| <= 8 {
        assert forall i :: 0 <= i < n - 1 ==> b[..n - 1][i] == b[i];
      }
    }
  }

  lemma BoardScoreBound(b: Board)
    requires IsBoard(b)
    ensures -640 <= BoardScore(b) <= 640
  {
    ScoreBound(b);
  }
}
