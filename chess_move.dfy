// The Move value of ChessEngine.py: start and end squares, the piece moved and
// captured, the three special-move flags, the integer identity moveID used by
// equality, and the coordinate notation.
module ChessMove {
  import opened ChessBoard

  datatype Move = Move(
    startRow: int, startCol: int, endRow: int, endCol: int,
    pieceMoved: Square, pieceCaptured: Square,
    isPawnPromotion: bool, isEnpassantMove: bool, isCastleMove: bool)

  /** `isPawnPromotion` as Move.__init__ computes it: a white pawn reaching row 0 or a black pawn reaching row 7. */
  predicate PromotionFlagged(m: Move) {
    m.isPawnPromotion <==>
      (m.pieceMoved == Piece(White, Pawn) && m.endRow == 0) || (m.pieceMoved == Piece(Black, Pawn) && m.endRow == 7)
  }

  /** The pawn an en-passant capture takes: 'wp' if a black pawn moves, otherwise 'bp'. */
  function EnPassantVictim(moved: Square): (s: Square)
    ensures s.Piece? && s.kind == Pawn
    ensures moved == Piece(White, Pawn) ==> s == Piece(Black, Pawn)
    ensures moved == Piece(Black, Pawn) ==> s == Piece(White, Pawn)
  {
    if moved == Piece(Black, Pawn) then Piece(White, Pawn) else Piece(Black, Pawn)
  }

  /** Move.__init__(startSq, endSq, board, isEnpassantMove, isCastleMove): reads the moved and
      captured pieces off the board. */
  function NewMove(sr: int, sc: int, er: int, ec: int, b: Board,
                   isEnpassantMove: bool := false, isCastleMove: bool := false): (m: Move)
    requires IsBoard(b) && OnBoard(sr, sc) && OnBoard(er, ec)
    ensures m.startRow == sr && m.startCol == sc && m.endRow == er && m.endCol == ec
    ensures m.pieceMoved == At(b, sr, sc)
    ensures PromotionFlagged(m)
    ensures m.isEnpassantMove == isEnpassantMove && m.isCastleMove == isCastleMove
    ensures !isEnpassantMove ==> m.pieceCaptured == At(b, er, ec)
    ensures isEnpassantMove && m.pieceMoved == Piece(White, Pawn) ==> m.pieceCaptured == Piece(Black, Pawn)
    ensures isEnpassantMove && m.pieceMoved == Piece(Black, Pawn) ==> m.pieceCaptured == Piece(White, Pawn)
  {
    var moved := At(b, sr, sc);
    Move(sr, sc, er, ec, moved,
         if isEnpassantMove then EnPassantVictim(moved) else At(b, er, ec),
         (moved == Piece(White, Pawn) && er == 0) || (moved == Piece(Black, Pawn) && er == 7),
         isEnpassantMove, isCastleMove)
  }

  predicate SquaresOnBoard(m: Move) {
    OnBoard(m.startRow, m.startCol) && OnBoard(m.endRow, m.endCol)
  }

  function MoveID(m: Move): int {
    m.startRow * 1000 + m.startCol * 100 + m.endRow * 10 + m.endCol
  }

  /** Move.__eq__: two moves are equal when their moveIDs are. */
  predicate Equals(a: Move, b: Move) {
    MoveID(a) == MoveID(b)
  }

  /** Two numbers written with the same last decimal digit and the same prefix are equal. */
  lemma DigitsEqual(x: int, d: int, y: int, e: int)
    requires 0 <= d < 10 && 0 <= e < 10 && x * 10 + d == y * 10 + e
    ensures x == y && d == e
  {
  }

  /** moveID is injective on board squares: two moves are equal exactly when their start and end
      squares agree, whatever their pieces and flags. */
  lemma EqualsIffSameSquares(a: Move, b: Move)
    requires SquaresOnBoard(a) && SquaresOnBoard(b)
    ensures Equals(a, b) <==>
      (a.startRow, a.startCol, a.endRow, a.endCol) == (b.startRow, b.startCol, b.endRow, b.endCol)
  {
    if Equals(a, b) {
      var a2, b2 := a.startRow * 10 + a.startCol, b.startRow * 10 + b.startCol;
      DigitsEqual(a2 * 10 + a.endRow, a.endCol, b2 * 10 + b.endRow, b.endCol);
      DigitsEqual(a2, a.endRow, b2, b.endRow);
      DigitsEqual(a.startRow, a.startCol, b.startRow, b.startCol);
    }
  }

  // ---- notation ----

  const ranksToRows: map<char, int> :=
    map['1' := 7, '2' := 6, '3' := 5, '4' := 4, '5' := 3, '6' := 2, '7' := 1, '8' := 0]
  const filesToCols: map<char, int> :=
    map['a' := 0, 'b' := 1, 'c' := 2, 'd' := 3, 'e' := 4, 'f' := 5, 'g' := 6, 'h' := 7]

  /** `{v: k for k, v in ranksToRows.items()}`, written out. */
  const rowsToRanks: map<int, char> :=
    map[7 := '1', 6 := '2', 5 := '3', 4 := '4', 3 := '5', 2 := '6', 1 := '7', 0 := '8']
  /** `{v: k for k, v in filesToCols.items()}`, written out. */
  const colsToFiles: map<int, char> :=
    map[0 := 'a', 1 := 'b', 2 := 'c', 3 := 'd', 4 := 'e', 5 := 'f', 6 := 'g', 7 := 'h']

  /** rowsToRanks inverts ranksToRows in both directions, and names row r rank '8' - r. */
  lemma RanksInverse()
    ensures forall k :: k in ranksToRows ==> ranksToRows[k] in rowsToRanks && rowsToRanks[ranksToRows[k]] == k
    ensures forall r :: r in rowsToRanks <==> 0 <= r < 8
    ensures forall r :: 0 <= r < 8 ==> rowsToRanks[r] in ranksToRows && ranksToRows[rowsToRanks[r]] == r
    ensures forall r :: 0 <= r < 8 ==> rowsToRanks[r] == ('8' as int - r) as char
  {
    assert ranksToRows.Keys == {'1', '2', '3', '4', '5', '6', '7', '8'};
  }

  /** colsToFiles inverts filesToCols in both directions, and names column c file 'a' + c. */
  lemma FilesInverse()
    ensures forall k :: k in filesToCols ==> filesToCols[k] in colsToFiles && colsToFiles[filesToCols[k]] == k
    ensures forall c :: c in colsToFiles <==> 0 <= c < 8
    ensures forall c :: 0 <= c < 8 ==> colsToFiles[c] in filesToCols && filesToCols[colsToFiles[c]] == c
    ensures forall c :: 0 <= c < 8 ==> colsToFiles[c] == ('a' as int + c) as char
  {
    assert filesToCols.Keys == {'a', 'b', 'c', 'd', 'e', 'f', 'g', 'h'};
  }

  /** Move.getRankFile: file letter then rank digit. */
  function GetRankFile(r: int, c: int): (s: string)
    requires OnBoard(r, c)
    ensures |s| == 2
    ensures s[0] == ('a' as int + c) as char && s[1] == ('8' as int - r) as char
    ensures s[0] in filesToCols && filesToCols[s[0]] == c
    ensures s[1] in ranksToRows && ranksToRows[s[1]] == r
  {
    RanksInverse();
    FilesInverse();
    [colsToFiles[c], rowsToRanks[r]]
  }

  /** Move.getChessNotation: start square name followed by end square name; the four characters
      read back, through filesToCols and ranksToRows, to the move's four coordinates. */
  function GetChessNotation(m: Move): (s: string)
    requires SquaresOnBoard(m)
    ensures |s| == 4
    ensures s[0] in filesToCols && filesToCols[s[0]] == m.startCol
    ensures s[1] in ranksToRows && ranksToRows[s[1]] == m.startRow
    ensures s[2] in filesToCols && filesToCols[s[2]] == m.endCol
    ensures s[3] in ranksToRows && ranksToRows[s[3]] == m.endRow
  {
    GetRankFile(m.startRow, m.startCol) + GetRankFile(m.endRow, m.endCol)
  }

  /** Two moves have the same notation exactly when they are equal under Move.__eq__. */
  lemma NotationIffEquals(a: Move, b: Move)
    requires SquaresOnBoard(a) && SquaresOnBoard(b)
    ensures GetChessNotation(a) == GetChessNotation(b) <==> Equals(a, b)
  {
    EqualsIffSameSquares(a, b);
    var na, nb := GetChessNotation(a), GetChessNotation(b);
    if na == nb {
      assert filesToCols[na[0]] == filesToCols[nb[0]];
      assert ranksToRows[na[1]] == ranksToRows[nb[1]];
      assert filesToCols[na[2]] == filesToCols[nb[2]];
      assert ranksToRows[na[3]] == ranksToRows[nb[3]];
    }
  }
}
