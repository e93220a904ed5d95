// Squares, pieces and the 8x8 board of the chess engine (ChessEngine.py).
// Row 0 is black's back rank, row 7 is white's; the source encodes a square as
// a two-character string ('wK', 'bp', '--'), modelled here as a datatype.
module ChessBoard {

  /** Python's `()` (no square) or a coordinate pair. */
  datatype Option<T> = None | Some(value: T)

  datatype Color = White | Black
  datatype Kind = Pawn | Knight | Bishop | Rook | Queen | King

  /** '--' is Empty; 'wK' is Piece(White, King), and so on. */
  datatype Square = Empty | Piece(color: Color, kind: Kind)

  /** The source's list of eight rows of eight squares. */
  type Board = seq<seq<Square>>

  predicate OnBoard(r: int, c: int) {
    0 <= r < 8 && 0 <= c < 8
  }

  predicate IsBoard(b: Board) {
    |b| == 8 && forall r :: 0 <= r < 8 ==> |b[r]| == 8
  }

  function At(b: Board, r: int, c: int): Square
    requires IsBoard(b) && OnBoard(r, c)
  {
    b[r][c]
  }

  /** The assignment `board[r][c] = s`. */
  function Set(b: Board, r: int, c: int, s: Square): (b': Board)
    requires IsBoard(b) && OnBoard(r, c)
    ensures IsBoard(b')
    ensures At(b', r, c) == s
    ensures forall r', c' :: OnBoard(r', c') && (r', c') != (r, c) ==> At(b', r', c') == At(b, r', c')
  {
    b[r := b[r][c := s]]
  }

  /** Two boards are equal when they agree on every square. */
  lemma BoardExt(b: Board, b': Board)
    requires IsBoard(b) && IsBoard(b')
    requires forall r, c :: OnBoard(r, c) ==> At(b, r, c) == At(b', r, c)
    ensures b == b'
  {
    forall r | 0 <= r < 8
      ensures b[r] == b'[r]
    {
      assert forall c :: 0 <= c < 8 ==> b[r][c] == At(b, r, c) == At(b', r, c) == b'[r][c];
    }
  }

  function Opponent(c: Color): Color {
    if c == White then Black else White
  }

  /** The colour whose turn it is, from the source's `whiteToMove` flag. */
  function SideColor(whiteToMove: bool): Color {
    if whiteToMove then White else Black
  }

  /** `square[0] == color`: the square holds a piece of that colour ('-' of '--' matches no colour). */
  predicate HasColor(s: Square, c: Color) {
    s.Piece? && s.color == c
  }

  /** No white pawn on row 0 and no black pawn on row 7. Every position the engine reaches has
      this, because a pawn reaching its last row is always promoted; the pawn generator
      needs it to stay on the board. */
  predicate NoStuckPawns(b: Board)
    requires IsBoard(b)
  {
    forall c :: 0 <= c < 8 ==> At(b, 0, c) != Piece(White, Pawn) && At(b, 7, c) != Piece(Black, Pawn)
  }

  const BackRank: seq<Kind> := [Rook, Knight, Bishop, Queen, King, Bishop, Knight, Rook]

  function Rank(c: Color, ks: seq<Kind>): (row: seq<Square>)
    ensures |row| == |ks|
    ensures forall i :: 0 <= i < |ks| ==> row[i] == Piece(c, ks[i])
  {
    seq(|ks|, i requires 0 <= i < |ks| => Piece(c, ks[i]))
  }

  const EmptyRow: seq<Square> := [Empty, Empty, Empty, Empty, Empty, Empty, Empty, Empty]

  /** The starting position of GameState.__init__. */
  const InitialBoard: Board := [
    Rank(Black, BackRank),
    Rank(Black, [Pawn, Pawn, Pawn, Pawn, Pawn, Pawn, Pawn, Pawn]),
    EmptyRow, EmptyRow, EmptyRow, EmptyRow,
    Rank(White, [Pawn, Pawn, Pawn, Pawn, Pawn, Pawn, Pawn, Pawn]),
    Rank(White, BackRank)
  ]
}
