# Chess engine rules and material count, in Dafny

This project models the rules engine of a small Python chess program.

`GameState` (ChessEngine.py) keeps:
- an 8x8 board;
- the side to move;
- the move log;
- the cached squares of the two kings;
- the en-passant target;
- the castling rights.

Its methods change that state in place:
- `makeMove` / `undoMove`;
- `updateCastleRights`;
- the pseudo-legal generators, one per kind of piece;
- `squareUnderAttack` / `inCheck`;
- the castling generators;
- `getValidMoves`, which plays every candidate, asks whether the mover's king is attacked, takes the move back, and removes the candidates that fail.

`Move` is a value read off the board. Its equality goes through the integer `moveID`, and it has a coordinate notation. From SmartMoveFinder.py, the `pieceScore` table and `scoreMaterial` are modelled.

The modules follow the program:

- `ChessBoard`:
  - squares as a datatype, so `'--'` is `Empty` and `'wK'` is `Piece(White, King)`;
  - the board as `seq<seq<Square>>`, and `board[r][c] = s` as `Set`;
  - the starting position.
- `ChessMove`:
  - `Move`, and `Move.__init__` as `NewMove`;
  - `moveID`, `__eq__`, `getRankFile` and `getChessNotation`.
- `MoveRules`:
  - what every generator produces, as functions of the board, the side to move and the en-passant target;
  - `squareUnderAttack` as `UnderAttack`;
  - the castling generators.
- `MoveFacts` and `MoveDistinct`: properties of the generated moves. These are their shape, where they start and end, and the fact that no two are equal under `__eq__`.
- `MakeUndo`: what `makeMove`, `undoMove` and `updateCastleRights` do to each part of the state, as functions, plus the round-trip lemmas.
- `Legality`:
  - the king-safety test behind `getValidMoves`;
  - the filtered list;
  - `list.remove`;
  - the position invariant under which the simulation leaves no trace.
- `ValidMoveList`: what `getValidMoves` returns, both as written and corrected (see Findings).
- `Play`: the invariant a game keeps while it is played with the moves of `getValidMoves`: it holds in the starting position, and the moves and the simulation keep it.
- `PromotionChoice`: the piece chosen at the promotion prompt does not change which moves `getValidMoves` keeps.
- `ChessEngine`:
  - the class `GameState`, with the source's fields;
  - one method per source method, with the source's loops, each proved equal to the functions above.
- `MaterialScore`:
  - `pieceScore`;
  - `scoreMaterial` as a nested loop, proved against a recursive sum;
  - the properties of that sum.

The promotion letter, which `makeMove` reads from the console, is a parameter `promotion` restricted to Q, R, B and N.

Five behaviours of the source are modelled exactly as written:
- `castleRightsLog` is replaced by a one-element list rather than appended to.
- `undoMove` does not give the castling rights back.
- `getValidMoves` restores `enPassantPossible` only when black is to move.
- `checkmate` and `stalemate` are only ever set, never cleared.
- A square is "attacked" when any pseudo-legal move of the opponent ends on it, pawn pushes included.

## Model

| member | source | states |
|---|---|---|
| ChessEngine.GameState.constructor | ChessEngine.py:6-30 | The starting board, white to move, an empty log, kings on (7,4) and (0,4), no en-passant target and all four rights held. The rights log holds one copy of them, and the state is in play (InPlay). |
| Play.InitialSound | ChessEngine.py:11-29 | In the starting position each king stands on its cached square and no other square holds it. There is no en-passant target, and each side that holds a right has its king on the home square. |
| ChessEngine.GameState.MakeMove | ChessEngine.py:35-71 | Each part of the new state, field by field:<br>- the board is MadeBoard of the old board;<br>- the move is appended to the log and the side to move flips;<br>- the king squares are MovedKing of the old ones;<br>- the en-passant target is NextEnPassant;<br>- the rights are UpdatedRights of the old ones;<br>- the rights log becomes a one-element list;<br>- checkmate and stalemate are untouched.<br>From a position in play, a move that getValidMoves keeps leaves the game in play. |
| ChessEngine.GameState.MakeMoveSteps | ChessEngine.py:36-71 | makeMove's writes in the source's order give each part of the new state as listed for MakeMove. |
| ChessEngine.GameState.MovePiece | ChessEngine.py:36-37 | The start square is emptied and the moved piece lands on the end square. |
| ChessEngine.GameState.MoveKingLocation | ChessEngine.py:41-44 | A 'wK' move puts the white king's cached square on the end square, and a 'bK' move does the same for black. Otherwise both are unchanged. |
| ChessEngine.GameState.PromotePawn | ChessEngine.py:47-49 | On a promotion the end square holds a piece of the mover's colour and of the chosen kind. Otherwise the board is unchanged. |
| ChessEngine.GameState.CaptureEnPassant | ChessEngine.py:52-53 | An en-passant capture empties the square on the start row and the end column. |
| ChessEngine.GameState.SetEnPassantTarget | ChessEngine.py:56-59 | The en-passant target becomes NextEnPassant(move). |
| ChessEngine.GameState.MoveCastleRook | ChessEngine.py:62-68 | A castle moves the rook from its corner to the square the king crossed and empties the corner. |
| ChessEngine.GameState.UndoMove | ChessEngine.py:76-106 | With an empty log nothing changes. Otherwise, for the last move:<br>- the move is popped;<br>- the board is UndoneBoard of the current board;<br>- the side to move flips;<br>- the king squares are RestoredKing;<br>- the en-passant target is UndoneEnPassant.<br>In both cases the rights and the rights log stay as they are. |
| ChessEngine.GameState.RestorePieces | ChessEngine.py:79-80 | The moved piece goes back to the start square and the captured piece to the end square. |
| ChessEngine.GameState.RestoreKingLocation | ChessEngine.py:83-86 | The cached square of a moved king goes back to the start square. |
| ChessEngine.GameState.UncaptureEnPassant | ChessEngine.py:88-91 | Undoing an en-passant capture empties the landing square, puts the pawn back on the start row and makes the landing square the target. |
| ChessEngine.GameState.ReturnCastleRook | ChessEngine.py:100-106 | Undoing a castle moves the rook back to its corner. |
| ChessEngine.GameState.MakeThenUndo | ChessEngine.py:35-106 | makeMove followed by undoMove restores every square, the side to move, the move log and both king squares. The rights stay as makeMove left them. The en-passant target ends as the landing square of an en-passant capture and empty otherwise. When the position is in play and the move is pseudo-legal, it stays in play. |
| ChessEngine.GameState.UpdateCastleRights | ChessEngine.py:111-129 | The rights become UpdatedRights(old rights, move). |
| MakeUndo.UpdatedRights | ChessEngine.py:111-129 | updateCastleRights never sets a right: every flag of the result is also set in the input. |
| MakeUndo.KingMoveClearsBoth | ChessEngine.py:112-117 | A king move clears both rights of its colour and nothing else. |
| MakeUndo.CornerRookClearsOne | ChessEngine.py:118-129 | A 'wR' leaving (7,0) or (7,7), or a 'bR' leaving (0,0) or (0,7), clears exactly the matching right. |
| MakeUndo.OtherMovesKeepRights | ChessEngine.py:111-129 | Every other move leaves the rights unchanged, including a capture of a rook on its corner. |
| MakeUndo.NextEnPassant | ChessEngine.py:56-59 | After makeMove there is a target exactly when a pawn moved two rows. It lies on the start column, one row from both the start and the end square. |
| MakeUndo.UndoneEnPassant | ChessEngine.py:88-94 | Undoing an en-passant capture makes the landing square the target, and undoing a two-row push clears it. Any other move leaves it unchanged. |
| MakeUndo.MakeUndoRestoresBoard | ChessEngine.py:35-106 | For any move consistent with the board (plain move, capture, promotion, en-passant capture or castle), undoing it after making it gives back the board. |
| MakeUndo.MakeUndoRestoresKing | ChessEngine.py:41-86 | A cached king square comes back after make and undo, provided the king stood there. |
| MakeUndo.MakeUndoEnPassant | ChessEngine.py:56-94 | After make and undo, the en-passant target is the landing square of an en-passant capture and empty after any other move, whatever it was before. |
| MakeUndo.MadeBoardNoStuckPawns | ChessEngine.py:35-71 | makeMove never leaves a white pawn on row 0 or a black pawn on row 7. |
| MakeUndo.RightsAfterSimulating | ChessEngine.py:138-144 | The rights left by simulating a list of moves are never stronger than the rights before. |
| MakeUndo.SimulatedKingMoveClears | ChessEngine.py:138-144 | Once the simulation has made a king move, neither right of that colour survives. |
| ChessEngine.GameState.GetAllPossibleMoves | ChessEngine.py:184-192 | The nested loop returns exactly AllPossibleMoves of the board, the side to move and the en-passant target. |
| ChessEngine.GameState.GetSquareMoves | ChessEngine.py:188-191 | The piece on (r, c) adds its kind's moves when it belongs to the side to move, and nothing otherwise. |
| ChessEngine.GameState.GetPawnMoves | ChessEngine.py:197-229 | The pushes are added, then the left and right diagonals, for either colour. |
| ChessEngine.GameState.AppendPawnCapture | ChessEngine.py:204-213 | On a column on the board, a diagonal adds a capture of an enemy piece. Failing that, it adds an en-passant capture onto the target. Otherwise it adds nothing. |
| ChessEngine.GameState.AppendRays | ChessEngine.py:236-250 | One ray per direction is added, in the order of the directions. |
| ChessEngine.GameState.AppendRay | ChessEngine.py:237-250 | The `for i in range(1, 8)` walk returns exactly Ray from step 1. Empty squares are added, an enemy piece is added and stops the walk, and an ally or the edge stops it. |
| ChessEngine.GameState.GetRookMoves | ChessEngine.py:233-250 | Adds the rays along the four rook directions. |
| ChessEngine.GameState.GetBishopMoves | ChessEngine.py:269-286 | Adds the rays along the four diagonals. |
| ChessEngine.GameState.GetQueenMoves | ChessEngine.py:291-293 | Adds the rook's moves, then the bishop's. |
| ChessEngine.GameState.AppendJumps | ChessEngine.py:255-264 | Each offset that lands on the board and not on an ally is added, in order. |
| ChessEngine.GameState.GetKnightMoves | ChessEngine.py:255-264 | Adds the knight's offsets. |
| ChessEngine.GameState.GetKingMoves | ChessEngine.py:298-307 | Adds the king's offsets. |
| MoveRules.RaySqProduct | ChessEngine.py:238-239 | The square stepped to i times along d is `r + d * i`. |
| MoveFacts.AllPossibleMovesGenerated | ChessEngine.py:184-229 | Every pseudo-legal move has these properties:<br>- both squares are on the board and distinct;<br>- the moved piece is the mover's own piece on the start square;<br>- the promotion flag is as Move sets it, and there is no castle flag;<br>- the captured piece is what stands on the end square and is never the mover's own;<br>- an en-passant capture is a pawn moving one row ahead and one column aside onto the target, taking the opponent's pawn. |
| MoveFacts.SquareMovesGenerated | ChessEngine.py:191 | The same holds for the moves of any one piece. |
| MoveFacts.PawnMovesGenerated | ChessEngine.py:197-229 | The same holds for the moves of a pawn. |
| MoveFacts.RaysGenerated | ChessEngine.py:233-286 | The same holds for the moves of the sliding pieces, stated with no en-passant target because they never use it. |
| MoveFacts.JumpsGenerated | ChessEngine.py:255-307 | The same holds for knight and king moves, stated with no en-passant target. |
| MoveFacts.RayPassesEmpty | ChessEngine.py:237-250 | Every square a ray passes over before its last move is on the board and empty. |
| MoveDistinct.RayShape | ChessEngine.py:237-250 | The j-th move of a ray starting at step i ends i + j steps out, and a ray has at most 8 - i moves. |
| MoveDistinct.RaysEnds | ChessEngine.py:236-250 | Rays along distinct unit directions end on distinct squares, each in the direction of its ray. |
| MoveDistinct.DirectionFacts | ChessEngine.py:234-270 | The rook and bishop direction tables have no repeats. Rook directions are along an axis and bishop directions are diagonal. |
| MoveDistinct.QueenEnds | ChessEngine.py:291-293 | The queen never lists a square twice. |
| MoveDistinct.KnightOffsetsDistinct | ChessEngine.py:256 | The knight's eight offsets are distinct. |
| MoveDistinct.KingOffsetsDistinct | ChessEngine.py:299 | The king's eight offsets are distinct. |
| MoveDistinct.JumpsEnds | ChessEngine.py:255-307 | Knight and king moves end on distinct squares, each at one of the fixed offsets from the start. |
| MoveDistinct.PawnEnds | ChessEngine.py:197-229 | A pawn's moves end on distinct squares and all start on the pawn's square. |
| MoveDistinct.SquareShape | ChessEngine.py:191 | The moves of one piece end on distinct squares and all start on that piece's square. |
| MoveDistinct.AllPossibleMovesDistinct | ChessEngine.py:184-192 | No two pseudo-legal moves have the same moveID. |
| ChessMove.NewMove | ChessEngine.py:345-361 | Move.__init__ sets the following:<br>- the four coordinates;<br>- the moved piece is the one on the start square;<br>- the promotion flag is set exactly for a white pawn reaching row 0 or a black pawn reaching row 7;<br>- the captured piece is the one on the end square, except for en passant, where it is the opponent's pawn. |
| ChessMove.EnPassantVictim | ChessEngine.py:356-357 | The captured piece of an en-passant move is a pawn of the other colour than the moving pawn. |
| ChessMove.EqualsIffSameSquares | ChessEngine.py:361-369 | Two moves on the board are equal under `__eq__` exactly when their start and end squares agree, whatever their pieces and flags. |
| ChessMove.RanksInverse | ChessEngine.py:340-341 | `rowsToRanks` and `ranksToRows` are inverse bijections between rows 0-7 and ranks '8'-'1'. |
| ChessMove.FilesInverse | ChessEngine.py:342-343 | `colsToFiles` and `filesToCols` are inverse bijections between columns 0-7 and files 'a'-'h'. |
| ChessMove.GetRankFile | ChessEngine.py:374-375 | Two characters, the file 'a' + c and the rank '8' - r, that read back to (r, c). |
| ChessMove.GetChessNotation | ChessEngine.py:371-372 | Four characters that read back, through `filesToCols` and `ranksToRows`, to the move's start and end squares. |
| ChessMove.NotationIffEquals | ChessEngine.py:361-372 | Two moves have the same notation exactly when they are equal under `__eq__`. |
| ChessEngine.GameState.SquareUnderAttack | ChessEngine.py:172-179 | Leaves the side to move unchanged. Returns true exactly when some pseudo-legal move of the opponent ends on (r, c). |
| ChessEngine.GameState.InCheck | ChessEngine.py:163-167 | True exactly when the cached square of the mover's king is attacked. The side to move is unchanged. |
| ChessEngine.GameState.GetCastleMoves | ChessEngine.py:312-318 | Adds nothing while the king's square is attacked. Otherwise adds the kingside castle when that right is held, then the queenside castle when that right is held. |
| ChessEngine.GameState.GetKingsideCastleMoves | ChessEngine.py:320-323 | Adds the castle to (r, c+2) when c+1 and c+2 are empty and neither is attacked. |
| ChessEngine.GameState.GetQueensideCastleMoves | ChessEngine.py:325-328 | Adds the castle to (r, c-2) when c-1, c-2 and c-3 are empty and neither c-1 nor c-2 is attacked. |
| ValidMoveList.CastleMovesSound | ChessEngine.py:312-328 | Every castle added starts on the king's unattacked square and lands two columns away on its row, flagged as a castle. A kingside castle needs its right, c+1 and c+2 empty, and neither attacked. A queenside castle needs its right, c-1 to c-3 empty, and c-1 and c-2 not attacked. |
| ChessEngine.GameState.GetValidMoves | ChessEngine.py:134-158 | From a sound position, the result is exactly ValidMoves: the candidates that leave the king safe, then the castles. On return:<br>- the board, the side to move, the log, the king squares and the rights are as on entry;<br>- the en-passant target is the filter's for white and restored for black;<br>- checkmate is set when nothing survives and the king is attacked, and stalemate when nothing survives and it is not.<br>A position in play stays in play. |
| ChessEngine.GameState.FilterThenCastle | ChessEngine.py:135-158 | The same, given the facts a sound position provides. |
| ChessEngine.GameState.InPlay | ChessEngine.py:6-158 | The state is valid, and the position is in play (Play.InPlay). |
| Play.InitialInPlay | ChessEngine.py:6-30 | The starting position is sound, and no white move reaches the black king. |
| Play.InitialSquareEnds | ChessEngine.py:184-310 | In the starting position every white move ends on row 4 or beyond it. |
| Play.InitialBackRankEnds | ChessEngine.py:233-310 | In the starting position the pieces of white's back rank move at most two rows. |
| Play.LegalMoveKeepsPlay | ChessEngine.py:35-71 | Making a move that getValidMoves keeps, from a position in play, gives a position in play:<br>- each king is alone on its cached square;<br>- a two-row pawn advance leaves a sound en-passant target;<br>- a held right has its king at home;<br>- no move of the side now to move reaches the king of the side that has just moved. |
| Play.KingsAfterMove | ChessEngine.py:36-44 | After a pseudo-legal move that does not land on the waiting king, each king is alone on its cached square. |
| Play.TargetAfterMove | ChessEngine.py:56-59 | After a two-row pawn advance, the target is the empty square the pawn crossed, with the pawn just beyond it. |
| Play.RightsAfterMove | ChessEngine.py:111-129 | Every right still held after a move has its king on the home square. |
| Play.MadeSquares | ChessEngine.py:35-53 | After makeMove of a non-castle, the start square and the captured en-passant pawn's square are empty. The end square holds the moved or promoted piece, and every other square is as it was. |
| Play.SimulationKeepsPlay | ChessEngine.py:138-144 | Making and then undoing a pseudo-legal move, as the filter does, keeps a position in play. |
| Play.ValidMovesKeepPlay | ChessEngine.py:134-158 | The en-passant target getValidMoves leaves keeps a position in play. |
| Play.SafeWithoutTarget | ChessEngine.py:197-231 | Clearing the en-passant target only takes pawn captures away, so a king no move reaches with the target is reached by none without it. |
| PromotionChoice.LegalMovesAnyPromotion | ChessEngine.py:134-144 | The filter keeps the same moves whichever piece is chosen at the promotion prompt while it simulates the candidates. |
| PromotionChoice.FilteredAnyPromotion | ChessEngine.py:138-144 | The same, for any list of pseudo-legal moves. |
| PromotionChoice.SafeAnyPromotion | ChessEngine.py:46-48 | Whether a move leaves its king safe does not depend on the piece a pawn promotes to. |
| PromotionChoice.PromotionsSeenAlike | ChessEngine.py:46-48 | Two promotion choices give boards that differ at most in the kind of the mover's piece on the end square. |
| PromotionChoice.UnderAttackAlike | ChessEngine.py:172-179 | squareUnderAttack answers alike on two boards that differ only in the kinds of the defending side's pieces. |
| PromotionChoice.RowsMovesAlike | ChessEngine.py:184-193 | getAllPossibleMoves ends on the same squares, in the same order, on two such boards. |
| PromotionChoice.RowMovesAlike | ChessEngine.py:186-192 | The same, for one row. |
| PromotionChoice.SquareMovesAlike | ChessEngine.py:188-192 | The same, for one square. |
| PromotionChoice.PawnMovesAlike | ChessEngine.py:197-231 | The same, for a pawn. |
| PromotionChoice.RayAlike | ChessEngine.py:233-253 | The same, for one ray of a rook, bishop or queen. |
| PromotionChoice.RaysAlike | ChessEngine.py:233-296 | The same, for all rays of a piece. |
| PromotionChoice.JumpsAlike | ChessEngine.py:255-310 | The same, for a knight or king. |
| ChessEngine.GameState.FilterThenJudge | ChessEngine.py:135-150 | The filter, then the checkmate/stalemate test on what is left. |
| ChessEngine.GameState.CheckGameOver | ChessEngine.py:146-150 | With no move left, checkmate is set when the king is attacked and stalemate when it is not. Neither is ever cleared. |
| ChessEngine.GameState.AddCastleMoves | ChessEngine.py:152-156 | Castles are generated from the cached square of the king to move. For black only, the saved en-passant target is given back. |
| ChessEngine.GameState.FilterLegal | ChessEngine.py:135-144 | Returns exactly LegalMoves. The board, the side to move, the log and the king squares are unchanged. The en-passant target is what making and undoing the first candidate leaves. The rights are what making every candidate leaves, since undoMove does not restore them. |
| ChessEngine.GameState.FilterCandidates | ChessEngine.py:138-144 | The backwards loop that removes failing candidates returns exactly the filtered list, in order. |
| ChessEngine.GameState.SimulateMove | ChessEngine.py:139-144 | One turn of the loop puts back the board, the side to move, the log and the king squares. It returns true exactly when the move leaves the mover's king attacked. |
| Legality.LegalMovesExactly | ChessEngine.py:134-144 | A move survives the filter exactly when it is pseudo-legal and, after it is made, no move of the opponent ends on the mover's king. |
| Legality.FilteredMembers | ChessEngine.py:138-144 | A move is kept by the filter exactly when it is a candidate that leaves the king safe. |
| Legality.Filtered | ChessEngine.py:138-144 | The filter keeps some of the candidates and drops the others, and the kept ones stay in their order. |
| Legality.RemoveFirstAt | ChessEngine.py:142 | In a list with distinct moveIDs, `list.remove(moves[i])` removes exactly the i-th element, and the rest stay distinct. |
| Legality.RemoveFromMiddle | ChessEngine.py:142 | Removing m by value from pre + [m] + rest leaves pre + rest. |
| Legality.FilterStep | ChessEngine.py:138-144 | One turn of the loop keeps the list as the untested prefix followed by the filtered suffix. |
| Legality.FilteredFrom | ChessEngine.py:138-144 | The filter of a suffix decides its first candidate, then filters the rest. |
| Legality.SimulationStep | ChessEngine.py:138-144 | The target and the rights after one more turn of the loop are those of making and undoing that candidate. |
| Legality.GeneratedApplicable | ChessEngine.py:184-192 | Every pseudo-legal move can be made and undone without leaving the board. |
| Legality.SimulationRestores | ChessEngine.py:138-144 | In a sound position, making and undoing any pseudo-legal move restores the board and both king squares. |
| Legality.CandidatesRestorable | ChessEngine.py:138-144 | In a sound position, every candidate of the filter can be simulated without trace. |
| Legality.EnPassantAfterFilterSound | ChessEngine.py:138-144 | The en-passant target the filter leaves is either the old one or none, and it keeps the position sound. |
| ValidMoveList.FilterFacts | ChessEngine.py:134-158 | In a sound position the following hold:<br>- the candidates are distinct and restorable;<br>- the castle step looks only at squares on the board;<br>- the target the loop leaves keeps the position sound. |
| ValidMoveList.KingStepClearsRights | ChessEngine.py:138-144 | A king of the side to move with an empty square beside it is among the candidates with that step, so the filter clears both of its colour's rights. |
| ValidMoveList.CastlingNeverOffered | ChessEngine.py:152-157 | As written, getValidMoves returns exactly the legal non-castle moves and never a castle. |
| ChessEngine.GameState.GetValidMovesCorrected | ChessEngine.py:134-158 | With the saved target and rights given back before the castle step, the result is exactly CorrectedValidMoves, and the call leaves the target and the rights as it found them. |
| ChessEngine.GameState.FilterRestoreCastle | ChessEngine.py:135-158 | The same, given the facts a sound position provides. |
| ValidMoveList.CorrectedOffersKingside | ChessEngine.py:312-323 | Corrected, the kingside castle is offered whenever the right is held, f and g on the king's row are empty, and e, f and g are not attacked. |
| ValidMoveList.CorrectedOffersQueenside | ChessEngine.py:325-328 | Corrected, the queenside castle is offered whenever the right is held, b, c and d are empty, and e, d and c are not attacked. |
| ValidMoveList.CorrectedCastles | ChessEngine.py:152-157 | Corrected, the castles among the results are exactly getCastleMoves' with the rights and target held on entry. |
| MaterialScore.PieceScore | SmartMoveFinder.py:3 | Every piece is worth 0 to 10, and only the king is worth 0. |
| MaterialScore.ScoreMaterial | SmartMoveFinder.py:35-44 | The nested loop returns exactly BoardScore(board), the row-by-row sum of each square's value: plus for 'w', minus for 'b', 0 for '--'. |
| MaterialScore.SetScore | SmartMoveFinder.py:37-42 | Writing one square changes the score by the new square's value minus the old one's. An empty square or a king adds nothing, and a piece placed on an empty square adds its value for white or subtracts it for black. |
| MaterialScore.BoardScoreUpdate | SmartMoveFinder.py:37-42 | The same, on a board of any shape. |
| MaterialScore.RowScoreUpdate | SmartMoveFinder.py:38-42 | The same, for one row. |
| MaterialScore.SwapNegates | SmartMoveFinder.py:39-42 | Swapping the colour of every piece negates the score. |
| MaterialScore.SwapRowNegates | SmartMoveFinder.py:38-42 | The same, for one row. |
| MaterialScore.InitialScore | SmartMoveFinder.py:35-44 | The starting board of GameState scores 0. |
| MaterialScore.ScoreBound | SmartMoveFinder.py:35-44 | The score is within 10 times the number of occupied squares of 0. That number is at most 8 per row when rows have at most 8 squares. |
| MaterialScore.RowBound | SmartMoveFinder.py:38-42 | The same, for one row. |
| MaterialScore.BoardScoreBound | SmartMoveFinder.py:35-44 | An 8x8 board scores between -640 and 640. |

## Left out

- ChessMain.py is not part of this model: the pygame window, event loop, images and drawing are user interface.
- The `input()` prompt in `makeMove` (ChessEngine.py:48) is replaced by the parameter `promotion`, one of Q, R, B, N. Other replies to the prompt, which would write a malformed square, are not modelled. The prompt also fires for every promotion candidate that getValidMoves simulates. The model gives all of them the same piece, and PromotionChoice.LegalMovesAnyPromotion shows that the piece does not change which moves are kept.
- `findRandomMove` (SmartMoveFinder.py:10-11) depends on `random`.
- `findBestMove` (SmartMoveFinder.py:16-30) plays moves on the caller's state without undoing them, and its result does not depend on its scores.
- No game is played out, so there are no perft counts and no scholar's-mate scenario. The source states no such numbers.
- The board is a value (`seq<seq<Square>>`) that each write replaces. Aliasing of the Python row lists is not modelled, and nothing in the source shares them. `CastleRights` is a value too, because the source always copies it before keeping it.
- ChessEngine.GameState.GetValidMoves: requires a sound position. That means:
  - an 8x8 board with no pawn stranded on its last row;
  - each king on its cached square and nowhere else;
  - an en-passant target that is empty with the opponent's pawn behind it;
  - every held right with its king on the home square.

  The source would index outside the board without the first. The starting position is sound, and a stronger invariant, InPlay, also holds there: sound, and no move of the side to move reaches the other king. InPlay is kept by getValidMoves, by a make/undo pair of a pseudo-legal move, and by makeMove of a move getValidMoves returned. It is not kept by every move that makeMove accepts: a capture of a king, for one, breaks it. The model does not say what the source does from positions that are not sound.
- ChessEngine.GameState.MakeMove: is proved to keep InPlay for the moves the filter keeps, and those are never castles. A castle returned by the corrected getValidMoves is not covered.
- ChessEngine.GameState.UndoMove: is proved to keep InPlay only right after the makeMove it undoes (MakeThenUndo). An undo further back in the log would need the earlier positions, and the state does not keep them.
- ChessEngine.GameState.GetAllPossibleMoves: requires no pawn stranded on its last row. In the source, such a pawn would index `board[-1]` or raise.
- ChessEngine.GameState.MakeMove: requires a move whose squares are on the board. Its promotion flag must be set as `Move.__init__` sets it, and a castle must stay on its row with its rook squares on the board. The source raises or wraps negative indices otherwise.
- ChessEngine.GameState.SimulateMove: requires that making and undoing the move restores the board and the king squares. Legality.CandidatesRestorable proves this for every candidate of a sound position.
- `Move` objects compared with non-`Move` values (`__eq__` returning False) do not occur in the model, whose lists hold only moves.

## Findings

| source | as written | input that shows it | evidently intended | confidence | as-written member | corrected member |
|---|---|---|---|---|---|---|
| ChessEngine.py:152-157 | The castle step reads `currentCastlingRight` while it still holds the rights the filter loop left. During the loop, making the king's one-square step clears both of that side's rights, and `undoMove` does not give them back. The saved `tempCastleRights` is restored only after the castle step, so castling is never returned. | White to move, white king on e1, rook on h1, f1 and g1 empty and not attacked, kingside right held. The candidate e1-f1 clears `wks`, and no castle is added. | Give back `tempCastleRights` (and the en-passant target) before generating castles, so that a held right with clear, unattacked squares yields the castle. | not executed | ValidMoveList.CastlingNeverOffered | ChessEngine.GameState.GetValidMovesCorrected |
