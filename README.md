# ChessKing in Dafny

This is a model of the ChessKing lab program. It has pawns and knights, a board that
maps squares to the pieces on them, and an 8x8 text view of that board.

- **Pieces** (`pieces.dfy`, module `Pieces`):
  - the two colours and the two kinds;
  - each kind's move rule, as the pure predicates `PawnMove`, `KnightMove` and `LegalMove`;
  - reference sets of target squares that the rules are proved against;
  - the mutable `Piece` object. Its `IsValidMove` follows the program's method. A pawn
    records that it has moved every time it answers "legal", even when the move is
    never made.
- **Board** (`board.dfy`, module `Boards`):
  - the `Board` class, whose one field is a `map` from squares to `Piece` references;
  - `PlacePiece`, `MovePiece` and `Render`, with their effects stated through the pure
    functions `MoveResult`, `Relocated` and `Grid`;
  - the board invariant `Valid` (every key holds a piece whose position is that key),
    which both operations preserve.
  - `Render` keeps the program's loop over rows and `RenderRow` its inner loop over
    columns. `Render` is proved equal to `Grid`, and the layout lemmas pin `Grid`
    down character by character.
- **Scenarios** (`scenarios.dfy`, module `Scenarios`):
  - the program's own demonstration (pawn (0, 1) to (0, 3), knight (1, 7) to (2, 5));
  - a few short runs of concrete moves: a capture, a refused placement, a black pawn,
    and a pawn marked as moved by a mere query.

Error paths are returned as values, not raised:
- the `ValueError` of a placement on an occupied square is `PlaceOutcome.Occupied`;
- the three console notices of a move are `MoveOutcome.Invalid`, `Moved` and `Captured(victim)`;
- the `KeyError` raised when the mover's own square is not a key is `MoveOutcome.MissingKey`.

The source does not demand that the mover is on the board, so `MovePiece` does not
require it either. It models what happens otherwise, in the source's order:
1. the pawn flag is already set;
2. the destination's occupant is already deleted;
3. then the `KeyError` leaves the mover where it was.

## Model

| member | source | states |
|---|---|---|
| Pieces.Describe | lab3/QA_Lab3_Malanichev/ChessKing/main.py:67-68 | a piece's description starts with its colour initial ('W' or 'B'), whatever its kind |
| Pieces.PawnMove | lab3/QA_Lab3_Malanichev/ChessKing/main.py:47-65 | no contract: the pawn rule; pinned down by PawnMoveTargets and PawnTargetCount |
| Pieces.KnightMove | lab3/QA_Lab3_Malanichev/ChessKing/main.py:77-85 | no contract: the knight rule; pinned down by KnightMoveOffsets and KnightTargetCount |
| Pieces.LegalMove | lab3/QA_Lab3_Malanichev/ChessKing/main.py:46-85 | a legal move of either kind never stays on its own square |
| Pieces.LegalMoveTargets | lab3/QA_Lab3_Malanichev/ChessKing/main.py:46-85 | a move is legal exactly when the destination is in the kind's listed target set (both directions) |
| Pieces.PawnMoveTargets | lab3/QA_Lab3_Malanichev/ChessKing/main.py:47-63 | the pawn rule (dx = 0 and dy = direction, or dy = twice the direction before the first move; direction +1 for white, -1 otherwise) holds exactly for the square ahead and, while unmoved, the one beyond |
| Pieces.PawnTargetCount | lab3/QA_Lab3_Malanichev/ChessKing/main.py:56-63 | an unmoved pawn has exactly two destinations, a moved pawn exactly one, and neither is its own square |
| Pieces.KnightMoveOffsets | lab3/QA_Lab3_Malanichev/ChessKing/main.py:77-85 | the knight rule (abs dx, abs dy) in {(2, 1), (1, 2)} holds exactly for the eight L-offsets, and exactly for the eight listed destinations |
| Pieces.KnightOffsetCount | lab3/QA_Lab3_Malanichev/ChessKing/main.py:82 | there are exactly eight distinct L-offsets and (0, 0) is not one of them |
| Pieces.KnightTargetCount | lab3/QA_Lab3_Malanichev/ChessKing/main.py:77-85 | from any square a knight has exactly eight distinct destinations, none of them the square itself |
| Pieces.Piece.constructor | lab3/QA_Lab3_Malanichev/ChessKing/main.py:42-44 | a new piece has the given kind, colour and position, and has not moved |
| Pieces.Piece.IsValidMove | lab3/QA_Lab3_Malanichev/ChessKing/main.py:46-85 | the answer is the kind's rule on the current position; a pawn's flag becomes set exactly when it answers yes and is never cleared; a knight changes nothing; the position never changes |
| Boards.Relocated | lab3/QA_Lab3_Malanichev/ChessKing/main.py:109-112 | after the move the destination maps to the mover, the old square is no key, and every other entry is kept as it was |
| Boards.RelocatedSize | lab3/QA_Lab3_Malanichev/ChessKing/main.py:107-112 | a move of a piece that is on the board shrinks the map by one on a capture and keeps its size otherwise |
| Boards.RelocatedCapture | lab3/QA_Lab3_Malanichev/ChessKing/main.py:107-112 | if no piece stood on two squares and the mover stood only on its own, then afterwards still no piece stands on two squares and the captured piece is nowhere on the board |
| Boards.MoveResult | lab3/QA_Lab3_Malanichev/ChessKing/main.py:105-115 | no contract: the outcome and new map of a move request; pinned down by LegalMoveResult and OtherMoveResults |
| Boards.LegalMoveResult | lab3/QA_Lab3_Malanichev/ChessKing/main.py:106-112 | a legal move of a piece stored under its own square: the destination holds the mover, the old square is free, the earlier occupant is reported as captured, every other entry is kept, and the size drops by one exactly on a capture |
| Boards.OtherMoveResults | lab3/QA_Lab3_Malanichev/ChessKing/main.py:105-115 | an illegal move changes nothing and reports Invalid; a legal move whose mover's square is not a key reports MissingKey after deleting only the destination's occupant |
| Boards.CellSymbol | lab3/QA_Lab3_Malanichev/ChessKing/main.py:122-125 | no contract: the occupant's colour initial or '.'; pinned down by GridShowsOccupancy |
| Boards.CellText | lab3/QA_Lab3_Malanichev/ChessKing/main.py:121-125 | a cell is the occupant's colour initial followed by a space, or ". " when the square is empty |
| Boards.RowCellsLayout | lab3/QA_Lab3_Malanichev/ChessKing/main.py:120-125 | n cells take 2n characters: the symbol of column x at 2x and a space at 2x + 1 |
| Boards.RowLineLayout | lab3/QA_Lab3_Malanichev/ChessKing/main.py:120-126 | a line is 17 characters: the eight cells of its row and a newline at position 16 |
| Boards.LinesLayout | lab3/QA_Lab3_Malanichev/ChessKing/main.py:119-126 | the first k lines take 17k characters, and line i is the line of row 7 - i |
| Boards.Grid | lab3/QA_Lab3_Malanichev/ChessKing/main.py:117-127 | no contract: the whole view, rows 7 down to 0; pinned down by GridLayout, GridCells and GridCell |
| Boards.GridLayout | lab3/QA_Lab3_Malanichev/ChessKing/main.py:117-127 | the view is 136 characters in 8 lines that end in a newline, and line i shows row 7 - i |
| Boards.GridCells | lab3/QA_Lab3_Malanichev/ChessKing/main.py:119-125 | for every square (x, y) of the 8x8 board, its symbol is at 17(7 - y) + 2x and is followed by a space |
| Boards.GridCell | lab3/QA_Lab3_Malanichev/ChessKing/main.py:117-127 | the character for square (x, y) of the board is at 17(7 - y) + 2x and is followed by a space |
| Boards.GridShowsOccupancy | lab3/QA_Lab3_Malanichev/ChessKing/main.py:122-125 | a square of the view shows '.' exactly when that square is empty |
| Boards.Board.Valid | lab3/QA_Lab3_Malanichev/ChessKing/main.py:98-112 | no contract: the board invariant, each key holds a piece whose position is that key; preserved by PlacePiece and MovePiece, and gives NoPieceTwice |
| Boards.Board.NoPieceTwice | lab3/QA_Lab3_Malanichev/ChessKing/main.py:98-112 | on a board where each key holds a piece standing on that key, no piece object is stored under two keys |
| Boards.Board.constructor | lab3/QA_Lab3_Malanichev/ChessKing/main.py:97-98 | a new board is empty and satisfies the invariant |
| Boards.Board.PlacePiece | lab3/QA_Lab3_Malanichev/ChessKing/main.py:100-103 | placement fails exactly when the piece's square is already a key, and then the map is unchanged; otherwise the map gains exactly that one entry; the invariant is preserved |
| Boards.Board.MovePiece | lab3/QA_Lab3_Malanichev/ChessKing/main.py:105-115 | the outcome and the new map are MoveResult of the old map, with legality judged on the piece's old state; the piece's position changes exactly on a completed move; a pawn's flag is set by every legal request; the invariant is preserved and a captured piece is off the board |
| Boards.Board.Commit | lab3/QA_Lab3_Malanichev/ChessKing/main.py:107-112 | once a move is legal: capture, then either the KeyError (position unchanged) or the relocation, as MoveResult states |
| Boards.Board.RemoveOccupant | lab3/QA_Lab3_Malanichev/ChessKing/main.py:107-109 | the destination's occupant, if any, is reported and deleted, and nothing else changes |
| Boards.Board.Relocate | lab3/QA_Lab3_Malanichev/ChessKing/main.py:110-112 | the mover's old key is deleted, its position set, and it is stored under the new key; no other piece appears; the invariant is preserved |
| Boards.Board.Render | lab3/QA_Lab3_Malanichev/ChessKing/main.py:117-127 | the outer loop over rows 7 down to 0 builds exactly Grid of the board |
| Boards.Board.RenderRow | lab3/QA_Lab3_Malanichev/ChessKing/main.py:120-126 | the inner loop over columns 0 to 7 builds exactly the line of row y: each cell the occupant's first description character and a space, or ". ", then a newline |
| Scenarios.SetUpDemonstration | lab3/QA_Lab3_Malanichev/ChessKing/main.py:132-140 | both placements of the demonstration succeed and the board holds exactly the two pieces |
| Scenarios.PlayDemonstration | lab3/QA_Lab3_Malanichev/ChessKing/main.py:132-149 | both moves of the demonstration succeed and leave exactly the pawn on (0, 3) and the knight on (2, 5) |
| Scenarios.Demonstration | lab3/QA_Lab3_Malanichev/ChessKing/main.py:132-149 | the demonstration's placements and moves all succeed and its pieces end on (0, 3) and (2, 5) |
| Scenarios.DemonstrationInitialView | lab3/QA_Lab3_Malanichev/ChessKing/main.py:142-143 | the first printed view shows 'B' at column 1 of line 0, 'W' at column 0 of line 6, and '.' on the pawn's target square |
| Scenarios.DemonstrationFinalView | lab3/QA_Lab3_Malanichev/ChessKing/main.py:151-152 | the second printed view shows 'W' on row 3 and 'B' on row 5 and '.' on both vacated squares |
| Scenarios.PawnDoubleStepOnce | lab3/QA_Lab3_Malanichev/ChessKing/main.py:56-63 | after its double first step a pawn is refused a second double step |
| Scenarios.KnightJumps | lab3/QA_Lab3_Malanichev/ChessKing/main.py:77-85 | a knight makes two L-jumps in a row but is refused a straight step |
| Scenarios.PlacementConflict | lab3/QA_Lab3_Malanichev/ChessKing/main.py:100-103 | a second piece on an occupied square is refused and the first stays |
| Scenarios.BlackPawnStepsDown | lab3/QA_Lab3_Malanichev/ChessKing/main.py:50-56 | a black pawn may step down the board but not up |
| Scenarios.KnightCapturesPawn | lab3/QA_Lab3_Malanichev/ChessKing/main.py:107-112 | a knight jumping onto a white pawn captures it, leaving one piece and its old square free |
| Scenarios.ProbeMarksPawn | lab3/QA_Lab3_Malanichev/ChessKing/main.py:61-63 | asking a pawn about its double step marks it as moved, so the board then refuses that same double step |

## Left out

- Console output: the three notices of `move_piece` are returned as `MoveOutcome` values, and the demonstration's prints of the board are the `view` results of the scenario methods.
- Exceptions: the `ValueError` and `KeyError` are outcome values. After the `KeyError` the map has already lost the destination's occupant, and the model keeps that.
- `GameObject`, the abstract `Piece.is_valid_move` that raises `NotImplementedError`, and `Piece.__str__`: the closed `Kind` datatype stands for the class chain.
- The full text of `__str__`: only the colour word and the kind are modelled (`Describe`), not the trailing " at (x, y)" with Python's tuple formatting, because the view uses only the first character.
- Colour strings: the model has only the program's two colours, "white" and "black". The move direction treats any string other than "white" as black, but the description and the view use the capitalised first letter of the actual string. So a "red" piece would show 'R', a "White" piece would move down yet show 'W', and a string starting with '.' would make an occupied square look empty. Colour strings other than the two are not modelled, and `GridShowsOccupancy` holds for the two modelled colours only.
- Knights: the model's single `Piece` class gives knights a has-moved flag they never read or write. The Python knight has no such attribute.
- Boards.Board.Render: the source's two nested loops are one method per loop here (`Render` over rows, `RenderRow` over the columns of one row); the order of cells and rows is the same.
- Board bounds: the program checks none, so squares are unbounded integer pairs. The view shows only columns and rows 0 to 7.
- Boards.Board.MovePiece: the invariant is proved only for boards that satisfy it beforehand (`old(Valid()) ==> Valid()`), and off-board movers are covered by `MissingKey` and not by a precondition.
