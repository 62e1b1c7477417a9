/** Concrete runs of the board: the program's own demonstration and a few short
    sequences that exercise the rules, the capture and the pawn's has-moved quirk. */
module Scenarios {
  import opened Pieces
  import opened Boards

  /** The demonstration: a white pawn on (0, 1) and a black knight on (1, 7) are
      placed; the pawn makes its double first step to (0, 3) and the knight jumps
      to (2, 5). Both placements and both moves succeed. */
  method PlayDemonstration() returns (board: Board, whitePawn: Piece, blackKnight: Piece,
                                      placed: seq<PlaceOutcome>, moves: seq<MoveOutcome>)
    ensures fresh(board) && fresh(whitePawn) && fresh(blackKnight)
    ensures whitePawn.kind == Pawn && whitePawn.color == White
    ensures blackKnight.kind == Knight && blackKnight.color == Black
    ensures placed == [Placed, Placed] && moves == [Moved, Moved]
    ensures whitePawn.position == (0, 3) && blackKnight.position == (2, 5)
    ensures board.pieces == map[(0, 3) := whitePawn, (2, 5) := blackKnight]
  {
    board, whitePawn, blackKnight, placed := SetUpDemonstration();
    var m1 := board.MovePiece(whitePawn, (0, 3));
    assert board.pieces == map[(0, 3) := whitePawn, (1, 7) := blackKnight];
    var m2 := board.MovePiece(blackKnight, (2, 5));
    moves := [m1, m2];
  }

  /** The demonstration's two placements, both of which succeed. */
  method SetUpDemonstration() returns (board: Board, whitePawn: Piece, blackKnight: Piece,
                                       placed: seq<PlaceOutcome>)
    ensures fresh(board) && fresh(whitePawn) && fresh(blackKnight)
    ensures whitePawn.kind == Pawn && whitePawn.color == White && !whitePawn.hasMoved
    ensures blackKnight.kind == Knight && blackKnight.color == Black
    ensures whitePawn.position == (0, 1) && blackKnight.position == (1, 7)
    ensures placed == [Placed, Placed]
    ensures board.pieces == map[(0, 1) := whitePawn, (1, 7) := blackKnight]
  {
    board := new Board();
    whitePawn := new Piece(Pawn, (0, 1), White);
    blackKnight := new Piece(Knight, (1, 7), Black);
    var p1 := board.PlacePiece(whitePawn);
    var p2 := board.PlacePiece(blackKnight);
    placed := [p1, p2];
  }

  /** The outcomes of the demonstration and where its two pieces end up. */
  method Demonstration() returns (placed: seq<PlaceOutcome>, moves: seq<MoveOutcome>, squares: seq<Position>)
    ensures placed == [Placed, Placed]
    ensures moves == [Moved, Moved]
    ensures squares == [(0, 3), (2, 5)]
  {
    var board, whitePawn, blackKnight;
    board, whitePawn, blackKnight, placed, moves := PlayDemonstration();
    squares := [whitePawn.position, blackKnight.position];
  }

  /** The view the demonstration prints first: line 0 (row 7) shows the knight's
      'B' in column 1 and line 6 (row 1) the pawn's 'W' in column 0. */
  method DemonstrationInitialView() returns (view: string)
    ensures |view| == 136
    ensures view[17 * 0 + 2 * 1] == 'B' && view[17 * 6 + 2 * 0] == 'W'
    ensures view[17 * 4 + 2 * 0] == '.'
  {
    var board, _, _, _ := SetUpDemonstration();
    view := board.Render();
    GridCell(board.pieces, 1, 7);
    GridCell(board.pieces, 0, 1);
    GridCell(board.pieces, 0, 3);
  }

  /** The view the demonstration prints after the two moves: the pawn's 'W' on
      row 3 (line 4), the knight's 'B' on row 5 (line 2), and the squares they
      left shown as '.'. */
  method DemonstrationFinalView() returns (view: string)
    ensures |view| == 136
    ensures view[17 * 4 + 2 * 0] == 'W' && view[17 * 2 + 2 * 2] == 'B'
    ensures view[17 * 0 + 2 * 1] == '.' && view[17 * 6 + 2 * 0] == '.'
  {
    var board, _, _, _, _ := PlayDemonstration();
    view := board.Render();
    GridCell(board.pieces, 0, 3);
    GridCell(board.pieces, 2, 5);
    GridCell(board.pieces, 1, 7);
    GridCell(board.pieces, 0, 1);
  }

  /** After its double step the pawn may not step two again. */
  method PawnDoubleStepOnce() returns (moves: seq<MoveOutcome>, square: Position, moved: bool)
    ensures moves == [Moved, Invalid] && square == (0, 3) && moved
  {
    var board := new Board();
    var whitePawn := new Piece(Pawn, (0, 1), White);
    var _ := board.PlacePiece(whitePawn);
    var m1 := board.MovePiece(whitePawn, (0, 3));
    assert board.pieces == map[(0, 3) := whitePawn];
    var m2 := board.MovePiece(whitePawn, (0, 5));
    moves := [m1, m2];
    square, moved := whitePawn.position, whitePawn.hasMoved;
  }

  /** The knight makes two L-jumps, (1, 7) to (2, 5) to (4, 6), but cannot then
      step straight ahead to (4, 7). */
  method KnightJumps() returns (moves: seq<MoveOutcome>, square: Position)
    ensures moves == [Moved, Moved, Invalid] && square == (4, 6)
  {
    var board := new Board();
    var blackKnight := new Piece(Knight, (1, 7), Black);
    var _ := board.PlacePiece(blackKnight);
    var m1 := board.MovePiece(blackKnight, (2, 5));
    assert board.pieces == map[(2, 5) := blackKnight];
    var m2 := board.MovePiece(blackKnight, (4, 6));
    assert board.pieces == map[(4, 6) := blackKnight];
    var m3 := board.MovePiece(blackKnight, (4, 7));
    moves := [m1, m2, m3];
    square := blackKnight.position;
  }

  /** A second piece may not be placed on an occupied square; the board keeps the first. */
  method PlacementConflict() returns (outcomes: seq<PlaceOutcome>, kept: bool)
    ensures outcomes == [Placed, Occupied] && kept
  {
    var board := new Board();
    var whitePawn := new Piece(Pawn, (0, 1), White);
    var intruder := new Piece(Knight, (0, 1), Black);
    var o1 := board.PlacePiece(whitePawn);
    var o2 := board.PlacePiece(intruder);
    outcomes := [o1, o2];
    kept := board.pieces == map[(0, 1) := whitePawn];
  }

  /** A black pawn steps down the board, from (5, 6) to (5, 5), and not up. */
  method BlackPawnStepsDown() returns (up: MoveOutcome, down: MoveOutcome, square: Position)
    ensures up == Invalid && down == Moved && square == (5, 5)
  {
    var board := new Board();
    var blackPawn := new Piece(Pawn, (5, 6), Black);
    var _ := board.PlacePiece(blackPawn);
    up := board.MovePiece(blackPawn, (5, 7));
    down := board.MovePiece(blackPawn, (5, 5));
    square := blackPawn.position;
  }

  /** A knight that jumps onto a pawn removes it, leaving one entry at the
      destination and none at its old square. */
  method KnightCapturesPawn() returns (capture: MoveOutcome, remaining: nat, vacated: bool)
    ensures capture.Captured? && capture.victim.color == White && capture.victim.kind == Pawn
    ensures remaining == 1 && vacated
  {
    var board := new Board();
    var whitePawn := new Piece(Pawn, (0, 1), White);
    var blackKnight := new Piece(Knight, (1, 3), Black);
    var _ := board.PlacePiece(whitePawn);
    var _ := board.PlacePiece(blackKnight);
    assert board.pieces == map[(0, 1) := whitePawn, (1, 3) := blackKnight];
    capture := board.MovePiece(blackKnight, (0, 1));
    assert board.pieces == map[(0, 1) := blackKnight];
    remaining := |board.pieces|;
    vacated := (1, 3) !in board.pieces;
  }

  /** Merely asking a pawn whether its double step is legal marks it as moved, so
      the same double step is refused when it is then requested on the board. */
  method ProbeMarksPawn() returns (probe: bool, afterProbe: MoveOutcome, square: Position)
    ensures probe && afterProbe == Invalid && square == (3, 1)
  {
    var board := new Board();
    var whitePawn := new Piece(Pawn, (3, 1), White);
    var _ := board.PlacePiece(whitePawn);
    probe := whitePawn.IsValidMove((3, 3));
    afterProbe := board.MovePiece(whitePawn, (3, 3));
    square := whitePawn.position;
  }
}
