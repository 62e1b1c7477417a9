/** The ChessKing board: a dictionary from squares to the pieces standing on them,
    with placement, moves (with capture) and the 8x8 text view. */
module Boards {
  import opened Pieces

  /** What a call to MovePiece reports. The program prints these as notices; a
      KeyError raised while deleting the mover's old square becomes MissingKey. */
  datatype MoveOutcome =
    | Invalid                    // "Invalid move!": nothing changed
    | Moved                      // the mover went to an empty square
    | Captured(victim: Piece)    // the occupant was removed, then the mover went there
    | MissingKey                 // legal, but the mover's square was not a key (KeyError)

  /** What a call to PlacePiece reports: success, or ValueError "Position already occupied". */
  datatype PlaceOutcome = Placed | Occupied

  /** No piece object is stored under two squares. */
  predicate Injective(m: map<Position, Piece>)
  {
    forall p, q :: p in m && q in m && m[p] == m[q] ==> p == q
  }

  /** The map after the mover leaves `from` for `to`: the occupant of `to` removed,
      the key `from` removed, and `to` mapped to the mover. Every other entry is
      kept as it was. */
  function Relocated(m: map<Position, Piece>, from: Position, to: Position, mover: Piece)
    : (r: map<Position, Piece>)
    ensures to in r && r[to] == mover
    ensures from != to ==> from !in r
    ensures forall k :: k != from && k != to ==> (k in r <==> k in m) && (k in r ==> r[k] == m[k])
  {
    (m - {to} - {from})[to := mover]
  }

  /** A move keeps the number of pieces, except that a capture removes one. */
  lemma RelocatedSize(m: map<Position, Piece>, from: Position, to: Position, mover: Piece)
    requires from in m && from != to
    ensures |Relocated(m, from, to, mover)| == if to in m then |m| - 1 else |m|
  {
  }

  /** When the mover stands on no square other than `from`, the captured occupant
      of `to` is no longer anywhere on the board, and no piece stands on two squares
      afterwards. */
  lemma RelocatedCapture(m: map<Position, Piece>, from: Position, to: Position, mover: Piece)
    requires Injective(m) && from != to
    requires forall k :: k in m && m[k] == mover ==> k == from
    ensures Injective(Relocated(m, from, to, mover))
    ensures to in m ==> m[to] !in Relocated(m, from, to, mover).Values
  {
  }

  /** The answer and the new map of a move request, given whether the piece's rule
      allows it: nothing happens when it does not; otherwise the occupant of `to`
      is removed, and then either the mover's square `from` is not a key (the
      KeyError) or the mover is relocated. */
  function MoveResult(m: map<Position, Piece>, from: Position, to: Position, mover: Piece, legal: bool)
    : (MoveOutcome, map<Position, Piece>)
  {
    if !legal then (Invalid, m)
    else if from !in m - {to} then (MissingKey, m - {to})
    else (if to in m then Captured(m[to]) else Moved, Relocated(m, from, to, mover))
  }

  /** A legal move of a piece whose square is a key: the destination holds the
      mover, the old square is free, any earlier occupant is reported as captured,
      every other entry is kept, and the map shrinks by one exactly on a capture. */
  lemma LegalMoveResult(m: map<Position, Piece>, from: Position, to: Position, mover: Piece)
    requires from in m && from != to
    ensures var (outcome, r) := MoveResult(m, from, to, mover, true);
      && (outcome == if to in m then Captured(m[to]) else Moved)
      && to in r && r[to] == mover && from !in r
      && (forall k :: k != from && k != to ==> (k in r <==> k in m) && (k in r ==> r[k] == m[k]))
      && |r| == if to in m then |m| - 1 else |m|
  {
    RelocatedSize(m, from, to, mover);
  }

  /** A refused move changes nothing, and a move whose mover is not stored under
      its own square changes only by the removal of the destination's occupant. */
  lemma OtherMoveResults(m: map<Position, Piece>, from: Position, to: Position, mover: Piece, legal: bool)
    ensures !legal ==> MoveResult(m, from, to, mover, legal) == (Invalid, m)
    ensures legal && from !in m && from != to ==>
      MoveResult(m, from, to, mover, legal) == (MissingKey, m - {to}) && |m - {to}| == if to in m then |m| - 1 else |m|
  {
  }

  // ---------------------------------------------------------------------------
  // The text view.

  /** The character shown for square (x, y): the occupant's colour initial, or '.'. */
  function CellSymbol(m: map<Position, Piece>, x: int, y: int): char
  {
    if (x, y) in m then ColorInitial(m[(x, y)].color) else '.'
  }

  /** The two characters of one cell: the first character of the occupant's
      description followed by a space, or ". " when the square is empty. */
  function CellText(m: map<Position, Piece>, x: int, y: int): (cell: string)
    ensures cell == [CellSymbol(m, x, y), ' ']
  {
    if (x, y) in m then [Describe(m[(x, y)].kind, m[(x, y)].color)[0], ' '] else ". "
  }

  /** The first n cells of row y, columns 0 to n - 1. */
  function RowCells(m: map<Position, Piece>, y: int, n: nat): string
  {
    if n == 0 then "" else RowCells(m, y, n - 1) + CellText(m, n - 1, y)
  }

  /** One full line of the view: the eight cells of row y and a newline. */
  function RowLine(m: map<Position, Piece>, y: int): string
  {
    RowCells(m, y, 8) + "\n"
  }

  /** The first k lines of the view, which show rows 7 down to 8 - k. */
  function Lines(m: map<Position, Piece>, k: nat): string
  {
    if k == 0 then "" else Lines(m, k - 1) + RowLine(m, 8 - k)
  }

  /** The whole view: rows 7 down to 0. */
  function Grid(m: map<Position, Piece>): string
  {
    Lines(m, 8)
  }

  lemma {:induction false} RowCellsLayout(m: map<Position, Piece>, y: int, n: nat)
    ensures |RowCells(m, y, n)| == 2 * n
    ensures forall x :: 0 <= x < n ==>
      RowCells(m, y, n)[2 * x] == CellSymbol(m, x, y) && RowCells(m, y, n)[2 * x + 1] == ' '
  {
    if n > 0 {
      RowCellsLayout(m, y, n - 1);
    }
  }

  /** Line i of a text made of 17-character lines (16 characters and a newline). */
  function Line(s: string, i: nat): string
    requires 17 * i + 17 <= |s|
  {
    s[17 * i .. 17 * i + 17]
  }

  lemma RowLineLayout(m: map<Position, Piece>, y: int)
    ensures |RowLine(m, y)| == 17 && RowLine(m, y)[16] == '\n'
    ensures forall x :: 0 <= x < 8 ==>
      RowLine(m, y)[2 * x] == CellSymbol(m, x, y) && RowLine(m, y)[2 * x + 1] == ' '
  {
    RowCellsLayout(m, y, 8);
  }

  lemma {:induction false} LinesLayout(m: map<Position, Piece>, k: nat)
    ensures |Lines(m, k)| == 17 * k
    ensures forall i :: 0 <= i < k ==> Line(Lines(m, k), i) == RowLine(m, 7 - i)
  {
    if k > 0 {
      LinesLayout(m, k - 1);
      RowLineLayout(m, 8 - k);
      var prev := Lines(m, k - 1);
      var all := Lines(m, k);
      assert all == prev + RowLine(m, 8 - k);
      forall i | 0 <= i < k
        ensures Line(all, i) == RowLine(m, 7 - i)
      {
        if i < k - 1 {
          assert Line(all, i) == Line(prev, i);
        } else {
          assert all[17 * i ..] == RowLine(m, 8 - k);
        }
      }
    }
  }

  /** The lines of the view: 136 characters in 8 lines of 17. Line i shows row
      7 - i and ends in a newline. */
  lemma GridLayout(m: map<Position, Piece>)
    ensures |Grid(m)| == 136
    ensures forall i :: 0 <= i < 8 ==> Line(Grid(m), i) == RowLine(m, 7 - i) && Line(Grid(m), i)[16] == '\n'
  {
    LinesLayout(m, 8);
    forall i | 0 <= i < 8
      ensures Line(Grid(m), i)[16] == '\n'
    {
      RowLineLayout(m, 7 - i);
    }
  }

  /** The cells of the view: the symbol of square (x, y) is at 17 (7 - y) + 2 x and
      is followed by a space, for every square of the 8x8 board. */
  lemma GridCells(m: map<Position, Piece>)
    ensures |Grid(m)| == 136
    ensures forall x, y :: 0 <= x < 8 && 0 <= y < 8 ==>
      Grid(m)[17 * (7 - y) + 2 * x] == CellSymbol(m, x, y) && Grid(m)[17 * (7 - y) + 2 * x + 1] == ' '
  {
    GridCell(m, 0, 0);
    forall x, y | 0 <= x < 8 && 0 <= y < 8
      ensures Grid(m)[17 * (7 - y) + 2 * x] == CellSymbol(m, x, y) && Grid(m)[17 * (7 - y) + 2 * x + 1] == ' '
    {
      GridCell(m, x, y);
    }
  }

  lemma GridCell(m: map<Position, Piece>, x: int, y: int)
    requires 0 <= x < 8 && 0 <= y < 8
    ensures |Grid(m)| == 136
    ensures Grid(m)[17 * (7 - y) + 2 * x] == CellSymbol(m, x, y) && Grid(m)[17 * (7 - y) + 2 * x + 1] == ' '
  {
    LinesLayout(m, 8);
    RowLineLayout(m, y);
    var line := Line(Grid(m), 7 - y);
    assert line == RowLine(m, y);
    assert Grid(m)[17 * (7 - y) + 2 * x] == line[2 * x];
    assert Grid(m)[17 * (7 - y) + 2 * x + 1] == line[2 * x + 1];
  }

  /** A rendered square shows '.' exactly when it is empty. */
  lemma GridShowsOccupancy(m: map<Position, Piece>, x: int, y: int)
    requires 0 <= x < 8 && 0 <= y < 8
    ensures |Grid(m)| == 136
    ensures Grid(m)[17 * (7 - y) + 2 * x] == '.' <==> (x, y) !in m
  {
    GridCell(m, x, y);
  }

  // ---------------------------------------------------------------------------
  // The board object.

  class Board {
    var pieces: map<Position, Piece>

    /** Every square maps to a piece whose own position is that square. */
    ghost predicate Valid()
      reads this, pieces.Values`position
    {
      forall p :: p in pieces ==> pieces[p].position == p
    }

    /** On a valid board no piece object stands on two squares. */
    lemma NoPieceTwice()
      requires Valid()
      ensures Injective(pieces)
    {
    }

    constructor ()
      ensures Valid() && pieces == map[]
    {
      pieces := map[];
    }

    /** Put piece on its own square, unless that square is already a key. */
    method PlacePiece(piece: Piece) returns (outcome: PlaceOutcome)
      modifies this
      ensures outcome == Occupied <==> piece.position in old(pieces)
      ensures pieces == if outcome == Occupied then old(pieces) else old(pieces)[piece.position := piece]
      ensures old(Valid()) ==> Valid()
    {
      if piece.position in pieces {
        return Occupied;
      }
      pieces := pieces[piece.position := piece];
      outcome := Placed;
    }

    /** Ask the piece whether newPosition is legal (which marks a pawn as moved
        when it is); if so, remove any occupant of newPosition, delete the mover's
        old square, update its position and store it at newPosition. */
    method MovePiece(piece: Piece, newPosition: Position) returns (outcome: MoveOutcome)
      modifies this, piece
      ensures (outcome, pieces) ==
        MoveResult(old(pieces), old(piece.position), newPosition, piece,
                   LegalMove(piece.kind, piece.color, old(piece.hasMoved), old(piece.position), newPosition))
      ensures piece.position == if outcome == Moved || outcome.Captured? then newPosition else old(piece.position)
      ensures piece.hasMoved == (old(piece.hasMoved) || (piece.kind == Pawn && outcome != Invalid))
      ensures old(Valid()) ==> Valid()
      ensures old(Valid()) && outcome.Captured? ==> outcome.victim !in pieces.Values
    {
      var legal := piece.IsValidMove(newPosition);
      if !legal {
        return Invalid;
      }
      outcome := Commit(piece, newPosition);
    }

    /** The second half of MovePiece, once the move is known to be legal (and so
        to leave its square): capture, delete the old key, update the position and
        re-insert. Deleting a key that is not there is the KeyError, reported as
        MissingKey after any capture has already happened. */
    method Commit(piece: Piece, newPosition: Position) returns (outcome: MoveOutcome)
      requires newPosition != piece.position
      modifies this, piece`position
      ensures (outcome, pieces) == MoveResult(old(pieces), old(piece.position), newPosition, piece, true)
      ensures piece.position == if outcome == MissingKey then old(piece.position) else newPosition
      ensures old(Valid()) ==> Valid()
      ensures old(Valid()) && outcome.Captured? ==> outcome.victim !in pieces.Values
    {
      ghost var before := pieces;
      ghost var from := piece.position;
      outcome := RemoveOccupant(newPosition);
      if piece.position !in pieces {
        return MissingKey;
      }
      Relocate(piece, newPosition);
      assert pieces == Relocated(before, from, newPosition, piece);
    }

    /** Capture: delete whatever stands on square. */
    method RemoveOccupant(square: Position) returns (outcome: MoveOutcome)
      modifies this
      ensures outcome == if square in old(pieces) then Captured(old(pieces)[square]) else Moved
      ensures pieces == old(pieces) - {square}
      ensures old(Valid()) ==> Valid()
      ensures old(Valid()) && outcome.Captured? ==>
        outcome.victim !in pieces.Values && outcome.victim.position == square
    {
      if square in pieces {
        outcome := Captured(pieces[square]);
        pieces := pieces - {square};
      } else {
        outcome := Moved;
      }
    }

    /** Delete the mover's old key, set its position and store it under the new one. */
    method Relocate(piece: Piece, newPosition: Position)
      requires piece.position in pieces && newPosition !in pieces
      modifies this, piece`position
      ensures piece.position == newPosition
      ensures pieces == (old(pieces) - {old(piece.position)})[newPosition := piece]
      ensures forall v :: v in pieces.Values ==> v == piece || v in old(pieces.Values)
      ensures old(Valid()) ==> Valid()
    {
      ghost var wasValid := Valid();
      ghost var before := pieces;
      assert wasValid ==> forall k :: k in before && before[k] == piece ==> k == piece.position;
      pieces := pieces - {piece.position};
      piece.position := newPosition;
      pieces := pieces[newPosition := piece];
      if wasValid {
        forall p | p in pieces
          ensures pieces[p].position == p
        {
          if p != newPosition {
            assert pieces[p] == before[p];
          }
        }
      }
    }

    /** The 8x8 text view: rows 7 down to 0, columns 0 to 7. */
    method Render() returns (s: string)
      ensures s == Grid(pieces)
    {
      s := "";
      for y := 8 downto 0
        invariant s == Lines(pieces, 8 - y)
      {
        var row := RenderRow(y);
        s := s + row;
      }
    }

    /** The inner loop of Render: the eight cells of row y, columns 0 to 7, and a
        newline. A cell is the first character of the occupant's description and a
        space, or ". " when the square is empty. */
    method RenderRow(y: int) returns (row: string)
      ensures row == RowLine(pieces, y)
    {
      row := "";
      for x := 0 to 8
        invariant row == RowCells(pieces, y, x)
      {
        var pos := (x, y);
        var cell;
        if pos in pieces {
          cell := [Describe(pieces[pos].kind, pieces[pos].color)[0], ' '];
        } else {
          cell := ". ";
        }
        assert cell == CellText(pieces, x, y);
        row := row + cell;
      }
      row := row + "\n";
    }
  }
}
