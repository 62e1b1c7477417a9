/** Pieces of the ChessKing board: colours, kinds, the per-kind move rules and
    the mutable piece object that the board stores. */
module Pieces {

  /** The owning side. Only "white" moves up the board; every other colour moves down. */
  datatype Color = White | Black

  /** The closed set of piece kinds the program implements. */
  datatype Kind = Pawn | Knight

  /** A square as (column, row). No range is enforced, so both are unbounded. */
  type Position = (int, int)

  /** The capitalised colour word that starts a piece's description. */
  function ColorName(c: Color): string
  {
    match c
    case White => "White"
    case Black => "Black"
  }

  function KindName(k: Kind): string
  {
    match k
    case Pawn => "Pawn"
    case Knight => "Knight"
  }

  /** The upper-case initial that the board shows for a piece of colour c. */
  function ColorInitial(c: Color): char
  {
    match c
    case White => 'W'
    case Black => 'B'
  }

  /** The description of a piece without its trailing " at (x, y)": the colour word,
      a space and the kind. Its first character is the colour initial whatever the
      kind, so the two kinds look alike on the rendered board. */
  function Describe(kind: Kind, color: Color): (s: string)
    ensures |s| > 1 && s[0] == ColorInitial(color)
  {
    ColorName(color) + " " + KindName(kind)
  }

  /** Row step of a forward pawn move. */
  function Direction(c: Color): int
  {
    if c == White then 1 else -1
  }

  function Abs(n: int): nat
  {
    if n < 0 then -n else n
  }

  /** The pawn rule: one square forward, or two forward before its first move. */
  predicate PawnMove(color: Color, hasMoved: bool, from: Position, to: Position)
  {
    var dx := to.0 - from.0;
    var dy := to.1 - from.1;
    var direction := Direction(color);
    (dx == 0 && dy == direction) || (!hasMoved && dx == 0 && dy == 2 * direction)
  }

  /** The knight rule: two squares along one axis and one along the other. */
  predicate KnightMove(from: Position, to: Position)
  {
    var dx := Abs(to.0 - from.0);
    var dy := Abs(to.1 - from.1);
    (dx == 2 && dy == 1) || (dx == 1 && dy == 2)
  }

  /** The rule of a piece of the given kind, colour and pawn state. A legal move
      always leaves the square it starts from. */
  function LegalMove(kind: Kind, color: Color, hasMoved: bool, from: Position, to: Position): (legal: bool)
    ensures legal ==> to != from
  {
    match kind
    case Pawn => PawnMove(color, hasMoved, from, to)
    case Knight => KnightMove(from, to)
  }

  // ---------------------------------------------------------------------------
  // Reference definitions: the squares each rule allows, listed outright.

  /** The squares a pawn may move to: the square ahead, and the one beyond it while
      the pawn has not moved. */
  function PawnTargets(color: Color, hasMoved: bool, from: Position): set<Position>
  {
    var d := Direction(color);
    {(from.0, from.1 + d)} + (if hasMoved then {} else {(from.0, from.1 + 2 * d)})
  }

  /** The eight knight offsets. */
  const KnightOffsets: set<(int, int)> :=
    {(1, 2), (2, 1), (2, -1), (1, -2), (-1, -2), (-2, -1), (-2, 1), (-1, 2)}

  function KnightTargets(from: Position): set<Position>
  {
    var (x, y) := from;
    {(x + 1, y + 2), (x + 2, y + 1), (x + 2, y - 1), (x + 1, y - 2),
     (x - 1, y - 2), (x - 2, y - 1), (x - 2, y + 1), (x - 1, y + 2)}
  }

  function Targets(kind: Kind, color: Color, hasMoved: bool, from: Position): set<Position>
  {
    match kind
    case Pawn => PawnTargets(color, hasMoved, from)
    case Knight => KnightTargets(from)
  }

  /** The rules agree with the listed target squares. */
  lemma LegalMoveTargets(kind: Kind, color: Color, hasMoved: bool, from: Position, to: Position)
    ensures LegalMove(kind, color, hasMoved, from, to) <==> to in Targets(kind, color, hasMoved, from)
  {
    match kind
    case Pawn => PawnMoveTargets(color, hasMoved, from, to);
    case Knight => KnightMoveOffsets(from, to);
  }

  lemma PawnMoveTargets(color: Color, hasMoved: bool, from: Position, to: Position)
    ensures PawnMove(color, hasMoved, from, to) <==> to in PawnTargets(color, hasMoved, from)
  {
  }

  /** A pawn that has not moved has two targets, one that has moved has one, and
      neither is its own square. */
  lemma PawnTargetCount(color: Color, hasMoved: bool, from: Position)
    ensures |PawnTargets(color, hasMoved, from)| == if hasMoved then 1 else 2
    ensures from !in PawnTargets(color, hasMoved, from)
  {
  }

  lemma KnightMoveOffsets(from: Position, to: Position)
    ensures KnightMove(from, to) <==> (to.0 - from.0, to.1 - from.1) in KnightOffsets
    ensures KnightMove(from, to) <==> to in KnightTargets(from)
  {
  }

  /** The offsets are eight distinct pairs, and the null offset is not one of them. */
  lemma KnightOffsetCount()
    ensures |KnightOffsets| == 8 && (0, 0) !in KnightOffsets
  {
    KnightTargetCount((0, 0));
    assert KnightOffsets == KnightTargets((0, 0));
  }

  /** Exactly eight distinct destinations, and staying put is never one of them. */
  lemma KnightTargetCount(from: Position)
    ensures |KnightTargets(from)| == 8 && from !in KnightTargets(from)
  {
  }

  // ---------------------------------------------------------------------------
  // The piece object.

  /** A piece on or off the board. Position and the pawn's has-moved flag change in
      place; kind and colour are fixed at construction. Knights carry the flag too
      but never touch it. */
  class Piece {
    const kind: Kind
    const color: Color
    var position: Position
    var hasMoved: bool

    constructor (kind: Kind, position: Position, color: Color)
      ensures this.kind == kind && this.color == color
      ensures this.position == position && !hasMoved
    {
      this.kind := kind;
      this.color := color;
      this.position := position;
      hasMoved := false;
    }

    /** Whether newPosition is a legal move from the current position. A pawn
        records that it has moved every time it answers yes, whether or not the
        move is then made; a knight changes nothing. */
    method IsValidMove(newPosition: Position) returns (ok: bool)
      modifies this`hasMoved
      ensures ok == LegalMove(kind, color, old(hasMoved), position, newPosition)
      ensures hasMoved == (old(hasMoved) || (kind == Pawn && ok))
    {
      match kind
      case Pawn =>
        var dx := newPosition.0 - position.0;
        var dy := newPosition.1 - position.1;
        var direction := if color == White then 1 else -1;
        if dx == 0 && dy == direction {
          hasMoved := true;
          return true;
        }
        if !hasMoved && dx == 0 && dy == 2 * direction {
          hasMoved := true;
          return true;
        }
        return false;
      case Knight =>
        var dx := Abs(newPosition.0 - position.0);
        var dy := Abs(newPosition.1 - position.1);
        ok := (dx == 2 && dy == 1) || (dx == 1 && dy == 2);
    }
  }
}
