/**
 * Cells, facings and the view of the level's grid that the rules read.
 *
 * The level object itself (GridLevel) is not part of this model: what the
 * rules ask of it (which object sits in a cell, whether a cell is empty, the
 * row and column counts, the cell size) is captured as a `Board` value, and
 * the base class of every grid object as the `GridObject` class below.
 */
module Grid {

  datatype Option<T> = None | Some(value: T)

  /** The identity of a gotchi standing for the object reference the source stores. */
  type GotchiId = nat

  /** The four facings of a gotchi. */
  datatype Direction = Down | Left | Up | Right

  /** A grid cell; rows grow downwards, columns to the right. */
  datatype Pos = Pos(row: int, col: int)

  function RowStep(d: Direction): int
  {
    match d
    case Down => 1
    case Up => -1
    case _ => 0
  }

  function ColStep(d: Direction): int
  {
    match d
    case Right => 1
    case Left => -1
    case _ => 0
  }

  /** The cell one step from p in direction d (not bounds-checked). */
  function Neighbor(p: Pos, d: Direction): Pos
  {
    Pos(p.row + RowStep(d), p.col + ColStep(d))
  }

  /** The facing that looks straight back along d. */
  function Opposite(d: Direction): (r: Direction)
    ensures RowStep(r) == -RowStep(d) && ColStep(r) == -ColStep(d)
  {
    match d
    case Down => Up
    case Up => Down
    case Left => Right
    case Right => Left
  }

  /** rotateCW: UP, RIGHT, DOWN, LEFT, UP. */
  function Clockwise(d: Direction): (r: Direction)
    // a quarter turn clockwise on a screen whose rows grow downwards
    ensures RowStep(r) == ColStep(d) && ColStep(r) == -RowStep(d)
  {
    match d
    case Up => Right
    case Right => Down
    case Down => Left
    case Left => Up
  }

  /** rotateACW: UP, LEFT, DOWN, RIGHT, UP. */
  function Anticlockwise(d: Direction): (r: Direction)
    ensures RowStep(r) == -ColStep(d) && ColStep(r) == RowStep(d)
  {
    match d
    case Up => Left
    case Left => Down
    case Down => Right
    case Right => Up
  }

  lemma ClockwiseInverse(d: Direction)
    ensures Anticlockwise(Clockwise(d)) == d && Clockwise(Anticlockwise(d)) == d
  {
  }

  lemma FourQuarterTurns(d: Direction)
    ensures Clockwise(Clockwise(Clockwise(Clockwise(d)))) == d
    ensures Clockwise(Clockwise(d)) == Opposite(d)
  {
  }

  /** Stepping along d and then along e comes back exactly when e is the opposite of d. */
  lemma StepBack(p: Pos, d: Direction, e: Direction)
    ensures Neighbor(Neighbor(p, d), e) == p <==> e == Opposite(d)
  {
  }

  /** Follower slot order: 0 down, 1 left, 2 up, 3 right. */
  function SlotDir(i: int): Direction
    requires 0 <= i < 4
  {
    if i == 0 then Down else if i == 1 then Left else if i == 2 then Up else Right
  }

  /** The kind of object a cell of the level holds (the object's getType()). */
  datatype Occupant =
    | GotchiCell(id: GotchiId)
    | EmptyCell
    | PortalCell
    | GrenadeCell
    | MilkshakeCell
    | CactiCell
    | InactiveCell

  /**
   * What the rules read from the level at one moment: the row and column
   * counts, the cell size in pixels, the object of each cell (a cell absent
   * from `cells` has no object), and the facing of every gotchi.
   */
  datatype Board = Board(rows: int, cols: int, gridSize: int,
                         cells: map<Pos, Occupant>, dirs: map<GotchiId, Direction>)
  {
    /** Every gotchi on the board has a facing. */
    ghost predicate Valid()
    {
      forall p :: p in cells && cells[p].GotchiCell? ==> cells[p].id in dirs
    }

    /** No gotchi stands in two cells. */
    ghost predicate UniqueIds()
    {
      forall p, q :: p in cells && q in cells && cells[p].GotchiCell? && cells[p] == cells[q] ==> p == q
    }

    /** isGridPositionEmpty: no object, or the empty placeholder object. */
    predicate IsEmpty(p: Pos)
    {
      p !in cells || cells[p] == EmptyCell
    }

    predicate InBounds(p: Pos)
    {
      0 <= p.row < rows && 0 <= p.col < cols
    }

    predicate HasGotchi(p: Pos)
    {
      p in cells && cells[p].GotchiCell?
    }

    /** The gotchi standing at q looks into cell p. */
    ghost predicate LooksAt(q: Pos, p: Pos)
      requires Valid() && HasGotchi(q)
    {
      Neighbor(q, dirs[cells[q].id]) == p
    }
  }

  /**
   * The part of every grid object that the drag handlers touch: the cell it
   * is recorded in and its pixel coordinates.
   */
  class GridObject {
    var row: int
    var col: int
    var x: int
    var y: int

    constructor (row: int, col: int, x: int, y: int)
      ensures this.row == row && this.col == col && this.x == x && this.y == y
    {
      this.row, this.col, this.x, this.y := row, col, x, y;
    }

    function Position(): Pos
      reads this
    {
      Pos(row, col)
    }

    /** setGridPosition, as far as the object's own record of its cell goes. */
    method SetGridPosition(p: Pos)
      modifies this`row, this`col
      ensures Position() == p
    {
      row, col := p.row, p.col;
    }
  }
}
