/**
 * The drag-constraint rule shared by the three drag handlers (the gotchi's,
 * the milkshake's and the scene-wide one): an origin captured at drag start,
 * a one-time axis lock, per-side limits that open by one cell size only
 * towards an in-range empty neighbour, and a move accepted only strictly
 * inside those limits (never clamped).
 *
 * The three copies differ in their range guards, which `Guards` names; the
 * counter that gates a drag and the counter charged at drag end belong to
 * each handler's class.
 */
module DragProtocol {
  import opened Grid

  /** dragAxis / activeDragObjectAxis. */
  datatype Axis = X | Y | NotAssigned

  /**
   * ObjectGuards: row > 0, row < rows - 1, col > 0, col < cols - 1 (the
   * gotchi and milkshake handlers). SceneGuards: row > 1, row < rows,
   * col > 1, col < cols (the scene-wide handler).
   */
  datatype Guards = ObjectGuards | SceneGuards

  function Abs(n: int): nat
  {
    if n < 0 then -n else n
  }

  /** The range guard of one side, as each copy writes it, for an object in cell p. */
  predicate InRange(g: Guards, b: Board, p: Pos, d: Direction)
  {
    match (g, d)
    case (ObjectGuards, Up) => p.row > 0
    case (ObjectGuards, Down) => p.row < b.rows - 1
    case (ObjectGuards, Left) => p.col > 0
    case (ObjectGuards, Right) => p.col < b.cols - 1
    case (SceneGuards, Up) => p.row > 1
    case (SceneGuards, Down) => p.row < b.rows
    case (SceneGuards, Left) => p.col > 1
    case (SceneGuards, Right) => p.col < b.cols
  }

  /** aboveEmpty / belowEmpty / leftEmpty / rightEmpty. */
  predicate SideOpen(g: Guards, b: Board, p: Pos, d: Direction)
  {
    InRange(g, b, p, d) && b.IsEmpty(Neighbor(p, d))
  }

  /**
   * For an object inside the grid, the object guards open a side exactly
   * when the neighbouring cell is inside the grid and empty.
   */
  lemma ObjectSideOpen(b: Board, p: Pos, d: Direction)
    requires b.InBounds(p)
    ensures SideOpen(ObjectGuards, b, p, d) <==> b.InBounds(Neighbor(p, d)) && b.IsEmpty(Neighbor(p, d))
  {
  }

  /**
   * For an object inside the grid, the scene guards open a side exactly
   * when the moving coordinate of the neighbour lies in 1..rows (1..cols)
   * and the neighbour is empty: they never open towards row or column 0,
   * and for an object in the last row (column) they let the emptiness query
   * about the cell one past the grid decide.
   */
  lemma SceneSideOpen(b: Board, p: Pos, d: Direction)
    requires b.InBounds(p)
    ensures var q := Neighbor(p, d);
            SideOpen(SceneGuards, b, p, d) <==>
              && (RowStep(d) != 0 ==> 1 <= q.row <= b.rows)
              && (ColStep(d) != 0 ==> 1 <= q.col <= b.cols)
              && b.IsEmpty(q)
  {
  }

  /** upLimit, downLimit, leftLimit, rightLimit. */
  datatype Limits = Limits(up: int, down: int, left: int, right: int)

  /** The limits around the drag origin (ox, oy) for an object recorded in cell p. */
  function DragLimits(g: Guards, b: Board, p: Pos, ox: int, oy: int): Limits
  {
    Limits(if SideOpen(g, b, p, Up) then oy - b.gridSize else oy,
           if SideOpen(g, b, p, Down) then oy + b.gridSize else oy,
           if SideOpen(g, b, p, Left) then ox - b.gridSize else ox,
           if SideOpen(g, b, p, Right) then ox + b.gridSize else ox)
  }

  /** The limits written out with the object guards, as the gotchi and milkshake handlers compute them. */
  lemma ObjectLimits(b: Board, p: Pos, ox: int, oy: int)
    ensures DragLimits(ObjectGuards, b, p, ox, oy) ==
      Limits(if p.row > 0 && b.IsEmpty(Pos(p.row - 1, p.col)) then oy - b.gridSize else oy,
             if p.row < b.rows - 1 && b.IsEmpty(Pos(p.row + 1, p.col)) then oy + b.gridSize else oy,
             if p.col > 0 && b.IsEmpty(Pos(p.row, p.col - 1)) then ox - b.gridSize else ox,
             if p.col < b.cols - 1 && b.IsEmpty(Pos(p.row, p.col + 1)) then ox + b.gridSize else ox)
  {
  }

  /** The limits written out with the scene guards, as the scene-wide handler computes them. */
  lemma SceneLimits(b: Board, p: Pos, ox: int, oy: int)
    ensures DragLimits(SceneGuards, b, p, ox, oy) ==
      Limits(if p.row > 1 && b.IsEmpty(Pos(p.row - 1, p.col)) then oy - b.gridSize else oy,
             if p.row < b.rows && b.IsEmpty(Pos(p.row + 1, p.col)) then oy + b.gridSize else oy,
             if p.col > 1 && b.IsEmpty(Pos(p.row, p.col - 1)) then ox - b.gridSize else ox,
             if p.col < b.cols && b.IsEmpty(Pos(p.row, p.col + 1)) then ox + b.gridSize else ox)
  {
  }

  /** A side that is not open keeps its limit at the origin. */
  lemma ClosedSideAtOrigin(g: Guards, b: Board, p: Pos, ox: int, oy: int)
    ensures var lim := DragLimits(g, b, p, ox, oy);
            && (!SideOpen(g, b, p, Up) ==> lim.up == oy)
            && (!SideOpen(g, b, p, Down) ==> lim.down == oy)
            && (!SideOpen(g, b, p, Left) ==> lim.left == ox)
            && (!SideOpen(g, b, p, Right) ==> lim.right == ox)
  {
  }

  /**
   * The axis after one drag sample: an assigned axis is kept; an unassigned
   * one becomes X when the horizontal distance from the origin is strictly
   * larger than the vertical one, and Y otherwise.
   */
  function LockAxis(axis: Axis, ox: int, oy: int, dragX: int, dragY: int): (r: Axis)
    ensures r != NotAssigned
    ensures axis != NotAssigned ==> r == axis
    ensures axis == NotAssigned ==> (r == X <==> Abs(dragX - ox) > Abs(dragY - oy))
  {
    if axis == NotAssigned then
      if Abs(dragX - ox) > Abs(dragY - oy) then X else Y
    else
      axis
  }

  /** A diagonal first sample, at equal distance on both axes, locks Y. */
  lemma TieLocksY(ox: int, oy: int, t: int)
    ensures LockAxis(NotAssigned, ox, oy, ox + t, oy - t) == Y
  {
  }

  /** The handler state a drag sample touches: the axis and the object's coordinates. */
  datatype DragState = DragState(axis: Axis, x: int, y: int)

  /**
   * One drag sample (dragX, dragY) against the origin (ox, oy) and limits
   * lim: lock the axis, then write the locked axis's coordinate only when the
   * sample lies strictly inside its limits.
   */
  function Step(s: DragState, lim: Limits, ox: int, oy: int, dragX: int, dragY: int): DragState
  {
    var axis := LockAxis(s.axis, ox, oy, dragX, dragY);
    if axis == X then
      DragState(axis, if dragX > lim.left && dragX < lim.right then dragX else s.x, s.y)
    else
      DragState(axis, s.x, if dragY > lim.up && dragY < lim.down then dragY else s.y)
  }

  /**
   * A drag sample locks the axis, never writes the other coordinate, moves
   * the locked coordinate only to the sample and only strictly inside the
   * limits, and always does so when the sample lies strictly inside them.
   */
  lemma StepMeaning(s: DragState, lim: Limits, ox: int, oy: int, dragX: int, dragY: int)
    ensures var r := Step(s, lim, ox, oy, dragX, dragY);
            && r.axis == LockAxis(s.axis, ox, oy, dragX, dragY)
            && (r.axis == X ==> r.y == s.y)
            && (r.axis == Y ==> r.x == s.x)
            && (r.x != s.x ==> r.x == dragX && lim.left < dragX < lim.right)
            && (r.y != s.y ==> r.y == dragY && lim.up < dragY < lim.down)
            && (r.axis == X && lim.left < dragX < lim.right ==> r.x == dragX)
            && (r.axis == Y && lim.up < dragY < lim.down ==> r.y == dragY)
  {
  }

  /** The samples of one drag session, applied in order (every sample gated open). */
  function Session(s: DragState, lim: Limits, ox: int, oy: int, samples: seq<(int, int)>): DragState
    decreases |samples|
  {
    if |samples| == 0 then s
    else Session(Step(s, lim, ox, oy, samples[0].0, samples[0].1), lim, ox, oy, samples[1..])
  }

  /** Each coordinate is either still at the origin or strictly inside its limits. */
  ghost predicate Inside(s: DragState, lim: Limits, ox: int, oy: int)
  {
    && (s.x == ox || lim.left < s.x < lim.right)
    && (s.y == oy || lim.up < s.y < lim.down)
  }

  /**
   * The axis of a session is the one its first sample locks, and it no
   * longer changes; a session with no sample leaves the state alone.
   */
  lemma {:induction false} SessionAxis(s: DragState, lim: Limits, ox: int, oy: int, samples: seq<(int, int)>)
    ensures |samples| == 0 ==> Session(s, lim, ox, oy, samples) == s
    ensures |samples| > 0 ==>
      Session(s, lim, ox, oy, samples).axis == LockAxis(s.axis, ox, oy, samples[0].0, samples[0].1)
    decreases |samples|
  {
    if |samples| > 0 {
      var s' := Step(s, lim, ox, oy, samples[0].0, samples[0].1);
      StepMeaning(s, lim, ox, oy, samples[0].0, samples[0].1);
      if |samples| > 1 {
        SessionAxis(s', lim, ox, oy, samples[1..]);
      }
    }
  }

  /** With the axis locked, the other coordinate is never written during the session. */
  lemma {:induction false} SessionKeepsOtherCoordinate(s: DragState, lim: Limits, ox: int, oy: int, samples: seq<(int, int)>)
    requires s.axis != NotAssigned
    ensures var r := Session(s, lim, ox, oy, samples);
            && r.axis == s.axis
            && (s.axis == X ==> r.y == s.y)
            && (s.axis == Y ==> r.x == s.x)
    decreases |samples|
  {
    if |samples| > 0 {
      StepMeaning(s, lim, ox, oy, samples[0].0, samples[0].1);
      SessionKeepsOtherCoordinate(Step(s, lim, ox, oy, samples[0].0, samples[0].1), lim, ox, oy, samples[1..]);
    }
  }

  /** A session that starts at the origin ends at the origin or strictly inside the limits. */
  lemma {:induction false} SessionStaysInside(s: DragState, lim: Limits, ox: int, oy: int, samples: seq<(int, int)>)
    requires Inside(s, lim, ox, oy)
    ensures Inside(Session(s, lim, ox, oy, samples), lim, ox, oy)
    decreases |samples|
  {
    if |samples| > 0 {
      StepMeaning(s, lim, ox, oy, samples[0].0, samples[0].1);
      SessionStaysInside(Step(s, lim, ox, oy, samples[0].0, samples[0].1), lim, ox, oy, samples[1..]);
    }
  }

  /**
   * When both sides of an axis are blocked, no sample moves the object along
   * that axis, whatever the samples: that coordinate stays where it is.
   */
  lemma {:induction false} BlockedStaysPut(g: Guards, b: Board, p: Pos, s: DragState, ox: int, oy: int, samples: seq<(int, int)>)
    ensures !SideOpen(g, b, p, Left) && !SideOpen(g, b, p, Right) ==>
      Session(s, DragLimits(g, b, p, ox, oy), ox, oy, samples).x == s.x
    ensures !SideOpen(g, b, p, Up) && !SideOpen(g, b, p, Down) ==>
      Session(s, DragLimits(g, b, p, ox, oy), ox, oy, samples).y == s.y
    decreases |samples|
  {
    if |samples| > 0 {
      var lim := DragLimits(g, b, p, ox, oy);
      StepMeaning(s, lim, ox, oy, samples[0].0, samples[0].1);
      BlockedStaysPut(g, b, p, Step(s, lim, ox, oy, samples[0].0, samples[0].1), ox, oy, samples[1..]);
    }
  }

  /**
   * The two sets of guards disagree. From row 1 the object guards open
   * upwards exactly when the cell in row 0 is empty, while the scene guards
   * never do. From the last row the object guards never open downwards,
   * while the scene guards ask the emptiness test about the cell in row
   * `rows`, which lies outside the grid.
   */
  lemma GuardsDisagree(b: Board, c: int)
    requires b.rows >= 2
    ensures SideOpen(ObjectGuards, b, Pos(1, c), Up) <==> b.IsEmpty(Pos(0, c))
    ensures !SideOpen(SceneGuards, b, Pos(1, c), Up)
    ensures !SideOpen(ObjectGuards, b, Pos(b.rows - 1, c), Down)
    ensures SideOpen(SceneGuards, b, Pos(b.rows - 1, c), Down) <==> b.IsEmpty(Pos(b.rows, c))
    ensures !b.InBounds(Pos(b.rows, c))
  {
  }
}
