/**
 * A milkshake on the grid (go-milkshake.ts): an OPEN / CLOSED status and a
 * drag handler that is gated by MOVE_AGGRO but charges MOVE_BOOSTER.
 */
module GoMilkshake {
  import opened Grid
  import opened DragProtocol
  import opened PlayerStats

  datatype MilkshakeStatus = Open | Closed

  class Milkshake {
    const obj: GridObject

    var status: MilkshakeStatus

    var ogDragGridPosition: Pos
    var dragAxis: Axis
    var dragX: int
    var dragY: int

    constructor (row: int, col: int, x: int, y: int)
      ensures fresh(obj) && obj.Position() == Pos(row, col) && obj.x == x && obj.y == y
      ensures status == Closed
      ensures ogDragGridPosition == Pos(0, 0) && dragAxis == NotAssigned && dragX == 0 && dragY == 0
    {
      obj := new GridObject(row, col, x, y);
      status := Closed;
      ogDragGridPosition, dragAxis, dragX, dragY := Pos(0, 0), NotAssigned, 0, 0;
    }

    /** getStatus */
    function GetStatus(): MilkshakeStatus
      reads this
    {
      status
    }

    /** setStatus: getStatus answers the value passed here until the next call. */
    method SetStatus(s: MilkshakeStatus)
      modifies this`status
      ensures GetStatus() == s
    {
      status := s;
    }

    /** The dragstart handler: record the cell and the pixel position the drag starts from. */
    method DragStart()
      modifies this`ogDragGridPosition, this`dragX, this`dragY
      ensures ogDragGridPosition == obj.Position() && dragX == obj.x && dragY == obj.y
    {
      ogDragGridPosition := obj.Position();
      dragX := obj.x;
      dragY := obj.y;
    }

    /**
     * The drag handler for the sample (px, py): nothing happens without a
     * player or without MOVE_AGGRO points; otherwise one step of the drag
     * rule with the object guards around the dragstart position.
     */
    method Drag(b: Board, player: Player?, px: int, py: int)
      requires player != null ==> player.Valid()
      modifies this`dragAxis, obj`x, obj`y
      ensures var before := DragState(old(dragAxis), old(obj.x), old(obj.y));
              DragState(dragAxis, obj.x, obj.y) ==
                if player != null && player.GetStat(MoveAggro) > 0
                then Step(before, DragLimits(ObjectGuards, b, obj.Position(), dragX, dragY), dragX, dragY, px, py)
                else before
    {
      if player != null && player.GetStat(MoveAggro) > 0 {
        var gp := obj.Position();
        var aboveEmpty := gp.row > 0 && b.IsEmpty(Pos(gp.row - 1, gp.col));
        var belowEmpty := gp.row < b.rows - 1 && b.IsEmpty(Pos(gp.row + 1, gp.col));
        var leftEmpty := gp.col > 0 && b.IsEmpty(Pos(gp.row, gp.col - 1));
        var rightEmpty := gp.col < b.cols - 1 && b.IsEmpty(Pos(gp.row, gp.col + 1));

        var adoX := dragX;
        var adoY := dragY;
        var upLimit := if aboveEmpty then adoY - b.gridSize else adoY;
        var downLimit := if belowEmpty then adoY + b.gridSize else adoY;
        var leftLimit := if leftEmpty then adoX - b.gridSize else adoX;
        var rightLimit := if rightEmpty then adoX + b.gridSize else adoX;
        ObjectLimits(b, gp, adoX, adoY);

        LockAndMove(Limits(upLimit, downLimit, leftLimit, rightLimit), px, py);
      }
    }

    /**
     * The second half of the drag handler, against limits already computed:
     * lock the axis on the first sample, then move along it only strictly
     * inside the limits.
     */
    method LockAndMove(lim: Limits, px: int, py: int)
      modifies this`dragAxis, obj`x, obj`y
      ensures DragState(dragAxis, obj.x, obj.y) ==
                Step(DragState(old(dragAxis), old(obj.x), old(obj.y)), lim, dragX, dragY, px, py)
    {
      if dragAxis == NotAssigned {
        dragAxis := if Abs(px - dragX) > Abs(py - dragY) then X else Y;
      }

      if dragAxis == X {
        if px > lim.left && px < lim.right {
          obj.x := px;
        }
      } else if dragAxis == Y {
        if py > lim.up && py < lim.down {
          obj.y := py;
        }
      }
    }

    /**
     * The dragend handler: record the cell the drag ended in, release the
     * axis, and charge MOVE_BOOSTER (not MOVE_AGGRO) when that cell differs
     * from the dragstart cell.
     */
    method DragEnd(finalCell: Pos, player: Player?)
      requires player != null ==> player.Valid()
      modifies obj`row, obj`col, this`dragAxis, player
      ensures obj.Position() == finalCell && dragAxis == NotAssigned
      ensures player != null ==>
        player.Valid() && player.stats == ChargeIfMoved(old(player.stats), MoveBooster, ogDragGridPosition, finalCell)
    {
      obj.SetGridPosition(finalCell);
      dragAxis := NotAssigned;
      if player != null {
        if finalCell != ogDragGridPosition {
          player.AdjustStat(MoveBooster, -1);
        }
      }
    }
  }

  /**
   * A milkshake drag never spends the counter that gates it: the MOVE_AGGRO
   * counter after a drag end is the one before it, whatever the cells.
   */
  lemma GateNeverCharged(stats: map<Stat, int>, origin: Pos, final: Pos)
    requires MoveBooster in stats && MoveAggro in stats
    ensures ChargeIfMoved(stats, MoveBooster, origin, final)[MoveAggro] == stats[MoveAggro]
    ensures origin != final ==> ChargeIfMoved(stats, MoveBooster, origin, final)[MoveBooster] == stats[MoveBooster] - 1
  {
  }
}
