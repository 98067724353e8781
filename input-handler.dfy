/**
 * The scene-wide input handler (input-handler.ts): a click (pointer up
 * within 200 ms of pointer down) places a portal on an empty cell and
 * rotates the first gotchi standing in the lifted cell; the scene-wide drag
 * handlers move any grid object under the MOVE counter.
 */
module InputHandling {
  import opened Grid
  import opened DragProtocol
  import opened PlayerStats
  import opened GoGotchi

  /** A pointer up counts as a click when it comes less than this many milliseconds after the pointer down. */
  const ClickThreshold: int := 200

  /** The index of the first gotchi recorded in cell gp, or |gs| when there is none. */
  function FirstAt(gs: seq<Gotchi>, gp: Pos): (k: nat)
    reads set g | g in gs :: g.obj
    ensures k <= |gs|
    ensures k < |gs| ==> gs[k].obj.Position() == gp
    ensures forall j :: 0 <= j < k ==> gs[j].obj.Position() != gp
    decreases |gs|
  {
    if |gs| == 0 then 0
    else if gs[0].obj.Position() == gp then 0
    else 1 + FirstAt(gs[1..], gp)
  }

  /** The click places a portal: the PORTAL counter is nonzero (negative counts too) and the cell is empty. */
  predicate PlacesPortal(stats: map<Stat, int>, b: Board, gp: Pos)
    requires Portal in stats
  {
    stats[Portal] != 0 && b.IsEmpty(gp)
  }

  /** A click never places a portal on a cell a gotchi occupies. */
  lemma NoPortalOnGotchi(stats: map<Stat, int>, b: Board, gp: Pos)
    requires Portal in stats && b.HasGotchi(gp)
    ensures !PlacesPortal(stats, b, gp)
  {
  }

  class InputHandler {
    const player: Player?
    var gotchis: seq<Gotchi>
    var portals: seq<Pos>
    var timer: int
    var pointerDownGridPosition: Pos
    var activeDragObjectGridPosition: Pos
    var activeDragObjectAxis: Axis
    var activeDragObjectX: int
    var activeDragObjectY: int

    /** The gotchis and portals are the ones the level holds when the handler is built. */
    constructor (player: Player?, gotchis: seq<Gotchi>, portals: seq<Pos>)
      ensures this.player == player && this.gotchis == gotchis && this.portals == portals
      ensures timer == 0 && pointerDownGridPosition == Pos(0, 0)
      ensures activeDragObjectGridPosition == Pos(0, 0) && activeDragObjectAxis == NotAssigned
      ensures activeDragObjectX == 0 && activeDragObjectY == 0
    {
      this.player := player;
      this.gotchis := gotchis;
      this.portals := portals;
      timer, pointerDownGridPosition := 0, Pos(0, 0);
      activeDragObjectGridPosition, activeDragObjectAxis := Pos(0, 0), NotAssigned;
      activeDragObjectX, activeDragObjectY := 0, 0;
    }

    /** pointerdown at time `now` in cell gp. */
    method PointerDown(now: int, gp: Pos)
      modifies this`timer, this`pointerDownGridPosition
      ensures timer == now && pointerDownGridPosition == gp
    {
      timer := now;
      pointerDownGridPosition := gp;
    }

    /**
     * pointerup at time `now` in cell gp. A late pointer up changes nothing.
     * A click appends one portal at an empty cell and charges PORTAL; then,
     * with ROTATE points left, it looks for the first gotchi in gp and, if
     * that gotchi also stood in the pointer-down cell, rotates it clockwise
     * and charges ROTATE.
     */
    method PointerUp(now: int, gp: Pos, b: Board)
      requires player != null ==> player.Valid()
      modifies this`portals, player, gotchis`direction
      ensures player != null ==> player.Valid()
      ensures now - timer >= ClickThreshold ==>
        && portals == old(portals)
        && (player != null ==> player.stats == old(player.stats))
        && forall g :: g in gotchis ==> g.direction == old(g.direction)
      ensures now - timer < ClickThreshold ==>
        var placed := player != null && PlacesPortal(old(player.stats), b, gp);
        var k := FirstAt(gotchis, gp);
        var rotated := player != null && old(player.stats[Rotate]) > 0 && k < |gotchis|
                       && gotchis[k].obj.Position() == pointerDownGridPosition;
        && portals == old(portals) + (if placed then [gp] else [])
        && (player != null ==>
              player.stats == old(player.stats)[Portal := old(player.stats[Portal]) - (if placed then 1 else 0)]
                                               [Rotate := old(player.stats[Rotate]) - (if rotated then 1 else 0)])
        && forall g :: g in gotchis ==>
             g.direction == if rotated && g == gotchis[k] then Clockwise(old(g.direction)) else old(g.direction)
    {
      var delta := now - timer;
      if delta < ClickThreshold {
        ClickPortal(gp, b);
        ClickRotate(gp);
      }
    }

    /** The portal half of a click: a portal at an empty cell while PORTAL is nonzero, charged to PORTAL. */
    method ClickPortal(gp: Pos, b: Board)
      requires player != null ==> player.Valid()
      modifies this`portals, player
      ensures player != null ==> player.Valid()
      ensures var placed := player != null && PlacesPortal(old(player.stats), b, gp);
              && portals == old(portals) + (if placed then [gp] else [])
              && (player != null ==>
                    player.stats == old(player.stats)[Portal := old(player.stats[Portal]) - (if placed then 1 else 0)])
    {
      if player != null && player.GetStat(Portal) != 0 {
        if b.IsEmpty(gp) {
          portals := portals + [gp];
          if player != null {
            player.AdjustStat(Portal, -1);
          }
        }
      }
    }

    /**
     * The rotate half of a click: while ROTATE is positive, stop at the first
     * gotchi recorded in gp and, when it also stood in the pointer-down cell,
     * rotate it clockwise and charge ROTATE.
     */
    method ClickRotate(gp: Pos)
      requires player != null ==> player.Valid()
      modifies player, gotchis`direction
      ensures player != null ==> player.Valid()
      ensures var k := FirstAt(gotchis, gp);
              var rotated := player != null && old(player.stats[Rotate]) > 0 && k < |gotchis|
                             && gotchis[k].obj.Position() == pointerDownGridPosition;
              && (player != null ==>
                    player.stats == old(player.stats)[Rotate := old(player.stats[Rotate]) - (if rotated then 1 else 0)])
              && forall g :: g in gotchis ==>
                   g.direction == if rotated && g == gotchis[k] then Clockwise(old(g.direction)) else old(g.direction)
    {
      if player != null && player.GetStat(Rotate) > 0 {
        ghost var k := FirstAt(gotchis, gp);
        var i := 0;
        var isGotchi := false;
        while i < |gotchis| && !isGotchi
          invariant 0 <= i <= |gotchis|
          invariant player.Valid()
          invariant !isGotchi ==> i <= k && player.stats == old(player.stats)
          invariant isGotchi ==> i == k + 1
          invariant !isGotchi ==> forall g :: g in gotchis ==> g.direction == old(g.direction)
          invariant isGotchi ==>
            var rotated := gotchis[k].obj.Position() == pointerDownGridPosition;
            && player.stats == old(player.stats)[Rotate := old(player.stats[Rotate]) - (if rotated then 1 else 0)]
            && forall g :: g in gotchis ==>
                 g.direction == if rotated && g == gotchis[k] then Clockwise(old(g.direction)) else old(g.direction)
          decreases |gotchis| - i
        {
          if gotchis[i].obj.row == gp.row && gotchis[i].obj.col == gp.col {
            isGotchi := true;
            if gotchis[i].obj.row == pointerDownGridPosition.row && gotchis[i].obj.col == pointerDownGridPosition.col {
              gotchis[i].RotateCW();
              if player != null {
                player.AdjustStat(Rotate, -1);
              }
            }
          }
          i := i + 1;
        }
      }
    }

    /** The scene-wide dragstart handler for the object o. */
    method DragStart(o: GridObject)
      modifies this`activeDragObjectGridPosition, this`activeDragObjectX, this`activeDragObjectY
      ensures activeDragObjectGridPosition == o.Position()
      ensures activeDragObjectX == o.x && activeDragObjectY == o.y
    {
      activeDragObjectGridPosition := o.Position();
      activeDragObjectX := o.x;
      activeDragObjectY := o.y;
    }

    /**
     * The scene-wide drag handler for the object o and the sample (px, py):
     * nothing happens without a player or without MOVE points; otherwise one
     * step of the drag rule with the scene guards around the dragstart position.
     */
    method Drag(o: GridObject, b: Board, px: int, py: int)
      requires player != null ==> player.Valid()
      modifies this`activeDragObjectAxis, o`x, o`y
      ensures var before := DragState(old(activeDragObjectAxis), old(o.x), old(o.y));
              DragState(activeDragObjectAxis, o.x, o.y) ==
                if player != null && player.GetStat(Move) > 0
                then Step(before, DragLimits(SceneGuards, b, o.Position(), activeDragObjectX, activeDragObjectY),
                          activeDragObjectX, activeDragObjectY, px, py)
                else before
    {
      if player != null && player.GetStat(Move) > 0 {
        var gp := o.Position();
        var aboveEmpty := gp.row > 1 && b.IsEmpty(Pos(gp.row - 1, gp.col));
        var belowEmpty := gp.row < b.rows && b.IsEmpty(Pos(gp.row + 1, gp.col));
        var leftEmpty := gp.col > 1 && b.IsEmpty(Pos(gp.row, gp.col - 1));
        var rightEmpty := gp.col < b.cols && b.IsEmpty(Pos(gp.row, gp.col + 1));

        var adoX := activeDragObjectX;
        var adoY := activeDragObjectY;
        var upLimit := if aboveEmpty then adoY - b.gridSize else adoY;
        var downLimit := if belowEmpty then adoY + b.gridSize else adoY;
        var leftLimit := if leftEmpty then adoX - b.gridSize else adoX;
        var rightLimit := if rightEmpty then adoX + b.gridSize else adoX;
        SceneLimits(b, gp, adoX, adoY);

        LockAndMove(o, Limits(upLimit, downLimit, leftLimit, rightLimit), px, py);
      }
    }

    /**
     * The second half of the scene-wide drag handler, against limits already
     * computed: lock the axis on the first sample, then move o along it only
     * strictly inside the limits.
     */
    method LockAndMove(o: GridObject, lim: Limits, px: int, py: int)
      modifies this`activeDragObjectAxis, o`x, o`y
      ensures DragState(activeDragObjectAxis, o.x, o.y) ==
                Step(DragState(old(activeDragObjectAxis), old(o.x), old(o.y)), lim,
                     activeDragObjectX, activeDragObjectY, px, py)
    {
      if activeDragObjectAxis == NotAssigned {
        activeDragObjectAxis := if Abs(px - activeDragObjectX) > Abs(py - activeDragObjectY) then X else Y;
      }

      if activeDragObjectAxis == X {
        if px > lim.left && px < lim.right {
          o.x := px;
        }
      } else if activeDragObjectAxis == Y {
        if py > lim.up && py < lim.down {
          o.y := py;
        }
      }
    }

    /**
     * The scene-wide dragend handler: record the cell o ended in, release the
     * axis, and charge MOVE when that cell differs from the dragstart cell.
     */
    method DragEnd(o: GridObject, finalCell: Pos)
      requires player != null ==> player.Valid()
      modifies o`row, o`col, this`activeDragObjectAxis, player
      ensures o.Position() == finalCell && activeDragObjectAxis == NotAssigned
      ensures player != null ==>
        player.Valid() && player.stats == ChargeIfMoved(old(player.stats), Move, activeDragObjectGridPosition, finalCell)
    {
      var ogGridPos := activeDragObjectGridPosition;
      o.SetGridPosition(finalCell);
      activeDragObjectAxis := NotAssigned;
      if player != null {
        if finalCell != ogGridPos {
          player.AdjustStat(Move, -1);
        }
      }
    }
  }
}
