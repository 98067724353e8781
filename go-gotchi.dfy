/**
 * A gotchi on the grid (go-gotchi.ts): its facing, its stored leader and
 * follower slots, its drag handlers charging MOVE_GOTCHI, the collection of
 * its conga chain, and the status changes of a conga move and a conga jump.
 */
module GoGotchi {
  import opened Grid
  import opened Conga
  import opened DragProtocol
  import opened PlayerStats
  import opened Seqs

  datatype Status = Ready | Congotching | Jumping | Waiting

  // ---------------------------------------------------------------------
  // The status machine of congaIntoPosition and congaJump.

  /**
   * The fields a conga move and a conga jump touch. `jumpReturns` holds, oldest
   * first, the status each jump still in the air captured when it started
   * and will write back when its tween completes.
   */
  datatype Motion = Motion(status: Status, direction: Direction, newDir: Direction, jumpReturns: seq<Status>)

  /**
   * MoveLanded: the completion of the setGridPosition started by
   * congaIntoPosition. JumpStarted: a call of congaJump. JumpLanded: the
   * completion of the oldest jump tween still running.
   */
  datatype MotionEvent = MoveLanded | JumpStarted | JumpLanded

  function Apply(m: Motion, e: MotionEvent): (r: Motion)
    requires e == JumpLanded ==> |m.jumpReturns| > 0
    ensures e == MoveLanded ==> r.status == Ready && r.direction == m.newDir && r.jumpReturns == m.jumpReturns
    ensures e == JumpStarted ==> r.status == Jumping && r.jumpReturns == m.jumpReturns + [m.status]
    ensures e == JumpLanded ==> r.status == m.jumpReturns[0] && m.jumpReturns == [r.status] + r.jumpReturns
    ensures e != MoveLanded ==> r.direction == m.direction
    ensures r.newDir == m.newDir
  {
    match e
    case MoveLanded => m.(direction := m.newDir, status := Ready)
    case JumpStarted => m.(status := Jumping, jumpReturns := m.jumpReturns + [m.status])
    case JumpLanded => m.(status := m.jumpReturns[0], jumpReturns := m.jumpReturns[1..])
  }

  /**
   * A sequence of events; None when a jump lands that never started. No
   * event changes newDir, only a move landing changes the facing, and a
   * sequence without a landing jump always runs (RunDefined states exactly
   * when a sequence runs).
   */
  function Run(m: Motion, es: seq<MotionEvent>): (r: Option<Motion>)
    ensures r.Some? ==> r.value.newDir == m.newDir
    ensures r.Some? && (forall i :: 0 <= i < |es| ==> es[i] != MoveLanded) ==> r.value.direction == m.direction
    ensures (forall i :: 0 <= i < |es| ==> es[i] != JumpLanded) ==> r.Some?
    decreases |es|
  {
    if |es| == 0 then Some(m)
    else if es[0] == JumpLanded && |m.jumpReturns| == 0 then None
    else Run(Apply(m, es[0]), es[1..])
  }

  /** The number of times e occurs in es. */
  function Count(es: seq<MotionEvent>, e: MotionEvent): nat
    decreases |es|
  {
    if |es| == 0 then 0 else (if es[0] == e then 1 else 0) + Count(es[1..], e)
  }

  /** Before event i of es, some jump is still in the air. */
  predicate InAir(m: Motion, es: seq<MotionEvent>, i: int)
    requires 0 <= i <= |es|
  {
    |m.jumpReturns| + Count(es[..i], JumpStarted) > Count(es[..i], JumpLanded)
  }

  /**
   * A sequence of events runs exactly when every jump landing finds a jump
   * in the air: the queued ones plus those started earlier in the sequence,
   * less those landed earlier.
   */
  lemma {:induction false} RunDefined(m: Motion, es: seq<MotionEvent>)
    ensures Run(m, es).Some? <==> forall i :: 0 <= i < |es| && es[i] == JumpLanded ==> InAir(m, es, i)
    decreases |es|
  {
    if |es| > 0 {
      var e := es[0];
      var rest := es[1..];
      if !(e == JumpLanded && |m.jumpReturns| == 0) {
        var m' := Apply(m, e);
        RunDefined(m', rest);
        forall i | 1 <= i <= |es|
          ensures InAir(m, es, i) <==> InAir(m', rest, i - 1)
        {
          assert es[..i][0] == e && es[..i][1..] == rest[..i - 1];
        }
        forall i | 0 <= i < |rest|
          ensures es[i + 1] == rest[i]
        {
        }
        assert es[..0] == [];
        if e == JumpLanded {
          assert InAir(m, es, 0);
        }
        if Run(m, es).Some? {
          forall i | 0 <= i < |es| && es[i] == JumpLanded
            ensures InAir(m, es, i)
          {
            if i > 0 {
              assert rest[i - 1] == JumpLanded;
            }
          }
        } else {
          var j :| 0 <= j < |rest| && rest[j] == JumpLanded && !InAir(m', rest, j);
          assert es[j + 1] == JumpLanded && !InAir(m, es, j + 1);
        }
      } else {
        assert es[..0] == [] && !InAir(m, es, 0);
      }
    }
  }

  lemma {:induction false} RunAppend(m: Motion, a: seq<MotionEvent>, b: seq<MotionEvent>)
    ensures Run(m, a + b) == match Run(m, a) case None => None case Some(m') => Run(m', b)
    decreases |a|
  {
    if |a| > 0 {
      assert (a + b)[0] == a[0] && (a + b)[1..] == a[1..] + b;
      if !(a[0] == JumpLanded && |m.jumpReturns| == 0) {
        RunAppend(Apply(m, a[0]), a[1..], b);
      }
    } else {
      assert a + b == b;
    }
  }

  /** n jumps in a row: the first captures the status, every later one captures JUMPING. */
  lemma {:induction false} JumpsQueue(m: Motion, n: nat)
    requires n >= 1
    ensures Run(m, Repeat(JumpStarted, n)) ==
      Some(m.(status := Jumping, jumpReturns := m.jumpReturns + [m.status] + Repeat(Jumping, n - 1)))
    decreases n
  {
    var m1 := Apply(m, JumpStarted);
    if n == 1 {
      assert Repeat(JumpStarted, 1) == [JumpStarted];
      assert m.jumpReturns + [m.status] + Repeat(Jumping, 0) == m1.jumpReturns;
      assert Run(m, [JumpStarted]) == Run(m1, []) == Some(m1);
    } else {
      JumpsQueue(m1, n - 1);
      assert Repeat(JumpStarted, n)[1..] == Repeat(JumpStarted, n - 1);
      assert m1.jumpReturns + [m1.status] + Repeat(Jumping, n - 2)
          == m.jumpReturns + [m.status] + Repeat(Jumping, n - 1);
    }
  }

  /** Landing every jump in the air leaves the status the newest one captured. */
  lemma {:induction false} LandAll(m: Motion)
    requires |m.jumpReturns| >= 1
    ensures Run(m, Repeat(JumpLanded, |m.jumpReturns|)) ==
      Some(m.(status := m.jumpReturns[|m.jumpReturns| - 1], jumpReturns := []))
    decreases |m.jumpReturns|
  {
    var k := |m.jumpReturns|;
    var m1 := Apply(m, JumpLanded);
    assert Repeat(JumpLanded, k)[1..] == Repeat(JumpLanded, k - 1);
    if k > 1 {
      LandAll(m1);
      assert m1.jumpReturns[k - 2] == m.jumpReturns[k - 1];
    }
  }

  /**
   * congaJump restores the status it found only when no other jump is in
   * the air: after n overlapping jumps and their n landings the status is
   * the original one for n == 1, and JUMPING for n >= 2, since every jump
   * after the first captured JUMPING.
   */
  lemma NestedJumps(m: Motion, n: nat)
    requires m.jumpReturns == [] && n >= 1
    ensures Run(m, Repeat(JumpStarted, n) + Repeat(JumpLanded, n)) ==
      Some(m.(status := if n == 1 then m.status else Jumping))
  {
    RunAppend(m, Repeat(JumpStarted, n), Repeat(JumpLanded, n));
    JumpsQueue(m, n);
    var m' := m.(status := Jumping, jumpReturns := m.jumpReturns + [m.status] + Repeat(Jumping, n - 1));
    assert |m'.jumpReturns| == n;
    LandAll(m');
  }

  /**
   * A conga move that lands while a jump is in the air is undone by the
   * jump's landing: the facing becomes newDir, but the status goes back to
   * what the jump captured, not READY.
   */
  lemma MoveDuringJump(m: Motion)
    requires m.jumpReturns == []
    ensures Run(m, [JumpStarted, MoveLanded, JumpLanded]) ==
      Some(m.(direction := m.newDir))
  {
    var m1 := Apply(m, JumpStarted);
    var m2 := Apply(m1, MoveLanded);
    assert [JumpStarted, MoveLanded, JumpLanded][1..] == [MoveLanded, JumpLanded];
    assert [MoveLanded, JumpLanded][1..] == [JumpLanded];
    assert Run(m2, [JumpLanded]) == Some(Apply(m2, JumpLanded));
  }

  // ---------------------------------------------------------------------
  // The gotchi object.

  class Gotchi {
    /** The identity other gotchis store in their leader and follower slots. */
    const id: GotchiId
    /** The grid object the gotchi is: its recorded cell and its pixel position. */
    const obj: GridObject

    var direction: Direction
    var leader: Option<GotchiId>
    var followers: Slots

    var ogDragGridPosition: Pos
    var dragAxis: Axis
    var dragX: int
    var dragY: int

    var newDir: Direction
    var status: Status
    var jumpReturns: seq<Status>

    constructor (id: GotchiId, row: int, col: int, x: int, y: int)
      ensures this.id == id && fresh(obj) && obj.Position() == Pos(row, col) && obj.x == x && obj.y == y
      ensures direction == Down && leader == None && followers == [None, None, None, None]
      ensures ogDragGridPosition == Pos(0, 0) && dragAxis == NotAssigned && dragX == 0 && dragY == 0
      ensures newDir == Down && status == Ready && jumpReturns == []
    {
      this.id := id;
      obj := new GridObject(row, col, x, y);
      direction, leader, followers := Down, None, [None, None, None, None];
      ogDragGridPosition, dragAxis, dragX, dragY := Pos(0, 0), NotAssigned, 0, 0;
      newDir, status, jumpReturns := Down, Ready, [];
    }

    function MotionState(): Motion
      reads this
    {
      Motion(status, direction, newDir, jumpReturns)
    }

    /** findLeader */
    method FindLeader(b: Board)
      requires b.Valid()
      modifies this`leader
      ensures leader == LeaderOf(b, obj.Position(), direction)
    {
      leader := LeaderOf(b, obj.Position(), direction);
    }

    /** findFollowers */
    method FindFollowers(b: Board)
      requires b.Valid()
      modifies this`followers
      ensures followers == FollowersOf(b, obj.Position())
    {
      followers := FollowersOf(b, obj.Position());
    }

    /** hasLeader */
    predicate HasLeader()
      reads this
    {
      leader.Some?
    }

    /** hasFollower: a pass over the four slots raising a flag. */
    method HasFollower() returns (haveFollower: bool)
      ensures haveFollower == AnyFollower(followers)
    {
      haveFollower := false;
      for i := 0 to |followers|
        invariant haveFollower == exists j :: 0 <= j < i && followers[j].Some?
      {
        if followers[i].Some? {
          haveFollower := true;
        }
      }
    }

    /** rotateCW */
    method RotateCW()
      modifies this`direction
      ensures direction == Clockwise(old(direction))
    {
      direction := Clockwise(direction);
    }

    /** rotateACW */
    method RotateACW()
      modifies this`direction
      ensures direction == Anticlockwise(old(direction))
    {
      direction := Anticlockwise(direction);
    }

    /** The dragstart handler: record the cell and the pixel position the drag starts from. */
    method DragStart()
      modifies this`ogDragGridPosition, this`dragX, this`dragY
      ensures ogDragGridPosition == obj.Position() && dragX == obj.x && dragY == obj.y
    {
      ogDragGridPosition := obj.Position();
      dragX := obj.x;
      dragY := obj.y;
    }

    /**
     * The drag handler for the sample (px, py): nothing happens without a
     * player or without MOVE_GOTCHI points; otherwise one step of the drag
     * rule with the object guards around the dragstart position.
     */
    method Drag(b: Board, player: Player?, px: int, py: int)
      requires player != null ==> player.Valid()
      modifies this`dragAxis, obj`x, obj`y
      ensures var before := DragState(old(dragAxis), old(obj.x), old(obj.y));
              DragState(dragAxis, obj.x, obj.y) ==
                if player != null && player.GetStat(MoveGotchi) > 0
                then Step(before, DragLimits(ObjectGuards, b, obj.Position(), dragX, dragY), dragX, dragY, px, py)
                else before
    {
      if player != null && player.GetStat(MoveGotchi) > 0 {
        var gp := obj.Position();
        var aboveEmpty := gp.row > 0 && b.IsEmpty(Pos(gp.row - 1, gp.col));
        var belowEmpty := gp.row < b.rows - 1 && b.IsEmpty(Pos(gp.row + 1, gp.col));
        var leftEmpty := gp.col > 0 && b.IsEmpty(Pos(gp.row, gp.col - 1));
        var rightEmpty := gp.col < b.cols - 1 && b.IsEmpty(Pos(gp.row, gp.col + 1));

        var adoX := dragX;
        var adoY := dragY;
        var upLimit := if aboveEmpty then adoY - b.gridSize else adoY;
        var downLimit := if belowEmpty then adoY + b.gridSize else adoY;
        var leftLimit := if leftEmpty then adoX - b.gridSize else adoX;
        var rightLimit := if rightEmpty then adoX + b.gridSize else adoX;
        ObjectLimits(b, gp, adoX, adoY);

        LockAndMove(Limits(upLimit, downLimit, leftLimit, rightLimit), px, py);
      }
    }

    /**
     * The second half of the drag handler, against limits already computed:
     * lock the axis on the first sample, then move along it only strictly
     * inside the limits.
     */
    method LockAndMove(lim: Limits, px: int, py: int)
      modifies this`dragAxis, obj`x, obj`y
      ensures DragState(dragAxis, obj.x, obj.y) ==
                Step(DragState(old(dragAxis), old(obj.x), old(obj.y)), lim, dragX, dragY, px, py)
    {
      if dragAxis == NotAssigned {
        dragAxis := if Abs(px - dragX) > Abs(py - dragY) then X else Y;
      }

      if dragAxis == X {
        if px > lim.left && px < lim.right {
          obj.x := px;
        }
      } else if dragAxis == Y {
        if py > lim.up && py < lim.down {
          obj.y := py;
        }
      }
    }

    /**
     * The dragend handler: record the cell the drag ended in, release the
     * axis, and charge MOVE_GOTCHI when that cell differs from the dragstart cell.
     */
    method DragEnd(finalCell: Pos, player: Player?)
      requires player != null ==> player.Valid()
      modifies obj`row, obj`col, this`dragAxis, player
      ensures obj.Position() == finalCell && dragAxis == NotAssigned
      ensures player != null ==>
        player.Valid() && player.stats == ChargeIfMoved(old(player.stats), MoveGotchi, ogDragGridPosition, finalCell)
    {
      obj.SetGridPosition(finalCell);
      dragAxis := NotAssigned;
      if player != null {
        if finalCell != ogDragGridPosition {
          player.AdjustStat(MoveGotchi, -1);
        }
      }
    }

    /** congaIntoPosition: start the move into (row, col); the status is left to the caller. */
    method CongaIntoPosition(row: int, col: int)
      modifies obj`row, obj`col
      ensures obj.Position() == Pos(row, col)
    {
      obj.SetGridPosition(Pos(row, col));
    }

    /** The completion callback of congaIntoPosition: face newDir and become READY. */
    method CongaMoveLanded()
      modifies this`direction, this`status
      ensures MotionState() == Apply(old(MotionState()), MoveLanded)
    {
      direction := newDir;
      status := Ready;
    }

    /** congaJump: capture the status and become JUMPING. */
    method CongaJump()
      modifies this`status, this`jumpReturns
      ensures MotionState() == Apply(old(MotionState()), JumpStarted)
    {
      var prevStatus := status;
      status := Jumping;
      jumpReturns := jumpReturns + [prevStatus];
    }

    /** The completion callback of the oldest jump in the air: write back the status it captured. */
    method CongaJumpLanded()
      requires |jumpReturns| > 0
      modifies this`status, this`jumpReturns
      ensures MotionState() == Apply(old(MotionState()), JumpLanded)
    {
      status := jumpReturns[0];
      jumpReturns := jumpReturns[1..];
    }

    /** getStatus */
    function GetStatus(): Status
      reads this
    {
      status
    }

    /** calcCongaChain */
    method CalcCongaChain(chain: GotchiChain, reg: map<GotchiId, Gotchi>, ghost rank: map<GotchiId, nat>)
      requires Registry(reg) && id in reg && reg[id] == this
      requires Ranked(StoredFollowers(reg), rank)
      modifies chain
      ensures chain.items == old(chain.items) + ChainOf(StoredFollowers(reg), rank, id)
    {
      GetCongaChain(chain, reg, rank);
    }

    /**
     * getCongaChain: for slots 0..3 in turn, push the follower and recurse
     * into it. The ranking stands for the acyclicity the source assumes.
     */
    method GetCongaChain(chain: GotchiChain, reg: map<GotchiId, Gotchi>, ghost rank: map<GotchiId, nat>)
      requires Registry(reg) && id in reg && reg[id] == this
      requires Ranked(StoredFollowers(reg), rank)
      modifies chain
      ensures chain.items == old(chain.items) + ChainOf(StoredFollowers(reg), rank, id)
      decreases rank[id], 4
    {
      ghost var rel := StoredFollowers(reg);
      ghost var start := chain.items;
      PushFollower(0, chain, reg, rank);
      assert StoredFollowers(reg) == rel;
      PushFollower(1, chain, reg, rank);
      assert StoredFollowers(reg) == rel;
      PushFollower(2, chain, reg, rank);
      assert StoredFollowers(reg) == rel;
      PushFollower(3, chain, reg, rank);
      assert StoredFollowers(reg) == rel;
      assert ChainOf(rel, rank, id) == Branch(rel, rank, id, 0) + Branch(rel, rank, id, 1)
                                     + Branch(rel, rank, id, 2) + Branch(rel, rank, id, 3);
      assert chain.items == start + ChainOf(rel, rank, id);
    }

    /** One `if (this.followers[i])` block of getCongaChain: push follower i, then its chain. */
    method PushFollower(i: int, chain: GotchiChain, reg: map<GotchiId, Gotchi>, ghost rank: map<GotchiId, nat>)
      requires 0 <= i < 4
      requires Registry(reg) && id in reg && reg[id] == this
      requires Ranked(StoredFollowers(reg), rank)
      modifies chain
      ensures chain.items == old(chain.items) + Branch(StoredFollowers(reg), rank, id, i)
      decreases rank[id], i
    {
      ghost var rel := StoredFollowers(reg);
      assert rel[id] == followers;
      if followers[i].Some? {
        var f := followers[i].value;
        assert f in rel && rank[f] < rank[id];
        chain.Push(f);
        reg[f].GetCongaChain(chain, reg, rank);
      }
    }
  }

  /** The gotchiChain array getCongaChain pushes into. */
  class GotchiChain {
    var items: seq<GotchiId>

    constructor ()
      ensures items == []
    {
      items := [];
    }

    method Push(g: GotchiId)
      modifies this
      ensures items == old(items) + [g]
    {
      items := items + [g];
    }
  }

  /** The gotchis of the level by identity. */
  ghost predicate Registry(reg: map<GotchiId, Gotchi>)
  {
    forall k :: k in reg ==> reg[k].id == k
  }

  /** The follower slots every gotchi currently stores. */
  ghost function StoredFollowers(reg: map<GotchiId, Gotchi>): FollowerRel
    reads reg.Values
  {
    map k | k in reg :: reg[k].followers
  }
}
