/**
 * Who follows whom (go-gotchi.ts findLeader / findFollowers) and the order in
 * which getCongaChain collects a gotchi's followers.
 */
module Conga {
  import opened Grid

  /** The object the source keeps in a follower slot or in `leader`; None is the source's 0. */
  type Slots = seq<Option<GotchiId>>

  /**
   * findLeader for a gotchi at p facing d: the gotchi in the faced cell,
   * unless it faces straight back at us.
   */
  function LeaderOf(b: Board, p: Pos, d: Direction): (r: Option<GotchiId>)
    requires b.Valid()
    ensures r.Some? <==> b.HasGotchi(Neighbor(p, d)) && !b.LooksAt(Neighbor(p, d), p)
    ensures r.Some? ==> b.cells[Neighbor(p, d)] == GotchiCell(r.value)
  {
    var ahead := Neighbor(p, d);
    if ahead in b.cells && b.cells[ahead].GotchiCell? then
      var g := b.cells[ahead].id;
      StepBack(p, d, b.dirs[g]);
      var lookingAtUs := b.dirs[g] == Opposite(d);
      if lookingAtUs then None else Some(g)
    else
      None
  }

  /** One follower slot: the gotchi at q if it faces `facing`, else nothing. */
  function FollowerFrom(b: Board, q: Pos, facing: Direction): Option<GotchiId>
    requires b.Valid()
  {
    if q in b.cells && b.cells[q].GotchiCell? && b.dirs[b.cells[q].id] == facing
    then Some(b.cells[q].id) else None
  }

  /**
   * findFollowers for a gotchi at p: slot 0/1/2/3 holds the gotchi below /
   * left / above / right of p when that gotchi faces UP / RIGHT / DOWN / LEFT.
   */
  function FollowersOf(b: Board, p: Pos): (r: Slots)
    requires b.Valid()
    ensures |r| == 4
  {
    [FollowerFrom(b, Pos(p.row + 1, p.col), Up),
     FollowerFrom(b, Pos(p.row, p.col - 1), Right),
     FollowerFrom(b, Pos(p.row - 1, p.col), Down),
     FollowerFrom(b, Pos(p.row, p.col + 1), Left)]
  }

  /**
   * Slot i of the gotchi at p is filled exactly when a gotchi stands next to
   * p in direction SlotDir(i) and looks back into p, and then it holds that
   * gotchi.
   */
  lemma FollowersOfMeaning(b: Board, p: Pos, i: int)
    requires b.Valid() && 0 <= i < 4
    ensures var q := Neighbor(p, SlotDir(i));
            && (FollowersOf(b, p)[i].Some? <==> b.HasGotchi(q) && b.LooksAt(q, p))
            && (FollowersOf(b, p)[i].Some? ==> b.cells[q] == GotchiCell(FollowersOf(b, p)[i].value))
  {
    var q := Neighbor(p, SlotDir(i));
    assert FollowersOf(b, p)[i] == FollowerFrom(b, q, Opposite(SlotDir(i)));
    forall e ensures Neighbor(q, e) == p <==> e == Opposite(SlotDir(i)) {
      StepBack(p, SlotDir(i), e);
    }
  }

  /** hasFollower: some slot is filled. */
  predicate AnyFollower(s: Slots)
  {
    exists i :: 0 <= i < |s| && s[i].Some?
  }

  /** Mutual-stare veto: two gotchis looking straight at each other lead neither way. */
  lemma StareVeto(b: Board, pa: Pos, da: Direction)
    requires b.Valid() && b.HasGotchi(Neighbor(pa, da))
    requires b.dirs[b.cells[Neighbor(pa, da)].id] == Opposite(da)
    requires b.HasGotchi(pa) && b.dirs[b.cells[pa].id] == da
    ensures LeaderOf(b, pa, da) == None
    ensures LeaderOf(b, Neighbor(pa, da), Opposite(da)) == None
  {
    StepBack(pa, da, Opposite(da));
  }

  /**
   * Follower and leader links agree except for the stare veto: the gotchi g
   * next to a in direction SlotDir(i) has a as its leader exactly when g is
   * in a's slot i and a does not face g.
   */
  lemma LeaderIffFollower(b: Board, p: Pos, i: int)
    requires b.Valid() && b.UniqueIds() && 0 <= i < 4
    requires b.HasGotchi(p) && b.HasGotchi(Neighbor(p, SlotDir(i)))
    ensures var q := Neighbor(p, SlotDir(i));
            var a := b.cells[p].id;
            var g := b.cells[q].id;
            (LeaderOf(b, q, b.dirs[g]) == Some(a)) <==> (FollowersOf(b, p)[i] == Some(g) && b.dirs[a] != SlotDir(i))
  {
    var q := Neighbor(p, SlotDir(i));
    var a := b.cells[p].id;
    var g := b.cells[q].id;
    FollowersOfMeaning(b, p, i);
    StepBack(p, SlotDir(i), b.dirs[g]);
    StepBack(q, b.dirs[g], b.dirs[a]);
    if LeaderOf(b, q, b.dirs[g]) == Some(a) {
      assert Neighbor(q, b.dirs[g]) == p by {
        assert b.cells[Neighbor(q, b.dirs[g])] == b.cells[p];
      }
    }
  }

  // ---------------------------------------------------------------------
  // getCongaChain over the stored follower slots.

  /** The stored follower slots of every gotchi, by id. */
  type FollowerRel = map<GotchiId, Slots>

  /**
   * A ranking that drops along every stored follower link, over gotchis that
   * are all registered in `rel`. One exists only if the stored links have no
   * cycle (CycleUnranked), which the source never checks.
   */
  ghost predicate Ranked(rel: FollowerRel, rank: map<GotchiId, nat>)
  {
    && (forall a :: a in rel ==> |rel[a]| == 4 && a in rank)
    && (forall a, i :: a in rel && 0 <= i < |rel[a]| && rel[a][i].Some? ==>
          rel[a][i].value in rel && rel[a][i].value in rank && rank[rel[a][i].value] < rank[a])
  }

  /** The followers getCongaChain appends for g: slots 0..3, each follower before its own chain. */
  ghost function ChainOf(rel: FollowerRel, rank: map<GotchiId, nat>, g: GotchiId): seq<GotchiId>
    requires Ranked(rel, rank) && g in rel
    decreases rank[g], 1
  {
    Branch(rel, rank, g, 0) + Branch(rel, rank, g, 1) + Branch(rel, rank, g, 2) + Branch(rel, rank, g, 3)
  }

  ghost function Branch(rel: FollowerRel, rank: map<GotchiId, nat>, g: GotchiId, i: int): seq<GotchiId>
    requires Ranked(rel, rank) && g in rel && 0 <= i < 4
    decreases rank[g], 0
  {
    match rel[g][i]
    case None => []
    case Some(f) => [f] + ChainOf(rel, rank, f)
  }

  /** x is a transitive follower of g. */
  ghost predicate Reaches(rel: FollowerRel, rank: map<GotchiId, nat>, g: GotchiId, x: GotchiId)
    requires Ranked(rel, rank) && g in rel
    decreases rank[g]
  {
    exists i :: 0 <= i < 4 && rel[g][i].Some? &&
      (rel[g][i].value == x || Reaches(rel, rank, rel[g][i].value, x))
  }

  /** The chain holds exactly the transitive followers of g. */
  lemma {:induction false} ChainMembers(rel: FollowerRel, rank: map<GotchiId, nat>, g: GotchiId, x: GotchiId)
    requires Ranked(rel, rank) && g in rel
    ensures x in ChainOf(rel, rank, g) <==> Reaches(rel, rank, g, x)
    decreases rank[g], 1
  {
    var c := ChainOf(rel, rank, g);
    if x in c {
      assert x in Branch(rel, rank, g, 0) || x in Branch(rel, rank, g, 1)
          || x in Branch(rel, rank, g, 2) || x in Branch(rel, rank, g, 3);
      var i :| 0 <= i < 4 && x in Branch(rel, rank, g, i);
      BranchMembers(rel, rank, g, i, x);
    }
    if Reaches(rel, rank, g, x) {
      var i :| 0 <= i < 4 && rel[g][i].Some? &&
        (rel[g][i].value == x || Reaches(rel, rank, rel[g][i].value, x));
      BranchMembers(rel, rank, g, i, x);
    }
  }

  lemma {:induction false} BranchMembers(rel: FollowerRel, rank: map<GotchiId, nat>, g: GotchiId, i: int, x: GotchiId)
    requires Ranked(rel, rank) && g in rel && 0 <= i < 4
    ensures x in Branch(rel, rank, g, i) <==>
      rel[g][i].Some? && (rel[g][i].value == x || Reaches(rel, rank, rel[g][i].value, x))
    decreases rank[g], 0
  {
    match rel[g][i]
    case None =>
    case Some(f) => ChainMembers(rel, rank, f, x);
  }

  /** Everything in g's chain ranks below g; in particular g is not in its own chain. */
  lemma {:induction false} ChainRanksBelow(rel: FollowerRel, rank: map<GotchiId, nat>, g: GotchiId)
    requires Ranked(rel, rank) && g in rel
    ensures forall x :: x in ChainOf(rel, rank, g) ==> x in rel && rank[x] < rank[g]
    ensures g !in ChainOf(rel, rank, g)
    decreases rank[g], 1
  {
    BranchRanksBelow(rel, rank, g, 0);
    BranchRanksBelow(rel, rank, g, 1);
    BranchRanksBelow(rel, rank, g, 2);
    BranchRanksBelow(rel, rank, g, 3);
  }

  lemma {:induction false} BranchRanksBelow(rel: FollowerRel, rank: map<GotchiId, nat>, g: GotchiId, i: int)
    requires Ranked(rel, rank) && g in rel && 0 <= i < 4
    ensures forall x :: x in Branch(rel, rank, g, i) ==> x in rel && rank[x] < rank[g]
    decreases rank[g], 0
  {
    match rel[g][i]
    case None =>
    case Some(f) => ChainRanksBelow(rel, rank, f);
  }

  /** The chain depends on the stored links only, not on which ranking witnesses acyclicity. */
  lemma {:induction false} ChainIndependentOfRank(rel: FollowerRel, r1: map<GotchiId, nat>, r2: map<GotchiId, nat>, g: GotchiId)
    requires Ranked(rel, r1) && Ranked(rel, r2) && g in rel
    ensures ChainOf(rel, r1, g) == ChainOf(rel, r2, g)
    decreases r1[g], 1
  {
    BranchIndependentOfRank(rel, r1, r2, g, 0);
    BranchIndependentOfRank(rel, r1, r2, g, 1);
    BranchIndependentOfRank(rel, r1, r2, g, 2);
    BranchIndependentOfRank(rel, r1, r2, g, 3);
  }

  lemma {:induction false} BranchIndependentOfRank(rel: FollowerRel, r1: map<GotchiId, nat>, r2: map<GotchiId, nat>, g: GotchiId, i: int)
    requires Ranked(rel, r1) && Ranked(rel, r2) && g in rel && 0 <= i < 4
    ensures Branch(rel, r1, g, i) == Branch(rel, r2, g, i)
    decreases r1[g], 0
  {
    match rel[g][i]
    case None =>
    case Some(f) => ChainIndependentOfRank(rel, r1, r2, f);
  }

  /** A gotchi with no stored follower appends nothing, and one with a follower appends something. */
  lemma ChainEmptyIffNoFollower(rel: FollowerRel, rank: map<GotchiId, nat>, g: GotchiId)
    requires Ranked(rel, rank) && g in rel
    ensures ChainOf(rel, rank, g) == [] <==> !AnyFollower(rel[g])
  {
    if AnyFollower(rel[g]) {
      var i :| 0 <= i < |rel[g]| && rel[g][i].Some?;
      assert |Branch(rel, rank, g, i)| > 0;
    }
  }

  /** The first element is the follower in the lowest filled slot (closest follower first). */
  lemma ChainStartsWithFirstSlot(rel: FollowerRel, rank: map<GotchiId, nat>, g: GotchiId, k: int)
    requires Ranked(rel, rank) && g in rel && 0 <= k < 4
    requires rel[g][k].Some? && forall j :: 0 <= j < k ==> rel[g][j].None?
    ensures ChainOf(rel, rank, g) != [] && ChainOf(rel, rank, g)[0] == rel[g][k].value
  {
    assert forall j :: 0 <= j < k ==> Branch(rel, rank, g, j) == [];
    if k == 0 {
    } else if k == 1 {
      assert ChainOf(rel, rank, g) == Branch(rel, rank, g, 1) + Branch(rel, rank, g, 2) + Branch(rel, rank, g, 3);
    } else if k == 2 {
      assert ChainOf(rel, rank, g) == Branch(rel, rank, g, 2) + Branch(rel, rank, g, 3);
    } else {
      assert ChainOf(rel, rank, g) == Branch(rel, rank, g, 3);
    }
  }

  /** f is stored in one of g's follower slots. */
  ghost predicate StoredFollower(rel: FollowerRel, f: GotchiId, g: GotchiId)
  {
    g in rel && exists i :: 0 <= i < |rel[g]| && rel[g][i] == Some(f)
  }

  /** Each gotchi of c is stored as a follower of the one before it. */
  ghost predicate IsPath(rel: FollowerRel, c: seq<GotchiId>)
  {
    forall k :: 0 <= k < |c| - 1 ==> StoredFollower(rel, c[k + 1], c[k])
  }

  /** Along a path of stored links the rank drops at every step. */
  lemma {:induction false} RankFallsAlongPath(rel: FollowerRel, rank: map<GotchiId, nat>, c: seq<GotchiId>, k: int)
    requires Ranked(rel, rank) && IsPath(rel, c) && 0 <= k < |c| && c[0] in rel
    ensures c[k] in rel && rank[c[k]] + k <= rank[c[0]]
  {
    if k > 0 {
      RankFallsAlongPath(rel, rank, c, k - 1);
      assert StoredFollower(rel, c[k], c[k - 1]);
    }
  }

  /** A path of stored links that comes back to where it started rules out every ranking. */
  lemma CycleUnranked(rel: FollowerRel, c: seq<GotchiId>)
    requires IsPath(rel, c) && |c| >= 2 && c[0] == c[|c| - 1] && c[0] in rel
    ensures forall rank :: !Ranked(rel, rank)
  {
    forall rank ensures !Ranked(rel, rank) {
      if Ranked(rel, rank) {
        RankFallsAlongPath(rel, rank, c, |c| - 1);
      }
    }
  }

  // ---------------------------------------------------------------------
  // Configurations.

  /** Two gotchis side by side, 1 at (0,0) facing RIGHT and 2 at (0,1) facing LEFT. */
  function StaringPair(): (b: Board)
    ensures b.Valid()
  {
    Board(1, 2, 1, map[Pos(0, 0) := GotchiCell(1), Pos(0, 1) := GotchiCell(2)],
          map[1 := Right, 2 := Left])
  }

  lemma StaringPairFollowers()
    ensures FollowersOf(StaringPair(), Pos(0, 0)) == [None, None, None, Some(2)]
    ensures FollowersOf(StaringPair(), Pos(0, 1)) == [None, Some(1), None, None]
  {
    var b := StaringPair();
    assert FollowerFrom(b, Pos(1, 0), Up) == None;
    assert FollowerFrom(b, Pos(0, -1), Right) == None;
    assert FollowerFrom(b, Pos(-1, 0), Down) == None;
    assert FollowerFrom(b, Pos(0, 1), Left) == Some(2);
    assert FollowerFrom(b, Pos(1, 1), Up) == None;
    assert FollowerFrom(b, Pos(0, 0), Right) == Some(1);
    assert FollowerFrom(b, Pos(-1, 1), Down) == None;
    assert FollowerFrom(b, Pos(0, 2), Left) == None;
  }

  /**
   * findFollowers applies no stare veto: the staring pair record each other
   * as followers, so the stored links form a cycle that no ranking orders ...
   */
  lemma StaringPairIsCyclic()
    ensures var b := StaringPair();
            var rel := map[1 := FollowersOf(b, Pos(0, 0)), 2 := FollowersOf(b, Pos(0, 1))];
            forall rank :: !Ranked(rel, rank)
  {
    StaringPairFollowers();
    TwoCycleUnranked();
  }

  lemma TwoCycleUnranked()
    ensures forall rank :: !Ranked(map[1 := [None, None, None, Some(2)], 2 := [None, Some(1), None, None]], rank)
  {
    var rel := map[1 := [None, None, None, Some(2)], 2 := [None, Some(1), None, None]];
    assert rel[1][3] == Some(2) && rel[2][1] == Some(1);
    CycleUnranked(rel, [1, 2, 1]);
  }

  /** ... while findLeader gives neither of the pair a leader. */
  lemma StaringPairLeaderless()
    ensures LeaderOf(StaringPair(), Pos(0, 0), Right) == None
    ensures LeaderOf(StaringPair(), Pos(0, 1), Left) == None
  {
    StareVeto(StaringPair(), Pos(0, 0), Right);
  }

  /** Four gotchis facing round a 2x2 square: 1 RIGHT, 2 DOWN, 3 LEFT, 4 UP. */
  function Square(): (b: Board)
    ensures b.Valid()
  {
    Board(2, 2, 1,
          map[Pos(0, 0) := GotchiCell(1), Pos(0, 1) := GotchiCell(2),
              Pos(1, 1) := GotchiCell(3), Pos(1, 0) := GotchiCell(4)],
          map[1 := Right, 2 := Down, 3 := Left, 4 := Up])
  }

  /**
   * The stored follower links of the square run round it: each gotchi holds
   * the one behind it in one slot (2 holds 1, 1 holds 4, 4 holds 3, 3 holds
   * 2), so no ranking orders them.
   */
  lemma SquareIsCyclic()
    ensures var b := Square();
            var rel := map[1 := FollowersOf(b, Pos(0, 0)), 2 := FollowersOf(b, Pos(0, 1)),
                           3 := FollowersOf(b, Pos(1, 1)), 4 := FollowersOf(b, Pos(1, 0))];
            forall rank :: !Ranked(rel, rank)
  {
    var b := Square();
    var rel := map[1 := FollowersOf(b, Pos(0, 0)), 2 := FollowersOf(b, Pos(0, 1)),
                   3 := FollowersOf(b, Pos(1, 1)), 4 := FollowersOf(b, Pos(1, 0))];
    assert rel[2][1] == Some(1) && rel[1][0] == Some(4) && rel[4][3] == Some(3) && rel[3][2] == Some(2);
    FourCycleUnranked(rel, 2, 1, 4, 3);
  }

  /** Four stored links a -> b -> c -> d -> a rule out every ranking. */
  lemma FourCycleUnranked(rel: FollowerRel, a: GotchiId, b: GotchiId, c: GotchiId, d: GotchiId)
    requires StoredFollower(rel, b, a) && StoredFollower(rel, c, b)
    requires StoredFollower(rel, d, c) && StoredFollower(rel, a, d)
    ensures forall rank :: !Ranked(rel, rank)
  {
    var path := [a, b, c, d, a];
    assert IsPath(rel, path) by {
      forall k | 0 <= k < |path| - 1 ensures StoredFollower(rel, path[k + 1], path[k]) {
      }
    }
    CycleUnranked(rel, path);
  }

  /** Three gotchis in a column: 1 at (0,1) facing LEFT, 2 at (1,1) and 3 at (2,1) facing UP. */
  function Column(): (b: Board)
    ensures b.Valid()
  {
    Board(3, 3, 1, map[Pos(0, 1) := GotchiCell(1), Pos(1, 1) := GotchiCell(2), Pos(2, 1) := GotchiCell(3)],
          map[1 := Left, 2 := Up, 3 := Up])
  }

  /** The follower slots of the column, one gotchi at a time. */
  lemma ColumnFollowersOf1()
    ensures FollowersOf(Column(), Pos(0, 1)) == [Some(2), None, None, None]
  {
    var b := Column();
    assert FollowerFrom(b, Pos(1, 1), Up) == Some(2);
    assert FollowerFrom(b, Pos(0, 0), Right) == None;
    assert FollowerFrom(b, Pos(-1, 1), Down) == None;
    assert FollowerFrom(b, Pos(0, 2), Left) == None;
  }

  lemma ColumnFollowersOf2()
    ensures FollowersOf(Column(), Pos(1, 1)) == [Some(3), None, None, None]
  {
    var b := Column();
    assert FollowerFrom(b, Pos(2, 1), Up) == Some(3);
    assert FollowerFrom(b, Pos(1, 0), Right) == None;
    assert FollowerFrom(b, Pos(0, 1), Down) == None;
    assert FollowerFrom(b, Pos(1, 2), Left) == None;
  }

  lemma ColumnFollowersOf3()
    ensures FollowersOf(Column(), Pos(2, 1)) == [None, None, None, None]
  {
    var b := Column();
    assert FollowerFrom(b, Pos(3, 1), Up) == None;
    assert FollowerFrom(b, Pos(2, 0), Right) == None;
    assert FollowerFrom(b, Pos(1, 1), Down) == None;
    assert FollowerFrom(b, Pos(2, 2), Left) == None;
  }

  /** The gotchi at the foot of the column has the middle one as its leader. */
  lemma ColumnFootLeader()
    ensures LeaderOf(Column(), Pos(2, 1), Up) == Some(2)
  {
    assert Neighbor(Pos(2, 1), Up) == Pos(1, 1);
  }

  /** The middle gotchi has the head of the column as its leader. */
  lemma ColumnMiddleLeader()
    ensures LeaderOf(Column(), Pos(1, 1), Up) == Some(1)
  {
    assert Neighbor(Pos(1, 1), Up) == Pos(0, 1);
    assert Column().cells[Pos(0, 1)] == GotchiCell(1) && Column().dirs[1] == Left;
  }

  /** The head of the column faces an empty cell and has no leader. */
  lemma ColumnHeadLeader()
    ensures LeaderOf(Column(), Pos(0, 1), Left) == None
  {
    var b := Column();
    assert Neighbor(Pos(0, 1), Left) == Pos(0, 0);
    assert Pos(0, 0) !in b.cells;
    assert !b.HasGotchi(Neighbor(Pos(0, 1), Left));
  }

  /**
   * In the column 2 follows 1 and 3 follows 2, so the chain of 1 is [2, 3]
   * and the chain of 3 is empty.
   */
  lemma ColumnChain()
    ensures var b := Column();
            var rel := map[1 := FollowersOf(b, Pos(0, 1)), 2 := FollowersOf(b, Pos(1, 1)),
                           3 := FollowersOf(b, Pos(2, 1))];
            var rank := map[1 := 2, 2 := 1, 3 := 0];
            && Ranked(rel, rank)
            && ChainOf(rel, rank, 1) == [2, 3] && ChainOf(rel, rank, 3) == []
  {
    ColumnFollowersOf1();
    ColumnFollowersOf2();
    ColumnFollowersOf3();
    LineChain();
  }

  lemma LineChain()
    ensures var rel := map[1 := [Some(2), None, None, None], 2 := [Some(3), None, None, None],
                           3 := [None, None, None, None]];
            var rank := map[1 := 2, 2 := 1, 3 := 0];
            && Ranked(rel, rank)
            && ChainOf(rel, rank, 1) == [2, 3] && ChainOf(rel, rank, 3) == []
  {
    var rel := map[1 := [Some(2), None, None, None], 2 := [Some(3), None, None, None],
                   3 := [None, None, None, None]];
    var rank := map[1 := 2, 2 := 1, 3 := 0];
    assert Ranked(rel, rank);
    assert ChainOf(rel, rank, 3) == [];
    assert ChainOf(rel, rank, 2) == [3];
  }

  /** The leader scenarios: a stare gives no leader, a sideways look gives one. */
  lemma LeaderScenarios()
    ensures LeaderOf(Board(3, 3, 1, map[Pos(1, 1) := GotchiCell(1), Pos(0, 1) := GotchiCell(2)],
                           map[1 := Up, 2 := Down]), Pos(1, 1), Up) == None
    ensures LeaderOf(Board(3, 3, 1, map[Pos(1, 1) := GotchiCell(1), Pos(0, 1) := GotchiCell(2)],
                           map[1 := Up, 2 := Left]), Pos(1, 1), Up) == Some(2)
  {
  }
}
