/**
 * The player's resource counters, as far as the handlers use them
 * (getStat / adjustStat). The Player class itself is not part of this model.
 */
module PlayerStats {
  import opened Grid

  /** The counters the handlers read and charge. */
  datatype Stat = Move | MoveGotchi | MoveAggro | MoveBooster | Rotate | Portal

  class Player {
    var stats: map<Stat, int>

    ghost predicate Valid()
      reads this
    {
      forall s: Stat :: s in stats
    }

    constructor (initial: map<Stat, int>)
      requires forall s: Stat :: s in initial
      ensures Valid() && stats == initial
    {
      stats := initial;
    }

    function GetStat(s: Stat): int
      requires Valid()
      reads this
    {
      stats[s]
    }

    method AdjustStat(s: Stat, delta: int)
      requires Valid()
      modifies this
      ensures Valid() && stats == old(stats)[s := old(stats[s]) + delta]
    {
      stats := stats[s := stats[s] + delta];
    }
  }

  /**
   * The counters after a drag ends: counter s drops by one exactly when the
   * final cell differs from the cell the drag started from; no other counter
   * changes. No floor is applied, so a counter may go negative.
   */
  function ChargeIfMoved(stats: map<Stat, int>, s: Stat, origin: Pos, final: Pos): (r: map<Stat, int>)
    requires s in stats
    ensures r.Keys == stats.Keys
    ensures r[s] == stats[s] - 1 <==> origin != final
    ensures origin == final ==> r == stats
    ensures forall t :: t in stats && t != s ==> r[t] == stats[t]
  {
    if origin != final then stats[s := stats[s] - 1] else stats
  }
}
