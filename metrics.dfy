/**
 * Performance bookkeeping for one run of a search algorithm, and the
 * comparison of several runs. A metrics dictionary handed to the comparison
 * is modelled as a record whose keys may be absent (`None`).
 */
module Metrics {
  import opened Wrappers
  import opened Environment
  import opened Selection

  /** The dictionary returned by `get_summary`. */
  datatype Summary = Summary(success: bool, pathLength: nat, pathCost: real, nodesExpanded: int, executionTime: real)

  class PerformanceMetrics {
    var pathCost: real
    var pathLength: nat
    var nodesExpanded: int
    var executionTime: real
    var success: bool
    /** Wall-clock time at which the running timer was started, if one is running. */
    var startTime: Option<real>

    ghost predicate IsReset()
      reads this
    {
      && pathCost == 0.0 && pathLength == 0 && nodesExpanded == 0
      && executionTime == 0.0 && !success && startTime == None
    }

    /** A run succeeded exactly when it recorded a path with at least one cell. */
    ghost predicate Consistent()
      reads this
    {
      success <==> pathLength > 0
    }

    constructor ()
      ensures IsReset() && Consistent()
    {
      new;
      Reset();
    }

    method Reset()
      modifies this
      ensures IsReset() && Consistent()
    {
      pathCost := 0.0;
      pathLength := 0;
      nodesExpanded := 0;
      executionTime := 0.0;
      success := false;
      startTime := None;
    }

    /** `path` is `None` when the search returned no path. */
    method RecordPath(path: Option<seq<Pos>>, cost: real, expanded: int)
      modifies this
      ensures pathLength == (if path.Some? then |path.value| else 0)
      ensures pathCost == cost && nodesExpanded == expanded
      ensures success <==> path.Some? && |path.value| > 0
      ensures executionTime == old(executionTime) && startTime == old(startTime)
      ensures Consistent()
    {
      // a path is falsy when absent or empty
      pathLength := if path.Some? && |path.value| > 0 then |path.value| else 0;
      pathCost := cost;
      nodesExpanded := expanded;
      success := path.Some? && |path.value| > 0;
    }

    /** The five recorded figures; the timer's start is not reported. */
    function GetSummary(): (s: Summary)
      reads this
      ensures s.success == success && s.pathLength == pathLength && s.pathCost == pathCost
      ensures s.nodesExpanded == nodesExpanded && s.executionTime == executionTime
      ensures Consistent() ==> (s.success <==> s.pathLength > 0)
    {
      Summary(success, pathLength, pathCost, nodesExpanded, executionTime)
    }
  }

  // ---------------------------------------------------------------------------
  // Comparing algorithms

  /**
   * One algorithm's metrics dictionary: an absent or falsy `success` is
   * `false`, an absent number is `None`.
   */
  datatype AlgoMetrics = AlgoMetrics(success: bool, pathCost: Option<real>, nodesExpanded: Option<int>,
                                     executionTime: Option<real>)

  /** The six entries of the comparison dictionary; `None` where no run qualified. */
  datatype Comparison = Comparison(bestCost: Option<real>, bestCostAlgo: Option<string>,
                                   mostEfficient: Option<int>, mostEfficientAlgo: Option<string>,
                                   fastest: Option<real>, fastestAlgo: Option<string>)

  /** A summary read back as a metrics dictionary has every key the comparison reads. */
  function SummaryEntry(s: Summary): (m: AlgoMetrics)
    ensures !MissingKey(m)
    ensures m.success == s.success && TimeKey(m).Some? == s.success
  {
    AlgoMetrics(s.success, Some(s.pathCost), Some(s.nodesExpanded), Some(s.executionTime))
  }

  /** A successful entry without `path_cost` or `nodes_expanded` raises `KeyError`. */
  predicate MissingKey(m: AlgoMetrics)
  {
    m.success && (m.pathCost.None? || m.nodesExpanded.None?)
  }

  /** The key `KeyError` names: `path_cost` is read first. */
  function MissingKeyName(m: AlgoMetrics): string
  {
    if m.pathCost.None? then "path_cost" else "nodes_expanded"
  }

  /** The value an entry competes with, if it competes at all. */
  function CostKey(m: AlgoMetrics): Option<real>
  {
    if m.success then m.pathCost else None
  }

  function ExpandedKey(m: AlgoMetrics): Option<real>
  {
    if m.success && m.nodesExpanded.Some? then Some(m.nodesExpanded.value as real) else None
  }

  /** A missing `execution_time` reads as infinity, which never beats the running minimum. */
  function TimeKey(m: AlgoMetrics): Option<real>
  {
    if m.success then m.executionTime else None
  }

  function AsReal(n: Option<int>): Option<real>
  {
    if n.Some? then Some(n.value as real) else None
  }

  ghost function Names(results: seq<(string, AlgoMetrics)>): (r: seq<string>)
    ensures |r| == |results|
  {
    seq(|results|, i requires 0 <= i < |results| => results[i].0)
  }

  ghost function CostKeys(results: seq<(string, AlgoMetrics)>): (r: seq<Option<real>>)
    ensures |r| == |results|
  {
    seq(|results|, i requires 0 <= i < |results| => CostKey(results[i].1))
  }

  ghost function ExpandedKeys(results: seq<(string, AlgoMetrics)>): (r: seq<Option<real>>)
    ensures |r| == |results|
  {
    seq(|results|, i requires 0 <= i < |results| => ExpandedKey(results[i].1))
  }

  ghost function TimeKeys(results: seq<(string, AlgoMetrics)>): (r: seq<Option<real>>)
    ensures |r| == |results|
  {
    seq(|results|, i requires 0 <= i < |results| => TimeKey(results[i].1))
  }

  /**
   * The loop body of `compare_algorithms` for one entry `algo: metrics`. A
   * successful entry without `path_cost` or `nodes_expanded` raises
   * `KeyError`; otherwise each running minimum moves to this entry exactly
   * when the entry's key is strictly smaller. The running minima `best_cost`,
   * `best_expanded` and `fastest_time` always equal the comparison's own
   * figures (infinity being `None`), so they are read from `c`.
   */
  method RecordEntry(c: Comparison, algo: string, metrics: AlgoMetrics) returns (r: Result<Comparison, string>)
    ensures r.Err? <==> MissingKey(metrics)
    ensures r.Err? ==> r.error == MissingKeyName(metrics)
    ensures r.Ok? ==>
      if Improves(c.bestCost, CostKey(metrics))
      then r.value.bestCost == CostKey(metrics) && r.value.bestCostAlgo == Some(algo)
      else r.value.bestCost == c.bestCost && r.value.bestCostAlgo == c.bestCostAlgo
    ensures r.Ok? ==>
      if Improves(AsReal(c.mostEfficient), ExpandedKey(metrics))
      then AsReal(r.value.mostEfficient) == ExpandedKey(metrics) && r.value.mostEfficientAlgo == Some(algo)
      else r.value.mostEfficient == c.mostEfficient && r.value.mostEfficientAlgo == c.mostEfficientAlgo
    ensures r.Ok? ==>
      if Improves(c.fastest, TimeKey(metrics))
      then r.value.fastest == TimeKey(metrics) && r.value.fastestAlgo == Some(algo)
      else r.value.fastest == c.fastest && r.value.fastestAlgo == c.fastestAlgo
  {
    var comparison := c;
    if metrics.success {
      // best cost
      if metrics.pathCost.None? {
        return Err("path_cost");
      }
      if comparison.bestCost.None? || metrics.pathCost.value < comparison.bestCost.value {
        comparison := comparison.(bestCost := metrics.pathCost, bestCostAlgo := Some(algo));
      }
      // most efficient (fewest nodes expanded)
      if metrics.nodesExpanded.None? {
        return Err("nodes_expanded");
      }
      if comparison.mostEfficient.None? || metrics.nodesExpanded.value < comparison.mostEfficient.value {
        comparison := comparison.(mostEfficient := metrics.nodesExpanded, mostEfficientAlgo := Some(algo));
      }
      // fastest; an absent time is infinity and never smaller
      if metrics.executionTime.Some? && (comparison.fastest.None? || metrics.executionTime.value < comparison.fastest.value) {
        comparison := comparison.(fastest := metrics.executionTime, fastestAlgo := Some(algo));
      }
    }
    r := Ok(comparison);
  }

  /**
   * `compare_algorithms`: one pass over the entries in iteration order,
   * keeping three running minima that start at infinity and move only on a
   * strictly smaller value, for successful entries only.
   */
  method CompareAlgorithms(results: seq<(string, AlgoMetrics)>) returns (r: Result<Comparison, string>)
    ensures r.Err? <==> exists k :: 0 <= k < |results| && MissingKey(results[k].1)
    ensures r.Err? ==> exists k :: 0 <= k < |results| && MissingKey(results[k].1)
                                   && (forall j :: 0 <= j < k ==> !MissingKey(results[j].1))
                                   && r.error == MissingKeyName(results[k].1)
    ensures r.Ok? ==> Winner(CostKeys(results), Names(results), r.value.bestCost, r.value.bestCostAlgo)
    ensures r.Ok? ==> Winner(ExpandedKeys(results), Names(results), AsReal(r.value.mostEfficient),
                             r.value.mostEfficientAlgo)
    ensures r.Ok? ==> Winner(TimeKeys(results), Names(results), r.value.fastest, r.value.fastestAlgo)
  {
    ghost var names, costs, expanded, times := Names(results), CostKeys(results), ExpandedKeys(results), TimeKeys(results);
    var comparison := Comparison(None, None, None, None, None, None);
    ghost var kc, ke, kt := 0, 0, 0;
    var i := 0;
    while i < |results|
      invariant 0 <= i <= |results|
      invariant forall j :: 0 <= j < i ==> !MissingKey(results[j].1)
      invariant WinnerUpTo(costs, names, i, comparison.bestCost, comparison.bestCostAlgo, kc)
      invariant WinnerUpTo(expanded, names, i, AsReal(comparison.mostEfficient), comparison.mostEfficientAlgo, ke)
      invariant WinnerUpTo(times, names, i, comparison.fastest, comparison.fastestAlgo, kt)
    {
      var entry := RecordEntry(comparison, results[i].0, results[i].1);
      if entry.Err? {
        return Err(entry.error);
      }
      kc, ke, kt := EntryStep(results, i, comparison, entry.value, kc, ke, kt);
      comparison := entry.value;
      i := i + 1;
    }
    WinnerAtEnd(costs, names, comparison.bestCost, comparison.bestCostAlgo, kc);
    WinnerAtEnd(expanded, names, AsReal(comparison.mostEfficient), comparison.mostEfficientAlgo, ke);
    WinnerAtEnd(times, names, comparison.fastest, comparison.fastestAlgo, kt);
    r := Ok(comparison);
  }

  /** The three running minima after entry `i`, given what `RecordEntry` promises about entry `i`. */
  lemma EntryStep(results: seq<(string, AlgoMetrics)>, i: int, c: Comparison, e: Comparison, kc: int, ke: int, kt: int)
    returns (kc': int, ke': int, kt': int)
    requires 0 <= i < |results|
    requires WinnerUpTo(CostKeys(results), Names(results), i, c.bestCost, c.bestCostAlgo, kc)
    requires WinnerUpTo(ExpandedKeys(results), Names(results), i, AsReal(c.mostEfficient), c.mostEfficientAlgo, ke)
    requires WinnerUpTo(TimeKeys(results), Names(results), i, c.fastest, c.fastestAlgo, kt)
    requires if Improves(c.bestCost, CostKey(results[i].1))
             then e.bestCost == CostKey(results[i].1) && e.bestCostAlgo == Some(results[i].0)
             else e.bestCost == c.bestCost && e.bestCostAlgo == c.bestCostAlgo
    requires if Improves(AsReal(c.mostEfficient), ExpandedKey(results[i].1))
             then AsReal(e.mostEfficient) == ExpandedKey(results[i].1) && e.mostEfficientAlgo == Some(results[i].0)
             else e.mostEfficient == c.mostEfficient && e.mostEfficientAlgo == c.mostEfficientAlgo
    requires if Improves(c.fastest, TimeKey(results[i].1))
             then e.fastest == TimeKey(results[i].1) && e.fastestAlgo == Some(results[i].0)
             else e.fastest == c.fastest && e.fastestAlgo == c.fastestAlgo
    ensures WinnerUpTo(CostKeys(results), Names(results), i + 1, e.bestCost, e.bestCostAlgo, kc')
    ensures WinnerUpTo(ExpandedKeys(results), Names(results), i + 1, AsReal(e.mostEfficient), e.mostEfficientAlgo, ke')
    ensures WinnerUpTo(TimeKeys(results), Names(results), i + 1, e.fastest, e.fastestAlgo, kt')
  {
    var names, costs, expanded, times := Names(results), CostKeys(results), ExpandedKeys(results), TimeKeys(results);
    WinnerStep(costs, names, i, c.bestCost, c.bestCostAlgo, kc);
    WinnerStep(expanded, names, i, AsReal(c.mostEfficient), c.mostEfficientAlgo, ke);
    WinnerStep(times, names, i, c.fastest, c.fastestAlgo, kt);
    kc' := if Improves(c.bestCost, costs[i]) then i else kc;
    ke' := if Improves(AsReal(c.mostEfficient), expanded[i]) then i else ke;
    kt' := if Improves(c.fastest, times[i]) then i else kt;
  }

  /** An entry that did not succeed is never a winner of any of the three. */
  lemma UnsuccessfulNeverWins(results: seq<(string, AlgoMetrics)>, k: int)
    requires 0 <= k < |results| && !results[k].1.success
    ensures !IsFirstMin(CostKeys(results), k)
    ensures !IsFirstMin(ExpandedKeys(results), k)
    ensures !IsFirstMin(TimeKeys(results), k)
  {
  }

  /** With no successful entry, all six figures of the comparison stay `None`. */
  lemma NoSuccessNoWinner(results: seq<(string, AlgoMetrics)>, c: Comparison)
    requires forall j :: 0 <= j < |results| ==> !results[j].1.success
    requires Winner(CostKeys(results), Names(results), c.bestCost, c.bestCostAlgo)
    requires Winner(ExpandedKeys(results), Names(results), AsReal(c.mostEfficient), c.mostEfficientAlgo)
    requires Winner(TimeKeys(results), Names(results), c.fastest, c.fastestAlgo)
    ensures c == Comparison(None, None, None, None, None, None)
  {
  }
}
