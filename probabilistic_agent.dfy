/**
 * The Bayesian grid agent. It keeps a belief map from cells to the
 * probability that the cell is an obstacle, refines it from noisy boolean
 * readings, and moves to the admissible neighbour with the lowest
 * risk-plus-distance score.
 *
 * The random sensor is replaced by the readings it would have produced, in
 * the order the agent asks for them; the environment's neighbour list for
 * the agent's cell is an argument of `Act`.
 */
module ProbabilisticAgents {
  import opened Wrappers
  import opened Environment
  import opened BayesReasoning
  import opened Selection

  const DefaultSensorAccuracy: real := 0.9
  /** Belief of a cell with no entry, and of every cell other than start and goal at first. */
  const UniformPrior: real := 0.5
  /** Belief of the start and goal cells at first. */
  const KnownFree: real := 0.0
  /** A neighbour is a candidate move only when its belief is strictly below this. */
  const SafeThreshold: real := 0.7
  /** Added to the score of the cell the agent came from. */
  const BacktrackPenalty: real := 1.0

  type Beliefs = map<Pos, real>

  /** `beliefs.get(p, 0.5)`. */
  function Lookup(b: Beliefs, p: Pos): real
  {
    if p in b then b[p] else UniformPrior
  }

  ghost predicate AllProbabilities(b: Beliefs)
  {
    forall p :: p in b ==> 0.0 <= b[p] <= 1.0
  }

  /** No cell occurs twice; stated from the end, as the neighbour loop is. */
  ghost predicate Distinct(s: seq<Pos>)
  {
    |s| == 0 || (s[|s| - 1] !in s[..|s| - 1] && Distinct(s[..|s| - 1]))
  }

  // ---------------------------------------------------------------------------
  // Initial beliefs

  function InitialBelief(p: Pos, start: Pos, goal: Pos): real
  {
    if p == start || p == goal then KnownFree else UniformPrior
  }

  /** The cells (row, col) with 0 <= row < height and 0 <= col < width. */
  ghost function Cells(height: int, width: int): set<Pos>
  {
    set r: int, c: int | 0 <= r < height && 0 <= c < width :: (r, c)
  }

  /** The first `col` cells of row `row`. */
  ghost function RowCells(row: int, col: int): set<Pos>
  {
    set c: int | 0 <= c < col :: (row, c)
  }

  ghost function PriorMap(cells: set<Pos>, start: Pos, goal: Pos): (m: Beliefs)
    ensures m.Keys == cells
  {
    map p | p in cells :: InitialBelief(p, start, goal)
  }

  lemma PriorMapInsert(b0: Beliefs, cells: set<Pos>, p: Pos, start: Pos, goal: Pos)
    ensures (b0 + PriorMap(cells, start, goal))[p := InitialBelief(p, start, goal)]
         == b0 + PriorMap(cells + {p}, start, goal)
  {
  }

  lemma RowCellsStep(row: int, col: int)
    requires 0 <= col
    ensures RowCells(row, col) + {(row, col)} == RowCells(row, col + 1)
  {
    assert forall q :: q in RowCells(row, col + 1) ==> q in RowCells(row, col) + {(row, col)};
  }

  lemma CellsStep(row: int, width: int)
    requires 0 <= row && 0 <= width
    ensures Cells(row, width) + RowCells(row, width) == Cells(row + 1, width)
  {
    forall q | q in Cells(row + 1, width)
      ensures q in Cells(row, width) + RowCells(row, width)
    {
      if q.0 < row {
        assert q in Cells(row, width);
      } else {
        assert q in RowCells(row, width);
      }
    }
  }

  // ---------------------------------------------------------------------------
  // One reading

  /** (P(reading | obstacle), P(reading | free)) for a sensor that is right with probability `accuracy`. */
  function Likelihoods(reading: bool, accuracy: real): (l: (real, real))
    ensures l.0 + l.1 == 1.0
    ensures reading ==> l.0 == accuracy
    ensures !reading ==> l.1 == accuracy
  {
    if reading then (accuracy, 1.0 - accuracy) else (1.0 - accuracy, accuracy)
  }

  /** The belief map after folding one reading of `position` into it. */
  function UpdatedBeliefs(b: Beliefs, accuracy: real, reading: bool, position: Pos): (b': Beliefs)
    ensures b'.Keys == b.Keys + {position}
    ensures forall p :: p in b && p != position ==> b'[p] == b[p]
    ensures var (lh, lnh) := Likelihoods(reading, accuracy);
            Lookup(b', position) == Posterior(Lookup(b, position), lh, lnh)
  {
    var prior := Lookup(b, position);
    var (lh, lnh) := Likelihoods(reading, accuracy);
    b[position := BayesUpdate(prior, lh, ComputeEvidence(prior, lh, lnh))]
  }

  /**
   * A reading of "obstacle" from a sensor at least as accurate as a coin
   * never lowers the cell's belief, and a reading of "free" never raises it.
   */
  lemma ReadingDirection(b: Beliefs, accuracy: real, reading: bool, position: Pos)
    requires 0.5 <= accuracy <= 1.0
    requires 0.0 <= Lookup(b, position) <= 1.0
    ensures reading ==> Lookup(UpdatedBeliefs(b, accuracy, reading, position), position) >= Lookup(b, position)
    ensures !reading ==> Lookup(UpdatedBeliefs(b, accuracy, reading, position), position) <= Lookup(b, position)
  {
    var (lh, lnh) := Likelihoods(reading, accuracy);
    EvidenceDirection(Lookup(b, position), lh, lnh);
  }

  lemma UpdateKeepsProbabilities(b: Beliefs, accuracy: real, reading: bool, position: Pos)
    requires 0.0 <= accuracy <= 1.0 && AllProbabilities(b)
    ensures AllProbabilities(UpdatedBeliefs(b, accuracy, reading, position))
  {
    var (lh, lnh) := Likelihoods(reading, accuracy);
    PosteriorIsProbability(Lookup(b, position), lh, lnh);
  }

  // ---------------------------------------------------------------------------
  // The sensing pass of one move

  /**
   * The neighbour loop: each neighbour in order is sensed and updated, then
   * kept as a safe move when its belief right after that update is below the
   * threshold. Defined on prefixes (the last neighbour is the last step).
   */
  function Scan(b: Beliefs, accuracy: real, nbrs: seq<Pos>, readings: seq<bool>): (r: (Beliefs, seq<Pos>))
    requires |readings| == |nbrs|
    ensures r.0.Keys == b.Keys + (set n | n in nbrs)
    ensures forall p :: p in b && p !in nbrs ==> r.0[p] == b[p]
    ensures forall p :: p in r.1 ==> p in nbrs
    ensures |r.1| <= |nbrs|
    decreases |nbrs|
  {
    if |nbrs| == 0 then (b, [])
    else
      var n := |nbrs| - 1;
      var before := Scan(b, accuracy, nbrs[..n], readings[..n]);
      var b2 := UpdatedBeliefs(before.0, accuracy, readings[n], nbrs[n]);
      (b2, if Lookup(b2, nbrs[n]) < SafeThreshold then before.1 + [nbrs[n]] else before.1)
  }

  /** The last step of the neighbour loop, unfolded. */
  lemma ScanStep(b: Beliefs, accuracy: real, nbrs: seq<Pos>, readings: seq<bool>, nbr: Pos, reading: bool)
    requires |readings| == |nbrs|
    ensures var before := Scan(b, accuracy, nbrs, readings);
            var b2 := UpdatedBeliefs(before.0, accuracy, reading, nbr);
            Scan(b, accuracy, nbrs + [nbr], readings + [reading])
            == (b2, if Lookup(b2, nbr) < SafeThreshold then before.1 + [nbr] else before.1)
  {
    assert (nbrs + [nbr])[..|nbrs|] == nbrs;
    assert (readings + [reading])[..|readings|] == readings;
  }

  /**
   * Sensing the agent's cell and then each neighbour: the belief map after the
   * pass and the safe moves collected. `readings[0]` is the agent's cell,
   * `readings[i + 1]` is `nbrs[i]`.
   */
  function SenseCycle(b: Beliefs, accuracy: real, here: Pos, nbrs: seq<Pos>, readings: seq<bool>): (r: (Beliefs, seq<Pos>))
    requires |readings| == |nbrs| + 1
    ensures r.0.Keys == b.Keys + {here} + (set n | n in nbrs)
    ensures forall p :: p in b && p != here && p !in nbrs ==> r.0[p] == b[p]
    ensures forall p :: p in r.1 ==> p in nbrs
  {
    Scan(UpdatedBeliefs(b, accuracy, readings[0], here), accuracy, nbrs, readings[1..])
  }

  /** The neighbours, in order, whose belief in `b` is below the threshold. */
  function SafeFilter(b: Beliefs, cands: seq<Pos>): (r: seq<Pos>)
    ensures forall p :: p in r <==> p in cands && Lookup(b, p) < SafeThreshold
    ensures |r| <= |cands|
  {
    if |cands| == 0 then []
    else
      var n := |cands| - 1;
      SafeFilter(b, cands[..n]) + (if Lookup(b, cands[n]) < SafeThreshold then [cands[n]] else [])
  }

  lemma {:induction false} SafeFilterFrame(b: Beliefs, b': Beliefs, cands: seq<Pos>)
    requires forall p :: p in cands ==> Lookup(b, p) == Lookup(b', p)
    ensures SafeFilter(b, cands) == SafeFilter(b', cands)
  {
    if |cands| > 0 {
      var n := |cands| - 1;
      assert forall p :: p in cands[..n] ==> p in cands;
      SafeFilterFrame(b, b', cands[..n]);
      assert Lookup(b, cands[n]) == Lookup(b', cands[n]);
    }
  }

  /** Updating the last cell, not seen before it, appends at most that cell to the filter. */
  lemma FilterStep(b1: Beliefs, accuracy: real, reading: bool, cands: seq<Pos>)
    requires |cands| > 0 && cands[|cands| - 1] !in cands[..|cands| - 1]
    ensures var x := cands[|cands| - 1];
            var b2 := UpdatedBeliefs(b1, accuracy, reading, x);
            SafeFilter(b2, cands)
            == SafeFilter(b1, cands[..|cands| - 1]) + (if Lookup(b2, x) < SafeThreshold then [x] else [])
  {
    var x := cands[|cands| - 1];
    SafeFilterFrame(b1, UpdatedBeliefs(b1, accuracy, reading, x), cands[..|cands| - 1]);
  }

  /**
   * With distinct neighbours the safe moves collected during the pass are
   * exactly the neighbours, in order, whose FINAL belief is below the threshold.
   */
  lemma {:induction false} ScanIsFilter(b: Beliefs, accuracy: real, nbrs: seq<Pos>, readings: seq<bool>)
    requires |readings| == |nbrs| && Distinct(nbrs)
    ensures Scan(b, accuracy, nbrs, readings).1 == SafeFilter(Scan(b, accuracy, nbrs, readings).0, nbrs)
  {
    if |nbrs| > 0 {
      var n := |nbrs| - 1;
      ScanIsFilter(b, accuracy, nbrs[..n], readings[..n]);
      FilterStep(Scan(b, accuracy, nbrs[..n], readings[..n]).0, accuracy, readings[n], nbrs);
    }
  }

  lemma SenseCycleIsFilter(b: Beliefs, accuracy: real, here: Pos, nbrs: seq<Pos>, readings: seq<bool>)
    requires |readings| == |nbrs| + 1 && Distinct(nbrs)
    ensures SenseCycle(b, accuracy, here, nbrs, readings).1 == SafeFilter(SenseCycle(b, accuracy, here, nbrs, readings).0, nbrs)
  {
    ScanIsFilter(UpdatedBeliefs(b, accuracy, readings[0], here), accuracy, nbrs, readings[1..]);
  }

  /** The belief map after the neighbour loop is the map after its prefix, updated with the last reading. */
  lemma ScanLast(b: Beliefs, accuracy: real, nbrs: seq<Pos>, readings: seq<bool>)
    requires |readings| == |nbrs| > 0
    ensures var n := |nbrs| - 1;
            Scan(b, accuracy, nbrs, readings).0
            == UpdatedBeliefs(Scan(b, accuracy, nbrs[..n], readings[..n]).0, accuracy, readings[n], nbrs[n])
  {
  }

  /** A cell with belief 0.0 (start and goal at first) keeps it through a pass. */
  lemma {:induction false} ScanKeepsKnownFree(b: Beliefs, accuracy: real, nbrs: seq<Pos>, readings: seq<bool>, p: Pos)
    requires |readings| == |nbrs| && Lookup(b, p) == KnownFree
    ensures Lookup(Scan(b, accuracy, nbrs, readings).0, p) == KnownFree
  {
    if |nbrs| > 0 {
      var n := |nbrs| - 1;
      ScanKeepsKnownFree(b, accuracy, nbrs[..n], readings[..n], p);
      ScanLast(b, accuracy, nbrs, readings);
      var (lh, lnh) := Likelihoods(readings[n], accuracy);
      CertainlyFreeIsFixed(lh, lnh);
    }
  }

  lemma SenseCycleKeepsKnownFree(b: Beliefs, accuracy: real, here: Pos, nbrs: seq<Pos>, readings: seq<bool>, p: Pos)
    requires |readings| == |nbrs| + 1 && Lookup(b, p) == KnownFree
    ensures Lookup(SenseCycle(b, accuracy, here, nbrs, readings).0, p) == KnownFree
  {
    var (lh, lnh) := Likelihoods(readings[0], accuracy);
    CertainlyFreeIsFixed(lh, lnh);
    ScanKeepsKnownFree(UpdatedBeliefs(b, accuracy, readings[0], here), accuracy, nbrs, readings[1..], p);
  }

  /** With a sensor accuracy in [0, 1] every belief stays a probability. */
  lemma {:induction false} ScanKeepsProbabilities(b: Beliefs, accuracy: real, nbrs: seq<Pos>, readings: seq<bool>)
    requires |readings| == |nbrs| && 0.0 <= accuracy <= 1.0 && AllProbabilities(b)
    ensures AllProbabilities(Scan(b, accuracy, nbrs, readings).0)
  {
    if |nbrs| > 0 {
      var n := |nbrs| - 1;
      ScanKeepsProbabilities(b, accuracy, nbrs[..n], readings[..n]);
      ScanLast(b, accuracy, nbrs, readings);
      UpdateKeepsProbabilities(Scan(b, accuracy, nbrs[..n], readings[..n]).0, accuracy, readings[n], nbrs[n]);
    }
  }

  lemma SenseCycleKeepsProbabilities(b: Beliefs, accuracy: real, here: Pos, nbrs: seq<Pos>, readings: seq<bool>)
    requires |readings| == |nbrs| + 1 && 0.0 <= accuracy <= 1.0 && AllProbabilities(b)
    ensures AllProbabilities(SenseCycle(b, accuracy, here, nbrs, readings).0)
  {
    UpdateKeepsProbabilities(b, accuracy, readings[0], here);
    ScanKeepsProbabilities(UpdatedBeliefs(b, accuracy, readings[0], here), accuracy, nbrs, readings[1..]);
  }

  // ---------------------------------------------------------------------------
  // Choosing the move

  /** Belief + Manhattan distance to the goal + 1 for the cell the agent came from. */
  function Score(n: Pos, b: Beliefs, goal: Pos, prev: Option<Pos>): real
  {
    Lookup(b, n) + Manhattan(n, goal) as real + (if prev == Some(n) then BacktrackPenalty else 0.0)
  }

  ghost function Scores(cands: seq<Pos>, b: Beliefs, goal: Pos, prev: Option<Pos>): (r: seq<Option<real>>)
    ensures |r| == |cands|
    ensures forall i :: 0 <= i < |cands| ==> r[i] == Some(Score(cands[i], b, goal, prev))
  {
    seq(|cands|, i requires 0 <= i < |cands| => Some(Score(cands[i], b, goal, prev)))
  }

  /** `m` is the earliest candidate whose score no candidate beats. */
  ghost predicate ChoosesFirstBest(cands: seq<Pos>, b: Beliefs, goal: Pos, prev: Option<Pos>, m: Pos)
  {
    exists k :: 0 <= k < |cands| && IsFirstMin(Scores(cands, b, goal, prev), k) && cands[k] == m
  }

  /** The scoring loop: a running minimum from "infinity", replaced on a strictly smaller score. */
  method SelectBest(cands: seq<Pos>, b: Beliefs, goal: Pos, prev: Option<Pos>) returns (best: Option<Pos>, bestScore: real)
    ensures best.None? <==> |cands| == 0
    ensures best.Some? ==> ChoosesFirstBest(cands, b, goal, prev, best.value)
    ensures best.Some? ==> bestScore == Score(best.value, b, goal, prev)
  {
    ghost var keys := Scores(cands, b, goal, prev);
    best, bestScore := None, 0.0;  // no best yet: best_score is infinity
    ghost var k := 0;
    var i := 0;
    while i < |cands|
      invariant 0 <= i <= |cands|
      invariant best.None? <==> i == 0
      invariant best.Some? ==> 0 <= k < i && IsFirstMinUpTo(keys, i, k) && best.value == cands[k]
      invariant best.Some? ==> bestScore == Score(cands[k], b, goal, prev)
    {
      var score := Score(cands[i], b, goal, prev);
      if best.None? || score < bestScore {
        best, bestScore := Some(cands[i]), score;
        k := i;
      }
      i := i + 1;
    }
  }

  /**
   * When the goal is an (admissible, not just left) neighbour believed free,
   * the agent steps onto it: its score is 0 and every other neighbour is at
   * distance at least 1.
   */
  lemma GoalNeighbourIsChosen(b: Beliefs, accuracy: real, here: Pos, nbrs: seq<Pos>, readings: seq<bool>,
                              goal: Pos, prev: Option<Pos>, m: Pos)
    requires |readings| == |nbrs| + 1 && Distinct(nbrs)
    requires 0.0 <= accuracy <= 1.0 && AllProbabilities(b)
    requires goal in nbrs && Lookup(b, goal) == KnownFree && prev != Some(goal)
    ensures SenseCycle(b, accuracy, here, nbrs, readings).1 != []
    ensures ChoosesFirstBest(SenseCycle(b, accuracy, here, nbrs, readings).1,
                             SenseCycle(b, accuracy, here, nbrs, readings).0, goal, prev, m)
            ==> m == goal
  {
    var r := SenseCycle(b, accuracy, here, nbrs, readings);
    SenseCycleKeepsKnownFree(b, accuracy, here, nbrs, readings, goal);
    SenseCycleKeepsProbabilities(b, accuracy, here, nbrs, readings);
    SenseCycleIsFilter(b, accuracy, here, nbrs, readings);
    assert goal in r.1;
    FreeGoalScoresLeast(r.1, r.0, goal, prev, m);
  }

  /**
   * The cell the agent moves to is one of its neighbours and, with distinct
   * neighbours, is still believed safe once every neighbour has been sensed.
   */
  lemma ChosenMoveIsSafe(b: Beliefs, accuracy: real, here: Pos, nbrs: seq<Pos>, readings: seq<bool>,
                         goal: Pos, prev: Option<Pos>, m: Pos)
    requires |readings| == |nbrs| + 1 && Distinct(nbrs)
    ensures ChoosesFirstBest(SenseCycle(b, accuracy, here, nbrs, readings).1,
                             SenseCycle(b, accuracy, here, nbrs, readings).0, goal, prev, m)
            ==> m in nbrs && Lookup(SenseCycle(b, accuracy, here, nbrs, readings).0, m) < SafeThreshold
  {
    var r := SenseCycle(b, accuracy, here, nbrs, readings);
    SenseCycleIsFilter(b, accuracy, here, nbrs, readings);
    if ChoosesFirstBest(r.1, r.0, goal, prev, m) {
      var k :| 0 <= k < |r.1| && IsFirstMin(Scores(r.1, r.0, goal, prev), k) && r.1[k] == m;
      assert m in SafeFilter(r.0, nbrs);
    }
  }

  /** Among candidates holding probabilities, a free goal cell that was not just left is the first best. */
  lemma FreeGoalScoresLeast(safe: seq<Pos>, b: Beliefs, goal: Pos, prev: Option<Pos>, m: Pos)
    requires AllProbabilities(b) && goal in safe && Lookup(b, goal) == KnownFree && prev != Some(goal)
    ensures ChoosesFirstBest(safe, b, goal, prev, m) ==> m == goal
  {
    if ChoosesFirstBest(safe, b, goal, prev, m) {
      var keys := Scores(safe, b, goal, prev);
      var k :| 0 <= k < |safe| && IsFirstMin(keys, k) && safe[k] == m;
      var g :| 0 <= g < |safe| && safe[g] == goal;
      assert Score(goal, b, goal, prev) == 0.0;
      assert keys[k].value <= keys[g].value;
    }
  }

  /** Some candidate is the first best as soon as there is a candidate. */
  lemma ChoiceExists(cands: seq<Pos>, b: Beliefs, goal: Pos, prev: Option<Pos>)
    requires |cands| > 0
    ensures exists m :: ChoosesFirstBest(cands, b, goal, prev, m)
  {
    var keys := Scores(cands, b, goal, prev);
    assert keys[0].Some?;
    FirstMinExists(keys, |keys|);
    var k :| IsFirstMinUpTo(keys, |keys|, k);
    assert ChoosesFirstBest(cands, b, goal, prev, cands[k]);
  }

  /** The first best candidate is determined by the candidates, the beliefs, the goal and the previous cell. */
  lemma ChoiceIsUnique(cands: seq<Pos>, b: Beliefs, goal: Pos, prev: Option<Pos>, m1: Pos, m2: Pos)
    ensures ChoosesFirstBest(cands, b, goal, prev, m1) && ChoosesFirstBest(cands, b, goal, prev, m2) ==> m1 == m2
  {
    if ChoosesFirstBest(cands, b, goal, prev, m1) && ChoosesFirstBest(cands, b, goal, prev, m2) {
      var keys := Scores(cands, b, goal, prev);
      var k1 :| 0 <= k1 < |cands| && IsFirstMin(keys, k1) && cands[k1] == m1;
      var k2 :| 0 <= k2 < |cands| && IsFirstMin(keys, k2) && cands[k2] == m2;
      FirstMinUnique(keys, k1, k2);
    }
  }

  // ---------------------------------------------------------------------------
  // The agent

  class ProbabilisticAgent {
    const env: GridWorld
    const sensorAccuracy: real
    var beliefs: Beliefs
    /** Set to the start cell once and never updated; moves change `env.agentPos`. */
    var currentPos: Pos
    /** `_prev_pos`: absent until the first move. */
    var prevPos: Option<Pos>

    constructor (environment: GridWorld, sensorAccuracy: real := DefaultSensorAccuracy)
      ensures env == environment && this.sensorAccuracy == sensorAccuracy
      ensures currentPos == environment.start && prevPos == None
      ensures beliefs == PriorMap(Cells(environment.height, environment.width), environment.start, environment.goal)
    {
      env := environment;
      this.sensorAccuracy := sensorAccuracy;
      beliefs := map[];
      currentPos := environment.start;
      prevPos := None;
      new;
      InitializeBeliefs();
      assert beliefs.Keys == Cells(env.height, env.width);
    }

    /** Writes the initial belief of every grid cell, row by row. */
    method InitializeBeliefs()
      modifies this`beliefs
      ensures beliefs == old(beliefs) + PriorMap(Cells(env.height, env.width), env.start, env.goal)
    {
      var row := 0;
      ghost var done: set<Pos> := {};
      while row < env.height
        invariant 0 <= row <= env.height
        invariant done == Cells(row, env.width)
        invariant beliefs == old(beliefs) + PriorMap(done, env.start, env.goal)
      {
        var col := 0;
        ghost var rowStart := done;
        while col < env.width
          invariant 0 <= col <= env.width
          invariant done == rowStart + RowCells(row, col)
          invariant beliefs == old(beliefs) + PriorMap(done, env.start, env.goal)
        {
          var pos := (row, col);
          PriorMapInsert(old(beliefs), done, pos, env.start, env.goal);
          RowCellsStep(row, col);
          if pos == env.start || pos == env.goal {
            beliefs := beliefs[pos := KnownFree];
          } else {
            beliefs := beliefs[pos := UniformPrior];
          }
          done := done + {pos};
          col := col + 1;
        }
        CellsStep(row, env.width);
        row := row + 1;
      }
    }

    /** Folds one reading of `position` into its belief; no other entry changes. */
    method UpdateBeliefs(sensorReading: bool, position: Pos)
      modifies this`beliefs
      ensures beliefs == UpdatedBeliefs(old(beliefs), sensorAccuracy, sensorReading, position)
    {
      var prior := Lookup(beliefs, position);
      var likelihoodH, likelihoodNotH;
      if sensorReading {
        likelihoodH := sensorAccuracy;
        likelihoodNotH := 1.0 - sensorAccuracy;
      } else {
        likelihoodH := 1.0 - sensorAccuracy;
        likelihoodNotH := sensorAccuracy;
      }
      var evidence := ComputeEvidence(prior, likelihoodH, likelihoodNotH);
      var posterior := BayesUpdate(prior, likelihoodH, evidence);
      beliefs := beliefs[position := posterior];
    }

    /**
     * The neighbour loop of a move: senses each neighbour in order with its
     * reading and keeps, in order, those whose updated belief is safe.
     */
    method SenseNeighbors(neighbors: seq<Pos>, readings: seq<bool>) returns (safeMoves: seq<Pos>)
      requires |readings| == |neighbors|
      modifies this`beliefs
      ensures beliefs == Scan(old(beliefs), sensorAccuracy, neighbors, readings).0
      ensures safeMoves == Scan(old(beliefs), sensorAccuracy, neighbors, readings).1
    {
      safeMoves := [];
      var i := 0;
      while i < |neighbors|
        invariant 0 <= i <= |neighbors|
        invariant beliefs == Scan(old(beliefs), sensorAccuracy, neighbors[..i], readings[..i]).0
        invariant safeMoves == Scan(old(beliefs), sensorAccuracy, neighbors[..i], readings[..i]).1
      {
        var nbr := neighbors[i];
        ScanStep(old(beliefs), sensorAccuracy, neighbors[..i], readings[..i], nbr, readings[i]);
        PrefixStep(neighbors, i);
        PrefixStep(readings, i);
        UpdateBeliefs(readings[i], nbr);
        var obstacleProb := Lookup(beliefs, nbr);
        if obstacleProb < SafeThreshold {
          safeMoves := safeMoves + [nbr];
        }
        i := i + 1;
      }
      assert neighbors[..i] == neighbors;
      assert readings[..i] == readings;
    }

    /**
     * One move. `readings` are the sensor's answers, first for the agent's
     * cell and then for each of `neighbors` (the environment's neighbour list
     * of the agent's cell). Returns `None` when no neighbour is safe.
     */
    method Act(readings: seq<bool>, neighbors: seq<Pos>) returns (move: Option<Pos>)
      requires |readings| == |neighbors| + 1
      modifies this`beliefs, this`prevPos, env`agentPos
      ensures beliefs == SenseCycle(old(beliefs), sensorAccuracy, old(env.agentPos), neighbors, readings).0
      ensures move.None? <==> SenseCycle(old(beliefs), sensorAccuracy, old(env.agentPos), neighbors, readings).1 == []
      ensures move.None? ==> env.agentPos == old(env.agentPos) && prevPos == old(prevPos)
      ensures move.Some? ==>
                && ChoosesFirstBest(SenseCycle(old(beliefs), sensorAccuracy, old(env.agentPos), neighbors, readings).1,
                                    beliefs, env.goal, old(prevPos), move.value)
                && prevPos == Some(old(env.agentPos))
                && env.agentPos == move.value
      ensures currentPos == old(currentPos)
    {
      var here := env.agentPos;
      // sense the agent's own cell and fold the reading into its belief
      UpdateBeliefs(readings[0], here);
      // sense every neighbour in turn and keep the safe ones
      var safeMoves := SenseNeighbors(neighbors, readings[1..]);
      if safeMoves == [] {
        return None;
      }
      // score the safe moves and take the first best one
      var bestMove, bestScore := SelectBest(safeMoves, beliefs, env.goal, prevPos);
      // remember where the agent was and move it
      prevPos := Some(here);
      env.agentPos := bestMove.value;
      move := bestMove;
    }
  }
}
