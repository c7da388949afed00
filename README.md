# RoboMind: the Bayesian grid agent and its performance metrics

RoboMind is a teaching simulator: an agent crosses a 2-D occupancy grid from a
start cell to a goal cell while its sensor gives noisy readings. This project
models two parts of it and proves properties about them.

- **The probabilistic agent** (`ProbabilisticAgents`). It keeps a belief map
  from each cell to the probability that the cell is an obstacle. At the start
  every cell holds 0.5, except the start and goal cells, which hold 0.0. Each
  move works like this:
  1. The agent senses its own cell and folds that reading into the map with
     Bayes' rule.
  2. It senses each neighbour in order, updates that neighbour's belief, and
     keeps the neighbour as a safe move when the updated belief is below 0.7.
  3. Among the safe moves it picks the one with the lowest score. The score is
     belief + Manhattan distance to the goal, plus 1.0 for the cell it just
     left. The first candidate wins a tie.

  The agent is a class with the source's fields, and its methods modify them.
  Each loop is a `while` loop proved against a specification: the grid
  initialisation against the map comprehension `PriorMap`, the neighbour loop
  against the recursive function `Scan` (and `SenseCycle` for the whole
  sensing pass), and the scoring loop against the selection predicate
  `ChoosesFirstBest` over the scores `Score` gives.
- **Bayes' rule** (`BayesReasoning`): the evidence and posterior functions the
  agent calls, together with their properties. A posterior is a probability; a
  reading pushes the belief in its own direction; a certainly free cell stays
  free.
- **Performance metrics** (`Metrics`). `PerformanceMetrics` is a class with
  `Reset`, `RecordPath` and `GetSummary`. `CompareAlgorithms` makes one pass
  over the per-algorithm metrics dictionaries and keeps three running minima:
  cost, nodes expanded, and time. It is proved to return the first strict
  minimum of each among successful runs. A successful run missing `path_cost`
  or `nodes_expanded` is an error, as it is in the source, where the lookup
  raises `KeyError`.
- **Selection** (`Selection`): the "first strict minimum" notion shared by the
  move choice and the comparison. `None` stands for the source's
  `float('inf')`.
- **Environment** (`Environment`): the few parts of the grid world the agent
  reads or moves. These are its size, the start and goal cells, and the
  agent's position.

## Model

| member | source | states |
|---|---|---|
| ProbabilisticAgents.ProbabilisticAgent.constructor | RoboMind/agents/probabilistic_agent.py:20-34 | stores the environment and accuracy (default 0.9), sets `currentPos` to the start cell and the previous position to none (the environment's `agentPos` is not touched), and the belief map has exactly the grid's cells, with the initial beliefs |
| ProbabilisticAgents.ProbabilisticAgent.InitializeBeliefs | RoboMind/agents/probabilistic_agent.py:36-44 | the new map is the old one overwritten, on every cell (row, col) of the grid, with 0.0 for start and goal and 0.5 elsewhere |
| ProbabilisticAgents.Likelihoods | RoboMind/agents/probabilistic_agent.py:79-84 | the two likelihoods sum to 1, and the likelihood of the reading's own hypothesis is the sensor accuracy |
| ProbabilisticAgents.UpdatedBeliefs | RoboMind/agents/probabilistic_agent.py:78-88 | only the sensed cell changes (it gains an entry if it had none); its new belief is the Bayes posterior of its old belief (0.5 when absent) |
| ProbabilisticAgents.ProbabilisticAgent.UpdateBeliefs | RoboMind/agents/probabilistic_agent.py:66-88 | the new belief map is `UpdatedBeliefs` of the old one for that reading and cell |
| ProbabilisticAgents.ReadingDirection | RoboMind/agents/probabilistic_agent.py:78-88 | with accuracy at least 0.5, an "obstacle" reading never lowers the cell's belief and a "free" reading never raises it |
| ProbabilisticAgents.UpdateKeepsProbabilities | RoboMind/agents/probabilistic_agent.py:78-88 | with accuracy in [0, 1], a map of probabilities stays one after an update |
| ProbabilisticAgents.Scan | RoboMind/agents/probabilistic_agent.py:107-116 | after the neighbour loop the map gains exactly the neighbours as entries, entries of other cells are unchanged, and every safe move is a neighbour |
| ProbabilisticAgents.SenseCycle | RoboMind/agents/probabilistic_agent.py:100-116 | after sensing the agent's cell and its neighbours, the map gains exactly those cells, other cells are unchanged, and the safe moves are neighbours |
| ProbabilisticAgents.SafeFilter | RoboMind/agents/probabilistic_agent.py:114-116 | a cell is kept exactly when it is a candidate whose belief is below 0.7 |
| ProbabilisticAgents.ProbabilisticAgent.SenseNeighbors | RoboMind/agents/probabilistic_agent.py:107-116 | the loop leaves the map and the safe-move list that `Scan` defines for the neighbours and their readings |
| ProbabilisticAgents.ScanIsFilter | RoboMind/agents/probabilistic_agent.py:107-116 | with distinct neighbours, the safe moves collected during the loop are, in order, the neighbours whose final belief is below 0.7 |
| ProbabilisticAgents.SenseCycleIsFilter | RoboMind/agents/probabilistic_agent.py:100-116 | the same for the whole sensing pass of a move |
| ProbabilisticAgents.ScanKeepsKnownFree | RoboMind/agents/probabilistic_agent.py:107-110 | a cell believed 0.0 still has belief 0.0 after the neighbour loop, whatever the readings |
| ProbabilisticAgents.SenseCycleKeepsKnownFree | RoboMind/agents/probabilistic_agent.py:100-110 | a cell believed 0.0 (the start and goal at first) stays at 0.0 through a move's sensing |
| ProbabilisticAgents.ScanKeepsProbabilities | RoboMind/agents/probabilistic_agent.py:107-110 | with accuracy in [0, 1], all beliefs stay in [0, 1] through the neighbour loop |
| ProbabilisticAgents.SenseCycleKeepsProbabilities | RoboMind/agents/probabilistic_agent.py:100-110 | all beliefs stay in [0, 1] through a move's sensing |
| ProbabilisticAgents.SelectBest | RoboMind/agents/probabilistic_agent.py:122-134 | no move for no candidates; otherwise the earliest candidate whose `Score` (belief, 0.5 when absent, + Manhattan distance to the goal + 1.0 for the previous position) no candidate beats, with that score |
| ProbabilisticAgents.ProbabilisticAgent.Act | RoboMind/agents/probabilistic_agent.py:91-140 | the map after the move is `SenseCycle` of the old one; no move exactly when no neighbour is safe, and then the position and previous position are unchanged; otherwise the move is the first best-scoring safe neighbour (backtrack penalty against the previous position), the previous position becomes the old position, the agent moves there, and the starting position field is not touched |
| ProbabilisticAgents.ChosenMoveIsSafe | RoboMind/agents/probabilistic_agent.py:106-134 | with distinct neighbours, a move chosen from the safe list is a neighbour whose final belief is below 0.7 |
| ProbabilisticAgents.GoalNeighbourIsChosen | RoboMind/agents/probabilistic_agent.py:105-134 | when the goal is a neighbour believed 0.0 and is not the cell just left, a safe move exists and the agent moves onto the goal |
| ProbabilisticAgents.FreeGoalScoresLeast | RoboMind/agents/probabilistic_agent.py:127-134 | a candidate goal cell with belief 0.0 that was not just left is the only first-best candidate |
| Environment.Manhattan | RoboMind/agents/probabilistic_agent.py:128 | the distance is zero exactly when the two cells coincide |
| BayesReasoning.ComputeEvidence | RoboMind/agents/probabilistic_agent.py:86 | for a probability prior and non-negative likelihoods, the evidence is at least the weight of the obstacle hypothesis |
| BayesReasoning.BayesUpdate | RoboMind/agents/probabilistic_agent.py:87 | for non-zero evidence, posterior × evidence equals likelihood × prior |
| BayesReasoning.PosteriorIsProbability | RoboMind/agents/probabilistic_agent.py:86-87 | a probability prior and non-negative likelihoods give a posterior in [0, 1] |
| BayesReasoning.EvidenceDirection | RoboMind/agents/probabilistic_agent.py:79-87 | a higher likelihood under "obstacle" never lowers the belief, and a lower one never raises it |
| BayesReasoning.CertainlyFreeIsFixed | RoboMind/agents/probabilistic_agent.py:86-87 | a prior of 0.0 gives a posterior of 0.0 |
| Selection.WinnerStep | RoboMind/utils/metrics.py:99-115 | one step of a running minimum from infinity, replaced only on a strictly smaller key, keeps it the first strict minimum of the prefix |
| Selection.WinnerAtEnd | RoboMind/utils/metrics.py:96-118 | the running minimum over all positions is "no winner" exactly when no key is present, and otherwise the first strict minimum |
| Selection.FirstMinExists | RoboMind/agents/probabilistic_agent.py:124-134 | as soon as one key is present, some position is the first strict minimum |
| Selection.FirstMinUnique | RoboMind/agents/probabilistic_agent.py:124-134 | at most one position is the first strict minimum |
| ProbabilisticAgents.ChoiceExists | RoboMind/agents/probabilistic_agent.py:117-134 | every non-empty candidate list has a first best candidate, so a move is always found once a safe move exists |
| ProbabilisticAgents.ChoiceIsUnique | RoboMind/agents/probabilistic_agent.py:124-134 | the first best candidate is uniquely determined by the candidates, beliefs, goal and previous position |
| Metrics.PerformanceMetrics.constructor | RoboMind/utils/metrics.py:15-16 | a new record is in the reset state |
| Metrics.PerformanceMetrics.Reset | RoboMind/utils/metrics.py:18-25 | every figure becomes zero or false and no timer is running |
| Metrics.PerformanceMetrics.RecordPath | RoboMind/utils/metrics.py:37-49 | the length is the path's length (0 for no path), cost and expansions are stored, success holds exactly for a non-empty path, and the timing fields are untouched |
| Metrics.PerformanceMetrics.GetSummary | RoboMind/utils/metrics.py:51-59 | the five recorded figures; for a record produced by these methods, success holds exactly when the length is positive |
| Metrics.SummaryEntry | RoboMind/utils/metrics.py:51-59 | a summary read back as a metrics dictionary never triggers the missing-key error, and it competes on time exactly when it succeeded |
| Metrics.RecordEntry | RoboMind/utils/metrics.py:96-115 | one entry: an error exactly for a successful entry missing a key, naming `path_cost` first; otherwise each minimum moves to this entry exactly when its key is strictly smaller |
| Metrics.EntryStep | RoboMind/utils/metrics.py:96-115 | after an entry, the three running minima are the first strict minima of the entries seen so far |
| Metrics.CompareAlgorithms | RoboMind/utils/metrics.py:74-118 | an error exactly when some successful entry lacks `path_cost` or `nodes_expanded`, naming the key of the first such entry; otherwise each of best cost, fewest nodes expanded and fastest time is the first strict minimum among successful entries, with that entry's name, and is `None` when no entry competes |
| Metrics.UnsuccessfulNeverWins | RoboMind/utils/metrics.py:96-97 | an unsuccessful entry never wins any of the three |
| Metrics.NoSuccessNoWinner | RoboMind/utils/metrics.py:83-97 | with no successful entry, all six comparison fields stay `None` |

## Left out

- `get_sensor_reading`: the random, noisy sensor is not modelled. `Act` takes the readings it would return as an argument, first the agent's cell, then each neighbour in order.
- `GridWorld.get_neighbors`, the grid's obstacle layout and the rest of `environment.py` are not part of this model. `Act` takes the neighbour list as an argument.
- `compute_evidence` and `bayes_update` (from `ai_core/bayes_reasoning.py`) are not part of this model. They are modelled with the standard two-hypothesis Bayes formula, and an evidence of zero leaves the prior unchanged.
- Floating point: beliefs, costs and times are exact reals. The model has no rounding, NaN or IEEE infinity; `float('inf')` as a starting minimum is `None`.
- The `print` calls in `act` and in `print_summary` are not modelled, since they only produce output.
- `start_timer` and `stop_timer` read the wall clock and are not modelled. `execution_time` enters only through `Reset` and as the figure a summary reports.
- Python truthiness: `metrics.get('success')` is modelled as a boolean. A missing `success` key counts as false, and non-boolean values are not modelled.
- The metrics dictionaries in `compare_algorithms` are records in which each number may be absent, with no other keys. The order of iteration over `results` is the order of the sequence.
- A `path` passed to `record_path` is either absent or a sequence; other falsy values are not modelled.
- `hybrid_agent.py` and `logic_agent.py`: their agents are stubs that do no reasoning, and they are not modelled. Neither are `main.py` or `visualize.py`, which handle the command line and drawing.
- ProbabilisticAgents.ScanIsFilter, SenseCycleIsFilter, ChosenMoveIsSafe and GoalNeighbourIsChosen assume distinct neighbours, as a grid's neighbour list has. With a repeated neighbour the source's check reads the belief right after each update, and `Scan` models that case exactly.
