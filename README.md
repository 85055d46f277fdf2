# Time-travel environments, modelled in Dafny

This project models the core of a small Python package of discrete "time-travel"
environments with the gymnasium reset/step interface. There are two environments
and one piece of agent code:

- **Door puzzle** (`DoorEnv`). There are two doors, and exactly one of them hides a
  reward of 100. The normal agent may open a door at step 1 and may travel back in
  time at step 2. Travelling back resets the step counter and re-closes both doors,
  but the same door still pays. In the new (branched) timeline a time-traveling
  agent appears. At step 0 it may lock a door, before the normal agent's past self
  acts. A joint action is checked against a legality table indexed by the step
  counter and the agent's role. An illegal pair ends the episode as truncated, with
  a penalty of -1000000.
- **Maze** (`MazeEnv`). The grid has keys -1..5 on each axis. A ring of walls
  surrounds a 5x5 field with a 3x3 block of walls in the middle. The goal is at
  (4,4) and a trap is at (3,4) or (4,3). One agent moves left, right, up or down,
  unless the destination is a wall. Each step costs 1. Reaching the goal pays 199
  and ends the episode; stepping on the trap costs 200 and also ends it. The agent
  observes the eight cells around it.
- **Door agent index** (`DoorAgent._obs_to_idx`). This maps a door observation to a
  row of the agent's Q-table. The row is either a mixed-radix number
  `door0*6 + door1*2 + agent_type`, or one of two sentinel rows at the end of the
  table.

Files:

- `wrappers.dfy`: the `Option` and `Result` types. `None` stands for Python's `None`;
  `Err` stands for an exception the source raises.
- `door_puzzle.dfy`: module `DoorPuzzle`. `DoorWorld` is the environment's state as a
  value. The pure functions over it are `GetObs`, `ValidActions`, `CheckValidAction`
  and `StepWorld`, and `Run` applies a sequence of steps. The class `DoorEnv` holds
  the same fields and updates them in place. Its `Reset` and `Step` methods are
  proved to produce exactly the state and result of the pure functions. The
  properties are lemmas about the pure functions.
- `maze.dfy`: module `Maze`, organised the same way. `BuildGrid` fills the grid with
  the loops of `reset` and is proved equal to `Layout`, a rule-by-rule description of
  each cell. `SurroundingCells` is the loop of `_get_obs`, proved equal to
  `Neighbours`.
- `agents.dfy`: module `Agents`, with `ObsToIdx`, the mixed-radix index, its inverse
  `DecodeIndex`, and the sentinel rows.

Modelling choices:

- Python's `random.randint` becomes a parameter. For the door this is the `rewardDoor`
  bit, fixed when the `DoorEnv` is constructed. For the maze it is the `trapIsBelow`
  bit given to `Reset`.
- Before the first `reset`, the source objects have no `t`, `doors` or `grid`
  attributes. The model holds `doors == []` and `grid == map[]` until then. `Step`
  requires `Valid()`, which holds once a reset has happened. The maze's
  `Reset(false, _)` requires a grid from an earlier `Reset(true, _)`.
- In the door puzzle, `valid_actions` is never assigned for a normal agent with
  `t >= 3`, or for a branched traveler with `t >= 2`. The source then raises
  UnboundLocalError, and the model returns `Err(UnboundValidActions)`. The checks
  run in the source's short-circuit order: the traveler's action is checked only
  when the normal agent's action passes. When `step` raises, nothing has changed
  yet.
- Line 118 of `door.py` compares `valid_actions` with `{OPEN_DOOR_1}` and throws the
  result away. So a locked door 1 can still be opened. The model keeps this
  behaviour, and `NormalLegalityTable` states it.
- The door penalty `-1e6` is the integer -1000000.
- The code does not have these features, and neither does the model:
  - Locking door 1 does not make opening it illegal.
  - The maze's legality check rejects nothing.
  - The door puzzle has no per-step cost.
  - Rewards are not undone when the timeline branches.
  - In the maze, the traveler has no position and no effect.
  - There is no proximity termination, no trap memory and no maximum episode length.

## Model

| member | source | states |
|---|---|---|
| `DoorPuzzle.ResetWorld` | time_travel/envs/door.py:53-59 | the state `reset` builds: two doors whose rewards agree with the hidden reward door, which is kept |
| `DoorPuzzle.GetObs` | time_travel/envs/door.py:97-103 | the first observation is tagged NORMAL; the second is None if and only if the timeline is original, and otherwise is the same door pair tagged TIME_TRAVELING |
| `DoorPuzzle.ValidActions` | time_travel/envs/door.py:109-126 | the set `valid_actions` each role's table builds, or None where it stays unbound; the normal agent is never offered a LOCK action, and the traveler is never offered an OPEN action or TIME_TRAVEL |
| `DoorPuzzle.CheckValidAction` | time_travel/envs/door.py:105-127 | the check raises only when a table is unbound, never for the absent traveler; None passes only for the absent traveler; DO_NOTHING passes whenever the check returns, except for the absent traveler |
| `DoorPuzzle.ApplyActions` | time_travel/envs/door.py:77-95 | the accepted step: it is never truncated and it observes the new state; non-travel actions add 1 to t and keep the timeline and both door rewards; TIME_TRAVEL yields the branched reset state |
| `DoorPuzzle.OpenDoorStep` | time_travel/envs/door.py:86-91 | opening door k sets only door k to OPEN, leaves the other door and the counter alone, pays door k's reward, and terminates if and only if the timeline is branched |
| `DoorPuzzle.DoorEnv.constructor` | time_travel/envs/door.py:47-51 | the hidden reward door is fixed once, at construction; no doors exist before the first reset |
| `DoorPuzzle.DoorEnv.Reset` | time_travel/envs/door.py:53-60 | t is 0, both doors are closed with rewards R*(1-reward_door) and R*reward_door, the timeline flag is as given, and the observation of the new state is returned |
| `DoorPuzzle.DoorEnv.Step` | time_travel/envs/door.py:62-95 | the in-place update produces exactly the state and the result of `StepWorld`; when the step raises, the state is unchanged |
| `DoorPuzzle.StepWorld` | time_travel/envs/door.py:62-95 | a step that returns leaves two doors and keeps the hidden reward door |
| `DoorPuzzle.Run` | time_travel/envs/door.py:62-95 | any sequence of steps keeps two doors and the same reward door |
| `DoorPuzzle.ResetState` | time_travel/envs/door.py:53-58 | after reset, t is 0, both doors are CLOSED, door reward_door is worth 100 and the other door 0 |
| `DoorPuzzle.TravelerAbsentInOriginalTimeline` | time_travel/envs/door.py:106-107 | in the original timeline, the traveler's action is legal if and only if it is None |
| `DoorPuzzle.NormalLegalityTable` | time_travel/envs/door.py:109-120 | normal agent: t=0 allows {DO_NOTHING}; t=1 allows {OPEN_0, OPEN_1, DO_NOTHING}, without OPEN_0 when door 0 is locked and never without OPEN_1; t=2 allows {TIME_TRAVEL, DO_NOTHING}; any other t raises |
| `DoorPuzzle.TravelerLegalityTable` | time_travel/envs/door.py:121-127 | branched traveler: t=0 allows {LOCK_0, LOCK_1, DO_NOTHING}; t=1 allows {DO_NOTHING}; any other t raises |
| `DoorPuzzle.DoNothingAlwaysOffered` | time_travel/envs/door.py:109-127 | wherever the table is defined it contains DO_NOTHING; it is defined exactly for t<=2 (normal agent) and t<=1 (traveler) |
| `DoorPuzzle.StepOutcomeByLegality` | time_travel/envs/door.py:71-75 | a step is truncated if and only if a checked sub-action is illegal; it then returns obs None, reward -1000000, terminated false and an unchanged state; it raises if and only if a consulted table is unbound |
| `DoorPuzzle.LegalStepCounterAndTimeline` | time_travel/envs/door.py:77-95 | a legal step other than TIME_TRAVEL adds exactly 1 to t and keeps the timeline; TIME_TRAVEL gives t 0, both doors closed, the same reward door, the branched timeline, reward 0 and not terminated |
| `DoorPuzzle.DoorAfterLegalStep` | time_travel/envs/door.py:79-88 | after a legal non-travel step, door k is OPEN if opened, otherwise LOCKED if the traveler locked it, otherwise unchanged; its reward is unchanged (the lock is applied before the open) |
| `DoorPuzzle.LegalStepReward` | time_travel/envs/door.py:85-91 | OPEN_DOOR_k returns door k's reward and terminates if and only if the timeline is branched; every other legal action returns 0 and does not terminate |
| `DoorPuzzle.OpeningPaysOnlyRewardDoor` | time_travel/envs/door.py:55-58 | with reset's rewards, opening the hidden reward door pays 100 and opening the other door pays 0 |
| `DoorPuzzle.StepKeepsRewardsAndBranch` | time_travel/envs/door.py:91-93 | a step keeps the reward assignment and never sets the timeline flag back to True |
| `DoorPuzzle.StepCounterBounded` | time_travel/envs/door.py:109-127 | the step counter never exceeds 3, because a legal step needs the normal agent's table |
| `DoorPuzzle.RunKeepsRewardAssignment` | time_travel/envs/door.py:51-58 | across any run, including branch resets, door reward_door stays worth 100 and the other door 0 |
| `DoorPuzzle.RunStaysBranched` | time_travel/envs/door.py:92-93 | once branched, no sequence of steps returns to the original timeline |
| `DoorPuzzle.BranchScenario` | time_travel/envs/door.py:62-95 | waiting, waiting, travelling, then locking the non-paying door leaves t=1 in the branch; opening the paying door then pays 100 and terminates |
| `DoorPuzzle.ObservationRoles` | time_travel/envs/door.py:97-103 | the normal observation is always present; the traveler's is None if and only if the timeline is original; both show the same two door states, each tagged with its own role |
| `Maze.MazeEnv.Reset` | time_travel/envs/maze.py:51-78 | reset(True) builds `Layout(trapIsBelow)`; reset(False) leaves the grid as it was; both set t 0, position (0,0) and the timeline flag, and return the new state's observation |
| `Maze.BuildGrid` | time_travel/envs/maze.py:54-72 | the grid filled key by key (empty field, middle block, border ring, goal, trap) equals the rule-by-rule layout |
| `Maze.LayoutCell` | time_travel/envs/maze.py:54-72 | the cell of the built grid at p: WALL if and only if p is on the ring or in the middle block, GOAL if and only if p is (4,4), and TRAP if and only if p is the chosen trap site |
| `Maze.Layout` | time_travel/envs/maze.py:54-72 | the map `reset(True)` builds, with keys -1..5 on each axis, each holding its `LayoutCell`; `BuildGrid` is proved to build exactly this map, and `LayoutShape` states its shape |
| `Maze.LayoutShape` | time_travel/envs/maze.py:54-72 | every key (i,j) with -1<=i,j<=5 is defined; the ring and the middle 3x3 block are WALL; GOAL is at (4,4) only; TRAP is at (3,4) or (4,3) only, as the bit chose; everything else, including the start (0,0), is EMPTY |
| `Maze.Move` | time_travel/envs/maze.py:98-103 | the agent's new position is always an open field cell (inside [0,4]^2 and not a WALL) |
| `Maze.StepMovement` | time_travel/envs/maze.py:98-103 | a directional action moves the agent by its offset if and only if the destination is not a WALL, otherwise the agent stays; TIME_TRAVEL and DO_NOTHING never move it |
| `Maze.StepWorld` | time_travel/envs/maze.py:80-115 | a step keeps the state well formed: a built layout, with the agent on an open field cell |
| `Maze.MazeEnv.Step` | time_travel/envs/maze.py:80-115 | the in-place update produces exactly the state and the result of `StepWorld` |
| `Maze.StepBookkeeping` | time_travel/envs/maze.py:87-96 | t grows by 1; info["t"] is the value before the increment; the grid and the timeline flag are never written; truncated is always False |
| `Maze.StepReward` | time_travel/envs/maze.py:105-113 | landing on GOAL gives reward 198 and terminated; landing on TRAP gives -201 and terminated; anywhere else gives -1 and not terminated |
| `Maze.TravelerActionIgnored` | time_travel/envs/maze.py:129-143 | the legality check accepts everything, so the bad-action branch is never taken, and the traveler's action does not change any result or state |
| `Maze.Run` | time_travel/envs/maze.py:80-115 | any sequence of steps keeps the state well formed |
| `Maze.RunKeepsGrid` | time_travel/envs/maze.py:96-113 | across any run, the grid and the timeline flag are unchanged, t grows by the number of steps, and the agent stays on an open field cell |
| `Maze.MazeEnv.GetObs` | time_travel/envs/maze.py:117-126 | the observation of the current state, as `ObsOf` gives it |
| `Maze.SurroundingCells` | time_travel/envs/maze.py:118-124 | the two nested loops collect exactly the eight neighbour cells, in the order of `NeighbourOffsets` |
| `Maze.ObsOf` | time_travel/envs/maze.py:117-126 | `_get_obs` of a state: the agent's position, one cell per neighbour offset, the NORMAL tag, and None for the traveler |
| `Maze.CheckValidAction` | time_travel/envs/maze.py:129-143 | every action of every agent is accepted |
| `Maze.NeighbourOffsetsOrder` | time_travel/envs/maze.py:120-123 | the offsets are the eight nonzero (dx,dy) with dx,dy in {-1,0,1}, in increasing order with dx first and then dy |
| `Maze.ObservationShape` | time_travel/envs/maze.py:117-126 | the observation is the agent's position plus eight cells; each cell is the grid at position+offset, and every such key exists; it is tagged NORMAL, and the second component is None |
| `Agents.DoorAgent.TruncatedObsIdx` | time_travel/agents/door_agent.py:12 | a row inside the table that is not its last row |
| `Agents.DoorAgent.DoNothingObsIdx` | time_travel/agents/door_agent.py:13 | a row inside the table that comes after the truncation row |
| `Agents.ObsToIdx` | time_travel/agents/door_agent.py:15-25 | `_obs_to_idx`: with at least 20 rows, every observation, including None, gets a row inside the Q-table |
| `Agents.MixedRadix` | time_travel/agents/door_agent.py:23-25 | door0*6 + door1*2 + agent_type lies in [0,18) |
| `Agents.SentinelRows` | time_travel/agents/door_agent.py:9-13 | the truncation row and the do-nothing row are the last two rows of the table (rows-2 and rows-1) and are distinct |
| `Agents.ObsToIdxCases` | time_travel/agents/door_agent.py:15-25 | None maps to the truncation row, whatever t is; a NORMAL observation at t=0 or a TIME_TRAVELING one at t=1 maps to the do-nothing row; every other observation maps to door0*6 + door1*2 + agent_type |
| `Agents.ObsToIdxInjective` | time_travel/agents/door_agent.py:15-25 | with at least 20 rows and outside forced DO_NOTHING turns, two observations share a row if and only if they are equal, and no such row is a sentinel row |
| `Agents.DecodeEncode` | time_travel/agents/door_agent.py:23-25 | door0 = idx/6, door1 = (idx/2)%3 and agent_type = idx%2 recover the observation from its index |
| `Agents.EncodeDecode` | time_travel/agents/door_agent.py:23-25 | every index in [0,18) is the index of the observation it decodes to |
| `Agents.MixedRadixInjective` | time_travel/agents/door_agent.py:23-25 | two observations share an index if and only if they are equal |
| `Agents.SentinelsAreNotObservationRows` | time_travel/agents/door_agent.py:9-25 | with at least 20 rows, neither sentinel equals any observation's index |

## Left out

- `render` (both environments): it only prints to the terminal.
- The gymnasium base class and the `action_space` / `observation_space` objects: library code. The door's `Box` space has no `nvec`, so the Q-table's row count is a parameter of `Agents.DoorAgent`.
- `DoorAgent.act`, `DoorAgent.update` and all of `time_travel/agents/maze_agent.py`: floating-point Q-values, softmax and random sampling.
- The training and interactive scripts under `scripts/`: console input and output loops around the environments.
- `random.randint`: the drawn bits are parameters, as described above.
- The door `step`'s `info` dictionary is always empty and is left out of `StepResult`.
- Each door is a `Door` value inside a sequence that `Step` reassigns. The model does not capture the Python `Door` objects as separate mutable objects. Nothing in the source aliases them.
- The normal agent's action is always an `Action` in the model. A `None` normal action is not modelled. The source would reject it in the door puzzle and would not move the agent in the maze.
- The `MazeEnv` constructor sets only the gym spaces, so its model (`Maze.MazeEnv.constructor`) promises only an empty grid.
