/** The grid maze of time_travel/envs/maze.py.

    A 5x5 field surrounded by a ring of walls, with a 3x3 block of walls in the
    middle, the goal in the far corner and a trap beside it.  Only the normal
    agent moves; the time-traveling agent's action is accepted and ignored. */
module Maze {
  import opened Wrappers

  const GridSize: int := 5

  const GoalR: int := 199
  const BadActionR: int := -200
  const TrapR: int := -200
  const TimeR: int := -1

  datatype Action = Left | Right | Up | Down | TimeTravel | DoNothing

  /** The (dx, dy) value of a directional action; the other two have none. */
  function Offset(a: Action): Option<(int, int)>
  {
    match a
    case Left => Some((-1, 0))
    case Right => Some((1, 0))
    case Up => Some((0, 1))
    case Down => Some((0, -1))
    case _ => None
  }

  datatype AgentType = Normal | TimeTraveling

  datatype CellState = Goal | Trap | Wall | Empty

  type Pos = (int, int)

  function Shift(p: Pos, d: (int, int)): Pos
  {
    (p.0 + d.0, p.1 + d.1)
  }

  datatype Observation = Observation(position: Pos, cells: seq<CellState>, agentType: AgentType)

  /** What `_get_obs` returns: the normal agent's observation and no traveler observation. */
  type ObsPair = (Observation, Option<Observation>)

  /** The tuple `step` returns; `infoT` is `info["t"]`.  A rejected action observes (None, None). */
  datatype StepResult = StepResult(obs: (Option<Observation>, Option<Observation>), reward: int,
                                   terminated: bool, truncated: bool, infoT: nat)

  // ---------------------------------------------------------------------------
  // the layout `reset(True)` builds

  /** The keys of the grid: coordinates -1..GridSize on each axis. */
  predicate InGrid(p: Pos)
  {
    -1 <= p.0 <= GridSize && -1 <= p.1 <= GridSize
  }

  /** The cells the agent can stand on: coordinates 0..GridSize-1. */
  predicate InField(p: Pos)
  {
    0 <= p.0 < GridSize && 0 <= p.1 < GridSize
  }

  predicate OnBorder(p: Pos)
  {
    p.0 == -1 || p.0 == GridSize || p.1 == -1 || p.1 == GridSize
  }

  /** The 3x3 block of walls in the middle of the field. */
  predicate InBlock(p: Pos)
  {
    1 <= p.0 <= 3 && 1 <= p.1 <= 3
  }

  const GoalPos: Pos := (GridSize - 1, GridSize - 1)

  /** The trap sits at (3,4) when `trap_is_below`, at (4,3) otherwise. */
  function TrapPos(trapIsBelow: bool): Pos
  {
    if trapIsBelow then (GridSize - 2, GridSize - 1) else (GridSize - 1, GridSize - 2)
  }

  /** The cell at p, stated rule by rule rather than by the order of the writes. */
  function LayoutCell(p: Pos, trapIsBelow: bool): (c: CellState)
    ensures c == Wall <==> OnBorder(p) || InBlock(p)
    ensures c == Goal <==> p == GoalPos
    ensures c == Trap <==> p == TrapPos(trapIsBelow)
  {
    if OnBorder(p) || InBlock(p) then Wall
    else if p == GoalPos then Goal
    else if p == TrapPos(trapIsBelow) then Trap
    else Empty
  }

  function GridKeys(): set<Pos>
  {
    set x: int, y: int | -1 <= x <= GridSize && -1 <= y <= GridSize :: (x, y)
  }

  /** The grid `reset(True)` builds: every key of GridKeys, holding its LayoutCell. */
  function Layout(trapIsBelow: bool): map<Pos, CellState>
  {
    map p | p in GridKeys() :: LayoutCell(p, trapIsBelow)
  }

  predicate IsLayout(grid: map<Pos, CellState>)
  {
    grid == Layout(true) || grid == Layout(false)
  }

  lemma GridKeysAre(p: Pos)
    ensures p in GridKeys() <==> InGrid(p)
  {
    if InGrid(p) {
      var x, y := p.0, p.1;
      assert (x, y) in GridKeys();
    }
  }

  // ---------------------------------------------------------------------------
  // the state and `step` as functions

  /** The fields of a MazeEnv, as a value. */
  datatype MazeWorld = MazeWorld(t: nat, grid: map<Pos, CellState>, isOriginalTimeline: bool, normalAgentPos: Pos)

  datatype Transition = Transition(next: MazeWorld, result: StepResult)

  /** A built layout and an agent on a field cell that is not a wall. */
  predicate WellFormed(w: MazeWorld)
  {
    IsLayout(w.grid) && InField(w.normalAgentPos) &&
    w.normalAgentPos in w.grid && w.grid[w.normalAgentPos] != Wall
  }

  const NeighbourOffsets: seq<(int, int)> :=
    [(-1, -1), (-1, 0), (-1, 1), (0, -1), (0, 1), (1, -1), (1, 0), (1, 1)]

  /** Every neighbour of pos is a key of the grid. */
  predicate NeighboursDefined(grid: map<Pos, CellState>, pos: Pos)
  {
    forall k :: 0 <= k < |NeighbourOffsets| ==> Shift(pos, NeighbourOffsets[k]) in grid
  }

  lemma NeighboursInGrid(grid: map<Pos, CellState>, pos: Pos)
    requires IsLayout(grid) && InField(pos)
    ensures NeighboursDefined(grid, pos)
  {
    forall k | 0 <= k < |NeighbourOffsets|
      ensures Shift(pos, NeighbourOffsets[k]) in grid
    {
      GridKeysAre(Shift(pos, NeighbourOffsets[k]));
    }
  }

  /** The eight cells around pos, in the order of NeighbourOffsets. */
  function Neighbours(grid: map<Pos, CellState>, pos: Pos): seq<CellState>
    requires NeighboursDefined(grid, pos)
  {
    seq(|NeighbourOffsets|, k requires 0 <= k < |NeighbourOffsets| => grid[Shift(pos, NeighbourOffsets[k])])
  }

  /** `_get_obs` as a function of the state. */
  function ObsOf(w: MazeWorld): (obs: ObsPair)
    requires WellFormed(w)
    ensures obs.1 == None && obs.0.agentType == Normal
    ensures obs.0.position == w.normalAgentPos && |obs.0.cells| == |NeighbourOffsets|
  {
    NeighboursInGrid(w.grid, w.normalAgentPos);
    (Observation(w.normalAgentPos, Neighbours(w.grid, w.normalAgentPos), Normal), None)
  }

  /** `_check_valid_action`: every action of every agent passes. */
  function CheckValidAction(action: Option<Action>, agentType: AgentType): (valid: bool)
    ensures valid
  {
    true
  }

  /** Where a move takes the agent: its offset, unless that cell is a wall. */
  function Move(w: MazeWorld, a: Action): (pos: Pos)
    requires WellFormed(w)
    ensures InField(pos) && pos in w.grid && w.grid[pos] != Wall
  {
    match Offset(a)
    case None => w.normalAgentPos
    case Some(d) =>
      var proposed := Shift(w.normalAgentPos, d);
      GridKeysAre(proposed);
      if w.grid[proposed] != Wall then
        LayoutOpenCellsInField(w.grid, proposed);
        proposed
      else w.normalAgentPos
  }

  lemma LayoutOpenCellsInField(grid: map<Pos, CellState>, p: Pos)
    requires IsLayout(grid) && p in grid && grid[p] != Wall
    ensures InField(p)
  {
    GridKeysAre(p);
  }

  /** `step`; the rejected-action branch is kept although the check never fails. */
  function StepWorld(w: MazeWorld, normalAction: Action, timeTravelAction: Option<Action>): (tr: Transition)
    requires WellFormed(w)
    ensures WellFormed(tr.next)
  {
    if !CheckValidAction(Some(normalAction), Normal) || !CheckValidAction(timeTravelAction, TimeTraveling) then
      Transition(w, StepResult((None, None), BadActionR, false, true, w.t))
    else
      var pos := Move(w, normalAction);
      var next := w.(t := w.t + 1, normalAgentPos := pos);
      var cell := w.grid[pos];
      var reward := (match cell case Goal => GoalR case Trap => TrapR case _ => 0) + TimeR;
      var obs := ObsOf(next);
      Transition(next, StepResult((Some(obs.0), obs.1), reward, cell == Goal || cell == Trap, false, w.t))
  }

  /** The state after a sequence of `step` calls. */
  function Run(w: MazeWorld, actions: seq<(Action, Option<Action>)>): (v: MazeWorld)
    requires WellFormed(w)
    ensures WellFormed(v)
    decreases |actions|
  {
    if actions == [] then w
    else Run(StepWorld(w, actions[0].0, actions[0].1).next, actions[1..])
  }

  // ---------------------------------------------------------------------------
  // the environment object

  /** Border cells the border loop has written once it has run for every index below i. */
  predicate BorderWritten(p: Pos, i: int)
  {
    ((p.0 == -1 || p.0 == GridSize) && -1 <= p.1 < i) ||
    ((p.1 == -1 || p.1 == GridSize) && -1 <= p.0 < i)
  }

  /** Number of neighbours `_get_obs` has appended before it reaches offset (dx, dy). */
  function Visited(dx: int, dy: int): int
  {
    3 * (dx + 1) + (dy + 1) - (if dx > 0 || (dx == 0 && dy > 0) then 1 else 0)
  }

  lemma VisitedOffset(dx: int, dy: int)
    requires -1 <= dx <= 1 && -1 <= dy <= 1 && (dx != 0 || dy != 0)
    ensures 0 <= Visited(dx, dy) < |NeighbourOffsets| && NeighbourOffsets[Visited(dx, dy)] == (dx, dy)
  {
  }

  /** Appending the cell at offset (dx, dy) extends the prefix of the neighbours by one. */
  lemma NeighbourAppend(grid: map<Pos, CellState>, pos: Pos, dx: int, dy: int)
    requires NeighboursDefined(grid, pos)
    requires -1 <= dx <= 1 && -1 <= dy <= 1 && (dx != 0 || dy != 0)
    ensures (pos.0 + dx, pos.1 + dy) in grid
    ensures Visited(dx, dy + 1) == Visited(dx, dy) + 1 <= |Neighbours(grid, pos)|
    ensures Neighbours(grid, pos)[..Visited(dx, dy)] + [grid[(pos.0 + dx, pos.1 + dy)]] ==
            Neighbours(grid, pos)[..Visited(dx, dy + 1)]
  {
    VisitedOffset(dx, dy);
    var all := Neighbours(grid, pos);
    assert all[Visited(dx, dy)] == grid[Shift(pos, (dx, dy))];
  }

  /** A grid with the layout's keys and cells is the layout. */
  lemma LayoutByCells(grid: map<Pos, CellState>, trapIsBelow: bool)
    requires forall p :: p in grid <==> InGrid(p)
    requires forall p :: p in grid ==> grid[p] == LayoutCell(p, trapIsBelow)
    ensures grid == Layout(trapIsBelow)
  {
    forall p
      ensures p in grid <==> p in Layout(trapIsBelow)
    {
      GridKeysAre(p);
    }
  }

  /** What the block loops have built once they have written every (i', j') before (i, j). */
  ghost predicate BlockInv(grid: map<Pos, CellState>, i: int, j: int)
  {
    (forall p :: p in grid <==> InField(p)) &&
    (forall p :: p in grid ==>
       grid[p] == (if InBlock(p) && (p.0 < i || (p.0 == i && p.1 < j)) then Wall else Empty))
  }

  lemma EmptyFieldStart(grid: map<Pos, CellState>)
    requires grid == map i: int, j: int | 0 <= i < GridSize && 0 <= j < GridSize :: (i, j) := Empty
    ensures BlockInv(grid, 1, 1)
  {
    forall p | InField(p)
      ensures p in grid
    {
      var i, j := p.0, p.1;
      assert (i, j) in grid;
    }
  }

  lemma BlockStep(grid: map<Pos, CellState>, i: int, j: int)
    requires 1 <= i <= 3 && 1 <= j <= 3 && BlockInv(grid, i, j)
    ensures BlockInv(grid[(i, j) := Wall], i, j + 1)
  {
    var next := grid[(i, j) := Wall];
    forall p | p in next
      ensures next[p] == (if InBlock(p) && (p.0 < i || (p.0 == i && p.1 < j + 1)) then Wall else Empty)
    {
    }
  }

  lemma BlockRowDone(grid: map<Pos, CellState>, i: int)
    requires BlockInv(grid, i, 4)
    ensures BlockInv(grid, i + 1, 1)
  {
  }

  lemma BlockDone(grid: map<Pos, CellState>)
    requires BlockInv(grid, 4, 1)
    ensures BorderInv(grid, -1)
  {
  }

  /** What the border loop has built once it has run for every index below i. */
  ghost predicate BorderInv(grid: map<Pos, CellState>, i: int)
  {
    (forall p :: p in grid <==> InField(p) || BorderWritten(p, i)) &&
    (forall p :: p in grid ==> grid[p] == (if BorderWritten(p, i) || InBlock(p) then Wall else Empty))
  }

  lemma BorderStep(grid: map<Pos, CellState>, i: int)
    requires -1 <= i <= GridSize && BorderInv(grid, i)
    ensures BorderInv(grid[(-1, i) := Wall][(GridSize, i) := Wall][(i, -1) := Wall][(i, GridSize) := Wall], i + 1)
  {
    var next := grid[(-1, i) := Wall][(GridSize, i) := Wall][(i, -1) := Wall][(i, GridSize) := Wall];
    forall p
      ensures p in next <==> InField(p) || BorderWritten(p, i + 1)
    {
    }
    forall p | p in next
      ensures next[p] == (if BorderWritten(p, i + 1) || InBlock(p) then Wall else Empty)
    {
    }
  }

  /** Writing the goal and the trap over the finished border loop yields the layout. */
  lemma LayoutAfterBorder(grid: map<Pos, CellState>, trapIsBelow: bool)
    requires BorderInv(grid, GridSize + 1)
    ensures grid[GoalPos := Goal][TrapPos(trapIsBelow) := Trap] == Layout(trapIsBelow)
  {
    var final := grid[GoalPos := Goal][TrapPos(trapIsBelow) := Trap];
    forall p
      ensures p in final <==> InGrid(p)
    {
    }
    LayoutByCells(final, trapIsBelow);
  }

  /** The grid `reset(True)` builds (lines 55-72): every field cell EMPTY, then the middle
      block, the border ring, the goal and the trap written over it one key at a time. */
  method BuildGrid(trapIsBelow: bool) returns (grid: map<Pos, CellState>)
    ensures grid == Layout(trapIsBelow)
  {
    grid := map i: int, j: int | 0 <= i < GridSize && 0 <= j < GridSize :: (i, j) := Empty;
    EmptyFieldStart(grid);
    for i := 1 to 4
      invariant BlockInv(grid, i, 1)
    {
      for j := 1 to 4
        invariant BlockInv(grid, i, j)
      {
        BlockStep(grid, i, j);
        grid := grid[(i, j) := Wall];
      }
      BlockRowDone(grid, i);
    }
    BlockDone(grid);

    for i := -1 to GridSize + 1
      invariant BorderInv(grid, i)
    {
      BorderStep(grid, i);
      grid := grid[(-1, i) := Wall];
      grid := grid[(GridSize, i) := Wall];
      grid := grid[(i, -1) := Wall];
      grid := grid[(i, GridSize) := Wall];
    }

    LayoutAfterBorder(grid, trapIsBelow);
    grid := grid[GoalPos := Goal];

    if trapIsBelow {
      grid := grid[(GridSize - 2, GridSize - 1) := Trap];
    } else {
      grid := grid[(GridSize - 1, GridSize - 2) := Trap];
    }
  }

  /** The loop of `_get_obs` (lines 118-124): dx outer, dy inner, the agent's own cell skipped. */
  method SurroundingCells(grid: map<Pos, CellState>, pos: Pos) returns (surroundingCells: seq<CellState>)
    requires NeighboursDefined(grid, pos)
    ensures surroundingCells == Neighbours(grid, pos)
  {
    surroundingCells := [];
    var (x, y) := pos;
    ghost var all := Neighbours(grid, pos);
    for dx := -1 to 2
      invariant surroundingCells == all[..Visited(dx, -1)]
    {
      for dy := -1 to 2
        invariant surroundingCells == all[..Visited(dx, dy)]
      {
        if dx == 0 && dy == 0 {
          continue;
        }
        NeighbourAppend(grid, pos, dx, dy);
        surroundingCells := surroundingCells + [grid[(x + dx, y + dy)]];
      }
    }
    assert Visited(2, -1) == |all|;
  }

  /** The environment object: `reset` fills the grid, `step` moves the agent. */
  class MazeEnv {
    var t: nat
    /** Empty until the first `reset(True)` (the source has no such attribute before it). */
    var grid: map<Pos, CellState>
    var isOriginalTimeline: bool
    var normalAgentPos: Pos

    function World(): MazeWorld
      reads this
    {
      MazeWorld(t, grid, isOriginalTimeline, normalAgentPos)
    }

    predicate Valid()
      reads this
    {
      WellFormed(World())
    }

    /** `__init__` sets only the gym spaces, which are not modelled. */
    constructor ()
      ensures grid == map[]
    {
      t := 0;
      grid := map[];
      isOriginalTimeline := true;
      normalAgentPos := (0, 0);
    }

    /** `reset`: `trapIsBelow` is the bit `random.randint(0, 1) == 0`, read only when
        a new layout is built; `reset(False)` needs a grid from an earlier `reset(True)`. */
    method Reset(isOriginalTimeline: bool, trapIsBelow: bool) returns (obs: ObsPair)
      requires isOriginalTimeline || IsLayout(grid)
      modifies this
      ensures Valid()
      ensures grid == if isOriginalTimeline then Layout(trapIsBelow) else old(grid)
      ensures t == 0 && normalAgentPos == (0, 0) && this.isOriginalTimeline == isOriginalTimeline
      ensures obs == ObsOf(World())
    {
      t := 0;

      if isOriginalTimeline {
        grid := BuildGrid(trapIsBelow);
      }

      this.isOriginalTimeline := isOriginalTimeline;
      normalAgentPos := (0, 0);
      GridKeysAre((0, 0));
      obs := GetObs();
    }

    /** `_get_obs`. */
    method GetObs() returns (obs: ObsPair)
      requires Valid()
      ensures obs == ObsOf(World())
    {
      NeighboursInGrid(grid, normalAgentPos);
      var surroundingCells := SurroundingCells(grid, normalAgentPos);
      obs := (Observation(normalAgentPos, surroundingCells, Normal), None);
    }

    method Step(normalAction: Action, timeTravelAction: Option<Action>) returns (r: StepResult)
      requires Valid()
      modifies this
      ensures Valid()
      ensures var tr := StepWorld(old(World()), normalAction, timeTravelAction);
              World() == tr.next && r == tr.result
    {
      ghost var w := World();
      var infoT := t;

      if !CheckValidAction(Some(normalAction), Normal) || !CheckValidAction(timeTravelAction, TimeTraveling) {
        return StepResult((None, None), BadActionR, false, true, infoT);
      }

      t := t + 1;

      match Offset(normalAction) {
        case Some(d) =>
          var proposedNewPosition := Shift(normalAgentPos, d);
          GridKeysAre(proposedNewPosition);
          if grid[proposedNewPosition] != Wall {
            normalAgentPos := proposedNewPosition;
          }
        case None =>
      }
      assert normalAgentPos == Move(w, normalAction);

      var reward := 0;
      var terminated := false;
      match grid[normalAgentPos] {
        case Goal =>
          reward := GoalR;
          terminated := true;
        case Trap =>
          reward := TrapR;
          terminated := true;
        case _ =>
      }
      reward := reward + TimeR;

      var obs := GetObs();
      return StepResult((Some(obs.0), obs.1), reward, terminated, false, infoT);
    }
  }

  // ---------------------------------------------------------------------------
  // the layout

  /** The grid `reset(True)` builds: keys -1..5 on each axis, walls on the ring and on the
      middle block, GOAL only at (4,4), TRAP only at the site the bit chose, the rest EMPTY. */
  lemma LayoutShape(trapIsBelow: bool)
    ensures forall p :: p in Layout(trapIsBelow) <==> InGrid(p)
    ensures forall p :: p in Layout(trapIsBelow) && (OnBorder(p) || InBlock(p)) ==> Layout(trapIsBelow)[p] == Wall
    ensures forall p :: p in Layout(trapIsBelow) ==> (Layout(trapIsBelow)[p] == Goal <==> p == GoalPos)
    ensures forall p :: p in Layout(trapIsBelow) ==> (Layout(trapIsBelow)[p] == Trap <==> p == TrapPos(trapIsBelow))
    ensures forall p :: p in Layout(trapIsBelow) && !OnBorder(p) && !InBlock(p) && p != GoalPos && p != TrapPos(trapIsBelow) ==>
                        Layout(trapIsBelow)[p] == Empty
    ensures (3, 4) in Layout(trapIsBelow) && Layout(trapIsBelow)[(3, 4)] == (if trapIsBelow then Trap else Empty)
    ensures (4, 3) in Layout(trapIsBelow) && Layout(trapIsBelow)[(4, 3)] == (if trapIsBelow then Empty else Trap)
    ensures (0, 0) in Layout(trapIsBelow) && Layout(trapIsBelow)[(0, 0)] == Empty
  {
    forall p
      ensures p in Layout(trapIsBelow) <==> InGrid(p)
    {
      GridKeysAre(p);
    }
  }

  // ---------------------------------------------------------------------------
  // step

  /** `_check_valid_action` never rejects: no step is truncated, and the traveler's action
      has no effect on anything `step` changes or returns. */
  lemma TravelerActionIgnored(w: MazeWorld, normalAction: Action, a1: Option<Action>, a2: Option<Action>)
    requires WellFormed(w)
    ensures StepWorld(w, normalAction, a1) == StepWorld(w, normalAction, a2)
    ensures !StepWorld(w, normalAction, a1).result.truncated
  {
  }

  /** A directional action moves the agent by its offset exactly when the destination is
      not a wall; TIME_TRAVEL and DO_NOTHING never move it. */
  lemma StepMovement(w: MazeWorld, normalAction: Action, timeTravelAction: Option<Action>)
    requires WellFormed(w)
    ensures var next := StepWorld(w, normalAction, timeTravelAction).next;
            match Offset(normalAction)
            case None => next.normalAgentPos == w.normalAgentPos
            case Some(d) =>
              var dest := Shift(w.normalAgentPos, d);
              dest in w.grid &&
              (next.normalAgentPos == dest <==> w.grid[dest] != Wall) &&
              (next.normalAgentPos == dest || next.normalAgentPos == w.normalAgentPos)
  {
    match Offset(normalAction)
    case None =>
    case Some(d) => GridKeysAre(Shift(w.normalAgentPos, d));
  }

  /** A step ticks the counter, reports the old counter in info, never writes the grid
      nor the timeline flag, and observes the new state. */
  lemma StepBookkeeping(w: MazeWorld, normalAction: Action, timeTravelAction: Option<Action>)
    requires WellFormed(w)
    ensures var tr := StepWorld(w, normalAction, timeTravelAction);
            && tr.next.t == w.t + 1 && tr.result.infoT == w.t
            && tr.next.grid == w.grid && tr.next.isOriginalTimeline == w.isOriginalTimeline
            && !tr.result.truncated
            && tr.result.obs == (Some(ObsOf(tr.next).0), None)
  {
  }

  /** The reward of a step: GOAL_R + TIME_R on the goal, TRAP_R + TIME_R on the trap, both
      ending the episode, and TIME_R anywhere else. */
  lemma StepReward(w: MazeWorld, trapIsBelow: bool, normalAction: Action, timeTravelAction: Option<Action>)
    requires WellFormed(w) && w.grid == Layout(trapIsBelow)
    ensures var tr := StepWorld(w, normalAction, timeTravelAction);
            var pos := tr.next.normalAgentPos;
            && (tr.result.terminated <==> pos == GoalPos || pos == TrapPos(trapIsBelow))
            && tr.result.reward == (if pos == GoalPos then 198 else if pos == TrapPos(trapIsBelow) then -201 else -1)
  {
    LayoutShape(trapIsBelow);
  }

  /** Over any run the grid and the timeline flag stay as they were, the agent stays on an
      open field cell, and the counter grows by one per step. */
  lemma {:induction false} RunKeepsGrid(w: MazeWorld, actions: seq<(Action, Option<Action>)>)
    requires WellFormed(w)
    ensures var v := Run(w, actions);
            v.grid == w.grid && v.isOriginalTimeline == w.isOriginalTimeline && v.t == w.t + |actions| &&
            InField(v.normalAgentPos) && v.grid[v.normalAgentPos] != Wall
    decreases |actions|
  {
    if actions != [] {
      StepBookkeeping(w, actions[0].0, actions[0].1);
      RunKeepsGrid(StepWorld(w, actions[0].0, actions[0].1).next, actions[1..]);
    }
  }

  // ---------------------------------------------------------------------------
  // observations

  /** NeighbourOffsets lists the eight offsets around (0,0), dx first and then dy, in
      increasing order: the order of the two loops of `_get_obs`. */
  lemma NeighbourOffsetsOrder()
    ensures |NeighbourOffsets| == 8
    ensures forall k :: 0 <= k < |NeighbourOffsets| ==>
              -1 <= NeighbourOffsets[k].0 <= 1 && -1 <= NeighbourOffsets[k].1 <= 1 && NeighbourOffsets[k] != (0, 0)
    ensures forall k :: 0 <= k < |NeighbourOffsets| - 1 ==>
              NeighbourOffsets[k].0 < NeighbourOffsets[k + 1].0 ||
              (NeighbourOffsets[k].0 == NeighbourOffsets[k + 1].0 && NeighbourOffsets[k].1 < NeighbourOffsets[k + 1].1)
  {
  }

  /** The observation: the agent's position, the eight neighbour cells (all keys of the
      grid), tagged NORMAL, and no traveler observation. */
  lemma ObservationShape(w: MazeWorld)
    requires WellFormed(w)
    ensures var (obs, timeTravelObs) := ObsOf(w);
            && timeTravelObs == None && obs.agentType == Normal
            && obs.position == w.normalAgentPos && |obs.cells| == 8
            && forall k :: 0 <= k < 8 ==>
                 Shift(w.normalAgentPos, NeighbourOffsets[k]) in w.grid &&
                 obs.cells[k] == w.grid[Shift(w.normalAgentPos, NeighbourOffsets[k])]
  {
    NeighboursInGrid(w.grid, w.normalAgentPos);
  }
}
