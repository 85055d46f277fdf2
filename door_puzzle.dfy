/** The two-door time-travel puzzle of time_travel/envs/door.py.

    The normal agent may open one of two doors at t == 1 and may travel back in
    time at t == 2.  Travelling resets the step counter and re-closes the doors
    but keeps the hidden choice of which door pays; in the branched timeline the
    time-traveling agent may lock a door at t == 0, before the normal agent's
    past self reaches it. */
module DoorPuzzle {
  import opened Wrappers

  /** Reward behind the paying door. */
  const R: int := 100
  /** Penalty for an illegal joint action (the source's float -1e6). */
  const BadActionR: int := -1000000
  /** len(DoorState) and len(AgentType), the radices of the agent's table index. */
  const DoorStateCount: nat := 3
  const AgentTypeCount: nat := 2

  datatype Action = OpenDoor0 | OpenDoor1 | LockDoor0 | LockDoor1 | TimeTravel | DoNothing

  datatype AgentType = Normal | TimeTraveling

  datatype DoorState = Locked | Closed | Open

  /** The enum value of a door state. */
  function DoorStateValue(s: DoorState): nat
  {
    match s
    case Locked => 0
    case Closed => 1
    case Open => 2
  }

  /** The enum value of an agent type. */
  function AgentTypeValue(a: AgentType): nat
  {
    match a
    case Normal => 0
    case TimeTraveling => 1
  }

  /** The bit drawn by `random.randint(0, 1)`. */
  type Bit = b: int | 0 <= b <= 1

  datatype Door = Door(reward: int, state: DoorState)

  datatype Observation = Observation(door0: DoorState, door1: DoorState, agentType: AgentType)

  /** What `_get_obs` returns: the normal agent's observation and the traveler's. */
  type ObsPair = (Observation, Option<Observation>)

  /** `valid_actions` is read before it is assigned (an UnboundLocalError in the source). */
  datatype Error = UnboundValidActions

  /** The tuple `step` returns, without its always-empty info dictionary. */
  datatype StepResult = StepResult(obs: Option<ObsPair>, reward: int, terminated: bool, truncated: bool)

  /** The fields of a DoorEnv, as a value. */
  datatype DoorWorld = DoorWorld(t: nat, doors: seq<Door>, isOriginalTimeline: bool, rewardDoor: Bit)

  /** A step's new state together with what it returns. */
  datatype Transition = Transition(next: DoorWorld, result: StepResult)

  /** The shape every reset leaves: exactly two doors. */
  predicate WellFormed(w: DoorWorld)
  {
    |w.doors| == 2
  }

  /** The door rewards agree with the hidden reward_door. */
  predicate RewardsMatch(w: DoorWorld)
    requires WellFormed(w)
  {
    w.doors[0].reward == R * (1 - w.rewardDoor) && w.doors[1].reward == R * w.rewardDoor
  }

  /** The action that opens door k, and the one that locks it. */
  function OpenAction(k: nat): Action
    requires k < 2
  {
    if k == 0 then OpenDoor0 else OpenDoor1
  }

  function LockAction(k: nat): Action
    requires k < 2
  {
    if k == 0 then LockDoor0 else LockDoor1
  }

  /** The state `reset` builds for a given hidden reward_door. */
  function ResetWorld(rewardDoor: Bit, isOriginalTimeline: bool): (w: DoorWorld)
    ensures WellFormed(w) && RewardsMatch(w) && w.rewardDoor == rewardDoor
  {
    DoorWorld(0, [Door(R * (1 - rewardDoor), Closed), Door(R * rewardDoor, Closed)], isOriginalTimeline, rewardDoor)
  }

  /** `_get_obs`: both agents see both doors; the traveler sees nothing before the branch. */
  function GetObs(w: DoorWorld): (obs: ObsPair)
    requires WellFormed(w)
    ensures obs.0.agentType == Normal
    ensures obs.1.None? <==> w.isOriginalTimeline
    ensures obs.1.Some? ==> obs.1.value == obs.0.(agentType := TimeTraveling)
  {
    var normalObs := Observation(w.doors[0].state, w.doors[1].state, Normal);
    var timeTravelObs :=
      if w.isOriginalTimeline then None
      else Some(Observation(w.doors[0].state, w.doors[1].state, TimeTraveling));
    (normalObs, timeTravelObs)
  }

  /** The set `valid_actions` that `_check_valid_action` builds, or None where it stays unbound. */
  function ValidActions(w: DoorWorld, agentType: AgentType): (r: Option<set<Action>>)
    requires WellFormed(w)
    ensures r.Some? && agentType == Normal ==> LockDoor0 !in r.value && LockDoor1 !in r.value
    ensures r.Some? && agentType == TimeTraveling ==>
              OpenDoor0 !in r.value && OpenDoor1 !in r.value && TimeTravel !in r.value
  {
    match agentType
    case Normal =>
      if w.t == 0 then Some({DoNothing})
      else if w.t == 1 then
        var all := {OpenDoor0, OpenDoor1, DoNothing};
        var afterDoor0 := if w.doors[0].state == Locked then all - {OpenDoor0} else all;
        // For door 1 the source compares the set with {OPEN_DOOR_1} and discards the
        // comparison, so a locked door 1 removes nothing.
        Some(afterDoor0)
      else if w.t == 2 then Some({TimeTravel, DoNothing})
      else None
    case TimeTraveling =>
      if w.t == 0 then Some({LockDoor0, LockDoor1, DoNothing})
      else if w.t == 1 then Some({DoNothing})
      else None
  }

  /** `_check_valid_action`: None is the absent traveler action. */
  function CheckValidAction(w: DoorWorld, action: Option<Action>, agentType: AgentType): (r: Result<bool, Error>)
    requires WellFormed(w)
    ensures r.Err? ==> !(agentType == TimeTraveling && w.isOriginalTimeline) && ValidActions(w, agentType).None?
    ensures action == None && r == Ok(true) ==> agentType == TimeTraveling && w.isOriginalTimeline
    ensures action == Some(DoNothing) && r.Ok? ==> r.value == !(agentType == TimeTraveling && w.isOriginalTimeline)
  {
    if agentType == TimeTraveling && w.isOriginalTimeline then Ok(action == None)
    else
      match ValidActions(w, agentType)
      case None => Err(UnboundValidActions)
      case Some(valid) => Ok(action.Some? && action.value in valid)
  }

  /** Both sub-actions pass the legality check. */
  predicate Legal(w: DoorWorld, normalAction: Action, timeTravelAction: Option<Action>)
    requires WellFormed(w)
  {
    CheckValidAction(w, Some(normalAction), Normal) == Ok(true) &&
    CheckValidAction(w, timeTravelAction, TimeTraveling) == Ok(true)
  }

  /** The result of an illegal joint action. */
  function Truncation(): StepResult
  {
    StepResult(None, BadActionR, false, true)
  }

  function SetDoorState(w: DoorWorld, k: nat, s: DoorState): (v: DoorWorld)
    requires WellFormed(w) && k < 2
    ensures WellFormed(v)
  {
    w.(doors := w.doors[k := w.doors[k].(state := s)])
  }

  /** Lines 77-95 of `step`: tick, apply the traveler's lock, then the normal agent's action. */
  function ApplyActions(w: DoorWorld, normalAction: Action, timeTravelAction: Option<Action>): (tr: Transition)
    requires WellFormed(w)
    ensures WellFormed(tr.next) && tr.next.rewardDoor == w.rewardDoor
    ensures !tr.result.truncated && tr.result.obs == Some(GetObs(tr.next))
    ensures normalAction != TimeTravel ==>
              tr.next.t == w.t + 1 && tr.next.isOriginalTimeline == w.isOriginalTimeline &&
              tr.next.doors[0].reward == w.doors[0].reward && tr.next.doors[1].reward == w.doors[1].reward
    ensures normalAction == TimeTravel ==> tr.next == ResetWorld(w.rewardDoor, false)
  {
    var ticked := w.(t := w.t + 1);
    var locked :=
      match timeTravelAction
      case Some(LockDoor0) => SetDoorState(ticked, 0, Locked)
      case Some(LockDoor1) => SetDoorState(ticked, 1, Locked)
      case _ => ticked;
    match normalAction
    case OpenDoor0 => OpenDoorStep(locked, 0)
    case OpenDoor1 => OpenDoorStep(locked, 1)
    case TimeTravel =>
      var branched := ResetWorld(locked.rewardDoor, false);
      Transition(branched, StepResult(Some(GetObs(branched)), 0, false, false))
    case _ => Transition(locked, StepResult(Some(GetObs(locked)), 0, false, false))
  }

  /** Opening door k: only that door changes, and the step pays its reward. */
  function OpenDoorStep(w: DoorWorld, k: nat): (tr: Transition)
    requires WellFormed(w) && k < 2
    ensures WellFormed(tr.next) && tr.next.doors[k] == w.doors[k].(state := Open)
    ensures tr.next.doors[1 - k] == w.doors[1 - k]
    ensures tr.next.t == w.t && tr.next.isOriginalTimeline == w.isOriginalTimeline
    ensures tr.result.reward == w.doors[k].reward && (tr.result.terminated <==> !w.isOriginalTimeline)
  {
    var afterOpen := SetDoorState(w, k, Open);
    Transition(afterOpen, StepResult(Some(GetObs(afterOpen)), afterOpen.doors[k].reward, !afterOpen.isOriginalTimeline, false))
  }

  /** `step` as a function of the state: the traveler's action is checked only when the
      normal agent's passes (Python's short-circuit `or`). */
  function StepWorld(w: DoorWorld, normalAction: Action, timeTravelAction: Option<Action>): (r: Result<Transition, Error>)
    requires WellFormed(w)
    ensures r.Ok? ==> WellFormed(r.value.next) && r.value.next.rewardDoor == w.rewardDoor
  {
    match CheckValidAction(w, Some(normalAction), Normal)
    case Err(e) => Err(e)
    case Ok(normalValid) =>
      if !normalValid then Ok(Transition(w, Truncation()))
      else
        match CheckValidAction(w, timeTravelAction, TimeTraveling)
        case Err(e) => Err(e)
        case Ok(timeTravelValid) =>
          if !timeTravelValid then Ok(Transition(w, Truncation()))
          else Ok(ApplyActions(w, normalAction, timeTravelAction))
  }

  /** One call of `step` in a run. */
  datatype JointAction = JointAction(normalAction: Action, timeTravelAction: Option<Action>)

  /** The state after a sequence of `step` calls; a call that raises ends the run. */
  function Run(w: DoorWorld, actions: seq<JointAction>): (v: DoorWorld)
    requires WellFormed(w)
    ensures WellFormed(v) && v.rewardDoor == w.rewardDoor
    decreases |actions|
  {
    if actions == [] then w
    else
      match StepWorld(w, actions[0].normalAction, actions[0].timeTravelAction)
      case Err(_) => w
      case Ok(tr) => Run(tr.next, actions[1..])
  }

  /** The environment object: `reset` and `step` update its fields in place. */
  class DoorEnv {
    const rewardDoor: Bit
    var t: nat
    /** Empty until the first `reset` (the source has no such attribute before it). */
    var doors: seq<Door>
    var isOriginalTimeline: bool

    function World(): DoorWorld
      reads this
    {
      DoorWorld(t, doors, isOriginalTimeline, rewardDoor)
    }

    predicate Valid()
      reads this
    {
      WellFormed(World())
    }

    /** `__init__`: the hidden reward door is drawn once, here. */
    constructor (rewardDoor: Bit)
      ensures this.rewardDoor == rewardDoor && doors == []
    {
      this.rewardDoor := rewardDoor;
      t := 0;
      doors := [];
      isOriginalTimeline := true;
    }

    method Reset(isOriginalTimeline: bool) returns (obs: ObsPair)
      modifies this
      ensures Valid() && World() == ResetWorld(rewardDoor, isOriginalTimeline)
      ensures obs == GetObs(World())
    {
      t := 0;
      doors := [Door(R * (1 - rewardDoor), Closed), Door(R * rewardDoor, Closed)];
      this.isOriginalTimeline := isOriginalTimeline;
      obs := GetObs(World());
    }

    method Step(normalAction: Action, timeTravelAction: Option<Action>) returns (r: Result<StepResult, Error>)
      requires Valid()
      modifies this
      ensures Valid()
      ensures match StepWorld(old(World()), normalAction, timeTravelAction)
              case Err(e) => r == Err(e) && World() == old(World())
              case Ok(tr) => r == Ok(tr.result) && World() == tr.next
    {
      var normalValid := CheckValidAction(World(), Some(normalAction), Normal);
      if normalValid.Err? {
        return Err(normalValid.error);
      }
      var valid := normalValid.value;
      if valid {
        var timeTravelValid := CheckValidAction(World(), timeTravelAction, TimeTraveling);
        if timeTravelValid.Err? {
          return Err(timeTravelValid.error);
        }
        valid := timeTravelValid.value;
      }
      if !valid {
        return Ok(Truncation());
      }

      t := t + 1;

      match timeTravelAction {
        case Some(LockDoor0) => doors := doors[0 := doors[0].(state := Locked)];
        case Some(LockDoor1) => doors := doors[1 := doors[1].(state := Locked)];
        case _ =>
      }

      var reward := 0;
      var terminated := false;
      match normalAction {
        case OpenDoor0 =>
          doors := doors[0 := doors[0].(state := Open)];
          reward := doors[0].reward;
          terminated := !isOriginalTimeline;
        case OpenDoor1 =>
          doors := doors[1 := doors[1].(state := Open)];
          reward := doors[1].reward;
          terminated := !isOriginalTimeline;
        case TimeTravel =>
          var _ := Reset(false);
        case _ =>
      }
      return Ok(StepResult(Some(GetObs(World())), reward, terminated, false));
    }
  }

  // ---------------------------------------------------------------------------
  // reset

  /** After `reset` the step counter is 0, both doors are closed, door `rewardDoor`
      is worth R and the other nothing. */
  lemma ResetState(rewardDoor: Bit, isOriginalTimeline: bool)
    ensures var w := ResetWorld(rewardDoor, isOriginalTimeline);
            WellFormed(w) && RewardsMatch(w) && w.t == 0 &&
            w.isOriginalTimeline == isOriginalTimeline &&
            w.doors[0].state == Closed && w.doors[1].state == Closed &&
            w.doors[rewardDoor].reward == R && w.doors[1 - rewardDoor].reward == 0
  {
  }

  // ---------------------------------------------------------------------------
  // legality

  /** In the original timeline the traveler's action is legal exactly when it is absent. */
  lemma TravelerAbsentInOriginalTimeline(w: DoorWorld, action: Option<Action>)
    requires WellFormed(w) && w.isOriginalTimeline
    ensures CheckValidAction(w, action, TimeTraveling) == Ok(action == None)
  {
  }

  /** The normal agent's legality table; a locked door 1 stays openable. */
  lemma NormalLegalityTable(w: DoorWorld, a: Action)
    requires WellFormed(w)
    ensures CheckValidAction(w, Some(a), Normal) ==
            if w.t == 0 then Ok(a == DoNothing)
            else if w.t == 1 then Ok(a == DoNothing || a == OpenDoor1 || (a == OpenDoor0 && w.doors[0].state != Locked))
            else if w.t == 2 then Ok(a == TimeTravel || a == DoNothing)
            else Err(UnboundValidActions)
  {
  }

  /** The branched traveler's legality table. */
  lemma TravelerLegalityTable(w: DoorWorld, action: Option<Action>)
    requires WellFormed(w) && !w.isOriginalTimeline
    ensures CheckValidAction(w, action, TimeTraveling) ==
            if w.t == 0 then Ok(action == Some(LockDoor0) || action == Some(LockDoor1) || action == Some(DoNothing))
            else if w.t == 1 then Ok(action == Some(DoNothing))
            else Err(UnboundValidActions)
  {
  }

  /** Wherever the table is defined it offers DO_NOTHING, so no role is ever left without a move. */
  lemma DoNothingAlwaysOffered(w: DoorWorld, agentType: AgentType)
    requires WellFormed(w)
    ensures ValidActions(w, agentType).Some? ==> DoNothing in ValidActions(w, agentType).value
    ensures ValidActions(w, agentType).Some? <==> (if agentType == Normal then w.t <= 2 else w.t <= 1)
  {
  }

  // ---------------------------------------------------------------------------
  // step

  /** A step is cut short (truncated, penalty, nothing observed, state unchanged) exactly
      when a sub-action is illegal; it raises exactly when a consulted table is unbound. */
  lemma StepOutcomeByLegality(w: DoorWorld, normalAction: Action, timeTravelAction: Option<Action>)
    requires WellFormed(w)
    ensures var r := StepWorld(w, normalAction, timeTravelAction);
            && (r.Ok? && r.value.result.truncated <==>
                 r.Ok? && !Legal(w, normalAction, timeTravelAction))
            && (r.Ok? && r.value.result.truncated ==>
                 r.value == Transition(w, Truncation()))
            && (r.Err? <==>
                 CheckValidAction(w, Some(normalAction), Normal).Err? ||
                 (CheckValidAction(w, Some(normalAction), Normal) == Ok(true) &&
                  CheckValidAction(w, timeTravelAction, TimeTraveling).Err?))
  {
  }

  /** A legal step ticks the counter, except TIME_TRAVEL, which branches: counter 0, doors
      closed, same reward door, original timeline left for good, reward 0. */
  lemma LegalStepCounterAndTimeline(w: DoorWorld, normalAction: Action, timeTravelAction: Option<Action>)
    requires WellFormed(w) && Legal(w, normalAction, timeTravelAction)
    ensures StepWorld(w, normalAction, timeTravelAction).Ok?
    ensures var tr := StepWorld(w, normalAction, timeTravelAction).value;
            && !tr.result.truncated && tr.result.obs == Some(GetObs(tr.next))
            && (normalAction != TimeTravel ==>
                  tr.next.t == w.t + 1 && tr.next.isOriginalTimeline == w.isOriginalTimeline)
            && (normalAction == TimeTravel ==>
                  tr.next == ResetWorld(w.rewardDoor, false) && tr.result.reward == 0 && !tr.result.terminated)
  {
  }

  /** Each door after a legal non-travel step: the traveler's lock lands first and the
      normal agent's open overrides it. */
  lemma DoorAfterLegalStep(w: DoorWorld, normalAction: Action, timeTravelAction: Option<Action>, k: nat)
    requires WellFormed(w) && Legal(w, normalAction, timeTravelAction)
    requires normalAction != TimeTravel && k < 2
    ensures StepWorld(w, normalAction, timeTravelAction).Ok?
    ensures StepWorld(w, normalAction, timeTravelAction).value.next.doors[k] ==
            Door(w.doors[k].reward,
                 if normalAction == OpenAction(k) then Open
                 else if timeTravelAction == Some(LockAction(k)) then Locked
                 else w.doors[k].state)
  {
  }

  /** OPEN_DOOR_k pays door k's reward and ends the episode only in the branched timeline;
      every other legal action pays nothing and does not end it. */
  lemma LegalStepReward(w: DoorWorld, normalAction: Action, timeTravelAction: Option<Action>)
    requires WellFormed(w) && Legal(w, normalAction, timeTravelAction)
    ensures StepWorld(w, normalAction, timeTravelAction).Ok?
    ensures var res := StepWorld(w, normalAction, timeTravelAction).value.result;
            if normalAction == OpenDoor0 || normalAction == OpenDoor1 then
              var k := if normalAction == OpenDoor0 then 0 else 1;
              res.reward == w.doors[k].reward && res.terminated == !w.isOriginalTimeline
            else
              res.reward == 0 && !res.terminated
  {
  }

  /** With the rewards as reset sets them, opening the hidden reward door pays R and the
      other door pays 0. */
  lemma OpeningPaysOnlyRewardDoor(w: DoorWorld, k: nat, timeTravelAction: Option<Action>)
    requires WellFormed(w) && RewardsMatch(w) && k < 2
    requires Legal(w, OpenAction(k), timeTravelAction)
    ensures StepWorld(w, OpenAction(k), timeTravelAction).Ok?
    ensures StepWorld(w, OpenAction(k), timeTravelAction).value.result.reward ==
            if k == w.rewardDoor then R else 0
  {
    LegalStepReward(w, OpenAction(k), timeTravelAction);
  }

  /** A step never changes the reward assignment and never returns to the original timeline. */
  lemma StepKeepsRewardsAndBranch(w: DoorWorld, normalAction: Action, timeTravelAction: Option<Action>)
    requires WellFormed(w)
    ensures var r := StepWorld(w, normalAction, timeTravelAction);
            r.Ok? ==>
              (RewardsMatch(w) ==> RewardsMatch(r.value.next)) &&
              (r.value.next.isOriginalTimeline ==> w.isOriginalTimeline)
  {
  }

  /** The step counter stays within 0..3: a legal step needs the normal agent's table. */
  lemma StepCounterBounded(w: DoorWorld, normalAction: Action, timeTravelAction: Option<Action>)
    requires WellFormed(w) && w.t <= 3
    ensures var r := StepWorld(w, normalAction, timeTravelAction);
            r.Ok? ==> r.value.next.t <= 3
  {
  }

  /** Across any run, including branch resets, the hidden reward assignment is kept. */
  lemma {:induction false} RunKeepsRewardAssignment(w: DoorWorld, actions: seq<JointAction>)
    requires WellFormed(w) && RewardsMatch(w)
    ensures RewardsMatch(Run(w, actions))
    ensures Run(w, actions).doors[w.rewardDoor].reward == R
    ensures Run(w, actions).doors[1 - w.rewardDoor].reward == 0
    decreases |actions|
  {
    if actions != [] {
      var a := actions[0];
      StepKeepsRewardsAndBranch(w, a.normalAction, a.timeTravelAction);
      match StepWorld(w, a.normalAction, a.timeTravelAction)
      case Err(_) =>
      case Ok(tr) => RunKeepsRewardAssignment(tr.next, actions[1..]);
    }
  }

  /** Once branched, a run never returns to the original timeline. */
  lemma {:induction false} RunStaysBranched(w: DoorWorld, actions: seq<JointAction>)
    requires WellFormed(w) && !w.isOriginalTimeline
    ensures !Run(w, actions).isOriginalTimeline
    decreases |actions|
  {
    if actions != [] {
      var a := actions[0];
      StepKeepsRewardsAndBranch(w, a.normalAction, a.timeTravelAction);
      match StepWorld(w, a.normalAction, a.timeTravelAction)
      case Err(_) =>
      case Ok(tr) => RunStaysBranched(tr.next, actions[1..]);
    }
  }

  /** The play the puzzle is built around: wait, wait, travel back; in the branch the
      traveler locks the door that does not pay, and the normal agent's past self then
      opens the paying door, earning R and ending the episode. */
  lemma {:induction false} BranchScenario(rewardDoor: Bit)
    ensures var w := Run(ResetWorld(rewardDoor, true),
                         [JointAction(DoNothing, None), JointAction(DoNothing, None),
                          JointAction(TimeTravel, None), JointAction(DoNothing, Some(LockAction(1 - rewardDoor)))]);
            && w.t == 1 && !w.isOriginalTimeline
            && w.doors[1 - rewardDoor].state == Locked && w.doors[rewardDoor].state == Closed
            && var r := StepWorld(w, OpenAction(rewardDoor), Some(DoNothing));
               r.Ok? && r.value.result.reward == R && r.value.result.terminated && !r.value.result.truncated
  {
    var w0 := ResetWorld(rewardDoor, true);
    var w1 := StepWorld(w0, DoNothing, None).value.next;
    var w2 := StepWorld(w1, DoNothing, None).value.next;
    var w3 := StepWorld(w2, TimeTravel, None).value.next;
    assert w3 == ResetWorld(rewardDoor, false);
    var w4 := StepWorld(w3, DoNothing, Some(LockAction(1 - rewardDoor))).value.next;
    var actions := [JointAction(DoNothing, None), JointAction(DoNothing, None),
                    JointAction(TimeTravel, None), JointAction(DoNothing, Some(LockAction(1 - rewardDoor)))];
    assert Run(w3, actions[3..]) == w4 by {
      assert Run(w4, actions[4..]) == w4;
    }
    assert Run(w2, actions[2..]) == Run(w3, actions[3..]) by {
      assert actions[2..][1..] == actions[3..];
    }
    assert Run(w1, actions[1..]) == Run(w2, actions[2..]) by {
      assert actions[1..][1..] == actions[2..];
    }
    assert Run(w0, actions) == Run(w1, actions[1..]);
  }

  // ---------------------------------------------------------------------------
  // observations

  /** The normal observation is always there; the traveler's is absent exactly in the
      original timeline; both report the two doors, tagged with their own role. */
  lemma ObservationRoles(w: DoorWorld)
    requires WellFormed(w)
    ensures var (normalObs, timeTravelObs) := GetObs(w);
            && normalObs == Observation(w.doors[0].state, w.doors[1].state, Normal)
            && (timeTravelObs == None <==> w.isOriginalTimeline)
            && (timeTravelObs.Some? ==> timeTravelObs.value == normalObs.(agentType := TimeTraveling))
  {
  }
}
