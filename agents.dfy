/** The table index of `DoorAgent._obs_to_idx` (time_travel/agents/door_agent.py).

    The agent's Q-table has one row per door observation plus two sentinel rows
    at the end: one for a missing observation (the step was truncated) and one
    for the turns on which the only legal move is DO_NOTHING. */
module Agents {
  import opened Wrappers
  import opened DoorPuzzle

  /** Number of distinct door observations, len(DoorState)^2 * len(AgentType). */
  const ObservationCount: nat := DoorStateCount * DoorStateCount * AgentTypeCount

  /** The part of a DoorAgent the index reads: the number of rows of its Q-table, which
      the source takes from the environment's observation space plus 2. */
  datatype DoorAgent = DoorAgent(rows: nat) {

    /** Row for a missing observation. */
    function TruncatedObsIdx(): (idx: int)
      ensures rows >= 2 ==> 0 <= idx < rows - 1
    {
      rows - 2
    }

    /** Row for a forced DO_NOTHING turn. */
    function DoNothingObsIdx(): (idx: int)
      ensures rows >= 1 ==> 0 <= idx < rows
      ensures idx > TruncatedObsIdx()
    {
      rows - 1
    }
  }

  /** The mixed-radix index door0 * 6 + door1 * 2 + agent_type. */
  function MixedRadix(o: Observation): (idx: int)
    ensures 0 <= idx < ObservationCount
  {
    DoorStateValue(o.door0) * (DoorStateCount * AgentTypeCount) +
    DoorStateValue(o.door1) * AgentTypeCount +
    AgentTypeValue(o.agentType)
  }

  function DoorStateOf(v: int): DoorState
    requires 0 <= v < DoorStateCount
  {
    if v == 0 then Locked else if v == 1 then Closed else Open
  }

  function AgentTypeOf(v: int): AgentType
    requires 0 <= v < AgentTypeCount
  {
    if v == 0 then Normal else TimeTraveling
  }

  /** The inverse of MixedRadix: door0 = idx / 6, door1 = (idx / 2) % 3, agent_type = idx % 2. */
  function DecodeIndex(idx: int): Observation
    requires 0 <= idx < ObservationCount
  {
    Observation(DoorStateOf(idx / (DoorStateCount * AgentTypeCount)),
                DoorStateOf((idx / AgentTypeCount) % DoorStateCount),
                AgentTypeOf(idx % AgentTypeCount))
  }

  /** A forced DO_NOTHING turn (NORMAL at t == 0, TIME_TRAVELING at t == 1). */
  predicate ForcedDoNothing(envT: int, o: Observation)
  {
    (envT == 0 && o.agentType == Normal) || (envT == 1 && o.agentType == TimeTraveling)
  }

  /** `_obs_to_idx`; `envT` is the environment's step counter `env.t` at the call. */
  function ObsToIdx(agent: DoorAgent, envT: int, obs: Option<Observation>): (idx: int)
    ensures agent.rows >= ObservationCount + 2 ==> 0 <= idx < agent.rows
  {
    if obs == None then agent.TruncatedObsIdx()
    else if ForcedDoNothing(envT, obs.value) then agent.DoNothingObsIdx()
    else MixedRadix(obs.value)
  }

  // ---------------------------------------------------------------------------

  /** The sentinels are the last two rows of the table and differ. */
  lemma SentinelRows(agent: DoorAgent)
    requires agent.rows >= 2
    ensures 0 <= agent.TruncatedObsIdx() < agent.DoNothingObsIdx() < agent.rows
    ensures agent.DoNothingObsIdx() == agent.rows - 1 && agent.TruncatedObsIdx() == agent.rows - 2
  {
  }

  /** A missing observation maps to the truncation row whatever the step counter;
      forced DO_NOTHING turns map to the do-nothing row; everything else to its
      mixed-radix index below ObservationCount. */
  lemma ObsToIdxCases(agent: DoorAgent, envT: int, obs: Option<Observation>)
    ensures obs == None ==> ObsToIdx(agent, envT, obs) == agent.TruncatedObsIdx()
    ensures obs.Some? && ForcedDoNothing(envT, obs.value) ==>
              ObsToIdx(agent, envT, obs) == agent.DoNothingObsIdx()
    ensures obs.Some? && !ForcedDoNothing(envT, obs.value) ==>
              ObsToIdx(agent, envT, obs) == MixedRadix(obs.value)
  {
  }

  /** Decoding a mixed-radix index gives the observation back. */
  lemma DecodeEncode(o: Observation)
    ensures DecodeIndex(MixedRadix(o)) == o
  {
    var d0, d1, a := DoorStateValue(o.door0), DoorStateValue(o.door1), AgentTypeValue(o.agentType);
    var idx := MixedRadix(o);
    assert idx == d0 * 6 + d1 * 2 + a;
    assert idx / 6 == d0 && (idx / 2) % 3 == d1 && idx % 2 == a by {
      DivModSmall(d0, d1, a);
    }
  }

  lemma DivModSmall(d0: int, d1: int, a: int)
    requires 0 <= d0 < 3 && 0 <= d1 < 3 && 0 <= a < 2
    ensures (d0 * 6 + d1 * 2 + a) / 6 == d0
    ensures ((d0 * 6 + d1 * 2 + a) / 2) % 3 == d1
    ensures (d0 * 6 + d1 * 2 + a) % 2 == a
  {
  }

  /** Every row below ObservationCount is the index of exactly the observation it decodes to. */
  lemma EncodeDecode(idx: int)
    requires 0 <= idx < ObservationCount
    ensures MixedRadix(DecodeIndex(idx)) == idx
  {
  }

  /** Distinct observations get distinct rows. */
  lemma MixedRadixInjective(o1: Observation, o2: Observation)
    ensures MixedRadix(o1) == MixedRadix(o2) <==> o1 == o2
  {
    if MixedRadix(o1) == MixedRadix(o2) {
      DecodeEncode(o1);
      DecodeEncode(o2);
    }
  }

  /** Outside forced DO_NOTHING turns, distinct observations get distinct rows of
      `_obs_to_idx`, and none of them is a sentinel row. */
  lemma ObsToIdxInjective(agent: DoorAgent, envT: int, o1: Observation, o2: Observation)
    requires agent.rows >= ObservationCount + 2
    requires !ForcedDoNothing(envT, o1) && !ForcedDoNothing(envT, o2)
    ensures ObsToIdx(agent, envT, Some(o1)) == ObsToIdx(agent, envT, Some(o2)) <==> o1 == o2
    ensures ObsToIdx(agent, envT, Some(o1)) != agent.TruncatedObsIdx()
    ensures ObsToIdx(agent, envT, Some(o1)) != agent.DoNothingObsIdx()
  {
    MixedRadixInjective(o1, o2);
  }

  /** With at least 20 rows neither sentinel collides with an observation's row. */
  lemma SentinelsAreNotObservationRows(agent: DoorAgent, o: Observation)
    requires agent.rows >= ObservationCount + 2
    ensures MixedRadix(o) != agent.TruncatedObsIdx() && MixedRadix(o) != agent.DoNothingObsIdx()
  {
  }
}
