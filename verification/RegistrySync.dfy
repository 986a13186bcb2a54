/** SyncAgentRegistryWithValidatorSet: mirroring the staking validators into the registry. */
module RegistrySync {
  import opened Basics
  import opened Types
  import opened Store
  import Strings

  datatype ValidatorState = ValidatorState(
    operator: string, signer: string, publicKey: Bytes, power: uint64, active: bool, metadata: string)

  datatype Synced = Synced(state: State, updated: nat, deactivated: nat)

  /** byOperator: the last state given for an operator. */
  function Lookup(states: seq<ValidatorState>, operator: string): Option<ValidatorState>
  {
    if states == [] || operator == "" then None
    else
      var last := states[|states| - 1];
      if last.operator == operator then Some(last) else Lookup(states[..|states| - 1], operator)
  }

  /** The key an agent votes with: its own, or the validator's when it has none and the signer agrees. */
  function KeyAfter(a: AgentInfo, found: Option<ValidatorState>): Bytes
  {
    if found.Some? && a.signer == found.value.signer && a.publicKey == [] then found.value.publicKey else a.publicKey
  }

  predicate Electable(a: AgentInfo, found: Option<ValidatorState>)
  {
    found.Some? && found.value.active && found.value.power != 0 && KeyAfter(a, found) != []
  }

  function Refresh(a: AgentInfo, found: Option<ValidatorState>): AgentInfo
  {
    if Electable(a, found) then a.(publicKey := KeyAfter(a, found), active := true, power := found.value.power)
    else a.(publicKey := KeyAfter(a, found), active := false, power := 0)
  }

  function RefreshStep(acc: Synced, a: AgentInfo, states: seq<ValidatorState>): Synced
  {
    if a.operator == "" then acc
    else
      var found := Lookup(states, a.operator);
      var next := Refresh(a, found);
      Synced(SetAgent(acc.state, next),
             if Electable(a, found) && (a.power != next.power || !a.active) then acc.updated + 1 else acc.updated,
             if !Electable(a, found) && a.active then acc.deactivated + 1 else acc.deactivated)
  }

  /** The first loop, over the agents loaded before it. */
  function RefreshAll(acc: Synced, agents: seq<AgentInfo>, states: seq<ValidatorState>): Synced
  {
    if agents == [] then acc
    else RefreshStep(RefreshAll(acc, agents[..|agents| - 1], states), agents[|agents| - 1], states)
  }

  /** The full scan of GetAgentByValidatorOperator. */
  ghost predicate KnownOperator(agents: map<string, AgentInfo>, operator: string)
  {
    exists id :: id in agents && agents[id].operator == operator
  }

  function NewId(operator: string): string { "validator:" + operator }

  /** A validator that the second loop would add to this registry. */
  ghost predicate Creatable(agents: map<string, AgentInfo>, v: ValidatorState)
  {
    && v.operator != "" && v.signer != "" && v.active && v.power != 0 && v.publicKey != []
    && !KnownOperator(agents, v.operator) && NewId(v.operator) !in agents
  }

  function NewAgent(v: ValidatorState): AgentInfo
  {
    AgentInfo(NewId(v.operator), v.operator, v.signer, v.publicKey, v.power, true,
              if v.metadata == "" then "staking-sync" else v.metadata)
  }

  ghost function CreateStep(acc: Synced, v: ValidatorState): Synced
  {
    if Creatable(acc.state.agents, v)
    then Synced(SetAgent(acc.state, NewAgent(v)), acc.updated + 1, acc.deactivated) else acc
  }

  ghost function CreateAll(acc: Synced, states: seq<ValidatorState>): Synced
  {
    if states == [] then acc
    else CreateStep(CreateAll(acc, states[..|states| - 1]), states[|states| - 1])
  }

  /** All agents in key order. */
  ghost function AllAgents(agents: map<string, AgentInfo>): (r: seq<AgentInfo>)
    ensures |r| == |agents.Keys|
  {
    var ids := Strings.Sorted(agents.Keys);
    assert forall i :: 0 <= i < |ids| ==> ids[i] in ids;
    seq(|ids|, i requires 0 <= i < |ids| => agents[ids[i]])
  }

  ghost function Refreshed(s: State, states: seq<ValidatorState>): Synced
  {
    RefreshAll(Synced(s, 0, 0), AllAgents(s.agents), states)
  }

  ghost function Sync(s: State, states: seq<ValidatorState>): Synced
  {
    CreateAll(Refreshed(s, states), states)
  }
}
