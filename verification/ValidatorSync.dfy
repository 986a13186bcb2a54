/** x/sanction/keeper/validator_sync.go: the two loops with their lookup maps, against the plain scans. */
module ValidatorSync {
  import opened Basics
  import opened Types
  import opened Store
  import opened Frames
  import opened RegistrySync
  import opened Registry
  import opened KeeperStore
  import Strings

  /** byOperator agrees with the last state listed for an operator. */
  ghost predicate ByOperator(m: map<string, ValidatorState>, states: seq<ValidatorState>)
  {
    forall op :: (if op in m then Some(m[op]) else None) == Lookup(states, op)
  }

  method IndexByOperator(states: seq<ValidatorState>) returns (m: map<string, ValidatorState>)
    ensures ByOperator(m, states)
  {
    m := map[];
    for i := 0 to |states|
      invariant ByOperator(m, states[..i]) && "" !in m
    {
      assert states[..i + 1][..i] == states[..i];
      if states[i].operator != "" {
        m := m[states[i].operator := states[i]];
      }
    }
    assert states[..|states|] == states;
  }

  /** The two known-sets hold what a full scan of the table would find. */
  ghost predicate KnownSets(t: Agents, operators: set<string>, ids: set<string>)
  {
    && (forall id :: id in ids <==> id in t)
    && (forall op :: op in operators <==> op != "" && KnownOperator(t, op))
  }

  ghost predicate KnownPrefix(agents: seq<AgentInfo>, operators: set<string>, ids: set<string>)
  {
    && (forall id :: id in ids <==> exists i :: 0 <= i < |agents| && agents[i].agentId == id)
    && (forall op :: op in operators <==> op != "" && exists i :: 0 <= i < |agents| && agents[i].operator == op)
  }

  lemma KnownMore(agents: seq<AgentInfo>, a: AgentInfo, operators: set<string>, ids: set<string>)
    requires KnownPrefix(agents, operators, ids)
    ensures KnownPrefix(agents + [a], if a.operator == "" then operators else operators + {a.operator}, ids + {a.agentId})
  {
    var more := agents + [a];
    assert more[|agents|] == a;
    assert forall i :: 0 <= i < |agents| ==> more[i] == agents[i];
  }

  lemma ScanFinds(t: Agents, operator: string)
    requires KeyedAgents(t)
    ensures KnownOperator(t, operator) <==> exists i :: 0 <= i < |AllAgents(t)| && AllAgents(t)[i].operator == operator
  {
    AllAgentsLoaded(t);
    var all := AllAgents(t);
    hide AllAgents;
    if KnownOperator(t, operator) {
      var id :| id in t && t[id].operator == operator;
      assert Named(all, id);
      var i :| 0 <= i < |all| && all[i].agentId == id;
      assert all[i].operator == operator;
    }
  }

  lemma KnownLoaded(t: Agents, operators: set<string>, ids: set<string>)
    requires KeyedAgents(t) && KnownPrefix(AllAgents(t), operators, ids)
    ensures KnownSets(t, operators, ids)
  {
    AllAgentsLoaded(t);
    var all := AllAgents(t);
    hide AllAgents;
    forall id ensures id in ids <==> id in t { assert Named(all, id) <==> id in t; }
    forall op ensures (exists i :: 0 <= i < |all| && all[i].operator == op) <==> KnownOperator(t, op) { ScanFinds(t, op); }
    hide KnownOperator;
  }

  lemma KnownSame(t: Agents, t': Agents, operators: set<string>, ids: set<string>)
    requires KnownSets(t, operators, ids)
    requires t'.Keys == t.Keys && forall id :: id in t ==> t'[id].operator == t[id].operator
    ensures KnownSets(t', operators, ids)
  {
    forall op ensures KnownOperator(t, op) <==> KnownOperator(t', op) { SameOperators(t, t', op); }
    hide KnownOperator;
    assert forall id :: id in t <==> id in t.Keys;
  }

  /** After the first loop the sets describe the refreshed table. */
  lemma KnownRefreshed(s: State, states: seq<ValidatorState>, operators: set<string>, ids: set<string>)
    requires KeyedAgents(s.agents) && KnownPrefix(AllAgents(s.agents), operators, ids)
    ensures KnownSets(Refreshed(s, states).state.agents, operators, ids)
  {
    RefreshedTable(s, states);
    KnownLoaded(s.agents, operators, ids);
    var t := Refreshed(s, states).state.agents;
    hide Refreshed, AllAgents, KnownPrefix, KnownSets;
    forall id | id in t ensures t[id].operator == s.agents[id].operator { AfterRefreshKeeps(s.agents[id], states); }
    hide AfterRefresh, KeyedAgents;
    KnownSame(s.agents, t, operators, ids);
  }

  lemma KnownCreated(t: Agents, v: ValidatorState, operators: set<string>, ids: set<string>)
    requires KnownSets(t, operators, ids) && Creatable(t, v)
    ensures KnownSets(t[NewId(v.operator) := NewAgent(v)], operators + {v.operator}, ids + {NewId(v.operator)})
  {
    var t' := t[NewId(v.operator) := NewAgent(v)];
    forall op ensures KnownOperator(t', op) <==> KnownOperator(t, op) || op == v.operator {
      if KnownOperator(t, op) {
        var id :| id in t && t[id].operator == op;
        assert id in t' && t'[id].operator == op;
      }
      assert t'[NewId(v.operator)].operator == v.operator;
    }
    hide KnownOperator;
  }

  /** The body of the first loop for one agent, and what it adds to the two counters. */
  method RefreshAgent(a: AgentInfo, found: Option<ValidatorState>) returns (next: AgentInfo, raised: nat, lowered: nat)
    ensures next == Refresh(a, found)
    ensures raised == if Electable(a, found) && (a.power != next.power || !a.active) then 1 else 0
    ensures lowered == if !Electable(a, found) && a.active then 1 else 0
  {
    next, raised, lowered := a, 0, 0;
    if found.Some? && next.signer == found.value.signer && |next.publicKey| == 0 {
      next := next.(publicKey := found.value.publicKey);
    }
    if found.None? || !found.value.active || found.value.power == 0 || |next.publicKey| == 0 {
      if next.active { lowered := 1; }
      next := next.(active := false, power := 0);
      return;
    }
    if next.power != found.value.power || !next.active { raised := 1; }
    next := next.(active := true, power := found.value.power);
  }

  method RefreshAgents(k: Keeper, states: seq<ValidatorState>) returns (updated: nat, deactivated: nat, operators: set<string>, ids: set<string>)
    requires KeyedAgents(k.store.agents)
    modifies k
    ensures Synced(k.store, updated, deactivated) == Refreshed(old(k.store), states)
    ensures KnownSets(k.store.agents, operators, ids)
  {
    hide AllAgents, KnownPrefix, KnownSets, Lookup, Refresh, Electable, Store.SetAgent;
    ghost var s0 := k.store;
    var byOperator := IndexByOperator(states);
    var agents := k.GetAllAgents();
    updated, deactivated, operators, ids := 0, 0, {}, {};
    assert KnownPrefix(agents[..0], operators, ids) by { NothingKnown(agents[..0]); }
    for i := 0 to |agents|
      invariant Synced(k.store, updated, deactivated) == RefreshAll(Synced(s0, 0, 0), agents[..i], states)
      invariant KnownPrefix(agents[..i], operators, ids)
    {
      var a := agents[i];
      assert agents[..i + 1][..i] == agents[..i];
      assert agents[..i + 1] == agents[..i] + [a];
      KnownMore(agents[..i], a, operators, ids);
      ids := ids + {a.agentId};
      if a.operator == "" { continue; }
      operators := operators + {a.operator};
      var next, raised, lowered := RefreshAgent(a, if a.operator in byOperator then Some(byOperator[a.operator]) else None);
      updated := updated + raised;
      deactivated := deactivated + lowered;
      k.SetAgent(next);
    }
    assert agents[..|agents|] == agents;
    KnownRefreshed(s0, states, operators, ids);
  }

  lemma NothingKnown(agents: seq<AgentInfo>)
    requires agents == []
    ensures KnownPrefix(agents, {}, {})
  {
  }

  /** The lookup sets stand for the scan of the table. */
  lemma CreatableBySets(t: Agents, v: ValidatorState, operators: set<string>, ids: set<string>)
    requires KnownSets(t, operators, ids)
    ensures Creatable(t, v) <==>
            v.operator != "" && v.signer != "" && v.active && v.power != 0 && |v.publicKey| != 0
            && v.operator !in operators && NewId(v.operator) !in ids
  {
    hide KnownOperator;
  }

  method SyncAgentRegistryWithValidatorSet(k: Keeper, states: seq<ValidatorState>) returns (updated: nat, deactivated: nat)
    requires KeyedAgents(k.store.agents)
    modifies k
    ensures Synced(k.store, updated, deactivated) == Sync(old(k.store), states)
  {
    hide KnownSets, Creatable, Refreshed;
    ghost var s0 := k.store;
    var operators: set<string>, ids: set<string>;
    updated, deactivated, operators, ids := RefreshAgents(k, states);
    for i := 0 to |states|
      invariant Synced(k.store, updated, deactivated) == CreateAll(Refreshed(s0, states), states[..i])
      invariant KnownSets(k.store.agents, operators, ids)
    {
      var v := states[i];
      assert states[..i + 1][..i] == states[..i];
      CreatableBySets(k.store.agents, v, operators, ids);
      if v.operator == "" || v.signer == "" { continue; }
      if !v.active || v.power == 0 || |v.publicKey| == 0 { continue; }
      if v.operator in operators { continue; }
      var agentId := "validator:" + v.operator;
      if agentId in ids { continue; }
      var metadata := v.metadata;
      if metadata == "" { metadata := "staking-sync"; }
      KnownCreated(k.store.agents, v, operators, ids);
      k.SetAgent(AgentInfo(agentId, v.operator, v.signer, v.publicKey, v.power, true, metadata));
      operators := operators + {v.operator};
      ids := ids + {agentId};
      updated := updated + 1;
    }
    assert states[..|states|] == states;
  }

  /** GetAgentByValidatorOperator: the full scan, which stops at the least id. */
  method GetAgentByValidatorOperator(k: Keeper, operator: string) returns (agent: Option<AgentInfo>)
    requires KeyedAgents(k.store.agents)
    ensures agent.Some? <==> KnownOperator(k.store.agents, operator)
    ensures agent.Some? ==> agent.value.operator == operator && agent.value.agentId in k.store.agents
                            && k.store.agents[agent.value.agentId] == agent.value
    ensures agent.Some? ==> forall id :: id in k.store.agents && k.store.agents[id].operator == operator ==>
      id == agent.value.agentId || Strings.Less(agent.value.agentId, id)
  {
    var all := k.GetAllAgents();
    assert forall j :: 0 <= j < |all| ==> all[j].agentId in k.store.agents && k.store.agents[all[j].agentId] == all[j] by {
      AllAgentsLoaded(k.store.agents);
    }
    ScanFinds(k.store.agents, operator);
    for i := 0 to |all|
      invariant forall j :: 0 <= j < i ==> all[j].operator != operator
    {
      if all[i].operator == operator {
        FirstIsLeast(k.store.agents, operator, i);
        return Some(all[i]);
      }
    }
    hide AllAgents, KnownOperator, KeyedAgents;
    return None;
  }

  lemma FirstIsLeast(t: Agents, operator: string, i: nat)
    requires KeyedAgents(t) && i < |AllAgents(t)|
    requires forall j :: 0 <= j < i ==> AllAgents(t)[j].operator != operator
    ensures forall id :: id in t && t[id].operator == operator ==>
      id == AllAgents(t)[i].agentId || Strings.Less(AllAgents(t)[i].agentId, id)
  {
    var ids := Strings.Sorted(t.Keys);
    assert forall j :: 0 <= j < |ids| ==> ids[j] in ids;
    hide Strings.Sorted, Strings.Less;
    forall id | id in t && t[id].operator == operator ensures id == ids[i] || Strings.Less(ids[i], id) {
      assert id in ids;
      var j :| 0 <= j < |ids| && ids[j] == id;
      assert AllAgents(t)[j] == t[id];
    }
  }
}
