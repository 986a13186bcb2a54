/** What one registry sync achieves, and what it may break. */
module Registry {
  import opened Basics
  import opened Types
  import opened Store
  import opened Frames
  import opened RegistrySync
  import Strings

  type Agents = map<string, AgentInfo>

  // ---- the first loop

  /** What a sync makes of one registered agent. */
  function AfterRefresh(a: AgentInfo, states: seq<ValidatorState>): AgentInfo
  {
    if a.operator == "" then a else Refresh(a, Lookup(states, a.operator))
  }

  /** The agents are loaded from the table, none twice. */
  ghost predicate Loaded(t: Agents, agents: seq<AgentInfo>)
  {
    && (forall i :: 0 <= i < |agents| ==> agents[i].agentId in t && t[agents[i].agentId] == agents[i])
    && (forall i, j :: 0 <= i < j < |agents| ==> agents[i].agentId != agents[j].agentId)
  }

  ghost predicate Named(agents: seq<AgentInfo>, id: string)
  {
    exists i :: 0 <= i < |agents| && agents[i].agentId == id
  }

  lemma RefreshStepTable(acc: Synced, a: AgentInfo, states: seq<ValidatorState>)
    requires a.agentId in acc.state.agents && acc.state.agents[a.agentId] == a
    ensures RefreshStep(acc, a, states).state.agents == acc.state.agents[a.agentId := AfterRefresh(a, states)]
  {
    hide Electable, KeyAfter, Lookup;
    assert a.operator == "" ==> acc.state.agents[a.agentId := a] == acc.state.agents;
  }

  lemma {:induction false} RefreshAllTable(acc: Synced, agents: seq<AgentInfo>, states: seq<ValidatorState>)
    requires Loaded(acc.state.agents, agents)
    ensures var t := RefreshAll(acc, agents, states).state.agents;
      && t.Keys == acc.state.agents.Keys
      && forall id :: id in t ==>
           t[id] == if Named(agents, id) then AfterRefresh(acc.state.agents[id], states) else acc.state.agents[id]
  {
    hide RefreshStep, AfterRefresh;
    if agents != [] {
      var init, a := agents[..|agents| - 1], agents[|agents| - 1];
      RefreshAllTable(acc, init, states);
      assert forall id :: Named(agents, id) <==> Named(init, id) || id == a.agentId by {
        forall id | Named(agents, id) ensures Named(init, id) || id == a.agentId {
          var i :| 0 <= i < |agents| && agents[i].agentId == id;
          assert i < |init| ==> init[i].agentId == id;
        }
      }
      RefreshStepTable(RefreshAll(acc, init, states), a, states);
    }
  }

  lemma AllAgentsLoaded(t: Agents)
    requires KeyedAgents(t)
    ensures Loaded(t, AllAgents(t)) && forall id :: Named(AllAgents(t), id) <==> id in t
  {
    var ids := Strings.Sorted(t.Keys);
    assert forall i :: 0 <= i < |ids| ==> ids[i] in ids;
    var r := AllAgents(t);
    forall i, j | 0 <= i < j < |r| ensures r[i].agentId != r[j].agentId {
      Strings.LessAsymmetric(ids[i], ids[j]);
    }
    forall id | id in t ensures Named(r, id) {
      assert id in ids;
      var i :| 0 <= i < |ids| && ids[i] == id;
      assert r[i].agentId == id;
    }
  }

  /** The first loop gives every agent the outcome computed from it alone. */
  lemma RefreshedTable(s: State, states: seq<ValidatorState>)
    requires KeyedAgents(s.agents)
    ensures var t := Refreshed(s, states).state.agents;
      t.Keys == s.agents.Keys && forall id :: id in t ==> t[id] == AfterRefresh(s.agents[id], states)
  {
    AllAgentsLoaded(s.agents);
    RefreshAllTable(Synced(s, 0, 0), AllAgents(s.agents), states);
    hide RefreshAll, AfterRefresh, AllAgents;
  }

  // ---- the second loop

  /** The k-th state adds an agent: it qualifies, and no earlier state of its operator does. */
  ghost predicate Creates(t: Agents, states: seq<ValidatorState>, k: int)
  {
    && 0 <= k < |states| && Creatable(t, states[k])
    && forall j :: 0 <= j < k && states[j].operator == states[k].operator ==> !Creatable(t, states[j])
  }

  /** The table with the new agents: exactly one for each operator that qualifies. */
  ghost predicate Extended(t: Agents, states: seq<ValidatorState>, t': Agents)
  {
    && (forall id :: id in t ==> id in t' && t'[id] == t[id])
    && (forall k :: Creates(t, states, k) ==>
          NewId(states[k].operator) in t' && t'[NewId(states[k].operator)] == NewAgent(states[k]))
    && (forall id :: id in t' && id !in t ==> exists k :: Creates(t, states, k) && id == NewId(states[k].operator))
  }

  lemma NewIdInjective(a: string, b: string)
    ensures NewId(a) == NewId(b) <==> a == b
  {
    assert NewId(a)[10..] == a && NewId(b)[10..] == b;
  }

  lemma CreatesPrefix(t: Agents, states: seq<ValidatorState>)
    requires states != []
    ensures forall k :: Creates(t, states[..|states| - 1], k) <==> k < |states| - 1 && Creates(t, states, k)
  {
    hide Creatable;
    var init := states[..|states| - 1];
    forall k: int ensures Creates(t, init, k) <==> k < |states| - 1 && Creates(t, states, k) {
      assert forall j :: 0 <= j < |init| ==> init[j] == states[j];
    }
  }

  /** What is known after some states were processed, in terms of the table before. */
  lemma CreatableLater(t: Agents, init: seq<ValidatorState>, t': Agents, v: ValidatorState)
    requires Extended(t, init, t')
    ensures Creatable(t', v) <==> Creates(t, init + [v], |init|)
  {
    var all := init + [v];
    assert forall j :: 0 <= j < |init| ==> all[j] == init[j];
    if Creatable(t', v) {
      forall id | id in t ensures t[id].operator != v.operator { assert t'[id] == t[id]; }
      forall j | 0 <= j < |init| && init[j].operator == v.operator ensures !Creatable(t, init[j]) {
        if Creatable(t, init[j]) {
          var k := FirstOf(t, init, j);
        }
      }
    }
    if Creates(t, all, |init|) {
      forall id | id in t' ensures t'[id].operator != v.operator && id != NewId(v.operator) {
        if id in t {
          assert t'[id] == t[id];
        } else {
          var k :| Creates(t, init, k) && id == NewId(init[k].operator);
          assert t'[id] == NewAgent(init[k]);
          assert all[k] == init[k];
          NewIdInjective(init[k].operator, v.operator);
        }
      }
    }
  }

  lemma {:induction false} FirstOf(t: Agents, states: seq<ValidatorState>, j: nat) returns (k: nat)
    requires j < |states| && Creatable(t, states[j])
    ensures Creates(t, states, k) && states[k].operator == states[j].operator
  {
    hide Creatable;
    k := j;
    while !Creates(t, states, k)
      invariant k < |states| && Creatable(t, states[k]) && states[k].operator == states[j].operator
      decreases k
    {
      var i :| 0 <= i < k && states[i].operator == states[k].operator && Creatable(t, states[i]);
      k := i;
    }
  }

  lemma ExtendedStep(t: Agents, states: seq<ValidatorState>, t': Agents)
    requires states != [] && Extended(t, states[..|states| - 1], t')
    ensures var v := states[|states| - 1];
      Extended(t, states, if Creatable(t', v) then t'[NewId(v.operator) := NewAgent(v)] else t')
  {
    var init, v := states[..|states| - 1], states[|states| - 1];
    CreatesPrefix(t, states);
    CreatableLater(t, init, t', v);
    assert states == init + [v];
    var r := if Creatable(t', v) then t'[NewId(v.operator) := NewAgent(v)] else t';
    hide Creates;
    forall k | Creates(t, states, k) ensures NewId(states[k].operator) in r && r[NewId(states[k].operator)] == NewAgent(states[k]) {
      if k < |init| {
        assert states[k] == init[k];
        assert Creates(t, init, k);
      } else {
        LastCreates(t, states, k);
      }
    }
    forall id | id in r && id !in t ensures exists k :: Creates(t, states, k) && id == NewId(states[k].operator) {
      if id in t' {
        var k :| Creates(t, init, k) && id == NewId(init[k].operator);
        LastCreates(t, init, k);
        assert Creates(t, states, k) && states[k] == init[k];
      }
    }
  }

  lemma LastCreates(t: Agents, states: seq<ValidatorState>, k: int)
    requires Creates(t, states, k)
    ensures 0 <= k < |states| && Creatable(t, states[k])
  {
  }

  lemma {:induction false} CreateAllTable(acc: Synced, states: seq<ValidatorState>)
    ensures Extended(acc.state.agents, states, CreateAll(acc, states).state.agents)
  {
    if states != [] {
      CreateAllTable(acc, states[..|states| - 1]);
      ExtendedStep(acc.state.agents, states, CreateAll(acc, states[..|states| - 1]).state.agents);
      hide Extended, Creatable;
    }
  }

  // ---- the whole sync

  /** A sync reads only operators, ids and signers of the table to decide what to create. */
  lemma CreatesAfterRefresh(s: State, states: seq<ValidatorState>)
    requires KeyedAgents(s.agents)
    ensures forall k :: Creates(Refreshed(s, states).state.agents, states, k) <==> Creates(s.agents, states, k)
  {
    RefreshedTable(s, states);
    var t := Refreshed(s, states).state.agents;
    hide Refreshed;
    forall v ensures Creatable(t, v) <==> Creatable(s.agents, v) {
      assert forall id :: id in t ==> t[id].operator == s.agents[id].operator;
      SameOperators(s.agents, t, v.operator);
      hide KnownOperator, AfterRefresh;
    }
    hide Creatable;
  }

  lemma SameOperators(t: Agents, t': Agents, operator: string)
    requires t'.Keys == t.Keys && forall id :: id in t ==> t'[id].operator == t[id].operator
    ensures KnownOperator(t, operator) <==> KnownOperator(t', operator)
  {
    forall id | id in t ensures id in t' && t'[id].operator == t[id].operator {}
  }

  /** The registry a sync leaves, agent by agent: refreshed, created, and nothing else. */
  ghost predicate SyncedTable(t: Agents, states: seq<ValidatorState>, t': Agents)
  {
    && (forall id :: id in t ==> id in t' && t'[id] == AfterRefresh(t[id], states))
    && (forall k :: Creates(t, states, k) ==>
          NewId(states[k].operator) in t' && t'[NewId(states[k].operator)] == NewAgent(states[k]))
    && (forall id :: id in t' && id !in t ==> exists k :: Creates(t, states, k) && id == NewId(states[k].operator))
  }

  lemma SyncTable(s: State, states: seq<ValidatorState>)
    requires KeyedAgents(s.agents)
    ensures SyncedTable(s.agents, states, Sync(s, states).state.agents)
  {
    hide Creates, AfterRefresh, CreateAll, Refreshed;
    RefreshedTable(s, states);
    CreatesAfterRefresh(s, states);
    CreateAllTable(Refreshed(s, states), states);
  }

  /** Identity, operator, signer and metadata survive a sync; an agent without an operator is untouched. */
  lemma SyncKeepsIdentity(s: State, states: seq<ValidatorState>, id: string)
    requires KeyedAgents(s.agents) && id in s.agents
    ensures id in Sync(s, states).state.agents
    ensures var a, b := s.agents[id], Sync(s, states).state.agents[id];
      && b.agentId == a.agentId && b.operator == a.operator && b.signer == a.signer && b.metadata == a.metadata
      && (a.publicKey != [] ==> b.publicKey == a.publicKey)
      && (a.operator == "" ==> b == a)
  {
    SyncTable(s, states);
    hide Sync;
  }

  /** A created agent has the data of the state that created it, under an id made from its operator. */
  lemma CreatedAgents(s: State, states: seq<ValidatorState>, k: int)
    requires KeyedAgents(s.agents) && Creates(s.agents, states, k)
    ensures var v := states[k]; var id := "validator:" + v.operator; var t := Sync(s, states).state.agents;
      && id !in s.agents && id in t
      && t[id].agentId == id && t[id].operator == v.operator && t[id].signer == v.signer && t[id].publicKey == v.publicKey
      && t[id].power == v.power && t[id].active && t[id].metadata == (if v.metadata == "" then "staking-sync" else v.metadata)
  {
    SyncTable(s, states);
    hide Sync, AfterRefresh;
    LastCreates(s.agents, states, k);
    CreatableNew(s.agents, states[k]);
  }

  // ---- agreement with the staking set

  /** The agent votes with its validator's power exactly when that validator is active, powered and keyed. */
  predicate Mirrors(a: AgentInfo, states: seq<ValidatorState>)
  {
    var found := Lookup(states, a.operator);
    && (a.active <==> found.Some? && found.value.active && found.value.power != 0 && a.publicKey != [])
    && a.power == (if a.active then found.value.power else 0)
    && (found.Some? && found.value.publicKey != [] && found.value.signer == a.signer ==> a.publicKey != [])
  }

  ghost predicate AllMirror(t: Agents, states: seq<ValidatorState>)
  {
    forall id :: id in t && t[id].operator != "" ==> Mirrors(t[id], states)
  }

  /** A created agent keeps the data of the state that created it, which need not be the operator's last. */
  ghost predicate CreatedFromLast(t: Agents, states: seq<ValidatorState>)
  {
    forall k :: Creates(t, states, k) ==>
      var last := Lookup(states, states[k].operator);
      last.Some? && last.value.active && last.value.power == states[k].power
  }

  lemma RefreshMirrors(a: AgentInfo, states: seq<ValidatorState>)
    requires a.operator != ""
    ensures Mirrors(AfterRefresh(a, states), states)
    ensures Mirrors(a, states) && (a.publicKey != [] || !a.active) ==> AfterRefresh(a, states).active == a.active && AfterRefresh(a, states).power == a.power
  {
  }

  lemma NewMirrors(v: ValidatorState, states: seq<ValidatorState>)
    requires v.operator != "" && v.power != 0 && v.publicKey != []
    ensures Mirrors(NewAgent(v), states) <==>
            var last := Lookup(states, v.operator); last.Some? && last.value.active && last.value.power == v.power
  {
  }

  /** When the registry agrees with the staking set after a sync: exactly when no creation used stale data. */
  lemma SyncMirrors(s: State, states: seq<ValidatorState>)
    requires KeyedAgents(s.agents)
    ensures AllMirror(Sync(s, states).state.agents, states) <==> CreatedFromLast(s.agents, states)
  {
    SyncTable(s, states);
    var t := Sync(s, states).state.agents;
    hide Sync, Mirrors, Lookup, AfterRefresh;
    forall id | id in s.agents && s.agents[id].operator != "" ensures Mirrors(t[id], states) {
      RefreshMirrors(s.agents[id], states);
    }
    forall k | Creates(s.agents, states, k)
      ensures Mirrors(t[NewId(states[k].operator)], states) <==>
        var last := Lookup(states, states[k].operator); last.Some? && last.value.active && last.value.power == states[k].power
    {
      NewMirrors(states[k], states);
    }
    forall id | id in t && t[id].operator != "" ensures id in s.agents ==> s.agents[id].operator != "" {
      if id in s.agents { OperatorKept(s.agents, states, t, id); }
    }
    if AllMirror(t, states) {
      forall k | Creates(s.agents, states, k)
        ensures var last := Lookup(states, states[k].operator); last.Some? && last.value.active && last.value.power == states[k].power
      {
        assert t[NewId(states[k].operator)].operator != "";
      }
    }
  }

  lemma OperatorKept(t: Agents, states: seq<ValidatorState>, t': Agents, id: string)
    requires SyncedTable(t, states, t') && id in t
    ensures t'[id].operator == t[id].operator
  {
  }

  ghost predicate DistinctOperators(states: seq<ValidatorState>)
  {
    forall i, j :: 0 <= i < j < |states| ==> states[i].operator != states[j].operator
  }

  lemma {:induction false} LookupDistinct(states: seq<ValidatorState>, k: nat)
    requires k < |states| && DistinctOperators(states) && states[k].operator != ""
    ensures Lookup(states, states[k].operator) == Some(states[k])
  {
    if k < |states| - 1 { LookupDistinct(states[..|states| - 1], k); }
  }

  /** A staking set lists each operator once, and then the registry always agrees with it. */
  lemma DistinctSyncMirrors(s: State, states: seq<ValidatorState>)
    requires KeyedAgents(s.agents) && DistinctOperators(states)
    ensures AllMirror(Sync(s, states).state.agents, states)
  {
    SyncMirrors(s, states);
    hide Sync, Lookup, AllMirror;
    forall k | Creates(s.agents, states, k)
      ensures var last := Lookup(states, states[k].operator); last.Some? && last.value.active && last.value.power == states[k].power
    {
      LookupDistinct(states, k);
    }
  }

  // ---- the counters

  /** Active now, and absent, inactive or of another power before. */
  ghost predicate IsRaised(t: Agents, id: string, b: AgentInfo)
  {
    b.active && (id !in t || !t[id].active || t[id].power != b.power)
  }

  ghost predicate IsLowered(t: Agents, id: string, b: AgentInfo)
  {
    id in t && t[id].active && !b.active
  }

  ghost function Raised(t: Agents, t': Agents): set<string>
  {
    set id | id in t' && IsRaised(t, id, t'[id])
  }

  ghost function Lowered(t: Agents, t': Agents): set<string>
  {
    set id | id in t' && IsLowered(t, id, t'[id])
  }

  ghost predicate Counted(t: Agents, r: Synced)
  {
    r.updated == |Raised(t, r.state.agents)| && r.deactivated == |Lowered(t, r.state.agents)|
  }

  /** One more agent differs from the table before. */
  lemma RaisedOne(t: Agents, t1: Agents, id: string, b: AgentInfo)
    requires id in t1 ==> !IsRaised(t, id, t1[id])
    ensures |Raised(t, t1[id := b])| == |Raised(t, t1)| + if IsRaised(t, id, b) then 1 else 0
  {
    hide IsRaised;
    assert Raised(t, t1[id := b]) == Raised(t, t1) + if IsRaised(t, id, b) then {id} else {};
  }

  lemma LoweredOne(t: Agents, t1: Agents, id: string, b: AgentInfo)
    requires id in t1 ==> !IsLowered(t, id, t1[id])
    ensures |Lowered(t, t1[id := b])| == |Lowered(t, t1)| + if IsLowered(t, id, b) then 1 else 0
  {
    hide IsLowered;
    assert Lowered(t, t1[id := b]) == Lowered(t, t1) + if IsLowered(t, id, b) then {id} else {};
  }

  lemma RefreshStepCounts(t: Agents, acc: Synced, a: AgentInfo, states: seq<ValidatorState>)
    requires Counted(t, acc) && a.agentId in t && t[a.agentId] == a
    requires a.agentId in acc.state.agents && acc.state.agents[a.agentId] == a
    ensures Counted(t, RefreshStep(acc, a, states))
  {
    hide Lookup, KeyAfter, Raised, Lowered;
    RefreshStepTable(acc, a, states);
    RaisedOne(t, acc.state.agents, a.agentId, AfterRefresh(a, states));
    LoweredOne(t, acc.state.agents, a.agentId, AfterRefresh(a, states));
    hide SetAgent;
  }

  lemma {:induction false} RefreshAllCounts(acc: Synced, agents: seq<AgentInfo>, states: seq<ValidatorState>)
    requires acc.updated == acc.deactivated == 0 && Loaded(acc.state.agents, agents)
    ensures Counted(acc.state.agents, RefreshAll(acc, agents, states))
  {
    hide RefreshStep;
    if agents != [] {
      var init, a := agents[..|agents| - 1], agents[|agents| - 1];
      RefreshAllCounts(acc, init, states);
      RefreshAllTable(acc, init, states);
      assert !Named(init, a.agentId);
      RefreshStepCounts(acc.state.agents, RefreshAll(acc, init, states), a, states);
    } else {
      assert Raised(acc.state.agents, acc.state.agents) == {} && Lowered(acc.state.agents, acc.state.agents) == {};
    }
  }

  lemma {:induction false} CreateAllCounts(t: Agents, acc: Synced, states: seq<ValidatorState>)
    requires Counted(t, acc) && forall id :: id in t ==> id in acc.state.agents
    ensures Counted(t, CreateAll(acc, states))
    ensures forall id :: id in t ==> id in CreateAll(acc, states).state.agents
  {
    if states != [] {
      var init, v := states[..|states| - 1], states[|states| - 1];
      CreateAllCounts(t, acc, init);
      var r := CreateAll(acc, init);
      var t1 := r.state.agents;
      hide Raised, Lowered, Creatable;
      if Creatable(t1, v) {
        assert NewId(v.operator) !in t1 by { CreatableNew(t1, v); }
        RaisedOne(t, t1, NewId(v.operator), NewAgent(v));
        LoweredOne(t, t1, NewId(v.operator), NewAgent(v));
      }
    }
  }

  lemma CreatableNew(t: Agents, v: ValidatorState)
    requires Creatable(t, v)
    ensures NewId(v.operator) !in t
  {
  }

  /** The two numbers a sync reports count the agents it raised and lowered. */
  lemma SyncCounts(s: State, states: seq<ValidatorState>)
    requires KeyedAgents(s.agents)
    ensures var r := Sync(s, states);
      r.updated == |Raised(s.agents, r.state.agents)| && r.deactivated == |Lowered(s.agents, r.state.agents)|
  {
    AllAgentsLoaded(s.agents);
    RefreshAllCounts(Synced(s, 0, 0), AllAgents(s.agents), states);
    RefreshedTable(s, states);
    CreateAllCounts(s.agents, Refreshed(s, states), states);
    hide CreateAll, RefreshAll, AllAgents;
  }

  // ---- signers and their index

  ghost predicate DistinctSigners(t: Agents)
  {
    forall a, b :: a in t && b in t && a != b ==> t[a].signer != t[b].signer
  }

  /** The index holds the signer of every agent and nothing else; in particular no two agents share one. */
  ghost predicate IndexExact(t: Agents, index: map<string, string>)
  {
    && (forall x :: x in index ==> index[x] in t && t[index[x]].signer == x)
    && (forall id :: id in t ==> t[id].signer in index && index[t[id].signer] == id)
  }

  ghost predicate AgentsOk(s: State)
  {
    KeyedAgents(s.agents) && (forall id :: id in s.agents ==> AgentValid(s.agents[id])) && IndexExact(s.agents, s.signerIndex)
  }

  /** What staking must guarantee: a created agent brings a signer that nobody else in the registry has. */
  ghost predicate SyncFresh(t: Agents, states: seq<ValidatorState>)
  {
    && (forall k, id :: Creates(t, states, k) && id in t ==> t[id].signer != states[k].signer)
    && (forall j, k :: Creates(t, states, j) && Creates(t, states, k) && j != k ==> states[j].signer != states[k].signer)
  }

  lemma AfterRefreshKeeps(a: AgentInfo, states: seq<ValidatorState>)
    ensures var b := AfterRefresh(a, states);
      b.agentId == a.agentId && b.signer == a.signer && b.operator == a.operator && (AgentValid(a) ==> AgentValid(b))
    ensures AfterRefresh(AfterRefresh(a, states), states) == AfterRefresh(a, states)
  {
    hide Lookup;
  }

  lemma RefreshStepIndex(acc: Synced, a: AgentInfo, states: seq<ValidatorState>)
    requires a.signer in acc.state.signerIndex && acc.state.signerIndex[a.signer] == a.agentId
    ensures RefreshStep(acc, a, states).state.signerIndex == acc.state.signerIndex
  {
    hide Lookup, KeyAfter, Electable;
  }

  lemma {:induction false} RefreshAllIndex(acc: Synced, agents: seq<AgentInfo>, states: seq<ValidatorState>)
    requires forall i :: 0 <= i < |agents| ==>
      agents[i].signer in acc.state.signerIndex && acc.state.signerIndex[agents[i].signer] == agents[i].agentId
    ensures RefreshAll(acc, agents, states).state.signerIndex == acc.state.signerIndex
  {
    hide RefreshStep;
    if agents != [] {
      RefreshAllIndex(acc, agents[..|agents| - 1], states);
      RefreshStepIndex(RefreshAll(acc, agents[..|agents| - 1], states), agents[|agents| - 1], states);
    }
  }

  lemma IndexSameSigners(t: Agents, t': Agents, index: map<string, string>)
    requires IndexExact(t, index) && t'.Keys == t.Keys && forall id :: id in t ==> t'[id].signer == t[id].signer
    ensures IndexExact(t', index)
  {
    assert forall id :: id in t <==> id in t';
  }

  lemma AllAgentsIndexed(t: Agents, index: map<string, string>)
    requires KeyedAgents(t) && IndexExact(t, index)
    ensures var agents := AllAgents(t); forall i :: 0 <= i < |agents| ==>
      agents[i].signer in index && index[agents[i].signer] == agents[i].agentId
  {
    AllAgentsLoaded(t);
    hide AllAgents;
  }

  lemma RefreshedIndex(s: State, states: seq<ValidatorState>)
    requires KeyedAgents(s.agents) && IndexExact(s.agents, s.signerIndex)
    ensures Refreshed(s, states).state.signerIndex == s.signerIndex
    ensures IndexExact(Refreshed(s, states).state.agents, s.signerIndex)
  {
    AllAgentsIndexed(s.agents, s.signerIndex);
    RefreshAllIndex(Synced(s, 0, 0), AllAgents(s.agents), states);
    RefreshedTable(s, states);
    hide RefreshAll, AllAgents, IndexExact, KeyedAgents;
    var t := Refreshed(s, states).state.agents;
    forall id | id in t ensures t[id].signer == s.agents[id].signer {
      AfterRefreshKeeps(s.agents[id], states);
    }
    hide AfterRefresh, Refreshed;
    IndexSameSigners(s.agents, t, s.signerIndex);
  }

  lemma IndexStep(t: Agents, index: map<string, string>, a: AgentInfo)
    requires IndexExact(t, index) && a.agentId !in t && forall id :: id in t ==> t[id].signer != a.signer
    ensures IndexExact(t[a.agentId := a], index[a.signer := a.agentId])
  {
  }

  lemma FreshPrefix(t: Agents, states: seq<ValidatorState>)
    requires states != [] && SyncFresh(t, states)
    ensures SyncFresh(t, states[..|states| - 1])
  {
    CreatesPrefix(t, states);
    hide Creates;
    var init := states[..|states| - 1];
    forall k | Creates(t, init, k) ensures 0 <= k < |init| && states[k] == init[k] && Creates(t, states, k) {
      LastCreates(t, init, k);
    }
  }

  lemma {:induction false} CreateAllIndex(acc: Synced, states: seq<ValidatorState>)
    requires IndexExact(acc.state.agents, acc.state.signerIndex) && SyncFresh(acc.state.agents, states)
    ensures var s' := CreateAll(acc, states).state; IndexExact(s'.agents, s'.signerIndex)
  {
    if states != [] {
      var init, v := states[..|states| - 1], states[|states| - 1];
      FreshPrefix(acc.state.agents, states);
      CreateAllIndex(acc, init);
      CreateAllTable(acc, init);
      var t, s1 := acc.state.agents, CreateAll(acc, init).state;
      CreatesPrefix(t, states);
      hide CreateAll, IndexExact, Creates, Creatable;
      assert states == init + [v];
      CreatableLater(t, init, s1.agents, v);
      if Creatable(s1.agents, v) {
        forall id | id in s1.agents ensures s1.agents[id].signer != v.signer {
          if id !in t {
            var k :| Creates(t, init, k) && id == NewId(init[k].operator);
            LastCreates(t, init, k);
            assert states[k] == init[k] && Creates(t, states, k) && Creates(t, states, |init|);
          } else {
            assert Creates(t, states, |init|) && s1.agents[id] == t[id];
          }
        }
        CreatableNew(s1.agents, v);
        IndexStep(s1.agents, s1.signerIndex, NewAgent(v));
      }
      hide Extended, SyncFresh;
      CreateAllLast(acc, states);
    }
  }

  lemma CreateAllLast(acc: Synced, states: seq<ValidatorState>)
    requires states != []
    ensures var r := CreateAll(acc, states[..|states| - 1]); var v := states[|states| - 1];
      CreateAll(acc, states).state == if Creatable(r.state.agents, v) then SetAgent(r.state, NewAgent(v)) else r.state
  {
  }

  lemma FreshAfterRefresh(s: State, states: seq<ValidatorState>)
    requires KeyedAgents(s.agents)
    ensures SyncFresh(Refreshed(s, states).state.agents, states) <==> SyncFresh(s.agents, states)
  {
    CreatesAfterRefresh(s, states);
    RefreshedTable(s, states);
    var t := Refreshed(s, states).state.agents;
    hide Refreshed, Creates;
    forall id | id in t ensures t[id].signer == s.agents[id].signer {
      AfterRefreshKeeps(s.agents[id], states);
    }
    hide AfterRefresh;
  }

  /** Sync itself never compares signers: it keeps them distinct and indexed exactly when staking supplies fresh ones. */
  lemma SyncKeepsSigners(s: State, states: seq<ValidatorState>)
    requires AgentsOk(s)
    ensures AgentsOk(Sync(s, states).state) <==> SyncFresh(s.agents, states)
    ensures DistinctSigners(Sync(s, states).state.agents) <==> SyncFresh(s.agents, states)
  {
    var s' := Sync(s, states).state;
    SyncTable(s, states);
    SyncedAgentsValid(s, states, s');
    hide IndexExact, Creates;
    if SyncFresh(s.agents, states) {
      RefreshedIndex(s, states);
      FreshAfterRefresh(s, states);
      hide Refreshed, CreateAll, SyncFresh;
      CreateAllIndex(Refreshed(s, states), states);
      ExactDistinct(s'.agents, s'.signerIndex);
    } else {
      hide Sync;
      SharedSigner(s.agents, states, s'.agents);
      if AgentsOk(s') { ExactDistinct(s'.agents, s'.signerIndex); }
    }
  }

  lemma ExactDistinct(t: Agents, index: map<string, string>)
    requires IndexExact(t, index)
    ensures DistinctSigners(t)
  {
  }

  lemma SyncedAgentsValid(s: State, states: seq<ValidatorState>, s': State)
    requires AgentsOk(s) && s' == Sync(s, states).state
    ensures KeyedAgents(s'.agents) && forall id :: id in s'.agents ==> AgentValid(s'.agents[id])
  {
    SyncTable(s, states);
    hide Sync;
    forall id | id in s'.agents ensures s'.agents[id].agentId == id && AgentValid(s'.agents[id]) {
      if id in s.agents {
        AfterRefreshKeeps(s.agents[id], states);
      } else {
        var k :| Creates(s.agents, states, k) && id == NewId(states[k].operator);
        LastCreates(s.agents, states, k);
      }
    }
  }

  lemma SharedSigner(t: Agents, states: seq<ValidatorState>, t': Agents)
    requires SyncedTable(t, states, t') && !SyncFresh(t, states)
    ensures !DistinctSigners(t')
  {
    hide AfterRefresh;
    if j, k :| Creates(t, states, j) && Creates(t, states, k) && j != k && states[j].signer == states[k].signer {
      NewIdInjective(states[j].operator, states[k].operator);
      assert t'[NewId(states[j].operator)].signer == t'[NewId(states[k].operator)].signer;
    } else {
      var k, id :| Creates(t, states, k) && id in t && t[id].signer == states[k].signer;
      AfterRefreshKeeps(t[id], states);
      LastCreates(t, states, k);
      assert t'[NewId(states[k].operator)].signer == t'[id].signer;
    }
  }

  // ---- a second sync

  lemma {:induction false} RefreshAllFixed(acc: Synced, agents: seq<AgentInfo>, states: seq<ValidatorState>)
    requires Loaded(acc.state.agents, agents)
    requires forall i :: 0 <= i < |agents| ==>
      && agents[i].signer in acc.state.signerIndex && acc.state.signerIndex[agents[i].signer] == agents[i].agentId
      && AfterRefresh(agents[i], states) == agents[i]
    ensures RefreshAll(acc, agents, states) == acc
  {
    hide RefreshStep, AfterRefresh;
    if agents != [] {
      RefreshAllFixed(acc, agents[..|agents| - 1], states);
      RefreshStepFixed(acc, agents[|agents| - 1], states);
    }
  }

  lemma RefreshStepFixed(acc: Synced, a: AgentInfo, states: seq<ValidatorState>)
    requires a.agentId in acc.state.agents && acc.state.agents[a.agentId] == a
    requires a.signer in acc.state.signerIndex && acc.state.signerIndex[a.signer] == a.agentId
    requires AfterRefresh(a, states) == a
    ensures RefreshStep(acc, a, states) == acc
  {
    hide Lookup, KeyAfter;
    SetAgentAgain(acc.state, a);
    hide SetAgent;
  }

  lemma SetAgentAgain(s: State, a: AgentInfo)
    requires a.agentId in s.agents && s.agents[a.agentId] == a
    requires a.signer in s.signerIndex && s.signerIndex[a.signer] == a.agentId
    ensures SetAgent(s, a) == s
  {
    assert s.agents[a.agentId := a] == s.agents && s.signerIndex[a.signer := a.agentId] == s.signerIndex;
  }

  lemma {:induction false} CreateAllNone(acc: Synced, states: seq<ValidatorState>)
    requires forall i :: 0 <= i < |states| ==> !Creatable(acc.state.agents, states[i])
    ensures CreateAll(acc, states) == acc
  {
    hide Creatable;
    if states != [] { CreateAllNone(acc, states[..|states| - 1]); }
  }

  /** After a sync, the same states create nobody. */
  lemma NobodyLeft(t: Agents, states: seq<ValidatorState>, t': Agents, i: int)
    requires SyncedTable(t, states, t') && 0 <= i < |states|
    ensures !Creatable(t', states[i])
  {
    hide AfterRefresh;
    if Creatable(t', states[i]) {
      forall id | id in t ensures t[id].operator != states[i].operator { AfterRefreshKeeps(t[id], states); assert id in t'; }
      var k := FirstOf(t, states, i);
      assert false;
    }
  }

  lemma StableAgents(t: Agents, states: seq<ValidatorState>, t': Agents)
    requires SyncedTable(t, states, t')
    ensures (forall id :: id in t' ==> AfterRefresh(t'[id], states) == t'[id]) <==> CreatedFromLast(t, states)
  {
    hide AfterRefresh;
    forall id | id in t ensures AfterRefresh(t'[id], states) == t'[id] { AfterRefreshKeeps(t[id], states); }
    forall k | Creates(t, states, k)
      ensures var last := Lookup(states, states[k].operator);
        AfterRefresh(NewAgent(states[k]), states) == NewAgent(states[k])
        <==> last.Some? && last.value.active && last.value.power == states[k].power
    {
      LastCreates(t, states, k);
      NewAgentStable(states[k], states);
    }
    hide Lookup;
  }

  lemma NewAgentStable(v: ValidatorState, states: seq<ValidatorState>)
    requires v.operator != "" && v.power != 0 && v.publicKey != []
    ensures AfterRefresh(NewAgent(v), states) == NewAgent(v) <==>
            var last := Lookup(states, v.operator); last.Some? && last.value.active && last.value.power == v.power
  {
    hide Lookup;
  }

  /** A sync of an unchanged staking set leaves every agent as it is and reports (0, 0). */
  ghost predicate Repeats(s1: State, states: seq<ValidatorState>)
  {
    var r := Sync(s1, states);
    r.state.agents == s1.agents && r.updated == 0 && r.deactivated == 0
  }

  /**
   * Repeating any sync leaves the agents as they are and reports (0, 0), exactly when no creation used stale
   * data. With fresh signers and an exact index the whole state stays, the index included.
   */
  lemma SyncTwice(s: State, states: seq<ValidatorState>)
    requires KeyedAgents(s.agents)
    ensures var s1 := Sync(s, states).state; Repeats(s1, states) <==> CreatedFromLast(s.agents, states)
    ensures var s1 := Sync(s, states).state;
      AgentsOk(s) && SyncFresh(s.agents, states) ==> (Sync(s1, states) == Synced(s1, 0, 0) <==> CreatedFromLast(s.agents, states))
  {
    var s1 := Sync(s, states).state;
    SyncTable(s, states);
    SyncedKeyed(s.agents, states, s1.agents);
    StableAgents(s.agents, states, s1.agents);
    SyncTable(s1, states);
    hide Sync, CreatedFromLast, SyncFresh, SyncedTable, AgentsOk;
    if CreatedFromLast(s.agents, states) {
      StableTable(s.agents, s1, states);
      if AgentsOk(s) && SyncFresh(s.agents, states) {
        SyncKeepsSigners(s, states);
        StableSync(s.agents, s1, states);
      }
    } else {
      UnstableTable(s.agents, s1, states);
    }
  }

  lemma SyncedKeyed(t: Agents, states: seq<ValidatorState>, t': Agents)
    requires KeyedAgents(t) && SyncedTable(t, states, t')
    ensures KeyedAgents(t')
  {
    forall id | id in t' ensures t'[id].agentId == id {
      if id in t {
        AfterRefreshKeeps(t[id], states);
      } else {
        var k :| Creates(t, states, k) && id == NewId(states[k].operator);
        LastCreates(t, states, k);
      }
    }
  }

  lemma UnstableTable(t: Agents, s1: State, states: seq<ValidatorState>)
    requires SyncedTable(s1.agents, states, Sync(s1, states).state.agents)
    requires exists id :: id in s1.agents && AfterRefresh(s1.agents[id], states) != s1.agents[id]
    ensures Sync(s1, states).state.agents != s1.agents
  {
    hide Sync, AfterRefresh;
    var id :| id in s1.agents && AfterRefresh(s1.agents[id], states) != s1.agents[id];
    assert Sync(s1, states).state.agents[id] == AfterRefresh(s1.agents[id], states);
  }

  lemma StableTable(t: Agents, s1: State, states: seq<ValidatorState>)
    requires KeyedAgents(s1.agents) && SyncedTable(t, states, s1.agents)
    requires SyncedTable(s1.agents, states, Sync(s1, states).state.agents)
    requires forall id :: id in s1.agents ==> AfterRefresh(s1.agents[id], states) == s1.agents[id]
    ensures Repeats(s1, states)
  {
    var t2 := Sync(s1, states).state.agents;
    SyncCounts(s1, states);
    hide Sync, AfterRefresh, Creates;
    forall id | id in t2 ensures id in s1.agents {
      if id !in s1.agents {
        var k :| Creates(s1.agents, states, k) && id == NewId(states[k].operator);
        LastCreates(s1.agents, states, k);
        NobodyLeft(t, states, s1.agents, k);
        assert false;
      }
    }
    assert t2 == s1.agents;
    NothingChanged(s1.agents);
    hide Raised, Lowered;
  }

  lemma NothingChanged(t: Agents)
    ensures Raised(t, t) == {} && Lowered(t, t) == {}
  {
  }

  lemma StableSync(t: Agents, s1: State, states: seq<ValidatorState>)
    requires SyncedTable(t, states, s1.agents) && AgentsOk(s1)
    requires forall id :: id in s1.agents ==> AfterRefresh(s1.agents[id], states) == s1.agents[id]
    ensures Sync(s1, states) == Synced(s1, 0, 0)
  {
    forall i | 0 <= i < |states| ensures !Creatable(s1.agents, states[i]) { NobodyLeft(t, states, s1.agents, i); }
    AllAgentsLoaded(s1.agents);
    hide SyncedTable, Creatable, AfterRefresh, AllAgents;
    RefreshAllFixed(Synced(s1, 0, 0), AllAgents(s1.agents), states);
    CreateAllNone(Synced(s1, 0, 0), states);
  }

  // ---- the two conditions are real

  const FIRST := ValidatorState("v", "k", [1], 5, true, "")
  const OWNER := AgentInfo("a", "", "k", [], 0, false, "")

  lemma FirstCreates(t: Agents, states: seq<ValidatorState>)
    requires states != [] && states[0] == FIRST && !KnownOperator(t, "v") && NewId("v") !in t
    ensures Creates(t, states, 0)
  {
  }

  lemma OneAgentOk(s: State)
    requires s.agents == map["a" := OWNER] && s.signerIndex == map["k" := "a"]
    ensures AgentsOk(s)
  {
  }

  /** A validator whose key an agent without an operator already uses gives the key a second owner. */
  lemma SyncMayShareSigner(s: State)
    requires s.agents == map["a" := OWNER] && s.signerIndex == map["k" := "a"]
    ensures AgentsOk(s) && !AgentsOk(Sync(s, [FIRST]).state)
  {
    OneAgentOk(s);
    hide AgentsOk, Sync;
    assert NewId("v") != "a";
    FirstCreates(s.agents, [FIRST]);
    hide Creates;
    assert s.agents["a"].signer == [FIRST][0].signer;
    SyncKeepsSigners(s, [FIRST]);
  }

  /** An operator listed twice is created from its first entry, although the second says it is inactive. */
  lemma SyncMayUseStaleData(s: State)
    requires s.agents == map[] && s.signerIndex == map[]
    ensures !AllMirror(Sync(s, [FIRST, FIRST.(active := false)]).state.agents, [FIRST, FIRST.(active := false)])
  {
    var states := [FIRST, FIRST.(active := false)];
    FirstCreates(s.agents, states);
    assert Lookup(states, "v") == Some(states[1]);
    hide Sync;
    SyncMirrors(s, states);
  }
}
