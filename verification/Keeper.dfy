/**
 * x/sanction/keeper/store.go and keeper.go: the keeper over the store of the current context.
 * `store` is that store; dropping a cache context puts an earlier value back.
 */
module KeeperStore {
  import opened Basics
  import opened Types
  import opened Store
  import opened Handlers
  import RegistrySync
  import Strings

  class Keeper {
    const env: Env
    var store: State

    constructor (env: Env, store: State)
      ensures this.env == env && this.store == store
    {
      this.env := env;
      this.store := store;
    }

    function GetParams(): (p: Params)
      reads this
      ensures p == Store.GetParams(store)
    {
      if store.params.Some? then store.params.value else DefaultParams()
    }

    function GetAuthority(): (a: string)
      reads this
      ensures a == Authority(env, store)
    {
      if store.authority != "" then store.authority else env.configAuthority
    }

    method SetAgent(a: AgentInfo)
      modifies this
      ensures store == Store.SetAgent(old(store), a)
    {
      store := store.(agents := store.agents[a.agentId := a]);
      store := store.(signerIndex := store.signerIndex[a.signer := a.agentId]);
    }

    method SetRiskReport(r: RiskReport)
      modifies this
      ensures store == SetReport(old(store), r)
    {
      store := store.(reports := store.reports[r.reportId := r]);
      store := store.(reportsByTx := store.reportsByTx + {(r.txHash, r.reportId)});
      if r.recipient != "" {
        store := store.(reportsByAddress := store.reportsByAddress + {(r.recipient, r.reportId)});
      }
    }

    method SetSanctionCase(c: SanctionCase)
      modifies this
      ensures store == SetCase(old(store), c)
    {
      store := store.(cases := store.cases[c.caseId := c]);
      if |c.txHash| > 0 {
        store := store.(casesByTx := store.casesByTx + {(c.txHash, c.caseId)});
      }
      if c.target != "" {
        store := store.(casesByAddress := store.casesByAddress + {(c.target, c.caseId)});
      }
    }

    method GetAllAgents() returns (all: seq<AgentInfo>)
      ensures all == RegistrySync.AllAgents(store.agents)
    {
      all := IterateAgents(store.agents);
    }
  }

  /** A prefix iterator yields the agents in ascending order of their keys. */
  method IterateAgents(agents: map<string, AgentInfo>) returns (all: seq<AgentInfo>)
    ensures all == RegistrySync.AllAgents(agents)
  {
    hide Strings.Sorted, RegistrySync.AllAgents, Strings.IsLeast, AgentsAt;
    all := [];
    var rest := agents.Keys;
    ghost var ids: seq<string> := [];
    assert AgentsAt(agents, ids, all) by { NothingYet(agents); }
    while rest != {}
      invariant rest <= agents.Keys
      invariant ids + Strings.Sorted(rest) == Strings.Sorted(agents.Keys)
      invariant AgentsAt(agents, ids, all)
      decreases |rest|
    {
      var id := Strings.LeastKey(rest);
      Strings.SortedAppend(rest, ids, id);
      OneMore(agents, ids, all, id);
      all := all + [agents[id]];
      ids := ids + [id];
      rest := rest - {id};
    }
    assert Strings.Sorted({}) == [] by { NothingYet(agents); }
    SortedAgents(agents, ids, all);
  }

  lemma OneMore(t: map<string, AgentInfo>, ids: seq<string>, all: seq<AgentInfo>, id: string)
    requires AgentsAt(t, ids, all) && id in t
    ensures AgentsAt(t, ids + [id], all + [t[id]])
  {
  }

  ghost predicate AgentsAt(t: map<string, AgentInfo>, ids: seq<string>, all: seq<AgentInfo>)
  {
    |all| == |ids| && forall i :: 0 <= i < |ids| ==> ids[i] in t && all[i] == t[ids[i]]
  }

  lemma NothingYet(t: map<string, AgentInfo>)
    ensures Strings.Sorted({}) == [] && AgentsAt(t, [], [])
  {
  }

  lemma SortedAgents(t: map<string, AgentInfo>, ids: seq<string>, all: seq<AgentInfo>)
    requires ids == Strings.Sorted(t.Keys) && AgentsAt(t, ids, all)
    ensures all == RegistrySync.AllAgents(t)
  {
    hide Strings.Sorted;
  }
}
