/** x/sanction/keeper/genesis.go: loading a genesis into the keeper's store, and exporting one from it. */
module GenesisKeeper {
  import opened Basics
  import opened Types
  import opened Store
  import opened Handlers
  import opened Frames
  import opened Genesis
  import opened GenesisRoundTrip
  import opened KeeperStore
  import Voting

  /** One of InitGenesis's loops: each entry that is not nil is stored under its key. */
  method StoreAll<K(==), V>(t: map<K, V>, key: V -> K, xs: seq<Option<V>>) returns (r: map<K, V>)
    ensures r == Collect(t, key, xs)
  {
    r := t;
    for i := 0 to |xs|
      invariant r == Collect(t, key, xs[..i])
    {
      assert xs[..i + 1][..i] == xs[..i];
      if xs[i].Some? { r := r[key(xs[i].value) := xs[i].value]; }
    }
    assert xs[..|xs|] == xs;
  }

  method InitAgents(k: Keeper, xs: seq<Option<AgentInfo>>)
    modifies k
    ensures k.store == old(k.store).(agents := Collect(old(k.store).agents, AgentKey, xs),
                                     signerIndex := CollectSigners(old(k.store).signerIndex, xs))
  {
    for i := 0 to |xs|
      invariant k.store == old(k.store).(agents := Collect(old(k.store).agents, AgentKey, xs[..i]),
                                         signerIndex := CollectSigners(old(k.store).signerIndex, xs[..i]))
    {
      assert xs[..i + 1][..i] == xs[..i];
      if xs[i].Some? { k.SetAgent(xs[i].value); }
    }
    assert xs[..|xs|] == xs;
  }

  /** The report setter, as far as its two indexes go. */
  lemma ReportIndexStep(xs: seq<Option<RiskReport>>, i: nat)
    requires i < |xs|
    ensures xs[i].None? ==> ReportTxs(xs[..i + 1]) == ReportTxs(xs[..i]) && ReportAddresses(xs[..i + 1]) == ReportAddresses(xs[..i])
    ensures xs[i].Some? ==>
      var r := xs[i].value;
      && ReportTxs(xs[..i + 1]) == ReportTxs(xs[..i]) + {(r.txHash, r.reportId)}
      && ReportAddresses(xs[..i + 1]) == ReportAddresses(xs[..i]) + (if r.recipient != "" then {(r.recipient, r.reportId)} else {})
  {
    assert xs[..i + 1] == xs[..i] + [xs[i]];
  }

  method InitReports(k: Keeper, xs: seq<Option<RiskReport>>)
    modifies k
    ensures k.store == old(k.store).(reports := Collect(old(k.store).reports, ReportKey, xs),
              reportsByTx := old(k.store).reportsByTx + ReportTxs(xs),
              reportsByAddress := old(k.store).reportsByAddress + ReportAddresses(xs))
  {
    for i := 0 to |xs|
      invariant k.store == old(k.store).(reports := Collect(old(k.store).reports, ReportKey, xs[..i]),
                  reportsByTx := old(k.store).reportsByTx + ReportTxs(xs[..i]),
                  reportsByAddress := old(k.store).reportsByAddress + ReportAddresses(xs[..i]))
    {
      assert xs[..i + 1][..i] == xs[..i];
      ReportIndexStep(xs, i);
      hide ReportTxs, ReportAddresses;
      if xs[i].Some? { k.SetRiskReport(xs[i].value); }
    }
    assert xs[..|xs|] == xs;
  }

  lemma CaseIndexStep(xs: seq<Option<SanctionCase>>, i: nat)
    requires i < |xs|
    ensures xs[i].None? ==> CaseTxs(xs[..i + 1]) == CaseTxs(xs[..i]) && CaseAddresses(xs[..i + 1]) == CaseAddresses(xs[..i])
    ensures xs[i].Some? ==>
      var c := xs[i].value;
      && CaseTxs(xs[..i + 1]) == IndexByTx(CaseTxs(xs[..i]), c)
      && CaseAddresses(xs[..i + 1]) == IndexByAddress(CaseAddresses(xs[..i]), c)
  {
    assert xs[..i + 1] == xs[..i] + [xs[i]];
  }

  method InitCases(k: Keeper, xs: seq<Option<SanctionCase>>)
    modifies k
    ensures k.store == old(k.store).(cases := Collect(old(k.store).cases, CaseKey, xs),
              casesByTx := old(k.store).casesByTx + CaseTxs(xs),
              casesByAddress := old(k.store).casesByAddress + CaseAddresses(xs))
  {
    for i := 0 to |xs|
      invariant k.store == old(k.store).(cases := Collect(old(k.store).cases, CaseKey, xs[..i]),
                  casesByTx := old(k.store).casesByTx + CaseTxs(xs[..i]),
                  casesByAddress := old(k.store).casesByAddress + CaseAddresses(xs[..i]))
    {
      assert xs[..i + 1][..i] == xs[..i];
      CaseIndexStep(xs, i);
      hide CaseTxs, CaseAddresses;
      if xs[i].Some? { k.SetSanctionCase(xs[i].value); }
    }
    assert xs[..|xs|] == xs;
  }

  method InitGenesis(k: Keeper, genesis: Option<GenesisState>)
    modifies k
    ensures k.store == Import(old(k.store), if genesis.Some? then genesis.value else DefaultGenesis())
  {
    hide Collect, CollectSigners, ReportTxs, ReportAddresses, CaseTxs, CaseAddresses;
    var g := if genesis.Some? then genesis.value else DefaultGenesis();
    ghost var s0 := k.store;
    if g.params.Some? { k.store := k.store.(params := g.params); }
    if g.authority != "" { k.store := k.store.(authority := g.authority); }
    var leases := StoreAll(k.store.leases, LeaseKey, g.leases);
    var receipts := StoreAll(k.store.receipts, ReceiptKey, g.receipts);
    var settlements := StoreAll(k.store.settlements, SettlementKey, g.settlements);
    var reviews := StoreAll(k.store.reviews, ReviewKey, g.reviews);
    k.store := k.store.(leases := leases, receipts := receipts, settlements := settlements, reviews := reviews);
    InitAgents(k, g.agents);
    InitReports(k, g.reports);
    InitCases(k, g.cases);
    var votes := StoreAll(k.store.votes, VoteKey, g.votes);
    var activeTxs := StoreAll(k.store.activeTxs, ActiveKey, g.activeTxs);
    var freezes := StoreAll(k.store.freezes, FreezeKey, g.freezes);
    var executions := StoreAll(k.store.executions, ExecutionKey, g.executions);
    k.store := k.store.(votes := votes, activeTxs := activeTxs, freezes := freezes, executions := executions);
  }

  /** An iterator over a table, in whatever order its keys have. */
  method ListAll<K(==), V>(t: map<K, V>, key: V -> K) returns (xs: seq<Option<V>>)
    requires KeyedBy(t, key)
    ensures Lists(t, key, xs)
  {
    xs := [];
    var rest := t.Keys;
    assert Iterated(t, key, rest, xs);
    while rest != {}
      invariant rest <= t.Keys && Iterated(t, key, rest, xs)
      decreases |rest|
    {
      var k :| k in rest;
      IterateOne(t, key, rest, xs, k);
      xs := xs + [Some(t[k])];
      rest := rest - {k};
    }
  }

  /** What has been listed when `rest` is still to come. */
  ghost predicate Iterated<K, V>(t: map<K, V>, key: V -> K, rest: set<K>, xs: seq<Option<V>>)
  {
    && NoNil(xs) && Distinct(xs, key) && AllStored(t, key, xs)
    && (forall i :: 0 <= i < |xs| && xs[i].Some? ==> key(xs[i].value) !in rest)
    && (forall k :: k in t && k !in rest ==> Listed(xs, t[k]))
  }

  lemma IterateOne<K, V>(t: map<K, V>, key: V -> K, rest: set<K>, xs: seq<Option<V>>, k: K)
    requires KeyedBy(t, key) && rest <= t.Keys && Iterated(t, key, rest, xs) && k in rest
    ensures Iterated(t, key, rest - {k}, xs + [Some(t[k])])
  {
    var ys := xs + [Some(t[k])];
    assert key(t[k]) == k;
    forall j | j in t && j !in rest - {k} ensures Listed(ys, t[j]) {
      if j != k {
        var i :| 0 <= i < |xs| && xs[i].Some? && xs[i].value == t[j];
        assert ys[i].Some? && ys[i].value == t[j];
      } else {
        assert ys[|xs|].Some? && ys[|xs|].value == t[j];
      }
    }
  }

  /** getAllSanctionVotes: the votes of each stored case. */
  method GetAllSanctionVotes(k: Keeper) returns (xs: seq<Option<SanctionVote>>)
    requires KeyedVotes(k.store.votes)
    ensures Lists(CaseVotes(k.store), VoteKey, xs)
  {
    xs := [];
    var votes := k.store.votes;
    var rest := k.store.cases.Keys;
    while rest != {}
      invariant rest <= k.store.cases.Keys
      invariant VotesListed(votes, k.store.cases.Keys - rest, xs)
      decreases |rest|
    {
      var id :| id in rest;
      var vs := Voting.GetSanctionVotes(votes, id);
      AppendVotes(votes, k.store.cases.Keys - rest, xs, id, vs);
      assert k.store.cases.Keys - (rest - {id}) == k.store.cases.Keys - rest + {id};
      xs := xs + Pointers(vs);
      rest := rest - {id};
    }
    assert k.store.cases.Keys - {} == k.store.cases.Keys;
    AllVotesListed(k.store, xs);
  }

  ghost predicate VotesListed(votes: Votes, done: set<string>, xs: seq<Option<SanctionVote>>)
  {
    && NoNil(xs) && Distinct(xs, VoteKey)
    && (forall i :: 0 <= i < |xs| && xs[i].Some? ==>
          VoteKey(xs[i].value) in votes && votes[VoteKey(xs[i].value)] == xs[i].value && xs[i].value.caseId in done)
    && (forall key :: key in votes && key.0 in done ==> Listed(xs, votes[key]))
  }

  lemma AppendVotes(votes: Votes, done: set<string>, xs: seq<Option<SanctionVote>>, id: string, vs: seq<SanctionVote>)
    requires KeyedVotes(votes) && VotesListed(votes, done, xs) && id !in done && Voting.VotesFor(votes, id, vs)
    ensures VotesListed(votes, done + {id}, xs + Pointers(vs))
  {
    var ys := xs + Pointers(vs);
    forall j | 0 <= j < |vs| ensures VoteKey(vs[j]) == (id, vs[j].agentId) && votes[VoteKey(vs[j])] == vs[j] {
      assert votes[(id, vs[j].agentId)] == vs[j];
    }
    forall i | 0 <= i < |ys| ensures ys[i] == if i < |xs| then xs[i] else Some(vs[i - |xs|]) {}
    forall key | key in votes && key.0 in done + {id} ensures Listed(ys, votes[key]) {
      if key.0 == id {
        assert key == (id, key.1);
        assert votes[key] in vs;
        var j :| 0 <= j < |vs| && vs[j] == votes[key];
        assert ys[|xs| + j].Some? && ys[|xs| + j].value == votes[key];
      } else {
        var i :| 0 <= i < |xs| && xs[i].Some? && xs[i].value == votes[key];
        assert ys[i].Some? && ys[i].value == votes[key];
      }
    }
    forall i, j | 0 <= i < j < |ys| && ys[i].Some? && ys[j].Some? ensures VoteKey(ys[i].value) != VoteKey(ys[j].value) {
      if j >= |xs| && i >= |xs| { assert vs[i - |xs|].agentId != vs[j - |xs|].agentId; }
    }
  }

  lemma AllVotesListed(s: State, xs: seq<Option<SanctionVote>>)
    requires VotesListed(s.votes, s.cases.Keys, xs)
    ensures Lists(CaseVotes(s), VoteKey, xs)
  {
  }

  method ExportGenesis(k: Keeper) returns (g: GenesisState)
    requires Keyed(k.store)
    ensures Exports(k.env, k.store, g)
  {
    hide Lists, KeyedBy;
    assert KeyedVotes(k.store.votes) by { KeyedParts(k.store); }
    KeyedTables(k.store);
    hide Keyed, CaseVotes;
    var agents := ListAll(k.store.agents, AgentKey);
    var leases := ListAll(k.store.leases, LeaseKey);
    var reports := ListAll(k.store.reports, ReportKey);
    var cases := ListAll(k.store.cases, CaseKey);
    var votes := GetAllSanctionVotes(k);
    var activeTxs := ListAll(k.store.activeTxs, ActiveKey);
    var freezes := ListAll(k.store.freezes, FreezeKey);
    var executions := ListAll(k.store.executions, ExecutionKey);
    var receipts := ListAll(k.store.receipts, ReceiptKey);
    var settlements := ListAll(k.store.settlements, SettlementKey);
    var reviews := ListAll(k.store.reviews, ReviewKey);
    g := GenesisState(Some(k.GetParams()), k.GetAuthority(), agents, leases, reports, cases, votes, activeTxs, freezes,
                      executions, receipts, settlements, reviews);
  }

}
