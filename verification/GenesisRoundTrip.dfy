/** Export and import are inverse, and an export is valid exactly when the state is. */
module GenesisRoundTrip {
  import opened Basics
  import opened Types
  import opened Store
  import opened Handlers
  import opened Frames
  import opened Registry
  import opened Genesis

  // ---- from valid lists to tables

  lemma ValidAgents(t: Agents, xs: seq<Option<AgentInfo>>)
    requires KeyedAgents(t) && AllListed(t, xs) && Each(xs, AgentRecordOk) && Distinct(xs, SignerKey)
    ensures AgentTableOk(t)
  {
    forall id | id in t ensures AgentValid(t[id]) { assert Listed(xs, t[id]); }
    forall a, b | a in t && b in t && a != b ensures t[a].signer != t[b].signer {
      assert Listed(xs, t[a]) && Listed(xs, t[b]);
      var i :| 0 <= i < |xs| && xs[i].Some? && xs[i].value == t[a];
      var j :| 0 <= j < |xs| && xs[j].Some? && xs[j].value == t[b];
      assert SignerKey(xs[i].value) != SignerKey(xs[j].value);
    }
  }

  lemma ValidLeases(t: map<string, Lease>, xs: seq<Option<Lease>>, agents: Agents, ys: seq<Option<AgentInfo>>)
    requires AllListed(t, xs) && Each(xs, LeaseRecordOk) && AllStored(agents, AgentKey, ys)
    requires forall i :: 0 <= i < |xs| && xs[i].Some? ==> SignerListed(ys, xs[i].value.signer)
    ensures LeaseTableOk(t, agents)
  {
    forall k | k in t ensures LeaseRecordOk(t[k]) && exists id :: id in agents && agents[id].signer == t[k].signer {
      assert Listed(xs, t[k]);
      var i :| 0 <= i < |ys| && ys[i].Some? && ys[i].value.signer == t[k].signer;
      assert AgentKey(ys[i].value) in agents;
    }
  }

  lemma ValidRecords<K, V>(t: map<K, V>, xs: seq<Option<V>>, p: V -> bool)
    requires AllListed(t, xs) && Each(xs, p)
    ensures forall k :: k in t ==> p(t[k])
  {
    forall k | k in t ensures p(t[k]) { assert Listed(xs, t[k]); }
  }

  lemma ValidCases(env: Env, t: map<string, SanctionCase>, xs: seq<Option<SanctionCase>>)
    requires AllListed(t, xs) && Each(xs, CaseRecordOk) && SnapshotsOk(env, xs)
    ensures CaseTableOk(env, t)
  {
    hide SnapshotValid;
    forall k | k in t ensures CaseRecordOk(t[k]) && SnapshotValid(env, t[k]) { assert Listed(xs, t[k]); }
  }

  lemma ValidReceipts(env: Env, t: map<TransferId, OriginalTransfer>, xs: seq<Option<OriginalTransfer>>)
    requires AllListed(t, xs) && forall i :: 0 <= i < |xs| && xs[i].Some? ==> ReceiptRecordOk(env, xs[i].value)
    ensures ReceiptTableOk(env, t)
  {
    forall k | k in t ensures ReceiptRecordOk(env, t[k]) { assert Listed(xs, t[k]); }
  }

  lemma ValidReviews(env: Env, t: map<string, ReviewRecord>, xs: seq<Option<ReviewRecord>>)
    requires AllListed(t, xs) && forall i :: 0 <= i < |xs| && xs[i].Some? ==> ReviewRecordOk(env, xs[i].value)
    ensures ReviewTableOk(env, t)
  {
    forall k | k in t ensures ReviewRecordOk(env, t[k]) { assert Listed(xs, t[k]); }
  }

  lemma ValidSettlements(t: map<TransferId, SettlementRecord>, xs: seq<Option<SettlementRecord>>,
                         receipts: map<TransferId, OriginalTransfer>, ys: seq<Option<OriginalTransfer>>)
    requires KeyedSettlements(t) && AllListed(t, xs) && Each(xs, SettlementRecordOk)
    requires AllStored(receipts, ReceiptKey, ys)
    requires forall i :: 0 <= i < |xs| && xs[i].Some? ==> Listed(ys, xs[i].value.transfer)
    ensures SettlementTableOk(t, receipts)
  {
    forall k | k in t ensures SettlementRecordOk(t[k]) && k in receipts && receipts[k] == t[k].transfer {
      assert Listed(xs, t[k]) && Listed(ys, t[k].transfer);
      var j :| 0 <= j < |ys| && ys[j].Some? && ys[j].value == t[k].transfer;
      assert ReceiptKey(ys[j].value) == k;
    }
  }

  lemma ValidExecutions(t: map<string, ExecutionRecord>, xs: seq<Option<ExecutionRecord>>,
                        settlements: map<TransferId, SettlementRecord>, ys: seq<Option<SettlementRecord>>)
    requires AllListed(t, xs) && AllStored(settlements, SettlementKey, ys)
    requires forall i :: 0 <= i < |xs| && xs[i].Some? && Monetary(xs[i].value.action) ==> SettledFor(ys, xs[i].value)
    ensures ExecutionTableOk(t, settlements)
  {
    forall k | k in t && Monetary(t[k].action)
      ensures exists id :: id in settlements && settlements[id].caseId == t[k].caseId && settlements[id].action == t[k].action
    {
      assert Listed(xs, t[k]);
      assert SettledFor(ys, t[k]);
      var j :| 0 <= j < |ys| && ys[j].Some? && ys[j].value.caseId == t[k].caseId && ys[j].value.action == t[k].action;
      assert SettlementKey(ys[j].value) in settlements;
    }
  }

  /** The tables of a state as the lists of a genesis describe them. */
  ghost predicate Described(s: State, g: GenesisState)
  {
    && AllListed(s.agents, g.agents) && AllStored(s.agents, AgentKey, g.agents)
    && AllListed(s.leases, g.leases) && AllListed(s.reports, g.reports) && AllListed(s.cases, g.cases)
    && AllListed(s.receipts, g.receipts) && AllStored(s.receipts, ReceiptKey, g.receipts)
    && AllListed(s.settlements, g.settlements) && AllStored(s.settlements, SettlementKey, g.settlements)
    && AllListed(s.executions, g.executions) && AllListed(s.reviews, g.reviews)
  }

  lemma ValidState(env: Env, s: State, g: GenesisState)
    requires GenesisValid(env, g) && Keyed(s) && Described(s, g)
    requires ParamsValid(GetParams(s)) && (Authority(env, s) != "" ==> env.isAddress(Authority(env, s)))
    ensures Exportable(env, s)
  {
    hide AllListed, AllStored, Each, Distinct, SnapshotsOk, NoNil, SignerListed, Listed, SettledFor;
    hide GetParams, ParamsValid, Authority;
    hide AgentTableOk, LeaseTableOk, CaseTableOk, ReceiptTableOk, SettlementTableOk, ExecutionTableOk, ReviewTableOk;
    ValidAgents(s.agents, g.agents);
    ValidLeases(s.leases, g.leases, s.agents, g.agents);
    ValidRecords(s.reports, g.reports, ReportRecordOk);
    ValidCases(env, s.cases, g.cases);
    ValidReceipts(env, s.receipts, g.receipts);
    ValidSettlements(s.settlements, g.settlements, s.receipts, g.receipts);
    ValidExecutions(s.executions, g.executions, s.settlements, g.settlements);
    ValidReviews(env, s.reviews, g.reviews);
  }

  // ---- from tables to valid lists

  lemma ListsAgents(t: Agents, xs: seq<Option<AgentInfo>>)
    requires KeyedAgents(t) && Lists(t, AgentKey, xs) && AgentTableOk(t)
    ensures Each(xs, AgentRecordOk) && Distinct(xs, SignerKey)
  {
    forall i, j | 0 <= i < j < |xs| && xs[i].Some? && xs[j].Some?
      ensures SignerKey(xs[i].value) != SignerKey(xs[j].value)
    {
      assert AgentKey(xs[i].value) != AgentKey(xs[j].value);
    }
  }

  lemma ListsLeases(t: map<string, Lease>, xs: seq<Option<Lease>>, agents: Agents, ys: seq<Option<AgentInfo>>)
    requires Lists(t, LeaseKey, xs) && LeaseTableOk(t, agents) && AllListed(agents, ys)
    ensures Each(xs, LeaseRecordOk)
    ensures forall i :: 0 <= i < |xs| && xs[i].Some? ==> SignerListed(ys, xs[i].value.signer)
  {
    forall i | 0 <= i < |xs| && xs[i].Some? ensures SignerListed(ys, xs[i].value.signer) {
      var k := LeaseKey(xs[i].value);
      assert t[k] == xs[i].value;
      var id :| id in agents && agents[id].signer == t[k].signer;
      assert Listed(ys, agents[id]);
    }
  }

  lemma ListsCases(env: Env, t: map<string, SanctionCase>, xs: seq<Option<SanctionCase>>)
    requires Lists(t, CaseKey, xs) && CaseTableOk(env, t)
    ensures Each(xs, CaseRecordOk) && SnapshotsOk(env, xs)
  {
    hide SnapshotValid;
  }

  lemma ListsSettlements(t: map<TransferId, SettlementRecord>, xs: seq<Option<SettlementRecord>>,
                         receipts: map<TransferId, OriginalTransfer>, ys: seq<Option<OriginalTransfer>>)
    requires Lists(t, SettlementKey, xs) && SettlementTableOk(t, receipts) && AllListed(receipts, ys)
    ensures Each(xs, SettlementRecordOk)
    ensures forall i :: 0 <= i < |xs| && xs[i].Some? ==> Listed(ys, xs[i].value.transfer)
  {
    forall i | 0 <= i < |xs| && xs[i].Some? ensures SettlementRecordOk(xs[i].value) && Listed(ys, xs[i].value.transfer) {
      var k := SettlementKey(xs[i].value);
      assert t[k] == xs[i].value && receipts[k] == xs[i].value.transfer;
    }
  }

  lemma ListsExecutions(t: map<string, ExecutionRecord>, xs: seq<Option<ExecutionRecord>>,
                        settlements: map<TransferId, SettlementRecord>, ys: seq<Option<SettlementRecord>>)
    requires Lists(t, ExecutionKey, xs) && ExecutionTableOk(t, settlements) && AllListed(settlements, ys)
    ensures forall i :: 0 <= i < |xs| && xs[i].Some? && Monetary(xs[i].value.action) ==> SettledFor(ys, xs[i].value)
  {
    forall i | 0 <= i < |xs| && xs[i].Some? && Monetary(xs[i].value.action) ensures SettledFor(ys, xs[i].value) {
      var k := ExecutionKey(xs[i].value);
      assert t[k] == xs[i].value;
      var id :| id in settlements && settlements[id].caseId == t[k].caseId && settlements[id].action == t[k].action;
      assert Listed(ys, settlements[id]);
    }
  }

  lemma ListsOthers(env: Env, s: State, g: GenesisState)
    requires Lists(s.reports, ReportKey, g.reports) && ReportTableOk(s.reports)
    requires Lists(s.receipts, ReceiptKey, g.receipts) && ReceiptTableOk(env, s.receipts)
    requires Lists(s.reviews, ReviewKey, g.reviews) && ReviewTableOk(env, s.reviews)
    ensures ReportsValid(g) && ReceiptsValid(env, g) && ReviewsValid(env, g)
  {
    hide ReceiptRecordOk, ReviewRecordOk;
  }

  lemma ExportedDescribed(s: State, g: GenesisState)
    requires ExportTables(s, g)
    ensures Described(s, g)
  {
    hide AllListed, AllStored, Distinct, NoNil;
  }

  /** ValidateGenesis accepts an export exactly when the exported state meets the global invariant. */
  lemma ExportValidity(env: Env, s: State, g: GenesisState)
    requires Keyed(s) && Exports(env, s, g)
    ensures GenesisValid(env, g) <==> Exportable(env, s)
  {
    ExportedDescribed(s, g);
    if GenesisValid(env, g) {
      hide Described, ExportTables, Keyed;
      GenesisHeader(env, g);
      hide GenesisValid;
      ValidState(env, s, g);
    }
    if Exportable(env, s) {
      hide AllStored, SnapshotsOk, Listed, SettledFor, SignerListed, GetParams, ParamsValid, Authority;
      hide AgentTableOk, LeaseTableOk, CaseTableOk, ReceiptTableOk, SettlementTableOk, ExecutionTableOk, ReviewTableOk, ReportTableOk;
      hide Each, Distinct, AllListed, NoNil;
      ListsAgents(s.agents, g.agents);
      ListsLeases(s.leases, g.leases, s.agents, g.agents);
      ListsCases(env, s.cases, g.cases);
      ListsSettlements(s.settlements, g.settlements, s.receipts, g.receipts);
      ListsExecutions(s.executions, g.executions, s.settlements, g.settlements);
      ListsOthers(env, s, g);
      hide ReceiptsValid, ReviewsValid, ReportsValid, Exportable;
    }
  }

  lemma GenesisHeader(env: Env, g: GenesisState)
    requires GenesisValid(env, g)
    ensures g.params.Some? && ParamsValid(g.params.value) && (g.authority != "" ==> env.isAddress(g.authority))
  {
  }

  // ---- importing a valid genesis

  lemma ImportedKeyed(s0: State, g: GenesisState)
    ensures Keyed(Import(Bare(s0), g))
  {
    CollectKeyed(map[], AgentKey, g.agents);
    CollectKeyed(map[], LeaseKey, g.leases);
    CollectKeyed(map[], ReportKey, g.reports);
    CollectKeyed(map[], CaseKey, g.cases);
    CollectKeyed(map[], VoteKey, g.votes);
    CollectKeyed(map[], ActiveKey, g.activeTxs);
    CollectKeyed(map[], FreezeKey, g.freezes);
    CollectKeyed(map[], ExecutionKey, g.executions);
    CollectKeyed(map[], ReceiptKey, g.receipts);
    CollectKeyed(map[], SettlementKey, g.settlements);
    CollectKeyed(map[], ReviewKey, g.reviews);
    hide Collect;
  }

  lemma {:induction false} CollectListed<K, V>(key: V -> K, xs: seq<Option<V>>)
    ensures AllListed(Collect(map[], key, xs), xs)
  {
    if xs != [] {
      var init, last := xs[..|xs| - 1], xs[|xs| - 1];
      CollectListed(key, init);
      ListedMore(Collect(map[], key, init), init, last);
      assert xs == init + [last];
    }
  }

  lemma ImportedDescribed(env: Env, s0: State, g: GenesisState)
    requires GenesisValid(env, g)
    ensures Described(Import(Bare(s0), g), g)
  {
    hide Each, SnapshotsOk, SignerListed, SettledFor, Listed, AllListed, AllStored, Distinct, NoNil;
    CollectDistinct(AgentKey, g.agents);
    CollectListed(LeaseKey, g.leases);
    CollectListed(ReportKey, g.reports);
    CollectListed(CaseKey, g.cases);
    CollectListed(ExecutionKey, g.executions);
    CollectDistinct(ReceiptKey, g.receipts);
    CollectDistinct(SettlementKey, g.settlements);
    CollectListed(ReviewKey, g.reviews);
    hide Collect, GenesisValid;
  }

  /** The set of (index key, record key) pairs of the listed records is that of the table. */
  lemma ReportIndexImported(xs: seq<Option<RiskReport>>)
    requires Distinct(xs, ReportKey)
    ensures var t := Collect(map[], ReportKey, xs);
      && (forall h, id :: (h, id) in ReportTxs(xs) <==> id in t && t[id].txHash == h)
      && (forall x, id :: (x, id) in ReportAddresses(xs) <==> id in t && t[id].recipient == x && x != "")
  {
    CollectDistinct(ReportKey, xs);
    CollectKeyed(map[], ReportKey, xs);
    var t := Collect(map[], ReportKey, xs);
    forall id | id in t ensures t[id].reportId == id && Some(t[id]) in xs {
      assert Listed(xs, t[id]) && ReportKey(t[id]) == id;
    }
    forall x | x in xs && x.Some? ensures x.value.reportId in t && t[x.value.reportId] == x.value {
      var i :| 0 <= i < |xs| && xs[i] == x;
      assert ReportKey(xs[i].value) in t;
    }
  }

  lemma CaseIndexImported(xs: seq<Option<SanctionCase>>)
    requires Distinct(xs, CaseKey)
    ensures var t := Collect(map[], CaseKey, xs);
      && (forall h, id :: (h, id) in CaseTxs(xs) <==> id in t && t[id].txHash == h && h != [])
      && (forall x, id :: (x, id) in CaseAddresses(xs) <==> id in t && t[id].target == x && x != "")
  {
    CollectDistinct(CaseKey, xs);
    CollectKeyed(map[], CaseKey, xs);
    var t := Collect(map[], CaseKey, xs);
    forall id | id in t ensures t[id].caseId == id && Some(t[id]) in xs {
      assert Listed(xs, t[id]) && CaseKey(t[id]) == id;
    }
    forall x | x in xs && x.Some? ensures x.value.caseId in t && t[x.value.caseId] == x.value {
      var i :| 0 <= i < |xs| && xs[i] == x;
      assert CaseKey(xs[i].value) in t;
    }
  }

  lemma ImportedIndexes(s0: State, g: GenesisState)
    requires Distinct(g.agents, AgentKey) && Distinct(g.agents, SignerKey)
    requires Distinct(g.reports, ReportKey) && Distinct(g.cases, CaseKey)
    ensures IndexesExact(Import(Bare(s0), g))
  {
    CollectSignersExact(g.agents);
    ReportIndexImported(g.reports);
    CaseIndexImported(g.cases);
    hide Collect, CollectSigners, ReportTxs, ReportAddresses, CaseTxs, CaseAddresses, IndexExact, Distinct;
  }

  /** An empty authority falls back on the configured one, which must then be usable. */
  predicate AuthorityUsable(env: Env, g: GenesisState)
  {
    g.authority == "" && env.configAuthority != "" ==> env.isAddress(env.configAuthority)
  }

  /**
   * Loading a valid genesis gives exactly rebuilt indexes, and a state that meets the global invariant
   * exactly when the authority that holds is usable.
   */
  lemma ImportValid(env: Env, s0: State, g: GenesisState)
    requires GenesisValid(env, g)
    ensures var s := Import(Bare(s0), g); Keyed(s) && IndexesExact(s) && (Exportable(env, s) <==> AuthorityUsable(env, g))
  {
    GenesisHeader(env, g);
    ImportedKeyed(s0, g);
    ImportedDescribed(env, s0, g);
    ValidDistinct(env, g);
    ImportedIndexes(s0, g);
    ImportedHeader(env, s0, g);
    if AuthorityUsable(env, g) {
      hide GenesisValid, Described, Keyed, IndexesExact, Distinct, Exportable, Import;
      ValidState(env, Import(Bare(s0), g), g);
    } else {
      hide Import, GenesisValid, Described, Keyed, IndexesExact;
    }
  }

  lemma ImportedHeader(env: Env, s0: State, g: GenesisState)
    requires g.params.Some? && ParamsValid(g.params.value) && (g.authority != "" ==> env.isAddress(g.authority))
    ensures var s := Import(Bare(s0), g);
      ParamsValid(GetParams(s)) && ((Authority(env, s) != "" ==> env.isAddress(Authority(env, s))) <==> AuthorityUsable(env, g))
  {
    hide ParamsValid;
  }

  lemma ValidDistinct(env: Env, g: GenesisState)
    requires GenesisValid(env, g)
    ensures Distinct(g.agents, AgentKey) && Distinct(g.agents, SignerKey)
    ensures Distinct(g.reports, ReportKey) && Distinct(g.cases, CaseKey)
  {
    hide Distinct, Each, SnapshotsOk;
  }

  // ---- importing an export

  /** Parameters and authority as the keeper reads them. */
  function Normal(env: Env, s: State): State
  {
    s.(params := Some(GetParams(s)), authority := Authority(env, s))
  }

  ghost predicate NoOrphans(s: State)
  {
    forall k :: k in s.votes ==> k.0 in s.cases
  }

  lemma KeyedTables(s: State)
    requires Keyed(s)
    ensures KeyedBy(s.agents, AgentKey) && KeyedBy(s.leases, LeaseKey) && KeyedBy(s.reports, ReportKey)
    ensures KeyedBy(s.cases, CaseKey) && KeyedBy(CaseVotes(s), VoteKey) && KeyedBy(s.activeTxs, ActiveKey)
    ensures KeyedBy(s.freezes, FreezeKey) && KeyedBy(s.executions, ExecutionKey)
    ensures KeyedBy(s.receipts, ReceiptKey) && KeyedBy(s.settlements, SettlementKey) && KeyedBy(s.reviews, ReviewKey)
  {
  }

  ghost predicate SameTables(s: State, r: State)
  {
    && r.agents == s.agents && r.leases == s.leases && r.reports == s.reports && r.cases == s.cases
    && r.votes == CaseVotes(s) && r.activeTxs == s.activeTxs && r.freezes == s.freezes && r.executions == s.executions
    && r.receipts == s.receipts && r.settlements == s.settlements && r.reviews == s.reviews
  }

  lemma ImportedTables(s: State, g: GenesisState)
    requires Keyed(s) && ExportTables(s, g)
    ensures SameTables(s, Import(Bare(s), g))
  {
    KeyedTables(s);
    hide Lists, KeyedBy, Keyed, CaseVotes;
    CollectLists(s.agents, AgentKey, g.agents);
    CollectLists(s.leases, LeaseKey, g.leases);
    CollectLists(s.reports, ReportKey, g.reports);
    CollectLists(s.cases, CaseKey, g.cases);
    CollectLists(CaseVotes(s), VoteKey, g.votes);
    CollectLists(s.activeTxs, ActiveKey, g.activeTxs);
    CollectLists(s.freezes, FreezeKey, g.freezes);
    CollectLists(s.executions, ExecutionKey, g.executions);
    CollectLists(s.receipts, ReceiptKey, g.receipts);
    CollectLists(s.settlements, SettlementKey, g.settlements);
    CollectLists(s.reviews, ReviewKey, g.reviews);
    hide Collect, ExportTables;
  }

  lemma ImportedIndexTables(s: State, g: GenesisState)
    requires Keyed(s) && ExportTables(s, g) && IndexesExact(s)
    ensures var r := Import(Bare(s), g);
      && r.signerIndex == s.signerIndex && r.reportsByTx == s.reportsByTx && r.reportsByAddress == s.reportsByAddress
      && r.casesByTx == s.casesByTx && r.casesByAddress == s.casesByAddress
  {
    var r := Import(Bare(s), g);
    ImportedTables(s, g);
    ExportDistinct(s, g);
    ImportedIndexes(s, g);
    hide Keyed, ExportTables, Import;
    IndexUnique(s.agents, s.signerIndex, r.signerIndex);
    hide IndexExact;
    SamePairs(r.reportsByTx, s.reportsByTx);
    SamePairs(r.reportsByAddress, s.reportsByAddress);
    SamePairs(r.casesByTx, s.casesByTx);
    SamePairs(r.casesByAddress, s.casesByAddress);
  }

  lemma SamePairs<A, B>(a: set<(A, B)>, b: set<(A, B)>)
    requires forall x, y :: (x, y) in a <==> (x, y) in b
    ensures a == b
  {
    forall p: (A, B) ensures p in a <==> p in b {
      var (x, y) := p;
      assert (x, y) == p;
    }
  }

  lemma ExportDistinct(s: State, g: GenesisState)
    requires ExportTables(s, g) && IndexExact(s.agents, s.signerIndex) && Keyed(s)
    ensures Distinct(g.agents, AgentKey) && Distinct(g.agents, SignerKey)
    ensures Distinct(g.reports, ReportKey) && Distinct(g.cases, CaseKey)
  {
    ExactDistinct(s.agents, s.signerIndex);
    hide IndexExact;
    SignersDistinct(s.agents, g.agents);
    hide KeyedAgents, Distinct;
  }

  lemma SignersDistinct(t: Agents, xs: seq<Option<AgentInfo>>)
    requires KeyedAgents(t) && Lists(t, AgentKey, xs) && DistinctSigners(t)
    ensures Distinct(xs, SignerKey)
  {
    forall i, j | 0 <= i < j < |xs| && xs[i].Some? && xs[j].Some?
      ensures SignerKey(xs[i].value) != SignerKey(xs[j].value)
    {
      assert AgentKey(xs[i].value) != AgentKey(xs[j].value);
    }
  }

  lemma CaseVotesAll(s: State)
    ensures CaseVotes(s) == s.votes <==> NoOrphans(s)
  {
    if CaseVotes(s) == s.votes {
      assert forall k :: k in s.votes ==> k in CaseVotes(s);
    }
  }

  /** Importing an export of a state gives that state back, apart from votes without a case, which an export loses. */
  lemma RoundTrip(env: Env, s: State, g: GenesisState)
    requires Keyed(s) && IndexesExact(s) && Exports(env, s, g)
    ensures Import(Bare(s), g) == Normal(env, s).(votes := CaseVotes(s))
    ensures Import(Bare(s), g) == Normal(env, s) <==> NoOrphans(s)
  {
    hide Keyed, IndexesExact, ExportTables, CaseVotes, NoOrphans, Collect, CollectSigners;
    ImportedTables(s, g);
    ImportedIndexTables(s, g);
    CaseVotesAll(s);
    var r := Import(Bare(s), g);
    assert r.params == Some(GetParams(s)) && r.authority == Authority(env, s);
    assert r.balances == s.balances && r.moves == s.moves && r.height == s.height;
    hide Import, Bare, GetParams, Authority;
  }

  // ---- what validation does not see

  lemma DefaultGenesisValid(env: Env)
    ensures GenesisValid(env, DefaultGenesis())
  {
  }

  const ORPHAN := SanctionVote("c", "a", Approve, BlockTx, "", [], 1, [])

  /** Nothing but one vote on a case that does not exist. */
  function OrphanGenesis(): GenesisState { DefaultGenesis().(votes := [Some(ORPHAN)]) }

  /** What both this genesis and the default one export. */
  function Exported(env: Env): GenesisState { DefaultGenesis().(authority := env.configAuthority) }

  lemma EmptyExports(env: Env, s: State)
    requires s.params == Some(DefaultParams()) && s.authority == "" && s.cases == map[]
    requires s.agents == map[] && s.leases == map[] && s.reports == map[] && s.activeTxs == map[] && s.freezes == map[]
    requires s.executions == map[] && s.receipts == map[] && s.settlements == map[] && s.reviews == map[]
    ensures Exports(env, s, Exported(env))
  {
    assert CaseVotes(s) == map[];
  }

  /** The default genesis under a configured authority that is no address: it validates, and its own export does not. */
  lemma EmptyAuthorityFails(env: Env, s0: State)
    requires env.configAuthority != "" && !env.isAddress(env.configAuthority)
    ensures GenesisValid(env, DefaultGenesis())
    ensures Exports(env, Import(Bare(s0), DefaultGenesis()), Exported(env)) && !GenesisValid(env, Exported(env))
  {
    DefaultGenesisValid(env);
    EmptyExports(env, Import(Bare(s0), DefaultGenesis()));
  }

  /** A genesis with a vote on no case validates, and its export loads back without the vote. */
  lemma OrphanVoteIsLost(env: Env, s0: State)
    ensures GenesisValid(env, OrphanGenesis())
    ensures var s := Import(Bare(s0), OrphanGenesis());
      && s.votes == map[("c", "a") := ORPHAN] && Exports(env, s, Exported(env))
      && Import(Bare(s), Exported(env)).votes == map[]
  {
    DefaultGenesisValid(env);
    var s := Import(Bare(s0), OrphanGenesis());
    var xs := OrphanGenesis().votes;
    assert xs[..0] == [];
    assert Collect(map[], VoteKey, xs[..0]) == map[];
    assert VoteKey(ORPHAN) == ("c", "a");
    EmptyExports(env, s);
  }
}
