/** Genesis files: what makes one valid, what it loads, and what an export of a state contains. */
module Genesis {
  import opened Basics
  import opened Types
  import opened Store
  import opened Handlers
  import opened Frames
  import opened Registry
  import Chain
  import Strings

  /** Lists of pointers; a settlement without a transfer counts as nil. */
  datatype GenesisState = GenesisState(
    params: Option<Params>,
    authority: string,
    agents: seq<Option<AgentInfo>>,
    leases: seq<Option<Lease>>,
    reports: seq<Option<RiskReport>>,
    cases: seq<Option<SanctionCase>>,
    votes: seq<Option<SanctionVote>>,
    activeTxs: seq<Option<ActiveSanction>>,
    freezes: seq<Option<FreezeRecord>>,
    executions: seq<Option<ExecutionRecord>>,
    receipts: seq<Option<OriginalTransfer>>,
    settlements: seq<Option<SettlementRecord>>,
    reviews: seq<Option<ReviewRecord>>)

  // The store key of each record.
  function AgentKey(a: AgentInfo): string { a.agentId }
  function SignerKey(a: AgentInfo): string { a.signer }
  function LeaseKey(l: Lease): string { l.signer }
  function ReportKey(r: RiskReport): string { r.reportId }
  function CaseKey(c: SanctionCase): string { c.caseId }
  function VoteKey(v: SanctionVote): (string, string) { (v.caseId, v.agentId) }
  function ActiveKey(a: ActiveSanction): Bytes { a.txHash }
  function FreezeKey(f: FreezeRecord): string { f.address }
  function ExecutionKey(r: ExecutionRecord): string { r.caseId }
  function ReceiptKey(t: OriginalTransfer): TransferId { IdOf(t) }
  function SettlementKey(r: SettlementRecord): TransferId { IdOf(r.transfer) }
  function ReviewKey(r: ReviewRecord): string { r.caseId }

  ghost predicate Listed<V>(xs: seq<Option<V>>, x: V)
  {
    exists i :: 0 <= i < |xs| && xs[i].Some? && xs[i].value == x
  }

  /** Every record of the table is in the list. */
  ghost predicate AllListed<K, V>(t: map<K, V>, xs: seq<Option<V>>)
  {
    forall k :: k in t ==> Listed(xs, t[k])
  }

  /** Every listed record is in the table under its key. */
  ghost predicate AllStored<K, V>(t: map<K, V>, key: V -> K, xs: seq<Option<V>>)
  {
    forall i :: 0 <= i < |xs| && xs[i].Some? ==> key(xs[i].value) in t && t[key(xs[i].value)] == xs[i].value
  }

  // ---- ValidateGenesis, as statements about whole lists

  /** No two entries have the same key. */
  ghost predicate Distinct<K, V>(xs: seq<Option<V>>, key: V -> K)
  {
    forall i, j :: 0 <= i < j < |xs| && xs[i].Some? && xs[j].Some? ==> key(xs[i].value) != key(xs[j].value)
  }

  /** Every entry that is not nil satisfies p. */
  ghost predicate Each<V>(xs: seq<Option<V>>, p: V -> bool)
  {
    forall i :: 0 <= i < |xs| && xs[i].Some? ==> p(xs[i].value)
  }

  ghost predicate NoNil<V>(xs: seq<Option<V>>)
  {
    forall i :: 0 <= i < |xs| ==> xs[i].Some?
  }

  predicate AgentRecordOk(a: AgentInfo) { AgentValid(a) }
  predicate ReportRecordOk(r: RiskReport) { r.reportId != "" }
  predicate CaseRecordOk(c: SanctionCase) { c.caseId != "" }
  predicate LeaseRecordOk(l: Lease) { l.epoch != 0 && l.expires != 0 && HolderValid(l.holder) }

  /** The amount and denomination are the canonical text of one positive coin. */
  predicate CoinTextOk(env: Env, amount: string, denom: string)
  {
    var coin := env.parseCoin(amount + denom);
    coin.Some? && coin.value.0 > 0 && Chain.IntText(coin.value.0) == amount && coin.value.1 == denom
  }

  predicate ReceiptRecordOk(env: Env, t: OriginalTransfer)
  {
    && |t.txHash| == 32 && t.height != 0 && env.isAddress(t.sender) && env.isAddress(t.recipient)
    && CoinTextOk(env, t.amount, t.denom)
  }

  predicate SettlementRecordOk(r: SettlementRecord)
  {
    r.caseId != "" && r.executedAt > r.transfer.height && Monetary(r.action)
  }

  predicate ReviewRecordOk(env: Env, r: ReviewRecord)
  {
    && r.caseId != "" && |r.evidenceHash| == 32 && !env.isBlank(r.reason) && |r.reason| <= 1024
    && r.reviewedAt != 0 && (r.revokedAt == 0 || r.revokedAt >= r.reviewedAt) && env.isAddress(r.authority)
  }

  ghost predicate SnapshotsOk(env: Env, xs: seq<Option<SanctionCase>>)
  {
    forall i :: 0 <= i < |xs| && xs[i].Some? ==> SnapshotValid(env, xs[i].value)
  }

  ghost predicate SignerListed(agents: seq<Option<AgentInfo>>, signer: string)
  {
    exists i :: 0 <= i < |agents| && agents[i].Some? && agents[i].value.signer == signer
  }

  ghost predicate SettledFor(settlements: seq<Option<SettlementRecord>>, r: ExecutionRecord)
  {
    exists i :: 0 <= i < |settlements| && settlements[i].Some?
                && settlements[i].value.caseId == r.caseId && settlements[i].value.action == r.action
  }

  ghost predicate AgentsValid(g: GenesisState)
  {
    Each(g.agents, AgentRecordOk) && Distinct(g.agents, AgentKey) && Distinct(g.agents, SignerKey)
  }

  ghost predicate ReportsValid(g: GenesisState)
  {
    Each(g.reports, ReportRecordOk) && Distinct(g.reports, ReportKey)
  }

  ghost predicate CasesValid(env: Env, g: GenesisState)
  {
    Each(g.cases, CaseRecordOk) && Distinct(g.cases, CaseKey) && SnapshotsOk(env, g.cases)
  }

  ghost predicate LeasesValid(g: GenesisState)
  {
    && NoNil(g.leases) && Each(g.leases, LeaseRecordOk) && Distinct(g.leases, LeaseKey)
    && forall i :: 0 <= i < |g.leases| && g.leases[i].Some? ==> SignerListed(g.agents, g.leases[i].value.signer)
  }

  ghost predicate ReceiptsValid(env: Env, g: GenesisState)
  {
    && NoNil(g.receipts) && Distinct(g.receipts, ReceiptKey)
    && forall i :: 0 <= i < |g.receipts| && g.receipts[i].Some? ==> ReceiptRecordOk(env, g.receipts[i].value)
  }

  ghost predicate SettlementsValid(g: GenesisState)
  {
    && NoNil(g.settlements) && Each(g.settlements, SettlementRecordOk) && Distinct(g.settlements, SettlementKey)
    && forall i :: 0 <= i < |g.settlements| && g.settlements[i].Some? ==> Listed(g.receipts, g.settlements[i].value.transfer)
  }

  ghost predicate ExecutionsValid(g: GenesisState)
  {
    forall i :: 0 <= i < |g.executions| && g.executions[i].Some? && Monetary(g.executions[i].value.action) ==>
      SettledFor(g.settlements, g.executions[i].value)
  }

  ghost predicate ReviewsValid(env: Env, g: GenesisState)
  {
    && NoNil(g.reviews) && Distinct(g.reviews, ReviewKey)
    && forall i :: 0 <= i < |g.reviews| && g.reviews[i].Some? ==> ReviewRecordOk(env, g.reviews[i].value)
  }

  ghost predicate GenesisValid(env: Env, g: GenesisState)
  {
    && g.params.Some? && ParamsValid(g.params.value)
    && AgentsValid(g) && ReportsValid(g) && CasesValid(env, g) && LeasesValid(g)
    && (g.authority != "" ==> env.isAddress(g.authority))
    && ReceiptsValid(env, g) && SettlementsValid(g) && ExecutionsValid(g) && ReviewsValid(env, g)
  }

  // ---- InitGenesis

  /** The entries written into a table one after another; nil entries are skipped. */
  function Collect<K, V>(t: map<K, V>, key: V -> K, xs: seq<Option<V>>): map<K, V>
  {
    if xs == [] then t
    else
      var prev := Collect(t, key, xs[..|xs| - 1]);
      var x := xs[|xs| - 1];
      if x.Some? then prev[key(x.value) := x.value] else prev
  }

  function CollectSigners(index: map<string, string>, xs: seq<Option<AgentInfo>>): map<string, string>
  {
    if xs == [] then index
    else
      var prev := CollectSigners(index, xs[..|xs| - 1]);
      var x := xs[|xs| - 1];
      if x.Some? then prev[x.value.signer := x.value.agentId] else prev
  }

  function ReportTxs(xs: seq<Option<RiskReport>>): set<(Bytes, string)>
  {
    set x | x in xs && x.Some? :: (x.value.txHash, x.value.reportId)
  }

  function ReportAddresses(xs: seq<Option<RiskReport>>): set<(string, string)>
  {
    set x | x in xs && x.Some? && x.value.recipient != "" :: (x.value.recipient, x.value.reportId)
  }

  function CaseTxs(xs: seq<Option<SanctionCase>>): set<(Bytes, string)>
  {
    set x | x in xs && x.Some? && x.value.txHash != [] :: (x.value.txHash, x.value.caseId)
  }

  function CaseAddresses(xs: seq<Option<SanctionCase>>): set<(string, string)>
  {
    set x | x in xs && x.Some? && x.value.target != "" :: (x.value.target, x.value.caseId)
  }

  /** InitGenesis on a store. */
  function Import(s: State, g: GenesisState): State
  {
    State(
      if g.params.Some? then g.params else s.params,
      if g.authority != "" then g.authority else s.authority,
      Collect(s.agents, AgentKey, g.agents), CollectSigners(s.signerIndex, g.agents),
      Collect(s.leases, LeaseKey, g.leases),
      Collect(s.reports, ReportKey, g.reports),
      s.reportsByTx + ReportTxs(g.reports), s.reportsByAddress + ReportAddresses(g.reports),
      Collect(s.cases, CaseKey, g.cases),
      s.casesByTx + CaseTxs(g.cases), s.casesByAddress + CaseAddresses(g.cases),
      Collect(s.votes, VoteKey, g.votes),
      Collect(s.activeTxs, ActiveKey, g.activeTxs), Collect(s.freezes, FreezeKey, g.freezes),
      Collect(s.executions, ExecutionKey, g.executions),
      Collect(s.receipts, ReceiptKey, g.receipts), Collect(s.settlements, SettlementKey, g.settlements),
      Collect(s.reviews, ReviewKey, g.reviews),
      s.balances, s.moves, s.height)
  }

  /** The same chain with an empty sanction store. */
  function Bare(s: State): State
  {
    State(None, "", map[], map[], map[], map[], {}, {}, map[], {}, {}, map[], map[], map[], map[], map[], map[], map[],
          s.balances, s.moves, s.height)
  }

  /** DefaultGenesis: the default parameters and nothing else. */
  function DefaultGenesis(): (g: GenesisState)
  {
    GenesisState(Some(DefaultParams()), "", [], [], [], [], [], [], [], [], [], [], [])
  }

  // ---- ExportGenesis

  /** The list holds every record of the table exactly once, in any order, and no nil. */
  ghost predicate Lists<K, V>(t: map<K, V>, key: V -> K, xs: seq<Option<V>>)
  {
    NoNil(xs) && Distinct(xs, key) && AllStored(t, key, xs) && AllListed(t, xs)
  }

  /** getAllSanctionVotes walks the cases, so a vote without a case is not exported. */
  ghost function CaseVotes(s: State): Votes
  {
    map k | k in s.votes && k.0 in s.cases :: s.votes[k]
  }

  ghost predicate ExportTables(s: State, g: GenesisState)
  {
    && Lists(s.agents, AgentKey, g.agents) && Lists(s.leases, LeaseKey, g.leases)
    && Lists(s.reports, ReportKey, g.reports) && Lists(s.cases, CaseKey, g.cases)
    && Lists(CaseVotes(s), VoteKey, g.votes)
    && Lists(s.activeTxs, ActiveKey, g.activeTxs) && Lists(s.freezes, FreezeKey, g.freezes)
    && Lists(s.executions, ExecutionKey, g.executions)
    && Lists(s.receipts, ReceiptKey, g.receipts) && Lists(s.settlements, SettlementKey, g.settlements)
    && Lists(s.reviews, ReviewKey, g.reviews)
  }

  ghost predicate Exports(env: Env, s: State, g: GenesisState)
  {
    g.params == Some(GetParams(s)) && g.authority == Authority(env, s) && ExportTables(s, g)
  }

  // ---- what a state must satisfy for its export to be valid

  ghost predicate LeaseTableOk(leases: map<string, Lease>, agents: Agents)
  {
    forall k :: k in leases ==> LeaseRecordOk(leases[k]) && exists id :: id in agents && agents[id].signer == leases[k].signer
  }

  ghost predicate CaseTableOk(env: Env, cases: map<string, SanctionCase>)
  {
    forall k :: k in cases ==> CaseRecordOk(cases[k]) && SnapshotValid(env, cases[k])
  }

  ghost predicate ReportTableOk(reports: map<string, RiskReport>)
  {
    forall k :: k in reports ==> ReportRecordOk(reports[k])
  }

  ghost predicate ReceiptTableOk(env: Env, receipts: map<TransferId, OriginalTransfer>)
  {
    forall k :: k in receipts ==> ReceiptRecordOk(env, receipts[k])
  }

  ghost predicate SettlementTableOk(settlements: map<TransferId, SettlementRecord>, receipts: map<TransferId, OriginalTransfer>)
  {
    forall k :: k in settlements ==>
      SettlementRecordOk(settlements[k]) && k in receipts && receipts[k] == settlements[k].transfer
  }

  ghost predicate ExecutionTableOk(executions: map<string, ExecutionRecord>, settlements: map<TransferId, SettlementRecord>)
  {
    forall k :: k in executions && Monetary(executions[k].action) ==>
      exists id :: id in settlements && settlements[id].caseId == executions[k].caseId && settlements[id].action == executions[k].action
  }

  ghost predicate ReviewTableOk(env: Env, reviews: map<string, ReviewRecord>)
  {
    forall k :: k in reviews ==> ReviewRecordOk(env, reviews[k])
  }

  ghost predicate AgentTableOk(agents: Agents)
  {
    (forall id :: id in agents ==> AgentValid(agents[id])) && DistinctSigners(agents)
  }

  /** The code's own global invariant, read off ValidateGenesis. */
  ghost predicate Exportable(env: Env, s: State)
  {
    && ParamsValid(GetParams(s)) && (Authority(env, s) != "" ==> env.isAddress(Authority(env, s)))
    && AgentTableOk(s.agents) && LeaseTableOk(s.leases, s.agents) && ReportTableOk(s.reports) && CaseTableOk(env, s.cases)
    && ReceiptTableOk(env, s.receipts) && SettlementTableOk(s.settlements, s.receipts)
    && ExecutionTableOk(s.executions, s.settlements) && ReviewTableOk(env, s.reviews)
  }

  // ---- the secondary indexes

  ghost predicate ReportIndexOk(s: State)
  {
    && (forall h, id :: (h, id) in s.reportsByTx <==> id in s.reports && s.reports[id].txHash == h)
    && (forall x, id :: (x, id) in s.reportsByAddress <==> id in s.reports && s.reports[id].recipient == x && x != "")
  }

  ghost predicate CaseIndexOk(s: State)
  {
    && (forall h, id :: (h, id) in s.casesByTx <==> id in s.cases && s.cases[id].txHash == h && h != [])
    && (forall x, id :: (x, id) in s.casesByAddress <==> id in s.cases && s.cases[id].target == x && x != "")
  }

  ghost predicate IndexesExact(s: State)
  {
    IndexExact(s.agents, s.signerIndex) && ReportIndexOk(s) && CaseIndexOk(s)
  }

  // ---- importing lists

  ghost predicate KeyedBy<K, V>(t: map<K, V>, key: V -> K)
  {
    forall k :: k in t ==> key(t[k]) == k
  }

  lemma {:induction false} CollectKeyed<K, V>(t: map<K, V>, key: V -> K, xs: seq<Option<V>>)
    requires KeyedBy(t, key)
    ensures KeyedBy(Collect(t, key, xs), key)
  {
    if xs != [] { CollectKeyed(t, key, xs[..|xs| - 1]); }
  }

  lemma ListedMore<K, V>(t: map<K, V>, xs: seq<Option<V>>, y: Option<V>)
    requires AllListed(t, xs)
    ensures AllListed(t, xs + [y]) && (y.Some? ==> Listed(xs + [y], y.value))
  {
    forall k | k in t ensures Listed(xs + [y], t[k]) {
      var i :| 0 <= i < |xs| && xs[i].Some? && xs[i].value == t[k];
      assert (xs + [y])[i] == xs[i];
    }
    assert (xs + [y])[|xs|] == y;
  }

  /** With distinct keys the table holds exactly the listed records. */
  lemma {:induction false} CollectDistinct<K, V>(key: V -> K, xs: seq<Option<V>>)
    requires Distinct(xs, key)
    ensures var t := Collect(map[], key, xs); AllStored(t, key, xs) && AllListed(t, xs)
  {
    if xs != [] {
      var init, last := xs[..|xs| - 1], xs[|xs| - 1];
      CollectDistinct(key, init);
      ListedMore(Collect(map[], key, init), init, last);
      assert xs == init + [last];
      assert forall i :: 0 <= i < |init| ==> xs[i] == init[i];
    }
  }

  /** Importing an export rebuilds the table. */
  lemma CollectLists<K, V>(t: map<K, V>, key: V -> K, xs: seq<Option<V>>)
    requires Lists(t, key, xs) && KeyedBy(t, key)
    ensures Collect(map[], key, xs) == t
  {
    CollectDistinct(key, xs);
    CollectKeyed(map[], key, xs);
    var r := Collect(map[], key, xs);
    forall k | k in t ensures k in r && r[k] == t[k] {
      assert Listed(xs, t[k]);
    }
    forall k | k in r ensures k in t {
      assert Listed(xs, r[k]);
    }
  }

  lemma {:induction false} CollectSignersExact(xs: seq<Option<AgentInfo>>)
    requires Distinct(xs, AgentKey) && Distinct(xs, SignerKey)
    ensures IndexExact(Collect(map[], AgentKey, xs), CollectSigners(map[], xs))
  {
    if xs != [] {
      var init, x := xs[..|xs| - 1], xs[|xs| - 1];
      CollectSignersExact(init);
      CollectDistinct(AgentKey, init);
      CollectKeyed(map[], AgentKey, init);
      if x.Some? {
        var t := Collect(map[], AgentKey, init);
        forall id | id in t ensures t[id].signer != x.value.signer && id != x.value.agentId {
          var i :| 0 <= i < |init| && init[i].Some? && init[i].value == t[id];
          assert xs[i] == init[i];
        }
        hide IndexExact, Distinct;
        IndexStep(t, CollectSigners(map[], init), x.value);
      }
    }
  }

  /** Two exact indexes of one table are equal. */
  lemma IndexUnique(t: Agents, a: map<string, string>, b: map<string, string>)
    requires IndexExact(t, a) && IndexExact(t, b)
    ensures a == b
  {
    assert forall x :: x in a ==> x in b && b[x] == a[x];
    assert forall x :: x in b ==> x in a;
  }
}
