/** Every reachable state exports a valid genesis, as long as staking supplies fresh signers. */
module Closure {
  import opened Basics
  import opened Types
  import opened Store
  import opened Handlers
  import opened Frames
  import opened Electorate
  import opened Chain
  import opened Registry
  import opened Genesis
  import opened GenesisRoundTrip
  import RegistrySync
  import Runs
  import Decimal
  import SignBytes

  /** sdk.ParseCoinNormalized reads back the text of a positive amount and a valid denomination. */
  ghost predicate CoinLaw(env: Env)
  {
    forall n: nat, d: string :: 0 < n < MAX_INT && env.validDenom(d) ==>
      env.parseCoin(Decimal.Format(n) + d) == Some((n, d))
  }

  /** The number of digits at the start of a text. */
  function LeadingDigits(s: string): (k: nat)
    ensures k <= |s| && Decimal.AllDigits(s[..k])
  {
    if s == "" || !Decimal.IsDigit(s[0]) then 0 else
      var k := 1 + LeadingDigits(s[1..]);
      assert s[..k] == [s[0]] + s[1..][..k - 1];
      k
  }

  lemma {:induction false} LeadingDigitsOf(a: string, d: string)
    requires Decimal.AllDigits(a) && d != "" && !Decimal.IsDigit(d[0])
    ensures LeadingDigits(a + d) == |a|
  {
    if a == "" {
      assert a + d == d;
    } else {
      LeadingDigitsOf(a[1..], d);
      assert (a + d)[1..] == a[1..] + d && (a + d)[0] == a[0];
    }
  }

  lemma SplitsBack(env: Env, a: string, d: string)
    requires a != "" && Decimal.AllDigits(a) && d != "" && !Decimal.IsDigit(d[0])
    requires forall s: string :: 0 < LeadingDigits(s) < |s| ==>
      env.parseCoin(s) == Some((Decimal.Value(s[..LeadingDigits(s)]), s[LeadingDigits(s)..]))
    ensures env.parseCoin(a + d) == Some((Decimal.Value(a), d))
  {
    LeadingDigitsOf(a, d);
    hide LeadingDigits, Decimal.Value;
    assert (a + d)[..|a|] == a && (a + d)[|a|..] == d;
  }

  /** The law holds of any parser that splits off the leading digits, if denominations do not start with one. */
  lemma CoinLawOfSplitting(env: Env)
    requires forall d: string :: env.validDenom(d) ==> d != "" && !Decimal.IsDigit(d[0])
    requires forall s: string :: 0 < LeadingDigits(s) < |s| ==>
      env.parseCoin(s) == Some((Decimal.Value(s[..LeadingDigits(s)]), s[LeadingDigits(s)..]))
    ensures CoinLaw(env)
  {
    forall n: nat, d: string | 0 < n < MAX_INT && env.validDenom(d)
      ensures env.parseCoin(Decimal.Format(n) + d) == Some((n, d))
    {
      SplitsBack(env, Decimal.Format(n), d);
    }
    hide LeadingDigits, Decimal.Format;
  }

  // ---- the invariant, table group by table group

  ghost predicate HeaderOk(env: Env, s: State)
  {
    ParamsValid(GetParams(s)) && (Authority(env, s) != "" ==> env.isAddress(Authority(env, s)))
  }

  ghost predicate RegistryOk(s: State)
  {
    AgentTableOk(s.agents) && IndexExact(s.agents, s.signerIndex) && LeaseTableOk(s.leases, s.agents)
  }

  ghost predicate ReportsOk(s: State) { ReportTableOk(s.reports) && ReportIndexOk(s) }

  ghost predicate CasesFine(env: Env, s: State) { CaseTableOk(env, s.cases) && CaseIndexOk(s) }

  ghost predicate LedgerFine(env: Env, s: State)
  {
    && ReceiptTableOk(env, s.receipts) && SettlementTableOk(s.settlements, s.receipts)
    && ExecutionTableOk(s.executions, s.settlements)
  }

  ghost predicate ReviewsFine(env: Env, s: State) { ReviewTableOk(env, s.reviews) }

  ghost predicate AllParts(env: Env, s: State)
  {
    HeaderOk(env, s) && RegistryOk(s) && ReportsOk(s) && CasesFine(env, s) && LedgerFine(env, s) && ReviewsFine(env, s)
  }

  ghost predicate Closed(env: Env, s: State) { s.height >= 1 && Keyed(s) && AllParts(env, s) }

  lemma ClosedMeans(env: Env, s: State)
    ensures Closed(env, s) <==> s.height >= 1 && Keyed(s) && Exportable(env, s) && IndexesExact(s)
  {
    hide Keyed, AgentTableOk, LeaseTableOk, CaseTableOk, ReceiptTableOk, SettlementTableOk, ExecutionTableOk, ReviewTableOk;
    hide ReportTableOk, IndexExact, ReportIndexOk, CaseIndexOk, ParamsValid, GetParams, Authority;
  }

  // ---- which tables an effect leaves alone

  ghost predicate SameHeader(s: State, s': State)
  {
    s'.params == s.params && s'.authority == s.authority && s'.height == s.height
  }

  ghost predicate SameRegistry(s: State, s': State)
  {
    s'.agents == s.agents && s'.signerIndex == s.signerIndex && s'.leases == s.leases
  }

  ghost predicate SameReports(s: State, s': State)
  {
    s'.reports == s.reports && s'.reportsByTx == s.reportsByTx && s'.reportsByAddress == s.reportsByAddress
  }

  ghost predicate SameCases(s: State, s': State)
  {
    s'.cases == s.cases && s'.casesByTx == s.casesByTx && s'.casesByAddress == s.casesByAddress
  }

  ghost predicate SameLedger(s: State, s': State)
  {
    s'.receipts == s.receipts && s'.settlements == s.settlements && s'.executions == s.executions
  }

  ghost predicate SameReviews(s: State, s': State) { s'.reviews == s.reviews }

  lemma PartsKept(env: Env, s: State, s': State)
    ensures SameHeader(s, s') && HeaderOk(env, s) ==> HeaderOk(env, s')
    ensures SameRegistry(s, s') && RegistryOk(s) ==> RegistryOk(s')
    ensures SameReports(s, s') && ReportsOk(s) ==> ReportsOk(s')
    ensures SameCases(s, s') && CasesFine(env, s) ==> CasesFine(env, s')
    ensures SameLedger(s, s') && LedgerFine(env, s) ==> LedgerFine(env, s')
    ensures SameReviews(s, s') && ReviewsFine(env, s) ==> ReviewsFine(env, s')
  {
    hide ParamsValid, IndexExact, AgentTableOk, LeaseTableOk, ReportTableOk, CaseTableOk, ReceiptTableOk;
    hide SettlementTableOk, ExecutionTableOk, ReviewTableOk;
  }

  /** Everything but cases, votes and sanctions in force. */
  ghost predicate OnlyCases(s: State, s': State)
  {
    SameHeader(s, s') && SameRegistry(s, s') && SameReports(s, s') && SameLedger(s, s') && SameReviews(s, s')
  }

  lemma SetCaseOnly(s: State, c: SanctionCase)
    ensures OnlyCases(s, SetCase(s, c))
  {
  }

  lemma SetActiveOnly(s: State, a: ActiveSanction)
    ensures OnlyCases(s, SetActiveTx(s, a)) && SameCases(s, SetActiveTx(s, a))
  {
  }

  lemma SetVoteOnly(s: State, v: SanctionVote)
    ensures OnlyCases(s, SetVote(s, v)) && SameCases(s, SetVote(s, v))
  {
  }

  /** Storing a case under a key that is new, or holds a case of the same tx and target. */
  lemma SetCaseFine(env: Env, s: State, c: SanctionCase)
    requires CasesFine(env, s) && CaseRecordOk(c) && SnapshotValid(env, c)
    requires c.caseId in s.cases ==> s.cases[c.caseId].txHash == c.txHash && s.cases[c.caseId].target == c.target
    ensures CasesFine(env, SetCase(s, c))
  {
    hide SnapshotValid;
    var s' := SetCase(s, c);
    assert s'.cases == s.cases[c.caseId := c];
  }

  lemma RestatusFine(env: Env, s: State, c: SanctionCase, c': SanctionCase)
    requires CasesFine(env, s) && c.caseId in s.cases && s.cases[c.caseId] == c && SameOpening(c, c')
    ensures CasesFine(env, SetCase(s, c'))
  {
    assert CaseRecordOk(c) && SnapshotValid(env, c);
    SnapshotOnly(env, c, c');
    hide CasesFine, SnapshotValid, SetCase;
    SetCaseFine(env, s, c');
  }

  lemma OpenClosed(env: Env, s: State, previous: string, c: SanctionCase)
    requires KeyedCases(s.cases) && CasesFine(env, s) && (previous != "" ==> previous in s.cases)
    requires c.caseId !in s.cases && CaseRecordOk(c) && SnapshotValid(env, c)
    ensures OnlyCases(s, OpenEffect(s, previous, c)) && CasesFine(env, OpenEffect(s, previous, c))
  {
    hide SnapshotValid, CasesFine;
    var s1 := if previous == "" then s else SetCase(s, s.cases[previous].(status := Expired));
    if previous != "" {
      RestatusFine(env, s, s.cases[previous], s.cases[previous].(status := Expired));
      SetCaseOnly(s, s.cases[previous].(status := Expired));
    }
    assert c.caseId !in s1.cases;
    hide SetCase;
    SetCaseFine(env, s1, c);
    SetCaseOnly(s1, c);
  }

  lemma RecomputeClosed(env: Env, s: State, c: SanctionCase)
    requires CasesFine(env, s) && c.caseId in s.cases && s.cases[c.caseId] == c
    ensures OnlyCases(s, Recompute(s, c)) && CasesFine(env, Recompute(s, c))
  {
    var c' := c.(status := RecomputedStatus(s.votes, c));
    var a := ActivationOf(s, c);
    SetActiveOnly(s, a);
    var s1 := SetActiveTx(s, a);
    assert s1.cases == s.cases;
    PartsKept(env, s, s1);
    hide CasesFine, SetCase, SetActiveTx, Activates, RecomputedStatus, ActivationOf;
    RestatusFine(env, s, c, c');
    RestatusFine(env, s1, c, c');
    SetCaseOnly(s, c');
    SetCaseOnly(s1, c');
  }

  lemma VoteClosed(env: Env, s: State, v: SanctionVote)
    requires KeyedCases(s.cases) && CasesFine(env, s) && v.caseId in s.cases
    ensures OnlyCases(s, VoteEffect(s, v)) && CasesFine(env, VoteEffect(s, v))
  {
    var s1 := SetVote(s, v);
    SetVoteOnly(s, v);
    PartsKept(env, s, s1);
    hide CasesFine, Recompute;
    RecomputeClosed(env, s1, s.cases[v.caseId]);
  }

  // ---- execution and its ledger

  /** What an action may change besides balances and sanctions in force: the settlement ledger. */
  ghost predicate OnlySettles(s: State, s': State)
  {
    && SameHeader(s, s') && SameRegistry(s, s') && SameReports(s, s') && SameCases(s, s') && SameReviews(s, s')
    && s'.receipts == s.receipts && s'.executions == s.executions
  }

  lemma SettleOnly(env: Env, s: State, c: SanctionCase)
    requires Settleable(env, s, c)
    ensures OnlySettles(s, SettleEffect(env, s, c))
    ensures var r := s.reports[c.reportIds[0]];
      var t := s.receipts[TransferId(r.txHash, r.messageIndex, r.denom)];
      SettleEffect(env, s, c).settlements == s.settlements[IdOf(t) := SettlementRecord(t, c.caseId, c.action, s.height)]
  {
    hide SettlementMove, CoinsOk, Balance;
  }

  lemma PlainOnly(env: Env, s: State, c: SanctionCase)
    requires !Monetary(c.action)
    ensures OnlySettles(s, ActionEffect(env, s, c)) && ActionEffect(env, s, c).settlements == s.settlements
  {
  }

  lemma SettleFine(s: State, t: OriginalTransfer, c: SanctionCase, receipts: map<TransferId, OriginalTransfer>)
    requires SettlementTableOk(s.settlements, receipts) && KeyedReceipts(receipts)
    requires IdOf(t) in receipts && receipts[IdOf(t)] == t && c.caseId != "" && s.height > t.height && Monetary(c.action)
    ensures SettlementTableOk(s.settlements[IdOf(t) := SettlementRecord(t, c.caseId, c.action, s.height)], receipts)
  {
  }

  lemma SettlementsStay(executions: map<string, ExecutionRecord>, settlements: map<TransferId, SettlementRecord>,
                        id: TransferId, r: SettlementRecord)
    requires ExecutionTableOk(executions, settlements) && id !in settlements
    ensures ExecutionTableOk(executions, settlements[id := r])
  {
    var s' := settlements[id := r];
    forall k | k in executions && Monetary(executions[k].action)
      ensures exists x :: x in s' && s'[x].caseId == executions[k].caseId && s'[x].action == executions[k].action
    {
      var x :| x in settlements && settlements[x].caseId == executions[k].caseId && settlements[x].action == executions[k].action;
      assert x in s';
    }
  }

  lemma ActionFine(env: Env, s: State, c: SanctionCase)
    requires KeyedReceipts(s.receipts) && LedgerFine(env, s) && c.caseId != ""
    requires Monetary(c.action) ==> Settleable(env, s, c) && UnsettledError(s, s.reports[c.reportIds[0]]).None?
    ensures var s' := ActionEffect(env, s, c);
      && OnlySettles(s, s') && LedgerFine(env, s')
      && (Monetary(c.action) ==> exists id :: id in s'.settlements && s'.settlements[id].caseId == c.caseId && s'.settlements[id].action == c.action)
  {
    if Monetary(c.action) {
      SettleOnly(env, s, c);
      var r := s.reports[c.reportIds[0]];
      var t := s.receipts[TransferId(r.txHash, r.messageIndex, r.denom)];
      hide SettleEffect, Settleable, SettlementTableOk, ExecutionTableOk, ReceiptTableOk;
      SettleFine(s, t, c, s.receipts);
      SettlementsStay(s.executions, s.settlements, IdOf(t), SettlementRecord(t, c.caseId, c.action, s.height));
      assert IdOf(t) in ActionEffect(env, s, c).settlements;
    } else {
      PlainOnly(env, s, c);
      hide ActionEffect, ReceiptTableOk;
    }
  }

  lemma FinishFine(env: Env, s: State, c: SanctionCase, record: ExecutionRecord)
    requires LedgerFine(env, s) && record.caseId == c.caseId && record.action == c.action
    requires Monetary(c.action) ==> exists id :: id in s.settlements && s.settlements[id].caseId == c.caseId && s.settlements[id].action == c.action
    ensures LedgerFine(env, SetExecution(s, record))
  {
    hide ReceiptTableOk, SettlementTableOk;
  }

  lemma SetExecutionOnly(s: State, record: ExecutionRecord)
    ensures var s' := SetExecution(s, record);
      SameHeader(s, s') && SameRegistry(s, s') && SameReports(s, s') && SameCases(s, s') && SameReviews(s, s')
  {
  }

  ghost predicate OnlyCasesAndLedger(s: State, s': State)
  {
    SameHeader(s, s') && SameRegistry(s, s') && SameReports(s, s') && SameReviews(s, s')
  }

  lemma ExecuteClosed(env: Env, s: State, c: SanctionCase, record: ExecutionRecord)
    requires KeyedReceipts(s.receipts) && LedgerFine(env, s) && CasesFine(env, s)
    requires c.caseId in s.cases && s.cases[c.caseId] == c && record.caseId == c.caseId && record.action == c.action
    requires Monetary(c.action) ==> Settleable(env, s, c) && UnsettledError(s, s.reports[c.reportIds[0]]).None?
    ensures var s' := ExecuteEffect(env, s, c, record);
      OnlyCasesAndLedger(s, s') && LedgerFine(env, s') && CasesFine(env, s')
  {
    hide Settleable, UnsettledError, LedgerFine, CasesFine, SetCase, SetExecution;
    NamedCase(env, s, c);
    ActionFine(env, s, c);
    var s1 := ActionEffect(env, s, c);
    hide ActionEffect, OnlySettles, OnlyCasesAndLedger;
    SettledParts(env, s, s1);
    FinishClosed(env, s1, c, record, s.height);
    OnlyThrough(s, s1, ExecuteEffect(env, s, c, record));
  }

  lemma NamedCase(env: Env, s: State, c: SanctionCase)
    requires CasesFine(env, s) && c.caseId in s.cases && s.cases[c.caseId] == c
    ensures c.caseId != ""
  {
    assert CaseRecordOk(c);
    hide SnapshotValid;
  }

  lemma SettledParts(env: Env, s: State, s1: State)
    requires OnlySettles(s, s1) && CasesFine(env, s)
    ensures CasesFine(env, s1) && s1.cases == s.cases
  {
    PartsKept(env, s, s1);
    hide CasesFine;
  }

  lemma OnlyThrough(s: State, s1: State, s2: State)
    requires OnlySettles(s, s1) && OnlyCasesAndLedger(s1, s2)
    ensures OnlyCasesAndLedger(s, s2)
  {
  }

  lemma FinishClosed(env: Env, s: State, c: SanctionCase, record: ExecutionRecord, height: Height)
    requires LedgerFine(env, s) && CasesFine(env, s)
    requires c.caseId in s.cases && s.cases[c.caseId] == c && record.caseId == c.caseId && record.action == c.action
    requires Monetary(c.action) ==> exists id :: id in s.settlements && s.settlements[id].caseId == c.caseId && s.settlements[id].action == c.action
    ensures var s' := SetExecution(SetCase(s, c.(status := Executed, executedAt := height)), record);
      OnlyCasesAndLedger(s, s') && LedgerFine(env, s') && CasesFine(env, s')
  {
    var c' := c.(status := Executed, executedAt := height);
    var s2 := SetCase(s, c');
    hide CasesFine, LedgerFine;
    RestatusFine(env, s, c, c');
    SetCaseOnly(s, c');
    PartsKept(env, s, s2);
    assert s2.settlements == s.settlements;
    hide SetCase;
    FinishFine(env, s2, c, record);
    SetExecutionOnly(s2, record);
    PartsKept(env, s2, SetExecution(s2, record));
    hide SetExecution, SameCases;
  }

  // ---- the remaining messages

  lemma RevokeClosed(env: Env, s: State, c: SanctionCase, review: ReviewRecord, reason: string)
    requires CasesFine(env, s) && ReviewsFine(env, s) && c.caseId in s.cases && s.cases[c.caseId] == c
    requires review.caseId in s.reviews && s.reviews[review.caseId] == review && review.reviewedAt <= s.height
    ensures var s' := RevokeEffect(s, c, review, reason);
      && SameHeader(s, s') && SameRegistry(s, s') && SameReports(s, s') && SameLedger(s, s')
      && CasesFine(env, s') && ReviewsFine(env, s')
  {
    var c' := c.(status := Revoked);
    RestatusFine(env, s, c, c');
    var s1, s' := SetCase(s, c'), RevokeEffect(s, c, review, reason);
    assert SameCases(s1, s');
    PartsKept(env, s1, s');
    hide CasesFine, WithoutActive, WithoutFreeze;
  }

  lemma RegisterClosed(s: State, a: AgentInfo)
    requires KeyedAgents(s.agents) && RegistryOk(s) && AgentValid(a) && a.agentId !in s.agents
    requires AgentBySigner(s, a.signer).None?
    ensures RegistryOk(SetAgent(s, a))
  {
    forall id | id in s.agents ensures s.agents[id].signer != a.signer {}
    IndexStep(s.agents, s.signerIndex, a);
    hide IndexExact, LeaseTableOk;
    LeasesFollow(s.agents, s.agents[a.agentId := a], s.leases);
  }

  lemma ClaimClosed(env: Env, s: State, m: Msg)
    requires RegistryOk(s) && m.ClaimLease? && ClaimError(env, s, m).None? && KeyedLeases(s.leases)
    ensures RegistryOk(ClaimEffect(env, s, m))
  {
    var s' := ClaimEffect(env, s, m);
    assert s'.agents == s.agents && s'.signerIndex == s.signerIndex;
    var id := s.signerIndex[m.signer];
    assert id in s.agents && s.agents[id].signer == m.signer;
    hide IndexExact, AgentTableOk, HolderValid;
  }

  lemma ReportClosed(s: State, r: RiskReport)
    requires ReportsOk(s) && ReportRecordOk(r) && r.reportId !in s.reports
    ensures ReportsOk(SetReport(s, r))
  {
  }

  lemma SmallFrames(env: Env, s: State, m: Msg, bankOk: bool)
    requires HandleError(env, s, m, bankOk).None?
    ensures var s' := HandleEffect(env, s, m, bankOk);
      m.RegisterAgent? || m.ClaimLease? || m.Send? ==>
        SameHeader(s, s') && SameReports(s, s') && SameCases(s, s') && SameLedger(s, s') && SameReviews(s, s')
        && (m.Send? ==> SameRegistry(s, s'))
    ensures var s' := HandleEffect(env, s, m, bankOk);
      m.SubmitReport? || m.Review? || m.UpdateParams? ==>
        SameRegistry(s, s') && SameCases(s, s') && SameLedger(s, s')
        && (m.SubmitReport? || SameReports(s, s')) && (m.Review? || SameReviews(s, s')) && (m.UpdateParams? || SameHeader(s, s'))
  {
    hide OpenCaseError, VoteError, ExecuteError, BankSendError, ClaimError, SubmitReportError, RegisterAgentError;
    hide OpenEffect, VoteEffect, ExecuteEffect, RevokeEffect, NewCase, ExecutionOf;
    match m {
      case RegisterAgent(_, _) => OtherFacts(env, s, m, bankOk);
      case SubmitReport(_, _) => OtherFacts(env, s, m, bankOk);
      case OpenCase(_, _, _, _, _, _, _, _, _) =>
      case SubmitVote(_, _) =>
      case Execute(_, _, _) =>
      case Revoke(_, _, _) =>
      case _ =>
    }
  }

  lemma AgentFacts(env: Env, s: State, m: Msg)
    requires m.RegisterAgent? && RegisterAgentError(env, s, m).None?
    ensures m.agent.Some? && AgentValid(m.agent.value) && m.agent.value.agentId !in s.agents
    ensures AgentBySigner(s, m.agent.value.signer).None?
  {
  }

  lemma ReportFacts(env: Env, s: State, m: Msg)
    requires m.SubmitReport? && SubmitReportError(env, s, m).None?
    ensures m.report.Some? && ReportRecordOk(StoredReport(m)) && StoredReport(m).reportId !in s.reports
  {
    hide SignBytes.ReportBytes, VerifySignature;
  }

  lemma AgentParts(env: Env, s: State, m: Msg, bankOk: bool)
    requires KeyedAgents(s.agents) && RegistryOk(s) && m.RegisterAgent? && HandleError(env, s, m, bankOk).None?
    ensures RegistryOk(HandleEffect(env, s, m, bankOk))
  {
    hide RegistryOk, RegisterAgentError;
    AgentFacts(env, s, m);
    RegisterClosed(s, m.agent.value);
    hide SetAgent;
  }

  lemma ReportParts(env: Env, s: State, m: Msg, bankOk: bool)
    requires ReportsOk(s) && m.SubmitReport? && HandleError(env, s, m, bankOk).None?
    ensures ReportsOk(HandleEffect(env, s, m, bankOk))
  {
    hide ReportsOk, SubmitReportError;
    ReportFacts(env, s, m);
    ReportClosed(s, StoredReport(m));
    hide SetReport;
  }

  lemma ReviewParts(env: Env, s: State, m: Msg, bankOk: bool)
    requires ReviewsFine(env, s) && s.height >= 1 && m.Review? && HandleError(env, s, m, bankOk).None? && env.isAddress(m.authority)
    requires CasesFine(env, s) && KeyedCases(s.cases)
    ensures ReviewsFine(env, HandleEffect(env, s, m, bankOk))
  {
    hide SnapshotValid, CaseIndexOk;
    assert CaseRecordOk(s.cases[m.caseId]);
  }

  lemma ParamsParts(env: Env, s: State, m: Msg, bankOk: bool)
    requires HeaderOk(env, s) && m.UpdateParams? && HandleError(env, s, m, bankOk).None?
    ensures HeaderOk(env, HandleEffect(env, s, m, bankOk))
  {
    hide ParamsValid;
  }

  lemma ClaimParts(env: Env, s: State, m: Msg, bankOk: bool)
    requires RegistryOk(s) && KeyedLeases(s.leases) && m.ClaimLease? && HandleError(env, s, m, bankOk).None?
    ensures RegistryOk(HandleEffect(env, s, m, bankOk))
  {
    hide RegistryOk, ClaimError, ClaimEffect;
    ClaimClosed(env, s, m);
  }

  /** What these messages do not touch stays in order. */
  lemma SmallKept(env: Env, s: State, m: Msg, bankOk: bool)
    requires AllParts(env, s) && HandleError(env, s, m, bankOk).None?
    requires !m.OpenCase? && !m.SubmitVote? && !m.Execute? && !m.Revoke?
    ensures var s' := HandleEffect(env, s, m, bankOk);
      && (m.UpdateParams? || HeaderOk(env, s')) && (m.RegisterAgent? || m.ClaimLease? || RegistryOk(s'))
      && (m.SubmitReport? || ReportsOk(s')) && CasesFine(env, s') && LedgerFine(env, s') && (m.Review? || ReviewsFine(env, s'))
  {
    SmallFrames(env, s, m, bankOk);
    PartsKept(env, s, HandleEffect(env, s, m, bankOk));
    hide HandleEffect, HandleError, HeaderOk, RegistryOk, ReportsOk, CasesFine, LedgerFine, ReviewsFine;
    hide SameCases, SameLedger, SameReviews, SameReports, SameRegistry, SameHeader;
  }

  lemma SmallClosed(env: Env, s: State, m: Msg, bankOk: bool)
    requires Closed(env, s) && HandleError(env, s, m, bankOk).None? && env.isAddress(SignerOf(m))
    requires !m.OpenCase? && !m.SubmitVote? && !m.Execute? && !m.Revoke?
    ensures AllParts(env, HandleEffect(env, s, m, bankOk))
  {
    KeyedParts(s);
    hide Keyed, HandleEffect, HandleError, HeaderOk, RegistryOk, ReportsOk, CasesFine, LedgerFine, ReviewsFine;
    SmallKept(env, s, m, bankOk);
    match m {
      case RegisterAgent(_, _) => AgentParts(env, s, m, bankOk);
      case SubmitReport(_, _) => ReportParts(env, s, m, bankOk);
      case Review(_, _, _, _) => ReviewParts(env, s, m, bankOk);
      case UpdateParams(_, _) => ParamsParts(env, s, m, bankOk);
      case ClaimLease(_, _, _, _, _) => ClaimParts(env, s, m, bankOk);
      case Send(_, _, _) =>
    }
  }

  lemma OpenedRecord(env: Env, s: State, m: Msg)
    requires m.OpenCase? && m.caseId != ""
    ensures CaseRecordOk(NewCase(env, s, m)) && NewCase(env, s, m).caseId == m.caseId
  {
    hide VotersOf, GetParams;
  }

  lemma RevokeFacts(env: Env, s: State, m: Msg)
    requires m.Revoke? && RevokeError(env, s, m).None?
    ensures m.caseId in s.cases && m.caseId in s.reviews && s.reviews[m.caseId].reviewedAt < s.height
  {
  }

  lemma HandleExecute(env: Env, s: State, m: Msg, bankOk: bool)
    requires KeyedCases(s.cases) && KeyedReceipts(s.receipts) && LedgerFine(env, s) && CasesFine(env, s)
    requires m.Execute? && HandleError(env, s, m, bankOk).None?
    ensures var s' := HandleEffect(env, s, m, bankOk);
      OnlyCasesAndLedger(s, s') && LedgerFine(env, s') && CasesFine(env, s')
  {
    hide ExecuteError, ExecuteEffect, Settleable, UnsettledError, LedgerFine, CasesFine, OnlyCasesAndLedger;
    ExecuteFacts(env, s, m, bankOk);
    var c := s.cases[m.caseId];
    RecordFields(env, s, c, m.executor, m.resultMessage);
    hide ExecutionOf;
    ExecuteClosed(env, s, c, ExecutionOf(env, s, c, m.executor, m.resultMessage));
  }

  /** An effect that leaves everything but the cases alone. */
  lemma CasesOnlyParts(env: Env, s: State, s': State)
    requires AllParts(env, s) && OnlyCases(s, s') && CasesFine(env, s')
    ensures AllParts(env, s')
  {
    PartsKept(env, s, s');
    hide HeaderOk, RegistryOk, ReportsOk, CasesFine, LedgerFine, ReviewsFine;
  }

  lemma OpenParts(env: Env, s: State, m: Msg)
    requires AllParts(env, s) && KeyedCases(s.cases) && m.OpenCase? && OpenCaseError(env, s, m).None?
    ensures m.previous != "" ==> m.previous in s.cases
    ensures AllParts(env, OpenEffect(s, m.previous, NewCase(env, s, m)))
  {
    hide OpenEffect, SnapshotValid, CasesFine, OnlyCases, AllParts;
    OpenFacts(env, s, m);
    AcceptedOpening(env, s, m);
    OpenedRecord(env, s, m);
    hide OpenCaseError, NewCase;
    assert CasesFine(env, s) by { PartsCases(env, s); }
    OpenClosed(env, s, m.previous, NewCase(env, s, m));
    CasesOnlyParts(env, s, OpenEffect(s, m.previous, NewCase(env, s, m)));
  }

  lemma PartsCases(env: Env, s: State)
    requires AllParts(env, s)
    ensures CasesFine(env, s)
  {
  }

  lemma RevokeParts(env: Env, s: State, m: Msg, bankOk: bool)
    requires AllParts(env, s) && KeyedCases(s.cases) && KeyedReviews(s.reviews)
    requires m.Revoke? && HandleError(env, s, m, bankOk).None?
    ensures AllParts(env, HandleEffect(env, s, m, bankOk))
  {
    hide RevokeEffect, RevokeError, HeaderOk, RegistryOk, ReportsOk, CasesFine, LedgerFine, ReviewsFine;
    RevokeFacts(env, s, m);
    RevokeClosed(env, s, s.cases[m.caseId], s.reviews[m.caseId], m.reason);
    PartsKept(env, s, HandleEffect(env, s, m, bankOk));
  }

  lemma HandleParts(env: Env, s: State, m: Msg, bankOk: bool)
    requires Closed(env, s) && HandleError(env, s, m, bankOk).None? && env.isAddress(SignerOf(m))
    ensures AllParts(env, HandleEffect(env, s, m, bankOk))
  {
    KeyedParts(s);
    hide OpenCaseError, VoteError, ExecuteError, BankSendError, ClaimError, SubmitReportError, RegisterAgentError, RevokeError;
    hide OpenEffect, VoteEffect, ExecuteEffect, RevokeEffect, NewCase, Keyed;
    match m {
      case OpenCase(_, _, _, _, _, _, _, _, _) => hide AllParts; OpenParts(env, s, m);
      case SubmitVote(_, v) =>
        VoteFacts(env, s, m);
        VoteClosed(env, s, v.value);
        hide CasesFine, OnlyCases;
        CasesOnlyParts(env, s, VoteEffect(s, v.value));
        hide AllParts;
      case Execute(_, _, _) =>
        HandleExecute(env, s, m, bankOk);
        hide HandleEffect, HandleError, HeaderOk, RegistryOk, ReportsOk, CasesFine, LedgerFine, ReviewsFine;
        PartsKept(env, s, HandleEffect(env, s, m, bankOk));
      case Revoke(_, _, _) => hide AllParts; RevokeParts(env, s, m, bankOk);
      case _ => hide Closed, HandleEffect, AllParts; SmallClosed(env, s, m, bankOk);
    }
  }

  /** Every accepted message of a valid signer keeps the invariant. */
  lemma HandleClosed(env: Env, s: State, m: Msg, bankOk: bool)
    requires Closed(env, s) && HandleError(env, s, m, bankOk).None? && env.isAddress(SignerOf(m))
    ensures Closed(env, HandleEffect(env, s, m, bankOk))
  {
    HandleParts(env, s, m, bankOk);
    assert Keyed(s) && s.height >= 1;
    HandleSound(env, s, m, bankOk);
    HandleContext(env, s, m, bankOk);
    hide Keyed, Extends, HandleEffect, HandleError, AllParts;
  }

  // ---- whole transactions

  lemma {:induction false} CallsClosed(env: Env, s: State, calls: seq<Call>)
    requires Closed(env, s) && RunCalls(env, s, calls).Some?
    requires forall i :: 0 <= i < |calls| ==> env.isAddress(SignerOf(calls[i].msg))
    ensures Closed(env, RunCalls(env, s, calls).value)
  {
    hide Closed, HandleEffect, HandleError;
    if calls != [] {
      var init, call := calls[..|calls| - 1], calls[|calls| - 1];
      CallsClosed(env, s, init);
      HandleClosed(env, RunCalls(env, s, init).value, call.msg, call.bankOk);
    }
  }

  /** What the bank has checked of a send that went through. */
  ghost predicate SendFine(env: Env, m: Msg)
  {
    m.Send? ==> env.isAddress(m.from) && env.isAddress(m.to) && CoinsValid(env, m.coins)
  }

  lemma SendFacts(env: Env, s: State, m: Msg, bankOk: bool)
    requires HandleError(env, s, m, bankOk).None?
    ensures SendFine(env, m)
  {
    hide OpenCaseError, VoteError, ExecuteError, ClaimError, SubmitReportError, RegisterAgentError, CoinsValid;
  }

  lemma {:induction false} SendsFine(env: Env, s: State, calls: seq<Call>)
    requires RunCalls(env, s, calls).Some?
    ensures forall i :: 0 <= i < |calls| ==> SendFine(env, calls[i].msg)
  {
    hide SendFine, HandleEffect, HandleError;
    if calls != [] {
      var init, call := calls[..|calls| - 1], calls[|calls| - 1];
      SendsFine(env, s, init);
      SendFacts(env, RunCalls(env, s, init).value, call.msg, call.bankOk);
      assert forall i :: 0 <= i < |init| ==> init[i] == calls[i];
    }
  }

  lemma ReceiptFine(env: Env, tx: Tx, index: uint32, m: Msg, k: nat, height: Height)
    requires CoinLaw(env) && m.Send? && k < |m.coins| && |tx.hash| == 32 && height >= 1 && SendFine(env, m)
    ensures ReceiptRecordOk(env, ReceiptOf(tx, index, m, k, height))
  {
    var c := m.coins[k];
    assert env.parseCoin(Decimal.Format(c.amount) + c.denom) == Some((c.amount, c.denom));
  }

  lemma {:induction false} CoinsFine(env: Env, s: State, tx: Tx, index: uint32, m: Msg, n: nat)
    requires CoinLaw(env) && m.Send? && n <= |m.coins| && |tx.hash| == 32 && s.height >= 1 && SendFine(env, m)
    requires ReceiptTableOk(env, s.receipts)
    ensures ReceiptTableOk(env, RecordCoins(s, tx, index, m, n).receipts)
    ensures RecordCoins(s, tx, index, m, n).height == s.height
  {
    hide ReceiptRecordOk, SendFine, CoinLaw, ReceiptOf;
    if n > 0 {
      CoinsFine(env, s, tx, index, m, n - 1);
      ReceiptFine(env, tx, index, m, n - 1, s.height);
    }
  }

  lemma {:induction false} TransfersFine(env: Env, s: State, tx: Tx, n: nat)
    requires CoinLaw(env) && n <= |tx.calls| && |tx.hash| == 32 && s.height >= 1 && ReceiptTableOk(env, s.receipts)
    requires forall i :: 0 <= i < |tx.calls| ==> SendFine(env, tx.calls[i].msg)
    ensures ReceiptTableOk(env, RecordTransfers(s, tx, n).receipts)
    ensures RecordTransfers(s, tx, n).height == s.height
  {
    hide ReceiptTableOk, CoinLaw, SendFine;
    if n > 0 {
      TransfersFine(env, s, tx, n - 1);
      var m := tx.calls[n - 1].msg;
      if m.Send? { CoinsFine(env, RecordTransfers(s, tx, n - 1), tx, (n - 1) % U32, m, |m.coins|); }
    }
  }

  lemma MoreReceipts(env: Env, s: State, s': State, hash: Bytes)
    requires Closed(env, s) && OnlyReceipts(s, s', hash) && Sound(s, s') && ReceiptTableOk(env, s'.receipts)
    ensures Closed(env, s')
  {
    assert Grows(s.receipts, s'.receipts);
    assert SameHeader(s, s') && SameRegistry(s, s') && SameReports(s, s') && SameCases(s, s') && SameReviews(s, s');
    PartsKept(env, s, s');
    hide Keyed, HeaderOk, RegistryOk, ReportsOk, CasesFine, ReviewsFine, ReceiptTableOk, ExecutionTableOk;
  }

  lemma DeliverClosed(env: Env, s: State, tx: Tx)
    requires Closed(env, s) && CoinLaw(env) && StepOk(env, s, DeliverTx(tx))
    ensures Closed(env, Deliver(env, s, tx))
  {
    hide RunCalls, RecordTransfers, AnteError, Keyed, Extends, OnlyReceipts, SendFine;
    if AnteError(s, tx).None? && RunCalls(env, s, tx.calls).Some? {
      CallsClosed(env, s, tx.calls);
      RunCallsSound(env, s, tx.calls);
      SendsFine(env, s, tx.calls);
      var s1 := RunCalls(env, s, tx.calls).value;
      KeyedParts(s1);
      assert LedgerFine(env, s1) && s1.height >= 1;
      RecordTransfersOnly(s1, tx, |tx.calls|);
      hide LedgerFine, CoinLaw;
      assert ReceiptTableOk(env, s1.receipts) by { LedgerReceipts(env, s1); }
      TransfersFine(env, s1, tx, |tx.calls|);
      ReceiptsSound(s1, Deliver(env, s, tx), tx.hash);
      hide Closed, ReceiptTableOk;
      MoreReceipts(env, s1, Deliver(env, s, tx), tx.hash);
    }
  }

  lemma LedgerReceipts(env: Env, s: State)
    requires LedgerFine(env, s)
    ensures ReceiptTableOk(env, s.receipts)
  {
  }

  // ---- the registry sync

  lemma SetAgentOnly(s: State, a: AgentInfo)
    ensures var s' := SetAgent(s, a);
      SameHeader(s, s') && SameReports(s, s') && SameCases(s, s') && SameLedger(s, s') && SameReviews(s, s') && s'.leases == s.leases
  {
  }

  ghost predicate OnlyAgents(s: State, s': State)
  {
    SameHeader(s, s') && SameReports(s, s') && SameCases(s, s') && SameLedger(s, s') && SameReviews(s, s') && s'.leases == s.leases
  }

  lemma {:induction false} RefreshOnlyAgents(acc: RegistrySync.Synced, agents: seq<AgentInfo>, states: seq<RegistrySync.ValidatorState>)
    ensures OnlyAgents(acc.state, RegistrySync.RefreshAll(acc, agents, states).state)
  {
    hide RegistrySync.Refresh, RegistrySync.Lookup, RegistrySync.Electable, SetAgent;
    if agents != [] {
      var init, a := agents[..|agents| - 1], agents[|agents| - 1];
      RefreshOnlyAgents(acc, init, states);
      SetAgentOnly(RegistrySync.RefreshAll(acc, init, states).state, RegistrySync.Refresh(a, RegistrySync.Lookup(states, a.operator)));
    }
  }

  lemma {:induction false} CreateOnlyAgents(acc: RegistrySync.Synced, states: seq<RegistrySync.ValidatorState>)
    ensures OnlyAgents(acc.state, RegistrySync.CreateAll(acc, states).state)
  {
    hide RegistrySync.Creatable, RegistrySync.NewAgent, SetAgent;
    if states != [] {
      var init, v := states[..|states| - 1], states[|states| - 1];
      CreateOnlyAgents(acc, init);
      SetAgentOnly(RegistrySync.CreateAll(acc, init).state, RegistrySync.NewAgent(v));
    }
  }

  lemma SyncOnlyAgents(s: State, states: seq<RegistrySync.ValidatorState>)
    ensures OnlyAgents(s, RegistrySync.Sync(s, states).state)
  {
    hide RegistrySync.RefreshAll, RegistrySync.CreateAll;
    RefreshOnlyAgents(RegistrySync.Synced(s, 0, 0), RegistrySync.AllAgents(s.agents), states);
    CreateOnlyAgents(RegistrySync.Refreshed(s, states), states);
  }

  lemma LeasesFollow(t: Agents, t': Agents, leases: map<string, Lease>)
    requires LeaseTableOk(leases, t) && forall id :: id in t ==> id in t' && t'[id].signer == t[id].signer
    ensures LeaseTableOk(leases, t')
  {
    forall k | k in leases ensures LeaseRecordOk(leases[k]) && exists id :: id in t' && t'[id].signer == leases[k].signer {
      var id :| id in t && t[id].signer == leases[k].signer;
      assert id in t';
    }
  }

  lemma RegistryMeans(s: State)
    ensures RegistryOk(s) && KeyedAgents(s.agents) <==> AgentsOk(s) && LeaseTableOk(s.leases, s.agents)
  {
    if AgentsOk(s) { ExactDistinct(s.agents, s.signerIndex); }
    hide IndexExact, LeaseTableOk;
  }

  lemma SyncRegistry(s: State, states: seq<RegistrySync.ValidatorState>)
    requires KeyedAgents(s.agents) && RegistryOk(s)
    ensures RegistryOk(RegistrySync.Sync(s, states).state) <==> SyncFresh(s.agents, states)
    ensures DistinctSigners(RegistrySync.Sync(s, states).state.agents) <==> SyncFresh(s.agents, states)
  {
    var s' := RegistrySync.Sync(s, states).state;
    RegistryMeans(s);
    RegistryMeans(s');
    SyncKeepsSigners(s, states);
    SyncedAgentsValid(s, states, s');
    forall id | id in s.agents ensures id in s'.agents && s'.agents[id].signer == s.agents[id].signer {
      SyncKeepsIdentity(s, states, id);
    }
    LeasesFollow(s.agents, s'.agents, s.leases);
    assert s'.leases == s.leases by { SyncOnlyAgents(s, states); hide RegistrySync.Sync; }
    hide RegistrySync.Sync, SyncFresh, AgentsOk, LeaseTableOk, DistinctSigners;
  }

  /** A sync keeps the invariant exactly when staking supplies fresh signers. */
  lemma SyncClosed(env: Env, s: State, states: seq<RegistrySync.ValidatorState>)
    requires Closed(env, s)
    ensures Closed(env, RegistrySync.Sync(s, states).state) <==> SyncFresh(s.agents, states)
    ensures Exportable(env, RegistrySync.Sync(s, states).state) <==> SyncFresh(s.agents, states)
  {
    var s' := RegistrySync.Sync(s, states).state;
    SyncOnlyAgents(s, states);
    PartsKept(env, s, s');
    SyncSound(s, states);
    KeyedParts(s);
    SyncRegistry(s, states);
    ClosedMeans(env, s');
    hide RegistrySync.Sync, SyncFresh, HeaderOk, RegistryOk, ReportsOk, CasesFine, LedgerFine, ReviewsFine;
    hide Keyed, Extends, IndexesExact;
    if Exportable(env, s') { ExportableAgents(env, s'); }
    hide Exportable, DistinctSigners;
  }

  lemma ExportableAgents(env: Env, s: State)
    requires Exportable(env, s)
    ensures DistinctSigners(s.agents)
  {
  }

  // ---- every run

  ghost predicate StepFresh(s: State, step: Step)
  {
    step.EndBlock? ==> SyncFresh(s.agents, step.states)
  }

  lemma ApplyClosed(env: Env, s: State, step: Step)
    requires Closed(env, s) && CoinLaw(env) && StepOk(env, s, step)
    ensures Closed(env, Apply(env, s, step)) <==> StepFresh(s, step)
    ensures Exportable(env, Apply(env, s, step)) <==> StepFresh(s, step)
  {
    hide CoinLaw, Keyed, Extends, SyncFresh;
    match step {
      case DeliverTx(tx) =>
        DeliverClosed(env, s, tx);
        ClosedMeans(env, Deliver(env, s, tx));
        hide Deliver, Closed;
      case EndBlock(states) =>
        SyncClosed(env, s, states);
        hide Closed, RegistrySync.Sync;
      case NextHeight(h) =>
        HeightClosed(env, s, h);
        ClosedMeans(env, s.(height := h));
        hide Closed;
    }
    hide Exportable;
  }

  lemma HeightClosed(env: Env, s: State, h: Height)
    requires Closed(env, s) && h > s.height
    ensures Closed(env, s.(height := h))
  {
    var s' := s.(height := h);
    HeightSound(s, h);
    assert SameRegistry(s, s') && SameReports(s, s') && SameCases(s, s') && SameLedger(s, s') && SameReviews(s, s');
    assert SameHeader(s, s'.(height := s.height));
    PartsKept(env, s, s');
    hide Keyed, RegistryOk, ReportsOk, CasesFine, LedgerFine, ReviewsFine;
  }

  /** Every sync of the run brought fresh signers. */
  ghost predicate RunFresh(env: Env, s: State, steps: seq<Step>)
  {
    steps != [] ==>
      && RunFresh(env, s, steps[..|steps| - 1])
      && StepFresh(Run(env, s, steps[..|steps| - 1]), steps[|steps| - 1])
  }

  /** Every state along the run meets the global invariant. */
  ghost predicate AlwaysExportable(env: Env, s: State, steps: seq<Step>)
  {
    Exportable(env, Run(env, s, steps)) && (steps != [] ==> AlwaysExportable(env, s, steps[..|steps| - 1]))
  }

  lemma {:induction false} RunClosed(env: Env, s: State, steps: seq<Step>)
    requires Closed(env, s) && CoinLaw(env) && RunOk(env, s, steps)
    ensures RunFresh(env, s, steps) ==> Closed(env, Run(env, s, steps))
    ensures AlwaysExportable(env, s, steps) <==> RunFresh(env, s, steps)
  {
    hide CoinLaw, Apply, StepFresh;
    if steps == [] {
      ClosedMeans(env, s);
      hide Closed, Exportable;
    } else {
      hide Closed, Exportable;
      var init := steps[..|steps| - 1];
      RunClosed(env, s, init);
      if RunFresh(env, s, init) {
        ApplyClosed(env, Run(env, s, init), steps[|steps| - 1]);
      }
    }
  }

  lemma {:induction false} RunNoOrphans(env: Env, s: State, steps: seq<Step>)
    requires Keyed(s) && RunOk(env, s, steps) && NoOrphans(s)
    ensures NoOrphans(Run(env, s, steps))
  {
    hide Apply, Keyed, NoOrphans;
    if steps != [] {
      var init := steps[..|steps| - 1];
      RunNoOrphans(env, s, init);
      RunSound(env, s, init);
      StepNoOrphans(env, Run(env, s, init), steps[|steps| - 1]);
    }
  }

  lemma VoteTable(s: State, v: SanctionVote)
    requires v.caseId in s.cases
    ensures VoteEffect(s, v).votes == s.votes[(v.caseId, v.agentId) := v]
  {
    hide Activates, RecomputedStatus;
  }

  /** A vote is stored only by the vote handler, which has found its case. */
  lemma VotesAfter(env: Env, s: State, m: Msg, bankOk: bool)
    requires HandleError(env, s, m, bankOk).None?
    ensures forall k :: k in HandleEffect(env, s, m, bankOk).votes ==> k in s.votes || k.0 in s.cases
  {
    hide OpenCaseError, VoteError, ExecuteError, BankSendError, ClaimError, SubmitReportError, RegisterAgentError;
    hide OpenEffect, VoteEffect, ExecuteEffect, NewCase, ExecutionOf, Settleable, UnsettledError;
    match m {
      case SubmitVote(_, v) =>
        VoteFacts(env, s, m);
        VoteTable(s, v.value);
      case OpenCase(_, _, _, _, _, _, _, _, _) =>
        OpenFacts(env, s, m);
        OpenVotes(s, m.previous, NewCase(env, s, m));
      case Execute(executor, id, message) =>
        ExecuteFacts(env, s, m, bankOk);
        ExecuteTables(env, s, s.cases[id], ExecutionOf(env, s, s.cases[id], executor, message));
      case Revoke(_, _, _) =>
        OtherFacts(env, s, m, bankOk);
        hide WithoutActive, WithoutFreeze, IndexByTx, IndexByAddress;
      case _ => OtherMessages(env, s, m, bankOk); hide HandleEffect;
    }
  }

  lemma HandleVotes(env: Env, s: State, m: Msg, bankOk: bool)
    requires Keyed(s) && HandleError(env, s, m, bankOk).None? && NoOrphans(s)
    ensures NoOrphans(HandleEffect(env, s, m, bankOk))
  {
    VotesAfter(env, s, m, bankOk);
    HandleSound(env, s, m, bankOk);
    hide HandleEffect, HandleError, Keyed;
  }

  lemma OpenVotes(s: State, previous: string, c: SanctionCase)
    requires previous != "" ==> previous in s.cases
    ensures OpenEffect(s, previous, c).votes == s.votes
  {
    hide IndexByTx, IndexByAddress;
  }

  lemma {:induction false} CallsVotes(env: Env, s: State, calls: seq<Call>)
    requires Keyed(s) && RunCalls(env, s, calls).Some? && NoOrphans(s)
    ensures NoOrphans(RunCalls(env, s, calls).value)
  {
    hide HandleEffect, HandleError, Keyed, NoOrphans, Extends;
    if calls != [] {
      var init, call := calls[..|calls| - 1], calls[|calls| - 1];
      CallsVotes(env, s, init);
      RunCallsSound(env, s, init);
      HandleVotes(env, RunCalls(env, s, init).value, call.msg, call.bankOk);
    }
  }

  lemma StepNoOrphans(env: Env, s: State, step: Step)
    requires Keyed(s) && StepOk(env, s, step) && NoOrphans(s)
    ensures NoOrphans(Apply(env, s, step))
  {
    hide RunCalls, RecordTransfers, AnteError, Keyed, Extends;
    match step {
      case DeliverTx(tx) =>
        if AnteError(s, tx).None? && RunCalls(env, s, tx.calls).Some? {
          CallsVotes(env, s, tx.calls);
          RunCallsSound(env, s, tx.calls);
          var s1 := RunCalls(env, s, tx.calls).value;
          KeyedParts(s1);
          RecordTransfersOnly(s1, tx, |tx.calls|);
          hide NoOrphans;
          SameVotes(s1, Deliver(env, s, tx));
        }
      case EndBlock(states) =>
        SyncOnlyAgents(s, states);
        SyncVotes(s, states);
        hide RegistrySync.Sync, NoOrphans;
        SameVotes(s, RegistrySync.Sync(s, states).state);
      case NextHeight(h) =>
    }
  }

  lemma SameVotes(s: State, s': State)
    requires s'.votes == s.votes && s'.cases == s.cases && NoOrphans(s)
    ensures NoOrphans(s')
  {
  }

  lemma SyncVotes(s: State, states: seq<RegistrySync.ValidatorState>)
    ensures RegistrySync.Sync(s, states).state.votes == s.votes
  {
    Runs.SyncQuiet(s, states);
    hide RegistrySync.Sync;
  }

  /** Whoever always meets the invariant met it at the start. */
  lemma {:induction false} AlwaysAtStart(env: Env, s: State, steps: seq<Step>)
    requires AlwaysExportable(env, s, steps)
    ensures Exportable(env, s)
  {
    hide Exportable;
    if steps != [] { AlwaysAtStart(env, s, steps[..|steps| - 1]); }
  }

  /**
   * Genesis closure. Start from any genesis that validates and run any steps: every state on the way meets the
   * global invariant, and so exports a genesis that validates, exactly when the authority in force is usable and
   * each sync brought fresh signers.
   */
  lemma GenesisClosure(env: Env, s0: State, g: GenesisState, steps: seq<Step>)
    requires CoinLaw(env) && s0.height >= 1 && GenesisValid(env, g)
    requires RunOk(env, Import(Bare(s0), g), steps)
    ensures var s := Import(Bare(s0), g);
      && (AlwaysExportable(env, s, steps) <==> AuthorityUsable(env, g) && RunFresh(env, s, steps))
      && Keyed(Run(env, s, steps))
      && forall h :: Exports(env, Run(env, s, steps), h) ==> (GenesisValid(env, h) <==> Exportable(env, Run(env, s, steps)))
  {
    var s := Import(Bare(s0), g);
    ImportValid(env, s0, g);
    ClosedMeans(env, s);
    RunSound(env, s, steps);
    hide Import, Keyed, Extends, GenesisValid, Exportable, IndexesExact, Run, RunOk, RunFresh, AlwaysExportable, CoinLaw, AuthorityUsable;
    if AuthorityUsable(env, g) { RunClosed(env, s, steps); }
    if AlwaysExportable(env, s, steps) { AlwaysAtStart(env, s, steps); }
    var s' := Run(env, s, steps);
    hide Closed, Exports;
    forall h | Exports(env, s', h) ensures GenesisValid(env, h) <==> Exportable(env, s') { ExportValidity(env, s', h); }
  }

  /**
   * And importing that export resumes the chain, with the same tables, indexes, parameters and authority, exactly
   * when no vote lacks its case; a start without such votes never gets any.
   */
  lemma ExportResumes(env: Env, s0: State, g: GenesisState, steps: seq<Step>, h: GenesisState)
    requires CoinLaw(env) && s0.height >= 1 && GenesisValid(env, g) && AuthorityUsable(env, g)
    requires RunOk(env, Import(Bare(s0), g), steps) && RunFresh(env, Import(Bare(s0), g), steps)
    requires Exports(env, Run(env, Import(Bare(s0), g), steps), h)
    ensures var s := Import(Bare(s0), g); var s' := Run(env, s, steps);
      && (Import(Bare(s'), h) == Normal(env, s') <==> NoOrphans(s'))
      && (NoOrphans(s) ==> NoOrphans(s'))
  {
    var s := Import(Bare(s0), g);
    ImportValid(env, s0, g);
    ClosedMeans(env, s);
    RunClosed(env, s, steps);
    if NoOrphans(s) { RunNoOrphans(env, s, steps); }
    hide GenesisValid, Exportable, Run, RunOk, RunFresh, AlwaysExportable, CoinLaw, NoOrphans, AuthorityUsable;
    var s' := Run(env, s, steps);
    ClosedMeans(env, s');
    hide Closed, Import, Keyed, Exports, IndexesExact;
    RoundTrip(env, s', h);
  }
}
