/** The evidence checked when a case opens is still there when it executes. */
module Evidence {
  import opened Basics
  import opened Types
  import opened Store
  import opened Handlers
  import opened Frames
  import opened Electorate
  import Policy

  type Reps = map<string, RiskReport>
  type Receipts = map<TransferId, OriginalTransfer>

  /** The report names a committed transfer of valid coins between valid addresses. */
  ghost predicate Backed(env: Env, receipts: Receipts, height: Height, r: RiskReport)
  {
    && var id := TransferId(r.txHash, r.messageIndex, r.denom);
    && id in receipts && receipts[id].height < height
    && receipts[id].sender == r.sender && receipts[id].recipient == r.recipient && receipts[id].amount == r.amount
    && CoinsOk(env, r) && env.isAddress(r.recipient) && env.isAddress(r.sender)
  }

  ghost predicate EvidenceOk(env: Env, reports: Reps, receipts: Receipts, height: Height, c: SanctionCase)
  {
    && |c.txHash| == 32
    && c.reportIds != [] && c.reportIds[0] in reports
    && c.action in {Watch, BlockTx, FreezeAddress, RevertTransfer}
    && (c.action in {FreezeAddress, RevertTransfer} ==> c.targetType == AddressTarget)
    && (c.targetType == AddressTarget ==> c.target != "")
    && var r := reports[c.reportIds[0]];
    && r.txHash == c.txHash && (c.target != "" ==> r.recipient == c.target)
    && (c.action == RevertTransfer ==> Backed(env, receipts, height, r))
  }

  ghost predicate AllEvidence(env: Env, s: State)
  {
    forall id :: id in s.cases ==> EvidenceOk(env, s.reports, s.receipts, s.height, s.cases[id])
  }

  lemma EvidenceStable(env: Env, s: State, s': State, c: SanctionCase, c': SanctionCase)
    requires EvidenceOk(env, s.reports, s.receipts, s.height, c) && SameOpening(c, c')
    requires Grows(s.reports, s'.reports) && Grows(s.receipts, s'.receipts) && s.height <= s'.height
    ensures EvidenceOk(env, s'.reports, s'.receipts, s'.height, c')
  {
    hide CoinsOk;
  }

  /** Steps that open no case keep all evidence. */
  lemma EvidenceKept(env: Env, s: State, s': State)
    requires AllEvidence(env, s) && Extends(s, s') && s'.cases.Keys == s.cases.Keys
    ensures AllEvidence(env, s')
  {
    hide EvidenceOk, SameOpening;
    forall id | id in s'.cases ensures EvidenceOk(env, s'.reports, s'.receipts, s'.height, s'.cases[id]) {
      EvidenceStable(env, s, s', s.cases[id], s'.cases[id]);
    }
  }

  /** What opening checks about the primary report and the action. */
  lemma OpenedEvidence(env: Env, s: State, m: Msg)
    requires m.OpenCase? && OpenCaseError(env, s, m).None?
    ensures EvidenceOk(env, s.reports, s.receipts, s.height, NewCase(env, s, m))
  {
    hide SnapshotValid, HasSuccessor, CoinsOk;
    NewCaseFields(env, s, m);
    ReportsFound(env, s, m, m.reportIds, None);
    assert m.reportIds[0] in m.reportIds;
    Policy.PolicyReach(Reports(s, m.reportIds), GetParams(s), m.targetType);
    hide NewCase, DraftCase, Policy.PolicyAction;
    assert ReportError(env, s, m, s.reports[m.reportIds[0]], None).None?;
  }

  lemma OpenEvidence(env: Env, s: State, previous: string, c: SanctionCase)
    requires AllEvidence(env, s) && Keyed(s) && (previous != "" ==> previous in s.cases) && c.caseId !in s.cases
    requires EvidenceOk(env, s.reports, s.receipts, s.height, c)
    ensures AllEvidence(env, OpenEffect(s, previous, c))
  {
    hide EvidenceOk, Keyed;
    if previous != "" {
      EvidenceStable(env, s, s, s.cases[previous], s.cases[previous].(status := Expired));
      assert s.cases[previous].caseId == previous by { KeyedAt(s, previous); }
    }
  }
}
