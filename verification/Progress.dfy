/** When an approved revert executes. */
module Progress {
  import opened Basics
  import opened Types
  import opened Store
  import opened Handlers
  import opened Frames
  import opened Chain
  import opened Electorate
  import opened Evidence
  import opened Replacement
  import opened Runs
  import opened Effects

  /** What can still stand between an approved revert and its execution. */
  ghost predicate Ready(env: Env, s: State, c: SanctionCase, bankOk: bool)
    requires c.reportIds != [] && c.reportIds[0] in s.reports
  {
    var r := s.reports[c.reportIds[0]];
    && (c.unanimous ==> AllApproved(s.votes, c))
    && !(0 < r.expiry <= s.height)
    && TransferId(r.txHash, r.messageIndex, r.denom) !in s.settlements
    && env.hasBank && bankOk
    && (env.parseInt(r.amount).Some? ==> Balance(s, env.account(r.recipient), r.denom) >= env.parseInt(r.amount).value)
  }

  lemma SettleReady(env: Env, s: State, c: SanctionCase, bankOk: bool)
    requires EvidenceOk(env, s.reports, s.receipts, s.height, c) && c.action == RevertTransfer && KeyedReceipts(s.receipts)
    ensures var r := s.reports[c.reportIds[0]];
      SettleError(env, s, c, bankOk).None? <==>
        && TransferId(r.txHash, r.messageIndex, r.denom) !in s.settlements && env.hasBank && bankOk
        && (env.parseInt(r.amount).Some? ==> Balance(s, env.account(r.recipient), r.denom) >= env.parseInt(r.amount).value)
  {
  }

  lemma ExecuteReady(env: Env, s: State, m: Msg, bankOk: bool)
    requires Inv(env, s) && m.Execute? && m.caseId in s.cases
    requires s.cases[m.caseId].status == Approved && s.cases[m.caseId].action == RevertTransfer
    ensures s.cases[m.caseId].reportIds != [] && s.cases[m.caseId].reportIds[0] in s.reports
    ensures ExecuteError(env, s, m, bankOk).None? <==> env.isAddress(m.executor) && Ready(env, s, s.cases[m.caseId], bankOk)
  {
    RevertFacts(env, s, m.caseId);
    SettleReady(env, s, s.cases[m.caseId], bankOk);
    RevertChecks(env, s, m, bankOk);
    UnanimousAll(env, s.votes, s.cases[m.caseId]);
    hide Inv, EvidenceOk, ExecuteError, SettleError, Unanimous, AllApproved, SnapshotValid;
  }

  /** What the invariant says of an approved revert. */
  lemma RevertFacts(env: Env, s: State, id: string)
    requires Inv(env, s) && id in s.cases && s.cases[id].status == Approved && s.cases[id].action == RevertTransfer
    ensures var c := s.cases[id];
      && KeyedReceipts(s.receipts) && id !in s.executions && SnapshotValid(env, c)
      && EvidenceOk(env, s.reports, s.receipts, s.height, c) && c.reportIds != [] && c.reportIds[0] in s.reports
  {
    InvKeyed(env, s);
    KeyedAt(s, id);
    assert EvidenceOk(env, s.reports, s.receipts, s.height, s.cases[id]);
    assert CaseOk(env, s.votes, s.executions, s.cases[id]);
    hide Keyed, Backed, ChainsOk, EffectsOk, VotesOk, QuorumMet, AllApproved, SnapshotValid;
  }

  /** What execution checks of an approved revert, besides its settlement. */
  lemma RevertChecks(env: Env, s: State, m: Msg, bankOk: bool)
    requires m.Execute? && m.caseId in s.cases && m.caseId !in s.executions && SnapshotValid(env, s.cases[m.caseId])
    requires var c := s.cases[m.caseId];
      c.status == Approved && c.action == RevertTransfer && c.reportIds != [] && c.reportIds[0] in s.reports
    ensures var c := s.cases[m.caseId];
      ExecuteError(env, s, m, bankOk).None? <==>
        && env.isAddress(m.executor) && (c.unanimous ==> Unanimous(s.votes, c))
        && !(0 < s.reports[c.reportIds[0]].expiry <= s.height) && SettleError(env, s, c, bankOk).None?
  {
    hide SettleError, Unanimous, SnapshotValid;
  }

  /**
   * An approved revert executes exactly when the executor's address is well formed, required
   * unanimity is there, the primary evidence has not expired, the transfer is unsettled, and
   * the bank is configured, willing and covered. Every check made at opening still holds.
   */
  lemma ApprovedRevertExecutes(env: Env, s0: State, steps: seq<Step>, m: Msg, bankOk: bool)
    requires Fresh(s0) && Keyed(s0) && RunOk(env, s0, steps) && m.Execute?
    requires m.caseId in Run(env, s0, steps).cases
    requires var c := Run(env, s0, steps).cases[m.caseId]; c.status == Approved && c.action == RevertTransfer
    ensures var s := Run(env, s0, steps); var c := s.cases[m.caseId];
      && c.reportIds != [] && c.reportIds[0] in s.reports
      && (ExecuteError(env, s, m, bankOk).None? <==> env.isAddress(m.executor) && Ready(env, s, c, bankOk))
  {
    hide Run, RunOk, Fresh, Keyed, Inv, ExecuteError, Ready;
    RunInv(env, s0, steps);
    ExecuteReady(env, Run(env, s0, steps), m, bankOk);
  }

  /** No case of a fresh chain ever asks for escrow, so its handler only serves imported cases. */
  lemma EscrowIsNeverOpened(env: Env, s0: State, steps: seq<Step>, id: string)
    requires Fresh(s0) && Keyed(s0) && RunOk(env, s0, steps) && id in Run(env, s0, steps).cases
    ensures var c := Run(env, s0, steps).cases[id];
      c.action in {Watch, BlockTx, FreezeAddress, RevertTransfer}
      && (c.action in {FreezeAddress, RevertTransfer} ==> c.targetType == AddressTarget && c.target != "")
  {
    hide Run, RunOk, Fresh, Keyed, Decided, ChainsOk, EffectsOk;
    RunInv(env, s0, steps);
    var s := Run(env, s0, steps);
    assert EvidenceOk(env, s.reports, s.receipts, s.height, s.cases[id]);
  }
}
