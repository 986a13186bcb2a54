/** x/sanction/keeper/msg_server.go and the lease claim: the handlers, step by step on the store. */
module MsgServer {
  import opened Basics
  import opened Types
  import opened Store
  import opened Handlers
  import opened Frames
  import opened KeeperStore
  import opened Voting
  import opened Execution
  import Policy
  import SignBytes
  import Electorate

  method RequireAuthority(k: Keeper, authority: string) returns (err: Option<Error>)
    ensures err == if authority != Authority(k.env, k.store) then Some(Unauthorized) else None
  {
    if authority != k.GetAuthority() { return Some(Unauthorized); }
    return None;
  }

  method GetAgentBySigner(k: Keeper, signer: string) returns (agent: Option<AgentInfo>)
    ensures agent == AgentBySigner(k.store, signer)
  {
    if signer !in k.store.signerIndex { return None; }
    var id := k.store.signerIndex[signer];
    if id !in k.store.agents { return None; }
    return Some(k.store.agents[id]);
  }

  method RegisterAgent(k: Keeper, m: Msg) returns (err: Option<Error>)
    requires m.RegisterAgent?
    modifies k
    ensures err == RegisterAgentError(k.env, old(k.store), m)
    ensures err.Some? ==> k.store == old(k.store)
    ensures err.None? ==> k.store == SetAgent(old(k.store), m.agent.value)
  {
    err := RequireAuthority(k, m.authority);
    if err.Some? { return; }
    if m.agent.None? { return Some(DuplicateAgent); }
    var agent := m.agent.value;
    if !AgentValid(agent) { return Some(DuplicateAgent); }
    if !k.env.isAddress(agent.signer) { return Some(BadAddress); }
    if agent.agentId in k.store.agents { return Some(DuplicateAgent); }
    var owner := GetAgentBySigner(k, agent.signer);
    if owner.Some? { return Some(DuplicateAgent); }
    k.SetAgent(agent);
  }

  method ValidateRiskReport(k: Keeper, r: RiskReport) returns (err: Option<Error>)
    ensures err == ReportFieldsError(k.store, r)
  {
    if r.reportId == "" { return Some(RiskReportNotFound); }
    if |r.txHash| == 0 { return Some(InvalidCase); }
    if r.riskScore > 100 { return Some(InvalidRiskScore); }
    if |r.evidenceHash| == 0 { return Some(InvalidCase); }
    if r.expiry <= k.store.height { return Some(RiskReportExpired); }
    var accepted := Policy.StringInSlice(r.source, k.GetParams().sources);
    if !accepted { return Some(SourceNotAccepted); }
    return None;
  }

  method SubmitRiskReport(k: Keeper, m: Msg) returns (err: Option<Error>)
    requires m.SubmitReport?
    modifies k
    ensures err == SubmitReportError(k.env, old(k.store), m)
    ensures err.Some? ==> k.store == old(k.store)
    ensures err.None? ==> k.store == SetReport(old(k.store), StoredReport(m))
  {
    if !k.env.isAddress(m.submitter) { return Some(BadAddress); }
    if m.report.None? { return Some(RiskReportNotFound); }
    var report := m.report.value;
    if report.submitter == "" { report := report.(submitter := m.submitter); }
    if report.submitter != m.submitter { return Some(Unauthorized); }
    err := ValidateRiskReport(k, report);
    if err.Some? { return; }
    if report.reportId in k.store.reports { return Some(DuplicateCase); }
    var agent := GetAgentBySigner(k, report.submitter);
    if agent.Some? && |report.signature| > 0 {
      var payload := SignBytes.RiskReportSignBytes(k.env.chainId, k.env.reportBytes(report.(signature := [])));
      if !VerifySignature(k.env, agent.value.publicKey, report.signature, payload) { return Some(InvalidSignature); }
    }
    k.SetRiskReport(report);
  }

  // ---- opening

  method ActionAllowed(action: Action, p: Params) returns (found: bool)
    ensures found <==> action in p.allowed
  {
    for k := 0 to |p.allowed|
      invariant action !in p.allowed[..k]
    {
      if p.allowed[k] == action { return true; }
    }
    return false;
  }

  method CheckReport(k: Keeper, m: Msg, r: RiskReport, primary: Option<RiskReport>) returns (err: Option<Error>)
    requires m.OpenCase?
    ensures err == ReportError(k.env, k.store, m, r, primary)
  {
    if r.expiry <= k.store.height { return Some(RiskReportExpired); }
    if r.txHash != m.txHash || (m.target != "" && r.recipient != m.target) { return Some(InvalidCase); }
    if primary.Some? && !SameTransfer(r, primary.value) { return Some(InvalidCase); }
    if m.action == RevertTransfer || m.action == EscrowFunds {
      var t: Option<OriginalTransfer>;
      err, t := UnsettledOriginal(k, r);
      if err.Some? { return; }
      var coins := ReportCoins(k, r);
      if coins.None? { return Some(InvalidCase); }
      if !k.env.isAddress(r.recipient) { return Some(BadAddress); }
      if m.action == RevertTransfer && !k.env.isAddress(r.sender) { return Some(BadAddress); }
    }
    return None;
  }

  /** The report list, or the first error while it is built. */
  method CollectReports(k: Keeper, m: Msg) returns (err: Option<Error>, reports: seq<RiskReport>)
    requires m.OpenCase?
    ensures err == ReportsError(k.env, k.store, m, m.reportIds, None)
    ensures err.None? ==> (forall id :: id in m.reportIds ==> id in k.store.reports) && reports == Reports(k.store, m.reportIds)
  {
    hide ReportError;
    reports := [];
    var ids := m.reportIds;
    for i := 0 to |ids|
      invariant |reports| == i && forall j :: 0 <= j < i ==> ids[j] in k.store.reports && reports[j] == k.store.reports[ids[j]]
      invariant ReportsError(k.env, k.store, m, ids, None)
                == ReportsError(k.env, k.store, m, ids[i..], if i == 0 then None else Some(reports[0]))
    {
      if ids[i] !in k.store.reports { return Some(RiskReportNotFound), reports; }
      var report := k.store.reports[ids[i]];
      err := CheckReport(k, m, report, if i == 0 then None else Some(reports[0]));
      if err.Some? { return; }
      assert ids[i..][1..] == ids[i + 1..];
      reports := reports + [report];
    }
    return None, reports;
  }

  /** The checks before anything is written. */
  method CheckOpening(k: Keeper, m: Msg) returns (err: Option<Error>, reports: seq<RiskReport>)
    requires m.OpenCase?
    ensures err.None? ==> m.reportIds != [] && (forall id :: id in m.reportIds ==> id in k.store.reports)
                          && reports == Reports(k.store, m.reportIds)
    ensures err.Some? ==> OpenCaseError(k.env, k.store, m) == err && err != Some(BadSnapshot)
    ensures err.None? ==> OpenCaseError(k.env, k.store, m) == LateOpenError(k.env, k.store, m)
  {
    hide SnapshotValid, DraftCase, ReplacementError, ReportsError, Policy.PolicyAction;
    reports := [];
    if !k.env.isAddress(m.submitter) { return Some(BadAddress), reports; }
    if m.caseId == "" { return Some(InvalidCase), reports; }
    if |m.txHash| != 32 || (m.targetType != TxTarget && m.targetType != AddressTarget) { return Some(InvalidCase), reports; }
    if m.targetType == AddressTarget && m.target == "" { return Some(InvalidCase), reports; }
    if m.target != "" && !k.env.isAddress(m.target) { return Some(BadAddress), reports; }
    if m.caseId in k.store.cases { return Some(DuplicateCase), reports; }
    if |m.reportIds| == 0 { return Some(RiskReportNotFound), reports; }
    var params := k.GetParams();
    var allowed := ActionAllowed(m.action, params);
    if !allowed { return Some(ActionNotAllowed), reports; }
    err, reports := CollectReports(k, m);
    ReportsErrors(k.env, k.store, m, m.reportIds, None);
    if err.Some? { return; }
    var expected := Policy.ComputePolicyAction(reports, params, m.targetType);
    if expected == NoAction { return Some(ActionNotAllowed), reports; }
    if m.action != expected { return Some(ActionNotAllowed), reports; }
    if m.action == BlockTx && m.txHash in k.store.activeTxs { return Some(TxAlreadySanctioned), reports; }
    if m.target != "" && m.action == FreezeAddress && m.target in k.store.freezes { return Some(AddressAlreadyFrozen), reports; }
    return None, reports;
  }

  /** The checks that follow: the predecessor, then the snapshot. */
  ghost function LateOpenError(env: Env, s: State, m: Msg): Option<Error>
    requires m.OpenCase? && m.reportIds != [] && m.reportIds[0] in s.reports
  {
    var e := if m.previous == "" then None else ReplacementError(s, m.previous, s.reports[m.reportIds[0]], m.targetType);
    if e.Some? then e else if !SnapshotValid(env, DraftCase(s, m)) then Some(BadSnapshot) else None
  }

  /** Writes an accepted case; a failure after the predecessor was expired leaves that one write to the rollback. */
  method OpenSanctionCase(k: Keeper, m: Msg) returns (err: Option<Error>)
    requires m.OpenCase? && Keyed(k.store)
    modifies k
    ensures err == OpenCaseError(k.env, old(k.store), m)
    ensures err.None? ==> (m.previous != "" ==> m.previous in old(k.store).cases)
                          && k.store == OpenEffect(old(k.store), m.previous, NewCase(k.env, old(k.store), m))
    ensures err.Some? && err != Some(BadSnapshot) ==> k.store == old(k.store)
    ensures err == Some(BadSnapshot) ==>
      k.store == if m.previous != "" && m.previous in old(k.store).cases
                 then SetCase(old(k.store), old(k.store).cases[m.previous].(status := Expired)) else old(k.store)
  {
    hide OpenCaseError, ReplacementError, Keyed, SnapshotValid, VotersOf, SetCase, Reports;
    ghost var s0 := k.store;
    var reports: seq<RiskReport>;
    err, reports := CheckOpening(k, m);
    if err.Some? { return; }
    assert m.reportIds[0] in m.reportIds;
    assert reports[0] == s0.reports[m.reportIds[0]] by { FirstReport(s0, m.reportIds); }
    if m.previous != "" {
      err := ExpireForReplacement(k, m.previous, reports[0], m.targetType);
      if err.Some? {
        assert err != Some(BadSnapshot) by { ReplacementErrors(s0, m.previous, reports[0], m.targetType); }
        return;
      }
    }
    SetCaseKeeps(s0, m.previous);
    var params := k.GetParams();
    var draft := SanctionCase(m.caseId, m.previous, m.txHash, m.target, m.targetType, m.action, Pending, m.reportIds,
                              k.store.height, (k.store.height + params.votingPeriod) % U64, 0, m.policyVersion,
                              [], 0, false, 0, []);
    assert KeyedAgents(s0.agents) by { KeyedParts(s0); }
    assert Frozen(k.store, draft) == DraftCase(s0, m);
    var ok, c := SnapshotCaseVoters(k, draft);
    if !ok { return Some(BadSnapshot); }
    c := c.(decisionHash := k.env.decisionHash(c));
    k.SetSanctionCase(c);
    return None;
  }

  lemma FirstReport(s: State, ids: seq<string>)
    requires ids != [] && forall id :: id in ids ==> id in s.reports
    ensures Reports(s, ids) != [] && ids[0] in s.reports && Reports(s, ids)[0] == s.reports[ids[0]]
  {
    assert ids[0] in ids;
  }

  lemma SetCaseKeeps(s: State, previous: string)
    ensures previous in s.cases ==>
      var s' := SetCase(s, s.cases[previous].(status := Expired));
      s'.agents == s.agents && s'.height == s.height && s'.params == s.params
  {
  }

  lemma ReplacementErrors(s: State, previous: string, next: RiskReport, target: TargetType)
    ensures ReplacementError(s, previous, next, target) != Some(BadSnapshot)
  {
    hide HasSuccessor;
  }

  lemma {:induction false} ReportsErrors(env: Env, s: State, m: Msg, ids: seq<string>, primary: Option<RiskReport>)
    requires m.OpenCase?
    ensures ReportsError(env, s, m, ids, primary) != Some(BadSnapshot)
  {
    if ids != [] && ids[0] in s.reports {
      hide CoinsOk, SameTransfer;
      ReportsErrors(env, s, m, ids[1..], if primary.Some? then primary else Some(s.reports[ids[0]]));
    }
  }

  // ---- voting

  /** A pending case whose deadline has passed is marked EXPIRED before the vote is refused. */
  ghost predicate LateVote(env: Env, s: State, m: Msg)
    requires m.SubmitVote?
  {
    && env.isAddress(m.submitter) && m.vote.Some? && m.vote.value.option in {Approve, Reject, Abstain}
    && m.vote.value.caseId in s.cases
    && s.cases[m.vote.value.caseId].status == Pending && s.height > s.cases[m.vote.value.caseId].deadline
  }

  method CheckVote(k: Keeper, m: Msg, c: SanctionCase, v: SanctionVote) returns (err: Option<Error>)
    requires m.SubmitVote? && m.vote == Some(v) && v.caseId in k.store.cases && k.store.cases[v.caseId] == c
    requires k.env.isAddress(m.submitter) && v.option in {Approve, Reject, Abstain}
    requires c.status == Pending || (c.status == Approved && c.action == RevertTransfer)
    requires !LateVote(k.env, k.store, m)
    ensures err == VoteError(k.env, k.store, m)
  {
    var voter := FindCaseVoter(c, v.agentId);
    if voter.None? { return Some(AgentNotFound); }
    if voter.value.signer != m.submitter { return Some(Unauthorized); }
    if (v.caseId, v.agentId) in k.store.votes { return Some(VoteAlreadySubmitted); }
    if v.approvedAction != c.action && v.option == Approve { return Some(ActionNotAllowed); }
    var payload := SignBytes.VoteSignBytes(k.env.chainId, v);
    if !VerifySignature(k.env, voter.value.publicKey, v.signature, payload) { return Some(InvalidSignature); }
    return None;
  }

  method SubmitSanctionVote(k: Keeper, m: Msg) returns (err: Option<Error>, approved: bool, rejected: bool)
    requires m.SubmitVote? && Keyed(k.store)
    modifies k
    ensures err == VoteError(k.env, old(k.store), m)
    ensures err.None? ==> m.vote.Some? && m.vote.value.caseId in old(k.store).cases
                          && k.store == VoteEffect(old(k.store), m.vote.value)
    ensures err.Some? ==>
      k.store == if LateVote(k.env, old(k.store), m)
                 then SetCase(old(k.store), old(k.store).cases[m.vote.value.caseId].(status := Expired)) else old(k.store)
    ensures err.None? ==> var c := old(k.store).cases[m.vote.value.caseId];
      && (approved <==> c.snapshotVersion == 1 && QuorumMet(k.store.votes, c))
      && (rejected <==> c.snapshotVersion == 1 && !approved && RejectionMet(k.store.votes, c))
  {
    hide Keyed, VerifySignature, SignBytes.VoteBytes, QuorumMet, RejectionMet;
    approved, rejected := false, false;
    if !k.env.isAddress(m.submitter) { err := Some(BadAddress); return; }
    if m.vote.None? { err := Some(InvalidCase); return; }
    var v := m.vote.value;
    if v.option != Approve && v.option != Reject && v.option != Abstain { err := Some(InvalidCase); return; }
    if v.caseId !in k.store.cases { err := Some(CaseNotFound); return; }
    var c := k.store.cases[v.caseId];
    var afterApproval := c.status == Approved && c.action == RevertTransfer;
    if c.status != Pending && !afterApproval { err := Some(CaseNotPending); return; }
    if c.status == Pending && k.store.height > c.deadline {
      k.SetSanctionCase(c.(status := Expired));
      err := Some(CaseNotPending);
      return;
    }
    err := CheckVote(k, m, c, v);
    if err.Some? { return; }
    hide VoteError, LateVote;
    ghost var s0 := k.store;
    k.store := k.store.(votes := k.store.votes[(v.caseId, v.agentId) := v]);
    assert KeyedVotes(k.store.votes) && KeyedCases(s0.cases) by { KeyedParts(s0); }
    c, approved, rejected := RecomputeCaseStatus(k, c);
    k.SetSanctionCase(c);
    VoteVotes(s0, v);
    hide Activates, SetCase, SetActiveTx, RecomputedStatus;
  }

  lemma VoteVotes(s: State, v: SanctionVote)
    requires v.caseId in s.cases
    ensures VoteEffect(s, v).votes == SetVote(s, v).votes
  {
    hide Activates, RecomputedStatus, IndexByTx, IndexByAddress;
  }

  // ---- execution

  /** Everything before the action itself. */
  method CheckExecution(k: Keeper, m: Msg) returns (err: Option<Error>)
    requires m.Execute? && KeyedCases(k.store.cases)
    ensures err.Some? ==> ExecuteError(k.env, k.store, m, true) == err && ExecuteError(k.env, k.store, m, false) == err
    ensures err.None? ==> m.caseId in k.store.cases
                          && forall bankOk :: ExecuteError(k.env, k.store, m, bankOk) == ActionError(k.env, k.store, k.store.cases[m.caseId], bankOk)
  {
    hide SnapshotValid, Unanimous, SettleError;
    if !k.env.isAddress(m.executor) { return Some(BadAddress); }
    if m.caseId !in k.store.cases { return Some(CaseNotFound); }
    var c := k.store.cases[m.caseId];
    if c.status != Approved { return Some(QuorumNotReached); }
    var valid := ValidateCaseSnapshot(k.env, c);
    if !valid { return Some(BadSnapshot); }
    if m.caseId in k.store.executions { return Some(InvalidCase); }
    var unanimous := HasUnanimousApproval(k, m.caseId);
    if c.action == RevertTransfer && c.unanimous && !unanimous { return Some(QuorumNotReached); }
    if |c.reportIds| > 0 {
      if c.reportIds[0] !in k.store.reports { return Some(RiskReportNotFound); }
      var r := k.store.reports[c.reportIds[0]];
      if r.expiry > 0 && r.expiry <= k.store.height { return Some(RiskReportExpired); }
    }
    return None;
  }

  /** The errors of the switch over the action. */
  function ActionError(env: Env, s: State, c: SanctionCase, bankOk: bool): Option<Error>
  {
    match c.action
    case BlockTx => None
    case Watch => None
    case FreezeAddress => if c.target == "" then Some(InvalidCase) else None
    case EscrowFunds => SettleError(env, s, c, bankOk)
    case RevertTransfer => SettleError(env, s, c, bankOk)
    case _ => Some(ActionNotAllowed)
  }

  method PerformAction(k: Keeper, c: SanctionCase, bankOk: bool) returns (err: Option<Error>, resultCode: string, hash: Bytes)
    modifies k
    ensures err == ActionError(k.env, old(k.store), c, bankOk)
    ensures err.Some? ==> k.store == old(k.store)
    ensures err.None? ==>
      && (Monetary(c.action) ==> Settleable(k.env, old(k.store), c))
      && k.store == ActionEffect(k.env, old(k.store), c)
      && hash == StateHash(k.env, old(k.store), c) && resultCode == (if c.action == Watch then "watch_only" else "ok")
  {
    hide SettleError, SettleEffect, Settleable;
    err, resultCode, hash := None, "ok", [];
    match c.action {
      case BlockTx =>
        k.store := SetActiveTx(k.store, ActiveSanction(c.caseId, c.txHash, c.target, c.action, k.store.height));
      case FreezeAddress =>
        if c.target == "" { err := Some(InvalidCase); return; }
        k.store := SetFreeze(k.store, FreezeRecord(c.caseId, c.target, k.store.height));
      case Watch =>
        resultCode := "watch_only";
      case EscrowFunds =>
        err, hash := ExecuteEscrow(k, c, bankOk);
      case RevertTransfer =>
        err, hash := ExecuteRevert(k, c, bankOk);
      case _ =>
        err := Some(ActionNotAllowed);
    }
  }

  method ExecuteSanction(k: Keeper, m: Msg, bankOk: bool) returns (err: Option<Error>)
    requires m.Execute? && Keyed(k.store)
    modifies k
    ensures err == ExecuteError(k.env, old(k.store), m, bankOk)
    ensures err.Some? ==> k.store == old(k.store)
    ensures err.None? ==> k.store == HandleEffect(k.env, old(k.store), m, bankOk)
  {
    ghost var s0 := k.store;
    assert KeyedCases(s0.cases) by { KeyedParts(s0); }
    hide Keyed;
    err := CheckExecution(k, m);
    if err.Some? { return; }
    var c := k.store.cases[m.caseId];
    var resultCode: string, hash: Bytes;
    hide ExecuteError, ActionEffect, Settleable, StateHash;
    err, resultCode, hash := PerformAction(k, c, bankOk);
    if err.Some? { return; }
    var record := ExecutionRecord(c.caseId, c.action, c.txHash, c.target, m.executor, k.store.height, resultCode, m.resultMessage, hash);
    assert k.store.height == s0.height by { ActionContext(k.env, s0, c); }
    c := c.(status := Executed, executedAt := k.store.height);
    k.SetSanctionCase(c);
    k.store := SetExecution(k.store, record);
    hide SetCase, SetExecution;
  }

  // ---- review and revocation

  method ReviewSanction(k: Keeper, m: Msg) returns (err: Option<Error>)
    requires m.Review?
    modifies k
    ensures err == ReviewError(k.env, old(k.store), m)
    ensures err.Some? ==> k.store == old(k.store)
    ensures err.None? ==> k.store == ReviewEffect(old(k.store), m)
  {
    err := RequireAuthority(k, m.authority);
    if err.Some? { return; }
    if m.caseId !in k.store.cases { return Some(CaseNotFound); }
    if k.store.cases[m.caseId].status == Revoked { return Some(CaseNotPending); }
    if m.caseId in k.store.reviews { return Some(InvalidCase); }
    if |m.evidenceHash| != 32 || k.env.isBlank(m.reason) || |m.reason| > 1024 { return Some(InvalidCase); }
    k.store := SetReview(k.store, ReviewRecord(m.caseId, m.authority, m.reason, m.evidenceHash, k.store.height, 0, ""));
  }

  /** Deletes the effects that the case owns, then marks case and review. */
  method RevokeSanction(k: Keeper, m: Msg) returns (err: Option<Error>)
    requires m.Revoke? && Keyed(k.store)
    modifies k
    ensures err == RevokeError(k.env, old(k.store), m)
    ensures err.Some? ==> k.store == old(k.store)
    ensures err.None? ==>
      && m.caseId in old(k.store).cases && m.caseId in old(k.store).reviews
      && k.store == RevokeEffect(old(k.store), old(k.store).cases[m.caseId], old(k.store).reviews[m.caseId], m.reason)
  {
    KeyedAt(k.store, m.caseId);
    hide Keyed;
    err := RequireAuthority(k, m.authority);
    if err.Some? { return; }
    if m.caseId !in k.store.cases { return Some(CaseNotFound); }
    var c := k.store.cases[m.caseId];
    if m.caseId !in k.store.reviews { return Some(ReviewRequired); }
    var review := k.store.reviews[m.caseId];
    if review.authority != m.authority || review.reviewedAt >= k.store.height || review.revokedAt != 0 || c.status == Revoked {
      return Some(ReviewRequired);
    }
    if k.env.isBlank(m.reason) || |m.reason| > 1024 { return Some(InvalidCase); }
    hide RevokeError;
    if c.txHash in k.store.activeTxs && k.store.activeTxs[c.txHash].caseId == m.caseId {
      k.store := k.store.(activeTxs := k.store.activeTxs - {c.txHash});
    }
    if c.target in k.store.freezes && k.store.freezes[c.target].caseId == m.caseId {
      k.store := k.store.(freezes := k.store.freezes - {c.target});
    }
    k.SetSanctionCase(c.(status := Revoked));
    k.store := SetReview(k.store, review.(revokedAt := k.store.height, revokeReason := m.reason));
  }

  method UpdateParams(k: Keeper, m: Msg) returns (err: Option<Error>)
    requires m.UpdateParams?
    modifies k
    ensures err == UpdateParamsError(k.env, old(k.store), m)
    ensures err.Some? ==> k.store == old(k.store)
    ensures err.None? ==> k.store == old(k.store).(params := m.params)
  {
    err := RequireAuthority(k, m.authority);
    if err.Some? { return; }
    if m.params.None? { return Some(InvalidCase); }
    if !ParamsValid(m.params.value) { return Some(BadParams); }
    k.store := k.store.(params := m.params);
  }

  // ---- leases

  method ClaimAgentLease(k: Keeper, m: Msg) returns (err: Option<Error>)
    requires m.ClaimLease?
    modifies k
    ensures err == ClaimError(k.env, old(k.store), m)
    ensures err.Some? ==> k.store == old(k.store)
    ensures err.None? ==> k.store == ClaimEffect(k.env, old(k.store), m)
  {
    hide HolderValid;
    if !k.env.isAddress(m.signer) { return Some(BadAddress); }
    if !HolderValid(m.holder) || m.ttl < 6 || m.ttl > 100 { return Some(BadLease); }
    var agent := GetAgentBySigner(k, m.signer);
    if agent.None? { return Some(AgentNotFound); }
    var lease := if m.signer in k.store.leases then k.store.leases[m.signer] else Lease(m.signer, "", 0, 0);
    if lease.epoch != m.expectedEpoch { return Some(BadLease); }
    var h := k.store.height;
    if m.renew {
      if lease.epoch == 0 || lease.holder != m.holder || lease.expires <= h { return Some(BadLease); }
    } else {
      if lease.expires > h { return Some(BadLease); }
      if lease.epoch == U64 - 1 { return Some(BadLease); }
      lease := lease.(epoch := lease.epoch + 1);
      lease := lease.(holder := m.holder);
    }
    lease := lease.(expires := h + m.ttl);
    k.store := SetLease(k.store, lease);
    return None;
  }
}
