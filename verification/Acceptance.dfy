/**
 * When each message is accepted, as conditions that a caller can look up beforehand. They are stated on the message
 * and the tables alone; the order in which the handlers check them does not matter here.
 */
module Acceptance {
  import opened Basics
  import opened Types
  import opened Store
  import opened Handlers
  import opened Frames
  import Policy
  import SignBytes
  import Strings
  import Decimal
  import Electorate
  import Chain

  // ---- the registry, reports and parameters

  ghost predicate FromAuthority(env: Env, s: State, authority: string)
  {
    authority == if s.authority == "" then env.configAuthority else s.authority
  }

  ghost predicate MayRegister(env: Env, s: State, authority: string, agent: Option<AgentInfo>)
  {
    && FromAuthority(env, s, authority) && agent.Some?
    && var a := agent.value;
    && a.agentId != "" && a.signer != "" && (a.active ==> a.power > 0) && env.isAddress(a.signer)
    && a.agentId !in s.agents && !(a.signer in s.signerIndex && s.signerIndex[a.signer] in s.agents)
  }

  lemma RegistrationExact(env: Env, s: State, authority: string, agent: Option<AgentInfo>)
    ensures RegisterAgentError(env, s, RegisterAgent(authority, agent)).None? <==> MayRegister(env, s, authority, agent)
  {
  }

  function ParamsInForce(s: State): Params
  {
    if s.params.None? then DefaultParams() else s.params.value
  }

  /** A new report of the sender's own, complete and unexpired, from an accepted source, with a valid signature if it has one. */
  ghost predicate MayReport(env: Env, s: State, submitter: string, report: Option<RiskReport>)
  {
    && env.isAddress(submitter) && report.Some?
    && var r := report.value;
    && r.submitter in {"", submitter} && r.reportId != "" && r.reportId !in s.reports && r.txHash != [] && r.riskScore <= 100
    && r.evidenceHash != [] && r.expiry > s.height && r.source in ParamsInForce(s).sources
    && (r.signature != [] && submitter in s.signerIndex && s.signerIndex[submitter] in s.agents ==>
          var key := s.agents[s.signerIndex[submitter]].publicKey;
          key != [] && env.verify(key, r.signature,
            SignBytes.ReportBytes(env.chainId, env.reportBytes(r.(submitter := submitter, signature := [])))))
  }

  lemma ReportExact(env: Env, s: State, submitter: string, report: Option<RiskReport>)
    ensures SubmitReportError(env, s, SubmitReport(submitter, report)).None? <==> MayReport(env, s, submitter, report)
  {
    hide SignBytes.ReportBytes;
    if report.Some? && report.value.submitter in {"", submitter} {
      assert StoredReport(SubmitReport(submitter, report)) == report.value.(submitter := submitter);
    }
  }

  ghost predicate MaySetParams(env: Env, s: State, authority: string, params: Option<Params>)
  {
    && FromAuthority(env, s, authority) && params.Some?
    && var p := params.value;
    && p.watch <= p.block <= p.freeze <= p.revert <= 100 && 1 <= p.quorum <= 100 && p.evidenceTtl > 0 && p.votingPeriod > 0
    && p.sources != [] && p.highRisk != [] && p.allowed != []
  }

  lemma ParamsExact(env: Env, s: State, authority: string, params: Option<Params>)
    ensures UpdateParamsError(env, s, UpdateParams(authority, params)).None? <==> MaySetParams(env, s, authority, params)
  {
  }

  // ---- opening

  /** The report names this transfer, in full. */
  predicate SameFacts(a: RiskReport, b: RiskReport)
  {
    a.messageIndex == b.messageIndex && a.sender == b.sender && a.recipient == b.recipient && a.amount == b.amount && a.denom == b.denom
  }

  /** A receipt of an earlier block that agrees with the report in every field, not settled yet. */
  ghost predicate Recorded(s: State, r: RiskReport)
  {
    var id := TransferId(r.txHash, r.messageIndex, r.denom);
    && id in s.receipts && s.receipts[id].height < s.height
    && s.receipts[id].sender == r.sender && s.receipts[id].recipient == r.recipient && s.receipts[id].amount == r.amount
    && id !in s.settlements
  }

  predicate PositiveCoin(env: Env, amount: string, denom: string)
  {
    && amount != "" && denom != "" && env.validDenom(denom)
    && env.parseInt(amount).Some? && env.parseInt(amount).value > 0
  }

  /** Evidence for this case: unexpired, of its tx and recipient, and for a settlement a recorded payment between addresses. */
  ghost predicate Supports(env: Env, s: State, m: Msg, r: RiskReport)
    requires m.OpenCase?
  {
    && r.expiry > s.height && r.txHash == m.txHash && (m.target != "" ==> r.recipient == m.target)
    && (m.action in {RevertTransfer, EscrowFunds} ==> Recorded(s, r) && PositiveCoin(env, r.amount, r.denom) && env.isAddress(r.recipient))
    && (m.action == RevertTransfer ==> env.isAddress(r.sender))
  }

  ghost predicate AllSupport(env: Env, s: State, m: Msg)
    requires m.OpenCase?
  {
    && m.reportIds != []
    && forall i :: 0 <= i < |m.reportIds| ==>
         && m.reportIds[0] in s.reports && m.reportIds[i] in s.reports
         && Supports(env, s, m, s.reports[m.reportIds[i]])
         && SameFacts(s.reports[m.reportIds[i]], s.reports[m.reportIds[0]])
  }

  /** The predecessor is an open or expired case on the same payment, with older evidence, whose time is up and which nobody replaces yet. */
  ghost predicate MayReplace(s: State, previous: string, next: RiskReport, targetType: TargetType)
  {
    && previous in s.cases && previous !in s.executions && targetType == AddressTarget
    && var c := s.cases[previous];
    && c.targetType == AddressTarget && c.target == next.recipient && c.txHash == next.txHash
    && c.executedAt == 0 && c.status in {Pending, Approved, Expired}
    && c.reportIds != [] && c.reportIds[0] in s.reports
    && var r := s.reports[c.reportIds[0]];
    && r.txHash == c.txHash && r.recipient == c.target
    && SameFacts(r, next) && next.reportId != r.reportId && r.observed < next.observed <= s.height
    && (r.expiry <= s.height || c.status == Expired || (c.status == Pending && c.deadline < s.height))
    && (forall h, id :: (h, id) in s.casesByTx && next.txHash <= h + [0] + SignBytes.Raw(id) && id in s.cases ==>
          s.cases[id].previous != previous)
  }

  /** An agent that a new case takes into its electorate. */
  predicate Votes(a: AgentInfo) { a.active && a.power > 0 && a.publicKey != [] }

  /** There is an electorate, with keys of their own and distinct signers. */
  ghost predicate ElectorateReady(env: Env, s: State)
  {
    && (exists id :: id in s.agents && Votes(s.agents[id]))
    && (forall id :: id in s.agents && Votes(s.agents[id]) ==>
          id != "" && s.agents[id].signer != "" && env.isAddress(s.agents[id].signer)
          && env.ownsKey(s.agents[id].publicKey, s.agents[id].signer))
    && (forall x, y :: x in s.agents && y in s.agents && x != y && Votes(s.agents[x]) && Votes(s.agents[y]) ==>
          s.agents[x].signer != s.agents[y].signer)
    && 1 <= ParamsInForce(s).quorum <= 100
  }

  /** A new case id, a full tx hash, and a target that fits its type. */
  ghost predicate WellFormed(env: Env, s: State, m: Msg)
    requires m.OpenCase?
  {
    && env.isAddress(m.submitter) && m.caseId != "" && m.caseId !in s.cases && |m.txHash| == 32
    && m.targetType in {TxTarget, AddressTarget} && (m.targetType == AddressTarget ==> m.target != "")
    && (m.target != "" ==> env.isAddress(m.target))
  }

  ghost predicate MayOpen(env: Env, s: State, m: Msg)
    requires m.OpenCase?
  {
    && WellFormed(env, s, m) && AllSupport(env, s, m)
    && m.action in ParamsInForce(s).allowed
    && Policy.Recommended(seq(|m.reportIds|, i requires 0 <= i < |m.reportIds| => s.reports[m.reportIds[i]]),
                          ParamsInForce(s), m.targetType, m.action)
    && (m.action == BlockTx ==> m.txHash !in s.activeTxs)
    && (m.action == FreezeAddress && m.target != "" ==> m.target !in s.freezes)
    && (m.previous != "" ==> MayReplace(s, m.previous, s.reports[m.reportIds[0]], m.targetType))
    && ElectorateReady(env, s)
  }

  lemma SupportsExact(env: Env, s: State, m: Msg, r: RiskReport, primary: Option<RiskReport>)
    requires m.OpenCase? && KeyedReceipts(s.receipts)
    ensures ReportError(env, s, m, r, primary).None? <==>
            Supports(env, s, m, r) && (primary.Some? ==> SameFacts(r, primary.value))
  {
    var id := TransferId(r.txHash, r.messageIndex, r.denom);
    assert id in s.receipts ==> IdOf(s.receipts[id]) == id;
  }

  /** Each report of the list supports the case, and agrees with the first. */
  lemma {:induction false} ReportsExact(env: Env, s: State, m: Msg, ids: seq<string>, primary: Option<RiskReport>)
    requires m.OpenCase? && KeyedReceipts(s.receipts)
    ensures ReportsError(env, s, m, ids, primary).None? <==>
            forall i :: 0 <= i < |ids| ==>
              && ids[0] in s.reports && ids[i] in s.reports && Supports(env, s, m, s.reports[ids[i]])
              && SameFacts(s.reports[ids[i]], if primary.Some? then primary.value else s.reports[ids[0]])
  {
    hide Supports, ReportError;
    if ids != [] && ids[0] in s.reports {
      var r := s.reports[ids[0]];
      SupportsExact(env, s, m, r, primary);
      ReportsExact(env, s, m, ids[1..], if primary.Some? then primary else Some(r));
      assert forall i :: 1 <= i < |ids| ==> ids[i] == ids[1..][i - 1];
      assert forall i :: 0 <= i < |ids[1..]| ==> ids[1..][i] == ids[i + 1];
    }
  }

  lemma ReplacementExact(s: State, previous: string, next: RiskReport, targetType: TargetType)
    ensures ReplacementError(s, previous, next, targetType).None? <==> MayReplace(s, previous, next, targetType)
  {
    hide SignBytes.Raw;
    assert HasSuccessor(s, next.txHash, previous) <==>
           !(forall h, id :: (h, id) in s.casesByTx && next.txHash <= h + [0] + SignBytes.Raw(id) && id in s.cases ==>
               s.cases[id].previous != previous) by { SuccessorsExact(s, next.txHash, previous); }
    hide HasSuccessor;
  }

  lemma SuccessorsExact(s: State, txHash: Bytes, previous: string)
    ensures HasSuccessor(s, txHash, previous) <==>
            exists h, id :: (h, id) in s.casesByTx && txHash <= h + [0] + SignBytes.Raw(id) && id in s.cases
                            && s.cases[id].previous == previous
  {
    hide SignBytes.Raw;
    if HasSuccessor(s, txHash, previous) {
      var entry :| entry in s.casesByTx && MetUnder(txHash, entry) && entry.1 in s.cases && s.cases[entry.1].previous == previous;
      var (h, id) := entry;
      assert (h, id) == entry;
    }
    if h, id :| (h, id) in s.casesByTx && txHash <= h + [0] + SignBytes.Raw(id) && id in s.cases && s.cases[id].previous == previous {
      assert MetUnder(txHash, (h, id));
    }
  }

  lemma VotersAre(agents: map<string, AgentInfo>)
    requires KeyedAgents(agents)
    ensures forall a :: a in VotersOf(agents) <==> a.agentId in agents && agents[a.agentId] == a && Votes(a)
    ensures var r := VotersOf(agents); forall i, j :: 0 <= i < j < |r| ==> Strings.Less(r[i].agentId, r[j].agentId)
  {
    var ids := Strings.Sorted(Eligible(agents));
    assert forall i :: 0 <= i < |ids| ==> ids[i] in ids;
    hide Strings.Sorted, Strings.Less;
    forall a ensures a in VotersOf(agents) <==> a.agentId in agents && agents[a.agentId] == a && Votes(a) {
      if a.agentId in agents && agents[a.agentId] == a && Votes(a) { assert a.agentId in Eligible(agents); }
    }
  }

  /** The voters are the eligible agents of the table, in ascending order of their ids. */
  ghost predicate Elects(agents: map<string, AgentInfo>, voters: seq<AgentInfo>)
  {
    && (forall a :: a in voters <==> a.agentId in agents && agents[a.agentId] == a && Votes(a))
    && (forall i, j :: 0 <= i < j < |voters| ==> Strings.Less(voters[i].agentId, voters[j].agentId))
  }

  lemma ElectedAt(agents: map<string, AgentInfo>, voters: seq<AgentInfo>, id: string) returns (i: nat)
    requires KeyedAgents(agents) && Elects(agents, voters) && id in agents && Votes(agents[id])
    ensures i < |voters| && voters[i] == agents[id]
  {
    hide Strings.Less;
    assert agents[id] in voters;
    i :| 0 <= i < |voters| && voters[i] == agents[id];
  }

  lemma ValidElectorate(env: Env, s: State, c: SanctionCase)
    requires KeyedAgents(s.agents) && Elects(s.agents, c.voters) && c.quorum == ParamsInForce(s).quorum && SnapshotValid(env, c)
    ensures ElectorateReady(env, s)
  {
    hide Strings.Less, Elects;
    assert c.voters[0] in c.voters;
    assert c.voters[0].agentId in s.agents && Votes(s.agents[c.voters[0].agentId]) by { SomeVoter(s.agents, c.voters); }
    forall id | id in s.agents && Votes(s.agents[id])
      ensures id != "" && s.agents[id].signer != "" && env.isAddress(s.agents[id].signer)
              && env.ownsKey(s.agents[id].publicKey, s.agents[id].signer)
    {
      var i := ElectedAt(s.agents, c.voters, id);
      assert VoterValid(env, c.voters[i]);
    }
    forall x, y | x in s.agents && y in s.agents && x != y && Votes(s.agents[x]) && Votes(s.agents[y])
      ensures s.agents[x].signer != s.agents[y].signer
    {
      var i := ElectedAt(s.agents, c.voters, x);
      var j := ElectedAt(s.agents, c.voters, y);
      assert i != j;
    }
  }

  lemma SomeVoter(agents: map<string, AgentInfo>, voters: seq<AgentInfo>)
    requires Elects(agents, voters) && voters != []
    ensures voters[0].agentId in agents && Votes(agents[voters[0].agentId])
  {
    hide Strings.Less;
    assert voters[0] in voters;
  }

  lemma ReadyElectorate(env: Env, s: State, c: SanctionCase)
    requires KeyedAgents(s.agents) && Elects(s.agents, c.voters) && c.quorum == ParamsInForce(s).quorum && c.snapshotVersion == 1
    requires ElectorateReady(env, s)
    ensures SnapshotValid(env, c)
  {
    var r := c.voters;
    var id :| id in s.agents && Votes(s.agents[id]);
    var first := ElectedAt(s.agents, r, id);
    forall i | 0 <= i < |r| ensures r[i].agentId in s.agents && s.agents[r[i].agentId] == r[i] && VoterValid(env, r[i]) {
      assert r[i] in r;
    }
    forall i, j | 0 <= i < j < |r| ensures Strings.Less(r[i].agentId, r[j].agentId) && r[i].signer != r[j].signer {
      Strings.LessAsymmetric(r[i].agentId, r[j].agentId);
      assert r[i] in r && r[j] in r;
    }
    hide Strings.Less, Elects, ElectorateReady;
  }

  /** The snapshot of a new case validates exactly when there is a proper electorate. */
  lemma ElectorateExact(env: Env, s: State, c: SanctionCase)
    requires KeyedAgents(s.agents) && c.voters == VotersOf(s.agents) && c.snapshotVersion == 1 && c.quorum == ParamsInForce(s).quorum
    ensures SnapshotValid(env, c) <==> ElectorateReady(env, s)
  {
    VotersAre(s.agents);
    assert Elects(s.agents, c.voters);
    hide VotersOf, Elects, SnapshotValid, ElectorateReady;
    if SnapshotValid(env, c) { ValidElectorate(env, s, c); }
    if ElectorateReady(env, s) { ReadyElectorate(env, s, c); }
  }

  /** The checks of an opening in two groups, with their parts decided already. */
  lemma OpeningByParts(env: Env, s: State, m: Msg)
    requires m.OpenCase?
    ensures OpenCaseError(env, s, m).None? <==>
            && WellFormed(env, s, m) && m.reportIds != [] && m.action in ParamsInForce(s).allowed
            && ReportsError(env, s, m, m.reportIds, None).None?
            && (forall id :: id in m.reportIds ==> id in s.reports)
            && m.action != NoAction && Policy.PolicyAction(Reports(s, m.reportIds), ParamsInForce(s), m.targetType) == m.action
            && (m.action == BlockTx ==> m.txHash !in s.activeTxs)
            && (m.action == FreezeAddress && m.target != "" ==> m.target !in s.freezes)
            && (m.previous != "" ==>
                  m.reportIds[0] in s.reports && ReplacementError(s, m.previous, s.reports[m.reportIds[0]], m.targetType).None?)
            && SnapshotValid(env, DraftCase(s, m))
  {
    if ReportsError(env, s, m, m.reportIds, None).None? { ReportsFound(env, s, m, m.reportIds, None); }
    assert m.reportIds != [] ==> m.reportIds[0] in m.reportIds;
    hide SnapshotValid, DraftCase, ReportsError, ReplacementError, Policy.PolicyAction, Reports;
  }

  lemma OpeningExact(env: Env, s: State, m: Msg)
    requires m.OpenCase? && KeyedAgents(s.agents) && KeyedReceipts(s.receipts)
    ensures OpenCaseError(env, s, m).None? <==> MayOpen(env, s, m)
  {
    OpeningByParts(env, s, m);
    SupportExact(env, s, m);
    DraftVoters(s, m);
    ElectorateExact(env, s, DraftCase(s, m));
    hide OpenCaseError, ReportsError, DraftCase, SnapshotValid, ElectorateReady, Supports, SameFacts, WellFormed, ReplacementError, MayReplace;
    hide Policy.Recommended, Policy.PolicyAction;
    if AllSupport(env, s, m) {
      RecommendationExact(env, s, m);
      assert m.reportIds[0] in s.reports;
      hide AllSupport;
      ReplacementExact(s, m.previous, s.reports[m.reportIds[0]], m.targetType);
    }
  }

  lemma RecommendationExact(env: Env, s: State, m: Msg)
    requires m.OpenCase? && AllSupport(env, s, m)
    ensures forall id :: id in m.reportIds ==> id in s.reports
    ensures m.action != NoAction && Policy.PolicyAction(Reports(s, m.reportIds), ParamsInForce(s), m.targetType) == m.action
            <==> Policy.Recommended(seq(|m.reportIds|, i requires 0 <= i < |m.reportIds| => s.reports[m.reportIds[i]]),
                                    ParamsInForce(s), m.targetType, m.action)
  {
    var reports := seq(|m.reportIds|, i requires 0 <= i < |m.reportIds| => s.reports[m.reportIds[i]]);
    assert Reports(s, m.reportIds) == reports;
    Policy.RecommendedExact(reports, ParamsInForce(s), m.targetType, m.action);
    hide Policy.Recommended, Policy.PolicyAction, Supports, SameFacts;
  }

  lemma SupportExact(env: Env, s: State, m: Msg)
    requires m.OpenCase? && KeyedReceipts(s.receipts)
    ensures AllSupport(env, s, m) <==>
            && m.reportIds != [] && ReportsError(env, s, m, m.reportIds, None).None?
            && forall id :: id in m.reportIds ==> id in s.reports
  {
    ReportsExact(env, s, m, m.reportIds, None);
    hide ReportsError, Supports, SameFacts;
  }

  lemma DraftVoters(s: State, m: Msg)
    requires m.OpenCase?
    ensures var c := DraftCase(s, m); c.voters == VotersOf(s.agents) && c.snapshotVersion == 1 && c.quorum == ParamsInForce(s).quorum
  {
    hide VotersOf;
  }

  // ---- voting

  /** A first vote in time, by the signer of a frozen voter, for the case's action, signed with the frozen key. */
  ghost predicate MayVote(env: Env, s: State, submitter: string, vote: Option<SanctionVote>)
  {
    && env.isAddress(submitter) && vote.Some?
    && var v := vote.value;
    && v.option in {Approve, Reject, Abstain} && v.caseId in s.cases && (v.caseId, v.agentId) !in s.votes
    && var c := s.cases[v.caseId];
    && ((c.status == Pending && s.height <= c.deadline) || (c.status == Approved && c.action == RevertTransfer))
    && (v.option == Approve ==> v.approvedAction == c.action)
    && c.snapshotVersion == 1
    && exists i :: 0 <= i < |c.voters| && c.voters[i].agentId == v.agentId
         && (forall j :: 0 <= j < i ==> c.voters[j].agentId != v.agentId)
         && c.voters[i].signer == submitter && c.voters[i].publicKey != [] && v.signature != []
         && env.verify(c.voters[i].publicKey, v.signature, SignBytes.VoteBytes(env.chainId, v))
  }

  lemma {:induction false} FirstVoter(voters: seq<AgentInfo>, id: string)
    ensures FindVoter(voters, id).Some? ==>
      exists i :: 0 <= i < |voters| && voters[i] == FindVoter(voters, id).value && voters[i].agentId == id
                  && forall j :: 0 <= j < i ==> voters[j].agentId != id
    ensures FindVoter(voters, id).None? ==> forall i :: 0 <= i < |voters| ==> voters[i].agentId != id
  {
    if voters != [] && voters[0].agentId != id {
      FirstVoter(voters[1..], id);
      assert forall i :: 1 <= i < |voters| ==> voters[i] == voters[1..][i - 1];
      if FindVoter(voters[1..], id).Some? {
        var i :| 0 <= i < |voters[1..]| && voters[1..][i] == FindVoter(voters, id).value && voters[1..][i].agentId == id
                 && forall j :: 0 <= j < i ==> voters[1..][j].agentId != id;
        assert voters[i + 1] == FindVoter(voters, id).value;
      }
    }
  }

  lemma VotingExact(env: Env, s: State, submitter: string, vote: Option<SanctionVote>)
    ensures VoteError(env, s, SubmitVote(submitter, vote)).None? <==> MayVote(env, s, submitter, vote)
  {
    hide SignBytes.VoteBytes;
    if vote.Some? && vote.value.caseId in s.cases {
      FirstVoter(s.cases[vote.value.caseId].voters, vote.value.agentId);
      hide FindVoter;
    }
  }

  // ---- execution

  ghost predicate EveryoneApproved(s: State, c: SanctionCase)
  {
    forall i :: 0 <= i < |c.voters| ==>
      (c.caseId, c.voters[i].agentId) in s.votes && s.votes[(c.caseId, c.voters[i].agentId)].option == Approve
  }

  /** A settlement goes through: recorded, unsettled, between addresses, and the recipient's account covers it. */
  ghost predicate MaySettle(env: Env, s: State, c: SanctionCase, bankOk: bool)
  {
    && env.hasBank && bankOk && c.reportIds != [] && c.reportIds[0] in s.reports
    && var r := s.reports[c.reportIds[0]];
    && r.txHash == c.txHash && r.recipient == c.target && Recorded(s, r) && PositiveCoin(env, r.amount, r.denom)
    && env.isAddress(r.recipient) && (c.action == RevertTransfer ==> env.isAddress(r.sender))
    && Balance(s, env.account(r.recipient), r.denom) >= env.parseInt(r.amount).value
  }

  /** An approved, unexecuted case with unexpired primary evidence, and what its action needs besides. */
  ghost predicate MayExecute(env: Env, s: State, executor: string, caseId: string, bankOk: bool)
  {
    && env.isAddress(executor) && caseId in s.cases && caseId !in s.executions
    && var c := s.cases[caseId];
    && c.status == Approved && SnapshotValid(env, c)
    && (c.reportIds != [] ==> c.reportIds[0] in s.reports && !(0 < s.reports[c.reportIds[0]].expiry <= s.height))
    && (c.action == RevertTransfer && c.unanimous ==> EveryoneApproved(s, c))
    && c.action in {Watch, BlockTx, FreezeAddress, EscrowFunds, RevertTransfer}
    && (c.action == FreezeAddress ==> c.target != "")
    && (c.action in {EscrowFunds, RevertTransfer} ==> MaySettle(env, s, c, bankOk))
  }

  lemma SettlementExact(env: Env, s: State, c: SanctionCase, bankOk: bool)
    requires KeyedReceipts(s.receipts) && c.action in {EscrowFunds, RevertTransfer}
    ensures SettleError(env, s, c, bankOk).None? <==> MaySettle(env, s, c, bankOk)
  {
    hide Balance;
  }

  lemma EveryoneExact(env: Env, s: State, c: SanctionCase)
    requires SnapshotValid(env, c)
    ensures Unanimous(s.votes, c) <==> EveryoneApproved(s, c)
  {
    Electorate.UnanimousAll(env, s.votes, c);
    hide Unanimous, SnapshotValid;
    assert forall i :: 0 <= i < |c.voters| ==> c.voters[i] in c.voters;
  }

  lemma ExecutionExact(env: Env, s: State, executor: string, caseId: string, message: string, bankOk: bool)
    requires KeyedCases(s.cases) && KeyedReceipts(s.receipts)
    ensures ExecuteError(env, s, Execute(executor, caseId, message), bankOk).None? <==> MayExecute(env, s, executor, caseId, bankOk)
  {
    if caseId in s.cases {
      var c := s.cases[caseId];
      if SnapshotValid(env, c) { EveryoneExact(env, s, c); }
      if c.action in {EscrowFunds, RevertTransfer} { SettlementExact(env, s, c, bankOk); }
      hide SnapshotValid, Unanimous, EveryoneApproved, SettleError, MaySettle;
    }
  }

  // ---- review and revocation

  ghost predicate MayReview(env: Env, s: State, authority: string, caseId: string, reason: string, evidenceHash: Bytes)
  {
    && FromAuthority(env, s, authority) && caseId in s.cases && s.cases[caseId].status != Revoked && caseId !in s.reviews
    && |evidenceHash| == 32 && !env.isBlank(reason) && |reason| <= 1024
  }

  lemma ReviewExact(env: Env, s: State, authority: string, caseId: string, reason: string, evidenceHash: Bytes)
    ensures ReviewError(env, s, Review(authority, caseId, reason, evidenceHash)).None?
            <==> MayReview(env, s, authority, caseId, reason, evidenceHash)
  {
  }

  /** Only the authority in force may revoke, in a later block than a review of its own that has not been used yet. */
  ghost predicate MayRevoke(env: Env, s: State, authority: string, caseId: string, reason: string)
  {
    && FromAuthority(env, s, authority) && caseId in s.cases && s.cases[caseId].status != Revoked && caseId in s.reviews
    && s.reviews[caseId].authority == authority && s.reviews[caseId].reviewedAt < s.height && s.reviews[caseId].revokedAt == 0
    && !env.isBlank(reason) && |reason| <= 1024
  }

  lemma RevocationExact(env: Env, s: State, authority: string, caseId: string, reason: string)
    ensures RevokeError(env, s, Revoke(authority, caseId, reason)).None? <==> MayRevoke(env, s, authority, caseId, reason)
  {
  }

  // ---- leases

  /**
   * A claim names the current epoch of a registered signer, 0 before the first. It renews the live lease of its own
   * holder, or takes the next epoch of a lease that has run out.
   */
  ghost predicate MayClaim(env: Env, s: State, signer: string, holder: string, expectedEpoch: uint64, ttl: uint64, renew: bool)
  {
    && env.isAddress(signer) && signer in s.signerIndex && s.signerIndex[signer] in s.agents
    && |holder| == 64 && (forall i :: 0 <= i < |holder| ==> holder[i] in "0123456789abcdef") && 6 <= ttl <= 100
    && expectedEpoch == (if signer in s.leases then s.leases[signer].epoch else 0)
    && (renew ==> expectedEpoch > 0 && s.leases[signer].holder == holder && s.leases[signer].expires > s.height)
    && (!renew ==> expectedEpoch < U64 - 1 && (signer in s.leases ==> s.leases[signer].expires <= s.height))
  }

  lemma HexDigits(h: string)
    ensures (forall i :: 0 <= i < |h| ==> h[i] in "0123456789abcdef")
            <==> forall i :: 0 <= i < |h| ==> '0' <= h[i] <= '9' || 'a' <= h[i] <= 'f'
  {
    var digits := "0123456789abcdef";
    forall i | 0 <= i < |h| ensures h[i] in digits <==> '0' <= h[i] <= '9' || 'a' <= h[i] <= 'f' {
      HexDigit(h[i]);
    }
  }

  lemma HexDigit(c: char)
    ensures c in "0123456789abcdef" <==> '0' <= c <= '9' || 'a' <= c <= 'f'
  {
    var digits := "0123456789abcdef";
    if '0' <= c <= '9' { assert digits[(c - '0') as int] == c; }
    if 'a' <= c <= 'f' { assert digits[(c - 'a') as int + 10] == c; }
  }

  lemma ClaimExact(env: Env, s: State, signer: string, holder: string, expectedEpoch: uint64, ttl: uint64, renew: bool)
    ensures ClaimError(env, s, ClaimLease(signer, holder, expectedEpoch, ttl, renew)).None?
            <==> MayClaim(env, s, signer, holder, expectedEpoch, ttl, renew)
  {
    HexDigits(holder);
  }

  // ---- sends

  /** Coins the account holds, between addresses of which neither account is frozen. */
  ghost predicate MaySend(env: Env, s: State, from: string, to: string, coins: seq<Coin>, bankOk: bool)
  {
    && bankOk && env.isAddress(from) && env.isAddress(to) && env.account(from) !in s.freezes && env.account(to) !in s.freezes
    && coins != []
    && (forall i :: 0 <= i < |coins| ==>
          0 < coins[i].amount < MAX_INT && env.validDenom(coins[i].denom)
          && Balance(s, env.account(from), coins[i].denom) >= coins[i].amount)
    && (forall i, j :: 0 <= i < j < |coins| ==> Strings.Less(coins[i].denom, coins[j].denom))
  }

  lemma SendExact(env: Env, s: State, from: string, to: string, coins: seq<Coin>, bankOk: bool)
    ensures BankSendError(env, s, Send(from, to, coins), bankOk).None? <==> MaySend(env, s, from, to, coins, bankOk)
  {
    hide Balance, Strings.Less;
    assert forall i :: 0 <= i < |coins| ==> coins[i] in coins;
  }

  // ---- every message

  ghost predicate May(env: Env, s: State, m: Msg, bankOk: bool)
  {
    match m
    case RegisterAgent(authority, agent) => MayRegister(env, s, authority, agent)
    case SubmitReport(submitter, report) => MayReport(env, s, submitter, report)
    case OpenCase(_, _, _, _, _, _, _, _, _) => MayOpen(env, s, m)
    case SubmitVote(submitter, vote) => MayVote(env, s, submitter, vote)
    case Execute(executor, caseId, _) => MayExecute(env, s, executor, caseId, bankOk)
    case Revoke(authority, caseId, reason) => MayRevoke(env, s, authority, caseId, reason)
    case Review(authority, caseId, reason, evidenceHash) => MayReview(env, s, authority, caseId, reason, evidenceHash)
    case UpdateParams(authority, params) => MaySetParams(env, s, authority, params)
    case ClaimLease(signer, holder, epoch, ttl, renew) => MayClaim(env, s, signer, holder, epoch, ttl, renew)
    case Send(from, to, coins) => MaySend(env, s, from, to, coins, bankOk)
  }

  /** Every message is accepted exactly when its condition holds. */
  lemma AcceptedExactly(env: Env, s: State, m: Msg, bankOk: bool)
    requires Keyed(s)
    ensures HandleError(env, s, m, bankOk).None? <==> May(env, s, m, bankOk)
  {
    KeyedParts(s);
    hide RegisterAgentError, SubmitReportError, OpenCaseError, VoteError, ExecuteError, RevokeError, ReviewError;
    hide UpdateParamsError, ClaimError, BankSendError, Keyed;
    hide MayRegister, MayReport, MayOpen, MayVote, MayExecute, MayRevoke, MayReview, MaySetParams, MayClaim, MaySend;
    match m
    case RegisterAgent(authority, agent) => RegistrationExact(env, s, authority, agent);
    case SubmitReport(submitter, report) => ReportExact(env, s, submitter, report);
    case OpenCase(_, _, _, _, _, _, _, _, _) => OpeningExact(env, s, m);
    case SubmitVote(submitter, vote) => VotingExact(env, s, submitter, vote);
    case Execute(executor, caseId, message) => ExecutionExact(env, s, executor, caseId, message, bankOk);
    case Revoke(authority, caseId, reason) => RevocationExact(env, s, authority, caseId, reason);
    case Review(authority, caseId, reason, evidenceHash) => ReviewExact(env, s, authority, caseId, reason, evidenceHash);
    case UpdateParams(authority, params) => ParamsExact(env, s, authority, params);
    case ClaimLease(signer, holder, epoch, ttl, renew) => ClaimExact(env, s, signer, holder, epoch, ttl, renew);
    case Send(from, to, coins) => SendExact(env, s, from, to, coins, bankOk);
  }

  // ---- the ante check

  /** The signer holds no lease, or signs under the memo of its live lease. */
  predicate SignsLive(s: State, memo: string, signer: string)
  {
    signer in s.leases ==>
      && s.leases[signer].expires > s.height
      && memo == "g503-lease:" + Decimal.Format(s.leases[signer].epoch) + ":" + s.leases[signer].holder
  }

  /** A claim stands alone and frees its own signer from the memo; every other signer needs a live one. */
  ghost predicate MayEnter(s: State, tx: Chain.Tx)
  {
    if exists i :: 0 <= i < |tx.calls| && tx.calls[i].msg.ClaimLease? then
      && |tx.calls| == 1
      && forall i :: 0 <= i < |tx.signers| && tx.signers[i] != tx.calls[0].msg.signer ==> SignsLive(s, tx.memo, tx.signers[i])
    else
      forall i :: 0 <= i < |tx.signers| && tx.signers[i] != "" ==> SignsLive(s, tx.memo, tx.signers[i])
  }

  lemma {:induction false} NoClaimSigner(calls: seq<Chain.Call>)
    requires !Chain.HasClaim(calls)
    ensures Chain.ClaimSigner(calls) == ""
  {
    if calls != [] {
      NoClaimSigner(calls[..|calls| - 1]);
    }
  }

  /** A transaction enters exactly under these conditions; an account is never the empty text. */
  lemma EntryExact(s: State, tx: Chain.Tx)
    ensures Chain.AnteError(s, tx).None? <==> MayEnter(s, tx)
  {
    if !Chain.HasClaim(tx.calls) {
      NoClaimSigner(tx.calls);
    } else if |tx.calls| == 1 {
      assert tx.calls[0].msg.ClaimLease?;
    }
    hide Decimal.Format;
  }
}
