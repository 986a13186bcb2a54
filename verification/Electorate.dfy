/**
 * Frozen electorates: decisions rest on stored, signed votes of the snapshot and on the
 * quorum fixed at opening, whatever the registry and the parameters do later.
 */
module Electorate {
  import opened Basics
  import opened Types
  import opened Store
  import opened Handlers
  import opened Frames
  import opened Chain
  import RegistrySync
  import Tally
  import Percent
  import SignBytes
  import Strings
  import Policy

  /** A stored vote: cast by a snapshot member, signed with its snapshot key, for the case's action. */
  ghost predicate VoteOk(env: Env, c: SanctionCase, v: SanctionVote)
  {
    && v.option in {Approve, Reject, Abstain}
    && (v.option == Approve ==> v.approvedAction == c.action)
    && exists a :: a in c.voters && a.agentId == v.agentId
         && VerifySignature(env, a.publicKey, v.signature, SignBytes.VoteBytes(env.chainId, v))
  }

  ghost predicate VotesOk(env: Env, cases: map<string, SanctionCase>, votes: Votes)
  {
    forall k :: k in votes ==> k.0 in cases && VoteOk(env, cases[k.0], votes[k])
  }

  /** Every snapshot member approved the action. */
  ghost predicate AllApproved(votes: Votes, c: SanctionCase)
  {
    forall a :: a in c.voters ==>
      (c.caseId, a.agentId) in votes && votes[(c.caseId, a.agentId)].option == Approve
  }

  /** What the status of one case rests on. */
  ghost predicate CaseOk(env: Env, votes: Votes, executions: map<string, ExecutionRecord>, c: SanctionCase)
  {
    && SnapshotValid(env, c) && c.status != NoStatus
    && (c.status in {Approved, Executed} || c.caseId in executions ==> QuorumMet(votes, c))
    && (c.status == Executed ==> c.caseId in executions)
    && (c.executedAt != 0 <==> c.caseId in executions)
    && (c.caseId in executions ==>
          && c.status in {Executed, Revoked} && executions[c.caseId].action == c.action
          && (c.action == RevertTransfer && c.unanimous ==> AllApproved(votes, c)))
  }

  ghost predicate CasesOk(env: Env, cases: map<string, SanctionCase>, votes: Votes, executions: map<string, ExecutionRecord>)
  {
    forall id :: id in cases ==> CaseOk(env, votes, executions, cases[id])
  }

  ghost predicate ExecutionsOk(cases: map<string, SanctionCase>, executions: map<string, ExecutionRecord>)
  {
    forall id :: id in executions ==> id in cases
  }

  ghost predicate Decided(env: Env, s: State)
  {
    && s.height >= 1 && Keyed(s)
    && VotesOk(env, s.cases, s.votes) && CasesOk(env, s.cases, s.votes, s.executions)
    && ExecutionsOk(s.cases, s.executions)
  }

  // ---- votes only accumulate

  lemma VotedMonotone(votes: Votes, more: Votes, c: SanctionCase, option: VoteOption)
    requires Grows(votes, more)
    ensures Voted(votes, c.caseId, option) <= Voted(more, c.caseId, option)
  {
    forall a | a in Voted(votes, c.caseId, option) ensures a in Voted(more, c.caseId, option) {
      assert (c.caseId, a) in votes;
      assert (c.caseId, a) in more;
    }
  }

  /** Once reached, the quorum of a case is never lost. */
  lemma QuorumStable(votes: Votes, more: Votes, c: SanctionCase)
    requires Grows(votes, more) && QuorumMet(votes, c)
    ensures QuorumMet(more, c)
  {
    VotedMonotone(votes, more, c, Approve);
    Tally.PowerInMonotone(c.voters, Voted(votes, c.caseId, Approve), Voted(more, c.caseId, Approve));
    Tally.PowerInBound(c.voters, Voted(more, c.caseId, Approve));
    Percent.PercentMonotone(ApprovePower(votes, c), ApprovePower(more, c), Tally.TotalPower(c.voters), c.quorum);
  }

  lemma CaseOkStable(env: Env, votes: Votes, more: Votes, executions: map<string, ExecutionRecord>, c: SanctionCase)
    requires Grows(votes, more) && CaseOk(env, votes, executions, c)
    ensures CaseOk(env, more, executions, c)
  {
    hide SnapshotValid;
    if QuorumMet(votes, c) { QuorumStable(votes, more, c); }
    hide QuorumMet;
  }

  /** Every weighted member approving is every member approving, for a valid snapshot. */
  lemma UnanimousAll(env: Env, votes: Votes, c: SanctionCase)
    requires SnapshotValid(env, c)
    ensures Unanimous(votes, c) <==> AllApproved(votes, c)
  {
    forall v | v in c.voters ensures v.active && v.power != 0 {
      var i :| 0 <= i < |c.voters| && c.voters[i] == v;
    }
    assert c.voters[0] in c.voters;
  }

  // ---- one message at a time

  lemma VotesFollowCases(env: Env, cases: map<string, SanctionCase>, cases': map<string, SanctionCase>, votes: Votes)
    requires VotesOk(env, cases, votes) && CasesGrow(cases, cases')
    ensures VotesOk(env, cases', votes)
  {
    hide VerifySignature, SignBytes.VoteBytes;
  }

  lemma ExtendsCases(s: State, s': State)
    requires Sound(s, s')
    ensures Keyed(s') && CasesGrow(s.cases, s'.cases) && Grows(s.votes, s'.votes) && s.height <= s'.height
    ensures Grows(s.executions, s'.executions)
  {
    hide Keyed;
  }

  lemma OpenCasesOk(env: Env, s: State, previous: string, c: SanctionCase)
    requires KeyedCases(s.cases) && CasesOk(env, s.cases, s.votes, s.executions) && ExecutionsOk(s.cases, s.executions)
    requires previous != "" ==> previous in s.cases && previous !in s.executions
    requires c.caseId !in s.cases && SnapshotValid(env, c) && c.status == Pending && c.executedAt == 0
    ensures CasesOk(env, OpenEffect(s, previous, c).cases, s.votes, s.executions)
    ensures s.cases.Keys <= OpenEffect(s, previous, c).cases.Keys
  {
    hide SnapshotValid, QuorumMet, AllApproved, IndexByTx, IndexByAddress;
    if previous != "" {
      var p := s.cases[previous];
      assert CaseOk(env, s.votes, s.executions, p);
      ExpiredCaseOk(env, s.votes, s.executions, p);
    }
    assert CaseOk(env, s.votes, s.executions, c) by { hide OpenEffect; }
    hide CaseOk;
  }

  lemma ExpiredCaseOk(env: Env, votes: Votes, executions: map<string, ExecutionRecord>, c: SanctionCase)
    requires CaseOk(env, votes, executions, c) && c.caseId !in executions
    ensures CaseOk(env, votes, executions, c.(status := Expired))
  {
    SnapshotOnly(env, c, c.(status := Expired));
    hide SnapshotValid, QuorumMet, AllApproved;
  }

  lemma SnapshotOnly(env: Env, c: SanctionCase, c': SanctionCase)
    requires SameOpening(c, c') && SnapshotValid(env, c)
    ensures SnapshotValid(env, c')
  {
  }

  lemma OpenDecided(env: Env, s: State, previous: string, c: SanctionCase)
    requires Decided(env, s)
    requires previous != "" ==> previous in s.cases && previous !in s.executions
    requires c.caseId !in s.cases && SnapshotValid(env, c) && c.status == Pending && c.executedAt == 0
    ensures Decided(env, OpenEffect(s, previous, c))
  {
    var s' := OpenEffect(s, previous, c);
    hide SnapshotValid, CaseOk, VoteOk;
    OpenSound(s, previous, c);
    OpenCasesOk(env, s, previous, c);
    OpenDecisionTables(s, previous, c);
    hide OpenEffect, CasesOk;
    ExtendsCases(s, s');
    hide Keyed;
    VotesFollowCases(env, s.cases, s'.cases, s.votes);
  }

  lemma OpenDecisionTables(s: State, previous: string, c: SanctionCase)
    requires previous != "" ==> previous in s.cases
    ensures OpenEffect(s, previous, c).votes == s.votes && OpenEffect(s, previous, c).executions == s.executions
  {
    hide IndexByTx, IndexByAddress;
  }

  lemma {:induction false} FindVoterIn(voters: seq<AgentInfo>, id: string)
    ensures FindVoter(voters, id).Some? ==> FindVoter(voters, id).value in voters && FindVoter(voters, id).value.agentId == id
    ensures FindVoter(voters, id).None? ==> forall a :: a in voters ==> a.agentId != id
  {
    if voters != [] {
      FindVoterIn(voters[1..], id);
      assert voters == [voters[0]] + voters[1..];
    }
  }

  /** What an accepted vote has been checked for. */
  lemma AcceptedVote(env: Env, s: State, m: Msg)
    requires m.SubmitVote? && VoteError(env, s, m).None?
    ensures m.vote.Some?
    ensures var v := m.vote.value; v.caseId in s.cases && (v.caseId, v.agentId) !in s.votes
    ensures var v := m.vote.value; var c := s.cases[v.caseId];
      && (c.status == Pending || (c.status == Approved && c.action == RevertTransfer))
      && (c.status == Pending ==> s.height <= c.deadline)
      && VoteOk(env, c, v)
      && exists a :: a in c.voters && a.agentId == v.agentId && a.signer == m.submitter
  {
    hide SignBytes.VoteBytes, VerifySignature;
    var v := m.vote.value;
    FindVoterIn(s.cases[v.caseId].voters, v.agentId);
  }

  /** Recomputing with more votes: an approved case stays approved. */
  lemma RecomputeDecided(env: Env, votes: Votes, more: Votes, executions: map<string, ExecutionRecord>, c: SanctionCase)
    requires Grows(votes, more) && CaseOk(env, votes, executions, c) && c.status in {Pending, Approved}
    ensures CaseOk(env, more, executions, c.(status := RecomputedStatus(more, c)))
    ensures c.status == Approved ==> RecomputedStatus(more, c) == Approved
  {
    var c' := c.(status := RecomputedStatus(more, c));
    SnapshotOnly(env, c, c');
    assert c.snapshotVersion == 1;
    hide SnapshotValid;
    if c.status == Approved { QuorumStable(votes, more, c); }
    assert QuorumMet(more, c) <==> QuorumMet(more, c');
    hide QuorumMet, AllApproved, RejectionMet;
  }

  lemma VoteCasesOk(env: Env, s: State, v: SanctionVote)
    requires KeyedCases(s.cases) && CasesOk(env, s.cases, s.votes, s.executions)
    requires v.caseId in s.cases && (v.caseId, v.agentId) !in s.votes && s.cases[v.caseId].status in {Pending, Approved}
    ensures CasesOk(env, VoteEffect(s, v).cases, VoteEffect(s, v).votes, s.executions)
  {
    var c := s.cases[v.caseId];
    var votes' := SetVote(s, v).votes;
    assert Grows(s.votes, votes');
    RecomputeDecided(env, s.votes, votes', s.executions, c);
    forall id | id in s.cases ensures CaseOk(env, votes', s.executions, s.cases[id]) {
      CaseOkStable(env, s.votes, votes', s.executions, s.cases[id]);
    }
    VoteTables(s, v);
    hide CaseOk, VoteEffect, RecomputedStatus;
  }

  lemma VoteTables(s: State, v: SanctionVote)
    requires KeyedCases(s.cases) && v.caseId in s.cases
    ensures var s' := VoteEffect(s, v); var c := s.cases[v.caseId];
      && s'.votes == s.votes[(v.caseId, v.agentId) := v] && s'.executions == s.executions && s'.freezes == s.freezes
      && s'.cases == s.cases[v.caseId := c.(status := RecomputedStatus(s'.votes, c))]
      && s'.activeTxs == if Activates(s'.votes, c) then s.activeTxs[c.txHash := ActivationOf(s, c)] else s.activeTxs
  {
    hide Activates, RecomputedStatus;
  }

  lemma VoteVotesOk(env: Env, s: State, v: SanctionVote)
    requires VotesOk(env, s.cases, s.votes) && v.caseId in s.cases && VoteOk(env, s.cases[v.caseId], v)
    ensures VotesOk(env, s.cases, SetVote(s, v).votes)
  {
    hide VoteOk;
  }

  lemma VoteDecided(env: Env, s: State, v: SanctionVote)
    requires Decided(env, s)
    requires v.caseId in s.cases && (v.caseId, v.agentId) !in s.votes && s.cases[v.caseId].status in {Pending, Approved}
    requires VoteOk(env, s.cases[v.caseId], v)
    ensures Decided(env, VoteEffect(s, v))
  {
    var s' := VoteEffect(s, v);
    VoteSound(s, v);
    ExtendsCases(s, s');
    VoteTables(s, v);
    VoteCasesOk(env, s, v);
    VoteVotesOk(env, s, v);
    VotesFollowCases(env, s.cases, s'.cases, s'.votes);
    hide VotesOk, CasesOk, Keyed, VoteEffect;
  }

  lemma ExecuteTables(env: Env, s: State, c: SanctionCase, record: ExecutionRecord)
    requires Monetary(c.action) ==> Settleable(env, s, c)
    ensures var s' := ExecuteEffect(env, s, c, record);
      && s'.votes == s.votes && s'.executions == s.executions[record.caseId := record]
      && s'.cases == s.cases[c.caseId := c.(status := Executed, executedAt := s.height)]
      && s'.activeTxs == ActiveAfter(s, c) && s'.freezes == FrozenAfter(s, c)
  {
    ActionTables(env, s, c);
    hide ActionEffect, Settleable;
  }

  lemma ActionTables(env: Env, s: State, c: SanctionCase)
    requires Monetary(c.action) ==> Settleable(env, s, c)
    ensures var s' := ActionEffect(env, s, c);
      && s'.votes == s.votes && s'.executions == s.executions && s'.cases == s.cases
      && s'.activeTxs == ActiveAfter(s, c) && s'.freezes == FrozenAfter(s, c)
  {
    hide SettleEffect, Settleable;
    if Monetary(c.action) { SettleTables(env, s, c); }
  }

  lemma SettleTables(env: Env, s: State, c: SanctionCase)
    requires Settleable(env, s, c)
    ensures var s' := SettleEffect(env, s, c);
      && s'.votes == s.votes && s'.executions == s.executions && s'.cases == s.cases
      && s'.activeTxs == s.activeTxs && s'.freezes == s.freezes
  {
    hide SettlementMove, CoinsOk, Balance;
  }

  lemma ExecuteDecided(env: Env, s: State, c: SanctionCase, record: ExecutionRecord)
    requires Decided(env, s) && c.caseId in s.cases && s.cases[c.caseId] == c && c.status == Approved
    requires record.caseId == c.caseId && record.caseId !in s.executions && record.action == c.action
    requires c.action == RevertTransfer && c.unanimous ==> Unanimous(s.votes, c)
    requires Monetary(c.action) ==> Settleable(env, s, c) && UnsettledError(s, s.reports[c.reportIds[0]]).None?
    ensures Decided(env, ExecuteEffect(env, s, c, record))
  {
    var s' := ExecuteEffect(env, s, c, record);
    ExecuteSound(env, s, c, record);
    ExtendsCases(s, s');
    ExecuteTables(env, s, c, record);
    hide ExecuteEffect, Settleable, UnsettledError, Keyed;
    VotesFollowCases(env, s.cases, s'.cases, s.votes);
    ExecuteCasesOk(env, s, c, record);
    hide CasesOk, VotesOk, Unanimous;
  }

  lemma ExecuteCasesOk(env: Env, s: State, c: SanctionCase, record: ExecutionRecord)
    requires s.height >= 1 && KeyedCases(s.cases) && CasesOk(env, s.cases, s.votes, s.executions)
    requires c.caseId in s.cases && s.cases[c.caseId] == c && c.status == Approved
    requires record.caseId == c.caseId && record.caseId !in s.executions && record.action == c.action
    requires c.action == RevertTransfer && c.unanimous ==> Unanimous(s.votes, c)
    ensures CasesOk(env, s.cases[c.caseId := c.(status := Executed, executedAt := s.height)], s.votes,
                    s.executions[record.caseId := record])
  {
    var c' := c.(status := Executed, executedAt := s.height);
    UnanimousAll(env, s.votes, c);
    SnapshotOnly(env, c, c');
    assert QuorumMet(s.votes, c) <==> QuorumMet(s.votes, c');
    assert AllApproved(s.votes, c) <==> AllApproved(s.votes, c');
    hide SnapshotValid, QuorumMet, AllApproved, Unanimous;
  }

  lemma RevokeCasesOk(env: Env, s: State, c: SanctionCase)
    requires KeyedCases(s.cases) && CasesOk(env, s.cases, s.votes, s.executions)
    requires c.caseId in s.cases && s.cases[c.caseId] == c
    ensures CasesOk(env, s.cases[c.caseId := c.(status := Revoked)], s.votes, s.executions)
  {
    var c' := c.(status := Revoked);
    SnapshotOnly(env, c, c');
    assert QuorumMet(s.votes, c) <==> QuorumMet(s.votes, c');
    assert AllApproved(s.votes, c) <==> AllApproved(s.votes, c');
    hide SnapshotValid, QuorumMet, AllApproved;
  }

  lemma RevokeDecided(env: Env, s: State, c: SanctionCase, review: ReviewRecord, reason: string)
    requires Decided(env, s) && c.caseId in s.cases && s.cases[c.caseId] == c
    requires review.caseId in s.reviews && s.reviews[review.caseId] == review
    ensures Decided(env, RevokeEffect(s, c, review, reason))
  {
    var s' := RevokeEffect(s, c, review, reason);
    RevokeSound(s, c, review, reason);
    ExtendsCases(s, s');
    RevokeCasesOk(env, s, c);
    hide CasesOk, VoteOk, Keyed;
    VotesFollowCases(env, s.cases, s'.cases, s.votes);
  }

  /** The decision tables, unchanged. */
  ghost predicate SameDecisions(s: State, s': State)
  {
    && s'.cases == s.cases && s'.votes == s.votes && s'.executions == s.executions
    && s'.activeTxs == s.activeTxs && s'.freezes == s.freezes
  }

  lemma OtherMessages(env: Env, s: State, m: Msg, bankOk: bool)
    requires HandleError(env, s, m, bankOk).None?
    requires !m.OpenCase? && !m.SubmitVote? && !m.Execute? && !m.Revoke?
    ensures SameDecisions(s, HandleEffect(env, s, m, bankOk))
  {
    hide BankSendError, ClaimError, SubmitReportError, RegisterAgentError;
    OtherFacts(env, s, m, bankOk);
  }

  /** What opening has checked about the snapshot and the predecessor. */
  lemma AcceptedOpening(env: Env, s: State, m: Msg)
    requires m.OpenCase? && OpenCaseError(env, s, m).None?
    ensures SnapshotValid(env, NewCase(env, s, m))
    ensures m.previous != "" ==> m.previous in s.cases && m.previous !in s.executions
    ensures m.reportIds != [] && m.reportIds[0] in s.reports
    ensures m.previous != "" ==> ReplacementError(s, m.previous, s.reports[m.reportIds[0]], m.targetType).None?
  {
    OpenFacts(env, s, m);
    AcceptedDraft(env, s, m);
    if m.previous != "" {
      assert m.reportIds[0] in m.reportIds;
      AcceptedPredecessor(env, s, m);
    }
    hide OpenCaseError, ReplacementError, NewCase, SnapshotValid;
  }

  lemma AcceptedDraft(env: Env, s: State, m: Msg)
    requires m.OpenCase? && OpenCaseError(env, s, m).None?
    ensures SnapshotValid(env, NewCase(env, s, m))
  {
    hide ReportError, ReportsError, Policy.PolicyAction, Reports, ReplacementError, SnapshotValid, DraftCase, NewCase;
    assert SnapshotValid(env, DraftCase(s, m));
    DraftCopy(env, s, m);
    SnapshotCopy(env, DraftCase(s, m), NewCase(env, s, m));
  }

  lemma DraftCopy(env: Env, s: State, m: Msg)
    requires m.OpenCase?
    ensures NewCase(env, s, m) == DraftCase(s, m).(decisionHash := NewCase(env, s, m).decisionHash)
  {
    hide DraftCase;
  }

  lemma AcceptedPredecessor(env: Env, s: State, m: Msg)
    requires m.OpenCase? && OpenCaseError(env, s, m).None? && m.previous != "" && m.reportIds != [] && m.reportIds[0] in s.reports
    ensures m.previous in s.cases && m.previous !in s.executions
    ensures ReplacementError(s, m.previous, s.reports[m.reportIds[0]], m.targetType).None?
  {
    hide ReportError, ReportsError, Policy.PolicyAction, Reports, HasSuccessor, PrimaryError, SnapshotValid, DraftCase;
  }

  lemma SnapshotCopy(env: Env, c: SanctionCase, c': SanctionCase)
    requires c' == c.(decisionHash := c'.decisionHash) && SnapshotValid(env, c)
    ensures SnapshotValid(env, c')
  {
  }

  lemma StatusFacts(env: Env, s: State, m: Msg, bankOk: bool)
    requires m.Execute? && ExecuteError(env, s, m, bankOk).None?
    ensures m.caseId in s.cases
    ensures var c := s.cases[m.caseId]; c.action == RevertTransfer && c.unanimous ==> Unanimous(s.votes, c)
  {
    hide SnapshotValid, Unanimous, SettleError;
  }

  /** Every accepted message keeps decisions sound. */
  lemma HandleDecided(env: Env, s: State, m: Msg, bankOk: bool)
    requires Decided(env, s) && HandleError(env, s, m, bankOk).None?
    ensures Decided(env, HandleEffect(env, s, m, bankOk))
  {
    hide OpenCaseError, VoteError, ExecuteError, BankSendError, ClaimError, SubmitReportError, RegisterAgentError;
    hide OpenEffect, VoteEffect, ExecuteEffect, RevokeEffect, NewCase, ExecutionOf, Settleable, UnsettledError, Unanimous;
    assert Keyed(s);
    match m {
      case OpenCase(_, _, _, _, _, _, _, _, _) =>
        OpenFacts(env, s, m);
        AcceptedOpening(env, s, m);
        NewCaseFields(env, s, m);
        OpenDecided(env, s, m.previous, NewCase(env, s, m));
      case SubmitVote(_, v) =>
        AcceptedVote(env, s, m);
        VoteDecided(env, s, v.value);
      case Execute(executor, id, message) =>
        ExecuteFacts(env, s, m, bankOk);
        StatusFacts(env, s, m, bankOk);
        KeyedAt(s, id);
        RecordFields(env, s, s.cases[id], executor, message);
        ExecuteDecided(env, s, s.cases[id], ExecutionOf(env, s, s.cases[id], executor, message));
      case Revoke(_, id, reason) =>
        OtherFacts(env, s, m, bankOk);
        KeyedAt(s, id);
        RevokeDecided(env, s, s.cases[id], s.reviews[id], reason);
      case _ =>
        OtherMessages(env, s, m, bankOk);
        HandleSound(env, s, m, bankOk);
        HandleContext(env, s, m, bankOk);
        hide Keyed, Extends, VotesOk, CasesOk, HandleEffect;
    }
  }

  lemma NewCaseFields(env: Env, s: State, m: Msg)
    requires m.OpenCase?
    ensures var c := NewCase(env, s, m);
      && c.caseId == m.caseId && c.previous == m.previous && c.txHash == m.txHash && c.target == m.target
      && c.targetType == m.targetType && c.action == m.action && c.status == Pending && c.reportIds == m.reportIds
      && c.openedAt == s.height && c.executedAt == 0 && c.quorum == GetParams(s).quorum
      && c.unanimous == GetParams(s).unanimous && c.voters == VotersOf(s.agents)
  {
    hide VotersOf;
  }

  lemma RecordFields(env: Env, s: State, c: SanctionCase, executor: string, message: string)
    requires Monetary(c.action) ==> Settleable(env, s, c)
    ensures var r := ExecutionOf(env, s, c, executor, message); r.caseId == c.caseId && r.action == c.action
  {
    hide StateHash, Settleable;
  }

  /** Block ends, receipts and new heights leave decisions as they are. */
  lemma QuietDecided(env: Env, s: State, s': State)
    requires Decided(env, s) && Keyed(s') && SameDecisions(s, s') && s'.height >= s.height
    ensures Decided(env, s')
  {
    hide Keyed, VotesOk, CasesOk;
  }
}
