/** What accepted messages leave behind, read off the tables afterwards. */
module Outcomes {
  import opened Basics
  import opened Types
  import opened Store
  import opened Handlers
  import opened Frames
  import opened Chain
  import opened Electorate
  import opened Evidence
  import opened Replacement
  import opened Runs
  import opened Events
  import opened Acceptance
  import CaseTheorems
  import Effects
  import Closure
  import Decimal
  import Percent
  import Tally

  // ---- votes

  /** Power of the snapshot members whose stored vote on the case is this option. */
  ghost function PowerFor(votes: map<(string, string), SanctionVote>, c: SanctionCase, option: VoteOption): nat
  {
    PowerOf(votes, c.caseId, c.voters, option)
  }

  ghost function PowerOf(votes: map<(string, string), SanctionVote>, caseId: string, voters: seq<AgentInfo>, option: VoteOption): nat
  {
    if voters == [] then 0 else
      var a := voters[|voters| - 1];
      PowerOf(votes, caseId, voters[..|voters| - 1], option)
      + if a.active && (caseId, a.agentId) in votes && votes[(caseId, a.agentId)].option == option then a.power else 0
  }

  ghost function AllPower(voters: seq<AgentInfo>): nat
  {
    if voters == [] then 0 else
      AllPower(voters[..|voters| - 1]) + if voters[|voters| - 1].active then voters[|voters| - 1].power else 0
  }

  lemma {:induction false} PowerAgrees(votes: map<(string, string), SanctionVote>, caseId: string, voters: seq<AgentInfo>, option: VoteOption)
    ensures PowerOf(votes, caseId, voters, option) == Tally.PowerIn(voters, Voted(votes, caseId, option))
    ensures AllPower(voters) == Tally.TotalPower(voters)
  {
    if voters != [] {
      PowerAgrees(votes, caseId, voters[..|voters| - 1], option);
      var id := voters[|voters| - 1].agentId;
      assert id in Voted(votes, caseId, option) <==> (caseId, id) in votes && votes[(caseId, id)].option == option by {
        VotedExact(votes, caseId, option, id);
      }
    }
  }

  lemma VotedExact(votes: map<(string, string), SanctionVote>, caseId: string, option: VoteOption, id: string)
    ensures id in Voted(votes, caseId, option) <==> (caseId, id) in votes && votes[(caseId, id)].option == option
  {
    if id in Voted(votes, caseId, option) {
      var k :| k in votes && k.0 == caseId && votes[k].option == option && k.1 == id;
      assert k == (caseId, id);
    }
    if (caseId, id) in votes && votes[(caseId, id)].option == option {
      var k := (caseId, id);
      assert k in votes && k.0 == caseId && k.1 == id;
    }
  }

  /** The decision that the stored votes call for: approval first, then rejection, by exact comparison with the quorum. */
  ghost function DecisionOf(votes: map<(string, string), SanctionVote>, c: SanctionCase): Status
  {
    var approve, reject, total := PowerFor(votes, c, Approve), PowerFor(votes, c, Reject), AllPower(c.voters);
    if 100 * approve > (c.quorum - 1) * total then Approved
    else if 100 * reject > (c.quorum - 1) * total then Rejected
    else c.status
  }

  lemma DecisionAgrees(env: Env, votes: map<(string, string), SanctionVote>, c: SanctionCase)
    requires SnapshotValid(env, c)
    ensures RecomputedStatus(votes, c) == DecisionOf(votes, c)
  {
    forall v | v in c.voters ensures v.active && v.power > 0 {
      var i :| 0 <= i < |c.voters| && c.voters[i] == v;
      assert VoterValid(env, c.voters[i]);
    }
    assert c.snapshotVersion == 1 && c.voters != [];
    hide SnapshotValid;
    Tally.TotalPowerPositive(c.voters);
    PowerAgrees(votes, c.caseId, c.voters, Approve);
    PowerAgrees(votes, c.caseId, c.voters, Reject);
    Tally.PowerInBound(c.voters, Voted(votes, c.caseId, Approve));
    Tally.PowerInBound(c.voters, Voted(votes, c.caseId, Reject));
    var total := Tally.TotalPower(c.voters);
    Percent.ThresholdExact(ApprovePower(votes, c), total, c.quorum);
    Percent.ThresholdExact(RejectPower(votes, c), total, c.quorum);
    hide Percent.RoundedPercent, Tally.TotalPower, Tally.PowerIn, Voted, AllPower, PowerOf;
  }

  /** After an accepted vote the vote is stored as sent, and the case stands exactly as all its stored votes decide. */
  lemma VoteDecides(env: Env, s: State, m: Msg, bankOk: bool)
    requires Inv(env, s) && m.SubmitVote? && HandleError(env, s, m, bankOk).None?
    ensures m.vote.Some? && m.vote.value.caseId in s.cases
    ensures var s' := HandleEffect(env, s, m, bankOk); var v := m.vote.value; var c := s.cases[v.caseId];
      && s'.votes == s.votes[(v.caseId, v.agentId) := v]
      && s'.cases == s.cases[v.caseId := c.(status := DecisionOf(s'.votes, c))]
      && s'.activeTxs == (if c.action == BlockTx && DecisionOf(s'.votes, c) == Approved
                          then s.activeTxs[c.txHash := ActiveSanction(c.caseId, c.txHash, c.target, BlockTx, s.height)] else s.activeTxs)
      && s'.freezes == s.freezes
  {
    AcceptedVote(env, s, m);
    DecidedParts(env, s);
    var v := m.vote.value;
    var c := s.cases[v.caseId];
    assert CaseOk(env, s.votes, s.executions, c);
    hide Inv, VoteError, VoteOk;
    VoteTables(s, v);
    DecisionAgrees(env, VoteEffect(s, v).votes, c);
    hide VoteEffect, DecisionOf, SnapshotValid, CaseOk;
    ActivatesWhenApproved(env, VoteEffect(s, v).votes, c);
    hide Activates, RecomputedStatus;
  }

  lemma ActivatesWhenApproved(env: Env, votes: map<(string, string), SanctionVote>, c: SanctionCase)
    requires c.snapshotVersion == 1 && (c.status == Pending || (c.status == Approved && c.action == RevertTransfer))
    ensures Activates(votes, c) <==> c.action == BlockTx && RecomputedStatus(votes, c) == Approved
  {
    hide QuorumMet, RejectionMet;
  }

  // ---- what moves a case from one status to another

  /** The only message that leads an existing case to this status. */
  ghost predicate Causes(m: Msg, id: string, status: Status)
  {
    match status
    case Approved => m.SubmitVote? && m.vote.Some? && m.vote.value.caseId == id
    case Rejected => m.SubmitVote? && m.vote.Some? && m.vote.value.caseId == id
    case Executed => m.Execute? && m.caseId == id
    case Expired => m.OpenCase? && m.previous == id
    case Revoked => m.Revoke? && m.caseId == id
    case _ => false
  }

  /** Changed cases have their cause, and new ones come pending from an opening under their id. */
  ghost predicate Caused(before: map<string, SanctionCase>, after: map<string, SanctionCase>, m: Msg)
  {
    && (forall id :: id in before ==> id in after && (after[id].status != before[id].status ==> Causes(m, id, after[id].status)))
    && (forall id :: id in after && id !in before ==> m.OpenCase? && m.caseId == id && after[id].status == Pending)
  }

  lemma OpeningCaused(s: State, m: Msg, c: SanctionCase)
    requires KeyedCases(s.cases) && m.OpenCase? && c.caseId == m.caseId && c.status == Pending && m.caseId !in s.cases
    requires m.previous != "" ==> m.previous in s.cases
    ensures Caused(s.cases, OpenEffect(s, m.previous, c).cases, m)
  {
    OpenTables(s, m.previous, c);
    hide OpenEffect;
  }

  lemma VotingCaused(env: Env, s: State, m: Msg, bankOk: bool)
    requires Inv(env, s) && m.SubmitVote? && HandleError(env, s, m, bankOk).None?
    ensures Caused(s.cases, HandleEffect(env, s, m, bankOk).cases, m)
  {
    hide HandleEffect, HandleError;
    VoteDecides(env, s, m, bankOk);
    hide Inv, DecisionOf, Caused;
    var v := m.vote.value;
    DecisionCaused(s.cases, HandleEffect(env, s, m, bankOk).votes, m);
  }

  lemma DecisionCaused(cases: map<string, SanctionCase>, votes: map<(string, string), SanctionVote>, m: Msg)
    requires m.SubmitVote? && m.vote.Some? && m.vote.value.caseId in cases
    ensures var id := m.vote.value.caseId; Caused(cases, cases[id := cases[id].(status := DecisionOf(votes, cases[id]))], m)
  {
    hide PowerFor, AllPower;
  }

  lemma ExecutingCaused(env: Env, s: State, m: Msg, bankOk: bool)
    requires KeyedCases(s.cases) && m.Execute? && HandleError(env, s, m, bankOk).None?
    ensures Caused(s.cases, HandleEffect(env, s, m, bankOk).cases, m)
  {
    hide ExecuteError, ExecuteEffect, ExecutionOf, Settleable, UnsettledError;
    ExecuteFacts(env, s, m, bankOk);
    var c := s.cases[m.caseId];
    ExecuteTables(env, s, c, ExecutionOf(env, s, c, m.executor, m.resultMessage));
  }

  lemma RevokingCaused(env: Env, s: State, m: Msg, bankOk: bool)
    requires KeyedCases(s.cases) && m.Revoke? && HandleError(env, s, m, bankOk).None?
    ensures Caused(s.cases, HandleEffect(env, s, m, bankOk).cases, m)
  {
    hide WithoutActive, WithoutFreeze, IndexByTx, IndexByAddress;
  }

  lemma MessageCauses(env: Env, s: State, m: Msg, bankOk: bool)
    requires Inv(env, s) && HandleError(env, s, m, bankOk).None?
    ensures Caused(s.cases, HandleEffect(env, s, m, bankOk).cases, m)
  {
    DecidedParts(env, s);
    hide Caused, OpenEffect, NewCase, OpenCaseError, Keyed;
    if m.OpenCase? {
      hide Inv;
      OpenFacts(env, s, m);
      NewCaseFields(env, s, m);
      OpeningCaused(s, m, NewCase(env, s, m));
    } else {
      hide HandleEffect, HandleError;
      if m.SubmitVote? {
        VotingCaused(env, s, m, bankOk);
      } else if m.Execute? {
        ExecutingCaused(env, s, m, bankOk);
      } else if m.Revoke? {
        RevokingCaused(env, s, m, bankOk);
      } else {
        OtherMessages(env, s, m, bankOk);
        NothingCaused(s.cases, m);
      }
      hide Inv;
    }
  }

  lemma NothingCaused(cases: map<string, SanctionCase>, m: Msg)
    ensures Caused(cases, cases, m)
  {
  }

  /**
   * Over every run of a fresh chain: a case is approved or rejected only by an accepted vote on it, executed only by its
   * execution, expired only by an accepted replacement, revoked only by its revocation; nothing else touches a status.
   */
  lemma StatusesHaveCauses(env: Env, s0: State, steps: seq<Step>, i: nat, id: string)
    requires Fresh(s0) && Keyed(s0) && RunOk(env, s0, steps) && i < |EventsOf(env, s0, steps)|
    requires var e := EventsOf(env, s0, steps)[i]; id in e.before.cases
    ensures var e := EventsOf(env, s0, steps)[i];
      && id in e.after.cases
      && (e.after.cases[id].status != e.before.cases[id].status ==>
            e.change.Accepted? && Causes(e.change.call.msg, id, e.after.cases[id].status))
  {
    FreshInv(env, s0);
    RunPath(env, s0, steps);
    var e := EventsOf(env, s0, steps)[i];
    assert Inv(env, e.before) && EventOk(env, e);
    hide Inv, EventsOf, Path, Fresh, RunOk, Run, Keyed, Causes, HandleError, HandleEffect, Sound;
    if e.change.Accepted? { MessageCauses(env, e.before, e.change.call.msg, e.change.call.bankOk); }
  }

  // ---- openings

  /** The stored case is the message, with the current height, deadline, rules and electorate, and the hash of all that. */
  ghost predicate CaseOf(env: Env, s: State, m: Msg, c: SanctionCase)
    requires m.OpenCase?
  {
    && c.caseId == m.caseId && c.previous == m.previous && c.txHash == m.txHash && c.target == m.target
    && c.targetType == m.targetType && c.action == m.action && c.status == Pending && c.reportIds == m.reportIds
    && c.policyVersion == m.policyVersion
    && c.openedAt == s.height && c.deadline == (s.height + ParamsInForce(s).votingPeriod) % 0x1_0000_0000_0000_0000 && c.executedAt == 0
    && c.quorum == ParamsInForce(s).quorum && c.unanimous == ParamsInForce(s).unanimous && c.snapshotVersion == 1
    && Elects(s.agents, c.voters)
    && c.decisionHash == env.decisionHash(c.(decisionHash := []))
  }

  lemma NewCaseOf(env: Env, s: State, m: Msg)
    requires KeyedAgents(s.agents) && m.OpenCase?
    ensures CaseOf(env, s, m, NewCase(env, s, m))
  {
    VotersAre(s.agents);
    assert Elects(s.agents, VotersOf(s.agents)) by { hide VotersOf; }
    assert NewCase(env, s, m).(decisionHash := []) == DraftCase(s, m);
    hide VotersOf, Elects;
  }

  /** Everything besides cases, as an opening leaves it. */
  ghost predicate OnlyOpens(s: State, s': State)
  {
    && Closure.OnlyCases(s, s') && s'.votes == s.votes && s'.activeTxs == s.activeTxs && s'.freezes == s.freezes
    && s'.balances == s.balances && s'.moves == s.moves
  }

  /** The new case, its predecessor expired, and every other case as it was. */
  ghost predicate Opened(env: Env, s: State, m: Msg, cases: map<string, SanctionCase>)
    requires m.OpenCase?
  {
    && m.caseId !in s.cases && m.caseId in cases && CaseOf(env, s, m, cases[m.caseId])
    && (forall id :: id in cases && id != m.caseId ==>
          id in s.cases && cases[id] == if id == m.previous && m.previous != "" then s.cases[id].(status := Expired) else s.cases[id])
    && (forall id :: id in s.cases ==> id in cases)
  }

  /** An accepted opening stores that case, marks its predecessor expired, and leaves every other case and table alone. */
  lemma OpeningLeaves(env: Env, s: State, m: Msg, bankOk: bool)
    requires Keyed(s) && m.OpenCase? && HandleError(env, s, m, bankOk).None?
    ensures Opened(env, s, m, HandleEffect(env, s, m, bankOk).cases) && OnlyOpens(s, HandleEffect(env, s, m, bankOk))
  {
    hide OpenCaseError, NewCase, CaseOf, Keyed, OpenEffect, OnlyOpens, Opened;
    OpenFacts(env, s, m);
    KeyedParts(s);
    var c := NewCase(env, s, m);
    OpeningOnly(s, m.previous, c);
    OpenTables(s, m.previous, c);
    OpenedCases(env, s, m);
  }

  lemma OpenedCases(env: Env, s: State, m: Msg)
    requires KeyedAgents(s.agents) && KeyedCases(s.cases) && m.OpenCase? && m.caseId !in s.cases
    requires m.previous != "" ==> m.previous in s.cases
    ensures Opened(env, s, m, Replaced(s.cases, m.previous)[NewCase(env, s, m).caseId := NewCase(env, s, m)])
  {
    NewCaseFields(env, s, m);
    NewCaseOf(env, s, m);
    hide NewCase, CaseOf;
    NoEmptyPredecessor(s, m, NewCase(env, s, m));
  }

  /** The empty id names no case here: an opening without a predecessor changes no stored case. */
  lemma NoEmptyPredecessor(s: State, m: Msg, c: SanctionCase)
    requires KeyedCases(s.cases) && m.OpenCase? && m.caseId !in s.cases && (m.previous != "" ==> m.previous in s.cases)
    ensures var t := Replaced(s.cases, m.previous)[m.caseId := c];
      forall id :: id in t && id != m.caseId ==>
        id in s.cases && t[id] == if id == m.previous && m.previous != "" then s.cases[id].(status := Expired) else s.cases[id]
  {
  }

  lemma StoringOnly(s: State, c: SanctionCase)
    ensures OnlyOpens(s, SetCase(s, c))
  {
    hide IndexByTx, IndexByAddress;
  }

  lemma OnlyTwice(s: State, s1: State, s2: State)
    requires OnlyOpens(s, s1) && OnlyOpens(s1, s2)
    ensures OnlyOpens(s, s2)
  {
  }

  lemma OpeningOnly(s: State, previous: string, c: SanctionCase)
    requires previous != "" ==> previous in s.cases
    ensures OnlyOpens(s, OpenEffect(s, previous, c))
  {
    hide SetCase, OnlyOpens;
    StoringOnly(s, c);
    if previous != "" {
      var s1 := SetCase(s, s.cases[previous].(status := Expired));
      StoringOnly(s, s.cases[previous].(status := Expired));
      StoringOnly(s1, c);
      OnlyTwice(s, s1, SetCase(s1, c));
    }
  }

  // ---- executions

  /** The stored record names the case, what was done to what, by whom and when, and the text that was sent. */
  ghost predicate RecordOf(c: SanctionCase, m: Msg, height: Height, r: ExecutionRecord)
    requires m.Execute?
  {
    && r.caseId == c.caseId && r.action == c.action && r.txHash == c.txHash && r.target == c.target
    && r.executor == m.executor && r.executedAt == height && r.resultMessage == m.resultMessage
    && r.resultCode == (if c.action == Watch then "watch_only" else "ok")
  }

  lemma RecordedAs(env: Env, s: State, c: SanctionCase, m: Msg)
    requires m.Execute? && (Monetary(c.action) ==> Settleable(env, s, c))
    ensures RecordOf(c, m, s.height, ExecutionOf(env, s, c, m.executor, m.resultMessage))
  {
    hide StateHash, Settleable;
  }

  /** The case is executed with its record, only its action's own effect appears, and nothing else moves. */
  ghost predicate Executes(s: State, s': State, c: SanctionCase, m: Msg)
    requires m.Execute?
  {
    && s'.cases == s.cases[m.caseId := c.(status := Executed, executedAt := s.height)]
    && m.caseId in s'.executions && RecordOf(c, m, s.height, s'.executions[m.caseId])
    && (forall id :: id != m.caseId ==> (id in s'.executions <==> id in s.executions))
    && (forall id :: id != m.caseId && id in s.executions ==> s'.executions[id] == s.executions[id])
    && s'.freezes == (if c.action == FreezeAddress then s.freezes[c.target := FreezeRecord(m.caseId, c.target, s.height)] else s.freezes)
    && s'.activeTxs == (if c.action == BlockTx
                        then s.activeTxs[c.txHash := ActiveSanction(m.caseId, c.txHash, c.target, BlockTx, s.height)] else s.activeTxs)
    && s'.votes == s.votes && (c.action in {Watch, BlockTx, FreezeAddress} ==> s'.settlements == s.settlements && s'.moves == s.moves)
  }

  /** An accepted execution closes its case with its record, and has the one effect of its action. */
  lemma ExecutionLeaves(env: Env, s: State, m: Msg, bankOk: bool)
    requires Keyed(s) && m.Execute? && HandleError(env, s, m, bankOk).None?
    ensures m.caseId in s.cases && Executes(s, HandleEffect(env, s, m, bankOk), s.cases[m.caseId], m)
  {
    ExecuteFacts(env, s, m, bankOk);
    KeyedAt(s, m.caseId);
    hide ExecuteError, ExecutionOf, Settleable, Keyed, ExecuteEffect, UnsettledError, SnapshotValid, Executes;
    EffectExecutes(env, s, s.cases[m.caseId], m);
  }

  lemma EffectExecutes(env: Env, s: State, c: SanctionCase, m: Msg)
    requires m.Execute? && c.caseId == m.caseId && (Monetary(c.action) ==> Settleable(env, s, c))
    ensures Executes(s, ExecuteEffect(env, s, c, ExecutionOf(env, s, c, m.executor, m.resultMessage)), c, m)
  {
    RecordedAs(env, s, c, m);
    hide ExecutionOf, Settleable, RecordOf, ExecuteEffect;
    var record := ExecutionOf(env, s, c, m.executor, m.resultMessage);
    RecordFields(env, s, c, m.executor, m.resultMessage);
    ExecuteTables(env, s, c, record);
    if c.action in {Watch, BlockTx, FreezeAddress} { PlainMoney(env, s, c, record); }
  }

  lemma PlainMoney(env: Env, s: State, c: SanctionCase, record: ExecutionRecord)
    requires !Monetary(c.action)
    ensures var s' := ExecuteEffect(env, s, c, record); s'.settlements == s.settlements && s'.moves == s.moves
  {
    hide IndexByTx, IndexByAddress, ActiveAfter, FrozenAfter;
  }

  /** The state change that a settlement's record is hashed over. */
  lemma SettlementHash(env: Env, s: State, m: Msg, bankOk: bool)
    requires Keyed(s) && m.Execute? && HandleError(env, s, m, bankOk).None? && s.cases[m.caseId].action in {EscrowFunds, RevertTransfer}
    ensures var c := s.cases[m.caseId]; var r := s.reports[c.reportIds[0]];
      var coins := Decimal.Format(env.parseInt(r.amount).value) + r.denom;
      var record := HandleEffect(env, s, m, bankOk).executions[m.caseId];
      record.stateHash == env.stateHash(if c.action == EscrowFunds then ["escrow", c.caseId, r.recipient, coins]
                                        else ["revert", c.caseId, r.recipient, r.sender, coins])
  {
    ExecuteFacts(env, s, m, bankOk);
    KeyedAt(s, m.caseId);
    var c := s.cases[m.caseId];
    hide ExecuteError, Keyed;
    RecordFields(env, s, c, m.executor, m.resultMessage);
    ExecuteTables(env, s, c, ExecutionOf(env, s, c, m.executor, m.resultMessage));
    hide ExecuteEffect, UnsettledError;
  }

  // ---- reviews, reports and agents

  lemma ReviewLeaves(env: Env, s: State, m: Msg, bankOk: bool)
    requires m.Review? && HandleError(env, s, m, bankOk).None?
    ensures HandleEffect(env, s, m, bankOk).reviews
            == s.reviews[m.caseId := ReviewRecord(m.caseId, m.authority, m.reason, m.evidenceHash, s.height, 0, "")]
    ensures HandleEffect(env, s, m, bankOk).cases == s.cases
  {
  }

  /** A revocation completes its review and nothing else in the table of reviews. */
  lemma RevocationLeaves(env: Env, s: State, m: Msg, bankOk: bool)
    requires Keyed(s) && m.Revoke? && HandleError(env, s, m, bankOk).None?
    ensures m.caseId in s.reviews && m.caseId in s.cases
    ensures var s' := HandleEffect(env, s, m, bankOk);
      && s'.reviews == s.reviews[m.caseId := s.reviews[m.caseId].(revokedAt := s.height, revokeReason := m.reason)]
      && s'.cases == s.cases[m.caseId := s.cases[m.caseId].(status := Revoked)]
  {
    KeyedAt(s, m.caseId);
    hide Keyed, WithoutActive, WithoutFreeze, IndexByTx, IndexByAddress;
  }

  lemma ReportLeaves(env: Env, s: State, m: Msg, bankOk: bool)
    requires m.SubmitReport? && HandleError(env, s, m, bankOk).None?
    ensures m.report.Some?
    ensures var s' := HandleEffect(env, s, m, bankOk); var r := m.report.value.(submitter := m.submitter);
      && s'.reports == s.reports[r.reportId := r] && s'.reportsByTx == s.reportsByTx + {(r.txHash, r.reportId)}
      && s'.reportsByAddress == s.reportsByAddress + (if r.recipient == "" then {} else {(r.recipient, r.reportId)})
  {
    ReportExact(env, s, m.submitter, m.report);
    assert m == SubmitReport(m.submitter, m.report);
    hide SubmitReportError;
    assert StoredReport(m) == m.report.value.(submitter := m.submitter);
  }

  lemma RegistrationLeaves(env: Env, s: State, m: Msg, bankOk: bool)
    requires m.RegisterAgent? && HandleError(env, s, m, bankOk).None?
    ensures m.agent.Some?
    ensures var s' := HandleEffect(env, s, m, bankOk); var a := m.agent.value;
      s'.agents == s.agents[a.agentId := a] && s'.signerIndex == s.signerIndex[a.signer := a.agentId]
  {
    OtherFacts(env, s, m, bankOk);
    hide RegisterAgentError;
  }

  /** A renewal moves the end of the lease; a grant also takes the next epoch for the new holder. */
  lemma ClaimLeaves(env: Env, s: State, m: Msg, bankOk: bool)
    requires KeyedLeases(s.leases) && m.ClaimLease? && HandleError(env, s, m, bankOk).None?
    ensures HandleEffect(env, s, m, bankOk).leases
            == s.leases[m.signer := Lease(m.signer, m.holder, if m.renew then m.expectedEpoch else m.expectedEpoch + 1, s.height + m.ttl)]
  {
    hide HolderValid;
  }

  // ---- plain actions of a fresh chain

  /**
   * In every state that a fresh chain reaches, an approved watch, block or freeze executes if and only if the executor's
   * address is well formed and its primary evidence has not expired.
   */
  lemma ApprovedActionExecutes(env: Env, s0: State, steps: seq<Step>, m: Msg, bankOk: bool)
    requires Fresh(s0) && Keyed(s0) && RunOk(env, s0, steps) && m.Execute?
    requires m.caseId in Run(env, s0, steps).cases
    requires var c := Run(env, s0, steps).cases[m.caseId]; c.status == Approved && c.action in {Watch, BlockTx, FreezeAddress}
    ensures var s := Run(env, s0, steps); var c := s.cases[m.caseId];
      && c.reportIds != [] && c.reportIds[0] in s.reports
      && (HandleError(env, s, m, bankOk).None? <==>
            env.isAddress(m.executor) && !(0 < s.reports[c.reportIds[0]].expiry <= s.height))
  {
    RunInv(env, s0, steps);
    hide Run, RunOk, Fresh, Keyed;
    ActionExecutes(env, Run(env, s0, steps), m, bankOk);
    hide Inv, HandleError;
  }

  lemma ActionExecutes(env: Env, s: State, m: Msg, bankOk: bool)
    requires Inv(env, s) && m.Execute? && m.caseId in s.cases
    requires s.cases[m.caseId].status == Approved && s.cases[m.caseId].action in {Watch, BlockTx, FreezeAddress}
    ensures var c := s.cases[m.caseId];
      && c.reportIds != [] && c.reportIds[0] in s.reports
      && (HandleError(env, s, m, bankOk).None? <==>
            env.isAddress(m.executor) && !(0 < s.reports[c.reportIds[0]].expiry <= s.height))
  {
    CaseIsReady(env, s, m.caseId);
    DecidedParts(env, s);
    KeyedParts(s);
    hide Inv, Keyed, SnapshotValid, ExecuteError, MaySettle, EveryoneApproved;
    ExecutionExact(env, s, m.executor, m.caseId, m.resultMessage, bankOk);
    assert m == Execute(m.executor, m.caseId, m.resultMessage);
  }

  lemma CaseIsReady(env: Env, s: State, id: string)
    requires Inv(env, s) && id in s.cases && s.cases[id].status == Approved
    ensures var c := s.cases[id];
      && SnapshotValid(env, c) && id !in s.executions && c.reportIds != [] && c.reportIds[0] in s.reports
      && (c.action == FreezeAddress ==> c.target != "")
  {
    DecidedParts(env, s);
    assert CaseOk(env, s.votes, s.executions, s.cases[id]);
    assert EvidenceOk(env, s.reports, s.receipts, s.height, s.cases[id]);
    assert s.cases[id].caseId == id;
    hide SnapshotValid, QuorumMet, AllApproved, Backed, ChainsOk, VotesOk, CasesOk, Effects.EffectsOk, Keyed;
  }
}
