/** What every run from a fresh chain guarantees about cases. */
module CaseTheorems {
  import opened Basics
  import opened Types
  import opened Store
  import opened Handlers
  import opened Frames
  import opened Chain
  import opened Electorate
  import opened Evidence
  import opened Replacement
  import opened Effects
  import opened Runs
  import RegistrySync
  import Percent
  import Tally

  // ---- frozen electorates

  /** Every member of the snapshot approved the revert. */
  ghost predicate AllApprovedRevert(votes: Votes, c: SanctionCase)
  {
    forall a :: a in c.voters ==> var k := (c.caseId, a.agentId);
      k in votes && votes[k].option == Approve && votes[k].approvedAction == RevertTransfer
  }

  /** All stored votes on the case are signed votes of its members, for its action. */
  ghost predicate OnlyMembersVoted(env: Env, votes: Votes, c: SanctionCase)
  {
    forall agent :: (c.caseId, agent) in votes ==> VoteOk(env, c, votes[(c.caseId, agent)])
  }

  /** The approving share of the frozen power exceeds quorum - 1 percent. */
  ghost predicate ApprovedByQuorum(votes: Votes, c: SanctionCase)
  {
    100 * ApprovePower(votes, c) > (c.quorum - 1) * Tally.TotalPower(c.voters)
  }

  lemma QuorumMeaning(votes: Votes, c: SanctionCase)
    ensures QuorumMet(votes, c) ==> ApprovedByQuorum(votes, c)
  {
    Tally.PowerInBound(c.voters, Voted(votes, c.caseId, Approve));
    if Tally.TotalPower(c.voters) != 0 {
      Percent.ThresholdExact(ApprovePower(votes, c), Tally.TotalPower(c.voters), c.quorum);
    }
  }

  lemma ApprovalsNameTheRevert(env: Env, votes: Votes, c: SanctionCase)
    requires OnlyMembersVoted(env, votes, c) && AllApproved(votes, c) && c.action == RevertTransfer
    ensures AllApprovedRevert(votes, c)
  {
    hide VerifySignature;
    forall a | a in c.voters ensures (c.caseId, a.agentId) in votes && votes[(c.caseId, a.agentId)].approvedAction == RevertTransfer {
      assert VoteOk(env, c, votes[(c.caseId, a.agentId)]);
    }
  }

  lemma MembersOnly(env: Env, s: State, id: string)
    requires VotesOk(env, s.cases, s.votes) && id in s.cases && s.cases[id].caseId == id
    ensures OnlyMembersVoted(env, s.votes, s.cases[id])
  {
    hide VoteOk;
    forall agent | (id, agent) in s.votes ensures VoteOk(env, s.cases[id], s.votes[(id, agent)]) {
      var k := (id, agent);
      assert k in s.votes;
    }
  }

  /**
   * An approved or executed case has a valid snapshot, only signed votes of snapshot
   * members, and approving power above the quorum fixed at opening. An executed revert
   * that needed unanimity has every member's approval of the revert.
   */
  lemma DecisionsRestOnFrozenVotes(env: Env, s0: State, steps: seq<Step>, id: string)
    requires Fresh(s0) && Keyed(s0) && RunOk(env, s0, steps)
    requires id in Run(env, s0, steps).cases
    ensures var s := Run(env, s0, steps); var c := s.cases[id];
      && SnapshotValid(env, c) && OnlyMembersVoted(env, s.votes, c)
      && (c.status in {Approved, Executed} ==> ApprovedByQuorum(s.votes, c))
      && (c.status == Executed && c.action == RevertTransfer && c.unanimous ==> AllApprovedRevert(s.votes, c))
  {
    RunInv(env, s0, steps);
    var s := Run(env, s0, steps);
    var c := s.cases[id];
    assert c.caseId == id && CaseOk(env, s.votes, s.executions, c) by { KeyedAt(s, id); hide AllEvidence, ChainsOk, EffectsOk; }
    MembersOnly(env, s, id) by { hide AllEvidence, ChainsOk, EffectsOk, VoteOk; }
    hide Run, RunOk, Keyed, SnapshotValid, QuorumMet, AllApproved, Inv, OnlyMembersVoted;
    QuorumMeaning(s.votes, c);
    if c.status == Executed && c.action == RevertTransfer && c.unanimous { ApprovalsNameTheRevert(env, s.votes, c); }
  }

  /** Later steps of any kind change neither the voters, the quorum nor the unanimity rule of a case. */
  lemma SnapshotNeverMoves(env: Env, s: State, steps: seq<Step>, id: string)
    requires Keyed(s) && RunOk(env, s, steps) && id in s.cases
    ensures var s' := Run(env, s, steps);
      && id in s'.cases && s'.cases[id].voters == s.cases[id].voters && s'.cases[id].quorum == s.cases[id].quorum
      && s'.cases[id].unanimous == s.cases[id].unanimous && s'.cases[id].reportIds == s.cases[id].reportIds
  {
    RunSound(env, s, steps);
    hide Keyed, Run;
  }

  // ---- status graph

  /** One message can take a case along these edges only. */
  predicate Edge(a: Status, b: Status)
  {
    || a == b
    || (a == Pending && b in {Approved, Rejected, Expired, Revoked})
    || (a == Approved && b in {Executed, Expired, Revoked})
    || (a in {Rejected, Executed, Expired} && b == Revoked)
  }

  /** Everything that edges can lead to. */
  predicate Leads(a: Status, b: Status)
  {
    || a == b
    || a == Pending
    || (a == Approved && b in {Executed, Expired, Revoked})
    || (a in {Rejected, Executed, Expired} && b == Revoked)
  }

  ghost predicate Edges(s: State, s': State)
  {
    forall id :: id in s.cases ==> id in s'.cases && Edge(s.cases[id].status, s'.cases[id].status)
  }

  ghost predicate AllLead(s: State, s': State)
  {
    forall id :: id in s.cases ==> id in s'.cases && Leads(s.cases[id].status, s'.cases[id].status)
  }

  lemma OpenEdges(s: State, previous: string, c: SanctionCase)
    requires KeyedCases(s.cases) && c.caseId !in s.cases
    requires previous != "" ==> previous in s.cases && s.cases[previous].status in {Pending, Approved, Expired}
    ensures Edges(s, OpenEffect(s, previous, c))
  {
    OpenTables(s, previous, c);
    hide OpenEffect;
  }

  lemma VoteEdges(env: Env, s: State, v: SanctionVote)
    requires Decided(env, s) && v.caseId in s.cases && (v.caseId, v.agentId) !in s.votes
    requires s.cases[v.caseId].status in {Pending, Approved}
    ensures Edges(s, VoteEffect(s, v))
  {
    hide VoteEffect, CaseOk, RecomputedStatus, Activates, Edge, VoteOk, Keyed;
    DecidedParts(env, s);
    var c, s' := s.cases[v.caseId], VoteEffect(s, v);
    assert CaseOk(env, s.votes, s.executions, c);
    hide Decided;
    VoteTables(s, v);
    RecomputeEdge(env, s.votes, s'.votes, s.executions, c);
    EdgeStays();
  }

  lemma EdgeStays()
    ensures forall status :: Edge(status, status)
  {
  }

  lemma RecomputeEdge(env: Env, votes: Votes, more: Votes, executions: map<string, ExecutionRecord>, c: SanctionCase)
    requires Grows(votes, more) && CaseOk(env, votes, executions, c) && c.status in {Pending, Approved}
    ensures Edge(c.status, RecomputedStatus(more, c))
  {
    RecomputeDecided(env, votes, more, executions, c);
    hide CaseOk, QuorumMet, RejectionMet;
  }

  lemma ExecuteEdges(env: Env, s: State, c: SanctionCase, record: ExecutionRecord)
    requires c.caseId in s.cases && s.cases[c.caseId] == c && c.status == Approved
    requires Monetary(c.action) ==> Settleable(env, s, c)
    ensures Edges(s, ExecuteEffect(env, s, c, record))
  {
    ExecuteTables(env, s, c, record);
    hide ExecuteEffect, Settleable;
  }

  lemma RevokeEdges(env: Env, s: State, c: SanctionCase, review: ReviewRecord, reason: string)
    requires CasesOk(env, s.cases, s.votes, s.executions) && c.caseId in s.cases && s.cases[c.caseId] == c
    ensures Edges(s, RevokeEffect(s, c, review, reason))
  {
    assert CaseOk(env, s.votes, s.executions, c);
    hide CaseOk;
  }

  lemma SameCasesEdges(s: State, s': State)
    requires s'.cases == s.cases
    ensures Edges(s, s')
  {
  }

  /** The reachable status transitions: an approved revert that still takes votes is never rejected. */
  lemma MessageEdges(env: Env, s: State, m: Msg, bankOk: bool)
    requires Inv(env, s) && HandleError(env, s, m, bankOk).None?
    ensures Edges(s, HandleEffect(env, s, m, bankOk))
  {
    hide OpenCaseError, VoteError, ExecuteError, BankSendError, ClaimError, SubmitReportError, RegisterAgentError;
    hide OpenEffect, VoteEffect, ExecuteEffect, RevokeEffect, NewCase, ExecutionOf, Edges;
    DecidedParts(env, s);
    match m {
      case OpenCase(_, _, _, _, _, _, _, _, _) =>
        OpenFacts(env, s, m);
        NewCaseFields(env, s, m);
        if m.previous != "" { ReplacementLink(env, s, m); }
        OpenEdges(s, m.previous, NewCase(env, s, m));
      case SubmitVote(_, v) =>
        AcceptedVote(env, s, m);
        VoteEdges(env, s, v.value);
      case Execute(executor, id, message) =>
        hide Inv;
        ExecuteFacts(env, s, m, bankOk);
        KeyedAt(s, id);
        ExecuteEdges(env, s, s.cases[id], ExecutionOf(env, s, s.cases[id], executor, message));
      case Revoke(_, id, reason) =>
        OtherFacts(env, s, m, bankOk);
        KeyedAt(s, id);
        hide SnapshotValid, QuorumMet, AllApproved;
        RevokeEdges(env, s, s.cases[id], s.reviews[id], reason);
      case _ =>
        OtherMessages(env, s, m, bankOk);
        hide Inv, HandleEffect;
        SameCasesEdges(s, HandleEffect(env, s, m, bankOk));
    }
  }

  lemma LeadTransitive(a: State, b: State, c: State)
    requires AllLead(a, b) && AllLead(b, c)
    ensures AllLead(a, c)
  {
  }

  lemma {:induction false} CallsLead(env: Env, s: State, calls: seq<Call>)
    requires Inv(env, s) && RunCalls(env, s, calls).Some?
    ensures AllLead(s, RunCalls(env, s, calls).value)
  {
    hide Inv, HandleEffect, HandleError;
    if calls != [] {
      var init, call := calls[..|calls| - 1], calls[|calls| - 1];
      CallsLead(env, s, init);
      var s1 := RunCalls(env, s, init).value;
      RunCallsInv(env, s, init);
      MessageEdges(env, s1, call.msg, call.bankOk);
      LeadTransitive(s, s1, RunCalls(env, s, calls).value);
    }
  }

  lemma {:induction false} RecordCoinsCases(s: State, tx: Tx, index: uint32, m: Msg, n: nat)
    requires m.Send? && n <= |m.coins|
    ensures RecordCoins(s, tx, index, m, n).cases == s.cases
  {
    if n > 0 { RecordCoinsCases(s, tx, index, m, n - 1); }
  }

  lemma {:induction false} RecordCases(s: State, tx: Tx, n: nat)
    requires n <= |tx.calls|
    ensures RecordTransfers(s, tx, n).cases == s.cases
  {
    if n > 0 {
      RecordCases(s, tx, n - 1);
      var m := tx.calls[n - 1].msg;
      if m.Send? { RecordCoinsCases(RecordTransfers(s, tx, n - 1), tx, (n - 1) % U32, m, |m.coins|); }
    }
  }

  lemma StepLeads(env: Env, s: State, step: Step)
    requires Inv(env, s) && StepOk(env, s, step)
    ensures AllLead(s, Apply(env, s, step))
  {
    hide Inv, RunCalls, RecordTransfers, AnteError, RegistrySync.Sync;
    match step {
      case DeliverTx(tx) =>
        if AnteError(s, tx).None? && RunCalls(env, s, tx.calls).Some? {
          CallsLead(env, s, tx.calls);
          RecordCases(RunCalls(env, s, tx.calls).value, tx, |tx.calls|);
        }
      case EndBlock(states) => SyncQuiet(s, states);
      case NextHeight(h) =>
    }
  }

  /**
   * Statuses over whole runs: PENDING may lead anywhere, APPROVED to EXECUTED, EXPIRED or
   * REVOKED but never to REJECTED, every other status only to REVOKED, and REVOKED is final.
   */
  lemma {:induction false} StatusesOnlyAdvance(env: Env, s: State, steps: seq<Step>)
    requires Inv(env, s) && RunOk(env, s, steps)
    ensures Inv(env, Run(env, s, steps)) && AllLead(s, Run(env, s, steps))
  {
    hide Inv, Apply;
    if steps != [] {
      var init := steps[..|steps| - 1];
      StatusesOnlyAdvance(env, s, init);
      ApplyInv(env, Run(env, s, init), steps[|steps| - 1]);
      StepLeads(env, Run(env, s, init), steps[|steps| - 1]);
      LeadTransitive(s, Run(env, s, init), Run(env, s, steps));
    }
  }

  /** A vote on a pending case past its deadline. */
  ghost predicate IsLateVote(s: State, m: Msg)
  {
    && m.SubmitVote? && m.vote.Some? && m.vote.value.caseId in s.cases
    && s.cases[m.vote.value.caseId].status == Pending && s.height > s.cases[m.vote.value.caseId].deadline
  }

  lemma LateVoteRefused(env: Env, s: State, m: Msg)
    requires IsLateVote(s, m)
    ensures VoteError(env, s, m).Some?
  {
    hide VerifySignature, SignBytes.VoteBytes;
  }

  /**
   * A transaction that comes to a late vote, after whatever other messages, changes nothing: the EXPIRED mark
   * written before the refusal is rolled back with the rest.
   */
  lemma LateVotesChangeNothing(env: Env, s: State, tx: Tx, k: nat)
    requires k < |tx.calls| && RunCalls(env, s, tx.calls[..k]).Some?
    requires IsLateVote(RunCalls(env, s, tx.calls[..k]).value, tx.calls[k].msg)
    ensures Deliver(env, s, tx) == s
  {
    LateVoteRefused(env, RunCalls(env, s, tx.calls[..k]).value, tx.calls[k].msg);
    assert tx.calls[..k + 1][..k] == tx.calls[..k];
    hide VoteError, HandleEffect, RecordTransfers, IsLateVote;
    FailedPrefix(env, s, tx.calls, k + 1);
  }

  // ---- ownership of effects

  /** Blocked txs and frozen addresses always have a responsible case, in every reachable state. */
  lemma EffectsHaveOwners(env: Env, s0: State, steps: seq<Step>)
    requires Fresh(s0) && Keyed(s0) && RunOk(env, s0, steps)
    ensures var s := Run(env, s0, steps);
      && (forall h :: h in s.activeTxs ==> ActiveOk(s.cases, s.votes, s.activeTxs[h]))
      && (forall a :: a in s.freezes ==> s.freezes[a].address == a && FreezeOk(s.cases, s.freezes[a]))
  {
    RunInv(env, s0, steps);
    DecidedParts(env, Run(env, s0, steps));
    hide Run, RunOk, Decided, AllEvidence, ChainsOk, ActiveOk, FreezeOk, Keyed;
  }

  /** The effects of all cases but one. */
  ghost function ActivesOfOthers(active: map<Bytes, ActiveSanction>, id: string): map<Bytes, ActiveSanction>
  {
    map h | h in active && active[h].caseId != id :: active[h]
  }

  ghost function FreezesOfOthers(freezes: map<string, FreezeRecord>, id: string): map<string, FreezeRecord>
  {
    map a | a in freezes && freezes[a].caseId != id :: freezes[a]
  }

  /** In every reachable state, revoking a case lifts all effects of that case and no others, and erases no record. */
  lemma RevocationIsLocal(env: Env, s: State, m: Msg, bankOk: bool)
    requires Inv(env, s) && m.Revoke? && RevokeError(env, s, m).None?
    ensures var s' := HandleEffect(env, s, m, bankOk);
      && s'.activeTxs == ActivesOfOthers(s.activeTxs, m.caseId) && s'.freezes == FreezesOfOthers(s.freezes, m.caseId)
      && s'.votes == s.votes && s'.executions == s.executions && s'.settlements == s.settlements
      && s'.receipts == s.receipts && s'.balances == s.balances && s'.moves == s.moves
      && s'.cases == s.cases[m.caseId := s.cases[m.caseId].(status := Revoked)]
  {
    DecidedParts(env, s);
    assert EffectsOk(s);
    hide Inv;
    KeyedAt(s, m.caseId);
    OtherFacts(env, s, m, bankOk);
    OwnEffects(s, s.cases[m.caseId]);
    hide RevokeError, Keyed, EffectsOk, ActivesOfOthers, FreezesOfOthers, WithoutActive, WithoutFreeze, IndexByTx, IndexByAddress;
  }

  /** The one place where each effect of a case can be. */
  lemma OwnEffects(s: State, c: SanctionCase)
    requires EffectsOk(s) && KeyedActive(s.activeTxs) && KeyedFreezes(s.freezes)
    requires c.caseId in s.cases && s.cases[c.caseId] == c
    ensures WithoutActive(s.activeTxs, c) == ActivesOfOthers(s.activeTxs, c.caseId)
    ensures WithoutFreeze(s.freezes, c) == FreezesOfOthers(s.freezes, c.caseId)
  {
    forall h | h in s.activeTxs && s.activeTxs[h].caseId == c.caseId ensures h == c.txHash {
      assert ActiveOk(s.cases, s.votes, s.activeTxs[h]);
    }
    forall a | a in s.freezes && s.freezes[a].caseId == c.caseId ensures a == c.target {
      assert FreezeOk(s.cases, s.freezes[a]);
    }
    hide EffectsOk;
  }
}
