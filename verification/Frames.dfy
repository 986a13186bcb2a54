/** What every step keeps, whatever the state: keys, history, and the frozen part of a case. */
module Frames {
  import opened Basics
  import opened Types
  import opened Store
  import opened Handlers
  import opened RegistrySync
  import opened Chain
  import Policy
  import SignBytes

  // Every record is stored under its own key.
  ghost predicate KeyedAgents(t: map<string, AgentInfo>) { forall k :: k in t ==> t[k].agentId == k }
  ghost predicate KeyedLeases(t: map<string, Lease>) { forall k :: k in t ==> t[k].signer == k }
  ghost predicate KeyedReports(t: map<string, RiskReport>) { forall k :: k in t ==> t[k].reportId == k }
  ghost predicate KeyedCases(t: map<string, SanctionCase>) { forall k :: k in t ==> t[k].caseId == k }
  ghost predicate KeyedVotes(t: map<(string, string), SanctionVote>)
  {
    forall k :: k in t ==> (t[k].caseId, t[k].agentId) == k
  }
  ghost predicate KeyedActive(t: map<Bytes, ActiveSanction>) { forall k :: k in t ==> t[k].txHash == k }
  ghost predicate KeyedFreezes(t: map<string, FreezeRecord>) { forall k :: k in t ==> t[k].address == k }
  ghost predicate KeyedExecutions(t: map<string, ExecutionRecord>) { forall k :: k in t ==> t[k].caseId == k }
  ghost predicate KeyedReceipts(t: map<TransferId, OriginalTransfer>) { forall k :: k in t ==> IdOf(t[k]) == k }
  ghost predicate KeyedSettlements(t: map<TransferId, SettlementRecord>)
  {
    forall k :: k in t ==> IdOf(t[k].transfer) == k
  }
  ghost predicate KeyedReviews(t: map<string, ReviewRecord>) { forall k :: k in t ==> t[k].caseId == k }

  ghost predicate Keyed(s: State)
  {
    && KeyedAgents(s.agents) && KeyedLeases(s.leases) && KeyedReports(s.reports) && KeyedCases(s.cases)
    && KeyedVotes(s.votes) && KeyedActive(s.activeTxs) && KeyedFreezes(s.freezes)
    && KeyedExecutions(s.executions) && KeyedReceipts(s.receipts) && KeyedSettlements(s.settlements)
    && KeyedReviews(s.reviews)
  }

  lemma KeyedParts(s: State)
    requires Keyed(s)
    ensures KeyedAgents(s.agents) && KeyedLeases(s.leases) && KeyedCases(s.cases) && KeyedVotes(s.votes)
    ensures KeyedReceipts(s.receipts) && KeyedReviews(s.reviews)
  {
  }

  /** Only the status and the execution height of a case may change. */
  ghost predicate SameOpening(c: SanctionCase, c': SanctionCase)
  {
    c' == c.(status := c'.status, executedAt := c'.executedAt)
  }

  /** A table that only gains records. */
  ghost predicate Grows<K, V>(t: map<K, V>, t': map<K, V>)
  {
    forall k :: k in t ==> k in t' && t'[k] == t[k]
  }

  ghost predicate CasesGrow(t: map<string, SanctionCase>, t': map<string, SanctionCase>)
  {
    forall id :: id in t ==> id in t' && SameOpening(t[id], t'[id])
  }

  /** A review may only gain its revocation. */
  ghost predicate ReviewsGrow(t: map<string, ReviewRecord>, t': map<string, ReviewRecord>)
  {
    forall id :: id in t ==>
      id in t' && t'[id] == t[id].(revokedAt := t'[id].revokedAt, revokeReason := t'[id].revokeReason)
  }

  /** Nothing recorded is lost or rewritten. */
  ghost predicate Extends(s: State, s': State)
  {
    && s.height <= s'.height
    && Grows(s.reports, s'.reports) && Grows(s.votes, s'.votes) && Grows(s.receipts, s'.receipts)
    && Grows(s.settlements, s'.settlements) && Grows(s.executions, s'.executions)
    && CasesGrow(s.cases, s'.cases) && ReviewsGrow(s.reviews, s'.reviews)
    && s.casesByTx <= s'.casesByTx
  }

  lemma ExtendsTransitive(a: State, b: State, c: State)
    requires Extends(a, b) && Extends(b, c)
    ensures Extends(a, c)
  {
  }

  /** A step that keeps the keys right and the record complete. */
  ghost predicate Sound(s: State, s': State)
  {
    Keyed(s') && Extends(s, s')
  }

  lemma StutterSound(s: State)
    requires Keyed(s)
    ensures Sound(s, s)
  {
  }

  lemma OpenSound(s: State, previous: string, c: SanctionCase)
    requires Keyed(s) && (previous != "" ==> previous in s.cases) && c.caseId !in s.cases
    ensures Sound(s, OpenEffect(s, previous, c))
  {
  }

  /** Executing an action leaves the cases and execution records to the caller. */
  ghost predicate ActionKeeps(s: State, s': State)
  {
    Sound(s, s') && s'.cases == s.cases && s'.executions == s.executions && s'.height == s.height
  }

  lemma ActivateSound(s: State, a: ActiveSanction)
    requires Keyed(s)
    ensures ActionKeeps(s, SetActiveTx(s, a))
  {
  }

  lemma RestatusSound(s: State, c: SanctionCase, c': SanctionCase)
    requires Keyed(s) && c.caseId in s.cases && s.cases[c.caseId] == c && SameOpening(c, c')
    ensures Sound(s, SetCase(s, c'))
  {
  }

  lemma RecomputeSound(s: State, c: SanctionCase)
    requires Keyed(s) && c.caseId in s.cases && s.cases[c.caseId] == c
    ensures Sound(s, Recompute(s, c))
  {
    hide Activates, RecomputedStatus;
    var c' := c.(status := RecomputedStatus(s.votes, c));
    var s1 := SetActiveTx(s, ActivationOf(s, c));
    ActivateSound(s, ActivationOf(s, c));
    RestatusSound(s, c, c');
    RestatusSound(s1, c, c');
    ExtendsTransitive(s, s1, SetCase(s1, c'));
    hide Keyed, Extends, SetCase;
  }

  lemma VoteSound(s: State, v: SanctionVote)
    requires Keyed(s) && v.caseId in s.cases && (v.caseId, v.agentId) !in s.votes
    ensures Sound(s, VoteEffect(s, v))
  {
    hide Recompute;
    SetVoteSound(s, v);
    hide Keyed, Extends;
    RecomputeSound(SetVote(s, v), s.cases[v.caseId]);
    ExtendsTransitive(s, SetVote(s, v), VoteEffect(s, v));
  }

  lemma SetVoteSound(s: State, v: SanctionVote)
    requires Keyed(s) && (v.caseId, v.agentId) !in s.votes
    ensures Sound(s, SetVote(s, v)) && SetVote(s, v).cases == s.cases
  {
  }

  lemma SettleSound(env: Env, s: State, c: SanctionCase)
    requires Keyed(s) && Settleable(env, s, c)
    requires UnsettledError(s, s.reports[c.reportIds[0]]).None?
    ensures ActionKeeps(s, SettleEffect(env, s, c))
  {
    hide CoinsOk, Balance;
    var r := s.reports[c.reportIds[0]];
    var t := s.receipts[TransferId(r.txHash, r.messageIndex, r.denom)];
    var s1 := MoveCoins(s, SettlementMove(env, r, c.caseId, c.action));
    hide SettlementMove;
    BankSound(s, s1);
    SettlementSound(s1, SettlementRecord(t, c.caseId, c.action, s.height));
    hide Keyed, Extends;
    ExtendsTransitive(s, s1, SettleEffect(env, s, c));
  }

  lemma SettlementSound(s: State, r: SettlementRecord)
    requires Keyed(s) && IdOf(r.transfer) !in s.settlements
    ensures ActionKeeps(s, SetSettlement(s, r))
  {
  }

  lemma PlainActionSound(s: State, c: SanctionCase)
    requires Keyed(s)
    ensures ActionKeeps(s, s.(activeTxs := ActiveAfter(s, c), freezes := FrozenAfter(s, c)))
  {
  }

  lemma FinishSound(s: State, c: SanctionCase, record: ExecutionRecord)
    requires Keyed(s) && c.caseId in s.cases && s.cases[c.caseId] == c
    requires record.caseId !in s.executions
    ensures Sound(s, SetExecution(SetCase(s, c.(status := Executed, executedAt := s.height)), record))
  {
  }

  lemma ExecuteSound(env: Env, s: State, c: SanctionCase, record: ExecutionRecord)
    requires Keyed(s) && c.caseId in s.cases && s.cases[c.caseId] == c && record.caseId !in s.executions
    requires Monetary(c.action) ==> Settleable(env, s, c) && UnsettledError(s, s.reports[c.reportIds[0]]).None?
    ensures Sound(s, ExecuteEffect(env, s, c, record))
  {
    hide SettleEffect, Settleable, UnsettledError;
    var s1 := ActionEffect(env, s, c);
    if Monetary(c.action) { SettleSound(env, s, c); } else { PlainActionSound(s, c); }
    assert ActionKeeps(s, s1);
    hide ActionEffect;
    FinishSound(s1, c, record);
    ExtendsTransitive(s, s1, ExecuteEffect(env, s, c, record));
  }

  lemma RevokeSound(s: State, c: SanctionCase, review: ReviewRecord, reason: string)
    requires Keyed(s) && c.caseId in s.cases && s.cases[c.caseId] == c
    requires review.caseId in s.reviews && s.reviews[review.caseId] == review
    ensures Sound(s, RevokeEffect(s, c, review, reason))
  {
  }

  // ---- what a successful message has checked, as far as its effect depends on it

  lemma OpenFacts(env: Env, s: State, m: Msg)
    requires m.OpenCase? && OpenCaseError(env, s, m).None?
    ensures m.caseId != "" && m.caseId !in s.cases && (m.previous != "" ==> m.previous in s.cases)
    ensures m.reportIds != [] && (forall id :: id in m.reportIds ==> id in s.reports)
  {
    hide SnapshotValid, DraftCase, HasSuccessor, Policy.PolicyAction, ReportError;
    ReportsFound(env, s, m, m.reportIds, None);
  }

  lemma VoteFacts(env: Env, s: State, m: Msg)
    requires m.SubmitVote? && VoteError(env, s, m).None?
    ensures m.vote.Some?
    ensures var v := m.vote.value; v.caseId in s.cases && (v.caseId, v.agentId) !in s.votes
  {
    hide SignBytes.VoteBytes, VerifySignature;
  }

  lemma SettleFacts(env: Env, s: State, c: SanctionCase, bankOk: bool)
    requires SettleError(env, s, c, bankOk).None?
    ensures Settleable(env, s, c) && PrimaryError(s, c).None?
    ensures UnsettledError(s, s.reports[c.reportIds[0]]).None?
  {
  }

  lemma ExecuteFacts(env: Env, s: State, m: Msg, bankOk: bool)
    requires m.Execute? && ExecuteError(env, s, m, bankOk).None?
    ensures m.caseId in s.cases && m.caseId !in s.executions && s.cases[m.caseId].status == Approved
    ensures var c := s.cases[m.caseId]; Monetary(c.action) ==>
              SettleError(env, s, c, bankOk).None? && Settleable(env, s, c)
              && UnsettledError(s, s.reports[c.reportIds[0]]).None?
  {
    hide SnapshotValid, Unanimous;
    var c := s.cases[m.caseId];
    if Monetary(c.action) {
      SettleFacts(env, s, c, bankOk);
    }
  }

  lemma ClaimSound(env: Env, s: State, m: Msg)
    requires Keyed(s) && m.ClaimLease? && ClaimError(env, s, m).None?
    ensures Sound(s, ClaimEffect(env, s, m))
  {
    hide AgentBySigner;
  }

  lemma ReviewSound(s: State, m: Msg)
    requires Keyed(s) && m.Review? && m.caseId !in s.reviews
    ensures Sound(s, ReviewEffect(s, m))
  {
  }

  lemma ReportSound(s: State, r: RiskReport)
    requires Keyed(s) && r.reportId !in s.reports
    ensures Sound(s, SetReport(s, r))
  {
  }

  lemma AgentSound(s: State, a: AgentInfo)
    requires Keyed(s)
    ensures Sound(s, SetAgent(s, a))
  {
  }

  lemma BankSound(s: State, s': State)
    requires Keyed(s) && s' == s.(balances := s'.balances, moves := s'.moves)
    ensures Sound(s, s')
  {
  }

  lemma ParamsSound(s: State, p: Option<Params>)
    requires Keyed(s)
    ensures Sound(s, s.(params := p))
  {
  }

  lemma OtherFacts(env: Env, s: State, m: Msg, bankOk: bool)
    requires HandleError(env, s, m, bankOk).None?
    ensures m.SubmitReport? ==> m.report.Some? && StoredReport(m).reportId !in s.reports
    ensures m.Review? ==> m.caseId !in s.reviews
    ensures m.Revoke? ==> m.caseId in s.cases && m.caseId in s.reviews
    ensures m.RegisterAgent? ==> m.agent.Some?
  {
    hide OpenCaseError, VoteError, ExecuteError, BankSendError, ClaimError, SignBytes.ReportBytes, VerifySignature;
  }

  /** Every message that succeeds keeps the keys and only adds to the record. */
  lemma HandleSound(env: Env, s: State, m: Msg, bankOk: bool)
    requires Keyed(s) && HandleError(env, s, m, bankOk).None?
    ensures Sound(s, HandleEffect(env, s, m, bankOk))
  {
    hide OpenCaseError, VoteError, ExecuteError, BankSendError, ClaimError, SubmitReportError, RegisterAgentError;
    hide Sound, Keyed, SetAgent, SetReport, OpenEffect, VoteEffect, ExecuteEffect, RevokeEffect, ReviewEffect, ClaimEffect;
    match m
    case OpenCase(_, _, _, _, _, _, _, _, _) =>
      OpenFacts(env, s, m);
      OpenSound(s, m.previous, NewCase(env, s, m));
    case SubmitVote(_, v) =>
      VoteFacts(env, s, m);
      VoteSound(s, v.value);
    case Execute(executor, id, message) =>
      ExecuteFacts(env, s, m, bankOk);
      KeyedAt(s, id);
      ExecuteSound(env, s, s.cases[id], ExecutionOf(env, s, s.cases[id], executor, message));
    case Revoke(_, id, reason) =>
      OtherFacts(env, s, m, bankOk);
      KeyedAt(s, id);
      RevokeSound(s, s.cases[id], s.reviews[id], reason);
    case RegisterAgent(_, a) => OtherFacts(env, s, m, bankOk); AgentSound(s, a.value);
    case SubmitReport(_, _) => OtherFacts(env, s, m, bankOk); ReportSound(s, StoredReport(m));
    case Review(_, _, _, _) => OtherFacts(env, s, m, bankOk); ReviewSound(s, m);
    case UpdateParams(_, p) => ParamsSound(s, p);
    case ClaimLease(_, _, _, _, _) => ClaimSound(env, s, m);
    case Send(_, _, _) => BankSound(s, HandleEffect(env, s, m, bankOk));
  }

  lemma KeyedAt(s: State, id: string)
    requires Keyed(s)
    ensures id in s.cases ==> s.cases[id].caseId == id
    ensures id in s.reviews ==> s.reviews[id].caseId == id
  {
  }

  /** Height, receipts and authority do not change while the messages of a tx run. */
  ghost predicate SameContext(s: State, s': State)
  {
    s'.receipts == s.receipts && s'.height == s.height && s'.authority == s.authority
  }

  lemma SetCaseContext(s: State, c: SanctionCase)
    ensures SameContext(s, SetCase(s, c))
  {
  }

  lemma SetActiveContext(s: State, a: ActiveSanction)
    ensures SameContext(s, SetActiveTx(s, a))
  {
  }

  lemma VoteContext(s: State, v: SanctionVote)
    requires v.caseId in s.cases
    ensures SameContext(s, VoteEffect(s, v))
  {
    hide SetCase, SetActiveTx, Activates, RecomputedStatus;
    var s1, c := SetVote(s, v), s.cases[v.caseId];
    var s2 := if Activates(s1.votes, c) then SetActiveTx(s1, ActivationOf(s1, c)) else s1;
    SetActiveContext(s1, ActivationOf(s1, c));
    SetCaseContext(s2, c.(status := RecomputedStatus(s1.votes, c)));
  }

  lemma SettleContext(env: Env, s: State, c: SanctionCase)
    requires Settleable(env, s, c)
    ensures SameContext(s, SettleEffect(env, s, c))
  {
    hide SettlementMove, CoinsOk, Balance;
  }

  lemma ActionContext(env: Env, s: State, c: SanctionCase)
    requires Monetary(c.action) ==> Settleable(env, s, c)
    ensures SameContext(s, ActionEffect(env, s, c))
  {
    hide SettleEffect, Settleable;
    if Monetary(c.action) { SettleContext(env, s, c); }
  }

  lemma ExecuteContext(env: Env, s: State, c: SanctionCase, record: ExecutionRecord)
    requires Monetary(c.action) ==> Settleable(env, s, c)
    ensures SameContext(s, ExecuteEffect(env, s, c, record))
  {
    ActionContext(env, s, c);
    hide ActionEffect, Settleable, SetCase;
    SetCaseContext(ActionEffect(env, s, c), c.(status := Executed, executedAt := s.height));
  }

  lemma HandleContext(env: Env, s: State, m: Msg, bankOk: bool)
    requires HandleError(env, s, m, bankOk).None?
    ensures SameContext(s, HandleEffect(env, s, m, bankOk))
  {
    hide OpenCaseError, VoteError, ExecuteError, BankSendError, ClaimError, SubmitReportError, RegisterAgentError;
    hide SameContext, ExecuteEffect, VoteEffect, NewCase, OpenEffect;
    match m
    case Execute(executor, id, message) =>
      ExecuteFacts(env, s, m, bankOk);
      ExecuteContext(env, s, s.cases[id], ExecutionOf(env, s, s.cases[id], executor, message));
    case SubmitVote(_, v) =>
      VoteFacts(env, s, m);
      VoteContext(s, v.value);
    case OpenCase(_, _, _, _, _, _, _, _, _) =>
      OpenFacts(env, s, m);
      OpenContext(s, m.previous, NewCase(env, s, m));
    case _ =>
      OtherFacts(env, s, m, bankOk);
      OtherContext(env, s, m, bankOk);
  }

  lemma OpenContext(s: State, previous: string, c: SanctionCase)
    requires previous != "" ==> previous in s.cases
    ensures SameContext(s, OpenEffect(s, previous, c))
  {
    hide SetCase;
    if previous != "" { SetCaseContext(s, s.cases[previous].(status := Expired)); }
    SetCaseContext(if previous == "" then s else SetCase(s, s.cases[previous].(status := Expired)), c);
  }

  lemma OtherContext(env: Env, s: State, m: Msg, bankOk: bool)
    requires HandleError(env, s, m, bankOk).None? && !m.Execute? && !m.SubmitVote? && !m.OpenCase?
    ensures SameContext(s, HandleEffect(env, s, m, bankOk))
  {
    hide BankSendError, ClaimError, SubmitReportError, RegisterAgentError;
    OtherFacts(env, s, m, bankOk);
  }

  lemma {:induction false} RunCallsSound(env: Env, s: State, calls: seq<Call>)
    requires Keyed(s) && RunCalls(env, s, calls).Some?
    ensures var s' := RunCalls(env, s, calls).value;
      Sound(s, s') && SameContext(s, s')
  {
    hide HandleError, HandleEffect, Keyed, Extends;
    if calls == [] {
      StutterSound(s);
    } else {
      var init, call := calls[..|calls| - 1], calls[|calls| - 1];
      RunCallsSound(env, s, init);
      var s1 := RunCalls(env, s, init).value;
      HandleSound(env, s1, call.msg, call.bankOk);
      HandleContext(env, s1, call.msg, call.bankOk);
      ExtendsTransitive(s, s1, HandleEffect(env, s1, call.msg, call.bankOk));
    }
  }

  /** A tx fails with any of its prefixes. */
  lemma {:induction false} FailedPrefix(env: Env, s: State, calls: seq<Call>, n: nat)
    requires n <= |calls| && RunCalls(env, s, calls[..n]).None?
    ensures RunCalls(env, s, calls).None?
    decreases |calls|
  {
    hide HandleError, HandleEffect;
    if n == |calls| {
      assert calls[..n] == calls;
    } else {
      assert calls[..|calls| - 1][..n] == calls[..n];
      FailedPrefix(env, s, calls[..|calls| - 1], n);
    }
  }

  /** The post-handler writes receipts of its own tx only. */
  ghost predicate OnlyReceipts(s: State, s': State, hash: Bytes)
  {
    && s' == s.(receipts := s'.receipts)
    && (forall id :: id in s'.receipts ==> IdOf(s'.receipts[id]) == id)
    && (forall id: TransferId :: id.txHash != hash ==> (id in s'.receipts <==> id in s.receipts))
    && (forall id: TransferId :: id.txHash != hash && id in s.receipts ==> s'.receipts[id] == s.receipts[id])
  }

  lemma {:induction false} RecordCoinsOnly(s0: State, s: State, tx: Tx, index: uint32, m: Msg, n: nat)
    requires m.Send? && n <= |m.coins| && OnlyReceipts(s0, s, tx.hash)
    ensures OnlyReceipts(s0, RecordCoins(s, tx, index, m, n), tx.hash)
  {
    if n > 0 { RecordCoinsOnly(s0, s, tx, index, m, n - 1); }
  }

  lemma {:induction false} RecordTransfersOnly(s: State, tx: Tx, n: nat)
    requires n <= |tx.calls| && KeyedReceipts(s.receipts)
    ensures OnlyReceipts(s, RecordTransfers(s, tx, n), tx.hash)
  {
    if n > 0 {
      RecordTransfersOnly(s, tx, n - 1);
      var m := tx.calls[n - 1].msg;
      if m.Send? { RecordCoinsOnly(s, RecordTransfers(s, tx, n - 1), tx, (n - 1) % U32, m, |m.coins|); }
    }
  }

  lemma ReceiptsSound(s: State, s': State, hash: Bytes)
    requires Keyed(s) && OnlyReceipts(s, s', hash)
    requires forall id :: id in s.receipts ==> id.txHash != hash
    ensures Sound(s, s')
  {
  }

  lemma DeliverSound(env: Env, s: State, tx: Tx)
    requires Keyed(s) && StepOk(env, s, DeliverTx(tx))
    ensures Sound(s, Deliver(env, s, tx)) && Deliver(env, s, tx).height == s.height
  {
    hide RunCalls, RecordTransfers, Keyed, Extends, AnteError;
    StutterSound(s);
    if AnteError(s, tx).None? && RunCalls(env, s, tx.calls).Some? {
      RunCallsSound(env, s, tx.calls);
      var s1 := RunCalls(env, s, tx.calls).value;
      assert KeyedReceipts(s1.receipts) by { KeyedParts(s1); }
      RecordTransfersOnly(s1, tx, |tx.calls|);
      ReceiptsSound(s1, Deliver(env, s, tx), tx.hash);
      ExtendsTransitive(s, s1, Deliver(env, s, tx));
    }
  }

  lemma {:induction false} RefreshSound(acc: Synced, agents: seq<AgentInfo>, states: seq<ValidatorState>)
    requires Keyed(acc.state)
    ensures Sound(acc.state, RefreshAll(acc, agents, states).state)
  {
    hide Keyed, Extends, Refresh, Lookup, Electable, SetAgent;
    StutterSound(acc.state);
    if agents != [] {
      var init, a := agents[..|agents| - 1], agents[|agents| - 1];
      RefreshSound(acc, init, states);
      var s1 := RefreshAll(acc, init, states).state;
      AgentSound(s1, Refresh(a, Lookup(states, a.operator)));
      ExtendsTransitive(acc.state, s1, SetAgent(s1, Refresh(a, Lookup(states, a.operator))));
    }
  }

  lemma {:induction false} CreateSound(acc: Synced, states: seq<ValidatorState>)
    requires Keyed(acc.state)
    ensures Sound(acc.state, CreateAll(acc, states).state)
  {
    hide Keyed, Extends, Creatable, SetAgent;
    StutterSound(acc.state);
    if states != [] {
      var init, v := states[..|states| - 1], states[|states| - 1];
      CreateSound(acc, init);
      var s1 := CreateAll(acc, init).state;
      AgentSound(s1, NewAgent(v));
      ExtendsTransitive(acc.state, s1, SetAgent(s1, NewAgent(v)));
    }
  }

  lemma SyncSound(s: State, states: seq<ValidatorState>)
    requires Keyed(s)
    ensures Sound(s, Sync(s, states).state)
  {
    hide Keyed, Extends, RefreshAll, CreateAll;
    RefreshSound(Synced(s, 0, 0), AllAgents(s.agents), states);
    CreateSound(Refreshed(s, states), states);
    ExtendsTransitive(s, Refreshed(s, states).state, Sync(s, states).state);
  }

  lemma HeightSound(s: State, h: Height)
    requires Keyed(s) && h > s.height
    ensures Sound(s, s.(height := h))
  {
  }

  lemma ApplySound(env: Env, s: State, step: Step)
    requires Keyed(s) && StepOk(env, s, step)
    ensures Sound(s, Apply(env, s, step))
  {
    hide Sound, Keyed, Deliver, Sync;
    match step
    case DeliverTx(tx) => DeliverSound(env, s, tx);
    case EndBlock(states) => SyncSound(s, states);
    case NextHeight(h) => HeightSound(s, h);
  }

  /** Over every run, no report, vote, receipt, settlement, execution or case is lost or rewritten. */
  lemma {:induction false} RunSound(env: Env, s: State, steps: seq<Step>)
    requires Keyed(s) && RunOk(env, s, steps)
    ensures Sound(s, Run(env, s, steps))
  {
    hide Keyed, Extends, Apply;
    if steps == [] {
      StutterSound(s);
    } else {
      var s1 := Run(env, s, steps[..|steps| - 1]);
      RunSound(env, s, steps[..|steps| - 1]);
      ApplySound(env, s1, steps[|steps| - 1]);
      ExtendsTransitive(s, s1, Run(env, s, steps));
    }
  }
}
