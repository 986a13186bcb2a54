/** Settlement: each recorded coin is compensated at most once, by exactly its amount. */
module Ledger {
  import opened Basics
  import opened Types
  import opened Store
  import opened Handlers
  import opened Frames
  import opened Chain
  import RegistrySync
  import Electorate
  import Runs

  type Settlements = map<TransferId, SettlementRecord>

  /** The move repays the recorded amount of the settled receipt between its recorded parties. */
  ghost predicate Repays(env: Env, receipts: map<TransferId, OriginalTransfer>, r: SettlementRecord, m: Move)
  {
    && m.cause == Settling(IdOf(r.transfer), r.caseId)
    && IdOf(r.transfer) in receipts && receipts[IdOf(r.transfer)] == r.transfer
    && r.action in {EscrowFunds, RevertTransfer}
    && m.from == env.account(r.transfer.recipient)
    && m.to == (if r.action == RevertTransfer then env.account(r.transfer.sender) else env.moduleAccount)
    && m.denom == r.transfer.denom
    && env.parseInt(r.transfer.amount) == Some(m.amount)
  }

  /** Every settling move has its ledger entry, new since the start. */
  ghost predicate MovesRecorded(env: Env, start: Settlements, s: State, from: nat)
  {
    forall i :: from <= i < |s.moves| && s.moves[i].cause.Settling? ==>
      && s.moves[i].cause.id in s.settlements && s.moves[i].cause.id !in start
      && Repays(env, s.receipts, s.settlements[s.moves[i].cause.id], s.moves[i])
  }

  /** No transfer is settled by two moves. */
  ghost predicate MovesDistinct(moves: seq<Move>, from: nat)
  {
    forall i, j :: from <= i < j < |moves| && moves[i].cause.Settling? && moves[j].cause.Settling? ==>
      moves[i].cause.id != moves[j].cause.id
  }

  /** Every new ledger entry was paid. */
  ghost predicate EntriesPaid(start: Settlements, s: State, from: nat)
  {
    forall id :: id in s.settlements && id !in start ==>
      exists i :: from <= i < |s.moves| && s.moves[i].cause.Settling? && s.moves[i].cause.id == id
  }

  /** Amount settled in one denom by the moves after the first `from`. */
  function Compensated(moves: seq<Move>, from: nat, denom: string): nat
    decreases |moves|
  {
    if |moves| <= from then 0 else
      var m := moves[|moves| - 1];
      Compensated(moves[..|moves| - 1], from, denom) + if m.cause.Settling? && m.denom == denom then m.amount else 0
  }

  function EntryAmount(env: Env, r: SettlementRecord, denom: string): int
  {
    if r.transfer.denom == denom && env.parseInt(r.transfer.amount).Some? then env.parseInt(r.transfer.amount).value else 0
  }

  /** Recorded amount of the given ledger entries in one denom. */
  ghost function LedgerTotal(env: Env, t: Settlements, ids: set<TransferId>, denom: string): int
    requires ids <= t.Keys
    decreases |ids|
  {
    if ids == {} then 0 else
      var id :| id in ids;
      EntryAmount(env, t[id], denom) + LedgerTotal(env, t, ids - {id}, denom)
  }

  lemma {:induction false} LedgerTotalAdd(env: Env, t: Settlements, ids: set<TransferId>, id: TransferId, denom: string)
    requires ids <= t.Keys && id in ids
    ensures LedgerTotal(env, t, ids, denom) == EntryAmount(env, t[id], denom) + LedgerTotal(env, t, ids - {id}, denom)
    decreases |ids|
  {
    var x :| x in ids && LedgerTotal(env, t, ids, denom) == EntryAmount(env, t[x], denom) + LedgerTotal(env, t, ids - {x}, denom);
    if x != id {
      LedgerTotalAdd(env, t, ids - {x}, id, denom);
      LedgerTotalAdd(env, t, ids - {id}, x, denom);
      assert ids - {x} - {id} == ids - {id} - {x};
    }
  }

  lemma {:induction false} LedgerTotalSame(env: Env, t: Settlements, t': Settlements, ids: set<TransferId>, denom: string)
    requires ids <= t.Keys && Grows(t, t')
    ensures ids <= t'.Keys && LedgerTotal(env, t, ids, denom) == LedgerTotal(env, t', ids, denom)
    decreases |ids|
  {
    if ids != {} {
      var id :| id in ids;
      LedgerTotalAdd(env, t, ids, id, denom);
      LedgerTotalSame(env, t, t', ids - {id}, denom);
      LedgerTotalAdd(env, t', ids, id, denom);
    }
  }

  ghost predicate Balanced(env: Env, start: Settlements, s: State, from: nat)
  {
    && start.Keys <= s.settlements.Keys
    && forall denom: string :: Compensated(s.moves, from, denom) == LedgerTotal(env, s.settlements, s.settlements.Keys - start.Keys, denom)
  }

  ghost predicate LedgerOk(env: Env, start: Settlements, from: nat, s: State)
  {
    && from <= |s.moves| && Grows(start, s.settlements)
    && MovesRecorded(env, start, s, from) && MovesDistinct(s.moves, from) && EntriesPaid(start, s, from)
    && Balanced(env, start, s, from)
  }

  // ---- one bank movement

  /** An ordinary move leaves the ledger as it is. */
  lemma OrdinaryMove(env: Env, start: Settlements, from: nat, s: State, s': State, m: Move)
    requires LedgerOk(env, start, from, s) && m.cause.Ordinary?
    requires s'.settlements == s.settlements && s'.receipts == s.receipts && s'.moves == s.moves + [m]
    ensures LedgerOk(env, start, from, s')
  {
    hide Repays;
    assert s'.moves[..|s.moves|] == s.moves;
  }

  /** A settlement adds one entry and the move that pays it. */
  lemma SettlingMove(env: Env, start: Settlements, from: nat, s: State, s': State, r: SettlementRecord, m: Move)
    requires LedgerOk(env, start, from, s) && IdOf(r.transfer) !in s.settlements
    requires Repays(env, s.receipts, r, m)
    requires s'.settlements == s.settlements[IdOf(r.transfer) := r] && s'.receipts == s.receipts && s'.moves == s.moves + [m]
    ensures LedgerOk(env, start, from, s')
  {
    var id := IdOf(r.transfer);
    assert m.cause == Settling(id, r.caseId) && env.parseInt(r.transfer.amount) == Some(m.amount) && m.denom == r.transfer.denom;
    hide Repays;
    SettlingRecorded(env, start, from, s, s', r, m);
    SettlingBalanced(env, start, from, s, s', r, m);
  }

  lemma SettlingRecorded(env: Env, start: Settlements, from: nat, s: State, s': State, r: SettlementRecord, m: Move)
    requires from <= |s.moves| && Grows(start, s.settlements) && IdOf(r.transfer) !in s.settlements
    requires MovesRecorded(env, start, s, from) && MovesDistinct(s.moves, from) && EntriesPaid(start, s, from)
    requires Repays(env, s.receipts, r, m) && m.cause == Settling(IdOf(r.transfer), r.caseId)
    requires s'.settlements == s.settlements[IdOf(r.transfer) := r] && s'.receipts == s.receipts && s'.moves == s.moves + [m]
    ensures MovesRecorded(env, start, s', from) && MovesDistinct(s'.moves, from) && EntriesPaid(start, s', from)
  {
    hide Repays;
    assert s'.moves[|s.moves|] == m;
    forall i | from <= i < |s.moves| ensures s'.moves[i] == s.moves[i] {}
    hide Grows;
    EntryPaid(start, from, s, s', r, m);
    hide EntriesPaid;
  }

  lemma EntryPaid(start: Settlements, from: nat, s: State, s': State, r: SettlementRecord, m: Move)
    requires from <= |s.moves| && EntriesPaid(start, s, from) && m.cause == Settling(IdOf(r.transfer), r.caseId)
    requires s'.settlements == s.settlements[IdOf(r.transfer) := r] && s'.moves == s.moves + [m]
    ensures EntriesPaid(start, s', from)
  {
    assert s'.moves[|s.moves|] == m;
    forall id | id in s'.settlements && id !in start
      ensures exists i :: from <= i < |s'.moves| && s'.moves[i].cause.Settling? && s'.moves[i].cause.id == id
    {
      if id in s.settlements {
        var i :| from <= i < |s.moves| && s.moves[i].cause.Settling? && s.moves[i].cause.id == id;
        assert s'.moves[i].cause.id == id;
      } else {
        assert s'.moves[|s.moves|].cause.id == id;
      }
    }
  }

  lemma SettlingBalanced(env: Env, start: Settlements, from: nat, s: State, s': State, r: SettlementRecord, m: Move)
    requires from <= |s.moves| && Balanced(env, start, s, from) && IdOf(r.transfer) !in s.settlements
    requires m.cause.Settling? && env.parseInt(r.transfer.amount) == Some(m.amount) && m.denom == r.transfer.denom
    requires s'.settlements == s.settlements[IdOf(r.transfer) := r] && s'.moves == s.moves + [m]
    ensures Balanced(env, start, s', from)
  {
    var id := IdOf(r.transfer);
    var news := s'.settlements.Keys - start.Keys;
    assert news - {id} == s.settlements.Keys - start.Keys;
    assert s'.moves[..|s.moves|] == s.moves;
    forall denom: string ensures Compensated(s'.moves, from, denom) == LedgerTotal(env, s'.settlements, news, denom) {
      LedgerTotalAdd(env, s'.settlements, news, id, denom);
      LedgerTotalSame(env, s.settlements, s'.settlements, news - {id}, denom);
    }
  }

  /** Nothing about money changes. */
  ghost predicate SameMoney(s: State, s': State)
  {
    s'.settlements == s.settlements && s'.moves == s.moves && s'.balances == s.balances && Grows(s.receipts, s'.receipts)
  }

  lemma QuietLedger(env: Env, start: Settlements, from: nat, s: State, s': State)
    requires LedgerOk(env, start, from, s) && SameMoney(s, s')
    ensures LedgerOk(env, start, from, s')
  {
    forall i | from <= i < |s.moves| && s.moves[i].cause.Settling?
      ensures Repays(env, s'.receipts, s'.settlements[s.moves[i].cause.id], s'.moves[i])
    {
      assert Repays(env, s.receipts, s.settlements[s.moves[i].cause.id], s.moves[i]);
    }
    hide Repays;
  }

  /** What a settlement moves is what its receipt recorded. */
  lemma SettlementRepays(env: Env, s: State, c: SanctionCase)
    requires KeyedReceipts(s.receipts) && Settleable(env, s, c) && Monetary(c.action)
    requires UnsettledError(s, s.reports[c.reportIds[0]]).None?
    ensures var r := s.reports[c.reportIds[0]]; var id := TransferId(r.txHash, r.messageIndex, r.denom);
      && id !in s.settlements && IdOf(s.receipts[id]) == id
      && Repays(env, s.receipts, SettlementRecord(s.receipts[id], c.caseId, c.action, s.height), SettlementMove(env, r, c.caseId, c.action))
  {
  }

  lemma SettleMoney(env: Env, s: State, c: SanctionCase)
    requires KeyedReceipts(s.receipts) && Settleable(env, s, c)
    ensures var r := s.reports[c.reportIds[0]]; var id := TransferId(r.txHash, r.messageIndex, r.denom); var s' := SettleEffect(env, s, c);
      && s'.settlements == s.settlements[id := SettlementRecord(s.receipts[id], c.caseId, c.action, s.height)]
      && s'.moves == s.moves + [SettlementMove(env, r, c.caseId, c.action)] && s'.receipts == s.receipts
      && s'.balances == MoveCoins(s, SettlementMove(env, r, c.caseId, c.action)).balances
  {
    hide CoinsOk;
  }

  /** Money after execution is money after its action. */
  lemma ExecuteMoney(env: Env, s: State, c: SanctionCase, record: ExecutionRecord)
    requires Monetary(c.action) ==> Settleable(env, s, c)
    ensures var s' := ExecuteEffect(env, s, c, record); var a := if Monetary(c.action) then SettleEffect(env, s, c) else s;
      s'.settlements == a.settlements && s'.moves == a.moves && s'.balances == a.balances && s'.receipts == a.receipts
  {
    hide SettleEffect, Settleable;
  }

  lemma ExecuteLedger(env: Env, start: Settlements, from: nat, s: State, c: SanctionCase, record: ExecutionRecord)
    requires LedgerOk(env, start, from, s) && KeyedReceipts(s.receipts)
    requires Monetary(c.action) ==> Settleable(env, s, c) && UnsettledError(s, s.reports[c.reportIds[0]]).None?
    ensures LedgerOk(env, start, from, ExecuteEffect(env, s, c, record))
  {
    var s' := ExecuteEffect(env, s, c, record);
    ExecuteMoney(env, s, c, record);
    hide ExecuteEffect, LedgerOk, SettlementMove, CoinsOk, UnsettledError;
    if Monetary(c.action) {
      var r := s.reports[c.reportIds[0]];
      var id := TransferId(r.txHash, r.messageIndex, r.denom);
      SettlementRepays(env, s, c);
      SettleMoney(env, s, c);
      hide SettleEffect, Repays;
      SettlingMove(env, start, from, s, s', SettlementRecord(s.receipts[id], c.caseId, c.action, s.height),
                   SettlementMove(env, r, c.caseId, c.action));
    } else {
      QuietLedger(env, start, from, s, s');
    }
  }

  lemma {:induction false} SendLedger(env: Env, start: Settlements, from: nat, s: State, payer: string, payee: string, coins: seq<Coin>)
    requires LedgerOk(env, start, from, s) && Payable(s, payer, coins)
    ensures LedgerOk(env, start, from, SendCoins(s, payer, payee, coins))
  {
    hide LedgerOk, Balance;
    if coins != [] {
      var init, c := coins[..|coins| - 1], coins[|coins| - 1];
      SendLedger(env, start, from, s, payer, payee, init);
      var prev := SendCoins(s, payer, payee, init);
      OrdinaryMove(env, start, from, prev, SendCoins(s, payer, payee, coins), CoinMove(payer, payee, c));
    }
  }

  lemma OtherMoney(env: Env, s: State, m: Msg, bankOk: bool)
    requires HandleError(env, s, m, bankOk).None? && !m.Execute? && !m.Send?
    ensures SameMoney(s, HandleEffect(env, s, m, bankOk))
  {
    hide OpenCaseError, VoteError, ExecuteError, BankSendError, ClaimError, SubmitReportError, RegisterAgentError;
    match m {
      case OpenCase(_, _, _, _, _, _, _, _, _) => OpenFacts(env, s, m); hide NewCase; OpenMoney(s, m.previous, NewCase(env, s, m)); hide OpenEffect;
      case SubmitVote(_, v) => VoteFacts(env, s, m); VoteMoney(s, v.value); hide VoteEffect;
      case _ => OtherFacts(env, s, m, bankOk);
    }
  }

  lemma OpenMoney(s: State, previous: string, c: SanctionCase)
    requires previous != "" ==> previous in s.cases
    ensures SameMoney(s, OpenEffect(s, previous, c))
  {
  }

  lemma VoteMoney(s: State, v: SanctionVote)
    requires v.caseId in s.cases
    ensures SameMoney(s, VoteEffect(s, v))
  {
    hide SetCase, SetActiveTx, Activates, RecomputedStatus;
    var s1, c := SetVote(s, v), s.cases[v.caseId];
    var s2 := if Activates(s1.votes, c) then SetActiveTx(s1, ActivationOf(s1, c)) else s1;
    ActiveMoney(s1, ActivationOf(s1, c));
    CaseMoney(s2, c.(status := RecomputedStatus(s1.votes, c)));
  }

  lemma CaseMoney(s: State, c: SanctionCase)
    ensures SameMoney(s, SetCase(s, c))
  {
  }

  lemma ActiveMoney(s: State, a: ActiveSanction)
    ensures SameMoney(s, SetActiveTx(s, a))
  {
  }

  lemma HandleLedger(env: Env, start: Settlements, from: nat, s: State, m: Msg, bankOk: bool)
    requires LedgerOk(env, start, from, s) && Keyed(s) && HandleError(env, s, m, bankOk).None?
    ensures LedgerOk(env, start, from, HandleEffect(env, s, m, bankOk))
  {
    hide OpenCaseError, VoteError, ExecuteError, ClaimError, SubmitReportError, RegisterAgentError;
    hide LedgerOk, ExecuteEffect, CoinsValid, SendCoins;
    match m {
      case Execute(executor, id, message) =>
        ExecuteFacts(env, s, m, bankOk);
        KeyedParts(s);
        ExecuteLedger(env, start, from, s, s.cases[id], ExecutionOf(env, s, s.cases[id], executor, message));
      case Send(_, _, _) =>
        ValidPayable(env, s, m, bankOk);
        SendLedger(env, start, from, s, env.account(m.from), env.account(m.to), m.coins);
      case _ =>
        OtherMoney(env, s, m, bankOk);
        QuietLedger(env, start, from, s, HandleEffect(env, s, m, bankOk));
    }
  }

  lemma {:induction false} CallsLedger(env: Env, start: Settlements, from: nat, s: State, calls: seq<Call>)
    requires LedgerOk(env, start, from, s) && Keyed(s) && RunCalls(env, s, calls).Some?
    ensures LedgerOk(env, start, from, RunCalls(env, s, calls).value)
  {
    hide LedgerOk, HandleEffect, HandleError, Keyed, Extends;
    if calls != [] {
      var init, call := calls[..|calls| - 1], calls[|calls| - 1];
      CallsLedger(env, start, from, s, init);
      RunCallsSound(env, s, init);
      HandleLedger(env, start, from, RunCalls(env, s, init).value, call.msg, call.bankOk);
    }
  }

  lemma AgentMoney(s: State, a: AgentInfo)
    ensures SameMoney(s, SetAgent(s, a))
  {
  }

  lemma {:induction false} RefreshMoney(acc: RegistrySync.Synced, agents: seq<AgentInfo>, states: seq<RegistrySync.ValidatorState>)
    ensures SameMoney(acc.state, RegistrySync.RefreshAll(acc, agents, states).state)
  {
    hide RegistrySync.Refresh, RegistrySync.Lookup, RegistrySync.Electable, SetAgent;
    if agents != [] {
      var init, a := agents[..|agents| - 1], agents[|agents| - 1];
      RefreshMoney(acc, init, states);
      AgentMoney(RegistrySync.RefreshAll(acc, init, states).state, RegistrySync.Refresh(a, RegistrySync.Lookup(states, a.operator)));
    }
  }

  lemma {:induction false} CreateMoney(acc: RegistrySync.Synced, states: seq<RegistrySync.ValidatorState>)
    ensures SameMoney(acc.state, RegistrySync.CreateAll(acc, states).state)
  {
    hide RegistrySync.Creatable, RegistrySync.NewAgent, SetAgent;
    if states != [] {
      CreateMoney(acc, states[..|states| - 1]);
      AgentMoney(RegistrySync.CreateAll(acc, states[..|states| - 1]).state, RegistrySync.NewAgent(states[|states| - 1]));
    }
  }

  lemma ReceiptMoney(s: State, s': State, hash: Bytes)
    requires OnlyReceipts(s, s', hash) && forall id :: id in s.receipts ==> id.txHash != hash
    ensures SameMoney(s, s')
  {
  }

  lemma StepLedger(env: Env, start: Settlements, from: nat, s: State, step: Step)
    requires LedgerOk(env, start, from, s) && Keyed(s) && StepOk(env, s, step)
    ensures LedgerOk(env, start, from, Apply(env, s, step))
  {
    hide LedgerOk, RunCalls, RecordTransfers, AnteError, RegistrySync.RefreshAll, RegistrySync.CreateAll, Extends;
    match step {
      case DeliverTx(tx) =>
        if AnteError(s, tx).None? && RunCalls(env, s, tx.calls).Some? {
          var s1 := RunCalls(env, s, tx.calls).value;
          CallsLedger(env, start, from, s, tx.calls);
          RunCallsSound(env, s, tx.calls);
          KeyedParts(s1);
          RecordTransfersOnly(s1, tx, |tx.calls|);
          ReceiptMoney(s1, RecordTransfers(s1, tx, |tx.calls|), tx.hash);
          QuietLedger(env, start, from, s1, RecordTransfers(s1, tx, |tx.calls|));
        }
      case EndBlock(states) =>
        var acc := RegistrySync.Refreshed(s, states);
        RefreshMoney(RegistrySync.Synced(s, 0, 0), RegistrySync.AllAgents(s.agents), states);
        CreateMoney(acc, states);
        QuietLedger(env, start, from, s, acc.state);
        QuietLedger(env, start, from, acc.state, RegistrySync.Sync(s, states).state);
      case NextHeight(h) =>
        QuietLedger(env, start, from, s, s.(height := h));
    }
  }

  lemma LedgerStart(env: Env, s: State)
    ensures LedgerOk(env, s.settlements, |s.moves|, s)
  {
    forall denom: string ensures Compensated(s.moves, |s.moves|, denom) == 0 {}
    assert s.settlements.Keys - s.settlements.Keys == {};
  }

  /**
   * From any state, over any run: every settlement moves exactly the recorded amount between
   * the recorded parties, no transfer is settled twice or again after an earlier settlement,
   * every new ledger entry was paid, and per denom the compensation paid equals the sum of
   * the newly settled receipts. Revocations are ordinary steps here: none reopens a transfer.
   */
  lemma {:induction false} SettledAtMostOnce(env: Env, s0: State, steps: seq<Step>)
    requires Keyed(s0) && RunOk(env, s0, steps)
    ensures LedgerOk(env, s0.settlements, |s0.moves|, Run(env, s0, steps))
  {
    hide LedgerOk, Apply, Keyed, Extends;
    if steps == [] {
      LedgerStart(env, s0);
    } else {
      var init := steps[..|steps| - 1];
      SettledAtMostOnce(env, s0, init);
      RunSound(env, s0, init);
      StepLedger(env, s0.settlements, |s0.moves|, Run(env, s0, init), steps[|steps| - 1]);
    }
  }
}
