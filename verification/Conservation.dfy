/** Coins are only moved: balances follow the recorded moves and no run changes the supply. */
module Conservation {
  import opened Basics
  import opened Types
  import opened Store
  import opened Handlers
  import opened Frames
  import opened Chain
  import opened Ledger
  import RegistrySync

  type Balances = map<(string, string), nat>

  function At(b: Balances, account: string, denom: string): nat
  {
    if (account, denom) in b then b[(account, denom)] else 0
  }

  /** What the moves after the first `from` brought to an account. */
  function Received(moves: seq<Move>, from: nat, account: string, denom: string): nat
    decreases |moves|
  {
    if |moves| <= from then 0 else
      var m := moves[|moves| - 1];
      Received(moves[..|moves| - 1], from, account, denom) + if m.to == account && m.denom == denom then m.amount else 0
  }

  /** What they took from it. */
  function Paid(moves: seq<Move>, from: nat, account: string, denom: string): nat
    decreases |moves|
  {
    if |moves| <= from then 0 else
      var m := moves[|moves| - 1];
      Paid(moves[..|moves| - 1], from, account, denom) + if m.from == account && m.denom == denom then m.amount else 0
  }

  /** Sum of one denom over the given entries. */
  ghost function SumOver(b: Balances, keys: set<(string, string)>, denom: string): nat
    requires keys <= b.Keys
    decreases |keys|
  {
    if keys == {} then 0 else
      var k :| k in keys;
      (if k.1 == denom then b[k] else 0) + SumOver(b, keys - {k}, denom)
  }

  ghost function Supply(b: Balances, denom: string): nat
  {
    SumOver(b, b.Keys, denom)
  }

  lemma {:induction false} SumOverAdd(b: Balances, keys: set<(string, string)>, k: (string, string), denom: string)
    requires keys <= b.Keys && k in keys
    ensures SumOver(b, keys, denom) == (if k.1 == denom then b[k] else 0) + SumOver(b, keys - {k}, denom)
    decreases |keys|
  {
    var x :| x in keys && SumOver(b, keys, denom) == (if x.1 == denom then b[x] else 0) + SumOver(b, keys - {x}, denom);
    if x != k {
      SumOverAdd(b, keys - {x}, k, denom);
      SumOverAdd(b, keys - {k}, x, denom);
      assert keys - {x} - {k} == keys - {k} - {x};
    }
  }

  lemma {:induction false} SumOverSame(b: Balances, b': Balances, keys: set<(string, string)>, denom: string)
    requires keys <= b.Keys && keys <= b'.Keys && forall k :: k in keys ==> b[k] == b'[k]
    ensures SumOver(b, keys, denom) == SumOver(b', keys, denom)
    decreases |keys|
  {
    if keys != {} {
      var k :| k in keys;
      SumOverAdd(b, keys, k, denom);
      SumOverSame(b, b', keys - {k}, denom);
      SumOverAdd(b', keys, k, denom);
    }
  }

  /** Setting one balance changes the supply by the difference. */
  lemma SupplySet(b: Balances, account: string, d: string, amount: nat, denom: string)
    ensures Supply(b[(account, d) := amount], denom) + (if d == denom then At(b, account, d) else 0)
            == Supply(b, denom) + if d == denom then amount else 0
  {
    var k := (account, d);
    var b' := b[k := amount];
    var rest := b.Keys - {k};
    assert b'.Keys - {k} == rest;
    SumOverAdd(b', b'.Keys, k, denom);
    SumOverSame(b, b', rest, denom);
    if k in b { SumOverAdd(b, b.Keys, k, denom); } else { assert rest == b.Keys; }
  }

  lemma MoveKeepsSupply(s: State, m: Move, denom: string)
    requires Balance(s, m.from, m.denom) >= m.amount
    ensures Supply(MoveCoins(s, m).balances, denom) == Supply(s.balances, denom)
  {
    var left := Balance(s, m.from, m.denom) - m.amount;
    var b1 := s.balances[(m.from, m.denom) := left];
    SupplySet(s.balances, m.from, m.denom, left, denom);
    SupplySet(b1, m.to, m.denom, At(b1, m.to, m.denom) + m.amount, denom);
  }

  /** Balances are the starting ones plus what was received minus what was paid. */
  ghost predicate Accounted(b0: Balances, from: nat, s: State)
  {
    && from <= |s.moves|
    && (forall a: string, d: string :: At(s.balances, a, d) + Paid(s.moves, from, a, d) == At(b0, a, d) + Received(s.moves, from, a, d))
    && (forall d: string :: Supply(s.balances, d) == Supply(b0, d))
  }

  lemma MoveAccounted(b0: Balances, from: nat, s: State, s': State, m: Move)
    requires Accounted(b0, from, s) && Balance(s, m.from, m.denom) >= m.amount
    requires s'.balances == MoveCoins(s, m).balances && s'.moves == s.moves + [m]
    ensures Accounted(b0, from, s')
  {
    assert s'.moves[..|s.moves|] == s.moves;
    forall d: string ensures Supply(s'.balances, d) == Supply(b0, d) { MoveKeepsSupply(s, m, d); }
    forall a: string, d: string
      ensures At(s'.balances, a, d) + Paid(s'.moves, from, a, d) == At(b0, a, d) + Received(s'.moves, from, a, d)
    {
      assert At(s.balances, a, d) + Paid(s.moves, from, a, d) == At(b0, a, d) + Received(s.moves, from, a, d);
    }
    hide Supply;
  }

  lemma {:induction false} SendAccounted(b0: Balances, from: nat, s: State, payer: string, payee: string, coins: seq<Coin>)
    requires Accounted(b0, from, s) && Payable(s, payer, coins)
    ensures Accounted(b0, from, SendCoins(s, payer, payee, coins))
  {
    hide Accounted;
    if coins != [] {
      var init, c := coins[..|coins| - 1], coins[|coins| - 1];
      SendAccounted(b0, from, s, payer, payee, init);
      MoveAccounted(b0, from, SendCoins(s, payer, payee, init), SendCoins(s, payer, payee, coins), CoinMove(payer, payee, c));
    }
  }

  lemma ExecuteAccounted(env: Env, b0: Balances, from: nat, s: State, c: SanctionCase, record: ExecutionRecord)
    requires Accounted(b0, from, s) && KeyedReceipts(s.receipts) && (Monetary(c.action) ==> Settleable(env, s, c))
    ensures Accounted(b0, from, ExecuteEffect(env, s, c, record))
  {
    var s' := ExecuteEffect(env, s, c, record);
    ExecuteMoney(env, s, c, record);
    hide ExecuteEffect, CoinsOk, Supply, Received, Paid;
    if Monetary(c.action) {
      SettleMoney(env, s, c);
      hide SettleEffect, MoveCoins, Accounted;
      MoveAccounted(b0, from, s, s', SettlementMove(env, s.reports[c.reportIds[0]], c.caseId, c.action));
    }
  }

  lemma QuietAccounted(b0: Balances, from: nat, s: State, s': State)
    requires Accounted(b0, from, s) && s'.balances == s.balances && s'.moves == s.moves
    ensures Accounted(b0, from, s')
  {
    hide Supply, Received, Paid;
  }

  lemma HandleAccounted(env: Env, b0: Balances, from: nat, s: State, m: Msg, bankOk: bool)
    requires Accounted(b0, from, s) && Keyed(s) && HandleError(env, s, m, bankOk).None?
    ensures Accounted(b0, from, HandleEffect(env, s, m, bankOk))
  {
    hide OpenCaseError, VoteError, ExecuteError, ClaimError, SubmitReportError, RegisterAgentError;
    hide Accounted, ExecuteEffect, CoinsValid, SendCoins;
    match m {
      case Execute(executor, id, message) =>
        ExecuteFacts(env, s, m, bankOk);
        KeyedParts(s);
        ExecuteAccounted(env, b0, from, s, s.cases[id], ExecutionOf(env, s, s.cases[id], executor, message));
      case Send(_, _, _) =>
        ValidPayable(env, s, m, bankOk);
        SendAccounted(b0, from, s, env.account(m.from), env.account(m.to), m.coins);
      case _ =>
        OtherMoney(env, s, m, bankOk);
        QuietAccounted(b0, from, s, HandleEffect(env, s, m, bankOk));
    }
  }

  lemma {:induction false} CallsAccounted(env: Env, b0: Balances, from: nat, s: State, calls: seq<Call>)
    requires Accounted(b0, from, s) && Keyed(s) && RunCalls(env, s, calls).Some?
    ensures Accounted(b0, from, RunCalls(env, s, calls).value)
  {
    hide Accounted, HandleEffect, HandleError, Keyed, Extends;
    if calls != [] {
      var init, call := calls[..|calls| - 1], calls[|calls| - 1];
      CallsAccounted(env, b0, from, s, init);
      RunCallsSound(env, s, init);
      HandleAccounted(env, b0, from, RunCalls(env, s, init).value, call.msg, call.bankOk);
    }
  }

  lemma StepAccounted(env: Env, b0: Balances, from: nat, s: State, step: Step)
    requires Accounted(b0, from, s) && Keyed(s) && StepOk(env, s, step)
    ensures Accounted(b0, from, Apply(env, s, step))
  {
    hide Accounted, RunCalls, RecordTransfers, AnteError, RegistrySync.RefreshAll, RegistrySync.CreateAll, Extends;
    match step {
      case DeliverTx(tx) =>
        if AnteError(s, tx).None? && RunCalls(env, s, tx.calls).Some? {
          var s1 := RunCalls(env, s, tx.calls).value;
          CallsAccounted(env, b0, from, s, tx.calls);
          RunCallsSound(env, s, tx.calls);
          KeyedParts(s1);
          RecordTransfersOnly(s1, tx, |tx.calls|);
          QuietAccounted(b0, from, s1, RecordTransfers(s1, tx, |tx.calls|));
        }
      case EndBlock(states) =>
        var acc := RegistrySync.Refreshed(s, states);
        RefreshMoney(RegistrySync.Synced(s, 0, 0), RegistrySync.AllAgents(s.agents), states);
        CreateMoney(acc, states);
        QuietAccounted(b0, from, s, RegistrySync.Sync(s, states).state);
      case NextHeight(h) =>
        QuietAccounted(b0, from, s, s.(height := h));
    }
  }

  /** Over every run each balance is its start plus receipts minus payments, and no denom's supply changes. */
  lemma {:induction false} CoinsAreConserved(env: Env, s0: State, steps: seq<Step>)
    requires Keyed(s0) && RunOk(env, s0, steps)
    ensures Accounted(s0.balances, |s0.moves|, Run(env, s0, steps))
  {
    hide Apply, Keyed, Extends, Supply;
    if steps != [] {
      hide Accounted;
      var init := steps[..|steps| - 1];
      CoinsAreConserved(env, s0, init);
      RunSound(env, s0, init);
      StepAccounted(env, s0.balances, |s0.moves|, Run(env, s0, init), steps[|steps| - 1]);
    }
  }

  // ---- frozen accounts

  lemma {:induction false} SendElsewhere(s: State, payer: string, payee: string, coins: seq<Coin>, account: string)
    requires Payable(s, payer, coins) && account != payer && account != payee
    ensures forall d: string :: Balance(SendCoins(s, payer, payee, coins), account, d) == Balance(s, account, d)
  {
    if coins != [] { SendElsewhere(s, payer, payee, coins[..|coins| - 1], account); }
  }

  /** While an account is frozen, only a settlement can change any of its balances. */
  lemma FrozenFundsMoveOnlyBySettlement(env: Env, s: State, m: Msg, bankOk: bool, account: string, denom: string)
    requires HandleError(env, s, m, bankOk).None? && account in s.freezes
    requires Balance(HandleEffect(env, s, m, bankOk), account, denom) != Balance(s, account, denom)
    ensures m.Execute? && m.caseId in s.cases && Monetary(s.cases[m.caseId].action)
  {
    hide OpenCaseError, VoteError, ClaimError, SubmitReportError, RegisterAgentError, SettleError, SnapshotValid, Unanimous;
    if m.Send? {
      ValidPayable(env, s, m, bankOk);
      SendElsewhere(s, env.account(m.from), env.account(m.to), m.coins, account);
      assert false;
    } else if m.Execute? {
      var c := s.cases[m.caseId];
      ExecuteFacts(env, s, m, bankOk);
      ExecuteMoney(env, s, c, ExecutionOf(env, s, c, m.executor, m.resultMessage));
      hide ExecuteEffect, SettleEffect, Settleable;
    } else {
      OtherMoney(env, s, m, bankOk);
      hide HandleEffect;
      assert false;
    }
  }
}
