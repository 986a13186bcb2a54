/** What a transaction records is what its sends paid, and what a settlement reverses is such a payment. */
module Receipts {
  import opened Basics
  import opened Types
  import opened Store
  import opened Handlers
  import opened Frames
  import opened Chain
  import opened Ledger
  import Closure
  import Conservation
  import Decimal
  import RegistrySync
  import Strings

  // ---- receipts of one transaction

  /** The receipt of the k-th coin of a send: message index, parties, denomination, amount text and height. */
  ghost predicate Records(t: OriginalTransfer, hash: Bytes, index: int, m: Msg, k: int, height: Height)
    requires m.Send? && 0 <= k < |m.coins|
  {
    && t.txHash == hash && t.messageIndex == index && t.sender == m.from && t.recipient == m.to
    && t.denom == m.coins[k].denom && m.coins[k].amount > 0 && t.amount == Decimal.Format(m.coins[k].amount) && t.height == height
  }

  /** The k-th coin of the i-th message, if there is one. */
  ghost predicate IsCoin(calls: seq<Call>, i: int, k: int)
  {
    0 <= i < |calls| && calls[i].msg.Send? && 0 <= k < |calls[i].msg.coins|
  }

  ghost predicate Recorded(receipts: map<TransferId, OriginalTransfer>, hash: Bytes, index: int, m: Msg, k: int, height: Height)
    requires m.Send? && 0 <= k < |m.coins| && 0 <= index < U32
  {
    var id := TransferId(hash, index, m.coins[k].denom);
    id in receipts && Records(receipts[id], hash, index, m, k, height)
  }

  /** Each coin of each send of the first n messages has its receipt; no other receipt appears, changes or goes. */
  ghost predicate RecordsExactly(before: map<TransferId, OriginalTransfer>, after: map<TransferId, OriginalTransfer>,
                                 hash: Bytes, calls: seq<Call>, n: int, height: Height)
    requires |calls| < U32
  {
    && (forall i, k :: IsCoin(calls, i, k) && i < n ==> Recorded(after, hash, i, calls[i].msg, k, height))
    && (forall id :: id in after && (id !in before || after[id] != before[id]) ==>
          exists i, k :: IsCoin(calls, i, k) && i < n && id == TransferId(hash, i, calls[i].msg.coins[k].denom))
    && (forall id :: id in before ==> id in after)
  }

  /** One send: its first n coins are recorded, other receipts stay. */
  ghost predicate CoinsExactly(before: map<TransferId, OriginalTransfer>, after: map<TransferId, OriginalTransfer>,
                               hash: Bytes, index: int, m: Msg, n: int, height: Height)
    requires m.Send? && 0 <= index < U32 && n <= |m.coins|
  {
    && (forall k :: 0 <= k < n ==> Recorded(after, hash, index, m, k, height))
    && (forall id :: id in after && (id !in before || after[id] != before[id]) ==>
          exists k :: 0 <= k < n && id == TransferId(hash, index, m.coins[k].denom))
    && (forall id :: id in before ==> id in after)
  }

  lemma OneCoinMore(env: Env, a: map<TransferId, OriginalTransfer>, b: map<TransferId, OriginalTransfer>,
                    hash: Bytes, index: int, m: Msg, n: int, height: Height, t: OriginalTransfer)
    requires m.Send? && 0 <= index < U32 && 0 <= n < |m.coins| && CoinsValid(env, m.coins)
    requires CoinsExactly(a, b, hash, index, m, n, height) && Records(t, hash, index, m, n, height)
    ensures CoinsExactly(a, b[IdOf(t) := t], hash, index, m, n + 1, height)
  {
    forall k | 0 <= k < n ensures m.coins[k].denom != m.coins[n].denom {
      Strings.LessAsymmetric(m.coins[k].denom, m.coins[n].denom);
    }
    hide CoinsValid, Decimal.Format;
    var c := b[IdOf(t) := t];
    assert IdOf(t) == TransferId(hash, index, m.coins[n].denom);
    forall k | 0 <= k < n ensures Recorded(c, hash, index, m, k, height) {
      assert Recorded(b, hash, index, m, k, height);
    }
    forall id | id in c && (id !in a || c[id] != a[id])
      ensures exists k :: 0 <= k < n + 1 && id == TransferId(hash, index, m.coins[k].denom)
    {
      if id != IdOf(t) {
        var k :| 0 <= k < n && id == TransferId(hash, index, m.coins[k].denom);
      }
    }
  }

  /** Every send of the list has passed the checks of the bank. */
  ghost predicate AllFine(env: Env, calls: seq<Call>)
  {
    forall i :: 0 <= i < |calls| ==> Closure.SendFine(env, calls[i].msg)
  }

  lemma NewReceipt(env: Env, tx: Tx, index: uint32, m: Msg, k: nat, height: Height)
    requires m.Send? && k < |m.coins| && CoinsValid(env, m.coins)
    ensures Records(ReceiptOf(tx, index, m, k, height), tx.hash, index, m, k, height)
  {
    hide Decimal.Format;
    ValidAmount(env, m.coins, k);
    hide CoinsValid;
  }

  lemma StoredCoin(s: State, tx: Tx, index: uint32, m: Msg, n: nat)
    requires m.Send? && 0 < n <= |m.coins|
    ensures var t := ReceiptOf(tx, index, m, n - 1, s.height);
      RecordCoins(s, tx, index, m, n).receipts == RecordCoins(s, tx, index, m, n - 1).receipts[IdOf(t) := t]
  {
    hide ReceiptOf;
  }

  lemma {:induction false} CoinsRecorded(env: Env, s: State, tx: Tx, index: uint32, m: Msg, n: nat)
    requires m.Send? && n <= |m.coins| && CoinsValid(env, m.coins)
    ensures CoinsExactly(s.receipts, RecordCoins(s, tx, index, m, n).receipts, tx.hash, index, m, n, s.height)
  {
    hide CoinsValid, ReceiptOf, Records;
    if n > 0 {
      hide CoinsExactly, RecordCoins;
      CoinsRecorded(env, s, tx, index, m, n - 1);
      NewReceipt(env, tx, index, m, n - 1, s.height);
      StoredCoin(s, tx, index, m, n);
      OneCoinMore(env, s.receipts, RecordCoins(s, tx, index, m, n - 1).receipts, tx.hash, index, m, n - 1, s.height,
                  ReceiptOf(tx, index, m, n - 1, s.height));
    }
  }

  lemma {:induction false} CoinsFrame(s: State, tx: Tx, index: uint32, m: Msg, n: nat)
    requires m.Send? && n <= |m.coins|
    ensures RecordCoins(s, tx, index, m, n) == s.(receipts := RecordCoins(s, tx, index, m, n).receipts)
  {
    hide ReceiptOf;
    if n > 0 { CoinsFrame(s, tx, index, m, n - 1); }
  }

  lemma {:induction false} TransfersFrame(s: State, tx: Tx, n: nat)
    requires n <= |tx.calls|
    ensures RecordTransfers(s, tx, n) == s.(receipts := RecordTransfers(s, tx, n).receipts)
  {
    hide RecordCoins;
    if n > 0 {
      TransfersFrame(s, tx, n - 1);
      var m := tx.calls[n - 1].msg;
      if m.Send? { CoinsFrame(RecordTransfers(s, tx, n - 1), tx, (n - 1) % U32, m, |m.coins|); }
    }
  }

  lemma {:induction false} TransfersRecorded(env: Env, s: State, tx: Tx, n: nat)
    requires n <= |tx.calls| < U32 && AllFine(env, tx.calls)
    ensures RecordsExactly(s.receipts, RecordTransfers(s, tx, n).receipts, tx.hash, tx.calls, n, s.height)
  {
    hide RecordCoins, CoinsValid, Recorded, CoinsExactly;
    if n > 0 {
      TransfersRecorded(env, s, tx, n - 1);
      TransfersFrame(s, tx, n - 1);
      hide RecordsExactly;
      var prev, m := RecordTransfers(s, tx, n - 1), tx.calls[n - 1].msg;
      if m.Send? {
        assert Closure.SendFine(env, tx.calls[n - 1].msg);
        CoinsRecorded(env, prev, tx, n - 1, m, |m.coins|);
        OneMessageMore(s.receipts, prev.receipts, RecordTransfers(s, tx, n).receipts, tx.hash, tx.calls, n - 1, s.height);
      } else {
        NoCoinsMore(s.receipts, prev.receipts, tx.hash, tx.calls, n - 1, s.height);
      }
    }
  }

  lemma NoCoinsMore(a: map<TransferId, OriginalTransfer>, b: map<TransferId, OriginalTransfer>, hash: Bytes, calls: seq<Call>, n: int, height: Height)
    requires |calls| < U32 && 0 <= n < |calls| && !calls[n].msg.Send? && RecordsExactly(a, b, hash, calls, n, height)
    ensures RecordsExactly(a, b, hash, calls, n + 1, height)
  {
    hide Recorded;
    forall i, k | IsCoin(calls, i, k) && i < n + 1 ensures i < n {}
  }

  lemma OneMessageMore(a: map<TransferId, OriginalTransfer>, b: map<TransferId, OriginalTransfer>, c: map<TransferId, OriginalTransfer>,
                       hash: Bytes, calls: seq<Call>, n: int, height: Height)
    requires |calls| < U32 && 0 <= n < |calls| && calls[n].msg.Send? && RecordsExactly(a, b, hash, calls, n, height)
    requires CoinsExactly(b, c, hash, n, calls[n].msg, |calls[n].msg.coins|, height)
    ensures RecordsExactly(a, c, hash, calls, n + 1, height)
  {
    hide Records;
    forall i, k | IsCoin(calls, i, k) && i < n + 1 ensures Recorded(c, hash, i, calls[i].msg, k, height) {
      if i < n {
        var id := TransferId(hash, i, calls[i].msg.coins[k].denom);
        assert Recorded(b, hash, i, calls[i].msg, k, height);
        assert id in c && c[id] == b[id];
      }
    }
    forall id | id in c && (id !in a || c[id] != a[id])
      ensures exists i, k :: IsCoin(calls, i, k) && i < n + 1 && id == TransferId(hash, i, calls[i].msg.coins[k].denom)
    {
      if id !in b || c[id] != b[id] {
        var k :| 0 <= k < |calls[n].msg.coins| && id == TransferId(hash, n, calls[n].msg.coins[k].denom);
        assert IsCoin(calls, n, k);
      } else {
        var i, k :| IsCoin(calls, i, k) && i < n && id == TransferId(hash, i, calls[i].msg.coins[k].denom);
        assert i < n + 1;
      }
    }
  }

  // ---- payments of one transaction

  /** The ordinary moves, in order. */
  function OrdinaryOf(moves: seq<Move>): seq<Move>
  {
    if moves == [] then []
    else OrdinaryOf(moves[..|moves| - 1]) + if moves[|moves| - 1].cause.Ordinary? then [moves[|moves| - 1]] else []
  }

  /** The payments that the sends of the list ask for, coin by coin. */
  ghost function PaymentsOf(env: Env, calls: seq<Call>): seq<Move>
    requires AllFine(env, calls)
  {
    if calls == [] then []
    else
      var init, m := calls[..|calls| - 1], calls[|calls| - 1].msg;
      assert forall i :: 0 <= i < |init| ==> init[i] == calls[i];
      assert Closure.SendFine(env, calls[|calls| - 1].msg);
      PaymentsOf(env, init) + if m.Send? then CoinPayments(env.account(m.from), env.account(m.to), m.coins) else []
  }

  ghost function CoinPayments(from: string, to: string, coins: seq<Coin>): (r: seq<Move>)
    requires forall i :: 0 <= i < |coins| ==> coins[i].amount >= 0
    ensures |r| == |coins|
  {
    seq(|coins|, i requires 0 <= i < |coins| => Move(from, to, coins[i].denom, coins[i].amount, Ordinary))
  }

  lemma {:induction false} OrdinaryAppend(a: seq<Move>, b: seq<Move>)
    ensures OrdinaryOf(a + b) == OrdinaryOf(a) + OrdinaryOf(b)
  {
    if b == [] {
      assert a + b == a;
    } else {
      OrdinaryAppend(a, b[..|b| - 1]);
      assert (a + b)[..|a + b| - 1] == a + b[..|b| - 1];
    }
  }

  lemma {:induction false} AllOrdinary(moves: seq<Move>)
    requires forall i :: 0 <= i < |moves| ==> moves[i].cause.Ordinary?
    ensures OrdinaryOf(moves) == moves
  {
    if moves != [] {
      AllOrdinary(moves[..|moves| - 1]);
      assert moves == moves[..|moves| - 1] + [moves[|moves| - 1]];
    }
  }

  lemma {:induction false} SendMoves(s: State, from: string, to: string, coins: seq<Coin>)
    requires Payable(s, from, coins)
    ensures SendCoins(s, from, to, coins).moves == s.moves + CoinPayments(from, to, coins)
  {
    hide Balance;
    if coins != [] {
      var init, c := coins[..|coins| - 1], coins[|coins| - 1];
      SendMoves(s, from, to, init);
      assert CoinPayments(from, to, coins) == CoinPayments(from, to, init) + [Move(from, to, c.denom, c.amount, Ordinary)];
    }
  }

  /** The moves that a state adds to an earlier one. */
  ghost predicate Adds(s: State, s': State, more: seq<Move>) { s'.moves == s.moves + more }

  lemma SendAdds(env: Env, s: State, m: Msg, bankOk: bool)
    requires m.Send? && BankSendError(env, s, m, bankOk).None?
    ensures CoinsValid(env, m.coins) && Adds(s, SendEffect(env, s, m, bankOk), CoinPayments(env.account(m.from), env.account(m.to), m.coins))
  {
    ValidPayable(env, s, m, bankOk);
    SendMoves(s, env.account(m.from), env.account(m.to), m.coins);
    hide SendCoins, Balance;
  }

  /** What one accepted message adds: a send its payments, a settlement its one settling move, any other nothing. */
  lemma MessageAdds(env: Env, s: State, m: Msg, bankOk: bool) returns (more: seq<Move>)
    requires Keyed(s) && HandleError(env, s, m, bankOk).None?
    ensures Closure.SendFine(env, m) && Adds(s, HandleEffect(env, s, m, bankOk), more)
    ensures m.Send? ==> more == CoinPayments(env.account(m.from), env.account(m.to), m.coins)
    ensures !m.Send? ==> forall i :: 0 <= i < |more| ==> more[i].cause.Settling?
  {
    Closure.SendFacts(env, s, m, bankOk);
    KeyedParts(s);
    hide Keyed, ExecuteError, BankSendError, CoinsValid;
    if m.Send? {
      SendAdds(env, s, m, bankOk);
      hide SendEffect;
      more := CoinPayments(env.account(m.from), env.account(m.to), m.coins);
    } else if m.Execute? {
      ExecuteFacts(env, s, m, bankOk);
      var c := s.cases[m.caseId];
      ExecuteMoney(env, s, c, ExecutionOf(env, s, c, m.executor, m.resultMessage));
      hide ExecuteEffect, ExecutionOf, UnsettledError;
      if Monetary(c.action) {
        SettleMoney(env, s, c);
        hide SettleEffect, Settleable;
        more := [SettlementMove(env, s.reports[c.reportIds[0]], c.caseId, c.action)];
      } else {
        more := [];
      }
    } else {
      OtherMoney(env, s, m, bankOk);
      hide HandleEffect, HandleError;
      more := [];
    }
  }

  lemma {:induction false} NoneOrdinary(moves: seq<Move>)
    requires forall i :: 0 <= i < |moves| ==> moves[i].cause.Settling?
    ensures OrdinaryOf(moves) == []
  {
    if moves != [] { NoneOrdinary(moves[..|moves| - 1]); }
  }

  lemma AddsTwice(s: State, s1: State, s2: State, a: seq<Move>, b: seq<Move>)
    requires Adds(s, s1, a) && Adds(s1, s2, b)
    ensures Adds(s, s2, a + b)
  {
  }

  lemma OneCallMore(env: Env, calls: seq<Call>, before: seq<Move>, added: seq<Move>)
    requires calls != [] && AllFine(env, calls[..|calls| - 1]) && OrdinaryOf(before) == PaymentsOf(env, calls[..|calls| - 1])
    requires var m := calls[|calls| - 1].msg;
      && Closure.SendFine(env, m)
      && (m.Send? ==> added == CoinPayments(env.account(m.from), env.account(m.to), m.coins))
      && (!m.Send? ==> forall i :: 0 <= i < |added| ==> added[i].cause.Settling?)
    ensures AllFine(env, calls) && OrdinaryOf(before + added) == PaymentsOf(env, calls)
  {
    hide OrdinaryOf, CoinsValid, PaymentsOf, Closure.SendFine;
    FineMore(env, calls);
    PaymentsMore(env, calls);
    OrdinaryAppend(before, added);
    if calls[|calls| - 1].msg.Send? { AllOrdinary(added); } else { NoneOrdinary(added); }
  }

  lemma FineMore(env: Env, calls: seq<Call>)
    requires calls != [] && AllFine(env, calls[..|calls| - 1]) && Closure.SendFine(env, calls[|calls| - 1].msg)
    ensures AllFine(env, calls)
  {
    hide Closure.SendFine;
    forall i | 0 <= i < |calls| ensures Closure.SendFine(env, calls[i].msg) {
      if i < |calls| - 1 { assert calls[..|calls| - 1][i] == calls[i]; }
    }
  }

  lemma PaymentsMore(env: Env, calls: seq<Call>)
    requires calls != [] && AllFine(env, calls)
    ensures AllFine(env, calls[..|calls| - 1]) && Closure.SendFine(env, calls[|calls| - 1].msg)
    ensures var m := calls[|calls| - 1].msg;
      && (m.Send? ==> PaymentsOf(env, calls)
                      == PaymentsOf(env, calls[..|calls| - 1]) + CoinPayments(env.account(m.from), env.account(m.to), m.coins))
      && (!m.Send? ==> PaymentsOf(env, calls) == PaymentsOf(env, calls[..|calls| - 1]))
  {
    hide CoinPayments;
    assert Closure.SendFine(env, calls[|calls| - 1].msg);
  }

  /** The messages of a transaction make exactly the payments that its sends ask for, in order. */
  lemma {:induction false} CallsAdd(env: Env, s: State, calls: seq<Call>) returns (more: seq<Move>)
    requires Keyed(s) && RunCalls(env, s, calls).Some?
    ensures AllFine(env, calls) && Adds(s, RunCalls(env, s, calls).value, more) && OrdinaryOf(more) == PaymentsOf(env, calls)
  {
    hide HandleEffect, HandleError, Keyed, Extends, Closure.SendFine, CoinPayments;
    if calls == [] {
      more := [];
    } else {
      var init, call := calls[..|calls| - 1], calls[|calls| - 1];
      var before := CallsAdd(env, s, init);
      RunCallsSound(env, s, init);
      var s1 := RunCalls(env, s, init).value;
      var added := MessageAdds(env, s1, call.msg, call.bankOk);
      more := before + added;
      OneCallMore(env, calls, before, added);
      hide OrdinaryOf, PaymentsOf, AllFine, Adds;
      AddsTwice(s, s1, RunCalls(env, s, calls).value, before, added);
    }
  }

  /** The payment behind a receipt: ordinary, between the accounts of its parties, of its denomination and amount. */
  ghost predicate Pays(env: Env, m: Move, t: OriginalTransfer)
  {
    && m.cause.Ordinary? && m.from == env.account(t.sender) && m.to == env.account(t.recipient) && m.denom == t.denom
    && m.amount > 0 && t.amount == Decimal.Format(m.amount)
  }

  /**
   * An accepted transaction: every coin of every send has its receipt, under the hash of the transaction and the index of
   * its message, with its parties, denomination, amount and the height of the block; no other receipt appears or changes.
   * Its ordinary moves are exactly the payments that its sends ask for.
   */
  lemma ReceiptsExact(env: Env, s: State, tx: Tx)
    requires Keyed(s) && StepOk(env, s, DeliverTx(tx)) && AnteError(s, tx).None? && RunCalls(env, s, tx.calls).Some?
    ensures RecordsExactly(s.receipts, Deliver(env, s, tx).receipts, tx.hash, tx.calls, |tx.calls|, s.height)
    ensures AllFine(env, tx.calls) && s.moves <= Deliver(env, s, tx).moves
    ensures OrdinaryOf(Deliver(env, s, tx).moves[|s.moves|..]) == PaymentsOf(env, tx.calls)
  {
    hide RunCalls, AnteError, Keyed, Extends, RecordsExactly;
    var s1 := RunCalls(env, s, tx.calls).value;
    RunCallsSound(env, s, tx.calls);
    var more := CallsAdd(env, s, tx.calls);
    TransfersRecorded(env, s1, tx, |tx.calls|);
    TransfersFrame(s1, tx, |tx.calls|);
    hide RecordTransfers;
    assert Deliver(env, s, tx).moves[|s.moves|..] == more;
  }

  /** A transaction that is refused records nothing. */
  lemma RefusedRecordsNothing(env: Env, s: State, tx: Tx)
    requires AnteError(s, tx).Some? || RunCalls(env, s, tx.calls).None?
    ensures Deliver(env, s, tx).receipts == s.receipts
  {
    hide RunCalls, AnteError, RecordTransfers;
  }

  lemma {:induction false} OrdinaryIn(moves: seq<Move>, m: Move)
    requires m in OrdinaryOf(moves)
    ensures m in moves
  {
    if moves != [] {
      var init := moves[..|moves| - 1];
      assert moves == init + [moves[|moves| - 1]];
      if m in OrdinaryOf(init) { OrdinaryIn(init, m); }
    }
  }

  lemma {:induction false} PaymentIn(env: Env, calls: seq<Call>, i: int, k: int)
    requires AllFine(env, calls) && IsCoin(calls, i, k)
    ensures var m := calls[i].msg;
      && m.coins[k].amount >= 0
      && Move(env.account(m.from), env.account(m.to), m.coins[k].denom, m.coins[k].amount, Ordinary) in PaymentsOf(env, calls)
  {
    assert Closure.SendFine(env, calls[i].msg);
    hide CoinsValid;
    var init, last := calls[..|calls| - 1], calls[|calls| - 1].msg;
    assert forall j :: 0 <= j < |init| ==> init[j] == calls[j];
    if i < |init| {
      PaymentIn(env, init, i, k);
    } else {
      assert last.coins[k].amount >= 0 by { ValidAmount(env, last.coins, k); }
      var r := CoinPayments(env.account(last.from), env.account(last.to), last.coins);
      assert r[k] in r;
    }
  }

  lemma ValidAmount(env: Env, coins: seq<Coin>, k: int)
    requires CoinsValid(env, coins) && 0 <= k < |coins|
    ensures coins[k].amount > 0
  {
  }

  // ---- every receipt was paid, and every settlement reverses a payment

  ghost predicate PaidBefore(env: Env, moves: seq<Move>, n: int, t: OriginalTransfer)
  {
    exists i :: 0 <= i < n && i < |moves| && Pays(env, moves[i], t)
  }

  ghost predicate AllPaid(env: Env, receipts: map<TransferId, OriginalTransfer>, moves: seq<Move>)
  {
    forall id :: id in receipts ==> PaidBefore(env, moves, |moves|, receipts[id])
  }

  /** Reading back the decimal text of a positive amount gives the amount. */
  ghost predicate IntLaw(env: Env)
  {
    forall n: nat :: n > 0 ==> env.parseInt(Decimal.Format(n)) == Some(n)
  }

  /** Any parser that reads digit strings by place value obeys the law. */
  lemma IntLawOfDecimals(env: Env)
    requires forall s: string :: s != "" && Decimal.AllDigits(s) ==> env.parseInt(s) == Some(Decimal.Value(s))
    ensures IntLaw(env)
  {
    forall n: nat | n > 0 ensures env.parseInt(Decimal.Format(n)) == Some(n) {
      assert Decimal.Value(Decimal.Format(n)) == n;
      hide Decimal.Format, Decimal.Value;
    }
  }

  /** The j-th move gives back an earlier payment: the same coin from its recipient, to its sender on a revert. */
  ghost predicate Reverses(env: Env, moves: seq<Move>, settlements: Settlements, j: int)
    requires 0 <= j < |moves|
  {
    && moves[j].cause.Settling? && moves[j].cause.id in settlements
    && exists i :: 0 <= i < j && moves[i].cause.Ordinary?
         && moves[i].to == moves[j].from && moves[i].denom == moves[j].denom && moves[i].amount == moves[j].amount
         && (settlements[moves[j].cause.id].action == RevertTransfer ==> moves[i].from == moves[j].to)
         && (settlements[moves[j].cause.id].action != RevertTransfer ==> moves[j].to == env.moduleAccount)
  }

  ghost predicate AllReverse(env: Env, s: State, from: nat)
  {
    forall j :: from <= j < |s.moves| && s.moves[j].cause.Settling? ==> Reverses(env, s.moves, s.settlements, j)
  }

  ghost predicate MoneyOk(env: Env, s: State, from: nat)
  {
    from <= |s.moves| && AllPaid(env, s.receipts, s.moves) && AllReverse(env, s, from)
  }

  lemma PaidMore(env: Env, receipts: map<TransferId, OriginalTransfer>, moves: seq<Move>, more: seq<Move>)
    requires AllPaid(env, receipts, moves)
    ensures AllPaid(env, receipts, moves + more)
  {
    hide Pays;
    forall id | id in receipts ensures PaidBefore(env, moves + more, |moves + more|, receipts[id]) {
      assert PaidBefore(env, moves, |moves|, receipts[id]);
      var i :| 0 <= i < |moves| && Pays(env, moves[i], receipts[id]);
      assert (moves + more)[i] == moves[i];
    }
  }

  lemma ReversesMore(env: Env, moves: seq<Move>, more: seq<Move>, t: Settlements, t': Settlements, j: int)
    requires 0 <= j < |moves| && Reverses(env, moves, t, j) && Grows(t, t')
    ensures Reverses(env, moves + more, t', j)
  {
    var i :| 0 <= i < j && moves[i].cause.Ordinary?
         && moves[i].to == moves[j].from && moves[i].denom == moves[j].denom && moves[i].amount == moves[j].amount
         && (t[moves[j].cause.id].action == RevertTransfer ==> moves[i].from == moves[j].to)
         && (t[moves[j].cause.id].action != RevertTransfer ==> moves[j].to == env.moduleAccount);
    assert (moves + more)[i] == moves[i] && (moves + more)[j] == moves[j];
  }

  /** Adding moves that settle nothing, or one settlement of a paid receipt. */
  lemma QuietMoney(env: Env, s: State, s': State, from: nat, more: seq<Move>)
    requires MoneyOk(env, s, from) && Adds(s, s', more) && s'.receipts == s.receipts && Grows(s.settlements, s'.settlements)
    requires forall i :: 0 <= i < |more| ==> more[i].cause.Ordinary?
    ensures MoneyOk(env, s', from)
  {
    hide Reverses;
    PaidMore(env, s.receipts, s.moves, more);
    assert forall j :: |s.moves| <= j < |s'.moves| ==> s'.moves[j] == more[j - |s.moves|];
    forall j | from <= j < |s'.moves| && s'.moves[j].cause.Settling? ensures Reverses(env, s'.moves, s'.settlements, j) {
      if j < |s.moves| { ReversesMore(env, s.moves, more, s.settlements, s'.settlements, j); }
    }
  }

  lemma PaymentReversed(env: Env, s: State, s': State, r: SettlementRecord, m: Move)
    requires IntLaw(env) && AllPaid(env, s.receipts, s.moves) && Repays(env, s.receipts, r, m)
    requires Adds(s, s', [m]) && IdOf(r.transfer) in s'.settlements && s'.settlements[IdOf(r.transfer)] == r
    ensures Reverses(env, s'.moves, s'.settlements, |s.moves|)
  {
    assert PaidBefore(env, s.moves, |s.moves|, s.receipts[IdOf(r.transfer)]);
    var i :| 0 <= i < |s.moves| && Pays(env, s.moves[i], r.transfer);
    assert env.parseInt(Decimal.Format(s.moves[i].amount)) == Some(s.moves[i].amount);
    hide Decimal.Format, IntLaw;
    assert s'.moves[i] == s.moves[i] && s'.moves[|s.moves|] == m;
  }

  lemma SettlingMoney(env: Env, s: State, s': State, from: nat, r: SettlementRecord, m: Move)
    requires IntLaw(env) && MoneyOk(env, s, from) && Repays(env, s.receipts, r, m) && IdOf(r.transfer) !in s.settlements
    requires Adds(s, s', [m]) && s'.settlements == s.settlements[IdOf(r.transfer) := r] && s'.receipts == s.receipts
    ensures MoneyOk(env, s', from)
  {
    PaymentReversed(env, s, s', r, m);
    PaidMore(env, s.receipts, s.moves, [m]);
    hide IntLaw, Repays, Reverses;
    forall j | from <= j < |s'.moves| && s'.moves[j].cause.Settling? ensures Reverses(env, s'.moves, s'.settlements, j) {
      if j < |s.moves| { ReversesMore(env, s.moves, [m], s.settlements, s'.settlements, j); }
    }
  }

  lemma ExecuteMoneyOk(env: Env, s: State, m: Msg, bankOk: bool, from: nat)
    requires IntLaw(env) && Keyed(s) && MoneyOk(env, s, from) && m.Execute? && HandleError(env, s, m, bankOk).None?
    ensures MoneyOk(env, HandleEffect(env, s, m, bankOk), from)
  {
    hide ExecuteError, ExecuteEffect, ExecutionOf, MoneyOk, IntLaw, UnsettledError, SettlementMove, Repays;
    KeyedParts(s);
    ExecuteFacts(env, s, m, bankOk);
    KeyedAt(s, m.caseId);
    hide Keyed;
    var c := s.cases[m.caseId];
    var s' := HandleEffect(env, s, m, bankOk);
    ExecuteMoney(env, s, c, ExecutionOf(env, s, c, m.executor, m.resultMessage));
    if Monetary(c.action) {
      var r := s.reports[c.reportIds[0]];
      var id := TransferId(r.txHash, r.messageIndex, r.denom);
      SettleMoney(env, s, c);
      SettlementRepays(env, s, c);
      hide SettleEffect, Settleable;
      SettlingMoney(env, s, s', from, SettlementRecord(s.receipts[id], c.caseId, c.action, s.height),
                    SettlementMove(env, r, c.caseId, c.action));
    } else {
      QuietMoney(env, s, s', from, []);
    }
  }

  lemma MessageMoneyOk(env: Env, s: State, m: Msg, bankOk: bool, from: nat)
    requires IntLaw(env) && Keyed(s) && MoneyOk(env, s, from) && HandleError(env, s, m, bankOk).None?
    ensures MoneyOk(env, HandleEffect(env, s, m, bankOk), from)
  {
    hide MoneyOk, IntLaw, HandleEffect, HandleError, Extends, Closure.SendFine, Keyed;
    var s' := HandleEffect(env, s, m, bankOk);
    if m.Execute? {
      ExecuteMoneyOk(env, s, m, bankOk, from);
    } else {
      HandleContext(env, s, m, bankOk);
      HandleSound(env, s, m, bankOk);
      SettlementsGrow(s, s');
      var more := MessageAdds(env, s, m, bankOk);
      if m.Send? {
        QuietMoney(env, s, s', from, more);
      } else {
        OtherMoney(env, s, m, bankOk);
        QuietMoney(env, s, s', from, []);
      }
    }
  }

  lemma SettlementsGrow(s: State, s': State)
    requires Sound(s, s')
    ensures Grows(s.settlements, s'.settlements)
  {
    hide Keyed;
  }

  lemma {:induction false} CallsMoneyOk(env: Env, s: State, calls: seq<Call>, from: nat)
    requires IntLaw(env) && Keyed(s) && MoneyOk(env, s, from) && RunCalls(env, s, calls).Some?
    ensures MoneyOk(env, RunCalls(env, s, calls).value, from)
  {
    hide MoneyOk, IntLaw, HandleEffect, HandleError, Keyed, Extends;
    if calls != [] {
      var init, call := calls[..|calls| - 1], calls[|calls| - 1];
      CallsMoneyOk(env, s, init, from);
      RunCallsSound(env, s, init);
      MessageMoneyOk(env, RunCalls(env, s, init).value, call.msg, call.bankOk, from);
    }
  }

  /** Each new receipt of an accepted transaction was paid in it. */
  lemma NewReceiptsPaid(env: Env, s: State, tx: Tx)
    requires Keyed(s) && StepOk(env, s, DeliverTx(tx)) && AnteError(s, tx).None? && RunCalls(env, s, tx.calls).Some?
    requires AllPaid(env, s.receipts, RunCalls(env, s, tx.calls).value.moves)
    ensures AllPaid(env, Deliver(env, s, tx).receipts, Deliver(env, s, tx).moves)
    ensures Deliver(env, s, tx).moves == RunCalls(env, s, tx.calls).value.moves
  {
    var s' := Deliver(env, s, tx);
    ReceiptsExact(env, s, tx);
    assert s'.moves == RunCalls(env, s, tx.calls).value.moves by {
      RunCallsSound(env, s, tx.calls);
      TransfersFrame(RunCalls(env, s, tx.calls).value, tx, |tx.calls|);
    }
    hide RunCalls, AnteError, Keyed, Deliver, Closure.SendFine, StepOk, Pays;
    forall id | id in s'.receipts ensures PaidBefore(env, s'.moves, |s'.moves|, s'.receipts[id]) {
      if id in s.receipts && s'.receipts[id] == s.receipts[id] {
        assert PaidBefore(env, s'.moves, |s'.moves|, s.receipts[id]);
      } else {
        var i, k :| IsCoin(tx.calls, i, k) && i < |tx.calls| && id == TransferId(tx.hash, i, tx.calls[i].msg.coins[k].denom);
        assert Recorded(s'.receipts, tx.hash, i, tx.calls[i].msg, k, s.height);
        PaidByOwnMove(env, s, s', tx, i, k, id);
      }
    }
  }

  lemma PaidByOwnMove(env: Env, s: State, s': State, tx: Tx, i: int, k: int, id: TransferId)
    requires |tx.calls| < U32 && IsCoin(tx.calls, i, k) && AllFine(env, tx.calls)
    requires s.moves <= s'.moves && OrdinaryOf(s'.moves[|s.moves|..]) == PaymentsOf(env, tx.calls)
    requires id in s'.receipts && Records(s'.receipts[id], tx.hash, i, tx.calls[i].msg, k, s.height)
    ensures PaidBefore(env, s'.moves, |s'.moves|, s'.receipts[id])
  {
    PaymentIn(env, tx.calls, i, k);
    var m := tx.calls[i].msg;
    var move := Move(env.account(m.from), env.account(m.to), m.coins[k].denom, m.coins[k].amount, Ordinary);
    OrdinaryIn(s'.moves[|s.moves|..], move);
    var j :| 0 <= j < |s'.moves[|s.moves|..]| && s'.moves[|s.moves|..][j] == move;
    assert s'.moves[|s.moves| + j] == move;
    assert Pays(env, move, s'.receipts[id]);
  }

  lemma DeliverMoneyOk(env: Env, s: State, tx: Tx, from: nat)
    requires IntLaw(env) && Keyed(s) && MoneyOk(env, s, from) && StepOk(env, s, DeliverTx(tx))
    ensures MoneyOk(env, Deliver(env, s, tx), from)
  {
    hide RunCalls, AnteError, Keyed, Extends, RecordTransfers, IntLaw, AllPaid, Reverses;
    if AnteError(s, tx).None? && RunCalls(env, s, tx.calls).Some? {
      var s1 := RunCalls(env, s, tx.calls).value;
      CallsMoneyOk(env, s, tx.calls, from);
      RunCallsSound(env, s, tx.calls);
      NewReceiptsPaid(env, s, tx);
      KeyedParts(s1);
      RecordTransfersOnly(s1, tx, |tx.calls|);
    }
  }

  lemma SameMoneyOk(env: Env, s: State, s': State, from: nat)
    requires MoneyOk(env, s, from) && s'.moves == s.moves && s'.receipts == s.receipts && s'.settlements == s.settlements
    ensures MoneyOk(env, s', from)
  {
    hide AllPaid, Reverses;
  }

  lemma StepMoneyOk(env: Env, s: State, step: Step, from: nat)
    requires IntLaw(env) && Keyed(s) && MoneyOk(env, s, from) && StepOk(env, s, step)
    ensures MoneyOk(env, Apply(env, s, step), from)
  {
    hide MoneyOk, IntLaw, Deliver, RegistrySync.RefreshAll, RegistrySync.CreateAll, Keyed;
    match step {
      case DeliverTx(tx) => DeliverMoneyOk(env, s, tx, from);
      case EndBlock(states) =>
        RefreshMoney(RegistrySync.Synced(s, 0, 0), RegistrySync.AllAgents(s.agents), states);
        CreateMoney(RegistrySync.Refreshed(s, states), states);
        Closure.SyncOnlyAgents(s, states);
        SameMoneyOk(env, s, RegistrySync.Sync(s, states).state, from);
      case NextHeight(h) => SameMoneyOk(env, s, s.(height := h), from);
    }
  }

  /**
   * Over every run that starts without receipts: every receipt was paid by an ordinary move between the accounts of its
   * parties, and every settlement gives back such a payment, made earlier, of the same coin and amount.
   */
  lemma {:induction false} SettlementsReversePayments(env: Env, s0: State, steps: seq<Step>)
    requires IntLaw(env) && Keyed(s0) && RunOk(env, s0, steps) && s0.receipts == map[]
    ensures MoneyOk(env, Run(env, s0, steps), |s0.moves|)
  {
    hide Apply, Keyed, Extends, IntLaw, Reverses;
    if steps != [] {
      hide MoneyOk;
      var init := steps[..|steps| - 1];
      SettlementsReversePayments(env, s0, init);
      RunSound(env, s0, init);
      StepMoneyOk(env, Run(env, s0, init), steps[|steps| - 1], |s0.moves|);
    }
  }
}
