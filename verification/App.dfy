/** The bank message, the ante check, the post-handler, and whole transactions, on the keeper's store. */
module App {
  import opened Basics
  import opened Types
  import opened Store
  import opened Handlers
  import opened Frames
  import opened Chain
  import opened KeeperStore
  import Execution
  import MsgServer
  import Strings
  import Decimal

  // ---- the bank message

  method CheckCoins(env: Env, coins: seq<Coin>) returns (ok: bool)
    ensures ok <==> CoinsValid(env, coins)
  {
    if |coins| == 0 { return false; }
    for i := 0 to |coins|
      invariant i > 0 ==> CoinsValid(env, coins[..i])
    {
      var c := coins[i];
      if !(0 < c.amount < MAX_INT) || !env.validDenom(c.denom) { return false; }
      if i > 0 && !Strings.Less(coins[i - 1].denom, c.denom) { return false; }
      forall j | 0 <= j < i ensures Strings.Less(coins[j].denom, c.denom) {
        if j < i - 1 {
          assert Strings.Less(coins[..i][j].denom, coins[..i][i - 1].denom);
          Strings.LessTransitive(coins[j].denom, coins[i - 1].denom, c.denom);
        }
      }
    }
    assert coins[..|coins|] == coins;
    return true;
  }

  method CanPay(s: State, from: string, coins: seq<Coin>) returns (ok: bool)
    ensures ok <==> forall c :: c in coins ==> Balance(s, from, c.denom) >= c.amount
  {
    for i := 0 to |coins|
      invariant forall c :: c in coins[..i] ==> Balance(s, from, c.denom) >= c.amount
    {
      if Balance(s, from, coins[i].denom) < coins[i].amount {
        assert coins[i] in coins;
        return false;
      }
      assert coins[..i + 1] == coins[..i] + [coins[i]];
    }
    assert coins[..|coins|] == coins;
    return true;
  }

  lemma PayablePrefix(s: State, from: string, coins: seq<Coin>, n: nat)
    requires Payable(s, from, coins) && n <= |coins|
    ensures Payable(s, from, coins[..n])
  {
    hide Balance;
  }

  method BankSend(k: Keeper, m: Msg, bankOk: bool) returns (err: Option<Error>)
    requires m.Send?
    modifies k
    ensures err == BankSendError(k.env, old(k.store), m, bankOk)
    ensures err.Some? ==> k.store == old(k.store)
    ensures err.None? ==> k.store == SendEffect(k.env, old(k.store), m, bankOk)
  {
    hide CoinsValid;
    if !k.env.isAddress(m.from) || !k.env.isAddress(m.to) { return Some(BadAddress); }
    var valid := CheckCoins(k.env, m.coins);
    if !valid { return Some(BadCoin); }
    var from, to := k.env.account(m.from), k.env.account(m.to);
    err := Execution.SendCoinsAllowed(k, from, to, None);
    if err.Some? { return; }
    var enough := CanPay(k.store, from, m.coins);
    if !bankOk || !enough { return Some(BankRefused); }
    ValidPayable(k.env, k.store, m, bankOk);
    hide BankSendError;
    PayAll(k, from, to, m.coins);
    return None;
  }

  method PayAll(k: Keeper, from: string, to: string, coins: seq<Coin>)
    requires Payable(k.store, from, coins)
    modifies k
    ensures k.store == SendCoins(old(k.store), from, to, coins)
  {
    hide Balance;
    ghost var s0 := k.store;
    for i := 0 to |coins|
      invariant Payable(s0, from, coins[..i])
      invariant k.store == SendCoins(s0, from, to, coins[..i])
    {
      PayablePrefix(s0, from, coins, i + 1);
      assert coins[..i + 1][..i] == coins[..i];
      assert forall j :: 0 <= j < i ==> coins[..i][j].denom != coins[i].denom;
      k.store := MoveCoins(k.store, CoinMove(from, to, coins[i]));
    }
    assert coins[..|coins|] == coins;
  }

  // ---- one message

  method Handle(k: Keeper, call: Call) returns (err: Option<Error>)
    requires Keyed(k.store)
    modifies k
    ensures err == HandleError(k.env, old(k.store), call.msg, call.bankOk)
    ensures err.None? ==> k.store == HandleEffect(k.env, old(k.store), call.msg, call.bankOk)
  {
    hide RegisterAgentError, SubmitReportError, OpenCaseError, VoteError, ExecuteError, RevokeError, ReviewError;
    hide UpdateParamsError, ClaimError, BankSendError, Keyed;
    hide ExecuteEffect, OpenEffect, VoteEffect, RevokeEffect, ReviewEffect, ClaimEffect, SetAgent, SetReport, SendEffect;
    var m := call.msg;
    match m {
      case RegisterAgent(_, _) => err := MsgServer.RegisterAgent(k, m);
      case SubmitReport(_, _) => err := MsgServer.SubmitRiskReport(k, m);
      case OpenCase(_, _, _, _, _, _, _, _, _) => err := MsgServer.OpenSanctionCase(k, m);
      case SubmitVote(_, _) =>
        var approved, rejected;
        err, approved, rejected := MsgServer.SubmitSanctionVote(k, m);
      case Execute(_, _, _) => err := MsgServer.ExecuteSanction(k, m, call.bankOk);
      case Revoke(_, _, _) => err := MsgServer.RevokeSanction(k, m);
      case Review(_, _, _, _) => err := MsgServer.ReviewSanction(k, m);
      case UpdateParams(_, _) => err := MsgServer.UpdateParams(k, m);
      case ClaimLease(_, _, _, _, _) => err := MsgServer.ClaimAgentLease(k, m);
      case Send(_, _, _) => err := BankSend(k, m, call.bankOk);
    }
  }

  // ---- the ante check

  method CheckAgentLeaseTx(k: Keeper, tx: Tx) returns (err: Option<Error>)
    ensures err == AnteError(k.store, tx)
  {
    var claimSigner := "";
    for i := 0 to |tx.calls|
      invariant claimSigner == ClaimSigner(tx.calls[..i])
      invariant HasClaim(tx.calls[..i]) ==> |tx.calls| == 1
    {
      assert tx.calls[..i + 1][..i] == tx.calls[..i];
      var m := tx.calls[i].msg;
      if m.ClaimLease? {
        if |tx.calls| != 1 {
          assert HasClaim(tx.calls);
          return Some(BadLease);
        }
        claimSigner := m.signer;
      }
    }
    assert tx.calls[..|tx.calls|] == tx.calls;
    hide ClaimSigner, HasClaim, LeaseMemo;
    for i := 0 to |tx.signers|
      invariant forall j :: 0 <= j < i ==> SignerPasses(k.store, tx, tx.signers[j])
    {
      var address := tx.signers[i];
      if address == claimSigner { continue; }
      if address !in k.store.leases { continue; }
      var lease := k.store.leases[address];
      if tx.memo != LeaseMemo(lease) || lease.expires <= k.store.height {
        assert !SignerPasses(k.store, tx, tx.signers[i]);
        return Some(LeaseFenced);
      }
    }
    return None;
  }

  // ---- the post-handler

  method RecordOriginalTransfers(k: Keeper, tx: Tx)
    modifies k
    ensures k.store == RecordTransfers(old(k.store), tx, |tx.calls|)
  {
    for index := 0 to |tx.calls|
      invariant k.store == RecordTransfers(old(k.store), tx, index)
    {
      var m := tx.calls[index].msg;
      if !m.Send? { continue; }
      ghost var before := k.store;
      for i := 0 to |m.coins|
        invariant k.store == RecordCoins(before, tx, index % U32, m, i) && k.store.height == before.height
      {
        var coin := m.coins[i];
        k.store := SetReceipt(k.store, OriginalTransfer(tx.hash, index % U32, m.from, m.to, coin.denom, IntText(coin.amount), k.store.height));
      }
    }
  }

  /** A transaction in its own cache: ante check, messages, post-handler; any failure drops every write. */
  method DeliverTransaction(k: Keeper, tx: Tx) returns (ok: bool)
    requires Keyed(k.store)
    modifies k
    ensures k.store == Deliver(k.env, old(k.store), tx)
    ensures ok <==> AnteError(old(k.store), tx).None? && RunCalls(k.env, old(k.store), tx.calls).Some?
  {
    hide Keyed, HandleError, HandleEffect, AnteError, Extends;
    ghost var s0 := k.store;
    var cached := k.store;
    var err := CheckAgentLeaseTx(k, tx);
    if err.Some? { return false; }
    for i := 0 to |tx.calls|
      invariant RunCalls(k.env, s0, tx.calls[..i]) == Some(k.store) && Keyed(k.store)
    {
      assert tx.calls[..i + 1][..i] == tx.calls[..i];
      err := Handle(k, tx.calls[i]);
      if err.Some? {
        FailedPrefix(k.env, s0, tx.calls, i + 1);
        k.store := cached;
        return false;
      }
      RunCallsSound(k.env, s0, tx.calls[..i + 1]);
    }
    assert tx.calls[..|tx.calls|] == tx.calls;
    RecordOriginalTransfers(k, tx);
    return true;
  }
}
