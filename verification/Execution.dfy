/** x/sanction/keeper/execution.go and recovery.go, on the keeper's store. */
module Execution {
  import opened Basics
  import opened Types
  import opened Store
  import opened Handlers
  import opened KeeperStore
  import Decimal
  import SignBytes

  /** The send restriction: frozen parties may not send or receive, except inside their own settlement. */
  method SendCoinsAllowed(k: Keeper, from: string, to: string, scope: Option<(string, string)>) returns (err: Option<Error>)
    ensures err == SendError(k.store, from, to, scope)
  {
    if scope.Some? && scope.value.0 == from && scope.value.1 == to { return None; }
    if from in k.store.freezes { return Some(AddressAlreadyFrozen); }
    if to in k.store.freezes { return Some(AddressAlreadyFrozen); }
    return None;
  }

  /** One coin through the bank, inside a settlement of exactly these endpoints. */
  method SendSettlement(k: Keeper, m: Move, bankOk: bool) returns (err: Option<Error>)
    modifies k
    ensures err == if !bankOk || Balance(old(k.store), m.from, m.denom) < m.amount then Some(BankRefused) else None
    ensures err.Some? ==> k.store == old(k.store)
    ensures err.None? ==> k.store == MoveCoins(old(k.store), m)
  {
    err := SendCoinsAllowed(k, m.from, m.to, Some((m.from, m.to)));
    if err.Some? { return; }
    if !bankOk || Balance(k.store, m.from, m.denom) < m.amount { return Some(BankRefused); }
    k.store := k.store.(balances := k.store.balances[(m.from, m.denom) := Balance(k.store, m.from, m.denom) - m.amount]);
    k.store := k.store.(balances := k.store.balances[(m.to, m.denom) := Balance(k.store, m.to, m.denom) + m.amount],
                        moves := k.store.moves + [m]);
  }

  method PrimaryReport(k: Keeper, c: SanctionCase) returns (err: Option<Error>, r: Option<RiskReport>)
    ensures err == PrimaryError(k.store, c)
    ensures err.None? ==> c.reportIds != [] && c.reportIds[0] in k.store.reports && r == Some(k.store.reports[c.reportIds[0]])
  {
    if |c.reportIds| == 0 || c.reportIds[0] !in k.store.reports { return Some(RiskReportNotFound), None; }
    var report := k.store.reports[c.reportIds[0]];
    if report.txHash != c.txHash || report.recipient != c.target { return Some(OriginalMismatch), None; }
    return None, Some(report);
  }

  /** validateOriginal, then the settlement lookup. */
  method UnsettledOriginal(k: Keeper, r: RiskReport) returns (err: Option<Error>, t: Option<OriginalTransfer>)
    ensures err == UnsettledError(k.store, r)
    ensures var id := TransferId(r.txHash, r.messageIndex, r.denom);
      err.None? ==> id in k.store.receipts && t == Some(k.store.receipts[id])
  {
    var id := TransferId(r.txHash, r.messageIndex, r.denom);
    if id !in k.store.receipts { return Some(OriginalMismatch), None; }
    var receipt := k.store.receipts[id];
    if receipt.height >= k.store.height || receipt.sender != r.sender || receipt.recipient != r.recipient
       || receipt.amount != r.amount || receipt.denom != r.denom || receipt.txHash != r.txHash {
      return Some(OriginalMismatch), None;
    }
    if IdOf(receipt) in k.store.settlements { return Some(AlreadySettled), None; }
    return None, Some(receipt);
  }

  method ReportCoins(k: Keeper, r: RiskReport) returns (amount: Option<nat>)
    ensures amount.Some? <==> CoinsOk(k.env, r)
    ensures amount.Some? ==> amount == k.env.parseInt(r.amount)
  {
    if r.amount == "" || r.denom == "" { return None; }
    var n := k.env.parseInt(r.amount);
    if n.None? || n.value <= 0 { return None; }
    if !k.env.validDenom(r.denom) { return None; }
    return Some(n.value);
  }

  /** What a successful settlement leaves. */
  ghost predicate Settled(env: Env, s: State, c: SanctionCase, s': State, hash: Bytes)
  {
    Settleable(env, s, c) && s' == SettleEffect(env, s, c) && hash == StateHash(env, s, c)
  }

  method ExecuteEscrow(k: Keeper, c: SanctionCase, bankOk: bool) returns (err: Option<Error>, hash: Bytes)
    requires c.action == EscrowFunds
    modifies k
    ensures err == SettleError(k.env, old(k.store), c, bankOk)
    ensures err.Some? ==> k.store == old(k.store)
    ensures err.None? ==> Settled(k.env, old(k.store), c, k.store, hash)
  {
    hash := [];
    if !k.env.hasBank { return Some(ExecutionUnsupported), hash; }
    var report: Option<RiskReport>;
    err, report := PrimaryReport(k, c);
    if err.Some? { return; }
    var r := report.value;
    var original: Option<OriginalTransfer>;
    err, original := UnsettledOriginal(k, r);
    if err.Some? { return; }
    if !k.env.isAddress(r.recipient) { return Some(BadAddress), hash; }
    var amount := ReportCoins(k, r);
    if amount.None? { return Some(BadCoin), hash; }
    var m := Move(k.env.account(r.recipient), k.env.moduleAccount, r.denom, amount.value,
                  Settling(TransferId(r.txHash, r.messageIndex, r.denom), c.caseId));
    err := SendSettlement(k, m, bankOk);
    if err.Some? { return; }
    k.store := SetSettlement(k.store, SettlementRecord(original.value, c.caseId, c.action, k.store.height));
    hash := k.env.stateHash(["escrow", c.caseId, r.recipient, Decimal.Format(amount.value) + r.denom]);
  }

  method ExecuteRevert(k: Keeper, c: SanctionCase, bankOk: bool) returns (err: Option<Error>, hash: Bytes)
    requires c.action == RevertTransfer
    modifies k
    ensures err == SettleError(k.env, old(k.store), c, bankOk)
    ensures err.Some? ==> k.store == old(k.store)
    ensures err.None? ==> Settled(k.env, old(k.store), c, k.store, hash)
  {
    hash := [];
    if !k.env.hasBank { return Some(ExecutionUnsupported), hash; }
    var report: Option<RiskReport>;
    err, report := PrimaryReport(k, c);
    if err.Some? { return; }
    var r := report.value;
    var original: Option<OriginalTransfer>;
    err, original := UnsettledOriginal(k, r);
    if err.Some? { return; }
    if !k.env.isAddress(r.sender) { return Some(BadAddress), hash; }
    if !k.env.isAddress(r.recipient) { return Some(BadAddress), hash; }
    var amount := ReportCoins(k, r);
    if amount.None? { return Some(BadCoin), hash; }
    var m := Move(k.env.account(r.recipient), k.env.account(r.sender), r.denom, amount.value,
                  Settling(TransferId(r.txHash, r.messageIndex, r.denom), c.caseId));
    err := SendSettlement(k, m, bankOk);
    if err.Some? { return; }
    k.store := SetSettlement(k.store, SettlementRecord(original.value, c.caseId, c.action, k.store.height));
    hash := k.env.stateHash(["revert", c.caseId, r.recipient, r.sender, Decimal.Format(amount.value) + r.denom]);
  }

  /** The scan over the cases of a tx for one that already replaces `previous`. */
  method ScanSuccessors(s: State, txHash: Bytes, previous: string) returns (found: bool)
    ensures found <==> HasSuccessor(s, txHash, previous)
  {
    hide SignBytes.Raw;
    var rest := set entry | entry in s.casesByTx && MetUnder(txHash, entry);
    while rest != {}
      invariant rest <= s.casesByTx && forall entry :: entry in rest ==> MetUnder(txHash, entry)
      invariant forall entry :: entry in s.casesByTx && MetUnder(txHash, entry) && entry !in rest ==>
          entry.1 !in s.cases || s.cases[entry.1].previous != previous
      decreases |rest|
    {
      var entry :| entry in rest;
      if entry.1 in s.cases && s.cases[entry.1].previous == previous { return true; }
      rest := rest - {entry};
    }
    return false;
  }

  method ExpireForReplacement(k: Keeper, previous: string, next: RiskReport, target: TargetType) returns (err: Option<Error>)
    modifies k
    ensures err == ReplacementError(old(k.store), previous, next, target)
    ensures err.Some? ==> k.store == old(k.store)
    ensures err.None? ==> previous in old(k.store).cases
                          && k.store == SetCase(old(k.store), old(k.store).cases[previous].(status := Expired))
  {
    hide HasSuccessor;
    if previous !in k.store.cases { return Some(CaseNotFound); }
    var c := k.store.cases[previous];
    if target != AddressTarget || c.targetType != target || c.target != next.recipient || c.txHash != next.txHash {
      return Some(InvalidCase);
    }
    if c.executedAt != 0 || (c.status != Pending && c.status != Approved && c.status != Expired) {
      return Some(CaseNotPending);
    }
    if previous in k.store.executions { return Some(AlreadySettled); }
    var report: Option<RiskReport>;
    err, report := PrimaryReport(k, c);
    if err.Some? { return; }
    var r := report.value;
    var height := k.store.height;
    if r.sender != next.sender || r.recipient != next.recipient || r.amount != next.amount || r.denom != next.denom
       || r.messageIndex != next.messageIndex || next.reportId == r.reportId
       || next.observed <= r.observed || next.observed > height {
      return Some(InvalidCase);
    }
    if !(r.expiry <= height || (c.status == Pending && c.deadline < height) || c.status == Expired) {
      return Some(InvalidCase);
    }
    var found := ScanSuccessors(k.store, next.txHash, previous);
    if found { return Some(DuplicateCase); }
    k.SetSanctionCase(c.(status := Expired));
  }
}
