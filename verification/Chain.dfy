/** Whole transactions, block boundaries, and runs of them. */
module Chain {
  import opened Basics
  import opened Types
  import opened Store
  import opened Handlers
  import opened RegistrySync
  import Decimal

  /** A message together with whether the bank, for reasons of its own, accepts it. */
  datatype Call = Call(msg: Msg, bankOk: bool)

  /** `signers` are the accounts whose signatures the ante handler has checked. */
  datatype Tx = Tx(hash: Bytes, memo: string, signers: seq<string>, calls: seq<Call>)

  function LeaseMemo(l: Lease): string
  {
    "g503-lease:" + Decimal.Format(l.epoch) + ":" + l.holder
  }

  /** The signer of the last claim in the list, or "". */
  function ClaimSigner(calls: seq<Call>): string
  {
    if calls == [] then ""
    else if calls[|calls| - 1].msg.ClaimLease? then calls[|calls| - 1].msg.signer
    else ClaimSigner(calls[..|calls| - 1])
  }

  predicate HasClaim(calls: seq<Call>) { exists i :: 0 <= i < |calls| && calls[i].msg.ClaimLease? }

  /** A leased signer passes with the memo of the live lease only. */
  predicate SignerPasses(s: State, tx: Tx, signer: string)
  {
    signer == ClaimSigner(tx.calls)
    || signer !in s.leases
    || (tx.memo == LeaseMemo(s.leases[signer]) && s.leases[signer].expires > s.height)
  }

  /** CheckAgentLeaseTx. */
  function AnteError(s: State, tx: Tx): Option<Error>
  {
    if HasClaim(tx.calls) && |tx.calls| != 1 then Some(BadLease)
    else if forall i :: 0 <= i < |tx.signers| ==> SignerPasses(s, tx, tx.signers[i]) then None
    else Some(LeaseFenced)
  }

  /** The messages one after another; None once one fails. */
  ghost function RunCalls(env: Env, s: State, calls: seq<Call>): Option<State>
  {
    if calls == [] then Some(s)
    else
      var prev := RunCalls(env, s, calls[..|calls| - 1]);
      var call := calls[|calls| - 1];
      if prev.None? || HandleError(env, prev.value, call.msg, call.bankOk).Some? then None
      else Some(HandleEffect(env, prev.value, call.msg, call.bankOk))
  }

  /** math.Int.String(). */
  function IntText(n: int): string
  {
    if n >= 0 then Decimal.Format(n) else "-" + Decimal.Format(-n)
  }

  function ReceiptOf(tx: Tx, index: uint32, m: Msg, k: nat, height: Height): OriginalTransfer
    requires m.Send? && k < |m.coins|
  {
    OriginalTransfer(tx.hash, index, m.from, m.to, m.coins[k].denom,
                     IntText(m.coins[k].amount), height)
  }

  /** Receipts for the first n coins of one send. */
  function RecordCoins(s: State, tx: Tx, index: uint32, m: Msg, n: nat): State
    requires m.Send? && n <= |m.coins|
  {
    if n == 0 then s
    else SetReceipt(RecordCoins(s, tx, index, m, n - 1), ReceiptOf(tx, index, m, n - 1, s.height))
  }

  /** RecordOriginalTransfers over the first n messages of a successful tx. */
  function RecordTransfers(s: State, tx: Tx, n: nat): State
    requires n <= |tx.calls|
  {
    if n == 0 then s
    else
      var prev := RecordTransfers(s, tx, n - 1);
      var m := tx.calls[n - 1].msg;
      if m.Send? then RecordCoins(prev, tx, (n - 1) % U32, m, |m.coins|) else prev
  }

  /** Ante check, messages, post-handler; a failure anywhere leaves no writes. */
  ghost function Deliver(env: Env, s: State, tx: Tx): State
  {
    if AnteError(s, tx).Some? then s
    else
      var r := RunCalls(env, s, tx.calls);
      if r.None? then s else RecordTransfers(r.value, tx, |tx.calls|)
  }

  datatype Step =
    | DeliverTx(tx: Tx)
    | EndBlock(states: seq<ValidatorState>)
    | NextHeight(height: Height)

  /** What the consensus engine and the SDK guarantee about a step. */
  ghost predicate StepOk(env: Env, s: State, step: Step)
  {
    match step
    case DeliverTx(tx) =>
      && |tx.hash| == 32 && |tx.calls| < U32
      && (forall id :: id in s.receipts ==> id.txHash != tx.hash)     // a committed hash never repeats
      && (forall i :: 0 <= i < |tx.calls| ==>
            env.isAddress(SignerOf(tx.calls[i].msg)) && env.account(SignerOf(tx.calls[i].msg)) in tx.signers)
    case EndBlock(states) => true
    case NextHeight(h) => h > s.height
  }

  ghost function Apply(env: Env, s: State, step: Step): State
  {
    match step
    case DeliverTx(tx) => Deliver(env, s, tx)
    case EndBlock(states) => Sync(s, states).state
    case NextHeight(h) => s.(height := h)
  }

  ghost function Run(env: Env, s: State, steps: seq<Step>): State
  {
    if steps == [] then s
    else Apply(env, Run(env, s, steps[..|steps| - 1]), steps[|steps| - 1])
  }

  ghost predicate RunOk(env: Env, s: State, steps: seq<Step>)
  {
    steps != [] ==>
      && RunOk(env, s, steps[..|steps| - 1])
      && StepOk(env, Run(env, s, steps[..|steps| - 1]), steps[|steps| - 1])
  }

  /** A fresh chain: nothing has been decided yet. Agents, leases, reports and receipts may exist. */
  ghost predicate Fresh(s: State)
  {
    && s.height >= 1
    && s.cases == map[] && s.votes == map[] && s.activeTxs == map[] && s.freezes == map[]
    && s.executions == map[] && s.casesByTx == {} && s.casesByAddress == {}
  }
}
