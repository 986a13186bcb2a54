/** Entities of the sanction module and the checks of x/sanction/types. */
module Types {
  import opened Basics
  import opened Strings

  // Enumerations are open in protobuf: any other int32 code is kept as is.
  type OtherOption = n: int | -0x8000_0000 <= n < 0x8000_0000 && !(0 <= n <= 3) witness 4
  datatype VoteOption = NoOption | Approve | Reject | Abstain | OtherVote(code: OtherOption)

  type OtherAction = n: int | -0x8000_0000 <= n < 0x8000_0000 && !(0 <= n <= 5) witness 6
  datatype Action =
    | NoAction | Watch | BlockTx | FreezeAddress | EscrowFunds | RevertTransfer
    | UnknownAction(code: OtherAction)

  datatype TargetType = NoTarget | TxTarget | AddressTarget

  datatype Status = NoStatus | Pending | Approved | Rejected | Executed | Expired | Revoked

  datatype AgentInfo = AgentInfo(
    agentId: string, operator: string, signer: string, publicKey: Bytes,
    power: uint64, active: bool, metadata: string)

  datatype Lease = Lease(signer: string, holder: string, epoch: uint64, expires: uint64)

  datatype RiskReport = RiskReport(
    reportId: string, txHash: Bytes, messageIndex: uint32,
    sender: string, recipient: string, denom: string, amount: string,
    source: string, riskScore: uint32, categories: seq<string>,
    observed: uint64, expiry: uint64, evidenceHash: Bytes,
    submitter: string, signature: Bytes)

  datatype SanctionCase = SanctionCase(
    caseId: string, previous: string, txHash: Bytes, target: string, targetType: TargetType,
    action: Action, status: Status, reportIds: seq<string>,
    openedAt: uint64, deadline: uint64, executedAt: uint64, policyVersion: string,
    voters: seq<AgentInfo>, quorum: uint32, unanimous: bool, snapshotVersion: uint32,
    decisionHash: Bytes)

  datatype SanctionVote = SanctionVote(
    caseId: string, agentId: string, option: VoteOption, approvedAction: Action,
    reason: string, rationale: Bytes, signedHeight: uint64, signature: Bytes)

  datatype ActiveSanction = ActiveSanction(
    caseId: string, txHash: Bytes, target: string, action: Action, activatedAt: uint64)

  datatype FreezeRecord = FreezeRecord(caseId: string, address: string, frozenAt: uint64)

  datatype ExecutionRecord = ExecutionRecord(
    caseId: string, action: Action, txHash: Bytes, target: string, executor: string,
    executedAt: uint64, resultCode: string, resultMessage: string, stateHash: Bytes)

  datatype OriginalTransfer = OriginalTransfer(
    txHash: Bytes, messageIndex: uint32, sender: string, recipient: string,
    denom: string, amount: string, height: uint64)

  datatype SettlementRecord = SettlementRecord(
    transfer: OriginalTransfer, caseId: string, action: Action, executedAt: uint64)

  datatype ReviewRecord = ReviewRecord(
    caseId: string, authority: string, reason: string, evidenceHash: Bytes,
    reviewedAt: uint64, revokedAt: uint64, revokeReason: string)

  datatype Params = Params(
    watch: uint32, block: uint32, freeze: uint32, revert: uint32, quorum: uint32,
    unanimous: bool, evidenceTtl: uint64, votingPeriod: uint64,
    sources: seq<string>, highRisk: seq<string>, allowed: seq<Action>)

  /** Identity of one coin of one message of one committed tx. */
  datatype TransferId = TransferId(txHash: Bytes, messageIndex: uint32, denom: string)

  function IdOf(t: OriginalTransfer): TransferId
  {
    TransferId(t.txHash, t.messageIndex, t.denom)
  }

  function DefaultParams(): (p: Params)
    ensures ParamsValid(p)
  {
    Params(60, 80, 85, 90, 67, true, 100, 20,
           ["chainalysis-mock", "chainalysis"],
           ["sanctioned", "scam", "darknet", "money_laundering", "terrorist_financing"],
           [Watch, BlockTx, FreezeAddress, EscrowFunds, RevertTransfer])
  }

  predicate ParamsValid(p: Params)
  {
    && p.watch <= p.block <= p.freeze <= p.revert <= 100
    && 0 < p.quorum <= 100
    && p.evidenceTtl != 0 && p.votingPeriod != 0
    && p.sources != [] && p.highRisk != [] && p.allowed != []
  }

  predicate AgentValid(a: AgentInfo)
  {
    a.agentId != "" && a.signer != "" && (a.active ==> a.power != 0)
  }

  /** 64 lower-case hex digits: the shape of a lease holder. */
  predicate HolderValid(h: string)
  {
    |h| == 64 && forall i :: 0 <= i < |h| ==> '0' <= h[i] <= '9' || 'a' <= h[i] <= 'f'
  }

  /**
   * What the module calls but does not define: address and key codecs, signature
   * checks, coin text, hashes, and the keeper's own configuration.
   */
  datatype Env = Env(
    chainId: string,
    configAuthority: string,             // keeper.authority, the fallback authority
    hasBank: bool,
    moduleAccount: string,
    isAddress: string -> bool,           // AccAddressFromBech32 succeeds
    account: string -> string,           // the account an address text decodes to, as String() prints it
    ownsKey: (Bytes, string) -> bool,    // 33-byte key whose address is the signer
    verify: (Bytes, Bytes, Bytes) -> bool, // secp256k1 over (key, signature, payload)
    reportBytes: RiskReport -> Bytes,    // protobuf bytes of a report
    parseInt: string -> Option<int>,     // math.NewIntFromString
    validDenom: string -> bool,
    parseCoin: string -> Option<(int, string)>, // sdk.ParseCoinNormalized
    isBlank: string -> bool,             // strings.TrimSpace(s) == ""
    decisionHash: SanctionCase -> Bytes,
    stateHash: seq<string> -> Bytes)

  /** A voter that a stored snapshot may hold. */
  predicate VoterValid(env: Env, a: AgentInfo)
  {
    && AgentValid(a) && a.active && a.power != 0
    && a.publicKey != [] && env.isAddress(a.signer) && env.ownsKey(a.publicKey, a.signer)
  }

  /** ValidateCaseSnapshot as a statement about the whole list. */
  ghost predicate SnapshotValid(env: Env, c: SanctionCase)
  {
    && c.snapshotVersion == 1 && c.voters != [] && 0 < c.quorum <= 100
    && (forall i :: 0 <= i < |c.voters| ==> VoterValid(env, c.voters[i]))
    && (forall i, j :: 0 <= i < j < |c.voters| ==>
          Less(c.voters[i].agentId, c.voters[j].agentId) && c.voters[i].signer != c.voters[j].signer)
  }

  /** ValidateCaseSnapshot: one pass with the previous id and the signers seen so far. */
  method ValidateCaseSnapshot(env: Env, c: SanctionCase) returns (ok: bool)
    ensures ok <==> SnapshotValid(env, c)
  {
    if c.snapshotVersion != 1 || |c.voters| == 0 || c.quorum == 0 || c.quorum > 100 {
      return false;
    }
    var seen: set<string> := {};
    var previous := "";
    for k := 0 to |c.voters|
      invariant forall i :: 0 <= i < k ==> VoterValid(env, c.voters[i])
      invariant forall i, j :: 0 <= i < j < k ==>
          Less(c.voters[i].agentId, c.voters[j].agentId) && c.voters[i].signer != c.voters[j].signer
      invariant seen == set i | 0 <= i < k :: c.voters[i].signer
      invariant previous == if k == 0 then "" else c.voters[k - 1].agentId
    {
      var a := c.voters[k];
      if !AgentValid(a) || !a.active || a.power == 0 || a.publicKey == []
         || !Less(previous, a.agentId) || a.signer in seen {
        return false;
      }
      forall i | 0 <= i < k ensures Less(c.voters[i].agentId, a.agentId) {
        if i < k - 1 { LessTransitive(c.voters[i].agentId, previous, a.agentId); }
      }
      previous := a.agentId;
      seen := seen + {a.signer};
      if !env.isAddress(a.signer) || !env.ownsKey(a.publicKey, a.signer) {
        return false;
      }
    }
    return true;
  }
}
