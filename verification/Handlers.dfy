/**
 * What each message does: the first error its handler returns, in the order of the
 * checks, and the state it leaves when there is none.
 */
module Handlers {
  import opened Basics
  import opened Types
  import opened Store
  import opened Policy
  import Strings
  import Tally
  import Percent
  import SignBytes
  import Decimal

  datatype Error =
    | BadAddress | AgentNotFound | DuplicateAgent | RiskReportNotFound | RiskReportExpired
    | InvalidRiskScore | SourceNotAccepted | CaseNotFound | DuplicateCase | CaseNotPending
    | VoteAlreadySubmitted | InvalidSignature | QuorumNotReached | ActionNotAllowed
    | TxAlreadySanctioned | AddressAlreadyFrozen | ExecutionUnsupported | Unauthorized
    | InvalidCase | OriginalMismatch | AlreadySettled | ReviewRequired | LeaseFenced
    | BadSnapshot | BadCoin | BadLease | BadParams | BankRefused

  datatype Msg =
    | RegisterAgent(authority: string, agent: Option<AgentInfo>)
    | SubmitReport(submitter: string, report: Option<RiskReport>)
    | OpenCase(submitter: string, caseId: string, previous: string, txHash: Bytes, target: string,
               targetType: TargetType, action: Action, reportIds: seq<string>, policyVersion: string)
    | SubmitVote(submitter: string, vote: Option<SanctionVote>)
    | Execute(executor: string, caseId: string, resultMessage: string)
    | Revoke(authority: string, caseId: string, reason: string)
    | Review(authority: string, caseId: string, reason: string, evidenceHash: Bytes)
    | UpdateParams(authority: string, params: Option<Params>)
    | ClaimLease(signer: string, holder: string, expectedEpoch: uint64, ttl: uint64, renew: bool)
    | Send(from: string, to: string, coins: seq<Coin>)

  datatype Coin = Coin(denom: string, amount: int)

  const MAX_INT: int := 0x1_0000000000000000_0000000000000000_0000000000000000_0000000000000000

  /** The account whose signature the message needs. */
  function SignerOf(m: Msg): string
  {
    match m
    case RegisterAgent(a, _) => a
    case SubmitReport(x, _) => x
    case OpenCase(x, _, _, _, _, _, _, _, _) => x
    case SubmitVote(x, _) => x
    case Execute(x, _, _) => x
    case Revoke(a, _, _) => a
    case Review(a, _, _, _) => a
    case UpdateParams(a, _) => a
    case ClaimLease(x, _, _, _, _) => x
    case Send(x, _, _) => x
  }

  // ---- RegisterAgent

  function RegisterAgentError(env: Env, s: State, m: Msg): Option<Error>
    requires m.RegisterAgent?
  {
    if m.authority != Authority(env, s) then Some(Unauthorized)
    else if m.agent.None? || !AgentValid(m.agent.value) then Some(DuplicateAgent)
    else
      var a := m.agent.value;
      if !env.isAddress(a.signer) then Some(BadAddress)
      else if a.agentId in s.agents || AgentBySigner(s, a.signer).Some? then Some(DuplicateAgent)
      else None
  }

  // ---- SubmitRiskReport

  /** The stored form: an empty submitter is filled in from the message. */
  function StoredReport(m: Msg): RiskReport
    requires m.SubmitReport? && m.report.Some?
  {
    if m.report.value.submitter == "" then m.report.value.(submitter := m.submitter) else m.report.value
  }

  function VerifySignature(env: Env, key: Bytes, signature: Bytes, payload: Bytes): bool
  {
    key != [] && signature != [] && env.verify(key, signature, payload)
  }

  function ReportFieldsError(s: State, r: RiskReport): Option<Error>
  {
    if r.reportId == "" then Some(RiskReportNotFound)
    else if r.txHash == [] then Some(InvalidCase)
    else if r.riskScore > 100 then Some(InvalidRiskScore)
    else if r.evidenceHash == [] then Some(InvalidCase)
    else if r.expiry <= s.height then Some(RiskReportExpired)
    else if r.source !in GetParams(s).sources then Some(SourceNotAccepted)
    else None
  }

  function SubmitReportError(env: Env, s: State, m: Msg): Option<Error>
    requires m.SubmitReport?
  {
    if !env.isAddress(m.submitter) then Some(BadAddress)
    else if m.report.None? then Some(RiskReportNotFound)
    else
      var r := StoredReport(m);
      if r.submitter != m.submitter then Some(Unauthorized)
      else
        var e := ReportFieldsError(s, r);
        if e.Some? then e
        else if r.reportId in s.reports then Some(DuplicateCase)
        else
          var agent := AgentBySigner(s, r.submitter);
          if agent.Some? && r.signature != []
             && !VerifySignature(env, agent.value.publicKey, r.signature,
                  SignBytes.ReportBytes(env.chainId, env.reportBytes(r.(signature := []))))
          then Some(InvalidSignature)
          else None
  }

  // ---- evidence shared by opening and execution

  /** validateOriginal and the settlement lookup. */
  function UnsettledError(s: State, r: RiskReport): Option<Error>
  {
    var id := TransferId(r.txHash, r.messageIndex, r.denom);
    if id !in s.receipts then Some(OriginalMismatch)
    else
      var t := s.receipts[id];
      if t.height >= s.height || t.sender != r.sender || t.recipient != r.recipient
         || t.amount != r.amount || t.denom != r.denom || t.txHash != r.txHash
      then Some(OriginalMismatch)
      else if IdOf(t) in s.settlements then Some(AlreadySettled)
      else None
  }

  predicate CoinsOk(env: Env, r: RiskReport)
  {
    && r.amount != "" && r.denom != ""
    && env.parseInt(r.amount).Some? && env.parseInt(r.amount).value > 0
    && env.validDenom(r.denom)
  }

  function PrimaryError(s: State, c: SanctionCase): Option<Error>
  {
    if c.reportIds == [] || c.reportIds[0] !in s.reports then Some(RiskReportNotFound)
    else
      var r := s.reports[c.reportIds[0]];
      if r.txHash != c.txHash || r.recipient != c.target then Some(OriginalMismatch) else None
  }

  // ---- OpenSanctionCase

  /** Same message, parties and coin. */
  predicate SameTransfer(a: RiskReport, b: RiskReport)
  {
    && a.messageIndex == b.messageIndex && a.sender == b.sender && a.recipient == b.recipient
    && a.amount == b.amount && a.denom == b.denom
  }

  function ReportError(env: Env, s: State, m: Msg, r: RiskReport, primary: Option<RiskReport>): Option<Error>
    requires m.OpenCase?
  {
    if r.expiry <= s.height then Some(RiskReportExpired)
    else if r.txHash != m.txHash || (m.target != "" && r.recipient != m.target) then Some(InvalidCase)
    else if primary.Some? && !SameTransfer(r, primary.value) then Some(InvalidCase)
    else if m.action == RevertTransfer || m.action == EscrowFunds then
      var e := UnsettledError(s, r);
      if e.Some? then e
      else if !CoinsOk(env, r) then Some(InvalidCase)
      else if !env.isAddress(r.recipient) then Some(BadAddress)
      else if m.action == RevertTransfer && !env.isAddress(r.sender) then Some(BadAddress)
      else None
    else None
  }

  function ReportsError(env: Env, s: State, m: Msg, ids: seq<string>, primary: Option<RiskReport>): Option<Error>
    requires m.OpenCase?
  {
    if ids == [] then None
    else if ids[0] !in s.reports then Some(RiskReportNotFound)
    else
      var r := s.reports[ids[0]];
      var e := ReportError(env, s, m, r, primary);
      if e.Some? then e
      else ReportsError(env, s, m, ids[1..], if primary.Some? then primary else Some(r))
  }

  function Reports(s: State, ids: seq<string>): (r: seq<RiskReport>)
    requires forall id :: id in ids ==> id in s.reports
  {
    seq(|ids|, i requires 0 <= i < |ids| => s.reports[ids[i]])
  }

  lemma {:induction false} ReportsFound(env: Env, s: State, m: Msg, ids: seq<string>, primary: Option<RiskReport>)
    requires m.OpenCase? && ReportsError(env, s, m, ids, primary).None?
    ensures forall id :: id in ids ==> id in s.reports && ReportError(env, s, m, s.reports[id], None).None?
    ensures forall id :: id in ids ==> primary.Some? ==> SameTransfer(s.reports[id], primary.value)
  {
    if ids != [] {
      ReportsFound(env, s, m, ids[1..], if primary.Some? then primary else Some(s.reports[ids[0]]));
      assert ids == [ids[0]] + ids[1..];
    }
  }

  /** The index is scanned by the bare hash, so an entry of a longer hash that starts with it is met as well. */
  predicate MetUnder(txHash: Bytes, entry: (Bytes, string))
  {
    txHash <= entry.0 + [0] + SignBytes.Raw(entry.1)
  }

  /** A case that names `previous` among the cases that the scan of the tx index meets. */
  ghost predicate HasSuccessor(s: State, txHash: Bytes, previous: string)
  {
    exists entry :: entry in s.casesByTx && MetUnder(txHash, entry)
                    && entry.1 in s.cases && s.cases[entry.1].previous == previous
  }

  ghost function ReplacementError(s: State, previous: string, next: RiskReport, target: TargetType): Option<Error>
  {
    if previous !in s.cases then Some(CaseNotFound)
    else
      var c := s.cases[previous];
      if target != AddressTarget || c.targetType != target || c.target != next.recipient || c.txHash != next.txHash
      then Some(InvalidCase)
      else if c.executedAt != 0 || c.status !in {Pending, Approved, Expired} then Some(CaseNotPending)
      else if previous in s.executions then Some(AlreadySettled)
      else if PrimaryError(s, c).Some? then PrimaryError(s, c)
      else
        var r := s.reports[c.reportIds[0]];
        if !SameTransfer(r, next) || next.reportId == r.reportId
           || next.observed <= r.observed || next.observed > s.height
        then Some(InvalidCase)
        else if !(r.expiry <= s.height || (c.status == Pending && c.deadline < s.height) || c.status == Expired)
        then Some(InvalidCase)
        else if HasSuccessor(s, next.txHash, previous) then Some(DuplicateCase)
        else None
  }

  /** The case before its decision hash is filled in; the deadline wraps like uint64 addition. */
  ghost function DraftCase(s: State, m: Msg): SanctionCase
    requires m.OpenCase?
  {
    var p := GetParams(s);
    SanctionCase(m.caseId, m.previous, m.txHash, m.target, m.targetType, m.action, Pending, m.reportIds,
                 s.height, (s.height + p.votingPeriod) % U64, 0, m.policyVersion,
                 VotersOf(s.agents), p.quorum, p.unanimous, 1, [])
  }

  ghost function NewCase(env: Env, s: State, m: Msg): SanctionCase
    requires m.OpenCase?
  {
    DraftCase(s, m).(decisionHash := env.decisionHash(DraftCase(s, m)))
  }

  ghost function OpenCaseError(env: Env, s: State, m: Msg): Option<Error>
    requires m.OpenCase?
  {
    var p := GetParams(s);
    if !env.isAddress(m.submitter) then Some(BadAddress)
    else if m.caseId == "" || |m.txHash| != 32 || m.targetType == NoTarget
            || (m.targetType == AddressTarget && m.target == "") then Some(InvalidCase)
    else if m.target != "" && !env.isAddress(m.target) then Some(BadAddress)
    else if m.caseId in s.cases then Some(DuplicateCase)
    else if m.reportIds == [] then Some(RiskReportNotFound)
    else if m.action !in p.allowed then Some(ActionNotAllowed)
    else
      var e := ReportsError(env, s, m, m.reportIds, None);
      if e.Some? then e
      else
        ReportsFound(env, s, m, m.reportIds, None);
        var expected := PolicyAction(Reports(s, m.reportIds), p, m.targetType);
        if expected == NoAction || m.action != expected then Some(ActionNotAllowed)
        else if m.action == BlockTx && m.txHash in s.activeTxs then Some(TxAlreadySanctioned)
        else if m.target != "" && m.action == FreezeAddress && m.target in s.freezes then Some(AddressAlreadyFrozen)
        else
          var e2 := if m.previous == "" then None
                    else ReplacementError(s, m.previous, s.reports[m.reportIds[0]], m.targetType);
          if e2.Some? then e2
          else if !SnapshotValid(env, DraftCase(s, m)) then Some(BadSnapshot)
          else None
  }

  /** The predecessor, if any, is EXPIRED before the new case is stored. */
  function OpenEffect(s: State, previous: string, c: SanctionCase): State
    requires previous != "" ==> previous in s.cases
  {
    SetCase(if previous == "" then s else SetCase(s, s.cases[previous].(status := Expired)), c)
  }

  // ---- SubmitSanctionVote

  /** caseVoter: the first snapshot member with this id. */
  function FindVoter(voters: seq<AgentInfo>, id: string): Option<AgentInfo>
  {
    if voters == [] then None
    else if voters[0].agentId == id then Some(voters[0])
    else FindVoter(voters[1..], id)
  }

  function CaseVoter(c: SanctionCase, id: string): Option<AgentInfo>
  {
    if c.snapshotVersion != 1 then None else FindVoter(c.voters, id)
  }

  function VoteError(env: Env, s: State, m: Msg): Option<Error>
    requires m.SubmitVote?
  {
    if !env.isAddress(m.submitter) then Some(BadAddress)
    else if m.vote.None? then Some(InvalidCase)
    else
      var v := m.vote.value;
      if v.option !in {Approve, Reject, Abstain} then Some(InvalidCase)
      else if v.caseId !in s.cases then Some(CaseNotFound)
      else
        var c := s.cases[v.caseId];
        if c.status != Pending && !(c.status == Approved && c.action == RevertTransfer) then Some(CaseNotPending)
        else if c.status == Pending && s.height > c.deadline then Some(CaseNotPending)
        else
          var voter := CaseVoter(c, v.agentId);
          if voter.None? then Some(AgentNotFound)
          else if voter.value.signer != m.submitter then Some(Unauthorized)
          else if (v.caseId, v.agentId) in s.votes then Some(VoteAlreadySubmitted)
          else if v.approvedAction != c.action && v.option == Approve then Some(ActionNotAllowed)
          else if !VerifySignature(env, voter.value.publicKey, v.signature, SignBytes.VoteBytes(env.chainId, v))
          then Some(InvalidSignature)
          else None
  }

  type Votes = map<(string, string), SanctionVote>

  /** Agents whose stored vote on the case is `option`. */
  ghost function Voted(votes: Votes, caseId: string, option: VoteOption): set<string>
  {
    set k | k in votes && k.0 == caseId && votes[k].option == option :: k.1
  }

  ghost function ApprovePower(votes: Votes, c: SanctionCase): nat
  {
    Tally.PowerIn(c.voters, Voted(votes, c.caseId, Approve))
  }

  ghost function RejectPower(votes: Votes, c: SanctionCase): nat
  {
    Tally.PowerIn(c.voters, Voted(votes, c.caseId, Reject))
  }

  /** The frozen electorate has approved: what recomputeCaseStatus tests first. */
  ghost predicate QuorumMet(votes: Votes, c: SanctionCase)
  {
    var total := Tally.TotalPower(c.voters);
    total != 0 && Percent.RoundedPercent(ApprovePower(votes, c), total) >= c.quorum
  }

  ghost predicate RejectionMet(votes: Votes, c: SanctionCase)
  {
    var total := Tally.TotalPower(c.voters);
    total != 0 && Percent.RoundedPercent(RejectPower(votes, c), total) >= c.quorum
  }

  ghost function RecomputedStatus(votes: Votes, c: SanctionCase): Status
  {
    if c.snapshotVersion != 1 then c.status
    else if QuorumMet(votes, c) then Approved
    else if RejectionMet(votes, c) then Rejected
    else c.status
  }

  function ActivationOf(s: State, c: SanctionCase): ActiveSanction
  {
    ActiveSanction(c.caseId, c.txHash, c.target, c.action, s.height)
  }

  /** The case's sanction becomes active with its approval. */
  ghost predicate Activates(votes: Votes, c: SanctionCase)
  {
    c.snapshotVersion == 1 && QuorumMet(votes, c) && c.action == BlockTx
  }

  ghost function Recompute(s: State, c: SanctionCase): State
  {
    SetCase(if Activates(s.votes, c) then SetActiveTx(s, ActivationOf(s, c)) else s,
            c.(status := RecomputedStatus(s.votes, c)))
  }

  ghost function VoteEffect(s: State, v: SanctionVote): State
    requires v.caseId in s.cases
  {
    Recompute(SetVote(s, v), s.cases[v.caseId])
  }

  // ---- ExecuteSanction

  /** hasUnanimousApproval: every weighted member of the snapshot approved, and there is one. */
  ghost predicate Unanimous(votes: Votes, c: SanctionCase)
  {
    && c.snapshotVersion == 1
    && (exists v :: v in c.voters && v.active && v.power != 0)
    && forall v :: v in c.voters && v.active && v.power != 0 ==>
         (c.caseId, v.agentId) in votes && votes[(c.caseId, v.agentId)].option == Approve
  }

  /** SendCoinsAllowed: frozen parties may not send or receive, except the one settlement in scope. */
  function SendError(s: State, from: string, to: string, scope: Option<(string, string)>): Option<Error>
  {
    if scope == Some((from, to)) then None
    else if from in s.freezes || to in s.freezes then Some(AddressAlreadyFrozen)
    else None
  }

  /** The coin movement that an escrow or revert of this report performs. */
  function SettlementMove(env: Env, r: RiskReport, caseId: string, action: Action): Move
    requires CoinsOk(env, r)
  {
    Move(env.account(r.recipient),
         if action == RevertTransfer then env.account(r.sender) else env.moduleAccount,
         r.denom, env.parseInt(r.amount).value,
         Settling(TransferId(r.txHash, r.messageIndex, r.denom), caseId))
  }

  predicate Monetary(a: Action) { a == EscrowFunds || a == RevertTransfer }

  function SettleError(env: Env, s: State, c: SanctionCase, bankOk: bool): Option<Error>
  {
    if !env.hasBank then Some(ExecutionUnsupported)
    else if PrimaryError(s, c).Some? then PrimaryError(s, c)
    else
      var r := s.reports[c.reportIds[0]];
      if UnsettledError(s, r).Some? then UnsettledError(s, r)
      else if c.action == RevertTransfer && !env.isAddress(r.sender) then Some(BadAddress)
      else if !env.isAddress(r.recipient) then Some(BadAddress)
      else if !CoinsOk(env, r) then Some(BadCoin)
      else
        var m := SettlementMove(env, r, c.caseId, c.action);
        if SendError(s, m.from, m.to, Some((m.from, m.to))).Some? then Some(AddressAlreadyFrozen)
        else if !bankOk || Balance(s, m.from, m.denom) < m.amount then Some(BankRefused)
        else None
  }

  /** The case's evidence names a recorded transfer whose recipient can pay it back. */
  predicate Settleable(env: Env, s: State, c: SanctionCase)
  {
    && c.reportIds != [] && c.reportIds[0] in s.reports
    && var r := s.reports[c.reportIds[0]];
    && CoinsOk(env, r) && TransferId(r.txHash, r.messageIndex, r.denom) in s.receipts
    && Balance(s, env.account(r.recipient), r.denom) >= env.parseInt(r.amount).value
  }

  function SettleEffect(env: Env, s: State, c: SanctionCase): State
    requires Settleable(env, s, c)
  {
    var r := s.reports[c.reportIds[0]];
    var t := s.receipts[TransferId(r.txHash, r.messageIndex, r.denom)];
    var s1 := MoveCoins(s, SettlementMove(env, r, c.caseId, c.action));
    SetSettlement(s1, SettlementRecord(t, c.caseId, c.action, s.height))
  }

  function StateHash(env: Env, s: State, c: SanctionCase): Bytes
    requires Monetary(c.action) ==> Settleable(env, s, c)
  {
    if c.action == EscrowFunds then
      var r := s.reports[c.reportIds[0]];
      env.stateHash(["escrow", c.caseId, r.recipient, CoinText(env, r)])
    else if c.action == RevertTransfer then
      var r := s.reports[c.reportIds[0]];
      env.stateHash(["revert", c.caseId, r.recipient, r.sender, CoinText(env, r)])
    else []
  }

  /** coins.String() of the single coin of a report. */
  function CoinText(env: Env, r: RiskReport): string
    requires CoinsOk(env, r)
  {
    Decimal.Format(env.parseInt(r.amount).value) + r.denom
  }

  ghost function ExecuteError(env: Env, s: State, m: Msg, bankOk: bool): Option<Error>
    requires m.Execute?
  {
    if !env.isAddress(m.executor) then Some(BadAddress)
    else if m.caseId !in s.cases then Some(CaseNotFound)
    else
      var c := s.cases[m.caseId];
      if c.status != Approved then Some(QuorumNotReached)
      else if !SnapshotValid(env, c) then Some(BadSnapshot)
      else if m.caseId in s.executions then Some(InvalidCase)
      else if c.action == RevertTransfer && c.unanimous && !Unanimous(s.votes, c) then Some(QuorumNotReached)
      else if c.reportIds != [] && c.reportIds[0] !in s.reports then Some(RiskReportNotFound)
      else if c.reportIds != [] && 0 < s.reports[c.reportIds[0]].expiry <= s.height then Some(RiskReportExpired)
      else match c.action
        case BlockTx => None
        case Watch => None
        case FreezeAddress => if c.target == "" then Some(InvalidCase) else None
        case EscrowFunds => SettleError(env, s, c, bankOk)
        case RevertTransfer => SettleError(env, s, c, bankOk)
        case _ => Some(ActionNotAllowed)
  }

  function ExecutionOf(env: Env, s: State, c: SanctionCase, executor: string, message: string): ExecutionRecord
    requires Monetary(c.action) ==> Settleable(env, s, c)
  {
    ExecutionRecord(c.caseId, c.action, c.txHash, c.target, executor, s.height,
                    if c.action == Watch then "watch_only" else "ok", message, StateHash(env, s, c))
  }

  function ActiveAfter(s: State, c: SanctionCase): map<Bytes, ActiveSanction>
  {
    if c.action == BlockTx then s.activeTxs[c.txHash := ActivationOf(s, c)] else s.activeTxs
  }

  function FrozenAfter(s: State, c: SanctionCase): map<string, FreezeRecord>
  {
    if c.action == FreezeAddress then s.freezes[c.target := FreezeRecord(c.caseId, c.target, s.height)] else s.freezes
  }

  /** What the action itself changes; WATCH changes nothing. */
  function ActionEffect(env: Env, s: State, c: SanctionCase): State
    requires Monetary(c.action) ==> Settleable(env, s, c)
  {
    if Monetary(c.action) then SettleEffect(env, s, c)
    else s.(activeTxs := ActiveAfter(s, c), freezes := FrozenAfter(s, c))
  }

  function ExecuteEffect(env: Env, s: State, c: SanctionCase, record: ExecutionRecord): State
    requires Monetary(c.action) ==> Settleable(env, s, c)
  {
    SetExecution(SetCase(ActionEffect(env, s, c), c.(status := Executed, executedAt := s.height)), record)
  }

  // ---- ReviewSanction and RevokeSanction

  function ReviewError(env: Env, s: State, m: Msg): Option<Error>
    requires m.Review?
  {
    if m.authority != Authority(env, s) then Some(Unauthorized)
    else if m.caseId !in s.cases then Some(CaseNotFound)
    else if s.cases[m.caseId].status == Revoked then Some(CaseNotPending)
    else if m.caseId in s.reviews then Some(InvalidCase)
    else if |m.evidenceHash| != 32 || env.isBlank(m.reason) || |m.reason| > 1024 then Some(InvalidCase)
    else None
  }

  function ReviewEffect(s: State, m: Msg): State
    requires m.Review?
  {
    SetReview(s, ReviewRecord(m.caseId, m.authority, m.reason, m.evidenceHash, s.height, 0, ""))
  }

  function RevokeError(env: Env, s: State, m: Msg): Option<Error>
    requires m.Revoke?
  {
    if m.authority != Authority(env, s) then Some(Unauthorized)
    else if m.caseId !in s.cases then Some(CaseNotFound)
    else if m.caseId !in s.reviews then Some(ReviewRequired)
    else
      var review := s.reviews[m.caseId];
      if review.authority != m.authority || review.reviewedAt >= s.height || review.revokedAt != 0
         || s.cases[m.caseId].status == Revoked then Some(ReviewRequired)
      else if env.isBlank(m.reason) || |m.reason| > 1024 then Some(InvalidCase)
      else None
  }

  /** The active tx sanctions without the one that the case owns. */
  function WithoutActive(t: map<Bytes, ActiveSanction>, c: SanctionCase): map<Bytes, ActiveSanction>
  {
    if c.txHash in t && t[c.txHash].caseId == c.caseId then t - {c.txHash} else t
  }

  /** The freezes without the one that the case owns. */
  function WithoutFreeze(t: map<string, FreezeRecord>, c: SanctionCase): map<string, FreezeRecord>
  {
    if c.target in t && t[c.target].caseId == c.caseId then t - {c.target} else t
  }

  function RevokeEffect(s: State, c: SanctionCase, review: ReviewRecord, reason: string): State
  {
    SetCase(s, c.(status := Revoked))
      .(activeTxs := WithoutActive(s.activeTxs, c), freezes := WithoutFreeze(s.freezes, c),
        reviews := s.reviews[review.caseId := review.(revokedAt := s.height, revokeReason := reason)])
  }

  // ---- UpdateParams

  function UpdateParamsError(env: Env, s: State, m: Msg): Option<Error>
    requires m.UpdateParams?
  {
    if m.authority != Authority(env, s) then Some(Unauthorized)
    else if m.params.None? then Some(InvalidCase)
    else if !ParamsValid(m.params.value) then Some(BadParams)
    else None
  }

  // ---- ClaimAgentLease

  function LeaseOf(s: State, signer: string): Lease
  {
    if signer in s.leases then s.leases[signer] else Lease(signer, "", 0, 0)
  }

  function ClaimError(env: Env, s: State, m: Msg): Option<Error>
    requires m.ClaimLease?
  {
    var lease := LeaseOf(s, m.signer);
    if !env.isAddress(m.signer) then Some(BadAddress)
    else if !HolderValid(m.holder) || m.ttl < 6 || m.ttl > 100 then Some(BadLease)
    else if AgentBySigner(s, m.signer).None? then Some(AgentNotFound)
    else if lease.epoch != m.expectedEpoch then Some(BadLease)
    else if m.renew then
      if lease.epoch == 0 || lease.holder != m.holder || lease.expires <= s.height then Some(BadLease) else None
    else if lease.expires > s.height || lease.epoch == U64 - 1 then Some(BadLease)
    else None
  }

  function ClaimEffect(env: Env, s: State, m: Msg): State
    requires m.ClaimLease? && ClaimError(env, s, m).None?
  {
    var lease := LeaseOf(s, m.signer);
    SetLease(s, if m.renew then lease.(expires := s.height + m.ttl)
                else lease.(epoch := lease.epoch + 1, holder := m.holder, expires := s.height + m.ttl))
  }

  // ---- an ordinary bank send

  /** sdk.Coins.IsValid and IsAllPositive: at least one coin, ascending distinct denoms, positive amounts. */
  ghost predicate CoinsValid(env: Env, coins: seq<Coin>)
  {
    && coins != []
    && (forall i :: 0 <= i < |coins| ==> 0 < coins[i].amount < MAX_INT && env.validDenom(coins[i].denom))
    && (forall i, j :: 0 <= i < j < |coins| ==> Strings.Less(coins[i].denom, coins[j].denom))
  }

  ghost function BankSendError(env: Env, s: State, m: Msg, bankOk: bool): Option<Error>
    requires m.Send?
  {
    if !env.isAddress(m.from) || !env.isAddress(m.to) then Some(BadAddress)
    else if !CoinsValid(env, m.coins) then Some(BadCoin)
    else
      var e := SendError(s, env.account(m.from), env.account(m.to), None);
      if e.Some? then e
      else if !bankOk || exists c :: c in m.coins && Balance(s, env.account(m.from), c.denom) < c.amount
      then Some(BankRefused)
      else None
  }

  /** The sender holds every coin of a list without repeated denoms. */
  ghost predicate Payable(s: State, from: string, coins: seq<Coin>)
  {
    && (forall i :: 0 <= i < |coins| ==> 0 <= coins[i].amount <= Balance(s, from, coins[i].denom))
    && (forall i, j :: 0 <= i < j < |coins| ==> coins[i].denom != coins[j].denom)
  }

  lemma ValidPayable(env: Env, s: State, m: Msg, bankOk: bool)
    requires m.Send? && BankSendError(env, s, m, bankOk).None?
    ensures Payable(s, env.account(m.from), m.coins)
  {
    forall i, j | 0 <= i < j < |m.coins| ensures m.coins[i].denom != m.coins[j].denom {
      Strings.LessAsymmetric(m.coins[i].denom, m.coins[j].denom);
    }
    forall i | 0 <= i < |m.coins| ensures m.coins[i].amount <= Balance(s, env.account(m.from), m.coins[i].denom) {
      assert m.coins[i] in m.coins;
    }
  }

  function CoinMove(from: string, to: string, c: Coin): Move
    requires c.amount >= 0
  {
    Move(from, to, c.denom, c.amount, Ordinary)
  }

  /** The coins moved one after another. */
  ghost function SendCoins(s: State, from: string, to: string, coins: seq<Coin>): (r: State)
    requires Payable(s, from, coins)
    ensures forall d: string :: (forall i :: 0 <= i < |coins| ==> coins[i].denom != d) ==> Balance(r, from, d) == Balance(s, from, d)
    ensures r == s.(balances := r.balances, moves := r.moves)
  {
    if coins == [] then s else
      var c := coins[|coins| - 1];
      MoveCoins(SendCoins(s, from, to, coins[..|coins| - 1]), CoinMove(from, to, c))
  }

  ghost function SendEffect(env: Env, s: State, m: Msg, bankOk: bool): State
    requires m.Send? && BankSendError(env, s, m, bankOk).None?
  {
    ValidPayable(env, s, m, bankOk);
    SendCoins(s, env.account(m.from), env.account(m.to), m.coins)
  }

  // ---- one message

  ghost function HandleError(env: Env, s: State, m: Msg, bankOk: bool): Option<Error>
  {
    match m
    case RegisterAgent(_, _) => RegisterAgentError(env, s, m)
    case SubmitReport(_, _) => SubmitReportError(env, s, m)
    case OpenCase(_, _, _, _, _, _, _, _, _) => OpenCaseError(env, s, m)
    case SubmitVote(_, _) => VoteError(env, s, m)
    case Execute(_, _, _) => ExecuteError(env, s, m, bankOk)
    case Revoke(_, _, _) => RevokeError(env, s, m)
    case Review(_, _, _, _) => ReviewError(env, s, m)
    case UpdateParams(_, _) => UpdateParamsError(env, s, m)
    case ClaimLease(_, _, _, _, _) => ClaimError(env, s, m)
    case Send(_, _, _) => BankSendError(env, s, m, bankOk)
  }

  ghost function HandleEffect(env: Env, s: State, m: Msg, bankOk: bool): State
    requires HandleError(env, s, m, bankOk).None?
  {
    match m
    case RegisterAgent(_, a) => SetAgent(s, a.value)
    case SubmitReport(_, _) => SetReport(s, StoredReport(m))
    case OpenCase(_, _, _, _, _, _, _, _, _) => OpenEffect(s, m.previous, NewCase(env, s, m))
    case SubmitVote(_, v) => VoteEffect(s, v.value)
    case Execute(executor, id, message) =>
      ExecuteEffect(env, s, s.cases[id], ExecutionOf(env, s, s.cases[id], executor, message))
    case Revoke(_, id, reason) => RevokeEffect(s, s.cases[id], s.reviews[id], reason)
    case Review(_, _, _, _) => ReviewEffect(s, m)
    case UpdateParams(_, p) => s.(params := p)
    case ClaimLease(_, _, _, _, _) => ClaimEffect(env, s, m)
    case Send(_, _, _) => SendEffect(env, s, m, bankOk)
  }
}
