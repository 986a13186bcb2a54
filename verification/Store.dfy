/**
 * The sanction store and the bank balances it moves, as one value: primary tables,
 * their secondary indexes, and the setters of x/sanction/keeper/store.go on them.
 */
module Store {
  import opened Basics
  import opened Types
  import opened Strings

  /** uint64(ctx.BlockHeight()): a nonnegative int64. */
  type Height = h: int | 0 <= h < 0x8000_0000_0000_0000

  datatype Cause = Ordinary | Settling(id: TransferId, caseId: string)

  /** One coin moved by the bank. */
  datatype Move = Move(from: string, to: string, denom: string, amount: nat, cause: Cause)

  datatype State = State(
    params: Option<Params>,
    authority: string,                         // "" when no authority is stored
    agents: map<string, AgentInfo>,
    signerIndex: map<string, string>,          // signer -> agent id
    leases: map<string, Lease>,
    reports: map<string, RiskReport>,
    reportsByTx: set<(Bytes, string)>,
    reportsByAddress: set<(string, string)>,
    cases: map<string, SanctionCase>,
    casesByTx: set<(Bytes, string)>,
    casesByAddress: set<(string, string)>,
    votes: map<(string, string), SanctionVote>, // (case, agent)
    activeTxs: map<Bytes, ActiveSanction>,
    freezes: map<string, FreezeRecord>,
    executions: map<string, ExecutionRecord>,
    receipts: map<TransferId, OriginalTransfer>,
    settlements: map<TransferId, SettlementRecord>,
    reviews: map<string, ReviewRecord>,
    balances: map<(string, string), nat>,      // (account, denom)
    moves: seq<Move>,                          // what the bank has moved so far
    height: Height)

  function GetParams(s: State): Params
  {
    if s.params.Some? then s.params.value else DefaultParams()
  }

  function Authority(env: Env, s: State): string
  {
    if s.authority != "" then s.authority else env.configAuthority
  }

  function AgentBySigner(s: State, signer: string): Option<AgentInfo>
  {
    if signer in s.signerIndex && s.signerIndex[signer] in s.agents
    then Some(s.agents[s.signerIndex[signer]]) else None
  }

  function SetAgent(s: State, a: AgentInfo): State
  {
    s.(agents := s.agents[a.agentId := a], signerIndex := s.signerIndex[a.signer := a.agentId])
  }

  function SetReport(s: State, r: RiskReport): State
  {
    s.(reports := s.reports[r.reportId := r],
       reportsByTx := s.reportsByTx + {(r.txHash, r.reportId)},
       reportsByAddress := s.reportsByAddress + if r.recipient != "" then {(r.recipient, r.reportId)} else {})
  }

  function IndexByTx(index: set<(Bytes, string)>, c: SanctionCase): set<(Bytes, string)>
  {
    if c.txHash != [] then index + {(c.txHash, c.caseId)} else index
  }

  function IndexByAddress(index: set<(string, string)>, c: SanctionCase): set<(string, string)>
  {
    if c.target != "" then index + {(c.target, c.caseId)} else index
  }

  function SetCase(s: State, c: SanctionCase): State
  {
    s.(cases := s.cases[c.caseId := c],
       casesByTx := IndexByTx(s.casesByTx, c), casesByAddress := IndexByAddress(s.casesByAddress, c))
  }

  function SetVote(s: State, v: SanctionVote): State
  {
    s.(votes := s.votes[(v.caseId, v.agentId) := v])
  }

  function SetActiveTx(s: State, a: ActiveSanction): State
  {
    s.(activeTxs := s.activeTxs[a.txHash := a])
  }

  function SetFreeze(s: State, f: FreezeRecord): State
  {
    s.(freezes := s.freezes[f.address := f])
  }

  function SetExecution(s: State, r: ExecutionRecord): State
  {
    s.(executions := s.executions[r.caseId := r])
  }

  function SetReceipt(s: State, t: OriginalTransfer): State
  {
    s.(receipts := s.receipts[IdOf(t) := t])
  }

  function SetSettlement(s: State, r: SettlementRecord): State
  {
    s.(settlements := s.settlements[IdOf(r.transfer) := r])
  }

  function SetReview(s: State, r: ReviewRecord): State
  {
    s.(reviews := s.reviews[r.caseId := r])
  }

  function SetLease(s: State, l: Lease): State
  {
    s.(leases := s.leases[l.signer := l])
  }

  function Balance(s: State, account: string, denom: string): nat
  {
    if (account, denom) in s.balances then s.balances[(account, denom)] else 0
  }

  /** Subtract from one account, then add to the other; a self-transfer changes nothing. */
  function MoveCoins(s: State, m: Move): State
    requires Balance(s, m.from, m.denom) >= m.amount
  {
    var s1 := s.(balances := s.balances[(m.from, m.denom) := Balance(s, m.from, m.denom) - m.amount]);
    s1.(balances := s1.balances[(m.to, m.denom) := Balance(s1, m.to, m.denom) + m.amount], moves := s.moves + [m])
  }

  /** The agents a new case freezes as its electorate. */
  ghost function Eligible(agents: map<string, AgentInfo>): set<string>
  {
    set id | id in agents && agents[id].active && agents[id].power > 0 && agents[id].publicKey != []
  }

  /** They in ascending order of agent id. */
  ghost function VotersOf(agents: map<string, AgentInfo>): (r: seq<AgentInfo>)
    ensures |r| == |Eligible(agents)|
    ensures forall i :: 0 <= i < |r| ==> exists id :: id in Eligible(agents) && r[i] == agents[id]
    ensures forall id :: id in Eligible(agents) ==> agents[id] in r
  {
    var ids := Sorted(Eligible(agents));
    assert forall i :: 0 <= i < |ids| ==> ids[i] in ids;
    var r := seq(|ids|, i requires 0 <= i < |ids| => agents[ids[i]]);
    assert forall id :: id in ids ==> agents[id] in r by {
      forall id | id in ids ensures agents[id] in r {
        var i :| 0 <= i < |ids| && ids[i] == id;
        assert r[i] == agents[id];
      }
    }
    r
  }
}
