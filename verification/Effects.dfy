/** Who owns the active tx sanctions and the freezes. */
module Effects {
  import opened Basics
  import opened Types
  import opened Store
  import opened Handlers
  import opened Frames
  import opened Electorate

  /** A blocked tx is blocked by a block case on it that reached its quorum and is not revoked. */
  ghost predicate ActiveOk(cases: map<string, SanctionCase>, votes: Votes, a: ActiveSanction)
  {
    && a.caseId in cases
    && var c := cases[a.caseId];
       c.action == BlockTx && c.txHash == a.txHash && c.status in {Approved, Executed, Expired} && QuorumMet(votes, c)
  }

  /** A frozen address is frozen by an executed freeze case on it. */
  ghost predicate FreezeOk(cases: map<string, SanctionCase>, f: FreezeRecord)
  {
    && f.caseId in cases
    && var c := cases[f.caseId];
       c.action == FreezeAddress && c.target == f.address && c.status == Executed
  }

  ghost predicate ActivesOk(cases: map<string, SanctionCase>, votes: Votes, active: map<Bytes, ActiveSanction>)
  {
    forall h :: h in active ==> ActiveOk(cases, votes, active[h])
  }

  ghost predicate FreezesOk(cases: map<string, SanctionCase>, freezes: map<string, FreezeRecord>)
  {
    forall a :: a in freezes ==> FreezeOk(cases, freezes[a])
  }

  ghost predicate EffectsOk(s: State)
  {
    ActivesOk(s.cases, s.votes, s.activeTxs) && FreezesOk(s.cases, s.freezes)
  }

  lemma QuorumSame(votes: Votes, c: SanctionCase, c': SanctionCase)
    requires SameOpening(c, c')
    ensures QuorumMet(votes, c) <==> QuorumMet(votes, c')
  {
  }

  lemma OpenEffects(s: State, previous: string, c: SanctionCase)
    requires EffectsOk(s) && KeyedCases(s.cases) && c.caseId !in s.cases
    requires previous != "" ==> previous in s.cases && s.cases[previous].status in {Pending, Approved, Expired}
    ensures EffectsOk(OpenEffect(s, previous, c))
  {
    if previous != "" { QuorumSame(s.votes, s.cases[previous], s.cases[previous].(status := Expired)); }
    hide QuorumMet;
  }

  lemma VoteEffects(s: State, v: SanctionVote)
    requires EffectsOk(s) && KeyedCases(s.cases) && KeyedActive(s.activeTxs)
    requires v.caseId in s.cases && (v.caseId, v.agentId) !in s.votes
    requires var c := s.cases[v.caseId]; c.status == Pending || (c.status == Approved && c.action == RevertTransfer)
    ensures EffectsOk(VoteEffect(s, v))
  {
    var c, s' := s.cases[v.caseId], VoteEffect(s, v);
    VoteTables(s, v);
    hide ActivesOk, FreezesOk, VoteEffect, Activates, RecomputedStatus, ActivationOf;
    VoteActives(s, v, s'.votes);
    VoteFreezes(s.cases, s.freezes, c, RecomputedStatus(s'.votes, c));
  }

  /** Sanctions in force rest on other cases, whose quorums only grow. */
  lemma OldActives(s: State, v: SanctionVote, votes: Votes)
    requires ActivesOk(s.cases, s.votes, s.activeTxs) && Grows(s.votes, votes)
    requires v.caseId in s.cases
    requires var c := s.cases[v.caseId]; c.status == Pending || (c.status == Approved && c.action == RevertTransfer)
    ensures ActivesOk(s.cases, votes, s.activeTxs)
    ensures forall h :: h in s.activeTxs ==> s.activeTxs[h].caseId != v.caseId
  {
    forall h | h in s.activeTxs ensures s.activeTxs[h].caseId != v.caseId && ActiveOk(s.cases, votes, s.activeTxs[h]) {
      assert ActiveOk(s.cases, s.votes, s.activeTxs[h]);
      QuorumStable(s.votes, votes, s.cases[s.activeTxs[h].caseId]);
    }
    hide QuorumMet;
  }

  lemma VoteActives(s: State, v: SanctionVote, votes: Votes)
    requires ActivesOk(s.cases, s.votes, s.activeTxs) && KeyedCases(s.cases)
    requires v.caseId in s.cases && (v.caseId, v.agentId) !in s.votes && votes == s.votes[(v.caseId, v.agentId) := v]
    requires var c := s.cases[v.caseId]; c.status == Pending || (c.status == Approved && c.action == RevertTransfer)
    ensures var c := s.cases[v.caseId];
      ActivesOk(s.cases[v.caseId := c.(status := RecomputedStatus(votes, c))], votes,
                if Activates(votes, c) then s.activeTxs[c.txHash := ActivationOf(s, c)] else s.activeTxs)
  {
    var c := s.cases[v.caseId];
    OldActives(s, v, votes);
    QuorumSame(votes, c, c.(status := RecomputedStatus(votes, c)));
    hide QuorumMet, RejectionMet;
  }

  lemma VoteFreezes(cases: map<string, SanctionCase>, freezes: map<string, FreezeRecord>, c: SanctionCase, status: Status)
    requires FreezesOk(cases, freezes) && c.caseId in cases && cases[c.caseId] == c && c.status != Executed
    ensures FreezesOk(cases[c.caseId := c.(status := status)], freezes)
  {
  }

  lemma ExecuteActives(s: State, c: SanctionCase)
    requires ActivesOk(s.cases, s.votes, s.activeTxs) && c.caseId in s.cases && s.cases[c.caseId] == c
    requires c.status == Approved && QuorumMet(s.votes, c)
    ensures ActivesOk(s.cases[c.caseId := c.(status := Executed, executedAt := s.height)], s.votes, ActiveAfter(s, c))
  {
    QuorumSame(s.votes, c, c.(status := Executed, executedAt := s.height));
    hide QuorumMet;
  }

  lemma ExecuteFreezes(s: State, c: SanctionCase)
    requires FreezesOk(s.cases, s.freezes) && c.caseId in s.cases && s.cases[c.caseId] == c
    ensures FreezesOk(s.cases[c.caseId := c.(status := Executed, executedAt := s.height)], FrozenAfter(s, c))
  {
  }

  lemma ExecuteEffects(env: Env, s: State, c: SanctionCase, record: ExecutionRecord)
    requires EffectsOk(s) && c.caseId in s.cases && s.cases[c.caseId] == c
    requires c.status == Approved && QuorumMet(s.votes, c)
    requires Monetary(c.action) ==> Settleable(env, s, c)
    ensures EffectsOk(ExecuteEffect(env, s, c, record))
  {
    hide QuorumMet, ActivesOk, FreezesOk;
    ExecuteActives(s, c);
    ExecuteFreezes(s, c);
    ExecuteTables(env, s, c, record);
    hide ExecuteEffect, Settleable, ActiveAfter, FrozenAfter;
  }

  lemma RevokeEffects(s: State, c: SanctionCase, review: ReviewRecord, reason: string)
    requires EffectsOk(s) && KeyedCases(s.cases) && KeyedActive(s.activeTxs) && KeyedFreezes(s.freezes)
    requires c.caseId in s.cases && s.cases[c.caseId] == c
    ensures EffectsOk(RevokeEffect(s, c, review, reason))
  {
    hide QuorumMet;
  }
}
