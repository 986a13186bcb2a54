/** When an executed freeze or an approved block stays in force, exactly. */
module Ownership {
  import opened Basics
  import opened Types
  import opened Store
  import opened Handlers
  import opened Frames
  import opened Chain
  import opened Electorate
  import opened Replacement
  import opened Effects
  import opened Runs
  import opened Events
  import CaseTheorems

  type Cases = map<string, SanctionCase>

  // ---- three claims that one could expect of every state

  /** Every executed freeze case owns the freeze of its target. */
  ghost predicate FreezesOwned(cases: Cases, freezes: map<string, FreezeRecord>)
  {
    forall id :: id in cases && cases[id].action == FreezeAddress && cases[id].status == Executed ==>
      cases[id].target in freezes && freezes[cases[id].target].caseId == id
  }

  /** Every approved or executed block case owns the sanction of its tx. */
  ghost predicate SanctionsOwned(cases: Cases, active: map<Bytes, ActiveSanction>)
  {
    forall id :: id in cases && cases[id].action == BlockTx && cases[id].status in {Approved, Executed} ==>
      cases[id].txHash in active && active[cases[id].txHash].caseId == id
  }

  /** Every freeze is filed under the canonical text of its account. */
  ghost predicate FreezesCanonical(env: Env, freezes: map<string, FreezeRecord>)
  {
    forall a :: a in freezes ==> env.account(a) == a
  }

  datatype Claim = OwnFreezes | OwnSanctions | CanonicalFreezes

  ghost predicate Holds(env: Env, claim: Claim, s: State)
  {
    match claim
    case OwnFreezes => FreezesOwned(s.cases, s.freezes)
    case OwnSanctions => SanctionsOwned(s.cases, s.activeTxs)
    case CanonicalFreezes => FreezesCanonical(env, s.freezes)
  }

  // ---- the messages that break them, as one can tell before the call

  /** An execution of a freeze case. */
  predicate Freezes(s: State, m: Msg)
  {
    m.Execute? && m.caseId in s.cases && s.cases[m.caseId].action == FreezeAddress
  }

  /** The tx is sanctioned by a case that is still approved or executed. */
  predicate TxTaken(s: State, txHash: Bytes)
  {
    txHash in s.activeTxs && s.activeTxs[txHash].caseId in s.cases && s.cases[s.activeTxs[txHash].caseId].status in {Approved, Executed}
  }

  /** The vote that brings a block case to its quorum. */
  ghost predicate ApprovesBlock(s: State, m: Msg)
  {
    && m.SubmitVote? && m.vote.Some? && m.vote.value.caseId in s.cases
    && Activates(SetVote(s, m.vote.value).votes, s.cases[m.vote.value.caseId])
  }

  ghost predicate Breaks(env: Env, claim: Claim, s: State, m: Msg)
  {
    match claim
    case OwnFreezes => Freezes(s, m) && s.cases[m.caseId].target in s.freezes
    case OwnSanctions => ApprovesBlock(s, m) && TxTaken(s, s.cases[m.vote.value.caseId].txHash)
    case CanonicalFreezes => Freezes(s, m) && env.account(s.cases[m.caseId].target) != s.cases[m.caseId].target
  }

  // ---- one accepted message, table by table

  lemma OpenOwned(s: State, previous: string, c: SanctionCase)
    requires KeyedCases(s.cases) && c.caseId !in s.cases && c.status == Pending
    requires previous != "" ==> previous in s.cases && s.cases[previous].status in {Pending, Approved, Expired}
    ensures var s' := OpenEffect(s, previous, c);
      && s'.freezes == s.freezes
      && (FreezesOwned(s.cases, s.freezes) ==> FreezesOwned(s'.cases, s'.freezes))
      && (SanctionsOwned(s.cases, s.activeTxs) ==> SanctionsOwned(s'.cases, s'.activeTxs))
  {
    OpenTables(s, previous, c);
    OpenEffectTables(s, previous, c);
    hide OpenEffect;
  }

  lemma OpenEffectTables(s: State, previous: string, c: SanctionCase)
    requires previous != "" ==> previous in s.cases
    ensures OpenEffect(s, previous, c).freezes == s.freezes && OpenEffect(s, previous, c).activeTxs == s.activeTxs
  {
    hide IndexByTx, IndexByAddress;
  }

  lemma VoteOwnsFreezes(cases: Cases, freezes: map<string, FreezeRecord>, c: SanctionCase, status: Status)
    requires KeyedCases(cases) && c.caseId in cases && cases[c.caseId] == c && c.status != Executed && status != Executed
    requires FreezesOwned(cases, freezes)
    ensures FreezesOwned(cases[c.caseId := c.(status := status)], freezes)
  {
  }

  lemma ApprovalStatus(votes: Votes, c: SanctionCase)
    requires c.status == Pending || (c.status == Approved && c.action == RevertTransfer)
    ensures Activates(votes, c) ==> RecomputedStatus(votes, c) == Approved && c.action == BlockTx
    ensures c.action == BlockTx && RecomputedStatus(votes, c) in {Approved, Executed} ==> Activates(votes, c)
  {
    hide QuorumMet, RejectionMet;
  }

  /** Approving a block case whose tx a live case has sanctioned leaves that case without its sanction. */
  lemma TakenAway(s: State, c: SanctionCase, status: Status, a: ActiveSanction)
    requires ActivesOk(s.cases, s.votes, s.activeTxs) && KeyedActive(s.activeTxs) && TxTaken(s, c.txHash)
    requires c.caseId in s.cases && s.cases[c.caseId] == c && c.status == Pending && a.caseId == c.caseId
    ensures !SanctionsOwned(s.cases[c.caseId := c.(status := status)], s.activeTxs[c.txHash := a])
  {
    var owner := s.activeTxs[c.txHash].caseId;
    assert ActiveOk(s.cases, s.votes, s.activeTxs[c.txHash]);
    hide QuorumMet;
    var cases := s.cases[c.caseId := c.(status := status)];
    assert cases[owner] == s.cases[owner] && cases[owner].txHash == c.txHash;
  }

  lemma StillOwned(s: State, c: SanctionCase, status: Status, a: ActiveSanction)
    requires KeyedCases(s.cases) && SanctionsOwned(s.cases, s.activeTxs) && a.caseId == c.caseId
    requires c.caseId in s.cases && s.cases[c.caseId] == c
    ensures !TxTaken(s, c.txHash) ==> SanctionsOwned(s.cases[c.caseId := c.(status := status)], s.activeTxs[c.txHash := a])
    ensures (c.action != BlockTx || status !in {Approved, Executed}) ==>
      SanctionsOwned(s.cases[c.caseId := c.(status := status)], s.activeTxs)
  {
  }

  /** A vote replaces the sanction of its tx exactly when it approves a block case. */
  lemma VoteOwnsSanctions(s: State, v: SanctionVote)
    requires KeyedCases(s.cases) && KeyedActive(s.activeTxs) && ActivesOk(s.cases, s.votes, s.activeTxs)
    requires SanctionsOwned(s.cases, s.activeTxs) && v.caseId in s.cases
    requires var c := s.cases[v.caseId]; c.status == Pending || (c.status == Approved && c.action == RevertTransfer)
    ensures var s' := VoteEffect(s, v); var c := s.cases[v.caseId];
      SanctionsOwned(s'.cases, s'.activeTxs) <==> !(Activates(SetVote(s, v).votes, c) && TxTaken(s, c.txHash))
  {
    VoteTables(s, v);
    var c, s', votes := s.cases[v.caseId], VoteEffect(s, v), SetVote(s, v).votes;
    assert s'.votes == votes;
    assert ActivationOf(s, c).caseId == c.caseId == v.caseId;
    hide VoteEffect, Activates, RecomputedStatus, SanctionsOwned, TxTaken, ActivesOk, ActivationOf;
    ApprovalStatus(votes, c);
    StillOwned(s, c, RecomputedStatus(votes, c), ActivationOf(s, c));
    if Activates(votes, c) && TxTaken(s, c.txHash) {
      TakenAway(s, c, RecomputedStatus(votes, c), ActivationOf(s, c));
    }
  }

  lemma ExecuteOwnsFreezes(s: State, c: SanctionCase)
    requires KeyedCases(s.cases) && KeyedFreezes(s.freezes) && FreezesOk(s.cases, s.freezes) && FreezesOwned(s.cases, s.freezes)
    requires c.caseId in s.cases && s.cases[c.caseId] == c && c.status == Approved
    ensures FreezesOwned(s.cases[c.caseId := c.(status := Executed, executedAt := s.height)], FrozenAfter(s, c))
            <==> !(c.action == FreezeAddress && c.target in s.freezes)
  {
    var cases, freezes := s.cases[c.caseId := c.(status := Executed, executedAt := s.height)], FrozenAfter(s, c);
    if c.action == FreezeAddress && c.target in s.freezes {
      var owner := s.freezes[c.target].caseId;
      assert FreezeOk(s.cases, s.freezes[c.target]);
      assert cases[owner].status == Executed && cases[owner].target == c.target && owner != c.caseId;
    }
  }

  lemma ExecuteOwnsSanctions(s: State, c: SanctionCase)
    requires KeyedCases(s.cases) && SanctionsOwned(s.cases, s.activeTxs)
    requires c.caseId in s.cases && s.cases[c.caseId] == c && c.status == Approved
    ensures SanctionsOwned(s.cases[c.caseId := c.(status := Executed, executedAt := s.height)], ActiveAfter(s, c))
  {
  }

  lemma ExecuteCanonical(env: Env, s: State, c: SanctionCase)
    requires FreezesCanonical(env, s.freezes)
    ensures FreezesCanonical(env, FrozenAfter(s, c)) <==> !(c.action == FreezeAddress && env.account(c.target) != c.target)
  {
  }

  lemma RevokeOwned(env: Env, s: State, c: SanctionCase, review: ReviewRecord, reason: string)
    requires KeyedCases(s.cases) && c.caseId in s.cases && s.cases[c.caseId] == c
    ensures var s' := RevokeEffect(s, c, review, reason);
      && (FreezesOwned(s.cases, s.freezes) ==> FreezesOwned(s'.cases, s'.freezes))
      && (SanctionsOwned(s.cases, s.activeTxs) ==> SanctionsOwned(s'.cases, s'.activeTxs))
      && (FreezesCanonical(env, s.freezes) ==> FreezesCanonical(env, s'.freezes))
  {
    hide IndexByTx, IndexByAddress;
  }

  // ---- one accepted message

  lemma VoteHolds(env: Env, claim: Claim, s: State, m: Msg, bankOk: bool)
    requires Inv(env, s) && Holds(env, claim, s) && m.SubmitVote? && HandleError(env, s, m, bankOk).None?
    ensures Holds(env, claim, HandleEffect(env, s, m, bankOk)) <==> !Breaks(env, claim, s, m)
  {
    hide VoteError, VoteEffect, FreezesOwned, SanctionsOwned, FreezesCanonical, TxTaken, Activates, VoteOk, RecomputedStatus;
    DecidedParts(env, s);
    assert EffectsOk(s);
    hide Inv, EffectsOk, FreezesOk, ActivesOk;
    assert ActivesOk(s.cases, s.votes, s.activeTxs) by { EffectParts(s); }
    AcceptedVote(env, s, m);
    var v := m.vote.value;
    var c := s.cases[v.caseId];
    VoteTables(s, v);
    if claim.OwnFreezes? {
      assert RecomputedStatus(VoteEffect(s, v).votes, c) != Executed by { NotByVote(VoteEffect(s, v).votes, c); }
      KeyedAt(s, v.caseId);
      VoteOwnsFreezes(s.cases, s.freezes, c, RecomputedStatus(VoteEffect(s, v).votes, c));
    }
    if claim.OwnSanctions? { VoteOwnsSanctions(s, v); }
  }

  lemma EffectParts(s: State)
    requires EffectsOk(s)
    ensures ActivesOk(s.cases, s.votes, s.activeTxs) && FreezesOk(s.cases, s.freezes)
  {
  }

  lemma NotByVote(votes: Votes, c: SanctionCase)
    requires c.status in {Pending, Approved}
    ensures RecomputedStatus(votes, c) != Executed
  {
    hide QuorumMet, RejectionMet;
  }

  lemma ExecuteHolds(env: Env, claim: Claim, s: State, m: Msg, bankOk: bool)
    requires Inv(env, s) && Holds(env, claim, s) && m.Execute? && HandleError(env, s, m, bankOk).None?
    ensures Holds(env, claim, HandleEffect(env, s, m, bankOk)) <==> !Breaks(env, claim, s, m)
  {
    hide ExecuteError, ExecuteEffect, FreezesOwned, SanctionsOwned, FreezesCanonical, ExecutionOf, Settleable, UnsettledError;
    InvOwners(env, s);
    hide Inv, FreezesOk;
    ExecuteFacts(env, s, m, bankOk);
    KeyedAt(s, m.caseId);
    hide Keyed;
    var c := s.cases[m.caseId];
    ExecuteTables(env, s, c, ExecutionOf(env, s, c, m.executor, m.resultMessage));
    ClaimThroughExecution(env, claim, s, c);
  }

  lemma InvOwners(env: Env, s: State)
    requires Inv(env, s)
    ensures Keyed(s) && KeyedCases(s.cases) && KeyedFreezes(s.freezes) && FreezesOk(s.cases, s.freezes)
  {
    DecidedParts(env, s);
    assert EffectsOk(s);
  }

  lemma ClaimThroughExecution(env: Env, claim: Claim, s: State, c: SanctionCase)
    requires KeyedCases(s.cases) && KeyedFreezes(s.freezes) && FreezesOk(s.cases, s.freezes) && Holds(env, claim, s)
    requires c.caseId in s.cases && s.cases[c.caseId] == c && c.status == Approved
    ensures var cases := s.cases[c.caseId := c.(status := Executed, executedAt := s.height)];
      match claim
      case OwnFreezes => FreezesOwned(cases, FrozenAfter(s, c)) <==> !(c.action == FreezeAddress && c.target in s.freezes)
      case OwnSanctions => SanctionsOwned(cases, ActiveAfter(s, c))
      case CanonicalFreezes =>
        FreezesCanonical(env, FrozenAfter(s, c)) <==> !(c.action == FreezeAddress && env.account(c.target) != c.target)
  {
    match claim {
      case OwnFreezes => ExecuteOwnsFreezes(s, c);
      case OwnSanctions => ExecuteOwnsSanctions(s, c);
      case CanonicalFreezes => ExecuteCanonical(env, s, c);
    }
  }

  lemma OpenHolds(env: Env, claim: Claim, s: State, m: Msg)
    requires Inv(env, s) && Holds(env, claim, s) && m.OpenCase? && OpenCaseError(env, s, m).None?
    ensures m.previous != "" ==> m.previous in s.cases
    ensures Holds(env, claim, OpenEffect(s, m.previous, NewCase(env, s, m)))
  {
    OpenFacts(env, s, m);
    NewCaseFields(env, s, m);
    DecidedParts(env, s);
    if m.previous != "" { ReplacementLink(env, s, m); }
    hide Inv, OpenCaseError, OpenEffect, NewCase, FreezesOwned, SanctionsOwned, FreezesCanonical, Keyed;
    OpenOwned(s, m.previous, NewCase(env, s, m));
  }

  lemma RevokeHolds(env: Env, claim: Claim, s: State, m: Msg)
    requires KeyedCases(s.cases) && Holds(env, claim, s) && m.Revoke? && RevokeError(env, s, m).None?
    ensures m.caseId in s.cases && m.caseId in s.reviews
    ensures Holds(env, claim, RevokeEffect(s, s.cases[m.caseId], s.reviews[m.caseId], m.reason))
  {
    hide RevokeEffect, FreezesOwned, SanctionsOwned, FreezesCanonical;
    RevokeOwned(env, s, s.cases[m.caseId], s.reviews[m.caseId], m.reason);
  }

  lemma OtherHolds(env: Env, claim: Claim, s: State, m: Msg, bankOk: bool)
    requires Holds(env, claim, s) && HandleError(env, s, m, bankOk).None?
    requires !m.OpenCase? && !m.SubmitVote? && !m.Execute? && !m.Revoke?
    ensures Holds(env, claim, HandleEffect(env, s, m, bankOk))
  {
    hide HandleEffect, HandleError, FreezesOwned, SanctionsOwned, FreezesCanonical;
    OtherMessages(env, s, m, bankOk);
  }

  lemma OnlyTheseBreak(env: Env, claim: Claim, s: State, m: Msg)
    requires !m.SubmitVote? && !m.Execute?
    ensures !Breaks(env, claim, s, m)
  {
  }

  /** An accepted message keeps each claim, except exactly the messages that break it. */
  lemma MessageHolds(env: Env, claim: Claim, s: State, m: Msg, bankOk: bool)
    requires Inv(env, s) && Holds(env, claim, s) && HandleError(env, s, m, bankOk).None?
    ensures Holds(env, claim, HandleEffect(env, s, m, bankOk)) <==> !Breaks(env, claim, s, m)
  {
    hide Holds, Breaks, OpenCaseError, OpenEffect, NewCase, RevokeError, RevokeEffect;
    if m.SubmitVote? {
      hide Inv, HandleEffect, HandleError;
      VoteHolds(env, claim, s, m, bankOk);
    } else if m.Execute? {
      hide Inv, HandleEffect, HandleError;
      ExecuteHolds(env, claim, s, m, bankOk);
    } else {
      OnlyTheseBreak(env, claim, s, m);
      if m.OpenCase? {
        hide Inv;
        OpenHolds(env, claim, s, m);
      } else if m.Revoke? {
        DecidedParts(env, s);
        hide Inv;
        RevokeHolds(env, claim, s, m);
      } else {
        hide Inv, HandleEffect, HandleError;
        OtherHolds(env, claim, s, m, bankOk);
      }
    }
  }

  // ---- whole runs

  ghost predicate EventBreaks(env: Env, claim: Claim, e: Event)
  {
    e.change.Accepted? && Breaks(env, claim, e.before, e.change.call.msg)
  }

  lemma EventHolds(env: Env, claim: Claim, e: Event)
    requires Inv(env, e.before) && EventOk(env, e) && Holds(env, claim, e.before)
    ensures Holds(env, claim, e.after) <==> !EventBreaks(env, claim, e)
  {
    hide Inv, Breaks, FreezesOwned, SanctionsOwned, FreezesCanonical, HandleError, HandleEffect, Sound;
    if e.change.Accepted? {
      MessageHolds(env, claim, e.before, e.change.call.msg, e.change.call.bankOk);
      hide Holds;
    }
  }

  /** The claim holds in every state on the way, those between the messages of a tx included. */
  ghost predicate AlwaysHolds(env: Env, claim: Claim, s: State, es: seq<Event>)
  {
    Holds(env, claim, s) && forall i :: 0 <= i < |es| ==> Holds(env, claim, es[i].after)
  }

  ghost predicate NeverBroken(env: Env, claim: Claim, es: seq<Event>)
  {
    forall i :: 0 <= i < |es| ==> !EventBreaks(env, claim, es[i])
  }

  lemma {:induction false} HoldsUpTo(env: Env, claim: Claim, s: State, es: seq<Event>, s': State, k: nat)
    requires Path(env, s, es, s') && Holds(env, claim, s) && NeverBroken(env, claim, es) && k < |es|
    ensures Holds(env, claim, es[k].before) && Holds(env, claim, es[k].after)
  {
    hide Inv, EventOk, Holds, EventBreaks;
    if k > 0 { HoldsUpTo(env, claim, s, es, s', k - 1); }
    EventHolds(env, claim, es[k]);
  }

  lemma PathHolds(env: Env, claim: Claim, s: State, es: seq<Event>, s': State)
    requires Path(env, s, es, s') && Holds(env, claim, s)
    ensures AlwaysHolds(env, claim, s, es) <==> NeverBroken(env, claim, es)
  {
    hide Inv, EventOk, Holds, EventBreaks;
    if NeverBroken(env, claim, es) {
      forall i | 0 <= i < |es| ensures Holds(env, claim, es[i].after) { HoldsUpTo(env, claim, s, es, s', i); }
    }
    if AlwaysHolds(env, claim, s, es) {
      forall i | 0 <= i < |es| ensures !EventBreaks(env, claim, es[i]) {
        assert es[i].before == if i == 0 then s else es[i - 1].after;
        EventHolds(env, claim, es[i]);
      }
    }
  }

  lemma FreshHolds(env: Env, claim: Claim, s: State)
    requires Fresh(s)
    ensures Holds(env, claim, s)
  {
  }

  /**
   * Over every run of a fresh chain. Executed freeze cases own their freezes throughout if and only if no accepted
   * execution of a freeze case finds its target frozen already. Approved and executed block cases own their sanctions
   * throughout if and only if no vote approves a block case whose tx an approved or executed case has sanctioned.
   * Freezes stay canonical if and only if no freeze case with another spelling of its target is executed.
   */
  lemma OwnershipExact(env: Env, s0: State, steps: seq<Step>, claim: Claim)
    requires Fresh(s0) && Keyed(s0) && RunOk(env, s0, steps)
    ensures AlwaysHolds(env, claim, s0, EventsOf(env, s0, steps)) <==> NeverBroken(env, claim, EventsOf(env, s0, steps))
    ensures AlwaysHolds(env, claim, s0, EventsOf(env, s0, steps)) ==> Holds(env, claim, Run(env, s0, steps))
  {
    FreshInv(env, s0);
    FreshHolds(env, claim, s0);
    hide Fresh, Inv, Holds, RunOk, NeverBroken, Keyed, EventsOf, Run, EventOk;
    RunPath(env, s0, steps);
    PathHolds(env, claim, s0, EventsOf(env, s0, steps), Run(env, s0, steps));
  }

  /** Revoking the case that took a freeze over lifts it, although the first case is still executed. */
  lemma RevocationLiftsTakenFreeze(env: Env, s: State, m: Msg, bankOk: bool, first: string)
    requires Inv(env, s) && m.Revoke? && RevokeError(env, s, m).None?
    requires first in s.cases && s.cases[first].action == FreezeAddress && s.cases[first].status == Executed && first != m.caseId
    requires s.cases[first].target in s.freezes && s.freezes[s.cases[first].target].caseId == m.caseId
    ensures var s' := HandleEffect(env, s, m, bankOk);
      && s.cases[first].target !in s'.freezes && first in s'.cases && s'.cases[first].status == Executed
  {
    CaseTheorems.RevocationIsLocal(env, s, m, bankOk);
    hide Inv, HandleEffect, RevokeError;
  }

  // ---- what a freeze stops

  /** The account may not send to anyone. */
  ghost predicate StopsSends(s: State, account: string)
  {
    forall to: string :: SendError(s, account, to, None).Some?
  }

  /** No bank message then moves anything out of the account. */
  lemma StoppedMessages(env: Env, s: State, account: string, m: Msg, bankOk: bool)
    requires StopsSends(s, account) && m.Send? && env.account(m.from) == account
    ensures HandleError(env, s, m, bankOk).Some?
  {
    assert SendError(s, account, env.account(m.to), None).Some?;
    hide StopsSends, CoinsValid;
  }

  lemma SomeoneElse(s: State) returns (to: string)
    ensures to !in s.freezes
  {
    to := Longer(s.freezes.Keys);
  }

  lemma {:induction false} Longer(names: set<string>) returns (x: string)
    ensures x !in names && forall y :: y in names ==> |y| < |x|
    decreases |names|
  {
    if names == {} {
      x := "";
    } else {
      var y :| y in names;
      var z := Longer(names - {y});
      x := z + y + "x";
    }
  }

  /** All sends of an account are stopped if and only if its canonical text is filed, whoever the recipient. */
  lemma StopsExactly(s: State, account: string)
    ensures StopsSends(s, account) <==> account in s.freezes
  {
    if account !in s.freezes {
      var to := SomeoneElse(s);
      assert SendError(s, account, to, None).None?;
    }
  }

  /** An executed freeze case whose freeze is its own. */
  ghost predicate InForce(s: State, id: string)
  {
    && id in s.cases && s.cases[id].action == FreezeAddress && s.cases[id].status == Executed
    && s.cases[id].target in s.freezes && s.freezes[s.cases[id].target].caseId == id
  }

  ghost predicate NamesCanonically(s: State, d: string, account: string)
  {
    InForce(s, d) && s.cases[d].target == account
  }

  /** Whatever is frozen is the target of a freeze case in force, to the letter. */
  lemma FreezeNamed(env: Env, s: State, account: string)
    requires Inv(env, s)
    ensures account in s.freezes <==> exists d :: NamesCanonically(s, d, account)
  {
    DecidedParts(env, s);
    assert EffectsOk(s);
    hide Inv;
    if account in s.freezes {
      assert FreezeOk(s.cases, s.freezes[account]);
      assert NamesCanonically(s, s.freezes[account].caseId, account);
    }
  }

  /** What the freeze of a target stops, for the account that the target's text stands for. */
  ghost predicate StoppedExactly(env: Env, s: State, target: string)
  {
    var account := env.account(target);
    && (forall to: string :: SendError(s, account, to, None).Some? <==> account in s.freezes || to in s.freezes)
    && (StopsSends(s, account) <==> account in s.freezes)
    && (StopsSends(s, account) <==> exists d :: NamesCanonically(s, d, account))
    && (target == account && target in s.freezes ==> StopsSends(s, account))
  }

  lemma FreezeStops(env: Env, s: State, target: string)
    requires Inv(env, s)
    ensures StoppedExactly(env, s, target)
  {
    StopsExactly(s, env.account(target));
    FreezeNamed(env, s, env.account(target));
    hide Inv, StopsSends, NamesCanonically;
  }

  /**
   * In every reachable state, a freeze case in force stops all sends of its target's account if and only if the
   * canonical text of that account is frozen, which is when some freeze case in force names its target canonically.
   * So a freeze whose case names its target canonically does what it promises.
   */
  lemma FreezeStopsSends(env: Env, s0: State, steps: seq<Step>, id: string)
    requires Fresh(s0) && Keyed(s0) && RunOk(env, s0, steps) && InForce(Run(env, s0, steps), id)
    ensures StoppedExactly(env, Run(env, s0, steps), Run(env, s0, steps).cases[id].target)
    ensures NamesCanonically(Run(env, s0, steps), id, env.account(Run(env, s0, steps).cases[id].target)) ==>
      StopsSends(Run(env, s0, steps), env.account(Run(env, s0, steps).cases[id].target))
  {
    RunInv(env, s0, steps);
    var s := Run(env, s0, steps);
    hide Run, RunOk, Fresh, Keyed, Inv;
    FreezeStops(env, s, s.cases[id].target);
    hide StopsSends;
  }
}
