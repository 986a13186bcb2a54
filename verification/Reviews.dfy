/** Revocation needs an earlier review, and a revoked case stays documented. */
module Reviews {
  import opened Basics
  import opened Types
  import opened Store
  import opened Handlers
  import opened Frames
  import opened Electorate
  import opened Chain
  import opened Replacement
  import opened CaseTheorems
  import Closure
  import RegistrySync
  import Runs

  type Cases = map<string, SanctionCase>
  type Records = map<string, ReviewRecord>

  /** A case is revoked exactly when its review says so, and the review came first, at a lower height. */
  ghost predicate ReviewOk(reviews: Records, height: Height, id: string, status: Status)
  {
    && (status == Revoked <==> id in reviews && reviews[id].revokedAt != 0)
    && (id in reviews ==>
          && 1 <= reviews[id].reviewedAt <= height
          && (reviews[id].revokedAt != 0 ==> reviews[id].reviewedAt < reviews[id].revokedAt <= height))
  }

  ghost predicate ReviewsOk(cases: Cases, reviews: Records, height: Height)
  {
    && (forall id :: id in cases ==> ReviewOk(reviews, height, id, cases[id].status))
    && (forall id :: id in reviews ==> id in cases)
  }

  ghost predicate Documented(s: State) { ReviewsOk(s.cases, s.reviews, s.height) }

  /** Steps that leave reviews alone and neither revoke a case nor reopen a revoked one. */
  ghost predicate StaysRevoked(s: State, s': State)
  {
    && s'.reviews == s.reviews && s.height <= s'.height
    && (forall id :: id in s.cases ==> id in s'.cases && (s'.cases[id].status == Revoked <==> s.cases[id].status == Revoked))
    && (forall id :: id in s'.cases && id !in s.cases ==> s'.cases[id].status != Revoked)
  }

  lemma StaysDocumented(s: State, s': State)
    requires Documented(s) && StaysRevoked(s, s')
    ensures Documented(s')
  {
    forall id | id in s'.cases ensures ReviewOk(s'.reviews, s'.height, id, s'.cases[id].status) {
      assert id in s.cases ==> ReviewOk(s.reviews, s.height, id, s.cases[id].status);
    }
  }

  lemma OpenReviews(s: State, previous: string, c: SanctionCase)
    requires previous != "" ==> previous in s.cases
    ensures OpenEffect(s, previous, c).reviews == s.reviews
  {
    hide IndexByTx, IndexByAddress;
  }

  lemma VoteReviews(s: State, v: SanctionVote)
    requires v.caseId in s.cases
    ensures VoteEffect(s, v).reviews == s.reviews
  {
    hide Activates, RecomputedStatus, IndexByTx, IndexByAddress;
  }

  lemma ExecuteReviews(env: Env, s: State, c: SanctionCase, record: ExecutionRecord)
    requires Monetary(c.action) ==> Settleable(env, s, c)
    ensures ExecuteEffect(env, s, c, record).reviews == s.reviews
  {
    hide SettlementMove, CoinsOk, IndexByTx, IndexByAddress, Balance;
  }

  lemma OpenStays(s: State, previous: string, c: SanctionCase)
    requires KeyedCases(s.cases) && c.caseId !in s.cases && c.status == Pending
    requires previous != "" ==> previous in s.cases && s.cases[previous].status in {Pending, Approved, Expired}
    ensures StaysRevoked(s, OpenEffect(s, previous, c))
  {
    OpenTables(s, previous, c);
    OpenReviews(s, previous, c);
    hide OpenEffect;
  }

  lemma VoteStays(s: State, v: SanctionVote)
    requires KeyedCases(s.cases) && v.caseId in s.cases && s.cases[v.caseId].status in {Pending, Approved}
    ensures StaysRevoked(s, VoteEffect(s, v))
  {
    VoteTables(s, v);
    VoteReviews(s, v);
    VoteContext(s, v);
    hide VoteEffect, QuorumMet, RejectionMet;
  }

  lemma ExecuteStays(env: Env, s: State, c: SanctionCase, record: ExecutionRecord)
    requires c.caseId in s.cases && s.cases[c.caseId] == c && c.status == Approved
    requires Monetary(c.action) ==> Settleable(env, s, c)
    ensures StaysRevoked(s, ExecuteEffect(env, s, c, record))
  {
    ExecuteTables(env, s, c, record);
    ExecuteContext(env, s, c, record);
    ExecuteReviews(env, s, c, record);
    hide ExecuteEffect, Settleable;
  }

  lemma ReviewDocumented(env: Env, s: State, m: Msg)
    requires Documented(s) && s.height >= 1 && m.Review? && ReviewError(env, s, m).None?
    ensures Documented(ReviewEffect(s, m))
  {
    var s' := ReviewEffect(s, m);
    forall id | id in s'.cases ensures ReviewOk(s'.reviews, s'.height, id, s'.cases[id].status) {
      assert ReviewOk(s.reviews, s.height, id, s.cases[id].status);
    }
  }

  lemma RevokeDocumented(env: Env, s: State, m: Msg)
    requires Documented(s) && KeyedCases(s.cases) && KeyedReviews(s.reviews) && m.Revoke? && RevokeError(env, s, m).None?
    ensures m.caseId in s.cases && m.caseId in s.reviews
    ensures Documented(RevokeEffect(s, s.cases[m.caseId], s.reviews[m.caseId], m.reason))
  {
    var s' := RevokeEffect(s, s.cases[m.caseId], s.reviews[m.caseId], m.reason);
    assert ReviewOk(s.reviews, s.height, m.caseId, s.cases[m.caseId].status);
    assert s'.reviews == s.reviews[m.caseId := s'.reviews[m.caseId]];
    assert s'.cases == s.cases[m.caseId := s'.cases[m.caseId]];
    hide WithoutActive, WithoutFreeze, IndexByTx, IndexByAddress;
    forall id | id in s'.cases ensures ReviewOk(s'.reviews, s'.height, id, s'.cases[id].status) {
      assert ReviewOk(s.reviews, s.height, id, s.cases[id].status);
    }
  }

  lemma OtherStays(env: Env, s: State, m: Msg, bankOk: bool)
    requires HandleError(env, s, m, bankOk).None?
    requires !m.OpenCase? && !m.SubmitVote? && !m.Execute? && !m.Revoke? && !m.Review?
    ensures StaysRevoked(s, HandleEffect(env, s, m, bankOk))
  {
    Closure.SmallFrames(env, s, m, bankOk);
    HandleContext(env, s, m, bankOk);
    hide HandleEffect, HandleError;
  }

  lemma HandleDocumented(env: Env, s: State, m: Msg, bankOk: bool)
    requires Runs.Inv(env, s) && Documented(s) && HandleError(env, s, m, bankOk).None?
    ensures Documented(HandleEffect(env, s, m, bankOk))
  {
    hide Documented, StaysRevoked, OpenCaseError, VoteError, ExecuteError, RevokeError, ReviewError;
    hide OpenEffect, VoteEffect, ExecuteEffect, RevokeEffect, ReviewEffect, NewCase, ExecutionOf, Settleable, UnsettledError;
    Runs.DecidedParts(env, s);
    KeyedParts(s);
    var s' := HandleEffect(env, s, m, bankOk);
    match m {
      case OpenCase(_, _, _, _, _, _, _, _, _) =>
        OpenFacts(env, s, m);
        NewCaseFields(env, s, m);
        if m.previous != "" { ReplacementLink(env, s, m); }
        hide Runs.Inv;
        OpenStays(s, m.previous, NewCase(env, s, m));
        StaysDocumented(s, s');
      case SubmitVote(_, v) =>
        hide Runs.Inv;
        AcceptedVote(env, s, m);
        VoteStays(s, v.value);
        StaysDocumented(s, s');
      case Execute(executor, id, message) =>
        hide Runs.Inv;
        ExecuteFacts(env, s, m, bankOk);
        KeyedAt(s, id);
        ExecuteStays(env, s, s.cases[id], ExecutionOf(env, s, s.cases[id], executor, message));
        StaysDocumented(s, s');
      case Revoke(_, _, _) => hide Runs.Inv; RevokeDocumented(env, s, m);
      case Review(_, _, _, _) => hide Runs.Inv; ReviewDocumented(env, s, m);
      case _ => hide Runs.Inv, HandleEffect; OtherStays(env, s, m, bankOk); StaysDocumented(s, s');
    }
  }

  lemma {:induction false} CallsDocumented(env: Env, s: State, calls: seq<Call>)
    requires Runs.Inv(env, s) && Documented(s) && RunCalls(env, s, calls).Some?
    ensures Documented(RunCalls(env, s, calls).value)
  {
    hide Runs.Inv, Documented, HandleEffect, HandleError;
    if calls != [] {
      var init, call := calls[..|calls| - 1], calls[|calls| - 1];
      CallsDocumented(env, s, init);
      Runs.RunCallsInv(env, s, init);
      HandleDocumented(env, RunCalls(env, s, init).value, call.msg, call.bankOk);
    }
  }

  lemma StepDocumented(env: Env, s: State, step: Step)
    requires Runs.Inv(env, s) && Documented(s) && StepOk(env, s, step)
    ensures Documented(Apply(env, s, step))
  {
    hide Runs.Inv, RunCalls, RecordTransfers, AnteError;
    match step {
      case DeliverTx(tx) =>
        if AnteError(s, tx).None? && RunCalls(env, s, tx.calls).Some? {
          var s1 := RunCalls(env, s, tx.calls).value;
          CallsDocumented(env, s, tx.calls);
          Runs.RunCallsInv(env, s, tx.calls);
          Runs.InvKeyed(env, s1);
          RecordTransfersOnly(s1, tx, |tx.calls|);
          hide Documented;
          SameDocumented(s1, Deliver(env, s, tx));
        }
      case EndBlock(states) =>
        Closure.SyncOnlyAgents(s, states);
        hide RegistrySync.Sync, Documented;
        SameDocumented(s, RegistrySync.Sync(s, states).state);
      case NextHeight(h) => StaysDocumented(s, s.(height := h));
    }
  }

  lemma SameDocumented(s: State, s': State)
    requires Documented(s) && s'.cases == s.cases && s'.reviews == s.reviews && s'.height == s.height
    ensures Documented(s')
  {
  }

  /**
   * From a fresh chain without reviews, in every state: a case is revoked if and only if its review
   * records a revocation, and every review precedes that revocation by at least one block.
   */
  lemma {:induction false} RevokedAfterReview(env: Env, s0: State, steps: seq<Step>)
    requires Fresh(s0) && Keyed(s0) && s0.reviews == map[] && RunOk(env, s0, steps)
    ensures Documented(Run(env, s0, steps))
  {
    hide Apply, Keyed, Runs.Inv;
    if steps != [] {
      hide Documented;
      var init := steps[..|steps| - 1];
      RevokedAfterReview(env, s0, init);
      Runs.RunInv(env, s0, init);
      StepDocumented(env, Run(env, s0, init), steps[|steps| - 1]);
    }
  }
}
