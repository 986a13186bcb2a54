/** What the daemon decides at one height still holds when the chain handles the message at a later one. */
module Renewal {
  import opened Basics
  import opened Types
  import opened Store
  import opened Handlers
  import opened Frames
  import opened Chain
  import opened Electorate
  import opened Replacement
  import opened Runs
  import opened Events
  import CaseTheorems
  import Rounds

  /** Out of voting without a decision: closed, or pending past its deadline. */
  ghost predicate Lapsed(s: State, id: string)
  {
    && id in s.cases
    && (s.cases[id].status in {Expired, Revoked} || (s.cases[id].status == Pending && s.cases[id].deadline < s.height))
  }

  lemma VoteLapsed(env: Env, s: State, m: Msg, id: string)
    requires KeyedCases(s.cases) && m.SubmitVote? && VoteError(env, s, m).None? && Lapsed(s, id)
    ensures m.vote.Some? && m.vote.value.caseId in s.cases && Lapsed(VoteEffect(s, m.vote.value), id)
  {
    AcceptedVote(env, s, m);
    var v := m.vote.value;
    VoteTables(s, v);
    VoteContext(s, v);
    hide VoteError, VoteEffect, VoteOk, RecomputedStatus;
  }

  lemma ExecuteLapsed(env: Env, s: State, c: SanctionCase, record: ExecutionRecord, id: string)
    requires c.caseId in s.cases && s.cases[c.caseId] == c && c.status == Approved && Lapsed(s, id)
    requires Monetary(c.action) ==> Settleable(env, s, c)
    ensures Lapsed(ExecuteEffect(env, s, c, record), id)
  {
    ExecuteTables(env, s, c, record);
    ExecuteContext(env, s, c, record);
    hide ExecuteEffect, Settleable;
  }

  lemma OpenLapsed(s: State, previous: string, c: SanctionCase, id: string)
    requires KeyedCases(s.cases) && (previous != "" ==> previous in s.cases && s.cases[previous].status in {Pending, Approved, Expired})
    requires c.caseId !in s.cases && Lapsed(s, id)
    ensures Lapsed(OpenEffect(s, previous, c), id)
  {
    OpenTables(s, previous, c);
    hide OpenEffect;
  }

  lemma RevokeLapsed(s: State, c: SanctionCase, review: ReviewRecord, reason: string, id: string)
    requires KeyedCases(s.cases) && c.caseId in s.cases && s.cases[c.caseId] == c && Lapsed(s, id)
    ensures Lapsed(RevokeEffect(s, c, review, reason), id)
  {
    hide IndexByTx, IndexByAddress, WithoutActive, WithoutFreeze;
  }

  lemma OpeningLapsed(env: Env, s: State, m: Msg, bankOk: bool, id: string)
    requires Inv(env, s) && m.OpenCase? && HandleError(env, s, m, bankOk).None? && Lapsed(s, id)
    ensures Lapsed(HandleEffect(env, s, m, bankOk), id)
  {
    DecidedParts(env, s);
    OpenFacts(env, s, m);
    NewCaseFields(env, s, m);
    if m.previous != "" { ReplacementLink(env, s, m); }
    hide Inv, Lapsed, OpenCaseError, OpenEffect, NewCase, Keyed;
    OpenLapsed(s, m.previous, NewCase(env, s, m), id);
  }

  lemma ExecutionLapsed(env: Env, s: State, m: Msg, bankOk: bool, id: string)
    requires KeyedCases(s.cases) && m.Execute? && HandleError(env, s, m, bankOk).None? && Lapsed(s, id)
    ensures Lapsed(HandleEffect(env, s, m, bankOk), id)
  {
    hide Lapsed, ExecuteError, ExecuteEffect, ExecutionOf, Settleable, UnsettledError;
    ExecuteFacts(env, s, m, bankOk);
    var c := s.cases[m.caseId];
    ExecuteLapsed(env, s, c, ExecutionOf(env, s, c, m.executor, m.resultMessage), id);
  }

  lemma RevocationLapsed(env: Env, s: State, m: Msg, bankOk: bool, id: string)
    requires KeyedCases(s.cases) && m.Revoke? && HandleError(env, s, m, bankOk).None? && Lapsed(s, id)
    ensures Lapsed(HandleEffect(env, s, m, bankOk), id)
  {
    hide Lapsed, RevokeEffect;
    RevokeLapsed(s, s.cases[m.caseId], s.reviews[m.caseId], m.reason, id);
  }

  lemma MessageLapsed(env: Env, s: State, m: Msg, bankOk: bool, id: string)
    requires Inv(env, s) && HandleError(env, s, m, bankOk).None? && Lapsed(s, id)
    ensures Lapsed(HandleEffect(env, s, m, bankOk), id)
  {
    hide Lapsed, Keyed, VoteError, VoteEffect;
    DecidedParts(env, s);
    if m.SubmitVote? {
      hide Inv;
      VoteLapsed(env, s, m, id);
    } else {
      hide HandleEffect, HandleError;
      if m.OpenCase? {
        OpeningLapsed(env, s, m, bankOk, id);
      } else if m.Execute? {
        ExecutionLapsed(env, s, m, bankOk, id);
      } else if m.Revoke? {
        RevocationLapsed(env, s, m, bankOk, id);
      } else {
        OtherLapsed(env, s, m, bankOk, id);
      }
      hide Inv;
    }
  }

  lemma OtherLapsed(env: Env, s: State, m: Msg, bankOk: bool, id: string)
    requires HandleError(env, s, m, bankOk).None? && Lapsed(s, id)
    requires !m.OpenCase? && !m.SubmitVote? && !m.Execute? && !m.Revoke?
    ensures Lapsed(HandleEffect(env, s, m, bankOk), id)
  {
    hide HandleEffect, HandleError;
    OtherMessages(env, s, m, bankOk);
    HandleContext(env, s, m, bankOk);
  }

  lemma EventLapsed(env: Env, e: Event, id: string)
    requires Inv(env, e.before) && EventOk(env, e) && Lapsed(e.before, id)
    ensures Lapsed(e.after, id)
  {
    hide Inv, HandleError, HandleEffect, Keyed;
    if e.change.Accepted? {
      hide Lapsed;
      MessageLapsed(env, e.before, e.change.call.msg, e.change.call.bankOk, id);
    } else {
      ExtendsCases(e.before, e.after);
      hide Sound;
    }
  }

  lemma {:induction false} PathLapsed(env: Env, s: State, es: seq<Event>, s': State, id: string, k: nat)
    requires Path(env, s, es, s') && Lapsed(s, id) && k < |es|
    ensures Lapsed(es[k].before, id) && Lapsed(es[k].after, id)
  {
    hide Inv, EventOk, Lapsed;
    if k > 0 { PathLapsed(env, s, es, s', id, k - 1); }
    EventLapsed(env, es[k], id);
  }

  /** A case that voting has left undecided is never decided afterwards. */
  lemma LapsedForGood(env: Env, s: State, steps: seq<Step>, id: string)
    requires Inv(env, s) && RunOk(env, s, steps) && Lapsed(s, id)
    ensures Lapsed(Run(env, s, steps), id)
  {
    hide Inv, Lapsed, Run, RunOk, EventsOf, EventOk;
    RunPath(env, s, steps);
    var es := EventsOf(env, s, steps);
    if es != [] { PathLapsed(env, s, es, Run(env, s, steps), id, |es| - 1); }
  }

  /** What the daemon found replaceable stays replaceable over every further run, unless it is revoked meanwhile. */
  lemma ReplaceableLasts(env: Env, s: State, steps: seq<Step>, id: string)
    requires Inv(env, s) && RunOk(env, s, steps) && id in s.cases
    requires s.cases[id].reportIds != [] && s.cases[id].reportIds[0] in s.reports
    requires Rounds.Replaceable(s.cases[id], s.reports[s.cases[id].reportIds[0]], s.height)
    ensures var s' := Run(env, s, steps); var r := s.reports[s.cases[id].reportIds[0]];
      && id in s'.cases && s'.cases[id].reportIds == s.cases[id].reportIds && s'.cases[id].targetType == s.cases[id].targetType
      && s.cases[id].reportIds[0] in s'.reports && s'.reports[s.cases[id].reportIds[0]] == r
      && (Rounds.Replaceable(s'.cases[id], r, s'.height) || s'.cases[id].status == Revoked)
  {
    InvKeyed(env, s);
    RunSound(env, s, steps);
    if Lapsed(s, id) { LapsedForGood(env, s, steps, id); }
    hide Inv, Run, RunOk, Keyed;
  }

  /**
   * The daemon reads the chain at one height and prepares a round; the chain handles it at the end of any further
   * run. If the case is still unfinished and without successor then, and the new evidence is newer evidence of the
   * same transfer, the replacement is accepted.
   */
  lemma RenewalIsAcceptedLater(env: Env, s: State, steps: seq<Step>, id: string, next: RiskReport)
    requires Inv(env, s) && RunOk(env, s, steps) && id in s.cases && s.cases[id].targetType == AddressTarget
    requires s.cases[id].reportIds != [] && s.cases[id].reportIds[0] in s.reports
    requires Rounds.Replaceable(s.cases[id], s.reports[s.cases[id].reportIds[0]], s.height)
    requires var s' := Run(env, s, steps); var r := s.reports[s.cases[id].reportIds[0]];
      && (id in s'.cases ==> !Rounds.Finished(s'.cases[id]) && next.txHash == s'.cases[id].txHash)
      && !HasSuccessor(s', next.txHash, id)
      && SameTransfer(r, next) && next.reportId != r.reportId && r.observed < next.observed <= s'.height
    ensures ReplacementError(Run(env, s, steps), id, next, AddressTarget).None?
  {
    var s' := Run(env, s, steps);
    ReplaceableLasts(env, s, steps, id);
    RunPath(env, s, steps);
    InvKeyed(env, s');
    KeyedAt(s', id);
    hide Inv, Run, RunOk, Keyed, HasSuccessor, ReplacementError, Path, EventsOf;
    Rounds.RenewalIsAccepted(env, s', s'.cases[id], next);
  }
}
