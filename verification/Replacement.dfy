/** Replacement cases: what links a case to its predecessor. */
module Replacement {
  import opened Basics
  import opened Types
  import opened Store
  import opened Handlers
  import opened Frames
  import opened Electorate
  import opened Evidence
  import SignBytes

  /** The predecessor is closed without execution, on the same transfer, with older evidence. */
  ghost predicate LinkOk(cases: map<string, SanctionCase>, executions: map<string, ExecutionRecord>,
                         reports: Reps, height: Height, c: SanctionCase)
  {
    c.previous != "" ==>
      && c.previous in cases && c.previous !in executions
      && var p := cases[c.previous];
      && p.status in {Expired, Revoked} && p.executedAt == 0
      && c.targetType == AddressTarget && p.targetType == AddressTarget && p.target == c.target && p.txHash == c.txHash
      && c.reportIds != [] && c.reportIds[0] in reports && p.reportIds != [] && p.reportIds[0] in reports
      && SameTransfer(reports[p.reportIds[0]], reports[c.reportIds[0]])
      && reports[p.reportIds[0]].observed < reports[c.reportIds[0]].observed <= height
  }

  ghost predicate LinksOk(s: State)
  {
    forall id :: id in s.cases ==> LinkOk(s.cases, s.executions, s.reports, s.height, s.cases[id])
  }

  /** No case has two successors. */
  ghost predicate OneSuccessor(cases: map<string, SanctionCase>)
  {
    forall a, b :: a in cases && b in cases && cases[a].previous == cases[b].previous && cases[a].previous != "" ==> a == b
  }

  ghost predicate Indexed(cases: map<string, SanctionCase>, byTx: set<(Bytes, string)>)
  {
    forall id :: id in cases ==> (cases[id].txHash, id) in byTx
  }

  ghost predicate ChainsOk(s: State)
  {
    LinksOk(s) && OneSuccessor(s.cases) && Indexed(s.cases, s.casesByTx) && "" !in s.cases
  }

  /** The predecessor and every link into it stay put unless a predecessor itself changes. */
  lemma LinkKept(s: State, s': State, c: SanctionCase, c': SanctionCase)
    requires LinkOk(s.cases, s.executions, s.reports, s.height, c) && SameOpening(c, c')
    requires Grows(s.reports, s'.reports) && s.height <= s'.height
    requires c.previous in s.cases ==> c.previous in s'.cases
    requires c.previous in s.cases ==> SameOpening(s.cases[c.previous], s'.cases[c.previous])
    requires c.previous in s.cases && s.cases[c.previous].status in {Expired, Revoked} ==>
      s'.cases[c.previous].status in {Expired, Revoked} && s'.cases[c.previous].executedAt == s.cases[c.previous].executedAt
    requires c.previous in s.cases && c.previous in s'.executions && s.cases[c.previous].status in {Expired, Revoked}
      ==> c.previous in s.executions
    ensures LinkOk(s'.cases, s'.executions, s'.reports, s'.height, c')
  {
  }

  /** A closed case stays closed and unexecuted. */
  ghost predicate ClosedStay(s: State, s': State)
  {
    && s'.cases.Keys == s.cases.Keys
    && (forall id :: id in s.cases && s.cases[id].status in {Expired, Revoked} ==>
          s'.cases[id].status in {Expired, Revoked} && s'.cases[id].executedAt == s.cases[id].executedAt
          && (id in s'.executions ==> id in s.executions))
  }

  lemma ChainsKept(s: State, s': State)
    requires ChainsOk(s) && Extends(s, s') && ClosedStay(s, s')
    requires forall id :: id in s'.executions ==> id in s.executions || id in s.cases
    ensures ChainsOk(s')
  {
    hide LinkOk;
    forall id | id in s'.cases ensures LinkOk(s'.cases, s'.executions, s'.reports, s'.height, s'.cases[id]) {
      var c := s.cases[id];
      if c.previous != "" {
        assert c.previous in s.cases && s.cases[c.previous].status in {Expired, Revoked} by { LinkPrevious(s, c); }
        LinkKept(s, s', c, s'.cases[id]);
      } else {
        NoLink(s', s'.cases[id]);
      }
    }
  }

  lemma LinkPrevious(s: State, c: SanctionCase)
    requires LinkOk(s.cases, s.executions, s.reports, s.height, c) && c.previous != ""
    ensures c.previous in s.cases && s.cases[c.previous].status in {Expired, Revoked}
  {
  }

  lemma NoLink(s: State, c: SanctionCase)
    requires c.previous == ""
    ensures LinkOk(s.cases, s.executions, s.reports, s.height, c)
  {
  }

  lemma VoteClosed(s: State, v: SanctionVote)
    requires KeyedCases(s.cases) && v.caseId in s.cases && s.cases[v.caseId].status in {Pending, Approved}
    ensures ClosedStay(s, VoteEffect(s, v)) && VoteEffect(s, v).executions == s.executions
  {
    VoteTables(s, v);
    hide VoteEffect, RecomputedStatus;
  }

  lemma ExecuteClosed(env: Env, s: State, c: SanctionCase, record: ExecutionRecord)
    requires c.caseId in s.cases && s.cases[c.caseId] == c && c.status == Approved && record.caseId == c.caseId
    requires Monetary(c.action) ==> Settleable(env, s, c)
    ensures ClosedStay(s, ExecuteEffect(env, s, c, record))
    ensures forall id :: id in ExecuteEffect(env, s, c, record).executions ==> id in s.executions || id in s.cases
  {
    ExecuteTables(env, s, c, record);
    hide ExecuteEffect, Settleable;
  }

  lemma RevokeClosed(s: State, c: SanctionCase, review: ReviewRecord, reason: string)
    requires c.caseId in s.cases && s.cases[c.caseId] == c
    ensures ClosedStay(s, RevokeEffect(s, c, review, reason)) && RevokeEffect(s, c, review, reason).executions == s.executions
  {
  }

  /** What replacing checks: exactly a link, to a case that nothing replaces yet. */
  lemma ReplacementLink(env: Env, s: State, m: Msg)
    requires m.OpenCase? && OpenCaseError(env, s, m).None? && m.previous != ""
    ensures m.previous in s.cases && m.reportIds != [] && m.reportIds[0] in s.reports
    ensures s.cases[m.previous].status in {Pending, Approved, Expired}
    ensures LinkOk(Replaced(s.cases, m.previous), s.executions, s.reports, s.height, NewCase(env, s, m))
    ensures !HasSuccessor(s, m.txHash, m.previous) && s.cases[m.previous].txHash == m.txHash
  {
    AcceptedOpening(env, s, m);
    NewCaseFields(env, s, m);
    OpenedEvidence(env, s, m);
    hide OpenCaseError, NewCase, SnapshotValid, HasSuccessor, Backed;
  }

  lemma OpenChains(s: State, previous: string, c: SanctionCase)
    requires ChainsOk(s) && Keyed(s) && c.caseId !in s.cases && c.previous == previous && c.txHash != [] && c.caseId != ""
    requires previous != "" ==> previous in s.cases && s.cases[previous].txHash == c.txHash && !HasSuccessor(s, c.txHash, previous)
    requires LinkOk(Replaced(s.cases, previous), s.executions, s.reports, s.height, c)
    ensures ChainsOk(OpenEffect(s, previous, c))
  {
    hide LinkOk, HasSuccessor;
    if previous != "" { Unreplaced(s, c.txHash, previous); }
    OpenUnique(s.cases, previous, c);
    OpenTables(s, previous, c);
    OpenIndexed(s, previous, c);
    OpenLinks(s, previous, c);
    hide OpenEffect, Replaced;
  }

  type Cases = map<string, SanctionCase>

  /** The cases after the predecessor is marked. */
  ghost function Replaced(cases: Cases, previous: string): Cases
    requires previous != "" ==> previous in cases
  {
    if previous == "" then cases else cases[previous := cases[previous].(status := Expired)]
  }

  lemma OpenTables(s: State, previous: string, c: SanctionCase)
    requires KeyedCases(s.cases) && (previous != "" ==> previous in s.cases)
    ensures OpenEffect(s, previous, c).cases == Replaced(s.cases, previous)[c.caseId := c]
    ensures OpenEffect(s, previous, c).executions == s.executions
    ensures OpenEffect(s, previous, c).reports == s.reports && OpenEffect(s, previous, c).height == s.height
  {
    hide IndexByTx, IndexByAddress;
  }

  lemma MetUnderOwnHash(entry: (Bytes, string))
    ensures MetUnder(entry.0, entry)
  {
    assert entry.0 + [0] + SignBytes.Raw(entry.1) == entry.0 + ([0] + SignBytes.Raw(entry.1));
  }

  lemma Unreplaced(s: State, txHash: Bytes, previous: string)
    requires LinksOk(s) && Indexed(s.cases, s.casesByTx) && previous != "" && !HasSuccessor(s, txHash, previous)
    requires previous in s.cases && s.cases[previous].txHash == txHash
    ensures forall id :: id in s.cases ==> s.cases[id].previous != previous
  {
    forall id | id in s.cases ensures s.cases[id].previous != previous {
      assert LinkOk(s.cases, s.executions, s.reports, s.height, s.cases[id]);
      var entry := (s.cases[id].txHash, id);
      assert entry in s.casesByTx;
      if s.cases[id].txHash == txHash { MetUnderOwnHash(entry); }
    }
  }

  lemma OpenUnique(cases: Cases, previous: string, c: SanctionCase)
    requires OneSuccessor(cases) && c.caseId !in cases && c.previous == previous
    requires previous != "" ==> previous in cases && forall id :: id in cases ==> cases[id].previous != previous
    ensures OneSuccessor(Replaced(cases, previous)[c.caseId := c])
  {
  }

  lemma OpenIndexed(s: State, previous: string, c: SanctionCase)
    requires Indexed(s.cases, s.casesByTx) && KeyedCases(s.cases) && c.txHash != []
    requires previous != "" ==> previous in s.cases
    ensures Indexed(OpenEffect(s, previous, c).cases, OpenEffect(s, previous, c).casesByTx)
  {
  }

  /** Marking a predecessor and adding a case preserves a link. */
  lemma LinkThroughOpen(cases: Cases, executions: map<string, ExecutionRecord>, reports: Reps, height: Height,
                        previous: string, c: SanctionCase, d: SanctionCase)
    requires LinkOk(cases, executions, reports, height, d) && c.caseId !in cases
    requires previous != "" ==> previous in cases
    ensures LinkOk(Replaced(cases, previous)[c.caseId := c], executions, reports, height, d)
    ensures LinkOk(Replaced(cases, previous)[c.caseId := c], executions, reports, height, d.(status := Expired))
  {
  }

  lemma OpenLinks(s: State, previous: string, c: SanctionCase)
    requires LinksOk(s) && KeyedCases(s.cases) && c.caseId !in s.cases && c.previous == previous && c.caseId != ""
    requires previous != "" ==> previous in s.cases
    requires LinkOk(Replaced(s.cases, previous), s.executions, s.reports, s.height, c)
    ensures LinksOk(OpenEffect(s, previous, c))
  {
    OpenTables(s, previous, c);
    forall d | d in s.cases.Values
      ensures LinkOk(Replaced(s.cases, previous)[c.caseId := c], s.executions, s.reports, s.height, d)
      ensures LinkOk(Replaced(s.cases, previous)[c.caseId := c], s.executions, s.reports, s.height, d.(status := Expired))
    {
      LinkThroughOpen(s.cases, s.executions, s.reports, s.height, previous, c, d);
    }
    LinkThroughOpen(Replaced(s.cases, previous), s.executions, s.reports, s.height, "", c, c);
    hide LinkOk, OpenEffect;
  }
}
