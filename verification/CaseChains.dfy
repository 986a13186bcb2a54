/** The shape of replacement chains in every state that a fresh chain reaches. */
module CaseChains {
  import opened Basics
  import opened Types
  import opened Store
  import opened Handlers
  import opened Frames
  import opened Chain
  import opened Electorate
  import opened Evidence
  import opened Replacement
  import opened Runs
  import opened Effects

  /** Each case after the first names the one before it as its predecessor. */
  ghost predicate IsChain(s: State, ids: seq<string>)
  {
    && ids != [] && (forall i :: 0 <= i < |ids| ==> ids[i] in s.cases)
    && (forall i :: 0 < i < |ids| ==> s.cases[ids[i]].previous == ids[i - 1])
  }

  /** A chain that starts at a case with no predecessor. */
  ghost predicate Rooted(s: State, ids: seq<string>)
  {
    IsChain(s, ids) && s.cases[ids[0]].previous == ""
  }

  ghost function Primary(s: State, id: string): RiskReport
    requires id in s.cases && s.cases[id].reportIds != [] && s.cases[id].reportIds[0] in s.reports
  {
    s.reports[s.cases[id].reportIds[0]]
  }

  ghost predicate HasPrimary(s: State, id: string)
  {
    id in s.cases && s.cases[id].reportIds != [] && s.cases[id].reportIds[0] in s.reports
  }

  ghost predicate AllPrimary(s: State) { forall id :: id in s.cases ==> HasPrimary(s, id) }

  lemma PrimaryExists(env: Env, s: State)
    requires AllEvidence(env, s)
    ensures AllPrimary(s)
  {
    forall id | id in s.cases ensures HasPrimary(s, id) {
      assert EvidenceOk(env, s.reports, s.receipts, s.height, s.cases[id]);
    }
  }

  /** Closed for good: never executed, and out of voting and execution. */
  ghost predicate Closed(s: State, id: string)
  {
    id in s.cases && s.cases[id].status in {Expired, Revoked} && s.cases[id].executedAt == 0 && id !in s.executions
  }

  lemma StepDown(s: State, id: string)
    requires ChainsOk(s) && AllPrimary(s) && id in s.cases && s.cases[id].previous != ""
    ensures var p := s.cases[id].previous;
      && p in s.cases && Closed(s, p) && SameTransfer(Primary(s, p), Primary(s, id))
      && s.cases[p].txHash == s.cases[id].txHash && s.cases[p].target == s.cases[id].target
      && Primary(s, p).observed < Primary(s, id).observed <= s.height
  {
    assert HasPrimary(s, id);
    assert LinkOk(s.cases, s.executions, s.reports, s.height, s.cases[id]);
  }

  /** Along a chain the evidence gets strictly newer and the transfer stays the same. */
  lemma {:induction false} ChainOrder(s: State, ids: seq<string>, i: nat, j: nat)
    requires ChainsOk(s) && AllPrimary(s) && IsChain(s, ids) && i < j < |ids|
    ensures Closed(s, ids[i]) && SameTransfer(Primary(s, ids[i]), Primary(s, ids[j]))
    ensures s.cases[ids[i]].txHash == s.cases[ids[j]].txHash
    ensures Primary(s, ids[i]).observed + (j - i) <= Primary(s, ids[j]).observed <= s.height
  {
    assert ids[j] in s.cases && ids[j - 1] in s.cases;
    StepDown(s, ids[j]);
    if i < j - 1 { ChainOrder(s, ids, i, j - 1); }
  }

  ghost predicate ChainShape(s: State, ids: seq<string>)
  {
    && |ids| <= s.height + 1
    && (forall i, j :: 0 <= i < j < |ids| ==> ids[i] != ids[j])
    && (forall i :: 0 <= i < |ids| - 1 ==> Closed(s, ids[i]))
    && (forall i, j :: 0 <= i < j < |ids| ==>
          && HasPrimary(s, ids[i]) && HasPrimary(s, ids[j])
          && SameTransfer(Primary(s, ids[i]), Primary(s, ids[j])) && s.cases[ids[i]].txHash == s.cases[ids[j]].txHash
          && Primary(s, ids[i]).observed < Primary(s, ids[j]).observed)
  }

  lemma ShapeOf(s: State, ids: seq<string>)
    requires ChainsOk(s) && AllPrimary(s) && IsChain(s, ids)
    ensures ChainShape(s, ids)
  {
    forall i, j | 0 <= i < j < |ids|
      ensures ids[i] != ids[j] && Closed(s, ids[i]) && HasPrimary(s, ids[i]) && HasPrimary(s, ids[j])
        && SameTransfer(Primary(s, ids[i]), Primary(s, ids[j])) && s.cases[ids[i]].txHash == s.cases[ids[j]].txHash
        && Primary(s, ids[i]).observed < Primary(s, ids[j]).observed
    {
      ChainOrder(s, ids, i, j);
    }
    if |ids| > 1 { ChainOrder(s, ids, 0, |ids| - 1); }
    forall i | 0 <= i < |ids| - 1 ensures Closed(s, ids[i]) { ChainOrder(s, ids, i, |ids| - 1); }
  }

  /**
   * Replacement chains are acyclic, stay on one transfer with ever newer evidence, are no
   * longer than the block height plus one, and only their last case can be live or executed.
   */
  lemma ReplacementChains(env: Env, s0: State, steps: seq<Step>, ids: seq<string>)
    requires Fresh(s0) && Keyed(s0) && RunOk(env, s0, steps)
    requires IsChain(Run(env, s0, steps), ids)
    ensures ChainShape(Run(env, s0, steps), ids)
  {
    hide Run, RunOk, Fresh, Keyed, Decided, ChainsOk, EffectsOk, AllEvidence;
    RunInv(env, s0, steps);
    PrimaryExists(env, Run(env, s0, steps));
    ShapeOf(Run(env, s0, steps), ids);
  }

  /** Every case ends a rooted chain. */
  lemma {:induction false} RootExists(s: State, id: string) returns (ids: seq<string>)
    requires ChainsOk(s) && AllPrimary(s) && id in s.cases
    ensures Rooted(s, ids) && ids[|ids| - 1] == id
    decreases Primary(s, id).observed
  {
    if s.cases[id].previous == "" {
      ids := [id];
    } else {
      StepDown(s, id);
      var init := RootExists(s, s.cases[id].previous);
      ids := init + [id];
    }
  }

  /** Following predecessors back from a shared case, two rooted chains agree. */
  lemma {:induction false} BackAgree(s: State, a: seq<string>, b: seq<string>, i: nat, j: nat)
    requires ChainsOk(s) && Rooted(s, a) && Rooted(s, b) && i < |a| && j < |b| && a[i] == b[j]
    ensures i == j && a[..i + 1] == b[..j + 1]
  {
    assert a[0] in s.cases && b[0] in s.cases;
    assert i > 0 ==> s.cases[a[i]].previous == a[i - 1] && a[i - 1] in s.cases;
    assert j > 0 ==> s.cases[b[j]].previous == b[j - 1] && b[j - 1] in s.cases;
    if i > 0 && j > 0 { BackAgree(s, a, b, i - 1, j - 1); }
    assert a[..i + 1] == a[..i] + [a[i]] && b[..j + 1] == b[..j] + [b[j]];
  }

  /** From a shared case forward they agree as long as both go on. */
  lemma {:induction false} ForwardAgree(s: State, a: seq<string>, b: seq<string>, i: nat, k: nat)
    requires ChainsOk(s) && IsChain(s, a) && IsChain(s, b) && i <= k < |a| && k < |b| && a[i] == b[i]
    ensures a[k] == b[k]
  {
    if i < k {
      ForwardAgree(s, a, b, i, k - 1);
      assert s.cases[a[k]].previous == s.cases[b[k]].previous != "" by {
        assert a[k - 1] in s.cases;
      }
    }
  }

  /** Chains are disjoint and linear: rooted chains that meet are prefixes of one another. */
  lemma ChainsDisjoint(env: Env, s0: State, steps: seq<Step>, a: seq<string>, b: seq<string>, i: nat, j: nat)
    requires Fresh(s0) && Keyed(s0) && RunOk(env, s0, steps)
    requires Rooted(Run(env, s0, steps), a) && Rooted(Run(env, s0, steps), b)
    requires i < |a| && j < |b| && a[i] == b[j]
    ensures a <= b || b <= a
  {
    hide Run, RunOk, Fresh, Keyed, Decided, ChainsOk, EffectsOk, AllEvidence;
    RunInv(env, s0, steps);
    var s := Run(env, s0, steps);
    BackAgree(s, a, b, i, j);
    assert a[..i + 1][0] == b[..j + 1][0];
    forall k | 0 <= k < |a| && k < |b| ensures a[k] == b[k] { ForwardAgree(s, a, b, 0, k); }
  }

  /** Of two cases in one chain at most one is open, approved or executed. */
  lemma OneLiveCase(env: Env, s0: State, steps: seq<Step>, ids: seq<string>, i: nat, j: nat)
    requires Fresh(s0) && Keyed(s0) && RunOk(env, s0, steps) && IsChain(Run(env, s0, steps), ids)
    requires i < |ids| && j < |ids|
    requires Run(env, s0, steps).cases[ids[i]].status in {Pending, Approved, Executed}
    requires Run(env, s0, steps).cases[ids[j]].status in {Pending, Approved, Executed}
    ensures i == j == |ids| - 1
  {
    hide Run, RunOk, Fresh, Keyed;
    ReplacementChains(env, s0, steps, ids);
  }
}
