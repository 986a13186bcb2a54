/** Lease fencing: who may use a signing key, over whole runs. */
module Leases {
  import opened Basics
  import opened Types
  import opened Store
  import opened Handlers
  import opened Frames
  import opened Chain
  import RegistrySync
  import Decimal

  // ---- the memo names one lease

  const PREFIX := "g503-lease:"

  lemma DigitsUpToColon(a: string, x: string, b: string, y: string)
    requires Decimal.AllDigits(a) && Decimal.AllDigits(b) && a + ":" + x == b + ":" + y
    ensures a == b && x == y
  {
    var s, t := a + ":" + x, b + ":" + y;
    assert s[|a|] == ':' && t[|b|] == ':';
    assert forall i :: 0 <= i < |a| ==> s[i] == a[i];
    assert forall i :: 0 <= i < |b| ==> t[i] == b[i];
    assert |a| == |b|;
    assert a == s[..|a|] && b == t[..|b|] && x == s[|a| + 1..] && y == t[|b| + 1..];
  }

  /** A memo determines its epoch and holder, whatever the holder's characters are. */
  lemma MemoInjective(l: Lease, k: Lease)
    ensures LeaseMemo(l) == LeaseMemo(k) <==> l.epoch == k.epoch && l.holder == k.holder
  {
    var a, b := Decimal.Format(l.epoch), Decimal.Format(k.epoch);
    if LeaseMemo(l) == LeaseMemo(k) {
      assert LeaseMemo(l)[|PREFIX|..] == a + ":" + l.holder;
      assert LeaseMemo(k)[|PREFIX|..] == b + ":" + k.holder;
      DigitsUpToColon(a, l.holder, b, k.holder);
      Decimal.FormatInjective(l.epoch, k.epoch);
    }
  }

  // ---- how leases evolve

  /** One lease later: the epoch never falls, changes holder only by rising, and a live lease keeps its epoch at its height. */
  ghost predicate Advances(l: Lease, h: Height, l': Lease, h': Height)
  {
    && (l'.epoch > l.epoch || (l'.epoch == l.epoch && l'.holder == l.holder))
    && (h' == h && l.expires > h ==> l'.epoch == l.epoch && l'.expires > h')
  }

  ghost predicate LeasesAdvance(s: State, s': State)
  {
    && s.height <= s'.height
    && forall x :: x in s.leases ==> x in s'.leases && Advances(s.leases[x], s.height, s'.leases[x], s'.height)
  }

  lemma AdvanceTransitive(a: State, b: State, c: State)
    requires LeasesAdvance(a, b) && LeasesAdvance(b, c)
    ensures LeasesAdvance(a, c)
  {
  }

  lemma SameLeases(s: State, s': State)
    requires s'.leases == s.leases && s.height <= s'.height
    ensures LeasesAdvance(s, s')
  {
  }

  /** A claim either renews the live lease or grants the next epoch of a dead one. */
  lemma ClaimAdvances(env: Env, s: State, m: Msg)
    requires KeyedLeases(s.leases) && m.ClaimLease? && ClaimError(env, s, m).None?
    ensures LeasesAdvance(s, ClaimEffect(env, s, m))
    ensures var l := LeaseOf(s, m.signer); var l' := ClaimEffect(env, s, m).leases[m.signer];
      && l'.holder == m.holder && l'.expires == s.height + m.ttl && HolderValid(l'.holder)
      && (if m.renew then l.expires > s.height && l'.epoch == l.epoch else l.expires <= s.height && l'.epoch == l.epoch + 1)
  {
  }

  lemma OpenLeases(s: State, previous: string, c: SanctionCase)
    requires previous != "" ==> previous in s.cases
    ensures OpenEffect(s, previous, c).leases == s.leases
  {
    hide IndexByTx, IndexByAddress;
  }

  lemma VoteLeases(s: State, v: SanctionVote)
    requires v.caseId in s.cases
    ensures VoteEffect(s, v).leases == s.leases
  {
    hide Activates, RecomputedStatus, IndexByTx, IndexByAddress;
  }

  lemma ExecuteLeases(env: Env, s: State, c: SanctionCase, record: ExecutionRecord)
    requires Monetary(c.action) ==> Settleable(env, s, c)
    ensures ExecuteEffect(env, s, c, record).leases == s.leases
  {
    hide SettlementMove, CoinsOk, IndexByTx, IndexByAddress, Balance;
  }

  lemma OtherLeases(env: Env, s: State, m: Msg, bankOk: bool)
    requires HandleError(env, s, m, bankOk).None? && !m.ClaimLease?
    ensures HandleEffect(env, s, m, bankOk).leases == s.leases
  {
    hide OpenCaseError, VoteError, ExecuteError, BankSendError, SubmitReportError, RegisterAgentError;
    match m {
      case OpenCase(_, _, _, _, _, _, _, _, _) => OpenFacts(env, s, m); OpenLeases(s, m.previous, NewCase(env, s, m)); hide NewCase, OpenEffect;
      case SubmitVote(_, v) => VoteFacts(env, s, m); VoteLeases(s, v.value); hide VoteEffect;
      case Execute(executor, id, message) =>
        ExecuteFacts(env, s, m, bankOk);
        ExecuteLeases(env, s, s.cases[id], ExecutionOf(env, s, s.cases[id], executor, message));
        hide ExecuteEffect;
      case _ => OtherFacts(env, s, m, bankOk);
    }
  }

  lemma HandleAdvances(env: Env, s: State, m: Msg, bankOk: bool)
    requires Keyed(s) && HandleError(env, s, m, bankOk).None?
    ensures LeasesAdvance(s, HandleEffect(env, s, m, bankOk))
  {
    HandleContext(env, s, m, bankOk);
    if m.ClaimLease? {
      KeyedParts(s);
      hide ClaimError;
      ClaimAdvances(env, s, m);
    } else {
      OtherLeases(env, s, m, bankOk);
      hide HandleEffect;
      SameLeases(s, HandleEffect(env, s, m, bankOk));
    }
  }

  lemma {:induction false} CallsAdvance(env: Env, s: State, calls: seq<Call>)
    requires Keyed(s) && RunCalls(env, s, calls).Some?
    ensures LeasesAdvance(s, RunCalls(env, s, calls).value)
  {
    hide LeasesAdvance, HandleEffect, HandleError, Keyed, Extends;
    if calls == [] {
      SameLeases(s, s);
    } else {
      var init, call := calls[..|calls| - 1], calls[|calls| - 1];
      CallsAdvance(env, s, init);
      RunCallsSound(env, s, init);
      var s1 := RunCalls(env, s, init).value;
      HandleAdvances(env, s1, call.msg, call.bankOk);
      AdvanceTransitive(s, s1, RunCalls(env, s, calls).value);
    }
  }

  lemma RefreshStepLeases(acc: RegistrySync.Synced, a: AgentInfo, states: seq<RegistrySync.ValidatorState>)
    ensures var r := RegistrySync.RefreshStep(acc, a, states).state; r.leases == acc.state.leases && r.height == acc.state.height
  {
    hide RegistrySync.Refresh, RegistrySync.Lookup, RegistrySync.Electable, SetAgent;
    var next := RegistrySync.Refresh(a, RegistrySync.Lookup(states, a.operator));
    AgentLeases(acc.state, next);
  }

  lemma AgentLeases(s: State, a: AgentInfo)
    ensures SetAgent(s, a).leases == s.leases && SetAgent(s, a).height == s.height
  {
  }

  lemma {:induction false} RefreshLeases(acc: RegistrySync.Synced, agents: seq<AgentInfo>, states: seq<RegistrySync.ValidatorState>)
    ensures var r := RegistrySync.RefreshAll(acc, agents, states).state; r.leases == acc.state.leases && r.height == acc.state.height
  {
    hide RegistrySync.RefreshStep;
    if agents != [] {
      RefreshLeases(acc, agents[..|agents| - 1], states);
      RefreshStepLeases(RegistrySync.RefreshAll(acc, agents[..|agents| - 1], states), agents[|agents| - 1], states);
    }
  }

  lemma {:induction false} CreateLeases(acc: RegistrySync.Synced, states: seq<RegistrySync.ValidatorState>)
    ensures var r := RegistrySync.CreateAll(acc, states).state; r.leases == acc.state.leases && r.height == acc.state.height
  {
    hide RegistrySync.Creatable, RegistrySync.NewAgent, SetAgent;
    if states != [] {
      CreateLeases(acc, states[..|states| - 1]);
      AgentLeases(RegistrySync.CreateAll(acc, states[..|states| - 1]).state, RegistrySync.NewAgent(states[|states| - 1]));
    }
  }

  lemma StepAdvances(env: Env, s: State, step: Step)
    requires Keyed(s) && StepOk(env, s, step)
    ensures LeasesAdvance(s, Apply(env, s, step))
  {
    hide LeasesAdvance, RunCalls, RecordTransfers, AnteError, RegistrySync.RefreshAll, RegistrySync.CreateAll, Extends;
    SameLeases(s, s);
    match step {
      case DeliverTx(tx) =>
        if AnteError(s, tx).None? && RunCalls(env, s, tx.calls).Some? {
          var s1 := RunCalls(env, s, tx.calls).value;
          CallsAdvance(env, s, tx.calls);
          RunCallsSound(env, s, tx.calls);
          KeyedParts(s1);
          RecordTransfersOnly(s1, tx, |tx.calls|);
          SameLeases(s1, RecordTransfers(s1, tx, |tx.calls|));
          AdvanceTransitive(s, s1, RecordTransfers(s1, tx, |tx.calls|));
        }
      case EndBlock(states) =>
        RefreshLeases(RegistrySync.Synced(s, 0, 0), RegistrySync.AllAgents(s.agents), states);
        CreateLeases(RegistrySync.Refreshed(s, states), states);
        SameLeases(s, RegistrySync.Sync(s, states).state);
      case NextHeight(h) =>
        SameLeases(s, s.(height := h));
    }
  }

  /** Over every run: epochs never fall, each epoch keeps its one holder, and no lease disappears. */
  lemma {:induction false} EpochsOnlyRise(env: Env, s: State, steps: seq<Step>)
    requires Keyed(s) && RunOk(env, s, steps)
    ensures LeasesAdvance(s, Run(env, s, steps))
  {
    hide LeasesAdvance, Apply, Keyed, Extends;
    if steps == [] {
      SameLeases(s, s);
    } else {
      var init := steps[..|steps| - 1];
      EpochsOnlyRise(env, s, init);
      RunSound(env, s, init);
      StepAdvances(env, Run(env, s, init), steps[|steps| - 1]);
      AdvanceTransitive(s, Run(env, s, init), Run(env, s, steps));
    }
  }

  // ---- what the ante check then guarantees

  /** The tx is admitted for `signer`, which is not merely claiming its lease. */
  ghost predicate Admitted(s: State, tx: Tx, signer: string)
  {
    AnteError(s, tx).None? && signer in tx.signers && signer != ClaimSigner(tx.calls)
  }

  /** Admission of a leased signer means the memo of the current, unexpired lease. */
  lemma AdmittedUnderLease(s: State, tx: Tx, signer: string)
    requires Admitted(s, tx, signer) && signer in s.leases
    ensures tx.memo == LeaseMemo(s.leases[signer]) && s.leases[signer].expires > s.height
  {
    var i :| 0 <= i < |tx.signers| && tx.signers[i] == signer;
    assert SignerPasses(s, tx, tx.signers[i]);
  }

  /** Fencing: after epoch e + 1 is granted, nothing signed under epoch e or an earlier one is admitted. */
  lemma OldEpochsAreFenced(env: Env, s: State, steps: seq<Step>, tx: Tx, signer: string, past: Lease)
    requires Keyed(s) && RunOk(env, s, steps) && signer in s.leases && past.epoch < s.leases[signer].epoch
    requires tx.memo == LeaseMemo(past)
    ensures !Admitted(Run(env, s, steps), tx, signer)
  {
    EpochsOnlyRise(env, s, steps);
    var s' := Run(env, s, steps);
    hide Run, RunOk, Keyed;
    if Admitted(s', tx, signer) {
      AdmittedUnderLease(s', tx, signer);
      MemoInjective(past, s'.leases[signer]);
      assert false;
    }
  }

  /** At one block height a leased key is used under one epoch and by one holder only. */
  lemma OneEpochPerHeight(env: Env, s: State, steps: seq<Step>, a: Tx, b: Tx, signer: string)
    requires Keyed(s) && RunOk(env, s, steps) && Run(env, s, steps).height == s.height && signer in s.leases
    requires Admitted(s, a, signer) && Admitted(Run(env, s, steps), b, signer)
    ensures signer in Run(env, s, steps).leases
    ensures var l, l' := s.leases[signer], Run(env, s, steps).leases[signer];
      l.epoch == l'.epoch && l.holder == l'.holder && a.memo == b.memo
  {
    EpochsOnlyRise(env, s, steps);
    AdmittedUnderLease(s, a, signer);
    AdmittedUnderLease(Run(env, s, steps), b, signer);
    hide Run, RunOk, Keyed, AnteError;
    MemoInjective(s.leases[signer], Run(env, s, steps).leases[signer]);
  }

  /** A claim shares its tx with nothing, so it cannot carry other messages past the fence. */
  lemma ClaimsStandAlone(s: State, tx: Tx)
    requires AnteError(s, tx).None? && HasClaim(tx.calls)
    ensures |tx.calls| == 1 && tx.calls[0].msg.ClaimLease? && ClaimSigner(tx.calls) == tx.calls[0].msg.signer
  {
  }

  /** The account that a message acts for, under whatever name its field has. */
  predicate ActsFor(m: Msg, x: string)
  {
    || (m.RegisterAgent? && x == m.authority) || (m.SubmitReport? && x == m.submitter) || (m.OpenCase? && x == m.submitter)
    || (m.SubmitVote? && x == m.submitter) || (m.Execute? && x == m.executor) || (m.Revoke? && x == m.authority)
    || (m.Review? && x == m.authority) || (m.UpdateParams? && x == m.authority) || (m.Send? && x == m.from)
  }

  /** Nobody acts for a leased account, by any message, except under the memo of its live lease. */
  lemma LeasedAccountsAreFenced(env: Env, s: State, tx: Tx, i: nat, x: string)
    requires StepOk(env, s, DeliverTx(tx)) && AnteError(s, tx).None? && i < |tx.calls|
    requires ActsFor(tx.calls[i].msg, x) && env.account(x) in s.leases && env.account(x) != ""
    ensures tx.memo == LeaseMemo(s.leases[env.account(x)]) && s.leases[env.account(x)].expires > s.height
  {
    assert SignerOf(tx.calls[i].msg) == x;
    if HasClaim(tx.calls) {
      ClaimsStandAlone(s, tx);
      assert false;
    }
    NoClaim(tx.calls);
    assert Admitted(s, tx, env.account(x));
    AdmittedUnderLease(s, tx, env.account(x));
  }

  lemma {:induction false} NoClaim(calls: seq<Call>)
    requires !HasClaim(calls)
    ensures ClaimSigner(calls) == ""
  {
    if calls != [] {
      NoClaim(calls[..|calls| - 1]);
    }
  }

  /** A lease dies with its height: once the chain has moved there, its signer is not admitted any more. */
  lemma LeaseDiesAtItsHeight(env: Env, s: State, steps: seq<Step>, h: Height, tx: Tx, signer: string)
    requires RunOk(env, s, steps + [NextHeight(h)])
    requires var s' := Run(env, s, steps + [NextHeight(h)]); signer in s'.leases && s'.leases[signer].expires <= h
    ensures !Admitted(Run(env, s, steps + [NextHeight(h)]), tx, signer)
  {
    var s' := Run(env, s, steps + [NextHeight(h)]);
    assert s'.height == h;
    hide Run, RunOk;
    if Admitted(s', tx, signer) {
      AdmittedUnderLease(s', tx, signer);
      assert false;
    }
  }
}
