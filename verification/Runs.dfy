/** The invariant of every run that starts on a fresh chain. */
module Runs {
  import opened Basics
  import opened Types
  import opened Store
  import opened Handlers
  import opened Frames
  import opened Chain
  import opened Electorate
  import opened Evidence
  import opened Replacement
  import opened Effects
  import RegistrySync

  ghost predicate Inv(env: Env, s: State)
  {
    Decided(env, s) && AllEvidence(env, s) && ChainsOk(s) && EffectsOk(s)
  }

  lemma OpenInv(env: Env, s: State, m: Msg)
    requires Inv(env, s) && m.OpenCase? && OpenCaseError(env, s, m).None?
    ensures m.previous != "" ==> m.previous in s.cases
    ensures Inv(env, OpenEffect(s, m.previous, NewCase(env, s, m)))
  {
    var c := NewCase(env, s, m);
    OpenFacts(env, s, m);
    AcceptedOpening(env, s, m);
    NewCaseFields(env, s, m);
    OpenedEvidence(env, s, m);
    if m.previous != "" { ReplacementLink(env, s, m); }
    DecidedParts(env, s);
    hide OpenCaseError, NewCase, SnapshotValid, HasSuccessor, Backed, Keyed, ReplacementError;
    hide Decided, AllEvidence, ChainsOk, EffectsOk, OpenEffect;
    OpenDecided(env, s, m.previous, c);
    OpenEvidence(env, s, m.previous, c);
    OpenChains(s, m.previous, c);
    OpenEffects(s, m.previous, c);
  }

  lemma DecidedParts(env: Env, s: State)
    requires Decided(env, s)
    ensures Keyed(s) && KeyedCases(s.cases) && KeyedActive(s.activeTxs) && KeyedFreezes(s.freezes) && KeyedReports(s.reports)
    ensures s.height >= 1 && (forall id :: id in s.executions ==> id in s.cases)
  {
    hide VotesOk, CasesOk;
  }

  lemma VoteInv(env: Env, s: State, m: Msg)
    requires Inv(env, s) && m.SubmitVote? && VoteError(env, s, m).None?
    ensures m.vote.Some? && m.vote.value.caseId in s.cases && Inv(env, VoteEffect(s, m.vote.value))
  {
    AcceptedVote(env, s, m);
    var v := m.vote.value;
    DecidedParts(env, s);
    hide VoteError, VoteOk, Keyed, Decided, AllEvidence, ChainsOk, EffectsOk, VoteEffect;
    VoteDecided(env, s, v);
    VoteEffects(s, v);
    VoteSound(s, v);
    VoteClosed(s, v);
    ChainsKept(s, VoteEffect(s, v));
    EvidenceKept(env, s, VoteEffect(s, v));
  }

  lemma ExecuteInv(env: Env, s: State, m: Msg, bankOk: bool)
    requires Inv(env, s) && m.Execute? && ExecuteError(env, s, m, bankOk).None?
    ensures HandleEffect(env, s, m, bankOk).height == s.height
    ensures Inv(env, HandleEffect(env, s, m, bankOk))
  {
    HandleDecided(env, s, m, bankOk);
    HandleSound(env, s, m, bankOk);
    HandleContext(env, s, m, bankOk);
    ExecuteFacts(env, s, m, bankOk);
    StatusFacts(env, s, m, bankOk);
    DecidedParts(env, s);
    var c := s.cases[m.caseId];
    assert CaseOk(env, s.votes, s.executions, c);
    KeyedAt(s, m.caseId);
    var record := ExecutionOf(env, s, c, m.executor, m.resultMessage);
    RecordFields(env, s, c, m.executor, m.resultMessage);
    assert HandleEffect(env, s, m, bankOk) == ExecuteEffect(env, s, c, record);
    hide HandleEffect, ExecuteError, Keyed, Decided, AllEvidence, ChainsOk, EffectsOk, ExecuteEffect, Settleable, UnsettledError, QuorumMet, Unanimous;
    ExecuteEffects(env, s, c, record);
    ExecuteClosed(env, s, c, record);
    ChainsKept(s, ExecuteEffect(env, s, c, record));
    EvidenceKept(env, s, ExecuteEffect(env, s, c, record));
  }

  lemma RevokeInv(env: Env, s: State, c: SanctionCase, review: ReviewRecord, reason: string)
    requires Inv(env, s) && c.caseId in s.cases && s.cases[c.caseId] == c
    requires review.caseId in s.reviews && s.reviews[review.caseId] == review
    ensures Inv(env, RevokeEffect(s, c, review, reason))
  {
    var s' := RevokeEffect(s, c, review, reason);
    DecidedParts(env, s);
    hide Keyed, Decided, AllEvidence, ChainsOk, EffectsOk, RevokeEffect;
    RevokeDecided(env, s, c, review, reason);
    RevokeEffects(s, c, review, reason);
    RevokeSound(s, c, review, reason);
    RevokeClosed(s, c, review, reason);
    ChainsKept(s, s');
    EvidenceKept(env, s, s');
  }

  /** Steps that touch no decision table. */
  lemma QuietInv(env: Env, s: State, s': State)
    requires Inv(env, s) && Sound(s, s') && SameDecisions(s, s')
    ensures Inv(env, s')
  {
    ExtendsCases(s, s');
    QuietDecided(env, s, s');
    hide Keyed, Decided, AllEvidence, ActivesOk, FreezesOk;
    EvidenceKept(env, s, s');
    ChainsKept(s, s') by { hide LinksOk, OneSuccessor, Indexed; }
    hide ChainsOk;
  }

  lemma HandleInv(env: Env, s: State, m: Msg, bankOk: bool)
    requires Inv(env, s) && HandleError(env, s, m, bankOk).None?
    ensures Inv(env, HandleEffect(env, s, m, bankOk))
  {
    hide OpenCaseError, VoteError, ExecuteError, BankSendError, ClaimError, SubmitReportError, RegisterAgentError;
    hide OpenEffect, VoteEffect, ExecuteEffect, RevokeEffect, NewCase, ExecutionOf;
    match m {
      case OpenCase(_, _, _, _, _, _, _, _, _) => hide Inv; OpenInv(env, s, m);
      case SubmitVote(_, v) => hide Inv; VoteInv(env, s, m);
      case Execute(_, _, _) => hide Inv, HandleEffect; ExecuteInv(env, s, m, bankOk);
      case Revoke(_, id, reason) =>
        OtherFacts(env, s, m, bankOk);
        DecidedParts(env, s);
        KeyedAt(s, id);
        hide Inv;
        RevokeInv(env, s, s.cases[id], s.reviews[id], reason);
      case _ =>
        OtherMessages(env, s, m, bankOk);
        DecidedParts(env, s);
        HandleSound(env, s, m, bankOk);
        hide Inv, HandleEffect, Sound, SameDecisions;
        QuietInv(env, s, HandleEffect(env, s, m, bankOk));
    }
  }

  lemma {:induction false} RunCallsInv(env: Env, s: State, calls: seq<Call>)
    requires Inv(env, s) && RunCalls(env, s, calls).Some?
    ensures Inv(env, RunCalls(env, s, calls).value)
  {
    hide Inv, HandleEffect, HandleError;
    if calls != [] {
      var init, call := calls[..|calls| - 1], calls[|calls| - 1];
      RunCallsInv(env, s, init);
      HandleInv(env, RunCalls(env, s, init).value, call.msg, call.bankOk);
    }
  }

  lemma InvKeyed(env: Env, s: State)
    requires Inv(env, s)
    ensures Keyed(s) && KeyedReceipts(s.receipts)
  {
    hide VotesOk, CasesOk, AllEvidence, ChainsOk, EffectsOk;
  }

  lemma DeliverInv(env: Env, s: State, tx: Tx)
    requires Inv(env, s) && StepOk(env, s, DeliverTx(tx))
    ensures Inv(env, Deliver(env, s, tx))
  {
    hide Inv, RunCalls, AnteError, Keyed, Extends, RecordTransfers;
    if AnteError(s, tx).None? && RunCalls(env, s, tx.calls).Some? {
      var s1 := RunCalls(env, s, tx.calls).value;
      InvKeyed(env, s);
      RunCallsInv(env, s, tx.calls);
      RunCallsSound(env, s, tx.calls);
      InvKeyed(env, s1);
      RecordTransfersOnly(s1, tx, |tx.calls|);
      ReceiptsSound(s1, Deliver(env, s, tx), tx.hash);
      QuietInv(env, s1, Deliver(env, s, tx));
    }
  }

  lemma AgentQuiet(s: State, a: AgentInfo)
    ensures SameDecisions(s, SetAgent(s, a))
  {
  }

  /** The registry sync leaves the decision tables alone. */
  lemma {:induction false} RefreshQuiet(acc: RegistrySync.Synced, agents: seq<AgentInfo>, states: seq<RegistrySync.ValidatorState>)
    ensures SameDecisions(acc.state, RegistrySync.RefreshAll(acc, agents, states).state)
  {
    hide RegistrySync.Refresh, RegistrySync.Lookup, RegistrySync.Electable, SetAgent;
    if agents != [] {
      var init, a := agents[..|agents| - 1], agents[|agents| - 1];
      RefreshQuiet(acc, init, states);
      AgentQuiet(RegistrySync.RefreshAll(acc, init, states).state,
                 RegistrySync.Refresh(a, RegistrySync.Lookup(states, a.operator)));
    }
  }

  lemma {:induction false} CreateQuiet(acc: RegistrySync.Synced, states: seq<RegistrySync.ValidatorState>)
    ensures SameDecisions(acc.state, RegistrySync.CreateAll(acc, states).state)
  {
    hide RegistrySync.Creatable, RegistrySync.NewAgent;
    if states != [] { CreateQuiet(acc, states[..|states| - 1]); }
  }

  lemma SyncQuiet(s: State, states: seq<RegistrySync.ValidatorState>)
    ensures SameDecisions(s, RegistrySync.Sync(s, states).state)
  {
    hide RegistrySync.RefreshAll, RegistrySync.CreateAll;
    RefreshQuiet(RegistrySync.Synced(s, 0, 0), RegistrySync.AllAgents(s.agents), states);
    CreateQuiet(RegistrySync.Refreshed(s, states), states);
  }

  lemma ApplyInv(env: Env, s: State, step: Step)
    requires Inv(env, s) && StepOk(env, s, step)
    ensures Inv(env, Apply(env, s, step))
  {
    InvKeyed(env, s);
    hide Inv, Deliver, RegistrySync.Sync, Keyed, Sound;
    match step
    case DeliverTx(tx) => DeliverInv(env, s, tx);
    case EndBlock(states) => SyncSound(s, states); SyncQuiet(s, states); QuietInv(env, s, RegistrySync.Sync(s, states).state);
    case NextHeight(h) => HeightSound(s, h); QuietInv(env, s, s.(height := h));
  }

  lemma FreshInv(env: Env, s: State)
    requires Fresh(s) && Keyed(s)
    ensures Inv(env, s)
  {
  }

  /** The invariant holds in every state that a fresh chain reaches. */
  lemma {:induction false} RunInv(env: Env, s: State, steps: seq<Step>)
    requires Fresh(s) && Keyed(s) && RunOk(env, s, steps)
    ensures Inv(env, Run(env, s, steps))
  {
    hide Inv, Apply, Keyed;
    if steps == [] {
      FreshInv(env, s);
    } else {
      RunInv(env, s, steps[..|steps| - 1]);
      ApplyInv(env, Run(env, s, steps[..|steps| - 1]), steps[|steps| - 1]);
    }
  }
}
