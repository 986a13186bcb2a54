/** Two runs of accepted messages in which an executed freeze and an approved block lose their effect. */
module Takeover {
  import opened Basics
  import opened Types
  import opened Store
  import opened Handlers
  import opened Frames
  import opened Chain
  import opened Electorate
  import opened Replacement
  import opened Runs
  import opened Events
  import opened Ownership
  import Policy
  import Percent
  import Tally
  import SignBytes
  import Closure

  // ---- one agent, one report, and an address codec that also takes the spelling "T" of account "t"

  function Hash(): Bytes { [1, 1, 1, 1, 1, 1, 1, 1, 1, 1, 1, 1, 1, 1, 1, 1, 1, 1, 1, 1, 1, 1, 1, 1, 1, 1, 1, 1, 1, 1, 1, 1] }

  const AGENT := AgentInfo("a", "", "k", [1], 5, true, "")

  function Account(x: string): string { if x == "T" then "t" else x }

  /** Every signature checks, every address is well formed, the bank holds nothing. */
  function World(): Env
  {
    Env("chain", "k", true, "module", (x: string) => true, Account,
        (k: Bytes, x: string) => true, (k: Bytes, x: Bytes, p: Bytes) => true, (r: RiskReport) => [],
        (x: string) => None, (x: string) => true, (x: string) => None, (x: string) => false,
        (c: SanctionCase) => [], (p: seq<string>) => [])
  }

  function Report(score: uint32): RiskReport
  {
    RiskReport("r", Hash(), 0, "x", "T", "coin", "5", "chainalysis", score, ["scam"], 1, 100, [1], "k", [])
  }

  function Start(score: uint32): State
  {
    State(Some(DefaultParams()), "", map["a" := AGENT], map["k" := "a"], map[], map["r" := Report(score)],
          {(Hash(), "r")}, {("T", "r")}, map[], {}, {}, map[], map[], map[], map[], map[], map[], map[], map[], [], 1)
  }

  /** The score that makes the policy recommend the action. */
  predicate Recommends(score: uint32, action: Action)
  {
    (score == 82 && action == BlockTx) || (score == 86 && action == FreezeAddress)
  }

  function Opening(id: string, action: Action): Msg
  {
    OpenCase("k", id, "", Hash(), "T", AddressTarget, action, ["r"], "v")
  }

  /** The case that such an opening stores. */
  function Made(id: string, action: Action): SanctionCase
  {
    SanctionCase(id, "", Hash(), "T", AddressTarget, action, Pending, ["r"], 1, 21, 0, "v", [AGENT], 67, true, 1, [])
  }

  function Approval(id: string, action: Action): SanctionVote
  {
    SanctionVote(id, "a", Approve, action, "", [], 1, [1])
  }

  function Voting(id: string, action: Action): Msg { SubmitVote("k", Some(Approval(id, action))) }

  function Approved(id: string, action: Action): SanctionCase { Made(id, action).(status := Status.Approved) }

  function Executed(id: string, action: Action): SanctionCase
  {
    Made(id, action).(status := Status.Executed, executedAt := 1)
  }

  function Executing(id: string): Msg { Execute("k", id, "") }

  /** What stays the same through the messages below. */
  ghost predicate Stage(s: State, score: uint32)
  {
    && s.params == Some(DefaultParams()) && s.authority == "" && s.agents == map["a" := AGENT] && s.leases == map[]
    && s.reports == map["r" := Report(score)] && s.height == 1
  }

  // ---- opening

  lemma OnlyVoter()
    ensures VotersOf(map["a" := AGENT]) == [AGENT]
  {
    var agents := map["a" := AGENT];
    assert Eligible(agents) == {"a"};
    var r := VotersOf(agents);
    assert |r| == 1;
    assert exists id :: id in Eligible(agents) && r[0] == agents[id];
    hide VotersOf;
  }

  lemma MadeCase(s: State, score: uint32, id: string, action: Action)
    requires Stage(s, score)
    ensures NewCase(World(), s, Opening(id, action)) == Made(id, action)
    ensures DraftCase(s, Opening(id, action)) == Made(id, action)
  {
    OnlyVoter();
    hide VotersOf;
  }

  lemma MadeValid(c: SanctionCase)
    requires c.snapshotVersion == 1 && c.voters == [AGENT] && c.quorum == 67
    ensures SnapshotValid(World(), c)
  {
  }

  lemma ReportFits(s: State, score: uint32, id: string, action: Action)
    requires Stage(s, score) && Recommends(score, action)
    ensures ReportsError(World(), s, Opening(id, action), ["r"], None).None?
    ensures Policy.PolicyAction(Reports(s, ["r"]), DefaultParams(), AddressTarget) == action
  {
    var rs := Reports(s, ["r"]);
    assert rs == [Report(score)];
    assert rs[..0] == [];
    assert Policy.MaxScore(rs[..0]) == 0;
    assert Policy.MaxScore(rs) == score;
    assert "scam" in Report(score).categories && "scam" in DefaultParams().highRisk && Report(score) in rs;
    assert Policy.HighRisk(rs, DefaultParams());
    assert ["r"][1..] == [];
  }

  lemma HashLength()
    ensures |Hash()| == 32
  {
  }

  lemma OpeningAccepted(s: State, score: uint32, id: string, action: Action)
    requires Stage(s, score) && Recommends(score, action) && id != "" && id !in s.cases && s.activeTxs == map[] && s.freezes == map[]
    ensures OpenCaseError(World(), s, Opening(id, action)).None?
  {
    hide SnapshotValid, DraftCase, ReportsError, Policy.PolicyAction, Reports, Hash, Report, ReplacementError;
    assert |Hash()| == 32 by { HashLength(); }
    ReportFits(s, score, id, action);
    MadeCase(s, score, id, action);
    MadeValid(Made(id, action));
  }

  lemma OpeningEffect(s: State, score: uint32, id: string, action: Action)
    requires Stage(s, score) && KeyedCases(s.cases)
    ensures var s' := OpenEffect(s, "", Made(id, action));
      && Stage(s', score) && s'.cases == s.cases[id := Made(id, action)]
      && s'.votes == s.votes && s'.activeTxs == s.activeTxs && s'.freezes == s.freezes && s'.executions == s.executions
  {
    hide IndexByTx, IndexByAddress, Report;
  }

  // ---- voting

  lemma VotingAccepted(s: State, id: string, action: Action)
    requires s.height == 1 && id in s.cases && s.cases[id] == Made(id, action) && (id, "a") !in s.votes
    ensures VoteError(World(), s, Voting(id, action)).None?
  {
    var c := s.cases[id];
    assert c.voters[0] == AGENT;
    hide SignBytes.VoteBytes;
  }

  lemma OneVoteIsEnough(votes: Votes, id: string, action: Action)
    requires (id, "a") in votes && votes[(id, "a")].option == Approve
    ensures QuorumMet(votes, Made(id, action))
  {
    var c := Made(id, action);
    var who := Voted(votes, id, Approve);
    var k := (id, "a");
    assert k in votes && k.0 == id && k.1 == "a";
    assert "a" in who;
    assert c.voters[..0] == [];
    assert Tally.PowerIn(c.voters[..0], who) == 0 && Tally.TotalPower(c.voters[..0]) == 0;
    assert ApprovePower(votes, c) == 5 && Tally.TotalPower(c.voters) == 5;
    Percent.FullApproval(5, 67);
  }

  lemma VotingEffect(s: State, score: uint32, id: string, action: Action)
    requires Stage(s, score) && KeyedCases(s.cases) && id in s.cases && s.cases[id] == Made(id, action)
    ensures var s' := VoteEffect(s, Approval(id, action));
      && Stage(s', score) && s'.cases == s.cases[id := Approved(id, action)]
      && s'.votes == s.votes[(id, "a") := Approval(id, action)] && s'.freezes == s.freezes && s'.executions == s.executions
      && s'.activeTxs == if action == BlockTx then s.activeTxs[Hash() := ActivationOf(s, Made(id, action))] else s.activeTxs
  {
    VoteTables(s, Approval(id, action));
    VotingStage(s, score, Approval(id, action));
    OneVoteIsEnough(SetVote(s, Approval(id, action)).votes, id, action);
    hide VoteEffect, QuorumMet, Stage, ActivationOf;
  }

  lemma SameStage(s: State, s': State, score: uint32)
    requires Stage(s, score) && Closure.SameHeader(s, s') && Closure.SameRegistry(s, s') && Closure.SameReports(s, s')
    ensures Stage(s', score)
  {
  }

  lemma VotingStage(s: State, score: uint32, v: SanctionVote)
    requires Stage(s, score) && v.caseId in s.cases
    ensures Stage(VoteEffect(s, v), score)
  {
    hide SetCase, SetActiveTx, SetVote, Activates, RecomputedStatus, ActivationOf, Stage;
    var s1, c := SetVote(s, v), s.cases[v.caseId];
    var c' := c.(status := RecomputedStatus(s1.votes, c));
    var s2 := SetActiveTx(s1, ActivationOf(s1, c));
    Closure.SetVoteOnly(s, v);
    SameStage(s, s1, score);
    Closure.SetActiveOnly(s1, ActivationOf(s1, c));
    SameStage(s1, s2, score);
    Closure.SetCaseOnly(s1, c');
    SameStage(s1, SetCase(s1, c'), score);
    Closure.SetCaseOnly(s2, c');
    SameStage(s2, SetCase(s2, c'), score);
  }

  // ---- executing a freeze

  lemma ExecutingAccepted(s: State, id: string)
    requires Stage(s, 86) && id in s.cases && s.cases[id] == Approved(id, FreezeAddress) && id !in s.executions
    ensures ExecuteError(World(), s, Executing(id), true).None?
  {
    MadeValid(s.cases[id]);
    hide SnapshotValid, Unanimous;
  }

  lemma ExecutingEffect(s: State, id: string)
    requires Stage(s, 86) && KeyedCases(s.cases) && id in s.cases && s.cases[id] == Approved(id, FreezeAddress) && id !in s.executions
    requires ExecuteError(World(), s, Executing(id), true).None?
    ensures var s' := HandleEffect(World(), s, Executing(id), true);
      && Stage(s', 86) && s'.cases == s.cases[id := Executed(id, FreezeAddress)]
      && s'.freezes == s.freezes["T" := FreezeRecord(id, "T", 1)] && s'.activeTxs == s.activeTxs
      && id in s'.executions && (forall x :: x != id ==> (x in s'.executions <==> x in s.executions))
  {
    hide ExecuteError, ExecutionOf;
    var c := s.cases[id];
    var record := ExecutionOf(World(), s, c, "k", "");
    RecordFields(World(), s, c, "k", "");
    ExecuteTables(World(), s, c, record);
    ExecutingStage(s, c, record);
    hide ExecuteEffect, Stage;
  }

  lemma ExecutingStage(s: State, c: SanctionCase, record: ExecutionRecord)
    requires Stage(s, 86) && c.action == FreezeAddress
    ensures Stage(ExecuteEffect(World(), s, c, record), 86)
  {
    hide SetCase, SetExecution, ActionEffect, Stage;
    var s1 := ActionEffect(World(), s, c);
    var c' := c.(status := Status.Executed, executedAt := s.height);
    Closure.PlainOnly(World(), s, c);
    SameStage(s, s1, 86);
    Closure.SetCaseOnly(s1, c');
    SameStage(s1, SetCase(s1, c'), 86);
    Closure.SetExecutionOnly(SetCase(s1, c'), record);
    SameStage(SetCase(s1, c'), SetExecution(SetCase(s1, c'), record), 86);
  }

  // ---- the two transactions

  function Calls(msgs: seq<Msg>): seq<Call> { seq(|msgs|, i requires 0 <= i < |msgs| => Call(msgs[i], true)) }

  function TxOf(msgs: seq<Msg>): Tx { Tx(Hash(), "", ["k"], Calls(msgs)) }

  function BothVoted(action: Action): seq<Msg>
  {
    [Opening("A", action), Opening("B", action), Voting("A", action), Voting("B", action)]
  }

  function ThenFrozen(): seq<Msg> { BothVoted(FreezeAddress) + [Executing("A")] + [Executing("B")] }

  /** The messages are accepted one after another and lead to this state. */
  ghost predicate LeadsTo(score: uint32, msgs: seq<Msg>, s: State)
  {
    RunCalls(World(), Start(score), Calls(msgs)) == Some(s) && Stage(s, score) && KeyedCases(s.cases)
  }

  lemma NoMessages(score: uint32)
    ensures LeadsTo(score, [], Start(score))
  {
  }

  lemma OneMore(score: uint32, msgs: seq<Msg>, s: State, m: Msg)
    requires LeadsTo(score, msgs, s) && HandleError(World(), s, m, true).None?
    requires Stage(HandleEffect(World(), s, m, true), score) && KeyedCases(HandleEffect(World(), s, m, true).cases)
    ensures LeadsTo(score, msgs + [m], HandleEffect(World(), s, m, true))
  {
    hide HandleError, HandleEffect, Stage, Start;
    var calls := Calls(msgs + [m]);
    assert calls[..|calls| - 1] == Calls(msgs);
  }

  lemma ThenOpen(score: uint32, msgs: seq<Msg>, s: State, id: string, action: Action) returns (s': State)
    requires LeadsTo(score, msgs, s) && Recommends(score, action) && id != "" && id !in s.cases
    requires s.activeTxs == map[] && s.freezes == map[]
    ensures LeadsTo(score, msgs + [Opening(id, action)], s')
    ensures s'.cases == s.cases[id := Made(id, action)] && s'.votes == s.votes && s'.executions == s.executions
    ensures s'.activeTxs == s.activeTxs && s'.freezes == s.freezes
  {
    hide OpenCaseError, NewCase, OpenEffect, Stage, RunCalls, World, Made, Report, HandleEffect, HandleError;
    OpeningAccepted(s, score, id, action);
    OpeningHandled(s, score, id, action);
    OpeningEffect(s, score, id, action);
    s' := OpenEffect(s, "", Made(id, action));
    KeyedMade(s.cases, id, action);
    OneMore(score, msgs, s, Opening(id, action));
  }

  lemma OpeningHandled(s: State, score: uint32, id: string, action: Action)
    requires Stage(s, score) && OpenCaseError(World(), s, Opening(id, action)).None?
    ensures HandleError(World(), s, Opening(id, action), true).None?
    ensures HandleEffect(World(), s, Opening(id, action), true) == OpenEffect(s, "", Made(id, action))
  {
    MadeCase(s, score, id, action);
    hide OpenCaseError, NewCase, OpenEffect, Stage, World, Made;
  }

  lemma KeyedMade(cases: Cases, id: string, action: Action)
    requires KeyedCases(cases)
    ensures KeyedCases(cases[id := Made(id, action)])
  {
  }

  lemma ThenVote(score: uint32, msgs: seq<Msg>, s: State, id: string, action: Action) returns (s': State)
    requires LeadsTo(score, msgs, s) && id in s.cases && s.cases[id] == Made(id, action) && (id, "a") !in s.votes
    ensures LeadsTo(score, msgs + [Voting(id, action)], s')
    ensures s'.cases == s.cases[id := Approved(id, action)] && s'.votes == s.votes[(id, "a") := Approval(id, action)]
    ensures s'.freezes == s.freezes && s'.executions == s.executions
    ensures s'.activeTxs == if action == BlockTx then s.activeTxs[Hash() := ActivationOf(s, Made(id, action))] else s.activeTxs
  {
    VotingAccepted(s, id, action);
    VotingEffect(s, score, id, action);
    hide VoteError, VoteEffect, Stage, RunCalls;
    s' := VoteEffect(s, Approval(id, action));
    assert s' == HandleEffect(World(), s, Voting(id, action), true);
    OneMore(score, msgs, s, Voting(id, action));
  }

  lemma ThenExecute(msgs: seq<Msg>, s: State, id: string) returns (s': State)
    requires LeadsTo(86, msgs, s) && id in s.cases && s.cases[id] == Approved(id, FreezeAddress) && id !in s.executions
    ensures LeadsTo(86, msgs + [Executing(id)], s')
    ensures s'.cases == s.cases[id := Executed(id, FreezeAddress)] && s'.activeTxs == s.activeTxs
    ensures s'.freezes == s.freezes["T" := FreezeRecord(id, "T", 1)]
    ensures id in s'.executions && forall x :: x != id ==> (x in s'.executions <==> x in s.executions)
  {
    ExecutingAccepted(s, id);
    ExecutingEffect(s, id);
    hide ExecuteError, HandleEffect, Stage, RunCalls;
    s' := HandleEffect(World(), s, Executing(id), true);
    OneMore(86, msgs, s, Executing(id));
  }

  /** The two cases. */
  ghost predicate Two(cases: Cases, a: SanctionCase, b: SanctionCase)
  {
    cases == map["A" := a, "B" := b]
  }

  lemma TwoKeys(cases: Cases, a: SanctionCase, b: SanctionCase, c: SanctionCase)
    requires Two(cases, a, b)
    ensures "A" in cases && cases["A"] == a && "B" in cases && cases["B"] == b
    ensures Two(cases["A" := c], c, b) && Two(cases["B" := c], a, c)
  {
    assert map["A" := a, "B" := b]["A" := c] == map["A" := c, "B" := b];
    assert map["A" := a, "B" := b]["B" := c] == map["A" := a, "B" := c];
  }

  /** One case open after the other, for either action. */
  lemma BothOpen(score: uint32, action: Action) returns (s: State)
    requires Recommends(score, action)
    ensures LeadsTo(score, [Opening("A", action), Opening("B", action)], s)
    ensures Two(s.cases, Made("A", action), Made("B", action)) && s.votes == map[]
    ensures s.activeTxs == map[] && s.freezes == map[] && s.executions == map[]
  {
    NoMessages(score);
    hide LeadsTo;
    var s1 := ThenOpen(score, [], Start(score), "A", action);
    s := ThenOpen(score, [] + [Opening("A", action)], s1, "B", action);
    assert [] + [Opening("A", action)] + [Opening("B", action)] == [Opening("A", action), Opening("B", action)];
  }

  lemma ActivationFor(s: State, id: string, action: Action)
    ensures ActivationOf(s, Made(id, action)).caseId == id
  {
  }

  lemma FirstApproved(score: uint32, action: Action) returns (s: State)
    requires Recommends(score, action)
    ensures LeadsTo(score, [Opening("A", action), Opening("B", action)] + [Voting("A", action)], s)
    ensures Two(s.cases, Approved("A", action), Made("B", action)) && ("B", "a") !in s.votes
    ensures s.freezes == map[] && s.executions == map[]
  {
    var s2 := BothOpen(score, action);
    hide LeadsTo, Made, Approved, Opening, Voting, Approval, Hash, ActivationOf, Recommends, Two;
    TwoKeys(s2.cases, Made("A", action), Made("B", action), Approved("A", action));
    s := ThenVote(score, [Opening("A", action), Opening("B", action)], s2, "A", action);
  }

  lemma VotedMessages(action: Action)
    ensures [Opening("A", action), Opening("B", action)] + [Voting("A", action)] + [Voting("B", action)] == BothVoted(action)
  {
  }

  lemma BothApproved(score: uint32, action: Action) returns (s: State)
    requires Recommends(score, action)
    ensures LeadsTo(score, BothVoted(action), s)
    ensures Two(s.cases, Approved("A", action), Approved("B", action)) && s.freezes == map[] && s.executions == map[]
    ensures action == BlockTx ==> Hash() in s.activeTxs && s.activeTxs[Hash()].caseId == "B"
  {
    hide LeadsTo, Made, Approved, Opening, Voting, Approval, Hash, ActivationOf, Recommends, BothVoted, Two;
    var s3 := FirstApproved(score, action);
    TwoKeys(s3.cases, Approved("A", action), Made("B", action), Approved("B", action));
    ActivationFor(s3, "B", action);
    s := ThenVote(score, [Opening("A", action), Opening("B", action)] + [Voting("A", action)], s3, "B", action);
    VotedMessages(action);
  }

  lemma FirstExecuted() returns (s: State)
    ensures LeadsTo(86, BothVoted(FreezeAddress) + [Executing("A")], s)
    ensures Two(s.cases, Executed("A", FreezeAddress), Approved("B", FreezeAddress)) && "B" !in s.executions
    ensures s.freezes == map["T" := FreezeRecord("A", "T", 1)]
  {
    var s4 := BothApproved(86, FreezeAddress);
    hide LeadsTo, Approved, Executed, BothVoted, Executing, Two;
    TwoKeys(s4.cases, Approved("A", FreezeAddress), Approved("B", FreezeAddress), Executed("A", FreezeAddress));
    s := ThenExecute(BothVoted(FreezeAddress), s4, "A");
  }

  lemma BothExecuted() returns (s: State)
    ensures LeadsTo(86, ThenFrozen(), s)
    ensures Two(s.cases, Executed("A", FreezeAddress), Executed("B", FreezeAddress))
    ensures s.freezes == map["T" := FreezeRecord("B", "T", 1)]
  {
    var s5 := FirstExecuted();
    hide LeadsTo, Approved, Executed, BothVoted, Executing, Two;
    TwoKeys(s5.cases, Executed("A", FreezeAddress), Approved("B", FreezeAddress), Executed("B", FreezeAddress));
    s := ThenExecute(BothVoted(FreezeAddress) + [Executing("A")], s5, "B");
  }

  // ---- as runs of a fresh chain

  lemma StartFresh(score: uint32)
    ensures Fresh(Start(score)) && Keyed(Start(score))
  {
  }

  lemma OneTxRun(score: uint32, msgs: seq<Msg>, s: State)
    requires LeadsTo(score, msgs, s) && |msgs| < U32
    requires forall i :: 0 <= i < |msgs| ==> !msgs[i].ClaimLease? && SignerOf(msgs[i]) == "k"
    ensures RunOk(World(), Start(score), [DeliverTx(TxOf(msgs))])
    ensures OnlyReceipts(s, Run(World(), Start(score), [DeliverTx(TxOf(msgs))]), Hash())
  {
    var s0, tx := Start(score), TxOf(msgs);
    var steps := [DeliverTx(tx)];
    assert steps[..0] == [];
    assert Run(World(), s0, steps[..0]) == s0 && RunOk(World(), s0, steps[..0]);
    assert StepOk(World(), s0, steps[0]);
    NoLeases(s0, tx);
    StartFresh(score);
    hide Fresh;
    RunCallsSound(World(), s0, tx.calls);
    KeyedParts(s);
    RecordTransfersOnly(s, tx, |tx.calls|);
    hide Keyed, Extends, RecordTransfers, RunCalls, OnlyReceipts, AnteError, Start;
    assert Run(World(), s0, steps) == Deliver(World(), s0, tx);
  }

  lemma NoLeases(s: State, tx: Tx)
    requires s.leases == map[] && forall i :: 0 <= i < |tx.calls| ==> !tx.calls[i].msg.ClaimLease?
    ensures AnteError(s, tx).None?
  {
  }

  lemma PlainMessages()
    ensures forall i :: 0 <= i < |ThenFrozen()| ==> !ThenFrozen()[i].ClaimLease? && SignerOf(ThenFrozen()[i]) == "k"
    ensures forall i :: 0 <= i < |BothVoted(BlockTx)| ==> !BothVoted(BlockTx)[i].ClaimLease? && SignerOf(BothVoted(BlockTx)[i]) == "k"
    ensures |ThenFrozen()| == 6 && |BothVoted(BlockTx)| == 4
  {
  }

  lemma SameTables(s: State, s': State)
    requires OnlyReceipts(s, s', Hash())
    ensures s'.cases == s.cases && s'.freezes == s.freezes && s'.activeTxs == s.activeTxs
  {
  }

  /** The run of one such transaction, and what it leaves. */
  lemma FrozenRun()
    ensures var s0, steps := Start(86), [DeliverTx(TxOf(ThenFrozen()))]; var s := Run(World(), s0, steps);
      && Fresh(s0) && Keyed(s0) && RunOk(World(), s0, steps)
      && s.cases == map["A" := Executed("A", FreezeAddress), "B" := Executed("B", FreezeAddress)]
      && s.freezes == map["T" := FreezeRecord("B", "T", 1)]
  {
    var s := BothExecuted();
    hide LeadsTo, Run, RunOk, Start, Fresh, Keyed, OnlyReceipts, World, Executed, ThenFrozen, TxOf;
    StartFresh(86);
    PlainMessages();
    OneTxRun(86, ThenFrozen(), s);
    SameTables(s, Run(World(), Start(86), [DeliverTx(TxOf(ThenFrozen()))]));
  }

  lemma NotOwned(cases: Cases, freezes: map<string, FreezeRecord>)
    requires cases == map["A" := Executed("A", FreezeAddress), "B" := Executed("B", FreezeAddress)]
    requires freezes == map["T" := FreezeRecord("B", "T", 1)]
    ensures !FreezesOwned(cases, freezes) && !FreezesCanonical(World(), freezes)
  {
    assert cases["A"].target == "T" && freezes["T"].caseId == "B";
    assert World().account("T") == "t";
  }

  /** Both cases are executed, and the freeze of their one target belongs to the later one alone. */
  lemma LaterFreezeTakesOver()
    ensures var s0, steps := Start(86), [DeliverTx(TxOf(ThenFrozen()))]; var s := Run(World(), s0, steps);
      && Fresh(s0) && Keyed(s0) && RunOk(World(), s0, steps)
      && s.cases == map["A" := Executed("A", FreezeAddress), "B" := Executed("B", FreezeAddress)]
      && s.freezes == map["T" := FreezeRecord("B", "T", 1)]
      && !Holds(World(), OwnFreezes, s) && !NeverBroken(World(), OwnFreezes, EventsOf(World(), s0, steps))
  {
    FrozenRun();
    var s0, steps := Start(86), [DeliverTx(TxOf(ThenFrozen()))];
    hide Run, RunOk, EventsOf, NeverBroken, AlwaysHolds, Start, Fresh, Keyed, World, Executed, ThenFrozen, TxOf, FreezesOwned, FreezesCanonical;
    NotOwned(Run(World(), s0, steps).cases, Run(World(), s0, steps).freezes);
    OwnershipExact(World(), s0, steps, OwnFreezes);
  }

  lemma NotBlocked(cases: Cases, active: map<Bytes, ActiveSanction>)
    requires cases == map["A" := Approved("A", BlockTx), "B" := Approved("B", BlockTx)]
    requires Hash() in active && active[Hash()].caseId == "B"
    ensures !SanctionsOwned(cases, active)
  {
    assert cases["A"].txHash == Hash() by { hide Hash; }
    hide Hash;
  }

  lemma BlockedRun()
    ensures var s0, steps := Start(82), [DeliverTx(TxOf(BothVoted(BlockTx)))]; var s := Run(World(), s0, steps);
      && Fresh(s0) && Keyed(s0) && RunOk(World(), s0, steps)
      && s.cases == map["A" := Approved("A", BlockTx), "B" := Approved("B", BlockTx)]
      && Hash() in s.activeTxs && s.activeTxs[Hash()].caseId == "B"
  {
    assert Recommends(82, BlockTx);
    var s := BothApproved(82, BlockTx);
    hide LeadsTo, Run, RunOk, Start, Fresh, Keyed, OnlyReceipts, World, Approved, BothVoted, TxOf, Hash;
    StartFresh(82);
    PlainMessages();
    OneTxRun(82, BothVoted(BlockTx), s);
    SameTables(s, Run(World(), Start(82), [DeliverTx(TxOf(BothVoted(BlockTx)))]));
  }

  /** Both cases are approved, and the sanction of their one tx belongs to the later one alone. */
  lemma LaterBlockTakesOver()
    ensures var s0, steps := Start(82), [DeliverTx(TxOf(BothVoted(BlockTx)))]; var s := Run(World(), s0, steps);
      && Fresh(s0) && Keyed(s0) && RunOk(World(), s0, steps)
      && s.cases == map["A" := Approved("A", BlockTx), "B" := Approved("B", BlockTx)]
      && Hash() in s.activeTxs && s.activeTxs[Hash()].caseId == "B"
      && !Holds(World(), OwnSanctions, s) && !NeverBroken(World(), OwnSanctions, EventsOf(World(), s0, steps))
  {
    BlockedRun();
    var s0, steps := Start(82), [DeliverTx(TxOf(BothVoted(BlockTx)))];
    hide Run, RunOk, EventsOf, NeverBroken, AlwaysHolds, Start, Fresh, Keyed, World, Approved, BothVoted, TxOf, SanctionsOwned, Hash;
    NotBlocked(Run(World(), s0, steps).cases, Run(World(), s0, steps).activeTxs);
    OwnershipExact(World(), s0, steps, OwnSanctions);
  }

  lemma OnlyRecord(s: State)
    requires s.freezes == map["T" := FreezeRecord("B", "T", 1)]
    ensures forall to: string :: to != "T" ==> SendError(s, "t", to, None).None?
  {
  }

  /** An accepted opening that files its case under the spelling "T" of account "t". */
  lemma OtherSpellingOpens()
    ensures OpenCaseError(World(), Start(86), Opening("A", FreezeAddress)).None?
    ensures NewCase(World(), Start(86), Opening("A", FreezeAddress)).target == "T" && World().account("T") == "t"
  {
    assert Stage(Start(86), 86);
    OpeningAccepted(Start(86), 86, "A", FreezeAddress);
    MadeCase(Start(86), 86, "A", FreezeAddress);
    hide OpenCaseError, NewCase, Start;
  }

  /** The freeze that follows is in force, and the account may send to anyone but the name "T". */
  lemma OtherSpellingStopsNothing()
    ensures var s0, steps := Start(86), [DeliverTx(TxOf(ThenFrozen()))]; var s := Run(World(), s0, steps);
      && Fresh(s0) && Keyed(s0) && RunOk(World(), s0, steps) && "T" in s.freezes
      && (forall to: string :: to != "T" ==> SendError(s, "t", to, None).None?)
      && !Holds(World(), CanonicalFreezes, s) && !NeverBroken(World(), CanonicalFreezes, EventsOf(World(), s0, steps))
  {
    FrozenRun();
    var s0, steps := Start(86), [DeliverTx(TxOf(ThenFrozen()))];
    hide Run, RunOk, EventsOf, NeverBroken, AlwaysHolds, Start, Fresh, Keyed, World, Executed, ThenFrozen, TxOf, FreezesOwned, FreezesCanonical;
    OnlyRecord(Run(World(), s0, steps));
    NotOwned(Run(World(), s0, steps).cases, Run(World(), s0, steps).freezes);
    OwnershipExact(World(), s0, steps, CanonicalFreezes);
  }
}
