/** x/sanction/keeper/voting_snapshot.go and the tally of msg_server.go, on the keeper's store. */
module Voting {
  import opened Basics
  import opened Types
  import opened Store
  import opened Handlers
  import opened Frames
  import opened KeeperStore
  import opened Strings
  import Tally
  import Percent
  import RegistrySync

  // ---- freezing the electorate

  ghost predicate DistinctIds(xs: seq<AgentInfo>)
  {
    forall i, j :: 0 <= i < j < |xs| ==> xs[i].agentId != xs[j].agentId
  }

  ghost predicate AscendingIds(xs: seq<AgentInfo>)
  {
    forall i, j :: 0 <= i < j < |xs| ==> Less(xs[i].agentId, xs[j].agentId)
  }

  /** Inserting an id between the smaller and the larger ones. */
  lemma InsertAscending(xs: seq<AgentInfo>, p: nat, x: AgentInfo)
    requires AscendingIds(xs) && p <= |xs|
    requires forall i :: 0 <= i < p ==> Less(xs[i].agentId, x.agentId)
    requires p < |xs| ==> Less(x.agentId, xs[p].agentId)
    ensures AscendingIds(xs[..p] + [x] + xs[p..])
    ensures forall y :: y in xs[..p] + [x] + xs[p..] <==> y in xs || y == x
  {
    var r := xs[..p] + [x] + xs[p..];
    forall i, j | 0 <= i < j < |r| ensures Less(r[i].agentId, r[j].agentId) {
      if i == p && j > p + 1 {
        assert r[j] == xs[j - 1] && r[i] == x;
        LessTransitive(x.agentId, xs[p].agentId, xs[j - 1].agentId);
      }
    }
    assert xs == xs[..p] + xs[p..];
  }

  /** sort.Slice by agent id. */
  method SortByAgentId(xs: seq<AgentInfo>) returns (r: seq<AgentInfo>)
    requires DistinctIds(xs)
    ensures AscendingIds(r) && forall y :: y in r <==> y in xs
  {
    r := [];
    for k := 0 to |xs|
      invariant AscendingIds(r) && forall y :: y in r <==> y in xs[..k]
    {
      hide AscendingIds, Less;
      var p := 0;
      while p < |r| && Less(r[p].agentId, xs[k].agentId)
        invariant 0 <= p <= |r| && forall i :: 0 <= i < p ==> Less(r[i].agentId, xs[k].agentId)
      {
        p := p + 1;
      }
      if p < |r| {
        assert r[p] in xs[..k];
        LessTotal(r[p].agentId, xs[k].agentId);
      }
      InsertAscending(r, p, xs[k]);
      r := r[..p] + [xs[k]] + r[p..];
      assert xs[..k + 1] == xs[..k] + [xs[k]];
    }
    assert xs[..|xs|] == xs;
  }

  function Eligible(a: AgentInfo): bool { a.active && a.power > 0 && a.publicKey != [] }

  /** The eligible members of an agent table in ascending order are VotersOf. */
  lemma VotersUnique(agents: map<string, AgentInfo>, r: seq<AgentInfo>)
    requires KeyedAgents(agents) && AscendingIds(r)
    requires forall y :: y in r <==> Eligible(y) && y.agentId in agents && agents[y.agentId] == y
    ensures r == VotersOf(agents)
  {
    var want := Sorted(Store.Eligible(agents));
    var ids := seq(|r|, i requires 0 <= i < |r| => r[i].agentId);
    forall i | 0 <= i < |r| ensures r[i] in r && agents[r[i].agentId] == r[i] && r[i].agentId in Store.Eligible(agents) {}
    forall id ensures id in ids <==> id in want {
      if id in want {
        assert agents[id] in r;
        var i :| 0 <= i < |r| && r[i] == agents[id];
        assert ids[i] == id;
      }
    }
    AscendingUnique(ids, want);
    hide Sorted, Less;
  }

  /** The case with the electorate and rules of the current state. */
  ghost function Frozen(s: State, c: SanctionCase): SanctionCase
  {
    c.(voters := VotersOf(s.agents), quorum := Store.GetParams(s).quorum, unanimous := Store.GetParams(s).unanimous,
       snapshotVersion := 1)
  }

  lemma AllAgentsTable(agents: map<string, AgentInfo>)
    requires KeyedAgents(agents)
    ensures var all := RegistrySync.AllAgents(agents);
      && DistinctIds(all)
      && forall a :: a in all <==> a.agentId in agents && agents[a.agentId] == a
  {
    var ids := Sorted(agents.Keys);
    var all := RegistrySync.AllAgents(agents);
    assert forall i :: 0 <= i < |ids| ==> ids[i] in ids;
    forall i, j | 0 <= i < j < |all| ensures all[i].agentId != all[j].agentId { LessAsymmetric(ids[i], ids[j]); }
    forall id | id in agents ensures agents[id] in all {
      assert id in ids;
      var i :| 0 <= i < |ids| && ids[i] == id;
      assert all[i] == agents[id];
    }
  }

  /** The loop that collects the eligible agents. */
  method SelectVoters(all: seq<AgentInfo>) returns (voters: seq<AgentInfo>)
    requires DistinctIds(all)
    ensures DistinctIds(voters) && forall y :: y in voters <==> y in all && Eligible(y)
  {
    voters := [];
    for k := 0 to |all|
      invariant DistinctIds(voters)
      invariant forall y :: y in voters <==> y in all[..k] && Eligible(y)
    {
      assert all[..k + 1] == all[..k] + [all[k]];
      var a := all[k];
      if a.active && a.power > 0 && |a.publicKey| > 0 {
        forall i | 0 <= i < |voters| ensures voters[i].agentId != a.agentId { assert voters[i] in all[..k]; }
        voters := voters + [a];
      }
    }
    assert all[..|all|] == all;
  }

  method SnapshotCaseVoters(k: Keeper, c: SanctionCase) returns (ok: bool, frozen: SanctionCase)
    requires KeyedAgents(k.store.agents)
    ensures ok <==> c.snapshotVersion == 0 && c.voters == [] && SnapshotValid(k.env, Frozen(k.store, c))
    ensures ok ==> frozen == Frozen(k.store, c)
  {
    hide SnapshotValid, AscendingIds, DistinctIds, Eligible, RegistrySync.AllAgents, VotersOf;
    frozen := c;
    if c.snapshotVersion != 0 || |c.voters| != 0 {
      return false, frozen;
    }
    var all := k.GetAllAgents();
    AllAgentsTable(k.store.agents);
    var voters := SelectVoters(all);
    if |voters| == 0 {
      NoVoters(k.store.agents, voters);
      NoSnapshot(k.env, Frozen(k.store, c));
      return false, frozen;
    }
    voters := SortByAgentId(voters);
    VotersUnique(k.store.agents, voters);
    var params := k.GetParams();
    frozen := c.(voters := voters, quorum := params.quorum, unanimous := params.unanimous, snapshotVersion := 1);
    ok := ValidateCaseSnapshot(k.env, frozen);
  }

  lemma NoVoters(agents: map<string, AgentInfo>, voters: seq<AgentInfo>)
    requires KeyedAgents(agents) && voters == []
    requires forall y :: y in voters <==> y.agentId in agents && agents[y.agentId] == y && Eligible(y)
    ensures VotersOf(agents) == []
  {
    VotersUnique(agents, voters);
    hide VotersOf;
  }

  lemma NoSnapshot(env: Env, c: SanctionCase)
    requires c.voters == []
    ensures !SnapshotValid(env, c)
  {
  }

  // ---- reading votes

  method FindCaseVoter(c: SanctionCase, agentId: string) returns (voter: Option<AgentInfo>)
    ensures voter == CaseVoter(c, agentId)
  {
    if c.snapshotVersion != 1 { return None; }
    for k := 0 to |c.voters|
      invariant FindVoter(c.voters, agentId) == FindVoter(c.voters[k..], agentId)
    {
      if c.voters[k].agentId == agentId { return Some(c.voters[k]); }
      assert c.voters[k..][1..] == c.voters[k + 1..];
    }
    return None;
  }

  /** The stored votes of one case, one per agent. */
  ghost predicate VotesFor(votes: Votes, caseId: string, vs: seq<SanctionVote>)
  {
    && (forall i :: 0 <= i < |vs| ==> (caseId, vs[i].agentId) in votes && votes[(caseId, vs[i].agentId)] == vs[i])
    && (forall id :: (caseId, id) in votes ==> votes[(caseId, id)] in vs)
    && (forall i, j :: 0 <= i < j < |vs| ==> vs[i].agentId != vs[j].agentId)
  }

  method GetSanctionVotes(votes: Votes, caseId: string) returns (vs: seq<SanctionVote>)
    requires KeyedVotes(votes)
    ensures VotesFor(votes, caseId, vs)
  {
    vs := [];
    var rest := set key | key in votes && key.0 == caseId;
    while rest != {}
      invariant rest <= votes.Keys && forall key :: key in rest ==> key.0 == caseId
      invariant forall i :: 0 <= i < |vs| ==>
          (caseId, vs[i].agentId) in votes && votes[(caseId, vs[i].agentId)] == vs[i] && (caseId, vs[i].agentId) !in rest
      invariant forall id :: (caseId, id) in votes && (caseId, id) !in rest ==> votes[(caseId, id)] in vs
      invariant forall i, j :: 0 <= i < j < |vs| ==> vs[i].agentId != vs[j].agentId
      decreases |rest|
    {
      var key :| key in rest;
      assert key == (caseId, key.1) && votes[key].agentId == key.1;
      vs := vs + [votes[key]];
      rest := rest - {key};
    }
  }

  lemma {:induction false} FirstOptionDistinct(vs: seq<SanctionVote>, i: nat)
    requires i < |vs| && forall a, b :: 0 <= a < b < |vs| ==> vs[a].agentId != vs[b].agentId
    ensures Tally.FirstOption(vs, vs[i].agentId) == vs[i].option
  {
    if i > 0 { FirstOptionDistinct(vs[1..], i - 1); }
  }

  /** With one vote per agent, the first vote is the vote. */
  lemma ChoosersAreVoters(votes: Votes, caseId: string, vs: seq<SanctionVote>, option: VoteOption)
    requires KeyedVotes(votes) && VotesFor(votes, caseId, vs)
    ensures Tally.Choosers(vs, option) == Voted(votes, caseId, option)
  {
    forall i | 0 <= i < |vs| ensures Tally.FirstOption(vs, vs[i].agentId) == vs[i].option {
      FirstOptionDistinct(vs, i);
    }
    forall v | v in vs ensures Tally.FirstOption(vs, v.agentId) == v.option && votes[(caseId, v.agentId)] == v {
      var i :| 0 <= i < |vs| && vs[i] == v;
    }
    hide Tally.FirstOption;
    forall id ensures id in Tally.Choosers(vs, option) <==> id in Voted(votes, caseId, option) {
      if id in Tally.Choosers(vs, option) {
        var v :| v in vs && Tally.FirstOption(vs, v.agentId) == option && v.agentId == id;
        assert (caseId, id) in votes && (caseId, id).0 == caseId;
      }
      if id in Voted(votes, caseId, option) {
        var key :| key in votes && key.0 == caseId && votes[key].option == option && key.1 == id;
        assert key == (caseId, id);
        assert votes[key] in vs && votes[key].agentId == id;
      }
    }
  }

  /** roundedPercent, with the zero guard of the source. */
  method PercentOf(power: nat, total: nat) returns (p: nat)
    requires power <= total
    ensures p == if total == 0 then 0 else Percent.RoundedPercent(power, total)
  {
    if total == 0 { return 0; }
    return Percent.RoundedPercent(power, total);
  }

  /** Sets the status from the stored votes; an approved block takes effect at once. */
  method RecomputeCaseStatus(k: Keeper, c: SanctionCase) returns (updated: SanctionCase, approved: bool, rejected: bool)
    requires KeyedVotes(k.store.votes)
    modifies k
    ensures updated == c.(status := RecomputedStatus(old(k.store.votes), c))
    ensures k.store == if Activates(old(k.store.votes), c) then SetActiveTx(old(k.store), ActivationOf(old(k.store), c)) else old(k.store)
    ensures approved <==> c.snapshotVersion == 1 && QuorumMet(old(k.store.votes), c)
    ensures rejected <==> c.snapshotVersion == 1 && !approved && RejectionMet(old(k.store.votes), c)
  {
    updated := c;
    if c.snapshotVersion != 1 {
      return c, false, false;
    }
    var vs := GetSanctionVotes(k.store.votes, c.caseId);
    ChoosersAreVoters(k.store.votes, c.caseId, vs, Approve);
    ChoosersAreVoters(k.store.votes, c.caseId, vs, Reject);
    PresentPointers(c.voters);
    PresentPointers(vs);
    var tally := Tally.TallySnapshotVotes(Pointers(c.voters), Pointers(vs));
    hide VotesFor, KeyedVotes, Tally.Choosers, Voted, Percent.RoundedPercent, Tally.PowerIn, Tally.TotalPower;
    if tally.total == 0 {
      return c, false, false;
    }
    var percent := PercentOf(tally.approve, tally.total);
    if percent >= c.quorum {
      updated := c.(status := Approved);
      if c.action == BlockTx {
        k.store := SetActiveTx(k.store, ActiveSanction(c.caseId, c.txHash, c.target, c.action, k.store.height));
      }
      return updated, true, false;
    }
    percent := PercentOf(tally.reject, tally.total);
    if percent >= c.quorum {
      return c.(status := Rejected), false, true;
    }
    return c, false, false;
  }

  method HasUnanimousApproval(k: Keeper, caseId: string) returns (all: bool)
    requires KeyedCases(k.store.cases)
    ensures all <==> caseId in k.store.cases && Unanimous(k.store.votes, k.store.cases[caseId])
  {
    if caseId !in k.store.cases || k.store.cases[caseId].snapshotVersion != 1 { return false; }
    var c := k.store.cases[caseId];
    var active := 0;
    for i := 0 to |c.voters|
      invariant forall j :: 0 <= j < i && c.voters[j].active && c.voters[j].power != 0 ==>
          (caseId, c.voters[j].agentId) in k.store.votes && k.store.votes[(caseId, c.voters[j].agentId)].option == Approve
      invariant active > 0 <==> exists j :: 0 <= j < i && c.voters[j].active && c.voters[j].power != 0
      invariant active >= 0
    {
      var a := c.voters[i];
      if !a.active || a.power == 0 { continue; }
      active := active + 1;
      if (caseId, a.agentId) !in k.store.votes || k.store.votes[(caseId, a.agentId)].option != Approve {
        assert a in c.voters;
        return false;
      }
    }
    return active > 0;
  }
}
