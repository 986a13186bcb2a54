/** tallySnapshotVotes: counting the votes of a frozen electorate. */
module Tally {
  import opened Basics
  import opened Types

  datatype Count = Count(total: nat, approve: nat, reject: nat)

  /** Power of the active voters whose id is in `ids`. */
  function PowerIn(voters: seq<AgentInfo>, ids: set<string>): nat
  {
    if voters == [] then 0 else
      var v := voters[|voters| - 1];
      PowerIn(voters[..|voters| - 1], ids) + if v.active && v.agentId in ids then v.power else 0
  }

  function TotalPower(voters: seq<AgentInfo>): nat
  {
    if voters == [] then 0 else
      var v := voters[|voters| - 1];
      TotalPower(voters[..|voters| - 1]) + if v.active then v.power else 0
  }

  /** The option of the first vote cast by `id`. */
  function FirstOption(votes: seq<SanctionVote>, id: string): VoteOption
  {
    if votes == [] then NoOption
    else if votes[0].agentId == id then votes[0].option
    else FirstOption(votes[1..], id)
  }

  /** Everyone whose first vote is `option`. */
  function Choosers(votes: seq<SanctionVote>, option: VoteOption): set<string>
  {
    set v | v in votes && FirstOption(votes, v.agentId) == option :: v.agentId
  }

  /** The declarative tally: each active voter counts once, by its first vote. */
  function CountOf(voters: seq<AgentInfo>, votes: seq<SanctionVote>): Count
  {
    Count(TotalPower(voters), PowerIn(voters, Choosers(votes, Approve)), PowerIn(voters, Choosers(votes, Reject)))
  }

  lemma {:induction false} PowerInBound(voters: seq<AgentInfo>, ids: set<string>)
    ensures PowerIn(voters, ids) <= TotalPower(voters)
  {
    if voters != [] { PowerInBound(voters[..|voters| - 1], ids); }
  }

  lemma {:induction false} PowerInMonotone(voters: seq<AgentInfo>, ids: set<string>, more: set<string>)
    requires forall v :: v in voters && v.agentId in ids ==> v.agentId in more
    ensures PowerIn(voters, ids) <= PowerIn(voters, more)
  {
    if voters != [] { PowerInMonotone(voters[..|voters| - 1], ids, more); }
  }

  lemma {:induction false} PowerInDisjoint(voters: seq<AgentInfo>, a: set<string>, b: set<string>)
    requires a !! b
    ensures PowerIn(voters, a) + PowerIn(voters, b) <= TotalPower(voters)
  {
    if voters != [] { PowerInDisjoint(voters[..|voters| - 1], a, b); }
  }

  lemma {:induction false} PowerInAll(voters: seq<AgentInfo>, ids: set<string>)
    requires forall v :: v in voters ==> v.agentId in ids
    ensures PowerIn(voters, ids) == TotalPower(voters)
  {
    if voters != [] { PowerInAll(voters[..|voters| - 1], ids); }
  }

  lemma {:induction false} TotalPowerPositive(voters: seq<AgentInfo>)
    requires voters != [] && forall v :: v in voters ==> v.active && v.power > 0
    ensures TotalPower(voters) > 0
  {
    if |voters| > 1 { TotalPowerPositive(voters[..|voters| - 1]); }
  }

  lemma {:induction false} FirstOptionIn(votes: seq<SanctionVote>, id: string)
    ensures FirstOption(votes, id) != NoOption ==> exists v :: v in votes && v.agentId == id
  {
    if votes != [] && votes[0].agentId != id { FirstOptionIn(votes[1..], id); }
    else if votes != [] { assert votes[0] in votes; }
  }

  lemma ChoosersExact(votes: seq<SanctionVote>, option: VoteOption, id: string)
    requires option != NoOption
    ensures id in Choosers(votes, option) <==> FirstOption(votes, id) == option
  {
    FirstOptionIn(votes, id);
  }

  /** However votes are repeated, no power is counted twice. */
  lemma CountBounded(voters: seq<AgentInfo>, votes: seq<SanctionVote>)
    ensures var c := CountOf(voters, votes); c.approve + c.reject <= c.total
  {
    PowerInDisjoint(voters, Choosers(votes, Approve), Choosers(votes, Reject));
  }

  lemma {:induction false} FirstOptionAppend(votes: seq<SanctionVote>, v: SanctionVote, id: string)
    ensures FirstOption(votes + [v], id) ==
            if (exists w :: w in votes && w.agentId == id) then FirstOption(votes, id)
            else if v.agentId == id then v.option else NoOption
  {
    if votes != [] {
      FirstOptionAppend(votes[1..], v, id);
      assert (votes + [v])[1..] == votes[1..] + [v];
      assert votes == [votes[0]] + votes[1..];
    }
  }

  /** The scan form: the first matching entry that is not nil. */
  method ScanOption(votes: seq<Option<SanctionVote>>, id: string) returns (option: VoteOption)
    ensures option == FirstOption(Present(votes), id)
  {
    option := NoOption;
    var done := false;
    var k := 0;
    while k < |votes| && !done
      invariant 0 <= k <= |votes|
      invariant !done ==> option == NoOption && forall v :: v in Present(votes[..k]) ==> v.agentId != id
      invariant done ==> exists v :: v in Present(votes[..k]) && v.agentId == id
      invariant option == FirstOption(Present(votes[..k]), id)
    {
      assert votes[..k + 1][..k] == votes[..k];
      if votes[k].Some? {
        FirstOptionAppend(Present(votes[..k]), votes[k].value, id);
        if votes[k].value.agentId == id {
          option := votes[k].value.option;
          done := true;
          assert votes[k].value in Present(votes[..k + 1]);
        }
      }
      k := k + 1;
    }
    FirstOptionPrefix(votes, k, id);
    assert votes[..|votes|] == votes;
  }

  lemma {:induction false} FirstOptionPrefix(votes: seq<Option<SanctionVote>>, k: nat, id: string)
    requires k <= |votes| && (k < |votes| ==> exists v :: v in Present(votes[..k]) && v.agentId == id)
    ensures FirstOption(Present(votes), id) == FirstOption(Present(votes[..k]), id)
    decreases |votes| - k
  {
    if k == |votes| {
      assert votes[..k] == votes;
    } else {
      assert votes[..k + 1][..k] == votes[..k];
      if votes[k].Some? { FirstOptionAppend(Present(votes[..k]), votes[k].value, id); }
      FirstOptionPrefix(votes, k + 1, id);
    }
  }

  /** The map form: the first option of each agent, built in one pass. */
  method IndexOptions(votes: seq<Option<SanctionVote>>) returns (options: map<string, VoteOption>)
    ensures forall id ::
      (if id in options then options[id] else NoOption) == FirstOption(Present(votes), id)
  {
    options := map[];
    for k := 0 to |votes|
      invariant forall id :: id in options <==> exists v :: v in Present(votes[..k]) && v.agentId == id
      invariant forall id :: id in options ==> options[id] == FirstOption(Present(votes[..k]), id)
    {
      assert votes[..k + 1][..k] == votes[..k];
      if votes[k].Some? {
        var vote := votes[k].value;
        ghost var before := Present(votes[..k]);
        assert Present(votes[..k + 1]) == before + [vote];
        forall id ensures FirstOption(before + [vote], id) ==
            if (exists w :: w in before && w.agentId == id) then FirstOption(before, id)
            else if vote.agentId == id then vote.option else NoOption {
          FirstOptionAppend(before, vote, id);
        }
        assert vote in before + [vote];
        if vote.agentId !in options {
          options := options[vote.agentId := vote.option];
        }
      }
    }
    assert votes[..|votes|] == votes;
    forall id ensures id !in options ==> FirstOption(Present(votes), id) == NoOption {
      FirstOptionIn(Present(votes), id);
    }
  }

  lemma PowerAppend(voters: seq<AgentInfo>, v: AgentInfo, ids: set<string>)
    ensures PowerIn(voters + [v], ids) == PowerIn(voters, ids) + if v.active && v.agentId in ids then v.power else 0
    ensures TotalPower(voters + [v]) == TotalPower(voters) + if v.active then v.power else 0
  {
    assert (voters + [v])[..|voters|] == voters;
  }

  lemma PresentStep<T>(xs: seq<Option<T>>, k: nat)
    requires k < |xs|
    ensures Present(xs[..k + 1]) == if xs[k].Some? then Present(xs[..k]) + [xs[k].value] else Present(xs[..k])
  {
    assert xs[..k + 1][..k] == xs[..k];
  }

  /** Above eight votes the options are indexed first; both forms give the declarative tally. */
  method TallySnapshotVotes(voters: seq<Option<AgentInfo>>, votes: seq<Option<SanctionVote>>) returns (tally: Count)
    ensures tally == CountOf(Present(voters), Present(votes))
    ensures tally.approve + tally.reject <= tally.total
  {
    var indexed := |votes| > 8;
    var options: map<string, VoteOption> := map[];
    if indexed { options := IndexOptions(votes); }
    ghost var approvers := Choosers(Present(votes), Approve);
    ghost var rejecters := Choosers(Present(votes), Reject);
    var total: nat, approve: nat, reject: nat := 0, 0, 0;
    for k := 0 to |voters|
      invariant total == TotalPower(Present(voters[..k]))
      invariant approve == PowerIn(Present(voters[..k]), approvers)
      invariant reject == PowerIn(Present(voters[..k]), rejecters)
    {
      PresentStep(voters, k);
      if voters[k].Some? {
        var voter := voters[k].value;
        PowerAppend(Present(voters[..k]), voter, approvers);
        PowerAppend(Present(voters[..k]), voter, rejecters);
        if voter.active {
          var option := NoOption;
          if indexed {
            option := if voter.agentId in options then options[voter.agentId] else NoOption;
          } else {
            option := ScanOption(votes, voter.agentId);
          }
          ChoosersExact(Present(votes), Approve, voter.agentId);
          ChoosersExact(Present(votes), Reject, voter.agentId);
          total := total + voter.power;
          match option {
            case Approve => approve := approve + voter.power;
            case Reject => reject := reject + voter.power;
            case _ =>
          }
        }
      }
    }
    assert voters[..|voters|] == voters;
    tally := Count(total, approve, reject);
    CountBounded(Present(voters), Present(votes));
  }
}
