/** rpcPool of dev/agent/internal/chainclient/pool.go: the selection as it runs, and the calls around it. */
module PoolClient {
  import opened Basics
  import opened Strings
  import opened Pool
  import Decimal

  datatype CallKind = StatusCall | BroadcastCall | OtherCall

  class RpcPool {
    const n: nat
    const chainId: string
    const maxLag: uint64
    const minAgreement: nat
    var trusted: string
    var checkpoint: Checkpoint
    var selected: Option<nat>
    var genesis: map<nat, string>

    function View(): State
      reads this
    {
      State(n, chainId, maxLag, minAgreement, trusted, checkpoint, selected, genesis)
    }

    /** A minimum agreement of 0 asks for a majority of the endpoints. */
    constructor (n: nat, chainId: string, maxLag: uint64, agreement: nat, trusted: string, saved: Checkpoint)
      requires n > 0 && agreement <= n
      ensures View() == State(n, chainId, maxLag, if agreement == 0 then n / 2 + 1 else agreement,
                              if saved.height > 0 then saved.genesis else trusted, saved, None, map[])
      ensures StateOk(View())
    {
      this.n, this.chainId, this.maxLag := n, chainId, maxLag;
      this.minAgreement := if agreement == 0 then n / 2 + 1 else agreement;
      this.trusted := if saved.height > 0 then saved.genesis else trusted;
      this.checkpoint, this.selected, this.genesis := saved, None, map[];
    }

    /** One selection; the order in which the groups are visited is left open. */
    method SelectEndpoint(answers: seq<Answers>, f: Finish) returns (o: Outcome)
      requires StateOk(View()) && |answers| == n
      modifies this
      ensures Selects(old(View()), answers, f, View(), o)
      ensures View().minAgreement == old(View()).minAgreement
    {
      hide Agreed, Group, IsChosen, NextCheckpoint, Common, BallotOf, Probes, Concludes, Rising, Highest, Selects;
      var p := View();
      selected := None;
      var candidates := RunProbes(p, answers);
      var common, highest := FindCommon(p, answers, candidates);
      var ballots := RunBallots(p, answers, candidates, common, highest);
      var groups := GroupBallots(p, answers, ballots);
      var agreed: Option<string> := None;
      var rest := groups.Keys;
      while rest != {}
        invariant rest <= groups.Keys
        invariant agreed.Some? ==> Agreed(p, answers, agreed.value) && agreed.value in groups && agreed.value !in rest
        invariant forall key :: key in groups && key !in rest && Agreed(p, answers, key) ==> agreed == Some(key)
        invariant View() == p.(selected := None)
        decreases |rest|
      {
        var key :| key in rest;
        rest := rest - {key};
        AgreedByCount(p, answers, groups, key);
        if |groups[key]| < minAgreement { continue; }
        if agreed.Some? {
          ConflictingGroups(p, answers, f, agreed.value, key);
          return Conflict;
        }
        agreed := Some(key);
      }
      AgreedInGroups(p, answers, groups);
      if agreed.None? {
        NoGroup(p, answers, f);
        return NoAgreement;
      }
      var key := agreed.value;
      AgreedByCount(p, answers, groups, key);
      var chosen := FirstHighest(p, answers, key, groups[key], candidates);
      var next := ReadCheckpoint(p, answers, key, chosen, candidates, common);
      o := Finishing(groups[key], next, chosen, f, Group(p, answers, key));
      OnlyWinner(p, answers, f, key, chosen, View(), o);
    }

    method Finishing(group: seq<nat>, next: Checkpoint, chosen: nat, f: Finish, ghost members: set<nat>) returns (o: Outcome)
      requires (forall i :: i in group <==> i in members) && selected == None
      modifies this
      ensures Concludes(old(View()), members, next, chosen, f, View(), o)
    {
      if next.height < checkpoint.height { return Backwards; }
      if next != checkpoint && f.persists && !f.persistOk { return PersistFailed; }
      ghost var before := genesis;
      checkpoint := next;
      trusted := next.genesis;
      for i := 0 to |group|
        invariant genesis == Remember(before, set j | 0 <= j < i :: group[j], next.genesis)
        invariant checkpoint == next && trusted == next.genesis && selected == None
      {
        genesis := genesis[group[i] := next.genesis];
      }
      assert (set j | 0 <= j < |group| :: group[j]) == members;
      if f.cancelled { return Cancelled; }
      if f.expired { return Stale; }
      selected := Some(chosen);
      return Selected(next.height);
    }

    /** call: only a status request, a broadcast, or a pool without a client selects again. */
    method Call(kind: CallKind, answers: seq<Answers>, f: Finish) returns (result: Outcome, client: Option<nat>)
      requires StateOk(View()) && |answers| == n
      modifies this
      ensures kind == OtherCall && old(selected).Some? ==> View() == old(View()) && client == old(selected)
      ensures kind != OtherCall || old(selected).None? ==>
        Selects(old(View()), answers, f, View(), result)
        && (client.Some? <==> result.Selected? && kind != StatusCall) && (client.Some? ==> client == selected)
    {
      client := None;
      result := Selected(checkpoint.height);
      if kind == StatusCall || kind == BroadcastCall || selected.None? {
        ghost var p := View();
        result := SelectEndpoint(answers, f);
        SelectedClient(p, answers, f, View(), result);
        if !result.Selected? { return; }
        if kind == StatusCall { return; }
      }
      client := selected;
    }
  }

  lemma SelectedClient(p: State, answers: seq<Answers>, f: Finish, p': State, o: Outcome)
    requires Selects(p, answers, f, p', o)
    ensures o.Selected? <==> p'.selected.Some?
  {
    hide Agreed, IsChosen, NextCheckpoint, Group;
    var key, i := SelectionCases(p, answers, f, p', o);
    hide Selects;
  }

  // ---- the parts of a selection

  method RunProbes(p: State, answers: seq<Answers>) returns (cs: seq<Option<Candidate>>)
    ensures cs == Probes(p, answers)
  {
    hide Probe;
    cs := [];
    for i := 0 to |answers|
      invariant |cs| == i && forall j :: 0 <= j < i ==> cs[j] == Probe(p, j, answers[j])
    {
      cs := cs + [Probe(p, i, answers[i])];
    }
  }

  /** The highest candidate, then the lowest one within the allowed lag of it. */
  method FindCommon(p: State, answers: seq<Answers>, cs: seq<Option<Candidate>>) returns (common: uint64, highest: uint64)
    requires cs == Probes(p, answers)
    ensures common == Common(p, answers) && highest == Highest(cs)
  {
    highest := 0;
    for i := 0 to |cs|
      invariant highest == Highest(cs[..i])
    {
      assert cs[..i + 1][..i] == cs[..i];
      if cs[i].Some? && cs[i].value.height > highest { highest := cs[i].value.height; }
    }
    assert cs[..|cs|] == cs;
    common := highest;
    for i := 0 to |cs|
      invariant common == CommonHeight(cs[..i], highest, p.maxLag)
    {
      assert cs[..i + 1][..i] == cs[..i];
      if cs[i].Some? {
        HighestBounds(cs, i);
        if highest - cs[i].value.height > p.maxLag { continue; }
        if cs[i].value.height < common { common := cs[i].value.height; }
      }
    }
  }

  /** The second round of probes: the block at the common height, as the key of a group. */
  method RunBallots(p: State, answers: seq<Answers>, cs: seq<Option<Candidate>>, common: uint64, highest: uint64)
    returns (ballots: seq<Option<string>>)
    requires cs == Probes(p, answers) && common == Common(p, answers) && highest == Highest(cs)
    ensures |ballots| == |answers| && forall i :: 0 <= i < |answers| ==> ballots[i] == BallotOf(p, answers, i)
  {
    hide Probe, BlockReference, Common, Highest;
    ballots := [];
    for i := 0 to |answers|
      invariant |ballots| == i && forall j :: 0 <= j < i ==> ballots[j] == BallotOf(p, answers, j)
    {
      var c := cs[i];
      var ballot: Option<string> := None;
      if c.Some? && highest - c.value.height <= p.maxLag {
        var block := BlockReference(answers[i].atCommon(common), common, p.chainId);
        if block.Some? && !(common == c.value.height && !EqualFold(block.value.hash, c.value.statusHash)) && block.value.timely {
          ballot := Some(c.value.genesis + "/" + block.value.hash);
        }
      }
      ballots := ballots + [ballot];
    }
  }

  ghost predicate Rising(ms: seq<nat>)
  {
    forall i, j :: 0 <= i < j < |ms| ==> ms[i] < ms[j]
  }

  /** The voters for one key, in the order in which they were probed. */
  ghost predicate Members(ms: seq<nat>, ballots: seq<Option<string>>, key: string)
  {
    Rising(ms) && forall i: nat :: i in ms <==> i < |ballots| && ballots[i] == Some(key)
  }

  ghost predicate GroupsOf(groups: map<string, seq<nat>>, ballots: seq<Option<string>>)
  {
    && (forall key :: key in groups ==> Members(groups[key], ballots, key) && groups[key] != [])
    && (forall i :: 0 <= i < |ballots| && ballots[i].Some? ==> ballots[i].value in groups)
  }

  lemma MembersMore(ms: seq<nat>, ballots: seq<Option<string>>, x: Option<string>, key: string)
    requires Members(ms, ballots, key)
    ensures Members(if x == Some(key) then ms + [|ballots|] else ms, ballots + [x], key)
  {
    forall i | 0 <= i < |ms| ensures ms[i] < |ballots| { assert ms[i] in ms; }
  }

  lemma GroupsMore(groups: map<string, seq<nat>>, ballots: seq<Option<string>>, x: Option<string>)
    requires GroupsOf(groups, ballots)
    ensures GroupsOf(if x.None? then groups
                     else groups[x.value := (if x.value in groups then groups[x.value] else []) + [|ballots|]], ballots + [x])
  {
    forall key | key in groups
      ensures Members(if x == Some(key) then groups[key] + [|ballots|] else groups[key], ballots + [x], key)
    {
      MembersMore(groups[key], ballots, x, key);
    }
    if x.Some? && x.value !in groups {
      assert Members([], ballots, x.value);
      MembersMore([], ballots, x, x.value);
    }
    hide Members;
  }

  method GroupBallots(p: State, answers: seq<Answers>, ballots: seq<Option<string>>) returns (groups: map<string, seq<nat>>)
    requires |ballots| == |answers| && forall i :: 0 <= i < |answers| ==> ballots[i] == BallotOf(p, answers, i)
    ensures forall key :: key in groups ==> Rising(groups[key]) && groups[key] != []
    ensures forall key :: key in groups ==> forall i :: i in groups[key] <==> i in Group(p, answers, key)
    ensures forall key :: key !in groups ==> Group(p, answers, key) == {}
  {
    hide BallotOf;
    groups := map[];
    for i := 0 to |ballots|
      invariant GroupsOf(groups, ballots[..i])
    {
      hide Members;
      GroupsMore(groups, ballots[..i], ballots[i]);
      assert ballots[..i + 1] == ballots[..i] + [ballots[i]];
      if ballots[i].Some? {
        var key := ballots[i].value;
        groups := groups[key := (if key in groups then groups[key] else []) + [i]];
      }
    }
    assert ballots[..|ballots|] == ballots;
  }

  lemma {:induction false} MembersCount(members: seq<nat>, s: set<nat>)
    requires Rising(members)
    requires forall i :: i in members <==> i in s
    ensures |members| == |s|
  {
    if members != [] {
      var init, last := members[..|members| - 1], members[|members| - 1];
      assert members == init + [last];
      assert last in members;
      MembersCount(init, s - {last});
    }
  }

  lemma AgreedByCount(p: State, answers: seq<Answers>, groups: map<string, seq<nat>>, key: string)
    requires key in groups && forall i :: i in groups[key] <==> i in Group(p, answers, key)
    requires Rising(groups[key])
    ensures Agreed(p, answers, key) <==> |groups[key]| >= p.minAgreement
  {
    hide Group;
    MembersCount(groups[key], Group(p, answers, key));
  }

  lemma AgreedInGroups(p: State, answers: seq<Answers>, groups: map<string, seq<nat>>)
    requires StateOk(p) && forall key :: key !in groups ==> Group(p, answers, key) == {}
    ensures forall key :: Agreed(p, answers, key) ==> key in groups
  {
    hide Group;
  }

  lemma ConflictingGroups(p: State, answers: seq<Answers>, f: Finish, a: string, b: string)
    requires Agreed(p, answers, a) && Agreed(p, answers, b) && a != b
    ensures Selects(p, answers, f, p.(selected := None), Conflict)
  {
    hide Agreed;
  }

  lemma NoGroup(p: State, answers: seq<Answers>, f: Finish)
    requires forall a :: !Agreed(p, answers, a)
    ensures Selects(p, answers, f, p.(selected := None), NoAgreement)
  {
    hide Agreed;
  }

  lemma OnlyWinner(p: State, answers: seq<Answers>, f: Finish, key: string, i: nat, p': State, o: Outcome)
    requires forall a :: Agreed(p, answers, a) ==> a == key
    requires Agreed(p, answers, key) && IsChosen(p, answers, key, i) && NextCheckpoint(p, answers, i).Some?
    requires Concludes(p.(selected := None), Group(p, answers, key), NextCheckpoint(p, answers, i).value, i, f, p', o)
    ensures Selects(p, answers, f, p', o)
  {
    hide Agreed, IsChosen, NextCheckpoint, Group, Remember;
    assert Wins(p, answers, f, key, i, p', o);
  }

  /** sort.SliceStable by falling height, then the first element. */
  method FirstHighest(p: State, answers: seq<Answers>, key: string, members: seq<nat>, cs: seq<Option<Candidate>>) returns (chosen: nat)
    requires cs == Probes(p, answers) && members != []
    requires forall i :: i in members <==> i in Group(p, answers, key)
    requires Rising(members)
    ensures chosen < |cs| && cs[chosen].Some? && IsChosen(p, answers, key, chosen)
  {
    MembersProbed(p, answers, key);
    hide Group, Probe;
    assert forall j :: j in members ==> j < |cs| && cs[j].Some?;
    assert forall k :: 0 <= k < |members| ==> members[k] in members;
    chosen := members[0];
    assert members[0] in members;
    for k := 1 to |members|
      invariant chosen in members[..k]
      invariant forall j :: 0 <= j < k ==>
          cs[members[j]].value.height < cs[chosen].value.height
          || (cs[members[j]].value.height == cs[chosen].value.height && chosen <= members[j])
    {
      assert members[..k + 1] == members[..k] + [members[k]];
      if cs[members[k]].value.height > cs[chosen].value.height { chosen := members[k]; }
    }
    assert chosen in members;
    forall j | j in Group(p, answers, key)
      ensures Probe(p, j, answers[j]).value.height < Probe(p, chosen, answers[chosen]).value.height
              || (Probe(p, j, answers[j]).value.height == Probe(p, chosen, answers[chosen]).value.height && chosen <= j)
    {
      assert j in members;
      var k :| 0 <= k < |members| && members[k] == j;
    }
  }

  lemma MembersProbed(p: State, answers: seq<Answers>, key: string)
    ensures forall i :: i in Group(p, answers, key) ==> i < |answers| && Probe(p, i, answers[i]).Some?
  {
    hide Probe, Common, Highest, BlockReference;
  }

  method ReadCheckpoint(p: State, answers: seq<Answers>, key: string, chosen: nat, cs: seq<Option<Candidate>>, common: uint64)
    returns (next: Checkpoint)
    requires cs == Probes(p, answers) && common == Common(p, answers)
    requires chosen < |cs| && cs[chosen].Some? && IsChosen(p, answers, key, chosen)
    ensures NextCheckpoint(p, answers, chosen) == Some(next)
  {
    ChosenIn(p, answers, key, chosen);
    GroupAgrees(p, answers, key, chosen, chosen);
    hide Group, Probe, Common, BlockReference, IsChosen;
    var block := BlockReference(answers[chosen].atCommon(common), common, p.chainId);
    next := Checkpoint(cs[chosen].value.genesis, common, block.value.hash);
  }
}
