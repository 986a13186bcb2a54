/** dev/agent/internal/chainclient/pool.go: choosing a common checkpoint by endpoint agreement. */
module Pool {
  import opened Basics
  import opened Strings
  import Decimal

  datatype Checkpoint = Checkpoint(genesis: string, height: uint64, hash: string)

  /** `synced`: the endpoint reports its sync state and is not catching up. `timely`: within age and skew limits. */
  datatype Status = Status(chainId: string, height: uint64, synced: bool, blockHash: string, timely: bool)

  datatype BlockAnswer = BlockAnswer(chainId: string, height: string, hash: string, hasTime: bool, timely: bool)

  datatype BlockRef = BlockRef(hash: string, timely: bool)

  /** What one endpoint says during one selection; None where the request fails. */
  datatype Answers = Answers(
    status: Option<Status>, genesis: Option<string>,
    atCheckpoint: uint64 -> Option<BlockAnswer>, atCommon: uint64 -> Option<BlockAnswer>)

  /** `persists`: a Persist callback is configured. The rest is what happens while the call finishes. */
  datatype Finish = Finish(persists: bool, persistOk: bool, cancelled: bool, expired: bool)

  datatype Outcome = Selected(height: uint64) | Conflict | NoAgreement | Backwards | PersistFailed | Cancelled | Stale

  /** The pool between two calls: n clients, policy, and what earlier calls have learned. */
  datatype State = State(
    n: nat, chainId: string, maxLag: uint64, minAgreement: nat,
    trusted: string,                  // policy.GenesisHash
    checkpoint: Checkpoint, selected: Option<nat>,
    genesis: map<nat, string>)        // cached genesis hash of each endpoint

  predicate StateOk(p: State) { 1 <= p.minAgreement <= p.n }

  predicate IsHex(c: char) { '0' <= c <= '9' || 'a' <= c <= 'f' || 'A' <= c <= 'F' }

  /** 32 bytes in hex. */
  predicate ValidHash(h: string) { |h| == 64 && forall i :: 0 <= i < |h| ==> IsHex(h[i]) }

  function BlockReference(a: Option<BlockAnswer>, height: uint64, chainId: string): Option<BlockRef>
  {
    if a.None? || a.value.chainId != chainId || a.value.height != Decimal.Format(height)
       || !ValidHash(a.value.hash) || !a.value.hasTime then None
    else Some(BlockRef(Upper(a.value.hash), a.value.timely))
  }

  predicate Fresh(p: State, s: Status)
  {
    && s.chainId == p.chainId && s.height != 0 && s.height >= p.checkpoint.height
    && s.synced && ValidHash(s.blockHash) && s.timely
  }

  /** An endpoint that passed the first round of probes. */
  datatype Candidate = Candidate(height: uint64, statusHash: string, genesis: string)

  function Cached(p: State, i: nat): string { if i in p.genesis then p.genesis[i] else "" }

  function Probe(p: State, i: nat, a: Answers): Option<Candidate>
  {
    if a.status.None? || !Fresh(p, a.status.value) then None
    else if Cached(p, i) == "" && a.genesis.None? then None
    else
      var genesis := if Cached(p, i) != "" then Cached(p, i) else a.genesis.value;
      var block := BlockReference(a.atCheckpoint(p.checkpoint.height), p.checkpoint.height, p.chainId);
      if p.trusted != "" && !EqualFold(genesis, p.trusted) then None
      else if p.checkpoint.height > 0 && (block.None? || !EqualFold(block.value.hash, p.checkpoint.hash)) then None
      else Some(Candidate(a.status.value.height, a.status.value.blockHash, genesis))
  }

  function Probes(p: State, answers: seq<Answers>): (cs: seq<Option<Candidate>>)
    ensures |cs| == |answers|
  {
    seq(|answers|, i requires 0 <= i < |answers| => Probe(p, i, answers[i]))
  }

  /** The greatest reported height, 0 without candidates. */
  function Highest(cs: seq<Option<Candidate>>): uint64
  {
    if cs == [] then 0 else
      var h := Highest(cs[..|cs| - 1]);
      var c := cs[|cs| - 1];
      if c.Some? && c.value.height > h then c.value.height else h
  }

  predicate Near(c: Option<Candidate>, highest: uint64, maxLag: uint64)
  {
    c.Some? && highest - c.value.height <= maxLag
  }

  /** The least height among the candidates near enough to the top. */
  function CommonHeight(cs: seq<Option<Candidate>>, highest: uint64, maxLag: uint64): uint64
  {
    if cs == [] then highest else
      var h := CommonHeight(cs[..|cs| - 1], highest, maxLag);
      var c := cs[|cs| - 1];
      if Near(c, highest, maxLag) && c.value.height < h then c.value.height else h
  }

  function Common(p: State, answers: seq<Answers>): uint64
  {
    var cs := Probes(p, answers);
    CommonHeight(cs, Highest(cs), p.maxLag)
  }

  function KeyOf(genesis: string, hash: string): string { genesis + "/" + hash }

  /** The group that endpoint i votes for at the common height, if it still may vote. */
  function Ballot(p: State, answers: seq<Answers>, common: uint64, c: Option<Candidate>, i: nat): Option<string>
    requires i < |answers|
  {
    if !Near(c, Highest(Probes(p, answers)), p.maxLag) then None
    else
      var block := BlockReference(answers[i].atCommon(common), common, p.chainId);
      if block.None? then None
      else if (common == c.value.height && !EqualFold(block.value.hash, c.value.statusHash)) || !block.value.timely then None
      else Some(KeyOf(c.value.genesis, block.value.hash))
  }

  function BallotOf(p: State, answers: seq<Answers>, i: nat): Option<string>
    requires i < |answers|
  {
    Ballot(p, answers, Common(p, answers), Probe(p, i, answers[i]), i)
  }

  function Group(p: State, answers: seq<Answers>, key: string): set<nat>
  {
    set i: nat | i < |answers| && BallotOf(p, answers, i) == Some(key)
  }

  predicate Agreed(p: State, answers: seq<Answers>, key: string)
  {
    |Group(p, answers, key)| >= p.minAgreement
  }

  /** The first member of the greatest height: where a stable descending sort puts it. */
  ghost predicate IsChosen(p: State, answers: seq<Answers>, key: string, i: nat)
  {
    && i in Group(p, answers, key) && i < |answers| && Probe(p, i, answers[i]).Some?
    && forall j :: j in Group(p, answers, key) ==>
         Probe(p, j, answers[j]).Some?
         && (Probe(p, j, answers[j]).value.height < Probe(p, i, answers[i]).value.height
             || (Probe(p, j, answers[j]).value.height == Probe(p, i, answers[i]).value.height && i <= j))
  }

  /** The checkpoint that a member of the agreed group stands for. */
  function NextCheckpoint(p: State, answers: seq<Answers>, i: nat): Option<Checkpoint>
  {
    if i >= |answers| then None else
    var c := Probe(p, i, answers[i]);
    var common := Common(p, answers);
    var block := BlockReference(answers[i].atCommon(common), common, p.chainId);
    if c.None? || block.None? then None else Some(Checkpoint(c.value.genesis, common, block.value.hash))
  }

  function Remember(cache: map<nat, string>, group: set<nat>, genesis: string): map<nat, string>
  {
    map i | i in cache.Keys + group :: if i in group then genesis else cache[i]
  }

  /** What happens once a group has agreed. */
  ghost predicate Concludes(p: State, group: set<nat>, next: Checkpoint, i: nat, f: Finish, p': State, o: Outcome)
  {
    if next.height < p.checkpoint.height then
      o == Backwards && p' == p.(selected := None)
    else if next != p.checkpoint && f.persists && !f.persistOk then
      o == PersistFailed && p' == p.(selected := None)
    else
      var moved := p.(checkpoint := next, trusted := next.genesis, genesis := Remember(p.genesis, group, next.genesis), selected := None);
      if f.cancelled then o == Cancelled && p' == moved
      else if f.expired then o == Stale && p' == moved
      else o == Selected(next.height) && p' == moved.(selected := Some(i))
  }

  /** One selection: two agreed groups stop it, none fails it, one decides it. */
  ghost predicate Selects(p: State, answers: seq<Answers>, f: Finish, p': State, o: Outcome)
  {
    if exists a, b :: Agreed(p, answers, a) && Agreed(p, answers, b) && a != b then
      o == Conflict && p' == p.(selected := None)
    else if forall a :: !Agreed(p, answers, a) then
      o == NoAgreement && p' == p.(selected := None)
    else
      exists key, i :: Wins(p, answers, f, key, i, p', o)
  }

  /** The group `key` has agreed, and its member i settles the selection. */
  ghost predicate Wins(p: State, answers: seq<Answers>, f: Finish, key: string, i: nat, p': State, o: Outcome)
  {
    && Agreed(p, answers, key) && IsChosen(p, answers, key, i) && NextCheckpoint(p, answers, i).Some?
    && Concludes(p, Group(p, answers, key), NextCheckpoint(p, answers, i).value, i, f, p', o)
  }

  /** Either no group wins and only the selected client is dropped, or some group wins. */
  lemma SelectionCases(p: State, answers: seq<Answers>, f: Finish, p': State, o: Outcome) returns (key: string, i: nat)
    requires Selects(p, answers, f, p', o)
    ensures (o in {Conflict, NoAgreement} && p' == p.(selected := None)) || Wins(p, answers, f, key, i, p', o)
  {
    hide Agreed, Wins;
    key, i := "", 0;
    if exists key, i :: Wins(p, answers, f, key, i, p', o) {
      key, i :| Wins(p, answers, f, key, i, p', o);
    }
  }

  // ---- the selection is a function of the answers

  lemma ChosenUnique(p: State, answers: seq<Answers>, key: string, i: nat, j: nat)
    requires IsChosen(p, answers, key, i) && IsChosen(p, answers, key, j)
    ensures i == j
  {
  }

  /** Whatever order a map of groups is walked in, the outcome and the new state are the same. */
  lemma SelectionDeterministic(p: State, answers: seq<Answers>, f: Finish, p1: State, o1: Outcome, p2: State, o2: Outcome)
    requires Selects(p, answers, f, p1, o1) && Selects(p, answers, f, p2, o2)
    ensures p1 == p2 && o1 == o2
  {
    hide Agreed, IsChosen, NextCheckpoint, Group;
    var k1, i1 := SelectionCases(p, answers, f, p1, o1);
    var k2, i2 := SelectionCases(p, answers, f, p2, o2);
    if Wins(p, answers, f, k1, i1, p1, o1) && Wins(p, answers, f, k2, i2, p2, o2) && k1 == k2 {
      ChosenUnique(p, answers, k1, i1, i2);
    }
  }

  // ---- groups

  lemma HashLength(a: Option<BlockAnswer>, height: uint64, chainId: string)
    requires BlockReference(a, height, chainId).Some?
    ensures |BlockReference(a, height, chainId).value.hash| == 64
  {
  }

  /** The key of a group determines genesis and hash, since a hash has 64 characters. */
  lemma KeyInjective(g: string, h: string, g': string, h': string)
    requires |h| == |h'| && KeyOf(g, h) == KeyOf(g', h')
    ensures g == g' && h == h'
  {
    var a, b := KeyOf(g, h), KeyOf(g', h');
    assert a[..|g|] == g && b[..|g'|] == g';
    assert a[|g| + 1..] == h && b[|g'| + 1..] == h';
  }

  /** Every member of one group stands for the same checkpoint. */
  lemma GroupAgrees(p: State, answers: seq<Answers>, key: string, i: nat, j: nat)
    requires i in Group(p, answers, key) && j in Group(p, answers, key)
    ensures NextCheckpoint(p, answers, i).Some? && NextCheckpoint(p, answers, j) == NextCheckpoint(p, answers, i)
  {
    hide Probe, Highest, CommonHeight;
    var common := Common(p, answers);
    HashLength(answers[i].atCommon(common), common, p.chainId);
    HashLength(answers[j].atCommon(common), common, p.chainId);
    hide BlockReference;
    var x, y := NextCheckpoint(p, answers, i).value, NextCheckpoint(p, answers, j).value;
    KeyInjective(x.genesis, x.hash, y.genesis, y.hash);
  }

  lemma GroupBound(p: State, answers: seq<Answers>, a: string, b: string)
    requires a != b
    ensures |Group(p, answers, a)| + |Group(p, answers, b)| <= |answers|
  {
    hide BallotOf;
    IndicesCount(|answers|);
    var x, y := Group(p, answers, a), Group(p, answers, b);
    assert x !! y && x + y <= Indices(|answers|);
    SubsetSize(x + y, Indices(|answers|));
  }

  function Indices(n: nat): set<nat>
  {
    if n == 0 then {} else Indices(n - 1) + {n - 1}
  }

  lemma {:induction false} IndicesCount(n: nat)
    ensures |Indices(n)| == n && forall i: nat :: i in Indices(n) <==> i < n
  {
    if n > 0 { IndicesCount(n - 1); }
  }

  /** The default agreement, a majority of the endpoints, can never split. */
  lemma MajorityNeverConflicts(p: State, answers: seq<Answers>, f: Finish, p': State, o: Outcome)
    requires |answers| == p.n && p.minAgreement >= p.n / 2 + 1 && Selects(p, answers, f, p', o)
    ensures o != Conflict
  {
    hide Group, IsChosen, NextCheckpoint;
    forall a, b | Agreed(p, answers, a) && Agreed(p, answers, b) ensures a == b {
      if a != b { GroupBound(p, answers, a, b); }
    }
  }

  // ---- heights

  lemma {:induction false} HighestBounds(cs: seq<Option<Candidate>>, i: nat)
    requires i < |cs| && cs[i].Some?
    ensures cs[i].value.height <= Highest(cs)
  {
    if i < |cs| - 1 { HighestBounds(cs[..|cs| - 1], i); }
  }

  /** The common height is that of some candidate, or the highest one. */
  lemma {:induction false} CommonReached(cs: seq<Option<Candidate>>, highest: uint64, maxLag: uint64)
    ensures CommonHeight(cs, highest, maxLag) == highest
            || exists i :: 0 <= i < |cs| && cs[i].Some? && cs[i].value.height == CommonHeight(cs, highest, maxLag)
  {
    if cs != [] { CommonReached(cs[..|cs| - 1], highest, maxLag); }
  }

  lemma {:induction false} HighestReached(cs: seq<Option<Candidate>>)
    ensures Highest(cs) == 0 || exists i :: 0 <= i < |cs| && cs[i].Some? && cs[i].value.height == Highest(cs)
  {
    if cs != [] { HighestReached(cs[..|cs| - 1]); }
  }

  /** A candidate is at or above the checkpoint, so the common height is too: it cannot move backwards. */
  lemma CommonNotBelow(p: State, answers: seq<Answers>, i: nat)
    requires i < |answers| && Probe(p, i, answers[i]).Some?
    ensures Common(p, answers) >= p.checkpoint.height && Common(p, answers) > 0
  {
    var cs := Probes(p, answers);
    HighestBounds(cs, i);
    HighestReached(cs);
    CommonReached(cs, Highest(cs), p.maxLag);
    forall j: nat | j < |cs| && cs[j].Some? ensures cs[j].value.height >= p.checkpoint.height && cs[j].value.height > 0 {
      assert cs[j] == Probe(p, j, answers[j]);
    }
    hide Probe, Highest, CommonHeight;
  }

  /** The explicit check against a falling height can never fire: freshness has already excluded it. */
  lemma NeverBackwards(p: State, answers: seq<Answers>, f: Finish, p': State, o: Outcome)
    requires Selects(p, answers, f, p', o)
    ensures o != Backwards && p'.checkpoint.height >= p.checkpoint.height
  {
    hide Agreed, Group, Probe, Highest, CommonHeight, Near, Selects;
    var key, i := SelectionCases(p, answers, f, p', o);
    if Wins(p, answers, f, key, i, p', o) { CommonNotBelow(p, answers, i); }
  }

  // ---- safety under faulty endpoints

  /** The chain that honest endpoints follow. */
  datatype ChainView = ChainView(genesis: string, hash: uint64 -> string)

  predicate HonestBlock(a: Option<BlockAnswer>, height: uint64, chain: ChainView)
  {
    a.Some? ==> EqualFold(a.value.hash, chain.hash(height))
  }

  /** An honest endpoint may fail to answer, but what it answers is the chain. */
  ghost predicate Honest(a: Answers, chain: ChainView)
  {
    && (a.genesis.Some? ==> a.genesis.value == chain.genesis)
    && (forall h :: HonestBlock(a.atCommon(h), h, chain))
  }

  ghost predicate FewFaulty(p: State, answers: seq<Answers>, chain: ChainView)
  {
    |set i: nat | i < |answers| && !Honest(answers[i], chain)| < p.minAgreement
  }

  ghost predicate OnChain(cp: Checkpoint, chain: ChainView)
  {
    cp.genesis == chain.genesis && cp.hash == Upper(chain.hash(cp.height))
  }

  /** Saved genesis hashes are the chain's. */
  ghost predicate CacheOk(p: State, chain: ChainView)
  {
    forall i :: i in p.genesis && p.genesis[i] != "" ==> p.genesis[i] == chain.genesis
  }

  lemma HonestMember(p: State, answers: seq<Answers>, chain: ChainView, key: string) returns (i: nat)
    requires Agreed(p, answers, key) && FewFaulty(p, answers, chain)
    ensures i in Group(p, answers, key) && i < |answers| && Honest(answers[i], chain)
  {
    hide Honest, BallotOf;
    var faulty := set i: nat | i < |answers| && !Honest(answers[i], chain);
    var group := Group(p, answers, key);
    if group <= faulty { SubsetSize(group, faulty); }
    i :| i in group && i !in faulty;
  }

  lemma HonestCheckpoint(p: State, answers: seq<Answers>, chain: ChainView, i: nat)
    requires i < |answers| && Honest(answers[i], chain) && CacheOk(p, chain) && NextCheckpoint(p, answers, i).Some?
    ensures OnChain(NextCheckpoint(p, answers, i).value, chain)
  {
    var common := Common(p, answers);
    assert HonestBlock(answers[i].atCommon(common), common, chain);
    hide Common, Fresh;
  }

  /** One selection, successful or not, leaves the checkpoint where it was or moves it along the honest chain. */
  lemma SelectionSafe(p: State, answers: seq<Answers>, f: Finish, p': State, o: Outcome, chain: ChainView)
    requires Selects(p, answers, f, p', o) && FewFaulty(p, answers, chain) && CacheOk(p, chain)
    ensures CacheOk(p', chain)
    ensures p'.checkpoint == p.checkpoint || OnChain(p'.checkpoint, chain)
    ensures o.Selected? ==> OnChain(p'.checkpoint, chain) && o.height == p'.checkpoint.height
    ensures p'.checkpoint.height >= p.checkpoint.height
  {
    NeverBackwards(p, answers, f, p', o);
    var key, i := SelectionCases(p, answers, f, p', o);
    hide Selects, Agreed, Group, FewFaulty, NextCheckpoint, IsChosen;
    if Wins(p, answers, f, key, i, p', o) {
      var h := HonestMember(p, answers, chain, key);
      assert i in Group(p, answers, key) by { ChosenIn(p, answers, key, i); }
      GroupAgrees(p, answers, key, i, h);
      HonestCheckpoint(p, answers, chain, h);
    }
  }

  lemma ChosenIn(p: State, answers: seq<Answers>, key: string, i: nat)
    requires IsChosen(p, answers, key, i)
    ensures i in Group(p, answers, key)
  {
  }

  datatype Round = Round(answers: seq<Answers>, finish: Finish, after: State, outcome: Outcome)

  /** The state after the first k rounds. */
  function After(p: State, rounds: seq<Round>, k: nat): State
    requires k <= |rounds|
  {
    if k == 0 then p else rounds[k - 1].after
  }

  ghost predicate History(p: State, rounds: seq<Round>)
  {
    forall k :: 0 <= k < |rounds| ==>
      Selects(After(p, rounds, k), rounds[k].answers, rounds[k].finish, rounds[k].after, rounds[k].outcome)
  }

  lemma PolicyKept(p: State, answers: seq<Answers>, f: Finish, p': State, o: Outcome)
    requires Selects(p, answers, f, p', o)
    ensures p'.minAgreement == p.minAgreement
  {
    hide Agreed, Group, IsChosen, NextCheckpoint;
  }

  /** In every round fewer than MinAgreement endpoints are faulty; which ones may vary from round to round. */
  ghost predicate AlwaysFewFaulty(p: State, rounds: seq<Round>, chain: ChainView)
  {
    forall k :: 0 <= k < |rounds| ==> FewFaulty(p, rounds[k].answers, chain)
  }

  /** Over any number of selections the checkpoint never leaves the honest chain and never falls. */
  lemma {:induction false} CheckpointSafety(p: State, rounds: seq<Round>, chain: ChainView, k: nat)
    requires History(p, rounds) && AlwaysFewFaulty(p, rounds, chain) && CacheOk(p, chain) && k <= |rounds|
    ensures var q := After(p, rounds, k);
      && CacheOk(q, chain) && q.minAgreement == p.minAgreement
      && q.checkpoint.height >= p.checkpoint.height
      && (q.checkpoint == p.checkpoint || OnChain(q.checkpoint, chain))
      && (k > 0 && rounds[k - 1].outcome.Selected? ==> OnChain(q.checkpoint, chain))
  {
    hide Selects, CacheOk, OnChain;
    if k > 0 {
      CheckpointSafety(p, rounds, chain, k - 1);
      var q, r := After(p, rounds, k - 1), rounds[k - 1];
      assert FewFaulty(q, r.answers, chain) by { SameFaults(p, q, r.answers, chain); }
      PolicyKept(q, r.answers, r.finish, r.after, r.outcome);
      SelectionSafe(q, r.answers, r.finish, r.after, r.outcome, chain);
    }
  }

  lemma SameFaults(p: State, q: State, answers: seq<Answers>, chain: ChainView)
    requires q.minAgreement == p.minAgreement && FewFaulty(p, answers, chain)
    ensures FewFaulty(q, answers, chain)
  {
  }
}
