/** What a selection requires of the endpoints, stated on their answers alone. */
module PoolMeaning {
  import opened Basics
  import opened Strings
  import opened Pool
  import Decimal

  // ---- one endpoint

  /** The genesis hash an endpoint stands for: the remembered one, or the one it gives now. */
  function GenesisOf(p: State, i: nat, a: Answers): Option<string>
  {
    if i in p.genesis && p.genesis[i] != "" then Some(p.genesis[i]) else a.genesis
  }

  /** A well-formed answer about the block of this height on the pool's chain, with this hash in upper case. */
  predicate IsBlock(p: State, a: Option<BlockAnswer>, height: uint64, hash: string)
  {
    && a.Some? && a.value.chainId == p.chainId && a.value.height == Decimal.Format(height) && a.value.hasTime
    && |a.value.hash| == 64 && (forall i :: 0 <= i < 64 ==> a.value.hash[i] in "0123456789abcdefABCDEF")
    && hash == Upper(a.value.hash)
  }

  /**
   * The endpoint is on the pool's chain, synced, timely and not behind the checkpoint; its genesis is the trusted one, if
   * one is trusted; and it still has the checkpoint's block, if there is a checkpoint.
   */
  ghost predicate Eligible(p: State, i: nat, a: Answers)
  {
    && a.status.Some?
    && var s := a.status.value;
    && s.chainId == p.chainId && s.synced && s.timely && s.height > 0 && s.height >= p.checkpoint.height
    && |s.blockHash| == 64 && (forall k :: 0 <= k < 64 ==> s.blockHash[k] in "0123456789abcdefABCDEF")
    && GenesisOf(p, i, a).Some?
    && (p.trusted != "" ==> Upper(GenesisOf(p, i, a).value) == Upper(p.trusted))
    && (p.checkpoint.height > 0 ==>
          IsBlock(p, a.atCheckpoint(p.checkpoint.height), p.checkpoint.height, Upper(p.checkpoint.hash)))
  }

  ghost predicate EligibleAt(p: State, answers: seq<Answers>, i: nat)
  {
    i < |answers| && Eligible(p, i, answers[i])
  }

  function HeightAt(answers: seq<Answers>, i: nat): int
  {
    if i < |answers| && answers[i].status.Some? then answers[i].status.value.height else 0
  }

  /** Eligible, and within the allowed lag of every other eligible endpoint. */
  ghost predicate Close(p: State, answers: seq<Answers>, i: nat)
  {
    EligibleAt(p, answers, i) && forall j: nat :: EligibleAt(p, answers, j) ==> HeightAt(answers, j) <= HeightAt(answers, i) + p.maxLag
  }

  /** The height that all close endpoints have reached. */
  ghost predicate CommonAt(p: State, answers: seq<Answers>, h: int)
  {
    (exists i: nat :: Close(p, answers, i) && HeightAt(answers, i) == h)
    && forall i: nat :: Close(p, answers, i) ==> HeightAt(answers, i) >= h
  }

  /** The endpoint stands for this checkpoint: its genesis, the common height, and its timely block there. */
  ghost predicate Backs(p: State, answers: seq<Answers>, i: nat, cp: Checkpoint)
  {
    && Close(p, answers, i) && CommonAt(p, answers, cp.height)
    && var a := answers[i];
    && GenesisOf(p, i, a) == Some(cp.genesis)
    && IsBlock(p, a.atCommon(cp.height), cp.height, cp.hash) && a.atCommon(cp.height).value.timely
    && (a.status.value.height == cp.height ==> Upper(a.status.value.blockHash) == Upper(cp.hash))
  }

  ghost function Backers(p: State, answers: seq<Answers>, cp: Checkpoint): set<nat>
  {
    set i: nat | i < |answers| && Backs(p, answers, i, cp)
  }

  ghost predicate Supported(p: State, answers: seq<Answers>, cp: Checkpoint)
  {
    |Backers(p, answers, cp)| >= p.minAgreement
  }

  // ---- the probes mean that

  lemma HexDigit(c: char)
    ensures c in "0123456789abcdefABCDEF" <==> IsHex(c)
  {
    var digits := "0123456789abcdefABCDEF";
    if '0' <= c <= '9' { assert digits[(c - '0') as int] == c; }
    if 'a' <= c <= 'f' { assert digits[(c - 'a') as int + 10] == c; }
    if 'A' <= c <= 'F' { assert digits[(c - 'A') as int + 16] == c; }
  }

  lemma HexText(h: string)
    ensures ValidHash(h) <==> |h| == 64 && forall i :: 0 <= i < 64 ==> h[i] in "0123456789abcdefABCDEF"
  {
    if |h| == 64 {
      forall i | 0 <= i < 64 ensures h[i] in "0123456789abcdefABCDEF" <==> IsHex(h[i]) { HexDigit(h[i]); }
    }
  }

  lemma ReferenceExact(p: State, a: Option<BlockAnswer>, height: uint64)
    ensures BlockReference(a, height, p.chainId).Some? <==> exists hash :: IsBlock(p, a, height, hash)
    ensures forall hash :: IsBlock(p, a, height, hash) <==>
      BlockReference(a, height, p.chainId).Some? && BlockReference(a, height, p.chainId).value.hash == hash
    ensures BlockReference(a, height, p.chainId).Some? ==>
      a.Some? && BlockReference(a, height, p.chainId) == Some(BlockRef(Upper(a.value.hash), a.value.timely))
  {
    if a.Some? { HexText(a.value.hash); }
    hide Upper, ValidHash;
    if BlockReference(a, height, p.chainId).Some? { assert IsBlock(p, a, height, BlockReference(a, height, p.chainId).value.hash); }
  }

  lemma {:induction false} UpperTwice(s: string)
    ensures Upper(Upper(s)) == Upper(s)
  {
    forall i | 0 <= i < |s| ensures Upper(Upper(s))[i] == Upper(s)[i] {}
  }

  /** The checkpoint's block as the probe compares it. */
  lemma CheckpointExact(p: State, a: Answers)
    ensures var block := BlockReference(a.atCheckpoint(p.checkpoint.height), p.checkpoint.height, p.chainId);
      (block.None? || !EqualFold(block.value.hash, p.checkpoint.hash))
      <==> !IsBlock(p, a.atCheckpoint(p.checkpoint.height), p.checkpoint.height, Upper(p.checkpoint.hash))
  {
    var answer := a.atCheckpoint(p.checkpoint.height);
    ReferenceExact(p, answer, p.checkpoint.height);
    if BlockReference(answer, p.checkpoint.height, p.chainId).Some? { UpperTwice(answer.value.hash); }
    hide Upper, BlockReference, IsBlock;
  }

  lemma ProbeExact(p: State, i: nat, a: Answers)
    ensures Probe(p, i, a).Some? <==> Eligible(p, i, a)
    ensures Probe(p, i, a).Some? ==>
      Probe(p, i, a) == Some(Candidate(a.status.value.height, a.status.value.blockHash, GenesisOf(p, i, a).value))
  {
    if a.status.Some? { HexText(a.status.value.blockHash); }
    CheckpointExact(p, a);
    hide Upper, ValidHash, BlockReference, IsBlock;
  }

  // ---- heights

  lemma HighestExact(p: State, answers: seq<Answers>, i: nat)
    requires i < |answers|
    ensures Near(Probe(p, i, answers[i]), Highest(Probes(p, answers)), p.maxLag) <==> Close(p, answers, i)
  {
    var cs := Probes(p, answers);
    forall j: nat | j < |answers|
      ensures cs[j].Some? <==> EligibleAt(p, answers, j)
      ensures cs[j].Some? ==> cs[j].value.height == HeightAt(answers, j) && cs[j].value.height <= Highest(cs)
    {
      ProbeExact(p, j, answers[j]);
      if cs[j].Some? { HighestBounds(cs, j); }
    }
    HighestReached(cs);
    hide Probe, Eligible, Highest;
    if Close(p, answers, i) {
      assert cs[i].Some?;
      if Highest(cs) != 0 {
        var j :| 0 <= j < |cs| && cs[j].Some? && cs[j].value.height == Highest(cs);
        assert EligibleAt(p, answers, j);
      }
    }
  }

  /** The least height among near candidates, if there is one. */
  lemma {:induction false} CommonExactPrefix(cs: seq<Option<Candidate>>, highest: uint64, maxLag: uint64)
    ensures forall i :: 0 <= i < |cs| && Near(cs[i], highest, maxLag) ==> CommonHeight(cs, highest, maxLag) <= cs[i].value.height
    ensures CommonHeight(cs, highest, maxLag) == highest
            || exists i :: 0 <= i < |cs| && Near(cs[i], highest, maxLag) && cs[i].value.height == CommonHeight(cs, highest, maxLag)
  {
    if cs != [] {
      var init := cs[..|cs| - 1];
      CommonExactPrefix(init, highest, maxLag);
      assert forall i :: 0 <= i < |init| ==> init[i] == cs[i];
    }
  }

  lemma CommonExact(p: State, answers: seq<Answers>, i: nat)
    requires Close(p, answers, i)
    ensures CommonAt(p, answers, Common(p, answers))
  {
    var cs := Probes(p, answers);
    var top := Highest(cs);
    CommonExactPrefix(cs, top, p.maxLag);
    HighestReached(cs);
    forall j: nat | j < |answers|
      ensures Near(cs[j], top, p.maxLag) <==> Close(p, answers, j)
      ensures cs[j].Some? ==> cs[j].value.height == HeightAt(answers, j)
    {
      HighestExact(p, answers, j);
      ProbeExact(p, j, answers[j]);
    }
    HighestBounds(cs, i);
    hide Probe, Close, Highest, CommonHeight;
    if Common(p, answers) == top {
      assert cs[i].Some? && cs[i].value.height <= top;
      assert cs[i].value.height >= top;
      assert HeightAt(answers, i) == top;
    } else {
      var j :| 0 <= j < |cs| && Near(cs[j], top, p.maxLag) && cs[j].value.height == Common(p, answers);
      assert Close(p, answers, j);
    }
  }

  lemma CommonUnique(p: State, answers: seq<Answers>, g: int, h: int)
    requires CommonAt(p, answers, g) && CommonAt(p, answers, h)
    ensures g == h
  {
    hide Close;
  }

  // ---- groups

  lemma BallotExact(p: State, answers: seq<Answers>, i: nat, cp: Checkpoint)
    requires i < |answers| && |cp.hash| == 64 && cp.height == Common(p, answers)
    ensures BallotOf(p, answers, i) == Some(KeyOf(cp.genesis, cp.hash)) <==> Backs(p, answers, i, cp)
  {
    HighestExact(p, answers, i);
    ProbeExact(p, i, answers[i]);
    ReferenceExact(p, answers[i].atCommon(cp.height), cp.height);
    if Close(p, answers, i) { CommonExact(p, answers, i); }
    var block := BlockReference(answers[i].atCommon(cp.height), cp.height, p.chainId);
    if block.Some? {
      HashLength(answers[i].atCommon(cp.height), cp.height, p.chainId);
      if GenesisOf(p, i, answers[i]).Some? && KeyOf(GenesisOf(p, i, answers[i]).value, block.value.hash) == KeyOf(cp.genesis, cp.hash) {
        KeyInjective(GenesisOf(p, i, answers[i]).value, block.value.hash, cp.genesis, cp.hash);
      }
    }
    hide Probe, Close, Highest, Common, CommonAt, KeyOf, BlockReference, IsBlock, Upper;
  }

  lemma BackersAreGroup(p: State, answers: seq<Answers>, cp: Checkpoint)
    requires |cp.hash| == 64 && cp.height == Common(p, answers)
    ensures Backers(p, answers, cp) == Group(p, answers, KeyOf(cp.genesis, cp.hash))
  {
    hide BallotOf, Backs, KeyOf;
    forall i: nat | i < |answers|
      ensures BallotOf(p, answers, i) == Some(KeyOf(cp.genesis, cp.hash)) <==> Backs(p, answers, i, cp)
    {
      BallotExact(p, answers, i, cp);
    }
  }

  /** Whoever backs a checkpoint fixes its height and the length of its hash. */
  lemma BackedShape(p: State, answers: seq<Answers>, i: nat, cp: Checkpoint)
    requires Backs(p, answers, i, cp)
    ensures |cp.hash| == 64 && cp.height == Common(p, answers)
  {
    CommonExact(p, answers, i);
    CommonUnique(p, answers, cp.height, Common(p, answers));
    hide Close, CommonAt, Common, Eligible;
  }

  lemma SomeMember(s: set<nat>, n: nat) returns (i: nat)
    requires |s| >= n >= 1
    ensures i in s
  {
    i :| i in s;
  }

  /** Every agreed group is the group of one supported checkpoint. */
  lemma AgreedIsSupported(p: State, answers: seq<Answers>, key: string) returns (cp: Checkpoint)
    requires StateOk(p) && Agreed(p, answers, key)
    ensures Supported(p, answers, cp) && key == KeyOf(cp.genesis, cp.hash) && |cp.hash| == 64 && cp.height == Common(p, answers)
  {
    var i := SomeMember(Group(p, answers, key), p.minAgreement);
    MemberShape(p, answers, key, i);
    cp := NextCheckpoint(p, answers, i).value;
    hide Group, NextCheckpoint, KeyOf, Common, Backers;
    BackersAreGroup(p, answers, cp);
  }

  lemma MemberShape(p: State, answers: seq<Answers>, key: string, i: nat)
    requires i in Group(p, answers, key)
    ensures NextCheckpoint(p, answers, i).Some?
    ensures var cp := NextCheckpoint(p, answers, i).value;
      key == KeyOf(cp.genesis, cp.hash) && |cp.hash| == 64 && cp.height == Common(p, answers)
  {
    HashLength(answers[i].atCommon(Common(p, answers)), Common(p, answers), p.chainId);
    hide Probe, Highest, CommonHeight, BlockReference;
  }

  lemma SupportedIsAgreed(p: State, answers: seq<Answers>, cp: Checkpoint)
    requires StateOk(p) && Supported(p, answers, cp)
    ensures Agreed(p, answers, KeyOf(cp.genesis, cp.hash)) && |cp.hash| == 64 && cp.height == Common(p, answers)
  {
    var i := SomeMember(Backers(p, answers, cp), p.minAgreement);
    hide Common, KeyOf, Group;
    BackedShape(p, answers, i, cp);
    BackersAreGroup(p, answers, cp);
  }

  // ---- the selection means that

  ghost predicate TwoSupported(p: State, answers: seq<Answers>)
  {
    exists a, b :: Supported(p, answers, a) && Supported(p, answers, b) && a != b
  }

  ghost predicate NoneSupported(p: State, answers: seq<Answers>)
  {
    forall a :: !Supported(p, answers, a)
  }

  /** How a call ends once a checkpoint is agreed on. */
  function Ending(p: State, f: Finish, cp: Checkpoint): Outcome
  {
    if cp != p.checkpoint && f.persists && !f.persistOk then PersistFailed
    else if f.cancelled then Cancelled
    else if f.expired then Stale
    else Selected(cp.height)
  }

  /** The highest backer of the checkpoint, and the first of those. */
  ghost predicate FirstHighest(p: State, answers: seq<Answers>, cp: Checkpoint, i: nat)
  {
    && i < |answers| && Backs(p, answers, i, cp)
    && forall j: nat :: j < |answers| && Backs(p, answers, j, cp) ==>
         HeightAt(answers, j) < HeightAt(answers, i) || (HeightAt(answers, j) == HeightAt(answers, i) && i <= j)
  }

  /** The genesis hashes remembered afterwards: the backers' is that of the checkpoint, the others' as before. */
  ghost predicate Remembers(p: State, answers: seq<Answers>, cp: Checkpoint, genesis: map<nat, string>)
  {
    forall j: nat ::
      if j in Backers(p, answers, cp) then j in genesis && genesis[j] == cp.genesis
      else (j in genesis <==> j in p.genesis) && (j in genesis ==> genesis[j] == p.genesis[j])
  }

  /**
   * The one supported checkpoint decides. Unless saving it fails, it becomes the checkpoint, its genesis the trusted one
   * and that of its backers; if the call ends well, its first highest backer is selected.
   */
  ghost predicate Installs(p: State, answers: seq<Answers>, f: Finish, p': State, o: Outcome, cp: Checkpoint)
  {
    && Supported(p, answers, cp) && o == Ending(p, f, cp)
    && (if o == PersistFailed then p' == p.(selected := None)
        else p'.checkpoint == cp && p'.trusted == cp.genesis && Remembers(p, answers, cp, p'.genesis))
    && (if o.Selected? then p'.selected.Some? && FirstHighest(p, answers, cp, p'.selected.value) else p'.selected == None)
  }

  /**
   * A selection conflicts exactly when two checkpoints are supported by enough endpoints, finds no agreement exactly when
   * none is, and otherwise installs the one that is.
   */
  lemma SelectionMeaning(p: State, answers: seq<Answers>, f: Finish, p': State, o: Outcome)
    requires StateOk(p) && Selects(p, answers, f, p', o)
    ensures o == Conflict <==> TwoSupported(p, answers)
    ensures o == NoAgreement <==> NoneSupported(p, answers)
    ensures o !in {Conflict, NoAgreement} ==> exists cp :: Installs(p, answers, f, p', o, cp)
    ensures o in {Conflict, NoAgreement} ==> p' == p.(selected := None)
  {
    NeverBackwards(p, answers, f, p', o);
    hide Supported, Agreed, Installs, Common, KeyOf;
    if exists a, b :: Agreed(p, answers, a) && Agreed(p, answers, b) && a != b {
      var a, b :| Agreed(p, answers, a) && Agreed(p, answers, b) && a != b;
      var x := AgreedIsSupported(p, answers, a);
      var y := AgreedIsSupported(p, answers, b);
      assert x != y;
    } else if exists a :: Agreed(p, answers, a) {
      var key, i := SelectionCases(p, answers, f, p', o);
      var x := AgreedIsSupported(p, answers, key);
      OnlyOne(p, answers);
      Installed(p, answers, f, key, i, p', o);
    } else {
      forall cp ensures !Supported(p, answers, cp) {
        if Supported(p, answers, cp) { SupportedIsAgreed(p, answers, cp); }
      }
    }
  }

  lemma OnlyOne(p: State, answers: seq<Answers>)
    requires StateOk(p) && !exists a, b :: Agreed(p, answers, a) && Agreed(p, answers, b) && a != b
    ensures !TwoSupported(p, answers)
  {
    hide Supported, Agreed, Common, KeyOf;
    if TwoSupported(p, answers) {
      var a, b :| Supported(p, answers, a) && Supported(p, answers, b) && a != b;
      SupportedIsAgreed(p, answers, a);
      SupportedIsAgreed(p, answers, b);
      KeyInjective(a.genesis, a.hash, b.genesis, b.hash);
    }
  }

  lemma Installed(p: State, answers: seq<Answers>, f: Finish, key: string, i: nat, p': State, o: Outcome)
    requires StateOk(p) && Wins(p, answers, f, key, i, p', o) && o != Backwards
    ensures o !in {Conflict, NoAgreement} && exists cp :: Installs(p, answers, f, p', o, cp)
  {
    ChosenIn(p, answers, key, i);
    MemberShape(p, answers, key, i);
    var cp := NextCheckpoint(p, answers, i).value;
    hide Group, KeyOf, Common, Backs, NextCheckpoint, Backers, FirstHighest, Remembers;
    BackersAreGroup(p, answers, cp);
    ChosenIsFirst(p, answers, key, i, cp);
    RememberedGenesis(p, answers, cp);
    assert Supported(p, answers, cp);
    hide Supported, Agreed, IsChosen, Remember, StateOk;
    ConcludesInstalls(p, answers, f, p', o, i, cp);
  }

  lemma ConcludesInstalls(p: State, answers: seq<Answers>, f: Finish, p': State, o: Outcome, i: nat, cp: Checkpoint)
    requires Concludes(p.(selected := None), Backers(p, answers, cp), cp, i, f, p', o) && o != Backwards
    requires Supported(p, answers, cp) && FirstHighest(p, answers, cp, i)
    requires Remembers(p, answers, cp, Remember(p.genesis, Backers(p, answers, cp), cp.genesis))
    ensures o !in {Conflict, NoAgreement} && Installs(p, answers, f, p', o, cp)
  {
    hide Supported, FirstHighest, Remembers, Remember, Backers;
  }

  lemma RememberedGenesis(p: State, answers: seq<Answers>, cp: Checkpoint)
    ensures Remembers(p, answers, cp, Remember(p.genesis, Backers(p, answers, cp), cp.genesis))
  {
    hide Backers;
  }

  lemma ChosenIsFirst(p: State, answers: seq<Answers>, key: string, i: nat, cp: Checkpoint)
    requires IsChosen(p, answers, key, i) && Backers(p, answers, cp) == Group(p, answers, key)
    ensures FirstHighest(p, answers, cp, i)
  {
    hide Group, Probe, Backs;
    forall j: nat | j < |answers| && Backs(p, answers, j, cp)
      ensures HeightAt(answers, j) < HeightAt(answers, i) || (HeightAt(answers, j) == HeightAt(answers, i) && i <= j)
    {
      assert j in Backers(p, answers, cp);
      ProbeExact(p, j, answers[j]);
      ProbeExact(p, i, answers[i]);
    }
    BackerIn(p, answers, cp, i);
    hide Eligible;
  }

  lemma BackerIn(p: State, answers: seq<Answers>, cp: Checkpoint, i: nat)
    requires i in Backers(p, answers, cp)
    ensures i < |answers| && Backs(p, answers, i, cp)
  {
    hide Backs;
  }

  // ---- the trusted genesis

  /** A backed checkpoint has the trusted genesis, if one is trusted. */
  lemma BackedIsTrusted(p: State, answers: seq<Answers>, i: nat, cp: Checkpoint)
    requires Backs(p, answers, i, cp) && p.trusted != ""
    ensures EqualFold(cp.genesis, p.trusted)
  {
    hide Upper, IsBlock, CommonAt;
  }

  /** One selection keeps a trusted genesis, and installs no checkpoint of another. */
  lemma SelectionTrusted(p: State, answers: seq<Answers>, f: Finish, p': State, o: Outcome)
    requires StateOk(p) && Selects(p, answers, f, p', o) && p.trusted != ""
    ensures EqualFold(p'.trusted, p.trusted) && p'.n == p.n && p'.minAgreement == p.minAgreement
    ensures p'.checkpoint == p.checkpoint || EqualFold(p'.checkpoint.genesis, p.trusted)
  {
    SelectionMeaning(p, answers, f, p', o);
    KeptPolicy(p, answers, f, p', o);
    hide Selects, EqualFold, Backs;
    assert EqualFold(p.trusted, p.trusted) by { SameFold(p.trusted); }
    if o !in {Conflict, NoAgreement} {
      var cp :| Installs(p, answers, f, p', o, cp);
      var i := SomeMember(Backers(p, answers, cp), p.minAgreement);
      BackedIsTrusted(p, answers, i, cp);
    }
  }

  lemma SameFold(a: string)
    ensures EqualFold(a, a)
  {
  }

  lemma KeptPolicy(p: State, answers: seq<Answers>, f: Finish, p': State, o: Outcome)
    requires Selects(p, answers, f, p', o)
    ensures p'.n == p.n && p'.minAgreement == p.minAgreement && p'.chainId == p.chainId && p'.maxLag == p.maxLag
  {
    hide Agreed, Group, IsChosen, NextCheckpoint;
  }

  /** A trusted genesis is never given up: every checkpoint that any number of selections installs is of that genesis. */
  lemma {:induction false} TrustedGenesisStays(p: State, rounds: seq<Round>, k: nat)
    requires StateOk(p) && p.trusted != "" && History(p, rounds) && k <= |rounds|
    ensures var q := After(p, rounds, k);
      && StateOk(q) && EqualFold(q.trusted, p.trusted)
      && (q.checkpoint == p.checkpoint || EqualFold(q.checkpoint.genesis, p.trusted))
  {
    hide Selects, Upper;
    if k > 0 {
      TrustedGenesisStays(p, rounds, k - 1);
      var q, r := After(p, rounds, k - 1), rounds[k - 1];
      assert q.trusted != "" by { assert |Upper(q.trusted)| == |Upper(p.trusted)|; }
      SelectionTrusted(q, r.answers, r.finish, r.after, r.outcome);
    }
  }

  /** Each selected endpoint of any round answered as its round required. */
  lemma SelectedIsEligible(p: State, answers: seq<Answers>, f: Finish, p': State, o: Outcome)
    requires StateOk(p) && Selects(p, answers, f, p', o) && o.Selected?
    ensures p'.selected.Some? && Close(p, answers, p'.selected.value) && Backs(p, answers, p'.selected.value, p'.checkpoint)
    ensures Supported(p, answers, p'.checkpoint) && o.height == p'.checkpoint.height
  {
    SelectionMeaning(p, answers, f, p', o);
    hide Selects, Supported, Close;
  }
}
