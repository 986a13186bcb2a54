/** dev/agent/cmd/sanction-agent/daemon_recovery.go: names of automatic cases, and the walk along their rounds. */
module Rounds {
  import opened Basics
  import opened Types
  import opened Strings
  import Decimal
  import Store
  import Handlers
  import Frames
  import Replacement
  import Electorate
  import Evidence
  import Effects
  import Runs

  // ---- names

  predicate IsUpperHex(c: char) { '0' <= c <= '9' || 'A' <= c <= 'F' }

  /** A tx hash as the names carry it: 32 bytes in upper-case hex. */
  predicate IsHash(h: string) { |h| == 64 && forall i :: 0 <= i < |h| ==> IsUpperHex(h[i]) }

  predicate IsHexDigit(c: char) { '0' <= c <= '9' || 'a' <= c <= 'f' || 'A' <= c <= 'F' }

  function AutoCaseId(hash: string): string { "auto-" + Upper(hash) }

  function RoundId(hash: string, n: uint64): string
  {
    if n == 0 then AutoCaseId(hash) else AutoCaseId(hash) + "-r" + Decimal.Format(n)
  }

  function ParseAutoCaseId(id: string): Option<(string, uint64)>
  {
    if |id| < 69 || id[..5] != "auto-" then None
    else
      var hash := id[5..69];
      if !(forall i :: 0 <= i < |hash| ==> IsHexDigit(hash[i])) || hash != Upper(hash) then None
      else if |id| == 69 then Some((hash, 0))
      else if |id| < 71 || id[69..71] != "-r" then None
      else
        var n := Decimal.ParseUint(id[71..]);
        if n.None? || n.value == 0 || Decimal.Format(n.value) != id[71..] then None
        else Some((hash, n.value))
  }

  lemma UpperHash(h: string)
    requires IsHash(h)
    ensures Upper(h) == h
  {
    assert forall i :: 0 <= i < |h| ==> IsUpperHex(h[i]);
  }

  lemma UpperHex(h: string)
    requires |h| == 64 && h == Upper(h) && forall i :: 0 <= i < |h| ==> IsHexDigit(h[i])
    ensures IsHash(h)
  {
    forall i | 0 <= i < |h| ensures IsUpperHex(h[i]) {
      assert h[i] == UpperChar(h[i]);
    }
  }

  /** Parsing undoes naming, for every hash and every round. */
  lemma ParseOfRound(hash: string, n: uint64)
    requires IsHash(hash)
    ensures ParseAutoCaseId(RoundId(hash, n)) == Some((hash, n))
  {
    UpperHash(hash);
    var id := RoundId(hash, n);
    assert id[..5] == "auto-" && id[5..69] == hash;
    assert forall i :: 0 <= i < |hash| ==> IsUpperHex(hash[i]);
    if n > 0 {
      assert id[69..71] == "-r" && id[71..] == Decimal.Format(n);
    }
  }

  /** Naming undoes parsing: a text that parses is the one name of its hash and round. */
  lemma RoundOfParse(id: string)
    requires ParseAutoCaseId(id).Some?
    ensures var (hash, n) := ParseAutoCaseId(id).value; IsHash(hash) && RoundId(hash, n) == id
  {
    var (hash, n) := ParseAutoCaseId(id).value;
    UpperHex(hash);
    if n == 0 {
      assert id == id[..5] + id[5..69];
    } else {
      assert id == id[..5] + id[5..69] + id[69..71] + id[71..];
    }
  }

  /** Different rounds of one transaction have different names, whatever the case of the hash. */
  lemma RoundIdInjective(hash: string, m: uint64, n: uint64)
    requires RoundId(hash, m) == RoundId(hash, n)
    ensures m == n
  {
    var a := AutoCaseId(hash);
    if m > 0 { assert RoundId(hash, m)[|a| + 2..] == Decimal.Format(m); }
    if n > 0 { assert RoundId(hash, n)[|a| + 2..] == Decimal.Format(n); }
    if m > 0 && n > 0 {
      Decimal.FormatInjective(m, n);
    }
  }

  method ParseName(id: string) returns (r: Option<(string, uint64)>)
    ensures r == ParseAutoCaseId(id)
  {
    if |id| < 69 || id[..5] != "auto-" { return None; }
    var hash := id[5..69];
    for i := 0 to |hash|
      invariant forall j :: 0 <= j < i ==> IsHexDigit(hash[j])
    {
      if !IsHexDigit(hash[i]) { return None; }
    }
    if hash != Upper(hash) { return None; }
    if |id| == 69 { return Some((hash, 0)); }
    if |id| < 71 || id[69..71] != "-r" { return None; }
    var n := Decimal.ParseUint(id[71..]);
    if n.None? || n.value == 0 || Decimal.Format(n.value) != id[71..] { return None; }
    return Some((hash, n.value));
  }

  // ---- the walk

  type ById = map<string, SanctionCase>

  /** Rounds 0 to n exist under their names, each naming the one before as its predecessor. */
  ghost predicate Linked(byId: ById, hash: string, n: int)
  {
    0 <= n < U64
    && (forall i: uint64 :: i <= n ==> RoundId(hash, i) in byId)
    && (forall i: uint64 :: 0 < i <= n ==> byId[RoundId(hash, i)].previous == byId[RoundId(hash, i - 1)].caseId)
  }

  /** The last round reachable by consecutively named and linked cases. */
  ghost predicate LastRound(byId: ById, hash: string, n: int)
  {
    Linked(byId, hash, n) && !Linked(byId, hash, n + 1)
  }

  lemma {:induction false} LinkedPrefix(byId: ById, hash: string, m: int, n: int)
    requires Linked(byId, hash, n) && 0 <= m <= n
    ensures Linked(byId, hash, m)
  {
  }

  lemma LastRoundUnique(byId: ById, hash: string, m: int, n: int)
    requires LastRound(byId, hash, m) && LastRound(byId, hash, n)
    ensures m == n
  {
    if m < n { LinkedPrefix(byId, hash, m + 1, n); }
    if n < m { LinkedPrefix(byId, hash, n + 1, m); }
  }

  /** The names of rounds 0 to n. */
  ghost function Names(hash: string, n: nat): set<string>
    requires n < U64
  {
    if n == 0 then {RoundId(hash, 0)} else Names(hash, n - 1) + {RoundId(hash, n)}
  }

  ghost predicate NamesRound(hash: string, n: int, x: string)
  {
    exists i: uint64 :: i <= n && x == RoundId(hash, i)
  }

  lemma {:induction false} NamesOfRounds(hash: string, n: nat)
    requires n < U64
    ensures forall x :: x in Names(hash, n) ==> NamesRound(hash, n, x)
  {
    hide RoundId;
    if n > 0 {
      NamesOfRounds(hash, n - 1);
      forall x | x in Names(hash, n) ensures NamesRound(hash, n, x) {
        if x in Names(hash, n - 1) {
          assert NamesRound(hash, n - 1, x);
        } else {
          var last: uint64 := n;
          assert x == RoundId(hash, last);
        }
      }
    } else {
      var zero: uint64 := 0;
      assert RoundId(hash, zero) == RoundId(hash, 0);
    }
  }

  lemma {:induction false} NamesCount(hash: string, n: nat)
    requires n < U64
    ensures |Names(hash, n)| == n + 1
  {
    if n > 0 {
      NamesCount(hash, n - 1);
      NamesOfRounds(hash, n - 1);
      if RoundId(hash, n) in Names(hash, n - 1) {
        var i: uint64 :| i <= n - 1 && RoundId(hash, n) == RoundId(hash, i);
        RoundIdInjective(hash, n, i);
      }
      hide RoundId;
    }
  }

  /** A walk over finitely many cases stops before its round reaches their number. */
  lemma RoundsBounded(byId: ById, hash: string, n: nat)
    requires Linked(byId, hash, n)
    ensures n < |byId|
  {
    NamesCount(hash, n);
    NamesOfRounds(hash, n);
    hide Names;
    forall x | x in Names(hash, n) ensures x in byId.Keys {
      var i: uint64 :| i <= n && x == RoundId(hash, i);
    }
    hide RoundId;
    SubsetSize(Names(hash, n), byId.Keys);
  }

  method IndexCases(cases: seq<SanctionCase>) returns (byId: ById)
    ensures forall id :: id in byId <==> exists i :: 0 <= i < |cases| && cases[i].caseId == id
    ensures forall id :: id in byId ==> byId[id].caseId == id && byId[id] in cases
  {
    byId := map[];
    for i := 0 to |cases|
      invariant forall id :: id in byId <==> exists j :: 0 <= j < i && cases[j].caseId == id
      invariant forall id :: id in byId ==> byId[id].caseId == id && byId[id] in cases
    {
      byId := byId[cases[i].caseId := cases[i]];
    }
  }

  /** The loop of recoveryCase. */
  method Walk(byId: ById, hash: string) returns (c: Option<SanctionCase>, round: uint64)
    requires forall id :: id in byId ==> byId[id].caseId == id
    ensures c.None? <==> RoundId(hash, 0) !in byId
    ensures c.Some? ==> LastRound(byId, hash, round) && c == Some(byId[RoundId(hash, round)]) && round < |byId|
  {
    round := 0;
    if AutoCaseId(hash) !in byId { return None, 0; }
    var current := byId[AutoCaseId(hash)];
    assert Linked(byId, hash, 0);
    RoundsBounded(byId, hash, 0);
    while round < U64 - 1
      invariant Linked(byId, hash, round) && round < |byId|
      invariant RoundId(hash, round) in byId && current == byId[RoundId(hash, round)]
      decreases |byId| - round
    {
      var next := round + 1;
      assert Linked(byId, hash, round + 1) ==> RoundId(hash, next) in byId && byId[RoundId(hash, next)].previous == byId[RoundId(hash, next - 1)].caseId;
      if RoundId(hash, next) !in byId || byId[RoundId(hash, next)].previous != current.caseId {
        return Some(current), round;
      }
      LinkedMore(byId, hash, round);
      RoundsBounded(byId, hash, round + 1);
      current := byId[RoundId(hash, next)];
      round := next;
    }
    return Some(current), round;
  }

  lemma LinkedMore(byId: ById, hash: string, n: uint64)
    requires Linked(byId, hash, n) && n < U64 - 1
    requires RoundId(hash, n + 1) in byId && byId[RoundId(hash, n + 1)].previous == byId[RoundId(hash, n)].caseId
    ensures Linked(byId, hash, n + 1)
  {
  }

  /** On the chain, every case that the walk passes is closed for good: only the one it stops at can be live. */
  lemma PassedCasesAreClosed(s: Store.State, hash: string, n: nat, i: uint64)
    requires Frames.KeyedCases(s.cases) && Replacement.ChainsOk(s) && Linked(s.cases, hash, n) && i < n
    ensures RoundId(hash, i) in s.cases && RoundId(hash, i) !in s.executions
    ensures s.cases[RoundId(hash, i)].status in {Expired, Revoked}
  {
    var j: uint64 := i + 1;
    assert RoundId(hash, i) in s.cases && RoundId(hash, j) in s.cases;
    var c := s.cases[RoundId(hash, j)];
    assert c.previous == s.cases[RoundId(hash, j - 1)].caseId == RoundId(hash, i);
    assert RoundId(hash, i) != "";
    assert Replacement.LinkOk(s.cases, s.executions, s.reports, s.height, c);
  }

  // ---- what the daemon does with the last case

  /** A bank transfer decoded from the original transaction. */
  datatype Transfer = Transfer(messageIndex: uint32, sender: string, recipient: string, amount: string, denom: string)

  /** The original transaction as a lookup reports it; transfers are None when its bytes do not decode. */
  datatype Original = Original(found: bool, code: uint32, height: uint64, transfers: Option<seq<Transfer>>)

  datatype Review = Review(report: Option<RiskReport>)

  class Work {
    var caseId: string
    var previous: string
    var transfers: seq<Transfer>
    var review: Option<Review>
    var approvedHeight: uint64
    var seenHeight: uint64

    constructor ()
      ensures caseId == "" && previous == "" && transfers == [] && review == None && approvedHeight == 0 && seenHeight == 0
    {
      caseId, previous, transfers, review, approvedHeight, seenHeight := "", "", [], None, 0, 0;
    }
  }

  function TransferOf(r: RiskReport): Transfer
  {
    Transfer(r.messageIndex, r.sender, r.recipient, r.amount, r.denom)
  }

  /** A confirmed successful transaction that contains the reported transfer, for the case's tx and target. */
  predicate Bound(c: SanctionCase, r: Option<RiskReport>, original: Option<Original>, height: uint64)
  {
    && original.Some? && original.value.found && original.value.code == 0 && original.value.height <= height
    && c.reportIds != [] && r.Some? && original.value.transfers.Some?
    && TransferOf(r.value) in original.value.transfers.value && c.txHash == r.value.txHash && c.target == r.value.recipient
  }

  /** A saved review is kept only if it is about the same transfer. */
  function KeptReview(review: Option<Review>, r: RiskReport): Option<Review>
  {
    if review.Some? && review.value.report.Some? && TransferOf(review.value.report.value) == TransferOf(r) then review else None
  }

  /** Whatever review is saved is about this transfer. */
  predicate AboutTransfer(review: Option<Review>, t: Transfer)
  {
    review.Some? ==>
      && review.value.report.Some?
      && var seen := review.value.report.value;
      && seen.messageIndex == t.messageIndex && seen.sender == t.sender && seen.recipient == t.recipient
      && seen.amount == t.amount && seen.denom == t.denom
  }

  /** bindOriginal. */
  method BindOriginal(w: Work, c: SanctionCase, r: Option<RiskReport>, original: Option<Original>, height: uint64) returns (ok: bool)
    modifies w
    ensures ok <==> Bound(c, r, original, height)
    ensures ok ==> w.transfers == [TransferOf(r.value)] && w.review == KeptReview(old(w.review), r.value)
    ensures ok ==> AboutTransfer(w.review, TransferOf(r.value))
    ensures !ok ==> w.transfers == old(w.transfers) && w.review == old(w.review)
    ensures w.caseId == old(w.caseId) && w.previous == old(w.previous)
    ensures w.approvedHeight == old(w.approvedHeight) && w.seenHeight == old(w.seenHeight)
  {
    if original.None? { return false; }
    if !original.value.found || original.value.code != 0 || original.value.height > height { return false; }
    if |c.reportIds| == 0 || r.None? || original.value.transfers.None? { return false; }
    var transfers := original.value.transfers.value;
    for i := 0 to |transfers|
      invariant forall j :: 0 <= j < i ==> !(transfers[j] == TransferOf(r.value) && c.txHash == r.value.txHash && c.target == r.value.recipient)
      invariant w.transfers == old(w.transfers) && w.review == old(w.review)
      invariant w.caseId == old(w.caseId) && w.previous == old(w.previous)
      invariant w.approvedHeight == old(w.approvedHeight) && w.seenHeight == old(w.seenHeight)
    {
      var t := transfers[i];
      if t == TransferOf(r.value) && c.txHash == r.value.txHash && c.target == r.value.recipient {
        w.transfers := [t];
        if w.review.Some? {
          var seen := w.review.value.report;
          if seen.None? || TransferOf(seen.value) != TransferOf(r.value) { w.review := None; }
        }
        return true;
      }
    }
    return false;
  }

  datatype Found = Nothing | Renew | Follow(c: SanctionCase) | Failed

  /** Evidence gone, or the vote over without a decision: what a replacement on the chain requires. */
  predicate Replaceable(c: SanctionCase, r: RiskReport, height: int)
  {
    r.expiry <= height || (c.status == Pending && c.deadline < height) || c.status == Expired
  }

  predicate Finished(c: SanctionCase) { c.executedAt > 0 || c.status == Revoked || c.status == Rejected }

  /** Evidence that runs out in the next block already counts as expired; the sum wraps like uint64. */
  predicate AboutToExpire(c: SanctionCase, r: RiskReport, height: uint64)
  {
    r.expiry <= (height + 1) % U64 || c.status == Expired || (c.status == Pending && c.deadline < height)
  }

  /** The last case is done for: only another round can go on, if the source of the evidence can still be confirmed. */
  predicate Lapsed(c: SanctionCase, r: RiskReport, height: uint64)
  {
    AboutToExpire(c, r, height) && c.targetType == AddressTarget && Replaceable(c, r, height)
  }

  /** In the last block in which its evidence is valid, the case is neither renewed nor taken up, lest an execution be raced. */
  predicate LastBlock(c: SanctionCase, r: RiskReport, height: uint64)
  {
    AboutToExpire(c, r, height) && c.targetType == AddressTarget && !Replaceable(c, r, height)
  }

  /** The fields of a work item. */
  datatype Item = Item(caseId: string, previous: string, transfers: seq<Transfer>, review: Option<Review>, approvedHeight: uint64, seenHeight: uint64)

  function ItemOf(w: Work): Item
    reads w
  {
    Item(w.caseId, w.previous, w.transfers, w.review, w.approvedHeight, w.seenHeight)
  }

  /** The next round of a case: what was learnt for another case does not count. */
  function NextRound(x: Item, c: SanctionCase, r: RiskReport, next: string, height: uint64): Item
  {
    if x.caseId == next then Item(next, c.caseId, [TransferOf(r)], KeptReview(x.review, r), x.approvedHeight, x.seenHeight)
    else Item(next, c.caseId, [TransferOf(r)], None, 0, height)
  }

  /** Turning to a case that others opened. */
  function TakeUp(x: Item, c: SanctionCase): Item
  {
    if x.caseId == c.caseId then x else x.(caseId := c.caseId, previous := c.previous, review := None, approvedHeight := 0)
  }

  /** recoveryCase after the walk: follow the last case, or prepare the next round. */
  method Recover(w: Work, hash: string, c: SanctionCase, round: uint64, report: Option<RiskReport>, original: Option<Original>, height: uint64)
    returns (found: Found)
    modifies w
    ensures Finished(c) ==> found == Follow(c) && ItemOf(w) == old(ItemOf(w)).(caseId := c.caseId)
    ensures !Finished(c) && (c.reportIds == [] || report.None?) ==> found == Failed && ItemOf(w) == old(ItemOf(w))
    ensures !Finished(c) && c.reportIds != [] && report.Some? ==>
      var r := report.value;
      if Lapsed(c, r, height) then
        if round < U64 - 1 && Bound(c, report, original, height)
        then found == Renew && ItemOf(w) == NextRound(old(ItemOf(w)), c, r, RoundId(hash, round + 1), height)
        else found == Failed && ItemOf(w) == old(ItemOf(w))
      else
        found == Follow(c) && ItemOf(w) == if LastBlock(c, r, height) then old(ItemOf(w)) else TakeUp(old(ItemOf(w)), c)
    ensures found == Renew ==> |w.transfers| == 1 && AboutTransfer(w.review, w.transfers[0])
    ensures w.caseId != old(w.caseId) && !Finished(c) ==> w.review == None && w.approvedHeight == 0
  {
    if Finished(c) {
      w.caseId := c.caseId;
      return Follow(c);
    }
    if |c.reportIds| == 0 || report.None? { return Failed; }
    var r := report.value;
    if AboutToExpire(c, r, height) && c.targetType == AddressTarget {
      if r.expiry > height && !(c.status == Pending && c.deadline < height) && c.status != Expired {
        return Follow(c);
      }
      if round == U64 - 1 { return Failed; }
      var bound := BindOriginal(w, c, report, original, height);
      if !bound { return Failed; }
      var next := RoundId(hash, round + 1);
      if w.caseId != next {
        w.review := None;
        w.approvedHeight := 0;
        w.seenHeight := height;
      }
      w.caseId := next;
      w.previous := c.caseId;
      return Renew;
    }
    if w.caseId != c.caseId {
      w.caseId := c.caseId;
      w.previous := c.previous;
      w.review := None;
      w.approvedHeight := 0;
    }
    return Follow(c);
  }

  /**
   * The daemon holds back in exactly one case: the evidence is valid in this block and not in the next one, and neither the
   * vote nor a replacement has ended the case. Otherwise what the chain would replace is what the daemon renews.
   */
  lemma HoldsBackExactly(c: SanctionCase, r: RiskReport, height: uint64)
    requires height < U64 - 1 && c.targetType == AddressTarget
    ensures LastBlock(c, r, height) <==>
            r.expiry == height + 1 && c.status != Expired && !(c.status == Pending && c.deadline < height)
    ensures Lapsed(c, r, height) <==> r.expiry <= height || c.status == Expired || (c.status == Pending && c.deadline < height)
  {
  }

  /** The lookup tells the truth: what it decodes of a successful transaction is what the chain has recorded. */
  ghost predicate Truthful(s: Store.State, txHash: Bytes, original: Original)
  {
    original.found && original.code == 0 && original.transfers.Some? ==>
      forall i :: 0 <= i < |original.transfers.value| ==>
        var t := original.transfers.value[i];
        var id := TransferId(txHash, t.messageIndex, t.denom);
        && id in s.receipts && s.receipts[id].sender == t.sender && s.receipts[id].recipient == t.recipient
        && s.receipts[id].amount == t.amount && s.receipts[id].height == original.height
  }

  /** Evidence that the daemon has bound never fails the chain's own comparison with the recorded transfer. */
  lemma BoundIsRecorded(s: Store.State, c: SanctionCase, r: Option<RiskReport>, original: Option<Original>, height: uint64)
    requires Frames.KeyedReceipts(s.receipts) && height < s.height
    requires Bound(c, r, original, height) && Truthful(s, c.txHash, original.value)
    ensures Handlers.UnsettledError(s, r.value) in {None, Some(Handlers.AlreadySettled)}
  {
    var transfers := original.value.transfers.value;
    var i :| 0 <= i < |transfers| && transfers[i] == TransferOf(r.value);
    var id := TransferId(c.txHash, transfers[i].messageIndex, transfers[i].denom);
    assert id in s.receipts;
  }

  /**
   * On a chain that started fresh, the daemon's rule is the chain's: with newer evidence of the same transfer,
   * an unfinished case without a successor may be replaced exactly when it is Replaceable.
   */
  lemma RenewalIsAccepted(env: Env, s: Store.State, c: SanctionCase, next: RiskReport)
    requires Runs.Inv(env, s) && c.caseId in s.cases && s.cases[c.caseId] == c && !Finished(c) && c.targetType == AddressTarget
    requires c.reportIds != [] && c.reportIds[0] in s.reports
    requires var r := s.reports[c.reportIds[0]];
      && Handlers.SameTransfer(r, next) && next.txHash == c.txHash && next.reportId != r.reportId
      && r.observed < next.observed <= s.height
    requires !Handlers.HasSuccessor(s, next.txHash, c.caseId)
    ensures Handlers.ReplacementError(s, c.caseId, next, AddressTarget).None? <==>
            Replaceable(c, s.reports[c.reportIds[0]], s.height)
  {
    CaseFacts(env, s, c);
    hide Runs.Inv, Handlers.ReplacementError, Handlers.PrimaryError, Handlers.HasSuccessor;
    RenewalChecks(s, c, next);
  }

  /** The chain's checks one by one, for a case that is still open to replacement. */
  lemma RenewalChecks(s: Store.State, c: SanctionCase, next: RiskReport)
    requires c.caseId in s.cases && s.cases[c.caseId] == c && c.targetType == AddressTarget
    requires c.caseId !in s.executions && c.executedAt == 0 && c.status in {Pending, Approved, Expired}
    requires c.reportIds != [] && c.reportIds[0] in s.reports && Handlers.PrimaryError(s, c).None?
    requires s.reports[c.reportIds[0]].recipient == c.target
    requires var r := s.reports[c.reportIds[0]];
      && Handlers.SameTransfer(r, next) && next.txHash == c.txHash && next.reportId != r.reportId
      && r.observed < next.observed <= s.height
    requires !Handlers.HasSuccessor(s, next.txHash, c.caseId)
    ensures Handlers.ReplacementError(s, c.caseId, next, AddressTarget).None? <==>
            Replaceable(c, s.reports[c.reportIds[0]], s.height)
  {
    hide Handlers.HasSuccessor, Handlers.PrimaryError;
  }

  lemma CaseFacts(env: Env, s: Store.State, c: SanctionCase)
    requires Runs.Inv(env, s) && c.caseId in s.cases && s.cases[c.caseId] == c && !Finished(c) && c.targetType == AddressTarget
    ensures c.caseId !in s.executions && c.executedAt == 0 && c.status in {Pending, Approved, Expired}
    ensures c.reportIds != [] && c.reportIds[0] in s.reports
    ensures Handlers.PrimaryError(s, c).None? && s.reports[c.reportIds[0]].recipient == c.target
  {
    assert Electorate.CaseOk(env, s.votes, s.executions, c);
    assert Evidence.EvidenceOk(env, s.reports, s.receipts, s.height, c);
    hide SnapshotValid, Handlers.QuorumMet, Electorate.AllApproved, Replacement.ChainsOk, Effects.EffectsOk;
    hide Electorate.VotesOk, Electorate.CasesOk, Evidence.Backed, Frames.Keyed;
  }
}
