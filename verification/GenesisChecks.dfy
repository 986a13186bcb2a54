/** ValidateGenesis and validateSafetyGenesis: the lists checked in single passes over seen-maps. */
module GenesisChecks {
  import opened Basics
  import opened Types
  import opened Handlers
  import opened Genesis

  /** The keys met so far. */
  ghost predicate Seen<K, V>(xs: seq<Option<V>>, key: V -> K, seen: set<K>)
  {
    && (forall i :: 0 <= i < |xs| && xs[i].Some? ==> key(xs[i].value) in seen)
    && (forall x :: x in seen ==> exists i :: 0 <= i < |xs| && xs[i].Some? && key(xs[i].value) == x)
  }

  /** One more entry: a key met before is a duplicate, and nothing else is. */
  lemma SeenStep<K, V>(xs: seq<Option<V>>, k: nat, key: V -> K, seen: set<K>)
    requires k < |xs| && Distinct(xs[..k], key) && Seen(xs[..k], key, seen)
    ensures xs[k].None? ==> Distinct(xs[..k + 1], key) && Seen(xs[..k + 1], key, seen)
    ensures xs[k].Some? && key(xs[k].value) in seen ==> !Distinct(xs, key)
    ensures xs[k].Some? && key(xs[k].value) !in seen ==>
      Distinct(xs[..k + 1], key) && Seen(xs[..k + 1], key, seen + {key(xs[k].value)})
  {
    var next := xs[..k + 1];
    assert forall i :: 0 <= i < k ==> next[i] == xs[..k][i];
    if xs[k].Some? {
      assert next[k].Some? && key(next[k].value) in seen + {key(xs[k].value)};
    }
    forall x | x in seen ensures exists i :: 0 <= i < |next| && next[i].Some? && key(next[i].value) == x {
      var i :| 0 <= i < k && xs[..k][i].Some? && key(xs[..k][i].value) == x;
      assert next[i].Some? && key(next[i].value) == x;
    }
    if xs[k].Some? && key(xs[k].value) in seen {
      var i :| 0 <= i < k && xs[..k][i].Some? && key(xs[..k][i].value) == key(xs[k].value);
      assert xs[i] == xs[..k][i];
    }
  }

  lemma EachStep<V>(xs: seq<Option<V>>, k: nat, p: V -> bool)
    requires k < |xs| && Each(xs[..k], p)
    ensures Each(xs[..k + 1], p) <==> (xs[k].Some? ==> p(xs[k].value))
    ensures xs[k].Some? && !p(xs[k].value) ==> !Each(xs, p)
  {
    assert forall i :: 0 <= i < k ==> xs[..k + 1][i] == xs[..k][i];
  }

  method ValidateAgents(xs: seq<Option<AgentInfo>>) returns (ok: bool, signers: set<string>)
    ensures ok <==> Each(xs, AgentRecordOk) && Distinct(xs, AgentKey) && Distinct(xs, SignerKey)
    ensures ok ==> forall x :: x in signers <==> SignerListed(xs, x)
  {
    hide Each, Distinct, Seen;
    var ids: set<string> := {};
    signers := {};
    assert Each(xs[..0], AgentRecordOk) && Distinct(xs[..0], AgentKey) && Distinct(xs[..0], SignerKey)
           && Seen(xs[..0], AgentKey, {}) && Seen(xs[..0], SignerKey, {}) by { NothingSeen(xs); }
    for k := 0 to |xs|
      invariant Each(xs[..k], AgentRecordOk) && Distinct(xs[..k], AgentKey) && Distinct(xs[..k], SignerKey)
      invariant Seen(xs[..k], AgentKey, ids) && Seen(xs[..k], SignerKey, signers)
    {
      EachStep(xs, k, AgentRecordOk);
      SeenStep(xs, k, AgentKey, ids);
      SeenStep(xs, k, SignerKey, signers);
      if xs[k].Some? {
        var a := xs[k].value;
        if !AgentValid(a) || a.agentId in ids || a.signer in signers {
          return false, signers;
        }
        ids := ids + {a.agentId};
        signers := signers + {a.signer};
      }
    }
    assert xs[..|xs|] == xs;
    SeenSigners(xs, signers);
    return true, signers;
  }

  lemma NothingSeen(xs: seq<Option<AgentInfo>>)
    ensures Each(xs[..0], AgentRecordOk) && Distinct(xs[..0], AgentKey) && Distinct(xs[..0], SignerKey)
    ensures Seen(xs[..0], AgentKey, {}) && Seen(xs[..0], SignerKey, {})
  {
  }

  lemma SeenSigners(xs: seq<Option<AgentInfo>>, signers: set<string>)
    requires Seen(xs, SignerKey, signers)
    ensures forall x :: x in signers <==> SignerListed(xs, x)
  {
    forall x | x in signers ensures SignerListed(xs, x) {
      var i :| 0 <= i < |xs| && xs[i].Some? && SignerKey(xs[i].value) == x;
    }
    forall x | SignerListed(xs, x) ensures x in signers {
      var i :| 0 <= i < |xs| && xs[i].Some? && xs[i].value.signer == x;
      assert SignerKey(xs[i].value) in signers;
    }
  }

  method ValidateReports(xs: seq<Option<RiskReport>>) returns (ok: bool)
    ensures ok <==> Each(xs, ReportRecordOk) && Distinct(xs, ReportKey)
  {
    var seen: set<string> := {};
    for k := 0 to |xs|
      invariant Each(xs[..k], ReportRecordOk) && Distinct(xs[..k], ReportKey)
      invariant Seen(xs[..k], ReportKey, seen)
    {
      SeenStep(xs, k, ReportKey, seen);
      if xs[k].Some? {
        var r := xs[k].value;
        if r.reportId == "" {
          assert !ReportRecordOk(xs[k].value);
          return false;
        }
        if r.reportId in seen { return false; }
        seen := seen + {r.reportId};
      }
    }
    assert xs[..|xs|] == xs;
    return true;
  }

  method ValidateCases(env: Env, xs: seq<Option<SanctionCase>>) returns (ok: bool)
    ensures ok <==> Each(xs, CaseRecordOk) && Distinct(xs, CaseKey) && SnapshotsOk(env, xs)
  {
    hide SnapshotValid;
    var seen: set<string> := {};
    for k := 0 to |xs|
      invariant Each(xs[..k], CaseRecordOk) && Distinct(xs[..k], CaseKey) && SnapshotsOk(env, xs[..k])
      invariant Seen(xs[..k], CaseKey, seen)
    {
      SeenStep(xs, k, CaseKey, seen);
      if xs[k].Some? {
        var c := xs[k].value;
        if c.caseId == "" {
          assert !CaseRecordOk(xs[k].value);
          return false;
        }
        if c.caseId in seen { return false; }
        seen := seen + {c.caseId};
        var valid := ValidateCaseSnapshot(env, c);
        if !valid { return false; }
      }
    }
    assert xs[..|xs|] == xs;
    return true;
  }

  method ValidateLeases(xs: seq<Option<Lease>>, agents: seq<Option<AgentInfo>>, signers: set<string>) returns (ok: bool)
    requires forall x :: x in signers <==> SignerListed(agents, x)
    ensures ok <==> NoNil(xs) && Each(xs, LeaseRecordOk) && Distinct(xs, LeaseKey)
                    && forall i :: 0 <= i < |xs| && xs[i].Some? ==> SignerListed(agents, xs[i].value.signer)
  {
    hide SignerListed, HolderValid;
    var seen: set<string> := {};
    for k := 0 to |xs|
      invariant NoNil(xs[..k]) && Each(xs[..k], LeaseRecordOk) && Distinct(xs[..k], LeaseKey)
      invariant forall i :: 0 <= i < k && xs[i].Some? ==> SignerListed(agents, xs[i].value.signer)
      invariant Seen(xs[..k], LeaseKey, seen)
    {
      SeenStep(xs, k, LeaseKey, seen);
      if xs[k].None? { return false; }
      var l := xs[k].value;
      if l.epoch == 0 || l.expires == 0 || !HolderValid(l.holder) {
        assert !LeaseRecordOk(xs[k].value);
        return false;
      }
      if l.signer in seen { return false; }
      if l.signer !in signers { return false; }
      seen := seen + {l.signer};
    }
    assert xs[..|xs|] == xs;
    return true;
  }

  /** Receipts by key, for the settlements that must match them. */
  method ValidateReceipts(env: Env, xs: seq<Option<OriginalTransfer>>) returns (ok: bool, receipts: map<TransferId, OriginalTransfer>)
    ensures ok <==> NoNil(xs) && Distinct(xs, ReceiptKey)
                    && forall i :: 0 <= i < |xs| && xs[i].Some? ==> ReceiptRecordOk(env, xs[i].value)
    ensures ok ==> forall t: OriginalTransfer :: IdOf(t) in receipts && receipts[IdOf(t)] == t <==> Listed(xs, t)
  {
    hide ReceiptRecordOk;
    receipts := map[];
    for k := 0 to |xs|
      invariant NoNil(xs[..k]) && Distinct(xs[..k], ReceiptKey)
      invariant forall i :: 0 <= i < k && xs[i].Some? ==> ReceiptRecordOk(env, xs[i].value)
      invariant forall i :: 0 <= i < k && xs[i].Some? ==>
          ReceiptKey(xs[i].value) in receipts && receipts[ReceiptKey(xs[i].value)] == xs[i].value
      invariant forall id :: id in receipts ==>
          exists i :: 0 <= i < k && xs[i].Some? && xs[i].value == receipts[id] && ReceiptKey(xs[i].value) == id
    {
      if xs[k].None? { return false, receipts; }
      var t := xs[k].value;
      if !ReceiptRecordOk(env, t) { return false, receipts; }
      if IdOf(t) in receipts {
        assert ReceiptKey(xs[k].value) == IdOf(t);
        return false, receipts;
      }
      receipts := receipts[IdOf(t) := t];
    }
    assert xs[..|xs|] == xs;
    forall t: OriginalTransfer | Listed(xs, t) ensures IdOf(t) in receipts && receipts[IdOf(t)] == t {
      var i :| 0 <= i < |xs| && xs[i].Some? && xs[i].value == t;
      assert ReceiptKey(xs[i].value) == IdOf(t);
    }
    return true, receipts;
  }

  method ValidateSettlements(xs: seq<Option<SettlementRecord>>, ts: seq<Option<OriginalTransfer>>,
                             receipts: map<TransferId, OriginalTransfer>) returns (ok: bool)
    requires forall t: OriginalTransfer :: IdOf(t) in receipts && receipts[IdOf(t)] == t <==> Listed(ts, t)
    ensures ok <==> NoNil(xs) && Each(xs, SettlementRecordOk) && Distinct(xs, SettlementKey)
                    && forall i :: 0 <= i < |xs| && xs[i].Some? ==> Listed(ts, xs[i].value.transfer)
  {
    hide Listed;
    var settled: set<TransferId> := {};
    for k := 0 to |xs|
      invariant NoNil(xs[..k]) && Each(xs[..k], SettlementRecordOk) && Distinct(xs[..k], SettlementKey)
      invariant forall i :: 0 <= i < k && xs[i].Some? ==>
          Listed(ts, xs[i].value.transfer)
      invariant Seen(xs[..k], SettlementKey, settled)
    {
      SeenStep(xs, k, SettlementKey, settled);
      if xs[k].None? { return false; }
      var r := xs[k].value;
      if !SettlementRecordOk(r) { return false; }
      var id := IdOf(r.transfer);
      if id !in receipts || receipts[id] != r.transfer { return false; }
      if id in settled { return false; }
      settled := settled + {id};
    }
    assert xs[..|xs|] == xs;
    return true;
  }

  /** For every monetary execution, a scan for its settlement. */
  method ValidateExecutions(xs: seq<Option<ExecutionRecord>>, settlements: seq<Option<SettlementRecord>>) returns (ok: bool)
    requires NoNil(settlements)
    ensures ok <==> forall i :: 0 <= i < |xs| && xs[i].Some? && Monetary(xs[i].value.action) ==> SettledFor(settlements, xs[i].value)
  {
    for k := 0 to |xs|
      invariant forall i :: 0 <= i < k && xs[i].Some? && Monetary(xs[i].value.action) ==> SettledFor(settlements, xs[i].value)
    {
      if xs[k].Some? && Monetary(xs[k].value.action) {
        var r := xs[k].value;
        var found := false;
        var j := 0;
        while j < |settlements| && !found
          invariant 0 <= j <= |settlements|
          invariant found ==> SettledFor(settlements, r)
          invariant !found ==> forall i :: 0 <= i < j ==> settlements[i].value.caseId != r.caseId || settlements[i].value.action != r.action
        {
          found := settlements[j].value.caseId == r.caseId && settlements[j].value.action == r.action;
          j := j + 1;
        }
        if !found { return false; }
      }
    }
    return true;
  }

  method ValidateReviews(env: Env, xs: seq<Option<ReviewRecord>>) returns (ok: bool)
    ensures ok <==> NoNil(xs) && Distinct(xs, ReviewKey)
                    && forall i :: 0 <= i < |xs| && xs[i].Some? ==> ReviewRecordOk(env, xs[i].value)
  {
    hide ReviewRecordOk;
    var seen: set<string> := {};
    for k := 0 to |xs|
      invariant NoNil(xs[..k]) && Distinct(xs[..k], ReviewKey)
      invariant forall i :: 0 <= i < k && xs[i].Some? ==> ReviewRecordOk(env, xs[i].value)
      invariant Seen(xs[..k], ReviewKey, seen)
    {
      SeenStep(xs, k, ReviewKey, seen);
      if xs[k].None? { return false; }
      var r := xs[k].value;
      if r.caseId in seen { return false; }
      if !ReviewRecordOk(env, r) { return false; }
      seen := seen + {r.caseId};
    }
    assert xs[..|xs|] == xs;
    return true;
  }

  method ValidateSafetyGenesis(env: Env, g: GenesisState) returns (ok: bool)
    ensures ok <==> (g.authority != "" ==> env.isAddress(g.authority))
                    && ReceiptsValid(env, g) && SettlementsValid(g) && ExecutionsValid(g) && ReviewsValid(env, g)
  {
    hide Listed, Distinct, Each, SettledFor;
    if g.authority != "" && !env.isAddress(g.authority) { return false; }
    var receiptsOk, receipts := ValidateReceipts(env, g.receipts);
    if !receiptsOk { return false; }
    var settlementsOk := ValidateSettlements(g.settlements, g.receipts, receipts);
    if !settlementsOk { return false; }
    var executionsOk := ValidateExecutions(g.executions, g.settlements);
    if !executionsOk { return false; }
    ok := ValidateReviews(env, g.reviews);
  }

  method ValidateGenesis(env: Env, g: Option<GenesisState>) returns (ok: bool)
    ensures ok <==> g.Some? && GenesisValid(env, g.value)
  {
    hide Distinct, Each, SnapshotsOk, SignerListed, ReceiptsValid, SettlementsValid, ExecutionsValid, ReviewsValid, ParamsValid;
    if g.None? || g.value.params.None? || !ParamsValid(g.value.params.value) { return false; }
    var agentsOk, signers := ValidateAgents(g.value.agents);
    if !agentsOk { return false; }
    var reportsOk := ValidateReports(g.value.reports);
    if !reportsOk { return false; }
    var casesOk := ValidateCases(env, g.value.cases);
    if !casesOk { return false; }
    var leasesOk := ValidateLeases(g.value.leases, g.value.agents, signers);
    if !leasesOk { return false; }
    ok := ValidateSafetyGenesis(env, g.value);
  }
}
