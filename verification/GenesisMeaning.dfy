/** What validation of a genesis asks for, read off the tables: conditions that an operator can look up before an export. */
module GenesisMeaning {
  import opened Basics
  import opened Types
  import opened Store
  import opened Handlers
  import opened Frames
  import opened Registry
  import opened Genesis
  import GenesisRoundTrip
  import Acceptance
  import Chain
  import Decimal
  import Strings

  /** The text of one positive coin, as the bank prints and reads it. */
  ghost predicate PrintsCoin(env: Env, amount: string, denom: string)
  {
    exists n: int :: n > 0 && amount == Decimal.Format(n) && env.parseCoin(amount + denom) == Some((n, denom))
  }

  ghost predicate SoundAgents(agents: map<string, AgentInfo>)
  {
    && (forall id :: id in agents ==> agents[id].agentId != "" && agents[id].signer != "" && (agents[id].active ==> agents[id].power > 0))
    && (forall a, b :: a in agents && b in agents && agents[a].signer == agents[b].signer ==> a == b)
  }

  /** Every lease has been granted to someone, and its signer belongs to an agent. */
  ghost predicate SoundLeases(s: State)
  {
    forall k :: k in s.leases ==>
      && s.leases[k].epoch > 0 && s.leases[k].expires > 0
      && |s.leases[k].holder| == 64 && (forall i :: 0 <= i < 64 ==> s.leases[k].holder[i] in "0123456789abcdef")
      && exists id :: id in s.agents && s.agents[id].signer == s.leases[k].signer
  }

  /** Every electorate is complete: version 1, an admissible quorum, active voters with keys of their own, ascending, one signer each. */
  ghost predicate SoundCases(env: Env, cases: map<string, SanctionCase>)
  {
    forall k :: k in cases ==>
      && cases[k].caseId != "" && cases[k].snapshotVersion == 1 && 1 <= cases[k].quorum <= 100 && |cases[k].voters| > 0
      && (forall i :: 0 <= i < |cases[k].voters| ==>
            var a := cases[k].voters[i];
            && a.agentId != "" && a.active && a.power > 0 && a.publicKey != []
            && a.signer != "" && env.isAddress(a.signer) && env.ownsKey(a.publicKey, a.signer))
      && (forall i, j :: 0 <= i < j < |cases[k].voters| ==>
            Strings.Less(cases[k].voters[i].agentId, cases[k].voters[j].agentId)
            && cases[k].voters[i].signer != cases[k].voters[j].signer)
  }

  ghost predicate SoundReceipts(env: Env, receipts: map<TransferId, OriginalTransfer>)
  {
    forall k :: k in receipts ==>
      && |receipts[k].txHash| == 32 && receipts[k].height > 0
      && env.isAddress(receipts[k].sender) && env.isAddress(receipts[k].recipient)
      && PrintsCoin(env, receipts[k].amount, receipts[k].denom)
  }

  /** What was settled was recorded, in an earlier block, and a settlement stands behind every monetary execution. */
  ghost predicate SoundSettlements(s: State)
  {
    && (forall k :: k in s.settlements ==>
          && s.settlements[k].caseId != "" && s.settlements[k].action in {EscrowFunds, RevertTransfer}
          && k in s.receipts && s.receipts[k] == s.settlements[k].transfer
          && s.settlements[k].transfer.height < s.settlements[k].executedAt)
    && (forall id :: id in s.executions && s.executions[id].action in {EscrowFunds, RevertTransfer} ==>
          exists k :: k in s.settlements && s.settlements[k].caseId == s.executions[id].caseId
                      && s.settlements[k].action == s.executions[id].action)
  }

  ghost predicate SoundReviews(env: Env, reviews: map<string, ReviewRecord>)
  {
    forall k :: k in reviews ==>
      && reviews[k].caseId != "" && |reviews[k].evidenceHash| == 32 && env.isAddress(reviews[k].authority)
      && !env.isBlank(reviews[k].reason) && |reviews[k].reason| <= 1024
      && reviews[k].reviewedAt > 0 && (reviews[k].revokedAt > 0 ==> reviews[k].reviewedAt <= reviews[k].revokedAt)
  }

  ghost predicate SoundSettings(env: Env, s: State)
  {
    var p := Acceptance.ParamsInForce(s);
    var authority := if s.authority == "" then env.configAuthority else s.authority;
    && p.watch <= p.block <= p.freeze <= p.revert <= 100 && 1 <= p.quorum <= 100 && p.evidenceTtl > 0 && p.votingPeriod > 0
    && p.sources != [] && p.highRisk != [] && p.allowed != []
    && (authority != "" ==> env.isAddress(authority))
  }

  ghost predicate Sound(env: Env, s: State)
  {
    && SoundSettings(env, s) && SoundAgents(s.agents) && SoundLeases(s)
    && (forall k :: k in s.reports ==> s.reports[k].reportId != "")
    && SoundCases(env, s.cases) && SoundReceipts(env, s.receipts) && SoundSettlements(s) && SoundReviews(env, s.reviews)
  }

  lemma LeasesExact(s: State)
    ensures LeaseTableOk(s.leases, s.agents) <==> SoundLeases(s)
  {
    forall k | k in s.leases
      ensures (forall i :: 0 <= i < |s.leases[k].holder| ==> s.leases[k].holder[i] in "0123456789abcdef")
              <==> forall i :: 0 <= i < |s.leases[k].holder| ==> '0' <= s.leases[k].holder[i] <= '9' || 'a' <= s.leases[k].holder[i] <= 'f'
    {
      Acceptance.HexDigits(s.leases[k].holder);
    }
  }

  lemma CoinExact(env: Env, amount: string, denom: string)
    ensures CoinTextOk(env, amount, denom) <==> PrintsCoin(env, amount, denom)
  {
    hide Decimal.Format;
    if CoinTextOk(env, amount, denom) {
      var n := env.parseCoin(amount + denom).value.0;
      assert n > 0 && amount == Decimal.Format(n);
    }
  }

  lemma ReceiptsSound(env: Env, receipts: map<TransferId, OriginalTransfer>)
    ensures ReceiptTableOk(env, receipts) <==> SoundReceipts(env, receipts)
  {
    forall k | k in receipts ensures CoinTextOk(env, receipts[k].amount, receipts[k].denom) <==> PrintsCoin(env, receipts[k].amount, receipts[k].denom) {
      CoinExact(env, receipts[k].amount, receipts[k].denom);
    }
    hide CoinTextOk, PrintsCoin;
  }

  lemma CasesSound(env: Env, cases: map<string, SanctionCase>)
    ensures CaseTableOk(env, cases) <==> SoundCases(env, cases)
  {
    hide Strings.Less;
  }

  lemma SettlementsSound(s: State)
    ensures SettlementTableOk(s.settlements, s.receipts) && ExecutionTableOk(s.executions, s.settlements) <==> SoundSettlements(s)
  {
  }

  lemma SettingsSound(env: Env, s: State)
    ensures ParamsValid(GetParams(s)) && (Authority(env, s) != "" ==> env.isAddress(Authority(env, s))) <==> SoundSettings(env, s)
  {
  }

  lemma RecordsSound(env: Env, s: State)
    ensures AgentTableOk(s.agents) <==> SoundAgents(s.agents)
    ensures ReviewTableOk(env, s.reviews) <==> SoundReviews(env, s.reviews)
    ensures ReportTableOk(s.reports) <==> forall k :: k in s.reports ==> s.reports[k].reportId != ""
  {
  }

  /** An export of a state validates exactly when the state is sound. */
  lemma ExportAccepted(env: Env, s: State, g: GenesisState)
    requires Keyed(s) && Exports(env, s, g)
    ensures GenesisValid(env, g) <==> Sound(env, s)
  {
    GenesisRoundTrip.ExportValidity(env, s, g);
    SettingsSound(env, s);
    RecordsSound(env, s);
    LeasesExact(s);
    CasesSound(env, s.cases);
    ReceiptsSound(env, s.receipts);
    SettlementsSound(s);
    hide Keyed, Exports, GenesisValid, SoundSettings, SoundAgents, SoundLeases, SoundCases, SoundReceipts, SoundSettlements, SoundReviews;
    hide AgentTableOk, ReviewTableOk, ReportTableOk, LeaseTableOk, CaseTableOk, ReceiptTableOk, SettlementTableOk, ExecutionTableOk, ParamsValid;
  }

  // ---- nothing gets lost on the way in

  /** A valid genesis names nothing twice: whatever it lists of these seven kinds is found in the store that it loads. */
  lemma LoadsEverything(env: Env, s0: State, g: GenesisState)
    requires GenesisValid(env, g)
    ensures var s := Import(Bare(s0), g);
      && AllStored(s.agents, AgentKey, g.agents) && AllStored(s.leases, LeaseKey, g.leases)
      && AllStored(s.reports, ReportKey, g.reports) && AllStored(s.cases, CaseKey, g.cases)
      && AllStored(s.receipts, ReceiptKey, g.receipts) && AllStored(s.settlements, SettlementKey, g.settlements)
      && AllStored(s.reviews, ReviewKey, g.reviews)
  {
    ValidKeys(env, g);
    CollectDistinct(AgentKey, g.agents);
    CollectDistinct(LeaseKey, g.leases);
    CollectDistinct(ReportKey, g.reports);
    CollectDistinct(CaseKey, g.cases);
    CollectDistinct(ReceiptKey, g.receipts);
    CollectDistinct(SettlementKey, g.settlements);
    CollectDistinct(ReviewKey, g.reviews);
    hide Collect, CollectSigners, GenesisValid, Distinct, AllStored, AllListed;
  }

  lemma ValidKeys(env: Env, g: GenesisState)
    requires GenesisValid(env, g)
    ensures Distinct(g.agents, AgentKey) && Distinct(g.leases, LeaseKey) && Distinct(g.reports, ReportKey) && Distinct(g.cases, CaseKey)
    ensures Distinct(g.receipts, ReceiptKey) && Distinct(g.settlements, SettlementKey) && Distinct(g.reviews, ReviewKey)
  {
    hide Distinct, Each, NoNil, SnapshotsOk, SettledFor, SignerListed, ReceiptRecordOk, ReviewRecordOk, Listed;
  }

  /** A nil agent, report, case or execution is passed over. */
  lemma NilIsSkipped(env: Env, g: GenesisState)
    ensures AgentsValid(g.(agents := g.agents + [None])) <==> AgentsValid(g)
    ensures ReportsValid(g.(reports := g.reports + [None])) <==> ReportsValid(g)
    ensures CasesValid(env, g.(cases := g.cases + [None])) <==> CasesValid(env, g)
    ensures ExecutionsValid(g.(executions := g.executions + [None])) <==> ExecutionsValid(g)
  {
    hide SnapshotValid;
    NilMore(g.agents);
    NilMore(g.reports);
    NilMore(g.cases);
    NilMore(g.executions);
  }

  lemma NilMore<V>(xs: seq<Option<V>>)
    ensures |xs + [None]| == |xs| + 1 && (xs + [None])[|xs|] == None && forall i :: 0 <= i < |xs| ==> xs[i] == (xs + [None])[i]
  {
  }

  /** A nil lease, receipt, settlement or review makes the whole file invalid. */
  lemma NilIsRefused(env: Env, g: GenesisState)
    requires None in g.leases || None in g.receipts || None in g.settlements || None in g.reviews
    ensures !GenesisValid(env, g)
  {
    hide Distinct, Each, SnapshotsOk, SettledFor, SignerListed, ReceiptRecordOk, ReviewRecordOk, Listed;
  }
}
