/** ComputePolicyAction: which sanction a set of reports recommends. */
module Policy {
  import opened Basics
  import opened Types

  function MaxScore(reports: seq<RiskReport>): nat
  {
    if reports == [] then 0 else
      var m := MaxScore(reports[..|reports| - 1]);
      var score := reports[|reports| - 1].riskScore;
      if score > m then score else m
  }

  predicate HighRisk(reports: seq<RiskReport>, p: Params)
  {
    exists r :: r in reports && exists c :: c in r.categories && c in p.highRisk
  }

  /** The policy table. */
  function ActionFor(score: nat, highRisk: bool, p: Params, target: TargetType): Action
  {
    var graded :=
      if highRisk && score >= p.revert then RevertTransfer
      else if highRisk && score >= p.freeze then FreezeAddress
      else if highRisk && score >= p.block then BlockTx
      else if score >= p.watch then Watch
      else NoAction;
    if target == TxTarget && (graded == RevertTransfer || graded == FreezeAddress) then BlockTx else graded
  }

  function PolicyAction(reports: seq<RiskReport>, p: Params, target: TargetType): Action
  {
    ActionFor(MaxScore(reports), HighRisk(reports, p), p, target)
  }

  /** Some report scores at least this much. */
  predicate Reaches(reports: seq<RiskReport>, score: nat)
  {
    exists i :: 0 <= i < |reports| && reports[i].riskScore >= score
  }

  predicate NamesHighRisk(reports: seq<RiskReport>, p: Params)
  {
    exists i, j :: 0 <= i < |reports| && 0 <= j < |reports[i].categories| && reports[i].categories[j] in p.highRisk
  }

  /**
   * What a nonempty set of reports recommends. Without a high-risk category, at most watching. With one, the action of
   * the highest threshold that is reached; on a tx target blocking takes the place of freezing and reverting.
   */
  predicate Recommended(reports: seq<RiskReport>, p: Params, target: TargetType, action: Action)
  {
    var severe := Reaches(reports, p.freeze) || Reaches(reports, p.revert);
    match action
    case Watch =>
      Reaches(reports, p.watch) && (NamesHighRisk(reports, p) ==> !severe && !Reaches(reports, p.block))
    case BlockTx =>
      NamesHighRisk(reports, p) && (if target == TxTarget then severe || Reaches(reports, p.block) else !severe && Reaches(reports, p.block))
    case FreezeAddress =>
      NamesHighRisk(reports, p) && target != TxTarget && Reaches(reports, p.freeze) && !Reaches(reports, p.revert)
    case RevertTransfer =>
      NamesHighRisk(reports, p) && target != TxTarget && Reaches(reports, p.revert)
    case _ => false
  }

  lemma {:induction false} ReachesMax(reports: seq<RiskReport>, score: nat)
    requires reports != []
    ensures Reaches(reports, score) <==> MaxScore(reports) >= score
  {
    var init := reports[..|reports| - 1];
    assert forall i :: 0 <= i < |init| ==> init[i] == reports[i];
    if init != [] {
      ReachesMax(init, score);
      if Reaches(init, score) {
        var i :| 0 <= i < |init| && init[i].riskScore >= score;
        assert reports[i].riskScore >= score;
      }
    } else {
      assert MaxScore(init) == 0;
      assert reports[0].riskScore >= score <==> Reaches(reports, score);
    }
    assert reports[|reports| - 1].riskScore >= score ==> Reaches(reports, score);
  }

  /** The table says what is recommended, and nothing else is. */
  lemma RecommendedExact(reports: seq<RiskReport>, p: Params, target: TargetType, action: Action)
    requires reports != []
    ensures Recommended(reports, p, target, action) <==> action != NoAction && PolicyAction(reports, p, target) == action
  {
    ReachesMax(reports, p.watch);
    ReachesMax(reports, p.block);
    ReachesMax(reports, p.freeze);
    ReachesMax(reports, p.revert);
    HighRiskByIndex(reports, p);
    assert NamesHighRisk(reports, p) <==> HighRisk(reports, p) by {
      if HighRisk(reports, p) {
        var i, c :| 0 <= i < |reports| && c in reports[i].categories && c in p.highRisk;
        var j :| 0 <= j < |reports[i].categories| && reports[i].categories[j] == c;
      }
    }
    hide Reaches, NamesHighRisk, HighRisk, MaxScore;
  }

  /** Escrow is never recommended; moving or freezing funds needs an address target. */
  lemma PolicyReach(reports: seq<RiskReport>, p: Params, target: TargetType)
    ensures var a := PolicyAction(reports, p, target);
            a in {NoAction, Watch, BlockTx, FreezeAddress, RevertTransfer}
            && (a in {FreezeAddress, RevertTransfer} ==> target != TxTarget && HighRisk(reports, p))
  {
  }

  method StringInSlice(value: string, values: seq<string>) returns (found: bool)
    ensures found <==> value in values
  {
    for k := 0 to |values|
      invariant value !in values[..k]
    {
      if value == values[k] { return true; }
    }
    return false;
  }

  method ComputePolicyAction(reports: seq<RiskReport>, p: Params, target: TargetType) returns (action: Action)
    ensures action == PolicyAction(reports, p, target)
  {
    var maxScore: nat := 0;
    var highRisk := false;
    for k := 0 to |reports|
      invariant maxScore == MaxScore(reports[..k])
      invariant highRisk <==> exists i :: 0 <= i < k && exists c :: c in reports[i].categories && c in p.highRisk
    {
      assert reports[..k + 1][..k] == reports[..k];
      var report := reports[k];
      if report.riskScore > maxScore { maxScore := report.riskScore; }
      ghost var before := highRisk;
      for j := 0 to |report.categories|
        invariant highRisk <==> before || exists c :: c in report.categories[..j] && c in p.highRisk
      {
        var hit := StringInSlice(report.categories[j], p.highRisk);
        if hit {
          highRisk := true;
          assert report.categories[j] in report.categories[..j + 1];
        }
      }
      assert report.categories[..|report.categories|] == report.categories;
    }
    assert reports[..|reports|] == reports;
    HighRiskByIndex(reports, p);
    if !highRisk {
      return if maxScore >= p.watch then Watch else NoAction;
    }
    action := NoAction;
    if maxScore >= p.revert {
      action := RevertTransfer;
    } else if maxScore >= p.freeze {
      action := FreezeAddress;
    } else if maxScore >= p.block {
      action := BlockTx;
    } else if maxScore >= p.watch {
      action := Watch;
    }
    if target == TxTarget && (action == RevertTransfer || action == FreezeAddress || action == EscrowFunds) {
      return BlockTx;
    }
  }

  lemma HighRiskByIndex(reports: seq<RiskReport>, p: Params)
    ensures HighRisk(reports, p) <==>
            exists i :: 0 <= i < |reports| && exists c :: c in reports[i].categories && c in p.highRisk
  {
    if HighRisk(reports, p) {
      var r :| r in reports && exists c :: c in r.categories && c in p.highRisk;
      var i :| 0 <= i < |reports| && reports[i] == r;
    }
  }
}
