/**
  calculateRiskAssessment of lib/dsfa.ts: findings and recommendations, the
  overall-risk cascade, the Art. 22 compliance check and the priority sort,
  assembled into one RiskResult. Pure and total over its input.
 */
module Assessment {
  import opened DsfaTypes
  import opened PrioritySort
  import opened Findings

  /**
    The overall-risk cascade on the two severity counts. Below three medium
    findings it is the reference level of the high count alone.
   */
  function OverallRisk(highCount: nat, mediumCount: nat): (r: Level)
    ensures mediumCount < 3 ==> r == LevelForFactors(highCount)
  {
    if highCount >= 2 then High
    else if highCount >= 1 || mediumCount >= 3 then Medium
    else Low
  }

  /** Reference for the overall risk: a function of the number of set risk-factor flags alone. */
  function LevelForFactors(n: nat): Level
  {
    if n >= 2 then High else if n == 1 then Medium else Low
  }

  /**
    The compliance check. The verdict fails exactly when sensitive data is processed
    without encryption, which is also exactly when the encryption issue is raised;
    the large-scale issue is advisory and never changes the verdict. The source's
    branch for automated decision-making without profiling is empty.
   */
  function CheckCompliance(d: DsfaData): (c: ComplianceStatus)
    ensures c.art22 <==> SensitiveDataNeedsEncryption !in c.issues
    ensures c.art22 <==> !(d.sensitiveData && !d.encryption)
    ensures LargeScaleNeedsMinimization in c.issues <==> d.largeScaleProcessing && !d.dataMinimization
    ensures |c.issues| <= 2
    ensures |c.issues| == 2 ==> c.issues == [SensitiveDataNeedsEncryption, LargeScaleNeedsMinimization]
  {
    var art22 := !(d.sensitiveData && !d.encryption);
    var issues := When(d.sensitiveData && !d.encryption, SensitiveDataNeedsEncryption)
                + When(d.largeScaleProcessing && !d.dataMinimization, LargeScaleNeedsMinimization);
    ComplianceStatus(art22, issues)
  }

  /**
    The whole assessment. The overall risk is high with two or more set risk-factor
    flags, medium with one and low with none; the verdict fails exactly when
    sensitive data is processed without encryption; the returned recommendations
    are sorted by priority and, since generation order is already sorted, equal to
    the generated ones in generation order.
   */
  function CalculateRiskAssessment(d: DsfaData): (r: RiskResult)
    ensures r.overallRisk == LevelForFactors(FactorCount(d))
    ensures r.complianceStatus.art22 <==> !(d.sensitiveData && !d.encryption)
    ensures Sorted(r.recommendations)
    ensures r.recommendations == GenerateRecommendations(d)
  {
    var risks := GenerateRisks(d);
    var recommendations := GenerateRecommendations(d);
    var highSeverityRisks := CountSeverity(risks, High);
    var mediumSeverityRisks := CountSeverity(risks, Medium);
    SeverityCounts(d);
    GenerateRecommendationsSpec(d);
    SortedUnchanged(recommendations);
    RiskResult(
      OverallRisk(highSeverityRisks, mediumSeverityRisks),
      risks,
      SortByPriority(recommendations),
      CheckCompliance(d))
  }

  /**
    The `mediumSeverityRisks >= 3` disjunct of the cascade can never decide the
    outcome: at most two findings have medium severity.
   */
  lemma MediumCountBranchUnreachable(d: DsfaData)
    ensures CountSeverity(GenerateRisks(d), Medium) < 3
    ensures var risks := GenerateRisks(d);
      OverallRisk(CountSeverity(risks, High), CountSeverity(risks, Medium))
      == OverallRisk(CountSeverity(risks, High), 0)
  {
    SeverityCounts(d);
  }

  /** The overall risk, stated case by case in both directions. */
  lemma OverallRiskByFactors(d: DsfaData)
    ensures CalculateRiskAssessment(d).overallRisk == High <==> FactorCount(d) >= 2
    ensures CalculateRiskAssessment(d).overallRisk == Medium <==> FactorCount(d) == 1
    ensures CalculateRiskAssessment(d).overallRisk == Low <==> FactorCount(d) == 0
  {
  }

  /** Two profiles that agree on the five risk-factor flags get the same overall risk. */
  lemma OverallRiskOnlyFromFactors(a: DsfaData, b: DsfaData)
    requires a.sensitiveData == b.sensitiveData && a.largeScaleProcessing == b.largeScaleProcessing
    requires a.automatedDecisionMaking == b.automatedDecisionMaking
    requires a.thirdCountryTransfer == b.thirdCountryTransfer && a.systematicMonitoring == b.systematicMonitoring
    ensures CalculateRiskAssessment(a).overallRisk == CalculateRiskAssessment(b).overallRisk
  {
  }

  /** The verdict depends on nothing but the sensitive-data and encryption flags. */
  lemma Art22OnlyFromSensitiveAndEncryption(a: DsfaData, b: DsfaData)
    requires a.sensitiveData == b.sensitiveData && a.encryption == b.encryption
    ensures CalculateRiskAssessment(a).complianceStatus.art22 == CalculateRiskAssessment(b).complianceStatus.art22
  {
  }

  /** Two profiles agree on the eight flags the triggers and the compliance check read. */
  predicate SameTriggerFlags(a: DsfaData, b: DsfaData)
  {
    && a.sensitiveData == b.sensitiveData && a.largeScaleProcessing == b.largeScaleProcessing
    && a.automatedDecisionMaking == b.automatedDecisionMaking
    && a.thirdCountryTransfer == b.thirdCountryTransfer && a.systematicMonitoring == b.systematicMonitoring
    && a.encryption == b.encryption && a.accessControls == b.accessControls
    && a.dataMinimization == b.dataMinimization
  }

  /**
    Only the eight flags the triggers and the compliance check read influence the
    result; texts, data volume, pseudonymisation and profiling do not.
   */
  lemma OnlyTriggerFlagsMatter(a: DsfaData, b: DsfaData)
    requires SameTriggerFlags(a, b)
    ensures CalculateRiskAssessment(a) == CalculateRiskAssessment(b)
  {
    SameFiringSameRisks(a, b, RiskTriggers);
    SameFiringSameRecommendations(a, b, RecTriggers);
  }

  /** Two profiles on which the same finding triggers fire produce the same findings. */
  lemma {:induction false} SameFiringSameRisks(a: DsfaData, b: DsfaData, ids: seq<RiskId>)
    requires forall id: RiskId :: Fires(a, id) == Fires(b, id)
    ensures RunRiskTriggers(a, ids) == RunRiskTriggers(b, ids)
  {
    if ids != [] {
      SameFiringSameRisks(a, b, ids[1..]);
    }
  }

  /** Two profiles on which the same recommendation triggers fire produce the same recommendations. */
  lemma {:induction false} SameFiringSameRecommendations(a: DsfaData, b: DsfaData, ids: seq<RecId>)
    requires forall id: RecId :: RecFires(a, id) == RecFires(b, id)
    ensures RunRecTriggers(a, ids) == RunRecTriggers(b, ids)
  {
    if ids != [] {
      SameFiringSameRecommendations(a, b, ids[1..]);
    }
  }

  /**
    The profiling flag is read only by the empty branch of the compliance check
    (automated decision-making without profiling), so it changes no field of the result.
   */
  lemma ProfilingHasNoEffect(d: DsfaData, profiling: bool)
    ensures CalculateRiskAssessment(d.(profiling := profiling)) == CalculateRiskAssessment(d)
  {
    OnlyTriggerFlagsMatter(d.(profiling := profiling), d);
  }

  /** No two findings of a result share an id string. */
  lemma RiskIdStringsUnique(d: DsfaData)
    ensures var rs := CalculateRiskAssessment(d).risks;
      forall i, j | 0 <= i < j < |rs| :: rs[i].id.Name() != rs[j].id.Name()
  {
    GenerateRisksSpec(d);
    var rs := CalculateRiskAssessment(d).risks;
    forall i, j | 0 <= i < j < |rs|
      ensures rs[i].id.Name() != rs[j].id.Name()
    {
      RiskNamesDistinct(rs[i].id, rs[j].id);
    }
  }

  /** No two recommendations of a result share an id string. */
  lemma RecIdStringsUnique(d: DsfaData)
    ensures var rs := CalculateRiskAssessment(d).recommendations;
      forall i, j | 0 <= i < j < |rs| :: rs[i].id.Name() != rs[j].id.Name()
  {
    GenerateRecommendationsSpec(d);
    var rs := CalculateRiskAssessment(d).recommendations;
    forall i, j | 0 <= i < j < |rs|
      ensures rs[i].id.Name() != rs[j].id.Name()
    {
      RecNamesDistinct(rs[i].id, rs[j].id);
    }
  }

  /**
    A high overall risk does not make the verdict fail: two risk factors with both
    safeguards and data minimisation present give a high risk and a clean verdict.
   */
  lemma HighRiskCanBeCompliant(d: DsfaData)
    requires d.largeScaleProcessing && d.systematicMonitoring
    requires !d.sensitiveData && !d.automatedDecisionMaking && !d.thirdCountryTransfer
    requires d.encryption && d.accessControls && d.dataMinimization
    ensures var r := CalculateRiskAssessment(d);
      r.overallRisk == High && r.complianceStatus.art22 && r.complianceStatus.issues == []
  {
  }

  /**
    Sensitive data without encryption (access controls present, no other risk factor):
    one high and one medium finding, so the overall risk is only medium, and the
    verdict fails.
   */
  lemma SensitiveDataWithoutEncryption(d: DsfaData)
    requires d.sensitiveData && !d.encryption && d.accessControls
    requires !d.largeScaleProcessing && !d.automatedDecisionMaking
    requires !d.thirdCountryTransfer && !d.systematicMonitoring
    ensures var r := CalculateRiskAssessment(d);
      && Ids(r.risks, RiskIdOf) == [Risk1, Risk6]
      && r.overallRisk == Medium
      && !r.complianceStatus.art22
      && r.complianceStatus.issues == [SensitiveDataNeedsEncryption]
  {
    GenerateRisksUnrolled(d);
    assert GenerateRisks(d) == [RiskRecord(Risk1), RiskRecord(Risk6)];
  }

  /** Missing data minimisation alone yields `rec-5` and no finding at all. */
  lemma MinimizationRecommendationWithoutRisk(d: DsfaData)
    requires !d.dataMinimization && d.encryption && d.accessControls
    requires !d.sensitiveData && !d.largeScaleProcessing && !d.automatedDecisionMaking
    requires !d.thirdCountryTransfer && !d.systematicMonitoring
    ensures var r := CalculateRiskAssessment(d);
      && r.risks == []
      && Ids(r.recommendations, RecIdOf) == [Rec5]
      && r.overallRisk == Low
      && r.complianceStatus.art22
  {
    GenerateRisksUnrolled(d);
    GenerateRecommendationsUnrolled(d);
    assert GenerateRecommendations(d) == [RecRecord(Rec5)];
  }

  /**
    Severity is not a function of likelihood and impact: `risk-2` and `risk-6` both
    have likelihood medium and impact high, but severities high and medium.
   */
  lemma SeverityNotDerivedFromLikelihoodAndImpact()
    ensures RiskRecord(Risk2).likelihood == RiskRecord(Risk6).likelihood == Medium
    ensures RiskRecord(Risk2).impact == RiskRecord(Risk6).impact == High
    ensures RiskRecord(Risk2).severity == High && RiskRecord(Risk6).severity == Medium
  {
  }
}
