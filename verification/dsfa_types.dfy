/**
  The records exchanged by the risk engine of lib/dsfa.ts: the input profile of a
  data-processing activity (DSFAData), the findings (Risk), the recommendations and
  the assembled result. Human-readable texts are kept as opaque keys.
 */
module DsfaTypes {
  import opened Options

  /** The three-valued scale used for likelihood, impact, severity, priority and data volume. */
  datatype Level = Low | Medium | High

  datatype Category = Confidentiality | Integrity | Availability | Transparency | Lawfulness

  /** An opaque key standing for a display text of the source (descriptions, titles, mitigations). */
  type TextKey = string

  /** The seven finding identifiers, in the order their triggers run. */
  datatype RiskId = Risk1 | Risk2 | Risk3 | Risk4 | Risk5 | Risk6 | Risk7 {

    /** Position of the trigger that produces this finding, 1 to 7. */
    function Index(): (n: nat)
      ensures 1 <= n <= 7
    {
      match this
      case Risk1 => 1 case Risk2 => 2 case Risk3 => 3 case Risk4 => 4
      case Risk5 => 5 case Risk6 => 6 case Risk7 => 7
    }

    /** The identifier string stored in the source's `id` field. */
    function Name(): string
    {
      "risk-" + [('0' as int + Index()) as char]
    }
  }

  /** The five recommendation identifiers, in generation order. */
  datatype RecId = Rec1 | Rec2 | Rec3 | Rec4 | Rec5 {

    function Index(): (n: nat)
      ensures 1 <= n <= 5
    {
      match this
      case Rec1 => 1 case Rec2 => 2 case Rec3 => 3 case Rec4 => 4 case Rec5 => 5
    }

    function Name(): string
    {
      "rec-" + [('0' as int + Index()) as char]
    }
  }

  datatype Risk = Risk(
    id: RiskId,
    category: Category,
    description: TextKey,
    likelihood: Level,
    impact: Level,
    severity: Level,
    mitigation: seq<TextKey>)

  datatype Recommendation = Recommendation(
    id: RecId,
    priority: Level,
    title: TextKey,
    description: TextKey,
    legalBasis: Option<string>)

  /** The two compliance issues the engine can raise. */
  datatype Issue = SensitiveDataNeedsEncryption | LargeScaleNeedsMinimization

  datatype ComplianceStatus = ComplianceStatus(art22: bool, issues: seq<Issue>)

  datatype RiskResult = RiskResult(
    overallRisk: Level,
    risks: seq<Risk>,
    recommendations: seq<Recommendation>,
    complianceStatus: ComplianceStatus)

  /** The input record. Only the boolean flags influence the assessment. */
  datatype DsfaData = DsfaData(
    // basic information
    projectName: string,
    projectDescription: string,
    responsiblePerson: string,
    contactEmail: string,
    // data processing details
    dataCategories: seq<string>,
    dataSubjects: seq<string>,
    dataVolume: Level,
    dataRetention: string,
    // processing characteristics
    processingPurpose: string,
    legalBasis: string,
    dataSharing: bool,
    dataSharingDetails: Option<string>,
    thirdCountryTransfer: bool,
    thirdCountryDetails: Option<string>,
    // technical and organisational measures
    encryption: bool,
    accessControls: bool,
    dataMinimization: bool,
    pseudonymization: bool,
    otherMeasures: Option<string>,
    // risk factors
    sensitiveData: bool,
    sensitiveDataDetails: Option<string>,
    automatedDecisionMaking: bool,
    profiling: bool,
    largeScaleProcessing: bool,
    systematicMonitoring: bool,
    // additional information
    previousAssessments: Option<string>,
    stakeholderConsultation: Option<string>)

  /** Distinct identifiers have distinct id strings. */
  lemma RiskNamesDistinct(a: RiskId, b: RiskId)
    ensures a.Name() == b.Name() <==> a == b
  {
    if a.Name() == b.Name() {
      assert a.Name()[5] == b.Name()[5];
    }
  }

  lemma RecNamesDistinct(a: RecId, b: RecId)
    ensures a.Name() == b.Name() <==> a == b
  {
    if a.Name() == b.Name() {
      assert a.Name()[4] == b.Name()[4];
    }
  }
}
