/**
 * The records the pipeline passes between its agents: provider profile and
 * its parts, legal findings, fraud evidence, the risk analysis and the
 * investigation report. Each pydantic model becomes a datatype; its field
 * validators become checking constructors (`New…`) returning an `Outcome`,
 * and the bounds pydantic enforces become `Valid…` predicates.
 */
module Models {
  import opened Py
  import opened Text

  datatype ProviderLocation = ProviderLocation(
    address: Option<string>,
    city: Option<string>,
    state: Option<string>,
    postalCode: Option<string>,
    country: Option<string>)

  const DefaultLocation := ProviderLocation(None, None, None, None, Some("US"))

  datatype ProviderName = ProviderName(first: Option<string>, last: Option<string>, organization: Option<string>)

  /** The display name: the organisation if set, else the non-empty parts of first and last name, else `Unknown`. */
  function FullName(n: ProviderName): (r: string)
    ensures r != ""
    ensures Filled(n.organization) ==> r == n.organization.value
    ensures !Filled(n.organization) && Filled(n.first) && Filled(n.last) ==> r == n.first.value + " " + n.last.value
    ensures !Filled(n.organization) && Filled(n.first) && !Filled(n.last) ==> r == n.first.value
    ensures !Filled(n.organization) && !Filled(n.first) && Filled(n.last) ==> r == n.last.value
    ensures !Filled(n.organization) && !Filled(n.first) && !Filled(n.last) ==> r == "Unknown"
  {
    if Filled(n.organization) then n.organization.value
    else
      var parts := (if Filled(n.first) then [n.first.value] else []) + (if Filled(n.last) then [n.last.value] else []);
      if |parts| > 0 then Join(" ", parts) else "Unknown"
  }

  datatype ProviderTaxonomy = ProviderTaxonomy(
    code: Option<string>,
    description: Option<string>,
    license: Option<string>,
    state: Option<string>)

  datatype UtilizationData = UtilizationData(
    totalServices: int,
    uniqueBeneficiaries: int,
    totalCharges: real,
    totalPayments: real,
    providerType: Option<string>,
    medicareParticipation: Option<string>)

  const DefaultUtilization := UtilizationData(0, 0, 0.0, 0.0, None, None)

  /** Services per beneficiary: zero without beneficiaries, otherwise the quotient. */
  function ServicesPerBeneficiary(u: UtilizationData): (r: real)
    ensures u.uniqueBeneficiaries == 0 ==> r == 0.0
    ensures u.uniqueBeneficiaries != 0 ==> r * u.uniqueBeneficiaries as real == u.totalServices as real
  {
    if u.uniqueBeneficiaries == 0 then 0.0 else u.totalServices as real / u.uniqueBeneficiaries as real
  }

  /** Charges per dollar paid: zero without payments, otherwise the quotient. */
  function ChargeToPaymentRatio(u: UtilizationData): (r: real)
    ensures u.totalPayments == 0.0 ==> r == 0.0
    ensures u.totalPayments != 0.0 ==> r * u.totalPayments == u.totalCharges
  {
    if u.totalPayments == 0.0 then 0.0 else u.totalCharges / u.totalPayments
  }

  datatype ExclusionData = ExclusionData(
    excluded: bool,
    exclusionType: Option<string>,
    exclusionDate: Option<string>,
    reinstatementDate: Option<string>,
    exclusionDescription: Option<string>,
    state: Option<string>)

  const DefaultExclusion := ExclusionData(false, None, None, None, None, None)

  datatype LegalInformation = LegalInformation(
    caseType: string,
    status: string,
    date: Option<string>,
    description: string,
    sourceUrl: string,
    relevanceScore: real,
    verified: bool)

  /** The bound pydantic enforces on `relevance_score`. */
  predicate ValidLegal(li: LegalInformation)
  {
    0.0 <= li.relevanceScore <= 1.0
  }

  /** The message of a violated `ge=0.0, le=1.0` field constraint. */
  function UnitBoundError(x: real): string
  {
    if x < 0.0 then "ensure this value is greater than or equal to 0.0"
    else "ensure this value is less than or equal to 1.0"
  }

  /** The message of a violated `ge=0, le=100` field constraint. */
  function ScoreBoundError(x: int): string
  {
    if x < 0 then "ensure this value is greater than or equal to 0"
    else "ensure this value is less than or equal to 100"
  }

  /** Constructing a `LegalInformation` fails exactly when the relevance is outside [0, 1]. */
  function NewLegalInformation(caseType: string, status: string, date: Option<string>, description: string,
                               sourceUrl: string, relevanceScore: real, verified: bool): (r: Outcome<LegalInformation>)
    ensures r.Returned? <==> 0.0 <= relevanceScore <= 1.0
    ensures r.Returned? ==> ValidLegal(r.value)
    ensures r.Returned? ==> r.value == LegalInformation(caseType, status, date, description, sourceUrl, relevanceScore, verified)
    ensures r.Raised? ==> r.error == UnitBoundError(relevanceScore)
  {
    if 0.0 <= relevanceScore <= 1.0 then
      Returned(LegalInformation(caseType, status, date, description, sourceUrl, relevanceScore, verified))
    else Raised(UnitBoundError(relevanceScore))
  }

  /** A National Provider Identifier as the validator accepts it: exactly ten ASCII digits. */
  predicate IsNpi(v: string)
  {
    |v| == 10 && IsDigits(v)
  }

  const NpiFormatError := "NPI must be exactly 10 digits"

  /** The `npi` validator: returns the value unchanged when it is ten digits, raises otherwise. */
  function ValidateNpi(v: string): (r: Outcome<string>)
    ensures r.Returned? <==> IsNpi(v)
    ensures r.Returned? ==> r.value == v
  {
    if v == "" || !IsDigits(v) || |v| != 10 then Raised(NpiFormatError) else Returned(v)
  }

  lemma NpiValidatorExamples()
    ensures ValidateNpi("1234567890") == Returned("1234567890")
    ensures ValidateNpi("12345").Raised?
    ensures ValidateNpi("123456789a").Raised?
    ensures ValidateNpi("").Raised?
  {
    assert !IsAsciiDigit("123456789a"[9]);
  }

  /** A data-source availability map kept in insertion order, as Python dicts iterate. */
  type SourceFlags = seq<(string, bool)>

  const DefaultSources: SourceFlags := [("cms", false), ("oig", false), ("nppes", false), ("web_search", false)]

  /** `data_sources.get(key, False)` */
  function SourceFlag(flags: SourceFlags, key: string): bool
  {
    if |flags| == 0 then false
    else if flags[0].0 == key then flags[0].1
    else SourceFlag(flags[1..], key)
  }

  datatype ProviderProfile = ProviderProfile(
    npi: string,
    name: ProviderName,
    credentials: Option<string>,
    specialty: Option<string>,
    practiceLocation: ProviderLocation,
    utilizationData: UtilizationData,
    exclusionData: ExclusionData,
    taxonomies: seq<ProviderTaxonomy>,
    enumerationDate: Option<string>,
    certificationDate: Option<string>,
    riskFactors: seq<string>,
    riskScore: real,
    legalInformation: seq<LegalInformation>,
    dataSources: SourceFlags)

  /** What every validated profile satisfies: a ten-digit NPI, a score in [0, 100], legal relevances in [0, 1]. */
  predicate ValidProfile(p: ProviderProfile)
  {
    IsNpi(p.npi) && 0.0 <= p.riskScore <= 100.0 && forall li :: li in p.legalInformation ==> ValidLegal(li)
  }

  /**
   * `ProviderProfile(npi=…)` with every other field at its default: the NPI as
   * given, no exclusion, zero utilization, no taxonomies, legal records or risk
   * factors, a zero score and every source flag false.
   */
  function NewProviderProfile(npi: string): (r: Outcome<ProviderProfile>)
    ensures r.Returned? <==> IsNpi(npi)
    ensures r.Returned? ==> ValidProfile(r.value) && r.value.npi == npi
    ensures r.Returned? ==> r.value.exclusionData == DefaultExclusion && !r.value.exclusionData.excluded
    ensures r.Returned? ==> var u := r.value.utilizationData;
                            && u == DefaultUtilization
                            && u.totalServices == 0 && u.uniqueBeneficiaries == 0
                            && u.totalCharges == 0.0 && u.totalPayments == 0.0
    ensures r.Returned? ==> r.value.legalInformation == [] && r.value.riskFactors == [] && r.value.taxonomies == []
                            && r.value.riskScore == 0.0
    ensures r.Returned? ==> r.value.dataSources == DefaultSources
                            && forall i :: 0 <= i < |r.value.dataSources| ==> !r.value.dataSources[i].1
  {
    var v :- ValidateNpi(npi);
    Returned(ProviderProfile(v, ProviderName(None, None, None), None, None, DefaultLocation, DefaultUtilization,
                             DefaultExclusion, [], None, None, [], 0.0, [], DefaultSources))
  }

  datatype Severity = Low | Medium | High

  function SeverityName(s: Severity): string
  {
    match s
    case Low => "low"
    case Medium => "medium"
    case High => "high"
  }

  /** The `severity` validator: accepts exactly `low`, `medium` and `high`. */
  function ValidateSeverity(v: string): (r: Outcome<Severity>)
    ensures r.Returned? <==> v in ["low", "medium", "high"]
    ensures r.Returned? ==> SeverityName(r.value) == v
  {
    if v == "low" then Returned(Low)
    else if v == "medium" then Returned(Medium)
    else if v == "high" then Returned(High)
    else Raised("Severity must be low, medium, or high")
  }

  /** Every severity's name passes the validator and maps back to it. */
  lemma SeverityRoundTrip(s: Severity)
    ensures ValidateSeverity(SeverityName(s)) == Returned(s)
  {
  }

  datatype FraudEvidence = FraudEvidence(
    evidenceType: string,
    description: string,
    significance: real,
    dataSource: string,
    citation: Option<string>,
    severity: Severity)

  /** The bound pydantic enforces on `statistical_significance`. */
  predicate ValidEvidence(e: FraudEvidence)
  {
    0.0 <= e.significance <= 1.0
  }

  /** Constructing `FraudEvidence` fails on a significance outside [0, 1] or an unknown severity. */
  function NewFraudEvidence(evidenceType: string, description: string, significance: real, dataSource: string,
                            citation: Option<string>, severity: string): (r: Outcome<FraudEvidence>)
    ensures r.Returned? <==> 0.0 <= significance <= 1.0 && severity in ["low", "medium", "high"]
    ensures r.Returned? ==> ValidEvidence(r.value) && SeverityName(r.value.severity) == severity
  {
    if !(0.0 <= significance <= 1.0) then Raised(UnitBoundError(significance))
    else
      var s :- ValidateSeverity(severity);
      Returned(FraudEvidence(evidenceType, description, significance, dataSource, citation, s))
  }

  datatype Priority = PriorityLow | PriorityMedium | PriorityHigh

  function PriorityName(p: Priority): string
  {
    match p
    case PriorityLow => "low"
    case PriorityMedium => "medium"
    case PriorityHigh => "high"
  }

  /** The `priority_level` validator: the priority is recomputed from the score, below 30 low, below 70 medium. */
  function PriorityForScore(score: int): (p: Priority)
    ensures p == PriorityLow <==> score < 30
    ensures p == PriorityMedium <==> 30 <= score < 70
    ensures p == PriorityHigh <==> 70 <= score
  {
    if score < 30 then PriorityLow else if score < 70 then PriorityMedium else PriorityHigh
  }

  /** One statistical outlier found by the pattern analyzer. */
  datatype Anomaly = Anomaly(metric: string, value: Number, mean: real, std: real, zScore: real, direction: string)

  datatype TemporalPatterns = TemporalPatterns(endOfMonthClustering: bool, volumeSpikes: bool, temporalAnomalies: seq<string>)

  datatype GeographicPatterns = GeographicPatterns(serviceArea: string, geographicAnomalies: seq<string>)

  datatype RiskAnalysis = RiskAnalysis(
    providerNpi: string,
    riskScore: int,
    priority: Priority,
    anomalies: seq<Anomaly>,
    evidence: seq<FraudEvidence>,
    temporalPatterns: TemporalPatterns,
    geographicPatterns: GeographicPatterns)

  /**
   * Constructing a `RiskAnalysis`: the score must lie in [0, 100]; the
   * priority handed in is ignored and recomputed from the score.
   */
  function NewRiskAnalysis(npi: string, riskScore: int, priorityLevel: string, anomalies: seq<Anomaly>,
                           evidence: seq<FraudEvidence>, temporal: TemporalPatterns,
                           geographic: GeographicPatterns): (r: Outcome<RiskAnalysis>)
    ensures r.Returned? <==> 0 <= riskScore <= 100
    ensures r.Returned? ==> r.value.priority == PriorityForScore(riskScore) && r.value.riskScore == riskScore
  {
    if !(0 <= riskScore <= 100) then Raised(ScoreBoundError(riskScore))
    else Returned(RiskAnalysis(npi, riskScore, PriorityForScore(riskScore), anomalies, evidence, temporal, geographic))
  }

  /** The priority stored in a risk analysis never depends on the priority string the caller passed. */
  lemma PriorityArgumentIgnored(npi: string, score: int, p1: string, p2: string, a: seq<Anomaly>,
                                e: seq<FraudEvidence>, t: TemporalPatterns, g: GeographicPatterns)
    ensures NewRiskAnalysis(npi, score, p1, a, e, t, g) == NewRiskAnalysis(npi, score, p2, a, e, t, g)
  {
  }

  datatype InvestigationReport = InvestigationReport(
    providerNpi: string,
    providerName: string,
    riskScore: int,
    priorityLevel: string,
    executiveSummary: string,
    evidenceSummary: seq<FraudEvidence>,
    recommendations: seq<string>,
    regulatoryCitations: seq<string>,
    reportVersion: string)

  /** Constructing an `InvestigationReport`: the score must lie in [0, 100]; the version defaults to `1.0`. */
  function NewInvestigationReport(npi: string, name: string, riskScore: int, priorityLevel: string, summary: string,
                                  evidence: seq<FraudEvidence>, recommendations: seq<string>,
                                  citations: seq<string>): (r: Outcome<InvestigationReport>)
    ensures r.Returned? <==> 0 <= riskScore <= 100
    ensures r.Returned? ==> r.value.reportVersion == "1.0" && r.value.riskScore == riskScore
  {
    if !(0 <= riskScore <= 100) then Raised(ScoreBoundError(riskScore))
    else Returned(InvestigationReport(npi, name, riskScore, priorityLevel, summary, evidence, recommendations, citations, "1.0"))
  }
}
