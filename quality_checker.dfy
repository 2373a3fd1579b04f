/**
 * The quality checker: four rule-based checks of an investigation report
 * (completeness, evidence accuracy, regulatory compliance, professional
 * standards), the weighted quality score over their outcomes, and the
 * validity threshold. Scores are kept in hundredths: completeness 40 or
 * 20, evidence 30 or 21, compliance 20 or 10, standards 10 or 7, valid
 * from 80.
 */
module QualityChecker {
  import opened Py
  import opened Text
  import opened Models
  import opened Sequences

  /** The four report sections `check_completeness` looks at. */
  datatype Section = ExecutiveSummary | EvidenceSummary | Recommendations | RegulatoryCitations

  function SectionName(s: Section): string
  {
    match s
    case ExecutiveSummary => "executive_summary"
    case EvidenceSummary => "evidence_summary"
    case Recommendations => "recommendations"
    case RegulatoryCitations => "regulatory_citations"
  }

  const RequiredSections: seq<Section> := [ExecutiveSummary, EvidenceSummary, Recommendations, RegulatoryCitations]

  /** The threshold of a valid report: 0.8. */
  const MinQualityScore := 80

  /** A section fails when the summary has under 50 characters once stripped, or a list is empty. */
  predicate SectionFails(report: InvestigationReport, section: Section)
  {
    match section
    case ExecutiveSummary => |Strip(report.executiveSummary)| < 50
    case EvidenceSummary => |report.evidenceSummary| == 0
    case Recommendations => |report.recommendations| == 0
    case RegulatoryCitations => |report.regulatoryCitations| == 0
  }

  /** Presence and length (of the summary) or count (of the lists) of one section. */
  datatype SectionDetail = SectionDetail(present: bool, size: nat)

  datatype Completeness = Completeness(
    allSectionsPresent: bool,
    missingSections: seq<string>,
    summaryDetail: SectionDetail,
    evidenceDetail: SectionDetail,
    recommendationsDetail: SectionDetail,
    citationsDetail: SectionDetail)

  /** The names of a list of sections. */
  function SectionNames(ss: seq<Section>): (r: seq<string>)
    ensures |r| == |ss| && forall i :: 0 <= i < |ss| ==> r[i] == SectionName(ss[i])
  {
    seq(|ss|, i requires 0 <= i < |ss| => SectionName(ss[i]))
  }

  /** `[section]` when it fails, else nothing. */
  function IfFails(report: InvestigationReport, section: Section): seq<Section>
  {
    if SectionFails(report, section) then [section] else []
  }

  /** The failing sections, in the order they are checked. */
  function FailingSections(report: InvestigationReport): seq<Section>
  {
    IfFails(report, ExecutiveSummary) + IfFails(report, EvidenceSummary)
    + IfFails(report, Recommendations) + IfFails(report, RegulatoryCitations)
  }

  function MissingSections(report: InvestigationReport): seq<string>
  {
    SectionNames(FailingSections(report))
  }

  /** `check_completeness`: flips the flag and appends each failing section in turn. */
  method CheckCompleteness(report: InvestigationReport) returns (c: Completeness)
    ensures c.missingSections == MissingSections(report)
    ensures c.allSectionsPresent <==> c.missingSections == []
    ensures c.summaryDetail == SectionDetail(report.executiveSummary != "", |report.executiveSummary|)
    ensures c.evidenceDetail == SectionDetail(|report.evidenceSummary| > 0, |report.evidenceSummary|)
    ensures c.recommendationsDetail == SectionDetail(|report.recommendations| > 0, |report.recommendations|)
    ensures c.citationsDetail == SectionDetail(|report.regulatoryCitations| > 0, |report.regulatoryCitations|)
  {
    var allPresent := true;
    var missing: seq<Section> := [];
    if |Strip(report.executiveSummary)| < 50 {
      allPresent := false;
      missing := missing + [ExecutiveSummary];
    }
    if |report.evidenceSummary| == 0 {
      allPresent := false;
      missing := missing + [EvidenceSummary];
    }
    if |report.recommendations| == 0 {
      allPresent := false;
      missing := missing + [Recommendations];
    }
    if |report.regulatoryCitations| == 0 {
      allPresent := false;
      missing := missing + [RegulatoryCitations];
    }
    assert missing == FailingSections(report);
    c := Completeness(allPresent, SectionNames(missing),
                      SectionDetail(report.executiveSummary != "", |report.executiveSummary|),
                      SectionDetail(|report.evidenceSummary| > 0, |report.evidenceSummary|),
                      SectionDetail(|report.recommendations| > 0, |report.recommendations|),
                      SectionDetail(|report.regulatoryCitations| > 0, |report.regulatoryCitations|));
  }

  /** The section test as a function value, for filtering. */
  function FailsIn(report: InvestigationReport): Section -> bool
  {
    section => SectionFails(report, section)
  }

  /** The checked order is the required order: the failing sections are the required list filtered by the test. */
  lemma FailingSectionsAreFiltered(report: InvestigationReport)
    ensures FailingSections(report) == Filter(RequiredSections, FailsIn(report))
  {
    var p := FailsIn(report);
    assert RequiredSections[..3][..2][..1][..0] == [];
    assert Filter(RequiredSections[..3][..2][..1], p) == IfFails(report, ExecutiveSummary);
    assert Filter(RequiredSections[..3][..2], p) == IfFails(report, ExecutiveSummary) + IfFails(report, EvidenceSummary);
    assert Filter(RequiredSections[..3], p)
        == IfFails(report, ExecutiveSummary) + IfFails(report, EvidenceSummary) + IfFails(report, Recommendations);
  }

  /** A report is complete exactly when its summary has 50 stripped characters and every list is non-empty. */
  lemma CompleteIff(report: InvestigationReport)
    ensures MissingSections(report) == [] <==>
              |Strip(report.executiveSummary)| >= 50 && |report.evidenceSummary| > 0
              && |report.recommendations| > 0 && |report.regulatoryCitations| > 0
  {
    FailingSectionsAreFiltered(report);
    FilterEmptyIff(RequiredSections, FailsIn(report));
  }

  /** Each failing section is named once, in the required order; no passing section is named. */
  lemma MissingSectionsOrdered(report: InvestigationReport)
    ensures IsSubsequence(FailingSections(report), RequiredSections)
    ensures forall s :: SectionName(s) in MissingSections(report) <==> SectionFails(report, s)
  {
    FailingSectionsAreFiltered(report);
    FilterSubsequence(RequiredSections, FailsIn(report));
    FilterMembers(RequiredSections, FailsIn(report));
    var f := FailingSections(report);
    var names := MissingSections(report);
    forall s ensures SectionName(s) in names <==> SectionFails(report, s) {
      if SectionName(s) in names {
        var i :| 0 <= i < |names| && names[i] == SectionName(s);
        assert SectionName(f[i]) == SectionName(s);
        SectionNameInjective(f[i], s);
        assert f[i] in f;
      }
      if SectionFails(report, s) {
        assert s in RequiredSections by {
          match s
          case ExecutiveSummary => assert RequiredSections[0] == s;
          case EvidenceSummary => assert RequiredSections[1] == s;
          case Recommendations => assert RequiredSections[2] == s;
          case RegulatoryCitations => assert RequiredSections[3] == s;
        }
        assert s in f;
        var i :| 0 <= i < |f| && f[i] == s;
        assert names[i] == SectionName(s);
      }
    }
  }

  lemma SectionNameInjective(a: Section, b: Section)
    requires SectionName(a) == SectionName(b)
    ensures a == b
  {
  }

  /** The checks one evidence item can fail. */
  predicate DescriptionTooShort(ev: FraudEvidence) { |Strip(ev.description)| < 10 }
  predicate SourceMissing(ev: FraudEvidence) { ev.dataSource == "" }
  predicate SignificanceInvalid(ev: FraudEvidence) { ev.significance < 0.0 || ev.significance > 1.0 }

  predicate ItemValid(ev: FraudEvidence)
  {
    !DescriptionTooShort(ev) && !SourceMissing(ev) && !SignificanceInvalid(ev)
  }

  function FailedChecks(ev: FraudEvidence): nat
  {
    (if DescriptionTooShort(ev) then 1 else 0) + (if SourceMissing(ev) then 1 else 0)
    + (if SignificanceInvalid(ev) then 1 else 0)
  }

  /** The issues of the item at position `i`, labelled with its 1-based number. */
  function ItemIssues(i: nat, ev: FraudEvidence): (r: seq<string>)
    ensures |r| == FailedChecks(ev)
  {
    var tag := "Evidence " + NatToString(i + 1) + ": ";
    (if DescriptionTooShort(ev) then [tag + "Description too short or missing"] else [])
    + (if SourceMissing(ev) then [tag + "Missing data source"] else [])
    + (if SignificanceInvalid(ev) then [tag + "Invalid statistical significance"] else [])
  }

  function EvidenceIssues(evidence: seq<FraudEvidence>): seq<string>
  {
    if |evidence| == 0 then []
    else EvidenceIssues(evidence[..|evidence| - 1]) + ItemIssues(|evidence| - 1, evidence[|evidence| - 1])
  }

  function TotalFailedChecks(evidence: seq<FraudEvidence>): nat
  {
    if |evidence| == 0 then 0 else TotalFailedChecks(evidence[..|evidence| - 1]) + FailedChecks(evidence[|evidence| - 1])
  }

  datatype EvidenceAccuracy = EvidenceAccuracy(allEvidenceValid: bool, issues: seq<string>, evidenceCount: nat)

  /** `validate_evidence_accuracy`: one pass over the evidence, appending an issue per failed check. */
  method ValidateEvidenceAccuracy(evidence: seq<FraudEvidence>) returns (a: EvidenceAccuracy)
    ensures a.issues == EvidenceIssues(evidence)
    ensures a.allEvidenceValid <==> a.issues == []
    ensures a.evidenceCount == |evidence|
  {
    var valid := true;
    var issues: seq<string> := [];
    var i := 0;
    while i < |evidence|
      invariant 0 <= i <= |evidence|
      invariant issues == EvidenceIssues(evidence[..i])
      invariant valid <==> issues == []
    {
      assert evidence[..i + 1][..i] == evidence[..i];
      var ev := evidence[i];
      var tag := "Evidence " + NatToString(i + 1) + ": ";
      if |Strip(ev.description)| < 10 {
        valid := false;
        issues := issues + [tag + "Description too short or missing"];
      }
      if ev.dataSource == "" {
        valid := false;
        issues := issues + [tag + "Missing data source"];
      }
      if ev.significance < 0.0 || ev.significance > 1.0 {
        valid := false;
        issues := issues + [tag + "Invalid statistical significance"];
      }
      assert issues == EvidenceIssues(evidence[..i]) + ItemIssues(i, ev);
      i := i + 1;
    }
    assert evidence[..|evidence|] == evidence;
    a := EvidenceAccuracy(valid, issues, |evidence|);
  }

  /** Each item contributes one issue per failed check; there are no issues exactly when every item is valid. */
  lemma {:induction false} EvidenceIssuesCount(evidence: seq<FraudEvidence>)
    ensures |EvidenceIssues(evidence)| == TotalFailedChecks(evidence) <= 3 * |evidence|
    ensures EvidenceIssues(evidence) == [] <==> forall i :: 0 <= i < |evidence| ==> ItemValid(evidence[i])
    decreases |evidence|
  {
    if |evidence| > 0 {
      var init := evidence[..|evidence| - 1];
      EvidenceIssuesCount(init);
      assert forall i :: 0 <= i < |init| ==> init[i] == evidence[i];
    }
  }

  /** Evidence built through the `FraudEvidence` validator never fails the significance check. */
  lemma ValidatedEvidenceSignificance(ev: FraudEvidence)
    requires ValidEvidence(ev)
    ensures !SignificanceInvalid(ev) && FailedChecks(ev) <= 2
  {
  }

  datatype Compliance = Compliance(hasCitations: bool, citationCount: nat, standardCitationsPresent: bool)

  /** `verify_regulatory_compliance` */
  function VerifyRegulatoryCompliance(report: InvestigationReport): (c: Compliance)
    ensures c.hasCitations <==> |report.regulatoryCitations| > 0
    ensures c.citationCount == |report.regulatoryCitations|
    ensures c.standardCitationsPresent <==> Contains(Lower(Join(" ", report.regulatoryCitations)), "cfr")
  {
    var text := Lower(Join(" ", report.regulatoryCitations));
    CfrSubsumes(text);
    Compliance(|report.regulatoryCitations| > 0, |report.regulatoryCitations|,
               Contains(text, "42 cfr") || Contains(text, "cfr"))
  }

  /** Any text containing `42 cfr` contains `cfr`. */
  lemma CfrSubsumes(text: string)
    ensures Contains(text, "42 cfr") ==> Contains(text, "cfr")
  {
    if Contains(text, "42 cfr") {
      var i := ContainsWitness(text, "42 cfr");
      assert text[i + 3..i + 6] == text[i..i + 6][3..] == "cfr";
      ContainsAt(text, "cfr", i + 3);
    }
  }

  /** The `42 cfr` test is subsumed by the `cfr` one, and there is no standard citation without citations. */
  lemma ComplianceTests(report: InvestigationReport)
    ensures VerifyRegulatoryCompliance(report).standardCitationsPresent ==> VerifyRegulatoryCompliance(report).hasCitations
  {
    if |report.regulatoryCitations| == 0 {
      assert Lower(Join(" ", report.regulatoryCitations)) == "";
      assert !Contains("", "cfr");
    }
  }

  const VagueWords := ["consider", "maybe", "possibly", "perhaps"]

  predicate IsVague(rec: string)
  {
    AnyIn(VagueWords, Lower(rec))
  }

  datatype Standards = Standards(meetsStandards: bool, issues: seq<string>)

  const BriefSummary := "Executive summary too brief"
  const VagueRecommendation := "Recommendations may be too vague"
  const InvalidScore := "Invalid risk score"

  predicate ScoreInvalid(report: InvestigationReport)
  {
    report.riskScore < 0 || report.riskScore > 100
  }

  /**
   * The standards issues: a summary under 100 raw characters, then one
   * issue per vague recommendation, then a score outside [0, 100].
   */
  function StandardsIssues(report: InvestigationReport): seq<string>
  {
    (if |report.executiveSummary| < 100 then [BriefSummary] else [])
    + VagueIssues(|Filter(report.recommendations, IsVague)|)
    + (if ScoreInvalid(report) then [InvalidScore] else [])
  }

  /** The issue list of `n` vague recommendations. */
  function VagueIssues(n: nat): (r: seq<string>)
    ensures |r| == n && forall k :: 0 <= k < n ==> r[k] == VagueRecommendation
  {
    seq(n, _ => VagueRecommendation)
  }

  /** The loop over the recommendations: one issue per vague one. */
  method FlagVagueRecommendations(recs: seq<string>) returns (issues: seq<string>)
    ensures issues == VagueIssues(|Filter(recs, IsVague)|)
  {
    issues := [];
    var i := 0;
    while i < |recs|
      invariant 0 <= i <= |recs|
      invariant issues == VagueIssues(|Filter(recs[..i], IsVague)|)
    {
      assert recs[..i + 1][..i] == recs[..i];
      if IsVague(recs[i]) {
        issues := issues + [VagueRecommendation];
      }
      i := i + 1;
    }
    assert recs[..|recs|] == recs;
  }

  /** `check_professional_standards` */
  method CheckProfessionalStandards(report: InvestigationReport) returns (s: Standards)
    ensures s.issues == StandardsIssues(report)
    ensures s.meetsStandards <==> s.issues == []
  {
    var meets := true;
    var issues: seq<string> := [];
    if |report.executiveSummary| < 100 {
      meets := false;
      issues := issues + [BriefSummary];
    }
    var vague := FlagVagueRecommendations(report.recommendations);
    if vague != [] {
      meets := false;
    }
    issues := issues + vague;
    if report.riskScore < 0 || report.riskScore > 100 {
      meets := false;
      issues := issues + [InvalidScore];
    }
    s := Standards(meets, issues);
  }

  /** The standards are met exactly when the summary has 100 characters, no recommendation is vague and the score is in range. */
  lemma StandardsIff(report: InvestigationReport)
    ensures StandardsIssues(report) == [] <==>
              |report.executiveSummary| >= 100 && !ScoreInvalid(report)
              && forall i :: 0 <= i < |report.recommendations| ==> !IsVague(report.recommendations[i])
  {
    FilterEmptyIff(report.recommendations, IsVague);
  }

  /** A report built through the `InvestigationReport` validator never has an invalid score. */
  lemma ValidatedReportScore(npi: string, name: string, score: int, priority: string, summary: string,
                             evidence: seq<FraudEvidence>, recommendations: seq<string>, citations: seq<string>)
    requires NewInvestigationReport(npi, name, score, priority, summary, evidence, recommendations, citations).Returned?
    ensures !ScoreInvalid(NewInvestigationReport(npi, name, score, priority, summary, evidence, recommendations, citations).value)
  {
  }

  datatype ValidationResults = ValidationResults(
    completeness: Completeness,
    evidenceAccuracy: EvidenceAccuracy,
    regulatoryCompliance: Compliance,
    professionalStandards: Standards,
    qualityScore: int,
    isValid: bool)

  /** The weighted score, in hundredths, of the four check outcomes. */
  function WeightedScore(complete: bool, evidenceValid: bool, compliant: bool, meetsStandards: bool): int
  {
    (if complete then 40 else 20) + (if evidenceValid then 30 else 21)
    + (if compliant then 20 else 10) + (if meetsStandards then 10 else 7)
  }

  function SumInts(s: seq<int>): int
  {
    if |s| == 0 then 0 else SumInts(s[..|s| - 1]) + s[|s| - 1]
  }

  /** `calculate_quality_score`: appends the four weighted scores and sums them. */
  method CalculateQualityScore(c: Completeness, e: EvidenceAccuracy, r: Compliance, s: Standards) returns (score: int)
    ensures score == WeightedScore(c.allSectionsPresent, e.allEvidenceValid,
                                   r.hasCitations && r.standardCitationsPresent, s.meetsStandards)
  {
    var scores: seq<int> := [];
    scores := scores + [if c.allSectionsPresent then 40 else 20];
    scores := scores + [if e.allEvidenceValid then 30 else 21];
    scores := scores + [if r.hasCitations && r.standardCitationsPresent then 20 else 10];
    scores := scores + [if s.meetsStandards then 10 else 7];
    assert scores[..3][..2][..1][..0] == [];
    assert SumInts(scores[..3][..2][..1]) == scores[0];
    assert SumInts(scores[..3][..2]) == scores[0] + scores[1];
    assert SumInts(scores[..3]) == scores[0] + scores[1] + scores[2];
    score := SumInts(scores);
  }

  /** The score lies in [0.58, 1.0] and is 1.0 exactly when every check passes. */
  lemma ScoreRange(complete: bool, evidenceValid: bool, compliant: bool, meetsStandards: bool)
    ensures 58 <= WeightedScore(complete, evidenceValid, compliant, meetsStandards) <= 100
    ensures WeightedScore(complete, evidenceValid, compliant, meetsStandards) == 100
            <==> complete && evidenceValid && compliant && meetsStandards
  {
  }

  /**
   * A complete report is valid unless it fails all three other checks; an
   * incomplete report is valid only if it passes all three.
   */
  lemma ValidityRules(complete: bool, evidenceValid: bool, compliant: bool, meetsStandards: bool)
    ensures complete ==>
              (WeightedScore(complete, evidenceValid, compliant, meetsStandards) >= MinQualityScore
               <==> evidenceValid || compliant || meetsStandards)
    ensures !complete && !(evidenceValid && compliant && meetsStandards) ==>
              WeightedScore(complete, evidenceValid, compliant, meetsStandards) < MinQualityScore
  {
  }

  /** `validate_report_quality` */
  method ValidateReportQuality(report: InvestigationReport) returns (isValid: bool, results: ValidationResults)
    ensures results.completeness.missingSections == MissingSections(report)
    ensures results.evidenceAccuracy.issues == EvidenceIssues(report.evidenceSummary)
    ensures results.regulatoryCompliance == VerifyRegulatoryCompliance(report)
    ensures results.professionalStandards.issues == StandardsIssues(report)
    ensures results.qualityScore == WeightedScore(MissingSections(report) == [], EvidenceIssues(report.evidenceSummary) == [],
                                                  results.regulatoryCompliance.hasCitations
                                                  && results.regulatoryCompliance.standardCitationsPresent,
                                                  StandardsIssues(report) == [])
    ensures isValid == results.isValid && (isValid <==> results.qualityScore >= MinQualityScore)
  {
    var completeness := CheckCompleteness(report);
    var accuracy := ValidateEvidenceAccuracy(report.evidenceSummary);
    var compliance := VerifyRegulatoryCompliance(report);
    var standards := CheckProfessionalStandards(report);
    var score := CalculateQualityScore(completeness, accuracy, compliance, standards);
    isValid := score >= MinQualityScore;
    results := ValidationResults(completeness, accuracy, compliance, standards, score, isValid);
  }
}
