/**
 * The deterministic parts of the report writer: the recommendation list
 * chosen from the risk score and the evidence, the sorted set of regulatory
 * citations, and the template executive summary used when no language model
 * is available.
 */
module ReportWriter {
  import opened Py
  import opened Text
  import opened Models
  import opened Sequences
  import PatternAnalyzer

  // ----- Recommendations -----

  const ImmediateInvestigation := "Prioritize for immediate investigation due to high risk score"
  const ReviewBillingRecords := "Review detailed billing records for the past 12 months"
  const InterviewProvider := "Conduct provider interview to address identified anomalies"
  const RoutineReview := "Schedule routine review within 30 days"
  const MonitorBilling := "Monitor billing patterns for next quarter"
  const RequestClarification := "Request clarification on identified anomalies"
  const ContinueMonitoring := "Continue routine monitoring"
  const NoAction := "No immediate action required"

  /** The recommendations every report gets for its score band. */
  function BaseRecommendations(riskScore: int): (r: seq<string>)
    ensures |r| == if riskScore >= 30 then 3 else 2
  {
    if riskScore >= 70 then [ImmediateInvestigation, ReviewBillingRecords, InterviewProvider]
    else if riskScore >= 30 then [RoutineReview, MonitorBilling, RequestClarification]
    else [ContinueMonitoring, NoAction]
  }

  predicate IsHighSeverity(e: FraudEvidence) { e.severity == High }
  predicate IsExclusionEvidence(e: FraudEvidence) { e.evidenceType == "oig_exclusion" }
  predicate IsBillingAnomaly(e: FraudEvidence) { Contains(e.evidenceType, "billing_anomaly") }

  /** The list `[e for e in evidence if e.severity == 'high']`. */
  function HighSeverity(evidence: seq<FraudEvidence>): (r: seq<FraudEvidence>)
    ensures forall e :: e in r ==> e in evidence && e.severity == High
  {
    Filter(evidence, IsHighSeverity)
  }

  function HighSeverityRecommendation(count: nat): (r: string)
    ensures IsPrefix("Address ", r)
  {
    assert ("Address " + NatToString(count) + " high-severity findings")[..8] == "Address ";
    "Address " + NatToString(count) + " high-severity findings"
  }

  const ExclusionRecommendation := "Verify exclusion status and compliance requirements"
  const BillingRecommendation := "Request detailed billing documentation for anomaly review"

  /** The evidence-specific items, in their fixed order. */
  function ExtraRecommendations(evidence: seq<FraudEvidence>): seq<string>
  {
    var high := HighSeverity(evidence);
    (if high != [] then [HighSeverityRecommendation(|high|)] else [])
    + (if Filter(evidence, IsExclusionEvidence) != [] then [ExclusionRecommendation] else [])
    + (if Filter(evidence, IsBillingAnomaly) != [] then [BillingRecommendation] else [])
  }

  /** The list `create_recommendations` returns: the base items, then the extras. */
  function Recommendations(riskScore: int, evidence: seq<FraudEvidence>): seq<string>
  {
    BaseRecommendations(riskScore) + ExtraRecommendations(evidence)
  }

  /** `create_recommendations`, appending to the list step by step. */
  method CreateRecommendations(riskScore: int, evidence: seq<FraudEvidence>) returns (recommendations: seq<string>)
    ensures recommendations == Recommendations(riskScore, evidence)
  {
    recommendations := [];
    if riskScore >= 70 {
      recommendations := recommendations + [ImmediateInvestigation];
      recommendations := recommendations + [ReviewBillingRecords];
      recommendations := recommendations + [InterviewProvider];
    } else if riskScore >= 30 {
      recommendations := recommendations + [RoutineReview];
      recommendations := recommendations + [MonitorBilling];
      recommendations := recommendations + [RequestClarification];
    } else {
      recommendations := recommendations + [ContinueMonitoring];
      recommendations := recommendations + [NoAction];
    }
    assert recommendations == BaseRecommendations(riskScore);
    recommendations := AppendExtras(recommendations, evidence);
  }

  /** The evidence-specific half of `create_recommendations`. */
  method AppendExtras(base: seq<string>, evidence: seq<FraudEvidence>) returns (recommendations: seq<string>)
    ensures recommendations == base + ExtraRecommendations(evidence)
  {
    recommendations := base;
    var highSeverityEvidence := HighSeverity(evidence);
    if highSeverityEvidence != [] {
      recommendations := recommendations + [HighSeverityRecommendation(|highSeverityEvidence|)];
    }
    var exclusionEvidence := Filter(evidence, IsExclusionEvidence);
    if exclusionEvidence != [] {
      recommendations := recommendations + [ExclusionRecommendation];
    }
    var anomalyEvidence := Filter(evidence, IsBillingAnomaly);
    if anomalyEvidence != [] {
      recommendations := recommendations + [BillingRecommendation];
    }
  }

  ghost predicate AnyHigh(evidence: seq<FraudEvidence>) { exists i :: 0 <= i < |evidence| && evidence[i].severity == High }
  ghost predicate AnyExclusion(evidence: seq<FraudEvidence>) { exists i :: 0 <= i < |evidence| && IsExclusionEvidence(evidence[i]) }
  ghost predicate AnyBillingAnomaly(evidence: seq<FraudEvidence>) { exists i :: 0 <= i < |evidence| && IsBillingAnomaly(evidence[i]) }

  function Bit(b: bool): nat { if b then 1 else 0 }

  /** One extra item per kind of evidence present, in the order high severity, exclusion, billing anomaly. */
  lemma ExtraRecommendationsShape(evidence: seq<FraudEvidence>)
    ensures var x := ExtraRecommendations(evidence);
            && |x| == Bit(AnyHigh(evidence)) + Bit(AnyExclusion(evidence)) + Bit(AnyBillingAnomaly(evidence))
            && (AnyHigh(evidence) ==> x[0] == HighSeverityRecommendation(|HighSeverity(evidence)|))
            && (AnyExclusion(evidence) ==> x[Bit(AnyHigh(evidence))] == ExclusionRecommendation)
            && (AnyBillingAnomaly(evidence) ==> x[|x| - 1] == BillingRecommendation)
  {
    FilterEmptyIff(evidence, IsHighSeverity);
    FilterEmptyIff(evidence, IsExclusionEvidence);
    FilterEmptyIff(evidence, IsBillingAnomaly);
    var high := HighSeverity(evidence);
    OptionalItems(HighSeverityRecommendation(|high|), ExclusionRecommendation, BillingRecommendation,
                  high != [], Filter(evidence, IsExclusionEvidence) != [], Filter(evidence, IsBillingAnomaly) != []);
  }

  /**
   * The list starts with the base items of the score band; then comes one
   * extra item for each kind of evidence present (high severity, exclusion,
   * billing anomaly) in that order, so it has between 2 and 6 items.
   */
  lemma RecommendationsShape(riskScore: int, evidence: seq<FraudEvidence>)
    ensures var r := Recommendations(riskScore, evidence);
            var b := BaseRecommendations(riskScore);
            && 2 <= |r| <= 6
            && r[..|b|] == b
            && |r| == |b| + Bit(AnyHigh(evidence)) + Bit(AnyExclusion(evidence)) + Bit(AnyBillingAnomaly(evidence))
            && (AnyHigh(evidence) ==> r[|b|] == HighSeverityRecommendation(|HighSeverity(evidence)|))
            && (AnyExclusion(evidence) ==> r[|b| + Bit(AnyHigh(evidence))] == ExclusionRecommendation)
            && (AnyBillingAnomaly(evidence) ==> r[|r| - 1] == BillingRecommendation)
  {
    ExtraRecommendationsShape(evidence);
    var b := BaseRecommendations(riskScore);
    var x := ExtraRecommendations(evidence);
    AppendParts(b, x);
  }

  /** The length of a filtered list counts the items that pass. */
  lemma {:induction false} HighSeverityCounted(evidence: seq<FraudEvidence>)
    ensures |HighSeverity(evidence)| == PatternAnalyzer.CountSeverity(evidence, High)
    decreases |evidence|
  {
    if |evidence| > 0 {
      HighSeverityCounted(evidence[..|evidence| - 1]);
    }
  }

  /** The high-severity recommendation states the number of high-severity items the risk score counted. */
  lemma HighSeverityRecommendationCount(riskScore: int, evidence: seq<FraudEvidence>)
    requires AnyHigh(evidence)
    ensures HighSeverityRecommendation(PatternAnalyzer.CountSeverity(evidence, High)) in Recommendations(riskScore, evidence)
    ensures PatternAnalyzer.CountSeverity(evidence, High) > 0
  {
    RecommendationsShape(riskScore, evidence);
    HighSeverityCounted(evidence);
    FilterEmptyIff(evidence, IsHighSeverity);
  }

  // ----- Regulatory citations -----

  /** The two citations every report carries; the section sign appears mis-encoded, as in the source. */
  const EnrollmentCitation := "42 CFR \U{0E22}\U{0E07}424.516 - Provider enrollment and screening"
  const ExclusionAuthorityCitation := "42 CFR \U{0E22}\U{0E07}1001.101 - OIG exclusion authorities"

  /** The non-empty evidence citations. */
  function EvidenceCitations(evidence: seq<FraudEvidence>): set<string>
  {
    set e | e in evidence && Filled(e.citation) :: e.citation.value
  }

  /** The set whose sorted list `_extract_regulatory_citations` returns. */
  function CitationSet(evidence: seq<FraudEvidence>): set<string>
  {
    EvidenceCitations(evidence) + {EnrollmentCitation, ExclusionAuthorityCitation}
  }

  /** Inserting into a strictly sorted list keeps it strictly sorted and adds exactly the new item. */
  function Insert(s: seq<string>, x: string): (r: seq<string>)
    requires StrictlySorted(s)
    ensures StrictlySorted(r)
    ensures forall c :: c in r <==> c in s || c == x
    decreases |s|
  {
    if |s| == 0 then [x]
    else if x == s[0] then s
    else if StrLess(x, s[0]) then
      assert forall j :: 0 <= j < |s| ==> StrLess(x, s[j]) by {
        forall j | 0 < j < |s| { StrLessTransitive(x, s[0], s[j]); }
      }
      [x] + s
    else
      StrLessTotal(x, s[0]);
      assert StrictlySorted(s[1..]);
      var rest := Insert(s[1..], x);
      assert forall c :: c in rest ==> StrLess(s[0], c) by {
        forall c | c in rest
          ensures StrLess(s[0], c)
        {
          if c != x {
            var j :| 0 <= j < |s[1..]| && s[1..][j] == c;
            assert s[j + 1] == c;
          }
        }
      }
      assert forall c :: c in s <==> c == s[0] || c in s[1..] by {
        assert s == [s[0]] + s[1..];
      }
      [s[0]] + rest
  }

  /** `sorted(list(citations))`, taking the items out of the set one at a time. */
  method SortedList(citations: set<string>) returns (r: seq<string>)
    ensures StrictlySorted(r)
    ensures forall c :: c in r <==> c in citations
  {
    r := [];
    var rest := citations;
    while rest != {}
      invariant StrictlySorted(r)
      invariant rest <= citations
      invariant forall c :: c in citations <==> c in r || c in rest
      decreases |rest|
    {
      var x :| x in rest;
      r := Insert(r, x);
      rest := rest - {x};
    }
  }

  /** `_extract_regulatory_citations`: collect the non-empty citations in a set, add the standard two, sort. */
  method ExtractRegulatoryCitations(evidence: seq<FraudEvidence>) returns (r: seq<string>)
    ensures StrictlySorted(r)
    ensures forall c :: c in r <==> c in CitationSet(evidence)
    ensures |r| >= 2
  {
    var citations: set<string> := {};
    for i := 0 to |evidence|
      invariant citations == EvidenceCitations(evidence[..i])
    {
      assert evidence[..i + 1] == evidence[..i] + [evidence[i]];
      if Filled(evidence[i].citation) {
        citations := citations + {evidence[i].citation.value};
      }
    }
    assert evidence[..|evidence|] == evidence;
    citations := citations + {EnrollmentCitation};
    citations := citations + {ExclusionAuthorityCitation};
    r := SortedList(citations);
    StandardCitationsPresent(r);
  }

  /** A list holding both standard citations has at least two items. */
  lemma StandardCitationsPresent(r: seq<string>)
    requires EnrollmentCitation in r && ExclusionAuthorityCitation in r
    ensures |r| >= 2
  {
    assert EnrollmentCitation[7] != ExclusionAuthorityCitation[7] || EnrollmentCitation[9] != ExclusionAuthorityCitation[9];
  }

  lemma NonEmptyMembers(s: seq<string>, t: seq<string>)
    requires |s| > 0 && forall c :: c in s ==> c in t
    ensures |t| > 0
  {
    assert s[0] in t;
  }

  /** Two strictly sorted lists with the same items are the same list: the citation list is determined by its set. */
  lemma {:induction false} SortedListUnique(a: seq<string>, b: seq<string>)
    requires StrictlySorted(a) && StrictlySorted(b)
    requires forall c :: c in a <==> c in b
    ensures a == b
    decreases |a|
  {
    if |a| == 0 {
      if |b| > 0 { NonEmptyMembers(b, a); }
    } else {
      assert a[0] in b;
      var k :| 0 <= k < |b| && b[k] == a[0];
      assert b[0] in a;
      var m :| 0 <= m < |a| && a[m] == b[0];
      if k > 0 {
        assert StrLess(b[0], a[0]);
        if m > 0 {
          assert StrLess(a[0], b[0]);
          StrLessAsymmetric(a[0], b[0]);
        } else {
          StrLessIrreflexive(a[0]);
        }
      }
      assert b[0] == a[0];
      assert StrictlySorted(a[1..]) && StrictlySorted(b[1..]);
      forall c
        ensures c in a[1..] <==> c in b[1..]
      {
        if c in a[1..] {
          var i :| 0 <= i < |a[1..]| && a[1..][i] == c;
          assert StrLess(a[0], c) by { assert a[i + 1] == c; }
          if c == a[0] { StrLessIrreflexive(c); }
          assert c in b && c != b[0];
          var j :| 0 <= j < |b| && b[j] == c;
          assert b[1..][j - 1] == c;
        }
        if c in b[1..] {
          var i :| 0 <= i < |b[1..]| && b[1..][i] == c;
          assert StrLess(b[0], c) by { assert b[i + 1] == c; }
          if c == b[0] { StrLessIrreflexive(c); }
          assert c in a && c != a[0];
          var j :| 0 <= j < |a| && a[j] == c;
          assert a[1..][j - 1] == c;
        }
      }
      SortedListUnique(a[1..], b[1..]);
      assert a == [a[0]] + a[1..] && b == [b[0]] + b[1..];
    }
  }

  /** Every non-empty evidence citation and both standard citations are in the result, and nothing else is. */
  lemma CitationSetMembers(evidence: seq<FraudEvidence>, c: string)
    ensures c in CitationSet(evidence) <==>
            c == EnrollmentCitation || c == ExclusionAuthorityCitation
            || exists i :: 0 <= i < |evidence| && evidence[i].citation == Some(c) && c != ""
  {
    if c in EvidenceCitations(evidence) {
      var e :| e in evidence && Filled(e.citation) && e.citation.value == c;
      var i :| 0 <= i < |evidence| && evidence[i] == e;
      assert evidence[i].citation == Some(c);
    }
    if exists i :: 0 <= i < |evidence| && evidence[i].citation == Some(c) && c != "" {
      var i :| 0 <= i < |evidence| && evidence[i].citation == Some(c) && c != "";
      assert evidence[i] in evidence;
    }
  }

  // ----- Template summary -----

  /** The capitalised priority word of the summary. */
  function SummaryPriority(riskScore: int): string
  {
    if riskScore >= 70 then "High" else if riskScore >= 30 then "Medium" else "Low"
  }

  /** The summary's lower-cased priority is the one the risk analysis stores for the same score. */
  lemma SummaryPriorityAgrees(riskScore: int)
    ensures Lower(SummaryPriority(riskScore)) == PriorityName(PriorityForScore(riskScore))
  {
    var w := SummaryPriority(riskScore);
    assert Lower(w) == [LowerChar(w[0])] + Lower(w[1..]);
    assert Lower(w[1..]) == w[1..];
  }

  /** The key-findings sentence: empty unless some evidence is high severity. */
  function KeyFindings(evidence: seq<FraudEvidence>): (r: string)
    ensures var high := HighSeverity(evidence);
            (r == "" <==> high == [])
            && (high != [] ==> r == "Key findings include " + NatToString(|high|)
                                    + " high-severity indicators, including " + high[0].description + ". ")
  {
    if |evidence| > 0 then
      var highSeverity := HighSeverity(evidence);
      if |highSeverity| > 0 then
        "Key findings include " + NatToString(|highSeverity|) + " high-severity indicators, including "
        + highSeverity[0].description + ". "
      else ""
    else ""
  }

  function Conclusion(riskScore: int): string
  {
    if riskScore >= 70 then "immediate investigation is recommended"
    else if riskScore >= 30 then "further monitoring may be warranted"
    else "no immediate concerns identified"
  }

  const Opening := "This investigation report analyzes the fraud risk profile of provider "

  /** The first paragraph and the start of the second, up to the key findings. */
  function SummaryHead(riskScore: int, profile: ProviderProfile): (r: string)
    ensures IsPrefix(Opening + FullName(profile.name), r)
  {
    var opening := Opening + FullName(profile.name);
    var rest := " (NPI: " + profile.npi + ").\n\nThe analysis indicates a " + Lower(SummaryPriority(riskScore))
                + " risk level with a risk score of " + IntToString(riskScore) + "/100. ";
    assert (opening + rest)[..|opening|] == opening;
    opening + rest
  }

  function SummaryTail(riskScore: int): string
  {
    "The provider's billing patterns, regulatory status, and utilization metrics "
    + "have been evaluated against peer baselines and regulatory standards.\n\nBased on this analysis, "
    + Conclusion(riskScore) + "."
  }

  /** `_create_template_summary`: the head, the key findings (possibly empty) and the tail, in that order. */
  function TemplateSummary(riskScore: int, evidence: seq<FraudEvidence>, profile: ProviderProfile): string
  {
    SummaryHead(riskScore, profile) + (KeyFindings(evidence) + SummaryTail(riskScore))
  }

  /** The summary opens by naming the provider. */
  lemma TemplateSummaryOpening(riskScore: int, evidence: seq<FraudEvidence>, profile: ProviderProfile)
    ensures IsPrefix(Opening + FullName(profile.name), TemplateSummary(riskScore, evidence, profile))
  {
    var head := SummaryHead(riskScore, profile);
    PrefixExtends(Opening + FullName(profile.name), head, KeyFindings(evidence) + SummaryTail(riskScore));
  }

  /** The summary names the first high-severity finding when there is one. */
  lemma TemplateSummaryFindings(riskScore: int, evidence: seq<FraudEvidence>, profile: ProviderProfile)
    ensures HighSeverity(evidence) != [] ==> Contains(TemplateSummary(riskScore, evidence, profile), KeyFindings(evidence))
  {
    ContainsMiddle(SummaryHead(riskScore, profile), KeyFindings(evidence), SummaryTail(riskScore));
  }

  /** The conclusion follows the same 30/70 bands as the priority. */
  lemma ConclusionBands(riskScore: int)
    ensures Conclusion(riskScore) == "immediate investigation is recommended" <==> PriorityForScore(riskScore) == PriorityHigh
    ensures Conclusion(riskScore) == "no immediate concerns identified" <==> PriorityForScore(riskScore) == PriorityLow
  {
  }
}
