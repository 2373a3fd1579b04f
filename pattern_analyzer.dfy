/**
 * The pattern analyzer agent: z-score anomaly detection against a peer
 * baseline, temporal and geographic flags, evidence compilation and the
 * composite 0-100 risk score with its exclusion-tier floors.
 *
 * Each step that accumulates in the source is a method proved equal to a
 * declarative function; the properties of the analysis are lemmas about
 * those functions.
 */
module PatternAnalyzer {
  import opened Py
  import opened Text
  import opened Models
  import opened Sequences

  /** |z| beyond which a metric is reported as anomalous. */
  const AnomalyThreshold: real := 2.5

  datatype Metric = MTotalServices | MUniqueBeneficiaries | MServicesPerBeneficiary | MTotalCharges | MChargeToPaymentRatio

  function MetricName(m: Metric): string
  {
    match m
    case MTotalServices => "total_services"
    case MUniqueBeneficiaries => "unique_beneficiaries"
    case MServicesPerBeneficiary => "services_per_beneficiary"
    case MTotalCharges => "total_charges"
    case MChargeToPaymentRatio => "charge_to_payment_ratio"
  }

  /** The metrics examined, in the order the analysis visits them. */
  const TrackedMetrics: seq<Metric> :=
    [MTotalServices, MUniqueBeneficiaries, MServicesPerBeneficiary, MTotalCharges, MChargeToPaymentRatio]

  function MetricValue(u: UtilizationData, m: Metric): Number
  {
    match m
    case MTotalServices => IntNum(u.totalServices)
    case MUniqueBeneficiaries => IntNum(u.uniqueBeneficiaries)
    case MServicesPerBeneficiary => FloatNum(ServicesPerBeneficiary(u))
    case MTotalCharges => FloatNum(u.totalCharges)
    case MChargeToPaymentRatio => FloatNum(ChargeToPaymentRatio(u))
  }

  /** A baseline entry; either statistic may be absent. */
  datatype BaselineStats = BaselineStats(mean: Option<real>, std: Option<real>)

  type PeerBaseline = map<string, BaselineStats>

  /** The placeholder peer baseline used when the caller supplies none; every metric has a positive spread. */
  function DefaultBaseline(): (b: PeerBaseline)
    ensures forall m :: MetricName(m) in b && b[MetricName(m)].std.Some? && b[MetricName(m)].std.value > 0.0
  {
    map[
      "total_services" := BaselineStats(Some(1000.0), Some(200.0)),
      "unique_beneficiaries" := BaselineStats(Some(300.0), Some(50.0)),
      "services_per_beneficiary" := BaselineStats(Some(3.3), Some(1.0)),
      "total_charges" := BaselineStats(Some(500000.0), Some(100000.0)),
      "charge_to_payment_ratio" := BaselineStats(Some(1.2), Some(0.3))
    ]
  }

  function BaselineOrDefault(peer: Option<PeerBaseline>): PeerBaseline
  {
    if peer.None? then DefaultBaseline() else peer.value
  }

  /** The baseline mean of a metric, 0 when absent. */
  function BaselineMean(b: PeerBaseline, name: string): real
  {
    if name in b && b[name].mean.Some? then b[name].mean.value else 0.0
  }

  /** The baseline spread of a metric, 1 when absent. */
  function BaselineStd(b: PeerBaseline, name: string): real
  {
    if name in b && b[name].std.Some? then b[name].std.value else 1.0
  }

  /** The entry reported for one metric, if it qualifies. */
  function MetricAnomaly(u: UtilizationData, b: PeerBaseline, m: Metric): Option<Anomaly>
  {
    var v := MetricValue(u, m);
    if NumValue(v) == 0.0 then None
    else
      var mean := BaselineMean(b, MetricName(m));
      var std := BaselineStd(b, MetricName(m));
      if std > 0.0 then
        var z := (NumValue(v) - mean) / std;
        if Abs(z) > AnomalyThreshold then Some(Anomaly(MetricName(m), v, mean, std, z, if z > 0.0 then "high" else "low"))
        else None
      else None
  }

  function AnomaliesOver(ms: seq<Metric>, u: UtilizationData, b: PeerBaseline): seq<Anomaly>
    decreases |ms|
  {
    if |ms| == 0 then [] else AnomaliesOver(ms[..|ms| - 1], u, b) + OptionToSeq(MetricAnomaly(u, b, ms[|ms| - 1]))
  }

  /** The anomaly table `calculate_statistical_anomalies` returns, in metric order. */
  function StatisticalAnomalies(u: UtilizationData, peer: Option<PeerBaseline>): seq<Anomaly>
  {
    AnomaliesOver(TrackedMetrics, u, BaselineOrDefault(peer))
  }

  method CalculateStatisticalAnomalies(provider: ProviderProfile, peerBaseline: Option<PeerBaseline>)
    returns (anomalies: seq<Anomaly>)
    ensures anomalies == StatisticalAnomalies(provider.utilizationData, peerBaseline)
  {
    var utilization := provider.utilizationData;
    var baseline := if peerBaseline.None? then DefaultBaseline() else peerBaseline.value;
    var metrics := TrackedMetrics;
    anomalies := [];
    var i := 0;
    while i < |metrics|
      invariant 0 <= i <= |metrics|
      invariant anomalies == AnomaliesOver(metrics[..i], utilization, baseline)
    {
      assert metrics[..i + 1][..i] == metrics[..i];
      assert AnomaliesOver(metrics[..i + 1], utilization, baseline)
          == AnomaliesOver(metrics[..i], utilization, baseline) + OptionToSeq(MetricAnomaly(utilization, baseline, metrics[i]));
      var found := DetectMetricAnomaly(utilization, baseline, metrics[i]);
      anomalies := anomalies + OptionToSeq(found);
      i := i + 1;
    }
    assert metrics[..|metrics|] == metrics;
  }

  /** The body of the metric loop: the entry for one metric, when its z-score is beyond the threshold. */
  method DetectMetricAnomaly(utilization: UtilizationData, baseline: PeerBaseline, metric: Metric)
    returns (found: Option<Anomaly>)
    ensures found == MetricAnomaly(utilization, baseline, metric)
  {
    found := None;
    var value := MetricValue(utilization, metric);
    if NumValue(value) != 0.0 {
      var mean := BaselineMean(baseline, MetricName(metric));
      var std := BaselineStd(baseline, MetricName(metric));
      if std > 0.0 {
        var z := (NumValue(value) - mean) / std;
        if Abs(z) > AnomalyThreshold {
          found := Some(Anomaly(MetricName(metric), value, mean, std, z, if z > 0.0 then "high" else "low"));
        }
      }
    }
  }

  lemma {:induction false} AnomaliesOverMembers(ms: seq<Metric>, u: UtilizationData, b: PeerBaseline, a: Anomaly)
    ensures a in AnomaliesOver(ms, u, b) <==> exists k :: 0 <= k < |ms| && MetricAnomaly(u, b, ms[k]) == Some(a)
    decreases |ms|
  {
    if |ms| > 0 {
      var init := ms[..|ms| - 1];
      AnomaliesOverMembers(init, u, b, a);
      if a in AnomaliesOver(ms, u, b) && a !in AnomaliesOver(init, u, b) {
        assert MetricAnomaly(u, b, ms[|ms| - 1]) == Some(a);
      }
      if exists k :: 0 <= k < |ms| && MetricAnomaly(u, b, ms[k]) == Some(a) {
        var k :| 0 <= k < |ms| && MetricAnomaly(u, b, ms[k]) == Some(a);
        if k < |ms| - 1 { assert init[k] == ms[k]; }
      }
      forall k | 0 <= k < |init| && MetricAnomaly(u, b, init[k]) == Some(a)
        ensures exists j :: 0 <= j < |ms| && MetricAnomaly(u, b, ms[j]) == Some(a)
      {
        assert ms[k] == init[k];
      }
    }
  }

  lemma MetricAnomalyShape(u: UtilizationData, b: PeerBaseline, m: Metric)
    requires MetricAnomaly(u, b, m).Some?
    ensures MetricAnomaly(u, b, m).value.metric == MetricName(m)
  {
  }

  lemma EveryMetricTracked(m: Metric)
    ensures m in TrackedMetrics
  {
    match m
    case MTotalServices => assert TrackedMetrics[0] == m;
    case MUniqueBeneficiaries => assert TrackedMetrics[1] == m;
    case MServicesPerBeneficiary => assert TrackedMetrics[2] == m;
    case MTotalCharges => assert TrackedMetrics[3] == m;
    case MChargeToPaymentRatio => assert TrackedMetrics[4] == m;
  }

  /** A metric qualifies for the table exactly when its value is non-zero and its z-score is beyond the threshold. */
  lemma MetricAnomalyIff(u: UtilizationData, b: PeerBaseline, m: Metric)
    ensures
      var v := NumValue(MetricValue(u, m));
      var mean := BaselineMean(b, MetricName(m));
      var std := BaselineStd(b, MetricName(m));
      MetricAnomaly(u, b, m).Some? <==> (v != 0.0 && std > 0.0 && Abs((v - mean) / std) > AnomalyThreshold)
  {
  }

  /** The table has an entry for a metric exactly when that metric qualifies. */
  lemma ReportedIffQualifies(u: UtilizationData, b: PeerBaseline, m: Metric)
    ensures (exists a :: a in AnomaliesOver(TrackedMetrics, u, b) && a.metric == MetricName(m))
            <==> MetricAnomaly(u, b, m).Some?
  {
    EveryMetricTracked(m);
    var k :| 0 <= k < |TrackedMetrics| && TrackedMetrics[k] == m;
    var found := MetricAnomaly(u, b, m);
    if found.Some? {
      AnomaliesOverMembers(TrackedMetrics, u, b, found.value);
      MetricAnomalyShape(u, b, m);
    }
    forall a | a in AnomaliesOver(TrackedMetrics, u, b) && a.metric == MetricName(m)
      ensures found.Some?
    {
      AnomaliesOverMembers(TrackedMetrics, u, b, a);
      var j :| 0 <= j < |TrackedMetrics| && MetricAnomaly(u, b, TrackedMetrics[j]) == Some(a);
      MetricAnomalyShape(u, b, TrackedMetrics[j]);
      MetricNameInjective(TrackedMetrics[j], m);
    }
  }

  /**
   * A metric is reported exactly when its value is non-zero, its baseline
   * spread is positive and its z-score exceeds the threshold in magnitude.
   */
  lemma AnomalyReportedIff(u: UtilizationData, b: PeerBaseline, m: Metric)
    ensures
      var v := NumValue(MetricValue(u, m));
      var mean := BaselineMean(b, MetricName(m));
      var std := BaselineStd(b, MetricName(m));
      (exists a :: a in AnomaliesOver(TrackedMetrics, u, b) && a.metric == MetricName(m))
      <==> (v != 0.0 && std > 0.0 && Abs((v - mean) / std) > AnomalyThreshold)
  {
    ReportedIffQualifies(u, b, m);
    MetricAnomalyIff(u, b, m);
  }

  lemma MetricNameInjective(m1: Metric, m2: Metric)
    requires MetricName(m1) == MetricName(m2)
    ensures m1 == m2
  {
  }

  /**
   * `a` is a faithful record of metric `m`: the metric's own value (non-zero),
   * the baseline statistics it was compared with (positive spread), a z-score
   * with |z| above the threshold that satisfies z * std = value - mean, and
   * direction `high` iff z > 0, `low` otherwise.
   */
  predicate FaithfulEntry(u: UtilizationData, b: PeerBaseline, m: Metric, a: Anomaly)
  {
    a.metric == MetricName(m) && a.value == MetricValue(u, m) && NumValue(a.value) != 0.0
    && a.mean == BaselineMean(b, a.metric) && a.std == BaselineStd(b, a.metric) && a.std > 0.0
    && a.zScore * a.std == NumValue(a.value) - a.mean && Abs(a.zScore) > AnomalyThreshold
    && (a.direction == "high" <==> a.zScore > 0.0) && (a.direction == "high" || a.direction == "low")
  }

  lemma MetricAnomalyFaithful(u: UtilizationData, b: PeerBaseline, m: Metric)
    requires MetricAnomaly(u, b, m).Some?
    ensures FaithfulEntry(u, b, m, MetricAnomaly(u, b, m).value)
  {
    var a := MetricAnomaly(u, b, m).value;
    assert "high" != "low" by { assert "high"[0] != "low"[0]; }
    assert a.zScore == (NumValue(a.value) - a.mean) / a.std;
  }

  /** Every entry of the anomaly table is a faithful record of some tracked metric. */
  lemma AnomalyEntryFaithful(u: UtilizationData, b: PeerBaseline, a: Anomaly)
    requires a in AnomaliesOver(TrackedMetrics, u, b)
    ensures exists m :: FaithfulEntry(u, b, m, a)
  {
    AnomaliesOverMembers(TrackedMetrics, u, b, a);
    var k :| 0 <= k < |TrackedMetrics| && MetricAnomaly(u, b, TrackedMetrics[k]) == Some(a);
    MetricAnomalyFaithful(u, b, TrackedMetrics[k]);
  }

  /** Without a baseline entry a metric is compared with mean 0 and spread 1: its z-score is its value. */
  lemma MissingBaselineUsesRawValue(u: UtilizationData, b: PeerBaseline, m: Metric)
    requires MetricName(m) !in b
    requires MetricAnomaly(u, b, m).Some?
    ensures MetricAnomaly(u, b, m).value.zScore == NumValue(MetricValue(u, m))
    ensures MetricAnomaly(u, b, m).value.mean == 0.0 && MetricAnomaly(u, b, m).value.std == 1.0
  {
  }

  /** Each metric is reported at most once. */
  lemma AnomalyMetricsDistinct(u: UtilizationData, b: PeerBaseline)
    ensures var r := AnomaliesOver(TrackedMetrics, u, b);
      forall i, j :: 0 <= i < j < |r| ==> r[i].metric != r[j].metric
  {
    DistinctOver(TrackedMetrics, u, b);
  }

  lemma {:induction false} DistinctOver(ms: seq<Metric>, u: UtilizationData, b: PeerBaseline)
    requires forall i, j :: 0 <= i < j < |ms| ==> ms[i] != ms[j]
    ensures var r := AnomaliesOver(ms, u, b);
      forall i, j :: 0 <= i < j < |r| ==> r[i].metric != r[j].metric
    decreases |ms|
  {
    if |ms| > 0 {
      var init := ms[..|ms| - 1];
      var last := ms[|ms| - 1];
      DistinctOver(init, u, b);
      var r0 := AnomaliesOver(init, u, b);
      var r := AnomaliesOver(ms, u, b);
      if MetricAnomaly(u, b, last).Some? {
        var a := MetricAnomaly(u, b, last).value;
        MetricAnomalyShape(u, b, last);
        forall i | 0 <= i < |r0|
          ensures r0[i].metric != a.metric
        {
          EarlierEntryNotLast(ms, u, b, r0[i]);
        }
        assert r == r0 + [a];
        forall i, j | 0 <= i < j < |r| ensures r[i].metric != r[j].metric {
          if j == |r| - 1 { assert r[i] == r0[i] && r[j] == a; } else { assert r[i] == r0[i] && r[j] == r0[j]; }
        }
      } else {
        assert r == r0 + [];
      }
    }
  }

  /** An entry produced by an earlier metric is not about the last one, when metrics are distinct. */
  lemma EarlierEntryNotLast(ms: seq<Metric>, u: UtilizationData, b: PeerBaseline, e: Anomaly)
    requires |ms| > 0 && forall i, j :: 0 <= i < j < |ms| ==> ms[i] != ms[j]
    requires e in AnomaliesOver(ms[..|ms| - 1], u, b)
    ensures e.metric != MetricName(ms[|ms| - 1])
  {
    var init := ms[..|ms| - 1];
    AnomaliesOverMembers(init, u, b, e);
    var k :| 0 <= k < |init| && MetricAnomaly(u, b, init[k]) == Some(e);
    MetricAnomalyShape(u, b, init[k]);
    assert init[k] == ms[k];
    if e.metric == MetricName(ms[|ms| - 1]) {
      MetricNameInjective(init[k], ms[|ms| - 1]);
    }
  }

  /** Services per beneficiary above 10 flags possible end-of-month clustering; volume spikes are never flagged. */
  function DetectTemporalPatterns(provider: ProviderProfile): (r: TemporalPatterns)
    ensures r.endOfMonthClustering <==> ServicesPerBeneficiary(provider.utilizationData) > 10.0
    ensures !r.volumeSpikes
    ensures |r.temporalAnomalies| == if r.endOfMonthClustering then 1 else 0
  {
    var spb := ServicesPerBeneficiary(provider.utilizationData);
    if spb > 10.0 then
      TemporalPatterns(true, false, ["High services per beneficiary (" + FormatFixed(spb, 1) + ") may indicate end-of-month billing clustering"])
    else TemporalPatterns(false, false, [])
  }

  /** The service area is the practice state or `Unknown`; a missing state is the one geographic anomaly. */
  function AnalyzeGeographicPatterns(provider: ProviderProfile): (r: GeographicPatterns)
    ensures r.serviceArea == OrDefault(provider.practiceLocation.state, "Unknown")
    ensures r.geographicAnomalies == (if Filled(provider.practiceLocation.state) then [] else ["Missing practice location information"])
  {
    var state := provider.practiceLocation.state;
    GeographicPatterns(OrDefault(state, "Unknown"), if Filled(state) then [] else ["Missing practice location information"])
  }

  // ----- Risk score -----

  const FelonyCode := "1128a3"
  const MandatoryCodes: seq<string> := ["1128a1", "1128a2"]
  const PermissiveCodes: seq<string> := ["1128b1", "1128b2", "1128b4"]

  /** `exclusion_type or ""` */
  function ExclusionCode(p: ProviderProfile): string
  {
    OrDefault(p.exclusionData.exclusionType, "")
  }

  /** The base score an exclusion sets before any other factor, by tier. */
  function TierFloor(code: string): (r: int)
    ensures 70 <= r <= 90
  {
    if code == FelonyCode then 90
    else if code in MandatoryCodes then 80
    else if code in PermissiveCodes then 70
    else 75
  }

  /** Points one anomaly table entry is worth: linear beyond the threshold, capped at 30. */
  function AnomalyContribution(a: Anomaly): Option<real>
  {
    var z := Abs(a.zScore);
    if z > AnomalyThreshold then Some(MinReal(30.0, (z - AnomalyThreshold) * 10.0)) else None
  }

  function AnomalyContributions(anomalies: seq<Anomaly>): seq<real>
    decreases |anomalies|
  {
    if |anomalies| == 0 then []
    else AnomalyContributions(anomalies[..|anomalies| - 1]) + OptionToSeq(AnomalyContribution(anomalies[|anomalies| - 1]))
  }

  /** Python's `max` over a non-empty list. */
  function MaxReal(s: seq<real>): (r: real)
    requires |s| > 0
    ensures r in s && forall x :: x in s ==> x <= r
  {
    if |s| == 1 then s[0]
    else
      var m := MaxReal(s[..|s| - 1]);
      assert forall x :: x in s ==> x in s[..|s| - 1] || x == s[|s| - 1];
      if s[|s| - 1] > m then s[|s| - 1] else m
  }

  function MaxInt(s: seq<int>): (r: int)
    requires |s| > 0
    ensures r in s && forall x :: x in s ==> x <= r
  {
    if |s| == 1 then s[0]
    else
      var m := MaxInt(s[..|s| - 1]);
      assert forall x :: x in s ==> x in s[..|s| - 1] || x == s[|s| - 1];
      if s[|s| - 1] > m then s[|s| - 1] else m
  }

  function AnomalyPoints(anomalies: seq<Anomaly>): real
  {
    var scores := AnomalyContributions(anomalies);
    if |scores| > 0 then MaxReal(scores) else 0.0
  }

  function CountSeverity(evidence: seq<FraudEvidence>, s: Severity): nat
    decreases |evidence|
  {
    if |evidence| == 0 then 0
    else CountSeverity(evidence[..|evidence| - 1], s) + (if evidence[|evidence| - 1].severity == s then 1 else 0)
  }

  function EvidencePoints(evidence: seq<FraudEvidence>): int
  {
    CountSeverity(evidence, High) * 10 + CountSeverity(evidence, Medium) * 5
  }

  /** Points one legal record is worth, if its case type is scored at all. */
  function LegalRecordScore(li: LegalInformation): Option<int>
  {
    if li.caseType == "conviction" then Some(20)
    else if li.caseType == "lawsuit" then
      if li.status == "pending" then Some(15) else if li.status == "settled" then Some(10) else Some(12)
    else if li.caseType == "allegation" then Some(10)
    else if li.caseType == "pending" then Some(15)
    else None
  }

  function LegalRecordScores(records: seq<LegalInformation>): seq<int>
    decreases |records|
  {
    if |records| == 0 then []
    else LegalRecordScores(records[..|records| - 1]) + OptionToSeq(LegalRecordScore(records[|records| - 1]))
  }

  function LegalPoints(records: seq<LegalInformation>): int
  {
    var scores := LegalRecordScores(records);
    if |scores| > 0 then MaxInt(scores) + (if |scores| > 1 then MinInt(10, (|scores| - 1) * 5) else 0) else 0
  }

  /** Data quality in tenths: cms 4 (or 2 when no services are recorded), oig 3, nppes 3. */
  function DataQuality(p: ProviderProfile): (q: int)
    ensures 0 <= q <= 10
  {
    (if SourceFlag(p.dataSources, "cms") then 4 else if p.utilizationData.totalServices == 0 then 2 else 0)
    + (if SourceFlag(p.dataSources, "oig") then 3 else 0)
    + (if SourceFlag(p.dataSources, "nppes") then 3 else 0)
  }

  /** The low-quality multiplier: below 0.70 the score is multiplied by 1.2 and truncated. */
  function QualityAdjusted(base: real, quality: int): real
  {
    if quality < 7 then Trunc(base * 1.2) as real else base
  }

  /** The floors re-asserted for excluded providers after the multiplier, as the elif chain orders them. */
  function FloorReasserted(base: real, p: ProviderProfile): real
  {
    if !p.exclusionData.excluded then base
    else
      var code := ExclusionCode(p);
      if code == FelonyCode && base < 90.0 then 90.0
      else if code in MandatoryCodes && base < 80.0 then 80.0
      else if code in PermissiveCodes && base < 70.0 then 70.0
      else if base < 75.0 then 75.0
      else base
  }

  /** The running score before the data-quality step. */
  function BaseScore(anomalies: seq<Anomaly>, evidence: seq<FraudEvidence>, p: ProviderProfile): real
  {
    (if p.exclusionData.excluded then TierFloor(ExclusionCode(p)) as real
     else AnomalyPoints(anomalies) + EvidencePoints(evidence) as real)
    + LegalPoints(p.legalInformation) as real
  }

  /** The composite score `calculate_risk_score` returns. */
  function RiskScore(anomalies: seq<Anomaly>, evidence: seq<FraudEvidence>, p: ProviderProfile): int
  {
    MinInt(100, Trunc(FloorReasserted(QualityAdjusted(BaseScore(anomalies, evidence, p), DataQuality(p)), p)))
  }

  /** The anomaly stage: the largest contribution among entries over the threshold, 0 when none. */
  method ScoreAnomalies(anomalies: seq<Anomaly>) returns (points: real)
    ensures points == AnomalyPoints(anomalies)
  {
    var anomalyScores: seq<real> := [];
    var i := 0;
    while i < |anomalies|
      invariant 0 <= i <= |anomalies|
      invariant anomalyScores == AnomalyContributions(anomalies[..i])
    {
      assert anomalies[..i + 1][..i] == anomalies[..i];
      var z := Abs(anomalies[i].zScore);
      if z > AnomalyThreshold {
        var score := MinReal(30.0, (z - AnomalyThreshold) * 10.0);
        anomalyScores := anomalyScores + [score];
      }
      i := i + 1;
    }
    assert anomalies[..|anomalies|] == anomalies;
    points := 0.0;
    if |anomalyScores| > 0 {
      points := points + MaxReal(anomalyScores);
    }
  }

  /** The legal stage: the highest record score plus 5 per further scored record, at most 10 extra. */
  method ScoreLegalInformation(legal: seq<LegalInformation>) returns (points: int)
    ensures points == LegalPoints(legal)
  {
    points := 0;
    if |legal| > 0 {
      var legalScores: seq<int> := [];
      var i := 0;
      while i < |legal|
        invariant 0 <= i <= |legal|
        invariant legalScores == LegalRecordScores(legal[..i])
      {
        assert legal[..i + 1][..i] == legal[..i];
        var info := legal[i];
        if info.caseType == "conviction" {
          legalScores := legalScores + [20];
        } else if info.caseType == "lawsuit" {
          if info.status == "pending" {
            legalScores := legalScores + [15];
          } else if info.status == "settled" {
            legalScores := legalScores + [10];
          } else {
            legalScores := legalScores + [12];
          }
        } else if info.caseType == "allegation" {
          legalScores := legalScores + [10];
        } else if info.caseType == "pending" {
          legalScores := legalScores + [15];
        }
        i := i + 1;
      }
      assert legal[..|legal|] == legal;
      if |legalScores| > 0 {
        points := points + MaxInt(legalScores);
        if |legalScores| > 1 {
          points := points + MinInt(10, (|legalScores| - 1) * 5);
        }
      }
    }
  }

  method CalculateRiskScore(anomalies: seq<Anomaly>, evidence: seq<FraudEvidence>, provider: ProviderProfile)
    returns (riskScore: int)
    ensures riskScore == RiskScore(anomalies, evidence, provider)
    ensures 0 <= riskScore <= 100
  {
    var baseScore: real := 0.0;
    if provider.exclusionData.excluded {
      var exclusionType := ExclusionCode(provider);
      if exclusionType == "1128a3" {
        baseScore := 90.0;
      } else if exclusionType in ["1128a1", "1128a2"] {
        baseScore := 80.0;
      } else if exclusionType in ["1128b1", "1128b2", "1128b4"] {
        baseScore := 70.0;
      } else {
        baseScore := 75.0;
      }
    } else {
      var anomalyPoints := ScoreAnomalies(anomalies);
      baseScore := baseScore + anomalyPoints;
      var highSeverityEvidence := CountSeverity(evidence, High);
      var mediumSeverityEvidence := CountSeverity(evidence, Medium);
      baseScore := baseScore + (highSeverityEvidence * 10) as real;
      baseScore := baseScore + (mediumSeverityEvidence * 5) as real;
    }
    var legalPoints := ScoreLegalInformation(provider.legalInformation);
    baseScore := baseScore + legalPoints as real;
    assert baseScore == BaseScore(anomalies, evidence, provider);
    var dataQuality := DataQuality(provider);
    if dataQuality < 7 {
      baseScore := Trunc(baseScore * 1.2) as real;
    }
    assert baseScore == QualityAdjusted(BaseScore(anomalies, evidence, provider), dataQuality);
    if provider.exclusionData.excluded {
      var exclusionType := ExclusionCode(provider);
      if exclusionType == "1128a3" && baseScore < 90.0 {
        baseScore := 90.0;
      } else if exclusionType in ["1128a1", "1128a2"] && baseScore < 80.0 {
        baseScore := 80.0;
      } else if exclusionType in ["1128b1", "1128b2", "1128b4"] && baseScore < 70.0 {
        baseScore := 70.0;
      } else if baseScore < 75.0 {
        baseScore := 75.0;
      }
    }
    assert baseScore == FloorReasserted(QualityAdjusted(BaseScore(anomalies, evidence, provider), dataQuality), provider);
    riskScore := MinInt(100, Trunc(baseScore));
    RiskScoreInRange(anomalies, evidence, provider);
  }

  lemma {:induction false} ContributionsBounded(anomalies: seq<Anomaly>)
    ensures forall x :: x in AnomalyContributions(anomalies) ==> 0.0 < x <= 30.0
    decreases |anomalies|
  {
    if |anomalies| > 0 {
      ContributionsBounded(anomalies[..|anomalies| - 1]);
    }
  }

  /** Anomaly points lie in [0, 30]. */
  lemma AnomalyPointsBounded(anomalies: seq<Anomaly>)
    ensures 0.0 <= AnomalyPoints(anomalies) <= 30.0
  {
    ContributionsBounded(anomalies);
  }

  lemma {:induction false} ContributionsCover(anomalies: seq<Anomaly>, k: nat)
    requires k < |anomalies| && AnomalyContribution(anomalies[k]).Some?
    ensures AnomalyContribution(anomalies[k]).value in AnomalyContributions(anomalies)
    decreases |anomalies|
  {
    if k < |anomalies| - 1 {
      assert anomalies[..|anomalies| - 1][k] == anomalies[k];
      ContributionsCover(anomalies[..|anomalies| - 1], k);
    }
  }

  lemma {:induction false} ContributionsFrom(anomalies: seq<Anomaly>, x: real)
    requires x in AnomalyContributions(anomalies)
    ensures exists k :: 0 <= k < |anomalies| && AnomalyContribution(anomalies[k]) == Some(x)
    decreases |anomalies|
  {
    var init := anomalies[..|anomalies| - 1];
    if x in AnomalyContributions(init) {
      ContributionsFrom(init, x);
      var k :| 0 <= k < |init| && AnomalyContribution(init[k]) == Some(x);
      assert anomalies[k] == init[k];
    } else {
      assert AnomalyContribution(anomalies[|anomalies| - 1]) == Some(x);
    }
  }

  /**
   * Anomaly points are the largest single contribution, not their sum: no
   * entry over the threshold is worth more, and when any entry qualifies the
   * points are exactly one entry's contribution.
   */
  lemma AnomalyPointsIsMaximum(anomalies: seq<Anomaly>)
    ensures forall k :: 0 <= k < |anomalies| && Abs(anomalies[k].zScore) > AnomalyThreshold ==>
      MinReal(30.0, (Abs(anomalies[k].zScore) - AnomalyThreshold) * 10.0) <= AnomalyPoints(anomalies)
    ensures (exists k :: 0 <= k < |anomalies| && Abs(anomalies[k].zScore) > AnomalyThreshold) ==>
      exists k :: 0 <= k < |anomalies| && Abs(anomalies[k].zScore) > AnomalyThreshold
        && AnomalyPoints(anomalies) == MinReal(30.0, (Abs(anomalies[k].zScore) - AnomalyThreshold) * 10.0)
    ensures (forall k :: 0 <= k < |anomalies| ==> Abs(anomalies[k].zScore) <= AnomalyThreshold) ==> AnomalyPoints(anomalies) == 0.0
  {
    forall k | 0 <= k < |anomalies| && Abs(anomalies[k].zScore) > AnomalyThreshold
      ensures MinReal(30.0, (Abs(anomalies[k].zScore) - AnomalyThreshold) * 10.0) <= AnomalyPoints(anomalies)
    {
      ContributionsCover(anomalies, k);
    }
    var scores := AnomalyContributions(anomalies);
    if |scores| > 0 {
      ContributionsFrom(anomalies, MaxReal(scores));
    } else {
      forall k | 0 <= k < |anomalies| && Abs(anomalies[k].zScore) > AnomalyThreshold
        ensures false
      {
        ContributionsCover(anomalies, k);
      }
    }
  }

  lemma {:induction false} LegalScoresBounded(records: seq<LegalInformation>)
    ensures forall x :: x in LegalRecordScores(records) ==> 10 <= x <= 20
    decreases |records|
  {
    if |records| > 0 {
      LegalScoresBounded(records[..|records| - 1]);
    }
  }

  lemma {:induction false} LegalScoresCount(records: seq<LegalInformation>)
    ensures |LegalRecordScores(records)| == 0 <==> forall k :: 0 <= k < |records| ==> LegalRecordScore(records[k]).None?
    decreases |records|
  {
    if |records| > 0 {
      var init := records[..|records| - 1];
      LegalScoresCount(init);
      assert forall k :: 0 <= k < |init| ==> init[k] == records[k];
    }
  }

  /** Legal points lie in [0, 30], and are zero exactly when no record has a scored case type. */
  lemma LegalPointsBounded(records: seq<LegalInformation>)
    ensures 0 <= LegalPoints(records) <= 30
    ensures LegalPoints(records) == 0 <==> forall k :: 0 <= k < |records| ==> LegalRecordScore(records[k]).None?
  {
    LegalScoresBounded(records);
    LegalScoresCount(records);
  }

  /** The base score is never negative. */
  lemma BaseScoreNonNegative(anomalies: seq<Anomaly>, evidence: seq<FraudEvidence>, p: ProviderProfile)
    ensures BaseScore(anomalies, evidence, p) >= 0.0
  {
    AnomalyPointsBounded(anomalies);
    LegalPointsBounded(p.legalInformation);
    assert EvidencePoints(evidence) >= 0;
    assert TierFloor(ExclusionCode(p)) >= 0;
  }

  /** The risk score is an integer in [0, 100] for every input. */
  lemma RiskScoreInRange(anomalies: seq<Anomaly>, evidence: seq<FraudEvidence>, p: ProviderProfile)
    ensures 0 <= RiskScore(anomalies, evidence, p) <= 100
  {
    BaseScoreNonNegative(anomalies, evidence, p);
  }

  /** An excluded provider scores at least its tier floor: 90, 80, 70, or 75 for any other type. */
  lemma ExcludedScoreAtLeastTierFloor(anomalies: seq<Anomaly>, evidence: seq<FraudEvidence>, p: ProviderProfile)
    requires p.exclusionData.excluded
    ensures RiskScore(anomalies, evidence, p) >= TierFloor(ExclusionCode(p))
    ensures ExclusionCode(p) == FelonyCode ==> RiskScore(anomalies, evidence, p) >= 90
  {
    BaseScoreNonNegative(anomalies, evidence, p);
  }

  /**
   * As written, the last `elif base < 75` of the re-assertion also catches a
   * permissive exclusion whose score is between 70 and 75, so such providers
   * never score below 75.
   */
  lemma PermissiveExclusionAtLeast75(anomalies: seq<Anomaly>, evidence: seq<FraudEvidence>, p: ProviderProfile)
    requires p.exclusionData.excluded && ExclusionCode(p) in PermissiveCodes
    ensures RiskScore(anomalies, evidence, p) >= 75
    ensures LegalPoints(p.legalInformation) == 0 && DataQuality(p) >= 7 ==> RiskScore(anomalies, evidence, p) == 75
  {
    LegalPointsBounded(p.legalInformation);
    var base := BaseScore(anomalies, evidence, p);
    assert base >= 70.0;
    var adjusted := QualityAdjusted(base, DataQuality(p));
    assert adjusted >= 70.0 by {
      if DataQuality(p) < 7 {
        assert base * 1.2 >= 84.0;
        TruncMonotone(84.0, base * 1.2);
      }
    }
    var code := ExclusionCode(p);
    assert code != FelonyCode && code !in MandatoryCodes;
    assert FloorReasserted(adjusted, p) >= 75.0;
    TruncMonotone(75.0, FloorReasserted(adjusted, p));
  }

  /** For an excluded provider the anomalies and the evidence list do not influence the score. */
  lemma ExcludedIgnoresAnomaliesAndEvidence(a1: seq<Anomaly>, e1: seq<FraudEvidence>,
                                            a2: seq<Anomaly>, e2: seq<FraudEvidence>, p: ProviderProfile)
    requires p.exclusionData.excluded
    ensures RiskScore(a1, e1, p) == RiskScore(a2, e2, p)
  {
  }

  lemma {:induction false} CountSeverityBounded(evidence: seq<FraudEvidence>, s: Severity)
    ensures CountSeverity(evidence, s) <= |evidence|
    decreases |evidence|
  {
    if |evidence| > 0 {
      CountSeverityBounded(evidence[..|evidence| - 1], s);
    }
  }

  /** Evidence points: 10 per high item and 5 per medium item, so low items add nothing and appending an item never lowers them. */
  lemma EvidencePointsOfAppend(evidence: seq<FraudEvidence>, e: FraudEvidence)
    ensures EvidencePoints(evidence + [e]) == EvidencePoints(evidence) + (match e.severity case High => 10 case Medium => 5 case Low => 0)
  {
    assert (evidence + [e])[..|evidence|] == evidence;
  }

  lemma TruncMonotone(x: real, y: real)
    requires 0.0 <= x <= y
    ensures Trunc(x) <= Trunc(y)
  {
  }

  /** More evidence never lowers the score. */
  lemma MoreEvidenceNeverLowersScore(anomalies: seq<Anomaly>, evidence: seq<FraudEvidence>, e: FraudEvidence, p: ProviderProfile)
    ensures RiskScore(anomalies, evidence, p) <= RiskScore(anomalies, evidence + [e], p)
  {
    EvidencePointsOfAppend(evidence, e);
    BaseScoreNonNegative(anomalies, evidence, p);
    var b1 := BaseScore(anomalies, evidence, p);
    var b2 := BaseScore(anomalies, evidence + [e], p);
    assert b1 <= b2;
    if DataQuality(p) < 7 {
      TruncMonotone(b1 * 1.2, b2 * 1.2);
    }
  }

  /**
   * The multiplier applies exactly when data quality is below 0.70: with cms
   * available only when both oig and nppes are missing; without cms and with
   * no recorded services unless both oig and nppes are present; always
   * otherwise.
   */
  lemma LowQualityCases(p: ProviderProfile)
    ensures DataQuality(p) < 7 <==>
      var cms := SourceFlag(p.dataSources, "cms");
      var oig := SourceFlag(p.dataSources, "oig");
      var nppes := SourceFlag(p.dataSources, "nppes");
      (cms && !oig && !nppes)
      || (!cms && p.utilizationData.totalServices == 0 && !(oig && nppes))
      || (!cms && p.utilizationData.totalServices != 0)
  {
  }

  /** Low data quality raises a score of 50 to 60. */
  lemma QualityMultiplierExample()
    ensures QualityAdjusted(50.0, 5) == 60.0
    ensures QualityAdjusted(50.0, 7) == 50.0
  {
    assert 50.0 * 1.2 == 60.0;
  }

  /** A felony (1128a3) exclusion with no legal records scores 90, raised to 100 by the low-quality multiplier. */
  lemma FelonyExclusionScore(anomalies: seq<Anomaly>, evidence: seq<FraudEvidence>, p: ProviderProfile)
    requires p.exclusionData.excluded && ExclusionCode(p) == FelonyCode && p.legalInformation == []
    ensures RiskScore(anomalies, evidence, p) == if DataQuality(p) >= 7 then 90 else 100
  {
    assert LegalRecordScores(p.legalInformation) == [];
    assert BaseScore(anomalies, evidence, p) == 90.0;
    if DataQuality(p) < 7 {
      assert 90.0 * 1.2 == 108.0;
    }
  }

  /** Without exclusion, anomalies, scored evidence or scored legal records the score is 0 at any data quality. */
  lemma NoSignalsScoreZero(anomalies: seq<Anomaly>, evidence: seq<FraudEvidence>, p: ProviderProfile)
    requires !p.exclusionData.excluded
    requires forall k :: 0 <= k < |anomalies| ==> Abs(anomalies[k].zScore) <= AnomalyThreshold
    requires forall k :: 0 <= k < |evidence| ==> evidence[k].severity == Low
    requires forall k :: 0 <= k < |p.legalInformation| ==> LegalRecordScore(p.legalInformation[k]).None?
    ensures RiskScore(anomalies, evidence, p) == 0
  {
    AnomalyPointsIsMaximum(anomalies);
    LegalPointsBounded(p.legalInformation);
    LowSeverityCountsZero(evidence, High);
    LowSeverityCountsZero(evidence, Medium);
  }

  lemma {:induction false} LowSeverityCountsZero(evidence: seq<FraudEvidence>, s: Severity)
    requires s != Low
    requires forall k :: 0 <= k < |evidence| ==> evidence[k].severity == Low
    ensures CountSeverity(evidence, s) == 0
    decreases |evidence|
  {
    if |evidence| > 0 {
      var init := evidence[..|evidence| - 1];
      assert forall k :: 0 <= k < |init| ==> init[k] == evidence[k];
      LowSeverityCountsZero(init, s);
    }
  }

  /** Three or four pending lawsuits are worth 25 legal points: 15 for the first, and the extra points stop at 10. */
  lemma PendingLawsuitsExample(li: LegalInformation)
    requires li.caseType == "lawsuit" && li.status == "pending"
    ensures LegalPoints([li, li, li]) == 25
    ensures LegalPoints([li, li, li, li]) == 25
  {
    assert LegalRecordScore(li) == Some(15);
    assert [li][..0] == [];
    assert LegalRecordScores([li]) == [15];
    assert [li, li][..1] == [li];
    assert LegalRecordScores([li, li]) == [15, 15];
    assert [li, li, li][..2] == [li, li];
    assert LegalRecordScores([li, li, li]) == [15, 15, 15];
    assert [li, li, li, li][..3] == [li, li, li];
    assert LegalRecordScores([li, li, li, li]) == [15, 15, 15, 15];
  }

  /** Priority from the score: below 30 low, below 70 medium, otherwise high. */
  function DeterminePriority(riskScore: int): (r: string)
    ensures r == PriorityName(PriorityForScore(riskScore))
    ensures r == "low" <==> riskScore < 30
    ensures r == "high" <==> riskScore >= 70
  {
    if riskScore < 30 then "low" else if riskScore < 70 then "medium" else "high"
  }

  // ----- Evidence -----

  const ExclusionCitation := "42 CFR \U{A7}1001.101"
  const BillingCitation := "42 CFR \U{A7}424.516"

  function ExclusionEvidence(p: ProviderProfile): FraudEvidence
  {
    var code := ExclusionCode(p);
    var desc := Show(p.exclusionData.exclusionDescription);
    var (severity, text) :=
      if code == FelonyCode then (High, "CRITICAL: Provider excluded due to felony conviction - " + desc)
      else if code in MandatoryCodes then (High, "MANDATORY EXCLUSION: " + desc)
      else if code in PermissiveCodes then (Medium, "Permissive exclusion: " + desc)
      else (High, "Provider excluded from Medicare/Medicaid: " + desc);
    FraudEvidence("oig_exclusion", text, 1.0, "OIG", Some(ExclusionCitation), severity)
  }

  function AnomalyEvidence(a: Anomaly): FraudEvidence
  {
    var z := Abs(a.zScore);
    FraudEvidence(
      "billing_anomaly_" + a.metric,
      Title(ReplaceChar(a.metric, '_', ' ')) + " is " + a.direction
        + " (Z-score: " + FormatFixed(a.zScore, 2) + ", Value: " + NumberString(a.value) + ")",
      MinReal(1.0, z / 5.0), "CMS", Some(BillingCitation), if z > 3.0 then High else Medium)
  }

  const TemporalEvidence := FraudEvidence("temporal_clustering", "Potential end-of-month billing clustering detected",
                                          0.7, "CMS", Some(BillingCitation), Medium)

  function GeographicEvidence(anomaly: string): FraudEvidence
  {
    FraudEvidence("geographic_anomaly", anomaly, 0.5, "NPPES", None, Low)
  }

  function LegalEvidence(li: LegalInformation): FraudEvidence
  {
    FraudEvidence(
      "legal_" + li.caseType,
      Title(li.caseType) + " (" + li.status + "): " + li.description,
      li.relevanceScore, "Web Search", Some(if li.verified then "Public court records" else "Public records"),
      if li.caseType == "conviction" then High else Medium)
  }

  function AnomalyEvidenceList(anomalies: seq<Anomaly>): (r: seq<FraudEvidence>)
    ensures |r| == |anomalies|
    decreases |anomalies|
  {
    if |anomalies| == 0 then []
    else AnomalyEvidenceList(anomalies[..|anomalies| - 1]) + [AnomalyEvidence(anomalies[|anomalies| - 1])]
  }

  function GeographicEvidenceList(anomalies: seq<string>): (r: seq<FraudEvidence>)
    ensures |r| == |anomalies|
    decreases |anomalies|
  {
    if |anomalies| == 0 then []
    else GeographicEvidenceList(anomalies[..|anomalies| - 1]) + [GeographicEvidence(anomalies[|anomalies| - 1])]
  }

  function LegalEvidenceList(records: seq<LegalInformation>): (r: seq<FraudEvidence>)
    ensures |r| == |records|
    decreases |records|
  {
    if |records| == 0 then []
    else LegalEvidenceList(records[..|records| - 1]) + [LegalEvidence(records[|records| - 1])]
  }

  /** The evidence list, in construction order: exclusion, anomalies, temporal, geographic, legal. */
  function Evidence(p: ProviderProfile, anomalies: seq<Anomaly>, t: TemporalPatterns, g: GeographicPatterns): seq<FraudEvidence>
  {
    (if p.exclusionData.excluded then [ExclusionEvidence(p)] else [])
    + AnomalyEvidenceList(anomalies)
    + (if t.endOfMonthClustering then [TemporalEvidence] else [])
    + GeographicEvidenceList(g.geographicAnomalies)
    + LegalEvidenceList(p.legalInformation)
  }

  /** Every legal record carries the relevance bound its model enforces. */
  predicate LegalRecordsValid(p: ProviderProfile)
  {
    forall li :: li in p.legalInformation ==> ValidLegal(li)
  }

  /** The anomaly loop of the evidence compiler: one item per table entry, in order. */
  method CollectAnomalyEvidence(anomalies: seq<Anomaly>) returns (items: seq<FraudEvidence>)
    ensures items == AnomalyEvidenceList(anomalies)
  {
    items := [];
    var i := 0;
    while i < |anomalies|
      invariant 0 <= i <= |anomalies|
      invariant items == AnomalyEvidenceList(anomalies[..i])
    {
      assert anomalies[..i + 1][..i] == anomalies[..i];
      items := items + [AnomalyEvidence(anomalies[i])];
      i := i + 1;
    }
    assert anomalies[..|anomalies|] == anomalies;
  }

  /** The geographic loop of the evidence compiler: one low-severity item per anomaly text. */
  method CollectGeographicEvidence(anomalies: seq<string>) returns (items: seq<FraudEvidence>)
    ensures items == GeographicEvidenceList(anomalies)
  {
    items := [];
    if |anomalies| > 0 {
      var i := 0;
      while i < |anomalies|
        invariant 0 <= i <= |anomalies|
        invariant items == GeographicEvidenceList(anomalies[..i])
      {
        assert anomalies[..i + 1][..i] == anomalies[..i];
        items := items + [GeographicEvidence(anomalies[i])];
        i := i + 1;
      }
      assert anomalies[..|anomalies|] == anomalies;
    }
  }

  /** The legal loop of the evidence compiler: one item per legal record, in order. */
  method CollectLegalEvidence(records: seq<LegalInformation>) returns (items: seq<FraudEvidence>)
    ensures items == LegalEvidenceList(records)
  {
    items := [];
    var i := 0;
    while i < |records|
      invariant 0 <= i <= |records|
      invariant items == LegalEvidenceList(records[..i])
    {
      assert records[..i + 1][..i] == records[..i];
      items := items + [LegalEvidence(records[i])];
      i := i + 1;
    }
    assert records[..|records|] == records;
  }

  method CompileEvidence(provider: ProviderProfile, anomalies: seq<Anomaly>, temporal: TemporalPatterns,
                         geographic: GeographicPatterns) returns (evidence: seq<FraudEvidence>)
    ensures evidence == Evidence(provider, anomalies, temporal, geographic)
  {
    evidence := [];
    if provider.exclusionData.excluded {
      evidence := evidence + [ExclusionEvidence(provider)];
      AppendToEmpty(ExclusionEvidence(provider));
    }
    assert evidence == if provider.exclusionData.excluded then [ExclusionEvidence(provider)] else [];
    var anomalyItems := CollectAnomalyEvidence(anomalies);
    evidence := evidence + anomalyItems;
    if temporal.endOfMonthClustering {
      evidence := evidence + [TemporalEvidence];
    } else {
      AppendNothing(evidence);
    }
    var geographicItems := CollectGeographicEvidence(geographic.geographicAnomalies);
    evidence := evidence + geographicItems;
    var legalItems := CollectLegalEvidence(provider.legalInformation);
    evidence := evidence + legalItems;
  }

  lemma {:induction false} AnomalyEvidenceAt(anomalies: seq<Anomaly>, k: nat)
    requires k < |anomalies|
    ensures AnomalyEvidenceList(anomalies)[k] == AnomalyEvidence(anomalies[k])
    decreases |anomalies|
  {
    if k < |anomalies| - 1 {
      AnomalyEvidenceAt(anomalies[..|anomalies| - 1], k);
    }
  }

  lemma {:induction false} GeographicEvidenceAt(anomalies: seq<string>, k: nat)
    requires k < |anomalies|
    ensures GeographicEvidenceList(anomalies)[k] == GeographicEvidence(anomalies[k])
    decreases |anomalies|
  {
    if k < |anomalies| - 1 {
      GeographicEvidenceAt(anomalies[..|anomalies| - 1], k);
    }
  }

  lemma {:induction false} LegalEvidenceAt(records: seq<LegalInformation>, k: nat)
    requires k < |records|
    ensures LegalEvidenceList(records)[k] == LegalEvidence(records[k])
    decreases |records|
  {
    if k < |records| - 1 {
      LegalEvidenceAt(records[..|records| - 1], k);
    }
  }

  /** The evidence list as its five groups, in construction order. */
  lemma EvidenceGroups(p: ProviderProfile, anomalies: seq<Anomaly>, t: TemporalPatterns, g: GeographicPatterns)
    returns (ex: seq<FraudEvidence>, an: seq<FraudEvidence>, te: seq<FraudEvidence>, ge: seq<FraudEvidence>, le: seq<FraudEvidence>)
    ensures Evidence(p, anomalies, t, g) == ex + an + te + ge + le
    ensures ex == (if p.exclusionData.excluded then [ExclusionEvidence(p)] else [])
    ensures te == (if t.endOfMonthClustering then [TemporalEvidence] else [])
    ensures |an| == |anomalies| && forall k :: 0 <= k < |an| ==> an[k] == AnomalyEvidence(anomalies[k])
    ensures |ge| == |g.geographicAnomalies| && forall k :: 0 <= k < |ge| ==> ge[k] == GeographicEvidence(g.geographicAnomalies[k])
    ensures |le| == |p.legalInformation| && forall k :: 0 <= k < |le| ==> le[k] == LegalEvidence(p.legalInformation[k])
  {
    ex := if p.exclusionData.excluded then [ExclusionEvidence(p)] else [];
    an := AnomalyEvidenceList(anomalies);
    te := if t.endOfMonthClustering then [TemporalEvidence] else [];
    ge := GeographicEvidenceList(g.geographicAnomalies);
    le := LegalEvidenceList(p.legalInformation);
    forall k | 0 <= k < |an| ensures an[k] == AnomalyEvidence(anomalies[k]) { AnomalyEvidenceAt(anomalies, k); }
    forall k | 0 <= k < |ge| ensures ge[k] == GeographicEvidence(g.geographicAnomalies[k]) { GeographicEvidenceAt(g.geographicAnomalies, k); }
    forall k | 0 <= k < |le| ensures le[k] == LegalEvidence(p.legalInformation[k]) { LegalEvidenceAt(p.legalInformation, k); }
  }

  /**
   * The evidence list's layout: the exclusion item (when excluded) first,
   * then one item per anomaly in table order, the temporal item when
   * clustering is flagged, one item per geographic anomaly and one per legal
   * record, in that order. This lemma gives the length and the two single items.
   */
  lemma EvidenceOrder(p: ProviderProfile, anomalies: seq<Anomaly>, t: TemporalPatterns, g: GeographicPatterns)
    ensures
      var e := Evidence(p, anomalies, t, g);
      var x := if p.exclusionData.excluded then 1 else 0;
      var c := if t.endOfMonthClustering then 1 else 0;
      && |e| == x + |anomalies| + c + |g.geographicAnomalies| + |p.legalInformation|
      && (p.exclusionData.excluded ==> e[0] == ExclusionEvidence(p))
      && (t.endOfMonthClustering ==> e[x + |anomalies|] == TemporalEvidence)
  {
    var ex, an, te, ge, le := EvidenceGroups(p, anomalies, t, g);
    var e := ex + an + te + ge + le;
    if p.exclusionData.excluded {
      assert e[0] == ex[0];
    }
    if t.endOfMonthClustering {
      assert e[|ex| + |an|] == (ex + an + te)[|ex| + |an|] == te[0];
    }
  }

  /**
   * Severities: exclusions are medium for the permissive codes and high
   * otherwise; anomalies are high iff |z| > 3; the temporal item is medium;
   * geographic items are low; legal items are high iff the case is a conviction.
   */
  lemma EvidenceSeverities(p: ProviderProfile, a: Anomaly, li: LegalInformation, text: string)
    ensures ExclusionEvidence(p).severity == (if ExclusionCode(p) in PermissiveCodes then Medium else High)
    ensures AnomalyEvidence(a).severity == High <==> Abs(a.zScore) > 3.0
    ensures AnomalyEvidence(a).severity != Low
    ensures TemporalEvidence.severity == Medium && GeographicEvidence(text).severity == Low
    ensures LegalEvidence(li).severity == High <==> li.caseType == "conviction"
    ensures LegalEvidence(li).severity != Low
  {
  }

  /** Every compiled item satisfies the significance bound of its model, so construction never fails. */
  lemma EvidenceValid(p: ProviderProfile, anomalies: seq<Anomaly>, t: TemporalPatterns, g: GeographicPatterns)
    requires LegalRecordsValid(p)
    ensures forall e :: e in Evidence(p, anomalies, t, g) ==> ValidEvidence(e)
  {
    AnomalyItemsValid(anomalies);
    GeographicItemsValid(g.geographicAnomalies);
    LegalItemsValid(p.legalInformation);
  }

  lemma {:induction false} AnomalyItemsValid(anomalies: seq<Anomaly>)
    ensures forall e :: e in AnomalyEvidenceList(anomalies) ==> ValidEvidence(e)
    decreases |anomalies|
  {
    if |anomalies| > 0 {
      AnomalyItemsValid(anomalies[..|anomalies| - 1]);
    }
  }

  lemma {:induction false} GeographicItemsValid(anomalies: seq<string>)
    ensures forall e :: e in GeographicEvidenceList(anomalies) ==> ValidEvidence(e)
    decreases |anomalies|
  {
    if |anomalies| > 0 {
      GeographicItemsValid(anomalies[..|anomalies| - 1]);
    }
  }

  lemma {:induction false} LegalItemsValid(records: seq<LegalInformation>)
    requires forall li :: li in records ==> ValidLegal(li)
    ensures forall e :: e in LegalEvidenceList(records) ==> ValidEvidence(e)
    decreases |records|
  {
    if |records| > 0 {
      var init := records[..|records| - 1];
      assert forall li :: li in init ==> li in records;
      LegalItemsValid(init);
      assert records[|records| - 1] in records;
    }
  }

  /** A full analysis: anomalies against the default baseline, evidence, score and priority. */
  method AnalyzeFraudPatterns(provider: ProviderProfile) returns (analysis: RiskAnalysis)
    requires LegalRecordsValid(provider)
    ensures var anomalies := StatisticalAnomalies(provider.utilizationData, None);
      var evidence := Evidence(provider, anomalies, DetectTemporalPatterns(provider), AnalyzeGeographicPatterns(provider));
      analysis.anomalies == anomalies && analysis.evidence == evidence
      && analysis.riskScore == RiskScore(anomalies, evidence, provider)
    ensures 0 <= analysis.riskScore <= 100
    ensures analysis.priority == PriorityForScore(analysis.riskScore)
    ensures analysis.providerNpi == provider.npi
    ensures forall e :: e in analysis.evidence ==> ValidEvidence(e)
  {
    var anomalies := CalculateStatisticalAnomalies(provider, None);
    var temporalPatterns := DetectTemporalPatterns(provider);
    var geographicPatterns := AnalyzeGeographicPatterns(provider);
    var evidence := CompileEvidence(provider, anomalies, temporalPatterns, geographicPatterns);
    EvidenceValid(provider, anomalies, temporalPatterns, geographicPatterns);
    var riskScore := CalculateRiskScore(anomalies, evidence, provider);
    var priorityLevel := DeterminePriority(riskScore);
    var created := NewRiskAnalysis(provider.npi, riskScore, priorityLevel, anomalies, evidence, temporalPatterns, geographicPatterns);
    analysis := created.value;
  }
}
