/**
 * The research agent: the NPI format guard that precedes any collection, and
 * the preliminary risk factors it attaches to the fused provider profile.
 */
module ResearchAgent {
  import opened Py
  import opened Text
  import opened Models
  import DataService
  import CmsService
  import OigService
  import NppesService

  /** `not npi or not npi.isdigit() or len(npi) != 10` */
  predicate NpiRejected(npi: string)
  {
    |npi| == 0 || !IsDigits(npi) || |npi| != 10
  }

  /** The guard rejects exactly what the profile's `npi` validator rejects. */
  lemma GuardMatchesValidator(npi: string)
    ensures NpiRejected(npi) <==> ValidateNpi(npi).Raised?
  {
  }

  function InvalidNpiError(npi: string): string
  {
    "Invalid NPI format: " + npi + ". Must be exactly 10 digits."
  }

  // ----- Risk factors -----

  function ExclusionFactor(profile: ProviderProfile): string
  {
    "OIG Exclusion: " + Show(profile.exclusionData.exclusionDescription)
  }

  /** Both counts are positive and there are more than 50 services per beneficiary. */
  predicate HighServiceDensity(u: UtilizationData)
  {
    u.totalServices > 0 && u.uniqueBeneficiaries > 0 && ServicesPerBeneficiary(u) > 50.0
  }

  function ServiceDensityFactor(u: UtilizationData): string
  {
    "High services per beneficiary: " + FormatFixed(ServicesPerBeneficiary(u), 1)
  }

  function ChargeRatioFactor(u: UtilizationData): string
  {
    "High charge-to-payment ratio: " + FormatFixed(ChargeToPaymentRatio(u), 2)
  }

  /** The keys whose flag is false, in the order of the flags. */
  function MissingSources(flags: SourceFlags): (r: seq<string>)
    ensures |r| <= |flags|
    ensures r == [] <==> forall i :: 0 <= i < |flags| ==> flags[i].1
    ensures forall k :: k in r <==> exists i :: 0 <= i < |flags| && flags[i] == (k, false)
    decreases |flags|
  {
    if |flags| == 0 then []
    else
      var rest := MissingSources(flags[1..]);
      assert forall i :: 0 < i < |flags| ==> flags[i] == flags[1..][i - 1];
      assert forall k :: (exists i :: 0 <= i < |flags[1..]| && flags[1..][i] == (k, false))
                         ==> (exists i :: 0 <= i < |flags| && flags[i] == (k, false)) by {
        forall k | exists i :: 0 <= i < |flags[1..]| && flags[1..][i] == (k, false)
          ensures exists i :: 0 <= i < |flags| && flags[i] == (k, false)
        {
          var i :| 0 <= i < |flags[1..]| && flags[1..][i] == (k, false);
          assert flags[i + 1] == (k, false);
        }
      }
      (if !flags[0].1 then [flags[0].0] else []) + rest
  }

  function IncompleteDataFactor(flags: SourceFlags): string
  {
    "Incomplete data: missing " + Join(", ", MissingSources(flags))
  }

  ghost predicate SomeSourceMissing(flags: SourceFlags)
  {
    exists i :: 0 <= i < |flags| && !flags[i].1
  }

  function ExclusionFactors(profile: ProviderProfile): seq<string>
  {
    if profile.exclusionData.excluded then [ExclusionFactor(profile)] else []
  }

  function DensityFactors(u: UtilizationData): seq<string>
  {
    if HighServiceDensity(u) then [ServiceDensityFactor(u)] else []
  }

  function ChargeRatioFactors(u: UtilizationData): seq<string>
  {
    if ChargeToPaymentRatio(u) > 2.0 then [ChargeRatioFactor(u)] else []
  }

  function IncompleteDataFactors(flags: SourceFlags): seq<string>
  {
    if MissingSources(flags) != [] then [IncompleteDataFactor(flags)] else []
  }

  /** The list `_identify_risk_factors` returns. */
  function RiskFactors(profile: ProviderProfile): seq<string>
  {
    var u := profile.utilizationData;
    ExclusionFactors(profile) + DensityFactors(u) + ChargeRatioFactors(u) + IncompleteDataFactors(profile.dataSources)
  }

  /** `_identify_risk_factors`, appending one factor per check that fires. */
  method IdentifyRiskFactors(profile: ProviderProfile) returns (riskFactors: seq<string>)
    ensures riskFactors == RiskFactors(profile)
  {
    riskFactors := [];
    if profile.exclusionData.excluded {
      riskFactors := riskFactors + [ExclusionFactor(profile)];
    }
    assert riskFactors == ExclusionFactors(profile);
    var utilization := profile.utilizationData;
    if utilization.totalServices > 0 && utilization.uniqueBeneficiaries > 0 {
      var servicesPerBeneficiary := ServicesPerBeneficiary(utilization);
      if servicesPerBeneficiary > 50.0 {
        riskFactors := riskFactors + [ServiceDensityFactor(utilization)];
      }
    }
    assert riskFactors == ExclusionFactors(profile) + DensityFactors(utilization);
    if ChargeToPaymentRatio(utilization) > 2.0 {
      riskFactors := riskFactors + [ChargeRatioFactor(utilization)];
    }
    assert riskFactors == ExclusionFactors(profile) + DensityFactors(utilization) + ChargeRatioFactors(utilization);
    var allPresent := forall i :: 0 <= i < |profile.dataSources| ==> profile.dataSources[i].1;
    if !allPresent {
      riskFactors := riskFactors + [IncompleteDataFactor(profile.dataSources)];
    }
  }

  /**
   * At most four factors, in the fixed order exclusion, service density,
   * charge ratio, incomplete data; each is present exactly when its check
   * fires, and the exclusion factor, when present, comes first.
   */
  lemma RiskFactorsShape(profile: ProviderProfile)
    ensures var r := RiskFactors(profile);
            var u := profile.utilizationData;
            var excluded := profile.exclusionData.excluded;
            && |r| <= 4
            && |r| == Bit(excluded) + Bit(HighServiceDensity(u)) + Bit(ChargeToPaymentRatio(u) > 2.0)
                      + Bit(SomeSourceMissing(profile.dataSources))
            && (excluded ==> r[0] == ExclusionFactor(profile))
            && (HighServiceDensity(u) ==> r[Bit(excluded)] == ServiceDensityFactor(u))
            && (ChargeToPaymentRatio(u) > 2.0
                ==> r[Bit(excluded) + Bit(HighServiceDensity(u))] == ChargeRatioFactor(u))
            && (SomeSourceMissing(profile.dataSources) ==> r[|r| - 1] == IncompleteDataFactor(profile.dataSources))
  {
  }

  function Bit(b: bool): nat { if b then 1 else 0 }

  /** Without beneficiaries or without payments the corresponding factor cannot fire. */
  lemma ZeroDenominatorsNeverTrigger(profile: ProviderProfile)
    ensures profile.utilizationData.uniqueBeneficiaries == 0 ==> !HighServiceDensity(profile.utilizationData)
    ensures profile.utilizationData.totalPayments == 0.0 ==> !(ChargeToPaymentRatio(profile.utilizationData) > 2.0)
  {
  }

  /** A fused profile that lacks some source lists exactly the unavailable ones, in the order cms, oig, nppes. */
  lemma FusedMissingSources(cms: CmsService.CmsPayload, oig: OigService.OigPayload, nppes: NppesService.NppesPayload)
    ensures MissingSources(DataService.FusedSources(cms, oig, nppes))
            == (if cms.CmsRecord? then [] else ["cms"]) + (if !oig.OigFailed? then [] else ["oig"])
               + (if nppes.NppesRecord? then [] else ["nppes"])
  {
    var f := DataService.FusedSources(cms, oig, nppes);
    assert f[1..][1..][1..] == [];
    assert MissingSources(f[1..][1..]) == (if nppes.NppesRecord? then [] else ["nppes"]);
    assert MissingSources(f[1..]) == (if !oig.OigFailed? then [] else ["oig"]) + MissingSources(f[1..][1..]);
  }

  // ----- Collection -----

  /** What `collect_provider_intelligence` returns, given what the three collectors produced. */
  function Intelligence(npi: string, cms: Outcome<CmsService.CmsPayload>, oig: Outcome<OigService.OigPayload>,
                        nppes: Outcome<NppesService.NppesPayload>): Outcome<ProviderProfile>
  {
    if NpiRejected(npi) then Raised("Research Agent failed: " + InvalidNpiError(npi))
    else
      var s := DataService.CollectedSources(cms, oig, nppes);
      match DataService.FusedProfile(s.cms, s.oig, s.nppes)
      case Raised(e) => Raised("Research Agent failed: " + e)
      case Returned(p) => Returned(p.(riskFactors := RiskFactors(p)))
  }

  /** `collect_provider_intelligence`: guard, collect, fuse, attach the risk factors. */
  method CollectProviderIntelligence(npi: string, cms: Outcome<CmsService.CmsPayload>,
                                     oig: Outcome<OigService.OigPayload>, nppes: Outcome<NppesService.NppesPayload>)
    returns (r: Outcome<ProviderProfile>)
    ensures r == Intelligence(npi, cms, oig, nppes)
  {
    if |npi| == 0 || !IsDigits(npi) || |npi| != 10 {
      return Raised("Research Agent failed: " + InvalidNpiError(npi));
    }
    var allData := DataService.CollectAllSources(cms, oig, nppes);
    var profile := DataService.FuseDataSources(allData.sources.cms, allData.sources.oig, allData.sources.nppes);
    if profile.Raised? {
      return Raised("Research Agent failed: " + profile.error);
    }
    var riskFactors := IdentifyRiskFactors(profile.value);
    r := Returned(profile.value.(riskFactors := riskFactors));
  }

  /** A malformed NPI fails the same way whatever the sources would have returned: nothing is collected first. */
  lemma RejectedBeforeCollection(npi: string, cms1: Outcome<CmsService.CmsPayload>, oig1: Outcome<OigService.OigPayload>,
                                 nppes1: Outcome<NppesService.NppesPayload>, cms2: Outcome<CmsService.CmsPayload>,
                                 oig2: Outcome<OigService.OigPayload>, nppes2: Outcome<NppesService.NppesPayload>)
    requires NpiRejected(npi)
    ensures Intelligence(npi, cms1, oig1, nppes1) == Intelligence(npi, cms2, oig2, nppes2)
    ensures Intelligence(npi, cms1, oig1, nppes1).Raised?
  {
  }

  /** A returned profile carries a well-formed NPI and exactly the risk factors computed from it. */
  lemma IntelligenceProfile(npi: string, cms: Outcome<CmsService.CmsPayload>, oig: Outcome<OigService.OigPayload>,
                            nppes: Outcome<NppesService.NppesPayload>)
    requires Intelligence(npi, cms, oig, nppes).Returned?
    ensures var p := Intelligence(npi, cms, oig, nppes).value;
            && !NpiRejected(npi) && IsNpi(p.npi)
            && p.riskFactors == RiskFactors(p.(riskFactors := []))
            && |p.riskFactors| <= 4
  {
    var s := DataService.CollectedSources(cms, oig, nppes);
    DataService.FusionNpi(s.cms, s.oig, s.nppes);
    DataService.FusionFlagsAndEmptyParts(s.cms, s.oig, s.nppes);
    var p := DataService.FusedProfile(s.cms, s.oig, s.nppes).value;
    assert p.(riskFactors := RiskFactors(p)).(riskFactors := []) == p;
    RiskFactorsShape(p);
  }
}
