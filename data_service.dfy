/**
 * The data service: the three source payloads collected for one NPI, the
 * data-quality weight of that collection, and the fusion of the payloads
 * into one provider profile.
 */
module DataService {
  import opened Py
  import opened Text
  import opened Models
  import opened CmsService
  import opened NppesService
  import opened OigService
  import PatternAnalyzer

  /** The `cms`, `oig` and `nppes` entries of the collection result. */
  datatype Sources = Sources(cms: CmsPayload, oig: OigPayload, nppes: NppesPayload)

  /** `'error' not in payload` for each source. */
  predicate CmsAvailable(c: CmsPayload) { c.CmsRecord? }
  predicate OigAvailable(o: OigPayload) { !o.OigFailed? }
  predicate NppesAvailable(n: NppesPayload) { n.NppesRecord? }

  /** A CMS error payload that says the service was reached but had no data. */
  predicate CmsNoData(c: CmsPayload)
  {
    c.CmsError? && IsPrefix(NoDataPrefix, c.error)
  }

  /** The CMS share of the quality score, in tenths. */
  function CmsWeight(c: CmsPayload): (w: int)
    ensures w == 4 <==> CmsAvailable(c)
    ensures w == 2 <==> CmsNoData(c)
    ensures w == 0 <==> c.CmsError? && !CmsNoData(c)
  {
    if CmsAvailable(c) then 4 else if IsPrefix(NoDataPrefix, c.error) then 2 else 0
  }

  /** The quality score in tenths: cms 0.4 (0.2 for "no data"), oig 0.3, nppes 0.3. */
  function QualityTenths(s: Sources): int
  {
    CmsWeight(s.cms) + (if OigAvailable(s.oig) then 3 else 0) + (if NppesAvailable(s.nppes) then 3 else 0)
  }

  /** `_assess_data_quality`, accumulating the score source by source. */
  method AssessDataQuality(s: Sources) returns (quality: int)
    ensures quality == QualityTenths(s)
  {
    quality := 0;
    if s.cms.CmsRecord? {
      quality := quality + 4;
    } else if IsPrefix(NoDataPrefix, s.cms.error) {
      quality := quality + 2;
    }
    if !s.oig.OigFailed? {
      quality := quality + 3;
    }
    if s.nppes.NppesRecord? {
      quality := quality + 3;
    }
  }

  /** The score lies in [0, 1]; it is 1 exactly when every source is available, 0 exactly when none answered. */
  lemma QualityRange(s: Sources)
    ensures 0 <= QualityTenths(s) <= 10
    ensures QualityTenths(s) == 10 <==> CmsAvailable(s.cms) && OigAvailable(s.oig) && NppesAvailable(s.nppes)
    ensures QualityTenths(s) == 0 <==>
              s.cms.CmsError? && !CmsNoData(s.cms) && !OigAvailable(s.oig) && !NppesAvailable(s.nppes)
  {
  }

  /** `b` is at least as good as `a` source by source, a "no data" CMS answer being better than a failure. */
  predicate NoWorse(a: Sources, b: Sources)
  {
    (CmsAvailable(a.cms) ==> CmsAvailable(b.cms))
    && (CmsNoData(a.cms) ==> CmsAvailable(b.cms) || CmsNoData(b.cms))
    && (OigAvailable(a.oig) ==> OigAvailable(b.oig))
    && (NppesAvailable(a.nppes) ==> NppesAvailable(b.nppes))
  }

  /** Improving any source never lowers the quality score. */
  lemma QualityMonotone(a: Sources, b: Sources)
    requires NoWorse(a, b)
    ensures QualityTenths(a) <= QualityTenths(b)
  {
  }

  /** The no-data error of the CMS normaliser earns the partial credit; a connection failure earns none. */
  lemma CmsErrorCredit(raw: Json, npi: string, e: string)
    ensures ProcessCmsResponse(raw, npi).Returned? && ProcessCmsResponse(raw, npi).value.CmsError? ==>
              CmsWeight(ProcessCmsResponse(raw, npi).value) == 2
    ensures CmsWeight(UtilizationPayload(Raised(e))) == 0
  {
    var failure := "CMS connection failed: " + e;
    assert failure[0] == 'C' && NoDataPrefix[0] == 'N';
  }

  /** `collect_all_sources`: a source whose collector raised is replaced by `{"error": str(e)}`. */
  function CollectedSources(cms: Outcome<CmsPayload>, oig: Outcome<OigPayload>, nppes: Outcome<NppesPayload>): (s: Sources)
    ensures cms.Returned? ==> s.cms == cms.value
    ensures cms.Raised? ==> s.cms == CmsError(cms.error)
    ensures oig.Returned? ==> s.oig == oig.value
    ensures oig.Raised? ==> s.oig == OigFailed(None, oig.error)
    ensures nppes.Returned? ==> s.nppes == nppes.value
    ensures nppes.Raised? ==> s.nppes == NppesError(nppes.error)
  {
    Sources(
      match cms case Returned(c) => c case Raised(e) => CmsError(e),
      match oig case Returned(o) => o case Raised(e) => OigFailed(None, e),
      match nppes case Returned(n) => n case Raised(e) => NppesError(e))
  }

  datatype Collection = Collection(sources: Sources, dataQuality: int)

  /** `collect_all_sources` once the three collectors have finished. */
  method CollectAllSources(cms: Outcome<CmsPayload>, oig: Outcome<OigPayload>, nppes: Outcome<NppesPayload>)
    returns (r: Collection)
    ensures r.sources == CollectedSources(cms, oig, nppes)
    ensures r.dataQuality == QualityTenths(r.sources)
  {
    var sources := CollectedSources(cms, oig, nppes);
    var quality := AssessDataQuality(sources);
    r := Collection(sources, quality);
  }

  /** A failing collector affects its own entry only, and that entry is never counted as available. */
  lemma FailureIsIsolated(cms: Outcome<CmsPayload>, oig: Outcome<OigPayload>, nppes: Outcome<NppesPayload>, e: string)
    ensures CollectedSources(Raised(e), oig, nppes).oig == CollectedSources(cms, oig, nppes).oig
    ensures CollectedSources(Raised(e), oig, nppes).nppes == CollectedSources(cms, oig, nppes).nppes
    ensures CollectedSources(cms, Raised(e), nppes).cms == CollectedSources(cms, oig, nppes).cms
    ensures CollectedSources(cms, Raised(e), nppes).nppes == CollectedSources(cms, oig, nppes).nppes
    ensures CollectedSources(cms, oig, Raised(e)).cms == CollectedSources(cms, oig, nppes).cms
    ensures CollectedSources(cms, oig, Raised(e)).oig == CollectedSources(cms, oig, nppes).oig
    ensures !CmsAvailable(CollectedSources(Raised(e), oig, nppes).cms)
    ensures !OigAvailable(CollectedSources(cms, Raised(e), nppes).oig)
    ensures !NppesAvailable(CollectedSources(cms, oig, Raised(e)).nppes)
  {
  }

  /** `nppes.get('npi') or cms.get('npi', '')` */
  function FusedNpi(cms: CmsPayload, nppes: NppesPayload): (j: Json)
    ensures nppes.NppesRecord? && Truthy(nppes.npi) ==> j == nppes.npi
    ensures !(nppes.NppesRecord? && Truthy(nppes.npi)) ==> j == JStr(if cms.CmsRecord? then cms.npi else "")
  {
    var fromNppes := if nppes.NppesRecord? then nppes.npi else JNull;
    if Truthy(fromNppes) then fromNppes else JStr(if cms.CmsRecord? then cms.npi else "")
  }

  /** The profile name from the NPPES `name` entry; each part defaults to the empty string. */
  function FusedName(nppes: NppesPayload): Outcome<ProviderName>
  {
    if nppes.NppesError? then Returned(ProviderName(Some(""), Some(""), Some("")))
    else
      var first :- PyStr(nppes.first);
      var last :- PyStr(nppes.last);
      var organization :- PyStr(nppes.organization);
      Returned(ProviderName(first, last, organization))
  }

  /** The practice location; each part defaults to the empty string and the country to `US`. */
  function FusedLocation(nppes: NppesPayload): Outcome<ProviderLocation>
  {
    if nppes.NppesError? then Returned(ProviderLocation(Some(""), Some(""), Some(""), Some(""), Some("US")))
    else
      var l := nppes.location;
      var address :- PyStr(l.address);
      var city :- PyStr(l.city);
      var state :- PyStr(l.state);
      var postal :- PyStr(l.postalCode);
      var country :- PyStr(l.country);
      Returned(ProviderLocation(address, city, state, postal, country))
  }

  /** The utilization data; an error payload gives zero counts and amounts and no type. */
  function FusedUtilization(cms: CmsPayload): Outcome<UtilizationData>
  {
    if cms.CmsError? then Returned(DefaultUtilization)
    else
      var providerType :- PyStr(cms.providerType);
      var participation :- PyStr(cms.medicareParticipation);
      Returned(UtilizationData(cms.totalServices, cms.uniqueBeneficiaries, cms.totalCharges, cms.totalPayments,
                               providerType, participation))
  }

  /** The exclusion data; only a matched exclusion record is excluded. */
  function FusedExclusion(oig: OigPayload): (x: ExclusionData)
    ensures x.excluded <==> oig.OigExcluded?
    ensures !oig.OigExcluded? ==> x == DefaultExclusion
  {
    match oig
    case OigExcluded(r) =>
      ExclusionData(true, Some(r.exclusionType), Some(r.exclusionDate), r.reinstatementDate,
                    Some(r.exclusionDescription), Some(r.state))
    case _ => DefaultExclusion
  }

  function FusedTaxonomy(t: NppesTaxonomy): Outcome<ProviderTaxonomy>
  {
    var code :- PyStr(t.code);
    var description :- PyStr(t.description);
    var license :- PyStr(t.license);
    var state :- PyStr(t.state);
    Returned(ProviderTaxonomy(code, description, license, state))
  }

  /** The taxonomies the fusion loop appends, in order. */
  function FusedTaxonomies(ts: seq<NppesTaxonomy>): Outcome<seq<ProviderTaxonomy>>
  {
    if |ts| == 0 then Returned([])
    else
      var init :- FusedTaxonomies(ts[..|ts| - 1]);
      var t :- FusedTaxonomy(ts[|ts| - 1]);
      Returned(init + [t])
  }

  /** The fusion's taxonomy loop. */
  method CopyTaxonomies(ts: seq<NppesTaxonomy>) returns (r: Outcome<seq<ProviderTaxonomy>>)
    ensures r == FusedTaxonomies(ts)
  {
    var taxonomies: seq<ProviderTaxonomy> := [];
    var i := 0;
    while i < |ts|
      invariant 0 <= i <= |ts|
      invariant FusedTaxonomies(ts[..i]) == Returned(taxonomies)
    {
      assert ts[..i + 1][..i] == ts[..i];
      var t := FusedTaxonomy(ts[i]);
      if t.Raised? {
        assert FusedTaxonomies(ts[..i + 1]) == Raised(t.error);
        FusedTaxonomyErrorPersists(ts, i + 1);
        return Raised(t.error);
      }
      taxonomies := taxonomies + [t.value];
      i := i + 1;
    }
    assert ts[..|ts|] == ts;
    return Returned(taxonomies);
  }

  lemma {:induction false} FusedTaxonomyErrorPersists(ts: seq<NppesTaxonomy>, k: nat)
    requires k <= |ts|
    requires FusedTaxonomies(ts[..k]).Raised?
    ensures FusedTaxonomies(ts) == FusedTaxonomies(ts[..k])
    decreases |ts| - k
  {
    if k < |ts| {
      assert ts[..k + 1][..k] == ts[..k];
      FusedTaxonomyErrorPersists(ts, k + 1);
    } else {
      assert ts[..k] == ts;
    }
  }

  /** Taxonomies are copied one-for-one and in order. */
  lemma {:induction false} TaxonomiesCopied(ts: seq<NppesTaxonomy>)
    requires FusedTaxonomies(ts).Returned?
    ensures |FusedTaxonomies(ts).value| == |ts|
    ensures forall i :: 0 <= i < |ts| ==> FusedTaxonomy(ts[i]) == Returned(FusedTaxonomies(ts).value[i])
    decreases |ts|
  {
    if |ts| > 0 {
      var init := ts[..|ts| - 1];
      TaxonomiesCopied(init);
      var r := FusedTaxonomies(ts).value;
      assert r == FusedTaxonomies(init).value + [FusedTaxonomy(ts[|ts| - 1]).value];
      forall i | 0 <= i < |ts| ensures FusedTaxonomy(ts[i]) == Returned(r[i]) {
        if i < |init| { assert ts[i] == init[i]; }
      }
    }
  }

  /** The availability flags the fused profile records. */
  function FusedSources(cms: CmsPayload, oig: OigPayload, nppes: NppesPayload): SourceFlags
  {
    [("cms", CmsAvailable(cms)), ("oig", OigAvailable(oig)), ("nppes", NppesAvailable(nppes))]
  }

  /** `nppes.get(key)` for the four top-level string entries the profile copies; an error payload has none. */
  datatype NppesEntry = Credentials | Specialty | EnumerationDate | CertificationDate

  function NppesField(nppes: NppesPayload, entry: NppesEntry): (j: Json)
    ensures nppes.NppesError? ==> j == JNull
  {
    if nppes.NppesError? then JNull
    else
      match entry
      case Credentials => nppes.credentials
      case Specialty => nppes.specialty
      case EnumerationDate => nppes.enumerationDate
      case CertificationDate => nppes.certificationDate
  }

  const NpiMissing := "NPI not found in any data source"

  /** `fuse_data_sources`: `Raised` for a missing NPI and wherever a model field rejects its value. */
  function FusedProfile(cms: CmsPayload, oig: OigPayload, nppes: NppesPayload): Outcome<ProviderProfile>
  {
    var npi := FusedNpi(cms, nppes);
    if !Truthy(npi) then Raised(NpiMissing)
    else
      var name :- FusedName(nppes);
      var location :- FusedLocation(nppes);
      var utilization :- FusedUtilization(cms);
      var exclusion := FusedExclusion(oig);
      var taxonomies :- FusedTaxonomies(if nppes.NppesRecord? then nppes.taxonomies else []);
      var npiText :- PyStr(npi);
      var validNpi :- ValidateNpi(Show(npiText));
      var credentials :- PyStr(NppesField(nppes, Credentials));
      var specialty :- PyStr(NppesField(nppes, Specialty));
      var enumerated :- PyStr(NppesField(nppes, EnumerationDate));
      var certified :- PyStr(NppesField(nppes, CertificationDate));
      Returned(ProviderProfile(validNpi, name, credentials, specialty, location, utilization, exclusion, taxonomies,
                               enumerated, certified, [], 0.0, [], FusedSources(cms, oig, nppes)))
  }

  /** `fuse_data_sources`, with its taxonomy loop. */
  method FuseDataSources(cms: CmsPayload, oig: OigPayload, nppes: NppesPayload) returns (r: Outcome<ProviderProfile>)
    ensures r == FusedProfile(cms, oig, nppes)
  {
    var npi := FusedNpi(cms, nppes);
    if !Truthy(npi) {
      return Raised(NpiMissing);
    }
    var name := FusedName(nppes);
    if name.Raised? { return Raised(name.error); }
    var location := FusedLocation(nppes);
    if location.Raised? { return Raised(location.error); }
    var utilization := FusedUtilization(cms);
    if utilization.Raised? { return Raised(utilization.error); }
    var exclusion := FusedExclusion(oig);
    var taxonomies := CopyTaxonomies(if nppes.NppesRecord? then nppes.taxonomies else []);
    if taxonomies.Raised? { return Raised(taxonomies.error); }
    r := FinishProfile(cms, oig, nppes, npi, name.value, location.value, utilization.value, exclusion, taxonomies.value);
  }

  /** The `ProviderProfile(...)` call at the end of the fusion. */
  method FinishProfile(cms: CmsPayload, oig: OigPayload, nppes: NppesPayload, npi: Json, name: ProviderName,
                       location: ProviderLocation, utilization: UtilizationData, exclusion: ExclusionData,
                       taxonomies: seq<ProviderTaxonomy>) returns (r: Outcome<ProviderProfile>)
    requires npi == FusedNpi(cms, nppes) && Truthy(npi)
    requires FusedName(nppes) == Returned(name) && FusedLocation(nppes) == Returned(location)
    requires FusedUtilization(cms) == Returned(utilization) && exclusion == FusedExclusion(oig)
    requires FusedTaxonomies(if nppes.NppesRecord? then nppes.taxonomies else []) == Returned(taxonomies)
    ensures r == FusedProfile(cms, oig, nppes)
  {
    var npiText := PyStr(npi);
    if npiText.Raised? { return Raised(npiText.error); }
    var validNpi := ValidateNpi(Show(npiText.value));
    if validNpi.Raised? { return Raised(validNpi.error); }
    var credentials := PyStr(NppesField(nppes, Credentials));
    if credentials.Raised? { return Raised(credentials.error); }
    var specialty := PyStr(NppesField(nppes, Specialty));
    if specialty.Raised? { return Raised(specialty.error); }
    var enumerated := PyStr(NppesField(nppes, EnumerationDate));
    if enumerated.Raised? { return Raised(enumerated.error); }
    var certified := PyStr(NppesField(nppes, CertificationDate));
    if certified.Raised? { return Raised(certified.error); }
    return Returned(ProviderProfile(validNpi.value, name, credentials.value, specialty.value, location, utilization,
                                    exclusion, taxonomies, enumerated.value, certified.value, [], 0.0, [],
                                    FusedSources(cms, oig, nppes)));
  }

  /**
   * The NPI comes from NPPES when that payload carries a truthy one, else
   * from CMS; fusion raises the missing-NPI error exactly when neither has
   * one, and a fused profile is a valid one.
   */
  lemma FusionNpi(cms: CmsPayload, oig: OigPayload, nppes: NppesPayload)
    ensures FusedProfile(cms, oig, nppes) == Raised(NpiMissing) <==> !Truthy(FusedNpi(cms, nppes))
    ensures FusedProfile(cms, oig, nppes).Returned? ==>
              var p := FusedProfile(cms, oig, nppes).value;
              ValidProfile(p)
              && (nppes.NppesRecord? && nppes.npi.JStr? && nppes.npi.s != "" ==> p.npi == nppes.npi.s)
              && (nppes.NppesRecord? && nppes.npi.JInt? && nppes.npi.i != 0 ==> p.npi == IntToString(nppes.npi.i))
              && (!(nppes.NppesRecord? && Truthy(nppes.npi)) ==> cms.CmsRecord? && p.npi == cms.npi)
  {
    var npi := FusedNpi(cms, nppes);
    if Truthy(npi) {
      var r := FusedProfile(cms, oig, nppes);
      if r.Raised? {
        assert r.error != NpiMissing by {
          ProfileErrorsAreFieldErrors(cms, oig, nppes);
        }
      }
    }
  }

  /** Once the NPI is found, every error fusion raises is a field validator's. */
  lemma ProfileErrorsAreFieldErrors(cms: CmsPayload, oig: OigPayload, nppes: NppesPayload)
    requires Truthy(FusedNpi(cms, nppes))
    ensures FusedProfile(cms, oig, nppes).Raised? ==>
              FusedProfile(cms, oig, nppes).error in {StrTypeExpected, NpiFormatError}
  {
    FieldErrors(if nppes.NppesRecord? then nppes.taxonomies else []);
  }

  lemma {:induction false} FieldErrors(ts: seq<NppesTaxonomy>)
    ensures FusedTaxonomies(ts).Raised? ==> FusedTaxonomies(ts).error == StrTypeExpected
    decreases |ts|
  {
    if |ts| > 0 { FieldErrors(ts[..|ts| - 1]); }
  }

  /**
   * The fused profile records exactly the cms, oig and nppes flags, each
   * true iff that payload is not an error; web search is never marked
   * available; legal information, risk factors and score stay empty.
   */
  lemma FusionFlagsAndEmptyParts(cms: CmsPayload, oig: OigPayload, nppes: NppesPayload)
    requires FusedProfile(cms, oig, nppes).Returned?
    ensures var p := FusedProfile(cms, oig, nppes).value;
            && p.dataSources == [("cms", CmsAvailable(cms)), ("oig", OigAvailable(oig)), ("nppes", NppesAvailable(nppes))]
            && SourceFlag(p.dataSources, "cms") == cms.CmsRecord?
            && SourceFlag(p.dataSources, "oig") == !oig.OigFailed?
            && SourceFlag(p.dataSources, "nppes") == nppes.NppesRecord?
            && !SourceFlag(p.dataSources, "web_search")
            && p.legalInformation == [] && p.riskFactors == [] && p.riskScore == 0.0
  {
    var f := FusedProfile(cms, oig, nppes).value.dataSources;
    assert f[1..][1..][1..] == [];
    assert SourceFlag(f[1..][1..], "nppes") == nppes.NppesRecord?;
    assert !SourceFlag(f[1..][1..], "web_search");
    assert !SourceFlag(f[1..], "web_search");
  }

  /** Missing sources fill in neutral values: zero utilization, not excluded, empty names, country `US`, no taxonomies. */
  lemma FusionDefaults(cms: CmsPayload, oig: OigPayload, nppes: NppesPayload)
    requires FusedProfile(cms, oig, nppes).Returned?
    ensures var p := FusedProfile(cms, oig, nppes).value;
            && (cms.CmsError? ==> p.utilizationData == DefaultUtilization)
            && (!oig.OigExcluded? ==> p.exclusionData == DefaultExclusion)
            && (oig.OigExcluded? ==>
                  p.exclusionData.excluded && p.exclusionData.exclusionType == Some(oig.record.exclusionType))
            && (nppes.NppesError? ==>
                  p.name == ProviderName(Some(""), Some(""), Some(""))
                  && p.practiceLocation == ProviderLocation(Some(""), Some(""), Some(""), Some(""), Some("US"))
                  && p.taxonomies == [] && p.specialty.None? && p.credentials.None?)
  {
  }

  /** Fused taxonomies correspond one-for-one and in order to the NPPES ones. */
  lemma FusionCopiesTaxonomies(cms: CmsPayload, oig: OigPayload, nppes: NppesPayload)
    requires FusedProfile(cms, oig, nppes).Returned?
    requires nppes.NppesRecord?
    ensures var p := FusedProfile(cms, oig, nppes).value;
            && |p.taxonomies| == |nppes.taxonomies|
            && forall i :: 0 <= i < |p.taxonomies| ==> FusedTaxonomy(nppes.taxonomies[i]) == Returned(p.taxonomies[i])
  {
    TaxonomiesCopied(nppes.taxonomies);
  }

  /**
   * The pattern analyzer recomputes data quality from the fused profile's
   * flags and services count. It agrees with the data service except for a
   * CMS failure other than "no data": there the analyzer still grants the
   * partial 0.2, because the fused profile then records zero services.
   */
  lemma AnalyzerQualityOfFusedProfile(cms: CmsPayload, oig: OigPayload, nppes: NppesPayload)
    requires FusedProfile(cms, oig, nppes).Returned?
    ensures var p := FusedProfile(cms, oig, nppes).value;
            var s := Sources(cms, oig, nppes);
            PatternAnalyzer.DataQuality(p) == QualityTenths(s) + (if cms.CmsError? && !CmsNoData(cms) then 2 else 0)
  {
    FusionFlagsAndEmptyParts(cms, oig, nppes);
    FusionDefaults(cms, oig, nppes);
  }
}
