/**
 * The NPPES registry normaliser: the first registry result becomes a flat
 * payload with the provider's name, credentials, dates, practice location
 * (the first `LOCATION` address) and taxonomies, or the not-found error
 * payload when the registry reports no results.
 */
module NppesService {
  import opened Py

  datatype NppesTaxonomy = NppesTaxonomy(code: Json, description: Json, license: Json, state: Json)

  datatype NppesLocation = NppesLocation(address: Json, city: Json, state: Json, postalCode: Json, country: Json)

  /** The dictionary the NPPES service hands on: a provider record or an `{"error": …}` payload. */
  datatype NppesPayload =
    | NppesRecord(npi: Json, first: Json, last: Json, organization: Json, credentials: Json, gender: Json,
                  enumerationDate: Json, certificationDate: Json, location: NppesLocation, specialty: Json,
                  taxonomies: seq<NppesTaxonomy>)
    | NppesError(error: string)

  function NotFoundError(npi: string): string
  {
    "Provider not found in NPPES registry: " + npi
  }

  predicate IsLocation(addr: map<string, Json>)
  {
    Get(addr, "address_purpose", JNull) == JStr("LOCATION")
  }

  /** The address the break-loop settles on: the first `LOCATION` one, else the empty dict; a non-dict visited first raises. */
  function PracticeAddress(addrs: seq<Json>): Outcome<map<string, Json>>
  {
    if |addrs| == 0 then Returned(map[])
    else
      var addr :- DictOf(addrs[0]);
      if IsLocation(addr) then Returned(addr) else PracticeAddress(addrs[1..])
  }

  /** The address loop: stops at the first address whose purpose is `LOCATION`. */
  method FindPracticeAddress(addrs: seq<Json>) returns (r: Outcome<map<string, Json>>)
    ensures r == PracticeAddress(addrs)
  {
    var practice: map<string, Json> := map[];
    var i := 0;
    while i < |addrs|
      invariant 0 <= i <= |addrs|
      invariant PracticeAddress(addrs) == PracticeAddress(addrs[i..])
    {
      assert addrs[i..][1..] == addrs[i + 1..];
      if !addrs[i].JObj? {
        return Raised(NoGetError(addrs[i]));
      }
      if IsLocation(addrs[i].fields) {
        practice := addrs[i].fields;
        return Returned(practice);
      }
      i := i + 1;
    }
    return Returned(practice);
  }

  /** Every address before position `k` is a dict that is not a practice location. */
  ghost predicate NoLocationBefore(addrs: seq<Json>, k: int)
    requires 0 <= k <= |addrs|
  {
    forall j :: 0 <= j < k ==> addrs[j].JObj? && !IsLocation(addrs[j].fields)
  }

  /**
   * The practice address is the first `LOCATION` address, every earlier
   * one being a dict; when there is none the result is the empty dict; a
   * list of dicts never raises.
   */
  lemma {:induction false} PracticeAddressIsFirstLocation(addrs: seq<Json>)
    ensures PracticeAddress(addrs).Returned? && IsLocation(PracticeAddress(addrs).value) ==>
              exists i :: 0 <= i < |addrs| && addrs[i] == JObj(PracticeAddress(addrs).value) && NoLocationBefore(addrs, i)
    ensures PracticeAddress(addrs).Returned? && !IsLocation(PracticeAddress(addrs).value) ==>
              PracticeAddress(addrs).value == map[] && NoLocationBefore(addrs, |addrs|)
    ensures (forall j :: 0 <= j < |addrs| ==> addrs[j].JObj?) ==> PracticeAddress(addrs).Returned?
    decreases |addrs|
  {
    if |addrs| > 0 && addrs[0].JObj? && !IsLocation(addrs[0].fields) {
      var rest := addrs[1..];
      PracticeAddressIsFirstLocation(rest);
      assert PracticeAddress(addrs) == PracticeAddress(rest);
      if PracticeAddress(rest).Returned? && IsLocation(PracticeAddress(rest).value) {
        var i :| 0 <= i < |rest| && rest[i] == JObj(PracticeAddress(rest).value) && NoLocationBefore(rest, i);
        assert addrs[i + 1] == rest[i];
        assert NoLocationBefore(addrs, i + 1) by {
          forall j | 0 <= j < i + 1 ensures addrs[j].JObj? && !IsLocation(addrs[j].fields) {
            if j > 0 { assert addrs[j] == rest[j - 1]; }
          }
        }
      }
      if PracticeAddress(rest).Returned? && !IsLocation(PracticeAddress(rest).value) {
        assert NoLocationBefore(addrs, |addrs|) by {
          forall j | 0 <= j < |addrs| ensures addrs[j].JObj? && !IsLocation(addrs[j].fields) {
            if j > 0 { assert addrs[j] == rest[j - 1]; }
          }
        }
      }
      if forall j :: 0 <= j < |addrs| ==> addrs[j].JObj? {
        assert forall j :: 0 <= j < |rest| ==> rest[j] == addrs[j + 1];
      }
    } else if |addrs| > 0 && addrs[0].JObj? {
      assert NoLocationBefore(addrs, 0);
    }
  }

  /** One taxonomy entry: `desc` is renamed `description`, missing fields become the empty string. */
  function TaxonomyEntry(tax: map<string, Json>): NppesTaxonomy
  {
    NppesTaxonomy(Get(tax, "code", JStr("")), Get(tax, "desc", JStr("")), Get(tax, "license", JStr("")), Get(tax, "state", JStr("")))
  }

  /** The entries the taxonomy loop appends; the first non-dict raises. */
  function TaxonomyEntries(items: seq<Json>): Outcome<seq<NppesTaxonomy>>
  {
    if |items| == 0 then Returned([])
    else
      var init :- TaxonomyEntries(items[..|items| - 1]);
      var tax :- DictOf(items[|items| - 1]);
      Returned(init + [TaxonomyEntry(tax)])
  }

  /** The taxonomy loop: one entry appended per registry taxonomy. */
  method CollectTaxonomies(items: seq<Json>) returns (r: Outcome<seq<NppesTaxonomy>>)
    ensures r == TaxonomyEntries(items)
  {
    var taxonomies: seq<NppesTaxonomy> := [];
    var i := 0;
    while i < |items|
      invariant 0 <= i <= |items|
      invariant TaxonomyEntries(items[..i]) == Returned(taxonomies)
    {
      assert items[..i + 1][..i] == items[..i];
      if !items[i].JObj? {
        assert TaxonomyEntries(items[..i + 1]) == Raised(NoGetError(items[i]));
        TaxonomyErrorPersists(items, i + 1);
        assert items[..|items|] == items;
        return Raised(NoGetError(items[i]));
      }
      taxonomies := taxonomies + [TaxonomyEntry(items[i].fields)];
      i := i + 1;
    }
    assert items[..|items|] == items;
    return Returned(taxonomies);
  }

  /** Once an item raises, the whole loop raises with that error. */
  lemma {:induction false} TaxonomyErrorPersists(items: seq<Json>, k: nat)
    requires k <= |items|
    requires TaxonomyEntries(items[..k]).Raised?
    ensures TaxonomyEntries(items) == TaxonomyEntries(items[..k])
    decreases |items| - k
  {
    if k < |items| {
      assert items[..k + 1][..k] == items[..k];
      TaxonomyErrorPersists(items, k + 1);
    } else {
      assert items[..k] == items;
    }
  }

  /** Taxonomies map one-for-one and in order onto the registry's entries. */
  lemma {:induction false} TaxonomiesOneForOne(items: seq<Json>)
    requires TaxonomyEntries(items).Returned?
    ensures |TaxonomyEntries(items).value| == |items|
    ensures forall i :: 0 <= i < |items| ==>
              items[i].JObj? && TaxonomyEntries(items).value[i] == TaxonomyEntry(items[i].fields)
    decreases |items|
  {
    if |items| > 0 {
      var init := items[..|items| - 1];
      TaxonomiesOneForOne(init);
      var r := TaxonomyEntries(items).value;
      assert r == TaxonomyEntries(init).value + [TaxonomyEntry(items[|items| - 1].fields)];
      forall i | 0 <= i < |items|
        ensures items[i].JObj? && r[i] == TaxonomyEntry(items[i].fields)
      {
        if i < |init| { assert items[i] == init[i]; }
      }
    }
  }

  /** The practice location read off the chosen address: missing fields are empty, the country defaults to `US`. */
  function LocationOf(addr: map<string, Json>): NppesLocation
  {
    NppesLocation(Get(addr, "address_1", JStr("")), Get(addr, "city", JStr("")), Get(addr, "state", JStr("")),
                  Get(addr, "postal_code", JStr("")), Get(addr, "country_code", JStr("US")))
  }

  /** The primary specialty: the first taxonomy's description, or `None` without taxonomies. */
  function PrimarySpecialty(taxonomies: seq<NppesTaxonomy>): (s: Json)
    ensures |taxonomies| == 0 ==> s == JNull
    ensures |taxonomies| > 0 ==> s == taxonomies[0].description
  {
    if |taxonomies| > 0 then taxonomies[0].description else JNull
  }

  /** The record for one registry result, given the chosen address and the collected taxonomies. */
  function RecordOf(provider: map<string, Json>, basic: map<string, Json>, practice: map<string, Json>,
                    taxonomies: seq<NppesTaxonomy>, npi: string): NppesPayload
  {
    NppesRecord(Get(provider, "number", JStr(npi)),
                Get(basic, "first_name", JStr("")), Get(basic, "last_name", JStr("")),
                Get(basic, "organization_name", JStr("")), Get(basic, "credential", JStr("")),
                Get(basic, "gender", JStr("")), Get(basic, "enumeration_date", JStr("")),
                Get(basic, "certification_date", JStr("")), LocationOf(practice),
                PrimarySpecialty(taxonomies), taxonomies)
  }

  /** `str(e)` of the `KeyError` raised by `response["results"]` when the key is missing. */
  const ResultsKeyError := "'results'"

  /** `_process_nppes_response` as a function: `Raised` where Python raises (a non-dict, a missing `results`). */
  function NppesResponse(raw: Json, npi: string): (r: Outcome<NppesPayload>)
    ensures r.Returned? && r.value.NppesError? <==> raw.JObj? && EqualsZero(Get(raw.fields, "result_count", JInt(0)))
    ensures r.Returned? && r.value.NppesError? ==> r.value.error == NotFoundError(npi)
    ensures !raw.JObj? ==> r == Raised(NoGetError(raw))
    ensures raw.JObj? && !EqualsZero(Get(raw.fields, "result_count", JInt(0)))
            && "results" !in raw.fields
            ==> r == Raised(ResultsKeyError)
    ensures raw.JObj? && !EqualsZero(Get(raw.fields, "result_count", JInt(0)))
            && Get(raw.fields, "results", JNull) == JArr([])
            ==> r == Raised("list index out of range")
  {
    var response :- DictOf(raw);
    if EqualsZero(Get(response, "result_count", JInt(0))) then Returned(NppesError(NotFoundError(npi)))
    else if "results" !in response then Raised(ResultsKeyError)
    else
      var first :- Index0(response["results"]);
      var provider :- DictOf(first);
      var addrs :- DictLoopItems(Get(provider, "addresses", JArr([])));
      var practice :- PracticeAddress(addrs);
      var items :- DictLoopItems(Get(provider, "taxonomies", JArr([])));
      var taxonomies :- TaxonomyEntries(items);
      var basic :- DictOf(Get(provider, "basic", JObj(map[])));
      Returned(RecordOf(provider, basic, practice, taxonomies, npi))
  }

  /** `_process_nppes_response`, with its two loops. */
  method ProcessNppesResponse(raw: Json, npi: string) returns (r: Outcome<NppesPayload>)
    ensures r == NppesResponse(raw, npi)
  {
    if !raw.JObj? {
      return Raised(NoGetError(raw));
    }
    var response := raw.fields;
    if EqualsZero(Get(response, "result_count", JInt(0))) {
      return Returned(NppesError(NotFoundError(npi)));
    }
    if "results" !in response {
      return Raised(ResultsKeyError);
    }
    var first := Index0(response["results"]);
    if first.Raised? {
      return Raised(first.error);
    }
    if !first.value.JObj? {
      return Raised(NoGetError(first.value));
    }
    var provider := first.value.fields;
    var addrs := DictLoopItems(Get(provider, "addresses", JArr([])));
    if addrs.Raised? {
      return Raised(addrs.error);
    }
    var practice := FindPracticeAddress(addrs.value);
    if practice.Raised? {
      return Raised(practice.error);
    }
    var items := DictLoopItems(Get(provider, "taxonomies", JArr([])));
    if items.Raised? {
      return Raised(items.error);
    }
    var taxonomies := CollectTaxonomies(items.value);
    if taxonomies.Raised? {
      return Raised(taxonomies.error);
    }
    var basic := Get(provider, "basic", JObj(map[]));
    if !basic.JObj? {
      return Raised(NoGetError(basic));
    }
    return Returned(RecordOf(provider, basic.fields, practice.value, taxonomies.value, npi));
  }

  /** What `get_provider_details` returns for a processed response: an exception becomes a connection-failure payload. */
  function DetailsPayload(processed: Outcome<NppesPayload>): (r: NppesPayload)
    ensures processed.Returned? ==> r == processed.value
    ensures processed.Raised? ==> r == NppesError("NPPES connection failed: " + processed.error)
  {
    match processed
    case Returned(p) => p
    case Raised(e) => NppesError("NPPES connection failed: " + e)
  }

  /**
   * For a registry result given as a dict with address and taxonomy lists
   * of dicts: the record's NPI is the result's `number`, else the argument;
   * the location is that of the first `LOCATION` address, and without one
   * every field is empty and the country is `US`; the specialty is the
   * first taxonomy's `desc`, or `None` without taxonomies.
   */
  lemma RegistryRecord(top: map<string, Json>, provider: map<string, Json>, rest: seq<Json>, npi: string)
    requires !EqualsZero(Get(top, "result_count", JInt(0)))
    requires "results" in top && top["results"] == JArr([JObj(provider)] + rest)
    requires "addresses" in provider && provider["addresses"].JArr?
    requires forall j :: 0 <= j < |provider["addresses"].items| ==> provider["addresses"].items[j].JObj?
    requires "taxonomies" in provider && provider["taxonomies"].JArr?
    requires forall j :: 0 <= j < |provider["taxonomies"].items| ==> provider["taxonomies"].items[j].JObj?
    requires "basic" !in provider
    ensures NppesResponse(JObj(top), npi).Returned?
    ensures NppesResponse(JObj(top), npi).value.NppesRecord?
    ensures NppesResponse(JObj(top), npi).value.npi == if "number" in provider then provider["number"] else JStr(npi)
    ensures NoLocationBefore(provider["addresses"].items, |provider["addresses"].items|) ==>
              NppesResponse(JObj(top), npi).value.location == NppesLocation(JStr(""), JStr(""), JStr(""), JStr(""), JStr("US"))
    ensures NppesResponse(JObj(top), npi).value.specialty
            == if |provider["taxonomies"].items| == 0 then JNull
               else Get(provider["taxonomies"].items[0].fields, "desc", JStr(""))
  {
    var addrs := provider["addresses"].items;
    var items := provider["taxonomies"].items;
    PracticeAddressIsFirstLocation(addrs);
    TaxonomiesAllDicts(items);
    TaxonomiesOneForOne(items);
    assert Index0(top["results"]) == Returned(JObj(provider));
  }

  /** A list of dicts never makes the taxonomy loop raise. */
  lemma {:induction false} TaxonomiesAllDicts(items: seq<Json>)
    requires forall j :: 0 <= j < |items| ==> items[j].JObj?
    ensures TaxonomyEntries(items).Returned?
    decreases |items|
  {
    if |items| > 0 {
      TaxonomiesAllDicts(items[..|items| - 1]);
    }
  }

  /** A registry response reporting zero results is the not-found payload. */
  lemma ZeroResultsNotFound(npi: string)
    ensures NppesResponse(JObj(map["result_count" := JInt(0)]), npi) == Returned(NppesError(NotFoundError(npi)))
    ensures NppesResponse(JObj(map[]), npi) == Returned(NppesError(NotFoundError(npi)))
  {
  }
}
