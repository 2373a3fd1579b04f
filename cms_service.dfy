/**
 * The CMS utilization normaliser: the decoded API response, in any of the
 * shapes the service accepts, becomes one flat utilization payload, or the
 * "no data" error payload when the shape is not recognised.
 */
module CmsService {
  import opened Py
  import opened Text

  /** The dictionary the CMS service hands on: a utilization record or an `{"error": …}` payload. */
  datatype CmsPayload =
    | CmsRecord(totalServices: int, uniqueBeneficiaries: int, totalCharges: real, totalPayments: real,
                providerType: Json, medicareParticipation: Json, npi: string)
    | CmsError(error: string)

  /** The prefix the data service recognises as "reachable, but no data". */
  const NoDataPrefix := "No CMS data"

  function NoDataError(npi: string): (e: string)
    ensures IsPrefix(NoDataPrefix, e)
  {
    assert (NoDataPrefix + " found for NPI " + npi)[..|NoDataPrefix|] == NoDataPrefix;
    NoDataPrefix + " found for NPI " + npi
  }

  /**
   * The provider record inside the response: the first item of a non-empty
   * list; for a dict with a `data` entry, that entry's first item, or an
   * empty dict when the entry is empty; any other dict as it is. `None`
   * stands for an unrecognised shape, including the empty list.
   */
  function ProviderData(raw: Json): (r: Outcome<Option<Json>>)
    ensures raw.JArr? && |raw.items| > 0 ==> r == Returned(Some(raw.items[0]))
    ensures raw.JObj? && "data" in raw.fields && raw.fields["data"].JArr? && |raw.fields["data"].items| > 0
            ==> r == Returned(Some(raw.fields["data"].items[0]))
    ensures raw.JObj? && "data" in raw.fields && !Truthy(raw.fields["data"]) ==> r == Returned(Some(JObj(map[])))
    ensures raw.JObj? && "data" !in raw.fields ==> r == Returned(Some(raw))
    ensures r == Returned(None) <==> !raw.JObj? && !(raw.JArr? && |raw.items| > 0)
  {
    if raw.JArr? && |raw.items| > 0 then Returned(Some(raw.items[0]))
    else if raw.JObj? && "data" in raw.fields then
      var data := raw.fields["data"];
      if Truthy(data) then
        var first :- First(data);
        Returned(Some(first))
      else Returned(Some(JObj(map[])))
    else if raw.JObj? then Returned(Some(raw))
    else Returned(None)
  }

  /** `d.get(primary, d.get(alias, default))` */
  function Fallback(d: map<string, Json>, primary: string, alias: string, default: Json): (r: Json)
    ensures primary in d ==> r == d[primary]
    ensures primary !in d && alias in d ==> r == d[alias]
    ensures primary !in d && alias !in d ==> r == default
  {
    Get(d, primary, Get(d, alias, default))
  }

  /** The utilization record built from one provider dict; `int()` and `float()` raise on unconvertible values. */
  function UtilizationRecord(d: map<string, Json>, npi: string): (r: Outcome<CmsPayload>)
    ensures r.Returned? ==> r.value.CmsRecord? && r.value.npi == npi
  {
    var services :- PyInt(Fallback(d, "line_srvc_cnt", "total_services", JInt(0)));
    var beneficiaries :- PyInt(Fallback(d, "bene_unique_cnt", "unique_beneficiaries", JInt(0)));
    var charges :- PyFloat(Fallback(d, "total_sbmtd_chrg", "total_charges", JFloat(0.0)));
    var payments :- PyFloat(Fallback(d, "total_medicare_payment_amt", "total_payments", JFloat(0.0)));
    Returned(CmsRecord(services, beneficiaries, charges, payments,
                       Fallback(d, "provider_type", "entity_type", JStr("Unknown")),
                       Fallback(d, "medicare_participation_indicator", "participation", JStr("Unknown")),
                       npi))
  }

  /** `_process_cms_response`: `Raised` where Python raises (a non-dict record, an unconvertible count). */
  function ProcessCmsResponse(raw: Json, npi: string): (r: Outcome<CmsPayload>)
    ensures r.Returned? && r.value.CmsRecord? ==> r.value.npi == npi
    ensures r.Returned? && r.value.CmsError? ==> r.value.error == NoDataError(npi)
    ensures r == Returned(CmsError(NoDataError(npi))) <==> !raw.JObj? && !(raw.JArr? && |raw.items| > 0)
  {
    var provider :- ProviderData(raw);
    if provider.None? then Returned(CmsError(NoDataError(npi)))
    else
      var d :- DictOf(provider.value);
      UtilizationRecord(d, npi)
  }

  /** What `get_provider_utilization` returns for a processed response: an exception becomes a connection-failure payload. */
  function UtilizationPayload(processed: Outcome<CmsPayload>): (r: CmsPayload)
    ensures processed.Returned? ==> r == processed.value
    ensures processed.Raised? ==> r == CmsError("CMS connection failed: " + processed.error)
  {
    match processed
    case Returned(p) => p
    case Raised(e) => CmsError("CMS connection failed: " + e)
  }

  /** A record served directly as a dict takes its primary field names first, then the aliases, then zero. */
  lemma DirectRecordFields(fields: map<string, Json>, npi: string, services: int, charges: real)
    requires "data" !in fields
    requires "line_srvc_cnt" in fields && fields["line_srvc_cnt"] == JInt(services)
    requires "bene_unique_cnt" !in fields && "unique_beneficiaries" !in fields
    requires "total_sbmtd_chrg" !in fields && "total_charges" in fields && fields["total_charges"] == JFloat(charges)
    requires "total_medicare_payment_amt" !in fields && "total_payments" !in fields
    requires "provider_type" !in fields && "entity_type" !in fields
    ensures ProcessCmsResponse(JObj(fields), npi)
            == Returned(CmsRecord(services, 0, charges, 0.0, JStr("Unknown"),
                                  Fallback(fields, "medicare_participation_indicator", "participation", JStr("Unknown")), npi))
  {
  }

  /** A dict whose `data` list is empty yields the all-default record, not an error. */
  lemma EmptyDataListGivesDefaults(npi: string)
    ensures ProcessCmsResponse(JObj(map["data" := JArr([])]), npi)
            == Returned(CmsRecord(0, 0, 0.0, 0.0, JStr("Unknown"), JStr("Unknown"), npi))
  {
    var raw := JObj(map["data" := JArr([])]);
    assert ProviderData(raw) == Returned(Some(JObj(map[])));
  }

  /** The empty list and non-container responses give the no-data error. */
  lemma UnrecognisedShapes(npi: string)
    ensures ProcessCmsResponse(JArr([]), npi) == Returned(CmsError(NoDataError(npi)))
    ensures ProcessCmsResponse(JNull, npi) == Returned(CmsError(NoDataError(npi)))
    ensures ProcessCmsResponse(JStr("none"), npi) == Returned(CmsError(NoDataError(npi)))
  {
  }
}
