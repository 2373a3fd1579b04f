/**
 * The in-memory fraud financial ledger: for each NPI, the list of financial
 * records saved for it, in saving order, plus the order in which NPIs were
 * first saved (the key order of the underlying dictionary).
 */
module FraudFinancial {
  import opened Py

  /**
   * One saved financial record: the three optional dollar amounts and the
   * investigation year, the only parts the ledger reads.
   */
  datatype FinancialRecord = FinancialRecord(
    estimatedFraudAmount: Option<real>,
    settlementAmount: Option<real>,
    restitutionAmount: Option<real>,
    investigationYear: Option<int>)

  /** `entry.get(key)` added when truthy: a missing or zero amount adds nothing. */
  function AmountPart(amount: Option<real>): (r: real)
    ensures amount.Some? ==> r == amount.value
    ensures amount.None? ==> r == 0.0
  {
    if amount.Some? && amount.value != 0.0 then amount.value else 0.0
  }

  /** The total of one record. */
  function RecordTotal(e: FinancialRecord): real
  {
    AmountPart(e.estimatedFraudAmount) + AmountPart(e.settlementAmount) + AmountPart(e.restitutionAmount)
  }

  /** What one record adds to the total of `year`. */
  function YearShare(e: FinancialRecord, year: int): real
  {
    if e.investigationYear == Some(year) then RecordTotal(e) else 0.0
  }

  /** The inner loop of `get_annual_total`: the shares of one NPI's records. */
  function RecordsTotal(records: seq<FinancialRecord>, year: int): real
    decreases |records|
  {
    if |records| == 0 then 0.0
    else RecordsTotal(records[..|records| - 1], year) + YearShare(records[|records| - 1], year)
  }

  /** The outer loop of `get_annual_total`: the shares of every NPI's records, NPI by NPI. */
  function LedgerTotal(npis: seq<string>, data: map<string, seq<FinancialRecord>>, year: int): real
    requires forall k :: k in npis ==> k in data
    decreases |npis|
  {
    if |npis| == 0 then 0.0
    else LedgerTotal(npis[..|npis| - 1], data, year) + RecordsTotal(data[npis[|npis| - 1]], year)
  }

  predicate NonNegativeAmounts(e: FinancialRecord)
  {
    (e.estimatedFraudAmount.Some? ==> e.estimatedFraudAmount.value >= 0.0)
    && (e.settlementAmount.Some? ==> e.settlementAmount.value >= 0.0)
    && (e.restitutionAmount.Some? ==> e.restitutionAmount.value >= 0.0)
  }

  class FraudFinancialService {
    /** The `_data` dictionary. */
    var data: map<string, seq<FinancialRecord>>
    /** Its keys in insertion order. */
    var npis: seq<string>

    /** The key list lists each key of `data` exactly once. */
    ghost predicate Valid()
      reads this
    {
      (forall i, j :: 0 <= i < j < |npis| ==> npis[i] != npis[j])
      && (forall k :: k in data <==> k in npis)
    }

    /** A ledger with no saved file starts empty. */
    constructor ()
      ensures Valid() && data == map[] && npis == []
    {
      data := map[];
      npis := [];
    }

    /** `save_financial_data`: append the record to the NPI's list, creating the list first if needed. */
    method SaveFinancialData(npi: string, record: FinancialRecord)
      requires Valid()
      modifies this
      ensures Valid()
      ensures data == old(data)[npi := (if npi in old(data) then old(data)[npi] else []) + [record]]
      ensures npis == if npi in old(data) then old(npis) else old(npis) + [npi]
    {
      if npi !in data {
        data := data[npi := []];
        npis := npis + [npi];
      }
      data := data[npi := data[npi] + [record]];
    }

    /** `get_financial_data`: the last record saved for the NPI, if any. */
    method GetFinancialData(npi: string) returns (r: Option<FinancialRecord>)
      ensures r.None? <==> npi !in data || data[npi] == []
      ensures r.Some? ==> r.value == data[npi][|data[npi]| - 1]
    {
      if npi !in data || data[npi] == [] {
        return None;
      }
      var records := data[npi];
      r := Some(records[|records| - 1]);
    }

    /** `get_all_financial_data`: the NPI's records in saving order, or none for an unknown NPI. */
    method GetAllFinancialData(npi: string) returns (result: seq<FinancialRecord>)
      ensures npi !in data ==> result == []
      ensures npi in data ==> result == data[npi]
    {
      if npi !in data {
        return [];
      }
      var records := data[npi];
      result := [];
      for i := 0 to |records|
        invariant result == records[..i]
      {
        result := result + [records[i]];
      }
    }

    /** `get_annual_total`, with its nested loops over NPIs and their records. */
    method GetAnnualTotal(year: int) returns (total: real)
      requires Valid()
      ensures total == LedgerTotal(npis, data, year)
    {
      total := 0.0;
      for i := 0 to |npis|
        invariant total == LedgerTotal(npis[..i], data, year)
      {
        assert npis[..i + 1][..i] == npis[..i];
        var entries := data[npis[i]];
        var npiTotal := 0.0;
        for j := 0 to |entries|
          invariant npiTotal == RecordsTotal(entries[..j], year)
        {
          assert entries[..j + 1][..j] == entries[..j];
          var entry := entries[j];
          if entry.investigationYear == Some(year) {
            var entryTotal := 0.0;
            if entry.estimatedFraudAmount.Some? && entry.estimatedFraudAmount.value != 0.0 {
              entryTotal := entryTotal + entry.estimatedFraudAmount.value;
            }
            if entry.settlementAmount.Some? && entry.settlementAmount.value != 0.0 {
              entryTotal := entryTotal + entry.settlementAmount.value;
            }
            if entry.restitutionAmount.Some? && entry.restitutionAmount.value != 0.0 {
              entryTotal := entryTotal + entry.restitutionAmount.value;
            }
            npiTotal := npiTotal + entryTotal;
          }
        }
        assert entries[..|entries|] == entries;
        total := total + npiTotal;
      }
      assert npis[..|npis|] == npis;
    }

    /** `get_all_providers_with_financial_data`: the NPIs in the order they were first saved. */
    method GetAllProvidersWithFinancialData() returns (r: seq<string>)
      requires Valid()
      ensures r == npis
      ensures forall k :: k in r <==> k in data
    {
      r := npis;
    }
  }

  // ----- Properties of the totals -----

  /** Appending a record adds exactly its share to an NPI's total. */
  lemma RecordsTotalAppend(records: seq<FinancialRecord>, e: FinancialRecord, year: int)
    ensures RecordsTotal(records + [e], year) == RecordsTotal(records, year) + YearShare(e, year)
  {
    assert (records + [e])[..|records|] == records;
  }

  /** The total only reads the lists of the NPIs it walks. */
  lemma {:induction false} LedgerTotalFrame(npis: seq<string>, d1: map<string, seq<FinancialRecord>>,
                                            d2: map<string, seq<FinancialRecord>>, year: int)
    requires forall k :: k in npis ==> k in d1 && k in d2 && d1[k] == d2[k]
    ensures LedgerTotal(npis, d1, year) == LedgerTotal(npis, d2, year)
    decreases |npis|
  {
    if |npis| > 0 {
      LedgerTotalFrame(npis[..|npis| - 1], d1, d2, year);
    }
  }

  /** Replacing one NPI's list, listed exactly once, changes the total by the difference of that list's totals. */
  lemma {:induction false} LedgerTotalUpdate(npis: seq<string>, data: map<string, seq<FinancialRecord>>, npi: string,
                                             records: seq<FinancialRecord>, year: int)
    requires forall k :: k in npis ==> k in data
    requires forall i, j :: 0 <= i < j < |npis| ==> npis[i] != npis[j]
    ensures LedgerTotal(npis, data[npi := records], year)
            == LedgerTotal(npis, data, year)
               + (if npi in npis then RecordsTotal(records, year) - RecordsTotal(data[npi], year) else 0.0)
    decreases |npis|
  {
    if |npis| > 0 {
      var init := npis[..|npis| - 1];
      var last := npis[|npis| - 1];
      LedgerTotalUpdate(init, data, npi, records, year);
      if last == npi {
        assert npi !in init;
      } else {
        assert npi in npis <==> npi in init;
      }
    }
  }

  /**
   * Saving a record raises the total of its investigation year by the record's
   * total and leaves every other year's total unchanged.
   */
  lemma SaveAddsToAnnualTotal(npis: seq<string>, data: map<string, seq<FinancialRecord>>, npi: string,
                              record: FinancialRecord, year: int)
    requires forall i, j :: 0 <= i < j < |npis| ==> npis[i] != npis[j]
    requires forall k :: k in data <==> k in npis
    ensures var data' := data[npi := (if npi in data then data[npi] else []) + [record]];
            var npis' := if npi in data then npis else npis + [npi];
            (forall k :: k in npis' ==> k in data')
            && LedgerTotal(npis', data', year) == LedgerTotal(npis, data, year) + YearShare(record, year)
  {
    if npi in data {
      SaveToListedNpi(npis, data, npi, record, year);
    } else {
      SaveToNewNpi(npis, data, npi, record, year);
    }
  }

  lemma SaveToListedNpi(npis: seq<string>, data: map<string, seq<FinancialRecord>>, npi: string,
                        record: FinancialRecord, year: int)
    requires forall i, j :: 0 <= i < j < |npis| ==> npis[i] != npis[j]
    requires forall k :: k in data <==> k in npis
    requires npi in data
    ensures LedgerTotal(npis, data[npi := data[npi] + [record]], year) == LedgerTotal(npis, data, year) + YearShare(record, year)
  {
    LedgerTotalUpdate(npis, data, npi, data[npi] + [record], year);
    RecordsTotalAppend(data[npi], record, year);
  }

  lemma SaveToNewNpi(npis: seq<string>, data: map<string, seq<FinancialRecord>>, npi: string,
                     record: FinancialRecord, year: int)
    requires forall k :: k in data <==> k in npis
    requires npi !in data
    ensures forall k :: k in npis + [npi] ==> k in data[npi := [record]]
    ensures LedgerTotal(npis + [npi], data[npi := [record]], year) == LedgerTotal(npis, data, year) + YearShare(record, year)
  {
    var data' := data[npi := [record]];
    var npis' := npis + [npi];
    assert npis'[..|npis|] == npis;
    LedgerTotalFrame(npis, data, data', year);
    assert RecordsTotal([record], year) == YearShare(record, year) by {
      assert [record][..0] == [];
    }
    assert LedgerTotal(npis', data', year) == LedgerTotal(npis, data', year) + RecordsTotal(data'[npi], year);
  }

  /** A ledger whose stored amounts are non-negative has a non-negative total for every year. */
  lemma {:induction false} LedgerTotalNonNegative(npis: seq<string>, data: map<string, seq<FinancialRecord>>, year: int)
    requires forall k :: k in npis ==> k in data
    requires forall k, i :: k in data && 0 <= i < |data[k]| ==> NonNegativeAmounts(data[k][i])
    ensures LedgerTotal(npis, data, year) >= 0.0
    decreases |npis|
  {
    if |npis| > 0 {
      LedgerTotalNonNegative(npis[..|npis| - 1], data, year);
      RecordsTotalNonNegative(data[npis[|npis| - 1]], year);
    }
  }

  lemma {:induction false} RecordsTotalNonNegative(records: seq<FinancialRecord>, year: int)
    requires forall i :: 0 <= i < |records| ==> NonNegativeAmounts(records[i])
    ensures RecordsTotal(records, year) >= 0.0
    decreases |records|
  {
    if |records| > 0 {
      RecordsTotalNonNegative(records[..|records| - 1], year);
      assert NonNegativeAmounts(records[|records| - 1]);
    }
  }

  /** A year no record names totals zero, and so does an empty ledger. */
  lemma {:induction false} UnmentionedYearTotalsZero(npis: seq<string>, data: map<string, seq<FinancialRecord>>, year: int)
    requires forall k :: k in npis ==> k in data
    requires forall k, i :: k in data && 0 <= i < |data[k]| ==> data[k][i].investigationYear != Some(year)
    ensures LedgerTotal(npis, data, year) == 0.0
    decreases |npis|
  {
    if |npis| > 0 {
      UnmentionedYearTotalsZero(npis[..|npis| - 1], data, year);
      var records := data[npis[|npis| - 1]];
      RecordsTotalZero(records, year);
    }
  }

  lemma {:induction false} RecordsTotalZero(records: seq<FinancialRecord>, year: int)
    requires forall i :: 0 <= i < |records| ==> records[i].investigationYear != Some(year)
    ensures RecordsTotal(records, year) == 0.0
    decreases |records|
  {
    if |records| > 0 {
      RecordsTotalZero(records[..|records| - 1], year);
    }
  }

  /** After a save, the NPI is listed among the providers and its last record is the one saved. */
  method SaveThenRead(ledger: FraudFinancialService, npi: string, record: FinancialRecord)
    returns (last: Option<FinancialRecord>, providers: seq<string>)
    requires ledger.Valid()
    modifies ledger
    ensures last == Some(record)
    ensures npi in providers
  {
    ledger.SaveFinancialData(npi, record);
    last := ledger.GetFinancialData(npi);
    providers := ledger.GetAllProvidersWithFinancialData();
  }
}
