/**
 * The OIG exclusion check: the exclusion list is a table of cells; its NPI
 * column is found by name, rewritten in place as strings, and the first row
 * whose NPI equals the one asked for is formatted into an exclusion record.
 */
module OigService {
  import opened Py
  import opened Text

  /** One table cell as the CSV reader produced it. */
  datatype Cell = CStr(s: string) | CInt(i: int) | CFloat(f: real) | CNa

  /** `str(cell)`, which is also what `astype(str)` writes: a missing value becomes `nan`. */
  function CellString(c: Cell): string
  {
    match c
    case CStr(s) => s
    case CInt(i) => IntToString(i)
    case CFloat(f) => ReprFloat(f)
    case CNa => "nan"
  }

  /** A row, indexed by column name. */
  type Row = map<string, Cell>

  /** The exclusion authorities and their descriptions, keyed by the list's `EXCLTYPE` code. */
  const ExclusionTypes: map<string, string> := map[
    "1128a1" := "Mandatory - Medicare/Medicaid conviction",
    "1128a2" := "Mandatory - Patient abuse conviction",
    "1128a3" := "Mandatory - Felony conviction",
    "1128b1" := "Permissive - Misdemeanor conviction",
    "1128b2" := "Permissive - License revocation",
    "1128b4" := "Permissive - Default on health education loan"]

  function ExclusionDescription(code: string): (d: string)
    ensures code in ExclusionTypes ==> d == ExclusionTypes[code]
    ensures code !in ExclusionTypes ==> d == "Unknown exclusion type"
  {
    if code in ExclusionTypes then ExclusionTypes[code] else "Unknown exclusion type"
  }

  /** The value `get_value` settles on: the first listed key present with a non-missing cell, as a string. */
  function ValueOf(record: Row, keys: seq<string>, default: Option<string>): (r: Option<string>)
    ensures default.Some? ==> r.Some?
  {
    if |keys| == 0 then default
    else if keys[0] in record && !record[keys[0]].CNa? then Some(CellString(record[keys[0]]))
    else ValueOf(record, keys[1..], default)
  }

  /** `get_value`: the loop over key variations with an early return. */
  method GetValue(record: Row, keys: seq<string>, default: Option<string>) returns (r: Option<string>)
    ensures r == ValueOf(record, keys, default)
  {
    var i := 0;
    while i < |keys|
      invariant 0 <= i <= |keys|
      invariant ValueOf(record, keys, default) == ValueOf(record, keys[i..], default)
    {
      assert keys[i..][1..] == keys[i + 1..];
      if keys[i] in record {
        var val := record[keys[i]];
        if !val.CNa? {
          return Some(CellString(val));
        }
      }
      i := i + 1;
    }
    return default;
  }

  /** A key holds a usable value in the record. */
  predicate Usable(record: Row, key: string)
  {
    key in record && !record[key].CNa?
  }

  /** `get_value` returns the string form of the first usable key, and the default when there is none. */
  lemma {:induction false} ValueOfIsFirstUsable(record: Row, keys: seq<string>, default: Option<string>)
    ensures (forall i :: 0 <= i < |keys| ==> !Usable(record, keys[i])) ==> ValueOf(record, keys, default) == default
    ensures forall i :: 0 <= i < |keys| && Usable(record, keys[i]) && (forall j :: 0 <= j < i ==> !Usable(record, keys[j]))
              ==> ValueOf(record, keys, default) == Some(CellString(record[keys[i]]))
    decreases |keys|
  {
    if |keys| > 0 {
      ValueOfIsFirstUsable(record, keys[1..], default);
      forall i | 0 <= i < |keys| && Usable(record, keys[i]) && (forall j :: 0 <= j < i ==> !Usable(record, keys[j]))
        ensures ValueOf(record, keys, default) == Some(CellString(record[keys[i]]))
      {
        if i > 0 {
          assert !Usable(record, keys[0]);
          assert keys[1..][i - 1] == keys[i];
          assert forall j :: 0 <= j < i - 1 ==> keys[1..][j] == keys[j + 1];
        }
      }
      if forall i :: 0 <= i < |keys| ==> !Usable(record, keys[i]) {
        assert !Usable(record, keys[0]);
        assert forall i :: 0 <= i < |keys| - 1 ==> keys[1..][i] == keys[i + 1];
      }
    }
  }

  /** The formatted exclusion of one matched row. */
  datatype ExclusionRecord = ExclusionRecord(
    exclusionType: string,
    exclusionDate: string,
    reinstatementDate: Option<string>,
    exclusionDescription: string,
    providerName: string,
    state: string)

  const TypeKeys := ["EXCLTYPE", "EXCLUSION_TYPE", "TYPE"]
  const FirstNameKeys := ["FIRSTNAME", "FIRST_NAME", "FNAME"]
  const LastNameKeys := ["LASTNAME", "LAST_NAME", "LNAME"]
  const DateKeys := ["EXCLDATE", "EXCLUSION_DATE", "DATE"]
  const ReinstatementKeys := ["REINSTDATE", "REINSTATEMENT_DATE"]
  const StateKeys := ["STATE", "PROVIDER_STATE"]

  /** `f"{first} {last}".strip() or "Unknown"` */
  function DisplayName(first: string, last: string): (n: string)
    ensures n != ""
    ensures Strip(first + " " + last) != "" ==> n == Strip(first + " " + last)
  {
    var joined := Strip(first + " " + last);
    if joined == "" then "Unknown" else joined
  }

  /** The record `_format_exclusion_data` builds, with the listed defaults for absent columns. */
  function FormattedRecord(record: Row): ExclusionRecord
  {
    var exclusionType := ValueOf(record, TypeKeys, Some("Unknown")).value;
    ExclusionRecord(
      exclusionType,
      ValueOf(record, DateKeys, Some("Unknown")).value,
      ValueOf(record, ReinstatementKeys, None),
      ExclusionDescription(exclusionType),
      DisplayName(ValueOf(record, FirstNameKeys, Some("")).value, ValueOf(record, LastNameKeys, Some("")).value),
      ValueOf(record, StateKeys, Some("Unknown")).value)
  }

  /** `_format_exclusion_data` */
  method FormatExclusionData(record: Row) returns (r: ExclusionRecord)
    ensures r == FormattedRecord(record)
  {
    var exclusionType := GetValue(record, TypeKeys, Some("Unknown"));
    var description := ExclusionDescription(exclusionType.value);
    var first := GetValue(record, FirstNameKeys, Some(""));
    var last := GetValue(record, LastNameKeys, Some(""));
    var date := GetValue(record, DateKeys, Some("Unknown"));
    var reinstated := GetValue(record, ReinstatementKeys, None);
    var state := GetValue(record, StateKeys, Some("Unknown"));
    r := ExclusionRecord(exclusionType.value, date.value, reinstated, description,
                         DisplayName(first.value, last.value), state.value);
  }

  /** A row without any type column is of type `Unknown` with the unknown-type description. */
  lemma MissingTypeIsUnknown(record: Row)
    requires forall k :: k in TypeKeys ==> k !in record
    ensures FormattedRecord(record).exclusionType == "Unknown"
    ensures FormattedRecord(record).exclusionDescription == "Unknown exclusion type"
  {
    ValueOfIsFirstUsable(record, TypeKeys, Some("Unknown"));
    assert "Unknown" !in ExclusionTypes;
  }

  /** A row whose `EXCLTYPE` is a known code is described from the table. */
  lemma KnownTypeDescribed(record: Row, code: string)
    requires "EXCLTYPE" in record && record["EXCLTYPE"] == CStr(code) && code in ExclusionTypes
    ensures FormattedRecord(record).exclusionType == code
    ensures FormattedRecord(record).exclusionDescription == ExclusionTypes[code]
  {
  }

  /** A row with neither name column is listed under the name `Unknown`. */
  lemma MissingNameIsUnknown(record: Row)
    requires forall k :: k in FirstNameKeys + LastNameKeys ==> k !in record
    ensures FormattedRecord(record).providerName == "Unknown"
  {
    ValueOfIsFirstUsable(record, FirstNameKeys, Some(""));
    ValueOfIsFirstUsable(record, LastNameKeys, Some(""));
    assert " " == [' '] && IsSpace(' ');
    assert StripLeft(" ") == StripLeft(""[..]) by { assert " "[1..] == ""; }
  }

  /** The payload the OIG service hands on. */
  datatype OigPayload =
    | OigExcluded(record: ExclusionRecord)          // `excluded` True with the formatted record
    | OigNotExcluded                                // `excluded` False, status "Not excluded"
    | OigFailed(status: Option<string>, error: string)  // an `error` payload, `excluded` False where present

  predicate IsNpiColumnName(c: string)
  {
    Upper(c) in ["NPI", "NATIONAL_PROVIDER_IDENTIFIER"]
  }

  /** The first column whose upper-cased name is an NPI column name. */
  function NpiColumn(columns: seq<string>): (r: Option<string>)
    ensures r.Some? ==> r.value in columns && IsNpiColumnName(r.value)
    ensures r.None? <==> forall c :: c in columns ==> !IsNpiColumnName(c)
  {
    if |columns| == 0 then None
    else if IsNpiColumnName(columns[0]) then Some(columns[0])
    else NpiColumn(columns[1..])
  }

  /** The rows after `table[col] = table[col].astype(str)`. */
  function AsStrColumn(rows: seq<Row>, col: string): (r: seq<Row>)
    ensures |r| == |rows|
    ensures forall i :: 0 <= i < |rows| ==> r[i].Keys == rows[i].Keys
  {
    seq(|rows|, i requires 0 <= i < |rows| =>
      if col in rows[i] then rows[i][col := CStr(CellString(rows[i][col]))] else rows[i])
  }

  predicate Matches(row: Row, col: string, npi: string)
  {
    col in row && row[col] == CStr(npi)
  }

  /** The position of the first row whose `col` cell is the string `npi`, or `|rows|`. */
  function FirstMatch(rows: seq<Row>, col: string, npi: string): (k: nat)
    ensures k <= |rows|
    ensures k < |rows| ==> Matches(rows[k], col, npi)
    ensures forall j :: 0 <= j < k ==> !Matches(rows[j], col, npi)
  {
    if |rows| == 0 then 0
    else if Matches(rows[0], col, npi) then 0
    else 1 + FirstMatch(rows[1..], col, npi)
  }

  /** The result of `check_provider_exclusion` on a loaded table. */
  function ExclusionCheck(columns: seq<string>, rows: seq<Row>, npi: string): OigPayload
  {
    match NpiColumn(columns)
    case None => OigFailed(Some("Data unavailable"), "NPI column not found")
    case Some(col) =>
      var converted := AsStrColumn(rows, col);
      var k := FirstMatch(converted, col, npi);
      if k < |converted| then OigExcluded(FormattedRecord(converted[k])) else OigNotExcluded
  }

  /** The exclusion list, as the service caches it between checks. */
  class ExclusionTable {
    var columns: seq<string>
    var rows: seq<Row>

    constructor (columns: seq<string>, rows: seq<Row>)
      ensures this.columns == columns && this.rows == rows
    {
      this.columns := columns;
      this.rows := rows;
    }

    /** The body of `check_provider_exclusion` once the table is loaded: the NPI column is converted in place. */
    method Check(npi: string) returns (r: OigPayload)
      modifies this
      ensures r == ExclusionCheck(old(columns), old(rows), npi)
      ensures columns == old(columns)
      ensures NpiColumn(columns).None? ==> rows == old(rows)
      ensures NpiColumn(columns).Some? ==> rows == AsStrColumn(old(rows), NpiColumn(columns).value)
    {
      var npiColumn: Option<string> := None;
      var i := 0;
      while i < |columns|
        invariant 0 <= i <= |columns|
        invariant NpiColumn(columns) == NpiColumn(columns[i..])
      {
        assert columns[i..][1..] == columns[i + 1..];
        if IsNpiColumnName(columns[i]) {
          npiColumn := Some(columns[i]);
          break;
        }
        i := i + 1;
      }
      if npiColumn.None? {
        return OigFailed(Some("Data unavailable"), "NPI column not found");
      }
      var col := npiColumn.value;
      rows := AsStrColumn(rows, col);
      var k := FirstMatch(rows, col, npi);
      if k < |rows| {
        var record := FormatExclusionData(rows[k]);
        return OigExcluded(record);
      }
      return OigNotExcluded;
    }
  }

  /** `check_provider_exclusion`: a table that fails to load gives the check-failed payload. */
  method CheckProviderExclusion(loaded: Outcome<ExclusionTable>, npi: string) returns (r: OigPayload)
    modifies if loaded.Returned? then {loaded.value} else {}
    ensures loaded.Raised? ==> r == OigFailed(Some("Check failed"), loaded.error)
    ensures loaded.Returned? ==> r == ExclusionCheck(old(loaded.value.columns), old(loaded.value.rows), npi)
    ensures loaded.Returned? ==> loaded.value.columns == old(loaded.value.columns)
    ensures loaded.Returned? ==>
              loaded.value.rows == (if NpiColumn(old(loaded.value.columns)).Some?
                                    then AsStrColumn(old(loaded.value.rows), NpiColumn(old(loaded.value.columns)).value)
                                    else old(loaded.value.rows))
  {
    if loaded.Raised? {
      return OigFailed(Some("Check failed"), loaded.error);
    }
    r := loaded.value.Check(npi);
  }

  /**
   * A table without an NPI column gives the error payload; otherwise the
   * provider is excluded exactly when some row's NPI, as a string, is the
   * one asked for, and the record formatted is that of the first such row.
   */
  lemma ExclusionCheckResult(columns: seq<string>, rows: seq<Row>, npi: string)
    ensures ExclusionCheck(columns, rows, npi).OigFailed? <==> NpiColumn(columns).None?
    ensures NpiColumn(columns).Some? ==>
              var col := NpiColumn(columns).value;
              (ExclusionCheck(columns, rows, npi).OigExcluded? <==>
                 exists k :: 0 <= k < |rows| && col in rows[k] && CellString(rows[k][col]) == npi)
    ensures NpiColumn(columns).Some? && ExclusionCheck(columns, rows, npi).OigExcluded? ==>
              var col := NpiColumn(columns).value;
              exists k :: 0 <= k < |rows| && col in rows[k] && CellString(rows[k][col]) == npi
                && (forall j :: 0 <= j < k ==> !(col in rows[j] && CellString(rows[j][col]) == npi))
                && ExclusionCheck(columns, rows, npi).record == FormattedRecord(AsStrColumn(rows, col)[k])
  {
    if NpiColumn(columns).Some? {
      var col := NpiColumn(columns).value;
      var converted := AsStrColumn(rows, col);
      assert forall k :: 0 <= k < |rows| ==>
               (Matches(converted[k], col, npi) <==> col in rows[k] && CellString(rows[k][col]) == npi);
      var k := FirstMatch(converted, col, npi);
      if k < |rows| {
        assert Matches(converted[k], col, npi);
      }
    }
  }

  /** Converting the NPI column a second time changes nothing, so checks on the cached table agree with the first. */
  lemma RepeatedCheckAgrees(columns: seq<string>, rows: seq<Row>, npi: string)
    requires NpiColumn(columns).Some?
    ensures AsStrColumn(AsStrColumn(rows, NpiColumn(columns).value), NpiColumn(columns).value)
            == AsStrColumn(rows, NpiColumn(columns).value)
    ensures ExclusionCheck(columns, AsStrColumn(rows, NpiColumn(columns).value), npi) == ExclusionCheck(columns, rows, npi)
  {
    var col := NpiColumn(columns).value;
    var once := AsStrColumn(rows, col);
    var twice := AsStrColumn(once, col);
    forall i | 0 <= i < |rows| ensures twice[i] == once[i] {
      if col in rows[i] {
        assert once[i][col] == CStr(CellString(rows[i][col]));
      }
    }
  }

  /** A dropped trailing zero never removes the decimal point. */
  lemma {:induction false} StripTrailingZerosKeepsPoint(s: string, k: nat)
    requires k < |s| && s[k] == '.'
    ensures exists j :: 0 <= j < |StripTrailingZeros(s)| && StripTrailingZeros(s)[j] == '.'
    decreases |s|
  {
    if |s| > 1 && s[|s| - 1] == '0' && s[|s| - 2] != '.' {
      assert k < |s| - 1 && s[..|s| - 1][k] == '.';
      assert StripTrailingZeros(s) == StripTrailingZeros(s[..|s| - 1]);
      StripTrailingZerosKeepsPoint(s[..|s| - 1], k);
    } else {
      assert StripTrailingZeros(s) == s;
    }
  }

  /** The string form of a float always holds a decimal point. */
  lemma ReprFloatHasPoint(x: real)
    ensures exists j :: 0 <= j < |ReprFloat(x)| && ReprFloat(x)[j] == '.'
  {
    if x == x.Floor as real {
      var s := IntToString(x.Floor) + ".0";
      assert ReprFloat(x) == s && s[|s| - 2] == '.';
    } else {
      var f := FormatFixed(x, 6);
      StripTrailingZerosKeepsPoint(f, |f| - 7);
      assert ReprFloat(x) == StripTrailingZeros(FormatFixed(x, 6));
    }
  }

  /**
   * An NPI cell the CSV reader read as a float (as it does for an NPI column
   * with blank cells) or a missing cell never matches a ten-digit NPI.
   */
  lemma FloatCellsNeverMatch(c: Cell, npi: string)
    requires IsDigits(npi)
    requires c.CFloat? || c.CNa?
    ensures CellString(c) != npi
  {
    if c.CFloat? {
      ReprFloatHasPoint(c.f);
      var j :| 0 <= j < |CellString(c)| && CellString(c)[j] == '.';
      assert !IsAsciiDigit(CellString(c)[j]);
    } else {
      assert !IsAsciiDigit("nan"[0]);
    }
  }
}
