/**
 * The legal-snippet classifier: each search hit is typed by keyword
 * precedence (conviction, settlement, pending, lawsuit), scored for
 * relevance to the provider by additive bonuses, and, when typed and
 * relevant enough, turned into a legal record; the records are sorted by
 * relevance and deduplicated by signature.
 *
 * Date extraction is a function parameter (`extractDate`); the year found in
 * an extracted date follows the four-digit `19xx`/`20xx` word pattern. The
 * current year is a parameter.
 */
module LegalParser {
  import opened Text
  import opened Py
  import opened Models
  import opened Sequences
  import opened WebSearch

  const ConvictionKeywords: seq<string> := [
    "convicted", "sentenced", "pleaded guilty", "plea deal", "found guilty",
    "criminal conviction", "felony", "misdemeanor", "prison", "jail"]

  const LawsuitKeywords: seq<string> := [
    "lawsuit", "sued", "settlement", "litigation", "civil suit",
    "malpractice", "negligence", "damages", "plaintiff", "defendant"]

  const PendingKeywords: seq<string> := [
    "pending", "alleged", "accused", "charges", "indictment",
    "under investigation", "facing charges", "charged with"]

  const SettlementKeywords: seq<string> := [
    "settled", "settlement", "agreed to pay", "reached settlement", "settled out of court"]

  const OfficialDomains: seq<string> := [
    "court", "gov", "uscourts", "justice", "doj", "fbi", "state", "county", "district", "supreme"]

  /** A case type (missing when nothing legal was recognised) and a status. */
  datatype Classification = Classification(caseType: Option<string>, status: string)

  // ----- Classification -----

  function ClassifyLegalCase(text: string): Classification
  {
    var t := Lower(text);
    if AnyIn(ConvictionKeywords, t) then Classification(Some("conviction"), "convicted")
    else if AnyIn(SettlementKeywords, t) then Classification(Some("lawsuit"), "settled")
    else if AnyIn(PendingKeywords, t) then
      if Contains(t, "lawsuit") || Contains(t, "sued") then Classification(Some("lawsuit"), "pending")
      else Classification(Some("allegation"), "pending")
    else if AnyIn(LawsuitKeywords, t) then
      if Contains(t, "settled") || Contains(t, "settlement") then Classification(Some("lawsuit"), "settled")
      else if Contains(t, "dismissed") then Classification(Some("lawsuit"), "dismissed")
      else Classification(Some("lawsuit"), "pending")
    else Classification(None, "unknown")
  }

  lemma KeywordFound(keys: seq<string>, i: nat, t: string)
    requires i < |keys|
    ensures Contains(t, keys[i]) ==> AnyIn(keys, t)
  {
    assert keys[i] in keys;
  }

  /**
   * The classification precedence: a conviction keyword decides the case
   * whatever else the text says; otherwise a settlement keyword makes a
   * settled lawsuit; otherwise a pending keyword makes a pending lawsuit when
   * "lawsuit" or "sued" appears and a pending allegation when not; otherwise
   * a lawsuit keyword makes a dismissed lawsuit when "dismissed" appears and a
   * pending one when not; a text with none of the keywords is not typed.
   */
  lemma ClassificationPrecedence(text: string)
    ensures var t := Lower(text);
      var c := ClassifyLegalCase(text);
      (AnyIn(ConvictionKeywords, t) ==> c == Classification(Some("conviction"), "convicted"))
      && (!AnyIn(ConvictionKeywords, t) && AnyIn(SettlementKeywords, t) ==> c == Classification(Some("lawsuit"), "settled"))
      && (!AnyIn(ConvictionKeywords, t) && !AnyIn(SettlementKeywords, t) && AnyIn(PendingKeywords, t) ==>
            c == Classification(if Contains(t, "lawsuit") || Contains(t, "sued") then Some("lawsuit") else Some("allegation"), "pending"))
      && (!AnyIn(ConvictionKeywords, t) && !AnyIn(SettlementKeywords, t) && !AnyIn(PendingKeywords, t) && AnyIn(LawsuitKeywords, t) ==>
            c == Classification(Some("lawsuit"), if Contains(t, "dismissed") then "dismissed" else "pending"))
      && (!AnyIn(ConvictionKeywords, t) && !AnyIn(SettlementKeywords, t) && !AnyIn(PendingKeywords, t) && !AnyIn(LawsuitKeywords, t) ==>
            c == Classification(None, "unknown"))
  {
    var t := Lower(text);
    KeywordFound(SettlementKeywords, 0, t);
    KeywordFound(SettlementKeywords, 1, t);
  }

  /** A text is typed exactly when it contains a keyword of one of the four lists; typed cases are convictions, lawsuits or allegations. */
  lemma ClassificationShape(text: string)
    ensures var t := Lower(text);
      var c := ClassifyLegalCase(text);
      (c.caseType.None? <==> !(AnyIn(ConvictionKeywords, t) || AnyIn(SettlementKeywords, t)
                                || AnyIn(PendingKeywords, t) || AnyIn(LawsuitKeywords, t)))
      && (c.caseType.None? <==> c.status == "unknown")
      && (c.caseType.Some? ==> c.caseType.value in ["conviction", "lawsuit", "allegation"])
      && (c.caseType == Some("conviction") <==> c.status == "convicted")
      && (c.caseType == Some("allegation") ==> c.status == "pending")
  {
  }

  /** A settled lawsuit is reported exactly when a settlement keyword, and no conviction keyword, occurs. */
  lemma SettledIff(text: string)
    ensures var t := Lower(text);
      ClassifyLegalCase(text).status == "settled" <==> !AnyIn(ConvictionKeywords, t) && AnyIn(SettlementKeywords, t)
  {
    ClassificationPrecedence(text);
  }

  /** The conviction example: any text saying "convicted", such as "Dr. Smith was convicted of healthcare fraud", is a conviction. */
  lemma ConvictionExample(before: string, after: string)
    ensures ClassifyLegalCase(before + "convicted" + after) == Classification(Some("conviction"), "convicted")
  {
    var t := Lower(before + "convicted" + after);
    LowerConcat(before + "convicted", after);
    LowerConcat(before, "convicted");
    assert Lower("convicted") == "convicted";
    assert t == Lower(before) + ("convicted" + Lower(after));
    ContainsMiddle(Lower(before), "convicted", Lower(after));
    KeywordFound(ConvictionKeywords, 0, t);
  }

  // ----- Relevance -----

  /** `\w` for the ASCII range: letters, digits and `_`. */
  predicate IsWordChar(c: char)
  {
    IsAlnum(c) || c == '_'
  }

  function DigitValue(c: char): int
  {
    c as int - '0' as int
  }

  /** A whole-word `19dd` or `20dd` starts at position `i` of `s`. */
  predicate YearAt(s: string, i: nat)
  {
    i + 4 <= |s|
    && ((s[i] == '1' && s[i + 1] == '9') || (s[i] == '2' && s[i + 1] == '0'))
    && IsAsciiDigit(s[i + 2]) && IsAsciiDigit(s[i + 3])
    && (i == 0 || !IsWordChar(s[i - 1]))
    && (i + 4 == |s| || !IsWordChar(s[i + 4]))
  }

  function YearValue(s: string, i: nat): (y: int)
    requires YearAt(s, i)
    ensures 1900 <= y <= 2099
  {
    1000 * DigitValue(s[i]) + 100 * DigitValue(s[i + 1]) + 10 * DigitValue(s[i + 2]) + DigitValue(s[i + 3])
  }

  /** The leftmost year at or after position `i`. */
  function FindYearFrom(s: string, i: nat): (r: Option<int>)
    ensures r.Some? ==> exists k :: i <= k && YearAt(s, k) && r.value == YearValue(s, k)
                                    && (forall j :: i <= j < k ==> !YearAt(s, j))
    ensures r.None? ==> forall j :: i <= j ==> !YearAt(s, j)
    decreases |s| - i
  {
    if i + 4 > |s| then None
    else if YearAt(s, i) then Some(YearValue(s, i))
    else FindYearFrom(s, i + 1)
  }

  /** The year found by searching a date for `\b(19|20)\d{2}\b`. */
  function FindYear(date: string): (r: Option<int>)
    ensures r.Some? ==> 1900 <= r.value <= 2099
  {
    FindYearFrom(date, 0)
  }

  /** The recency bonus: 0.3 when the date holds a year at most two years before the current one (later years included). */
  function RecencyBonus(date: Option<string>, currentYear: int): real
  {
    if Filled(date) then
      var year := FindYear(date.value);
      if year.Some? && currentYear - year.value <= 2 then 0.3 else 0.0
    else 0.0
  }

  predicate IsOfficialSource(url: string)
  {
    AnyIn(OfficialDomains, Lower(url))
  }

  /** The uncapped sum of the six bonuses. */
  function RelevanceSum(text: string, url: string, providerName: string, npi: string, specialty: Option<string>,
                        location: Option<string>, extractDate: string -> Option<string>, currentYear: int): (s: real)
    ensures 0.0 <= s <= 2.0
  {
    var t := Lower(text);
    (if Contains(t, Lower(providerName)) then 0.3 else 0.0)
    + (if Contains(text, npi) || Contains(url, npi) then 0.5 else 0.0)
    + (if Filled(specialty) && Contains(t, Lower(specialty.value)) then 0.2 else 0.0)
    + (if Filled(location) && Contains(t, Lower(location.value)) then 0.2 else 0.0)
    + (if IsOfficialSource(url) then 0.5 else 0.0)
    + RecencyBonus(extractDate(text), currentYear)
  }

  /** The relevance of a hit: the bonuses' sum, capped at 1.0. */
  function Relevance(text: string, url: string, providerName: string, npi: string, specialty: Option<string>,
                     location: Option<string>, extractDate: string -> Option<string>, currentYear: int): (r: real)
    ensures 0.0 <= r <= 1.0
  {
    MinReal(1.0, RelevanceSum(text, url, providerName, npi, specialty, location, extractDate, currentYear))
  }

  method CalculateRelevance(text: string, url: string, providerName: string, npi: string, specialty: Option<string>,
                            location: Option<string>, extractDate: string -> Option<string>, currentYear: int)
    returns (relevance: real)
    ensures relevance == Relevance(text, url, providerName, npi, specialty, location, extractDate, currentYear)
    ensures 0.0 <= relevance <= 1.0
  {
    var score := 0.0;
    var textLower := Lower(text);
    var nameLower := Lower(providerName);
    ghost var b1 := if Contains(textLower, nameLower) then 0.3 else 0.0;
    if Contains(textLower, nameLower) {
      score := score + 0.3;
    }
    ghost var b2 := b1 + if Contains(text, npi) || Contains(url, npi) then 0.5 else 0.0;
    if Contains(text, npi) || Contains(url, npi) {
      score := score + 0.5;
    }
    assert score == b2;
    ghost var b3 := b2 + if Filled(specialty) && Contains(textLower, Lower(specialty.value)) then 0.2 else 0.0;
    if Filled(specialty) && Contains(textLower, Lower(specialty.value)) {
      score := score + 0.2;
    }
    ghost var b4 := b3 + if Filled(location) && Contains(textLower, Lower(location.value)) then 0.2 else 0.0;
    if Filled(location) && Contains(textLower, Lower(location.value)) {
      score := score + 0.2;
    }
    assert score == b4;
    ghost var b5 := b4 + if IsOfficialSource(url) then 0.5 else 0.0;
    if IsOfficialSource(url) {
      score := score + 0.5;
    }
    assert score == b5;
    var date := extractDate(text);
    if Filled(date) {
      var yearMatch := FindYear(date.value);
      if yearMatch.Some? {
        var year := yearMatch.value;
        if currentYear - year <= 2 {
          score := score + 0.3;
        }
      }
    }
    assert score == b5 + RecencyBonus(date, currentYear);
    relevance := MinReal(1.0, score);
  }

  /** An NPI mention in the text or URL together with an official source already gives full relevance. */
  lemma NpiAndOfficialSourceGiveFullRelevance(text: string, url: string, providerName: string, npi: string,
                                              specialty: Option<string>, location: Option<string>,
                                              extractDate: string -> Option<string>, currentYear: int)
    requires Contains(text, npi) || Contains(url, npi)
    requires IsOfficialSource(url)
    ensures Relevance(text, url, providerName, npi, specialty, location, extractDate, currentYear) == 1.0
  {
  }

  /** `"" in s` always holds, so an empty provider name or NPI always earns its bonus. */
  lemma EmptyNameOrNpiAlwaysMatches(text: string, url: string, providerName: string, npi: string,
                                    specialty: Option<string>, location: Option<string>,
                                    extractDate: string -> Option<string>, currentYear: int)
    ensures providerName == "" ==> Relevance(text, url, providerName, npi, specialty, location, extractDate, currentYear) >= 0.3
    ensures npi == "" ==> Relevance(text, url, providerName, npi, specialty, location, extractDate, currentYear) >= 0.5
  {
    assert IsPrefix("", Lower(text)) && IsPrefix("", text);
  }

  /** A year counts as recent when it is at most two years old, so a year after the current one counts too. */
  lemma RecencyIncludesFutureYears(date: string, currentYear: int)
    requires date != ""
    requires FindYear(date).Some?
    ensures RecencyBonus(Some(date), currentYear) == 0.3 <==> FindYear(date).value >= currentYear - 2
    ensures FindYear(date).value > currentYear ==> RecencyBonus(Some(date), currentYear) == 0.3
  {
  }

  /** Without any match the relevance is 0, and it is the plain sum of the bonuses whenever that sum is at most 1. */
  lemma RelevanceIsCappedSum(text: string, url: string, providerName: string, npi: string,
                             specialty: Option<string>, location: Option<string>,
                             extractDate: string -> Option<string>, currentYear: int)
    ensures var s := RelevanceSum(text, url, providerName, npi, specialty, location, extractDate, currentYear);
      var r := Relevance(text, url, providerName, npi, specialty, location, extractDate, currentYear);
      (s <= 1.0 ==> r == s) && (s > 1.0 ==> r == 1.0)
  {
  }

  // ----- Descriptions -----

  /** The title if non-empty, else the snippet, prefixed by the title-cased case type and the status. */
  function DescriptionText(title: string, snippet: string, caseType: string, status: string): string
  {
    var base := if title != "" then title else snippet;
    if caseType != "" && status != "" then Title(caseType) + " (" + status + "): " + base else base
  }

  /** Texts longer than 500 characters are cut to 497 and marked with `...`. */
  function Truncate(d: string): (r: string)
    ensures |r| <= 500
    ensures |d| <= 500 ==> r == d
    ensures |d| > 500 ==> |r| == 500 && r[..497] == d[..497] && r[497..] == "..."
  {
    if |d| > 500 then d[..497] + "..." else d
  }

  function BuildDescription(title: string, snippet: string, caseType: string, status: string): (r: string)
    ensures |r| <= 500
  {
    Truncate(DescriptionText(title, snippet, caseType, status))
  }

  /**
   * A description begins with the untruncated text, which starts with the
   * title-cased case type and status and then the title (or the snippet
   * when the title is empty); the whole text is kept when it fits in 500
   * characters.
   */
  lemma DescriptionContents(title: string, snippet: string, caseType: string, status: string)
    requires caseType != "" && status != ""
    ensures var full := Title(caseType) + " (" + status + "): " + (if title != "" then title else snippet);
      var d := BuildDescription(title, snippet, caseType, status);
      (|full| <= 500 ==> d == full)
      && (|full| > 500 ==> IsPrefix(d[..497], full) && d[497..] == "...")
  {
  }

  // ----- Deduplication and ordering -----

  /** Case type, status and the first 50 characters of the description, joined by `_`. */
  function Signature(li: LegalInformation): string
  {
    li.caseType + "_" + li.status + "_" + Take(li.description, 50)
  }

  /** Every record takes part in signature deduplication. */
  predicate EveryRecord(li: LegalInformation)
  {
    true
  }

  function Deduplicated(records: seq<LegalInformation>): seq<LegalInformation>
  {
    KeepFirst(records, Signature, EveryRecord)
  }

  method Deduplicate(legalInfoList: seq<LegalInformation>) returns (unique: seq<LegalInformation>)
    ensures unique == Deduplicated(legalInfoList)
  {
    var seen: set<string> := {};
    unique := [];
    var i := 0;
    while i < |legalInfoList|
      invariant 0 <= i <= |legalInfoList|
      invariant unique == KeepFirst(legalInfoList[..i], Signature, EveryRecord)
      invariant seen == Keys(unique, Signature)
    {
      var info := legalInfoList[i];
      assert legalInfoList[..i + 1][..i] == legalInfoList[..i];
      var signature := info.caseType + "_" + info.status + "_" + Take(info.description, 50);
      if signature !in seen {
        KeysAppend(unique, info, Signature);
        seen := seen + {signature};
        unique := unique + [info];
      }
      i := i + 1;
    }
    assert legalInfoList[..|legalInfoList|] == legalInfoList;
  }

  function RelevanceOf(li: LegalInformation): real
  {
    li.relevanceScore
  }

  ghost predicate NonIncreasingRelevance(s: seq<LegalInformation>)
  {
    forall i, j :: 0 <= i < j < |s| ==> s[j].relevanceScore <= s[i].relevanceScore
  }

  /** `x` placed after every item at least as relevant, as a stable descending sort places a later item. */
  function InsertByRelevance(s: seq<LegalInformation>, x: LegalInformation): (r: seq<LegalInformation>)
    ensures multiset(r) == multiset(s) + multiset{x}
    decreases |s|
  {
    if |s| == 0 then [x]
    else if s[0].relevanceScore >= x.relevanceScore then
      assert s == [s[0]] + s[1..];
      [s[0]] + InsertByRelevance(s[1..], x)
    else [x] + s
  }

  lemma {:induction false} InsertKeepsOrder(s: seq<LegalInformation>, x: LegalInformation)
    requires NonIncreasingRelevance(s)
    ensures NonIncreasingRelevance(InsertByRelevance(s, x))
    decreases |s|
  {
    if |s| > 0 && s[0].relevanceScore >= x.relevanceScore {
      var rest := InsertByRelevance(s[1..], x);
      InsertKeepsOrder(s[1..], x);
      var r := [s[0]] + rest;
      forall k | 0 <= k < |rest|
        ensures rest[k].relevanceScore <= s[0].relevanceScore
      {
        assert rest[k] in multiset(rest);
        assert rest[k] in multiset(s[1..]) || rest[k] == x;
      }
      forall i, j | 0 <= i < j < |r|
        ensures r[j].relevanceScore <= r[i].relevanceScore
      {
        if i > 0 { assert r[i] == rest[i - 1] && r[j] == rest[j - 1]; }
        else { assert r[j] == rest[j - 1]; }
      }
    }
  }

  /** The records by relevance, highest first; records of equal relevance keep their order. */
  function SortByRelevance(s: seq<LegalInformation>): (r: seq<LegalInformation>)
    ensures multiset(r) == multiset(s)
    decreases |s|
  {
    if |s| == 0 then []
    else
      assert s == s[..|s| - 1] + [s[|s| - 1]];
      InsertByRelevance(SortByRelevance(s[..|s| - 1]), s[|s| - 1])
  }

  /** The sort returns a non-increasing permutation of its input. */
  lemma {:induction false} SortByRelevanceSorted(s: seq<LegalInformation>)
    ensures NonIncreasingRelevance(SortByRelevance(s))
    ensures multiset(SortByRelevance(s)) == multiset(s)
    decreases |s|
  {
    if |s| > 0 {
      SortByRelevanceSorted(s[..|s| - 1]);
      InsertKeepsOrder(SortByRelevance(s[..|s| - 1]), s[|s| - 1]);
    }
  }

  // ----- Parsing -----

  /** The record a search hit yields, if it is typed and relevant enough. */
  function Candidate(result: SearchResult, providerName: string, npi: string, specialty: Option<string>,
                     location: Option<string>, extractDate: string -> Option<string>, currentYear: int)
    : Option<LegalInformation>
  {
    var title := Lower(Field(result, "title"));
    var snippet := Lower(Field(result, "snippet"));
    var url := Field(result, "url");
    var text := title + " " + snippet;
    var c := ClassifyLegalCase(text);
    if c.caseType.None? then None
    else
      var relevance := Relevance(text, url, providerName, npi, specialty, location, extractDate, currentYear);
      if relevance >= 0.3 then
        Some(LegalInformation(c.caseType.value, c.status, extractDate(text),
                              BuildDescription(title, snippet, c.caseType.value, c.status), url, relevance,
                              IsOfficialSource(url)))
      else None
  }

  /** The records of the hits, in hit order. */
  function Candidates(results: seq<SearchResult>, providerName: string, npi: string, specialty: Option<string>,
                      location: Option<string>, extractDate: string -> Option<string>, currentYear: int)
    : seq<LegalInformation>
    decreases |results|
  {
    if |results| == 0 then []
    else
      Candidates(results[..|results| - 1], providerName, npi, specialty, location, extractDate, currentYear)
      + OptionToSeq(Candidate(results[|results| - 1], providerName, npi, specialty, location, extractDate, currentYear))
  }

  /** What `parse_legal_information` returns: the candidates sorted by relevance and deduplicated by signature. */
  function ParsedLegalInformation(results: seq<SearchResult>, providerName: string, npi: string, specialty: Option<string>,
                                  location: Option<string>, extractDate: string -> Option<string>, currentYear: int)
    : seq<LegalInformation>
  {
    Deduplicated(SortByRelevance(Candidates(results, providerName, npi, specialty, location, extractDate, currentYear)))
  }

  /** One pass of the parsing loop: the record a hit contributes, if any. */
  method ParseSearchResult(result: SearchResult, providerName: string, npi: string, specialty: Option<string>,
                           location: Option<string>, extractDate: string -> Option<string>, currentYear: int)
    returns (record: Option<LegalInformation>)
    ensures record == Candidate(result, providerName, npi, specialty, location, extractDate, currentYear)
  {
    record := None;
    var title := Lower(Field(result, "title"));
    var snippet := Lower(Field(result, "snippet"));
    var url := Field(result, "url");
    var text := title + " " + snippet;
    var classification := ClassifyLegalCase(text);
    if classification.caseType.Some? {
      var caseType := classification.caseType.value;
      var status := classification.status;
      var date := extractDate(text);
      var relevanceScore := CalculateRelevance(text, url, providerName, npi, specialty, location, extractDate, currentYear);
      if relevanceScore >= 0.3 {
        var description := BuildDescription(title, snippet, caseType, status);
        var verified := IsOfficialSource(url);
        var created := NewLegalInformation(caseType, status, date, description, url, relevanceScore, verified);
        record := Some(created.value);
      }
    }
  }

  method ParseLegalInformation(searchResults: seq<SearchResult>, providerName: string, npi: string,
                               specialty: Option<string>, location: Option<string>,
                               extractDate: string -> Option<string>, currentYear: int)
    returns (uniqueLegalInfo: seq<LegalInformation>)
    ensures uniqueLegalInfo == ParsedLegalInformation(searchResults, providerName, npi, specialty, location, extractDate, currentYear)
  {
    var legalInfoList: seq<LegalInformation> := [];
    var i := 0;
    while i < |searchResults|
      invariant 0 <= i <= |searchResults|
      invariant legalInfoList == Candidates(searchResults[..i], providerName, npi, specialty, location, extractDate, currentYear)
    {
      assert searchResults[..i + 1][..i] == searchResults[..i];
      var legalInfo := ParseSearchResult(searchResults[i], providerName, npi, specialty, location, extractDate, currentYear);
      if legalInfo.Some? {
        legalInfoList := legalInfoList + [legalInfo.value];
      }
      i := i + 1;
    }
    assert searchResults[..|searchResults|] == searchResults;
    legalInfoList := SortByRelevance(legalInfoList);
    uniqueLegalInfo := Deduplicate(legalInfoList);
  }

  /** What every parsed record satisfies. */
  predicate WellFormedRecord(li: LegalInformation)
  {
    li.caseType in ["conviction", "lawsuit", "allegation"]
    && 0.3 <= li.relevanceScore <= 1.0
    && |li.description| <= 500
    && li.verified == IsOfficialSource(li.sourceUrl)
  }

  lemma CandidateWellFormed(result: SearchResult, providerName: string, npi: string, specialty: Option<string>,
                            location: Option<string>, extractDate: string -> Option<string>, currentYear: int)
    ensures var c := Candidate(result, providerName, npi, specialty, location, extractDate, currentYear);
      c.Some? ==> WellFormedRecord(c.value)
  {
    var title := Lower(Field(result, "title"));
    var snippet := Lower(Field(result, "snippet"));
    ClassificationShape(title + " " + snippet);
  }

  lemma {:induction false} CandidatesWellFormed(results: seq<SearchResult>, providerName: string, npi: string,
                                                specialty: Option<string>, location: Option<string>,
                                                extractDate: string -> Option<string>, currentYear: int)
    ensures forall li :: li in Candidates(results, providerName, npi, specialty, location, extractDate, currentYear)
                         ==> WellFormedRecord(li)
    decreases |results|
  {
    if |results| > 0 {
      CandidatesWellFormed(results[..|results| - 1], providerName, npi, specialty, location, extractDate, currentYear);
      CandidateWellFormed(results[|results| - 1], providerName, npi, specialty, location, extractDate, currentYear);
    }
  }

  /**
   * The parsed records are typed convictions, lawsuits or allegations with
   * relevance in [0.3, 1], descriptions of at most 500 characters and
   * `verified` set exactly for official sources; they are ordered by
   * non-increasing relevance, no two share a signature, they keep the sorted
   * order, and every candidate's signature is represented.
   */
  lemma ParsedLegalInformationProperties(results: seq<SearchResult>, providerName: string, npi: string,
                                         specialty: Option<string>, location: Option<string>,
                                         extractDate: string -> Option<string>, currentYear: int)
    ensures var candidates := Candidates(results, providerName, npi, specialty, location, extractDate, currentYear);
      var out := ParsedLegalInformation(results, providerName, npi, specialty, location, extractDate, currentYear);
      (forall li :: li in out ==> WellFormedRecord(li) && ValidLegal(li))
      && NonIncreasingRelevance(out)
      && DistinctKeys(out, Signature)
      && IsSubsequence(out, SortByRelevance(candidates))
      && (forall li :: li in candidates ==> Signature(li) in Keys(out, Signature))
  {
    var candidates := Candidates(results, providerName, npi, specialty, location, extractDate, currentYear);
    var sorted := SortByRelevance(candidates);
    var out := Deduplicated(sorted);
    CandidatesWellFormed(results, providerName, npi, specialty, location, extractDate, currentYear);
    SortByRelevanceSorted(candidates);
    KeepFirstSubsequence(sorted, Signature, EveryRecord);
    SubsequenceMembers(out, sorted);
    forall li | li in out
      ensures WellFormedRecord(li)
    {
      assert li in multiset(sorted);
    }
    SubsequenceKeepsNonIncreasing(out, sorted, RelevanceOf);
    KeepFirstDistinct(sorted, Signature, EveryRecord);
    KeepFirstCovers(sorted, Signature, EveryRecord);
    forall li | li in candidates
      ensures Signature(li) in Keys(out, Signature)
    {
      assert li in multiset(candidates);
      assert li in sorted;
    }
  }
}
