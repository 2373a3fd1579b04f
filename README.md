# CardioGuard AI decision core in Dafny

CardioGuard AI triages healthcare providers for fraud risk. A research agent takes a National Provider Identifier (NPI) and collects three sources:
CMS utilization data, the OIG exclusion list and the NPPES registry. A data service fuses them into one provider profile.
A pattern analyzer finds billing anomalies and compiles evidence from the profile, then computes a 0-100 risk score and a priority.
A report writer derives recommendations, citations and a template summary.
A quality checker grades and validates the finished report.
A legal-snippet parser types web-search hits as legal cases. The web search builds the queries and combines the hits.
A small in-memory ledger keeps the fraud financial records saved for each NPI.

The project models this decision logic as written in the Python code. The network, files, clock and language model are left out.
Where the code accumulates into a variable or a list, the model has a method with a loop or staged assignments. Each such method is proved equal to a declarative function, and the properties are lemmas about that function.
The ledger's dictionary is a class field updated in place. The cached OIG exclusion table is a class whose rows field is reassigned when its NPI column is converted to strings in place.

| module | file | models |
|---|---|---|
| `Py` | py.dfy | Option and Outcome (returned or raised), JSON-like values, `dict.get` defaults, truthiness, the `int()`, `float()` and `str()` coercions |
| `Text` | text.dfy | substring tests, ASCII casing, `strip()`, `join`, `title()`, integer rendering and `{x:.Nf}` formatting |
| `Sequences` | sequences.dfy | the order-preserving "keep the first item per key" filter shared by the deduplication loops |
| `Models` | models.dfy | the pydantic records, their derived ratios and their field validators |
| `BaseAgent` | base_agent.dfy | `validate_input` |
| `Config` | config.dfy | `validate_config` (keys as parameters) and `RISK_THRESHOLDS` |
| `CmsService` | cms_service.dfy | `_process_cms_response` |
| `NppesService` | nppes_service.dfy | `_process_nppes_response` |
| `OigService` | oig_service.dfy | `_format_exclusion_data`, the exclusion-type table, and the column search and result shapes of `check_provider_exclusion` |
| `DataService` | data_service.dfy | `collect_all_sources` error mapping, `_assess_data_quality`, `fuse_data_sources` |
| `ResearchAgent` | research_agent.dfy | the NPI guard and `_identify_risk_factors` |
| `LegalParser` | legal_parser.dfy | `_classify_legal_case`, `_calculate_relevance`, `_is_official_source`, `_build_description`, `_deduplicate`, `parse_legal_information` |
| `WebSearch` | web_search.dfy | `_get_cache_path`, `_build_search_queries`, the URL deduplication and search count of `search_provider_legal_info` |
| `PatternAnalyzer` | pattern_analyzer.dfy | anomaly detection, temporal and geographic flags, `calculate_risk_score`, `_calculate_data_quality`, `_determine_priority`, `_compile_evidence` |
| `ReportWriter` | report_writer.dfy | `create_recommendations`, `_extract_regulatory_citations`, `_create_template_summary` |
| `QualityChecker` | quality_checker.dfy | the four report checks, `calculate_quality_score`, `validate_report_quality` |
| `FraudFinancial` | fraud_financial.dfy | the `FraudFinancialService` ledger |

Encodings:
- Ratios, z-scores and relevance are `real`, and Python's `int()` of a non-negative real is its floor.
- The pattern analyzer's data quality is in tenths: cms 4, or 2 as partial credit, oig 3, nppes 3. The multiplier applies below 7.
- The quality checker's score is in hundredths: 40 or 20, 30 or 21, 20 or 10, 10 or 7. A report is valid from 80.

## Behaviour of the code as written

The model follows the code, including where the code differs from the system's stated design:
- The code has no 90-point floor for a legal conviction. A conviction record adds 20 legal points (agents/pattern_analyzer.py:215-216).
- A permissive (1128b) exclusion ends at 75, not at its tier floor of 70. It sets base 70, but the re-assertion chain after the multiplier ends in `elif base_score < 75`, which raises it to 75 (agents/pattern_analyzer.py:244-254). `PatternAnalyzer.PermissiveExclusionAtLeast75` states this.
- Legal points are `max + min(10, 5·(n−1))`, not a sum. They are added whether or not the provider is excluded.
- For a provider who is not excluded, each legal record is also counted a second time, through its evidence item (medium 5, high 10).
- Data quality for scoring weighs cms 0.4, oig 0.3 and nppes 0.3, and web search not at all. The cms partial credit of 0.2 tests `total_services == 0`. A fused profile always has 0 services when cms failed, so the partial credit applies whenever the cms flag is false.
- Evidence is returned in construction order (exclusion, anomalies, temporal, geographic, legal), not sorted.
- `FraudEvidence` has no `url` field, so the `url=` argument in `_compile_evidence` is dropped.
- An exclusion with no description renders as "None" in the text built from it.
- The `settled` test in the lawsuit branch of `_classify_legal_case` can never fire, because settlement keywords are checked first (services/legal_parser_service.py:130-131).
- `WEB_SEARCH_ENABLED` is imported from config.py but not defined there, so `enabled` is a parameter of the web search.
- The report writer's standard citations contain the byte sequence "ยง" where the pattern analyzer writes "§". Both are kept as written.
- `fuse_data_sources` never fills `legal_information`, so in this pipeline the legal scoring sees no records. The parser and the scoring are still modelled as written.

## Model

| member | source | states |
|---|---|---|
| BaseAgent.ValidateInput | agents/base_agent.py:56-63 | succeeds exactly when every required field is a key of the input; otherwise fails with the message joining the missing fields |
| BaseAgent.MissingFields | agents/base_agent.py:58 | every reported field is required and absent |
| BaseAgent.MissingFieldsExact | agents/base_agent.py:58 | the missing list holds exactly the absent required fields, in the order of the required list |
| BaseAgent.ExtraKeysIrrelevant | agents/base_agent.py:56-63 | two inputs that agree on the required keys validate alike |
| Config.ValidateConfig | config.py:77-90 | the errors are the configuration error list, and the configuration is valid exactly when that list is empty |
| Config.ConfigErrorRules | config.py:77-90 | at most two errors; the missing-key error is present (and first) exactly when the Anthropic key is empty; the Pinecone error is present exactly when one of its two settings is set without the other |
| Config.ThresholdsMatchPriority | config.py:70-74 | the low/medium thresholds are the cut points the risk analysis, the pattern analyzer and the report summary all use |
| Models.FullName | models.py:26-32 | the organization when set, else the non-empty first/last parts joined by a space, else "Unknown"; never empty |
| Models.ServicesPerBeneficiary | models.py:52-57 | 0 without beneficiaries, otherwise the quotient of services by beneficiaries |
| Models.ChargeToPaymentRatio | models.py:59-64 | 0 without payments, otherwise the quotient of charges by payments |
| Models.NewLegalInformation | models.py:77-93 | constructed exactly when the relevance lies in [0, 1]; the record holds all seven given fields unchanged; otherwise the bound the relevance violates is reported |
| Models.ValidateNpi | models.py:119-124 | accepts exactly the ten-digit strings and returns them unchanged |
| Models.NpiValidatorExamples | models.py:119-124 | a ten-digit NPI is accepted; a short one, one with a letter and the empty one are rejected |
| Models.NewProviderProfile | models.py:43-124 | a profile exists exactly for a valid NPI and keeps it; it is not excluded, has zero services, beneficiaries, charges and payments, no taxonomies, legal records or risk factors, a zero score, and all four source flags false |
| Models.ValidateSeverity | models.py:147-152 | accepts exactly "low", "medium" and "high" and returns the matching level |
| Models.SeverityRoundTrip | models.py:147-152 | validating the name of a severity gives back that severity |
| Models.NewFraudEvidence | models.py:127-152 | evidence exists exactly when the significance lies in [0, 1] and the severity is one of the three names |
| Models.PriorityForScore | models.py:167-178 | low below 30, medium from 30 below 70, high from 70 on |
| Models.NewRiskAnalysis | models.py:155-178 | an analysis exists exactly for a score in [0, 100], and its priority is derived from the score |
| Models.PriorityArgumentIgnored | models.py:167-178 | the priority passed in never affects the analysis built |
| Models.NewInvestigationReport | models.py:181-192 | a report exists exactly for a score in [0, 100], with version "1.0" |
| ResearchAgent.GuardMatchesValidator | agents/research_agent.py:31-32 | the agent's NPI guard rejects exactly what the profile's NPI validator rejects |
| ResearchAgent.IdentifyRiskFactors | agents/research_agent.py:63-87 | returns the risk-factor list of the profile |
| ResearchAgent.RiskFactorsShape | agents/research_agent.py:63-87 | at most four factors in the order exclusion, service density, charge ratio, incomplete data, each present exactly when its check fires |
| ResearchAgent.MissingSources | agents/research_agent.py:83-85 | exactly the keys whose flag is false; empty exactly when every flag is true |
| ResearchAgent.ZeroDenominatorsNeverTrigger | agents/research_agent.py:73-80 | without beneficiaries or payments the density and ratio factors cannot fire |
| ResearchAgent.FusedMissingSources | agents/research_agent.py:83-85 | for a fused profile the missing list is the unavailable sources among cms, oig and nppes, in that order |
| ResearchAgent.CollectProviderIntelligence | agents/research_agent.py:25-61 | returns the intelligence outcome: guard, collect, fuse, then attach the risk factors; every failure is wrapped as "Research Agent failed: ..." |
| ResearchAgent.RejectedBeforeCollection | agents/research_agent.py:31-32 | a malformed NPI fails identically whatever the sources would return |
| ResearchAgent.IntelligenceProfile | agents/research_agent.py:25-57 | a returned profile has a valid NPI and carries exactly its own risk factors, at most four |
| CmsService.NoDataError | services/cms_service.py:118 | the no-data message begins "No CMS data found for NPI " |
| CmsService.ProviderData | services/cms_service.py:111-118 | the first element of a non-empty list; the first element of a non-empty "data" list; an empty record for an empty "data" value; the object itself without "data"; nothing for any other shape |
| CmsService.Fallback | services/cms_service.py:122-133 | the primary key's value when present, else the alias's, else the default |
| CmsService.UtilizationRecord | services/cms_service.py:121-135 | a converted record carries the requested NPI |
| CmsService.ProcessCmsResponse | services/cms_service.py:108-135 | a record carries the NPI; the error is the no-data message, given exactly for shapes that are neither an object nor a non-empty list |
| CmsService.UtilizationPayload | services/cms_service.py:84-106 | a conversion failure becomes "CMS connection failed: ..."; otherwise the processed payload is returned |
| CmsService.DirectRecordFields | services/cms_service.py:115-135 | an object without "data" is read directly, primary names first, aliases next, defaults last |
| CmsService.EmptyDataListGivesDefaults | services/cms_service.py:114-135 | an empty "data" list gives the all-default record |
| CmsService.UnrecognisedShapes | services/cms_service.py:111-118 | an empty list, null or a string give the no-data error |
| NppesService.FindPracticeAddress | services/nppes_service.py:112-117 | the loop returns the practice address of the address list |
| NppesService.PracticeAddressIsFirstLocation | services/nppes_service.py:112-117 | the practice address is the first LOCATION address, every earlier entry being a non-location dict; it is the empty dict when there is none; a list of dicts never fails |
| NppesService.CollectTaxonomies | services/nppes_service.py:119-127 | the loop returns the taxonomy entries of the list |
| NppesService.TaxonomyErrorPersists | services/nppes_service.py:119-127 | once an entry fails, the whole collection fails with that error |
| NppesService.TaxonomiesOneForOne | services/nppes_service.py:119-127 | collected taxonomies correspond one for one, in order, to the registry entries |
| NppesService.TaxonomiesAllDicts | services/nppes_service.py:119-127 | a list of dicts never fails |
| NppesService.PrimarySpecialty | services/nppes_service.py:129-132 | no specialty without taxonomies, else the first taxonomy's description |
| NppesService.NppesResponse | services/nppes_service.py:103-108 | the not-found error is given exactly when the result count is missing or zero; a non-dict response raises Python's "'<type>' object has no attribute 'get'" text, a missing "results" key raises the KeyError text "'results'", an empty results list raises "list index out of range" |
| NppesService.ProcessNppesResponse | services/nppes_service.py:103-154 | the method returns the processed registry response |
| NppesService.DetailsPayload | services/nppes_service.py:98-101 | a processing failure becomes "NPPES connection failed: ..."; otherwise the processed payload is returned |
| NppesService.RegistryRecord | services/nppes_service.py:105-154 | a non-zero count with well-formed results gives a record whose NPI is the registry number, or the requested NPI when that is absent |
| NppesService.ZeroResultsNotFound | services/nppes_service.py:105-106 | a zero or missing result count gives "Provider not found in NPPES registry: ..." |
| OigService.ExclusionDescription | services/oig_service.py:22-29 | the description of a known exclusion code, else "Unknown exclusion type" |
| OigService.ValueOf | services/oig_service.py:142-148 | a lookup with a default always yields a value |
| OigService.GetValue | services/oig_service.py:142-148 | the loop returns the value lookup over the key variations |
| OigService.ValueOfIsFirstUsable | services/oig_service.py:142-148 | the first present, non-missing key variation supplies the value; the default when none does |
| OigService.DisplayName | services/oig_service.py:153-162 | the stripped "first last" when non-empty, never the empty string |
| OigService.FormatExclusionData | services/oig_service.py:139-165 | returns the formatted exclusion record |
| OigService.MissingTypeIsUnknown | services/oig_service.py:150-151 | without a type column the type is "Unknown" and the description "Unknown exclusion type" |
| OigService.KnownTypeDescribed | services/oig_service.py:150-151 | a known EXCLTYPE code is kept and described by the mapping |
| OigService.MissingNameIsUnknown | services/oig_service.py:153-162 | without any name columns the provider name is "Unknown" |
| OigService.NpiColumn | services/oig_service.py:100-105 | the column found is one of the table's and named NPI or NATIONAL_PROVIDER_IDENTIFIER in any case; none exactly when no column is |
| OigService.AsStrColumn | services/oig_service.py:115-116 | converting the NPI column keeps the row count and every row's columns |
| OigService.FirstMatch | services/oig_service.py:118-122 | the index of the first row whose NPI cell equals the requested NPI, or the row count when none does |
| OigService.ExclusionTable.constructor | services/oig_service.py:81-93 | the loaded table keeps the given columns and rows |
| OigService.ExclusionTable.Check | services/oig_service.py:95-129 | returns the exclusion check of the table; the NPI column is converted to strings in place, and nothing else changes |
| OigService.CheckProviderExclusion | services/oig_service.py:95-137 | a loading failure gives "Check failed" with its error; otherwise the table's exclusion check, with the cached table's columns unchanged and its NPI column, when there is one, converted to strings in place |
| OigService.ExclusionCheckResult | services/oig_service.py:100-129 | the error payload exactly when no NPI column exists; otherwise excluded exactly when some row's NPI string matches, formatted from the first such row |
| OigService.RepeatedCheckAgrees | services/oig_service.py:115-116 | converting the column twice changes nothing, so repeated checks on the cached table agree |
| OigService.ReprFloatHasPoint | services/oig_service.py:116 | the string form of a float cell always contains a decimal point |
| OigService.FloatCellsNeverMatch | services/oig_service.py:116-119 | a float or missing NPI cell never equals a digit-string NPI |
| DataService.CmsWeight | services/data_service.py:60-63 | CMS counts 0.4 when available, 0.2 for a "No CMS data" error, nothing for any other error |
| DataService.AssessDataQuality | services/data_service.py:55-71 | the accumulated score equals the weighted sum over the three sources |
| DataService.QualityRange | services/data_service.py:55-71 | the score lies in [0, 1]; it is 1 exactly when every source answered and 0 exactly when none did |
| DataService.QualityMonotone | services/data_service.py:55-71 | improving any source never lowers the score |
| DataService.CmsErrorCredit | services/data_service.py:60-63 | the CMS no-data answer earns the partial credit; a connection failure earns none |
| DataService.CollectedSources | services/data_service.py:39-46 | a source that raised is replaced by its error payload; the others pass through |
| DataService.CollectAllSources | services/data_service.py:28-53 | the results are the collected sources with their quality score |
| DataService.FailureIsIsolated | services/data_service.py:39-46 | one source failing changes no other source and marks that one unavailable |
| DataService.FusedNpi | services/data_service.py:75 | the NPPES NPI when truthy, else the CMS NPI, else the empty string |
| DataService.FusedExclusion | services/data_service.py:108-116 | excluded exactly when OIG reported an exclusion; otherwise the default exclusion data |
| DataService.CopyTaxonomies | services/data_service.py:118-126 | the loop returns the fused taxonomy list |
| DataService.FusedTaxonomyErrorPersists | services/data_service.py:118-126 | once an entry fails validation the whole fusion fails with that error |
| DataService.TaxonomiesCopied | services/data_service.py:118-126 | fused taxonomies correspond one for one, in order, to the entries |
| DataService.FuseDataSources | services/data_service.py:73-147 | returns the fused profile of the three payloads |
| DataService.FinishProfile | services/data_service.py:128-147 | assembles the profile from the validated parts, giving the fused profile |
| DataService.FusionNpi | services/data_service.py:75-78 | fusion raises "NPI not found in any data source" exactly when neither source has an NPI; a fused profile is valid and takes its NPI from NPPES first |
| DataService.ProfileErrorsAreFieldErrors | services/data_service.py:77-145 | once the NPI is found, every error is a field validator's |
| DataService.FusionFlagsAndEmptyParts | services/data_service.py:140-144 | the profile records exactly the three flags, each true iff that payload is not an error; web search stays false; legal information, risk factors and score stay empty |
| DataService.FusionDefaults | services/data_service.py:81-126 | a missing source fills in neutral values: zero utilization, not excluded, empty names, country US, no taxonomies |
| DataService.FusionCopiesTaxonomies | services/data_service.py:118-126 | the fused taxonomies correspond one for one to the NPPES ones |
| DataService.AnalyzerQualityOfFusedProfile | services/data_service.py:55-71 | the pattern analyzer's quality of a fused profile equals this score, except for 0.2 extra after a CMS failure other than "no data" |
| FraudFinancial.AmountPart | services/fraud_financial_service.py:119-124 | a present amount counts in full, a missing one as zero |
| FraudFinancial.FraudFinancialService.constructor | services/fraud_financial_service.py:23-45 | the ledger starts empty |
| FraudFinancial.FraudFinancialService.SaveFinancialData | services/fraud_financial_service.py:56-72 | appends the record to the NPI's list, creating the list (and listing the NPI last) when it is new; nothing else changes |
| FraudFinancial.FraudFinancialService.GetFinancialData | services/fraud_financial_service.py:75-90 | nothing exactly when the NPI has no records, otherwise its most recent record |
| FraudFinancial.FraudFinancialService.GetAllFinancialData | services/fraud_financial_service.py:92-106 | every record stored for the NPI, or none when it is unknown |
| FraudFinancial.FraudFinancialService.GetAnnualTotal | services/fraud_financial_service.py:108-127 | the nested loops compute the ledger total of the year |
| FraudFinancial.FraudFinancialService.GetAllProvidersWithFinancialData | services/fraud_financial_service.py:129-132 | the NPIs in insertion order, exactly the keys of the ledger |
| FraudFinancial.RecordsTotalAppend | services/fraud_financial_service.py:113-125 | appending a record adds its share of the year to a list's total |
| FraudFinancial.LedgerTotalFrame | services/fraud_financial_service.py:113-125 | the total depends only on the lists of listed NPIs |
| FraudFinancial.LedgerTotalUpdate | services/fraud_financial_service.py:113-125 | replacing one listed NPI's list changes the total by the difference of the list totals |
| FraudFinancial.SaveAddsToAnnualTotal | services/fraud_financial_service.py:56-127 | saving a record raises its investigation year's total by the record's total and leaves other years unchanged |
| FraudFinancial.SaveToListedNpi | services/fraud_financial_service.py:64-127 | the same for an NPI already in the ledger |
| FraudFinancial.SaveToNewNpi | services/fraud_financial_service.py:64-127 | the same for an NPI not yet in the ledger |
| FraudFinancial.LedgerTotalNonNegative | services/fraud_financial_service.py:108-127 | non-negative amounts give a non-negative annual total |
| FraudFinancial.RecordsTotalNonNegative | services/fraud_financial_service.py:114-125 | the same for one NPI's records |
| FraudFinancial.UnmentionedYearTotalsZero | services/fraud_financial_service.py:108-127 | a year no record names totals zero |
| FraudFinancial.RecordsTotalZero | services/fraud_financial_service.py:114-125 | the same for one NPI's records |
| FraudFinancial.SaveThenRead | services/fraud_financial_service.py:56-132 | after a save the record is the NPI's most recent one and the NPI is listed |
| LegalParser.ClassificationPrecedence | services/legal_parser_service.py:109-137 | a conviction keyword wins over everything; then a settlement keyword gives a settled lawsuit; then a pending keyword gives a pending lawsuit (with "lawsuit" or "sued") or a pending allegation; then a lawsuit keyword gives a dismissed or pending lawsuit; otherwise the case is not typed |
| LegalParser.ClassificationShape | services/legal_parser_service.py:109-137 | typed exactly when some keyword occurs and then "unknown" is never the status; a conviction exactly when convicted; an allegation is always pending |
| LegalParser.SettledIff | services/legal_parser_service.py:114-131 | a settled lawsuit exactly when a settlement keyword and no conviction keyword occurs |
| LegalParser.ConvictionExample | services/legal_parser_service.py:113-115 | any text containing "convicted" is a conviction |
| LegalParser.KeywordFound | services/legal_parser_service.py:114 | one keyword occurring makes the any() test succeed |
| LegalParser.YearValue | services/legal_parser_service.py:195-197 | a matched year lies in 1900-2099 |
| LegalParser.FindYearFrom | services/legal_parser_service.py:195 | the search yields the leftmost whole-word 19xx/20xx year at or after the position, or none when there is none |
| LegalParser.FindYear | services/legal_parser_service.py:195-197 | a year found lies in 1900-2099 |
| LegalParser.RelevanceSum | services/legal_parser_service.py:165-203 | the uncapped sum of the six bonuses lies in [0, 2] |
| LegalParser.Relevance | services/legal_parser_service.py:204-205 | the relevance lies in [0, 1] |
| LegalParser.CalculateRelevance | services/legal_parser_service.py:155-205 | the accumulated score is the relevance of the hit, in [0, 1] |
| LegalParser.NpiAndOfficialSourceGiveFullRelevance | services/legal_parser_service.py:174-205 | an NPI match from an official source alone reaches the cap of 1.0 |
| LegalParser.EmptyNameOrNpiAlwaysMatches | services/legal_parser_service.py:170-176 | an empty provider name always earns 0.3 and an empty NPI always earns 0.5 |
| LegalParser.RecencyIncludesFutureYears | services/legal_parser_service.py:190-200 | the bonus applies exactly when the year is at most two before the current one, so future years earn it |
| LegalParser.RelevanceIsCappedSum | services/legal_parser_service.py:204-205 | the relevance is the bonus sum when that is at most 1, and 1 otherwise |
| LegalParser.Truncate | services/legal_parser_service.py:221-223 | at most 500 characters; short texts unchanged; long ones cut to 497 characters plus "..." |
| LegalParser.BuildDescription | services/legal_parser_service.py:212-225 | a description has at most 500 characters |
| LegalParser.DescriptionContents | services/legal_parser_service.py:214-223 | the description is the title-cased case type, the status and the title (or the snippet), kept whole when it fits and otherwise a prefix of it plus "..." |
| LegalParser.Deduplicate | services/legal_parser_service.py:227-240 | the loop returns the first record of each signature, in order |
| LegalParser.InsertByRelevance | services/legal_parser_service.py:100 | inserting keeps every record |
| LegalParser.InsertKeepsOrder | services/legal_parser_service.py:100 | inserting into a list sorted by descending relevance keeps it sorted |
| LegalParser.SortByRelevance | services/legal_parser_service.py:100 | the sort is a permutation |
| LegalParser.SortByRelevanceSorted | services/legal_parser_service.py:100 | the sort gives a permutation in non-increasing relevance |
| LegalParser.ParseSearchResult | services/legal_parser_service.py:59-97 | one pass of the loop yields the record the hit contributes, if any |
| LegalParser.ParseLegalInformation | services/legal_parser_service.py:49-107 | returns the candidates, sorted by relevance and deduplicated by signature |
| LegalParser.CandidateWellFormed | services/legal_parser_service.py:68-95 | a kept record is typed, has relevance in [0.3, 1] and a description of at most 500 characters, and is verified exactly for official sources |
| LegalParser.CandidatesWellFormed | services/legal_parser_service.py:59-97 | the same for every collected record |
| LegalParser.ParsedLegalInformationProperties | services/legal_parser_service.py:99-107 | the output records are well formed and valid, in non-increasing relevance, with distinct signatures, a subsequence of the sorted candidates, and every candidate's signature is represented |
| WebSearch.Field | services/web_search_service.py:104 | the field's value when present, else the empty string |
| WebSearch.SafeKey | services/web_search_service.py:44 | same length; alphanumerics, "-" and "_" kept, every other character replaced by "_" |
| WebSearch.CacheFileNameShape | services/web_search_service.py:41-45 | the cache file is "search_", the first at most 50 sanitised characters, then ".json" |
| WebSearch.SafeKeyIdempotent | services/web_search_service.py:44 | sanitising twice changes nothing, so a sanitised key names the same cache file |
| WebSearch.BuildSearchQueries | services/web_search_service.py:134-171 | the appended queries are the strategy list: name, specialty, NPI, location, pending cases |
| WebSearch.QueryCount | services/web_search_service.py:134-171 | 8 queries, plus 2 with a specialty and 2 with a location |
| WebSearch.FirstFiveQueries | services/web_search_service.py:86-160 | the five queries run are the three name queries, then the specialty queries when given, else the first two NPI queries |
| WebSearch.FirstFive | services/web_search_service.py:86 | the first min(5, n) queries, unchanged |
| WebSearch.RunAll | services/web_search_service.py:85-89 | one outcome per query, in order |
| WebSearch.RunBatch | services/web_search_service.py:85-89 | the loop collects the outcome of each query |
| WebSearch.CollectReturned | services/web_search_service.py:92-98 | the loop gathers the hits of every search that returned, in order |
| WebSearch.CountReturned | services/web_search_service.py:111 | at most one count per search |
| WebSearch.DeduplicateByUrl | services/web_search_service.py:100-107 | the loop keeps the first hit of each non-empty URL |
| WebSearch.SearchProviderLegalInfo | services/web_search_service.py:55-114 | returns the legal search response of the provider |
| WebSearch.DisabledSearchIsEmpty | services/web_search_service.py:63-65 | a disabled service returns no hits and no searches |
| WebSearch.SearchesPerformedBound | services/web_search_service.py:86-111 | at most five searches; exactly five when none raises |
| WebSearch.AllReturnedCount | services/web_search_service.py:111 | when no search raises, every search counts |
| WebSearch.UniqueByUrlProperties | services/web_search_service.py:100-107 | kept hits have non-empty, pairwise distinct URLs, keep their order, and cover every URL produced |
| WebSearch.FirstHitPerUrlKept | services/web_search_service.py:100-107 | each kept hit is the first with its URL |
| PatternAnalyzer.DefaultBaseline | agents/pattern_analyzer.py:113-122 | the placeholder baseline covers every metric with a positive spread |
| PatternAnalyzer.CalculateStatisticalAnomalies | agents/pattern_analyzer.py:72-111 | the loop builds the anomaly table over the five metrics, in order, against the given or the default baseline |
| PatternAnalyzer.DetectMetricAnomaly | agents/pattern_analyzer.py:90-109 | one iteration yields that metric's entry, if it qualifies |
| PatternAnalyzer.AnomaliesOverMembers | agents/pattern_analyzer.py:90-109 | an entry is in the table exactly when some visited metric produced it |
| PatternAnalyzer.MetricAnomalyShape | agents/pattern_analyzer.py:102 | an entry is keyed by its metric's name |
| PatternAnalyzer.EveryMetricTracked | agents/pattern_analyzer.py:82-88 | each of the five metrics is examined |
| PatternAnalyzer.MetricAnomalyIff | agents/pattern_analyzer.py:91-101 | a metric qualifies exactly when its value is non-zero, its spread positive and its z-score beyond 2.5 in magnitude |
| PatternAnalyzer.ReportedIffQualifies | agents/pattern_analyzer.py:90-109 | the table has an entry for a metric exactly when that metric qualifies |
| PatternAnalyzer.AnomalyReportedIff | agents/pattern_analyzer.py:90-109 | a metric is reported exactly when its value is non-zero, its spread positive and its z-score beyond 2.5 |
| PatternAnalyzer.MetricNameInjective | agents/pattern_analyzer.py:82-88 | distinct metrics have distinct names |
| PatternAnalyzer.MetricAnomalyFaithful | agents/pattern_analyzer.py:99-109 | an entry records the metric's value, its mean, spread and z-score, and the direction given by the z-score's sign |
| PatternAnalyzer.AnomalyEntryFaithful | agents/pattern_analyzer.py:90-109 | every table entry is a faithful record of some metric |
| PatternAnalyzer.MissingBaselineUsesRawValue | agents/pattern_analyzer.py:94-99 | without a baseline entry the mean is 0, the spread 1, and the z-score is the value |
| PatternAnalyzer.AnomalyMetricsDistinct | agents/pattern_analyzer.py:102 | each metric appears at most once in the table |
| PatternAnalyzer.DistinctOver | agents/pattern_analyzer.py:90-109 | distinct metrics give entries with distinct names |
| PatternAnalyzer.EarlierEntryNotLast | agents/pattern_analyzer.py:90-109 | an entry from earlier metrics never carries the last metric's name |
| PatternAnalyzer.DetectTemporalPatterns | agents/pattern_analyzer.py:124-144 | clustering is flagged, with one anomaly text, exactly when services per beneficiary exceed 10; spikes are never flagged |
| PatternAnalyzer.AnalyzeGeographicPatterns | agents/pattern_analyzer.py:146-160 | the service area is the practice state or "Unknown"; a missing state is the one geographic anomaly |
| PatternAnalyzer.TierFloor | agents/pattern_analyzer.py:167-188 | every exclusion tier sets a base between 70 and 90 |
| PatternAnalyzer.MaxReal | agents/pattern_analyzer.py:202 | the maximum is an element and bounds every element |
| PatternAnalyzer.MaxInt | agents/pattern_analyzer.py:231 | the maximum is an element and bounds every element |
| PatternAnalyzer.DataQuality | agents/pattern_analyzer.py:261-276 | the recomputed quality lies in [0, 1] |
| PatternAnalyzer.ScoreAnomalies | agents/pattern_analyzer.py:193-202 | the loop computes the anomaly points |
| PatternAnalyzer.ScoreLegalInformation | agents/pattern_analyzer.py:211-233 | the loop computes the legal points |
| PatternAnalyzer.CalculateRiskScore | agents/pattern_analyzer.py:162-259 | the method returns the composite risk score, an integer in [0, 100] |
| PatternAnalyzer.ContributionsBounded | agents/pattern_analyzer.py:196-199 | each entry over the threshold contributes more than 0 and at most 30 |
| PatternAnalyzer.ContributionsCover | agents/pattern_analyzer.py:194-199 | every qualifying entry's contribution is collected |
| PatternAnalyzer.ContributionsFrom | agents/pattern_analyzer.py:194-199 | every collected contribution comes from some entry |
| PatternAnalyzer.AnomalyPointsBounded | agents/pattern_analyzer.py:193-202 | anomaly points lie in [0, 30] |
| PatternAnalyzer.AnomalyPointsIsMaximum | agents/pattern_analyzer.py:193-202 | anomaly points are the largest contribution, not a sum: no qualifying entry is worth more, one is worth exactly that, and the points are 0 when none qualifies |
| PatternAnalyzer.LegalScoresBounded | agents/pattern_analyzer.py:214-227 | each scored record is worth 10 to 20 |
| PatternAnalyzer.LegalScoresCount | agents/pattern_analyzer.py:214-229 | no scores exactly when no record's case type is scored |
| PatternAnalyzer.LegalPointsBounded | agents/pattern_analyzer.py:211-233 | legal points lie in [0, 30] and are 0 exactly when no record's case type is scored |
| PatternAnalyzer.BaseScoreNonNegative | agents/pattern_analyzer.py:164-233 | the running score is never negative |
| PatternAnalyzer.RiskScoreInRange | agents/pattern_analyzer.py:256-259 | the risk score lies in [0, 100] for every input |
| PatternAnalyzer.ExcludedScoreAtLeastTierFloor | agents/pattern_analyzer.py:166-254 | an excluded provider scores at least its tier floor, and at least 90 for a felony exclusion |
| PatternAnalyzer.PermissiveExclusionAtLeast75 | agents/pattern_analyzer.py:180-254 | a permissive exclusion ends at 75 or more, not 70, because the last branch of the floor chain catches it; exactly 75 without legal records at good quality |
| PatternAnalyzer.ExcludedIgnoresAnomaliesAndEvidence | agents/pattern_analyzer.py:166-191 | for an excluded provider, anomalies and evidence do not affect the score |
| PatternAnalyzer.CountSeverityBounded | agents/pattern_analyzer.py:205-206 | a severity count never exceeds the evidence count |
| PatternAnalyzer.EvidencePointsOfAppend | agents/pattern_analyzer.py:205-209 | an extra item adds 10 if high, 5 if medium and nothing if low |
| PatternAnalyzer.MoreEvidenceNeverLowersScore | agents/pattern_analyzer.py:204-259 | more evidence never lowers the risk score |
| PatternAnalyzer.LowQualityCases | agents/pattern_analyzer.py:238-276 | the multiplier applies exactly in the listed source combinations |
| PatternAnalyzer.QualityMultiplierExample | agents/pattern_analyzer.py:238-241 | low quality raises 50 to 60; good quality leaves it |
| PatternAnalyzer.FelonyExclusionScore | agents/pattern_analyzer.py:171-257 | a felony exclusion without legal records scores 90, or 100 under the multiplier |
| PatternAnalyzer.NoSignalsScoreZero | agents/pattern_analyzer.py:162-259 | without exclusion, qualifying anomalies, scored evidence or scored legal records the score is 0 |
| PatternAnalyzer.LowSeverityCountsZero | agents/pattern_analyzer.py:205-206 | all-low evidence has no high or medium items |
| PatternAnalyzer.PendingLawsuitsExample | agents/pattern_analyzer.py:217-233 | three or four pending lawsuits are worth 25: the extra points stop at 10 |
| PatternAnalyzer.DeterminePriority | agents/pattern_analyzer.py:278-285 | low below 30 and high from 70 on, agreeing with the risk-analysis priority |
| PatternAnalyzer.AnomalyEvidenceList | agents/pattern_analyzer.py:320-335 | one item per table entry |
| PatternAnalyzer.GeographicEvidenceList | agents/pattern_analyzer.py:349-357 | one item per geographic anomaly |
| PatternAnalyzer.LegalEvidenceList | agents/pattern_analyzer.py:360-370 | one item per legal record |
| PatternAnalyzer.CollectAnomalyEvidence | agents/pattern_analyzer.py:320-335 | the loop builds the anomaly items |
| PatternAnalyzer.CollectGeographicEvidence | agents/pattern_analyzer.py:349-357 | the loop builds the geographic items |
| PatternAnalyzer.CollectLegalEvidence | agents/pattern_analyzer.py:360-370 | the loop builds the legal items |
| PatternAnalyzer.CompileEvidence | agents/pattern_analyzer.py:287-372 | the method returns the evidence list of the analysis |
| PatternAnalyzer.AnomalyEvidenceAt | agents/pattern_analyzer.py:320-335 | the k-th anomaly item describes the k-th entry |
| PatternAnalyzer.GeographicEvidenceAt | agents/pattern_analyzer.py:349-357 | the k-th geographic item describes the k-th anomaly text |
| PatternAnalyzer.LegalEvidenceAt | agents/pattern_analyzer.py:360-370 | the k-th legal item describes the k-th record |
| PatternAnalyzer.EvidenceGroups | agents/pattern_analyzer.py:287-372 | the evidence is the exclusion item (if excluded), the anomaly items, the temporal item (if clustering), the geographic items and the legal items, each group pointwise from its source |
| PatternAnalyzer.EvidenceOrder | agents/pattern_analyzer.py:287-372 | the length is the sum of the group sizes; the exclusion item is first, and the temporal item follows the anomaly items |
| PatternAnalyzer.EvidenceSeverities | agents/pattern_analyzer.py:296-361 | exclusions are medium for permissive codes and otherwise high; anomalies are high iff the absolute z-score exceeds 3; temporal items are medium, geographic ones low, and legal ones high iff a conviction |
| PatternAnalyzer.EvidenceValid | agents/pattern_analyzer.py:310-370 | every item meets its model's significance bound, so building the list never fails |
| PatternAnalyzer.AnomalyItemsValid | agents/pattern_analyzer.py:327-335 | anomaly items are valid evidence |
| PatternAnalyzer.GeographicItemsValid | agents/pattern_analyzer.py:351-357 | geographic items are valid evidence |
| PatternAnalyzer.LegalItemsValid | agents/pattern_analyzer.py:362-370 | legal items built from valid records are valid evidence |
| PatternAnalyzer.AnalyzeFraudPatterns | agents/pattern_analyzer.py:25-66 | the analysis has the default-baseline anomalies and the compiled evidence, the risk score of both in [0, 100], the priority derived from that score and the provider's NPI, and all of its evidence is valid |
| QualityChecker.SectionNames | agents/quality_checker.py:20-25 | one name per section, in order |
| QualityChecker.CheckCompleteness | agents/quality_checker.py:55-99 | the missing sections are the failing ones in checking order; all sections are present exactly when none is missing; each section's detail records presence and length or count |
| QualityChecker.FailingSectionsAreFiltered | agents/quality_checker.py:20-97 | the failing sections are the required list filtered by the failure test |
| QualityChecker.CompleteIff | agents/quality_checker.py:63-97 | complete exactly when the stripped summary has at least 50 characters and the three lists are non-empty |
| QualityChecker.MissingSectionsOrdered | agents/quality_checker.py:63-97 | failing sections appear in the required order, and a section is named exactly when it fails |
| QualityChecker.SectionNameInjective | agents/quality_checker.py:20-25 | distinct sections have distinct names |
| QualityChecker.ItemIssues | agents/quality_checker.py:110-121 | one issue per failed check of the item |
| QualityChecker.ValidateEvidenceAccuracy | agents/quality_checker.py:101-123 | the issues are those of every item in order; the evidence is valid exactly when there are none; the count is the number of items |
| QualityChecker.EvidenceIssuesCount | agents/quality_checker.py:109-121 | the issue count is the total of failed checks, at most three per item, and zero exactly when every item passes |
| QualityChecker.ValidatedEvidenceSignificance | agents/quality_checker.py:119-121 | evidence built through its validator never fails the significance check |
| QualityChecker.VerifyRegulatoryCompliance | agents/quality_checker.py:125-138 | citations exist exactly when the list is non-empty; the count is its length; standard citations exactly when "cfr" occurs in the lower-cased joined text |
| QualityChecker.CfrSubsumes | agents/quality_checker.py:135 | the "42 cfr" test is subsumed by the "cfr" test |
| QualityChecker.ComplianceTests | agents/quality_checker.py:128-136 | there are no standard citations without citations |
| QualityChecker.VagueIssues | agents/quality_checker.py:155-158 | n copies of the vague-recommendation issue |
| QualityChecker.FlagVagueRecommendations | agents/quality_checker.py:153-158 | the loop adds one issue per vague recommendation |
| QualityChecker.CheckProfessionalStandards | agents/quality_checker.py:140-165 | the issues are the summary, vague-recommendation and score issues in order; standards are met exactly when there are none |
| QualityChecker.StandardsIff | agents/quality_checker.py:140-165 | standards are met exactly when the summary has at least 100 characters, no recommendation is vague and the score lies in [0, 100] |
| QualityChecker.ValidatedReportScore | agents/quality_checker.py:161-163 | a report built through its validator never has an invalid score |
| QualityChecker.CalculateQualityScore | agents/quality_checker.py:167-191 | the summed weights are the weighted score of the four outcomes |
| QualityChecker.ScoreRange | agents/quality_checker.py:167-191 | the score lies in [0.58, 1.0] and is 1.0 exactly when every check passes |
| QualityChecker.ValidityRules | agents/quality_checker.py:29-191 | a complete report is valid unless the other three checks all fail; an incomplete one is valid only when they all pass |
| QualityChecker.ValidateReportQuality | agents/quality_checker.py:31-53 | the results hold the four check results and their weighted score, and the report is valid exactly when the score reaches 0.8 |
| ReportWriter.BaseRecommendations | agents/report_writer.py:166-177 | three base items from score 30 on, two below |
| ReportWriter.HighSeverity | agents/report_writer.py:180 | only high-severity items of the evidence are kept |
| ReportWriter.HighSeverityRecommendation | agents/report_writer.py:182 | the high-severity item begins "Address " |
| ReportWriter.CreateRecommendations | agents/report_writer.py:157-192 | the appended list is the base items followed by the extras |
| ReportWriter.AppendExtras | agents/report_writer.py:179-190 | the evidence-specific appends add exactly the extras after the base items |
| ReportWriter.ExtraRecommendationsShape | agents/report_writer.py:179-190 | one extra per kind of evidence present, in the order high severity, exclusion, billing anomaly |
| ReportWriter.RecommendationsShape | agents/report_writer.py:164-192 | the list starts with the score band's base items, then the extras in fixed order, for 2 to 6 items in all |
| ReportWriter.HighSeverityCounted | agents/report_writer.py:180 | the filtered list has as many items as the risk score counts as high |
| ReportWriter.HighSeverityRecommendationCount | agents/report_writer.py:180-182 | the high-severity item states the exact number of high-severity findings |
| ReportWriter.Insert | agents/report_writer.py:206 | inserting into a strictly sorted list keeps it strictly sorted and adds exactly the new citation |
| ReportWriter.SortedList | agents/report_writer.py:206 | the sorted list is strictly sorted and holds exactly the set's citations |
| ReportWriter.ExtractRegulatoryCitations | agents/report_writer.py:194-206 | the citations are strictly sorted, exactly the evidence citations plus the two standard ones, so at least two |
| ReportWriter.StandardCitationsPresent | agents/report_writer.py:203-204 | the two distinct standard citations make at least two entries |
| ReportWriter.SortedListUnique | agents/report_writer.py:206 | two strictly sorted lists with the same citations are equal, so the result is determined by its set |
| ReportWriter.CitationSetMembers | agents/report_writer.py:196-204 | a citation is included exactly when it is a standard one or a non-empty evidence citation |
| ReportWriter.SummaryPriorityAgrees | agents/report_writer.py:140-144 | the summary's lower-cased priority is the one the risk analysis stores for the same score |
| ReportWriter.KeyFindings | agents/report_writer.py:146-149 | the key-findings sentence is empty exactly when no evidence is high severity; otherwise it states the count and the first such description |
| ReportWriter.SummaryHead | agents/report_writer.py:142-144 | the summary head opens by naming the provider |
| ReportWriter.TemplateSummaryOpening | agents/report_writer.py:137-155 | the template summary opens by naming the provider |
| ReportWriter.TemplateSummaryFindings | agents/report_writer.py:146-149 | the summary contains the key findings whenever some evidence is high severity |
| ReportWriter.ConclusionBands | agents/report_writer.py:153 | the conclusion follows the same 30/70 bands as the priority |

## Left out

- Network access, sessions and `asyncio`: the fetchers (`get_provider_utilization`, `get_provider_details`, `_download_exclusions_data`, `_perform_search`) and the `asyncio.gather` in `collect_all_sources` are outside the model. What each collector returned or raised is a parameter.
- Caching, files and the clock: `_is_cache_valid`, the cache files and the ledger's JSON load and save are not modelled, because they only touch the filesystem. The ledger starts empty. The current year used for recency is a parameter instead of `datetime.now()`.
- pandas CSV loading of the exclusion list is not modelled. The table arrives as column names and rows of cells.
- HTML scraping (`_parse_duckduckgo_results`) is not modelled, because it depends on BeautifulSoup and regular expressions. The searches are a function parameter.
- LegalParser.FindYear: models only the four-digit 19xx/20xx year search. The other regular expressions of `_extract_date` are a parameter (`extractDate`).
- PDF export (services/export_service.py) and Pinecone (services/vector_service.py) are foreign libraries. They are not part of this model.
- The Anthropic call in `create_executive_summary` is left out because it is a language model. Only the template summary it falls back to is modelled. The assembly of the report in `generate_investigation_report` is left out with it.
- loguru logging, `log_activity` and `handle_error` are left out, because they have no effect on results.
- Pydantic's validation machinery is left out. Only the validator functions and the field bounds are modelled, as checking constructors and `Valid…` predicates.
- Floating point: arithmetic is on reals, so rounding of float sums is not modelled. Fixed-decimal formatting (`{x:.1f}`, `{x:.2f}`, `Text.FormatFixed`) rounds the exact real half-even, not the binary float, so a tie that is not exact in binary can print differently: 1003/20 gives "50.2" in the model and "50.1" in Python. Python 3.12's `sum()` is compensated. A report that fails only completeness therefore scores 0.8 both in the model and in Python 3.12, but 0.7999999999999999 under naive float addition. `repr` of a float is approximated: integral values print as "N.0", others with up to six decimals.
- Exception texts: Python's built-in messages (`AttributeError`, `IndexError`, `KeyError`, `TypeError` and the `int()`/`float()` failures) are reproduced, except that a string quoted inside a message uses plain single quotes rather than full `repr` escaping. A pydantic `ValidationError` is represented by the message of its first failing constraint or validator. Its framing (error count, model name, field name, type tag) and any further errors are not modelled. These texts reach the payloads' `error` fields and the "Research Agent failed: " wrapper.
- Text: casing and the alphanumeric and digit tests cover ASCII only. `int()` and `float()` of a string accept only an optional sign, ASCII digits and, for `float()`, one decimal point. Underscores, exponents, `inf` and `nan` are not modelled.
- `FraudFinancialData` is not defined in the models file, so the ledger works over an assumed record: optional estimated, settlement and restitution amounts plus an investigation year. `total_fraud_impact` is not modelled.
- services/data_service_fixed.py, app.py and workflow.py are not part of this model. They are a detached fragment, the Streamlit UI and the orchestration.
- The `priority_level` argument of `create_recommendations` is not used by the code, and the model drops it.
- LegalParser.SortByRelevance: proves a permutation in non-increasing relevance. It does not state that equally relevant records keep their input order, as Python's stable sort does, and the records are sorted as a value rather than in place.
- PatternAnalyzer.CompileEvidence: its evidence layout is stated by `EvidenceGroups` and `EvidenceOrder` as the concatenation of the five groups, not item by item in one clause.
