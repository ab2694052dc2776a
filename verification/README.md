# Professional credit scorer: the arithmetic core, in Dafny

This project models the deterministic core of a Python tool. The tool scrapes professional profiles
for a city, stores them, and asks an AI service to analyse them in batches. The model covers:

- **Duration parsing** (`Duration`). It turns free text such as "2 years 3 months" into years
  rounded to two decimals. The `(\d+)\s*year` / `(\d+)\s*month` regex search is modelled by a
  scanner. That scanner is proved to return the group of the leftmost match of the pattern.
- **Per-record experience metrics** (`Metrics`). This covers:
  - years per record;
  - the metrics dictionary: average, median, min and max of the positive totals;
  - the career progression rate;
  - the industry stability score;
  - the flat per-job average tenure.

  The metrics' output rounding is included.
- **Batching** (`Batching`). Stored profiles are cut into batches of 75, and each answered batch
  is tagged with its number and size.
- **Merging** (`Aggregation`). Per-batch answers are merged into one report. The counts are summed
  and each insight is averaged over the batches where it is positive.
- **The analysis-dictionary shape check** (`AnalysisShape`).
- **Validation of AI-returned professionals** (`ProfileValidator`). Invalid records are filtered
  out, and the rest is truncated to `max_results` with Python slice semantics.
- **Reshaping scraped items** (`FieldReshaper`). Scraped items become the stored professional
  format, and the scraper's item count has a floor of 10.

Shared pieces are kept in their own modules:

- `Text`: ASCII digits, whitespace, case mapping and substring search.
- `Stats`: exact sums, min, max and mean; sorting; order statistics; Python's half-even `round`.
- `Wrappers`: the `Option` type.

The worked examples (`ScoreExamples`, `MetricsExamples`, `PipelineExamples`) derive the values the
repository's tests expect from the model.

Numbers are exact rationals (`real`). Python's `round(x, n)` is modelled as round-half-even on the
exact value (`Stats.RoundedUnits`). For parsed durations, 100 · (y + m/12) is never a tie, and the
rounded value has the closed form (100·y + ⌊(25·m + 1)/3⌋)/100.

Two behaviours of the code differ from what its names suggest. The model follows the code in both.

- **The job-tenure denominator.** One would expect the average job tenure to be taken over every job
  with a non-empty duration. The code (score_algorithm.py:579-585) adds and counts only durations
  that parse to more than 0. An unparseable duration such as "invalid", or "0 months", therefore does
  not count as a job (`Metrics.ZeroEntriesIgnored`).
- **The industry stability score.** As written it is always 0.0. `unique_companies` is an `int`,
  so `len(unique_companies)` (score_algorithm.py:549) raises a `TypeError` for the first record
  that names a company. The handler at line 564-566 then returns 0.0. When no record names a
  company, the loop ends with no indicators and the quotient is 0 as well. `Metrics.StabilityLoop`
  models the loop together with its exception, and `Metrics.IndustryStabilityScore` proves the
  result is 0.0.

## Model

| member | source | states |
|---|---|---|
| Duration.ScanFromFindsLeftmost | score_algorithm.py:619-626 | the scanner `ScanFrom` returns None exactly when `(\d+)\s*<word>` matches nowhere at or after the start index; otherwise it returns the digits of a match that starts leftmost |
| Duration.FirstCountIsLeftmostMatch | score_algorithm.py:619-626 | `FirstCount`, the model of `re.search` over the whole text: no count exactly when there is no match, otherwise the group value of the leftmost match |
| Duration.MatchIsMaximal | score_algorithm.py:619 | a match's digit group and whitespace end where the digit and space runs end, so the regex has one way to match from a start |
| Duration.ScanSkipsNonDigits | score_algorithm.py:619-626 | characters that are not digits never start a match: the search result from before them equals the one from after |
| Duration.ScanAtDigits | score_algorithm.py:619-626 | at a maximal digit run, the search returns the run's value when the unit word follows after optional whitespace, and otherwise continues after the run |
| Duration.DurationRounding | score_algorithm.py:629-631 | y + m/12 rounded to hundredths is (100y + ⌊(25m+1)/3⌋)/100, and the value is never a half-way case |
| Duration.ParseDurationValue | score_algorithm.py:610-634 | the parsed value is within half a hundredth of years + months/12, and equals the closed form above |
| Duration.ParseDuration | score_algorithm.py:610-634 | the parsed duration is never negative |
| Duration.ParseIgnoresCase | score_algorithm.py:615 | the text is lower-cased first, so upper- and lower-casing the input give the same value |
| Metrics.YearsAreSumOfDurations | score_algorithm.py:596-608 | a record's years are the sum of the parsed durations of all its entries; skipping empty durations changes nothing because "" parses to 0 |
| Metrics.YearsConcat | score_algorithm.py:596-608 | the years of two runs of entries add up |
| Metrics.YearsFromExperience | score_algorithm.py:596-608 | a record's total years are never negative |
| Metrics.ExperienceYears | score_algorithm.py:417-425 | `experience_years` holds the positive record totals in input order, one per record with experience |
| Metrics.RawExperienceMetrics | score_algorithm.py:408-445 | the record count and the with-experience count are right; the median/min/max keys are present exactly when someone has experience, with all-zero figures otherwise; the rates and tenure are those of the helper computations |
| Metrics.SpreadDescribesYears | score_algorithm.py:437-452 | with experience present: the average is the sum over the count of the positive totals; min, max and median are among them; min and max bound them and the average and median lie between them; the median `sorted(ys)[n//2]` has at most n//2 values below it and more than n//2 at or below it |
| Metrics.RoundMetrics | score_algorithm.py:446-456 | counts, min and max are untouched; mean, median and tenure are Python's half-even `round` to two decimals, the two rates to three, so each lies within half a unit of the last place |
| Metrics.CalculateExperienceMetrics | score_algorithm.py:408-456 | the record count and the with-experience count; all figures 0.0 and no spread keys when nobody has experience; otherwise the mean and upper median of the positive totals rounded to hundredths, their exact min and max, the progression rate rounded to thousandths, a stability score of 0.0 and the job tenure rounded to hundredths |
| Metrics.ProgressionTally | score_algorithm.py:471-506 | the two counters count the records showing progression and the records with two or more entries; the first never exceeds the second |
| Metrics.FindProgression | score_algorithm.py:480-503 | running the four pattern checks and the keyword check in order sets the flag exactly when the records' titles show progression by one of the five rules |
| Metrics.CareerProgressionRate | score_algorithm.py:462-515 | the rate is the number of records showing progression over the number with two or more entries, and 0.0 when there are none; so it lies in [0, 1]; it is positive exactly when some record shows progression; it is 1 exactly when some record is assessed and every assessed record shows progression |
| Metrics.TallyConcat | score_algorithm.py:471-506 | both counters are additive over concatenated record lists |
| Metrics.ShortRecordIgnored | score_algorithm.py:473 | a record with fewer than two entries, inserted anywhere, leaves the rate unchanged |
| Metrics.NamedCompanies | score_algorithm.py:532-533 | the filtered company list is empty exactly when no entry names a company |
| Metrics.StabilityLoop | score_algorithm.py:526-556 | the loop raises exactly when some record with entries names a company; otherwise it ends with no indicators, having counted every record with entries |
| Metrics.IndustryStabilityScore | score_algorithm.py:517-566 | the score as written is 0.0 for every input |
| Metrics.PositiveTenures | score_algorithm.py:579-585 | a record contributes exactly its positive parsed durations, in order |
| Metrics.AllTenures | score_algorithm.py:575-585 | the tenure loop's values are the positive parsed durations of all entries of all records, record after record |
| Metrics.AverageJobTenure | score_algorithm.py:568-594 | the tenure is 0.0 when no duration parses to a positive value; otherwise it lies between the smallest and the largest of those values |
| Metrics.TenureIsMean | score_algorithm.py:587-590 | with some positive duration, the tenure is their sum over their count |
| Metrics.ZeroEntriesIgnored | score_algorithm.py:582-585 | a record whose entries all parse to 0.0 leaves the tenure unchanged |
| Metrics.TenureIgnoresGrouping | score_algorithm.py:575-590 | the tenure is per job: putting every entry into one record gives the same value |
| Stats.Minimum | score_algorithm.py:451 | `min` returns an element no greater than any other |
| Stats.Maximum | score_algorithm.py:452 | `max` returns an element no smaller than any other |
| Stats.Mean | score_algorithm.py:437 | the mean lies between the minimum and the maximum |
| Stats.MeanIs | score_algorithm.py:437 | the mean is the value that, taken once per element, gives the sum |
| Stats.Sort | score_algorithm.py:438 | `list.sort()` returns a sorted permutation of its input |
| Stats.KthSmallest | score_algorithm.py:439 | `sorted(xs)[k]` is an element with at most k values below it and more than k values at or below it |
| Stats.RoundedUnits | score_algorithm.py:631 | `round` picks the integer nearest to x·scale, and the even one on a tie |
| Stats.Round | score_algorithm.py:446-456 | the rounded value is a multiple of 1/scale within half a unit of x |
| Stats.Positives | score_algorithm.py:660-665 | keeps exactly the positive values, in order |
| Text.ContainsIsSubstring | score_algorithm.py:483 | Python's `w in s` holds exactly when `w` occurs in `s` at some index |
| Text.Lower | score_algorithm.py:477 | lower-casing maps each ASCII capital to its small letter and keeps everything else and the length |
| Aggregation.PositiveMean | score_algorithm.py:660-670 | the sum of the positive values over their number, 0.0 when there are none; it is positive exactly when some value is, and lies between the smallest and largest positive value |
| Aggregation.NonPositiveIgnored | score_algorithm.py:660-665 | appending a batch value that is 0 or negative leaves that average unchanged |
| Aggregation.UniformMean | score_algorithm.py:668-670 | when every positive value is the same v, the average is v |
| Aggregation.RawAggregate | score_algorithm.py:636-700 | the two counts are the sums of the batches' counts; each of the three insights is the positive-only mean of that insight over the batches; the report counts every batch and lists one detail per batch in order |
| Aggregation.CountsBase | score_algorithm.py:652-657 | no batch gives counts of 0 and one batch gives its own counts, so with `CountsAdditive` the counts of any run are the per-batch sums |
| Aggregation.AggregateBatchResults | score_algorithm.py:675-700 | counts and details are kept; the tenure is Python's half-even `round` to hundredths and the rates to thousandths |
| Aggregation.Detail | score_algorithm.py:693-698 | a batch detail carries the batch number and size, or 0 and 0 when there is no `batch_info` |
| Aggregation.CountsAdditive | score_algorithm.py:652-657 | merging two runs of batches at once sums the counts and concatenates the details of merging each run alone |
| Aggregation.ZeroInsightBatchIgnored | score_algorithm.py:659-670 | a batch whose three insights are all 0 or negative leaves the three averages unchanged |
| AnalysisShape.AllPresent | score_algorithm.py:345-347 | the loop returns True exactly when every listed field is a key |
| AnalysisShape.ValidateAnalysis | score_algorithm.py:341-356 | valid exactly when the three sections and the two summary figures are present |
| AnalysisShape.ExtraKeysHarmless | score_algorithm.py:341-356 | extra keys never make a valid analysis invalid |
| AnalysisShape.ValidationExamples | test_score_algorithm.py:103-126 | the complete test dictionary passes; the one with a partial summary fails |
| Batching.TotalBatches | score_algorithm.py:103-104 | the fewest batches of at most 75 that hold n items; none exactly when n is 0 |
| Batching.Batch | score_algorithm.py:108-112 | each batch is non-empty and holds at most 75 items; every batch but the last is full; it is the input slice at 75·b |
| Batching.BatchesCover | score_algorithm.py:108-112 | the batches concatenated in order give back the stored profiles |
| Batching.FlattenSize | score_algorithm.py:108-112 | the sizes of the batches add up to the length of their concatenation |
| Batching.Attempt | score_algorithm.py:144-166 | a batch is answered exactly when the service answers it; an answer is tagged with the 1-based batch number, the batch count and the batch size |
| Batching.Successes | score_algorithm.py:117-122 | the kept answers are empty exactly when no batch is answered; they are every answer in batch order when all are answered |
| Batching.SuccessesConcat | score_algorithm.py:117-122 | keeping the answers of two runs of attempts is keeping those of their concatenation |
| Batching.SuccessesSingle | score_algorithm.py:117-122 | one attempt contributes its answer when there is one and nothing otherwise; with `SuccessesConcat`, every answer is kept in batch order |
| Batching.AnalyzeDatabase | score_algorithm.py:85-138 | the empty analysis results exactly when the service answers no batch, which includes an empty database; otherwise the report is the merge of exactly the answered batches, in batch order, and counts between 1 and all batches |
| Batching.AllBatchesAnswered | score_algorithm.py:103-138 | with every batch answered, the report counts every batch and numbers them 1, 2, … in order; their sizes add up to the number of stored profiles |
| ProfileValidator.AllFilled | gemini_client.py:90-93 | the field loop passes exactly when every required field is present and non-empty |
| ProfileValidator.ValidateProfessional | gemini_client.py:86-103 | valid exactly when the five fields are filled, the city equals the expected city ignoring case, and both names have two or more characters |
| ProfileValidator.ValidationIgnoresCityCase | gemini_client.py:96 | the expected city's letter case never changes the verdict |
| ProfileValidator.ValidationReadsRequiredOnly | gemini_client.py:86-103 | keys other than the five required ones never change the verdict |
| ProfileValidator.ValidOnly | gemini_client.py:70-73 | keeps exactly the valid records, and only them, in order |
| ProfileValidator.ValidOnlyConcat | gemini_client.py:70-73 | filtering distributes over concatenation |
| ProfileValidator.ValidOnlyIdempotent | gemini_client.py:70-73 | filtering twice equals filtering once |
| ProfileValidator.TakePrefix | gemini_client.py:76 | `xs[:n]` is a prefix of length min(n, len) for n ≥ 0, and of length max(len + n, 0) for negative n |
| ProfileValidator.SearchResults | gemini_client.py:70-76 | the result is a prefix of the valid records, all of them valid, with min(max_results, #valid) items when max_results ≥ 0 |
| FieldReshaper.ActorItemCount | apify_controller.py:28-29 | the requested item count is at least 10 and at least `max_results`, and is one of the two |
| FieldReshaper.SplitName | apify_controller.py:227 | `split(' ', 1)`: the first part has no space; rejoined with a space the parts give the full name when it has a space; with no space the whole name is the first part |
| FieldReshaper.SplitJoin | apify_controller.py:227 | splitting a joined name with a space-free first part gives back both parts |
| FieldReshaper.GetOrElse | apify_controller.py:248-249 | `d.get(k) or fallback`: the stored value when present and non-empty, the fallback otherwise |
| FieldReshaper.ExtractProfessional | apify_controller.py:220-264 | an item yields a professional exactly when it carries one of the four name keys; the city is lower-cased, the source fixed, and the company defaults to "Unknown" |
| FieldReshaper.FullNameFirst | apify_controller.py:225-234 | a `fullName` decides the name whatever else is present; the title comes from `jobTitle` or defaults |
| FieldReshaper.FullNameIgnoresOtherKeys | apify_controller.py:225-234 | with a `fullName`, only that key, `company` and `jobTitle` affect the result |
| FieldReshaper.NameSecond | apify_controller.py:237-246 | without `fullName`, `name` is split and `title` gives the job title |
| FieldReshaper.SeparateNamesFallBack | apify_controller.py:249-258 | `first_name`, `last_name` and `job_title` win when filled; the camel-case key or the default stands in when they are missing or empty |
| FieldReshaper.TransformResults | apify_controller.py:204-218 | the output keeps recognised items in input order, never grows, carries the lower-cased city, and drops exactly the unrecognised items |
| FieldReshaper.TransformConcat | apify_controller.py:204-218 | transforming distributes over concatenation |
| ScoreExamples.ParseA | test_score_algorithm.py:36 | "2 years 3 months" parses to 2.25 |
| ScoreExamples.ParseB | test_score_algorithm.py:37 | "1 year" parses to 1.0 |
| ScoreExamples.ParseC | test_score_algorithm.py:38 | "6 months" parses to 0.5 |
| ScoreExamples.ParseD | test_score_algorithm.py:39 | "1 year 6 months" parses to 1.5 |
| ScoreExamples.ParseE | test_score_algorithm.py:40 | "3 years 9 months" parses to 3.75 |
| ScoreExamples.ParseEmpty | test_score_algorithm.py:41 | "" parses to 0.0 |
| ScoreExamples.ParseInvalid | test_score_algorithm.py:42 | "invalid" parses to 0.0 |
| ScoreExamples.ParseF | test_score_algorithm.py:43 | "2 years and 3 months" parses to 2.25 |
| MetricsExamples.ExperienceTotal | test_score_algorithm.py:51-63 | the five test entries total 4.25 years |
| MetricsExamples.SampleMetrics | test_score_algorithm.py:65-101 | the three test records give 3 records, 2 with experience, average 5.625, median 7.5, min 3.75, max 7.5, rate 0.0, tenure 2.8125 |
| MetricsExamples.SampleRounded | test_score_algorithm.py:65-101 | after rounding, the average is 5.62 (the tie 5.625 goes to even), the median 7.5, and the tenure 2.81 |
| MetricsExamples.BlankTitlesNoProgression | score_algorithm.py:477-503 | titles with no text show none of the five progression patterns |
| PipelineExamples.BatchCounts | score_algorithm.py:103-104 | 0, 1, 75, 76, 150 and 151 profiles need 0, 1, 1, 2, 2 and 3 batches |
| PipelineExamples.SingleBatchMerge | test_score_algorithm.py:165-230 | one answered batch passes its counts and its insights 2.75, 0.8 and 0.7 through the merge |
| PipelineExamples.ExtractFullName | apify_controller.py:225-234 | "Ada King Lovelace" splits into "Ada" and "King Lovelace", with the default company and title |
| PipelineExamples.ExtractEmptyFirstName | apify_controller.py:247-249 | an empty `first_name` falls back to `firstName` |
| PipelineExamples.ValidationCases | gemini_client.py:86-103 | a complete record with an upper-case city passes; a one-letter first name fails |

## Left out

- **Network calls.** The AI service calls (prompt building, model call, JSON extraction from the
  reply, the text-only fallback parser) and the scraper calls (actor start, polling, dataset
  download) are not modelled. `_analyze_batch`'s service is a parameter of `Batching.Attempt`.
- **Surrounding I/O.** The database, the display, the command line, the 60-second sleeps between
  batches, and all printing are left out: they are I/O and do not affect the values.
- **The fallback analysis and the empty analysis.** The large-dataset fallback
  (score_algorithm.py:292-339) is outside the modelled core. So are the builders of two fixed
  dictionaries. One is the text-only analysis (score_algorithm.py:358-381). The other is the empty
  analysis (score_algorithm.py:383-406), for which `Batching.DatabaseAnalysis.EmptyAnalysis` stands.
- **Fixed or text entries of the merged report.** The merged report's `analysis_scope`,
  `detailed_analysis` and `calculation_method` strings are left out. So is the
  `experience_distribution` block, which always holds zeros. None of them carries a computed number.
- **Binary floating point.** The Python code computes in binary doubles; the model uses exact
  rationals. A sum of doubles and `round` on a double can differ from the exact value in the last
  place, so `round(x, 2)` on a value just below a tie is not modelled.
- **Unicode.** `str.lower()` is modelled on ASCII letters only. `\d` is modelled as the ASCII
  digits only, while Python also accepts other Unicode decimal digits.
- **Non-string JSON values.** Record and item fields are modelled as strings, and a missing key
  reads as the default the code passes to `get`. A JSON `null`, number or list in a string field is
  not modelled, nor is the path where `_extract_professional_data` catches the resulting exception and returns
  None.
- **Exception handlers.** The `except` blocks are modelled only where an exception is certain:
  the stability score's `TypeError`. The other handlers guard against malformed input that the
  typed model cannot express.
- **Batch answers already holding defaults.** `Aggregation.BatchAnalysis` holds the numbers after
  `.get(key, 0)`. A batch answer whose summary or insights are missing reads as zeros there.
- **`.strip()`.** The call in `_parse_duration_string` is not modelled. A match starts with a digit
  and ends with a letter, so stripping the text never changes what the search finds.
