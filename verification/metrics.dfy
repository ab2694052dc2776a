/** Per-batch career metrics over profile records (score_algorithm.py, `calculate_experience_metrics`
    and the helpers it calls). */
module Metrics {
  import opened Text
  import opened Wrappers
  import opened Stats
  import opened Duration

  /** One employment stint; a key missing from the stored record reads as "". */
  datatype ExperienceEntry = ExperienceEntry(position: string, companyName: string, duration: string)

  /** A stored profile as far as the metrics read it; a missing `experience` reads as []. */
  datatype Profile = Profile(experience: seq<ExperienceEntry>)

  // ---------------------------------------------------------------------------------------------
  // Years per record (`_calculate_years_from_experience`)

  /** Total years of a record: the parsed durations of its entries with a non-empty duration, summed. */
  function YearsFromExperience(entries: seq<ExperienceEntry>): (total: real)
    ensures total >= 0.0
  {
    if |entries| == 0 then 0.0
    else
      var years := if entries[0].duration != "" then ParseDuration(entries[0].duration) else 0.0;
      years + YearsFromExperience(entries[1..])
  }

  /** The parsed duration of every entry, empty ones included. */
  function ParsedDurations(entries: seq<ExperienceEntry>): (ds: seq<real>)
    ensures |ds| == |entries|
    ensures forall t :: 0 <= t < |entries| ==> ds[t] == ParseDuration(entries[t].duration)
  {
    seq(|entries|, t requires 0 <= t < |entries| => ParseDuration(entries[t].duration))
  }

  lemma EmptyDurationIsZero()
    ensures ParseDuration("") == 0.0
  {
    assert FirstCount("", Year) == None;
    assert FirstCount("", Month) == None;
  }

  /** Skipping empty durations changes nothing: a record's years are the plain sum of all its
      parsed durations, each of them non-negative. */
  lemma {:induction false} YearsAreSumOfDurations(entries: seq<ExperienceEntry>)
    ensures YearsFromExperience(entries) == Sum(ParsedDurations(entries))
  {
    if |entries| > 0 {
      EmptyDurationIsZero();
      YearsAreSumOfDurations(entries[1..]);
      assert ParsedDurations(entries)[1..] == ParsedDurations(entries[1..]);
    }
  }

  /** The years of a record split in two are the years of the parts added together. */
  lemma {:induction false} YearsConcat(a: seq<ExperienceEntry>, b: seq<ExperienceEntry>)
    ensures YearsFromExperience(a + b) == YearsFromExperience(a) + YearsFromExperience(b)
  {
    YearsAreSumOfDurations(a);
    YearsAreSumOfDurations(b);
    YearsAreSumOfDurations(a + b);
    assert ParsedDurations(a + b) == ParsedDurations(a) + ParsedDurations(b);
    SumConcat(ParsedDurations(a), ParsedDurations(b));
  }

  function TotalYears(p: Profile): real {
    YearsFromExperience(p.experience)
  }

  /** A record counts as having experience exactly when its total is positive. */
  predicate HasExperience(p: Profile) {
    TotalYears(p) > 0.0
  }

  /** Every record's total, in input order. */
  function Totals(profs: seq<Profile>): (ts: seq<real>)
    ensures |ts| == |profs|
    ensures forall t :: 0 <= t < |profs| ==> ts[t] == TotalYears(profs[t])
  {
    seq(|profs|, t requires 0 <= t < |profs| => TotalYears(profs[t]))
  }

  /** The list `experience_years` builds (score_algorithm.py:417-425): the positive totals in input
      order, one per record with experience. */
  function ExperienceYears(profs: seq<Profile>): (ys: seq<real>)
    ensures ys == Positives(Totals(profs))
    ensures |ys| == CountWhere(profs, HasExperience)
  {
    if |profs| == 0 then []
    else
      var rest := ExperienceYears(profs[1..]);
      assert Totals(profs) == [TotalYears(profs[0])] + Totals(profs[1..]);
      var years := TotalYears(profs[0]);
      if years > 0.0 then [years] + rest else rest
  }

  // ---------------------------------------------------------------------------------------------
  // Career progression (`_calculate_career_progression_rate`)

  const SeniorKeywords: seq<string> :=
    ["senior", "lead", "principal", "director", "manager", "head", "chief", "vp", "c-level"]
  const JuniorKeywords: seq<string> := ["junior", "assistant", "associate", "entry", "intern"]

  /** The four "from -> to" title patterns checked one by one (score_algorithm.py:483-496). */
  const TitlePatterns: seq<(string, string)> :=
    [("junior", "senior"), ("assistant", "manager"), ("developer", "lead"), ("analyst", "director")]

  /** The lower-cased positions of a record, most recent first as stored. */
  function Titles(entries: seq<ExperienceEntry>): (ts: seq<string>)
    ensures |ts| == |entries|
  {
    seq(|entries|, t requires 0 <= t < |entries| => Lower(entries[t].position))
  }

  /** Python's `any(w in title for title in titles)`. */
  predicate AnyTitleContains(titles: seq<string>, w: string) {
    exists t :: 0 <= t < |titles| && Contains(titles[t], w)
  }

  /** Python's `any(keyword in title for keyword in keywords)`. */
  predicate ContainsAnyOf(title: string, keywords: seq<string>) {
    exists t :: 0 <= t < |keywords| && Contains(title, keywords[t])
  }

  /** A "from" title among all but the last entry and a "to" title among all but the first. */
  predicate PatternFound(titles: seq<string>, pattern: (string, string))
    requires |titles| >= 2
  {
    AnyTitleContains(titles[..|titles| - 1], pattern.0) && AnyTitleContains(titles[1..], pattern.1)
  }

  /** Any of the five patterns holds; several holding still count once. */
  predicate ShowsProgression(titles: seq<string>)
    requires |titles| >= 2
  {
    || (exists t :: 0 <= t < |TitlePatterns| && PatternFound(titles, TitlePatterns[t]))
    || (ContainsAnyOf(titles[0], JuniorKeywords) && ContainsAnyOf(titles[|titles| - 1], SeniorKeywords))
  }

  /** The checks at score_algorithm.py:480-503 in their order: the four title patterns one by one,
      then the junior-to-senior keyword test, each setting the flag when it holds. */
  method FindProgression(titles: seq<string>) returns (found: bool)
    requires |titles| >= 2
    ensures found <==> ShowsProgression(titles)
  {
    found := false;
    var older := titles[..|titles| - 1];
    var newer := titles[1..];
    for t := 0 to |TitlePatterns|
      invariant found <==> exists i :: 0 <= i < t && PatternFound(titles, TitlePatterns[i])
    {
      var pattern := TitlePatterns[t];
      if AnyTitleContains(older, pattern.0) && AnyTitleContains(newer, pattern.1) {
        found := true;
      }
    }
    if ContainsAnyOf(titles[0], JuniorKeywords) && ContainsAnyOf(titles[|titles| - 1], SeniorKeywords) {
      found := true;
    }
  }

  /** Records with at least two entries are the only ones the rate looks at. */
  predicate Assessed(p: Profile) {
    |p.experience| >= 2
  }

  predicate Progressed(p: Profile) {
    Assessed(p) && ShowsProgression(Titles(p.experience))
  }

  /** The two counters of the loop at score_algorithm.py:471-506: records showing progression and
      records assessed. */
  function ProgressionTally(profs: seq<Profile>): (tally: (nat, nat))
    ensures tally.0 == CountWhere(profs, Progressed)
    ensures tally.1 == CountWhere(profs, Assessed)
    ensures tally.0 <= tally.1
  {
    if |profs| == 0 then (0, 0)
    else
      var rest := ProgressionTally(profs[1..]);
      var p := profs[0];
      if |p.experience| >= 2 then
        (if ShowsProgression(Titles(p.experience)) then rest.0 + 1 else rest.0, rest.1 + 1)
      else rest
  }

  /** The share of assessed records whose titles show progression, 0.0 when none is assessed. */
  function CareerProgressionRate(profs: seq<Profile>): (rate: real)
    ensures CountWhere(profs, Assessed) == 0 ==> rate == 0.0
    ensures CountWhere(profs, Assessed) > 0 ==>
              rate == CountWhere(profs, Progressed) as real / CountWhere(profs, Assessed) as real
    ensures 0.0 <= rate <= 1.0
    ensures rate > 0.0 <==> exists t :: 0 <= t < |profs| && Progressed(profs[t])
    ensures rate == 1.0 <==> CountWhere(profs, Assessed) > 0 && CountWhere(profs, Progressed) == CountWhere(profs, Assessed)
  {
    var tally := ProgressionTally(profs);
    CountPositive(profs, Progressed);
    if tally.1 == 0 then 0.0
    else
      Ratio(tally.0, tally.1);
      tally.0 as real / tally.1 as real
  }

  lemma Ratio(a: nat, b: nat)
    requires a <= b && b > 0
    ensures 0.0 <= a as real / b as real <= 1.0
    ensures a as real / b as real > 0.0 <==> a > 0
    ensures a as real / b as real == 1.0 <==> a == b
  {
    var q := a as real / b as real;
    assert q * b as real == a as real;
  }

  /** A count is positive exactly when some element satisfies the predicate. */
  lemma {:induction false} CountPositive<T>(xs: seq<T>, p: T -> bool)
    ensures CountWhere(xs, p) > 0 <==> exists t :: 0 <= t < |xs| && p(xs[t])
  {
    if |xs| > 0 {
      CountPositive(xs[1..], p);
      if p(xs[0]) {
      } else {
        assert forall t :: 1 <= t < |xs| ==> xs[t] == xs[1..][t - 1];
      }
    }
  }

  /** The two counters over a concatenation are the counters of the parts added together. */
  lemma TallyConcat(a: seq<Profile>, b: seq<Profile>)
    ensures ProgressionTally(a + b).0 == ProgressionTally(a).0 + ProgressionTally(b).0
    ensures ProgressionTally(a + b).1 == ProgressionTally(a).1 + ProgressionTally(b).1
  {
    CountWhereConcat(a, b, Progressed);
    CountWhereConcat(a, b, Assessed);
  }

  /** The rate depends on the two counters only. */
  lemma RateFollowsTally(x: seq<Profile>, y: seq<Profile>)
    requires ProgressionTally(x) == ProgressionTally(y)
    ensures CareerProgressionRate(x) == CareerProgressionRate(y)
  {
  }

  /** A record with fewer than two entries, wherever it stands, changes neither counter, so the rate
      is the same with or without it. */
  lemma ShortRecordIgnored(a: seq<Profile>, p: Profile, b: seq<Profile>)
    requires |p.experience| < 2
    ensures CareerProgressionRate(a + [p] + b) == CareerProgressionRate(a + b)
  {
    TallyConcat(a + [p], b);
    TallyConcat(a, [p]);
    TallyConcat(a, b);
    assert [p][1..] == [];
    assert ProgressionTally([p]) == (0, 0);
    RateFollowsTally(a + [p] + b, a + b);
  }

  // ---------------------------------------------------------------------------------------------
  // Industry stability (`_calculate_industry_stability_score`)

  /** The non-empty company names of the entries (score_algorithm.py:532-533). */
  function NamedCompanies(entries: seq<ExperienceEntry>): (cs: seq<string>)
    ensures |cs| == 0 <==> forall t :: 0 <= t < |entries| ==> entries[t].companyName == ""
  {
    if |entries| == 0 then []
    else
      var rest := NamedCompanies(entries[1..]);
      assert forall t :: 1 <= t < |entries| ==> entries[t] == entries[1..][t - 1];
      if entries[0].companyName != "" then [entries[0].companyName] + rest else rest
  }

  predicate HasEntries(p: Profile) {
    |p.experience| >= 1
  }

  /** A record that reaches the indicator code: it has entries and at least one names a company. */
  predicate NamesCompany(p: Profile) {
    |p.experience| >= 1 && exists t :: 0 <= t < |p.experience| && p.experience[t].companyName != ""
  }

  /** How the loop at score_algorithm.py:526-556 ends: with its two counters, or with the TypeError
      that `len(unique_companies)` raises at line 549, `unique_companies` being an int. */
  datatype StabilityRun = Finished(indicators: nat, qualifying: nat) | RaisedTypeError

  /** The stability loop. A record with entries but no company name is counted and skipped; the first
      record with a company name raises before any indicator can be kept. */
  function StabilityLoop(profs: seq<Profile>): (run: StabilityRun)
    ensures run.RaisedTypeError? <==> exists t :: 0 <= t < |profs| && NamesCompany(profs[t])
    ensures run.Finished? ==> run.indicators == 0 && run.qualifying == CountWhere(profs, HasEntries)
  {
    if |profs| == 0 then Finished(0, 0)
    else
      var p := profs[0];
      assert forall t :: 1 <= t < |profs| ==> profs[t] == profs[1..][t - 1];
      if |p.experience| >= 1 then
        if |NamedCompanies(p.experience)| == 0 then
          match StabilityLoop(profs[1..])
          case Finished(indicators, qualifying) => Finished(indicators, qualifying + 1)
          case RaisedTypeError => RaisedTypeError
        else
          RaisedTypeError
      else
        StabilityLoop(profs[1..])
  }

  /** The stability score the source returns: 0.0 when nothing qualifies (line 559), 0 / (4 n) when
      every qualifying record is skipped (line 562), and 0.0 from the handler at line 566 otherwise. */
  function IndustryStabilityScore(profs: seq<Profile>): (score: real)
    ensures score == 0.0
  {
    match StabilityLoop(profs)
    case RaisedTypeError => 0.0
    case Finished(indicators, qualifying) =>
      if qualifying == 0 then 0.0 else indicators as real / (qualifying * 4) as real
  }

  // ---------------------------------------------------------------------------------------------
  // Job tenure (`_calculate_average_job_tenure`)

  /** The parsed durations of the entries that are positive, in order: the values the tenure loop
      adds up and counts (score_algorithm.py:579-585). */
  function PositiveTenures(entries: seq<ExperienceEntry>): (ts: seq<real>)
    ensures ts == Positives(ParsedDurations(entries))
  {
    if |entries| == 0 then []
    else
      var rest := PositiveTenures(entries[1..]);
      assert ParsedDurations(entries) == [ParseDuration(entries[0].duration)] + ParsedDurations(entries[1..]);
      EmptyDurationIsZero();
      var duration := entries[0].duration;
      if duration != "" && ParseDuration(duration) > 0.0 then [ParseDuration(duration)] + rest else rest
  }

  /** All entries of all records, record after record. */
  function AllEntries(profs: seq<Profile>): seq<ExperienceEntry> {
    if |profs| == 0 then [] else profs[0].experience + AllEntries(profs[1..])
  }

  /** The positive parsed durations over all records, record after record. */
  function AllTenures(profs: seq<Profile>): (ts: seq<real>)
    ensures ts == Positives(ParsedDurations(AllEntries(profs)))
  {
    if |profs| == 0 then []
    else
      var entries := profs[0].experience;
      var rest := AllEntries(profs[1..]);
      assert ParsedDurations(entries + rest) == ParsedDurations(entries) + ParsedDurations(rest);
      PositivesConcat(ParsedDurations(entries), ParsedDurations(rest));
      PositiveTenures(entries) + AllTenures(profs[1..])
  }

  /** The flat per-job average: the mean of the positive parsed durations across all entries of all
      records, 0.0 when there are none. */
  function AverageJobTenure(profs: seq<Profile>): (tenure: real)
    ensures |AllTenures(profs)| == 0 ==> tenure == 0.0
    ensures |AllTenures(profs)| > 0 ==>
              0.0 < Minimum(AllTenures(profs)) <= tenure <= Maximum(AllTenures(profs))
  {
    var ts := AllTenures(profs);
    if |ts| == 0 then 0.0
    else
      assert Minimum(ts) > 0.0;
      Mean(ts)
  }

  /** The tenure is the plain average of the positive durations over all records. */
  lemma TenureIsMean(profs: seq<Profile>)
    requires |AllTenures(profs)| > 0
    ensures AverageJobTenure(profs) == Sum(AllTenures(profs)) / |AllTenures(profs)| as real
  {
  }

  /** Only entries that parse to more than zero take part: adding a record whose entries all parse to
      0.0 (empty, unparseable or "0 months") leaves the tenure unchanged. */
  lemma ZeroEntriesIgnored(profs: seq<Profile>, p: Profile)
    requires forall t :: 0 <= t < |p.experience| ==> ParseDuration(p.experience[t].duration) == 0.0
    ensures AverageJobTenure(profs + [p]) == AverageJobTenure(profs)
  {
    AllEntriesConcat(profs, [p]);
    assert AllEntries([p]) == p.experience;
    var a := AllEntries(profs);
    assert ParsedDurations(a + p.experience) == ParsedDurations(a) + ParsedDurations(p.experience);
    PositivesConcat(ParsedDurations(a), ParsedDurations(p.experience));
    NoPositives(ParsedDurations(p.experience));
    assert ParsedDurations(a) + ParsedDurations(p.experience) + [] == ParsedDurations(a) + ParsedDurations(p.experience);
    assert AllTenures(profs + [p]) == AllTenures(profs);
  }

  lemma {:induction false} NoPositives(xs: seq<real>)
    requires forall t :: 0 <= t < |xs| ==> xs[t] == 0.0
    ensures Positives(xs) == []
  {
    if |xs| > 0 {
      NoPositives(xs[1..]);
    }
  }

  lemma {:induction false} AllEntriesConcat(a: seq<Profile>, b: seq<Profile>)
    ensures AllEntries(a + b) == AllEntries(a) + AllEntries(b)
  {
    if |a| == 0 {
      assert a + b == b;
    } else {
      assert (a + b)[1..] == a[1..] + b;
      AllEntriesConcat(a[1..], b);
    }
  }

  /** Tenure is per job, not per record: regrouping all entries into one record changes nothing. */
  lemma TenureIgnoresGrouping(profs: seq<Profile>)
    ensures AverageJobTenure(profs) == AverageJobTenure([Profile(AllEntries(profs))])
  {
    var single := [Profile(AllEntries(profs))];
    assert AllEntries(single) == AllEntries(profs) + AllEntries(single[1..]);
    assert AllEntries(single) == AllEntries(profs);
  }

  // ---------------------------------------------------------------------------------------------
  // The metrics dictionary (`calculate_experience_metrics`)

  /** The keys present only when some record has experience. */
  datatype Spread = Spread(medianYears: real, minYears: real, maxYears: real)

  /** The dictionary `calculate_experience_metrics` returns. */
  datatype ExperienceMetrics = ExperienceMetrics(
    averageYears: real,
    totalProfessionals: nat,
    professionalsWithExperience: nat,
    careerProgressionRate: real,
    industryStabilityScore: real,
    averageJobTenure: real,
    spread: Option<Spread>)

  /** The metrics before the output rounding. The median is `sorted(years)[n // 2]`, the upper middle
      value when n is even. */
  function RawExperienceMetrics(profs: seq<Profile>): (m: ExperienceMetrics)
    ensures m.totalProfessionals == |profs|
    ensures m.professionalsWithExperience == CountWhere(profs, HasExperience)
    ensures m.spread.None? <==> m.professionalsWithExperience == 0
    ensures m.spread.None? ==>
              && m.averageYears == 0.0 && m.careerProgressionRate == 0.0
              && m.industryStabilityScore == 0.0 && m.averageJobTenure == 0.0
    ensures m.spread.Some? ==>
              && m.careerProgressionRate == CareerProgressionRate(profs)
              && m.industryStabilityScore == 0.0
              && m.averageJobTenure == AverageJobTenure(profs)
  {
    var ys := ExperienceYears(profs);
    if |ys| == 0 then
      ExperienceMetrics(0.0, |profs|, 0, 0.0, 0.0, 0.0, None)
    else
      var average := Mean(ys);
      var median := KthSmallest(ys, |ys| / 2);
      ExperienceMetrics(
        average, |profs|, |ys|,
        CareerProgressionRate(profs), IndustryStabilityScore(profs), AverageJobTenure(profs),
        Some(Spread(median, Minimum(ys), Maximum(ys))))
  }

  /** With experience present, the average, the median and the extremes describe the positive
      totals: the average is their sum over their number, the median has fewer than half of them
      strictly below it and more than half at or below it, and min and max bound all of them. */
  lemma SpreadDescribesYears(profs: seq<Profile>)
    requires RawExperienceMetrics(profs).spread.Some?
    ensures var m := RawExperienceMetrics(profs);
            var ys := Positives(Totals(profs));
            var s := m.spread.value;
            && m.averageYears == Sum(ys) / |ys| as real
            && s.minYears in ys && s.maxYears in ys && s.medianYears in ys
            && (forall t :: 0 <= t < |ys| ==> s.minYears <= ys[t] <= s.maxYears)
            && CountBelow(ys, s.medianYears) <= |ys| / 2 < CountAtMost(ys, s.medianYears)
            && s.minYears <= m.averageYears <= s.maxYears
            && s.minYears <= s.medianYears <= s.maxYears
  {
  }

  /** The output rounding at score_algorithm.py:447-455: mean, median and tenure to two decimals,
      the two rates to three; counts, minimum and maximum untouched. */
  function RoundMetrics(m: ExperienceMetrics): (r: ExperienceMetrics)
    ensures r.totalProfessionals == m.totalProfessionals
    ensures r.professionalsWithExperience == m.professionalsWithExperience
    ensures r.averageYears == Round(m.averageYears, 100)
    ensures r.averageJobTenure == Round(m.averageJobTenure, 100)
    ensures r.careerProgressionRate == Round(m.careerProgressionRate, 1000)
    ensures r.industryStabilityScore == Round(m.industryStabilityScore, 1000)
    ensures -0.5 <= (r.averageYears - m.averageYears) * 100.0 <= 0.5
    ensures -0.5 <= (r.averageJobTenure - m.averageJobTenure) * 100.0 <= 0.5
    ensures -0.5 <= (r.careerProgressionRate - m.careerProgressionRate) * 1000.0 <= 0.5
    ensures -0.5 <= (r.industryStabilityScore - m.industryStabilityScore) * 1000.0 <= 0.5
    ensures r.spread.None? <==> m.spread.None?
    ensures m.spread.Some? ==>
              && r.spread.value.minYears == m.spread.value.minYears
              && r.spread.value.maxYears == m.spread.value.maxYears
              && r.spread.value.medianYears == Round(m.spread.value.medianYears, 100)
              && -0.5 <= (r.spread.value.medianYears - m.spread.value.medianYears) * 100.0 <= 0.5
  {
    var spread := match m.spread
      case None => None
      case Some(s) => Some(Spread(Round(s.medianYears, 100), s.minYears, s.maxYears));
    ExperienceMetrics(
      Round(m.averageYears, 100), m.totalProfessionals, m.professionalsWithExperience,
      Round(m.careerProgressionRate, 1000), Round(m.industryStabilityScore, 1000),
      Round(m.averageJobTenure, 100), spread)
  }

  /** `calculate_experience_metrics`: the counts of records and of records with experience; with no
      experience every figure 0.0 and no spread keys; otherwise the mean and the upper median of the
      positive totals to two decimals, their extremes as they are, the progression rate to three
      decimals, the stability score 0.0 and the job tenure to two decimals. */
  function CalculateExperienceMetrics(profs: seq<Profile>): (m: ExperienceMetrics)
    ensures m.totalProfessionals == |profs|
    ensures m.professionalsWithExperience == CountWhere(profs, HasExperience)
    ensures m.spread.None? <==> m.professionalsWithExperience == 0
    ensures m.spread.None? ==>
              && m.averageYears == 0.0 && m.careerProgressionRate == 0.0
              && m.industryStabilityScore == 0.0 && m.averageJobTenure == 0.0
    ensures m.spread.Some? ==>
              var ys := ExperienceYears(profs);
              && |ys| > 0
              && m.averageYears == Round(Sum(ys) / |ys| as real, 100)
              && m.spread.value.medianYears == Round(KthSmallest(ys, |ys| / 2), 100)
              && m.spread.value.minYears == Minimum(ys)
              && m.spread.value.maxYears == Maximum(ys)
              && m.careerProgressionRate == Round(CareerProgressionRate(profs), 1000)
              && m.industryStabilityScore == 0.0
              && m.averageJobTenure == Round(AverageJobTenure(profs), 100)
  {
    var raw := RawExperienceMetrics(profs);
    RoundZero(100);
    RoundZero(1000);
    if raw.spread.Some? then
      SpreadDescribesYears(profs);
      RoundMetrics(raw)
    else RoundMetrics(raw)
  }
}
