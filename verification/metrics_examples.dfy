module MetricsExamples {
  import opened Wrappers
  import opened Text
  import opened Stats
  import opened Duration
  import opened Metrics
  import opened ScoreExamples

  /** An experience entry with only a duration, as in the repository's tests. */
  function Stint(duration: string): ExperienceEntry {
    ExperienceEntry("", "", duration)
  }

  lemma YearsG(s: string)
    requires s == "5 years"
    ensures FirstCount(s, Year) == Some(5)
  {
    ScanAtDigits(s, Year, 0, 1, 2);
    assert s[0..1] == "5" && WordAt(s, 2, "year");
  }

  lemma MonthsG(s: string)
    requires s == "5 years"
    ensures FirstCount(s, Month) == None
  {
    ScanAtDigits(s, Month, 0, 1, 2);
    assert !WordAt(s, 2, "month");
    ScanSkipsNonDigits(s, Month, 1, 7);
  }

  lemma ParseG()
    ensures ParseDuration("5 years") == 5.0
  {
    assert Lower("5 years") == "5 years";
    YearsG("5 years");
    MonthsG("5 years");
    ValueFromCounts("5 years", 5, 0, 500);
  }

  lemma LowerH()
    ensures Lower("2 years 6 months") == "2 years 6 months"
  {
  }

  lemma YearsH(s: string)
    requires s == "2 years 6 months"
    ensures FirstCount(s, Year) == Some(2)
  {
    ScanAtDigits(s, Year, 0, 1, 2);
    assert s[0..1] == "2" && WordAt(s, 2, "year");
  }

  lemma MonthsHSkip(s: string)
    requires s == "2 years 6 months"
    ensures ScanFrom(s, Month, 0) == ScanFrom(s, Month, 8)
  {
    ScanAtDigits(s, Month, 0, 1, 2);
    assert !WordAt(s, 2, "month");
    ScanSkipsNonDigits(s, Month, 1, 8);
  }

  lemma MonthsHFound(s: string)
    requires s == "2 years 6 months"
    ensures ScanFrom(s, Month, 8) == Some(6)
  {
    ScanAtDigits(s, Month, 8, 9, 10);
    assert s[8..9] == "6" && WordAt(s, 10, "month");
  }

  lemma ParseH()
    ensures ParseDuration("2 years 6 months") == 2.5
  {
    LowerH();
    YearsH("2 years 6 months");
    MonthsHSkip("2 years 6 months");
    MonthsHFound("2 years 6 months");
    ValueFromCounts("2 years 6 months", 2, 6, 250);
  }

  lemma FiveSum(ds: seq<real>)
    requires ds == [2.25, 1.5, 0.5, 0.0, 0.0]
    ensures Sum(ds) == 4.25
  {
    assert ds[1..] == [1.5, 0.5, 0.0, 0.0] && ds[1..][1..] == [0.5, 0.0, 0.0];
    assert ds[1..][1..][1..] == [0.0, 0.0] && ds[1..][1..][1..][1..] == [0.0];
    assert ds[1..][1..][1..][1..][1..] == [];
    assert Sum([0.0]) == 0.0;
    assert Sum([0.0, 0.0]) == 0.0;
    assert Sum([0.5, 0.0, 0.0]) == 0.5;
    assert Sum([1.5, 0.5, 0.0, 0.0]) == 2.0;
  }

  /** Five entries whose durations parse to 2.25, 1.5, 0.5, 0.0 (empty) and 0.0 years. */
  lemma FiveStints(es: seq<ExperienceEntry>, a: string, b: string, c: string, e: string)
    requires es == [Stint(a), Stint(b), Stint(c), Stint(""), Stint(e)]
    requires ParseDuration(a) == 2.25 && ParseDuration(b) == 1.5 && ParseDuration(c) == 0.5
    requires ParseDuration(e) == 0.0
    ensures YearsFromExperience(es) == 4.25
  {
    EmptyDurationIsZero();
    YearsAreSumOfDurations(es);
    var ds := ParsedDurations(es);
    assert ds == [2.25, 1.5, 0.5, 0.0, 0.0];
    FiveSum(ds);
  }

  /** The repository's years test: 2.25 + 1.5 + 0.5 years, the empty and the unparseable entry
      adding nothing. */
  lemma ExperienceTotal(es: seq<ExperienceEntry>)
    requires es == [Stint("2 years 3 months"), Stint("1 year 6 months"), Stint("6 months"), Stint(""), Stint("invalid")]
    ensures YearsFromExperience(es) == 4.25
  {
    ParseA();
    ParseD();
    ParseC();
    ParseInvalid("invalid");
    FiveStints(es, "2 years 3 months", "1 year 6 months", "6 months", "invalid");
  }

  /** Two-entry records: durations only, positions and companies empty. */
  lemma PairTotal(p: Profile, d1: string, d2: string, v1: real, v2: real)
    requires p.experience == [Stint(d1), Stint(d2)]
    requires ParseDuration(d1) == v1 && ParseDuration(d2) == v2
    ensures TotalYears(p) == v1 + v2
  {
    YearsAreSumOfDurations(p.experience);
    assert ParsedDurations(p.experience) == [v1, v2];
    assert Sum([v1, v2]) == v1 + Sum([v2]);
    assert [v1, v2][1..] == [v2];
    assert [v2][1..] == [];
  }

  /** The three records of the repository's metrics test. */
  function SampleProfiles(): seq<Profile> {
    [ Profile([Stint("2 years 3 months"), Stint("1 year 6 months")]),
      Profile([Stint("5 years"), Stint("2 years 6 months")]),
      Profile([]) ]
  }

  /** The shape of the sample with the four durations left as parameters whose parses are known. */
  predicate SampleShape(profs: seq<Profile>, a: string, b: string, c: string, d: string) {
    && profs == [Profile([Stint(a), Stint(b)]), Profile([Stint(c), Stint(d)]), Profile([])]
    && ParseDuration(a) == 2.25 && ParseDuration(b) == 1.5
    && ParseDuration(c) == 5.0 && ParseDuration(d) == 2.5
  }

  lemma SampleTotals(profs: seq<Profile>, a: string, b: string, c: string, d: string)
    requires SampleShape(profs, a, b, c, d)
    ensures Totals(profs) == [3.75, 7.5, 0.0]
  {
    PairTotal(profs[0], a, b, 2.25, 1.5);
    PairTotal(profs[1], c, d, 5.0, 2.5);
    assert TotalYears(profs[2]) == 0.0;
  }

  lemma SampleYears(profs: seq<Profile>, a: string, b: string, c: string, d: string)
    requires SampleShape(profs, a, b, c, d)
    ensures ExperienceYears(profs) == [3.75, 7.5]
  {
    SampleTotals(profs, a, b, c, d);
    var ts := [3.75, 7.5, 0.0];
    assert ts[1..] == [7.5, 0.0] && ts[1..][1..] == [0.0] && ts[1..][1..][1..] == [];
    assert Positives(ts) == [3.75, 7.5];
  }

  lemma PairTenures(p: Profile, d1: string, d2: string, v1: real, v2: real)
    requires p.experience == [Stint(d1), Stint(d2)]
    requires ParseDuration(d1) == v1 && ParseDuration(d2) == v2 && v1 > 0.0 && v2 > 0.0
    ensures PositiveTenures(p.experience) == [v1, v2]
  {
    assert ParsedDurations(p.experience) == [v1, v2];
    assert [v1, v2][1..] == [v2];
    assert [v2][1..] == [];
  }

  lemma SampleTenures(profs: seq<Profile>, a: string, b: string, c: string, d: string)
    requires SampleShape(profs, a, b, c, d)
    ensures AllTenures(profs) == [2.25, 1.5, 5.0, 2.5]
  {
    PairTenures(profs[0], a, b, 2.25, 1.5);
    PairTenures(profs[1], c, d, 5.0, 2.5);
    assert profs[1..][1..][1..] == [];
    assert AllTenures(profs[1..][1..]) == [];
    assert AllTenures(profs[1..]) == [5.0, 2.5];
  }

  lemma TenureSum(ts: seq<real>)
    requires ts == [2.25, 1.5, 5.0, 2.5]
    ensures Sum(ts) == 11.25
  {
    assert ts[1..] == [1.5, 5.0, 2.5] && ts[1..][1..] == [5.0, 2.5] && ts[1..][1..][1..] == [2.5];
    assert ts[1..][1..][1..][1..] == [];
    assert Sum([2.5]) == 2.5;
    assert Sum([5.0, 2.5]) == 7.5;
    assert Sum([1.5, 5.0, 2.5]) == 9.0;
  }

  /** Four positive durations adding up to 11.25 years average to 2.8125. */
  lemma TenureOfFour(profs: seq<Profile>)
    requires |AllTenures(profs)| == 4 && Sum(AllTenures(profs)) == 11.25
    ensures AverageJobTenure(profs) == 2.8125
  {
    MeanIs(AllTenures(profs), 2.8125);
  }

  lemma SampleTenure(profs: seq<Profile>, a: string, b: string, c: string, d: string)
    requires SampleShape(profs, a, b, c, d)
    ensures AverageJobTenure(profs) == 2.8125
  {
    SampleTenures(profs, a, b, c, d);
    TenureSum(AllTenures(profs));
    TenureOfFour(profs);
  }

  /** No non-empty word occurs in a list of blank titles. */
  lemma NoBlankTitleContains(titles: seq<string>, w: string)
    requires |w| > 0
    requires forall t :: 0 <= t < |titles| ==> titles[t] == ""
    ensures !AnyTitleContains(titles, w)
  {
    forall t | 0 <= t < |titles|
      ensures !Contains(titles[t], w)
    {
      assert titles[t] == "";
    }
  }

  /** Every "from" word of the title patterns and every junior keyword has text. */
  lemma KeywordsNonEmpty()
    ensures forall t :: 0 <= t < |TitlePatterns| ==> |TitlePatterns[t].0| > 0
    ensures forall t :: 0 <= t < |JuniorKeywords| ==> |JuniorKeywords[t]| > 0
  {
  }

  /** Titles with no text show no progression. */
  lemma BlankTitlesNoProgression(titles: seq<string>)
    requires |titles| >= 2
    requires forall t :: 0 <= t < |titles| ==> titles[t] == ""
    ensures !ShowsProgression(titles)
  {
    KeywordsNonEmpty();
    var older := titles[..|titles| - 1];
    forall t | 0 <= t < |TitlePatterns|
      ensures !PatternFound(titles, TitlePatterns[t])
    {
      NoBlankTitleContains(older, TitlePatterns[t].0);
    }
    forall t | 0 <= t < |JuniorKeywords|
      ensures !Contains(titles[0], JuniorKeywords[t])
    {
      NoBlankTitleContains(titles, JuniorKeywords[t]);
    }
  }

  lemma SampleNoneProgressed(profs: seq<Profile>, a: string, b: string, c: string, d: string)
    requires SampleShape(profs, a, b, c, d)
    ensures forall t :: 0 <= t < |profs| ==> !Progressed(profs[t])
  {
    assert Lower("") == "";
    BlankTitlesNoProgression(Titles(profs[0].experience));
    BlankTitlesNoProgression(Titles(profs[1].experience));
    assert !Progressed(profs[2]);
  }

  lemma SampleRate(profs: seq<Profile>, a: string, b: string, c: string, d: string)
    requires SampleShape(profs, a, b, c, d)
    ensures CareerProgressionRate(profs) == 0.0
  {
    SampleNoneProgressed(profs, a, b, c, d);
  }

  lemma SampleSpread()
    ensures Mean([3.75, 7.5]) == 5.625
    ensures KthSmallest([3.75, 7.5], 1) == 7.5
    ensures Minimum([3.75, 7.5]) == 3.75 && Maximum([3.75, 7.5]) == 7.5
  {
    var ys := [3.75, 7.5];
    assert ys[1..] == [7.5] && ys[1..][1..] == [];
    assert Sum(ys) == 11.25;
    assert Sort([7.5]) == [7.5];
    assert Sort(ys) == Insert(3.75, [7.5]) == [3.75, 7.5];
  }

  lemma SampleMetricsOf(profs: seq<Profile>, a: string, b: string, c: string, d: string)
    requires SampleShape(profs, a, b, c, d)
    ensures RawExperienceMetrics(profs) == ExperienceMetrics(5.625, 3, 2, 0.0, 0.0, 2.8125, Some(Spread(7.5, 3.75, 7.5)))
  {
    SampleYears(profs, a, b, c, d);
    SampleTenure(profs, a, b, c, d);
    SampleRate(profs, a, b, c, d);
    SampleSpread();
  }

  /** The repository's metrics test: three records, two with experience (3.75 and 7.5 years). */
  lemma SampleMetrics(profs: seq<Profile>)
    requires profs == SampleProfiles()
    ensures RawExperienceMetrics(profs) == ExperienceMetrics(5.625, 3, 2, 0.0, 0.0, 2.8125, Some(Spread(7.5, 3.75, 7.5)))
  {
    ParseA();
    ParseD();
    ParseG();
    ParseH();
    SampleMetricsOf(profs, "2 years 3 months", "1 year 6 months", "5 years", "2 years 6 months");
  }

  /** After the output rounding: 5.625 is a tie and goes to the even 5.62; 2.8125 rounds to 2.81. */
  lemma SampleRounded(profs: seq<Profile>)
    requires profs == SampleProfiles()
    ensures CalculateExperienceMetrics(profs) == ExperienceMetrics(5.62, 3, 2, 0.0, 0.0, 2.81, Some(Spread(7.5, 3.75, 7.5)))
  {
    SampleMetrics(profs);
    RoundingFacts();
  }

  lemma RoundingFacts()
    ensures Round(5.625, 100) == 5.62 && Round(7.5, 100) == 7.5 && Round(2.8125, 100) == 2.81
    ensures Round(0.0, 1000) == 0.0
  {
    assert RoundedUnits(5.625, 100) == 562;
    assert RoundedUnits(7.5, 100) == 750;
    assert RoundedUnits(2.8125, 100) == 281;
    assert RoundedUnits(0.0, 1000) == 0;
  }
}
