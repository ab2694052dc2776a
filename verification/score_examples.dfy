/** Worked examples: the values the repository's own tests expect, derived from the model. */
module ScoreExamples {
  import opened Wrappers
  import opened Text
  import opened Duration

  /** A parse result from the two counts, through the closed form. */
  lemma ValueFromCounts(text: string, y: nat, m: nat, h: nat)
    requires YearsNumber(text) == y && MonthsNumber(text) == m && Hundredths(y, m) == h
    ensures ParseDuration(text) == h as real / 100.0
  {
    ParseDurationValue(text);
  }

  // "2 years 3 months" -> 2.25

  lemma LowerA()
    ensures Lower("2 years 3 months") == "2 years 3 months"
  {
  }

  lemma YearsA(s: string)
    requires s == "2 years 3 months"
    ensures FirstCount(s, Year) == Some(2)
  {
    ScanAtDigits(s, Year, 0, 1, 2);
    assert s[0..1] == "2" && WordAt(s, 2, "year");
  }

  lemma MonthsASkip(s: string)
    requires s == "2 years 3 months"
    ensures ScanFrom(s, Month, 0) == ScanFrom(s, Month, 8)
  {
    ScanAtDigits(s, Month, 0, 1, 2);
    assert !WordAt(s, 2, "month");
    ScanSkipsNonDigits(s, Month, 1, 8);
  }

  lemma MonthsAFound(s: string)
    requires s == "2 years 3 months"
    ensures ScanFrom(s, Month, 8) == Some(3)
  {
    ScanAtDigits(s, Month, 8, 9, 10);
    assert s[8..9] == "3" && WordAt(s, 10, "month");
  }

  lemma MonthsA()
    ensures FirstCount("2 years 3 months", Month) == Some(3)
  {
    MonthsASkip("2 years 3 months");
    MonthsAFound("2 years 3 months");
  }

  lemma ParseA()
    ensures ParseDuration("2 years 3 months") == 2.25
  {
    LowerA();
    YearsA("2 years 3 months");
    MonthsA();
    ValueFromCounts("2 years 3 months", 2, 3, 225);
  }

  // "1 year" -> 1.0

  lemma YearsB(s: string)
    requires s == "1 year"
    ensures FirstCount(s, Year) == Some(1)
  {
    ScanAtDigits(s, Year, 0, 1, 2);
    assert s[0..1] == "1" && WordAt(s, 2, "year");
  }

  lemma MonthsB(s: string)
    requires s == "1 year"
    ensures FirstCount(s, Month) == None
  {
    ScanAtDigits(s, Month, 0, 1, 2);
    assert !WordAt(s, 2, "month");
    ScanSkipsNonDigits(s, Month, 1, 6);
  }

  lemma ParseB()
    ensures ParseDuration("1 year") == 1.0
  {
    assert Lower("1 year") == "1 year";
    YearsB("1 year");
    MonthsB("1 year");
    ValueFromCounts("1 year", 1, 0, 100);
  }

  // "6 months" -> 0.5

  lemma YearsC(s: string)
    requires s == "6 months"
    ensures FirstCount(s, Year) == None
  {
    ScanAtDigits(s, Year, 0, 1, 2);
    assert !WordAt(s, 2, "year");
    ScanSkipsNonDigits(s, Year, 1, 8);
  }

  lemma MonthsC(s: string)
    requires s == "6 months"
    ensures FirstCount(s, Month) == Some(6)
  {
    ScanAtDigits(s, Month, 0, 1, 2);
    assert s[0..1] == "6" && WordAt(s, 2, "month");
  }

  lemma ParseC()
    ensures ParseDuration("6 months") == 0.5
  {
    assert Lower("6 months") == "6 months";
    YearsC("6 months");
    MonthsC("6 months");
    ValueFromCounts("6 months", 0, 6, 50);
  }

  // "1 year 6 months" -> 1.5

  lemma LowerD()
    ensures Lower("1 year 6 months") == "1 year 6 months"
  {
  }

  lemma YearsD(s: string)
    requires s == "1 year 6 months"
    ensures FirstCount(s, Year) == Some(1)
  {
    ScanAtDigits(s, Year, 0, 1, 2);
    assert s[0..1] == "1" && WordAt(s, 2, "year");
  }

  lemma MonthsDSkip(s: string)
    requires s == "1 year 6 months"
    ensures ScanFrom(s, Month, 0) == ScanFrom(s, Month, 7)
  {
    ScanAtDigits(s, Month, 0, 1, 2);
    assert !WordAt(s, 2, "month");
    ScanSkipsNonDigits(s, Month, 1, 7);
  }

  lemma MonthsDFound(s: string)
    requires s == "1 year 6 months"
    ensures ScanFrom(s, Month, 7) == Some(6)
  {
    ScanAtDigits(s, Month, 7, 8, 9);
    assert s[7..8] == "6" && WordAt(s, 9, "month");
  }

  lemma MonthsD()
    ensures FirstCount("1 year 6 months", Month) == Some(6)
  {
    MonthsDSkip("1 year 6 months");
    MonthsDFound("1 year 6 months");
  }

  lemma ParseD()
    ensures ParseDuration("1 year 6 months") == 1.5
  {
    LowerD();
    YearsD("1 year 6 months");
    MonthsD();
    ValueFromCounts("1 year 6 months", 1, 6, 150);
  }

  // "3 years 9 months" -> 3.75

  lemma LowerE()
    ensures Lower("3 years 9 months") == "3 years 9 months"
  {
  }

  lemma YearsE(s: string)
    requires s == "3 years 9 months"
    ensures FirstCount(s, Year) == Some(3)
  {
    ScanAtDigits(s, Year, 0, 1, 2);
    assert s[0..1] == "3" && WordAt(s, 2, "year");
  }

  lemma MonthsESkip(s: string)
    requires s == "3 years 9 months"
    ensures ScanFrom(s, Month, 0) == ScanFrom(s, Month, 8)
  {
    ScanAtDigits(s, Month, 0, 1, 2);
    assert !WordAt(s, 2, "month");
    ScanSkipsNonDigits(s, Month, 1, 8);
  }

  lemma MonthsEFound(s: string)
    requires s == "3 years 9 months"
    ensures ScanFrom(s, Month, 8) == Some(9)
  {
    ScanAtDigits(s, Month, 8, 9, 10);
    assert s[8..9] == "9" && WordAt(s, 10, "month");
  }

  lemma MonthsE()
    ensures FirstCount("3 years 9 months", Month) == Some(9)
  {
    MonthsESkip("3 years 9 months");
    MonthsEFound("3 years 9 months");
  }

  lemma ParseE()
    ensures ParseDuration("3 years 9 months") == 3.75
  {
    LowerE();
    YearsE("3 years 9 months");
    MonthsE();
    ValueFromCounts("3 years 9 months", 3, 9, 375);
  }

  // "" and "invalid" -> 0.0

  lemma ParseEmpty()
    ensures ParseDuration("") == 0.0
  {
    assert Lower("") == "";
    ValueFromCounts("", 0, 0, 0);
  }

  lemma ParseInvalid(s: string)
    requires s == "invalid"
    ensures ParseDuration(s) == 0.0
  {
    assert Lower(s) == s;
    ScanSkipsNonDigits(s, Year, 0, 7);
    ScanSkipsNonDigits(s, Month, 0, 7);
    ValueFromCounts(s, 0, 0, 0);
  }

  // "2 years and 3 months" -> 2.25: text between the number groups does not matter

  lemma LowerF()
    ensures Lower("2 years and 3 months") == "2 years and 3 months"
  {
  }

  lemma YearsF(s: string)
    requires s == "2 years and 3 months"
    ensures FirstCount(s, Year) == Some(2)
  {
    ScanAtDigits(s, Year, 0, 1, 2);
    assert s[0..1] == "2" && WordAt(s, 2, "year");
  }

  lemma MonthsFSkipYears(s: string)
    requires s == "2 years and 3 months"
    ensures ScanFrom(s, Month, 0) == ScanFrom(s, Month, 7)
  {
    ScanAtDigits(s, Month, 0, 1, 2);
    assert !WordAt(s, 2, "month");
    ScanSkipsNonDigits(s, Month, 1, 7);
  }

  lemma MonthsFSkipAnd(s: string)
    requires s == "2 years and 3 months"
    ensures ScanFrom(s, Month, 7) == ScanFrom(s, Month, 12)
  {
    ScanSkipsNonDigits(s, Month, 7, 12);
  }

  lemma MonthsFFound(s: string)
    requires s == "2 years and 3 months"
    ensures ScanFrom(s, Month, 12) == Some(3)
  {
    ScanAtDigits(s, Month, 12, 13, 14);
    assert s[12..13] == "3" && WordAt(s, 14, "month");
  }

  lemma MonthsF()
    ensures FirstCount("2 years and 3 months", Month) == Some(3)
  {
    MonthsFSkipYears("2 years and 3 months");
    MonthsFSkipAnd("2 years and 3 months");
    MonthsFFound("2 years and 3 months");
  }

  lemma ParseF()
    ensures ParseDuration("2 years and 3 months") == 2.25
  {
    LowerF();
    YearsF("2 years and 3 months");
    MonthsF();
    ValueFromCounts("2 years and 3 months", 2, 3, 225);
  }
}
