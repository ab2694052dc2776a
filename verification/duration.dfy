/** Parsing of free-text durations such as "2 years 3 months" into fractional years
    (score_algorithm.py, `_parse_duration_string`). */
module Duration {
  import opened Text
  import opened Wrappers
  import opened Stats

  /** The two unit words the parser searches for. */
  datatype Unit = Year | Month

  function Word(u: Unit): (w: string)
    ensures |w| > 0 && !IsDigit(w[0]) && !IsSpace(w[0])
  {
    match u
    case Year => "year"
    case Month => "month"
  }

  /** The end of the run of digits that starts at `i`. */
  function DigitRunEnd(s: string, i: nat): (j: nat)
    requires i <= |s|
    ensures i <= j <= |s|
    ensures forall t :: i <= t < j ==> IsDigit(s[t])
    ensures j == |s| || !IsDigit(s[j])
    decreases |s| - i
  {
    if i < |s| && IsDigit(s[i]) then DigitRunEnd(s, i + 1) else i
  }

  /** The end of the run of whitespace that starts at `i`. */
  function SpaceRunEnd(s: string, i: nat): (j: nat)
    requires i <= |s|
    ensures i <= j <= |s|
    ensures forall t :: i <= t < j ==> IsSpace(s[t])
    ensures j == |s| || !IsSpace(s[j])
    decreases |s| - i
  {
    if i < |s| && IsSpace(s[i]) then SpaceRunEnd(s, i + 1) else i
  }

  predicate WordAt(s: string, k: nat, w: string) {
    k + |w| <= |s| && s[k..k + |w|] == w
  }

  /** The pattern `(\d+)\s*<word>` matches `s` from index `i` to `k + |word|`, with its group
      spanning `s[i..j]` and the whitespace spanning `s[j..k]`. */
  ghost predicate MatchesAt(s: string, u: Unit, i: int, j: int, k: int) {
    && 0 <= i < j <= k
    && k + |Word(u)| <= |s|
    && (forall t :: i <= t < j ==> IsDigit(s[t]))
    && (forall t :: j <= t < k ==> IsSpace(s[t]))
    && s[k..k + |Word(u)|] == Word(u)
  }

  /** No match starts before `i` at or after `from`. */
  ghost predicate LeftmostFrom(s: string, u: Unit, from: int, i: int) {
    forall i', j', k' :: from <= i' && MatchesAt(s, u, i', j', k') ==> i <= i'
  }

  /** A match can only end its digit group and its whitespace where the runs end, because the unit
      word starts with neither a digit nor a space: the regex has exactly one way to match from `i`. */
  lemma MatchIsMaximal(s: string, u: Unit, i: int, j: int, k: int)
    requires MatchesAt(s, u, i, j, k)
    ensures j == DigitRunEnd(s, i) && k == SpaceRunEnd(s, j)
  {
    var w := Word(u);
    assert s[k] == s[k..k + |w|][0] == w[0];
    assert !IsSpace(s[k]);
    assert !IsDigit(s[j]) by {
      if j < k {
        assert IsSpace(s[j]);
      }
    }
  }

  /** Every start position inside a digit run shares the run's end. */
  lemma RunEndShared(s: string, i: nat, i': nat)
    requires i <= |s| && i <= i' < DigitRunEnd(s, i)
    ensures DigitRunEnd(s, i') == DigitRunEnd(s, i)
    decreases i' - i
  {
    if i < i' {
      RunEndShared(s, i + 1, i');
    }
  }

  /** `re.search(r'(\d+)\s*<word>', s)` over start positions `from` and later: the value of the
      group of the leftmost match, or None when there is no match (see `ScanFromFindsLeftmost`). */
  function ScanFrom(s: string, u: Unit, from: nat): Option<nat>
    requires from <= |s|
    decreases |s| - from
  {
    if from == |s| then None
    else if !IsDigit(s[from]) then ScanFrom(s, u, from + 1)
    else
      var j := DigitRunEnd(s, from);
      var k := SpaceRunEnd(s, j);
      if WordAt(s, k, Word(u)) then Some(DigitsValue(s[from..j])) else ScanFrom(s, u, j)
  }

  /** No match starts at a character that is not a digit. */
  lemma NoMatchAtNonDigit(s: string, u: Unit, i: nat)
    requires i < |s| && !IsDigit(s[i])
    ensures forall j, k :: !MatchesAt(s, u, i, j, k)
  {
  }

  /** A match starting inside the digit run at `i` finds the unit word where the scan from `i` looks. */
  lemma MatchInRunFindsWord(s: string, u: Unit, i: nat, i': nat, j': nat, k': nat)
    requires i < |s| && i <= i' < DigitRunEnd(s, i)
    requires MatchesAt(s, u, i', j', k')
    ensures WordAt(s, SpaceRunEnd(s, DigitRunEnd(s, i)), Word(u))
  {
    MatchIsMaximal(s, u, i', j', k');
    RunEndShared(s, i, i');
  }

  /** When the word does not follow a digit run, no match starts anywhere inside that run. */
  lemma NoMatchInFailedRun(s: string, u: Unit, i: nat)
    requires i < |s| && IsDigit(s[i])
    requires !WordAt(s, SpaceRunEnd(s, DigitRunEnd(s, i)), Word(u))
    ensures forall i', j', k' :: i <= i' < DigitRunEnd(s, i) ==> !MatchesAt(s, u, i', j', k')
  {
    forall i', j', k' | i <= i' < DigitRunEnd(s, i) && MatchesAt(s, u, i', j', k')
      ensures false
    {
      MatchInRunFindsWord(s, u, i, i', j', k');
    }
  }

  /** The scanner agrees with the regex: it finds nothing exactly when no match starts at `from` or
      later, and otherwise returns the group of the leftmost such match. */
  lemma {:induction false} ScanFromFindsLeftmost(s: string, u: Unit, from: nat)
    requires from <= |s|
    ensures ScanFrom(s, u, from).None? <==> forall i, j, k :: from <= i ==> !MatchesAt(s, u, i, j, k)
    ensures ScanFrom(s, u, from).Some? ==> exists i, j, k ::
              && from <= i
              && MatchesAt(s, u, i, j, k)
              && LeftmostFrom(s, u, from, i)
              && ScanFrom(s, u, from).value == DigitsValue(s[i..j])
    decreases |s| - from
  {
    if from == |s| {
    } else if !IsDigit(s[from]) {
      NoMatchAtNonDigit(s, u, from);
      ScanFromFindsLeftmost(s, u, from + 1);
    } else {
      var j := DigitRunEnd(s, from);
      var k := SpaceRunEnd(s, j);
      if WordAt(s, k, Word(u)) {
        assert MatchesAt(s, u, from, j, k);
      } else {
        NoMatchInFailedRun(s, u, from);
        ScanFromFindsLeftmost(s, u, j);
      }
    }
  }

  /** A digit run is where the digits stop. */
  lemma {:induction false} DigitRunEndAt(s: string, i: nat, j: nat)
    requires i <= j <= |s|
    requires forall t :: i <= t < j ==> IsDigit(s[t])
    requires j == |s| || !IsDigit(s[j])
    ensures DigitRunEnd(s, i) == j
    decreases j - i
  {
    if i < j {
      DigitRunEndAt(s, i + 1, j);
    }
  }

  /** A whitespace run is where the whitespace stops. */
  lemma {:induction false} SpaceRunEndAt(s: string, i: nat, j: nat)
    requires i <= j <= |s|
    requires forall t :: i <= t < j ==> IsSpace(s[t])
    requires j == |s| || !IsSpace(s[j])
    ensures SpaceRunEnd(s, i) == j
    decreases j - i
  {
    if i < j {
      SpaceRunEndAt(s, i + 1, j);
    }
  }

  /** The scan passes over text without digits. */
  lemma {:induction false} ScanSkipsNonDigits(s: string, u: Unit, i: nat, j: nat)
    requires i <= j <= |s|
    requires forall t :: i <= t < j ==> !IsDigit(s[t])
    ensures ScanFrom(s, u, i) == ScanFrom(s, u, j)
    decreases j - i
  {
    if i < j {
      ScanSkipsNonDigits(s, u, i + 1, j);
    }
  }

  /** The scan at a digit run: it reports the run's value when the unit word follows after optional
      whitespace, and otherwise goes on after the run. */
  lemma ScanAtDigits(s: string, u: Unit, i: nat, j: nat, k: nat)
    requires i < j <= k <= |s|
    requires forall t :: i <= t < j ==> IsDigit(s[t])
    requires j == |s| || !IsDigit(s[j])
    requires forall t :: j <= t < k ==> IsSpace(s[t])
    requires k == |s| || !IsSpace(s[k])
    ensures WordAt(s, k, Word(u)) ==> ScanFrom(s, u, i) == Some(DigitsValue(s[i..j]))
    ensures !WordAt(s, k, Word(u)) ==> ScanFrom(s, u, i) == ScanFrom(s, u, j)
  {
    DigitRunEndAt(s, i, j);
    SpaceRunEndAt(s, j, k);
  }

  /** The number in front of the first occurrence of the unit word, as the regex captures it. */
  function FirstCount(s: string, u: Unit): Option<nat> {
    ScanFrom(s, u, 0)
  }

  /** `FirstCount` is `re.search`: None exactly when the pattern matches nowhere, otherwise the
      digits of the match that starts leftmost. */
  lemma FirstCountIsLeftmostMatch(s: string, u: Unit)
    ensures FirstCount(s, u).None? <==> forall i, j, k :: !MatchesAt(s, u, i, j, k)
    ensures FirstCount(s, u).Some? ==> exists i, j, k ::
              && MatchesAt(s, u, i, j, k)
              && LeftmostFrom(s, u, 0, i)
              && FirstCount(s, u).value == DigitsValue(s[i..j])
  {
    ScanFromFindsLeftmost(s, u, 0);
  }

  /** The whole years a duration text states: the leftmost `<digits> year` in the lower-cased text, or 0. */
  function YearsNumber(text: string): nat {
    FirstCount(Lower(text), Year).GetOr(0)
  }

  /** The months a duration text states, found the same way as the years. */
  function MonthsNumber(text: string): nat {
    FirstCount(Lower(text), Month).GetOr(0)
  }

  /** `y` years and `m` months in years. */
  function InYears(y: nat, m: nat): real {
    y as real + m as real / 12.0
  }

  /** The years a text denotes before rounding. */
  function ExactYears(text: string): real {
    InYears(YearsNumber(text), MonthsNumber(text))
  }

  /** `y` years and `m` months rounded to hundredths of a year, in closed form. */
  function Hundredths(y: nat, m: nat): nat {
    100 * y + (25 * m + 1) / 3
  }

  /** 100 (y + m / 12) is never a half-way value, and rounds to `Hundredths(y, m)`. */
  lemma {:induction false} DurationRounding(y: nat, m: nat)
    ensures RoundedUnits(InYears(y, m), 100) == Hundredths(y, m)
    ensures -0.5 < 100.0 * InYears(y, m) - Hundredths(y, m) as real < 0.5
  {
    var q := (25 * m) / 3;
    var rem := (25 * m) % 3;
    assert 25 * m == 3 * q + rem;
    var scaled := InYears(y, m) * 100.0;
    assert scaled == (100 * y + q) as real + rem as real / 3.0;
    assert scaled.Floor == 100 * y + q;
    if rem == 2 {
      assert (25 * m + 1) / 3 == q + 1;
    } else {
      assert (25 * m + 1) / 3 == q;
    }
  }

  /** Rounding y + m / 12 to two decimals gives `Hundredths(y, m) / 100`, with no tie to break. */
  lemma RoundedDuration(y: nat, m: nat)
    ensures 100.0 * Round(InYears(y, m), 100) == Hundredths(y, m) as real
    ensures -0.5 < 100.0 * (Round(InYears(y, m), 100) - InYears(y, m)) < 0.5
    ensures Round(InYears(y, m), 100) >= 0.0
  {
    var x := InYears(y, m);
    var r := Round(x, 100);
    var h := Hundredths(y, m) as real;
    DurationRounding(y, m);
    assert r * 100.0 == h;
    assert -0.5 < 100.0 * x - h < 0.5;
  }

  /** Python's `_parse_duration_string`: lower-case the text, take the leftmost year count and the
      leftmost month count (0 when absent), and round years + months / 12 to two decimals. */
  function ParseDuration(text: string): (years: real)
    ensures years >= 0.0
  {
    var y := YearsNumber(text);
    var m := MonthsNumber(text);
    RoundedDuration(y, m);
    Round(InYears(y, m), 100)
  }

  /** The parsed value is the exact value rounded to hundredths of a year, which is never a tie, and
      has the closed form `(100 y + (25 m + 1) / 3) / 100`. */
  lemma ParseDurationValue(text: string)
    ensures 100.0 * ParseDuration(text) == Hundredths(YearsNumber(text), MonthsNumber(text)) as real
    ensures -0.5 < 100.0 * (ParseDuration(text) - ExactYears(text)) < 0.5
  {
    RoundedDuration(YearsNumber(text), MonthsNumber(text));
  }

  /** The parser does not distinguish upper from lower case. */
  lemma ParseIgnoresCase(text: string)
    ensures ParseDuration(Upper(text)) == ParseDuration(text)
    ensures ParseDuration(Lower(text)) == ParseDuration(text)
  {
    LowerOfUpper(text);
    LowerIdempotent(text);
    assert YearsNumber(Upper(text)) == YearsNumber(text) == YearsNumber(Lower(text));
    assert MonthsNumber(Upper(text)) == MonthsNumber(text) == MonthsNumber(Lower(text));
  }
}
