/** Checking and trimming the professionals an AI search returns (gemini_client.py,
    `_validate_professional` and the filter-then-truncate step of `search_professionals`). */
module ProfileValidator {
  import opened Text

  /** A returned professional: a JSON object whose values are all strings. */
  type Record = map<string, string>

  const RequiredFields: seq<string> := ["first_name", "last_name", "company", "job_title", "city"]

  /** Present and truthy: the key exists and its string is not empty. */
  predicate Filled(r: Record, field: string) {
    field in r && r[field] != ""
  }

  /** The loop over `required_fields`: stops at the first field that is missing or empty. */
  function AllFilled(r: Record, fields: seq<string>): (ok: bool)
    ensures ok <==> forall t :: 0 <= t < |fields| ==> Filled(r, fields[t])
  {
    if |fields| == 0 then true
    else if !Filled(r, fields[0]) then false
    else
      var rest := AllFilled(r, fields[1..]);
      assert forall t :: 1 <= t < |fields| ==> fields[t] == fields[1..][t - 1];
      rest
  }

  /** `_validate_professional`: every required field filled, the city equal to the expected one
      ignoring case, and both names at least two characters long. */
  function ValidateProfessional(r: Record, expectedCity: string): (ok: bool)
    ensures ok <==>
              && Filled(r, "first_name") && Filled(r, "last_name") && Filled(r, "company")
              && Filled(r, "job_title") && Filled(r, "city")
              && Lower(r["city"]) == Lower(expectedCity)
              && |r["first_name"]| >= 2 && |r["last_name"]| >= 2
  {
    var filled := AllFilled(r, RequiredFields);
    assert RequiredFields[0] == "first_name" && RequiredFields[1] == "last_name";
    assert RequiredFields[2] == "company" && RequiredFields[3] == "job_title";
    assert RequiredFields[4] == "city";
    if !filled then false
    else if Lower(r["city"]) != Lower(expectedCity) then false
    else if |r["first_name"]| < 2 || |r["last_name"]| < 2 then false
    else true
  }

  /** The expected city is compared without regard to case. */
  lemma ValidationIgnoresCityCase(r: Record, city: string)
    ensures ValidateProfessional(r, Upper(city)) == ValidateProfessional(r, city)
    ensures ValidateProfessional(r, Lower(city)) == ValidateProfessional(r, city)
  {
    LowerOfUpper(city);
    LowerIdempotent(city);
  }

  /** Only the five required fields matter: other keys never change the verdict. */
  lemma ValidationReadsRequiredOnly(r: Record, key: string, value: string, city: string)
    requires key !in RequiredFields
    ensures ValidateProfessional(r[key := value], city) == ValidateProfessional(r, city)
  {
    var r' := r[key := value];
    assert forall f :: f in RequiredFields ==>
      (f in r' <==> f in r) && (f in r ==> r'[f] == r[f]);
  }

  /** The valid records, in their original order (`cleaned_professionals`). */
  function ValidOnly(rs: seq<Record>, city: string): (vs: seq<Record>)
    ensures |vs| <= |rs|
    ensures forall t :: 0 <= t < |vs| ==> ValidateProfessional(vs[t], city)
    ensures forall x :: x in vs <==> x in rs && ValidateProfessional(x, city)
  {
    if |rs| == 0 then []
    else
      var rest := ValidOnly(rs[1..], city);
      assert forall x :: x in rs <==> x == rs[0] || x in rs[1..];
      if ValidateProfessional(rs[0], city) then [rs[0]] + rest else rest
  }

  /** Filtering two runs of records one after the other is filtering their concatenation. */
  lemma {:induction false} ValidOnlyConcat(a: seq<Record>, b: seq<Record>, city: string)
    ensures ValidOnly(a + b, city) == ValidOnly(a, city) + ValidOnly(b, city)
  {
    if |a| == 0 {
      assert a + b == b;
    } else {
      assert (a + b)[1..] == a[1..] + b;
      ValidOnlyConcat(a[1..], b, city);
    }
  }

  /** Filtering twice keeps what filtering once kept. */
  lemma {:induction false} ValidOnlyIdempotent(rs: seq<Record>, city: string)
    ensures ValidOnly(ValidOnly(rs, city), city) == ValidOnly(rs, city)
  {
    if |rs| > 0 {
      ValidOnlyIdempotent(rs[1..], city);
    }
  }

  /** Python's `xs[:n]`: the first `n` items for `n >= 0`; for a negative `n`, all but the last
      `-n` items (nothing when `-n` reaches the length). */
  function TakePrefix<X>(xs: seq<X>, n: int): (ys: seq<X>)
    ensures n >= 0 ==> |ys| == if n <= |xs| then n else |xs|
    ensures n < 0 ==> |ys| == if |xs| + n >= 0 then |xs| + n else 0
    ensures ys == xs[..|ys|]
  {
    if n >= 0 then (if n <= |xs| then xs[..n] else xs)
    else if |xs| + n >= 0 then xs[..|xs| + n]
    else []
  }

  /** The last step of `search_professionals`: keep the valid records, then at most `max_results` of
      them, the first ones. */
  function SearchResults(rs: seq<Record>, city: string, maxResults: int): (out: seq<Record>)
    ensures forall t :: 0 <= t < |out| ==> ValidateProfessional(out[t], city)
    ensures |out| <= |ValidOnly(rs, city)|
    ensures out == ValidOnly(rs, city)[..|out|]
    ensures maxResults >= 0 ==> |out| == if maxResults <= |ValidOnly(rs, city)| then maxResults else |ValidOnly(rs, city)|
  {
    var valid := ValidOnly(rs, city);
    var out := TakePrefix(valid, maxResults);
    assert forall t :: 0 <= t < |out| ==> out[t] == valid[t];
    out
  }
}
