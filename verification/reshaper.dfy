/** Reshaping scraped profile items into the stored professional format (apify_controller.py,
    `_extract_professional_data`, `_transform_results` and the item-count floor of
    `search_professionals_with_linkedin_scraper`). */
module FieldReshaper {
  import opened Wrappers
  import opened Text

  /** A scraped item: a JSON object whose values are all strings. */
  type Item = map<string, string>

  /** The dictionary `_extract_professional_data` builds. */
  datatype Professional = Professional(
    firstName: string, lastName: string, company: string, jobTitle: string, city: string, source: string)

  const Source: string := "HarvestAPI LinkedIn"
  const DefaultCompany: string := "Unknown"
  const DefaultTitle: string := "Professional"

  /** The item count the scraper is asked for: `max(10, max_results)` (apify_controller.py:29). */
  function ActorItemCount(maxResults: int): (n: int)
    ensures n >= 10 && n >= maxResults
    ensures n == 10 || n == maxResults
  {
    if maxResults > 10 then maxResults else 10
  }

  /** `full.split(' ', 1)` read as (first part, second part or ""): cut at the first space, or keep
      the whole text as the first name when there is none. */
  function SplitName(full: string): (parts: (string, string))
    ensures ' ' !in parts.0
    ensures ' ' in full ==> parts.0 + " " + parts.1 == full
    ensures ' ' !in full ==> parts == (full, "")
  {
    if |full| == 0 then ("", "")
    else if full[0] == ' ' then ("", full[1..])
    else
      var rest := SplitName(full[1..]);
      assert full == [full[0]] + full[1..];
      ([full[0]] + rest.0, rest.1)
  }

  /** Splitting undoes joining: a first name without spaces and any last name come back apart. */
  lemma {:induction false} SplitJoin(first: string, last: string)
    requires ' ' !in first
    ensures SplitName(first + " " + last) == (first, last)
  {
    var full := first + " " + last;
    if |first| > 0 {
      assert full[1..] == first[1..] + " " + last;
      assert ' ' !in first[1..] by {
        assert forall t :: 0 <= t < |first[1..]| ==> first[1..][t] == first[t + 1];
      }
      SplitJoin(first[1..], last);
      assert [first[0]] + first[1..] == first;
    } else {
      assert full == " " + last;
    }
  }

  /** `item.get(key, default)`. */
  function GetOr(item: Item, key: string, default: string): (v: string)
    ensures key in item ==> v == item[key]
    ensures key !in item ==> v == default
  {
    if key in item then item[key] else default
  }

  /** `item.get(key) or fallback`: the stored value unless it is missing or empty. */
  function GetOrElse(item: Item, key: string, fallback: string): (v: string)
    ensures key in item && item[key] != "" ==> v == item[key]
    ensures !(key in item && item[key] != "") ==> v == fallback
  {
    if key in item && item[key] != "" then item[key] else fallback
  }

  /** An item the extractor recognises: it carries one of the four name keys. */
  predicate HasNameKey(item: Item) {
    "fullName" in item || "name" in item || "first_name" in item || "firstName" in item
  }

  /** `_extract_professional_data`. The name formats are tried in order: `fullName`, then `name`
      (each split at the first space), then separate first and last names; an item with none of
      them gives None. Every result carries the lower-cased search city and the fixed source. */
  function ExtractProfessional(item: Item, city: string): (p: Option<Professional>)
    ensures p.None? <==> !HasNameKey(item)
    ensures p.Some? ==> p.value.city == Lower(city) && p.value.source == Source
    ensures p.Some? ==> p.value.company == GetOr(item, "company", DefaultCompany)
  {
    if "fullName" in item then
      var parts := SplitName(item["fullName"]);
      Some(Professional(parts.0, parts.1, GetOr(item, "company", DefaultCompany),
                        GetOr(item, "jobTitle", DefaultTitle), Lower(city), Source))
    else if "name" in item then
      var parts := SplitName(item["name"]);
      Some(Professional(parts.0, parts.1, GetOr(item, "company", DefaultCompany),
                        GetOr(item, "title", DefaultTitle), Lower(city), Source))
    else if "first_name" in item || "firstName" in item then
      Some(Professional(
        GetOrElse(item, "first_name", GetOr(item, "firstName", "")),
        GetOrElse(item, "last_name", GetOr(item, "lastName", "")),
        GetOr(item, "company", DefaultCompany),
        GetOrElse(item, "job_title", GetOr(item, "title", DefaultTitle)),
        Lower(city), Source))
    else None
  }

  /** A `fullName` decides the name whatever else the item holds, and joining the extracted first
      and last name (when it had a space) gives it back. */
  lemma FullNameFirst(item: Item, city: string)
    requires "fullName" in item
    ensures var p := ExtractProfessional(item, city).value;
            && ' ' !in p.firstName
            && (' ' in item["fullName"] ==> p.firstName + " " + p.lastName == item["fullName"])
            && (' ' !in item["fullName"] ==> p.firstName == item["fullName"] && p.lastName == "")
            && p.jobTitle == GetOr(item, "jobTitle", DefaultTitle)
  {
  }

  /** Keys the chosen format does not read never change the result: with a `fullName`, only that
      key, `company` and `jobTitle` matter. */
  lemma FullNameIgnoresOtherKeys(item: Item, city: string, key: string, value: string)
    requires "fullName" in item && key != "fullName" && key != "company" && key != "jobTitle"
    ensures ExtractProfessional(item[key := value], city) == ExtractProfessional(item, city)
  {
    var item' := item[key := value];
    assert item'["fullName"] == item["fullName"];
    assert GetOr(item', "company", DefaultCompany) == GetOr(item, "company", DefaultCompany);
    assert GetOr(item', "jobTitle", DefaultTitle) == GetOr(item, "jobTitle", DefaultTitle);
  }

  /** Without `fullName`, a `name` decides the name and `title` the job title. */
  lemma NameSecond(item: Item, city: string)
    requires "fullName" !in item && "name" in item
    ensures var p := ExtractProfessional(item, city).value;
            && (p.firstName, p.lastName) == SplitName(item["name"])
            && p.jobTitle == GetOr(item, "title", DefaultTitle)
  {
  }

  /** With separate names, `first_name` wins when it is filled and `firstName` stands in when it is
      missing or empty; likewise for the last name and the job title. */
  lemma SeparateNamesFallBack(item: Item, city: string)
    requires "fullName" !in item && "name" !in item && ("first_name" in item || "firstName" in item)
    ensures var p := ExtractProfessional(item, city).value;
            && ("first_name" in item && item["first_name"] != "" ==> p.firstName == item["first_name"])
            && (!("first_name" in item && item["first_name"] != "") ==> p.firstName == GetOr(item, "firstName", ""))
            && ("last_name" in item && item["last_name"] != "" ==> p.lastName == item["last_name"])
            && (!("last_name" in item && item["last_name"] != "") ==> p.lastName == GetOr(item, "lastName", ""))
            && ("job_title" in item && item["job_title"] != "" ==> p.jobTitle == item["job_title"])
            && (!("job_title" in item && item["job_title"] != "") ==> p.jobTitle == GetOr(item, "title", DefaultTitle))
  {
  }

  /** `_transform_results`: the extracted professionals of the recognised items, in input order. */
  function TransformResults(items: seq<Item>, city: string): (ps: seq<Professional>)
    ensures |ps| <= |items|
    ensures forall t :: 0 <= t < |ps| ==> ps[t].city == Lower(city) && ps[t].source == Source
    ensures (forall t :: 0 <= t < |items| ==> HasNameKey(items[t])) ==>
              |ps| == |items| && forall t :: 0 <= t < |items| ==> Some(ps[t]) == ExtractProfessional(items[t], city)
    ensures (forall t :: 0 <= t < |items| ==> !HasNameKey(items[t])) ==> ps == []
  {
    if |items| == 0 then []
    else
      var rest := TransformResults(items[1..], city);
      assert forall t :: 1 <= t < |items| ==> items[t] == items[1..][t - 1];
      match ExtractProfessional(items[0], city)
      case None => rest
      case Some(p) => [p] + rest
  }

  /** Transforming two runs of items one after the other is transforming their concatenation. */
  lemma {:induction false} TransformConcat(a: seq<Item>, b: seq<Item>, city: string)
    ensures TransformResults(a + b, city) == TransformResults(a, city) + TransformResults(b, city)
  {
    if |a| == 0 {
      assert a + b == b;
    } else {
      assert (a + b)[1..] == a[1..] + b;
      TransformConcat(a[1..], b, city);
    }
  }
}
