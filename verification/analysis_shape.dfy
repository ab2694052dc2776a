/** The structural check on an analysis dictionary (score_algorithm.py, `_validate_analysis`). */
module AnalysisShape {

  /** An analysis as the check sees it: the keys of the dictionary and the keys of its
      `analysis_summary` entry (no keys when that entry is missing). */
  datatype Analysis = Analysis(keys: set<string>, summaryKeys: set<string>)

  const RequiredFields: seq<string> := ["analysis_summary", "experience_distribution", "career_insights"]
  const RequiredSummaryFields: seq<string> := ["total_professionals_analyzed", "average_years_experience"]

  /** The loop `for field in fields: if field not in keys: return False`, then `return True`. */
  function AllPresent(fields: seq<string>, keys: set<string>): (ok: bool)
    ensures ok <==> forall t :: 0 <= t < |fields| ==> fields[t] in keys
  {
    if |fields| == 0 then true
    else if fields[0] !in keys then false
    else
      var rest := AllPresent(fields[1..], keys);
      assert forall t :: 1 <= t < |fields| ==> fields[t] == fields[1..][t - 1];
      rest
  }

  /** `_validate_analysis`: the three top-level sections and the two summary figures are present. */
  function ValidateAnalysis(a: Analysis): (ok: bool)
    ensures ok <==>
              && "analysis_summary" in a.keys
              && "experience_distribution" in a.keys
              && "career_insights" in a.keys
              && "total_professionals_analyzed" in a.summaryKeys
              && "average_years_experience" in a.summaryKeys
  {
    var top := AllPresent(RequiredFields, a.keys);
    var summary := AllPresent(RequiredSummaryFields, a.summaryKeys);
    assert RequiredFields[0] == "analysis_summary" && RequiredFields[1] == "experience_distribution";
    assert RequiredFields[2] == "career_insights";
    assert RequiredSummaryFields[0] == "total_professionals_analyzed";
    assert RequiredSummaryFields[1] == "average_years_experience";
    top && summary
  }

  /** Keys beyond the required ones never make an analysis invalid. */
  lemma ExtraKeysHarmless(a: Analysis, extra: set<string>, extraSummary: set<string>)
    requires ValidateAnalysis(a)
    ensures ValidateAnalysis(Analysis(a.keys + extra, a.summaryKeys + extraSummary))
  {
  }

  /** The two dictionaries of the repository's validation test: a complete analysis passes, and one
      with only a partial summary fails. */
  lemma ValidationExamples()
    ensures ValidateAnalysis(Analysis(
              {"analysis_summary", "experience_distribution", "career_insights"},
              {"total_professionals_analyzed", "average_years_experience"}))
    ensures !ValidateAnalysis(Analysis({"analysis_summary"}, {"total_professionals_analyzed"}))
  {
  }
}
