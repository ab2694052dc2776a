/** Worked examples for batching, merging, validation and reshaping. */
module PipelineExamples {
  import opened Wrappers
  import opened Text
  import opened Stats
  import opened Aggregation
  import opened Batching
  import opened ProfileValidator
  import opened FieldReshaper

  /** Batch counts around the batch size. */
  lemma BatchCounts()
    ensures TotalBatches(0) == 0 && TotalBatches(1) == 1 && TotalBatches(75) == 1
    ensures TotalBatches(76) == 2 && TotalBatches(150) == 2 && TotalBatches(151) == 3
  {
  }

  /** One answered batch, as in the repository's end-to-end test: its figures pass through. */
  lemma SingleBatchMerge(r: BatchAnalysis)
    requires r == BatchAnalysis(1, 1, 2.75, 0.8, 0.7, Some(BatchInfo(1, 1, 1)))
    ensures var a := AggregateBatchResults([r]);
            && a.totalAnalyzed == 1 && a.withExperience == 1 && a.totalBatchesProcessed == 1
            && a.averageJobTenure == 2.75 && a.careerProgressionRate == 0.8
            && a.industryStabilityScore == 0.7
            && a.details == [BatchDetail(1, 1)]
  {
    UniformMean([2.75], 2.75);
    UniformMean([0.8], 0.8);
    UniformMean([0.7], 0.7);
    assert Tenures([r]) == [2.75] && ProgressionRates([r]) == [0.8] && StabilityScores([r]) == [0.7];
    assert AnalyzedCounts([r]) == [1] && ExperienceCounts([r]) == [1];
    assert [1][1..] == [];
    assert RoundedUnits(2.75, 100) == 275;
    assert RoundedUnits(0.8, 1000) == 800;
    assert RoundedUnits(0.7, 1000) == 700;
  }

  lemma LowerAustin(city: string)
    requires city == "Austin"
    ensures Lower(city) == "austin"
  {
  }

  /** A full name is cut at its first space; company and title take their defaults. */
  lemma ExtractFullName(item: Item, first: string, last: string, city: string)
    requires first == "Ada" && last == "King Lovelace" && city == "Austin"
    requires item == map["fullName" := first + " " + last]
    ensures ExtractProfessional(item, city)
            == Some(Professional(first, last, "Unknown", "Professional", "austin", "HarvestAPI LinkedIn"))
  {
    assert ' ' !in first;
    SplitJoin(first, last);
    LowerAustin(city);
  }

  /** An empty `first_name` falls back to `firstName`. */
  lemma ExtractEmptyFirstName(item: Item)
    requires item == map["first_name" := "", "firstName" := "Grace", "lastName" := "Hopper"]
    ensures ExtractProfessional(item, "austin")
            == Some(Professional("Grace", "Hopper", "Unknown", "Professional", "austin", "HarvestAPI LinkedIn"))
  {
    assert Lower("austin") == "austin";
  }

  /** The validator accepts a complete record in another letter case and rejects a one-letter name. */
  lemma ValidationCases(good: Record, short: Record)
    requires good == map["first_name" := "Jo", "last_name" := "Smith", "company" := "Acme",
                         "job_title" := "Engineer", "city" := "AUSTIN"]
    requires short == good["first_name" := "J"]
    ensures ValidateProfessional(good, "Austin")
    ensures !ValidateProfessional(short, "Austin")
  {
    assert Lower("AUSTIN") == "austin" == Lower("Austin");
  }
}
