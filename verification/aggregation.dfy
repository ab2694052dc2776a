/** Merging of per-batch analyses into one report (score_algorithm.py, `_aggregate_batch_results`). */
module Aggregation {
  import opened Wrappers
  import opened Stats

  /** The metadata `_analyze_batch` attaches to a successful batch analysis. */
  datatype BatchInfo = BatchInfo(batchNumber: int, totalBatches: int, professionalsInBatch: int)

  /** One batch analysis as the merge reads it. A key missing from the returned dictionary reads as
      0, as the `.get(key, 0)` calls do, so every field here already holds that default. */
  datatype BatchAnalysis = BatchAnalysis(
    totalAnalyzed: int,
    withExperience: int,
    averageJobTenure: real,
    careerProgressionRate: real,
    industryStabilityScore: real,
    batchInfo: Option<BatchInfo>)

  /** One entry of `batch_details`. */
  datatype BatchDetail = BatchDetail(batchNumber: int, professionalsAnalyzed: int)

  /** The numeric part of the merged report. */
  datatype AggregateReport = AggregateReport(
    totalAnalyzed: int,
    withExperience: int,
    totalBatchesProcessed: nat,
    averageJobTenure: real,
    careerProgressionRate: real,
    industryStabilityScore: real,
    details: seq<BatchDetail>)

  function SumInts(xs: seq<int>): int {
    if |xs| == 0 then 0 else xs[0] + SumInts(xs[1..])
  }

  lemma {:induction false} SumIntsConcat(a: seq<int>, b: seq<int>)
    ensures SumInts(a + b) == SumInts(a) + SumInts(b)
  {
    if |a| == 0 {
      assert a + b == b;
    } else {
      assert (a + b)[1..] == a[1..] + b;
      SumIntsConcat(a[1..], b);
    }
  }

  /** Python's `sum(xs) / len(xs) if xs else 0.0` over the positive values only: the insight
      averages skip every batch whose value is 0, missing or negative (score_algorithm.py:660-670). */
  function PositiveMean(xs: seq<real>): (r: real)
    ensures |Positives(xs)| == 0 ==> r == 0.0
    ensures |Positives(xs)| > 0 ==> r == Sum(Positives(xs)) / |Positives(xs)| as real
    ensures r >= 0.0
    ensures r > 0.0 <==> exists t :: 0 <= t < |xs| && xs[t] > 0.0
    ensures |Positives(xs)| > 0 ==> Minimum(Positives(xs)) <= r <= Maximum(Positives(xs))
  {
    var ps := Positives(xs);
    PositivesEmpty(xs);
    if |ps| == 0 then 0.0
    else
      assert ps[0] in xs;
      assert Minimum(ps) > 0.0;
      Mean(ps)
  }

  /** Appending a value that is not positive leaves the positive mean as it was. */
  lemma NonPositiveIgnored(xs: seq<real>, x: real)
    requires x <= 0.0
    ensures PositiveMean(xs + [x]) == PositiveMean(xs)
  {
    PositivesConcat(xs, [x]);
    assert Positives([x]) == [];
    assert Positives(xs) + [] == Positives(xs);
  }

  /** When every positive value is the same `v`, the positive mean is `v`. */
  lemma UniformMean(xs: seq<real>, v: real)
    requires v > 0.0 && v in xs
    requires forall t :: 0 <= t < |xs| && xs[t] > 0.0 ==> xs[t] == v
    ensures PositiveMean(xs) == v
  {
    var ps := Positives(xs);
    assert v in ps;
    assert Minimum(ps) == v;
    assert Maximum(ps) == v;
  }

  function Tenures(rs: seq<BatchAnalysis>): (xs: seq<real>)
    ensures |xs| == |rs| && forall t :: 0 <= t < |rs| ==> xs[t] == rs[t].averageJobTenure
  {
    seq(|rs|, t requires 0 <= t < |rs| => rs[t].averageJobTenure)
  }

  function ProgressionRates(rs: seq<BatchAnalysis>): (xs: seq<real>)
    ensures |xs| == |rs| && forall t :: 0 <= t < |rs| ==> xs[t] == rs[t].careerProgressionRate
  {
    seq(|rs|, t requires 0 <= t < |rs| => rs[t].careerProgressionRate)
  }

  function StabilityScores(rs: seq<BatchAnalysis>): (xs: seq<real>)
    ensures |xs| == |rs| && forall t :: 0 <= t < |rs| ==> xs[t] == rs[t].industryStabilityScore
  {
    seq(|rs|, t requires 0 <= t < |rs| => rs[t].industryStabilityScore)
  }

  function AnalyzedCounts(rs: seq<BatchAnalysis>): seq<int> {
    seq(|rs|, t requires 0 <= t < |rs| => rs[t].totalAnalyzed)
  }

  function ExperienceCounts(rs: seq<BatchAnalysis>): seq<int> {
    seq(|rs|, t requires 0 <= t < |rs| => rs[t].withExperience)
  }

  /** A batch's entry of `batch_details`: its number and size, or 0 and 0 when there is no
      `batch_info`. */
  function Detail(r: BatchAnalysis): (d: BatchDetail)
    ensures r.batchInfo.None? ==> d == BatchDetail(0, 0)
    ensures r.batchInfo.Some? ==>
              d.batchNumber == r.batchInfo.value.batchNumber
              && d.professionalsAnalyzed == r.batchInfo.value.professionalsInBatch
  {
    match r.batchInfo
    case None => BatchDetail(0, 0)
    case Some(info) => BatchDetail(info.batchNumber, info.professionalsInBatch)
  }

  function Details(rs: seq<BatchAnalysis>): (ds: seq<BatchDetail>)
    ensures |ds| == |rs| && forall t :: 0 <= t < |rs| ==> ds[t] == Detail(rs[t])
  {
    seq(|rs|, t requires 0 <= t < |rs| => Detail(rs[t]))
  }

  /** The merged report before the output rounding. */
  function RawAggregate(rs: seq<BatchAnalysis>): (a: AggregateReport)
    ensures a.totalAnalyzed == SumInts(AnalyzedCounts(rs))
    ensures a.withExperience == SumInts(ExperienceCounts(rs))
    ensures a.averageJobTenure == PositiveMean(Tenures(rs))
    ensures a.careerProgressionRate == PositiveMean(ProgressionRates(rs))
    ensures a.industryStabilityScore == PositiveMean(StabilityScores(rs))
    ensures a.totalBatchesProcessed == |rs| && |a.details| == |rs|
    ensures forall t :: 0 <= t < |rs| ==> a.details[t] == Detail(rs[t])
    ensures a.averageJobTenure >= 0.0 && a.careerProgressionRate >= 0.0 && a.industryStabilityScore >= 0.0
    ensures a.averageJobTenure > 0.0 <==> exists t :: 0 <= t < |rs| && rs[t].averageJobTenure > 0.0
  {
    var tenures := Tenures(rs);
    assert forall t :: 0 <= t < |rs| ==> tenures[t] == rs[t].averageJobTenure;
    AggregateReport(
      SumInts(AnalyzedCounts(rs)), SumInts(ExperienceCounts(rs)), |rs|,
      PositiveMean(tenures), PositiveMean(ProgressionRates(rs)), PositiveMean(StabilityScores(rs)),
      Details(rs))
  }

  /** `_aggregate_batch_results`: the raw report with the tenure rounded to two decimals and the two
      rates to three; the counts and the batch details are kept as they are. */
  function AggregateBatchResults(rs: seq<BatchAnalysis>): (a: AggregateReport)
    ensures var raw := RawAggregate(rs);
            && a.totalAnalyzed == raw.totalAnalyzed
            && a.withExperience == raw.withExperience
            && a.totalBatchesProcessed == |rs|
            && a.details == raw.details
            && a.averageJobTenure == Round(raw.averageJobTenure, 100)
            && a.careerProgressionRate == Round(raw.careerProgressionRate, 1000)
            && a.industryStabilityScore == Round(raw.industryStabilityScore, 1000)
            && -0.5 <= (a.averageJobTenure - raw.averageJobTenure) * 100.0 <= 0.5
            && -0.5 <= (a.careerProgressionRate - raw.careerProgressionRate) * 1000.0 <= 0.5
            && -0.5 <= (a.industryStabilityScore - raw.industryStabilityScore) * 1000.0 <= 0.5
  {
    var raw := RawAggregate(rs);
    raw.(
      averageJobTenure := Round(raw.averageJobTenure, 100),
      careerProgressionRate := Round(raw.careerProgressionRate, 1000),
      industryStabilityScore := Round(raw.industryStabilityScore, 1000))
  }

  /** The counts of a merged report are additive: merging two runs of batches in one go gives the
      sums of merging each run on its own. */
  lemma CountsAdditive(a: seq<BatchAnalysis>, b: seq<BatchAnalysis>)
    ensures RawAggregate(a + b).totalAnalyzed == RawAggregate(a).totalAnalyzed + RawAggregate(b).totalAnalyzed
    ensures RawAggregate(a + b).withExperience == RawAggregate(a).withExperience + RawAggregate(b).withExperience
    ensures RawAggregate(a + b).details == RawAggregate(a).details + RawAggregate(b).details
  {
    assert Details(a + b) == Details(a) + Details(b);
    assert AnalyzedCounts(a + b) == AnalyzedCounts(a) + AnalyzedCounts(b);
    assert ExperienceCounts(a + b) == ExperienceCounts(a) + ExperienceCounts(b);
    SumIntsConcat(AnalyzedCounts(a), AnalyzedCounts(b));
    SumIntsConcat(ExperienceCounts(a), ExperienceCounts(b));
  }

  /** With no batch the counts are 0; with one batch they are that batch's own counts. Together with
      `CountsAdditive` this pins the counts of any run of batches to the per-batch sums. */
  lemma CountsBase(r: BatchAnalysis)
    ensures RawAggregate([]).totalAnalyzed == 0 && RawAggregate([]).withExperience == 0
    ensures RawAggregate([r]).totalAnalyzed == r.totalAnalyzed
    ensures RawAggregate([r]).withExperience == r.withExperience
  {
    assert AnalyzedCounts([r]) == [r.totalAnalyzed];
    assert ExperienceCounts([r]) == [r.withExperience];
    assert [r.totalAnalyzed][1..] == [] && [r.withExperience][1..] == [];
  }

  /** A batch whose three insights are all 0 or negative adds its counts and its detail but leaves
      the three averages unchanged. */
  lemma ZeroInsightBatchIgnored(rs: seq<BatchAnalysis>, r: BatchAnalysis)
    requires r.averageJobTenure <= 0.0 && r.careerProgressionRate <= 0.0 && r.industryStabilityScore <= 0.0
    ensures RawAggregate(rs + [r]).averageJobTenure == RawAggregate(rs).averageJobTenure
    ensures RawAggregate(rs + [r]).careerProgressionRate == RawAggregate(rs).careerProgressionRate
    ensures RawAggregate(rs + [r]).industryStabilityScore == RawAggregate(rs).industryStabilityScore
  {
    assert Tenures(rs + [r]) == Tenures(rs) + [r.averageJobTenure];
    assert ProgressionRates(rs + [r]) == ProgressionRates(rs) + [r.careerProgressionRate];
    assert StabilityScores(rs + [r]) == StabilityScores(rs) + [r.industryStabilityScore];
    NonPositiveIgnored(Tenures(rs), r.averageJobTenure);
    NonPositiveIgnored(ProgressionRates(rs), r.careerProgressionRate);
    NonPositiveIgnored(StabilityScores(rs), r.industryStabilityScore);
  }
}
