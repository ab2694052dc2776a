/** Cutting the stored profiles into batches of 75 and merging what the batches return
    (score_algorithm.py, `analyze_professional_database` and `_analyze_batch`). */
module Batching {
  import opened Wrappers
  import opened Aggregation

  /** The fixed batch size (score_algorithm.py:103). */
  const BatchSize: nat := 75

  /** `(n + batch_size - 1) // batch_size`: the fewest batches of at most 75 that hold `n` items. */
  function TotalBatches(n: nat): (t: nat)
    ensures n <= t * BatchSize
    ensures t > 0 ==> (t - 1) * BatchSize < n
    ensures t == 0 <==> n == 0
  {
    (n + BatchSize - 1) / BatchSize
  }

  function Min(a: int, b: int): int {
    if a <= b then a else b
  }

  /** `start_idx` and `end_idx` of batch `b` (0-based) over `n` items. */
  function BatchStart(b: nat): nat {
    b * BatchSize
  }

  function BatchEnd(n: nat, b: nat): nat {
    Min(b * BatchSize + BatchSize, n)
  }

  /** `professionals[start_idx:end_idx]` for batch `b`: never empty and never over 75 items, and
      the only batch that can hold fewer than 75 is the last. */
  function Batch<T>(xs: seq<T>, b: nat): (batch: seq<T>)
    requires b < TotalBatches(|xs|)
    ensures 0 < |batch| <= BatchSize
    ensures b + 1 < TotalBatches(|xs|) ==> |batch| == BatchSize
    ensures b * BatchSize + |batch| <= |xs|
    ensures forall t :: 0 <= t < |batch| ==> batch[t] == xs[b * BatchSize + t]
  {
    xs[BatchStart(b)..BatchEnd(|xs|, b)]
  }

  /** All batches in the order they are sent. */
  function Batches<T>(xs: seq<T>): (bs: seq<seq<T>>)
    ensures |bs| == TotalBatches(|xs|)
    ensures forall b :: 0 <= b < |bs| ==> bs[b] == Batch(xs, b)
  {
    seq(TotalBatches(|xs|), b requires 0 <= b < TotalBatches(|xs|) => Batch(xs, b))
  }

  function Flatten<T>(bs: seq<seq<T>>): seq<T> {
    if |bs| == 0 then [] else bs[0] + Flatten(bs[1..])
  }

  /** The batches from `b` on, put back together, are the items from the start of batch `b` on. */
  lemma {:induction false} BatchesCoverFrom<T>(xs: seq<T>, b: nat)
    requires b <= TotalBatches(|xs|)
    ensures Flatten(Batches(xs)[b..]) == xs[Min(BatchStart(b), |xs|)..]
    decreases TotalBatches(|xs|) - b
  {
    var bs := Batches(xs);
    if b == TotalBatches(|xs|) {
      assert bs[b..] == [];
    } else {
      BatchesCoverFrom(xs, b + 1);
      assert bs[b..][1..] == bs[b + 1..];
      var lo := BatchStart(b);
      var hi := BatchEnd(|xs|, b);
      assert Min(BatchStart(b + 1), |xs|) == hi;
      assert xs[lo..] == xs[lo..hi] + xs[hi..];
    }
  }

  /** Batching loses, repeats and reorders nothing: the batches concatenated are the input. */
  lemma BatchesCover<T>(xs: seq<T>)
    ensures Flatten(Batches(xs)) == xs
  {
    BatchesCoverFrom(xs, 0);
    assert Batches(xs)[0..] == Batches(xs);
  }

  /** The sizes of the batches add up to the number of items. */
  lemma {:induction false} FlattenSize<T>(bs: seq<seq<T>>)
    ensures SumInts(seq(|bs|, b requires 0 <= b < |bs| => |bs[b]|)) == |Flatten(bs)|
  {
    var sizes := seq(|bs|, b requires 0 <= b < |bs| => |bs[b]|);
    if |bs| > 0 {
      FlattenSize(bs[1..]);
      assert sizes[1..] == seq(|bs[1..]|, b requires 0 <= b < |bs[1..]| => |bs[1..][b]|);
    }
  }

  /** The outcome of `analyze_professional_database`: the empty analysis, or the merged report. */
  datatype DatabaseAnalysis = EmptyAnalysis | Aggregated(report: AggregateReport)

  /** `_analyze_batch` for batch `b` (0-based): the analysis service is asked about the batch with its
      1-based number and the batch count, and an answer gets `batch_info` attached. The service
      (prompt, model call and JSON extraction) is a parameter. */
  function Attempt<T>(xs: seq<T>, service: (seq<T>, nat, nat) -> Option<BatchAnalysis>, b: nat)
    : (r: Option<BatchAnalysis>)
    requires b < TotalBatches(|xs|)
    ensures r.None? <==> service(Batch(xs, b), b + 1, TotalBatches(|xs|)).None?
    ensures r.Some? ==> r.value.batchInfo == Some(BatchInfo(b + 1, TotalBatches(|xs|), |Batch(xs, b)|))
  {
    var total := TotalBatches(|xs|);
    var batch := Batch(xs, b);
    match service(batch, b + 1, total)
    case None => None
    case Some(result) => Some(result.(batchInfo := Some(BatchInfo(b + 1, total, |batch|))))
  }

  /** The answers that came back, in batch order (`all_results`). */
  function Successes<X>(os: seq<Option<X>>): (rs: seq<X>)
    ensures |rs| <= |os|
    ensures |rs| == 0 <==> forall t :: 0 <= t < |os| ==> os[t].None?
    ensures (forall t :: 0 <= t < |os| ==> os[t].Some?) ==>
              |rs| == |os| && forall t :: 0 <= t < |os| ==> rs[t] == os[t].value
  {
    if |os| == 0 then []
    else
      var rest := Successes(os[1..]);
      assert forall t :: 1 <= t < |os| ==> os[t] == os[1..][t - 1];
      match os[0]
      case None => rest
      case Some(r) => [r] + rest
  }

  /** Keeping the answers of two runs of attempts is keeping those of their concatenation. */
  lemma {:induction false} SuccessesConcat<X>(a: seq<Option<X>>, b: seq<Option<X>>)
    ensures Successes(a + b) == Successes(a) + Successes(b)
  {
    if |a| == 0 {
      assert a + b == b;
    } else {
      assert (a + b)[1..] == a[1..] + b;
      SuccessesConcat(a[1..], b);
    }
  }

  /** One attempt: its answer is kept when there is one, and nothing otherwise. */
  lemma SuccessesSingle<X>(o: Option<X>)
    ensures Successes([o]) == if o.Some? then [o.value] else []
  {
    assert [o][1..] == [];
  }

  function Attempts<T>(xs: seq<T>, service: (seq<T>, nat, nat) -> Option<BatchAnalysis>)
    : (os: seq<Option<BatchAnalysis>>)
    ensures |os| == TotalBatches(|xs|)
    ensures forall b :: 0 <= b < |os| ==> os[b] == Attempt(xs, service, b)
  {
    seq(TotalBatches(|xs|), b requires 0 <= b < TotalBatches(|xs|) => Attempt(xs, service, b))
  }

  /** `analyze_professional_database`: nothing stored or no batch answered gives the empty analysis,
      otherwise the answers are merged. */
  function AnalyzeDatabase<T>(xs: seq<T>, service: (seq<T>, nat, nat) -> Option<BatchAnalysis>)
    : (a: DatabaseAnalysis)
    ensures a.EmptyAnalysis? <==>
              forall b :: 0 <= b < TotalBatches(|xs|) ==>
                service(Batch(xs, b), b + 1, TotalBatches(|xs|)).None?
    ensures a.Aggregated? ==> 0 < a.report.totalBatchesProcessed <= TotalBatches(|xs|)
    ensures a.Aggregated? ==> a.report == AggregateBatchResults(Successes(Attempts(xs, service)))
  {
    if |xs| == 0 then EmptyAnalysis
    else
      var os := Attempts(xs, service);
      var results := Successes(os);
      assert forall b :: 0 <= b < |os| ==>
        (os[b].None? <==> service(Batch(xs, b), b + 1, TotalBatches(|xs|)).None?);
      if |results| == 0 then EmptyAnalysis else Aggregated(AggregateBatchResults(results))
  }

  /** When every batch is answered, the merged results are the tagged answers in batch order. */
  lemma AnsweredInOrder<T>(xs: seq<T>, service: (seq<T>, nat, nat) -> Option<BatchAnalysis>)
    requires forall b :: 0 <= b < TotalBatches(|xs|) ==>
               service(Batch(xs, b), b + 1, TotalBatches(|xs|)).Some?
    ensures var results := Successes(Attempts(xs, service));
            && |results| == TotalBatches(|xs|)
            && forall b :: 0 <= b < |results| ==>
                 Detail(results[b]) == BatchDetail(b + 1, |Batch(xs, b)|)
  {
    var os := Attempts(xs, service);
    assert forall b :: 0 <= b < |os| ==> os[b].Some?;
  }

  /** When every batch is answered, the report counts every batch, numbers them 1, 2, ... in order,
      and its batch sizes add up to the number of stored profiles. */
  lemma AllBatchesAnswered<T>(xs: seq<T>, service: (seq<T>, nat, nat) -> Option<BatchAnalysis>)
    requires |xs| > 0
    requires forall b :: 0 <= b < TotalBatches(|xs|) ==>
               service(Batch(xs, b), b + 1, TotalBatches(|xs|)).Some?
    ensures AnalyzeDatabase(xs, service).Aggregated?
    ensures var report := AnalyzeDatabase(xs, service).report;
            && report.totalBatchesProcessed == TotalBatches(|xs|)
            && |report.details| == TotalBatches(|xs|)
            && (forall b :: 0 <= b < TotalBatches(|xs|) ==>
                  report.details[b] == BatchDetail(b + 1, |Batch(xs, b)|))
            && SumInts(seq(|report.details|, b requires 0 <= b < |report.details| =>
                 report.details[b].professionalsAnalyzed)) == |xs|
  {
    AnsweredInOrder(xs, service);
    var results := Successes(Attempts(xs, service));
    var report := AnalyzeDatabase(xs, service).report;
    assert report.details == RawAggregate(results).details;
    var bs := Batches(xs);
    var sizes := seq(|report.details|, b requires 0 <= b < |report.details| =>
                   report.details[b].professionalsAnalyzed);
    assert sizes == seq(|bs|, b requires 0 <= b < |bs| => |bs[b]|);
    FlattenSize(bs);
    BatchesCover(xs);
  }
}
