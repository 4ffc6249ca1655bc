/**
 * Evaluation: `predict` runs every batch through the layer, the merging
 * strategy and the readout, concatenates the per-batch predictions, and,
 * when labels can be compared with the predictions, reports the
 * percentage of correct predictions. The comparison follows PyTorch's
 * broadcasting: equal sizes compare position by position, a size-1 side
 * is compared with every entry of the other, and any other pair of sizes
 * raises, an exception that `predict` absorbs after it has already added
 * the batch's label count to the total.
 */
module Evaluation {
  import opened Outcomes
  import opened Tensors
  import opened Predictions
  import opened Batches

  /** One batch's predictions next to its true labels. */
  datatype BatchPrediction = BatchPrediction(predictions: seq<int>, labels: seq<int>)

  /** The running counters of `predict`: correct predictions, labels seen, and whether any batch was compared. */
  datatype Tally = Tally(correct: nat, total: nat, testing: bool)

  /** What `predict` returns: all predictions in batch order, and the accuracy when labels were compared. */
  datatype Report = Report(predictions: seq<int>, accuracy: Option<real>)

  /**
   * One batch of `predict` (esn.py lines 421-445): read it, encode and
   * merge it, and compute one prediction per sequence from the readout's
   * raw outputs. Labels are not duplicated here, whatever the strategy.
   */
  function PredictBatch(esn: Esn, batch: Batch): (r: Result<BatchPrediction>)
    // a batch is predicted exactly when it can be read, its states merged, and its raw
    // outputs turned into predictions
    ensures r.Success? <==>
              Normalize(esn, batch).Success?
              && EncodeAndPool(esn, Normalize(esn, batch).value).Success?
              && ComputePredictions(esn.readout.forward(EncodeAndPool(esn, Normalize(esn, batch).value).value.rows),
                                    esn.layer.encode(batch.text).lengths, !PerToken(esn)).Success?
    ensures r.Success? ==> esn.layer.keyed && batch.labels.LabelTensor? && r.value.labels == batch.labels.ids
    ensures r.Success? ==>
              var n := Normalize(esn, batch).value;
              ComputePredictions(esn.readout.forward(EncodeAndPool(esn, n).value.rows),
                                 esn.layer.encode(batch.text).lengths, !PerToken(esn))
                 == Success(r.value.predictions)
    // the errors come in source order: reading, then merging (which on the attribute-style
    // branch raises for the unassigned features), then computing the predictions
    ensures Normalize(esn, batch).Failure? ==> r == Failure(Normalize(esn, batch).error)
    ensures !esn.layer.keyed && Normalize(esn, batch).Success? ==> r == Failure(UnboundFeatures)
    ensures (Normalize(esn, batch).Success? && EncodeAndPool(esn, Normalize(esn, batch).value).Failure?) ==>
              r == Failure(EncodeAndPool(esn, Normalize(esn, batch).value).error)
    ensures (Normalize(esn, batch).Success? && EncodeAndPool(esn, Normalize(esn, batch).value).Success?
             && ComputePredictions(esn.readout.forward(EncodeAndPool(esn, Normalize(esn, batch).value).value.rows),
                                   esn.layer.encode(batch.text).lengths, !PerToken(esn)).Failure?) ==>
              r == Failure(ComputePredictions(esn.readout.forward(EncodeAndPool(esn, Normalize(esn, batch).value).value.rows),
                                              esn.layer.encode(batch.text).lengths, !PerToken(esn)).error)
  {
    var n :- Normalize(esn, batch);
    var merged :- EncodeAndPool(esn, n);
    var predictions :- ComputePredictions(esn.readout.forward(merged.rows),
                                          esn.layer.encode(n.text).lengths, !PerToken(esn));
    match n.labels
    case Some(ids) => Success(BatchPrediction(predictions, ids))
    // not reached: only an attribute-style batch reads a `None` label, and its pooling call raised
    case None => Failure(NullLabels)
  }

  /**
   * Training and prediction read a batch the same way (esn.py lines
   * 194-203 and 421-430): an unreadable batch fails both with the same
   * error, and for a batch that trains, prediction feeds the readout the
   * very rows training fitted on and compares against the labels
   * training used before any duplication.
   */
  lemma SharedReading(esn: Esn, batch: Batch, castLabels: bool)
    ensures Normalize(esn, batch).Failure? ==>
              PrepareBatch(esn, batch, castLabels) == Failure(Normalize(esn, batch).error)
              && PredictBatch(esn, batch) == Failure(Normalize(esn, batch).error)
    ensures PrepareBatch(esn, batch, castLabels).Success? ==>
              var lengths := esn.layer.encode(batch.text).lengths;
              var raw := esn.readout.forward(PrepareBatch(esn, batch, castLabels).value.states);
              (PredictBatch(esn, batch).Success? <==> ComputePredictions(raw, lengths, !PerToken(esn)).Success?)
              && (PredictBatch(esn, batch).Success? ==>
                    Success(PredictBatch(esn, batch).value.predictions) == ComputePredictions(raw, lengths, !PerToken(esn))
                    && (!PerToken(esn) ==> PrepareBatch(esn, batch, castLabels).value.labels == PredictBatch(esn, batch).value.labels)
                    && (PerToken(esn) ==>
                          PrepareBatch(esn, batch, castLabels).value.labels
                          == DuplicateLabels(PredictBatch(esn, batch).value.labels, lengths)))
  {
  }

  /** The readout gives one output, a score row or a class id, per row it is fed. */
  ghost predicate OutputPerRow(readout: Readout)
  {
    forall x :: OutputCount(readout.forward(x)) == |x|
  }

  /**
   * A predicted batch has one prediction per label when it has one label
   * per sequence and, with pooling, the reduction keeps one row per
   * sequence and the readout one output per row.
   */
  lemma PredictAligned(esn: Esn, batch: Batch)
    requires PredictBatch(esn, batch).Success?
    requires batch.labels.LabelTensor? && |batch.labels.ids| == |esn.layer.encode(batch.text).lengths|
    requires !PerToken(esn) ==> RowsPerUnit(esn.merger) && OutputPerRow(esn.readout)
    ensures |PredictBatch(esn, batch).value.predictions| == |PredictBatch(esn, batch).value.labels|
  {
    var n := Normalize(esn, batch).value;
    var merged := EncodeAndPool(esn, n).value;
    var enc := esn.layer.encode(n.text);
    if !PerToken(esn) {
      if esn.bidirectional {
        var f := esn.merger.reduce(merged.calls[0]);
        assert |f| == |enc.lengths|;
      } else {
        assert |merged.rows| == |esn.merger.reduce(merged.calls[0])|;
      }
      assert OutputCount(esn.readout.forward(merged.rows)) == |merged.rows|;
    }
  }

  /** Every batch of a run is aligned in the sense of `PredictAligned`. */
  ghost predicate AlignedRun(esn: Esn, batches: seq<Batch>)
  {
    (!PerToken(esn) ==> RowsPerUnit(esn.merger) && OutputPerRow(esn.readout))
    && forall k :: 0 <= k < |batches| ==>
         batches[k].labels.LabelTensor? && |batches[k].labels.ids| == |esn.layer.encode(batches[k].text).lengths|
  }

  /** On an aligned run that sees some labels, `predict` reports an accuracy between 0 and 100. */
  lemma AlignedRunAccuracy(esn: Esn, batches: seq<Batch>)
    requires AlignedRun(esn, batches)
    requires |batches| > 0 && PredictAll(esn, batches).Success?
    ensures Accumulate(PredictAll(esn, batches).value).total > 0 ==>
              Accuracy(Accumulate(PredictAll(esn, batches).value)).Success?
              && Accuracy(Accumulate(PredictAll(esn, batches).value)).value.Some?
              && 0.0 <= Accuracy(Accumulate(PredictAll(esn, batches).value)).value.value <= 100.0
  {
    var bs := PredictAll(esn, batches).value;
    TraverseSpec(PredictStep(esn), batches);
    forall k | 0 <= k < |bs|
      ensures |bs[k].predictions| == |bs[k].labels|
    {
      PredictAligned(esn, batches[k]);
    }
    if Accumulate(bs).total > 0 {
      AlignedAccuracy(bs);
    }
  }

  function PredictStep(esn: Esn): Batch -> Result<BatchPrediction>
  {
    b => PredictBatch(esn, b)
  }

  /** Predicting every batch in order, stopping at the first that raises. */
  function PredictAll(esn: Esn, batches: seq<Batch>): Result<seq<BatchPrediction>>
  {
    Traverse(PredictStep(esn), batches)
  }

  /** The number of positions where `p` and `l` agree: `(p == l).sum()` for equal sizes. */
  function CountEqual(p: seq<int>, l: seq<int>): (c: nat)
    requires |p| == |l|
    ensures c <= |l|
    ensures c == |l| <==> p == l
  {
    if |l| == 0 then 0
    else
      var n := |l| - 1;
      var c := CountEqual(p[..n], l[..n]);
      assert p == p[..n] + [p[n]] && l == l[..n] + [l[n]];
      c + (if p[n] == l[n] then 1 else 0)
  }

  /**
   * `(predictions == labels).sum()` under broadcasting, or `None` when
   * the two sizes cannot be broadcast together.
   */
  function Matches(p: seq<int>, l: seq<int>): (m: Option<nat>)
    ensures m.Some? <==> |p| == |l| || |p| == 1 || |l| == 1
    ensures |p| == |l| ==> m == Some(CountEqual(p, l))
    ensures m.Some? && |l| != 1 ==> m.value <= |l|
  {
    if |p| == |l| then Some(CountEqual(p, l))
    else if |p| == 1 then Some(CountEqual(Replicate(p[0], |l|), l))
    else if |l| == 1 then Some(CountEqual(p, Replicate(l[0], |p|)))
    else None
  }

  /** A size-1 label broadcasts against every prediction, so a batch can count more matches than labels. */
  lemma BroadcastOvercount()
    ensures Matches([7, 7, 7], [7]) == Some(3)
  {
    assert Replicate(7, 3) == [7, 7, 7];
    assert CountEqual([7, 7, 7], [7, 7, 7]) == 3;
  }

  /** The matches one batch contributes: its broadcast match count, none when the comparison raises. */
  function MatchCount(b: BatchPrediction): nat
  {
    match Matches(b.predictions, b.labels)
    case Some(c) => c
    case None => 0
  }

  /** One batch's update of the counters (the `try` block of esn.py lines 447-455). */
  function Count(t: Tally, b: BatchPrediction): (u: Tally)
    ensures u.total == t.total + |b.labels|
    ensures u.correct == t.correct + MatchCount(b)
    ensures u.testing <==> t.testing || Matches(b.predictions, b.labels).Some?
  {
    match Matches(b.predictions, b.labels)
    case Some(c) => Tally(t.correct + c, t.total + |b.labels|, true)
    case None => Tally(t.correct, t.total + |b.labels|, t.testing)
  }

  /** The counters after the given batches, starting from zero. */
  function Accumulate(bs: seq<BatchPrediction>): Tally
  {
    if |bs| == 0 then Tally(0, 0, false)
    else Count(Accumulate(bs[..|bs| - 1]), bs[|bs| - 1])
  }

  lemma AccumulateSnoc(bs: seq<BatchPrediction>, b: BatchPrediction)
    ensures Accumulate(bs + [b]) == Count(Accumulate(bs), b)
  {
    assert (bs + [b])[..|bs|] == bs;
  }

  /** Accuracy is reported exactly when some batch's predictions and labels could be compared. */
  lemma {:induction false} TestingIffCompared(bs: seq<BatchPrediction>)
    ensures Accumulate(bs).testing <==>
              exists k :: 0 <= k < |bs| && Matches(bs[k].predictions, bs[k].labels).Some?
  {
    if |bs| > 0 {
      var n := |bs| - 1;
      TestingIffCompared(bs[..n]);
      assert forall k :: 0 <= k < n ==> bs[..n][k] == bs[k];
    }
  }

  function LabelCounts(bs: seq<BatchPrediction>): (s: seq<nat>)
  {
    seq(|bs|, k requires 0 <= k < |bs| => |bs[k].labels|)
  }

  /** Every label is counted, whether or not its batch could be compared. */
  lemma {:induction false} TotalCountsAllLabels(bs: seq<BatchPrediction>)
    ensures Accumulate(bs).total == Sum(LabelCounts(bs))
  {
    if |bs| > 0 {
      var n := |bs| - 1;
      TotalCountsAllLabels(bs[..n]);
      assert LabelCounts(bs[..n]) == LabelCounts(bs)[..n];
    }
  }

  function MatchCounts(bs: seq<BatchPrediction>): (s: seq<nat>)
  {
    seq(|bs|, k requires 0 <= k < |bs| => MatchCount(bs[k]))
  }

  /** The correct count is the sum of every batch's matches; a batch whose comparison raises adds none. */
  lemma {:induction false} CorrectCountsAllMatches(bs: seq<BatchPrediction>)
    ensures Accumulate(bs).correct == Sum(MatchCounts(bs))
  {
    if |bs| > 0 {
      var n := |bs| - 1;
      CorrectCountsAllMatches(bs[..n]);
      assert MatchCounts(bs[..n]) == MatchCounts(bs)[..n];
    }
  }

  /**
   * When every batch has one prediction per label, no more predictions
   * are correct than there are labels.
   */
  lemma {:induction false} CorrectAtMostTotal(bs: seq<BatchPrediction>)
    requires forall k :: 0 <= k < |bs| ==> |bs[k].predictions| == |bs[k].labels|
    ensures Accumulate(bs).correct <= Accumulate(bs).total
    ensures Accumulate(bs).testing <==> |bs| > 0
  {
    if |bs| > 0 {
      var n := |bs| - 1;
      CorrectAtMostTotal(bs[..n]);
    }
  }

  /** When every batch's predictions equal its labels, every label counts as correct. */
  lemma {:induction false} AllCorrect(bs: seq<BatchPrediction>)
    requires forall k :: 0 <= k < |bs| ==> bs[k].predictions == bs[k].labels
    ensures Accumulate(bs).correct == Accumulate(bs).total
  {
    if |bs| > 0 {
      var n := |bs| - 1;
      AllCorrect(bs[..n]);
    }
  }

  /** `100 * correct / float(total)` when some batch was compared, `None` otherwise. */
  function Accuracy(t: Tally): (a: Result<Option<real>>)
    ensures a.Failure? <==> t.testing && t.total == 0
    ensures a.Success? ==> (a.value.Some? <==> t.testing)
    ensures a.Success? && t.testing ==> a.value.value * (t.total as real) == 100.0 * (t.correct as real)
  {
    if !t.testing then Success(None)
    else if t.total == 0 then Failure(ZeroTotal)
    else Success(Some(100.0 * (t.correct as real) / (t.total as real)))
  }

  /**
   * When every batch has one prediction per label and some labels were
   * seen, the accuracy is defined and is a percentage.
   */
  lemma AlignedAccuracy(bs: seq<BatchPrediction>)
    requires forall k :: 0 <= k < |bs| ==> |bs[k].predictions| == |bs[k].labels|
    requires |bs| > 0 && Accumulate(bs).total > 0
    ensures Accuracy(Accumulate(bs)).Success? && Accuracy(Accumulate(bs)).value.Some?
    ensures 0.0 <= Accuracy(Accumulate(bs)).value.value <= 100.0
  {
    CorrectAtMostTotal(bs);
    var t := Accumulate(bs);
    Percentage(t.correct as real, t.total as real);
  }

  lemma Percentage(c: real, n: real)
    requires 0.0 <= c <= n && n > 0.0
    ensures 0.0 <= 100.0 * c / n <= 100.0
    ensures c == n ==> 100.0 * c / n == 100.0
  {
    var q := 100.0 * c / n;
    DivMul(100.0 * c, n);
    assert (q - 100.0) * n == 100.0 * c - 100.0 * n;
    ProductSign(q - 100.0, n);
    ProductSign(q, n);
  }

  lemma PerfectScore(t: Tally)
    requires t.testing && t.total > 0 && t.correct == t.total
    ensures Accuracy(t) == Success(Some(100.0))
  {
    Percentage(t.correct as real, t.total as real);
  }

  lemma DivMul(x: real, n: real)
    requires n != 0.0
    ensures (x / n) * n == x
  {
  }

  lemma ProductSign(d: real, n: real)
    requires n > 0.0
    ensures d * n <= 0.0 ==> d <= 0.0
    ensures d * n >= 0.0 ==> d >= 0.0
  {
  }

  /** Predictions that equal their labels throughout score 100. */
  lemma PerfectAccuracy(bs: seq<BatchPrediction>)
    requires forall k :: 0 <= k < |bs| ==> bs[k].predictions == bs[k].labels
    requires |bs| > 0 && Accumulate(bs).total > 0
    ensures Accuracy(Accumulate(bs)) == Success(Some(100.0))
  {
    CorrectAtMostTotal(bs);
    AllCorrect(bs);
    var t := Accumulate(bs);
    PerfectScore(t);
  }

  /**
   * Without aligned batches the accuracy is not a percentage: three
   * predictions of class 7 against a single label 7 score 300.
   */
  lemma AccuracyOverHundred()
    ensures Accuracy(Accumulate([BatchPrediction([7, 7, 7], [7])])) == Success(Some(300.0))
  {
    var bs := [BatchPrediction([7, 7, 7], [7])];
    BroadcastOvercount();
    assert bs[..0] == [];
    assert Accumulate(bs) == Tally(3, 1, true);
  }

  function PredictionsOf(bs: seq<BatchPrediction>): seq<seq<int>>
  {
    seq(|bs|, k requires 0 <= k < |bs| => bs[k].predictions)
  }

  /**
   * `predict` (esn.py lines 414-463): predict every batch in order,
   * accumulating the counters; then compute the accuracy (which divides
   * by zero when labels were compared but none were seen) and
   * concatenate the predictions (which raises for zero batches).
   */
  method Predict(esn: Esn, batches: seq<Batch>) returns (r: Result<Report>)
    ensures r.Success? <==>
              |batches| > 0 && PredictAll(esn, batches).Success?
              && Accuracy(Accumulate(PredictAll(esn, batches).value)).Success?
    ensures r.Success? ==>
              var bs := PredictAll(esn, batches).value;
              r.value.predictions == Flatten(PredictionsOf(bs))
              && Success(r.value.accuracy) == Accuracy(Accumulate(bs))
    // the first batch that raises ends prediction with its error
    ensures PredictAll(esn, batches).Failure? ==> r == Failure(PredictAll(esn, batches).error)
    ensures PredictAll(esn, batches).Success? && Accuracy(Accumulate(PredictAll(esn, batches).value)).Failure? ==>
              r == Failure(ZeroTotal)
    ensures |batches| == 0 ==> r == Failure(EmptyConcat)
    // on an aligned run, a reported accuracy is a percentage
    ensures r.Success? && r.value.accuracy.Some? && AlignedRun(esn, batches) ==>
              0.0 <= r.value.accuracy.value <= 100.0
  {
    var swept :- Sweep(PredictStep(esn), batches);
    var accuracy :- Accuracy(swept.1);
    if |batches| == 0 {
      return Failure(EmptyConcat);
    }
    if accuracy.Some? && AlignedRun(esn, batches) {
      AlignedRunAccuracy(esn, batches);
    }
    r := Success(Report(Flatten(swept.0), accuracy));
  }

  /**
   * The batch loop of `predict` for any per-batch prediction step: the
   * per-batch predictions in order and the final counters.
   */
  method Sweep<A>(step: A -> Result<BatchPrediction>, xs: seq<A>) returns (r: Result<(seq<seq<int>>, Tally)>)
    ensures r.Success? <==> Traverse(step, xs).Success?
    ensures r.Success? ==>
              r.value.0 == PredictionsOf(Traverse(step, xs).value)
              && r.value.1 == Accumulate(Traverse(step, xs).value)
    ensures r.Failure? ==> r.error == Traverse(step, xs).error
  {
    var predictionsL: seq<seq<int>> := [];
    var correct: nat := 0;
    var total: nat := 0;
    var testing := false;
    ghost var done: seq<BatchPrediction> := [];
    var i := 0;
    while i < |xs|
      invariant 0 <= i <= |xs|
      invariant Traverse(step, xs[..i]) == Success(done)
      invariant predictionsL == PredictionsOf(done)
      invariant Accumulate(done) == Tally(correct, total, testing)
    {
      var p := step(xs[i]);
      TraverseStep(step, xs, i, done);
      if p.Failure? {
        return Failure(p.error);
      }
      var b := p.value;
      assert PredictionsOf(done + [b]) == PredictionsOf(done) + [b.predictions];
      AccumulateSnoc(done, b);
      predictionsL := predictionsL + [b.predictions];
      total := total + |b.labels|;
      var m := Matches(b.predictions, b.labels);
      if m.Some? {
        correct := correct + m.value;
        testing := true;
      }
      done := done + [b];
      i := i + 1;
    }
    assert xs[..i] == xs;
    return Success((predictionsL, Tally(correct, total, testing)));
  }
}
