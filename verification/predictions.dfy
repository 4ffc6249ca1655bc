/**
 * `_compute_predictions`: turning the readout's raw outputs for one batch
 * into one class id per sequence. Scores are reals, so the per-sequence
 * mean is exact; argmax takes the first of several equal maxima, as
 * PyTorch does.
 */
module Predictions {
  import opened Outcomes
  import opened Tensors

  /** The readout's output for a batch: an N × C score matrix, or a 1-D vector of class ids. */
  datatype RawOutputs = Scores(width: nat, rows: Matrix) | ClassIds(values: seq<real>)

  /** Every row has exactly `width` entries (a 2-D tensor is rectangular). */
  predicate Rectangular(rows: Matrix, width: nat)
  {
    forall j :: 0 <= j < |rows| ==> |rows[j]| == width
  }

  /** `k` is the lowest index holding the maximal entry of `v`. */
  predicate IsFirstMax(v: seq<real>, k: int)
  {
    && 0 <= k < |v|
    && (forall j :: 0 <= j < |v| ==> v[j] <= v[k])
    && (forall j :: 0 <= j < k ==> v[j] < v[k])
  }

  function ArgMax(v: seq<real>): (k: nat)
    requires |v| > 0
    ensures IsFirstMax(v, k)
  {
    if |v| == 1 then 0
    else
      var k := ArgMax(v[..|v| - 1]);
      if v[|v| - 1] > v[k] then |v| - 1 else k
  }

  /** The first maximum is unique, so `ArgMax` is the only index with that property. */
  lemma FirstMaxUnique(v: seq<real>, k: nat)
    requires |v| > 0
    ensures IsFirstMax(v, k) <==> k == ArgMax(v)
  {
  }

  /** Ties go to the lowest index: scores `[0.5, 0.5, 0.2]` predict class 0. */
  lemma ArgMaxTieExample()
    ensures ArgMax([0.5, 0.5, 0.2]) == 0
  {
    FirstMaxUnique([0.5, 0.5, 0.2], 0);
  }

  /** Sum of column `c` over the given rows. */
  function ColumnSum(rows: Matrix, c: nat): real
    requires forall j :: 0 <= j < |rows| ==> c < |rows[j]|
  {
    if |rows| == 0 then 0.0 else ColumnSum(rows[..|rows| - 1], c) + rows[|rows| - 1][c]
  }

  /** `torch.mean(rows, dim=0)`: the column-wise average of a non-empty block of rows. */
  function Mean(rows: Matrix, width: nat): (v: seq<real>)
    requires |rows| > 0 && Rectangular(rows, width)
    ensures |v| == width
  {
    seq(width, c requires 0 <= c < width => ColumnSum(rows, c) / (|rows| as real))
  }

  /** Column sums of a non-empty block of rows. */
  function Totals(rows: Matrix, width: nat): (v: seq<real>)
    requires Rectangular(rows, width)
    ensures |v| == width
  {
    seq(width, c requires 0 <= c < width => ColumnSum(rows, c))
  }

  /**
   * Averaging does not change the prediction: the first maximum of the
   * mean scores is the first maximum of the summed scores.
   */
  lemma MeanArgMax(rows: Matrix, width: nat)
    requires |rows| > 0 && width > 0 && Rectangular(rows, width)
    ensures ArgMax(Mean(rows, width)) == ArgMax(Totals(rows, width))
  {
    var mean := Mean(rows, width);
    var sums := Totals(rows, width);
    var n := |rows| as real;
    var k := ArgMax(sums);
    assert forall j :: 0 <= j < width ==> mean[j] == sums[j] / n;
    forall j | 0 <= j < width
      ensures mean[j] <= mean[k]
    {
      DivMonotone(sums[j], sums[k], n);
    }
    forall j | 0 <= j < k
      ensures mean[j] < mean[k]
    {
      DivStrict(sums[j], sums[k], n);
    }
    FirstMaxUnique(mean, k);
  }

  lemma DivMonotone(a: real, b: real, n: real)
    requires n > 0.0 && a <= b
    ensures a / n <= b / n
  {
  }

  lemma DivStrict(a: real, b: real, n: real)
    requires n > 0.0 && a < b
    ensures a / n < b / n
  {
  }

  /** `x.type(torch.int64)` on a float: truncation toward zero. */
  function TruncateToInt(x: real): (n: int)
    ensures 0.0 <= x ==> n as real <= x < n as real + 1.0
    ensures x < 0.0 ==> n as real - 1.0 < x <= n as real
  {
    if x >= 0.0 then x.Floor else -((-x).Floor)
  }

  /** Class ids that are already whole numbers pass through unchanged. */
  lemma TruncateWhole(k: int)
    ensures TruncateToInt(k as real) == k
  {
  }

  /** The token rows of sequence i: `rows[off[i]:off[i+1]]`, clamped like a Python slice. */
  function Span(rows: Matrix, off: seq<nat>, i: nat): (s: Matrix)
    requires i + 1 < |off|
    ensures forall width: nat :: Rectangular(rows, width) ==> Rectangular(s, width)
  {
    var lo := Min(off[i], |rows|);
    var hi := Min(off[i + 1], |rows|);
    if lo <= hi then rows[lo..hi] else []
  }

  /** Every sequence's span of token rows is non-empty. */
  predicate SpansNonEmpty(rows: Matrix, lengths: seq<nat>)
  {
    forall i :: 0 <= i < |lengths| ==> |Span(rows, Offsets(lengths), i)| > 0
  }

  /** Per-token scores: one prediction per sequence, the first maximum of its span's mean. */
  function TokenPredictions(width: nat, rows: Matrix, lengths: seq<nat>): (p: seq<int>)
    requires width > 0 && Rectangular(rows, width) && SpansNonEmpty(rows, lengths)
    ensures |p| == |lengths|
    ensures forall i :: 0 <= i < |lengths| ==> IsFirstMax(Mean(Span(rows, Offsets(lengths), i), width), p[i])
  {
    var off := Offsets(lengths);
    seq(|lengths|, i requires 0 <= i < |lengths| => ArgMax(Mean(Span(rows, off, i), width)))
  }

  /** Pooled scores: one prediction per row, the row's first maximum. */
  function RowPredictions(width: nat, rows: Matrix): (p: seq<int>)
    requires width > 0 && Rectangular(rows, width)
    ensures |p| == |rows|
    ensures forall i :: 0 <= i < |rows| ==> IsFirstMax(rows[i], p[i])
  {
    seq(|rows|, i requires 0 <= i < |rows| => ArgMax(rows[i]))
  }

  /** Class ids cast one by one, each truncated toward zero; whole numbers come through unchanged. */
  function CastClassIds(values: seq<real>): (p: seq<int>)
    ensures |p| == |values|
    ensures forall i :: 0 <= i < |values| ==>
              (values[i] == values[i].Floor as real ==> p[i] == values[i].Floor)
    ensures forall i :: 0 <= i < |values| && 0.0 <= values[i] ==>
              p[i] as real <= values[i] < p[i] as real + 1.0
    ensures forall i :: 0 <= i < |values| && values[i] < 0.0 ==>
              p[i] as real - 1.0 < values[i] <= p[i] as real
  {
    seq(|values|, i requires 0 <= i < |values| => TruncateToInt(values[i]))
  }

  /** The number of outputs: score rows, or class ids. */
  function OutputCount(raw: RawOutputs): nat
  {
    match raw
    case Scores(_, rows) => |rows|
    case ClassIds(values) => |values|
  }

  /**
   * `_compute_predictions` on the readout's raw outputs. Without pooling
   * the rows are per token: the rows of each sequence are averaged and
   * the first maximal class is taken. With pooling, a score matrix gives
   * its row-wise first maximum and a 1-D output is read as class ids.
   */
  function ComputePredictions(raw: RawOutputs, lengths: seq<nat>, pooling: bool): (r: Result<seq<int>>)
    // without pooling there is exactly one prediction per sequence, from its own span
    ensures !pooling ==>
              (r.Success? <==> raw.Scores? && raw.width > 0 && Rectangular(raw.rows, raw.width)
                               && |lengths| > 0 && SpansNonEmpty(raw.rows, lengths))
    ensures !pooling && r.Success? ==>
              raw.Scores? && |r.value| == |lengths|
              && forall i :: 0 <= i < |lengths| ==>
                   IsFirstMax(Mean(Span(raw.rows, Offsets(lengths), i), raw.width), r.value[i])
    // per token, the first exception: no sequence to stack, a one-dimensional output, no class
    ensures !pooling && |lengths| == 0 ==> r == Failure(EmptyConcat)
    ensures !pooling && |lengths| > 0 && raw.ClassIds? ==> r == Failure(NotAMatrix)
    ensures !pooling && |lengths| > 0 && raw.Scores? && raw.width == 0 && Rectangular(raw.rows, 0) ==>
              r == Failure(EmptyArgmax)
    ensures !pooling && |lengths| > 0 && raw.Scores? && raw.width > 0 && Rectangular(raw.rows, raw.width)
            && !SpansNonEmpty(raw.rows, lengths) ==>
              r == Failure(UndefinedMean)
    // pooled scores: one prediction per row, the row's first maximum
    ensures pooling && raw.Scores? ==>
              (r.Success? <==> raw.width > 0 && Rectangular(raw.rows, raw.width))
    ensures pooling && raw.Scores? && r.Success? ==>
              |r.value| == |raw.rows|
              && forall i :: 0 <= i < |raw.rows| ==> IsFirstMax(raw.rows[i], r.value[i])
    // pooled class ids: cast one by one, truncated toward zero, whole numbers unchanged
    ensures pooling && raw.ClassIds? ==>
              r.Success? && |r.value| == |raw.values|
              && (forall i :: 0 <= i < |raw.values| ==>
                    (raw.values[i] == raw.values[i].Floor as real ==> r.value[i] == raw.values[i].Floor))
              && (forall i :: 0 <= i < |raw.values| && 0.0 <= raw.values[i] ==>
                    r.value[i] as real <= raw.values[i] < r.value[i] as real + 1.0)
              && (forall i :: 0 <= i < |raw.values| && raw.values[i] < 0.0 ==>
                    r.value[i] as real - 1.0 < raw.values[i] <= r.value[i] as real)
  {
    if !pooling then
      // `torch.stack` of no span means raises before `argmax(dim=1)` looks at the outputs
      if |lengths| == 0 then Failure(EmptyConcat)
      else
        match raw
        case ClassIds(_) => Failure(NotAMatrix)
        case Scores(width, rows) =>
          if !Rectangular(rows, width) then Failure(ShapeMismatch)
          // zero classes: argmax over an empty dimension raises, whatever the spans
          else if width == 0 then Failure(EmptyArgmax)
          else if !SpansNonEmpty(rows, lengths) then Failure(UndefinedMean)
          else Success(TokenPredictions(width, rows, lengths))
    else
      match raw
      case ClassIds(values) => Success(CastClassIds(values))
      case Scores(width, rows) =>
        if !Rectangular(rows, width) then Failure(ShapeMismatch)
        else if width == 0 then Failure(EmptyArgmax)
        else Success(RowPredictions(width, rows))
  }

  /** With every sequence non-empty and enough token rows, no span is empty. */
  lemma ExactSpansNonEmpty(rows: Matrix, lengths: seq<nat>)
    requires forall i :: 0 <= i < |lengths| ==> lengths[i] > 0
    requires Sum(lengths) <= |rows|
    ensures SpansNonEmpty(rows, lengths)
  {
    forall i | 0 <= i < |lengths|
      ensures |Span(rows, Offsets(lengths), i)| > 0
    {
      ExactSpan(rows, lengths, i);
    }
  }

  /**
   * With enough token rows, no span is clamped: sequence i averages
   * exactly rows `off[i]` to `off[i+1] - 1`, which are `lengths[i]` rows.
   */
  lemma ExactSpan(rows: Matrix, lengths: seq<nat>, i: nat)
    requires i < |lengths| && Sum(lengths) <= |rows|
    ensures Offsets(lengths)[i + 1] <= |rows|
    ensures Span(rows, Offsets(lengths), i) == rows[Offsets(lengths)[i]..Offsets(lengths)[i + 1]]
    ensures |Span(rows, Offsets(lengths), i)| == lengths[i]
  {
    OffsetsMonotone(lengths, i + 1, |lengths|);
  }
}
