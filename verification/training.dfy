/**
 * Training: `fit` dispatches on the learning algorithm's class to the
 * closed-form trainer, which stacks every batch's merged rows and labels
 * and fits once, or to the gradient-descent trainer, which takes one
 * optimiser step per batch per epoch and records the loss every
 * `iter_steps` steps. The learning algorithm, the loss criterion and the
 * optimiser are opaque: the closed-form trainer's result is the single
 * call it makes (`FitCall`), and the gradient trainer's result is the
 * sequence of prepared batches the optimiser saw, in order, together with
 * the recorded losses. The loss computed at a step, before that step's
 * update, depends on the batch of that step and on every step before it
 * (the optimiser's state), so it is a function `lossOf` of the step trace
 * up to and including that step.
 */
module Training {
  import opened Outcomes
  import opened Tensors
  import opened Batches

  /** The defaults of `fit(train_dataloader, epochs=1, iter_steps=100)`. */
  const DefaultEpochs: int := 1
  const DefaultIterSteps: int := 100

  /** The one call `learning_algo.fit(all_states, all_labels)` of the closed-form trainer. */
  datatype FitCall = FitCall(design: Matrix, targets: seq<int>)

  /** What a training run did: one closed-form fit, or a trace of optimiser steps and recorded losses. */
  datatype Run = ClosedForm(fit: FitCall) | Gradient(losses: seq<real>, steps: seq<Prepared>)

  /**
   * The four classes trained in closed form (`RidgeRegression`,
   * `RidgeRegression_skl`, `LogisticRegression_skl`, `LinearSVC`); every
   * other learning algorithm is trained by gradient descent.
   */
  predicate IsClosedForm(kind: ReadoutKind)
  {
    !kind.OtherAlgorithm?
  }

  /**
   * Preparing every batch in order, stopping at the first that raises;
   * `castLabels` is set for the gradient trainer, which casts labels to int64.
   */
  function PrepareAll(esn: Esn, batches: seq<Batch>, castLabels: bool): Result<seq<Prepared>>
  {
    Traverse(StepOf(esn, castLabels), batches)
  }

  /** The per-batch preparation as a function of the batch. */
  function StepOf(esn: Esn, castLabels: bool): Batch -> Result<Prepared>
  {
    b => PrepareBatch(esn, b, castLabels)
  }

  function RowsOf(ps: seq<Prepared>): seq<Matrix>
  {
    seq(|ps|, k requires 0 <= k < |ps| => ps[k].states)
  }

  function LabelsOf(ps: seq<Prepared>): seq<seq<int>>
  {
    seq(|ps|, k requires 0 <= k < |ps| => ps[k].labels)
  }

  lemma StackSnoc(ps: seq<Prepared>, p: Prepared)
    ensures RowsOf(ps + [p]) == RowsOf(ps) + [p.states]
    ensures LabelsOf(ps + [p]) == LabelsOf(ps) + [p.labels]
  {
  }

  /**
   * `_fit_direct` (esn.py lines 186-231): prepare the batches in order,
   * collecting merged rows and labels; then stack both lists along
   * dimension 0 (which raises on an empty list) and fit once.
   */
  method FitDirect(esn: Esn, batches: seq<Batch>) returns (r: Result<FitCall>)
    ensures r.Success? <==> |batches| > 0 && PrepareAll(esn, batches, false).Success?
    // the design matrix and the targets are the batches' rows and labels, in batch order
    ensures r.Success? ==>
              r.value == FitCall(Flatten(RowsOf(PrepareAll(esn, batches, false).value)),
                                 Flatten(LabelsOf(PrepareAll(esn, batches, false).value)))
    // the first batch that raises ends training with its error
    ensures PrepareAll(esn, batches, false).Failure? ==> r == Failure(PrepareAll(esn, batches, false).error)
    ensures |batches| == 0 ==> r == Failure(EmptyConcat)
  {
    var statesL: seq<Matrix> := [];
    var labelsL: seq<seq<int>> := [];
    ghost var done: seq<Prepared> := [];
    var f := StepOf(esn, false);
    var i := 0;
    while i < |batches|
      invariant 0 <= i <= |batches|
      invariant Traverse(f, batches[..i]) == Success(done)
      invariant statesL == RowsOf(done) && labelsL == LabelsOf(done)
    {
      var p := f(batches[i]);
      TraverseStep(f, batches, i, done);
      if p.Failure? {
        return Failure(p.error);
      }
      StackSnoc(done, p.value);
      statesL := statesL + [p.value.states];
      labelsL := labelsL + [p.value.labels];
      done := done + [p.value];
      i := i + 1;
    }
    assert batches[..i] == batches;
    if |batches| == 0 {
      return Failure(EmptyConcat);
    }
    r := Success(FitCall(Flatten(statesL), Flatten(labelsL)));
  }

  /**
   * Stacking keeps each batch's rows next to its labels: when every
   * prepared batch has as many rows as labels, the design matrix has as
   * many rows as there are targets, and batch k's rows and labels occupy
   * the same range of both.
   */
  lemma DesignAligned(ps: seq<Prepared>, k: nat)
    requires forall j :: 0 <= j < |ps| ==> |ps[j].states| == |ps[j].labels|
    requires k < |ps|
    ensures |Flatten(RowsOf(ps))| == |Flatten(LabelsOf(ps))|
    ensures var off := Offsets(Sizes(RowsOf(ps)));
            off[k + 1] <= |Flatten(RowsOf(ps))|
            && Flatten(RowsOf(ps))[off[k]..off[k + 1]] == ps[k].states
            && Flatten(LabelsOf(ps))[off[k]..off[k + 1]] == ps[k].labels
  {
    var rows := RowsOf(ps);
    var labels := LabelsOf(ps);
    SameSizes(ps);
    FlattenSpan(rows, k);
    FlattenSpan(labels, k);
    assert rows[k] == ps[k].states;
    assert labels[k] == ps[k].labels;
  }

  lemma SameSizes(ps: seq<Prepared>)
    requires forall k :: 0 <= k < |ps| ==> |ps[k].states| == |ps[k].labels|
    ensures Sizes(RowsOf(ps)) == Sizes(LabelsOf(ps))
    ensures |Flatten(RowsOf(ps))| == |Flatten(LabelsOf(ps))|
  {
    assert Sizes(RowsOf(ps)) == Sizes(LabelsOf(ps));
    FlattenLength(RowsOf(ps));
    FlattenLength(LabelsOf(ps));
  }

  /** `range(int(epochs))` runs no epoch for a non-positive count. */
  function EpochCount(epochs: int): (e: nat)
    ensures epochs <= 0 ==> e == 0
    ensures epochs > 0 ==> e == epochs
  {
    if epochs > 0 then epochs else 0
  }

  /** `s` repeated `epochs` times: the order in which the optimiser sees the batches. */
  function Cycle<T>(s: seq<T>, epochs: nat): (r: seq<T>)
  {
    if epochs == 0 then [] else Cycle(s, epochs - 1) + s
  }

  /** Step t of the cycle is batch `t % |s|` of epoch `t / |s|`. */
  lemma {:induction false} CycleAt<T>(s: seq<T>, epochs: nat)
    ensures |Cycle(s, epochs)| == epochs * |s|
    ensures forall t :: 0 <= t < |Cycle(s, epochs)| ==> |s| > 0 && Cycle(s, epochs)[t] == s[t % |s|]
  {
    if epochs > 0 {
      var prev := Cycle(s, epochs - 1);
      CycleAt(s, epochs - 1);
      assert |Cycle(s, epochs)| == (epochs - 1) * |s| + |s|;
      forall t | |prev| <= t < |Cycle(s, epochs)|
        ensures Cycle(s, epochs)[t] == s[t % |s|]
      {
        DivUnique(t, |s|, epochs - 1, t - |prev|);
      }
    }
  }

  /**
   * The losses recorded over the given steps: for every step whose
   * 1-based count is a multiple of `k`, the loss computed at that step.
   */
  function LossHistory<T>(lossOf: seq<T> -> real, steps: seq<T>, k: nat): seq<real>
    requires k > 0
  {
    if |steps| == 0 then []
    else
      LossHistory(lossOf, steps[..|steps| - 1], k)
      + (if |steps| % k == 0 then [lossOf(steps)] else [])
  }

  /** The history holds `|steps| / k` losses. */
  lemma {:induction false} LossCount<T>(lossOf: seq<T> -> real, steps: seq<T>, k: nat)
    requires k > 0
    ensures |LossHistory(lossOf, steps, k)| == |steps| / k
  {
    if |steps| > 0 {
      LossCount(lossOf, steps[..|steps| - 1], k);
      DivStep(|steps| - 1, k);
    }
  }

  /** Entry j of the history is the loss computed at step `(j + 1) * k`. */
  lemma {:induction false} LossEntry<T>(lossOf: seq<T> -> real, steps: seq<T>, k: nat, j: nat)
    requires k > 0 && j < |LossHistory(lossOf, steps, k)|
    ensures (j + 1) * k <= |steps|
    ensures LossHistory(lossOf, steps, k)[j] == lossOf(steps[..(j + 1) * k])
  {
    var n := |steps|;
    var init := steps[..n - 1];
    var prev := LossHistory(lossOf, init, k);
    var m := (j + 1) * k;
    LossCount(lossOf, init, k);
    DivStep(n - 1, k);
    if j < |prev| {
      LossEntry(lossOf, init, k, j);
      assert init[..m] == steps[..m];
    } else {
      assert m == n;
      assert steps[..n] == steps;
    }
  }

  lemma MulMono(a: int, b: int, k: nat)
    requires a <= b
    ensures a * k <= b * k
  {
  }

  /** Division by a positive `k` is determined by any quotient/remainder pair. */
  lemma DivUnique(x: nat, k: nat, q: nat, rem: nat)
    requires k > 0 && rem < k && x == q * k + rem
    ensures x / k == q && x % k == rem
  {
    var d := x / k - q;
    assert x == (x / k) * k + x % k;
    assert d * k == rem - x % k;
    if d >= 1 {
      MulMono(1, d, k);
    } else if d <= -1 {
      MulMono(d, -1, k);
    }
  }

  /** One more step adds one to the quotient exactly when it lands on a multiple of `k`. */
  lemma DivStep(m: nat, k: nat)
    requires k > 0
    ensures (m + 1) % k == 0 ==> (m + 1) / k == m / k + 1 && (m / k + 1) * k == m + 1
    ensures (m + 1) % k != 0 ==> (m + 1) / k == m / k
  {
    var q := m / k;
    var rem := m % k;
    assert m == q * k + rem;
    if rem + 1 < k {
      DivUnique(m + 1, k, q, rem + 1);
    } else {
      assert m + 1 == (q + 1) * k + 0;
      DivUnique(m + 1, k, q + 1, 0);
    }
  }

  function Abs(x: int): nat
  {
    if x < 0 then -x else x
  }

  /**
   * `_fit_GD` (esn.py lines 252-310). For each epoch and each batch in
   * order: prepare the batch, take one optimiser step, bump the step
   * counter, and record the loss when the counter is a multiple of
   * `iter_steps`. Python's `n % d == 0` holds exactly when `|d|` divides
   * `n`, also for negative `d`; for `d == 0` it raises right after the
   * first step.
   */
  method FitGradient(esn: Esn, batches: seq<Batch>, epochs: int, iterSteps: int,
                     lossOf: seq<Prepared> -> real) returns (r: Result<Run>)
    ensures r.Success? <==>
              EpochCount(epochs) == 0 || |batches| == 0
              || (PrepareAll(esn, batches, true).Success? && iterSteps != 0)
    ensures r.Success? ==> r.value.Gradient?
    // the optimiser sees every batch once per epoch, in order
    ensures r.Success? && EpochCount(epochs) > 0 ==>
              PrepareAll(esn, batches, true).Success?
              && r.value.steps == Cycle(PrepareAll(esn, batches, true).value, EpochCount(epochs))
    ensures r.Success? && EpochCount(epochs) == 0 ==> r.value.steps == []
    // the loss is recorded every |iter_steps| steps
    ensures r.Success? && iterSteps != 0 ==>
              r.value.losses == LossHistory(lossOf, r.value.steps, Abs(iterSteps))
    ensures r.Success? && iterSteps == 0 ==> r.value.losses == []
    // one step per batch per epoch, and one loss per |iter_steps| steps
    ensures r.Success? ==> |r.value.steps| == EpochCount(epochs) * |batches|
    ensures r.Success? && iterSteps != 0 ==>
              |r.value.losses| == EpochCount(epochs) * |batches| / Abs(iterSteps)
    // the first batch that raises ends training; a zero step interval raises after the first step
    ensures r.Failure? ==> |batches| > 0
    ensures r.Failure? && iterSteps == 0 && PrepareBatch(esn, batches[0], true).Success? ==> r.error == ZeroIterSteps
    ensures r.Failure? && !(iterSteps == 0 && PrepareBatch(esn, batches[0], true).Success?) ==>
              PrepareAll(esn, batches, true) == Failure(r.error)
  {
    var run := Descend(StepOf(esn, true), batches, EpochCount(epochs), iterSteps, lossOf);
    match run
    case Failure(e) =>
      r := Failure(e);
    case Success(trace) =>
      if EpochCount(epochs) > 0 {
        CycleAt(PrepareAll(esn, batches, true).value, EpochCount(epochs));
      }
      if iterSteps != 0 {
        LossCount(lossOf, trace.1, Abs(iterSteps));
      }
      r := Success(Gradient(trace.0, trace.1));
  }

  /**
   * The epoch and batch loops of `_fit_GD` for any per-batch step: the
   * result is the recorded losses and the trace of step results.
   */
  method Descend<A, B>(step: A -> Result<B>, xs: seq<A>, epochs: nat, iterSteps: int,
                       lossOf: seq<B> -> real) returns (r: Result<(seq<real>, seq<B>)>)
    ensures r.Success? <==> epochs == 0 || |xs| == 0 || (Traverse(step, xs).Success? && iterSteps != 0)
    ensures r.Success? && epochs > 0 ==>
              Traverse(step, xs).Success? && r.value.1 == Cycle(Traverse(step, xs).value, epochs)
    ensures r.Success? && epochs == 0 ==> r.value.1 == []
    ensures r.Success? && iterSteps != 0 ==> r.value.0 == LossHistory(lossOf, r.value.1, Abs(iterSteps))
    ensures r.Success? && iterSteps == 0 ==> r.value.0 == []
    ensures r.Failure? ==> |xs| > 0
    ensures r.Failure? && iterSteps == 0 && step(xs[0]).Success? ==> r.error == ZeroIterSteps
    ensures r.Failure? && !(iterSteps == 0 && step(xs[0]).Success?) ==> Traverse(step, xs) == Failure(r.error)
  {
    var losses: seq<real> := [];
    var steps: seq<B> := [];
    var epoch := 0;
    while epoch < epochs
      invariant 0 <= epoch <= epochs
      invariant epoch == 0 ==> steps == []
      invariant epoch > 0 ==>
                  Traverse(step, xs).Success? && steps == Cycle(Traverse(step, xs).value, epoch)
      invariant iterSteps != 0 ==> losses == LossHistory(lossOf, steps, Abs(iterSteps))
      invariant iterSteps == 0 ==> steps == [] && losses == []
    {
      var pass := RunEpoch(step, xs, iterSteps, lossOf, steps, losses);
      if pass.Failure? {
        return Failure(pass.error);
      }
      losses, steps := pass.value.0, pass.value.1;
      epoch := epoch + 1;
    }
    return Success((losses, steps));
  }

  /**
   * One epoch of `_fit_GD`: one step per element of `xs`, in order,
   * continuing the step counter and the loss history of the steps taken
   * so far.
   */
  method RunEpoch<A, B>(step: A -> Result<B>, xs: seq<A>, iterSteps: int, lossOf: seq<B> -> real,
                        stepsSoFar: seq<B>, lossesSoFar: seq<real>) returns (r: Result<(seq<real>, seq<B>)>)
    requires iterSteps != 0 ==> lossesSoFar == LossHistory(lossOf, stepsSoFar, Abs(iterSteps))
    requires iterSteps == 0 ==> stepsSoFar == [] && lossesSoFar == []
    ensures r.Success? <==> |xs| == 0 || (Traverse(step, xs).Success? && iterSteps != 0)
    ensures r.Success? ==> Traverse(step, xs).Success? && r.value.1 == stepsSoFar + Traverse(step, xs).value
    ensures r.Success? && iterSteps != 0 ==> r.value.0 == LossHistory(lossOf, r.value.1, Abs(iterSteps))
    ensures r.Success? && iterSteps == 0 ==> r.value.0 == [] && r.value.1 == []
    ensures r.Failure? ==> |xs| > 0
    ensures r.Failure? && iterSteps == 0 && step(xs[0]).Success? ==> r.error == ZeroIterSteps
    ensures r.Failure? && !(iterSteps == 0 && step(xs[0]).Success?) ==> Traverse(step, xs) == Failure(r.error)
  {
    var losses := lossesSoFar;
    var steps := stepsSoFar;
    var nIter := |stepsSoFar|;
    ghost var done: seq<B> := [];
    var b := 0;
    while b < |xs|
      invariant 0 <= b <= |xs|
      invariant Traverse(step, xs[..b]) == Success(done)
      invariant steps == stepsSoFar + done
      invariant nIter == |steps|
      invariant iterSteps != 0 ==> losses == LossHistory(lossOf, steps, Abs(iterSteps))
      invariant iterSteps == 0 ==> steps == [] && losses == [] && b == 0
    {
      var p := step(xs[b]);
      TraverseStep(step, xs, b, done);
      if p.Failure? {
        return Failure(p.error);
      }
      var before := steps;
      steps := steps + [p.value];
      done := done + [p.value];
      nIter := nIter + 1;
      if iterSteps == 0 {
        return Failure(ZeroIterSteps);
      }
      assert steps[..|steps| - 1] == before;
      if nIter % Abs(iterSteps) == 0 {
        losses := losses + [lossOf(steps)];
      }
      b := b + 1;
    }
    assert xs[..b] == xs;
    return Success((losses, steps));
  }

  /**
   * `fit` (esn.py lines 334-345): closed form for the four closed-form
   * classes, gradient descent for every other learning algorithm.
   */
  method Fit(esn: Esn, batches: seq<Batch>, epochs: int, iterSteps: int,
             lossOf: seq<Prepared> -> real) returns (r: Result<Run>)
    ensures r.Success? ==> (r.value.ClosedForm? <==> IsClosedForm(esn.readout.kind))
    // closed form: the one fit call on the stacked batches, or the closed-form trainer's error
    ensures IsClosedForm(esn.readout.kind) ==>
              (r.Success? <==> |batches| > 0 && PrepareAll(esn, batches, false).Success?)
    ensures IsClosedForm(esn.readout.kind) && r.Success? ==>
              r.value.fit == FitCall(Flatten(RowsOf(PrepareAll(esn, batches, false).value)),
                                     Flatten(LabelsOf(PrepareAll(esn, batches, false).value)))
    ensures IsClosedForm(esn.readout.kind) && PrepareAll(esn, batches, false).Failure? ==>
              r == Failure(PrepareAll(esn, batches, false).error)
    ensures IsClosedForm(esn.readout.kind) && |batches| == 0 ==> r == Failure(EmptyConcat)
    // gradient descent: the cycled trace, the sampled losses, or the gradient trainer's error
    ensures !IsClosedForm(esn.readout.kind) ==>
              (r.Success? <==>
                 EpochCount(epochs) == 0 || |batches| == 0
                 || (PrepareAll(esn, batches, true).Success? && iterSteps != 0))
    ensures !IsClosedForm(esn.readout.kind) && r.Success? && EpochCount(epochs) > 0 ==>
              r.value.steps == Cycle(PrepareAll(esn, batches, true).value, EpochCount(epochs))
    ensures !IsClosedForm(esn.readout.kind) && r.Success? && EpochCount(epochs) == 0 ==> r.value.steps == []
    ensures !IsClosedForm(esn.readout.kind) && r.Success? && iterSteps != 0 ==>
              r.value.losses == LossHistory(lossOf, r.value.steps, Abs(iterSteps))
    ensures !IsClosedForm(esn.readout.kind) && r.Success? && iterSteps == 0 ==> r.value.losses == []
    ensures (!IsClosedForm(esn.readout.kind) && r.Failure? && iterSteps == 0
             && PrepareBatch(esn, batches[0], true).Success?) ==>
              r.error == ZeroIterSteps
    ensures (!IsClosedForm(esn.readout.kind) && r.Failure?
             && !(iterSteps == 0 && PrepareBatch(esn, batches[0], true).Success?)) ==>
              PrepareAll(esn, batches, true) == Failure(r.error)
  {
    if IsClosedForm(esn.readout.kind) {
      var call :- FitDirect(esn, batches);
      r := Success(ClosedForm(call));
    } else {
      r := FitGradient(esn, batches, epochs, iterSteps, lossOf);
    }
  }

  /**
   * With the default step interval, 250 optimiser steps record exactly
   * two losses: those computed at steps 100 and 200.
   */
  lemma DefaultLossCount(lossOf: seq<Prepared> -> real, steps: seq<Prepared>)
    requires |steps| == 250
    ensures |LossHistory(lossOf, steps, DefaultIterSteps)| == 2
    ensures LossHistory(lossOf, steps, DefaultIterSteps)
              == [lossOf(steps[..100]), lossOf(steps[..200])]
  {
    LossCount(lossOf, steps, DefaultIterSteps);
    LossEntry(lossOf, steps, DefaultIterSteps, 0);
    LossEntry(lossOf, steps, DefaultIterSteps, 1);
  }

  /** With the default epoch count, the optimiser sees each prepared batch once, in order. */
  lemma DefaultSinglePass<T>(prepared: seq<T>)
    ensures Cycle(prepared, EpochCount(DefaultEpochs)) == prepared
  {
    assert Cycle(prepared, 0) == [];
    assert Cycle(prepared, 1) == [] + prepared;
  }
}
