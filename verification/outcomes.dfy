/**
 * Optional values and failure-compatible results for the Echo State Network
 * orchestration layer. Each `Error` constructor stands for one exception the
 * Python code can raise on its way through a batch.
 */
module Outcomes {

  datatype Option<+T> = None | Some(value: T)

  datatype Error =
    | MissingLabels    // no `labels` key (mapping style) or no `label` attribute (attribute style)
    | NullLabels       // a `None` label used as a tensor (`.to`, `.type`, or label duplication)
    | NullFeatures     // an `additional_fts` value of `None` used as a tensor (`.to`)
    | UnboundFeatures  // `additional_fts` read on the attributed branch, where it is never assigned
    | ShapeMismatch    // a concatenation or an index whose tensor shapes disagree
    | EmptyConcat      // `torch.cat` / `torch.stack` of an empty list
    | ZeroIterSteps    // `n_iter % 0`
    | ZeroTotal        // accuracy divided by a zero label count
    | EmptyArgmax      // argmax along a dimension of size zero
    | UndefinedMean    // mean over an empty span of token rows (NaN in the source)
    | NotAMatrix       // argmax along dimension 1 of a one-dimensional output

  datatype Result<+T> = Success(value: T) | Failure(error: Error) {

    predicate IsFailure() {
      Failure?
    }

    function PropagateFailure<U>(): Result<U>
      requires Failure?
    {
      Failure(error)
    }

    function Extract(): T
      requires Success?
    {
      value
    }
  }

  /**
   * Applies `f` to every element in order and stops at the first failure,
   * as a Python loop over batches does when one of them raises.
   */
  function Traverse<A, B>(f: A -> Result<B>, xs: seq<A>): (r: Result<seq<B>>)
    ensures r.Success? ==> |r.value| == |xs|
  {
    if |xs| == 0 then Success([])
    else
      match Traverse(f, xs[..|xs| - 1])
      case Failure(e) => Failure(e)
      case Success(done) =>
        match f(xs[|xs| - 1])
        case Failure(e) => Failure(e)
        case Success(last) => Success(done + [last])
  }

  /**
   * A traversal succeeds exactly when every element succeeds, and then
   * holds their results in order; otherwise it reports the error of the
   * first element that fails.
   */
  lemma {:induction false} TraverseSpec<A, B>(f: A -> Result<B>, xs: seq<A>)
    ensures Traverse(f, xs).Success? <==> forall k :: 0 <= k < |xs| ==> f(xs[k]).Success?
    ensures Traverse(f, xs).Success? ==>
              forall k :: 0 <= k < |xs| ==> f(xs[k]).value == Traverse(f, xs).value[k]
    ensures Traverse(f, xs).Failure? ==>
              exists k :: 0 <= k < |xs| && f(xs[k]).Failure? && f(xs[k]).error == Traverse(f, xs).error
                          && forall j :: 0 <= j < k ==> f(xs[j]).Success?
  {
    if |xs| > 0 {
      var init := xs[..|xs| - 1];
      TraverseSpec(f, init);
      assert forall k :: 0 <= k < |init| ==> init[k] == xs[k];
    }
  }

  /** Appending one element extends a successful traversal by that element's result. */
  lemma TraverseSnoc<A, B>(f: A -> Result<B>, xs: seq<A>, x: A, done: seq<B>)
    requires Traverse(f, xs) == Success(done)
    ensures f(x).Success? ==> Traverse(f, xs + [x]) == Success(done + [f(x).value])
    ensures f(x).Failure? ==> Traverse(f, xs + [x]) == Failure(f(x).error)
  {
    assert (xs + [x])[..|xs|] == xs;
  }

  /** Once a prefix fails, the whole traversal fails with the same error. */
  lemma {:induction false} TraverseFailurePrefix<A, B>(f: A -> Result<B>, xs: seq<A>, k: nat)
    requires k <= |xs| && Traverse(f, xs[..k]).Failure?
    ensures Traverse(f, xs) == Traverse(f, xs[..k])
    decreases |xs| - k
  {
    if k == |xs| {
      assert xs[..k] == xs;
    } else {
      assert xs[..k + 1][..k] == xs[..k];
      TraverseFailurePrefix(f, xs, k + 1);
    }
  }

  /**
   * One step of a loop over `xs` that keeps `Traverse(f, xs[..i])`: a
   * success extends the prefix, a failure is the whole traversal's failure.
   */
  lemma TraverseStep<A, B>(f: A -> Result<B>, xs: seq<A>, i: nat, done: seq<B>)
    requires i < |xs| && Traverse(f, xs[..i]) == Success(done)
    ensures f(xs[i]).Success? ==> Traverse(f, xs[..i + 1]) == Success(done + [f(xs[i]).value])
    ensures f(xs[i]).Failure? ==> Traverse(f, xs) == Failure(f(xs[i]).error)
  {
    assert xs[..i + 1] == xs[..i] + [xs[i]];
    TraverseSnoc(f, xs[..i], xs[i], done);
    if f(xs[i]).Failure? {
      TraverseFailurePrefix(f, xs, i + 1);
    }
  }
}
