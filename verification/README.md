# Echo State Network orchestration, modelled in Dafny

This project models the orchestration core of the `ESN` class of esntorch
(`esntorch/core/esn.py`). That core is the code that turns batches of
tokenised texts into training data and predictions:

- **Directional combination** (`_apply_pooling_strategy`). Forward and
  time-reversed reservoir states are handed to the merging strategy and
  joined.
  - Without pooling, the reversed states are first realigned to forward
    time and joined feature-wise.
  - With pooling, each direction is merged separately and the results are
    concatenated.
- **Batch preparation**, shared by both trainers. A batch is read (mapping
  style or attribute style) and encoded. Labels are duplicated across
  token rows when there is no pooling. Then the states are merged.
- **Closed-form training** (`_fit_direct`). Every prepared batch is stacked
  and the readout is fitted once.
- **Gradient-descent training** (`_fit_GD`). There is one optimiser step per
  batch per epoch, and a loss is recorded every `iter_steps` steps.
- **Dispatch** (`fit`), on the learning algorithm's class.
- **Predictions** (`_compute_predictions`).
  - Without pooling, each sequence's token scores are averaged, then the
    first maximal class is taken.
  - With pooling, the row-wise first maximum is taken, or raw class ids are
    cast to integers.
- **Evaluation** (`predict`). Predictions are concatenated. Matches are
  counted under PyTorch broadcasting. The accuracy is returned as a
  percentage.

## Modelling choices

- **Tensors.** They are sequences: a `Matrix` is `seq<seq<real>>`, and
  `States` is a batch of per-token rows. Integer labels and class ids are
  `int`. Scores are `real`, so means are exact.
- **Exceptions.** Every exception that ends a run is a `Result` failure
  with a named `Error`. A loop stops at the first batch that raises
  (`Outcomes.Traverse`).
- **Opaque collaborators.** The reservoir layer, the merging strategy's
  reduction and the readout's forward pass are function-valued fields
  (`Layer.encode`, `Merger.reduce`, `Readout.forward`).
  - Every call made to the reduction is recorded, so that the routing of
    the additional features can be stated.
  - The loss criterion and the optimiser are also opaque. The loss computed
    at step n (before that step's update) is `lossOf` applied to the trace
    of the first n steps. That trace determines the optimiser's state and
    the batch the loss is computed on.
- **Batch text.** `Batch.text` stands for everything the layer and the
  reduction read from a batch. On the mapping-style branch the source
  passes the whole batch mapping as `batch_text`, and on the attribute-style
  branch it passes the `text` attribute. The model passes the same
  value to `Layer.encode` and to every reduction call either way.
- **Dispatch.** `fit` trains the four closed-form classes (`RidgeRegression`,
  `RidgeRegression_skl`, `LogisticRegression_skl`, `LinearSVC`) in closed
  form and every other learning algorithm by gradient descent; there is
  no separate error for an unknown class.
- **Training results.** The closed-form trainer's result is the single
  `fit(all_states, all_labels)` call it makes. The gradient trainer's result
  is the recorded losses together with the trace of prepared batches the
  optimiser saw.
- **Python semantics, written out explicitly:**
  - slices clamp (`Predictions.Span`);
  - `argmax` returns the first maximal index;
  - casting a float to `int64` truncates toward zero;
  - `n % d == 0` holds exactly when `|d|` divides `n`, and raises for `d == 0`;
  - `range(int(epochs))` is empty for a non-positive count;
  - `torch.cat` of an empty list raises;
  - `predictions == labels` broadcasts a size-1 side and raises for any
    other size mismatch.

### Where the documented behaviour and the code differ (the model follows the code)

- **Missing labels.** The code reads `batch["labels"].to(...)` outside the
  `try` block of `predict`. So a mapping-style batch whose labels are
  absent (`MissingLabels`) or `None` (`NullLabels`) ends prediction with an
  exception. It does not switch to pure-prediction mode. An
  `additional_fts` entry whose value is `None` likewise raises at its
  `.to` call (`NullFeatures`).
  - Among one-dimensional label tensors, the `try` block absorbs only a
    size mismatch between predictions and labels. That mismatch is raised
    after `total` was already increased by the batch's label count.
    (A zero-dimensional label tensor would raise inside the `try` before
    `total` changes; such labels are not modelled, see below.)
- **Accuracy above 100.** A batch with a single label broadcasts against
  all of its predictions, so `correct` can exceed `total` and the
  reported accuracy can exceed 100 (`Evaluation.AccuracyOverHundred`:
  three predictions of class 7 against one label 7 score 300). The
  accuracy is a percentage only when every compared batch has one
  prediction per label (`Evaluation.AlignedAccuracy`). A `predict` run has
  that alignment when every batch has one label per sequence and, with
  pooling, the reduction keeps one row per sequence and the readout one
  output per row (`Evaluation.PredictAligned`, `Evaluation.AlignedRunAccuracy`).
- **Attribute-style batches.** On this branch `additional_fts` is never
  assigned, so the pooling call raises for every batch that gets that far
  (`UnboundFeatures`). Earlier lines raise first when they can: a missing
  `label` attribute (`MissingLabels`), the gradient trainer's int64 cast of
  a `None` label (`NullLabels`), and the duplication of a `None` label or of
  a label count that does not match the sequences (`NullLabels`,
  `ShapeMismatch`). `Batches.AttributeStyleErrors` exhibits each case.

## Model

| member | source | states |
|---|---|---|
| Pooling.ApplyPooling | esntorch/core/esn.py:151-170 | Which inputs fail. Each strategy makes one reduction call, except pooled bidirectional, which makes two. Unidirectional rows are exactly the one reduction of the forward states with the additional features. Every call sees the true lengths and tokens. The additional features go only with the forward states, and never in bidirectional no-pooling mode. Pooled bidirectional rows are the forward merged row followed by the reversed merged row. Per-token bidirectional rows put each token's forward state beside the reversed-pass state of that same token. |
| Pooling.JoinDirections | esntorch/core/esn.py:155-159 | Inside the true length, time step k is joined with reversed step `l-1-k`. Past the true length, and for rows beyond the lengths, it is joined with reversed step k. |
| Pooling.JoinedRows | esntorch/core/esn.py:159 | Concatenating along dimension 2 puts the forward row first and the restored row after it. |
| Pooling.BidirectionalWidth | esntorch/core/esn.py:151-166 | When both directions and the reduction keep the reservoir width d, every joined state and every pooled row is 2d wide. |
| Tensors.Reverse | esntorch/core/esn.py:157 | Reversal: entry i is entry `n-1-i` of the input, and the length is kept. |
| Tensors.FlipPrefix | esntorch/core/esn.py:157 | The first `l` steps are reversed (clamped to the row's length). The remaining steps are unchanged. |
| Tensors.Restore | esntorch/core/esn.py:155-157 | Each sequence's true-length prefix is flipped. The batch shape and the sequences beyond `lengths` are unchanged. |
| Tensors.RestoreInvolutive | esntorch/core/esn.py:155-157 | Restoring twice gives back the original states: the realignment is its own inverse. |
| Tensors.CatStates | esntorch/core/esn.py:159 | Each joined row is the forward row followed by the restored row. Widths add up and the batch/time shape is kept. |
| Tensors.CatFeatures | esntorch/core/esn.py:166 | Row i is forward row i followed by reversed row i. |
| Tensors.Offsets | esntorch/core/esn.py:383-384 | The offsets start at 0 and each step adds one sequence length. There is one more offset than there are sequences. The last offset is the total number of tokens. |
| Tensors.OffsetsMonotone | esntorch/core/esn.py:384 | The offsets never decrease. |
| Tensors.OffsetsBounded | esntorch/core/esn.py:384 | No offset exceeds the total number of tokens. |
| Tensors.OffsetsPrefix | esntorch/core/esn.py:384 | The offsets of a prefix of the lengths are a prefix of the offsets. |
| Tensors.OffsetsCover | esntorch/core/esn.py:384-385 | Every token row below the total lies in some sequence's span. |
| Tensors.OffsetsDisjoint | esntorch/core/esn.py:384-385 | No token row lies in two sequences' spans. |
| Tensors.FlattenLength | esntorch/core/esn.py:225 | Concatenating along dimension 0 gives as many rows as the parts have together. |
| Tensors.FlattenSpan | esntorch/core/esn.py:225 | Part i occupies exactly the rows between its offsets in the concatenation. |
| Tensors.FlattenSpanAt | esntorch/core/esn.py:225 | The same placement, for any offset table that satisfies the offset recurrence. |
| Tensors.DuplicateLabels | esntorch/core/esn.py:216-217 | One label per token: as many labels as tokens in the batch. |
| Tensors.DuplicateLabelsSpan | esntorch/core/esn.py:216-217 | Sequence i's span of the duplicated labels is `lengths[i]` copies of label i. |
| Tensors.DuplicateLabelsAt | esntorch/core/esn.py:216-217 | Every token row carries the label of the sequence it belongs to. |
| Tensors.DuplicateLabelsExample | esntorch/core/esn.py:216-217 | Any two labels `[a, b]` with lengths `[2, 3]` become `[a, a, b, b, b]`. |
| Batches.Normalize | esntorch/core/esn.py:194-203 | Reading loses nothing it reads: the label field, and on the mapping-style branch the features field, can be put back together from what was read. Reading succeeds iff the label key or attribute exists and, on the mapping-style branch, the label and any features entry are not `None`. A failure is MissingLabels exactly for an absent label, NullLabels exactly for a mapping-style `None` label, and NullFeatures exactly for a mapping-style `None` features entry. On the attribute-style branch a `None` label is read and the features stay unassigned. |
| Batches.PrepareBatch | esntorch/core/esn.py:194-221 | A batch prepares iff it is a readable mapping-style batch, its label count matches its sequence count when labels are duplicated, and its states merge. The errors come in source order: reading, then the labels (the gradient trainer's cast of a `None` label, then duplication: NullLabels or ShapeMismatch), then the pooling call, which raises UnboundFeatures on the attribute-style branch. Prepared rows are the merged states. Pooled labels are the batch's own labels. Per-token labels are the duplicated labels. |
| Batches.EncodeAndPool | esntorch/core/esn.py:205-221 | Fails with UnboundFeatures exactly on the attribute-style branch, where `additional_fts` was never assigned. Otherwise every reduction call sees this batch's tokens and the layer's lengths for them, and only the features the batch bound. |
| Batches.PrepareLabels | esntorch/core/esn.py:213-217 | Succeeds iff a `None` label is neither cast nor duplicated and, when labels are duplicated, there is one label per sequence. Pooled labels pass through unchanged. Per-token labels are the duplicated labels. A failure is NullLabels exactly for a `None` label and ShapeMismatch otherwise. |
| Batches.AttributeStyleErrors | esntorch/core/esn.py:201-221 | Concrete attribute-style batches fail with the first exception the source meets: MissingLabels without a label attribute, NullLabels for a `None` label under the int64 cast, ShapeMismatch for one label over two sequences per token, and UnboundFeatures only when the labels get through. |
| Batches.PreparedAligned | esntorch/core/esn.py:213-223 | When the reduction keeps one row per token (or per sequence), a prepared batch has exactly as many rows as labels. |
| Outcomes.TraverseSpec | esntorch/core/esn.py:192-223 | A batch loop succeeds iff every batch succeeds, and the results then correspond batch by batch. Otherwise the error is the one from the first failing batch. |
| Outcomes.TraverseFailurePrefix | esntorch/core/esn.py:192-223 | Once a prefix of the batches fails, later batches do not change the outcome. |
| Training.FitDirect | esntorch/core/esn.py:186-231 | Success iff there is a batch and every batch prepares. The one fit call gets all rows and all labels stacked in batch order. Otherwise the first failing batch's error is returned, or EmptyConcat when there are no batches. |
| Training.DesignAligned | esntorch/core/esn.py:222-227 | When every prepared batch is aligned, the stacked design matrix has as many rows as there are targets, and batch k's rows and labels sit at the same offsets in both. |
| Training.CycleAt | esntorch/core/esn.py:258-261 | The optimiser's step t sees batch `t mod |batches|`, for `epochs * |batches|` steps in all. |
| Training.LossCount | esntorch/core/esn.py:302-306 | A run of n steps records `n / k` losses. |
| Training.LossEntry | esntorch/core/esn.py:302-306 | Recorded loss j is the loss computed at step `(j+1) * k`, a function of the first `(j+1) * k` steps. |
| Training.DefaultLossCount | esntorch/core/esn.py:302-306 | With the default interval of 100, 250 steps record the losses computed at steps 100 and 200. |
| Training.DefaultSinglePass | esntorch/core/esn.py:258-261 | With the default single epoch, the optimiser sees each prepared batch exactly once, in order. |
| Training.FitGradient | esntorch/core/esn.py:252-310 | Success iff no epoch runs, or there are no batches, or every batch prepares and `iter_steps` is not zero. The optimiser sees the prepared batches cycled once per epoch. Losses are recorded every `abs(iter_steps)` steps. The trace has `max(epochs, 0) * |batches|` steps, and the history has that count divided by `abs(iter_steps)` losses. Otherwise it fails with the first failing batch's error, or with ZeroIterSteps after a first step that succeeded. |
| Training.Descend | esntorch/core/esn.py:254-306 | The epoch loop for any per-batch step: the step trace is the cycle of the prepared batches, with the same loss recording and failure cases. |
| Training.RunEpoch | esntorch/core/esn.py:261-306 | One epoch appends the prepared batches to the trace and records a loss exactly when the step count is divisible by `abs(iter_steps)`. |
| Training.Fit | esntorch/core/esn.py:334-345 | The four closed-form classes get the closed-form trainer's outcome: success iff there is a batch and every batch prepares, the stacked design, or the first failing batch's error or EmptyConcat. Every other class gets the gradient trainer's outcome: its success condition, the cycled step trace, the sampled loss history, and its ZeroIterSteps or first-failure errors. |
| Predictions.ArgMax | esntorch/core/esn.py:386 | The result is the lowest index holding the maximal score. |
| Predictions.FirstMaxUnique | esntorch/core/esn.py:386 | That lowest maximal index is unique, so it is exactly ArgMax. |
| Predictions.ArgMaxTieExample | esntorch/core/esn.py:390 | Ties go to the lowest class: `[0.5, 0.5, 0.2]` predicts class 0. |
| Predictions.MeanArgMax | esntorch/core/esn.py:385-386 | Averaging a span does not change its prediction: the argmax of the mean equals the argmax of the column sums. |
| Predictions.TruncateToInt | esntorch/core/esn.py:393 | The cast to int64 truncates toward zero on both signs. |
| Predictions.TruncateWhole | esntorch/core/esn.py:390-393 | Whole class ids of magnitude at most 2^24 (those float32 holds exactly) survive the float round trip unchanged. |
| Predictions.Span | esntorch/core/esn.py:385 | A clamped slice of a rectangular score matrix is rectangular. |
| Predictions.TokenPredictions | esntorch/core/esn.py:383-386 | One prediction per sequence: the first maximum of the mean of its own span. |
| Predictions.RowPredictions | esntorch/core/esn.py:389-390 | One prediction per pooled row: the row's first maximum. |
| Predictions.CastClassIds | esntorch/core/esn.py:391-393 | One prediction per class id, each truncated toward zero: the prediction is the integer at most one step from the id, on the zero side of it. Whole ids of magnitude at most 2^24 are therefore unchanged. |
| Predictions.ComputePredictions | esntorch/core/esn.py:375-395 | Without pooling: no sequence raises first (EmptyConcat), then a one-dimensional output (NotAMatrix), then zero classes (EmptyArgmax), then an empty span (UndefinedMean), each error stated for exactly its case; success iff the outputs form a rectangular, non-empty-width score matrix, there is a sequence, and no span is empty. Each sequence's prediction is the first maximum of its span's mean. With pooling: scores give the per-row first maximum, and 1-D outputs give one class id each, truncated toward zero. |
| Predictions.ExactSpan | esntorch/core/esn.py:384-385 | With enough token rows, sequence i's span is unclamped and holds exactly `lengths[i]` rows. |
| Predictions.ExactSpansNonEmpty | esntorch/core/esn.py:384-385 | With positive lengths and enough token rows, no span is empty. |
| Evaluation.PredictBatch | esntorch/core/esn.py:421-445 | A batch is predicted iff it can be read, its states merge, and its raw outputs yield predictions. The predictions are then those computed from the readout's outputs on the merged rows, and the labels are the batch's own, never duplicated. The errors come in source order: reading, then merging (UnboundFeatures for every readable attribute-style batch), then computing the predictions. |
| Evaluation.PredictAligned | esntorch/core/esn.py:421-445 | A predicted batch has exactly one prediction per label when it has one label per sequence and, with pooling, the reduction keeps one row per sequence and the readout gives one output per row. |
| Evaluation.SharedReading | esntorch/core/esn.py:421-445 | Training and prediction read a batch alike. An unreadable batch fails both with the same error. For a batch that trains, prediction scores the very rows training fitted on, and compares against the labels training used (before duplication when per-token). |
| Evaluation.CountEqual | esntorch/core/esn.py:451 | At most one match per label, and all labels match iff the predictions equal the labels. |
| Evaluation.Matches | esntorch/core/esn.py:451 | The comparison is defined iff the sizes are equal or either side has size 1. For equal sizes it is the position-wise count. Unless the labels have size 1, the count is at most the number of labels. |
| Evaluation.BroadcastOvercount | esntorch/core/esn.py:451 | A size-1 label broadcasts: predictions `[7,7,7]` against label `[7]` count 3 matches for 1 label. |
| Evaluation.Count | esntorch/core/esn.py:448-455 | Every batch adds its label count to the total, whether or not the comparison raises. It adds its broadcast match count to `correct` when the comparison succeeds, and nothing otherwise. Testing mode turns on iff a comparison succeeded. |
| Evaluation.AccumulateSnoc | esntorch/core/esn.py:419-455 | The counters after one more batch are that batch's update of the previous counters. |
| Evaluation.TestingIffCompared | esntorch/core/esn.py:417-452 | Accuracy mode is on iff some batch's predictions and labels could be compared. |
| Evaluation.TotalCountsAllLabels | esntorch/core/esn.py:450 | The total is the sum of all batches' label counts. |
| Evaluation.CorrectCountsAllMatches | esntorch/core/esn.py:451 | The correct count is the sum of every batch's match count, where a batch whose comparison raises adds none. |
| Evaluation.CorrectAtMostTotal | esntorch/core/esn.py:450-452 | With aligned batches, correct never exceeds total, and testing mode is on iff there was a batch. |
| Evaluation.AllCorrect | esntorch/core/esn.py:451 | When predictions equal labels throughout, correct equals total. |
| Evaluation.Accuracy | esntorch/core/esn.py:457 | None when not testing. ZeroTotal when testing with no labels. Otherwise the value times the total is 100 times the correct count. |
| Evaluation.AlignedAccuracy | esntorch/core/esn.py:457 | With aligned batches and some labels, the accuracy is defined and lies between 0 and 100. |
| Evaluation.AlignedRunAccuracy | esntorch/core/esn.py:414-457 | On a successful run whose batches are all aligned in that sense and which sees some labels, the accuracy is defined and lies between 0 and 100. |
| Evaluation.PerfectAccuracy | esntorch/core/esn.py:457 | Predictions equal to their labels score exactly 100. |
| Evaluation.AccuracyOverHundred | esntorch/core/esn.py:449-457 | Without per-batch alignment the accuracy is no percentage: three predictions of class 7 against one label 7 give an accuracy of 300. |
| Evaluation.Predict | esntorch/core/esn.py:414-463 | Success iff there is a batch, every batch predicts, and the accuracy is computable. Then the predictions are all batches' predictions in order, and the accuracy is that of the accumulated counters. Otherwise it fails with the first failing batch's error, with ZeroTotal, or with EmptyConcat for zero batches. On a run whose batches are all aligned, a reported accuracy lies between 0 and 100. |
| Evaluation.Sweep | esntorch/core/esn.py:419-455 | The loop's collected predictions and counters are those of the per-batch results, in order. The first failing batch's error ends the loop. |

## Left out

- Construction of the network (`__init__`), the reservoir layer's dynamics and `warm_up`: the layer is an opaque `encode` function.
- The merging strategies' reductions (mean, last, and so on) and the attachment of additional features inside them: the reduction is an opaque `reduce` function. `Batches.RowsPerUnit` states the row count it is assumed to keep where that matters.
- `mat.duplicate_labels` internals: its code is not part of this model. It is modelled by what its call site relies on, namely label i repeated `lengths[i]` times.
- Batches.PrepareLabels: assumes `mat.duplicate_labels` raises when given a `None` label (reported as `NullLabels`) or a number of labels that differs from the number of sequences (reported as `ShapeMismatch`); its code is not part of this model.
- Learning algorithms, loss criteria, one-hot encoding, the backward pass and the optimiser update. The readout forward pass and the loss are opaque functions and cannot raise in this model.
- Device placement, `tqdm` progress bars, `print` and the `verbose` flag: they have no effect on results.
- Side effects that happen before an exception, such as a partially trained readout or printed losses: a failed run is modelled only by its error.
- Training.FitDirect: does not check that every batch's merged rows have the same width. `torch.cat` along dimension 0 raises for mixed widths, and the model concatenates them anyway.
- Training.FitGradient: the gradient path's cast of the labels to int64 is the identity, because labels are modelled as integers. Float labels and zero-dimensional label tensors are not modelled.
- Training.FitGradient: each epoch re-iterates the data loader, and the model assumes the loader replays the same batches in the same order every epoch. With a shuffling loader the step trace is not `Cycle(...)` and step t need not see batch `t mod |batches|`.
- Predictions.CastClassIds: `.float()` rounds to float32 before the int64 cast, and the model casts exact reals. Whole ids above 2^24 in magnitude may change in the source (16777217 becomes 16777216), and values within float32 rounding of a whole number cast to it in the source (2.99999999 becomes 3) but truncate in the model.
- Predictions.TruncateWhole: holds for every integer in the model; in the source only ids of magnitude at most 2^24 survive the float32 round trip.
- Predictions.ComputePredictions: an empty span gives a NaN mean in PyTorch, and argmax then returns some class. The model reports `UndefinedMean` instead of predicting a class.
- Evaluation.Accuracy: the source rounds `100 * correct / float(total)` to the nearest double, and the model keeps the exact quotient. So "the value times the total is 100 times the correct count" holds only up to that rounding (for 1 correct out of 3, the double times 3 is 100 + 2^-47). The bounds 0 and 100 and the exact 100 of `Evaluation.PerfectAccuracy` survive the rounding, since 0 and 100 are doubles and rounding is monotone.
- Evaluation.Predict: zero-dimensional label tensors are not modelled (labels are a sequence of integers). Such labels pass `.to` and `.type` but raise at `labels.size(0)` inside the `try`, which absorbs the exception before `total` changes.
- Evaluation.Predict: the per-batch reshape of predictions and the final conversion to a NumPy array are identities on one-dimensional results, so they are not modelled separately.
- Readout subclasses are represented by a tag (`ReadoutKind`), which is all that dispatch inspects.
