/**
 * The Echo State Network as the orchestration layer sees it: a layer that
 * encodes token batches into forward and reversed states, a merging
 * strategy, a readout, and the bidirectional flag; and the per-batch work
 * shared by both trainers and by prediction (reading the batch, encoding,
 * duplicating labels, pooling).
 */
module Batches {
  import opened Outcomes
  import opened Tensors
  import opened Pooling
  import opened Predictions

  /**
   * The label field of a batch: the key (mapping style) or attribute
   * (attribute style) is absent, its value is `None`, or it holds one
   * integer label per text.
   */
  datatype LabelField = NoLabelField | NullLabel | LabelTensor(ids: seq<int>)

  /** The `additional_fts` field of a mapping-style batch: absent, `None`, or a matrix. */
  datatype FeatureField = NoFeatureField | NullFeature | FeatureTensor(m: Matrix)

  datatype Batch = Batch(text: Texts, labels: LabelField, features: FeatureField)

  /** What `layer.forward` and `layer.reverse_forward` give for one batch. */
  datatype Encoding = Encoding(states: States, lengths: seq<nat>, reversed: States)

  /**
   * The reservoir layer. `keyed` is `callable(layer.embedding)`: the layer
   * takes mapping-style (HuggingFace) batches; otherwise it takes
   * attribute-style (TorchText) batches.
   */
  datatype Layer = Layer(keyed: bool, encode: Texts -> Encoding)

  /** The learning algorithm's class, as far as training dispatch looks at it. */
  datatype ReadoutKind =
    | RidgeRegression
    | RidgeRegressionSkl
    | LogisticRegressionSkl
    | LinearSvc
    | OtherAlgorithm(name: string)

  datatype Readout = Readout(kind: ReadoutKind, forward: Matrix -> RawOutputs)

  datatype Esn = Esn(layer: Layer, merger: Merger, readout: Readout, bidirectional: bool)

  /**
   * The local variable `additional_fts` after reading a batch: never
   * assigned (attribute style), or bound to `None` or to a matrix
   * (mapping style).
   */
  datatype FeatureBinding = Unbound | Bound(value: Option<Matrix>)

  /**
   * A batch's text, labels and additional features after reading it. A
   * `None` label can only be read on the attribute-style branch, which
   * does not call `.to` on it.
   */
  datatype Normalized = Normalized(text: Texts, labels: Option<seq<int>>, features: FeatureBinding)

  /** One batch ready for the readout: merged rows and the labels aligned with them. */
  datatype Prepared = Prepared(states: Matrix, labels: seq<int>)

  /** The merging strategy is `None`: the network keeps one row per token. */
  predicate PerToken(esn: Esn)
  {
    esn.merger.strategy.NoPooling?
  }

  /** The label field a read label value came from. */
  function LabelFieldOf(labels: Option<seq<int>>): LabelField
  {
    match labels
    case None => NullLabel
    case Some(ids) => LabelTensor(ids)
  }

  /** The features field a bound `additional_fts` value came from. */
  function FeatureFieldOf(features: Option<Matrix>): FeatureField
  {
    match features
    case None => NoFeatureField
    case Some(m) => FeatureTensor(m)
  }

  /**
   * Reading a batch (esn.py lines 194-203, 263-272, 421-430). Mapping
   * style: `batch["labels"]` must exist and have `.to`, and an
   * `additional_fts` entry, when present, must have `.to` too. Attribute
   * style: `batch.label` must exist, may be `None`, and `additional_fts`
   * stays unassigned.
   */
  function Normalize(esn: Esn, batch: Batch): (r: Result<Normalized>)
    ensures r.Success? <==>
              !batch.labels.NoLabelField?
              && (esn.layer.keyed ==> batch.labels.LabelTensor? && !batch.features.NullFeature?)
    // reading loses nothing it reads: the label field, and on the mapping-style branch the
    // features field, can be put back together from what was read
    ensures r.Success? ==> r.value.text == batch.text && LabelFieldOf(r.value.labels) == batch.labels
    ensures r.Success? ==> (r.value.features.Bound? <==> esn.layer.keyed)
    ensures r.Success? && esn.layer.keyed ==> FeatureFieldOf(r.value.features.value) == batch.features
    // a batch that cannot be read lacks its labels, or holds `None` where `.to` is called
    ensures r.Failure? ==>
              (r.error == MissingLabels <==> batch.labels.NoLabelField?)
              && (r.error == NullLabels <==> esn.layer.keyed && batch.labels.NullLabel?)
              && (r.error == NullFeatures <==> esn.layer.keyed && batch.labels.LabelTensor?)
  {
    if batch.labels.NoLabelField? then Failure(MissingLabels)
    else if !esn.layer.keyed then
      Success(Normalized(batch.text, if batch.labels.LabelTensor? then Some(batch.labels.ids) else None, Unbound))
    else if batch.labels.NullLabel? then Failure(NullLabels)
    else
      match batch.features
      case NoFeatureField => Success(Normalized(batch.text, Some(batch.labels.ids), Bound(None)))
      case NullFeature => Failure(NullFeatures)
      case FeatureTensor(m) => Success(Normalized(batch.text, Some(batch.labels.ids), Bound(Some(m))))
  }

  /**
   * Encoding a read batch and merging its states (the forward pass and the
   * call of `_apply_pooling_strategy`, whose argument `additional_fts`
   * raises when it was never assigned).
   */
  function EncodeAndPool(esn: Esn, n: Normalized): (r: Result<Merged>)
    // the only error of the attribute-style branch, and never an error of the merge itself
    ensures r == Failure(UnboundFeatures) <==> n.features.Unbound?
    // every reduction sees this batch's tokens and the layer's lengths for them, and only the
    // features the batch bound
    ensures r.Success? ==>
              n.features.Bound?
              && forall c :: c in r.value.calls ==>
                   c.texts == n.text && c.lengths == esn.layer.encode(n.text).lengths
                   && (c.features.Some? ==> n.features.value == c.features)
  {
    match n.features
    case Unbound => Failure(UnboundFeatures)
    case Bound(features) =>
      var enc := esn.layer.encode(n.text);
      ApplyPooling(esn.merger, esn.bidirectional, enc.states, enc.lengths, n.text, enc.reversed, features)
  }

  /**
   * The labels a trainer fits on (esn.py lines 213-217 and 282-285): the
   * gradient trainer first casts them to int64, and without pooling they
   * are duplicated over the token rows. Casting or duplicating a `None`
   * label raises, and so does duplicating a label count that differs from
   * the number of sequences.
   */
  function PrepareLabels(esn: Esn, labels: Option<seq<int>>, lengths: seq<nat>, castLabels: bool)
    : (r: Result<Option<seq<int>>>)
    ensures r.Success? <==>
              (labels.None? ==> !castLabels && !PerToken(esn))
              && (labels.Some? && PerToken(esn) ==> |labels.value| == |lengths|)
    ensures r.Success? ==> (r.value.Some? <==> labels.Some?)
    ensures r.Success? && labels.Some? && !PerToken(esn) ==> r.value.value == labels.value
    ensures r.Success? && labels.Some? && PerToken(esn) ==> r.value.value == DuplicateLabels(labels.value, lengths)
    ensures r.Failure? ==> (r.error == NullLabels <==> labels.None?) && (r.error == ShapeMismatch <==> labels.Some?)
  {
    if labels.None? && (castLabels || PerToken(esn)) then Failure(NullLabels)
    else if labels.None? || !PerToken(esn) then Success(labels)
    else if |labels.value| != |lengths| then Failure(ShapeMismatch)
    else Success(Some(DuplicateLabels(labels.value, lengths)))
  }

  /**
   * The per-batch body shared by both trainers (esn.py lines 194-221 and
   * 263-289): read the batch, encode it, prepare the labels (the gradient
   * trainer, `castLabels`, casts them to int64 first, which is the
   * identity on integer labels), and merge the states.
   */
  function PrepareBatch(esn: Esn, batch: Batch, castLabels: bool): (r: Result<Prepared>)
    // a batch is prepared exactly when it is a readable mapping-style batch, its labels can
    // be spread over its tokens, and its states can be merged
    ensures r.Success? <==>
              esn.layer.keyed && Normalize(esn, batch).Success?
              && (PerToken(esn) ==> |batch.labels.ids| == |esn.layer.encode(batch.text).lengths|)
              && EncodeAndPool(esn, Normalize(esn, batch).value).Success?
    ensures r.Success? ==>
              r.value.states == EncodeAndPool(esn, Normalize(esn, batch).value).value.rows
    // pooled: the labels are the batch's own labels
    ensures r.Success? && !PerToken(esn) ==> r.value.labels == batch.labels.ids
    // per token: label i is repeated over exactly sequence i's token rows
    ensures r.Success? && PerToken(esn) ==>
              r.value.labels == DuplicateLabels(batch.labels.ids, esn.layer.encode(batch.text).lengths)
    // the errors come in source order: reading, then the labels, then the pooling call,
    // which on the attribute-style branch raises for the unassigned features
    ensures Normalize(esn, batch).Failure? ==> r == Failure(Normalize(esn, batch).error)
    ensures (Normalize(esn, batch).Success?
             && PrepareLabels(esn, Normalize(esn, batch).value.labels,
                              esn.layer.encode(batch.text).lengths, castLabels).Failure?) ==>
              r == Failure(PrepareLabels(esn, Normalize(esn, batch).value.labels,
                                         esn.layer.encode(batch.text).lengths, castLabels).error)
    ensures (Normalize(esn, batch).Success?
             && PrepareLabels(esn, Normalize(esn, batch).value.labels,
                              esn.layer.encode(batch.text).lengths, castLabels).Success?
             && EncodeAndPool(esn, Normalize(esn, batch).value).Failure?) ==>
              r == Failure(EncodeAndPool(esn, Normalize(esn, batch).value).error)
    ensures (!esn.layer.keyed && Normalize(esn, batch).Success?
             && PrepareLabels(esn, Normalize(esn, batch).value.labels,
                              esn.layer.encode(batch.text).lengths, castLabels).Success?) ==>
              r == Failure(UnboundFeatures)
  {
    var n :- Normalize(esn, batch);
    var lengths := esn.layer.encode(n.text).lengths;
    var labels :- PrepareLabels(esn, n.labels, lengths, castLabels);
    var merged :- EncodeAndPool(esn, n);
    match labels
    case Some(ids) => Success(Prepared(merged.rows, ids))
    // not reached: only an attribute-style batch reads a `None` label, and its pooling call raised
    case None => Failure(NullLabels)
  }

  /**
   * On the attribute-style branch every batch fails, but with the first
   * exception the source meets: a missing label attribute, then the
   * gradient trainer's cast of a `None` label, then the duplication of a
   * label count that does not match the sequences, and only then the
   * unassigned additional features.
   */
  lemma AttributeStyleErrors(encode: Texts -> Encoding, m: Merger, readout: Readout, t: Texts)
    requires |encode(t).lengths| == 2
    ensures PrepareBatch(Esn(Layer(false, encode), m, readout, false), Batch(t, NoLabelField, NoFeatureField), true)
            == Failure(MissingLabels)
    ensures PrepareBatch(Esn(Layer(false, encode), m, readout, false), Batch(t, NullLabel, NoFeatureField), true)
            == Failure(NullLabels)
    ensures m.strategy.NoPooling? ==>
              PrepareBatch(Esn(Layer(false, encode), m, readout, false), Batch(t, LabelTensor([1]), NoFeatureField), false)
              == Failure(ShapeMismatch)
    ensures m.strategy.Pooled? ==>
              PrepareBatch(Esn(Layer(false, encode), m, readout, false), Batch(t, NullLabel, NoFeatureField), false)
              == Failure(UnboundFeatures)
  {
  }

  /**
   * The merging strategy keeps one row per token (no pooling) or one row
   * per sequence (pooling), for every call.
   */
  ghost predicate RowsPerUnit(m: Merger)
  {
    if m.strategy.NoPooling? then forall c :: |m.reduce(c)| == Sum(c.lengths)
    else forall c :: |m.reduce(c)| == |c.lengths|
  }

  /**
   * Row/label alignment: when the merging strategy keeps one row per
   * token or per sequence, and a pooled batch has one label per
   * sequence, a prepared batch has exactly as many merged rows as labels.
   */
  lemma PreparedAligned(esn: Esn, batch: Batch, castLabels: bool)
    requires RowsPerUnit(esn.merger)
    requires PrepareBatch(esn, batch, castLabels).Success?
    requires !PerToken(esn) ==> |batch.labels.ids| == |esn.layer.encode(batch.text).lengths|
    ensures |PrepareBatch(esn, batch, castLabels).value.states| == |PrepareBatch(esn, batch, castLabels).value.labels|
  {
    var n := Normalize(esn, batch).value;
    var merged := EncodeAndPool(esn, n).value;
    var enc := esn.layer.encode(n.text);
    if esn.bidirectional && !PerToken(esn) {
      var f := esn.merger.reduce(merged.calls[0]);
      assert |f| == |enc.lengths|;
    } else {
      assert |merged.rows| == |esn.merger.reduce(merged.calls[0])|;
    }
  }
}
