/**
 * The directional combiner of the Echo State Network: how forward and
 * time-reversed reservoir states are handed to the merging strategy and
 * how the results are joined. The merging strategy's reduction itself is
 * opaque: it is the `reduce` field of `Merger`, and every call made to it
 * is recorded in the result so that the routing of the additional
 * features can be stated.
 */
module Pooling {
  import opened Outcomes
  import opened Tensors

  /** `None` (no pooling: one row per token) or a named reduction such as mean or last. */
  datatype Strategy = NoPooling | Pooled(name: string)

  /** The arguments of one call `merging_strategy(states, lengths, texts[, additional_fts])`. */
  datatype MergeCall = MergeCall(states: States, lengths: seq<nat>, texts: Texts, features: Option<Matrix>)

  datatype Merger = Merger(strategy: Strategy, reduce: MergeCall -> Matrix)

  /** The merged rows and, in call order, the calls made to the reduction. */
  datatype Merged = Merged(rows: Matrix, calls: seq<MergeCall>)

  /**
   * `_apply_pooling_strategy`. Unidirectional: one reduction over the
   * forward states, with the additional features. Bidirectional without
   * pooling: the reversed states are realigned to forward time, joined
   * feature-wise after the forward states, and reduced once WITHOUT the
   * additional features. Bidirectional with pooling: each direction is
   * reduced on its own, the features going only to the forward call, and
   * the two results are joined forward first.
   */
  function ApplyPooling(m: Merger, bidirectional: bool, states: States, lengths: seq<nat>,
                        texts: Texts, reversed: States, features: Option<Matrix>): (r: Result<Merged>)
    // the combination fails only on tensor shapes that cannot be indexed or joined
    ensures r.Failure? <==>
              bidirectional
              && (if m.strategy.NoPooling? then |lengths| > |reversed| || !SameTimeShape(states, reversed)
                  else |m.reduce(MergeCall(states, lengths, texts, features))|
                       != |m.reduce(MergeCall(reversed, lengths, texts, None))|)
    ensures r.Success? ==> |r.value.calls| == (if bidirectional && m.strategy.Pooled? then 2 else 1)
    // every call sees the batch's true lengths and tokens
    ensures r.Success? ==> forall c :: c in r.value.calls ==> c.lengths == lengths && c.texts == texts
    // the additional features reach the reduction only together with the forward states,
    // and never in the bidirectional no-pooling case
    ensures r.Success? ==> forall c :: c in r.value.calls && c.features.Some? ==>
              c.features == features && c.states == states && !(bidirectional && m.strategy.NoPooling?)
    // the first call is always the forward (or forward-based) one, the second the reversed one
    ensures r.Success? && bidirectional && m.strategy.Pooled? ==>
              r.value.calls[0] == MergeCall(states, lengths, texts, features)
              && r.value.calls[1] == MergeCall(reversed, lengths, texts, None)
    // unidirectional: the rows are exactly what the one reduction of the forward states returns
    ensures r.Success? && !bidirectional ==>
              r.value.calls == [MergeCall(states, lengths, texts, features)]
              && r.value.rows == m.reduce(MergeCall(states, lengths, texts, features))
    // pooled bidirectional rows: forward pooled features, then reversed pooled features
    ensures r.Success? && bidirectional && m.strategy.Pooled? ==>
              var f := m.reduce(r.value.calls[0]);
              var b := m.reduce(r.value.calls[1]);
              |r.value.rows| == |f| == |b|
              && forall i :: 0 <= i < |f| ==>
                   |r.value.rows[i]| == |f[i]| + |b[i]|
                   && r.value.rows[i][..|f[i]|] == f[i] && r.value.rows[i][|f[i]|..] == b[i]
    // per-token bidirectional states: at time step k < lengths[i], the forward row of step k
    // followed by the reversed-pass row that was computed for that same token
    ensures r.Success? && bidirectional && m.strategy.NoPooling? ==>
              var joined := r.value.calls[0].states;
              SameTimeShape(joined, states)
              && r.value.calls[0].features.None?
              && r.value.rows == m.reduce(r.value.calls[0])
              && (forall i, k :: 0 <= i < |lengths| && 0 <= k < Min(lengths[i], |states[i]|) ==>
                    joined[i][k] == states[i][k] + reversed[i][Min(lengths[i], |states[i]|) - 1 - k])
              && (forall i, k :: 0 <= i < |lengths| && Min(lengths[i], |states[i]|) <= k < |states[i]| ==>
                    joined[i][k] == states[i][k] + reversed[i][k])
              && (forall i, k :: |lengths| <= i < |states| && 0 <= k < |states[i]| ==>
                    joined[i][k] == states[i][k] + reversed[i][k])
  {
    if bidirectional then
      if m.strategy.NoPooling? then
        if |lengths| > |reversed| || !SameTimeShape(states, reversed) then Failure(ShapeMismatch)
        else
          var call := MergeCall(JoinDirections(states, lengths, reversed), lengths, texts, None);
          Success(Merged(m.reduce(call), [call]))
      else
        var forward := MergeCall(states, lengths, texts, features);
        var backward := MergeCall(reversed, lengths, texts, None);
        var f := m.reduce(forward);
        var b := m.reduce(backward);
        if |f| != |b| then Failure(ShapeMismatch)
        else Success(Merged(CatFeatures(f, b), [forward, backward]))
    else
      var call := MergeCall(states, lengths, texts, features);
      Success(Merged(m.reduce(call), [call]))
  }

  /**
   * Bidirectional states without pooling: the reversed pass realigned to
   * forward time (`torch.flip` of each sequence's true-length prefix)
   * and joined feature-wise after the forward states (`torch.cat` along
   * dimension 2).
   */
  function JoinDirections(states: States, lengths: seq<nat>, reversed: States): (joined: States)
    requires |lengths| <= |reversed| && SameTimeShape(states, reversed)
    ensures SameTimeShape(joined, states)
    ensures forall i, k :: 0 <= i < |lengths| && 0 <= k < Min(lengths[i], |states[i]|) ==>
              joined[i][k] == states[i][k] + reversed[i][Min(lengths[i], |states[i]|) - 1 - k]
    ensures forall i, k :: 0 <= i < |lengths| && Min(lengths[i], |states[i]|) <= k < |states[i]| ==>
              joined[i][k] == states[i][k] + reversed[i][k]
    ensures forall i, k :: |lengths| <= i < |states| && 0 <= k < |states[i]| ==>
              joined[i][k] == states[i][k] + reversed[i][k]
  {
    var restored := Restore(reversed, lengths);
    JoinedRows(states, restored);
    CatStates(states, restored)
  }

  /** Each joined row is the forward row followed by the restored row. */
  lemma JoinedRows(s: States, t: States)
    requires SameTimeShape(s, t)
    ensures forall i, k :: 0 <= i < |s| && 0 <= k < |s[i]| ==> CatStates(s, t)[i][k] == s[i][k] + t[i][k]
  {
    var r := CatStates(s, t);
    forall i, k | 0 <= i < |s| && 0 <= k < |s[i]|
      ensures r[i][k] == s[i][k] + t[i][k]
    {
      assert r[i][k] == r[i][k][..|s[i][k]|] + r[i][k][|s[i][k]|..];
    }
  }

  /**
   * When both directions come from the same layer (every state row has
   * the reservoir width `d`), a merged row is `2 * d` wide whatever the
   * strategy, provided the reduction keeps the width.
   */
  lemma {:induction false} BidirectionalWidth(m: Merger, states: States, lengths: seq<nat>, texts: Texts,
                                              reversed: States, features: Option<Matrix>, d: nat)
    requires forall i, k :: 0 <= i < |states| && 0 <= k < |states[i]| ==> |states[i][k]| == d
    requires forall i, k :: 0 <= i < |reversed| && 0 <= k < |reversed[i]| ==> |reversed[i][k]| == d
    requires m.strategy.Pooled? ==>
               (forall i :: 0 <= i < |m.reduce(MergeCall(states, lengths, texts, features))| ==>
                  |m.reduce(MergeCall(states, lengths, texts, features))[i]| == d)
               && (forall i :: 0 <= i < |m.reduce(MergeCall(reversed, lengths, texts, None))| ==>
                  |m.reduce(MergeCall(reversed, lengths, texts, None))[i]| == d)
    requires ApplyPooling(m, true, states, lengths, texts, reversed, features).Success?
    ensures m.strategy.NoPooling? ==>
              var joined := ApplyPooling(m, true, states, lengths, texts, reversed, features).value.calls[0].states;
              forall i, k :: 0 <= i < |joined| && 0 <= k < |joined[i]| ==> |joined[i][k]| == 2 * d
    ensures m.strategy.Pooled? ==>
              var rows := ApplyPooling(m, true, states, lengths, texts, reversed, features).value.rows;
              forall i :: 0 <= i < |rows| ==> |rows[i]| == 2 * d
  {
    var r := ApplyPooling(m, true, states, lengths, texts, reversed, features).value;
    if m.strategy.NoPooling? {
      var joined := r.calls[0].states;
      forall i, k | 0 <= i < |joined| && 0 <= k < |joined[i]|
        ensures |joined[i][k]| == 2 * d
      {
        if i < |lengths| && k < Min(lengths[i], |states[i]|) {
          assert |reversed[i][Min(lengths[i], |states[i]|) - 1 - k]| == d;
        }
      }
    }
  }
}
