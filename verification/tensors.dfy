/**
 * Tensors as nested sequences. A batch of recurrent states is
 * sequence-in-batch × time step × feature (`States`); a merged state is
 * row × feature (`Matrix`). Feature values are reals: the orchestration
 * layer only moves them around, and the one arithmetic step it does (the
 * mean of readout scores) is exact over `real`.
 */
module Tensors {

  type Row = seq<real>
  type Matrix = seq<Row>
  type States = seq<Matrix>

  /** Padded token ids of one batch, one inner sequence per text. */
  type Texts = seq<seq<int>>

  function Min(a: nat, b: nat): nat
  {
    if a <= b then a else b
  }

  /** Sum of a sequence of lengths, peeled from the end. */
  function Sum(s: seq<nat>): nat
  {
    if |s| == 0 then 0 else Sum(s[..|s| - 1]) + s[|s| - 1]
  }

  lemma SumPrefixStep(s: seq<nat>)
    ensures forall i :: 0 <= i < |s| ==> Sum(s[..i + 1]) == Sum(s[..i]) + s[i]
  {
    forall i | 0 <= i < |s|
      ensures Sum(s[..i + 1]) == Sum(s[..i]) + s[i]
    {
      assert s[..i + 1][..i] == s[..i];
    }
  }

  function Reverse<T>(s: seq<T>): (r: seq<T>)
    ensures |r| == |s|
    ensures forall j :: 0 <= j < |s| ==> r[j] == s[|s| - 1 - j]
  {
    if |s| == 0 then [] else Reverse(s[1..]) + [s[0]]
  }

  /**
   * `torch.flip(m[:l], [0])` written back over `m[:l]`: the first `l` time
   * steps in reverse order, the later (padding) steps untouched. A slice
   * bound past the end is clamped, as in Python.
   */
  function FlipPrefix(m: Matrix, l: nat): (r: Matrix)
    ensures |r| == |m|
    ensures forall k :: 0 <= k < Min(l, |m|) ==> r[k] == m[Min(l, |m|) - 1 - k]
    ensures forall k :: Min(l, |m|) <= k < |m| ==> r[k] == m[k]
  {
    var n := Min(l, |m|);
    Reverse(m[..n]) + m[n..]
  }

  /**
   * The clone of the reversed-direction states with, for each sequence i
   * that has a length, its first `lengths[i]` time steps put back in
   * forward order. The argument itself is a value and is never changed.
   */
  function Restore(reversed: States, lengths: seq<nat>): (r: States)
    requires |lengths| <= |reversed|
    ensures |r| == |reversed|
    ensures forall i :: 0 <= i < |reversed| ==> |r[i]| == |reversed[i]|
    ensures forall i, k :: 0 <= i < |lengths| && 0 <= k < Min(lengths[i], |reversed[i]|) ==>
              r[i][k] == reversed[i][Min(lengths[i], |reversed[i]|) - 1 - k]
    ensures forall i, k :: 0 <= i < |lengths| && Min(lengths[i], |reversed[i]|) <= k < |reversed[i]| ==>
              r[i][k] == reversed[i][k]
    ensures forall i :: |lengths| <= i < |reversed| ==> r[i] == reversed[i]
  {
    seq(|reversed|, i requires 0 <= i < |reversed| =>
      if i < |lengths| then FlipPrefix(reversed[i], lengths[i]) else reversed[i])
  }

  /** Restoring twice gives back the original states: the realignment loses nothing. */
  lemma RestoreInvolutive(reversed: States, lengths: seq<nat>)
    requires |lengths| <= |reversed|
    ensures Restore(Restore(reversed, lengths), lengths) == reversed
  {
    var once := Restore(reversed, lengths);
    var twice := Restore(once, lengths);
    forall i | 0 <= i < |reversed|
      ensures twice[i] == reversed[i]
    {
      if i < |lengths| {
        var n := Min(lengths[i], |reversed[i]|);
        forall k | 0 <= k < |reversed[i]|
          ensures twice[i][k] == reversed[i][k]
        {
          if k < n {
            assert twice[i][k] == once[i][n - 1 - k];
          }
        }
      }
    }
  }

  /** `torch.cat([a, b], dim=1)`: each row of `a` followed by the same row of `b`. */
  function CatFeatures(a: Matrix, b: Matrix): (r: Matrix)
    requires |a| == |b|
    ensures |r| == |a|
    ensures forall i :: 0 <= i < |a| ==> |r[i]| == |a[i]| + |b[i]|
    ensures forall i :: 0 <= i < |a| ==> r[i][..|a[i]|] == a[i] && r[i][|a[i]|..] == b[i]
  {
    seq(|a|, i requires 0 <= i < |a| => a[i] + b[i])
  }

  /** Same batch size and the same number of time steps per sequence. */
  predicate SameTimeShape(s: States, t: States)
  {
    |s| == |t| && forall i :: 0 <= i < |s| ==> |s[i]| == |t[i]|
  }

  /** `torch.cat([s, t], dim=2)`: at every (sequence, time step), the row of `s` then the row of `t`. */
  function CatStates(s: States, t: States): (r: States)
    requires SameTimeShape(s, t)
    ensures SameTimeShape(r, s)
    ensures forall i, k :: 0 <= i < |s| && 0 <= k < |s[i]| ==>
              |r[i][k]| == |s[i][k]| + |t[i][k]|
              && r[i][k][..|s[i][k]|] == s[i][k] && r[i][k][|s[i][k]|..] == t[i][k]
  {
    seq(|s|, i requires 0 <= i < |s| => CatFeatures(s[i], t[i]))
  }

  /** `torch.cat(parts, dim=0)` on a list of row blocks, in list order. */
  function Flatten<T>(parts: seq<seq<T>>): seq<T>
  {
    if |parts| == 0 then [] else Flatten(parts[..|parts| - 1]) + parts[|parts| - 1]
  }

  function Sizes<T>(parts: seq<seq<T>>): (s: seq<nat>)
    ensures |s| == |parts|
    ensures forall i :: 0 <= i < |parts| ==> s[i] == |parts[i]|
  {
    seq(|parts|, i requires 0 <= i < |parts| => |parts[i]|)
  }

  /**
   * The cumulative offsets `[0] + [sum(lengths[:i]) for i in 1..n]`: the
   * first token row of each sequence, followed by the total.
   */
  function Offsets(lengths: seq<nat>): (off: seq<nat>)
    ensures |off| == |lengths| + 1
    ensures off[0] == 0
    ensures forall i :: 0 <= i < |lengths| ==> off[i + 1] == off[i] + lengths[i]
    ensures off[|lengths|] == Sum(lengths)
  {
    SumPrefixStep(lengths);
    assert lengths[..|lengths|] == lengths;
    [0] + seq(|lengths|, i requires 0 <= i < |lengths| => Sum(lengths[..i + 1]))
  }

  lemma {:induction false} OffsetsMonotone(lengths: seq<nat>, i: nat, j: nat)
    requires i <= j <= |lengths|
    ensures Offsets(lengths)[i] <= Offsets(lengths)[j]
    decreases j - i
  {
    if i < j {
      OffsetsMonotone(lengths, i, j - 1);
    }
  }

  /** Offsets are nondecreasing and never pass the total. */
  lemma OffsetsBounded(lengths: seq<nat>)
    ensures forall i, j :: 0 <= i <= j <= |lengths| ==> Offsets(lengths)[i] <= Offsets(lengths)[j]
    ensures forall i :: 0 <= i <= |lengths| ==> Offsets(lengths)[i] <= Sum(lengths)
  {
    forall i, j | 0 <= i <= j <= |lengths|
      ensures Offsets(lengths)[i] <= Offsets(lengths)[j]
    {
      OffsetsMonotone(lengths, i, j);
    }
  }

  /** The offsets of a prefix are a prefix of the offsets. */
  lemma OffsetsPrefix(lengths: seq<nat>, m: nat)
    requires m <= |lengths|
    ensures Offsets(lengths[..m]) == Offsets(lengths)[..m + 1]
  {
    var a := Offsets(lengths[..m]);
    var b := Offsets(lengths)[..m + 1];
    forall i | 0 <= i < m + 1
      ensures a[i] == b[i]
    {
      if 0 < i {
        assert lengths[..m][..i] == lengths[..i];
      }
    }
  }

  /** Every token row below the total lies in some span `[off[i], off[i+1])`. */
  lemma {:induction false} OffsetsCover(lengths: seq<nat>, t: nat) returns (i: nat)
    requires t < Sum(lengths)
    ensures i < |lengths| && Offsets(lengths)[i] <= t < Offsets(lengths)[i + 1]
  {
    var off := Offsets(lengths);
    var n := |lengths|;
    if t < off[n - 1] {
      var init := lengths[..n - 1];
      OffsetsPrefix(lengths, n - 1);
      i := OffsetsCover(init, t);
    } else {
      i := n - 1;
    }
  }

  /** No token row lies in two different spans. */
  lemma OffsetsDisjoint(lengths: seq<nat>, t: nat, i: nat, j: nat)
    requires i < |lengths| && j < |lengths|
    requires Offsets(lengths)[i] <= t < Offsets(lengths)[i + 1]
    requires Offsets(lengths)[j] <= t < Offsets(lengths)[j + 1]
    ensures i == j
  {
    if i < j {
      OffsetsMonotone(lengths, i + 1, j);
    } else if j < i {
      OffsetsMonotone(lengths, j + 1, i);
    }
  }

  lemma {:induction false} FlattenLength<T>(parts: seq<seq<T>>)
    ensures |Flatten(parts)| == Sum(Sizes(parts))
  {
    if |parts| > 0 {
      var init := parts[..|parts| - 1];
      FlattenLength(init);
      assert Sizes(init) == Sizes(parts)[..|parts| - 1];
    }
  }

  /**
   * Block i of a row-wise concatenation sits exactly at the offsets of the
   * block sizes: `cat(parts)[off[i]:off[i+1]] == parts[i]`.
   */
  lemma FlattenSpan<T>(parts: seq<seq<T>>, i: nat)
    requires i < |parts|
    ensures Offsets(Sizes(parts))[i + 1] <= |Flatten(parts)|
    ensures Flatten(parts)[Offsets(Sizes(parts))[i]..Offsets(Sizes(parts))[i + 1]] == parts[i]
  {
    var off := Offsets(Sizes(parts));
    assert forall k :: 0 <= k < |parts| ==> off[k + 1] == off[k] + |parts[k]|;
    FlattenSpanAt(parts, off, i);
  }

  /**
   * The same for any sequence `off` that starts at 0 and grows by each
   * block's size in turn.
   */
  lemma {:induction false} FlattenSpanAt<T>(parts: seq<seq<T>>, off: seq<nat>, i: nat)
    requires |off| == |parts| + 1 && off[0] == 0
    requires forall k :: 0 <= k < |parts| ==> off[k + 1] == off[k] + |parts[k]|
    requires i < |parts|
    ensures off[|parts|] == |Flatten(parts)|
    ensures off[i + 1] <= |Flatten(parts)|
    ensures Flatten(parts)[off[i]..off[i + 1]] == parts[i]
  {
    var n := |parts|;
    var init := parts[..n - 1];
    var front := Flatten(init);
    assert Flatten(parts) == front + parts[n - 1];
    if n > 1 {
      FlattenSpanAt(init, off[..n], if i < n - 1 then i else n - 2);
      assert off[n - 1] == |front|;
    }
    if i < n - 1 {
      SliceLeft(front, parts[n - 1], off[i], off[i + 1]);
    } else {
      SliceRight(front, parts[n - 1]);
    }
  }

  lemma SliceLeft<T>(x: seq<T>, y: seq<T>, a: nat, b: nat)
    requires a <= b <= |x|
    ensures (x + y)[a..b] == x[a..b]
  {
  }

  lemma SliceRight<T>(x: seq<T>, y: seq<T>)
    ensures (x + y)[|x|..|x| + |y|] == y
  {
  }

  function Replicate<T>(x: T, n: nat): (r: seq<T>)
    ensures |r| == n
    ensures forall k :: 0 <= k < n ==> r[k] == x
  {
    seq(n, _ => x)
  }

  /** Sequence i's label repeated once per token of sequence i. */
  function LabelBlocks(labels: seq<int>, lengths: seq<nat>): (blocks: seq<seq<int>>)
    requires |labels| == |lengths|
    ensures Sizes(blocks) == lengths
    ensures forall i :: 0 <= i < |blocks| ==> blocks[i] == Replicate(labels[i], lengths[i])
  {
    seq(|labels|, i requires 0 <= i < |labels| => Replicate(labels[i], lengths[i]))
  }

  lemma {:induction false} LabelBlockSpan(labels: seq<int>, lengths: seq<nat>, i: nat)
    requires |labels| == |lengths| && i < |lengths|
    ensures Offsets(lengths)[i + 1] <= |Flatten(LabelBlocks(labels, lengths))|
    ensures Flatten(LabelBlocks(labels, lengths))[Offsets(lengths)[i]..Offsets(lengths)[i + 1]]
            == Replicate(labels[i], lengths[i])
  {
    var blocks := LabelBlocks(labels, lengths);
    assert Sizes(blocks) == lengths;
    FlattenSpan(blocks, i);
  }

  /**
   * Label duplication for per-token training: `lengths[i]` copies of
   * `labels[i]` for each sequence i, in order (`DuplicateLabelsSpan`
   * places them).
   */
  function DuplicateLabels(labels: seq<int>, lengths: seq<nat>): (r: seq<int>)
    requires |labels| == |lengths|
    ensures |r| == Sum(lengths)
  {
    FlattenLength(LabelBlocks(labels, lengths));
    Flatten(LabelBlocks(labels, lengths))
  }

  /** The copies of `labels[i]` occupy exactly sequence i's span of token rows. */
  lemma DuplicateLabelsSpan(labels: seq<int>, lengths: seq<nat>, i: nat)
    requires |labels| == |lengths| && i < |lengths|
    ensures Offsets(lengths)[i + 1] <= |DuplicateLabels(labels, lengths)|
    ensures DuplicateLabels(labels, lengths)[Offsets(lengths)[i]..Offsets(lengths)[i + 1]]
            == Replicate(labels[i], lengths[i])
  {
    LabelBlockSpan(labels, lengths, i);
  }

  /** Every token row of sequence i carries label i, so row t's label is its sequence's label. */
  lemma {:induction false} DuplicateLabelsAt(labels: seq<int>, lengths: seq<nat>, i: nat, t: nat)
    requires |labels| == |lengths| && i < |lengths|
    requires Offsets(lengths)[i] <= t < Offsets(lengths)[i + 1]
    ensures t < |DuplicateLabels(labels, lengths)|
    ensures DuplicateLabels(labels, lengths)[t] == labels[i]
  {
    DuplicateLabelsSpan(labels, lengths, i);
    var r := DuplicateLabels(labels, lengths);
    var off := Offsets(lengths);
    assert r[off[i]..off[i + 1]][t - off[i]] == labels[i];
  }

  /** Two sequences of lengths 2 and 3 give five token rows labelled `[a, a, b, b, b]`. */
  lemma DuplicateLabelsExample(a: int, b: int)
    ensures DuplicateLabels([a, b], [2, 3]) == [a, a, b, b, b]
  {
    var r := DuplicateLabels([a, b], [2, 3]);
    var off := Offsets([2, 3]);
    DuplicateLabelsSpan([a, b], [2, 3], 0);
    DuplicateLabelsSpan([a, b], [2, 3], 1);
    assert off[1] == 2 && off[2] == 5;
    assert r[0..2] == [a, a];
    assert r[2..5] == [b, b, b];
    assert r == r[0..2] + r[2..5];
  }
}
