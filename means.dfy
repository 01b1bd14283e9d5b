/**
 * The elementwise mean across folds: np.mean(np.array(per_fold_arrays), axis=0).
 * A fold's array is a batch with one row per variant; each row is that variant's
 * array flattened in row-major order, so one mean serves the predicted-signal
 * arrays and the attribution arrays alike.
 */
module FoldMeans {
  import opened Reductions

  /** One variant's array, flattened in row-major order. */
  type Row = seq<real>

  /** One fold's array: one row per variant, in variant-list order. */
  type Batch = seq<Row>

  /** Same number of rows, and the same width row by row. */
  predicate Conform(a: Batch, b: Batch)
  {
    |a| == |b| && forall i :: 0 <= i < |a| ==> |a[i]| == |b[i]|
  }

  /** Every fold's batch has the first fold's shape: numpy can stack them. */
  predicate SameShape(folds: seq<Batch>)
  {
    forall f :: 0 <= f < |folds| ==> Conform(folds[f], folds[0])
  }

  /** Element (i, k) of a stackable list of batches exists in every fold. */
  predicate InShape(folds: seq<Batch>, i: nat, k: nat)
  {
    |folds| > 0 && SameShape(folds) && i < |folds[0]| && k < |folds[0][i]|
  }

  /** Element (i, k) of every fold, in fold order. */
  function Column(folds: seq<Batch>, i: nat, k: nat): (c: seq<real>)
    requires InShape(folds, i, k)
    ensures |c| == |folds|
    ensures forall f :: 0 <= f < |folds| ==> c[f] == folds[f][i][k]
  {
    seq(|folds|, f requires 0 <= f < |folds| => assert Conform(folds[f], folds[0]); folds[f][i][k])
  }

  /** Elementwise sum of two batches of the same shape. */
  function Add(a: Batch, b: Batch): (r: Batch)
    requires Conform(a, b)
    ensures Conform(r, a)
    ensures forall i, k :: 0 <= i < |r| && 0 <= k < |r[i]| ==> r[i][k] == a[i][k] + b[i][k]
  {
    seq(|a|, i requires 0 <= i < |a| =>
      seq(|a[i]|, k requires 0 <= k < |a[i]| => a[i][k] + b[i][k]))
  }

  /** Elementwise sum over all folds, in fold order. */
  function Total(folds: seq<Batch>): (r: Batch)
    requires |folds| > 0 && SameShape(folds)
    ensures Conform(r, folds[0])
    decreases |folds|
  {
    if |folds| == 1 then folds[0]
    else
      var init := folds[..|folds| - 1];
      assert SameShape(init) by {
        forall f | 0 <= f < |init| ensures Conform(init[f], init[0]) {
          assert init[f] == folds[f] && init[0] == folds[0];
        }
      }
      var t := Total(init);
      assert Conform(folds[|folds| - 1], folds[0]);
      Add(t, folds[|folds| - 1])
  }

  /** Elementwise mean over the folds: the total divided by the number of folds. */
  function FoldMean(folds: seq<Batch>): (r: Batch)
    requires |folds| > 0 && SameShape(folds)
    ensures Conform(r, folds[0])
  {
    var t := Total(folds);
    seq(|t|, i requires 0 <= i < |t| =>
      seq(|t[i]|, k requires 0 <= k < |t[i]| => t[i][k] / (|folds| as real)))
  }

  /** Each element of the total is the sum of that element over the folds. */
  lemma {:induction false} TotalAt(folds: seq<Batch>, i: nat, k: nat)
    requires InShape(folds, i, k)
    ensures Total(folds)[i][k] == Sum(Column(folds, i, k))
    decreases |folds|
  {
    var c := Column(folds, i, k);
    if |folds| == 1 {
      assert c[..0] == [];
    } else {
      var n := |folds| - 1;
      var init := folds[..n];
      assert init[0] == folds[0];
      assert SameShape(init) by {
        forall f | 0 <= f < |init| ensures Conform(init[f], init[0]) {
          assert init[f] == folds[f];
        }
      }
      TotalAt(init, i, k);
      assert Column(init, i, k) == c[..n];
      assert Conform(folds[n], folds[0]);
    }
  }

  /** Each element of the fold mean is the sum over the folds divided by the fold count. */
  lemma FoldMeanAt(folds: seq<Batch>, i: nat, k: nat)
    requires InShape(folds, i, k)
    ensures FoldMean(folds)[i][k] == Sum(Column(folds, i, k)) / (|folds| as real)
  {
    TotalAt(folds, i, k);
  }

  /** With a single fold, the mean is that fold's array. */
  lemma FoldMeanOfOne(b: Batch)
    ensures SameShape([b]) && FoldMean([b]) == b
  {
    assert SameShape([b]);
    var m := FoldMean([b]);
    forall i | 0 <= i < |b| ensures m[i] == b[i] {
      forall k | 0 <= k < |b[i]| ensures m[i][k] == b[i][k] {
        FoldMeanAt([b], i, k);
        assert Column([b], i, k) == [b[i][k]];
        assert Column([b], i, k)[..0] == [];
      }
    }
  }

  /** When every fold holds the same array, the mean is that array. */
  lemma FoldMeanUniform(folds: seq<Batch>, b: Batch)
    requires |folds| > 0
    requires forall f :: 0 <= f < |folds| ==> folds[f] == b
    ensures SameShape(folds) && FoldMean(folds) == b
  {
    assert SameShape(folds);
    var m := FoldMean(folds);
    forall i | 0 <= i < |b| ensures m[i] == b[i] {
      forall k | 0 <= k < |b[i]| ensures m[i][k] == b[i][k] {
        FoldMeanAt(folds, i, k);
        SumUniform(Column(folds, i, k), b[i][k]);
      }
    }
  }

  /** An element of the mean lies between bounds that hold for that element in every fold. */
  lemma FoldMeanBetween(folds: seq<Batch>, i: nat, k: nat, lo: real, hi: real)
    requires InShape(folds, i, k)
    requires forall f :: 0 <= f < |folds| ==> lo <= folds[f][i][k] <= hi
    ensures lo <= FoldMean(folds)[i][k] <= hi
  {
    var n := |folds| as real;
    var c := Column(folds, i, k);
    FoldMeanAt(folds, i, k);
    SumBounds(c, lo, hi);
    QuotientBetween(Sum(c), n, lo, hi);
  }

  /** Dividing n * lo <= s <= n * hi by a positive n. */
  lemma QuotientBetween(s: real, n: real, lo: real, hi: real)
    requires n > 0.0 && n * lo <= s <= n * hi
    ensures lo <= s / n <= hi
  {
    var q := s / n;
    assert s == q * n;
  }
}
