/**
 * Fold selection and accumulation in main(): over fold_0 .. fold_4, a fold
 * contributes only when both its prediction file and its attribution file
 * exist; contributing folds are counted and their arrays appended to the
 * per-allele accumulators, whose elementwise means form the ensemble.
 */
module FoldSelection {
  import opened Wrappers
  import opened Errors
  import opened FoldMeans
  import opened AllelePartition
  import opened Reductions

  /** The fold list is fold_0 .. fold_4. */
  const FOLD_COUNT := 5

  /** A fold's prediction file, reduced to what main() derives from it: per allele,
      the predicted counts times the softmax of the predicted profile, one row per variant. */
  datatype PredFile = PredFile(signal1: Batch, signal2: Batch)

  /** A fold's attribution file: the allele label of each row (0 = ref, 1 = alt)
      and the projected attribution rows (positions x bases, flattened). */
  datatype ShapFile = ShapFile(alleles: seq<int>, seqShap: Batch)

  /** What exists on disk for one fold: None for an absent file. */
  datatype FoldFiles = FoldFiles(pred: Option<PredFile>, shap: Option<ShapFile>)

  /** Both of the fold's files exist. */
  predicate Usable(f: FoldFiles)
  {
    f.pred.Some? && f.shap.Some?
  }

  /** The usable folds, in fold order. */
  function Contributing(folds: seq<FoldFiles>): (c: seq<FoldFiles>)
    ensures |c| <= |folds|
    ensures forall j :: 0 <= j < |c| ==> Usable(c[j]) && c[j] in folds
    decreases |folds|
  {
    if |folds| == 0 then []
    else
      var n := |folds| - 1;
      Contributing(folds[..n]) + (if Usable(folds[n]) then [folds[n]] else [])
  }

  /** The indices of the usable folds. */
  function UsableFolds(folds: seq<FoldFiles>): set<nat>
  {
    set k: nat | k < |folds| && Usable(folds[k])
  }

  /** The number of contributing folds is the number of folds with both files. */
  lemma {:induction false} ContributingCount(folds: seq<FoldFiles>)
    ensures |Contributing(folds)| == |UsableFolds(folds)|
    decreases |folds|
  {
    if |folds| > 0 {
      var n := |folds| - 1;
      ContributingCount(folds[..n]);
      var before := UsableFolds(folds[..n]);
      assert n !in before;
      if Usable(folds[n]) {
        assert UsableFolds(folds) == before + {n};
      } else {
        assert UsableFolds(folds) == before;
      }
    }
  }

  /** Selection distributes over concatenation of fold lists. */
  lemma {:induction false} ContributingConcat(a: seq<FoldFiles>, b: seq<FoldFiles>)
    ensures Contributing(a + b) == Contributing(a) + Contributing(b)
    decreases |b|
  {
    if |b| == 0 {
      assert a + b == a;
    } else {
      var n := |b| - 1;
      assert (a + b)[..|a + b| - 1] == a + b[..n];
      assert (a + b)[|a + b| - 1] == b[n];
      ContributingConcat(a, b[..n]);
    }
  }

  /** A fold missing either file contributes nothing: removing it changes nothing. */
  lemma PartialFoldIgnored(folds: seq<FoldFiles>, k: nat)
    requires k < |folds| && !Usable(folds[k])
    ensures Contributing(folds) == Contributing(folds[..k] + folds[k + 1..])
  {
    var before, after := folds[..k], folds[k + 1..];
    var upTo := before + [folds[k]];
    assert folds == upTo + after;
    assert Contributing(upTo) == Contributing(before) by {
      assert upTo[..|upTo| - 1] == before;
    }
    calc {
      Contributing(folds);
      { ContributingConcat(upTo, after); }
      Contributing(upTo) + Contributing(after);
      Contributing(before) + Contributing(after);
      { ContributingConcat(before, after); }
      Contributing(before + after);
    }
  }

  /** When every fold has both files, every fold contributes, in order. */
  lemma {:induction false} AllFoldsContribute(folds: seq<FoldFiles>)
    requires forall k :: 0 <= k < |folds| ==> Usable(folds[k])
    ensures Contributing(folds) == folds
    decreases |folds|
  {
    if |folds| > 0 {
      var n := |folds| - 1;
      AllFoldsContribute(folds[..n]);
      assert folds == folds[..n] + [folds[n]];
    }
  }

  /** The allele mask of an attribution file has one label per row (numpy requires it). */
  predicate MaskFits(s: ShapFile)
  {
    |s.alleles| == |s.seqShap|
  }

  /** Every usable fold's allele mask fits its attribution rows. */
  predicate MasksFit(folds: seq<FoldFiles>)
  {
    forall k :: 0 <= k < |folds| && Usable(folds[k]) ==> MaskFits(folds[k].shap.value)
  }

  /** preds_accum['a1'], preds_accum['a2'], shap_accum['a1'], shap_accum['a2']. */
  datatype Accumulators = Accumulators(pred1: seq<Batch>, pred2: seq<Batch>, shap1: seq<Batch>, shap2: seq<Batch>)

  /** The accumulators after appending the arrays of the given folds, in order:
      the two predicted signals and the reference and alternate attribution rows. */
  function Accumulate(c: seq<FoldFiles>): (acc: Accumulators)
    requires forall j :: 0 <= j < |c| ==> Usable(c[j]) && MaskFits(c[j].shap.value)
    ensures |acc.pred1| == |acc.pred2| == |acc.shap1| == |acc.shap2| == |c|
  {
    Accumulators(
      seq(|c|, j requires 0 <= j < |c| && Usable(c[j]) && MaskFits(c[j].shap.value) => c[j].pred.value.signal1),
      seq(|c|, j requires 0 <= j < |c| && Usable(c[j]) && MaskFits(c[j].shap.value) => c[j].pred.value.signal2),
      seq(|c|, j requires 0 <= j < |c| && Usable(c[j]) && MaskFits(c[j].shap.value) =>
        SelectRows(c[j].shap.value.seqShap, c[j].shap.value.alleles, REF_LABEL)),
      seq(|c|, j requires 0 <= j < |c| && Usable(c[j]) && MaskFits(c[j].shap.value) =>
        SelectRows(c[j].shap.value.seqShap, c[j].shap.value.alleles, ALT_LABEL)))
  }

  /** Appending one more fold appends its arrays to each accumulator. */
  lemma AccumulateSnoc(c: seq<FoldFiles>, f: FoldFiles)
    requires forall j :: 0 <= j < |c| ==> Usable(c[j]) && MaskFits(c[j].shap.value)
    requires Usable(f) && MaskFits(f.shap.value)
    ensures var before, after := Accumulate(c), Accumulate(c + [f]);
      after == Accumulators(
        before.pred1 + [f.pred.value.signal1],
        before.pred2 + [f.pred.value.signal2],
        before.shap1 + [SelectRows(f.shap.value.seqShap, f.shap.value.alleles, REF_LABEL)],
        before.shap2 + [SelectRows(f.shap.value.seqShap, f.shap.value.alleles, ALT_LABEL)])
  {
    var c' := c + [f];
    assert forall j :: 0 <= j < |c| ==> c'[j] == c[j];
  }

  /** When every usable fold's mask fits, so does every contributing fold's. */
  lemma ContributingMasks(folds: seq<FoldFiles>)
    requires MasksFit(folds)
    ensures forall j :: 0 <= j < |Contributing(folds)| ==>
      Usable(Contributing(folds)[j]) && MaskFits(Contributing(folds)[j].shap.value)
  {
  }

  /** Fold k is the first usable fold whose allele mask does not fit: the fold the loop crashes on. */
  predicate FirstMaskMismatch(folds: seq<FoldFiles>, k: nat)
  {
    && k < |folds| && Usable(folds[k]) && !MaskFits(folds[k].shap.value)
    && MasksFit(folds[..k])
  }

  /** The result of the fold loop: valid_folds and the accumulators. */
  datatype Loaded = Loaded(validFolds: nat, acc: Accumulators)

  /**
   * The fold loop of main(). It fails only when a usable fold's allele mask
   * does not fit its attribution rows (numpy raises, nothing catches it);
   * otherwise valid_folds is the number of folds with both files and the
   * accumulators hold exactly the contributing folds' arrays, in fold order.
   */
  method LoadFolds(folds: seq<FoldFiles>) returns (r: Result<Loaded, Abort>)
    ensures r.Failure? <==> !MasksFit(folds)
    ensures r.Failure? ==> r.error.MaskLengthMismatch? && FirstMaskMismatch(folds, r.error.fold)
    ensures r.Success? ==>
      && MasksFit(folds)
      && r.value.validFolds == |Contributing(folds)| == |UsableFolds(folds)|
      && r.value.acc == Accumulate(Contributing(folds))
  {
    var validFolds := 0;
    var pred1: seq<Batch>, pred2: seq<Batch>, shap1: seq<Batch>, shap2: seq<Batch> := [], [], [], [];
    for k := 0 to |folds|
      invariant MasksFit(folds[..k])
      invariant validFolds == |Contributing(folds[..k])|
      invariant Accumulators(pred1, pred2, shap1, shap2) == Accumulate(Contributing(folds[..k]))
    {
      assert folds[..k + 1] == folds[..k] + [folds[k]];
      var fold := folds[k];
      if fold.pred.Some? && fold.shap.Some? {
        validFolds := validFolds + 1;
        pred1 := pred1 + [fold.pred.value.signal1];
        pred2 := pred2 + [fold.pred.value.signal2];
        var shap := fold.shap.value;
        if |shap.alleles| != |shap.seqShap| {
          return Failure(MaskLengthMismatch(k));
        }
        shap1 := shap1 + [SelectRows(shap.seqShap, shap.alleles, REF_LABEL)];
        shap2 := shap2 + [SelectRows(shap.seqShap, shap.alleles, ALT_LABEL)];
        ContributingMasks(folds[..k]);
        AccumulateSnoc(Contributing(folds[..k]), fold);
      }
    }
    assert folds[..|folds|] == folds;
    ContributingCount(folds);
    return Success(Loaded(validFolds, Accumulators(pred1, pred2, shap1, shap2)));
  }

  /** a1_pred_mean, a2_pred_mean, a1_shap_mean, a2_shap_mean. */
  datatype Means = Means(pred1: Batch, pred2: Batch, shap1: Batch, shap2: Batch)

  /** The arrays one fold contributes: its two signals and its two allele partitions. */
  function FoldArrays(f: FoldFiles): (m: Means)
    requires Usable(f) && MaskFits(f.shap.value)
  {
    Means(f.pred.value.signal1, f.pred.value.signal2,
          SelectRows(f.shap.value.seqShap, f.shap.value.alleles, REF_LABEL),
          SelectRows(f.shap.value.seqShap, f.shap.value.alleles, ALT_LABEL))
  }

  /** numpy can stack each accumulator: all its folds' arrays share one shape. */
  predicate Stackable(acc: Accumulators)
  {
    SameShape(acc.pred1) && SameShape(acc.pred2) && SameShape(acc.shap1) && SameShape(acc.shap2)
  }

  /**
   * The four elementwise means over the accumulated folds. Stacking fails
   * (numpy raises, nothing catches it) unless each accumulator's folds share one shape.
   */
  function EnsembleMeans(acc: Accumulators): (r: Result<Means, Abort>)
    requires |acc.pred1| > 0 && |acc.pred2| > 0 && |acc.shap1| > 0 && |acc.shap2| > 0
    ensures r.Success? <==> Stackable(acc)
    ensures r.Failure? ==> r.error == InhomogeneousFolds
    ensures r.Success? ==>
      && Conform(r.value.pred1, acc.pred1[0]) && Conform(r.value.pred2, acc.pred2[0])
      && Conform(r.value.shap1, acc.shap1[0]) && Conform(r.value.shap2, acc.shap2[0])
  {
    if Stackable(acc) then
      Success(Means(FoldMean(acc.pred1), FoldMean(acc.pred2), FoldMean(acc.shap1), FoldMean(acc.shap2)))
    else
      Failure(InhomogeneousFolds)
  }

  /** The ensemble of a whole fold list: defined once some fold is usable and every mask fits. */
  function Ensemble(folds: seq<FoldFiles>): (r: Result<Means, Abort>)
    requires MasksFit(folds) && |Contributing(folds)| > 0
    ensures var acc := Accumulate(Contributing(folds));
      && (r.Success? <==> Stackable(acc))
      && (r.Failure? ==> r.error == InhomogeneousFolds)
      && (r.Success? ==>
            && Conform(r.value.pred1, acc.pred1[0]) && Conform(r.value.pred2, acc.pred2[0])
            && Conform(r.value.shap1, acc.shap1[0]) && Conform(r.value.shap2, acc.shap2[0]))
  {
    EnsembleMeans(Accumulate(Contributing(folds)))
  }

  /** With exactly one contributing fold, the ensemble is that fold's own arrays. */
  lemma SingleFoldEnsemble(folds: seq<FoldFiles>, k: nat)
    requires MasksFit(folds) && k < |folds|
    requires UsableFolds(folds) == {k}
    ensures |Contributing(folds)| > 0 && Ensemble(folds) == Success(FoldArrays(folds[k]))
  {
    ContributingCount(folds);
    var c := Contributing(folds);
    assert |c| == 1;
    assert c[0] in folds;
    var f := c[0];
    assert f == folds[k] by {
      var k' :| 0 <= k' < |folds| && folds[k'] == f;
      assert k' in UsableFolds(folds);
    }
    var acc := Accumulate(c);
    assert acc.pred1 == [f.pred.value.signal1];
    assert acc.pred2 == [f.pred.value.signal2];
    assert acc.shap1 == [FoldArrays(f).shap1];
    assert acc.shap2 == [FoldArrays(f).shap2];
    FoldMeanOfOne(acc.pred1[0]);
    FoldMeanOfOne(acc.pred2[0]);
    FoldMeanOfOne(acc.shap1[0]);
    FoldMeanOfOne(acc.shap2[0]);
  }

  /** When every contributing fold supplies the same arrays, the ensemble is those arrays. */
  lemma UniformEnsemble(folds: seq<FoldFiles>, m: Means)
    requires MasksFit(folds) && |Contributing(folds)| > 0
    requires forall k :: 0 <= k < |folds| && Usable(folds[k]) ==> FoldArrays(folds[k]) == m
    ensures Ensemble(folds) == Success(m)
  {
    var c := Contributing(folds);
    var acc := Accumulate(c);
    forall j | 0 <= j < |c| ensures FoldArrays(c[j]) == m {
      assert c[j] in folds;
    }
    FoldMeanUniform(acc.pred1, m.pred1);
    FoldMeanUniform(acc.pred2, m.pred2);
    FoldMeanUniform(acc.shap1, m.shap1);
    FoldMeanUniform(acc.shap2, m.shap2);
  }

  /** The four ensemble means, by name. */
  datatype MeanKind = RefSignal | AltSignal | RefAttribution | AltAttribution

  /** One of the four arrays of a Means. */
  function Pick(m: Means, kind: MeanKind): Batch
  {
    match kind
    case RefSignal => m.pred1
    case AltSignal => m.pred2
    case RefAttribution => m.shap1
    case AltAttribution => m.shap2
  }

  /** The accumulator that the mean of the given kind averages. */
  function Stacked(acc: Accumulators, kind: MeanKind): seq<Batch>
  {
    match kind
    case RefSignal => acc.pred1
    case AltSignal => acc.pred2
    case RefAttribution => acc.shap1
    case AltAttribution => acc.shap2
  }

  /** Stacked and Pick agree fold by fold: entry j of an accumulator is fold j's array. */
  lemma StackedAt(c: seq<FoldFiles>, kind: MeanKind, j: nat)
    requires forall j :: 0 <= j < |c| ==> Usable(c[j]) && MaskFits(c[j].shap.value)
    requires j < |c|
    ensures |Stacked(Accumulate(c), kind)| == |c|
    ensures Stacked(Accumulate(c), kind)[j] == Pick(FoldArrays(c[j]), kind)
  {
  }

  /** Each ensemble array is the fold mean of its accumulator. */
  lemma EnsemblePick(acc: Accumulators, kind: MeanKind)
    requires |acc.pred1| > 0 && |acc.pred2| > 0 && |acc.shap1| > 0 && |acc.shap2| > 0
    requires EnsembleMeans(acc).Success?
    ensures |Stacked(acc, kind)| > 0 && SameShape(Stacked(acc, kind))
    ensures Pick(EnsembleMeans(acc).value, kind) == FoldMean(Stacked(acc, kind))
  {
  }

  /** Element (i, k) of the given mean's array exists in every contributing fold. */
  predicate ElementExists(folds: seq<FoldFiles>, kind: MeanKind, i: nat, k: nat)
    requires MasksFit(folds)
  {
    var c := Contributing(folds);
    forall j :: 0 <= j < |c| ==>
      i < |Pick(FoldArrays(c[j]), kind)| && k < |Pick(FoldArrays(c[j]), kind)[i]|
  }

  /** The element-wise mean over an accumulated list of folds, for one of the four means. */
  lemma AccumulatedElementAt(c: seq<FoldFiles>, kind: MeanKind, i: nat, k: nat)
    requires forall j :: 0 <= j < |c| ==> Usable(c[j]) && MaskFits(c[j].shap.value)
    requires |c| > 0 && EnsembleMeans(Accumulate(c)).Success?
    requires forall j :: 0 <= j < |c| ==>
      i < |Pick(FoldArrays(c[j]), kind)| && k < |Pick(FoldArrays(c[j]), kind)[i]|
    ensures var mean := Pick(EnsembleMeans(Accumulate(c)).value, kind);
      && i < |mean| && k < |mean[i]|
      && mean[i][k]
           == Sum(seq(|c|, j requires 0 <= j < |c| && Usable(c[j]) && MaskFits(c[j].shap.value) =>
                        Pick(FoldArrays(c[j]), kind)[i][k]))
              / (|c| as real)
  {
    var acc := Accumulate(c);
    var stack := Stacked(acc, kind);
    EnsemblePick(acc, kind);
    StackedAt(c, kind, 0);
    FoldMeanAt(stack, i, k);
    var col := seq(|c|, j requires 0 <= j < |c| && Usable(c[j]) && MaskFits(c[j].shap.value) =>
                 Pick(FoldArrays(c[j]), kind)[i][k]);
    forall j | 0 <= j < |c| ensures Column(stack, i, k)[j] == col[j] {
      StackedAt(c, kind, j);
    }
    assert Column(stack, i, k) == col;
  }

  /** Each element of each ensemble mean (both predicted signals, and both allele
      partitions of the attributions) is that element summed over the contributing
      folds' arrays, divided by their number (valid_folds, by LoadFolds). */
  lemma EnsembleElementAt(folds: seq<FoldFiles>, kind: MeanKind, i: nat, k: nat)
    requires MasksFit(folds) && |Contributing(folds)| > 0 && Ensemble(folds).Success?
    requires ElementExists(folds, kind, i, k)
    ensures var c := Contributing(folds);
      var mean := Pick(Ensemble(folds).value, kind);
      && i < |mean| && k < |mean[i]|
      && mean[i][k]
           == Sum(seq(|c|, j requires 0 <= j < |c| && Usable(c[j]) && MaskFits(c[j].shap.value) =>
                        Pick(FoldArrays(c[j]), kind)[i][k]))
              / (|c| as real)
  {
    ContributingMasks(folds);
    AccumulatedElementAt(Contributing(folds), kind, i, k);
  }
}
