/**
 * main() of plot_snps.py: the fold loop, the stop on zero valid folds, the
 * four fold means, one task per variant-list row, and the pool map that runs
 * plot_single_variant over the tasks.
 */
module PlotSnps {
  import opened Wrappers
  import opened Errors
  import opened FoldSelection
  import opened VariantWindows
  import opened VariantPlot

  /** Every mean array has a row for each of the first n variants. */
  predicate RowsCover(m: Means, n: nat)
  {
    n <= |m.pred1| && n <= |m.pred2| && n <= |m.shap1| && n <= |m.shap2|
  }

  /** The first variant index that some mean array has no row for. */
  function FirstMissingRow(m: Means): (i: nat)
    ensures !RowsCover(m, i + 1)
    ensures RowsCover(m, i)
  {
    var a := if |m.pred1| <= |m.pred2| then |m.pred1| else |m.pred2|;
    var b := if |m.shap1| <= |m.shap2| then |m.shap1| else |m.shap2|;
    if a <= b then a else b
  }

  /**
   * The task loop of main(): task idx pairs variant-list row idx with row idx of
   * each mean array. Indexing past the end of a mean array raises outside any
   * handler, so the loop aborts at the first variant that has no row.
   */
  method BuildTasks(variants: seq<Variant>, m: Means, outputDir: string, cluster: string)
    returns (r: Result<seq<Task>, Abort>)
    ensures r.Success? <==> RowsCover(m, |variants|)
    ensures r.Failure? ==> r.error == VariantIndexOutOfRange(FirstMissingRow(m))
    ensures r.Success? ==> |r.value| == |variants|
    ensures r.Success? ==> forall i :: 0 <= i < |variants| ==>
      r.value[i] == Task(variants[i], m.pred1[i], m.pred2[i], m.shap1[i], m.shap2[i], outputDir, cluster)
  {
    var tasks: seq<Task> := [];
    for idx := 0 to |variants|
      invariant RowsCover(m, idx)
      invariant |tasks| == idx
      invariant forall i :: 0 <= i < idx ==>
        tasks[i] == Task(variants[i], m.pred1[i], m.pred2[i], m.shap1[i], m.shap2[i], outputDir, cluster)
    {
      if idx >= |m.pred1| || idx >= |m.pred2| || idx >= |m.shap1| || idx >= |m.shap2| {
        return Failure(VariantIndexOutOfRange(idx));
      }
      tasks := tasks + [Task(variants[idx], m.pred1[idx], m.pred2[idx], m.shap1[idx], m.shap2[idx], outputDir, cluster)];
    }
    return Success(tasks);
  }

  /** Pool.map(plot_single_variant, tasks), run sequentially: one result per task, in task order,
      each computed from its own task alone. */
  function MapTasks(tasks: seq<Task>, cfg: WindowConfig): (results: seq<TaskResult>)
    ensures |results| == |tasks|
    ensures forall i :: 0 <= i < |tasks| ==> results[i].variantId == tasks[i].variant.variantId
    ensures forall i :: 0 <= i < |tasks| ==> (results[i].Plotted? <==> Plottable(tasks[i], cfg))
    ensures forall i :: 0 <= i < |tasks| && results[i].Plotted? ==> results[i].outfile == OutFile(tasks[i])
  {
    seq(|tasks|, i requires 0 <= i < |tasks| => PlotSingleVariant(tasks[i], cfg))
  }

  /** Splitting the tasks into chunks and concatenating the chunks' results, as a pool does,
      gives the same results as one sequential map. */
  lemma MapTasksChunks(a: seq<Task>, b: seq<Task>, cfg: WindowConfig)
    ensures MapTasks(a + b, cfg) == MapTasks(a, cfg) + MapTasks(b, cfg)
  {
    var whole, left, right := MapTasks(a + b, cfg), MapTasks(a, cfg), MapTasks(b, cfg);
    forall i | 0 <= i < |a| ensures whole[i] == left[i] {
      assert (a + b)[i] == a[i];
    }
    forall i | 0 <= i < |b| ensures whole[|a| + i] == right[i] {
      assert (a + b)[|a| + i] == b[i];
    }
    assert whole == left + right;
  }

  /** The artifact paths the results wrote, in result order. */
  function Artifacts(results: seq<TaskResult>): seq<string>
    decreases |results|
  {
    if |results| == 0 then []
    else
      var last := results[|results| - 1];
      Artifacts(results[..|results| - 1]) + (if last.Plotted? then [last.outfile] else [])
  }

  /** The number of failures the results report. */
  function FailureCount(results: seq<TaskResult>): nat
    decreases |results|
  {
    if |results| == 0 then 0
    else FailureCount(results[..|results| - 1]) + (if results[|results| - 1].PlotFailed? then 1 else 0)
  }

  /** Every result either wrote one artifact or reports one failure. */
  lemma {:induction false} ArtifactsAndFailures(results: seq<TaskResult>)
    ensures |Artifacts(results)| + FailureCount(results) == |results|
    decreases |results|
  {
    if |results| > 0 {
      ArtifactsAndFailures(results[..|results| - 1]);
    }
  }

  /** Each artifact path is the output path of a result that plotted. */
  lemma {:induction false} ArtifactsFromPlotted(results: seq<TaskResult>)
    ensures forall p :: p in Artifacts(results) ==>
      exists i :: 0 <= i < |results| && results[i].Plotted? && p == results[i].outfile
    decreases |results|
  {
    if |results| > 0 {
      var n := |results| - 1;
      ArtifactsFromPlotted(results[..n]);
      forall p | p in Artifacts(results)
        ensures exists i :: 0 <= i < |results| && results[i].Plotted? && p == results[i].outfile
      {
        if p in Artifacts(results[..n]) {
          var i :| 0 <= i < n && results[..n][i].Plotted? && p == results[..n][i].outfile;
          assert results[..n][i] == results[i];
        } else {
          assert results[n].Plotted? && p == results[n].outfile;
        }
      }
    }
  }

  /** The number of tasks that cannot be drawn. */
  function UnplottableCount(tasks: seq<Task>, cfg: WindowConfig): nat
    decreases |tasks|
  {
    if |tasks| == 0 then 0
    else UnplottableCount(tasks[..|tasks| - 1], cfg) + (if Plottable(tasks[|tasks| - 1], cfg) then 0 else 1)
  }

  /** Results that plot exactly for the drawable tasks report one failure per undrawable task. */
  lemma {:induction false} FailureCountMatches(results: seq<TaskResult>, tasks: seq<Task>, cfg: WindowConfig)
    requires |results| == |tasks|
    requires forall i :: 0 <= i < |tasks| ==> (results[i].Plotted? <==> Plottable(tasks[i], cfg))
    ensures FailureCount(results) == UnplottableCount(tasks, cfg)
    decreases |tasks|
  {
    if |tasks| > 0 {
      var n := |tasks| - 1;
      FailureCountMatches(results[..n], tasks[..n], cfg);
    }
  }

  /** With M tasks out of N that cannot be drawn, the map reports M failures and writes N - M artifacts,
      each the output path of a task that can be drawn. */
  lemma FailuresAreUnplottable(tasks: seq<Task>, cfg: WindowConfig)
    ensures FailureCount(MapTasks(tasks, cfg)) == UnplottableCount(tasks, cfg)
    ensures |Artifacts(MapTasks(tasks, cfg))| == |tasks| - UnplottableCount(tasks, cfg)
    ensures forall p :: p in Artifacts(MapTasks(tasks, cfg)) ==>
      exists i :: 0 <= i < |tasks| && Plottable(tasks[i], cfg) && p == OutFile(tasks[i])
  {
    var results := MapTasks(tasks, cfg);
    ArtifactsAndFailures(results);
    ArtifactsFromPlotted(results);
    FailureCountMatches(results, tasks, cfg);
  }

  /** How a run ends: stopped for lack of folds, aborted by an uncaught exception,
      or completed with one result per variant. */
  datatype RunOutcome =
    | NoValidFolds
    | Aborted(reason: Abort)
    | Completed(results: seq<TaskResult>)

  /** The tasks of a run whose ensemble exists and covers every variant. */
  function RunTasks(variants: seq<Variant>, m: Means, outputDir: string, cluster: string): (tasks: seq<Task>)
    requires RowsCover(m, |variants|)
    ensures |tasks| == |variants|
  {
    seq(|variants|, i requires 0 <= i < |variants| =>
      Task(variants[i], m.pred1[i], m.pred2[i], m.shap1[i], m.shap2[i], outputDir, cluster))
  }

  /**
   * The whole run over fold_0 .. fold_4. With no usable fold it stops before
   * computing anything; an uncaught exception aborts it; otherwise every variant
   * is rendered from row i of the ensemble means and gets one result.
   */
  method Run(variants: seq<Variant>, folds: seq<FoldFiles>, outputDir: string, cluster: string, cfg: WindowConfig)
    returns (o: RunOutcome)
    requires |folds| == FOLD_COUNT
    ensures o.NoValidFolds? <==> MasksFit(folds) && UsableFolds(folds) == {}
    ensures o.Completed? <==>
      && MasksFit(folds) && |Contributing(folds)| > 0
      && Ensemble(folds).Success? && RowsCover(Ensemble(folds).value, |variants|)
    ensures o.Completed? ==>
      o.results == MapTasks(RunTasks(variants, Ensemble(folds).value, outputDir, cluster), cfg)
    ensures !MasksFit(folds) ==>
      o.Aborted? && o.reason.MaskLengthMismatch? && FirstMaskMismatch(folds, o.reason.fold)
    ensures MasksFit(folds) && |Contributing(folds)| > 0 && Ensemble(folds).Failure? ==>
      o == Aborted(InhomogeneousFolds)
    ensures && MasksFit(folds) && |Contributing(folds)| > 0 && Ensemble(folds).Success?
            && !RowsCover(Ensemble(folds).value, |variants|) ==>
      o == Aborted(VariantIndexOutOfRange(FirstMissingRow(Ensemble(folds).value)))
  {
    var loaded := LoadFolds(folds);
    if loaded.Failure? {
      return Aborted(loaded.error);
    }
    var validFolds, acc := loaded.value.validFolds, loaded.value.acc;
    if validFolds == 0 {
      return NoValidFolds;
    }
    var means := EnsembleMeans(acc);
    if means.Failure? {
      return Aborted(means.error);
    }
    var tasks := BuildTasks(variants, means.value, outputDir, cluster);
    if tasks.Failure? {
      return Aborted(tasks.error);
    }
    assert tasks.value == RunTasks(variants, means.value, outputDir, cluster);
    return Completed(MapTasks(tasks.value, cfg));
  }
}
