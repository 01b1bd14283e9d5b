# plot_snps: fold ensembling and per-variant window plotting, modelled in Dafny

`plot_snps.py` renders one comparative figure per genetic variant. The signal comes from an ensemble of five independently trained folds (`fold_0` .. `fold_4`). For each fold that has both a prediction file and an attribution file, the script:

- appends the fold's per-allele predicted signal (counts times the softmax of the profile) to one accumulator;
- splits its attribution rows into reference and alternate rows by the fold's allele labels, and appends those to two more.

It then averages every accumulator across the folds. This makes four mean arrays: predicted signal and attribution, for each of the two alleles. Each row of the variant list becomes one task. Task *i* takes row *i* of each mean array. A worker pool runs `plot_single_variant` over the tasks. For one variant, `plot_single_variant`:

- takes four windows `[center - flank, center + flank)`, one per mean row;
- derives one y-range for both attribution panels: 1.1 times the combined minimum and maximum, with the top raised by 0.01 when the range has zero width;
- draws three panels over the x-axis `-flank .. flank - 1` and writes `<output_dir>/<variant_id>.pdf`.

If anything fails for a variant, the failure is printed and the batch goes on.

The model has one module per part of that flow:

- `Reductions` (reductions.dfy): sum, minimum and maximum over a flattened array.
- `FoldMeans` (means.dfy): the elementwise mean across folds. A fold's array is a `Batch`, one row per variant; each row is that variant's array flattened in row-major order. One mean therefore serves the predicted-signal arrays (positions) and the attribution arrays (positions x 4 bases), as `np.mean(..., axis=0)` does in the source.
- `AllelePartition` (alleles.dfy): the boolean-mask filters `seq_shap[alleles==0]` and `seq_shap[alleles==1]`.
- `FoldSelection` (folds.dfy): which folds contribute, the fold loop as a method with loop invariants, and the four ensemble means.
- `VariantWindows` (windows.dfy): the windows, the x-axis and the shared y-range. The two centres and the flank are a `WindowConfig` parameter; `SOURCE_WINDOWS` holds the source's 1057, 500 and 150.
- `VariantPlot` (plot.dfy): one task as a total function that returns either the figure's data and artifact path, or a failure for that variant.
- `PlotSnps` (pipeline.dfy): task construction as a method with a loop, the pool map as a sequential map, and the whole run.

Exceptions that `main` does not catch become an `Aborted` run outcome rather than preconditions. Three such cases are modelled:

- an allele mask whose length differs from the number of attribution rows;
- per-fold arrays of different shapes, which cannot be stacked;
- a variant-list row past the end of a mean array.

Zero valid folds ends the run as `NoValidFolds`, before any mean, task or artifact exists. Numbers are exact `real`s.

## Model

| member | source | states |
|---|---|---|
| `Reductions.Min` | plot_snps.py:35 | the minimum of a non-empty window is one of its values and no value is below it |
| `Reductions.Max` | plot_snps.py:36 | the maximum of a non-empty window is one of its values and no value is above it |
| `Reductions.Least` | plot_snps.py:35 | Python's `min` of two numbers: the result is one of the two and no greater than either |
| `Reductions.Greatest` | plot_snps.py:36 | Python's `max` of two numbers: the result is one of the two and no smaller than either |
| `Reductions.MinConcat` | plot_snps.py:35 | the smaller of the two windows' minima is the minimum of both windows together |
| `Reductions.MaxConcat` | plot_snps.py:36 | the larger of the two windows' maxima is the maximum of both windows together |
| `Reductions.MinMaxEqualIffConstant` | plot_snps.py:38 | minimum equals maximum exactly when every value is the same |
| `FoldMeans.TotalAt` | plot_snps.py:134-137 | each element of the stacked folds' total is the sum of that element over the folds |
| `FoldMeans.FoldMean` | plot_snps.py:134-137 | `np.mean(np.array(acc), axis=0)` of stackable folds has the first fold's shape; its values are given by `FoldMeans.FoldMeanAt` |
| `FoldMeans.FoldMeanAt` | plot_snps.py:134-137 | each element of the fold mean is the sum of that element over the folds divided by the number of folds |
| `FoldMeans.FoldMeanOfOne` | plot_snps.py:134-137 | the mean of a single fold is that fold's array |
| `FoldMeans.FoldMeanUniform` | plot_snps.py:134-137 | when all folds hold the same array, the mean is that array |
| `FoldMeans.FoldMeanBetween` | plot_snps.py:134-137 | a bound that holds for an element in every fold also holds for the mean |
| `AllelePartition.SelectRows` | plot_snps.py:126-127 | the mask filter keeps as many rows as there are labels equal to the wanted allele |
| `AllelePartition.LabelPositions` | plot_snps.py:126-127 | the kept positions are strictly increasing, each carries the wanted label, and every position with that label is kept |
| `AllelePartition.SelectRowsAt` | plot_snps.py:126-127 | ref rows are exactly the rows at positions labelled 0 and alt rows those labelled 1, in original order; other labels go to neither |
| `AllelePartition.PartitionCounts` | plot_snps.py:123-127 | ref and alt row counts never exceed the row count, and add up to it exactly when every label is 0 or 1 |
| `FoldSelection.Contributing` | plot_snps.py:105-110 | every contributing fold has both files and is one of the listed folds, and there are no more of them than folds (order and completeness: the three lemmas below) |
| `FoldSelection.ContributingCount` | plot_snps.py:104-110 | the number of contributing folds is the number of fold indices whose two files both exist |
| `FoldSelection.ContributingConcat` | plot_snps.py:105-109 | selecting folds from two consecutive fold lists gives the two selections one after the other |
| `FoldSelection.PartialFoldIgnored` | plot_snps.py:109-127 | a fold with only one of its two files contributes nothing: removing it leaves the selection unchanged |
| `FoldSelection.AllFoldsContribute` | plot_snps.py:105-110 | when every fold has both files, every fold contributes, in order |
| `FoldSelection.Accumulate` | plot_snps.py:118-127 | the accumulators hold one entry per contributing fold, the same number in all four |
| `FoldSelection.LoadFolds` | plot_snps.py:101-127 | the fold loop fails exactly when a usable fold's mask does not fit, naming the first such fold; otherwise valid_folds equals the number of folds with both files, and the accumulators hold exactly those folds' signals and ref/alt partitions, in fold order |
| `FoldSelection.EnsembleMeans` | plot_snps.py:134-137 | the four means exist exactly when each accumulator's folds share one shape, have that shape, and otherwise the run aborts as inhomogeneous |
| `FoldSelection.Ensemble` | plot_snps.py:105-137 | the means of the whole fold list exist exactly when the contributing folds' four accumulators are each stackable, fail as inhomogeneous otherwise, and have the shape of the first contributing fold's arrays |
| `FoldSelection.SingleFoldEnsemble` | plot_snps.py:104-137 | with exactly one usable fold, the ensemble is that fold's own signals and allele partitions |
| `FoldSelection.UniformEnsemble` | plot_snps.py:134-137 | when every usable fold supplies the same arrays, the ensemble is those arrays |
| `FoldSelection.EnsemblePick` | plot_snps.py:134-137 | proof step for `FoldSelection.EnsembleElementAt`: the mean picked by kind is the fold mean of that kind's accumulator |
| `FoldSelection.EnsembleElementAt` | plot_snps.py:134-137 | each element of each of the four means (ref and alt predicted signal, ref and alt attribution) is that element of the contributing folds' arrays summed and divided by their number, valid_folds |
| `VariantWindows.Window` | plot_snps.py:32-33 | a predicted-signal window exists exactly when flank <= center and center + flank <= length; it then has 2*flank values and value j is source value center - flank + j |
| `VariantWindows.AttributionWindow` | plot_snps.py:30-31 | an attribution window exists exactly when its positions lie in the row; it then has 2*flank positions and position j is source position center - flank + j, all four bases |
| `VariantWindows.XAxis` | plot_snps.py:42 | the x-axis has 2*flank entries and entry j is j - flank |
| `VariantWindows.XAxisEnds` | plot_snps.py:42-50 | the x-axis runs from -flank to flank - 1, and x = 0 is window index flank and no other |
| `VariantWindows.SharedYRange` | plot_snps.py:35-40 | the y-range fails exactly when an attribution window is empty, and otherwise has lo < hi |
| `VariantWindows.SharedYRangeOfCombined` | plot_snps.py:35-38 | lo is 1.1 times the minimum of both windows together; hi is 1.1 times their maximum, plus 0.01 exactly when all their values are equal |
| `VariantWindows.SharedYRangeCovers` | plot_snps.py:35-40 | when the windows' values include zero or both signs, the y-range contains every value |
| `VariantWindows.SharedYRangeAbovePositiveMin` | plot_snps.py:35 | when every value is positive, the lower bound lies above the smallest value |
| `VariantPlot.JoinPath` | plot_snps.py:23 | the joined path ends with the file name; an absolute name replaces the directory; otherwise the path is the directory, then a separator exactly when the directory is non-empty and does not already end in one, then the name |
| `VariantPlot.Title` | plot_snps.py:53 | the title starts with the variant id and ends with the cluster name, and its length is the lengths of id, both alleles and cluster plus 9, the characters of ` (`, `/` and `) --- ` |
| `VariantPlot.SourceWindowsPlottable` | plot_snps.py:25-33 | with the hard-coded centres 1057 and 500 and flank 150, a task is drawable exactly when both predicted signals have at least 650 values and both attribution rows at least 1207 positions, and the x-axis has 300 entries |
| `VariantPlot.PlotSingleVariant` | plot_snps.py:19-86 | every task yields a result for its own variant id; it plots exactly when all four windows fit and flank > 0, writing `<output_dir>/<variant_id>.pdf`; otherwise it fails, with WindowOutOfBounds when a window leaves its row and EmptyAttributionWindow when the windows fit but are empty (flank 0) |
| `VariantPlot.PlottedSignalPanel` | plot_snps.py:42-56 | a plotted figure shows both predicted-signal windows over the x-axis, all three of equal length, with the locus marker at x = 0 |
| `VariantPlot.PlottedAttributionPanels` | plot_snps.py:59-79 | both attribution panels show their allele's window and use the same y-range, computed from the two windows, with lo < hi |
| `VariantPlot.PlottedMarkers` | plot_snps.py:50-76 | both attribution markers sit at window index flank, whose x-coordinate is the signal marker 0 |
| `PlotSnps.BuildTasks` | plot_snps.py:142-149 | task construction succeeds exactly when every mean array has a row per variant, and then task i pairs variant row i with row i of each mean; otherwise it aborts at the first missing index |
| `PlotSnps.FirstMissingRow` | plot_snps.py:146-147 | the first variant index at which some mean array has no row: every mean covers the indices below it, and some mean lacks it |
| `PlotSnps.MapTasks` | plot_snps.py:151-152 | the map gives one result per task, in order; result i carries task i's variant id and plots exactly when task i can be drawn, writing its output path |
| `PlotSnps.MapTasksChunks` | plot_snps.py:151-152 | mapping two chunks of tasks and concatenating the results equals mapping all the tasks |
| `PlotSnps.ArtifactsAndFailures` | plot_snps.py:85-86 | every result either wrote one artifact or reports one failure |
| `PlotSnps.FailuresAreUnplottable` | plot_snps.py:151-152 | with M of N tasks not drawable, the map reports M failures and writes N - M artifacts, each the path of a drawable task |
| `PlotSnps.Run` | plot_snps.py:99-152 | the run stops with nothing computed exactly when every mask fits and no fold has both files; it completes exactly when the ensemble exists and covers every variant, and its results are then the map over the tasks built from the ensemble rows; otherwise it aborts at the first misfitting mask, as inhomogeneous when the folds cannot be stacked, or at the first variant index with no row |

## Left out

- `softmax` and the `c * softmax(p)` rescaling (plot_snps.py:15-17, 118-119): floating-point `exp` normalisation. A fold's `PredFile` holds the already-rescaled per-allele signal.
- Float rounding and NaN behaviour of `min`, `max`, `mean` and of the `ylim_max == ylim_min` test: the model uses exact reals, with 1.1 and 0.01 as exact constants.
- HDF5/deepdish loading, `pd.read_table`, argparse, `os.makedirs` and all `print` logging: I/O plumbing. A file's existence is whether its `Option` is `Some`. Fold `k` is entry `k` of the fold list. The file names `fold_<k>.variant_predictions.h5` and `fold_<k>.variant_shap.counts.h5` are not modelled.
- All matplotlib/logomaker rendering (plot_snps.py:45-83): figure size, colours, legend labels, x-limits, tick positions and labels, the zero baseline, text boxes, and the PDF write itself. The model returns the artifact path and the data each panel shows.
- `Pool(20)` (plot_snps.py:151-152): concurrency. The map is sequential; `PlotSnps.MapTasksChunks` shows that chunking the tasks does not change the results.
- `VariantPlot.PlotSingleVariant`: an out-of-bounds window is a `WindowOutOfBounds` failure. Python would slice silently instead: it clips an overlong end, and wraps a negative start around from the end. In the source, a short predicted-signal window raises (inside `plt.plot`) and an empty attribution window raises in `min()` (plot_snps.py:35); a short but non-empty attribution window would still be drawn.
- `VariantPlot.PlotSingleVariant`: the failure reason is checked in a different order than in the source. The source evaluates the y-range before it plots, so an empty window reports first there. The model reports window bounds first. Either way the variant is a failure; only the reason differs.
- The variant list's row index is taken as positional, as with the default index `pd.read_table` creates.
- The score-table pipeline (ensemble score aggregation and the significance filter, `filter_snps`) is not part of this model.
- Running-sum accumulation: the code appends each fold's arrays to lists and averages the lists (plot_snps.py:101-137), and that is what the model does.
