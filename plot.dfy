/**
 * plot_single_variant, reduced to what it computes: for one task it either
 * yields the figure's data and the artifact path <output_dir>/<variant_id>.pdf,
 * or reports a failure for that variant. No exception leaves it.
 */
module VariantPlot {
  import opened Wrappers
  import opened Errors
  import opened FoldMeans
  import opened VariantWindows

  /** One row of the variant list: chr, pos, ref_allele, alt_allele, variant_id. */
  datatype Variant = Variant(chrom: string, pos: int, refAllele: string, altAllele: string, variantId: string)

  /** One render task: the variant, row idx of each of the four mean arrays, and the output settings. */
  datatype Task = Task(variant: Variant, pred1: Row, pred2: Row, shap1: Row, shap2: Row,
                       outputDir: string, cluster: string)

  /** An attribution panel: the window's values, its y-range, and the x position of the locus marker. */
  datatype Logo = Logo(values: Row, ylim: YLim, marker: nat)

  /** The three panels: both predicted-signal windows over the x-axis with a marker at x = 0,
      then the reference and the alternate attribution panels. */
  datatype Figure = Figure(title: string, x: seq<int>, refSignal: Row, altSignal: Row, signalMarker: int,
                           refLogo: Logo, altLogo: Logo)

  /** What one task produces: the artifact, or the failure printed as "Error plotting <id>". */
  datatype TaskResult =
    | Plotted(variantId: string, outfile: string, figure: Figure)
    | PlotFailed(variantId: string, reason: PlotError)

  /** os.path.join(dir, name) for one path component. */
  function JoinPath(dir: string, name: string): (p: string)
    ensures |name| <= |p| && p[|p| - |name|..] == name
    ensures |name| > 0 && name[0] == '/' ==> p == name
    ensures (|name| == 0 || name[0] != '/') ==>
      p[..|p| - |name|] == (if |dir| == 0 || dir[|dir| - 1] == '/' then dir else dir + "/")
  {
    if |name| > 0 && name[0] == '/' then name
    else if |dir| == 0 || dir[|dir| - 1] == '/' then dir + name
    else dir + "/" + name
  }

  /** The artifact path of a task. */
  function OutFile(t: Task): string
  {
    JoinPath(t.outputDir, t.variant.variantId + ".pdf")
  }

  /** The figure title: "<id> (<ref>/<alt>) --- <cluster>". */
  function Title(t: Task): (s: string)
    ensures |s| == |t.variant.variantId| + |t.variant.refAllele| + |t.variant.altAllele| + |t.cluster| + 9
    ensures s[..|t.variant.variantId|] == t.variant.variantId
    ensures s[|s| - |t.cluster|..] == t.cluster
  {
    t.variant.variantId + " (" + t.variant.refAllele + "/" + t.variant.altAllele + ") --- " + t.cluster
  }

  /** All four windows lie inside their rows. */
  predicate WindowsFit(t: Task, cfg: WindowConfig)
  {
    && Fits(PositionCount(t.shap1), cfg.centerShap, cfg.flank)
    && Fits(PositionCount(t.shap2), cfg.centerShap, cfg.flank)
    && Fits(|t.pred1|, cfg.centerPred, cfg.flank)
    && Fits(|t.pred2|, cfg.centerPred, cfg.flank)
  }

  /** The task can be drawn: its windows fit and are not empty. */
  predicate Plottable(t: Task, cfg: WindowConfig)
  {
    WindowsFit(t, cfg) && cfg.flank > 0
  }

  /** With the source's hard-coded windows (centres 1057 and 500, flank 150), a task can be
      drawn exactly when both predicted signals have at least 650 values and both attribution
      rows at least 1207 positions; its x-axis then has 300 entries. */
  lemma SourceWindowsPlottable(t: Task)
    ensures Plottable(t, SOURCE_WINDOWS) <==>
      |t.pred1| >= 650 && |t.pred2| >= 650 && PositionCount(t.shap1) >= 1207 && PositionCount(t.shap2) >= 1207
    ensures |XAxis(SOURCE_WINDOWS.flank)| == 300
  {
  }

  /**
   * One task. A window outside its row, or an empty attribution window, is
   * reported as a failure for this variant; otherwise the figure is built from
   * the four windows and the y-range they share, and written to OutFile(t).
   */
  function PlotSingleVariant(t: Task, cfg: WindowConfig): (r: TaskResult)
    ensures r.variantId == t.variant.variantId
    ensures r.Plotted? <==> Plottable(t, cfg)
    ensures r.Plotted? ==> r.outfile == OutFile(t)
    ensures r.PlotFailed? ==>
      r.reason == (if WindowsFit(t, cfg) then EmptyAttributionWindow else WindowOutOfBounds)
  {
    var id := t.variant.variantId;
    var a1Shap := AttributionWindow(t.shap1, cfg.centerShap, cfg.flank);
    var a2Shap := AttributionWindow(t.shap2, cfg.centerShap, cfg.flank);
    var a1Pred := Window(t.pred1, cfg.centerPred, cfg.flank);
    var a2Pred := Window(t.pred2, cfg.centerPred, cfg.flank);
    if a1Shap.None? || a2Shap.None? || a1Pred.None? || a2Pred.None? then
      PlotFailed(id, WindowOutOfBounds)
    else
      match SharedYRange(a1Shap.value, a2Shap.value)
      case Failure(e) => PlotFailed(id, e)
      case Success(ylim) =>
        Plotted(id, OutFile(t),
                Figure(Title(t), XAxis(cfg.flank), a1Pred.value, a2Pred.value, 0,
                       Logo(a1Shap.value, ylim, cfg.flank), Logo(a2Shap.value, ylim, cfg.flank)))
  }

  /** The signal panel of a plotted task: the two predicted-signal windows, each as long as the
      x-axis -flank .. flank - 1, with the locus marker at x = 0. */
  lemma PlottedSignalPanel(t: Task, cfg: WindowConfig)
    requires Plottable(t, cfg)
    ensures var fig := PlotSingleVariant(t, cfg).figure;
      && fig.x == XAxis(cfg.flank)
      && fig.refSignal == Window(t.pred1, cfg.centerPred, cfg.flank).value
      && fig.altSignal == Window(t.pred2, cfg.centerPred, cfg.flank).value
      && |fig.refSignal| == |fig.altSignal| == |fig.x|
      && fig.signalMarker == 0
  {
  }

  /** The attribution panels of a plotted task: each shows its allele's window, and both use the
      one y-range computed from the two windows, with lo < hi. */
  lemma PlottedAttributionPanels(t: Task, cfg: WindowConfig)
    requires Plottable(t, cfg)
    ensures var fig := PlotSingleVariant(t, cfg).figure;
      && fig.refLogo.values == AttributionWindow(t.shap1, cfg.centerShap, cfg.flank).value
      && fig.altLogo.values == AttributionWindow(t.shap2, cfg.centerShap, cfg.flank).value
      && SharedYRange(fig.refLogo.values, fig.altLogo.values).Success?
      && fig.refLogo.ylim == fig.altLogo.ylim == SharedYRange(fig.refLogo.values, fig.altLogo.values).value
      && fig.refLogo.ylim.lo < fig.refLogo.ylim.hi
  {
  }

  /** The locus markers agree: both attribution panels mark window index flank, whose
      x-coordinate is the signal panel's marker, 0. */
  lemma PlottedMarkers(t: Task, cfg: WindowConfig)
    requires Plottable(t, cfg)
    ensures var fig := PlotSingleVariant(t, cfg).figure;
      && fig.refLogo.marker == fig.altLogo.marker == cfg.flank < |fig.x|
      && fig.x[fig.refLogo.marker] == fig.signalMarker
  {
  }
}
