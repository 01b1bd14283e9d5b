/**
 * Window extraction and the shared y-range of plot_single_variant: four
 * symmetric slices [center - flank, center + flank) around the variant locus,
 * the x-axis -flank .. flank - 1, and one y-range for both attribution panels.
 */
module VariantWindows {
  import opened Wrappers
  import opened Errors
  import opened Reductions
  import opened FoldMeans

  /** The two window centres (attribution and predicted-signal coordinates) and the half-width. */
  datatype WindowConfig = WindowConfig(centerShap: nat, centerPred: nat, flank: nat)

  /** The values plot_single_variant hard-codes: center_shap, center_pred, flank. */
  const SOURCE_WINDOWS := WindowConfig(1057, 500, 150)

  /** Bases per attribution position: the columns A, C, G, T. */
  const BASE_COUNT := 4

  /** The y-range is this multiple of the combined extremes ... */
  const Y_SCALE: real := 1.1
  /** ... and its upper bound is raised by this much when the range has zero width. */
  const Y_NUDGE: real := 0.01

  /** [center - flank, center + flank) lies within 0 .. len. */
  predicate Fits(len: nat, center: nat, flank: nat)
  {
    flank <= center && center + flank <= len
  }

  /** The window of a predicted-signal row: one value per position. */
  function Window(src: Row, center: nat, flank: nat): (w: Option<Row>)
    ensures w.Some? <==> Fits(|src|, center, flank)
    ensures w.Some? ==> |w.value| == 2 * flank
    ensures w.Some? ==> forall j :: 0 <= j < 2 * flank ==> w.value[j] == src[center - flank + j]
  {
    if Fits(|src|, center, flank) then Some(src[center - flank..center + flank]) else None
  }

  /** Number of whole positions in a flattened attribution row. */
  function PositionCount(row: Row): nat
  {
    |row| / BASE_COUNT
  }

  /** The BASE_COUNT attribution values at position p of a flattened attribution row. */
  function Position(row: Row, p: nat): (v: seq<real>)
    requires p < PositionCount(row)
    ensures |v| == BASE_COUNT
  {
    row[BASE_COUNT * p..BASE_COUNT * p + BASE_COUNT]
  }

  /** The window of a flattened attribution row: positions [center - flank, center + flank), all bases. */
  function AttributionWindow(src: Row, center: nat, flank: nat): (w: Option<Row>)
    ensures w.Some? <==> Fits(PositionCount(src), center, flank)
    ensures w.Some? ==> |w.value| == BASE_COUNT * (2 * flank) && PositionCount(w.value) == 2 * flank
    ensures w.Some? ==> forall j :: 0 <= j < 2 * flank ==> Position(w.value, j) == Position(src, center - flank + j)
  {
    if Fits(PositionCount(src), center, flank) then
      var w := src[BASE_COUNT * (center - flank)..BASE_COUNT * (center + flank)];
      assert forall j :: 0 <= j < 2 * flank ==> Position(w, j) == Position(src, center - flank + j) by {
        forall j | 0 <= j < 2 * flank ensures Position(w, j) == Position(src, center - flank + j) {
          var lo := BASE_COUNT * (center - flank);
          var p := center - flank + j;
          assert BASE_COUNT * p == lo + BASE_COUNT * j;
          assert BASE_COUNT * j + BASE_COUNT <= |w|;
          assert BASE_COUNT * p + BASE_COUNT <= |src|;
          var got, want := Position(w, j), Position(src, p);
          forall b | 0 <= b < BASE_COUNT ensures got[b] == want[b] {
            assert got[b] == w[BASE_COUNT * j + b];
            assert w[BASE_COUNT * j + b] == src[lo + BASE_COUNT * j + b];
            assert want[b] == src[BASE_COUNT * p + b];
          }
        }
      }
      Some(w)
    else
      None
  }

  /** np.arange(-flank, flank): window index j is drawn at x = j - flank. */
  function XAxis(flank: nat): (x: seq<int>)
    ensures |x| == 2 * flank
    ensures forall j :: 0 <= j < |x| ==> x[j] == j - flank
  {
    seq(2 * flank, j => j - flank)
  }

  /** The axis runs from -flank to flank - 1 and the locus, x = 0, is window index flank. */
  lemma XAxisEnds(flank: nat)
    requires flank > 0
    ensures XAxis(flank)[0] == -(flank as int)
    ensures XAxis(flank)[2 * flank - 1] == flank - 1
    ensures XAxis(flank)[flank] == 0
    ensures forall j :: 0 <= j < 2 * flank && XAxis(flank)[j] == 0 ==> j == flank
  {
  }

  /** A y-axis range [lo, hi]. */
  datatype YLim = YLim(lo: real, hi: real)

  /**
   * ylim of plot_single_variant: 1.1 times the smaller of the two windows' minima
   * and 1.1 times the larger of their maxima, with the upper bound raised by 0.01
   * when the two coincide. numpy's min()/max() fail on an empty window.
   */
  function SharedYRange(a1: Row, a2: Row): (r: Result<YLim, PlotError>)
    ensures r.Success? <==> |a1| > 0 && |a2| > 0
    ensures r.Failure? ==> r.error == EmptyAttributionWindow
    ensures r.Success? ==> r.value.lo < r.value.hi
  {
    if |a1| == 0 || |a2| == 0 then Failure(EmptyAttributionWindow)
    else
      assert Min(a1) <= a1[0] <= Max(a1) && Min(a2) <= a2[0] <= Max(a2);
      var lo := Least(Min(a1), Min(a2)) * Y_SCALE;
      var hi := Greatest(Max(a1), Max(a2)) * Y_SCALE;
      if hi == lo then Success(YLim(lo, hi + Y_NUDGE)) else Success(YLim(lo, hi))
  }

  /** The y-range is scaled from the extremes of both windows taken together; the nudge
      applies exactly when the combined windows hold a single value. */
  lemma SharedYRangeOfCombined(a1: Row, a2: Row)
    requires |a1| > 0 && |a2| > 0
    ensures var both := a1 + a2;
      && SharedYRange(a1, a2).value.lo == Y_SCALE * Min(both)
      && SharedYRange(a1, a2).value.hi
           == Y_SCALE * Max(both) + (if forall i :: 0 <= i < |both| ==> both[i] == both[0] then Y_NUDGE else 0.0)
  {
    MinConcat(a1, a2);
    MaxConcat(a1, a2);
    MinMaxEqualIffConstant(a1 + a2);
  }

  /** When the windows hold values of both signs (or zero), the y-range contains every value. */
  lemma SharedYRangeCovers(a1: Row, a2: Row)
    requires |a1| > 0 && |a2| > 0
    requires Min(a1 + a2) <= 0.0 <= Max(a1 + a2)
    ensures forall i :: 0 <= i < |a1 + a2| ==>
      SharedYRange(a1, a2).value.lo <= (a1 + a2)[i] <= SharedYRange(a1, a2).value.hi
  {
    SharedYRangeOfCombined(a1, a2);
  }

  /** When every value is positive the lower bound sits above the smallest value,
      so the y-range does not contain every value of the windows. */
  lemma SharedYRangeAbovePositiveMin(a1: Row, a2: Row)
    requires |a1| > 0 && |a2| > 0
    requires Min(a1 + a2) > 0.0
    ensures SharedYRange(a1, a2).value.lo > Min(a1 + a2)
  {
    SharedYRangeOfCombined(a1, a2);
  }
}
