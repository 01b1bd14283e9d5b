/** Option and Result values for the fallible steps of the plotting pipeline. */
module Wrappers {
  datatype Option<+T> = None | Some(value: T)

  datatype Result<+T, +E> = Success(value: T) | Failure(error: E)
}

/** The exceptions the plotting script can meet, split by who handles them. */
module Errors {
  /** Exceptions raised in main() outside any handler: they end the whole run. */
  datatype Abort =
    | MaskLengthMismatch(fold: nat)      // boolean allele mask longer or shorter than the attribution rows
    | InhomogeneousFolds                 // per-fold arrays of different shapes cannot be stacked
    | VariantIndexOutOfRange(index: nat) // a variant-list row with no row in the mean arrays

  /** Exceptions raised inside plot_single_variant, caught and reported there. */
  datatype PlotError =
    | WindowOutOfBounds       // a window [center - flank, center + flank) leaves its array
    | EmptyAttributionWindow  // min()/max() over an empty attribution window
}
