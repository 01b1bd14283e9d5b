/**
 * The allele partition of an attribution file: seq_shap[alleles == 0] and
 * seq_shap[alleles == 1], boolean-mask filters of the rows by a parallel
 * label vector.
 */
module AllelePartition {
  /** Label of the rows that hold the reference allele's attribution. */
  const REF_LABEL := 0
  /** Label of the rows that hold the alternate allele's attribution. */
  const ALT_LABEL := 1

  /** The rows labelled `wanted`, in their original order. */
  function SelectRows<T>(rows: seq<T>, labels: seq<int>, wanted: int): (r: seq<T>)
    requires |rows| == |labels|
    ensures |r| == multiset(labels)[wanted]
    decreases |rows|
  {
    if |rows| == 0 then []
    else
      var n := |rows| - 1;
      assert labels == labels[..n] + [labels[n]];
      SelectRows(rows[..n], labels[..n], wanted) + (if labels[n] == wanted then [rows[n]] else [])
  }

  /** The positions labelled `wanted`, in increasing order. */
  function LabelPositions(labels: seq<int>, wanted: int): (ix: seq<nat>)
    ensures forall j :: 0 <= j < |ix| ==> ix[j] < |labels| && labels[ix[j]] == wanted
    ensures forall j, j' :: 0 <= j < j' < |ix| ==> ix[j] < ix[j']
    ensures forall i :: 0 <= i < |labels| && labels[i] == wanted ==> i in ix
    decreases |labels|
  {
    if |labels| == 0 then []
    else
      var n := |labels| - 1;
      LabelPositions(labels[..n], wanted) + (if labels[n] == wanted then [n] else [])
  }

  /** The selected rows are exactly the rows at the labelled positions, in order. */
  lemma {:induction false} SelectRowsAt<T>(rows: seq<T>, labels: seq<int>, wanted: int)
    requires |rows| == |labels|
    ensures |SelectRows(rows, labels, wanted)| == |LabelPositions(labels, wanted)|
    ensures forall j :: 0 <= j < |LabelPositions(labels, wanted)| ==>
              SelectRows(rows, labels, wanted)[j] == rows[LabelPositions(labels, wanted)[j]]
    decreases |rows|
  {
    if |rows| > 0 {
      var n := |rows| - 1;
      SelectRowsAt(rows[..n], labels[..n], wanted);
    }
  }

  /** Reference and alternate rows together never outnumber the rows; they account
      for every row exactly when every label is 0 or 1. */
  lemma {:induction false} PartitionCounts(labels: seq<int>)
    ensures multiset(labels)[REF_LABEL] + multiset(labels)[ALT_LABEL] <= |labels|
    ensures (multiset(labels)[REF_LABEL] + multiset(labels)[ALT_LABEL] == |labels|)
              <==> (forall i :: 0 <= i < |labels| ==> labels[i] == REF_LABEL || labels[i] == ALT_LABEL)
    decreases |labels|
  {
    if |labels| > 0 {
      var n := |labels| - 1;
      PartitionCounts(labels[..n]);
      assert labels == labels[..n] + [labels[n]];
      assert multiset(labels) == multiset(labels[..n]) + multiset{labels[n]};
    }
  }
}
