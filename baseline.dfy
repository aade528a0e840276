/** The "average" statistical baseline: a label derived once from the
  * training split (calculate_average_label) and broadcast to every sample of
  * a batch (get_average_output_values). */
module Baseline {
  import opened Outcomes
  import opened Tensors

  /** `self.n_classes`, fixed in the constructor for classification. */
  const N_CLASSES: nat := 4

  /** The average label: the mean of the training labels for regression, the
    * integer part of their mode for classification. */
  datatype AverageLabel = MeanLabel(mean: real) | ModeLabel(mode: int)

  function Sum(s: seq<real>): real
  {
    if s == [] then 0.0 else Sum(s[..|s| - 1]) + s[|s| - 1]
  }

  /** `statistics.mean`: computed exactly, as Python does before rounding.
    * It lies between the smallest and the largest label. */
  function Mean(s: seq<real>): (m: real)
    requires |s| > 0
    ensures MinOf(s) <= m <= MaxOf(s)
  {
    SumBounds(s, MinOf(s), MaxOf(s));
    QuotientBounds(Sum(s), |s| as real, MinOf(s), MaxOf(s));
    Sum(s) / |s| as real
  }

  /** Dividing by a positive n keeps bounds n*lo <= x <= n*hi as lo and hi. */
  lemma QuotientBounds(x: real, n: real, lo: real, hi: real)
    requires n > 0.0 && n * lo <= x <= n * hi
    ensures lo <= x / n <= hi
  {
    assert x / n * n == x;
  }

  /** The smallest label. */
  function MinOf(s: seq<real>): (m: real)
    requires |s| > 0
    ensures m in s && forall i :: 0 <= i < |s| ==> m <= s[i]
  {
    if |s| == 1 then s[0]
    else
      var rest := MinOf(s[..|s| - 1]);
      if s[|s| - 1] < rest then s[|s| - 1] else rest
  }

  /** The largest label. */
  function MaxOf(s: seq<real>): (m: real)
    requires |s| > 0
    ensures m in s && forall i :: 0 <= i < |s| ==> s[i] <= m
  {
    if |s| == 1 then s[0]
    else
      var rest := MaxOf(s[..|s| - 1]);
      if s[|s| - 1] > rest then s[|s| - 1] else rest
  }

  /** If every label lies in [lo, hi], their sum lies in [n*lo, n*hi]. */
  lemma {:induction false} SumBounds(s: seq<real>, lo: real, hi: real)
    requires forall i :: 0 <= i < |s| ==> lo <= s[i] <= hi
    ensures |s| as real * lo <= Sum(s) <= |s| as real * hi
  {
    if s != [] {
      SumBounds(s[..|s| - 1], lo, hi);
    }
  }

  /** The mean lies between any bounds of the labels; in particular labels
    * normalised to [0, 1] give a mean in [0, 1]. */
  lemma MeanBounds(s: seq<real>, lo: real, hi: real)
    requires |s| > 0
    requires forall i :: 0 <= i < |s| ==> lo <= s[i] <= hi
    ensures lo <= Mean(s) <= hi
  {
    SumBounds(s, lo, hi);
    var n := |s| as real;
    assert n * lo <= Sum(s) <= n * hi;
    assert Sum(s) / n * n == Sum(s);
  }

  /** A training split whose labels are all equal averages to that label. */
  lemma {:induction false} MeanOfConstant(s: seq<real>, c: real)
    requires |s| > 0
    requires forall i :: 0 <= i < |s| ==> s[i] == c
    ensures Mean(s) == c
  {
    MeanBounds(s, c, c);
  }

  /** The scan behind `statistics.mode` (Python 3.8 and later): the first
    * label, in order, whose count is largest. */
  function ModeFrom(s: seq<real>, i: nat, m: real): (r: real)
    requires i <= |s| && m in s
    requires forall j :: 0 <= j < i ==> multiset(s)[s[j]] <= multiset(s)[m]
    ensures r in s
    ensures forall j :: 0 <= j < |s| ==> multiset(s)[s[j]] <= multiset(s)[r]
    decreases |s| - i
  {
    if i == |s| then m
    else if multiset(s)[s[i]] > multiset(s)[m] then ModeFrom(s, i + 1, s[i])
    else ModeFrom(s, i + 1, m)
  }

  /** `statistics.mode`: a label that occurs at least as often as any other. */
  function Mode(s: seq<real>): (r: real)
    requires |s| > 0
    ensures r in s
    ensures forall x :: multiset(s)[x] <= multiset(s)[r]
  {
    ModeFrom(s, 0, s[0])
  }

  /** `int(x)`: truncation toward zero. */
  function Truncate(x: real): (k: int)
    ensures -1.0 < x - k as real < 1.0
    ensures x >= 0.0 ==> 0 <= k && k as real <= x
    ensures x < 0.0 ==> k <= 0 && x <= k as real
  {
    if x >= 0.0 then x.Floor else -((-x).Floor)
  }

  /** calculate_average_label over the labels of the training split. There
    * is no split when the caller passed none (iterating over None), and an
    * empty split has neither mean nor mode. */
  function CalculateAverageLabel(outputType: OutputType, trainLabels: Option<seq<real>>): (r: Result<AverageLabel>)
    ensures r.Ok? <==> trainLabels.Some? && |trainLabels.value| > 0
    ensures trainLabels.None? ==> r == Err(NoTrainingSet)
    ensures trainLabels == Some([]) ==> r == Err(EmptyTrainingSet)
    ensures r.Ok? && outputType == Regression ==> r.value == MeanLabel(Mean(trainLabels.value))
    ensures r.Ok? && outputType == Classification ==>
      r.value.ModeLabel? &&
      exists x :: x in trainLabels.value && r.value.mode == Truncate(x) &&
        forall y :: multiset(trainLabels.value)[y] <= multiset(trainLabels.value)[x]
  {
    match trainLabels
    case None => Err(NoTrainingSet)
    case Some(labels) =>
      if labels == [] then Err(EmptyTrainingSet)
      else
        match outputType
        case Regression => Ok(MeanLabel(Mean(labels)))
        case Classification => Ok(ModeLabel(Truncate(Mode(labels))))
  }

  /** The regression average is the mean of the training labels, and so lies
    * within their range. */
  lemma RegressionAverageIsMean(labels: seq<real>, lo: real, hi: real)
    requires |labels| > 0
    requires forall i :: 0 <= i < |labels| ==> lo <= labels[i] <= hi
    ensures CalculateAverageLabel(Regression, Some(labels)).Ok?
    ensures var avg := CalculateAverageLabel(Regression, Some(labels)).value;
      avg == MeanLabel(Mean(labels)) && lo <= avg.mean <= hi
  {
    MeanBounds(labels, lo, hi);
  }

  /** `torch.zeros(n)` with the cell at `index` set to 1. A negative index
    * counts from the end, as tensor indexing does; anything outside [-n, n)
    * is an IndexError. */
  function OneHot(n: nat, index: int): (r: Result<seq<real>>)
    ensures r.Ok? <==> -(n as int) <= index < n
  {
    if -(n as int) <= index < n then
      var k := if index < 0 then index + n else index;
      Ok(seq(n, j => if j == k then 1.0 else 0.0))
    else Err(ClassIndexOutOfRange(index))
  }

  /** The one-hot row has exactly one 1, at the (wrapped) index, and zeros
    * elsewhere. */
  lemma OneHotCells(n: nat, index: int)
    requires -(n as int) <= index < n
    ensures var row := OneHot(n, index).value;
      |row| == n &&
      (forall j :: 0 <= j < n ==> row[j] == 0.0 || row[j] == 1.0) &&
      row[if index < 0 then index + n else index] == 1.0 &&
      forall j :: 0 <= j < n && row[j] == 1.0 ==> j == (if index < 0 then index + n else index)
  {
  }

  /** get_average_output_values for a batch of `batchSize` samples: for
    * regression `torch.ones(batchSize) * average`, for classification the
    * one-hot row of the average label repeated once per sample. */
  function AverageOutputs(outputType: OutputType, batchSize: nat, avg: AverageLabel, nClasses: nat): (r: Result<Tensor>)
    ensures r.Ok? && outputType == Regression ==> r.value.Vector? && |r.value.values| == batchSize
    ensures outputType == Regression && avg.MeanLabel? ==> r == Ok(Vector(seq(batchSize, _ => avg.mean)))
    ensures r.Ok? && outputType == Classification ==>
      r.value.Matrix? && |r.value.rows| == batchSize &&
      forall i :: 0 <= i < batchSize ==> |r.value.rows[i]| == nClasses
    ensures r.Ok? && outputType == Classification ==>
      avg.ModeLabel? && OneHot(nClasses, avg.mode).Ok? &&
      forall i :: 0 <= i < batchSize ==> r.value.rows[i] == OneHot(nClasses, avg.mode).value
    ensures outputType == Classification && avg.MeanLabel? ==> r == Err(NonIntegerIndex)
    ensures outputType == Regression ==> r.Ok?
    ensures outputType == Classification && avg.ModeLabel? ==>
      (r.Ok? <==> -(nClasses as int) <= avg.mode < nClasses)
  {
    match outputType
    case Regression =>
      var a := if avg.MeanLabel? then avg.mean else avg.mode as real;
      Ok(Vector(seq(batchSize, _ => a)))
    case Classification =>
      if avg.MeanLabel? then Err(NonIntegerIndex)
      else
        var row :- OneHot(nClasses, avg.mode);
        Ok(Matrix(seq(batchSize, _ => row)))
  }

  /** Every regression baseline output is the average label itself; no clamp
    * is applied to it. */
  lemma RegressionOutputsAreAverage(batchSize: nat, m: real)
    ensures AverageOutputs(Regression, batchSize, MeanLabel(m), N_CLASSES) == Ok(Vector(seq(batchSize, _ => m)))
  {
  }

  /** A worked example: labels 1, 1, 1, 2, 3 average to 1.6 for
    * regression. */
  lemma MeanExample()
    ensures CalculateAverageLabel(Regression, Some([1.0, 1.0, 1.0, 2.0, 3.0])) == Ok(MeanLabel(1.6))
  {
    var r := [1.0, 1.0, 1.0, 2.0, 3.0];
    assert Sum(r[..1]) == 1.0;
    assert r[..2][..1] == r[..1];
    assert Sum(r[..2]) == 2.0;
    assert r[..3][..2] == r[..2];
    assert Sum(r[..3]) == 3.0;
    assert r[..4][..3] == r[..3];
    assert Sum(r[..4]) == 5.0;
    assert r[..4] == r[..|r| - 1];
    assert Sum(r) == 8.0;
  }

  /** A worked example: labels 0, 0, 1, 2 have mode 0 for classification. */
  lemma ModeExample()
    ensures CalculateAverageLabel(Classification, Some([0.0, 0.0, 1.0, 2.0])) == Ok(ModeLabel(0))
  {
    var c := [0.0, 0.0, 1.0, 2.0];
    var m := Mode(c);
    assert multiset(c)[0.0] == 2;
    assert multiset(c)[1.0] == 1 && multiset(c)[2.0] == 1;
    assert m in c;
    assert multiset(c)[m] >= 2;
  }
}
