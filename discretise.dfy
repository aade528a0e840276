/** The last step of get_outputs_preds: raw outputs become predictions, by
  * argmax over the class dimension for classification and by clamping into
  * [0, 1] for regression. */
module Discretise {
  import opened Outcomes
  import opened Tensors
  import opened Baseline

  /** `x.clamp(0, 1)`. */
  function Clamp(x: real): (y: real)
    ensures 0.0 <= y <= 1.0
    ensures 0.0 <= x <= 1.0 ==> y == x
    ensures x < 0.0 ==> y == 0.0
    ensures x > 1.0 ==> y == 1.0
  {
    if x < 0.0 then 0.0 else if x > 1.0 then 1.0 else x
  }

  /** Clamping is idempotent and order-preserving. */
  lemma ClampIdempotentMonotone(x: real, y: real)
    ensures Clamp(Clamp(x)) == Clamp(x)
    ensures x <= y ==> Clamp(x) <= Clamp(y)
  {
  }

  /** The clamp of every value, in order. */
  function ClampAll(xs: seq<real>): (ys: seq<real>)
    ensures |ys| == |xs|
    ensures forall i :: 0 <= i < |xs| ==> ys[i] == Clamp(xs[i])
  {
    seq(|xs|, i requires 0 <= i < |xs| => Clamp(xs[i]))
  }

  /** The index `torch.max(row)` reports: a largest entry, the first one
    * when several are equal. */
  function Argmax(row: seq<real>): (k: nat)
    requires |row| > 0
    ensures k < |row|
    ensures forall j :: 0 <= j < |row| ==> row[j] <= row[k]
    ensures forall j :: 0 <= j < k ==> row[j] < row[k]
  {
    if |row| == 1 then 0
    else
      var k := Argmax(row[..|row| - 1]);
      if row[|row| - 1] > row[k] then |row| - 1 else k
  }

  /** `torch.max(outputs, 1)[1]` of a matrix: one argmax per row; a row with
    * no elements cannot be reduced. */
  function ArgmaxRows(rows: seq<seq<real>>): (r: Result<seq<int>>)
    ensures r.Ok? <==> forall i :: 0 <= i < |rows| ==> |rows[i]| > 0
    ensures r.Ok? ==> (|r.value| == |rows| &&
      forall i :: 0 <= i < |rows| ==> r.value[i] == Argmax(rows[i]))
  {
    if rows == [] then Ok([])
    else if |rows[0]| == 0 then Err(EmptyReduction)
    else
      var rest :- ArgmaxRows(rows[1..]);
      Ok([Argmax(rows[0]) as int] + rest)
  }

  /** `preds.view(-1).tolist()` for the predictions of get_outputs_preds.
    * Classification takes the argmax over dimension 1, which a rank-one
    * tensor does not have; regression clamps every value. */
  function Predictions(outputType: OutputType, outputs: Tensor): (r: Result<seq<Scalar>>)
    ensures outputType == Regression ==> r.Ok?
    ensures outputType == Classification && outputs.Vector? ==> r == Err(DimensionOutOfRange)
    ensures outputType == Classification && outputs.Matrix? ==>
      (r.Ok? <==> forall i :: 0 <= i < |outputs.rows| ==> |outputs.rows[i]| > 0)
    ensures r.Ok? && outputType == Classification ==>
      outputs.Matrix? && |r.value| == |outputs.rows| &&
      forall i :: 0 <= i < |r.value| ==>
        r.value[i].Int? && 0 <= r.value[i].i < |outputs.rows[i]| &&
        r.value[i].i == Argmax(outputs.rows[i]) &&
        forall j :: 0 <= j < |outputs.rows[i]| ==> outputs.rows[i][j] <= outputs.rows[i][r.value[i].i]
  {
    match outputType
    case Classification =>
      if outputs.Vector? then Err(DimensionOutOfRange)
      else
        var ks :- ArgmaxRows(outputs.rows);
        Ok(seq(|ks|, i requires 0 <= i < |ks| => Int(ks[i])))
    case Regression =>
      var ys := ClampAll(Flatten(outputs));
      Ok(seq(|ys|, i requires 0 <= i < |ys| => Float(ys[i])))
  }

  /** Regression predictions are the raw outputs clamped into [0, 1]: each
    * lies in [0, 1], and an output already in range is kept as it is. */
  lemma RegressionPredictionsClamped(outputs: Tensor)
    ensures var r := Predictions(Regression, outputs);
      r.Ok? && |r.value| == |Flatten(outputs)| &&
      forall i :: 0 <= i < |r.value| ==>
        r.value[i].Float? && 0.0 <= r.value[i].r <= 1.0 &&
        (0.0 <= Flatten(outputs)[i] <= 1.0 ==> r.value[i].r == Flatten(outputs)[i])
  {
  }

  /** The argmax of a one-hot row is the position of its 1. */
  lemma {:induction false} ArgmaxOneHot(n: nat, index: int)
    requires -(n as int) <= index < n
    ensures Argmax(OneHot(n, index).value) == if index < 0 then index + n else index
  {
    var row := OneHot(n, index).value;
    var k := if index < 0 then index + n else index;
    OneHotCells(n, index);
  }

  /** The classification baseline predicts its mode class for every
    * sample of the batch (the wrapped position when the class is negative),
    * because each of its rows is one-hot at that class. */
  lemma AverageClassificationPredictions(batchSize: nat, mode: int)
    requires -(N_CLASSES as int) <= mode < N_CLASSES
    ensures var outputs := AverageOutputs(Classification, batchSize, ModeLabel(mode), N_CLASSES);
      outputs.Ok? &&
      Predictions(Classification, outputs.value) ==
        Ok(seq(batchSize, _ => Int(if mode < 0 then mode + N_CLASSES else mode)))
  {
    var row := OneHot(N_CLASSES, mode).value;
    var k := if mode < 0 then mode + N_CLASSES else mode;
    ArgmaxOneHot(N_CLASSES, mode);
    var outputs := AverageOutputs(Classification, batchSize, ModeLabel(mode), N_CLASSES);
    assert outputs == Ok(Matrix(seq(batchSize, _ => row)));
    var ks := ArgmaxRows(outputs.value.rows);
    assert ks.Ok? && forall i :: 0 <= i < batchSize ==> ks.value[i] == k;
    var preds := Predictions(Classification, outputs.value).value;
    assert |preds| == batchSize;
    assert forall i :: 0 <= i < batchSize ==> preds[i] == Int(k);
    assert preds == seq(batchSize, _ => Int(k));
  }

  /** A mode class outside [-n, n) makes the classification baseline fail before
    * any prediction exists. */
  lemma AverageClassificationOutOfRange(batchSize: nat, mode: int)
    requires !(-(N_CLASSES as int) <= mode < N_CLASSES)
    ensures AverageOutputs(Classification, batchSize, ModeLabel(mode), N_CLASSES) == Err(ClassIndexOutOfRange(mode))
  {
  }

  /** The regression baseline predicts the clamped average for every sample,
    * while its raw outputs keep the unclamped average. */
  lemma AverageRegressionPredictions(batchSize: nat, m: real)
    ensures Predictions(Regression, AverageOutputs(Regression, batchSize, MeanLabel(m), N_CLASSES).value)
         == Ok(seq(batchSize, _ => Float(Clamp(m))))
  {
    var outputs := AverageOutputs(Regression, batchSize, MeanLabel(m), N_CLASSES).value;
    assert Flatten(outputs) == seq(batchSize, _ => m);
    var preds := Predictions(Regression, outputs).value;
    assert preds == seq(batchSize, _ => Float(Clamp(m)));
  }
}
