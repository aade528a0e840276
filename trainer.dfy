/** QuasiSiameseNetwork: the epoch runner (run_epoch), the training loop with
  * best-checkpoint selection (train) and the inference pass (inference).
  * The networks, the loss, the optimiser and the rolling evaluator are
  * opaque functions held in the configuration. */
module Trainer {
  import opened Outcomes
  import opened Tensors
  import opened Selection
  import opened Baseline
  import opened Discretise
  import opened BestCheckpoint
  import opened PredictionFile

  /** The two images of one sample; only the network looks at them. */
  datatype ImagePair = ImagePair(before: seq<real>, after: seq<real>)

  /** One batch from a loader: file names, image pairs and, in the labelled
    * phases, labels. */
  datatype Batch = Batch(filenames: seq<string>, images: seq<ImagePair>, labels: seq<real>)

  /** What the rolling evaluator is fed for one batch. */
  datatype EvalRecord = EvalRecord(labels: seq<Scalar>, preds: seq<Scalar>, loss: real)

  /** The constructor's settings and the collaborators whose code is not
    * part of this model, as functions. `W` is the type of the network's
    * weights (its state_dict). */
  datatype Config<!W> = Config(
    runName: string,
    modelType: string,
    outputType: OutputType,
    isNeuralModel: bool,
    isStatisticalModel: bool,
    predictionPath: string,
    network: (W, Batch) -> Tensor,                   // self.model(image1, image2).squeeze()
    probabilities: (W, Batch) -> Tensor,             // softmax(self.model(image1, image2), dim=1).squeeze()
    randomDraws: Batch -> Tensor,                    // torch.rand of the target shape
    criterion: (Tensor, seq<Scalar>) -> real,        // MSELoss or CrossEntropyLoss
    optimiserStep: (W, Batch) -> W,                  // zero_grad, backward and one Adam step
    rollingEval: seq<EvalRecord> -> (real, Score),   // RollingEval.loss() and .score() after the epoch
    showFloat: real -> string)                       // Python's repr of a float

  /** A prediction file: text, or a binary file holding a pickled list once
    * the epoch has ended. */
  datatype FileContent = TextFile(text: string) | BinaryFile(pickled: Option<seq<Item>>)

  /** The part of the trainer's state that its operations change. */
  datatype State<W> = State(
    weights: W,                        // self.model's parameters
    trainingMode: bool,                // model.train() versus model.eval()
    averageLabel: Option<AverageLabel>,
    optimizerSteps: nat,               // optimizer.step() calls so far
    files: map<string, FileContent>,   // prediction files on disk, by path
    checkpoint: Option<W>)             // the file at model_path

  /** The phases run_epoch accepts. */
  const PHASES: set<string> := {"train", "validation", "test"}

  /** `labels.float()` for regression, `labels.long()` for classification. */
  function CastLabels(outputType: OutputType, labels: seq<real>): (r: seq<Scalar>)
    ensures |r| == |labels|
    ensures outputType == Regression ==> forall i :: 0 <= i < |labels| ==> r[i] == Float(labels[i])
    ensures outputType == Classification ==> forall i :: 0 <= i < |labels| ==> r[i] == Int(Truncate(labels[i]))
  {
    match outputType
    case Regression => seq(|labels|, i requires 0 <= i < |labels| => Float(labels[i]))
    case Classification => seq(|labels|, i requires 0 <= i < |labels| => Int(Truncate(labels[i])))
  }

  /** get_outputs_preds: the raw outputs of the configured strategy for a
    * batch of `batchSize` samples, and their predictions. */
  function OutputsPreds<W>(cfg: Config<W>, weights: W, avg: Option<AverageLabel>, batch: Batch, batchSize: nat)
    : (r: Result<(Tensor, seq<Scalar>)>)
    ensures r.Ok? ==> Predictions(cfg.outputType, r.value.0) == Ok(r.value.1)
    ensures r.Ok? && cfg.isNeuralModel ==> r.value.0 == cfg.network(weights, batch)
    ensures r.Ok? && !cfg.isNeuralModel && cfg.modelType == "random" ==> r.value.0 == cfg.randomDraws(batch)
    ensures !cfg.isNeuralModel && cfg.modelType == "average" ==>
      (avg.None? ==> r == Err(NoAverageLabel)) &&
      (r.Ok? ==> avg.Some? && AverageOutputs(cfg.outputType, batchSize, avg.value, N_CLASSES) == Ok(r.value.0))
    ensures r.Ok? && !cfg.isNeuralModel && cfg.modelType == "probability" ==> r.value.0 == cfg.probabilities(weights, batch)
    ensures !cfg.isNeuralModel && cfg.modelType !in {"random", "average", "probability"} ==> r == Err(NoOutputs)
    ensures cfg.isNeuralModel ==> (r.Ok? <==> Predictions(cfg.outputType, cfg.network(weights, batch)).Ok?)
    ensures !cfg.isNeuralModel && cfg.modelType == "random" ==>
      (r.Ok? <==> Predictions(cfg.outputType, cfg.randomDraws(batch)).Ok?)
    ensures !cfg.isNeuralModel && cfg.modelType == "average" && avg.Some? ==>
      var outputs := AverageOutputs(cfg.outputType, batchSize, avg.value, N_CLASSES);
      (r.Ok? <==> outputs.Ok? && Predictions(cfg.outputType, outputs.value).Ok?)
    ensures !cfg.isNeuralModel && cfg.modelType == "probability" ==>
      (r.Ok? <==> Predictions(cfg.outputType, cfg.probabilities(weights, batch)).Ok?)
  {
    var outputs :-
      if cfg.isNeuralModel then Ok(cfg.network(weights, batch))
      else if cfg.modelType == "random" then Ok(cfg.randomDraws(batch))
      else if cfg.modelType == "average" then
        (if avg.None? then Err(NoAverageLabel) else AverageOutputs(cfg.outputType, batchSize, avg.value, N_CLASSES))
      else if cfg.modelType == "probability" then Ok(cfg.probabilities(weights, batch))
      else Err(NoOutputs);
    var preds :- Predictions(cfg.outputType, outputs);
    Ok((outputs, preds))
  }

  /** The path create_prediction_file opens. */
  function PredictionPath<W>(cfg: Config<W>, phase: string, epoch: nat): string
  {
    PathJoin(cfg.predictionPath, FileName(cfg.runName, phase, epoch, cfg.modelType))
  }

  /** Whether get_outputs_preds computes its outputs with the network, so
    * that the loss has a gradient to propagate. The random and average
    * baselines build theirs from fresh tensors, which have none. */
  predicate OutputsHaveGradient<W>(cfg: Config<W>)
  {
    cfg.isNeuralModel || cfg.modelType == "probability"
  }

  /** What the batch loop of run_epoch has produced: the sample lines written,
    * the probability rows collected, what the evaluator was fed, the weights
    * and, if a batch failed, why. */
  datatype Emission<W> = Emission(text: string, items: seq<Item>, records: seq<EvalRecord>, weights: W, failure: Option<Error>)

  /** The batch loop of run_epoch over `batches`, from weights `w0`. It stops
    * at the first batch whose outputs cannot be formed or, in the train
    * phase, whose loss has no gradient; in the train phase every completed
    * batch takes one optimiser step. */
  function Emit<W>(cfg: Config<W>, train: bool, w0: W, avg: Option<AverageLabel>, batches: seq<Batch>): Emission<W>
    decreases |batches|, 1
  {
    if batches == [] then Emission("", [], [], w0, None)
    else EmitLast(cfg, train, w0, avg, batches)
  }

  /** The batch loop over a non-empty list: its pass over the last batch
    * after all the others. */
  function EmitLast<W>(cfg: Config<W>, train: bool, w0: W, avg: Option<AverageLabel>, batches: seq<Batch>): Emission<W>
    requires batches != []
    decreases |batches|, 0
  {
    EmitBatch(cfg, train, avg, Emit(cfg, train, w0, avg, batches[..|batches| - 1]), batches[|batches| - 1])
  }

  /** One pass of the batch loop body, after the batches that produced
    * `previous`. */
  function EmitBatch<W>(cfg: Config<W>, train: bool, avg: Option<AverageLabel>, previous: Emission<W>, b: Batch): (em: Emission<W>)
    ensures previous.failure.Some? ==> em == previous
    ensures |em.records| <= |previous.records| + 1
    ensures em.failure.None? ==> |em.records| == |previous.records| + 1 && previous.failure.None?
    ensures !train ==> em.weights == previous.weights
    ensures em.failure.Some? ==> em == previous.(failure := em.failure)
    ensures train && em.failure.None? ==> OutputsHaveGradient(cfg)
    ensures em.failure.None? <==>
      previous.failure.None? && OutputsPreds(cfg, previous.weights, avg, b, |b.labels|).Ok? &&
      (!train || OutputsHaveGradient(cfg))
  {
    if previous.failure.Some? then previous
    else
      match OutputsPreds(cfg, previous.weights, avg, b, |b.labels|)
      case Err(e) => previous.(failure := Some(e))
      case Ok((outputs, preds)) =>
        if train && !OutputsHaveGradient(cfg) then previous.(failure := Some(NoGradient))
        else
          var labels := CastLabels(cfg.outputType, b.labels);
          var loss := cfg.criterion(outputs, labels);
          var w := if train then cfg.optimiserStep(previous.weights, b) else previous.weights;
          var probability := cfg.modelType == "probability";
          Emission(
            if probability then previous.text
            else previous.text + Concat(SampleLines(cfg.showFloat, b.filenames, labels, preds)),
            if probability then previous.items + ToList(outputs) else previous.items,
            previous.records + [EvalRecord(labels, preds, loss)],
            w,
            None)
  }

  /** The batch loop of run_epoch: each batch's pass in turn, until one
    * fails. */
  method EmitBatches<W>(cfg: Config<W>, train: bool, w0: W, avg: Option<AverageLabel>, batches: seq<Batch>)
    returns (em: Emission<W>)
    ensures Emit(cfg, train, w0, avg, batches) == em
  {
    em := Emission("", [], [], w0, None);
    var i := 0;
    while i < |batches| && em.failure.None?
      invariant 0 <= i <= |batches|
      invariant Emit(cfg, train, w0, avg, batches[..i]) == em
    {
      EmitStep(cfg, train, w0, avg, batches, i);
      em := EmitBatch(cfg, train, avg, em, batches[i]);
      i := i + 1;
    }
    if em.failure.Some? {
      EmitStops(cfg, train, w0, avg, batches, i);
    } else {
      assert batches[..i] == batches;
    }
  }

  /** The batch loop over the first i + 1 batches is its pass over batch i
    * after the first i. */
  lemma EmitStep<W>(cfg: Config<W>, train: bool, w0: W, avg: Option<AverageLabel>, batches: seq<Batch>, i: nat)
    requires i < |batches|
    ensures Emit(cfg, train, w0, avg, batches[..i + 1]) == EmitBatch(cfg, train, avg, Emit(cfg, train, w0, avg, batches[..i]), batches[i])
  {
    assert batches[..i + 1][..i] == batches[..i];
  }

  /** Once a batch has failed, later batches change nothing. */
  lemma {:induction false} EmitStops<W>(cfg: Config<W>, train: bool, w0: W, avg: Option<AverageLabel>, batches: seq<Batch>, k: nat)
    requires k <= |batches|
    requires Emit(cfg, train, w0, avg, batches[..k]).failure.Some?
    ensures Emit(cfg, train, w0, avg, batches) == Emit(cfg, train, w0, avg, batches[..k])
    decreases |batches| - k
  {
    if k < |batches| {
      var n := |batches| - 1;
      assert batches[..n][..k] == batches[..k];
      EmitStops(cfg, train, w0, avg, batches[..n], k);
      var previous := Emit(cfg, train, w0, avg, batches[..n]);
      assert Emit(cfg, train, w0, avg, batches) == EmitBatch(cfg, train, avg, previous, batches[n]);
    } else {
      assert batches[..k] == batches;
    }
  }

  /** The evaluator is fed one record per completed batch: one per batch
    * when no batch fails. */
  lemma {:induction false} EmitRecords<W>(cfg: Config<W>, train: bool, w0: W, avg: Option<AverageLabel>, batches: seq<Batch>)
    ensures var em := Emit(cfg, train, w0, avg, batches);
      |em.records| <= |batches| && (em.failure.None? ==> |em.records| == |batches|)
  {
    if batches != [] {
      EmitRecords(cfg, train, w0, avg, batches[..|batches| - 1]);
    }
  }

  /** Outside the train phase the batch loop never changes the weights. */
  lemma {:induction false} EmitKeepsWeights<W>(cfg: Config<W>, w0: W, avg: Option<AverageLabel>, batches: seq<Batch>)
    ensures Emit(cfg, false, w0, avg, batches).weights == w0
  {
    if batches != [] {
      EmitKeepsWeights(cfg, w0, avg, batches[..|batches| - 1]);
    }
  }

  /** For the average classification baseline, get_outputs_preds predicts
    * the average label for every sample of the batch. */
  lemma AverageOutputsPreds<W>(cfg: Config<W>, w: W, k: int, b: Batch, batchSize: nat)
    requires !cfg.isNeuralModel && cfg.modelType == "average" && cfg.outputType == Classification
    requires 0 <= k < N_CLASSES
    ensures var r := OutputsPreds(cfg, w, Some(ModeLabel(k)), b, batchSize);
      r.Ok? && r.value.1 == seq(batchSize, _ => Int(k))
  {
    AverageClassificationPredictions(batchSize, k);
  }

  /** Outside the train phase, the average classification baseline feeds
    * the evaluator, for every batch, one prediction per label, each equal to
    * the mode class. */
  lemma {:induction false} EmitAveragePredictions<W>(cfg: Config<W>, w0: W, k: int, batches: seq<Batch>)
    requires !cfg.isNeuralModel && cfg.modelType == "average" && cfg.outputType == Classification
    requires 0 <= k < N_CLASSES
    ensures var em := Emit(cfg, false, w0, Some(ModeLabel(k)), batches);
      em.failure.None? && |em.records| == |batches| &&
      forall i :: 0 <= i < |batches| ==> em.records[i].preds == seq(|batches[i].labels|, _ => Int(k))
  {
    if batches != [] {
      var n := |batches| - 1;
      EmitAveragePredictions(cfg, w0, k, batches[..n]);
      AverageRecordAppended(cfg, k, Emit(cfg, false, w0, Some(ModeLabel(k)), batches[..n]), batches[..n], batches[n]);
      LastSplit(batches);
    }
  }

  /** Outside the train phase, one more batch of the average classification
    * baseline appends one record whose predictions are all the mode class. */
  lemma AverageRecordAppended<W>(cfg: Config<W>, k: int, previous: Emission<W>, done: seq<Batch>, b: Batch)
    requires !cfg.isNeuralModel && cfg.modelType == "average" && cfg.outputType == Classification
    requires 0 <= k < N_CLASSES
    requires previous.failure.None? && |previous.records| == |done|
    requires forall i :: 0 <= i < |done| ==> previous.records[i].preds == seq(|done[i].labels|, _ => Int(k))
    ensures var em := EmitBatch(cfg, false, Some(ModeLabel(k)), previous, b);
      var batches := done + [b];
      em.failure.None? && |em.records| == |batches| &&
      forall i :: 0 <= i < |batches| ==> em.records[i].preds == seq(|batches[i].labels|, _ => Int(k))
  {
    AverageOutputsPreds(cfg, previous.weights, k, b, |b.labels|);
    var em := EmitBatch(cfg, false, Some(ModeLabel(k)), previous, b);
    var batches := done + [b];
    assert em.records == previous.records + [em.records[|done|]];
    forall i | 0 <= i < |batches|
      ensures em.records[i].preds == seq(|batches[i].labels|, _ => Int(k))
    {
      if i < |done| {
        assert em.records[i] == previous.records[i];
      }
    }
  }

  /** In the train phase, a batch loop over outputs without a gradient (the
    * random and average baselines) stops at its first batch: either its
    * outputs cannot be formed or `loss.backward()` raises. Nothing is
    * written, nothing is fed to the evaluator and no optimiser step is
    * taken. */
  lemma {:induction false} TrainWithoutGradientFails<W>(cfg: Config<W>, w0: W, avg: Option<AverageLabel>, batches: seq<Batch>)
    requires !OutputsHaveGradient(cfg) && batches != []
    ensures var em := Emit(cfg, true, w0, avg, batches);
      em == Emission("", [], [], w0, em.failure) && em.failure.Some? &&
      (OutputsPreds(cfg, w0, avg, batches[0], |batches[0].labels|).Ok? ==> em.failure == Some(NoGradient))
  {
    var n := |batches| - 1;
    assert Emit(cfg, true, w0, avg, batches) == EmitLast(cfg, true, w0, avg, batches);
    if n == 0 {
      assert batches[..n] == [];
      assert Emit(cfg, true, w0, avg, batches[..n]) == Emission("", [], [], w0, None);
    } else {
      TrainWithoutGradientFails(cfg, w0, avg, batches[..n]);
      assert batches[..n][0] == batches[0];
    }
  }

  /** A non-empty sequence is its prefix followed by its last element. */
  lemma LastSplit<T>(s: seq<T>)
    requires s != []
    ensures s[..|s| - 1] + [s[|s| - 1]] == s
  {
  }

  /** The weights after the train phase's optimiser steps on `batches`, one
    * per batch in order; outside the train phase the weights stay `w0`. */
  function WeightsAfter<W>(cfg: Config<W>, train: bool, w0: W, batches: seq<Batch>): W
  {
    if batches == [] || !train then w0
    else cfg.optimiserStep(WeightsAfter(cfg, train, w0, batches[..|batches| - 1]), batches[|batches| - 1])
  }

  /** `record` is what the evaluator is fed for batch `b` run with weights
    * `w`: the cast labels, the predictions of get_outputs_preds, and the
    * criterion's loss on its outputs. */
  ghost predicate Fed<W>(cfg: Config<W>, w: W, avg: Option<AverageLabel>, b: Batch, record: EvalRecord)
  {
    var op := OutputsPreds(cfg, w, avg, b, |b.labels|);
    var labels := CastLabels(cfg.outputType, b.labels);
    op.Ok? && record == EvalRecord(labels, op.value.1, cfg.criterion(op.value.0, labels))
  }

  /** A failure-free pass over `done`: one record per batch, each fed with
    * the weights reached before its batch, and the weights after them all. */
  ghost predicate FedFrom<W>(cfg: Config<W>, train: bool, w0: W, avg: Option<AverageLabel>, done: seq<Batch>, em: Emission<W>)
  {
    em.failure.None? && |em.records| == |done| && em.weights == WeightsAfter(cfg, train, w0, done) &&
    forall i :: 0 <= i < |done| ==> Fed(cfg, WeightsAfter(cfg, train, w0, done[..i]), avg, done[i], em.records[i])
  }

  /** One more failure-free batch extends a failure-free pass. */
  lemma FedAppended<W>(cfg: Config<W>, train: bool, w0: W, avg: Option<AverageLabel>, done: seq<Batch>,
                       previous: Emission<W>, b: Batch)
    requires FedFrom(cfg, train, w0, avg, done, previous)
    ensures var em := EmitBatch(cfg, train, avg, previous, b);
      em.failure.None? ==> FedFrom(cfg, train, w0, avg, done + [b], em)
  {
    var em := EmitBatch(cfg, train, avg, previous, b);
    var batches := done + [b];
    if em.failure.None? {
      assert batches[..|done|] == done;
      assert em.records == previous.records + [em.records[|done|]];
      forall i | 0 <= i < |batches|
        ensures Fed(cfg, WeightsAfter(cfg, train, w0, batches[..i]), avg, batches[i], em.records[i])
      {
        if i < |done| {
          assert batches[..i] == done[..i];
          assert em.records[i] == previous.records[i];
        }
      }
    }
  }

  /** When no batch fails, the evaluator is fed one record per batch, with
    * the weights reached by the optimiser steps on the batches before it,
    * and the loop ends with the weights after all of them. */
  lemma {:induction false} EmitFeedsEvaluator<W>(cfg: Config<W>, train: bool, w0: W, avg: Option<AverageLabel>, batches: seq<Batch>)
    ensures var em := Emit(cfg, train, w0, avg, batches);
      em.failure.None? ==> FedFrom(cfg, train, w0, avg, batches, em)
  {
    if batches != [] {
      var n := |batches| - 1;
      var previous := Emit(cfg, train, w0, avg, batches[..n]);
      var em := Emit(cfg, train, w0, avg, batches);
      assert em == EmitLast(cfg, train, w0, avg, batches);
      if em.failure.None? {
        EmitFeedsEvaluator(cfg, train, w0, avg, batches[..n]);
        FedAppended(cfg, train, w0, avg, batches[..n], previous, batches[n]);
        LastSplit(batches);
      }
    }
  }

  /** `formed` holds of every batch, given the batches before it. */
  ghost predicate AllFormed(formed: (seq<Batch>, Batch) -> bool, batches: seq<Batch>)
  {
    forall i :: 0 <= i < |batches| ==> formed(batches[..i], batches[i])
  }

  /** AllFormed of a non-empty list is AllFormed of all but the last batch,
    * and the last batch formed after them. */
  lemma FormedSplit(formed: (seq<Batch>, Batch) -> bool, batches: seq<Batch>)
    requires batches != []
    ensures var n := |batches| - 1;
      AllFormed(formed, batches) <==> AllFormed(formed, batches[..n]) && formed(batches[..n], batches[n])
  {
    var n := |batches| - 1;
    forall i | 0 <= i < n
      ensures batches[..n][..i] == batches[..i] && batches[..n][i] == batches[i]
    {
    }
  }

  /** Every batch's outputs and predictions can be formed with the weights
    * the optimiser steps on the batches before it reached. */
  ghost predicate BatchesFormed<W>(cfg: Config<W>, train: bool, w0: W, avg: Option<AverageLabel>, batches: seq<Batch>)
  {
    AllFormed(FormedAfter(cfg, train, w0, avg), batches)
  }

  /** Whether batch `b` can be formed after the batches `done`. */
  function FormedAfter<W>(cfg: Config<W>, train: bool, w0: W, avg: Option<AverageLabel>): (seq<Batch>, Batch) -> bool
  {
    (done: seq<Batch>, b: Batch) => OutputsPreds(cfg, WeightsAfter(cfg, train, w0, done), avg, b, |b.labels|).Ok?
  }

  /** The batch loop of run_epoch completes exactly when every batch's
    * outputs and predictions can be formed, with the weights reached before
    * it, and, in the train phase over a non-empty loader, the loss has a
    * gradient. */
  lemma {:induction false} EmitSucceeds<W>(cfg: Config<W>, train: bool, w0: W, avg: Option<AverageLabel>, batches: seq<Batch>)
    ensures Emit(cfg, train, w0, avg, batches).failure.None? <==>
      (batches == [] || !train || OutputsHaveGradient(cfg)) && BatchesFormed(cfg, train, w0, avg, batches)
  {
    if batches != [] {
      var n := |batches| - 1;
      assert Emit(cfg, train, w0, avg, batches) == EmitLast(cfg, train, w0, avg, batches);
      EmitSucceeds(cfg, train, w0, avg, batches[..n]);
      EmitFeedsEvaluator(cfg, train, w0, avg, batches[..n]);
      FormedSplit(FormedAfter(cfg, train, w0, avg), batches);
    }
  }

  /** A regression model whose outputs come from the network or from random
    * draws completes the batch loop of every phase it has a gradient for:
    * clamping never fails. */
  lemma RegressionEpochSucceeds<W>(cfg: Config<W>, train: bool, w0: W, avg: Option<AverageLabel>, batches: seq<Batch>)
    requires cfg.outputType == Regression
    requires cfg.isNeuralModel || cfg.modelType == "random" || cfg.modelType == "probability"
    requires !train || OutputsHaveGradient(cfg)
    ensures Emit(cfg, train, w0, avg, batches).failure.None?
  {
    forall i | 0 <= i < |batches|
      ensures OutputsPreds(cfg, WeightsAfter(cfg, train, w0, batches[..i]), avg, batches[i], |batches[i].labels|).Ok?
    {
    }
    EmitSucceeds(cfg, train, w0, avg, batches);
  }

  /** The sample lines of each batch, from its file names and the labels and
    * predictions of its record. */
  function BatchTexts(showFloat: real -> string, batches: seq<Batch>, records: seq<EvalRecord>): (texts: seq<string>)
    requires |records| >= |batches|
    ensures |texts| == |batches|
  {
    seq(|batches|, i requires 0 <= i < |batches| =>
      Concat(SampleLines(showFloat, batches[i].filenames, records[i].labels, records[i].preds)))
  }

  /** One more failure-free batch appends its sample lines to the text. */
  lemma TextAppended<W>(cfg: Config<W>, train: bool, avg: Option<AverageLabel>, done: seq<Batch>,
                        previous: Emission<W>, b: Batch)
    requires cfg.modelType != "probability"
    requires previous.failure.None? && |previous.records| == |done|
    requires previous.text == Concat(BatchTexts(cfg.showFloat, done, previous.records))
    ensures var em := EmitBatch(cfg, train, avg, previous, b);
      em.failure.None? ==>
        |em.records| == |done + [b]| && em.text == Concat(BatchTexts(cfg.showFloat, done + [b], em.records))
  {
    var em := EmitBatch(cfg, train, avg, previous, b);
    if em.failure.None? {
      var batches := done + [b];
      var last := Concat(SampleLines(cfg.showFloat, b.filenames, em.records[|done|].labels, em.records[|done|].preds));
      assert BatchTexts(cfg.showFloat, batches, em.records) == BatchTexts(cfg.showFloat, done, previous.records) + [last];
      ConcatAppend(BatchTexts(cfg.showFloat, done, previous.records), last);
    }
  }

  /** When no batch fails, the text run_epoch writes after the header is
    * each batch's sample lines, in batch order. */
  lemma {:induction false} EmitText<W>(cfg: Config<W>, train: bool, w0: W, avg: Option<AverageLabel>, batches: seq<Batch>)
    requires cfg.modelType != "probability"
    ensures var em := Emit(cfg, train, w0, avg, batches);
      em.failure.None? ==>
        |em.records| == |batches| && em.text == Concat(BatchTexts(cfg.showFloat, batches, em.records))
  {
    if batches != [] {
      var n := |batches| - 1;
      var previous := Emit(cfg, train, w0, avg, batches[..n]);
      var em := Emit(cfg, train, w0, avg, batches);
      assert em == EmitLast(cfg, train, w0, avg, batches);
      if em.failure.None? {
        EmitText(cfg, train, w0, avg, batches[..n]);
        TextAppended(cfg, train, avg, batches[..n], previous, batches[n]);
        LastSplit(batches);
      }
    }
  }

  /** The sample lines run_epoch writes for batch `b` run with weights `w`:
    * its file names, its cast labels and its predictions; a batch whose
    * outputs cannot be formed writes none. */
  function SampleText<W>(cfg: Config<W>, w: W, avg: Option<AverageLabel>, b: Batch): string
  {
    match OutputsPreds(cfg, w, avg, b, |b.labels|)
    case Err(_) => ""
    case Ok((_, preds)) => Concat(SampleLines(cfg.showFloat, b.filenames, CastLabels(cfg.outputType, b.labels), preds))
  }

  /** When no batch fails, the text after the header is, batch by batch in
    * order, the file names, cast labels and predictions of each batch, run
    * with the weights the optimiser steps on the batches before it reached. */
  lemma EmitSampleText<W>(cfg: Config<W>, train: bool, w0: W, avg: Option<AverageLabel>, batches: seq<Batch>)
    requires cfg.modelType != "probability"
    ensures var em := Emit(cfg, train, w0, avg, batches);
      em.failure.None? ==>
        em.text == Concat(seq(|batches|, i requires 0 <= i < |batches| =>
                                SampleText(cfg, WeightsAfter(cfg, train, w0, batches[..i]), avg, batches[i])))
  {
    var em := Emit(cfg, train, w0, avg, batches);
    if em.failure.None? {
      EmitText(cfg, train, w0, avg, batches);
      EmitFeedsEvaluator(cfg, train, w0, avg, batches);
      FedTexts(cfg, train, w0, avg, batches, em.records);
    }
  }

  /** Records fed from the batches give each batch's SampleText at the
    * weights reached before it. */
  lemma FedTexts<W>(cfg: Config<W>, train: bool, w0: W, avg: Option<AverageLabel>, batches: seq<Batch>,
                    records: seq<EvalRecord>)
    requires |records| == |batches|
    requires forall i :: 0 <= i < |batches| ==> Fed(cfg, WeightsAfter(cfg, train, w0, batches[..i]), avg, batches[i], records[i])
    ensures BatchTexts(cfg.showFloat, batches, records) ==
      seq(|batches|, i requires 0 <= i < |batches| => SampleText(cfg, WeightsAfter(cfg, train, w0, batches[..i]), avg, batches[i]))
  {
    var texts := seq(|batches|, i requires 0 <= i < |batches| =>
                       SampleText(cfg, WeightsAfter(cfg, train, w0, batches[..i]), avg, batches[i]));
    forall i | 0 <= i < |batches|
      ensures BatchTexts(cfg.showFloat, batches, records)[i] == texts[i]
    {
      assert Fed(cfg, WeightsAfter(cfg, train, w0, batches[..i]), avg, batches[i], records[i]);
    }
  }

  /** run_epoch as a function of the trainer's state: the new state and
    * either (epoch loss, selected metric) or the error that ended it. */
  function RunEpochSpec<W>(cfg: Config<W>, s: State<W>, epoch: nat, batches: seq<Batch>, phase: string,
                           trainLabels: Option<seq<real>>, selectionMetric: string): (r: (State<W>, Result<(real, real)>))
    ensures r.0.checkpoint == s.checkpoint
    ensures r.1.Ok? ==> phase in PHASES && r.0.trainingMode == (phase == "train")
  {
    if phase !in PHASES then (s, Err(PhaseNotAccepted(phase)))
    else
      var path := PredictionPath(cfg, phase, epoch);
      var started := s.(trainingMode := phase == "train", files := s.files[path := OpenedFile(cfg)]);
      match EpochAverage(cfg, s.averageLabel, trainLabels)
      case Err(e) => (started, Err(e))
      case Ok(current) =>
        EpochBatches(cfg, started.(averageLabel := current), s.files, path, epoch, batches, phase == "train", selectionMetric)
  }

  /** run_epoch from its batch loop on, in state `s` whose average label is
    * set; `others` are the prediction files other than the one at `path`
    * that this epoch writes. */
  function EpochBatches<W>(cfg: Config<W>, s: State<W>, others: map<string, FileContent>, path: string, epoch: nat,
                           batches: seq<Batch>, train: bool, selectionMetric: string): (r: (State<W>, Result<(real, real)>))
    ensures r.0.checkpoint == s.checkpoint && r.0.trainingMode == s.trainingMode && r.0.averageLabel == s.averageLabel
  {
    var em := Emit(cfg, train, s.weights, s.averageLabel, batches);
    var looped := s.(
      weights := em.weights,
      optimizerSteps := s.optimizerSteps + (if train then |em.records| else 0),
      files := others[path := WrittenFile(cfg, em.text)]);
    if em.failure.Some? then (looped, Err(em.failure.value))
    else
      match EpochResult(cfg, em, epoch, selectionMetric)
      case Err(e) => (looped, Err(e))
      case Ok((closed, result)) => (looped.(files := others[path := closed]), Ok(result))
  }

  /** The prediction file as create_prediction_file leaves it. */
  function OpenedFile<W>(cfg: Config<W>): FileContent
  {
    if cfg.modelType == "probability" then BinaryFile(None) else TextFile(HEADER)
  }

  /** The prediction file once the batch loop has written `text`. */
  function WrittenFile<W>(cfg: Config<W>, text: string): FileContent
  {
    if cfg.modelType == "probability" then BinaryFile(None) else TextFile(HEADER + text)
  }

  /** The average label an epoch runs with: for the average baseline the
    * one computed from the training split, otherwise the one already set. */
  function EpochAverage<W>(cfg: Config<W>, current: Option<AverageLabel>, trainLabels: Option<seq<real>>)
    : Result<Option<AverageLabel>>
  {
    if cfg.modelType == "average" then
      var avg :- CalculateAverageLabel(cfg.outputType, trainLabels);
      Ok(Some(avg))
    else Ok(current)
  }

  /** The end of a completed epoch: the evaluator's loss, the selected
    * metric, and the closed prediction file (the pickled output rows, or
    * the sample lines followed by the trailer line). */
  function EpochResult<W>(cfg: Config<W>, em: Emission<W>, epoch: nat, selectionMetric: string)
    : Result<(FileContent, (real, real))>
  {
    var evaluation := cfg.rollingEval(em.records);
    var sel :- ParseSelectionMetric(selectionMetric);
    var metric := SelectedValue(sel, evaluation.1);
    var closed := if cfg.modelType == "probability" then BinaryFile(Some(em.items))
                  else TextFile(HEADER + em.text + Trailer(epoch, sel, metric));
    Ok((closed, (evaluation.0, metric)))
  }

  /** What an accepted epoch produces. With no average label it fails
    * before the loop, leaving the freshly opened file. When a batch fails,
    * or after the loop when the selection metric does not parse, it fails
    * with the file holding the header and the lines written so far and no
    * trailer. Otherwise it returns the evaluator's loss and the selected
    * metric, and closes the file with the trailer (or the pickled outputs).
    * No batch fails exactly when every batch's outputs and predictions can
    * be formed with the weights reached before it and, in the train phase
    * over a non-empty loader, the loss has a gradient. */
  lemma RunEpochOutcome<W>(cfg: Config<W>, s: State<W>, epoch: nat, batches: seq<Batch>, phase: string,
                           trainLabels: Option<seq<real>>, selectionMetric: string)
    requires phase in PHASES
    ensures var (s', r) := RunEpochSpec(cfg, s, epoch, batches, phase, trainLabels, selectionMetric);
      var path := PredictionPath(cfg, phase, epoch);
      var average := EpochAverage(cfg, s.averageLabel, trainLabels);
      if average.Err? then r == Err(average.error) && s'.files == s.files[path := OpenedFile(cfg)]
      else
        var em := Emit(cfg, phase == "train", s.weights, average.value, batches);
        var sel := ParseSelectionMetric(selectionMetric);
        var evaluation := cfg.rollingEval(em.records);
        s'.averageLabel == average.value && s'.weights == em.weights &&
        (em.failure.None? <==>
          (batches == [] || phase != "train" || OutputsHaveGradient(cfg)) &&
          BatchesFormed(cfg, phase == "train", s.weights, average.value, batches)) &&
        if em.failure.Some? then r == Err(em.failure.value) && s'.files == s.files[path := WrittenFile(cfg, em.text)]
        else if sel.Err? then r == Err(sel.error) && s'.files == s.files[path := WrittenFile(cfg, em.text)]
        else
          var metric := SelectedValue(sel.value, evaluation.1);
          r == Ok((evaluation.0, metric)) &&
          s'.files == s.files[path := if cfg.modelType == "probability" then BinaryFile(Some(em.items))
                                      else TextFile(HEADER + em.text + Trailer(epoch, sel.value, metric))]
  {
    var average := EpochAverage(cfg, s.averageLabel, trainLabels);
    if average.Ok? {
      EmitSucceeds(cfg, phase == "train", s.weights, average.value, batches);
    }
  }

  /** A phase other than train, validation and test is refused before
    * anything changes. */
  lemma RunEpochRejectsPhase<W>(cfg: Config<W>, s: State<W>, epoch: nat, batches: seq<Batch>, phase: string,
                                trainLabels: Option<seq<real>>, selectionMetric: string)
    requires phase !in PHASES
    ensures RunEpochSpec(cfg, s, epoch, batches, phase, trainLabels, selectionMetric) == (s, Err(PhaseNotAccepted(phase)))
  {
  }

  /** Validation and test take no optimiser step and leave the weights as
    * they were; the train phase takes one step per batch of a completed
    * epoch and leaves the model in training mode. */
  lemma RunEpochSteps<W>(cfg: Config<W>, s: State<W>, epoch: nat, batches: seq<Batch>, phase: string,
                         trainLabels: Option<seq<real>>, selectionMetric: string)
    requires phase in PHASES
    ensures var (s', r) := RunEpochSpec(cfg, s, epoch, batches, phase, trainLabels, selectionMetric);
      s'.trainingMode == (phase == "train") &&
      (phase != "train" ==> s'.weights == s.weights && s'.optimizerSteps == s.optimizerSteps) &&
      (phase == "train" && r.Ok? ==> s'.optimizerSteps == s.optimizerSteps + |batches|)
  {
    var current := EpochAverage(cfg, s.averageLabel, trainLabels);
    if current.Ok? {
      EmitKeepsWeights(cfg, s.weights, current.value, batches);
      EmitRecords(cfg, phase == "train", s.weights, current.value, batches);
    }
  }

  /** Validation and test behave identically: the same result and the same
    * file contents, under their own file names. */
  lemma ValidationMatchesTest<W>(cfg: Config<W>, s: State<W>, epoch: nat, batches: seq<Batch>,
                                 trainLabels: Option<seq<real>>, selectionMetric: string)
    ensures var (sv, rv) := RunEpochSpec(cfg, s, epoch, batches, "validation", trainLabels, selectionMetric);
      var (st, rt) := RunEpochSpec(cfg, s, epoch, batches, "test", trainLabels, selectionMetric);
      rv == rt &&
      sv.weights == st.weights && sv.averageLabel == st.averageLabel && sv.optimizerSteps == st.optimizerSteps &&
      sv.files[PredictionPath(cfg, "validation", epoch)] == st.files[PredictionPath(cfg, "test", epoch)]
  {
    RunEpochOutcome(cfg, s, epoch, batches, "validation", trainLabels, selectionMetric);
    RunEpochOutcome(cfg, s, epoch, batches, "test", trainLabels, selectionMetric);
  }

  /** The average baseline computes its average label from the training
    * split it is handed; run_epoch called without one (as train calls it) fails. */
  lemma AverageNeedsTrainingSplit<W>(cfg: Config<W>, s: State<W>, epoch: nat, batches: seq<Batch>, phase: string,
                                     selectionMetric: string)
    requires cfg.modelType == "average" && phase in PHASES
    ensures RunEpochSpec(cfg, s, epoch, batches, phase, None, selectionMetric).1 == Err(NoTrainingSet)
  {
  }

  /** The average classification baseline stores the mode class of the
    * training labels. Outside the train phase it then predicts that class
    * for every sample; in the train phase its first batch fails, because
    * its outputs have no gradient, and nothing is fed to the evaluator. */
  lemma AverageEpochPredictsMode<W>(cfg: Config<W>, s: State<W>, epoch: nat, batches: seq<Batch>, phase: string,
                                    trainLabels: seq<real>, selectionMetric: string)
    requires !cfg.isNeuralModel && cfg.modelType == "average" && cfg.outputType == Classification
    requires phase in PHASES && |trainLabels| > 0
    requires 0 <= Truncate(Mode(trainLabels)) < N_CLASSES
    ensures var k := Truncate(Mode(trainLabels));
      var (s', r) := RunEpochSpec(cfg, s, epoch, batches, phase, Some(trainLabels), selectionMetric);
      var em := Emit(cfg, phase == "train", s.weights, Some(ModeLabel(k)), batches);
      s'.averageLabel == Some(ModeLabel(k)) &&
      (phase != "train" ==>
        em.failure.None? && |em.records| == |batches| &&
        forall i :: 0 <= i < |batches| ==> em.records[i].preds == seq(|batches[i].labels|, _ => Int(k))) &&
      (phase == "train" && batches != [] ==> r == Err(NoGradient) && em.records == [])
  {
    var k := Truncate(Mode(trainLabels));
    assert CalculateAverageLabel(Classification, Some(trainLabels)) == Ok(ModeLabel(k));
    assert EpochAverage(cfg, s.averageLabel, Some(trainLabels)) == Ok(Some(ModeLabel(k)));
    if phase != "train" {
      EmitAveragePredictions(cfg, s.weights, k, batches);
    } else if batches != [] {
      AverageOutputsPreds(cfg, s.weights, k, batches[0], |batches[0].labels|);
      TrainWithoutGradientFails(cfg, s.weights, Some(ModeLabel(k)), batches);
    }
  }

  /** A train-phase epoch of the random or average baseline over a
    * non-empty loader fails: its prediction file keeps only the header, and
    * the weights and the optimiser step count are unchanged. */
  lemma BaselineTrainEpochFails<W>(cfg: Config<W>, s: State<W>, epoch: nat, batches: seq<Batch>,
                                   trainLabels: Option<seq<real>>, selectionMetric: string)
    requires !OutputsHaveGradient(cfg) && batches != []
    ensures var (s', r) := RunEpochSpec(cfg, s, epoch, batches, "train", trainLabels, selectionMetric);
      r.Err? && s'.weights == s.weights && s'.optimizerSteps == s.optimizerSteps &&
      s'.files == s.files[PredictionPath(cfg, "train", epoch) := TextFile(HEADER)]
  {
    var average := EpochAverage(cfg, s.averageLabel, trainLabels);
    if average.Ok? {
      TrainWithoutGradientFails(cfg, s.weights, average.value, batches);
      assert HEADER + "" == HEADER;
    }
  }

  /** The inference batch loop: the prediction lines written, and the error
    * that stopped it, if any. */
  function InferenceEmit<W>(cfg: Config<W>, w: W, avg: Option<AverageLabel>, batches: seq<Batch>): (string, Option<Error>)
    decreases |batches|, 1
  {
    if batches == [] then ("", None)
    else InferenceLast(cfg, w, avg, batches)
  }

  /** The inference loop over a non-empty list: its pass over the last
    * batch after all the others. */
  function InferenceLast<W>(cfg: Config<W>, w: W, avg: Option<AverageLabel>, batches: seq<Batch>): (string, Option<Error>)
    requires batches != []
    decreases |batches|, 0
  {
    InferenceBatch(cfg, w, avg, InferenceEmit(cfg, w, avg, batches[..|batches| - 1]), batches[|batches| - 1])
  }

  /** One pass of the inference loop body, after the batches that wrote
    * `previous`: a failing batch writes nothing more. */
  function InferenceBatch<W>(cfg: Config<W>, w: W, avg: Option<AverageLabel>, previous: (string, Option<Error>), b: Batch)
    : (next: (string, Option<Error>))
    ensures previous.1.Some? ==> next == previous
    ensures next.1.Some? ==> next.0 == previous.0
    ensures next.1.None? <==> previous.1.None? && OutputsPreds(cfg, w, avg, b, |b.images|).Ok?
  {
    if previous.1.Some? then previous
    else
      match OutputsPreds(cfg, w, avg, b, |b.images|)
      case Err(e) => (previous.0, Some(e))
      case Ok((_, preds)) => (previous.0 + Concat(InferenceLines(cfg.showFloat, b.filenames, preds)), None)
  }

  /** The inference loop over the first i + 1 batches is its pass over
    * batch i after the first i. */
  lemma InferenceStep<W>(cfg: Config<W>, w: W, avg: Option<AverageLabel>, batches: seq<Batch>, i: nat)
    requires i < |batches|
    ensures InferenceEmit(cfg, w, avg, batches[..i + 1]) == InferenceBatch(cfg, w, avg, InferenceEmit(cfg, w, avg, batches[..i]), batches[i])
  {
    assert batches[..i + 1][..i] == batches[..i];
  }

  /** Once an inference batch has failed, later batches write nothing. */
  lemma {:induction false} InferenceEmitStops<W>(cfg: Config<W>, w: W, avg: Option<AverageLabel>, batches: seq<Batch>, k: nat)
    requires k <= |batches|
    requires InferenceEmit(cfg, w, avg, batches[..k]).1.Some?
    ensures InferenceEmit(cfg, w, avg, batches) == InferenceEmit(cfg, w, avg, batches[..k])
    decreases |batches| - k
  {
    if k < |batches| {
      var n := |batches| - 1;
      assert batches[..n][..k] == batches[..k];
      InferenceEmitStops(cfg, w, avg, batches[..n], k);
    } else {
      assert batches[..k] == batches;
    }
  }

  /** The prediction lines inference writes for one batch; a batch whose
    * outputs cannot be formed writes none. */
  function InferenceBatchText<W>(cfg: Config<W>, w: W, avg: Option<AverageLabel>, b: Batch): string
  {
    match OutputsPreds(cfg, w, avg, b, |b.images|)
    case Err(_) => ""
    case Ok((_, preds)) => Concat(InferenceLines(cfg.showFloat, b.filenames, preds))
  }

  /** The prediction lines of each batch, in batch order. */
  function InferenceTexts<W>(cfg: Config<W>, w: W, avg: Option<AverageLabel>, batches: seq<Batch>): (texts: seq<string>)
    ensures |texts| == |batches|
  {
    seq(|batches|, i requires 0 <= i < |batches| => InferenceBatchText(cfg, w, avg, batches[i]))
  }

  /** When no batch fails, every batch's outputs were formed, and the text
    * inference writes is each batch's prediction lines in batch order. */
  lemma {:induction false} InferenceText<W>(cfg: Config<W>, w: W, avg: Option<AverageLabel>, batches: seq<Batch>)
    ensures var (text, failure) := InferenceEmit(cfg, w, avg, batches);
      failure.None? ==>
        (forall i :: 0 <= i < |batches| ==> OutputsPreds(cfg, w, avg, batches[i], |batches[i].images|).Ok?) &&
        text == Concat(InferenceTexts(cfg, w, avg, batches))
  {
    if batches != [] {
      var n := |batches| - 1;
      var previous := InferenceEmit(cfg, w, avg, batches[..n]);
      var next := InferenceEmit(cfg, w, avg, batches);
      assert next == InferenceLast(cfg, w, avg, batches);
      if next.1.None? {
        InferenceText(cfg, w, avg, batches[..n]);
        InferenceTextAppended(cfg, w, avg, batches[..n], previous, batches[n]);
        LastSplit(batches);
      }
    }
  }

  /** The inference loop completes exactly when every batch's outputs and
    * predictions can be formed. */
  lemma InferenceSucceeds<W>(cfg: Config<W>, w: W, avg: Option<AverageLabel>, batches: seq<Batch>)
    ensures InferenceEmit(cfg, w, avg, batches).1.None? <==>
      forall i :: 0 <= i < |batches| ==> OutputsPreds(cfg, w, avg, batches[i], |batches[i].images|).Ok?
  {
    InferenceFormedAll(cfg, w, avg, batches);
    assert AllFormed(InferenceFormed(cfg, w, avg), batches) <==>
      forall i :: 0 <= i < |batches| ==> OutputsPreds(cfg, w, avg, batches[i], |batches[i].images|).Ok?;
  }

  /** Whether inference can form batch `b`; the batches before it do not
    * matter, as the weights stay fixed. */
  function InferenceFormed<W>(cfg: Config<W>, w: W, avg: Option<AverageLabel>): (seq<Batch>, Batch) -> bool
  {
    (done: seq<Batch>, b: Batch) => OutputsPreds(cfg, w, avg, b, |b.images|).Ok?
  }

  /** InferenceSucceeds, by induction over the batches. */
  lemma {:induction false} InferenceFormedAll<W>(cfg: Config<W>, w: W, avg: Option<AverageLabel>, batches: seq<Batch>)
    ensures InferenceEmit(cfg, w, avg, batches).1.None? <==> AllFormed(InferenceFormed(cfg, w, avg), batches)
  {
    if batches != [] {
      var n := |batches| - 1;
      assert InferenceEmit(cfg, w, avg, batches) == InferenceLast(cfg, w, avg, batches);
      InferenceFormedAll(cfg, w, avg, batches[..n]);
      FormedSplit(InferenceFormed(cfg, w, avg), batches);
    }
  }

  /** A regression model whose outputs come from the network or from random
    * draws completes the inference loop: clamping never fails. */
  lemma RegressionInferenceSucceeds<W>(cfg: Config<W>, w: W, avg: Option<AverageLabel>, batches: seq<Batch>)
    requires cfg.outputType == Regression
    requires cfg.isNeuralModel || cfg.modelType == "random" || cfg.modelType == "probability"
    ensures InferenceEmit(cfg, w, avg, batches).1.None?
  {
    forall i | 0 <= i < |batches|
      ensures OutputsPreds(cfg, w, avg, batches[i], |batches[i].images|).Ok?
    {
    }
    InferenceSucceeds(cfg, w, avg, batches);
  }

  /** One more inference batch that does not fail appends its prediction
    * lines to the text. */
  lemma InferenceTextAppended<W>(cfg: Config<W>, w: W, avg: Option<AverageLabel>, done: seq<Batch>,
                                 previous: (string, Option<Error>), b: Batch)
    requires previous.1.None?
    requires forall i :: 0 <= i < |done| ==> OutputsPreds(cfg, w, avg, done[i], |done[i].images|).Ok?
    requires previous.0 == Concat(InferenceTexts(cfg, w, avg, done))
    ensures var next := InferenceBatch(cfg, w, avg, previous, b);
      var batches := done + [b];
      next.1.None? ==>
        (forall i :: 0 <= i < |batches| ==> OutputsPreds(cfg, w, avg, batches[i], |batches[i].images|).Ok?) &&
        next.0 == Concat(InferenceTexts(cfg, w, avg, batches))
  {
    var next := InferenceBatch(cfg, w, avg, previous, b);
    var batches := done + [b];
    if next.1.None? {
      var texts := InferenceTexts(cfg, w, avg, done);
      var last := InferenceBatchText(cfg, w, avg, b);
      forall i | 0 <= i < |batches|
        ensures OutputsPreds(cfg, w, avg, batches[i], |batches[i].images|).Ok?
        ensures InferenceTexts(cfg, w, avg, batches)[i] == (texts + [last])[i]
      {
        if i < |done| {
          assert batches[i] == done[i];
        }
      }
      assert InferenceTexts(cfg, w, avg, batches) == texts + [last];
      ConcatAppend(texts, last);
    }
  }

  /** The weights inference runs with: a learned model reloads the
    * checkpoint, a statistical one keeps its own. */
  function InferenceWeights<W>(cfg: Config<W>, s: State<W>): Result<W>
  {
    if cfg.isStatisticalModel then Ok(s.weights)
    else if s.checkpoint.None? then Err(MissingCheckpoint)
    else Ok(s.checkpoint.value)
  }

  /** inference as a function of the trainer's state. A learned model first
    * reloads the checkpoint; a statistical one has the training split's
    * labels instead. The probability model fails at the second header line,
    * which is text written to a binary file. */
  function InferenceSpec<W>(cfg: Config<W>, s: State<W>, batches: seq<Batch>, trainLabels: seq<real>): (State<W>, Result<()>)
  {
    match InferenceWeights(cfg, s)
    case Err(e) => (s, Err(e))
    case Ok(w) =>
      var path := PredictionPath(cfg, "inference", 1);
      var loaded := s.(weights := w, trainingMode := false, files := s.files[path := OpenedFile(cfg)]);
      if cfg.modelType == "probability" then (loaded, Err(TextToBinaryFile))
      else
        var headed := loaded.(files := s.files[path := TextFile(HEADER + INFERENCE_HEADER)]);
        match EpochAverage(cfg, s.averageLabel, if cfg.isStatisticalModel then Some(trainLabels) else None)
        case Err(e) => (headed, Err(e))
        case Ok(current) =>
          var (text, failure) := InferenceEmit(cfg, w, current, batches);
          var written := headed.(averageLabel := current, files := s.files[path := TextFile(HEADER + INFERENCE_HEADER + text)]);
          (written, if failure.Some? then Err(failure.value) else Ok(()))
  }

  /** What inference produces. Without weights to run it fails and changes
    * nothing; the probability model fails at the second header line; with
    * no average label it fails after both headers. Otherwise the file holds
    * both headers and then the prediction lines of the batches, and
    * inference succeeds iff no batch fails, that is iff every batch's
    * outputs and predictions can be formed; then those lines are every
    * batch's, in order. */
  lemma InferenceOutcome<W>(cfg: Config<W>, s: State<W>, batches: seq<Batch>, trainLabels: seq<real>)
    ensures var (s', r) := InferenceSpec(cfg, s, batches, trainLabels);
      var path := PredictionPath(cfg, "inference", 1);
      var w := InferenceWeights(cfg, s);
      if w.Err? then s' == s && r == Err(w.error)
      else
        s'.weights == w.value && !s'.trainingMode && s'.checkpoint == s.checkpoint &&
        if cfg.modelType == "probability" then r == Err(TextToBinaryFile) && s'.files == s.files[path := BinaryFile(None)]
        else
          var average := EpochAverage(cfg, s.averageLabel, if cfg.isStatisticalModel then Some(trainLabels) else None);
          if average.Err? then r == Err(average.error) && s'.files == s.files[path := TextFile(HEADER + INFERENCE_HEADER)]
          else
            var (text, failure) := InferenceEmit(cfg, w.value, average.value, batches);
            s'.files == s.files[path := TextFile(HEADER + INFERENCE_HEADER + text)] &&
            (r.Ok? <==> failure.None?) &&
            (r.Ok? <==> forall i :: 0 <= i < |batches| ==>
               OutputsPreds(cfg, w.value, average.value, batches[i], |batches[i].images|).Ok?) &&
            (r.Ok? ==>
              (forall i :: 0 <= i < |batches| ==> OutputsPreds(cfg, w.value, average.value, batches[i], |batches[i].images|).Ok?) &&
              text == Concat(InferenceTexts(cfg, w.value, average.value, batches)))
  {
    var w := InferenceWeights(cfg, s);
    if w.Ok? && cfg.modelType != "probability" {
      var average := EpochAverage(cfg, s.averageLabel, if cfg.isStatisticalModel then Some(trainLabels) else None);
      if average.Ok? {
        InferenceText(cfg, w.value, average.value, batches);
        InferenceSucceeds(cfg, w.value, average.value, batches);
      }
    }
  }

  /** The inference file begins with both header lines: the one
    * create_prediction_file writes and the one inference adds. */
  lemma InferenceFileHeaders<W>(cfg: Config<W>, s: State<W>, batches: seq<Batch>, trainLabels: seq<real>)
    requires cfg.isStatisticalModel || s.checkpoint.Some?
    requires cfg.modelType != "probability"
    ensures var (s', _) := InferenceSpec(cfg, s, batches, trainLabels);
      var path := PredictionPath(cfg, "inference", 1);
      path in s'.files && s'.files[path].TextFile? &&
      |s'.files[path].text| >= 46 &&
      s'.files[path].text[..46] == "filename label prediction\nfilename prediction\n"
  {
    var w := InferenceWeights(cfg, s).value;
    var current := EpochAverage(cfg, s.averageLabel, if cfg.isStatisticalModel then Some(trainLabels) else None);
    var text := if current.Err? then "" else InferenceEmit(cfg, w, current.value, batches).0;
    assert InferenceSpec(cfg, s, batches, trainLabels).0.files[PredictionPath(cfg, "inference", 1)]
        == TextFile(HEADER + INFERENCE_HEADER + text);
    BothHeaders(text);
  }

  /** Text written after the two header lines starts with both of them. */
  lemma BothHeaders(text: string)
    ensures |HEADER + INFERENCE_HEADER + text| >= 46
    ensures (HEADER + INFERENCE_HEADER + text)[..46] == "filename label prediction\nfilename prediction\n"
  {
    var headers := HEADER + INFERENCE_HEADER;
    assert headers == "filename label prediction\nfilename prediction\n";
    assert (headers + text)[..46] == headers;
  }

  /** The report lists train fills, one entry per phase run. */
  class RunReport {
    var trainLoss: seq<real>
    var trainScore: seq<real>
    var validationLoss: seq<real>
    var validationScore: seq<real>

    constructor ()
      ensures trainLoss == [] && trainScore == [] && validationLoss == [] && validationScore == []
    {
      trainLoss, trainScore, validationLoss, validationScore := [], [], [], [];
    }

    /** Empties the four lists. */
    method Clear()
      modifies this
      ensures trainLoss == [] && trainScore == [] && validationLoss == [] && validationScore == []
    {
      trainLoss, trainScore, validationLoss, validationScore := [], [], [], [];
    }

    /** The loss and score of a completed train phase. */
    method AppendTrain(loss: real, score: real)
      modifies this
      ensures trainLoss == old(trainLoss) + [loss] && trainScore == old(trainScore) + [score]
      ensures validationLoss == old(validationLoss) && validationScore == old(validationScore)
    {
      trainLoss := trainLoss + [loss];
      trainScore := trainScore + [score];
    }

    /** The loss and score of a completed validation phase. */
    method AppendValidation(loss: real, score: real)
      modifies this
      ensures validationLoss == old(validationLoss) + [loss] && validationScore == old(validationScore) + [score]
      ensures trainLoss == old(trainLoss) && trainScore == old(trainScore)
    {
      validationLoss := validationLoss + [loss];
      validationScore := validationScore + [score];
    }
  }

  /** Where train stands after some epochs: the trainer's state, the four
    * report lists, the best validation score and the weights kept for it,
    * the epochs that wrote a checkpoint, the weights after each completed
    * epoch, the states in which each train and validation phase began, and
    * the error that ended the run, if any. */
  datatype TrainRun<W> = TrainRun(
    state: State<W>,
    trainLoss: seq<real>, trainScore: seq<real>,
    validationLoss: seq<real>, validationScore: seq<real>,
    best: real, bestWeights: W, writes: seq<nat>,
    trained: seq<W>, trainStarts: seq<State<W>>, validationStarts: seq<State<W>>,
    failure: Option<Error>)

  /** Before the first epoch: empty lists, best score 0.0, a copy of the
    * current weights. */
  function TrainStart<W>(s: State<W>): TrainRun<W>
  {
    TrainRun(s, [], [], [], [], 0.0, s.weights, [], [], [], [], None)
  }

  /** Train's bookkeeping after the train phase of an epoch left state
    * `s1` and returned `t`: the loss and score are appended to the report,
    * or the run ends with the error. */
  function AfterTrainPhase<W>(run: TrainRun<W>, s1: State<W>, t: Result<(real, real)>): TrainRun<W>
  {
    var started := run.(state := s1, trainStarts := run.trainStarts + [run.state]);
    if t.Err? then started.(failure := Some(t.error))
    else started.(trainLoss := run.trainLoss + [t.value.0], trainScore := run.trainScore + [t.value.1])
  }

  /** Train's bookkeeping after the validation phase of epoch `epoch` left
    * state `s2` and returned `v`: the loss and score are appended to the
    * report and, when the score is strictly above the best so far, it
    * becomes the best, the current weights are kept and the checkpoint is
    * written with them; or the run ends with the error. */
  function AfterValidationPhase<W>(run: TrainRun<W>, epoch: nat, s2: State<W>, v: Result<(real, real)>): TrainRun<W>
  {
    var started := run.(state := s2, validationStarts := run.validationStarts + [run.state]);
    if v.Err? then started.(failure := Some(v.error))
    else
      var scored := started.(validationLoss := run.validationLoss + [v.value.0],
                             validationScore := run.validationScore + [v.value.1],
                             trained := run.trained + [s2.weights]);
      if v.value.1 > run.best then
        scored.(best := v.value.1, bestWeights := s2.weights, writes := run.writes + [epoch],
                state := s2.(checkpoint := Some(s2.weights)))
      else scored
  }

  /** One phase of one epoch as train sees it: given the state it starts
    * from, the epoch number and whether it is the train phase, the state
    * it leaves and the (loss, score) pair or error it returns. */
  type EpochPhase<!W> = (State<W>, nat, bool) -> (State<W>, Result<(real, real)>)

  /** The phases train runs: run_epoch on the training batches in "train"
    * mode and on the validation batches in "validation" mode, both without
    * training labels. */
  function TrainPhases<W>(cfg: Config<W>, trainBatches: seq<Batch>, validationBatches: seq<Batch>,
                          selectionMetric: string): EpochPhase<W>
  {
    (s: State<W>, epoch: nat, training: bool) =>
      if training then RunEpochSpec(cfg, s, epoch, trainBatches, "train", None, selectionMetric)
      else RunEpochSpec(cfg, s, epoch, validationBatches, "validation", None, selectionMetric)
  }

  /** A phase that leaves the checkpoint as it found it. */
  ghost predicate KeepsCheckpoint<W(!new)>(phase: EpochPhase<W>)
  {
    forall s: State<W>, epoch: nat, training: bool :: phase(s, epoch, training).0.checkpoint == s.checkpoint
  }

  /** run_epoch never writes a checkpoint: only train does. */
  lemma TrainPhasesKeepCheckpoint<W(!new)>(cfg: Config<W>, trainBatches: seq<Batch>, validationBatches: seq<Batch>,
                                     selectionMetric: string)
    ensures KeepsCheckpoint(TrainPhases(cfg, trainBatches, validationBatches, selectionMetric))
  {
    var phase := TrainPhases(cfg, trainBatches, validationBatches, selectionMetric);
    forall s: State<W>, epoch: nat, training: bool
      ensures phase(s, epoch, training).0.checkpoint == s.checkpoint
    {
      if training {
        assert phase(s, epoch, training) == RunEpochSpec(cfg, s, epoch, trainBatches, "train", None, selectionMetric);
      } else {
        assert phase(s, epoch, training) == RunEpochSpec(cfg, s, epoch, validationBatches, "validation", None, selectionMetric);
      }
    }
  }

  /** The first n epochs of train; the run stops at the first error. */
  function TrainEpochs<W>(phase: EpochPhase<W>, s: State<W>, n: nat): TrainRun<W>
    decreases n, 3
  {
    if n == 0 then TrainStart(s)
    else
      var previous := TrainEpochs(phase, s, n - 1);
      if previous.failure.Some? then previous
      else TrainEpoch(phase, s, n)
  }

  /** Epoch `epoch` of train, after the earlier epochs: the train phase and,
    * if that succeeded, the validation phase from the state it left. */
  function TrainEpoch<W>(phase: EpochPhase<W>, s: State<W>, epoch: nat): TrainRun<W>
    requires epoch >= 1
    decreases epoch, 2
  {
    var trained := ThroughTrainPhase(phase, s, epoch);
    if trained.failure.Some? then trained else ThroughValidationPhase(phase, s, epoch)
  }

  /** Epoch `epoch` of train up to the end of its train phase. */
  function ThroughTrainPhase<W>(phase: EpochPhase<W>, s: State<W>, epoch: nat): TrainRun<W>
    requires epoch >= 1
    decreases epoch, 0
  {
    var run := TrainEpochs(phase, s, epoch - 1);
    var (s1, t) := phase(run.state, epoch, true);
    AfterTrainPhase(run, s1, t)
  }

  /** Epoch `epoch` of train up to the end of its validation phase, which
    * begins where the train phase ended. */
  function ThroughValidationPhase<W>(phase: EpochPhase<W>, s: State<W>, epoch: nat): TrainRun<W>
    requires epoch >= 1
    decreases epoch, 1
  {
    var trained := ThroughTrainPhase(phase, s, epoch);
    var (s2, v) := phase(trained.state, epoch, false);
    AfterValidationPhase(trained, epoch, s2, v)
  }

  /** `range(1, n + 1)` is empty for n below 1. */
  function EpochCount(numberOfEpochs: int): nat
  {
    if numberOfEpochs < 0 then 0 else numberOfEpochs
  }

  /** After an error, later epochs change nothing. */
  lemma {:induction false} TrainEpochsStop<W>(phase: EpochPhase<W>, s: State<W>, k: nat, n: nat)
    requires k <= n && TrainEpochs(phase, s, k).failure.Some?
    ensures TrainEpochs(phase, s, n) == TrainEpochs(phase, s, k)
  {
    if k < n {
      TrainEpochsStop(phase, s, k, n - 1);
    }
  }

  /** What train keeps true after any number of epochs `n` from state `s`:
    * the four report lists stay in step (the train lists are at most one
    * entry ahead, when a validation phase failed) and have one entry per
    * epoch when no epoch failed; the checkpoints are exactly those
    * CheckpointEpochs gives for the validation scores; the best score is
    * their running best from 0.0; and the kept weights and the checkpoint
    * hold the weights of the last checkpoint epoch, or are untouched when
    * there was none. */
  ghost predicate TrainConsistent<W>(run: TrainRun<W>, s: State<W>, n: nat)
  {
    |run.trainLoss| == |run.trainScore| == |run.validationStarts| &&
    |run.validationLoss| == |run.validationScore| == |run.trained| &&
    |run.validationScore| <= |run.trainLoss| <= |run.validationScore| + 1 &&
    |run.trainStarts| <= n &&
    (run.failure.None? ==> |run.trainLoss| == |run.validationScore| == |run.trainStarts| == n) &&
    (run.failure.Some? ==> |run.trainStarts| == |run.validationScore| + 1) &&
    run.writes == CheckpointEpochs(run.validationScore) &&
    run.best == BestAfter(run.validationScore) &&
    (run.writes == [] ==> run.bestWeights == s.weights && run.state.checkpoint == s.checkpoint) &&
    (run.writes != [] ==>
      1 <= run.writes[|run.writes| - 1] <= |run.trained| &&
      run.bestWeights == run.trained[run.writes[|run.writes| - 1] - 1] &&
      run.state.checkpoint == Some(run.bestWeights))
  }

  /** One epoch keeps TrainConsistent, whatever its phases return, as long
    * as neither phase touches the checkpoint. */
  lemma TrainStepConsistent<W>(run: TrainRun<W>, s: State<W>, n: nat, s1: State<W>, t: Result<(real, real)>,
                               s2: State<W>, v: Result<(real, real)>)
    requires n >= 1 && TrainConsistent(run, s, n - 1) && run.failure.None?
    requires s1.checkpoint == run.state.checkpoint && s2.checkpoint == s1.checkpoint
    ensures var trained := AfterTrainPhase(run, s1, t);
      TrainConsistent(if trained.failure.Some? then trained else AfterValidationPhase(trained, n, s2, v), s, n)
  {
    if t.Ok? {
      var trained := AfterTrainPhase(run, s1, t);
      if v.Err? {
        ValidationFailsConsistent(trained, s, n, s2, v);
      } else {
        ValidationScoredConsistent(trained, s, n, s2, v);
      }
    }
  }

  /** A validation phase that fails keeps TrainConsistent: nothing is
    * scored and no checkpoint is written. */
  lemma ValidationFailsConsistent<W>(trained: TrainRun<W>, s: State<W>, n: nat, s2: State<W>, v: Result<(real, real)>)
    requires n >= 1 && v.Err? && trained.failure.None? && s2.checkpoint == trained.state.checkpoint
    requires |trained.trainLoss| == |trained.trainScore| == |trained.validationStarts| + 1 == |trained.trainStarts| == n
    requires |trained.validationLoss| == |trained.validationScore| == |trained.trained| == n - 1
    requires trained.writes == CheckpointEpochs(trained.validationScore) && trained.best == BestAfter(trained.validationScore)
    requires trained.writes == [] ==> trained.bestWeights == s.weights && trained.state.checkpoint == s.checkpoint
    requires trained.writes != [] ==>
      1 <= trained.writes[|trained.writes| - 1] <= |trained.trained| &&
      trained.bestWeights == trained.trained[trained.writes[|trained.writes| - 1] - 1] &&
      trained.state.checkpoint == Some(trained.bestWeights)
    ensures TrainConsistent(AfterValidationPhase(trained, n, s2, v), s, n)
  {
  }

  /** A validation phase that returns a score keeps TrainConsistent: the
    * score joins the list, and a checkpoint is written exactly when it beats
    * the best so far. */
  lemma ValidationScoredConsistent<W>(trained: TrainRun<W>, s: State<W>, n: nat, s2: State<W>, v: Result<(real, real)>)
    requires n >= 1 && v.Ok? && trained.failure.None? && s2.checkpoint == trained.state.checkpoint
    requires |trained.trainLoss| == |trained.trainScore| == |trained.validationStarts| + 1 == |trained.trainStarts| == n
    requires |trained.validationLoss| == |trained.validationScore| == |trained.trained| == n - 1
    requires trained.writes == CheckpointEpochs(trained.validationScore) && trained.best == BestAfter(trained.validationScore)
    requires trained.writes == [] ==> trained.bestWeights == s.weights && trained.state.checkpoint == s.checkpoint
    requires trained.writes != [] ==>
      1 <= trained.writes[|trained.writes| - 1] <= |trained.trained| &&
      trained.bestWeights == trained.trained[trained.writes[|trained.writes| - 1] - 1] &&
      trained.state.checkpoint == Some(trained.bestWeights)
    ensures TrainConsistent(AfterValidationPhase(trained, n, s2, v), s, n)
  {
    var scores := trained.validationScore + [v.value.1];
    assert scores[..n - 1] == trained.validationScore;
    assert BestAfter(scores) == if v.value.1 > trained.best then v.value.1 else trained.best;
    assert CheckpointEpochs(scores) == trained.writes + (if v.value.1 > trained.best then [n] else []);
  }

  /** TrainConsistent holds after every number of epochs of phases that
    * leave the checkpoint alone. */
  lemma {:induction false} TrainRunInvariant<W(!new)>(phase: EpochPhase<W>, s: State<W>, n: nat)
    requires KeepsCheckpoint(phase)
    ensures TrainConsistent(TrainEpochs(phase, s, n), s, n)
  {
    if n > 0 {
      var previous := TrainEpochs(phase, s, n - 1);
      TrainRunInvariant(phase, s, n - 1);
      if previous.failure.None? {
        var (s1, t) := phase(previous.state, n, true);
        var (s2, v) := phase(s1, n, false);
        assert ThroughTrainPhase(phase, s, n) == AfterTrainPhase(previous, s1, t);
        assert ThroughValidationPhase(phase, s, n) == AfterValidationPhase(AfterTrainPhase(previous, s1, t), n, s2, v);
        TrainStepConsistent(previous, s, n, s1, t, s2, v);
      }
    }
  }

  /** Entry i of the report lists comes from epoch i + 1: it is what that
    * epoch's train or validation phase returned, and that epoch's
    * validation phase began where its train phase ended. */
  ghost predicate ReportFromEpochs<W>(phase: EpochPhase<W>, run: TrainRun<W>)
  {
    |run.trainLoss| <= |run.trainStarts| && |run.validationScore| <= |run.validationStarts| &&
    |run.trainLoss| == |run.trainScore| == |run.validationStarts| &&
    |run.validationLoss| == |run.validationScore| &&
    (forall i :: 0 <= i < |run.trainLoss| ==>
      phase(run.trainStarts[i], i + 1, true) == (run.validationStarts[i], Ok((run.trainLoss[i], run.trainScore[i])))) &&
    (forall i :: 0 <= i < |run.validationScore| ==>
      phase(run.validationStarts[i], i + 1, false).1 == Ok((run.validationLoss[i], run.validationScore[i])))
  }

  /** ReportFromEpochs holds after every number of epochs, and the epochs
    * whose phases the entries come from are chained from the state train
    * started in. */
  lemma {:induction false} ReportEntriesFromEpochs<W>(phase: EpochPhase<W>, s: State<W>, n: nat)
    ensures ReportFromEpochs(phase, TrainEpochs(phase, s, n))
    ensures EpochsChained(phase, s, TrainEpochs(phase, s, n))
  {
    TrainEpochsChained(phase, s, n);
    if n > 0 {
      ReportEntriesFromEpochs(phase, s, n - 1);
      if TrainEpochs(phase, s, n - 1).failure.None? {
        ReportLengths(phase, s, n - 1);
        ReportAfterEpoch(phase, s, n);
      }
    }
  }

  /** Epoch n, after n - 1 epochs without an error, keeps ReportFromEpochs. */
  lemma ReportAfterEpoch<W>(phase: EpochPhase<W>, s: State<W>, n: nat)
    requires n >= 1
    requires var previous := TrainEpochs(phase, s, n - 1);
      previous.failure.None? && ReportFromEpochs(phase, previous) &&
      |previous.trainStarts| == |previous.validationStarts| == |previous.trainLoss| == n - 1 &&
      |previous.validationScore| == n - 1
    ensures ReportFromEpochs(phase, TrainEpoch(phase, s, n))
  {
    var previous := TrainEpochs(phase, s, n - 1);
    var (s1, t) := phase(previous.state, n, true);
    var trained := AfterTrainPhase(previous, s1, t);
    assert ThroughTrainPhase(phase, s, n) == trained;
    if t.Ok? {
      var (s2, v) := phase(s1, n, false);
      assert ThroughValidationPhase(phase, s, n) == AfterValidationPhase(trained, n, s2, v);
      ReportAfterValidation(phase, trained, n, s2, v);
    }
  }

  /** After n epochs without an error there are n train starts, n
    * validation starts and n entries in every report list. */
  lemma {:induction false} ReportLengths<W>(phase: EpochPhase<W>, s: State<W>, n: nat)
    ensures var run := TrainEpochs(phase, s, n);
      run.failure.None? ==> |run.trainStarts| == |run.validationStarts| == |run.trainLoss| == |run.trainScore|
                            == |run.validationLoss| == |run.validationScore| == n
  {
    if n > 0 {
      ReportLengths(phase, s, n - 1);
      var previous := TrainEpochs(phase, s, n - 1);
      if previous.failure.None? {
        var (s1, t) := phase(previous.state, n, true);
        assert ThroughTrainPhase(phase, s, n) == AfterTrainPhase(previous, s1, t);
        if t.Ok? {
          var (s2, v) := phase(s1, n, false);
          assert ThroughValidationPhase(phase, s, n) == AfterValidationPhase(AfterTrainPhase(previous, s1, t), n, s2, v);
        }
      }
    }
  }

  /** The validation phase of epoch n, after a train phase that succeeded,
    * keeps ReportFromEpochs. */
  lemma ReportAfterValidation<W>(phase: EpochPhase<W>, run: TrainRun<W>, n: nat, s2: State<W>, v: Result<(real, real)>)
    requires n >= 1 && |run.trainStarts| == |run.trainLoss| == |run.trainScore| == n
    requires |run.validationStarts| == |run.validationLoss| == |run.validationScore| == n - 1
    requires phase(run.trainStarts[n - 1], n, true) == (run.state, Ok((run.trainLoss[n - 1], run.trainScore[n - 1])))
    requires (s2, v) == phase(run.state, n, false)
    requires forall i :: 0 <= i < n - 1 ==>
      phase(run.trainStarts[i], i + 1, true) == (run.validationStarts[i], Ok((run.trainLoss[i], run.trainScore[i])))
    requires forall i :: 0 <= i < n - 1 ==>
      phase(run.validationStarts[i], i + 1, false).1 == Ok((run.validationLoss[i], run.validationScore[i]))
    ensures ReportFromEpochs(phase, AfterValidationPhase(run, n, s2, v))
  {
    var next := AfterValidationPhase(run, n, s2, v);
    assert next.trainStarts == run.trainStarts && next.trainLoss == run.trainLoss && next.trainScore == run.trainScore;
    assert next.validationStarts == run.validationStarts + [run.state];
    forall i | 0 <= i < n
      ensures phase(next.trainStarts[i], i + 1, true) == (next.validationStarts[i], Ok((next.trainLoss[i], next.trainScore[i])))
    {
      if i < n - 1 {
        assert next.validationStarts[i] == run.validationStarts[i];
      }
    }
    if v.Ok? {
      assert next.validationScore == run.validationScore + [v.value.1];
      assert next.validationLoss == run.validationLoss + [v.value.0];
      forall i | 0 <= i < n
        ensures phase(next.validationStarts[i], i + 1, false).1 == Ok((next.validationLoss[i], next.validationScore[i]))
      {
        if i < n - 1 {
          assert next.validationStarts[i] == run.validationStarts[i];
          assert next.validationLoss[i] == run.validationLoss[i] && next.validationScore[i] == run.validationScore[i];
        }
      }
    } else {
      assert next.validationScore == run.validationScore && next.validationLoss == run.validationLoss;
    }
  }

  /** The epochs follow one another: epoch 1 begins in the state train was
    * called in, each epoch's validation phase begins where its train phase
    * ended, and each later epoch begins where the previous validation phase
    * ended, in every field but the checkpoint, which train itself may write
    * in between. The weights kept for epoch i + 1 are those its validation
    * phase ended with, and a run without an error kept weights for every
    * epoch and stands where its last validation phase ended. */
  ghost predicate EpochsChained<W>(phase: EpochPhase<W>, s: State<W>, run: TrainRun<W>)
  {
    |run.validationStarts| <= |run.trainStarts| <= |run.validationStarts| + 1 &&
    |run.trained| <= |run.validationStarts| &&
    (|run.trainStarts| > 0 ==> run.trainStarts[0] == s) &&
    ValidationFollowsTrain(phase, run) && TrainFollowsValidation(phase, run) && TrainedFromValidation(phase, run) &&
    (run.failure.None? ==>
      |run.trainStarts| == |run.validationStarts| == |run.trained| &&
      (|run.validationStarts| == 0 ==> run.state == s) &&
      (|run.validationStarts| > 0 ==> StandsAfterValidation(phase, run, run.state)))
  }

  /** Each validation phase begins where the train phase of its epoch ended. */
  ghost predicate ValidationFollowsTrain<W>(phase: EpochPhase<W>, run: TrainRun<W>)
  {
    forall i :: 0 <= i < |run.validationStarts| && i < |run.trainStarts| ==>
      run.validationStarts[i] == phase(run.trainStarts[i], i + 1, true).0
  }

  /** Each train phase after the first begins where the previous validation
    * phase ended, up to the checkpoint. */
  ghost predicate TrainFollowsValidation<W>(phase: EpochPhase<W>, run: TrainRun<W>)
  {
    forall i :: 0 <= i < |run.validationStarts| && i + 1 < |run.trainStarts| ==>
      run.trainStarts[i + 1].(checkpoint := phase(run.validationStarts[i], i + 1, false).0.checkpoint)
        == phase(run.validationStarts[i], i + 1, false).0
  }

  /** The weights kept for each epoch are those its validation phase ended
    * with. */
  ghost predicate TrainedFromValidation<W>(phase: EpochPhase<W>, run: TrainRun<W>)
  {
    forall i :: 0 <= i < |run.trained| && i < |run.validationStarts| ==>
      run.trained[i] == phase(run.validationStarts[i], i + 1, false).0.weights
  }

  /** `state` is where the last validation phase of `run` ended, up to the
    * checkpoint. */
  ghost predicate StandsAfterValidation<W>(phase: EpochPhase<W>, run: TrainRun<W>, state: State<W>)
    requires |run.validationStarts| > 0
  {
    var k := |run.validationStarts|;
    state.(checkpoint := phase(run.validationStarts[k - 1], k, false).0.checkpoint) == phase(run.validationStarts[k - 1], k, false).0
  }

  /** Train's epochs are chained after every number of epochs. */
  lemma {:induction false} TrainEpochsChained<W>(phase: EpochPhase<W>, s: State<W>, n: nat)
    ensures EpochsChained(phase, s, TrainEpochs(phase, s, n))
  {
    if n > 0 {
      TrainEpochsChained(phase, s, n - 1);
      if TrainEpochs(phase, s, n - 1).failure.None? {
        ReportLengths(phase, s, n - 1);
        ChainAfterEpoch(phase, s, n);
      }
    }
  }

  /** Epoch n, after n - 1 chained epochs without an error, keeps the chain. */
  lemma ChainAfterEpoch<W>(phase: EpochPhase<W>, s: State<W>, n: nat)
    requires n >= 1
    requires var previous := TrainEpochs(phase, s, n - 1);
      previous.failure.None? && EpochsChained(phase, s, previous) &&
      |previous.trainStarts| == |previous.validationStarts| == n - 1
    ensures EpochsChained(phase, s, TrainEpoch(phase, s, n))
  {
    var previous := TrainEpochs(phase, s, n - 1);
    var (s1, t) := phase(previous.state, n, true);
    var (s2, v) := phase(s1, n, false);
    assert ThroughTrainPhase(phase, s, n) == AfterTrainPhase(previous, s1, t);
    if t.Ok? {
      assert ThroughValidationPhase(phase, s, n) == AfterValidationPhase(AfterTrainPhase(previous, s1, t), n, s2, v);
    }
    ChainStep(phase, s, previous, n, s1, t, s2, v);
  }

  /** The bookkeeping of one epoch extends the chain: its train phase starts
    * where the run stands, its validation phase where the train phase
    * ended. */
  lemma ChainStep<W>(phase: EpochPhase<W>, s: State<W>, run: TrainRun<W>, n: nat,
                     s1: State<W>, t: Result<(real, real)>, s2: State<W>, v: Result<(real, real)>)
    requires n >= 1 && run.failure.None? && EpochsChained(phase, s, run)
    requires |run.trainStarts| == |run.validationStarts| == n - 1
    requires (s1, t) == phase(run.state, n, true) && (s2, v) == phase(s1, n, false)
    ensures var trained := AfterTrainPhase(run, s1, t);
      EpochsChained(phase, s, if t.Err? then trained else AfterValidationPhase(trained, n, s2, v))
  {
    if t.Err? {
      ChainTrainFailed(phase, s, run, n, s1, t);
    } else {
      ChainValidated(phase, s, run, n, s1, t, s2, v);
    }
  }

  /** A failed train phase adds its start state and nothing else. */
  lemma ChainTrainFailed<W>(phase: EpochPhase<W>, s: State<W>, run: TrainRun<W>, n: nat,
                            s1: State<W>, t: Result<(real, real)>)
    requires n >= 1 && run.failure.None? && EpochsChained(phase, s, run) && t.Err?
    requires |run.trainStarts| == |run.validationStarts| == n - 1
    ensures EpochsChained(phase, s, AfterTrainPhase(run, s1, t))
  {
    var next := AfterTrainPhase(run, s1, t);
    assert next.trainStarts == run.trainStarts + [run.state];
    forall i | 0 <= i < |next.trainStarts| - 1
      ensures next.trainStarts[i + 1].(checkpoint := phase(next.validationStarts[i], i + 1, false).0.checkpoint)
        == phase(next.validationStarts[i], i + 1, false).0
    {
      if i + 1 < n - 1 {
        assert next.trainStarts[i + 1] == run.trainStarts[i + 1];
      }
    }
    forall i | 0 <= i < |next.validationStarts|
      ensures next.validationStarts[i] == phase(next.trainStarts[i], i + 1, true).0
    {
      assert next.trainStarts[i] == run.trainStarts[i];
    }
  }

  /** A train phase that succeeded, followed by its validation phase, adds
    * both start states and, when validation scored, the weights it ended
    * with. */
  lemma ChainValidated<W>(phase: EpochPhase<W>, s: State<W>, run: TrainRun<W>, n: nat,
                          s1: State<W>, t: Result<(real, real)>, s2: State<W>, v: Result<(real, real)>)
    requires n >= 1 && run.failure.None? && EpochsChained(phase, s, run) && t.Ok?
    requires |run.trainStarts| == |run.validationStarts| == n - 1
    requires (s1, t) == phase(run.state, n, true) && (s2, v) == phase(s1, n, false)
    ensures EpochsChained(phase, s, AfterValidationPhase(AfterTrainPhase(run, s1, t), n, s2, v))
  {
    var next := AfterValidationPhase(AfterTrainPhase(run, s1, t), n, s2, v);
    assert next.trainStarts == run.trainStarts + [run.state];
    assert next.validationStarts == run.validationStarts + [s1];
    assert next.trained == if v.Ok? then run.trained + [s2.weights] else run.trained;
    assert next.failure.None? ==> v.Ok? && next.state.(checkpoint := s2.checkpoint) == s2;
    ChainExtended(phase, s, run, n, next, s1, s2, v.Ok?);
  }

  /** The chain extended by one epoch, whatever else the bookkeeping did:
    * `next` adds the epoch's two start states, and its weights when
    * `scored`. */
  lemma ChainExtended<W>(phase: EpochPhase<W>, s: State<W>, run: TrainRun<W>, n: nat, next: TrainRun<W>,
                         s1: State<W>, s2: State<W>, scored: bool)
    requires n >= 1 && run.failure.None? && EpochsChained(phase, s, run)
    requires |run.trainStarts| == |run.validationStarts| == n - 1
    requires s1 == phase(run.state, n, true).0 && s2 == phase(s1, n, false).0
    requires next.trainStarts == run.trainStarts + [run.state]
    requires next.validationStarts == run.validationStarts + [s1]
    requires next.trained == if scored then run.trained + [s2.weights] else run.trained
    requires next.failure.None? ==> scored && next.state.(checkpoint := s2.checkpoint) == s2
    ensures EpochsChained(phase, s, next)
  {
    ValidationFollowsTrainExtended(phase, run, n, next, s1);
    TrainFollowsValidationExtended(phase, s, run, n, next, s1);
    TrainedFromValidationExtended(phase, run, n, next, s1, s2, scored);
    if next.failure.None? {
      assert next.validationStarts[n - 1] == s1;
    }
  }

  /** The new validation start is where the new train phase ended. */
  lemma ValidationFollowsTrainExtended<W>(phase: EpochPhase<W>, run: TrainRun<W>, n: nat, next: TrainRun<W>, s1: State<W>)
    requires n >= 1 && ValidationFollowsTrain(phase, run)
    requires |run.trainStarts| == |run.validationStarts| == n - 1
    requires s1 == phase(run.state, n, true).0
    requires next.trainStarts == run.trainStarts + [run.state]
    requires next.validationStarts == run.validationStarts + [s1]
    ensures ValidationFollowsTrain(phase, next)
  {
    forall i | 0 <= i < |next.validationStarts| && i < |next.trainStarts|
      ensures next.validationStarts[i] == phase(next.trainStarts[i], i + 1, true).0
    {
      if i < n - 1 {
        assert next.trainStarts[i] == run.trainStarts[i];
        assert next.validationStarts[i] == run.validationStarts[i];
      }
    }
  }

  /** The new train start is where the run stood, which is where the last
    * validation phase ended. */
  lemma TrainFollowsValidationExtended<W>(phase: EpochPhase<W>, s: State<W>, run: TrainRun<W>, n: nat,
                                          next: TrainRun<W>, s1: State<W>)
    requires n >= 1 && run.failure.None? && EpochsChained(phase, s, run)
    requires |run.trainStarts| == |run.validationStarts| == n - 1
    requires next.trainStarts == run.trainStarts + [run.state]
    requires next.validationStarts == run.validationStarts + [s1]
    ensures TrainFollowsValidation(phase, next)
  {
    forall i | 0 <= i < |next.validationStarts| && i + 1 < |next.trainStarts|
      ensures next.trainStarts[i + 1].(checkpoint := phase(next.validationStarts[i], i + 1, false).0.checkpoint)
        == phase(next.validationStarts[i], i + 1, false).0
    {
      assert next.validationStarts[i] == run.validationStarts[i];
      if i + 1 < n - 1 {
        assert next.trainStarts[i + 1] == run.trainStarts[i + 1];
      } else {
        assert next.trainStarts[i + 1] == run.state;
        assert StandsAfterValidation(phase, run, run.state);
      }
    }
  }

  /** The new kept weights are those the new validation phase ended with. */
  lemma TrainedFromValidationExtended<W>(phase: EpochPhase<W>, run: TrainRun<W>, n: nat, next: TrainRun<W>,
                                         s1: State<W>, s2: State<W>, scored: bool)
    requires n >= 1 && TrainedFromValidation(phase, run)
    requires |run.validationStarts| == |run.trained| == n - 1
    requires s2 == phase(s1, n, false).0
    requires next.validationStarts == run.validationStarts + [s1]
    requires next.trained == if scored then run.trained + [s2.weights] else run.trained
    ensures TrainedFromValidation(phase, next)
  {
    forall i | 0 <= i < |next.trained| && i < |next.validationStarts|
      ensures next.trained[i] == phase(next.validationStarts[i], i + 1, false).0.weights
    {
      if i < n - 1 {
        assert next.trained[i] == run.trained[i];
        assert next.validationStarts[i] == run.validationStarts[i];
      }
    }
  }

  /** The checkpoint train leaves holds the weights that the validation
    * phase of the last epoch that wrote it ended with, an epoch reached
    * through the chain from the starting state. */
  lemma CheckpointHoldsValidationWeights<W(!new)>(phase: EpochPhase<W>, s: State<W>, n: nat)
    requires KeepsCheckpoint(phase)
    ensures var run := TrainEpochs(phase, s, n);
      run.writes != [] ==>
        var e := run.writes[|run.writes| - 1];
        1 <= e <= |run.validationStarts| &&
        run.state.checkpoint == Some(phase(run.validationStarts[e - 1], e, false).0.weights)
  {
    TrainRunInvariant(phase, s, n);
    TrainEpochsChained(phase, s, n);
    LastWriteWeights(phase, s, n, TrainEpochs(phase, s, n));
  }

  /** For any run that is consistent and chained, the checkpoint holds the
    * weights of the last writing epoch's validation phase. */
  lemma LastWriteWeights<W>(phase: EpochPhase<W>, s: State<W>, n: nat, run: TrainRun<W>)
    requires TrainConsistent(run, s, n) && EpochsChained(phase, s, run)
    ensures run.writes != [] ==>
      var e := run.writes[|run.writes| - 1];
      1 <= e <= |run.validationStarts| &&
      run.state.checkpoint == Some(phase(run.validationStarts[e - 1], e, false).0.weights)
  {
    if run.writes != [] {
      var e := run.writes[|run.writes| - 1];
      assert 1 <= e <= |run.trained|;
      assert run.trained[e - 1] == phase(run.validationStarts[e - 1], e, false).0.weights;
    }
  }

  /** The average baseline cannot be trained: train never hands run_epoch a
    * training split, so the first train phase fails and nothing is
    * reported. */
  lemma TrainAverageFails<W>(cfg: Config<W>, s: State<W>, n: nat, trainBatches: seq<Batch>,
                             validationBatches: seq<Batch>, selectionMetric: string)
    requires cfg.modelType == "average" && n >= 1
    ensures var run := TrainEpochs(TrainPhases(cfg, trainBatches, validationBatches, selectionMetric), s, n);
      run.failure == Some(NoTrainingSet) && run.trainLoss == [] && run.validationScore == [] && run.writes == []
  {
    var phase := TrainPhases(cfg, trainBatches, validationBatches, selectionMetric);
    AverageNeedsTrainingSplit(cfg, s, 1, trainBatches, "train", selectionMetric);
    assert phase(s, 1, true).1 == Err(NoTrainingSet);
    assert TrainEpochs(phase, s, 0) == TrainStart(s);
    assert TrainEpochs(phase, s, 1) == TrainEpoch(phase, s, 1);
    TrainEpochsStop(phase, s, 1, n);
  }

  /** The trainer: its configuration and the state its operations change. */
  class QuasiSiameseNetwork<W> {
    const config: Config<W>
    var weights: W
    var trainingMode: bool
    var averageLabel: Option<AverageLabel>
    var optimizerSteps: nat
    var files: map<string, FileContent>
    var checkpoint: Option<W>
    /** The epochs at which a checkpoint was written, oldest first. */
    ghost var checkpointWrites: seq<nat>

    function Snapshot(): State<W>
      reads this
    {
      State(weights, trainingMode, averageLabel, optimizerSteps, files, checkpoint)
    }

    /** The trainer and the report are where `run` says train stands, with
      * `writes0` the checkpoint writes from before train began. */
    ghost predicate Tracks(report: RunReport, run: TrainRun<W>, writes0: seq<nat>)
      reads this, report
    {
      Snapshot() == run.state && checkpointWrites == writes0 + run.writes &&
      report.trainLoss == run.trainLoss && report.trainScore == run.trainScore &&
      report.validationLoss == run.validationLoss && report.validationScore == run.validationScore
    }

    /** A fresh network is in training mode, has taken no optimiser step and
      * has no average label yet; `savedCheckpoint` is what model_path holds. */
    constructor (config: Config<W>, initialWeights: W, savedCheckpoint: Option<W>)
      ensures this.config == config
      ensures Snapshot() == State(initialWeights, true, None, 0, map[], savedCheckpoint)
      ensures checkpointWrites == []
    {
      this.config := config;
      weights := initialWeights;
      trainingMode := true;
      averageLabel := None;
      optimizerSteps := 0;
      files := map[];
      checkpoint := savedCheckpoint;
      checkpointWrites := [];
    }

    /** The batch loop of run_epoch: for each batch, the outputs and
      * predictions, the loss and, in the train phase, one optimiser step;
      * the sample lines (or, for the probability model, the output rows)
      * are collected in `em`. It stops at the first batch that fails. The
      * weights and the optimiser step count are stored once the loop ends. */
    method RunBatches(train: bool, batches: seq<Batch>) returns (em: Emission<W>)
      modifies this
      ensures Emit(config, train, old(weights), averageLabel, batches) == em
      ensures Snapshot() == old(Snapshot()).(weights := em.weights,
                                              optimizerSteps := old(optimizerSteps) + (if train then |em.records| else 0))
      ensures checkpointWrites == old(checkpointWrites)
    {
      em := EmitBatches(config, train, weights, averageLabel, batches);
      weights := em.weights;
      if train {
        optimizerSteps := optimizerSteps + |em.records|;
      }
    }

    /** run_epoch: one pass over `batches` in `phase`, writing the prediction
      * file of that phase and epoch. */
    method RunEpoch(epoch: nat, batches: seq<Batch>, phase: string, trainLabels: Option<seq<real>>, selectionMetric: string)
      returns (r: Result<(real, real)>)
      modifies this
      ensures (Snapshot(), r) == RunEpochSpec(config, old(Snapshot()), epoch, batches, phase, trainLabels, selectionMetric)
      ensures checkpointWrites == old(checkpointWrites)
    {
      if phase !in PHASES {
        return Err(PhaseNotAccepted(phase));
      }
      trainingMode := phase == "train";
      var path := PredictionPath(config, phase, epoch);
      var others := files;
      files := others[path := OpenedFile(config)];
      var current := EpochAverage(config, averageLabel, trainLabels);
      if current.Err? {
        return Err(current.error);
      }
      averageLabel := current.value;
      r := FinishEpoch(others, path, epoch, batches, phase == "train", selectionMetric);
    }

    /** The rest of run_epoch once the average label is set: the batch
      * loop, the sample lines written after the header, and the closing
      * line with the selected metric. */
    method FinishEpoch(others: map<string, FileContent>, path: string, epoch: nat, batches: seq<Batch>, train: bool,
                       selectionMetric: string)
      returns (r: Result<(real, real)>)
      modifies this
      ensures (Snapshot(), r) == EpochBatches(config, old(Snapshot()), others, path, epoch, batches, train, selectionMetric)
      ensures checkpointWrites == old(checkpointWrites)
    {
      var em := RunBatches(train, batches);
      files := others[path := WrittenFile(config, em.text)];
      if em.failure.Some? {
        return Err(em.failure.value);
      }
      var closing := EpochResult(config, em, epoch, selectionMetric);
      if closing.Err? {
        return Err(closing.error);
      }
      files := others[path := closing.value.0];
      r := Ok(closing.value.1);
    }

    /** train: `numberOfEpochs` epochs of a train phase and a validation
      * phase each, keeping the weights of the best validation score and
      * writing them to the checkpoint whenever that score strictly
      * improves. Returns the best validation score. */
    method Train(report: RunReport, trainBatches: seq<Batch>, validationBatches: seq<Batch>,
                 numberOfEpochs: int, selectionMetric: string)
      returns (r: Result<real>)
      modifies this, report
      ensures var run := TrainEpochs(TrainPhases(config, trainBatches, validationBatches, selectionMetric),
                                     old(Snapshot()), EpochCount(numberOfEpochs));
        Tracks(report, run, old(checkpointWrites)) &&
        r == if run.failure.Some? then Err(run.failure.value) else Ok(run.best)
    {
      ghost var s0, writes0 := Snapshot(), checkpointWrites;
      var bestValidationScore, bestModelWeights := 0.0, weights;
      report.Clear();
      ghost var phases := TrainPhases(config, trainBatches, validationBatches, selectionMetric);
      ghost var run := TrainStart(s0);
      var failure: Option<Error> := None;
      var epoch := 1;
      while epoch <= numberOfEpochs && failure.None?
        invariant 1 <= epoch && (epoch <= numberOfEpochs + 1 || epoch == 1)
        invariant failure.Some? ==> epoch <= numberOfEpochs + 1
        invariant run == TrainEpochs(phases, s0, epoch - 1)
        invariant Tracks(report, run, writes0) && failure == run.failure
        invariant bestValidationScore == run.best && bestModelWeights == run.bestWeights
      {
        bestValidationScore, bestModelWeights, failure, run :=
          TrainOneEpoch(report, epoch, trainBatches, validationBatches, selectionMetric,
                        s0, run, writes0, bestValidationScore, bestModelWeights);
        epoch := epoch + 1;
      }
      if failure.Some? {
        TrainEpochsStop(phases, s0, epoch - 1, EpochCount(numberOfEpochs));
        r := Err(failure.value);
      } else {
        assert epoch - 1 == EpochCount(numberOfEpochs);
        r := Ok(bestValidationScore);
      }
      assert run == TrainEpochs(phases, s0, EpochCount(numberOfEpochs));
    }

    /** One pass of train's epoch loop: the train phase, then, if it
      * succeeded, the validation phase and the best-score update, which
      * writes the checkpoint. */
    method TrainOneEpoch(report: RunReport, epoch: nat, trainBatches: seq<Batch>, validationBatches: seq<Batch>,
                         selectionMetric: string, ghost s0: State<W>, ghost run: TrainRun<W>, ghost writes0: seq<nat>,
                         best: real, bestWeights: W)
      returns (nextBest: real, nextBestWeights: W, failure: Option<Error>, ghost next: TrainRun<W>)
      modifies this, report
      requires epoch >= 1 && run == TrainEpochs(TrainPhases(config, trainBatches, validationBatches, selectionMetric), s0, epoch - 1)
      requires run.failure.None? && Tracks(report, run, writes0)
      requires best == run.best && bestWeights == run.bestWeights
      ensures next == TrainEpochs(TrainPhases(config, trainBatches, validationBatches, selectionMetric), s0, epoch)
      ensures Tracks(report, next, writes0) && failure == next.failure
      ensures nextBest == next.best && nextBestWeights == next.bestWeights
    {
      var t;
      t, next := TrainingPhase(report, epoch, trainBatches, validationBatches, selectionMetric, s0, run, writes0);
      if t.Err? {
        return best, bestWeights, Some(t.error), next;
      }
      var v;
      v, nextBest, nextBestWeights, next := ValidationPhase(report, epoch, trainBatches, validationBatches, selectionMetric,
                                                            s0, next, writes0, best, bestWeights);
      failure := if v.Err? then Some(v.error) else None;
    }

    /** The train phase of epoch `epoch` of train: run_epoch on the training
      * batches, whose loss and score are appended to the report. */
    method TrainingPhase(report: RunReport, epoch: nat, trainBatches: seq<Batch>, validationBatches: seq<Batch>,
                         selectionMetric: string, ghost s0: State<W>, ghost run: TrainRun<W>, ghost writes0: seq<nat>)
      returns (t: Result<(real, real)>, ghost next: TrainRun<W>)
      modifies this, report
      requires epoch >= 1 && run == TrainEpochs(TrainPhases(config, trainBatches, validationBatches, selectionMetric), s0, epoch - 1)
      requires run.failure.None? && Tracks(report, run, writes0)
      ensures next == ThroughTrainPhase(TrainPhases(config, trainBatches, validationBatches, selectionMetric), s0, epoch)
      ensures Tracks(report, next, writes0) && next.failure == if t.Err? then Some(t.error) else None
    {
      ghost var phases := TrainPhases(config, trainBatches, validationBatches, selectionMetric);
      t := RunEpoch(epoch, trainBatches, "train", None, selectionMetric);
      assert phases(run.state, epoch, true) == (Snapshot(), t);
      next := AfterTrainPhase(run, Snapshot(), t);
      if t.Ok? {
        report.AppendTrain(t.value.0, t.value.1);
      }
    }

    /** The validation phase of epoch `epoch` of train, after a train phase
      * that succeeded: run_epoch on the validation batches, whose loss and
      * score are appended to the report; a score strictly above the best so
      * far becomes the best, and the current weights are kept and written to
      * the checkpoint. */
    method ValidationPhase(report: RunReport, epoch: nat, trainBatches: seq<Batch>, validationBatches: seq<Batch>,
                           selectionMetric: string, ghost s0: State<W>, ghost trained: TrainRun<W>, ghost writes0: seq<nat>,
                           best: real, bestWeights: W)
      returns (v: Result<(real, real)>, nextBest: real, nextBestWeights: W, ghost next: TrainRun<W>)
      modifies this, report
      requires epoch >= 1 && trained == ThroughTrainPhase(TrainPhases(config, trainBatches, validationBatches, selectionMetric), s0, epoch)
      requires trained.failure.None? && Tracks(report, trained, writes0)
      requires best == trained.best && bestWeights == trained.bestWeights
      ensures next == ThroughValidationPhase(TrainPhases(config, trainBatches, validationBatches, selectionMetric), s0, epoch)
      ensures Tracks(report, next, writes0) && next.failure == if v.Err? then Some(v.error) else None
      ensures nextBest == next.best && nextBestWeights == next.bestWeights
    {
      ghost var phases := TrainPhases(config, trainBatches, validationBatches, selectionMetric);
      nextBest, nextBestWeights := best, bestWeights;
      v := RunEpoch(epoch, validationBatches, "validation", None, selectionMetric);
      assert phases(trained.state, epoch, false) == (Snapshot(), v);
      next := AfterValidationPhase(trained, epoch, Snapshot(), v);
      if v.Err? {
        return;
      }
      report.AppendValidation(v.value.0, v.value.1);
      nextBest, nextBestWeights := KeepIfBest(epoch, v.value.1, best, bestWeights);
    }

    /** The end of an epoch of train: a validation score strictly above the
      * best so far becomes the best, and the current weights are kept and
      * written to the checkpoint; otherwise nothing changes. */
    method KeepIfBest(epoch: nat, score: real, best: real, bestWeights: W) returns (nextBest: real, nextBestWeights: W)
      modifies this
      ensures score > best ==>
                nextBest == score && nextBestWeights == old(weights) &&
                Snapshot() == old(Snapshot()).(checkpoint := Some(old(weights))) &&
                checkpointWrites == old(checkpointWrites) + [epoch]
      ensures score <= best ==>
                nextBest == best && nextBestWeights == bestWeights &&
                Snapshot() == old(Snapshot()) && checkpointWrites == old(checkpointWrites)
    {
      nextBest, nextBestWeights := best, bestWeights;
      if score > best {
        nextBest := score;
        nextBestWeights := weights;
        checkpoint := Some(nextBestWeights);
        checkpointWrites := checkpointWrites + [epoch];
      }
    }

    /** inference: predictions for unlabelled batches, written after two
      * header lines to the inference prediction file of epoch 1. */
    method Inference(batches: seq<Batch>, trainLabels: seq<real>) returns (r: Result<()>)
      modifies this
      ensures (Snapshot(), r) == InferenceSpec(config, old(Snapshot()), batches, trainLabels)
      ensures checkpointWrites == old(checkpointWrites)
    {
      var loaded := InferenceWeights(config, Snapshot());
      if loaded.Err? {
        return Err(loaded.error);
      }
      weights := loaded.value;
      trainingMode := false;
      var path := PredictionPath(config, "inference", 1);
      var others := files;
      files := others[path := OpenedFile(config)];
      if config.modelType == "probability" {
        return Err(TextToBinaryFile);
      }
      files := others[path := TextFile(HEADER + INFERENCE_HEADER)];
      var current := EpochAverage(config, averageLabel, if config.isStatisticalModel then Some(trainLabels) else None);
      if current.Err? {
        return Err(current.error);
      }
      averageLabel := current.value;
      var text, failure := InferBatches(batches);
      files := others[path := TextFile(HEADER + INFERENCE_HEADER + text)];
      r := if failure.Some? then Err(failure.value) else Ok(());
    }

    /** The batch loop of inference: the prediction lines of each batch
      * until one fails. It changes nothing. */
    method InferBatches(batches: seq<Batch>) returns (text: string, failure: Option<Error>)
      ensures InferenceEmit(config, weights, averageLabel, batches) == (text, failure)
    {
      var cfg, w, avg := config, weights, averageLabel;
      text, failure := "", None;
      var i := 0;
      while i < |batches|
        invariant 0 <= i <= |batches|
        invariant InferenceEmit(cfg, w, avg, batches[..i]) == (text, None)
      {
        var b := batches[i];
        InferenceStep(cfg, w, avg, batches, i);
        var op := OutputsPreds(cfg, w, avg, b, |b.images|);
        if op.Err? {
          InferenceEmitStops(cfg, w, avg, batches, i + 1);
          return text, Some(op.error);
        }
        text := text + Concat(InferenceLines(cfg.showFloat, b.filenames, op.value.1));
        i := i + 1;
      }
      assert batches[..i] == batches;
    }
  }
}
