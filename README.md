# Caladrius trainer: a verified model of QuasiSiameseNetwork's decision logic

Caladrius trains a Siamese network on before/after image pairs to grade
building damage. Its `QuasiSiameseNetwork` (caladrius/model/trainer.py)
contains the following pieces:

- **run_epoch** runs one pass over a loader in one of the phases `train`,
  `validation` or `test`. For the `average` baseline it first computes the
  average label of the training split. It then writes one
  `filename label prediction` line per sample to a per-epoch prediction
  file, takes an optimiser step per batch when training, and reads the
  selected metric (`<measure>_<averaging>`, e.g. `recall_micro`) out of the
  rolling evaluator's score. It ends the file with an `Epoch NNN (averaging)
  measure: x.xxxx` line.
- **train** runs a training epoch and then a validation epoch, for each
  epoch from 1 to `number_of_epochs`. It appends losses and scores to the
  run report. Whenever the validation score strictly beats the best so far
  (which starts at 0.0), it saves the weights to `model_path`.
- **inference** labels an unlabelled split and writes
  `filename prediction` lines.
- The baselines and the discretisation: the `average` model predicts the
  mean label (regression) or the one-hot of the mode label
  (classification). Predictions are the clamp to [0, 1] of the outputs
  (regression) or the row-wise argmax (classification).

The model is split into the following Dafny modules:

- `Outcomes`: errors and a `Result` type for the places where the Python
  raises.
- `Text`: `str.split`, `{:03d}`, `{:.4f}` and integer rendering.
- `Tensors`.
- `Selection`: the metric lookup.
- `Baseline`: the average label and outputs.
- `Discretise`.
- `PredictionFile`: file names and the line layout.
- `BestCheckpoint`: the best-score selection over the sequence of
  validation scores, as pure functions with lemmas.
- `Trainer`. Its `QuasiSiameseNetwork` class holds the mutable state: the
  weights, the training mode, the average label, the optimiser step count,
  the prediction files on disk, the checkpoint file and the list of
  checkpoint writes. `RunEpoch`, `Train` and `Inference` are imperative
  methods, each proved equal to a specification function (`RunEpochSpec`,
  `TrainEpochs`, `InferenceSpec`). `Train` loops over the epochs itself; the
  batch loops are the methods `RunBatches` and `EmitBatches` (run_epoch) and
  `InferBatches` (inference). `RunReport` is a class
  whose lists `Train` clears and appends to.

Behaviour kept as the code has it:

- `train` calls `run_epoch` without a training split. For the `average`
  model, `calculate_average_label` therefore iterates over `None` and
  raises. The model reports `NoTrainingSet`, and `TrainAverageFails` proves
  that such a run stops in its first epoch without writing a checkpoint.
- A validation score that only ties the best, or that is 0.0 or below,
  never writes a checkpoint.
- The checkpoint comparison is against the best score itself, not against
  the last epoch's score.
- `selection_metric.split("_")` must give exactly two pieces. The two
  dictionary lookups raise `KeyError` on an unknown measure or averaging.
- `statistics.mode` is the Python 3.8+ version (the first most common
  label), and `int()` truncates toward zero.
- The `probability` model opens its prediction file in binary mode. `inference` then writes a text header to it, which fails (`TextToBinaryFile`).
- A class index outside [-4, 4) makes the one-hot assignment raise. A
  negative index in range wraps around.
- In the train phase the `random` and `average` baselines fail at the first
  batch. Their outputs do not depend on any parameter, so the loss has no
  gradient and `loss.backward()` raises. The model reports `NoGradient`.
  `TrainWithoutGradientFails` and `BaselineTrainEpochFails` state this.

## Model

| member | source | states |
|---|---|---|
| Selection.ParseSelectionMetric | caladrius/model/trainer.py:274-281 | a metric the parser accepts names a known measure (precision, recall, f1) and a known averaging (micro, macro, weighted) |
| Selection.SelectedValue | caladrius/model/trainer.py:276-281 | the selected value is score entry 3, 4 or 5 (micro, macro, weighted), component 0, 1 or 2 (precision, recall, f1) |
| Selection.ParseAccepts | caladrius/model/trainer.py:274-281 | every known `measure_averaging` is accepted and parsed back into the same pair |
| Selection.ParseSound | caladrius/model/trainer.py:274-281 | an accepted metric is exactly `measure + "_" + averaging` for a known pair (converse of ParseAccepts) |
| Selection.ParseNeedsOneUnderscore | caladrius/model/trainer.py:274 | a metric without exactly one underscore fails to unpack into two names, with the number of pieces found |
| Selection.DefaultIsMicroRecall | caladrius/model/trainer.py:147-153 | the default `recall_micro` selects the micro recall |
| Text.Split | caladrius/model/trainer.py:274 | `str.split` gives one piece more than there are separators, no piece holds the separator, and joining the pieces gives back the string |
| Text.SplitJoin | caladrius/model/trainer.py:274 | splitting a join of separator-free pieces gives back the pieces (the other round trip) |
| Text.SplitAfterPiece | caladrius/model/trainer.py:274 | a separator-free prefix is glued to the first piece of the rest |
| Text.Digits | caladrius/model/trainer.py:107 | the decimal digits of a natural have no leading zero |
| Text.ValueOfDigits | caladrius/model/trainer.py:107 | the digits denote the number they render |
| Text.ZeroPad | caladrius/model/trainer.py:107 | `{:03d}` pads with zeros to the width and never truncates a wider number |
| Text.ZeroPadValue | caladrius/model/trainer.py:107 | the padded text denotes the same number |
| Text.ZeroPadInjective | caladrius/model/trainer.py:107 | different epochs get different padded numbers |
| Text.DigitsLength | caladrius/model/trainer.py:107 | a number below 10^k needs at most k digits |
| Text.ValueAppend | caladrius/model/trainer.py:107 | the value of a concatenation of digit strings is positional |
| Text.ValueOfZeros | caladrius/model/trainer.py:107 | a run of zeros denotes 0 |
| Text.LeadingZerosValue | caladrius/model/trainer.py:107 | leading zeros do not change the value |
| Text.IntText | caladrius/model/trainer.py:212 | `str()` of an integer starts with a minus sign exactly when it is negative, and the rest is digits denoting its magnitude, with no leading zero unless it is "0" |
| Text.RoundHalfEven | caladrius/model/trainer.py:287 | rounding is to within one half, ties go to the even neighbour, and non-negatives stay non-negative |
| Text.Fixed4 | caladrius/model/trainer.py:287 | `{:.4f}`: a minus sign exactly for negatives, then the decimal digits of the rounded whole part (no leading zero), a point, and the remainder in exactly four zero-padded digits |
| Text.TenThousandths | caladrius/model/trainer.py:287 | the magnitude is rounded to ten-thousandths to within one half unit |
| Text.FixedDigits | caladrius/model/trainer.py:287 | the unsigned rendering of q ten-thousandths: the digits of q / 10000, a point, and q % 10000 zero-padded to four digits |
| Text.UnsignedFixedValue | caladrius/model/trainer.py:287 | `whole.ffff` denotes whole + ffff/10000 |
| Text.Fixed4Denotes | caladrius/model/trainer.py:287 | the rendered text denotes the value to within 0.00005 |
| Baseline.SumBounds | caladrius/model/trainer.py:100 | a sum of values between lo and hi lies between n*lo and n*hi |
| Baseline.Mean | caladrius/model/trainer.py:100 | `mean` of a non-empty list lies between its smallest and its largest label |
| Baseline.MeanBounds | caladrius/model/trainer.py:100 | the mean of the labels lies between their bounds |
| Baseline.MeanOfConstant | caladrius/model/trainer.py:100 | the mean of equal labels is that label |
| Baseline.ModeFrom | caladrius/model/trainer.py:103 | the scan returns a label of the list that is at least as frequent as every label |
| Baseline.Mode | caladrius/model/trainer.py:103 | `statistics.mode` returns a label of the list with the largest count |
| Baseline.Truncate | caladrius/model/trainer.py:103 | `int()` truncates toward zero, by less than one |
| Baseline.CalculateAverageLabel | caladrius/model/trainer.py:95-104 | an average exists iff a non-empty training split was given; no split is NoTrainingSet, an empty one EmptyTrainingSet; regression gives exactly the mean of the labels; classification gives the truncation of a most frequent label |
| Baseline.RegressionAverageIsMean | caladrius/model/trainer.py:95-104 | the regression average is the mean and lies within the labels' range |
| Baseline.OneHot | caladrius/model/trainer.py:89-91 | assigning class k into a zero vector of n succeeds iff -n <= k < n |
| Baseline.OneHotCells | caladrius/model/trainer.py:89-91 | the one-hot row has n cells of 0 or 1, and exactly the wrapped index is 1 |
| Baseline.AverageOutputs | caladrius/model/trainer.py:86-93 | regression: the average repeated once per sample; classification: batch-size rows, each the one-hot row of n_classes for the mode class, failing exactly for an out-of-range class and for a non-integer average |
| Baseline.RegressionOutputsAreAverage | caladrius/model/trainer.py:87-88 | the regression outputs are the average repeated over the batch |
| Baseline.MeanExample | caladrius/model/trainer.py:95-104 | labels 1,1,1,2,3 average to 1.6 |
| Baseline.ModeExample | caladrius/model/trainer.py:95-104 | labels 0,0,1,2 have mode class 0 |
| Discretise.Clamp | caladrius/model/trainer.py:143 | `clamp(0, 1)` lands in [0, 1], keeps values already there, and maps below to 0 and above to 1 |
| Discretise.ClampIdempotentMonotone | caladrius/model/trainer.py:143 | clamping twice is clamping once, and clamping keeps order |
| Discretise.ClampAll | caladrius/model/trainer.py:143 | element-wise clamp keeps length |
| Discretise.Argmax | caladrius/model/trainer.py:141 | the index of a row's maximum, the first one among ties |
| Discretise.ArgmaxRows | caladrius/model/trainer.py:141 | `torch.max(outputs, 1)` succeeds iff no row is empty and gives each row's argmax |
| Discretise.Predictions | caladrius/model/trainer.py:140-143 | regression never fails; classification of a vector fails with a dimension error; classification of a matrix succeeds iff no row is empty, and then gives per row the first index of a maximal cell (Argmax) |
| Discretise.RegressionPredictionsClamped | caladrius/model/trainer.py:142-143 | regression predictions are the clamped flattened outputs, in [0, 1] |
| Discretise.ArgmaxOneHot | caladrius/model/trainer.py:89-91 | the argmax of a one-hot row is its (wrapped) hot index |
| Discretise.AverageClassificationPredictions | caladrius/model/trainer.py:86-93 | the average classifier predicts its (wrapped) mode class for every sample |
| Discretise.AverageClassificationOutOfRange | caladrius/model/trainer.py:89-91 | an out-of-range mode class makes the outputs fail |
| Discretise.AverageRegressionPredictions | caladrius/model/trainer.py:87-88 | the average regressor predicts the clamped mean for every sample |
| Tensors.Flatten | caladrius/model/trainer.py:215-216 | `view(-1).tolist()` of a float tensor: a vector's values, or a matrix's rows one after the other (definition) |
| Tensors.ToList | caladrius/model/trainer.py:208 | `tolist()` gives one item per sample: per value of a vector, per row of a matrix |
| PredictionFile.FileNamePerEpoch | caladrius/model/trainer.py:106-110 | different epochs get different prediction file names |
| PredictionFile.EpochPadding | caladrius/model/trainer.py:107 | epochs below 1000 are written with exactly three digits |
| PredictionFile.PathJoin | caladrius/model/trainer.py:110 | `os.path.join` keeps an absolute name; otherwise the directory is the prefix and the name the suffix, joined directly when the directory is empty or ends in `/`, and else with exactly one `/` between them |
| PredictionFile.FileName | caladrius/model/trainer.py:106-108 | the prediction file name of a run, phase, epoch and model type (definition; stated by FileNamePerEpoch and EpochPadding) |
| PredictionFile.SampleLineFields | caladrius/model/trainer.py:210-219 | a sample line ends in a newline and splits on spaces back into file name, label and prediction |
| PredictionFile.SampleLine | caladrius/model/trainer.py:212 | one `filename label prediction` line (definition; stated by SampleLineFields) |
| PredictionFile.Render | caladrius/model/trainer.py:212-216 | `"{}".format` of an int is its decimal text, of a float the float rendering (definition; stated by SampleLineFields) |
| PredictionFile.SampleLines | caladrius/model/trainer.py:210-219 | `zip` gives as many lines as the shortest column, line i built from the i-th entries |
| PredictionFile.InferenceLines | caladrius/model/trainer.py:490-495 | as SampleLines for `filename prediction` lines |
| PredictionFile.InferenceLine | caladrius/model/trainer.py:492 | one `filename prediction` line (definition; stated by InferenceLineFields) |
| PredictionFile.InferenceLineFields | caladrius/model/trainer.py:490-495 | an inference line ends in a newline and splits on spaces back into file name and prediction |
| PredictionFile.ConcatAppend | caladrius/model/trainer.py:210-219 | writing one more line appends it to the text written so far |
| PredictionFile.TrailerValue | caladrius/model/trainer.py:286-290 | the trailer ends with the four-decimal metric and a newline, and that text is within 0.00005 of the metric |
| PredictionFile.Trailer | caladrius/model/trainer.py:287-289 | the `Epoch NNN (averaging) measure: x.xxxx` line (definition; stated by TrailerValue) |
| BestCheckpoint.BestAfter | caladrius/model/trainer.py:331-334 | the best score is at least 0.0, at least every validation score, and either 0.0 or one of them |
| BestCheckpoint.CheckpointEpochs | caladrius/model/trainer.py:371-380 | the epochs that write the checkpoint (definition; stated by CheckpointIff, CheckpointEpochsOrdered and LastCheckpointIsBest) |
| BestCheckpoint.BeatsBestIff | caladrius/model/trainer.py:371-373 | epoch i beats the best so far iff it is positive and strictly above every earlier score |
| BestCheckpoint.CheckpointIff | caladrius/model/trainer.py:371-380 | an epoch writes the checkpoint iff its validation score is positive and strictly above every earlier one |
| BestCheckpoint.CheckpointEpochsOrdered | caladrius/model/trainer.py:345-380 | checkpoint epochs are in 1..n and strictly increasing |
| BestCheckpoint.TiesNeverWrite | caladrius/model/trainer.py:371 | a score that is non-positive or repeats an earlier one never writes |
| BestCheckpoint.LastCheckpointIsBest | caladrius/model/trainer.py:345-380 | the last checkpoint written holds the best score; no checkpoint means the best stayed 0.0 |
| BestCheckpoint.BestIsMaximum | caladrius/model/trainer.py:331-373 | the best is the maximum of 0.0 and the scores |
| BestCheckpoint.NonIncreasingWritesOnce | caladrius/model/trainer.py:371-380 | falling scores write only after epoch 1 |
| BestCheckpoint.NonPositiveWritesNothing | caladrius/model/trainer.py:331-334 | without a positive score nothing is written |
| BestCheckpoint.FiveFallingEpochs | caladrius/model/trainer.py:371-380 | scores 0.9, 0.8, 0.8, 0.5, 0.1 write once, after epoch 1 |
| Trainer.CastLabels | caladrius/model/trainer.py:187-190 | one label per sample: each label kept as a float for regression, truncated toward zero to an integer for classification |
| Trainer.OutputsPreds | caladrius/model/trainer.py:118-145 | the outputs come from the network for a learned model, else from random draws, the average outputs (NoAverageLabel without an average) or the probabilities, by model type; any other statistical model is NoOutputs; the predictions are those discretised from the outputs; for each strategy it succeeds iff its outputs can be formed and discretised |
| Trainer.PredictionPath | caladrius/model/trainer.py:106-110 | the path create_prediction_file opens: the prediction directory joined with the file name (definition; stated by PathJoin and FileNamePerEpoch) |
| Trainer.OpenedFile | caladrius/model/trainer.py:111-116 | a fresh prediction file: text with the header, or an empty binary file for the probability model (definition) |
| Trainer.WrittenFile | caladrius/model/trainer.py:184-222 | the prediction file after the batch loop: the header and the text written, or the binary file for the probability model (definition; stated by RunEpochOutcome) |
| Trainer.EmitBatch | caladrius/model/trainer.py:184-222 | one batch: a failure earlier stops everything; success adds one evaluator record; outside training the weights do not change; a failure changes nothing but the failure; the batch succeeds iff no earlier batch failed, its outputs and predictions can be formed, and in the train phase the loss has a gradient (otherwise NoGradient) |
| Trainer.OutputsHaveGradient | caladrius/model/trainer.py:121-139 | the loss has a gradient exactly for the neural and probability models (definition) |
| Trainer.TrainWithoutGradientFails | caladrius/model/trainer.py:196-205 | without a gradient, a train-phase loop over a non-empty loader writes nothing, records nothing, keeps the weights and fails, with NoGradient once the first batch has outputs |
| Trainer.BaselineTrainEpochFails | caladrius/model/trainer.py:166-222 | a train-phase epoch of a model without a gradient fails, keeps the weights and the optimiser steps, and leaves only the header in its prediction file |
| Trainer.Emit | caladrius/model/trainer.py:184-222 | the batch loop of run_epoch as a fold of EmitBatch (definition; stated by EmitBatches, EmitText, EmitFeedsEvaluator and EmitSampleText) |
| Trainer.EmitBatches | caladrius/model/trainer.py:184-222 | the batch loop computes Emit, the fold of EmitBatch over the batches |
| Trainer.EmitStep | caladrius/model/trainer.py:184-222 | unfolding lemma used by the loop invariant: one more batch is one more EmitBatch step |
| Trainer.EmitStops | caladrius/model/trainer.py:184-222 | once a batch fails, later batches change nothing |
| Trainer.EmitRecords | caladrius/model/trainer.py:184-222 | at most one evaluator record per batch, exactly one each when no batch failed |
| Trainer.EmitKeepsWeights | caladrius/model/trainer.py:193-205 | outside training the weights are unchanged |
| Trainer.AverageOutputsPreds | caladrius/model/trainer.py:118-145 | the average classifier predicts its class for each of the batch's samples |
| Trainer.EmitAveragePredictions | caladrius/model/trainer.py:118-145 | outside the train phase, over a whole loader the average classifier never fails and predicts its mode class for every label |
| Trainer.WeightsAfter | caladrius/model/trainer.py:193-205 | the weights after one optimiser step per batch, in batch order; outside the train phase the starting weights (definition, used by EmitFeedsEvaluator) |
| Trainer.FedAppended | caladrius/model/trainer.py:184-222 | one more failure-free batch feeds the evaluator one more record, built with the weights reached before that batch |
| Trainer.EmitFeedsEvaluator | caladrius/model/trainer.py:184-222 | when no batch fails, record i holds batch i's cast labels, its predictions and the criterion's loss on its outputs, all computed with the weights after the optimiser steps on batches 0..i-1, and the loop ends with the weights after all of them |
| Trainer.AllFormed | caladrius/model/trainer.py:184-222 | a condition holds of every batch given the batches before it (definition) |
| Trainer.FormedSplit | caladrius/model/trainer.py:184-222 | the condition over a loader is the condition over all but its last batch and on the last batch (step lemma) |
| Trainer.BatchesFormed | caladrius/model/trainer.py:184-222 | every batch's outputs and predictions can be formed with the weights reached before it (definition) |
| Trainer.FormedAfter | caladrius/model/trainer.py:184-222 | whether one batch can be formed after the batches before it (definition) |
| Trainer.EmitSucceeds | caladrius/model/trainer.py:184-222 | the batch loop of run_epoch completes iff every batch can be formed with the weights reached before it and, in the train phase over a non-empty loader, the loss has a gradient |
| Trainer.RegressionEpochSucceeds | caladrius/model/trainer.py:121-143 | a regression model whose outputs come from the network or from random draws never fails a batch in any phase it has a gradient for |
| Trainer.BatchTexts | caladrius/model/trainer.py:210-219 | one text per batch, built from its file names and its record (definition, used by EmitText) |
| Trainer.TextAppended | caladrius/model/trainer.py:210-219 | one more failure-free batch appends its sample lines to the text |
| Trainer.EmitText | caladrius/model/trainer.py:210-219 | when no batch fails, the text is each batch's sample lines from its record's labels and predictions, in batch order |
| Trainer.SampleText | caladrius/model/trainer.py:210-219 | the sample lines of one batch: file names, cast labels, predictions (definition, used by EmitSampleText) |
| Trainer.EmitSampleText | caladrius/model/trainer.py:184-222 | when no batch fails, the text after the header is, batch by batch in order, the lines of file name, cast label and prediction, each batch run with the weights reached before it |
| Trainer.FedTexts | caladrius/model/trainer.py:210-219 | records fed from the batches give each batch's sample lines at the weights reached before it (helper for EmitSampleText) |
| Trainer.RunEpochSpec | caladrius/model/trainer.py:147-315 | an epoch never touches the checkpoint, and succeeds only for an accepted phase, leaving the training mode set for train only; its result and its file are stated by RunEpochOutcome |
| Trainer.EpochBatches | caladrius/model/trainer.py:184-292 | the batch loop and the file's end keep checkpoint, mode and average label |
| Trainer.EpochAverage | caladrius/model/trainer.py:178-179 | the average label an epoch runs with (definition; its outcomes are stated by RunEpochOutcome and InferenceOutcome) |
| Trainer.EpochResult | caladrius/model/trainer.py:271-292 | the epoch's loss, selected metric and closed file (definition; stated by RunEpochOutcome) |
| Trainer.RunEpochOutcome | caladrius/model/trainer.py:166-292 | without an average label the epoch fails with only the header written; a failing batch, or after the loop a selection metric that does not parse, fails it with the header and the lines so far and no trailer; otherwise it returns the evaluator's loss and the selected metric and the file is the header, the sample lines and the trailer (the pickled outputs for the probability model); the weights are the loop's; no batch fails iff every batch can be formed and, in a non-empty train phase, the loss has a gradient |
| Trainer.RunEpochRejectsPhase | caladrius/model/trainer.py:166 | an unknown phase fails the assertion and changes nothing |
| Trainer.RunEpochSteps | caladrius/model/trainer.py:170-205 | the mode is training iff the phase is train; other phases keep weights and step count; a successful train epoch takes one optimiser step per batch |
| Trainer.ValidationMatchesTest | caladrius/model/trainer.py:147-315 | validation and test epochs compute the same result, state and file contents; only the file name differs |
| Trainer.AverageNeedsTrainingSplit | caladrius/model/trainer.py:178-179 | the average model fails with no training split |
| Trainer.AverageEpochPredictsMode | caladrius/model/trainer.py:95-104 | for any selection metric, with a training split the average classifier stores the mode class; outside the train phase it predicts that class for every sample; in the train phase with a non-empty loader the epoch fails with NoGradient and records nothing |
| Trainer.InferenceBatch | caladrius/model/trainer.py:482-495 | an earlier failure stops inference, a failing batch writes nothing more, and a batch succeeds iff no earlier one failed and its outputs and predictions can be formed |
| Trainer.InferenceStep | caladrius/model/trainer.py:482-495 | unfolding lemma used by the loop invariant: one more batch is one more InferenceBatch step |
| Trainer.InferenceEmitStops | caladrius/model/trainer.py:482-495 | once a batch fails, later batches write nothing |
| Trainer.InferenceBatchText | caladrius/model/trainer.py:490-495 | the prediction lines of one batch (definition, used by InferenceTexts) |
| Trainer.InferenceTexts | caladrius/model/trainer.py:490-495 | one text per batch, in batch order |
| Trainer.InferenceTextAppended | caladrius/model/trainer.py:490-495 | one more batch that does not fail appends its prediction lines to the text |
| Trainer.InferenceText | caladrius/model/trainer.py:482-495 | when no batch fails, every batch's outputs were formed and the text is each batch's prediction lines, in batch order |
| Trainer.InferenceSucceeds | caladrius/model/trainer.py:482-495 | the inference loop completes iff every batch's outputs and predictions can be formed |
| Trainer.InferenceFormed | caladrius/model/trainer.py:482-495 | whether inference can form one batch (definition) |
| Trainer.InferenceFormedAll | caladrius/model/trainer.py:482-495 | InferenceSucceeds by induction over the batches (step lemma) |
| Trainer.RegressionInferenceSucceeds | caladrius/model/trainer.py:121-143 | a regression model whose outputs come from the network or from random draws completes the inference loop |
| Trainer.InferenceEmit | caladrius/model/trainer.py:482-495 | the batch loop of inference as a fold of InferenceBatch (definition; stated by InferBatches and InferenceText) |
| Trainer.InferenceWeights | caladrius/model/trainer.py:457-468 | a statistical model keeps its weights, a learned one reloads the checkpoint or fails without one (definition; stated by InferenceOutcome) |
| Trainer.InferenceSpec | caladrius/model/trainer.py:457-495 | inference as a function of the state (definition; stated by InferenceOutcome and InferenceFileHeaders) |
| Trainer.InferenceOutcome | caladrius/model/trainer.py:457-495 | without weights inference fails and changes nothing; the probability model fails at the second header; without an average label it fails after both headers; otherwise the file is both headers and the prediction lines, it succeeds iff no batch fails, iff every batch's outputs and predictions can be formed, and then the lines are every batch's, in order |
| Trainer.InferenceFileHeaders | caladrius/model/trainer.py:106-116 | the inference file begins with both header lines, `filename label prediction` then `filename prediction` |
| Trainer.BothHeaders | caladrius/model/trainer.py:476-477 | helper for InferenceFileHeaders: the two header lines together are the 46-character prefix |
| Trainer.RunReport.constructor | caladrius/model/trainer.py:340-343 | a fresh report has four empty lists |
| Trainer.RunReport.Clear | caladrius/model/trainer.py:340-343 | the four lists are emptied |
| Trainer.RunReport.AppendTrain | caladrius/model/trainer.py:350-351 | the train lists grow by the epoch's loss and score; the validation lists are unchanged |
| Trainer.RunReport.AppendValidation | caladrius/model/trainer.py:360-361 | the validation lists grow by the epoch's loss and score; the train lists are unchanged |
| Trainer.TrainPhasesKeepCheckpoint | caladrius/model/trainer.py:347-359 | neither phase of an epoch writes the checkpoint |
| Trainer.TrainEpochs | caladrius/model/trainer.py:345-380 | the training loop over epochs 1..n (definition; stated by TrainRunInvariant and ReportEntriesFromEpochs) |
| Trainer.TrainStart | caladrius/model/trainer.py:331-343 | the state before the first epoch: best score 0.0, no writes, empty report lists (definition) |
| Trainer.AfterTrainPhase | caladrius/model/trainer.py:347-351 | a failed train phase ends the run; a scored one appends its loss and score (definition; stated by ReportAfterEpoch and TrainStepConsistent) |
| Trainer.AfterValidationPhase | caladrius/model/trainer.py:354-380 | a scored validation phase appends its entries and writes the checkpoint when its score beats the best (definition; stated by ValidationScoredConsistent and TrainRunInvariant) |
| Trainer.TrainPhases | caladrius/model/trainer.py:347-359 | an epoch's two phases as run_epoch calls (definition; stated by TrainPhasesKeepCheckpoint) |
| Trainer.EpochCount | caladrius/model/trainer.py:345 | the number of epochs `range(1, number_of_epochs + 1)` gives (definition) |
| Trainer.TrainEpochsStop | caladrius/model/trainer.py:345-380 | an error ends the training loop: later epochs change nothing |
| Trainer.TrainStepConsistent | caladrius/model/trainer.py:345-380 | one epoch keeps the training invariant (report lengths, checkpoint epochs, best score, best weights, checkpoint file) |
| Trainer.ValidationFailsConsistent | caladrius/model/trainer.py:354-359 | a failed validation phase keeps the invariant |
| Trainer.ValidationScoredConsistent | caladrius/model/trainer.py:360-380 | a scored validation phase keeps the invariant: the writes are the checkpoint epochs of the scores, the best is BestAfter, and the checkpoint holds the weights after the last write |
| Trainer.TrainRunInvariant | caladrius/model/trainer.py:331-380 | after any number of epochs the written checkpoints are exactly CheckpointEpochs of the validation scores, and the file holds the weights of the last of them |
| Trainer.ReportEntriesFromEpochs | caladrius/model/trainer.py:345-380 | every report entry is the loss and score of the corresponding epoch's phase, and those epochs are chained: the first train phase starts in train's state, each validation phase where its train phase ended, each later train phase where the previous validation phase ended |
| Trainer.EpochsChained | caladrius/model/trainer.py:345-380 | the chaining of epochs: first train start, each validation start after its train phase, each train start after the previous validation phase, kept weights from each validation phase (definition) |
| Trainer.TrainEpochsChained | caladrius/model/trainer.py:345-380 | after any number of epochs the epochs of the run are chained from the starting state |
| Trainer.ChainAfterEpoch | caladrius/model/trainer.py:345-380 | one more epoch keeps the epochs chained |
| Trainer.ChainStep | caladrius/model/trainer.py:347-380 | the chain is kept whether the epoch's train phase fails or not (step lemma) |
| Trainer.ChainTrainFailed | caladrius/model/trainer.py:347-349 | a failed train phase adds its start state and keeps the chain (step lemma) |
| Trainer.ChainValidated | caladrius/model/trainer.py:354-380 | a train phase followed by a validation phase extends the chain by both start states (step lemma) |
| Trainer.ChainExtended | caladrius/model/trainer.py:345-380 | a run extended by one epoch's start states, and its weights when scored, stays chained (step lemma) |
| Trainer.CheckpointHoldsValidationWeights | caladrius/model/trainer.py:371-380 | the checkpoint train leaves holds the weights the validation phase of the last writing epoch ended with, that epoch being reached through the chain |
| Trainer.LastWriteWeights | caladrius/model/trainer.py:371-380 | for a consistent, chained run, the checkpoint holds the last writing epoch's validation weights |
| Trainer.ReportAfterEpoch | caladrius/model/trainer.py:345-361 | one more epoch keeps every report entry tied to its phase |
| Trainer.ReportAfterValidation | caladrius/model/trainer.py:354-361 | the validation entries appended are those of the validation phase |
| Trainer.ReportLengths | caladrius/model/trainer.py:340-361 | an error-free run of n epochs has n entries in each list |
| Trainer.TrainAverageFails | caladrius/model/trainer.py:347-349 | training the average model stops in epoch 1 with no report entries and no checkpoint |
| Trainer.QuasiSiameseNetwork.constructor | caladrius/model/trainer.py:31-81 | the trainer starts in training mode with no average label, no steps, no files and the given checkpoint |
| Trainer.QuasiSiameseNetwork.RunBatches | caladrius/model/trainer.py:184-222 | the loop computes Emit and updates weights and step count accordingly |
| Trainer.QuasiSiameseNetwork.RunEpoch | caladrius/model/trainer.py:147-315 | run_epoch's new state and result are RunEpochSpec's, whose result and file RunEpochOutcome states, and no checkpoint is written |
| Trainer.QuasiSiameseNetwork.FinishEpoch | caladrius/model/trainer.py:184-292 | the batch loop and closing the file give EpochBatches' state and result (stated by RunEpochOutcome) |
| Trainer.QuasiSiameseNetwork.Train | caladrius/model/trainer.py:317-392 | the state, the report and the checkpoint writes are those of TrainEpochs over the epoch count, and the result is its best score or its error |
| Trainer.QuasiSiameseNetwork.TrainOneEpoch | caladrius/model/trainer.py:345-380 | one loop iteration advances the run by exactly one TrainEpoch |
| Trainer.QuasiSiameseNetwork.TrainingPhase | caladrius/model/trainer.py:347-351 | the train phase and its report entries |
| Trainer.QuasiSiameseNetwork.ValidationPhase | caladrius/model/trainer.py:354-380 | the validation phase, its report entries and the checkpoint decision |
| Trainer.QuasiSiameseNetwork.KeepIfBest | caladrius/model/trainer.py:371-380 | a strictly better score becomes the best and writes the current weights to the checkpoint; otherwise nothing changes |
| Trainer.QuasiSiameseNetwork.Inference | caladrius/model/trainer.py:457-504 | inference's new state and result are InferenceSpec's, whose result and file InferenceOutcome states, and no checkpoint is written |
| Trainer.QuasiSiameseNetwork.InferBatches | caladrius/model/trainer.py:482-495 | the inference loop computes InferenceEmit |

## Left out

- Networks, softmax, random draws, the loss, the optimiser step and the rolling evaluator: these are PyTorch and model.evaluate code, which is not part of this model. They are functions held in `Config`, and the proofs hold for every choice of them.
- Devices, `DataParallel` and `zero_grad`: they do not affect the decisions modelled. Gradients matter in one place only: `loss.backward()` on baseline outputs raises, and that is modelled (`NoGradient`).
- Optimiser and network state: the optimiser step and the network are stateless functions of the weights and the batch. The optimiser's own state (Adam's moment estimates), the learning-rate scheduler (trainer.py:68-70, 369) and the behaviour that depends on the training mode (dropout and batch normalisation after trainer.py:170-172) are not modelled; the mode itself is kept in the state.
- Tensorboard, logging and timing (start and end times, durations): output only.
- Trainer.EmitBatch: a `log_step` of 0 makes `idx % self.log_step` (trainer.py:224) raise `ZeroDivisionError` once the first batch has been written and recorded. The model takes `log_step` to be non-zero and does not model that failure.
- `readable_float` (utils is not part of this model): the report lists hold the raw loss and score values.
- Floating point: scores, losses and labels are exact reals. NaN and infinities are not modelled, and neither is the binary rounding that `{:.4f}` and `mean` see.
- Python's `repr` of a float in the prediction lines: this is the opaque `showFloat`. Integers are rendered exactly.
- The pickle byte format of the `probability` model's file: the file holds the list of outputs as a value.
- `test()`: it depends on `dynamic_report_key` from utils, which is not part of this model. It is neither specified nor modelled.
- run.py and `datasets.load`: loaders are given as sequences of batches, and the training labels as a sequence.
- Baseline.Mode: the contract states a label of largest count. It does not state that ties go to the first such label in list order, although the function computes that.
- Trainer.QuasiSiameseNetwork.Train: returns the best validation score (or the error), whereas train returns `run_report` and only logs the best score. Here the report is the `RunReport` object the caller passes in, which `Train` updates in place.
- Trainer.QuasiSiameseNetwork.Train: the epoch number is a `nat`. A negative `number_of_epochs` gives no epochs, as `range` does.
- Trainer.QuasiSiameseNetwork.Inference: for a non-statistical model, loading a missing checkpoint file is an error value, not a `FileNotFoundError`.
- Trainer.TrainPhases: the two phases of an epoch are abstracted as one function from state, epoch and phase flag to new state and result. The loop invariants are proved for any such function that keeps the checkpoint.
