/** The exceptions the trainer raises on the paths this model covers, and the
  * result type that carries them instead of a Python `raise`. */
module Outcomes {

  /** One constructor per exception the trainer can end with. */
  datatype Error =
    | PhaseNotAccepted(phase: string)   // the phase assertion at the top of run_epoch
    | UnpackMismatch(parts: nat)        // ValueError: the selection metric does not split into two parts
    | UnknownKey(key: string)           // KeyError from one of the two index tables
    | NoTrainingSet                     // the average baseline asked for labels of a training split it was not given
    | EmptyTrainingSet                  // StatisticsError: mean or mode of no labels
    | ClassIndexOutOfRange(index: int)  // IndexError setting the one-hot cell
    | NonIntegerIndex                   // a non-integer average label used as a class index
    | DimensionOutOfRange               // torch.max over dimension 1 of a rank-one tensor
    | EmptyReduction                    // torch.max over a row with no elements
    | NoOutputs                         // no branch of get_outputs_preds assigned `outputs`
    | NoAverageLabel                    // self.average_label read before it was ever set
    | MissingCheckpoint                 // torch.load of a checkpoint that was never written
    | TextToBinaryFile                  // a str written to a file opened in binary mode
    | NoGradient                        // RuntimeError: loss.backward() on outputs that do not require a gradient

  datatype Result<T> = Ok(value: T) | Err(error: Error) {
    predicate IsFailure() { Err? }

    function PropagateFailure<U>(): Result<U>
      requires Err?
    {
      Err(error)
    }

    function Extract(): T
      requires Ok?
    {
      value
    }
  }

  datatype Option<T> = None | Some(value: T)
}
