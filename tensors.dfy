/** The few tensor shapes the trainer's decision logic sees. */
module Tensors {

  /** The supervision mode fixed at construction time. */
  datatype OutputType = Regression | Classification

  /** A float tensor of rank one (one value per sample) or rank two (one row
    * of class scores per sample). */
  datatype Tensor = Vector(values: seq<real>) | Matrix(rows: seq<seq<real>>)

  /** A Python number as `tolist()` hands it back: an int from a long
    * tensor, a float from a float tensor. */
  datatype Scalar = Int(i: int) | Float(r: real)

  /** An element of `outputs.tolist()`: a float of a rank-one tensor or a
    * list of floats of a rank-two one. */
  datatype Item = Number(value: real) | Row(row: seq<real>)

  /** The rows of a matrix, one after the other. */
  function ConcatRows(rows: seq<seq<real>>): (flat: seq<real>)
  {
    if rows == [] then [] else rows[0] + ConcatRows(rows[1..])
  }

  /** `t.view(-1).tolist()` of a float tensor. */
  function Flatten(t: Tensor): seq<real>
  {
    match t
    case Vector(values) => values
    case Matrix(rows) => ConcatRows(rows)
  }

  /** `t.tolist()`. */
  function ToList(t: Tensor): (items: seq<Item>)
    ensures |items| == if t.Vector? then |t.values| else |t.rows|
  {
    match t
    case Vector(values) => seq(|values|, i requires 0 <= i < |values| => Number(values[i]))
    case Matrix(rows) => seq(|rows|, i requires 0 <= i < |rows| => Row(rows[i]))
  }
}
