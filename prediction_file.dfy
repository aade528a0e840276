/** The text layout of the prediction files: the file name, the header, one
  * line per sample and the trailer of run_epoch, and the lines of
  * inference. */
module PredictionFile {
  import opened Tensors
  import opened Selection
  import Text

  /** The name create_prediction_file gives the file of one phase of one
    * epoch, with the epoch zero-padded to three digits. */
  function FileName(runName: string, phase: string, epoch: nat, modelType: string): string
  {
    runName + "-split_" + phase + "-epoch_" + Text.ZeroPad(epoch, 3) + "-model_" + modelType + "-predictions.txt"
  }

  /** Different epochs of the same run, phase and model never share a file. */
  lemma FileNamePerEpoch(runName: string, phase: string, modelType: string, e1: nat, e2: nat)
    requires e1 != e2
    ensures FileName(runName, phase, e1, modelType) != FileName(runName, phase, e2, modelType)
  {
    var pre := runName + "-split_" + phase + "-epoch_";
    var post := "-model_" + modelType + "-predictions.txt";
    var p1, p2 := Text.ZeroPad(e1, 3), Text.ZeroPad(e2, 3);
    assert FileName(runName, phase, e1, modelType) == pre + p1 + post;
    assert FileName(runName, phase, e2, modelType) == pre + p2 + post;
    if |p1| == |p2| && pre + p1 + post == pre + p2 + post {
      assert p1 == (pre + p1 + post)[|pre|..|pre| + |p1|];
      assert p2 == (pre + p2 + post)[|pre|..|pre| + |p2|];
      Text.ZeroPadInjective(e1, e2, 3);
    }
  }

  /** The number of epoch digits in a name is three for the first 999
    * epochs. */
  lemma EpochPadding(epoch: nat)
    requires epoch < 1000
    ensures |Text.ZeroPad(epoch, 3)| == 3
  {
    Text.DigitsLength(epoch, 3);
  }

  /** `os.path.join(directory, name)` on POSIX: an absolute name replaces the
    * directory; otherwise one slash separates them unless the directory is
    * empty or already ends with one. */
  function PathJoin(directory: string, name: string): (path: string)
    ensures |name| > 0 && name[0] == '/' ==> path == name
    ensures (|name| == 0 || name[0] != '/') ==>
      |path| >= |directory| + |name| && path[..|directory|] == directory && path[|path| - |name|..] == name
    ensures (|name| == 0 || name[0] != '/') && (directory == [] || directory[|directory| - 1] == '/') ==>
      |path| == |directory| + |name|
    ensures (|name| == 0 || name[0] != '/') && directory != [] && directory[|directory| - 1] != '/' ==>
      |path| == |directory| + |name| + 1 && path[|directory|] == '/'
  {
    if |name| > 0 && name[0] == '/' then name
    else if directory == [] || directory[|directory| - 1] == '/' then directory + name
    else directory + "/" + name
  }

  /** The first line of a prediction file of a labelled phase. */
  const HEADER: string := "filename label prediction\n"

  /** The line inference writes after the header. */
  const INFERENCE_HEADER: string := "filename prediction\n"

  /** `"{}".format(x)`: ints in decimal, floats by Python's float repr,
    * which `showFloat` stands for. */
  function Render(showFloat: real -> string, x: Scalar): string
  {
    match x
    case Int(i) => Text.IntText(i)
    case Float(r) => showFloat(r)
  }

  /** `"{} {} {}\n".format(filename, label, pred)`. */
  function SampleLine(filename: string, labelText: string, predText: string): string
  {
    filename + " " + labelText + " " + predText + "\n"
  }

  /** Splitting a sample line (without its newline) at spaces gives back its
    * three fields when none of them contains a space. */
  lemma SampleLineFields(filename: string, labelText: string, predText: string)
    requires ' ' !in filename && ' ' !in labelText && ' ' !in predText
    ensures var line := SampleLine(filename, labelText, predText);
      line[|line| - 1] == '\n' &&
      Text.Split(line[..|line| - 1], ' ') == [filename, labelText, predText]
  {
    var line := SampleLine(filename, labelText, predText);
    var fields := [filename, labelText, predText];
    assert Text.Join(fields[2..], ' ') == predText;
    assert Text.Join(fields[1..], ' ') == labelText + " " + predText;
    assert Text.Join(fields, ' ') == filename + " " + labelText + " " + predText;
    assert line[..|line| - 1] == Text.Join(fields, ' ');
    assert forall i :: 0 <= i < |fields| ==> ' ' !in fields[i];
    Text.SplitJoin(fields, ' ');
  }

  function Min(a: nat, b: nat): nat { if a < b then a else b }

  /** The lines `zip(filename, labels, preds)` yields: as many as the
    * shortest of the three sequences, in batch order. */
  function SampleLines(showFloat: real -> string, filenames: seq<string>, labels: seq<Scalar>, preds: seq<Scalar>): (lines: seq<string>)
    ensures |lines| == Min(Min(|filenames|, |labels|), |preds|)
    ensures forall i :: 0 <= i < |lines| ==>
      lines[i] == SampleLine(filenames[i], Render(showFloat, labels[i]), Render(showFloat, preds[i]))
  {
    if filenames == [] || labels == [] || preds == [] then []
    else
      [SampleLine(filenames[0], Render(showFloat, labels[0]), Render(showFloat, preds[0]))]
        + SampleLines(showFloat, filenames[1..], labels[1..], preds[1..])
  }

  /** `"{} {}\n".format(filename, pred)`. */
  function InferenceLine(filename: string, predText: string): string
  {
    filename + " " + predText + "\n"
  }

  /** Splitting an inference line (without its newline) at spaces gives
    * back its two fields when neither contains a space. */
  lemma InferenceLineFields(filename: string, predText: string)
    requires ' ' !in filename && ' ' !in predText
    ensures var line := InferenceLine(filename, predText);
      line[|line| - 1] == '\n' &&
      Text.Split(line[..|line| - 1], ' ') == [filename, predText]
  {
    var line := InferenceLine(filename, predText);
    var fields := [filename, predText];
    assert Text.Join(fields[1..], ' ') == predText;
    assert Text.Join(fields, ' ') == filename + " " + predText;
    assert line[..|line| - 1] == Text.Join(fields, ' ');
    assert forall i :: 0 <= i < |fields| ==> ' ' !in fields[i];
    Text.SplitJoin(fields, ' ');
  }

  /** The lines `zip(filename, preds)` yields in inference. */
  function InferenceLines(showFloat: real -> string, filenames: seq<string>, preds: seq<Scalar>): (lines: seq<string>)
    ensures |lines| == Min(|filenames|, |preds|)
    ensures forall i :: 0 <= i < |lines| ==> lines[i] == InferenceLine(filenames[i], Render(showFloat, preds[i]))
  {
    if filenames == [] || preds == [] then []
    else [InferenceLine(filenames[0], Render(showFloat, preds[0]))] + InferenceLines(showFloat, filenames[1..], preds[1..])
  }

  /** `writelines`: the lines one after the other. */
  function Concat(lines: seq<string>): string
  {
    if lines == [] then "" else lines[0] + Concat(lines[1..])
  }

  /** Writing one more piece after some pieces. */
  lemma {:induction false} ConcatAppend(lines: seq<string>, line: string)
    ensures Concat(lines + [line]) == Concat(lines) + line
  {
    if lines != [] {
      assert (lines + [line])[1..] == lines[1..] + [line];
      ConcatAppend(lines[1..], line);
    }
  }

  /** `"Epoch {:03d} ({}) {}: {:.4f}\n"` with the averaging name in
    * parentheses, then the measure name and the selected value. */
  function Trailer(epoch: nat, sel: Selection, value: real): string
  {
    "Epoch " + Text.ZeroPad(epoch, 3) + " (" + sel.averaging + ") " + sel.measure + ": " + Text.Fixed4(value) + "\n"
  }

  /** The trailer ends with the selected value in `{:.4f}` text and a
    * newline, and that text reads back within 0.00005 of the value. */
  lemma TrailerValue(epoch: nat, sel: Selection, value: real)
    ensures var t, f := Trailer(epoch, sel, value), Text.Fixed4(value);
      |t| > |f| && t[|t| - 1] == '\n' && t[|t| - 1 - |f|..|t| - 1] == f &&
      -0.00005 <= Text.DecimalValue(f) - value <= 0.00005
  {
    var t, f := Trailer(epoch, sel, value), Text.Fixed4(value);
    var pre := "Epoch " + Text.ZeroPad(epoch, 3) + " (" + sel.averaging + ") " + sel.measure + ": ";
    assert t == pre + f + "\n";
    assert t[|t| - 1 - |f|..|t| - 1] == f;
    Text.Fixed4Denotes(value);
  }
}
