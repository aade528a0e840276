/** The lookup at the end of run_epoch that turns a selection-metric
  * specifier such as "recall_micro" into one number of the score tuple. */
module Selection {
  import opened Outcomes
  import Text

  /** Precision, recall and F1 for one way of averaging over classes. */
  datatype Prf = Prf(precision: real, recall: real, f1: real)

  /** The six-part score tuple the rolling evaluator reports:
    * (accuracy, correct, total, micro, macro, weighted). */
  datatype Score = Score(accuracy: real, correct: int, total: int, micro: Prf, macro: Prf, weighted: Prf)

  /** `first_index`: which entry of the score tuple an averaging name picks. */
  const AVERAGING_INDEX: map<string, nat> := map["micro" := 3, "macro" := 4, "weighted" := 5]

  /** `second_index`: which component of that entry a measure name picks. */
  const MEASURE_INDEX: map<string, nat> := map["precision" := 0, "recall" := 1, "f1" := 2]

  /** `score[i]` for the three entries that hold a precision/recall/F1 triple. */
  function Entry(score: Score, i: nat): Prf
    requires 3 <= i <= 5
  {
    if i == 3 then score.micro else if i == 4 then score.macro else score.weighted
  }

  /** `prf[j]`. */
  function Component(prf: Prf, j: nat): real
    requires j <= 2
  {
    if j == 0 then prf.precision else if j == 1 then prf.recall else prf.f1
  }

  /** A specifier that passed both table lookups: `measure` is the part
    * before the underscore (`second_index_key`), `averaging` the part after
    * it (`first_index_key`). */
  datatype Selection = Selection(measure: string, averaging: string)

  predicate Known(sel: Selection)
  {
    sel.averaging in AVERAGING_INDEX && sel.measure in MEASURE_INDEX
  }

  /** The split and the two lookups, in the order Python evaluates them: the
    * unpacking of the split fails first, then the averaging key, then the
    * measure key. */
  function ParseSelectionMetric(spec: string): (r: Result<Selection>)
    ensures r.Ok? ==> Known(r.value)
  {
    var parts := Text.Split(spec, '_');
    if |parts| != 2 then Err(UnpackMismatch(|parts|))
    else if parts[1] !in AVERAGING_INDEX then Err(UnknownKey(parts[1]))
    else if parts[0] !in MEASURE_INDEX then Err(UnknownKey(parts[0]))
    else Ok(Selection(parts[0], parts[1]))
  }

  /** `epoch_score[first_index[averaging]][second_index[measure]]`. */
  function SelectedValue(sel: Selection, score: Score): (v: real)
    requires Known(sel)
    ensures sel.averaging == "micro" ==> v == Component(score.micro, MEASURE_INDEX[sel.measure])
    ensures sel.averaging == "macro" ==> v == Component(score.macro, MEASURE_INDEX[sel.measure])
    ensures sel.averaging == "weighted" ==> v == Component(score.weighted, MEASURE_INDEX[sel.measure])
    ensures sel.measure == "precision" ==> v == Entry(score, AVERAGING_INDEX[sel.averaging]).precision
    ensures sel.measure == "recall" ==> v == Entry(score, AVERAGING_INDEX[sel.averaging]).recall
    ensures sel.measure == "f1" ==> v == Entry(score, AVERAGING_INDEX[sel.averaging]).f1
  {
    Component(Entry(score, AVERAGING_INDEX[sel.averaging]), MEASURE_INDEX[sel.measure])
  }

  /** Every known measure and averaging name, joined by one underscore, is
    * accepted and selects exactly that pair. */
  lemma ParseAccepts(measure: string, averaging: string)
    requires Known(Selection(measure, averaging))
    ensures ParseSelectionMetric(measure + "_" + averaging) == Ok(Selection(measure, averaging))
  {
    var parts := [measure, averaging];
    assert Text.Join(parts, '_') == measure + "_" + averaging;
    assert '_' !in measure && '_' !in averaging;
    assert forall i :: 0 <= i < |parts| ==> '_' !in parts[i];
    Text.SplitJoin(parts, '_');
  }

  /** Conversely, a specifier is accepted only when it is a known measure, an
    * underscore and a known averaging name, and nothing else. */
  lemma ParseSound(spec: string)
    requires ParseSelectionMetric(spec).Ok?
    ensures var sel := ParseSelectionMetric(spec).value;
      Known(sel) && spec == sel.measure + "_" + sel.averaging
  {
    var parts := Text.Split(spec, '_');
    assert Text.Join(parts, '_') == spec;
    assert Text.Join(parts, '_') == parts[0] + "_" + parts[1];
  }

  /** A specifier with no underscore, or with more than one, is an unpacking
    * error, never a default. */
  lemma ParseNeedsOneUnderscore(spec: string)
    requires Text.Occurrences(spec, '_') != 1
    ensures ParseSelectionMetric(spec) == Err(UnpackMismatch(Text.Occurrences(spec, '_') + 1))
  {
  }

  /** The default specifier of run_epoch picks the micro-averaged recall. */
  lemma DefaultIsMicroRecall(score: Score)
    ensures ParseSelectionMetric("recall_micro") == Ok(Selection("recall", "micro"))
    ensures SelectedValue(Selection("recall", "micro"), score) == score.micro.recall
  {
    ParseAccepts("recall", "micro");
    assert "recall" + "_" + "micro" == "recall_micro";
  }
}
