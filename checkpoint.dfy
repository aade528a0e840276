/** Model selection in train: the best validation score starts at 0.0 and a
  * checkpoint is written only when an epoch's validation score is strictly
  * greater than the best so far. These functions give, for the sequence of
  * validation scores of epochs 1, 2, ..., the best score afterwards and the
  * epochs at which checkpoints are written. */
module BestCheckpoint {

  /** `best_validation_score` after the epochs whose scores are `scores`. */
  function BestAfter(scores: seq<real>): (best: real)
    ensures best >= 0.0
    ensures forall i :: 0 <= i < |scores| ==> scores[i] <= best
    ensures best == 0.0 || exists i :: 0 <= i < |scores| && scores[i] == best
  {
    if scores == [] then 0.0
    else
      var previous := BestAfter(scores[..|scores| - 1]);
      if scores[|scores| - 1] > previous then scores[|scores| - 1] else previous
  }

  /** The 1-based epochs at which train writes a checkpoint, in order. */
  function CheckpointEpochs(scores: seq<real>): seq<nat>
  {
    if scores == [] then []
    else
      var k := |scores| - 1;
      CheckpointEpochs(scores[..k]) + (if scores[k] > BestAfter(scores[..k]) then [k + 1] else [])
  }

  /** The score of epoch i + 1 beats 0.0 and every earlier score. */
  ghost predicate Improves(scores: seq<real>, i: nat)
    requires i < |scores|
  {
    0.0 < scores[i] && forall j :: 0 <= j < i ==> scores[j] < scores[i]
  }

  /** Beating the running best is the same as beating 0.0 and every earlier
    * score. */
  lemma BeatsBestIff(scores: seq<real>, i: nat)
    requires i < |scores|
    ensures scores[i] > BestAfter(scores[..i]) <==> Improves(scores, i)
  {
    var prefix := scores[..i];
    assert forall j :: 0 <= j < i ==> prefix[j] == scores[j];
  }

  /** A checkpoint is written at epoch e exactly when the score of epoch e is
    * strictly greater than 0.0 and than the score of every earlier epoch. */
  lemma {:induction false} CheckpointIff(scores: seq<real>, e: nat)
    ensures e in CheckpointEpochs(scores) <==> 1 <= e <= |scores| && Improves(scores, e - 1)
  {
    if scores != [] {
      var k := |scores| - 1;
      CheckpointIff(scores[..k], e);
      BeatsBestIff(scores, k);
      if 1 <= e <= k {
        assert scores[..k][..e - 1] == scores[..e - 1];
        assert Improves(scores[..k], e - 1) <==> Improves(scores, e - 1);
      }
    }
  }

  /** Checkpoint epochs are strictly increasing and lie within the run. */
  lemma {:induction false} CheckpointEpochsOrdered(scores: seq<real>)
    ensures forall i :: 0 <= i < |CheckpointEpochs(scores)| ==> 1 <= CheckpointEpochs(scores)[i] <= |scores|
    ensures forall i, j :: 0 <= i < j < |CheckpointEpochs(scores)| ==> CheckpointEpochs(scores)[i] < CheckpointEpochs(scores)[j]
  {
    if scores != [] {
      var k := |scores| - 1;
      var previous := CheckpointEpochs(scores[..k]);
      CheckpointEpochsOrdered(scores[..k]);
      var c := CheckpointEpochs(scores);
      assert c == previous + (if scores[k] > BestAfter(scores[..k]) then [k + 1] else []);
      assert forall i :: 0 <= i < |previous| ==> c[i] == previous[i];
    }
  }

  /** A score that ties an earlier one, or is not above 0.0, never triggers
    * a checkpoint. */
  lemma TiesNeverWrite(scores: seq<real>, i: nat)
    requires i < |scores|
    requires scores[i] <= 0.0 || exists j :: 0 <= j < i && scores[j] == scores[i]
    ensures i + 1 !in CheckpointEpochs(scores)
  {
    CheckpointIff(scores, i + 1);
    if 0.0 < scores[i] {
      var j :| 0 <= j < i && scores[j] == scores[i];
      assert !(scores[j] < scores[i]);
    }
    assert !Improves(scores, i);
  }

  /** The last checkpoint holds the best score; with no checkpoint the best
    * score is still 0.0. */
  lemma {:induction false} LastCheckpointIsBest(scores: seq<real>)
    ensures var c := CheckpointEpochs(scores);
      (c == [] ==> BestAfter(scores) == 0.0) &&
      (c != [] ==> 1 <= c[|c| - 1] <= |scores| && scores[c[|c| - 1] - 1] == BestAfter(scores))
  {
    if scores != [] {
      var k := |scores| - 1;
      LastCheckpointIsBest(scores[..k]);
      CheckpointEpochsOrdered(scores[..k]);
    }
  }

  /** The best score is the maximum of 0.0 and every score. */
  lemma BestIsMaximum(scores: seq<real>, m: real)
    requires m >= 0.0 && forall i :: 0 <= i < |scores| ==> scores[i] <= m
    requires m == 0.0 || exists i :: 0 <= i < |scores| && scores[i] == m
    ensures BestAfter(scores) == m
  {
  }

  /** Scores that never increase, starting above 0.0, write exactly one
    * checkpoint, at epoch 1. */
  lemma NonIncreasingWritesOnce(scores: seq<real>)
    requires |scores| > 0 && scores[0] > 0.0
    requires forall i, j :: 0 <= i <= j < |scores| ==> scores[j] <= scores[i]
    ensures CheckpointEpochs(scores) == [1]
  {
    var c := CheckpointEpochs(scores);
    CheckpointEpochsOrdered(scores);
    CheckpointIff(scores, 1);
    assert 1 in c;
    forall e | e in c
      ensures e == 1
    {
      CheckpointIff(scores, e);
    }
  }

  /** Scores that never rise above 0.0 (an all-zero run among them) write no
    * checkpoint. */
  lemma NonPositiveWritesNothing(scores: seq<real>)
    requires forall i :: 0 <= i < |scores| ==> scores[i] <= 0.0
    ensures CheckpointEpochs(scores) == []
  {
    var c := CheckpointEpochs(scores);
    if c != [] {
      CheckpointEpochsOrdered(scores);
      CheckpointIff(scores, c[0]);
    }
  }

  /** Five epochs of falling validation scores write one checkpoint. */
  lemma FiveFallingEpochs()
    ensures CheckpointEpochs([0.9, 0.8, 0.8, 0.5, 0.1]) == [1]
  {
    NonIncreasingWritesOnce([0.9, 0.8, 0.8, 0.5, 0.1]);
  }
}
