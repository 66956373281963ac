/** Range check applied to every score before it is charted. */
module Validation {
  import opened Config
  import opened Results

  /** Why a score was refused: it lies outside the inclusive range
      [low, high], and the message names that range. */
  datatype ScoreError = OutOfRange(low: real, high: real)

  /** A score is accepted exactly when it lies in the inclusive range
      [ScoreMin, ScoreMax]; an accepted score is returned unchanged. */
  function ValidateScore(score: real): (r: Result<real, ScoreError>)
    ensures r.Ok? <==> 1.0 <= score <= 5.0
    ensures r.Ok? ==> r.value == score
    ensures r.Err? ==> r.error == OutOfRange(1.0, 5.0)
  {
    if !(ScoreMin <= score <= ScoreMax) then Err(OutOfRange(ScoreMin, ScoreMax))
    else Ok(score)
  }

  /** A full set of scores, as the input collection hands it to the chart:
      one score per dimension, each accepted by ValidateScore. */
  ghost predicate ValidScores(scores: seq<real>)
  {
    |scores| == |AxesConfig| && AllAccepted(scores)
  }

  /** Every score of the list is accepted by ValidateScore. */
  ghost predicate AllAccepted(scores: seq<real>)
  {
    forall i :: 0 <= i < |scores| ==> ValidateScore(scores[i]).Ok?
  }

  /** The range is inclusive at both ends: 1 and 5 pass, 0.99 and 5.01 fail,
      and validating an accepted score again accepts it again. */
  lemma ValidateScoreBoundaries(score: real)
    ensures ValidateScore(1.0) == Ok(1.0) && ValidateScore(5.0) == Ok(5.0)
    ensures ValidateScore(0.99).Err? && ValidateScore(5.01).Err?
    ensures ValidateScore(score).Ok? ==> ValidateScore(ValidateScore(score).value) == ValidateScore(score)
  {
  }
}
