/** The scoring rules of a Tennis Jump match: the victory condition checked after
    every gameplay tick, the "MATCH POINT" banner condition of the gameplay HUD,
    and the winner shown by the end-of-game HUD. */
module Rules {

  /** Points a side needs before it can win. */
  const TARGET_SCORE: int := 7
  /** Lead a side needs over the other before it can win. */
  const MIN_VICTORY_DELTA: int := 2

  datatype Side = Left | Right

  /** `mine` is a winning score against `theirs`: at least 7 and ahead by at least 2.
      A winning score is positive and strictly ahead, so at most one side has won. */
  predicate HasWon(mine: int, theirs: int): (won: bool)
    ensures won ==> mine > theirs && mine > 0
  {
    mine >= TARGET_SCORE && mine - theirs >= MIN_VICTORY_DELTA
  }

  /** The end-of-match test of the gameplay tick: either side has won. */
  predicate GameOver(leftScore: int, rightScore: int): (over: bool)
    ensures over ==> leftScore != rightScore
  {
    HasWon(leftScore, rightScore) || HasWon(rightScore, leftScore)
  }

  /** The condition under which the gameplay HUD shows "MATCH POINT". It also holds
      on every won score, so the banner is drawn on the frame in which the match ends. */
  predicate MatchPoint(leftScore: int, rightScore: int): (shown: bool)
    ensures GameOver(leftScore, rightScore) ==> shown
  {
    (leftScore + 1 >= TARGET_SCORE && leftScore + 1 - rightScore >= MIN_VICTORY_DELTA)
    || (rightScore + 1 >= TARGET_SCORE && rightScore + 1 - leftScore >= MIN_VICTORY_DELTA)
  }

  /** The side the end-of-game HUD announces: left exactly when it has more points.
      On a finished match this is the side that satisfies the victory rule, so a
      tie is never announced. */
  function Winner(leftScore: int, rightScore: int): (w: Side)
    requires GameOver(leftScore, rightScore)
    ensures leftScore != rightScore
    ensures w == Left <==> HasWon(leftScore, rightScore)
    ensures w == Right <==> HasWon(rightScore, leftScore)
  {
    if leftScore > rightScore then Left else Right
  }

  /** A final score that one point made out of an unfinished match: either 7 to at
      most 5, or a lead of exactly 2. */
  predicate DecisiveScore(leftScore: int, rightScore: int)
  {
    (leftScore == TARGET_SCORE && rightScore <= TARGET_SCORE - MIN_VICTORY_DELTA)
    || (rightScore == TARGET_SCORE && leftScore <= TARGET_SCORE - MIN_VICTORY_DELTA)
    || leftScore - rightScore == MIN_VICTORY_DELTA
    || rightScore - leftScore == MIN_VICTORY_DELTA
  }

  /** "MATCH POINT" is shown exactly when one more point for one of the two sides
      would give a won score. */
  lemma MatchPointMeansOnePointFromVictory(leftScore: int, rightScore: int)
    ensures MatchPoint(leftScore, rightScore)
        <==> GameOver(leftScore + 1, rightScore) || GameOver(leftScore, rightScore + 1)
  {
  }

  /** One point scored in an unfinished match never jumps past the victory rule: if
      it ends the match, the scorer is the winner and the score is decisive. */
  lemma OnePointEndsDecisively(leftScore: int, rightScore: int, scorer: Side)
    requires !GameOver(leftScore, rightScore)
    ensures var l := if scorer == Left then leftScore + 1 else leftScore;
            var r := if scorer == Right then rightScore + 1 else rightScore;
            GameOver(l, r) ==> DecisiveScore(l, r) && Winner(l, r) == scorer
  {
  }

  /** An example: 7-5 ends with the left side winning, 7-6 goes on and 8-6 ends;
      6-5 is match point and 5-5 is not. */
  lemma ExampleScores()
    ensures GameOver(7, 5) && Winner(7, 5) == Left
    ensures !GameOver(7, 6)
    ensures GameOver(8, 6) && Winner(8, 6) == Left
    ensures MatchPoint(6, 5) && !MatchPoint(5, 5)
  {
  }
}
