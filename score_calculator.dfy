/** Match points from huxi (rules/score_calculator.py). */
module Scoring {
  import opened Config

  /** calculate_score: no points below the huxi threshold, otherwise the base score plus
      one point for every further 3 huxi (floor division). */
  function CalculateScore(huxi: int): (points: nat)
    ensures huxi < MIN_HUXI_TO_WIN ==> points == 0
    ensures huxi >= MIN_HUXI_TO_WIN ==> points >= BASE_SCORE
    ensures huxi >= MIN_HUXI_TO_WIN ==>
      MIN_HUXI_TO_WIN + (points - BASE_SCORE) * HUXI_PER_EXTRA_SCORE <= huxi
      < MIN_HUXI_TO_WIN + (points - BASE_SCORE + 1) * HUXI_PER_EXTRA_SCORE
  {
    if huxi < MIN_HUXI_TO_WIN then 0
    else BASE_SCORE + (huxi - MIN_HUXI_TO_WIN) / HUXI_PER_EXTRA_SCORE
  }

  /** The examples the source documents. */
  lemma DocumentedExamples()
    ensures CalculateScore(15) == 1 && CalculateScore(18) == 2
    ensures CalculateScore(22) == 3 && CalculateScore(27) == 5
    ensures CalculateScore(14) == 0
  {
  }

  /** More huxi never gives fewer points. */
  lemma {:induction false} ScoreMonotone(a: int, b: int)
    requires a <= b
    ensures CalculateScore(a) <= CalculateScore(b)
  {
    if a >= MIN_HUXI_TO_WIN {
      var pa, pb := CalculateScore(a), CalculateScore(b);
      // pa counts the full steps of 3 up to a; b reaches at least as many
      assert MIN_HUXI_TO_WIN + (pa - BASE_SCORE) * HUXI_PER_EXTRA_SCORE <= b;
      assert b < MIN_HUXI_TO_WIN + (pb - BASE_SCORE + 1) * HUXI_PER_EXTRA_SCORE;
    }
  }

  /** Above the threshold, every 3 more huxi is worth exactly one more point. */
  lemma ScoreStep(h: int)
    requires h >= MIN_HUXI_TO_WIN
    ensures CalculateScore(h + HUXI_PER_EXTRA_SCORE) == CalculateScore(h) + 1
  {
    var p, q := CalculateScore(h), CalculateScore(h + HUXI_PER_EXTRA_SCORE);
    assert MIN_HUXI_TO_WIN + (p - BASE_SCORE) * 3 <= h < MIN_HUXI_TO_WIN + (p - BASE_SCORE + 1) * 3;
    assert MIN_HUXI_TO_WIN + (q - BASE_SCORE) * 3 <= h + 3 < MIN_HUXI_TO_WIN + (q - BASE_SCORE + 1) * 3;
  }
}
