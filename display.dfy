/**
 * The values `updateDisplay` and `updateProgressBar` derive from the score and
 * the goal (script.js:108, script.js:119-140). JavaScript's double division is
 * modelled by exact rational arithmetic on `real`.
 */
module Display {

  /** Points still missing to reach the goal, never negative (script.js:108). */
  function Remaining(score: int, goal: int): (r: int)
    ensures r >= 0
    ensures r == 0 <==> score >= goal
    ensures r > 0 ==> score + r == goal
  {
    if goal - score > 0 then goal - score else 0
  }

  /** `Math.min(currentScore / goal, 1)` (script.js:120). */
  function Progress(score: int, goal: int): (p: real)
    requires goal != 0
    ensures p <= 1.0
    ensures p <= score as real / goal as real
    ensures p == 1.0 || p == score as real / goal as real
  {
    var ratio := score as real / goal as real;
    if ratio < 1.0 then ratio else 1.0
  }

  /** The colour class of the progress bar (script.js:132-140). */
  datatype ProgressTier = Low | Medium | High | Complete

  function Tier(progress: real): ProgressTier
  {
    if progress >= 1.0 then Complete
    else if progress >= 0.7 then High
    else if progress >= 0.4 then Medium
    else Low
  }

  /** The order of the tiers, from empty bar to full bar. */
  function Rank(t: ProgressTier): nat
  {
    match t
    case Low => 0
    case Medium => 1
    case High => 2
    case Complete => 3
  }

  /** `Math.round`: the nearest integer, halves rounded up. */
  function RoundHalfUp(x: real): (r: int)
    ensures r as real - 0.5 <= x < r as real + 0.5
  {
    (x + 0.5).Floor
  }

  /** The percentage shown beside the bar (script.js:121, script.js:127). */
  function Percent(score: int, goal: int): (r: int)
    requires goal != 0
    ensures r <= 100
    ensures Tier(Progress(score, goal)) == Complete ==> r == 100
    ensures goal > 0 && score >= 0 ==> r >= 0
  {
    RoundHalfUp(Progress(score, goal) * 100.0)
  }

  /** For a positive goal, comparing the ratio with a constant is comparing the score with a multiple of the goal. */
  lemma RatioAtLeast(score: int, goal: int, c: real)
    requires goal > 0
    ensures score as real / goal as real >= c <==> score as real >= c * goal as real
  {
    var q := score as real / goal as real;
    assert q * goal as real == score as real;
    if q >= c {
      assert q * goal as real >= c * goal as real;
    } else {
      assert q * goal as real < c * goal as real;
    }
  }

  /** With a positive goal the tiers are the integer bands 0.7 and 0.4 describe. */
  lemma TierBands(score: int, goal: int)
    requires goal > 0
    ensures Tier(Progress(score, goal)) == Complete <==> score >= goal
    ensures Tier(Progress(score, goal)) == High <==> 7 * goal <= 10 * score < 10 * goal
    ensures Tier(Progress(score, goal)) == Medium <==> 4 * goal <= 10 * score < 7 * goal
    ensures Tier(Progress(score, goal)) == Low <==> 10 * score < 4 * goal
  {
    RatioAtLeast(score, goal, 1.0);
    RatioAtLeast(score, goal, 0.7);
    RatioAtLeast(score, goal, 0.4);
  }

  /** A higher score never shows a lower tier. */
  lemma TierMonotone(s1: int, s2: int, goal: int)
    requires goal > 0 && s1 <= s2
    ensures Rank(Tier(Progress(s1, goal))) <= Rank(Tier(Progress(s2, goal)))
  {
    TierBands(s1, goal);
    TierBands(s2, goal);
  }

  /** A negative score always shows the lowest tier. */
  lemma NegativeScoreIsLow(score: int, goal: int)
    requires goal > 0 && score < 0
    ensures Tier(Progress(score, goal)) == Low
  {
    TierBands(score, goal);
  }
}
