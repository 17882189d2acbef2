/**
 * The win-probability estimator: an integer rule cascade over a scenario
 * record. A base from the required run rate, an adjustment for wickets, a
 * flip to the other side's point of view when the subject is not batting,
 * three context modifiers, and a clamp to [3, 97].
 *
 * The required run rate is (runs / balls) * 6 runs per over; "rate <= k" is
 * written exactly, over integers, as 6 * runs <= k * balls (balls > 0), and
 * no balls left counts as an infinite rate.
 */
module Estimator {
  import opened Options
  import opened Parser
  import opened Arith

  /** The required run rate is at most `k` runs per over. */
  predicate RateAtMost(runs: nat, balls: nat, k: nat) {
    balls > 0 && 6 * runs <= k * balls
  }

  /** The base score for a chase of `runs` off `balls`: lower rate, easier chase, higher score. */
  function RateScore(runs: nat, balls: nat): (score: int)
    ensures score in {78, 62, 44, 28, 16, 8}
    ensures balls == 0 ==> score == 8
  {
    if RateAtMost(runs, balls, 6) then 78
    else if RateAtMost(runs, balls, 9) then 62
    else if RateAtMost(runs, balls, 12) then 44
    else if RateAtMost(runs, balls, 15) then 28
    else if RateAtMost(runs, balls, 18) then 16
    else 8
  }

  /** The base before any adjustment: the rate score when both runs and balls are known, else 50. */
  function RateBase(runs: Option<nat>, balls: Option<nat>): (base: int)
    ensures runs.None? || balls.None? ==> base == 50
    ensures runs.Some? && balls.Some? ==> base in {78, 62, 44, 28, 16, 8}
  {
    if runs.Some? && balls.Some? then RateScore(runs.value, balls.value) else 50
  }

  /** The adjustment for wickets in hand. Wickets 0 and 3 are deliberately left unadjusted. */
  function WicketsAdjustment(wickets: Option<nat>): (delta: int)
    ensures -18 <= delta <= 12
  {
    match wickets
    case None => 0
    case Some(w) =>
      if w >= 7 then 12
      else if w >= 4 then 5
      else if w == 2 then -10
      else if w == 1 then -18
      else 0
  }

  /** The score from the batting side's point of view, before the flip. */
  function BattingScore(s: Scenario): (score: int)
    ensures -10 <= score <= 90
  {
    RateBase(s.runs, s.balls) + WicketsAdjustment(s.wickets)
  }

  /** The score from the named subject's point of view. */
  function SubjectScore(s: Scenario): (score: int)
    ensures -10 <= score <= 110
  {
    if s.isBatting then BattingScore(s) else 100 - BattingScore(s)
  }

  /** The context modifiers: high pressure -5, momentum +8, collapse risk -12. */
  function ContextModifiers(s: Scenario): (delta: int)
    ensures -17 <= delta <= 8
  {
    (if s.isHighPressure then -5 else 0)
    + (if s.hasMomentum then 8 else 0)
    + (if s.isCollapseRisk then -12 else 0)
  }

  /** `Math.max(3, Math.min(97, x))`. */
  function Clamp(x: int): (r: int)
    ensures 3 <= r <= 97
    ensures 3 <= x <= 97 ==> r == x
    ensures x < 3 ==> r == 3
    ensures x > 97 ==> r == 97
  {
    if x < 3 then 3 else if x > 97 then 97 else x
  }

  /** The score before the clamp. */
  function Unclamped(s: Scenario): int {
    SubjectScore(s) + ContextModifiers(s)
  }

  /** What `calculateWinProbability` returns for the record `s`. */
  function WinProbability(s: Scenario): (p: int)
    ensures 3 <= p <= 97
  {
    Clamp(Unclamped(s))
  }

  /** `calculateWinProbability`: the cascade, updating one running score step by step. */
  method CalculateWinProbability(s: Scenario) returns (prob: int)
    ensures prob == WinProbability(s)
    ensures 3 <= prob <= 97
  {
    prob := 50;

    if s.runs.Some? && s.balls.Some? {
      var runs, balls := s.runs.value, s.balls.value;
      if RateAtMost(runs, balls, 6) {
        prob := 78;
      } else if RateAtMost(runs, balls, 9) {
        prob := 62;
      } else if RateAtMost(runs, balls, 12) {
        prob := 44;
      } else if RateAtMost(runs, balls, 15) {
        prob := 28;
      } else if RateAtMost(runs, balls, 18) {
        prob := 16;
      } else {
        prob := 8;
      }
    }
    assert prob == RateBase(s.runs, s.balls);

    if s.wickets.Some? {
      var wickets := s.wickets.value;
      if wickets >= 7 {
        prob := prob + 12;
      } else if wickets >= 4 {
        prob := prob + 5;
      } else if wickets == 2 {
        prob := prob - 10;
      } else if wickets == 1 {
        prob := prob - 18;
      }
    }
    assert prob == BattingScore(s);

    if !s.isBatting {
      prob := 100 - prob;
    }
    if s.isHighPressure {
      prob := prob - 5;
    }
    if s.hasMomentum {
      prob := prob + 8;
    }
    if s.isCollapseRisk {
      prob := prob - 12;
    }

    prob := if prob < 3 then 3 else if prob > 97 then 97 else prob;
  }

  // ─── Properties of the cascade ─────────────────────────────────────────────

  /** The thresholds are inclusive: a rate of exactly 6, 9, 12, 15 or 18 falls in the easier band. */
  lemma RateScoreBoundaries(balls: nat)
    requires balls > 0
    ensures RateScore(balls, balls) == 78
    ensures RateScore(3 * balls, 2 * balls) == 62
    ensures RateScore(2 * balls, balls) == 44
    ensures RateScore(5 * balls, 2 * balls) == 28
    ensures RateScore(3 * balls, balls) == 16
    ensures RateScore(3 * balls + 1, balls) == 8
  {
  }

  /**
   * Which band each required rate falls in, band by band: up to 6 an over,
   * above 6 up to 9, above 9 up to 12, above 12 up to 15, above 15 up to 18,
   * and above 18 or no balls left.
   */
  lemma RateScoreBands(runs: nat, balls: nat)
    ensures RateScore(runs, balls) == 78 <==> balls > 0 && 6 * runs <= 6 * balls
    ensures RateScore(runs, balls) == 62 <==> balls > 0 && 6 * balls < 6 * runs <= 9 * balls
    ensures RateScore(runs, balls) == 44 <==> balls > 0 && 9 * balls < 6 * runs <= 12 * balls
    ensures RateScore(runs, balls) == 28 <==> balls > 0 && 12 * balls < 6 * runs <= 15 * balls
    ensures RateScore(runs, balls) == 16 <==> balls > 0 && 15 * balls < 6 * runs <= 18 * balls
    ensures RateScore(runs, balls) == 8 <==> balls == 0 || 18 * balls < 6 * runs
  {
  }

  /** With the balls fixed, asking for more runs never raises the base. */
  lemma RateScoreMonotoneInRuns(r1: nat, r2: nat, balls: nat)
    requires r1 <= r2
    ensures RateScore(r1, balls) >= RateScore(r2, balls)
  {
  }

  /** With the runs fixed, having more balls left never lowers the base. */
  lemma RateScoreMonotoneInBalls(runs: nat, b1: nat, b2: nat)
    requires b1 <= b2
    ensures RateScore(runs, b1) <= RateScore(runs, b2)
  {
    assert forall k: nat :: RateAtMost(runs, b1, k) ==> RateAtMost(runs, b2, k) by {
      forall k: nat | RateAtMost(runs, b1, k)
        ensures RateAtMost(runs, b2, k)
      {
        MultiplyMonotone(b1, b2, k);
      }
    }
  }

  /** The wickets adjustment, band by band, with its gap at 0 and 3. */
  lemma WicketsAdjustmentBands(w: nat)
    ensures WicketsAdjustment(None) == 0
    ensures WicketsAdjustment(Some(w)) == 12 <==> w >= 7
    ensures WicketsAdjustment(Some(w)) == 5 <==> 4 <= w <= 6
    ensures WicketsAdjustment(Some(w)) == -10 <==> w == 2
    ensures WicketsAdjustment(Some(w)) == -18 <==> w == 1
    ensures WicketsAdjustment(Some(w)) == 0 <==> w == 0 || w == 3
  {
  }

  /**
   * The flip happens before the modifiers: the two framings of one scenario
   * mirror each other around 50, offset by the modifiers counted twice, so a
   * modifier pushes the same way whichever side is named.
   */
  lemma FlipBeforeModifiers(s: Scenario)
    ensures Unclamped(s.(isBatting := true)) + Unclamped(s.(isBatting := false))
            == 100 + 2 * ContextModifiers(s)
  {
  }

  /**
   * Each context modifier moves the score by a fixed amount, with the same
   * sign for a batting and a bowling subject, and never moves the clamped
   * probability the other way.
   */
  lemma ModifierDirections(s: Scenario)
    ensures Unclamped(s.(isHighPressure := true)) == Unclamped(s.(isHighPressure := false)) - 5
    ensures Unclamped(s.(hasMomentum := true)) == Unclamped(s.(hasMomentum := false)) + 8
    ensures Unclamped(s.(isCollapseRisk := true)) == Unclamped(s.(isCollapseRisk := false)) - 12
    ensures WinProbability(s.(isHighPressure := true)) <= WinProbability(s.(isHighPressure := false))
    ensures WinProbability(s.(hasMomentum := true)) >= WinProbability(s.(hasMomentum := false))
    ensures WinProbability(s.(isCollapseRisk := true)) <= WinProbability(s.(isCollapseRisk := false))
  {
    ModifierShift(s.(isHighPressure := true), s.(isHighPressure := false), -5);
    ModifierShift(s.(hasMomentum := true), s.(hasMomentum := false), 8);
    ModifierShift(s.(isCollapseRisk := true), s.(isCollapseRisk := false), -12);
  }

  /** Two scenarios that differ only in their modifiers differ by exactly that much before the clamp. */
  lemma ModifierShift(a: Scenario, b: Scenario, d: int)
    requires a.runs == b.runs && a.balls == b.balls && a.wickets == b.wickets && a.isBatting == b.isBatting
    requires ContextModifiers(a) == ContextModifiers(b) + d
    ensures Unclamped(a) == Unclamped(b) + d
    ensures d <= 0 ==> WinProbability(a) <= WinProbability(b)
    ensures d >= 0 ==> WinProbability(a) >= WinProbability(b)
  {
  }

  /**
   * With the balls fixed, a batting subject's probability never rises as the
   * runs needed grow, and a bowling subject's never falls.
   */
  lemma ProbabilityMonotoneInRuns(s: Scenario, r1: nat, r2: nat)
    requires r1 <= r2 && s.balls.Some?
    ensures s.isBatting ==> WinProbability(s.(runs := Some(r1))) >= WinProbability(s.(runs := Some(r2)))
    ensures !s.isBatting ==> WinProbability(s.(runs := Some(r1))) <= WinProbability(s.(runs := Some(r2)))
  {
    RateScoreMonotoneInRuns(r1, r2, s.balls.value);
  }

  /** Without run, ball or wicket information and without modifiers, either side stands at 50. */
  lemma NeutralScenario(s: Scenario)
    requires s.runs.None? && s.wickets.None?
    requires !s.isHighPressure && !s.hasMomentum && !s.isCollapseRisk
    ensures WinProbability(s) == 50
  {
  }

  /** 20 runs off 6 balls with 2 wickets, batting: base 8, minus 10, clamped up to 3. */
  lemma TwentyOffSixWithTwoWickets(raw: string)
    ensures WinProbability(Scenario(Some(20), Some(6), Some(2), None, true, false, false, false, raw)) == 3
  {
  }
}
