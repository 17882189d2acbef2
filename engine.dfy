/**
 * The entry point: reject an input with too little to go on, otherwise parse
 * it, estimate the probability and write the paragraph. JavaScript's `null`
 * (no input at all, or an absent result field) is None.
 */
module Engine {
  import opened Options
  import opened Strings
  import opened Parser
  import opened Estimator
  import opened Narrative

  /**
   * The engine's wording: the opening and closing pools and the fixed text of
   * every sentence, word for word. The generator is written against any
   * `Wording`, so its lemmas hold whatever the words; the words themselves are
   * kept here, where the entry point hands them to the generator, so that the
   * generator's proofs never have to look at the long literals.
   */
  const Text: Wording := Wording(
    openingLines := [
      "This is a knife-edge finish.",
      "The pressure is absolutely immense right now.",
      "All eyes are on the middle — this is what cricket is made of.",
      "The crowd is on its feet. Every delivery could be the last.",
      "We're in the business end of this match, and nerves will decide it."
    ],
    closingLines := [
      "Experience and composure will be the deciding factors.",
      "Expect fireworks — or heartbreak — in these final moments.",
      "History is waiting to be written on this pitch.",
      "Cricket's magic lives in exactly these moments.",
      "One moment of brilliance could change everything."
    ],
    herculean := "a Herculean target that even the best finishers would struggle with",
    challenging := "challenging but achievable with clean hitting and no panic",
    gettable := "a gettable target if the batting side keeps their heads",
    urgentRateLead := " runs needed, the required rate is a staggering ",
    urgentTail := " per over — a near-impossible ask that will demand back-to-back maximums.",
    chaseRateLead := " balls translates to a required run rate of ",
    runsOnlyTail := " runs on the board, the context of the match defines everything — pitch conditions, match format, and batting depth all play critical roles.",
    lastWicketsLead := "Crucially, the batting side has only ",
    collapseTail := "A late-order collapse has already exposed the tail, and the pressure on the last pair will be immense.",
    partnershipTail := "The last wicket partnership is a volatile commodity — one good delivery ends it all.",
    bufferTail := " wickets in hand gives them some buffer, but a quick breakthrough could send the tail crumbling. The fielding side will be hunting for the danger batter aggressively.",
    luxuryTail := " wickets available, the batting side has the luxury of intent — they can play their shots without fear of immediate collapse.",
    pressure := "The high-stakes nature of this game amplifies every error — a misfield, a dropped catch, or a wide could swing the momentum catastrophically.",
    momentum := "Momentum is firmly with the batting side right now. A batter in this kind of form can make the required rate feel irrelevant — momentum is its own weapon.",
    favouritesRest := " win probability, the batting side are clear favourites — but in cricket, nothing is guaranteed until that final run is scored.",
    contestRest := " win probability reflects a genuine contest. This match is on a razor's edge, and both sides have real reasons to believe.",
    underdogsRest := " chance is daunting, but cricket has seen bigger upsets. They'll need something extraordinary — a big over, or a rapid collapse from the opposition.",
    longShotRest := ", this is a long shot — but sport loves a miracle. Stranger things have happened on a cricket pitch.")

  /**
   * Both pools hold five different lines, so `pick` with five consecutive
   * seeds gives five different openings (and closings).
   */
  lemma TextPools()
    ensures Text.Valid()
    ensures forall i, j :: 0 <= i < j < 5 ==> Text.openingLines[i] != Text.openingLines[j]
    ensures forall i, j :: 0 <= i < j < 5 ==> Text.closingLines[i] != Text.closingLines[j]
  {
  }

  /** What `analyzeScenario` returns: the paragraph and the probability, or an error message. */
  datatype AnalysisResult = AnalysisResult(analysis: Option<string>, winProbability: Option<int>, error: Option<string>)

  const InsufficientInputMessage := "Please enter a match scenario with enough detail to analyze."

  /** No input, or fewer than five characters once surrounding whitespace is trimmed. */
  predicate Rejected(input: Option<string>) {
    input.None? || |Trim(input.value)| < 5
  }

  /**
   * Anything shorter than five characters is rejected, and so is all
   * whitespace; five characters or more with no whitespace at either end
   * are accepted.
   */
  lemma RejectionRule(input: string)
    ensures |input| < 5 ==> Rejected(Some(input))
    ensures (forall i :: 0 <= i < |input| ==> IsWhitespace(input[i])) ==> Rejected(Some(input))
    ensures |input| >= 5 && !IsWhitespace(input[0]) && !IsWhitespace(input[|input| - 1]) ==> !Rejected(Some(input))
  {
    if |input| >= 5 && !IsWhitespace(input[0]) && !IsWhitespace(input[|input| - 1]) {
      var b := TrimBounds(input);
      assert b.0 == 0 && b.1 == |input|;
      assert Trim(input) == input[0..|input|];
    }
  }

  /** `analyzeScenario`. */
  method AnalyzeScenario(input: Option<string>) returns (r: AnalysisResult)
    ensures r.error.Some? <==> Rejected(input)
    ensures Rejected(input) ==> r == AnalysisResult(None, None, Some(InsufficientInputMessage))
    ensures !Rejected(input) ==>
      var s := Parse(input.value);
      && r.error.None?
      && r.winProbability == Some(WinProbability(s))
      && r.analysis == Some(Join(Sentences(Text, s, WinProbability(s)), " "))
    ensures r.winProbability.Some? ==> 3 <= r.winProbability.value <= 97
  {
    if input.None? || |Trim(input.value)| < 5 {
      return AnalysisResult(None, None, Some(InsufficientInputMessage));
    }
    var scenario := Parse(input.value);
    var winProbability := CalculateWinProbability(scenario);
    var analysis := GenerateAnalysis(Text, scenario, winProbability);
    r := AnalysisResult(Some(analysis), Some(winProbability), None);
  }

  /**
   * The paragraph's grade of a chase and the estimator's base point the same
   * way: a Herculean chase has a base of at most 28, a gettable one at least
   * 44, a challenging one 44 or 28.
   */
  lemma GradeAgreesWithBase(runs: nat, balls: nat)
    requires balls > 0
    ensures ChaseDifficulty(runs, balls) == Herculean ==> RateScore(runs, balls) <= 28
    ensures ChaseDifficulty(runs, balls) == Challenging ==> RateScore(runs, balls) in {44, 28}
    ensures ChaseDifficulty(runs, balls) == Gettable ==> RateScore(runs, balls) >= 44
  {
    ChaseDifficultyExact(runs, balls);
  }

  /**
   * The two are read off different numbers, the printed rate and the exact
   * one: 483 off 241 balls is 12.02 an over, printed "12.0" and graded
   * challenging, while the estimator already scores it in the 12 to 15 band.
   */
  lemma GradeAndBaseDisagree()
    ensures RateTenths(483, 241) == 120
    ensures ChaseDifficulty(483, 241) == Challenging
    ensures RateScore(483, 241) == 28
  {
  }
}
