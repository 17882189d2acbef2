# Cricket scenario analysis engine, in Dafny

This models the scenario-analysis engine of a cricket "match insight" app. The
engine takes a free-text description of a match situation, such as "India need
20 runs off 6 balls with 2 wickets left". It answers with an estimated win
probability and a short paragraph of commentary. It has four stages:

- **Parser** (`Parser`, `parser.dfy`): `parseScenario`, with its helpers
  `extractNumbers` and `containsAny`. It lower-cases the text and takes every
  maximal run of digits as a candidate number. Each of `runs`, `balls`,
  `wickets` and `overs` takes the first candidate that its rule accepts. Four
  flags record whether a keyword of their list occurs in the text.
- **Estimator** (`Estimator`, `estimator.dfy`): `calculateWinProbability`, an
  integer rule cascade. It sets a base from the required run rate, adds a
  wickets adjustment, and flips to `100 - prob` for a bowling subject. Then it
  adds the pressure, momentum and collapse modifiers and clamps to [3, 97].
- **Narrative generator** (`Narrative`, `narrative.dfy`): `pick` and
  `generateAnalysis`. These build the paragraph in a fixed order: opening, run
  rate, wickets, pressure, momentum, outlook, closing. The opening and closing
  lines come from pools of five, chosen by a seed.
- **Entry point** (`Engine`, `engine.dfy`): `analyzeScenario`. It rejects an
  absent input, or one shorter than five characters once trimmed. Otherwise it
  chains the three stages.

`strings.dfy` (`Strings`) models the JavaScript string operations the engine
uses: `\d`, `Number`, `${n}`, `toLowerCase`, `trim`, `includes` and `join`.
`options.dfy` holds `Option`, which stands for JavaScript's `null`.
`arith.dfy` holds one multiplication fact.

Modelling choices:

- `calculateWinProbability` is a method. Like the source, it updates one
  running score step by step, and it is proved equal to the pure function
  `WinProbability`. The test "required rate `(runs / balls) * 6 <= k`" is
  written exactly over integers as `balls > 0 && 6 * runs <= k * balls`.
  No balls left counts as an infinite rate, as it does in the source.
- `generateAnalysis` is a method that collects the sentences section by section
  and joins them. It is proved equal to `Join(Sentences(...), " ")`. Each
  sentence is first a `Clause`, which names the sentence and the numbers it
  quotes. `Sentence` then words it.
- The fixed wording is the record `Wording`, and `Engine.Text` holds the
  engine's own words. The shape of the paragraph is proved for any wording
  whose pools hold five lines.
- The printed required rate, `((runs / balls) * 6).toFixed(1)`, is modelled
  as the exact rate `6 * runs / balls` rounded to the nearest tenth, with
  halves rounded up: `(120 * runs + balls) / (2 * balls)`. The source rounds
  the binary double nearest that rate. The two agree except at an exact
  half-tenth, where the double may fall just below the half (see "Left
  out"). For no balls the source prints "Infinity", or "NaN" when the runs
  are also 0, and so does the model. The chase grade ("Herculean" above
  12.0, "challenging" above 9.0) is read off the printed value, as
  `parseFloat` of the printed string is in the source.

## Model

| member | source | states |
|---|---|---|
| Strings.NatToStringRoundTrip | src/logic/analysisEngine.js:26 | The decimal rendering of `n`, as a template literal writes it, reads back as `n`. |
| Strings.DigitsRoundTrip | src/logic/analysisEngine.js:11 | A digit run without leading zeros is the rendering of the number `Number` reads from it. |
| Strings.TrimBounds | src/logic/analysisEngine.js:256 | `trim` keeps the span between the leading and the trailing whitespace: everything outside it is whitespace, and the kept span starts and ends with non-whitespace. The span is empty exactly when the input is all whitespace. |
| Strings.LowerIdempotent | src/logic/analysisEngine.js:22 | Lower-casing twice is lower-casing once. |
| Strings.JoinEnds | src/logic/analysisEngine.js:250 | A non-empty join starts with the first part and ends with the last. |
| Strings.JoinContains | src/logic/analysisEngine.js:250 | Every part occurs in the joined string. |
| Parser.ExtractNumbers | src/logic/analysisEngine.js:9-12 | There are never more candidate numbers than characters. |
| Parser.ExtractNumbersNoDigits | src/logic/analysisEngine.js:9-12 | A text without digits has no candidate numbers. |
| Parser.ExtractNumbersSplit | src/logic/analysisEngine.js:9-12 | A maximal digit run between non-digits contributes exactly its value, between the numbers before it and the numbers after it. |
| Parser.ContainsAny | src/logic/analysisEngine.js:14-17 | True exactly when some keyword of the list occurs in the lower-cased text. |
| Parser.FirstQualifying | src/logic/analysisEngine.js:25-39 | The first candidate whose qualifying rule holds, or None exactly when no candidate qualifies. |
| Parser.Parse | src/logic/analysisEngine.js:21-81 | The record keeps the lower-cased text as `raw`. |
| Parser.ParseField | src/logic/analysisEngine.js:25-39 | Each of runs, balls, wickets and overs is the first candidate that qualifies for it (`"<n> run"` or index 0 below 500, `"<n> ball"`/`"<n> delivery"`, `"<n> wicket"`/`"<n> wkt"`, `"<n> over"`), and is absent exactly when none does. |
| Parser.RunsFirstCandidate | src/logic/analysisEngine.js:25-27 | When the first candidate is below 500 it is `runs`, even if a later number is the one followed by "run". |
| Parser.FieldsAreCandidates | src/logic/analysisEngine.js:25-39 | Every field value is a candidate number. `runs` is absent only when there is no candidate or the first one is 500 or more. |
| Parser.NoDigitsNoNumbers | src/logic/analysisEngine.js:23-39 | A text without digits leaves all four numeric fields absent. |
| Parser.ParseFlags | src/logic/analysisEngine.js:41-68 | Each flag is set exactly when a keyword of its list occurs in the lower-cased text. |
| Parser.ParseIgnoresCase | src/logic/analysisEngine.js:22 | A text and its lower-case form parse to the same record. |
| Parser.SubsumedKeywords | src/logic/analysisEngine.js:41-54 | "needs" and "final ball" never decide a flag, because "need" and "final" are in the same lists. |
| Estimator.RateScore | src/logic/analysisEngine.js:99-108 | The rate base is one of 78, 62, 44, 28, 16, 8, and it is 8 when no balls remain. |
| Estimator.RateBase | src/logic/analysisEngine.js:97-108 | The base stays 50 unless both runs and balls are known. |
| Estimator.RateScoreBands | src/logic/analysisEngine.js:99-108 | Each base holds exactly for its band of the required rate: 78 up to 6 an over, 62 above 6 up to 9, 44 above 9 up to 12, 28 above 12 up to 15, 16 above 15 up to 18, and 8 above 18 or with no balls left. |
| Estimator.RateScoreBoundaries | src/logic/analysisEngine.js:102-107 | The thresholds 6, 9, 12, 15 and 18 are inclusive, and a rate just above 18 gives 8. |
| Estimator.RateScoreMonotoneInRuns | src/logic/analysisEngine.js:99-108 | With the balls fixed, more runs needed never raises the base. |
| Estimator.RateScoreMonotoneInBalls | src/logic/analysisEngine.js:99-108 | With the runs fixed, more balls left never lowers the base. |
| Estimator.WicketsAdjustmentBands | src/logic/analysisEngine.js:111-116 | The adjustment is +12 exactly for 7 or more wickets, +5 for 4 to 6, -10 for 2 and -18 for 1. It is 0 for none, 0 or 3. |
| Estimator.FlipBeforeModifiers | src/logic/analysisEngine.js:119-122 | The batting and bowling framings of one scenario sum to 100 plus twice the modifiers, so the flip comes before the modifiers. |
| Estimator.ModifierDirections | src/logic/analysisEngine.js:119-125 | High pressure moves the score by -5, momentum by +8 and collapse risk by -12, for either subject. None of them moves the clamped probability the other way. |
| Estimator.ModifierShift | src/logic/analysisEngine.js:120-125 | Scenarios that differ only in their modifiers differ by exactly that amount before the clamp, and in the same direction after it. |
| Estimator.ProbabilityMonotoneInRuns | src/logic/analysisEngine.js:99-125 | With the balls fixed, a batting subject's probability never rises as the runs needed grow, and a bowling subject's never falls. |
| Estimator.NeutralScenario | src/logic/analysisEngine.js:97-125 | Without runs, wickets or modifiers, the probability is 50 for either side. |
| Estimator.TwentyOffSixWithTwoWickets | src/logic/analysisEngine.js:99-125 | 20 runs off 6 balls with 2 wickets, batting, gives base 8, then -10, clamped up to 3. |
| Estimator.Clamp | src/logic/analysisEngine.js:125 | The result lies in [3, 97], and equals the input when the input already lies there. |
| Estimator.WinProbability | src/logic/analysisEngine.js:85-126 | The probability always lies in [3, 97]. |
| Estimator.CalculateWinProbability | src/logic/analysisEngine.js:85-126 | The step-by-step cascade returns `WinProbability(s)`, in [3, 97]. |
| Narrative.Pick | src/logic/analysisEngine.js:146-148 | The picked line is a line of the pool. |
| Narrative.Seed | src/logic/analysisEngine.js:161 | The seed is the text's length plus the runs and the balls, case by case: both known, only one known, or neither (an absent value counts as 0). |
| Engine.TextPools | src/logic/analysisEngine.js:130-144 | The opening and closing pools each hold five different lines, so five consecutive seeds pick five different lines. |
| Narrative.UrgentSentence | src/logic/analysisEngine.js:173-176 | The sentence for at most six balls quotes the printed rate and ends with the "near-impossible ask" tail. |
| Narrative.ChaseSentence | src/logic/analysisEngine.js:177-186 | The sentence for more than six balls quotes the printed rate and ends with the phrase for its grade and a full stop. |
| Narrative.RunsOnlySentence | src/logic/analysisEngine.js:188-191 | The sentence for runs without balls quotes the runs and ends with the "context of the match" tail. |
| Narrative.WicketsSentence | src/logic/analysisEngine.js:195-213 | The wickets sentence quotes the wickets. Its ending follows the band: with at most 1 wicket, the collapse tail under collapse risk and the partnership tail otherwise; the buffer tail for 2 to 3; the luxury tail for 4 or more. |
| Narrative.RunRateSection | src/logic/analysisEngine.js:169-192 | There is a run-rate clause exactly when the runs are known, and it carries the runs. It is the urgent one exactly when the balls are known and at most 6, the chase exactly when they are more than 6, and the runs-only one exactly when the balls are unknown. |
| Narrative.WicketsSection | src/logic/analysisEngine.js:195-213 | There is a wickets clause exactly when the wickets are known, and it carries the wickets and the collapse flag. |
| Narrative.ClauseOrder | src/logic/analysisEngine.js:166-226 | The opening comes first. The clause after it is urgent, chase or runs-only exactly as the runs and balls select. The wickets, pressure and momentum clauses then follow in that order, each at the place the present clauses before it leave. |
| Narrative.RateTenthsNearest | src/logic/analysisEngine.js:170 | The model's tenths are the nearest tenth to the exact rate `6 * runs / balls`, with a half rounded up. |
| Narrative.FormattedRate | src/logic/analysisEngine.js:170 | With balls left, the printed rate is digits, a point and one digit, reading back as the rounded tenths. With none, it is "Infinity" when runs are needed and "NaN" when none are. |
| Narrative.FormatTenthsReadsBack | src/logic/analysisEngine.js:170-182 | The printed rate is digits, a point and one digit, and it reads back as the tenths it was written from. |
| Narrative.ChaseDifficultyExact | src/logic/analysisEngine.js:179-185 | The chase is graded Herculean exactly when the exact rate is at least 12.05, and gettable exactly when it is below 9.05. |
| Narrative.OutlookOf | src/logic/analysisEngine.js:229-245 | The outlook is chosen by the bands >= 70, 50 to 69, 30 to 49 and below 30, each exactly. |
| Narrative.OutlookQuotesProbability | src/logic/analysisEngine.js:229-245 | Every outlook sentence quotes the probability as `<p>%`. |
| Narrative.OneOutlook | src/logic/analysisEngine.js:228-248 | Exactly one clause states the probability, and it is the one next to last. |
| Narrative.SentenceFrame | src/logic/analysisEngine.js:161-248 | The paragraph has 3 plus one sentence per present section, so 3 to 7 sentences. The first is `openingLines[seed % 5]`, the one next to last is the outlook, and the last is `closingLines[(seed + 1) % 5]`. |
| Narrative.ParagraphFrame | src/logic/analysisEngine.js:161-250 | The joined paragraph starts with the chosen opening line, ends with the chosen closing line, and contains `<p>%`. |
| Narrative.GenerateAnalysis | src/logic/analysisEngine.js:150-251 | The paragraph is the section-by-section sentences joined with single spaces. |
| Engine.RejectionRule | src/logic/analysisEngine.js:256 | Inputs shorter than five characters, and all-whitespace inputs, are rejected. Inputs of five or more characters without whitespace at either end are accepted. |
| Engine.AnalyzeScenario | src/logic/analysisEngine.js:255-269 | On rejection (no input, or trimmed length below 5), the result is exactly no analysis, no probability and the fixed message, and on no other input is there an error. Otherwise the result holds the probability and the paragraph of the parsed record, with the probability in [3, 97]. |
| Engine.GradeAgreesWithBase | src/logic/analysisEngine.js:99-108 | The paragraph's grade and the estimator's base point the same way: Herculean means a base of at most 28, gettable at least 44, and challenging 44 or 28. |
| Engine.GradeAndBaseDisagree | src/logic/analysisEngine.js:179-185 | 483 runs off 241 balls prints as "12.0" and is graded challenging, while the estimator already uses the 12-to-15 band (base 28). |

## Left out

- Floating point: the source computes `(runs / balls) * 6` in binary floating point. The model compares exact rationals. At a threshold the two can differ in the last bit, and the model gives the mathematically exact answer.
- `Math.round` in `calculateWinProbability` is left out, because it is applied to an integer and so changes nothing.
- Narrative.RateTenthsNearest and Narrative.FormattedRate: at an exact half-tenth the source may print the tenth below. It rounds the binary double of `(runs / balls) * 6`, which can fall just short of the half. For example, 61 runs off 40 balls is exactly 9.15 an over; the source prints "9.1" and the model "9.2". The chase grade is not affected, because the doubles at 12.05 and 9.05 lie above the half.
- Numbers: extracted numbers are unbounded naturals. `Number` loses precision above 2^53, and `toFixed` switches to exponent form from 10^21 upwards. Neither is modelled.
- The per-over rate `rpo` that `generateAnalysis` computes and never uses is not modelled.
- Text: lower-casing covers ASCII letters only, where `toLowerCase` covers all of Unicode. Lengths count characters, where JavaScript counts UTF-16 code units. `\d` is the ASCII digits, as in JavaScript. Trimming removes ECMAScript's WhiteSpace and LineTerminator characters.
- Input types: the input is either absent (`null`, `undefined`) or a string. Other JavaScript values are not modelled. The empty string, which `!input` rejects, is rejected by the trimmed-length rule as well.
- Parser.Parse: its own contract only fixes `raw`. What each field holds is stated by Parser.ParseField, Parser.ParseFlags and the other Parser lemmas.
- Narrative.GenerateAnalysis: the method collects `Clause` values and words them at the end, where the source pushes each worded sentence as it goes. The order and the words are the same.
- The user interface (React components, the 900 ms delay, rendering and labels) is not part of this model.
