/**
 * The narrative generator: a paragraph of sentences in a fixed order —
 * opening, run rate, wickets, pressure, momentum, outlook, closing — where
 * the conditional ones are simply left out, joined with single spaces. The
 * opening and closing lines come from fixed pools of five, chosen by a seed
 * derived from the record.
 *
 * The fixed wording is gathered in one record, `Wording` (the engine's own
 * words are the constant `Engine.Text`). The sentence functions take the
 * wording as a parameter, so the shape of the paragraph is stated (and
 * proved) independently of the words that fill it.
 */
module Narrative {
  import opened Options
  import opened Strings
  import opened Parser
  import opened Arith

  // ─── The wording ───────────────────────────────────────────────────────────

  /** The phrase pools and the fixed text around the numbers each sentence splices in. */
  datatype Wording = Wording(
    openingLines: seq<string>,
    closingLines: seq<string>,
    herculean: string,
    challenging: string,
    gettable: string,
    urgentRateLead: string,
    urgentTail: string,
    chaseRateLead: string,
    runsOnlyTail: string,
    lastWicketsLead: string,
    collapseTail: string,
    partnershipTail: string,
    bufferTail: string,
    luxuryTail: string,
    pressure: string,
    momentum: string,
    favouritesRest: string,
    contestRest: string,
    underdogsRest: string,
    longShotRest: string)
  {
    /** Both pools hold five lines. */
    predicate Valid() {
      |openingLines| == 5 && |closingLines| == 5
    }
  }

  // ─── Picking from a pool, and the seed ─────────────────────────────────────

  /** `pick`: the pool entry the seed selects, cycling through the pool. */
  function Pick(pool: seq<string>, seed: nat): (line: string)
    requires |pool| > 0
    ensures line in pool
  {
    pool[seed % |pool|]
  }

  /** The seed: length of the lower-cased text plus the runs and balls (0 when absent). */
  function Seed(s: Scenario): (seed: nat)
    ensures s.runs.Some? && s.balls.Some? ==> seed == |s.raw| + s.runs.value + s.balls.value
    ensures s.runs.Some? && s.balls.None? ==> seed == |s.raw| + s.runs.value
    ensures s.runs.None? && s.balls.Some? ==> seed == |s.raw| + s.balls.value
    ensures s.runs.None? && s.balls.None? ==> seed == |s.raw|
  {
    |s.raw| + s.runs.GetOr(0) + s.balls.GetOr(0)
  }

  // ─── The run rate as the text prints it ────────────────────────────────────

  /**
   * The exact required rate (runs / balls) * 6 rounded half up to tenths.
   * `toFixed(1)` rounds the binary double of that rate instead, which can
   * fall just below an exact half-tenth (see README, "Left out").
   */
  function RateTenths(runs: nat, balls: nat): nat
    requires balls > 0
  {
    (120 * runs + balls) / (2 * balls)
  }

  /** RateTenths is the nearest tenth to the exact rate 6 * runs / balls, a half rounding up. */
  lemma RateTenthsNearest(runs: nat, balls: nat)
    requires balls > 0
    ensures var tenths := RateTenths(runs, balls);
      2 * tenths * balls <= 120 * runs + balls < 2 * (tenths + 1) * balls
  {
    DivBounds(120 * runs + balls, 2 * balls);
  }

  lemma DivBounds(x: nat, d: nat)
    requires d > 0
    ensures d * (x / d) <= x < d * (x / d + 1)
  {
  }

  /** Tenths written with one decimal place: 125 as "12.5". */
  function FormatTenths(tenths: nat): string {
    NatToString(tenths / 10) + "." + [DigitChar(tenths % 10)]
  }

  /** `((runs / balls) * 6).toFixed(1)`, including JavaScript's "Infinity" and "NaN" for no balls. */
  function FormattedRate(runs: nat, balls: nat): (r: string)
    ensures balls > 0 ==>
      var i := |r| - 2;
      && i >= 1 && r[i] == '.' && AllDigits(r[..i]) && IsDigit(r[i + 1])
      && 10 * DigitsValue(r[..i]) + DigitValue(r[i + 1]) == RateTenths(runs, balls)
    ensures balls == 0 && runs > 0 ==> r == "Infinity"
    ensures balls == 0 && runs == 0 ==> r == "NaN"
  {
    if balls > 0 then
      var tenths := RateTenths(runs, balls);
      FormatTenthsReadsBack(tenths);
      FormatTenths(tenths)
    else if runs > 0 then "Infinity"
    else "NaN"
  }

  /** How the text grades a chase, from the rate as printed (`parseFloat` of the rounded string). */
  datatype Difficulty = Herculean | Challenging | Gettable

  /**
   * With no balls the printed rate is "Infinity", above every threshold, or
   * "NaN", which compares false with both. The engine only grades a chase
   * with more than six balls left.
   */
  function ChaseDifficulty(runs: nat, balls: nat): Difficulty {
    if balls == 0 then (if runs > 0 then Herculean else Gettable)
    else
      var tenths := RateTenths(runs, balls);
      if tenths > 120 then Herculean
      else if tenths > 90 then Challenging
      else Gettable
  }

  /**
   * The grade follows the exact rate 6 * runs / balls with its thresholds
   * raised by half a tenth: the printed rate exceeds 12.0 exactly when the
   * exact rate is at least 12.05, and exceeds 9.0 exactly when it is at
   * least 9.05.
   */
  lemma ChaseDifficultyExact(runs: nat, balls: nat)
    requires balls > 0
    ensures ChaseDifficulty(runs, balls) == Herculean <==> 120 * runs >= 241 * balls
    ensures ChaseDifficulty(runs, balls) == Gettable <==> 120 * runs < 181 * balls
  {
    var tenths := RateTenths(runs, balls);
    TenthsTimesBalls(runs, balls);
    BandByProduct(tenths, balls, 121);
    BandByProduct(tenths, balls, 91);
  }

  /** RateTenthsNearest with the product `tenths * balls` kept whole. */
  lemma TenthsTimesBalls(runs: nat, balls: nat)
    requires balls > 0
    ensures 2 * (RateTenths(runs, balls) * balls) <= 120 * runs + balls
    ensures 120 * runs + balls < 2 * (RateTenths(runs, balls) * balls) + 2 * balls
  {
    RateTenthsNearest(runs, balls);
  }

  /** Comparing `t` with a threshold `m` is comparing `t * b` with `m * b`. */
  lemma BandByProduct(t: nat, b: nat, m: nat)
    requires b > 0
    ensures t >= m ==> t * b >= m * b
    ensures t < m ==> t * b + b <= m * b
  {
    if t >= m {
      MultiplyMonotone(m, t, b);
    } else {
      MultiplyMonotone(t + 1, m, b);
    }
  }

  /** The printed rate reads back as the tenths it was written from: digits, a point, one digit. */
  lemma FormatTenthsReadsBack(tenths: nat)
    ensures var f := FormatTenths(tenths); var i := |f| - 2;
      && i >= 1 && f[i] == '.' && AllDigits(f[..i]) && IsDigit(f[i + 1])
      && 10 * DigitsValue(f[..i]) + DigitValue(f[i + 1]) == tenths
  {
    var whole := NatToString(tenths / 10);
    NatToStringRoundTrip(tenths / 10);
    assert FormatTenths(tenths)[..|whole|] == whole;
  }

  function DifficultyPhrase(w: Wording, d: Difficulty): string {
    match d
    case Herculean => w.herculean
    case Challenging => w.challenging
    case Gettable => w.gettable
  }

  // ─── Sentences ─────────────────────────────────────────────────────────────

  /** The run-rate sentence when at most six balls remain: it quotes the rate and ends on the urgent note. */
  function UrgentSentence(w: Wording, runs: nat, balls: nat): (r: string)
    ensures Contains(r, FormattedRate(runs, balls))
    ensures EndsWith(r, w.urgentTail)
  {
    var head := "With just " + NatToString(balls) + " ball" + (if balls > 1 then "s" else "")
                + " remaining and " + NatToString(runs) + w.urgentRateLead;
    ContainsInfix(head, FormattedRate(runs, balls), w.urgentTail);
    EndsWithAppend(head + FormattedRate(runs, balls), w.urgentTail);
    head + FormattedRate(runs, balls) + w.urgentTail
  }

  /** The run-rate sentence when more than six balls remain: it quotes the rate and ends on its grade. */
  function ChaseSentence(w: Wording, runs: nat, balls: nat): (r: string)
    ensures Contains(r, FormattedRate(runs, balls))
    ensures EndsWith(r, DifficultyPhrase(w, ChaseDifficulty(runs, balls)) + ".")
  {
    var head := NatToString(runs) + " runs off " + NatToString(balls) + w.chaseRateLead;
    var grade := DifficultyPhrase(w, ChaseDifficulty(runs, balls)) + ".";
    ContainsInfix(head, FormattedRate(runs, balls), " — " + grade);
    EndsWithAppend(" — ", grade);
    EndsWithExtend(head + FormattedRate(runs, balls), " — " + grade, grade);
    head + FormattedRate(runs, balls) + (" — " + grade)
  }

  /** The run-rate sentence when the runs are known but the balls are not. */
  function RunsOnlySentence(w: Wording, runs: nat): (r: string)
    ensures Contains(r, NatToString(runs))
    ensures EndsWith(r, w.runsOnlyTail)
  {
    ContainsInfix("With ", NatToString(runs), w.runsOnlyTail);
    EndsWithAppend("With " + NatToString(runs), w.runsOnlyTail);
    "With " + NatToString(runs) + w.runsOnlyTail
  }

  /**
   * The wickets sentence, by the bands at most 1, 2 to 3, and 4 or more; with
   * one wicket or none it ends on the collapse risk.
   */
  function WicketsSentence(w: Wording, wickets: nat, collapseRisk: bool): (r: string)
    ensures Contains(r, NatToString(wickets))
    ensures wickets <= 1 ==> EndsWith(r, if collapseRisk then w.collapseTail else w.partnershipTail)
    ensures 2 <= wickets <= 3 ==> EndsWith(r, w.bufferTail)
    ensures wickets >= 4 ==> EndsWith(r, w.luxuryTail)
  {
    var count := NatToString(wickets);
    if wickets <= 1 then
      var tail := if collapseRisk then w.collapseTail else w.partnershipTail;
      var rest := " wicket" + (if wickets != 1 then "s" else "") + " remaining. " + tail;
      ContainsInfix(w.lastWicketsLead, count, rest);
      EndsWithAppend(" wicket" + (if wickets != 1 then "s" else "") + " remaining. ", tail);
      EndsWithExtend(w.lastWicketsLead + count, rest, tail);
      w.lastWicketsLead + count + rest
    else if wickets <= 3 then
      ContainsStart(count, w.bufferTail);
      EndsWithAppend(count, w.bufferTail);
      count + w.bufferTail
    else
      ContainsInfix("With ", count, w.luxuryTail);
      EndsWithAppend("With " + count, w.luxuryTail);
      "With " + count + w.luxuryTail
  }

  /** The four outlooks, by the bands >= 70, >= 50, >= 30 and below. */
  datatype Outlook = Favourites | Contest | Underdogs | LongShot

  function OutlookOf(winProb: int): (o: Outlook)
    ensures o == Favourites <==> winProb >= 70
    ensures o == Contest <==> 50 <= winProb < 70
    ensures o == Underdogs <==> 30 <= winProb < 50
    ensures o == LongShot <==> winProb < 30
  {
    if winProb >= 70 then Favourites
    else if winProb >= 50 then Contest
    else if winProb >= 30 then Underdogs
    else LongShot
  }

  /** The words of an outlook sentence before the quoted probability. */
  function OutlookLead(o: Outlook): string {
    match o
    case Favourites => "At "
    case Contest => "The "
    case Underdogs => "A "
    case LongShot => "At just "
  }

  /** The words of an outlook sentence after the quoted probability. */
  function OutlookRest(w: Wording, o: Outlook): string {
    match o
    case Favourites => w.favouritesRest
    case Contest => w.contestRest
    case Underdogs => w.underdogsRest
    case LongShot => w.longShotRest
  }

  /** The outlook sentence, quoting the probability as `<p>%`. */
  function OutlookSentence(w: Wording, winProb: int): string {
    var o := OutlookOf(winProb);
    OutlookLead(o) + (IntToString(winProb) + "%") + OutlookRest(w, o)
  }

  // ─── The paragraph ─────────────────────────────────────────────────────────

  /** One sentence of the paragraph, with the numbers it quotes, before it is worded. */
  datatype Clause =
    | Opening(seed: nat)
    | Urgent(runs: nat, balls: nat)
    | Chase(runs: nat, balls: nat)
    | RunsOnly(runs: nat)
    | WicketsLeft(wickets: nat, collapseRisk: bool)
    | HighPressure
    | WithMomentum
    | Probability(winProb: int)
    | Closing(seed: nat)

  /** The words of one clause. */
  function Sentence(w: Wording, c: Clause): string
    requires w.Valid()
  {
    match c
    case Opening(seed) => Pick(w.openingLines, seed)
    case Urgent(runs, balls) => UrgentSentence(w, runs, balls)
    case Chase(runs, balls) => ChaseSentence(w, runs, balls)
    case RunsOnly(runs) => RunsOnlySentence(w, runs)
    case WicketsLeft(wickets, collapseRisk) => WicketsSentence(w, wickets, collapseRisk)
    case HighPressure => w.pressure
    case WithMomentum => w.momentum
    case Probability(winProb) => OutlookSentence(w, winProb)
    case Closing(seed) => Pick(w.closingLines, seed)
  }

  /** The words of each clause, in order. */
  function Render(w: Wording, clauses: seq<Clause>): seq<string>
    requires w.Valid()
  {
    seq(|clauses|, i requires 0 <= i < |clauses| => Sentence(w, clauses[i]))
  }

  /**
   * The run-rate clause: the urgent one when at most six balls remain, the
   * chase when more do, the runs-only one without balls, none without runs.
   */
  function RunRateSection(s: Scenario): (section: seq<Clause>)
    ensures section == [] <==> s.runs.None?
    ensures |section| <= 1
    ensures section != [] ==>
              (section[0].Urgent? || section[0].Chase? || section[0].RunsOnly?) && section[0].runs == s.runs.value
    ensures section != [] ==> (section[0].Urgent? <==> s.balls.Some? && s.balls.value <= 6)
    ensures section != [] ==> (section[0].Chase? <==> s.balls.Some? && s.balls.value > 6)
    ensures section != [] ==> (section[0].RunsOnly? <==> s.balls.None?)
    ensures section != [] && !section[0].RunsOnly? ==> section[0].balls == s.balls.value
  {
    if s.runs.Some? && s.balls.Some? then
      var runs, balls := s.runs.value, s.balls.value;
      [if balls <= 6 then Urgent(runs, balls) else Chase(runs, balls)]
    else if s.runs.Some? then [RunsOnly(s.runs.value)]
    else []
  }

  /** The wickets clause, when the wickets are known. */
  function WicketsSection(s: Scenario): (section: seq<Clause>)
    ensures section == [] <==> s.wickets.None?
    ensures section != [] ==> section == [WicketsLeft(s.wickets.value, s.isCollapseRisk)]
  {
    if s.wickets.Some? then [WicketsLeft(s.wickets.value, s.isCollapseRisk)] else []
  }

  function PressureSection(s: Scenario): seq<Clause> {
    if s.isHighPressure then [HighPressure] else []
  }

  function MomentumSection(s: Scenario): seq<Clause> {
    if s.hasMomentum then [WithMomentum] else []
  }

  /** A list of a first item, four sections and two last items, in that order. */
  function Assemble<T>(first: T, r: seq<T>, k: seq<T>, p: seq<T>, m: seq<T>, penultimate: T, last: T): seq<T> {
    [first] + r + k + p + m + [penultimate] + [last]
  }

  /**
   * The clauses `generateAnalysis` writes for the record `s` and the
   * probability `winProb`, in order: opening, run rate, wickets, pressure,
   * momentum, outlook, closing.
   */
  function Clauses(s: Scenario, winProb: int): seq<Clause> {
    Assemble(Opening(Seed(s)), RunRateSection(s), WicketsSection(s), PressureSection(s),
             MomentumSection(s), Probability(winProb), Closing(Seed(s) + 1))
  }

  /** The sentences of the paragraph. */
  function Sentences(w: Wording, s: Scenario, winProb: int): seq<string>
    requires w.Valid()
  {
    Render(w, Clauses(s, winProb))
  }

  /**
   * `generateAnalysis`: collect the clauses that apply, section by section,
   * in the order their sentences are pushed onto the list, then word them
   * and join them with spaces.
   */
  method GenerateAnalysis(w: Wording, s: Scenario, winProb: int) returns (text: string)
    requires w.Valid()
    ensures text == Join(Sentences(w, s, winProb), " ")
  {
    var seed := Seed(s);

    var runRate: seq<Clause> := [];
    if s.runs.Some? && s.balls.Some? {
      var runs, balls := s.runs.value, s.balls.value;
      if balls <= 6 {
        runRate := [Urgent(runs, balls)];
      } else {
        runRate := [Chase(runs, balls)];
      }
    } else if s.runs.Some? {
      runRate := [RunsOnly(s.runs.value)];
    }

    var wickets: seq<Clause> := [];
    if s.wickets.Some? {
      wickets := [WicketsLeft(s.wickets.value, s.isCollapseRisk)];
    }

    var pressure: seq<Clause> := [];
    if s.isHighPressure {
      pressure := [HighPressure];
    }
    var momentum: seq<Clause> := [];
    if s.hasMomentum {
      momentum := [WithMomentum];
    }

    var clauses := Assemble(Opening(seed), runRate, wickets, pressure, momentum, Probability(winProb), Closing(seed + 1));
    assert clauses == Clauses(s, winProb);
    text := Join(Render(w, clauses), " ");
  }

  // ─── Properties of the paragraph ───────────────────────────────────────────

  /** Every outlook sentence quotes the probability, as `<p>%`. */
  lemma OutlookQuotesProbability(w: Wording, winProb: int)
    ensures Contains(OutlookSentence(w, winProb), IntToString(winProb) + "%")
  {
    var o := OutlookOf(winProb);
    ContainsInfix(OutlookLead(o), IntToString(winProb) + "%", OutlookRest(w, o));
  }

  /**
   * The number of sentences, and the ones in fixed places: the opening line
   * first, the outlook next to last, the closing line last.
   */
  lemma SentenceFrame(w: Wording, s: Scenario, winProb: int)
    requires w.Valid()
    ensures var lines := Sentences(w, s, winProb);
      && |lines| == 3 + (if s.runs.Some? then 1 else 0) + (if s.wickets.Some? then 1 else 0)
                      + (if s.isHighPressure then 1 else 0) + (if s.hasMomentum then 1 else 0)
      && 3 <= |lines| <= 7
      && lines[0] == w.openingLines[Seed(s) % 5]
      && lines[|lines| - 2] == OutlookSentence(w, winProb)
      && lines[|lines| - 1] == w.closingLines[(Seed(s) + 1) % 5]
  {
    var clauses := Clauses(s, winProb);
    AssembleShape(Opening(Seed(s)), RunRateSection(s), WicketsSection(s), PressureSection(s),
                  MomentumSection(s), Probability(winProb), Closing(Seed(s) + 1));
    assert Sentences(w, s, winProb)[|clauses| - 2] == Sentence(w, clauses[|clauses| - 2]);
  }

  /** Exactly one clause quotes the probability: the one next to last. */
  lemma OneOutlook(s: Scenario, winProb: int)
    ensures var clauses := Clauses(s, winProb);
      && clauses[|clauses| - 2] == Probability(winProb)
      && forall i :: 0 <= i < |clauses| && i != |clauses| - 2 ==> !clauses[i].Probability?
  {
    var clauses := Clauses(s, winProb);
    var run, wkt, prs, mom := RunRateSection(s), WicketsSection(s), PressureSection(s), MomentumSection(s);
    AssembleShape(Opening(Seed(s)), run, wkt, prs, mom, Probability(winProb), Closing(Seed(s) + 1));
    forall i | 0 <= i < |clauses| && i != |clauses| - 2
      ensures !clauses[i].Probability?
    {
      var j := i - 1;
      if 0 <= j < |run| {
        assert clauses[1 + j] == run[j];
      } else if 0 <= j - |run| < |wkt| {
        assert clauses[1 + |run| + (j - |run|)] == wkt[j - |run|];
      } else if 0 <= j - |run| - |wkt| < |prs| {
        assert clauses[1 + |run| + |wkt| + (j - |run| - |wkt|)] == prs[j - |run| - |wkt|];
      } else if 0 <= j - |run| - |wkt| - |prs| < |mom| {
        assert clauses[1 + |run| + |wkt| + |prs| + (j - |run| - |wkt| - |prs|)] == mom[j - |run| - |wkt| - |prs|];
      }
    }
  }

  /**
   * The clauses in order: the opening; the run-rate clause, when the runs
   * are known, of the kind the balls select; then the wickets, pressure and
   * momentum clauses, each where the ones before it leave it.
   */
  lemma ClauseOrder(s: Scenario, winProb: int)
    ensures var clauses := Clauses(s, winProb);
      && clauses[0] == Opening(Seed(s))
      && (clauses[1].Urgent? <==> s.runs.Some? && s.balls.Some? && s.balls.value <= 6)
      && (clauses[1].Chase? <==> s.runs.Some? && s.balls.Some? && s.balls.value > 6)
      && (clauses[1].RunsOnly? <==> s.runs.Some? && s.balls.None?)
    ensures var clauses := Clauses(s, winProb);
      var r := if s.runs.Some? then 1 else 0;
      var k := if s.wickets.Some? then 1 else 0;
      var p := if s.isHighPressure then 1 else 0;
      && (s.wickets.Some? ==> clauses[1 + r] == WicketsLeft(s.wickets.value, s.isCollapseRisk))
      && (s.isHighPressure ==> clauses[1 + r + k] == HighPressure)
      && (s.hasMomentum ==> clauses[1 + r + k + p] == WithMomentum)
  {
    var run, wkt, prs, mom := RunRateSection(s), WicketsSection(s), PressureSection(s), MomentumSection(s);
    AssembleShape(Opening(Seed(s)), run, wkt, prs, mom, Probability(winProb), Closing(Seed(s) + 1));
    if run == [] {
      if wkt != [] {
        assert Clauses(s, winProb)[1] == wkt[0];
      } else if prs != [] {
        assert Clauses(s, winProb)[1] == prs[0];
      } else if mom != [] {
        assert Clauses(s, winProb)[1] == mom[0];
      }
    } else {
      assert Clauses(s, winProb)[1] == run[0];
    }
  }

  /** An assembled list: its length and its fixed places. */
  lemma AssembleShape<T>(first: T, r: seq<T>, k: seq<T>, p: seq<T>, m: seq<T>, penultimate: T, last: T)
    ensures var l := Assemble(first, r, k, p, m, penultimate, last);
      && |l| == 3 + |r| + |k| + |p| + |m|
      && l[0] == first && l[|l| - 2] == penultimate && l[|l| - 1] == last
    ensures var l := Assemble(first, r, k, p, m, penultimate, last);
      && (forall i :: 0 <= i < |r| ==> l[1 + i] == r[i])
      && (forall i :: 0 <= i < |k| ==> l[1 + |r| + i] == k[i])
      && (forall i :: 0 <= i < |p| ==> l[1 + |r| + |k| + i] == p[i])
      && (forall i :: 0 <= i < |m| ==> l[1 + |r| + |k| + |p| + i] == m[i])
  {
  }

  /**
   * The paragraph opens with the pool line at `seed mod 5`, closes with the
   * pool line at `(seed + 1) mod 5`, and quotes the probability as `<p>%`.
   */
  lemma ParagraphFrame(w: Wording, s: Scenario, winProb: int)
    requires w.Valid()
    ensures StartsWith(Join(Sentences(w, s, winProb), " "), w.openingLines[Seed(s) % 5])
    ensures EndsWith(Join(Sentences(w, s, winProb), " "), w.closingLines[(Seed(s) + 1) % 5])
    ensures Contains(Join(Sentences(w, s, winProb), " "), IntToString(winProb) + "%")
  {
    var lines := Sentences(w, s, winProb);
    SentenceFrame(w, s, winProb);
    JoinEnds(lines, " ");
    JoinContains(lines, " ", |lines| - 2);
    OutlookQuotesProbability(w, winProb);
    ContainsTransitive(Join(lines, " "), lines[|lines| - 2], IntToString(winProb) + "%");
  }
}
