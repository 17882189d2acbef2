/**
 * The scenario parser: free text in, a scenario record out. The text is
 * lower-cased, every maximal run of digits becomes a candidate number, each
 * numeric field takes the first candidate that its qualifying rule accepts,
 * and each flag records whether one of its keywords occurs in the text.
 */
module Parser {
  import opened Options
  import opened Strings

  /** The record the parser produces; the estimator and the generator read it. */
  datatype Scenario = Scenario(
    runs: Option<nat>,
    balls: Option<nat>,
    wickets: Option<nat>,
    overs: Option<nat>,
    isBatting: bool,
    isHighPressure: bool,
    hasMomentum: bool,
    isCollapseRisk: bool,
    raw: string)
  {
    /** The numeric field `f` of the record. */
    function Get(f: Field): Option<nat> {
      match f
      case Runs => runs
      case Balls => balls
      case Wickets => wickets
      case Overs => overs
    }
  }

  datatype Field = Runs | Balls | Wickets | Overs

  // ─── Candidate numbers ─────────────────────────────────────────────────────

  /** The length of the run of digits at the start of `s`. */
  function LeadingDigits(s: string): (k: nat)
    ensures k <= |s|
    ensures forall i :: 0 <= i < k ==> IsDigit(s[i])
    ensures k < |s| ==> !IsDigit(s[k])
    decreases |s|
  {
    if s == [] || !IsDigit(s[0]) then 0 else 1 + LeadingDigits(s[1..])
  }

  /** The values of the maximal runs of digits in `text`, in order of appearance. */
  function ExtractNumbers(text: string): (nums: seq<nat>)
    ensures |nums| <= |text|
    decreases |text|
  {
    if text == [] then []
    else if !IsDigit(text[0]) then ExtractNumbers(text[1..])
    else
      var k := LeadingDigits(text);
      [DigitsValue(text[..k])] + ExtractNumbers(text[k..])
  }

  lemma LeadingDigitsExactly(s: string, k: nat)
    requires k <= |s|
    requires forall i :: 0 <= i < k ==> IsDigit(s[i])
    requires k < |s| ==> !IsDigit(s[k])
    ensures LeadingDigits(s) == k
  {
  }

  /** A text without digits yields no candidate numbers. */
  lemma {:induction false} ExtractNumbersNoDigits(text: string)
    requires forall i :: 0 <= i < |text| ==> !IsDigit(text[i])
    ensures ExtractNumbers(text) == []
    decreases |text|
  {
    if text != [] {
      ExtractNumbersNoDigits(text[1..]);
    }
  }

  /** A run of digits at the very start, followed by a non-digit or nothing, is the first candidate. */
  lemma ExtractNumbersAtRun(d: string, q: string)
    requires d != [] && AllDigits(d)
    requires q == [] || !IsDigit(q[0])
    ensures ExtractNumbers(d + q) == [DigitsValue(d)] + ExtractNumbers(q)
  {
    var s := d + q;
    LeadingDigitsExactly(s, |d|);
    assert s[..|d|] == d && s[|d|..] == q;
  }

  /**
   * A run of digits `d` standing between two non-digits (or the ends of the
   * text) contributes exactly its value, between the numbers of the text
   * before it and those of the text after it. With ExtractNumbersNoDigits this
   * pins down ExtractNumbers on every text.
   */
  lemma {:induction false} ExtractNumbersSplit(p: string, d: string, q: string)
    requires p == [] || !IsDigit(p[|p| - 1])
    requires d != [] && AllDigits(d)
    requires q == [] || !IsDigit(q[0])
    ensures ExtractNumbers(p + d + q) == ExtractNumbers(p) + [DigitsValue(d)] + ExtractNumbers(q)
    decreases |p|, 1
  {
    if p == [] {
      assert p + d + q == d + q;
      ExtractNumbersAtRun(d, q);
    } else if !IsDigit(p[0]) {
      SplitAfterNonDigit(p, d, q);
    } else {
      SplitAfterRun(p, d, q);
    }
  }

  lemma {:induction false} SplitAfterNonDigit(p: string, d: string, q: string)
    requires p != [] && !IsDigit(p[0]) && !IsDigit(p[|p| - 1])
    requires d != [] && AllDigits(d)
    requires q == [] || !IsDigit(q[0])
    ensures ExtractNumbers(p + d + q) == ExtractNumbers(p) + [DigitsValue(d)] + ExtractNumbers(q)
    decreases |p|, 0
  {
    var c, t := p[0], p[1..];
    Regroup(p, 1, d, q);
    calc {
      ExtractNumbers(p + d + q);
      == ExtractNumbers([c] + (t + d + q));
      == { ExtractNumbersSkip(c, t + d + q); }
      ExtractNumbers(t + d + q);
      == { ExtractNumbersSplit(t, d, q); }
      ExtractNumbers(t) + [DigitsValue(d)] + ExtractNumbers(q);
      == { ExtractNumbersSkip(c, t); }
      ExtractNumbers([c] + t) + [DigitsValue(d)] + ExtractNumbers(q);
    }
  }

  lemma {:induction false} SplitAfterRun(p: string, d: string, q: string)
    requires p != [] && IsDigit(p[0]) && !IsDigit(p[|p| - 1])
    requires d != [] && AllDigits(d)
    requires q == [] || !IsDigit(q[0])
    ensures ExtractNumbers(p + d + q) == ExtractNumbers(p) + [DigitsValue(d)] + ExtractNumbers(q)
    decreases |p|, 0
  {
    var k := LeadingDigits(p);
    LeadingRun(p);
    var run, t := p[..k], p[k..];
    ExtractNumbersSplit(t, d, q);
    RunBeforeSplit(run, t, d, q);
    Regroup(p, k, d, q);
  }

  /** The step of SplitAfterRun once the split of the text after the leading run is known. */
  lemma RunBeforeSplit(run: string, t: string, d: string, q: string)
    requires run != [] && AllDigits(run)
    requires t != [] && !IsDigit(t[0]) && AllDigits(d)
    requires ExtractNumbers(t + d + q) == ExtractNumbers(t) + [DigitsValue(d)] + ExtractNumbers(q)
    ensures ExtractNumbers(run + (t + d + q)) == ExtractNumbers(run + t) + [DigitsValue(d)] + ExtractNumbers(q)
  {
    var v, e, f := DigitsValue(run), ExtractNumbers(t), [DigitsValue(d)] + ExtractNumbers(q);
    assert (t + d + q)[0] == t[0];
    calc {
      ExtractNumbers(run + (t + d + q));
      == { ExtractNumbersAtRun(run, t + d + q); }
      [v] + ExtractNumbers(t + d + q);
      == [v] + (e + f);
      == { AppendAssociative([v], e, f); }
      ([v] + e) + f;
      == { ExtractNumbersAtRun(run, t); }
      ExtractNumbers(run + t) + f;
    }
  }

  /** Cutting `p` at `k` and gluing the tail onto `d` and `q` gives the same text. */
  lemma Regroup(p: string, k: nat, d: string, q: string)
    requires k <= |p|
    ensures p + d + q == p[..k] + (p[k..] + d + q)
    ensures p[..k] + p[k..] == p
  {
  }

  lemma AppendAssociative<T>(a: seq<T>, b: seq<T>, c: seq<T>)
    ensures a + (b + c) == (a + b) + c
  {
  }

  /** A text that starts with a digit and ends with a non-digit splits after its first run. */
  lemma LeadingRun(p: string)
    requires p != [] && IsDigit(p[0]) && !IsDigit(p[|p| - 1])
    ensures var k := LeadingDigits(p);
      && 0 < k < |p| && AllDigits(p[..k])
      && !IsDigit(p[k..][0]) && !IsDigit(p[k..][|p[k..]| - 1])
  {
  }

  /** A leading non-digit contributes nothing. */
  lemma ExtractNumbersSkip(c: char, t: string)
    requires !IsDigit(c)
    ensures ExtractNumbers([c] + t) == ExtractNumbers(t)
  {
    assert ([c] + t)[1..] == t;
  }

  // ─── Numeric fields ────────────────────────────────────────────────────────

  /** The text contains `${n} <word>`. */
  predicate Tagged(text: string, n: nat, word: string) {
    Contains(text, NatToString(n) + " " + word)
  }

  /** Whether the candidate `n`, at index `i` of the candidates, qualifies for `field`. */
  predicate Qualifies(text: string, field: Field, n: nat, i: nat) {
    match field
    case Runs => Tagged(text, n, "run") || (i == 0 && n < 500)
    case Balls => Tagged(text, n, "ball") || Tagged(text, n, "delivery")
    case Wickets => Tagged(text, n, "wicket") || Tagged(text, n, "wkt")
    case Overs => Tagged(text, n, "over")
  }

  /** `r` is what `numbers.find(...) ?? null` gives for `field`: the first qualifying candidate, or None. */
  ghost predicate IsFirstQualifying(text: string, field: Field, nums: seq<nat>, r: Option<nat>) {
    && (r.None? <==> forall i :: 0 <= i < |nums| ==> !Qualifies(text, field, nums[i], i))
    && (r.Some? ==>
          exists i :: 0 <= i < |nums| && nums[i] == r.value && Qualifies(text, field, nums[i], i)
                      && forall j :: 0 <= j < i ==> !Qualifies(text, field, nums[j], j))
  }

  /** The index of the first candidate at or after `from` that qualifies for `field`. */
  function FindFrom(text: string, field: Field, nums: seq<nat>, from: nat): (r: Option<nat>)
    requires from <= |nums|
    ensures r.Some? ==> from <= r.value < |nums| && Qualifies(text, field, nums[r.value], r.value)
    ensures r.Some? ==> forall j :: from <= j < r.value ==> !Qualifies(text, field, nums[j], j)
    ensures r.None? ==> forall j :: from <= j < |nums| ==> !Qualifies(text, field, nums[j], j)
    decreases |nums| - from
  {
    if from == |nums| then None
    else if Qualifies(text, field, nums[from], from) then Some(from)
    else FindFrom(text, field, nums, from + 1)
  }

  /** The candidate that fills `field`. */
  function FirstQualifying(text: string, field: Field, nums: seq<nat>): (r: Option<nat>)
    ensures IsFirstQualifying(text, field, nums, r)
  {
    match FindFrom(text, field, nums, 0)
    case None => None
    case Some(i) => Some(nums[i])
  }

  // ─── Flags ─────────────────────────────────────────────────────────────────

  const BattingKeywords: seq<string> := ["needs", "need", "chasing", "require", "target"]
  const PressureKeywords: seq<string> := ["final", "last over", "super over", "final ball", "must win"]
  const MomentumKeywords: seq<string> := ["on fire", "momentum", "six off every", "smashing", "dominant"]
  const CollapseKeywords: seq<string> := ["collapse", "panic", "tail", "last wicket", "last pair"]

  /** Some keyword of the list occurs in `text`. */
  ghost predicate Mentions(text: string, keywords: seq<string>) {
    exists k :: 0 <= k < |keywords| && Contains(text, keywords[k])
  }

  /** `containsAny`: some keyword occurs in the lower-cased text. */
  function ContainsAny(text: string, keywords: seq<string>): (b: bool)
    ensures b <==> Mentions(Lower(text), keywords)
    decreases |keywords|
  {
    if keywords == [] then false
    else Contains(Lower(text), keywords[0]) || ContainsAny(text, keywords[1..])
  }

  // ─── The parser ────────────────────────────────────────────────────────────

  /** `parseScenario`. */
  function Parse(input: string): (s: Scenario)
    ensures s.raw == Lower(input)
  {
    var text := Lower(input);
    var numbers := ExtractNumbers(text);
    var s := Scenario(
      FirstQualifying(text, Runs, numbers),
      FirstQualifying(text, Balls, numbers),
      FirstQualifying(text, Wickets, numbers),
      FirstQualifying(text, Overs, numbers),
      ContainsAny(text, BattingKeywords),
      ContainsAny(text, PressureKeywords),
      ContainsAny(text, MomentumKeywords),
      ContainsAny(text, CollapseKeywords),
      text);
    s
  }

  // ─── Properties of the parser ──────────────────────────────────────────────

  /** Each numeric field holds the first candidate number that qualifies for it, or nothing. */
  lemma ParseField(input: string, f: Field)
    ensures IsFirstQualifying(Lower(input), f, ExtractNumbers(Lower(input)), Parse(input).Get(f))
  {
    var text := Lower(input);
    assert Parse(input).Get(f) == FirstQualifying(text, f, ExtractNumbers(text));
  }

  /** Each flag is set exactly when one of its keywords occurs in the lower-cased text. */
  lemma ParseFlags(input: string)
    ensures Parse(input).isBatting <==> Mentions(Lower(input), BattingKeywords)
    ensures Parse(input).isHighPressure <==> Mentions(Lower(input), PressureKeywords)
    ensures Parse(input).hasMomentum <==> Mentions(Lower(input), MomentumKeywords)
    ensures Parse(input).isCollapseRisk <==> Mentions(Lower(input), CollapseKeywords)
  {
    LowerIdempotent(input);
  }

  /** Parsing ignores case: the text and its lower-case form give the same record. */
  lemma ParseIgnoresCase(input: string)
    ensures Parse(Lower(input)) == Parse(input)
  {
    LowerIdempotent(input);
  }

  /**
   * When the first candidate is below 500 it becomes `runs`, even if a later
   * number is the one written before "run": index 0 is tried first.
   */
  lemma RunsFirstCandidate(input: string)
    requires var nums := ExtractNumbers(Lower(input)); |nums| > 0 && nums[0] < 500
    ensures Parse(input).runs == Some(ExtractNumbers(Lower(input))[0])
  {
    var text := Lower(input);
    var nums := ExtractNumbers(text);
    assert Qualifies(text, Runs, nums[0], 0);
  }

  /** A text without digits gives no numeric field at all. */
  lemma NoDigitsNoNumbers(input: string)
    requires forall i :: 0 <= i < |input| ==> !IsDigit(input[i])
    ensures Parse(input).runs.None? && Parse(input).balls.None?
    ensures Parse(input).wickets.None? && Parse(input).overs.None?
  {
    ExtractNumbersNoDigits(Lower(input));
  }

  /**
   * Every field value is one of the candidate numbers, and `runs` is absent
   * only when there is no candidate or the first one is 500 or more.
   */
  lemma FieldsAreCandidates(input: string, f: Field)
    ensures Parse(input).Get(f).Some? ==> Parse(input).Get(f).value in ExtractNumbers(Lower(input))
    ensures Parse(input).runs.None? ==>
              var nums := ExtractNumbers(Lower(input)); nums == [] || nums[0] >= 500
  {
    var s := Parse(input);
    var nums := ExtractNumbers(s.raw);
    assert IsFirstQualifying(s.raw, f, nums, s.Get(f));
    assert IsFirstQualifying(s.raw, Runs, nums, s.runs);
    if s.runs.None? && nums != [] {
      assert !Qualifies(s.raw, Runs, nums[0], 0);
    }
  }

  /**
   * The keywords "needs" and "final ball" never decide a flag: each contains
   * another keyword of its list ("need", "final").
   */
  lemma SubsumedKeywords(text: string)
    ensures ContainsAny(text, BattingKeywords) == ContainsAny(text, ["need", "chasing", "require", "target"])
    ensures ContainsAny(text, PressureKeywords) == ContainsAny(text, ["final", "last over", "super over", "must win"])
  {
    var lower := Lower(text);
    assert OccursAt("needs", "need", 0);
    assert OccursAt("final ball", "final", 0);
    DroppingSubsumed(lower, BattingKeywords, 0, 1);
    assert BattingKeywords[..0] + BattingKeywords[1..] == ["need", "chasing", "require", "target"];
    DroppingSubsumed(lower, PressureKeywords, 3, 0);
    assert PressureKeywords[..3] + PressureKeywords[4..] == ["final", "last over", "super over", "must win"];
  }

  /** Dropping keyword `i` from a list changes nothing when keyword `j` occurs inside it. */
  lemma DroppingSubsumed(text: string, keywords: seq<string>, i: nat, j: nat)
    requires i < |keywords| && j < |keywords| && i != j
    requires Contains(keywords[i], keywords[j])
    ensures Mentions(text, keywords) == Mentions(text, keywords[..i] + keywords[i + 1..])
  {
    var rest := keywords[..i] + keywords[i + 1..];
    if Mentions(text, keywords) {
      var k :| 0 <= k < |keywords| && Contains(text, keywords[k]);
      if k == i {
        ContainsTransitive(text, keywords[i], keywords[j]);
        k := j;
      }
      var r := if k < i then k else k - 1;
      assert rest[r] == keywords[k];
    }
    if Mentions(text, rest) {
      var r :| 0 <= r < |rest| && Contains(text, rest[r]);
      assert rest[r] == keywords[if r < i then r else r + 1];
    }
  }

}
