/**
 * The hybrid similarity score the fuzzy search ranks candidates by: a weighted
 * sum of four library similarity signals, a bonus for a similar beginning,
 * and a cap at 100.
 */
module Scoring {
  import opened Text

  /**
   * The external string-similarity library, taken as uninterpreted functions:
   * the four fuzzywuzzy signals (each nominally in [0, 100]), difflib's
   * SequenceMatcher ratio (in [0, 1]) and the default processor that
   * `process.extract` applies to the query and to every choice.
   */
  datatype Library = Library(
    ratio: (string, string) -> real,
    partialRatio: (string, string) -> real,
    tokenSetRatio: (string, string) -> real,
    wRatio: (string, string) -> real,
    sequenceRatio: (string, string) -> real,
    process: string -> string)

  const RatioWeight: real := 0.1
  const PartialWeight: real := 0.4
  const TokenWeight: real := 0.1
  const WRatioWeight: real := 0.2
  const FirstLetterWeight: real := 0.2
  const FirstLetterThreshold: real := 66.0
  const FirstLetterScale: real := 120.0
  const MaxScore: real := 100.0

  /** The weighted sum of the four signals, before any bonus. */
  function WeightedSum(lib: Library, query: string, choice: string): real
  {
    RatioWeight * lib.ratio(query, choice) + PartialWeight * lib.partialRatio(query, choice)
      + TokenWeight * lib.tokenSetRatio(query, choice) + WRatioWeight * lib.wRatio(query, choice)
  }

  function Min(a: nat, b: nat): nat { if a < b then a else b }

  /**
   * The similarity of the first min(|query|, |choice|) characters of both strings,
   * lower-cased, scaled to [0, 120]; zero when either string is empty.
   */
  function FirstLetterSimilarity(lib: Library, query: string, choice: string): (s: real)
    ensures query == [] || choice == [] ==> s == 0.0
  {
    if query != [] && choice != [] then
      var m := Min(|query|, |choice|);
      lib.sequenceRatio(Lower(query[..m]), Lower(choice[..m])) * FirstLetterScale
    else
      0.0
  }

  /** What the first-letter similarity adds to the score: a fifth of it, when it exceeds 66. */
  function FirstLetterBonus(lib: Library, query: string, choice: string): real
  {
    var s := FirstLetterSimilarity(lib, query, choice);
    if s > FirstLetterThreshold then s * FirstLetterWeight else 0.0
  }

  /** `advanced_hybrid_scorer(query, choice)`: the weighted sum plus the bonus, capped at 100. */
  function HybridScore(lib: Library, query: string, choice: string): (score: real)
    ensures score <= MaxScore
    ensures score <= WeightedSum(lib, query, choice) + FirstLetterBonus(lib, query, choice)
    ensures score == MaxScore || score == WeightedSum(lib, query, choice) + FirstLetterBonus(lib, query, choice)
  {
    var total := WeightedSum(lib, query, choice) + FirstLetterBonus(lib, query, choice);
    if total < MaxScore then total else MaxScore
  }

  /** The library's outputs for this pair lie in their documented ranges. */
  predicate SignalsInRange(lib: Library, query: string, choice: string)
  {
    && 0.0 <= lib.ratio(query, choice) <= 100.0
    && 0.0 <= lib.partialRatio(query, choice) <= 100.0
    && 0.0 <= lib.tokenSetRatio(query, choice) <= 100.0
    && 0.0 <= lib.wRatio(query, choice) <= 100.0
    && (query != [] && choice != [] ==>
          var m := Min(|query|, |choice|);
          0.0 <= lib.sequenceRatio(Lower(query[..m]), Lower(choice[..m])) <= 1.0)
  }

  /** With an empty query or choice no bonus is added: the score is min(weighted sum, 100). */
  lemma NoBonusWhenEmpty(lib: Library, query: string, choice: string)
    requires query == [] || choice == []
    ensures FirstLetterBonus(lib, query, choice) == 0.0
    ensures HybridScore(lib, query, choice) ==
              if WeightedSum(lib, query, choice) < MaxScore then WeightedSum(lib, query, choice) else MaxScore
  {
  }

  /**
   * The bonus is added exactly when both strings are non-empty and the scaled prefix
   * similarity exceeds 66; it is then a fifth of that value, so it lies in (13.2, 24].
   */
  lemma BonusWindow(lib: Library, query: string, choice: string)
    requires SignalsInRange(lib, query, choice)
    ensures FirstLetterBonus(lib, query, choice) != 0.0 <==>
              query != [] && choice != [] && FirstLetterSimilarity(lib, query, choice) > FirstLetterThreshold
    ensures FirstLetterBonus(lib, query, choice) != 0.0 ==>
              FirstLetterBonus(lib, query, choice) == FirstLetterSimilarity(lib, query, choice) * FirstLetterWeight
              && 13.2 < FirstLetterBonus(lib, query, choice) <= 24.0
  {
  }

  /** With in-range signals the weighted sum lies in [0, 80] and the score in [0, 100]. */
  lemma ScoreRange(lib: Library, query: string, choice: string)
    requires SignalsInRange(lib, query, choice)
    ensures 0.0 <= WeightedSum(lib, query, choice) <= 80.0
    ensures 0.0 <= HybridScore(lib, query, choice) <= MaxScore
  {
  }

  /**
   * A non-empty string scored against itself, with every signal perfect, saturates at 100:
   * the weighted sum is 80 and the bonus 24.
   */
  lemma ExactMatchSaturates(lib: Library, s: string)
    requires s != []
    requires lib.ratio(s, s) == 100.0 && lib.partialRatio(s, s) == 100.0
    requires lib.tokenSetRatio(s, s) == 100.0 && lib.wRatio(s, s) == 100.0
    requires lib.sequenceRatio(Lower(s), Lower(s)) == 1.0
    ensures HybridScore(lib, s, s) == MaxScore
  {
    assert s[..Min(|s|, |s|)] == s;
  }
}
