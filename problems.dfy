/**
 * The evaluator's problem table: each problem id selects a fixed test harness
 * (a C++ program whose text is a constant of the evaluator) and the list of
 * output lines that harness is expected to print, one per test case.
 */
module Problems {

  /** The four harness programs. Their text is a constant; it is never parsed here. */
  datatype Harness = TwoSumHarness | ReverseStringHarness | BinarySearchHarness | CountNegativesHarness

  /** What the evaluator picks for one problem id: the harness and the expected lines. */
  datatype ProblemSetup = ProblemSetup(harness: Harness, expected: seq<string>)

  const TwoSumExpected: seq<string> := ["[0,1]", "[1,2]"]
  const ReverseStringExpected: seq<string> := ["olleh", "hannaH"]
  const BinarySearchExpected: seq<string> := ["4", "-1", "0", "-1"]
  const CountNegativesExpected: seq<string> := ["2", "3", "0"]

  /** The number of lines the `main` of each harness writes to standard output. */
  function PrintedLines(h: Harness): nat {
    match h
    case TwoSumHarness => 2
    case ReverseStringHarness => 2
    case BinarySearchHarness => 4
    case CountNegativesHarness => 3
  }

  /** The ids that have a harness of their own. */
  predicate Known(problemType: string) {
    problemType in {"two-sum", "reverse-string", "binary-search", "count-negatives"}
  }

  /** The harness and expected outputs for a problem id; any other id falls back to two-sum. */
  function Setup(problemType: string): (p: ProblemSetup)
    ensures |p.expected| == PrintedLines(p.harness)
    ensures forall i :: 0 <= i < |p.expected| ==>
      p.expected[i] != "" && '\n' !in p.expected[i] && '\r' !in p.expected[i]
  {
    if problemType == "two-sum" then ProblemSetup(TwoSumHarness, TwoSumExpected)
    else if problemType == "reverse-string" then ProblemSetup(ReverseStringHarness, ReverseStringExpected)
    else if problemType == "binary-search" then ProblemSetup(BinarySearchHarness, BinarySearchExpected)
    else if problemType == "count-negatives" then ProblemSetup(CountNegativesHarness, CountNegativesExpected)
    else ProblemSetup(TwoSumHarness, TwoSumExpected)
  }

  /** The four known ids have 2, 2, 4 and 3 test cases. */
  lemma CaseCounts()
    ensures |Setup("two-sum").expected| == 2
    ensures |Setup("reverse-string").expected| == 2
    ensures |Setup("binary-search").expected| == 4
    ensures |Setup("count-negatives").expected| == 3
  {
  }

  /** An unrecognised id is silently evaluated as two-sum. */
  lemma UnknownFallsBackToTwoSum(problemType: string)
    requires !Known(problemType)
    ensures Setup(problemType) == Setup("two-sum")
    ensures Setup(problemType).expected == ["[0,1]", "[1,2]"]
  {
  }

  /** Each known id selects its own harness, and no two known ids share one. */
  lemma KnownIdsHaveDistinctHarnesses(a: string, b: string)
    requires Known(a) && Known(b)
    ensures Setup(a).harness == Setup(b).harness <==> a == b
  {
  }
}
