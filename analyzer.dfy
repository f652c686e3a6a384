/**
 * The rule-based analyzer: for two-sum and reverse-string it checks whether the
 * reported test results all passed and answers with one of two fixed analyses;
 * any other problem gets a generic analysis.
 */
module Analyzer {
  import opened Wrappers

  /** The `pass` member of one entry of `results["results"]`. */
  datatype PassField =
    | Absent        // the entry has no "pass" key (or is not an object)
    | Flag(b: bool) // a JSON boolean
    | NotBoolean    // any other JSON value; converting it to bool throws

  /** The `results` object of a request; `cases` is `None` when it has no "results" key. */
  datatype ResultsDoc = ResultsDoc(cases: Option<seq<PassField>>)

  datatype AnalysisResult = AnalysisResult(hints: seq<string>, probablePatterns: seq<string>, complexityEstimate: string)

  const TwoSumSolved := AnalysisResult(
    ["¡Excelente! Has resuelto Two Sum correctamente.",
     "Podrías intentar optimizar el uso de memoria."],
    ["hashmap", "two-pointers"],
    "O(n)")

  const TwoSumUnsolved := AnalysisResult(
    ["Piensa en usar un mapa para almacenar los números y sus índices.",
     "Recuerda que necesitas encontrar dos números que sumen al target.",
     "Considera qué estructura de datos te permite búsquedas rápidas."],
    ["hashmap"],
    "O(n) esperada")

  const ReverseStringSolved := AnalysisResult(
    ["¡Bien hecho! Reverse String resuelto correctamente.",
     "¿Podrías hacerlo recursivamente?"],
    ["two-pointers", "in-place"],
    "O(n)")

  const ReverseStringUnsolved := AnalysisResult(
    ["Intenta usar el enfoque de dos punteros: uno al inicio y otro al final.",
     "Recuerda que debes modificar el array in-place, sin crear uno nuevo.",
     "Intercambia los caracteres mientras los punteros se acercan."],
    ["two-pointers", "in-place"],
    "O(n) esperada")

  const GenericAnalysis := AnalysisResult(
    ["Revisa la lógica de tu solución.", "Considera casos edge."],
    ["unknown"],
    "O(?)")

  /** The kind of exception `!r["pass"]` raises on a value that is not a boolean. */
  const TypeError := "type_error.302"

  /** An entry the scan steps over: no "pass" key, or `"pass": true`. */
  predicate Passes(p: PassField) {
    p == Absent || p == Flag(true)
  }

  /**
   * The scan of the entries in order: the first entry that does not pass decides,
   * `false` for `"pass": false`, an exception for a non-boolean; otherwise `true`.
   */
  function Scan(cases: seq<PassField>): Result<bool> {
    if cases == [] then Ok(true)
    else if cases[0] == Flag(false) then Ok(false)
    else if cases[0] == NotBoolean then Thrown(TypeError)
    else Scan(cases[1..])
  }

  /** `all_passed` as computed from the request's `results` object. */
  function AllPassedSpec(results: ResultsDoc): Result<bool> {
    match results.cases
    case None => Ok(true)
    case Some(cases) => Scan(cases)
  }

  /** The scan yields `true` exactly when every entry passes. */
  lemma {:induction false} ScanTrueIff(cases: seq<PassField>)
    ensures Scan(cases) == Ok(true) <==> forall i :: 0 <= i < |cases| ==> Passes(cases[i])
  {
    if cases != [] {
      ScanTrueIff(cases[1..]);
      assert forall i :: 1 <= i < |cases| ==> cases[i] == cases[1..][i - 1];
    }
  }

  /** The scan yields `false` exactly when some `"pass": false` comes before any non-boolean. */
  lemma {:induction false} ScanFalseIff(cases: seq<PassField>)
    ensures Scan(cases) == Ok(false) <==>
      exists i :: 0 <= i < |cases| && cases[i] == Flag(false) && forall j :: 0 <= j < i ==> Passes(cases[j])
  {
    if cases != [] {
      ScanFalseIff(cases[1..]);
      if Passes(cases[0]) {
        var tail := cases[1..];
        if exists i :: 0 <= i < |tail| && tail[i] == Flag(false) && forall j :: 0 <= j < i ==> Passes(tail[j]) {
          var i :| 0 <= i < |tail| && tail[i] == Flag(false) && forall j :: 0 <= j < i ==> Passes(tail[j]);
          assert cases[i + 1] == Flag(false) && forall j :: 0 <= j < i + 1 ==> Passes(cases[j]);
        }
        if exists i :: 0 <= i < |cases| && cases[i] == Flag(false) && forall j :: 0 <= j < i ==> Passes(cases[j]) {
          var i :| 0 <= i < |cases| && cases[i] == Flag(false) && forall j :: 0 <= j < i ==> Passes(cases[j]);
          assert i > 0;
          assert tail[i - 1] == Flag(false) && forall j :: 0 <= j < i - 1 ==> Passes(tail[j]);
        }
      }
    }
  }

  /** When every "pass" value is a boolean, `all_passed` is false exactly when some entry has `"pass": false`. */
  lemma {:induction false} WellTypedScan(cases: seq<PassField>)
    requires forall i :: 0 <= i < |cases| ==> cases[i] != NotBoolean
    ensures Scan(cases) == Ok(!exists i :: 0 <= i < |cases| && cases[i] == Flag(false))
  {
    if cases != [] {
      WellTypedScan(cases[1..]);
      assert forall i :: 1 <= i < |cases| ==> cases[i] == cases[1..][i - 1];
      if exists i :: 0 <= i < |cases| && cases[i] == Flag(false) {
        var i :| 0 <= i < |cases| && cases[i] == Flag(false);
        if i > 0 {
          assert cases[1..][i - 1] == Flag(false);
        }
      }
    }
  }

  /**
   * The `for`/`break` loop that `analyze_two_sum` and `analyze_reverse_string` each
   * run to compute `all_passed`; a non-boolean "pass" throws. `AllPassedSpec` (the
   * fold `Scan`) is its specification.
   */
  method AllPassed(results: ResultsDoc) returns (r: Result<bool>)
    ensures r == AllPassedSpec(results)
  {
    r := Ok(true);
    if results.cases.Some? {
      var cases := results.cases.value;
      var i := 0;
      while i < |cases|
        invariant 0 <= i <= |cases|
        invariant Scan(cases) == Scan(cases[i..])
      {
        assert cases[i..][1..] == cases[i + 1..];
        if cases[i] == NotBoolean {
          return Thrown(TypeError);
        }
        if cases[i] == Flag(false) {
          r := Ok(false);
          break;
        }
        i := i + 1;
      }
    }
  }

  /** The analysis for a problem id and its results, or the exception the scan raised. */
  function Analysis(problemId: string, results: ResultsDoc): Result<AnalysisResult> {
    if problemId == "two-sum" then
      match AllPassedSpec(results)
      case Ok(allPassed) => Ok(if allPassed then TwoSumSolved else TwoSumUnsolved)
      case Thrown(e) => Thrown(e)
    else if problemId == "reverse-string" then
      match AllPassedSpec(results)
      case Ok(allPassed) => Ok(if allPassed then ReverseStringSolved else ReverseStringUnsolved)
      case Thrown(e) => Thrown(e)
    else Ok(GenericAnalysis)
  }

  /** `analyze_two_sum`: the `all_passed` loop, then one of two constant analyses; `Analysis` is its specification. */
  method AnalyzeTwoSum(results: ResultsDoc) returns (r: Result<AnalysisResult>)
    ensures r == Analysis("two-sum", results)
  {
    var allPassed := AllPassed(results);
    if allPassed.Thrown? {
      return Thrown(allPassed.reason);
    }
    r := Ok(if allPassed.value then TwoSumSolved else TwoSumUnsolved);
  }

  /** `analyze_reverse_string`: the `all_passed` loop, then one of two constant analyses; `Analysis` is its specification. */
  method AnalyzeReverseString(results: ResultsDoc) returns (r: Result<AnalysisResult>)
    ensures r == Analysis("reverse-string", results)
  {
    var allPassed := AllPassed(results);
    if allPassed.Thrown? {
      return Thrown(allPassed.reason);
    }
    r := Ok(if allPassed.value then ReverseStringSolved else ReverseStringUnsolved);
  }

  /** The parsed POST /analysis body; a missing key is `None`. */
  datatype AnalysisBody = AnalysisBody(source: Option<string>, results: Option<ResultsDoc>, problemId: Option<string>)

  /** 400 with an error text, 500 when the handler threw, or the analysis. */
  datatype AnalysisResponse = BadRequest(error: string) | ServerError | Analyzed(result: AnalysisResult)

  /** POST /analysis. */
  method HandleAnalysis(body: Option<AnalysisBody>) returns (resp: AnalysisResponse)
    ensures body.None? ==> resp == BadRequest("invalid json")
    ensures body.Some? && (body.value.source.None? || body.value.results.None?) ==>
      resp == BadRequest("missing source or results")
    ensures body.Some? && body.value.source.Some? && body.value.results.Some? ==>
      match Analysis(body.value.problemId.GetOr(""), body.value.results.value)
      case Ok(a) => resp == Analyzed(a)
      case Thrown(_) => resp == ServerError
  {
    if body.None? {
      return BadRequest("invalid json");
    }
    if body.value.source.None? || body.value.results.None? {
      return BadRequest("missing source or results");
    }
    var results := body.value.results.value;
    var problemId := body.value.problemId.GetOr("");
    var r: Result<AnalysisResult>;
    if problemId == "two-sum" {
      r := AnalyzeTwoSum(results);
    } else if problemId == "reverse-string" {
      r := AnalyzeReverseString(results);
    } else {
      r := Ok(GenericAnalysis);
    }
    resp := if r.Ok? then Analyzed(r.value) else ServerError;
  }

  /** Two-sum: two hints, {hashmap, two-pointers} and "O(n)" when all passed; three hints, {hashmap} and "O(n) esperada" otherwise. */
  lemma TwoSumAdvice(results: ResultsDoc, allPassed: bool)
    requires AllPassedSpec(results) == Ok(allPassed)
    ensures Analysis("two-sum", results).Ok?
    ensures var a := Analysis("two-sum", results).value;
      if allPassed then |a.hints| == 2 && a.probablePatterns == ["hashmap", "two-pointers"] && a.complexityEstimate == "O(n)"
      else |a.hints| == 3 && a.probablePatterns == ["hashmap"] && a.complexityEstimate == "O(n) esperada"
  {
  }

  /** Reverse-string: {two-pointers, in-place} either way; "O(n)" exactly when all passed. */
  lemma ReverseStringAdvice(results: ResultsDoc, allPassed: bool)
    requires AllPassedSpec(results) == Ok(allPassed)
    ensures Analysis("reverse-string", results).Ok?
    ensures var a := Analysis("reverse-string", results).value;
      && a.probablePatterns == ["two-pointers", "in-place"]
      && (a.complexityEstimate == "O(n)" <==> allPassed)
      && |a.hints| == (if allPassed then 2 else 3)
  {
  }

  /** Any other problem id gets the generic analysis, whatever the results hold. */
  lemma OtherProblemsAreGeneric(problemId: string, results: ResultsDoc)
    requires problemId != "two-sum" && problemId != "reverse-string"
    ensures Analysis(problemId, results) == Ok(GenericAnalysis)
    ensures |GenericAnalysis.hints| == 2 && GenericAnalysis.probablePatterns == ["unknown"]
    ensures GenericAnalysis.complexityEstimate == "O(?)"
  {
  }

  /** Results without a "results" key count as all passed. */
  lemma NoResultsKeyMeansPassed(problemId: string)
    ensures AllPassedSpec(ResultsDoc(None)) == Ok(true)
    ensures problemId == "two-sum" ==> Analysis(problemId, ResultsDoc(None)) == Ok(TwoSumSolved)
    ensures problemId == "reverse-string" ==> Analysis(problemId, ResultsDoc(None)) == Ok(ReverseStringSolved)
  {
  }
}
