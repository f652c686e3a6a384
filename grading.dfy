/**
 * How the evaluator grades a run: output line i is compared with expected
 * output i, a missing line reads as "", cases are numbered from 1, and every
 * case is given the same share of the total run time.
 */
module Grading {

  /** One entry of a submission's `results`: `{case, pass, stdout, timeMs}`. */
  datatype CaseResult = CaseResult(caseNo: nat, pass: bool, stdout: string, timeMs: nat)

  /** The per-case time: the total divided by the number of cases, rounded down; the total itself when there are none. */
  function PerCaseMs(totalMs: nat, ncases: nat): (ms: nat)
    ensures ncases > 0 ==> ms * ncases <= totalMs < (ms + 1) * ncases
    ensures ncases == 0 ==> ms == totalMs
  {
    if ncases > 0 then totalMs / ncases else totalMs
  }

  /** The line obtained for case index `i`: the i-th output line, or "" past the end. */
  function Obtained(lines: seq<string>, i: nat): string {
    if i < |lines| then lines[i] else ""
  }

  /** The verdict for case index `i`. */
  function Judge(lines: seq<string>, i: nat, expected: string, ms: nat): CaseResult {
    var got := Obtained(lines, i);
    CaseResult(i + 1, got == expected, got, ms)
  }

  /** The verdicts for all expected outputs, in order. */
  function Grade(lines: seq<string>, expected: seq<string>, ms: nat): seq<CaseResult> {
    seq(|expected|, i requires 0 <= i < |expected| => Judge(lines, i, expected[i], ms))
  }

  /** The `for` loop that builds the results array. */
  method EvaluateCases(lines: seq<string>, expected: seq<string>, totalMs: nat) returns (results: seq<CaseResult>)
    ensures results == Grade(lines, expected, PerCaseMs(totalMs, |expected|))
  {
    var ncases := |expected|;
    var perCaseMs := if ncases > 0 then totalMs / ncases else totalMs;
    results := [];
    var i := 0;
    while i < |expected|
      invariant 0 <= i <= |expected|
      invariant |results| == i
      invariant forall k :: 0 <= k < i ==> results[k] == Judge(lines, k, expected[k], perCaseMs)
    {
      var exp := expected[i];
      var obtained := if i < |lines| then lines[i] else "";
      var pass := exp == obtained;
      results := results + [CaseResult(i + 1, pass, obtained, perCaseMs)];
      i := i + 1;
    }
  }

  /** One result per expected output, numbered 1..n in order, all with the same time. */
  lemma GradeShape(lines: seq<string>, expected: seq<string>, ms: nat)
    ensures |Grade(lines, expected, ms)| == |expected|
    ensures forall i :: 0 <= i < |expected| ==>
      Grade(lines, expected, ms)[i].caseNo == i + 1 && Grade(lines, expected, ms)[i].timeMs == ms
  {
  }

  /**
   * A case passes exactly when the line at its index equals the expected output;
   * past the end of the output it records "" and fails (expected outputs are never "").
   */
  lemma GradePass(lines: seq<string>, expected: seq<string>, ms: nat, i: nat)
    requires i < |expected|
    ensures Grade(lines, expected, ms)[i].pass <==> (i < |lines| && lines[i] == expected[i]) || (i >= |lines| && expected[i] == "")
    ensures i >= |lines| ==> Grade(lines, expected, ms)[i].stdout == ""
    ensures i >= |lines| && expected[i] != "" ==> !Grade(lines, expected, ms)[i].pass
  {
  }

  /** With non-empty expected outputs, every case passes exactly when the output begins with the expected lines. */
  lemma AllPassIff(lines: seq<string>, expected: seq<string>, ms: nat)
    requires forall i :: 0 <= i < |expected| ==> expected[i] != ""
    ensures (forall i :: 0 <= i < |expected| ==> Grade(lines, expected, ms)[i].pass) <==>
            |expected| <= |lines| && lines[..|expected|] == expected
  {
    var g := Grade(lines, expected, ms);
    if forall i :: 0 <= i < |expected| ==> g[i].pass {
      if |expected| > 0 {
        assert g[|expected| - 1].pass;
      }
      assert forall i :: 0 <= i < |expected| ==> lines[..|expected|][i] == expected[i] by {
        forall i | 0 <= i < |expected| ensures lines[..|expected|][i] == expected[i] {
          assert g[i].pass;
        }
      }
    }
  }

  /** Lines after the last expected one do not change the verdicts. */
  lemma ExtraLinesIgnored(lines: seq<string>, extra: seq<string>, expected: seq<string>, ms: nat)
    requires |expected| <= |lines|
    ensures Grade(lines + extra, expected, ms) == Grade(lines, expected, ms)
  {
    assert forall i :: 0 <= i < |lines| ==> (lines + extra)[i] == lines[i];
  }
}
