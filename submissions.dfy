/**
 * The evaluator's submission table and the life of one submission in it:
 * intake inserts a "queued" record, the worker marks it "running", and the
 * pipeline writes "done" with either a note (no compiler, compile error) or
 * the graded results. Every operation runs under the table's one lock, so
 * each is modelled as one atomic step of a class holding the table.
 */
module Submissions {
  import opened Wrappers
  import Problems
  import OutputParsing
  import opened Grading

  /** The `status` string of a record; `Unset` is the empty status of a default-constructed record. */
  datatype Status = Unset | Queued | Running | Done {
    function Name(): string {
      match this
      case Unset => ""
      case Queued => "queued"
      case Running => "running"
      case Done => "done"
    }
  }

  /** One row of the table. */
  datatype Submission = Submission(
    id: string,
    status: Status,
    results: seq<CaseResult>,
    timeMs: int,
    memoryKB: int,
    errorMsg: string)

  /** `Submission{}`: the record `DB[id]` creates for an id not yet in the table. */
  const Blank := Submission("", Unset, [], 0, 256, "")

  /** `Submission{ id, "queued" }`: a fresh record as intake inserts it. */
  function NewSubmission(id: string): Submission {
    Submission(id, Queued, [], 0, 256, "")
  }

  /** `DB[id]` as the pipeline reads it: the row, or the default-constructed one `operator[]` inserts. */
  function Lookup(db: map<string, Submission>, id: string): (r: Submission)
    ensures id in db ==> r == db[id]
    ensures id !in db ==> r.id == "" && r.status.Name() == "" && r.results == [] && r.timeMs == 0
                          && r.memoryKB == 256 && r.errorMsg == ""
  {
    if id in db then db[id] else Blank
  }

  /**
   * What compiling and running the harness produced. The toolchain probe, the
   * workspace files and the `std::system` calls are not modelled; only their result is.
   */
  datatype BuildOutcome =
    | NoCompiler
    | CompileFailed(diagnostic: string)
    | Ran(exitCode: int, output: string, totalMs: nat)

  const NoCompilerNote := "No se encontró compilador C++"
  const CompileErrorPrefix := "Error de compilación:\n"

  /**
   * The record the pipeline leaves behind, given the record it started from: every
   * path ends in "done" and keeps the id and the memory figure.
   */
  function Finish(sub: Submission, problemType: string, build: BuildOutcome): (r: Submission)
    ensures r.status == Done && r.status.Name() == "done"
    ensures r.id == sub.id && r.memoryKB == sub.memoryKB
  {
    match build
    case NoCompiler =>
      sub.(status := Done, errorMsg := NoCompilerNote, results := [])
    case CompileFailed(diagnostic) =>
      sub.(status := Done, errorMsg := CompileErrorPrefix + diagnostic)
    case Ran(_, output, totalMs) =>
      var expected := Problems.Setup(problemType).expected;
      var lines := OutputParsing.OutputLines(output);
      sub.(status := Done, results := Grade(lines, expected, PerCaseMs(totalMs, |expected|)), timeMs := totalMs)
  }

  // ---------------------------------------------------------------- rand_id

  const IdAlphabet := "abcdefghijklmnopqrstuvwxyz0123456789"

  /** A character `rand_id` may draw. */
  predicate IdChar(c: char) {
    ('a' <= c <= 'z') || ('0' <= c <= '9')
  }

  /** The characters picked by the random draws, `K[rng() % 36]` each. */
  function IdSuffix(draws: seq<nat>): string {
    seq(|draws|, i requires 0 <= i < |draws| => IdAlphabet[draws[i] % 36])
  }

  /** A submission id: "sub-" followed by six characters from [a-z0-9]. */
  predicate IsSubmissionId(s: string) {
    |s| == 10 && s[..4] == "sub-" && forall i :: 4 <= i < 10 ==> IdChar(s[i])
  }

  lemma AlphabetChars()
    ensures |IdAlphabet| == 36
    ensures forall i :: 0 <= i < 36 ==> IdChar(IdAlphabet[i])
  {
  }

  /** `rand_id(pfx)`: the prefix followed by six characters, one per random draw. */
  method RandId(pfx: string, draws: seq<nat>) returns (s: string)
    requires |draws| == 6
    ensures s == pfx + IdSuffix(draws)
    ensures |s| == |pfx| + 6 && s[..|pfx|] == pfx
    ensures forall i :: |pfx| <= i < |s| ==> IdChar(s[i])
  {
    AlphabetChars();
    s := pfx;
    for i := 0 to 6
      invariant s == pfx + IdSuffix(draws[..i])
      invariant forall j :: |pfx| <= j < |s| ==> IdChar(s[j])
    {
      s := s + [IdAlphabet[draws[i] % 36]];
      assert IdSuffix(draws[..i + 1]) == IdSuffix(draws[..i]) + [IdAlphabet[draws[i] % 36]];
    }
    assert draws[..6] == draws;
  }

  // ---------------------------------------------------------------- HTTP shapes

  /** The POST body after JSON parsing: not JSON at all, JSON other than an object, or an object. */
  datatype IntakeRequest = Unparsable | NotAnObject | Object(fields: IntakeBody)

  /** The fields of a POST body that is a JSON object; a missing key is `None`. */
  datatype IntakeBody = IntakeBody(problemId: Option<string>, source: Option<string>, lang: Option<string>)

  /** All three fields are present and non-empty. */
  predicate Complete(b: IntakeBody) {
    b.problemId.GetOr("") != "" && b.source.GetOr("") != "" && b.lang.GetOr("") != ""
  }

  /**
   * The POST answer: 400 with an error text, the new id, or a server error when the
   * handler throws (`value()` on a JSON value that is not an object).
   */
  datatype IntakeResponse = BadRequest(error: string) | Created(submissionId: string) | ServerError

  /** The GET answer: 404, or the record's fields with `note` present only when there is an error message. */
  datatype QueryResponse =
    | NotFound
    | Found(status: string, results: seq<CaseResult>, timeMs: int, memoryKB: int, note: Option<string>)

  /** The JSON the GET handler builds from one record. */
  function Snapshot(sub: Submission): (r: QueryResponse)
    ensures r.Found? && r.status == sub.status.Name() && r.results == sub.results
    ensures r.timeMs == sub.timeMs && r.memoryKB == sub.memoryKB
    ensures r.note.Some? <==> sub.errorMsg != ""
    ensures r.note.Some? ==> r.note.value == sub.errorMsg
  {
    Found(sub.status.Name(), sub.results, sub.timeMs, sub.memoryKB,
          if sub.errorMsg != "" then Some(sub.errorMsg) else None)
  }

  // ---------------------------------------------------------------- the table

  class SubmissionStore {
    /** `DB`: every submission by id. */
    var db: map<string, Submission>

    constructor ()
      ensures db == map[]
    {
      db := map[];
    }

    /**
     * POST /submissions: rejects a body that is not JSON or lacks a field, throws on
     * JSON that is not an object, otherwise mints an id from `draws` and stores a
     * queued record under it. The id is not checked against the table: a record
     * already stored under the same id is overwritten.
     */
    method Submit(body: IntakeRequest, draws: seq<nat>) returns (resp: IntakeResponse)
      requires |draws| == 6
      modifies this
      ensures body.Unparsable? ==> resp == BadRequest("invalid json") && db == old(db)
      ensures body.NotAnObject? ==> resp == ServerError && db == old(db)
      ensures body.Object? && !Complete(body.fields) ==> resp == BadRequest("missing fields") && db == old(db)
      ensures body.Object? && Complete(body.fields) ==>
        && resp.Created?
        && resp.submissionId == "sub-" + IdSuffix(draws)
        && IsSubmissionId(resp.submissionId)
        && db == old(db)[resp.submissionId := NewSubmission(resp.submissionId)]
    {
      if body.Unparsable? {
        return BadRequest("invalid json");
      }
      if body.NotAnObject? {
        return ServerError;
      }
      var pid := body.fields.problemId.GetOr("");
      var src := body.fields.source.GetOr("");
      var lang := body.fields.lang.GetOr("");
      if pid == "" || src == "" || lang == "" {
        return BadRequest("missing fields");
      }
      var id := RandId("sub-", draws);
      db := db[id := NewSubmission(id)];
      resp := Created(id);
    }

    /** The worker's first step: the record's status becomes "running". */
    method MarkRunning(id: string)
      modifies this
      ensures db == old(db)[id := Lookup(old(db), id).(status := Running)]
    {
      var sub := Lookup(db, id);
      db := db[id := sub.(status := Running)];
    }

    /**
     * `run_pipeline`: pick the expected outputs for the problem, then write the
     * terminal record for whichever way the build went.
     */
    method RunPipeline(id: string, problemType: string, build: BuildOutcome)
      modifies this
      ensures db == old(db)[id := Finish(Lookup(old(db), id), problemType, build)]
    {
      if build.NoCompiler? {
        var sub := Lookup(db, id);
        db := db[id := sub.(status := Done, errorMsg := NoCompilerNote, results := [])];
        return;
      }
      var expected := Problems.Setup(problemType).expected;
      if build.CompileFailed? {
        var sub := Lookup(db, id);
        db := db[id := sub.(status := Done, errorMsg := CompileErrorPrefix + build.diagnostic)];
        return;
      }
      var output := build.output;
      var buf := new char[|output|](i requires 0 <= i < |output| => output[i]);
      assert buf[..] == output;
      var n := OutputParsing.EraseCarriageReturns(buf);
      var lines := OutputParsing.ReadLines(buf[..n]);
      var results := EvaluateCases(lines, expected, build.totalMs);
      var sub := Lookup(db, id);
      db := db[id := sub.(status := Done, results := results, timeMs := build.totalMs)];
    }

    /** The detached worker thread: mark the record running, then run the pipeline. */
    method Worker(id: string, problemType: string, build: BuildOutcome)
      modifies this
      ensures db == old(db)[id := Finish(Lookup(old(db), id).(status := Running), problemType, build)]
    {
      MarkRunning(id);
      RunPipeline(id, problemType, build);
    }

    /** GET /submissions/{id}: the record's snapshot, or 404. */
    function Query(id: string): (r: QueryResponse)
      reads this
      ensures r.NotFound? <==> id !in db
      ensures id in db ==> r == Snapshot(db[id])
    {
      if id in db then Snapshot(db[id]) else NotFound
    }

    /**
     * One accepted submission polled after intake, after the worker starts and after
     * the pipeline ends: it is seen as "queued", then "running", then "done".
     */
    method Lifecycle(body: IntakeBody, draws: seq<nat>, build: BuildOutcome) returns (observed: seq<string>)
      requires |draws| == 6 && Complete(body)
      modifies this
      ensures observed == ["queued", "running", "done"]
    {
      var resp := Submit(Object(body), draws);
      var id := resp.submissionId;
      var first := Query(id);
      MarkRunning(id);
      var second := Query(id);
      RunPipeline(id, body.problemId.value, build);
      var third := Query(id);
      observed := [first.status, second.status, third.status];
    }
  }

  // ---------------------------------------------------------------- properties

  /** Without a compiler the record ends with a note and no results. */
  lemma NoCompilerOutcome(sub: Submission, problemType: string)
    ensures Finish(sub, problemType, NoCompiler).errorMsg != ""
    ensures Finish(sub, problemType, NoCompiler).results == []
    ensures Finish(sub, problemType, NoCompiler).timeMs == sub.timeMs
  {
  }

  /** A compile error is reported with its diagnostic, and nothing is run or graded. */
  lemma CompileErrorOutcome(sub: Submission, problemType: string, diagnostic: string)
    ensures Finish(sub, problemType, CompileFailed(diagnostic)).errorMsg == "Error de compilación:\n" + diagnostic
    ensures Finish(sub, problemType, CompileFailed(diagnostic)).results == sub.results
    ensures Finish(sub, problemType, CompileFailed(diagnostic)).timeMs == sub.timeMs
  {
  }

  /**
   * After a run there is one result per expected output, numbered from 1, each with
   * the per-case share of the time, and the record carries the total time.
   */
  lemma EvaluatedOutcome(sub: Submission, problemType: string, exitCode: int, output: string, totalMs: nat)
    ensures
      var done := Finish(sub, problemType, Ran(exitCode, output, totalMs));
      var expected := Problems.Setup(problemType).expected;
      && |done.results| == |expected|
      && (forall i :: 0 <= i < |expected| ==>
            done.results[i].caseNo == i + 1 && done.results[i].timeMs == totalMs / |expected|)
      && done.timeMs == totalMs
      && done.errorMsg == sub.errorMsg
  {
  }

  /** The program's exit status plays no part in the verdict. */
  lemma ExitStatusIgnored(sub: Submission, problemType: string, c1: int, c2: int, output: string, totalMs: nat)
    ensures Finish(sub, problemType, Ran(c1, output, totalMs)) == Finish(sub, problemType, Ran(c2, output, totalMs))
  {
  }

  /**
   * Case i passes exactly when the i-th non-empty output line is the expected one;
   * a case beyond the printed lines records "" and fails.
   */
  lemma CasePassesIff(sub: Submission, problemType: string, exitCode: int, output: string, totalMs: nat, i: nat)
    requires i < |Problems.Setup(problemType).expected|
    ensures
      var done := Finish(sub, problemType, Ran(exitCode, output, totalMs));
      var lines := OutputParsing.OutputLines(output);
      var expected := Problems.Setup(problemType).expected;
      && (done.results[i].pass <==> i < |lines| && lines[i] == expected[i])
      && (i >= |lines| ==> done.results[i].stdout == "" && !done.results[i].pass)
  {
  }

  /** A program that prints exactly the expected lines, with "\n" or "\r\n" endings, passes every case. */
  lemma ExactOutputPasses(sub: Submission, problemType: string, exitCode: int, totalMs: nat)
    ensures
      var expected := Problems.Setup(problemType).expected;
      forall output :: output in {OutputParsing.Unlines(expected), OutputParsing.UnlinesCrLf(expected)} ==>
        forall r :: r in Finish(sub, problemType, Ran(exitCode, output, totalMs)).results ==> r.pass
  {
    var expected := Problems.Setup(problemType).expected;
    OutputParsing.OutputLinesOfExactOutput(expected);
    forall output | output in {OutputParsing.Unlines(expected), OutputParsing.UnlinesCrLf(expected)}
      ensures forall r :: r in Finish(sub, problemType, Ran(exitCode, output, totalMs)).results ==> r.pass
    {
      var results := Finish(sub, problemType, Ran(exitCode, output, totalMs)).results;
      forall r | r in results ensures r.pass {
        var i :| 0 <= i < |results| && results[i] == r;
        GradePass(expected, expected, PerCaseMs(totalMs, |expected|), i);
      }
    }
  }

  /** A two-sum solution that prints the indices of each pair reversed fails both cases and records what it printed. */
  lemma ReversedTwoSumFails(sub: Submission, exitCode: int, totalMs: nat)
    ensures Finish(sub, "two-sum", Ran(exitCode, "[1,0]\n[2,1]\n", totalMs)).results ==
      [CaseResult(1, false, "[1,0]", totalMs / 2), CaseResult(2, false, "[2,1]", totalMs / 2)]
  {
    var printed := ["[1,0]", "[2,1]"];
    assert printed[1..] == ["[2,1]"];
    assert OutputParsing.Unlines(printed[1..]) == "[2,1]\n";
    assert OutputParsing.Unlines(printed) == "[1,0]\n[2,1]\n";
    OutputParsing.OutputLinesOfExactOutput(printed);
    var g := Grade(printed, Problems.TwoSumExpected, PerCaseMs(totalMs, 2));
    assert g[0] == CaseResult(1, false, "[1,0]", totalMs / 2);
    assert g[1] == CaseResult(2, false, "[2,1]", totalMs / 2);
  }
}
