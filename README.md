# CodeCoach evaluator and analyzer, modelled in Dafny

CodeCoach grades a learner's C++ solution to one of a few fixed problems. The
**evaluator** service takes a submission (`problemId`, `source`, `lang`), stores a
`"queued"` record under a random id `sub-xxxxxx`, and starts a worker thread. The worker
marks the record `"running"`, picks the harness and expected output lines for the
problem, builds and runs the harness, and reads the program's output. It strips `'\r'`,
splits the output into lines with `getline`, drops empty lines, and compares line *i*
with expected output *i*. Then it writes `"done"` with the per-case results and the run
time. If there is no compiler or the build fails, it writes `"done"` with a note instead.
A client polls `GET /submissions/{id}`. The **analyzer** service reads a results
document. It decides whether every case passed, and answers with one of two fixed
analyses for two-sum and reverse-string, or with a generic one for any other problem.

Modules:

- `Problems` (`problems.dfy`): the problem table. It maps a problem id to a harness and
  its expected lines, and falls back to two-sum for an unknown id.
- `OutputParsing` (`output_parsing.dfy`): the in-place `'\r'` erase on a character
  array, the `getline` loop, and the specification functions `StripCR`, `Lines` and
  `NonEmpty`, with their round-trip lemmas.
- `Grading` (`grading.dfy`): the loop that builds the per-case results, and the
  per-case time.
- `Submissions` (`submissions.dfy`): the `Submission` record and `rand_id`. The
  `SubmissionStore` class holds the `DB` map. Its methods are intake, the worker's
  steps, the pipeline and the query. Each method is one atomic step, as under the mutex.
- `Analyzer` (`analyzer.dfy`): the `all_passed` scan with its early exit, the two
  analyses, and the `/analysis` handler.
- `Wrappers` (`wrappers.dfy`): `Option` and `Result`.

The intended design of the system differs from the code in places. The model follows the code:

- An unknown problem id is evaluated as two-sum; it is not rejected.
- The run has no timeout.
- The program's exit status is ignored; a case passes on the text alone.
- There is no separate crash outcome.
- A compile error leaves `results` as it was (empty since intake) and does not touch
  `timeMs`.

## Model

| member | source | states |
|---|---|---|
| `Problems.Setup` | services/evaluator/src/main.cpp:91-301 | each problem id's expected list has as many entries as its harness prints lines, and every expected line is non-empty, with no '\n' or '\r' |
| `Problems.CaseCounts` | services/evaluator/src/main.cpp:281-296 | two-sum, reverse-string, binary-search and count-negatives have 2, 2, 4 and 3 cases |
| `Problems.UnknownFallsBackToTwoSum` | services/evaluator/src/main.cpp:297-301 | any other id gets the two-sum harness and exactly `["[0,1]","[1,2]"]` |
| `Problems.KnownIdsHaveDistinctHarnesses` | services/evaluator/src/main.cpp:281-296 | two known ids share a harness only if they are the same id |
| `OutputParsing.StripCR` | services/evaluator/src/main.cpp:358-359 | the text after erasing carriage returns holds no '\r', is no longer than the input, and has only characters of the input |
| `OutputParsing.EraseCarriageReturns` | services/evaluator/src/main.cpp:359 | the in-place erase/remove on the output buffer leaves `StripCR` of the old contents in its first `n` cells |
| `OutputParsing.ReadLines` | services/evaluator/src/main.cpp:361-368 | the `getline` loop collects exactly the non-empty `getline` lines of the text, in order |
| `OutputParsing.Lines` | services/evaluator/src/main.cpp:362-364 | `getline` reads no lines from empty text and at least one from any other, never more lines than characters (how a final '\n' is read is stated by `LinesUnlines` and `UnlinesLines`) |
| `OutputParsing.LinesChars` | services/evaluator/src/main.cpp:362-364 | no line read by `getline` holds a '\n', and every character of a line comes from the text |
| `OutputParsing.NonEmpty` | services/evaluator/src/main.cpp:365-367 | the kept lines are all non-empty and no more than the lines read |
| `OutputParsing.OutputLines` | services/evaluator/src/main.cpp:358-368 | the lines compared are non-empty and contain neither '\n' nor '\r' |
| `OutputParsing.NonEmptyAppend` | services/evaluator/src/main.cpp:364-368 | dropping empty lines distributes over concatenation, so the kept lines keep their order |
| `OutputParsing.NonEmptyKeeps` | services/evaluator/src/main.cpp:365-367 | lines that are all non-empty are kept unchanged |
| `OutputParsing.StripCRAppend` | services/evaluator/src/main.cpp:359 | erasing '\r' distributes over concatenation (order is preserved) |
| `OutputParsing.StripCRKeeps` | services/evaluator/src/main.cpp:359 | text without '\r' is left unchanged |
| `OutputParsing.CrLfReadsAsLf` | services/evaluator/src/main.cpp:358-359 | output written with "\r\n" endings becomes the same text as with "\n" endings |
| `OutputParsing.LinesUnlines` | services/evaluator/src/main.cpp:362-364 | lines without '\n', written one per line, are read back by `getline` exactly |
| `OutputParsing.UnlinesLines` | services/evaluator/src/main.cpp:362-364 | writing out the `getline` lines of a text gives the text back, plus a final '\n' if it lacked one |
| `OutputParsing.OutputLinesOfExactOutput` | services/evaluator/src/main.cpp:358-368 | output that prints exactly the given non-empty lines, with "\n" or "\r\n" endings, parses back to those lines |
| `Grading.PerCaseMs` | services/evaluator/src/main.cpp:371-372 | the per-case time is the total divided by the case count, rounded down, or the total when there are no cases |
| `Grading.EvaluateCases` | services/evaluator/src/main.cpp:370-386 | the results loop produces, for every expected output in order, the case number, the obtained line or "", whether they are equal, and the per-case time |
| `Grading.GradeShape` | services/evaluator/src/main.cpp:374-385 | there is exactly one result per expected output, with case numbers 1..n in order and the same time for all |
| `Grading.GradePass` | services/evaluator/src/main.cpp:375-378 | a case passes iff its line equals the expected one; a case past the output's end records "" and fails when its expected line is non-empty |
| `Grading.AllPassIff` | services/evaluator/src/main.cpp:374-379 | every case passes iff the output lines begin with exactly the expected lines |
| `Grading.ExtraLinesIgnored` | services/evaluator/src/main.cpp:374-376 | lines beyond the last expected one do not change any verdict |
| `Submissions.RandId` | services/evaluator/src/main.cpp:50-56 | the id is the prefix followed by exactly 6 characters from [a-z0-9], one per random draw |
| `Submissions.Snapshot` | services/evaluator/src/main.cpp:458-465 | the query answer carries the record's status, results, time and memory, and a `note` iff the error message is non-empty |
| `Submissions.SubmissionStore.constructor` | services/evaluator/src/main.cpp:41 | the table starts empty |
| `Submissions.SubmissionStore.Submit` | services/evaluator/src/main.cpp:404-443 | a body that is not JSON, or one missing or emptying `problemId`, `source` or `lang`, is rejected with the source's error text; JSON that is not an object makes the handler throw (server error); in all three cases the table is unchanged. Otherwise exactly one key, a well-formed random id, is set to `{id, "queued", [], 0, 256, ""}`. The id is not checked against the table, so a record already stored under it is overwritten |
| `Submissions.SubmissionStore.MarkRunning` | services/evaluator/src/main.cpp:434-437 | only the given record changes, and only its status, to "running" |
| `Submissions.SubmissionStore.RunPipeline` | services/evaluator/src/main.cpp:254-392 | only the given record changes, to the terminal record `Finish` gives for the build outcome |
| `Submissions.SubmissionStore.Worker` | services/evaluator/src/main.cpp:433-439 | the worker thread leaves the record as the pipeline finishes it after marking it running |
| `Submissions.SubmissionStore.Query` | services/evaluator/src/main.cpp:446-466 | an absent id answers not-found (404); a present one answers its snapshot |
| `Submissions.SubmissionStore.Lifecycle` | services/evaluator/src/main.cpp:427-438 | an accepted submission is observed as "queued", then "running", then "done" |
| `Submissions.Finish` | services/evaluator/src/main.cpp:261-391 | the record after each of the three terminal writes (no compiler, compile error, evaluated) has status "done" and keeps its id and memory figure |
| `Submissions.Lookup` | services/evaluator/src/main.cpp:32-41 | `DB[id]` is the stored record when the id is present, and otherwise the default-constructed one: empty id and status, no results, time 0, memory 256, empty message |
| `Submissions.NoCompilerOutcome` | services/evaluator/src/main.cpp:261-266 | without a compiler the record gets a non-empty note and empty results, and its time is not touched |
| `Submissions.CompileErrorOutcome` | services/evaluator/src/main.cpp:333-337 | a failed build sets the note to "Error de compilación:\n" + diagnostic and leaves results and time as they were (nothing is run) |
| `Submissions.EvaluatedOutcome` | services/evaluator/src/main.cpp:370-391 | after a run there are as many results as expected outputs, numbered 1..n, each timed `totalMs / n`; the record's time is `totalMs` and its note is unchanged |
| `Submissions.ExitStatusIgnored` | services/evaluator/src/main.cpp:351-353 | two runs with the same output and time but different exit codes give the same record |
| `Submissions.CasePassesIff` | services/evaluator/src/main.cpp:374-383 | case i passes iff the i-th non-empty output line equals the expected one; a missing line records "" and fails |
| `Submissions.ExactOutputPasses` | services/evaluator/src/main.cpp:355-386 | a program printing exactly the expected lines, with "\n" or "\r\n" endings, passes every case |
| `Submissions.ReversedTwoSumFails` | services/evaluator/src/main.cpp:374-386 | for two-sum, printing "[1,0]" and "[2,1]" fails both cases and records those texts |
| `Analyzer.ScanTrueIff` | services/analyzer/src/main.cpp:29-37 | the scan says all passed iff every entry lacks `pass` or has `pass: true` |
| `Analyzer.ScanFalseIff` | services/analyzer/src/main.cpp:29-37 | the scan says not all passed iff an entry with `pass: false` comes before any entry whose `pass` is not a boolean |
| `Analyzer.WellTypedScan` | services/analyzer/src/main.cpp:29-37 | with boolean `pass` values only, `all_passed` is false iff some entry has `pass: false`; entries without `pass` never fail |
| `Analyzer.AllPassed` | services/analyzer/src/main.cpp:29-37 | the loop with its `break` computes the scan; no "results" key means all passed |
| `Analyzer.AnalyzeTwoSum` | services/analyzer/src/main.cpp:28-56 | `analyze_two_sum` gives the two-sum analysis for the scan's verdict, or throws when the scan throws |
| `Analyzer.AnalyzeReverseString` | services/analyzer/src/main.cpp:58-86 | `analyze_reverse_string` gives the reverse-string analysis for the scan's verdict, or throws when the scan throws |
| `Analyzer.HandleAnalysis` | services/analyzer/src/main.cpp:98-147 | invalid JSON and a body lacking `source` or `results` are rejected with 400 before any analysis; otherwise the answer is the analysis for `problemId` (missing means ""), or a server error when it throws |
| `Analyzer.TwoSumAdvice` | services/analyzer/src/main.cpp:39-55 | two-sum: all passed gives 2 hints, {hashmap, two-pointers} and "O(n)"; otherwise 3 hints, {hashmap} and "O(n) esperada" |
| `Analyzer.ReverseStringAdvice` | services/analyzer/src/main.cpp:69-85 | reverse-string: patterns {two-pointers, in-place} either way; "O(n)" iff all passed |
| `Analyzer.OtherProblemsAreGeneric` | services/analyzer/src/main.cpp:131-137 | any other id gets 2 generic hints, {unknown} and "O(?)", whatever the results |
| `Analyzer.NoResultsKeyMeansPassed` | services/analyzer/src/main.cpp:30 | a results object without a "results" key counts as all passed |

## Left out

- HTTP serving, routing, CORS headers and JSON text (de)serialisation. Request bodies are
  given already parsed (`None` for text that is not JSON). A missing key is `None`.
- A JSON field of the wrong type is not modelled. `body.value(...)` on such a field
  throws in the source. A POST body that is JSON but not an object is modelled: it
  answers a server error.
- Output and diagnostics that are not valid UTF-8 cannot be expressed. The source reads
  them as bytes, and the model's text is a sequence of Unicode characters. On valid
  UTF-8 the split on '\r' and '\n' and the string comparison give the same results.
  In the source, invalid UTF-8 also makes the GET handler's `dump()` throw.
- `Analyzer.AllPassed`: a `results["results"]` value that is not an array is not
  modelled; nlohmann would iterate an object's values or a scalar itself. An entry that
  is not an object is modelled as having no `pass`.
- Thread detaching and the mutex. Each store method is one atomic step. Interleavings
  between different submissions are not modelled.
- Compiler discovery, the temporary workspace (its `rand_id("cc_eval_")` name and files),
  the shell commands and `short_path` on Windows. Only their result (`BuildOutcome`)
  enters the model.
- The clock: `totalMs` is an input.
- The GET route accepts only ids made of letters, digits and '-'. Other ids never reach
  the handler. `Query` takes any id; every id intake mints has that form.
- Submissions.RandId: randomness is an input. The six `mt19937_64` draws are the
  `draws` parameter.
- The `(int)` cast of the millisecond count: `totalMs` is an unbounded natural number,
  so the wrap-around of a run over about 24 days is not modelled.
- The harness programs' C++ text: each is an opaque constant (`Problems.Harness`), never
  parsed. Whether it compiles is part of `BuildOutcome`.
- The evaluator checks that `lang` is non-empty and never reads it again. The analyzer
  checks that `source` is present and never reads it again. The model does the same.
- The other services (problem manager, Mongo manager, LLM proxy) and the UI.
