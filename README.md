# ai_critics in Dafny

This project models the core of `ai_critics`, a program that asks a chat model for a
Rust program solving a coding goal. A panel of critic agents then judges the program.
If any critic rejects it, a fixer agent rewrites the program from the critics'
suggestions, and the critics judge again. Once no critic has anything to suggest, the
program is compiled. A companion binary, `collect_data`, runs that program many times:
for each number of critics, for each of eight coding problems, three iterations of at
most three retried runs. It tallies the child's exit codes into one CSV row per
problem.

One module per source file:

- `ChatterJson` (`chatter_json.dfy`): the JSON chat client.
  - The bounded retry loop around one chat request (at most five attempts, each one
    non-streaming request; only a `Stop` finish reason or an error ends it).
  - Parsing the answer's text.
  - Checking required keys (`validate_fields`).
  - Field extraction: a string field has its `\n` escapes replaced by newlines; an
    array of strings is joined with newlines; other JSON kinds give the empty string.
- `Critic` (`critic.dfy`): critic agents of three kinds.
  - Their names and instructions.
  - Decoding a critic's JSON verdict into a `Correction`: `corrections` may be null or
    an array of strings, and a missing `correct` means false.
  - Their chat call.
- `Coder` and `Fixer` (`coder.dfy`, `fixer.dfy`): the agents that write and rewrite the
  program.
  - Their names and requests.
  - The fixer's user message: goal, code and criticisms separated by `\n\n------\n\n`.
  - Extraction of the `code` field.
- `MainLoop` (`main_loop.dfy`): the orchestration loop of `main.rs`.
  - Gathering the critics' results; the first error aborts the run.
  - Concatenating the rejecting critics' corrections, duplicates kept; the loop has no
    proposal limit.
  - Agreement, fixing, compiling and the proposal count.
- `Tester` (`tester.dfy`): classification of compiler and test-binary exit codes, and
  `compile_and_test`.
- `ProgressBar` (`progress_bar.dfy`): the counters of the doubling progress bar, as a
  class with the operations `inc`, `dec` and `reset_to_zero`.
- `CollectData` (`collect_data.dfy`): the experiment harness, as classes with mutable
  state.
  - The command runner, a queue of what successive child runs report; the mock's exit
    codes are consumed in order.
  - The CSV sink.
  - The data collector, whose loops are proved against reference functions of the
    runner's queue.
  - The source's own unit tests, restated as lemmas and as two scenario methods that
    run the collector on the mock.

Shared modules:

- `Wrappers`: `Option` and `Result`.
- `Errors`: the `AiCriticError` variants the core raises.
- `Json`: the JSON value.
- `Strings`: decimal formatting and parsing, join and split.

Agents, the chat service, the compiler and child processes are outside the model. They
appear as parameters or oracles:

- a sequence of service answers, one per request;
- function-typed critic, fixer, coder and compile oracles;
- `ProcessOutput` values;
- a queue of exit statuses.

## Model

| member | source | states |
|---|---|---|
| ChatterJson.ParseJson | src/chatter_json.rs:36-45 | a missing text gives `NoTextField`; otherwise the result is the parsed JSON value, or a `JsonParseError` exactly when the text does not parse |
| ChatterJson.ValidateFields | src/chatter_json.rs:48-65 | a non-object is `NotJsonObject`; on an object, success iff every required field is a key; an error names exactly the missing fields; success returns exactly the keys that are not required |
| ChatterJson.UnescapeIdentity | src/chatter_json.rs:70 | the `\n`-escape replacement leaves a text without escapes unchanged |
| ChatterJson.UnescapeHead | src/chatter_json.rs:70 | the first character after replacement is a newline exactly when the text starts with an escape, otherwise the text's first character |
| ChatterJson.UnescapeLeavesNoEscapes | src/chatter_json.rs:70 | no `\n` escape survives the replacement |
| ChatterJson.UnescapeIdempotent | src/chatter_json.rs:70 | replacing twice is the same as replacing once |
| ChatterJson.GetFieldString | src/chatter_json.rs:67-72 | a string gives its text with escapes replaced; anything else gives `NotJsonObject` |
| ChatterJson.CollectStrings | src/chatter_json.rs:79-87 | succeeds iff every element is a string, and then returns the strings in order; otherwise `NonStringElement` |
| ChatterJson.GetFieldArray | src/chatter_json.rs:76-94 | a non-array gives `NotArray`; an array of strings gives them joined by newlines; an array with a non-string element gives `NonStringElement` |
| ChatterJson.GetFieldArrayLines | src/chatter_json.rs:89-90 | an array of lines without newlines joins to a text that splits back into exactly those lines |
| ChatterJson.GetField | src/chatter_json.rs:96-122 | a missing key gives `MissingJsonFields` naming just that key; a string is unescaped; an array is joined; a number, object, boolean or null gives the empty string |
| ChatterJson.ChatFromCharacterised | src/chatter_json.rs:144-167 | from any attempt on, every answer before the last request was retried; a decisive answer decides the result; otherwise all attempts are spent and the result is `MaxRetriesExceeded` |
| ChatterJson.ChatOfCharacterised | src/chatter_json.rs:144-167 | `chat` makes 1 to 5 requests; the first decisive answer (an error, or a `Stop` choice) decides the result; otherwise the result is `MaxRetriesExceeded { retries: 5 }` after five requests |
| ChatterJson.ChatExhausts | src/chatter_json.rs:158-167 | five answers without `Stop` cost exactly five requests and give `MaxRetriesExceeded` |
| ChatterJson.Chat | src/chatter_json.rs:132-168 | the retry loop returns the result and request count of the reference definition, so `ChatOfCharacterised` describes it |
| Critic.New | src/critic.rs:96-122 | the agent keeps the kind it was created with; its name is the kind's prefix followed by the number (see `NewNames`) |
| Critic.NewNames | src/critic.rs:97-101 | the name is `Design Critic `, `Correctness Critic ` or `Syntax Critic ` by kind, followed by decimal digits that read back as the number |
| Critic.NewNamesDistinct | src/critic.rs:97-101 | two agents with the same name have the same kind and the same number |
| Critic.NewPrompt | src/critic.rs:103-107 | the instructions are the base prompt, a newline and the kind's criteria; different kinds get different instructions |
| Critic.DeserializeCorrections | src/critic.rs:75-93 | null gives no corrections; an array succeeds iff all elements are strings, and then gives them in order; any other value is an error |
| Critic.DecodeCorrection | src/critic.rs:64-72 | `name` stays empty; `correct` is true only for a JSON `true`, and false when missing; decoding fails iff `corrections` is missing or malformed, or `correct` is present but not a boolean |
| Critic.PostProcess | src/critic.rs:136-146 | a non-object or a missing key is an error; decoding succeeds iff the answer is an object with both keys, `correct` is a boolean and `corrections` is null or an array of strings; a success carries the agent's name and exactly the decoded flag and corrections |
| Critic.PostProcessNullCorrections | src/critic.rs:79-81 | a verdict with a boolean `correct` and a null `corrections` decodes to that flag and no corrections |
| Critic.PostProcessDecodes | src/critic.rs:136-146 | a well-formed verdict with any extra keys decodes to exactly its flag and list, stamped with the agent's name |
| Critic.PostProcessIgnoresExtraKeys | src/critic.rs:136-142 | keys other than `correct` and `corrections` do not change the outcome |
| Critic.Chat | src/critic.rs:124-147 | the request is the agent's system message then the user's text; a chat error passes through; otherwise the verdict is `PostProcess` of the answer |
| Coder.New | src/coder.rs:23-34 | the coder's system message is the fixed coder prompt |
| Coder.NewNames | src/coder.rs:30 | the name is `Coder_` followed by the number, which reads back, so distinct numbers give distinct names |
| ChatterJson.ExtractCode | src/coder.rs:48-53 | a non-object is `NotJsonObject`; a missing `code` key is `MissingJsonFields {code}`; otherwise the result is `get_field` of `code` |
| ChatterJson.ExtractCodeIgnoresExtraKeys | src/coder.rs:48-51 | extra keys in the answer are only warned about and do not change the result |
| ChatterJson.ExtractCodeUnescapes | src/coder.rs:53 | a string `code` field gives the program with its `\n` escapes replaced, and a program without escapes unchanged |
| Coder.Chat | src/coder.rs:36-54 | the request is the system message then the goal; a chat error passes through; otherwise the result is the extracted code |
| Fixer.New | src/fixer.rs:24-35 | the fixer's system message is the fixed fixer prompt |
| Fixer.NewNames | src/fixer.rs:31 | the name is `Fixer_` followed by the number, which reads back, so distinct numbers give distinct names |
| Fixer.UserMessageNoCriticisms | src/fixer.rs:38-43 | with no criticisms the message is goal, separator, code, separator, and nothing after |
| Fixer.SepAtPlacement | src/fixer.rs:38-43 | a separator found in a one-criticism message sits after the goal or after the code, unless one of the three parts holds a run of six dashes |
| Fixer.UserMessageOneCriticism | src/fixer.rs:38-43 | when none of goal, code and criticism holds a run of six dashes (single dashes are allowed), a one-criticism message holds exactly two separators, after the goal and after the code |
| Fixer.Chat | src/fixer.rs:37-65 | the request is the system message then the formatted message; a chat error passes through; otherwise the result is the extracted code |
| MainLoop.Gathered | src/main.rs:63-72 | succeeds iff every critic succeeded, and then returns all verdicts in order; otherwise the error is that of the first failing critic |
| MainLoop.Gather | src/main.rs:63-72 | the loop over the joined results computes `Gathered` |
| MainLoop.SuggestionsAppend | src/main.rs:74-79 | the suggestions of two runs of critics are the suggestions of each, concatenated |
| MainLoop.SuggestionsMembers | src/main.rs:74-79 | a text is a suggestion iff some rejecting critic lists it |
| MainLoop.SuggestionsLength | src/main.rs:74-79 | there are as many suggestions as corrections listed by rejecting critics, duplicates kept |
| MainLoop.AgreementIff | src/main.rs:80-92 | the critics agree iff no rejecting critic lists a correction |
| MainLoop.Aggregate | src/main.rs:74-79 | the appending loop computes `Suggestions` |
| MainLoop.CriticResults | src/main.rs:44-58 | there are `NUM_CRITICS` verdicts, critic `i+1` judging the current code |
| MainLoop.LoopFromOutcome | src/main.rs:43-104 | a converged run ends on the program it holds in its last round (`CodeAfter`), which the critics approved and which compiled, with a proposal count that grows by one per round; a run out of rounds ends on the program of its last fix, with the proposal count advanced by the number of rounds |
| MainLoop.OutOfFuelRejected | src/main.rs:74-92 | a run out of rounds had every round rejected, each on the program it then held |
| MainLoop.AbortedInRound | src/main.rs:63-101 | an aborted run carries the error of a failed critic, of the compiler on approved code, or of the fixer on suggestions, in one of its rounds and on the program it held in that round |
| MainLoop.CompileOnlyApproved | src/main.rs:94-101 | the compiler runs only on code the critics approved: two compilers that agree there give the same outcome |
| MainLoop.ConvergesAtOnce | src/main.rs:40-103 | critics that all approve the coder's first proposal, and a successful compile, end the run after one proposal on that program |
| MainLoop.NeverApproved | src/main.rs:43-104 | critics that always reject with suggestions, and a fixer that always answers, keep the loop going and increase the proposal count by one per round |
| MainLoop.Run | src/main.rs:40-104 | the loop computes `RunOf`, so `LoopFromOutcome` describes it |
| Tester.JoinPath | src/tester.rs:30-31 | the joined path starts with the directory and ends with the file name |
| Tester.Compile | src/tester.rs:29-59 | exit code 0 is success with the executable at `<dir>/test`; any other code is a failure carrying stderr and a "compilation error" suggestion; no code (a signal) is `ProcessTerminated` |
| Tester.Test | src/tester.rs:62-83 | 0 is success with an empty path; 101 is a failure carrying stdout and a "test error" suggestion; any other code `c` is `TestingFailed(c)`; no code is `ProcessTerminated`; each iff |
| Tester.CompileAndTest | src/tester.rs:87-100 | the test runs only when compilation succeeds, and then only the test decides the result |
| Tester.CompileFailureSkipsTest | src/tester.rs:92-97 | when compilation fails, the test binary's behaviour does not matter and the compile failure is returned |
| Tester.CompileSuccessTestsExecutable | src/tester.rs:92-99 | when compilation succeeds, the result is that of running `<dir>/test` |
| ProgressBar.IncKeepsInv | src/progress_bar.rs:49-57 | `inc` keeps the counters valid (a positive `u64` maximum, the progress within it) while doubling cannot overflow |
| ProgressBar.IncAtEndLandsHalfway | src/progress_bar.rs:13-18 | from a bar that is not full (progress below the maximum), reaching the end puts the progress back at exactly half of the new maximum |
| ProgressBar.IncAfterDecMissesHalfway | src/progress_bar.rs:49-72 | `dec` from `k+1` of `2k` leaves the full bar `k` of `k`, and `inc` from there ends off halfway; from `1` of `1` it ends on the full bar `2` of `2` |
| ProgressBar.FullBarReachable | src/progress_bar.rs:41-72 | six `inc`s from the start then five `dec`s reach `1` of `1`, and `inc` then gives `2` of `2` |
| ProgressBar.IncrementedToHalfLandsHalfway | src/progress_bar.rs:13-18 | the described `inc` keeps the counters valid, never leaves a full bar, and lands exactly halfway whenever it reaches the end |
| ProgressBar.IncrementedToHalfAgrees | src/progress_bar.rs:49-57 | on a bar that is not full the described `inc` is the source's `inc` |
| ProgressBar.DecKeepsInv | src/progress_bar.rs:60-72 | `dec` keeps the counters valid, does nothing at zero, and otherwise takes one from the progress |
| ProgressBar.IncsFromStart | src/progress_bar.rs:13-18 | after `n` increments from the start the progress is `n`, below the maximum; the maximum is 50 times a power of two, and is 50 or at most `2n` |
| ProgressBar.DoublingProgressBar.constructor | src/progress_bar.rs:41-45 | a new bar has progress 0 and maximum `STARTING_MAX` |
| ProgressBar.DoublingProgressBar.Inc | src/progress_bar.rs:49-57 | the new counters are `Incremented` of the old, and stay valid |
| ProgressBar.DoublingProgressBar.Dec | src/progress_bar.rs:60-72 | the new counters are `Decremented` of the old, and stay valid; at zero nothing changes |
| ProgressBar.DoublingProgressBar.ResetToZero | src/progress_bar.rs:74-78 | from any state, back to progress 0 and maximum `STARTING_MAX` |
| CollectData.IntToString | src/bin/collect_data.rs:163-167 | a non-negative code prints as its decimal digits, a negative one as `-` and the digits of its magnitude |
| CollectData.ArgsShape | src/bin/collect_data.rs:146-157 | the arguments are `run -- --problem-file=problems/coding_problem<n>.txt --num-critics=<k>`, plus `--general-critic-only` when asked; different runs get different arguments |
| CollectData.Rest | src/bin/collect_data.rs:231 | a run consumes the head of the mock's queue; an empty queue stays empty |
| CollectData.MockStatuses | src/bin/collect_data.rs:229-239 | each mock exit code `c` reports status code `c mod 256`, in the order given |
| CollectData.CommandRunner.constructor | src/bin/collect_data.rs:34-36 | a runner starts with the given statuses and no runs |
| CollectData.CommandRunner.Mock | src/bin/collect_data.rs:218-226 | the mock runner reports the given exit codes in order |
| CollectData.CommandRunner.Run | src/bin/collect_data.rs:229-239 | a run reports the head of the queue, or code 0 when it is empty, consumes it, and records its arguments |
| CollectData.Verdict | src/bin/collect_data.rs:160-180 | a positive code is the result; a negative code is the "unexpected error" error; a spawn error passes through |
| CollectData.RetriesFromCalls | src/bin/collect_data.rs:158-188 | at most three runs are made, and another one whenever one is still allowed |
| CollectData.RetriesFromRest | src/bin/collect_data.rs:158-188 | the runs are taken from the front of the queue, one status per run |
| CollectData.RetriesFromResult | src/bin/collect_data.rs:158-188 | every run before the last was retryable; the last decides the result, unless it was retryable too and the allowance ran out with result 0 |
| CollectData.RetriesCharacterised | src/bin/collect_data.rs:139-191 | `run_command_with_retries` makes one to three runs from the front of the queue; only an exit code 0 or a missing code is retried; three retryable runs give 0 |
| CollectData.RetriesZeroIff | src/bin/collect_data.rs:158-190 | the result is 0 iff all three runs were retryable; a positive result is the exit code of one of the runs |
| CollectData.CountedMeaning | src/bin/collect_data.rs:117-128 | failures count the zero codes and divergences the 255 codes; the three counts add up to the number of codes; the iteration total is the sum of the other codes |
| CollectData.AttemptedFrom | src/bin/collect_data.rs:112-129 | a completed problem has exactly `NUM_ITERATIONS` codes, extending those already gathered |
| CollectData.AttemptedFromStep | src/bin/collect_data.rs:112-116 | each iteration's retries either end the problem with their io error or add their code and go on from the queue they leave |
| CollectData.CountedSnoc | src/bin/collect_data.rs:117-128 | tallying one more code extends the counters by that code's classification |
| CollectData.IterationsCount | src/bin/collect_data.rs:100-137 | the counts of a completed problem add up to `NUM_ITERATIONS` |
| CollectData.RowReadsBack | src/bin/collect_data.rs:85-94 | a CSV row split at its commas has six decimal fields that parse back to the problem, the critic count and the four counters |
| CollectData.ProblemRowsAt | src/bin/collect_data.rs:74-98 | there is one row per problem, and the `k`-th row written is problem `k+1`'s |
| CollectData.ProblemRowsSnoc | src/bin/collect_data.rs:85-94 | writing the next problem's row after the rows before it gives the rows of one more problem |
| CollectData.CollectRowsSnoc | src/bin/collect_data.rs:62-70 | the rows of one more critic count follow those of the counts before it |
| CollectData.ProblemsFrom | src/bin/collect_data.rs:81-97 | a successful run has exactly eight outcomes; a failed one stops before the eighth |
| CollectData.ProblemsFromFails | src/bin/collect_data.rs:81-83 | a problem whose iterations fail ends the run with that error, keeping the earlier outcomes |
| CollectData.ProblemsFromAdvances | src/bin/collect_data.rs:81-94 | a problem that completes adds its outcome and row, and the run goes on from the queue it leaves |
| CollectData.Problems | src/bin/collect_data.rs:74-98 | problems 1 to 8 in order, from the runner's queue |
| CollectData.ProblemsFromKeeps | src/bin/collect_data.rs:81-95 | outcomes already gathered stay at the front |
| CollectData.ProblemsFromNext | src/bin/collect_data.rs:81-94 | the next outcome is that of the next problem's iterations on the queue the earlier problems left |
| CollectData.BlocksFrom | src/bin/collect_data.rs:58-72 | there is at most one block of outcomes per critic count |
| CollectData.BlocksFromFails | src/bin/collect_data.rs:62-69 | a block whose run fails ends collection with its error |
| CollectData.BlocksFromAdvances | src/bin/collect_data.rs:62-69 | a block that succeeds is kept, and collection goes on from the queue it leaves |
| CollectData.Blocks | src/bin/collect_data.rs:58-72 | the critic counts 1, 3 and 5 in order, from the runner's queue |
| CollectData.BlocksShape | src/bin/collect_data.rs:58-72 | every block but the last holds eight outcomes; collection succeeds iff there are three full blocks |
| CollectData.BlocksFromShape | src/bin/collect_data.rs:58-72 | from any prefix of full blocks: the prefix is kept, every block but the last is full, and a failed run's last block falls short |
| CollectData.Sink.constructor | src/bin/collect_data.rs:246 | a new in-memory file is empty |
| CollectData.Sink.WriteLine | src/bin/collect_data.rs:85-94 | `writeln!` appends one line, and the file's text grows by the line and a newline |
| CollectData.DataCollector.constructor | src/bin/collect_data.rs:53-56 | the collector uses the given runner |
| CollectData.DataCollector.RunCommandWithRetries | src/bin/collect_data.rs:139-191 | the result and the queue left are those of the reference `Retries`; exactly that many runs are made, all with the same arguments, after the earlier ones |
| CollectData.DataCollector.RunIterationsForProblem | src/bin/collect_data.rs:100-137 | the outcome and the queue left are those of `IterationsOf`, and an io error is returned as is; at least one run is made, earlier runs are kept, and every new run gets the arguments of this problem, critic count and flag |
| CollectData.DataCollector.ProcessProblemsForNumCritics | src/bin/collect_data.rs:74-98 | the result, the queue left and the rows written are those of `Problems`: one row per completed problem, in order, after the file's earlier lines; the new runs are `counts[0]` runs with the arguments of problem 1, then `counts[1]` of problem 2, and so on, each problem at least once, with this critic count and flag, for the problems with a row and, after an io error, the problem that failed |
| CollectData.FlattenCovers | src/bin/collect_data.rs:81-95 | runs recorded that way cover problems 1 to the last one, each at least once, in ascending order |
| CollectData.DataCollector.CollectData | src/bin/collect_data.rs:58-72 | the result, the queue left and the rows written are those of `Blocks`: the blocks for 1, 3 and 5 critics, in order; every new run is tagged with a critic count of a block and a problem, gets exactly those arguments and `GENERAL_CRITIC_ONLY`, the tags are ordered by critic count then problem, and every problem with an outcome in a block was run with that block's critic count |
| CollectData.RetriesMockExamples | src/bin/collect_data.rs:294-329 | two zeros then 2 give 2; six zeros give 0 after three runs, leaving three zeros; 4 and 255 pass through |
| CollectData.RetriesDecisiveHead | src/bin/collect_data.rs:158-173 | a status that is not retried ends the retries after one run |
| CollectData.RetriesZeroThenHead | src/bin/collect_data.rs:158-182 | a zero followed by a status that is not retried ends the retries after two runs |
| CollectData.IterationsOfThree | src/bin/collect_data.rs:112-136 | three retried runs in a row give the tally of their three codes |
| CollectData.IterationsOneTwoThree | src/bin/collect_data.rs:331-343 | codes 1, 2, 3 give three successes and six iterations |
| CollectData.TallyOneTwoThree | src/bin/collect_data.rs:331-343 | tallying 1, 2, 3 gives `(3, 0, 0, 6)` |
| CollectData.IterationsAllSuccess | src/bin/collect_data.rs:331-343 | `test_run_iterations_for_problem_success`: the mock 1, 2, 3 gives `(3, 0, 0, 6)` |
| CollectData.AttemptedTwoZeros | src/bin/collect_data.rs:345-357 | two zero codes then an empty queue exhaust the retries with 0 |
| CollectData.AttemptedFiveZeros | src/bin/collect_data.rs:345-357 | five zero codes give three iterations of code 0 |
| CollectData.IterationsAllFailure | src/bin/collect_data.rs:345-357 | `test_run_iterations_for_problem_failure`: zeros give `(0, 3, 0, 0)` |
| CollectData.AttemptedThreeDivergences | src/bin/collect_data.rs:359-371 | three 255 codes give three iterations of code 255 |
| CollectData.IterationsAllDivergence | src/bin/collect_data.rs:359-371 | `test_run_iterations_for_problem_divergence`: 255s give `(0, 0, 3, 0)` |
| CollectData.IterationsOnEmpty | src/bin/collect_data.rs:231 | an exhausted mock makes a problem fail three times |
| CollectData.TallyThreeZeros | src/bin/collect_data.rs:117-120 | three zero codes tally to three failures |
| CollectData.ProblemsOnEmpty | src/bin/collect_data.rs:74-98 | after the mock is exhausted, every remaining problem fails all its iterations and the run succeeds |
| CollectData.ProblemsFromIterated | src/bin/collect_data.rs:81-94 | a problem that completes hands the rest of the queue to the next |
| CollectData.ProblemsOneTwoThreeThrice | src/bin/collect_data.rs:242-262 | 1, 2, 3 three times gives three outcomes of `(3, 0, 0, 6)`, then five of `(0, 3, 0, 0)` |
| CollectData.ProblemsAllSuccess | src/bin/collect_data.rs:242-262 | the same on the `all_success` mock |
| CollectData.IterationsMixedFirst | src/bin/collect_data.rs:264-292 | 1, 0, 255, 2 gives two successes, one divergence and three iterations |
| CollectData.TallyMixedFirst | src/bin/collect_data.rs:277-284 | tallying 1, 255, 2 gives `(2, 0, 1, 3)` |
| CollectData.IterationsMixedSecond | src/bin/collect_data.rs:264-292 | 0, 255, 3, 0, 255 gives one success, two divergences and three iterations |
| CollectData.TallyMixedSecond | src/bin/collect_data.rs:264-292 | tallying 255, 3, 255 gives `(1, 0, 2, 3)` |
| CollectData.ProblemsMixedQueue | src/bin/collect_data.rs:264-292 | the `mixed_outcomes` queue gives `(2, 0, 1, 3)`, `(1, 0, 2, 3)`, then six outcomes of `(0, 3, 0, 0)` |
| CollectData.ProblemsMixed | src/bin/collect_data.rs:264-292 | the same on the `mixed_outcomes` mock |
| CollectData.MixedFirstRow | src/bin/collect_data.rs:284 | problem 1's row is `1,1,2,0,1,3` |
| CollectData.MixedSecondRow | src/bin/collect_data.rs:285 | problem 2's row is `2,1,1,0,2,3` |
| CollectData.FailedThirdRow | src/bin/collect_data.rs:286 | problem 3's row is `3,1,0,3,0,0` |
| CollectData.SucceededFirstRow | src/bin/collect_data.rs:254 | problem 1's row is `1,1,3,0,0,6` |
| CollectData.MixedRows | src/bin/collect_data.rs:284-291 | the rows of the `mixed_outcomes` outcomes are `1,1,2,0,1,3`, `2,1,1,0,2,3`, then the all-failed row of each later problem |
| CollectData.AllSuccessRows | src/bin/collect_data.rs:254-261 | the rows of the `all_success` outcomes: three succeeded problems, then five failed ones |
| CollectData.MixedOutcomesRows | src/bin/collect_data.rs:264-292 | the rows the `mixed_outcomes` mock leads to, and its success |
| CollectData.AllSuccessRowsOfMock | src/bin/collect_data.rs:242-262 | the rows the `all_success` mock leads to, and its success |
| CollectData.MixedOutcomesScenario | src/bin/collect_data.rs:264-292 | the collector on the `mixed_outcomes` mock succeeds and writes eight rows: `1,1,2,0,1,3`, `2,1,1,0,2,3`, `3,1,0,3,0,0`, and the all-failed row for each later problem |
| CollectData.AllSuccessScenario | src/bin/collect_data.rs:242-262 | the collector on the `all_success` mock succeeds and writes eight rows: `1,1,3,0,0,6` and the succeeded rows of problems 2 and 3, then the all-failed rows of problems 4 to 8 |

## Left out

- Network, terminal and file I/O are not modelled: the OpenAI client, `println!`,
  `eprintln!`, the environment-variable check and the `exit` calls. The chat service is
  a sequence of answers and the file is a sequence of lines.
- Request building is not modelled: model name, token limit, temperature, response
  format, and `build()?` errors. The single-choice `assert_eq!` panic and
  `NoResponseChoice` are also left out: every answer carries exactly one choice.
- `serde_json::from_str` is not modelled: each answer carries the value it parses to,
  or none.
- `serde_json` errors are reduced to a message; Rust error-conversion details are not
  modelled.
- Concurrency is not modelled. `tokio::spawn` and `join_all` in `main.rs` run the
  critics concurrently and wait for all of them; the model evaluates them in order.
  Join errors (a panicked task) are not modelled.
- Temporary directories, writing `code.rs`, and spawning `rustc` and the test binary
  are not modelled. Their reports are `ProcessOutput` values from oracles, and the
  directory is a path string.
- `src/compiler.rs`, `src/errors.rs` beyond the error variants, `src/backtraces.rs` and
  `src/bin/plot_data.rs` are not part of this model. The compiler is a `CompileOracle`
  in `MainLoop`.
- The source files belong to slightly different revisions.
  - `main.rs` calls `CriticAgent::new(i)` with one argument, while `critic.rs` takes a
    kind and a number.
  - `critic.rs` passes a progress bar to `chat`, while `chatter_json.rs` takes none.
  - The model follows each file as written. In `main.rs` the critics are oracles
    indexed by proposal and critic number, and the fixer, created anew every round, is
    an oracle indexed by proposal number; the coder, asked once, and the compiler are
    fixed functions of their inputs.
- MainLoop.Run: the source loop in `main.rs:43-104` has no bound. The model runs at most
  `fuel` rounds and reports `OutOfFuel` after that. A run that never converges is
  described only up to the fuel given.
- ChatterJson.Chat: requires at least five answers, the most the loop can ask for. The
  callers' `Chat` methods pass the same requirement on.
- CollectData.CommandRunner.Run: the ghost `invocations` history is not part of the
  source; the mock ignores its arguments.
- CollectData.DataCollector.RunCommandWithRetries: the five-second `sleep` between
  retries, compiled only outside tests, is left out.
- ProgressBar.DoublingProgressBar.Inc: requires the maximum below 2^63, so doubling it
  stays within `u64`. Overflow of the `u64` counters (a panic in debug builds) is not
  modelled.
- ProgressBar: only the two counters are modelled. The terminal bar, its template,
  `new_multi` and `println` are left out.
- CollectData: exit codes are unbounded integers rather than `i32`. The `usize` counters
  are unbounded naturals; with three iterations of codes below 256 per problem they
  cannot overflow.
- CollectData.Text: only the lines are modelled; the file's bytes are their text, each
  line followed by a newline.
- CollectData.AllSuccessScenario: the source checks the rows of problems 4 to 8 by their
  literal text. The model states them as `Row(k, 1, outcome)`; `RowReadsBack` gives their
  fields. The literal text is proved only for the rows `MixedFirstRow`, `MixedSecondRow`,
  `FailedThirdRow` and `SucceededFirstRow` name.
- CollectData.MixedOutcomesScenario: the same holds for rows 4 to 8.
- The `main` of `collect_data` is modelled as `DataCollector.CollectData` on a given
  runner and sink. Creating `iterations_data.csv`, writing its header and choosing the real process
  runner are left out.
- ProgressBar.DoublingProgressBar.Inc: keeps the source's doubling of the maximum, so
  after a `dec` to a full bar it can end off halfway (see "## Findings");
  `IncrementedToHalf` is the behaviour the comment describes.

## Findings

| source | as written | input that shows it | evidently intended | confidence | as-written member | corrected member |
|---|---|---|---|---|---|---|
| src/progress_bar.rs:49-57 | `inc` doubles the maximum when the progress reaches it, while the comment at lines 13-18 says the bar drops back to halfway | six `inc`s from the start, then five `dec`s, reach progress 1 of maximum 1; one `inc` then gives 2 of 2, a full bar | on reaching the end, the new maximum is twice the new progress, so the bar is at exactly half | not executed | ProgressBar.FullBarReachable | ProgressBar.IncrementedToHalfLandsHalfway |
