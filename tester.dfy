/**
  The tester (src/tester.rs): how the exit codes of the compiler and of the produced test
  binary are classified, and how `compile_and_test` chains the two.

  The processes themselves are oracles: `rustc(code)` is what compiling `code` reports,
  `runTest(path)` what running the executable at `path` reports.
*/
module Tester {
  import opened Wrappers
  import opened Errors

  const COMPILE_ERROR_PREFIX: string := "Fix the following compilation error: "
  const TEST_ERROR_PREFIX: string := "Fix the following test error: "
  /** The exit code of a Rust test binary whose assertion failed. */
  const ASSERTION_FAILED: int := 101

  /** What a finished process reports: `status.code()` (`None` when killed by a signal) and its output. */
  datatype ProcessOutput = ProcessOutput(code: Option<int>, stdout: string, stderr: string)

  datatype TesterResult =
    | Success(stdout: string, execPath: string)
    | Failure(stdout: string, suggestion: string)

  /** `Path::join` of a relative file name: a `/` is inserted unless `dir` is empty or already ends in one. */
  function JoinPath(dir: string, name: string): (p: string)
    ensures |p| >= |name| && p[|p| - |name|..] == name
    ensures |p| >= |dir| && p[..|dir|] == dir
  {
    if dir == [] || dir[|dir| - 1] == '/' then dir + name else dir + "/" + name
  }

  /** `compile`: classifies the compiler's exit code; the executable is `<dir>/test`. */
  function Compile(tempDir: string, out: ProcessOutput): (r: Result<TesterResult, AiCriticError>)
    ensures r == Err(ProcessTerminated) <==> out.code.None?
    ensures r.Ok? && r.value.Success? <==> out.code == Some(0)
    ensures r.Ok? && r.value.Success? ==> r.value == Success(out.stdout, JoinPath(tempDir, "test"))
    ensures r.Ok? && r.value.Failure? <==> out.code.Some? && out.code.value != 0
    ensures r.Ok? && r.value.Failure? ==>
              r.value.stdout == out.stderr && r.value.suggestion == COMPILE_ERROR_PREFIX + out.stderr
  {
    match out.code
    case Some(0) => Ok(Success(out.stdout, JoinPath(tempDir, "test")))
    case Some(_) => Ok(Failure(out.stderr, COMPILE_ERROR_PREFIX + out.stderr))
    case None => Err(ProcessTerminated)
  }

  /** `test`: classifies the test binary's exit code. */
  function Test(out: ProcessOutput): (r: Result<TesterResult, AiCriticError>)
    ensures r == Ok(Success(out.stdout, "")) <==> out.code == Some(0)
    ensures r == Ok(Failure(out.stdout, TEST_ERROR_PREFIX + out.stdout)) <==> out.code == Some(ASSERTION_FAILED)
    ensures r == Err(ProcessTerminated) <==> out.code.None?
    ensures forall c :: r == Err(TestingFailed(c)) <==> out.code == Some(c) && c != 0 && c != ASSERTION_FAILED
  {
    match out.code
    case Some(0) => Ok(Success(out.stdout, ""))
    case Some(101) => Ok(Failure(out.stdout, TEST_ERROR_PREFIX + out.stdout))
    case Some(c) => Err(TestingFailed(c))
    case None => Err(ProcessTerminated)
  }

  /**
    `compile_and_test`: a compile failure or error is returned as it is; otherwise the
    result is that of testing the executable the compile produced.
  */
  function CompileAndTest(tempDir: string, code: string,
                          rustc: string -> ProcessOutput,
                          runTest: string -> ProcessOutput): (r: Result<TesterResult, AiCriticError>)
    ensures var c := Compile(tempDir, rustc(code));
            r == if c.Ok? && c.value.Success? then Test(runTest(c.value.execPath)) else c
  {
    match Compile(tempDir, rustc(code))
    case Err(e) => Err(e)
    case Ok(outcome) =>
      match outcome
      case Success(_, execPath) => Test(runTest(execPath))
      case Failure(_, _) => Ok(outcome)
  }

  /** A program that fails to compile is never tested: what the test would report does not matter. */
  lemma CompileFailureSkipsTest(tempDir: string, code: string, rustc: string -> ProcessOutput,
                                runTest1: string -> ProcessOutput, runTest2: string -> ProcessOutput)
    requires rustc(code).code != Some(0)
    ensures CompileAndTest(tempDir, code, rustc, runTest1) == CompileAndTest(tempDir, code, rustc, runTest2)
    ensures rustc(code).code.Some? ==>
              CompileAndTest(tempDir, code, rustc, runTest1) ==
              Ok(Failure(rustc(code).stderr, COMPILE_ERROR_PREFIX + rustc(code).stderr))
  {
  }

  /** A program that compiles is tested at `<dir>/test`, and only that run decides the result. */
  lemma CompileSuccessTestsExecutable(tempDir: string, code: string, rustc: string -> ProcessOutput,
                                      runTest: string -> ProcessOutput)
    requires rustc(code).code == Some(0)
    ensures CompileAndTest(tempDir, code, rustc, runTest) == Test(runTest(JoinPath(tempDir, "test")))
  {
  }
}
