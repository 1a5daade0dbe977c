/**
 * The interface of the `_judger` sandbox as `Grader` uses it: what a
 * request to run a program carries, and what the sandbox reports back.
 * How the sandbox enforces its limits is not part of this model.
 */
module Judger {
  import opened Wrappers

  /** The values of a result record's `result` field. All but
      `CompilationError` are the sandbox's own classifications;
      `CompilationError` is the synthetic job-level verdict. */
  datatype Verdict =
    | Success
    | WrongAnswer
    | CpuTimeLimitExceeded
    | RealTimeLimitExceeded
    | MemoryLimitExceeded
    | RuntimeError
    | SystemError
    | CompilationError

  /** The measurements the sandbox reports beside its classification. */
  datatype Telemetry = Telemetry(cpuTime: int, realTime: int, memory: int, signal: int, exitCode: int, error: int)

  /** What one sandbox run returns. */
  datatype Outcome = Outcome(result: Verdict, telemetry: Telemetry)

  /** A ceiling that is either a number or the sandbox's `UNLIMITED`. */
  datatype Bound = Unlimited | AtMost(n: int)

  datatype Limits = Limits(
    maxCpuTime: int,
    maxRealTime: int,
    maxMemory: int,
    maxStack: int,
    maxOutputSize: int,
    maxProcessNumber: Bound)

  /** The identity a run is executed under. */
  datatype User = CompilerUser | RunUser

  /** Where standard input and output are redirected: the compiler reads the
      source and writes its log; a test-case run reads that test case's input
      and writes an output file named after it. */
  datatype Streams = CompilerStreams | TestCaseStreams(testcase: string)

  /** One invocation of the sandbox. */
  datatype Request = Request(
    program: string,
    args: seq<string>,
    limits: Limits,
    seccompRule: Option<string>,
    user: User,
    streams: Streams,
    memoryLimitCheckOnly: int)

  const MiB: int := 1024 * 1024
}
