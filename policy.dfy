/**
 * The decisions `Grader` makes without changing any state: how job and
 * toolchain limits become sandbox limits, how a command line becomes a
 * program and its arguments, whether a compile produced an executable, the
 * verdict of one test case, and the text of a progress report.
 */
module GradingPolicy {
  import opened Wrappers
  import opened Judger
  import opened Text
  import opened Templates

  /** The `compile` section of a toolchain configuration. */
  datatype CompileConfig = CompileConfig(command: Template, maxCpuTime: int, maxRealTime: int, maxMemory: int)

  /** The `run` section of a toolchain configuration. A missing
      `memory_limit_check_only` key is `None`; `seccomp_rule` may be `None`,
      meaning no syscall filter. */
  datatype RunConfig = RunConfig(command: Template, seccompRule: Option<string>, memoryLimitCheckOnly: Option<int>)

  datatype Toolchain = Toolchain(compile: CompileConfig, run: RunConfig)

  /** What the sandbox and the file system report for one test case: the
      run's outcome, whether the output file exists, and the exit status of
      the `diff` between the output and the expected output. */
  datatype CaseRun = CaseRun(outcome: Outcome, outputExists: bool, diffStatus: int)

  /** One entry of the list `grade_all` returns. */
  datatype GradeRecord =
    | CompilationErrorRecord
    | TestCaseRecord(id: string, result: Verdict, telemetry: Telemetry)

  /** Result of the compile stage: the executable path, if any, and whether
      its ownership and permission bits were locked down. */
  datatype CompileOutcome = CompileOutcome(exePath: Option<string>, locked: bool)

  /** The job's progress as `_update_meta` reports it. */
  datatype Progress = Progress(completed: int, total: int)

  // ---------------------------------------------------------------- commands

  /** `line.split(" ")`: the first piece is the program, the rest its
      arguments; joining them with single spaces restores the line. */
  function SplitCommand(line: string): (cmd: (string, seq<string>))
    ensures ' ' !in cmd.0
    ensures forall k :: 0 <= k < |cmd.1| ==> ' ' !in cmd.1[k]
    ensures Join([cmd.0] + cmd.1, ' ') == line
  {
    var parts := Split(line, ' ');
    JoinSplit(line, ' ');
    assert parts == [parts[0]] + parts[1..];
    (parts[0], parts[1..])
  }

  /** A command line built from words without spaces splits back into the
      same program and arguments. */
  lemma SplitCommandOfWords(words: seq<string>)
    requires |words| >= 1
    requires forall k :: 0 <= k < |words| ==> ' ' !in words[k]
    ensures SplitCommand(Join(words, ' ')) == (words[0], words[1..])
  {
    SplitJoin(words, ' ');
  }

  // ------------------------------------------------------------------ limits

  /** The sandbox limits of the compile run: time and memory from the
      toolchain, a 128 MiB stack, 1 MiB of compiler output, any number of
      processes. */
  function CompileLimits(c: CompileConfig): (r: Limits)
    ensures r.maxCpuTime == c.maxCpuTime && r.maxRealTime == c.maxRealTime && r.maxMemory == c.maxMemory
    ensures r.maxStack == 134217728 && r.maxOutputSize == 1048576
    ensures r.maxProcessNumber == Unlimited
  {
    Limits(c.maxCpuTime, c.maxRealTime, c.maxMemory, 128 * MiB, MiB, Unlimited)
  }

  /** The sandbox limits of a test-case run: the job's runtime as CPU time,
      twice that as wall time, the job's memory, a 128 MiB stack, 16 MiB of
      output, any number of processes. */
  function RunLimits(maxRuntime: int, maxMemory: int): (r: Limits)
    ensures r.maxCpuTime == maxRuntime && r.maxRealTime == 2 * r.maxCpuTime
    ensures r.maxMemory == maxMemory
    ensures r.maxStack == 134217728 && r.maxOutputSize == 16777216
    ensures r.maxProcessNumber == Unlimited
  {
    Limits(maxRuntime, maxRuntime * 2, maxMemory, 128 * MiB, 16 * MiB, Unlimited)
  }

  /** `max_memory // 1024`: the memory ceiling in KiB, rounded towards
      negative infinity. */
  function MemoryPlaceholder(maxMemory: int): (kib: int)
    ensures kib * 1024 <= maxMemory < kib * 1024 + 1024
  {
    maxMemory / 1024
  }

  /** The compile command line: the template filled with the source path,
      the working directory and the executable path. */
  function CompileCommandLine(c: CompileConfig, srcPath: string, exeDir: string, exePath: string): string
    requires Fields(c.command) <= {SrcPath, ExeDir, ExePath}
  {
    var values := map[SrcPath := srcPath, ExeDir := exeDir, ExePath := exePath];
    FormatDefined(c.command, values);
    Format(c.command, values).value
  }

  /** The run command line: the template filled with the executable path,
      its directory and the memory ceiling in KiB. */
  function RunCommandLine(rc: RunConfig, exePath: string, exeDir: string, maxMemory: int): string
    requires Fields(rc.command) <= {ExePath, ExeDir, MaxMemory}
  {
    var values := map[ExePath := exePath, ExeDir := exeDir, MaxMemory := IntText(MemoryPlaceholder(maxMemory))];
    FormatDefined(rc.command, values);
    Format(rc.command, values).value
  }

  /** The sandbox invocation of the compile stage: compiler identity, no
      syscall filter, compile limits, and the command line split at
      spaces. */
  function CompileRequest(c: CompileConfig, srcPath: string, exeDir: string, exePath: string): (r: Request)
    requires Fields(c.command) <= {SrcPath, ExeDir, ExePath}
    ensures r.limits == CompileLimits(c)
    ensures r.seccompRule == None && r.user == CompilerUser && r.streams == CompilerStreams
    ensures r.memoryLimitCheckOnly == 0
    ensures ' ' !in r.program && forall k :: 0 <= k < |r.args| ==> ' ' !in r.args[k]
    ensures Join([r.program] + r.args, ' ') == CompileCommandLine(c, srcPath, exeDir, exePath)
    ensures (r.program, r.args) == SplitCommand(CompileCommandLine(c, srcPath, exeDir, exePath))
  {
    var cmd := SplitCommand(CompileCommandLine(c, srcPath, exeDir, exePath));
    Request(cmd.0, cmd.1, CompileLimits(c), None, CompilerUser, CompilerStreams, 0)
  }

  /** The sandbox invocation for one test case. */
  function RunRequest(rc: RunConfig, exePath: string, exeDir: string, maxMemory: int, maxRuntime: int, testcase: string): Request
    requires Fields(rc.command) <= {ExePath, ExeDir, MaxMemory}
  {
    var cmd := SplitCommand(RunCommandLine(rc, exePath, exeDir, maxMemory));
    var checkOnly := if rc.memoryLimitCheckOnly.Some? then rc.memoryLimitCheckOnly.value else 0;
    Request(cmd.0, cmd.1, RunLimits(maxRuntime, maxMemory), rc.seccompRule, RunUser, TestCaseStreams(testcase), checkOnly)
  }

  /** A test case is run under the run identity with the toolchain's
      syscall filter (none when the toolchain names none) and the run limits
      derived from the job, reading and writing that test case's files;
      `memory_limit_check_only` defaults to 0; its program and arguments are
      the filled-in run command split at spaces. */
  lemma RunRequestSpec(rc: RunConfig, exePath: string, exeDir: string, maxMemory: int, maxRuntime: int, testcase: string)
    requires Fields(rc.command) <= {ExePath, ExeDir, MaxMemory}
    ensures var r := RunRequest(rc, exePath, exeDir, maxMemory, maxRuntime, testcase);
      && r.limits == RunLimits(maxRuntime, maxMemory)
      && r.seccompRule == rc.seccompRule && r.user == RunUser
      && r.streams == TestCaseStreams(testcase)
      && (rc.memoryLimitCheckOnly.Some? ==> r.memoryLimitCheckOnly == rc.memoryLimitCheckOnly.value)
      && (rc.memoryLimitCheckOnly.None? ==> r.memoryLimitCheckOnly == 0)
      && ' ' !in r.program && (forall k :: 0 <= k < |r.args| ==> ' ' !in r.args[k])
      && Join([r.program] + r.args, ' ') == RunCommandLine(rc, exePath, exeDir, maxMemory)
      && (r.program, r.args) == SplitCommand(RunCommandLine(rc, exePath, exeDir, maxMemory))
  {
  }

  // ------------------------------------------------------------ compile gate

  /** The compile stage after the sandbox returned: an executable exactly
      when the sandbox reports success, whether or not the artifact was
      found at lockdown. */
  function CompileStage(result: Verdict, exePath: string, artifactExists: bool): (r: CompileOutcome)
    ensures r.exePath.Some? <==> result == Success
    ensures r.exePath.Some? ==> r.exePath.value == exePath
    ensures r.locked <==> result == Success && artifactExists
  {
    if result == Success then
      CompileOutcome(Some(exePath), artifactExists)
    else
      CompileOutcome(None, false)
  }

  // ----------------------------------------------------------------- verdict

  /** The record `_grade` returns for one test case. A sandbox
      classification other than success is kept as it is and the output is
      not consulted; after a successful run the verdict is success exactly
      when the output file exists and `diff` exits with status 0, and wrong
      answer otherwise. The telemetry passes through and the id is added. */
  function Classify(id: string, run: CaseRun): (r: GradeRecord)
    ensures r.TestCaseRecord? && r.id == id && r.telemetry == run.outcome.telemetry
    ensures run.outcome.result != Success ==> r.result == run.outcome.result
    ensures run.outcome.result == Success ==> (r.result == Success <==> run.outputExists && run.diffStatus == 0)
    ensures run.outcome.result == Success ==> r.result == Success || r.result == WrongAnswer
  {
    var result :=
      if run.outcome.result == Success then
        if run.outputExists then
          if run.diffStatus == 0 then Success else WrongAnswer
        else WrongAnswer
      else run.outcome.result;
    TestCaseRecord(id, result, run.outcome.telemetry)
  }

  /** The records of the test cases graded so far, in order. */
  function Records(testcases: seq<string>, runs: seq<CaseRun>): (rs: seq<GradeRecord>)
    requires |runs| == |testcases|
    ensures |rs| == |testcases|
  {
    if testcases == [] then []
    else
      var n := |testcases| - 1;
      Records(testcases[..n], runs[..n]) + [Classify(testcases[n], runs[n])]
  }

  /** The record at position `i` is the verdict on test case `i`. */
  lemma {:induction false} RecordsAt(testcases: seq<string>, runs: seq<CaseRun>, i: nat)
    requires |runs| == |testcases| && i < |testcases|
    ensures Records(testcases, runs)[i] == Classify(testcases[i], runs[i])
  {
    var n := |testcases| - 1;
    if i < n {
      RecordsAt(testcases[..n], runs[..n], i);
    }
  }

  /** Every test case has exactly one record, at its own position, carrying
      its id and the telemetry of its run, and none of them is a
      compilation error. A record keeps its run's sandbox classification
      unless that was success; it is success exactly when the run
      succeeded, the output exists and `diff` found no difference. */
  lemma {:induction false} RecordsPerTestCase(testcases: seq<string>, runs: seq<CaseRun>)
    requires |runs| == |testcases|
    ensures |Records(testcases, runs)| == |testcases|
    ensures CompilationErrorRecord !in Records(testcases, runs)
    ensures forall i :: 0 <= i < |testcases| ==>
      && Records(testcases, runs)[i].TestCaseRecord?
      && Records(testcases, runs)[i].id == testcases[i]
      && Records(testcases, runs)[i].telemetry == runs[i].outcome.telemetry
    ensures forall i :: 0 <= i < |testcases| && runs[i].outcome.result != Success ==>
      Records(testcases, runs)[i].result == runs[i].outcome.result
    ensures forall i :: 0 <= i < |testcases| ==>
      (Records(testcases, runs)[i].result == Success <==>
        runs[i].outcome.result == Success && runs[i].outputExists && runs[i].diffStatus == 0)
  {
    var rs := Records(testcases, runs);
    forall i | 0 <= i < |testcases|
      ensures rs[i] == Classify(testcases[i], runs[i])
    {
      RecordsAt(testcases, runs, i);
    }
  }

  // ---------------------------------------------------------------- progress

  /** The progress string `f"{count}/{max_count}"`. */
  function ProgressText(p: Progress): string
  {
    IntText(p.completed) + "/" + IntText(p.total)
  }

  /** Reads a progress string back into its two numbers. */
  function ParseProgress(s: string): Option<Progress>
  {
    var parts := Split(s, '/');
    if |parts| == 2 then Some(Progress(ParseInt(parts[0]), ParseInt(parts[1]))) else None
  }

  /** A published progress string determines the counter values it was made
      from. */
  lemma ProgressTextRoundTrip(p: Progress)
    ensures ParseProgress(ProgressText(p)) == Some(p)
  {
    var a, b := IntText(p.completed), IntText(p.total);
    assert '/' !in a && '/' !in b;
    assert Join([a, b], '/') == ProgressText(p);
    SplitJoin([a, b], '/');
    ParseIntText(p.completed);
    ParseIntText(p.total);
  }

  /** The progress reports published after each of `steps` test cases when
      the counter starts at `start`, out of `total`. */
  function ProgressSteps(start: int, total: int, steps: nat): (reports: seq<Progress>)
    ensures |reports| == steps
  {
    if steps == 0 then []
    else ProgressSteps(start, total, steps - 1) + [Progress(start + steps, total)]
  }

  /** Everything `grade_all` publishes: the report before the first test
      case, then one after each. */
  function ProgressTrace(start: int, total: int, steps: nat): (trace: seq<Progress>)
    ensures |trace| == steps + 1
  {
    [Progress(start, total)] + ProgressSteps(start, total, steps)
  }

  /** Report `k` of a trace says `start + k` completed out of `total`. */
  lemma {:induction false} ProgressTraceAt(start: int, total: int, steps: nat, k: nat)
    requires k <= steps
    ensures ProgressTrace(start, total, steps)[k] == Progress(start + k, total)
  {
    if 0 < k {
      ProgressStepsAt(start, total, steps, k - 1);
    }
  }

  lemma {:induction false} ProgressStepsAt(start: int, total: int, steps: nat, k: nat)
    requires k < steps
    ensures ProgressSteps(start, total, steps)[k] == Progress(start + k + 1, total)
  {
    if k < steps - 1 {
      ProgressStepsAt(start, total, steps - 1, k);
    }
  }

  /** A fresh job of `n` test cases publishes the strings `0/n`, `1/n`,
      ..., `n/n` in that order, ending with all test cases completed. */
  lemma ProgressTraceCounts(n: nat)
    ensures forall k :: 0 <= k <= n ==>
      ParseProgress(ProgressText(ProgressTrace(0, n, n)[k])) == Some(Progress(k, n))
    ensures ProgressTrace(0, n, n)[n] == Progress(n, n)
  {
    forall k | 0 <= k <= n
      ensures ParseProgress(ProgressText(ProgressTrace(0, n, n)[k])) == Some(Progress(k, n))
    {
      ProgressTraceAt(0, n, n, k);
      ProgressTextRoundTrip(Progress(k, n));
    }
    ProgressTraceAt(0, n, n, n);
  }
}
