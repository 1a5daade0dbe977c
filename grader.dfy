/**
 * The `Grader` object: compiles the submission once when it is built, then
 * grades every test case in turn, keeping a progress counter that it
 * publishes after each step.
 */
module Grading {
  import opened Wrappers
  import opened Judger
  import opened Templates
  import opened GradingPolicy

  /** The sandbox invocations for the given test cases, in order. */
  function RunRequests(rc: RunConfig, exePath: string, exeDir: string, maxMemory: int, maxRuntime: int, testcases: seq<string>): (rs: seq<Request>)
    requires testcases != [] ==> Fields(rc.command) <= {ExePath, ExeDir, MaxMemory}
    ensures |rs| == |testcases|
  {
    if testcases == [] then []
    else
      var n := |testcases| - 1;
      RunRequests(rc, exePath, exeDir, maxMemory, maxRuntime, testcases[..n])
        + [RunRequest(rc, exePath, exeDir, maxMemory, maxRuntime, testcases[n])]
  }

  /** How the records and the sandbox invocations grow when one more test
      case is graded. */
  lemma GradeStep(rc: RunConfig, exePath: string, exeDir: string, maxMemory: int, maxRuntime: int,
                  testcases: seq<string>, runs: seq<CaseRun>, i: nat)
    requires Fields(rc.command) <= {ExePath, ExeDir, MaxMemory}
    requires |runs| == |testcases| && i < |testcases|
    ensures Records(testcases[..i + 1], runs[..i + 1]) == Records(testcases[..i], runs[..i]) + [Classify(testcases[i], runs[i])]
    ensures RunRequests(rc, exePath, exeDir, maxMemory, maxRuntime, testcases[..i + 1])
      == RunRequests(rc, exePath, exeDir, maxMemory, maxRuntime, testcases[..i])
         + [RunRequest(rc, exePath, exeDir, maxMemory, maxRuntime, testcases[i])]
  {
    assert testcases[..i + 1][..i] == testcases[..i] && runs[..i + 1][..i] == runs[..i];
  }

  /** The invocation at position `i` runs test case `i`. */
  lemma {:induction false} RunRequestsAt(rc: RunConfig, exePath: string, exeDir: string, maxMemory: int, maxRuntime: int,
                                         testcases: seq<string>, i: nat)
    requires Fields(rc.command) <= {ExePath, ExeDir, MaxMemory}
    requires i < |testcases|
    ensures RunRequests(rc, exePath, exeDir, maxMemory, maxRuntime, testcases)[i]
      == RunRequest(rc, exePath, exeDir, maxMemory, maxRuntime, testcases[i])
  {
    var n := |testcases| - 1;
    if i < n {
      RunRequestsAt(rc, exePath, exeDir, maxMemory, maxRuntime, testcases[..n], i);
    }
  }

  class Grader {
    const config: Toolchain
    const srcPath: string
    const workDir: string
    const maxMemory: int
    const maxRuntime: int
    /** The compiled executable, or `None` after a failed compile. */
    const exePath: Option<string>
    /** Whether the executable's owner and permission bits were changed. */
    const locked: bool

    /** Test cases graded so far. */
    var count: nat
    /** Number of test cases of the job, once grading has started. */
    var maxCount: nat
    /** Every progress report saved to the job, oldest first; the job's
        `progress` entry holds the `ProgressText` of the last one. */
    var published: seq<Progress>
    /** Every sandbox invocation made, oldest first. */
    var requests: seq<Request>

    /** Builds the object and compiles the submission. `exeFile` is the
        working directory joined with the toolchain's executable name;
        `compileResult` is the sandbox's classification of the compile run
        and `artifactExists` whether the executable was found at lockdown. */
    constructor (config: Toolchain, srcPath: string, workDir: string, exeFile: string,
                 maxMemory: int, maxRuntime: int, compileResult: Verdict, artifactExists: bool)
      requires Fields(config.compile.command) <= {SrcPath, ExeDir, ExePath}
      ensures this.config == config && this.srcPath == srcPath && this.workDir == workDir
      ensures this.maxMemory == maxMemory && this.maxRuntime == maxRuntime
      ensures exePath == CompileStage(compileResult, exeFile, artifactExists).exePath
      ensures locked == CompileStage(compileResult, exeFile, artifactExists).locked
      ensures requests == [CompileRequest(config.compile, srcPath, workDir, exeFile)]
      ensures count == 0 && maxCount == 0 && published == []
    {
      this.config := config;
      this.srcPath := srcPath;
      this.workDir := workDir;
      this.maxMemory := maxMemory;
      this.maxRuntime := maxRuntime;
      var compiled := CompileStage(compileResult, exeFile, artifactExists);
      exePath := compiled.exePath;
      locked := compiled.locked;
      requests := [CompileRequest(config.compile, srcPath, workDir, exeFile)];
      count := 0;
      maxCount := 0;
      published := [];
    }

    /** Publishes the current progress. */
    method UpdateMeta()
      modifies this
      ensures published == old(published) + [Progress(count, maxCount)]
      ensures count == old(count) && maxCount == old(maxCount) && requests == old(requests)
    {
      published := published + [Progress(count, maxCount)];
    }

    /** Grades one test case: runs the executable under the run limits,
        classifies the outcome, counts the attempt and publishes progress,
        whatever the verdict. */
    method Grade(testcase: string, run: CaseRun) returns (record: GradeRecord)
      requires exePath.Some?
      requires Fields(config.run.command) <= {ExePath, ExeDir, MaxMemory}
      modifies this
      ensures record == Classify(testcase, run)
      ensures count == old(count) + 1 && maxCount == old(maxCount)
      ensures published == old(published) + [Progress(count, maxCount)]
      ensures requests == old(requests) + [RunRequest(config.run, exePath.value, workDir, maxMemory, maxRuntime, testcase)]
    {
      requests := requests + [RunRequest(config.run, exePath.value, workDir, maxMemory, maxRuntime, testcase)];
      var result := run.outcome.result;
      if result == Success {
        if run.outputExists {
          var valid := run.diffStatus == 0;
          if !valid {
            result := WrongAnswer;
          }
        } else {
          result := WrongAnswer;
        }
      }
      record := TestCaseRecord(testcase, result, run.outcome.telemetry);
      count := count + 1;
      UpdateMeta();
    }

    /** Grades the job. Without an executable the answer is a single
        compilation-error record and nothing else happens; otherwise every
        test case is graded in order, progress being published once before
        the first and once after each. */
    method GradeAll(testcases: seq<string>, runs: seq<CaseRun>) returns (ret: seq<GradeRecord>)
      requires |runs| == |testcases|
      requires exePath.Some? && testcases != [] ==> Fields(config.run.command) <= {ExePath, ExeDir, MaxMemory}
      modifies this
      ensures exePath.None? ==> ret == [CompilationErrorRecord]
      ensures exePath.None? ==>
        count == old(count) && maxCount == old(maxCount) && published == old(published) && requests == old(requests)
      ensures exePath.Some? ==> ret == Records(testcases, runs)
      ensures exePath.Some? ==> maxCount == |testcases| && count == old(count) + |testcases|
      ensures exePath.Some? ==>
        published == old(published) + ProgressTrace(old(count), |testcases|, |testcases|)
      ensures exePath.Some? ==>
        requests == old(requests) + RunRequests(config.run, exePath.value, workDir, maxMemory, maxRuntime, testcases)
    {
      if exePath.None? {
        return [CompilationErrorRecord];
      }
      ret := [];
      ghost var start, exe, requestsBefore := count, exePath.value, requests;
      maxCount := |testcases|;
      UpdateMeta();
      ghost var publishedBefore := published;
      for i := 0 to |testcases|
        invariant maxCount == |testcases| && count == start + i
        invariant ret == Records(testcases[..i], runs[..i])
        invariant published == publishedBefore + ProgressSteps(start, maxCount, i)
        invariant requests == requestsBefore + RunRequests(config.run, exe, workDir, maxMemory, maxRuntime, testcases[..i])
      {
        var record := Grade(testcases[i], runs[i]);
        GradeStep(config.run, exe, workDir, maxMemory, maxRuntime, testcases, runs, i);
        ret := ret + [record];
      }
      assert testcases[..|testcases|] == testcases && runs[..|runs|] == runs;
    }
  }

  /** One grading job from start to finish: construct a `Grader` (which
      compiles), then grade all test cases. Returns the records and the
      progress the job saw. A failed compile gives exactly one
      compilation-error record and no progress; otherwise there is one
      record per test case and the counter ends at the number of test
      cases, having been published at every value from 0 upwards. */
  method Judge(config: Toolchain, srcPath: string, workDir: string, exeFile: string,
               maxMemory: int, maxRuntime: int, compileResult: Verdict, artifactExists: bool,
               testcases: seq<string>, runs: seq<CaseRun>)
    returns (ret: seq<GradeRecord>, progress: seq<Progress>, completed: nat, total: nat)
    requires Fields(config.compile.command) <= {SrcPath, ExeDir, ExePath}
    requires compileResult == Success && testcases != [] ==> Fields(config.run.command) <= {ExePath, ExeDir, MaxMemory}
    requires |runs| == |testcases|
    ensures compileResult != Success ==> ret == [CompilationErrorRecord] && progress == [] && completed == 0 && total == 0
    ensures compileResult == Success ==> ret == Records(testcases, runs)
    ensures compileResult == Success ==>
      progress == ProgressTrace(0, |testcases|, |testcases|) && completed == |testcases| && total == |testcases|
  {
    var grader := new Grader(config, srcPath, workDir, exeFile, maxMemory, maxRuntime, compileResult, artifactExists);
    ret := grader.GradeAll(testcases, runs);
    progress, completed, total := grader.published, grader.count, grader.maxCount;
  }
}
