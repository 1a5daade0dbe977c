# Grader orchestration model

A Dafny model of the `Grader` class of the judge server
(`grader/grader.py`). When a `Grader` is built, it compiles a submission
inside the `_judger` sandbox. `grade_all` then runs the executable on every
test case of the problem, turns each sandbox outcome into a verdict, and
saves a `count/max_count` progress string to the job after every step.

Everything that really executes is an input to the model:

- the sandbox's classification of the compile run, and whether the
  executable was found when its permissions are locked down;
- the list of test-case ids (the directory names that `os.walk` returns);
- for each test case, a `CaseRun` value: the sandbox outcome (classification
  plus telemetry), whether the output file exists, and the exit status of
  `diff -a -Z -B`.

The model keeps the sandbox invocations `Grader` makes (`requests`) and the
progress reports it publishes (`published`). That way the limit translation
and the progress order appear in the contracts of the stateful methods.

Files and modules:

- `wrappers.dfy`, module `Wrappers`: `Option`, the model of Python's `None`.
- `judger.dfy`, module `Judger`: verdict codes, telemetry, sandbox limits and
  sandbox requests.
- `text.dfy`, module `Text`: `str.split` on one character and its inverse
  `join`; the decimal text of an integer and the parse that reads it back.
- `templates.dfy`, module `Templates`: command templates and `str.format`
  with named fields. A missing field is a failure, as Python's `KeyError` is.
- `policy.dfy`, module `GradingPolicy`: the stateless decisions. These are
  the limits, command splitting, the compile gate, the per-test-case
  verdict, the ordered list of records, and progress strings.
- `grader.dfy`, module `Grading`: the `Grader` class. Its fields are `count`,
  `maxCount`, `published` and `requests`. Its methods are the constructor
  (which compiles), `UpdateMeta`, `Grade` and `GradeAll` (the loop). `Judge`
  is a whole job: construct a `Grader`, then grade all test cases.

Three behaviours of the code shape the model:

- The code publishes progress once before the first test case as well as
  after each one (`count/n`, `grader/grader.py:89-90`). A job of `n` test
  cases therefore publishes `n + 1` reports.
- The output comparison is the `diff` command, and only its exit status is
  tested (`grader/grader.py:144-146`). Any non-zero status counts as a
  mismatch, including status 2 ("trouble", such as a missing
  expected-output file).
- Nothing stops `grade_all` from being called twice. A second call keeps
  counting from the current `count` and resets `max_count`. `GradeAll` is
  therefore stated relative to `old(count)`; `Judge` covers the usual single
  call.

## Model

| member | source | states |
|---|---|---|
| `GradingPolicy.SplitCommand` | grader/grader.py:40 | `command.split(" ")`: the program and every argument are free of spaces, and joining them back with single spaces gives the command line |
| `GradingPolicy.SplitCommandOfWords` | grader/grader.py:100 | a command line made of space-free words splits back into exactly those words: the first is the program, the rest are the arguments |
| `Text.JoinSplit` | grader/grader.py:40 | `" ".join(s.split(" ")) == s` for every string |
| `Text.SplitJoin` | grader/grader.py:100 | `sep.join(parts).split(sep) == parts` when there is at least one part and no part contains the separator (for no parts, Python gives `[""]`) |
| `Templates.FormatDefined` | grader/grader.py:40 | formatting a command template succeeds exactly when every field it names is supplied; otherwise it fails, as `KeyError` does |
| `GradingPolicy.CompileLimits` | grader/grader.py:47-52 | compile limits: CPU time, wall time and memory from the toolchain's `compile` section; stack 134217728 bytes (128 MiB); output 1048576 bytes (1 MiB); process count unlimited |
| `GradingPolicy.CompileRequest` | grader/grader.py:35-65 | the compile run uses the compiler identity, no syscall filter, the compiler streams and the compile limits. Its program and arguments are space-free pieces of the filled-in compile command, exactly as `split(" ")` cuts it |
| `GradingPolicy.CompileStage` | grader/grader.py:67-79 | an executable path exists exactly when the sandbox reports success, and then it is the toolchain's executable path; a missing artifact at lockdown still yields the path, and only an existing artifact is locked down |
| `Grading.Grader.constructor` | grader/grader.py:10-28 | the object keeps the configuration and job limits, compiles once (one compile request) and starts with `count == max_count == 0` and nothing published |
| `GradingPolicy.MemoryPlaceholder` | grader/grader.py:100 | the `{max_memory}` field is `max_memory // 1024`: the largest k with `k * 1024 <= max_memory` (floor division) |
| `GradingPolicy.RunLimits` | grader/grader.py:105-110 | run limits: CPU time is the job's max runtime, wall time is twice the CPU time, memory is the job's max memory, stack is 134217728 bytes, output is 16777216 bytes (16 MiB), process count unlimited |
| `GradingPolicy.RunRequestSpec` | grader/grader.py:98-123 | a test case runs under the run identity and the run limits, with that test case's files. The toolchain's seccomp rule passes through unchanged, including `None`. `memory_limit_check_only` is the toolchain's value, or 0 when the key is missing. Program and arguments are space-free pieces of the filled-in run command, exactly as `split(" ")` cuts it |
| `GradingPolicy.Classify` | grader/grader.py:125-133 | the record carries the test-case id and the unchanged telemetry; a non-success sandbox result is kept as it is; after sandbox success the verdict is success exactly when the output file exists and `diff` exits 0, and wrong answer otherwise |
| `Grading.Grader.Grade` | grader/grader.py:97-138 | returns the `Classify` record; issues exactly one run request with the run limits; increments `count` by one whatever the verdict; publishes the new `count/max_count` |
| `Grading.Grader.UpdateMeta` | grader/grader.py:30-32 | appends the current `(count, max_count)` to the published progress |
| `Grading.Grader.GradeAll` | grader/grader.py:81-95 | without an executable: exactly `[CompilationError]`, and no counter, progress or request changes; otherwise: the records of all test cases in order, `max_count == n`, `count` grows by `n`, the published reports run from `count/n` to `count+n/n` in order, and there is one run request per test case in order |
| `Grading.Judge` | grader/grader.py:81-95 | a whole job (construct a `Grader`, then grade all): a failed compile gives `[CompilationError]`, no progress and both counters 0; a successful one gives one record per test case, published progress `0/n, 1/n, …, n/n`, and `count == max_count == n` |
| `GradingPolicy.RecordsAt` | grader/grader.py:92-93 | record `i` of the returned list is the verdict on test case `i` |
| `GradingPolicy.RecordsPerTestCase` | grader/grader.py:92-93 | exactly one record per test case, at that test case's position, with its id and telemetry; never the compilation-error record (a sandbox outcome is any `Verdict`, so a record's verdict is whatever non-success classification the sandbox reports); sandbox failures keep their classification; success exactly when the run succeeded, the output exists and `diff` matched |
| `Grading.RunRequestsAt` | grader/grader.py:105-123 | the `i`-th run request of a job is the request for test case `i` |
| `GradingPolicy.ProgressTextRoundTrip` | grader/grader.py:31 | the string `f"{count}/{max_count}"` reads back as exactly that pair, so a published string determines the counter values |
| `Text.ParseIntText` | grader/grader.py:31 | the decimal text of any integer reads back as that integer |
| `GradingPolicy.ProgressTraceAt` | grader/grader.py:89-90 | report `k` of a job's progress trace says `start + k` of `total` completed |
| `GradingPolicy.ProgressTraceCounts` | grader/grader.py:135-136 | for a fresh job of `n` test cases, the published strings read back as `0/n, 1/n, …, n/n` in that order, and the last is `n/n` |

## Left out

- The `_judger` sandbox (seccomp, uid/gid switching, limit enforcement) is not modelled. Each run's outcome is an input, and the model records only the request `Grader` makes.
- The `diff -a -Z -B` subprocess is not modelled. Its exit status is an input, and the model does not re-derive the blank-line or trailing-whitespace normalisation. As a result, no property of the comparison itself is stated: not that a file matches itself, not that trailing blanks are ignored, and not that one changed character is a mismatch.
- Test-case discovery with `os.walk` is not modelled. The list of ids is an input, in the order the walk returns them.
- Path joining (`os.path.join`, `os.path.dirname`) is not modelled. The source path, working directory and executable path are given strings. The executable's directory (`os.path.dirname(exe_path)`) is taken to be the working directory. That holds when the toolchain's `exe_name` is a plain file name and the working directory has no trailing `/`; `os.path.dirname(os.path.join("/w/", "a.out"))` is `"/w"`.
- `os.chdir`, `os.chown`/`os.chmod` and `os.remove` of the compiler log are not modelled as effects. The lockdown appears only as the `locked` flag of the compile outcome.
- GradingPolicy.CompileStage: assumes the compile stage always returns. In the source it can raise out of `__init__`, and then no `Grader` exists at all. `os.chdir` raises when the working directory is missing (`grader/grader.py:42`). `"PATH=" + os.getenv("PATH")` raises `TypeError` when `PATH` is unset (`grader/grader.py:44`). `os.remove(compiler_out)` raises `FileNotFoundError` when the sandbox never wrote the compiler log (`grader/grader.py:68`). At lockdown, only `FileNotFoundError` is caught, so any other `OSError` from `os.chown`/`os.chmod`, such as `PermissionError`, propagates (`grader/grader.py:71-75`). The model assumes the directory and `PATH` exist, the log was written, and lockdown fails only because the artifact is missing.
- Grading.Grader.constructor: assumes the same, and so always produces an object; the raise paths listed for `GradingPolicy.CompileStage` are not modelled.
- Environment assembly from `PATH` is not modelled because it reads the process environment. The run request and the compile request therefore carry no environment. For the same reason, the model does not capture one side effect. When the compile section has an `"env"` key, `config.get("env", [])` returns the configuration's own list, and `append` adds another `PATH=` entry to it on every construction. Without the key, `get` returns a fresh list and nothing shared changes.
- `job.save_meta()` persistence is not modelled. The model keeps the published `(count, max_count)` values, and `ProgressText` gives the string stored under `progress`.
- Parsing of `str.format` templates (braces, escapes, format specs) is not modelled. Templates are given already split into literal text and the named fields `Grader` supplies.
- The log paths, user and group ids and `TESTCASE_PATH` come from `grader/config.py`, which is not part of this model. The identities appear as `CompilerUser` and `RunUser`, and `RESULT_COMPILATION_ERROR` appears as the `CompilationError` verdict.
- Verdicts are a datatype rather than the sandbox's integer codes.
- A run section without a `memory_limit_check_only` key is modelled as `None`, and the model uses 0 in its place, as `config.get(..., 0)` does. A missing `seccomp_rule` key, which raises `KeyError` in the source, is not modelled; an explicit `None` is.
- Grading.Grader.constructor: requires the compile template to name only `src_path`, `exe_dir` and `exe_path`. In the source, any other field makes `str.format` raise `KeyError` out of `__init__` (`grader/grader.py:40`); that exception is not modelled.
- GradingPolicy.CompileRequest: requires the same of the compile template, for the same reason.
- Grading.Grader.Grade: requires the run template to name only `exe_path`, `exe_dir` and `max_memory`. In the source, any other field raises `KeyError` at `grader/grader.py:100`; that exception is not modelled.
- GradingPolicy.RunRequestSpec: requires the same of the run template, for the same reason.
- Grading.Grader.GradeAll: requires a well-formed run template only when there is an executable and at least one test case, the only case where the source formats it. In the source, a bad template raises `KeyError` from the first `_grade` call, after `max_count` was set and `0/n` was published (`grader/grader.py:89-90`); that partial run is not modelled.
- Grading.Grader.GradeAll: assumes the test-case directory exists. In the source, `next(os.walk(self.testcase_dir))` raises `StopIteration` when the directory is missing or is not a directory (`grader/grader.py:86`). That happens after a successful compile and before `max_count` is set, so nothing is published and no list is returned. The model has no such path: with an executable, it always returns `Records` and publishes the trace.
- Grading.Judge: assumes the test-case directory exists, as `GradeAll` does; the `StopIteration` path at `grader/grader.py:86` is not modelled.
- Grading.Judge: requires a well-formed compile template, and a well-formed run template only when the compile succeeds and there is at least one test case. The `KeyError` paths are left out as for the constructor and `GradeAll`.
