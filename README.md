# Problem verification in the Pipal Academy notebook magic

This project models the check-verification engine of `pipal_magic.py`, the
Jupyter magic that learners use to verify their solution to a course
problem. It proves properties of that model in Dafny.

The model has four parts:

- The **logger**, `_Logger`: an append-only list of lines. It is the class
  `Logging.Logger`, with a `seq<string>` field.
- The **checks**:
  - `Check.load` chooses the kind of check from the keys of a spec
    dictionary, and `FunctionCheck.__init__` reads the fields. Together they
    are the pure function `Checks.Load`.
  - `FunctionCheck.do_eval` and `FunctionCheck.run` evaluate a snippet
    against a copy of the learner's namespace. They compare the result with
    the expected value and log one of three line patterns.
  - `Checks.FunctionCheck` is a class whose one mutable field is `expected`.
    Its methods are proved against the functions `Checks.Evaluate` and
    `Checks.FunctionRun`.
- The **problem**, `Problem`: its checks, built in order, share one logger.
  - `_verify` first decides two early verdicts, "NOT SUPPORTED" and
    "notfound".
  - Otherwise it runs every check in order, with no short-circuit. It then
    logs one closing line and answers "pass" or "fail".
  - `Problems.Problem.VerifyVerdict` is proved against the function
    `Problems.Judge`, and every property of `_verify` is a lemma about
    `Judge`.

Python's dynamic parts are oracles, carried in a `Values.Host` value:

- `exec`, `eval`, `bool()`, `str()` and `repr()` of objects;
- `Path(...).exists()`;
- the run of a command check, whose class is not part of this model.

Python objects are `Values.Value`: a `str`, or an opaque token for any other
object. Namespaces are immutable maps (`Values.Env`). The source only makes
shallow copies of the learner's namespace (`dict(env)` at pipal_magic.py:107
and `env.copy()` at pipal_magic.py:90): a check's own top-level bindings go
to a copy, but the objects the caller's names refer to are shared, and a
learner function that assigns a `global` writes into its `__globals__`,
which is the caller's namespace. In the model the caller's namespace is a
value. The model's oracles
are stateless, so it does not capture what a check does to those shared
objects (see "## Left out").

Three edge cases, as the code decides them:

- **Unknown mode.** An unknown evaluation mode is not fatal: `do_eval`
  raises `ValueError` (pipal_magic.py:103-104), and `run` catches it like
  any other error. It logs a cross line and the check fails.
  `Checks.InvalidModeFails` states this.
- **"Found N checks".** The check count is printed (pipal_magic.py:46), not
  logged, so it is not in the logger's lines.
- **An empty `function_name`.** Absence is decided with `is None`
  (pipal_magic.py:32), the lookup with truthiness (pipal_magic.py:36). So an
  empty name is neither "not supported" nor "not found", and the checks run.
  `Problems.EmptyFunctionNameRunsChecks` states this.

## Model

| member | source | states |
|---|---|---|
| Logging.Logger.constructor | pipal_magic.py:134-135 | A new logger has no lines. |
| Logging.Logger.Log | pipal_magic.py:137-139 | `lines` becomes the old lines plus `[line]`: one line longer, the earlier entries unchanged, nothing else in the logger changed. |
| Checks.DisplayName | pipal_magic.py:83 | The display name is `spec["name"]` when it is present and a non-empty string. It is `spec["code"]` when the name is absent or empty. It is always one of the two. |
| Checks.Load | pipal_magic.py:66-87 | A function check exactly when "code" and "expected" are keys, even if "command" is also a key. A command check exactly when "command" is a key and "code" is not. The invalid-spec error exactly when neither is a key. A "code" spec without "expected" is the `KeyError` of `__init__`. The fields read are `setup_code` (optional), `code`, `expected`, `mode`, which defaults to "eval", and `name`, which is the display name of `Checks.DisplayName`. |
| Checks.FunctionCheck.constructor | pipal_magic.py:79-87 | The new check holds exactly the loaded fields and the shared logger. |
| Checks.Evaluate | pipal_magic.py:89-104 | Only "eval" and "exec" mode can return a value; any other mode raises. Only "exec" mode can change the expected value. |
| Checks.EvaluateSpec | pipal_magic.py:89-104 | A mode other than "eval" or "exec" raises. The expected value changes only in "exec" mode, and only to the `_expected` held by the namespace the block leaves. In "exec" mode a returned result is the `result` held by that namespace. That namespace is a copy of the learner's with the block's bindings, so a `result` or `_expected` the learner defined counts too. |
| Checks.EvaluateValue | pipal_magic.py:89-102 | In "eval" mode the returned outcome is the evaluation of the code in the caller's namespace when the setup is absent or falsy, and in the namespace a truthy setup leaves otherwise; a raising setup raises. In "exec" mode a raising block raises; otherwise the result is returned exactly when the namespace the block leaves holds `result`, and it is that value; that namespace's `_expected`, when present, replaces the expected value even when `result` is missing, and the expected value is unchanged when it is absent. |
| Checks.FunctionCheck.DoEval | pipal_magic.py:89-104 | The outcome and the new `expected` are those of `Evaluate` on the check's old fields. No other field changes. The evaluation works on a shallow copy of the caller's namespace, which the model passes as a value. |
| Checks.EvalModeWithoutSetup | pipal_magic.py:91-94 | In "eval" mode without setup code, the check passes exactly when evaluating its code in the caller's namespace returns the declared expected value. Its state stays the same. |
| Checks.EvalModeWithSetup | pipal_magic.py:91-94 | In "eval" mode with truthy setup code, the setup runs first on the copied namespace. When it raises, the run fails with a lone cross line and the state unchanged. When it returns a namespace, the check passes exactly when evaluating the code in that namespace returns the declared expected value. |
| Checks.FalsySetupSkipped | pipal_magic.py:92-93 | Setup code that is falsy (an empty string, or any value the host deems false) is skipped: the evaluation is the same as with no setup code at all. |
| Checks.InvalidModeFails | pipal_magic.py:103-120 | With an unknown mode the run fails, logs exactly one cross line, and leaves the state unchanged. |
| Checks.ExecExpectedOverrides | pipal_magic.py:95-102 | In "exec" mode, when the namespace the block leaves holds equal `result` and `_expected`, the check passes, whatever `expected` was declared. That `_expected` becomes the check's expected value. |
| Checks.OverridePersists | pipal_magic.py:99-100 | An `_expected` override stays after the run that made it. A later run whose namespace after the block holds no `_expected` compares against the overriding value. |
| Checks.RunPatterns | pipal_magic.py:106-129 | A run returns a result rather than raising an evaluation error (for the exceptions the model covers, see "## Left out") and logs one of three patterns: a tick line when the result equals the expected value; a cross line, then the expected and found reprs, when it does not; a lone cross line when evaluation raised. It passes exactly when evaluation returned the expected value. Only `expected` may change. |
| Checks.FunctionRun | pipal_magic.py:106-129 | Only `expected` may change. A passing run logs exactly one line and a failing run one or three. The first line is a tick when the run passes and a cross when it fails, followed by the check's display name. |
| Checks.RunCheck | pipal_magic.py:48 | A run keeps the kind of its check. A function check changes at most its expected value. A command check passes as the host reports, keeps its state, and logs the lines the host reports. |
| Checks.FunctionCheck.Run | pipal_magic.py:106-129 | The result, the lines appended to the shared logger, and the check's new state are those of `FunctionRun` on the check's old fields. |
| Checks.CommandCheck.constructor | pipal_magic.py:70 | The new command check holds the spec it was loaded from and the shared logger. |
| Checks.CommandCheck.Run | pipal_magic.py:70 | A command check passes as the host reports, and it appends the host's lines to the shared logger in order. |
| Problems.LoadAll | pipal_magic.py:23 | When building the checks succeeds, there is one loaded check per spec. |
| Problems.LoadAllFirstError | pipal_magic.py:23 | Building the checks succeeds exactly when every spec loads, and then gives their loaded forms in order. A failure is the error of the first spec that does not load, and every spec before that one loads. |
| Problems.InvalidSpecFailsLoad | pipal_magic.py:71-72 | A spec that has neither "code" nor "command" makes building the problem fail. |
| Problems.Problem.Open | pipal_magic.py:19-23 | Fails exactly when building the checks fails, with the same error. Otherwise it gives a fresh problem with a fresh empty logger. There is one check per spec, in order, each in its freshly loaded state and logging to that logger. |
| Problems.Problem.constructor | pipal_magic.py:19-23 | The problem keeps its fields, and its invariant holds: the checks share its logger, and no function check appears twice. |
| Problems.Precheck | pipal_magic.py:29-41 | An early verdict is "NOT SUPPORTED" or "notfound", never "pass" or "fail". It is "NOT SUPPORTED" exactly when both names are absent. When there is no early verdict, a truthy function name is bound and a truthy script name exists. |
| Problems.VerdictCases | pipal_magic.py:28-41 | "NOT SUPPORTED" exactly when both names are absent. "notfound" exactly when a name is given and either the named function is truthy and unbound, or the named script is truthy and missing. |
| Problems.NotSupportedRunsNothing | pipal_magic.py:29-34 | With both names absent, the verdict is "NOT SUPPORTED", exactly one line is logged, and no check's state changes. |
| Problems.MissingFunction | pipal_magic.py:36-38 | A truthy function name that is missing from the namespace gives "notfound". The one line logged names the function, and no check runs. |
| Problems.MissingFunctionFirst | pipal_magic.py:36-41 | When the function is missing, the outcome is the same whatever the script name and whatever the file system holds. |
| Problems.MissingProgram | pipal_magic.py:39-41 | Otherwise, a truthy script name whose file does not exist gives "notfound". The one line logged names the script, and no check runs. |
| Problems.EmptyFunctionNameRunsChecks | pipal_magic.py:32-41 | An empty function name, with no missing script, reaches "pass" or "fail". |
| Problems.RunAll | pipal_magic.py:47-49 | There is one run per check. |
| Problems.RunAllAt | pipal_magic.py:47-49 | There is one run per check, and the i-th run is that check run from its own state in the caller's namespace. |
| Problems.Conclude | pipal_magic.py:51-56 | The verdict is "pass" or "fail", and "pass" exactly when every run passed. The log is the runs' lines followed by exactly one closing line. There is one new state per run, and the i-th is the state the i-th run left. |
| Problems.Judge | pipal_magic.py:28-56 | Every check has a state after the call. An early verdict logs exactly one line and leaves every check's state unchanged. |
| Problems.JudgeAfter | pipal_magic.py:47-49 | When the checks run, check i is left in the state its own run produced, so an `_expected` override set in one call of `_verify` is the expected value in the next. |
| Problems.PassIffEveryCheckPasses | pipal_magic.py:43-56 | Once the checks run, the verdict is "pass" exactly when every check passed. It is "fail" exactly when some check failed. |
| Problems.EveryCheckReported | pipal_magic.py:47-56 | No short-circuit: every check's lines are in the log, at the position right after the lines of the checks before it, even when an earlier check failed. The last line is the congratulation line for "pass" and the apology line for "fail". |
| Problems.Problem.VerifyVerdict | pipal_magic.py:28-56 | The verdict, the lines appended to the logger, and the checks' new states are those of `Judge` on the checks' old states. |
| Problems.Problem.RunAndConclude | pipal_magic.py:43-56 | After the early verdicts: runs the checks, then logs the closing line. The verdict, lines and states are those of `Conclude`. |
| Problems.Problem.RunChecks | pipal_magic.py:43-49 | Every check runs once, in order. `passed` is the conjunction of their results, the log grows by their lines in order, and every check is left in the state its run produced. |
| Problems.Problem.RunOne | pipal_magic.py:48 | Running one check appends its lines and updates its own state. Every other check's state is unchanged. |
| Problems.Problem.Say | pipal_magic.py:33 | Logging a line appends it and changes no check. |
| Problems.Problem.Verify | pipal_magic.py:25-26 | `verify` has the effect of `_verify` on the log and the checks, and drops the verdict. |

## Left out

- The IPython magic `verify_problem`, its registration, and the module-level `API.load()` are notebook and credential glue (pipal_magic.py:16, 141-152).
- `api.get_problem` is left out. The metadata is an input of `Problems.Problem.Open`. Its `function_name` and `script_name` are optional strings (JSON `null` is absent), and its `checks` list is present. A missing "checks" key, or names that are not strings, are not modelled.
- `print`, `sys.stdout.flush`, `traceback.print_exc` and the "Found N checks" line are console output only. Only the logger's lines are observable (pipal_magic.py:46, 117-119, 139).
- The meaning of `exec`, `eval`, `bool()`, `str()` and `repr()` on non-string objects is left to host oracles. Python's `==` is equality of `Value`s: a token stands for an object up to `==`, and a string never equals a non-string. An `__eq__` that raises, and one that equates a string with another kind of object, are not modelled.
- `Checks.CommandCheck.Run`: the class is not part of this model. Its output normalisation, sorting and test scripts are the host's, and the model only takes from it a result and the lines to log.
- `Check.__init__` is not modelled separately:
  - Its `logger or _Logger()` fallback never applies, because `Problem` always passes its logger.
  - `FunctionCheck.__init__` passes `self` as the spec to `Check.__init__` (pipal_magic.py:80), so `self.spec` is the check itself. Nothing in this code reads `spec` afterwards, so the model has no `spec` field for function checks.
- `Problems.RunAllAt`: the host oracles are stateless, so the model does not capture side effects across checks or on the caller's objects. The namespace copies are shallow, so in the source one check can mutate a shared list, write to a database, or assign globals through a function's `__globals__`, and a later check, or the caller's own mapping, can then see the change. In the model every check is run against the same unchanged namespace and host.
- `Checks.RunPatterns`: "a run never raises" holds only for what the model's `Outcome` can express. The `except Exception` at pipal_magic.py:115 does not catch `SystemExit` (from `exit()` or `sys.exit()`) or `KeyboardInterrupt`. These escape `run` and `_verify`: no cross line is logged, later checks do not run, and no closing line is logged. `repr()` at pipal_magic.py:127-128 and `str()` of the name in the f-strings at pipal_magic.py:116, 123 and 126 run outside the `try`, so they can raise out of `run` too. An evaluation that never terminates is not modelled either.
- `Problems.LoadAllFirstError`: `Checks.Load` makes every "command" spec a successful command check, because `CommandCheck.__init__` is not part of this model. "Building succeeds exactly when every spec loads" therefore assumes that `CommandCheck.__init__` never raises.
- The base `Check.run`, which raises `NotImplementedError`, is never reached: every check is a function check or a command check.
- The `problem` argument of the checks is not modelled; it is only stored (pipal_magic.py:63).
