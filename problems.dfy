/** A problem: its metadata, its checks, its log, and the decision procedure
    that verifies a learner's solution against them. */
module Problems {
  import opened Values
  import opened Logging
  import opened Checks

  /** What the course server says about a problem; a JSON `null` reads as absent. */
  datatype Metadata = Metadata(
    functionName: Option<string>,
    scriptName: Option<string>,
    checks: seq<CheckSpec>)

  datatype Verdict = NotSupported | NotFound | Pass | Fail

  /** The string `_verify` returns for each verdict. */
  function Tag(v: Verdict): string
  {
    match v
    case NotSupported => "NOT SUPPORTED"
    case NotFound => "notfound"
    case Pass => "pass"
    case Fail => "fail"
  }

  const NotSupportedLine: string := "Sorry, verification is not supported for this problem."

  function MissingFunctionLine(functionName: string): string
  {
    "ERROR: Unable to find function with name " + functionName + "."
  }

  function MissingProgramLine(scriptName: string): string
  {
    "ERROR: Unable to find program " + scriptName + "."
  }

  function SolvedLine(name: string): string
  {
    "\U{1F389} Congratulations! You have successfully solved problem " + name + "!!"
  }

  function FailedLine(name: string): string
  {
    "\U{1F4A5} Oops! Your solution to problem " + name + " is incorrect or incomplete."
  }

  /** Python truthiness of an optional string: present and not empty. */
  predicate IsSet(o: Option<string>)
  {
    o.Some? && o.value != ""
  }

  /** The verdict `_verify` reaches before running any check, with the one
      line it logs, or `None` when it goes on to run the checks. Absence is
      decided with `is None`, but the lookups with truthiness, so an empty
      name is neither "unsupported" nor "not found". */
  function Precheck(md: Metadata, env: Env, host: Host): (r: Option<(Verdict, string)>)
    ensures r.Some? ==> r.value.0 == NotSupported || r.value.0 == NotFound
    ensures r.Some? && r.value.0 == NotSupported <==> md.functionName.None? && md.scriptName.None?
    ensures r.None? ==>
      (!IsSet(md.functionName) || md.functionName.value in env) &&
      (!IsSet(md.scriptName) || host.fileExists(md.scriptName.value))
  {
    if md.functionName.None? && md.scriptName.None? then
      Some((NotSupported, NotSupportedLine))
    else if IsSet(md.functionName) && md.functionName.value !in env then
      Some((NotFound, MissingFunctionLine(md.functionName.value)))
    else if IsSet(md.scriptName) && !host.fileExists(md.scriptName.value) then
      Some((NotFound, MissingProgramLine(md.scriptName.value)))
    else
      None
  }

  /** Every check run once, in order, each from its own state. */
  function RunAll(states: seq<CheckState>, env: Env, host: Host): (runs: seq<CheckRun>)
    ensures |runs| == |states|
  {
    if states == [] then [] else [RunCheck(states[0], env, host)] + RunAll(states[1..], env, host)
  }

  /** The lines the runs logged, one run's after the other's. */
  function Flatten(runs: seq<CheckRun>): seq<string>
  {
    if runs == [] then [] else runs[0].lines + Flatten(runs[1..])
  }

  predicate AllPassed(runs: seq<CheckRun>)
  {
    forall i :: 0 <= i < |runs| ==> runs[i].passed
  }

  /** The states the runs left their checks in. */
  function Afters(runs: seq<CheckRun>): (states: seq<CheckState>)
    ensures |states| == |runs| && forall i :: 0 <= i < |runs| ==> states[i] == runs[i].after
  {
    if runs == [] then [] else [runs[0].after] + Afters(runs[1..])
  }

  /** What one call of `_verify` returns, logs, and leaves the checks in. */
  datatype Report = Report(verdict: Verdict, lines: seq<string>, after: seq<CheckState>)

  /** The line `_verify` ends with once the checks have run. */
  function ClosingLine(name: string, passed: bool): string
  {
    if passed then SolvedLine(name) else FailedLine(name)
  }

  /** The end of `_verify` once the checks have run: "pass" with the
      congratulations line when every run passed, "fail" with the apology
      line otherwise. */
  function Conclude(name: string, runs: seq<CheckRun>): (r: Report)
    ensures r.verdict == Pass || r.verdict == Fail
    ensures r.verdict == Pass <==> forall i :: 0 <= i < |runs| ==> runs[i].passed
    ensures |r.lines| == |Flatten(runs)| + 1 && r.lines[..|Flatten(runs)|] == Flatten(runs)
    ensures |r.after| == |runs| && forall i :: 0 <= i < |runs| ==> r.after[i] == runs[i].after
  {
    var passed := AllPassed(runs);
    Report(if passed then Pass else Fail, Flatten(runs) + [ClosingLine(name, passed)], Afters(runs))
  }

  /** `Problem._verify` as a function of the checks' states before the call. */
  function Judge(name: string, md: Metadata, states: seq<CheckState>, env: Env, host: Host): (r: Report)
    ensures |r.after| == |states|
    ensures r.verdict == NotSupported || r.verdict == NotFound ==> r.after == states && |r.lines| == 1
  {
    match Precheck(md, env, host)
    case Some((verdict, line)) => Report(verdict, [line], states)
    case None => Conclude(name, RunAll(states, env, host))
  }

  /** Which early verdict `_verify` reaches: "NOT SUPPORTED" exactly when
      neither name is given, and "notfound" exactly when a name is given and
      the function it names is not bound or the script it names does not
      exist; in every other case the checks decide. */
  lemma VerdictCases(name: string, md: Metadata, states: seq<CheckState>, env: Env, host: Host)
    ensures Judge(name, md, states, env, host).verdict == NotSupported <==>
      md.functionName.None? && md.scriptName.None?
    ensures Judge(name, md, states, env, host).verdict == NotFound <==>
      !(md.functionName.None? && md.scriptName.None?) &&
      ((IsSet(md.functionName) && md.functionName.value !in env) ||
       (IsSet(md.scriptName) && !host.fileExists(md.scriptName.value)))
  {
    if Precheck(md, env, host).None? {
      JudgeRunsChecks(name, md, states, env, host);
    }
  }

  /** The states a list of freshly loaded checks starts in. */
  function InitialStates(loaded: seq<Loaded>): (states: seq<CheckState>)
    ensures |states| == |loaded| && forall i :: 0 <= i < |loaded| ==> states[i] == InitialState(loaded[i])
  {
    if loaded == [] then [] else [InitialState(loaded[0])] + InitialStates(loaded[1..])
  }

  /** When no precheck applies, `_verify` is the run of the checks followed
      by the verdict line. */
  lemma JudgeRunsChecks(name: string, md: Metadata, states: seq<CheckState>, env: Env, host: Host)
    requires Precheck(md, env, host).None?
    ensures Judge(name, md, states, env, host) == Conclude(name, RunAll(states, env, host))
  {
  }

  /** Once the checks run, each check is left in the state its own run
      produced, so an `_expected` override carries into the next call. */
  lemma JudgeAfter(name: string, md: Metadata, states: seq<CheckState>, env: Env, host: Host)
    requires Precheck(md, env, host).None?
    ensures forall i :: 0 <= i < |states| ==>
      Judge(name, md, states, env, host).after[i] == RunCheck(states[i], env, host).after
  {
    RunAllAt(states, env, host);
  }

  /** The checks built by `Problem.__init__`: every spec loaded in order,
      stopping at the first one that cannot be loaded. */
  function LoadAll(specs: seq<CheckSpec>, host: Host): (r: Result<seq<Loaded>, LoadError>)
    ensures r.Success? ==> |r.value| == |specs|
  {
    if specs == [] then Success([])
    else
      match Load(specs[0], host)
      case Failure(e) => Failure(e)
      case Success(first) =>
        match LoadAll(specs[1..], host)
        case Failure(e) => Failure(e)
        case Success(rest) => Success([first] + rest)
  }

  // Facts about sequences of log lines that the proofs below rely on.

  lemma AppendAssoc(a: seq<string>, b: seq<string>, c: seq<string>)
    ensures a + b + c == a + (b + c)
  {
  }

  lemma SliceMiddle(a: seq<string>, b: seq<string>, c: seq<string>)
    ensures (a + b + c)[|a|..|a| + |b|] == b
  {
  }

  /** One more run keeps the conjunction going: all passed exactly when all
      before it passed and it passed too. */
  lemma AllPassedSnoc(runs: seq<CheckRun>, r: CheckRun)
    ensures AllPassed(runs + [r]) <==> AllPassed(runs) && r.passed
  {
    assert forall i :: 0 <= i < |runs| ==> (runs + [r])[i] == runs[i];
    assert (runs + [r])[|runs|] == r;
  }

  /** Running the checks runs each one from its own state, in the same
      caller's namespace, which in the model is a value. */
  lemma {:induction false} RunAllAt(states: seq<CheckState>, env: Env, host: Host)
    ensures |RunAll(states, env, host)| == |states|
    ensures forall i :: 0 <= i < |states| ==> RunAll(states, env, host)[i] == RunCheck(states[i], env, host)
  {
    if states != [] {
      RunAllAt(states[1..], env, host);
    }
  }

  /** The log of two lists of runs is the log of the first, then the log of the second. */
  lemma {:induction false} FlattenAppend(a: seq<CheckRun>, b: seq<CheckRun>)
    ensures Flatten(a + b) == Flatten(a) + Flatten(b)
  {
    if a == [] {
      assert a + b == b;
    } else {
      assert (a + b)[1..] == a[1..] + b;
      FlattenAppend(a[1..], b);
      AppendAssoc(a[0].lines, Flatten(a[1..]), Flatten(b));
    }
  }

  /** One more run appends its lines to the log. */
  lemma FlattenSnoc(runs: seq<CheckRun>, r: CheckRun)
    ensures Flatten(runs + [r]) == Flatten(runs) + r.lines
  {
    FlattenAppend(runs, [r]);
    assert [r][1..] == [];
  }

  /** The log of the runs splits at any run: the lines of every run before
      it, then its own lines, then the lines of every run after it. */
  lemma FlattenSplit(runs: seq<CheckRun>, i: nat)
    requires i < |runs|
    ensures Flatten(runs) == Flatten(runs[..i]) + runs[i].lines + Flatten(runs[i + 1..])
  {
    assert runs[..i] + runs[i..] == runs;
    FlattenAppend(runs[..i], runs[i..]);
    assert runs[i..][1..] == runs[i + 1..];
    AppendAssoc(Flatten(runs[..i]), runs[i].lines, Flatten(runs[i + 1..]));
  }

  /** Loading succeeds exactly when every spec loads, and then yields their
      loaded forms in order; a failure is the error of the first spec that
      does not load. */
  lemma {:induction false} LoadAllFirstError(specs: seq<CheckSpec>, host: Host)
    ensures LoadAll(specs, host).Success? <==> forall i :: 0 <= i < |specs| ==> Load(specs[i], host).Success?
    ensures LoadAll(specs, host).Success? ==>
      |LoadAll(specs, host).value| == |specs| &&
      forall i :: 0 <= i < |specs| ==> LoadAll(specs, host).value[i] == Load(specs[i], host).value
    ensures LoadAll(specs, host).Failure? ==>
      exists k :: 0 <= k < |specs| && Load(specs[k], host) == Failure(LoadAll(specs, host).error) &&
        forall j :: 0 <= j < k ==> Load(specs[j], host).Success?
  {
    if specs != [] {
      LoadAllFirstError(specs[1..], host);
      var tail := specs[1..];
      assert forall i :: 1 <= i < |specs| ==> specs[i] == tail[i - 1];
      if Load(specs[0], host).Success? && LoadAll(tail, host).Failure? {
        var k :| 0 <= k < |tail| && Load(tail[k], host) == Failure(LoadAll(tail, host).error) &&
          forall j :: 0 <= j < k ==> Load(tail[j], host).Success?;
        assert Load(specs[k + 1], host) == Failure(LoadAll(specs, host).error);
        assert forall j :: 0 <= j < k + 1 ==> Load(specs[j], host).Success? by {
          forall j | 0 <= j < k + 1 ensures Load(specs[j], host).Success? {
            if j > 0 { assert specs[j] == tail[j - 1]; }
          }
        }
      }
    }
  }

  /** A spec with neither "code" nor "command" makes the problem fail to
      load, unless an earlier spec already did. */
  lemma InvalidSpecFailsLoad(specs: seq<CheckSpec>, host: Host, k: nat)
    requires k < |specs| && "code" !in specs[k] && "command" !in specs[k]
    ensures LoadAll(specs, host).Failure?
  {
    LoadAllFirstError(specs, host);
  }

  /** With neither a function nor a script named, `_verify` answers
      "NOT SUPPORTED" with one line and runs no check. */
  lemma NotSupportedRunsNothing(name: string, md: Metadata, states: seq<CheckState>, env: Env, host: Host)
    requires md.functionName.None? && md.scriptName.None?
    ensures Judge(name, md, states, env, host) == Report(NotSupported, [NotSupportedLine], states)
    ensures Tag(Judge(name, md, states, env, host).verdict) == "NOT SUPPORTED"
  {
  }

  /** A named function missing from the namespace is reported as not found,
      with one line naming it, and no check runs. */
  lemma MissingFunction(name: string, md: Metadata, states: seq<CheckState>, env: Env, host: Host)
    requires IsSet(md.functionName) && md.functionName.value !in env
    ensures Judge(name, md, states, env, host) ==
      Report(NotFound, [MissingFunctionLine(md.functionName.value)], states)
    ensures Tag(Judge(name, md, states, env, host).verdict) == "notfound"
  {
  }

  /** The missing function is reported before the script is looked at: the
      script name and the file system play no part in the outcome. */
  lemma MissingFunctionFirst(name: string, md: Metadata, states: seq<CheckState>, env: Env, host: Host,
                             script: Option<string>, files: string -> bool)
    requires IsSet(md.functionName) && md.functionName.value !in env
    ensures Judge(name, md.(scriptName := script), states, env, host.(fileExists := files)) ==
      Judge(name, md, states, env, host)
  {
    MissingFunction(name, md, states, env, host);
    MissingFunction(name, md.(scriptName := script), states, env, host.(fileExists := files));
  }

  /** Otherwise a named script that does not exist is reported, and no check runs. */
  lemma MissingProgram(name: string, md: Metadata, states: seq<CheckState>, env: Env, host: Host)
    requires !(IsSet(md.functionName) && md.functionName.value !in env)
    requires IsSet(md.scriptName) && !host.fileExists(md.scriptName.value)
    ensures Judge(name, md, states, env, host) ==
      Report(NotFound, [MissingProgramLine(md.scriptName.value)], states)
  {
  }

  /** An empty function name is neither absent nor looked up: unless the
      script is missing, the checks run. */
  lemma EmptyFunctionNameRunsChecks(name: string, md: Metadata, states: seq<CheckState>, env: Env, host: Host)
    requires md.functionName == Some("")
    requires !IsSet(md.scriptName) || host.fileExists(md.scriptName.value)
    ensures Judge(name, md, states, env, host).verdict in {Pass, Fail}
  {
  }

  /** Once the checks run, the verdict is "pass" exactly when every check,
      run from its own state, passed. */
  lemma PassIffEveryCheckPasses(name: string, md: Metadata, states: seq<CheckState>,
                                                   env: Env, host: Host)
    requires Precheck(md, env, host).None?
    ensures Judge(name, md, states, env, host).verdict == Pass <==>
      forall i :: 0 <= i < |states| ==> RunCheck(states[i], env, host).passed
    ensures Judge(name, md, states, env, host).verdict == Fail <==>
      exists i :: 0 <= i < |states| && !RunCheck(states[i], env, host).passed
  {
    RunAllAt(states, env, host);
  }

  /** Every run's lines appear in a log made of the runs' lines and one
      closing line, after the lines of the runs before it; the closing line
      comes last. */
  lemma FlattenThenLine(runs: seq<CheckRun>, i: nat, line: string)
    requires i < |runs|
    ensures var lines, start := Flatten(runs) + [line], |Flatten(runs[..i])|;
      start + |runs[i].lines| < |lines| &&
      lines[start..start + |runs[i].lines|] == runs[i].lines &&
      lines[|lines| - 1] == line
  {
    FlattenSplit(runs, i);
    var before, own, after := Flatten(runs[..i]), runs[i].lines, Flatten(runs[i + 1..]);
    AppendAssoc(before + own, after, [line]);
    SliceMiddle(before, own, after + [line]);
  }

  /** No short-circuit: the lines of every check's run (`RunAllAt` says
      which run that is) are in the log, in the order of the checks,
      whichever checks failed before it, and the verdict line is the one line
      that follows them. */
  lemma EveryCheckReported(name: string, md: Metadata, states: seq<CheckState>,
                           env: Env, host: Host, i: nat)
    requires Precheck(md, env, host).None? && i < |states|
    ensures var r := Judge(name, md, states, env, host);
      var runs := RunAll(states, env, host);
      var start := |Flatten(runs[..i])|;
      start + |runs[i].lines| < |r.lines| &&
      r.lines[start..start + |runs[i].lines|] == runs[i].lines &&
      r.lines[|r.lines| - 1] == ClosingLine(name, r.verdict == Pass)
  {
    var runs := RunAll(states, env, host);
    JudgeRunsChecks(name, md, states, env, host);
    var r := Judge(name, md, states, env, host);
    assert r.lines == Flatten(runs) + [ClosingLine(name, AllPassed(runs))];
    assert (r.verdict == Pass) == AllPassed(runs);
    FlattenThenLine(runs, i, ClosingLine(name, AllPassed(runs)));
  }

  /** A problem: `Problem` with its fields. The checks share the problem's
      logger, and no function check appears twice, so running one check
      leaves every other check as it was. `Repr` holds the function checks,
      the only objects besides the logger that verifying changes. */
  class Problem {
    const name: string
    const metadata: Metadata
    const logger: Logger
    const checks: seq<Check>
    ghost const Repr: set<object>

    ghost predicate Valid()
    {
      logger !in Repr &&
      (forall c :: c in checks ==> c.Logger() == logger && c.Footprint() <= Repr) &&
      (forall i, j :: 0 <= i < j < |checks| && checks[i].Func? && checks[j].Func? ==> checks[i].fc != checks[j].fc)
    }

    /** The state of every check, in order. */
    ghost function States(): (s: seq<CheckState>)
      requires Valid()
      reads Repr
      ensures |s| == |checks| && forall i :: 0 <= i < |checks| ==> s[i] == checks[i].State()
    {
      seq(|checks|, i requires 0 <= i < |checks| reads Repr => assert checks[i] in checks; checks[i].State())
    }

    constructor (name: string, metadata: Metadata, logger: Logger, checks: seq<Check>)
      requires forall c :: c in checks ==> c.Logger() == logger
      requires forall i, j :: 0 <= i < j < |checks| && checks[i].Func? && checks[j].Func? ==> checks[i].fc != checks[j].fc
      ensures this.name == name && this.metadata == metadata
      ensures this.logger == logger && this.checks == checks
      ensures Repr == set c | c in checks && c.Func? :: c.fc
      ensures Valid()
    {
      this.name := name;
      this.metadata := metadata;
      this.logger := logger;
      this.checks := checks;
      this.Repr := set c | c in checks && c.Func? :: c.fc;
    }

    /** `Problem(name)` on the metadata the server returned: a fresh empty
        log, and one check per spec, in order, all logging to it. */
    static method Open(name: string, metadata: Metadata, host: Host) returns (r: Result<Problem, LoadError>)
      ensures r.Failure? <==> LoadAll(metadata.checks, host).Failure?
      ensures r.Failure? ==> r.error == LoadAll(metadata.checks, host).error
      ensures r.Success? ==>
        var p := r.value;
        fresh(p) && fresh(p.logger) && fresh(p.Repr) && p.Valid() &&
        p.name == name && p.metadata == metadata && p.logger.lines == [] &&
        p.States() == InitialStates(LoadAll(metadata.checks, host).value)
    {
      var loaded := LoadAll(metadata.checks, host);
      if loaded.Failure? {
        return Failure(loaded.error);
      }
      var logger := new Logger();
      var checks: seq<Check> := [];
      for k := 0 to |loaded.value|
        invariant |checks| == k
        invariant logger.lines == []
        invariant forall j :: 0 <= j < k ==> checks[j].Logger() == logger
        invariant forall j :: 0 <= j < k ==> checks[j].State() == InitialState(loaded.value[j])
        invariant forall j :: 0 <= j < k && checks[j].Func? ==> fresh(checks[j].fc)
        invariant forall i, j :: 0 <= i < j < k && checks[i].Func? && checks[j].Func? ==> checks[i].fc != checks[j].fc
      {
        var check: Check;
        match loaded.value[k] {
          case FunctionKind(config) =>
            var fc := new FunctionCheck(config, logger);
            check := Func(fc);
          case CommandKind(spec) =>
            var cc := new CommandCheck(spec, logger);
            check := Cmd(cc);
        }
        checks := checks + [check];
      }
      var p := new Problem(name, metadata, logger, checks);
      r := Success(p);
    }

    /** `_verify`: decides the verdict, logging as it goes. */
    method VerifyVerdict(env: Env, host: Host) returns (verdict: Verdict)
      requires Valid()
      modifies logger, Repr
      ensures var r := Judge(name, metadata, old(States()), env, host);
        verdict == r.verdict && logger.lines == old(logger.lines) + r.lines && States() == r.after
    {
      ghost var before := States();
      var functionName := metadata.functionName;
      var scriptName := metadata.scriptName;
      if functionName.None? && scriptName.None? {
        NotSupportedRunsNothing(name, metadata, before, env, host);
        Say(NotSupportedLine);
        return NotSupported;
      }
      if IsSet(functionName) && functionName.value !in env {
        MissingFunction(name, metadata, before, env, host);
        Say(MissingFunctionLine(functionName.value));
        return NotFound;
      }
      if IsSet(scriptName) && !host.fileExists(scriptName.value) {
        MissingProgram(name, metadata, before, env, host);
        Say(MissingProgramLine(scriptName.value));
        return NotFound;
      }

      JudgeRunsChecks(name, metadata, before, env, host);
      verdict := RunAndConclude(env, host);
    }

    /** The second half of `_verify`: every check runs, then the verdict line is logged. */
    method RunAndConclude(env: Env, host: Host) returns (verdict: Verdict)
      requires Valid()
      modifies logger, Repr
      ensures var r := Conclude(name, RunAll(old(States()), env, host));
        verdict == r.verdict && logger.lines == old(logger.lines) + r.lines && States() == r.after
    {
      ghost var runs := RunAll(States(), env, host);
      var passed := RunChecks(env, host);
      var line := ClosingLine(name, passed);
      Say(line);
      AppendAssoc(old(logger.lines), Flatten(runs), [line]);
      verdict := if passed then Pass else Fail;
    }

    /** `self.logger.log(line)`: the checks are not touched. */
    method Say(line: string)
      requires Valid()
      modifies logger
      ensures logger.lines == old(logger.lines) + [line]
      ensures States() == old(States())
    {
      logger.Log(line);
    }

    /** `check.run(env)` on the check at position `i`; the other checks are untouched. */
    method RunOne(i: nat, env: Env, host: Host) returns (passed: bool)
      requires Valid() && i < |checks|
      modifies logger, checks[i].Footprint()
      ensures var run := RunCheck(old(checks[i].State()), env, host);
        passed == run.passed && logger.lines == old(logger.lines) + run.lines &&
        checks[i].State() == run.after
      ensures forall j :: 0 <= j < |checks| && j != i ==> checks[j].State() == old(checks[j].State())
    {
      assert checks[i] in checks;
      match checks[i] {
        case Func(fc) =>
          passed := fc.Run(env, host);
        case Cmd(cc) =>
          passed := cc.Run(env, host);
      }
    }

    /** The loop of `_verify`: every check runs once, in order, whether or
        not an earlier one failed, and `passed` is the conjunction of their
        results. */
    method RunChecks(env: Env, host: Host) returns (passed: bool)
      requires Valid()
      modifies logger, Repr
      ensures var runs := RunAll(old(States()), env, host);
        passed == AllPassed(runs) && logger.lines == old(logger.lines) + Flatten(runs) &&
        States() == Afters(runs)
    {
      ghost var before := States();
      ghost var runs: seq<CheckRun> := [];
      passed := true;
      var i := 0;
      while i < |checks|
        invariant 0 <= i <= |checks| && |runs| == i
        invariant forall j :: 0 <= j < i ==> runs[j] == RunCheck(before[j], env, host)
        invariant forall j :: 0 <= j < i ==> checks[j].State() == runs[j].after
        invariant forall j :: i <= j < |checks| ==> checks[j].State() == before[j]
        invariant logger.lines == old(logger.lines) + Flatten(runs)
        invariant passed == AllPassed(runs)
      {
        assert checks[i] in checks;
        var checkPassed := RunOne(i, env, host);
        ghost var run := RunCheck(before[i], env, host);
        FlattenSnoc(runs, run);
        AppendAssoc(old(logger.lines), Flatten(runs), run.lines);
        AllPassedSnoc(runs, run);
        runs := runs + [run];
        passed := passed && checkPassed;
        i := i + 1;
      }
      RunAllAt(before, env, host);
      assert runs == RunAll(before, env, host);
    }

    /** `verify`: runs `_verify` and drops its verdict; only the log remains. */
    method Verify(env: Env, host: Host)
      requires Valid()
      modifies logger, Repr
      ensures var r := Judge(name, metadata, old(States()), env, host);
        logger.lines == old(logger.lines) + r.lines && States() == r.after
    {
      var _ := VerifyVerdict(env, host);
    }
  }
}
