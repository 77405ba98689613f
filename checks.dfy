/** Check specifications, their loading, and the function check: it runs a
    snippet against a copy of the learner's namespace and compares the result
    with an expected value. Command checks are run by the host. */
module Checks {
  import opened Values
  import opened Logging

  /** A check as the problem's metadata describes it: a dictionary. */
  type CheckSpec = map<string, Value>

  datatype Result<+T, +E> = Success(value: T) | Failure(error: E)

  /** `ValueError("Invalid Check spec")` raised by `Check.load`, or the
      `KeyError` of a function check whose spec has no "expected". */
  datatype LoadError = InvalidSpec(spec: CheckSpec) | MissingKey(key: string)

  /** The fields of a function check; only `expected` ever changes. */
  datatype FunctionConfig = FunctionConfig(
    setupCode: Option<Value>,
    code: Value,
    name: Value,
    expected: Value,
    mode: Value)

  /** What `Check.load` builds from a spec. */
  datatype Loaded = FunctionKind(config: FunctionConfig) | CommandKind(spec: CheckSpec)

  const Tick: string := "\U{2713} "
  const Cross: string := "\U{2717} "
  const ExpectedPrefix: string := "  expected: "
  const FoundPrefix: string := "  found: "

  /** `spec.get(key)`. */
  function Get(spec: CheckSpec, key: string): Option<Value>
  {
    if key in spec then Some(spec[key]) else None
  }

  /** The label a function check reports under: `spec.get("name") or spec["code"]`. */
  function DisplayName(spec: CheckSpec, host: Host): (name: Value)
    requires "code" in spec
    ensures "name" in spec && spec["name"].Str? && spec["name"].text != "" ==> name == spec["name"]
    ensures "name" !in spec || spec["name"] == Str("") ==> name == spec["code"]
    ensures name == spec["code"] || ("name" in spec && name == spec["name"])
  {
    if "name" in spec && Truthy(spec["name"], host) then spec["name"] else spec["code"]
  }

  /** `Check.load` together with the field reads of `FunctionCheck.__init__`:
      a "code" key makes a function check whatever else is present, a
      "command" key without "code" makes a command check, and a spec with
      neither is refused when it is loaded. */
  function Load(spec: CheckSpec, host: Host): (r: Result<Loaded, LoadError>)
    ensures (r.Success? && r.value.FunctionKind?) <==> "code" in spec && "expected" in spec
    ensures (r.Success? && r.value.CommandKind?) <==> "code" !in spec && "command" in spec
    ensures r.Failure? && r.error.InvalidSpec? <==> "code" !in spec && "command" !in spec
    ensures r.Failure? ==> r.error == InvalidSpec(spec) || r.error == MissingKey("expected")
    ensures r.Success? && r.value.CommandKind? ==> r.value.spec == spec
    ensures r.Success? && r.value.FunctionKind? ==>
      var c := r.value.config;
      c.code == spec["code"] && c.expected == spec["expected"] &&
      c.setupCode == Get(spec, "setup_code") &&
      c.mode == (if "mode" in spec then spec["mode"] else Str("eval")) &&
      c.name == DisplayName(spec, host)
  {
    if "code" in spec then
      if "expected" in spec then
        Success(FunctionKind(FunctionConfig(
          Get(spec, "setup_code"),
          spec["code"],
          DisplayName(spec, host),
          spec["expected"],
          if "mode" in spec then spec["mode"] else Str("eval"))))
      else
        Failure(MissingKey("expected"))
    else if "command" in spec then
      Success(CommandKind(spec))
    else
      Failure(InvalidSpec(spec))
  }

  /** What `do_eval` produced, and the value of `expected` after it. */
  datatype Evaluation = Evaluation(outcome: Outcome<Value>, expected: Value)

  /** `FunctionCheck.do_eval` on a copy of `env`. In "eval" mode the setup
      code (when truthy) runs first, then the code is evaluated; in "exec"
      mode the code runs and `result` is read from the namespace it leaves;
      an `_expected` in that namespace replaces the expected value even when
      `result` is missing; any other mode raises. The namespace after the
      block holds the learner's names as well as the block's, so a
      `result` or `_expected` the learner defined counts too. */
  function Evaluate(c: FunctionConfig, env: Env, host: Host): (e: Evaluation)
    ensures e.outcome.Returned? ==> c.mode == Str("eval") || c.mode == Str("exec")
    ensures c.mode != Str("exec") ==> e.expected == c.expected
  {
    if c.mode == Str("eval") then
      var prepared :=
        if c.setupCode.Some? && Truthy(c.setupCode.value, host) then host.execute(c.setupCode.value, env)
        else Returned(env);
      match prepared
      case Raised => Evaluation(Raised, c.expected)
      case Returned(scope) => Evaluation(host.evaluate(c.code, scope), c.expected)
    else if c.mode == Str("exec") then
      match host.execute(c.code, env)
      case Raised => Evaluation(Raised, c.expected)
      case Returned(scope) =>
        var expected := if "_expected" in scope then scope["_expected"] else c.expected;
        if "result" in scope then Evaluation(Returned(scope["result"]), expected)
        else Evaluation(Raised, expected)
    else
      Evaluation(Raised, c.expected)
  }

  /** The state a check keeps between runs. */
  datatype CheckState = FunctionState(config: FunctionConfig) | CommandState(spec: CheckSpec)

  /** One call of `run`: its result, the lines it logged, and the check's state afterwards. */
  datatype CheckRun = CheckRun(passed: bool, lines: seq<string>, after: CheckState)

  /** `FunctionCheck.run` on a check in state `c`. */
  function FunctionRun(c: FunctionConfig, env: Env, host: Host): (r: CheckRun)
    ensures r.after.FunctionState? && r.after.config.(expected := c.expected) == c
    ensures r.passed ==> |r.lines| == 1
    ensures !r.passed ==> |r.lines| == 1 || |r.lines| == 3
    ensures r.lines[0] == (if r.passed then Tick else Cross) + Show(c.name, host)
  {
    var e := Evaluate(c, env, host);
    var shown := Show(c.name, host);
    var after := FunctionState(c.(expected := e.expected));
    match e.outcome
    case Raised => CheckRun(false, [Cross + shown], after)
    case Returned(found) =>
      if found == e.expected then CheckRun(true, [Tick + shown], after)
      else CheckRun(false, [Cross + shown, ExpectedPrefix + host.repr(e.expected), FoundPrefix + host.repr(found)], after)
  }

  /** `check.run(env)` for either kind of check. */
  function RunCheck(s: CheckState, env: Env, host: Host): (r: CheckRun)
    ensures r.after.FunctionState? <==> s.FunctionState?
    ensures r.after.FunctionState? ==> r.after.config.(expected := s.config.expected) == s.config
    ensures s.CommandState? ==> r.after == s && r.lines == host.runCommand(s.spec, env).lines
    ensures s.CommandState? ==> r.passed == host.runCommand(s.spec, env).passed
  {
    match s
    case FunctionState(c) => FunctionRun(c, env, host)
    case CommandState(spec) =>
      var run := host.runCommand(spec, env);
      CheckRun(run.passed, run.lines, s)
  }

  /** The state a freshly loaded check starts in. */
  function InitialState(l: Loaded): CheckState
  {
    match l
    case FunctionKind(c) => FunctionState(c)
    case CommandKind(spec) => CommandState(spec)
  }

  /** Only "exec" mode changes the expected value, and only to the
      `_expected` of the namespace the block leaves; in "exec" mode the value
      compared is the `result` of that namespace; any other mode raises. */
  lemma EvaluateSpec(c: FunctionConfig, env: Env, host: Host)
    ensures var e := Evaluate(c, env, host);
      (c.mode != Str("eval") && c.mode != Str("exec") ==> e == Evaluation(Raised, c.expected)) &&
      (e.expected != c.expected ==>
        c.mode == Str("exec") && host.execute(c.code, env).Returned? &&
        "_expected" in host.execute(c.code, env).value &&
        e.expected == host.execute(c.code, env).value["_expected"]) &&
      (c.mode == Str("exec") && e.outcome.Returned? ==>
        host.execute(c.code, env).Returned? &&
        "result" in host.execute(c.code, env).value &&
        e.outcome.value == host.execute(c.code, env).value["result"])
  {
  }

  /** The value `do_eval` returns and the expected value it leaves: in
      "eval" mode, the evaluation of the code in the caller's namespace, or
      in the namespace a truthy setup leaves; in "exec" mode, the `result`
      of the namespace the block leaves, which raises when there is none,
      and that namespace's `_expected` when there is one. */
  lemma EvaluateValue(c: FunctionConfig, env: Env, host: Host)
    ensures c.mode == Str("eval") && (c.setupCode.None? || !Truthy(c.setupCode.value, host)) ==>
      Evaluate(c, env, host) == Evaluation(host.evaluate(c.code, env), c.expected)
    ensures c.mode == Str("eval") && c.setupCode.Some? && Truthy(c.setupCode.value, host) ==>
      match host.execute(c.setupCode.value, env)
      case Raised => Evaluate(c, env, host) == Evaluation(Raised, c.expected)
      case Returned(scope) => Evaluate(c, env, host) == Evaluation(host.evaluate(c.code, scope), c.expected)
    ensures c.mode == Str("exec") ==>
      var e := Evaluate(c, env, host);
      match host.execute(c.code, env)
      case Raised => e == Evaluation(Raised, c.expected)
      case Returned(scope) =>
        (e.outcome.Returned? <==> "result" in scope) &&
        ("result" in scope ==> e.outcome.value == scope["result"]) &&
        ("_expected" in scope ==> e.expected == scope["_expected"]) &&
        ("_expected" !in scope ==> e.expected == c.expected)
  {
  }

  /** `run` never raises and logs one of three patterns: a tick line when
      the result equals the expected value, a cross line with the expected
      and found values when it does not, and a lone cross line when
      evaluating raised. The check passes exactly when the result equals the
      expected value, and only `expected` may change. */
  lemma RunPatterns(c: FunctionConfig, env: Env, host: Host)
    ensures var e, r := Evaluate(c, env, host), FunctionRun(c, env, host);
      var shown := Show(c.name, host);
      r.after == FunctionState(c.(expected := e.expected)) &&
      (r.passed <==> e.outcome == Returned(e.expected)) &&
      (r.passed ==> r.lines == [Tick + shown]) &&
      (e.outcome.Raised? ==> r.lines == [Cross + shown]) &&
      (e.outcome.Returned? && e.outcome.value != e.expected ==>
        r.lines == [Cross + shown, ExpectedPrefix + host.repr(e.expected), FoundPrefix + host.repr(e.outcome.value)])
  {
  }

  /** An "eval" mode check without setup code passes exactly when evaluating
      its code in the caller's namespace returns the declared expected value. */
  lemma EvalModeWithoutSetup(c: FunctionConfig, env: Env, host: Host)
    requires c.mode == Str("eval") && c.setupCode.None?
    ensures FunctionRun(c, env, host).passed <==> host.evaluate(c.code, env) == Returned(c.expected)
    ensures FunctionRun(c, env, host).after == FunctionState(c)
  {
  }

  /** In "eval" mode, truthy setup code runs first: when it raises, the run
      fails with a lone cross line; otherwise the code is evaluated in the
      namespace the setup leaves. */
  lemma EvalModeWithSetup(c: FunctionConfig, env: Env, host: Host)
    requires c.mode == Str("eval") && c.setupCode.Some? && Truthy(c.setupCode.value, host)
    ensures host.execute(c.setupCode.value, env).Raised? ==>
      FunctionRun(c, env, host) == CheckRun(false, [Cross + Show(c.name, host)], FunctionState(c))
    ensures host.execute(c.setupCode.value, env).Returned? ==>
      (FunctionRun(c, env, host).passed <==>
        host.evaluate(c.code, host.execute(c.setupCode.value, env).value) == Returned(c.expected))
    ensures FunctionRun(c, env, host).after == FunctionState(c)
  {
  }

  /** Falsy setup code is skipped, exactly as if there were none. */
  lemma FalsySetupSkipped(c: FunctionConfig, env: Env, host: Host)
    requires c.setupCode.Some? && !Truthy(c.setupCode.value, host)
    ensures Evaluate(c, env, host) == Evaluate(c.(setupCode := None), env, host)
  {
  }

  /** An invalid mode is an evaluation error: a lone cross line and a failure. */
  lemma InvalidModeFails(c: FunctionConfig, env: Env, host: Host)
    requires c.mode != Str("eval") && c.mode != Str("exec")
    ensures FunctionRun(c, env, host) == CheckRun(false, [Cross + Show(c.name, host)], FunctionState(c))
  {
  }

  /** In "exec" mode, when the namespace the block leaves holds equal
      `result` and `_expected` values, the check passes whatever `expected`
      the spec declared, and that `_expected` becomes the check's expected
      value. */
  lemma ExecExpectedOverrides(c: FunctionConfig, env: Env, host: Host, scope: Env)
    requires c.mode == Str("exec")
    requires host.execute(c.code, env) == Returned(scope)
    requires "result" in scope && "_expected" in scope && scope["result"] == scope["_expected"]
    ensures FunctionRun(c, env, host).passed
    ensures FunctionRun(c, env, host).after.config.expected == scope["_expected"]
  {
  }

  /** An `_expected` override outlives the run that made it: a later run
      whose namespace after the block holds no `_expected` compares against
      the overriding value, not the declared one. */
  lemma OverridePersists(c: FunctionConfig, env1: Env, env2: Env, host: Host, scope1: Env, scope2: Env)
    requires c.mode == Str("exec")
    requires host.execute(c.code, env1) == Returned(scope1) && "_expected" in scope1
    requires host.execute(c.code, env2) == Returned(scope2) && "_expected" !in scope2 && "result" in scope2
    ensures var first := FunctionRun(c, env1, host);
      var second := FunctionRun(first.after.config, env2, host);
      (second.passed <==> scope2["result"] == scope1["_expected"]) &&
      second.after.config.expected == scope1["_expected"]
  {
  }

  /** A function check: `FunctionCheck` with its fields. `expected` is the
      only field that changes after construction. */
  class FunctionCheck {
    const setupCode: Option<Value>
    const code: Value
    const name: Value
    var expected: Value
    const mode: Value
    const logger: Logger

    function Config(): FunctionConfig
      reads this
    {
      FunctionConfig(setupCode, code, name, expected, mode)
    }

    constructor (config: FunctionConfig, logger: Logger)
      ensures Config() == config && this.logger == logger
    {
      setupCode := config.setupCode;
      code := config.code;
      name := config.name;
      expected := config.expected;
      mode := config.mode;
      this.logger := logger;
    }

    /** `do_eval`: in the model the caller's namespace is a value, so the
        evaluation cannot change it; "exec" mode may overwrite `expected`
        for good. */
    method DoEval(env: Env, host: Host) returns (result: Outcome<Value>)
      modifies this
      ensures var e := Evaluate(old(Config()), env, host);
        result == e.outcome && Config() == old(Config()).(expected := e.expected)
    {
      var scope := env;
      if mode == Str("eval") {
        if setupCode.Some? && Truthy(setupCode.value, host) {
          var prepared := host.execute(setupCode.value, scope);
          if prepared.Raised? {
            return Raised;
          }
          scope := prepared.value;
        }
        result := host.evaluate(code, scope);
      } else if mode == Str("exec") {
        var ran := host.execute(code, scope);
        if ran.Raised? {
          return Raised;
        }
        scope := ran.value;
        if "_expected" in scope {
          expected := scope["_expected"];
        }
        if "result" in scope {
          result := Returned(scope["result"]);
        } else {
          result := Raised;
        }
      } else {
        result := Raised;
      }
    }

    /** `run`: evaluates, compares with `expected` and logs the outcome. */
    method Run(env: Env, host: Host) returns (passed: bool)
      modifies this, logger
      ensures var r := FunctionRun(old(Config()), env, host);
        passed == r.passed && logger.lines == old(logger.lines) + r.lines &&
        FunctionState(Config()) == r.after
    {
      var result := DoEval(env, host);
      var shown := Show(name, host);
      match result
      case Raised =>
        logger.Log(Cross + shown);
        passed := false;
      case Returned(found) =>
        if found == expected {
          logger.Log(Tick + shown);
          passed := true;
        } else {
          logger.Log(Cross + shown);
          logger.Log(ExpectedPrefix + host.repr(expected));
          logger.Log(FoundPrefix + host.repr(found));
          passed := false;
        }
    }
  }

  /** A command check, whose behaviour is the host's. */
  class CommandCheck {
    const spec: CheckSpec
    const logger: Logger

    constructor (spec: CheckSpec, logger: Logger)
      ensures this.spec == spec && this.logger == logger
    {
      this.spec := spec;
      this.logger := logger;
    }

    /** Runs the command through the host and logs the lines it reports, in order. */
    method Run(env: Env, host: Host) returns (passed: bool)
      modifies logger
      ensures passed == host.runCommand(spec, env).passed
      ensures logger.lines == old(logger.lines) + host.runCommand(spec, env).lines
    {
      var run := host.runCommand(spec, env);
      for k := 0 to |run.lines|
        invariant logger.lines == old(logger.lines) + run.lines[..k]
      {
        logger.Log(run.lines[k]);
        assert run.lines[..k + 1] == run.lines[..k] + [run.lines[k]];
      }
      assert run.lines[..|run.lines|] == run.lines;
      passed := run.passed;
    }
  }

  /** A problem's check: one of the two kinds. */
  datatype Check = Func(fc: FunctionCheck) | Cmd(cc: CommandCheck) {
    ghost function Logger(): Logger
    {
      match this
      case Func(fc) => fc.logger
      case Cmd(cc) => cc.logger
    }

    /** The objects whose fields a run may change, besides the logger. */
    ghost function Footprint(): set<object>
    {
      if Func? then {fc} else {}
    }

    ghost function State(): CheckState
      reads Footprint()
    {
      match this
      case Func(fc) => FunctionState(fc.Config())
      case Cmd(cc) => CommandState(cc.spec)
    }
  }
}
