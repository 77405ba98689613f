/** Python values, the learner's namespace, and the parts of the Python runtime
    and the machine that the checker only consults. Everything dynamic (running
    a snippet, asking an object for its truth value or its text) is a field of
    a `Host`, so the rest of the model is deterministic given a host. */
module Values {

  datatype Option<+T> = None | Some(value: T)

  /** A Python object as far as the checker can tell them apart: a `str`, or
      any other object, known only by an abstract token. Two tokens are equal
      exactly when Python's `==` holds between the objects they stand for. */
  datatype Value = Str(text: string) | Obj(token: nat)

  /** A namespace: the learner's notebook globals, or a copy of them. */
  type Env = map<string, Value>

  /** What a piece of Python code did: raised an exception, or finished with a value. */
  datatype Outcome<+T> = Raised | Returned(value: T)

  /** The outcome of a command check as the host reports it: whether it
      passed and the lines it logged. */
  datatype CommandRun = CommandRun(passed: bool, lines: seq<string>)

  /** The oracles the checker runs against.
      - `execute(code, env)`: Python's `exec(code, env)`, giving the namespace afterwards;
      - `evaluate(code, env)`: Python's `eval(code, env)`;
      - `truthy(t)`, `text(t)`: `bool()` and `str()` of a non-string object;
      - `repr(v)`: Python's `repr(v)`;
      - `fileExists(path)`: `Path(path).exists()`;
      - `runCommand(spec, env)`: a command check run against `env`. */
  datatype Host = Host(
    execute: (Value, Env) -> Outcome<Env>,
    evaluate: (Value, Env) -> Outcome<Value>,
    truthy: nat -> bool,
    text: nat -> string,
    repr: Value -> string,
    fileExists: string -> bool,
    runCommand: (map<string, Value>, Env) -> CommandRun)

  /** Python truthiness: a string is true when it is not empty. */
  function Truthy(v: Value, host: Host): bool
  {
    match v
    case Str(s) => s != ""
    case Obj(t) => host.truthy(t)
  }

  /** Python's `str(v)`, as used by an f-string: a string shows as itself. */
  function Show(v: Value, host: Host): string
  {
    match v
    case Str(s) => s
    case Obj(t) => host.text(t)
  }
}
