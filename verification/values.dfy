/** Values shared by the configuration loader, the registry and the crew:
    the YAML data a configuration document holds, the errors the wiring
    layer raises, and a failure-compatible Result. */
module Values {

  /** A YAML value as the safe loader returns it inside a configuration
      entry: a string, an integer, a boolean, null, or a list. */
  datatype Value = Str(s: string) | Int(i: int) | Bool(b: bool) | Null | List(items: seq<Value>)

  /** Python refuses a list as a dictionary key or an enumeration name. */
  predicate Hashable(v: Value) {
    !v.List?
  }

  /** One attribute set of a configuration entry (role, goal, agent, output_file, ...). */
  type Config = map<string, Value>

  /** An agents or tasks document: the mapping's items in insertion order. */
  type Document = seq<(string, Config)>

  /** The crew manifest: top-level keys `agents`, `tasks`, `process`, `verbose`. */
  type Manifest = map<string, Value>

  /** The parsed configuration files that exist, by path. */
  datatype Files = Files(documents: map<string, Document>, manifests: map<string, Manifest>)

  /** `config.get(key)`: the value under `key`, or None when it is absent. */
  function Get(config: Config, key: string): Value {
    if key in config then config[key] else Null
  }

  /** The names of a mapping's entries. */
  function Names<C>(entries: seq<(string, C)>): set<string> {
    set i | 0 <= i < |entries| :: entries[i].0
  }

  /** No name occurs twice, as in a loaded mapping. */
  predicate DistinctNames<C>(entries: seq<(string, C)>) {
    forall i, j :: 0 <= i < j < |entries| ==> entries[i].0 != entries[j].0
  }

  datatype Kind = AgentKind | TaskKind

  /** The exceptions the wiring layer raises. */
  datatype Error =
    | FileNotFound(path: string)       // a configuration file is missing
    | NotFound(kind: Kind, name: Value) // ValueError of get_agent_by_name / get_task_by_name
    | KeyError(key: Value)             // a missing manifest key or an unknown Process member
    | Unhashable                       // TypeError: a list used as a key
    | NotIterable(typeName: string)    // TypeError: a manifest name list that cannot be iterated

  datatype Result<T> = Success(value: T) | Failure(error: Error) {
    predicate IsFailure() {
      Failure?
    }

    function PropagateFailure<U>(): Result<U>
      requires Failure?
    {
      Failure(error)
    }

    function Extract(): T
      requires Success?
    {
      value
    }
  }

  function KindName(kind: Kind): string {
    match kind
    case AgentKind => "Agent"
    case TaskKind => "Task"
  }

  function Digit(d: int): char
    requires 0 <= d < 10
  {
    "0123456789"[d]
  }

  /** Python's `str` of an integer. */
  function DecimalString(n: int): string
    decreases if n < 0 then 1 - n else n
  {
    if n < 0 then "-" + DecimalString(-n)
    else if n < 10 then [Digit(n)]
    else DecimalString(n / 10) + [Digit(n % 10)]
  }

  /** Python's `str` of a hashable value, as an f-string formats it. */
  function Render(v: Value): string
    requires Hashable(v)
  {
    match v
    case Str(s) => s
    case Int(i) => DecimalString(i)
    case Bool(b) => if b then "True" else "False"
    case Null => "None"
  }

  /** Python's type name of a value. */
  function TypeName(v: Value): string {
    match v
    case Str(_) => "str"
    case Int(_) => "int"
    case Bool(_) => "bool"
    case Null => "NoneType"
    case List(_) => "list"
  }

  /** The text of the error as Python prints it. For a string key of a
      `KeyError` the quoting is the plain `'key'` form: Python's switch to
      double quotes or escapes for keys that contain quotes is not modelled. */
  function Message(e: Error): string
    requires e.NotFound? ==> Hashable(e.name)
    requires e.KeyError? ==> Hashable(e.key)
  {
    match e
    case FileNotFound(path) => "YAML file not found: " + path
    case NotFound(kind, name) => KindName(kind) + " '" + Render(name) + "' not found."
    case KeyError(key) => if key.Str? then "'" + key.s + "'" else Render(key)
    case Unhashable => "unhashable type: 'list'"
    case NotIterable(typeName) => "'" + typeName + "' object is not iterable"
  }

  /** The not-found message quotes the requested name so that it can be read
      back, hence two different names never share a message. */
  lemma NotFoundMessageNamesRequest(kind: Kind, name: string, other: string)
    ensures var m := Message(NotFound(kind, Str(name)));
            |m| == |KindName(kind)| + |name| + 14 && m[|KindName(kind)| + 2..|m| - 12] == name
    ensures Message(NotFound(kind, Str(name))) == Message(NotFound(kind, Str(other))) ==> name == other
  {
    var prefix := KindName(kind) + " '";
    var m := Message(NotFound(kind, Str(name)));
    var m' := Message(NotFound(kind, Str(other)));
    assert m == prefix + name + "' not found.";
    assert m' == prefix + other + "' not found.";
    assert m[|prefix|..|m| - 12] == name;
    assert m'[|prefix|..|m'| - 12] == other;
  }
}
