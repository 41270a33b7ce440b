// _getValueFromContainerByAlias: split a dotted alias on '.', walk the
// segments from `{container: _container}` through own properties, and return
// the `value` property of the node reached. `get` never calls it (its branch
// is dead, see Container.GetSpec), so it is modelled on its own.

module AliasPath {
  import opened JsValues
  import opened Container

  /** What the walk sees of an object: a record of own properties, or a
      value whose own properties are not modelled. */
  datatype Node = Record(props: map<string, Node>) | Leaf(v: Value)

  function KindName(k: Kind): string
  {
    match k
    case BooleanKind => "boolean"
    case StringKind => "string"
    case NumberKind => "number"
  }

  function EntryNode(e: Entry): Node
  {
    match e
    case PrimitiveEntry(v, k) => Record(map["value" := Leaf(v), "type" := Leaf(Str(KindName(k)))])
    case ObjectEntry(v, a, w, c) =>
      Record(map["value" := Leaf(v), "autoload" := Leaf(a), "with" := Leaf(w), "callback" := Leaf(c),
                 "type" := Leaf(Str("object"))])
  }

  function RegistryNode(registry: map<string, Entry>): Node
  {
    Record(map k | k in registry :: EntryNode(registry[k]))
  }

  /** The starting point `{container: _container}`. */
  function Root(registry: map<string, Entry>): Node
  {
    Record(map["container" := RegistryNode(registry)])
  }

  /** `s.split('.')`. */
  function Split(s: string): (parts: seq<string>)
    ensures |parts| > 0
    ensures forall p :: p in parts ==> '.' !in p
    decreases |s|
  {
    if '.' !in s then [s]
    else
      var i := IndexOf(s, '.');
      [s[..i]] + Split(s[i + 1..])
  }

  function IndexOf(s: string, c: char): (i: nat)
    requires c in s
    ensures i < |s| && s[i] == c && c !in s[..i]
  {
    if s[0] == c then 0 else 1 + IndexOf(s[1..], c)
  }

  /** `parts.join('.')`. */
  function Join(parts: seq<string>): string
    requires |parts| > 0
  {
    if |parts| == 1 then parts[0] else parts[0] + "." + Join(parts[1..])
  }

  /** Splitting loses nothing: joining the parts gives the alias back. */
  lemma {:induction false} JoinSplit(s: string)
    ensures Join(Split(s)) == s
    decreases |s|
  {
    if '.' in s {
      var i := IndexOf(s, '.');
      JoinSplit(s[i + 1..]);
      assert s == s[..i] + "." + s[i + 1..];
    }
  }

  /** A string without dots followed by a dot and the rest splits there. */
  lemma SplitAtFirstDot(head: string, rest: string)
    requires '.' !in head
    ensures Split(head + "." + rest) == [head] + Split(rest)
  {
    var s := head + "." + rest;
    assert s[|head|] == '.';
    var i := IndexOf(s, '.');
    assert forall j :: 0 <= j < |head| ==> s[j] == head[j];
    assert i == |head|;
    assert s[..i] == head;
    assert s[i + 1..] == rest;
  }

  function InvalidDependency(dependency: string, key: string): string
  {
    "Invalid dependency. {" + dependency + "}. Key {" + key + "} not found."
  }

  /** `node.hasOwnProperty(key)` followed by `node[key]`: `None` when the
      property is absent; reading a property of `null` or `undefined` throws. */
  function OwnProperty(node: Node, key: string): Result<Option<Node>>
  {
    match node
    case Record(props) => Success(if key in props then Some(props[key]) else None)
    case Leaf(v) => if v.Null? || v.Undef? then Failure(TypeError) else Success(None)
  }

  /** The loop of the helper over the remaining segments. */
  function Walk(node: Node, path: seq<string>, dependency: string): Result<Node>
    decreases |path|
  {
    if path == [] then Success(node)
    else
      match OwnProperty(node, path[0])
      case Failure(e) => Failure(e)
      case Success(None) => Failure(Thrown(InvalidDependency(dependency, path[0])))
      case Success(Some(next)) => Walk(next, path[1..], dependency)
  }

  /** `value.value` at the end. */
  function FinalValue(node: Node): Result<Node>
  {
    match OwnProperty(node, "value")
    case Failure(e) => Failure(e)
    case Success(None) => Success(Leaf(Undef))
    case Success(Some(v)) => Success(v)
  }

  function ResolveAlias(registry: map<string, Entry>, dependency: string): Result<Node>
  {
    match Walk(Root(registry), Split(dependency), dependency)
    case Failure(e) => Failure(e)
    case Success(node) => FinalValue(node)
  }

  method ValueByAlias(registry: map<string, Entry>, dependency: string) returns (r: Result<Node>)
    ensures r == ResolveAlias(registry, dependency)
  {
    var path := Split(dependency);
    var value := Root(registry);
    var i := 0;
    while i < |path|
      invariant 0 <= i <= |path|
      invariant Walk(Root(registry), path, dependency) == Walk(value, path[i..], dependency)
    {
      var next := OwnProperty(value, path[i]);
      assert path[i..][1..] == path[i + 1..];
      if next.Failure? {
        return Failure(next.error);
      }
      if next.value.None? {
        return Failure(Thrown(InvalidDependency(dependency, path[i])));
      }
      value := next.value.value;
      i := i + 1;
    }
    r := FinalValue(value);
  }

  /** `container.<key>` for a registered key without dots reaches the entry
      and returns its value. */
  lemma ResolveRegisteredKey(registry: map<string, Entry>, key: string)
    requires key in registry && '.' !in key
    ensures ResolveAlias(registry, "container." + key) == Success(Leaf(registry[key].value))
  {
    SplitAtFirstDot("container", key);
    assert "container" + "." + key == "container." + key;
    assert Split(key) == [key];
    var path := Split("container." + key);
    assert path == ["container", key];
    var reg := RegistryNode(registry);
    assert Walk(Root(registry), path, "container." + key) == Walk(reg, [key], "container." + key);
    assert Walk(reg, [key], "container." + key) == Success(EntryNode(registry[key]));
  }

  /** A segment that is not a registered key makes the walk throw with that
      key in the message. */
  lemma ResolveMissingKey(registry: map<string, Entry>, key: string)
    requires key !in registry && '.' !in key
    ensures ResolveAlias(registry, "container." + key) == Failure(Thrown(InvalidDependency("container." + key, key)))
  {
    SplitAtFirstDot("container", key);
    assert "container" + "." + key == "container." + key;
    assert Split(key) == [key];
    var path := Split("container." + key);
    assert path == ["container", key];
    var reg := RegistryNode(registry);
    assert Walk(Root(registry), path, "container." + key) == Walk(reg, [key], "container." + key);
  }
}
