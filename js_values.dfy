// The JavaScript values the container, its builder and its validator handle,
// the `typeof` and truthiness tests they rely on, the exceptions they throw,
// and the observable effects of the foreign code they call.

module JsValues {

  datatype Option<+T> = None | Some(value: T)

  /** A thrown exception (`Failure`) or a normal return (`Success`). */
  datatype Result<+R> = Success(value: R) | Failure(error: Error)

  /** A JavaScript value as far as the container can observe it.
      Numbers are exact reals (no NaN, no infinities, no -0).
      `Obj` is an instance built by the container's factory; it records whether
      it has a function-valued `setContainer` property.
      `Container` is a DiContainer instance: its identity and its own
      `typeValidator` property. `Validator` is a DiContainerTypeValidator
      instance (it is stateless, so all of them behave alike). */
  datatype Value =
    | Undef
    | Null
    | Bool(b: bool)
    | Num(n: real)
    | Str(s: string)
    | Arr(items: seq<Value>)
    | Func(fid: nat)
    | Obj(oid: nat, canSetContainer: bool)
    | Container(cid: nat, validator: Value)
    | Validator

  /** The result of the `typeof` operator. */
  function TypeOf(v: Value): string
  {
    match v
    case Undef => "undefined"
    case Bool(_) => "boolean"
    case Num(_) => "number"
    case Str(_) => "string"
    case Func(_) => "function"
    case _ => "object"
  }

  /** JavaScript truthiness (`!!v`). */
  predicate Truthy(v: Value)
  {
    match v
    case Undef => false
    case Null => false
    case Bool(b) => b
    case Num(n) => n != 0.0
    case Str(s) => s != ""
    case _ => true
  }

  /** What the source throws. `Thrown` carries the message string of a
      `throw '...'` statement; `TypeError` is the engine's exception for a
      property read on `undefined`/`null` or a call of something that is not
      a function; `RecursionLimit` stands for the engine's stack overflow. */
  datatype Error =
    | Thrown(msg: string)
    | TypeError
    | ConstructionFailed(name: string)
    | CallbackThrew
    | RecursionLimit
    | Unmodelled

  /** What the foreign code the container calls does, as the container sees it. */
  datatype Event =
    | Constructed(name: string, args: seq<Value>, instance: Value)
    | SetContainerCalled(instance: Value, container: Value)
    | CallbackCalled(callback: Value, container: Value, value: Value)

  /** The outcome of `new <name>(...args)`: an instance, which may or may
      not expose a `setContainer` method, or an exception (unknown name,
      throwing constructor). */
  datatype Construction = Instance(canSetContainer: bool) | Fails

  /** The environment the container runs in: the global constructors that
      `eval` would reach, and which callbacks throw when called. */
  datatype Env = Env(construct: (string, seq<Value>) -> Construction, throws: Value -> bool)

  /** `arr[i]` on an array: `undefined` past the end. */
  function At(items: seq<Value>, i: nat): (v: Value)
    ensures i < |items| ==> v == items[i]
    ensures i >= |items| ==> v == Undef
  {
    if i < |items| then items[i] else Undef
  }
}
