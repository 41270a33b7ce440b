// DiContainer: the registry `_container`, shared by every DiContainer
// instance because it is a closure variable of the prototype, and the
// operations on it. `get` builds an object entry through the shared builder
// slots, and `build` resolves alias arguments through `get`, so the two are
// mutually recursive; the recursion is bounded by `fuel`, whose exhaustion
// stands for the engine's stack overflow.
//
// Each operation has a specification function over a snapshot of the whole
// state (`World`) and a method over the objects that hold that state; the
// method's postcondition ties it to the function.

module Container {
  import opened JsValues
  import opened PropertyKeys
  import opened TypeValidator
  import opened ObjectBuilder

  const NotFound := "Value in container not found"
  const InstanceEmpty := "Object instance can not be empty"
  const InstanceNotObject := "Object instance should be object type instance"
  const CtorArgMissing := "DiContainer constructor argument not set"
  const CtorArgWrongType := "DiContainer constructor argument should be DiContainerTypeValidator instance"

  datatype Kind = BooleanKind | StringKind | NumberKind

  /** The value validator each primitive adder calls; on success it hands the
      value back, and that value becomes the key. */
  function ValueCheck(kind: Kind, value: Value): (r: Result<Value>)
    ensures r.Success? ==> r.value == value && Keyable(value)
    ensures kind == BooleanKind ==> (r.Success? <==> value.Bool?)
    ensures kind == StringKind ==> (r.Success? <==> value.Str?)
    ensures kind == NumberKind && value.Num? ==> (r.Success? <==> IsIntegral(value.n))
  {
    match kind
    case BooleanKind => ValidateContainerBooleanItem(value)
    case StringKind => ValidateContainerStringItem(value)
    case NumberKind => ValidateContainerNumberItem(value)
  }

  /** A registry entry: `{value, type}` for a primitive, or a validated object
      configuration tagged with type `object`. */
  datatype Entry =
    | PrimitiveEntry(value: Value, kind: Kind)
    | ObjectEntry(value: Value, autoload: Value, with: Value, callback: Value)

  /** The whole state the container and the builder work on: the registry,
      the shared builder slots, the calls made to foreign code so far, and the
      identity the next constructed object will get. */
  datatype World = World(registry: map<string, Entry>, builder: Builder, log: seq<Event>, nextId: nat)

  /** `new DiContainer(validator)`: the argument must be a truthy object; the
      `instanceof` test is negated before it applies and never fails. */
  function NewDiContainer(validator: Value, id: nat): (r: Result<Value>)
    ensures r.Success? <==> Truthy(validator) && TypeOf(validator) == "object"
    ensures r.Success? ==> r.value == Container(id, validator)
    ensures !Truthy(validator) ==> r == Failure(Thrown(CtorArgMissing))
  {
    if !Truthy(validator) then Failure(Thrown(CtorArgMissing))
    else if TypeOf(validator) != "object" then Failure(Thrown(CtorArgWrongType))
    else Success(Container(id, validator))
  }

  /** An entry that `get` returns as it is: a primitive, or an object whose
      value is set. */
  predicate Settled(e: Entry)
  {
    e.PrimitiveEntry? || Truthy(e.value)
  }

  /** `e2` is `e1` with at most its value filled in. */
  predicate SameShape(e1: Entry, e2: Entry)
  {
    e2.(value := e1.value) == e1 && (e2.value == e1.value || Truthy(e2.value))
  }

  /** What resolving never does: add or remove a key, change anything of an
      entry but its value, change a settled entry, or forget a logged call. */
  predicate Preserves(w1: World, w2: World)
  {
    && w2.registry.Keys == w1.registry.Keys
    && (forall k :: k in w1.registry ==> SameShape(w1.registry[k], w2.registry[k]))
    && (forall k :: k in w1.registry && Settled(w1.registry[k]) ==> w2.registry[k] == w1.registry[k])
    && w1.log <= w2.log
    && w1.nextId <= w2.nextId
  }

  /** has: a registered key, or an alias (the validator is asked only when
      the key is absent). */
  function HasSpec(registry: map<string, Entry>, self: Value, name: string): (r: Result<bool>)
    requires self.Container?
    ensures self.validator.Validator? ==> r == Success(name in registry || IsContainerAlias(name))
    ensures name in registry ==> r == Success(true)
  {
    if name in registry then Success(true) else CallIsContainerAlias(self.validator, name)
  }

  /** get. */
  function GetSpec(env: Env, w: World, self: Value, name: string, fuel: nat): (res: (Result<Value>, World))
    requires self.Container?
    decreases fuel, 0, 1
  {
    if name == SelfToken then (Success(self), w)
    else
      var has := HasSpec(w.registry, self, name);
      if has.Failure? then (Failure(has.error), w)
      else if has.value then
        if name !in w.registry then (Failure(TypeError), w)
        else
          var item := w.registry[name];
          if item.ObjectEntry? && !Truthy(item.value) then MaterialiseSpec(env, w, self, name, fuel)
          else (Success(item.value), w)
      else if CallIsContainerAlias(self.validator, name) == Success(true) then
        // the alias branch: `has` already answered true for every alias
        assert false; (Failure(TypeError), w)
      else (Failure(Thrown(NotFound)), w)
  }

  /** The setters `get` and `addObject` call on a new builder, in their order:
      container, arguments, validator, name. Each one that succeeds has
      written its slot before a later one throws. */
  function SetUp(b: Builder, self: Value, with: Value, name: string): (res: (Builder, Option<Error>))
    requires self.Container?
    ensures res.0.createdObject == b.createdObject
    ensures res.1.None? <==> with.Arr? && self.validator != Null && TypeOf(self.validator) == "object" && name != ""
    ensures res.1.None? ==> res.0 == Builder(self, self.validator, Some(name), b.createdObject, with.items)
  {
    var s1 := ApplySetDiContainer(b, self).value;
    var s2 := ApplySetObjectConstructorArguments(s1, with);
    if s2.Failure? then (s1, Some(s2.error))
    else
      var s3 := ApplySetTypeValidator(s2.value, self.validator);
      if s3.Failure? then (s2.value, Some(s3.error))
      else
        var s4 := ApplySetObjectName(s3.value, Str(name));
        if s4.Failure? then (s3.value, Some(s4.error))
        else (s4.value, None)
  }

  /** Lines 108-117 of `get`, and 185-194 of `addObject` with autoload: set up
      the builder, build, store the built object as the entry's value, then
      call the entry's callback with the container and the object. The entry
      is the one read before the build (`get` holds it in `containerItem`). */
  function MaterialiseSpec(env: Env, w: World, self: Value, name: string, fuel: nat): (res: (Result<Value>, World))
    requires self.Container? && name in w.registry && w.registry[name].ObjectEntry?
    decreases fuel, 0, 0
  {
    if fuel == 0 then (Failure(RecursionLimit), w)
    else
      var e := w.registry[name];
      var (b, err) := SetUp(w.builder, self, e.with, name);
      var w1 := w.(builder := b);
      if err.Some? then (Failure(err.value), w1)
      else BuildAndStoreSpec(env, w1, self, name, e, fuel - 1)
  }

  /** `objectBuilder.build().getObject()` and what follows it. */
  function BuildAndStoreSpec(env: Env, w: World, self: Value, name: string, e: Entry, fuel: nat): (res: (Result<Value>, World))
    requires e.ObjectEntry?
    decreases fuel, 3, 0
  {
    var (built, w2) := BuildSpec(env, w, fuel);
    if built.Failure? then (Failure(built.error), w2)
    else StoreBuiltSpec(env, w2, self, name, e)
  }

  /** The end of `get` once `build` has returned: read the built object,
      store it as the value of entry `e` under `name`, then call the entry's
      callback. */
  function StoreBuiltSpec(env: Env, w: World, self: Value, name: string, e: Entry): (res: (Result<Value>, World))
    requires e.ObjectEntry?
    ensures res.1.builder == w.builder && res.1.nextId == w.nextId
    ensures !Truthy(w.builder.createdObject) ==> res == (Failure(Thrown(NotBuilt)), w)
    ensures Truthy(w.builder.createdObject) ==>
              var obj := w.builder.createdObject;
              && res.1.registry == w.registry[name := ObjectEntry(obj, e.autoload, e.with, e.callback)]
              && res.1.log == w.log + (if Truthy(e.callback) then [CallbackCalled(e.callback, self, obj)] else [])
              && res.0 == (if Truthy(e.callback) && env.throws(e.callback) then Failure(CallbackThrew) else Success(obj))
  {
    var got := ReadCreatedObject(w.builder);
    if got.Failure? then (Failure(got.error), w)
    else
      var obj := got.value;
      var w1 := w.(registry := w.registry[name := ObjectEntry(obj, e.autoload, e.with, e.callback)]);
      if Truthy(e.callback) then
        var w2 := w1.(log := w1.log + [CallbackCalled(e.callback, self, obj)]);
        if env.throws(e.callback) then (Failure(CallbackThrew), w2) else (Success(obj), w2)
      else (Success(obj), w1)
  }

  /** build: check the three slots, prepare the arguments, instantiate
      `new <objectName>(args[0], ..., args[n-1])`, call the instance's
      `setContainer` hook when it has one, and remember the instance. The
      name, arguments and container are read from the slots after the
      arguments are prepared. */
  function BuildSpec(env: Env, w: World, fuel: nat): (res: (Result<()>, World))
    decreases fuel, 2, 0
  {
    var pre := BuildPrecondition(w.builder);
    if pre.Some? then (Failure(pre.value), w)
    else
      var (prepared, w1) := PrepareFrom(env, w, |w.builder.args|, 0, [], fuel);
      if prepared.Failure? then (Failure(prepared.error), w1)
      else
        var b := w1.builder;
        if b.objectName.None? then (Failure(TypeError), w1)
        else
          var n := b.objectName.value;
          match env.construct(n, b.args)
          case Fails => (Failure(ConstructionFailed(n)), w1)
          case Instance(hook) =>
            var obj := Obj(w1.nextId, hook);
            var log1 := w1.log + [Constructed(n, b.args, obj)];
            var log2 := if hook then log1 + [SetContainerCalled(obj, b.diContainer)] else log1;
            (Success(()), w1.(builder := b.(createdObject := obj), log := log2, nextId := w1.nextId + 1))
  }

  /** _prepareConstructorArguments from position `i` on: `n` is the length
      of the array the `for ... in` loop iterates, fixed when the loop starts;
      each element is read from the arguments slot as it is at that moment;
      an alias string becomes `get(alias)`, anything else is kept; at the end
      the slot is replaced by the prepared list. */
  function PrepareFrom(env: Env, w: World, n: nat, i: nat, prepared: seq<Value>, fuel: nat): (res: (Result<()>, World))
    requires i <= n
    decreases fuel, 1, n - i
  {
    if i == n then (Success(()), w.(builder := w.builder.(args := prepared)))
    else
      var arg := At(w.builder.args, i);
      if !arg.Str? then PrepareFrom(env, w, n, i + 1, prepared + [arg], fuel)
      else
        var isAlias := CallIsContainerAlias(w.builder.typeValidator, arg.s);
        if isAlias.Failure? then (Failure(isAlias.error), w)
        else if !isAlias.value then PrepareFrom(env, w, n, i + 1, prepared + [arg], fuel)
        else if !w.builder.diContainer.Container? then (Failure(TypeError), w)
        else
          var (got, w1) := GetSpec(env, w, w.builder.diContainer, arg.s, fuel);
          if got.Failure? then (Failure(got.error), w1)
          else PrepareFrom(env, w1, n, i + 1, prepared + [got.value], fuel)
  }

  /** The three primitive adders: validate the name, then validate the value
      and use what the value validator returns, the value, as the key. */
  function AddPrimitiveSpec(registry: map<string, Entry>, self: Value, name: Value, value: Value, kind: Kind): (r: Result<map<string, Entry>>)
    requires self.Container?
    ensures r.Success? <==> self.validator.Validator? && ValidateContainerItemName(name).Success? && ValueCheck(kind, value).Success?
    ensures r.Success? ==> Keyable(value) && r.value == registry[KeyOf(value) := PrimitiveEntry(value, kind)]
    ensures !self.validator.Validator? ==> r == Failure(TypeError)
    ensures self.validator.Validator? && ValidateContainerItemName(name).Failure? ==> r == Failure(ValidateContainerItemName(name).error)
    ensures self.validator.Validator? && ValidateContainerItemName(name).Success? && ValueCheck(kind, value).Failure? ==>
              r == Failure(ValueCheck(kind, value).error)
  {
    if !self.validator.Validator? then Failure(TypeError)
    else
      var checkedName := ValidateContainerItemName(name);
      if checkedName.Failure? then Failure(checkedName.error)
      else
        var key := ValueCheck(kind, value);
        if key.Failure? then Failure(key.error)
        else Success(registry[KeyOf(key.value) := PrimitiveEntry(value, kind)])
  }

  /** addObject: validate the name and the configuration, store the completed
      configuration as an object entry, and build at once when `autoload`. */
  function AddObjectSpec(env: Env, w: World, self: Value, name: Value, configs: Option<ConfigFields>, fuel: nat): (res: (Result<()>, World))
    requires self.Container?
    decreases fuel, 0, 2
  {
    if !self.validator.Validator? then (Failure(TypeError), w)
    else
      var checkedName := ValidateContainerItemName(name);
      if checkedName.Failure? then (Failure(checkedName.error), w)
      else
        var checked := CheckConfig(if configs.Some? then configs.value else NoFields);
        if checked.error.Some? then (Failure(checked.error.value), w)
        else
          var f := checked.fields;
          var key := checkedName.value.s;
          var entry := ObjectEntry(f.value.value, f.autoload.value, f.with.value, f.callback.value);
          var w1 := w.(registry := w.registry[key := entry]);
          if !Truthy(entry.autoload) then (Success(()), w1)
          else
            var (built, w2) := MaterialiseSpec(env, w1, self, key, fuel);
            (if built.Success? then Success(()) else Failure(built.error), w2)
  }

  /** addObjectWithInstance: the instance must be a truthy object; it is
      stored as an already built entry. */
  function AddObjectWithInstanceSpec(registry: map<string, Entry>, self: Value, name: Value, instance: Value): (r: Result<map<string, Entry>>)
    requires self.Container?
    ensures r.Success? <==> self.validator.Validator? && name.Str? && name.s != "" && Truthy(instance) && TypeOf(instance) == "object"
    ensures r.Success? ==> r.value.Keys == registry.Keys + {name.s}
    ensures r.Success? ==> r.value[name.s] == ObjectEntry(instance, Bool(false), Arr([]), Null)
    ensures r.Success? ==> forall k :: k in registry && k != name.s ==> r.value[k] == registry[k]
  {
    if !self.validator.Validator? then Failure(TypeError)
    else
      var checkedName := ValidateContainerItemName(name);
      if checkedName.Failure? then Failure(checkedName.error)
      else if !Truthy(instance) then Failure(Thrown(InstanceEmpty))
      else if TypeOf(instance) != "object" then Failure(Thrown(InstanceNotObject))
      else Success(registry[checkedName.value.s := ObjectEntry(instance, Bool(false), Arr([]), Null)])
  }

  /** The engine's view of foreign code: the calls made so far and the
      identity the next new object gets. */
  class Host {
    var log: seq<Event>
    var nextId: nat

    constructor ()
      ensures log == [] && nextId == 0
    {
      log, nextId := [], 0;
    }
  }

  function Snapshot(c: ContainerPrototype, b: BuilderPrototype, h: Host): World
    reads c, b, h
  {
    World(c.container, b.State(), h.log, h.nextId)
  }

  /** The prototype's closure: the registry every DiContainer instance uses.
      The methods take the instance (`this` in the source) as `self`. */
  class ContainerPrototype {
    var container: map<string, Entry>

    constructor ()
      ensures container == map[]
    {
      container := map[];
    }

    method Has(self: Value, name: string) returns (r: Result<bool>)
      requires self.Container?
      ensures r == HasSpec(container, self, name)
    {
      if name in container {
        return Success(true);
      }
      r := CallIsContainerAlias(self.validator, name);
    }

    method Get(env: Env, self: Value, name: string, fuel: nat, b: BuilderPrototype, h: Host) returns (r: Result<Value>)
      requires self.Container?
      modifies this, b, h
      ensures (r, Snapshot(this, b, h)) == GetSpec(env, old(Snapshot(this, b, h)), self, name, fuel)
      decreases fuel, 0, 1
    {
      if name == SelfToken {
        return Success(self);
      }
      var has := Has(self, name);
      if has.Failure? {
        return Failure(has.error);
      }
      if !has.value {
        return Failure(Thrown(NotFound));
      }
      if name !in container {
        return Failure(TypeError);
      }
      var item := container[name];
      if item.ObjectEntry? && !Truthy(item.value) {
        r := Materialise(env, self, name, fuel, b, h);
        return;
      }
      r := Success(item.value);
    }

    method Materialise(env: Env, self: Value, name: string, fuel: nat, b: BuilderPrototype, h: Host) returns (r: Result<Value>)
      requires self.Container? && name in container && container[name].ObjectEntry?
      modifies this, b, h
      ensures (r, Snapshot(this, b, h)) == MaterialiseSpec(env, old(Snapshot(this, b, h)), self, name, fuel)
      decreases fuel, 0, 0
    {
      if fuel == 0 {
        return Failure(RecursionLimit);
      }
      var e := container[name];
      var err := SetUpBuilder(b, self, e.with, name);
      if err.Some? {
        return Failure(err.value);
      }
      r := BuildAndStore(env, this, self, name, e, fuel - 1, b, h);
    }

    method AddPrimitive(self: Value, name: Value, value: Value, kind: Kind) returns (r: Result<()>)
      requires self.Container?
      modifies this
      ensures var s := AddPrimitiveSpec(old(container), self, name, value, kind);
              && (s.Success? ==> r == Success(()) && container == s.value)
              && (s.Failure? ==> r == Failure(s.error) && container == old(container))
    {
      if !self.validator.Validator? {
        return Failure(TypeError);
      }
      var checkedName := ValidateContainerItemName(name);
      if checkedName.Failure? {
        return Failure(checkedName.error);
      }
      var key := ValueCheck(kind, value);
      if key.Failure? {
        return Failure(key.error);
      }
      container := container[KeyOf(key.value) := PrimitiveEntry(value, kind)];
      r := Success(());
    }

    method AddBoolean(self: Value, name: Value, value: Value) returns (r: Result<()>)
      requires self.Container?
      modifies this
      ensures var s := AddPrimitiveSpec(old(container), self, name, value, BooleanKind);
              && (s.Success? ==> r == Success(()) && container == s.value)
              && (s.Failure? ==> r == Failure(s.error) && container == old(container))
    {
      r := AddPrimitive(self, name, value, BooleanKind);
    }

    method AddString(self: Value, name: Value, value: Value) returns (r: Result<()>)
      requires self.Container?
      modifies this
      ensures var s := AddPrimitiveSpec(old(container), self, name, value, StringKind);
              && (s.Success? ==> r == Success(()) && container == s.value)
              && (s.Failure? ==> r == Failure(s.error) && container == old(container))
    {
      r := AddPrimitive(self, name, value, StringKind);
    }

    method AddNumber(self: Value, name: Value, value: Value) returns (r: Result<()>)
      requires self.Container?
      modifies this
      ensures var s := AddPrimitiveSpec(old(container), self, name, value, NumberKind);
              && (s.Success? ==> r == Success(()) && container == s.value)
              && (s.Failure? ==> r == Failure(s.error) && container == old(container))
    {
      r := AddPrimitive(self, name, value, NumberKind);
    }

    /** addObject. `configs` is the caller's configuration object, `null` for
        a falsy argument; validation fills its defaults in place. */
    method AddObject(env: Env, self: Value, name: Value, configs: ConfigObject?, fuel: nat, b: BuilderPrototype, h: Host)
      returns (r: Result<()>)
      requires self.Container?
      modifies this, b, h, configs
      ensures (r, Snapshot(this, b, h)) ==
                AddObjectSpec(env, old(Snapshot(this, b, h)), self, name, if configs == null then None else Some(old(configs.Fields())), fuel)
      ensures configs != null && self.validator.Validator? && ValidateContainerItemName(name).Success? ==>
                configs.Fields() == CheckConfig(old(configs.Fields())).fields
      ensures configs != null && !(self.validator.Validator? && ValidateContainerItemName(name).Success?) ==>
                configs.Fields() == old(configs.Fields())
      decreases fuel, 0, 2
    {
      if !self.validator.Validator? {
        return Failure(TypeError);
      }
      var checkedName := ValidateContainerItemName(name);
      if checkedName.Failure? {
        return Failure(checkedName.error);
      }
      var checked := ValidateContainerObjectConfig(configs);
      if checked.Failure? {
        return Failure(checked.error);
      }
      var f := checked.value;
      var key := checkedName.value.s;
      var entry := ObjectEntry(f.value.value, f.autoload.value, f.with.value, f.callback.value);
      container := container[key := entry];
      if Truthy(entry.autoload) {
        var built := Materialise(env, self, key, fuel, b, h);
        r := if built.Success? then Success(()) else Failure(built.error);
      } else {
        r := Success(());
      }
    }

    method AddObjectWithInstance(self: Value, name: Value, instance: Value) returns (r: Result<()>)
      requires self.Container?
      modifies this
      ensures var s := AddObjectWithInstanceSpec(old(container), self, name, instance);
              && (s.Success? ==> r == Success(()) && container == s.value)
              && (s.Failure? ==> r == Failure(s.error) && container == old(container))
    {
      if !self.validator.Validator? {
        return Failure(TypeError);
      }
      var checkedName := ValidateContainerItemName(name);
      if checkedName.Failure? {
        return Failure(checkedName.error);
      } else if !Truthy(instance) {
        return Failure(Thrown(InstanceEmpty));
      } else if TypeOf(instance) != "object" {
        return Failure(Thrown(InstanceNotObject));
      }
      container := container[checkedName.value.s := ObjectEntry(instance, Bool(false), Arr([]), Null)];
      r := Success(());
    }
  }

  method BuildAndStore(env: Env, c: ContainerPrototype, self: Value, name: string, e: Entry, fuel: nat,
                       b: BuilderPrototype, h: Host) returns (r: Result<Value>)
    requires e.ObjectEntry?
    modifies c, b, h
    ensures (r, Snapshot(c, b, h)) == BuildAndStoreSpec(env, old(Snapshot(c, b, h)), self, name, e, fuel)
    decreases fuel, 3, 0
  {
    var built := Build(env, c, b, h, fuel);
    if built.Failure? {
      return Failure(built.error);
    }
    r := StoreBuilt(env, c, self, name, e, b, h);
  }

  method StoreBuilt(env: Env, c: ContainerPrototype, self: Value, name: string, e: Entry, b: BuilderPrototype, h: Host)
      returns (r: Result<Value>)
    requires e.ObjectEntry?
    modifies c, h
    ensures (r, Snapshot(c, b, h)) == StoreBuiltSpec(env, old(Snapshot(c, b, h)), self, name, e)
  {
    var got := b.GetObject();
    if got.Failure? {
      return Failure(got.error);
    }
    var obj := got.value;
    c.container := c.container[name := ObjectEntry(obj, e.autoload, e.with, e.callback)];
    if Truthy(e.callback) {
      h.log := h.log + [CallbackCalled(e.callback, self, obj)];
      if env.throws(e.callback) {
        return Failure(CallbackThrew);
      }
    }
    r := Success(obj);
  }

  /** The four setter calls of `get` and `addObject`, each of which may throw. */
  method SetUpBuilder(b: BuilderPrototype, self: Value, with: Value, name: string) returns (err: Option<Error>)
    requires self.Container?
    modifies b
    ensures (b.State(), err) == SetUp(old(b.State()), self, with, name)
  {
    var step := b.SetDiContainer(self);
    step := b.SetObjectConstructorArguments(with);
    if step.Failure? {
      return Some(step.error);
    }
    step := b.SetTypeValidator(self.validator);
    if step.Failure? {
      return Some(step.error);
    }
    step := b.SetObjectName(Str(name));
    if step.Failure? {
      return Some(step.error);
    }
    err := None;
  }

  method Build(env: Env, c: ContainerPrototype, b: BuilderPrototype, h: Host, fuel: nat) returns (r: Result<()>)
    modifies c, b, h
    ensures (r, Snapshot(c, b, h)) == BuildSpec(env, old(Snapshot(c, b, h)), fuel)
    decreases fuel, 2, 0
  {
    var pre := BuildPrecondition(b.State());
    if pre.Some? {
      return Failure(pre.value);
    }
    var prepared := PrepareConstructorArguments(env, c, b, h, fuel);
    if prepared.Failure? {
      return Failure(prepared.error);
    }
    if b.objectName.None? {
      return Failure(TypeError);
    }
    var n := b.objectName.value;
    var made := env.construct(n, b.objectConstructArgs);
    if made.Fails? {
      return Failure(ConstructionFailed(n));
    }
    var obj := Obj(h.nextId, made.canSetContainer);
    h.log := h.log + [Constructed(n, b.objectConstructArgs, obj)];
    h.nextId := h.nextId + 1;
    if made.canSetContainer {
      h.log := h.log + [SetContainerCalled(obj, b.diContainer)];
    }
    b.createdObject := obj;
    r := Success(());
  }

  method PrepareConstructorArguments(env: Env, c: ContainerPrototype, b: BuilderPrototype, h: Host, fuel: nat) returns (r: Result<()>)
    modifies c, b, h
    ensures (r, Snapshot(c, b, h)) == PrepareFrom(env, old(Snapshot(c, b, h)), |old(b.objectConstructArgs)|, 0, [], fuel)
    decreases fuel, 1, 0
  {
    var n := |b.objectConstructArgs|;
    var prepared: seq<Value> := [];
    var i := 0;
    while i < n
      invariant 0 <= i <= n
      invariant PrepareFrom(env, old(Snapshot(c, b, h)), n, 0, [], fuel) == PrepareFrom(env, Snapshot(c, b, h), n, i, prepared, fuel)
      decreases n - i
    {
      var arg := At(b.objectConstructArgs, i);
      if arg.Str? {
        var isAlias := CallIsContainerAlias(b.typeValidator, arg.s);
        if isAlias.Failure? {
          return Failure(isAlias.error);
        }
        if isAlias.value {
          if !b.diContainer.Container? {
            return Failure(TypeError);
          }
          var got := c.Get(env, b.diContainer, arg.s, fuel, b, h);
          if got.Failure? {
            return Failure(got.error);
          }
          prepared := prepared + [got.value];
        } else {
          prepared := prepared + [arg];
        }
      } else {
        prepared := prepared + [arg];
      }
      i := i + 1;
    }
    b.objectConstructArgs := prepared;
    r := Success(());
  }
}
