// What `get`, `build` and the adders promise, stated over the specification
// functions of module Container.

module ContainerProperties {
  import opened JsValues
  import opened PropertyKeys
  import opened TypeValidator
  import opened ObjectBuilder
  import opened Container
  import opened ContainerInvariants

  /** No argument is a string the validator calls an alias. */
  predicate NoAliases(args: seq<Value>)
  {
    forall j :: 0 <= j < |args| ==> !(args[j].Str? && IsContainerAlias(args[j].s))
  }

  /** `get("container")` is the container itself and changes nothing. */
  lemma GetSelf(env: Env, w: World, self: Value, fuel: nat)
    requires self.Container?
    ensures GetSpec(env, w, self, SelfToken, fuel) == (Success(self), w)
  {
  }

  /** `has` answers true for the self token and every alias on any registry,
      the empty one included. */
  lemma HasEveryAlias(registry: map<string, Entry>, self: Value, name: string)
    requires self.Container? && self.validator.Validator?
    requires IsContainerAlias(name)
    ensures HasSpec(registry, self, name) == Success(true)
    ensures HasSpec(map[], self, SelfToken) == Success(true)
  {
  }

  /** Hence the alias branch of `get` is never taken: an alias that is not
      literally a key gets past `has`, and reading its missing entry throws. */
  lemma GetAliasThatIsNotAKey(env: Env, w: World, self: Value, name: string, fuel: nat)
    requires self.Container? && self.validator.Validator?
    requires IsContainerAlias(name) && name != SelfToken && name !in w.registry
    ensures GetSpec(env, w, self, name, fuel) == (Failure(TypeError), w)
  {
  }

  /** Any other name that is not a key is not found. */
  lemma GetUnknownName(env: Env, w: World, self: Value, name: string, fuel: nat)
    requires self.Container? && self.validator.Validator?
    requires !IsContainerAlias(name) && name !in w.registry
    ensures GetSpec(env, w, self, name, fuel) == (Failure(Thrown(NotFound)), w)
  {
  }

  /** A primitive, or an object whose value is set, is returned as stored,
      with nothing built and nothing called. */
  lemma GetSettledEntry(env: Env, w: World, self: Value, name: string, fuel: nat)
    requires self.Container?
    requires name != SelfToken && name in w.registry && Settled(w.registry[name])
    ensures GetSpec(env, w, self, name, fuel) == (Success(w.registry[name].value), w)
  {
  }

  /** After a successful `get`, the next `get` of the same name returns the
      identical value and changes nothing: no build, no callback. */
  lemma SecondGetIsCached(env: Env, w: World, self: Value, name: string, fuel: nat, fuel': nat)
    requires self.Container?
    requires GetSpec(env, w, self, name, fuel).0.Success?
    ensures var (r, w') := GetSpec(env, w, self, name, fuel);
            GetSpec(env, w', self, name, fuel') == (r, w')
  {
    GetPreserves(env, w, self, name, fuel);
  }

  /** Preparing arguments none of which is an alias keeps them all, in order,
      and changes nothing but the arguments slot. */
  lemma {:induction false} PrepareWithoutAliases(env: Env, w: World, i: nat, prepared: seq<Value>, fuel: nat)
    requires w.builder.typeValidator.Validator?
    requires NoAliases(w.builder.args) && i <= |w.builder.args|
    ensures PrepareFrom(env, w, |w.builder.args|, i, prepared, fuel)
            == (Success(()), w.(builder := w.builder.(args := prepared + w.builder.args[i..])))
    decreases |w.builder.args| - i
  {
    var args := w.builder.args;
    if i < |args| {
      PrepareWithoutAliases(env, w, i + 1, prepared + [args[i]], fuel);
      assert prepared + [args[i]] + args[i + 1..] == prepared + args[i..];
    } else {
      assert prepared + args[i..] == prepared;
    }
  }

  /** Every argument the validator calls an alias is the self token. */
  predicate OnlySelfAliases(args: seq<Value>)
  {
    forall j :: 0 <= j < |args| ==> (args[j].Str? && IsContainerAlias(args[j].s) ==> args[j].s == SelfToken)
  }

  /** The arguments with each self token replaced by the container `c`, in
      their positions. */
  function SelfResolved(args: seq<Value>, c: Value): seq<Value>
  {
    seq(|args|, j requires 0 <= j < |args| => if args[j] == Str(SelfToken) then c else args[j])
  }

  /** When the only aliases are the self token, `get` changes nothing, so the
      nested calls leave the slots alone: every argument keeps its position,
      and each self token becomes the container. */
  lemma {:induction false} PrepareWithSelfAliases(env: Env, w: World, i: nat, prepared: seq<Value>, fuel: nat)
    requires w.builder.typeValidator.Validator? && w.builder.diContainer.Container?
    requires OnlySelfAliases(w.builder.args) && i <= |w.builder.args|
    ensures PrepareFrom(env, w, |w.builder.args|, i, prepared, fuel)
            == (Success(()), w.(builder := w.builder.(args := prepared + SelfResolved(w.builder.args[i..], w.builder.diContainer))))
    decreases |w.builder.args| - i
  {
    var args := w.builder.args;
    var c := w.builder.diContainer;
    if i < |args| {
      var x := if args[i] == Str(SelfToken) then c else args[i];
      if args[i] == Str(SelfToken) {
        assert IsContainerAlias(SelfToken);
        GetSelf(env, w, c, fuel);
      }
      PrepareWithSelfAliases(env, w, i + 1, prepared + [x], fuel);
      assert SelfResolved(args[i..], c) == [x] + SelfResolved(args[i + 1..], c);
      assert prepared + [x] + SelfResolved(args[i + 1..], c) == prepared + SelfResolved(args[i..], c);
    } else {
      assert prepared + SelfResolved(args[i..], c) == prepared;
    }
  }

  /** `build` with arguments that hold no alias: the factory is called once
      with the builder's name and exactly its arguments, then the hook. */
  lemma BuildWithoutAliases(env: Env, w: World, fuel: nat)
    requires w.builder.objectName.Some? && w.builder.objectName.value != ""
    requires Truthy(w.builder.diContainer) && w.builder.typeValidator.Validator?
    requires NoAliases(w.builder.args)
    ensures var n := w.builder.objectName.value;
            var args := w.builder.args;
            BuildSpec(env, w, fuel) ==
              match env.construct(n, args)
              case Fails => (Failure(ConstructionFailed(n)), w)
              case Instance(hook) =>
                var v := Obj(w.nextId, hook);
                (Success(()), w.(builder := w.builder.(createdObject := v),
                                 log := w.log + [Constructed(n, args, v)]
                                              + (if hook then [SetContainerCalled(v, w.builder.diContainer)] else []),
                                 nextId := w.nextId + 1))
  {
    assert BuildPrecondition(w.builder).None?;
    PrepareWithoutAliases(env, w, 0, [], fuel);
    assert [] + w.builder.args[0..] == w.builder.args;
    assert w.(builder := w.builder.(args := w.builder.args)) == w;
    assert PrepareFrom(env, w, |w.builder.args|, 0, [], fuel) == (Success(()), w);
    var n := w.builder.objectName.value;
    match env.construct(n, w.builder.args)
    case Fails =>
    case Instance(hook) =>
      var log1 := w.log + [Constructed(n, w.builder.args, Obj(w.nextId, hook))];
      assert log1 + [] == log1;
  }

  /** The first `get` of an unbuilt object whose arguments hold no alias:
      the factory is called once, with the entry's name and exactly its
      arguments; the instance's `setContainer` hook, when it has one, gets
      the container; the instance is stored as the entry's value; then the
      callback, when there is one, is called once with the container and the
      instance. A throwing callback leaves the instance stored. A failing
      construction stores nothing. */
  lemma GetBuildsOnce(env: Env, w: World, self: Value, name: string, fuel: nat)
    requires self.Container? && self.validator.Validator?
    requires name != SelfToken && name != "" && name in w.registry
    requires w.registry[name].ObjectEntry? && !Truthy(w.registry[name].value)
    requires w.registry[name].with.Arr? && NoAliases(w.registry[name].with.items)
    requires fuel > 0
    ensures var e := w.registry[name];
            var args := e.with.items;
            var (r, w') := GetSpec(env, w, self, name, fuel);
            match env.construct(name, args)
            case Fails =>
              && r == Failure(ConstructionFailed(name)) && w'.registry == w.registry && w'.log == w.log
              && w'.builder == Builder(self, Validator, Some(name), w.builder.createdObject, args)
            case Instance(hook) =>
              var v := Obj(w.nextId, hook);
              && w'.builder == Builder(self, Validator, Some(name), v, args)
              && w'.nextId == w.nextId + 1
              && w'.registry == w.registry[name := ObjectEntry(v, e.autoload, e.with, e.callback)]
              && w'.log == w.log + [Constructed(name, args, v)]
                                 + (if hook then [SetContainerCalled(v, self)] else [])
                                 + (if Truthy(e.callback) then [CallbackCalled(e.callback, self, v)] else [])
              && r == (if Truthy(e.callback) && env.throws(e.callback) then Failure(CallbackThrew) else Success(v))
  {
    assert GetSpec(env, w, self, name, fuel) == MaterialiseSpec(env, w, self, name, fuel);
    MaterialiseBuildsOnce(env, w, self, name, fuel);
  }

  /** The lazy build itself, whatever value the entry holds: one
      construction with the entry's arguments, the hook, the store, then the
      callback. */
  lemma MaterialiseBuildsOnce(env: Env, w: World, self: Value, name: string, fuel: nat)
    requires self.Container? && self.validator.Validator?
    requires name != "" && name in w.registry && w.registry[name].ObjectEntry?
    requires w.registry[name].with.Arr? && NoAliases(w.registry[name].with.items)
    requires fuel > 0
    ensures var e := w.registry[name];
            var args := e.with.items;
            var (r, w') := MaterialiseSpec(env, w, self, name, fuel);
            match env.construct(name, args)
            case Fails =>
              && r == Failure(ConstructionFailed(name)) && w'.registry == w.registry && w'.log == w.log
              && w'.nextId == w.nextId
              && w'.builder == Builder(self, Validator, Some(name), w.builder.createdObject, args)
            case Instance(hook) =>
              var v := Obj(w.nextId, hook);
              && w'.builder == Builder(self, Validator, Some(name), v, args)
              && w'.nextId == w.nextId + 1
              && w'.registry == w.registry[name := ObjectEntry(v, e.autoload, e.with, e.callback)]
              && w'.log == w.log + [Constructed(name, args, v)]
                                 + (if hook then [SetContainerCalled(v, self)] else [])
                                 + (if Truthy(e.callback) then [CallbackCalled(e.callback, self, v)] else [])
              && r == (if Truthy(e.callback) && env.throws(e.callback) then Failure(CallbackThrew) else Success(v))
  {
    var e := w.registry[name];
    var args := e.with.items;
    var b1 := Builder(self, Validator, Some(name), w.builder.createdObject, args);
    var w1 := w.(builder := b1);
    assert SetUp(w.builder, self, e.with, name) == (b1, None);
    assert MaterialiseSpec(env, w, self, name, fuel) == BuildAndStoreSpec(env, w1, self, name, e, fuel - 1);
    BuildWithoutAliases(env, w1, fuel - 1);
    match env.construct(name, args)
    case Fails =>
      assert BuildAndStoreSpec(env, w1, self, name, e, fuel - 1) == (Failure(ConstructionFailed(name)), w1);
    case Instance(hook) =>
      var v := Obj(w.nextId, hook);
      var log2 := w.log + [Constructed(name, args, v)] + (if hook then [SetContainerCalled(v, self)] else []);
      var w2 := w1.(builder := b1.(createdObject := v), log := log2, nextId := w.nextId + 1);
      assert BuildSpec(env, w1, fuel - 1) == (Success(()), w2);
      assert BuildAndStoreSpec(env, w1, self, name, e, fuel - 1) == StoreBuiltSpec(env, w2, self, name, e);
      assert w2.registry[name] == e;
  }

  /** `get` of an unbuilt object entry whose `with` is an array: the
      builder is set up for the entry, built, and the result stored. */
  lemma GetUnbuiltBuilds(env: Env, w: World, self: Value, name: string, fuel: nat)
    requires self.Container? && self.validator.Validator?
    requires name != SelfToken && name != "" && name in w.registry
    requires w.registry[name].ObjectEntry? && !Truthy(w.registry[name].value) && w.registry[name].with.Arr?
    requires fuel > 0
    ensures var w1 := w.(builder := Builder(self, Validator, Some(name), w.builder.createdObject, w.registry[name].with.items));
            GetSpec(env, w, self, name, fuel) == BuildAndStoreSpec(env, w1, self, name, w.registry[name], fuel - 1)
  {
    var e := w.registry[name];
    var b1 := Builder(self, Validator, Some(name), w.builder.createdObject, e.with.items);
    assert SetUp(w.builder, self, e.with, name) == (b1, None);
    assert GetSpec(env, w, self, name, fuel) == MaterialiseSpec(env, w, self, name, fuel);
  }

  /** An argument `"container.Engine"` names the registered key "Engine"
      only in intent: `has` answers true for it, `get` then reads the missing
      key "container.Engine", and building the entry that depends on it
      throws before anything is constructed. */
  lemma AliasArgumentIsNotResolved(env: Env, w: World, self: Value, name: string, fuel: nat)
    requires self.Container? && self.validator.Validator?
    requires name != SelfToken && name != "" && name in w.registry && "container.Engine" !in w.registry
    requires w.registry[name] == ObjectEntry(Null, Bool(false), Arr([Str("container.Engine")]), Null)
    requires fuel > 1
    ensures GetSpec(env, w, self, name, fuel).0 == Failure(TypeError)
    ensures GetSpec(env, w, self, name, fuel).1.log == w.log
  {
    var e := w.registry[name];
    var w1 := w.(builder := Builder(self, Validator, Some(name), w.builder.createdObject, e.with.items));
    GetUnbuiltBuilds(env, w, self, name, fuel);
    assert IsContainerAlias("container.Engine") by { assert AliasPrefix <= "container.Engine"; }
    GetAliasThatIsNotAKey(env, w1, self, "container.Engine", fuel - 1);
    assert PrepareFrom(env, w1, 1, 0, [], fuel - 1) == (Failure(TypeError), w1);
    assert BuildSpec(env, w1, fuel - 1) == (Failure(TypeError), w1);
    assert BuildAndStoreSpec(env, w1, self, name, e, fuel - 1) == (Failure(TypeError), w1);
  }

  /** A registry with a key literally named "container.Engine" and an entry
      "Car" that depends on it, neither built. */
  function CarAndEngine(): World
  {
    World(map["container.Engine" := ObjectEntry(Null, Bool(false), Arr([]), Null),
              "Car" := ObjectEntry(Null, Bool(false), Arr([Str("container.Engine")]), Null)],
          Initial, [], 0)
  }

  /** The builder as `get("Car")` sets it up. */
  function CarBuilder(w: World): World
  {
    w.(builder := Builder(Container(0, Validator), Validator, Some("Car"), w.builder.createdObject,
                          [Str("container.Engine")]))
  }

  /** Preparing Car's argument builds the engine through the shared slots,
      which leaves them holding the engine's name. */
  lemma CarArgumentBuildsEngine(env: Env, fuel: nat)
    requires forall n, a :: env.construct(n, a) == Instance(false)
    requires fuel > 0
    ensures var w1 := CarBuilder(CarAndEngine());
            var e0 := Obj(0, false);
            PrepareFrom(env, w1, 1, 0, [], fuel)
            == (Success(()), World(CarAndEngine().registry["container.Engine" := ObjectEntry(e0, Bool(false), Arr([]), Null)],
                                   Builder(Container(0, Validator), Validator, Some("container.Engine"), e0, [e0]),
                                   [Constructed("container.Engine", [], e0)], 1))
  {
    var self := Container(0, Validator);
    var w1 := CarBuilder(CarAndEngine());
    assert IsContainerAlias("container.Engine") by { assert AliasPrefix <= "container.Engine"; }
    GetBuildsOnce(env, w1, self, "container.Engine", fuel);
    var e0 := Obj(0, false);
    var inner := GetSpec(env, w1, self, "container.Engine", fuel);
    assert inner.0 == Success(e0);
    var wi := inner.1;
    assert At(w1.builder.args, 0) == Str("container.Engine");
    assert CallIsContainerAlias(w1.builder.typeValidator, "container.Engine") == Success(true);
    assert wi.builder == Builder(self, Validator, Some("container.Engine"), e0, []);
    assert wi.log == [] + [Constructed("container.Engine", [], e0)] + [] + [];
    assert wi.log == [Constructed("container.Engine", [], e0)];
    assert wi.nextId == 1;
    assert wi.registry == CarAndEngine().registry["container.Engine" := ObjectEntry(e0, Bool(false), Arr([]), Null)];
    assert PrepareFrom(env, wi, 1, 1, [e0], fuel) == (Success(()), wi.(builder := wi.builder.(args := [e0])));
    assert [] + [e0] == [e0];
    assert PrepareFrom(env, w1, 1, 0, [], fuel) == PrepareFrom(env, wi, 1, 1, [e0], fuel);
  }

  /** The builder slots are shared, so the `get` an alias argument makes
      re-targets the outer build: `get("Car")` constructs "container.Engine"
      twice, the second time with the first instance as argument, and stores
      that second instance under "Car". */
  lemma NestedBuildRetargetsOuterBuild(env: Env, fuel: nat)
    requires forall n, a :: env.construct(n, a) == Instance(false)
    requires fuel > 1
    ensures var (r, w') := GetSpec(env, CarAndEngine(), Container(0, Validator), "Car", fuel);
            && r == Success(Obj(1, false))
            && w'.log == [Constructed("container.Engine", [], Obj(0, false)),
                          Constructed("container.Engine", [Obj(0, false)], Obj(1, false))]
            && "container.Engine" in w'.registry && "Car" in w'.registry
            && w'.registry["container.Engine"].value == Obj(0, false)
            && w'.registry["Car"].value == Obj(1, false)
  {
    var self := Container(0, Validator);
    var w := CarAndEngine();
    var car := w.registry["Car"];
    var w1 := CarBuilder(w);
    assert SetUp(w.builder, self, car.with, "Car") == (w1.builder, None);
    assert GetSpec(env, w, self, "Car", fuel) == MaterialiseSpec(env, w, self, "Car", fuel);
    CarArgumentBuildsEngine(env, fuel - 1);
    var w2 := PrepareFrom(env, w1, 1, 0, [], fuel - 1).1;
    var e1 := Obj(1, false);
    assert env.construct("container.Engine", [Obj(0, false)]) == Instance(false);
    var w3 := w2.(builder := w2.builder.(createdObject := e1),
                  log := w2.log + [Constructed("container.Engine", [Obj(0, false)], e1)], nextId := 2);
    assert BuildSpec(env, w1, fuel - 1) == (Success(()), w3);
    var w4 := StoreBuiltSpec(env, w3, self, "Car", car).1;
    assert BuildAndStoreSpec(env, w1, self, "Car", car, fuel - 1) == StoreBuiltSpec(env, w3, self, "Car", car);
    assert w4.registry == w3.registry["Car" := ObjectEntry(e1, car.autoload, car.with, car.callback)];
  }

  /** "Car" with the arguments `["container.Engine", "x"]`, and the builder
      as `get("Car")` sets it up. */
  function CarWithTwoArguments(): World
  {
    var args := [Str("container.Engine"), Str("x")];
    var w := CarAndEngine();
    w.(registry := w.registry["Car" := ObjectEntry(Null, Bool(false), Arr(args), Null)],
       builder := Builder(Container(0, Validator), Validator, Some("Car"), w.builder.createdObject, args))
  }

  /** After an alias argument has built an entry, the loop reads the
      remaining positions from the inner build's argument list: the
      literal "x" is lost and the position holds `undefined`. */
  lemma ArgumentAfterNestedBuildIsLost(env: Env, fuel: nat)
    requires forall n, a :: env.construct(n, a) == Instance(false)
    requires fuel > 0
    ensures var (r, w') := PrepareFrom(env, CarWithTwoArguments(), 2, 0, [], fuel);
            && r == Success(())
            && w'.builder.args == [Obj(0, false), Undef]
            && w'.builder.objectName == Some("container.Engine")
  {
    var self := Container(0, Validator);
    var w1 := CarWithTwoArguments();
    assert IsContainerAlias("container.Engine") by { assert AliasPrefix <= "container.Engine"; }
    GetBuildsOnce(env, w1, self, "container.Engine", fuel);
    var e0 := Obj(0, false);
    var inner := GetSpec(env, w1, self, "container.Engine", fuel);
    assert inner.0 == Success(e0);
    var wi := inner.1;
    assert At(w1.builder.args, 0) == Str("container.Engine");
    assert CallIsContainerAlias(w1.builder.typeValidator, "container.Engine") == Success(true);
    assert wi.builder == Builder(self, Validator, Some("container.Engine"), e0, []);
    assert At(wi.builder.args, 1) == Undef;
    assert [] + [e0] == [e0];
    assert [e0] + [Undef] == [e0, Undef];
    assert PrepareFrom(env, wi, 2, 1, [e0], fuel) == (Success(()), wi.(builder := wi.builder.(args := [e0, Undef])));
    assert PrepareFrom(env, w1, 2, 0, [], fuel) == PrepareFrom(env, wi, 2, 1, [e0], fuel);
  }

  /** A failed construction leaves the entry unbuilt, so the next `get`
      calls the factory again. */
  lemma FailedBuildIsRetried(env: Env, w: World, self: Value, name: string, fuel: nat)
    requires self.Container? && self.validator.Validator?
    requires name != SelfToken && name != "" && name in w.registry
    requires w.registry[name].ObjectEntry? && !Truthy(w.registry[name].value)
    requires w.registry[name].with.Arr? && NoAliases(w.registry[name].with.items)
    requires fuel > 0
    requires env.construct(name, w.registry[name].with.items).Fails?
    ensures var w' := GetSpec(env, w, self, name, fuel).1;
            GetSpec(env, w', self, name, fuel).0 == Failure(ConstructionFailed(name))
  {
    GetBuildsOnce(env, w, self, name, fuel);
    var w' := GetSpec(env, w, self, name, fuel).1;
    GetBuildsOnce(env, w', self, name, fuel);
  }

  /** `build` checks the name, the container and the validator before it
      resolves any argument: when one is missing nothing else happens. */
  lemma BuildChecksFirst(env: Env, w: World, fuel: nat)
    requires BuildPrecondition(w.builder).Some?
    ensures BuildSpec(env, w, fuel) == (Failure(BuildPrecondition(w.builder).value), w)
  {
  }

  /** A successful preparation hands the constructor exactly as many
      arguments as the array it iterated had. */
  lemma PreparedLength(env: Env, w: World, fuel: nat)
    requires PrepareFrom(env, w, |w.builder.args|, 0, [], fuel).0.Success?
    ensures |PrepareFrom(env, w, |w.builder.args|, 0, [], fuel).1.builder.args| == |w.builder.args|
  {
    PreparePreserves(env, w, |w.builder.args|, 0, [], fuel);
  }

  /** The builder slots are shared: after a `get` that built an object, a
      builder set up afresh for another entry already hands out that object
      from getObject, before its own build. */
  lemma NextBuilderInheritsObject(env: Env, w: World, self: Value, name: string, fuel: nat,
                                  with: Value, other: string)
    requires self.Container? && name != SelfToken && name in w.registry
    requires w.registry[name].ObjectEntry? && !Truthy(w.registry[name].value)
    requires GetSpec(env, w, self, name, fuel).0.Success?
    ensures var (r, w') := GetSpec(env, w, self, name, fuel);
            ReadCreatedObject(SetUp(w'.builder, self, with, other).0) == r
  {
    assert GetSpec(env, w, self, name, fuel) == MaterialiseSpec(env, w, self, name, fuel);
    MaterialisePreserves(env, w, self, name, fuel);
  }

  /** The primitive adders store under the key the value converts to, never
      under the validated name, and change no other key. */
  lemma AddPrimitiveKeyedByValue(registry: map<string, Entry>, self: Value, name: Value, value: Value, kind: Kind)
    requires self.Container?
    ensures AddPrimitiveSpec(registry, self, name, value, kind).Success?
            <==> self.validator.Validator? && name.Str? && name.s != "" && ValueCheck(kind, value).Success?
    ensures AddPrimitiveSpec(registry, self, name, value, kind).Success? ==>
            var r := AddPrimitiveSpec(registry, self, name, value, kind).value;
            && r.Keys == registry.Keys + {KeyOf(value)}
            && r[KeyOf(value)] == PrimitiveEntry(value, kind)
            && forall k :: k in registry && k != KeyOf(value) ==> r[k] == registry[k]
  {
  }

  /** `addString('Lorem', 'Ipsum')` stores under "Ipsum"; `get('Lorem')`
      then fails on a registry without "Lorem". */
  lemma AddStringIgnoresName(env: Env, w: World, self: Value, fuel: nat)
    requires self.Container? && self.validator.Validator?
    requires "Lorem" !in w.registry && "Lorem" != "Ipsum"
    ensures var r := AddPrimitiveSpec(w.registry, self, Str("Lorem"), Str("Ipsum"), StringKind);
            && r.Success?
            && r.value["Ipsum"] == PrimitiveEntry(Str("Ipsum"), StringKind)
            && GetSpec(env, w.(registry := r.value), self, "Lorem", fuel) == (Failure(Thrown(NotFound)), w.(registry := r.value))
  {
    var r := AddPrimitiveSpec(w.registry, self, Str("Lorem"), Str("Ipsum"), StringKind);
    assert "Lorem" !in r.value;
    assert !IsContainerAlias("Lorem") by { assert "Lorem"[0] != "container."[0]; }
    GetUnknownName(env, w.(registry := r.value), self, "Lorem", fuel);
  }

  /** `addNumber('Pi', 3.14)` throws; `addBoolean('True', true)` stores
      under "true". */
  lemma DemoPrimitives(registry: map<string, Entry>, self: Value)
    requires self.Container? && self.validator.Validator?
    ensures AddPrimitiveSpec(registry, self, Str("Pi"), Num(3.14), NumberKind) == Failure(Thrown(NumberNotIntegral))
    ensures AddPrimitiveSpec(registry, self, Str("True"), Bool(true), BooleanKind)
            == Success(registry["true" := PrimitiveEntry(Bool(true), BooleanKind)])
  {
    assert (3.14).Floor == 3;
  }

  /** addObjectWithInstance followed by `get` returns the instance itself,
      with nothing built and nothing called. */
  lemma InstanceIsReturnedAsIs(env: Env, w: World, self: Value, name: string, instance: Value, fuel: nat)
    requires self.Container? && name != SelfToken
    requires AddObjectWithInstanceSpec(w.registry, self, Str(name), instance).Success?
    ensures var w' := w.(registry := AddObjectWithInstanceSpec(w.registry, self, Str(name), instance).value);
            GetSpec(env, w', self, name, fuel) == (Success(instance), w')
  {
  }

  /** addObject without autoload stores the completed configuration under
      the name, replacing any earlier entry, and builds nothing. */
  lemma AddObjectStoresConfig(env: Env, w: World, self: Value, name: string, configs: Option<ConfigFields>, fuel: nat)
    requires self.Container? && self.validator.Validator? && name != ""
    requires var f := CheckConfig(if configs.Some? then configs.value else NoFields);
             f.error.None? && f.fields.autoload == Some(Bool(false))
    ensures var f := CheckConfig(if configs.Some? then configs.value else NoFields).fields;
            AddObjectSpec(env, w, self, Str(name), configs, fuel)
            == (Success(()), w.(registry := w.registry[name := ObjectEntry(f.value.value, Bool(false), f.with.value, f.callback.value)]))
  {
  }

  /** After addObject with autoload succeeds, `get` builds nothing more: it
      returns the stored object and changes nothing. */
  lemma AutoloadThenGet(env: Env, w: World, self: Value, name: string, configs: Option<ConfigFields>, fuel: nat, fuel': nat)
    requires self.Container? && name != SelfToken
    requires CheckConfig(if configs.Some? then configs.value else NoFields).fields.autoload == Some(Bool(true))
    requires AddObjectSpec(env, w, self, Str(name), configs, fuel).0.Success?
    ensures var w' := AddObjectSpec(env, w, self, Str(name), configs, fuel).1;
            name in w'.registry && Truthy(w'.registry[name].value)
            && GetSpec(env, w', self, name, fuel') == (Success(w'.registry[name].value), w')
  {
    var f := CheckConfig(if configs.Some? then configs.value else NoFields).fields;
    var w1 := w.(registry := w.registry[name := ObjectEntry(f.value.value, f.autoload.value, f.with.value, f.callback.value)]);
    MaterialisePreserves(env, w1, self, name, fuel);
  }

  /** addObject with autoload stores the completed configuration and then
      runs the lazy build on it at once, whether or not the configuration
      supplied a value; a failed build leaves the configuration stored. */
  lemma AddObjectAutoloadBuilds(env: Env, w: World, self: Value, name: string, configs: Option<ConfigFields>, fuel: nat)
    requires self.Container? && self.validator.Validator? && name != ""
    requires var c := CheckConfig(if configs.Some? then configs.value else NoFields);
             c.error.None? && c.fields.autoload == Some(Bool(true))
    ensures var f := CheckConfig(if configs.Some? then configs.value else NoFields).fields;
            var w1 := w.(registry := w.registry[name := ObjectEntry(f.value.value, Bool(true), f.with.value, f.callback.value)]);
            var (built, w2) := MaterialiseSpec(env, w1, self, name, fuel);
            AddObjectSpec(env, w, self, Str(name), configs, fuel)
            == (if built.Success? then Success(()) else Failure(built.error), w2)
  {
  }

  /** With autoload and arguments that name no alias, addObject constructs
      the object once during the call, calls its hook, stores it over any
      supplied value, then calls the callback once. */
  lemma AutoloadBuildsAtRegistration(env: Env, w: World, self: Value, name: string, configs: Option<ConfigFields>, fuel: nat)
    requires self.Container? && self.validator.Validator? && name != ""
    requires var c := CheckConfig(if configs.Some? then configs.value else NoFields);
             && c.error.None? && c.fields.autoload == Some(Bool(true))
             && c.fields.with.value.Arr? && NoAliases(c.fields.with.value.items)
    requires fuel > 0
    ensures var f := CheckConfig(if configs.Some? then configs.value else NoFields).fields;
            var args := f.with.value.items;
            var stored := ObjectEntry(f.value.value, Bool(true), f.with.value, f.callback.value);
            var (r, w') := AddObjectSpec(env, w, self, Str(name), configs, fuel);
            match env.construct(name, args)
            case Fails =>
              && r == Failure(ConstructionFailed(name))
              && w'.registry == w.registry[name := stored] && w'.log == w.log && w'.nextId == w.nextId
            case Instance(hook) =>
              var v := Obj(w.nextId, hook);
              && w'.registry == w.registry[name := ObjectEntry(v, Bool(true), f.with.value, f.callback.value)]
              && w'.nextId == w.nextId + 1
              && w'.log == w.log + [Constructed(name, args, v)]
                                 + (if hook then [SetContainerCalled(v, self)] else [])
                                 + (if Truthy(stored.callback) then [CallbackCalled(stored.callback, self, v)] else [])
              && r == (if Truthy(stored.callback) && env.throws(stored.callback) then Failure(CallbackThrew) else Success(()))
  {
    var f := CheckConfig(if configs.Some? then configs.value else NoFields).fields;
    var w1 := w.(registry := w.registry[name := ObjectEntry(f.value.value, Bool(true), f.with.value, f.callback.value)]);
    AddObjectAutoloadBuilds(env, w, self, name, configs, fuel);
    MaterialiseBuildsOnce(env, w1, self, name, fuel);
  }

  /** A `with` that is a string passes validation, so addObject stores it;
      the `get` that builds the entry then throws in the builder's setter. */
  lemma StringWithFailsOnlyAtBuild(env: Env, w: World, self: Value, name: string, fuel: nat)
    requires self.Container? && self.validator.Validator? && name != "" && name != SelfToken
    requires fuel > 0
    ensures var cfg := ConfigFields(None, None, Some(Str("not-a-list")), None);
            var (r, w') := AddObjectSpec(env, w, self, Str(name), Some(cfg), fuel);
            && r.Success?
            && w'.registry == w.registry[name := ObjectEntry(Null, Bool(false), Str("not-a-list"), Null)]
            && GetSpec(env, w', self, name, fuel).0 == Failure(Thrown(ArgsNotArray))
  {
  }
}
