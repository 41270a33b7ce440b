# JavaScript DI container, modelled in Dafny

This project models a small dependency-injection container for JavaScript, made of three scripts.

- `DiContainer` keeps one registry of named items, shared by every container instance: booleans, strings, numbers and objects.
  - `get` returns a stored primitive as it is.
  - `get` returns the container itself for the name `"container"`.
  - For an object entry that has no value yet, `get` builds the object through the builder. It then caches it as the entry's value and calls the entry's callback with the container and the object.
- `DiContainerObjectBuilder` holds five slots: container, type validator, object name, constructor arguments and created object. These slots are closure variables of the prototype, so every builder instance shares them.
  - `build` checks the slots, then replaces every argument that is a container alias with `container.get(alias)`.
  - It then instantiates `new <name>(args...)`, calls the instance's `setContainer` hook when there is one, and remembers the instance.
- `DiContainerTypeValidator` checks item names, primitive values and object configurations, and recognises aliases. Its configuration check fills defaults into the configuration object it is given.

## Structure

- `js_values.dfy` (`JsValues`): the JavaScript values the scripts handle, `typeof` and truthiness, and the exceptions.
  - Foreign code is an `Env`. It holds the constructors `eval` would reach and says which callbacks throw.
  - The calls made into foreign code are recorded as a log of `Event`s.
- `property_keys.dfy` (`PropertyKeys`): `KeyOf`, the string a value becomes when it indexes an object.
- `type_validator.dfy` (`TypeValidator`):
  - the pure checks;
  - the configuration check, as the specification function `CheckConfig` and as a method that fills a `ConfigObject` in place.
- `object_builder.dfy` (`ObjectBuilder`): the shared builder slots.
  - `Builder` is their value at one moment. `BuilderPrototype` is the object that holds them.
  - The setters are pure steps on `Builder`, and methods that are proved against those steps.
- `container.dfy` (`Container`): the registry and `get`/`build`, which call each other.
  - Each operation is a specification function over a snapshot of the whole state, `World`: registry, builder slots, event log and the next object identity.
  - Each operation is also a method over the objects that hold that state: `ContainerPrototype`, `BuilderPrototype` and `Host`.
  - Each method's postcondition equates its result and new state with its specification function.
- `alias_path.dfy` (`AliasPath`): the dotted-path helper `_getValueFromContainerByAlias`, with its loop.
- `container_invariants.dfy` (`ContainerInvariants`): what `get`, the lazy build, `build` and argument preparation never do to the registry, proved together by induction along their mutual recursion.
- `container_properties.dfy` (`ContainerProperties`): what `get`, `build` and the adders promise, stated over the specification functions.

Recursion between `get` and `build` is bounded by a `fuel` argument. When the fuel runs out, the result is `RecursionLimit`, which stands for the engine's stack overflow.

Behaviour the model keeps as the code has it:

- `has(n)` is true for every alias. So the alias branch of `get` (di-container.js:98-99) is dead. `get("container.X")` reads the key `"container.X"` literally and throws a TypeError when that key is absent. A dependency written as `"container.Engine"` therefore never reaches the entry `"Engine"` (`AliasArgumentIsNotResolved`).
- The primitive adders validate the name and then store under the key of the VALUE (di-container.js:131, 147, 163). `addString('Lorem', 'Ipsum')` stores under `"Ipsum"`. `addBoolean('True', true)` stores under `"true"`. `addNumber('Pi', 3.14)` throws.
- The builder slots are shared. A nested `get` made while arguments are prepared overwrites the name the outer `build` is about to instantiate (`NestedBuildRetargetsOuterBuild`). A new builder also hands out the previous build's object before its own build (`NextBuilderInheritsObject`).
- The `for ... in` loop of `_prepareConstructorArguments` iterates the array it started with. Each element, however, is read from the current arguments slot. After an alias argument has built an entry, the later positions are therefore read from that inner build's arguments (`ArgumentAfterNestedBuildIsLost`). Order is kept when the only alias is `"container"` (`PrepareWithSelfAliases`).
- `!x instanceof T` negates `x` first and is always false. So `setDiContainer`, `setTypeValidator` and the `DiContainer` constructor accept any object.
- The configuration check's object-type test `!typeof configs === 'object'` negates the `typeof` string, giving `false`, and compares that with a string. So it never throws, and a truthy configuration of any type gets past it.
- The configuration check accepts a `with` that is not an object, such as a string. The failure comes only when the entry is built (`StringWithFailsOnlyAtBuild`). A `null` `with` throws a TypeError on `null.constructor`.
- Validating a configuration is idempotent only when its callback is a function. The default callback `null` is rejected the second time (`CheckConfigIdempotent`, `DefaultCallbackRejectedOnRevalidation`).

## Model

| member | source | states |
|---|---|---|
| PropertyKeys.KeyOf | di-container.js:131-133 | a validated value indexes the registry as its string form: the string itself, "true"/"false", "null", or the integer's decimal digits |
| PropertyKeys.ParseNatToDecimal | di-container.js:163-165 | the decimal key of a natural number reads back as that number |
| PropertyKeys.IntToDecimalInjective | di-container.js:163-165 | distinct integers get distinct keys |
| PropertyKeys.KeyOfNumbersInjective | di-container.js:163-165 | two integral numbers share a registry key only when they are equal |
| PropertyKeys.NumberAndStringKeysCollide | di-container.js:147-149 | the number 5 and the string "5" write the same key |
| TypeValidator.ValidateContainerItemName | di-container-type-validator.js:20-28 | succeeds, returning its input, exactly for non-empty strings; a non-string is rejected with the type message, the empty string with the empty message |
| TypeValidator.ValidateContainerNumberItem | di-container-type-validator.js:87-93 | a number passes exactly when it is integral; booleans and null pass, since `%` makes them 0 or 1; undefined, functions and non-array objects are rejected; strings and arrays are not modelled; whatever passes is returned unchanged and can be a key |
| TypeValidator.ValidateContainerStringItem | di-container-type-validator.js:101-107 | succeeds exactly on strings, returning them; otherwise throws the string message |
| TypeValidator.ValidateContainerBooleanItem | di-container-type-validator.js:115-121 | succeeds exactly on booleans, returning them; otherwise throws the boolean message |
| TypeValidator.AliasShape | di-container-type-validator.js:129-131 | a string is an alias iff it is "container" or starts with "container" followed by a dot |
| TypeValidator.IsContainerAlias | di-container-type-validator.js:129-131 | the alias test; it has no contract of its own, and AliasShape and AliasExamples state what it accepts |
| TypeValidator.AliasExamples | di-container-type-validator.js:129-131 | "container", "container.Engine" and "container." are aliases; "containerX", "Container" and "" are not |
| TypeValidator.CallIsContainerAlias | di-container-type-validator.js:129-131 | a validator answers the alias test; any other object in its place makes the call throw a TypeError |
| TypeValidator.CheckConfig | di-container-type-validator.js:36-79 | no error iff every present field is acceptable (value an object or null, autoload a boolean, with not a non-array object, callback a function); then the result is complete, present fields are kept and missing ones get null, false, [] and null |
| TypeValidator.CheckConfigIdempotent | di-container-type-validator.js:45-78 | validating an accepted configuration again returns it unchanged when its callback is a function, and otherwise rejects the callback |
| TypeValidator.DefaultCallbackRejectedOnRevalidation | di-container-type-validator.js:74-76 | the all-defaults configuration fails a second validation on its null callback |
| TypeValidator.WithAcceptsNonObjects | di-container-type-validator.js:61-65 | a string or a number `with` is accepted; an object that is not an array is rejected |
| TypeValidator.ValidateContainerObjectConfig | di-container-type-validator.js:36-79 | a falsy argument becomes a fresh object with the defaults; otherwise the argument's fields become those CheckConfig gives (defaults filled in up to the first rejected field) and the argument itself is returned, or the error is thrown |
| ObjectBuilder.ApplySetDiContainer | di-container-object-builder.js:85-93 | accepts exactly the truthy objects and stores them in the container slot; a falsy argument and a non-object are rejected with their messages |
| ObjectBuilder.ApplySetTypeValidator | di-container-object-builder.js:100-108 | accepts exactly the truthy objects and stores them in the validator slot; the two rejections carry their messages |
| ObjectBuilder.ApplySetObjectName | di-container-object-builder.js:115-123 | accepts exactly the non-empty strings; the empty message comes first, then the type message |
| ObjectBuilder.ApplySetObjectConstructorArguments | di-container-object-builder.js:130-136 | accepts exactly the arrays and stores their items; null throws a TypeError, everything else the array message |
| ObjectBuilder.BuildPrecondition | di-container-object-builder.js:143-154 | build may go on iff name, container and validator are set; they are checked in that order |
| ObjectBuilder.ReadCreatedObject | di-container-object-builder.js:183-189 | getObject succeeds iff an object was created, returning it; otherwise throws the not-built message |
| ObjectBuilder.SettersKeepCreatedObject | di-container-object-builder.js:85-136 | no setter changes what getObject returns |
| ObjectBuilder.BuilderPrototype.SetDiContainer | di-container-object-builder.js:85-93 | the shared slots change as ApplySetDiContainer says, and not at all when it throws |
| ObjectBuilder.BuilderPrototype.SetTypeValidator | di-container-object-builder.js:100-108 | the shared slots change as ApplySetTypeValidator says, and not at all when it throws |
| ObjectBuilder.BuilderPrototype.SetObjectName | di-container-object-builder.js:115-123 | the shared slots change as ApplySetObjectName says, and not at all when it throws |
| ObjectBuilder.BuilderPrototype.SetObjectConstructorArguments | di-container-object-builder.js:130-136 | the shared slots change as ApplySetObjectConstructorArguments says, and not at all when it throws |
| ObjectBuilder.BuilderPrototype.GetObject | di-container-object-builder.js:183-189 | returns what ReadCreatedObject gives for the current slots |
| ObjectBuilder.BuilderPrototype.constructor | di-container-object-builder.js:20-52 | the slots start out empty |
| Container.NewDiContainer | di-container.js:8-20 | succeeds iff the argument is a truthy object, and keeps it as the instance's validator; a falsy argument throws the not-set message |
| Container.HasSpec | di-container.js:79-81 | with a validator, true iff the name is a key or an alias; a key is found without asking the validator |
| Container.GetSpec | di-container.js:88-121 | get: self token, `has`, the literal key, the lazy build; no contract of its own, GetPreserves, GetSelf, GetAliasThatIsNotAKey, GetUnknownName, GetSettledEntry, SecondGetIsCached and GetBuildsOnce state its properties |
| Container.MaterialiseSpec | di-container.js:107-118 | the lazy build: set up a builder for the entry, build, store, call back; no contract of its own, MaterialisePreserves and MaterialiseBuildsOnce state its properties |
| Container.BuildAndStoreSpec | di-container.js:114-117 | build, then store the created object; no contract of its own, BuildAndStorePreserves states its properties |
| Container.BuildSpec | di-container-object-builder.js:143-176 | build; no contract of its own, BuildPreserves, BuildWithoutAliases and BuildChecksFirst state its properties |
| Container.PrepareFrom | di-container-object-builder.js:59-76 | the argument loop from position i; no contract of its own, PreparePreserves, PrepareWithoutAliases, PrepareWithSelfAliases, PreparedLength and ArgumentAfterNestedBuildIsLost state its properties |
| Container.AddObjectSpec | di-container.js:177-196 | addObject; no contract of its own, AddObjectStoresConfig, AddObjectAutoloadBuilds, AutoloadBuildsAtRegistration, AutoloadThenGet and StringWithFailsOnlyAtBuild state its properties |
| ContainerInvariants.GetPreserves | di-container.js:88-121 | get only fills in entry values: no key is added or removed, every entry keeps its shape, a settled entry is unchanged, the log only grows; on success the entry holds the returned value and is settled |
| Container.SetUp | di-container.js:108-112 | the four setters succeed iff `with` is an array, the validator an object and the name non-empty, and then the slots hold exactly container, validator, name and arguments; the created object is untouched |
| ContainerInvariants.MaterialisePreserves | di-container.js:107-118 | the lazy build changes only the entry's value among the settled entries, keeps keys and shapes, and on success stores and returns a truthy object that is also the builder's created object |
| ContainerInvariants.BuildAndStorePreserves | di-container.js:114-117 | building and storing an unbuilt entry keeps the same invariants as the lazy build |
| Container.StoreBuiltSpec | di-container.js:114-117 | the built object is stored in the entry before the callback runs, so a throwing callback leaves it stored; the callback is logged once with the container and the object |
| ContainerInvariants.BuildPreserves | di-container-object-builder.js:143-176 | build keeps the registry's keys and settled entries and only grows the log; a success leaves a fresh object, the last identity handed out, in the created-object slot |
| ContainerInvariants.PreparePreserves | di-container-object-builder.js:59-76 | a successful preparation leaves as many arguments as the loop iterated, prefixed by those already prepared, and keeps the registry invariants |
| Container.ValueCheck | di-container-type-validator.js:87-121 | the value check of each kind: booleans exactly for addBoolean, strings exactly for addString, integral numbers among numbers for addNumber; what passes is the value itself, and it can be a key |
| Container.AddPrimitiveSpec | di-container.js:129-169 | succeeds iff there is a validator, the name is valid and the kind's value check passes; then the entry is stored under KeyOf(value); otherwise it fails with a TypeError, the name error or the value error, checked in that order |
| Container.AddObjectWithInstanceSpec | di-container.js:204-219 | succeeds iff the name is a non-empty string and the instance a truthy object; then the name maps to an already built entry with autoload false, with [] and callback null, and no other key changes |
| Container.ContainerPrototype.Has | di-container.js:79-81 | returns HasSpec of the shared registry |
| Container.ContainerPrototype.constructor | di-container.js:46 | the shared registry starts out empty |
| Container.ContainerPrototype.Get | di-container.js:88-121 | result and new registry, builder slots and log are those GetSpec gives |
| Container.ContainerPrototype.Materialise | di-container.js:107-118 | result and new state are those MaterialiseSpec gives |
| Container.BuildAndStore | di-container.js:114-117 | result and new state are those BuildAndStoreSpec gives |
| Container.StoreBuilt | di-container.js:114-117 | result and new state are those StoreBuiltSpec gives |
| Container.ContainerPrototype.AddPrimitive | di-container.js:129-169 | the registry becomes AddPrimitiveSpec's, or stays as it was when that throws |
| Container.ContainerPrototype.AddBoolean | di-container.js:129-137 | AddPrimitive for booleans |
| Container.ContainerPrototype.AddString | di-container.js:145-153 | AddPrimitive for strings |
| Container.ContainerPrototype.AddNumber | di-container.js:161-169 | AddPrimitive for numbers |
| Container.ContainerPrototype.AddObject | di-container.js:177-196 | the configuration object is filled in as CheckConfig says, and result and new state are those AddObjectSpec gives; what that means for autoload is AddObjectAutoloadBuilds and AutoloadBuildsAtRegistration |
| Container.ContainerPrototype.AddObjectWithInstance | di-container.js:204-219 | the registry becomes AddObjectWithInstanceSpec's, or stays as it was when that throws |
| Container.SetUpBuilder | di-container.js:108-112 | the builder slots become SetUp's and the error is SetUp's |
| Container.Build | di-container-object-builder.js:143-176 | result and new state are those BuildSpec gives |
| Container.PrepareConstructorArguments | di-container-object-builder.js:59-76 | result and new state are those PrepareFrom gives from the first argument |
| AliasPath.Split | di-container.js:55 | the split is never empty and no part holds a dot |
| AliasPath.JoinSplit | di-container.js:55 | joining the parts with dots gives the alias back |
| AliasPath.Walk | di-container.js:57-66 | the path walk over own properties; no contract of its own, ValueByAlias's loop is proved equal to it |
| AliasPath.ResolveAlias | di-container.js:54-69 | the walk from `{container: registry}` followed by `.value`; no contract of its own, ResolveRegisteredKey and ResolveMissingKey state its properties |
| AliasPath.ValueByAlias | di-container.js:54-69 | the loop returns what walking the path from `{container: registry}` and reading `.value` gives |
| AliasPath.ResolveRegisteredKey | di-container.js:54-69 | "container.k" for a registered key k without dots resolves to that entry's value |
| AliasPath.ResolveMissingKey | di-container.js:58-62 | "container.k" for an unregistered k throws the invalid-dependency message naming k |
| ContainerProperties.GetSelf | di-container.js:90-92 | get("container") returns the container and changes nothing |
| ContainerProperties.HasEveryAlias | di-container.js:79-81 | has is true for every alias, and for "container" on an empty registry |
| ContainerProperties.GetAliasThatIsNotAKey | di-container.js:96-107 | get of an alias that is not literally a key throws a TypeError and changes nothing |
| ContainerProperties.GetUnknownName | di-container.js:96-102 | get of any other unregistered name throws "Value in container not found" and changes nothing |
| ContainerProperties.GetSettledEntry | di-container.js:107-120 | a primitive, or an object whose value is set, is returned as stored with nothing built or called |
| ContainerProperties.SecondGetIsCached | di-container.js:107-120 | after a successful get, the next get of the same name returns the identical value and changes nothing |
| ContainerProperties.PrepareWithoutAliases | di-container-object-builder.js:59-76 | arguments without aliases are kept in order and only the arguments slot changes |
| ContainerProperties.PrepareWithSelfAliases | di-container-object-builder.js:59-76 | when the only alias among the arguments is "container", every argument keeps its position and each "container" becomes the container; only the arguments slot changes |
| ContainerProperties.BuildWithoutAliases | di-container-object-builder.js:143-176 | without aliases, build calls the factory once with the name and exactly the arguments, then the hook when the instance has one, and stores the instance; a failing factory changes nothing |
| ContainerProperties.GetUnbuiltBuilds | di-container.js:107-118 | get of an unbuilt object entry sets up the builder for that entry, builds, then stores and calls back |
| ContainerProperties.GetBuildsOnce | di-container.js:107-118 | the first get of an unbuilt alias-free entry: one construction with the entry's name and arguments, the hook, the value stored, then one callback with container and value; a throwing callback leaves the value stored; a failing build stores nothing |
| ContainerProperties.MaterialiseBuildsOnce | di-container.js:108-117 | the lazy build of an object entry with alias-free arguments, whatever value the entry holds: one construction, the hook, the store, then one callback; a failing construction changes only the builder slots |
| ContainerProperties.FailedBuildIsRetried | di-container.js:114 | for an entry whose arguments hold no alias: after a failed construction the entry is still unbuilt and the next get constructs again |
| ContainerProperties.AliasArgumentIsNotResolved | di-container-object-builder.js:64-66 | an argument "container.Engine" with no key of that literal name makes the dependent get throw a TypeError before anything is constructed |
| ContainerProperties.CarArgumentBuildsEngine | di-container-object-builder.js:59-76 | resolving the argument builds the entry it names through the shared slots, which then hold that entry's name |
| ContainerProperties.NestedBuildRetargetsOuterBuild | di-container-object-builder.js:156-164 | with keys "container.Engine" and "Car", get("Car") constructs "container.Engine" twice, the second time with the first instance, and stores the second under "Car" |
| ContainerProperties.ArgumentAfterNestedBuildIsLost | di-container-object-builder.js:62-63 | after an alias argument builds an entry, the later positions are read from the inner build's arguments: "Car" with ["container.Engine", "x"] gets [the engine, undefined] and the slots name "container.Engine" |
| ContainerProperties.BuildChecksFirst | di-container-object-builder.js:143-156 | when a slot is missing, build throws its message and nothing else happens |
| ContainerProperties.PreparedLength | di-container-object-builder.js:158-163 | the constructor gets exactly as many arguments as the list had |
| ContainerProperties.NextBuilderInheritsObject | di-container-object-builder.js:20-52 | after a get that built, a builder set up anew already hands out that object |
| ContainerProperties.AddPrimitiveKeyedByValue | di-container.js:129-169 | a primitive add succeeds iff the name is a non-empty string and the value passes its check; a success writes exactly the key of the value and changes no other key |
| ContainerProperties.AddStringIgnoresName | di-container.js:145-153 | addString('Lorem', 'Ipsum') stores under "Ipsum", and get('Lorem') is then not found |
| ContainerProperties.DemoPrimitives | di-container.js:129-169 | addNumber('Pi', 3.14) throws; addBoolean('True', true) stores under "true" |
| ContainerProperties.InstanceIsReturnedAsIs | di-container.js:204-219 | after addObjectWithInstance, get returns the instance with nothing built or called |
| ContainerProperties.AddObjectStoresConfig | di-container.js:177-184 | without autoload, addObject stores the completed configuration under the name, replacing any earlier entry, and builds nothing |
| ContainerProperties.AutoloadThenGet | di-container.js:184-195 | after addObject with autoload succeeds, the entry holds a value and get returns it changing nothing |
| ContainerProperties.AddObjectAutoloadBuilds | di-container.js:181-195 | with autoload, addObject stores the completed configuration and runs the lazy build on it during the call, even when the configuration supplied a value; the result is that build's |
| ContainerProperties.AutoloadBuildsAtRegistration | di-container.js:184-195 | with autoload and alias-free arguments, addObject constructs the object once, calls its hook, stores it over any supplied value, then calls the callback once; a failed construction leaves the configuration stored and throws |
| ContainerProperties.StringWithFailsOnlyAtBuild | di-container.js:177-196 | addObject accepts `with: "not-a-list"`; the get that builds it then throws the arguments message |

## Left out

- `eval` of `new <name>(...)` becomes `Env.construct`, a factory from a name and arguments to an instance or a failure. A constructor that throws and the never-taken falsy-instance check both become `ConstructionFailed`.
- User callbacks and `setContainer` hooks are recorded as events only. Callbacks may throw (`Env.throws`). Hooks never throw, and neither callbacks nor hooks call back into the container.
- Numbers are exact reals: IEEE-754 rounding, NaN, infinities and -0 are not modelled.
- PropertyKeys.KeyOf: writes every integral number in plain decimal. JavaScript switches to exponent notation from 1e21 on.
- TypeValidator.ValidateContainerNumberItem: how `%` coerces a string or an array is not modelled. Such values give `Unmodelled` instead of the source's accept or reject.
- A truthy configuration that is not an object, such as a string, is not modelled; configurations are `ConfigFields` or absent.
- The configuration object is stored as the entry itself in the source, so the caller's object and the registry entry are aliased. The model copies the fields into the entry. The extra property `type: 'object'` is the `ObjectEntry` constructor.
- Registry keys that collide with `Object.prototype` properties, such as `hasOwnProperty` or `__proto__`, are not modelled.
- The fuel bound stands for the engine's stack limit: an entry whose build depends on itself ends in `RecursionLimit`, not a RangeError.
- A non-validator object in a container's `typeValidator` property makes every call the container makes on it throw a TypeError in the model: the adders' `validateContainerItemName`, the value and configuration checks, the alias test in `has` and the builder's `isContainerAlias`. A non-container object in the builder's container slot likewise makes its `get` throw a TypeError. The source would call whatever methods of those names the object has.
- Container.GetSpec: the dead alias branch of `get` (di-container.js:98-99) is never reached. The path walk it would call is modelled on its own as `AliasPath.ValueByAlias`.
- ContainerProperties.FailedBuildIsRetried: stated only for an entry whose arguments hold no alias. With alias arguments the nested gets can retarget the shared builder slots, so which name the failing construction used, and what the retry constructs, depends on those nested entries. The general case is not proved.
- AliasPath.OwnProperty: the walk sees the registry and its entries as records. Properties of other objects reached along a path read as absent.
- test.js is a console demo and is not modelled. Its expected outputs for Pi, True and Lorem disagree with the code; the model follows the code (`DemoPrimitives`, `AddStringIgnoresName`).
