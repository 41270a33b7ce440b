// DiContainerObjectBuilder. Its five private variables are closure variables
// of the prototype, so every builder instance reads and writes the same five
// slots: `new DiContainerObjectBuilder()` creates nothing of its own. The
// slots are the class BuilderPrototype below; `Builder` is their value at one
// moment. The setters and getObject are here; `build` resolves aliases
// through the container's `get`, which builds in turn, so it lives in module
// Container beside `get`.

module ObjectBuilder {
  import opened JsValues

  const ContainerEmpty := "Dependency container can not be empty"
  const ContainerWrongType := "Given argument not instance of DiContainer"
  const ValidatorEmpty := "Type validator can not be empty"
  const ValidatorWrongType := "Given argument not instance of TypeValidator"
  const NameEmpty := "Object name can't be empty"
  const NameNotString := "Object name should be string type instance"
  const ArgsNotArray := "Object constructor arguments list should be Array type instance"
  const BuildWithoutName := "Before build object set object name"
  const BuildWithoutContainer := "Before build object set DiContainer"
  const BuildWithoutValidator := "Before build object set TypeValidator"
  const NotBuilt := "Before getting object - build it"

  /** The shared slots `_diContainer`, `_typeValidator`, `_objectName`,
      `_createdObject` and `_objectConstructArgs`. */
  datatype Builder = Builder(diContainer: Value, typeValidator: Value, objectName: Option<string>,
                             createdObject: Value, args: seq<Value>)

  /** The slots as the script leaves them when it is loaded. */
  const Initial := Builder(Null, Null, None, Null, [])

  /** setDiContainer: rejects a falsy argument, then a non-object. Its
      `!x instanceof DiContainer` test negates `x` before `instanceof`, so it
      is always false and any object is accepted. */
  function ApplySetDiContainer(b: Builder, x: Value): (r: Result<Builder>)
    ensures r.Success? <==> Truthy(x) && TypeOf(x) == "object"
    ensures r.Success? ==> r.value == b.(diContainer := x)
    ensures !Truthy(x) ==> r == Failure(Thrown(ContainerEmpty))
    ensures Truthy(x) && TypeOf(x) != "object" ==> r == Failure(Thrown(ContainerWrongType))
  {
    if !Truthy(x) then Failure(Thrown(ContainerEmpty))
    else if TypeOf(x) != "object" then Failure(Thrown(ContainerWrongType))
    else Success(b.(diContainer := x))
  }

  /** setTypeValidator: the same two checks, for the validator slot. */
  function ApplySetTypeValidator(b: Builder, x: Value): (r: Result<Builder>)
    ensures r.Success? <==> Truthy(x) && TypeOf(x) == "object"
    ensures r.Success? ==> r.value == b.(typeValidator := x)
    ensures !Truthy(x) ==> r == Failure(Thrown(ValidatorEmpty))
    ensures Truthy(x) && TypeOf(x) != "object" ==> r == Failure(Thrown(ValidatorWrongType))
  {
    if !Truthy(x) then Failure(Thrown(ValidatorEmpty))
    else if TypeOf(x) != "object" then Failure(Thrown(ValidatorWrongType))
    else Success(b.(typeValidator := x))
  }

  /** setObjectName: rejects a falsy argument (the empty string among them),
      then a non-string; so it accepts exactly the non-empty strings. */
  function ApplySetObjectName(b: Builder, x: Value): (r: Result<Builder>)
    ensures r.Success? <==> x.Str? && x.s != ""
    ensures r.Success? ==> r.value == b.(objectName := Some(x.s))
    ensures !Truthy(x) ==> r == Failure(Thrown(NameEmpty))
    ensures Truthy(x) && !x.Str? ==> r == Failure(Thrown(NameNotString))
  {
    if !Truthy(x) then Failure(Thrown(NameEmpty))
    else if TypeOf(x) != "string" then Failure(Thrown(NameNotString))
    else Success(b.(objectName := Some(x.s)))
  }

  /** setObjectConstructorArguments: accepts exactly the arrays; `null` passes
      the `typeof` test and then throws on `null.constructor`. */
  function ApplySetObjectConstructorArguments(b: Builder, x: Value): (r: Result<Builder>)
    ensures r.Success? <==> x.Arr?
    ensures r.Success? ==> r.value == b.(args := x.items)
    ensures x.Null? ==> r == Failure(TypeError)
    ensures !x.Arr? && !x.Null? ==> r == Failure(Thrown(ArgsNotArray))
  {
    if TypeOf(x) != "object" then Failure(Thrown(ArgsNotArray))
    else if x.Null? then Failure(TypeError)
    else if !x.Arr? then Failure(Thrown(ArgsNotArray))
    else Success(b.(args := x.items))
  }

  /** The checks `build` makes before it touches the arguments: the name, the
      container and the validator must be set, tested in that order. */
  function BuildPrecondition(b: Builder): (r: Option<Error>)
    ensures r.None? <==> b.objectName.Some? && b.objectName.value != "" && Truthy(b.diContainer) && Truthy(b.typeValidator)
    ensures (b.objectName.None? || b.objectName == Some("")) ==> r == Some(Thrown(BuildWithoutName))
    ensures b.objectName.Some? && b.objectName.value != "" && !Truthy(b.diContainer) ==> r == Some(Thrown(BuildWithoutContainer))
    ensures b.objectName.Some? && b.objectName.value != "" && Truthy(b.diContainer) && !Truthy(b.typeValidator) ==>
              r == Some(Thrown(BuildWithoutValidator))
  {
    if b.objectName.None? || b.objectName.value == "" then Some(Thrown(BuildWithoutName))
    else if !Truthy(b.diContainer) then Some(Thrown(BuildWithoutContainer))
    else if !Truthy(b.typeValidator) then Some(Thrown(BuildWithoutValidator))
    else None
  }

  /** getObject: the object the last successful build created, or an
      exception while none has been. */
  function ReadCreatedObject(b: Builder): (r: Result<Value>)
    ensures r.Success? <==> Truthy(b.createdObject)
    ensures r.Success? ==> r.value == b.createdObject
    ensures r.Failure? ==> r.error == Thrown(NotBuilt)
  {
    if !Truthy(b.createdObject) then Failure(Thrown(NotBuilt)) else Success(b.createdObject)
  }

  /** The setters never touch the created object: a builder that is set up
      anew still hands out the object of the previous build. */
  lemma SettersKeepCreatedObject(b: Builder, x: Value)
    ensures ApplySetDiContainer(b, x).Success? ==> ReadCreatedObject(ApplySetDiContainer(b, x).value) == ReadCreatedObject(b)
    ensures ApplySetTypeValidator(b, x).Success? ==> ReadCreatedObject(ApplySetTypeValidator(b, x).value) == ReadCreatedObject(b)
    ensures ApplySetObjectName(b, x).Success? ==> ReadCreatedObject(ApplySetObjectName(b, x).value) == ReadCreatedObject(b)
    ensures ApplySetObjectConstructorArguments(b, x).Success? ==>
              ReadCreatedObject(ApplySetObjectConstructorArguments(b, x).value) == ReadCreatedObject(b)
  {
  }

  /** The prototype's closure: one object for the whole program. */
  class BuilderPrototype {
    var diContainer: Value
    var typeValidator: Value
    var objectName: Option<string>
    var createdObject: Value
    var objectConstructArgs: seq<Value>

    function State(): Builder
      reads this
    {
      Builder(diContainer, typeValidator, objectName, createdObject, objectConstructArgs)
    }

    /** Loading the script: the slots start out empty. */
    constructor ()
      ensures State() == Initial
    {
      diContainer, typeValidator, objectName, createdObject, objectConstructArgs := Null, Null, None, Null, [];
    }

    method SetDiContainer(x: Value) returns (r: Result<()>)
      modifies this
      ensures var s := ApplySetDiContainer(old(State()), x);
              && (s.Success? ==> r == Success(()) && State() == s.value)
              && (s.Failure? ==> r == Failure(s.error) && State() == old(State()))
    {
      if !Truthy(x) {
        return Failure(Thrown(ContainerEmpty));
      } else if TypeOf(x) != "object" {
        return Failure(Thrown(ContainerWrongType));
      }
      diContainer := x;
      r := Success(());
    }

    method SetTypeValidator(x: Value) returns (r: Result<()>)
      modifies this
      ensures var s := ApplySetTypeValidator(old(State()), x);
              && (s.Success? ==> r == Success(()) && State() == s.value)
              && (s.Failure? ==> r == Failure(s.error) && State() == old(State()))
    {
      if !Truthy(x) {
        return Failure(Thrown(ValidatorEmpty));
      } else if TypeOf(x) != "object" {
        return Failure(Thrown(ValidatorWrongType));
      }
      typeValidator := x;
      r := Success(());
    }

    method SetObjectName(x: Value) returns (r: Result<()>)
      modifies this
      ensures var s := ApplySetObjectName(old(State()), x);
              && (s.Success? ==> r == Success(()) && State() == s.value)
              && (s.Failure? ==> r == Failure(s.error) && State() == old(State()))
    {
      if !Truthy(x) {
        return Failure(Thrown(NameEmpty));
      } else if TypeOf(x) != "string" {
        return Failure(Thrown(NameNotString));
      }
      objectName := Some(x.s);
      r := Success(());
    }

    method SetObjectConstructorArguments(x: Value) returns (r: Result<()>)
      modifies this
      ensures var s := ApplySetObjectConstructorArguments(old(State()), x);
              && (s.Success? ==> r == Success(()) && State() == s.value)
              && (s.Failure? ==> r == Failure(s.error) && State() == old(State()))
    {
      if TypeOf(x) != "object" {
        return Failure(Thrown(ArgsNotArray));
      } else if x.Null? {
        return Failure(TypeError);
      } else if !x.Arr? {
        return Failure(Thrown(ArgsNotArray));
      }
      objectConstructArgs := x.items;
      r := Success(());
    }

    method GetObject() returns (r: Result<Value>)
      ensures r == ReadCreatedObject(State())
    {
      if !Truthy(createdObject) {
        return Failure(Thrown(NotBuilt));
      }
      r := Success(createdObject);
    }
  }
}
