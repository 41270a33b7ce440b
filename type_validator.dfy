// DiContainerTypeValidator: the checks the container and the builder run on
// names, primitive values and object configurations, and the alias test.
// All of it is a set of checks that return their input, except the object
// configuration check, which fills defaults into the configuration object it
// is given.

module TypeValidator {
  import opened JsValues
  import opened PropertyKeys

  const NameNotString := "Container item name should be string type instance"
  const NameEmpty := "Container item name for object can' be empty"
  const ValueNotObject := "Object should be instance of object"
  const AutoloadNotBoolean := "Autoload value for object should be boolean"
  const WithNotArray := "Config {with} for object should be array type instance"
  const CallbackNotFunction := "Call function should be function type"
  const NumberNotIntegral := "Container number item should be number type instance"
  const StringNotString := "Container string item should be string type instance"
  const BooleanNotBoolean := "Container boolean item should be boolean type instance"

  /** validateContainerItemName: a non-string is rejected first, then an
      empty string; anything else comes back unchanged. */
  function ValidateContainerItemName(name: Value): (r: Result<Value>)
    ensures r.Success? <==> name.Str? && name.s != ""
    ensures r.Success? ==> r.value == name
    ensures !name.Str? ==> r == Failure(Thrown(NameNotString))
    ensures name == Str("") ==> r == Failure(Thrown(NameEmpty))
  {
    if TypeOf(name) != "string" then Failure(Thrown(NameNotString))
    else if !Truthy(name) then Failure(Thrown(NameEmpty))
    else Success(name)
  }

  /** validateContainerNumberItem: `number % 1 !== 0` rejects. A number is
      accepted exactly when it is integral; `true`, `false` and `null`
      coerce to 1, 0 and 0 and are accepted; `undefined`, functions and
      objects other than arrays coerce to NaN and are rejected. How strings
      and arrays coerce is not modelled. */
  function ValidateContainerNumberItem(v: Value): (r: Result<Value>)
    ensures v.Num? ==> (r.Success? <==> IsIntegral(v.n))
    ensures r.Success? ==> r.value == v && Keyable(v)
    ensures v.Undef? || v.Func? || v.Obj? || v.Container? || v.Validator? ==>
              r == Failure(Thrown(NumberNotIntegral))
    ensures v.Bool? || v.Null? ==> r == Success(v)
    ensures v.Str? || v.Arr? ==> r == Failure(Unmodelled)
  {
    match v
    case Num(n) => if IsIntegral(n) then Success(v) else Failure(Thrown(NumberNotIntegral))
    case Bool(_) => Success(v)
    case Null => Success(v)
    case Str(_) => Failure(Unmodelled)
    case Arr(_) => Failure(Unmodelled)
    case _ => Failure(Thrown(NumberNotIntegral))
  }

  /** validateContainerStringItem: accepts exactly the strings. */
  function ValidateContainerStringItem(v: Value): (r: Result<Value>)
    ensures r.Success? <==> v.Str?
    ensures r.Success? ==> r.value == v && Keyable(v)
    ensures r.Failure? ==> r.error == Thrown(StringNotString)
  {
    if TypeOf(v) != "string" then Failure(Thrown(StringNotString)) else Success(v)
  }

  /** validateContainerBooleanItem: accepts exactly the booleans. */
  function ValidateContainerBooleanItem(v: Value): (r: Result<Value>)
    ensures r.Success? <==> v.Bool?
    ensures r.Success? ==> r.value == v && Keyable(v)
    ensures r.Failure? ==> r.error == Thrown(BooleanNotBoolean)
  {
    if TypeOf(v) != "boolean" then Failure(Thrown(BooleanNotBoolean)) else Success(v)
  }

  const SelfToken := "container"
  const AliasPrefix := "container."

  /** isContainerAlias: `alias.indexOf('container.') === 0 || alias === 'container'`. */
  predicate IsContainerAlias(s: string)
  {
    AliasPrefix <= s || s == SelfToken
  }

  lemma AliasExamples()
    ensures IsContainerAlias("container") && IsContainerAlias("container.Engine")
    ensures IsContainerAlias("container.")
    ensures !IsContainerAlias("containerX") && !IsContainerAlias("Container") && !IsContainerAlias("")
  {
    assert "containerX"[9] != "container."[9];
  }

  /** An alias is the self token or a string that starts with the self token
      followed by a dot. */
  lemma AliasShape(s: string)
    ensures IsContainerAlias(s) <==>
              s == SelfToken || (|s| > |SelfToken| && s[..|SelfToken|] == SelfToken && s[|SelfToken|] == '.')
  {
    if |s| > |SelfToken| && s[..|SelfToken|] == SelfToken && s[|SelfToken|] == '.' {
      assert s[..|AliasPrefix|] == AliasPrefix;
    }
  }

  /** `validator.isContainerAlias(s)` on whatever object holds the validator
      slot: a DiContainerTypeValidator answers; anything else has no such
      method and the call throws. */
  function CallIsContainerAlias(validator: Value, s: string): (r: Result<bool>)
    ensures validator.Validator? ==> r == Success(IsContainerAlias(s))
    ensures !validator.Validator? ==> r == Failure(TypeError)
  {
    if validator.Validator? then Success(IsContainerAlias(s)) else Failure(TypeError)
  }

  /** The four recognised properties of an object configuration; `None` is a
      property the object does not have (`hasOwnProperty` is false). */
  datatype ConfigFields = ConfigFields(value: Option<Value>, autoload: Option<Value>, with: Option<Value>, callback: Option<Value>)

  const NoFields := ConfigFields(None, None, None, None)

  /** The fields a configuration object holds once validateContainerObjectConfig
      returns or throws, and what it threw. */
  datatype ConfigCheck = ConfigCheck(fields: ConfigFields, error: Option<Error>)

  predicate ValueOk(v: Value) { TypeOf(v) == "object" }
  predicate AutoloadOk(v: Value) { TypeOf(v) == "boolean" }
  predicate WithOk(v: Value) { TypeOf(v) != "object" || v.Arr? }
  predicate CallbackOk(v: Value) { TypeOf(v) == "function" }

  /** A configuration whose every field is present and acceptable. */
  predicate Complete(f: ConfigFields)
  {
    && f.value.Some? && ValueOk(f.value.value)
    && f.autoload.Some? && AutoloadOk(f.autoload.value)
    && f.with.Some? && WithOk(f.with.value)
    && f.callback.Some? && (CallbackOk(f.callback.value) || f.callback.value.Null?)
  }

  /** What validateContainerObjectConfig does to a configuration object's
      fields: check each present field in the order value, autoload, with,
      callback, and set each missing one to its default as it goes, so that
      a rejection leaves the defaults of the earlier fields in place. */
  function CheckConfig(f: ConfigFields): (r: ConfigCheck)
    ensures r.error.None? <==>
              (f.value.Some? ==> ValueOk(f.value.value))
              && (f.autoload.Some? ==> AutoloadOk(f.autoload.value))
              && (f.with.Some? ==> WithOk(f.with.value))
              && (f.callback.Some? ==> CallbackOk(f.callback.value))
    ensures r.error.None? ==> Complete(r.fields)
    ensures f.value.Some? ==> r.fields.value == f.value
    ensures f.autoload.Some? ==> r.fields.autoload == f.autoload
    ensures f.with.Some? ==> r.fields.with == f.with
    ensures f.callback.Some? ==> r.fields.callback == f.callback
    ensures r.error.None? && f.value.None? ==> r.fields.value == Some(Null)
    ensures r.error.None? && f.autoload.None? ==> r.fields.autoload == Some(Bool(false))
    ensures r.error.None? && f.with.None? ==> r.fields.with == Some(Arr([]))
    ensures r.error.None? && f.callback.None? ==> r.fields.callback == Some(Null)
  {
    if f.value.Some? && !ValueOk(f.value.value) then ConfigCheck(f, Some(Thrown(ValueNotObject)))
    else
      var f1 := if f.value.None? then f.(value := Some(Null)) else f;
      if f1.autoload.Some? && !AutoloadOk(f1.autoload.value) then ConfigCheck(f1, Some(Thrown(AutoloadNotBoolean)))
      else
        var f2 := if f1.autoload.None? then f1.(autoload := Some(Bool(false))) else f1;
        if f2.with.Some? && f2.with.value.Null? then ConfigCheck(f2, Some(TypeError))
        else if f2.with.Some? && !WithOk(f2.with.value) then ConfigCheck(f2, Some(Thrown(WithNotArray)))
        else
          var f3 := if f2.with.None? then f2.(with := Some(Arr([]))) else f2;
          if f3.callback.Some? && !CallbackOk(f3.callback.value) then ConfigCheck(f3, Some(Thrown(CallbackNotFunction)))
          else
            var f4 := if f3.callback.None? then f3.(callback := Some(Null)) else f3;
            ConfigCheck(f4, None)
  }

  /** Validating a configuration that validation has already completed
      changes nothing and throws nothing, provided its callback is a
      function: a `null` callback, the default, is a present field the second
      time and is rejected (see DefaultCallbackRejectedOnRevalidation). */
  lemma {:induction false} CheckConfigIdempotent(f: ConfigFields)
    requires CheckConfig(f).error.None?
    ensures var g := CheckConfig(f).fields;
            CheckConfig(g) == (if CallbackOk(g.callback.value) then ConfigCheck(g, None)
                               else ConfigCheck(g, Some(Thrown(CallbackNotFunction))))
  {
    var g := CheckConfig(f).fields;
    assert Complete(g);
  }

  /** The defaults themselves do not pass a second validation. */
  lemma DefaultCallbackRejectedOnRevalidation()
    ensures CheckConfig(NoFields).error.None?
    ensures CheckConfig(CheckConfig(NoFields).fields).error == Some(Thrown(CallbackNotFunction))
  {
  }

  /** The `with` check only rejects objects that are not arrays: a string, a
      number or a function passes, and an array passes. */
  lemma WithAcceptsNonObjects(s: string)
    ensures CheckConfig(ConfigFields(None, None, Some(Str(s)), None)).error.None?
    ensures CheckConfig(ConfigFields(None, None, Some(Num(1.0)), None)).error.None?
    ensures CheckConfig(ConfigFields(None, None, Some(Obj(0, false)), None)).error == Some(Thrown(WithNotArray))
  {
  }

  /** An object configuration as an object the caller owns; the validator
      writes the defaults into it. */
  class ConfigObject {
    var value: Option<Value>
    var autoload: Option<Value>
    var with: Option<Value>
    var callback: Option<Value>

    function Fields(): ConfigFields
      reads this
    {
      ConfigFields(value, autoload, with, callback)
    }

    constructor (f: ConfigFields)
      ensures Fields() == f
    {
      value, autoload, with, callback := f.value, f.autoload, f.with, f.callback;
    }
  }

  /** validateContainerObjectConfig. `null` stands for any falsy argument,
      which is replaced by a fresh empty object; otherwise the argument
      itself is filled in and returned. */
  method ValidateContainerObjectConfig(configs: ConfigObject?) returns (r: Result<ConfigObject>)
    modifies configs
    ensures configs == null ==> r.Success? && fresh(r.value) && r.value.Fields() == CheckConfig(NoFields).fields
    ensures configs != null ==>
              var c := CheckConfig(old(configs.Fields()));
              && configs.Fields() == c.fields
              && r == (if c.error.None? then Success(configs) else Failure(c.error.value))
  {
    var obj := configs;
    if obj == null {
      obj := new ConfigObject(NoFields);
    }
    if obj.value.Some? {
      if TypeOf(obj.value.value) != "object" {
        return Failure(Thrown(ValueNotObject));
      }
    } else {
      obj.value := Some(Null);
    }
    if obj.autoload.Some? {
      if TypeOf(obj.autoload.value) != "boolean" {
        return Failure(Thrown(AutoloadNotBoolean));
      }
    } else {
      obj.autoload := Some(Bool(false));
    }
    if obj.with.Some? {
      var initArgs := obj.with.value;
      if initArgs.Null? {
        return Failure(TypeError);
      }
      if TypeOf(initArgs) == "object" && !initArgs.Arr? {
        return Failure(Thrown(WithNotArray));
      }
    } else {
      obj.with := Some(Arr([]));
    }
    if obj.callback.Some? {
      if TypeOf(obj.callback.value) != "function" {
        return Failure(Thrown(CallbackNotFunction));
      }
    } else {
      obj.callback := Some(Null);
    }
    r := Success(obj);
  }
}
