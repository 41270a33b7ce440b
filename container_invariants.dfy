// What resolving a name never does, proved for `get`, the lazy build,
// `build` and argument preparation together, by induction along the
// recursion that connects them.

module ContainerInvariants {
  import opened JsValues
  import opened ObjectBuilder
  import opened TypeValidator
  import opened Container

  lemma PreservesTransitive(w1: World, w2: World, w3: World)
    requires Preserves(w1, w2) && Preserves(w2, w3)
    ensures Preserves(w1, w3)
  {
    forall k | k in w1.registry
      ensures SameShape(w1.registry[k], w3.registry[k])
    {
      assert SameShape(w2.registry[k], w3.registry[k]);
    }
  }

  /** `get` only fills in values of unbuilt object entries; on success the
      entry holds the returned value and is settled. */
  lemma {:induction false} GetPreserves(env: Env, w: World, self: Value, name: string, fuel: nat)
    requires self.Container?
    ensures var (r, w') := GetSpec(env, w, self, name, fuel);
            && Preserves(w, w')
            && (r.Success? && name != SelfToken ==>
                  name in w.registry && w'.registry[name].value == r.value && Settled(w'.registry[name]))
    decreases fuel, 0, 1
  {
    if name != SelfToken && name in w.registry && w.registry[name].ObjectEntry? && !Truthy(w.registry[name].value) {
      MaterialisePreserves(env, w, self, name, fuel);
    }
  }

  /** The lazy build keeps the keys and the shape of every entry, leaves the
      other settled entries alone, and on success stores a truthy value that
      is also the builder's created object. */
  lemma {:induction false} MaterialisePreserves(env: Env, w: World, self: Value, name: string, fuel: nat)
    requires self.Container? && name in w.registry && w.registry[name].ObjectEntry?
    ensures var (r, w') := MaterialiseSpec(env, w, self, name, fuel);
            && w'.registry.Keys == w.registry.Keys
            && (forall k :: k in w.registry ==> SameShape(w.registry[k], w'.registry[k]))
            && (forall k :: k in w.registry && k != name && Settled(w.registry[k]) ==> w'.registry[k] == w.registry[k])
            && w.log <= w'.log && w.nextId <= w'.nextId
            && (r.Success? ==> Truthy(r.value) && w'.registry[name].value == r.value && w'.builder.createdObject == r.value)
    decreases fuel, 0, 0
  {
    if fuel > 0 {
      var e := w.registry[name];
      var (b, err) := SetUp(w.builder, self, e.with, name);
      if err.None? {
        BuildAndStorePreserves(env, w.(builder := b), self, name, w.registry[name], fuel - 1);
      }
    }
  }

  lemma {:induction false} BuildAndStorePreserves(env: Env, w: World, self: Value, name: string, e: Entry, fuel: nat)
    requires name in w.registry && w.registry[name] == e && e.ObjectEntry?
    ensures var (r, w') := BuildAndStoreSpec(env, w, self, name, e, fuel);
            && w'.registry.Keys == w.registry.Keys
            && (forall k :: k in w.registry ==> SameShape(w.registry[k], w'.registry[k]))
            && (forall k :: k in w.registry && k != name && Settled(w.registry[k]) ==> w'.registry[k] == w.registry[k])
            && w.log <= w'.log && w.nextId <= w'.nextId
            && (r.Success? ==> Truthy(r.value) && w'.registry[name].value == r.value && w'.builder.createdObject == r.value)
    decreases fuel, 3, 0
  {
    BuildPreserves(env, w, fuel);
    var (built, w2) := BuildSpec(env, w, fuel);
    if built.Success? && Truthy(w2.builder.createdObject) {
      var w3 := StoreBuiltSpec(env, w2, self, name, e).1;
      assert SameShape(e, w3.registry[name]);
      forall k | k in w.registry
        ensures SameShape(w.registry[k], w3.registry[k])
      {
        if k != name {
          assert w3.registry[k] == w2.registry[k];
        }
      }
    }
  }

  /** `build` keeps the registry's invariants; a success leaves the newest
      object in the created-object slot. */
  lemma {:induction false} BuildPreserves(env: Env, w: World, fuel: nat)
    ensures var (r, w') := BuildSpec(env, w, fuel);
            && Preserves(w, w')
            && (r.Success? ==> w'.builder.createdObject.Obj? && w'.builder.createdObject.oid == w'.nextId - 1)
    decreases fuel, 2, 0
  {
    if BuildPrecondition(w.builder).None? {
      PreparePreserves(env, w, |w.builder.args|, 0, [], fuel);
    }
  }

  /** Preparation keeps the registry's invariants and, on success, leaves
      one argument per position iterated, after those already prepared. */
  lemma {:induction false} PreparePreserves(env: Env, w: World, n: nat, i: nat, prepared: seq<Value>, fuel: nat)
    requires i <= n
    ensures var (r, w') := PrepareFrom(env, w, n, i, prepared, fuel);
            && Preserves(w, w')
            && (r.Success? ==> |w'.builder.args| == |prepared| + (n - i) && w'.builder.args[..|prepared|] == prepared)
    decreases fuel, 1, n - i
  {
    if i < n {
      var arg := At(w.builder.args, i);
      var isAlias := if arg.Str? then CallIsContainerAlias(w.builder.typeValidator, arg.s) else Success(false);
      if isAlias == Success(false) {
        PreparePreserves(env, w, n, i + 1, prepared + [arg], fuel);
        var (r, w') := PrepareFrom(env, w, n, i + 1, prepared + [arg], fuel);
        if r.Success? {
          PrefixOfExtension(w'.builder.args, prepared, arg);
        }
      } else if isAlias == Success(true) && w.builder.diContainer.Container? {
        GetPreserves(env, w, w.builder.diContainer, arg.s, fuel);
        var (got, w1) := GetSpec(env, w, w.builder.diContainer, arg.s, fuel);
        if got.Success? {
          PreparePreserves(env, w1, n, i + 1, prepared + [got.value], fuel);
          var (r, w2) := PrepareFrom(env, w1, n, i + 1, prepared + [got.value], fuel);
          PreservesTransitive(w, w1, w2);
          if r.Success? {
            PrefixOfExtension(w2.builder.args, prepared, got.value);
          }
        }
      }
    }
  }

  lemma PrefixOfExtension(s: seq<Value>, prepared: seq<Value>, x: Value)
    requires |prepared| + 1 <= |s| && s[..|prepared| + 1] == prepared + [x]
    ensures s[..|prepared|] == prepared
  {
    assert s[..|prepared|] == s[..|prepared| + 1][..|prepared|];
  }
}
