/** The older collection helpers of lib/common/core.helpers.ts. They behave
    as the current ones in libs/ng-mocks (module CoreHelpers), whose
    specification functions they are proved against; `mapValues` and
    `mapEntries` take no destination here. */
module LegacyCoreHelpers {

  import opened JsValues
  import opened JsCollections
  import CoreHelpers

  /** `flatten(values, result)`. */
  method Flatten(values: Value, result: seq<Value>) returns (r: seq<Value>)
    ensures r == result + CoreHelpers.Leaves(values)
    decreases values
  {
    r := result;
    if values.Arr? {
      var items := values.items;
      for i := 0 to |items|
        invariant r == result + CoreHelpers.LeavesOf(items[..i])
      {
        assert items[..i + 1][..i] == items[..i];
        r := Flatten(items[i], r);
      }
      assert items[..|items|] == items;
    } else {
      r := r + [values];
    }
  }

  /** `mapKeys(map)`: the keys in iteration order. */
  method MapKeys<K, V>(m: seq<(K, V)>) returns (r: seq<K>)
    ensures |r| == |m| && forall i :: 0 <= i < |m| ==> r[i] == m[i].0
  {
    r := [];
    for i := 0 to |m|
      invariant |r| == i && forall j :: 0 <= j < i ==> r[j] == m[j].0
    {
      r := r + [m[i].0];
    }
  }

  /** `mapValues(set)`: what `set.forEach` visits, in order. */
  method MapValues<T>(values: seq<T>) returns (r: seq<T>)
    ensures |r| == |values| && forall i :: 0 <= i < |values| ==> r[i] == values[i]
  {
    r := [];
    for i := 0 to |values|
      invariant |r| == i && forall j :: 0 <= j < i ==> r[j] == values[j]
    {
      r := r + [values[i]];
    }
  }

  /** `mapEntries(map)`: the `[key, value]` pairs in iteration order. */
  method MapEntries<K, V>(m: seq<(K, V)>) returns (r: seq<(K, V)>)
    ensures |r| == |m| && forall i :: 0 <= i < |m| ==> r[i] == m[i]
  {
    r := [];
    for i := 0 to |m|
      invariant |r| == i && forall j :: 0 <= j < i ==> r[j] == m[j]
    {
      r := r + [m[i]];
    }
  }

  /** One of the three checks of the inner loop: a truthy object whose
      `ngMetadataName` is `name`. */
  predicate IsFlagNamed(flag: Value, name: string) {
    Truthy(flag) && TypeOf(flag) == "object" && Get(flag, "ngMetadataName") == Str(name)
  }

  /** The three checks together recognise exactly the injection flags that
      the current version skips. */
  lemma FlagChecksAreInjectionFlag(flag: Value)
    ensures IsFlagNamed(flag, "Optional") || IsFlagNamed(flag, "SkipSelf") || IsFlagNamed(flag, "Self")
            <==> CoreHelpers.IsInjectionFlag(flag)
  {
  }

  /** The inner loop of `extractDependency`: each entry of one array
      dependency is added unless one of the three checks skips it. */
  method AddUnflagged(items: seq<Value>, target: seq<Value>) returns (target': seq<Value>)
    ensures target' == SetAddAll(target, CoreHelpers.WithoutInjectionFlags(items))
  {
    target' := target;
    for j := 0 to |items|
      invariant target' == SetAddAll(target, CoreHelpers.WithoutInjectionFlags(items[..j]))
    {
      var flag := items[j];
      assert items[..j + 1][..j] == items[..j];
      SetAddAllAppend(target, CoreHelpers.WithoutInjectionFlags(items[..j]),
                      if CoreHelpers.IsInjectionFlag(flag) then [] else [flag]);
      FlagChecksAreInjectionFlag(flag);
      if IsFlagNamed(flag, "Optional") {
        continue;
      }
      if IsFlagNamed(flag, "SkipSelf") {
        continue;
      }
      if IsFlagNamed(flag, "Self") {
        continue;
      }
      target' := SetAdd(target', flag);
    }
    assert items[..|items|] == items;
  }

  /** `extractDependency(deps, set)`: the same additions as the current
      version, written as three separate flag checks. */
  method ExtractDependency(deps: seq<Value>, target: Option<seq<Value>>) returns (target': Option<seq<Value>>)
    ensures target.None? ==> target'.None?
    ensures target.Some? ==> target' == Some(SetAddAll(target.value, CoreHelpers.DependencyItems(deps)))
  {
    if target.None? {
      return target;
    }
    var s := target.value;
    for i := 0 to |deps|
      invariant s == SetAddAll(target.value, CoreHelpers.DependencyItems(deps[..i]))
    {
      var dep := deps[i];
      assert deps[..i + 1][..i] == deps[..i];
      SetAddAllAppend(target.value, CoreHelpers.DependencyItems(deps[..i]),
                      if dep.Arr? then CoreHelpers.WithoutInjectionFlags(dep.items) else [dep]);
      if !dep.Arr? {
        s := SetAdd(s, dep);
        continue;
      }
      s := AddUnflagged(dep.items, s);
    }
    assert deps[..|deps|] == deps;
    target' := Some(s);
  }
}
