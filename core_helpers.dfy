/** The collection helpers of libs/ng-mocks/src/lib/common/core.helpers.ts:
    `flatten`, `mapKeys`, `mapValues`, `mapEntries`, `extractDependency`. */
module CoreHelpers {

  import opened JsValues
  import opened JsCollections

  // ---------------------------------------------------------------------------
  // flatten

  /** The leaves of a possibly nested array, left to right; a value that is
      not an array is its own single leaf. */
  function Leaves(v: Value): seq<Value>
    decreases v, 1
  {
    if v.Arr? then LeavesOf(v.items) else [v]
  }

  function LeavesOf(s: seq<Value>): seq<Value>
    decreases s, 0
  {
    if s == [] then [] else LeavesOf(s[..|s| - 1]) + Leaves(s[|s| - 1])
  }

  /** Number of leaves, counted independently of the order they come in. */
  function LeafCount(v: Value): nat
    decreases v, 1
  {
    if v.Arr? then LeafCountOf(v.items) else 1
  }

  function LeafCountOf(s: seq<Value>): nat
    decreases s, 0
  {
    if s == [] then 0 else LeafCount(s[0]) + LeafCountOf(s[1..])
  }

  lemma {:induction false} LeavesOfAppend(a: seq<Value>, b: seq<Value>)
    ensures LeavesOf(a + b) == LeavesOf(a) + LeavesOf(b)
    decreases |b|
  {
    if b == [] {
      assert a + b == a;
    } else {
      assert (a + b)[..|a + b| - 1] == a + b[..|b| - 1];
      LeavesOfAppend(a, b[..|b| - 1]);
    }
  }

  /** Flattening yields no arrays, and as many values as there are leaves. */
  lemma {:induction false} LeavesShape(v: Value)
    ensures forall x :: x in Leaves(v) ==> !x.Arr?
    ensures |Leaves(v)| == LeafCount(v)
    decreases v, 1
  {
    if v.Arr? { LeavesOfShape(v.items); }
  }

  lemma {:induction false} LeavesOfShape(s: seq<Value>)
    ensures forall x :: x in LeavesOf(s) ==> !x.Arr?
    ensures |LeavesOf(s)| == LeafCountOf(s)
    decreases s, 0
  {
    if s != [] {
      LeavesShape(s[0]);
      LeavesOfShape(s[1..]);
      assert s == [s[0]] + s[1..];
      LeavesOfAppend([s[0]], s[1..]);
      assert [s[0]][..0] == [];
    }
  }

  /** `flatten(values, result)`: pushes the leaves of `values` onto the
      accumulator `result`, recursing into nested arrays. */
  method Flatten(values: Value, result: seq<Value>) returns (r: seq<Value>)
    ensures r == result + Leaves(values)
    decreases values
  {
    r := result;
    if values.Arr? {
      var items := values.items;
      for i := 0 to |items|
        invariant r == result + LeavesOf(items[..i])
      {
        assert items[..i + 1][..i] == items[..i];
        r := Flatten(items[i], r);
      }
      assert items[..|items|] == items;
    } else {
      r := r + [values];
    }
  }

  // ---------------------------------------------------------------------------
  // mapKeys / mapValues / mapEntries

  /** `mapKeys(map)`: the keys, in iteration order. */
  method MapKeys<K, V>(m: seq<(K, V)>) returns (r: seq<K>)
    ensures |r| == |m| && forall i :: 0 <= i < |m| ==> r[i] == m[i].0
  {
    r := [];
    for i := 0 to |m|
      invariant |r| == i && forall j :: 0 <= j < i ==> r[j] == m[j].0
    {
      r := r + [m[i].0];
    }
  }

  /** `mapValues(set, destination)`: `values` is what `set.forEach` visits,
      in order. Without a destination the values are returned; with one they
      are added to it and the returned array is empty. */
  method MapValues<T(==,!new)>(values: seq<T>, destination: Option<seq<T>>)
    returns (r: seq<T>, destination': Option<seq<T>>)
    ensures destination.None? ==> r == values && destination'.None?
    ensures destination.Some? ==> r == [] && destination' == Some(SetAddAll(destination.value, values))
  {
    r := [];
    destination' := destination;
    if destination.Some? {
      var d := destination.value;
      for i := 0 to |values|
        invariant d == SetAddAll(destination.value, values[..i])
      {
        SetAddAllAppend(destination.value, values[..i], [values[i]]);
        assert values[..i + 1] == values[..i] + [values[i]];
        d := SetAdd(d, values[i]);
      }
      assert values[..|values|] == values;
      destination' := Some(d);
    } else {
      for i := 0 to |values|
        invariant r == values[..i]
      {
        assert values[..i + 1] == values[..i] + [values[i]];
        r := r + [values[i]];
      }
      assert values[..|values|] == values;
    }
  }

  /** `mapEntries(map, destination)`: without a destination the entries are
      returned in order; with one each entry is `set` into it and the returned
      array is empty. */
  method MapEntries<K(==), V>(m: seq<(K, V)>, destination: Option<seq<(K, V)>>)
    returns (r: seq<(K, V)>, destination': Option<seq<(K, V)>>)
    requires destination.Some? ==> NoDuplicates(Keys(destination.value))
    ensures destination.None? ==> r == m && destination'.None?
    ensures destination.Some? ==> r == [] && destination' == Some(MapSetAll(destination.value, m))
  {
    r := [];
    destination' := destination;
    if destination.Some? {
      var d := destination.value;
      for i := 0 to |m|
        invariant NoDuplicates(Keys(d))
        invariant MapSetAll(d, m[i..]) == MapSetAll(destination.value, m)
      {
        assert m[i..][1..] == m[i + 1..];
        d := MapSet(d, m[i].0, m[i].1);
      }
      destination' := Some(d);
    } else {
      for i := 0 to |m|
        invariant r == m[..i]
      {
        assert m[..i + 1] == m[..i] + [m[i]];
        r := r + [m[i]];
      }
      assert m[..|m|] == m;
    }
  }

  // ---------------------------------------------------------------------------
  // extractDependency

  /** An injection flag: an object whose `ngMetadataName` is `Optional`,
      `SkipSelf` or `Self`. */
  predicate IsInjectionFlag(v: Value) {
    Truthy(v) && TypeOf(v) == "object"
    && Get(v, "ngMetadataName") in {Str("Optional"), Str("SkipSelf"), Str("Self")}
  }

  /** The entries of a dependency array that `extractDependency` records. */
  function WithoutInjectionFlags(s: seq<Value>): seq<Value> {
    if s == [] then []
    else WithoutInjectionFlags(s[..|s| - 1]) + (if IsInjectionFlag(s[|s| - 1]) then [] else [s[|s| - 1]])
  }

  /** Everything `extractDependency(deps, set)` adds to the set, in order. */
  function DependencyItems(deps: seq<Value>): seq<Value> {
    if deps == [] then []
    else
      var d := deps[|deps| - 1];
      DependencyItems(deps[..|deps| - 1]) + (if d.Arr? then WithoutInjectionFlags(d.items) else [d])
  }

  lemma {:induction false} WithoutInjectionFlagsMembers(s: seq<Value>)
    ensures forall x :: x in WithoutInjectionFlags(s) <==> x in s && !IsInjectionFlag(x)
  {
    if s != [] {
      WithoutInjectionFlagsMembers(s[..|s| - 1]);
      assert s == s[..|s| - 1] + [s[|s| - 1]];
    }
  }

  /** A value is recorded exactly when it is a dependency that is not an
      array, or a member of an array dependency that is not an injection flag. */
  lemma {:induction false} DependencyItemsMembers(deps: seq<Value>, x: Value)
    ensures x in DependencyItems(deps) <==>
      exists i :: 0 <= i < |deps| && (if deps[i].Arr? then x in deps[i].items && !IsInjectionFlag(x) else x == deps[i])
  {
    if deps != [] {
      var n := |deps| - 1;
      DependencyItemsMembers(deps[..n], x);
      if deps[n].Arr? { WithoutInjectionFlagsMembers(deps[n].items); }
      if x in DependencyItems(deps) {
        if x !in DependencyItems(deps[..n]) {
          assert 0 <= n < |deps| && (if deps[n].Arr? then x in deps[n].items && !IsInjectionFlag(x) else x == deps[n]);
        } else {
          var i :| 0 <= i < n && (if deps[..n][i].Arr? then x in deps[..n][i].items && !IsInjectionFlag(x) else x == deps[..n][i]);
          assert deps[..n][i] == deps[i];
        }
      } else {
        forall i | 0 <= i < |deps|
          ensures !(if deps[i].Arr? then x in deps[i].items && !IsInjectionFlag(x) else x == deps[i])
        {
          if i < n { assert deps[..n][i] == deps[i]; }
        }
      }
    }
  }

  /** `extractDependencyArray(deps, target)`: adds every entry of one dependency
      array to the target, skipping injection flags. */
  method ExtractDependencyArray(deps: seq<Value>, target: seq<Value>) returns (target': seq<Value>)
    ensures target' == SetAddAll(target, WithoutInjectionFlags(deps))
  {
    target' := target;
    for i := 0 to |deps|
      invariant target' == SetAddAll(target, WithoutInjectionFlags(deps[..i]))
    {
      var flag := deps[i];
      assert deps[..i + 1][..i] == deps[..i];
      SetAddAllAppend(target, WithoutInjectionFlags(deps[..i]), if IsInjectionFlag(flag) then [] else [flag]);
      if IsInjectionFlag(flag) {
        continue;
      }
      target' := SetAdd(target', flag);
    }
    assert deps[..|deps|] == deps;
  }

  /** `extractDependency(deps, target)`: without a target nothing happens; otherwise
      a dependency that is not an array is added as it is, and an array
      dependency has its entries added except for injection flags. */
  method ExtractDependency(deps: seq<Value>, target: Option<seq<Value>>) returns (target': Option<seq<Value>>)
    ensures target.None? ==> target'.None?
    ensures target.Some? ==> target' == Some(SetAddAll(target.value, DependencyItems(deps)))
  {
    if target.None? {
      return target;
    }
    var s := target.value;
    for i := 0 to |deps|
      invariant s == SetAddAll(target.value, DependencyItems(deps[..i]))
    {
      var dep := deps[i];
      assert deps[..i + 1][..i] == deps[..i];
      SetAddAllAppend(target.value, DependencyItems(deps[..i]), if dep.Arr? then WithoutInjectionFlags(dep.items) else [dep]);
      if !dep.Arr? {
        s := SetAdd(s, dep);
        continue;
      }
      s := ExtractDependencyArray(dep.items, s);
    }
    assert deps[..|deps|] == deps;
    target' := Some(s);
  }

  /** What `extractDependency` leaves in the target: the old contents, unchanged
      and in front, then exactly the recorded dependencies. */
  lemma ExtractDependencyResult(deps: seq<Value>, target: seq<Value>, x: Value)
    ensures |SetAddAll(target, DependencyItems(deps))| >= |target| && SetAddAll(target, DependencyItems(deps))[..|target|] == target
    ensures x in SetAddAll(target, DependencyItems(deps)) <==>
      x in target || exists i :: 0 <= i < |deps| && (if deps[i].Arr? then x in deps[i].items && !IsInjectionFlag(x) else x == deps[i])
  {
    SetAddAllContents(target, DependencyItems(deps));
    DependencyItemsMembers(deps, x);
  }
}
