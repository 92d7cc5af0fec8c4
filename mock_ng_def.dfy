/** The default export of libs/ng-mocks/src/lib/mock-module/mock-ng-def.ts:
    the metadata of a mock module, built from the metadata of the original.

    `resolve` and `resolveProvider` are the closures `createResolvers`
    builds (create-resolvers.ts is not part of this model). Each call
    returns the mock of a declaration or provider, whether it called the
    `change` callback with a true flag, and the universe afterwards, since
    resolving may mock further declarations and use the resolution cache
    that lives under `mockNgDefResolver`. `markProviders` only tags the
    provider objects and is left out. */
module MockNgDef {

  import opened JsValues
  import opened Universe
  import CoreHelpers
  import JsCollections
  import ModuleWithProviders

  datatype Resolved = Resolved(value: Value, touched: bool, u: State)

  type Resolve = (Value, State) -> Resolved

  /** The metadata the mock module receives, key by key. */
  type MockDef = map<string, seq<Value>>

  // ---------------------------------------------------------------------------
  // flatToExisting

  /** The callback applied to every item in order, each call seeing the
      universe the previous one left: the results, whether any call touched
      `changed`, and the final universe. */
  function MapResolve(items: seq<Value>, callback: Resolve, u: State): (r: (seq<Value>, bool, State))
    ensures |r.0| == |items|
  {
    if items == [] then ([], false, u)
    else
      var n := |items| - 1;
      var (before, touched, u') := MapResolve(items[..n], callback, u);
      var last := callback(items[n], u');
      (before + [last.value], touched || last.touched, last.u)
  }

  /** `.filter(item => !!item)` */
  function KeepTruthy(items: seq<Value>): (r: seq<Value>)
    ensures forall x :: x in r <==> x in items && Truthy(x)
    ensures |r| <= |items|
  {
    if items == [] then []
    else
      var n := |items| - 1;
      KeepTruthy(items[..n]) + (if Truthy(items[n]) then [items[n]] else [])
  }

  lemma {:induction false} KeepTruthyAppend(a: seq<Value>, b: seq<Value>)
    ensures KeepTruthy(a + b) == KeepTruthy(a) + KeepTruthy(b)
    decreases |b|
  {
    if b == [] {
      assert a + b == a;
    } else {
      var n := |b| - 1;
      assert (a + b)[..|a + b| - 1] == a + b[..n];
      assert (a + b)[|a + b| - 1] == b[n];
      KeepTruthyAppend(a, b[..n]);
    }
  }

  /** `flatToExisting(data, callback)`: the flattened data mapped through the
      callback, with the falsy results dropped. */
  function FlatToExisting(data: Value, callback: Resolve, u: State): (r: (seq<Value>, bool, State))
    ensures forall x :: x in r.0 <==> Truthy(x) && x in MapResolve(CoreHelpers.Leaves(data), callback, u).0
    ensures |r.0| <= |CoreHelpers.Leaves(data)|
  {
    var (results, touched, u') := MapResolve(CoreHelpers.Leaves(data), callback, u);
    (KeepTruthy(results), touched, u')
  }

  /** The i-th result is the callback's answer for the i-th item in the
      universe the earlier calls left. */
  lemma {:induction false} MapResolveAt(items: seq<Value>, callback: Resolve, u: State, i: nat)
    requires i < |items|
    ensures MapResolve(items, callback, u).0[i] == callback(items[i], MapResolve(items[..i], callback, u).2).value
    decreases |items|
  {
    var n := |items| - 1;
    if i < n {
      MapResolveAt(items[..n], callback, u, i);
      assert items[..n][..i] == items[..i];
      assert items[..n][i] == items[i];
    } else {
      assert items[..i] == items[..n];
    }
  }

  /** A value is kept exactly when it is a truthy result of the callback on
      some item; `flatToExisting` keeps the results for the leaves of its
      data this way. */
  lemma KeptResultsMembers(items: seq<Value>, callback: Resolve, u: State, x: Value)
    ensures x in KeepTruthy(MapResolve(items, callback, u).0) <==>
      Truthy(x) && exists i :: 0 <= i < |items| && MapResolve(items, callback, u).0[i] == x
  {
    var results := MapResolve(items, callback, u).0;
    assert x in results <==> exists i :: 0 <= i < |results| && results[i] == x;
  }

  // ---------------------------------------------------------------------------
  // configureProcessMetaKeys and processMeta

  /** The metadata keys `processMeta` visits, in order. */
  const MetaKeys: seq<string> := ["declarations", "entryComponents", "bootstrap", "providers", "viewProviders", "imports", "exports"]

  /** `configureProcessMetaKeys(resolve, resolveProvider)`. */
  function ConfigureProcessMetaKeys(resolve: Resolve, resolveProvider: Resolve): (r: seq<(string, Resolve)>)
    ensures |r| == |MetaKeys|
    ensures forall i :: 0 <= i < |r| ==> r[i].0 == MetaKeys[i]
    ensures forall i :: 0 <= i < |r| ==>
      r[i].1 == if MetaKeys[i] == "providers" || MetaKeys[i] == "viewProviders" then resolveProvider else resolve
  {
    [("declarations", resolve), ("entryComponents", resolve), ("bootstrap", resolve),
     ("providers", resolveProvider), ("viewProviders", resolveProvider),
     ("imports", resolve), ("exports", resolve)]
  }

  /** `ngModule[key]?.length` is truthy: a non-empty array or string, or an
      object with a truthy `length`. */
  predicate LengthTruthy(v: Value) {
    (v.Arr? && |v.items| > 0) || (v.Str? && |v.s| > 0) || (v.Obj? && Truthy(Get(v, "length")))
  }

  datatype MetaState = MetaState(def: MockDef, touched: bool, u: State)

  /** One pass of the `processMeta` loop. */
  function MetaStep(ngModule: map<string, Value>, entry: (string, Resolve), st: MetaState): MetaState {
    var v := Lookup(ngModule, entry.0);
    if LengthTruthy(v) then
      var (items, touched, u') := FlatToExisting(v, entry.1, st.u);
      MetaState(st.def[entry.0 := items], st.touched || touched, u')
    else st
  }

  /** The state after the passes for `keys`, in order. */
  function MetaAfter(ngModule: map<string, Value>, keys: seq<(string, Resolve)>, st: MetaState): MetaState {
    if keys == [] then st
    else
      var n := |keys| - 1;
      MetaStep(ngModule, keys[n], MetaAfter(ngModule, keys[..n], st))
  }

  /** The universe the loop of `processMeta` starts from: `cachePipe` is set. */
  function WithCachePipe(u: State): State {
    if CachePipe in u.flags then u else u.(flags := u.flags + {CachePipe})
  }

  /** The universe `processMeta` hands back: the `cachePipe` it added is
      removed again. */
  function RestoreCachePipe(had: bool, u: State): State {
    if had then u else u.(flags := u.flags - {CachePipe})
  }

  /** The mock metadata, whether a resolver touched `changed`, and the
      universe after `processMeta`. */
  function ProcessMetaResult(ngModule: map<string, Value>, resolve: Resolve, resolveProvider: Resolve, u: State): MetaState {
    var st := MetaAfter(ngModule, ConfigureProcessMetaKeys(resolve, resolveProvider), MetaState(map[], false, WithCachePipe(u)));
    st.(u := RestoreCachePipe(CachePipe in u.flags, st.u))
  }

  /** `processMeta(ngModule, resolve, resolveProvider)`. */
  method ProcessMeta(ngModule: map<string, Value>, resolve: Resolve, resolveProvider: Resolve, u: State)
    returns (def: MockDef, touched: bool, u': State)
    ensures MetaState(def, touched, u') == ProcessMetaResult(ngModule, resolve, resolveProvider, u)
    ensures CachePipe !in u.flags ==> CachePipe !in u'.flags
  {
    def := map[];
    touched := false;
    var keys := ConfigureProcessMetaKeys(resolve, resolveProvider);
    var cachePipe := CachePipe in u.flags;
    u' := u;
    if !cachePipe {
      u' := u'.(flags := u'.flags + {CachePipe});
    }
    for i := 0 to |keys|
      invariant MetaState(def, touched, u') == MetaAfter(ngModule, keys[..i], MetaState(map[], false, WithCachePipe(u)))
    {
      assert keys[..i + 1][..i] == keys[..i];
      var (key, callback) := keys[i];
      var v := Lookup(ngModule, key);
      if LengthTruthy(v) {
        var (items, t, u'') := FlatToExisting(v, callback, u');
        def := def[key := items];
        touched := touched || t;
        u' := u'';
      }
    }
    assert keys[..|keys|] == keys;
    if !cachePipe {
      u' := u'.(flags := u'.flags - {CachePipe});
    }
  }

  /** A key appears in the mock metadata exactly when it is one of the
      visited keys and its value has a truthy `length`, and the kept values
      are all truthy. */
  lemma {:induction false} MetaAfterKeys(ngModule: map<string, Value>, keys: seq<(string, Resolve)>, u: State, key: string)
    ensures var def := MetaAfter(ngModule, keys, MetaState(map[], false, u)).def;
      && (key in def <==> (exists i :: 0 <= i < |keys| && keys[i].0 == key) && LengthTruthy(Lookup(ngModule, key)))
      && (key in def ==> forall x :: x in def[key] ==> Truthy(x))
  {
    if keys != [] {
      var n := |keys| - 1;
      MetaAfterKeys(ngModule, keys[..n], u, key);
      if exists i :: 0 <= i < n && keys[..n][i].0 == key {
        var i :| 0 <= i < n && keys[..n][i].0 == key;
        assert keys[i] == keys[..n][i];
      }
      if exists i :: 0 <= i < |keys| && keys[i].0 == key {
        var i :| 0 <= i < |keys| && keys[i].0 == key;
        if i < n { assert keys[..n][i] == keys[i]; }
      }
    }
  }

  /** A resolver that the universe invariant `inv` survives. */
  ghost predicate Keeps(callback: Resolve, inv: State -> bool) {
    forall v: Value, s: State :: inv(s) ==> inv(callback(v, s).u)
  }

  lemma {:induction false} MapResolveKeeps(items: seq<Value>, callback: Resolve, u: State, inv: State -> bool)
    requires Keeps(callback, inv) && inv(u)
    ensures inv(MapResolve(items, callback, u).2)
  {
    if items != [] {
      MapResolveKeeps(items[..|items| - 1], callback, u, inv);
    }
  }

  lemma {:induction false} MetaAfterKeeps(ngModule: map<string, Value>, keys: seq<(string, Resolve)>, st: MetaState,
                                          inv: State -> bool)
    requires forall i :: 0 <= i < |keys| ==> Keeps(keys[i].1, inv)
    requires inv(st.u)
    ensures inv(MetaAfter(ngModule, keys, st).u)
  {
    if keys != [] {
      var n := |keys| - 1;
      assert forall i :: 0 <= i < n ==> keys[..n][i] == keys[i];
      MetaAfterKeeps(ngModule, keys[..n], st, inv);
      var v := Lookup(ngModule, keys[n].0);
      if LengthTruthy(v) {
        MapResolveKeeps(CoreHelpers.Leaves(v), keys[n].1, MetaAfter(ngModule, keys[..n], st).u, inv);
      }
    }
  }

  predicate HasCachePipe(u: State) {
    CachePipe in u.flags
  }

  /** `cachePipe` is set after `processMeta` exactly when it was set before,
      as long as the resolvers do not remove it themselves. */
  lemma CachePipeRestored(ngModule: map<string, Value>, resolve: Resolve, resolveProvider: Resolve, u: State)
    requires Keeps(resolve, HasCachePipe) && Keeps(resolveProvider, HasCachePipe)
    ensures CachePipe in ProcessMetaResult(ngModule, resolve, resolveProvider, u).u.flags <==> CachePipe in u.flags
  {
    var keys := ConfigureProcessMetaKeys(resolve, resolveProvider);
    MetaAfterKeeps(ngModule, keys, MetaState(map[], false, WithCachePipe(u)), HasCachePipe);
  }

  // ---------------------------------------------------------------------------
  // resolveDefForExport, skipAddExports and addExports

  /** `resolveDefForExport(def, resolve, correctExports, ngModule)`, where an
      absent `ngModule` is `undefined`: the mock to export, if any, with the
      universe afterwards. When the def's own config asks for an export and
      the module's config did not yet, the module config gains `export: true`;
      the module config is the one read before resolving. */
  function ResolveDefForExport(def: Value, resolve: Resolve, correctExports: bool, ngModule: Value, u: State): (r: Resolved)
    ensures var instance := if ModuleWithProviders.IsNgModuleDefWithProviders(def) then Get(def, "ngModule") else def;
      var resolved := resolve(instance, u);
      && (r.value == resolved.value || r.value == Undefined)
      && (!Truthy(resolved.value) ==> r.value == Undefined && r.u == resolved.u)
      && (!correctExports && Truthy(resolved.value) ==> r.value == resolved.value)
      && r.touched == resolved.touched
  {
    var moduleConfig := SettingsOf(u, ngModule);
    var instance := if ModuleWithProviders.IsNgModuleDefWithProviders(def) then Get(def, "ngModule") else def;
    var resolved := resolve(instance, u);
    if !Truthy(resolved.value) then Resolved(Undefined, resolved.touched, resolved.u)
    else
      var u1 := resolved.u;
      var configExport := SettingOf(u1, instance, "export");
      var u2 := if Truthy(configExport) && Truthy(ngModule) && !Truthy(Lookup(moduleConfig, "export"))
                then u1.(config := u1.config[ngModule := Settings(moduleConfig["export" := Bool(true)])])
                else u1;
      if correctExports && !Truthy(Lookup(moduleConfig, "exportAll")) && !Truthy(configExport)
      then Resolved(Undefined, resolved.touched, u2)
      else Resolved(resolved.value, resolved.touched, u2)
  }

  /** Under `correctExports` a def is exported exactly when its mock is
      truthy and the module config has `exportAll` or the def's config has
      `export`; it is then exported as the resolved mock. */
  lemma CorrectExportsFilter(def: Value, resolve: Resolve, ngModule: Value, u: State)
    ensures var r := ResolveDefForExport(def, resolve, true, ngModule, u);
      var instance := if ModuleWithProviders.IsNgModuleDefWithProviders(def) then Get(def, "ngModule") else def;
      var resolved := resolve(instance, u);
      var allowed := Truthy(Lookup(SettingsOf(u, ngModule), "exportAll")) || Truthy(SettingOf(resolved.u, instance, "export"));
      && (Truthy(r.value) <==> Truthy(resolved.value) && allowed)
      && (Truthy(resolved.value) && allowed ==> r.value == resolved.value)
  {
  }

  /** The export config is carried back to the module: its config gains
      `export: true` and keeps its other fields, and no other config entry
      changes beyond what resolving did. */
  lemma ExportBackPropagation(def: Value, resolve: Resolve, correctExports: bool, ngModule: Value, u: State)
    ensures var instance := if ModuleWithProviders.IsNgModuleDefWithProviders(def) then Get(def, "ngModule") else def;
      var resolved := resolve(instance, u);
      var r := ResolveDefForExport(def, resolve, correctExports, ngModule, u);
      && (Truthy(resolved.value) && Truthy(SettingOf(resolved.u, instance, "export")) && Truthy(ngModule)
          && !Truthy(SettingOf(u, ngModule, "export")) ==>
            ngModule in r.u.config
            && r.u.config[ngModule] == Settings(SettingsOf(u, ngModule)["export" := Bool(true)]))
      && (forall k :: k in resolved.u.config && k != ngModule ==> k in r.u.config && r.u.config[k] == resolved.u.config[k])
      && r.u.flags == resolved.u.flags
      && r.touched == resolved.touched
  {
  }

  /** The `exports` the mock metadata has so far, `[]` when it has none. */
  function ExportsOf(def: MockDef): seq<Value> {
    if "exports" in def then def["exports"] else []
  }

  /** `skipAddExports(mockDef, mockModuleDef)`. */
  predicate SkipAddExports(mockDef: Value, def: MockDef) {
    !Truthy(mockDef) || ("exports" in def && mockDef in def["exports"])
  }

  datatype ExportState = ExportState(def: MockDef, changed: bool, u: State)

  /** One pass of the `addExports` loop. */
  function ExportStep(resolve: Resolve, correctExports: bool, ngModule: Value, st: ExportState, item: Value): ExportState {
    var r := ResolveDefForExport(item, resolve, correctExports, ngModule, st.u);
    var changed := st.changed || r.touched;
    if SkipAddExports(r.value, st.def) then ExportState(st.def, changed, r.u)
    else ExportState(st.def["exports" := ExportsOf(st.def) + [r.value]], true, r.u)
  }

  function ExportsAfter(resolve: Resolve, correctExports: bool, ngModule: Value, st: ExportState, items: seq<Value>): ExportState {
    if items == [] then st
    else
      var n := |items| - 1;
      ExportStep(resolve, correctExports, ngModule, ExportsAfter(resolve, correctExports, ngModule, st, items[..n]), items[n])
  }

  /** `value || []` */
  function OrEmpty(v: Value): Value {
    if Truthy(v) then v else Arr([])
  }

  /** `flatten([ngModuleDef.imports || [], ngModuleDef.declarations || []])` */
  function ExportCandidates(ngModuleDef: map<string, Value>): seq<Value> {
    CoreHelpers.Leaves(Arr([OrEmpty(Lookup(ngModuleDef, "imports")), OrEmpty(Lookup(ngModuleDef, "declarations"))]))
  }

  /** The state after `addExports`; `correctExports` is read once, before
      the loop. */
  function AddExportsResult(resolve: Resolve, changed: bool, ngModuleDef: map<string, Value>, def: MockDef, ngModule: Value,
                            u: State): ExportState {
    var correctExports := SkipMock in u.flags || CorrectModuleExports in u.flags;
    ExportsAfter(resolve, correctExports, ngModule, ExportState(def, changed, u), ExportCandidates(ngModuleDef))
  }

  /** `addExports(resolve, change, ngModuleDef, mockModuleDef, ngModule)`. */
  method AddExports(resolve: Resolve, changed: bool, ngModuleDef: map<string, Value>, def: MockDef, ngModule: Value, u: State)
    returns (changed': bool, def': MockDef, u': State)
    ensures ExportState(def', changed', u') == AddExportsResult(resolve, changed, ngModuleDef, def, ngModule, u)
  {
    var correctExports := SkipMock in u.flags || CorrectModuleExports in u.flags;
    var items := CoreHelpers.Flatten(Arr([OrEmpty(Lookup(ngModuleDef, "imports")), OrEmpty(Lookup(ngModuleDef, "declarations"))]), []);
    assert items == ExportCandidates(ngModuleDef);
    changed', def', u' := AddExportsOf(resolve, correctExports, changed, items, def, ngModule, u);
  }

  /** The loop of `addExports` over the flattened candidates. */
  method AddExportsOf(resolve: Resolve, correctExports: bool, changed: bool, items: seq<Value>, def: MockDef, ngModule: Value, u: State)
    returns (changed': bool, def': MockDef, u': State)
    ensures ExportState(def', changed', u') == ExportsAfter(resolve, correctExports, ngModule, ExportState(def, changed, u), items)
  {
    changed', def', u' := changed, def, u;
    for i := 0 to |items|
      invariant ExportState(def', changed', u') == ExportsAfter(resolve, correctExports, ngModule, ExportState(def, changed, u), items[..i])
    {
      assert items[..i + 1][..i] == items[..i];
      var r := ResolveDefForExport(items[i], resolve, correctExports, ngModule, u');
      changed' := changed' || r.touched;
      u' := r.u;
      if SkipAddExports(r.value, def') {
        continue;
      }
      changed' := true;
      def' := def'["exports" := ExportsOf(def') + [r.value]];
    }
    assert items[..|items|] == items;
  }

  /** What one pass of `addExports` may do to the exports so far. */
  predicate GrowsExports(st: ExportState, st': ExportState) {
    && |ExportsOf(st'.def)| >= |ExportsOf(st.def)|
    && ExportsOf(st'.def)[..|ExportsOf(st.def)|] == ExportsOf(st.def)
    && (forall j :: |ExportsOf(st.def)| <= j < |ExportsOf(st'.def)| ==> Truthy(ExportsOf(st'.def)[j]))
    && (JsCollections.NoDuplicates(ExportsOf(st.def)) ==> JsCollections.NoDuplicates(ExportsOf(st'.def)))
    && (st.changed ==> st'.changed)
    && (|ExportsOf(st'.def)| > |ExportsOf(st.def)| ==> st'.changed)
    && (forall k :: k in st.def && k != "exports" ==> k in st'.def && st'.def[k] == st.def[k])
  }

  lemma ExportStepGrows(resolve: Resolve, correctExports: bool, ngModule: Value, st: ExportState, item: Value)
    ensures GrowsExports(st, ExportStep(resolve, correctExports, ngModule, st, item))
  {
    var r := ResolveDefForExport(item, resolve, correctExports, ngModule, st.u);
    if !SkipAddExports(r.value, st.def) {
      var e := ExportsOf(st.def);
      assert ExportsOf(ExportStep(resolve, correctExports, ngModule, st, item).def) == e + [r.value];
      assert (e + [r.value])[..|e|] == e;
    }
  }

  lemma GrowsExportsTransitive(a: ExportState, b: ExportState, c: ExportState)
    requires GrowsExports(a, b) && GrowsExports(b, c)
    ensures GrowsExports(a, c)
  {
    var ea, eb, ec := ExportsOf(a.def), ExportsOf(b.def), ExportsOf(c.def);
    assert ec[..|ea|] == ec[..|eb|][..|ea|];
    forall j | |ea| <= j < |ec| ensures Truthy(ec[j]) {
      if j < |eb| { assert ec[j] == ec[..|eb|][j]; }
    }
  }

  /** `addExports` only appends to `exports`, never adds a falsy mock or one
      already listed, turns `changed` on for every export it adds, never
      turns it off, and leaves the other metadata keys alone. */
  lemma {:induction false} ExportsAfterShape(resolve: Resolve, correctExports: bool, ngModule: Value, st: ExportState, items: seq<Value>)
    ensures GrowsExports(st, ExportsAfter(resolve, correctExports, ngModule, st, items))
    decreases |items|
  {
    if items == [] {
      assert ExportsOf(st.def)[..|ExportsOf(st.def)|] == ExportsOf(st.def);
    } else {
      var n := |items| - 1;
      ExportsAfterShape(resolve, correctExports, ngModule, st, items[..n]);
      var mid := ExportsAfter(resolve, correctExports, ngModule, st, items[..n]);
      ExportStepGrows(resolve, correctExports, ngModule, mid, items[n]);
      GrowsExportsTransitive(st, mid, ExportsAfter(resolve, correctExports, ngModule, st, items));
    }
  }

  // ---------------------------------------------------------------------------
  // the default export

  /** The universe the default export works in: a resolution cache under
      `mockNgDefResolver` is provided when there is none. */
  function WithResolverCache(u: State): State {
    if ResolverKey in u.config then u else u.(config := u.config[ResolverKey := ResolverCache(map[])])
  }

  /** What `mockNgDef(ngModuleDef, ngModule)` hands back, as one value: the
      `changed` flag, the mock metadata and the universe afterwards
      (`MockNgDefOf` computes it step by step). */
  function MockNgDefResult(ngModuleDef: map<string, Value>, ngModule: Value, resolve: Resolve, resolveProvider: Resolve, u: State)
    : (r: (bool, MockDef, State))
    ensures ResolverKey !in u.config ==> ResolverKey !in r.2.config
  {
    var meta := ProcessMetaResult(ngModuleDef, resolve, resolveProvider, WithResolverCache(u));
    var ex := AddExportsResult(resolve, SkipMock !in u.flags || meta.touched, ngModuleDef, meta.def, ngModule, meta.u);
    (ex.changed, ex.def, if ResolverKey in u.config then ex.u else ex.u.(config := ex.u.config - {ResolverKey}))
  }

  /** `mockNgDef(ngModuleDef, ngModule)`: whether the mock differs from the
      original, the mock metadata, and the universe afterwards. `changed`
      starts as "`skipMock` is not set" and is turned on by the resolvers
      and by every export added; a resolution cache created here is removed
      again. */
  method MockNgDefOf(ngModuleDef: map<string, Value>, ngModule: Value, resolve: Resolve, resolveProvider: Resolve, u: State)
    returns (changed: bool, def: MockDef, u': State)
    ensures var meta := ProcessMetaResult(ngModuleDef, resolve, resolveProvider, WithResolverCache(u));
      var ex := AddExportsResult(resolve, SkipMock !in u.flags || meta.touched, ngModuleDef, meta.def, ngModule, meta.u);
      && changed == ex.changed && def == ex.def
      && u' == if ResolverKey in u.config then ex.u else ex.u.(config := ex.u.config - {ResolverKey})
    ensures (changed, def, u') == MockNgDefResult(ngModuleDef, ngModule, resolve, resolveProvider, u)
    ensures ResolverKey !in u.config ==> ResolverKey !in u'.config
    ensures SkipMock !in u.flags ==> changed
  {
    var hasResolver := ResolverKey in u.config;
    var u0 := u;
    if !hasResolver {
      u0 := u0.(config := u0.config[ResolverKey := ResolverCache(map[])]);
    }
    changed := SkipMock !in u0.flags;
    var touched, u1;
    def, touched, u1 := ProcessMeta(ngModuleDef, resolve, resolveProvider, u0);
    changed := changed || touched;
    AddExportsKeepsChanged(resolve, changed, ngModuleDef, def, ngModule, u1);
    changed, def, u' := AddExports(resolve, changed, ngModuleDef, def, ngModule, u1);
    if !hasResolver {
      u' := u'.(config := u'.config - {ResolverKey});
    }
  }

  lemma AddExportsKeepsChanged(resolve: Resolve, changed: bool, ngModuleDef: map<string, Value>, def: MockDef, ngModule: Value, u: State)
    ensures changed ==> AddExportsResult(resolve, changed, ngModuleDef, def, ngModule, u).changed
  {
    var correctExports := SkipMock in u.flags || CorrectModuleExports in u.flags;
    ExportsAfterShape(resolve, correctExports, ngModule, ExportState(def, changed, u), ExportCandidates(ngModuleDef));
  }

  /** Without `skipMock` the mock always counts as changed. */
  lemma ChangedWithoutSkipMock(ngModuleDef: map<string, Value>, ngModule: Value, resolve: Resolve, resolveProvider: Resolve, u: State)
    requires SkipMock !in u.flags
    ensures MockNgDefResult(ngModuleDef, ngModule, resolve, resolveProvider, u).0
  {
    var meta := ProcessMetaResult(ngModuleDef, resolve, resolveProvider, WithResolverCache(u));
    AddExportsKeepsChanged(resolve, SkipMock !in u.flags || meta.touched, ngModuleDef, meta.def, ngModule, meta.u);
  }

  /** A resolver that never removes the config entry under `key`. */
  ghost predicate KeepsConfigKey(callback: Resolve, key: Value) {
    forall v: Value, s: State :: key in s.config ==> key in callback(v, s).u.config
  }

  lemma {:induction false} ExportsAfterKeepsKey(resolve: Resolve, correctExports: bool, ngModule: Value, st: ExportState,
                                                items: seq<Value>, key: Value)
    requires KeepsConfigKey(resolve, key) && key in st.u.config
    ensures key in ExportsAfter(resolve, correctExports, ngModule, st, items).u.config
    decreases |items|
  {
    if items != [] {
      ExportsAfterKeepsKey(resolve, correctExports, ngModule, st, items[..|items| - 1], key);
    }
  }

  predicate HasResolverCache(u: State) {
    ResolverKey in u.config
  }

  /** A resolution cache that was there before is still there afterwards,
      as long as the resolvers keep it. */
  lemma ResolverCacheKept(ngModuleDef: map<string, Value>, ngModule: Value, resolve: Resolve, resolveProvider: Resolve,
                          u: State, changed: bool)
    requires ResolverKey in u.config
    requires Keeps(resolve, HasResolverCache) && Keeps(resolveProvider, HasResolverCache)
    requires KeepsConfigKey(resolve, ResolverKey)
    ensures var meta := ProcessMetaResult(ngModuleDef, resolve, resolveProvider, u);
      ResolverKey in AddExportsResult(resolve, changed, ngModuleDef, meta.def, ngModule, meta.u).u.config
  {
    var keys := ConfigureProcessMetaKeys(resolve, resolveProvider);
    MetaAfterKeeps(ngModuleDef, keys, MetaState(map[], false, WithCachePipe(u)), HasResolverCache);
    var meta := ProcessMetaResult(ngModuleDef, resolve, resolveProvider, u);
    var correctExports := SkipMock in meta.u.flags || CorrectModuleExports in meta.u.flags;
    ExportsAfterKeepsKey(resolve, correctExports, ngModule, ExportState(meta.def, changed, meta.u), ExportCandidates(ngModuleDef), ResolverKey);
  }

  predicate HasCacheModule(u: State) {
    CacheModule in u.flags
  }

  lemma {:induction false} ExportsAfterKeepsCacheModule(resolve: Resolve, correctExports: bool, ngModule: Value, st: ExportState,
                                                        items: seq<Value>)
    requires Keeps(resolve, HasCacheModule) && CacheModule in st.u.flags
    ensures CacheModule in ExportsAfter(resolve, correctExports, ngModule, st, items).u.flags
    decreases |items|
  {
    if items != [] {
      ExportsAfterKeepsCacheModule(resolve, correctExports, ngModule, st, items[..|items| - 1]);
    }
  }

  lemma ProcessMetaKeepsCacheModule(ngModuleDef: map<string, Value>, resolve: Resolve, resolveProvider: Resolve, u: State)
    requires Keeps(resolve, HasCacheModule) && Keeps(resolveProvider, HasCacheModule)
    requires CacheModule in u.flags
    ensures CacheModule in ProcessMetaResult(ngModuleDef, resolve, resolveProvider, u).u.flags
  {
    var keys := ConfigureProcessMetaKeys(resolve, resolveProvider);
    MetaAfterKeeps(ngModuleDef, keys, MetaState(map[], false, WithCachePipe(u)), HasCacheModule);
    assert |CacheModule| != |CachePipe|;
  }

  /** `mockNgDef` leaves `cacheModule` set, as long as the resolvers do. */
  lemma CacheModuleKept(ngModuleDef: map<string, Value>, ngModule: Value, resolve: Resolve, resolveProvider: Resolve, u: State)
    requires Keeps(resolve, HasCacheModule) && Keeps(resolveProvider, HasCacheModule)
    requires CacheModule in u.flags
    ensures CacheModule in MockNgDefResult(ngModuleDef, ngModule, resolve, resolveProvider, u).2.flags
  {
    var u0 := WithResolverCache(u);
    ProcessMetaKeepsCacheModule(ngModuleDef, resolve, resolveProvider, u0);
    var meta := ProcessMetaResult(ngModuleDef, resolve, resolveProvider, u0);
    AddExportsKeepsCacheModule(resolve, SkipMock !in u.flags || meta.touched, ngModuleDef, meta.def, ngModule, meta.u);
  }

  lemma AddExportsKeepsCacheModule(resolve: Resolve, changed: bool, ngModuleDef: map<string, Value>, def: MockDef,
                                   ngModule: Value, u: State)
    requires Keeps(resolve, HasCacheModule) && CacheModule in u.flags
    ensures CacheModule in AddExportsResult(resolve, changed, ngModuleDef, def, ngModule, u).u.flags
  {
    var correctExports := SkipMock in u.flags || CorrectModuleExports in u.flags;
    ExportsAfterKeepsCacheModule(resolve, correctExports, ngModule, ExportState(def, changed, u), ExportCandidates(ngModuleDef));
  }
}
