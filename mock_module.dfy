/** libs/ng-mocks/src/lib/mock-module/mock-module.ts: `MockModule` and the
    helpers it is built from.

    Reading the metadata of a module (`coreReflectModuleResolve`) and the
    resolvers `mockNgDef` builds for the dependencies of a module
    (`createResolvers`) are not part of this model; they are parameters.
    Creating the mock class is taking the next fresh identity of the
    universe, and applying `NgModule(...)` and `decorateMock` is an entry of
    its decoration log. */
module MockModule {

  import opened JsValues
  import opened Universe
  import opened ModuleWithProviders
  import JsCollections
  import MockNgDef

  // ---------------------------------------------------------------------------
  // toggling `skipMock` around one module

  /** `ngMocksUniverse.getResolution(ngModule)`. */
  function ResolutionOf(ngModule: Value, u: State): Option<string> {
    if ngModule in u.resolutions then Some(u.resolutions[ngModule]) else None
  }

  /** A module MockBuilder asked to mock, inside a kept one. */
  predicate FlagMock(resolution: Option<string>, u: State) {
    resolution == Some("mock") && SkipMock in u.flags
  }

  /** A module MockBuilder asked to keep, inside a mocked one. */
  predicate FlagKeep(resolution: Option<string>, u: State) {
    resolution == Some("keep") && SkipMock !in u.flags
  }

  /** A module MockBuilder asked to replace, inside a mocked one. */
  predicate FlagReplace(resolution: Option<string>, u: State) {
    resolution == Some("replace") && SkipMock !in u.flags
  }

  /** A module of `coreConfig.neverMockModule`, inside a mocked one. */
  predicate FlagNever(core: CoreConfig, ngModule: Value, u: State) {
    ngModule in core.neverMockModule && SkipMock !in u.flags
  }

  /** `preprocessToggleFlag(ngModule)`: whether `skipMock` has to be toggled
      back afterwards, and the universe with `skipMock` cleared for a module
      to mock and set for a module to keep, replace or never mock. The
      second test reads the flags the first one left. */
  function PreprocessToggleFlag(core: CoreConfig, ngModule: Value, u: State): (r: (bool, State))
    ensures r.1 == u.(flags := r.1.flags)
    ensures r.1.flags - {SkipMock} == u.flags - {SkipMock}
    ensures !r.0 ==> r.1 == u
  {
    var resolution := ResolutionOf(ngModule, u);
    var (toggle, u1) := if FlagMock(resolution, u) then (true, u.(flags := u.flags - {SkipMock})) else (false, u);
    if FlagKeep(resolution, u1) || FlagReplace(resolution, u1) || FlagNever(core, ngModule, u1)
    then (true, u1.(flags := u1.flags + {SkipMock}))
    else (toggle, u1)
  }

  /** `postprocessToggleFlag(toggle)`: when asked, `skipMock` is flipped;
      nothing else changes. */
  function PostprocessToggleFlag(toggle: bool, u: State): (r: State)
    ensures r == u.(flags := r.flags)
    ensures r.flags - {SkipMock} == u.flags - {SkipMock}
    ensures toggle <==> (SkipMock in r.flags <==> SkipMock !in u.flags)
  {
    if toggle && SkipMock in u.flags then u.(flags := u.flags - {SkipMock})
    else if toggle then u.(flags := u.flags + {SkipMock})
    else u
  }

  /** The one case where the pair does not give `skipMock` back: a module
      MockBuilder asked to mock, met inside a kept input, that is also in
      `neverMockModule`. The flag is cleared and set again, yet the toggle
      is recorded, so `postprocessToggleFlag` clears it. */
  predicate MockedNeverModuleInKept(core: CoreConfig, ngModule: Value, u: State) {
    ResolutionOf(ngModule, u) == Some("mock") && SkipMock in u.flags && ngModule in core.neverMockModule
  }

  /** Whatever happens in between, as long as `skipMock` is set after the
      pair's first half exactly when it was set before the second, the pair
      leaves every other flag as it found it and restores `skipMock`, except
      in the case above, which ends with `skipMock` cleared. */
  lemma ToggleRoundTrip(core: CoreConfig, ngModule: Value, u: State, u': State)
    requires SkipMock in u'.flags <==> SkipMock in PreprocessToggleFlag(core, ngModule, u).1.flags
    ensures var r := PostprocessToggleFlag(PreprocessToggleFlag(core, ngModule, u).0, u');
      && r.flags - {SkipMock} == u'.flags - {SkipMock}
      && if MockedNeverModuleInKept(core, ngModule, u) then SkipMock !in r.flags
         else (SkipMock in r.flags <==> SkipMock in u.flags)
  {
  }

  /** While the module is processed, `skipMock` says whether it is kept:
      set for a module to keep, replace or never mock (seen from a mocked
      parent), cleared for one to mock seen from a kept parent. */
  lemma PreprocessDecidesSkipMock(core: CoreConfig, ngModule: Value, u: State)
    ensures var u' := PreprocessToggleFlag(core, ngModule, u).1;
      && (FlagMock(ResolutionOf(ngModule, u), u) && ngModule !in core.neverMockModule ==> SkipMock !in u'.flags)
      && ((FlagKeep(ResolutionOf(ngModule, u), u) || FlagReplace(ResolutionOf(ngModule, u), u) || FlagNever(core, ngModule, u))
          ==> SkipMock in u'.flags)
      && (ResolutionOf(ngModule, u).None? && ngModule !in core.neverMockModule ==> u' == u)
  {
  }

  // ---------------------------------------------------------------------------
  // the input, its providers and an existing mock

  /** `extractModuleAndProviders(input)`: the module of a module with
      providers or the value itself, and the providers when they are truthy
      (`undefined` otherwise). */
  function ExtractModuleAndProviders(input: Value): (r: (Value, Value))
    ensures IsNgModuleDefWithProviders(input) ==> r.0 == Get(input, "ngModule") && TypeOf(r.0) == "function"
    ensures !IsNgModuleDefWithProviders(input) ==> r == (input, Undefined)
    ensures Truthy(r.1) <==> IsNgModuleDefWithProviders(input) && Truthy(Get(input, "providers"))
    ensures Truthy(r.1) ==> r.1 == Get(input, "providers")
    ensures !Truthy(r.1) ==> r.1 == Undefined
  {
    if IsNgModuleDefWithProviders(input) then
      (Get(input, "ngModule"), if Truthy(Get(input, "providers")) then Get(input, "providers") else Undefined)
    else (input, Undefined)
  }

  /** `getExistingMockModule(ngModule)`: the module itself when it is a mock
      module, else its cached mock under `cacheModule`, else a different
      module MockBuilder built for it, else `undefined`. */
  function GetExistingMockModule(ngModule: Value, u: State): Value {
    if IsMockNgDefOf(ngModule, NgModule) then ngModule
    else if CacheModule in u.flags && ngModule in u.cacheDeclarations then u.cacheDeclarations[ngModule]
    else if ngModule in u.builtDeclarations && IsNgDefOf(u.builtDeclarations[ngModule], NgModule)
            && u.builtDeclarations[ngModule] != ngModule then u.builtDeclarations[ngModule]
    else Undefined
  }

  /** The existing mock is looked up in priority order: an input that is a
      mock already, then the cache, then a replacement MockBuilder built; a
      replacement is always another module, and nothing is found when none
      of the three applies. */
  lemma ExistingMockPriority(ngModule: Value, u: State)
    ensures var e := GetExistingMockModule(ngModule, u);
      && (IsMockNgDefOf(ngModule, NgModule) ==> e == ngModule)
      && ((!IsMockNgDefOf(ngModule, NgModule) && CacheModule in u.flags && ngModule in u.cacheDeclarations)
          ==> e == u.cacheDeclarations[ngModule])
      && (e == Undefined <==>
            && !IsMockNgDefOf(ngModule, NgModule)
            && (if CacheModule in u.flags && ngModule in u.cacheDeclarations
                then u.cacheDeclarations[ngModule] == Undefined
                else !(ngModule in u.builtDeclarations && IsNgDefOf(u.builtDeclarations[ngModule], NgModule)
                       && u.builtDeclarations[ngModule] != ngModule)))
      && ((e != Undefined && e != ngModule && !(CacheModule in u.flags && ngModule in u.cacheDeclarations))
          ==> IsNgDefOf(e, NgModule) && ngModule in u.builtDeclarations && e == u.builtDeclarations[ngModule])
  {
  }

  /** Toggling `skipMock` does not change which existing mock is found. */
  lemma ExistingMockIgnoresSkipMock(ngModule: Value, u: State, flags: set<string>)
    requires flags - {SkipMock} == u.flags - {SkipMock}
    ensures GetExistingMockModule(ngModule, u.(flags := flags)) == GetExistingMockModule(ngModule, u)
  {
    assert |CacheModule| != |SkipMock|;
    assert CacheModule in flags - {SkipMock} <==> CacheModule in u.flags - {SkipMock};
  }

  // ---------------------------------------------------------------------------
  // the mock class

  /** `getMockModuleDef(ngModule, mockModule)`: without an existing mock,
      the mock metadata `mockNgDef` builds from the module's own metadata
      (`reflect`), when it differs from the original. */
  function GetMockModuleDef(ngModule: Value, mockModule: Value, reflect: Value -> map<string, Value>,
                            resolve: MockNgDef.Resolve, resolveProvider: MockNgDef.Resolve, u: State)
    : (r: (Option<MockNgDef.MockDef>, State))
    ensures Truthy(mockModule) ==> r == (None, u)
  {
    if Truthy(mockModule) then (None, u)
    else
      var (changed, def, u') := MockNgDef.MockNgDefResult(reflect(ngModule), ngModule, resolve, resolveProvider, u);
      (if changed then Some(def) else None, u')
  }

  /** The class `extendClass(parent)` creates for `ngModule` in `u`. */
  function NewMockModule(ngModule: Value, u: State): Value
    requires TypeOf(ngModule) == "function"
  {
    Class(u.nextId, "MockOf" + FunctionName(ngModule), NgModule, Some(ngModule))
  }

  /** `detectMockModule(ngModule, mockModule)`: with mock metadata, a new
      mock module class extending the original under `skipMock` and `Mock`
      otherwise; without, the existing mock or the module itself. */
  function DetectMockModule(ngModule: Value, mockModule: Value, reflect: Value -> map<string, Value>,
                            resolve: MockNgDef.Resolve, resolveProvider: MockNgDef.Resolve, u: State)
    : (r: (Value, State))
    requires TypeOf(ngModule) == "function"
    ensures var (def, u') := GetMockModuleDef(ngModule, mockModule, reflect, resolve, resolveProvider, u);
      && (def.Some? ==>
            && IsMockOf(r.0, ngModule) && IsMockNgDefOf(r.0, NgModule) && r.0.id == u'.nextId
            && r.1.nextId == u'.nextId + 1
            && r.1.decorations == u'.decorations
                 + [NgModuleDecorator(r.0, if SkipMock in u'.flags then ngModule else MockBase, def.value)]
            && r.1 == u'.(decorations := r.1.decorations, nextId := r.1.nextId))
      && (def.None? ==> r == (if Truthy(mockModule) then mockModule else ngModule, u'))
  {
    var (def, u') := GetMockModuleDef(ngModule, mockModule, reflect, resolve, resolveProvider, u);
    if def.Some? then
      var parent := if SkipMock in u'.flags then ngModule else MockBase;
      var mock := NewMockModule(ngModule, u');
      (mock, u'.(decorations := u'.decorations + [NgModuleDecorator(mock, parent, def.value)], nextId := u'.nextId + 1))
    else (if Truthy(mockModule) then mockModule else ngModule, u')
  }

  /** An existing mock is used as it is: no metadata is built and the
      universe is left alone. */
  lemma ExistingMockIsReused(ngModule: Value, mockModule: Value, reflect: Value -> map<string, Value>,
                             resolve: MockNgDef.Resolve, resolveProvider: MockNgDef.Resolve, u: State)
    requires TypeOf(ngModule) == "function" && Truthy(mockModule)
    ensures DetectMockModule(ngModule, mockModule, reflect, resolve, resolveProvider, u) == (mockModule, u)
  {
  }

  /** Without `skipMock` and without an existing mock, a new mock class is
      always created. */
  lemma MockedWithoutSkipMock(ngModule: Value, mockModule: Value, reflect: Value -> map<string, Value>,
                              resolve: MockNgDef.Resolve, resolveProvider: MockNgDef.Resolve, u: State)
    requires TypeOf(ngModule) == "function" && !Truthy(mockModule) && SkipMock !in u.flags
    ensures var mock := DetectMockModule(ngModule, mockModule, reflect, resolve, resolveProvider, u).0;
      IsMockOf(mock, ngModule) && IsMockNgDefOf(mock, NgModule) && mock != ngModule
  {
    MockNgDef.ChangedWithoutSkipMock(reflect(ngModule), ngModule, resolve, resolveProvider, u);
  }

  // ---------------------------------------------------------------------------
  // providers and the returned value

  /** What `getMockProviders` hands back, told apart by identity: nothing
      for no providers, the very array it was given when nothing changed, or
      the `providers` of the new mock metadata (a new array, or `undefined`
      when the metadata has none). */
  datatype MockProviders = Absent | Original | Rebuilt(items: Option<seq<Value>>)

  /** `getMockProviders(ngModuleProviders)`. */
  function GetMockProviders(providers: Value, resolve: MockNgDef.Resolve, resolveProvider: MockNgDef.Resolve, u: State)
    : (r: (MockProviders, State))
    ensures r.0.Absent? <==> !Truthy(providers)
    ensures r.0.Absent? ==> r.1 == u
    ensures Truthy(providers) ==>
      var res := MockNgDef.MockNgDefResult(map["providers" := providers], Undefined, resolve, resolveProvider, u);
      && (r.0.Original? <==> !res.0)
      && (r.0.Rebuilt? ==> r.0.items == (if "providers" in res.1 then Some(res.1["providers"]) else None))
      && r.1 == res.2
  {
    if !Truthy(providers) then (Absent, u)
    else
      var (changed, def, u') := MockNgDef.MockNgDefResult(map["providers" := providers], Undefined, resolve, resolveProvider, u);
      (if !changed then Original else Rebuilt(if "providers" in def then Some(def["providers"]) else None), u')
  }

  /** The providers as a value: `undefined`, the given array, or the new one. */
  function ProvidersValue(out: MockProviders, providers: Value): Value {
    match out
    case Absent => Undefined
    case Original => providers
    case Rebuilt(items) => if items.Some? then Arr(items.value) else Undefined
  }

  /** What `MockModule` returns: the very value it was given, a new
      `{ngModule, providers?}` object, or a module class. */
  datatype Returned = SameInput | Wrapped(ngModule: Value, providers: Option<Value>) | Bare(mock: Value)

  /** `generateReturn(...)`: the input itself when neither the module nor
      its providers changed (`===`), a new module with providers for a
      module with providers, the mock module otherwise. */
  function GenerateReturn(input: Value, ngModule: Value, providers: Value, mockModule: Value, out: MockProviders): (r: Returned)
    ensures r.SameInput? <==> mockModule == ngModule && !out.Rebuilt?
    ensures r.Wrapped? <==> !r.SameInput? && IsNgModuleDefWithProviders(input)
    ensures r.Wrapped? ==>
      && r.ngModule == mockModule
      && (r.providers.Some? <==> Truthy(ProvidersValue(out, providers)))
      && (r.providers.Some? ==> r.providers.value == ProvidersValue(out, providers))
    ensures r.Bare? ==> r.mock == mockModule
  {
    var mockProviders := ProvidersValue(out, providers);
    if mockModule == ngModule && (out.Absent? || out.Original?) then SameInput
    else if IsNgModuleDefWithProviders(input) then Wrapped(mockModule, if Truthy(mockProviders) then Some(mockProviders) else None)
    else Bare(mockModule)
  }

  /** The value behind a `Returned`. A new `{ngModule, providers}` object
      is a fresh object in the source; every such object here carries the
      identity 0, so the model does not tell two of them apart. */
  function ReturnedValue(r: Returned, input: Value): Value {
    match r
    case SameInput => input
    case Wrapped(m, p) => Obj(0, if p.Some? then map["ngModule" := m, "providers" := p.value] else map["ngModule" := m])
    case Bare(m) => m
  }

  // ---------------------------------------------------------------------------
  // MockModule

  /** The two universe updates after the mock is known: under `cacheModule`
      the mock is cached for the input, and under `skipMock` it is added to
      the `ngMocksDepsSkip` set when there is one. */
  function RecordMock(ngModule: Value, mockModule: Value, u: State): (r: State)
    ensures CacheModule in u.flags ==> ngModule in r.cacheDeclarations && r.cacheDeclarations[ngModule] == mockModule
    ensures CacheModule !in u.flags ==> r.cacheDeclarations == u.cacheDeclarations
    ensures forall d :: d in u.cacheDeclarations && d != ngModule ==>
      d in r.cacheDeclarations && r.cacheDeclarations[d] == u.cacheDeclarations[d]
    ensures SkipMock in u.flags && DepsSkipKey in u.config && u.config[DepsSkipKey].ValueSet? ==>
      DepsSkipKey in r.config && r.config[DepsSkipKey].ValueSet?
      && (forall x :: x in r.config[DepsSkipKey].items <==> x in u.config[DepsSkipKey].items || x == mockModule)
    ensures !(SkipMock in u.flags && DepsSkipKey in u.config && u.config[DepsSkipKey].ValueSet?) ==> r.config == u.config
    ensures forall k :: k in u.config && k != DepsSkipKey ==> k in r.config && r.config[k] == u.config[k]
    ensures r == u.(cacheDeclarations := r.cacheDeclarations, config := r.config)
  {
    var u1 := if CacheModule in u.flags then u.(cacheDeclarations := u.cacheDeclarations[ngModule := mockModule]) else u;
    if SkipMock in u1.flags && DepsSkipKey in u1.config && u1.config[DepsSkipKey].ValueSet? then
      u1.(config := u1.config[DepsSkipKey := ValueSet(JsCollections.SetAdd(u1.config[DepsSkipKey].items, mockModule))])
    else u1
  }

  /** `MockModule(input)` for a module class or a module with providers:
      the value it returns and the universe afterwards. */
  function MockModuleResult(input: Value, core: CoreConfig, reflect: Value -> map<string, Value>,
                            resolve: MockNgDef.Resolve, resolveProvider: MockNgDef.Resolve, u: State)
    : (r: (Returned, State))
    requires TypeOf(input) == "function" || IsNgModuleDefWithProviders(input)
    ensures r.0.Wrapped? <==> IsNgModuleDefWithProviders(input) && !r.0.SameInput?
    ensures TypeOf(input) == "function" ==> !r.0.Wrapped?
  {
    var (ngModule, providers) := ExtractModuleAndProviders(input);
    var (toggle, u1) := PreprocessToggleFlag(core, ngModule, u);
    var (mockModule, u2) := DetectMockModule(ngModule, GetExistingMockModule(ngModule, u1), reflect, resolve, resolveProvider, u1);
    var u3 := RecordMock(ngModule, mockModule, u2);
    var (out, u4) := GetMockProviders(providers, resolve, resolveProvider, u3);
    (GenerateReturn(input, ngModule, providers, mockModule, out), PostprocessToggleFlag(toggle, u4))
  }

  /** A module class that already has a mock (it is one, it is cached, or
      MockBuilder built a replacement) is answered with that mock: the
      very input when it is a mock itself, and no class is created. Under
      `cacheModule` the answer is cached for the module. */
  lemma MockModuleReusesExisting(input: Value, core: CoreConfig, reflect: Value -> map<string, Value>,
                                 resolve: MockNgDef.Resolve, resolveProvider: MockNgDef.Resolve, u: State)
    requires TypeOf(input) == "function" && Truthy(GetExistingMockModule(input, u))
    ensures var (r, u') := MockModuleResult(input, core, reflect, resolve, resolveProvider, u);
      var e := GetExistingMockModule(input, u);
      && ReturnedValue(r, input) == e
      && (e == input <==> r.SameInput?)
      && u'.nextId == u.nextId && u'.decorations == u.decorations
      && (CacheModule in u.flags ==> input in u'.cacheDeclarations && u'.cacheDeclarations[input] == e)
  {
    FunctionsAreRejected(input);
    var (toggle, u1) := PreprocessToggleFlag(core, input, u);
    ExistingMockIgnoresSkipMock(input, u, u1.flags);
    ExistingMockIsReused(input, GetExistingMockModule(input, u), reflect, resolve, resolveProvider, u1);
  }

  /** A mock module is its own mock: `MockModule` returns it unchanged. */
  lemma MockOfMockIsItself(input: Value, core: CoreConfig, reflect: Value -> map<string, Value>,
                           resolve: MockNgDef.Resolve, resolveProvider: MockNgDef.Resolve, u: State)
    requires IsMockNgDefOf(input, NgModule)
    ensures MockModuleResult(input, core, reflect, resolve, resolveProvider, u).0 == SameInput
  {
    MockModuleReusesExisting(input, core, reflect, resolve, resolveProvider, u);
  }

  /** A module class with no existing mock, processed without `skipMock`
      (nothing asked to keep it), becomes a new mock class of that module. */
  lemma MockModuleCreatesMock(input: Value, core: CoreConfig, reflect: Value -> map<string, Value>,
                              resolve: MockNgDef.Resolve, resolveProvider: MockNgDef.Resolve, u: State)
    requires TypeOf(input) == "function" && !Truthy(GetExistingMockModule(input, u))
    requires SkipMock !in PreprocessToggleFlag(core, input, u).1.flags
    ensures var r := MockModuleResult(input, core, reflect, resolve, resolveProvider, u).0;
      r.Bare? && IsMockOf(r.mock, input) && IsMockNgDefOf(r.mock, NgModule)
  {
    FunctionsAreRejected(input);
    assert ExtractModuleAndProviders(input) == (input, Undefined);
    var (toggle, u1) := PreprocessToggleFlag(core, input, u);
    ExistingMockIgnoresSkipMock(input, u, u1.flags);
    var e := GetExistingMockModule(input, u1);
    MockedWithoutSkipMock(input, e, reflect, resolve, resolveProvider, u1);
    var (mockModule, u2) := DetectMockModule(input, e, reflect, resolve, resolveProvider, u1);
    var u3 := RecordMock(input, mockModule, u2);
    assert GetMockProviders(Undefined, resolve, resolveProvider, u3) == (Absent, u3);
    assert GenerateReturn(input, input, Undefined, mockModule, Absent) == Bare(mockModule);
  }

  /** With `cacheModule` set, a module class is afterwards cached with the
      very value `MockModule` returned for it, as long as the resolvers
      leave `cacheModule` set. */
  lemma MockModuleCachesResult(input: Value, core: CoreConfig, reflect: Value -> map<string, Value>,
                               resolve: MockNgDef.Resolve, resolveProvider: MockNgDef.Resolve, u: State)
    requires TypeOf(input) == "function" && CacheModule in u.flags
    requires MockNgDef.Keeps(resolve, MockNgDef.HasCacheModule) && MockNgDef.Keeps(resolveProvider, MockNgDef.HasCacheModule)
    ensures var res := MockModuleResult(input, core, reflect, resolve, resolveProvider, u);
      input in res.1.cacheDeclarations && res.1.cacheDeclarations[input] == ReturnedValue(res.0, input)
  {
    var pre := PreprocessToggleFlag(core, input, u);
    assert |CacheModule| != |SkipMock|;
    assert CacheModule in pre.1.flags - {SkipMock};
    var e := GetExistingMockModule(input, pre.1);
    if !Truthy(e) {
      MockNgDef.CacheModuleKept(reflect(input), input, resolve, resolveProvider, pre.1);
    }
    var detected := DetectMockModule(input, e, reflect, resolve, resolveProvider, pre.1);
    assert CacheModule in detected.1.flags;
    ClassResult(input, core, reflect, resolve, resolveProvider, u);
  }

  /** For a module class there are no providers to mock: the class's mock
      is returned, as the very input or bare. */
  lemma ClassResult(input: Value, core: CoreConfig, reflect: Value -> map<string, Value>,
                    resolve: MockNgDef.Resolve, resolveProvider: MockNgDef.Resolve, u: State)
    requires TypeOf(input) == "function"
    ensures var pre := PreprocessToggleFlag(core, input, u);
      var detected := DetectMockModule(input, GetExistingMockModule(input, pre.1), reflect, resolve, resolveProvider, pre.1);
      var res := MockModuleResult(input, core, reflect, resolve, resolveProvider, u);
      && ReturnedValue(res.0, input) == detected.0
      && res.1 == PostprocessToggleFlag(pre.0, RecordMock(input, detected.0, detected.1))
  {
    FunctionsAreRejected(input);
    assert ExtractModuleAndProviders(input) == (input, Undefined);
  }

  /** `MockModule(module)` step by step, as the source runs it: the
      imperative rendering of the steps, whose specification is the
      function `MockModuleResult` (the lemmas above are stated about that
      function, and this method's ensures ties the two). */
  method MockModule(input: Value, core: CoreConfig, reflect: Value -> map<string, Value>,
                    resolve: MockNgDef.Resolve, resolveProvider: MockNgDef.Resolve, u: State)
    returns (r: Returned, u': State)
    requires TypeOf(input) == "function" || IsNgModuleDefWithProviders(input)
    ensures (r, u') == MockModuleResult(input, core, reflect, resolve, resolveProvider, u)
  {
    var (ngModule, providers) := ExtractModuleAndProviders(input);
    var pre := PreprocessToggleFlag(core, ngModule, u);
    var toggle := pre.0;
    u' := pre.1;
    var detected := DetectMockModule(ngModule, GetExistingMockModule(ngModule, u'), reflect, resolve, resolveProvider, u');
    var mockModule := detected.0;
    u' := detected.1;
    if CacheModule in u'.flags {
      u' := u'.(cacheDeclarations := u'.cacheDeclarations[ngModule := mockModule]);
    }
    if SkipMock in u'.flags && DepsSkipKey in u'.config && u'.config[DepsSkipKey].ValueSet? {
      u' := u'.(config := u'.config[DepsSkipKey := ValueSet(JsCollections.SetAdd(u'.config[DepsSkipKey].items, mockModule))]);
    }
    var got := GetMockProviders(providers, resolve, resolveProvider, u');
    var out := got.0;
    u' := got.1;
    u' := PostprocessToggleFlag(toggle, u');
    r := GenerateReturn(input, ngModule, providers, mockModule, out);
  }
}
