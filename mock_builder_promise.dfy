/** lib/mock-builder/mock-builder.promise.ts: the policy
    tables of `MockBuilder` and the chainable calls that fill them.

    `parseMockArguments` (which splits the optional arguments of `.mock`
    into a mock value and a config) is not part of this model: `.mock`
    takes its result. `build`, `then`, `catch` and `finally` configure
    `TestBed` and are left out. */
module MockBuilder {

  import opened JsValues
  import opened ModuleWithProviders
  import CoreHelpers
  import JsCollections
  import CloneProviders
  import MockModule

  // ---------------------------------------------------------------------------
  // the pure helpers

  /** `normaliseModule(input)`: the declaration and the providers of a
      module with providers, or the value itself without providers. */
  function NormaliseModule(input: Value): (r: (Value, Value))
    ensures IsNgModuleDefWithProviders(input) ==> r == (Get(input, "ngModule"), Get(input, "providers"))
    ensures !IsNgModuleDefWithProviders(input) ==> r == (input, Undefined)
  {
    if IsNgModuleDefWithProviders(input) then (Get(input, "ngModule"), Get(input, "providers")) else (input, Undefined)
  }

  /** `normaliseModule` and `MockModule`'s `extractModuleAndProviders` agree
      on the declaration, and on the providers whenever either has any. */
  lemma NormaliseAgreesWithMockModule(input: Value)
    ensures var (def, providers) := NormaliseModule(input);
      var (ngModule, ngModuleProviders) := MockModule.ExtractModuleAndProviders(input);
      && def == ngModule
      && (Truthy(providers) <==> Truthy(ngModuleProviders))
      && (Truthy(providers) ==> providers == ngModuleProviders)
  {
  }

  datatype ParsedProvider = ParsedProvider(multi: bool, provide: Value)

  /** `parseProvider(provider)`: the token of a provider object with a
      truthy `provide` (the value itself otherwise), and whether it is a
      multi provider. Reading `provide` of `null` throws (`None`). */
  function ParseProvider(provider: Value): (r: Option<ParsedProvider>)
    ensures r.None? <==> provider.Null?
    ensures r.Some? ==> r.value.provide == CloneProviders.GetProvider(provider)
    ensures r.Some? ==> (r.value.multi <==> provider.Obj? && Truthy(Get(provider, "provide")) && Truthy(Get(provider, "multi")))
  {
    if provider.Null? then None
    else
      var isObject := TypeOf(provider) == "object";
      var provide := if isObject && Truthy(Get(provider, "provide")) then Get(provider, "provide") else provider;
      Some(ParsedProvider(isObject && Truthy(Get(provider, "provide")) && Truthy(Get(provider, "multi")), provide))
  }

  /** `generateProviderValue(provider, existing, multi)`: a multi provider
      is appended to the array stored so far (to a fresh one when what is
      stored is not an array); any other provider replaces what is stored. */
  function GenerateProviderValue(provider: Value, existing: Value, multi: bool): (r: Value)
    ensures !multi ==> r == provider
    ensures multi ==>
      && r.Arr? && |r.items| > 0 && r.items[|r.items| - 1] == provider
      && r.items[..|r.items| - 1] == (if existing.Arr? then existing.items else [])
  {
    if multi then Arr((if existing.Arr? then existing.items else []) + [provider]) else provider
  }

  /** The second argument of `.mock` once `parseMockArguments` has read it:
      the private `defaultMock` marker, or a mock value. */
  datatype MockArg = DefaultMock | Given(value: Value)

  // ---------------------------------------------------------------------------
  // the policy tables

  /** `BuilderData`: the eight tables `combineParams` hands to `build`. */
  datatype BuilderData = BuilderData(
    configDef: map<Value, Value>,
    defProviders: map<Value, seq<Value>>,
    defValue: map<Value, Value>,
    excludeDef: set<Value>,
    keepDef: set<Value>,
    mockDef: set<Value>,
    providerDef: map<Value, Value>,
    replaceDef: set<Value>
  )

  const EmptyData := BuilderData(map[], map[], map[], {}, {}, {}, map[], {})

  datatype Policy = Excluded | Kept | Mocked | Replaced | Provided

  /** The policies the tables record for `x`. */
  function PoliciesOf(data: BuilderData, x: Value): set<Policy> {
    (if x in data.excludeDef then {Excluded} else {})
    + (if x in data.keepDef then {Kept} else {})
    + (if x in data.mockDef then {Mocked} else {})
    + (if x in data.replaceDef then {Replaced} else {})
    + (if x in data.providerDef then {Provided} else {})
  }

  /** The tables every sequence of calls keeps: at most one policy per key,
      providers of a module only for a kept or mocked one, a value only for
      a mocked or replaced one, and every replaced key has its destination. */
  predicate Consistent(data: BuilderData) {
    && data.excludeDef !! data.keepDef && data.excludeDef !! data.mockDef && data.excludeDef !! data.replaceDef
    && data.keepDef !! data.mockDef && data.keepDef !! data.replaceDef && data.mockDef !! data.replaceDef
    && data.providerDef.Keys !! (data.excludeDef + data.keepDef + data.mockDef + data.replaceDef)
    && data.defProviders.Keys <= data.keepDef + data.mockDef
    && data.defValue.Keys <= data.mockDef + data.replaceDef
    && data.replaceDef <= data.defValue.Keys
  }

  /** Under `Consistent` a key has at most one policy. */
  lemma ConsistentMeansOnePolicy(data: BuilderData, x: Value)
    requires Consistent(data)
    ensures PoliciesOf(data, x) == {} || exists p :: PoliciesOf(data, x) == {p}
  {
    if x in data.excludeDef { assert PoliciesOf(data, x) == {Excluded}; }
    else if x in data.keepDef { assert PoliciesOf(data, x) == {Kept}; }
    else if x in data.mockDef { assert PoliciesOf(data, x) == {Mocked}; }
    else if x in data.replaceDef { assert PoliciesOf(data, x) == {Replaced}; }
    else if x in data.providerDef { assert PoliciesOf(data, x) == {Provided}; }
  }

  /** `wipe(def)` on the tables: `def` leaves every table but `configDef`. */
  function Wiped(data: BuilderData, d: Value): (r: BuilderData)
    ensures PoliciesOf(r, d) == {} && d !in r.defProviders && d !in r.defValue
    ensures r.configDef == data.configDef
  {
    data.(defProviders := data.defProviders - {d}, defValue := data.defValue - {d},
          excludeDef := data.excludeDef - {d}, keepDef := data.keepDef - {d}, mockDef := data.mockDef - {d},
          providerDef := data.providerDef - {d}, replaceDef := data.replaceDef - {d})
  }

  /** `setConfigDef(def, config)`: a truthy config is stored, any other
      removes the stored one. */
  function WithConfig(data: BuilderData, d: Value, config: Value): BuilderData {
    data.(configDef := if Truthy(config) then data.configDef[d := config] else data.configDef - {d})
  }

  /** `exclude(def)`: `def` is excluded and loses its providers and its
      value; the configs stay as they are. */
  function ExcludedData(data: BuilderData, d: Value): (r: BuilderData)
    ensures PoliciesOf(r, d) == {Excluded}
    ensures d !in r.defProviders && d !in r.defValue
    ensures r.configDef == data.configDef
  {
    var w := Wiped(data, d);
    w.(excludeDef := w.excludeDef + {d})
  }

  /** The providers a module already kept (or mocked) has collected:
      `has(def) ? defProviders.get(def) : []`, with `|| []`. */
  function Collected(policySet: set<Value>, defProviders: map<Value, seq<Value>>, d: Value): seq<Value> {
    if d in policySet && d in defProviders then defProviders[d] else []
  }

  /** `keep(input, config)`: the new tables, and whether spreading the
      providers threw (after `def` was already moved to `keepDef`). Kept
      again, a module appends its new providers to those it collected while
      kept; coming from another policy it starts afresh; without providers
      it has none. */
  function KeptData(data: BuilderData, input: Value, config: Value): (r: (BuilderData, bool))
    ensures var (d, providers) := NormaliseModule(input);
      && (r.1 <==> Truthy(providers) && Spread(providers).None?)
      && PoliciesOf(r.0, d) == {Kept}
      && (Truthy(providers) && !r.1 ==>
            d in r.0.defProviders
            && r.0.defProviders[d] == Collected(data.keepDef, data.defProviders, d) + Spread(providers).value)
      && (!Truthy(providers) || r.1 ==> d !in r.0.defProviders)
      && d !in r.0.defValue
      && (r.1 ==> r.0.configDef == data.configDef)
  {
    var (d, providers) := NormaliseModule(input);
    var existing := Collected(data.keepDef, data.defProviders, d);
    var w := Wiped(data, d);
    var w1 := w.(keepDef := w.keepDef + {d});
    if Truthy(providers) && Spread(providers).None? then (w1, true)
    else
      var w2 := if Truthy(providers) then w1.(defProviders := w1.defProviders[d := existing + Spread(providers).value]) else w1;
      (WithConfig(w2, d, config), false)
  }

  /** `mock(input, mock, config)`, with the mock value and the config as
      `parseMockArguments` returns them. Providers collect as under
      `keep`, but only across `mock` calls. */
  function MockedData(data: BuilderData, input: Value, mock: MockArg, config: Value): (r: (BuilderData, bool))
    ensures var (d, providers) := NormaliseModule(input);
      && (r.1 <==> Truthy(providers) && Spread(providers).None?)
      && PoliciesOf(r.0, d) == {Mocked}
      && (Truthy(providers) && !r.1 ==>
            d in r.0.defProviders
            && r.0.defProviders[d] == Collected(data.mockDef, data.defProviders, d) + Spread(providers).value)
      && (!Truthy(providers) || r.1 ==> d !in r.0.defProviders)
      && (r.1 ==> d !in r.0.defValue && r.0.configDef == data.configDef)
  {
    var (d, providers) := NormaliseModule(input);
    var existing := Collected(data.mockDef, data.defProviders, d);
    var w := Wiped(data, d);
    var w1 := w.(mockDef := w.mockDef + {d});
    if Truthy(providers) && Spread(providers).None? then (w1, true)
    else
      var w2 := if Truthy(providers) then w1.(defProviders := w1.defProviders[d := existing + Spread(providers).value]) else w1;
      var w3 := w2.(defValue := if mock.Given? then w2.defValue[d := mock.value] else w2.defValue - {d});
      (WithConfig(w3, d, config), false)
  }

  /** `isNgDef(x)` without a kind: a class Angular decorated. */
  predicate IsAnyNgDef(x: Value) {
    x.Class? && x.kind != PlainClass
  }

  const ReplaceError := "Cannot replace the declaration, both have to be a Module, a Component, a Directive or a Pipe, for Providers use `.mock` or `.provide`"

  /** `replace(source, destination, config)`: rejected, before anything
      changes, unless both sides are Angular declarations other than
      injectables. */
  function ReplacedData(data: BuilderData, source: Value, destination: Value, config: Value): (r: Result<BuilderData, string>)
    ensures r.Err? <==> !(source.Class? && source.kind in {NgModule, Component, Directive, Pipe}
                          && destination.Class? && destination.kind in {NgModule, Component, Directive, Pipe})
    ensures r.Err? ==> r.error == ReplaceError
    ensures r.Ok? ==>
      && PoliciesOf(r.value, source) == {Replaced}
      && source in r.value.defValue && r.value.defValue[source] == destination
      && source !in r.value.defProviders
      && (Truthy(config) <==> source in r.value.configDef)
      && (Truthy(config) ==> r.value.configDef[source] == config)
  {
    if !IsAnyNgDef(destination) || !IsAnyNgDef(source) || IsNgDefOf(destination, Injectable) || IsNgDefOf(source, Injectable)
    then Err(ReplaceError)
    else
      var w := Wiped(data, source);
      Ok(WithConfig(w.(replaceDef := w.replaceDef + {source}, defValue := w.defValue[source := destination]), source, config))
  }

  /** One iteration of `provide`: the token is wiped and the provider stored
      under it; a `null` provider throws. */
  function ProvideStep(data: BuilderData, provider: Value): (r: Option<BuilderData>)
    ensures r.None? <==> provider.Null?
    ensures r.Some? ==> var token := ParseProvider(provider).value.provide;
      && PoliciesOf(r.value, token) == {Provided}
      && token !in r.value.defProviders && token !in r.value.defValue
      && r.value.configDef == data.configDef
  {
    var parsed := ParseProvider(provider);
    if parsed.None? then None
    else
      var existing := if parsed.value.provide in data.providerDef then data.providerDef[parsed.value.provide] else Arr([]);
      var w := Wiped(data, parsed.value.provide);
      Some(w.(providerDef := w.providerDef[parsed.value.provide := GenerateProviderValue(provider, existing, parsed.value.multi)]))
  }

  /** `provide` over the flattened providers, in order, stopping at the
      first one that throws (`true`). It never touches the configs and
      never gives a key a policy other than `provide`. */
  function ProvideAll(data: BuilderData, items: seq<Value>): (r: (BuilderData, bool))
    ensures r.0.configDef == data.configDef
    ensures r.0.excludeDef <= data.excludeDef && r.0.keepDef <= data.keepDef
    ensures r.0.mockDef <= data.mockDef && r.0.replaceDef <= data.replaceDef
    ensures r.0.defProviders.Keys <= data.defProviders.Keys && r.0.defValue.Keys <= data.defValue.Keys
    decreases |items|
  {
    if items == [] then (data, false)
    else
      var step := ProvideStep(data, items[0]);
      if step.None? then (data, true) else ProvideAll(step.value, items[1..])
  }

  // ---------------------------------------------------------------------------
  // the class

  class MockBuilderPromise {
    /** the `beforeCC` set, in insertion order */
    var beforeCC: seq<Value>
    var configDef: map<Value, Value>
    var defProviders: map<Value, seq<Value>>
    var defValue: map<Value, Value>
    var excludeDef: set<Value>
    var keepDef: set<Value>
    var mockDef: set<Value>
    var providerDef: map<Value, Value>
    var replaceDef: set<Value>

    constructor ()
      ensures CombineParams() == EmptyData && beforeCC == []
    {
      beforeCC := [];
      configDef := map[];
      defProviders := map[];
      defValue := map[];
      excludeDef := {};
      keepDef := {};
      mockDef := {};
      providerDef := map[];
      replaceDef := {};
    }

    /** `combineParams()` */
    function CombineParams(): BuilderData
      reads this
    {
      BuilderData(configDef, defProviders, defValue, excludeDef, keepDef, mockDef, providerDef, replaceDef)
    }

    /** The tables are `Consistent`: every public call keeps this. */
    predicate Valid()
      reads this
    {
      Consistent(CombineParams())
    }

    /** `beforeCompileComponents(callback)`: the callback joins the set once. */
    method BeforeCompileComponents(callback: Value)
      modifies this
      ensures beforeCC == JsCollections.SetAdd(old(beforeCC), callback)
      ensures CombineParams() == old(CombineParams())
    {
      beforeCC := JsCollections.SetAdd(beforeCC, callback);
    }

    method Wipe(d: Value)
      modifies this
      ensures CombineParams() == Wiped(old(CombineParams()), d)
      ensures beforeCC == old(beforeCC)
    {
      defProviders := defProviders - {d};
      defValue := defValue - {d};
      excludeDef := excludeDef - {d};
      keepDef := keepDef - {d};
      mockDef := mockDef - {d};
      providerDef := providerDef - {d};
      replaceDef := replaceDef - {d};
    }

    method SetConfigDef(d: Value, config: Value)
      modifies this
      ensures CombineParams() == WithConfig(old(CombineParams()), d, config)
      ensures beforeCC == old(beforeCC)
    {
      if Truthy(config) {
        configDef := configDef[d := config];
      } else {
        configDef := configDef - {d};
      }
    }

    method SetDefValue(d: Value, mock: MockArg)
      modifies this
      ensures CombineParams() == old(CombineParams()).(defValue := if mock.Given? then old(defValue)[d := mock.value] else old(defValue) - {d})
      ensures beforeCC == old(beforeCC)
    {
      if mock.Given? {
        defValue := defValue[d := mock.value];
      } else {
        defValue := defValue - {d};
      }
    }

    method Exclude(d: Value)
      modifies this
      ensures CombineParams() == ExcludedData(old(CombineParams()), d)
      ensures beforeCC == old(beforeCC)
      ensures old(Valid()) ==> Valid()
    {
      ExcludeWins(CombineParams(), d, d);
      Wipe(d);
      excludeDef := excludeDef + {d};
    }

    /** `keep(input, config)`; `thrown` is the `TypeError` of spreading
      providers that are not iterable. */
    method Keep(input: Value, config: Value) returns (thrown: bool)
      modifies this
      ensures (CombineParams(), thrown) == KeptData(old(CombineParams()), input, config)
      ensures beforeCC == old(beforeCC)
      ensures old(Valid()) ==> Valid()
    {
      var (d, providers) := NormaliseModule(input);
      var existing := if d in keepDef && d in defProviders then defProviders[d] else [];
      ghost var w := Wiped(old(CombineParams()), d);
      Wipe(d);
      keepDef := keepDef + {d};
      assert CombineParams() == w.(keepDef := w.keepDef + {d});
      thrown := false;
      if Truthy(providers) {
        var items := Spread(providers);
        if items.None? {
          thrown := true;
        } else {
          defProviders := defProviders[d := existing + items.value];
        }
      }
      if !thrown {
        SetConfigDef(d, config);
      }
      assert (CombineParams(), thrown) == KeptData(old(CombineParams()), input, config);
      if Consistent(old(CombineParams())) {
        KeepKeepsConsistent(old(CombineParams()), input, config);
      }
    }

    /** `mock(input, a1, a2)` with `parseMockArguments`' result. */
    method Mock(input: Value, mock: MockArg, config: Value) returns (thrown: bool)
      modifies this
      ensures (CombineParams(), thrown) == MockedData(old(CombineParams()), input, mock, config)
      ensures beforeCC == old(beforeCC)
      ensures old(Valid()) ==> Valid()
    {
      ghost var target := MockedData(CombineParams(), input, mock, config).0;
      if Valid() {
        MockKeepsConsistent(CombineParams(), input, mock, config);
        assert Consistent(target);
      }
      var (d, providers) := NormaliseModule(input);
      var existing := if d in mockDef && d in defProviders then defProviders[d] else [];
      ghost var w := Wiped(old(CombineParams()), d);
      Wipe(d);
      mockDef := mockDef + {d};
      ghost var w1 := w.(mockDef := w.mockDef + {d});
      assert CombineParams() == w1;
      if Truthy(providers) {
        var items := Spread(providers);
        if items.None? {
          return true;
        }
        defProviders := defProviders[d := existing + items.value];
      }
      ghost var w2 := CombineParams();
      SetDefValue(d, mock);
      assert CombineParams() == w2.(defValue := if mock.Given? then w2.defValue[d := mock.value] else w2.defValue - {d});
      SetConfigDef(d, config);
      return false;
    }

    /** `replace(source, destination, config)`; the error is the thrown one. */
    method Replace(source: Value, destination: Value, config: Value) returns (error: Option<string>)
      modifies this
      ensures var r := ReplacedData(old(CombineParams()), source, destination, config);
        && (r.Err? ==> error == Some(r.error) && CombineParams() == old(CombineParams()))
        && (r.Ok? ==> error.None? && CombineParams() == r.value)
      ensures beforeCC == old(beforeCC)
      ensures old(Valid()) ==> Valid()
    {
      ReplaceWins(CombineParams(), source, destination, config, source);
      if !IsAnyNgDef(destination) || !IsAnyNgDef(source) || IsNgDefOf(destination, Injectable) || IsNgDefOf(source, Injectable) {
        return Some(ReplaceError);
      }
      Wipe(source);
      replaceDef := replaceDef + {source};
      defValue := defValue[source := destination];
      if Truthy(config) {
        configDef := configDef[source := config];
      } else {
        configDef := configDef - {source};
      }
      return None;
    }

    /** `provide(def)`: every provider of `flatten(def)` in turn. */
    method Provide(def: Value) returns (thrown: bool)
      modifies this
      ensures (CombineParams(), thrown) == ProvideAll(old(CombineParams()), CoreHelpers.Leaves(def))
      ensures beforeCC == old(beforeCC)
      ensures old(Valid()) ==> Valid()
    {
      if Consistent(CombineParams()) {
        ProvideKeepsConsistent(CombineParams(), CoreHelpers.Leaves(def));
      }
      var items := CoreHelpers.Flatten(def, []);
      assert items == CoreHelpers.Leaves(def);
      thrown := ProvideEach(items);
    }

    /** The loop of `provide`. */
    method ProvideEach(items: seq<Value>) returns (thrown: bool)
      modifies this
      ensures (CombineParams(), thrown) == ProvideAll(old(CombineParams()), items)
      ensures beforeCC == old(beforeCC)
    {
      for i := 0 to |items|
        invariant ProvideAll(old(CombineParams()), items) == ProvideAll(CombineParams(), items[i..])
        invariant beforeCC == old(beforeCC)
      {
        assert items[i..][1..] == items[i + 1..];
        var parsed := ParseProvider(items[i]);
        if parsed.None? {
          return true;
        }
        var existing := if parsed.value.provide in providerDef then providerDef[parsed.value.provide] else Arr([]);
        Wipe(parsed.value.provide);
        providerDef := providerDef[parsed.value.provide := GenerateProviderValue(items[i], existing, parsed.value.multi)];
      }
      return false;
    }
  }

  // ---------------------------------------------------------------------------
  // what the calls guarantee

  /** `wipe(d)` clears every policy of `d` and leaves every other key, the
      configs and the callbacks alone. */
  lemma WipeClears(data: BuilderData, d: Value, x: Value)
    ensures PoliciesOf(Wiped(data, d), d) == {}
    ensures d !in Wiped(data, d).defProviders && d !in Wiped(data, d).defValue
    ensures x != d ==> PoliciesOf(Wiped(data, d), x) == PoliciesOf(data, x)
    ensures x != d ==>
      && (x in Wiped(data, d).defProviders <==> x in data.defProviders)
      && (x in Wiped(data, d).defValue <==> x in data.defValue)
    ensures Wiped(data, d).configDef == data.configDef
  {
  }

  /** After `exclude(d)`, `d` is excluded and nothing else; other keys keep
      their policies, and the tables stay consistent. */
  lemma ExcludeWins(data: BuilderData, d: Value, x: Value)
    ensures PoliciesOf(ExcludedData(data, d), d) == {Excluded}
    ensures x != d ==> PoliciesOf(ExcludedData(data, d), x) == PoliciesOf(data, x)
    ensures Consistent(data) ==> Consistent(ExcludedData(data, d))
  {
  }

  /** After `keep(input)`, its declaration is kept and nothing else, even
      when spreading the providers threw; other keys keep their policies. */
  lemma KeepWins(data: BuilderData, input: Value, config: Value, x: Value)
    ensures var d := NormaliseModule(input).0;
      var after := KeptData(data, input, config).0;
      && PoliciesOf(after, d) == {Kept}
      && (x != d ==> PoliciesOf(after, x) == PoliciesOf(data, x))
      && (Consistent(data) ==> Consistent(after))
  {
    var d := NormaliseModule(input).0;
    var w := Wiped(data, d);
    var w1 := w.(keepDef := w.keepDef + {d});
    var after := KeptData(data, input, config).0;
    KeptDataShape(data, input, config);
    OnlyTablesOfPoliciesCount(w1, after, x);
    OnlyTablesOfPoliciesCount(w1, after, d);
    WipeClears(data, d, x);
    if Consistent(data) {
      AddedPolicyConsistent(data, d, w1, after);
    }
  }

  /** `keep` keeps the tables consistent. */
  lemma KeepKeepsConsistent(data: BuilderData, input: Value, config: Value)
    requires Consistent(data)
    ensures Consistent(KeptData(data, input, config).0)
  {
    KeepWins(data, input, config, input);
  }

  /** What `keep` changes besides the policy tables: the providers of its
      declaration and the configs. */
  lemma KeptDataShape(data: BuilderData, input: Value, config: Value)
    ensures var d := NormaliseModule(input).0;
      var w := Wiped(data, d);
      var after := KeptData(data, input, config).0;
      && after.(defProviders := w.defProviders, configDef := w.configDef) == w.(keepDef := w.keepDef + {d})
      && after.defProviders.Keys <= w.defProviders.Keys + {d}
      && after.defValue == w.defValue
  {
  }

  /** Moving `d` into one policy set after wiping it, and touching beyond
      that only the providers and values of `d`, keeps the tables
      consistent. */
  lemma AddedPolicyConsistent(data: BuilderData, d: Value, w1: BuilderData, after: BuilderData)
    requires Consistent(data)
    requires var w := Wiped(data, d);
      || w1 == w.(keepDef := w.keepDef + {d})
      || w1 == w.(mockDef := w.mockDef + {d})
    requires after.excludeDef == w1.excludeDef && after.keepDef == w1.keepDef && after.mockDef == w1.mockDef
    requires after.replaceDef == w1.replaceDef && after.providerDef == w1.providerDef
    requires after.defProviders.Keys <= Wiped(data, d).defProviders.Keys + {d}
    requires after.defValue.Keys <= Wiped(data, d).defValue.Keys + (if w1.mockDef == Wiped(data, d).mockDef then {} else {d})
    requires Wiped(data, d).defValue.Keys <= after.defValue.Keys
    ensures Consistent(after)
  {
  }

  /** `PoliciesOf` reads only the five policy tables. */
  lemma OnlyTablesOfPoliciesCount(a: BuilderData, b: BuilderData, x: Value)
    requires a.excludeDef == b.excludeDef && a.keepDef == b.keepDef && a.mockDef == b.mockDef
    requires a.replaceDef == b.replaceDef && a.providerDef.Keys == b.providerDef.Keys
    ensures PoliciesOf(a, x) == PoliciesOf(b, x)
  {
  }

  /** `mock` keeps the tables consistent. */
  lemma MockKeepsConsistent(data: BuilderData, input: Value, mock: MockArg, config: Value)
    requires Consistent(data)
    ensures Consistent(MockedData(data, input, mock, config).0)
  {
    MockWins(data, input, mock, config, input);
  }

  /** After `mock(input)`, its declaration is mocked and nothing else;
      other keys keep their policies. */
  lemma MockWins(data: BuilderData, input: Value, mock: MockArg, config: Value, x: Value)
    ensures var d := NormaliseModule(input).0;
      var after := MockedData(data, input, mock, config).0;
      && PoliciesOf(after, d) == {Mocked}
      && (x != d ==> PoliciesOf(after, x) == PoliciesOf(data, x))
      && (Consistent(data) ==> Consistent(after))
  {
    var d := NormaliseModule(input).0;
    var w := Wiped(data, d);
    var w1 := w.(mockDef := w.mockDef + {d});
    var after := MockedData(data, input, mock, config).0;
    MockedDataShape(data, input, mock, config);
    OnlyTablesOfPoliciesCount(w1, after, x);
    OnlyTablesOfPoliciesCount(w1, after, d);
    WipeClears(data, d, x);
    if Consistent(data) {
      AddedPolicyConsistent(data, d, w1, after);
    }
  }

  /** What `mock` changes besides the policy tables: the providers and the
      mock value of its declaration, and the configs. */
  lemma MockedDataShape(data: BuilderData, input: Value, mock: MockArg, config: Value)
    ensures var d := NormaliseModule(input).0;
      var w := Wiped(data, d);
      var after := MockedData(data, input, mock, config).0;
      && after.(defProviders := w.defProviders, defValue := w.defValue, configDef := w.configDef) == w.(mockDef := w.mockDef + {d})
      && after.defProviders.Keys <= w.defProviders.Keys + {d}
      && w.defValue.Keys <= after.defValue.Keys <= w.defValue.Keys + {d}
  {
    var (d, providers) := NormaliseModule(input);
    var w := Wiped(data, d);
    var w1 := w.(mockDef := w.mockDef + {d});
    if !(Truthy(providers) && Spread(providers).None?) {
      var w2 := if Truthy(providers) then w1.(defProviders := w1.defProviders[d := Collected(data.mockDef, data.defProviders, d) + Spread(providers).value]) else w1;
      var w3 := w2.(defValue := if mock.Given? then w2.defValue[d := mock.value] else w2.defValue - {d});
      assert MockedData(data, input, mock, config).0 == WithConfig(w3, d, config);
      assert w2.defProviders.Keys <= w.defProviders.Keys + {d};
      assert w3.defValue.Keys <= w.defValue.Keys + {d};
    }
  }

  /** `replace` is rejected exactly when a side is not a module, component,
      directive or pipe; accepted, the source is replaced and nothing else,
      by the destination. */
  lemma ReplaceWins(data: BuilderData, source: Value, destination: Value, config: Value, x: Value)
    ensures var r := ReplacedData(data, source, destination, config);
      && (r.Err? <==> !(source.Class? && source.kind in {NgModule, Component, Directive, Pipe}
                        && destination.Class? && destination.kind in {NgModule, Component, Directive, Pipe}))
      && (r.Err? ==> r.error == ReplaceError)
      && (r.Ok? ==>
            && PoliciesOf(r.value, source) == {Replaced}
            && r.value.defValue[source] == destination
            && (x != source ==> PoliciesOf(r.value, x) == PoliciesOf(data, x))
            && (Consistent(data) ==> Consistent(r.value)))
  {
    var r := ReplacedData(data, source, destination, config);
    if r.Ok? {
      var w := Wiped(data, source);
      var w1 := w.(replaceDef := w.replaceDef + {source}, defValue := w.defValue[source := destination]);
      assert r.value == WithConfig(w1, source, config);
      WipeClears(data, source, x);
      OnlyTablesOfPoliciesCount(w.(replaceDef := w.replaceDef + {source}), r.value, x);
    }
  }

  /** `keep`, `mock` and `replace` leave the config they were given, or
      none when it is falsy; `exclude` and `provide` do not touch configs. */
  lemma ConfigFollowsLastCall(data: BuilderData, input: Value, mock: MockArg, source: Value, destination: Value, config: Value)
    ensures var d := NormaliseModule(input).0;
      var kept := KeptData(data, input, config);
      var mocked := MockedData(data, input, mock, config);
      var replaced := ReplacedData(data, source, destination, config);
      && (!kept.1 ==> (Truthy(config) <==> d in kept.0.configDef) && (Truthy(config) ==> kept.0.configDef[d] == config))
      && (!mocked.1 ==> (Truthy(config) <==> d in mocked.0.configDef) && (Truthy(config) ==> mocked.0.configDef[d] == config))
      && (replaced.Ok? ==>
            (Truthy(config) <==> source in replaced.value.configDef)
            && (Truthy(config) ==> replaced.value.configDef[source] == config))
      && ExcludedData(data, d).configDef == data.configDef
  {
    KeptConfig(data, input, config);
    MockedConfig(data, input, mock, config);
  }

  /** The config `keep` leaves. */
  lemma KeptConfig(data: BuilderData, input: Value, config: Value)
    ensures var d := NormaliseModule(input).0;
      var r := KeptData(data, input, config);
      !r.1 ==> (Truthy(config) <==> d in r.0.configDef) && (Truthy(config) ==> r.0.configDef[d] == config)
  {
  }

  /** The config `mock` leaves. */
  lemma MockedConfig(data: BuilderData, input: Value, mock: MockArg, config: Value)
    ensures var d := NormaliseModule(input).0;
      var r := MockedData(data, input, mock, config);
      !r.1 ==> (Truthy(config) <==> d in r.0.configDef) && (Truthy(config) ==> r.0.configDef[d] == config)
  {
  }

  /** `mock` stores a mock value only when one is given. */
  lemma MockValueOnlyWhenGiven(data: BuilderData, input: Value, mock: MockArg, config: Value)
    requires !MockedData(data, input, mock, config).1
    ensures var d := NormaliseModule(input).0;
      var after := MockedData(data, input, mock, config).0;
      && (d in after.defValue <==> mock.Given?)
      && (mock.Given? ==> after.defValue[d] == mock.value)
  {
  }

  /** Keeping a module with providers twice collects both lists of
      providers, in call order. */
  lemma KeepTwiceAppendsProviders(data: BuilderData, a: Value, b: Value, config: Value, config': Value)
    requires IsNgModuleDefWithProviders(a) && IsNgModuleDefWithProviders(b) && Get(a, "ngModule") == Get(b, "ngModule")
    requires Get(a, "providers").Arr? && Get(b, "providers").Arr?
    requires Get(a, "providers").items != [] && Get(b, "providers").items != []
    ensures var once := KeptData(data, a, config).0;
      var twice := KeptData(once, b, config').0;
      var d := Get(a, "ngModule");
      d in twice.defProviders
      && twice.defProviders[d] == Collected(data.keepDef, data.defProviders, d)
                                  + Get(a, "providers").items + Get(b, "providers").items
  {
  }

  /** Switching a module with providers from mocked to kept drops the
      providers collected while it was mocked. */
  lemma SwitchingPolicyDropsProviders(data: BuilderData, a: Value, b: Value, mock: MockArg, config: Value, config': Value)
    requires IsNgModuleDefWithProviders(a) && IsNgModuleDefWithProviders(b) && Get(a, "ngModule") == Get(b, "ngModule")
    requires Get(a, "providers").Arr? && Get(b, "providers").Arr? && Get(b, "providers").items != []
    ensures var d := Get(a, "ngModule");
      var kept := KeptData(MockedData(data, a, mock, config).0, b, config').0;
      d in kept.defProviders && kept.defProviders[d] == Get(b, "providers").items
  {
  }

  /** Mocking a module with providers twice collects both lists of
      providers, in call order. */
  lemma MockTwiceAppendsProviders(data: BuilderData, a: Value, b: Value, mock: MockArg, mock': MockArg,
                                  config: Value, config': Value)
    requires IsNgModuleDefWithProviders(a) && IsNgModuleDefWithProviders(b) && Get(a, "ngModule") == Get(b, "ngModule")
    requires Get(a, "providers").Arr? && Get(b, "providers").Arr?
    requires Get(a, "providers").items != [] && Get(b, "providers").items != []
    ensures var once := MockedData(data, a, mock, config).0;
      var twice := MockedData(once, b, mock', config').0;
      var d := Get(a, "ngModule");
      d in twice.defProviders
      && twice.defProviders[d] == Collected(data.mockDef, data.defProviders, d)
                                  + Get(a, "providers").items + Get(b, "providers").items
  {
  }

  /** Switching a module with providers from kept to mocked drops the
      providers collected while it was kept. */
  lemma KeepThenMockDropsProviders(data: BuilderData, a: Value, b: Value, mock: MockArg, config: Value, config': Value)
    requires IsNgModuleDefWithProviders(a) && IsNgModuleDefWithProviders(b) && Get(a, "ngModule") == Get(b, "ngModule")
    requires Get(a, "providers").Arr? && Get(b, "providers").Arr? && Get(b, "providers").items != []
    ensures var d := Get(a, "ngModule");
      var mocked := MockedData(KeptData(data, a, config).0, b, mock, config').0;
      d in mocked.defProviders && mocked.defProviders[d] == Get(b, "providers").items
  {
  }

  /** A `provide` with no `null` provider never throws, and with one it
      throws. */
  lemma {:induction false} ProvideThrowsOnNull(data: BuilderData, items: seq<Value>)
    ensures ProvideAll(data, items).1 <==> exists i :: 0 <= i < |items| && items[i].Null?
    decreases |items|
  {
    if items != [] {
      if !items[0].Null? {
        ProvideThrowsOnNull(ProvideStep(data, items[0]).value, items[1..]);
        if exists i :: 0 <= i < |items| && items[i].Null? {
          var i :| 0 <= i < |items| && items[i].Null?;
          assert items[1..][i - 1] == items[i];
        }
        if exists i :: 0 <= i < |items[1..]| && items[1..][i].Null? {
          var i :| 0 <= i < |items[1..]| && items[1..][i].Null?;
          assert items[i + 1] == items[1..][i];
        }
      }
    }
  }

  /** `provider` is a multi provider of `token`. */
  predicate MultiOf(provider: Value, token: Value) {
    ParseProvider(provider) == Some(ParsedProvider(true, token))
  }

  /** What `token` holds before: the array `prior`, or nothing and `prior` is empty. */
  predicate HoldsArray(data: BuilderData, token: Value, prior: seq<Value>) {
    if token in data.providerDef then data.providerDef[token] == Arr(prior) else prior == []
  }

  /** Multi providers of one token accumulate, in call order, after what
      the token already held as an array. */
  lemma MultiProvidersAccumulate(data: BuilderData, items: seq<Value>, token: Value, prior: seq<Value>)
    requires forall i :: 0 <= i < |items| ==> MultiOf(items[i], token)
    requires HoldsArray(data, token, prior)
    ensures !ProvideAll(data, items).1
    ensures token in ProvideAll(data, items).0.providerDef || items == []
    ensures items != [] ==> ProvideAll(data, items).0.providerDef[token] == Arr(prior + items)
  {
    MultiProvidersHold(data, items, token, prior);
  }

  /** The induction behind `MultiProvidersAccumulate`: after the list the
      token holds the array `prior + items`, and nothing threw. */
  lemma {:induction false} MultiProvidersHold(data: BuilderData, items: seq<Value>, token: Value, prior: seq<Value>)
    requires forall i :: 0 <= i < |items| ==> MultiOf(items[i], token)
    requires HoldsArray(data, token, prior)
    ensures !ProvideAll(data, items).1 && HoldsArray(ProvideAll(data, items).0, token, prior + items)
    decreases |items|
  {
    if items == [] {
      assert prior + items == prior;
    } else {
      MultiProviderStep(data, items[0], token, prior);
      var next := ProvideStep(data, items[0]).value;
      ProvideAllCons(data, items);
      AllMultiTail(items, token);
      MultiProvidersHold(next, items[1..], token, prior + [items[0]]);
      JsCollections.AppendAssoc(prior, [items[0]], items[1..]);
      assert [items[0]] + items[1..] == items;
    }
  }

  /** `provide` over a list is its first step, then the rest. */
  lemma ProvideAllCons(data: BuilderData, items: seq<Value>)
    requires items != [] && ProvideStep(data, items[0]).Some?
    ensures ProvideAll(data, items) == ProvideAll(ProvideStep(data, items[0]).value, items[1..])
  {
  }

  /** The rest of a list of multi providers of one token is one too. */
  lemma AllMultiTail(items: seq<Value>, token: Value)
    requires items != []
    requires forall i :: 0 <= i < |items| ==> MultiOf(items[i], token)
    ensures forall i :: 0 <= i < |items[1..]| ==> MultiOf(items[1..][i], token)
  {
    forall i | 0 <= i < |items[1..]|
      ensures MultiOf(items[1..][i], token)
    {
      assert items[1..][i] == items[i + 1];
    }
  }

  /** One multi provider appends itself to the array its token holds, and
      the token then holds that array. */
  lemma MultiProviderStep(data: BuilderData, item: Value, token: Value, prior: seq<Value>)
    requires MultiOf(item, token) && HoldsArray(data, token, prior)
    ensures ProvideStep(data, item).Some?
    ensures HoldsArray(ProvideStep(data, item).value, token, prior + [item])
  {
  }

  /** A provider that is not multi overwrites whatever its token held, and
      the token loses every other policy. */
  lemma SingleProviderOverwrites(data: BuilderData, provider: Value, x: Value)
    requires ParseProvider(provider).Some? && !ParseProvider(provider).value.multi
    ensures var token := ParseProvider(provider).value.provide;
      var after := ProvideStep(data, provider).value;
      && after.providerDef[token] == provider
      && PoliciesOf(after, token) == {Provided}
      && (x != token ==> PoliciesOf(after, x) == PoliciesOf(data, x))
      && (Consistent(data) ==> Consistent(after))
  {
  }

  /** `provide` keeps the tables consistent. */
  lemma {:induction false} ProvideKeepsConsistent(data: BuilderData, items: seq<Value>)
    requires Consistent(data)
    ensures Consistent(ProvideAll(data, items).0)
    decreases |items|
  {
    if items != [] && ProvideStep(data, items[0]).Some? {
      ProvideKeepsConsistent(ProvideStep(data, items[0]).value, items[1..]);
    }
  }

  /** A new builder starts consistent. */
  lemma EmptyIsConsistent()
    ensures Consistent(EmptyData) && forall x :: PoliciesOf(EmptyData, x) == {}
  {
  }
}
