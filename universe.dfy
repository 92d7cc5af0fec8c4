/** The global registry `ngMocksUniverse`, as an explicit record that the
    operations of the core take in and hand back.

    ng-mocks holds one such object per test environment and the operations
    change it in place; here an operation that changes it returns the new
    record, so "this key is left alone" is a statement about two values. */
module Universe {

  import opened JsValues

  /** A value of the `config` map. Declarations map to plain settings
      objects (`export`, `exportAll`, ...); the string key
      `mockNgDefResolver` holds a `Map` of resolutions and
      `ngMocksDepsSkip` a `Set` of declarations. */
  datatype ConfigEntry =
    | Settings(fields: map<string, Value>)
    | ResolverCache(entries: map<Value, Value>)
    | ValueSet(items: seq<Value>)

  /** Decorators applied to a freshly created mock class. The decorators
      themselves belong to Angular; the model records what was applied. */
  datatype Decoration =
    | NgModuleDecorator(target: Value, parent: Value, meta: map<string, seq<Value>>)
    /** `Pipe(...)` and `decorateMock` on a mock pipe, whose `init` hook
        installs `transform` */
    | PipeDecorator(target: Value, source: Value, transform: Value)

  datatype State = State(
    flags: set<string>,
    cacheDeclarations: map<Value, Value>,
    config: map<Value, ConfigEntry>,
    configInstance: map<Value, Value>,
    /** `hasBuildDeclaration` / `getBuildDeclaration` */
    builtDeclarations: map<Value, Value>,
    /** `getResolution`: how MockBuilder asked a declaration to be handled */
    resolutions: map<Value, string>,
    /** `getConfigMock`: the mock configuration per declaration */
    configMock: map<Value, map<string, Value>>,
    /** the `global` map without its `flags` entry */
    global: map<string, Value>,
    /** the object stored under `global.get('flags')` */
    globalFlags: map<string, Value>,
    /** mock classes applied decorators, oldest first */
    decorations: seq<Decoration>,
    /** the identity the next class created at run time receives */
    nextId: nat
  )

  /** The defaults of `core.config` that the core reads. */
  datatype CoreConfig = CoreConfig(
    onTestBedFlushNeed: Value,
    onMockInstanceRestoreNeed: Value,
    neverMockModule: seq<Value>
  )

  /** The constant class `Mock` that mock classes extend. */
  const MockBase: Value := Class(0, "Mock", PlainClass, None)

  const SkipMock := "skipMock"
  const CachePipe := "cachePipe"
  const CacheModule := "cacheModule"
  const CorrectModuleExports := "correctModuleExports"

  const ResolverKey: Value := Str("mockNgDefResolver")
  const DepsSkipKey: Value := Str("ngMocksDepsSkip")

  /** `ngMocksUniverse.config.get(key) || {}` read as a settings object; a
      `Map` or `Set` spreads to no own fields. */
  function SettingsOf(u: State, key: Value): map<string, Value> {
    if key in u.config && u.config[key].Settings? then u.config[key].fields else map[]
  }

  /** `ngMocksUniverse.config.get(key)?.[field]`. */
  function SettingOf(u: State, key: Value, field: string): (r: Value)
    ensures key !in u.config ==> r == Undefined
  {
    Lookup(SettingsOf(u, key), field)
  }

  /** `mock` is a class that mocks `declaration`. */
  predicate IsMockOf(mock: Value, declaration: Value) {
    mock.Class? && mock.mockOf == Some(declaration)
  }

  /** Every cached mock is a mock of the declaration it is cached for. */
  predicate CacheSound(u: State) {
    forall d | d in u.cacheDeclarations :: IsMockOf(u.cacheDeclarations[d], d)
  }
}
