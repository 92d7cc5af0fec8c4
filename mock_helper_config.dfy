/** `ngMocks.config` of libs/ng-mocks/src/lib/mock-helper/mock-helper.object.ts:
    updating the global flags and the MockRender cache size. */
module MockHelperConfig {

  import opened JsValues
  import opened Universe

  /** The two flags the loop visits, in order. */
  const FlagNames: seq<string> := ["onTestBedFlushNeed", "onMockInstanceRestoreNeed"]

  const CacheSizeKey := "mockRenderCacheSize"

  /** The `core.config` default of a flag. */
  function CoreDefault(core: CoreConfig, flag: string): Value {
    if flag == "onTestBedFlushNeed" then core.onTestBedFlushNeed
    else if flag == "onMockInstanceRestoreNeed" then core.onMockInstanceRestoreNeed
    else Undefined
  }

  /** One pass of the loop: `null` restores the default, `undefined` leaves
      the flag alone, any other value is stored. */
  function UpdateFlag(flags: map<string, Value>, flag: string, v: Value, core: CoreConfig): (r: map<string, Value>)
    ensures v.Null? ==> r == flags[flag := CoreDefault(core, flag)]
    ensures v.Undefined? ==> r == flags
    ensures !v.Null? && !v.Undefined? ==> r == flags[flag := v]
  {
    if v.Null? then flags[flag := CoreDefault(core, flag)]
    else if !v.Undefined? then flags[flag := v]
    else flags
  }

  /** The flags after updating `names` in order from `config`. */
  function UpdateFlags(flags: map<string, Value>, names: seq<string>, config: map<string, Value>, core: CoreConfig): map<string, Value> {
    if names == [] then flags
    else
      var n := |names| - 1;
      UpdateFlag(UpdateFlags(flags, names[..n], config, core), names[n], Lookup(config, names[n]), core)
  }

  /** `mockRenderCacheSize`: `null` deletes the key, `undefined` leaves it,
      any other value sets it. */
  function UpdateCacheSize(global: map<string, Value>, v: Value): (r: map<string, Value>)
    ensures v.Null? ==> r == global - {CacheSizeKey}
    ensures v.Undefined? ==> r == global
    ensures !v.Null? && !v.Undefined? ==> r == global[CacheSizeKey := v]
  {
    if v.Null? then global - {CacheSizeKey}
    else if !v.Undefined? then global[CacheSizeKey := v]
    else global
  }

  /** `ngMocks.config(config)`. */
  method Config(config: map<string, Value>, core: CoreConfig, u: State) returns (u': State)
    ensures u'.globalFlags == UpdateFlags(u.globalFlags, FlagNames, config, core)
    ensures u'.global == UpdateCacheSize(u.global, Lookup(config, CacheSizeKey))
    ensures u' == u.(globalFlags := u'.globalFlags, global := u'.global)
  {
    var flags := u.globalFlags;
    for i := 0 to |FlagNames|
      invariant flags == UpdateFlags(u.globalFlags, FlagNames[..i], config, core)
    {
      var flag := FlagNames[i];
      assert FlagNames[..i + 1][..i] == FlagNames[..i];
      var v := Lookup(config, flag);
      if v.Null? {
        flags := flags[flag := CoreDefault(core, flag)];
      } else if !v.Undefined? {
        flags := flags[flag := v];
      }
    }
    assert FlagNames[..|FlagNames|] == FlagNames;
    var global := u.global;
    var size := Lookup(config, CacheSizeKey);
    if size.Null? {
      global := global - {CacheSizeKey};
    } else if !size.Undefined? {
      global := global[CacheSizeKey := size];
    }
    u' := u.(globalFlags := flags, global := global);
  }

  /** The loop over the two flags, written out. */
  lemma UpdateFlagsUnrolled(flags: map<string, Value>, config: map<string, Value>, core: CoreConfig)
    ensures UpdateFlags(flags, FlagNames, config, core)
         == UpdateFlag(UpdateFlag(flags, "onTestBedFlushNeed", Lookup(config, "onTestBedFlushNeed"), core),
                       "onMockInstanceRestoreNeed", Lookup(config, "onMockInstanceRestoreNeed"), core)
  {
    var first := FlagNames[..1];
    assert first == ["onTestBedFlushNeed"] && first[..0] == [];
    assert UpdateFlags(flags, first, config, core)
        == UpdateFlag(flags, "onTestBedFlushNeed", Lookup(config, "onTestBedFlushNeed"), core);
    assert FlagNames[..|FlagNames| - 1] == first;
  }

  /** What the update does to each of the two flags, and that it touches no
      other flag. */
  lemma ConfigFlagsEffect(flags: map<string, Value>, config: map<string, Value>, core: CoreConfig, flag: string)
    ensures var r := UpdateFlags(flags, FlagNames, config, core);
      && (flag !in FlagNames ==> (flag in r <==> flag in flags) && (flag in flags ==> r[flag] == flags[flag]))
      && (flag in FlagNames && Lookup(config, flag).Null? ==> flag in r && r[flag] == CoreDefault(core, flag))
      && (flag in FlagNames && Lookup(config, flag).Undefined? ==> (flag in r <==> flag in flags) && (flag in flags ==> r[flag] == flags[flag]))
      && (flag in FlagNames && !Lookup(config, flag).Null? && !Lookup(config, flag).Undefined? ==> flag in r && r[flag] == Lookup(config, flag))
  {
    UpdateFlagsUnrolled(flags, config, core);
  }

  /** Passing only `undefined` values changes nothing. */
  lemma ConfigWithNothingDefined(config: map<string, Value>, core: CoreConfig, u: State)
    requires forall k :: k in config ==> config[k].Undefined?
    ensures UpdateFlags(u.globalFlags, FlagNames, config, core) == u.globalFlags
    ensures UpdateCacheSize(u.global, Lookup(config, CacheSizeKey)) == u.global
  {
    UpdateFlagsUnrolled(u.globalFlags, config, core);
  }
}
