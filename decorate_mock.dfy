/** The default export of libs/ng-mocks/src/lib/common/decorate.mock.ts:
    marking a freshly created mock class as the mock of its source.

    The mock class is an object whose properties are defined one after the
    other, so it is a class here; the module definition `ɵmod` that Angular
    attaches to a mock module is reduced to its `declarations`. */
module DecorateMock {

  import opened JsValues

  /** `ngMocksMockConfig`: the `config` object, if any, and every other
      field (`init`, `outputs`, ...). */
  datatype MockConfig = MockConfig(config: Option<map<string, Value>>, rest: map<string, Value>)

  /** One entry of a decorator list: its `args`, if any. */
  datatype DecoratorEntry = DecoratorEntry(args: Option<seq<Value>>)

  /** A declaration of a module definition: its `decorators`, if any. */
  datatype Declaration = Declaration(id: nat, decorators: Option<seq<DecoratorEntry>>)

  /** `{...configInput, config: {...universeConfig, ...configInput.config}}`
      when the universe holds a mock config for `source`, else `configInput`. */
  function MergedConfig(source: Value, configInput: MockConfig, configMock: map<Value, map<string, Value>>): (r: MockConfig)
    ensures source !in configMock ==> r == configInput
    ensures source in configMock ==>
      r.rest == configInput.rest && r.config.Some?
      && (forall k :: k in r.config.value <==> k in configMock[source] || (configInput.config.Some? && k in configInput.config.value))
      && (forall k :: configInput.config.Some? && k in configInput.config.value ==> r.config.value[k] == configInput.config.value[k])
      && (forall k :: k in configMock[source] && (configInput.config.None? || k !in configInput.config.value) ==>
            r.config.value[k] == configMock[source][k])
  {
    if source in configMock then
      var own := if configInput.config.Some? then configInput.config.value else map[];
      MockConfig(Some(configMock[source] + own), configInput.rest)
    else configInput
  }

  /** The first argument of the first decorator, if there is one. */
  function FirstDecoratorArg(d: Declaration): Value {
    if d.decorators.Some? && |d.decorators.value| > 0
       && d.decorators.value[0].args.Some? && |d.decorators.value[0].args.value| > 0
    then d.decorators.value[0].args.value[0]
    else Undefined
  }

  /** A declaration whose first decorator argument is an object without a
      defined `standalone` gets `standalone: false`; any other declaration is
      left as it is. */
  function WithStandaloneDefault(d: Declaration): (r: Declaration)
    ensures FirstDecoratorArg(d).Obj? ==>
      FirstDecoratorArg(r).Obj? && FirstDecoratorArg(r).id == FirstDecoratorArg(d).id
      && Get(FirstDecoratorArg(r), "standalone") != Undefined
      && (Get(FirstDecoratorArg(d), "standalone") != Undefined ==> r == d)
      && (Get(FirstDecoratorArg(d), "standalone") == Undefined ==>
            FirstDecoratorArg(r).fields == FirstDecoratorArg(d).fields["standalone" := Bool(false)])
    ensures !FirstDecoratorArg(d).Obj? ==> r == d
    ensures r.id == d.id
  {
    var arg := FirstDecoratorArg(d);
    if arg.Obj? && Get(arg, "standalone") == Undefined then
      var decorators := d.decorators.value;
      var args := decorators[0].args.value;
      var arg' := Obj(arg.id, arg.fields["standalone" := Bool(false)]);
      Declaration(d.id, Some(decorators[0 := DecoratorEntry(Some(args[0 := arg']))]))
    else d
  }

  class MockClass {
    var name: string
    var mockOf: Option<Value>
    var nameConstructor: Option<string>
    /** `__ngMocksConfig` on the prototype */
    var protoConfig: Option<MockConfig>
    /** `ɵmod.declarations`, when the class has a module definition */
    var modDeclarations: Option<seq<Declaration>>

    /** A class created at run time, before it is decorated. */
    constructor (name: string, modDeclarations: Option<seq<Declaration>>)
      ensures this.name == name && this.modDeclarations == modDeclarations
      ensures mockOf.None? && nameConstructor.None? && protoConfig.None?
    {
      this.name := name;
      this.modDeclarations := modDeclarations;
      mockOf := None;
      nameConstructor := None;
      protoConfig := None;
    }

    /** `decorateMock(mock, source, configInput)`. */
    method Decorate(source: Value, configInput: MockConfig, configMock: map<Value, map<string, Value>>)
      requires TypeOf(source) == "function"
      modifies this
      ensures mockOf == Some(source)
      ensures nameConstructor == Some(old(name))
      ensures name == "MockOf" + FunctionName(source)
      ensures protoConfig == Some(MergedConfig(source, configInput, configMock))
      ensures old(modDeclarations).None? ==> modDeclarations.None?
      ensures old(modDeclarations).Some? ==>
        modDeclarations.Some? && |modDeclarations.value| == |old(modDeclarations).value|
        && forall i :: 0 <= i < |modDeclarations.value| ==>
             modDeclarations.value[i] == WithStandaloneDefault(old(modDeclarations).value[i])
    {
      mockOf := Some(source);
      nameConstructor := Some(name);
      name := "MockOf" + FunctionName(source);
      protoConfig := Some(MergedConfig(source, configInput, configMock));
      if modDeclarations.Some? {
        var declarations := modDeclarations.value;
        for i := 0 to |declarations|
          invariant |declarations| == |old(modDeclarations).value|
          invariant forall j :: 0 <= j < i ==> declarations[j] == WithStandaloneDefault(old(modDeclarations).value[j])
          invariant forall j :: i <= j < |declarations| ==> declarations[j] == old(modDeclarations).value[j]
        {
          declarations := declarations[i := WithStandaloneDefault(declarations[i])];
        }
        modDeclarations := Some(declarations);
      }
    }
  }

  /** Defaulting is idempotent: a second decoration leaves the declarations
      as the first one left them. */
  lemma WithStandaloneDefaultIdempotent(d: Declaration)
    ensures WithStandaloneDefault(WithStandaloneDefault(d)) == WithStandaloneDefault(d)
  {
    var r := WithStandaloneDefault(d);
    if FirstDecoratorArg(d).Obj? {
      assert Get(FirstDecoratorArg(r), "standalone") != Undefined;
    }
  }
}
