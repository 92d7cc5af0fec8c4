/** `isNgModuleDefWithProviders` of
    libs/ng-mocks/src/lib/common/func.is-ng-module-def-with-providers.ts:
    the recogniser of `{ngModule, providers?}` objects. */
module ModuleWithProviders {

  import opened JsValues

  /** The value of `declaration && typeof declaration === 'object' &&
      typeof declaration.ngModule === 'function'`: `&&` yields the first
      falsy operand, so a falsy declaration is returned as it is. */
  function IsNgModuleDefWithProvidersValue(declaration: Value): (r: Value)
    ensures !Truthy(declaration) ==> r == declaration
    ensures Truthy(r) <==> declaration.Obj? && "ngModule" in declaration.fields
                             && TypeOf(declaration.fields["ngModule"]) == "function"
  {
    if !Truthy(declaration) then declaration
    else if TypeOf(declaration) != "object" then Bool(false)
    else Bool(TypeOf(Get(declaration, "ngModule")) == "function")
  }

  /** The predicate as callers use it, by truthiness. */
  predicate IsNgModuleDefWithProviders(declaration: Value) {
    Truthy(IsNgModuleDefWithProvidersValue(declaration))
  }

  /** Functions and classes are never modules with providers. */
  lemma FunctionsAreRejected(declaration: Value)
    requires TypeOf(declaration) == "function"
    ensures !IsNgModuleDefWithProviders(declaration)
  {
  }

  /** An object with a function-valued `ngModule` is accepted whatever else
      it holds, `providers` or not. */
  lemma AcceptedWithOrWithoutProviders(id: nat, fields: map<string, Value>, ngModule: Value, providers: Value)
    requires TypeOf(ngModule) == "function"
    ensures IsNgModuleDefWithProviders(Obj(id, fields["ngModule" := ngModule]))
    ensures IsNgModuleDefWithProviders(Obj(id, fields["ngModule" := ngModule]["providers" := providers]))
    ensures IsNgModuleDefWithProviders(Obj(id, (fields - {"providers"})["ngModule" := ngModule]))
  {
  }

  /** An object whose `ngModule` is missing or not a function is rejected. */
  lemma RejectedWithoutFunctionNgModule(id: nat, fields: map<string, Value>)
    requires "ngModule" !in fields || TypeOf(fields["ngModule"]) != "function"
    ensures !IsNgModuleDefWithProviders(Obj(id, fields))
  {
  }
}
