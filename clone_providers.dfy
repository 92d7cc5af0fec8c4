/** The default export of libs/ng-mocks/src/lib/mock/clone-providers.ts:
    the providers of a mock declaration, derived one by one from the
    providers of its source.

    Each flattened provider goes through a fixed priority of rules: the form
    tokens become factory providers of the matching proxy, a `useExisting`
    pointing back at the source is redirected to the mock, and anything else
    is handed to `helperMockService.resolveProvider`, which is a parameter
    here. The factory and existing providers that `toFactoryProvider` and
    `toExistingProvider` build are kept as the data they are built from. */
module CloneProviders {

  import opened JsValues
  import CoreHelpers

  /** The tokens of `@angular/forms` that `coreForm` exposes; each is
      `undefined` when the forms package is not loaded. */
  datatype FormTokens = FormTokens(
    ngValidators: Value,
    ngAsyncValidators: Value,
    ngValueAccessor: Value,
    ngControl: Value,
    formControlDirective: Value
  )

  /** The proxies that stand in for a mock's validators and value accessor. */
  datatype Proxy = ValidatorProxy | AsyncValidatorProxy | ValueAccessorProxy

  /** What a provider becomes: a factory of a proxy around the mock, a
      `useExisting` redirected to the mock, or whatever `resolveProvider`
      returned. */
  datatype Mock =
    | Factory(provide: Value, proxy: Proxy, mockType: Value)
    | Existing(provide: Value, mockType: Value)
    | Resolved(value: Value)

  /** `resolveProvider(provider, resolutions)`: the resolved provider and the
      shared `resolutions` map after the call. */
  type Resolver = (Value, map<Value, Value>) -> (Value, map<Value, Value>)

  /** `funcGetProvider(provider)` (func.get-provider.ts is not part of this
      model): the `provide` of a provider object, the value itself otherwise. */
  function GetProvider(provider: Value): (r: Value)
    ensures r != provider ==> provider.Obj? && r == Get(provider, "provide") && Truthy(r)
    ensures !provider.Obj? ==> r == provider
  {
    if provider.Obj? && Truthy(Get(provider, "provide")) then Get(provider, "provide") else provider
  }

  /** Is `provide` the form token `token`, which must be loaded (`coreForm.X && provide === coreForm.X`)? */
  predicate IsFormToken(provide: Value, token: Value) {
    Truthy(token) && provide == token
  }

  /** `processTokens(mockType, provider)`: validators, async validators and
      value accessors become factories of the matching proxy, checked in that
      order. */
  function ProcessTokens(forms: FormTokens, mockType: Value, provider: Value): (r: Option<Mock>)
    ensures r.None? <==>
      var provide := GetProvider(provider);
      !IsFormToken(provide, forms.ngValidators) && !IsFormToken(provide, forms.ngAsyncValidators)
      && !IsFormToken(provide, forms.ngValueAccessor)
    ensures r.Some? ==> r.value.Factory? && r.value.provide == GetProvider(provider) && r.value.mockType == mockType
    ensures IsFormToken(GetProvider(provider), forms.ngValidators) ==> r.Some? && r.value.proxy == ValidatorProxy
    ensures !IsFormToken(GetProvider(provider), forms.ngValidators) && IsFormToken(GetProvider(provider), forms.ngAsyncValidators) ==>
      r.Some? && r.value.proxy == AsyncValidatorProxy
    ensures !IsFormToken(GetProvider(provider), forms.ngValidators) && !IsFormToken(GetProvider(provider), forms.ngAsyncValidators)
            && IsFormToken(GetProvider(provider), forms.ngValueAccessor) ==>
      r.Some? && r.value.proxy == ValueAccessorProxy
  {
    var provide := GetProvider(provider);
    if IsFormToken(provide, forms.ngValidators) then Some(Factory(provide, ValidatorProxy, mockType))
    else if IsFormToken(provide, forms.ngAsyncValidators) then Some(Factory(provide, AsyncValidatorProxy, mockType))
    else if IsFormToken(provide, forms.ngValueAccessor) then Some(Factory(provide, ValueAccessorProxy, mockType))
    else None
  }

  /** Does the provider point at `sourceType` through `useExisting`, directly
      or through a `forwardRef`? */
  predicate UsesExistingSource(provider: Value, sourceType: Value) {
    var useExisting := Get(provider, "useExisting");
    useExisting == sourceType
    || (Truthy(useExisting) && useExisting.ForwardRef? && useExisting.target == sourceType)
  }

  /** `processOwnUseExisting(sourceType, mockType, provider)`: a provider
      object whose `useExisting` is the source becomes an alias of the mock;
      `NgControl` and `FormControlDirective` never do. */
  function ProcessOwnUseExisting(forms: FormTokens, sourceType: Value, mockType: Value, provider: Value): (r: Option<Mock>)
    ensures r.Some? <==>
      var provide := GetProvider(provider);
      provide != forms.ngControl && provide != forms.formControlDirective
      && provider != provide && UsesExistingSource(provider, sourceType)
    ensures r.Some? ==> r.value == Existing(GetProvider(provider), mockType)
  {
    var provide := GetProvider(provider);
    if provide == forms.ngControl || provide == forms.formControlDirective then None
    else if provider != provide && Get(provider, "useExisting") == sourceType then Some(Existing(provide, mockType))
    else if provider != provide && Truthy(Get(provider, "useExisting")) && Get(provider, "useExisting").ForwardRef?
            && Get(provider, "useExisting").target == sourceType
    then Some(Existing(provide, mockType))
    else None
  }

  /** `processProvider(sourceType, mockType, provider, resolutions)`: the
      first rule that applies, with `resolutions` as the resolver leaves it. */
  function ProcessProvider(forms: FormTokens, sourceType: Value, mockType: Value, provider: Value,
                           resolutions: map<Value, Value>, resolveProvider: Resolver): (r: (Mock, map<Value, Value>))
    ensures r.0.Resolved? <==>
      ProcessTokens(forms, mockType, provider).None? && ProcessOwnUseExisting(forms, sourceType, mockType, provider).None?
    ensures !r.0.Resolved? ==> r.1 == resolutions
  {
    var token := ProcessTokens(forms, mockType, provider);
    if token.Some? then (token.value, resolutions)
    else
      var ownUseExisting := ProcessOwnUseExisting(forms, sourceType, mockType, provider);
      if ownUseExisting.Some? then (ownUseExisting.value, resolutions)
      else
        var (resolved, resolutions') := resolveProvider(provider, resolutions);
        (Resolved(resolved), resolutions')
  }

  /** `if (mock)`: factories and aliases are objects, a resolved provider is
      kept when it is truthy. */
  predicate Kept(m: Mock) {
    !m.Resolved? || Truthy(m.value)
  }

  /** The mock of every provider, in order, with `resolutions` threaded from
      one call to the next. */
  function Outcomes(forms: FormTokens, sourceType: Value, mockType: Value, providers: seq<Value>,
                    resolutions: map<Value, Value>, resolveProvider: Resolver): (seq<Mock>, map<Value, Value>)
  {
    if providers == [] then ([], resolutions)
    else
      var n := |providers| - 1;
      var (before, resolutions') := Outcomes(forms, sourceType, mockType, providers[..n], resolutions, resolveProvider);
      var (m, resolutions'') := ProcessProvider(forms, sourceType, mockType, providers[n], resolutions', resolveProvider);
      (before + [m], resolutions'')
  }

  /** The providers the loop pushes into `result`, with the resolutions
      after the last one: at most one per provider. */
  function Cloned(forms: FormTokens, sourceType: Value, mockType: Value, providers: seq<Value>,
                  resolutions: map<Value, Value>, resolveProvider: Resolver): (r: (seq<Mock>, map<Value, Value>))
    ensures |r.0| <= |providers|
  {
    if providers == [] then ([], resolutions)
    else
      var n := |providers| - 1;
      var (before, resolutions') := Cloned(forms, sourceType, mockType, providers[..n], resolutions, resolveProvider);
      var (m, resolutions'') := ProcessProvider(forms, sourceType, mockType, providers[n], resolutions', resolveProvider);
      (before + (if Kept(m) then [m] else []), resolutions'')
  }

  /** Only the kept mocks, in order. */
  function KeptOnly(ms: seq<Mock>): (r: seq<Mock>)
    ensures forall m :: m in r ==> Kept(m) && m in ms
  {
    if ms == [] then []
    else
      var n := |ms| - 1;
      KeptOnly(ms[..n]) + (if Kept(ms[n]) then [ms[n]] else [])
  }

  /** Some provider's token is `NG_VALUE_ACCESSOR` (compared without the
      loaded check the other rules make). */
  predicate MentionsValueAccessor(forms: FormTokens, providers: seq<Value>) {
    providers != []
    && (MentionsValueAccessor(forms, providers[..|providers| - 1])
        || GetProvider(providers[|providers| - 1]) == forms.ngValueAccessor)
  }

  /** `MentionsValueAccessor` holds exactly when some provider's token is
      the value accessor token. */
  lemma {:induction false} MentionsValueAccessorMembers(forms: FormTokens, providers: seq<Value>)
    ensures MentionsValueAccessor(forms, providers) <==>
      exists i :: 0 <= i < |providers| && GetProvider(providers[i]) == forms.ngValueAccessor
  {
    if providers != [] {
      var n := |providers| - 1;
      MentionsValueAccessorMembers(forms, providers[..n]);
      if MentionsValueAccessor(forms, providers[..n]) {
        var j :| 0 <= j < n && GetProvider(providers[..n][j]) == forms.ngValueAccessor;
        assert providers[..n][j] == providers[j];
      }
      if !MentionsValueAccessor(forms, providers) {
        forall i | 0 <= i < |providers| ensures GetProvider(providers[i]) != forms.ngValueAccessor {
          if i < n { assert providers[..n][i] == providers[i]; }
        }
      }
    }
  }

  /** `cloneProviders(sourceType, mockType, providers)`: the mock providers
      and `setControlValueAccessor`, which is `false` when the source
      provides a value accessor of its own and undefined otherwise. */
  method CloneProviderList(forms: FormTokens, sourceType: Value, mockType: Value, providers: Value, resolveProvider: Resolver)
    returns (result: seq<Mock>, setControlValueAccessor: Option<bool>)
    ensures var flat := CoreHelpers.Leaves(if Truthy(providers) then providers else Arr([]));
      && result == Cloned(forms, sourceType, mockType, flat, map[], resolveProvider).0
      && setControlValueAccessor == if MentionsValueAccessor(forms, flat) then Some(false) else None
  {
    var flat := CoreHelpers.Flatten(if Truthy(providers) then providers else Arr([]), []);
    assert flat == CoreHelpers.Leaves(if Truthy(providers) then providers else Arr([]));
    result, setControlValueAccessor := CloneFlat(forms, sourceType, mockType, flat, resolveProvider);
  }

  /** The loop of `cloneProviders` over the flattened providers, sharing
      one `resolutions` map. */
  method CloneFlat(forms: FormTokens, sourceType: Value, mockType: Value, flat: seq<Value>, resolveProvider: Resolver)
    returns (result: seq<Mock>, setControlValueAccessor: Option<bool>)
    ensures result == Cloned(forms, sourceType, mockType, flat, map[], resolveProvider).0
    ensures setControlValueAccessor == if MentionsValueAccessor(forms, flat) then Some(false) else None
  {
    result := [];
    setControlValueAccessor := None;
    var resolutions: map<Value, Value> := map[];
    for i := 0 to |flat|
      invariant (result, resolutions) == Cloned(forms, sourceType, mockType, flat[..i], map[], resolveProvider)
      invariant setControlValueAccessor == if MentionsValueAccessor(forms, flat[..i]) then Some(false) else None
    {
      var provider := flat[i];
      ClonedStep(forms, sourceType, mockType, flat, i, resolveProvider);
      MentionsValueAccessorStep(forms, flat, i);
      var provide := GetProvider(provider);
      if provide == forms.ngValueAccessor {
        setControlValueAccessor := Some(false);
      }
      var processed := ProcessProvider(forms, sourceType, mockType, provider, resolutions, resolveProvider);
      var mock := processed.0;
      resolutions := processed.1;
      if Kept(mock) {
        result := result + [mock];
      }
    }
    assert flat[..|flat|] == flat;
  }

  /** One more provider of the loop. */
  lemma ClonedStep(forms: FormTokens, sourceType: Value, mockType: Value, providers: seq<Value>, i: nat,
                   resolveProvider: Resolver)
    requires i < |providers|
    ensures var (before, resolutions) := Cloned(forms, sourceType, mockType, providers[..i], map[], resolveProvider);
      var (m, resolutions') := ProcessProvider(forms, sourceType, mockType, providers[i], resolutions, resolveProvider);
      Cloned(forms, sourceType, mockType, providers[..i + 1], map[], resolveProvider)
      == (if Kept(m) then before + [m] else before, resolutions')
  {
    assert providers[..i + 1][..i] == providers[..i];
    var (before, resolutions) := Cloned(forms, sourceType, mockType, providers[..i], map[], resolveProvider);
    assert before + [] == before;
  }

  lemma MentionsValueAccessorStep(forms: FormTokens, providers: seq<Value>, i: nat)
    requires i < |providers|
    ensures MentionsValueAccessor(forms, providers[..i + 1]) <==>
      MentionsValueAccessor(forms, providers[..i]) || GetProvider(providers[i]) == forms.ngValueAccessor
  {
    assert providers[..i + 1][..i] == providers[..i];
  }

  /** There is one outcome per provider. */
  lemma {:induction false} OutcomesLength(forms: FormTokens, sourceType: Value, mockType: Value, providers: seq<Value>,
                                          resolutions: map<Value, Value>, resolveProvider: Resolver)
    ensures |Outcomes(forms, sourceType, mockType, providers, resolutions, resolveProvider).0| == |providers|
  {
    if providers != [] {
      OutcomesLength(forms, sourceType, mockType, providers[..|providers| - 1], resolutions, resolveProvider);
    }
  }

  /** The result is the per-provider mocks with the empty ones dropped, in
      input order, and the resolutions end the same. */
  lemma {:induction false} ClonedIsKeptOutcomes(forms: FormTokens, sourceType: Value, mockType: Value, providers: seq<Value>,
                                                resolutions: map<Value, Value>, resolveProvider: Resolver)
    ensures var outcomes := Outcomes(forms, sourceType, mockType, providers, resolutions, resolveProvider);
      Cloned(forms, sourceType, mockType, providers, resolutions, resolveProvider) == (KeptOnly(outcomes.0), outcomes.1)
  {
    if providers != [] {
      var n := |providers| - 1;
      ClonedIsKeptOutcomes(forms, sourceType, mockType, providers[..n], resolutions, resolveProvider);
      var outcomes := Outcomes(forms, sourceType, mockType, providers[..n], resolutions, resolveProvider);
      var (m, _) := ProcessProvider(forms, sourceType, mockType, providers[n], outcomes.1, resolveProvider);
      assert (outcomes.0 + [m])[..|outcomes.0|] == outcomes.0;
    }
  }

  /** Each outcome is what the rules make of the provider at the same
      position, given the resolutions the earlier ones left. */
  lemma {:induction false} OutcomeAt(forms: FormTokens, sourceType: Value, mockType: Value, providers: seq<Value>,
                                     resolutions: map<Value, Value>, resolveProvider: Resolver, i: nat)
    requires i < |providers|
    ensures |Outcomes(forms, sourceType, mockType, providers, resolutions, resolveProvider).0| == |providers|
    ensures Outcomes(forms, sourceType, mockType, providers, resolutions, resolveProvider).0[i]
         == ProcessProvider(forms, sourceType, mockType, providers[i],
              Outcomes(forms, sourceType, mockType, providers[..i], resolutions, resolveProvider).1, resolveProvider).0
    decreases |providers|
  {
    OutcomesLength(forms, sourceType, mockType, providers, resolutions, resolveProvider);
    var n := |providers| - 1;
    OutcomesLength(forms, sourceType, mockType, providers[..n], resolutions, resolveProvider);
    if i < n {
      OutcomeAt(forms, sourceType, mockType, providers[..n], resolutions, resolveProvider, i);
      assert providers[..n][..i] == providers[..i];
      assert providers[..n][i] == providers[i];
    } else {
      assert providers[..i] == providers[..n];
    }
  }

  /** Every provider in the result is non-empty. */
  lemma ClonedAreKept(forms: FormTokens, sourceType: Value, mockType: Value, providers: seq<Value>,
                      resolutions: map<Value, Value>, resolveProvider: Resolver)
    ensures forall m :: m in Cloned(forms, sourceType, mockType, providers, resolutions, resolveProvider).0 ==> Kept(m)
  {
    ClonedIsKeptOutcomes(forms, sourceType, mockType, providers, resolutions, resolveProvider);
  }

  /** The form tokens win over every other rule and leave the resolutions
      alone. */
  lemma FormTokensTakePriority(forms: FormTokens, sourceType: Value, mockType: Value, provider: Value,
                               resolutions: map<Value, Value>, resolveProvider: Resolver)
    requires IsFormToken(GetProvider(provider), forms.ngValidators)
          || IsFormToken(GetProvider(provider), forms.ngAsyncValidators)
          || IsFormToken(GetProvider(provider), forms.ngValueAccessor)
    ensures var (m, resolutions') := ProcessProvider(forms, sourceType, mockType, provider, resolutions, resolveProvider);
      m.Factory? && m.provide == GetProvider(provider) && m.mockType == mockType && resolutions' == resolutions
  {
  }

  /** A provider object that is no form token and whose `useExisting` is the
      source, directly or through `forwardRef`, becomes an alias of the mock. */
  lemma OwnUseExistingIsRedirected(forms: FormTokens, sourceType: Value, mockType: Value, provide: Value,
                                   fields: map<string, Value>, id: nat, resolutions: map<Value, Value>,
                                   resolveProvider: Resolver)
    requires "provide" in fields && fields["provide"] == provide && Truthy(provide)
    requires "useExisting" in fields
    requires fields["useExisting"] == sourceType
          || (fields["useExisting"].ForwardRef? && fields["useExisting"].target == sourceType)
    requires !IsFormToken(provide, forms.ngValidators) && !IsFormToken(provide, forms.ngAsyncValidators)
          && !IsFormToken(provide, forms.ngValueAccessor)
    requires provide != forms.ngControl && provide != forms.formControlDirective
    ensures ProcessProvider(forms, sourceType, mockType, Obj(id, fields), resolutions, resolveProvider)
         == (Existing(provide, mockType), resolutions)
  {
    var provider := Obj(id, fields);
    assert GetProvider(provider) == provide;
    assert provide < provider;
  }

  /** `NgControl` and `FormControlDirective` are never redirected: unless
      they are also a loaded form token, they go to `resolveProvider`. */
  lemma ControlTokensAreResolved(forms: FormTokens, sourceType: Value, mockType: Value, provider: Value,
                                 resolutions: map<Value, Value>, resolveProvider: Resolver)
    requires GetProvider(provider) == forms.ngControl || GetProvider(provider) == forms.formControlDirective
    requires ProcessTokens(forms, mockType, provider).None?
    ensures ProcessProvider(forms, sourceType, mockType, provider, resolutions, resolveProvider)
         == (Resolved(resolveProvider(provider, resolutions).0), resolveProvider(provider, resolutions).1)
  {
  }
}
