# ng-mocks core, modelled in Dafny

ng-mocks builds mock versions of Angular declarations: modules, components,
directives, pipes and providers. It does this for tests. This project models
the core of that machinery and proves what each part promises. The core covers:

- the `MockBuilder` chain that records which declarations to keep, mock,
  replace, exclude or provide;
- `MockModule` and `mockNgDef`, which turn a module's metadata into the
  metadata of its mock and cache the result in the `ngMocksUniverse`;
- `cloneProviders`, which rewrites the providers of a mocked declaration;
- `MockPipe` / `MockPipes` and the `init` hook of a mock pipe;
- the runtime decoration helpers (`decorateMock`, `decorateInputs`);
- the array and collection helpers of both `core.helpers.ts` files;
- `ngMocks.config`, `ngMocks.input` / `ngMocks.output` and the MockInstance
  leak reporter.

JavaScript values are one datatype (`JsValues.Value`), with truthiness,
`typeof` and property reads written out. The global `ngMocksUniverse`
(flags, config, caches, build declarations, a decoration log and the next
fresh class identity) is the value `Universe.State`. Each operation takes
that state and returns the new one.

Most of the state the source changes in place is changed in place in the
model too (the exceptions are listed under "Left out"):
- `MockBuilderPromise`, a pipe instance and the mock class `decorateMock`
  decorates are classes whose methods update their fields;
- the loops of `flatten`, `mapValues`, `extractDependency`, `processMeta`,
  `addExports`, `cloneProviders`, `decorateInputs`, `detectAttribute`,
  `ngMocks.config` and the leak reporter are methods with loop invariants.

Each such method is proved equal to a specification function. The
properties the source promises are then lemmas about those functions.

Modules:

- `JsValues`, `JsStrings`, `JsCollections`: JavaScript values, the string
  operations the core uses (`split`, `trim`, `join`), and insertion-ordered
  `Set`/`Map` as sequences.
- `Universe`: the `ngMocksUniverse` state and the core config.
- `CoreHelpers`, `LegacyCoreHelpers`: the two `core.helpers.ts` files.
- `ModuleWithProviders`: `isNgModuleDefWithProviders`.
- `RequiredMetadata`: the `requiredMetadata` helper of MockBuilder.
- `DecorateInputs`, `DecorateMock`: `decorateInputs` and `decorateMock`.
- `MockHelperConfig`, `MockHelperAttributes`: `ngMocks.config` and
  `ngMocks.input` / `ngMocks.output`.
- `MockInstanceForgotReset`: the report of MockInstance customisations that
  were never reset.
- `CloneProviders`: `cloneProviders`.
- `MockPipe`: `MockPipe`, `MockPipes` and the `init` hook.
- `MockNgDef`: `mockNgDef` with `flatToExisting`, `processMeta`,
  `resolveDefForExport` and `addExports`.
- `MockModule`: `MockModule` and its helpers.
- `MockBuilder`: `MockBuilderPromise` and its pure helpers.

All paths below are relative to the repository root. `libs/ng-mocks/src/lib/`
holds the current library. `lib/` holds the older copies of
`core.helpers.ts`, `decorate.inputs.ts` and `mock-builder.promise.ts` that
the core includes.

## Model

| member | source | states |
|---|---|---|
| JsValues.Spread | libs/ng-mocks/src/lib/mock-builder/performance/required-metadata.ts:10-12 | `[...v]` is the items of an array, one single-character string per character of a string, and a `TypeError` for any other value |
| JsStrings.IndexOf | libs/ng-mocks/src/lib/mock-helper/mock-helper.attributes.ts:17 | the first position where the separator occurs, and none exactly when it does not occur |
| JsStrings.Split | lib/common/decorate.inputs.ts:14 | `split` always yields at least one part |
| JsStrings.JoinSplit | lib/common/decorate.inputs.ts:14 | joining the parts of `split` with the separator gives the string back |
| JsStrings.SplitPartsLackSeparator | lib/common/decorate.inputs.ts:14 | no part of `split` contains the separator |
| JsStrings.SplitHead | lib/common/decorate.inputs.ts:14 | `split` yields two or more parts exactly when the separator occurs, and the string itself when it does not |
| JsStrings.SplitLimit | libs/ng-mocks/src/lib/mock-helper/mock-helper.attributes.ts:17 | `split(sep, limit)` is the first `limit` parts of `split(sep)` |
| JsStrings.TrimStart | libs/ng-mocks/src/lib/mock-helper/mock-helper.attributes.ts:17 | removes exactly the leading white space: the result is a suffix that does not start with white space, and only white space is dropped |
| JsStrings.TrimEnd | libs/ng-mocks/src/lib/mock-helper/mock-helper.attributes.ts:17 | removes exactly the trailing white space |
| JsStrings.Trim | libs/ng-mocks/src/lib/mock-helper/mock-helper.attributes.ts:17 | the result is a slice of the string with only white space before and after it, and it neither starts nor ends with white space |
| JsStrings.TrimIsSlice | libs/ng-mocks/src/lib/mock-helper/mock-helper.attributes.ts:17 | the trimmed string is the slice of the input right after its leading white space, with only white space after it |
| JsStrings.TrimUnchanged | libs/ng-mocks/src/lib/mock-helper/mock-helper.attributes.ts:17 | a string without surrounding white space is its own trim |
| JsStrings.TrimIdempotent | libs/ng-mocks/src/lib/mock-helper/mock-helper.attributes.ts:17 | trimming twice is trimming once |
| JsCollections.SetAdd | lib/mock-builder/mock-builder.promise.ts:66-70 | `Set.add` in insertion order: the value is a member afterwards, the members are the old ones plus it, duplicates are never created, a present value changes nothing and a new one goes last |
| JsCollections.SetAddAllContents | libs/ng-mocks/src/lib/common/core.helpers.ts:58-73 | adding many values keeps the old members in order as a prefix, adds exactly the new values, and creates no duplicates |
| JsCollections.SetAddAllAppend | libs/ng-mocks/src/lib/common/core.helpers.ts:89-97 | adding two batches one after the other is adding their concatenation |
| JsCollections.SetAddAllFresh | libs/ng-mocks/src/lib/common/core.helpers.ts:58-73 | adding distinct values that are new appends them in order |
| JsCollections.Keys | libs/ng-mocks/src/lib/common/core.helpers.ts:50-56 | the keys of a map's entries, in iteration order |
| JsCollections.MapSet | libs/ng-mocks/src/lib/common/core.helpers.ts:79-81 | `Map.set` keeps its position for an existing key, appends a new key and keeps keys unique |
| JsCollections.MapSetAll | libs/ng-mocks/src/lib/common/core.helpers.ts:79-81 | setting many entries keeps keys unique |
| CoreHelpers.LeavesOfAppend | libs/ng-mocks/src/lib/common/core.helpers.ts:38-48 | the leaves of a concatenation are the leaves of its parts, left to right |
| CoreHelpers.LeavesShape | libs/ng-mocks/src/lib/common/core.helpers.ts:38-48 | the leaves of a value contain no arrays, and there are as many as its leaf count |
| CoreHelpers.LeavesOfShape | libs/ng-mocks/src/lib/common/core.helpers.ts:38-48 | the same for a list of values |
| CoreHelpers.Flatten | libs/ng-mocks/src/lib/common/core.helpers.ts:38-48 | `flatten(values, result)` appends the leaves of nested arrays left to right after what `result` held; a non-array is a single leaf |
| CoreHelpers.MapKeys | libs/ng-mocks/src/lib/common/core.helpers.ts:50-56 | the keys in iteration order |
| CoreHelpers.MapValues | libs/ng-mocks/src/lib/common/core.helpers.ts:58-73 | without a destination, the values in order; with one, they are added to that set and `[]` is returned |
| CoreHelpers.MapEntries | libs/ng-mocks/src/lib/common/core.helpers.ts:75-87 | without a destination, the entries in order; with one, they are set into that map and `[]` is returned |
| CoreHelpers.WithoutInjectionFlagsMembers | libs/ng-mocks/src/lib/common/core.helpers.ts:89-97 | a dependency array contributes every item except the `Optional`/`SkipSelf`/`Self` flag objects |
| CoreHelpers.DependencyItemsMembers | libs/ng-mocks/src/lib/common/core.helpers.ts:101-112 | a value is contributed exactly when it is a non-array dependency, or an unflagged item of an array dependency |
| CoreHelpers.ExtractDependencyArray | libs/ng-mocks/src/lib/common/core.helpers.ts:89-97 | the set gains the array's unflagged items, in order |
| CoreHelpers.ExtractDependency | libs/ng-mocks/src/lib/common/core.helpers.ts:101-112 | without a set nothing happens; with one, the set gains every contributed value |
| CoreHelpers.ExtractDependencyResult | libs/ng-mocks/src/lib/common/core.helpers.ts:101-112 | the set only grows, keeps its old members in order, and gains exactly the contributed values |
| LegacyCoreHelpers.Flatten | lib/common/core.helpers.ts:24-34 | the older `flatten` appends the same leaves in the same order as the current one |
| LegacyCoreHelpers.MapKeys | lib/common/core.helpers.ts:36-41 | the keys in iteration order, with the input left alone |
| LegacyCoreHelpers.MapValues | lib/common/core.helpers.ts:43-48 | the values in iteration order |
| LegacyCoreHelpers.MapEntries | lib/common/core.helpers.ts:50-55 | the entries in iteration order |
| LegacyCoreHelpers.FlagChecksAreInjectionFlag | lib/common/core.helpers.ts:68-78 | the three `ngMetadataName` tests of the old version are together the flag test of the current one |
| LegacyCoreHelpers.AddUnflagged | lib/common/core.helpers.ts:68-79 | the inner loop adds every item that is not a flag object, falsy items included |
| LegacyCoreHelpers.ExtractDependency | lib/common/core.helpers.ts:59-81 | without a set nothing happens; otherwise it adds the same values as the current version |
| ModuleWithProviders.IsNgModuleDefWithProvidersValue | libs/ng-mocks/src/lib/common/func.is-ng-module-def-with-providers.ts:31-32 | a falsy input gives itself back; the result is truthy exactly for an object whose `ngModule` is a function |
| ModuleWithProviders.FunctionsAreRejected | libs/ng-mocks/src/lib/common/func.is-ng-module-def-with-providers.ts:32 | a function or class is never a module with providers |
| ModuleWithProviders.AcceptedWithOrWithoutProviders | libs/ng-mocks/src/lib/common/func.is-ng-module-def-with-providers.ts:32 | an object with a function `ngModule` is accepted, with or without `providers` |
| ModuleWithProviders.RejectedWithoutFunctionNgModule | libs/ng-mocks/src/lib/common/func.is-ng-module-def-with-providers.ts:32 | an object whose `ngModule` is missing or not a function is rejected |
| RequiredMetadata.CopyOrEmpty | libs/ng-mocks/src/lib/mock-builder/performance/required-metadata.ts:10-12 | the spread copy of a field: `[]` for a falsy field, the items of an array, and a `TypeError` on a value that cannot be spread |
| RequiredMetadata.RequiredMetadata | libs/ng-mocks/src/lib/mock-builder/performance/required-metadata.ts:3-13 | succeeds exactly when all three fields can be spread, and then holds the copies of `declarations`, `imports` and `providers` |
| RequiredMetadata.ArraysCopiedInOrder | libs/ng-mocks/src/lib/mock-builder/performance/required-metadata.ts:10-12 | array fields are copied element by element, in order, and a missing field becomes `[]` |
| RequiredMetadata.OtherMetadataIgnored | libs/ng-mocks/src/lib/mock-builder/performance/required-metadata.ts:5-13 | the result depends only on the three fields; other metadata is dropped |
| DecorateInputs.ParseInputShape | lib/common/decorate.inputs.ts:14 | an entry without `': '` is all key and has no alias; with one, it splits at the first occurrence of `': '` |
| DecorateInputs.DecorateInputs | lib/common/decorate.inputs.ts:10-21 | nothing happens without `inputs`; otherwise the log gains exactly the decorations of the inputs, in order |
| DecorateInputs.DecorationsMembers | lib/common/decorate.inputs.ts:13-19 | a decoration is applied exactly for an entry whose key is not excluded, with that entry's key and alias |
| DecorateInputs.DecorationsWithoutExclude | lib/common/decorate.inputs.ts:13-19 | without `exclude`, every entry is decorated once, in input order |
| DecorateMock.MergedConfig | libs/ng-mocks/src/lib/common/decorate.mock.ts:11-19 | without a universe mock config for the source, the config input itself; with one, the universe config overridden key by key by `configInput.config`, the other fields kept |
| DecorateMock.WithStandaloneDefault | libs/ng-mocks/src/lib/common/decorate.mock.ts:22-28 | an object first decorator argument without `standalone` gets `standalone: false`, and an explicit value is kept |
| DecorateMock.WithStandaloneDefaultIdempotent | libs/ng-mocks/src/lib/common/decorate.mock.ts:22-28 | applying the default twice is applying it once |
| DecorateMock.MockClass.constructor | libs/ng-mocks/src/lib/common/decorate.mock.ts:7 | a class with a name, optional module declarations and none of the mock properties yet |
| DecorateMock.MockClass.Decorate | libs/ng-mocks/src/lib/common/decorate.mock.ts:7-29 | `mockOf` is the source, `nameConstructor` is the name before the rename, the name becomes `MockOf<source name>`, the prototype config is the merged config, and every module declaration gets the standalone default |
| MockHelperConfig.UpdateFlag | libs/ng-mocks/src/lib/mock-helper/mock-helper.object.ts:51-56 | `null` resets a flag to the core default, `undefined` leaves it, and any other value is stored |
| MockHelperConfig.UpdateCacheSize | libs/ng-mocks/src/lib/mock-helper/mock-helper.object.ts:58-62 | `mockRenderCacheSize: null` deletes the global key, `undefined` leaves it, and any other value sets it |
| MockHelperConfig.Config | libs/ng-mocks/src/lib/mock-helper/mock-helper.object.ts:45-63 | the loop over the two flags and the cache-size update, with nothing else in the universe changed |
| MockHelperConfig.UpdateFlagsUnrolled | libs/ng-mocks/src/lib/mock-helper/mock-helper.object.ts:50-57 | the loop updates `onTestBedFlushNeed` and then `onMockInstanceRestoreNeed` |
| MockHelperConfig.ConfigFlagsEffect | libs/ng-mocks/src/lib/mock-helper/mock-helper.object.ts:50-57 | the outcome for each of the two flags, for `null`, `undefined` and any other value, and that no other flag is touched |
| MockHelperConfig.ConfigWithNothingDefined | libs/ng-mocks/src/lib/mock-helper/mock-helper.object.ts:45-63 | a config of only `undefined` values changes neither the flags nor the global map |
| MockHelperAttributes.ParseArgs | libs/ng-mocks/src/lib/mock-helper/mock-helper.attributes.ts:10-14 | element and selector are the first two arguments; the fallback exists exactly when exactly three arguments are passed, and is the third |
| MockHelperAttributes.AttrMatches | libs/ng-mocks/src/lib/mock-helper/mock-helper.attributes.ts:16-24 | a match happens exactly when there is no alias and the property name is the selector, or there is an alias and it is the selector; a match gives the property name, never the alias |
| MockHelperAttributes.NoColonMeansNoAlias | libs/ng-mocks/src/lib/mock-helper/mock-helper.attributes.ts:17 | without `':'` the attribute is its trimmed property name, with no alias |
| MockHelperAttributes.AliasHidesPropertyName | libs/ng-mocks/src/lib/mock-helper/mock-helper.attributes.ts:19-21 | an aliased attribute is found by its alias, which yields the property name, and not by its property name |
| MockHelperAttributes.MatchInIsFirst | libs/ng-mocks/src/lib/mock-helper/mock-helper.attributes.ts:33-38 | the inner scan finds nothing exactly when no definition matches with a non-empty name, and otherwise finds the first one that does |
| MockHelperAttributes.FirstMatchIsFirst | libs/ng-mocks/src/lib/mock-helper/mock-helper.attributes.ts:26-42 | a value is found exactly when some token matches, and it is the property of the instance of the first such token |
| MockHelperAttributes.MatchDefs | libs/ng-mocks/src/lib/mock-helper/mock-helper.attributes.ts:33-38 | the inner loop with early return computes the first structured match |
| MockHelperAttributes.DetectAttribute | libs/ng-mocks/src/lib/mock-helper/mock-helper.attributes.ts:26-42 | the nested loop returns the first match and throws `'Not found'` when there is none |
| MockHelperAttributes.Attribute | libs/ng-mocks/src/lib/mock-helper/mock-helper.attributes.ts:44-56 | a found value is returned; on any failure the fallback is returned when given, and otherwise `Cannot find <sel> <label> via ngMocks.<label>` is thrown |
| MockInstanceForgotReset.ReportFor | libs/ng-mocks/src/lib/mock-instance/mock-instance-forgot-reset.ts:15-27 | it throws exactly when something leaked and the flag is `'throw'`, and warns exactly when something leaked and the flag is `'warn'`; otherwise it is silent; the message is the fixed template |
| MockInstanceForgotReset.CollectLeaks | libs/ng-mocks/src/lib/mock-instance/mock-instance-forgot-reset.ts:7-12 | the `pop` loop empties `checkReset` and lists the leaking declarations |
| MockInstanceForgotReset.ForgotReset | libs/ng-mocks/src/lib/mock-instance/mock-instance-forgot-reset.ts:3-28 | `checkReset` ends empty and the report is the one for the listed leaks under the restore flag |
| MockInstanceForgotReset.ReportedAppend | libs/ng-mocks/src/lib/mock-instance/mock-instance-forgot-reset.ts:7-8 | later pairs are listed first: the list is in reverse recording order |
| MockInstanceForgotReset.ReportedMembers | libs/ng-mocks/src/lib/mock-instance/mock-instance-forgot-reset.ts:9-11 | a value is listed exactly when some pair's config is still the installed one, shown by name for a function and as-is otherwise |
| MockInstanceForgotReset.UndefinedConfigOfMissingDeclaration | libs/ng-mocks/src/lib/mock-instance/mock-instance-forgot-reset.ts:9 | a pair recorded with `undefined` for a declaration that has no config entry counts as a leak |
| CloneProviders.GetProvider | libs/ng-mocks/src/lib/mock/clone-providers.ts:18 | the token of a provider is its truthy `provide`, or the provider itself |
| CloneProviders.ProcessTokens | libs/ng-mocks/src/lib/mock/clone-providers.ts:17-30 | a factory provider for the mock type exactly when the token is a loaded `NG_VALIDATORS`, `NG_ASYNC_VALIDATORS` or `NG_VALUE_ACCESSOR`; the proxy is the validator proxy for `NG_VALIDATORS`, else the async validator proxy for `NG_ASYNC_VALIDATORS`, else the value accessor proxy, in that priority |
| CloneProviders.ProcessOwnUseExisting | libs/ng-mocks/src/lib/mock/clone-providers.ts:32-53 | a `useExisting` of the source type, direct or through a forward ref, becomes a `useExisting` of the mock type; `NgControl` and `FormControlDirective` are never redirected |
| CloneProviders.ProcessProvider | libs/ng-mocks/src/lib/mock/clone-providers.ts:55-72 | the three rules in priority order: `resolveProvider` is consulted exactly when neither a form token nor an own `useExisting` applies, and the first two rules leave the shared resolutions unchanged |
| CloneProviders.KeptOnly | libs/ng-mocks/src/lib/mock/clone-providers.ts:92-94 | only non-empty mocks are kept, all taken from the outcomes |
| CloneProviders.MentionsValueAccessorMembers | libs/ng-mocks/src/lib/mock/clone-providers.ts:87-90 | `setControlValueAccessor` is set exactly when some provider's token is `NG_VALUE_ACCESSOR` |
| CloneProviders.CloneProviderList | libs/ng-mocks/src/lib/mock/clone-providers.ts:74-101 | the result is the kept mocks of the flattened providers, or of `[]` without providers, and `setControlValueAccessor` is `false` or undefined as above |
| CloneProviders.CloneFlat | libs/ng-mocks/src/lib/mock/clone-providers.ts:86-95 | the loop pushes each provider's non-empty mock in input order, with one resolutions map threaded through all calls |
| CloneProviders.OutcomesLength | libs/ng-mocks/src/lib/mock/clone-providers.ts:86-95 | the loop produces one outcome per provider |
| CloneProviders.ClonedIsKeptOutcomes | libs/ng-mocks/src/lib/mock/clone-providers.ts:86-95 | the result is exactly the outcomes with the empty ones dropped, in order |
| CloneProviders.Cloned | libs/ng-mocks/src/lib/mock/clone-providers.ts:86-95 | the loop pushes at most one mock per flattened provider |
| CloneProviders.OutcomeAt | libs/ng-mocks/src/lib/mock/clone-providers.ts:84-91 | the i-th outcome is `processProvider` of the i-th provider with the resolutions the earlier ones left |
| CloneProviders.ClonedAreKept | libs/ng-mocks/src/lib/mock/clone-providers.ts:92-94 | no empty mock reaches the result |
| CloneProviders.FormTokensTakePriority | libs/ng-mocks/src/lib/mock/clone-providers.ts:61-64 | a form-token provider becomes the factory provider whatever else it is, and leaves the resolutions alone |
| CloneProviders.OwnUseExistingIsRedirected | libs/ng-mocks/src/lib/mock/clone-providers.ts:40-42 | a `useExisting` of the source type is redirected to the mock type |
| CloneProviders.ControlTokensAreResolved | libs/ng-mocks/src/lib/mock/clone-providers.ts:36-38 | `NgControl` and `FormControlDirective` fall through to `resolveProvider` |
| MockPipe.Invoke | libs/ng-mocks/src/lib/mock-pipe/mock-pipe.ts:29-34 | calling `transform` fails exactly when nothing is installed |
| MockPipe.PipeInstance.constructor | libs/ng-mocks/src/lib/mock-pipe/mock-pipe.ts:28 | a fresh instance has no `transform` |
| MockPipe.PipeInstance.Init | libs/ng-mocks/src/lib/mock-pipe/mock-pipe.ts:28-35 | the hook installs a truthy supplied transform, and a stub named `<constructor>.transform` when nothing is installed |
| MockPipe.InitOnNewInstance | libs/ng-mocks/src/lib/mock-pipe/mock-pipe.ts:29-34 | on a new instance, calling `transform` calls the supplied function, or returns `undefined` through the stub when none was supplied |
| MockPipe.InitIdempotent | libs/ng-mocks/src/lib/mock-pipe/mock-pipe.ts:29-34 | running the hook again changes nothing, and `transform` is always installed afterwards |
| MockPipe.MockPipe | libs/ng-mocks/src/lib/common/core.reflect.pipe-resolve.ts:11-17 | `MockPipe` throws `Cannot resolve declarations` exactly when a class that is neither a mock pipe nor cached is not a pipe, and then leaves the universe as it was; the flags never change and no class identity is taken back |
| MockPipe.MockPipeEffect | libs/ng-mocks/src/lib/mock-pipe/mock-pipe.ts:53-77 | a mock pipe is returned as it is; under `cachePipe` a cached mock is returned without a new class; otherwise a class that is not a pipe throws `Cannot resolve declarations` with the universe unchanged, and a pipe gets a new class, cached exactly when `cachePipe` is set |
| MockPipe.MockPipeLeavesRest | libs/ng-mocks/src/lib/mock-pipe/mock-pipe.ts:53-77 | the flags and configs never change, no class identity is reused, and no cache entry but the pipe's own changes |
| MockPipe.MockPipeCreates | libs/ng-mocks/src/lib/mock-pipe/mock-pipe.ts:72-75 | for a pipe neither mocked nor cached, a new `MockOf<name>` mock pipe of it with the next identity, decorated once, and cached exactly when `cachePipe` is set |
| MockPipe.MockPipeMocks | libs/ng-mocks/src/lib/mock-pipe/mock-pipe.ts:55-77 | under a sound cache a successful answer is the pipe itself when it is a mock, and otherwise a mock of it; the cache stays sound, also when the call throws |
| MockPipe.MockPipeCachedTwice | libs/ng-mocks/src/lib/mock-pipe/mock-pipe.ts:68-75 | under `cachePipe`, a second call gives the same answer (the same mock, or the same error) and changes nothing |
| MockPipe.MockPipes | libs/ng-mocks/src/lib/mock-pipe/mock-pipe.ts:20-22 | every error is `Cannot resolve declarations`; a successful map has one result per pipe, and a list of pipes never throws; the flags never change |
| MockPipe.MockPipesFirstThrows | libs/ng-mocks/src/lib/mock-pipe/mock-pipe.ts:20-22 | a first pipe that throws ends the map at once with its error, nothing changed |
| MockPipe.MockPipesThrows | libs/ng-mocks/src/lib/mock-pipe/mock-pipe.ts:20-22 | without `cachePipe`, a list holding a class that is neither a pipe nor a mock pipe makes the map throw |
| MockPipe.MockPipesMock | libs/ng-mocks/src/lib/mock-pipe/mock-pipe.ts:20-22 | under a sound cache, in a successful map the i-th entry mocks the i-th pipe, or is that pipe when it is a mock already; the cache stays sound even when a pipe throws |
| MockNgDef.MapResolve | libs/ng-mocks/src/lib/mock-module/mock-ng-def.ts:11-14 | `map(callback)` gives one result per item |
| MockNgDef.KeepTruthy | libs/ng-mocks/src/lib/mock-module/mock-ng-def.ts:14 | `filter(item => !!item)` keeps exactly the truthy values |
| MockNgDef.KeepTruthyAppend | libs/ng-mocks/src/lib/mock-module/mock-ng-def.ts:14 | the filter preserves order: it distributes over concatenation |
| MockNgDef.FlatToExisting | libs/ng-mocks/src/lib/mock-module/mock-ng-def.ts:11-14 | the result holds exactly the truthy callback results, and no more values than the data has leaves |
| MockNgDef.MapResolveAt | libs/ng-mocks/src/lib/mock-module/mock-ng-def.ts:11-14 | the i-th result is the callback's answer for the i-th leaf, in the universe the earlier calls left |
| MockNgDef.KeptResultsMembers | libs/ng-mocks/src/lib/mock-module/mock-ng-def.ts:11-14 | a value is kept exactly when it is a truthy result of the callback on some item |
| MockNgDef.ConfigureProcessMetaKeys | libs/ng-mocks/src/lib/mock-module/mock-ng-def.ts:25-36 | the seven keys in order, with `resolveProvider` for `providers`/`viewProviders` and `resolve` for the others |
| MockNgDef.ProcessMeta | libs/ng-mocks/src/lib/mock-module/mock-ng-def.ts:38-63 | the loop over the keys around the temporary `cachePipe` flag, which is removed again when it was absent |
| MockNgDef.MetaAfterKeys | libs/ng-mocks/src/lib/mock-module/mock-ng-def.ts:50-54 | a key appears in the mock metadata exactly when its input has a truthy `length`, and holds only truthy values |
| MockNgDef.MapResolveKeeps | libs/ng-mocks/src/lib/mock-module/mock-ng-def.ts:11-14 | a universe invariant every resolver call keeps is kept by `flatToExisting` |
| MockNgDef.MetaAfterKeeps | libs/ng-mocks/src/lib/mock-module/mock-ng-def.ts:50-54 | and by the whole key loop |
| MockNgDef.ResolveDefForExport | libs/ng-mocks/src/lib/mock-module/mock-ng-def.ts:65-94 | the answer is the resolved mock or `undefined`: `undefined`, with nothing changed after resolving, when the mock is falsy, and the mock whenever exports are not corrected; it reports the resolver's `touched` |
| MockNgDef.CachePipeRestored | libs/ng-mocks/src/lib/mock-module/mock-ng-def.ts:46-60 | `cachePipe` is present after `processMeta` exactly when it was before, as long as the resolvers leave it as they find it |
| MockNgDef.CorrectExportsFilter | libs/ng-mocks/src/lib/mock-module/mock-ng-def.ts:89-91 | under `correctExports` a def is exported exactly when its mock is truthy and the module config has `exportAll` or the def's config has `export`, and then as the resolved mock |
| MockNgDef.ExportBackPropagation | libs/ng-mocks/src/lib/mock-module/mock-ng-def.ts:78-87 | an exported declaration whose config has `export` gives the given module `export: true`, with its other settings kept and no other config entry changed |
| MockNgDef.AddExports | libs/ng-mocks/src/lib/mock-module/mock-ng-def.ts:101-119 | the loop over the imports and declarations computes the export pass |
| MockNgDef.AddExportsOf | libs/ng-mocks/src/lib/mock-module/mock-ng-def.ts:109-118 | the `for` loop with `continue` computes the export steps in order |
| MockNgDef.ExportStepGrows | libs/ng-mocks/src/lib/mock-module/mock-ng-def.ts:96-117 | one step only appends to `exports`, never an undefined resolution and never a duplicate; it marks `changed` when it appends, and leaves the other keys alone |
| MockNgDef.GrowsExportsTransitive | libs/ng-mocks/src/lib/mock-module/mock-ng-def.ts:109-118 | the growth relation composes over steps |
| MockNgDef.ExportsAfterShape | libs/ng-mocks/src/lib/mock-module/mock-ng-def.ts:109-118 | the whole pass only appends truthy, new exports, keeps `changed` once set and sets it whenever an export is added |
| MockNgDef.MockNgDefOf | libs/ng-mocks/src/lib/mock-module/mock-ng-def.ts:121-139 | `mockNgDef`: metadata pass, then export pass; `mockNgDefResolver` is removed again when it was absent, and `changed` holds whenever `skipMock` is absent |
| MockNgDef.AddExportsKeepsChanged | libs/ng-mocks/src/lib/mock-module/mock-ng-def.ts:126-129 | once `changed`, always `changed` |
| MockNgDef.ChangedWithoutSkipMock | libs/ng-mocks/src/lib/mock-module/mock-ng-def.ts:126 | without `skipMock` the result is always reported as changed |
| MockNgDef.ExportsAfterKeepsKey | libs/ng-mocks/src/lib/mock-module/mock-ng-def.ts:101-119 | a config key the resolver keeps survives the export pass |
| MockNgDef.ResolverCacheKept | libs/ng-mocks/src/lib/mock-module/mock-ng-def.ts:122-136 | a `mockNgDefResolver` entry that was present is left in place |
| MockNgDef.ExportsAfterKeepsCacheModule | libs/ng-mocks/src/lib/mock-module/mock-ng-def.ts:101-119 | the export pass keeps a `cacheModule` flag the resolver keeps |
| MockNgDef.ProcessMetaKeepsCacheModule | libs/ng-mocks/src/lib/mock-module/mock-ng-def.ts:38-63 | and so does the metadata pass |
| MockNgDef.MockNgDefResult | libs/ng-mocks/src/lib/mock-module/mock-ng-def.ts:121-139 | a resolution cache `mockNgDef` creates is removed again before it returns |
| MockNgDef.CacheModuleKept | libs/ng-mocks/src/lib/mock-module/mock-ng-def.ts:121-139 | `mockNgDef` leaves `cacheModule` set when it was set and the resolvers keep it |
| MockModule.PreprocessToggleFlag | libs/ng-mocks/src/lib/mock-module/mock-module.ts:29-43 | only `skipMock` can change, and nothing changes when no toggle is recorded |
| MockModule.PostprocessToggleFlag | libs/ng-mocks/src/lib/mock-module/mock-module.ts:45-51 | `skipMock` flips exactly when a toggle was recorded; no other flag or field changes |
| MockModule.ToggleRoundTrip | libs/ng-mocks/src/lib/mock-module/mock-module.ts:29-51 | the pair restores `skipMock` and leaves the other flags, except that a `neverMockModule` entry asked to be mocked inside a kept module ends with `skipMock` cleared |
| MockModule.PreprocessDecidesSkipMock | libs/ng-mocks/src/lib/mock-module/mock-module.ts:19-43 | during processing `skipMock` is cleared for a module to mock and set for one to keep, replace or never mock |
| MockModule.ExtractModuleAndProviders | libs/ng-mocks/src/lib/mock-module/mock-module.ts:53-75 | `(ngModule, providers if truthy)` for a module with providers, `(input, undefined)` otherwise |
| MockModule.ExistingMockPriority | libs/ng-mocks/src/lib/mock-module/mock-module.ts:77-97 | a mock input is its own answer, then a `cacheModule` hit, then a build declaration that is a different module, and `undefined` when none applies |
| MockModule.ExistingMockIgnoresSkipMock | libs/ng-mocks/src/lib/mock-module/mock-module.ts:77-97 | the lookup does not depend on `skipMock` |
| MockModule.GetMockModuleDef | libs/ng-mocks/src/lib/mock-module/mock-module.ts:99-109 | with an existing mock, no metadata is built and nothing changes |
| MockModule.DetectMockModule | libs/ng-mocks/src/lib/mock-module/mock-module.ts:111-126 | with changed metadata, a new `MockOf` module class extending the original under `skipMock` and `Mock` otherwise; without, the existing mock or the module itself |
| MockModule.ExistingMockIsReused | libs/ng-mocks/src/lib/mock-module/mock-module.ts:111-126 | an existing mock is returned as it is, with the universe unchanged |
| MockModule.MockedWithoutSkipMock | libs/ng-mocks/src/lib/mock-module/mock-module.ts:111-126 | without `skipMock` and without an existing mock, a new mock class of the module is always created |
| MockModule.GetMockProviders | libs/ng-mocks/src/lib/mock-module/mock-module.ts:128-136 | undefined for no providers, with nothing changed; for truthy providers, the original array exactly when `mockNgDef` of `{providers}` reports no change, otherwise the `providers` of the new metadata (or undefined when it has none), with the universe `mockNgDef` leaves |
| MockModule.GenerateReturn | libs/ng-mocks/src/lib/mock-module/mock-module.ts:138-149 | the very input exactly when neither the module nor the providers changed; otherwise a new `{ngModule}` for a module with providers, with `providers` exactly when the mock providers are truthy; otherwise the mock class |
| MockModule.RecordMock | libs/ng-mocks/src/lib/mock-module/mock-module.ts:177-182 | under `cacheModule` the input is cached with its mock and no other entry changes; under `skipMock` the mock joins the `ngMocksDepsSkip` set when there is one |
| MockModule.MockModuleResult | libs/ng-mocks/src/lib/mock-module/mock-module.ts:161-187 | the answer is wrapped in a new `{ngModule, providers}` exactly when the input is a module with providers and something changed; a class is never wrapped |
| MockModule.MockModuleReusesExisting | libs/ng-mocks/src/lib/mock-module/mock-module.ts:161-187 | a module with an existing mock is answered with that mock and no class is created; the answer is the very input when the input is that mock |
| MockModule.MockOfMockIsItself | libs/ng-mocks/src/lib/mock-module/mock-module.ts:77-149 | a mock module is returned unchanged |
| MockModule.MockModuleCreatesMock | libs/ng-mocks/src/lib/mock-module/mock-module.ts:161-187 | a module without an existing mock, processed without `skipMock`, becomes a new mock class of that module |
| MockModule.ClassResult | libs/ng-mocks/src/lib/mock-module/mock-module.ts:161-187 | a module class comes back as its detected mock, and the universe afterwards is the recorded mock with `skipMock` toggled back |
| MockModule.MockModuleCachesResult | libs/ng-mocks/src/lib/mock-module/mock-module.ts:176-179 | with `cacheModule` set, the module is afterwards cached with the very value returned |
| MockModule.MockModule | libs/ng-mocks/src/lib/mock-module/mock-module.ts:161-187 | the steps of `MockModule` compute the result the lemmas above describe |
| MockBuilder.NormaliseModule | lib/mock-builder/mock-builder.promise.ts:23-31 | `(ngModule, providers)` for a module with providers and `(input, undefined)` otherwise |
| MockBuilder.NormaliseAgreesWithMockModule | lib/mock-builder/mock-builder.promise.ts:23-31 | the builder and `MockModule` split an input the same way |
| MockBuilder.ParseProvider | lib/mock-builder/mock-builder.promise.ts:33-46 | the token and multi flag of a provider; reading from `null` throws |
| MockBuilder.GenerateProviderValue | lib/mock-builder/mock-builder.promise.ts:48-49 | a multi provider is appended to the stored array, or to a fresh one when the stored value is not an array; any other provider replaces what was stored |
| MockBuilder.ConsistentMeansOnePolicy | lib/mock-builder/mock-builder.promise.ts:97-179 | in consistent tables a declaration has at most one policy |
| MockBuilder.Wiped | lib/mock-builder/mock-builder.promise.ts:228-236 | the declaration is left with no policy, no provider list and no value; configs stay |
| MockBuilder.ExcludedData | lib/mock-builder/mock-builder.promise.ts:97-102 | `exclude` leaves the declaration excluded, with no provider list and no value, and the configs as they were |
| MockBuilder.KeptData | lib/mock-builder/mock-builder.promise.ts:109-128 | `keep` throws exactly when truthy providers cannot be spread; the declaration ends kept either way; with spreadable providers its list is what it collected while kept (nothing when it had another policy) followed by the new ones; without providers, or on the throw, it has none; it never has a value; the throw leaves the configs alone |
| MockBuilder.MockedData | lib/mock-builder/mock-builder.promise.ts:130-148 | `mock` throws exactly when truthy providers cannot be spread; the declaration ends mocked either way; with spreadable providers its list is what it collected while mocked followed by the new ones; without providers, or on the throw, it has none; the throw leaves no value and the configs alone |
| MockBuilder.ReplacedData | lib/mock-builder/mock-builder.promise.ts:161-179 | an error exactly when a side is not a module, component, directive or pipe; otherwise the source is replaced with the destination as its value, has no provider list, and has the given config exactly when it is truthy |
| MockBuilder.ProvideStep | lib/mock-builder/mock-builder.promise.ts:151-158 | one provider throws exactly when it is `null`; otherwise its token is provided and nothing else, with no provider list and no value, and the configs are untouched |
| MockBuilder.ProvideAll | lib/mock-builder/mock-builder.promise.ts:150-159 | `provide` never touches the configs and never adds a key to another policy, a provider list or a value |
| MockBuilder.MockBuilderPromise.constructor | lib/mock-builder/mock-builder.promise.ts:55-63 | a new builder has empty tables and no callbacks |
| MockBuilder.MockBuilderPromise.BeforeCompileComponents | lib/mock-builder/mock-builder.promise.ts:66-70 | the callback joins the insertion-ordered set once; the tables are unchanged |
| MockBuilder.MockBuilderPromise.Wipe | lib/mock-builder/mock-builder.promise.ts:228-236 | the tables become their wiped form |
| MockBuilder.MockBuilderPromise.SetConfigDef | lib/mock-builder/mock-builder.promise.ts:212-218 | a truthy config is stored, and any other value deletes the stored one |
| MockBuilder.MockBuilderPromise.SetDefValue | lib/mock-builder/mock-builder.promise.ts:220-226 | a given mock value is stored; the default marker deletes it |
| MockBuilder.MockBuilderPromise.Exclude | lib/mock-builder/mock-builder.promise.ts:97-102 | the tables become the excluded form, and consistent tables stay consistent |
| MockBuilder.MockBuilderPromise.Keep | lib/mock-builder/mock-builder.promise.ts:109-128 | the tables become the kept form, and the thrown flag reports a providers value that cannot be spread; consistent tables stay consistent |
| MockBuilder.MockBuilderPromise.Mock | lib/mock-builder/mock-builder.promise.ts:130-148 | the tables become the mocked form, and consistent tables stay consistent |
| MockBuilder.MockBuilderPromise.Replace | lib/mock-builder/mock-builder.promise.ts:161-179 | an invalid pair is an error with no state change; a valid one gives the replaced tables; consistent tables stay consistent |
| MockBuilder.MockBuilderPromise.Provide | lib/mock-builder/mock-builder.promise.ts:150-159 | the providers of `flatten(def)` are processed in turn, stopping at the first throw; consistent tables stay consistent |
| MockBuilder.MockBuilderPromise.ProvideEach | lib/mock-builder/mock-builder.promise.ts:151-158 | the loop computes the same as processing the providers one by one |
| MockBuilder.WipeClears | lib/mock-builder/mock-builder.promise.ts:228-236 | `wipe(d)` removes every policy, value and provider list of `d`; other keys, `configDef` and `beforeCC` are untouched |
| MockBuilder.ExcludeWins | lib/mock-builder/mock-builder.promise.ts:97-102 | afterwards `d` is excluded and nothing else; other keys keep their policies, and consistency is preserved |
| MockBuilder.KeepWins | lib/mock-builder/mock-builder.promise.ts:109-128 | afterwards the declaration is kept and nothing else, even when spreading the providers throws; other keys keep their policies, and consistency is preserved |
| MockBuilder.KeepKeepsConsistent | lib/mock-builder/mock-builder.promise.ts:109-128 | `keep` turns consistent tables into consistent tables |
| MockBuilder.MockKeepsConsistent | lib/mock-builder/mock-builder.promise.ts:130-148 | `mock` turns consistent tables into consistent tables |
| MockBuilder.KeptDataShape | lib/mock-builder/mock-builder.promise.ts:112-125 | what `keep` changes besides the policies: the provider list and the config of its declaration |
| MockBuilder.AddedPolicyConsistent | lib/mock-builder/mock-builder.promise.ts:97-179 | moving a wiped declaration into one policy set keeps the tables consistent |
| MockBuilder.OnlyTablesOfPoliciesCount | lib/mock-builder/mock-builder.promise.ts:199-210 | the policy of a key depends only on the five policy tables |
| MockBuilder.MockWins | lib/mock-builder/mock-builder.promise.ts:130-148 | afterwards the declaration is mocked and nothing else; other keys keep their policies, and consistency is preserved |
| MockBuilder.MockedDataShape | lib/mock-builder/mock-builder.promise.ts:135-146 | what `mock` changes besides the policies: the provider list, the value and the config of its declaration |
| MockBuilder.ReplaceWins | lib/mock-builder/mock-builder.promise.ts:161-179 | `replace` is rejected, with the tables unchanged, exactly when a side is not a module, component, directive or pipe or is an injectable; otherwise the source is replaced with the destination as its value |
| MockBuilder.ConfigFollowsLastCall | lib/mock-builder/mock-builder.promise.ts:109-218 | `keep`, `mock` and `replace` store their truthy config under the declaration and delete the stored one otherwise; `exclude` leaves the configs alone |
| MockBuilder.KeptConfig | lib/mock-builder/mock-builder.promise.ts:121-125 | after `keep`, the declaration has a config exactly when the given one is truthy, and it is the given one |
| MockBuilder.MockedConfig | lib/mock-builder/mock-builder.promise.ts:212-218 | after `mock`, the declaration has a config exactly when the given one is truthy, and it is the given one |
| MockBuilder.MockValueOnlyWhenGiven | lib/mock-builder/mock-builder.promise.ts:130-226 | `mock` stores a value exactly when a non-default mock argument is given |
| MockBuilder.KeepTwiceAppendsProviders | lib/mock-builder/mock-builder.promise.ts:112-119 | keeping a module with providers twice collects both provider lists in call order |
| MockBuilder.MockTwiceAppendsProviders | lib/mock-builder/mock-builder.promise.ts:135-142 | mocking a module with providers twice collects both provider lists in call order |
| MockBuilder.KeepThenMockDropsProviders | lib/mock-builder/mock-builder.promise.ts:109-148 | switching a module from kept to mocked keeps only the new providers |
| MockBuilder.SwitchingPolicyDropsProviders | lib/mock-builder/mock-builder.promise.ts:109-148 | switching a module from mocked to kept keeps only the new providers |
| MockBuilder.ProvideThrowsOnNull | lib/mock-builder/mock-builder.promise.ts:150-159 | `provide` throws exactly when some flattened provider is `null` |
| MockBuilder.MultiProvidersAccumulate | lib/mock-builder/mock-builder.promise.ts:150-159 | multi providers of one token accumulate, in call order, after what the token held |
| MockBuilder.MultiProvidersHold | lib/mock-builder/mock-builder.promise.ts:150-159 | after a list of multi providers of one token, nothing threw and the token holds exactly the earlier array followed by the list |
| MockBuilder.SingleProviderOverwrites | lib/mock-builder/mock-builder.promise.ts:150-159 | a non-multi provider overwrites what its token held, and other tokens keep theirs |
| MockBuilder.ProvideKeepsConsistent | lib/mock-builder/mock-builder.promise.ts:150-159 | `provide` keeps the tables consistent |
| MockBuilder.EmptyIsConsistent | lib/mock-builder/mock-builder.promise.ts:55-63 | a new builder is consistent and records no policy |

## Left out

- `extendClass` / `extendClassicClass` in both `core.helpers.ts` files are left out: they synthesise classes at run time. A new mock class is the next fresh identity of the universe (`nextId`).
- `getInjection` / `getTestBedInjection` are left out: they call into the TestBed injector.
- `MockBuilderPromise.build`, `then`, `catch`, `finally` and the stash are left out: they configure TestBed and use promises. The `beforeCC` callbacks are kept in insertion order, but running them in `then` is not modelled.
- The `getTestBed()._instantiated` branches of `MockModule` and `MockPipe` are left out: they read TestBed state.
- `funcImportExists` is left out: it produces an error for an undefined import. `MockModule.MockModule` therefore requires a class or a module with providers, and `MockPipe.MockPipe` requires a class.
- The Angular decorators are not applied: `NgModule(...)(mock)`, `Pipe(...)(mock)` and `Input(alias)(...)`. Each is recorded as an entry of a decoration log.
- `coreReflectModuleResolve` is not part of this model. `MockModule` takes the module metadata from a function parameter (`reflect`), which is total, so the `Cannot resolve declarations` error it throws for a class that is not a module is not modelled.
- `coreReflectPipeResolve` is not part of this model. `MockPipe.MockPipe` reads "the class is a pipe" from the kind of the class and throws its `Cannot resolve declarations` error otherwise; the metadata it would read is not looked at, and `coreReflectBodyCatch` is not part of this model.
- `createResolvers` is not part of this model. Its `resolve` and `resolveProvider` closures are parameters: each returns the mock, whether it called `change`, and the universe afterwards.
- `markProviders` is left out: it only tags provider objects.
- `helperMockService.resolveProvider` and `helperMockService.mock` are not part of this model. The first is a parameter; the second becomes a named stub.
- `parseMockArguments` is not part of this model. `MockBuilder.MockBuilderPromise.Mock` takes its result, the mock value or the default marker, as an argument.
- `funcGetProvider` and `isNgDef` are not part of this model. They are stated as definitions: the truthy `provide` of an object, or the value itself; a class of a given kind.
- The lookup of the element, of its provider tokens (`funcParseProviderTokensDirectives`) and of token instances (`mockHelperGet`) in `ngMocks.input` / `ngMocks.output` are parameters.
- The console warning of the MockInstance leak reporter is an output value, not I/O.
- The ES `Set`s and `Map`s of `MockBuilderPromise` are Dafny sets and maps, so their iteration order is not modelled. `beforeCC` keeps its order as a sequence. In `core.helpers.ts`, the `Set`/`Map` destinations are insertion-ordered sequences.
- Object identity of arrays is not modelled (`Arr` is structural). Where `MockModule` compares arrays by identity, `MockModule.MockProviders` tells the three cases apart explicitly.
- MockModule.RecordMock: `?.add` on an `ngMocksDepsSkip` entry that is not a set is not modelled. Only a set entry is updated.
- MockNgDef.ProcessMeta: `ngModule[key]?.length` counts only arrays and strings. The `length` of a function value is not modelled.
- DecorateMock.WithStandaloneDefault: only an object first decorator argument is defaulted. Other truthy values (a function with properties) are left alone.
- MockHelperAttributes.DetectAttribute: takes the matching test as a parameter. `Attribute` passes `attrMatches` with the selector.
- MockNgDef.CachePipeRestored, MockNgDef.ResolverCacheKept, MockNgDef.CacheModuleKept: these hold only for resolvers that keep the flag or key involved. That is stated as a precondition because the resolvers are not part of this model.
- MockModule.MockModuleCreatesMock: does not state the new class identity, because the resolvers may allocate classes in between.
- MockModule.MockModuleCachesResult is stated for a module class only; for a module with providers, `MockModule.RecordMock` states the cache write.
- Cyclic module imports are out of scope.
- DecorateMock.MockClass.Decorate: the source sets `standalone: false` on the first decorator argument of each declaration, an object that other classes and decorators share. The model rewrites the mock's own copy of the declarations list, so the effect on those shared objects, for example on the original declaration, is not modelled.
- `JsValues.Value` numbers are integers (`Num(n: int)`). Fractions, `NaN`, the infinities and `-0` are not modelled, so neither is their rendering or their truthiness.
- `JsValues.ToJsString` renders a class or function by its name, and a `forwardRef` as `forwardRef`. JavaScript's `${fn}` gives its source text, so the `Cannot find …` message of `ngMocks.input` / `ngMocks.output` names the class instead of quoting its code.
- The object `MockModule` returns for a module with providers is always the object with identity 0 (`MockModule.ReturnedValue`), so two such results are not told apart by identity.
