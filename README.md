# Dependency resolution in LoopBack 4, modelled in Dafny

This project models the dependency-injection core of `@loopback/context`, together with two helpers that sit close to it:

- **promise-helper.ts.** The structural promise test, and the `RejectionError` carrier. A resolution error travels inside the carrier as an ordinary fulfilment value, and the carrier turns it back into a rejection later.
- **inject.ts.** The `@inject` decorator, with the checks on where it may be placed. It also holds the descriptors the decorator records, the built-in getter, setter and options resolvers, and the defaults of `describeInjectedArguments`/`describeInjectedProperties`.
- **resolver.ts.**
  - The `ResolutionSession`: a binding stack used to detect circular dependencies, and an injection stack used to build the injection path.
  - `resolve`.
  - The resolution of injected constructor and method arguments, and of injected properties.
  - `instantiateClass` and `invokeMethod`.
- **generate-schema.ts** (`@loopback/rest`). Converting a JSON Schema definition into an OpenAPI schema object, and deriving schema names from model file paths.
- **helpers.ts** (`@loopback/boot`). Flattening a nested folder listing, and filtering file names by extension.

How the JavaScript is modelled:

- **Values and exceptions.** JavaScript values are the datatype `JsValues.Value`. An exception is a `Completion` that has `Thrown`.
- **Promises.** A value-or-promise is `PromiseHelper.VP`: either a direct value (`Now`) or a promise with its eventual outcome (`Later`). Only eventual outcomes are modelled: every continuation in this code maps the outcome of the promise it is attached to, so the order in which callbacks are scheduled does not change any result modelled here.
- **Context and metadata.** The context and the metadata store are parameters (`Collaborators.Context`, `Resolver.Target`). A binding is a class compared by identity.
- **Session.** The resolution session is a class whose two stacks are fields that its methods update.
- **Resolution loops.** The loops of `resolveInjectedArguments`, `resolveInjectedProperties` and `convertToSchemaObject` are imperative methods. Each method is proved equal to a fold of one loop turn (`ArgsFold`, `PropsFold`, `ConvertEntries`). The properties of the source are then proved as lemmas about those folds.

## Model

| member | source | states |
|---|---|---|
| PromiseHelper.IsPromiseLike | packages/context/src/promise-helper.ts:14-20 | `isPromise` holds exactly for an object whose `then` property is a function |
| PromiseHelper.NewRejectionError | packages/context/src/promise-helper.ts:32-44 | the carrier is an `Error` that keeps its cause; its message is the cause's message when the cause is an `Error`, and empty otherwise |
| PromiseHelper.RejectCarrier | packages/context/src/promise-helper.ts:49-51 | `reject()` is a promise rejected with the carrier's cause |
| PromiseHelper.Catch | packages/context/src/promise-helper.ts:57-62 | only a rejection of a native promise changes, becoming a fulfilment with a carrier of its cause; a direct value, a fulfilled promise and a promise of another library are returned as they are |
| PromiseHelper.Reject | packages/context/src/promise-helper.ts:68-79 | a promise fulfilled with a carrier becomes a rejection with the carrier's cause; any other outcome, and a direct value, pass through |
| PromiseHelper.Then | packages/context/src/promise-helper.ts:87-100 | a direct value goes straight to `onFulfilled`; a carrier fulfilment and a rejection skip it; any other fulfilment settles as `onFulfilled` of its value |
| PromiseHelper.RejectCatchRoundTrip | packages/context/src/promise-helper.ts:57-79 | `reject(catch(p))` settles as `p` does, unless `p` itself fulfils with a carrier |
| PromiseHelper.RejectCatchCarrierFulfilment | packages/context/src/promise-helper.ts:57-79 | a promise that fulfils with a carrier comes back from the round trip rejected with the carrier's cause |
| PromiseHelper.ThenIdentity | packages/context/src/promise-helper.ts:87-100 | `then` with the identity continuation leaves every promise unchanged |
| PromiseHelper.ThenCarrierSkipsChain | packages/context/src/promise-helper.ts:87-100 | a carrier skips every continuation of a chain of `then` calls |
| Inject.ApplyInject | packages/context/src/inject.ts:66-122 | a parameter index records a parameter descriptor; a static property and a method are refused with their messages; a prototype property with no third argument records a property descriptor with the key, metadata and resolver given; without a property key and a parameter index it throws the "can only be used on a property or a method parameter" error |
| Inject.InjectGetter | packages/context/src/inject.ts:148-153 | `inject.getter` passes its key and metadata on with the getter resolver |
| Inject.InjectSetter | packages/context/src/inject.ts:168-173 | `inject.setter` passes its key and metadata on with the setter resolver |
| Inject.InjectOptions | packages/context/src/inject.ts:204-209 | `inject.options` uses `''` as the key when none is given, and the options resolver |
| Inject.ResolveAsGetter | packages/context/src/inject.ts:212-217 | the getter resolver injects a function value, whose calls `InjectedGetterCall` describes |
| Inject.CallGetter | packages/context/src/inject.ts:212-217 | calling the getter is a fresh `ctx.get` of the key, made on the context as it is at the moment of the call |
| Inject.ResolveAsSetter | packages/context/src/inject.ts:219-224 | the setter resolver injects a function value, whose calls `InjectedSetterCall` describes |
| Inject.CallSetter | packages/context/src/inject.ts:219-224 | calling the setter throws the locked-binding error when the key's binding is locked; otherwise it binds the key to the value, leaves every other key as it was, and returns `undefined` |
| Inject.GetterSeesSetterValue | packages/context/src/inject.ts:212-224 | for an unlocked key, a getter called after a setter of the same key sees the value that was set |
| Inject.InjectedGetterCall | packages/context/src/inject.ts:212-217 | calling what the getter resolver injects is a fresh `ctx.get` of the injection's key, which changes nothing |
| Inject.InjectedSetterCall | packages/context/src/inject.ts:219-224 | calling what the setter resolver injects binds the injection's key to the argument and returns `undefined`, or throws the locked-binding error |
| Inject.InjectedSetterThenGetter | packages/context/src/inject.ts:212-224 | for an unlocked key, the value passed to the injected setter is what the injected getter's next call yields |
| Inject.OptionsPathChars | packages/context/src/inject.ts:237-242 | the options path is the key without one leading `#`, with every other `#` turned into `.`, character by character |
| Inject.OptionsFollowCurrentBinding | packages/context/src/inject.ts:226-249 | the options resolver depends only on the options of the current binding |
| Inject.ResolveAsOptionsCases | packages/context/src/inject.ts:226-249 | `undefined` without a current binding; otherwise the value at the path in the binding's options, waiting for the options when they are a promise, and passing on a rejection |
| Inject.DescribeInjectedArguments | packages/context/src/inject.ts:257-269 | the descriptors recorded for a method, and `[]` when none were recorded |
| Inject.DescribeInjectedProperties | packages/context/src/inject.ts:276-286 | the descriptors recorded for a prototype, and none when none were recorded |
| ResolverSession.ResolutionSession.constructor | packages/context/src/resolver.ts:33-40 | a new session has both stacks empty |
| ResolverSession.ResolutionSession.EnterInjection | packages/context/src/resolver.ts:88-96 | pushes the injection and leaves the bindings alone; the injection path grows by `->` and the injection's target name, or becomes that name when the stack was empty |
| ResolverSession.ResolutionSession.ExitInjection | packages/context/src/resolver.ts:101-108 | pops and returns the top injection, or returns nothing when the stack is empty |
| ResolverSession.ResolutionSession.CurrentInjection | packages/context/src/resolver.ts:113-115 | the top of the injection stack, and none exactly when the stack is empty |
| ResolverSession.ResolutionSession.CurrentBinding | packages/context/src/resolver.ts:120-122 | the top of the binding stack, and none exactly when the stack is empty |
| ResolverSession.ResolutionSession.Enter | packages/context/src/resolver.ts:128-143 | a binding already on the stack throws the circular-dependency error with the current path, and the stack is unchanged; any other binding is pushed, and the binding path grows by `->` and its key |
| ResolverSession.ResolutionSession.Exit | packages/context/src/resolver.ts:148-155 | pops and returns the top binding, or returns nothing when the stack is empty |
| ResolverSession.ResolutionSession.BindingPath | packages/context/src/resolver.ts:160-162 | `''` for an empty stack, the key of a lone binding, and otherwise the path of the bindings below the top, then `->`, then the top binding's key |
| ResolverSession.ResolutionSession.InjectionPath | packages/context/src/resolver.ts:167-171 | `''` for an empty stack, the target name of a lone injection, and otherwise the path of the injections below the top, then `->`, then the top injection's target name |
| ResolverSession.EnterExitEnter | packages/context/src/resolver.ts:128-155 | once a binding has been entered and exited it can be entered again: only a binding still being resolved counts as circular |
| ResolverSession.EnterBinding | packages/context/src/resolver.ts:47-54 | enters the binding in a new session, or in the given one; it throws exactly when the binding is already on the given session's stack, and then it throws the circular-dependency error with the session's binding path and leaves both stacks as they were |
| ResolverSession.EnterInjection | packages/context/src/resolver.ts:61-68 | pushes the injection onto a new session or onto the given one |
| ResolverSession.ResolveSpec | packages/context/src/resolver.ts:217-244 | the lookup sees the injection pushed; a throw propagates; a direct value pops the injection; a promise keeps it pushed, and a native rejection arrives as a carrier fulfilment |
| ResolverSession.Resolve | packages/context/src/resolver.ts:217-244 | the method's result and the session's new state are those of `ResolveSpec`; the continuation pops the injection exactly when the promise fulfils with something other than a carrier |
| ResolverSession.ResolveStackEffect | packages/context/src/resolver.ts:217-244 | after `resolve`, the session is one injection deeper unless the result was a direct value; the bindings never change |
| ResolverSession.ResolveCatchesNativeRejection | packages/context/src/resolver.ts:231-241 | a rejected native promise from the lookup reaches the caller as a carrier of its cause |
| Resolver.FirstWhere | packages/context/src/resolver.ts:318-324 | the first pending promise that satisfies the test, and none before it does |
| Resolver.Settle | packages/context/src/resolver.ts:318-324 | `Promise.all(...).then(find carrier || result)` rejects exactly when some promise rejects; a carrier result is one of the promises' outcomes; when every promise delivers a plain value, the result is what it settles with; when none rejects, the first carrier in slot order is the outcome (`find`) |
| Resolver.ArgStepEffect | packages/context/src/resolver.ts:293-316 | a loop turn takes the next non-injected argument, or places a direct value, or adds exactly one pending slot, which keeps its injection pushed on the session |
| Resolver.ArgStepPositional | packages/context/src/resolver.ts:295-307 | a slot without a key or a resolver takes the next non-injected argument, and throws the missing-argument error when none is left |
| Resolver.ArgStepResolved | packages/context/src/resolver.ts:308-315 | an injected slot takes what `resolve` gave: a throw, a direct value in its slot, or `undefined` plus a pending slot for a promise |
| Resolver.FillArgs | packages/context/src/resolver.ts:290-291 | the argument setters change only the slots of the pending promises |
| Resolver.ArgsThrown | packages/context/src/resolver.ts:293-316 | a throw at any slot is what the whole resolution throws |
| Resolver.ArgsFoldCount | packages/context/src/resolver.ts:293-316 | when nothing was thrown, every slot has an argument, and the non-injected arguments used are one per positional slot |
| Resolver.ArgsFoldPending | packages/context/src/resolver.ts:310-315 | the pending slots are promises, in increasing slot order |
| Resolver.ArgsFoldSession | packages/context/src/resolver.ts:293-316 | the bindings are kept, and exactly the pending injections stay pushed on the session |
| Resolver.SuppliedArgument | packages/context/src/resolver.ts:295-307 | the k-th positional slot gets the k-th non-injected argument |
| Resolver.DirectlyBoundArgument | packages/context/src/resolver.ts:308-315 | a slot whose key holds a direct value gets that value at once and never becomes pending |
| Resolver.PlainParameters | packages/context/src/resolver.ts:262-325 | a method with no descriptors gets the first n non-injected arguments, or reports the first slot that has none |
| Resolver.FillArgsPlaces | packages/context/src/resolver.ts:290-291 | every pending value that is delivered lands in its own slot |
| Resolver.AsyncArgumentsFilled | packages/context/src/resolver.ts:318-324 | when every promise delivers, the arguments promise fulfils with one argument per slot, each pending value in its own slot |
| Resolver.ArgumentsCarryFirstError | packages/context/src/resolver.ts:318-324 | when there are carriers and no rejections, the arguments promise fulfils with the first carrier in slot order |
| Resolver.ResolveSlot | packages/context/src/resolver.ts:293-316 | one turn of the loop changes the array slot, the index, the pending slots and the session exactly as a step of the fold does, and leaves the other slots alone |
| Resolver.ResolveInjectedArguments | packages/context/src/resolver.ts:262-325 | the result and the final session are those of `ArgsResolved`: a missing method, then the fold over the slots, then the finish |
| Resolver.FillProps | packages/context/src/resolver.ts:382-383 | the property setters add exactly the names of the delivered promises and leave the other properties alone |
| Resolver.FillPropsPlaces | packages/context/src/resolver.ts:382-383 | when the names are distinct, every value that is delivered lands under its own name |
| Resolver.PropStepEffect | packages/context/src/resolver.ts:385-400 | a turn throws the "not decorated" error naming the property on an undecorated property; otherwise it places a value under the entry's name, or adds one pending promise that keeps its injection pushed |
| Resolver.PropertyNames | packages/context/src/resolver.ts:385-400 | the names of the recorded properties, and no others |
| Resolver.PropsFoldUndecorated | packages/context/src/resolver.ts:387-392 | any undecorated property makes the whole resolution throw |
| Resolver.PropsFoldNames | packages/context/src/resolver.ts:385-400 | the properties placed and the properties pending are all recorded names, and the pending ones are promises |
| Resolver.PropsFoldSession | packages/context/src/resolver.ts:385-400 | the bindings are kept, and exactly the pending injections stay pushed on the session |
| Resolver.UndecoratedPropertyReported | packages/context/src/resolver.ts:387-392 | the first undecorated property reached without an earlier throw is the one named in the error the resolution throws |
| Resolver.PropertiesCarryFirstError | packages/context/src/resolver.ts:402-408 | when there are carriers and no rejections, the properties promise fulfils with the first carrier in the order the properties were recorded |
| Resolver.DirectlyBoundProperty | packages/context/src/resolver.ts:393-399 | a property whose key holds a direct value is placed at once with that value |
| Resolver.ResolveProperty | packages/context/src/resolver.ts:385-400 | one turn of the loop changes the properties, the pending ones and the session exactly as a step of the fold does |
| Resolver.ResolveInjectedProperties | packages/context/src/resolver.ts:372-409 | the result and the final session are those of `PropsResolved` |
| Resolver.InstantiateSync | packages/context/src/resolver.ts:196-208 | with arguments and properties at hand, the instance is the constructed object with the properties assigned over it |
| Resolver.InstantiateConstructorThrows | packages/context/src/resolver.ts:196-208 | a constructor that throws makes `instantiateClass` throw, whatever the properties are |
| Resolver.InstantiateAsyncArgs | packages/context/src/resolver.ts:196-208 | arguments that arrive later are waited for, and then the instance is built as it would be with the arguments at hand |
| Resolver.InstantiateArgsFailure | packages/context/src/resolver.ts:196-208 | a rejection or a carrier in the arguments skips the constructor and becomes the outcome |
| Resolver.InstantiatePropsCarrier | packages/context/src/resolver.ts:196-208 | a carrier among the properties becomes the instance promise's value |
| Resolver.InstantiatedPlainClass | packages/context/src/resolver.ts:186-209 | a class with no constructor parameters and no injected properties is constructed at once, and the session is left as it was |
| Resolver.InstantiatedUndecoratedConstructor | packages/context/src/resolver.ts:186-193 | a constructor with parameters and no descriptors fails on its first parameter, because `instantiateClass` passes no non-injected arguments on |
| Resolver.InstantiateClass | packages/context/src/resolver.ts:186-209 | arguments, then properties, in one session (a new one when none is given), then the instance; the result and the session are those of `Instantiated` |
| Resolver.InvokeMissingMethod | packages/context/src/resolver.ts:262-275 | a non-empty name that is not a method fails with "Method ... not found" |
| Resolver.InvokeEmptyName | packages/context/src/resolver.ts:335-356 | the empty name passes the first check but fails the second, after its arguments are resolved |
| Resolver.InvokePlainMethod | packages/context/src/resolver.ts:335-356 | a method with no descriptors is called at once with the non-injected arguments it declares |
| Resolver.InvokeMethod | packages/context/src/resolver.ts:335-356 | the result is `Invoked`: arguments resolved without a session, the method checked, then called with them |
| GenerateSchema.GetAbsent | packages/rest/src/router/generate-schema.ts:72-134 | a property that is not there reads as `undefined` |
| GenerateSchema.GetAt | packages/rest/src/router/generate-schema.ts:72-134 | with distinct keys, reading a property gives that property's value |
| GenerateSchema.GetSet | packages/rest/src/router/generate-schema.ts:72-134 | after a write, the property written reads as the new value and every other property reads as before |
| GenerateSchema.ConvertErrorSticks | packages/rest/src/router/generate-schema.ts:79-131 | once a case throws, the remaining properties change nothing |
| GenerateSchema.KeptBetween | packages/rest/src/router/generate-schema.ts:79-131 | turns on other properties leave a property alone, both in the schema and in the input |
| GenerateSchema.ConvertType | packages/rest/src/router/generate-schema.ts:80-90 | an array `type` becomes its first element; any other `type` is kept |
| GenerateSchema.ConvertCopiesOthers | packages/rest/src/router/generate-schema.ts:126-129 | a property the conversion does not know is copied as it is |
| GenerateSchema.ConvertAdditionalProperties | packages/rest/src/router/generate-schema.ts:109-120 | `true` becomes `{}`; another truthy value is converted; a falsy value is left out of the schema |
| GenerateSchema.ConvertKeys | packages/rest/src/router/generate-schema.ts:72-134 | the schema has the definition's properties in the same order, except a falsy `additionalProperties` |
| GenerateSchema.ConvertItems | packages/rest/src/router/generate-schema.ts:121-125 | `items` keeps the first element of an array; the schema holds its conversion; the input's `items` is overwritten in place |
| GenerateSchema.ConvertAllOf | packages/rest/src/router/generate-schema.ts:91-98 | `allOf` is converted element by element, keeping the number and the order |
| GenerateSchema.ConvertProperties | packages/rest/src/router/generate-schema.ts:99-108 | `properties` is converted member by member, keeping the names and the order |
| GenerateSchema.ItemsStayFalsy | packages/rest/src/router/generate-schema.ts:121-125 | a falsy `items` stays falsy in the input for the whole loop |
| GenerateSchema.ConvertArrayNeedsItems | packages/rest/src/router/generate-schema.ts:81-85 | an array `type` without a truthy `items` is refused, wherever `items` stands |
| GenerateSchema.ConvertToSchemaObject | packages/rest/src/router/generate-schema.ts:72-134 | the loop's result is `Convert` of the input: the fold of the switch cases over the properties |
| GenerateSchema.GetSchemaNames | packages/rest/src/router/generate-schema.ts:56-69 | the names contain no empty string, and there are no more names than paths |
| GenerateSchema.SchemaNamesKeepOrder | packages/rest/src/router/generate-schema.ts:56-69 | each path adds its name at the end unless the name is empty (`_.compact`) |
| GenerateSchema.SchemaNameOfFile | packages/rest/src/router/generate-schema.ts:58-66 | a file `<dir>/<stem>.<rest>` is named by its capitalized stem, and an `index` file gets no name |
| BootHelpers.FlattenPaths | packages/boot/src/helpers.ts:41-46 | `flatten` lists every path of the nested listing, left to right |
| BootHelpers.FlattenAppend | packages/boot/src/helpers.ts:41-46 | flattening a concatenation concatenates the flattenings |
| BootHelpers.FlattenFlat | packages/boot/src/helpers.ts:41-46 | a listing with no sub-folders flattens to its own paths |
| BootHelpers.FlattenIdempotent | packages/boot/src/helpers.ts:41-46 | flattening an already flattened listing changes nothing |
| BootHelpers.FlattenNested | packages/boot/src/helpers.ts:41-46 | wrapping a listing in one more level of nesting changes nothing |
| BootHelpers.KeepMatching | packages/boot/src/helpers.ts:50-59 | an item is kept exactly when it is non-empty and passes the test for some extension, and then as many times as it occurs in the input |
| BootHelpers.FilterExts | packages/boot/src/helpers.ts:48-60 | the loop's result is `FilterSpec`: everything when the extension list is empty, and otherwise the matching items |
| BootHelpers.FilterExtsKeeps | packages/boot/src/helpers.ts:48-60 | the result is a subsequence of the input, and with extensions it holds exactly the non-empty items that pass the test, each as many times as it occurs in the input |
| BootHelpers.ShortNamePassesAsWritten | packages/boot/src/helpers.ts:53 | as written, `'ts'` passes the test for `'.ts'` |
| BootHelpers.RepeatedExtensionFailsAsWritten | packages/boot/src/helpers.ts:53 | as written, `'a.ts.ts'` fails the test for `'.ts'` |
| BootHelpers.FilterExtsBySuffix | packages/boot/src/helpers.ts:48-60 | the corrected filter keeps exactly the non-empty items that end with some extension, in order, each as many times as it occurs in the input |
| BootHelpers.SuffixFilterExamples | packages/boot/src/helpers.ts:53 | the corrected filter drops `'ts'` and keeps `'a.ts.ts'` |
| BootHelpers.MatchesWhenOnlyAtEnd | packages/boot/src/helpers.ts:53 | when the extension occurs only at the end of the name, the test as written agrees with the suffix test |

## Left out

- Hand-written thenables: an object with a `then` function but no promise behind it is classified by `IsPromiseLike`. Inside the resolver, though, a direct value is never treated as a promise.
- Scheduling: only the eventual outcome of each promise is modelled. The pop of an injection in `resolve`'s continuation is reported by `Resolve`'s `exitPending` result and is not run later.
- Settle: when several promises reject, `Promise.all` rejects with whichever rejects first in time; the model takes the first in slot order.
- ResolverSession.Lookup: the context's lookup does not receive the session, although `getValueOrPromise` is passed it, and custom resolvers get a read-only view of it. Nested resolutions entering and exiting bindings on the shared session, and cycle detection through them, are not modelled. The claims that the bindings never change, in ResolverSession.ResolveStackEffect, Resolver.ArgsFoldSession and Resolver.PropsFoldSession, rest on this abstraction.
- Collaborators.BindConstant: the key checks of `Binding.validateKey` are not modelled; binding.ts and context.ts are not part of this model. The text of the locked-binding error is therefore not checked against context.ts.
- Context, Binding, `getDeepProperty` and the metadata inspector: these files are not part of this model. They appear as parameters: a context's lookup, a binding's key and options, and the reflection data of a class (`Resolver.Target`).
- `describeInjection` and `DecoratorFactory.getTargetName`: these are not part of this model. The name of a decorated slot is a parameter.
- Debug logging: it is not modelled, because it changes no result.
- Resolver.InstantiateClass: the `nonInjectedArgs` parameter is accepted and ignored, as in the source, so undecorated constructor parameters are reported missing.
- The type errors that JavaScript raises for spreading a non-array (`...args`) and for iterating a non-iterable `allOf` are modelled as errors with fixed messages, not with the runtime's exact text.
- BootHelpers.FilterExts: a `null` or `undefined` extension list is not modelled; the source would throw in `forEach`.
- GenerateSchema.Convert: objects are ordered lists of distinct keys. The `for...in` rule that integer-like keys come first, in ascending order, is not modelled, and the key order is taken as given.
- GenerateSchema.Convert: a definition that shares a sub-object at two places is treated as two copies, so the overwrite of `items` in place is not seen through the other path.
- Capitalize: `_.capitalize` applies only to ASCII letters here, not to the full Unicode case mapping.
- Numbers are integers; floating point is not modelled.

## Findings

| source | as written | input that shows it | evidently intended | confidence | as-written member | corrected member |
|---|---|---|---|---|---|---|
| packages/boot/src/helpers.ts:53 | `item.indexOf(ext) === item.length - ext.length` also holds when `ext` is missing and the item is one character shorter than `ext`, because `indexOf` gives -1 | `filterExts(['ts'], ['.ts'])` keeps `'ts'` | keep only items that end with the extension | not executed | BootHelpers.ShortNamePassesAsWritten | BootHelpers.FilterExtsBySuffix |
| packages/boot/src/helpers.ts:53 | `indexOf` finds the first occurrence, so an item in which the extension also occurs earlier fails | `filterExts(['a.ts.ts'], ['.ts'])` drops `'a.ts.ts'` | keep the item, since it ends with `.ts` | not executed | BootHelpers.RepeatedExtensionFailsAsWritten | BootHelpers.FilterExtsBySuffix |
