# Vue 2 instance state initialisation, modelled in Dafny

This project models the layer of Vue 2 that turns a component's declarations into the
properties of a new instance, and the `_init` sequence around it:

- `src/core/instance/state.js`: `proxy`, `initState`, `initProps`, `initMethods`,
  `initData` and `getData`, `initComputed`, `defineComputed`, the computed getter and the
  getter invoker, `initWatch`, `createWatcher`, and `$watch` with the function it returns.
- `src/core/instance/init.js`: `_init` (the instance id counter and the order of the
  initialisation steps), `initInternalComponent`, `resolveConstructorOptions` and
  `resolveModifiedOptions`.

The files:

- `js.dfy` (module `Js`): JavaScript values, and plain objects as ordered lists of own
  properties, with lookup, assignment and `extend`.
- `reactivity.dfy` (module `Reactivity`): the interface of the dependency-tracking engine
  that this layer uses. It has watchers (`dirty`, `value`, `evaluate()`, `depend()`,
  `teardown()`), the stack behind `Dep.target`, the `shouldObserve` flag and the
  instance id counter. What user code returns and reads is a `World` parameter.
- `state.dfy` (module `State`): the instance as a class `Vm`. Its own and inherited
  properties, `_data` and `_props` form a `Store` value. Each property is a plain field,
  a proxy to `_data` or `_props`, or a computed accessor tagged with the kind of getter
  and setter it was defined with. Every step of `initState` is a method. Each method is
  proved against a specification function (`PropValues`, `PropProxies`,
  `MethodsOutcome`, `DataProxies`, `DataWarnings`, `ComputedOutcome`, `ExpandWatch`,
  `Normalize`), and the lemmas beside those functions state what the source promises.
- `init.dfy` (module `Init`): constructors and their options objects as classes. The
  recursive `resolveConstructorOptions` is modelled with its caches. `_init` is modelled
  as a method that records the steps outside this layer as phases in a trace.

Calls into code that is not modelled become parameters:

- `validateProp` and the reserved-attribute test are fields of `Env`, which also carries
  the build mode and server rendering.
- `mergeOptions` is the `Merger` parameter.
- User functions (data functions, getters, watch callbacks) are described by `World`.

Warnings are recorded as a log of kinds and keys. Errors passed to `handleError` are
recorded as a log of reports. Two kinds of user-function calls are recorded as a log of
calls: a computed setter run by an assignment, and the first call of an immediate watch
callback. The data function, getter invokers and watcher getters are not logged. What
they return and read is given by `World` and `DataCall`.

The code and its commonly stated intent differ on one point, and the model follows the
code. When the data function returns something that is not a plain object, `initData`
replaces only its local variable with `{}` (`src/core/instance/state.js:143-148`).
`_data` keeps the value that was returned, a development build logs a warning, and no
key is proxied.
`State.Vm.InitData` states exactly that.

## Model

| member | source | states |
|---|---|---|
| State.ProxyForwards | src/core/instance/state.js:49-55 | After `proxy`, reading the key returns `target[sourceKey][key]`. Writing `v` stores `v` in the source object with no side effect, and a later read returns `v`. The source's other keys and the instance's members stay as they were. |
| State.Vm.InitProps | src/core/instance/state.js:83-132 | `_propKeys` is exactly the declared keys in order. `_props` maps each key to its validated value, validated with observing off unless the instance is a root. Keys not yet on the instance are proxied to `_props`. `_data` is untouched. Reserved attributes are warned about. Observing is on at the end. |
| State.Vm.InitProp | src/core/instance/state.js:94-128 | One pass of the prop loop extends every one of those facts by one key. |
| State.PropValuesExact | src/core/instance/state.js:85-96 | A key is in `_props` exactly when it is declared, and it holds `validateProp`'s value for it. |
| State.PropProxiesExact | src/core/instance/state.js:126-128 | After the loop, a key is on the instance exactly when it was before or is a prop. Existing members are never replaced. A new prop key is a proxy to `_props`. |
| State.PropWarningsExact | src/core/instance/state.js:99-106 | A prop is reported as a reserved attribute exactly when the build warns, the key is declared, and its hyphenated name is reserved. |
| State.Vm.InitMethods | src/core/instance/state.js:340-367 | The instance, the warnings and the setter calls are those of `MethodsOutcome`, one `vm[key] = ...` assignment per method, in order. |
| State.Vm.WarnMethod | src/core/instance/state.js:343-362 | In a development build, a method is warned about when it is not a function, when it is a prop, and when it is reserved and already on the instance. |
| State.MethodInstalled | src/core/instance/state.js:365 | A method whose name is free or a plain field ends up as a plain property. It holds the bound function, or noop when the declared value is not a function, and reading it returns that. |
| State.MethodsKeepOthers | src/core/instance/state.js:342-366 | A name that is not a method is left as it was, or left absent. |
| State.MethodClash | src/core/instance/state.js:342-356 | Over the whole method list, a method is reported as not a function exactly when a development build finds it declared with a value that is not a function. It is reported as a prop exactly when a development build finds its name among the declared props. |
| State.MethodReservedReported | src/core/instance/state.js:357-361 | Over the whole method list, a method is reported as clashing with a Vue instance method exactly when a development build finds its name reserved and already on the instance when initMethods starts. |
| State.MethodsKeepKeys | src/core/instance/state.js:342-366 | initMethods removes no member from the instance. |
| State.MethodThroughPropProxy | src/core/instance/state.js:365 | A method named like a proxied prop is written through the proxy into `_props`. The members are unchanged. |
| State.Vm.GetData | src/core/instance/state.js:185-199 | The target stack is exactly as it was afterwards, whether or not the function throws. A result is returned as is. A throw yields `{}` and reports the error. |
| State.ResolvedData | src/core/instance/state.js:141-148 | `_data` is `{}` for a falsy data option and for a throwing data function. A truthy data value is kept as given. |
| State.Vm.InitData | src/core/instance/state.js:141-183 | `_data` is `ResolvedData(data)`. The error log grows only by a data-function throw. `_props` is untouched. When `_data` is not a plain object, a development build logs one warning, and nothing is proxied in any build. Otherwise the members and warnings follow `DataProxies` and `DataWarnings` over the keys. |
| State.Vm.ProxyData | src/core/instance/state.js:156-180 | The `while (i--)` loop from the last key to the first yields exactly `DataProxies` and `DataWarnings`. |
| State.DataProxiesExact | src/core/instance/state.js:170-179 | A data key that is neither a prop nor reserved is proxied to `_data`, replacing what the instance had. Every other member is left alone, and no other key is added. |
| State.DataPropClash | src/core/instance/state.js:162-175 | A data key is reported as a prop exactly when it is a declared prop, and as a method exactly when it is a declared method (development build). |
| State.DataWarningsReversed | src/core/instance/state.js:159-161 | Keys are visited from last to first: the warnings for later keys precede those for earlier ones. |
| State.SelectAccessor | src/core/instance/state.js:268-292 | For a definition that is not null or undefined: the cached getter appears exactly when caching is on and the definition is a function, or an object with a `get` and `cache !== false`. A noop getter appears exactly when an object has no `get`; otherwise the getter is an invoker of that getter. A user setter appears exactly when an object has a truthy `set` other than `noop`. The warning setter appears exactly when a development build has no such setter. |
| State.Vm.DefineComputed | src/core/instance/state.js:263-301 | `Object.defineProperty` throws exactly when the definition is an object whose `set` is truthy but not a function, and then the instance is unchanged. Otherwise the key gets the accessor `SelectAccessor` chooses, caching iff not server rendering, and every other member, `_data` and `_props` stay as they were. |
| State.Vm.InitComputed | src/core/instance/state.js:210-256 | `_computedWatchers` becomes an own field. The instance, the warnings and whether it throws are those of `ComputedOutcome`. `_computedWatchers` has exactly the keys `ComputedReached` counts, or none under server rendering. Each such key maps to a fresh lazy watcher on `getter \|\| noop` that has not been evaluated, one per key in order, appended to `_watchers` with none repeated. So it throws exactly as `ComputedThrowsExact` says, including the TypeError `Object.defineProperty` raises for a `set` that is not a function. |
| State.Vm.ComputedKey | src/core/instance/state.js:217-254 | A null or undefined definition throws before anything changes. Otherwise a key not on the instance gets `SelectAccessor`'s accessor, unless the definition's `set` is truthy but not a function: then `Object.defineProperty` throws and the key stays undefined. A key already there is kept. The warnings report a missing getter, then a data or prop clash. In a development build, the clash check on a key already on the instance throws exactly when `_data` is not an object. |
| State.Vm.ComputedEntry | src/core/instance/state.js:216-254 | One pass of the loop registers a fresh unevaluated lazy watcher unless server rendering or a null or undefined definition throws first, and keeps the loop's account of store, warnings and watchers one key further. |
| State.ComputedThrowsExact | src/core/instance/state.js:217-300 | initComputed throws exactly when some definition is null or undefined, when a key not yet on the instance has a definition whose `set` is truthy but not a function, or when a development build with `_data` not an object has a computed key already on the instance. |
| State.ComputedThrowsOnly | src/core/instance/state.js:217-300 | The same throw, stated without the instance: it needs a null or undefined definition, a definition with a truthy `set` that is not a function, or a development build with `_data` not an object. |
| State.ComputedLoopEnd | src/core/instance/state.js:216-255 | The loop stops at the end or just after the key that threw. That is where `ComputedOutcome` stops, and the watchers made are the keys before it, plus that key unless its definition is null or undefined. |
| State.ComputedReachedAt | src/core/instance/state.js:216-238 | A throw at the i-th key leaves watchers for the keys before it, and for the i-th key too unless its definition is null or undefined. |
| State.ComputedDefined | src/core/instance/state.js:246-300 | After initComputed, a key it reached that is already on the instance keeps what it had. A key that was not there is defined exactly when its `set` is not a truthy non-function, and then holds the selected accessor. |
| State.ComputedKeepOthers | src/core/instance/state.js:216-255 | initComputed leaves `_data`, `_props` and every non-computed name untouched, and removes nothing. |
| State.ComputedKeyClash | src/core/instance/state.js:248-253 | For one key, the data clash is reported exactly when a development build finds the key already on the instance and in `_data`. The prop clash is reported exactly when it is on the instance, `_data` is an object without it, and it is a declared prop. |
| State.ComputedClashReported | src/core/instance/state.js:246-253 | Over all the keys initComputed reaches, with unique keys, the same two if-and-only-if statements as `ComputedKeyClash`. |
| State.MissingGetterReported | src/core/instance/state.js:219-227 | A reached computed key whose `get` is null or undefined is reported in a development build. |
| State.Vm.ComputedGetter | src/core/instance/state.js:307-327 | The watcher is evaluated exactly when it was dirty, and is clean afterwards. Its dependencies are added to `Dep.target` only when a target is set. The result is the watcher's value, or undefined when no watcher is registered. The target stack is unchanged. |
| State.Vm.ReadComputedTwice | src/core/instance/state.js:314-318 | Two reads with no update between evaluate the getter at most once and return the same value. |
| State.Vm.Read | src/core/instance/state.js:307-333 | Reading a property: a proxy or field reads through, a cached getter returns the watcher's value, an invoker calls its function, and noop returns undefined. |
| State.Vm.Write | src/core/instance/state.js:52-54 | Writing a property: a proxy writes to its source, an accessor calls its setter or warns, and anything else becomes a plain field. |
| State.Normalize | src/core/instance/state.js:386-401 | Normalising never leaves a plain-object handler. A plain object supplies its own options. Other handlers keep the options given. A function or array handler is unchanged. |
| State.Vm.CreateWatcher | src/core/instance/state.js:386-401 | A fresh user watcher on the expression is appended to `_watchers`, with the callback and options of `Normalize`. The immediate-call and error facts are those of `$watch`. |
| State.Vm.Watch | src/core/instance/state.js:435-454 | `options.user` is forced on. A plain-object callback goes through createWatcher. An immediate watcher calls its callback once with the watcher's value, and a throw is reported. A non-immediate watcher calls nothing. |
| Reactivity.Watcher.Teardown | src/core/instance/state.js:455-457 | The function `$watch` returns tears the watcher down: it becomes inactive and drops all its dependencies. |
| State.Vm.InitWatch | src/core/instance/state.js:373-384 | `_watchers` is extended by fresh watchers, one per `ExpandWatch` entry in order. Each is a user watcher on its key, built by `Normalize`. |
| State.Vm.WatchEntry | src/core/instance/state.js:375-382 | One declaration yields one watcher per array element in order, or exactly one. |
| State.ExpandWatchCount | src/core/instance/state.js:376-382 | The number of watchers initWatch creates is the number of array elements plus one per non-array handler. |
| State.Vm.InitState | src/core/instance/state.js:58-72 | `_watchers`, `_data`, `_props` (with props) and `_computedWatchers` (with computed properties) become own fields, and no member is removed. `_data` is `ResolvedData`. `_propKeys` and observing follow initProps. Without a throw, `_watchers` holds exactly the computed watchers, registered under their keys in `_computedWatchers`, then the user watchers built by `Normalize`. A throw happens only when initComputed throws, after some prefix of the computed keys has been registered. That needs a null or undefined computed definition, one whose `set` is truthy but not a function, or a development build with `_data` not an object. `$options`, `$parent` and the trace are unchanged, and so is the target stack. |
| Reactivity.Runtime.PushTarget | src/core/instance/state.js:188 | The pushed watcher becomes `Dep.target`. |
| Reactivity.Runtime.PopTarget | src/core/instance/state.js:197 | The top of the stack is removed. |
| Reactivity.Runtime.ToggleObserving | src/core/instance/state.js:92 | The observing flag is set to the given value. |
| Reactivity.Watcher.Evaluate | src/core/instance/state.js:316-318 | The value and dependencies become those of the expression, the watcher is clean, and the stack is unchanged. |
| Reactivity.Watcher.Depend | src/core/instance/state.js:320-322 | `Dep.target` collects every dependency of the watcher. |
| Reactivity.Runtime.NextUid | src/core/instance/init.js:54 | The id handed out is the old counter and exceeds every earlier id. The counter grows by one. |
| Init.Stamp | src/core/instance/init.js:54-65 | The own field `_uid` holds the counter's old value, which exceeds every id issued before. `_isVue` is `true`. The counter grows by one, and nothing else changes. |
| Init.ResolveModifiedOptions | src/core/instance/init.js:201-212 | The result is undefined exactly when no own key of `latest` differs from `sealed`. Otherwise it holds exactly the differing keys, each at its latest value, and keys only in `sealed` are ignored. |
| Init.DiffStep | src/core/instance/init.js:205-209 | One turn of the loop records a differing key with its latest value and leaves the result alone for any other key. |
| Init.AbsorbModified | src/core/instance/init.js:189-191 | Extending `extendOptions` with the modified options makes each differing key read as in the latest options and leaves every other key as before. |
| Init.Register | src/core/instance/init.js:193-195 | A truthy name maps to the constructor. Every other registered component stays, and nothing else is added. |
| Init.ResolveConstructorOptions | src/core/instance/init.js:177-199 | The result is the constructor's options, and afterwards every constructor up the chain has cached its parent's options. Without `super`, or when the cache matches, nothing changes. Otherwise the options are fresh, `extendOptions` absorbed the late modifications, and the options are `mergeOptions` of the parent's and `extendOptions`, with the name registered. |
| Init.Refresh | src/core/instance/init.js:185-195 | The stale-cache branch: caches the parent's options, absorbs the modifications, merges again, and registers the name. |
| Init.InitInternalComponent | src/core/instance/init.js:151-171 | The instance options take the constructor's declarations, `parent` and `_parentVnode`. From the vnode's component options they take `propsData`, `listeners` as `_parentListeners`, `children` as `_renderChildren`, and `tag` as `_componentTag`. They take `render` and `staticRenderFns` only when a render function is passed. |
| Init.InitPhases | src/core/instance/init.js:128-141 | The steps run in a fixed order. initState comes after `beforeCreate` and before `created`, and it happens exactly once. The mount is the last step and happens only when `el` is truthy. |
| Init.Init | src/core/instance/init.js:51-142 | The instance gets the next id, issued above all earlier ones. `_uid`, `_isVue`, `$options`, `_renderProxy`, `_self`, `$parent`, `_watchers` and `_data` are own fields. The options come from initInternalComponent for internal options, or from `mergeOptions` of the resolved constructor options otherwise. `$parent` is the `parent` option. The trace grows by `InitPhases`, or stops after `initInjections` when initState throws, which it does only for a null or undefined computed definition, a computed `set` that is truthy but not a function, or a development-build clash check on a non-object `_data`. The target stack is unchanged. `_data` and the number of watchers are as initState makes them. |
| Init.MergeInitOptions | src/core/instance/init.js:67-78 | `$options` becomes an own field and the options are well formed. They come from initInternalComponent for internal options, or from `mergeOptions` of the resolved constructor options otherwise. |
| Init.RunInitPhases | src/core/instance/init.js:80-141 | `_renderProxy`, `_self`, `$parent`, `_watchers` and `_data` become own fields, and `$parent` is the `parent` option. The trace grows by `InitPhases`, or only by the steps before initState when it throws. |

## Left out

- The internals of `Dep`, `Watcher`, `observe`, `defineReactive`, `set` and `del` are not
  part of this model. Watchers keep only the fields this layer reads. `observe(data, true)`
  and the reactive conversion of `_props` are not modelled. Neither is the setter that
  warns when a prop is mutated outside `updateChildComponent`, because it lives inside
  `defineReactive`.
- `mergeOptions`, `validateProp` and the reserved-attribute check are parameters: the
  `Merger` and `Env` values. User functions are described by the `World` parameter.
- `initProxy`, `initLifecycle`, `initEvents`, `initRender`, `callHook`, `initInjections`,
  `initProvide` and `$mount` are phase markers in the instance's trace. Of what they
  set, only `_renderProxy`, `_self` and `$parent` are modelled. initLifecycle's skip
  over abstract parents and its `$children.push` are not modelled: `$parent` is the
  `parent` option as given.
- The own fields that hold internal objects (`_uid`, `_isVue`, `$options`,
  `_renderProxy`, `_self`, `$parent`, `_watchers`, `_data`, `_props`,
  `_computedWatchers`) are members for `key in vm`. Apart from `_uid`, `_isVue` and
  `$parent`, they hold a token for the object. An assignment through such a member
  changes the member, not the instance's `options`, `watchers` or other fields.
- The performance marks, the `formatComponentName` call and the text of warnings are
  not modelled. Warnings are kinds with keys.
- Server rendering and the build mode are boolean parameters.
- `Object.defineProperty` descriptors and the shared descriptor object are not
  modelled. A defined property is a tagged member.
- `key in vm` is membership among the instance's members: those inherited from the
  prototype chain, which the instance is created with, and the own fields listed above.
  The other own fields that the steps outside this layer set are not members.
  `Object.prototype` is not modelled. `key in _data` on a `_data` that is an object but
  not a plain object is taken to be false.
- Firefox's native `Object.prototype.watch` is not modelled. A `watch` option equal to
  it is treated as absent.
- Numbers are integers. NaN and fractions are not modelled, so `!==` on values is
  structural equality. Two `bind` results of the same function compare equal, although
  JavaScript makes them distinct objects.
- The `uid` counter and `Watcher.evaluations` are unbounded. Precision loss past 2^53
  is not modelled.
- `options.components` is keyed by the name value rather than its string form.
- Init.InitInternalComponent: `Object.create(vm.constructor.options)` is modelled as a
  copy of the constructor's declarations (the `Merger`'s `declared` view). A change made
  later to the constructor's options does not show through.
- Init.ResolveConstructorOptions: `extend(Ctor.extendOptions, modified)` is modelled as
  reassigning `extendOptions` with a new list. Any other reference to the old object
  does not see the change. The contract states the values read afterwards, not the
  order of keys.
- Init.ResolveConstructorOptions: an options object's own properties are fixed when it
  is created. The source changes `Ctor.options` in place after it is sealed, which is
  the case the modified-options check exists for. In the model such a change can only
  be made by giving the constructor a new `Options` object. Its new identity makes a
  subclass's `superOptions !== cachedSuperOptions` test fire, so the subclass merges
  again where the source, which keeps the same object, would not.
- Init.Init: on the internal-component path it states only `parent`, `_parentVnode`
  and the props declaration. `Init.InitInternalComponent` states the rest of the copied
  fields.
- State.Vm.InitProps: `validateProp` is a total function of the key and the observing
  flag. A throw from a prop's `default` factory or validator is not modelled. In the
  source such a throw leaves observing off and ends `_init`, so `rt.observing` at the
  end holds only because validateProp never throws.
- State.Vm.InitProps: `validateProp` is not given the props declaration or
  `propsData`. The `propsData` that initInternalComponent copies is therefore not
  linked to the values in `_props`.
- State.Vm.InitState: states the data, prop keys, observing flag, computed watchers,
  own fields, target stack and watcher list. The other members, warnings and calls are
  stated step by step by InitProps, InitMethods, InitData, InitComputed and InitWatch,
  not composed here. The direction "initComputed throws, so initState throws" is not
  stated here either. `State.ComputedThrowsExact` states both directions for
  initComputed.
- State.Normalize: a string handler that names a property holding a plain object
  resolves to that object as the callback. `$watch` would send it back through
  createWatcher to take its `handler` and options. The model does not re-route it.
- State.SelectAccessor: requires a definition that is not null or undefined, because
  initComputed throws on such a definition before it gets here. `State.Vm.ComputedKey`
  and `State.ComputedThrowsExact` state that throw.
- State.Vm.DefineComputed: requires a definition that is not null or undefined, for the
  same reason.
- State.ComputedDefined: speaks only of a key whose definition is not null or undefined,
  since no accessor is defined for the others.
- State.MissingGetterReported: speaks only of a key whose definition is not null or
  undefined. For the others, reading `get` throws before the warning.
- A computed definition that is a primitive other than null or undefined reads as an
  object without `get`, `set` or `cache`. A definition taken as a function must be one
  (`WellFormed`), and so must a data function. A data value is never a function.
- State.Vm.CreateWatcher: when a string handler names a computed property, the
  callback is whatever the computed getter returns at that moment, so the contract only
  says the watcher is a user watcher on the expression.
- State.Vm.InitWatch: for the same reason, `MadeBy` ties each watcher's callback and
  options to `Normalize` only when no string handler names a computed property.
- State.Vm.Write: a user setter run by an assignment, such as initMethods' `vm[key] = ...`
  on a computed property, is assumed not to throw. The call is logged, and a throw from
  it is not modelled.
- The enumeration order of `for ... in` is the order of the property list given.
